// The notes an output still has to switch off when it is closed.
module ActiveNotes {
  import opened Wrappers
  import opened Midi
  import S = SourceMidiState

  /** The notes of a channel that a message makes the tracker forget, whatever they are. */
  predicate ForgetsChannel(data: seq<byte>, channel: int) {
    || data == [0xFF]
    || (|data| == 3 && Kind(data[0]) == 11 && data[1] in {120, 123} && Channel(data[0]) == channel)
  }

  predicate Has(notes: S.Masks, h: Held) {
    h.Key? && 0 <= h.channel < 16 && h.note in notes[h.channel]
  }

  /** The keys noted after a message. The mode changes 124 to 127 leave them noted. */
  ghost predicate Noted(before: S.Masks, data: seq<byte>, after: S.Masks) {
    forall h: Held :: h.Key? && 0 <= h.channel < 16 ==>
      (Has(after, h) <==>
        !ForgetsChannel(data, h.channel) &&
        (EffectOn(data, h) == Press
         || (Has(before, h) && (EffectOn(data, h) == Keep || Kind(data[0]) == 11))))
  }

  /** Channel by channel, a Note-Off for each noted key. */
  function Offs(notes: S.Masks, from: int): seq<seq<byte>>
    requires 0 <= from <= 16
    decreases 16 - from
  {
    if from == 16 then [] else S.NoteOffs(from, notes[from], 0) + Offs(notes, from + 1)
  }

  class ActiveNotes {
    var notes: S.Masks

    constructor ()
      ensures notes == S.NO_NOTES
    {
      notes := S.NO_NOTES;
    }

    method Observe(data: seq<byte>)
      modifies this
      ensures Noted(old(notes), data, notes)
      ensures S.OnlyMidiNotes(S.EMPTY.(notes := old(notes))) ==> S.OnlyMidiNotes(S.EMPTY.(notes := notes))
    {
      var parsed := ParseNote(data);
      if parsed.Some? {
        ParsedNote(data);
        var channel, note := parsed.value.channel - 1, parsed.value.note;
        notes := notes[channel := if parsed.value.on then notes[channel] + {note} else notes[channel] - {note}];
      } else if data == [0xFF] {
        notes := S.NO_NOTES;
      } else {
        UnparsedNote(data);
        if |data| == 3 && Kind(data[0]) == 11 && data[1] in {120, 123} {
          notes := notes[Channel(data[0]) := {}];
        }
      }
    }

    /** Send a Note-Off for every noted key, and forget them. */
    method ReleaseAll() returns (sent: seq<seq<byte>>)
      modifies this
      ensures notes == S.NO_NOTES && sent == Offs(old(notes), 0)
    {
      hide S.NoteOffs;
      sent := [];
      for channel := 0 to 16
        invariant forall c :: 0 <= c < 16 ==> notes[c] == if c < channel then {} else old(notes)[c]
        invariant sent + Offs(old(notes), channel) == Offs(old(notes), 0)
      {
        ghost var all := S.NoteOffs(channel, notes[channel], 0);
        ghost var before := sent;
        while notes[channel] != {}
          invariant forall c :: 0 <= c < 16 && c != channel ==> notes[c] == if c < channel then {} else old(notes)[c]
          invariant sent + S.NoteOffs(channel, notes[channel], 0) == before + all
          decreases notes[channel]
        {
          var note := S.TrailingZeros(notes[channel]);
          S.LowestFirst(channel, notes[channel], note, 0);
          S.MoveAcross(sent, [S.NoteOff(channel, note)], S.NoteOffs(channel, notes[channel] - {note}, 0));
          sent := sent + [S.NoteOff(channel, note)];
          notes := notes[channel := notes[channel] - {note}];
        }
        S.NothingLeft(channel, 0);
        assert sent == before + all;
        S.MoveAcross(before, all, Offs(old(notes), channel + 1));
      }
      assert notes == S.NO_NOTES;
    }
  }

  lemma ParsedNote(data: seq<byte>)
    requires ParseNote(data).Some?
    ensures var n := ParseNote(data).value;
            && 1 <= n.channel <= 16 && n.note < 128 && Kind(data[0]) != 11
            && forall h: Held :: EffectOn(data, h) == if h == Key(n.channel - 1, n.note)
               then (if n.on then Press else Release) else Keep
  {
    assert data[1] in data[1..];
  }

  lemma UnparsedNote(data: seq<byte>)
    requires ParseNote(data).None?
    ensures forall h: Held :: EffectOn(data, h) != Keep && h.Key? ==>
              EffectOn(data, h) == Release && Kind(data[0]) == 11
  {
  }

  // ------------------------------------------------------------------ what it achieves

  ghost predicate IsHistory(states: seq<S.Masks>, messages: seq<seq<byte>>) {
    |states| == |messages| + 1 && forall i :: 0 <= i < |messages| ==> Noted(states[i], messages[i], states[i + 1])
  }

  /** Between resets, every key that the messages leave pressed is noted. */
  lemma {:induction false} NoPressedKeyIsForgotten(states: seq<S.Masks>, messages: seq<seq<byte>>, h: Held, held: bool)
    requires IsHistory(states, messages) && h.Key? && 0 <= h.channel < 16
    requires forall m :: m in messages ==> IsWellFormed(m) && m != [0xFF]
    requires held ==> Has(states[0], h)
    ensures Holding(h, held, messages) ==> Has(states[|messages|], h)
    decreases |messages|
  {
    if messages != [] {
      var m := messages[0];
      assert m in messages && Noted(states[0], m, states[1]);
      WellFormedForgets(m, h);
      var effect := EffectOn(m, h);
      NoPressedKeyIsForgotten(states[1..], messages[1..], h, effect == Press || (effect == Keep && held));
    }
  }

  lemma WellFormedForgets(m: seq<byte>, h: Held)
    requires IsWellFormed(m) && m != [0xFF] && h.Key?
    ensures ForgetsChannel(m, h.channel) ==> EffectOn(m, h) == Release
  {
  }

  lemma {:induction false} OffsMembers(notes: S.Masks, from: int, d: seq<byte>)
    requires 0 <= from <= 16
    ensures d in Offs(notes, from) <==>
              exists c, k: byte :: from <= c < 16 && k in notes[c] && d == S.NoteOff(c, k)
    decreases 16 - from
  {
    hide S.NoteOffs;
    if from < 16 {
      S.NoteOffsMembers(from, notes[from], 0, d);
      OffsMembers(notes, from + 1, d);
    }
  }

  /** Whatever was played since the last reset, the releases sent on closing leave no key down. */
  lemma ClosingSilences(states: seq<S.Masks>, messages: seq<seq<byte>>, h: Held)
    requires IsHistory(states, messages) && states[0] == S.NO_NOTES
    requires forall m :: m in messages ==> IsWellFormed(m) && m != [0xFF]
    requires h.Key? && 0 <= h.channel < 16 && 0 <= h.note < 128
    ensures !Holding(h, false, messages + Offs(states[|messages|], 0))
  {
    hide Holding, Offs, EffectOn, Noted;
    var notes := states[|messages|];
    var offs := Offs(notes, 0);
    HoldingConcat(h, false, messages, offs);
    NoPressedKeyIsForgotten(states, messages, h, false);
    forall m | m in offs
      ensures EffectOn(m, h) != Press
    {
      OffsMembers(notes, 0, m);
      var c, k: byte :| 0 <= c < 16 && k in notes[c] && m == S.NoteOff(c, k);
      NoteOffReleases(c, k, h);
    }
    if Has(notes, h) {
      var d := S.NoteOff(h.channel, h.note);
      OffsMembers(notes, 0, d);
      assert d in offs;
      var i :| 0 <= i < |offs| && offs[i] == d;
      NoteOffReleases(h.channel, h.note, h);
      ReleasedBy(h, Holding(h, false, messages), offs, i);
    } else {
      StaysReleased(h, offs);
    }
  }

  lemma NoteOffReleases(c: int, k: byte, h: Held)
    requires 0 <= c < 16
    ensures EffectOn(S.NoteOff(c, k), h) != Press
    ensures h == Key(c, k) && k < 128 ==> EffectOn(S.NoteOff(c, k), h) == Release
  {
    var d := S.NoteOff(c, k);
    assert d[1..] == [k, 0];
  }
}
