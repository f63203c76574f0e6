// MIDI bytes: validation, normalisation, and what a message presses or releases.
module Midi {
  import opened Wrappers

  type byte = x: int | 0 <= x < 256 witness 0

  const NOTE_MIN: int := 21
  const NOTE_MAX: int := 108

  /** The high nibble of a status byte. */
  function Kind(status: byte): int {
    status / 16
  }

  function Channel(status: byte): (c: int)
    ensures 0 <= c < 16
  {
    status % 16
  }

  predicate IsData(bytes: seq<byte>) {
    forall b :: b in bytes ==> b < 0x80
  }

  /** A complete channel voice or mode message of three bytes. */
  predicate IsChannelMessage(data: seq<byte>) {
    |data| == 3 && 8 <= Kind(data[0]) < 15 && IsData(data[1..])
  }

  predicate IsCriticalRelease(data: seq<byte>) {
    if data == [0xFF] then true
    else if |data| < 3 then false
    else
      var kind := Kind(data[0]);
      || kind == 8
      || (kind == 9 && data[2] == 0)
      || (kind == 11 && data[1] in {64, 66, 69} && data[2] < 64)
      || (kind == 11 && (data[1] in {120, 121} || 123 <= data[1] <= 127))
  }

  // ------------------------------------------------------------ normalisation

  function ExpectedLength(status: byte): Option<int> {
    if 0x80 <= status <= 0xBF || 0xE0 <= status <= 0xEF || status == 0xF2 then Some(3)
    else if 0xC0 <= status <= 0xDF || status == 0xF1 || status == 0xF3 then Some(2)
    else if status in {0xF6, 0xF8, 0xFA, 0xFB, 0xFC, 0xFE, 0xFF} then Some(1)
    else None
  }

  predicate IsSysex(data: seq<byte>) {
    && |data| >= 2 && data[0] == 0xF0 && data[|data| - 1] == 0xF7
    && IsData(data[1..|data| - 1])
  }

  predicate IsWellFormed(data: seq<byte>) {
    data != [] &&
    (IsSysex(data) || (ExpectedLength(data[0]) == Some(|data|) && IsData(data[1..])))
  }

  /** A Note-On of velocity zero is spelled as a Note-Off; everything else is kept. */
  function Canonical(data: seq<byte>): seq<byte> {
    if |data| == 3 && Kind(data[0]) == 9 && data[2] == 0 then [0x80 + Channel(data[0]), data[1], 0] else data
  }

  method NormalizeMessage(data: array<byte>) returns (ok: bool)
    modifies data
    ensures ok <==> IsWellFormed(old(data[..]))
    ensures data[..] == if ok then Canonical(old(data[..])) else old(data[..])
  {
    if data.Length == 0 {
      return false;
    }
    var status := data[0];
    if status == 0xF0 {
      if data.Length < 2 || data[data.Length - 1] != 0xF7 {
        return false;
      }
      assert data[1..data.Length - 1] == data[..][1..data.Length - 1];
      ok := AllData(data, 1, data.Length - 1);
      return;
    }
    var expected := ExpectedLength(status);
    if expected == None {
      return false;
    }
    if data.Length != expected.value {
      return false;
    }
    assert data[1..data.Length] == data[..][1..];
    ok := AllData(data, 1, data.Length);
    if ok && Kind(status) == 9 && data[2] == 0 {
      data[0] := 0x80 + Channel(status);
    }
  }

  method AllData(data: array<byte>, lo: nat, hi: nat) returns (all: bool)
    requires lo <= hi <= data.Length
    ensures all <==> IsData(data[lo..hi])
  {
    for i := lo to hi
      invariant IsData(data[lo..i])
    {
      if data[i] >= 0x80 {
        assert data[i] in data[lo..hi];
        return false;
      }
      assert data[lo..i + 1] == data[lo..i] + [data[i]];
    }
    all := true;
  }

  /** Normalising twice changes nothing, and keeps a release a release. */
  lemma CanonicalIsStable(data: seq<byte>)
    requires IsWellFormed(data)
    ensures IsWellFormed(Canonical(data)) && Canonical(Canonical(data)) == Canonical(data)
    ensures IsCriticalRelease(Canonical(data)) <==> IsCriticalRelease(data)
    ensures forall h :: EffectOn(Canonical(data), h) == EffectOn(data, h)
  {
    if |data| == 3 && Kind(data[0]) == 9 && data[2] == 0 {
      var c := Canonical(data);
      assert c[1..] == [data[1], data[2]] == data[1..];
      assert Kind(c[0]) == 8 && Channel(c[0]) == Channel(data[0]);
    }
  }

  /**
   * The messages that are accepted: channel messages and system common messages of the length their
   * status calls for, real-time messages, and framed system exclusive ones; data bytes below 128.
   */
  lemma AcceptedMessages(data: seq<byte>)
    ensures IsWellFormed(data) <==>
            || (|data| == 1 && data[0] in {0xF6, 0xF8, 0xFA, 0xFB, 0xFC, 0xFE, 0xFF})
            || (|data| == 2 && (0xC0 <= data[0] <= 0xDF || data[0] in {0xF1, 0xF3}) && data[1] < 128)
            || (|data| == 3 && (0x80 <= data[0] <= 0xBF || 0xE0 <= data[0] <= 0xEF || data[0] == 0xF2)
                && data[1] < 128 && data[2] < 128)
            || (|data| >= 2 && data[0] == 0xF0 && data[|data| - 1] == 0xF7
                && forall i :: 0 < i < |data| - 1 ==> data[i] < 128)
  {
    if data != [] {
      assert data[1..] == data[1..|data|];
      DataFrom(data, |data|);
      if |data| >= 2 { DataFrom(data, |data| - 1); }
    }
  }

  lemma DataFrom(data: seq<byte>, end: nat)
    requires 1 <= end <= |data|
    ensures IsData(data[1..end]) <==> forall i :: 0 < i < end ==> data[i] < 128
  {
    if IsData(data[1..end]) {
      forall i | 0 < i < end
        ensures data[i] < 128
      {
        assert data[i] == data[1..end][i - 1] && data[i] in data[1..end];
      }
    }
  }

  /** Normalising respells a Note-On of velocity zero of each of the sixteen channels, and nothing else. */
  lemma CanonicalForms(channel: int, note: byte, data: seq<byte>)
    requires 0 <= channel < 16 && note < 128
    ensures Canonical([0x90 + channel, note, 0]) == [0x80 + channel, note, 0]
    ensures IsWellFormed(data) && (|data| != 3 || !(0x90 <= data[0] <= 0x9F) || data[2] > 0) ==> Canonical(data) == data
  {
  }

  // ---------------------------------------------------------------- note parsing

  datatype Note = NoteMessage(note: byte, channel: int, index: Option<int>, on: bool)

  function AdjustNote(note: byte): Option<int> {
    if NOTE_MIN <= note <= NOTE_MAX then Some(note - NOTE_MIN + 1) else None
  }

  function ParseNote(data: seq<byte>): Option<Note> {
    if |data| != 3 || !IsData(data[1..]) then None
    else if Kind(data[0]) == 9 then
      Some(NoteMessage(data[1], Channel(data[0]) + 1, AdjustNote(data[1]), data[2] != 0))
    else if Kind(data[0]) == 8 then
      Some(NoteMessage(data[1], Channel(data[0]) + 1, AdjustNote(data[1]), false))
    else None
  }

  /** Notes count channels from one, and the 88 keys of a piano from its lowest A, number 21. */
  lemma ParsedNotes(status: byte, note: byte, velocity: byte)
    requires note < 128 && velocity < 128
    ensures var key := if 21 <= note <= 108 then Some(note - 20) else None;
            ParseNote([status, note, velocity]) ==
            if 0x80 <= status < 0x90 then Some(NoteMessage(note, status - 0x7F, key, false))
            else if 0x90 <= status < 0xA0 then Some(NoteMessage(note, status - 0x8F, key, velocity > 0))
            else None
  {
    assert [status, note, velocity][1..] == [note, velocity];
  }

  // ---------------------------------------------- what a message holds or releases

  /** Something a player can hold down: a key of a channel, or one of its hold pedals. */
  datatype Held = Key(channel: int, note: int) | Pedal(channel: int, controller: int)

  datatype Effect = Press | Release | Keep

  const HOLD_PEDALS: seq<byte> := [64, 66, 69]

  function EffectOn(data: seq<byte>, h: Held): Effect {
    if !IsChannelMessage(data) || h.channel != Channel(data[0]) then Keep
    else if Kind(data[0]) == 9 && data[2] > 0 then
      if h.Key? && h.note == data[1] then Press else Keep
    else if Kind(data[0]) in {8, 9} then
      if h.Key? && h.note == data[1] then Release else Keep
    else if Kind(data[0]) == 11 then
      if data[1] in HOLD_PEDALS then
        if h.Pedal? && h.controller == data[1] then (if data[2] >= 64 then Press else Release) else Keep
      else if data[1] == 120 || 123 <= data[1] <= 127 then
        if h.Key? then Release else Keep
      else if data[1] == 121 then
        if h.Pedal? then Release else Keep
      else Keep
    else Keep
  }

  /**
   * Which bytes press and release what. A Note-On presses its key, and a Note-Off or a Note-On of
   * velocity zero releases it. The three hold pedals are pressed from 64 on and released below. All
   * Sound Off, All Notes Off and the mode changes release a channel's keys, Reset All Controllers
   * its pedals. Nothing else presses or releases.
   */
  lemma EffectsOfBytes(data: seq<byte>, h: Held)
    requires IsWellFormed(data)
    ensures EffectOn(data, h) == Press <==>
            |data| == 3 &&
            (|| (0x90 <= data[0] <= 0x9F && data[2] > 0 && h == Key(data[0] - 0x90, data[1]))
             || (0xB0 <= data[0] <= 0xBF && data[1] in {64, 66, 69} && data[2] >= 64
                 && h == Pedal(data[0] - 0xB0, data[1])))
    ensures EffectOn(data, h) == Release <==>
            |data| == 3 &&
            (|| (0x80 <= data[0] <= 0x8F && h == Key(data[0] - 0x80, data[1]))
             || (0x90 <= data[0] <= 0x9F && data[2] == 0 && h == Key(data[0] - 0x90, data[1]))
             || (0xB0 <= data[0] <= 0xBF && data[1] in {64, 66, 69} && data[2] < 64
                 && h == Pedal(data[0] - 0xB0, data[1]))
             || (0xB0 <= data[0] <= 0xBF && data[1] in {120, 123, 124, 125, 126, 127}
                 && h.Key? && h.channel == data[0] - 0xB0)
             || (0xB0 <= data[0] <= 0xBF && data[1] == 121 && h.Pedal? && h.channel == data[0] - 0xB0))
  {
    AcceptedMessages(data);
    if |data| == 3 { assert data[1..] == [data[1], data[2]]; }
  }

  /** The critical channel messages are exactly those that release something. */
  lemma CriticalMeansReleasing(data: seq<byte>)
    requires IsChannelMessage(data)
    ensures IsCriticalRelease(data) <==> exists h :: EffectOn(data, h) == Release
  {
    var c := Channel(data[0]);
    if IsCriticalRelease(data) {
      var h := if Kind(data[0]) != 11 then Key(c, data[1])
               else if data[1] in HOLD_PEDALS then Pedal(c, data[1])
               else if data[1] == 121 then Pedal(c, 64) else Key(c, 0);
      assert EffectOn(data, h) == Release;
    }
  }

  /** What is held after a list of messages. */
  function Holding(h: Held, held: bool, messages: seq<seq<byte>>): bool
    decreases |messages|
  {
    if messages == [] then held
    else
      var effect := EffectOn(messages[0], h);
      Holding(h, effect == Press || (effect == Keep && held), messages[1..])
  }

  lemma {:induction false} HoldingConcat(h: Held, held: bool, a: seq<seq<byte>>, b: seq<seq<byte>>)
    ensures Holding(h, held, a + b) == Holding(h, Holding(h, held, a), b)
    decreases |a|
  {
    if a == [] {
      assert a + b == b;
    } else {
      assert (a + b)[1..] == a[1..] + b;
      var effect := EffectOn(a[0], h);
      HoldingConcat(h, effect == Press || (effect == Keep && held), a[1..], b);
    }
  }

  /** Messages that never press h, one of which releases it, leave it released. */
  lemma {:induction false} ReleasedBy(h: Held, held: bool, messages: seq<seq<byte>>, i: nat)
    requires i < |messages| && EffectOn(messages[i], h) == Release
    requires forall m :: m in messages ==> EffectOn(m, h) != Press
    ensures !Holding(h, held, messages)
    decreases |messages|
  {
    var effect := EffectOn(messages[0], h);
    var next := effect == Press || (effect == Keep && held);
    if i == 0 {
      StaysReleased(h, messages[1..]);
    } else {
      ReleasedBy(h, next, messages[1..], i - 1);
    }
  }

  lemma {:induction false} StaysReleased(h: Held, messages: seq<seq<byte>>)
    requires forall m :: m in messages ==> EffectOn(m, h) != Press
    ensures !Holding(h, false, messages)
    decreases |messages|
  {
    if messages != [] {
      StaysReleased(h, messages[1..]);
    }
  }
}
