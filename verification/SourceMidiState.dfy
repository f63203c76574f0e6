// Which source holds which notes and pedals, and what to release when a source goes away.
module SourceMidiState {
  import opened Wrappers
  import opened Midi

  /** The set bits of one channel's 128-bit note mask. */
  type NoteMask = set<byte>

  const NO_NOTES: seq<NoteMask> := [{}, {}, {}, {}, {}, {}, {}, {}, {}, {}, {}, {}, {}, {}, {}, {}]
  const UP: seq<bool> := [false, false, false]

  type Masks = m: seq<NoteMask> | |m| == 16 witness NO_NOTES
  type Switches = p: seq<bool> | |p| == 3 witness UP
  type Pedals = p: seq<Switches> | |p| == 16 witness NO_PEDALS

  const NO_PEDALS: seq<Switches> := [UP, UP, UP, UP, UP, UP, UP, UP, UP, UP, UP, UP, UP, UP, UP, UP]

  datatype SourceNotes = SourceNotes(notes: Masks, holdPedals: Pedals)

  const EMPTY: SourceNotes := SourceNotes(NO_NOTES, NO_PEDALS)

  predicate Holds(n: SourceNotes, h: Held) {
    0 <= h.channel < 16 &&
    match h
    case Key(c, k) => k in n.notes[c]
    case Pedal(c, cc) => exists p :: 0 <= p < 3 && HOLD_PEDALS[p] == cc && n.holdPedals[c][p]
  }

  predicate HasNotes(n: SourceNotes) {
    exists c :: 0 <= c < 16 && n.notes[c] != {}
  }

  predicate HasPedals(n: SourceNotes) {
    exists c, p :: 0 <= c < 16 && 0 <= p < 3 && n.holdPedals[c][p]
  }

  predicate IsEmpty(n: SourceNotes) {
    !HasNotes(n) && !HasPedals(n)
  }

  lemma EmptyHoldsNothing(n: SourceNotes)
    ensures IsEmpty(n) <==> forall h :: !Holds(n, h)
    ensures IsEmpty(n) ==> OnlyMidiNotes(n)
  {
    if HasNotes(n) {
      var c :| 0 <= c < 16 && n.notes[c] != {};
      var k: byte :| k in n.notes[c];
      assert Holds(n, Key(c, k));
    } else if HasPedals(n) {
      var c, p :| 0 <= c < 16 && 0 <= p < 3 && n.holdPedals[c][p];
      assert Holds(n, Pedal(c, HOLD_PEDALS[p]));
    }
  }

  lemma EmptyIsEmpty()
    ensures IsEmpty(EMPTY)
  {
  }

  type Sources = map<string, SourceNotes>

  predicate SourceHolds(m: Sources, source: string, h: Held) {
    source in m && Holds(m[source], h)
  }

  predicate AnyHolds(m: Sources, h: Held) {
    exists s :: s in m && Holds(m[s], h)
  }

  /** The map only ever contains sources that hold something, and only MIDI notes. */
  predicate NoIdleSources(m: Sources) {
    forall s :: s in m ==> !IsEmpty(m[s]) && OnlyMidiNotes(m[s])
  }

  predicate OnlyMidiNotes(n: SourceNotes) {
    forall c, k :: 0 <= c < 16 && k in n.notes[c] ==> k < 128
  }

  // ------------------------------------------------------- the releases of a source

  function NoteOff(channel: int, note: byte): seq<byte>
    requires 0 <= channel < 16
  {
    [0x80 + channel, note, 0]
  }

  function PedalOff(channel: int, pedal: int): seq<byte>
    requires 0 <= channel < 16 && 0 <= pedal < 3
  {
    [0xB0 + channel, HOLD_PEDALS[pedal], 0]
  }

  /** A Note-Off for each set bit from `from` up, lowest first. */
  function NoteOffs(channel: int, mask: NoteMask, from: int): seq<seq<byte>>
    requires 0 <= channel < 16 && 0 <= from <= 256
    decreases 256 - from
  {
    if from == 256 then []
    else (if from in mask then [NoteOff(channel, from)] else []) + NoteOffs(channel, mask, from + 1)
  }

  function PedalOffs(channel: int, held: Switches, from: int): seq<seq<byte>>
    requires 0 <= channel < 16 && 0 <= from <= 3
    decreases 3 - from
  {
    if from == 3 then []
    else (if held[from] then [PedalOff(channel, from)] else []) + PedalOffs(channel, held, from + 1)
  }

  function OtherNotes(m: Sources, channel: int): (notes: NoteMask)
    requires 0 <= channel < 16
    ensures forall k: byte :: k in notes <==> exists s :: s in m && k in m[s].notes[channel]
  {
    set s, k: byte | s in m && k in m[s].notes[channel] :: k
  }

  predicate OtherPedal(m: Sources, channel: int, pedal: int)
    requires 0 <= channel < 16 && 0 <= pedal < 3
  {
    exists s :: s in m && m[s].holdPedals[channel][pedal]
  }

  function ExclusivePedals(rest: Sources, gone: SourceNotes, channel: int): (r: Switches)
    requires 0 <= channel < 16
    ensures forall p :: 0 <= p < 3 ==> r[p] == (gone.holdPedals[channel][p] && !OtherPedal(rest, channel, p))
  {
    seq(3, p requires 0 <= p < 3 => gone.holdPedals[channel][p] && !OtherPedal(rest, channel, p))
  }

  function ChannelReleases(rest: Sources, gone: SourceNotes, channel: int): seq<seq<byte>>
    requires 0 <= channel < 16
  {
    NoteOffs(channel, gone.notes[channel] - OtherNotes(rest, channel), 0)
    + PedalOffs(channel, ExclusivePedals(rest, gone, channel), 0)
  }

  function Releases(rest: Sources, gone: SourceNotes, channel: int): seq<seq<byte>>
    requires 0 <= channel <= 16
    decreases 16 - channel
  {
    if channel == 16 then [] else ChannelReleases(rest, gone, channel) + Releases(rest, gone, channel + 1)
  }

  /** What one frame does to everybody's holdings: 0xFF clears them, anything else concerns its source alone. */
  ghost predicate Observed(before: Sources, source: string, data: seq<byte>, after: Sources) {
    if data == [0xFF] then after == map[]
    else forall s, h ::
      SourceHolds(after, s, h) <==>
      if s != source then SourceHolds(before, s, h)
      else EffectOn(data, h) == Press || (EffectOn(data, h) == Keep && SourceHolds(before, s, h))
  }

  lemma IgnoredMessage(m: Sources, source: string, data: seq<byte>)
    requires data != [0xFF]
    requires |data| != 3 || !(0x80 <= data[0] < 0xF0) || data[1] > 127 || data[2] > 127
    ensures Observed(m, source, data, m)
  {
    assert |data| == 3 ==> data[1] in data[1..] && data[2] in data[1..];
    assert !IsChannelMessage(data);
  }

  lemma TrackedSource(m: Sources, source: string, data: seq<byte>)
    requires NoIdleSources(m) && IsChannelMessage(data)
    ensures var state := Track(if source in m then m[source] else EMPTY, Channel(data[0]), data);
            var after := if IsEmpty(state) then m - {source} else m[source := state];
            NoIdleSources(after) && Observed(m, source, data, after)
  {
    hide Track, EffectOn, IsEmpty, OnlyMidiNotes, Holds;
    var was := if source in m then m[source] else EMPTY;
    TrackFollowsEffects(was, data);
    EmptyHoldsNothing(EMPTY);
    EmptyHoldsNothing(Track(was, Channel(data[0]), data));
    EmptyIsEmpty();
  }

  // ------------------------------------------------------------------ the object

  class SourceMidiState {
    var sources: Sources

    constructor ()
      ensures sources == map[]
    {
      sources := map[];
    }

    /** Track one frame of a source; 0xFF forgets everything. */
    method Observe(source: string, data: seq<byte>)
      requires NoIdleSources(sources)
      modifies this
      ensures NoIdleSources(sources) && Observed(old(sources), source, data, sources)
    {
      if data == [0xFF] {
        sources := map[];
        return;
      }
      if |data| != 3 || !(0x80 <= data[0] < 0xF0) || data[1] > 127 || data[2] > 127 {
        IgnoredMessage(sources, source, data);
        return;
      }
      assert IsChannelMessage(data);
      var state := if source in sources then sources[source] else EMPTY;
      state := Track(state, Channel(data[0]), data);
      TrackedSource(sources, source, data);
      sources := if IsEmpty(state) then sources - {source} else sources[source := state];
    }

    /** Forget a source, and return a release for everything only it held. */
    method ReleaseSource(source: string) returns (releases: seq<seq<byte>>)
      requires NoIdleSources(sources)
      modifies this
      ensures NoIdleSources(sources) && sources == old(sources) - {source}
      ensures releases == if source in old(sources) then Releases(sources, old(sources)[source], 0) else []
    {
      hide IsEmpty, OnlyMidiNotes;
      if source !in sources {
        assert sources - {source} == sources;
        return [];
      }
      var removed := sources[source];
      sources := sources - {source};
      releases := ReleaseAll(sources, removed);
    }
  }

  method ReleaseAll(rest: Sources, removed: SourceNotes) returns (releases: seq<seq<byte>>)
    ensures releases == Releases(rest, removed, 0)
  {
    hide ChannelReleases;
    releases := [];
    for channel := 0 to 16
      invariant releases + Releases(rest, removed, channel) == Releases(rest, removed, 0)
    {
      var chunk := ReleaseChannel(rest, removed, channel);
      MoveAcross(releases, chunk, Releases(rest, removed, channel + 1));
      releases := releases + chunk;
    }
  }

  lemma MoveAcross<T>(a: seq<T>, b: seq<T>, c: seq<T>)
    ensures a + (b + c) == (a + b) + c
  {
  }

  method ReleaseChannel(rest: Sources, removed: SourceNotes, channel: int) returns (releases: seq<seq<byte>>)
    requires 0 <= channel < 16
    ensures releases == ChannelReleases(rest, removed, channel)
  {
    var notes := ReleaseNotes(rest, removed, channel);
    var pedals := ReleasePedals(rest, removed, channel);
    releases := notes + pedals;
  }

  method ReleaseNotes(rest: Sources, removed: SourceNotes, channel: int) returns (releases: seq<seq<byte>>)
    requires 0 <= channel < 16
    ensures releases == NoteOffs(channel, removed.notes[channel] - OtherNotes(rest, channel), 0)
  {
    hide NoteOffs;
    var others := NotesOfOthers(rest, channel);
    var exclusive := removed.notes[channel] - others;
    ghost var all, todo := NoteOffs(channel, exclusive, 0), NoteOffs(channel, exclusive, 0);
    releases := [];
    while exclusive != {}
      invariant todo == NoteOffs(channel, exclusive, 0) && releases + todo == all
      decreases exclusive
    {
      var note := TrailingZeros(exclusive);
      LowestFirst(channel, exclusive, note, 0);
      exclusive := exclusive - {note};
      todo := NoteOffs(channel, exclusive, 0);
      releases := releases + [NoteOff(channel, note)];
    }
    NothingLeft(channel, 0);
  }

  method ReleasePedals(rest: Sources, removed: SourceNotes, channel: int) returns (releases: seq<seq<byte>>)
    requires 0 <= channel < 16
    ensures releases == PedalOffs(channel, ExclusivePedals(rest, removed, channel), 0)
  {
    ghost var switches := ExclusivePedals(rest, removed, channel);
    releases := [];
    hide PedalOffs, ExclusivePedals, PedalOff, OtherPedal;
    for pedal := 0 to 3
      invariant releases + PedalOffs(channel, switches, pedal) == PedalOffs(channel, switches, 0)
    {
      var held := PedalOfOthers(rest, channel, pedal);
      NextPedal(rest, removed, channel, pedal, releases, held);
      if removed.holdPedals[channel][pedal] && !held {
        releases := releases + [PedalOff(channel, pedal)];
      }
    }
    NoMorePedals(channel, switches);
  }

  /** One pedal moves from what is to be released to what was. */
  lemma NextPedal(rest: Sources, removed: SourceNotes, channel: int, pedal: int, releases: seq<seq<byte>>, held: bool)
    requires 0 <= channel < 16 && 0 <= pedal < 3 && held == OtherPedal(rest, channel, pedal)
    ensures var switches := ExclusivePedals(rest, removed, channel);
            releases + PedalOffs(channel, switches, pedal)
            == (if removed.holdPedals[channel][pedal] && !held then releases + [PedalOff(channel, pedal)] else releases)
               + PedalOffs(channel, switches, pedal + 1)
  {
    var switches := ExclusivePedals(rest, removed, channel);
    var chunk := if removed.holdPedals[channel][pedal] && !held then [PedalOff(channel, pedal)] else [];
    OnePedal(channel, switches, pedal);
    hide PedalOffs, ExclusivePedals, PedalOff, OtherPedal;
    assert switches[pedal] == (removed.holdPedals[channel][pedal] && !held);
    MoveAcross(releases, chunk, PedalOffs(channel, switches, pedal + 1));
  }

  lemma NoMorePedals(channel: int, switches: Switches)
    requires 0 <= channel < 16
    ensures PedalOffs(channel, switches, 3) == []
  {
  }

  lemma OnePedal(channel: int, switches: Switches, pedal: int)
    requires 0 <= channel < 16 && 0 <= pedal < 3
    ensures PedalOffs(channel, switches, pedal)
            == (if switches[pedal] then [PedalOff(channel, pedal)] else []) + PedalOffs(channel, switches, pedal + 1)
  {
  }

  method NotesOfOthers(sources: Sources, channel: int) returns (notes: NoteMask)
    requires 0 <= channel < 16
    ensures notes == OtherNotes(sources, channel)
  {
    notes := {};
    var left := sources.Keys;
    while left != {}
      invariant left <= sources.Keys
      invariant forall k: byte ::
                  k in notes <==> exists s :: s in sources && s !in left && k in sources[s].notes[channel]
      decreases left
    {
      var s :| s in left;
      left := left - {s};
      notes := notes + sources[s].notes[channel];
    }
    assert forall k: byte :: k in notes <==> k in OtherNotes(sources, channel);
  }

  method PedalOfOthers(sources: Sources, channel: int, pedal: int) returns (held: bool)
    requires 0 <= channel < 16 && 0 <= pedal < 3
    ensures held == OtherPedal(sources, channel, pedal)
  {
    var left := sources.Keys;
    while left != {}
      invariant left <= sources.Keys
      invariant forall s :: s in sources && s !in left ==> !sources[s].holdPedals[channel][pedal]
      decreases left
    {
      var s :| s in left;
      if sources[s].holdPedals[channel][pedal] {
        return true;
      }
      left := left - {s};
    }
    held := false;
  }

  /** The updates of one message to one source's masks and switches. */
  function Track(state: SourceNotes, channel: int, data: seq<byte>): SourceNotes
    requires IsChannelMessage(data) && channel == Channel(data[0])
  {
    assert data[1] in data[1..];
    var notes, pedals := state.notes, state.holdPedals;
    if Kind(data[0]) == 9 && data[2] > 0 then state.(notes := notes[channel := notes[channel] + {data[1]}])
    else if Kind(data[0]) in {8, 9} then state.(notes := notes[channel := notes[channel] - {data[1]}])
    else if Kind(data[0]) == 11 && data[1] in HOLD_PEDALS then
      var pedal := if data[1] == 64 then 0 else if data[1] == 66 then 1 else 2;
      state.(holdPedals := pedals[channel := pedals[channel][pedal := data[2] >= 64]])
    else if Kind(data[0]) == 11 && (data[1] == 120 || 123 <= data[1] <= 127) then state.(notes := notes[channel := {}])
    else if Kind(data[0]) == 11 && data[1] == 121 then
      state.(holdPedals := pedals[channel := [false, false, false]])
    else state
  }

  lemma TrackFollowsEffects(state: SourceNotes, data: seq<byte>)
    requires IsChannelMessage(data)
    ensures forall h :: Holds(Track(state, Channel(data[0]), data), h) <==>
              EffectOn(data, h) == Press || (EffectOn(data, h) == Keep && Holds(state, h))
    ensures OnlyMidiNotes(state) ==> OnlyMidiNotes(Track(state, Channel(data[0]), data))
  {
    assert data[1] in data[1..] && data[2] in data[1..];
    var after := Track(state, Channel(data[0]), data);
    forall h
      ensures Holds(after, h) <==> EffectOn(data, h) == Press || (EffectOn(data, h) == Keep && Holds(state, h))
    {
      if h.Pedal? && 0 <= h.channel < 16 {
        assert Holds(state, h) == (h.controller in HOLD_PEDALS
             && state.holdPedals[h.channel][PedalIndex(h.controller)]);
        assert Holds(after, h) == (h.controller in HOLD_PEDALS
             && after.holdPedals[h.channel][PedalIndex(h.controller)]);
      }
    }
  }

  function PedalIndex(controller: int): (p: int)
    ensures 0 <= p < 3
    ensures controller in HOLD_PEDALS ==> HOLD_PEDALS[p] == controller
  {
    if controller == 64 then 0 else if controller == 66 then 1 else 2
  }

  /** The lowest set bit. */
  method TrailingZeros(mask: NoteMask) returns (k: byte)
    requires mask != {}
    ensures k in mask && forall j :: j in mask ==> k <= j
  {
    k := 0;
    while k !in mask
      invariant 0 <= k < 256
      invariant forall j :: j in mask ==> k <= j
      decreases 256 - k
    {
      var j :| j in mask;
      assert k < j < 256;
      k := k + 1;
    }
  }

  lemma {:induction false} LowestFirst(channel: int, mask: NoteMask, k: byte, from: int)
    requires 0 <= channel < 16 && k in mask && 0 <= from <= k
    requires forall j :: j in mask ==> k <= j
    ensures NoteOffs(channel, mask, from) == [NoteOff(channel, k)] + NoteOffs(channel, mask - {k}, from)
    decreases k - from
  {
    if from < k {
      LowestFirst(channel, mask, k, from + 1);
    } else {
      SameAbove(channel, mask, mask - {k}, from + 1);
    }
  }

  lemma {:induction false} SameAbove(channel: int, a: NoteMask, b: NoteMask, from: int)
    requires 0 <= channel < 16 && 0 <= from <= 256
    requires forall k: byte :: from <= k ==> (k in a <==> k in b)
    ensures NoteOffs(channel, a, from) == NoteOffs(channel, b, from)
    decreases 256 - from
  {
    if from < 256 {
      SameAbove(channel, a, b, from + 1);
    }
  }

  lemma {:induction false} NothingLeft(channel: int, from: int)
    requires 0 <= channel < 16 && 0 <= from <= 256
    ensures NoteOffs(channel, {}, from) == []
    decreases 256 - from
  {
    if from < 256 {
      NothingLeft(channel, from + 1);
    }
  }

  // ------------------------------------------------------ what the releases achieve

  /** Held by the source that is gone, and by nobody who is left. */
  predicate Exclusive(rest: Sources, gone: SourceNotes, h: Held) {
    Holds(gone, h) && !AnyHolds(rest, h)
  }

  predicate IsReleaseOf(d: seq<byte>, h: Held) {
    d == if h.Key? then [0x80 + Clip(h.channel, 15), Clip(h.note, 255), 0]
         else [0xB0 + Clip(h.channel, 15), Clip(h.controller, 255), 0]
  }

  function Clip(x: int, top: int): (r: int)
    requires top >= 0
    ensures 0 <= r <= top
  {
    if x < 0 then 0 else if x > top then top else x
  }

  lemma {:induction false} NoteOffsMembers(channel: int, mask: NoteMask, from: int, d: seq<byte>)
    requires 0 <= channel < 16 && 0 <= from <= 256
    ensures d in NoteOffs(channel, mask, from) <==> exists k: byte :: from <= k && k in mask && d == NoteOff(channel, k)
    decreases 256 - from
  {
    if from < 256 {
      NoteOffsMembers(channel, mask, from + 1, d);
      if from in mask && d == NoteOff(channel, from) {
        var k: byte := from;
        assert from <= k && k in mask && d == NoteOff(channel, k);
      }
    }
  }

  lemma PedalOffsMembers(channel: int, held: Switches, d: seq<byte>)
    requires 0 <= channel < 16
    ensures d in PedalOffs(channel, held, 0) <==> exists p :: 0 <= p < 3 && held[p] && d == PedalOff(channel, p)
  {
    assert PedalOffs(channel, held, 3) == [];
    assert PedalOffs(channel, held, 2) == (if held[2] then [PedalOff(channel, 2)] else []);
    assert PedalOffs(channel, held, 1) == (if held[1] then [PedalOff(channel, 1)] else [])
        + PedalOffs(channel, held, 2);
  }

  lemma ExclusiveNote(rest: Sources, gone: SourceNotes, c: int, k: byte)
    requires 0 <= c < 16
    ensures Exclusive(rest, gone, Key(c, k)) <==> k in gone.notes[c] - OtherNotes(rest, c)
  {
    if AnyHolds(rest, Key(c, k)) {
      var s :| s in rest && Holds(rest[s], Key(c, k));
      assert s in rest && k in rest[s].notes[c];
    }
    if k in OtherNotes(rest, c) {
      var s :| s in rest && k in rest[s].notes[c];
      assert Holds(rest[s], Key(c, k));
    }
  }

  lemma ExclusivePedal(rest: Sources, gone: SourceNotes, c: int, p: int)
    requires 0 <= c < 16 && 0 <= p < 3
    ensures Exclusive(rest, gone, Pedal(c, HOLD_PEDALS[p])) <==> ExclusivePedals(rest, gone, c)[p]
  {
    forall n: SourceNotes
      ensures Holds(n, Pedal(c, HOLD_PEDALS[p])) == n.holdPedals[c][p]
    {
    }
    if OtherPedal(rest, c, p) {
      var s :| s in rest && rest[s].holdPedals[c][p];
      assert Holds(rest[s], Pedal(c, HOLD_PEDALS[p]));
    }
  }

  lemma ReleaseOfExclusive(rest: Sources, gone: SourceNotes, c: int, d: seq<byte>)
    requires 0 <= c < 16 && d in ChannelReleases(rest, gone, c)
    ensures exists h: Held :: h.channel == c && Exclusive(rest, gone, h) && IsReleaseOf(d, h)
  {
    hide Exclusive, OtherNotes, NoteOffs, PedalOffs, ExclusivePedals;
    var mask, held := gone.notes[c] - OtherNotes(rest, c), ExclusivePedals(rest, gone, c);
    NoteOffsMembers(c, mask, 0, d);
    PedalOffsMembers(c, held, d);
    if d in NoteOffs(c, mask, 0) {
      var k: byte :| k in mask && d == NoteOff(c, k);
      ExclusiveNote(rest, gone, c, k);
      assert Exclusive(rest, gone, Key(c, k)) && IsReleaseOf(d, Key(c, k));
    } else {
      var p :| 0 <= p < 3 && held[p] && d == PedalOff(c, p);
      ExclusivePedal(rest, gone, c, p);
      assert Exclusive(rest, gone, Pedal(c, HOLD_PEDALS[p])) && IsReleaseOf(d, Pedal(c, HOLD_PEDALS[p]));
    }
  }

  lemma ExclusiveIsReleased(rest: Sources, gone: SourceNotes, h: Held, d: seq<byte>)
    requires Exclusive(rest, gone, h) && IsReleaseOf(d, h)
    ensures 0 <= h.channel < 16 && d in ChannelReleases(rest, gone, h.channel)
  {
    ExclusiveIsHeld(rest, gone, h);
    hide Exclusive, OtherNotes, NoteOffs, PedalOffs, ExclusivePedals;
    var c := h.channel;
    if h.Key? {
      ExclusiveNote(rest, gone, c, h.note);
      assert d == NoteOff(c, h.note);
      NoteOffsMembers(c, gone.notes[c] - OtherNotes(rest, c), 0, d);
    } else {
      var p := PedalIndex(h.controller);
      ExclusivePedal(rest, gone, c, p);
      assert d == PedalOff(c, p);
      PedalOffsMembers(c, ExclusivePedals(rest, gone, c), d);
    }
  }

  lemma ExclusiveIsHeld(rest: Sources, gone: SourceNotes, h: Held)
    requires Exclusive(rest, gone, h)
    ensures 0 <= h.channel < 16
    ensures match h case Key(c, k) => 0 <= k < 256 && k in gone.notes[c] case Pedal(c, cc) => cc in HOLD_PEDALS
  {
  }

  lemma {:induction false} ReleasesMembers(rest: Sources, gone: SourceNotes, from: int, d: seq<byte>)
    requires 0 <= from <= 16
    ensures d in Releases(rest, gone, from) <==> exists c :: from <= c < 16 && d in ChannelReleases(rest, gone, c)
    decreases 16 - from
  {
    hide ChannelReleases;
    if from < 16 {
      ReleasesMembers(rest, gone, from + 1, d);
    }
  }

  // ---- each exactly once, in a fixed order

  /** Channel first, then notes upwards, then pedals. */
  function Rank(d: seq<byte>): int {
    if |d| != 3 then -1 else Channel(d[0]) * 512 + d[1] + (if Kind(d[0]) == 8 then 0 else 256)
  }

  ghost predicate Ascending(r: seq<seq<byte>>, lo: int, hi: int) {
    && (forall i :: 0 <= i < |r| ==> lo <= Rank(r[i]) < hi)
    && (forall i, j :: 0 <= i < j < |r| ==> Rank(r[i]) < Rank(r[j]))
  }

  lemma AscendingConcat(a: seq<seq<byte>>, b: seq<seq<byte>>, lo: int, mid: int, hi: int)
    requires lo <= mid <= hi && Ascending(a, lo, mid) && Ascending(b, mid, hi)
    ensures Ascending(a + b, lo, hi)
  {
    hide Rank;
  }

  lemma {:induction false} NoteOffsAscend(channel: int, mask: NoteMask, from: int)
    requires 0 <= channel < 16 && 0 <= from <= 256
    ensures Ascending(NoteOffs(channel, mask, from), channel * 512 + from, channel * 512 + 256)
    decreases 256 - from
  {
    if from < 256 {
      NoteOffsAscend(channel, mask, from + 1);
      AscendingConcat(if from in mask then [NoteOff(channel, from)] else [], NoteOffs(channel, mask, from + 1),
                      channel * 512 + from, channel * 512 + from + 1, channel * 512 + 256);
    }
  }

  lemma PedalOffAscends(channel: int, held: bool, p: int)
    requires 0 <= channel < 16 && 0 <= p < 3
    ensures Ascending(if held then [PedalOff(channel, p)] else [],
                      channel * 512 + 256 + PedalFloor(p), channel * 512 + 256 + PedalFloor(p + 1))
  {
    assert Rank(PedalOff(channel, p)) == channel * 512 + 256 + HOLD_PEDALS[p];
  }

  lemma {:induction false} PedalOffsAscend(channel: int, held: Switches, from: int)
    requires 0 <= channel < 16 && 0 <= from <= 3
    ensures Ascending(PedalOffs(channel, held, from), channel * 512 + 256 + PedalFloor(from), channel * 512 + 512)
    decreases 3 - from
  {
    if from < 3 {
      hide Ascending, PedalOff;
      PedalOffsAscend(channel, held, from + 1);
      PedalOffAscends(channel, held[from], from);
      AscendingConcat(if held[from] then [PedalOff(channel, from)] else [], PedalOffs(channel, held, from + 1),
                      channel * 512 + 256 + PedalFloor(from), channel * 512 + 256 + PedalFloor(from + 1),
                      channel * 512 + 512);
    }
  }

  function PedalFloor(p: int): int {
    if p <= 0 then 0 else if p == 1 then 65 else if p == 2 then 67 else 70
  }

  lemma ChannelAscends(rest: Sources, gone: SourceNotes, channel: int)
    requires 0 <= channel < 16
    ensures Ascending(ChannelReleases(rest, gone, channel), channel * 512, channel * 512 + 512)
  {
    hide NoteOffs, PedalOffs, Ascending, OtherNotes, ExclusivePedals;
    NoteOffsAscend(channel, gone.notes[channel] - OtherNotes(rest, channel), 0);
    PedalOffsAscend(channel, ExclusivePedals(rest, gone, channel), 0);
    AscendingConcat(NoteOffs(channel, gone.notes[channel] - OtherNotes(rest, channel), 0),
                    PedalOffs(channel, ExclusivePedals(rest, gone, channel), 0),
                    channel * 512, channel * 512 + 256, channel * 512 + 512);
  }

  lemma {:induction false} ReleasesAscend(rest: Sources, gone: SourceNotes, channel: int)
    requires 0 <= channel <= 16
    ensures Ascending(Releases(rest, gone, channel), channel * 512, 8192)
    decreases 16 - channel
  {
    assert Ascending([], channel * 512, 8192);
    hide ChannelReleases, Ascending;
    if channel < 16 {
      ReleasesAscend(rest, gone, channel + 1);
      ChannelAscends(rest, gone, channel);
      AscendingConcat(ChannelReleases(rest, gone, channel), Releases(rest, gone, channel + 1),
                      channel * 512, channel * 512 + 512, 8192);
    }
  }

  /**
   * Releasing a source emits a release for each note and pedal that it holds and no
   * other source holds, each exactly once, by channel and then by pitch and pedal.
   */
  lemma ReleasesAreExact(m: Sources, source: string)
    requires source in m
    ensures var r := Releases(m - {source}, m[source], 0);
            && (forall d :: d in r <==> exists h: Held :: Exclusive(m - {source}, m[source], h) && IsReleaseOf(d, h))
            && (forall i, j :: 0 <= i < j < |r| ==> Rank(r[i]) < Rank(r[j]))
  {
    hide Exclusive, IsReleaseOf, ChannelReleases, Rank, Releases;
    var rest, gone := m - {source}, m[source];
    forall d
      ensures d in Releases(rest, gone, 0) <==> exists h: Held :: Exclusive(rest, gone, h) && IsReleaseOf(d, h)
    {
      ReleasesMembers(rest, gone, 0, d);
      if d in Releases(rest, gone, 0) {
        var c :| 0 <= c < 16 && d in ChannelReleases(rest, gone, c);
        ReleaseOfExclusive(rest, gone, c, d);
      }
      forall h: Held | Exclusive(rest, gone, h) && IsReleaseOf(d, h)
        ensures d in Releases(rest, gone, 0)
      {
        ExclusiveIsReleased(rest, gone, h, d);
      }
    }
    ReleasesAscend(rest, gone, 0);
  }

  lemma ReleaseAffectsOnlyItsOwn(d: seq<byte>, h: Held, other: Held)
    requires IsReleaseOf(d, h) && 0 <= h.channel < 16
    requires match h case Key(_, k) => 0 <= k < 128 case Pedal(_, cc) => cc in HOLD_PEDALS
    ensures EffectOn(d, other) == if other == h then Release else Keep
  {
    assert IsData(d[1..]);
    assert Channel(d[0]) == h.channel;
  }

  lemma {:induction false} KeptThroughout(h: Held, held: bool, messages: seq<seq<byte>>)
    requires forall m :: m in messages ==> EffectOn(m, h) == Keep
    ensures Holding(h, held, messages) == held
    decreases |messages|
  {
    if messages != [] {
      KeptThroughout(h, held, messages[1..]);
    }
  }

  lemma EachRelease(m: Sources, source: string, d: seq<byte>, h: Held)
    requires source in m && NoIdleSources(m) && d in Releases(m - {source}, m[source], 0)
    ensures EffectOn(d, h) == if Exclusive(m - {source}, m[source], h) && IsReleaseOf(d, h) then Release else Keep
  {
    hide EffectOn, Holds, Releases, IsEmpty, IsReleaseOf, Rank, Exclusive;
    var rest, gone := m - {source}, m[source];
    ReleasesAreExact(m, source);
    var owner: Held :| Exclusive(rest, gone, owner) && IsReleaseOf(d, owner);
    ExclusiveIsHeld(rest, gone, owner);
    ReleaseAffectsOnlyItsOwn(d, owner, h);
    if Exclusive(rest, gone, h) && IsReleaseOf(d, h) {
      ExclusiveIsHeld(rest, gone, h);
      ReleaseAffectsOnlyItsOwn(d, h, h);
    }
  }

  lemma ExclusiveIsInReleases(m: Sources, source: string, h: Held) returns (i: int)
    requires source in m && NoIdleSources(m) && Exclusive(m - {source}, m[source], h)
    ensures 0 <= i < |Releases(m - {source}, m[source], 0)|
    ensures EffectOn(Releases(m - {source}, m[source], 0)[i], h) == Release
  {
    hide EffectOn, Holds, Releases, IsEmpty, Rank, Exclusive;
    var d: seq<byte> := if h.Key? then [0x80 + Clip(h.channel, 15), Clip(h.note, 255), 0]
             else [0xB0 + Clip(h.channel, 15), Clip(h.controller, 255), 0];
    assert IsReleaseOf(d, h);
    ReleasesAreExact(m, source);
    assert d in Releases(m - {source}, m[source], 0);
    i :| 0 <= i < |Releases(m - {source}, m[source], 0)| && Releases(m - {source}, m[source], 0)[i] == d;
    EachRelease(m, source, d, h);
  }

  /** Replaying the releases on everything held by anybody leaves what the remaining sources hold. */
  lemma ReplayLeavesTheRest(m: Sources, source: string, h: Held)
    requires source in m && NoIdleSources(m)
    ensures Holding(h, AnyHolds(m, h), Releases(m - {source}, m[source], 0)) == AnyHolds(m - {source}, h)
  {
    hide Holding, EffectOn, Holds, Releases, IsEmpty, IsReleaseOf, NoIdleSources;
    var rest, gone := m - {source}, m[source];
    var r := Releases(rest, gone, 0);
    forall d | d in r
      ensures EffectOn(d, h) == if Exclusive(rest, gone, h) && IsReleaseOf(d, h) then Release else Keep
    {
      EachRelease(m, source, d, h);
    }
    if Exclusive(rest, gone, h) {
      var i := ExclusiveIsInReleases(m, source, h);
      ReleasedBy(h, AnyHolds(m, h), r, i);
    } else {
      KeptThroughout(h, AnyHolds(m, h), r);
      AnyHoldsSplits(m, source, h);
    }
  }

  lemma AnyHoldsSplits(m: Sources, source: string, h: Held)
    requires source in m
    ensures AnyHolds(m, h) <==> Holds(m[source], h) || AnyHolds(m - {source}, h)
  {
    if AnyHolds(m, h) && !Holds(m[source], h) {
      var s :| s in m && Holds(m[s], h);
      assert s in m - {source} && (m - {source})[s] == m[s];
    }
    if AnyHolds(m - {source}, h) {
      var s :| s in m - {source} && Holds((m - {source})[s], h);
      assert s in m && (m - {source})[s] == m[s];
    }
  }
}
