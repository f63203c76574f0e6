// Concurrent MIDI admission to the audio callback. Producers stamp a packet with
// the reset generation, try to push it to a bounded ring, and bump the generation
// when a release cannot be pushed. The callback drops packets of overtaken
// generations and resets the plug-in. No release is ever lost without a reset.
module MidiIngress {
  import opened Wrappers
  import opened Midi
  import CallbackMidi

  // --------------------------------------------------------------------- state

  datatype Outcome = Sent | DroppedNonCritical | CriticalFallbackReset | AudioStopped

  /** Where one call of send has got to; `stamp` is the generation it read. */
  datatype Phase =
    | Started
    | Stamped(stamp: nat)
    | Checked(stamp: nat)
    | Missed(stamp: nat)
    | Done(stamp: nat, outcome: Outcome)

  /** One call of send: its message, the calls that had returned when it began, and its phase. */
  datatype Call = Call(data: seq<byte>, before: set<nat>, phase: Phase)

  datatype Packet = Packet(call: nat, generation: nat, data: seq<byte>)

  datatype State = State(
    generation: nat,
    ring: seq<Packet>,
    calls: seq<Call>,
    seen: nat,
    popped: Option<Packet>,
    pending: seq<Packet>,
    needsReset: bool,
    resetSent: bool,
    held: map<Held, nat>)

  datatype Config = Config(ringCapacity: nat, maxPending: nat)

  function Init(): State {
    State(0, [], [], 0, None, [], false, false, map[])
  }

  predicate IsRelease(p: Packet) {
    IsCriticalRelease(p.data)
  }

  predicate IsNoteOn(p: Packet) {
    |p.data| >= 3 && Kind(p.data[0]) == 9 && p.data[2] > 0
  }

  /** What a message presses: at most one key or pedal. */
  function Pressed(data: seq<byte>): set<Held> {
    if !IsChannelMessage(data) then {}
    else if Kind(data[0]) == 9 && data[2] > 0 then {Key(Channel(data[0]), data[1])}
    else if Kind(data[0]) == 11 && data[1] in HOLD_PEDALS && data[2] >= 64 then {Pedal(Channel(data[0]), data[1])}
    else {}
  }

  // --------------------------------------------------------------------- steps

  datatype Action =
    // a producer
    | Begin(data: seq<byte>)
    | Stamp(i: nat)
    | Check(i: nat)
    | Push(i: nat)
    | Miss(i: nat)
    | Finish(i: nat)
    // anyone
    | RequestReset
    // the audio callback
    | TakeResetRequest
    | Observe
    | Pop
    | Judge
    | SendReset
    | Deliver
    | ClearReset

  function Returned(s: State): set<nat> {
    set i | 0 <= i < |s.calls| && s.calls[i].phase.Done?
  }

  predicate Enabled(c: Config, s: State, a: Action) {
    match a
    case Begin(data) => |data| <= 3 && IsWellFormed(data)
    case Stamp(i) => i < |s.calls| && s.calls[i].phase.Started?
    case Check(i) => i < |s.calls| && s.calls[i].phase.Stamped?
    case Push(i) =>
      && i < |s.calls| && s.calls[i].phase.Checked? && |s.ring| < c.ringCapacity
      && (IsCriticalRelease(s.calls[i].data) || c.ringCapacity - |s.ring| > CallbackMidi.Reserve(c.ringCapacity))
    // The producer lock may be contended, or the ring full: either way the push fails.
    case Miss(i) => i < |s.calls| && s.calls[i].phase.Checked?
    case Finish(i) => i < |s.calls| && s.calls[i].phase.Missed?
    case RequestReset => true
    case TakeResetRequest => true
    case Observe => true
    case Pop => s.popped.None? && s.ring != []
    case Judge => s.popped.Some?
    case SendReset => s.needsReset
    case Deliver => s.pending != [] && (s.needsReset ==> s.resetSent)
    case ClearReset => s.needsReset && s.resetSent
  }

  function WithPhase(s: State, i: nat, phase: Phase): State
    requires i < |s.calls|
  {
    s.(calls := s.calls[i := s.calls[i].(phase := phase)])
  }

  function Observed(s: State): State {
    if s.generation == s.seen then s
    else s.(seen := s.generation, pending := [], needsReset := true, resetSent := false)
  }

  function Judged(c: Config, s: State, p: Packet): State {
    var o := Observed(s).(popped := None);
    if p.generation != o.seen then o
    else
      var a := CallbackMidi.Admit(o.pending, p, c.maxPending, IsRelease, IsNoteOn);
      if a.reset then o.(pending := a.pending, needsReset := true, resetSent := false)
      else o.(pending := a.pending)
  }

  function Apply(c: Config, s: State, a: Action): State
    requires Enabled(c, s, a)
  {
    match a
    case Begin(data) => s.(calls := s.calls + [Call(data, Returned(s), Started)])
    case Stamp(i) => WithPhase(s, i, Stamped(s.generation))
    case Check(i) =>
      var g := s.calls[i].phase.stamp;
      WithPhase(s, i, if g != s.generation then Done(g, AudioStopped) else Checked(g))
    case Push(i) =>
      var g := s.calls[i].phase.stamp;
      WithPhase(s, i, Done(g, Sent)).(ring := s.ring + [Packet(i, g, s.calls[i].data)])
    case Miss(i) => WithPhase(s, i, Missed(s.calls[i].phase.stamp))
    case Finish(i) =>
      var g := s.calls[i].phase.stamp;
      if IsCriticalRelease(s.calls[i].data) then
        WithPhase(s, i, Done(g, CriticalFallbackReset)).(generation := s.generation + 1)
      else WithPhase(s, i, Done(g, DroppedNonCritical))
    case RequestReset => s.(generation := s.generation + 1)
    case TakeResetRequest =>
      s.(generation := s.generation + 1, pending := [], needsReset := true, resetSent := false)
    case Observe => Observed(s)
    case Pop => s.(popped := Some(s.ring[0]), ring := s.ring[1..])
    case Judge => Judged(c, s, s.popped.value)
    case SendReset => s.(held := map[], resetSent := true)
    case Deliver =>
      var p := s.pending[0];
      s.(pending := s.pending[1..],
         held := (map h | h in s.held && EffectOn(p.data, h) == Keep :: s.held[h])
                 + (map h | h in Pressed(p.data) :: p.call))
    case ClearReset => s.(needsReset := false, resetSent := false)
  }

  ghost predicate IsRun(c: Config, s: State, actions: seq<Action>, s': State)
    decreases |actions|
  {
    if actions == [] then s' == s
    else Enabled(c, s, actions[0]) && IsRun(c, Apply(c, s, actions[0]), actions[1..], s')
  }

  // ----------------------------------------------------------------- invariant

  /** Every packet on its way to the plug-in, in the order it will be considered. */
  function Line(s: State): seq<Packet> {
    s.pending + (if s.popped.Some? then [s.popped.value] else []) + s.ring
  }

  predicate Releases(s: State, r: nat, h: Held) {
    r < |s.calls| && s.calls[r].phase.Done? && EffectOn(s.calls[r].data, h) == Release
  }

  /** A returned release of h issued after call n returned, with n still of the current generation. */
  predicate Owed(s: State, n: nat, r: nat, h: Held) {
    && Releases(s, r, h) && n in s.calls[r].before
    && n < |s.calls| && !s.calls[n].phase.Started? && s.calls[n].phase.stamp == s.generation
  }

  predicate InLine(line: seq<Packet>, from: nat, r: nat) {
    exists b :: from <= b < |line| && line[b].call == r
  }

  predicate ResetDue(s: State) {
    s.needsReset && !s.resetSent
  }

  /** A release that returned without reaching the ring. */
  predicate LostRelease(c: Call) {
    c.phase.Done? && c.phase.outcome != Sent && IsCriticalRelease(c.data)
  }

  predicate StampInv(s: State, i: nat)
    requires i < |s.calls|
  {
    !s.calls[i].phase.Started? ==> s.calls[i].phase.stamp <= s.generation
  }

  predicate LostInv(s: State, i: nat)
    requires i < |s.calls|
  {
    LostRelease(s.calls[i]) ==> s.calls[i].phase.stamp < s.generation
  }

  /** A call that had returned before call i began has a stamp no later than i's. */
  predicate BeforeInv(s: State, i: nat, n: nat)
    requires i < |s.calls|
  {
    n in s.calls[i].before ==>
      && n < |s.calls| && s.calls[n].phase.Done?
      && s.calls[n].phase.stamp <= (if s.calls[i].phase.Started? then s.generation else s.calls[i].phase.stamp)
  }

  ghost predicate CallsInv(s: State) {
    && s.seen <= s.generation
    && (forall i: nat :: i < |s.calls| ==> StampInv(s, i))
    && (forall i: nat :: i < |s.calls| ==> LostInv(s, i))
    && (forall i: nat, n: nat :: i < |s.calls| ==> BeforeInv(s, i, n))
  }

  predicate Carries(s: State, p: Packet) {
    && p.call < |s.calls| && p.data == s.calls[p.call].data
    && s.calls[p.call].phase == Done(p.generation, Sent)
  }

  ghost predicate Carried(s: State, line: seq<Packet>) {
    forall a :: 0 <= a < |line| ==> Carries(s, line[a])
  }

  /** A release owed to a packet in line stands behind it. */
  ghost predicate Debts(s: State, line: seq<Packet>) {
    forall a: nat, r: nat, h :: a < |line| && EffectOn(line[a].data, h) == Press && Owed(s, line[a].call, r, h)
      ==> InLine(line, a + 1, r)
  }

  ghost predicate LineInv(s: State) {
    && Carried(s, Line(s)) && Debts(s, Line(s))
    && (forall a :: 0 <= a < |s.pending| ==> s.pending[a].generation == s.seen)
  }

  predicate Pressing(s: State, h: Held, n: nat) {
    n < |s.calls| && s.calls[n].phase.Done? && s.calls[n].phase.outcome == Sent && EffectOn(s.calls[n].data, h) == Press
  }

  ghost predicate HeldInv(s: State) {
    && (forall h :: h in s.held ==> Pressing(s, h, s.held[h]))
    && (ResetDue(s) || forall h :: h in s.held ==> s.calls[s.held[h]].phase.stamp == s.seen)
    && (ResetDue(s) || forall h, r :: h in s.held && Owed(s, s.held[h], r, h) ==> InLine(Line(s), 0, r))
  }

  ghost predicate Inv(s: State) {
    CallsInv(s) && LineInv(s) && HeldInv(s)
  }

  lemma ReleaseIsCritical(data: seq<byte>, h: Held)
    requires EffectOn(data, h) == Release
    ensures IsCriticalRelease(data) && Pressed(data) == {}
  {
  }

  lemma PressIsPressed(data: seq<byte>, h: Held)
    ensures h in Pressed(data) <==> EffectOn(data, h) == Press
  {
  }

  // -------------------------------------------------------------- preservation

  predicate IsProducer(a: Action) {
    a.Begin? || a.Stamp? || a.Check? || a.Push? || a.Miss? || a.Finish?
  }

  lemma OthersKeepCalls(c: Config, s: State, a: Action)
    requires Enabled(c, s, a) && !IsProducer(a) && s.seen <= s.generation
    ensures var t := Apply(c, s, a); t.calls == s.calls && t.seen <= t.generation && s.generation <= t.generation
  {
    hide CallbackMidi.Admit, EffectOn, Pressed;
  }

  lemma ProducersKeepSeen(c: Config, s: State, a: Action)
    requires Enabled(c, s, a) && IsProducer(a) && s.seen <= s.generation
    ensures var t := Apply(c, s, a); t.seen <= t.generation
  {
  }

  lemma ProducersKeepCallsInv(c: Config, s: State, a: Action, i: nat, n: nat)
    requires CallsInv(s) && Enabled(c, s, a) && IsProducer(a) && i < |Apply(c, s, a).calls|
    ensures var t := Apply(c, s, a); StampInv(t, i) && LostInv(t, i) && BeforeInv(t, i, n)
  {
    hide Judged, Observed, EffectOn, Pressed, IsCriticalRelease;
    if i < |s.calls| { assert BeforeInv(s, i, n) && StampInv(s, i) && LostInv(s, i); }
    if n < |s.calls| { assert StampInv(s, n); }
  }

  lemma CallsStep(c: Config, s: State, a: Action)
    requires CallsInv(s) && Enabled(c, s, a)
    ensures CallsInv(Apply(c, s, a))
  {
    hide Apply, Enabled;
    var t := Apply(c, s, a);
    if IsProducer(a) {
      ProducersKeepSeen(c, s, a);
      forall i: nat | i < |t.calls|
        ensures StampInv(t, i) && LostInv(t, i)
      {
        ProducersKeepCallsInv(c, s, a, i, 0);
      }
      forall i: nat, n: nat | i < |t.calls|
        ensures BeforeInv(t, i, n)
      {
        ProducersKeepCallsInv(c, s, a, i, n);
      }
    } else {
      OthersKeepCalls(c, s, a);
      forall i: nat | i < |t.calls|
        ensures StampInv(t, i) && LostInv(t, i)
      {
        assert StampInv(s, i) && LostInv(s, i);
      }
      forall i: nat, n: nat | i < |t.calls|
        ensures BeforeInv(t, i, n)
      {
        assert BeforeInv(s, i, n);
      }
    }
  }

  lemma ProducerOwedWas(c: Config, s: State, a: Action, n: nat, r: nat, h: Held)
    requires CallsInv(s) && Enabled(c, s, a) && IsProducer(a)
    requires Owed(Apply(c, s, a), n, r, h)
    ensures Owed(s, n, r, h) || (a == Push(r) && n in s.calls[r].before && n < |s.calls|)
  {
    hide Judged, Observed, EffectOn, Pressed, LostInv, IsCriticalRelease;
    ReleaseIsCritical(Apply(c, s, a).calls[r].data, h);
    if r < |s.calls| { assert BeforeInv(s, r, n) && StampInv(s, r); }
    if n < |s.calls| { assert StampInv(s, n); }
  }

  /** A step creates no debt, except that a release pushed now is owed to the notes before it. */
  lemma OwedWas(c: Config, s: State, a: Action, n: nat, r: nat, h: Held)
    requires CallsInv(s) && Enabled(c, s, a)
    requires Owed(Apply(c, s, a), n, r, h)
    ensures Owed(s, n, r, h) || (a == Push(r) && n in s.calls[r].before && n < |s.calls|)
  {
    hide Apply, Enabled, EffectOn, IsCriticalRelease;
    if IsProducer(a) {
      ProducerOwedWas(c, s, a, n, r, h);
    } else {
      OthersKeepCalls(c, s, a);
      assert StampInv(s, n);
    }
  }

  // ---- the line

  /** Nothing is owed to an overtaken packet, and an overtaken release is owed to nobody. */
  lemma OvertakenIsNotOwed(s: State, p: Packet, n: nat, h: Held)
    requires CallsInv(s) && Carries(s, p) && p.generation < s.generation
    ensures !Owed(s, n, p.call, h)
  {
    assert BeforeInv(s, p.call, n);
  }

  predicate ReleasesNothing(data: seq<byte>) {
    !IsCriticalRelease(data) || (|data| >= 3 && Kind(data[0]) == 9 && data[2] > 0)
  }

  lemma ReleasesNothingMeans(data: seq<byte>, h: Held)
    requires ReleasesNothing(data)
    ensures EffectOn(data, h) != Release
  {
  }

  lemma DebtsOfSuffix(s: State, line: seq<Packet>, k: nat)
    requires k <= |line| && Carried(s, line) && Debts(s, line)
    ensures Carried(s, line[k..]) && Debts(s, line[k..])
  {
    forall a: nat, r: nat, h | a < |line[k..]| && EffectOn(line[k..][a].data, h) == Press
        && Owed(s, line[k..][a].call, r, h)
      ensures InLine(line[k..], a + 1, r)
    {
      assert line[k + a] == line[k..][a];
      var b :| k + a + 1 <= b < |line| && line[b].call == r;
      assert line[k..][b - k].call == r;
    }
  }

  /** A packet that is owed to nobody can leave the line. */
  lemma DebtsWithout(s: State, line: seq<Packet>, x: nat)
    requires x < |line| && Carried(s, line) && Debts(s, line)
    requires Dispensable(s, line, x)
    ensures var rest := CallbackMidi.Without(line, x); Carried(s, rest) && Debts(s, rest)
  {
    var rest := CallbackMidi.Without(line, x);
    forall a: nat, r: nat, h | a < |rest| && EffectOn(rest[a].data, h) == Press && Owed(s, rest[a].call, r, h)
      ensures InLine(rest, a + 1, r)
    {
      var a0 := if a < x then a else a + 1;
      assert line[a0] == rest[a];
      var b :| a0 + 1 <= b < |line| && line[b].call == r;
      assert b != x;
      assert rest[if b < x then b else b - 1].call == r;
    }
  }

  lemma InLineWithout(line: seq<Packet>, x: nat, from: nat, r: nat, shorter: seq<Packet>)
    requires x < |line| && shorter == CallbackMidi.Without(line, x)
    requires line[x].call != r && InLine(line, from, r)
    ensures InLine(shorter, if x < from then from - 1 else from, r)
  {
    var b :| from <= b < |line| && line[b].call == r;
    assert shorter[if x < b then b - 1 else b].call == r;
  }

  lemma NotReleasingIsNotOwed(s: State, p: Packet)
    requires Carries(s, p) && ReleasesNothing(p.data)
    ensures forall n: nat, h :: !Owed(s, n, p.call, h)
  {
    forall n: nat, h
      ensures !Owed(s, n, p.call, h)
    {
      ReleasesNothingMeans(p.data, h);
    }
  }

  /** Once the generation has moved on, nothing is owed at all. */
  lemma NewGenerationClearsDebts(s: State, t: State, line: seq<Packet>)
    requires CallsInv(s) && Carried(s, line)
    requires t.calls == s.calls && t.generation > s.generation
    ensures Carried(t, line) && Debts(t, line)
  {
    forall n: nat, r: nat, h
      ensures !Owed(t, n, r, h)
    {
      if n < |s.calls| { assert StampInv(s, n); }
    }
  }

  lemma SameCallsSameDebts(s: State, t: State, line: seq<Packet>)
    requires Carried(s, line) && Debts(s, line) && t.calls == s.calls && t.generation == s.generation
    ensures Carried(t, line) && Debts(t, line)
  {
    forall a | 0 <= a < |line|
      ensures Carries(t, line[a])
    {
      assert Carries(s, line[a]);
    }
    forall n: nat, r: nat, h | Owed(t, n, r, h)
      ensures Owed(s, n, r, h)
    {
    }
  }

  // ---- producer steps

  lemma ProducerCarries(c: Config, s: State, a: Action)
    requires Carried(s, Line(s)) && Enabled(c, s, a) && IsProducer(a)
    ensures Carried(Apply(c, s, a), Line(Apply(c, s, a)))
  {
    hide CallbackMidi.Admit, EffectOn, Pressed;
    var line, t := Line(s), Apply(c, s, a);
    var line' := Line(t);
    forall x | 0 <= x < |line'|
      ensures Carries(t, line'[x])
    {
      if x < |line| { assert line'[x] == line[x] && Carries(s, line[x]); }
    }
  }

  /** A release that is pushed now goes behind everything pushed before it was issued. */
  lemma ProducerDebts(c: Config, s: State, a: Action)
    requires CallsInv(s) && Debts(s, Line(s)) && Enabled(c, s, a) && IsProducer(a)
    ensures Debts(Apply(c, s, a), Line(Apply(c, s, a)))
  {
    hide CallbackMidi.Admit, EffectOn, Pressed, Owed, CallsInv, Judged, Observed;
    var line, t := Line(s), Apply(c, s, a);
    var line' := Line(t);
    assert line' == if a.Push? then line + [Packet(a.i, s.calls[a.i].phase.stamp, s.calls[a.i].data)] else line;
    forall x: nat, r: nat, h | x < |line'| && EffectOn(line'[x].data, h) == Press && Owed(t, line'[x].call, r, h)
      ensures InLine(line', x + 1, r)
    {
      var n := line'[x].call;
      OwedWas(c, s, a, n, r, h);
      OwedMeansBefore(s, n, r, h);
      BeforeMeansReturned(s, n, r);
      if x == |line| {
        assert false;
      } else if a == Push(r) {
        assert line'[|line|].call == r;
      } else {
        var b :| x + 1 <= b < |line| && line[b].call == r;
        assert line'[b].call == r;
      }
    }
  }

  lemma BeforeMeansReturned(s: State, n: nat, r: nat)
    requires CallsInv(s) && r < |s.calls| && n in s.calls[r].before
    ensures n < |s.calls| && s.calls[n].phase.Done?
  {
    assert BeforeInv(s, r, n);
  }

  lemma OwedMeansBefore(s: State, n: nat, r: nat, h: Held)
    ensures Owed(s, n, r, h) ==> r < |s.calls| && n in s.calls[r].before
  {
  }

  // ---- callback steps

  lemma ObserveLine(s: State)
    requires CallsInv(s) && LineInv(s)
    ensures LineInv(Observed(s))
  {
    hide Carries, Owed, EffectOn;
    if s.generation != s.seen {
      var t := Observed(s);
      assert Line(t) == Line(s)[|s.pending|..];
      DebtsOfSuffix(s, Line(s), |s.pending|);
      SameCallsSameDebts(s, t, Line(t));
    }
  }

  datatype Fate = ReplacesAll | DropsIt | Appends | Evicts(x: nat)

  /** What admission does: append, drop or evict one packet that releases nothing, or start afresh with a reset. */
  lemma AdmitCases(pending: seq<Packet>, p: Packet, max: nat) returns (fate: Fate)
    ensures var a := CallbackMidi.Admit(pending, p, max, IsRelease, IsNoteOn);
            a.reset == fate.ReplacesAll? &&
            match fate
            case ReplacesAll => a.pending == [p]
            case DropsIt => a.pending == pending && ReleasesNothing(p.data)
            case Appends => a.pending == pending + [p]
            case Evicts(x) => x < |pending| && ReleasesNothing(pending[x].data)
                              && a.pending == CallbackMidi.Without(pending, x) + [p]
  {
    var i := CallbackMidi.FirstIndex(pending, IsNoteOn, true);
    var j := CallbackMidi.FirstIndex(pending, IsRelease, false);
    if !IsRelease(p) && |pending| >= max - CallbackMidi.Reserve(max) {
      fate := DropsIt;
    } else if |pending| < max {
      fate := Appends;
    } else if i < |pending| {
      fate := Evicts(i);
    } else if j < |pending| {
      fate := Evicts(j);
    } else {
      fate := ReplacesAll;
    }
  }

  /** Position x of the line holds nothing anybody is owed. */
  ghost predicate Dispensable(s: State, line: seq<Packet>, x: nat)
    requires x < |line|
  {
    forall n: nat, h :: !Owed(s, n, line[x].call, h)
  }

  /**
   * Judging the popped packet with the current generation seen: the line is kept, or
   * loses one dispensable packet x, or loses the pending queue along with a reset.
   */
  lemma JudgeDrops(c: Config, s: State, p: Packet) returns (x: nat)
    requires CallsInv(s) && LineInv(s) && s.popped == Some(p) && s.generation == s.seen
    ensures var line, t := Line(s), Judged(c, s, p);
            if x < |line| then Dispensable(s, line, x) && Line(t) == CallbackMidi.Without(line, x)
            else Line(t) == line || (ResetDue(t) && Line(t) == line[|s.pending|..])
  {
    hide Carries, Owed, EffectOn, CallbackMidi.Admit, StampInv, LostInv, BeforeInv, ReleasesNothing, Debts;
    var line, k, t := Line(s), |s.pending|, Judged(c, s, p);
    assert line[k] == p && Carries(s, p);
    x := |line|;
    if p.generation != s.seen {
      x := k;
      GenerationOfCall(s, p);
      forall n: nat, h
        ensures !Owed(s, n, p.call, h)
      {
        OvertakenIsNotOwed(s, p, n, h);
      }
    } else {
      var fate := AdmitCases(s.pending, p, c.maxPending);
      match fate
      case ReplacesAll => assert Line(t) == line[k..];
      case Appends => assert Line(t) == line;
      case DropsIt =>
        x := k;
        NotReleasingIsNotOwed(s, p);
      case Evicts(e) =>
        x := e;
        assert line[x] == s.pending[x];
        NotReleasingIsNotOwed(s, line[x]);
    }
    if x < |line| {
      assert Line(t) == CallbackMidi.Without(line, x);
    }
  }

  lemma JudgeLine(c: Config, s: State, p: Packet)
    requires CallsInv(s) && LineInv(s) && s.popped == Some(p)
    ensures LineInv(Judged(c, s, p))
  {
    hide Carries, Owed, EffectOn, Debts;
    var o, t := Observed(s), Judged(c, s, p);
    ObserveLine(s);
    CallsStep(c, s, Observe);
    var x := JudgeDrops(c, o, p);
    assert Judged(c, o, p) == t;
    if x < |Line(o)| {
      DebtsWithout(o, Line(o), x);
    } else if ResetDue(t) && Line(t) == Line(o)[|o.pending|..] {
      DebtsOfSuffix(o, Line(o), |o.pending|);
    }
    SameCallsSameDebts(o, t, Line(t));
    AdmittedAreCurrent(c, o, p);
  }

  lemma AdmittedAreCurrent(c: Config, s: State, p: Packet)
    requires s.generation == s.seen && s.popped == Some(p)
    requires forall a :: 0 <= a < |s.pending| ==> s.pending[a].generation == s.seen
    ensures var t := Judged(c, s, p);
            forall a :: 0 <= a < |t.pending| ==> t.pending[a].generation == t.seen
  {
    hide CallbackMidi.Admit;
    var fate := AdmitCases(s.pending, p, c.maxPending);
  }

  lemma GenerationOfCall(s: State, p: Packet)
    requires CallsInv(s) && Carries(s, p)
    ensures p.generation <= s.generation
  {
    assert StampInv(s, p.call);
  }

  lemma TailOfLine<T>(a: seq<T>, b: seq<T>, c: seq<T>)
    requires a != []
    ensures (a + b + c)[1..] == a[1..] + b + c
  {
  }

  lemma CallbackLine(c: Config, s: State, a: Action)
    requires CallsInv(s) && LineInv(s) && Enabled(c, s, a) && !IsProducer(a) && !a.Judge? && !a.Observe?
    ensures LineInv(Apply(c, s, a))
  {
    hide Carries, Owed, EffectOn, CallbackMidi.Admit, CallsInv, Debts, Pressed, Judged, Observed;
    var t := Apply(c, s, a);
    if a.RequestReset? {
      NewGenerationClearsDebts(s, t, Line(s));
    } else if a.TakeResetRequest? {
      DebtsOfSuffix(s, Line(s), |s.pending|);
      assert Line(t) == Line(s)[|s.pending|..];
      NewGenerationClearsDebts(s, t, Line(t));
    } else if a.Deliver? {
      DebtsOfSuffix(s, Line(s), 1);
      TailOfLine(s.pending, if s.popped.Some? then [s.popped.value] else [], s.ring);
      assert Line(t) == Line(s)[1..];
      SameCallsSameDebts(s, t, Line(t));
    } else {
      assert Line(t) == Line(s);
      SameCallsSameDebts(s, t, Line(t));
    }
  }

  lemma ProducerPending(c: Config, s: State, a: Action)
    requires Enabled(c, s, a) && IsProducer(a)
    ensures Apply(c, s, a).pending == s.pending && Apply(c, s, a).seen == s.seen
  {
    hide EffectOn, Pressed, Judged, Observed, IsCriticalRelease;
  }

  lemma LineStep(c: Config, s: State, a: Action)
    requires CallsInv(s) && LineInv(s) && Enabled(c, s, a)
    ensures LineInv(Apply(c, s, a))
  {
    if IsProducer(a) {
      hide Apply, Enabled, Carried, Debts, CallsInv, Line;
      ProducerCarries(c, s, a);
      ProducerDebts(c, s, a);
      ProducerPending(c, s, a);
    } else if a.Observe? {
      hide CallsInv, LineInv, Observed;
      ObserveLine(s);
    } else if a.Judge? {
      hide CallsInv, LineInv, Judged;
      JudgeLine(c, s, s.popped.value);
    } else {
      hide *;
      CallbackLine(c, s, a);
    }
  }

  // ---- what the plug-in holds

  /** Delivering a packet: what it presses is now held by its call, what it leaves alone is held as before. */
  lemma DeliverHeld(s: State, c: Config, h: Held)
    requires Enabled(c, s, Deliver)
    ensures var p, t := s.pending[0], Apply(c, s, Deliver);
            h in t.held <==> EffectOn(p.data, h) == Press || (EffectOn(p.data, h) == Keep && h in s.held)
    ensures var p, t := s.pending[0], Apply(c, s, Deliver);
            h in t.held ==> t.held[h] == if EffectOn(p.data, h) == Press then p.call else s.held[h]
  {
    PressIsPressed(s.pending[0].data, h);
  }

  lemma DeliverPressing(c: Config, s: State, h: Held)
    requires Inv(s) && Enabled(c, s, Deliver) && h in Apply(c, s, Deliver).held
    ensures var t := Apply(c, s, Deliver); Pressing(t, h, t.held[h]) && t.calls[t.held[h]].phase.stamp == t.seen
  {
    DeliverHeld(s, c, h);
    hide Owed, EffectOn, Pressed, CallsInv, Debts;
    assert Line(s)[0] == s.pending[0] && Carries(s, s.pending[0]);
  }

  lemma DeliverDebt(c: Config, s: State, h: Held, r: nat)
    requires Inv(s) && Enabled(c, s, Deliver) && h in Apply(c, s, Deliver).held
    requires var t := Apply(c, s, Deliver); Owed(t, t.held[h], r, h)
    ensures InLine(Line(Apply(c, s, Deliver)), 0, r)
  {
    DeliverHeld(s, c, h);
    hide Owed, EffectOn, Pressed, CallsInv, Pressing, Carried;
    var p, t := s.pending[0], Apply(c, s, Deliver);
    var line := Line(s);
    assert line[0] == p && Line(t) == line[1..];
    OwedMeansRelease(t, s, t.held[h], r, h);
    if EffectOn(p.data, h) == Press {
      assert InLine(line, 0 + 1, r);
    } else {
      assert InLine(line, 0, r);
    }
    var b :| 0 <= b < |line| && line[b].call == r && (b == 0 ==> EffectOn(p.data, h) != Press);
    HeadIsNotReleased(s, h, r, b);
    assert line[1..][b - 1].call == r;
  }

  /** The packet being delivered does not itself release what it leaves held. */
  lemma HeadIsNotReleased(s: State, h: Held, r: nat, b: nat)
    requires LineInv(s) && s.pending != [] && b < |Line(s)| && Line(s)[b].call == r
    requires r < |s.calls| && EffectOn(s.calls[r].data, h) == Release
    requires EffectOn(s.pending[0].data, h) != Release
    ensures b > 0
  {
    hide EffectOn, Debts;
    assert Line(s)[0] == s.pending[0] && Carries(s, s.pending[0]);
  }

  lemma DeliverStep(c: Config, s: State)
    requires Inv(s) && Enabled(c, s, Deliver)
    ensures HeldInv(Apply(c, s, Deliver))
  {
    hide Inv, Apply, Enabled, Owed, InLine, Line, EffectOn;
    var t := Apply(c, s, Deliver);
    forall h | h in t.held
      ensures Pressing(t, h, t.held[h]) && t.calls[t.held[h]].phase.stamp == t.seen
    {
      DeliverPressing(c, s, h);
    }
    forall h, r: nat | h in t.held && Owed(t, t.held[h], r, h)
      ensures InLine(Line(t), 0, r)
    {
      DeliverDebt(c, s, h, r);
    }
  }

  lemma OwedMeansRelease(t: State, s: State, n: nat, r: nat, h: Held)
    requires t.calls == s.calls && t.generation == s.generation && Owed(t, n, r, h)
    ensures Owed(s, n, r, h) && r < |s.calls| && EffectOn(s.calls[r].data, h) == Release
  {
  }

  lemma ProducerPressing(c: Config, s: State, a: Action, h: Held, n: nat)
    requires Enabled(c, s, a) && (IsProducer(a) || a.RequestReset?) && Pressing(s, h, n)
    ensures var t := Apply(c, s, a); Pressing(t, h, n) && t.calls[n].phase.stamp == s.calls[n].phase.stamp
  {
    hide EffectOn, Pressed, Judged, Observed, IsCriticalRelease;
  }

  lemma ProducerFrame(c: Config, s: State, a: Action)
    requires Enabled(c, s, a) && (IsProducer(a) || a.RequestReset?)
    ensures var t := Apply(c, s, a);
            && t.held == s.held && t.seen == s.seen && ResetDue(t) == ResetDue(s)
            && if a.Push? then |Line(t)| == |Line(s)| + 1 && Line(s) <= Line(t) && Line(t)[|Line(s)|].call == a.i
               else Line(t) == Line(s)
  {
    hide EffectOn, Pressed, Judged, Observed, IsCriticalRelease;
  }

  lemma ProducerHeld(c: Config, s: State, a: Action)
    requires Inv(s) && Enabled(c, s, a) && (IsProducer(a) || a.RequestReset?)
    ensures HeldInv(Apply(c, s, a))
  {
    hide Apply, Enabled, Owed, EffectOn, CallsInv, LineInv, ResetDue, Line;
    var t := Apply(c, s, a);
    var line, line' := Line(s), Line(t);
    ProducerFrame(c, s, a);
    forall h | h in t.held
      ensures Pressing(t, h, t.held[h]) && t.calls[t.held[h]].phase.stamp == s.calls[s.held[h]].phase.stamp
    {
      ProducerPressing(c, s, a, h, s.held[h]);
      assert Pressing(t, h, t.held[h]);
    }
    if !ResetDue(t) {
      forall h, r: nat | h in t.held && Owed(t, t.held[h], r, h)
        ensures InLine(line', 0, r)
      {
        OwedWas(c, s, a, t.held[h], r, h);
        if a == Push(r) {
          assert line'[|line|].call == r;
        } else {
          assert InLine(line, 0, r);
          var b :| 0 <= b < |line| && line[b].call == r;
          assert line'[b].call == r;
        }
      }
    }
  }

  /** Judging and observing either make a reset due or keep every release that something held is owed. */
  lemma ConsumerHeld(s: State, t: State)
    requires Inv(s) && t.calls == s.calls && t.held == s.held && t.generation == s.generation
    requires ResetDue(t) || (t.seen == s.seen && ResetDue(s) == ResetDue(t)
               && forall n: nat, r: nat, h :: Owed(s, n, r, h) && InLine(Line(s), 0, r) ==> InLine(Line(t), 0, r))
    ensures HeldInv(t)
  {
    hide EffectOn;
    forall h | h in t.held
      ensures Pressing(t, h, t.held[h])
    {
      assert Pressing(s, h, s.held[h]);
    }
    if !ResetDue(t) {
      forall h, r: nat | h in t.held && Owed(t, t.held[h], r, h)
        ensures InLine(Line(t), 0, r)
      {
        assert Owed(s, s.held[h], r, h);
      }
    }
  }

  /** Whatever leaves the line when the popped packet is judged, no owed release does unless a reset is due. */
  lemma JudgeHeld(c: Config, s: State, p: Packet)
    requires Inv(s) && s.popped == Some(p)
    ensures HeldInv(Judged(c, s, p))
  {
    hide Owed, EffectOn, CallbackMidi.Admit;
    var t := Judged(c, s, p);
    if !ResetDue(t) {
      var line := Line(s);
      var x := JudgeDrops(c, s, p);
      forall n: nat, r: nat, h | Owed(s, n, r, h) && InLine(line, 0, r)
        ensures InLine(Line(t), 0, r)
      {
        if x < |line| { InLineWithout(line, x, 0, r, Line(t)); }
      }
    }
    ConsumerHeld(s, t);
  }

  lemma HeldStep(c: Config, s: State, a: Action)
    requires Inv(s) && Enabled(c, s, a)
    ensures HeldInv(Apply(c, s, a))
  {
    hide Owed, EffectOn, CallbackMidi.Admit, CallsInv, LineInv;
    var t := Apply(c, s, a);
    if IsProducer(a) || a.RequestReset? {
      ProducerHeld(c, s, a);
    } else if a.Deliver? {
      DeliverStep(c, s);
    } else if a.Judge? {
      JudgeHeld(c, s, s.popped.value);
    } else if a.TakeResetRequest? {
      forall h | h in t.held
        ensures Pressing(t, h, t.held[h])
      {
        assert Pressing(s, h, s.held[h]);
      }
    } else if !a.SendReset? {
      if !ResetDue(t) { assert Line(t) == Line(s); }
      ConsumerHeld(s, t);
    }
  }

  lemma StepKeepsInv(c: Config, s: State, a: Action)
    requires Inv(s) && Enabled(c, s, a)
    ensures Inv(Apply(c, s, a))
  {
    CallsStep(c, s, a);
    LineStep(c, s, a);
    HeldStep(c, s, a);
  }

  lemma {:induction false} RunKeepsInv(c: Config, s: State, actions: seq<Action>, s': State)
    requires Inv(s) && IsRun(c, s, actions, s')
    ensures Inv(s')
    decreases |actions|
  {
    hide Inv, Apply, Enabled;
    if actions != [] {
      StepKeepsInv(c, s, actions[0]);
      RunKeepsInv(c, Apply(c, s, actions[0]), actions[1..], s');
    }
  }

  // ------------------------------------------------------------------- theorems

  /** The callback has drained the ring, honoured the generation, and owes no reset. */
  predicate Quiet(s: State) {
    Line(s) == [] && s.seen == s.generation && !s.needsReset
  }

  /**
   * No stuck notes. Whatever pushes fail and whatever is reset, once the callback is
   * quiet, everything the plug-in holds was pressed by a call that was sent, and no
   * release of it issued after that call returned has itself returned.
   */
  lemma NoStuckNotes(c: Config, actions: seq<Action>, s: State, h: Held)
    requires IsRun(c, Init(), actions, s) && Quiet(s) && h in s.held
    ensures var n := s.held[h];
            && Pressing(s, h, n)
            && forall r :: 0 <= r < |s.calls| && s.calls[r].phase.Done? && EffectOn(s.calls[r].data, h) == Release
                 ==> n !in s.calls[r].before
  {
    hide EffectOn, Apply, Enabled;
    assert Inv(Init());
    RunKeepsInv(c, Init(), actions, s);
    var n := s.held[h];
    assert Pressing(s, h, n) && s.calls[n].phase.stamp == s.generation;
    forall r: nat | r < |s.calls| && s.calls[r].phase.Done? && EffectOn(s.calls[r].data, h) == Release
      ensures n !in s.calls[r].before
    {
      assert Owed(s, n, r, h) ==> InLine(Line(s), 0, r);
    }
  }

  function Messages(calls: seq<Call>): seq<seq<byte>> {
    seq(|calls|, i requires 0 <= i < |calls| => calls[i].data)
  }

  /**
   * When messages are issued one after another, whatever still sounds is something the
   * issued messages themselves leave pressed.
   */
  lemma SequentialSendersAgreeWithTheirMessages(c: Config, actions: seq<Action>, s: State, h: Held)
    requires IsRun(c, Init(), actions, s) && Quiet(s) && h in s.held
    requires forall i, j :: 0 <= i < j < |s.calls| ==>
          s.calls[i].phase.Done? && s.calls[j].phase.Done? && i in s.calls[j].before
    ensures Holding(h, false, Messages(s.calls))
  {
    hide EffectOn, Apply, Enabled;
    NoStuckNotes(c, actions, s, h);
    PressedAndNotReleased(h, Messages(s.calls), s.held[h], false);
  }

  lemma {:induction false} PressedAndNotReleased(h: Held, messages: seq<seq<byte>>, n: nat, held: bool)
    requires n < |messages| ==> EffectOn(messages[n], h) == Press
    requires n < |messages| || held
    requires forall r :: n < r < |messages| || (n >= |messages| && 0 <= r < |messages|) ==>
          EffectOn(messages[r], h) != Release
    ensures Holding(h, held, messages)
    decreases |messages|
  {
    if messages != [] {
      var effect := EffectOn(messages[0], h);
      var next := effect == Press || (effect == Keep && held);
      if n == 0 || n >= |messages| {
        PressedAndNotReleased(h, messages[1..], |messages|, next);
      } else {
        PressedAndNotReleased(h, messages[1..], n - 1, next);
      }
    }
  }
}
