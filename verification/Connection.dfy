// One playback connection: it reads control frames, runs a scheduler thread, and
// releases everything the session may have left sounding when it is stopped.
module Connection {
  import opened Midi
  import opened SourceMidiState
  import Playback
  import opened InputProfile
  import opened Wrappers

  // --------------------------------------------------------------------- state

  /** Where a queued frame comes from: event i of this session, reset k of this connection, or somebody else. */
  datatype Origin = Event(i: nat) | Reset(k: nat) | Foreign

  datatype Frame = Frame(source: string, data: seq<byte>, origin: Origin)

  /** Cleared means that both stop flags have just been found clear. */
  datatype Scheduler = NotSpawned | Running(next: nat, cleared: bool) | Returned(completed: bool)
      | Exited(completed: bool)

  datatype Reply = StoppedReply | CompletedReply | NoReply

  datatype Phase = LoopHead | Receiving | Leaving | Joining | Joined | Resetting(k: nat)
      | Finished(reply: Reply, released: bool)

  datatype State = State(
    phase: Phase,
    started: bool,
    stopRequested: bool,
    failed: bool,
    scheduler: Scheduler,
    cancel: bool,
    done: bool,
    serverStop: bool,
    queue: seq<Frame>)

  /** A session that was accepted: the source name it plays under, and its events. */
  datatype Session = Session(source: string, events: seq<Playback.Event>)

  /** What an event sends: the normalised message, prepared as the profile in force at that moment says. */
  function Image(how: Preparation, event: Playback.Event): Option<seq<byte>> {
    Prepare(how, Canonical(event.data))
  }

  /** The bytes are what some preparation makes of the event. */
  ghost predicate IsImage(data: seq<byte>, event: Playback.Event) {
    exists how :: Image(how, event) == Some(data)
  }

  datatype Inbound = Start | Stop | Unexpected | TimedOut | ReadError

  datatype Action =
    // the connection thread
    | CheckLoop
    | Receive(inbound: Inbound)
    | SetCancel
    | Join
    | Decide
    | SendReset(admitted: bool)
    | Finish
    // the scheduler thread
    | Check
    | Offer(outcome: Playback.Outcome, how: Preparation)
    | Return
    | Exit
    // anyone else
    | StopServer
    | Intrude(frame: Frame)

  const RESETS: nat := 64

  function Init(): State {
    State(LoopHead, false, false, false, NotSpawned, false, false, false, [])
  }

  function ResetData(k: nat): seq<byte>
    requires k < RESETS
  {
    [0xB0 + k / 4, if k % 4 == 0 then 64 else if k % 4 == 1 then 66 else if k % 4 == 2 then 69 else 123, 0]
  }

  // --------------------------------------------------------------------- steps

  /** An offer of a malformed message is invalid, one the preparation rejects is filtered, and no other is either. */
  predicate Fits(event: Playback.Event, outcome: Playback.Outcome, how: Preparation) {
    && (outcome.InvalidMessage? <==> !IsWellFormed(event.data))
    && (outcome.Filtered? <==> IsWellFormed(event.data) && Image(how, event).None?)
  }

  predicate Enabled(c: Session, s: State, a: Action) {
    match a
    case CheckLoop => s.phase.LoopHead?
    case Receive(_) => s.phase.Receiving?
    case SetCancel => s.phase.Leaving?
    case Join => s.phase.Joining? && (s.scheduler.NotSpawned? || s.scheduler.Exited?)
    case Decide => s.phase.Joined?
    case SendReset(_) => s.phase.Resetting? && s.phase.k < RESETS
    case Finish => s.phase == Resetting(RESETS)
    case Check => s.scheduler.Running? && !s.scheduler.cleared && s.scheduler.next < |c.events|
    case Offer(outcome, how) =>
      s.scheduler.Running? && s.scheduler.cleared && s.scheduler.next < |c.events|
          && Fits(c.events[s.scheduler.next], outcome, how)
    case Return => s.scheduler == Running(|c.events|, false)
    case Exit => s.scheduler.Returned?
    case StopServer => true
    case Intrude(f) => f.origin.Foreign?
  }

  function Received(s: State, inbound: Inbound): State {
    match inbound
    case Start =>
      if s.started then s.(failed := true, phase := Leaving)
      else s.(started := true, scheduler := Running(0, false), phase := LoopHead)
    case Stop => s.(stopRequested := true, phase := Leaving)
    case TimedOut => s.(phase := LoopHead)
    case Unexpected => s.(failed := true, phase := Leaving)
    case ReadError => s.(failed := true, phase := Leaving)
  }

  function Decided(s: State): Phase {
    if s.serverStop then Finished(NoReply, false)
    else if s.stopRequested || s.failed then
      if s.started || s.stopRequested then Resetting(0) else Finished(NoReply, false)
    else if s.scheduler.Exited? && s.scheduler.completed then Finished(CompletedReply, false)
    else Finished(NoReply, false)
  }

  function EventFrame(c: Session, k: nat, how: Preparation): Frame
    requires k < |c.events| && Image(how, c.events[k]).Some?
  {
    Frame(c.source, Image(how, c.events[k]).value, Event(k))
  }

  function Offered(c: Session, s: State, outcome: Playback.Outcome, how: Preparation): State
    requires s.scheduler.Running? && s.scheduler.next < |c.events| && Fits(c.events[s.scheduler.next], outcome, how)
  {
    var k := s.scheduler.next;
    if outcome.Disconnected? then s.(scheduler := Returned(false))
    else
      s.(scheduler := Running(k + 1, false),
         queue := s.queue + if outcome.Enqueued? then [EventFrame(c, k, how)] else [])
  }

  function Apply(c: Session, s: State, a: Action): State
    requires Enabled(c, s, a)
  {
    match a
    case CheckLoop => s.(phase := if s.serverStop || s.done then Leaving else Receiving)
    case Receive(inbound) => Received(s, inbound)
    case SetCancel => s.(cancel := s.cancel || s.stopRequested || s.failed || s.serverStop, phase := Joining)
    case Join => s.(phase := Joined)
    case Decide => s.(phase := Decided(s))
    case SendReset(admitted) =>
      var k := s.phase.k;
      s.(phase := Resetting(k + 1),
         queue := s.queue + if admitted then [Frame(c.source, ResetData(k), Reset(k))] else [])
    case Finish => s.(phase := Finished(if s.stopRequested then StoppedReply else NoReply, true))
    case Check =>
      s.(scheduler := if s.cancel || s.serverStop then Returned(false) else Running(s.scheduler.next, true))
    case Offer(outcome, how) => Offered(c, s, outcome, how)
    case Return => s.(scheduler := Returned(true))
    case Exit => s.(scheduler := Exited(s.scheduler.completed), done := true)
    case StopServer => s.(serverStop := true)
    case Intrude(f) => s.(queue := s.queue + [f])
  }

  ghost predicate IsRun(c: Session, s: State, actions: seq<Action>, s': State)
    decreases |actions|
  {
    if actions == [] then s' == s
    else Enabled(c, s, actions[0]) && IsRun(c, Apply(c, s, actions[0]), actions[1..], s')
  }

  // ----------------------------------------------------------------- invariant

  /** Own frames: events in order, then resets in order. */
  predicate Before(a: Origin, b: Origin) {
    match (a, b)
    case (Event(i), Event(j)) => i < j
    case (Event(_), Reset(_)) => true
    case (Reset(k), Reset(l)) => k < l
    case (Reset(_), Event(_)) => false
    case (_, Foreign) => true
    case (Foreign, _) => true
  }

  ghost predicate InOrder(queue: seq<Frame>) {
    forall i, j :: 0 <= i < j < |queue| ==> Before(queue[i].origin, queue[j].origin)
  }

  predicate ThreadIsGone(s: State) {
    s.scheduler.NotSpawned? || s.scheduler.Exited?
  }

  function NextReset(p: Phase): nat {
    match p
    case Resetting(k) => k
    case Finished(_, _) => RESETS
    case _ => 0
  }

  /** A queued frame is what its origin says it is, and the origin has already been offered. */
  ghost predicate Genuine(c: Session, s: State, f: Frame) {
    match f.origin
    case Event(i) =>
      && f.source == c.source && i < |c.events| && IsImage(f.data, c.events[i])
      && (s.scheduler.Running? ==> i < s.scheduler.next) && !s.scheduler.NotSpawned?
    case Reset(k) => k < NextReset(s.phase) && k < RESETS && f.source == c.source && f.data == ResetData(k)
    case Foreign => true
  }

  predicate PhasesFit(s: State) {
    && (s.phase.Joined? || s.phase.Resetting? || s.phase.Finished? ==> ThreadIsGone(s))
    && (s.scheduler.NotSpawned? <==> !s.started)
    && (s.phase.Resetting? ==> s.phase.k <= RESETS && (s.stopRequested || (s.failed && s.started)))
    && (s.phase.Finished? && s.phase.reply.StoppedReply? ==> s.stopRequested && s.phase.released)
  }

  ghost predicate Inv(c: Session, s: State) {
    && InOrder(s.queue) && PhasesFit(s)
    && (forall i :: 0 <= i < |s.queue| ==> Genuine(c, s, s.queue[i]))
  }

  predicate IsScheduler(a: Action) {
    a.Check? || a.Offer? || a.Return? || a.Exit?
  }

  lemma SchedulerKeepsPhases(c: Session, s: State, a: Action)
    requires PhasesFit(s) && Enabled(c, s, a) && IsScheduler(a)
    ensures PhasesFit(Apply(c, s, a))
  {
    hide ResetData, Received, Decided, Fits, EventFrame;
  }

  lemma StepKeepsPhases(c: Session, s: State, a: Action)
    requires PhasesFit(s) && Enabled(c, s, a)
    ensures PhasesFit(Apply(c, s, a))
  {
    if IsScheduler(a) {
      hide Apply, Enabled, PhasesFit;
      SchedulerKeepsPhases(c, s, a);
    } else {
      hide ResetData, Offered, Fits, EventFrame;
      if a.Receive? { ReceivingKeepsPhases(s, a.inbound); }
      hide Received;
    }
  }

  lemma ReceivingKeepsPhases(s: State, inbound: Inbound)
    requires PhasesFit(s) && s.phase.Receiving?
    ensures PhasesFit(Received(s, inbound))
  {
  }

  /** A step queues at most one frame: the next event, the next reset, or somebody else's. */
  function Queued(c: Session, s: State, a: Action): seq<Frame>
    requires Enabled(c, s, a)
  {
    match a
    case Offer(outcome, how) => if outcome.Enqueued? then [EventFrame(c, s.scheduler.next, how)] else []
    case SendReset(admitted) => if admitted then [Frame(c.source, ResetData(s.phase.k), Reset(s.phase.k))] else []
    case Intrude(f) => [f]
    case _ => []
  }

  lemma NewFrame(c: Session, s: State, a: Action)
    requires Enabled(c, s, a)
    ensures Apply(c, s, a).queue == s.queue + Queued(c, s, a)
  {
    hide ResetData, Decided;
    if !(a.Offer? || a.SendReset? || a.Intrude?) { assert s.queue + [] == s.queue; }
  }

  lemma NewFrameIsGenuine(c: Session, s: State, a: Action)
    requires PhasesFit(s) && Enabled(c, s, a) && Queued(c, s, a) != []
    ensures Genuine(c, Apply(c, s, a), Queued(c, s, a)[0])
  {
    hide ResetData, Decided, Received;
  }

  lemma StepKeepsGenuine(c: Session, s: State, a: Action, f: Frame)
    requires Inv(c, s) && Enabled(c, s, a) && Genuine(c, s, f)
    ensures Genuine(c, Apply(c, s, a), f)
  {
    hide InOrder, ResetData, IsImage, Fits, EventFrame;
  }

  lemma AppendedInOrder(c: Session, s: State, f: Frame)
    requires Inv(c, s)
    requires f.origin.Event? ==> s.scheduler.Running? && f.origin.i == s.scheduler.next
    requires f.origin.Reset? ==> f.origin.k == NextReset(s.phase)
    ensures InOrder(s.queue + [f])
  {
    hide ResetData;
    forall i | 0 <= i < |s.queue|
      ensures Before(s.queue[i].origin, f.origin)
    {
      assert Genuine(c, s, s.queue[i]);
    }
  }

  lemma StepKeepsInv(c: Session, s: State, a: Action)
    requires Inv(c, s) && Enabled(c, s, a)
    ensures Inv(c, Apply(c, s, a))
  {
    hide ResetData, InOrder, Apply, Genuine, PhasesFit;
    var t := Apply(c, s, a);
    StepKeepsPhases(c, s, a);
    NewFrame(c, s, a);
    forall i | 0 <= i < |s.queue|
      ensures Genuine(c, t, s.queue[i])
    {
      StepKeepsGenuine(c, s, a, s.queue[i]);
    }
    if Queued(c, s, a) != [] {
      NewFrameIsGenuine(c, s, a);
      AppendedInOrder(c, s, Queued(c, s, a)[0]);
    } else {
      assert t.queue == s.queue;
    }
  }

  lemma {:induction false} RunKeepsInv(c: Session, s: State, actions: seq<Action>, s': State)
    requires Inv(c, s) && IsRun(c, s, actions, s')
    ensures Inv(c, s')
    decreases |actions|
  {
    hide Inv, Apply, Enabled;
    if actions != [] {
      StepKeepsInv(c, s, actions[0]);
      RunKeepsInv(c, Apply(c, s, actions[0]), actions[1..], s');
    }
  }

  // ------------------------------------------------------------------- theorems

  lemma InvAtStart(c: Session)
    ensures Inv(c, Init())
  {
  }

  /** The connection's own frames. */
  function Own(queue: seq<Frame>): seq<Frame> {
    if queue == [] then []
    else
      var last := queue[|queue| - 1];
      Own(queue[..|queue| - 1]) + if last.origin.Foreign? then [] else [last]
  }

  lemma {:induction false} OwnInOrder(queue: seq<Frame>)
    requires InOrder(queue)
    ensures InOrder(Own(queue))
    ensures forall f :: f in Own(queue) <==> f in queue && !f.origin.Foreign?
    decreases |queue|
  {
    if queue != [] {
      var before, last := queue[..|queue| - 1], queue[|queue| - 1];
      OwnInOrder(before);
      assert queue == before + [last];
      assert forall f :: f in before ==> Before(f.origin, last.origin);
    }
  }

  /** Frames in order are events up to some point, and resets from there on. */
  lemma {:induction false} Turn(own: seq<Frame>) returns (m: nat)
    requires InOrder(own) && forall f :: f in own ==> !f.origin.Foreign?
    ensures m <= |own| && (forall j :: 0 <= j < m ==> own[j].origin.Event?)
    ensures forall j :: m <= j < |own| ==> own[j].origin.Reset?
    decreases |own|
  {
    if own == [] {
      m := 0;
    } else if own[|own| - 1].origin.Reset? {
      m := Turn(own[..|own| - 1]);
    } else {
      m := |own|;
      forall j | 0 <= j < |own|
        ensures own[j].origin.Event?
      {
        assert own[j] in own && j < |own| - 1 ==> Before(own[j].origin, own[|own| - 1].origin);
      }
    }
  }

  /** Numbers below a bound, each larger than the one before. */
  ghost predicate Ascending(numbers: seq<nat>, bound: nat) {
    && (forall i :: 0 <= i < |numbers| ==> numbers[i] < bound)
    && (forall i, j :: 0 <= i < j < |numbers| ==> numbers[i] < numbers[j])
  }

  /** The frames carry, under the session's name, these events as prepared. */
  ghost predicate CarryEvents(c: Session, frames: seq<Frame>, events: seq<nat>) {
    && |frames| == |events| && Ascending(events, |c.events|)
    && forall j :: 0 <= j < |frames| ==> frames[j].source == c.source && IsImage(frames[j].data, c.events[events[j]])
  }

  /** The frames carry, under the session's name, these resets. */
  ghost predicate CarryResets(c: Session, frames: seq<Frame>, resets: seq<nat>) {
    && |frames| == |resets| && Ascending(resets, RESETS)
    && forall j :: 0 <= j < |frames| ==> frames[j].source == c.source && frames[j].data == ResetData(resets[j])
  }

  /**
   * However the two threads interleave, and whichever profiles are in force meanwhile, the
   * connection's queued frames are the prepared messages of a subsequence of the session's
   * events, in order, followed by resets, in order: no event is ever admitted once a reset
   * has been. Resets begin only with the scheduler gone.
   */
  lemma EventsThenResets(c: Session, actions: seq<Action>, s: State) returns (events: seq<nat>, resets: seq<nat>)
    requires IsRun(c, Init(), actions, s)
    ensures |Own(s.queue)| == |events| + |resets|
    ensures CarryEvents(c, Own(s.queue)[..|events|], events)
    ensures CarryResets(c, Own(s.queue)[|events|..], resets)
    ensures s.phase.Resetting? || s.phase.Finished? ==> ThreadIsGone(s)
  {
    hide Apply, Enabled, ResetData, IsImage, IsRun, Own, Genuine;
    InvAtStart(c);
    RunKeepsInv(c, Init(), actions, s);
    var own := Own(s.queue);
    OwnInOrder(s.queue);
    forall f | f in own
      ensures Genuine(c, s, f)
    {
      assert f in s.queue;
    }
    var m := Turn(own);
    events := EventNumbers(c, s, own[..m]);
    resets := ResetNumbers(c, s, own[m..]);
  }

  lemma EventNumbers(c: Session, s: State, frames: seq<Frame>) returns (events: seq<nat>)
    requires InOrder(frames) && forall f :: f in frames ==> Genuine(c, s, f)
    requires forall j :: 0 <= j < |frames| ==> frames[j].origin.Event?
    ensures CarryEvents(c, frames, events)
  {
    hide ResetData, IsImage;
    events := seq(|frames|, j requires 0 <= j < |frames| => frames[j].origin.i);
    forall j | 0 <= j < |frames|
      ensures events[j] < |c.events| && frames[j].source == c.source && IsImage(frames[j].data, c.events[events[j]])
    {
      assert Genuine(c, s, frames[j]);
    }
    forall i, j | 0 <= i < j < |frames|
      ensures events[i] < events[j]
    {
      assert Before(frames[i].origin, frames[j].origin);
    }
  }

  lemma ResetNumbers(c: Session, s: State, frames: seq<Frame>) returns (resets: seq<nat>)
    requires InOrder(frames) && forall f :: f in frames ==> Genuine(c, s, f)
    requires forall j :: 0 <= j < |frames| ==> frames[j].origin.Reset?
    ensures CarryResets(c, frames, resets)
  {
    hide ResetData, IsImage;
    resets := seq(|frames|, j requires 0 <= j < |frames| => frames[j].origin.k);
    forall j | 0 <= j < |frames|
      ensures resets[j] < RESETS && frames[j].source == c.source && frames[j].data == ResetData(resets[j])
    {
      assert Genuine(c, s, frames[j]);
    }
    forall i, j | 0 <= i < j < |frames|
      ensures resets[i] < resets[j]
    {
      assert Before(frames[i].origin, frames[j].origin);
    }
  }

  // ---- the resets silence the source

  /** How many resets have been offered. */
  function Sent(p: Phase): nat {
    match p
    case Resetting(k) => k
    case Finished(_, released) => if released then RESETS else 0
    case _ => 0
  }

  predicate IsQueued(queue: seq<Frame>, k: nat) {
    exists i :: 0 <= i < |queue| && queue[i].origin == Reset(k)
  }

  ghost predicate AllAdmitted(actions: seq<Action>) {
    forall a :: a in actions && a.SendReset? ==> a.admitted
  }

  lemma StepQueuesResets(c: Session, s: State, a: Action, k: nat)
    requires PhasesFit(s) && Enabled(c, s, a) && (a.SendReset? ==> a.admitted)
    requires k < Sent(Apply(c, s, a).phase) && (k < Sent(s.phase) ==> IsQueued(s.queue, k))
    ensures IsQueued(Apply(c, s, a).queue, k)
  {
    NewFrame(c, s, a);
    OnlySendingCounts(c, s, a);
    hide ResetData, PhasesFit, Offered, Apply, Enabled, Sent, Image, EventFrame;
    var t := Apply(c, s, a);
    if k < Sent(s.phase) {
      var i :| 0 <= i < |s.queue| && s.queue[i].origin == Reset(k);
      assert t.queue[i].origin == Reset(k);
    } else {
      assert t.queue[|s.queue|].origin == Reset(k);
    }
  }

  lemma OnlySendingCounts(c: Session, s: State, a: Action)
    requires PhasesFit(s) && Enabled(c, s, a)
    ensures Sent(Apply(c, s, a).phase) <= if a.SendReset? then s.phase.k + 1 else Sent(s.phase)
    ensures a.SendReset? ==> s.phase.Resetting? && Sent(s.phase) == s.phase.k
  {
    hide ResetData, Fits, EventFrame;
    if IsScheduler(a) {
      hide Enabled, Apply;
      SchedulerKeepsPhase(c, s, a);
    } else {
      hide Offered;
    }
  }

  lemma SchedulerKeepsPhase(c: Session, s: State, a: Action)
    requires Enabled(c, s, a) && IsScheduler(a)
    ensures Apply(c, s, a).phase == s.phase
  {
    hide ResetData, Received, Decided, Fits, EventFrame;
    match a
    case Check =>
    case Offer(outcome, how) =>
      assert Apply(c, s, a) == Offered(c, s, outcome, how);
      hide Apply;
    case Return =>
    case Exit =>
  }

  lemma {:induction false} RunQueuesResets(c: Session, s: State, actions: seq<Action>, s': State)
    requires Inv(c, s) && IsRun(c, s, actions, s') && AllAdmitted(actions)
    requires forall k: nat :: k < Sent(s.phase) ==> IsQueued(s.queue, k)
    ensures forall k: nat :: k < Sent(s'.phase) ==> IsQueued(s'.queue, k)
    decreases |actions|
  {
    hide Apply, Enabled, PhasesFit, InOrder, Genuine, Sent, IsQueued;
    if actions != [] {
      var a := actions[0];
      assert a in actions;
      StepKeepsInv(c, s, a);
      forall k: nat | k < Sent(Apply(c, s, a).phase)
        ensures IsQueued(Apply(c, s, a).queue, k)
      {
        StepQueuesResets(c, s, a, k);
      }
      RunQueuesResets(c, Apply(c, s, a), actions[1..], s');
    }
  }

  /** The holdings before and after each queued frame. */
  ghost predicate IsObserved(queue: seq<Frame>, states: seq<Sources>) {
    |states| == |queue| + 1
    && forall i :: 0 <= i < |queue| ==> Observed(states[i], queue[i].source, queue[i].data, states[i + 1])
  }

  /** The reset that releases h. */
  function ResetFor(h: Held): (k: nat)
    requires 0 <= h.channel < 16
    ensures k < RESETS
  {
    4 * h.channel + if h.Key? || h.controller !in HOLD_PEDALS then 3 else PedalIndex(h.controller)
  }

  lemma ResetReleases(h: Held)
    requires 0 <= h.channel < 16 && (h.Pedal? ==> h.controller in HOLD_PEDALS)
    ensures EffectOn(ResetData(ResetFor(h)), h) == Release
  {
    var d := ResetData(ResetFor(h));
    assert d[1..] == [d[1], 0];
  }

  lemma ResetsPressNothing(k: nat, h: Held)
    requires k < RESETS
    ensures EffectOn(ResetData(k), h) != Press
  {
  }

  lemma OneFrame(before: Sources, f: Frame, after: Sources, me: string, h: Held)
    requires Observed(before, f.source, f.data, after)
    requires f.source == me ==> EffectOn(f.data, h) != Press
    ensures SourceHolds(after, me, h) ==> SourceHolds(before, me, h)
    ensures f.source == me && EffectOn(f.data, h) == Release ==> !SourceHolds(after, me, h)
  {
  }

  /** Once released, a key or pedal stays released: what follows from this source is resets. */
  lemma {:induction false} StaysSilent(queue: seq<Frame>, states: seq<Sources>, me: string, h: Held, from: int,
                                       end: int)
    requires IsObserved(queue, states) && 0 <= from <= end <= |queue| && !SourceHolds(states[from], me, h)
    requires forall i :: from <= i < end && queue[i].source == me ==> EffectOn(queue[i].data, h) != Press
    ensures !SourceHolds(states[end], me, h)
    decreases end - from
  {
    hide EffectOn;
    if from < end {
      OneFrame(states[from], queue[from], states[from + 1], me, h);
      StaysSilent(queue, states, me, h, from + 1, end);
    }
  }

  /**
   * A stopped or broken session leaves nothing sounding: with the resets admitted, whatever
   * was held before, whatever of the session was played or remapped, and whatever other
   * sources interleave, this source holds no key and no pedal once the queue is observed.
   */
  lemma StoppingSilencesTheSource(c: Session, actions: seq<Action>, s: State, states: seq<Sources>, h: Held)
    requires IsRun(c, Init(), actions, s) && AllAdmitted(actions) && s.phase.Finished? && s.phase.released
    requires IsObserved(s.queue, states)
    requires forall i :: 0 <= i < |s.queue| && s.queue[i].origin.Foreign? ==> s.queue[i].source != c.source
    ensures !SourceHolds(states[|s.queue|], c.source, h)
  {
    hide Apply, Enabled, ResetData, EffectOn, Observed, IsRun;
    RunKeepsInv(c, Init(), actions, s);
    RunQueuesResets(c, Init(), actions, s);
    if 0 <= h.channel < 16 && (h.Pedal? ==> h.controller in HOLD_PEDALS) {
      var k := ResetFor(h);
      assert IsQueued(s.queue, k);
      var p :| 0 <= p < |s.queue| && s.queue[p].origin == Reset(k);
      assert Genuine(c, s, s.queue[p]);
      ResetReleases(h);
      OneFrame(states[p], s.queue[p], states[p + 1], c.source, h);
      forall i | p + 1 <= i < |s.queue| && s.queue[i].source == c.source
        ensures EffectOn(s.queue[i].data, h) != Press
      {
        assert Genuine(c, s, s.queue[i]) && Before(s.queue[p].origin, s.queue[i].origin);
        ResetsPressNothing(s.queue[i].origin.k, h);
      }
      StaysSilent(s.queue, states, c.source, h, p + 1, |s.queue|);
    }
  }
}
