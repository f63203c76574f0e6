// A bounded FIFO that keeps slots free for releases. Non-critical senders take a
// permit before they offer a value to the channel; the permit travels with the
// value and comes back when the value is received or the offer is refused.
module MidiQueue {
  import CallbackMidi

  // --------------------------------------------------------------------- state

  datatype Refusal = Full | Disconnected

  datatype Result = Sent | NotSent(why: Refusal)

  /** Where a call has got to: Permitted holds a permit, Refused still has one to give back. */
  datatype Phase = Trying | Permitted | Refused(why: Refusal) | Done(result: Result)

  /** A call of try_send, or of send when it retries while the queue is full. */
  datatype Call = Call(critical: bool, retries: bool, phase: Phase)

  datatype Entry = Entry(call: nat, critical: bool)

  /** `dropping` counts received entries whose permit is not yet given back. */
  datatype State = State(
    used: int,
    queue: seq<Entry>,
    connected: bool,
    calls: seq<Call>,
    dropping: nat,
    admitted: seq<nat>,
    received: seq<nat>)

  datatype Action =
    | Begin(critical: bool, retries: bool)
    | Acquire(i: nat)
    | Offer(i: nat)
    | GiveBack(i: nat)
    | Receive
    | DropPermit
    | Disconnect

  function Limit(capacity: nat): int {
    capacity - CallbackMidi.Reserve(capacity)
  }

  function Init(): State {
    State(0, [], true, [], 0, [], [])
  }

  // --------------------------------------------------------------------- steps

  predicate Enabled(s: State, a: Action) {
    match a
    case Begin(_, _) => true
    case Acquire(i) => i < |s.calls| && s.calls[i].phase.Trying? && !s.calls[i].critical
    case Offer(i) =>
      i < |s.calls| && if s.calls[i].critical then s.calls[i].phase.Trying? else s.calls[i].phase.Permitted?
    case GiveBack(i) => i < |s.calls| && s.calls[i].phase.Refused?
    case Receive => s.queue != []
    case DropPermit => s.dropping > 0
    case Disconnect => s.connected
  }

  function WithPhase(s: State, i: nat, phase: Phase): State
    requires i < |s.calls|
  {
    s.(calls := s.calls[i := s.calls[i].(phase := phase)])
  }

  /** A refused call is over, unless it is a send that meets a full queue. */
  function AfterRefusal(call: Call, why: Refusal): Phase {
    if call.retries && why == Full then Trying else Done(NotSent(why))
  }

  function Apply(capacity: nat, s: State, a: Action): State
    requires Enabled(s, a)
  {
    match a
    case Begin(critical, retries) => s.(calls := s.calls + [Call(critical, retries, Trying)])
    case Acquire(i) =>
      if s.used < Limit(capacity) then WithPhase(s, i, Permitted).(used := s.used + 1)
      else WithPhase(s, i, AfterRefusal(s.calls[i], Full))
    case Offer(i) =>
      var call := s.calls[i];
      if !s.connected || |s.queue| >= capacity then
        var why := if s.connected then Full else Disconnected;
        WithPhase(s, i, if call.critical then AfterRefusal(call, why) else Refused(why))
      else
        WithPhase(s, i, Done(Sent)).(queue := s.queue + [Entry(i, call.critical)], admitted := s.admitted + [i])
    case GiveBack(i) => WithPhase(s, i, AfterRefusal(s.calls[i], s.calls[i].phase.why)).(used := s.used - 1)
    case Receive =>
      var e := s.queue[0];
      s.(queue := s.queue[1..], received := s.received + [e.call],
         dropping := if e.critical then s.dropping else s.dropping + 1)
    case DropPermit => s.(used := s.used - 1, dropping := s.dropping - 1)
    case Disconnect => s.(connected := false, queue := [], dropping := s.dropping + Noncritical(s.queue))
  }

  ghost predicate IsRun(capacity: nat, s: State, actions: seq<Action>, s': State)
    decreases |actions|
  {
    if actions == [] then s' == s
    else Enabled(s, actions[0]) && IsRun(capacity, Apply(capacity, s, actions[0]), actions[1..], s')
  }

  // ----------------------------------------------------------------- invariant

  function Noncritical(queue: seq<Entry>): nat {
    if queue == [] then 0 else (if queue[0].critical then 0 else 1) + Noncritical(queue[1..])
  }

  function Critical(queue: seq<Entry>): nat {
    |set i | 0 <= i < |queue| && queue[i].critical|
  }

  predicate HasPermit(call: Call) {
    call.phase.Permitted? || call.phase.Refused?
  }

  /** Permits that belong to calls still under way. */
  function InFlight(calls: seq<Call>): nat {
    if calls == [] then 0 else (if HasPermit(calls[0]) then 1 else 0) + InFlight(calls[1..])
  }

  function Ids(queue: seq<Entry>): seq<nat> {
    seq(|queue|, i requires 0 <= i < |queue| => queue[i].call)
  }

  predicate Accounts(capacity: nat, s: State) {
    && s.used == Noncritical(s.queue) + InFlight(s.calls) + s.dropping
    && s.used <= Limit(capacity) && |s.queue| <= capacity
  }

  ghost predicate Ordered(s: State) {
    && (if s.connected then s.admitted == s.received + Ids(s.queue) else s.queue == [] && s.received <= s.admitted)
    && (forall i, j :: 0 <= i < j < |s.admitted| ==> s.admitted[i] != s.admitted[j])
    && (forall i: nat :: i in s.admitted <==> i < |s.calls| && s.calls[i].phase == Done(Sent))
  }

  ghost predicate Inv(capacity: nat, s: State) {
    Accounts(capacity, s) && Ordered(s)
  }

  lemma {:induction false} NoncriticalConcat(a: seq<Entry>, b: seq<Entry>)
    ensures Noncritical(a + b) == Noncritical(a) + Noncritical(b)
    decreases |a|
  {
    if a == [] {
      assert a + b == b;
    } else {
      assert (a + b)[1..] == a[1..] + b;
      NoncriticalConcat(a[1..], b);
    }
  }

  lemma {:induction false} InFlightConcat(a: seq<Call>, b: seq<Call>)
    ensures InFlight(a + b) == InFlight(a) + InFlight(b)
    decreases |a|
  {
    if a == [] {
      assert a + b == b;
    } else {
      assert (a + b)[1..] == a[1..] + b;
      InFlightConcat(a[1..], b);
    }
  }

  lemma InFlightUpdate(calls: seq<Call>, i: nat, call: Call)
    requires i < |calls|
    ensures InFlight(calls[i := call])
            == InFlight(calls) - (if HasPermit(calls[i]) then 1 else 0) + (if HasPermit(call) then 1 else 0)
  {
    var before, after := calls[..i], calls[i + 1..];
    assert calls == before + ([calls[i]] + after) && calls[i := call] == before + ([call] + after);
    InFlightConcat(before, [calls[i]] + after);
    InFlightConcat(before, [call] + after);
    InFlightConcat([calls[i]], after);
    InFlightConcat([call], after);
  }

  lemma StepKeepsAccounts(capacity: nat, s: State, a: Action)
    requires Accounts(capacity, s) && Enabled(s, a)
    ensures Accounts(capacity, Apply(capacity, s, a))
  {
    var t := Apply(capacity, s, a);
    if a.Begin? {
      InFlightConcat(s.calls, [Call(a.critical, a.retries, Trying)]);
      assert InFlight([Call(a.critical, a.retries, Trying)]) == 0;
    } else if a.Acquire? || a.Offer? || a.GiveBack? {
      InFlightUpdate(s.calls, a.i, t.calls[a.i]);
      var e := Entry(a.i, s.calls[a.i].critical);
      NoncriticalConcat(s.queue, [e]);
      assert Noncritical([e]) == if e.critical then 0 else 1;
    } else if a.Receive? {
      assert Noncritical(s.queue) == (if s.queue[0].critical then 0 else 1) + Noncritical(t.queue);
    }
    assert Noncritical([]) == 0;
    hide Noncritical, InFlight;
  }

  lemma IdsAppend(received: seq<nat>, queue: seq<Entry>, e: Entry)
    ensures received + Ids(queue + [e]) == received + Ids(queue) + [e.call]
  {
  }

  lemma IdsTake(received: seq<nat>, queue: seq<Entry>)
    requires queue != []
    ensures received + [queue[0].call] + Ids(queue[1..]) == received + Ids(queue)
  {
  }

  lemma StepKeepsOrder(capacity: nat, s: State, a: Action)
    requires Ordered(s) && Enabled(s, a)
    ensures Ordered(Apply(capacity, s, a))
  {
    hide Limit, Noncritical;
    var t := Apply(capacity, s, a);
    if a.Offer? && t.queue != s.queue {
      assert a.i !in s.admitted;
      if s.connected { IdsAppend(s.received, s.queue, Entry(a.i, s.calls[a.i].critical)); }
    } else if a.Receive? {
      IdsTake(s.received, s.queue);
    }
    hide Ids;
  }

  lemma {:induction false} RunKeepsInv(capacity: nat, s: State, actions: seq<Action>, s': State)
    requires Inv(capacity, s) && IsRun(capacity, s, actions, s')
    ensures Inv(capacity, s')
    decreases |actions|
  {
    hide Accounts, Ordered, Enabled, Apply;
    if actions != [] {
      StepKeepsAccounts(capacity, s, actions[0]);
      StepKeepsOrder(capacity, s, actions[0]);
      RunKeepsInv(capacity, Apply(capacity, s, actions[0]), actions[1..], s');
    }
  }

  // ------------------------------------------------------------------- theorems

  lemma {:induction false} EveryEntryCounts(queue: seq<Entry>)
    ensures Critical(queue) + Noncritical(queue) == |queue|
    decreases |queue|
  {
    if queue != [] {
      var last, rest := queue[|queue| - 1], queue[..|queue| - 1];
      assert queue == rest + [last];
      EveryEntryCounts(rest);
      NoncriticalConcat(rest, [last]);
      OneMoreCritical(rest, last);
      assert Noncritical([last]) == if last.critical then 0 else 1;
    }
    hide Critical, Noncritical;
  }

  lemma OneMoreCritical(rest: seq<Entry>, last: Entry)
    ensures Critical(rest + [last]) == Critical(rest) + if last.critical then 1 else 0
  {
    var queue := rest + [last];
    var here, before := set i | 0 <= i < |queue| && queue[i].critical, set i | 0 <= i < |rest| && rest[i].critical;
    assert here == before + if last.critical then {|rest|} else {};
  }

  /**
   * In every interleaving of senders and the receiver, `used` counts exactly the
   * permits in the queue, in flight, and on their way back; non-critical values never
   * take the reserved slots; and what is received comes in the order of admission,
   * each value once.
   */
  lemma PermitsAndOrder(capacity: nat, actions: seq<Action>, s: State)
    requires IsRun(capacity, Init(), actions, s)
    ensures s.used == Noncritical(s.queue) + InFlight(s.calls) + s.dropping
    ensures Noncritical(s.queue) <= capacity - CallbackMidi.Reserve(capacity) && |s.queue| <= capacity
    ensures s.received <= s.admitted
    ensures s.connected ==> s.admitted == s.received + Ids(s.queue)
    ensures forall i, j :: 0 <= i < j < |s.admitted| ==> s.admitted[i] != s.admitted[j]
    ensures forall i: nat :: i in s.admitted <==> i < |s.calls| && s.calls[i].phase == Done(Sent)
  {
    hide Apply, Enabled;
    RunKeepsInv(capacity, Init(), actions, s);
  }

  /** No permit is ever lost: once nothing is queued or under way, all of them are available. */
  lemma NoPermitLeaks(capacity: nat, actions: seq<Action>, s: State)
    requires IsRun(capacity, Init(), actions, s)
    requires s.queue == [] && s.dropping == 0 && forall i :: 0 <= i < |s.calls| ==> s.calls[i].phase.Done?
    ensures s.used == 0
  {
    hide Apply, Enabled;
    RunKeepsInv(capacity, Init(), actions, s);
    NothingInFlight(s.calls);
  }

  lemma {:induction false} NothingInFlight(calls: seq<Call>)
    requires forall i :: 0 <= i < |calls| ==> !HasPermit(calls[i])
    ensures InFlight(calls) == 0
    decreases |calls|
  {
    if calls != [] {
      NothingInFlight(calls[1..]);
    }
  }

  /**
   * A connected queue refuses an offer as full only when critical entries themselves
   * fill the reserve; when the offer carries a permit, they even exceed it.
   */
  lemma FullMeansReleasesFillTheReserve(capacity: nat, actions: seq<Action>, s: State, i: nat)
    requires IsRun(capacity, Init(), actions, s) && Enabled(s, Offer(i)) && s.connected
    requires Apply(capacity, s, Offer(i)).queue == s.queue
    ensures Critical(s.queue) >= CallbackMidi.Reserve(capacity) + if s.calls[i].critical then 0 else 1
  {
    hide IsRun;
    RunKeepsInv(capacity, Init(), actions, s);
    EveryEntryCounts(s.queue);
    if !s.calls[i].critical {
      InFlightUpdate(s.calls, i, s.calls[i].(phase := Trying));
    }
  }

  /** A permit is refused exactly when all of them are out. */
  lemma PermitRefusedExactlyWhenAllAreOut(capacity: nat, actions: seq<Action>, s: State, i: nat)
    requires IsRun(capacity, Init(), actions, s) && Enabled(s, Acquire(i))
    ensures !Apply(capacity, s, Acquire(i)).calls[i].phase.Permitted?
            <==> Noncritical(s.queue) + InFlight(s.calls) + s.dropping == Limit(capacity)
  {
    hide IsRun;
    RunKeepsInv(capacity, Init(), actions, s);
  }

  // ------------------------------------------------------- one sender, undisturbed

  /** The atomic operations of one call: a permit, the channel, and the permit back if the channel refuses. */
  function SendSteps(s: State, capacity: nat, critical: bool, retries: bool): seq<Action> {
    var i, taken := |s.calls|, s.connected && |s.queue| < capacity;
    [Begin(critical, retries)] +
    if critical then [Offer(i)]
    else if s.used >= Limit(capacity) then [Acquire(i)]
    else if taken then [Acquire(i), Offer(i)]
    else [Acquire(i), Offer(i), GiveBack(i)]
  }

  /** The state after such a call, which has a permit if it needs one. */
  function Undisturbed(s: State, capacity: nat, critical: bool, retries: bool, permitted: bool): State {
    if permitted && s.connected && |s.queue| < capacity then
      s.(calls := s.calls + [Call(critical, retries, Done(Sent))], queue := s.queue + [Entry(|s.calls|, critical)],
         admitted := s.admitted + [|s.calls|], used := if critical then s.used else s.used + 1)
    else if permitted && !s.connected then
      s.(calls := s.calls + [Call(critical, retries, Done(NotSent(Disconnected)))])
    else
      s.(calls := s.calls + [Call(critical, retries, if retries then Trying else Done(NotSent(Full)))])
  }

  /**
   * What an undisturbed call does. A critical value is sent if the queue has a free slot, another one if
   * besides fewer permits are out than seven eighths of the slots, or all but 256. Otherwise nothing
   * changes, and the call reports why, except that a send finding no room tries again.
   */
  lemma UndisturbedSend(capacity: nat, s: State, critical: bool, retries: bool)
    ensures var permits := if capacity < 2048 then capacity - capacity / 8 else capacity - 256;
            IsRun(capacity, s, SendSteps(s, capacity, critical, retries),
                  Undisturbed(s, capacity, critical, retries, critical || s.used < permits))
  {
    hide IsRun, Limit, Noncritical, Undisturbed;
    LimitIs(capacity);
    if critical {
      UndisturbedCritical(capacity, s, retries);
      assert SendSteps(s, capacity, true, retries) == [Begin(true, retries), Offer(|s.calls|)];
    } else {
      UndisturbedPermit(capacity, s, retries);
    }
  }

  lemma LimitIs(capacity: nat)
    ensures Limit(capacity) == if capacity < 2048 then capacity - capacity / 8 else capacity - 256
  {
  }

  lemma UndisturbedCritical(capacity: nat, s: State, retries: bool)
    ensures IsRun(capacity, s, [Begin(true, retries), Offer(|s.calls|)], Undisturbed(s, capacity, true, retries, true))
  {
    hide IsRun, Limit, Noncritical;
    var i, t := |s.calls|, Undisturbed(s, capacity, true, retries, true);
    var begun := Apply(capacity, s, Begin(true, retries));
    assert Apply(capacity, begun, Offer(i)).calls == t.calls;
    EndsThere(capacity, t);
    RunOfOne(capacity, begun, Offer(i), [], t, [Offer(i)]);
    RunOfOne(capacity, s, Begin(true, retries), [Offer(i)], t, [Begin(true, retries), Offer(i)]);
  }

  lemma UndisturbedPermit(capacity: nat, s: State, retries: bool)
    ensures IsRun(capacity, s, SendSteps(s, capacity, false, retries),
                  Undisturbed(s, capacity, false, retries, s.used < Limit(capacity)))
  {
    hide IsRun, Limit, Noncritical;
    var i, t := |s.calls|, Undisturbed(s, capacity, false, retries, s.used < Limit(capacity));
    var begun := Apply(capacity, s, Begin(false, retries));
    var asked := Apply(capacity, begun, Acquire(i));
    EndsThere(capacity, t);
    if s.used >= Limit(capacity) {
      assert asked.calls == t.calls;
      RunOfOne(capacity, begun, Acquire(i), [], t, [Acquire(i)]);
      RunOfOne(capacity, s, Begin(false, retries), [Acquire(i)], t, SendSteps(s, capacity, false, retries));
    } else {
      assert asked.calls == s.calls + [Call(false, retries, Permitted)];
      var rest := if s.connected && |s.queue| < capacity then [] else [GiveBack(i)];
      UndisturbedOffer(capacity, s, retries, asked, rest, t);
      RunOfOne(capacity, begun, Acquire(i), [Offer(i)] + rest, t, [Acquire(i), Offer(i)] + rest);
      RunOfOne(capacity, s, Begin(false, retries), [Acquire(i), Offer(i)] + rest, t,
               SendSteps(s, capacity, false, retries));
    }
  }

  lemma UndisturbedOffer(capacity: nat, s: State, retries: bool, asked: State, rest: seq<Action>, t: State)
    requires asked == s.(calls := s.calls + [Call(false, retries, Permitted)], used := s.used + 1)
    requires rest == if s.connected && |s.queue| < capacity then [] else [GiveBack(|s.calls|)]
    requires t == Undisturbed(s, capacity, false, retries, true)
    ensures IsRun(capacity, asked, [Offer(|s.calls|)] + rest, t)
  {
    hide IsRun, Limit, Noncritical;
    var i := |s.calls|;
    var offered := Apply(capacity, asked, Offer(i));
    EndsThere(capacity, t);
    if rest == [] {
      assert offered.calls == t.calls;
    } else {
      assert Apply(capacity, offered, GiveBack(i)).calls == t.calls;
      RunOfOne(capacity, offered, GiveBack(i), [], t, [GiveBack(i)]);
    }
    RunOfOne(capacity, asked, Offer(i), rest, t, [Offer(i)] + rest);
  }

  lemma EndsThere(capacity: nat, s: State)
    ensures IsRun(capacity, s, [], s)
  {
  }

  lemma RunOfOne(capacity: nat, s: State, a: Action, rest: seq<Action>, t: State, actions: seq<Action>)
    requires Enabled(s, a) && IsRun(capacity, Apply(capacity, s, a), rest, t) && actions == [a] + rest
    ensures IsRun(capacity, s, actions, t)
  {
    hide Apply, Enabled;
    assert ([a] + rest)[1..] == rest;
  }

  /** The receiver takes the oldest value, and its permit, if it has one, comes back. */
  lemma UndisturbedReceive(capacity: nat, s: State)
    requires s.queue != []
    ensures var e := s.queue[0];
            IsRun(capacity, s, [Receive] + if e.critical then [] else [DropPermit],
                  s.(queue := s.queue[1..], received := s.received + [e.call],
                     used := if e.critical then s.used else s.used - 1))
  {
    hide IsRun, Noncritical;
    var received := Apply(capacity, s, Receive);
    if s.queue[0].critical {
      EndsThere(capacity, received);
      RunOfOne(capacity, s, Receive, [], received, [Receive]);
      assert [Receive] + [] == [Receive];
    } else {
      var t := Apply(capacity, received, DropPermit);
      EndsThere(capacity, t);
      RunOfOne(capacity, received, DropPermit, [], t, [DropPermit]);
      RunOfOne(capacity, s, Receive, [DropPermit], t, [Receive, DropPermit]);
    }
  }

  /** A new queue of any capacity carries a value, of either kind, and is as new afterwards. */
  lemma NewQueueCarries(capacity: nat, critical: bool, retries: bool) returns (sending: seq<Action>, t: State)
    requires capacity > 0
    ensures var s := Undisturbed(Init(), capacity, critical, retries, true);
            && IsRun(capacity, Init(), sending, s)
            && IsRun(capacity, s, [Receive] + if critical then [] else [DropPermit], t)
    ensures t.received == [0] && t.queue == [] && t.used == 0
  {
    hide IsRun;
    UndisturbedSend(capacity, Init(), critical, retries);
    sending := SendSteps(Init(), capacity, critical, retries);
    var s := Undisturbed(Init(), capacity, critical, retries, true);
    UndisturbedReceive(capacity, s);
    t := s.(queue := s.queue[1..], received := s.received + [0], used := if critical then s.used else s.used - 1);
  }
}

// Which queued events a consumer delivers when resets overtake them.
module GenerationOrder {
  import opened Wrappers

  /** A global and a route generation; both only grow. */
  type Generation = (nat, nat)

  datatype GenerationAction = Discard | Defer | Ready

  function ActionFor(event: Generation, handled: Generation, current: Generation): GenerationAction {
    if event.0 < current.0 || event.1 < current.1 then Discard
    else if handled != current || event != handled then Defer
    else Ready
  }

  predicate AtLeast(a: Generation, b: Generation) {
    a.0 >= b.0 && a.1 >= b.1
  }

  datatype Event = Event(id: nat, generation: Generation)

  datatype Fate = Delivered(handled: Generation) | Discarded(current: Generation)

  /** A consumer keeps one deferred event in front of its queue. */
  datatype State = State(
    current: Generation,
    handled: Generation,
    pending: Option<Event>,
    queue: seq<Event>,
    done: seq<(Event, Fate)>,
    admitted: seq<Event>)

  datatype Action = Bump(route: bool) | Handle | Admit(e: Event) | Take

  predicate Enabled(s: State, a: Action) {
    match a
    case Bump(_) => true
    case Handle => true
    // A producer stamps first and admits later, so a reset can come in between.
    case Admit(e) => AtLeast(s.current, e.generation)
    case Take => Waiting(s) != []
  }

  /** Everything admitted and not yet disposed of, in the order it will be considered. */
  function Waiting(s: State): seq<Event> {
    (if s.pending.Some? then [s.pending.value] else []) + s.queue
  }

  function Apply(s: State, a: Action): State
    requires Enabled(s, a)
  {
    match a
    case Bump(route) => s.(current := if route then (s.current.0, s.current.1 + 1) else (s.current.0 + 1, s.current.1))
    case Handle => s.(handled := s.current)
    case Admit(e) => s.(queue := s.queue + [e], admitted := s.admitted + [e])
    case Take =>
      var e := Waiting(s)[0];
      var rest := s.(pending := None, queue := if s.pending.Some? then s.queue else s.queue[1..]);
      match ActionFor(e.generation, s.handled, s.current)
      case Discard => rest.(done := s.done + [(e, Discarded(s.current))])
      case Defer => rest.(pending := Some(e))
      case Ready => rest.(done := s.done + [(e, Delivered(s.handled))])
  }

  ghost predicate IsRun(s: State, actions: seq<Action>, s': State)
    decreases |actions|
  {
    if actions == [] then s' == s
    else Enabled(s, actions[0]) && IsRun(Apply(s, actions[0]), actions[1..], s')
  }

  function Init(): State {
    State((0, 0), (0, 0), None, [], [], [])
  }

  function Events(done: seq<(Event, Fate)>): seq<Event> {
    seq(|done|, i requires 0 <= i < |done| => done[i].0)
  }

  predicate Settled(s: State, e: Event, fate: Fate) {
    match fate
    case Delivered(h) => h == e.generation
    case Discarded(c) => !AtLeast(e.generation, c) && AtLeast(s.current, c)
  }

  ghost predicate Inv(s: State) {
    && AtLeast(s.current, s.handled)
    && s.admitted == Events(s.done) + Waiting(s)
    && (forall k :: 0 <= k < |s.admitted| ==> AtLeast(s.current, s.admitted[k].generation))
    && (forall k :: 0 <= k < |s.done| ==> Settled(s, s.done[k].0, s.done[k].1))
  }

  lemma StepKeepsInv(s: State, a: Action)
    requires Inv(s) && Enabled(s, a)
    ensures Inv(Apply(s, a))
  {
    var t := Apply(s, a);
    if a.Take? {
      var e := Waiting(s)[0];
      assert Waiting(s) == [e] + (if s.pending.Some? then s.queue else s.queue[1..]);
      assert s.admitted[|s.done|] == e;
      assert t.admitted == Events(t.done) + Waiting(t);
    } else if a.Bump? {
      assert forall k :: 0 <= k < |s.done| ==> Settled(s, s.done[k].0, s.done[k].1) ==>
            Settled(t, s.done[k].0, s.done[k].1);
    }
  }

  lemma {:induction false} RunKeepsInv(s: State, actions: seq<Action>, s': State)
    requires Inv(s) && IsRun(s, actions, s')
    ensures Inv(s')
    decreases |actions|
  {
    hide Inv, Apply, Enabled;
    if actions != [] {
      StepKeepsInv(s, actions[0]);
      RunKeepsInv(Apply(s, actions[0]), actions[1..], s');
    }
  }

  /**
   * Over any run, events are disposed of in the order of admission; one is delivered only
   * after the reset it was stamped with has been handled, and discarded only if a reset has
   * overtaken it. So an event of the generation in force is never discarded.
   */
  lemma OnlyOvertakenEventsAreDiscarded(actions: seq<Action>, s: State, k: nat)
    requires IsRun(Init(), actions, s) && k < |s.admitted|
    ensures s.admitted == Events(s.done) + Waiting(s)
    ensures k < |s.done| ==> s.done[k].0 == s.admitted[k]
    ensures k < |s.done| && s.done[k].1.Delivered? ==> s.done[k].1.handled == s.admitted[k].generation
    ensures k < |s.done| && s.done[k].1.Discarded? ==> s.admitted[k].generation != s.current
  {
    hide Apply, Enabled;
    RunKeepsInv(Init(), actions, s);
  }

  function Takes(n: nat): seq<Action> {
    seq(n, i requires 0 <= i < n => Take)
  }

  /** Once the reset in force is handled, nothing stays deferred: taking drains the queue. */
  lemma {:induction false} NothingStaysDeferred(s: State)
    requires Inv(s) && s.handled == s.current
    ensures exists t ::
              IsRun(s, Takes(|Waiting(s)|), t) && Waiting(t) == [] && t.admitted == s.admitted && t.current == s.current
    decreases |Waiting(s)|
  {
    if Waiting(s) == [] {
      assert IsRun(s, Takes(0), s);
    } else {
      var n := |Waiting(s)|;
      var e := Waiting(s)[0];
      assert s.admitted[|s.done|] == e;
      var s1 := Apply(s, Take);
      StepKeepsInv(s, Take);
      assert Waiting(s1) == Waiting(s)[1..];
      NothingStaysDeferred(s1);
      var t :| IsRun(s1, Takes(n - 1), t) && Waiting(t) == [] && t.admitted == s1.admitted && t.current == s1.current;
      assert Takes(n)[0] == Take && Takes(n)[1..] == Takes(n - 1);
      assert IsRun(s, Takes(n), t);
    }
  }

  /** From every reachable state: once a reset is handled, taking disposes of all that waits. */
  lemma HandlingDrainsTheQueue(s: State)
    requires Inv(s)
    ensures exists t :: IsRun(s, [Handle] + Takes(|Waiting(s)|), t) && Waiting(t) == [] && t.current == s.current
  {
    hide Inv, Takes, Waiting;
    StepKeepsInv(s, Handle);
    var handled := Apply(s, Handle);
    SameWaiting(s, handled);
    NothingStaysDeferred(handled);
    var t :| IsRun(handled, Takes(|Waiting(s)|), t) && Waiting(t) == [] && t.current == handled.current;
    assert ([Handle] + Takes(|Waiting(s)|))[1..] == Takes(|Waiting(s)|);
    assert IsRun(s, [Handle] + Takes(|Waiting(s)|), t);
  }

  lemma SameWaiting(s: State, t: State)
    requires s.pending == t.pending && s.queue == t.queue
    ensures Waiting(s) == Waiting(t)
  {
  }

  /** A reset of either kind overtakes everything admitted before it: what still waits can only be discarded. */
  lemma ResetsOvertake(s: State, route: bool, e: Event)
    requires Inv(s) && e in Waiting(s)
    ensures Enabled(s, Bump(route))
    ensures var t := Apply(s, Bump(route));
            forall handled, current :: AtLeast(current, t.current) ==>
              ActionFor(e.generation, handled, current) == Discard
  {
    var k :| 0 <= k < |Waiting(s)| && Waiting(s)[k] == e;
    assert s.admitted[|s.done| + k] == e;
  }
}
