// Validating a list of timed events and playing it against a clock that others can stop.
module Playback {
  import opened Wrappers
  import opened Midi
  import opened U64
  import opened Stamps

  const MAX_EVENT_BYTES: nat := 1024
  const LAST_DUE: nat := 86_400_000_000

  datatype Event = Event(seqNo: nat, dueUs: nat, data: seq<byte>)

  // ------------------------------------------------------------------- validation

  datatype Reject =
    | Version
    | Total
    | Seq(at: nat)
    | Unsorted(at: nat)
    | TooLong(at: nat)
    | Empty(at: nat)
    | TooLarge(at: nat)
    | NotMidi(at: nat)

  /** The first thing wrong with an event at position i, if anything. */
  function FaultOf(e: Event, i: nat, previousDue: nat): Option<Reject> {
    if e.seqNo != i then Some(Seq(i))
    else if e.dueUs < previousDue then Some(Unsorted(i))
    else if e.dueUs > LAST_DUE then Some(TooLong(i))
    else if e.data == [] then Some(Empty(i))
    else if |e.data| > MAX_EVENT_BYTES then Some(TooLarge(i))
    else if !IsWellFormed(e.data) then Some(NotMidi(i))
    else None
  }

  function Fault(events: seq<Event>, i: nat): Option<Reject>
    requires i < |events|
  {
    FaultOf(events[i], i, if i == 0 then 0 else events[i - 1].dueUs)
  }

  lemma FaultFollows(events: seq<Event>, i: nat)
    requires i < |events|
    ensures Fault(events, i) == FaultOf(events[i], i, if i == 0 then 0 else events[i - 1].dueUs)
  {
  }

  function Normalised(e: Event): Event {
    e.(data := Canonical(e.data))
  }

  predicate FineUpTo(events: seq<Event>, n: nat)
    requires n <= |events|
  {
    forall i :: 0 <= i < n ==> Fault(events, i) == None
  }

  /** The events with the first n of them normalised. */
  function NormalUpTo(events: seq<Event>, n: nat): seq<Event> {
    seq(|events|, i requires 0 <= i < |events| => if i < n then Normalised(events[i]) else events[i])
  }

  method ValidatePrepare(version: int, total: int, events: array<Event>) returns (r: Option<Reject>)
    modifies events
    ensures r == None <==> version == 1 && total == events.Length && FineUpTo(old(events[..]), events.Length)
    ensures r == None ==> events[..] == NormalUpTo(old(events[..]), events.Length)
    ensures r == Some(Version) <==> version != 1
    ensures r == Some(Total) <==> version == 1 && total != events.Length
    ensures r.Some? && r.value !in {Version, Total} ==>
              && version == 1 && total == events.Length && 0 <= r.value.at < events.Length
              && FineUpTo(old(events[..]), r.value.at) && Fault(old(events[..]), r.value.at) == r
  {
    if version != 1 {
      return Some(Version);
    }
    if total != events.Length {
      return Some(Total);
    }
    hide Fault, FaultOf, Normalised, FineUpTo, NormalUpTo;
    ghost var before := events[..];
    NothingNormal(before);
    var previousDue := 0;
    for index := 0 to events.Length
      invariant FineUpTo(before, index) && events[..] == NormalUpTo(before, index)
      invariant previousDue == if index == 0 then 0 else before[index - 1].dueUs
    {
      OneMoreNormal(before, index);
      FaultFollows(before, index);
      assert events[index] == events[..][index];
      var fault, data := CheckEvent(events[index], index, previousDue);
      if fault.Some? {
        FaultIsThere(events[index], index, previousDue);
        FaultEndsIt(before, index);
        return fault;
      }
      previousDue := events[index].dueUs;
      events[index] := events[index].(data := data);
    }
    return None;
  }

  lemma NothingNormal(events: seq<Event>)
    ensures FineUpTo(events, 0) && NormalUpTo(events, 0) == events
  {
  }

  lemma OneMoreNormal(events: seq<Event>, n: nat)
    requires n < |events|
    ensures |NormalUpTo(events, n)| == |events| && NormalUpTo(events, n)[n] == events[n]
    ensures NormalUpTo(events, n)[n := events[n].(data := Canonical(events[n].data))] == NormalUpTo(events, n + 1)
    ensures FineUpTo(events, n) && Fault(events, n) == None ==> FineUpTo(events, n + 1)
  {
    hide Fault, Canonical;
  }

  lemma FaultEndsIt(events: seq<Event>, n: nat)
    requires n < |events| && Fault(events, n) != None
    ensures !FineUpTo(events, |events|)
  {
    hide Fault;
  }

  lemma FaultIsThere(e: Event, i: nat, previousDue: nat)
    ensures var f := FaultOf(e, i, previousDue); f.Some? ==> f.value !in {Version, Total} && f.value.at == i
  {
  }

  method CheckEvent(event: Event, index: nat, previousDue: nat) returns (fault: Option<Reject>, normal: seq<byte>)
    ensures fault == FaultOf(event, index, previousDue)
    ensures fault == None ==> normal == Canonical(event.data)
  {
    normal := event.data;
    if event.seqNo != index {
      return Some(Seq(index)), normal;
    }
    if event.dueUs < previousDue {
      return Some(Unsorted(index)), normal;
    }
    if event.dueUs > LAST_DUE {
      return Some(TooLong(index)), normal;
    }
    if event.data == [] {
      return Some(Empty(index)), normal;
    }
    if |event.data| > MAX_EVENT_BYTES {
      return Some(TooLarge(index)), normal;
    }
    var data := new byte[|event.data|](i requires 0 <= i < |event.data| => event.data[i]);
    assert data[..] == event.data;
    var ok := NormalizeMessage(data);
    if !ok {
      return Some(NotMidi(index)), normal;
    }
    return None, data[..];
  }

  /**
   * A session that validation accepts: numbered from zero, in order of due time, at most a day long,
   * canonical MIDI.
   */
  ghost predicate Accepted(events: seq<Event>) {
    && (forall i :: 0 <= i < |events| ==> events[i].seqNo == i && events[i].dueUs <= LAST_DUE)
    && (forall i, j :: 0 <= i <= j < |events| ==> events[i].dueUs <= events[j].dueUs)
    && (forall i :: 0 <= i < |events| ==> IsWellFormed(events[i].data) && Canonical(events[i].data) == events[i].data)
  }

  /** Validation refuses nothing twice: what it accepted is accepted again, unchanged. */
  lemma ValidSessionsAreAccepted(events: seq<Event>)
    requires FineUpTo(events, |events|)
    ensures var normal := NormalUpTo(events, |events|);
            Accepted(normal) && FineUpTo(normal, |normal|) && NormalUpTo(normal, |normal|) == normal
  {
    hide Fault, IsWellFormed, Canonical;
    var normal := NormalUpTo(events, |events|);
    forall i | 0 <= i < |events|
      ensures normal[i].seqNo == i && normal[i].dueUs <= LAST_DUE
      ensures IsWellFormed(normal[i].data) && Canonical(normal[i].data) == normal[i].data
      ensures Fault(normal, i) == None
    {
      FaultFollows(events, i);
      FaultFollows(normal, i);
      CanonicalIsStable(events[i].data);
      CanonicalKeepsLength(events[i].data);
      if i > 0 { assert normal[i - 1] == Normalised(events[i - 1]); }
    }
    forall i, j | 0 <= i <= j < |events|
      ensures normal[i].dueUs <= normal[j].dueUs
    {
      DueTimesAscend(events, i, j);
    }
  }

  lemma CanonicalKeepsLength(data: seq<byte>)
    ensures |Canonical(data)| == |data|
  {
  }

  lemma {:induction false} DueTimesAscend(events: seq<Event>, i: nat, j: nat)
    requires i <= j < |events| && forall k :: 0 <= k < |events| ==> Fault(events, k) == None
    ensures events[i].dueUs <= events[j].dueUs
    decreases j - i
  {
    hide Fault, IsWellFormed;
    if i < j {
      DueTimesAscend(events, i, j - 1);
      FaultFollows(events, j);
    }
  }

  /**
   * The acceptable sessions: events numbered from zero, in order of due time, none due after more than
   * a day, each a well-formed message of at most 1024 bytes.
   */
  lemma AcceptableSessions(events: seq<Event>)
    ensures FineUpTo(events, |events|) <==>
            && (forall i :: 0 <= i < |events| ==>
                  events[i].seqNo == i && events[i].dueUs <= 86_400_000_000
                  && |events[i].data| <= 1024 && IsWellFormed(events[i].data))
            && (forall i, j :: 0 <= i <= j < |events| ==> events[i].dueUs <= events[j].dueUs)
  {
    hide Fault, IsWellFormed;
    if FineUpTo(events, |events|) {
      forall i | 0 <= i < |events|
        ensures events[i].seqNo == i && events[i].dueUs <= 86_400_000_000
        ensures |events[i].data| <= 1024 && IsWellFormed(events[i].data)
      {
        assert Fault(events, i) == None;
        FaultFollows(events, i);
      }
      forall i, j | 0 <= i <= j < |events|
        ensures events[i].dueUs <= events[j].dueUs
      {
        DueTimesAscend(events, i, j);
      }
    } else {
      var i :| 0 <= i < |events| && Fault(events, i) != None;
      FaultFollows(events, i);
      WellFormedIsNotEmpty();
      assert i > 0 ==> (events[i - 1].dueUs <= events[i].dueUs <==> !(events[i - 1].dueUs > events[i].dueUs));
    }
  }

  lemma WellFormedIsNotEmpty()
    ensures !IsWellFormed([])
  {
  }

  /** The fault reported is there, and those that are checked before it are not. */
  lemma FaultIsTheFirst(events: seq<Event>, i: nat)
    requires i < |events| && Fault(events, i).Some?
    ensures match Fault(events, i).value
            case Seq(at) => at == i && events[i].seqNo != i
            case Unsorted(at) => at == i && events[i].seqNo == i && i > 0 && events[i].dueUs < events[i - 1].dueUs
            case TooLong(at) => at == i && events[i].seqNo == i && events[i].dueUs > 86_400_000_000
                                && (i > 0 ==> events[i].dueUs >= events[i - 1].dueUs)
            case Empty(at) => at == i && events[i].seqNo == i && events[i].dueUs <= 86_400_000_000
                              && (i > 0 ==> events[i].dueUs >= events[i - 1].dueUs) && |events[i].data| == 0
            case TooLarge(at) => at == i && events[i].seqNo == i && events[i].dueUs <= 86_400_000_000
                                 && (i > 0 ==> events[i].dueUs >= events[i - 1].dueUs) && |events[i].data| > 1024
            case NotMidi(at) => at == i && events[i].seqNo == i && events[i].dueUs <= 86_400_000_000
                                && (i > 0 ==> events[i].dueUs >= events[i - 1].dueUs)
                                && 0 < |events[i].data| <= 1024 && !IsWellFormed(events[i].data)
            case _ => false
  {
    hide IsWellFormed;
    FaultFollows(events, i);
  }

  // ----------------------------------------------------------------------- the world

  datatype Outcome = Enqueued | Filtered | DroppedNonCritical | InvalidMessage | CriticalReleaseDropped | Disconnected

  /**
   * What one look at the world finds: the clock in nanoseconds, both stop flags, and how an offer
   * would fare.
   */
  datatype Moment = Moment(now: nat, cancelled: bool, stopping: bool, outcome: Outcome)

  predicate Stopped(m: Moment) {
    m.cancelled || m.stopping
  }

  /** Time does not go back, and nobody takes back a stop. */
  ghost predicate IsWorld(world: seq<Moment>) {
    forall i, j :: 0 <= i <= j < |world| ==>
      && world[i].now <= world[j].now
      && (world[i].cancelled ==> world[j].cancelled) && (world[i].stopping ==> world[j].stopping)
  }

  // --------------------------------------------------------------------- the schedule

  /**
   * One offer of an event to the queue, at a moment of the world. With it go its group's lateness in
   * microseconds, its stamp, and the moment at which the counter was read for that stamp.
   */
  datatype Attempt = Attempt(event: nat, read: nat, stamp: int, late: nat, moment: nat)

  datatype Ending = Completed(processed: nat, dropped: nat, maxLateUs: nat) | Stopping | QueueGone | StillRunning

  function Count(world: seq<Moment>, attempts: seq<Attempt>, outcomes: set<Outcome>): nat
    requires forall a :: a in attempts ==> a.moment < |world|
  {
    if attempts == [] then 0
    else
      var last := attempts[|attempts| - 1];
      Count(world, attempts[..|attempts| - 1], outcomes) + if world[last.moment].outcome in outcomes then 1 else 0
  }

  const DROPS: set<Outcome> := {DroppedNonCritical, InvalidMessage, CriticalReleaseDropped}

  function Target(start: nat, e: Event): nat {
    start + 1_000 * e.dueUs
  }

  /**
   * The group's lateness and stamp, from three looks at the clock: the lateness from the first, two
   * moments before `read`, and the stamp from the others.
   */
  predicate Stamped(world: seq<Moment>, target: nat, frequency: nat, read: nat, stamp: int, late: nat) {
    && 2 <= read < |world| && target <= world[read - 2].now <= world[read - 1].now <= world[read].now
    && late == (world[read - 2].now - target) / 1_000
    && stamp == StampAt(frequency, target, world[read - 1].now, world[read].now)
  }

  /**
   * Attempt k offers event k after the looks at the clock, so no earlier than it is due and no less
   * late than its group was found to be, with the stamp of its deadline.
   */
  predicate OnTime(world: seq<Moment>, events: seq<Event>, start: nat, frequency: nat, attempts: seq<Attempt>, k: nat)
    requires k < |attempts| <= |events|
  {
    var a := attempts[k];
    && a.event == k && a.read < a.moment < |world|
    && Stamped(world, Target(start, events[k]), frequency, a.read, a.stamp, a.late)
  }

  /** Events are offered in order, those due together with one stamp, and nothing is offered after a stopped offer. */
  ghost predicate Orderly(world: seq<Moment>, events: seq<Event>, start: nat, frequency: nat, attempts: seq<Attempt>) {
    && |attempts| <= |events|
    && (forall k: nat :: k < |attempts| ==> OnTime(world, events, start, frequency, attempts, k))
    && (forall k, l :: 0 <= k < l < |attempts| ==> attempts[k].moment < attempts[l].moment)
    && (forall k, l :: 0 <= k < l < |attempts| && events[k].dueUs == events[l].dueUs ==>
       attempts[k].stamp == attempts[l].stamp)
    && (forall k :: 0 <= k < |attempts| - 1 ==>
          && attempts[k].moment < |world|
          && !world[attempts[k].moment].cancelled && !world[attempts[k].moment].stopping)
  }

  /** Load both stop flags, the second only if the first is clear. */
  method IsStopped(world: seq<Moment>, at: nat) returns (stopped: Option<bool>, next: nat)
    requires IsWorld(world)
    ensures at <= next <= at + 2
    ensures stopped == Some(true) ==> at < next <= |world| && Stopped(world[next - 1])
    ensures stopped == Some(false) ==> next == at + 2 <= |world| && !Stopped(world[at])
                                       && !world[at + 1].stopping
    ensures stopped == None ==> at + 2 > |world|
  {
    if at >= |world| {
      return None, at;
    }
    if world[at].cancelled {
      return Some(true), at + 1;
    }
    if at + 1 >= |world| {
      return None, at;
    }
    return Some(world[at + 1].stopping), at + 2;
  }

  /** Wait until the target or a stop; `reach` is any moment at which the target has come. */
  method WaitUntil(world: seq<Moment>, at: nat, target: nat, ghost reach: nat) returns (over: bool, next: nat)
    requires IsWorld(world)
    ensures at <= next
    ensures over ==> at < next <= |world| && (Stopped(world[next - 1]) || world[next - 1].now >= target)
    ensures reach < |world| && world[reach].now >= target ==>
              (if over then next <= Max(at, reach) + 3 else |world| < Max(at, reach) + 3)
  {
    next := at;
    while true
      invariant at <= next
      invariant reach < |world| && world[reach].now >= target ==> next <= Max(at, reach)
      decreases |world| - next
    {
      var stopped;
      var head := next;
      stopped, next := IsStopped(world, next);
      if stopped == None {
        return false, head;
      }
      if stopped.value {
        return true, next;
      }
      if next >= |world| {
        return false, head;
      }
      next := next + 1;
      if world[next - 1].now >= target {
        return true, next;
      }
    }
  }

  function StartOf(now: nat, startDelayMs: nat): nat {
    now + 1_000_000 * Min(startDelayMs, 60_000)
  }

  lemma CountOneMore(world: seq<Moment>, attempts: seq<Attempt>, a: Attempt, outcomes: set<Outcome>)
    requires forall b :: b in attempts + [a] ==> b.moment < |world|
    ensures Count(world, attempts + [a], outcomes)
            == Count(world, attempts, outcomes) + if world[a.moment].outcome in outcomes then 1 else 0
  {
    assert (attempts + [a])[..|attempts|] == attempts;
  }

  predicate EverStopped(world: seq<Moment>) {
    exists i :: 0 <= i < |world| && (world[i].cancelled || world[i].stopping)
  }

  function LastOutcome(world: seq<Moment>, attempts: seq<Attempt>): Option<Outcome> {
    if attempts == [] || attempts[|attempts| - 1].moment >= |world| then None
    else Some(world[attempts[|attempts| - 1].moment].outcome)
  }

  /** Every attempt is counted once: as processed, as dropped, or as filtered. */
  ghost predicate Tallied(world: seq<Moment>, attempts: seq<Attempt>, processed: nat, dropped: nat) {
    && (forall a :: a in attempts ==> a.moment < |world|)
    && processed == Count(world, attempts, {Enqueued}) && dropped == Count(world, attempts, DROPS)
    && |attempts| == processed + dropped + Count(world, attempts, {Filtered})
  }

  lemma TalliedOneMore(world: seq<Moment>, attempts: seq<Attempt>, processed: nat, dropped: nat, a: Attempt)
    requires Tallied(world, attempts, processed, dropped) && a.moment < |world|
         && world[a.moment].outcome != Disconnected
    ensures var o := world[a.moment].outcome;
            Tallied(world, attempts + [a], if o == Enqueued then processed + 1 else processed,
                    if o in DROPS then dropped + 1 else dropped)
  {
    hide Count;
    CountOneMore(world, attempts, a, {Enqueued});
    CountOneMore(world, attempts, a, DROPS);
    CountOneMore(world, attempts, a, {Filtered});
  }

  /** All attempts lie behind the cursor. */
  ghost predicate Behind(attempts: seq<Attempt>, at: nat) {
    forall k :: 0 <= k < |attempts| ==> attempts[k].moment < at
  }

  /** After a clear check, no attempt so far was made while stopped. */
  lemma ClearMeansNeverStopped(world: seq<Moment>, attempts: seq<Attempt>, at: nat)
    requires IsWorld(world) && at < |world| && !Stopped(world[at]) && Behind(attempts, at)
    ensures forall k :: 0 <= k < |attempts| ==> !Stopped(world[attempts[k].moment])
  {
  }

  lemma OneMoreAttempt(world: seq<Moment>, events: seq<Event>, start: nat, frequency: nat, attempts: seq<Attempt>,
                       a: Attempt, clear: nat, first: nat)
    requires IsWorld(world) && Orderly(world, events, start, frequency, attempts) && |attempts| < |events|
    requires clear < a.moment < |world| && !Stopped(world[clear]) && Behind(attempts, clear)
    requires a.event == |attempts| && a.read < clear
    requires Stamped(world, Target(start, events[a.event]), frequency, a.read, a.stamp, a.late)
    requires first <= |attempts|
    requires forall k :: 0 <= k < first ==> events[k].dueUs < events[a.event].dueUs
    requires forall k :: first <= k < |attempts| ==> attempts[k].stamp == a.stamp
    ensures Orderly(world, events, start, frequency, attempts + [a]) && Behind(attempts + [a], a.moment + 1)
  {
    hide Stamped;
    var attempts' := attempts + [a];
    ClearMeansNeverStopped(world, attempts, clear);
    forall k: nat | k < |attempts'|
      ensures OnTime(world, events, start, frequency, attempts', k)
    {
      if k < |attempts| { assert OnTime(world, events, start, frequency, attempts, k); }
    }
  }

  /** Offer the events that are due together. */
  method PlayGroup(world: seq<Moment>, events: seq<Event>, start: nat, ghost frequency: nat,
                   stamp: int, read: nat, late: nat, at: nat, made: seq<Attempt>, processed: nat, dropped: nat)
    returns (ending: Option<Ending>, next: nat, attempts: seq<Attempt>, processed': nat, dropped': nat)
    requires IsWorld(world) && Accepted(events) && |made| < |events|
    requires Orderly(world, events, start, frequency, made) && Tallied(world, made, processed, dropped)
         && Behind(made, at)
    requires read < at <= |world| && Stamped(world, Target(start, events[|made|]), frequency, read, stamp, late)
    requires forall k :: 0 <= k < |made| ==> events[k].dueUs < events[|made|].dueUs
    ensures Orderly(world, events, start, frequency, attempts) && made <= attempts && |attempts| <= |events|
    ensures forall k :: |made| <= k < |attempts| ==> attempts[k].late == late
    ensures ending in {None, Some(Stopping), Some(QueueGone), Some(StillRunning)}
    ensures ending == None ==>
              && Tallied(world, attempts, processed', dropped') && Behind(attempts, next) && |attempts| > |made|
              && (forall k :: |made| <= k < |attempts| ==> events[k].dueUs == events[|made|].dueUs)
              && (|attempts| < |events| ==> events[|attempts|].dueUs > events[|made|].dueUs)
              && 0 < next <= |world|
    ensures next <= at + 3 * (|attempts| - |made|)
    ensures ending == Some(StillRunning) ==> |world| < next + 3
    ensures ending == Some(Stopping) ==> EverStopped(world)
    ensures ending == Some(QueueGone) ==> attempts != [] && LastOutcome(world, attempts) == Some(Disconnected)
  {
    hide OnTime, Tallied, Accepted, Stamped;
    SortedFrom(events, |made|);
    attempts, next, processed', dropped' := made, at, processed, dropped;
    var dueUs := events[|made|].dueUs;
    while |attempts| < |events| && events[|attempts|].dueUs == dueUs
      invariant |made| <= |attempts| <= |events| && made <= attempts
      invariant forall k :: |made| <= k < |attempts| ==>
                  events[k].dueUs == dueUs && attempts[k].stamp == stamp && attempts[k].late == late
      invariant Orderly(world, events, start, frequency, attempts) && Tallied(world, attempts, processed', dropped')
           && Behind(attempts, next)
      invariant at <= next <= at + 3 * (|attempts| - |made|) && next <= |world|
      decreases |events| - |attempts|
    {
      var stopped, loaded := IsStopped(world, next);
      if stopped == None {
        return Some(StillRunning), next, attempts, processed', dropped';
      }
      if stopped.value {
        return Some(Stopping), next, attempts, processed', dropped';
      }
      if loaded >= |world| {
        return Some(StillRunning), next, attempts, processed', dropped';
      }
      var attempt := Attempt(|attempts|, read, stamp, late, loaded);
      OneMoreAttempt(world, events, start, frequency, attempts, attempt, next, |made|);
      var outcome := world[loaded].outcome;
      if outcome == Disconnected {
        return Some(QueueGone), next, attempts + [attempt], processed', dropped';
      }
      TalliedOneMore(world, attempts, processed', dropped', attempt);
      attempts := attempts + [attempt];
      if outcome == Enqueued {
        processed' := processed' + 1;
      } else if outcome != Filtered {
        dropped' := dropped' + 1;
      }
      next := loaded + 1;
    }
    ending := None;
  }

  lemma SortedFrom(events: seq<Event>, i: nat)
    requires Accepted(events) && i < |events|
    ensures forall k :: i <= k < |events| ==> events[k].dueUs >= events[i].dueUs
  {
  }

  /** The greatest lateness of any group: reached by one, exceeded by none. */
  ghost predicate IsMaxLate(attempts: seq<Attempt>, maxLateUs: nat) {
    && (forall k :: 0 <= k < |attempts| ==> attempts[k].late <= maxLateUs)
    && (maxLateUs == 0 || exists k :: 0 <= k < |attempts| && attempts[k].late == maxLateUs)
  }

  /** Wait for a deadline, and take the lateness and the stamp that its events share. */
  method AwaitGroup(world: seq<Moment>, at: nat, target: nat, frequency: nat, ghost reach: nat)
    returns (early: Option<Ending>, next: nat, late: nat, stamp: int, read: nat)
    requires IsWorld(world)
    ensures early in {None, Some(StillRunning), Some(Stopping)}
    ensures early == Some(Stopping) ==> EverStopped(world)
    ensures early == None ==>
              && at + 3 < next <= |world|
              && read == next - 1 && Stamped(world, target, frequency, read, stamp, late)
    ensures reach < |world| && world[reach].now >= target ==>
              if early == None then next <= Max(at + 2, reach) + 8
              else early == Some(StillRunning) ==> |world| < Max(at + 2, reach) + 8
  {
    late, stamp, read := 0, 0, 0;
    var stopped;
    stopped, next := IsStopped(world, at);
    if stopped == None {
      return Some(StillRunning), next, 0, 0, 0;
    }
    if stopped.value {
      return Some(Stopping), next, 0, 0, 0;
    }
    var over;
    over, next := WaitUntil(world, next, target, reach);
    if !over {
      return Some(StillRunning), next, 0, 0, 0;
    }
    ghost var woken := next - 1;
    stopped, next := IsStopped(world, next);
    if stopped == None {
      return Some(StillRunning), next, 0, 0, 0;
    }
    if stopped.value {
      return Some(Stopping), next, 0, 0, 0;
    }
    assert world[woken].now >= target;
    if next + 2 >= |world| {
      return Some(StillRunning), next, 0, 0, 0;
    }
    late := (world[next].now - target) / 1_000;
    return None, next + 3, late, StampAt(frequency, target, world[next + 1].now, world[next + 2].now), next + 2;
  }

  /**
   * Play the events in order. `reach` is any moment at which the last event is due: a
   * world that goes on long enough after it sees the schedule end.
   */
  method RunSchedule(world: seq<Moment>, events: seq<Event>, startDelayMs: nat, frequency: nat, ghost reach: nat)
    returns (ending: Ending, attempts: seq<Attempt>)
    requires IsWorld(world) && Accepted(events) && world != []
    ensures Orderly(world, events, StartOf(world[0].now, startDelayMs), frequency, attempts)
    ensures PlainlyTimed(world, events, startDelayMs, frequency, attempts)
    ensures ending.Completed? ==>
              && |attempts| == |events| && (forall a :: a in attempts ==> a.moment < |world|)
              && ending.processed == Count(world, attempts, {Enqueued})
                 && ending.dropped == Count(world, attempts, DROPS)
              && ending.processed + ending.dropped + Count(world, attempts, {Filtered}) == |events|
              && IsMaxLate(attempts, ending.maxLateUs)
    ensures ending == Stopping ==> EverStopped(world)
    ensures ending == QueueGone ==> LastOutcome(world, attempts) == Some(Disconnected)
    ensures LastsFrom(world, events, StartOf(world[0].now, startDelayMs), reach) ==> ending != StillRunning
  {
    hide Accepted, Count, Stamped, Target, EverStopped, LastOutcome, Orderly, IsMaxLate, Tallied, PlainlyTimed;
    AttemptsArePlainlyTimed(world, events, startDelayMs, frequency);
    var start := StartOf(world[0].now, startDelayMs);
    var at: nat, processed: nat, dropped: nat, maxLateUs: nat := 1, 0, 0, 0;
    attempts := [];
    NoAttempts(world, events, start, frequency);
    ghost var ends := reach < |world| && EndsBy(world[reach], events, start);
    while |attempts| < |events|
      invariant Orderly(world, events, start, frequency, attempts) && Tallied(world, attempts, processed, dropped)
      invariant Behind(attempts, at) && 0 < at <= |world| && IsMaxLate(attempts, maxLateUs) && |attempts| <= |events|
      invariant |attempts| < |events| ==> forall k :: 0 <= k < |attempts| ==> events[k].dueUs < events[|attempts|].dueUs
      invariant ends ==> at <= reach + 1 + 13 * |attempts|
      decreases |events| - |attempts|
    {
      var target := Target(start, events[|attempts|]);
      DueByTheEnd(world, events, start, reach, |attempts|);
      var early, late, stamp, read;
      early, at, late, stamp, read := AwaitGroup(world, at, target, frequency, reach);
      if early.Some? {
        return early.value, attempts;
      }
      var group, made := None, attempts;
      group, at, attempts, processed, dropped :=
        PlayGroup(world, events, start, frequency, stamp, read, late, at, attempts, processed, dropped);
      if group.Some? {
        return group.value, attempts;
      }
      LaterGroup(events, |made|, |attempts|);
      MaxOfGroup(made, attempts, maxLateUs, late);
      maxLateUs := Max(maxLateUs, late);
    }
    TalliedMeans(world, attempts, processed, dropped);
    ending := Completed(processed, dropped, maxLateUs);
  }

  /** The last event, and so every event, is due by this moment. */
  ghost predicate EndsBy(m: Moment, events: seq<Event>, start: nat) {
    events == [] || m.now >= Target(start, events[|events| - 1])
  }

  /** The world goes on for long enough after a moment at which every event is due. */
  ghost predicate LastsFrom(world: seq<Moment>, events: seq<Event>, start: nat, reach: nat) {
    |world| >= reach + 13 * |events| + 13 && EndsBy(world[reach], events, start)
  }

  lemma DueByTheEnd(world: seq<Moment>, events: seq<Event>, start: nat, reach: nat, i: nat)
    requires Accepted(events) && i < |events|
    ensures reach < |world| && EndsBy(world[reach], events, start) ==> world[reach].now >= Target(start, events[i])
  {
  }

  lemma NoAttempts(world: seq<Moment>, events: seq<Event>, start: nat, frequency: nat)
    ensures Orderly(world, events, start, frequency, []) && Tallied(world, [], 0, 0)
    ensures Behind([], 1) && IsMaxLate([], 0)
  {
  }

  lemma TalliedMeans(world: seq<Moment>, attempts: seq<Attempt>, processed: nat, dropped: nat)
    requires Tallied(world, attempts, processed, dropped)
    ensures forall a :: a in attempts ==> a.moment < |world|
    ensures processed == Count(world, attempts, {Enqueued}) && dropped == Count(world, attempts, DROPS)
    ensures |attempts| == processed + dropped + Count(world, attempts, {Filtered})
  {
  }

  lemma LaterGroup(events: seq<Event>, first: nat, next: nat)
    requires Accepted(events) && first < next <= |events|
    requires forall k :: 0 <= k < first ==> events[k].dueUs < events[first].dueUs
    requires forall k :: first <= k < next ==> events[k].dueUs == events[first].dueUs
    requires next < |events| ==> events[next].dueUs > events[first].dueUs
    ensures next < |events| ==> forall k :: 0 <= k < next ==> events[k].dueUs < events[next].dueUs
  {
  }

  lemma MaxOfGroup(made: seq<Attempt>, attempts: seq<Attempt>, maxLateUs: nat, late: nat)
    requires made < attempts && IsMaxLate(made, maxLateUs)
    requires forall k :: |made| <= k < |attempts| ==> attempts[k].late == late
    ensures IsMaxLate(attempts, Max(maxLateUs, late))
  {
    if late > maxLateUs {
      assert attempts[|made|].late == late;
    } else if maxLateUs > 0 {
      var k :| 0 <= k < |made| && made[k].late == maxLateUs;
      assert attempts[k].late == maxLateUs;
    }
  }

  // -------------------------------------------------------- the timing, in plain numbers

  /**
   * In nanoseconds of the clock, for an event that has its instant: it is offered no earlier. Its
   * lateness is the whole microseconds past that instant at a look at the clock before the offer. Its
   * stamp is within a tick of the counter at that instant, later by the time between two looks.
   */
  predicate TimedAt(world: seq<Moment>, a: Attempt, instant: int, frequency: nat) {
    && 2 <= a.read < a.moment < |world| && world[a.moment].now >= world[a.read - 2].now >= instant
    && 1_000 * a.late <= world[a.read - 2].now - instant < 1_000 * a.late + 1_000
    && -1_000_000_000 < a.stamp * 1_000_000_000
                        - (instant + world[a.read].now - world[a.read - 1].now) * frequency < 1_000_000_000
  }

  /**
   * The instant of event k is the start of the schedule, plus the start delay of at most a minute, plus
   * the microseconds after which it is due.
   */
  predicate PlainlyTimed(world: seq<Moment>, events: seq<Event>, startDelayMs: nat, frequency: nat,
                         attempts: seq<Attempt>) {
    forall k :: 0 <= k < |attempts| && k < |events| && world != [] ==>
      TimedAt(world, attempts[k],
              world[0].now + 1_000_000 * (if startDelayMs < 60_000 then startDelayMs else 60_000)
              + 1_000 * events[k].dueUs,
              frequency)
  }

  lemma WithinATick(frequency: nat, shown: nat, stamp: int)
    requires Ticks(frequency, shown) <= stamp <= TicksUp(frequency, shown)
    ensures -1_000_000_000 < stamp * 1_000_000_000 - shown * frequency < 1_000_000_000
  {
    Quotient(shown * frequency);
    Quotient(shown * frequency + NANOS - 1);
  }

  lemma AttemptsArePlainlyTimed(world: seq<Moment>, events: seq<Event>, startDelayMs: nat, frequency: nat)
    requires IsWorld(world) && world != []
    ensures forall attempts: seq<Attempt> ::
              Orderly(world, events, StartOf(world[0].now, startDelayMs), frequency, attempts) ==>
                PlainlyTimed(world, events, startDelayMs, frequency, attempts)
  {
    forall attempts: seq<Attempt> | Orderly(world, events, StartOf(world[0].now, startDelayMs), frequency, attempts)
      ensures PlainlyTimed(world, events, startDelayMs, frequency, attempts)
    {
      TimedPlainly(world, events, startDelayMs, frequency, attempts);
    }
  }

  lemma TimedPlainly(world: seq<Moment>, events: seq<Event>, startDelayMs: nat, frequency: nat, attempts: seq<Attempt>)
    requires IsWorld(world) && world != []
    requires Orderly(world, events, StartOf(world[0].now, startDelayMs), frequency, attempts)
    ensures PlainlyTimed(world, events, startDelayMs, frequency, attempts)
  {
    hide TimedAt, Orderly, IsWorld;
    var start := StartOf(world[0].now, startDelayMs);
    AtMostOneEach(world, events, start, frequency, attempts);
    forall k: nat | k < |attempts|
      ensures TimedAt(world, attempts[k], start + 1_000 * events[k].dueUs, frequency)
    {
      AttemptIsTimed(world, events, start, frequency, attempts, k);
    }
  }

  lemma AtMostOneEach(world: seq<Moment>, events: seq<Event>, start: nat, frequency: nat, attempts: seq<Attempt>)
    requires Orderly(world, events, start, frequency, attempts)
    ensures |attempts| <= |events|
  {
  }

  lemma AttemptIsTimed(world: seq<Moment>, events: seq<Event>, start: nat, frequency: nat, attempts: seq<Attempt>,
                       k: nat)
    requires IsWorld(world) && Orderly(world, events, start, frequency, attempts) && k < |attempts| <= |events|
    ensures TimedAt(world, attempts[k], start + 1_000 * events[k].dueUs, frequency)
  {
    var a, instant := attempts[k], Target(start, events[k]);
    assert OnTime(world, events, start, frequency, attempts, k);
    hide Ticks, TicksUp, StampAt;
    StampIsTheTarget(frequency, instant, world[a.read - 1].now, world[a.read].now);
    WithinATick(frequency, instant + world[a.read].now - world[a.read - 1].now, a.stamp);
  }

  /**
   * The stamps of two attempts are as far apart as their deadlines, and as far again as the delays of
   * taking them differ, to within a tick each.
   */
  lemma StampsApart(world: seq<Moment>, events: seq<Event>, startDelayMs: nat, frequency: nat,
                    attempts: seq<Attempt>, k: nat, l: nat)
    requires IsWorld(world) && world != [] && k < |attempts| && l < |attempts| <= |events|
    requires PlainlyTimed(world, events, startDelayMs, frequency, attempts)
    ensures 0 < attempts[k].read < |world| && 0 < attempts[l].read < |world|
    ensures var a, b := attempts[k], attempts[l];
            var nanos := 1_000 * (events[l].dueUs - events[k].dueUs)
                         + (world[b.read].now - world[b.read - 1].now) - (world[a.read].now - world[a.read - 1].now);
            -2_000_000_000 < (b.stamp - a.stamp) * 1_000_000_000 - nanos * frequency < 2_000_000_000
  {
    hide IsWorld;
    var a, b := attempts[k], attempts[l];
    var start := world[0].now + 1_000_000 * (if startDelayMs < 60_000 then startDelayMs else 60_000);
    var x := start + 1_000 * events[k].dueUs + world[a.read].now - world[a.read - 1].now;
    var y := start + 1_000 * events[l].dueUs + world[b.read].now - world[b.read - 1].now;
    assert (y - x) * frequency == y * frequency - x * frequency;
  }

  // ----------------------------------------------------------- stamps along a session

  /** How long the thread was held up between the two looks at the clock that make an attempt's stamp. */
  function Delay(world: seq<Moment>, a: Attempt): int
    requires 0 < a.read < |world|
  {
    world[a.read].now - world[a.read - 1].now
  }

  /**
   * Along a session a stamp is its deadline's, later by the delay of taking it and within a tick;
   * how late its group was does not show. So stamps are in the order of the deadlines, with any
   * counter of at least a megahertz, unless a delay exceeds the next one by the time between them
   * less a microsecond; without delays, always.
   */
  lemma StampsFollowDeadlines(world: seq<Moment>, events: seq<Event>, start: nat, frequency: nat,
                              attempts: seq<Attempt>, k: nat, l: nat)
    requires IsWorld(world) && Accepted(events) && Orderly(world, events, start, frequency, attempts)
    requires k <= l < |attempts|
    ensures 0 < attempts[k].read < |world| && 0 < attempts[l].read < |world|
    ensures Delay(world, attempts[k]) >= 0 && Delay(world, attempts[l]) >= 0
    ensures var shown := Target(start, events[k]) + Delay(world, attempts[k]);
            Ticks(frequency, shown) <= attempts[k].stamp <= TicksUp(frequency, shown)
    ensures events[k].dueUs == events[l].dueUs ==> attempts[k].stamp == attempts[l].stamp
    ensures && frequency >= 1_000_000 && events[k].dueUs < events[l].dueUs
            && Delay(world, attempts[k]) <= Delay(world, attempts[l])
               + 1_000 * (events[l].dueUs - events[k].dueUs - 1) ==>
              attempts[k].stamp <= attempts[l].stamp
  {
    var a, b := attempts[k], attempts[l];
    assert OnTime(world, events, start, frequency, attempts, k) && OnTime(world, events, start, frequency, attempts, l);
    hide Ticks, TicksUp, StampAt, IsWorld, Accepted;
    var t, u := Target(start, events[k]), Target(start, events[l]);
    StampIsTheTarget(frequency, t, world[a.read - 1].now, world[a.read].now);
    StampIsTheTarget(frequency, u, world[b.read - 1].now, world[b.read].now);
    if frequency >= 1_000_000 && t + Delay(world, a) + 1_000 <= u + Delay(world, b) {
      MicrosecondsAreTicks(frequency, t + Delay(world, a), u + Delay(world, b));
    }
  }
}
