// What a connection is for: a session that nobody disturbs is played to its end, and one that is
// stopped is answered once everything is released.
module ConnectionRuns {
  import opened Wrappers
  import opened Midi
  import opened Connection
  import InputProfile
  import Playback

  // --------------------------------------------------------------------- running on

  lemma RunsOn(c: Session, s: State, actions: seq<Action>, t: State, a: Action) returns (actions': seq<Action>)
    requires IsRun(c, s, actions, t) && Enabled(c, t, a)
    ensures IsRun(c, s, actions', Apply(c, t, a)) && actions' == actions + [a]
  {
    hide Apply, Enabled;
    actions' := actions + [a];
    RunAppend(c, s, actions, t, a);
  }

  lemma {:induction false} RunAppend(c: Session, s: State, actions: seq<Action>, t: State, a: Action)
    requires IsRun(c, s, actions, t) && Enabled(c, t, a)
    ensures IsRun(c, s, actions + [a], Apply(c, t, a))
    decreases |actions|
  {
    hide Apply, Enabled;
    if actions == [] {
      assert [a][1..] == [] && actions + [a] == [a];
      assert IsRun(c, Apply(c, t, a), [], Apply(c, t, a));
    } else {
      assert (actions + [a])[0] == actions[0] && (actions + [a])[1..] == actions[1..] + [a];
      RunAppend(c, Apply(c, s, actions[0]), actions[1..], t, a);
    }
  }

  // ------------------------------------------------------------ every event is queued

  ghost predicate AllEnqueued(actions: seq<Action>) {
    forall a :: a in actions && a.Offer? ==> a.outcome.Enqueued?
  }

  /** How many events have been offered, if none was refused. */
  function Made(c: Session, s: State): nat {
    match s.scheduler
    case NotSpawned => 0
    case Running(next, _) => next
    case Returned(completed) => if completed then |c.events| else 0
    case Exited(completed) => if completed then |c.events| else 0
  }

  predicate EventIsQueued(queue: seq<Frame>, k: nat) {
    exists i :: 0 <= i < |queue| && queue[i].origin == Event(k)
  }

  lemma OnlyOfferingCounts(c: Session, s: State, a: Action)
    requires Enabled(c, s, a) && PhasesFit(s) && (a.Offer? ==> a.outcome.Enqueued?)
    ensures Made(c, Apply(c, s, a)) <= if a.Offer? then s.scheduler.next + 1 else Made(c, s)
    ensures a.Offer? ==> s.scheduler.Running? && Made(c, s) == s.scheduler.next
  {
    hide ResetData, Decided, Fits, EventFrame;
  }

  lemma StepQueuesEvents(c: Session, s: State, a: Action, k: nat)
    requires PhasesFit(s) && Enabled(c, s, a) && (a.Offer? ==> a.outcome.Enqueued?)
    requires k < Made(c, Apply(c, s, a)) && (k < Made(c, s) ==> EventIsQueued(s.queue, k))
    ensures EventIsQueued(Apply(c, s, a).queue, k)
  {
    NewFrame(c, s, a);
    OnlyOfferingCounts(c, s, a);
    hide ResetData, PhasesFit, Offered, Apply, Enabled, Made, Image;
    var t := Apply(c, s, a);
    if k < Made(c, s) {
      var i :| 0 <= i < |s.queue| && s.queue[i].origin == Event(k);
      assert t.queue[i].origin == Event(k);
    } else {
      assert t.queue[|s.queue|].origin == Event(k);
    }
  }

  lemma {:induction false} RunQueuesEvents(c: Session, s: State, actions: seq<Action>, t: State)
    requires Inv(c, s) && IsRun(c, s, actions, t) && AllEnqueued(actions)
    requires forall k: nat :: k < Made(c, s) ==> EventIsQueued(s.queue, k)
    ensures forall k: nat :: k < Made(c, t) ==> EventIsQueued(t.queue, k)
    decreases |actions|
  {
    hide Apply, Enabled, PhasesFit, InOrder, Genuine, Made, EventIsQueued;
    if actions != [] {
      var a := actions[0];
      assert a in actions;
      StepKeepsInv(c, s, a);
      forall k: nat | k < Made(c, Apply(c, s, a))
        ensures EventIsQueued(Apply(c, s, a).queue, k)
      {
        StepQueuesEvents(c, s, a, k);
      }
      RunQueuesEvents(c, Apply(c, s, a), actions[1..], t);
    }
  }

  /**
   * No event is left out: if the queue took every event offered to it, then once the scheduler is
   * through, each event of the session is in the queue, under the session's name and as prepared.
   */
  lemma EveryEventIsQueued(c: Session, actions: seq<Action>, s: State, k: nat)
    requires IsRun(c, Init(), actions, s) && AllEnqueued(actions) && k < |c.events|
    requires s.scheduler == Returned(true) || s.scheduler == Exited(true)
    ensures exists f :: f in s.queue && f.origin == Event(k) && f.source == c.source && IsImage(f.data, c.events[k])
  {
    hide Apply, Enabled, IsRun, InOrder, PhasesFit, IsImage;
    InvAtStart(c);
    RunKeepsInv(c, Init(), actions, s);
    RunQueuesEvents(c, Init(), actions, s);
    assert EventIsQueued(s.queue, k);
    var i :| 0 <= i < |s.queue| && s.queue[i].origin == Event(k);
    assert Genuine(c, s, s.queue[i]);
    assert s.queue[i] in s.queue;
  }

  // ----------------------------------------------------------------- an undisturbed session

  /** The session's messages, in order and in canonical form. */
  function Frames(c: Session, n: nat): seq<Frame>
    requires n <= |c.events|
  {
    seq(n, k requires 0 <= k < n => Frame(c.source, Canonical(c.events[k].data), Event(k)))
  }

  lemma {:induction false} PlaysUpTo(c: Session, n: nat) returns (actions: seq<Action>)
    requires n <= |c.events| && forall k :: 0 <= k < |c.events| ==> IsWellFormed(c.events[k].data)
    ensures IsRun(c, Init(), actions, Init().(started := true, scheduler := Running(n, false), queue := Frames(c, n)))
    decreases n
  {
    hide IsRun, IsWellFormed, Canonical;
    if n == 0 {
      assert IsRun(c, Init(), [], Init()) by { NoSteps(c); }
      actions := RunsOn(c, Init(), [], Init(), CheckLoop);
      actions := RunsOn(c, Init(), actions, Init().(phase := Receiving), Receive(Start));
      assert Frames(c, 0) == [];
    } else {
      actions := PlaysUpTo(c, n - 1);
      var s := Init().(started := true, scheduler := Running(n - 1, false), queue := Frames(c, n - 1));
      actions := RunsOn(c, Init(), actions, s, Check);
      actions := RunsOn(c, Init(), actions, Apply(c, s, Check), Offer(Playback.Enqueued, InputProfile.Unpublished));
      assert Frames(c, n) == Frames(c, n - 1) + [Frame(c.source, Canonical(c.events[n - 1].data), Event(n - 1))];
    }
  }

  lemma NoSteps(c: Session)
    ensures IsRun(c, Init(), [], Init())
  {
  }

  /**
   * A session that nobody disturbs plays to its end: without profiles, exactly its messages are
   * queued, in order and in canonical form, and the reply says that it completed.
   */
  lemma UndisturbedSessionPlays(c: Session) returns (actions: seq<Action>, s: State)
    requires forall k :: 0 <= k < |c.events| ==> IsWellFormed(c.events[k].data)
    ensures IsRun(c, Init(), actions, s) && s.phase == Finished(CompletedReply, false)
    ensures |s.queue| == |c.events|
    ensures forall k :: 0 <= k < |c.events| ==>
              s.queue[k] == Frame(c.source, Canonical(c.events[k].data), Event(k))
  {
    hide IsRun, IsWellFormed, Canonical;
    actions := PlaysUpTo(c, |c.events|);
    s := Init().(started := true, scheduler := Running(|c.events|, false), queue := Frames(c, |c.events|));
    actions := RunsOn(c, Init(), actions, s, Return);
    s := s.(scheduler := Returned(true));
    actions := RunsOn(c, Init(), actions, s, Exit);
    s := s.(scheduler := Exited(true), done := true);
    actions := RunsOn(c, Init(), actions, s, CheckLoop);
    s := s.(phase := Leaving);
    actions := RunsOn(c, Init(), actions, s, SetCancel);
    s := s.(phase := Joining);
    actions := RunsOn(c, Init(), actions, s, Join);
    s := s.(phase := Joined);
    actions := RunsOn(c, Init(), actions, s, Decide);
    s := s.(phase := Finished(CompletedReply, false));
  }

  // --------------------------------------------------------------------- a stopped session

  /** An offer under way can be made, whatever the event. */
  lemma OfferIsMade(c: Session, from: State, actions: seq<Action>, s: State)
    returns (actions': seq<Action>, t: State)
    requires IsRun(c, from, actions, s) && s.scheduler.Running? && s.scheduler.cleared
    requires s.scheduler.next < |c.events|
    ensures IsRun(c, from, actions', t) && actions <= actions'
    ensures t == s.(scheduler := Running(s.scheduler.next + 1, false), queue := t.queue)
  {
    hide IsRun, IsWellFormed, Canonical;
    var outcome :=
      if IsWellFormed(c.events[s.scheduler.next].data) then Playback.Enqueued else Playback.InvalidMessage;
    actions' := RunsOn(c, from, actions, s, Offer(outcome, InputProfile.Unpublished));
    t := Apply(c, s, Offer(outcome, InputProfile.Unpublished));
  }

  /** Cancelled, the scheduler returns at its next look at the flag, or at the end of the session. */
  lemma ThreadReturns(c: Session, s: State) returns (a: Action)
    requires s.scheduler.Running? && !s.scheduler.cleared && s.cancel && s.scheduler.next <= |c.events|
    ensures Enabled(c, s, a) && Apply(c, s, a) == s.(scheduler := Returned(a.Return?))
  {
    a := if s.scheduler.next < |c.events| then Check else Return;
  }

  lemma ThreadExits(c: Session, s: State)
    requires s.scheduler.Returned?
    ensures Enabled(c, s, Exit)
    ensures Apply(c, s, Exit) == s.(scheduler := Exited(s.scheduler.completed), done := true)
  {
  }

  /** The scheduler thread ends soon after it is cancelled. */
  lemma {:induction false} CancelledThreadEnds(c: Session, from: State, actions: seq<Action>, s: State)
    returns (actions': seq<Action>, t: State)
    requires IsRun(c, from, actions, s) && s.cancel && SchedulerFits(c, s)
    ensures IsRun(c, from, actions', t) && ThreadIsGone(t) && actions <= actions'
    ensures t == s.(scheduler := t.scheduler, done := t.done, queue := t.queue)
    decreases if s.scheduler.Running? then (if s.scheduler.cleared then 3 else 2)
              else if s.scheduler.Returned? then 1 else 0
  {
    hide IsRun, Apply, Enabled;
    if s.scheduler.Running? && s.scheduler.cleared {
      actions', t := OfferIsMade(c, from, actions, s);
      actions', t := CancelledThreadEnds(c, from, actions', t);
    } else if s.scheduler.Running? {
      var a := ThreadReturns(c, s);
      actions' := RunsOn(c, from, actions, s, a);
      actions', t := CancelledThreadEnds(c, from, actions', Apply(c, s, a));
    } else if s.scheduler.Returned? {
      ThreadExits(c, s);
      actions' := RunsOn(c, from, actions, s, Exit);
      t := Apply(c, s, Exit);
    } else {
      actions', t := actions, s;
    }
  }

  lemma {:induction false} ResetsAreSent(c: Session, from: State, actions: seq<Action>, s: State, k: nat)
    returns (actions': seq<Action>)
    requires IsRun(c, from, actions, s) && k <= RESETS && s.phase == Resetting(0)
    ensures IsRun(c, from, actions', s.(phase := Resetting(k), queue := s.queue + ResetFrames(c, k)))
    ensures actions <= actions'
    decreases k
  {
    hide IsRun, ResetData;
    if k == 0 {
      actions' := actions;
      assert s.queue + ResetFrames(c, 0) == s.queue;
    } else {
      actions' := ResetsAreSent(c, from, actions, s, k - 1);
      var t := s.(phase := Resetting(k - 1), queue := s.queue + ResetFrames(c, k - 1));
      actions' := RunsOn(c, from, actions', t, SendReset(true));
      assert ResetFrames(c, k) == ResetFrames(c, k - 1) + [Frame(c.source, ResetData(k - 1), Reset(k - 1))];
      assert Apply(c, t, SendReset(true)).queue == s.queue + ResetFrames(c, k);
    }
  }

  /** The first k resets. */
  function ResetFrames(c: Session, k: nat): seq<Frame>
    requires k <= RESETS
  {
    seq(k, i requires 0 <= i < k => Frame(c.source, ResetData(i), Reset(i)))
  }

  predicate SchedulerFits(c: Session, s: State) {
    s.scheduler.Running? ==> s.scheduler.next <= |c.events| && (s.scheduler.cleared ==> s.scheduler.next < |c.events|)
  }

  lemma {:induction false} RunFits(c: Session, s: State, actions: seq<Action>, t: State)
    requires IsRun(c, s, actions, t) && SchedulerFits(c, s)
    ensures SchedulerFits(c, t)
    decreases |actions|
  {
    hide Apply, Enabled, SchedulerFits;
    if actions != [] {
      StepFits(c, s, actions[0]);
      RunFits(c, Apply(c, s, actions[0]), actions[1..], t);
    }
  }

  lemma StepFits(c: Session, s: State, a: Action)
    requires Enabled(c, s, a) && SchedulerFits(c, s)
    ensures SchedulerFits(c, Apply(c, s, a))
  {
    hide ResetData, Fits, EventFrame, Decided;
  }

  /** What a connection that is waiting for a frame may find, so that it ends. */
  predicate EndsIt(s: State, inbound: Inbound) {
    inbound.Stop? || inbound.Unexpected? || inbound.ReadError? || (inbound.Start? && s.started)
  }

  /** Last in the queue are a release of each pedal and of all notes, channel by channel. */
  ghost predicate EndsWithResets(c: Session, queue: seq<Frame>) {
    && |queue| >= 64
    && forall channel, i :: 0 <= channel < 16 && 0 <= i < 4 ==>
         queue[|queue| - 64 + 4 * channel + i].source == c.source
         && queue[|queue| - 64 + 4 * channel + i].data == [0xB0 + channel, [64, 66, 69, 123][i], 0]
  }

  /**
   * However a connection ends, its session is released: wherever it is waiting for a frame, and wherever
   * its scheduler is, unless the server is shutting down, it can go on from a Stop to the reply, and from
   * a broken connection or a frame out of place to the end, if a session was started. Last in the queue
   * are then the 64 resets: the three pedals and all notes of each channel.
   */
  lemma EndingIsReleased(c: Session, actions: seq<Action>, s: State, inbound: Inbound)
    returns (actions': seq<Action>, t: State)
    requires IsRun(c, Init(), actions, s) && s.phase.Receiving? && !s.serverStop && EndsIt(s, inbound)
    requires s.started || inbound.Stop?
    ensures IsRun(c, Init(), actions', t) && actions + [Receive(inbound)] <= actions'
    ensures t.phase == Finished(if inbound.Stop? || s.stopRequested then StoppedReply else NoReply, true)
    ensures EndsWithResets(c, t.queue)
  {
    hide IsRun, ResetData;
    RunFits(c, Init(), actions, s);
    actions' := RunsOn(c, Init(), actions, s, Receive(inbound));
    t := Apply(c, s, Receive(inbound));
    assert t == s.(phase := Leaving, stopRequested := s.stopRequested || inbound.Stop?,
                   failed := s.failed || !inbound.Stop?);
    actions', t := LeavingIsReleased(c, actions', t);
  }

  lemma LeavingIsReleased(c: Session, actions: seq<Action>, s: State) returns (actions': seq<Action>, t: State)
    requires IsRun(c, Init(), actions, s) && s.phase.Leaving? && !s.serverStop && SchedulerFits(c, s)
    requires s.stopRequested || (s.failed && s.started)
    ensures IsRun(c, Init(), actions', t) && actions <= actions'
    ensures t.phase == Finished(if s.stopRequested then StoppedReply else NoReply, true)
    ensures EndsWithResets(c, t.queue)
  {
    hide IsRun, ResetData;
    actions' := RunsOn(c, Init(), actions, s, SetCancel);
    t := Apply(c, s, SetCancel);
    actions', t := CancelledThreadEnds(c, Init(), actions', t);
    actions' := RunsOn(c, Init(), actions', t, Join);
    t := t.(phase := Joined);
    actions' := RunsOn(c, Init(), actions', t, Decide);
    t := t.(phase := Resetting(0));
    actions' := ResetsAreSent(c, Init(), actions', t, RESETS);
    t := t.(phase := Resetting(RESETS), queue := t.queue + ResetFrames(c, RESETS));
    actions' := RunsOn(c, Init(), actions', t, Finish);
    t := Apply(c, t, Finish);
    forall channel, i | 0 <= channel < 16 && 0 <= i < 4
      ensures t.queue[|t.queue| - 64 + 4 * channel + i].source == c.source
      ensures t.queue[|t.queue| - 64 + 4 * channel + i].data == [0xB0 + channel, [64, 66, 69, 123][i], 0]
    {
      assert t.queue[|t.queue| - 64 + 4 * channel + i] == ResetFrames(c, 64)[4 * channel + i];
      ResetBytes(channel, i);
    }
  }

  lemma ResetBytes(channel: int, i: int)
    requires 0 <= channel < 16 && 0 <= i < 4
    ensures ResetData(4 * channel + i) == [0xB0 + channel, [64, 66, 69, 123][i], 0]
  {
  }

  // ------------------------------------------------------------------------ the replies

  /** A session is said to be completed only if its scheduler got through and nothing went wrong. */
  predicate ReplyFits(s: State) {
    s.phase.Finished? && s.phase.reply.CompletedReply? ==>
      s.scheduler == Exited(true) && !s.stopRequested && !s.failed && !s.phase.released
  }

  lemma StepKeepsReply(c: Session, s: State, a: Action)
    requires PhasesFit(s) && ReplyFits(s) && Enabled(c, s, a)
    ensures ReplyFits(Apply(c, s, a))
  {
    hide ResetData, Fits, EventFrame, Offered;
    if IsScheduler(a) {
      SchedulerKeepsPhase(c, s, a);
      assert !s.phase.Finished?;
    }
  }

  lemma {:induction false} RunKeepsReply(c: Session, s: State, actions: seq<Action>, t: State)
    requires PhasesFit(s) && ReplyFits(s) && IsRun(c, s, actions, t)
    ensures ReplyFits(t)
    decreases |actions|
  {
    hide Apply, Enabled, PhasesFit, ReplyFits;
    if actions != [] {
      StepKeepsPhases(c, s, actions[0]);
      StepKeepsReply(c, s, actions[0]);
      RunKeepsReply(c, Apply(c, s, actions[0]), actions[1..], t);
    }
  }

  /** The replies are true: completed means played to the end, stopped means asked for and released. */
  lemma RepliesAreTrue(c: Session, actions: seq<Action>, s: State)
    requires IsRun(c, Init(), actions, s) && s.phase.Finished?
    ensures s.phase.reply.CompletedReply? ==> s.scheduler == Exited(true) && !s.stopRequested && !s.failed
    ensures s.phase.reply.StoppedReply? ==> s.stopRequested && s.phase.released
  {
    hide Apply, Enabled, IsRun, InOrder, Genuine;
    InvAtStart(c);
    RunKeepsInv(c, Init(), actions, s);
    RunKeepsReply(c, Init(), actions, s);
  }

  predicate HasFailed(s: State) {
    s.scheduler == Returned(false) || s.scheduler == Exited(false)
  }

  lemma StepStaysFailed(c: Session, s: State, a: Action)
    requires PhasesFit(s) && Enabled(c, s, a)
    requires HasFailed(s) || (a.Offer? && a.outcome.Disconnected?)
    ensures HasFailed(Apply(c, s, a))
  {
    hide ResetData, Fits, EventFrame, Decided;
  }

  lemma {:induction false} RunStaysFailed(c: Session, s: State, actions: seq<Action>, t: State, i: nat)
    requires PhasesFit(s) && IsRun(c, s, actions, t)
    requires HasFailed(s) || (i < |actions| && actions[i].Offer? && actions[i].outcome.Disconnected?)
    ensures HasFailed(t)
    decreases |actions|
  {
    hide Apply, Enabled, PhasesFit, HasFailed;
    if actions != [] {
      StepKeepsPhases(c, s, actions[0]);
      if HasFailed(s) || i == 0 { StepStaysFailed(c, s, actions[0]); }
      RunStaysFailed(c, Apply(c, s, actions[0]), actions[1..], t, if i > 0 then i - 1 else 0);
    }
  }

  /** A session that lost its queue is never called completed. */
  lemma LostQueueIsNotCompletion(c: Session, actions: seq<Action>, s: State, i: nat)
    requires IsRun(c, Init(), actions, s) && i < |actions|
    requires actions[i].Offer? && actions[i].outcome.Disconnected?
    ensures s.scheduler != Returned(true) && s.scheduler != Exited(true)
    ensures s.phase.Finished? ==> !s.phase.reply.CompletedReply?
  {
    hide Apply, Enabled, IsRun, InOrder, Genuine, PhasesFit;
    InvAtStart(c);
    RunStaysFailed(c, Init(), actions, s, i);
    if s.phase.Finished? { RepliesAreTrue(c, actions, s); }
  }
}
