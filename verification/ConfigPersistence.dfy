// The queue of configuration writes: one at a time, in call order, with autosaves
// that a committed replacement or a rejected snapshot cancels.
module ConfigPersistence {

  // --------------------------------------------------------------------- state

  /** A save carries the signature of its snapshot; an automatic one asks before it writes. */
  datatype Kind = Replacement | Serial | Save(signature: string, automatic: bool)

  datatype Result = Written | Skipped | Rejected

  /** Operating means that the operation has been called and is awaited. */
  datatype Status = Queued | Operating | Settled(result: Result)

  datatype Job = Job(kind: Kind, status: Status)

  /** Jobs in call order; the set of automatic saves under way, and which saves are cancelled. */
  datatype State = State(jobs: seq<Job>, automaticSaves: set<nat>, cancelled: set<nat>, generation: nat)

  datatype Answer = Yes | No | Throws

  datatype Action =
    | Call(kind: Kind)
    | Begin(i: nat, shouldSave: Answer)
    | Finish(i: nat, ok: bool)

  function Init(): State {
    State([], {}, {}, 0)
  }

  predicate IsAutomatic(kind: Kind) {
    kind.Save? && kind.automatic
  }

  // --------------------------------------------------------------------- steps

  /** A job is chained to the settling of the one called before it, however that one settles. */
  predicate Enabled(s: State, a: Action) {
    match a
    case Call(_) => true
    case Begin(i, _) => i < |s.jobs| && s.jobs[i].status.Queued? && (i == 0 || s.jobs[i - 1].status.Settled?)
    case Finish(i, _) => i < |s.jobs| && s.jobs[i].status.Operating?
  }

  function WithStatus(s: State, i: nat, status: Status): State
    requires i < |s.jobs|
  {
    s.(jobs := s.jobs[i := s.jobs[i].(status := status)])
  }

  function SameSignature(s: State, signature: string): set<nat> {
    set i | i in s.automaticSaves && i < |s.jobs| && s.jobs[i].kind.Save? && s.jobs[i].kind.signature == signature
  }

  /** The catch and finally blocks of a save. */
  function RejectedSave(s: State, i: nat): State
    requires i < |s.jobs| && s.jobs[i].kind.Save?
  {
    WithStatus(s, i, Settled(Rejected)).(
      cancelled := s.cancelled + SameSignature(s, s.jobs[i].kind.signature), automaticSaves := s.automaticSaves - {i})
  }

  function Apply(s: State, a: Action): State
    requires Enabled(s, a)
  {
    match a
    case Call(kind) =>
      s.(jobs := s.jobs + [Job(kind, Queued)],
         automaticSaves := if IsAutomatic(kind) then s.automaticSaves + {|s.jobs|} else s.automaticSaves)
    case Begin(i, answer) =>
      if !IsAutomatic(s.jobs[i].kind) then WithStatus(s, i, Operating)
      else if i in s.cancelled || answer.No? then
        WithStatus(s, i, Settled(Skipped)).(automaticSaves := s.automaticSaves - {i})
      else if answer.Throws? then RejectedSave(s, i)
      else WithStatus(s, i, Operating)
    case Finish(i, ok) =>
      match s.jobs[i].kind
      case Replacement =>
        if ok then
          WithStatus(s, i, Settled(Written)).(
            generation := s.generation + 1, cancelled := s.cancelled + s.automaticSaves)
        else WithStatus(s, i, Settled(Rejected))
      case Serial => WithStatus(s, i, Settled(if ok then Written else Rejected))
      case Save(_, _) =>
        if ok then WithStatus(s, i, Settled(Written)).(automaticSaves := s.automaticSaves - {i})
        else RejectedSave(s, i)
  }

  ghost predicate IsRun(s: State, actions: seq<Action>, s': State)
    decreases |actions|
  {
    if actions == [] then s' == s
    else Enabled(s, actions[0]) && IsRun(Apply(s, actions[0]), actions[1..], s')
  }

  // ----------------------------------------------------------------- invariant

  /** A job that has begun has all earlier ones settled behind it. */
  ghost predicate InTurn(s: State) {
    forall i, j :: 0 <= i < j < |s.jobs| && !s.jobs[j].status.Queued? ==> s.jobs[i].status.Settled?
  }

  /** The automatic saves that are tracked are those that have not settled. */
  ghost predicate Tracked(s: State) {
    && (forall i: nat ::
          i in s.automaticSaves <==> i < |s.jobs| && IsAutomatic(s.jobs[i].kind) && !s.jobs[i].status.Settled?)
    && (forall i: nat :: i in s.cancelled ==> i < |s.jobs|)
  }

  /**
   * Job j gives a reason to cancel the automatic saves behind it: a committed replacement, or the same
   * snapshot rejected.
   */
  predicate Cancels(s: State, j: nat, i: nat)
    requires i < |s.jobs|
  {
    && j <= i && s.jobs[j].status.Settled? && s.jobs[i].kind.Save?
    && (|| (s.jobs[j].kind.Replacement? && s.jobs[j].status.result.Written?)
        || (s.jobs[j].kind.Save? && s.jobs[j].kind.signature == s.jobs[i].kind.signature
           && s.jobs[j].status.result.Rejected?))
  }

  ghost predicate Justified(s: State) {
    forall i: nat :: i in s.cancelled && i < |s.jobs| ==> exists j: nat :: Cancels(s, j, i)
  }

  ghost predicate Inv(s: State) {
    InTurn(s) && Tracked(s) && Justified(s)
  }

  lemma StepKeepsTurns(s: State, a: Action)
    requires InTurn(s) && Enabled(s, a)
    ensures InTurn(Apply(s, a))
  {
    hide SameSignature;
  }

  lemma StepKeepsTracked(s: State, a: Action)
    requires Tracked(s) && Enabled(s, a)
    ensures Tracked(Apply(s, a))
  {
  }

  /** What a step does to a job and to its cancellation. */
  lemma StepOnJob(s: State, a: Action, i: nat)
    requires Enabled(s, a) && i < |s.jobs|
    ensures var t := Apply(s, a);
            && i < |t.jobs| && t.jobs[i].kind == s.jobs[i].kind
               && (s.jobs[i].status.Settled? ==> t.jobs[i] == s.jobs[i])
            && (i in s.cancelled ==> i in t.cancelled)
            && (i in s.cancelled && s.jobs[i].status.Queued? && IsAutomatic(s.jobs[i].kind) ==>
                  t.jobs[i].status in {Queued, Settled(Skipped)})
  {
  }

  lemma StepKeepsJustified(s: State, a: Action)
    requires Inv(s) && Enabled(s, a)
    ensures Justified(Apply(s, a))
  {
    hide InTurn;
    var t := Apply(s, a);
    forall i: nat | i in t.cancelled && i < |t.jobs|
      ensures exists j: nat :: Cancels(t, j, i)
    {
      if i in s.cancelled {
        var j: nat :| Cancels(s, j, i);
        StepOnJob(s, a, j);
        StepOnJob(s, a, i);
        assert Cancels(t, j, i);
      } else {
        CancelledBy(s, a, i);
        assert Cancels(t, a.i, i);
      }
    }
  }

  lemma CancelledBy(s: State, a: Action, i: nat)
    requires Inv(s) && Enabled(s, a) && i in Apply(s, a).cancelled && i !in s.cancelled
    ensures (a.Begin? || a.Finish?) && a.i <= i < |s.jobs| && Cancels(Apply(s, a), a.i, i)
  {
    hide Justified;
  }

  lemma {:induction false} RunKeepsInv(s: State, actions: seq<Action>, s': State)
    requires Inv(s) && IsRun(s, actions, s')
    ensures Inv(s')
    decreases |actions|
  {
    hide InTurn, Tracked, Justified, Apply, Enabled;
    if actions != [] {
      StepKeepsTurns(s, actions[0]);
      StepKeepsTracked(s, actions[0]);
      StepKeepsJustified(s, actions[0]);
      RunKeepsInv(Apply(s, actions[0]), actions[1..], s');
    }
  }

  // ------------------------------------------------------------------- theorems

  /** Operations run one at a time, in call order, whether the earlier ones succeed or fail. */
  lemma OneAtATimeInCallOrder(actions: seq<Action>, s: State, i: nat, j: nat)
    requires IsRun(Init(), actions, s) && i < j < |s.jobs| && !s.jobs[j].status.Queued?
    ensures s.jobs[i].status.Settled?
  {
    hide Apply, Enabled;
    RunKeepsInv(Init(), actions, s);
  }

  /** A cancelled automatic save that has not begun never calls its operation. */
  lemma {:induction false} CancelledNeverWrites(s: State, actions: seq<Action>, s': State, i: nat)
    requires IsRun(s, actions, s') && i < |s.jobs| && IsAutomatic(s.jobs[i].kind)
    requires i in s.cancelled && s.jobs[i].status in {Queued, Settled(Skipped)}
    ensures i < |s'.jobs| && s'.jobs[i].status in {Queued, Settled(Skipped)}
    decreases |actions|
  {
    hide Apply, Enabled;
    if actions != [] {
      StepOnJob(s, actions[0], i);
      CancelledNeverWrites(Apply(s, actions[0]), actions[1..], s', i);
    }
  }

  /** Once a replacement has committed, no automatic save queued before that moment ever writes. */
  lemma CommittedReplacementsSilenceAutosaves(before: seq<Action>, s: State, r: nat, after: seq<Action>, s': State,
                                              i: nat)
    requires IsRun(Init(), before, s) && Enabled(s, Finish(r, true)) && s.jobs[r].kind.Replacement?
    requires IsRun(Apply(s, Finish(r, true)), after, s')
    requires i < |s.jobs| && IsAutomatic(s.jobs[i].kind) && s.jobs[i].status.Queued?
    ensures i < |s'.jobs| && s'.jobs[i].status in {Queued, Settled(Skipped)}
  {
    hide IsRun;
    RunKeepsInv(Init(), before, s);
    CancelledNeverWrites(Apply(s, Finish(r, true)), after, s', i);
  }

  /** The step by which save r is rejected: its operation fails, or the question whether to save does. */
  predicate Rejects(s: State, a: Action, r: nat) {
    && r < |s.jobs| && s.jobs[r].kind.Save?
    && (a == Finish(r, false) || (a == Begin(r, Throws) && s.jobs[r].kind.automatic && r !in s.cancelled))
  }

  /** Once a snapshot has been rejected, no queued automatic save of the same snapshot ever writes. */
  lemma RejectedSnapshotsAreNotRetried(before: seq<Action>, s: State, a: Action, r: nat, after: seq<Action>,
                                       s': State, i: nat)
    requires IsRun(Init(), before, s) && Enabled(s, a) && Rejects(s, a, r) && IsRun(Apply(s, a), after, s')
    requires i < |s.jobs| && i != r && IsAutomatic(s.jobs[i].kind) && s.jobs[i].status.Queued?
    requires s.jobs[i].kind.signature == s.jobs[r].kind.signature
    ensures i < |s'.jobs| && s'.jobs[i].status in {Queued, Settled(Skipped)}
  {
    hide IsRun;
    RunKeepsInv(Init(), before, s);
    CancelledNeverWrites(Apply(s, a), after, s', i);
  }

  /**
   * Nothing else cancels: an automatic save that is asked to go ahead, with no replacement
   * committed and no rejection of its snapshot among the jobs called before it, does operate.
   */
  lemma UncancelledSavesOperate(actions: seq<Action>, s: State, i: nat)
    requires IsRun(Init(), actions, s) && Enabled(s, Begin(i, Yes))
    requires forall j: nat :: j <= i ==> !Cancels(s, j, i)
    ensures Apply(s, Begin(i, Yes)).jobs[i].status.Operating?
  {
    hide IsRun;
    RunKeepsInv(Init(), actions, s);
  }

  // ---- every call settles

  function Work(jobs: seq<Job>): nat {
    if jobs == [] then 0
    else (match jobs[0].status case Queued => 2 case Operating => 1 case Settled(_) => 0) + Work(jobs[1..])
  }

  lemma {:induction false} WorkUpdate(jobs: seq<Job>, i: nat, status: Status)
    requires i < |jobs|
    requires (jobs[i].status.Queued? && !status.Queued?) || (jobs[i].status.Operating? && status.Settled?)
    ensures Work(jobs[i := jobs[i].(status := status)]) < Work(jobs)
    decreases i
  {
    var after := jobs[i := jobs[i].(status := status)];
    if i > 0 {
      WorkUpdate(jobs[1..], i - 1, status);
      assert after[1..] == jobs[1..][i - 1 := jobs[i].(status := status)];
    } else {
      assert after[1..] == jobs[1..];
    }
  }

  predicate AllSettled(s: State) {
    forall i :: 0 <= i < |s.jobs| ==> s.jobs[i].status.Settled?
  }

  /**
   * No call waits for ever: while some job is unsettled, exactly the first such job can move,
   * and every move brings the queue closer to having settled altogether.
   */
  lemma EveryCallSettles(actions: seq<Action>, s: State, answer: Answer, ok: bool) returns (a: Action)
    requires IsRun(Init(), actions, s) && !AllSettled(s)
    ensures !a.Call? && Enabled(s, a) && (a.Begin? ==> a.shouldSave == answer) && (a.Finish? ==> a.ok == ok)
    ensures Work(Apply(s, a).jobs) < Work(s.jobs)
    ensures forall b :: Enabled(s, b) && !b.Call? ==> b.i == a.i && (b.Begin? <==> a.Begin?)
  {
    hide IsRun;
    RunKeepsInv(Init(), actions, s);
    var i := FirstUnsettled(s, 0);
    a := if s.jobs[i].status.Queued? then Begin(i, answer) else Finish(i, ok);
    StepMoves(s, a);
    WorkUpdate(s.jobs, i, Apply(s, a).jobs[i].status);
  }

  lemma StepMoves(s: State, a: Action)
    requires Enabled(s, a) && !a.Call?
    ensures var t := Apply(s, a);
            && t.jobs == s.jobs[a.i := s.jobs[a.i].(status := t.jobs[a.i].status)]
            && (if a.Begin? then !t.jobs[a.i].status.Queued? else t.jobs[a.i].status.Settled?)
  {
    hide SameSignature;
  }

  lemma {:induction false} FirstUnsettled(s: State, from: nat) returns (i: nat)
    requires !AllSettled(s) && from <= |s.jobs| && forall k :: 0 <= k < from ==> s.jobs[k].status.Settled?
    ensures i < |s.jobs| && !s.jobs[i].status.Settled? && forall k :: 0 <= k < i ==> s.jobs[k].status.Settled?
    decreases |s.jobs| - from
  {
    if s.jobs[from].status.Settled? {
      i := FirstUnsettled(s, from + 1);
    } else {
      i := from;
    }
  }

  /**
   * Every call is queued behind the others; an explicit operation is carried out in its turn, never
   * skipped; and its result is that of the operation. The generation counts committed replacements.
   */
  lemma OperationsAreCarriedOut(actions: seq<Action>, s: State, kind: Kind, i: nat, answer: Answer, ok: bool)
    requires IsRun(Init(), actions, s)
    ensures Enabled(s, Call(kind)) && Apply(s, Call(kind)).jobs == s.jobs + [Job(kind, Queued)]
    ensures Enabled(s, Begin(i, answer)) && !IsAutomatic(s.jobs[i].kind) ==>
              Apply(s, Begin(i, answer)).jobs[i].status == Operating
    ensures Enabled(s, Finish(i, ok)) ==>
              var t := Apply(s, Finish(i, ok));
              && t.jobs[i].status == Settled(if ok then Written else Rejected)
              && t.generation == if ok && s.jobs[i].kind.Replacement? then s.generation + 1 else s.generation
  {
    hide IsRun;
  }
}
