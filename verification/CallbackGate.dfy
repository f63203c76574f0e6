// The gate between audio callbacks and maintenance: a closed bit and a count of
// admitted callbacks share one atomic word.
module CallbackGate {

  const CLOSED: nat := 0x8000_0000_0000_0000

  // --------------------------------------------------------------------- state

  /**
   * A callback thread: Idle, about to load the word, holding the value it loaded, or
   * admitted. A control thread: Idle, Closing after its fetch_or, or Told the answer.
   */
  datatype Callback = Outside | Loading | Loaded(state: nat) | Refused | Inside

  datatype Control = Working | Waiting | Answered(excluded: bool)

  /** `closed` is history: whether the gate was closed after it was last reopened. */
  datatype State = State(word: nat, callbacks: seq<Callback>, control: Control, closed: bool)

  datatype Action =
    // a callback thread
    | Arrive(i: nat)
    | Load(i: nat)
    | ExchangeOk(i: nat)
    | ExchangeFails(i: nat)
    | Leave(i: nat)
    // the serialized control thread
    | Close
    | SeeEmpty
    | TimeOut
    | Reopen

  function Init(threads: nat): State {
    State(0, seq(threads, _ => Outside), Working, false)
  }

  predicate IsClosed(word: nat) {
    word / CLOSED % 2 == 1
  }

  function Or(word: nat): nat {
    if IsClosed(word) then word else word + CLOSED
  }

  function AndNot(word: nat): nat {
    if IsClosed(word) then word - CLOSED else word
  }

  predicate Enabled(s: State, a: Action) {
    match a
    case Arrive(i) => i < |s.callbacks| && (s.callbacks[i].Outside? || s.callbacks[i].Refused?)
    case Load(i) => i < |s.callbacks| && s.callbacks[i].Loading?
    case ExchangeOk(i) =>
      i < |s.callbacks| && s.callbacks[i].Loaded? && !IsClosed(s.callbacks[i].state) && s.callbacks[i].state == s.word
    // A weak exchange may fail even when the word is unchanged.
    case ExchangeFails(i) => i < |s.callbacks| && s.callbacks[i].Loaded? && !IsClosed(s.callbacks[i].state)
    case Leave(i) => i < |s.callbacks| && s.callbacks[i].Inside?
    case Close => !s.control.Waiting?
    case SeeEmpty => s.control.Waiting? && s.word == CLOSED
    case TimeOut => s.control.Waiting?
    case Reopen => !s.control.Waiting?
  }

  /** What a thread does with a value of the word: give up if it is closed, else try to exchange it. */
  function Decide(word: nat): Callback {
    if IsClosed(word) then Refused else Loaded(word)
  }

  function With(s: State, i: nat, c: Callback): State
    requires i < |s.callbacks|
  {
    s.(callbacks := s.callbacks[i := c])
  }

  function Apply(s: State, a: Action): State
    requires Enabled(s, a)
  {
    match a
    case Arrive(i) => With(s, i, Loading)
    case Load(i) => With(s, i, Decide(s.word))
    case ExchangeOk(i) => With(s, i, Inside).(word := s.word + 1)
    case ExchangeFails(i) => With(s, i, Decide(s.word))
    case Leave(i) => With(s, i, Outside).(word := if s.word == 0 then 2 * CLOSED - 1 else s.word - 1)
    case Close => s.(word := Or(s.word), control := Waiting, closed := true)
    case SeeEmpty => s.(control := Answered(true))
    case TimeOut => s.(control := Answered(false))
    case Reopen => s.(word := AndNot(s.word), control := Working, closed := false)
  }

  ghost predicate IsRun(s: State, actions: seq<Action>, s': State)
    decreases |actions|
  {
    if actions == [] then s' == s
    else Enabled(s, actions[0]) && IsRun(Apply(s, actions[0]), actions[1..], s')
  }

  // ----------------------------------------------------------------- invariant

  /** The number of live admissions. */
  function Live(callbacks: seq<Callback>): nat {
    if callbacks == [] then 0 else (if callbacks[0].Inside? then 1 else 0) + Live(callbacks[1..])
  }

  predicate Inv(s: State) {
    && |s.callbacks| < CLOSED
    && s.word == (if s.closed then CLOSED else 0) + Live(s.callbacks)
    && (forall i :: 0 <= i < |s.callbacks| && s.callbacks[i].Loaded? ==> !IsClosed(s.callbacks[i].state))
    && (s.control.Waiting? ==> s.closed)
    && (s.control.Answered? ==> s.closed)
    && (s.control == Answered(true) ==> Live(s.callbacks) == 0)
  }

  lemma {:induction false} LiveConcat(a: seq<Callback>, b: seq<Callback>)
    ensures Live(a + b) == Live(a) + Live(b)
    decreases |a|
  {
    if a == [] {
      assert a + b == b;
    } else {
      assert (a + b)[1..] == a[1..] + b;
      LiveConcat(a[1..], b);
    }
  }

  lemma LiveUpdate(callbacks: seq<Callback>, i: nat, c: Callback)
    requires i < |callbacks|
    ensures Live(callbacks[i := c])
            == Live(callbacks) - (if callbacks[i].Inside? then 1 else 0) + (if c.Inside? then 1 else 0)
  {
    var before, after := callbacks[..i], callbacks[i + 1..];
    assert callbacks == before + ([callbacks[i]] + after) && callbacks[i := c] == before + ([c] + after);
    LiveConcat(before, [callbacks[i]] + after);
    LiveConcat(before, [c] + after);
    LiveConcat([callbacks[i]], after);
    LiveConcat([c], after);
  }

  lemma {:induction false} LiveBound(callbacks: seq<Callback>)
    ensures Live(callbacks) <= |callbacks|
    ensures Live(callbacks) == 0 <==> forall i :: 0 <= i < |callbacks| ==> !callbacks[i].Inside?
    decreases |callbacks|
  {
    if callbacks != [] {
      LiveBound(callbacks[1..]);
      assert forall i :: 1 <= i < |callbacks| ==> callbacks[i] == callbacks[1..][i - 1];
    }
  }

  /** With fewer threads than the closed bit, the bit says whether the gate is closed. */
  lemma BitIsClosed(s: State)
    requires Inv(s)
    ensures IsClosed(s.word) == s.closed && (s.closed ==> s.word >= CLOSED) && s.word < 2 * CLOSED
  {
    LiveBound(s.callbacks);
  }

  lemma StepKeepsInv(s: State, a: Action)
    requires Inv(s) && Enabled(s, a)
    ensures Inv(Apply(s, a))
  {
    BitIsClosed(s);
    LiveBound(s.callbacks);
    var t := Apply(s, a);
    if !(a.Close? || a.SeeEmpty? || a.TimeOut? || a.Reopen?) {
      LiveUpdate(s.callbacks, a.i, t.callbacks[a.i]);
      if a.Leave? {
        LiveUpdate(s.callbacks, a.i, Outside);
      }
    }
  }

  lemma {:induction false} RunKeepsInv(s: State, actions: seq<Action>, s': State)
    requires Inv(s) && IsRun(s, actions, s')
    ensures Inv(s')
    decreases |actions|
  {
    hide Inv, Apply, Enabled;
    if actions != [] {
      StepKeepsInv(s, actions[0]);
      RunKeepsInv(Apply(s, actions[0]), actions[1..], s');
    }
  }

  lemma {:induction false} InitInv(threads: nat)
    requires threads < CLOSED
    ensures Inv(Init(threads))
  {
    LiveBound(Init(threads).callbacks);
  }

  // ------------------------------------------------------------------- theorems

  /** In every interleaving, the low bits are the number of live admissions and the top bit says closed. */
  lemma WordCountsAdmissions(threads: nat, actions: seq<Action>, s: State)
    requires threads < CLOSED && IsRun(Init(threads), actions, s)
    ensures s.word % CLOSED == Live(s.callbacks) && IsClosed(s.word) == s.closed
  {
    hide Apply, Enabled;
    InitInv(threads);
    RunKeepsInv(Init(threads), actions, s);
    BitIsClosed(s);
    LiveBound(s.callbacks);
  }

  predicate NoReopen(actions: seq<Action>) {
    forall a :: a in actions ==> !a.Reopen?
  }

  /** While nobody reopens a closed gate, it stays closed and its count never rises. */
  lemma {:induction false} ClosedOnlyDrains(s: State, actions: seq<Action>, s': State)
    requires Inv(s) && s.closed && IsRun(s, actions, s') && NoReopen(actions)
    ensures Inv(s') && s'.closed && Live(s'.callbacks) <= Live(s.callbacks)
    decreases |actions|
  {
    hide Live, IsClosed;
    if actions != [] {
      var a := actions[0];
      var t := Apply(s, a);
      StepKeepsInv(s, a);
      BitIsClosed(s);
      assert t.closed && Live(t.callbacks) <= Live(s.callbacks) by {
        if !(a.Close? || a.SeeEmpty? || a.TimeOut?) {
          LiveUpdate(s.callbacks, a.i, t.callbacks[a.i]);
        }
      }
      ClosedOnlyDrains(t, actions[1..], s');
    }
  }

  /**
   * From the moment close_and_wait answers true until the gate is reopened, no callback
   * is inside, and none can be admitted, whatever the threads had loaded before. A
   * close that times out leaves admission closed all the same.
   */
  lemma ClosingExcludesCallbacks(threads: nat, before: seq<Action>, s: State, after: seq<Action>, t: State, i: nat)
    requires threads < CLOSED && IsRun(Init(threads), before, s)
    requires s.control.Answered? && IsRun(s, after, t) && NoReopen(after)
    ensures !Enabled(t, ExchangeOk(i))
    ensures s.control.excluded && i < |t.callbacks| ==> !t.callbacks[i].Inside?
  {
    hide Apply, IsRun;
    InitInv(threads);
    RunKeepsInv(Init(threads), before, s);
    ClosedOnlyDrains(s, after, t);
    BitIsClosed(t);
    LiveBound(t.callbacks);
  }

  /** The waiting control thread is told true exactly when the last admitted callback has left. */
  lemma ExcludedExactlyWhenEmpty(threads: nat, actions: seq<Action>, s: State)
    requires threads < CLOSED && IsRun(Init(threads), actions, s) && s.control.Waiting?
    ensures Enabled(s, SeeEmpty) <==> forall i :: 0 <= i < |s.callbacks| ==> !s.callbacks[i].Inside?
  {
    hide IsRun, Apply;
    InitInv(threads);
    RunKeepsInv(Init(threads), actions, s);
    LiveBound(s.callbacks);
  }

  /** A reopened gate with a patient entrant admits it: loading and exchanging without interference succeeds. */
  lemma OpenGateAdmits(threads: nat, actions: seq<Action>, s: State, i: nat)
    requires threads < CLOSED && IsRun(Init(threads), actions, s) && !s.closed
    requires i < |s.callbacks| && (s.callbacks[i].Outside? || s.callbacks[i].Refused?)
    ensures exists t :: IsRun(s, [Arrive(i), Load(i), ExchangeOk(i)], t) && i < |t.callbacks| && t.callbacks[i].Inside?
  {
    InitInv(threads);
    RunKeepsInv(Init(threads), actions, s);
    var s1 := Apply(s, Arrive(i));
    StepKeepsInv(s, Arrive(i));
    BitIsClosed(s1);
    var s2 := Apply(s1, Load(i));
    var s3 := Apply(s2, ExchangeOk(i));
    var steps := [Arrive(i), Load(i), ExchangeOk(i)];
    assert steps[1..] == [Load(i), ExchangeOk(i)] && steps[1..][1..] == [ExchangeOk(i)] && steps[1..][1..][1..] == [];
    assert IsRun(s2, [ExchangeOk(i)], s3);
    assert IsRun(s1, [Load(i), ExchangeOk(i)], s3);
  }

  /** A closed gate refuses an entrant at its first look, and stays as it is. */
  lemma ClosedGateRefuses(threads: nat, actions: seq<Action>, s: State, i: nat)
    requires threads < CLOSED && IsRun(Init(threads), actions, s) && s.closed
    requires i < |s.callbacks| && (s.callbacks[i].Outside? || s.callbacks[i].Refused?)
    ensures IsRun(s, [Arrive(i), Load(i)], s.(callbacks := s.callbacks[i := Refused]))
  {
    InitInv(threads);
    RunKeepsInv(Init(threads), actions, s);
    var s1 := Apply(s, Arrive(i));
    StepKeepsInv(s, Arrive(i));
    BitIsClosed(s1);
    var s2 := Apply(s1, Load(i));
    assert s2 == s.(callbacks := s.callbacks[i := Refused]);
    assert [Arrive(i), Load(i)][1..] == [Load(i)] && [Load(i)][1..] == [];
    assert IsRun(s1, [Load(i)], s2);
  }

  lemma RunOfOne(s: State, a: Action, rest: seq<Action>, t: State)
    requires Enabled(s, a) && IsRun(Apply(s, a), rest, t)
    ensures IsRun(s, [a] + rest, t)
  {
    hide Apply, Enabled;
    assert ([a] + rest)[1..] == rest;
  }

  /** Whoever is inside can leave, one after the other, and then the waiting thread is told so. */
  lemma {:induction false} WaitingEnds(s: State) returns (actions: seq<Action>, t: State)
    requires Inv(s) && s.control.Waiting?
    ensures IsRun(s, actions, t) && t.control == Answered(true) && t.word == CLOSED
    ensures forall a :: a in actions ==> a.Leave? || a.SeeEmpty?
    decreases Live(s.callbacks)
  {
    hide IsRun, Live;
    LiveBound(s.callbacks);
    if Live(s.callbacks) == 0 {
      t := s.(control := Answered(true));
      actions := [SeeEmpty];
      EndsThere(t);
      RunOfOne(s, SeeEmpty, [], t);
      assert [SeeEmpty] + [] == [SeeEmpty];
    } else {
      var i: nat :| i < |s.callbacks| && s.callbacks[i].Inside?;
      StepKeepsInv(s, Leave(i));
      LiveUpdate(s.callbacks, i, Outside);
      var rest;
      rest, t := WaitingEnds(Apply(s, Leave(i)));
      RunOfOne(s, Leave(i), rest, t);
      actions := [Leave(i)] + rest;
    }
  }

  lemma EndsThere(s: State)
    ensures IsRun(s, [], s)
  {
  }

  /**
   * Maintenance gets its turn: in any reachable state the gate can be closed, and once whoever is
   * inside has left, the answer is true; and a gate that was closed can be reopened, with the same
   * callbacks inside.
   */
  lemma GateCanBeClosed(threads: nat, actions: seq<Action>, s: State) returns (leaving: seq<Action>, t: State)
    requires threads < CLOSED && IsRun(Init(threads), actions, s) && !s.control.Waiting?
    ensures IsRun(s, [Close] + leaving, t) && t.control == Answered(true) && t.word == CLOSED
    ensures forall a :: a in leaving ==> a.Leave? || a.SeeEmpty?
    ensures Enabled(s, Reopen) && !IsClosed(Apply(s, Reopen).word) && Apply(s, Reopen).word == s.word % CLOSED
  {
    hide IsRun;
    InitInv(threads);
    RunKeepsInv(Init(threads), actions, s);
    StepKeepsInv(s, Close);
    leaving, t := WaitingEnds(Apply(s, Close));
    RunOfOne(s, Close, leaving, t);
    BitIsClosed(s);
    StepKeepsInv(s, Reopen);
    BitIsClosed(Apply(s, Reopen));
  }
}
