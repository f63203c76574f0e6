// What the heap profile keeps true over every run of intercepted heap operations.
module HeapRuns {
  import opened HeapProfile
  import opened Wrappers

  // ------------------------------------------------- sums and probe distances

  /** The sizes of the occupied slots of a group. */
  function Total(blocks: seq<Block>, g: nat): nat {
    if blocks == [] then 0
    else (if blocks[0].key != 0 && blocks[0].group == g then blocks[0].size else 0) + Total(blocks[1..], g)
  }

  predicate SumsAgree(h: Heap)
    requires |h.groups| == GROUPS
  {
    forall g: nat :: g < GROUPS ==> h.groups[g].live == Total(h.blocks, g) % WRAP
  }

  predicate InReach(h: Heap)
    requires |h.blocks| == SLOTS
  {
    forall i: nat :: i < SLOTS && h.blocks[i].key != 0 ==> Distance(i, h.blocks[i].key) < 128
  }

  /** Each group's live counter is the sum of its occupied slots, and every key is within the probes of its base. */
  ghost predicate Sound(h: Heap) {
    Shaped(h) && SumsAgree(h) && InReach(h)
  }

  lemma {:induction false} TotalConcat(a: seq<Block>, b: seq<Block>, g: nat)
    ensures Total(a + b, g) == Total(a, g) + Total(b, g)
    decreases |a|
  {
    if a == [] {
      assert a + b == b;
    } else {
      assert (a + b)[1..] == a[1..] + b;
      TotalConcat(a[1..], b, g);
    }
  }

  function Share(b: Block, g: nat): nat {
    if b.key != 0 && b.group == g then b.size else 0
  }

  lemma TotalUpdate(blocks: seq<Block>, i: nat, b: Block, g: nat)
    requires i < |blocks|
    ensures Total(blocks[i := b], g) == Total(blocks, g) - Share(blocks[i], g) + Share(b, g)
  {
    var before, after := blocks[..i], blocks[i + 1..];
    assert blocks == before + ([blocks[i]] + after) && blocks[i := b] == before + ([b] + after);
    TotalConcat(before, [blocks[i]] + after, g);
    TotalConcat(before, [b] + after, g);
    TotalConcat([blocks[i]], after, g);
    TotalConcat([b], after, g);
    assert Total([blocks[i]], g) == Share(blocks[i], g) && Total([b], g) == Share(b, g);
  }

  lemma ModShift(a: int, b: int, d: int)
    requires a == b % WRAP
    ensures (a + d) % WRAP == (b + d) % WRAP
  {
  }

  /** A slot changes hands along with its share of the live counters. */
  lemma SumsAfterUpdate(h: Heap, i: nat, b: Block, g: nat, delta: int)
    requires Shaped(h) && SumsAgree(h) && i < SLOTS && g < GROUPS
    requires forall x: nat :: Share(b, x) - Share(h.blocks[i], x) == if x == g then delta else 0
    ensures SumsAgree(h.(blocks := h.blocks[i := b], groups := WithLive(h.groups, g, h.groups[g].live + delta)))
  {
    hide Total, Share;
    forall x: nat {:trigger Total(h.blocks, x)} | x < GROUPS
      ensures WithLive(h.groups, g, h.groups[g].live + delta)[x].live == Total(h.blocks[i := b], x) % WRAP
    {
      TotalUpdate(h.blocks, i, b, x);
      if x == g { ModShift(h.groups[g].live, Total(h.blocks, g), delta); }
    }
  }

  lemma TakenStaysSound(h: Heap, key: nat)
    requires Sound(h)
    ensures Sound(Taken(h, key).0)
  {
    hide Base, Probe, Slot, Distance, Total;
    var n := Probe(h.blocks, key, key, 0);
    if key != 0 && n < PROBES {
      var i := Slot(key, n);
      var b := h.blocks[i];
      SumsAfterUpdate(h, i, b.(key := 0), b.group, 0 - b.size);
    }
  }

  lemma PutInStaysSound(h: Heap, key: nat, size: nat, group: nat)
    requires Sound(h) && key != 0 && group < GROUPS
    ensures Sound(PutIn(h, key, size, group))
  {
    hide Base, Probe, Slot, Distance, Total;
    var n := Probe(h.blocks, key, 0, 0);
    if n < PROBES {
      SumsAfterUpdate(h, Slot(key, n), Block(key, size, group), group, size);
      DistanceOfSlot(key, n);
    }
  }

  lemma AddedStaysSound(h: Heap, key: nat, size: nat, caller: nat)
    requires Sound(h)
    ensures Sound(Added(h, key, size, caller))
  {
    hide PutIn, Distance, Total;
    var g := GroupFor(h.groups, caller, 0);
    if key != 0 && size >= 8192 && g < GROUPS {
      var charged := h.(groups := Charged(h.groups, g, size, caller));
      assert Sound(charged);
      PutInStaysSound(charged, key, size, g);
    }
  }

  // --------------------------------------------------------------- runs of the hooks

  /** Who owns a block: its size and the caller that asked for it. */
  datatype Owner = Owner(size: nat, caller: nat)

  /**
   * An outermost heap operation under way: entered, then performed by the heap, then
   * left. The heap acts between the two hooks, while other threads run.
   */
  datatype Operation =
    | Allocating(size: nat, caller: nat)
    | Allocated(size: nat, caller: nat, result: nat)
    | Freeing(address: nat, prior: Block)
    | Freed(prior: Block, ok: bool)
    | Reallocating(address: nat, prior: Block, size: nat, caller: nat)
    | Reallocated(prior: Block, size: nat, caller: nat, result: nat)
    | Returned

  /** `live` is what the heap itself holds: the blocks of at least 8192 bytes allocated under observation. */
  datatype State = State(heap: Heap, ops: seq<Operation>, live: map<nat, Owner>)

  datatype Action =
    | EnterAlloc(size: nat, caller: nat)
    | DoAlloc(i: nat, result: nat)
    | LeaveAlloc(i: nat)
    | EnterFree(address: nat)
    | DoFree(i: nat, ok: bool)
    | LeaveFree(i: nat)
    | EnterRealloc(address: nat, size: nat, caller: nat)
    | DoRealloc(i: nat, result: nat)
    | LeaveRealloc(i: nat)

  function Init(): State {
    State(EmptyHeap(), [], map[])
  }

  /** The address that an operation under way has been asked to give up. */
  predicate Targets(op: Operation, address: nat) {
    (op.Freeing? || op.Reallocating?) && op.address == address
  }

  /** The block that the table is not holding because an operation under way is: zero when there is none. */
  function InHand(op: Operation): nat {
    match op
    case Allocated(size, _, result) => if size < 8192 then 0 else result
    case Freeing(_, prior) => prior.key
    case Freed(prior, ok) => if ok then 0 else prior.key
    case Reallocating(_, prior, _, _) => prior.key
    case Reallocated(prior, size, _, result) => if result == 0 then prior.key else if size < 8192 then 0 else result
    case _ => 0
  }

  /** A program gives up an address at most once, and only after it has been given it. */
  ghost predicate IsFreeToGiveUp(s: State, address: nat) {
    address == 0 || forall i :: 0 <= i < |s.ops| ==> !Targets(s.ops[i], address) && InHand(s.ops[i]) != address
  }

  /** The heap hands out no address that is live or still being given up by another operation. */
  ghost predicate IsFresh(s: State, address: nat, except: nat) {
    (address !in s.live || (except < |s.ops| && Targets(s.ops[except], address)))
    && forall i :: 0 <= i < |s.ops| && i != except ==> !Targets(s.ops[i], address)
  }

  /** What the hooks can observe: an operation is entered, performed and left, in this order. */
  predicate Possible(s: State, a: Action) {
    match a
    case EnterAlloc(_, _) => true
    case DoAlloc(i, _) => i < |s.ops| && s.ops[i].Allocating?
    case LeaveAlloc(i) => i < |s.ops| && s.ops[i].Allocated?
    case EnterFree(_) => true
    case DoFree(i, _) => i < |s.ops| && s.ops[i].Freeing?
    case LeaveFree(i) => i < |s.ops| && s.ops[i].Freed?
    case EnterRealloc(_, _, _) => true
    case DoRealloc(i, _) => i < |s.ops| && s.ops[i].Reallocating?
    case LeaveRealloc(i) => i < |s.ops| && s.ops[i].Reallocated?
  }

  /** A return address is not zero. */
  predicate IsNamed(a: Action) {
    a.EnterAlloc? || a.EnterRealloc? ==> a.caller != 0
  }

  /** The discipline of a program and its heap, as far as the hooks see all of both. */
  ghost predicate IsDisciplined(s: State, a: Action) {
    match a
    case DoAlloc(i, result) => result == 0 || IsFresh(s, result, i)
    case DoRealloc(i, result) => result == 0 || IsFresh(s, result, i)
    case EnterFree(address) => IsFreeToGiveUp(s, address)
    case EnterRealloc(address, _, _) => IsFreeToGiveUp(s, address)
    case _ => true
  }

  ghost predicate Enabled(s: State, a: Action) {
    Possible(s, a) && IsNamed(a) && IsDisciplined(s, a)
  }

  /** What an interrupted operation would put back names an existing group. */
  predicate WellFormed(s: State) {
    Shaped(s.heap) && forall i :: 0 <= i < |s.ops| ==> Prior(s.ops[i]).group < GROUPS
  }

  function Prior(op: Operation): Block {
    if op.Freeing? || op.Freed? || op.Reallocating? || op.Reallocated? then op.prior else NO_BLOCK
  }

  function Gained(live: map<nat, Owner>, address: nat, size: nat, caller: nat): map<nat, Owner> {
    if address != 0 && size >= 8192 then live[address := Owner(size, caller)] else live
  }

  function Apply(s: State, a: Action): State
    requires WellFormed(s) && Possible(s, a)
  {
    match a
    case EnterAlloc(size, caller) => s.(ops := s.ops + [Allocating(size, caller)])
    case DoAlloc(i, result) =>
      var op := s.ops[i];
      s.(ops := s.ops[i := Allocated(op.size, op.caller, result)], live := Gained(s.live, result, op.size, op.caller))
    case LeaveAlloc(i) =>
      var op := s.ops[i];
      s.(ops := s.ops[i := Returned], heap := Added(s.heap, op.result, op.size, op.caller))
    case EnterFree(address) =>
      var (heap, prior) := Taken(s.heap, address);
      s.(ops := s.ops + [Freeing(address, prior)], heap := heap)
    case DoFree(i, ok) =>
      var op := s.ops[i];
      s.(ops := s.ops[i := Freed(op.prior, ok)], live := if ok then s.live - {op.address} else s.live)
    case LeaveFree(i) =>
      var op := s.ops[i];
      s.(ops := s.ops[i := Returned], heap := AfterFree(s.heap, op.prior, op.ok))
    case EnterRealloc(address, size, caller) =>
      var (heap, prior) := Taken(s.heap, address);
      s.(ops := s.ops + [Reallocating(address, prior, size, caller)], heap := heap)
    case DoRealloc(i, result) =>
      var op := s.ops[i];
      s.(ops := s.ops[i := Reallocated(op.prior, op.size, op.caller, result)],
         live := if result == 0 then s.live else Gained(s.live - {op.address}, result, op.size, op.caller))
    case LeaveRealloc(i) =>
      var op := s.ops[i];
      s.(ops := s.ops[i := Returned], heap := AfterRealloc(s.heap, op.prior, op.result, op.size, op.caller))
  }

  /** Any sequence of hook calls, whatever the heap returns and whatever the program gives up. */
  ghost predicate IsRun(s: State, actions: seq<Action>, s': State)
    decreases |actions|
  {
    if actions == [] then s' == s
    else WellFormed(s) && Possible(s, actions[0]) && IsRun(Apply(s, actions[0]), actions[1..], s')
  }

  /** A run in which program and heap keep to their discipline. */
  ghost predicate IsDisciplinedRun(s: State, actions: seq<Action>, s': State)
    decreases |actions|
  {
    if actions == [] then s' == s
    else WellFormed(s) && Enabled(s, actions[0]) && IsDisciplinedRun(Apply(s, actions[0]), actions[1..], s')
  }

  lemma {:induction false} DisciplinedRunsAreRuns(s: State, actions: seq<Action>, s': State)
    requires IsDisciplinedRun(s, actions, s')
    ensures IsRun(s, actions, s') && forall a :: a in actions ==> IsNamed(a)
    decreases |actions|
  {
    hide Apply, IsDisciplined, WellFormed;
    if actions != [] {
      DisciplinedRunsAreRuns(Apply(s, actions[0]), actions[1..], s');
      assert actions == [actions[0]] + actions[1..];
    }
  }

  // ----------------------------------------------------------- soundness of every run

  lemma {:induction false} NothingInEmpty(n: nat, g: nat)
    ensures Total(seq(n, _ => NO_BLOCK), g) == 0
    decreases n
  {
    if n > 0 {
      assert seq(n, _ => NO_BLOCK)[1..] == seq((n - 1) as nat, _ => NO_BLOCK);
      NothingInEmpty(n - 1, g);
    }
  }

  lemma EmptyIsSound()
    ensures Sound(EmptyHeap())
  {
    forall g: nat {:trigger Total(EmptyHeap().blocks, g)} | g < GROUPS
      ensures EmptyHeap().groups[g].live == Total(EmptyHeap().blocks, g) % WRAP
    {
      NothingInEmpty(SLOTS, g);
    }
  }

  lemma RestoredStaysSound(h: Heap, prior: Block)
    requires Sound(h) && prior.group < GROUPS
    ensures Sound(Restored(h, prior))
  {
    if prior.key != 0 { PutInStaysSound(h, prior.key, prior.size, prior.group); }
  }

  lemma StepStaysSound(s: State, a: Action)
    requires WellFormed(s) && Sound(s.heap) && Possible(s, a)
    ensures Sound(Apply(s, a).heap)
  {
    hide Taken, Added, Restored, Total, Distance;
    match a
    case LeaveAlloc(i) => AddedStaysSound(s.heap, s.ops[i].result, s.ops[i].size, s.ops[i].caller);
    case EnterFree(address) => TakenStaysSound(s.heap, address);
    case EnterRealloc(address, _, _) => TakenStaysSound(s.heap, address);
    case LeaveFree(i) => RestoredStaysSound(s.heap.(failedFrees := (s.heap.failedFrees + 1) % WRAP), s.ops[i].prior);
    case LeaveRealloc(i) =>
      var counted := s.heap.(reallocs := (s.heap.reallocs + 1) % WRAP);
      RestoredStaysSound(counted, s.ops[i].prior);
      AddedStaysSound(counted, s.ops[i].result, s.ops[i].size, s.ops[i].caller);
    case DoAlloc(_, _) =>
    case DoFree(_, _) =>
    case DoRealloc(_, _) =>
    case EnterAlloc(_, _) =>
  }

  lemma StepStaysWellFormed(s: State, a: Action)
    requires WellFormed(s) && Possible(s, a)
    ensures WellFormed(Apply(s, a))
  {
    hide Base, Slot, Probe, GroupFor, InHand;
  }

  lemma {:induction false} RunStaysSound(s: State, actions: seq<Action>, s': State)
    requires Sound(s.heap) && IsRun(s, actions, s')
    ensures Sound(s'.heap)
    decreases |actions|
  {
    hide Sound, Apply, Possible;
    if actions != [] {
      StepStaysSound(s, actions[0]);
      RunStaysSound(Apply(s, actions[0]), actions[1..], s');
    }
  }

  // ------------------------------------------------ agreement with the heap itself

  /** The table holds exactly the blocks of t, each in one slot. */
  ghost predicate TableIs(h: Heap, t: map<nat, Owner>)
    requires Shaped(h)
  {
    && (forall i: nat :: i < SLOTS && h.blocks[i].key != 0 ==> HoldsAt(h, t, i))
    && (forall k :: k in t ==> k != 0 && t[k].caller != 0 && exists i: nat :: i < SLOTS && h.blocks[i].key == k)
    && (forall i: nat, j: nat :: i < j < SLOTS && h.blocks[i].key != 0 ==> h.blocks[i].key != h.blocks[j].key)
  }

  predicate HoldsAt(h: Heap, t: map<nat, Owner>, i: nat)
    requires Shaped(h) && i < SLOTS
  {
    h.blocks[i].key in t && t[h.blocks[i].key] == OwnerOf(h, h.blocks[i])
  }

  function OwnerOf(h: Heap, b: Block): Owner
    requires Shaped(h) && b.group < GROUPS
  {
    Owner(b.size, h.groups[b.group].caller)
  }

  /** Once a group has a caller it keeps it. */
  predicate SameCallers(h: Heap, h': Heap)
    requires Shaped(h) && Shaped(h')
  {
    forall g :: 0 <= g < GROUPS && h.groups[g].caller != 0 ==> h'.groups[g].caller == h.groups[g].caller
  }

  /** A key of the table is found within the probes, and only there. */
  lemma KeyIsFound(h: Heap, t: map<nat, Owner>, key: nat)
    requires Sound(h) && TableIs(h, t) && key != 0
    ensures var n := Probe(h.blocks, key, key, 0);
            if key in t then n < PROBES && HoldsAt(h, t, Slot(key, n)) else n == PROBES
  {
    hide Base, Slot, Distance, SumsAgree, OwnerOf;
    var n := Probe(h.blocks, key, key, 0);
    if key in t {
      var i: nat :| i < SLOTS && h.blocks[i].key == key;
      assert Slot(key, Distance(i, key)) == i;
    }
    assert n < PROBES ==> HoldsAt(h, t, Slot(key, n));
  }

  lemma TableWithout(h: Heap, t: map<nat, Owner>, i: nat, h': Heap)
    requires Shaped(h) && TableIs(h, t) && i < SLOTS && h.blocks[i].key != 0
    requires Shaped(h') && h'.blocks == h.blocks[i := h.blocks[i].(key := 0)]
    requires forall g :: 0 <= g < GROUPS ==> h'.groups[g].caller == h.groups[g].caller
    ensures TableIs(h', t - {h.blocks[i].key})
  {
    var t' := t - {h.blocks[i].key};
    forall k | k in t'
      ensures exists j: nat :: j < SLOTS && h'.blocks[j].key == k
    {
      var j: nat :| j < SLOTS && h.blocks[j].key == k;
      assert h'.blocks[j].key == k;
    }
    forall j: nat | j < SLOTS && h'.blocks[j].key != 0
      ensures HoldsAt(h', t', j)
    {
      assert HoldsAt(h, t, j);
    }
  }

  lemma TakenFrame(h: Heap, key: nat)
    requires Shaped(h)
    ensures var (h', b) := Taken(h, key);
            && Shaped(h') && h'.lost == h.lost && b.group < GROUPS
            && forall g :: 0 <= g < GROUPS ==> h'.groups[g].caller == h.groups[g].caller
  {
    hide Base, Slot, Probe;
  }

  lemma TakenKey(h: Heap, t: map<nat, Owner>, key: nat)
    requires Sound(h) && TableIs(h, t) && key in t
    ensures var (h', b) := Taken(h, key);
            && Shaped(h') && TableIs(h', t - {key}) && b.key == key && b.group < GROUPS && t[key] == OwnerOf(h', b)
  {
    TableKeys(h, t, key);
    KeyIsFound(h, t, key);
    TakenFrame(h, key);
    hide Base, Slot, Distance, SumsAgree, InReach, TableIs, Probe;
    TableWithout(h, t, Slot(key, Probe(h.blocks, key, key, 0)), Taken(h, key).0);
  }

  lemma TakenNothing(h: Heap, t: map<nat, Owner>, key: nat)
    requires Sound(h) && TableIs(h, t) && key !in t
    ensures Taken(h, key) == (h, NO_BLOCK)
  {
    hide Base, Slot, Distance, SumsAgree, InReach, TableIs, Probe;
    if key != 0 { KeyIsFound(h, t, key); }
  }

  lemma TableOfTaken(h: Heap, t: map<nat, Owner>, key: nat)
    requires Sound(h) && TableIs(h, t)
    ensures var (h', b) := Taken(h, key);
            && Sound(h') && SameCallers(h, h') && h'.lost == h.lost && b.group < GROUPS
            && TableIs(h', t - {key})
            && b.key == (if key in t then key else 0)
            && (key in t ==> t[key] == OwnerOf(h', b))
  {
    hide Taken, SumsAgree, InReach, TableIs, OwnerOf;
    TakenStaysSound(h, key);
    TakenFrame(h, key);
    if key in t {
      TakenKey(h, t, key);
    } else {
      assert t - {key} == t;
      TakenNothing(h, t, key);
    }
  }

  lemma TableKeys(h: Heap, t: map<nat, Owner>, key: nat)
    requires Shaped(h) && TableIs(h, t) && key in t
    ensures key != 0 && t[key].caller != 0
  {
  }

  lemma TableWith(h: Heap, t: map<nat, Owner>, i: nat, b: Block, h': Heap)
    requires Shaped(h) && TableIs(h, t) && i < SLOTS && h.blocks[i].key == 0
    requires b.key != 0 && b.key !in t && b.group < GROUPS && h.groups[b.group].caller != 0
    requires Shaped(h') && h'.blocks == h.blocks[i := b]
    requires forall g :: 0 <= g < GROUPS ==> h'.groups[g].caller == h.groups[g].caller
    ensures TableIs(h', t[b.key := OwnerOf(h, b)])
  {
    var t' := t[b.key := OwnerOf(h, b)];
    forall k | k in t'
      ensures exists j: nat :: j < SLOTS && h'.blocks[j].key == k
    {
      if k == b.key {
        assert h'.blocks[i].key == k;
      } else {
        var j: nat :| j < SLOTS && h.blocks[j].key == k;
        assert h'.blocks[j].key == k;
      }
    }
    forall j: nat | j < SLOTS && h'.blocks[j].key != 0
      ensures HoldsAt(h', t', j)
    {
      if j != i { assert HoldsAt(h, t, j); }
    }
    forall x: nat, y: nat | x < y < SLOTS && h'.blocks[x].key != 0
      ensures h'.blocks[x].key != h'.blocks[y].key
    {
      if x != i { assert HoldsAt(h, t, x); }
      if y != i && h.blocks[y].key != 0 { assert HoldsAt(h, t, y); }
    }
  }

  lemma TableOfPut(h: Heap, t: map<nat, Owner>, key: nat, size: nat, group: nat)
    requires Sound(h) && TableIs(h, t) && key != 0 && key !in t && group < GROUPS && h.groups[group].caller != 0
    requires PutIn(h, key, size, group).lost == h.lost
    ensures var h' := PutIn(h, key, size, group);
            Sound(h') && SameCallers(h, h') && TableIs(h', t[key := Owner(size, h.groups[group].caller)])
  {
    PutInStaysSound(h, key, size, group);
    hide Base, Slot, Distance, SumsAgree, InReach, TableIs;
    TableWith(h, t, Slot(key, Probe(h.blocks, key, 0, 0)), Block(key, size, group), PutIn(h, key, size, group));
  }

  lemma TableOfAdded(h: Heap, t: map<nat, Owner>, key: nat, size: nat, caller: nat)
    requires Sound(h) && TableIs(h, t) && key !in t && caller != 0
    requires Added(h, key, size, caller).lost == h.lost
    ensures var h' := Added(h, key, size, caller);
            Sound(h') && SameCallers(h, h') && TableIs(h', Gained(t, key, size, caller))
  {
    hide PutIn, Distance, Total, SumsAgree;
    var g := GroupFor(h.groups, caller, 0);
    if key != 0 && size >= 8192 && g < GROUPS {
      var charged := h.(groups := Charged(h.groups, g, size, caller));
      ChargedKeepsTable(h, t, g, size, caller);
      PutInNeverFinds(charged, key, size, g);
      TableOfPut(charged, t, key, size, g);
    }
  }

  lemma PutInNeverFinds(h: Heap, key: nat, size: nat, group: nat)
    requires Shaped(h) && group < GROUPS
    ensures var h' := PutIn(h, key, size, group); h'.lost == h.lost || h' == h.(lost := h.lost + 1)
  {
  }

  lemma ChargedKeepsTable(h: Heap, t: map<nat, Owner>, g: nat, size: nat, caller: nat)
    requires Sound(h) && TableIs(h, t) && g < GROUPS && caller != 0
    requires h.groups[g].caller == 0 || h.groups[g].caller == caller
    ensures var h' := h.(groups := Charged(h.groups, g, size, caller));
            Sound(h') && SameCallers(h, h') && TableIs(h', t)
  {
    hide Distance, Total;
    var h' := h.(groups := Charged(h.groups, g, size, caller));
    forall i: nat | i < SLOTS && h'.blocks[i].key != 0
      ensures HoldsAt(h', t, i)
    {
      assert HoldsAt(h, t, i);
    }
  }

  // ---- blocks in the hands of operations under way

  function HandOwner(h: Heap, op: Operation): Owner
    requires Shaped(h) && Prior(op).group < GROUPS
  {
    if op.Allocated? || (op.Reallocated? && op.result != 0) then Owner(op.size, op.caller) else OwnerOf(h, Prior(op))
  }

  predicate HandAt(h: Heap, op: Operation, hand: map<nat, Owner>)
    requires Shaped(h)
  {
    Prior(op).group < GROUPS && (InHand(op) != 0 ==> InHand(op) in hand && hand[InHand(op)] == HandOwner(h, op))
  }

  /** The operations under way hold exactly the blocks of `hand`, each in one operation. */
  ghost predicate HandIs(h: Heap, ops: seq<Operation>, hand: map<nat, Owner>)
    requires Shaped(h)
  {
    && (forall i :: 0 <= i < |ops| ==> HandAt(h, ops[i], hand))
    && (forall k :: k in hand ==> k != 0 && hand[k].caller != 0 && exists i :: 0 <= i < |ops| && InHand(ops[i]) == k)
    && (forall i, j :: 0 <= i < j < |ops| && InHand(ops[i]) != 0 ==> InHand(ops[i]) != InHand(ops[j]))
  }

  function Without(hand: map<nat, Owner>, k: nat): map<nat, Owner> {
    hand - {k}
  }

  function With(h: Heap, hand: map<nat, Owner>, op: Operation): map<nat, Owner>
    requires Shaped(h) && Prior(op).group < GROUPS
  {
    if InHand(op) == 0 then hand else hand[InHand(op) := HandOwner(h, op)]
  }

  lemma HandAppend(h: Heap, ops: seq<Operation>, hand: map<nat, Owner>, op: Operation)
    requires Shaped(h) && HandIs(h, ops, hand) && Prior(op).group < GROUPS
    requires InHand(op) != 0 ==> InHand(op) !in hand && HandOwner(h, op).caller != 0
    ensures HandIs(h, ops + [op], With(h, hand, op))
  {
    hide InHand, HandOwner, Prior;
    var ops', hand' := ops + [op], With(h, hand, op);
    forall i | 0 <= i < |ops'|
      ensures HandAt(h, ops'[i], hand')
    {
      if i < |ops| { assert HandAt(h, ops[i], hand); }
    }
    forall k | k in hand'
      ensures exists i :: 0 <= i < |ops'| && InHand(ops'[i]) == k
    {
      if k in hand {
        var i :| 0 <= i < |ops| && InHand(ops[i]) == k;
        assert InHand(ops'[i]) == k;
      } else {
        assert InHand(ops'[|ops|]) == k;
      }
    }
    forall i, j | 0 <= i < j < |ops'| && InHand(ops'[i]) != 0
      ensures InHand(ops'[i]) != InHand(ops'[j])
    {
      assert HandAt(h, ops[i], hand);
    }
  }

  /** Every other operation still holds what it held when operation i changes hands. */
  lemma OthersHold(h: Heap, ops: seq<Operation>, hand: map<nat, Owner>, i: nat, j: nat)
    requires Shaped(h) && HandIs(h, ops, hand) && i < |ops| && j < |ops| && i != j
    ensures HandAt(h, ops[j], Without(hand, InHand(ops[i])))
  {
    hide InHand, HandOwner, Prior;
    assert HandAt(h, ops[i], hand) && HandAt(h, ops[j], hand);
  }

  lemma HandUpdate(h: Heap, ops: seq<Operation>, hand: map<nat, Owner>, i: nat, op: Operation)
    requires Shaped(h) && HandIs(h, ops, hand) && Prior(op).group < GROUPS && i < |ops|
    requires InHand(op) != 0 ==> InHand(op) !in Without(hand, InHand(ops[i])) && HandOwner(h, op).caller != 0
    ensures HandIs(h, ops[i := op], With(h, Without(hand, InHand(ops[i])), op))
  {
    hide InHand, HandOwner, Prior, Without;
    var ops', rest := ops[i := op], Without(hand, InHand(ops[i]));
    var hand' := With(h, rest, op);
    forall j: nat | j < |ops'|
      ensures HandAt(h, ops'[j], hand') && (j != i ==> HandAt(h, ops[j], rest))
    {
      if j != i { OthersHold(h, ops, hand, i, j); }
    }
    forall k | k in hand'
      ensures k != 0 && hand'[k].caller != 0 && exists j :: 0 <= j < |ops'| && InHand(ops'[j]) == k
    {
      if k in rest {
        InWithout(hand, InHand(ops[i]), k);
        var j :| 0 <= j < |ops| && InHand(ops[j]) == k;
        assert InHand(ops'[j]) == k;
      } else {
        assert InHand(ops'[i]) == k;
      }
    }
  }

  lemma InWithout(hand: map<nat, Owner>, gone: nat, k: nat)
    ensures k in Without(hand, gone) <==> k in hand && k != gone
    ensures k in Without(hand, gone) ==> Without(hand, gone)[k] == hand[k]
  {
  }

  lemma HandUnderSameCallers(h: Heap, h': Heap, ops: seq<Operation>, hand: map<nat, Owner>)
    requires Shaped(h) && Shaped(h') && SameCallers(h, h') && HandIs(h, ops, hand)
    ensures HandIs(h', ops, hand)
  {
    forall i | 0 <= i < |ops|
      ensures HandAt(h', ops[i], hand)
    {
      assert HandAt(h, ops[i], hand);
    }
  }

  // ---- the invariant

  /** An operation that found nothing to take was asked for an address that is not live. */
  predicate OpFits(op: Operation, live: map<nat, Owner>) {
    && (op.Allocating? || op.Allocated? || op.Reallocating? || op.Reallocated? ==> op.caller != 0)
    && (op.Freeing? || op.Reallocating? ==>
          if op.prior.key == 0 then op.address !in live else op.prior.key == op.address)
  }

  predicate OpsFit(ops: seq<Operation>, live: map<nat, Owner>) {
    forall i :: 0 <= i < |ops| ==> OpFits(ops[i], live)
  }

  predicate Apart(a: map<nat, Owner>, b: map<nat, Owner>) {
    forall k :: k in a ==> k !in b
  }

  /** The blocks live in the heap are the table's and those in hand, and none is both. */
  ghost predicate Agrees(s: State, table: map<nat, Owner>, hand: map<nat, Owner>) {
    && Sound(s.heap) && TableIs(s.heap, table) && HandIs(s.heap, s.ops, hand)
    && OpsFit(s.ops, s.live) && Apart(table, hand) && s.live == table + hand
  }

  lemma OpsFitAppend(ops: seq<Operation>, live: map<nat, Owner>, op: Operation)
    requires OpsFit(ops, live) && OpFits(op, live)
    ensures OpsFit(ops + [op], live)
  {
  }

  lemma HandsOf(h: Heap, ops: seq<Operation>, hand: map<nat, Owner>, k: nat)
    requires Shaped(h) && HandIs(h, ops, hand) && k != 0
    ensures k in hand <==> exists j :: 0 <= j < |ops| && InHand(ops[j]) == k
    ensures forall i, j :: 0 <= i < j < |ops| && InHand(ops[i]) == k ==> InHand(ops[j]) != k
  {
    hide InHand, HandOwner, Prior;
    assert forall j :: 0 <= j < |ops| ==> HandAt(h, ops[j], hand);
  }

  lemma NotInHand(s: State, table: map<nat, Owner>, hand: map<nat, Owner>, address: nat)
    requires Agrees(s, table, hand) && IsFreeToGiveUp(s, address)
    ensures address !in hand
  {
    hide InHand, Targets;
    if address != 0 { HandsOf(s.heap, s.ops, hand, address); }
  }

  /** What leaves one side for the other leaves their union as it was. */
  lemma Moved(from: map<nat, Owner>, to: map<nat, Owner>, k: nat)
    requires Apart(from, to)
    ensures var to' := if k in from then to[k := from[k]] else to;
            from + to == from - {k} + to' && Apart(from - {k}, to')
  {
  }

  lemma HandOfTaken(h: Heap, op: Operation, owner: Owner, hand: map<nat, Owner>)
    requires Shaped(h) && (op.Freeing? || op.Reallocating?) && Prior(op).group < GROUPS
    requires Prior(op).key != 0 ==> owner == OwnerOf(h, Prior(op))
    ensures With(h, hand, op) == if Prior(op).key != 0 then hand[Prior(op).key := owner] else hand
    ensures InHand(op) == Prior(op).key && (InHand(op) != 0 ==> HandOwner(h, op) == owner)
  {
  }

  /** Entering: a block of the table moves into the hand of the operation that gives it up. */
  lemma EnterTaking(s: State, table: map<nat, Owner>, hand: map<nat, Owner>, address: nat, op: Operation)
    requires Agrees(s, table, hand) && IsFreeToGiveUp(s, address) && Prior(op) == Taken(s.heap, address).1
    requires op.Freeing? || (op.Reallocating? && op.caller != 0)
    requires op.address == address
    ensures var heap := Taken(s.heap, address).0;
            && Prior(op).group < GROUPS && Sound(heap)
            && Agrees(s.(ops := s.ops + [op], heap := heap), table - {address}, With(heap, hand, op))
  {
    hide Taken, TableIs, HandIs, Shaped, SumsAgree, InReach, SameCallers, IsFreeToGiveUp, OwnerOf, HandOwner, InHand,
        With,
         Apart, OpsFit;
    var heap := Taken(s.heap, address).0;
    NotInHand(s, table, hand, address);
    TableOfTaken(s.heap, table, address);
    HandUnderSameCallers(s.heap, heap, s.ops, hand);
    if address in table { TableKeys(s.heap, table, address); }
    HandOfTaken(heap, op, if address in table then table[address] else Owner(0, 0), hand);
    HandAppend(heap, s.ops, hand, op);
    Moved(table, hand, address);
    OpsFitAppend(s.ops, s.live, op);
  }

  lemma WhatIsInHand(h: Heap, ops: seq<Operation>, hand: map<nat, Owner>, i: nat)
    requires Shaped(h) && HandIs(h, ops, hand) && i < |ops|
    ensures Prior(ops[i]).group < GROUPS
    ensures InHand(ops[i]) != 0 ==> InHand(ops[i]) in hand && hand[InHand(ops[i])] == HandOwner(h, ops[i])
                                    && hand[InHand(ops[i])].caller != 0
    ensures 0 !in hand
  {
    hide InHand, HandOwner, Prior;
    assert HandAt(h, ops[i], hand);
  }

  lemma OpsFitReturned(ops: seq<Operation>, live: map<nat, Owner>, i: nat)
    requires OpsFit(ops, live) && i < |ops|
    ensures OpsFit(ops[i := Returned], live)
  {
  }

  /** Leaving: what the operation has in hand is in the table again. */
  lemma LeaveGiving(s: State, table: map<nat, Owner>, hand: map<nat, Owner>, i: nat, heap: Heap)
    requires Agrees(s, table, hand) && i < |s.ops| && Sound(heap) && SameCallers(s.heap, heap)
    requires var k := InHand(s.ops[i]);
             if k == 0 then TableIs(heap, table) else k in hand && TableIs(heap, table[k := hand[k]])
    ensures var k := InHand(s.ops[i]);
            Agrees(s.(ops := s.ops[i := Returned], heap := heap),
                   if k == 0 then table else table[k := hand[k]], Without(hand, k))
  {
    var k := InHand(s.ops[i]);
    assert With(heap, Without(hand, k), Returned) == Without(hand, k);
    hide TableIs, HandIs, Shaped, SumsAgree, InReach, SameCallers, OwnerOf, HandOwner, InHand, With, Apart, OpsFit;
    WhatIsInHand(s.heap, s.ops, hand, i);
    HandUnderSameCallers(s.heap, heap, s.ops, hand);
    HandUpdate(heap, s.ops, hand, i, Returned);
    OpsFitReturned(s.ops, s.live, i);
    GivenBack(table, hand, k);
  }

  lemma GivenBack(table: map<nat, Owner>, hand: map<nat, Owner>, k: nat)
    requires Apart(table, hand)
    ensures var table' := if k in hand then table[k := hand[k]] else table;
            table + hand == table' + Without(hand, k) && Apart(table', Without(hand, k))
  {
  }

  lemma CountersDoNotMatter(h: Heap, h': Heap, table: map<nat, Owner>)
    requires Sound(h) && TableIs(h, table) && h'.blocks == h.blocks && h'.groups == h.groups
    ensures Sound(h') && TableIs(h', table) && SameCallers(h, h')
  {
    hide Total, Distance;
    forall i: nat | i < SLOTS && h'.blocks[i].key != 0
      ensures HoldsAt(h', table, i)
    {
      assert HoldsAt(h, table, i);
    }
  }

  lemma SameCallersCompose(a: Heap, b: Heap, c: Heap)
    requires Shaped(a) && Shaped(b) && Shaped(c) && SameCallers(a, b) && SameCallers(b, c)
    ensures SameCallers(a, c)
  {
  }

  /** Giving back what could not be freed or moved. */
  lemma TableOfRestored(h: Heap, counted: Heap, table: map<nat, Owner>, hand: map<nat, Owner>, prior: Block)
    requires Sound(h) && TableIs(h, table) && counted.blocks == h.blocks && counted.groups == h.groups
    requires prior.group < GROUPS && Apart(table, hand)
    requires prior.key != 0 ==> prior.key in hand && hand[prior.key] == OwnerOf(h, prior) && hand[prior.key].caller != 0
    requires Shaped(counted) && Restored(counted, prior).lost == counted.lost
    ensures var h' := Restored(counted, prior);
            Sound(h') && SameCallers(h, h')
            && TableIs(h', if prior.key == 0 then table else table[prior.key := hand[prior.key]])
  {
    hide TableIs, SumsAgree, InReach, SameCallers, PutIn, Shaped;
    CountersDoNotMatter(h, counted, table);
    if prior.key != 0 {
      TableOfPut(counted, table, prior.key, prior.size, prior.group);
      SameCallersCompose(h, counted, Restored(counted, prior));
    }
  }

  /** The result of an allocation enters the table. */
  lemma TableOfResult(h: Heap, counted: Heap, table: map<nat, Owner>, hand: map<nat, Owner>, result: nat, size: nat,
                      caller: nat)
    requires Sound(h) && TableIs(h, table) && counted.blocks == h.blocks && counted.groups == h.groups
    requires Shaped(counted) && Added(counted, result, size, caller).lost == counted.lost && caller != 0
         && Apart(table, hand)
    requires result != 0 && size >= 8192 ==> result in hand && hand[result] == Owner(size, caller)
    ensures var h' := Added(counted, result, size, caller);
            Sound(h') && SameCallers(h, h') && TableIs(h', Gained(table, result, size, caller))
  {
    hide TableIs, SumsAgree, InReach, SameCallers, PutIn, Shaped;
    CountersDoNotMatter(h, counted, table);
    if result != 0 && size >= 8192 {
      TableOfAdded(counted, table, result, size, caller);
      SameCallersCompose(h, counted, Added(counted, result, size, caller));
    }
  }

  // ---- the heap's own steps

  lemma OpsFitAfter(ops: seq<Operation>, live: map<nat, Owner>, i: nat, op: Operation, live': map<nat, Owner>,
                    result: nat)
    requires OpsFit(ops, live) && i < |ops| && OpFits(op, live')
    requires forall k :: k in live' && k !in live ==> k == result
    requires forall j :: 0 <= j < |ops| && j != i ==> result in live' ==> !Targets(ops[j], result)
    ensures OpsFit(ops[i := op], live')
  {
    forall j | 0 <= j < |ops| && j != i
      ensures OpFits(ops[j], live')
    {
      assert OpFits(ops[j], live);
    }
  }

  /** The heap acts for operation i: the table stays, and what is in hand changes with what is live. */
  lemma HeapActs(s: State, table: map<nat, Owner>, hand: map<nat, Owner>, i: nat, op: Operation, live': map<nat, Owner>)
    requires Agrees(s, table, hand) && i < |s.ops| && Prior(op).group < GROUPS && OpsFit(s.ops[i := op], live')
    requires InHand(op) != 0 ==>
               InHand(op) !in Without(hand, InHand(s.ops[i])) && InHand(op) !in table
                   && HandOwner(s.heap, op).caller != 0
    requires live' == table + With(s.heap, Without(hand, InHand(s.ops[i])), op)
    ensures Agrees(s.(ops := s.ops[i := op], live := live'), table, With(s.heap, Without(hand, InHand(s.ops[i])), op))
  {
    hide TableIs, HandIs, Shaped, SumsAgree, InReach, OwnerOf, HandOwner, InHand, OpsFit;
    HandUpdate(s.heap, s.ops, hand, i, op);
  }

  lemma AllocActs(s: State, table: map<nat, Owner>, hand: map<nat, Owner>, i: nat, result: nat)
    returns (hand': map<nat, Owner>)
    requires WellFormed(s) && Agrees(s, table, hand) && Enabled(s, DoAlloc(i, result))
    ensures Agrees(Apply(s, DoAlloc(i, result)), table, hand')
  {
    hide TableIs, HandIs, Shaped, SumsAgree, InReach;
    var t, op := Apply(s, DoAlloc(i, result)), Allocated(s.ops[i].size, s.ops[i].caller, result);
    WhatIsInHand(s.heap, s.ops, hand, i);
    assert OpFits(s.ops[i], s.live);
    assert Without(hand, 0) == hand;
    hand' := With(s.heap, hand, op);
    OpsFitAfter(s.ops, s.live, i, op, t.live, result);
    assert t.live == table + hand';
    HeapActs(s, table, hand, i, op, t.live);
  }

  lemma FreeActs(s: State, table: map<nat, Owner>, hand: map<nat, Owner>, i: nat, ok: bool)
    returns (hand': map<nat, Owner>)
    requires WellFormed(s) && Agrees(s, table, hand) && Enabled(s, DoFree(i, ok))
    ensures Agrees(Apply(s, DoFree(i, ok)), table, hand')
  {
    hide TableIs, HandIs, Shaped, SumsAgree, InReach, OwnerOf;
    var t, op := Apply(s, DoFree(i, ok)), Freed(s.ops[i].prior, ok);
    WhatIsInHand(s.heap, s.ops, hand, i);
    assert OpFits(s.ops[i], s.live);
    hand' := With(s.heap, Without(hand, InHand(s.ops[i])), op);
    OpsFitAfter(s.ops, s.live, i, op, t.live, 0);
    assert t.live == table + hand';
    HeapActs(s, table, hand, i, op, t.live);
  }

  lemma ReallocActs(s: State, table: map<nat, Owner>, hand: map<nat, Owner>, i: nat, result: nat)
    returns (hand': map<nat, Owner>)
    requires WellFormed(s) && Agrees(s, table, hand) && Enabled(s, DoRealloc(i, result))
    ensures Agrees(Apply(s, DoRealloc(i, result)), table, hand')
  {
    hide TableIs, HandIs, Shaped, SumsAgree, InReach, OwnerOf;
    var t, op := Apply(s, DoRealloc(i, result)), Reallocated(s.ops[i].prior, s.ops[i].size, s.ops[i].caller, result);
    WhatIsInHand(s.heap, s.ops, hand, i);
    assert OpFits(s.ops[i], s.live);
    hand' := With(s.heap, Without(hand, InHand(s.ops[i])), op);
    OpsFitAfter(s.ops, s.live, i, op, t.live, result);
    assert t.live == table + hand';
    HeapActs(s, table, hand, i, op, t.live);
  }

  // ---- the hooks' steps

  lemma LeaveAllocKeeps(s: State, table: map<nat, Owner>, hand: map<nat, Owner>, i: nat)
    returns (table': map<nat, Owner>, hand': map<nat, Owner>)
    requires WellFormed(s) && Agrees(s, table, hand) && Enabled(s, LeaveAlloc(i))
    requires Apply(s, LeaveAlloc(i)).heap.lost == s.heap.lost
    ensures Agrees(Apply(s, LeaveAlloc(i)), table', hand')
  {
    hide TableIs, HandIs, Shaped, SumsAgree, InReach, OwnerOf, Added, SameCallers;
    var op := s.ops[i];
    WhatIsInHand(s.heap, s.ops, hand, i);
    assert OpFits(op, s.live);
    TableOfResult(s.heap, s.heap, table, hand, op.result, op.size, op.caller);
    LeaveGiving(s, table, hand, i, Added(s.heap, op.result, op.size, op.caller));
    var k := InHand(op);
    table', hand' := if k == 0 then table else table[k := hand[k]], Without(hand, k);
  }

  lemma LeaveFreeKeeps(s: State, table: map<nat, Owner>, hand: map<nat, Owner>, i: nat)
    returns (table': map<nat, Owner>, hand': map<nat, Owner>)
    requires WellFormed(s) && Agrees(s, table, hand) && Enabled(s, LeaveFree(i))
    requires Apply(s, LeaveFree(i)).heap.lost == s.heap.lost
    ensures Agrees(Apply(s, LeaveFree(i)), table', hand')
  {
    hide TableIs, HandIs, SumsAgree, InReach, OwnerOf, Restored, SameCallers;
    var op := s.ops[i];
    WhatIsInHand(s.heap, s.ops, hand, i);
    if op.ok {
      CountersDoNotMatter(s.heap, s.heap, table);
    } else {
      TableOfRestored(s.heap, s.heap.(failedFrees := (s.heap.failedFrees + 1) % WRAP), table, hand, op.prior);
    }
    LeaveGiving(s, table, hand, i, AfterFree(s.heap, op.prior, op.ok));
    var k := InHand(op);
    table', hand' := if k == 0 then table else table[k := hand[k]], Without(hand, k);
  }

  lemma LeaveReallocKeeps(s: State, table: map<nat, Owner>, hand: map<nat, Owner>, i: nat)
    returns (table': map<nat, Owner>, hand': map<nat, Owner>)
    requires WellFormed(s) && Agrees(s, table, hand) && Enabled(s, LeaveRealloc(i))
    requires Apply(s, LeaveRealloc(i)).heap.lost == s.heap.lost
    ensures Agrees(Apply(s, LeaveRealloc(i)), table', hand')
  {
    hide TableIs, HandIs, SumsAgree, InReach, OwnerOf, Restored, Added, SameCallers;
    var op := s.ops[i];
    WhatIsInHand(s.heap, s.ops, hand, i);
    assert OpFits(op, s.live);
    var counted := s.heap.(reallocs := (s.heap.reallocs + 1) % WRAP);
    if op.result != 0 {
      TableOfResult(s.heap, counted, table, hand, op.result, op.size, op.caller);
    } else {
      TableOfRestored(s.heap, counted, table, hand, op.prior);
    }
    LeaveGiving(s, table, hand, i, AfterRealloc(s.heap, op.prior, op.result, op.size, op.caller));
    var k := InHand(op);
    table', hand' := if k == 0 then table else table[k := hand[k]], Without(hand, k);
  }

  lemma EnterAllocKeeps(s: State, table: map<nat, Owner>, hand: map<nat, Owner>, size: nat, caller: nat)
    requires WellFormed(s) && Agrees(s, table, hand) && caller != 0
    ensures Agrees(s.(ops := s.ops + [Allocating(size, caller)]), table, hand)
  {
    hide TableIs, HandIs, Shaped, SumsAgree, InReach, OpsFit;
    HandAppend(s.heap, s.ops, hand, Allocating(size, caller));
    OpsFitAppend(s.ops, s.live, Allocating(size, caller));
  }

  lemma StepKeepsAgreement(s: State, table: map<nat, Owner>, hand: map<nat, Owner>, a: Action)
    returns (table': map<nat, Owner>, hand': map<nat, Owner>)
    requires WellFormed(s) && Agrees(s, table, hand) && Enabled(s, a)
    requires Apply(s, a).heap.lost == s.heap.lost
    ensures Agrees(Apply(s, a), table', hand')
  {
    hide Agrees, WellFormed, Taken, Added, AfterFree, AfterRealloc, IsFresh, IsFreeToGiveUp, Gained, Prior, InHand;
    table', hand' := table, hand;
    match a
    case EnterAlloc(size, caller) => EnterAllocKeeps(s, table, hand, size, caller);
    case DoAlloc(i, result) => hand' := AllocActs(s, table, hand, i, result);
    case LeaveAlloc(i) => table', hand' := LeaveAllocKeeps(s, table, hand, i);
    case EnterFree(address) => table', hand' := EnterFreeKeeps(s, table, hand, address);
    case DoFree(i, ok) => hand' := FreeActs(s, table, hand, i, ok);
    case LeaveFree(i) => table', hand' := LeaveFreeKeeps(s, table, hand, i);
    case EnterRealloc(address, size, caller) =>
      table', hand' := EnterReallocKeeps(s, table, hand, address, size, caller);
    case DoRealloc(i, result) => hand' := ReallocActs(s, table, hand, i, result);
    case LeaveRealloc(i) => table', hand' := LeaveReallocKeeps(s, table, hand, i);
  }

  lemma EnterFreeKeeps(s: State, table: map<nat, Owner>, hand: map<nat, Owner>, address: nat)
    returns (table': map<nat, Owner>, hand': map<nat, Owner>)
    requires WellFormed(s) && Agrees(s, table, hand) && Enabled(s, EnterFree(address))
    ensures Agrees(Apply(s, EnterFree(address)), table', hand')
  {
    hide Agrees, Taken, Shaped, SumsAgree, InReach, With, IsFreeToGiveUp;
    var op := Freeing(address, Taken(s.heap, address).1);
    EnterTaking(s, table, hand, address, op);
    table', hand' := table - {address}, With(Taken(s.heap, address).0, hand, op);
  }

  lemma EnterReallocKeeps(s: State, table: map<nat, Owner>, hand: map<nat, Owner>, address: nat, size: nat, caller: nat)
    returns (table': map<nat, Owner>, hand': map<nat, Owner>)
    requires WellFormed(s) && Agrees(s, table, hand) && Enabled(s, EnterRealloc(address, size, caller))
    ensures Agrees(Apply(s, EnterRealloc(address, size, caller)), table', hand')
  {
    hide Agrees, Taken, Shaped, SumsAgree, InReach, With, IsFreeToGiveUp;
    var op := Reallocating(address, Taken(s.heap, address).1, size, caller);
    EnterTaking(s, table, hand, address, op);
    table', hand' := table - {address}, With(Taken(s.heap, address).0, hand, op);
  }

  lemma LostNeverFalls(s: State, a: Action)
    requires WellFormed(s) && Possible(s, a)
    ensures Apply(s, a).heap.lost >= s.heap.lost
  {
    hide Base, Slot, Probe, GroupFor, IsFresh, IsFreeToGiveUp, InHand, Prior;
  }

  lemma {:induction false} LostNeverFallsInRun(s: State, actions: seq<Action>, s': State)
    requires IsRun(s, actions, s')
    ensures s'.heap.lost >= s.heap.lost
    decreases |actions|
  {
    hide Apply, Possible, WellFormed;
    if actions != [] {
      LostNeverFalls(s, actions[0]);
      LostNeverFallsInRun(Apply(s, actions[0]), actions[1..], s');
    }
  }

  lemma {:induction false} RunKeepsAgreement(s: State, table: map<nat, Owner>, hand: map<nat, Owner>,
                                             actions: seq<Action>, s': State)
    returns (table': map<nat, Owner>, hand': map<nat, Owner>)
    requires Agrees(s, table, hand) && IsDisciplinedRun(s, actions, s') && s'.heap.lost == s.heap.lost
    ensures Agrees(s', table', hand')
    decreases |actions|
  {
    hide Apply, Enabled, WellFormed, Agrees;
    table', hand' := table, hand;
    if actions != [] {
      DisciplinedRunsAreRuns(s, actions, s');
      LostNeverFalls(s, actions[0]);
      LostNeverFallsInRun(Apply(s, actions[0]), actions[1..], s');
      table', hand' := StepKeepsAgreement(s, table, hand, actions[0]);
      table', hand' := RunKeepsAgreement(Apply(s, actions[0]), table', hand', actions[1..], s');
    }
  }

  // ------------------------------------------------------------------------ theorems

  /**
   * After any sequence of hook calls, whatever addresses the heap returns, live ones included,
   * whatever is given up, twice or unasked, and whatever is lost: each group's live counter is
   * the sum of its occupied slots, modulo 2^64, and every key stands within 128 probes of its base.
   */
  lemma CountersMatchTheTable(actions: seq<Action>, s: State)
    requires IsRun(Init(), actions, s)
    ensures Sound(s.heap)
  {
    EmptyIsSound();
    RunStaysSound(Init(), actions, s);
  }

  predicate InSlot(h: Heap, k: nat, i: nat)
    requires Shaped(h)
  {
    i < SLOTS && h.blocks[i].key == k
  }

  lemma SlotsOf(h: Heap, t: map<nat, Owner>, k: nat)
    requires Shaped(h) && TableIs(h, t) && k != 0
    ensures k in t <==> exists i: nat :: InSlot(h, k, i)
    ensures forall i: nat :: InSlot(h, k, i) ==> h.blocks[i].group < GROUPS && t[k] == OwnerOf(h, h.blocks[i])
    ensures forall i: nat, j: nat :: InSlot(h, k, i) && InSlot(h, k, j) ==> i == j
  {
    hide OwnerOf;
    forall i: nat | InSlot(h, k, i)
      ensures k in t && t[k] == OwnerOf(h, h.blocks[i])
    {
      assert HoldsAt(h, t, i);
    }
    if k in t {
      var i: nat :| i < SLOTS && h.blocks[i].key == k;
      assert InSlot(h, k, i);
    }
  }

  /**
   * While nothing has been lost, the blocks live in the heap are exactly those in the
   * table, with their sizes and callers, and those in the hands of operations under way:
   * each of them once, also after frees and reallocations that failed.
   */
  lemma TableMatchesTheHeap(actions: seq<Action>, s: State, k: nat)
    requires IsDisciplinedRun(Init(), actions, s) && s.heap.lost == 0 && k != 0
    ensures Shaped(s.heap)
    ensures k in s.live <==>
              (exists i: nat :: InSlot(s.heap, k, i)) || (exists j :: 0 <= j < |s.ops| && InHand(s.ops[j]) == k)
    ensures forall i: nat :: InSlot(s.heap, k, i) ==> s.live[k] == OwnerOf(s.heap, s.heap.blocks[i])
    ensures forall i: nat, j: nat :: InSlot(s.heap, k, i) && InSlot(s.heap, k, j) ==> i == j
    ensures forall i: nat, j :: InSlot(s.heap, k, i) && 0 <= j < |s.ops| ==> InHand(s.ops[j]) != k
    ensures forall i, j :: 0 <= i < j < |s.ops| && InHand(s.ops[i]) == k ==> InHand(s.ops[j]) != k
  {
    hide SumsAgree, InReach, OwnerOf, InHand, IsDisciplinedRun, TableIs, HandIs, InSlot, OpsFit;
    EmptyAgrees();
    var table, hand := RunKeepsAgreement(Init(), map[], map[], actions, s);
    SlotsOf(s.heap, table, k);
    HandsOf(s.heap, s.ops, hand, k);
  }

  lemma EmptyAgrees()
    ensures Agrees(Init(), map[], map[])
  {
    hide Total, Distance;
    EmptyIsSound();
  }

  /** With no operation under way, the table is the heap's own account of its blocks. */
  lemma AtRestTheTableIsTheHeap(actions: seq<Action>, s: State)
    requires IsDisciplinedRun(Init(), actions, s) && s.heap.lost == 0
    requires forall j :: 0 <= j < |s.ops| ==> s.ops[j].Returned?
    ensures Shaped(s.heap) && TableIs(s.heap, s.live)
  {
    hide SumsAgree, InReach, TableIs, IsDisciplinedRun, Shaped;
    EmptyAgrees();
    var table, hand := RunKeepsAgreement(Init(), map[], map[], actions, s);
    forall k: nat
      ensures k !in hand
    {
      if k != 0 { HandsOf(s.heap, s.ops, hand, k); }
    }
    assert table + hand == table;
  }

  // ------------------------------------------------------- what each caller is charged

  /** Each caller has one group, and the groups in use come before the others. */
  ghost predicate OneGroupEach(groups: seq<Group>)
    requires |groups| == GROUPS
  {
    && (forall g, k :: 0 <= g < k < GROUPS && groups[k].caller != 0 ==>
          groups[g].caller != 0 && groups[g].caller != groups[k].caller)
    && (forall g :: 0 <= g < GROUPS && groups[g].caller == 0 ==> groups[g].sum == 0 && groups[g].calls == 0)
  }

  /** The bytes and the calls charged to a caller. */
  function Account(groups: seq<Group>, caller: nat): (nat, nat)
    requires |groups| == GROUPS
  {
    var g := GroupFor(groups, caller, 0);
    if g < GROUPS && groups[g].caller == caller then (groups[g].sum, groups[g].calls) else (0, 0)
  }

  /** Some group is the caller's, or still unused. */
  predicate HasRoom(groups: seq<Group>, caller: nat)
    requires |groups| == GROUPS
  {
    GroupFor(groups, caller, 0) < GROUPS
  }

  predicate HasGroup(groups: seq<Group>, caller: nat)
    requires |groups| == GROUPS
  {
    HasRoom(groups, caller) && groups[GroupFor(groups, caller, 0)].caller == caller
  }

  /** What a step charges, and to whom: the tracked blocks that a hook adds. */
  function Charge(s: State, a: Action): Option<Owner> {
    if (a.LeaveAlloc? || a.LeaveRealloc?) && a.i < |s.ops| && (s.ops[a.i].Allocated? || s.ops[a.i].Reallocated?)
       && s.ops[a.i].result != 0 && s.ops[a.i].size >= 8192
    then Some(Owner(s.ops[a.i].size, s.ops[a.i].caller)) else None
  }

  function ChargedBy(s: State, a: Action, caller: nat): (nat, nat) {
    var c := Charge(s, a);
    if c.Some? && c.value.caller == caller then (c.value.size, 1) else (0, 0)
  }

  /** Everything a run charges to a caller. */
  ghost function TotalCharged(s: State, actions: seq<Action>, caller: nat): (nat, nat)
    decreases |actions|
  {
    if actions == [] || !(WellFormed(s) && Possible(s, actions[0])) then (0, 0)
    else
      var (now, later) := (ChargedBy(s, actions[0], caller), TotalCharged(Apply(s, actions[0]), actions[1..], caller));
      (now.0 + later.0, now.1 + later.1)
  }

  /** The search, however far it has come, ends at the caller's group or at the first unused one. */
  lemma {:induction false} SearchEnds(groups: seq<Group>, caller: nat, from: nat)
    requires |groups| == GROUPS && OneGroupEach(groups) && caller != 0 && from <= GROUPS
    requires forall k :: 0 <= k < from ==> groups[k].caller !in {0, caller}
    ensures var g := GroupFor(groups, caller, from);
            && (forall k :: 0 <= k < g ==> groups[k].caller !in {0, caller})
            && (g < GROUPS && groups[g].caller == 0 ==> forall k :: g < k < GROUPS ==> groups[k].caller == 0)
    decreases GROUPS - from
  {
    if from < GROUPS && groups[from].caller !in {0, caller} {
      SearchEnds(groups, caller, from + 1);
    }
  }

  predicate SameAccounting(a: seq<Group>, b: seq<Group>) {
    && |a| == |b|
    && forall g :: 0 <= g < |a| ==>
         a[g].caller == b[g].caller && a[g].sum == b[g].sum && a[g].calls == b[g].calls
  }

  lemma {:induction false} SameSearch(a: seq<Group>, b: seq<Group>, caller: nat, from: nat)
    requires SameAccounting(a, b) && |a| == GROUPS && from <= GROUPS
    ensures GroupFor(a, caller, from) == GroupFor(b, caller, from)
    decreases GROUPS - from
  {
    if from < GROUPS { SameSearch(a, b, caller, from + 1); }
  }

  lemma SameAccounts(a: seq<Group>, b: seq<Group>, caller: nat)
    requires SameAccounting(a, b) && |a| == GROUPS && OneGroupEach(a)
    ensures OneGroupEach(b) && Account(b, caller) == Account(a, caller)
    ensures HasRoom(b, caller) == HasRoom(a, caller) && HasGroup(b, caller) == HasGroup(a, caller)
  {
    SameSearch(a, b, caller, 0);
  }

  lemma Found(groups: seq<Group>, caller: nat, g: nat)
    requires |groups| == GROUPS && OneGroupEach(groups) && g < GROUPS && groups[g].caller == caller != 0
    ensures Account(groups, caller) == (groups[g].sum, groups[g].calls) && HasGroup(groups, caller)
  {
    hide GroupFor;
    SearchEnds(groups, caller, 0);
  }

  lemma NotFound(groups: seq<Group>, caller: nat)
    requires |groups| == GROUPS && forall g :: 0 <= g < GROUPS ==> groups[g].caller != caller
    ensures Account(groups, caller) == (0, 0)
  {
    hide GroupFor;
  }

  lemma RoomIsNotGained(groups: seq<Group>, size: nat, caller: nat, other: nat)
    requires |groups| == GROUPS && OneGroupEach(groups) && caller != 0 && other != 0 && HasRoom(groups, caller)
    ensures HasRoom(Charged(groups, GroupFor(groups, caller, 0), size, caller), other) ==> HasRoom(groups, other)
  {
    SearchEnds(groups, other, 0);
    hide GroupFor, OneGroupEach;
    var g := GroupFor(groups, caller, 0);
    var after := Charged(groups, g, size, caller);
    if !HasRoom(groups, other) {
      assert forall k :: 0 <= k < GROUPS ==> after[k].caller == groups[k].caller;
    }
  }

  /** Charging a caller adds to its account, opening one if need be, and to no other. */
  lemma ChargeOne(groups: seq<Group>, size: nat, caller: nat, other: nat)
    requires |groups| == GROUPS && OneGroupEach(groups) && caller != 0 && other != 0
    requires GroupFor(groups, caller, 0) < GROUPS
    ensures var after := Charged(groups, GroupFor(groups, caller, 0), size, caller);
            && OneGroupEach(after)
            && Account(after, other) ==
                 if other != caller then Account(groups, other)
                 else ((Account(groups, caller).0 + size) % WRAP, (Account(groups, caller).1 + 1) % WRAP)
    ensures var after := Charged(groups, GroupFor(groups, caller, 0), size, caller);
            && HasGroup(after, caller) && (HasGroup(groups, other) ==> HasGroup(after, other))
            && (HasRoom(after, other) ==> HasRoom(groups, other))
  {
    hide GroupFor;
    var g := GroupFor(groups, caller, 0);
    RoomIsNotGained(groups, size, caller, other);
    var after := Charged(groups, g, size, caller);
    SearchEnds(groups, caller, 0);
    Found(after, caller, g);
    if k: nat :| k < GROUPS && groups[k].caller == other && other != caller {
      Found(groups, other, k);
      Found(after, other, k);
    } else if other != caller {
      NotFound(groups, other);
      NotFound(after, other);
    }
  }

  lemma ChargedShaped(h: Heap, g: nat, size: nat, caller: nat)
    requires Shaped(h) && g < GROUPS
    ensures Shaped(h.(groups := Charged(h.groups, g, size, caller)))
  {
  }

  lemma PutInAccounts(h: Heap, key: nat, size: nat, group: nat)
    requires Shaped(h) && group < GROUPS
    ensures SameAccounting(h.groups, PutIn(h, key, size, group).groups) && PutIn(h, key, size, group).lost >= h.lost
  {
    hide Probe, Slot;
  }

  /** Whether an addition charges a caller: it tracks the block, and there is room for the caller. */
  predicate Charges(h: Heap, key: nat, size: nat, caller: nat, other: nat)
    requires Shaped(h)
  {
    key != 0 && size >= 8192 && other == caller && HasRoom(h.groups, caller)
  }

  lemma AddedAccounts(h: Heap, key: nat, size: nat, caller: nat, other: nat)
    requires Shaped(h) && OneGroupEach(h.groups) && caller != 0 && other != 0
    ensures var h' := Added(h, key, size, caller);
            && Shaped(h') && OneGroupEach(h'.groups) && h'.lost >= h.lost
            && Account(h'.groups, other) ==
                 (if !Charges(h, key, size, caller, other) then Account(h.groups, other)
                  else ((Account(h.groups, caller).0 + size) % WRAP, (Account(h.groups, caller).1 + 1) % WRAP))
            && (Charges(h, key, size, caller, other) || HasGroup(h.groups, other) ==> HasGroup(h'.groups, other))
            && (HasRoom(h'.groups, other) ==> HasRoom(h.groups, other))
            && (key != 0 && size >= 8192 && !HasRoom(h.groups, caller) ==> h'.lost == h.lost + 1)
  {
    hide GroupFor, PutIn, Account, OneGroupEach, Charged, HasGroup;
    var g := GroupFor(h.groups, caller, 0);
    if key != 0 && size >= 8192 && g < GROUPS {
      ChargeOne(h.groups, size, caller, other);
      var charged := h.(groups := Charged(h.groups, g, size, caller));
      ChargedShaped(h, g, size, caller);
      PutInAccounts(charged, key, size, g);
      SameAccounts(charged.groups, PutIn(charged, key, size, g).groups, other);
      AddedShaped(h, key, size, caller);
    }
  }

  lemma AddedShaped(h: Heap, key: nat, size: nat, caller: nat)
    requires Shaped(h)
    ensures Shaped(Added(h, key, size, caller))
  {
    hide Probe, Slot, GroupFor;
  }

  predicate Named(op: Operation) {
    op.Allocating? || op.Allocated? || op.Reallocating? || op.Reallocated? ==> op.caller != 0
  }

  ghost predicate AllNamed(s: State) {
    forall i :: 0 <= i < |s.ops| ==> Named(s.ops[i])
  }

  lemma StepKeepsNames(s: State, a: Action)
    requires WellFormed(s) && AllNamed(s) && Possible(s, a) && IsNamed(a)
    ensures AllNamed(Apply(s, a))
  {
    hide Taken, Added, AfterFree, AfterRealloc, Gained;
  }

  lemma OtherHooksAccounts(h: Heap, h': Heap, prior: Block, key: nat)
    requires Shaped(h) && prior.group < GROUPS
    ensures SameAccounting(h.groups, Taken(h, key).0.groups) && SameAccounting(h.groups, Restored(h, prior).groups)
    ensures |Taken(h, key).0.groups| == |Restored(h, prior).groups| == GROUPS
  {
    hide Probe, Slot;
  }

  /** One step of any run charges the caller what it should, as long as there is room. */
  lemma StepAccounts(s: State, a: Action, caller: nat)
    requires WellFormed(s) && AllNamed(s) && Possible(s, a) && OneGroupEach(s.heap.groups) && caller != 0
    ensures |Apply(s, a).heap.groups| == GROUPS && OneGroupEach(Apply(s, a).heap.groups)
    ensures var was, c, room := Account(s.heap.groups, caller), ChargedBy(s, a, caller), HasRoom(s.heap.groups, caller);
            && Account(Apply(s, a).heap.groups, caller)
               == (if c.1 == 0 || !room then was else ((was.0 + c.0) % WRAP, (was.1 + c.1) % WRAP))
            && ((c.1 > 0 && room) || HasGroup(s.heap.groups, caller) ==> HasGroup(Apply(s, a).heap.groups, caller))
            && (HasRoom(Apply(s, a).heap.groups, caller) ==> room)
            && (c.1 > 0 && !room ==> Apply(s, a).heap.lost > s.heap.lost)
  {
    hide Taken, Added, Restored, Account, OneGroupEach, SameAccounting, Gained, HasRoom, HasGroup;
    var h := s.heap;
    match a
    case EnterAlloc(_, _) =>
    case DoAlloc(_, _) =>
    case DoFree(_, _) =>
    case DoRealloc(_, _) =>
    case LeaveAlloc(i) =>
      var op := s.ops[i];
      assert Named(op);
      AddedAccounts(h, op.result, op.size, op.caller, caller);
    case EnterFree(address) =>
      OtherHooksAccounts(h, h, NO_BLOCK, address);
      SameAccounts(h.groups, Taken(h, address).0.groups, caller);
    case EnterRealloc(address, _, _) =>
      OtherHooksAccounts(h, h, NO_BLOCK, address);
      SameAccounts(h.groups, Taken(h, address).0.groups, caller);
    case LeaveFree(i) =>
      var counted := h.(failedFrees := (h.failedFrees + 1) % WRAP);
      OtherHooksAccounts(counted, h, s.ops[i].prior, 0);
      SameAccounts(h.groups, Restored(counted, s.ops[i].prior).groups, caller);
    case LeaveRealloc(i) =>
      var op, counted := s.ops[i], h.(reallocs := (h.reallocs + 1) % WRAP);
      assert Named(op);
      if op.result != 0 {
        AddedAccounts(counted, op.result, op.size, op.caller, caller);
      } else {
        OtherHooksAccounts(counted, h, op.prior, 0);
        SameAccounts(h.groups, Restored(counted, op.prior).groups, caller);
      }
  }

  lemma {:induction false} RunAccounts(s: State, actions: seq<Action>, s': State, caller: nat)
    requires IsRun(s, actions, s') && (forall a :: a in actions ==> IsNamed(a)) && caller != 0
    requires WellFormed(s) && AllNamed(s) && OneGroupEach(s.heap.groups)
    requires Account(s.heap.groups, caller).0 < WRAP && Account(s.heap.groups, caller).1 < WRAP
    ensures Shaped(s'.heap) && OneGroupEach(s'.heap.groups)
    ensures HasGroup(s.heap.groups, caller) ==> HasGroup(s'.heap.groups, caller)
    ensures HasRoom(s'.heap.groups, caller) ==> HasRoom(s.heap.groups, caller)
    ensures var was, total := Account(s.heap.groups, caller), TotalCharged(s, actions, caller);
            if HasRoom(s'.heap.groups, caller) then
              Account(s'.heap.groups, caller) == ((was.0 + total.0) % WRAP, (was.1 + total.1) % WRAP)
            else s'.heap.lost >= s.heap.lost + total.1
    decreases |actions|
  {
    hide Account, OneGroupEach, Apply, Possible, AllNamed, ChargedBy, TotalCharged, HasRoom, HasGroup, IsNamed;
    TotalUnfolds(s, actions, caller);
    if actions != [] {
      var a := actions[0];
      var was, c := Account(s.heap.groups, caller), ChargedBy(s, a, caller);
      assert a in actions;
      LostNeverFalls(s, a);
      StepAccounts(s, a, caller);
      StepKeepsNames(s, a);
      StepStaysWellFormed(s, a);
      ChargesAreOneOrNone(s, a, caller);
      ModOfSum(was.0, c.0, 0);
      ModOfSum(was.1, c.1, 0);
      RunAccounts(Apply(s, a), actions[1..], s', caller);
      GroupIsRoom(s'.heap.groups, caller);
      var later := TotalCharged(Apply(s, a), actions[1..], caller);
      ModOfSum(was.0, c.0, later.0);
      ModOfSum(was.1, c.1, later.1);
    } else {
      ModOfSum(Account(s.heap.groups, caller).0, 0, 0);
      ModOfSum(Account(s.heap.groups, caller).1, 0, 0);
    }
  }

  lemma GroupIsRoom(groups: seq<Group>, caller: nat)
    requires |groups| == GROUPS
    ensures HasGroup(groups, caller) ==> HasRoom(groups, caller)
  {
  }

  lemma ModOfSum(x: nat, y: nat, z: nat)
    ensures ((x + y) % WRAP + z) % WRAP == (x + (y + z)) % WRAP
    ensures x < WRAP ==> x % WRAP == x
  {
    ModShift((x + y) % WRAP, x + y, z);
    assert x + y + z == x + (y + z);
  }

  lemma TotalUnfolds(s: State, actions: seq<Action>, caller: nat)
    ensures TotalCharged(s, [], caller) == (0, 0)
    ensures actions != [] && WellFormed(s) && Possible(s, actions[0]) ==>
              TotalCharged(s, actions, caller)
              == (ChargedBy(s, actions[0], caller).0 + TotalCharged(Apply(s, actions[0]), actions[1..], caller).0,
                  ChargedBy(s, actions[0], caller).1 + TotalCharged(Apply(s, actions[0]), actions[1..], caller).1)
  {
    hide Apply, Possible, WellFormed, ChargedBy;
  }

  lemma ChargesAreOneOrNone(s: State, a: Action, caller: nat)
    ensures var c := ChargedBy(s, a, caller); c == (0, 0) || c.1 == 1
  {
  }

  /**
   * After any sequence of hook calls, whatever the heap returns and the program gives up, no two
   * groups have one caller, and a caller's counters are the bytes and the number of the tracked
   * blocks that were allocated for it, modulo 2^64. Left out are only callers that found all
   * groups in the hands of others, and each block of theirs is counted as lost.
   */
  lemma CallersAreChargedExactly(actions: seq<Action>, s: State, caller: nat)
    requires IsRun(Init(), actions, s) && (forall a :: a in actions ==> IsNamed(a)) && caller != 0
    ensures Shaped(s.heap) && OneGroupEach(s.heap.groups)
    ensures var total := TotalCharged(Init(), actions, caller);
            if HasRoom(s.heap.groups, caller) then Account(s.heap.groups, caller) == (total.0 % WRAP, total.1 % WRAP)
            else s.heap.lost >= total.1 && forall g :: 0 <= g < GROUPS ==> s.heap.groups[g].caller !in {0, caller}
  {
    hide IsRun, TotalCharged, Account, OneGroupEach, AllNamed, HasRoom, HasGroup, Init, WellFormed;
    NothingCharged(caller);
    RunAccounts(Init(), actions, s, caller);
    if !HasRoom(s.heap.groups, caller) { NoRoomMeansTaken(s.heap.groups, caller); }
  }

  lemma NothingCharged(caller: nat)
    requires caller != 0
    ensures WellFormed(Init()) && AllNamed(Init()) && OneGroupEach(Init().heap.groups) && Init().heap.lost == 0
    ensures Account(Init().heap.groups, caller) == (0, 0)
  {
    EmptyIsSound();
  }

  lemma NoRoomMeansTaken(groups: seq<Group>, caller: nat)
    requires |groups| == GROUPS && OneGroupEach(groups) && caller != 0 && !HasRoom(groups, caller)
    ensures forall g :: 0 <= g < GROUPS ==> groups[g].caller !in {0, caller}
  {
    SearchEnds(groups, caller, 0);
    hide GroupFor, OneGroupEach;
  }

  /** Named callers matter: what a caller without a name opens, the next caller takes over, charges and all. */
  lemma NamelessChargesArePassedOn(key: nat, size: nat, key': nat, size': nat, caller: nat)
    requires key != 0 && key' != 0 && caller != 0 && 8192 <= size && 8192 <= size' && size + size' < WRAP
    ensures var h := Added(Added(EmptyHeap(), key, size, 0), key', size', caller);
            |h.groups| == GROUPS && Account(h.groups, caller) == (size + size', 2)
  {
    hide Probe, Slot;
    var empty := EmptyHeap();
    assert GroupFor(empty.groups, 0, 0) == 0;
    AddedShaped(empty, key, size, 0);
    var once := Added(empty, key, size, 0);
    assert once.groups[0].caller == 0 && once.groups[0].sum == size && once.groups[0].calls == 1;
    assert GroupFor(once.groups, caller, 0) == 0;
    var twice := Added(once, key', size', caller);
    assert twice.groups[0].caller == caller;
  }

  // --------------------------------------------------- one operation, undisturbed

  lemma RunOfOne(s: State, a: Action, rest: seq<Action>, t: State)
    requires WellFormed(s) && Enabled(s, a) && IsDisciplinedRun(Apply(s, a), rest, t)
    ensures IsDisciplinedRun(s, [a] + rest, t)
  {
    hide Apply, Enabled, WellFormed;
    assert ([a] + rest)[1..] == rest;
  }

  lemma RunOfThree(s: State, a: Action, b: Action, c: Action, s1: State, s2: State, t: State)
    requires WellFormed(s) && Enabled(s, a) && s1 == Apply(s, a) && WellFormed(s1) && Enabled(s1, b)
    requires s2 == Apply(s1, b) && WellFormed(s2) && Enabled(s2, c) && t == Apply(s2, c)
    ensures IsDisciplinedRun(s, [a, b, c], t)
  {
    hide Apply, Enabled, WellFormed, IsDisciplinedRun;
    assert IsDisciplinedRun(t, [], t) by { NoActions(t); }
    RunOfOne(s2, c, [], t);
    assert [c] + [] == [c] && [b] + [c] == [b, c] && [a] + [b, c] == [a, b, c];
    RunOfOne(s1, b, [c], t);
    RunOfOne(s, a, [b, c], t);
  }

  lemma NoActions(s: State)
    ensures IsDisciplinedRun(s, [], s)
  {
  }

  /** An allocation can be hooked in every state, and what it returns is added and live from 8192 bytes on. */
  lemma UndisturbedAlloc(s: State, size: nat, caller: nat, result: nat)
    requires WellFormed(s) && caller != 0 && (result == 0 || IsFresh(s, result, |s.ops|))
    ensures IsDisciplinedRun(s, [EnterAlloc(size, caller), DoAlloc(|s.ops|, result), LeaveAlloc(|s.ops|)],
              State(Added(s.heap, result, size, caller), s.ops + [Returned],
                    if result != 0 && size >= 8192 then s.live[result := Owner(size, caller)] else s.live))
  {
    hide Added, Taken, Shaped;
    var i := |s.ops|;
    var s1 := s.(ops := s.ops + [Allocating(size, caller)]);
    var live := if result != 0 && size >= 8192 then s.live[result := Owner(size, caller)] else s.live;
    var s2 := State(s.heap, s.ops + [Allocated(size, caller, result)], live);
    var t := State(Added(s.heap, result, size, caller), s.ops + [Returned], live);
    StepStaysWellFormed(s, EnterAlloc(size, caller));
    StepStaysWellFormed(s1, DoAlloc(i, result));
    assert s2 == Apply(s1, DoAlloc(i, result));
    assert t.ops == Apply(s2, LeaveAlloc(i)).ops;
    RunOfThree(s, EnterAlloc(size, caller), DoAlloc(i, result), LeaveAlloc(i), s1, s2, t);
  }

  /** So can a free: the block is taken, and given back if the heap did not free it. */
  lemma UndisturbedFree(s: State, address: nat, ok: bool)
    requires WellFormed(s) && IsFreeToGiveUp(s, address)
    ensures var (heap, prior) := Taken(s.heap, address);
            && Shaped(heap) && prior.group < GROUPS
            && IsDisciplinedRun(s, [EnterFree(address), DoFree(|s.ops|, ok), LeaveFree(|s.ops|)],
                 State(AfterFree(heap, prior, ok), s.ops + [Returned],
                       if ok then s.live - {address} else s.live))
  {
    hide Added, AfterFree, Taken, Shaped;
    var i := |s.ops|;
    var (heap, prior) := Taken(s.heap, address);
    var s1 := Apply(s, EnterFree(address));
    StepStaysWellFormed(s, EnterFree(address));
    var s2 := Apply(s1, DoFree(i, ok));
    StepStaysWellFormed(s1, DoFree(i, ok));
    assert s2.ops[i] == Freed(prior, ok) && Prior(s1.ops[i]) == prior;
    var t := State(AfterFree(heap, prior, ok), s.ops + [Returned], if ok then s.live - {address} else s.live);
    assert t.ops == Apply(s2, LeaveFree(i)).ops;
    RunOfThree(s, EnterFree(address), DoFree(i, ok), LeaveFree(i), s1, s2, t);
  }

  lemma StaysFresh(s: State, s1: State, address: nat, result: nat)
    requires IsFreeToGiveUp(s, address) && (result == address || IsFresh(s, result, |s.ops|)) && result != 0
    requires s1.live == s.live && |s1.ops| == |s.ops| + 1 && s1.ops[..|s.ops|] == s.ops
    requires Targets(s1.ops[|s.ops|], address)
    ensures IsFresh(s1, result, |s.ops|)
  {
    hide InHand;
    forall j | 0 <= j < |s1.ops| && j != |s.ops|
      ensures !Targets(s1.ops[j], result)
    {
      assert s1.ops[j] == s.ops[j];
    }
  }

  /** And a reallocation: the old block is taken, and the new one added, or the old one given back. */
  lemma UndisturbedRealloc(s: State, address: nat, size: nat, caller: nat, result: nat)
    requires WellFormed(s) && IsFreeToGiveUp(s, address) && caller != 0
    requires result == 0 || result == address || IsFresh(s, result, |s.ops|)
    ensures var (heap, prior) := Taken(s.heap, address);
            && Shaped(heap) && prior.group < GROUPS
            && IsDisciplinedRun(s, [EnterRealloc(address, size, caller), DoRealloc(|s.ops|, result),
                                    LeaveRealloc(|s.ops|)],
                 State(AfterRealloc(heap, prior, result, size, caller), s.ops + [Returned],
                       if result == 0 then s.live
                       else if size >= 8192 then (s.live - {address})[result := Owner(size, caller)]
                       else s.live - {address}))
  {
    hide Added, AfterRealloc, Taken, Shaped, IsFreeToGiveUp, IsFresh;
    var i := |s.ops|;
    var (heap, prior) := Taken(s.heap, address);
    var s1 := Apply(s, EnterRealloc(address, size, caller));
    if result != 0 { StaysFresh(s, s1, address, result); }
    StepStaysWellFormed(s, EnterRealloc(address, size, caller));
    var s2 := Apply(s1, DoRealloc(i, result));
    StepStaysWellFormed(s1, DoRealloc(i, result));
    assert s2.ops[i] == Reallocated(prior, size, caller, result) && Prior(s1.ops[i]) == prior;
    var t := State(AfterRealloc(heap, prior, result, size, caller), s.ops + [Returned], s2.live);
    assert t.ops == Apply(s2, LeaveRealloc(i)).ops;
    RunOfThree(s, EnterRealloc(address, size, caller), DoRealloc(i, result), LeaveRealloc(i), s1, s2, t);
  }
}
