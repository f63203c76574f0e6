// A bounded-probe hash table of live heap blocks, grouped by the caller that
// allocated them, kept by hooks around the heap's own operations.
module HeapProfile {
  import opened U64

  const SLOTS: nat := 65536
  const GROUPS: nat := 128
  const PROBES: nat := 128
  const SMALLEST: nat := 8192

  /** A slot is free when its key is zero. */
  datatype Block = Block(key: nat, size: nat, group: nat)

  datatype Group = Group(caller: nat, sum: nat, live: nat, calls: nat)

  const NO_BLOCK: Block := Block(0, 0, 0)

  datatype Heap = Heap(blocks: seq<Block>, groups: seq<Group>, lost: nat, reallocs: nat, failedFrees: nat)

  predicate Shaped(h: Heap) {
    && |h.blocks| == SLOTS && |h.groups| == GROUPS
    && (forall i :: 0 <= i < SLOTS ==> h.blocks[i].group < GROUPS)
  }

  // --------------------------------------------------------------------- probing

  const WRAP: nat := MAX + 1

  function Base(key: nat): (b: nat)
    ensures b < SLOTS
  {
    key / 16 * 2654435761 % WRAP % 0x1_0000_0000 % SLOTS
  }

  function Slot(key: nat, n: nat): (i: nat)
    ensures i < SLOTS
  {
    (Base(key) + n) % SLOTS
  }

  /** How far slot i lies beyond the base of a key. */
  function Distance(i: nat, key: nat): (n: nat)
    requires i < SLOTS
    ensures n < SLOTS && Slot(key, n) == i
  {
    (i + SLOTS - Base(key)) % SLOTS
  }

  lemma DistanceOfSlot(key: nat, n: nat)
    requires n < SLOTS
    ensures Distance(Slot(key, n), key) == n
  {
  }

  /** The first probe from n on whose slot has the wanted key, or PROBES. */
  function Probe(blocks: seq<Block>, key: nat, wanted: nat, n: nat): (r: nat)
    requires |blocks| == SLOTS && n <= PROBES
    ensures n <= r <= PROBES
    ensures r < PROBES ==> blocks[Slot(key, r)].key == wanted
    ensures forall m :: n <= m < r ==> blocks[Slot(key, m)].key != wanted
    decreases PROBES - n
  {
    if n == PROBES || blocks[Slot(key, n)].key == wanted then n else Probe(blocks, key, wanted, n + 1)
  }

  /** The group of a caller, or the first unused one, or GROUPS. */
  function GroupFor(groups: seq<Group>, caller: nat, g: nat): (r: nat)
    requires |groups| == GROUPS && g <= GROUPS
    ensures g <= r <= GROUPS
    ensures r < GROUPS ==> groups[r].caller == 0 || groups[r].caller == caller
    decreases GROUPS - g
  {
    if g == GROUPS || groups[g].caller == 0 || groups[g].caller == caller then g
    else GroupFor(groups, caller, g + 1)
  }

  /** Sixteen times a multiple of the 65536 slots lies between two keys of one base: the hash spreads all others. */
  lemma BasesSpread(key: nat, key': nat)
    ensures Base(key) == Base(key') <==> (key / 16 - key' / 16) % 65536 == 0
    ensures Base(16) == 31153
  {
    hide Base;
    LowBits(key);
    LowBits(key');
    LowBits(16);
    OddFactor(key / 16, key' / 16);
  }

  /** The wide product is only ever used in its low bits. */
  lemma LowBits(key: nat)
    ensures Base(key) == key / 16 * 31153 % 65536
  {
    var n := key / 16;
    var x := n * 2654435761;
    ModOfMods(x);
    SameMod(x, n * 31153, n * 40503);
  }

  lemma ModOfMods(x: nat)
    ensures x % WRAP % 0x1_0000_0000 % SLOTS == x % 65536
  {
    var y := x % WRAP;
    SameMod(x, y, x / WRAP * 0x1_0000_0000_0000);
    SameMod(y, y % 0x1_0000_0000, y / 0x1_0000_0000 * 65536);
  }

  lemma SameMod(x: int, y: int, k: int)
    requires x == y + 65536 * k
    ensures x % 65536 == y % 65536
  {
  }

  /** An odd factor has an inverse modulo a power of two. */
  lemma OddFactor(x: int, y: int)
    ensures x * 31153 % 65536 == y * 31153 % 65536 <==> (x - y) % 65536 == 0
  {
    var d := x - y;
    assert x * 31153 == y * 31153 + d * 31153;
    if d % 65536 == 0 {
      SameMod(x * 31153, y * 31153, d / 65536 * 31153);
    }
    if x * 31153 % 65536 == y * 31153 % 65536 {
      var q := Apart(x * 31153, y * 31153);
      SameMod(d, 0, q * 12113 - d * 5758);
    }
  }

  lemma Apart(x: int, y: int) returns (q: int)
    requires x % 65536 == y % 65536
    ensures x == y + 65536 * q
  {
    q := x / 65536 - y / 65536;
  }

  // ------------------------------------------------------------------- operations

  function WithLive(groups: seq<Group>, g: nat, live: int): seq<Group>
    requires g < |groups|
  {
    groups[g := groups[g].(live := live % WRAP)]
  }

  function Taken(h: Heap, key: nat): (Heap, Block)
    requires Shaped(h)
  {
    var n := Probe(h.blocks, key, key, 0);
    if key == 0 || n == PROBES then (h, NO_BLOCK)
    else
      var i := Slot(key, n);
      var b := h.blocks[i];
      (h.(blocks := h.blocks[i := b.(key := 0)],
          groups := WithLive(h.groups, b.group, h.groups[b.group].live - b.size)), b)
  }

  function PutIn(h: Heap, key: nat, size: nat, group: nat): Heap
    requires Shaped(h) && group < GROUPS
  {
    var n := Probe(h.blocks, key, 0, 0);
    if n == PROBES then h.(lost := h.lost + 1)
    else
      h.(blocks := h.blocks[Slot(key, n) := Block(key, size, group)],
         groups := WithLive(h.groups, group, h.groups[group].live + size))
  }

  function Added(h: Heap, key: nat, size: nat, caller: nat): Heap
    requires Shaped(h)
  {
    if key == 0 || size < SMALLEST then h
    else
      var g := GroupFor(h.groups, caller, 0);
      if g == GROUPS then h.(lost := h.lost + 1)
      else PutIn(h.(groups := Charged(h.groups, g, size, caller)), key, size, g)
  }

  function Charged(groups: seq<Group>, g: nat, size: nat, caller: nat): seq<Group>
    requires g < |groups|
  {
    var p := groups[g];
    groups[g := p.(caller := caller, sum := (p.sum + size) % WRAP, calls := (p.calls + 1) % WRAP)]
  }

  /** Put a block back that could not be freed or moved. */
  function Restored(h: Heap, prior: Block): Heap
    requires Shaped(h) && prior.group < GROUPS
  {
    if prior.key != 0 then PutIn(h, prior.key, prior.size, prior.group) else h
  }

  function AfterFree(h: Heap, prior: Block, ok: bool): Heap
    requires Shaped(h) && prior.group < GROUPS
  {
    if ok then h else Restored(h.(failedFrees := (h.failedFrees + 1) % WRAP), prior)
  }

  function AfterRealloc(h: Heap, prior: Block, result: nat, size: nat, caller: nat): Heap
    requires Shaped(h) && prior.group < GROUPS
  {
    var counted := h.(reallocs := (h.reallocs + 1) % WRAP);
    if result != 0 then Added(counted, result, size, caller) else Restored(counted, prior)
  }

  predicate IsTaken(blocks: seq<Block>, base: nat, n: nat)
    requires |blocks| == 65536
  {
    blocks[(base + n) % 65536].key != 0
  }

  lemma PutLosesExactlyWhenFull(h: Heap, key: nat, size: nat, group: nat)
    requires Shaped(h) && group < GROUPS
    ensures PutIn(h, key, size, group).lost
            == if forall n: nat :: n < 128 ==> IsTaken(h.blocks, Base(key), n) then h.lost + 1 else h.lost
  {
    hide Base;
    var n := Probe(h.blocks, key, 0, 0);
    if n < PROBES {
      assert !IsTaken(h.blocks, Base(key), n);
    } else {
      forall m: nat | m < 128
        ensures IsTaken(h.blocks, Base(key), m)
      {
        assert h.blocks[Slot(key, m)].key != 0;
      }
    }
  }

  /**
   * A block of at least 8192 bytes is lost if and only if all 128 groups belong to other callers, or
   * the 128 slots from its base on are all taken. A smaller one is never tracked.
   */
  lemma LostExactlyWhenFull(h: Heap, key: nat, size: nat, caller: nat)
    requires Shaped(h)
    ensures key == 0 || size < 8192 ==> Added(h, key, size, caller) == h
    ensures key != 0 && size >= 8192 ==>
              var noGroup := forall g :: 0 <= g < 128 ==> h.groups[g].caller !in {0, caller};
              var noSlot := forall n: nat :: n < 128 ==> IsTaken(h.blocks, Base(key), n);
              Added(h, key, size, caller).lost == if noGroup || noSlot then h.lost + 1 else h.lost
  {
    hide Base, PutIn, IsTaken;
    var g := GroupFor(h.groups, caller, 0);
    GroupIsFirst(h.groups, caller, 0);
    if g < GROUPS {
      assert h.groups[g].caller in {0, caller};
      PutLosesExactlyWhenFull(h.(groups := Charged(h.groups, g, size, caller)), key, size, g);
    }
  }

  lemma {:induction false} GroupIsFirst(groups: seq<Group>, caller: nat, g: nat)
    requires |groups| == GROUPS && g <= GROUPS
    ensures forall k :: g <= k < GroupFor(groups, caller, g) ==> groups[k].caller !in {0, caller}
    decreases GROUPS - g
  {
    if g < GROUPS { GroupIsFirst(groups, caller, g + 1); }
  }

  // ------------------------------------------------------------------ the hooks

  /** What one intercepted call carries from its entry to its return. */
  class Call {
    var address: nat
    var caller: nat
    var size: nat
    var prior: Block
    var nested: bool

    constructor ()
      ensures prior == NO_BLOCK
    {
      address, caller, size, prior, nested := 0, 0, 0, NO_BLOCK, false;
    }
  }

  class Profile {
    const blocks: array<Block>
    const groups: array<Group>
    var lost: nat
    var reallocs: nat
    var failedFrees: nat

    ghost function Value(): Heap
      reads this, blocks, groups
    {
      Heap(blocks[..], groups[..], lost, reallocs, failedFrees)
    }

    ghost predicate Valid()
      reads this, blocks, groups
    {
      Shaped(Value())
    }

    constructor ()
      ensures Valid() && fresh(blocks) && fresh(groups) && Value() == EmptyHeap()
    {
      var b := new Block[SLOTS](_ => NO_BLOCK);
      var g := new Group[GROUPS](_ => Group(0, 0, 0, 0));
      blocks, groups, lost, reallocs, failedFrees := b, g, 0, 0, 0;
      new;
      assert blocks[..] == EmptyHeap().blocks && groups[..] == EmptyHeap().groups;
    }

    method Take(key: nat) returns (result: Block)
      requires Valid()
      modifies this, blocks, groups
      ensures Valid() && (Value(), result) == Taken(old(Value()), key)
    {
      hide Base, Slot;
      result := NO_BLOCK;
      if key == 0 {
        return;
      }
      var n := 0;
      while n < PROBES
        invariant n <= PROBES && Value() == old(Value()) && result == NO_BLOCK
        invariant Probe(blocks[..], key, key, 0) == Probe(blocks[..], key, key, n)
      {
        var i := Slot(key, n);
        if blocks[i].key == key {
          result := blocks[i];
          blocks[i] := result.(key := 0);
          groups[result.group] := groups[result.group].(live := (groups[result.group].live - result.size) % WRAP);
          return;
        }
        n := n + 1;
      }
    }

    method Put(key: nat, size: nat, group: nat)
      requires Valid() && group < GROUPS
      modifies this, blocks, groups
      ensures Valid() && Value() == PutIn(old(Value()), key, size, group)
    {
      hide Base, Slot;
      var n := 0;
      while n < PROBES
        invariant n <= PROBES && Value() == old(Value())
        invariant Probe(blocks[..], key, 0, 0) == Probe(blocks[..], key, 0, n)
      {
        var i := Slot(key, n);
        if blocks[i].key == 0 {
          blocks[i] := Block(key, size, group);
          groups[group] := groups[group].(live := (groups[group].live + size) % WRAP);
          return;
        }
        n := n + 1;
      }
      lost := lost + 1;
    }

    method Add(key: nat, size: nat, caller: nat)
      requires Valid()
      modifies this, blocks, groups
      ensures Valid() && Value() == Added(old(Value()), key, size, caller)
    {
      hide PutIn;
      if key == 0 || size < SMALLEST {
        return;
      }
      var g := 0;
      while g < GROUPS
        invariant g <= GROUPS && Value() == old(Value())
        invariant GroupFor(groups[..], caller, 0) == GroupFor(groups[..], caller, g)
      {
        if groups[g].caller == 0 || groups[g].caller == caller {
          groups[g] := groups[g].(caller := caller, sum := (groups[g].sum + size) % WRAP,
                                  calls := (groups[g].calls + 1) % WRAP);
          assert Value() == old(Value()).(groups := Charged(old(groups[..]), g, size, caller));
          Put(key, size, g);
          return;
        }
        g := g + 1;
      }
      lost := lost + 1;
    }

    method AllocEnter(c: Call, depth: int, size: nat, returnAddress: nat)
      modifies c
      ensures c.nested == (depth != 0) && c.size == size && c.caller == returnAddress
    {
      c.nested := depth != 0;
      c.size := size;
      c.caller := returnAddress;
    }

    method AllocLeave(c: Call, result: nat)
      requires Valid()
      modifies this, blocks, groups
      ensures Valid() && Value() == if c.nested then old(Value()) else Added(old(Value()), result, c.size, c.caller)
    {
      if c.nested {
        return;
      }
      Add(result, c.size, c.caller);
    }

    method FreeEnter(c: Call, depth: int, address: nat)
      requires Valid()
      modifies this, blocks, groups, c
      ensures Valid() && c.nested == (depth != 0)
      ensures if c.nested then Value() == old(Value()) && c.prior == old(c.prior)
              else (Value(), c.prior) == Taken(old(Value()), address)
    {
      c.nested := depth != 0;
      if c.nested {
        return;
      }
      c.address := address;
      c.prior := Take(c.address);
    }

    method FreeLeave(c: Call, succeeded: bool)
      requires Valid() && c.prior.group < GROUPS
      modifies this, blocks, groups
      ensures Valid() && Value() == if c.nested then old(Value()) else AfterFree(old(Value()), c.prior, succeeded)
    {
      if succeeded {
        return;
      }
      if c.nested {
        return;
      }
      failedFrees := (failedFrees + 1) % WRAP;
      if c.prior.key != 0 {
        Put(c.prior.key, c.prior.size, c.prior.group);
      }
    }

    method ReallocEnter(c: Call, depth: int, address: nat, size: nat, returnAddress: nat)
      requires Valid()
      modifies this, blocks, groups, c
      ensures Valid() && c.nested == (depth != 0) && c.size == size && c.caller == returnAddress
      ensures if c.nested then Value() == old(Value()) && c.prior == old(c.prior)
              else (Value(), c.prior) == Taken(old(Value()), address)
    {
      FreeEnter(c, depth, address);
      c.size := size;
      c.caller := returnAddress;
    }

    method ReallocLeave(c: Call, result: nat)
      requires Valid() && c.prior.group < GROUPS
      modifies this, blocks, groups
      ensures Valid()
      ensures Value() == if c.nested then old(Value())
                         else AfterRealloc(old(Value()), c.prior, result, c.size, c.caller)
    {
      if c.nested {
        return;
      }
      reallocs := (reallocs + 1) % WRAP;
      if result != 0 {
        Add(result, c.size, c.caller);
      } else if c.prior.key != 0 {
        Put(c.prior.key, c.prior.size, c.prior.group);
      }
    }
  }

  function EmptyHeap(): Heap {
    Heap(seq(SLOTS, _ => NO_BLOCK), seq(GROUPS, _ => Group(0, 0, 0, 0)), 0, 0, 0)
  }
}
