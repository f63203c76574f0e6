// The callback over time: admission, resets, and blocks rendered from the pending queue.
module CallbackRuns {
  import opened Wrappers
  import opened U64
  import opened MidiPlayback
  import opened CallbackMidi

  /** What is fixed while the callback runs. */
  datatype Setup = Setup(sampleRate: u64, capacity: nat, maxPending: nat)

  /**
   * One thing that happens: a packet is taken from the ring, the generation changes, the ring fills,
   * or a block is rendered.
   */
  datatype Step =
    | Enqueue(packet: MidiPacket)
    | NewGeneration
    | Ring(waiting: seq<MidiPacket>)
    | Render(frames: u64, nowUs: u64, available: nat, accepts: bool)

  /**
   * The callback's queue, and what happened since the last reset: the packets enqueued,
   * how many of them admission dropped, those the plug-in has taken, the blocks rendered,
   * and the batch submitted in each.
   */
  datatype History = History(queue: Queue, enqueued: seq<MidiPacket>, dropped: nat, taken: seq<MidiPacket>,
                             blocks: seq<Block>, batches: seq<seq<RackEvent>>)

  /** After a reset only what is given here is pending, and the clock has no cursor. */
  function Fresh(pending: seq<MidiPacket>, ring: seq<MidiPacket>): History {
    History(Queue(pending, ring, None), pending, 0, [], [], [])
  }

  function Next(h: History, setup: Setup, step: Step): History {
    var q := h.queue;
    match step
    case Enqueue(p) =>
      var a := Admit(q.pending, p, setup.maxPending, IsRelease, IsNoteOn);
      if a.reset then Fresh(a.pending, q.ring)
      else h.(queue := q.(pending := a.pending), enqueued := h.enqueued + [p], dropped := h.dropped + a.dropped)
    case NewGeneration => Fresh([], q.ring)
    case Ring(waiting) => h.(queue := q.(ring := waiting))
    case Render(frames, nowUs, available, accepts) =>
      var (after, events) := Submit(q, setup.sampleRate, setup.capacity, frames, nowUs, available, accepts);
      SubmitTakesAPrefix(q, setup, frames, nowUs, available, accepts);
      Extended(h, after, events, BlockFor(q, frames, setup.sampleRate, nowUs))
  }

  /** The history with one more block rendered, which took what `after` no longer has. */
  function Extended(h: History, after: Queue, events: seq<RackEvent>, timing: Timing): History
    requires |after.pending| <= |h.queue.pending|
  {
    var taken := h.queue.pending[..|h.queue.pending| - |after.pending|];
    History(after, h.enqueued, h.dropped, h.taken + taken,
            h.blocks + [Rendering(h.queue, after, timing, taken)], h.batches + [events])
  }

  /** A rendered block as the clock sees it: what was oldest, what was taken, and where the clock waits now. */
  function Rendering(q: Queue, after: Queue, timing: Timing, taken: seq<MidiPacket>): Block {
    Block(timing, FrontStamp(q.pending), Stamps(taken), WaitsAt(after))
  }

  /** The next event, or the cursor if that is further. */
  function WaitsAt(q: Queue): Option<u64> {
    var next := NextStamp(q.pending, q.ring);
    if next.Some? && q.cursor.Some? then Some(Max(next.value, q.cursor.value)) else next
  }

  function Run(h: History, setup: Setup, steps: seq<Step>): History
    decreases |steps|
  {
    if steps == [] then h else Run(Next(h, setup, steps[0]), setup, steps[1..])
  }

  /** A due prefix of the queue was taken and its events placed by the block's clock, or the batch was rejected. */
  ghost predicate Takes(q: Queue, timing: Timing, after: Queue, events: seq<RackEvent>) {
    var n := |q.pending| - |after.pending|;
    && 0 <= n <= |q.pending| && after.pending == q.pending[n..] && after.ring == q.ring
    && EventKinds(events) == Kinds(q.pending[..n])
    && EventOffsets(events) == Offsets(timing, Stamps(q.pending[..n]))
    && (forall i :: 0 <= i < n ==> q.pending[i].timestampUs <= timing.endUs)
    && (after.cursor == Committed(timing, NextStamp(after.pending, after.ring)) || (after == q && q.pending != []))
  }

  lemma ConsumingTakes(q: Queue, timing: Timing, scan: nat, limit: nat)
    ensures var r := Scan(timing, q.pending, scan, limit);
            Takes(q, timing, AfterConsuming(q, timing, r.consumed), r.events)
  {
    ScanTakesAPrefix(timing, q.pending, scan, limit);
    ScanStopsOnlyWhenItMust(timing, q.pending, scan, limit);
    hide Offsets, Committed, Scan, EventKinds, EventOffsets, FrontStamp, NextStamp, Kinds, Stamps;
  }

  lemma RejectingTakesNothing(q: Queue, timing: Timing)
    requires q.pending != []
    ensures Takes(q, timing, q, [])
  {
    assert q.pending[..0] == [] && q.pending[0..] == q.pending;
    assert EventKinds([]) == [] && EventOffsets([]) == [];
    hide Committed, EventKinds, EventOffsets, FrontStamp, NextStamp;
  }

  /** A submission takes a due prefix of the queue, and places its events by the block's clock. */
  lemma SubmitTakesAPrefix(q: Queue, setup: Setup, frames: u64, nowUs: u64, available: nat, accepts: bool)
    ensures var (after, events) := Submit(q, setup.sampleRate, setup.capacity, frames, nowUs, available, accepts);
            Takes(q, BlockFor(q, frames, setup.sampleRate, nowUs), after, events) && |after.pending| <= |q.pending|
  {
    var timing, limit := BlockFor(q, frames, setup.sampleRate, nowUs), Min(available, setup.capacity);
    ConsumingTakes(q, timing, setup.capacity, limit);
    if q.pending != [] { RejectingTakesNothing(q, timing); }
    hide Offsets, Committed, EventKinds, EventOffsets, FrontStamp, NextStamp, Kinds, Stamps, Begin;
  }

  // ------------------------------------------------ what is delivered, and how often

  /** `a` is `b` with some packets left out. */
  predicate IsPart(a: seq<MidiPacket>, b: seq<MidiPacket>) {
    if b == [] then a == []
    else
      || (a != [] && a[|a| - 1] == b[|b| - 1] && IsPart(a[..|a| - 1], b[..|b| - 1]))
      || IsPart(a, b[..|b| - 1])
  }

  lemma PartAndOne(a: seq<MidiPacket>, b: seq<MidiPacket>, p: MidiPacket)
    requires IsPart(a, b)
    ensures IsPart(a + [p], b + [p]) && IsPart(a, b + [p])
  {
    assert (a + [p])[..|a|] == a && (b + [p])[..|b|] == b;
  }

  lemma {:induction false} PartWithout(a: seq<MidiPacket>, b: seq<MidiPacket>, i: nat)
    requires IsPart(a, b) && i < |a|
    ensures IsPart(Without(a, i), b)
    decreases |b|
  {
    var b' := b[..|b| - 1];
    if IsPart(a, b') {
      PartWithout(a, b', i);
    } else {
      var a' := a[..|a| - 1];
      if i == |a| - 1 {
        assert Without(a, i) == a';
      } else {
        PartWithout(a', b', i);
        assert Without(a, i)[..|a| - 2] == Without(a', i);
        assert Without(a, i)[|a| - 2] == a[|a| - 1];
      }
    }
  }

  lemma {:induction false} PartOfOneLength(a: seq<MidiPacket>, b: seq<MidiPacket>)
    requires IsPart(a, b)
    ensures |a| <= |b| && (|a| == |b| ==> a == b)
    decreases |b|
  {
    if b != [] {
      var b' := b[..|b| - 1];
      if IsPart(a, b') {
        PartOfOneLength(a, b');
      } else {
        PartOfOneLength(a[..|a| - 1], b');
        assert a == a[..|a| - 1] + [a[|a| - 1]] && b == b' + [b[|b| - 1]];
      }
    }
  }

  /** The events the plug-in received, in order. */
  function Delivered(batches: seq<seq<RackEvent>>): seq<RackKind> {
    if batches == [] then [] else Delivered(batches[..|batches| - 1]) + EventKinds(batches[|batches| - 1])
  }

  /** When they were made. */
  function StampsOf(blocks: seq<Block>): seq<u64> {
    if blocks == [] then [] else StampsOf(blocks[..|blocks| - 1]) + blocks[|blocks| - 1].stamps
  }

  lemma StampsOfFirst(packets: seq<MidiPacket>)
    requires packets != []
    ensures Stamps(packets) == (if Converts(packets[0]) then [packets[0].timestampUs] else []) + Stamps(packets[1..])
  {
  }

  lemma {:induction false} StampsConcat(a: seq<MidiPacket>, b: seq<MidiPacket>)
    ensures Stamps(a + b) == Stamps(a) + Stamps(b)
    decreases |a|
  {
    if a == [] {
      assert a + b == b;
    } else {
      hide Stamps, Converts;
      assert (a + b)[1..] == a[1..] + b && (a + b)[0] == a[0];
      StampsConcat(a[1..], b);
      StampsOfFirst(a);
      StampsOfFirst(a + b);
    }
  }

  /**
   * What the plug-in received is what was taken. Taken and pending packets are the enqueued
   * ones, in order and once each, except those counted as dropped, and no release is among these.
   */
  ghost predicate Conserved(h: History) {
    var kept := h.taken + h.queue.pending;
    && Delivered(h.batches) == Kinds(h.taken) && StampsOf(h.blocks) == Stamps(h.taken)
    && ReleasesIn(kept) == ReleasesIn(h.enqueued)
    && IsPart(kept, h.enqueued) && |kept| + h.dropped == |h.enqueued|
  }

  lemma PartAfterEviction(taken: seq<MidiPacket>, pending: seq<MidiPacket>, i: nat, p: MidiPacket,
                          enqueued: seq<MidiPacket>)
    requires IsPart(taken + pending, enqueued) && i < |pending|
    ensures IsPart(taken + (Without(pending, i) + [p]), enqueued + [p])
  {
    hide IsPart;
    PartWithout(taken + pending, enqueued, |taken| + i);
    assert Without(taken + pending, |taken| + i) == taken + Without(pending, i);
    PartAndOne(taken + Without(pending, i), enqueued, p);
    assert taken + (Without(pending, i) + [p]) == taken + Without(pending, i) + [p];
  }

  lemma AdmissionKeepsOrder(taken: seq<MidiPacket>, pending: seq<MidiPacket>, p: MidiPacket, max: nat,
                            enqueued: seq<MidiPacket>)
    requires IsPart(taken + pending, enqueued)
    ensures var a := Admit(pending, p, max, IsRelease, IsNoteOn);
            !a.reset ==> IsPart(taken + a.pending, enqueued + [p])
  {
    hide IsRelease, IsNoteOn, Admit, IsPart, Without;
    AdmissionCases(pending, p, max);
    PartAndOne(taken + pending, enqueued, p);
    assert taken + (pending + [p]) == taken + pending + [p];
    var a := Admit(pending, p, max, IsRelease, IsNoteOn);
    if i: nat :| i < |pending| && !IsRelease(pending[i]) && a == Admission(Without(pending, i) + [p], 1, false) {
      PartAfterEviction(taken, pending, i, p, enqueued);
    }
  }

  lemma AdmissionKeepsAllReleases(taken: seq<MidiPacket>, pending: seq<MidiPacket>, p: MidiPacket, max: nat,
                                  enqueued: seq<MidiPacket>)
    requires ReleasesIn(taken + pending) == ReleasesIn(enqueued)
    ensures var a := Admit(pending, p, max, IsRelease, IsNoteOn);
            !a.reset ==> ReleasesIn(taken + a.pending) == ReleasesIn(enqueued + [p])
  {
    hide IsRelease, IsNoteOn, Admit;
    var a := Admit(pending, p, max, IsRelease, IsNoteOn);
    AdmissionKeepsReleases(pending, p, max);
    ReleasesConcat(taken, pending);
    ReleasesConcat(taken, a.pending);
    ReleasesConcat(enqueued, [p]);
    assert ReleasesIn([p]) == if IsRelease(p) then [p] else [];
  }

  lemma EnqueueConserves(h: History, setup: Setup, p: MidiPacket)
    requires Conserved(h)
    ensures Conserved(Next(h, setup, Enqueue(p)))
  {
    var pending, max := h.queue.pending, setup.maxPending;
    AdmissionKeepsReleases(pending, p, max);
    AdmissionKeepsOrder(h.taken, pending, p, max, h.enqueued);
    AdmissionKeepsAllReleases(h.taken, pending, p, max, h.enqueued);
    FreshIsConserved([p], h.queue.ring);
    hide IsRelease, IsNoteOn, Admit, ReleasesIn, IsPart, Kinds, Delivered, Stamps, StampsOf;
  }

  lemma FreshIsConserved(pending: seq<MidiPacket>, ring: seq<MidiPacket>)
    requires |pending| <= 1
    ensures Conserved(Fresh(pending, ring))
  {
    if pending != [] { PartAndOne([], [], pending[0]); }
    assert [] + pending == pending;
  }

  lemma DeliveredNext(batches: seq<seq<RackEvent>>, events: seq<RackEvent>)
    ensures Delivered(batches + [events]) == Delivered(batches) + EventKinds(events)
  {
    hide EventKinds;
    assert (batches + [events])[..|batches|] == batches;
  }

  lemma StampsOfNext(blocks: seq<Block>, b: Block)
    ensures StampsOf(blocks + [b]) == StampsOf(blocks) + b.stamps
  {
    assert (blocks + [b])[..|blocks|] == blocks;
  }

  lemma SplitQueue(taken: seq<MidiPacket>, pending: seq<MidiPacket>, n: nat)
    requires n <= |pending|
    ensures taken + pending[..n] + pending[n..] == taken + pending
  {
  }

  lemma ExtendingConserves(h: History, after: Queue, events: seq<RackEvent>, timing: Timing)
    requires Conserved(h) && Takes(h.queue, timing, after, events)
    ensures Conserved(Extended(h, after, events, timing))
  {
    var q, n := h.queue, |h.queue.pending| - |after.pending|;
    hide Offsets, Committed, ReleasesIn, IsPart, Kinds, Stamps, FrontStamp, NextStamp;
    hide EventKinds, EventOffsets;
    hide Delivered, StampsOf;
    DeliveredNext(h.batches, events);
    StampsOfNext(h.blocks, Rendering(q, after, timing, q.pending[..n]));
    KindsConcat(h.taken, q.pending[..n]);
    StampsConcat(h.taken, q.pending[..n]);
    SplitQueue(h.taken, q.pending, n);
  }

  lemma StepConserves(h: History, setup: Setup, step: Step)
    requires Conserved(h)
    ensures Conserved(Next(h, setup, step))
  {
    match step
    case Enqueue(p) => EnqueueConserves(h, setup, p);
    case NewGeneration => FreshIsConserved([], h.queue.ring);
    case Ring(_) =>
    case Render(frames, nowUs, available, accepts) =>
      var (after, events) := Submit(h.queue, setup.sampleRate, setup.capacity, frames, nowUs, available, accepts);
      SubmitTakesAPrefix(h.queue, setup, frames, nowUs, available, accepts);
      ExtendingConserves(h, after, events, BlockFor(h.queue, frames, setup.sampleRate, nowUs));
      hide Submit, BlockFor, Conserved, Extended;
  }

  /**
   * Exactly once, in order, and never without its releases: whatever admission does, whatever
   * capacity the backend has and whichever batches it rejects, over any run with resets.
   */
  lemma {:induction false} DeliveryIsExactlyOnce(h: History, setup: Setup, steps: seq<Step>)
    requires Conserved(h)
    ensures Conserved(Run(h, setup, steps))
    decreases |steps|
  {
    if steps != [] {
      StepConserves(h, setup, steps[0]);
      DeliveryIsExactlyOnce(Next(h, setup, steps[0]), setup, steps[1..]);
    }
  }

  /** As long as nothing was dropped since the last reset, every packet enqueued is taken or pending. */
  lemma NothingDroppedMeansNothingMissing(ring: seq<MidiPacket>, setup: Setup, steps: seq<Step>)
    ensures var h := Run(Fresh([], ring), setup, steps);
            h.dropped == 0 ==>
              && h.taken + h.queue.pending == h.enqueued
              && Delivered(h.batches) + Kinds(h.queue.pending) == Kinds(h.enqueued)
  {
    FreshIsConserved([], ring);
    DeliveryIsExactlyOnce(Fresh([], ring), setup, steps);
    var h := Run(Fresh([], ring), setup, steps);
    PartOfOneLength(h.taken + h.queue.pending, h.enqueued);
    KindsConcat(h.taken, h.queue.pending);
  }

  // -------------------------------------------------- the spacing of submitted events

  /** Timestamps never decrease and none is earlier than `from`. */
  ghost predicate InOrder(packets: seq<MidiPacket>, from: int) {
    && (forall i :: 0 <= i < |packets| ==> from <= packets[i].timestampUs)
    && (forall i, j :: 0 <= i <= j < |packets| ==> packets[i].timestampUs <= packets[j].timestampUs)
  }

  /** The source time up to which everything has been handed to the plug-in since the last reset. */
  function HandedTo(blocks: seq<Block>): int {
    if blocks == [] then 0 else blocks[|blocks| - 1].Handed()
  }

  /**
   * What a callback can check before it renders: block size stays the same and time does not go
   * back; the packets waiting are in order, none from before the block's start; and a clock
   * without a cursor is asked within a period, or has a packet waiting that is late. What
   * arrives when, and whatever waits in the ring, is free.
   */
  ghost predicate Timely(h: History, setup: Setup, frames: u64, step: Step) {
    match step
    case Render(size, nowUs, _, _) =>
      && size == frames
      && InOrder(h.queue.pending, BlockFor(h.queue, frames, setup.sampleRate, nowUs).startUs)
      && (h.blocks != [] ==>
            && nowUs >= h.blocks[|h.blocks| - 1].timing.nowUs
            && (h.queue.cursor.None? ==>
                  || nowUs <= HandedTo(h.blocks) + Period(frames, setup.sampleRate)
                  || (h.queue.pending != [] && h.queue.pending[0].timestampUs <= HandedTo(h.blocks))))
    case _ => true
  }

  ghost predicate TimelyRun(h: History, setup: Setup, frames: u64, steps: seq<Step>)
    decreases |steps|
  {
    steps != [] ==> Timely(h, setup, frames, steps[0]) && TimelyRun(Next(h, setup, steps[0]), setup, frames, steps[1..])
  }

  /**
   * A packet that arrives late is within a timely run: made at any time before the end of the last
   * block, queued after it, and rendered by a block that comes at any time later.
   */
  lemma LateArrivalIsTimely(h: History, setup: Setup, frames: u64, p: MidiPacket, nowUs: u64, available: nat,
                            accepts: bool)
    requires h.queue.cursor.None? && h.blocks != [] && nowUs >= h.blocks[|h.blocks| - 1].timing.nowUs
    requires p.timestampUs <= HandedTo(h.blocks) && Next(h, setup, Enqueue(p)).queue.pending == [p]
    ensures TimelyRun(h, setup, frames, [Enqueue(p), Render(frames, nowUs, available, accepts)])
  {
    hide Admit, Submit, Period, Extended;
    var steps := [Enqueue(p), Render(frames, nowUs, available, accepts)];
    var next := Next(h, setup, Enqueue(p));
    assert steps[1..] == [Render(frames, nowUs, available, accepts)] && steps[1..][1..] == [];
    assert next.queue.cursor.None?;
    BeginShape(None, frames, setup.sampleRate, nowUs, Some(p.timestampUs));
    assert Timely(next, setup, frames, steps[1]);
    assert TimelyRun(Next(next, setup, steps[1]), setup, frames, []);
  }

  ghost predicate AllPaced(blocks: seq<Block>, batches: seq<seq<RackEvent>>, f: int, p: int) {
    && |batches| == |blocks|
    && forall i: nat :: i < |blocks| ==>
         PacedBlock(blocks, f, p, i) && EventOffsets(batches[i]) == Offsets(blocks[i].timing, blocks[i].stamps)
  }

  /** The blocks since the last reset keep pace, what was submitted is what they record, and the clock is in step. */
  ghost predicate InPace(h: History, setup: Setup, frames: u64) {
    && AllPaced(h.blocks, h.batches, Frames(frames), Period(frames, setup.sampleRate))
    && (h.queue.cursor.Some? ==>
          && h.blocks != [] && h.queue.cursor.value <= HandedTo(h.blocks)
          && h.queue.cursor.value <= h.blocks[|h.blocks| - 1].timing.nowUs)
  }

  lemma {:induction false} StampsInOrder(packets: seq<MidiPacket>, from: int, end: int)
    requires InOrder(packets, from) && forall i :: 0 <= i < |packets| ==> packets[i].timestampUs <= end
    ensures Sorted(Stamps(packets)) && forall i :: 0 <= i < |Stamps(packets)| ==> from <= Stamps(packets)[i] <= end
    decreases |packets|
  {
    hide ToRackKind;
    if packets != [] {
      StampsInOrder(packets[1..], packets[0].timestampUs, end);
    }
  }

  lemma TakenInOrder(pending: seq<MidiPacket>, n: nat, from: int, end: int)
    requires n <= |pending| && InOrder(pending, from) && forall i :: 0 <= i < n ==> pending[i].timestampUs <= end
    ensures var stamps := Stamps(pending[..n]);
            && Sorted(stamps) && (forall k :: 0 <= k < |stamps| ==> from <= stamps[k] <= end)
            && (forall k :: 0 <= k < |stamps| ==> pending != [] && pending[0].timestampUs <= stamps[k])
  {
    if n > 0 {
      hide Stamps, ToRackKind;
      StampsInOrder(pending[..n], Max(pending[0].timestampUs, from), end);
    }
  }

  /** The block a render step adds is paced after those before it. */
  lemma RenderedBlockIsPaced(q: Queue, after: Queue, frames: u64, sampleRate: u64, nowUs: u64, n: nat,
                             blocks: seq<Block>)
    requires n <= |q.pending| && after.pending == q.pending[n..]
    requires InOrder(q.pending, BlockFor(q, frames, sampleRate, nowUs).startUs)
    requires forall i :: 0 <= i < n ==> q.pending[i].timestampUs <= BlockFor(q, frames, sampleRate, nowUs).endUs
    requires blocks != [] ==> BlockFor(q, frames, sampleRate, nowUs).startUs <= HandedTo(blocks)
    ensures var b := Rendering(q, after, BlockFor(q, frames, sampleRate, nowUs), q.pending[..n]);
            PacedBlock(blocks + [b], Frames(frames), Period(frames, sampleRate), |blocks|)
  {
    var timing := BlockFor(q, frames, sampleRate, nowUs);
    BeginShape(q.cursor, frames, sampleRate, nowUs, FrontStamp(q.pending));
    TakenInOrder(q.pending, n, timing.startUs, timing.endUs);
    hide Begin, Period, Stamps, Span, InOrder;
  }

  /** A block begins no later than what was handed over. */
  lemma StartIsHandedOver(h: History, setup: Setup, frames: u64, step: Step)
    requires InPace(h, setup, frames) && step.Render? && Timely(h, setup, frames, step) && h.blocks != []
    ensures BlockFor(h.queue, frames, setup.sampleRate, step.nowUs).startUs <= HandedTo(h.blocks)
  {
    OnTimeStart(h.queue.cursor, frames, setup.sampleRate, step.nowUs, FrontStamp(h.queue.pending), HandedTo(h.blocks));
    hide AllPaced, Begin, Period;
  }

  /** An accepted submission leaves the cursor at what was handed over. */
  lemma AcceptedCursor(timing: Timing, next: Option<u64>, cursor: u64)
    requires Committed(timing, next) == Some(cursor) && timing.startUs <= timing.nowUs
    ensures cursor <= timing.nowUs
    ensures cursor == Block(timing, None, [], if next.Some? then Some(Max(next.value, cursor)) else next).Handed()
  {
  }

  /** A rejected one leaves it where it was, which the block has passed. */
  lemma RejectedCursor(cursor: u64, frames: u64, sampleRate: u64, nowUs: u64, front: u64, oldest: Option<u64>)
    requires cursor <= nowUs
    ensures var b := Begin(Some(cursor), frames, sampleRate, nowUs, oldest);
            cursor <= Block(b, None, [], Some(Max(front, cursor))).Handed() && b.nowUs == nowUs
  {
  }

  lemma CursorStaysBehind(q: Queue, after: Queue, events: seq<RackEvent>, frames: u64, sampleRate: u64, nowUs: u64)
    requires Takes(q, BlockFor(q, frames, sampleRate, nowUs), after, events)
    requires q.cursor.Some? ==> q.cursor.value <= nowUs
    ensures var timing := BlockFor(q, frames, sampleRate, nowUs);
            var b := Rendering(q, after, timing, q.pending[..|q.pending| - |after.pending|]);
            after.cursor.Some? ==> after.cursor.value <= b.Handed() && after.cursor.value <= b.timing.nowUs
  {
    hide Offsets, Begin, Stamps, Kinds, EventKinds, EventOffsets, Period, Committed;
    var timing := BlockFor(q, frames, sampleRate, nowUs);
    if after.cursor.Some? {
      if after.cursor == Committed(timing, NextStamp(after.pending, after.ring)) {
        BeginShape(q.cursor, frames, sampleRate, nowUs, FrontStamp(q.pending));
        AcceptedCursor(timing, NextStamp(after.pending, after.ring), after.cursor.value);
      } else {
        RejectedCursor(q.cursor.value, frames, sampleRate, nowUs, q.pending[0].timestampUs, FrontStamp(q.pending));
      }
    }
  }

  lemma BlocksStayPacedAfter(q: Queue, blocks: seq<Block>, batches: seq<seq<RackEvent>>, frames: u64, sampleRate: u64,
                             nowUs: u64, after: Queue, events: seq<RackEvent>)
    requires AllPaced(blocks, batches, Frames(frames), Period(frames, sampleRate))
    requires Takes(q, BlockFor(q, frames, sampleRate, nowUs), after, events) && |after.pending| <= |q.pending|
    requires InOrder(q.pending, BlockFor(q, frames, sampleRate, nowUs).startUs)
    requires blocks != [] ==> BlockFor(q, frames, sampleRate, nowUs).startUs <= HandedTo(blocks)
    ensures var taken := q.pending[..|q.pending| - |after.pending|];
            var b := Rendering(q, after, BlockFor(q, frames, sampleRate, nowUs), taken);
            AllPaced(blocks + [b], batches + [events], Frames(frames), Period(frames, sampleRate))
  {
    hide PacedBlock, AllPaced, Offsets, Period, Frames, InOrder, BlockFor, Takes, Rendering, EventOffsets, HandedTo;
    NewBlockIsPaced(q, after, events, frames, sampleRate, nowUs, blocks);
    var b := Rendering(q, after, BlockFor(q, frames, sampleRate, nowUs), q.pending[..|q.pending| - |after.pending|]);
    BlocksStayPaced(blocks, batches, b, events, Frames(frames), Period(frames, sampleRate));
  }

  lemma NewBlockIsPaced(q: Queue, after: Queue, events: seq<RackEvent>, frames: u64, sampleRate: u64, nowUs: u64,
                        blocks: seq<Block>)
    requires Takes(q, BlockFor(q, frames, sampleRate, nowUs), after, events) && |after.pending| <= |q.pending|
    requires InOrder(q.pending, BlockFor(q, frames, sampleRate, nowUs).startUs)
    requires blocks != [] ==> BlockFor(q, frames, sampleRate, nowUs).startUs <= HandedTo(blocks)
    ensures var timing := BlockFor(q, frames, sampleRate, nowUs);
            var b := Rendering(q, after, timing, q.pending[..|q.pending| - |after.pending|]);
            && PacedBlock(blocks + [b], Frames(frames), Period(frames, sampleRate), |blocks|)
            && EventOffsets(events) == Offsets(b.timing, b.stamps)
  {
    hide PacedBlock, Offsets, Period, Frames, InOrder, Stamps, BlockFor, NextStamp, FrontStamp, Committed;
    hide EventOffsets, EventKinds, Kinds, HandedTo;
    RenderedBlockIsPaced(q, after, frames, sampleRate, nowUs, |q.pending| - |after.pending|, blocks);
  }

  lemma ExtendingKeepsPace(h: History, setup: Setup, frames: u64, nowUs: u64, after: Queue, events: seq<RackEvent>)
    requires InPace(h, setup, frames)
    requires Takes(h.queue, BlockFor(h.queue, frames, setup.sampleRate, nowUs), after, events)
    requires |after.pending| <= |h.queue.pending|
    requires h.blocks != [] ==> h.blocks[|h.blocks| - 1].timing.nowUs <= nowUs
    requires InOrder(h.queue.pending, BlockFor(h.queue, frames, setup.sampleRate, nowUs).startUs)
    requires h.blocks != [] ==> BlockFor(h.queue, frames, setup.sampleRate, nowUs).startUs <= HandedTo(h.blocks)
    ensures InPace(Extended(h, after, events, BlockFor(h.queue, frames, setup.sampleRate, nowUs)), setup, frames)
  {
    var q, timing := h.queue, BlockFor(h.queue, frames, setup.sampleRate, nowUs);
    hide PacedBlock, AllPaced, Period, Frames, InOrder, BlockFor, Takes, Rendering;
    CursorStaysBehind(q, after, events, frames, setup.sampleRate, nowUs);
    BlocksStayPacedAfter(q, h.blocks, h.batches, frames, setup.sampleRate, nowUs, after, events);
  }

  lemma BlocksStayPaced(blocks: seq<Block>, batches: seq<seq<RackEvent>>, b: Block, events: seq<RackEvent>, f: int,
                        p: int)
    requires AllPaced(blocks, batches, f, p) && PacedBlock(blocks + [b], f, p, |blocks|)
    requires EventOffsets(events) == Offsets(b.timing, b.stamps)
    ensures AllPaced(blocks + [b], batches + [events], f, p)
  {
    hide PacedBlock, Offsets, EventOffsets;
    forall i: nat | i < |blocks|
      ensures PacedBlock(blocks + [b], f, p, i)
    {
      EarlierBlocksStayPaced(blocks, b, f, p, i);
    }
  }

  lemma RenderKeepsPace(h: History, setup: Setup, frames: u64, step: Step)
    requires InPace(h, setup, frames) && step.Render? && Timely(h, setup, frames, step)
    ensures InPace(Next(h, setup, step), setup, frames)
  {
    var (after, events) :=
      Submit(h.queue, setup.sampleRate, setup.capacity, frames, step.nowUs, step.available, step.accepts);
    SubmitTakesAPrefix(h.queue, setup, frames, step.nowUs, step.available, step.accepts);
    if h.blocks != [] { StartIsHandedOver(h, setup, frames, step); }
    hide Submit, BlockFor, Extended, InPace, Takes, InOrder;
    ExtendingKeepsPace(h, setup, frames, step.nowUs, after, events);
  }

  lemma EarlierBlocksStayPaced(blocks: seq<Block>, b: Block, f: int, p: int, i: nat)
    requires i < |blocks| && PacedBlock(blocks, f, p, i)
    ensures PacedBlock(blocks + [b], f, p, i)
  {
  }

  lemma StepKeepsPace(h: History, setup: Setup, frames: u64, step: Step)
    requires InPace(h, setup, frames) && Timely(h, setup, frames, step)
    ensures InPace(Next(h, setup, step), setup, frames)
  {
    hide PacedBlock, Offsets, Admit, InOrder;
    if step.Render? { RenderKeepsPace(h, setup, frames, step); }
  }

  lemma {:induction false} RunKeepsPace(h: History, setup: Setup, frames: u64, steps: seq<Step>)
    requires InPace(h, setup, frames) && TimelyRun(h, setup, frames, steps)
    ensures InPace(Run(h, setup, steps), setup, frames)
    decreases |steps|
  {
    hide InPace, Timely, Next;
    if steps != [] {
      StepKeepsPace(h, setup, frames, steps[0]);
      RunKeepsPace(Next(h, setup, steps[0]), setup, frames, steps[1..]);
    }
  }

  /** When an event was submitted: the output frame, counted from the last reset. */
  function SubmittedAt(h: History, f: int, i: nat, k: nat): int
    requires i < |h.batches| && k < |h.batches[i]|
  {
    i * f + h.batches[i][k].sampleOffset
  }

  /** When it was made. */
  function MadeAt(h: History, i: nat, k: nat): int
    requires i < |h.blocks| && k < |h.blocks[i].stamps|
  {
    h.blocks[i].stamps[k]
  }

  /** Two submitted events are as far apart as they were made, at half speed, less one frame. */
  ghost predicate SpacedAsMade(h: History, f: int, p: int, i: nat, k: nat, j: nat, l: nat)
    requires i <= j < |h.batches| == |h.blocks|
    requires k < |h.batches[i]| == |h.blocks[i].stamps| && l < |h.batches[j]| == |h.blocks[j].stamps|
  {
    AtHalfSpeed(SubmittedAt(h, f, j, l) - SubmittedAt(h, f, i, k) + 1, MadeAt(h, j, l) - MadeAt(h, i, k), f, p)
  }

  /**
   * Events submitted between two resets play at most twice as fast as they were made: over
   * every timely run, through admission, rejected batches and capacity spills, two of them
   * made d microseconds apart are at least d * frames / (2 * period) - 1 output frames apart.
   */
  lemma SubmittedEventsKeepTheSpacing(ring: seq<MidiPacket>, setup: Setup, frames: u64, steps: seq<Step>,
                                      i: nat, k: nat, j: nat, l: nat)
    requires Exact(frames, setup.sampleRate)
    requires TimelyRun(Fresh([], ring), setup, frames, steps)
    requires var h := Run(Fresh([], ring), setup, steps);
             i <= j < |h.batches| && k < |h.batches[i]| && l < |h.batches[j]| && (i == j ==> k <= l)
    ensures var h, f, p := Run(Fresh([], ring), setup, steps), Frames(frames), Period(frames, setup.sampleRate);
            && |h.blocks| == |h.batches|
            && |h.blocks[i].stamps| == |h.batches[i]| && |h.blocks[j].stamps| == |h.batches[j]|
            && SpacedAsMade(h, f, p, i, k, j, l)
  {
    RunKeepsPace(Fresh([], ring), setup, frames, steps);
    SubmittedInPace(Run(Fresh([], ring), setup, steps), setup, frames, i, k, j, l);
  }

  lemma SubmittedInPace(h: History, setup: Setup, frames: u64, i: nat, k: nat, j: nat, l: nat)
    requires InPace(h, setup, frames) && Exact(frames, setup.sampleRate)
    requires i <= j < |h.batches| && k < |h.batches[i]| && l < |h.batches[j]| && (i == j ==> k <= l)
    ensures |h.blocks| == |h.batches|
    ensures |h.blocks[i].stamps| == |h.batches[i]| && |h.blocks[j].stamps| == |h.batches[j]|
    ensures SpacedAsMade(h, Frames(frames), Period(frames, setup.sampleRate), i, k, j, l)
  {
    SubmittedEventsAreStamped(h, setup, frames, i, k);
    SubmittedEventsAreStamped(h, setup, frames, j, l);
    BlocksArePaced(h, setup, frames);
    hide Paced, Period, Offsets, Exact, InPace, Rendered, SubmittedAt, MadeAt, Stamp, AtHalfSpeed, SpacedAsMade;
    SubmittedAsRendered(h, Frames(frames), Period(frames, setup.sampleRate), i, k, j, l);
  }

  lemma SubmittedAsRendered(h: History, f: int, p: int, i: nat, k: nat, j: nat, l: nat)
    requires Paced(h.blocks, f, p) && i <= j < |h.batches| == |h.blocks| && (i == j ==> k <= l)
    requires k < |h.batches[i]| == |h.blocks[i].stamps| && l < |h.batches[j]| == |h.blocks[j].stamps|
    requires SubmittedAt(h, f, i, k) == Rendered(h.blocks, f, i, k) && MadeAt(h, i, k) == Stamp(h.blocks, i, k)
    requires SubmittedAt(h, f, j, l) == Rendered(h.blocks, f, j, l) && MadeAt(h, j, l) == Stamp(h.blocks, j, l)
    ensures SpacedAsMade(h, f, p, i, k, j, l)
  {
    PacedMeansSpaced(h.blocks, f, p, i, k, j, l);
    hide Paced, Rendered, SubmittedAt, MadeAt, Stamp, AtHalfSpeed;
  }

  lemma BlocksArePaced(h: History, setup: Setup, frames: u64)
    requires InPace(h, setup, frames) && Exact(frames, setup.sampleRate)
    ensures Paced(h.blocks, Frames(frames), Period(frames, setup.sampleRate))
  {
    hide PacedBlock, Offsets, InOrder, Period;
  }

  lemma SubmittedEventsAreStamped(h: History, setup: Setup, frames: u64, i: nat, k: nat)
    requires InPace(h, setup, frames) && i < |h.batches| && k < |h.batches[i]|
    ensures |h.blocks| == |h.batches| && |h.blocks[i].stamps| == |h.batches[i]|
    ensures SubmittedAt(h, Frames(frames), i, k) == Rendered(h.blocks, Frames(frames), i, k)
    ensures MadeAt(h, i, k) == Stamp(h.blocks, i, k)
  {
    hide PacedBlock, Offsets, Period, InOrder;
    assert |EventOffsets(h.batches[i])| == |h.batches[i]|;
    assert EventOffsets(h.batches[i])[k] == h.batches[i][k].sampleOffset;
  }
}
