// The MIDI source clock of the audio callback: it maps source timestamps to
// sample offsets and replays a backlog at no more than twice real time.
module MidiPlayback {
  import opened Wrappers
  import opened U64

  // ---------------------------------------------------------------- values

  /** What one audio block knows about source time. */
  datatype Timing = Timing(startUs: u64, endUs: u64, nowUs: u64, frames: u64, lastOffset: u64)

  function Frames(frames: u64): u64 {
    Max(frames, 1)
  }

  /** The nominal source time one block covers. */
  function Period(frames: u64, sampleRate: u64): (p: u64)
    ensures p >= 1
  {
    Max(SaturatingMul(Frames(frames), 1_000_000) / Max(sampleRate, 1), 1)
  }

  function LiveBlock(frames: u64, sampleRate: u64, nowUs: u64): Timing {
    Timing(SaturatingSub(nowUs, Period(frames, sampleRate)), nowUs, nowUs, Frames(frames), 0)
  }

  function StartOf(cursor: Option<u64>, live: Timing, oldest: Option<u64>): u64 {
    match cursor
    case Some(c) => c
    case None => oldest.GetOr(live.startUs)
  }

  function Begin(cursor: Option<u64>, frames: u64, sampleRate: u64, nowUs: u64, oldest: Option<u64>): Timing {
    var live := LiveBlock(frames, sampleRate, nowUs);
    var start := StartOf(cursor, live, oldest);
    if start < live.startUs then
      var period := Max(SaturatingSub(nowUs, live.startUs), 1);
      live.(startUs := start, endUs := Min(SaturatingAdd(start, SaturatingMul(period, 2)), nowUs))
    else
      live
  }

  function Committed(block: Timing, next: Option<u64>): Option<u64> {
    var cursor := if next.Some? then Min(next.value, block.endUs) else block.endUs;
    if cursor < block.nowUs then Some(Max(cursor, block.startUs)) else None
  }

  predicate Contains(block: Timing, stamp: u64) {
    stamp <= block.endUs
  }

  /** The span of source time the block's frames are spread over. */
  function Span(block: Timing): (l: int)
    ensures l >= 1
  {
    Max(SaturatingSub(block.endUs, block.startUs), 1)
  }

  function RawOffset(block: Timing, stamp: u64): (o: u64)
  {
    var scaled := SaturatingMul(SaturatingSub(stamp, block.startUs), block.frames);
    Min(Min(scaled / Span(block), SaturatingSub(block.frames, 1)), U32_MAX)
  }

  function AfterOffset(block: Timing, stamp: u64): Timing {
    block.(lastOffset := Max(block.lastOffset, RawOffset(block, stamp)))
  }

  // ----------------------------------------------------- the mutable objects

  class MidiBlockTiming {
    var startUs: u64
    var endUs: u64
    const nowUs: u64
    const frames: u64
    var lastOffset: u64

    function Value(): Timing
      reads this
    {
      Timing(startUs, endUs, nowUs, frames, lastOffset)
    }

    constructor (frames: u64, sampleRate: u64, nowUs: u64)
      ensures Value() == LiveBlock(frames, sampleRate, nowUs)
    {
      var count := Max(frames, 1);
      var periodUs := SaturatingMul(count, 1_000_000) / Max(sampleRate, 1);
      this.startUs := SaturatingSub(nowUs, Max(periodUs, 1));
      this.endUs := nowUs;
      this.nowUs := nowUs;
      this.frames := count;
      this.lastOffset := 0;
    }

    method Contains(stamp: u64) returns (inside: bool)
      ensures inside <==> stamp <= endUs
    {
      inside := stamp <= endUs;
    }

    method Offset(stamp: u64) returns (offset: u64)
      modifies this`lastOffset
      ensures Value() == AfterOffset(old(Value()), stamp)
      ensures offset == lastOffset
    {
      var scaled := SaturatingMul(SaturatingSub(stamp, startUs), frames);
      var raw := scaled / Max(SaturatingSub(endUs, startUs), 1);
      raw := Min(Min(raw, SaturatingSub(frames, 1)), U32_MAX);
      lastOffset := Max(lastOffset, raw);
      offset := lastOffset;
    }
  }

  class MidiPlaybackClock {
    var cursorUs: Option<u64>

    constructor ()
      ensures cursorUs == None
    {
      cursorUs := None;
    }

    method BeginBlock(frames: u64, sampleRate: u64, nowUs: u64, oldest: Option<u64>) returns (block: MidiBlockTiming)
      ensures fresh(block)
      ensures block.Value() == Begin(cursorUs, frames, sampleRate, nowUs, oldest)
    {
      block := new MidiBlockTiming(frames, sampleRate, nowUs);
      var start := if cursorUs.Some? then cursorUs.value else if oldest.Some? then oldest.value else block.startUs;
      if start < block.startUs {
        var period := Max(SaturatingSub(nowUs, block.startUs), 1);
        block.startUs := start;
        block.endUs := Min(SaturatingAdd(start, SaturatingMul(period, 2)), nowUs);
      }
    }

    method Commit(block: MidiBlockTiming, next: Option<u64>)
      modifies this
      ensures cursorUs == Committed(block.Value(), next)
    {
      var cursor := if next.Some? then Min(next.value, block.endUs) else block.endUs;
      cursorUs := if cursor < block.nowUs then Some(Max(cursor, block.startUs)) else None;
    }

    method Reset()
      modifies this
      ensures cursorUs == None
    {
      cursorUs := None;
    }
  }

  // ------------------------------------------------------- facts on one block

  /** A block never starts after a cursor it was given, and spans at most two periods. */
  lemma BeginShape(cursor: Option<u64>, frames: u64, sampleRate: u64, nowUs: u64, oldest: Option<u64>)
    ensures var b := Begin(cursor, frames, sampleRate, nowUs, oldest);
            && b.startUs <= b.endUs <= b.nowUs == nowUs
            && Span(b) <= 2 * Period(frames, sampleRate)
            && b.frames == Frames(frames) && b.lastOffset == 0
            && (cursor.Some? ==> b.startUs <= cursor.value)
            && (cursor.None? && oldest.Some? ==> b.startUs <= oldest.value)
  {
  }

  /** Whether saturation never shows in an offset: a block of two periods still reaches its last frame. */
  predicate Exact(frames: u64, sampleRate: u64) {
    2 * Period(frames, sampleRate) * (Frames(frames) - 1) <= MAX && Frames(frames) - 1 <= U32_MAX
  }

  /** Every block size up to a million frames is exact at every sample rate. */
  lemma RealisticBlocksAreExact(frames: u64, sampleRate: u64)
    requires frames <= 1_000_000
    ensures Exact(frames, sampleRate)
  {
    var f := Frames(frames);
    var p := Period(frames, sampleRate);
    PeriodBound(frames, sampleRate);
    MulMono(2 * p, 2_000_000_000_000, f - 1, 1_000_000);
  }

  lemma PeriodBound(frames: u64, sampleRate: u64)
    ensures Period(frames, sampleRate) <= Frames(frames) * 1_000_000 && Period(frames, sampleRate) <= MAX
  {
    DivShrinks(SaturatingMul(Frames(frames), 1_000_000), Max(sampleRate, 1));
  }

  lemma DivShrinks(a: int, b: int)
    requires a >= 0 && b >= 1
    ensures 0 <= a / b <= a
  {
    var q := a / b;
    assert a == q * b + a % b;
    if q > a { MulMono(q, q, 1, b); }
  }

  lemma MulMono(a: int, a': int, b: int, b': int)
    requires 0 <= a <= a' && 0 <= b <= b'
    ensures 0 <= a * b <= a' * b'
  {
    assert a * b <= a' * b;
    assert a' * b <= a' * b';
  }

  lemma DivMono(a: int, a': int, d: int)
    requires a <= a' && d >= 1
    ensures a / d <= a' / d
  {
    var q, q' := a / d, a' / d;
    assert a == q * d + a % d && a' == q' * d + a' % d;
    if q > q' { MulMono(1, q - q', d, d); }
  }

  lemma RawOffsetMono(block: Timing, s: u64, s': u64)
    requires s <= s'
    ensures RawOffset(block, s) <= RawOffset(block, s')
  {
    var d, d' := SaturatingSub(s, block.startUs), SaturatingSub(s', block.startUs);
    MulMono(d, d', block.frames, block.frames);
    DivMono(SaturatingMul(d, block.frames), SaturatingMul(d', block.frames), Span(block));
  }

  /** The offset is the exact rational position rounded down, except that the block's end stays inside it. */
  predicate Tracks(block: Timing, stamp: u64) {
    var o, l, x := RawOffset(block, stamp), Span(block), (stamp - block.startUs) * block.frames;
    o * l <= x <= (o + 1) * l && o < block.frames
  }

  lemma OffsetTracksSourceTime(block: Timing, stamp: u64, p: int)
    requires 2 * p * (block.frames - 1) <= MAX && 1 <= block.frames <= U32_MAX + 1
    requires Span(block) <= 2 * p
    requires block.startUs <= stamp <= block.endUs
    ensures Tracks(block, stamp)
  {
    var f, l, d := block.frames, Span(block), stamp - block.startUs;
    MulMono(0, d, f, f);
    MulMono(d, l, f, f);
    MulMono(l, 2 * p, f - 1, f - 1);
    CappedQuotient(d * f, l, f);
    hide Span;
  }

  /** Saturating a product before the division changes nothing that the last frame does not cap anyway. */
  lemma CappedQuotient(x: int, l: int, f: int)
    requires 0 <= x <= l * f && l >= 1 && f >= 1 && l * (f - 1) <= MAX
    ensures var o := Min(Min(x, MAX) / l, f - 1);
            o * l <= x <= (o + 1) * l && 0 <= o < f
  {
    var y := Min(x, MAX);
    var q := y / l;
    assert y == q * l + y % l;
    assert l * f == l * (f - 1) + l;
    if q >= f - 1 {
      MulMono(f - 1, q, l, l);
    } else {
      MulMono(q + 1, f - 1, l, l);
      assert (q + 1) * l == q * l + l;
    }
    if q < 0 { MulMono(1, -q, 1, l); }
  }

  // ------------------------------------------------------ the time a block stands for

  /** A quotient rounded down, in products alone. */
  lemma RoundedDown(x: int, d: int)
    requires x >= 0 && d >= 1
    ensures var q := x / d; q * d <= x < (q + 1) * d && q >= 0
  {
    var q := x / d;
    assert x == q * d + x % d;
    if q < 0 { MulMono(1, -q, 1, d); }
  }

  lemma OnlyRounded(x: int, d: int, q: int, n: int)
    requires d >= 1 && q * d <= x < (q + 1) * d
    ensures n * d >= x ==> n >= q
    ensures n * d < x ==> n <= q
    ensures x >= d ==> q >= 1
    ensures 0 <= x < d ==> q == 0
  {
    if n < q { MulMono(1, q - n, d, d); assert (q - n) * d == q * d - n * d; }
    if n > q { MulMono(1, n - q, d, d); assert (n - q) * d == n * d - q * d; }
    if q < 0 { MulMono(1, -q, d, d); }
    if q > 0 { MulMono(1, q, d, d); }
  }

  /**
   * A live block covers the time its frames take, rounded down to a microsecond: for every block size
   * and rate, none counting as one. A block of less than a microsecond covers one; one whose
   * microseconds saturate covers what the limit stands for; and no block starts before time zero.
   */
  lemma LiveBlockCoversItsFrames(frames: u64, sampleRate: u64, nowUs: u64)
    ensures var f, r := if frames == 0 then 1 else frames, if sampleRate == 0 then 1 else sampleRate;
            var us := if f * 1_000_000 > MAX then MAX else f * 1_000_000;
            var b := Begin(None, frames, sampleRate, nowUs, None);
            var t := (b.endUs as int) - b.startUs;
            && b.endUs == b.nowUs == nowUs && b.frames == f && b.lastOffset == 0
            && (us >= r && nowUs * r >= us ==> t * r <= us < (t + 1) * r)
            && (us >= r && nowUs * r < us ==> b.startUs == 0)
            && (us < r && nowUs > 0 ==> t == 1)
  {
    var f, r := Frames(frames), Max(sampleRate, 1);
    var us := SaturatingMul(f, 1_000_000);
    RoundedDown(us, r);
    OnlyRounded(us, r, us / r, nowUs);
  }

  /**
   * Live blocks called at the device's own cadence: from the block rendered at device time x / r to
   * the n-th after it, at (x + n * us) / r microseconds, each read to the microsecond below, the
   * blocks leave out less than one microsecond of source time each, and none at all when a block is a
   * whole number of microseconds.
   */
  lemma CadenceGaps(frames: u64, sampleRate: u64, x: int, n: nat, was: u64, now: u64)
    requires frames >= 1 && sampleRate >= 1 && sampleRate <= frames * 1_000_000 <= MAX
    requires frames * 1_000_000 <= was * sampleRate <= x < (was + 1) * sampleRate
    requires now * sampleRate <= x + n * (frames * 1_000_000) < (now + 1) * sampleRate
    ensures var b := Begin(None, frames, sampleRate, was, None);
            var t := (b.endUs as int) - b.startUs;
            && 0 <= (now - was) - n * t <= n
            && (frames * 1_000_000 % sampleRate == 0 ==> now - was == n * t)
  {
    var b := Begin(None, frames, sampleRate, was, None);
    LiveBlockCoversItsFrames(frames, sampleRate, was);
    Cadence(was, now, x, n, frames * 1_000_000, sampleRate, b.endUs - b.startUs);
  }

  lemma Cadence(was: int, now: int, x: int, n: int, us: int, r: int, t: int)
    requires r >= 1 && n >= 0 && t * r <= us < (t + 1) * r
    requires was * r <= x < (was + 1) * r && now * r <= x + n * us < (now + 1) * r
    ensures 0 <= (now - was) - n * t <= n
    ensures us % r == 0 ==> now - was == n * t
  {
    CadenceArithmetic(was, now, x, n, us, r, t);
    LeftOver(us, r, t);
    GapBound((now - was) - n * t, us - t * r, n, r);
    if us % r == 0 { WholeQuotient(us, r, t); }
  }

  lemma LeftOver(us: int, r: int, t: int)
    requires t * r <= us < (t + 1) * r
    ensures 0 <= us - t * r < r
  {
  }

  lemma GapBound(gap: int, left: int, n: int, r: int)
    requires r >= 1 && n >= 0 && 0 <= left < r && n * left - r < gap * r < n * left + r
    ensures 0 <= gap <= n && (left == 0 ==> gap == 0)
  {
    MulMono(n, n, left, r);
    assert (n + 1) * r == n * r + r;
    AtMost(-1, gap, r);
    AtMost(gap, n + 1, r);
    if left == 0 { AtMost(gap, 1, r); }
  }

  lemma CadenceArithmetic(was: int, now: int, x: int, n: int, us: int, r: int, t: int)
    requires was * r <= x < (was + 1) * r && now * r <= x + n * us < (now + 1) * r
    ensures n * (us - t * r) - r < ((now - was) - n * t) * r < n * (us - t * r) + r
  {
    assert n * (us - t * r) == n * us - (n * t) * r;
    assert ((now - was) - n * t) * r == now * r - was * r - (n * t) * r;
  }

  lemma AtMost(a: int, b: int, r: int)
    requires r >= 1 && a * r < b * r
    ensures a < b
  {
    assert (a - b) * r == a * r - b * r;
    if a >= b { MulMono(0, a - b, r, r); }
  }

  lemma WholeQuotient(x: int, r: int, t: int)
    requires r >= 1 && t * r <= x < (t + 1) * r && x % r == 0
    ensures x == t * r
  {
    var q := x / r;
    assert x == q * r;
    AtMost(q, t + 1, r);
    assert (t - q) * r == t * r - q * r;
    if q < t { MulMono(1, t - q, r, r); }
  }

  // -------------------------------------------------------- offsets of a batch

  /** The offsets handed to the backend when a block's events are placed one after the other. */
  function Offsets(block: Timing, stamps: seq<u64>): (os: seq<u64>)
    ensures |os| == |stamps|
    decreases |stamps|
  {
    if stamps == [] then [] else
      var next := AfterOffset(block, stamps[0]);
      [next.lastOffset] + Offsets(next, stamps[1..])
  }

  /** Whatever the timestamps do, a batch's offsets never decrease and stay inside the block. */
  lemma {:induction false} OffsetsAreOrdered(block: Timing, stamps: seq<u64>)
    requires block.lastOffset < block.frames
    ensures forall k :: 0 <= k < |stamps| ==>
              Max(block.lastOffset, RawOffset(block, stamps[k])) <= Offsets(block, stamps)[k] < block.frames
    ensures forall j, k :: 0 <= j <= k < |stamps| ==> Offsets(block, stamps)[j] <= Offsets(block, stamps)[k]
    decreases |stamps|
  {
    if stamps != [] {
      var next := AfterOffset(block, stamps[0]);
      OffsetsAreOrdered(next, stamps[1..]);
      forall k | 0 <= k < |stamps|
        ensures Max(block.lastOffset, RawOffset(block, stamps[k])) <= Offsets(block, stamps)[k] < block.frames
        ensures next.lastOffset <= Offsets(block, stamps)[k]
      {
        if k > 0 { assert RawOffset(block, stamps[k]) == RawOffset(next, stamps[1..][k - 1]); }
      }
      forall j, k | 0 <= j <= k < |stamps|
        ensures Offsets(block, stamps)[j] <= Offsets(block, stamps)[k]
      {
        if j > 0 { assert Offsets(next, stamps[1..])[j - 1] <= Offsets(next, stamps[1..])[k - 1]; }
      }
    }
  }

  ghost predicate Sorted(stamps: seq<u64>) {
    forall j, k :: 0 <= j <= k < |stamps| ==> stamps[j] <= stamps[k]
  }

  lemma {:induction false} SortedOffsets(block: Timing, stamps: seq<u64>, k: nat)
    requires Sorted(stamps) && k < |stamps|
    requires block.lastOffset <= RawOffset(block, stamps[0])
    ensures Offsets(block, stamps)[k] == RawOffset(block, stamps[k])
    decreases |stamps|
  {
    var next := AfterOffset(block, stamps[0]);
    if k > 0 {
      RawOffsetMono(block, stamps[0], stamps[1]);
      assert RawOffset(next, stamps[1..][0]) == RawOffset(block, stamps[1]);
      SortedOffsets(next, stamps[1..], k - 1);
      assert RawOffset(next, stamps[k]) == RawOffset(block, stamps[k]);
    }
  }

  // --------------------------------------------------------- runs of blocks, spacing

  /**
   * One rendered block: its timing, the oldest event waiting when it began, the timestamps
   * it delivered, and where the clock waits: at the oldest event left, or not at all.
   */
  datatype Block = Block(timing: Timing, oldest: Option<u64>, stamps: seq<u64>, next: Option<u64>) {
    function Cursor(): Option<u64> { Committed(timing, next) }

    /** The source time up to which everything has been handed over: the cursor, if the block leaves one. */
    function Handed(): u64 {
      Max(if next.Some? then Min(next.value, timing.endUs) else timing.endUs, timing.startUs)
    }

    /** Delivered events lie in the block, in order, from `from` and from the oldest event on. */
    ghost predicate Delivered(from: u64) {
      && Sorted(stamps)
      && (forall k :: 0 <= k < |stamps| ==> from <= stamps[k] <= timing.endUs)
      && (forall k :: 0 <= k < |stamps| ==> oldest.Some? && oldest.value <= stamps[k])
    }
  }

  lemma CursorIsHanded(b: Block)
    ensures b.Cursor().Some? ==> b.Cursor().value == b.Handed()
    ensures b.Cursor().None? && b.timing.startUs <= b.timing.endUs <= b.timing.nowUs ==> b.Handed() == b.timing.nowUs
  {
  }

  /**
   * Consecutive blocks of one size and rate, recovering or live. Each delivers its events in order,
   * none from before its own start; events of different blocks may come in any order.
   */
  ghost predicate Consecutive(run: seq<Block>, frames: u64, sampleRate: u64, cursor: Option<u64>) {
    && (run != [] ==>
          && run[0].timing == Begin(cursor, frames, sampleRate, run[0].timing.nowUs, run[0].oldest)
          && run[0].Delivered(run[0].timing.startUs))
    && (forall i {:trigger run[i]} :: 0 < i < |run| ==>
          && run[i].timing == Begin(run[i - 1].Cursor(), frames, sampleRate, run[i].timing.nowUs, run[i].oldest)
          && run[i].timing.nowUs >= run[i - 1].timing.nowUs
          && run[i].Delivered(run[i].timing.startUs))
  }

  /**
   * What a callback can check before it renders: after a block that left no cursor, it comes
   * within one period, or its oldest event is late, from before that block's end.
   */
  predicate OnTime(was: Block, now: Block, frames: u64, sampleRate: u64) {
    was.Cursor().None? ==>
      || now.timing.nowUs <= was.timing.nowUs + Period(frames, sampleRate)
      || (now.oldest.Some? && now.oldest.value <= was.timing.nowUs)
  }

  /** What the spacing argument needs of block i: f frames over at most two periods p, and no source time skipped. */
  ghost predicate PacedBlock(run: seq<Block>, f: int, p: int, i: nat)
    requires i < |run|
  {
    var b := run[i].timing;
    && b.startUs <= b.endUs && Span(b) <= 2 * p && b.frames == f && b.lastOffset == 0
    && run[i].Delivered(b.startUs)
    && (i > 0 ==> b.startUs <= run[i - 1].Handed())
  }

  ghost predicate Paced(run: seq<Block>, f: int, p: int) {
    && p >= 1 && 1 <= f <= U32_MAX + 1 && 2 * p * (f - 1) <= MAX
    && forall i: nat :: i < |run| ==> PacedBlock(run, f, p, i)
  }

  lemma OnTimeBlocksArePaced(run: seq<Block>, frames: u64, sampleRate: u64, cursor: Option<u64>, i: nat)
    requires Consecutive(run, frames, sampleRate, cursor) && i < |run|
    requires i > 0 ==> OnTime(run[i - 1], run[i], frames, sampleRate)
    ensures PacedBlock(run, Frames(frames), Period(frames, sampleRate), i)
  {
    var from := if i == 0 then cursor else run[i - 1].Cursor();
    BeginShape(from, frames, sampleRate, run[i].timing.nowUs, run[i].oldest);
    if i > 0 {
      BlockShape(run, frames, sampleRate, cursor, i - 1);
      CursorIsHanded(run[i - 1]);
      OnTimeStart(from, frames, sampleRate, run[i].timing.nowUs, run[i].oldest, run[i - 1].Handed());
    }
    hide Begin, Period, Span, Committed;
  }

  /** An on-time block starts no later than what was handed over. */
  lemma OnTimeStart(cursor: Option<u64>, frames: u64, sampleRate: u64, nowUs: u64, oldest: Option<u64>, handed: u64)
    requires cursor.Some? ==> cursor.value <= handed
    requires cursor.None? ==>
               nowUs <= handed + Period(frames, sampleRate) || (oldest.Some? && oldest.value <= handed)
    ensures Begin(cursor, frames, sampleRate, nowUs, oldest).startUs <= handed
  {
  }

  lemma BlockShape(run: seq<Block>, frames: u64, sampleRate: u64, cursor: Option<u64>, i: nat)
    requires Consecutive(run, frames, sampleRate, cursor) && i < |run|
    ensures run[i].timing.startUs <= run[i].timing.endUs <= run[i].timing.nowUs
  {
    BeginShape(if i == 0 then cursor else run[i - 1].Cursor(), frames, sampleRate, run[i].timing.nowUs, run[i].oldest);
  }

  /** The output frame, counted from the start of the run, at which an event is rendered. */
  function Stamp(run: seq<Block>, i: nat, k: nat): int
    requires i < |run| && k < |run[i].stamps|
  {
    run[i].stamps[k]
  }

  function Rendered(run: seq<Block>, f: int, i: nat, k: nat): int
    requires i < |run| && k < |run[i].stamps|
  {
    i * f + Offsets(run[i].timing, run[i].stamps)[k]
  }

  /** `frames` output frames at p microseconds per f are at least half of `us` microseconds. */
  predicate AtHalfSpeed(frames: int, us: int, f: int, p: int) {
    frames * (2 * p) >= us * f
  }

  lemma PacedOffset(run: seq<Block>, f: int, p: int, i: nat, k: nat)
    requires Paced(run, f, p) && i < |run| && k < |run[i].stamps|
    ensures PacedBlock(run, f, p, i)
    ensures var b := run[i].timing;
            var o, x := Offsets(b, run[i].stamps)[k], (run[i].stamps[k] - b.startUs) * f;
            o * Span(b) <= x <= (o + 1) * Span(b) && 0 <= o < f
  {
    assert PacedBlock(run, f, p, i);
    SortedOffsets(run[i].timing, run[i].stamps, k);
    OffsetTracksSourceTime(run[i].timing, run[i].stamps[k], p);
  }

  /** o frames into a block of span l leave room for the source time up to any point c of the block. */
  lemma RoomToTheEnd(f: int, p: int, l: int, o: int, d: int, c: int)
    requires 0 <= o <= f && 1 <= l <= 2 * p && o * l <= d * f && c <= l
    ensures (f - o) * (2 * p) >= (c - d) * f
  {
    MulMono(f - o, f - o, l, 2 * p);
    assert (f - o) * l == f * l - o * l;
    MulMono(0, l - c, f, f);
    assert (l - c) * f == l * f - c * f;
    assert (c - d) * f == c * f - d * f;
  }

  lemma SumOfProducts(a: int, b: int, q: int, x: int, y: int, f: int)
    requires a * q >= x * f && b * q >= y * f
    ensures (a + b) * q >= (x + y) * f
  {
    assert (a + b) * q == a * q + b * q;
    assert (x + y) * f == x * f + y * f;
  }

  lemma PaceStep(n: int, n': int, f: int, p: int, r: int, t: int, c: int, c': int)
    requires n' == n + f && AtHalfSpeed(n - r, c - t, f, p) && AtHalfSpeed(f, c' - c, f, p)
    ensures AtHalfSpeed(n' - r, c' - t, f, p)
  {
    SumOfProducts(n - r, f, 2 * p, c - t, c' - c, f);
  }

  /** From an event to the end of its own block. */
  lemma PaceToBlockEnd(run: seq<Block>, f: int, p: int, i: nat, k: nat)
    requires Paced(run, f, p) && i < |run| && k < |run[i].stamps|
    ensures (i + 1) * f >= Rendered(run, f, i, k)
    ensures AtHalfSpeed((i + 1) * f - Rendered(run, f, i, k), run[i].Handed() - Stamp(run, i, k), f, p)
  {
    var b := run[i].timing;
    var o := Offsets(b, run[i].stamps)[k];
    PacedOffset(run, f, p, i, k);
    hide Offsets, Committed;
    RoomToTheEnd(f, p, Span(b), o, Stamp(run, i, k) - b.startUs, run[i].Handed() - b.startUs);
    assert (i + 1) * f == i * f + f;
    assert (i + 1) * f - Rendered(run, f, i, k) == f - o;
  }

  /** A block advances source time by at most two periods. */
  lemma PaceOfBlock(run: seq<Block>, f: int, p: int, j: nat)
    requires Paced(run, f, p) && 0 < j < |run|
    ensures AtHalfSpeed(f, (run[j].Handed() as int) - run[j - 1].Handed(), f, p)
  {
    hide Offsets, Committed;
    var b := run[j].timing;
    assert PacedBlock(run, f, p, j);
    RoomToTheEnd(f, p, Span(b), 0, 0, run[j].Handed() - run[j - 1].Handed());
  }

  /** From an event to the source time handed over before a later block, output advances at half speed at least. */
  lemma {:induction false} CursorKeepsPace(run: seq<Block>, f: int, p: int, i: nat, k: nat, j: nat)
    requires Paced(run, f, p) && i < j < |run| && k < |run[i].stamps|
    ensures j * f >= Rendered(run, f, i, k)
    ensures AtHalfSpeed(j * f - Rendered(run, f, i, k), run[j - 1].Handed() - Stamp(run, i, k), f, p)
    decreases j
  {
    hide Rendered, Stamp, Paced, AtHalfSpeed;
    if j == i + 1 {
      PaceToBlockEnd(run, f, p, i, k);
    } else {
      CursorKeepsPace(run, f, p, i, k, j - 1);
      PaceOfBlock(run, f, p, j - 1);
      assert j * f == (j - 1) * f + f;
      assert f >= 1 by { FramesArePositive(run, f, p); }
      PaceStep((j - 1) * f, j * f, f, p, Rendered(run, f, i, k), Stamp(run, i, k), run[j - 2].Handed(),
          run[j - 1].Handed());
    }
  }

  lemma FramesArePositive(run: seq<Block>, f: int, p: int)
    requires Paced(run, f, p)
    ensures f >= 1 && p >= 1
  {
  }

  /** Two offsets in one block of span s are as far apart as their events, at half speed, less one frame. */
  lemma ApartInBlock(f: int, p: int, s: int, o: int, d: int, o': int, d': int)
    requires 0 <= o <= o' && 1 <= s <= 2 * p && o * s <= d * f && d' * f <= (o' + 1) * s
    ensures (o' - o + 1) * (2 * p) >= (d' - d) * f
  {
    MulMono(o' - o + 1, o' - o + 1, s, 2 * p);
    assert (o' - o + 1) * s == (o' + 1) * s - o * s;
    assert (d' - d) * f == d' * f - d * f;
  }

  /** Output frames between two events are at least half the source time between them, less one frame. */
  ghost predicate AtMostDoubleSpeed(run: seq<Block>, f: int, p: int, i: nat, k: nat, j: nat, l: nat)
    requires i <= j < |run| && k < |run[i].stamps| && l < |run[j].stamps|
  {
    AtHalfSpeed(Rendered(run, f, j, l) - Rendered(run, f, i, k) + 1, Stamp(run, j, l) - Stamp(run, i, k), f, p)
  }

  lemma SpacingInBlock(run: seq<Block>, f: int, p: int, i: nat, k: nat, l: nat)
    requires Paced(run, f, p) && i < |run| && k <= l < |run[i].stamps|
    ensures AtMostDoubleSpeed(run, f, p, i, k, i, l)
  {
    var b := run[i].timing;
    PacedOffset(run, f, p, i, k);
    PacedOffset(run, f, p, i, l);
    OffsetsAreOrdered(b, run[i].stamps);
    ApartInBlock(f, p, Span(b), Offsets(b, run[i].stamps)[k], run[i].stamps[k] - b.startUs,
                 Offsets(b, run[i].stamps)[l], run[i].stamps[l] - b.startUs);
  }

  /** An event `o` frames into its block keeps pace with the cursor in front of that block. */
  lemma PaceBeyondCursor(run: seq<Block>, f: int, p: int, j: nat, l: nat)
    requires Paced(run, f, p) && 0 < j < |run| && l < |run[j].stamps|
    ensures (Offsets(run[j].timing, run[j].stamps)[l] + 1) * (2 * p) >= (Stamp(run, j, l) - run[j - 1].Handed()) * f
  {
    var b := run[j].timing;
    PacedOffset(run, f, p, j, l);
    assert b.startUs <= run[j - 1].Handed();
    var d := run[j - 1].Handed() - b.startUs;
    MulMono(0, d, f, f);
    ApartInBlock(f, p, Span(b), 0, d, Offsets(b, run[j].stamps)[l], run[j].stamps[l] - b.startUs);
  }

  lemma SpacingAcrossBlocks(run: seq<Block>, f: int, p: int, i: nat, k: nat, j: nat, l: nat)
    requires Paced(run, f, p) && i < j < |run| && k < |run[i].stamps| && l < |run[j].stamps|
    ensures AtMostDoubleSpeed(run, f, p, i, k, j, l)
  {
    CursorKeepsPace(run, f, p, i, k, j);
    PaceBeyondCursor(run, f, p, j, l);
    var c, o := run[j - 1].Handed(), Offsets(run[j].timing, run[j].stamps)[l];
    var a, x, y := j * f - Rendered(run, f, i, k), c - Stamp(run, i, k), Stamp(run, j, l) - c;
    SumOfProducts(a, o + 1, 2 * p, x, y, f);
    Conclude(run, f, p, i, k, j, l, a + (o + 1), x + y);
  }

  lemma Conclude(run: seq<Block>, f: int, p: int, i: nat, k: nat, j: nat, l: nat, a: int, x: int)
    requires i <= j < |run| && k < |run[i].stamps| && l < |run[j].stamps|
    requires a == Rendered(run, f, j, l) - Rendered(run, f, i, k) + 1 && x == Stamp(run, j, l) - Stamp(run, i, k)
    requires a * (2 * p) >= x * f
    ensures AtMostDoubleSpeed(run, f, p, i, k, j, l)
  {
  }

  lemma PacedMeansSpaced(run: seq<Block>, f: int, p: int, i: nat, k: nat, j: nat, l: nat)
    requires Paced(run, f, p)
    requires i <= j < |run| && k < |run[i].stamps| && l < |run[j].stamps| && (i == j ==> k <= l)
    ensures AtMostDoubleSpeed(run, f, p, i, k, j, l)
  {
    if i == j {
      SpacingInBlock(run, f, p, i, k, l);
    } else {
      SpacingAcrossBlocks(run, f, p, i, k, j, l);
    }
  }

  /**
   * Late events play at most twice as fast: over any run of on-time blocks, live or
   * recovering, two events d microseconds apart are rendered at least
   * d * frames / (2 * period) - 1 output frames apart, across block boundaries and
   * capacity spills.
   */
  lemma ReplayIsAtMostDoubleSpeed(run: seq<Block>, frames: u64, sampleRate: u64, cursor: Option<u64>,
                                  i: nat, k: nat, j: nat, l: nat)
    requires Consecutive(run, frames, sampleRate, cursor) && Exact(frames, sampleRate)
    requires forall m :: 0 < m < |run| ==> OnTime(run[m - 1], run[m], frames, sampleRate)
    requires i <= j < |run| && k < |run[i].stamps| && l < |run[j].stamps| && (i == j ==> k <= l)
    ensures AtMostDoubleSpeed(run, Frames(frames), Period(frames, sampleRate), i, k, j, l)
  {
    var f, p := Frames(frames), Period(frames, sampleRate);
    forall m: nat | m < |run|
      ensures PacedBlock(run, f, p, m)
    {
      if m > 0 { assert OnTime(run[m - 1], run[m], frames, sampleRate); }
      OnTimeBlocksArePaced(run, frames, sampleRate, cursor, m);
    }
    PacedMeansSpaced(run, f, p, i, k, j, l);
  }

  // ------------------------------------------------------------------ catch-up

  /** What happens in one block of a catch-up: the oldest event at its start, and the event left at its end. */
  datatype Tick = Tick(nowUs: u64, oldest: Option<u64>, next: Option<u64>)

  function AfterTick(cursor: Option<u64>, frames: u64, sampleRate: u64, tick: Tick): Option<u64> {
    Committed(Begin(cursor, frames, sampleRate, tick.nowUs, tick.oldest), tick.next)
  }

  function CursorAfter(cursor: Option<u64>, frames: u64, sampleRate: u64, ticks: seq<Tick>): Option<u64>
    decreases |ticks|
  {
    if ticks == [] then cursor
    else CursorAfter(AfterTick(cursor, frames, sampleRate, ticks[0]), frames, sampleRate, ticks[1..])
  }

  /**
   * Time advances one period per block, and every contained event is admitted. The first
   * block may find events that are late by any amount; once the clock is live again,
   * events come on time.
   */
  ghost predicate CatchingUp(cursor: Option<u64>, frames: u64, sampleRate: u64, nowUs: u64, ticks: seq<Tick>)
    decreases |ticks|
  {
    ticks != [] ==>
      var tick, after := ticks[0], AfterTick(cursor, frames, sampleRate, ticks[0]);
      && tick.nowUs == nowUs + Period(frames, sampleRate)
      && (tick.next.Some? ==> !Contains(Begin(cursor, frames, sampleRate, tick.nowUs, tick.oldest), tick.next.value))
      && (after.None? ==> Late(Oldest(ticks[1..]), tick.nowUs) == 0)
      && CatchingUp(after, frames, sampleRate, tick.nowUs, ticks[1..])
  }

  function Oldest(ticks: seq<Tick>): Option<u64> {
    if ticks == [] then None else ticks[0].oldest
  }

  function Late(oldest: Option<u64>, nowUs: int): int {
    if oldest.Some? && oldest.value < nowUs then nowUs - oldest.value else 0
  }

  /** How far behind the next block begins: by the cursor, or by a late oldest event if there is no cursor yet. */
  function Lag(cursor: Option<u64>, oldest: Option<u64>, nowUs: int): int {
    if cursor.Some? then nowUs - cursor.value else Late(oldest, nowUs)
  }

  function Periods(n: nat, p: int): int {
    n * p
  }

  /** The cursor that trails `nowUs` by `lag`; none once there is no lag. */
  function Behind(nowUs: int, lag: int): Option<int> {
    if lag <= 0 then None else Some(nowUs - lag)
  }

  /** One block of recovery, the one that starts it included, takes exactly one period off the lag. */
  lemma CatchUpStep(cursor: Option<u64>, frames: u64, sampleRate: u64, nowUs: u64, tick: Tick)
    requires tick.nowUs == nowUs + Period(frames, sampleRate)
    requires cursor.Some? ==> cursor.value < nowUs
    requires tick.next.Some? ==> !Contains(Begin(cursor, frames, sampleRate, tick.nowUs, tick.oldest), tick.next.value)
    ensures AfterTick(cursor, frames, sampleRate, tick)
            == Behind(tick.nowUs, Lag(cursor, tick.oldest, nowUs) - Period(frames, sampleRate))
  {
  }

  /**
   * Catch-up terminates. With `now` advancing one period per block, the clock is
   * behind by exactly the initial lag less one period per block: it is live again
   * after ceil(lag / period) blocks, no earlier, and stays live. The lag is that of the
   * cursor, or of the late event that starts the recovery.
   */
  lemma {:induction false} CatchUpTerminates(cursor: Option<u64>, frames: u64, sampleRate: u64, nowUs: u64,
                                             ticks: seq<Tick>)
    requires cursor.Some? ==> cursor.value < nowUs
    requires CatchingUp(cursor, frames, sampleRate, nowUs, ticks)
    ensures var advance, lag := Periods(|ticks|, Period(frames, sampleRate)), Lag(cursor, Oldest(ticks), nowUs);
            CursorAfter(cursor, frames, sampleRate, ticks)
            == if ticks == [] then cursor else Behind(nowUs + advance, lag - advance)
    decreases |ticks|
  {
    hide AfterTick, Begin, Period, Contains, CatchingUp, Late, Lag, Behind, Periods;
    if ticks != [] {
      var p, next := Period(frames, sampleRate), AfterTick(cursor, frames, sampleRate, ticks[0]);
      FirstTick(cursor, frames, sampleRate, nowUs, ticks);
      CatchUpTerminates(next, frames, sampleRate, ticks[0].nowUs, ticks[1..]);
      Advance(|ticks|, p);
      BehindTwice(nowUs, p, Lag(cursor, Oldest(ticks), nowUs), Periods(|ticks| - 1, p));
    }
  }

  lemma FirstTick(cursor: Option<u64>, frames: u64, sampleRate: u64, nowUs: u64, ticks: seq<Tick>)
    requires ticks != [] && (cursor.Some? ==> cursor.value < nowUs)
    requires CatchingUp(cursor, frames, sampleRate, nowUs, ticks)
    ensures var p, now := Period(frames, sampleRate), ticks[0].nowUs;
            var next := AfterTick(cursor, frames, sampleRate, ticks[0]);
            && now == nowUs + p && next == Behind(now, Lag(cursor, Oldest(ticks), nowUs) - p)
            && (next.Some? ==> next.value < now) && Lag(next, Oldest(ticks[1..]), now) == Left(now, next)
            && CatchingUp(next, frames, sampleRate, now, ticks[1..])
  {
    CatchUpStep(cursor, frames, sampleRate, nowUs, ticks[0]);
    hide AfterTick, Begin, Contains;
  }

  function Left(nowUs: int, cursor: Option<int>): int {
    if cursor.Some? then nowUs - cursor.value else 0
  }

  /** Falling behind by one step after another is falling behind by both. */
  lemma BehindTwice(nowUs: int, p: int, lag: int, rest: int)
    requires rest >= 0
    ensures var next := Behind(nowUs + p, lag - p);
            Behind(nowUs + p + rest, Left(nowUs + p, next) - rest) == Behind(nowUs + (rest + p), lag - (rest + p))
    ensures Behind(nowUs + p, lag - p) == Behind(nowUs + p, Left(nowUs + p, Behind(nowUs + p, lag - p)))
  {
  }

  lemma Advance(n: nat, p: int)
    requires n >= 1 && p >= 1
    ensures Periods(n, p) == Periods(n - 1, p) + p && Periods(n - 1, p) >= 0 && Periods(0, p) == 0
  {
    MulMono(0, n - 1, p, p);
  }
}
