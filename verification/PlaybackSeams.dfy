// How far apart blocks may lie in source time when one leaves no cursor to bind the next.
module PlaybackSeams {
  import opened Wrappers
  import opened U64
  import opened MidiPlayback

  /** The source time of the last m frames of a block of span s, to whole microseconds. */
  function Before(f: int, s: int, m: int): int
    requires f >= 1
  {
    m * s / f
  }

  /** The source time up to the end of its frame n, to whole microseconds inside it; the last frame takes the rest. */
  function After(f: int, s: int, n: int): int
    requires f >= 1
  {
    if n == f then s else (n * s - 1) / f
  }

  /** A gap with m frames before it, n frames after it and some frames rendered meanwhile, at double speed. */
  predicate FitsApart(f: int, p: int, s1: int, s2: int, gap: int, meanwhile: int, m: int, n: int)
    requires f >= 1
  {
    (gap + Before(f, s1, m) + After(f, s2, n)) * f <= 2 * p * (meanwhile + m + n)
  }

  predicate Fits(f: int, p: int, s1: int, s2: int, gap: int, m: int, n: int)
    requires f >= 1
  {
    FitsApart(f, p, s1, s2, gap, 0, m, n)
  }

  /**
   * A gap in source time between blocks of spans s1 and s2: for any number of frames on either
   * side, the skipped time and what these frames cover is worth no more than they are at double speed.
   */
  ghost predicate KeepsSeam(f: int, p: int, s1: int, s2: int, gap: int)
    requires f >= 1
  {
    forall m: int, n: int :: 1 <= m <= f && 1 <= n <= f ==> Fits(f, p, s1, s2, gap, m, n)
  }

  // -------------------------------------------------------------- whole numbers

  lemma Scaled(x: int, y: int, f: int)
    requires x <= y && f >= 0
    ensures x * f <= y * f
  {
  }

  lemma Floor(x: int, f: int)
    requires f >= 1
    ensures x / f * f <= x < x / f * f + f
  {
  }

  lemma AtMostFloor(d: int, f: int, x: int)
    requires f >= 1 && d * f <= x
    ensures d <= x / f
  {
    Floor(x, f);
    assert (x / f + 1) * f == x / f * f + f;
    if d > x / f { Scaled(x / f + 1, d, f); }
  }

  lemma Sum3(x: int, y: int, z: int, f: int)
    ensures (x + y + z) * f == x * f + y * f + z * f
  {
  }

  /** What the last m frames cover, times the frames, is at most m spans; it is within the span. */
  lemma BeforeBound(f: int, s: int, m: int)
    requires f >= 1 && s >= 1 && 1 <= m <= f
    ensures Before(f, s, m) * f <= m * s && 0 <= Before(f, s, m) <= s
  {
    Floor(m * s, f);
    MulMono(m, f, s, s);
    AtMostFloor(0, f, m * s);
    assert (s + 1) * f == f * s + f;
    if Before(f, s, m) > s { Scaled(s + 1, Before(f, s, m), f); }
  }

  lemma AfterBound(f: int, s: int, n: int)
    requires f >= 1 && s >= 1 && 1 <= n <= f
    ensures After(f, s, n) * f <= n * s && 0 <= After(f, s, n) <= s
    ensures n < f ==> After(f, s, n) * f < n * s
  {
    if n < f {
      Floor(n * s - 1, f);
      MulMono(1, n, 1, s);
      AtMostFloor(0, f, n * s - 1);
      MulMono(n, f, s, s);
      assert (s + 1) * f == f * s + f;
      if After(f, s, n) > s { Scaled(s + 1, After(f, s, n), f); }
    }
  }

  // ---------------------------------------------------------- events in one block

  /** A block as far as its frames go: f of them, over less than two periods p and some time. */
  predicate IsBlock(b: Timing, f: int, p: int) {
    && b.startUs < b.endUs <= b.startUs + 2 * p && b.frames == f && b.lastOffset == 0
    && p >= 1 && 1 <= f <= U32_MAX + 1 && 2 * p * (f - 1) <= MAX
  }

  /** A saturated quotient below the cap is the exact one. */
  lemma ExactBelowCap(x: int, l: int, f: int, o: int)
    requires 0 <= x && 1 <= l && 0 <= o < f - 1 && l * (f - 1) <= MAX && Min(x, MAX) / l == o
    ensures x < (o + 1) * l
  {
    Floor(Min(x, MAX), l);
    assert (o + 1) * l == o * l + l;
    MulMono(o + 1, f - 1, l, l);
  }

  /** Where an event of a block is placed, exactly. */
  lemma Placed(block: Timing, stamp: u64, f: int, p: int)
    requires IsBlock(block, f, p) && block.startUs <= stamp <= block.endUs
    ensures var o, s, d := RawOffset(block, stamp), block.endUs - block.startUs, stamp - block.startUs;
            0 <= o < f && o * s <= d * f && (o < f - 1 ==> d * f < (o + 1) * s)
  {
    var s, d := block.endUs - block.startUs, stamp - block.startUs;
    OffsetTracksSourceTime(block, stamp, p);
    var o := RawOffset(block, stamp);
    if o < f - 1 {
      assert o == Min(Min(SaturatingMul(d, f) / s, f - 1), U32_MAX);
      MulMono(0, d, f, f);
      MulMono(s, 2 * p, f - 1, f - 1);
      ExactBelowCap(d * f, s, f, o);
    }
  }

  lemma PlacedInBatch(block: Timing, stamps: seq<u64>, k: nat, f: int, p: int)
    requires IsBlock(block, f, p) && Sorted(stamps) && k < |stamps| && block.startUs <= stamps[k] <= block.endUs
    ensures var o, s, d := Offsets(block, stamps)[k], block.endUs - block.startUs, stamps[k] - block.startUs;
            0 <= o < f && o * s <= d * f && (o < f - 1 ==> d * f < (o + 1) * s)
  {
    SortedOffsets(block, stamps, k);
    Placed(block, stamps[k], f, p);
  }

  /** An event placed o frames into a block is no further from its end than the remaining frames cover. */
  lemma EventBefore(f: int, s: int, o: int, d: int)
    requires f >= 1 && s >= 1 && 0 <= o < f && o * s <= d * f
    ensures s - d <= Before(f, s, f - o)
  {
    assert (s - d) * f == s * f - d * f && (f - o) * s == f * s - o * s;
    AtMostFloor(s - d, f, (f - o) * s);
  }

  /** And no further from its start than the frames up to its own cover. */
  lemma EventAfter(f: int, s: int, o: int, d: int)
    requires f >= 1 && s >= 1 && 0 <= o < f && d <= s && (o < f - 1 ==> d * f < (o + 1) * s)
    ensures d <= After(f, s, o + 1)
  {
    if o < f - 1 { AtMostFloor(d, f, (o + 1) * s - 1); }
  }

  /** The furthest event before the last m frames' time is placed at the first of these frames, or later. */
  lemma LastFrames(f: int, s: int, m: int, o: int)
    requires f >= 1 && s >= 1 && 1 <= m <= f && 0 <= o < f
    requires o < f - 1 ==> (s - Before(f, s, m)) * f < (o + 1) * s
    ensures o >= f - m
  {
    BeforeBound(f, s, m);
    assert (s - Before(f, s, m)) * f == s * f - Before(f, s, m) * f;
    assert (f - m) * s == f * s - m * s;
    if o < f - m { Scaled(o + 1, f - m, s); }
  }

  lemma FirstFrames(f: int, s: int, n: int, o: int)
    requires f >= 1 && s >= 1 && 1 <= n <= f && 0 <= o < f && o * s <= After(f, s, n) * f
    ensures o <= n - 1
  {
    AfterBound(f, s, n);
    if o > n - 1 { Scaled(n, o, s); }
  }

  // ------------------------------------------------------------------ two blocks

  ghost predicate SpacedAcross(run: seq<Block>, f: int, p: int)
    requires |run| == 2
  {
    forall k: nat, l: nat :: k < |run[0].stamps| && l < |run[1].stamps| ==> AtMostDoubleSpeed(run, f, p, 0, k, 1, l)
  }

  /** A run of these two blocks, of which the first left no cursor. */
  ghost predicate Joined(run: seq<Block>, frames: u64, sampleRate: u64, cursor: Option<u64>, first: Timing,
                         second: Timing) {
    && |run| == 2 && Consecutive(run, frames, sampleRate, cursor) && run[0].Cursor().None?
    && run[0].timing == first && run[1].timing == second
  }

  /** Every run of these two blocks keeps the spacing of its events across the seam. */
  ghost predicate AllSpaced(frames: u64, sampleRate: u64, cursor: Option<u64>, first: Timing, second: Timing) {
    forall run: seq<Block> :: Joined(run, frames, sampleRate, cursor, first, second) ==>
      |run| == 2 && SpacedAcross(run, Frames(frames), Period(frames, sampleRate))
  }

  /** Blocks and the events they deliver, in order and inside the block. */
  ghost predicate AreBlocks(run: seq<Block>, f: int, p: int) {
    forall i :: 0 <= i < |run| ==>
      && IsBlock(run[i].timing, f, p) && Sorted(run[i].stamps)
      && forall k :: 0 <= k < |run[i].stamps| ==> run[i].timing.startUs <= run[i].stamps[k] <= run[i].timing.endUs
  }

  function SpanOf(b: Timing): int {
    b.endUs - b.startUs
  }

  /** The source time from the end of one block to the start of another. */
  function Gap(a: Timing, b: Timing): int {
    b.startUs - a.endUs
  }

  /** The frames rendered between two blocks. */
  function Meanwhile(f: int, i: int, j: int): int {
    (j - i - 1) * f
  }

  lemma SeamArithmetic(f: int, p: int, s1: int, s2: int, gap: int, meanwhile: int, o1: int, d1: int, o2: int, d2: int)
    requires f >= 1 && s1 >= 1 && s2 >= 1 && 0 <= o1 < f && 0 <= o2 < f && d2 <= s2
    requires o1 * s1 <= d1 * f && (o2 < f - 1 ==> d2 * f < (o2 + 1) * s2)
    requires FitsApart(f, p, s1, s2, gap, meanwhile, f - o1, o2 + 1)
    ensures AtHalfSpeed(meanwhile + f + o2 - o1 + 1, s1 - d1 + gap + d2, f, p)
  {
    EventBefore(f, s1, o1, d1);
    EventAfter(f, s2, o2, d2);
    Scaled(s1 - d1 + gap + d2, gap + Before(f, s1, f - o1) + After(f, s2, o2 + 1), f);
    assert (meanwhile + f + o2 - o1 + 1) * (2 * p) == 2 * p * (meanwhile + (f - o1) + (o2 + 1));
  }

  lemma FramesApart(run: seq<Block>, f: int, i: nat, k: nat, j: nat, l: nat)
    requires i < j < |run| && k < |run[i].stamps| && l < |run[j].stamps|
    ensures Rendered(run, f, j, l) - Rendered(run, f, i, k) + 1
            == Meanwhile(f, i, j) + f + Offsets(run[j].timing, run[j].stamps)[l]
               - (Offsets(run[i].timing, run[i].stamps)[k] as int) + 1
  {
    hide Offsets;
    assert j * f == i * f + (j - i - 1) * f + f;
  }

  lemma PairAcross(run: seq<Block>, f: int, p: int, i: nat, k: nat, j: nat, l: nat)
    requires AreBlocks(run, f, p) && i < j < |run| && k < |run[i].stamps| && l < |run[j].stamps|
    requires forall m: int, n: int :: 1 <= m <= f && 1 <= n <= f ==>
               FitsApart(f, p, SpanOf(run[i].timing), SpanOf(run[j].timing), Gap(run[i].timing, run[j].timing),
                         Meanwhile(f, i, j), m, n)
    ensures AtMostDoubleSpeed(run, f, p, i, k, j, l)
  {
    var a, b := run[i], run[j];
    PlacedInBatch(a.timing, a.stamps, k, f, p);
    PlacedInBatch(b.timing, b.stamps, l, f, p);
    FramesApart(run, f, i, k, j, l);
    hide Offsets, RawOffset, AtHalfSpeed, FitsApart, Meanwhile, Rendered;
    var o1, o2 := Offsets(a.timing, a.stamps)[k], Offsets(b.timing, b.stamps)[l];
    var d1, d2 := a.stamps[k] - a.timing.startUs, b.stamps[l] - b.timing.startUs;
    var gap := Gap(a.timing, b.timing);
    SeamArithmetic(f, p, SpanOf(a.timing), SpanOf(b.timing), gap, Meanwhile(f, i, j), o1, d1, o2, d2);
    assert Stamp(run, j, l) - Stamp(run, i, k) == SpanOf(a.timing) - d1 + gap + d2;
  }

  /** The two events furthest apart for m frames at the end of one block and n at the start of another. */
  lemma FurthestPair(run: seq<Block>, f: int, p: int, i: nat, j: nat, m: int, n: int)
    requires AreBlocks(run, f, p) && i < j < |run| && |run[i].stamps| == |run[j].stamps| == 1
    requires 1 <= m <= f && 1 <= n <= f
    requires run[i].stamps[0] == run[i].timing.endUs - Before(f, SpanOf(run[i].timing), m)
    requires run[j].stamps[0] == run[j].timing.startUs + After(f, SpanOf(run[j].timing), n)
    requires !FitsApart(f, p, SpanOf(run[i].timing), SpanOf(run[j].timing), Gap(run[i].timing, run[j].timing),
                        Meanwhile(f, i, j), m, n)
    ensures !AtMostDoubleSpeed(run, f, p, i, 0, j, 0)
  {
    var a, b := run[i], run[j];
    var s1, s2 := SpanOf(a.timing), SpanOf(b.timing);
    PlacedInBatch(a.timing, a.stamps, 0, f, p);
    PlacedInBatch(b.timing, b.stamps, 0, f, p);
    FramesApart(run, f, i, 0, j, 0);
    hide Offsets, RawOffset, Before, After, Meanwhile, Rendered;
    var o1, o2 := Offsets(a.timing, a.stamps)[0], Offsets(b.timing, b.stamps)[0];
    LastFrames(f, s1, m, o1);
    FirstFrames(f, s2, n, o2);
    FewFrames(Meanwhile(f, i, j) + f + o2 - o1 + 1, Meanwhile(f, i, j) + m + n, p);
    assert Stamp(run, j, 0) - Stamp(run, i, 0) == Gap(a.timing, b.timing) + Before(f, s1, m) + After(f, s2, n);
  }

  lemma AdjacentPair(run: seq<Block>, f: int, p: int, k: nat, l: nat)
    requires |run| == 2 && AreBlocks(run, f, p) && k < |run[0].stamps| && l < |run[1].stamps|
    requires KeepsSeam(f, p, SpanOf(run[0].timing), SpanOf(run[1].timing), Gap(run[0].timing, run[1].timing))
    ensures AtMostDoubleSpeed(run, f, p, 0, k, 1, l)
  {
    forall m: int, n: int | 1 <= m <= f && 1 <= n <= f
      ensures FitsApart(f, p, SpanOf(run[0].timing), SpanOf(run[1].timing), Gap(run[0].timing, run[1].timing),
                        Meanwhile(f, 0, 1), m, n)
    {
      assert Fits(f, p, SpanOf(run[0].timing), SpanOf(run[1].timing), Gap(run[0].timing, run[1].timing), m, n);
    }
    PairAcross(run, f, p, 0, k, 1, l);
  }

  lemma FewFrames(x: int, y: int, p: int)
    requires x <= y && p >= 1
    ensures x * (2 * p) <= 2 * p * y
  {
    Scaled(x, y, 2 * p);
  }

  // --------------------------------------------------------- the exact condition

  lemma BlockOf(cursor: Option<u64>, frames: u64, sampleRate: u64, nowUs: u64, oldest: Option<u64>)
    requires nowUs >= 1 && Exact(frames, sampleRate)
    ensures IsBlock(Begin(cursor, frames, sampleRate, nowUs, oldest), Frames(frames), Period(frames, sampleRate))
  {
    hide Period;
  }

  lemma JoinedBlocks(run: seq<Block>, frames: u64, sampleRate: u64, cursor: Option<u64>, first: Timing, second: Timing)
    requires Joined(run, frames, sampleRate, cursor, first, second) && Exact(frames, sampleRate)
    requires first.nowUs >= 1 && second.nowUs >= 1
    ensures AreBlocks(run, Frames(frames), Period(frames, sampleRate))
  {
    BlockOf(cursor, frames, sampleRate, run[0].timing.nowUs, run[0].oldest);
    BlockOf(None, frames, sampleRate, run[1].timing.nowUs, run[1].oldest);
    NowOf(cursor, frames, sampleRate, run[0].timing.nowUs, run[0].oldest);
    hide Begin, Exact, IsBlock, Period;
  }

  lemma NowOf(cursor: Option<u64>, frames: u64, sampleRate: u64, nowUs: u64, oldest: Option<u64>)
    ensures Begin(cursor, frames, sampleRate, nowUs, oldest).nowUs == nowUs
  {
  }

  /** An oldest event with which a block keeps its timing, no later than an event it delivers. */
  function OldestFor(b: Timing, frames: u64, sampleRate: u64, stamp: u64): u64 {
    if b.startUs < LiveBlock(frames, sampleRate, b.nowUs).startUs then b.startUs else stamp
  }

  lemma SameTiming(cursor: Option<u64>, frames: u64, sampleRate: u64, nowUs: u64, oldest: Option<u64>, stamp: u64)
    requires var b := Begin(cursor, frames, sampleRate, nowUs, oldest); b.startUs <= stamp
    ensures var b := Begin(cursor, frames, sampleRate, nowUs, oldest);
            && OldestFor(b, frames, sampleRate, stamp) <= stamp
            && Begin(cursor, frames, sampleRate, nowUs, Some(OldestFor(b, frames, sampleRate, stamp))) == b
  {
    hide Period;
  }

  function OneEvent(b: Timing, frames: u64, sampleRate: u64, stamp: u64): Block {
    Block(b, Some(OldestFor(b, frames, sampleRate, stamp)), [stamp], None)
  }

  /** A run of two blocks with one event each. */
  lemma JoinedPair(cursor: Option<u64>, frames: u64, sampleRate: u64, was: u64, oldest: Option<u64>, now: u64,
                   late: Option<u64>, x: u64, y: u64)
    requires 1 <= was <= now && Exact(frames, sampleRate)
    requires var first := Begin(cursor, frames, sampleRate, was, oldest);
             first.endUs == was && first.startUs <= x <= was
    requires var second := Begin(None, frames, sampleRate, now, late); second.startUs <= y <= second.endUs
    ensures var first := Begin(cursor, frames, sampleRate, was, oldest);
            var second := Begin(None, frames, sampleRate, now, late);
            var run := [OneEvent(first, frames, sampleRate, x), OneEvent(second, frames, sampleRate, y)];
            Joined(run, frames, sampleRate, cursor, first, second)
  {
    SameTiming(cursor, frames, sampleRate, was, oldest, x);
    SameTiming(None, frames, sampleRate, now, late, y);
    NowOf(cursor, frames, sampleRate, was, oldest);
    NowOf(None, frames, sampleRate, now, late);
    hide Begin, Exact, OldestFor, Period;
  }

  /** Two blocks with one event each: the furthest apart for m frames before the seam and n after it. */
  function FurthestRun(first: Timing, second: Timing, frames: u64, sampleRate: u64, m: int, n: int): (run: seq<Block>)
    requires IsBlock(first, Frames(frames), Period(frames, sampleRate)) && 1 <= m <= Frames(frames)
    requires IsBlock(second, Frames(frames), Period(frames, sampleRate)) && 1 <= n <= Frames(frames)
    ensures |run| == 2 && |run[0].stamps| == |run[1].stamps| == 1
  {
    var f := Frames(frames);
    BeforeBound(f, SpanOf(first), m);
    AfterBound(f, SpanOf(second), n);
    [OneEvent(first, frames, sampleRate, first.endUs - Before(f, SpanOf(first), m)),
     OneEvent(second, frames, sampleRate, second.startUs + After(f, SpanOf(second), n))]
  }

  lemma FurthestRunIsTooClose(first: Timing, second: Timing, frames: u64, sampleRate: u64, m: int, n: int)
    requires IsBlock(first, Frames(frames), Period(frames, sampleRate)) && 1 <= m <= Frames(frames)
    requires IsBlock(second, Frames(frames), Period(frames, sampleRate)) && 1 <= n <= Frames(frames)
    requires !Fits(Frames(frames), Period(frames, sampleRate), SpanOf(first), SpanOf(second),
                   second.startUs - first.endUs, m, n)
    ensures !SpacedAcross(FurthestRun(first, second, frames, sampleRate, m, n), Frames(frames),
        Period(frames, sampleRate))
  {
    hide Period, Before, After, FitsApart, AtMostDoubleSpeed, OldestFor;
    var f := Frames(frames);
    assert Meanwhile(f, 0, 1) == 0;
    BeforeBound(f, SpanOf(first), m);
    AfterBound(f, SpanOf(second), n);
    FurthestPair(FurthestRun(first, second, frames, sampleRate, m, n), f, Period(frames, sampleRate), 0, 1, m, n);
  }

  lemma FurthestRunIsJoined(cursor: Option<u64>, frames: u64, sampleRate: u64, was: u64, oldest: Option<u64>,
                            now: u64, late: Option<u64>, m: int, n: int)
    requires 1 <= was <= now && Exact(frames, sampleRate) && 1 <= m <= Frames(frames) && 1 <= n <= Frames(frames)
    requires Begin(cursor, frames, sampleRate, was, oldest).endUs == was
    ensures var first := Begin(cursor, frames, sampleRate, was, oldest);
            var second := Begin(None, frames, sampleRate, now, late);
            && IsBlock(first, Frames(frames), Period(frames, sampleRate))
            && IsBlock(second, Frames(frames), Period(frames, sampleRate))
            && Joined(FurthestRun(first, second, frames, sampleRate, m, n), frames, sampleRate, cursor, first, second)
  {
    hide Period, Before, After, Joined, Begin, Exact, OldestFor;
    var f := Frames(frames);
    var first, second := Begin(cursor, frames, sampleRate, was, oldest), Begin(None, frames, sampleRate, now, late);
    BlockOf(cursor, frames, sampleRate, was, oldest);
    BlockOf(None, frames, sampleRate, now, late);
    BeforeBound(f, SpanOf(first), m);
    AfterBound(f, SpanOf(second), n);
    JoinedPair(cursor, frames, sampleRate, was, oldest, now, late,
               was - Before(f, SpanOf(first), m), second.startUs + After(f, SpanOf(second), n));
  }

  /**
   * The gap that spacing survives, exactly. Take any two consecutive blocks of which the first
   * catches up and leaves no cursor: live or recovering, the second live or starting at a late
   * event. All events on both sides keep the spacing, whichever they are, if and only if the gap
   * between the blocks keeps the seam.
   */
  lemma SpacingAcrossASeam(cursor: Option<u64>, frames: u64, sampleRate: u64, was: u64, oldest: Option<u64>,
                           now: u64, late: Option<u64>)
    requires Exact(frames, sampleRate) && 1 <= was <= now
    requires Begin(cursor, frames, sampleRate, was, oldest).endUs == was
    ensures var f, p := Frames(frames), Period(frames, sampleRate);
            var first := Begin(cursor, frames, sampleRate, was, oldest);
            var second := Begin(None, frames, sampleRate, now, late);
            KeepsSeam(f, p, SpanOf(first), SpanOf(second), second.startUs - was)
            <==> AllSpaced(frames, sampleRate, cursor, first, second)
  {
    var f, p := Frames(frames), Period(frames, sampleRate);
    var first, second := Begin(cursor, frames, sampleRate, was, oldest), Begin(None, frames, sampleRate, now, late);
    NowOf(cursor, frames, sampleRate, was, oldest);
    NowOf(None, frames, sampleRate, now, late);
    hide Begin, Exact, Period, Fits, AtMostDoubleSpeed, Consecutive;
    if KeepsSeam(f, p, SpanOf(first), SpanOf(second), second.startUs - was) {
      forall run: seq<Block> | Joined(run, frames, sampleRate, cursor, first, second)
        ensures |run| == 2 && SpacedAcross(run, f, p)
      {
        JoinedBlocks(run, frames, sampleRate, cursor, first, second);
        forall k: nat, l: nat | k < |run[0].stamps| && l < |run[1].stamps|
          ensures AtMostDoubleSpeed(run, f, p, 0, k, 1, l)
        {
          AdjacentPair(run, f, p, k, l);
        }
      }
    } else {
      var m, n :| 1 <= m <= f && 1 <= n <= f && !Fits(f, p, SpanOf(first), SpanOf(second), second.startUs - was, m, n);
      FurthestRunIsJoined(cursor, frames, sampleRate, was, oldest, now, late, m, n);
      FurthestRunIsTooClose(first, second, frames, sampleRate, m, n);
    }
  }

  // ----------------------------------------------------- the longest gap, by kind of block

  /** What the last m frames before the seam, or the first n after it, leave over at double speed. */
  function SlackBefore(f: int, p: int, s: int, m: int): int
    requires f >= 1
  {
    2 * p * m - Before(f, s, m) * f
  }

  function SlackAfter(f: int, p: int, s: int, n: int): int
    requires f >= 1
  {
    2 * p * n - After(f, s, n) * f
  }

  lemma FitsBySlack(f: int, p: int, s1: int, s2: int, gap: int, m: int, n: int)
    requires f >= 1
    ensures Fits(f, p, s1, s2, gap, m, n) <==> gap * f <= SlackBefore(f, p, s1, m) + SlackAfter(f, p, s2, n)
  {
    hide Before, After;
    Sum3(gap, Before(f, s1, m), After(f, s2, n), f);
    assert 2 * p * (m + n) == 2 * p * m + 2 * p * n;
  }

  /** Only the least slack on either side matters. */
  lemma SeamBySlack(f: int, p: int, s1: int, s2: int, gap: int, m0: int, n0: int)
    requires 1 <= m0 <= f && 1 <= n0 <= f
    requires forall m :: 1 <= m <= f ==> SlackBefore(f, p, s1, m0) <= SlackBefore(f, p, s1, m)
    requires forall n :: 1 <= n <= f ==> SlackAfter(f, p, s2, n0) <= SlackAfter(f, p, s2, n)
    ensures KeepsSeam(f, p, s1, s2, gap)
            <==> gap * f <= SlackBefore(f, p, s1, m0) + SlackAfter(f, p, s2, n0)
  {
    hide Fits, SlackBefore, SlackAfter;
    FitsBySlack(f, p, s1, s2, gap, m0, n0);
    forall m, n | 1 <= m <= f && 1 <= n <= f
      ensures gap * f <= SlackBefore(f, p, s1, m0) + SlackAfter(f, p, s2, n0) ==> Fits(f, p, s1, s2, gap, m, n)
    {
      FitsBySlack(f, p, s1, s2, gap, m, n);
    }
  }

  lemma OneFrameIsTightest(p: int, m: int, x: int, least: int)
    requires p >= 1 && m >= 1 && x <= m * p && least >= 0 && (m == 1 ==> x == least)
    ensures 2 * p - least <= 2 * p * m - x
  {
    assert 2 * p * m == 2 * (m * p);
    if m > 1 { MulMono(2, m, p, p); }
  }

  /** Before the seam, a block of one period is tightest at its last frame. */
  lemma LiveBefore(f: int, p: int, m: int)
    requires p >= 1 && 1 <= m <= f
    ensures SlackBefore(f, p, p, 1) == 2 * p - p / f * f <= SlackBefore(f, p, p, m)
  {
    BeforeBound(f, p, m);
    BeforeBound(f, p, 1);
    assert Before(f, p, 1) == p / f;
    hide Before;
    MulMono(0, Before(f, p, 1), f, f);
    OneFrameIsTightest(p, m, Before(f, p, m) * f, Before(f, p, 1) * f);
  }

  /** After it, at its first. */
  lemma LiveAfter(f: int, p: int, n: int)
    requires p >= 1 && 1 <= n <= f
    ensures SlackAfter(f, p, p, 1) == 2 * p - After(f, p, 1) * f <= SlackAfter(f, p, p, n)
  {
    AfterBound(f, p, n);
    AfterBound(f, p, 1);
    hide After;
    MulMono(0, After(f, p, 1), f, f);
    OneFrameIsTightest(p, n, After(f, p, n) * f, After(f, p, 1) * f);
  }

  /** A block of two periods has no slack as a whole. */
  lemma FullBefore(f: int, p: int, m: int)
    requires p >= 1 && 1 <= m <= f
    ensures SlackBefore(f, p, 2 * p, f) == 0 <= SlackBefore(f, p, 2 * p, m)
  {
    BeforeBound(f, 2 * p, m);
    assert 2 * p * m == m * (2 * p) && 2 * p * f == f * (2 * p);
    AtMostFloor(2 * p, f, f * (2 * p));
    BeforeBound(f, 2 * p, f);
    Scaled(2 * p, Before(f, 2 * p, f), f);
  }

  lemma FullAfter(f: int, p: int, n: int)
    requires p >= 1 && 1 <= n <= f
    ensures SlackAfter(f, p, 2 * p, f) == 0 <= SlackAfter(f, p, 2 * p, n)
  {
    AfterBound(f, 2 * p, n);
    assert 2 * p * n == n * (2 * p);
  }

  predicate LiveGap(f: int, p: int, gap: int)
    requires f >= 1
  {
    (gap + p / f + After(f, p, 1)) * f <= 4 * p
  }

  predicate LateGap(f: int, p: int, gap: int)
    requires f >= 1
  {
    (gap + p / f) * f <= 2 * p
  }

  predicate RecoveredGap(f: int, p: int, gap: int)
    requires f >= 1
  {
    (gap + After(f, p, 1)) * f <= 2 * p
  }

  lemma LiveToLive(f: int, p: int, gap: int)
    requires f >= 1 && p >= 1
    ensures KeepsSeam(f, p, p, p, gap) <==> LiveGap(f, p, gap)
  {
    hide SlackBefore, SlackAfter, After, KeepsSeam;
    forall m | 1 <= m <= f ensures SlackBefore(f, p, p, 1) <= SlackBefore(f, p, p, m) { LiveBefore(f, p, m); }
    forall n | 1 <= n <= f ensures SlackAfter(f, p, p, 1) <= SlackAfter(f, p, p, n) { LiveAfter(f, p, n); }
    LiveBefore(f, p, 1);
    LiveAfter(f, p, 1);
    SeamBySlack(f, p, p, p, gap, 1, 1);
    Sum3(gap, p / f, After(f, p, 1), f);
  }

  lemma LiveToFull(f: int, p: int, gap: int)
    requires f >= 1 && p >= 1
    ensures KeepsSeam(f, p, p, 2 * p, gap) <==> LateGap(f, p, gap)
  {
    hide SlackBefore, SlackAfter, KeepsSeam;
    forall m | 1 <= m <= f ensures SlackBefore(f, p, p, 1) <= SlackBefore(f, p, p, m) { LiveBefore(f, p, m); }
    forall n | 1 <= n <= f ensures SlackAfter(f, p, 2 * p, f) <= SlackAfter(f, p, 2 * p, n) { FullAfter(f, p, n); }
    LiveBefore(f, p, 1);
    FullAfter(f, p, f);
    SeamBySlack(f, p, p, 2 * p, gap, 1, f);
    Sum3(gap, p / f, 0, f);
  }

  lemma FullToLive(f: int, p: int, gap: int)
    requires f >= 1 && p >= 1
    ensures KeepsSeam(f, p, 2 * p, p, gap) <==> RecoveredGap(f, p, gap)
  {
    hide SlackBefore, SlackAfter, After, KeepsSeam;
    forall m | 1 <= m <= f ensures SlackBefore(f, p, 2 * p, f) <= SlackBefore(f, p, 2 * p, m) { FullBefore(f, p, m); }
    forall n | 1 <= n <= f ensures SlackAfter(f, p, p, 1) <= SlackAfter(f, p, p, n) { LiveAfter(f, p, n); }
    FullBefore(f, p, f);
    LiveAfter(f, p, 1);
    SeamBySlack(f, p, 2 * p, p, gap, f, 1);
    Sum3(gap, After(f, p, 1), 0, f);
  }

  lemma FullToFull(f: int, p: int, gap: int)
    requires f >= 1 && p >= 1
    ensures KeepsSeam(f, p, 2 * p, 2 * p, gap) <==> gap <= 0
  {
    hide SlackBefore, SlackAfter, KeepsSeam;
    forall m | 1 <= m <= f ensures SlackBefore(f, p, 2 * p, f) <= SlackBefore(f, p, 2 * p, m) { FullBefore(f, p, m); }
    forall n | 1 <= n <= f ensures SlackAfter(f, p, 2 * p, f) <= SlackAfter(f, p, 2 * p, n) { FullAfter(f, p, n); }
    FullBefore(f, p, f);
    FullAfter(f, p, f);
    SeamBySlack(f, p, 2 * p, 2 * p, gap, f, f);
    if gap > 0 { Scaled(1, gap, f); } else { Scaled(gap, 0, f); }
  }

  /** Without a gap every seam is kept, whatever the spans. */
  lemma NoGapKeepsSeam(f: int, p: int, s1: int, s2: int, gap: int)
    requires f >= 1 && 1 <= s1 <= 2 * p && 1 <= s2 <= 2 * p && gap <= 0
    ensures KeepsSeam(f, p, s1, s2, gap)
  {
    hide Fits;
    forall m, n | 1 <= m <= f && 1 <= n <= f
      ensures Fits(f, p, s1, s2, gap, m, n)
    {
      NoGapFits(f, p, s1, s2, gap, m, n);
    }
  }

  lemma NoGapFits(f: int, p: int, s1: int, s2: int, gap: int, m: int, n: int)
    requires 1 <= s1 <= 2 * p && 1 <= s2 <= 2 * p && gap <= 0 && 1 <= m <= f && 1 <= n <= f
    ensures Fits(f, p, s1, s2, gap, m, n)
  {
    SlackIsThere(f, p, s1, m);
    SlackIsThere(f, p, s2, n);
    hide SlackBefore, SlackAfter, Fits;
    Scaled(gap, 0, f);
    FitsBySlack(f, p, s1, s2, gap, m, n);
  }

  lemma SlackIsThere(f: int, p: int, s: int, m: int)
    requires 1 <= s <= 2 * p && 1 <= m <= f
    ensures SlackBefore(f, p, s, m) >= 0 && SlackAfter(f, p, s, m) >= 0
  {
    BeforeBound(f, s, m);
    AfterBound(f, s, m);
    hide Before, After;
    MulMono(m, m, s, 2 * p);
    assert 2 * p * m == m * (2 * p);
  }

  // ---------------------------------------------------------------- four kinds of seam

  lemma LiveTiming(frames: u64, sampleRate: u64, nowUs: u64)
    requires nowUs >= Period(frames, sampleRate)
    ensures var b := LiveBlock(frames, sampleRate, nowUs);
            b == Begin(None, frames, sampleRate, nowUs, None) && b.endUs == nowUs
            && b.startUs == nowUs - Period(frames, sampleRate)
  {
  }

  lemma LateTiming(cursor: Option<u64>, frames: u64, sampleRate: u64, nowUs: u64, oldest: Option<u64>)
    requires cursor.Some? || oldest.Some?
    requires StartOf(cursor, LiveBlock(frames, sampleRate, nowUs), oldest) + 2 * Period(frames, sampleRate) <= nowUs
    ensures var b := Begin(cursor, frames, sampleRate, nowUs, oldest);
            var start := StartOf(cursor, LiveBlock(frames, sampleRate, nowUs), oldest);
            b.startUs == start && b.endUs == start + 2 * Period(frames, sampleRate)
  {
  }

  /** The condition, for blocks whose spans and gap are known. */
  lemma SeamOfSpans(cursor: Option<u64>, frames: u64, sampleRate: u64, was: u64, oldest: Option<u64>,
                    now: u64, late: Option<u64>, s1: int, s2: int, gap: int)
    requires Exact(frames, sampleRate) && 1 <= was <= now
    requires var first := Begin(cursor, frames, sampleRate, was, oldest);
             first.endUs == was && first.startUs + s1 == was
    requires var second := Begin(None, frames, sampleRate, now, late);
             second.startUs + s2 == second.endUs && second.startUs == was + gap
    ensures KeepsSeam(Frames(frames), Period(frames, sampleRate), s1, s2, gap)
            <==> AllSpaced(frames, sampleRate, cursor, Begin(cursor, frames, sampleRate, was, oldest),
                           Begin(None, frames, sampleRate, now, late))
  {
    hide Begin, Exact, Period, KeepsSeam, AllSpaced;
    SpacingAcrossASeam(cursor, frames, sampleRate, was, oldest, now, late);
  }

  /** A stall between two live blocks. */
  lemma SpacingAcrossAStall(frames: u64, sampleRate: u64, was: u64, now: u64)
    requires Exact(frames, sampleRate) && Period(frames, sampleRate) <= was <= now
    ensures var f, p := Frames(frames), Period(frames, sampleRate);
            AllSpaced(frames, sampleRate, None, LiveBlock(frames, sampleRate, was), LiveBlock(frames, sampleRate, now))
            <==> LiveGap(f, p, now - p - was)
  {
    var f, p := Frames(frames), Period(frames, sampleRate);
    LiveTiming(frames, sampleRate, was);
    LiveTiming(frames, sampleRate, now);
    SeamOfSpans(None, frames, sampleRate, was, None, now, None, p, p, now - p - was);
    hide Begin, Exact, Period, LiveBlock, KeepsSeam, AllSpaced, LiveGap, RecoveredGap;
    LiveToLive(f, p, now - p - was);
  }

  /** A stall after a live block, ended by an event late enough for two periods of replay. */
  lemma LateStartAfterAStall(frames: u64, sampleRate: u64, was: u64, late: u64, now: u64)
    requires Exact(frames, sampleRate) && Period(frames, sampleRate) <= was <= now
    requires late + 2 * Period(frames, sampleRate) <= now
    ensures var f, p := Frames(frames), Period(frames, sampleRate);
            AllSpaced(frames, sampleRate, None, LiveBlock(frames, sampleRate, was),
                Begin(None, frames, sampleRate, now, Some(late)))
            <==> LateGap(f, p, late - was)
  {
    var f, p := Frames(frames), Period(frames, sampleRate);
    LiveTiming(frames, sampleRate, was);
    LateTiming(None, frames, sampleRate, now, Some(late));
    SeamOfSpans(None, frames, sampleRate, was, None, now, Some(late), p, 2 * p, late - was);
    hide Begin, Exact, Period, LiveBlock, KeepsSeam, AllSpaced, LateGap;
    LiveToFull(f, p, late - was);
  }

  /** A stall after a recovery whose last block spans two periods. */
  lemma StallAfterRecovery(frames: u64, sampleRate: u64, cursor: u64, was: u64, now: u64)
    requires Exact(frames, sampleRate) && cursor + 2 * Period(frames, sampleRate) == was <= now
    ensures var f, p := Frames(frames), Period(frames, sampleRate);
            AllSpaced(frames, sampleRate, Some(cursor), Begin(Some(cursor), frames, sampleRate, was, None),
                LiveBlock(frames, sampleRate, now))
            <==> RecoveredGap(f, p, now - p - was)
  {
    var f, p := Frames(frames), Period(frames, sampleRate);
    LiveTiming(frames, sampleRate, now);
    LateTiming(Some(cursor), frames, sampleRate, was, None);
    SeamOfSpans(Some(cursor), frames, sampleRate, was, None, now, None, 2 * p, p, now - p - was);
    hide Begin, Exact, Period, LiveBlock, KeepsSeam, AllSpaced, LiveGap, RecoveredGap;
    FullToLive(f, p, now - p - was);
  }

  /** A recovery followed by another: there no gap is harmless. */
  lemma LateStartAfterRecovery(frames: u64, sampleRate: u64, cursor: u64, was: u64, late: u64, now: u64)
    requires Exact(frames, sampleRate) && cursor + 2 * Period(frames, sampleRate) == was <= now
    requires late + 2 * Period(frames, sampleRate) <= now
    ensures AllSpaced(frames, sampleRate, Some(cursor), Begin(Some(cursor), frames, sampleRate, was, None),
                      Begin(None, frames, sampleRate, now, Some(late)))
            <==> late <= was
  {
    var f, p := Frames(frames), Period(frames, sampleRate);
    LateTiming(Some(cursor), frames, sampleRate, was, None);
    LateTiming(None, frames, sampleRate, now, Some(late));
    SeamOfSpans(Some(cursor), frames, sampleRate, was, None, now, Some(late), 2 * p, 2 * p, late - was);
    hide Begin, Exact, Period, LiveBlock, KeepsSeam, AllSpaced, LateGap;
    FullToFull(f, p, late - was);
  }

  /** At 480 frames and 48 kHz: the gap in microseconds that each kind of seam allows. */
  lemma TypicalGaps(gap: int)
    ensures LiveGap(480, 10_000, gap) <==> gap <= 43
    ensures LateGap(480, 10_000, gap) <==> gap <= 21
    ensures RecoveredGap(480, 10_000, gap) <==> gap <= 21
    ensures Period(480, 48_000) == 10_000
  {
  }
}
