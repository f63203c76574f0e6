// Runs of any number of blocks, with gaps in source time between them.
module PlaybackGaps {
  import opened Wrappers
  import opened U64
  import opened MidiPlayback
  import opened PlaybackSeams

  /** For any frames at the end of block i and at the start of block j: the time between them and theirs fits. */
  ghost predicate KeepsApart(a: Timing, b: Timing, f: int, p: int, meanwhile: int)
    requires f >= 1
  {
    forall m: int, n: int :: 1 <= m <= f && 1 <= n <= f ==>
      FitsApart(f, p, SpanOf(a), SpanOf(b), Gap(a, b), meanwhile, m, n)
  }

  /** The condition for every two blocks: gaps that are harmless one by one can add up. */
  ghost predicate KeepsGaps(run: seq<Block>, f: int, p: int)
    requires f >= 1
  {
    forall i: nat, j: nat :: i < j < |run| ==> KeepsApart(run[i].timing, run[j].timing, f, p, Meanwhile(f, i, j))
  }

  /** All events of a run keep the spacing. */
  ghost predicate IsSpaced(run: seq<Block>, f: int, p: int) {
    forall i: nat, k: nat, j: nat, l: nat ::
      i <= j < |run| && k < |run[i].stamps| && l < |run[j].stamps| && (i == j ==> k <= l) ==>
        AtMostDoubleSpeed(run, f, p, i, k, j, l)
  }

  ghost predicate SameBlocks(run: seq<Block>, base: seq<Block>) {
    |run| == |base| && forall i :: 0 <= i < |run| ==> run[i].timing == base[i].timing
  }

  // ------------------------------------------------------------------ inside a block

  lemma PairInside(run: seq<Block>, f: int, p: int, i: nat, k: nat, l: nat)
    requires AreBlocks(run, f, p) && i < |run| && k <= l < |run[i].stamps|
    ensures AtMostDoubleSpeed(run, f, p, i, k, i, l)
  {
    hide Offsets, RawOffset, AtHalfSpeed;
    var b, s := run[i], SpanOf(run[i].timing);
    PlacedInBatch(b.timing, b.stamps, k, f, p);
    PlacedInBatch(b.timing, b.stamps, l, f, p);
    OffsetsAreOrdered(b.timing, b.stamps);
    var o, o' := Offsets(b.timing, b.stamps)[k], Offsets(b.timing, b.stamps)[l];
    var d, d' := b.stamps[k] - b.timing.startUs, b.stamps[l] - b.timing.startUs;
    InsideArithmetic(f, p, s, o, d, o', d');
    assert Rendered(run, f, i, l) - Rendered(run, f, i, k) + 1 == o' - (o as int) + 1;
    assert Stamp(run, i, l) - Stamp(run, i, k) == d' - d;
  }

  lemma InsideArithmetic(f: int, p: int, s: int, o: int, d: int, o': int, d': int)
    requires 0 <= o <= o' < f && 1 <= s <= 2 * p && o * s <= d * f
    requires d' <= s && (o' < f - 1 ==> d' * f < (o' + 1) * s)
    ensures AtHalfSpeed(o' - o + 1, d' - d, f, p)
  {
    if o' == f - 1 { Scaled(d', s, f); }
    ApartInBlock(f, p, s, o, d, o', d');
  }

  // -------------------------------------------------------------- blocks of one run

  function CursorBefore(run: seq<Block>, cursor: Option<u64>, i: nat): Option<u64>
    requires i < |run|
  {
    if i == 0 then cursor else run[i - 1].Cursor()
  }

  lemma {:induction false} TimeGoesOn(run: seq<Block>, frames: u64, sampleRate: u64, cursor: Option<u64>, i: nat)
    requires Consecutive(run, frames, sampleRate, cursor) && i < |run|
    ensures run[0].timing.nowUs <= run[i].timing.nowUs
    decreases i
  {
    hide Begin;
    if i > 0 { TimeGoesOn(run, frames, sampleRate, cursor, i - 1); }
  }

  lemma RunIsOfBlocks(run: seq<Block>, frames: u64, sampleRate: u64, cursor: Option<u64>)
    requires Consecutive(run, frames, sampleRate, cursor) && Exact(frames, sampleRate)
    requires run != [] ==> run[0].timing.nowUs >= 1
    ensures AreBlocks(run, Frames(frames), Period(frames, sampleRate))
  {
    hide Begin, Exact, IsBlock, Period;
    forall i | 0 <= i < |run|
      ensures IsBlock(run[i].timing, Frames(frames), Period(frames, sampleRate))
    {
      TimeGoesOn(run, frames, sampleRate, cursor, i);
      BlockOf(CursorBefore(run, cursor, i), frames, sampleRate, run[i].timing.nowUs, run[i].oldest);
    }
  }

  // ------------------------------------------------------------------- the witness

  /** The same blocks, with one event x in block i, one event y in block j, and none elsewhere. */
  function TwoEvents(run: seq<Block>, frames: u64, sampleRate: u64, i: nat, x: u64, j: nat, y: u64): (two: seq<Block>)
    requires i < j < |run|
    ensures |two| == |run| && |two[i].stamps| == |two[j].stamps| == 1
  {
    seq(|run|, t requires 0 <= t < |run| => OnlyEvent(run[t], frames, sampleRate,
                                                       if t == i then Some(x) else if t == j then Some(y) else None))
  }

  function OnlyEvent(b: Block, frames: u64, sampleRate: u64, stamp: Option<u64>): Block {
    match stamp
    case None => b.(stamps := [])
    case Some(x) => b.(oldest := Some(OldestFor(b.timing, frames, sampleRate, x)), stamps := [x])
  }

  /** A block keeps its timing, and delivers what it is given. */
  lemma OnlyEventFits(b: Block, cursor: Option<u64>, frames: u64, sampleRate: u64, stamp: Option<u64>)
    requires b.timing == Begin(cursor, frames, sampleRate, b.timing.nowUs, b.oldest)
    requires stamp.Some? ==> b.timing.startUs <= stamp.value <= b.timing.endUs
    ensures var b' := OnlyEvent(b, frames, sampleRate, stamp);
            && b'.timing == b.timing == Begin(cursor, frames, sampleRate, b.timing.nowUs, b'.oldest)
            && b'.next == b.next && b'.Delivered(b.timing.startUs)
  {
    if stamp.Some? { SameTiming(cursor, frames, sampleRate, b.timing.nowUs, b.oldest, stamp.value); }
    hide Begin, OldestFor;
  }

  lemma TwoEventsRun(run: seq<Block>, frames: u64, sampleRate: u64, cursor: Option<u64>, i: nat, x: u64, j: nat, y: u64)
    requires Consecutive(run, frames, sampleRate, cursor) && i < j < |run|
    requires run[i].timing.startUs <= x <= run[i].timing.endUs && run[j].timing.startUs <= y <= run[j].timing.endUs
    ensures var two := TwoEvents(run, frames, sampleRate, i, x, j, y);
            Consecutive(two, frames, sampleRate, cursor) && SameBlocks(two, run)
  {
    hide Begin, OnlyEvent, Committed;
    var two := TwoEvents(run, frames, sampleRate, i, x, j, y);
    forall t | 0 <= t < |run|
      ensures two[t].timing == run[t].timing && two[t].next == run[t].next
      ensures two[t].Delivered(two[t].timing.startUs)
      ensures two[t].timing
              == Begin(CursorBefore(run, cursor, t), frames, sampleRate, two[t].timing.nowUs, two[t].oldest)
    {
      OnlyEventFits(run[t], CursorBefore(run, cursor, t), frames, sampleRate,
                    if t == i then Some(x) else if t == j then Some(y) else None);
    }
    forall t | 0 < t < |run|
      ensures CursorBefore(two, cursor, t) == CursorBefore(run, cursor, t)
      ensures two[t].timing.nowUs >= two[t - 1].timing.nowUs
    {
      assert two[t - 1].timing == run[t - 1].timing && two[t - 1].next == run[t - 1].next;
    }
  }

  /** Where two blocks do not keep apart, some run of the same blocks breaks the spacing. */
  lemma NotApart(run: seq<Block>, frames: u64, sampleRate: u64, cursor: Option<u64>, i: nat, j: nat)
      returns (two: seq<Block>)
    requires Consecutive(run, frames, sampleRate, cursor) && Exact(frames, sampleRate)
    requires i < j < |run| && run[0].timing.nowUs >= 1
    requires !KeepsApart(run[i].timing, run[j].timing, Frames(frames), Period(frames, sampleRate),
                         Meanwhile(Frames(frames), i, j))
    ensures Consecutive(two, frames, sampleRate, cursor) && SameBlocks(two, run)
    ensures !IsSpaced(two, Frames(frames), Period(frames, sampleRate))
  {
    hide Begin, Exact, Period, Consecutive, FitsApart, Before, After, AtMostDoubleSpeed, Meanwhile;
    var f, p := Frames(frames), Period(frames, sampleRate);
    RunIsOfBlocks(run, frames, sampleRate, cursor);
    var a, b := run[i].timing, run[j].timing;
    var m, n :| 1 <= m <= f && 1 <= n <= f
                && !FitsApart(f, p, SpanOf(a), SpanOf(b), Gap(a, b), Meanwhile(f, i, j), m, n);
    BeforeBound(f, SpanOf(a), m);
    AfterBound(f, SpanOf(b), n);
    var x, y := a.endUs - Before(f, SpanOf(a), m), b.startUs + After(f, SpanOf(b), n);
    two := TwoEvents(run, frames, sampleRate, i, x, j, y);
    TwoEventsRun(run, frames, sampleRate, cursor, i, x, j, y);
    RunIsOfBlocks(two, frames, sampleRate, cursor);
    FurthestPair(two, f, p, i, j, m, n);
  }

  // ------------------------------------------------------------ the exact condition

  /**
   * The gaps that spacing survives, exactly, in runs of any length. Take the blocks of any run,
   * live or recovering, on time or not. In every run of these blocks all events keep the spacing,
   * whichever they are, if and only if every two of the blocks keep apart: the source time between
   * them, with that of any frames at the end of the one and the start of the other, fits into these
   * frames and those between.
   */
  lemma SpacingAcrossGaps(base: seq<Block>, frames: u64, sampleRate: u64, cursor: Option<u64>)
    requires Consecutive(base, frames, sampleRate, cursor) && Exact(frames, sampleRate)
    requires base != [] ==> base[0].timing.nowUs >= 1
    ensures KeepsGaps(base, Frames(frames), Period(frames, sampleRate))
            <==> forall run: seq<Block> :: Consecutive(run, frames, sampleRate, cursor) && SameBlocks(run, base) ==>
                   IsSpaced(run, Frames(frames), Period(frames, sampleRate))
  {
    hide Begin, Exact, Period, Consecutive, IsSpaced, KeepsApart, Meanwhile;
    var f, p := Frames(frames), Period(frames, sampleRate);
    if KeepsGaps(base, f, p) {
      forall run: seq<Block> | Consecutive(run, frames, sampleRate, cursor) && SameBlocks(run, base)
        ensures IsSpaced(run, f, p)
      {
        RunIsOfBlocks(run, frames, sampleRate, cursor);
        GapsKept(run, base, f, p);
      }
    } else {
      var i: nat, j: nat :| i < j < |base| && !KeepsApart(base[i].timing, base[j].timing, f, p, Meanwhile(f, i, j));
      var two := NotApart(base, frames, sampleRate, cursor, i, j);
    }
  }

  lemma GapsKept(run: seq<Block>, base: seq<Block>, f: int, p: int)
    requires AreBlocks(run, f, p) && f >= 1 && SameBlocks(run, base) && KeepsGaps(base, f, p)
    ensures IsSpaced(run, f, p)
  {
    hide AtMostDoubleSpeed, FitsApart, IsBlock, Meanwhile;
    forall i: nat, k: nat, j: nat, l: nat |
      i <= j < |run| && k < |run[i].stamps| && l < |run[j].stamps| && (i == j ==> k <= l)
      ensures AtMostDoubleSpeed(run, f, p, i, k, j, l)
    {
      if i == j {
        PairInside(run, f, p, i, k, l);
      } else {
        assert KeepsApart(base[i].timing, base[j].timing, f, p, Meanwhile(f, i, j));
        PairAcross(run, f, p, i, k, j, l);
      }
    }
  }

  // ----------------------------------------------------------- gaps that add up

  lemma WholeShares(f: int, q: int, m: int, r: int)
    requires f >= 1 && 0 <= r <= f
    ensures (m * (q * f) - r) / f == if r == 0 then m * q else m * q - 1
  {
    assert m * (q * f) == m * q * f;
    SharesLess(f, m * q, r);
  }

  lemma SharesLess(f: int, k: int, r: int)
    requires f >= 1 && 0 <= r <= f
    ensures (k * f - r) / f == if r == 0 then k else k - 1
  {
    var x := k * f - r;
    Floor(x, f);
    assert (k - 1) * f == k * f - f && (k + 1) * f == k * f + f;
    if x / f > k { Scaled(k + 1, x / f, f); }
    assert (k - 2) * f == k * f - 2 * f;
    if x / f < k - 1 { Scaled(x / f, k - 2, f); }
  }

  /**
   * Gaps that are harmless one by one can add up. Where two periods are a whole number q of
   * microseconds a frame, take blocks of spans 2p, 2p - 1 and 2p with gaps of one microsecond:
   * both seams are kept, but the first and the last block do not keep apart.
   */
  lemma HarmlessGapsAddUp(f: int, p: int, q: int)
    requires f >= 1 && q >= 1 && 2 * p == q * f
    ensures KeepsSeam(f, p, 2 * p, 2 * p - 1, 1) && KeepsSeam(f, p, 2 * p - 1, 2 * p, 1)
    ensures !FitsApart(f, p, 2 * p, 2 * p, 2 * p + 1, f, f, f)
  {
    hide Fits, FitsApart;
    var full, short := 2 * p, 2 * p - 1;
    forall m: int, n: int | 1 <= m <= f && 1 <= n <= f
      ensures Fits(f, p, full, short, 1, m, n)
    {
      OneMicrosecondFits(f, p, q, m, n);
    }
    forall m: int, n: int | 1 <= m <= f && 1 <= n <= f
      ensures Fits(f, p, short, full, 1, m, n)
    {
      OneMicrosecondFits(f, p, q, m, n);
    }
    WholeBlocks(f, p, q);
  }

  lemma SharesOfBlocks(f: int, p: int, q: int, m: int)
    requires q >= 1 && 2 * p == q * f && 1 <= m <= f
    ensures Before(f, 2 * p, m) == m * q && Before(f, 2 * p - 1, m) == m * q - 1
    ensures After(f, 2 * p - 1, m) == m * q - 1 && After(f, 2 * p, m) <= m * q
  {
    assert m * (2 * p) == m * (q * f) && m * (2 * p - 1) == m * (q * f) - m;
    WholeShares(f, q, m, 0);
    WholeShares(f, q, m, m);
    WholeShares(f, q, m, 1);
    if m < f { WholeShares(f, q, m, m + 1); }
  }

  lemma OneMicrosecondFits(f: int, p: int, q: int, m: int, n: int)
    requires q >= 1 && 2 * p == q * f && 1 <= m <= f && 1 <= n <= f
    ensures Fits(f, p, 2 * p, 2 * p - 1, 1, m, n) && Fits(f, p, 2 * p - 1, 2 * p, 1, m, n)
  {
    SharesOfBlocks(f, p, q, m);
    SharesOfBlocks(f, p, q, n);
    hide Before, After, FitsApart;
    SharesFit(f, p, q, 2 * p, 2 * p - 1, m, n);
    SharesFit(f, p, q, 2 * p - 1, 2 * p, m, n);
  }

  lemma SharesFit(f: int, p: int, q: int, s1: int, s2: int, m: int, n: int)
    requires f >= 1 && 2 * p == q * f && 1 + Before(f, s1, m) + After(f, s2, n) <= m * q + n * q
    ensures FitsApart(f, p, s1, s2, 1, 0, m, n)
  {
    hide Before, After;
    Scaled(1 + Before(f, s1, m) + After(f, s2, n), m * q + n * q, f);
    SharesOfFrames(f, p, q, m, n);
  }

  lemma SharesOfFrames(f: int, p: int, q: int, m: int, n: int)
    requires 2 * p == q * f
    ensures 2 * p * (0 + m + n) == (m * q + n * q) * f
  {
    assert 2 * p * (0 + m + n) == q * f * (m + n);
    assert (m * q + n * q) * f == q * f * (m + n);
  }

  lemma WholeBlocks(f: int, p: int, q: int)
    requires f >= 1 && q >= 1 && 2 * p == q * f
    ensures !FitsApart(f, p, 2 * p, 2 * p, 2 * p + 1, f, f, f)
  {
    WholeShares(f, q, f, 0);
    assert f * q == 2 * p;
    assert Before(f, 2 * p, f) == 2 * p && After(f, 2 * p, f) == 2 * p;
    assert (6 * p + 1) * f == 2 * p * (f + f + f) + f;
  }
}
