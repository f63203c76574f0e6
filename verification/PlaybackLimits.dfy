// Where the source clock's promises end: block sizes whose products saturate, and events behind the cursor.
module PlaybackLimits {
  import opened Wrappers
  import opened U64
  import opened MidiPlayback

  // ------------------------------------------- when saturation shows in an offset

  predicate TracksIn(cursor: Option<u64>, frames: u64, sampleRate: u64, nowUs: u64, oldest: Option<u64>, stamp: u64) {
    var b := Begin(cursor, frames, sampleRate, nowUs, oldest);
    b.startUs <= stamp <= b.endUs ==> Tracks(b, stamp)
  }

  /** The quotient of a saturated product stays below the last frame when the limit does. */
  lemma ShortQuotient(y: int, l: int, f: int)
    requires 0 <= y <= MAX && l >= 1 && f >= 1 && l * (f - 1) > MAX
    ensures y / l < f - 1
  {
    var q := y / l;
    assert y == q * l + y % l;
    if q >= f - 1 { MulMono(f - 1, q, l, l); }
  }

  /** The last source time of a block of `l` microseconds falls short of the last frame when a product saturates. */
  lemma ShortOfTheLastFrame(block: Timing, l: int)
    requires block.startUs == 0 && block.endUs == l && l >= 1 && block.frames >= 1
    requires l * (block.frames - 1) > MAX || block.frames - 1 > U32_MAX
    ensures RawOffset(block, l) + 1 < block.frames && RawOffset(block, l) <= U32_MAX && !Tracks(block, l)
  {
    var f, y := block.frames, SaturatingMul(l, block.frames);
    var o := Min(Min(y / l, f - 1), U32_MAX);
    if l * (f - 1) > MAX { ShortQuotient(y, l, f); }
    assert o + 1 < f;
    assert RawOffset(block, l) == o;
    MulMono(o + 2, f, l, l);
    assert (o + 2) * l == (o + 1) * l + l;
  }

  /** The replay block that saturates: from time zero, two periods long, or as long as time itself. */
  lemma SaturatedBlock(frames: u64, sampleRate: u64) returns (nowUs: u64)
    requires !Exact(frames, sampleRate)
    ensures var b := Begin(Some(0), frames, sampleRate, nowUs, Some(0));
            && b.startUs == 0 && b.endUs == nowUs == Min(2 * Period(frames, sampleRate), MAX)
            && b.frames == Frames(frames) && b.lastOffset == 0
            && (nowUs * (Frames(frames) - 1) > MAX || Frames(frames) - 1 > U32_MAX)
            && (2 * Period(frames, sampleRate) > MAX ==> Frames(frames) > 2 * (U32_MAX + 1))
  {
    PeriodBound(frames, sampleRate);
    nowUs := Min(2 * Period(frames, sampleRate), MAX);
  }

  /** In every block of a size offsets track source time, if and only if the size is exact. */
  lemma TrackingIsExact(frames: u64, sampleRate: u64)
    ensures Exact(frames, sampleRate) <==>
              forall cursor, nowUs: u64, oldest, stamp: u64 ::
                TracksIn(cursor, frames, sampleRate, nowUs, oldest, stamp)
  {
    hide Tracks;
    if Exact(frames, sampleRate) {
      forall cursor, nowUs: u64, oldest, stamp: u64
        ensures TracksIn(cursor, frames, sampleRate, nowUs, oldest, stamp)
      {
        BeginShape(cursor, frames, sampleRate, nowUs, oldest);
        hide Begin;
        var b := Begin(cursor, frames, sampleRate, nowUs, oldest);
        if b.startUs <= stamp <= b.endUs { OffsetTracksSourceTime(b, stamp, Period(frames, sampleRate)); }
      }
    } else {
      var nowUs := SaturatedBlock(frames, sampleRate);
      ShortOfTheLastFrame(Begin(Some(0), frames, sampleRate, nowUs, Some(0)), nowUs);
      assert !TracksIn(Some(0), frames, sampleRate, nowUs, Some(0), nowUs);
    }
  }

  lemma TooClose(o: int, f: int, p: int, nowUs: int)
    requires 0 <= o && o + 1 < f && 1 <= p <= MAX && o <= U32_MAX && nowUs == Min(2 * p, MAX)
    requires 2 * p > MAX ==> f > 2 * (U32_MAX + 1)
    ensures (o + 1) * (2 * p) < nowUs * f
  {
    if 2 * p <= MAX {
      MulMono(o + 1, f - 1, 2 * p, 2 * p);
      assert f * (2 * p) == (f - 1) * (2 * p) + 2 * p;
    } else {
      MulMono(o + 1, U32_MAX + 1, 2 * p, 2 * MAX);
      MulMono(2 * (U32_MAX + 1) + 1, f, MAX, MAX);
    }
  }

  /** Without exactness even one replayed block breaks the spacing: its first and last event come too close. */
  lemma SpacingNeedsExactness(frames: u64, sampleRate: u64) returns (run: seq<Block>)
    requires !Exact(frames, sampleRate)
    ensures Consecutive(run, frames, sampleRate, Some(0)) && |run| == 1 && |run[0].stamps| == 2
    ensures !AtMostDoubleSpeed(run, Frames(frames), Period(frames, sampleRate), 0, 0, 0, 1)
  {
    hide Begin, Period, Exact, Tracks, RawOffset, Offsets, AtMostDoubleSpeed;
    PeriodBound(frames, sampleRate);
    var nowUs := SaturatedBlock(frames, sampleRate);
    var f, p, b := Frames(frames), Period(frames, sampleRate), Begin(Some(0), frames, sampleRate, nowUs, Some(0));
    BeginShape(Some(0), frames, sampleRate, nowUs, Some(0));
    ShortOfTheLastFrame(b, nowUs);
    run := [Block(b, Some(0), [0, nowUs], None)];
    TwoOffsets(b, nowUs);
    TooClose(RawOffset(b, nowUs), f, p, nowUs);
    OneBlockSpacing(run, f, p);
  }

  lemma OneBlockSpacing(run: seq<Block>, f: int, p: int)
    requires |run| == 1 && |run[0].stamps| == 2
    requires var first: int := Offsets(run[0].timing, run[0].stamps)[0];
             var last: int := Offsets(run[0].timing, run[0].stamps)[1];
             (last - first + 1) * (2 * p) < (Stamp(run, 0, 1) - Stamp(run, 0, 0)) * f
    ensures !AtMostDoubleSpeed(run, f, p, 0, 0, 0, 1)
  {
    hide Offsets;
    assert Rendered(run, f, 0, 0) == Offsets(run[0].timing, run[0].stamps)[0];
    assert Rendered(run, f, 0, 1) == Offsets(run[0].timing, run[0].stamps)[1];
  }

  lemma TwoOffsets(block: Timing, end: u64)
    requires block.startUs == 0 == block.lastOffset && block.frames >= 1
    ensures Offsets(block, [0, end])[0] == 0 && Offsets(block, [0, end])[1] == RawOffset(block, end)
  {
    ZeroOffset(block);
    SortedOffsets(block, [0, end], 0);
    SortedOffsets(block, [0, end], 1);
  }

  lemma ZeroOffset(block: Timing)
    requires block.frames >= 1
    ensures RawOffset(block, block.startUs) == 0
  {
    ZeroQuotient(block.frames, Span(block));
    hide Span;
  }

  lemma ZeroQuotient(f: u64, l: int)
    requires l >= 1
    ensures SaturatingMul(0, f) == 0 && 0 / l == 0
  {
    DivShrinks(0, l);
  }

  // ------------------------------------------------- which events the spacing speaks of

  /**
   * Events that arrive late after a live block are covered: one made at any time before that
   * block's end, even before an event it played, and delivered by any later block.
   */
  lemma LateArrivalsAreCovered(frames: u64, sampleRate: u64, was: u64, played: u64, made: u64, now: u64)
      returns (run: seq<Block>)
    requires Exact(frames, sampleRate) && made <= played <= was <= now && was <= played + Period(frames, sampleRate)
    ensures |run| == 2 && run[0].timing == LiveBlock(frames, sampleRate, was) && run[1].timing.nowUs == now
    ensures run[0].stamps == [played] && run[1].stamps == [made]
    ensures Consecutive(run, frames, sampleRate, None) && OnTime(run[0], run[1], frames, sampleRate)
    ensures AtMostDoubleSpeed(run, Frames(frames), Period(frames, sampleRate), 0, 0, 1, 0)
  {
    run := [Block(LiveBlock(frames, sampleRate, was), Some(played), [played], None),
            Block(Begin(None, frames, sampleRate, now, Some(made)), Some(made), [made], None)];
    LateArrival(frames, sampleRate, was, played);
    LateArrival(frames, sampleRate, now, made);
    hide Begin, Period, Exact, Span, AtMostDoubleSpeed;
    assert Consecutive(run, frames, sampleRate, None);
    ReplayIsAtMostDoubleSpeed(run, frames, sampleRate, None, 0, 0, 1, 0);
  }

  /** An event made by now is inside the block that finds it as the oldest, and a recent one leaves the block live. */
  lemma LateArrival(frames: u64, sampleRate: u64, nowUs: u64, made: u64)
    requires made <= nowUs
    ensures var b := Begin(None, frames, sampleRate, nowUs, Some(made));
            b.startUs <= made <= b.endUs && b.nowUs == nowUs
    ensures nowUs <= made + Period(frames, sampleRate) ==>
              Begin(None, frames, sampleRate, nowUs, Some(made)) == LiveBlock(frames, sampleRate, nowUs)
    ensures LiveBlock(frames, sampleRate, nowUs).endUs == nowUs == LiveBlock(frames, sampleRate, nowUs).nowUs
  {
  }

  /**
   * Events behind the cursor are not: they all land on the first frame of the block, and keep
   * their distance to an event at the cursor exactly if it is worth no more than one frame.
   */
  lemma BehindTheCursor(frames: u64, sampleRate: u64, cursor: u64, made: u64, now: u64) returns (run: seq<Block>)
    requires Exact(frames, sampleRate) && made <= cursor && cursor + Period(frames, sampleRate) < now
    ensures |run| == 1 && run[0].timing == Begin(Some(cursor), frames, sampleRate, now, Some(made))
    ensures run[0].stamps == [made, cursor] && run[0].Delivered(made)
    ensures var f, p := Frames(frames), Period(frames, sampleRate);
            AtMostDoubleSpeed(run, f, p, 0, 0, 0, 1) <==> (cursor - made) * f <= 2 * p
  {
    var b := Begin(Some(cursor), frames, sampleRate, now, Some(made));
    assert b.startUs == cursor <= b.endUs && b.frames == Frames(frames) && b.lastOffset == 0;
    run := [Block(b, Some(made), [made, cursor], None)];
    hide Begin, Period, Exact, Offsets;
    NoOffsetBefore(b, made);
    ZeroOffset(b);
    SortedOffsets(b, [made, cursor], 0);
    SortedOffsets(b, [made, cursor], 1);
    OneFrameForTwo(run, Frames(frames), Period(frames, sampleRate), 0, cursor - made);
  }

  lemma NoOffsetBefore(block: Timing, stamp: u64)
    requires stamp <= block.startUs && block.frames >= 1
    ensures RawOffset(block, stamp) == 0
  {
    ZeroQuotient(block.frames, Span(block));
    hide Span;
  }

  /** Two events on one frame are spaced if their distance is worth no more than one. */
  lemma OneFrameForTwo(run: seq<Block>, f: int, p: int, k: nat, x: int)
    requires |run| == 1 && k + 1 < |run[0].stamps| && run[0].stamps[k + 1] == run[0].stamps[k] + x
    requires Offsets(run[0].timing, run[0].stamps)[k] == Offsets(run[0].timing, run[0].stamps)[k + 1]
    ensures AtMostDoubleSpeed(run, f, p, 0, k, 0, k + 1) <==> x * f <= 2 * p
  {
    hide Offsets;
    assert Rendered(run, f, 0, k + 1) - Rendered(run, f, 0, k) + 1 == 1;
  }

  /**
   * Nor are events delivered out of order in one block: the earlier one lands on the frame of
   * the later one before it, and so does the next event of that time.
   */
  lemma OutOfOrder(frames: u64, sampleRate: u64, cursor: u64, made: u64, later: u64, now: u64) returns (run: seq<Block>)
    requires Exact(frames, sampleRate) && cursor + Period(frames, sampleRate) < now && cursor <= made <= later
    requires later <= Begin(Some(cursor), frames, sampleRate, now, Some(later)).endUs
    ensures |run| == 1 && run[0].timing == Begin(Some(cursor), frames, sampleRate, now, Some(later))
    ensures run[0].stamps == [later, made, later]
    ensures var f, p := Frames(frames), Period(frames, sampleRate);
            AtMostDoubleSpeed(run, f, p, 0, 1, 0, 2) <==> (later - made) * f <= 2 * p
  {
    var b := Begin(Some(cursor), frames, sampleRate, now, Some(later));
    assert b.startUs == cursor && b.frames == Frames(frames) && b.lastOffset == 0;
    run := [Block(b, Some(later), [later, made, later], None)];
    hide Begin, Period, Exact;
    RawOffsetMono(b, made, later);
    ThreeOffsets(b, made, later);
    OneFrameForTwo(run, Frames(frames), Period(frames, sampleRate), 1, later - made);
  }

  lemma ThreeOffsets(block: Timing, made: u64, later: u64)
    requires block.lastOffset == 0 && RawOffset(block, made) <= RawOffset(block, later)
    ensures var os := Offsets(block, [later, made, later]); os[1] == os[2] == RawOffset(block, later)
  {
    hide RawOffset;
    var after := AfterOffset(block, later);
    SameRaw(block, after.lastOffset, made);
    SameRaw(block, after.lastOffset, later);
    assert [later, made, later][1..] == [made, later] && [made, later][1..] == [later] && [later][1..] == [];
    assert AfterOffset(after, made) == after && AfterOffset(after, later) == after;
    assert Offsets(after, [later]) == [after.lastOffset] + Offsets(after, []);
    assert Offsets(after, [made, later]) == [after.lastOffset] + Offsets(after, [later]);
    assert Offsets(block, [later, made, later]) == [after.lastOffset] + Offsets(after, [made, later]);
  }

  lemma SameRaw(block: Timing, last: u64, stamp: u64)
    ensures RawOffset(block.(lastOffset := last), stamp) == RawOffset(block, stamp)
  {
  }
}
