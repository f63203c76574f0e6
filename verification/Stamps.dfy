// The performance counter stamp of an instant: the counter now, less the ticks elapsed since the instant.
module Stamps {
  import opened Wrappers

  const NANOS: nat := 1_000_000_000

  /** Whole ticks in a span of nanoseconds. */
  function Ticks(frequency: nat, nanos: nat): nat {
    nanos * frequency / NANOS
  }

  function TicksUp(frequency: nat, nanos: nat): nat {
    (nanos * frequency + NANOS - 1) / NANOS
  }

  /**
   * The stamp of `target`. How long it has elapsed is asked first, the counter is read after;
   * both are the same clock.
   */
  function StampAt(frequency: nat, target: nat, asked: nat, read: nat): (stamp: int)
    requires target <= asked <= read
  {
    Ticks(frequency, read) - Ticks(frequency, asked - target)
  }

  lemma Division(x: int, q: int)
    requires q * NANOS <= x < (q + 1) * NANOS
    ensures x / NANOS == q
  {
  }

  lemma Quotient(x: int)
    ensures x / NANOS * NANOS <= x < (x / NANOS + 1) * NANOS
  {
  }

  /** Rounding a sum, less rounding one part of it, gives the other part rounded down or up. */
  lemma PartOfSum(x: int, y: int)
    ensures x / NANOS <= (x + y) / NANOS - y / NANOS <= (x + NANOS - 1) / NANOS
  {
    Quotient(x);
    Quotient(y);
    Quotient(x + y);
    Quotient(x + NANOS - 1);
  }

  /**
   * A stamp is the target's own, late by the time between the two looks at the clock, and
   * rounded down or up to a tick; the lateness of the group does not show in it.
   */
  lemma StampIsTheTarget(frequency: nat, target: nat, asked: nat, read: nat)
    requires target <= asked <= read
    ensures Ticks(frequency, target + (read - asked)) <= StampAt(frequency, target, asked, read)
            <= TicksUp(frequency, target + (read - asked))
  {
    var shown, elapsed := target + (read - asked), asked - target;
    assert read * frequency == shown * frequency + elapsed * frequency;
    PartOfSum(shown * frequency, elapsed * frequency);
  }

  // ---------------------------------------------------------------- order of two stamps

  /** The stamp of a target asked about `late` after it came, with `delay` between the two looks at the clock. */
  function LateStamp(frequency: nat, target: nat, delay: nat, late: nat): int {
    StampAt(frequency, target, target + late, target + late + delay)
  }

  /** The stamps of two targets are in order, however late each was asked for. */
  ghost predicate AlwaysInOrder(frequency: nat, target: nat, delay: nat, target': nat, delay': nat) {
    forall late: nat, late': nat ::
      LateStamp(frequency, target, delay, late) <= LateStamp(frequency, target', delay', late')
  }

  lemma TicksOfSum(frequency: nat, shown: nat, elapsed: nat)
    ensures Ticks(frequency, shown) <= Ticks(frequency, shown + elapsed) - Ticks(frequency, elapsed)
        <= TicksUp(frequency, shown)
  {
    assert (shown + elapsed) * frequency == shown * frequency + elapsed * frequency;
    PartOfSum(shown * frequency, elapsed * frequency);
  }

  /** The ticks of n equal spans, if every span adds what one has, are n times those. */
  lemma {:induction false} EqualSteps(frequency: nat, span: nat, n: nat)
    requires forall k: nat :: k < n ==>
          Ticks(frequency, span + k * span) - Ticks(frequency, k * span) == Ticks(frequency, span)
    ensures Ticks(frequency, n * span) == n * Ticks(frequency, span)
    decreases n
  {
    if n > 0 {
      EqualSteps(frequency, span, n - 1);
      NextMultiple(n - 1, span, Ticks(frequency, span));
      assert Ticks(frequency, span + (n - 1) * span) - Ticks(frequency, (n - 1) * span) == Ticks(frequency, span);
    }
  }

  lemma NextMultiple(k: nat, span: nat, t: nat)
    ensures span + k * span == (k + 1) * span && (k + 1) * t == k * t + t
  {
  }

  lemma WholeTicks(frequency: nat, span: nat)
    ensures Ticks(frequency, NANOS * span) == span * frequency
  {
    assert NANOS * span * frequency == span * frequency * NANOS;
    Division(NANOS * span * frequency, span * frequency);
  }

  lemma RoundedUp(x: nat)
    ensures (x + NANOS - 1) / NANOS == if x / NANOS * NANOS == x then x / NANOS else x / NANOS + 1
  {
    Quotient(x);
    Quotient(x + NANOS - 1);
  }

  /** Some lateness makes a stamp round up. */
  lemma SomeRoundsUp(frequency: nat, span: nat) returns (elapsed: nat)
    ensures Ticks(frequency, span + elapsed) - Ticks(frequency, elapsed) == TicksUp(frequency, span)
  {
    RoundedUp(span * frequency);
    if Ticks(frequency, span) * NANOS == span * frequency {
      elapsed := 0;
    } else if forall k: nat :: k < NANOS ==>
                Ticks(frequency, span + k * span) - Ticks(frequency, k * span) == Ticks(frequency, span) {
      EqualSteps(frequency, span, NANOS);
      WholeTicks(frequency, span);
      assert false;
    } else {
      var k: nat :|
        k < NANOS && Ticks(frequency, span + k * span) - Ticks(frequency, k * span) != Ticks(frequency, span);
      elapsed := k * span;
      TicksOfSum(frequency, span, elapsed);
    }
  }

  /**
   * Two stamps come out in order, however late their groups were, if and only if the first target
   * and its delay, rounded up to a tick, are not after the second and its delay, rounded down.
   */
  lemma InOrderExactly(frequency: nat, target: nat, delay: nat, target': nat, delay': nat)
    ensures AlwaysInOrder(frequency, target, delay, target', delay')
            <==> TicksUp(frequency, target + delay) <= Ticks(frequency, target' + delay')
  {
    hide Ticks, TicksUp;
    if TicksUp(frequency, target + delay) <= Ticks(frequency, target' + delay') {
      forall late: nat, late': nat
        ensures LateStamp(frequency, target, delay, late) <= LateStamp(frequency, target', delay', late')
      {
        StampIsTheTarget(frequency, target, target + late, target + late + delay);
        StampIsTheTarget(frequency, target', target' + late', target' + late' + delay');
      }
    } else {
      var late := SomeRoundsUp(frequency, target + delay);
      NoTicks(frequency);
      assert target + delay + late == target + late + delay && target + late - target == late;
      assert LateStamp(frequency, target, delay, late) > LateStamp(frequency, target', delay', 0);
    }
  }

  lemma NoTicks(frequency: nat)
    ensures Ticks(frequency, 0) == 0
  {
  }

  /** A counter of at least a megahertz tells any two microseconds apart. */
  lemma MicrosecondsAreTicks(frequency: nat, first: nat, second: nat)
    requires frequency >= 1_000_000 && first + 1_000 <= second
    ensures TicksUp(frequency, first) <= Ticks(frequency, second)
  {
    assert second * frequency >= first * frequency + 1_000 * frequency by {
      assert second * frequency == first * frequency + (second - first) * frequency;
      AtLeast(second - first, 1_000, frequency);
    }
    Quotient(first * frequency + NANOS - 1);
    Quotient(second * frequency);
  }

  lemma AtLeast(a: nat, b: nat, f: nat)
    requires a >= b
    ensures a * f >= b * f
  {
  }

  /** A thread held up for two milliseconds between the two looks stamps its group after one due a millisecond later. */
  lemma HeldUpBetweenTheLooks()
    ensures LateStamp(10_000_000, 1_000_000, 2_000_000, 0) > LateStamp(10_000_000, 2_000_000, 0, 0)
  {
    assert Ticks(10_000_000, 3_000_000) == 30_000 && Ticks(10_000_000, 2_000_000) == 20_000;
  }
}
