/**
 `backoffDelay` and `jittered`.  Durations are 64-bit in the source: the doubling is
 written with its wrap-around, and the capped power of two it is meant to be is an
 independent definition.
 */
module Delays {

  const MAX_INT64: int := 0x7fff_ffff_ffff_ffff
  const HALF: int := 0x4000_0000_0000_0000

  predicate Int64(x: int) { -MAX_INT64 - 1 <= x <= MAX_INT64 }

  /** Two's-complement wrap of an integer into 64 bits. */
  function Wrap(x: int): (r: int)
    ensures Int64(r)
    ensures Int64(x) ==> r == x
  {
    var m := x % (2 * MAX_INT64 + 2);
    if m > MAX_INT64 then m - (2 * MAX_INT64 + 2) else m
  }

  function Pow2(n: nat): (p: nat)
    ensures p >= 1
  {
    if n == 0 then 1 else 2 * Pow2(n - 1)
  }

  function Min(x: int, y: int): int { if x <= y then x else y }

  /** The reference: initial * 2^(failed-1), capped at max. */
  function Capped(failed: nat, initial: int, max: int): int
    requires failed >= 1
  {
    Min(initial * Pow2(failed - 1), max)
  }

  /** The value the loop returns when `left` doublings remain and the delay is `d`. */
  function Doubling(left: nat, d: int, max: int): int {
    if left == 0 then Min(d, max)
    else
      var e := Wrap(2 * d);
      if e >= max then max else Doubling(left - 1, e, max)
  }

  /** What `backoffDelay` returns, wrap-around included. */
  function BackoffDelay(failed: nat, initial: int, max: int): int {
    Doubling(if failed > 0 then failed - 1 else 0, initial, max)
  }

  /** The loop of `backoffDelay`; `rounds` counts its iterations. */
  method ComputeBackoff(failed: nat, initial: int, max: int) returns (delay: int, rounds: nat)
    requires Int64(initial) && Int64(max)
    ensures delay == BackoffDelay(failed, initial, max)
    ensures rounds <= failed
    ensures Doubles(initial, max) ==> rounds == 0 || rounds == 1 || Scaled(initial, rounds - 1) < max
  {
    hide Wrap, Scaled, Doubles;
    delay := initial;
    rounds := 0;
    ScaledOnce(initial);
    var i := 1;
    while i < failed
      invariant rounds == i - 1
      invariant if failed > 0 then i <= failed else i == 1
      invariant BackoffDelay(failed, initial, max) == Doubling(if failed > 0 then failed - i else 0, delay, max)
      invariant Int64(delay)
      invariant Doubles(initial, max) ==> delay == Scaled(initial, rounds)
      invariant Doubles(initial, max) && rounds > 0 ==> delay < max
      invariant Doubles(initial, max) && rounds > 1 ==> Scaled(initial, rounds - 1) < max
      decreases failed - i
    {
      if Doubles(initial, max) {
        ScaledDoubles(initial, max, rounds);
      }
      delay := Wrap(2 * delay);
      rounds := rounds + 1;
      if delay >= max {
        return max, rounds;
      }
      i := i + 1;
    }
    if delay > max {
      delay := max;
    }
  }

  function Scaled(initial: int, n: nat): int { initial * Pow2(n) }

  lemma ScaledOnce(initial: int)
    ensures Scaled(initial, 0) == initial
  {
  }

  lemma ScaledDoubles(initial: int, max: int, n: nat)
    requires Doubles(initial, max) && Int64(max) && (n == 0 || Scaled(initial, n) < max)
    ensures Wrap(2 * Scaled(initial, n)) == Scaled(initial, n + 1)
  {
    DoublingFits(initial, max, n);
  }

  /** The condition under which no doubling overflows before the cap stops the loop. */
  ghost predicate Doubles(initial: int, max: int) {
    && 0 < initial < HALF
    && 0 < max
    && forall j: nat :: !(HALF <= initial * Pow2(j) < max)
  }

  lemma DoublingFits(initial: int, max: int, j: nat)
    requires Doubles(initial, max) && Int64(max)
    requires j == 0 || initial * Pow2(j) < max
    ensures 0 < initial * Pow2(j) < HALF
    ensures Wrap(2 * (initial * Pow2(j))) == initial * Pow2(j + 1)
  {
    assert initial * Pow2(j) > 0;
    assert j == 0 ==> initial * Pow2(j) == initial;
    assert initial * Pow2(j + 1) == 2 * (initial * Pow2(j));
    assert !(HALF <= initial * Pow2(j) < max);
  }

  lemma {:induction false} Monotone(initial: int, i: nat, j: nat)
    requires 0 < initial && i <= j
    ensures initial * Pow2(i) <= initial * Pow2(j)
    decreases j - i
  {
    if i < j {
      Monotone(initial, i, j - 1);
      assert initial * Pow2(j) == 2 * (initial * Pow2(j - 1));
    }
  }

  lemma {:induction false} DoublingIsCapped(left: nat, initial: int, max: int, j: nat)
    requires Doubles(initial, max) && Int64(max)
    requires j == 0 || initial * Pow2(j) < max
    ensures Doubling(left, initial * Pow2(j), max) == Min(initial * Pow2(j + left), max)
    decreases left
  {
    if left > 0 {
      DoublingFits(initial, max, j);
      assert 2 * (initial * Pow2(j)) == initial * Pow2(j + 1);
      if initial * Pow2(j + 1) >= max {
        Monotone(initial, j + 1, j + left);
      } else {
        DoublingIsCapped(left - 1, initial, max, j + 1);
      }
    }
  }

  /** Inside the source's working range the loop computes the capped power of two. */
  lemma BackoffIsCapped(failed: nat, initial: int, max: int)
    requires failed >= 1 && Doubles(initial, max) && Int64(max)
    ensures BackoffDelay(failed, initial, max) == Capped(failed, initial, max)
    ensures 0 < BackoffDelay(failed, initial, max) <= max
  {
    DoublingIsCapped(failed - 1, initial, max, 0);
    assert initial * Pow2(0) == initial;
    assert initial * Pow2(failed - 1) > 0;
  }

  /** Later failures never wait less. */
  lemma BackoffMonotone(f: nat, g: nat, initial: int, max: int)
    requires 1 <= f <= g && Doubles(initial, max) && Int64(max)
    ensures BackoffDelay(f, initial, max) <= BackoffDelay(g, initial, max)
  {
    BackoffIsCapped(f, initial, max);
    BackoffIsCapped(g, initial, max);
    Monotone(initial, f - 1, g - 1);
  }

  /** A sufficient range a class author can read off: delays below 2^62 ns (146 years). */
  lemma WorkingRange(initial: int, max: int)
    requires 0 < initial < HALF && 0 < max <= HALF
    ensures Doubles(initial, max)
  {
  }

  /** The first doubling that overflows turns the delay negative. */
  lemma {:induction false} OverflowTurnsNegative(left: nat, initial: int, max: int, i: nat, j: nat)
    requires 0 < initial <= MAX_INT64 && 0 < max <= MAX_INT64
    requires i <= j && left == j + 1 - i
    requires HALF <= initial * Pow2(j) && (j == 0 || initial * Pow2(j) < max)
    requires forall k: nat :: k < j ==> initial * Pow2(k) < HALF
    ensures Doubling(left, initial * Pow2(i), max) < 0
    decreases left
  {
    assert initial * Pow2(j) <= MAX_INT64 by {
      if j == 0 { assert initial * Pow2(0) == initial; }
    }
    if i == j {
      var e := 2 * (initial * Pow2(j));
      assert Wrap(e) == e - (2 * MAX_INT64 + 2) < 0;
      assert Doubling(0, Wrap(e), max) < 0;
    } else {
      assert initial * Pow2(i + 1) == 2 * (initial * Pow2(i));
      Monotone(initial, i + 1, j);
      OverflowTurnsNegative(left - 1, initial, max, i + 1, j);
    }
  }

  /** The least power that reaches HALF. */
  lemma {:induction false} FirstToReachHalf(initial: int, j: nat) returns (k: nat)
    requires 0 < initial && HALF <= initial * Pow2(j)
    ensures k <= j && HALF <= initial * Pow2(k)
    ensures forall i: nat :: i < k ==> initial * Pow2(i) < HALF
    decreases j
  {
    if j == 0 || initial * Pow2(j - 1) < HALF {
      k := j;
      forall i: nat | i < k ensures initial * Pow2(i) < HALF { Monotone(initial, i, j - 1); }
    } else {
      k := FirstToReachHalf(initial, j - 1);
    }
  }

  /** Exactly when the delay is right for every failure count: the doubling never reaches
      2^62 below the cap.  Outside that range some failure count yields a negative delay. */
  lemma BackoffExact(initial: int, max: int)
    requires 0 < initial <= MAX_INT64 && 0 < max <= MAX_INT64
    ensures Doubles(initial, max) <==>
            forall failed: nat :: failed >= 1 ==> BackoffDelay(failed, initial, max) == Capped(failed, initial, max)
  {
    if Doubles(initial, max) {
      forall failed: nat | failed >= 1
        ensures BackoffDelay(failed, initial, max) == Capped(failed, initial, max)
      {
        BackoffIsCapped(failed, initial, max);
      }
    } else {
      var j: nat := 0;
      if initial < HALF {
        j :| HALF <= initial * Pow2(j) < max;
        var k := FirstToReachHalf(initial, j);
        Monotone(initial, k, j);
        j := k;
      } else {
        assert initial * Pow2(0) == initial;
      }
      OverflowTurnsNegative(j + 1, initial, max, 0, j);
      assert initial * Pow2(0) == initial;
      assert BackoffDelay(j + 2, initial, max) < 0;
      assert initial * Pow2(j + 1) > 0;
      assert Capped(j + 2, initial, max) > 0;
    }
  }

  /** The doublings that `budget - 1` failures ask for stay below 2^62 until the cap stops them. */
  ghost predicate StaysBelow(budget: nat, initial: int, max: int) {
    && (budget > 2 ==> initial < HALF)
    && forall j: nat :: 1 <= j && j + 2 < budget ==> !(HALF <= initial * Pow2(j) < max)
  }

  lemma {:induction false} DoublingStaysPositive(budget: nat, initial: int, max: int, left: nat, j: nat)
    requires 0 < initial && 0 < max && StaysBelow(budget, initial, max) && (left > 0 ==> j + left + 1 < budget)
    requires j == 0 || initial * Pow2(j) < max
    ensures Doubling(left, initial * Pow2(j), max) > 0
    decreases left
  {
    assert initial * Pow2(j) > 0;
    if left > 0 {
      assert j == 0 ==> initial * Pow2(j) == initial;
      assert initial * Pow2(j) < HALF;
      assert initial * Pow2(j + 1) == 2 * (initial * Pow2(j)) == Wrap(2 * (initial * Pow2(j)));
      if initial * Pow2(j + 1) < max {
        DoublingStaysPositive(budget, initial, max, left - 1, j + 1);
      }
    }
  }

  lemma DelayIsPositive(budget: nat, initial: int, max: int, f: nat)
    requires 0 < initial && 0 < max && StaysBelow(budget, initial, max) && 1 <= f < budget
    ensures BackoffDelay(f, initial, max) > 0
  {
    DoublingStaysPositive(budget, initial, max, f - 1, 0);
    assert initial * Pow2(0) == initial;
  }

  /** Some delay below the budget is negative as soon as one doubling is out of range. */
  lemma SomeDelayIsNegative(budget: nat, initial: int, max: int) returns (f: nat)
    requires 0 < initial <= MAX_INT64 && 0 < max <= MAX_INT64 && !StaysBelow(budget, initial, max)
    ensures 2 <= f < budget && BackoffDelay(f, initial, max) < 0
  {
    var j: nat := 0;
    if initial < HALF {
      j :| 1 <= j && j + 2 < budget && HALF <= initial * Pow2(j) < max;
      var k := FirstToReachHalf(initial, j);
      Monotone(initial, k, j);
      j := k;
    }
    assert initial * Pow2(0) == initial;
    OverflowTurnsNegative(j + 1, initial, max, 0, j);
    f := j + 2;
  }

  /** Exactly when every delay below the budget is positive. */
  lemma DelaysPositiveExactly(budget: nat, initial: int, max: int)
    requires 0 < initial <= MAX_INT64 && 0 < max <= MAX_INT64
    ensures StaysBelow(budget, initial, max) <==>
            forall f: nat :: 1 <= f < budget ==> BackoffDelay(f, initial, max) > 0
  {
    hide BackoffDelay;
    if StaysBelow(budget, initial, max) {
      forall f: nat | 1 <= f < budget ensures BackoffDelay(f, initial, max) > 0 {
        DelayIsPositive(budget, initial, max, f);
      }
    } else {
      var f := SomeDelayIsNegative(budget, initial, max);
    }
  }

  // -------------------------------------------------------------------- jitter

  /** One draw of `rand.Float64()`. */
  type Draw = r: real | 0.0 <= r < 1.0

  /** `jittered`: within ten percent either way, truncated to a whole nanosecond. */
  function Jittered(d: int, draw: Draw): (r: int)
    ensures d <= 0 ==> r == d
    ensures d > 0 ==> 9 * d - 10 < 10 * r <= 11 * d
    ensures d >= 2 ==> r > 0
  {
    if d <= 0 then d
    else
      JitterRange(d as real, draw);
      FloorRange(d, d as real * (0.9 + 0.2 * draw));
      (d as real * (0.9 + 0.2 * draw)).Floor
  }

  lemma JitterRange(d: real, draw: Draw)
    requires d > 0.0
    ensures 0.9 * d <= d * (0.9 + 0.2 * draw) <= 1.1 * d
  {
    assert d * (0.2 * draw) >= 0.0;
    assert d * (0.2 * (1.0 - draw)) >= 0.0;
  }

  lemma FloorRange(d: int, x: real)
    requires d > 0 && 0.9 * d as real <= x <= 1.1 * d as real
    ensures 9 * d - 10 < 10 * x.Floor <= 11 * d
  {
    assert 10.0 * (x.Floor as real) <= 10.0 * x <= 11.0 * (d as real);
  }

  /** Two nanoseconds is the exact threshold: a one-nanosecond interval can jitter to
      zero, which the controller runtime reads as "do not requeue". */
  lemma JitterPositiveExactly(d: int)
    requires d > 0
    ensures d >= 2 <==> forall draw: Draw :: Jittered(d, draw) > 0
  {
    if d == 1 {
      assert Jittered(1, 0.0) == (1.0 * 0.9).Floor == 0;
    }
  }
}
