/** Capped doubling, jitter, and how much time a sequence of retries must take. Nanoseconds. */
module Backoff {
  import opened Arithmetic

  const SECOND := 1_000_000_000

  /** The largest configured backoff whose double still fits an int64. */
  const MAX_SAFE := 0x3FFF_FFFF_FFFF_FFFF

  /** forgetPeripheral is called once consecFailure reaches this. */
  const FAILURES_BEFORE_RESCAN: nat := 3

  function Min(a: int, b: int): int {
    if a < b then a else b
  }

  function Pow2(k: nat): (p: nat)
    ensures p > k
  {
    if k == 0 then 1 else 2 * Pow2(k - 1)
  }

  /** int64 arithmetic. */
  function Wrap64(x: int): int {
    (x + 0x8000_0000_0000_0000) % 0x1_0000_0000_0000_0000 - 0x8000_0000_0000_0000
  }

  /** min(backoff*2, maxBackoff), as the int64 computation does it. */
  function Next(backoff: int, max: int): int {
    Min(Wrap64(backoff * 2), max)
  }

  /** Delays within bounds are what Validate guarantees, plus room to double. */
  predicate Sane(min: int, max: int) {
    0 < min <= max <= MAX_SAFE
  }

  /** The k-th delay after a start. */
  function Base(min: int, max: int, k: nat): int {
    Min(min * Pow2(k), max)
  }

  /** Doubling with a cap is the cap of the doubling. */
  lemma NextIsBase(min: int, max: int, k: nat)
    requires Sane(min, max)
    ensures Next(Base(min, max, k), max) == Base(min, max, k + 1)
    ensures min <= Base(min, max, k) <= max
  {
    var b := Base(min, max, k);
    ProductsGrow(1, Pow2(k), min);
    assert min * Pow2(k + 1) == 2 * (min * Pow2(k));
    assert Wrap64(b * 2) == b * 2;
  }

  const INT64_MAX := 0x7FFF_FFFF_FFFF_FFFF

  /** run's backoff after k sleeps, none of them after a stable session. */
  function Doubled(min: int, max: int, k: nat): int {
    if k == 0 then min else Next(Doubled(min, max, k - 1), max)
  }

  lemma {:induction false} DoubledIsBase(min: int, max: int, k: nat)
    requires Sane(min, max)
    ensures Doubled(min, max, k) == Base(min, max, k)
  {
    if k > 0 {
      DoubledIsBase(min, max, k - 1);
      NextIsBase(min, max, k - 1);
    }
  }

  /** Doubling an int64 wraps exactly beyond MAX_SAFE, and then goes negative. */
  lemma DoublingWraps(b: int)
    requires 0 <= b <= INT64_MAX
    ensures b <= MAX_SAFE ==> Wrap64(b * 2) == b * 2
    ensures b > MAX_SAFE ==> Wrap64(b * 2) < 0
  {
  }

  lemma BaseDoubles(min: int, max: int, k: nat)
    requires 0 < min <= max
    ensures 0 < Base(min, max, k) <= max && Base(min, max, k + 1) == Min(Base(min, max, k) * 2, max)
  {
    ProductsGrow(1, Pow2(k), min);
    assert min * Pow2(k + 1) == 2 * (min * Pow2(k));
  }

  /** As long as no doubling has wrapped, the delays are the closed form. */
  lemma {:induction false} BaseWhilePositive(min: int, max: int, k: nat)
    requires 0 < min <= max <= INT64_MAX && forall j: nat :: j <= k ==> Doubled(min, max, j) >= 0
    ensures Doubled(min, max, k) == Base(min, max, k)
  {
    if k > 0 {
      BaseWhilePositive(min, max, k - 1);
      BaseDoubles(min, max, k - 1);
      DoublingWraps(Doubled(min, max, k - 1));
      assert Doubled(min, max, k) >= 0;
    }
  }

  /** A maximum that cannot be doubled is met, and then doubled. */
  lemma GoesNegative(min: int, max: int)
    requires 0 < min <= max <= INT64_MAX && max > MAX_SAFE
    ensures exists k: nat :: Doubled(min, max, k) < 0
  {
    if forall k: nat :: Doubled(min, max, k) >= 0 {
      BaseWhilePositive(min, max, max);
      ProductsGrow(1, min, Pow2(max));
      StaysCapped(min, max, max, max);
      DoublingWraps(max);
      assert Doubled(min, max, max + 1) == Next(max, max);
    }
  }

  /** Of the backoffs Validate accepts, those whose maximum cannot be doubled lead to a negative delay, and only those. */
  lemma NeverNegativeIff(min: int, max: int)
    requires 0 < min <= max <= INT64_MAX
    ensures (forall k: nat :: Doubled(min, max, k) >= 0) <==> max <= MAX_SAFE
  {
    if max <= MAX_SAFE {
      forall k: nat
        ensures Doubled(min, max, k) >= 0
      {
        DoubledIsBase(min, max, k);
        NextIsBase(min, max, k);
      }
    } else {
      GoesNegative(min, max);
    }
  }

  /** Of the delays Validate accepts, the closed form holds throughout for exactly those whose maximum can be doubled. */
  lemma ClosedFormIff(min: int, max: int)
    requires 0 < min <= max <= INT64_MAX
    ensures (forall k: nat :: Doubled(min, max, k) == Base(min, max, k)) <==> max <= MAX_SAFE
  {
    if max <= MAX_SAFE {
      forall k: nat
        ensures Doubled(min, max, k) == Base(min, max, k)
      {
        DoubledIsBase(min, max, k);
      }
    } else {
      ProductsGrow(1, min, Pow2(max));
      StaysCapped(min, max, max, max + 1);
      StaysCapped(min, max, max, max);
      assert Wrap64(max * 2) < 0;
      assert Doubled(min, max, max + 1) == Next(Doubled(min, max, max), max);
    }
  }

  /** rand.Int63n(n) is any number below n; spread stands for the generator. The sum is an int64. */
  function Jitter(d: int, spread: nat): int {
    if d <= 0 then d else Wrap64(d + spread % (d / 4 + 1))
  }

  /** A sleep for a delay that can be lengthened by a quarter. */
  predicate Eased(d: int, sleep: int) {
    0 < d && 5 * d <= 4 * INT64_MAX ==> d <= sleep && 4 * sleep <= 5 * d
  }

  lemma JitterBounds(d: int, spread: nat)
    ensures Eased(d, Jitter(d, spread))
  {
    if 0 < d && 5 * d <= 4 * INT64_MAX {
      var x := spread % (d / 4 + 1);
      assert 0 <= x <= d / 4;
      assert 4 * (d / 4) <= d;
      assert Wrap64(d + x) == d + x;
    }
  }

  /** And it can be any of those, so that desks that drop together need not come back together. */
  lemma JitterSpreads(d: int, sleep: int)
    requires 0 < d && 5 * d <= 4 * INT64_MAX && d <= sleep <= d + d / 4
    ensures exists spread: nat :: Jitter(d, spread) == sleep
  {
    var spread := sleep - d;
    assert spread % (d / 4 + 1) == spread;
    assert 4 * (d / 4) <= d;
    assert Wrap64(sleep) == sleep;
    assert Jitter(d, spread) == sleep;
  }

  /** The first n delays. */
  function Sum(min: int, max: int, n: nat): int {
    if n == 0 then 0 else Sum(min, max, n - 1) + Base(min, max, n - 1)
  }

  /** Until the cap is met the delays add up to a full geometric series. */
  lemma {:induction false} SumBeforeCap(min: int, max: int, n: nat)
    requires Sane(min, max) && (n == 0 || min * Pow2(n - 1) <= max)
    ensures Sum(min, max, n) == min * Pow2(n) - min
  {
    if n > 0 {
      assert min * Pow2(n) == 2 * (min * Pow2(n - 1));
      if n > 1 {
        assert min * Pow2(n - 1) == 2 * (min * Pow2(n - 2));
        ProductsGrow(0, Pow2(n - 2), min);
      }
      SumBeforeCap(min, max, n - 1);
    }
  }

  /** From the cap on every delay costs the whole maximum. */
  lemma {:induction false} SumAfterCap(min: int, max: int, k: nat, n: nat)
    requires Sane(min, max) && min * Pow2(k) >= max && k <= n
    ensures Sum(min, max, n) >= (n - k) * max
    decreases n
  {
    if n == k {
      SumIsPositive(min, max, n);
      assert (n - k) * max == 0;
    } else {
      SumAfterCap(min, max, k, n - 1);
      StaysCapped(min, max, k, n - 1);
      OneMoreTime(n - 1 - k, max);
    }
  }

  lemma {:induction false} SumIsPositive(min: int, max: int, n: nat)
    requires Sane(min, max)
    ensures Sum(min, max, n) >= 0
  {
    if n > 0 {
      SumIsPositive(min, max, n - 1);
      NextIsBase(min, max, n - 1);
    }
  }

  lemma {:induction false} StaysCapped(min: int, max: int, k: nat, n: nat)
    requires min > 0 && min * Pow2(k) >= max && k <= n
    ensures Base(min, max, n) == max
    decreases n
  {
    if n > k {
      StaysCapped(min, max, k, n - 1);
      ProductsGrow(Pow2(n - 1), Pow2(n), min);
    }
  }
}
