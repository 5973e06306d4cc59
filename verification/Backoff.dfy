/** Exponential backoff of retried jobs, in the 64-bit arithmetic of the store. */
module Backoff {
  import opened Domain

  const TWO62: int := 0x4000_0000_0000_0000
  const TWO63: int := 0x8000_0000_0000_0000
  const TWO64: int := 0x1_0000_0000_0000_0000
  const TWO56: int := 0x100_0000_0000_0000

  predicate IsInt64(x: int) {
    -TWO63 <= x < TWO63
  }

  // Signed and unsigned 64-bit wrap-around.
  function Signed(x: int): (r: int)
    ensures IsInt64(r)
    ensures IsInt64(x) ==> r == x
  {
    (x + TWO63) % TWO64 - TWO63
  }

  function Unsigned(x: int): (r: int)
    ensures 0 <= r < TWO64
    ensures 0 <= x < TWO64 ==> r == x
  {
    x % TWO64
  }

  // The doubling loop, from iteration `i` with delay `d`.
  function Grow(d: int, maximum: int, i: int, attempt: int): int
    decreases attempt - i
  {
    if i < attempt && (maximum <= 0 || d < maximum) && d <= TWO62
    then Grow(Signed(2 * d), maximum, i + 1, attempt) else d
  }

  function Capped(d: int, maximum: int): int {
    if maximum > 0 && d > maximum then maximum else d
  }

  // The delay with a jitter of `hash` thousandths.
  function Jittered(d: int, hash: nat): int {
    Signed(d + Signed(Unsigned(Unsigned(d) * hash) / 1000))
  }

  /** The delay before the retry that follows attempt number `attempt`; `hash` is the
      hash of the attempt's identifier modulo 251. */
  function RetryDelay(base: int, maximum: int, attempt: int, hash: nat): int {
    if base <= 0 then 0 else Jittered(Capped(Grow(base, maximum, 1, attempt), maximum), hash)
  }

  method ComputeRetryDelay(base: int, maximum: int, attempt: int, hash: nat) returns (delay: int)
    requires IsInt64(base) && IsInt64(maximum) && hash <= 250
    ensures delay == RetryDelay(base, maximum, attempt, hash)
    ensures 0 < base && 1 <= attempt && 0 < maximum <= TWO56 ==>
      var d := Min(base * Pow2(attempt - 1), maximum); d <= delay <= d + d / 4
  {
    if 0 < base && 1 <= attempt && 0 < maximum <= TWO56 {
      ClosedForm(base, maximum, attempt, hash);
    }
    if base <= 0 {
      return 0;
    }
    var d, i := base, 1;
    while i < attempt && (maximum <= 0 || d < maximum)
      invariant IsInt64(d)
      invariant Grow(d, maximum, i, attempt) == Grow(base, maximum, 1, attempt)
      decreases attempt - i
    {
      if d > TWO62 {
        break;
      }
      d := Signed(d * 2);
      i := i + 1;
    }
    if maximum > 0 && d > maximum {
      d := maximum;
    }
    delay := Signed(d + Signed(Unsigned(Unsigned(d) * hash) / 1000));
  }

  // Closed form

  function Pow2(n: nat): (p: nat)
    ensures p >= 1
  {
    if n == 0 then 1 else 2 * Pow2(n - 1)
  }

  lemma {:induction false} Pow2Grows(m: nat, n: nat)
    requires m <= n
    ensures Pow2(m) <= Pow2(n)
  {
    if m < n {
      Pow2Grows(m, n - 1);
    }
  }

  lemma ScaledGrows(base: int, m: nat, n: nat)
    requires base > 0 && m <= n
    ensures base * Pow2(m) <= base * Pow2(n)
  {
    Pow2Grows(m, n);
    MulMono(base, Pow2(m), Pow2(n));
  }

  lemma MulMono(k: int, a: int, b: int)
    requires k > 0 && a <= b
    ensures k * a <= k * b
  {
  }

  lemma Doubled(base: int, n: nat)
    ensures base * Pow2(n + 1) == 2 * (base * Pow2(n))
  {
  }

  // The loop without wrap-around

  function Exact(d: int, maximum: int, i: int, attempt: int): int
    decreases attempt - i
  {
    if i < attempt && (maximum <= 0 || d < maximum) && d <= TWO62 then Exact(2 * d, maximum, i + 1, attempt) else d
  }

  /** The delay that the loop means, before the jitter. */
  function Undisturbed(base: int, maximum: int, attempt: int): int {
    Capped(Exact(base, maximum, 1, attempt), maximum)
  }

  // Doubling from `d` up to `left` times meets 2^62 and goes on.
  ghost predicate Hits(d: int, left: int) {
    exists m: nat :: m < left && d * Pow2(m) == TWO62
  }

  /** The guard of the loop lets 2^62 itself through, and the next doubling wraps. */
  ghost predicate Overflows(base: int, maximum: int, attempt: int) {
    (maximum <= 0 || maximum > TWO62) && Hits(base, attempt - 1)
  }

  lemma HitsLater(d: int, left: int)
    requires 0 < d < TWO62
    ensures Hits(d, left) <==> Hits(2 * d, left - 1)
  {
    if Hits(d, left) {
      var m: nat :| m < left && d * Pow2(m) == TWO62;
      assert m > 0;
      Doubled(d, m - 1);
      assert 2 * d * Pow2(m - 1) == TWO62;
    }
    if Hits(2 * d, left - 1) {
      var m: nat :| m < left - 1 && 2 * d * Pow2(m) == TWO62;
      Doubled(d, m);
      assert d * Pow2(m + 1) == TWO62;
    }
  }

  lemma HitsNow(d: int, left: int)
    requires d >= TWO62
    ensures Hits(d, left) <==> d == TWO62 && left > 0
  {
    if Hits(d, left) {
      var m: nat :| m < left && d * Pow2(m) == TWO62;
      MulMono(d, 1, Pow2(m));
    }
    if d == TWO62 && left > 0 {
      assert d * Pow2(0) == TWO62;
    }
  }

  // Once wrapped, the delay stays at the least value or at zero.
  lemma {:induction false} WrappedStays(d: int, maximum: int, i: int, attempt: int)
    requires d == -TWO63 || d == 0
    ensures Grow(d, maximum, i, attempt) == -TWO63 || Grow(d, maximum, i, attempt) == 0
    decreases attempt - i
  {
    if i < attempt && (maximum <= 0 || d < maximum) {
      WrappedStays(Signed(2 * d), maximum, i + 1, attempt);
    }
  }

  /** The loop computes what it means, unless it meets 2^62 below the maximum. */
  lemma {:induction false} GrowIsExact(d: int, maximum: int, i: int, attempt: int)
    requires 0 < d < TWO63
    ensures if (maximum <= 0 || maximum > TWO62) && Hits(d, attempt - i)
            then Grow(d, maximum, i, attempt) == -TWO63 || Grow(d, maximum, i, attempt) == 0
            else Grow(d, maximum, i, attempt) == Exact(d, maximum, i, attempt) < TWO63
    ensures Exact(d, maximum, i, attempt) >= d
    decreases attempt - i
  {
    if d >= TWO62 {
      HitsNow(d, attempt - i);
      if d == TWO62 && i < attempt {
        WrappedStays(Signed(2 * d), maximum, i + 1, attempt);
      }
    } else {
      HitsLater(d, attempt - i);
      if i < attempt && (maximum <= 0 || d < maximum) {
        GrowIsExact(2 * d, maximum, i + 1, attempt);
      } else {
        NoHitsAbove(d, maximum, attempt - i);
      }
    }
  }

  // Where the loop stops below 2^62, it does not go on to meet it below the maximum.
  lemma NoHitsAbove(d: int, maximum: int, left: int)
    requires 0 < d < TWO62 && (left <= 0 || (maximum > 0 && d >= maximum))
    ensures !((maximum <= 0 || maximum > TWO62) && Hits(d, left))
  {
  }

  // The number of doublings that the loop means.
  lemma {:induction false} ExactIsPower(base: int, maximum: int, i: int, attempt: int) returns (m: nat)
    requires 0 < base && 1 <= i
    requires forall n: nat :: n < i - 1 ==> GoesOn(base, maximum, n)
    ensures Exact(base * Pow2(i - 1), maximum, i, attempt) == base * Pow2(m)
    ensures i - 1 <= m && (m == i - 1 || m <= attempt - 1)
    ensures forall n: nat :: n < m ==> GoesOn(base, maximum, n)
    ensures m >= attempt - 1 || !GoesOn(base, maximum, m)
    decreases attempt - i
  {
    if i < attempt && GoesOn(base, maximum, i - 1) {
      Doubled(base, i - 1);
      m := ExactIsPower(base, maximum, i + 1, attempt);
    } else {
      m := i - 1;
    }
  }

  // After `n` doublings the delay is below the maximum and not above 2^62.
  predicate GoesOn(base: int, maximum: int, n: nat) {
    (maximum <= 0 || base * Pow2(n) < maximum) && base * Pow2(n) <= TWO62
  }

  /** Up to a maximum of 2^62 the delay means min(base * 2^(attempt-1), maximum). */
  lemma UndisturbedIsMin(base: int, maximum: int, attempt: int)
    requires 0 < base && 1 <= attempt && 0 < maximum <= TWO62
    ensures Undisturbed(base, maximum, attempt) == Min(base * Pow2(attempt - 1), maximum)
  {
    assert base * Pow2(0) == base;
    var m := ExactIsPower(base, maximum, 1, attempt);
    ScaledGrows(base, m, attempt - 1);
  }

  // The jitter

  // What the jitter adds: the product wraps at 64 bits.
  function Jitter(d: int, hash: nat): int {
    Unsigned(d * hash) / 1000
  }

  lemma MulMono250(d: int, hash: nat)
    requires 0 <= d && hash <= 250
    ensures 0 <= d * hash <= 250 * d
  {
  }

  lemma QuarterBound(d: int, x: int)
    requires 0 <= x <= 250 * d
    ensures 0 <= x / 1000 <= d / 4
  {
  }

  // Even a product that wraps adds no more than a quarter.
  lemma JitterWithin(d: int, hash: nat)
    requires 0 < d < TWO63 && hash <= 250
    ensures 0 <= Jitter(d, hash) <= d / 4
    ensures Jitter(d, hash) < TWO62
    ensures Jitter(d, hash) == d * hash / 1000 <==> d * hash < TWO64
  {
    MulMono250(d, hash);
    assert Unsigned(d * hash) <= 250 * d;
    QuarterBound(d, Unsigned(d * hash));
    if d * hash >= TWO64 {
      assert Unsigned(d * hash) <= d * hash - TWO64 by { WrapsDown(d * hash); }
    }
  }

  lemma WrapsDown(x: int)
    requires x >= TWO64
    ensures Unsigned(x) <= x - TWO64
  {
    assert x == TWO64 * (x / TWO64) + x % TWO64;
  }

  lemma JitteredIs(d: int, hash: nat)
    requires 0 < d < TWO63 && hash <= 250
    ensures Jittered(d, hash) == if d + Jitter(d, hash) < TWO63 then d + Jitter(d, hash) else d + Jitter(d, hash) - TWO64
    ensures d + Jitter(d, hash) >= TWO63 ==> Jittered(d, hash) < 0
  {
    JitterWithin(d, hash);
  }

  lemma WrappedJitters(d: int, hash: nat)
    requires d == -TWO63 || d == 0
    ensures Jittered(d, hash) <= 0
  {
  }

  // The delay

  /** What a caller can tell from the inputs: the loop does not overflow, and the delay
      with its jitter fits into 63 bits. */
  ghost predicate Safe(base: int, maximum: int, attempt: int, hash: nat) {
    var d := Undisturbed(base, maximum, attempt);
    !Overflows(base, maximum, attempt) && d + Jitter(d, hash) < TWO63
  }

  /** For every positive base, the delay lies in [d, d + d/4] if and only if it is
      positive, if and only if neither the doubling nor the addition of the jitter
      overflows; and it is d + d * hash / 1000 if and only if the product of the jitter
      does not overflow either. */
  lemma DelaySound(base: int, maximum: int, attempt: int, hash: nat)
    requires 0 < base && IsInt64(base) && IsInt64(maximum) && hash <= 250
    ensures var d, r := Undisturbed(base, maximum, attempt), RetryDelay(base, maximum, attempt, hash);
      && d > 0
      && (d <= r <= d + d / 4 <==> Safe(base, maximum, attempt, hash))
      && (r > 0 <==> Safe(base, maximum, attempt, hash))
      && (r == d + d * hash / 1000 <==> Safe(base, maximum, attempt, hash) && d * hash < TWO64)
  {
    var d := Undisturbed(base, maximum, attempt);
    var g := Grow(base, maximum, 1, attempt);
    GrowIsExact(base, maximum, 1, attempt);
    if Overflows(base, maximum, attempt) {
      WrappedJitters(g, hash);
      MulMono250(d, hash);
    } else {
      JitteredIs(d, hash);
      JitterWithin(d, hash);
    }
  }

  /** For a maximum of at most 2^56 nanoseconds nothing overflows: the delay lies between d
      and d + d/4, where d = min(base * 2^(attempt-1), maximum). */
  lemma ClosedForm(base: int, maximum: int, attempt: int, hash: nat)
    requires 0 < base && IsInt64(base) && 1 <= attempt && 0 < maximum <= TWO56 && hash <= 250
    ensures var d := Min(base * Pow2(attempt - 1), maximum);
      && RetryDelay(base, maximum, attempt, hash) == d + d * hash / 1000
      && d <= RetryDelay(base, maximum, attempt, hash) <= d + d / 4
  {
    var d := Undisturbed(base, maximum, attempt);
    UndisturbedIsMin(base, maximum, attempt);
    DelaySound(base, maximum, attempt, hash);
    MulMono250(d, hash);
    JitterWithin(d, hash);
  }

  /** Later attempts do not wait less, apart from the jitter. */
  lemma DelayGrows(base: int, maximum: int, m: int, n: int)
    requires 0 < base && 1 <= m <= n && 0 < maximum
    ensures Min(base * Pow2(m - 1), maximum) <= Min(base * Pow2(n - 1), maximum)
  {
    ScaledGrows(base, m - 1, n - 1);
  }

  /** The doubling wraps, without a maximum and with one. */
  lemma DoublingWraps()
    ensures RetryDelay(TWO62, 0, 2, 0) == -TWO63
    ensures RetryDelay(TWO62, TWO63 - 1, 2, 0) == -TWO63
  {
    assert Grow(TWO62, 0, 1, 2) == Grow(-TWO63, 0, 2, 2) == -TWO63;
    assert Grow(TWO62, TWO63 - 1, 1, 2) == Grow(-TWO63, TWO63 - 1, 2, 2) == -TWO63;
  }

  /** The addition of the jitter wraps too, without a maximum and with one. */
  lemma JitterWraps()
    ensures RetryDelay(TWO63 - 1, 0, 1, 250) < 0
    ensures RetryDelay(TWO63 - 1, TWO63 - 1, 1, 250) < 0
  {
    assert Grow(TWO63 - 1, 0, 1, 1) == TWO63 - 1 && Grow(TWO63 - 1, TWO63 - 1, 1, 1) == TWO63 - 1;
    assert Unsigned((TWO63 - 1) * 250) == TWO64 - 250;
  }
}
