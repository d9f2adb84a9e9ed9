/** Delays, in nanoseconds as Go durations are: between delivery attempts, and before a dead
    letter is tried again (internal/webhooks/worker_dispatcher.go). */
module Backoff {
  import opened Numbers

  const SECOND := 1_000_000_000
  const MINUTE := 60 * SECOND
  const DAY := 24 * 60 * MINUTE
  const MAX_WAIT := 30 * SECOND

  function Pow2(k: nat): nat {
    if k == 0 then 1 else 2 * Pow2(k - 1)
  }

  lemma {:induction false} Pow2Monotone(j: nat, k: nat)
    requires j <= k
    ensures 1 <= Pow2(j) <= Pow2(k)
    decreases k
  {
    if j < k { Pow2Monotone(j, k - 1); } else if k > 0 { Pow2Monotone(k - 1, k - 1); }
  }

  // ---- retries within one delivery -------------------------------------------------------

  /** The delay promised after failed attempt number `attempt`: 1 s, 2 s, 4 s ... capped at 30 s. */
  function RetryDelay(attempt: int): int {
    Min(SECOND * Pow2(Max(attempt - 1, 0)), MAX_WAIT)
  }

  /** Five doublings of a second exceed thirty seconds, so do more. */
  lemma BeyondTheCap(k: nat)
    ensures k <= 4 <==> SECOND * Pow2(k) <= MAX_WAIT
    ensures k <= 4 ==> Pow2(k) == [1, 2, 4, 8, 16][k]
  {
    assert Pow2(2) == 4;
    assert Pow2(4) == 16 && Pow2(5) == 32;
    if k >= 5 { Pow2Monotone(5, k); }
  }

  /** The loop meets the promise for every attempt number, and no duration it computes on the
      way leaves int64: the cap cuts the doubling off at 32 s. */
  method ExponentialBackoff(attempt: int) returns (d: int)
    ensures d == RetryDelay(attempt)
    ensures d == if attempt <= 1 then 1_000_000_000
                 else if attempt >= 6 then 30_000_000_000
                 else [2_000_000_000, 4_000_000_000, 8_000_000_000, 16_000_000_000][attempt - 2]
  {
    d := SECOND;
    var i := 1;
    while i < attempt
      invariant 1 <= i <= Max(attempt, 1)
      invariant d == SECOND * Pow2(i - 1) && d <= MAX_WAIT
    {
      BeyondTheCap(i);
      d := d * 2;
      assert d <= MAX_INT64;
      if d > MAX_WAIT {
        Pow2Monotone(i, attempt - 1);
        return MAX_WAIT;
      }
      i := i + 1;
    }
    BeyondTheCap(i - 1);
  }

  /** Time slept after the first n failed attempts, one delay after each. */
  function Slept(backoff: int -> int, n: nat): int {
    if n == 0 then 0 else Slept(backoff, n - 1) + backoff(n)
  }

  /** A delivery whose first m attempts fail sleeps after each but the last. */
  lemma {:induction false} TotalSleepClosedForm(m: nat)
    requires m >= 1
    ensures m <= 6 ==> Slept(RetryDelay, m - 1) == SECOND * (Pow2(m - 1) - 1)
    ensures m >= 6 ==> Slept(RetryDelay, m - 1) == SECOND * (31 + 30 * (m - 6))
  {
    if m > 1 {
      TotalSleepClosedForm(m - 1);
      BeyondTheCap(m - 2);
      assert Pow2(m - 1) == 2 * Pow2(m - 2);
      assert m >= 6 ==> Pow2(5) == 32;
    }
  }

  // ---- back-off of a dead letter ---------------------------------------------------------

  /** Two's-complement value of an int64 computation. */
  function WrapInt64(n: int): int {
    var m := n % 0x1_0000_0000_0000_0000;
    if m <= MAX_INT64 then m else m - 0x1_0000_0000_0000_0000
  }

  function Exponent(attempts: int): nat {
    Min(Max(attempts - 1, 0), 8)
  }

  /** What replayAndUpdate computes from the base c once `attempts` counts the failed replay. */
  function DlqBackoff(c: int, attempts: int): int {
    var backoff := WrapInt64(c * Pow2(Exponent(attempts)));
    if backoff > DAY then DAY else backoff
  }

  /** What its comment promises: c doubled per attempt, capped at 24 h. */
  function PromisedBackoff(c: int, attempts: int): int {
    Min(c * Pow2(Exponent(attempts)), DAY)
  }

  lemma SmallPowers()
    ensures Pow2(0) == 1 && Pow2(1) == 2 && Pow2(2) == 4 && Pow2(3) == 8 && Pow2(4) == 16
    ensures Pow2(5) == 32 && Pow2(6) == 64 && Pow2(7) == 128 && Pow2(8) == 256
  {
    assert Pow2(2) == 4;
    assert Pow2(4) == 16;
    assert Pow2(6) == 64;
  }

  lemma PromiseKept(c: int, a: int)
    requires 1 <= c && 256 * c <= MAX_INT64
    ensures DlqBackoff(c, a) == PromisedBackoff(c, a)
    ensures 1 <= c * Pow2(Exponent(a)) <= 256 * c
  {
    SmallPowers();
    Pow2Monotone(Exponent(a), 8);
    ScaleBounds(c, Pow2(Exponent(a)));
  }

  /** The wait after a failed replay of a letter that had `a` attempts: in nanoseconds, the base
      times 1, 2, 4 ... 256, and never more than a day. */
  lemma WaitInNanoseconds(c: int, a: int)
    requires 1 <= c <= 36_028_797_018_963_967
    ensures var p := [1, 2, 4, 8, 16, 32, 64, 128, 256][if a < 0 then 0 else if a > 8 then 8 else a];
            DlqBackoff(c, a + 1) == if c * p > 86_400_000_000_000 then 86_400_000_000_000 else c * p
  {
    SmallPowers();
    PromiseKept(c, a + 1);
  }

  /** The promise is kept at every attempt count exactly for bases up to MaxInt64 / 256; any
      larger base overflows at some count, and the wrapped delay is negative there. */
  lemma BackoffMeetsPromiseIff(c: int)
    requires 1 <= c <= MAX_INT64
    ensures 256 * c <= MAX_INT64 <==> forall a :: DlqBackoff(c, a) == PromisedBackoff(c, a)
  {
    SmallPowers();
    if 256 * c <= MAX_INT64 {
      forall a ensures DlqBackoff(c, a) == PromisedBackoff(c, a) { PromiseKept(c, a); }
    } else {
      var a := FirstOverflow(c, 0);
      assert DlqBackoff(c, a) != PromisedBackoff(c, a);
    }
  }

  lemma ScaleBounds(c: int, p: int)
    requires c >= 1 && 1 <= p <= 256
    ensures 1 <= c * p <= 256 * c
  {
    assert c * p == c + c * (p - 1);
    assert 256 * c - c * p == c * (256 - p);
  }

  /** The first doubling that leaves int64 lands between 2^63 and 2^64, so it wraps to a
      negative delay. */
  lemma {:induction false} FirstOverflow(c: int, k: nat) returns (a: int)
    requires c >= 1 && k <= 8 && c * Pow2(k) <= MAX_INT64 < c * Pow2(8)
    ensures DlqBackoff(c, a) < 0 < PromisedBackoff(c, a)
    decreases 8 - k
  {
    Twice(c, Pow2(k));
    if c * Pow2(k + 1) <= MAX_INT64 {
      a := FirstOverflow(c, k + 1);
    } else {
      a := k + 2;
    }
  }

  lemma Twice(c: int, p: int)
    ensures c * (2 * p) == c * p + c * p
  {
  }

  lemma MulMonotone(c: int, p: int, q: int)
    requires c >= 0 && p <= q
    ensures c * p <= c * q
  {
  }

  /** More failures never shorten the wait, and from the ninth on it stays put. */
  lemma BackoffMonotone(c: int, a: int, b: int)
    requires 1 <= c && 256 * c <= MAX_INT64 && a <= b
    ensures DlqBackoff(c, a) <= DlqBackoff(c, b)
    ensures a >= 9 ==> DlqBackoff(c, a) == DlqBackoff(c, b) == Min(256 * c, DAY)
  {
    SmallPowers();
    PromiseKept(c, a);
    PromiseKept(c, b);
    Pow2Monotone(Exponent(a), Exponent(b));
    MulMonotone(c, Pow2(Exponent(a)), Pow2(Exponent(b)));
  }

  /** With the default base of five minutes the 24 h cap is never reached: the longest wait is
      1280 minutes. */
  lemma DefaultBaseNeverCaps(a: int)
    ensures 5 * MINUTE <= DlqBackoff(5 * MINUTE, a) <= 1280 * MINUTE < DAY
    ensures a >= 9 ==> DlqBackoff(5 * MINUTE, a) == 1280 * MINUTE
  {
    SmallPowers();
    BackoffMonotone(5 * MINUTE, Min(a, 0), a);
    BackoffMonotone(5 * MINUTE, a, Max(a, 9));
    assert Exponent(Min(a, 0)) == 0;
  }

  /** Earliest start of the (n+1)-st scheduled replay, counted from the first failure: the
      cooling-off period and then one back-off per failed replay. */
  function Floor(c: int, n: int): int {
    if n <= 0 then c else Floor(c, n - 1) + DlqBackoff(c, n)
  }

  lemma Uncapped(c: int, a: int)
    requires c >= 1 && 256 * c <= DAY
    ensures DlqBackoff(c, a) == c * Pow2(Exponent(a))
  {
    PromiseKept(c, a);
  }

  /** Up to the tenth replay the waits double the total each time: replay n + 1 cannot start
      before c * 2^n. */
  lemma {:induction false} FloorDoubles(c: int, n: nat)
    requires c >= 1 && 256 * c <= DAY && n <= 9
    ensures Floor(c, n) == c * Pow2(n)
  {
    if n > 0 {
      FloorDoubles(c, n - 1);
      Uncapped(c, n);
      Twice(c, Pow2(n - 1));
    }
  }

  /** After that each replay adds 256 c. */
  lemma {:induction false} FloorGrowsLinearly(c: int, n: nat)
    requires c >= 1 && 256 * c <= DAY && n >= 9
    ensures Floor(c, n) == 512 * c + (n - 9) * (256 * c)
  {
    SmallPowers();
    if n == 9 {
      FloorDoubles(c, 9);
      assert Pow2(9) == 512;
    } else {
      FloorGrowsLinearly(c, n - 1);
      Uncapped(c, n);
      var d := 256 * c;
      assert (n - 9) * d == (n - 10) * d + d;
    }
  }
}
