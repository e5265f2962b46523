/** The retry delay (internal/messaging/dlq.go), with Go's 64-bit wrap-around written out. */
module Backoff {
  const TWO_63 := 0x8000_0000_0000_0000
  const TWO_64 := 0x1_0000_0000_0000_0000
  const TWO_58 := 0x400_0000_0000_0000
  const CAP_MS := 30000
  const CAP_NS := 30_000_000_000

  /** Two's-complement truncation to 64 bits. */
  function Wrap(x: int): int {
    (x + TWO_63) % TWO_64 - TWO_63
  }

  function Pow2(r: nat): nat {
    if r == 0 then 1 else 2 * Pow2(r - 1)
  }

  /** `1 << r` on Go's int; a negative shift count panics, so the caller owes r >= 0. */
  function ShiftOne(r: nat): int {
    if r >= 64 then 0 else if r == 63 then -TWO_63 else Pow2(r)
  }

  /** The delay in milliseconds, as the machine computes it. */
  function DelayMs(baseMs: int, r: nat): int {
    Capped(Wrap(baseMs * ShiftOne(r)))
  }

  function Capped(ms: int): int {
    if ms > CAP_MS then CAP_MS else ms
  }

  /** The time.Duration handed to time.After, in nanoseconds. */
  function DelayNs(baseMs: int, r: nat): int {
    Wrap(DelayMs(baseMs, r) * 1_000_000)
  }

  /** How long time.After waits: a duration that is not positive fires at once. */
  function SleepNs(baseMs: int, r: nat): nat {
    if DelayNs(baseMs, r) < 0 then 0 else DelayNs(baseMs, r)
  }

  /** The delay the documentation promises, in milliseconds: base * 2^r, at most 30 s. */
  function Promised(baseMs: nat, r: nat): nat {
    if baseMs * Pow2(r) <= 30_000 then baseMs * Pow2(r) else 30_000
  }

  lemma WrapModulo(x: int, k: int)
    ensures Wrap(x + k * TWO_64) == Wrap(x)
  {
    ModShift(x + TWO_63, k);
  }

  lemma {:induction false} ModShift(x: int, k: int)
    ensures (x + k * TWO_64) % TWO_64 == x % TWO_64
    decreases if k < 0 then -k else k
  {
    if k > 0 {
      ModShift(x, k - 1);
      assert x + k * TWO_64 == x + (k - 1) * TWO_64 + TWO_64;
    } else if k < 0 {
      ModShift(x, k + 1);
      assert x + k * TWO_64 == x + (k + 1) * TWO_64 - TWO_64;
    }
  }

  lemma {:induction false} Pow2Splits(a: nat, b: nat)
    ensures Pow2(a + b) == Pow2(a) * Pow2(b)
  {
    if a > 0 {
      Pow2Splits(a - 1, b);
    }
  }

  lemma {:induction false} Pow2Monotone(a: nat, b: nat)
    requires a <= b
    ensures Pow2(a) <= Pow2(b)
  {
    if a < b {
      Pow2Monotone(a, b - 1);
    }
  }

  lemma Pow2At63()
    ensures Pow2(63) == TWO_63
    ensures Pow2(64) == TWO_64
  {
    Pow2Splits(8, 8);
    Pow2Splits(16, 16);
    Pow2Splits(32, 32);
    assert Pow2(8) == 256;
    assert Pow2(16) == 0x1_0000;
    assert Pow2(32) == 0x1_0000_0000;
  }

  /** The machine product is the true product truncated once. */
  lemma MachineProduct(baseMs: int, r: nat)
    ensures Wrap(baseMs * ShiftOne(r)) == Wrap(baseMs * Pow2(r))
  {
    Pow2At63();
    if r >= 64 {
      Pow2Splits(r - 64, 64);
      assert baseMs * Pow2(r) == 0 + (baseMs * Pow2(r - 64)) * TWO_64;
      WrapModulo(0, baseMs * Pow2(r - 64));
    } else if r == 63 {
      assert baseMs * Pow2(63) == baseMs * (-TWO_63) + baseMs * TWO_64;
      WrapModulo(baseMs * (-TWO_63), baseMs);
    }
  }

  /** Exactly when the milliseconds are the promised ones: the product fits 64 bits, or what is left of it
      after truncation still lies between the cap and the sign bit. */
  lemma MillisecondsKeptIff(baseMs: nat, r: nat, product: nat)
    requires product == baseMs * Pow2(r)
    ensures DelayMs(baseMs, r) == Promised(baseMs, r)
      <==> (product < TWO_63 || CAP_MS <= product % TWO_64 < TWO_63)
  {
    MachineProduct(baseMs, r);
    CapAfterWrap(product);
  }

  predicate KeepsPromise(product: nat) {
    || product < TWO_63
    || CAP_MS <= product % TWO_64 < TWO_63
    || (product % TWO_64 >= TWO_63 && product % TWO_58 == CAP_MS)
  }

  /** Exactly when the returned Duration is the promised one. Besides the two cases above, a negative number
      of milliseconds can come out right, because the conversion to nanoseconds truncates once more: when it
      is congruent to the cap modulo 2^58. */
  lemma PromiseKeptIff(baseMs: nat, r: nat, product: nat)
    requires product == baseMs * Pow2(r)
    ensures DelayNs(baseMs, r) == Promised(baseMs, r) * 1_000_000 <==> KeepsPromise(product)
  {
    MachineProduct(baseMs, r);
    WrapRange(product);
    ToNanoseconds(Capped(Wrap(product)), Capped(product));
    CongruentToCap(product);
  }

  lemma WrapRange(x: nat)
    ensures -TWO_63 <= Wrap(x) < TWO_63
    ensures Wrap(x) == if x % TWO_64 < TWO_63 then x % TWO_64 else x % TWO_64 - TWO_64
  {
    WrapModulo(x % TWO_64, x / TWO_64);
  }

  /** Two millisecond values become the same Duration when they agree modulo 2^58. */
  lemma ToNanoseconds(ms: int, promised: int)
    requires 0 <= promised <= CAP_MS
    ensures Wrap(ms * 1_000_000) == promised * 1_000_000 <==> (ms - promised) % TWO_58 == 0
  {
    WrapIs(ms * 1_000_000, promised * 1_000_000);
    MillionDivides(ms - promised);
  }

  lemma WrapIs(y: int, z: int)
    requires -TWO_63 <= z < TWO_63
    ensures Wrap(y) == z <==> (y - z) % TWO_64 == 0
  {
  }

  /** 10^6 is 2^6 times an odd number, which has an inverse modulo 2^58. */
  lemma InverseOf15625(d: int, k: int)
    requires d * 1_000_000 == TWO_64 * k
    ensures d == TWO_58 * (76480200929599801 * k - 4146 * d)
  {
  }

  lemma Multiple(m: int, d: int, q: int)
    requires (m == TWO_58 || m == TWO_64) && d == m * q
    ensures d % m == 0 && d / m == q
  {
  }

  lemma MillionDivides(d: int)
    ensures d * 1_000_000 % TWO_64 == 0 <==> d % TWO_58 == 0
  {
    if d * 1_000_000 % TWO_64 == 0 {
      var k := d * 1_000_000 / TWO_64;
      InverseOf15625(d, k);
      Multiple(TWO_58, d, 76480200929599801 * k - 4146 * d);
    }
    if d % TWO_58 == 0 {
      Multiple(TWO_64, d * 1_000_000, 15625 * (d / TWO_58));
    }
  }

  lemma CongruentToCap(x: nat)
    ensures (Capped(Wrap(x)) - Capped(x)) % TWO_58 == 0 <==> KeepsPromise(x)
  {
    WrapRange(x);
    if x % TWO_64 >= TWO_63 {
      Below58(x);
    }
  }

  lemma Below58(x: nat)
    ensures (x % TWO_64 - TWO_64 - CAP_MS) % TWO_58 == 0 <==> x % TWO_58 == CAP_MS
  {
    var t := x % TWO_64;
    Periodic(t, 64 * (x / TWO_64));
    Periodic(t - CAP_MS, -64);
    Periodic(t % TWO_58 - CAP_MS, t / TWO_58);
  }

  lemma {:induction false} Periodic(a: int, k: int)
    ensures (a + k * TWO_58) % TWO_58 == a % TWO_58
    decreases if k < 0 then -k else k
  {
    if k > 0 {
      Periodic(a, k - 1);
      assert a + k * TWO_58 == a + (k - 1) * TWO_58 + TWO_58;
    } else if k < 0 {
      Periodic(a, k + 1);
      assert a + k * TWO_58 == a + (k + 1) * TWO_58 - TWO_58;
    }
  }

  lemma CapAfterWrap(x: nat)
    ensures Capped(Wrap(x)) == Capped(x) <==> (x < TWO_63 || CAP_MS <= x % TWO_64 < TWO_63)
  {
    var q := x / TWO_64;
    WrapModulo(x % TWO_64, q);
    assert x == x % TWO_64 + q * TWO_64;
    assert Wrap(x) == if x % TWO_64 < TWO_63 then x % TWO_64 else x % TWO_64 - TWO_64;
  }

  /** The default base of one second with a retry budget over 61 wraps to no delay at all. */
  lemma BackoffCanCollapse()
    ensures DelayMs(1000, 61) == 0 < Promised(1000, 61)
  {
    Pow2At63();
    Pow2Splits(3, 61);
    Pow2Splits(61, 2);
    Pow2Splits(61, 3);
    assert Pow2(2) == 4 && Pow2(3) == 8;
    assert 1000 * Pow2(61) == 125 * TWO_64;
    MachineProduct(1000, 61);
    WrapModulo(0, 125);
  }

  /** The second truncation can repair the first: the milliseconds are far below zero, the Duration is
      exactly 30 s. */
  lemma SecondTruncationRepairs()
    ensures var baseMs := TWO_63 / 2 + 15000;
      DelayMs(baseMs, 1) < 0 && DelayNs(baseMs, 1) == Promised(baseMs, 1) * 1_000_000
  {
    var baseMs := TWO_63 / 2 + 15000;
    assert Pow2(1) == 2;
    PromiseKeptIff(baseMs, 1, baseMs * 2);
  }

  /** As long as the product does not overflow, `backoff` returns base * 2^r milliseconds, or 30 s where that
      is less. */
  lemma DelayWithoutOverflow(baseMs: nat, r: nat)
    requires baseMs * Pow2(r) < TWO_63
    ensures DelayNs(baseMs, r) == (if baseMs * Pow2(r) <= 30_000 then baseMs * Pow2(r) else 30_000) * 1_000_000
  {
    Scale(baseMs, 0, Pow2(r));
    PromiseKeptIff(baseMs, r, baseMs * Pow2(r));
  }

  /** The documented schedule of the default configuration: 1, 2, 4, 8 and 16 seconds. */
  lemma DefaultSchedule()
    ensures DelayNs(1000, 0) == 1_000_000_000
    ensures DelayNs(1000, 1) == 2_000_000_000
    ensures DelayNs(1000, 2) == 4_000_000_000
    ensures DelayNs(1000, 3) == 8_000_000_000
    ensures DelayNs(1000, 4) == 16_000_000_000
  {
    assert Pow2(1) == 2 && Pow2(2) == 4 && Pow2(3) == 8 && Pow2(4) == 16;
    DelayWithoutOverflow(1000, 0);
    DelayWithoutOverflow(1000, 1);
    DelayWithoutOverflow(1000, 2);
    DelayWithoutOverflow(1000, 3);
    DelayWithoutOverflow(1000, 4);
  }

  /** Under a bound a deployment can check once (RETRY_BASE_DELAY_MS and RETRY_MAX_ATTEMPTS),
      every delay of every retry is the promised one, in milliseconds and as a Duration. */
  lemma BoundedConfigIsExact(baseMs: nat, maxRetry: nat, r: nat)
    requires r < maxRetry && baseMs * Pow2(maxRetry - 1) < TWO_63
    ensures DelayMs(baseMs, r) == Promised(baseMs, r)
    ensures DelayNs(baseMs, r) == Promised(baseMs, r) * 1_000_000
  {
    Pow2Monotone(r, maxRetry - 1);
    Scale(baseMs, Pow2(r), Pow2(maxRetry - 1));
    Scale(baseMs, 0, Pow2(r));
    MillisecondsKeptIff(baseMs, r, baseMs * Pow2(r));
    WrapSmall(Promised(baseMs, r));
  }

  lemma WrapSmall(ms: int)
    requires 0 <= ms <= CAP_MS
    ensures Wrap(ms * 1_000_000) == ms * 1_000_000
  {
  }

  /** Later retries never wait less. */
  lemma DelayMonotone(baseMs: nat, maxRetry: nat, r: nat, r': nat)
    requires r <= r' < maxRetry && baseMs * Pow2(maxRetry - 1) < TWO_63
    ensures 0 <= DelayMs(baseMs, r) <= DelayMs(baseMs, r') <= CAP_MS
  {
    BoundedConfigIsExact(baseMs, maxRetry, r);
    BoundedConfigIsExact(baseMs, maxRetry, r');
    Pow2Monotone(r, r');
    Scale(baseMs, Pow2(r), Pow2(r'));
  }

  lemma Scale(k: nat, a: nat, b: nat)
    requires a <= b
    ensures 0 <= k * a <= k * b
  {
  }

  /** Nanoseconds a chain spends waiting before its first n retries. */
  function TotalWait(baseMs: int, n: nat): nat {
    if n == 0 then 0 else TotalWait(baseMs, n - 1) + SleepNs(baseMs, n - 1)
  }

  lemma {:induction false} TotalWaitBound(baseMs: nat, maxRetry: nat, n: nat)
    requires n <= maxRetry
    requires maxRetry > 0 ==> baseMs * Pow2(maxRetry - 1) < TWO_63
    ensures TotalWait(baseMs, n) <= baseMs * (Pow2(n) - 1) * 1_000_000
    ensures TotalWait(baseMs, n) <= CAP_NS * n
  {
    if n > 0 {
      TotalWaitBound(baseMs, maxRetry, n - 1);
      BoundedConfigIsExact(baseMs, maxRetry, n - 1);
      Scale(baseMs, 0, Pow2(n - 1));
      Doubling(baseMs, n);
    }
  }

  /** While no delay is capped the waits add up to base * (2^n - 1) ms exactly. */
  lemma {:induction false} TotalWaitUncapped(baseMs: nat, n: nat)
    requires n > 0 ==> baseMs * Pow2(n - 1) <= 30_000
    ensures TotalWait(baseMs, n) == baseMs * (Pow2(n) - 1) * 1_000_000
  {
    if n > 0 {
      if n > 1 {
        Pow2Monotone(n - 2, n - 1);
        Scale(baseMs, Pow2(n - 2), Pow2(n - 1));
      }
      TotalWaitUncapped(baseMs, n - 1);
      Scale(baseMs, 0, Pow2(n - 1));
      DelayWithoutOverflow(baseMs, n - 1);
      Doubling(baseMs, n);
    }
  }

  lemma Doubling(baseMs: nat, n: nat)
    requires n > 0
    ensures baseMs * (Pow2(n) - 1) == baseMs * (Pow2(n - 1) - 1) + baseMs * Pow2(n - 1)
  {
    var p := Pow2(n - 1);
    assert Pow2(n) == 2 * p;
  }
}
