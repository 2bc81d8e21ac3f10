/** The retry delays of WithCacheLock, in the 64-bit arithmetic of time.Duration. */
module Backoff {

  const TWO_63: int := 0x8000_0000_0000_0000
  const TWO_64: int := 0x1_0000_0000_0000_0000

  function Pow2(n: nat): (p: nat)
    ensures p >= 1
  {
    if n == 0 then 1 else 2 * Pow2(n - 1)
  }

  /** Two's-complement truncation to 64 bits. */
  function Wrap64(x: int): (w: int)
    ensures -TWO_63 <= w < TWO_63
  {
    (x + TWO_63) % TWO_64 - TWO_63
  }

  /** `retryDelay * time.Duration(1<<attempt)`. */
  function Delay(retryDelay: int, attempt: nat): int {
    Wrap64(retryDelay * Wrap64(Pow2(attempt)))
  }

  /** A timer set to a negative duration fires at once. */
  function Wait(retryDelay: int, attempt: nat): nat {
    var d := Delay(retryDelay, attempt);
    if d < 0 then 0 else d
  }

  /** Everything slept by a caller whose first `n` attempts found the lock busy. */
  function TotalWait(retryDelay: int, n: nat): nat {
    if n == 0 then 0 else TotalWait(retryDelay, n - 1) + Wait(retryDelay, n - 1)
  }

  lemma WrapShift(x: int, k: int)
    ensures Wrap64(x + k * TWO_64) == Wrap64(x)
  {
    var a := x + TWO_63;
    assert (a + k * TWO_64) % TWO_64 == a % TWO_64;
  }

  lemma WrapDecompose(x: int) returns (k: int)
    ensures x == Wrap64(x) + k * TWO_64
    ensures 0 <= x ==> 0 <= k
  {
    k := (x + TWO_63) / TWO_64;
  }

  lemma SpreadProduct(d: int, w: int, k: int)
    ensures d * (w + k * TWO_64) == d * w + (d * k) * TWO_64
  {
    assert d * (k * TWO_64) == (d * k) * TWO_64;
  }

  /** Truncating the shifted one before the product changes nothing. */
  lemma DelayIsWrappedProduct(retryDelay: int, attempt: nat)
    ensures Delay(retryDelay, attempt) == Wrap64(retryDelay * Pow2(attempt))
  {
    var p := Pow2(attempt);
    var k := WrapDecompose(p);
    SpreadProduct(retryDelay, Wrap64(p), k);
    WrapShift(retryDelay * Wrap64(p), retryDelay * k);
  }

  lemma {:induction false} Pow2Monotone(a: nat, b: nat)
    requires a <= b
    ensures Pow2(a) <= Pow2(b)
    decreases b
  {
    if a < b {
      Pow2Monotone(a, b - 1);
    }
  }

  lemma ProductMonotone(d: int, x: int, y: int)
    requires 0 <= d && x <= y
    ensures d * x <= d * y
  {
  }

  lemma DoubleProduct(d: int, p: int)
    ensures d * (p - 1) + d * p == d * (2 * p - 1)
  {
  }

  lemma WaitBound(retryDelay: int, attempt: nat)
    requires 0 <= retryDelay
    ensures Wait(retryDelay, attempt) <= retryDelay * Pow2(attempt)
  {
    var x := retryDelay * Pow2(attempt);
    DelayIsWrappedProduct(retryDelay, attempt);
    ProductMonotone(retryDelay, 0, Pow2(attempt));
    var k := WrapDecompose(x);
  }

  /** Geometric bound on the whole sleep; truncation can only shorten it. */
  lemma {:induction false} TotalWaitBound(retryDelay: int, n: nat)
    requires 0 <= retryDelay
    ensures TotalWait(retryDelay, n) <= retryDelay * (Pow2(n) - 1)
  {
    if n > 0 {
      TotalWaitBound(retryDelay, n - 1);
      WaitBound(retryDelay, n - 1);
      DoubleProduct(retryDelay, Pow2(n - 1));
    }
  }

  lemma {:induction false} TotalWaitMonotone(retryDelay: int, m: nat, n: nat)
    requires m <= n
    ensures TotalWait(retryDelay, m) <= TotalWait(retryDelay, n)
    decreases n
  {
    if m < n {
      TotalWaitMonotone(retryDelay, m, n - 1);
    }
  }

  /** The delay of one attempt is the exact product, with no overflow. */
  ghost predicate Exact(retryDelay: int, attempt: nat) {
    Delay(retryDelay, attempt) == retryDelay * Pow2(attempt)
  }

  lemma ExactIff(retryDelay: int, attempt: nat)
    requires 0 <= retryDelay
    ensures Exact(retryDelay, attempt) <==> retryDelay * Pow2(attempt) < TWO_63
  {
    DelayIsWrappedProduct(retryDelay, attempt);
    ProductMonotone(retryDelay, 0, Pow2(attempt));
  }

  /** The delays double without overflow exactly when the last one fits in 64 bits. */
  lemma NoOverflowIff(retryDelay: int, maxRetries: nat)
    requires 0 <= retryDelay
    ensures (forall a: nat :: a <= maxRetries ==> Exact(retryDelay, a))
        <==> retryDelay * Pow2(maxRetries) < TWO_63
  {
    ExactIff(retryDelay, maxRetries);
    if Exact(retryDelay, maxRetries) {
      forall a: nat | a <= maxRetries
        ensures Exact(retryDelay, a)
      {
        ExactIff(retryDelay, a);
        Pow2Monotone(a, maxRetries);
        ProductMonotone(retryDelay, Pow2(a), Pow2(maxRetries));
      }
    }
  }

  /** What is really waited: at first the configured delay, ... */
  lemma WaitFirst(retryDelay: int)
    requires 0 <= retryDelay < TWO_63
    ensures Wait(retryDelay, 0) == retryDelay
  {
    WaitExact(retryDelay, 0);
  }

  /** ... and then each time twice as long, as long as that fits in 64 bits. */
  lemma WaitDoubles(retryDelay: int, attempt: nat)
    requires 0 <= retryDelay && retryDelay * Pow2(attempt + 1) < TWO_63
    ensures Wait(retryDelay, attempt + 1) == 2 * Wait(retryDelay, attempt)
  {
    TwiceProduct(retryDelay, Pow2(attempt));
    ProductMonotone(retryDelay, Pow2(attempt), Pow2(attempt + 1));
    WaitExact(retryDelay, attempt);
    WaitExact(retryDelay, attempt + 1);
  }

  lemma TwiceProduct(d: int, p: int)
    ensures d * (2 * p) == 2 * (d * p)
  {
  }

  lemma WaitExact(retryDelay: int, attempt: nat)
    requires 0 <= retryDelay && retryDelay * Pow2(attempt) < TWO_63
    ensures Wait(retryDelay, attempt) == retryDelay * Pow2(attempt)
  {
    ExactIff(retryDelay, attempt);
    ProductMonotone(retryDelay, 0, Pow2(attempt));
  }

  /** Without overflow the waits of `n` attempts add up to exactly this. */
  lemma {:induction false} TotalWaitExact(retryDelay: int, n: nat)
    requires 0 <= retryDelay && (n == 0 || retryDelay * Pow2(n - 1) < TWO_63)
    ensures TotalWait(retryDelay, n) == retryDelay * (Pow2(n) - 1)
  {
    if n > 0 {
      if n > 1 {
        ProductMonotone(retryDelay, Pow2(n - 2), Pow2(n - 1));
      }
      TotalWaitExact(retryDelay, n - 1);
      WaitExact(retryDelay, n - 1);
      DoubleProduct(retryDelay, Pow2(n - 1));
    }
  }

  /** A configured delay that is not positive is not waited for, unless the product leaves 64 bits. */
  lemma NoWait(retryDelay: int, attempt: nat)
    requires retryDelay <= 0 && -TWO_63 <= retryDelay * Pow2(attempt)
    ensures Wait(retryDelay, attempt) == 0
  {
    DelayIsWrappedProduct(retryDelay, attempt);
    ProductMonotone(-retryDelay, 0, Pow2(attempt));
  }
}
