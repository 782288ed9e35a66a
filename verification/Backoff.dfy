/** `computeDeletionRetry` in int64 arithmetic. */
module Backoff {
  import opened Base

  const RETRY_INTERVAL: int := 10 * SECOND
  const MAX_RETRY_INTERVAL: int := 60 * SECOND

  function Pow2(n: nat): (r: nat)
    ensures r >= 1
  {
    if n == 0 then 1 else 2 * Pow2(n - 1)
  }

  /** `1 << n` on an int64: shifting by 64 or more leaves nothing. */
  function ShiftedOne(n: nat): int {
    if n >= 64 then 0 else Wrap64(Pow2(n))
  }

  function RetryDelay(attempts: int): int {
    var delay := Wrap64(RETRY_INTERVAL * ShiftedOne(if attempts > 0 then attempts else 0));
    if delay > MAX_RETRY_INTERVAL then MAX_RETRY_INTERVAL else delay
  }

  lemma {:induction false} Pow2Adds(a: nat, b: nat)
    ensures Pow2(a + b) == Pow2(a) * Pow2(b)
  {
    if a > 0 {
      Pow2Adds(a - 1, b);
      assert Pow2(a - 1 + b) == Pow2(a - 1) * Pow2(b);
    }
  }

  lemma Pow2Values()
    ensures Pow2(10) == 1024 && Pow2(29) == 536870912 && Pow2(30) == 1073741824 && Pow2(54) == 18014398509481984
  {
    assert Pow2(5) == 32;
    Pow2Adds(5, 5);
    Pow2Adds(10, 10);
    Pow2Adds(10, 20);
    assert Pow2(30) == 2 * Pow2(29);
    Pow2Adds(20, 30);
    assert Pow2(4) == 16;
    Pow2Adds(4, 50);
  }

  lemma {:induction false} Pow2Monotone(a: nat, b: nat)
    requires a <= b
    ensures Pow2(a) <= Pow2(b)
  {
    if a < b {
      Pow2Monotone(a, b - 1);
    }
  }

  lemma WrapOfMultiple(k: int)
    ensures Wrap64(k * TWO_64) == 0
  {
    assert (k * TWO_64 + TWO_63) % TWO_64 == TWO_63;
  }

  /** Multiplying a wrapped factor wraps to the same value as multiplying the true one. */
  lemma WrapAbsorbsFactor(a: int, b: int)
    ensures Wrap64(a * Wrap64(b)) == Wrap64(a * b)
  {
    var k := (b + TWO_63) / TWO_64;
    assert Wrap64(b) == b - k * TWO_64;
    MultiplyOut(a, b, k);
    WrapIgnoresMultiples(a * b, a * k);
  }

  lemma MultiplyOut(a: int, b: int, k: int)
    ensures a * (b - k * TWO_64) == a * b - (a * k) * TWO_64
  {
    calc {
      a * (b - k * TWO_64);
      a * b - a * (k * TWO_64);
      a * b - (a * k) * TWO_64;
    }
  }

  lemma WrapIgnoresMultiples(x: int, m: int)
    ensures Wrap64(x - m * TWO_64) == Wrap64(x)
  {
    assert (x - m * TWO_64 + TWO_63) % TWO_64 == (x + TWO_63) % TWO_64;
  }

  lemma WrapOfProduct(p: nat)
    requires p <= 536870912
    ensures Wrap64(RETRY_INTERVAL * p) == RETRY_INTERVAL * p
  {
  }

  /** However many attempts were made, the next one is never scheduled more than a minute out. */
  lemma RetryNeverLaterThanAMinute(attempts: int, now: Time)
    ensures now + RetryDelay(attempts) <= now + 60 * SECOND
  {
  }

  /** Up to 29 attempts the delay is the documented capped doubling. */
  lemma RetryDoublesThenCaps(n: nat)
    requires n <= 29
    ensures RetryDelay(n) == if 10 * SECOND * Pow2(n) < 60 * SECOND then 10 * SECOND * Pow2(n) else 60 * SECOND
  {
    Pow2Values();
    Pow2Monotone(n, 29);
    var p := Pow2(n);
    assert p <= 536870912;
    assert ShiftedOne(n) == p;
    WrapOfProduct(p);
  }

  /** The thirtieth attempt is the first whose product no longer fits: it wraps to a negative delay. */
  lemma RetryFirstWrapsAtThirty()
    ensures RETRY_INTERVAL * Pow2(29) < TWO_63 <= RETRY_INTERVAL * Pow2(30)
    ensures RetryDelay(30) < 0
  {
    Pow2Values();
  }

  lemma Regroup(k: int)
    ensures RETRY_INTERVAL * (18014398509481984 * k) == 9765625 * k * TWO_64
  {
  }

  /** From 54 attempts on nothing is left of the product: the retry is immediate. */
  lemma RetryImmediateFromFiftyFour(n: int)
    requires n >= 54
    ensures RetryDelay(n) == 0
  {
    if n < 64 {
      WrapAbsorbsFactor(RETRY_INTERVAL, Pow2(n));
      Pow2Values();
      Pow2Adds(54, n - 54);
      var k := Pow2(n - 54);
      Regroup(k);
      WrapOfMultiple(9765625 * k);
    }
  }

  /** The delay the comment and the constants promise. */
  function Documented(n: nat): int {
    if RETRY_INTERVAL * Pow2(n) < MAX_RETRY_INTERVAL then RETRY_INTERVAL * Pow2(n) else MAX_RETRY_INTERVAL
  }

  /** The product as int64 arithmetic leaves it, before the cap. */
  function Product(n: nat): int {
    Wrap64(RETRY_INTERVAL * Pow2(n))
  }

  lemma ProductDoubles(n: nat)
    ensures Product(n + 1) == Wrap64(2 * Product(n))
  {
    WrapAbsorbsFactor(2, RETRY_INTERVAL * Pow2(n));
  }

  lemma DelayIsCappedProduct(n: nat)
    requires n < 64
    ensures RetryDelay(n) == if Product(n) > MAX_RETRY_INTERVAL then MAX_RETRY_INTERVAL else Product(n)
  {
    WrapAbsorbsFactor(RETRY_INTERVAL, Pow2(n));
  }

  /** The products from the first overflow to the last one that is not zero. */
  function Wrapped(n: nat): int {
    if n == 30 then -7709325833709551616
    else if n == 31 then 3028092406290448384
    else if n == 32 then 6056184812580896768
    else if n == 33 then -6334374448547758080
    else if n == 34 then 5777995176614035456
    else if n == 35 then -6890753720481480704
    else if n == 36 then 4665236632746590208
    else if n == 37 then -9116270808216371200
    else if n == 38 then 214202457276809216
    else if n == 39 then 428404914553618432
    else if n == 40 then 856809829107236864
    else if n == 41 then 1713619658214473728
    else if n == 42 then 3427239316428947456
    else if n == 43 then 6854478632857894912
    else if n == 44 then -4737786807993761792
    else if n == 45 then 8971170457722028032
    else if n == 46 then -504403158265495552
    else if n == 47 then -1008806316530991104
    else if n == 48 then -2017612633061982208
    else if n == 49 then -4035225266123964416
    else if n == 50 then -8070450532247928832
    else if n == 51 then 2305843009213693952
    else if n == 52 then 4611686018427387904
    else -9223372036854775808
  }

  lemma WrappedDoubles(n: nat)
    requires 30 <= n < 53
    ensures Wrapped(n + 1) == Wrap64(2 * Wrapped(n))
  {
  }

  lemma ProductAt30(n: nat)
    requires n == 30
    ensures Product(n) == Wrapped(n)
  {
    Pow2Values();
  }

  lemma {:induction false} ProductsWrap(n: nat)
    requires 30 <= n <= 53
    ensures Product(n) == Wrapped(n)
  {
    if n == 30 {
      ProductAt30(n);
    } else {
      ProductsWrap(n - 1);
      ProductDoubles(n - 1);
      WrappedDoubles(n - 1);
    }
  }

  /** The attempt counts between the first overflow and the last non-zero product at which wrapping
      happens to leave more than a minute. */
  const LUCKY: set<nat> := {31, 32, 34, 36, 38, 39, 40, 41, 42, 43, 45, 51, 52}

  /** The delay is the documented one exactly up to 29 attempts and at these counts; at every other
      count it is not positive, so the retry is immediate. */
  lemma RetryIsDocumentedIff(n: nat)
    ensures RetryDelay(n) == Documented(n) <==> n <= 29 || n in LUCKY
    ensures !(n <= 29 || n in LUCKY) ==> RetryDelay(n) <= 0
  {
    if n <= 29 {
      RetryDoublesThenCaps(n);
    } else if n >= 54 {
      DocumentedIsCapped(n);
      RetryImmediateFromFiftyFour(n);
    } else {
      DocumentedIsCapped(n);
      DelayWhileWrapping(n);
    }
  }

  lemma DocumentedIsCapped(n: nat)
    requires n >= 30
    ensures Documented(n) == MAX_RETRY_INTERVAL
  {
    Pow2Values();
    Pow2Monotone(29, n);
  }

  lemma LuckyIsPositive(n: nat)
    requires 30 <= n <= 53
    ensures if n in LUCKY then Wrapped(n) > MAX_RETRY_INTERVAL else Wrapped(n) < 0
  {
    if n < 42 {
      assert n in LUCKY <==> n in {31, 32, 34, 36, 38, 39, 40, 41};
    } else {
      assert n in LUCKY <==> n in {42, 43, 45, 51, 52};
    }
  }

  lemma DelayWhileWrapping(n: nat)
    requires 30 <= n <= 53
    ensures if n in LUCKY then RetryDelay(n) == MAX_RETRY_INTERVAL else RetryDelay(n) < 0
  {
    LuckyIsPositive(n);
    DelayIsCappedProduct(n);
    ProductsWrap(n);
    DelayFromSign(n, Wrapped(n));
  }

  lemma DelayFromSign(n: nat, w: int)
    requires RetryDelay(n) == if w > MAX_RETRY_INTERVAL then MAX_RETRY_INTERVAL else w
    ensures w > MAX_RETRY_INTERVAL ==> RetryDelay(n) == MAX_RETRY_INTERVAL
    ensures w < 0 ==> RetryDelay(n) < 0
  {
  }
}
