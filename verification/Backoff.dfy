// One reconcile pass over keyed resources with failure backoff (BBgrid_Server/runtime/reconcile.go):
// the loops that reconcileProxies and reconcileRelays share, and the delay after repeated failures.
module Backoff {
  import opened Wrappers

  // ---------------------------------------------------------------- the delay, in int64 nanoseconds

  const SECOND := 1_000_000_000
  const MAX_DELAY := 600 * SECOND

  function Pow2(n: nat): (p: int)
    ensures p >= 1
  {
    if n == 0 then 1 else 2 * Pow2(n - 1)
  }

  function Wrap64(n: int): int {
    (n + 0x8000_0000_0000_0000) % 0x1_0000_0000_0000_0000 - 0x8000_0000_0000_0000
  }

  /** time.Duration(1<<uint(failCount-1)) * 30 * time.Second, capped from above only. */
  function Delay(failCount: int): int
    requires failCount > 0
  {
    var d := Wrap64(Wrap64(Wrap64(Pow2(failCount - 1)) * 30) * SECOND);
    if d > MAX_DELAY then MAX_DELAY else d
  }

  /** What the delay is meant to be. */
  function IntendedDelay(failCount: int): int
    requires failCount > 0
  {
    Min(30 * SECOND * Pow2(failCount - 1), MAX_DELAY)
  }

  /** The counts from 30 on whose wrapped product still lies above the cap. */
  const LUCKY_COUNTS := {32, 39, 40, 41, 42, 44, 45, 46, 50, 52}

  lemma WrapTimes(a: int, c: int)
    ensures Wrap64(Wrap64(a) * c) == Wrap64(a * c)
  {
    var m, h := 0x1_0000_0000_0000_0000, 0x8000_0000_0000_0000;
    var q := (a + h) / m;
    assert Wrap64(a) == a - q * m;
    assert Wrap64(a) * c + h == a * c + h + (-q * c) * m by {
      assert (a - q * m) * c == a * c - (q * m) * c;
      assert (q * m) * c == (q * c) * m;
    }
    ModShift(a * c + h, -q * c, m);
  }

  lemma ModShift(a: int, k: int, m: int)
    requires m > 0
    ensures (a + k * m) % m == a % m
  {
    var q, r := a / m, a % m;
    assert a + k * m == (q + k) * m + r;
    assert (q + k) * m == q * m + k * m;
    DivisionIs(a + k * m, m, q + k, r);
  }

  /** The three wrapping factors amount to wrapping the whole product once. */
  lemma DelayWrapsOnce(n: int)
    requires n > 0
    ensures Delay(n) == Min(Wrap64(30 * SECOND * Pow2(n - 1)), MAX_DELAY)
  {
    WrapTimes(Pow2(n - 1), 30);
    WrapTimes(Pow2(n - 1) * 30, SECOND);
    assert Pow2(n - 1) * 30 * SECOND == 30 * SECOND * Pow2(n - 1);
  }

  lemma {:induction false} Pow2Add(a: nat, b: nat)
    ensures Pow2(a + b) == Pow2(a) * Pow2(b)
  {
    if a > 0 {
      Pow2Add(a - 1, b);
      assert Pow2(a + b) == 2 * Pow2(a - 1 + b);
      assert 2 * (Pow2(a - 1) * Pow2(b)) == (2 * Pow2(a - 1)) * Pow2(b);
    }
  }

  lemma {:induction false} Pow2Monotone(a: nat, b: nat)
    requires a <= b
    ensures Pow2(a) <= Pow2(b)
  {
    if a < b { Pow2Monotone(a, b - 1); }
  }

  lemma Pow2Values()
    ensures Pow2(10) == 0x400 && Pow2(20) == 0x10_0000 && Pow2(28) == 0x1000_0000
    ensures Pow2(29) == 0x2000_0000 && Pow2(54) == 0x40_0000_0000_0000
  {
    assert Pow2(5) == 32;
    Pow2Add(5, 5);
    Pow2Add(10, 10);
    assert Pow2(9) == 512;
    Pow2Add(20, 9);
    Pow2Add(29, 20);
    Pow2Add(49, 5);
  }

  /** From 55 failures on the product is zero: the entry is retried in every pass. */
  lemma DelayVanishes(n: int)
    requires n >= 55
    ensures Delay(n) == 0
  {
    var m := 0x1_0000_0000_0000_0000;
    DelayWrapsOnce(n);
    Pow2Add(54, n - 55);
    Pow2Values();
    var k := Pow2(n - 55);
    assert 30 * SECOND * 0x40_0000_0000_0000 == 29296875 * m;
    assert 30 * SECOND * (0x40_0000_0000_0000 * k) == (29296875 * k) * m;
    ModShift(0x8000_0000_0000_0000, 29296875 * k, m);
  }

  /** Up to 29 failures nothing wraps. */
  lemma DelayExact(n: int)
    requires 1 <= n <= 29
    ensures Delay(n) == IntendedDelay(n)
  {
    DelayWrapsOnce(n);
    Pow2Monotone(n - 1, 28);
    Pow2Values();
    Unwrapped(30 * SECOND * Pow2(n - 1));
  }

  lemma Unwrapped(x: int)
    requires 0 <= x < 0x8000_0000_0000_0000
    ensures Wrap64(x) == x
  {}

  /** The product after 30 to 54 failures: doubled, modulo 2^64, from one count to the next. */
  function Wrapped(n: int): int
    requires 30 <= n <= 54
  {
    match n
    case 30 => -2340616713709551616
    case 31 => -4681233427419103232
    case 32 => 9084277218871345152
    case 33 => -278189635966861312
    case 34 => -556379271933722624
    case 35 => -1112758543867445248
    case 36 => -2225517087734890496
    case 37 => -4451034175469780992
    case 38 => -8902068350939561984
    case 39 => 642607371830427648
    case 40 => 1285214743660855296
    case 41 => 2570429487321710592
    case 42 => 5140858974643421184
    case 43 => -8165026124422709248
    case 44 => 2116691824864133120
    case 45 => 4233383649728266240
    case 46 => 8466767299456532480
    case 47 => -1513209474796486656
    case 48 => -3026418949592973312
    case 49 => -6052837899185946624
    case 50 => 6341068275337658368
    case 51 => -5764607523034234880
    case 52 => 6917529027641081856
    case 53 => -4611686018427387904
    case 54 => -9223372036854775808
  }

  lemma WrappedDoubles(n: int)
    requires 30 <= n < 54
    ensures Wrap64(2 * Wrapped(n)) == Wrapped(n + 1)
  {}

  lemma {:induction false} WrappedProduct(n: int)
    requires 30 <= n <= 54
    ensures Wrap64(30 * SECOND * Pow2(n - 1)) == Wrapped(n)
  {
    var x := 30 * SECOND * Pow2(n - 1);
    if n == 30 {
      Pow2Values();
    } else {
      WrappedProduct(n - 1);
      WrappedDoubles(n - 1);
      assert x == 30 * SECOND * Pow2(n - 2) * 2;
      WrapTimes(30 * SECOND * Pow2(n - 2), 2);
    }
  }

  lemma WrappedSign(n: int)
    requires 30 <= n <= 54
    ensures if n in LUCKY_COUNTS then Wrapped(n) > MAX_DELAY else Wrapped(n) < 0
  {}

  /** Between 30 and 54 the wrapped product decides, count by count. */
  lemma DelayWrapped(n: int)
    requires 30 <= n <= 54
    ensures if n in LUCKY_COUNTS then Delay(n) == MAX_DELAY else Delay(n) < 0
  {
    assert Delay(n) == Min(Wrapped(n), MAX_DELAY) by {
      DelayWrapsOnce(n);
      WrappedProduct(n);
    }
    WrappedSign(n);
  }

  /** The delay is the intended one, exactly up to 29 failures and at the lucky counts. */
  lemma DelayRightIff(n: int)
    requires n > 0
    ensures Delay(n) == IntendedDelay(n) <==> n <= 29 || n in LUCKY_COUNTS
    ensures !(n <= 29 || n in LUCKY_COUNTS) ==> Delay(n) <= 0
  {
    if n <= 29 {
      DelayExact(n);
    } else {
      assert IntendedDelay(n) == MAX_DELAY by {
        Pow2Monotone(29, n - 1);
        Pow2Values();
      }
      if n <= 54 { DelayWrapped(n); } else { DelayVanishes(n); }
    }
  }

  /** As long as nothing wraps, more failures never shorten the delay. */
  lemma DelayMonotone(m: int, n: int)
    requires 1 <= m <= n <= 29
    ensures 30 * SECOND <= Delay(m) <= Delay(n) <= MAX_DELAY
  {
    DelayExact(m);
    DelayExact(n);
    var d, e := IntendedDelay(m), IntendedDelay(n);
    assert 30 * SECOND <= d <= e <= MAX_DELAY by { IntendedMonotone(m, n); }
  }

  lemma IntendedMonotone(m: int, n: int)
    requires 1 <= m <= n
    ensures 30 * SECOND <= IntendedDelay(m) <= IntendedDelay(n) <= MAX_DELAY
  {
    Pow2Monotone(m - 1, n - 1);
  }
}
