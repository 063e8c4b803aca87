/**
 The 18-decimal fixed-point numbers (`sdk.Dec`) every amount passes through.

 A decimal is the integer it scales to: 1.0 is `ONE`.  Each operation's rounding is
 defined once here: `Mul`, `Quo` and `RoundInt` round half to even, `QuoTruncate`,
 `QuoInt` and `TruncateInt` drop the remainder, `QuoRoundUp` and `Ceil` round up.
 */
module FixedPoint {

  /** A fixed-point decimal, scaled by `ONE`. */
  type Dec = int

  const ONE: int := 1_000_000_000_000_000_000

  /** The integer nearest to n/d; a tie goes to the even neighbour. */
  function HalfEven(n: int, d: int): (q: int)
    requires d > 0
    ensures -d <= 2 * (d * q - n) <= d
    ensures 2 * (d * q - n) == d || 2 * (d * q - n) == -d ==> q % 2 == 0
  {
    var f, r := n / d, n % d;
    DivMod(n, d);
    if 2 * r < d || (2 * r == d && f % 2 == 0) then f
    else
      assert d * (f + 1) == d * f + d;
      f + 1
  }

  function Mul(a: Dec, b: Dec): Dec {
    HalfEven(a * b, ONE)
  }

  function Quo(a: Dec, b: Dec): Dec
    requires b > 0
  {
    HalfEven(a * ONE, b)
  }

  /** Division that drops the remainder, towards zero. */
  function Truncate(n: int, d: int): int
    requires d > 0
  {
    if n >= 0 then n / d else -((-n) / d)
  }

  function QuoTruncate(a: Dec, b: Dec): Dec
    requires b > 0
  {
    Truncate(a * ONE, b)
  }

  function QuoRoundUp(a: Dec, b: Dec): Dec
    requires b > 0
  {
    (a * ONE + b - 1) / b
  }

  function QuoInt(a: Dec, k: int): Dec
    requires k > 0
  {
    Truncate(a, k)
  }

  function RoundInt(a: Dec): int {
    HalfEven(a, ONE)
  }

  function TruncateInt(a: Dec): int {
    Truncate(a, ONE)
  }

  /** The least whole decimal not below `a`. */
  function Ceil(a: Dec): Dec {
    -((-a) / ONE) * ONE
  }

  function Min(a: int, b: int): int {
    if a <= b then a else b
  }

  function Max(a: int, b: int): int {
    if a >= b then a else b
  }

  // --- Facts about rounding ---------------------------------------------------------

  lemma DivMod(n: int, d: int)
    requires d > 0
    ensures n == d * (n / d) + n % d
    ensures 0 <= n % d < d
  {
  }

  lemma MulMono(a: int, b: int, c: int)
    requires a <= b && 0 <= c
    ensures a * c <= b * c
    ensures c * a <= c * b
  {
  }

  lemma Within(d: int, x: int, y: int)
    requires d > 0 && -d <= d * x - d * y <= d
    ensures -1 <= x - y <= 1
  {
    assert d * (x - y) == d * x - d * y;
    if x - y >= 2 {
      MulMono(2, x - y, d);
    } else if x - y <= -2 {
      MulMono(x - y, -2, d);
    }
  }

  /** Being within half a unit, with ties to even, determines the rounded value. */
  lemma HalfEvenUnique(n: int, d: int, q: int)
    requires d > 0
    requires -d <= 2 * (d * q - n) <= d
    requires 2 * (d * q - n) == d || 2 * (d * q - n) == -d ==> q % 2 == 0
    ensures HalfEven(n, d) == q
  {
    var h := HalfEven(n, d);
    Within(d, h, q);
    assert h == q + 1 ==> d * h == d * q + d;
    assert h == q - 1 ==> d * h == d * q - d;
  }

  lemma HalfEvenExact(k: int, d: int)
    requires d > 0
    ensures HalfEven(k * d, d) == k
  {
    assert d * k == k * d;
    HalfEvenUnique(k * d, d, k);
  }

  lemma HalfEvenMono(n: int, m: int, d: int)
    requires d > 0 && n <= m
    ensures HalfEven(n, d) <= HalfEven(m, d)
  {
    var a, b := HalfEven(n, d), HalfEven(m, d);
    // a == b + 1 would make both roundings ties at n == m, yet only one of them is even
    assert a == b + 1 ==> d * a == d * b + d;
    if b < a {
      assert d * (a - b) == d * a - d * b;
      MulMono(1, a - b, d);
      if a - b >= 2 { MulMono(2, a - b, d); }
    }
  }

  /** When rounding stays at or below an integer. */
  lemma HalfEvenAtMost(n: int, c: int, d: int)
    requires c > 0
    ensures HalfEven(n, c) <= d <==> 2 * n <= 2 * (c * d) + c && (2 * n == 2 * (c * d) + c ==> d % 2 == 0)
  {
    var q := HalfEven(n, c);
    assert c * (q - d) == c * q - c * d;
    assert q == d + 1 ==> c * q == c * d + c;
    if q < d {
      MulMono(q - d, -1, c);
    } else if q > d + 1 {
      MulMono(2, q - d, c);
    }
  }

  /** Multiplying a whole amount by a decimal is exact. */
  lemma MulWhole(k: int, b: Dec)
    ensures Mul(k * ONE, b) == k * b
  {
    assert k * ONE * b == (k * b) * ONE;
    HalfEvenExact(k * b, ONE);
  }

  /** Dividing by 1.0, the target price of the stablecoin, changes nothing. */
  lemma QuoOne(a: Dec)
    ensures Quo(a, ONE) == a
  {
    HalfEvenExact(a, ONE);
  }

  lemma MulOne(a: Dec)
    ensures Mul(a, ONE) == a
  {
    HalfEvenExact(a, ONE);
  }

  lemma HalfEvenNonneg(n: int, d: int)
    requires d > 0 && n >= 0
    ensures HalfEven(n, d) >= 0
  {
    HalfEvenExact(0, d);
    HalfEvenMono(0, n, d);
  }
}
