// Machine arithmetic of the engine: Go's int64 with its wrap-around, truncating
// division, and the two saturating helpers the wallet is built on.
module Int64 {

  const MAX: int := 0x7FFF_FFFF_FFFF_FFFF
  const MIN: int := -0x8000_0000_0000_0000
  const TWO63: int := 0x8000_0000_0000_0000
  const TWO64: int := 0x1_0000_0000_0000_0000

  type int64 = x: int | MIN <= x <= MAX

  /** What an int64 register holds after an unguarded operation whose exact result is `x`. */
  function Wrap(x: int): (r: int64) {
    if MIN <= x <= MAX then x else (x + TWO63) % TWO64 - TWO63
  }

  /** Go's `/`: truncates toward zero, unlike Dafny's Euclidean division. */
  function Quo(a: int, b: int): (q: int)
    requires b > 0
    ensures if a >= 0 then 0 <= q <= a else a <= q <= 0
  {
    QuotientBound(a, b);
    QuotientBound(-a, b);
    if a >= 0 then a / b else -((-a) / b)
  }

  /** Go's `/` for a divisor of either sign. */
  function Div(a: int, b: int): int
    requires b != 0
  {
    if b > 0 then Quo(a, b) else -Quo(a, -b)
  }

  /** Go's `%`: takes the sign of the dividend. */
  function Rem(a: int, b: int): int
    requires b > 0
  {
    if a >= 0 then a % b else -((-a) % b)
  }

  function Min(a: int, b: int): int { if a <= b then a else b }

  function SatAdd(a: int64, b: int): (r: int64) {
    if a > Wrap(MAX - b) then MAX else Wrap(a + b)
  }

  function SatMul(a: int, b: int): (r: int64)
    requires a >= 0 && b >= 0
    ensures r == Min(a * b, MAX)
  {
    if a == 0 || b == 0 then 0
    else
      QuotientTest(a, b, MAX);
      if a > MAX / b then MAX else a * b
  }

  /** For a non-negative amount the guard of `SatAdd` is exact: it clips the true sum. */
  lemma SatAddClips(a: int64, b: int)
    requires 0 <= b <= MAX
    ensures SatAdd(a, b) == Min(a + b, MAX)
  {
  }

  /** A negative amount defeats the guard: the ceiling is reported instead of the sum. */
  lemma SatAddNegative(a: int64, b: int)
    requires MIN <= b < 0 && a + b >= MIN
    ensures SatAdd(a, b) == MAX
  {
    assert Wrap(MAX - b) == MAX - b - TWO64;
  }

  /** Whatever the sum, what is reported for a negative amount is above what was there. */
  lemma SatAddOverstates(a: int64, b: int)
    requires MIN <= b < 0 && a < MAX
    ensures SatAdd(a, b) > a
  {
    if a + b >= MIN { SatAddNegative(a, b); } else { assert Wrap(MAX - b) == MAX - b - TWO64; }
  }

  /** `a > n / b` is the division form of `a * b > n`. */
  lemma QuotientTest(a: int, b: int, n: int)
    requires b > 0 && n >= 0
    ensures a > n / b <==> a * b > n
  {
    var q := n / b;
    assert q * b <= n < q * b + b;
    if a > q {
      assert a * b >= (q + 1) * b by { MulMono(q + 1, a, b); }
    } else {
      assert a * b <= q * b by { MulMono(a, q, b); }
    }
  }

  lemma QuotientBound(a: int, b: int)
    requires b > 0
    ensures a >= 0 ==> 0 <= a / b <= a
  {
    if a >= 0 {
      var q := a / b;
      assert q * b + a % b == a;
      if q > a { MulMono(1, b, q); }
      if q < 0 { MulMono(1, b, -q); }
    }
  }

  lemma MulMono(a: int, b: int, k: int)
    requires a <= b && k >= 0
    ensures a * k <= b * k
  {
  }

  lemma DivMono(a: int, b: int, d: int)
    requires 0 <= a <= b && d > 0
    ensures a / d <= b / d
  {
    if a / d > b / d { MulMono(b / d + 1, a / d, d); }
  }

  lemma QuotientStep(a: int, b: int)
    requires b >= 1
    ensures a / b == (a - b) / b + 1
  {
    var q, r := a / b, a % b;
    assert a == b * q + r;
    assert a - b == b * (q - 1) + r;
    QuotientUnique(a - b, b, q - 1, r);
  }

  lemma QuotientUnique(a: int, b: int, q: int, r: int)
    requires b >= 1 && a == b * q + r && 0 <= r < b
    ensures a / b == q
  {
    var d := a / b;
    assert a == b * d + a % b;
    if d > q { MulMono(q + 1, d, b); } else if d < q { MulMono(d + 1, q, b); }
  }

  lemma Distribute(x: int, k: int, m: int)
    ensures (k + m) * x == k * x + m * x
  {
  }

  lemma QuotientFloor(a: int, b: int)
    requires a >= 0 && b >= 1
    ensures Quo(a, b) * b <= a < (Quo(a, b) + 1) * b
  {
    assert a == (a / b) * b + a % b;
  }

  lemma SquareMono(a: nat, b: nat)
    requires a <= b
    ensures a * a <= b * b
  {
    MulMono(a, b, a);
    MulMono(a, b, b);
  }

  lemma Fitting(x: int)
    requires MIN <= x <= MAX
    ensures Wrap(x) == x
  {
  }
}
