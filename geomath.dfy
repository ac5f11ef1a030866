/**
 * Numeric helpers of `src/math.rs`, taken over exact reals.
 * `eatanhe`, `taupf` and `tauf` are transcendental and are not part of this model.
 */
module GeoMath {

  function Abs(x: real): real { if x < 0.0 then -x else x }

  /** A real with no fractional part. */
  predicate IsWhole(x: real) { x.Floor as real == x }

  /** `f64::trunc`: rounds toward zero. */
  function Trunc(x: real): (r: int)
    ensures x >= 0.0 ==> r >= 0 && r as real <= x < r as real + 1.0
    ensures x < 0.0 ==> r <= 0 && r as real - 1.0 < x <= r as real
  {
    if x >= 0.0 then x.Floor else -((-x).Floor)
  }

  /** `f64::round`: nearest integer, halfway cases away from zero. */
  function Round(x: real): (r: int)
    ensures Abs(x - r as real) <= 0.5
    ensures Abs(x - r as real) == 0.5 ==> Abs(r as real) > Abs(x)
  {
    if x >= 0.0 then (x + 0.5).Floor else -((0.5 - x).Floor)
  }

  lemma WholeSum(a: real, b: real)
    requires IsWhole(a) && IsWhole(b)
    ensures IsWhole(a + b) && IsWhole(a - b)
  {
    var k, j := a.Floor + b.Floor, a.Floor - b.Floor;
    assert a + b == k as real;
    assert (k as real).Floor == k;
    assert a - b == j as real;
    assert (j as real).Floor == j;
  }

  /** A whole number strictly between -1 and 1 is zero. */
  lemma WholeSmall(k: real)
    requires IsWhole(k) && -1.0 < k < 1.0
    ensures k == 0.0
  {
  }

  /**
   * `fmod` (math.rs:97-99): a - b*trunc(a/b), and the result is truncated
   * once more, so it is always a whole number whose sign follows `a`.
   */
  function FMod(a: real, b: real): (r: real)
    requires b != 0.0
    ensures IsWhole(r)
    ensures a >= 0.0 ==> 0.0 <= r
    ensures a <= 0.0 ==> r <= 0.0
    ensures Abs(r) < Abs(b)
  {
    var q := Trunc(a / b);
    FModBounds(a, b, q);
    Trunc(a - b * q as real) as real
  }

  /** a - b*trunc(a/b) has the sign of a and a magnitude below |b|. */
  lemma FModBounds(a: real, b: real, q: int)
    requires b != 0.0 && q == Trunc(a / b)
    ensures a >= 0.0 ==> 0.0 <= a - b * q as real < Abs(b)
    ensures a <= 0.0 ==> -Abs(b) < a - b * q as real <= 0.0
  {
    var t := a / b;
    var qr := q as real;
    var u := t - qr;
    assert a == b * t;
    assert a - b * qr == b * u by {
      assert b * t - b * qr == b * (t - qr);
    }
    assert t >= 0.0 ==> 0.0 <= u < 1.0;
    assert t < 0.0 ==> -1.0 < u <= 0.0;
    assert a >= 0.0 ==> (b > 0.0 ==> t >= 0.0) && (b < 0.0 ==> t <= 0.0) by { MulSign(b, t); }
    assert a <= 0.0 ==> (b > 0.0 ==> t <= 0.0) && (b < 0.0 ==> t >= 0.0) by { MulSign(b, t); }
    FracTimes(b, u);
  }

  /** Scaling a proper fraction by b keeps it below |b| and fixes its sign. */
  lemma FracTimes(b: real, u: real)
    requires b != 0.0 && -1.0 < u < 1.0
    ensures Abs(b * u) < Abs(b)
    ensures (b > 0.0 && u >= 0.0) || (b < 0.0 && u <= 0.0) ==> b * u >= 0.0
    ensures (b > 0.0 && u <= 0.0) || (b < 0.0 && u >= 0.0) ==> b * u <= 0.0
  {
    AbsMul(b, u);
    FracBelow(Abs(b), Abs(u));
    MulSign(b, u);
  }

  lemma FracBelow(a: real, f: real)
    requires a > 0.0 && 0.0 <= f < 1.0
    ensures a * f < a
  {
    MulSign(a, 1.0 - f);
    assert a - a * f == a * (1.0 - f);
  }

  lemma MulDivCancel(x: real, d: real)
    requires d != 0.0
    ensures (x * d) / d == x
  {
    var y := (x * d) / d;
    assert y * d == x * d;
    assert (y - x) * d == 0.0;
    MulSign(y - x, d);
  }

  lemma MulSign(x: real, y: real)
    ensures x > 0.0 && y > 0.0 ==> x * y > 0.0
    ensures x > 0.0 && y < 0.0 ==> x * y < 0.0
    ensures x < 0.0 && y > 0.0 ==> x * y < 0.0
    ensures x < 0.0 && y < 0.0 ==> x * y > 0.0
    ensures x == 0.0 || y == 0.0 ==> x * y == 0.0
  {
  }

  lemma AbsMul(x: real, y: real)
    ensures Abs(x * y) == Abs(x) * Abs(y)
  {
    MulSign(x, y);
    if x < 0.0 { assert -(x * y) == (-x) * y; }
    if y < 0.0 { assert -(x * y) == x * (-y); }
    if x < 0.0 && y < 0.0 { assert x * y == (-x) * (-y); }
  }

  lemma MulLe(x: real, y: real, c: real)
    requires 0.0 <= x <= y && c >= 0.0
    ensures c * x <= c * y
  {
    MulSign(c, y - x);
    assert c * y - c * x == c * (y - x);
  }

  /** Real division of naturals truncates to integer division. */
  lemma RealQuotient(a: int, b: int)
    requires a >= 0 && b > 0
    ensures Trunc(a as real / b as real) == a / b
    ensures a as real - b as real * (a / b) as real == (a % b) as real
  {
    var q, r := a / b, a % b;
    assert a == b * q + r && 0 <= r < b;
    var br, qr, rr := b as real, q as real, r as real;
    assert a as real == br * qr + rr;
    var t := a as real / br;
    assert t == qr + rr / br;
    assert 0.0 <= rr / br < 1.0;
    assert t.Floor == q;
  }

  /** On whole non-negative operands `fmod` agrees with the integer remainder. */
  lemma FModNatural(a: int, b: int)
    requires a >= 0 && b > 0
    ensures FMod(a as real, b as real) == (a % b) as real
  {
    var q, m := a / b, a % b;
    RealQuotient(a, b);
    var r := a as real - b as real * q as real;
    FModIs(a as real, b as real, q, r);
    assert FMod(a as real, b as real) == Trunc(r) as real;
    assert r == m as real;
    TruncWhole(m);
    assert Trunc(r) == m;
  }

  /** Proof step: fmod through a quotient q and residue r named by the caller. */
  lemma FModIs(a: real, b: real, q: int, r: real)
    requires b != 0.0 && q == Trunc(a / b) && r == a - b * q as real
    ensures FMod(a, b) == Trunc(r) as real
  {
    FModUnfold(a, b);
    assert a - b * Trunc(a / b) as real == r;
  }

  /** Proof step: unfolds `FMod`. */
  lemma FModUnfold(a: real, b: real)
    requires b != 0.0
    ensures FMod(a, b) == Trunc(a - b * Trunc(a / b) as real) as real
  {
  }

  lemma TruncWhole(n: int)
    ensures Trunc(n as real) == n
  {
  }

  /** Inside one turn `fmod(x, 360)` is plain truncation. */
  lemma FModWithinTurn(x: real)
    requires -360.0 < x < 360.0
    ensures FMod(x, 360.0) == Trunc(x) as real
  {
    assert Trunc(x / 360.0) == 0;
  }

  /**
   * `remainder` (math.rs:117-119): numer - round(numer/denom)*denom.
   * The result is at most half a period away from zero and differs from
   * `numer` by a whole number of periods.
   */
  function Remainder(numer: real, denom: real): (r: real)
    requires denom != 0.0
    ensures Abs(r) <= Abs(denom) / 2.0
    ensures IsWhole((numer - r) / denom)
  {
    var k := Round(numer / denom);
    RemainderBounds(numer, denom, k);
    MultipleWhole(k as real * denom, denom, k);
    numer - k as real * denom
  }

  lemma RemainderBounds(numer: real, denom: real, k: int)
    requires denom != 0.0 && Abs(numer / denom - k as real) <= 0.5
    ensures Abs(numer - k as real * denom) <= Abs(denom) / 2.0
  {
    Residual(numer, denom, k as real);
    ScaledHalf(numer - k as real * denom, denom, numer / denom - k as real);
  }

  /** A product d*e with |e| at most one half is at most |d|/2 in magnitude. */
  lemma ScaledHalf(r: real, d: real, e: real)
    requires r == d * e && Abs(e) <= 0.5
    ensures Abs(r) <= Abs(d) / 2.0
  {
    AbsMul(d, e);
    MulLe(Abs(e), 0.5, Abs(d));
  }

  /** What is left of x after k periods of d is d times the leftover fraction. */
  lemma Residual(x: real, d: real, k: real)
    requires d != 0.0
    ensures x - k * d == d * (x / d - k)
  {
    var t := x / d;
    assert t * d == x;
    assert t * d - k * d == d * (t - k);
  }

  /** A whole multiple of d, divided by d, is whole. */
  lemma MultipleWhole(x: real, d: real, k: int)
    requires d != 0.0 && x == k as real * d
    ensures IsWhole(x / d)
  {
    MulDivCancel(k as real, d);
  }

  /**
   * `angle_normalize` (math.rs:135-139): reduce degrees into (-180, 180],
   * mapping -180 to 180.
   */
  function AngleNormalize(d: real): (r: real)
    ensures -180.0 < r <= 180.0
    ensures IsWhole((d - r) / 360.0)
  {
    var x := Remainder(d, 360.0);
    if x != -180.0 then x
    else
      assert (d - 180.0) / 360.0 == (d - x) / 360.0 - 1.0;
      WholeSum((d - x) / 360.0, 1.0);
      180.0
  }

  /** Only one value in (-180, 180] is congruent to `d` modulo 360. */
  lemma AngleNormalizeUnique(d: real, r: real)
    requires -180.0 < r <= 180.0
    requires IsWhole((d - r) / 360.0)
    ensures r == AngleNormalize(d)
  {
    var r0 := AngleNormalize(d);
    var k := (d - r) / 360.0 - (d - r0) / 360.0;
    WholeSum((d - r) / 360.0, (d - r0) / 360.0);
    assert k == (r0 - r) / 360.0;
    WholeSmall(k);
  }

  /**
   * `angle_diff` (math.rs:157-159): y - x reduced into (-180, 180] through
   * two separate remainders; it equals the direct normalisation of y - x.
   */
  function AngleDiff(x: real, y: real): (r: real)
    ensures -180.0 < r <= 180.0
    ensures r == AngleNormalize(y - x)
  {
    var rx := Remainder(-x, 360.0);
    var ry := Remainder(y, 360.0);
    var r := AngleNormalize(rx + ry);
    WholeSum((-x - rx) / 360.0, (y - ry) / 360.0);
    WholeSum((-x - rx) / 360.0 + (y - ry) / 360.0, (rx + ry - r) / 360.0);
    assert (y - x - r) / 360.0
        == (-x - rx) / 360.0 + (y - ry) / 360.0 + (rx + ry - r) / 360.0;
    AngleNormalizeUnique(y - x, r);
    r
  }

  /** Angles congruent modulo 360 normalise to the same value. */
  lemma AngleNormalizeCongruent(a: real, b: real)
    requires IsWhole((a - b) / 360.0)
    ensures AngleNormalize(a) == AngleNormalize(b)
  {
    var s := AngleNormalize(b);
    WholeSum((a - b) / 360.0, (b - s) / 360.0);
    assert (a - s) / 360.0 == (a - b) / 360.0 + (b - s) / 360.0;
    AngleNormalizeUnique(a, s);
  }

  /** Adding x back to angle_diff(x, y) gives y again, up to whole turns. */
  lemma AngleDiffUndo(x: real, y: real)
    ensures AngleNormalize(AngleDiff(x, y) + x) == AngleNormalize(y)
  {
    var r := AngleDiff(x, y);
    WholeSum(0.0, (y - x - r) / 360.0);
    assert (r + x - y) / 360.0 == 0.0 - (y - x - r) / 360.0;
    AngleNormalizeCongruent(r + x, y);
  }

  lemma AngleExamples()
    ensures AngleNormalize(453.0) == 93.0
    ensures AngleNormalize(-180.0) == 180.0
    ensures AngleNormalize(180.0) == 180.0
    ensures AngleDiff(453.0, 1832.0) == -61.0
  {
    assert Round(453.0 / 360.0) == 1;
    assert Round(-180.0 / 360.0) == -1;
    assert Round(180.0 / 360.0) == 1;
    assert Round(-453.0 / 360.0) == -1;
    assert Round(1832.0 / 360.0) == 5;
    assert Round(-61.0 / 360.0) == 0;
  }

  lemma FModExample()
    ensures FMod(5.3, 2.1) == 1.0
  {
    assert 2.0 <= 5.3 / 2.1 < 3.0;
    assert Trunc(5.3 / 2.1) == 2;
  }

  /** remainder(5.3, 2.1): 5.3 / 2.1 rounds to 3, leaving exactly -1 over the reals. */
  lemma RemainderExample()
    ensures Remainder(5.3, 2.1) == -1.0
  {
    assert 2.5 <= 5.3 / 2.1 < 3.0;
    assert Round(5.3 / 2.1) == 3;
  }

  function Pow(x: real, k: nat): real
  {
    if k == 0 then 1.0 else Pow(x, k - 1) * x
  }

  /** Horner's rule over `s`, highest-order coefficient first. */
  function Horner(s: seq<real>, x: real): real
  {
    if s == [] then 0.0 else Horner(s[..|s| - 1], x) * x + s[|s| - 1]
  }

  /** The polynomial sum of s[i] * x^(|s|-1-i), the reference Horner must meet. */
  function PowerSum(s: seq<real>, x: real): real
  {
    if s == [] then 0.0 else s[0] * Pow(x, |s| - 1) + PowerSum(s[1..], x)
  }

  lemma {:induction false} PowerSumSnoc(s: seq<real>, c: real, x: real)
    ensures PowerSum(s + [c], x) == PowerSum(s, x) * x + c
  {
    if s != [] {
      var sc := s + [c];
      assert sc[0] == s[0] && |sc| - 1 == |s|;
      assert sc[1..] == s[1..] + [c];
      PowerSumSnoc(s[1..], c, x);
      FactorOut(PowerSum(sc, x), PowerSum(s, x), PowerSum(sc[1..], x),
                s[0], Pow(x, |s| - 1), PowerSum(s[1..], x), x, c);
    }
  }

  /** The algebra of one PowerSumSnoc step, over plain reals. */
  lemma FactorOut(whole: real, prev: real, rest: real, a: real, p: real, t: real, x: real, c: real)
    requires whole == a * (p * x) + rest && rest == t * x + c && prev == a * p + t
    ensures whole == prev * x + c
  {
  }

  /** Horner's rule computes the polynomial sum. */
  lemma {:induction false} HornerIsPowerSum(s: seq<real>, x: real)
    ensures Horner(s, x) == PowerSum(s, x)
  {
    if s != [] {
      var init := s[..|s| - 1];
      HornerIsPowerSum(init, x);
      assert s == init + [s[|s| - 1]];
      PowerSumSnoc(init, s[|s| - 1], x);
    }
  }

  /**
   * `polyval` (math.rs:179-185): Horner evaluation of coefficients[0..order],
   * which must therefore hold at least order+1 entries.
   */
  method PolyVal(order: nat, coefficients: seq<real>, x: real) returns (y: real)
    requires |coefficients| >= order + 1
    ensures y == PowerSum(coefficients[..order + 1], x)
  {
    y := 0.0;
    var i := 0;
    while i < order + 1
      invariant 0 <= i <= order + 1
      invariant y == Horner(coefficients[..i], x)
    {
      assert coefficients[..i + 1][..i] == coefficients[..i];
      y := y * x + coefficients[i];
      i := i + 1;
    }
    HornerIsPowerSum(coefficients[..order + 1], x);
  }

  /** The documented example: polyval(5, [1, -3.5, 0, 14, 28.1, -155], 2.7). */
  lemma PolyValExample()
    ensures PowerSum([1.0, -3.5, 0.0, 14.0, 28.1, -155.0], 2.7) == -19.58528
    ensures Trunc(PowerSum([1.0, -3.5, 0.0, 14.0, 28.1, -155.0], 2.7) * 100000.0) == -1958528
  {
    var s := [1.0, -3.5, 0.0, 14.0, 28.1, -155.0];
    HornerIsPowerSum(s, 2.7);
    assert s[..5] == [1.0, -3.5, 0.0, 14.0, 28.1];
    assert s[..4] == [1.0, -3.5, 0.0, 14.0];
    assert s[..3] == [1.0, -3.5, 0.0];
    assert s[..2] == [1.0, -3.5];
    assert s[..1] == [1.0];
    assert [1.0, -3.5][..1] == [1.0];
    assert [1.0, -3.5, 0.0][..2] == [1.0, -3.5];
    assert [1.0, -3.5, 0.0, 14.0][..3] == [1.0, -3.5, 0.0];
    assert [1.0, -3.5, 0.0, 14.0, 28.1][..4] == [1.0, -3.5, 0.0, 14.0];
    assert Horner([1.0], 2.7) == 1.0;
    assert Horner([1.0, -3.5], 2.7) == -0.8;
    assert Horner([1.0, -3.5, 0.0], 2.7) == -2.16;
    assert Horner([1.0, -3.5, 0.0, 14.0], 2.7) == 8.168;
    assert Horner([1.0, -3.5, 0.0, 14.0, 28.1], 2.7) == 50.1536;
  }
}
