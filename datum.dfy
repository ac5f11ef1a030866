/**
 * `src/datum.rs`: the ellipsoid constants and the two order-6 Krueger series
 * coefficient tables built from three input coefficient tables.
 * `c` (it needs `exp`) is not part of this model.
 */
module Datums {
  import opened Errors
  import opened GeoMath

  /** Order of the series. */
  const MaxPow: nat := 6

  /**
   * The signed eccentricity `es` is `sqrt(|e2|)` with a sign; square roots are
   * not available over exact reals, so it is kept as its sign and its square.
   */
  datatype SignedRoot = SignedRoot(negative: bool, square: real)

  datatype Datum = Datum(
    a: real, f: real, k0: real,
    e2: real, es: SignedRoot, e2m: real,
    b1: real, a1: real, n: real,
    maxpow: nat,
    alp: seq<real>, bet: seq<real>)

  /** Offset `o` into a coefficient table at the start of loop iteration i. */
  function Offset(i: nat): nat
    requires i <= MaxPow
  {
    if i == 0 then 0 else Offset(i - 1) + (MaxPow - i) + 2
  }

  lemma OffsetTable()
    ensures Offset(0) == 0 && Offset(1) == 7 && Offset(2) == 13 && Offset(3) == 18
    ensures Offset(4) == 22 && Offset(5) == 25 && Offset(6) == 27
  {
  }

  /** Closed form of the offset accumulation: o_i = 7i - i(i-1)/2. */
  lemma {:induction false} OffsetClosedForm(i: nat)
    requires i <= MaxPow
    ensures 2 * Offset(i) == 14 * i - i * (i - 1)
  {
    if i > 0 {
      OffsetClosedForm(i - 1);
      assert (i - 1) * (i - 2) == i * (i - 1) - 2 * (i - 1);
    }
  }

  /**
   * Index of the normalising coefficient read at iteration i (m = 5 - i):
   * `coeff[o + m + 1]`; the polynomial reads coeff[o .. o + m] before it.
   */
  function Divisor(i: nat): (k: nat)
    requires i < MaxPow
    ensures Offset(i) < k <= 26
    ensures i == MaxPow - 1 ==> k == 26
  {
    OffsetTable();
    Offset(i) + (MaxPow - i - 1) + 1
  }

  /** A series input table long enough for the loop, with non-zero normalisers. */
  predicate SeriesInput(coeff: seq<real>)
  {
    |coeff| >= 27 && forall i :: 0 <= i < MaxPow ==> coeff[Divisor(i)] != 0.0
  }

  /** Entry i+1 of `alp`/`bet`: n^(i+1) * polyval(5-i, coeff[o..], n) / coeff[o+6-i]. */
  function SeriesTerm(coeff: seq<real>, n: real, i: nat): real
    requires SeriesInput(coeff) && i < MaxPow
  {
    var k := Divisor(i);
    ScaledRatio(Pow(n, i + 1), PowerSum(coeff[Offset(i)..k], n), coeff[k])
  }

  /** d * p / c, the shape of every series entry; kept apart so the solver does not unfold it. */
  function ScaledRatio(d: real, p: real, c: real): real
    requires c != 0.0
  {
    d * p / c
  }

  /** The whole table: a leading 0.0, then one term per loop iteration. */
  function SeriesTable(coeff: seq<real>, n: real): (t: seq<real>)
    requires SeriesInput(coeff)
    ensures |t| == MaxPow + 1 && t[0] == 0.0
    ensures forall i :: 0 <= i < MaxPow ==> t[i + 1] == SeriesTerm(coeff, n, i)
  {
    [0.0] + seq(MaxPow, i requires 0 <= i < MaxPow => SeriesTerm(coeff, n, i))
  }

  /** The table depends on the first 27 input coefficients only. */
  lemma SeriesTableReadsPrefix(coeff: seq<real>, n: real)
    requires SeriesInput(coeff)
    ensures SeriesInput(coeff[..27])
    ensures SeriesTable(coeff, n) == SeriesTable(coeff[..27], n)
  {
    var p := coeff[..27];
    assert forall i :: 0 <= i < MaxPow ==> p[Divisor(i)] == coeff[Divisor(i)];
    forall i | 0 <= i < MaxPow
      ensures SeriesTerm(coeff, n, i) == SeriesTerm(p, n, i)
    {
      var k := Divisor(i);
      assert p[Offset(i)..k] == coeff[Offset(i)..k];
    }
    var t, u := SeriesTable(coeff, n), SeriesTable(p, n);
    assert forall k :: 0 <= k < |t| ==> t[k] == u[k] by {
      forall k | 0 <= k < |t| ensures t[k] == u[k] {
        if k > 0 {
          assert t[k] == SeriesTerm(coeff, n, k - 1);
        }
      }
    }
  }

  lemma PowNext(x: real, k: nat, d: real)
    requires d == Pow(x, k)
    ensures d * x == Pow(x, k + 1)
  {
  }

  /** One iteration of the loop computes the next series term. */
  lemma SeriesStep(coeff: seq<real>, n: real, i: nat, o: nat, d: real, p: real)
    requires SeriesInput(coeff) && i < MaxPow
    requires o == Offset(i) && d == Pow(n, i + 1)
    requires o + (MaxPow - i - 1) + 1 == Divisor(i)
    requires p == PowerSum(coeff[o..][..MaxPow - i - 1 + 1], n)
    ensures d * p / coeff[o + (MaxPow - i - 1) + 1] == SeriesTerm(coeff, n, i)
  {
    var c := coeff[o + (MaxPow - i - 1) + 1];
    Window(coeff, o, Divisor(i));
    assert ScaledRatio(d, p, c) == SeriesTerm(coeff, n, i);
    RatioIs(d, p, c);
  }

  /** Proof step: unfolds `ScaledRatio`. */
  lemma RatioIs(d: real, p: real, c: real)
    requires c != 0.0
    ensures ScaledRatio(d, p, c) == d * p / c
  {
  }

  /** The first k-o entries of the suffix at o are the slice o..k. */
  lemma Window(coeff: seq<real>, o: nat, k: nat)
    requires o <= k <= |coeff|
    ensures coeff[o..][..k - o] == coeff[o..k]
  {
  }

  /** The first i+1 entries of a table under construction are right. */
  predicate SeriesPrefix(tbl: seq<real>, coeff: seq<real>, n: real, i: nat)
    requires SeriesInput(coeff) && i <= MaxPow
  {
    |tbl| == i + 1 && tbl[0] == 0.0 &&
    forall j :: 0 <= j < i ==> tbl[j + 1] == SeriesTerm(coeff, n, j)
  }

  lemma SeriesExtend(tbl: seq<real>, coeff: seq<real>, n: real, i: nat, t: real)
    requires SeriesInput(coeff) && i < MaxPow
    requires SeriesPrefix(tbl, coeff, n, i) && t == SeriesTerm(coeff, n, i)
    ensures SeriesPrefix(tbl + [t], coeff, n, i + 1)
  {
  }

  lemma SeriesComplete(tbl: seq<real>, coeff: seq<real>, n: real)
    requires SeriesInput(coeff) && SeriesPrefix(tbl, coeff, n, MaxPow)
    ensures tbl == SeriesTable(coeff, n)
  {
  }

  /**
   * The loop of `Datum::new` that pushes entries 1..6 of `alp` and `bet`:
   * iteration i evaluates a degree 5-i polynomial at offset o, scales it by
   * d = n^(i+1) and divides by the next coefficient; o then skips 7-i entries.
   */
  method SeriesLoop(n: real, alpcoeff: seq<real>, betcoeff: seq<real>)
    returns (alp: seq<real>, bet: seq<real>)
    requires SeriesInput(alpcoeff) && SeriesInput(betcoeff)
    ensures alp == SeriesTable(alpcoeff, n) && bet == SeriesTable(betcoeff, n)
  {
    var maxpow := MaxPow;
    alp := [0.0];
    bet := [0.0];
    var o := 0;
    var d := n;
    for i := 0 to maxpow
      invariant o == Offset(i) && d == Pow(n, i + 1)
      invariant SeriesPrefix(alp, alpcoeff, n, i) && SeriesPrefix(bet, betcoeff, n, i)
    {
      var m := maxpow - i - 1;
      assert o + m + 1 == Divisor(i);
      var pa := PolyVal(m, alpcoeff[o..], n);
      SeriesStep(alpcoeff, n, i, o, d, pa);
      SeriesExtend(alp, alpcoeff, n, i, d * pa / alpcoeff[o + m + 1]);
      alp := alp + [d * pa / alpcoeff[o + m + 1]];
      var pb := PolyVal(m, betcoeff[o..], n);
      SeriesStep(betcoeff, n, i, o, d, pb);
      SeriesExtend(bet, betcoeff, n, i, d * pb / betcoeff[o + m + 1]);
      bet := bet + [d * pb / betcoeff[o + m + 1]];
      o := o + m + 2;
      PowNext(n, i + 1, d);
      d := d * n;
    }
    SeriesComplete(alp, alpcoeff, n);
    SeriesComplete(bet, betcoeff, n);
  }

  /** 1 + n never vanishes, since (1 + n)(2 - f) = 2. */
  lemma OnePlusThirdFlattening(f: real)
    requires f != 2.0
    ensures (1.0 + f / (2.0 - f)) * (2.0 - f) == 2.0
    ensures 1.0 + f / (2.0 - f) != 0.0
  {
    var n := f / (2.0 - f);
    assert n * (2.0 - f) == f;
    assert (1.0 + n) * (2.0 - f) == (2.0 - f) + n * (2.0 - f);
  }

  /** b1 = polyval(3, b1coeff, n^2) / (b1coeff[4] (1 + n)). */
  function B1(b1coeff: seq<real>, n: real): real
    requires |b1coeff| >= 5 && b1coeff[4] != 0.0 && 1.0 + n != 0.0
  {
    PowerSum(b1coeff[..4], n * n) / (b1coeff[4] * (1.0 + n))
  }

  lemma B1Step(b1coeff: seq<real>, n: real, m: nat, p: real)
    requires |b1coeff| >= 5 && b1coeff[4] != 0.0 && 1.0 + n != 0.0
    requires m == 3 && p == PowerSum(b1coeff[..m + 1], n * n)
    ensures p / (b1coeff[m + 1] * (1.0 + n)) == B1(b1coeff, n)
  {
    assert b1coeff[..m + 1] == b1coeff[..4];
    var q := b1coeff[4] * (1.0 + n);
    assert b1coeff[m + 1] * (1.0 + n) == q;
    assert B1(b1coeff, n) == p / q;
  }

  /** e2 = 4n / (1 + n)^2 and e2m = (1 - f)^2. */
  lemma EccentricityIdentities(f: real)
    requires f != 2.0
    ensures (1.0 - f * (2.0 - f)) == (1.0 - f) * (1.0 - f)
    ensures f * (2.0 - f) * (1.0 + f / (2.0 - f)) * (1.0 + f / (2.0 - f)) == 4.0 * (f / (2.0 - f))
  {
    OnePlusThirdFlattening(f);
    var n := f / (2.0 - f);
    var g := 2.0 - f;
    assert n * g == f;
    assert (1.0 + n) * g == 2.0;
    calc {
      f * g * (1.0 + n) * (1.0 + n);
      (n * g) * g * (1.0 + n) * (1.0 + n);
      n * ((1.0 + n) * g) * ((1.0 + n) * g);
      n * 2.0 * 2.0;
    }
  }

  /**
   * `Datum::new`: e2 = f(2-f), e2m = 1-e2, n = f/(2-f), es with the sign of f
   * (non-positive when f <= 0), b1 from the first five b1 coefficients, a1 = b1*a,
   * and the 7-entry tables `alp`/`bet` built by the offset loop. Never an error.
   */
  method NewDatum(a: real, f: real, k0: real,
                  alpcoeff: seq<real>, betcoeff: seq<real>, b1coeff: seq<real>)
    returns (r: Result<Datum>)
    requires f != 2.0
    requires SeriesInput(alpcoeff) && SeriesInput(betcoeff)
    requires |b1coeff| >= 5 && b1coeff[4] != 0.0
    ensures r.Ok?
    ensures r.value.a == a && r.value.f == f && r.value.k0 == k0 && r.value.maxpow == MaxPow
    ensures r.value.e2 == f * (2.0 - f) && r.value.n == f / (2.0 - f)
    ensures r.value.e2m == (1.0 - f) * (1.0 - f)
    ensures r.value.e2 * (1.0 + r.value.n) * (1.0 + r.value.n) == 4.0 * r.value.n
    ensures r.value.es.square == Abs(r.value.e2) && (r.value.es.negative <==> f <= 0.0)
    ensures 1.0 + r.value.n != 0.0
    ensures r.value.b1 == B1(b1coeff, r.value.n)
    ensures r.value.a1 == r.value.b1 * a
    ensures r.value.alp == SeriesTable(alpcoeff, r.value.n)
    ensures r.value.bet == SeriesTable(betcoeff, r.value.n)
  {
    var e2 := f * (2.0 - f);
    var es := SignedRoot(f <= 0.0, Abs(e2));
    var e2m := 1.0 - e2;
    var n := f / (2.0 - f);
    var maxpow := MaxPow;
    OnePlusThirdFlattening(f);

    var m := maxpow / 2;
    assert m == 3;
    var pb1 := PolyVal(m, b1coeff, n * n);
    var b1 := pb1 / (b1coeff[m + 1] * (1.0 + n));
    B1Step(b1coeff, n, m, pb1);
    var a1 := b1 * a;

    var alp, bet := SeriesLoop(n, alpcoeff, betcoeff);
    EccentricityIdentities(f);
    r := Ok(Datum(a, f, k0, e2, es, e2m, b1, a1, n, maxpow, alp, bet));
  }

  const Wgs84A: real := 6378137.0
  const Wgs84F: real := 0.0033528106647474805
  const Wgs84K0: real := 0.99960000000000004

  const Wgs84AlpCoeff: seq<real> := [
    31564.0, -66675.0, 34440.0, 47250.0,
    -100800.0, 75600.0, 151200.0, -1983433.0,
    863232.0, 748608.0, -1161216.0, 524160.0,
    1935360.0, 670412.0, 406647.0, -533952.0,
    184464.0, 725760.0, 6601661.0, -7732800.0,
    2230245.0, 7257600.0, -13675556.0, 3438171.0,
    7983360.0, 212378941.0, 319334400.0]

  const Wgs84BetCoeff: seq<real> := [
    384796.0, -382725.0, -6720.0, 932400.0,
    -1612800.0, 1209600.0, 2419200.0, -1118711.0,
    1695744.0, -1174656.0, 258048.0, 80640.0,
    3870720.0, 22276.0, -16929.0, -15984.0,
    12852.0, 362880.0, -830251.0, -158400.0,
    197865.0, 7257600.0, -435388.0, 453717.0,
    15966720.0, 20648693.0, 638668800.0]

  const Wgs84B1Coeff: seq<real> := [1.0, 4.0, 64.0, 256.0, 256.0]

  /** The WGS84 tables hold exactly the 27 entries the loop reads, with non-zero normalisers. */
  lemma Wgs84TablesFit()
    ensures |Wgs84AlpCoeff| == Offset(MaxPow) && |Wgs84BetCoeff| == Offset(MaxPow)
    ensures SeriesInput(Wgs84AlpCoeff) && SeriesInput(Wgs84BetCoeff)
    ensures |Wgs84B1Coeff| == MaxPow / 2 + 2
  {
    OffsetTable();
    forall i | 0 <= i < MaxPow
      ensures Wgs84AlpCoeff[Divisor(i)] != 0.0 && Wgs84BetCoeff[Divisor(i)] != 0.0
    {
      if i == 0 { assert Divisor(i) == 6; }
      else if i == 1 { assert Divisor(i) == 12; }
      else if i == 2 { assert Divisor(i) == 17; }
      else if i == 3 { assert Divisor(i) == 21; }
      else if i == 4 { assert Divisor(i) == 24; }
      else { assert Divisor(i) == 26; }
    }
  }

  /** Third flattening of WGS84, as the test checks it: trunc(n * 10^8) = 167922. */
  lemma Wgs84ThirdFlattening()
    ensures Trunc(Wgs84F / (2.0 - Wgs84F) * 100000000.0) == 167922
  {
    var n := Wgs84F / (2.0 - Wgs84F);
    assert n * (2.0 - Wgs84F) == Wgs84F;
    assert 167922.0 <= n * 100000000.0 < 167923.0;
  }

  /** With the WGS84 b1 table, b1 = (1 + n^2/4 + n^4/64 + n^6/256) / (1 + n). */
  lemma Wgs84B1Series(n: real)
    requires 1.0 + n != 0.0
    ensures B1(Wgs84B1Coeff, n) == (1.0 + n * n / 4.0 + n * n * n * n / 64.0 + n * n * n * n * n * n / 256.0) / (1.0 + n)
  {
    var x := n * n;
    assert Wgs84B1Coeff[..4] == [1.0, 4.0, 64.0, 256.0];
    assert PowerSum([256.0], x) == 256.0;
    assert PowerSum([64.0, 256.0], x) == 64.0 * x + 256.0;
    assert Pow(x, 2) == x * x;
    assert PowerSum([4.0, 64.0, 256.0], x) == 4.0 * (x * x) + 64.0 * x + 256.0 by {
      assert [4.0, 64.0, 256.0][1..] == [64.0, 256.0];
    }
    assert Pow(x, 3) == x * x * x;
    assert PowerSum([1.0, 4.0, 64.0, 256.0], x) == x * x * x + 4.0 * (x * x) + 64.0 * x + 256.0 by {
      assert [1.0, 4.0, 64.0, 256.0][1..] == [4.0, 64.0, 256.0];
    }
  }

  /** `Datum::wgs84`: the standard ellipsoid with its literal tables. */
  method Wgs84() returns (d: Datum)
    ensures d.a == Wgs84A && d.f == Wgs84F && d.k0 == Wgs84K0
    ensures |d.alp| == MaxPow + 1 && |d.bet| == MaxPow + 1
    ensures d.alp == SeriesTable(Wgs84AlpCoeff, d.n) && d.bet == SeriesTable(Wgs84BetCoeff, d.n)
    ensures d.n == Wgs84F / (2.0 - Wgs84F) && Trunc(d.n * 100000000.0) == 167922
    ensures d.e2 == Wgs84F * (2.0 - Wgs84F) && d.e2m == (1.0 - Wgs84F) * (1.0 - Wgs84F)
    ensures d.es.square == d.e2 && !d.es.negative
    ensures 1.0 + d.n != 0.0 && d.b1 == B1(Wgs84B1Coeff, d.n)
    ensures d.b1 == (1.0 + d.n * d.n / 4.0 + d.n * d.n * d.n * d.n / 64.0
                     + d.n * d.n * d.n * d.n * d.n * d.n / 256.0) / (1.0 + d.n)
    ensures d.a1 == d.b1 * Wgs84A
  {
    Wgs84TablesFit();
    Wgs84ThirdFlattening();
    var r := NewDatum(Wgs84A, Wgs84F, Wgs84K0, Wgs84AlpCoeff, Wgs84BetCoeff, Wgs84B1Coeff);
    d := r.value;
    Wgs84B1Series(d.n);
  }
}
