/**
 * `src/mgrs.rs`: the MGRS text encoder (`Display for Mgrs`). A non-polar
 * reference is two zone digits, the latitude band letter, the 100 km column
 * and row letters, then `prec` easting digits and `prec` northing digits.
 * The latitude the band letter needs comes from the inverse projection and
 * is a parameter here.
 */
module MgrsFormat {
  import opened GeoMath
  import opened Utms

  datatype Mgrs = Mgrs(utm: Utm, prec: nat)

  /** `Mgrs::new`: wraps the Utm unchanged with the default precision 5 (1 m). */
  function NewMgrs(utm: Utm): (m: Mgrs)
    ensures m.utm == utm && m.prec == 5
  {
    Mgrs(utm, 5)
  }

  const MaxPrec: nat := 11
  /** Micrometres per metre, and per 100 km tile. */
  const Mult: real := 1000000.0
  const TileMicros: int := 100000000000
  const UtmRowPeriod: real := 20.0
  const MaxUtmSrow: real := 100.0
  const UtmEvenRowShift: real := 5.0
  const MinUtmCol: int := 1
  /** 2^-46: latitudes this close to the equator take their band from `north`. */
  const AngEps: real := 1.0 / 70368744177664.0

  const DigitChars: string := "0123456789"
  const UtmCols: seq<string> := ["ABCDEFGH", "JKLMNPQR", "STUVWXYZ"]
  const UtmRow: string := "ABCDEFGHJKLMNPQRSTUV"

  function Pow10(k: nat): (p: nat)
    ensures p >= 1
  {
    if k == 0 then 1 else 10 * Pow10(k - 1)
  }

  lemma {:induction false} Pow10Add(a: nat, b: nat)
    ensures Pow10(a + b) == Pow10(a) * Pow10(b)
  {
    if a > 0 {
      Pow10Add(a - 1, b);
      assert Pow10(a + b) == 10 * Pow10(a - 1 + b);
    }
  }

  /** Rust's saturating `f64 as usize` for the whole values used here. */
  function SatUsize(x: real): (k: nat)
    ensures x >= 0.0 ==> k == Trunc(x)
    ensures x < 1.0 ==> k == 0
  {
    if x < 0.0 then 0 else Trunc(x)
  }

  /** Index of the 100 km tile holding `x` metres: trunc(floor(x 10^6) / 10^11). */
  function TileIndex(x: real): (t: int)
    ensures x >= 0.0 ==> t >= 0
  {
    Trunc((x * Mult).Floor as real / TileMicros as real)
  }

  /** Micrometres from the tile edge: floor(x 10^6) - 10^11 * tile index. */
  function TileOffset(x: real): int
  {
    (x * Mult).Floor - TileMicros * TileIndex(x)
  }

  /** The offset lies within one tile and has the sign of x's micrometre count. */
  lemma TileOffsetRange(x: real)
    ensures (x * Mult).Floor >= 0 ==> 0 <= TileOffset(x) < TileMicros
    ensures (x * Mult).Floor >= 0 ==> TileIndex(x) == (x * Mult).Floor / TileMicros
    ensures (x * Mult).Floor < 0 ==> -TileMicros < TileOffset(x) <= 0
  {
    var ix := (x * Mult).Floor;
    if ix >= 0 {
      RealQuotient(ix, TileMicros);
    }
  }

  /**
   * The number written as the `prec` digits of a coordinate: the tile offset
   * divided by 10^(11 - prec). A negative offset prints as all zeros, since
   * each negative remainder saturates to 0 in `as usize`.
   */
  function DigitGroup(x: real, prec: nat): nat
    requires prec <= MaxPrec
  {
    var offset := TileOffset(x);
    if offset < 0 then 0
    else
      var unit := Pow10(MaxPrec - prec);
      QuotientNat(offset, unit);
      offset / unit
  }

  lemma QuotientNat(a: int, b: int)
    requires a >= 0 && b > 0
    ensures a / b >= 0
  {
  }

  lemma PositiveFactor(x: int, y: int)
    requires x > 0 && x * y > 0
    ensures y > 0
  {
  }

  lemma DivBelow(a: int, b: nat, c: nat)
    requires 0 <= a < b * c && c > 0
    ensures a / c < b
  {
    var q := a / c;
    assert c * q <= a;
    assert c * (b - q) == c * b - c * q;
    PositiveFactor(c, b - q);
  }

  /** Every digit group has at most `prec` digits. */
  lemma DigitGroupBound(x: real, prec: nat)
    requires prec <= MaxPrec
    ensures DigitGroup(x, prec) < Pow10(prec)
  {
    TileOffsetRange(x);
    Pow10Add(prec, MaxPrec - prec);
    assert Pow10(MaxPrec) == TileMicros;
    var offset := TileOffset(x);
    if offset >= 0 {
      DivBelow(offset, Pow10(prec), Pow10(MaxPrec - prec));
    }
  }

  /** The last p decimal digits of v, most significant first, zero-padded. */
  function DigitsOf(v: nat, p: nat): (s: string)
    ensures |s| == p
    ensures forall i :: 0 <= i < p ==> s[i] in DigitChars
  {
    if p == 0 then [] else DigitsOf(v / 10, p - 1) + [DigitChars[v % 10]]
  }

  /** Reading a digit string back as a number. */
  function ValueOf(s: string): int
  {
    if s == [] then 0 else ValueOf(s[..|s| - 1]) * 10 + (s[|s| - 1] as int - '0' as int)
  }

  /** Reading back the p digits of a number below 10^p gives the number. */
  lemma {:induction false} DigitsRoundTrip(v: nat, p: nat)
    requires v < Pow10(p)
    ensures ValueOf(DigitsOf(v, p)) == v
  {
    if p > 0 {
      var w, d := v / 10, v % 10;
      var init := DigitsOf(w, p - 1);
      DivBelow(v, Pow10(p - 1), 10);
      DigitsRoundTrip(w, p - 1);
      DigitValue(d);
      ValueSnoc(init, DigitChars[d]);
      assert DigitsOf(v, p) == init + [DigitChars[d]];
    }
  }

  /** Appending a digit character c multiplies the value by ten and adds c's digit. */
  lemma ValueSnoc(s: string, c: char)
    ensures ValueOf(s + [c]) == ValueOf(s) * 10 + (c as int - '0' as int)
  {
    assert (s + [c])[..|s + [c]| - 1] == s;
  }

  /** The digit character for d reads back as d. */
  lemma DigitValue(d: nat)
    requires d < 10
    ensures DigitChars[d] as int - '0' as int == d
  {
    assert DigitChars == ['0', '1', '2', '3', '4', '5', '6', '7', '8', '9'];
  }

  /** Each written digit group reads back as exactly its digit group. */
  lemma DigitGroupRoundTrip(x: real, prec: nat)
    requires prec <= MaxPrec
    ensures ValueOf(DigitsOf(DigitGroup(x, prec), prec)) == DigitGroup(x, prec)
  {
    DigitGroupBound(x, prec);
    DigitsRoundTrip(DigitGroup(x, prec), prec);
  }

  /**
   * Band index of the encoder, literally: trunc of
   * ((floor(lat) + 80) / 8 - 10.10) clamped to [-10, 9], or 0 / -1 by `north`
   * within 2^-46 of the equator.
   */
  function MgrsBandIndex(lat: real, north: bool): (iband: int)
    ensures -10 <= iband <= 9
  {
    var ilat := lat.Floor as real;
    var raw := (ilat + 80.0) / 8.0 - 10.10;
    var upper := if raw < 9.0 then raw else 9.0;
    var lband := if upper > -10.0 then upper else -10.0;
    Trunc(if Abs(lat) > AngEps then lband else if north then 0.0 else -1.0)
  }

  lemma FloorDiv8(lat: real)
    ensures (lat / 8.0).Floor == lat.Floor / 8
  {
    var f := lat.Floor;
    var q := f / 8;
    assert 8 * q <= f < 8 * q + 8;
    assert q as real <= lat / 8.0 < q as real + 1.0;
  }

  /**
   * North of the equator (and below 84) the encoder's band agrees with the
   * `utm.rs` chain except on [8k, 8k + 1) for k = 1..9, where it is one band
   * further south.
   */
  lemma MgrsBandNorth(lat: real, north: bool)
    requires AngEps < lat < 84.0
    ensures 10 + MgrsBandIndex(lat, north)
         == if lat.Floor % 8 == 0 && 8 <= lat.Floor <= 72 then BandIndex(lat) - 1 else BandIndex(lat)
  {
    FloorDiv8(lat);
    var f := lat.Floor;
    var q, r := f / 8, f % 8;
    assert f == 8 * q + r;
    assert (f as real + 80.0) / 8.0 - 10.10 == q as real + r as real / 8.0 - 0.1;
  }

  /**
   * South of the equator (down to -80) the encoder's band agrees with the
   * `utm.rs` chain only when floor(lat) is a multiple of 8; elsewhere it is
   * one band further north.
   */
  lemma MgrsBandSouth(lat: real, north: bool)
    requires -80.0 <= lat < -AngEps
    ensures 10 + MgrsBandIndex(lat, north)
         == if lat.Floor % 8 == 0 then BandIndex(lat) else BandIndex(lat) + 1
  {
    FloorDiv8(lat);
    var f := lat.Floor;
    var q, r := f / 8, f % 8;
    assert f == 8 * q + r;
    assert (f as real + 80.0) / 8.0 - 10.10 == q as real + r as real / 8.0 - 0.1;
  }

  /** The two bands disagree: 8.5 N is band P but the encoder writes N; 23 S is K but it writes L. */
  lemma MgrsBandDisagreements()
    ensures LatBands[10 + MgrsBandIndex(8.5, true)] == 'N' && Band(8.5) == 'P'
    ensures LatBands[10 + MgrsBandIndex(-23.0, false)] == 'L' && Band(-23.0) == 'K'
  {
    assert (8.5).Floor == 8;
    assert Trunc(0.9) == 0;
    assert (-23.0).Floor == -23;
    assert Trunc(-2.975) == -2;
  }

  /** Column letter: set (zone - 1) mod 3, position xh - 1 (a negative position saturates to 0). */
  function ColumnLetter(zone: int, xh: int): (c: char)
    requires zone >= 1 && xh <= 8
    ensures c in UtmCols[(zone - 1) % 3] && c != 'I' && c != 'O'
  {
    UtmCols[(zone - 1) % 3][SatUsize((xh - MinUtmCol) as real)]
  }

  /** Row position: fmod(yh + 5 for even zones, 20), saturated at 0. */
  function RowIndex(zone: int, yh: int): (pos: nat)
    requires zone >= 1
    ensures pos < |UtmRow|
  {
    var shift := if (zone - 1) % 2 > 0 then UtmEvenRowShift else 0.0;
    SatUsize(FMod(yh as real + shift, UtmRowPeriod))
  }

  /** For a northern tile row yh >= 0 the row letter cycles with period 20, shifted by 5 in even zones. */
  lemma RowIndexCycles(zone: int, yh: int)
    requires zone >= 1 && yh >= 0
    ensures RowIndex(zone, yh) == (yh + (if zone % 2 == 0 then 5 else 0)) % 20
  {
    var k := yh + (if zone % 2 == 0 then 5 else 0);
    RowShift(zone, yh, k);
    FModNatural(k, 20);
    SatWhole(k % 20);
  }

  /** Proof step: the real row shift of `RowIndex` is the integer shift k. */
  lemma RowShift(zone: int, yh: int, k: int)
    requires k == yh + (if zone % 2 == 0 then 5 else 0)
    ensures yh as real + (if (zone - 1) % 2 > 0 then UtmEvenRowShift else 0.0) == k as real
  {
  }

  lemma SatWhole(n: nat)
    ensures SatUsize(n as real) == n
  {
    TruncWhole(n);
  }

  /** For tiles 1..8 the column letter is entry xh - 1 of the zone's set, without saturation. */
  lemma ColumnLetterInTile(zone: int, xh: int)
    requires zone >= 1 && 1 <= xh <= 8
    ensures ColumnLetter(zone, xh) == UtmCols[(zone - 1) % 3][xh - 1]
    ensures ColumnLetter(zone, xh) != 'I' && ColumnLetter(zone, xh) != 'O'
  {
    assert Trunc((xh - 1) as real) == xh - 1;
  }

  /**
   * The range check the source computes (src/mgrs.rs:83-95); the statement
   * it guards is commented out, so its outcome is never used.
   */
  function RowWithinBand(iband: int, north: bool, yh: int): bool
  {
    var c := 100.0 * (8.0 * iband as real + 4.0) / 90.0;
    var northShift := if north then 1.0 else 0.0;
    var minrow := Trunc(if iband > -10 then c - 4.3 - 0.1 * northShift else -90.0);
    var maxrow := Trunc(if iband < 9 then c + 4.4 - 0.1 * northShift else 94.0);
    var baserow := Trunc((minrow + maxrow) as real / 2.0 - UtmRowPeriod / 2.0);
    var irow := FMod(FMod(yh as real, UtmRowPeriod) - baserow as real + MaxUtmSrow, UtmRowPeriod)
                + baserow as real;
    irow >= minrow as real && irow <= maxrow as real
  }

  /**
   * The dead check of `fmt`: it has no result and changes nothing, so the
   * text does not depend on its outcome.
   */
  method RowRangeCheck(iband: int, north: bool, yh: int)
  {
    if !RowWithinBand(iband, north, yh) {
      // the source resets nothing here: its only statement is commented out
    }
  }

  /** What `fmt` demands to stay in bounds: prec <= 11, and outside UPS a two-digit zone and a tile <= 8. */
  predicate Encodable(m: Mgrs)
  {
    m.prec <= MaxPrec &&
    (!m.utm.ups ==> 1 <= m.utm.zone <= 99 && TileIndex(m.utm.easting) <= 8)
  }

  /** Zone digits and the three letters; empty for UPS. */
  function Prefix(m: Mgrs, lat: real): (s: string)
    requires Encodable(m)
    ensures |s| == if m.utm.ups then 0 else 5
  {
    if m.utm.ups then []
    else
      [DigitChars[m.utm.zone / 10], DigitChars[m.utm.zone % 10],
       LatBands[10 + MgrsBandIndex(lat, m.utm.north)],
       ColumnLetter(m.utm.zone, TileIndex(m.utm.easting)),
       UtmRow[RowIndex(m.utm.zone, TileIndex(m.utm.northing))]]
  }

  /** The MGRS string: prefix, then the easting digits, then the northing digits. */
  function MgrsText(m: Mgrs, lat: real): string
    requires Encodable(m)
  {
    Prefix(m, lat) + DigitsOf(DigitGroup(m.utm.easting, m.prec), m.prec)
                   + DigitsOf(DigitGroup(m.utm.northing, m.prec), m.prec)
  }

  /** Length 5 + 2 prec (2 prec for UPS), and where each part sits. */
  lemma MgrsLayout(m: Mgrs, lat: real)
    requires Encodable(m)
    ensures var s := MgrsText(m, lat); var z := if m.utm.ups then 0 else 5;
      && |s| == z + 2 * m.prec
      && s[z..z + m.prec] == DigitsOf(DigitGroup(m.utm.easting, m.prec), m.prec)
      && s[z + m.prec..] == DigitsOf(DigitGroup(m.utm.northing, m.prec), m.prec)
      && (!m.utm.ups ==> s[2] == LatBands[10 + MgrsBandIndex(lat, m.utm.north)])
  {
  }

  lemma TwoDigits(z: nat)
    requires z < 100
    ensures DigitsOf(z, 2) == [DigitChars[z / 10], DigitChars[z % 10]]
  {
    assert (z / 10) % 10 == z / 10 && (z / 10) / 10 == 0;
    assert DigitsOf(z / 10, 1) == DigitsOf(0, 0) + [DigitChars[z / 10]];
  }

  /** The two leading characters are the zone written with two digits, and read back as the zone. */
  lemma ZoneDigitsRoundTrip(m: Mgrs, lat: real)
    requires Encodable(m) && !m.utm.ups
    ensures MgrsText(m, lat)[..2] == DigitsOf(m.utm.zone, 2)
    ensures ValueOf(MgrsText(m, lat)[..2]) == m.utm.zone
  {
    var z := m.utm.zone;
    var pre := Prefix(m, lat);
    assert MgrsText(m, lat)[..2] == pre[..2];
    TwoDigits(z);
    assert pre[..2] == DigitsOf(z, 2);
    assert Pow10(2) == 100;
    DigitsRoundTrip(z, 2);
  }

  /** Precision 0 writes only the zone digits and the three letters. */
  lemma MgrsPrecisionZero(m: Mgrs, lat: real)
    requires Encodable(m) && m.prec == 0
    ensures MgrsText(m, lat) == Prefix(m, lat)
  {
  }

  /**
   * First half of `fmt`: the zone digits (none for UPS), then the band,
   * column and row letters; `z` counts what was pushed.
   */
  method PushPrefix(m: Mgrs, lat: real) returns (mgrs: string, z: nat)
    requires Encodable(m)
    ensures mgrs == Prefix(m, lat) && z == |mgrs|
  {
    var utm := m.utm;
    z := if utm.ups then 0 else 2;

    mgrs := "";
    if !utm.ups {
      mgrs := mgrs + [DigitChars[utm.zone / 10]];
      mgrs := mgrs + [DigitChars[utm.zone % 10]];
      var band, col, row := GridLetters(utm.zone, utm.easting, utm.northing, lat, utm.north);
      mgrs := mgrs + [band];
      mgrs := mgrs + [col];
      mgrs := mgrs + [row];
      z := z + 3;
      assert mgrs == [DigitChars[utm.zone / 10], DigitChars[utm.zone % 10], band, col, row];
    }
  }

  /**
   * The letters of a non-UPS position: the band letter from the latitude,
   * the column letter from the 100 km easting tile and the row letter from
   * the northing tile; the dead row-range check runs in between.
   */
  method GridLetters(zone: int, easting: real, northing: real, lat: real, north: bool)
    returns (band: char, col: char, row: char)
    requires 1 <= zone && TileIndex(easting) <= 8
    ensures band == LatBands[10 + MgrsBandIndex(lat, north)]
    ensures col == ColumnLetter(zone, TileIndex(easting))
    ensures row == UtmRow[RowIndex(zone, TileIndex(northing))]
  {
    var zone1 := zone - 1;
    var xh := TileIndex(easting);
    var yh := TileIndex(northing);
    var iband := MgrsBandIndex(lat, north);
    var icol := xh - MinUtmCol;
    RowRangeCheck(iband, north, yh);
    band := LatBands[10 + iband];
    col := UtmCols[zone1 % 3][SatUsize(icol as real)];
    var pos := SatUsize(FMod(yh as real + (if zone1 % 2 > 0 then UtmEvenRowShift else 0.0),
                             UtmRowPeriod));
    RowPosition(zone, zone1, yh, pos);
    row := UtmRow[pos];
  }

  /** Proof step for `GridLetters`: the row position it computes inline is `RowIndex`. */
  lemma RowPosition(zone: int, zone1: int, yh: int, pos: nat)
    requires zone >= 1 && zone1 == zone - 1
    requires pos == SatUsize(FMod(yh as real + (if zone1 % 2 > 0 then UtmEvenRowShift else 0.0),
                                  UtmRowPeriod))
    ensures pos == RowIndex(zone, yh)
  {
  }

  /**
   * State of the digit buffer once positions c.. of both digit groups are
   * written: the prefix is intact, and what is still to be written is the
   * c-digit rendering of the remaining quotients.
   */
  ghost predicate Filled(s: string, prefix: string, z: nat, prec: nat, c: nat,
                         ix: nat, iy: nat, ixd: nat, iyd: nat)
  {
    |s| == z + prec + prec && c <= prec && s[..z] == prefix &&
    DigitsOf(ix, prec) == DigitsOf(ixd, c) + s[z + c..z + prec] &&
    DigitsOf(iy, prec) == DigitsOf(iyd, c) + s[z + prec + c..]
  }

  /** Writing digit c of both groups moves the boundary one place left. */
  lemma FillStep(s: string, prefix: string, z: nat, prec: nat, c: nat,
                 ix: nat, iy: nat, ixd: nat, iyd: nat)
    requires c < prec && Filled(s, prefix, z, prec, c + 1, ix, iy, ixd, iyd)
    ensures Filled(s[z + c := DigitChars[ixd % 10]][z + c + prec := DigitChars[iyd % 10]],
                   prefix, z, prec, c, ix, iy, ixd / 10, iyd / 10)
  {
    var t := s[z + c := DigitChars[ixd % 10]][z + c + prec := DigitChars[iyd % 10]];
    assert t[..z] == s[..z];
    PlaceDigit(DigitsOf(ix, prec), ixd, c, s[z + c + 1..z + prec]);
    assert t[z + c..z + prec] == [DigitChars[ixd % 10]] + s[z + c + 1..z + prec];
    PlaceDigit(DigitsOf(iy, prec), iyd, c, s[z + prec + c + 1..]);
    assert t[z + prec + c..] == [DigitChars[iyd % 10]] + s[z + prec + c + 1..];
  }

  /** Moving the last digit of v from the number to the written tail keeps the whole. */
  lemma PlaceDigit(full: string, v: nat, c: nat, tail: string)
    requires full == DigitsOf(v, c + 1) + tail
    ensures full == DigitsOf(v / 10, c) + ([DigitChars[v % 10]] + tail)
  {
    assert DigitsOf(v, c + 1) == DigitsOf(v / 10, c) + [DigitChars[v % 10]];
  }

  /**
   * The reversed digit loop of `fmt`: position z + c gets the c-th easting
   * digit and z + prec + c the c-th northing digit, least significant first,
   * dividing both numbers by 10 after each step.
   */
  method FillDigits(buf: array<char>, z: nat, prec: nat, ix: nat, iy: nat)
    requires buf.Length == z + prec + prec
    modifies buf
    ensures buf[..z] == old(buf[..z])
    ensures buf[z..z + prec] == DigitsOf(ix, prec)
    ensures buf[z + prec..] == DigitsOf(iy, prec)
  {
    var ixd, iyd := ix, iy;
    assert buf[z + prec + prec..] == [];
    for c := prec downto 0
      invariant Filled(buf[..], old(buf[..z]), z, prec, c, ix, iy, ixd, iyd)
    {
      ghost var s := buf[..];
      FillStep(s, old(buf[..z]), z, prec, c, ix, iy, ixd, iyd);
      buf[z + c] := DigitChars[ixd % 10];
      ixd := ixd / 10;
      buf[z + c + prec] := DigitChars[iyd % 10];
      iyd := iyd / 10;
      assert buf[..] == s[z + c := buf[z + c]][z + c + prec := buf[z + c + prec]];
    }
    assert buf[..][z..z + prec] == buf[z..z + prec];
  }

  /**
   * `fmt`. After the prefix, pads with 2 prec spaces and fills the digits
   * right to left in a byte buffer.
   */
  method Format(m: Mgrs, lat: real) returns (s: string)
    requires Encodable(m)
    ensures s == MgrsText(m, lat)
  {
    var mgrs, z := PushPrefix(m, lat);
    var prec := m.prec;
    if prec > 0 {
      var ixd := DigitGroup(m.utm.easting, prec);
      var iyd := DigitGroup(m.utm.northing, prec);
      s := PadAndFill(mgrs, z, prec, ixd, iyd);
    } else {
      s := mgrs;
    }
  }

  /**
   * Second half of `fmt`: pad with 2 prec spaces, then overwrite the padding
   * with the easting and northing digits.
   */
  method PadAndFill(mgrs: string, z: nat, prec: nat, ixd: nat, iyd: nat) returns (s: string)
    requires z == |mgrs|
    ensures s == mgrs + DigitsOf(ixd, prec) + DigitsOf(iyd, prec)
  {
    var padded := mgrs;
    while |padded| < z + prec + prec
      invariant z <= |padded| <= z + prec + prec
      invariant padded[..z] == mgrs
      decreases z + prec + prec - |padded|
    {
      padded := padded + [' '];
    }

    var buf := new char[|padded|](i requires 0 <= i < |padded| => padded[i]);
    assert buf[..z] == mgrs;
    FillDigits(buf, z, prec, ixd, iyd);
    s := buf[..];
    assert s == buf[..z] + buf[z..z + prec] + buf[z + prec..];
  }

  /** Tile index and digit group of a coordinate whose micrometre count is known. */
  lemma TileOf(x: real, micros: int, tile: int, offset: int)
    requires (x * Mult).Floor == micros
    requires tile >= 0 && 0 <= offset < TileMicros && micros == TileMicros * tile + offset
    ensures TileIndex(x) == tile && TileOffset(x) == offset
  {
    assert micros as real / TileMicros as real == tile as real + offset as real / TileMicros as real;
  }

  lemma Example23KTiles()
    ensures TileIndex(660264.5) == 6 && DigitGroup(660264.5, 5) == 60264
    ensures TileIndex(7454563.5) == 74 && DigitGroup(7454563.5, 5) == 54563
  {
    assert (660264.5 * Mult).Floor == 660264500000;
    TileOf(660264.5, 660264500000, 6, 60264500000);
    assert (7454563.5 * Mult).Floor == 7454563500000;
    TileOf(7454563.5, 7454563500000, 74, 54563500000);
    assert Pow10(6) == 1000000;
  }

  lemma Example23KLetters()
    ensures LatBands[10 + MgrsBandIndex(-23.00958611, false)] == 'K'
    ensures ColumnLetter(23, 6) == 'P' && UtmRow[RowIndex(23, 74)] == 'Q'
  {
    assert (-23.00958611).Floor == -24;
    assert Trunc(-3.1) == -3;
    RowIndexCycles(23, 74);
    assert Trunc(5.0) == 5;
  }

  /** One more digit on the right: the last digit of v after the digits of v / 10. */
  lemma DigitsStep(v: nat, p: nat, d: char)
    requires p > 0 && d == DigitChars[v % 10]
    ensures DigitsOf(v, p) == DigitsOf(v / 10, p - 1) + [d]
  {
  }

  lemma Digits60264()
    ensures DigitsOf(60264, 5) == "60264"
  {
    DigitsStep(6, 1, '6');
    DigitsStep(60, 2, '0');
    DigitsStep(602, 3, '2');
    DigitsStep(6026, 4, '6');
    DigitsStep(60264, 5, '4');
  }

  lemma Digits54563()
    ensures DigitsOf(54563, 5) == "54563"
  {
    DigitsStep(5, 1, '5');
    DigitsStep(54, 2, '4');
    DigitsStep(545, 3, '5');
    DigitsStep(5456, 4, '6');
    DigitsStep(54563, 5, '3');
  }

  lemma Digits772989()
    ensures DigitsOf(772989, 6) == "772989"
  {
    DigitsStep(7, 1, '7');
    DigitsStep(77, 2, '7');
    DigitsStep(772, 3, '2');
    DigitsStep(7729, 4, '9');
    DigitsStep(77298, 5, '8');
    DigitsStep(772989, 6, '9');
  }

  lemma Digits830350()
    ensures DigitsOf(830350, 6) == "830350"
  {
    DigitsStep(8, 1, '8');
    DigitsStep(83, 2, '3');
    DigitsStep(830, 3, '0');
    DigitsStep(8303, 4, '3');
    DigitsStep(83035, 5, '5');
    DigitsStep(830350, 6, '0');
  }

  /** Proof step for the examples: the prefix from its three letters. */
  lemma PrefixOf(m: Mgrs, lat: real, band: char, col: char, row: char)
    requires Encodable(m) && !m.utm.ups
    requires LatBands[10 + MgrsBandIndex(lat, m.utm.north)] == band
    requires ColumnLetter(m.utm.zone, TileIndex(m.utm.easting)) == col
    requires UtmRow[RowIndex(m.utm.zone, TileIndex(m.utm.northing))] == row
    ensures Prefix(m, lat) == [DigitChars[m.utm.zone / 10], DigitChars[m.utm.zone % 10], band, col, row]
  {
  }

  /** Proof step for the examples: the text from its three parts. */
  lemma TextOf(m: Mgrs, lat: real, pre: string, east: string, north: string)
    requires Encodable(m) && Prefix(m, lat) == pre
    requires DigitsOf(DigitGroup(m.utm.easting, m.prec), m.prec) == east
    requires DigitsOf(DigitGroup(m.utm.northing, m.prec), m.prec) == north
    ensures MgrsText(m, lat) == pre + east + north
  {
  }

  /** Precision 5 in zone 23, band K, tile offsets 60264.5 m east and 54563.5 m north. */
  lemma MgrsExamplePrec5(m: Mgrs, lat: real)
    requires m == Mgrs(Utm(660264.5, 7454563.5, false, 23, 'K', false), 5) && lat == -23.00958611
    ensures Encodable(m) && MgrsText(m, lat) == "23KPQ6026454563"
  {
    Example23KTiles();
    Example23KLetters();
    Digits60264();
    Digits54563();
    PrefixOf(m, lat, 'K', 'P', 'Q');
    TextOf(m, lat, "23KPQ", "60264", "54563");
    assert "23KPQ" + "60264" + "54563" == "23KPQ6026454563";
  }

  lemma Example48PTiles()
    ensures TileIndex(377298.95) == 3 && DigitGroup(377298.95, 6) == 772989
    ensures TileIndex(1483035.05) == 14 && DigitGroup(1483035.05, 6) == 830350
  {
    assert (377298.95 * Mult).Floor == 377298950000;
    TileOf(377298.95, 377298950000, 3, 77298950000);
    assert (1483035.05 * Mult).Floor == 1483035050000;
    TileOf(1483035.05, 1483035050000, 14, 83035050000);
    assert Pow10(5) == 100000;
  }

  lemma Example48PLetters()
    ensures LatBands[10 + MgrsBandIndex(13.41250188, true)] == 'P'
    ensures ColumnLetter(48, 3) == 'U' && UtmRow[RowIndex(48, 14)] == 'V'
  {
    assert (13.41250188).Floor == 13;
    assert Trunc(1.525) == 1;
    RowIndexCycles(48, 14);
    assert Trunc(2.0) == 2;
  }

  /** Precision 6 in zone 48, band P, tile offsets 77298.95 m east and 83035.05 m north. */
  lemma MgrsExamplePrec6(m: Mgrs, lat: real)
    requires m == Mgrs(Utm(377298.95, 1483035.05, true, 48, 'P', false), 6) && lat == 13.41250188
    ensures Encodable(m) && MgrsText(m, lat) == "48PUV772989830350"
  {
    Example48PTiles();
    Example48PLetters();
    Digits772989();
    Digits830350();
    PrefixOf(m, lat, 'P', 'U', 'V');
    TextOf(m, lat, "48PUV", "772989", "830350");
    assert "48PUV" + "772989" + "830350" == "48PUV772989830350";
  }
}
