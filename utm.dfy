/**
 * `src/utm.rs`: the discrete part of the UTM conversion. The latitude band,
 * the hemisphere and polar (UPS) flags, the zone with its Norway and Svalbard
 * exceptions, the sign and backside folding around the projection, and the
 * index into the false-origin tables. The transverse Mercator series itself
 * is a parameter (`series`, `inverse`).
 */
module Utms {
  import opened Errors
  import opened GeoMath
  import opened Coordinates

  datatype Utm = Utm(easting: real, northing: real, north: bool, zone: int, band: char, ups: bool)

  /** `Utm::new`: copies its six arguments and never fails. */
  function NewUtm(easting: real, northing: real, north: bool, zone: int, band: char, ups: bool): (r: Result<Utm>)
    ensures r.Ok?
    ensures r.value.easting == easting && r.value.northing == northing && r.value.north == north
    ensures r.value.zone == zone && r.value.band == band && r.value.ups == ups
  {
    Ok(Utm(easting, northing, north, zone, band, ups))
  }

  /** `std::f64::consts::PI`, the double nearest to pi, written out exactly. */
  const Pi: real := 3.141592653589793115997963468544185161590576171875

  /** The 20 latitude band letters, south to north (no I and no O). */
  const LatBands: string := "CDEFGHJKLMNPQRSTUVWX"

  /** The band chain of `from_coord`: one letter per 8 degrees, C below -72, X from 72. */
  function Band(lat: real): (b: char)
    ensures b in LatBands
  {
    if lat < -72.0 then 'C'
    else if lat < -64.0 then 'D'
    else if lat < -56.0 then 'E'
    else if lat < -48.0 then 'F'
    else if lat < -40.0 then 'G'
    else if lat < -32.0 then 'H'
    else if lat < -24.0 then 'J'
    else if lat < -16.0 then 'K'
    else if lat < -8.0 then 'L'
    else if lat < 0.0 then 'M'
    else if lat < 8.0 then 'N'
    else if lat < 16.0 then 'P'
    else if lat < 24.0 then 'Q'
    else if lat < 32.0 then 'R'
    else if lat < 40.0 then 'S'
    else if lat < 48.0 then 'T'
    else if lat < 56.0 then 'U'
    else if lat < 64.0 then 'V'
    else if lat < 72.0 then 'W'
    else 'X'
  }

  /** Position of the band of `lat` in `LatBands`: floor(lat / 8) + 10, clamped at both ends. */
  function BandIndex(lat: real): (k: int)
    ensures 0 <= k < |LatBands|
  {
    if lat < -72.0 then 0 else if lat >= 72.0 then 19 else (lat / 8.0).Floor + 10
  }

  /** The chain picks letter floor(lat/8)+10 of CDEFGHJKLMNPQRSTUVWX. */
  lemma BandIsIndexed(lat: real)
    ensures Band(lat) == LatBands[BandIndex(lat)]
  {
    var k := BandIndex(lat);
    if -72.0 <= lat < 72.0 {
      var q := (lat / 8.0).Floor;
      assert q as real <= lat / 8.0 < q as real + 1.0;
      assert 8.0 * q as real <= lat < 8.0 * q as real + 8.0;
    }
  }

  /** Between -72 and 64 each further 8 degrees moves one letter on. */
  lemma BandAdvances(lat: real)
    requires -72.0 <= lat < 64.0
    ensures BandIndex(lat + 8.0) == BandIndex(lat) + 1
  {
    assert (lat + 8.0) / 8.0 == lat / 8.0 + 1.0;
  }

  lemma BandNeverIO(lat: real)
    ensures Band(lat) != 'I' && Band(lat) != 'O'
  {
  }

  lemma {:induction false} LatBandsIncreasing(i: int, j: int)
    requires 0 <= i <= j < |LatBands|
    ensures LatBands[i] <= LatBands[j]
  {
    if i < j {
      LatBandsIncreasing(i, j - 1);
      assert LatBands[j - 1] < LatBands[j];
    }
  }

  /** A larger latitude never yields an earlier band letter. */
  lemma BandMonotone(lat1: real, lat2: real)
    requires lat1 <= lat2
    ensures Band(lat1) <= Band(lat2)
  {
    BandIsIndexed(lat1);
    BandIsIndexed(lat2);
    if -72.0 <= lat1 && lat2 < 72.0 {
      assert lat1 / 8.0 <= lat2 / 8.0;
    }
    LatBandsIncreasing(BandIndex(lat1), BandIndex(lat2));
  }

  /** `north` holds exactly for the bands from N on. */
  lemma NorthIffBand(lat: real)
    ensures lat >= 0.0 <==> Band(lat) >= 'N'
  {
  }

  /** Outside [-80, 84) the polar (UPS) system applies. */
  predicate IsUps(lat: real): (r: bool)
    ensures r ==> Band(lat) == 'C' || Band(lat) == 'X'
  {
    lat < -80.0 || lat >= 84.0
  }

  /** `ilon`: fmod(lon, 360) moved into [-180, 180); whole, since fmod truncates. */
  function ILon(lon: real): (r: real)
    ensures IsWhole(r) && -180.0 <= r < 180.0
  {
    var m := FMod(lon, 360.0);
    WholeSum(m, 360.0);
    if m >= 180.0 then m - 360.0
    else if m < -180.0 then m + 360.0
    else m
  }

  /** On [-180, 180], ilon is trunc(lon), except that 180 wraps to -180. */
  lemma ILonOfRange(lon: real)
    requires -180.0 <= lon <= 180.0
    ensures ILon(lon) == if lon == 180.0 then -180.0 else Trunc(lon) as real
  {
    FModWithinTurn(lon);
  }

  /** Zone before the exceptions: trunc((ilon + 186) / 6), the 6-degree strip holding ilon. */
  function StandardZone(ilon: real): (z: int)
    ensures ilon >= -186.0 ==> 6.0 * z as real - 186.0 <= ilon < 6.0 * z as real - 180.0
  {
    Trunc((ilon + 186.0) / 6.0)
  }

  /** The standard zone lies in [1, 60], and its 6-degree strip holds ilon. */
  lemma StandardZoneRange(lon: real)
    ensures 1 <= StandardZone(ILon(lon)) <= 60
    ensures 6.0 * StandardZone(ILon(lon)) as real - 186.0 <= ILon(lon)
    ensures ILon(lon) < 6.0 * StandardZone(ILon(lon)) as real - 180.0
  {
    var t := (ILon(lon) + 186.0) / 6.0;
    assert 1.0 <= t < 61.0;
  }

  /** For east longitudes the standard zone's strip contains lon itself. */
  lemma StandardZoneContainsEast(lon: real)
    requires 0.0 <= lon < 180.0
    ensures 6.0 * StandardZone(ILon(lon)) as real - 186.0 <= lon
    ensures lon < 6.0 * StandardZone(ILon(lon)) as real - 180.0
  {
    ILonOfRange(lon);
    StandardZoneRange(lon);
    var k := Trunc(lon);
    var z := StandardZone(ILon(lon));
    assert ILon(lon) == k as real;
    assert k < 6 * z - 180;
    assert lon < (k + 1) as real;
  }

  /**
   * West of the meridian the truncation moves a longitude just west of a
   * zone edge into the next zone east: lon = -0.5 lies in the strip of zone
   * 30, [-6, 0), but gets zone 31.
   */
  lemma StandardZoneTruncationExample()
    ensures StandardZone(ILon(-0.5)) == 31
    ensures 6.0 * 30.0 - 186.0 <= -0.5 < 6.0 * 30.0 - 180.0
  {
    ILonOfRange(-0.5);
    assert Trunc(-0.5) == 0;
    assert Trunc(186.0 / 6.0) == 31;
  }

  /** `except_band`: trunc((floor(lat) + 80) / 8 - 10), then at most 9, then at least -10. */
  function ExceptBand(lat: real): (e: int)
    ensures -10 <= e <= 9
  {
    var t := Trunc((lat.Floor as real + 80.0) / 8.0 - 10.0);
    var upper := if t < 9 then t else 9;
    if upper > -10 then upper else -10
  }

  /** except_band is 7 exactly for floor(lat) in [56, 63] (band V). */
  lemma ExceptBandSeven(lat: real)
    ensures ExceptBand(lat) == 7 <==> 56 <= lat.Floor <= 63
  {
  }

  /** except_band is 9 exactly for floor(lat) >= 72 (band X). */
  lemma ExceptBandNine(lat: real)
    ensures ExceptBand(lat) == 9 <==> lat.Floor >= 72
  {
  }

  /** Svalbard zone: 2 * ((ilon as i32 + 183) / 12) + 1. */
  function SvalbardZone(ilon: real): (z: int)
    requires 0.0 <= ilon <= 42.0
    ensures 31 <= z <= 37 && z % 2 == 1
  {
    2 * ((Trunc(ilon) + 183) / 12) + 1
  }

  /** The Svalbard zone is 31 up to ilon 8, 33 up to 20, 35 up to 32 and 37 up to 42. */
  lemma SvalbardZoneValues(ilon: real)
    requires 0.0 <= ilon <= 42.0
    ensures ilon < 9.0 ==> SvalbardZone(ilon) == 31
    ensures 9.0 <= ilon < 21.0 ==> SvalbardZone(ilon) == 33
    ensures 21.0 <= ilon < 33.0 ==> SvalbardZone(ilon) == 35
    ensures 33.0 <= ilon ==> SvalbardZone(ilon) == 37
  {
    var k := Trunc(ilon);
    assert 0 <= k <= 42;
    if ilon < 9.0 { assert k <= 8; }
    else if ilon < 21.0 { assert 9 <= k <= 20; }
    else if ilon < 33.0 { assert 21 <= k <= 32; }
    else { assert 33 <= k; }
  }

  /** The zone `from_coord` assigns: 0 for UPS, else the standard zone with the exceptions. */
  function Zone(lat: real, lon: real): (z: int)
    ensures z == 0 <==> IsUps(lat)
    ensures 0 <= z <= 60
  {
    if IsUps(lat) then 0
    else
      var ilon := ILon(lon);
      var zone := StandardZone(ilon);
      var exceptBand := ExceptBand(lat);
      if exceptBand == 7 && zone == 31 && ilon >= 3.0 then 32
      else if exceptBand == 9 && ilon >= 0.0 && ilon <= 42.0 then SvalbardZone(ilon)
      else zone
  }

  /** Norway: in band V, zone 31 from ilon 3 on becomes zone 32. */
  lemma ZoneNorway(lat: real, lon: real)
    requires !IsUps(lat) && 56 <= lat.Floor <= 63
    requires StandardZone(ILon(lon)) == 31 && ILon(lon) >= 3.0
    ensures Zone(lat, lon) == 32
  {
    ExceptBandSeven(lat);
  }

  /** Svalbard: in band X with ilon in [0, 42], the zone is odd and in 31..37. */
  lemma ZoneSvalbard(lat: real, lon: real)
    requires !IsUps(lat) && lat.Floor >= 72
    requires 0.0 <= ILon(lon) <= 42.0
    ensures Zone(lat, lon) == SvalbardZone(ILon(lon))
    ensures Zone(lat, lon) in {31, 33, 35, 37}
  {
    ExceptBandNine(lat);
    ExceptBandSeven(lat);
    SvalbardZoneValues(ILon(lon));
  }

  /** Outside the two exceptions the zone is the standard one. */
  lemma ZoneStandard(lat: real, lon: real)
    requires !IsUps(lat)
    requires !(56 <= lat.Floor <= 63 && StandardZone(ILon(lon)) == 31 && ILon(lon) >= 3.0)
    requires !(lat.Floor >= 72 && 0.0 <= ILon(lon) <= 42.0)
    ensures Zone(lat, lon) == StandardZone(ILon(lon))
  {
    ExceptBandSeven(lat);
    ExceptBandNine(lat);
  }

  /** Zones and bands of the coordinates in the source's unit tests. */
  lemma ZoneExamples()
    ensures Zone(-23.0095839, -43.4361816) == 23 && Band(-23.0095839) == 'K'
    ensures Zone(52.517153, 13.412389) == 33 && Band(52.517153) == 'U'
    ensures Zone(61.076521, 4.680180) == 32 && Band(61.076521) == 'V'
    ensures Zone(78.891608, 10.457194) == 33 && Band(78.891608) == 'X'
    ensures Zone(78.122200, 20.349504) == 33 && Band(78.122200) == 'X'
    ensures Zone(78.102575, 21.013745) == 35 && Band(78.102575) == 'X'
    ensures Zone(78.138264, 30.194746) == 35 && Band(78.138264) == 'X'
    ensures Zone(-34.073088, 18.549757) == 34 && Band(-34.073088) == 'H'
  {
    ILonOfRange(-43.4361816);
    assert Trunc(-43.4361816) == -43 && Trunc(143.0 / 6.0) == 23;
    assert (-23.0095839).Floor == -24;
    ILonOfRange(13.412389);
    assert Trunc(13.412389) == 13 && Trunc(199.0 / 6.0) == 33;
    assert (52.517153).Floor == 52;
    ILonOfRange(4.680180);
    assert Trunc(4.680180) == 4 && Trunc(190.0 / 6.0) == 31;
    assert (61.076521).Floor == 61;
    ZoneNorway(61.076521, 4.680180);
    ILonOfRange(10.457194);
    assert Trunc(10.457194) == 10;
    ZoneSvalbard(78.891608, 10.457194);
    SvalbardZoneValues(10.0);
    ILonOfRange(20.349504);
    assert Trunc(20.349504) == 20;
    ZoneSvalbard(78.122200, 20.349504);
    SvalbardZoneValues(20.0);
    ILonOfRange(21.013745);
    assert Trunc(21.013745) == 21;
    ZoneSvalbard(78.102575, 21.013745);
    SvalbardZoneValues(21.0);
    ILonOfRange(30.194746);
    assert Trunc(30.194746) == 30;
    ZoneSvalbard(78.138264, 30.194746);
    SvalbardZoneValues(30.0);
    ILonOfRange(18.549757);
    assert Trunc(18.549757) == 18 && Trunc(204.0 / 6.0) == 34;
    assert (-34.073088).Floor == -35;
  }

  /** Index into the four-entry false easting/northing tables. */
  function OriginIndex(north: bool, ups: bool): (ind: nat)
    ensures ind < 4
    ensures ind >= 2 <==> !ups
    ensures ind % 2 == 1 <==> north
  {
    (if ups then 0 else 2) + (if north then 1 else 0)
  }

  /** Longitude of the central meridian of a zone: 6 zone - 183. */
  function CentralMeridian(zone: int): (c: real)
    ensures 6.0 * zone as real - 186.0 < c < 6.0 * zone as real - 180.0
    ensures 1 <= zone <= 60 ==> -177.0 <= c <= 177.0
  {
    6.0 * zone as real - 183.0
  }

  /** The reduced angles handed to the series, and the signs that undo the reduction. */
  datatype Folded = Folded(latNorm: real, lonNorm: real, latsign: real, lonsign: real, backside: bool)

  predicate IsSign(s: real)
  {
    s == 1.0 || s == -1.0
  }

  /**
   * Sign split and backside fold of `from_coord`, given lat and the longitude
   * difference from the central meridian: |lat| and |lonDiff|, the latter
   * reflected about 90 degrees when it exceeds 90 (the backside), where an
   * equatorial point then takes the southern sign.
   */
  function Fold(lat: real, lonDiff: real): (fo: Folded)
    requires -180.0 <= lonDiff <= 180.0
    ensures 0.0 <= fo.latNorm && 0.0 <= fo.lonNorm <= 90.0
    ensures IsSign(fo.latsign) && IsSign(fo.lonsign)
    ensures fo.latsign * fo.latNorm == lat
    ensures fo.lonsign * Unreflect(fo) == lonDiff
    ensures fo.backside <==> Abs(lonDiff) > 90.0
    ensures fo.latsign == if lat < 0.0 || (lat == 0.0 && fo.backside) then -1.0 else 1.0
    ensures fo.lonsign == if lonDiff < 0.0 then -1.0 else 1.0
  {
    var latsign := if lat < 0.0 then -1.0 else 1.0;
    var lonsign := if lonDiff < 0.0 then -1.0 else 1.0;
    var latNorm := lat * latsign;
    var lonAbs := lonDiff * lonsign;
    Unsign(lat, latsign);
    Unsign(lonDiff, lonsign);
    if lonAbs > 90.0 then
      var fo := Folded(latNorm, 180.0 - lonAbs, if latNorm == 0.0 then -1.0 else latsign, lonsign, true);
      assert Unreflect(fo) == lonAbs;
      fo
    else
      var fo := Folded(latNorm, lonAbs, latsign, lonsign, false);
      assert Unreflect(fo) == lonAbs;
      fo
  }

  /** The longitude magnitude before the backside reflection. */
  function Unreflect(fo: Folded): real
  {
    Unreflected(fo.backside, fo.lonNorm)
  }

  /** Multiplying by its own sign makes x non-negative, and the sign undoes it. */
  lemma Unsign(x: real, s: real)
    requires s == if x < 0.0 then -1.0 else 1.0
    ensures x * s == Abs(x) && s * (x * s) == x
  {
    if x < 0.0 {
      assert x * s == -x;
      assert s * (-x) == x;
    } else {
      assert x * s == x;
      assert s * x == x;
    }
  }

  /**
   * Undoing the fold as `to_coord` does (reflect back, restore the sign, add
   * lon_0 and normalise) gives the original longitude modulo 360.
   */
  lemma FoldLongitudeRoundTrip(lat: real, lon: real, zone: int)
    ensures var fo := Fold(lat, AngleDiff(CentralMeridian(zone), lon));
      AngleNormalize(fo.lonsign * Unreflect(fo) + CentralMeridian(zone)) == AngleNormalize(lon)
  {
    AngleDiffUndo(CentralMeridian(zone), lon);
  }

  /** Northing from the series' xi: a1 k0 (pi - xi on the backside, else xi) latsign + false northing. */
  function Northing(scale: real, xi: real, backside: bool, latsign: real, falseNorthing: real): (y: real)
    ensures scale != 0.0 ==> (y - falseNorthing) / scale == (if backside then Pi - xi else xi) * latsign
  {
    scale * (if backside then Pi - xi else xi) * latsign + falseNorthing
  }

  /** Easting from the series' eta: a1 k0 eta lonsign + false easting. */
  function Easting(scale: real, eta: real, lonsign: real, falseEasting: real): (x: real)
    ensures scale != 0.0 ==> (x - falseEasting) / scale == eta * lonsign
  {
    scale * eta * lonsign + falseEasting
  }

  /**
   * The in-place sign split and backside fold of `from_coord`, starting from
   * lon_norm = angle_diff(lon_0, lon); it produces exactly `Fold`.
   */
  method FoldInPlace(lat: real, lonDiff: real)
    returns (latNorm: real, lonNorm: real, latsign: real, lonsign: real, backside: bool)
    requires -180.0 <= lonDiff <= 180.0
    ensures Folded(latNorm, lonNorm, latsign, lonsign, backside) == Fold(lat, lonDiff)
  {
    lonNorm := lonDiff;
    latsign := if lat < 0.0 then -1.0 else 1.0;
    lonsign := if lonNorm < 0.0 then -1.0 else 1.0;
    latNorm := lat * latsign;
    lonNorm := lonNorm * lonsign;
    backside := lonNorm > 90.0;
    if backside {
      if latNorm == 0.0 {
        latsign := -1.0;
      }
      lonNorm := 180.0 - lonNorm;
    }
  }

  /**
   * `from_coord`. `series` stands for the transverse Mercator series, mapping
   * the folded (lat_norm, lon_norm) to (xi, eta); `scale` is a1 * k0 of the
   * datum; `falseEasting`/`falseNorthing` are the four-entry false-origin tables.
   */
  method FromCoord(coord: Coord, series: (real, real) -> (real, real), scale: real,
                   falseEasting: seq<real>, falseNorthing: seq<real>)
    returns (r: Result<Utm>)
    requires |falseEasting| == 4 && |falseNorthing| == 4
    ensures r.Ok?
    ensures r.value.band == Band(coord.lat)
    ensures r.value.north <==> coord.lat >= 0.0
    ensures r.value.ups <==> IsUps(coord.lat)
    ensures r.value.zone == Zone(coord.lat, coord.lon)
    ensures r.value.ups ==> r.value.easting == 0.0 && r.value.northing == 0.0
    ensures !r.value.ups ==>
      var fo := Fold(coord.lat, AngleDiff(CentralMeridian(r.value.zone), coord.lon));
      var p := series(fo.latNorm, fo.lonNorm);
      var ind := OriginIndex(r.value.north, false);
      && r.value.northing == Northing(scale, p.0, fo.backside, fo.latsign, falseNorthing[ind])
      && r.value.easting == Easting(scale, p.1, fo.lonsign, falseEasting[ind])
  {
    var lat := coord.lat;
    var lon := coord.lon;

    var easting: real;
    var northing: real;
    var zone: int;

    var band := Band(lat);
    var north := lat >= 0.0;
    var ups := lat < -80.0 || lat >= 84.0;

    if !ups {
      var ilon := ILon(lon);
      zone := StandardZone(ilon);
      var exceptBand := ExceptBand(lat);
      if exceptBand == 7 && zone == 31 && ilon >= 3.0 {
        zone := 32;
      } else if exceptBand == 9 && ilon >= 0.0 && ilon <= 42.0 {
        zone := SvalbardZone(ilon);
      }
    } else {
      zone := 0;
    }
    assert zone == Zone(lat, lon);

    if !ups {
      var lon0 := CentralMeridian(zone);
      var latNorm, lonNorm, latsign, lonsign, backside := FoldInPlace(lat, AngleDiff(lon0, lon));
      var p := series(latNorm, lonNorm);
      var xi, eta := p.0, p.1;
      var ind := OriginIndex(north, ups);
      northing := Northing(scale, xi, backside, latsign, falseNorthing[ind]);
      easting := Easting(scale, eta, lonsign, falseEasting[ind]);
    } else {
      easting := 0.0;
      northing := 0.0;
      zone := 0;
    }

    r := Ok(Utm(easting, northing, north, zone, band, ups));
  }

  /** The xi/eta fold of `to_coord`. */
  datatype XiFold = XiFold(xi: real, eta: real, xisign: real, etasign: real, backside: bool)

  /** Take absolute values, then reflect xi about pi/2 when it lies beyond. */
  function FoldXi(xi: real, eta: real): (x: XiFold)
    ensures 0.0 <= x.eta && x.xi <= Pi / 2.0
    ensures Abs(xi) <= Pi ==> 0.0 <= x.xi
    ensures IsSign(x.xisign) && IsSign(x.etasign)
    ensures x.backside <==> Abs(xi) > Pi / 2.0
    ensures x.xisign == if xi < 0.0 then -1.0 else 1.0
    ensures x.etasign == if eta < 0.0 then -1.0 else 1.0
  {
    var xisign := if xi < 0.0 then -1.0 else 1.0;
    var etasign := if eta < 0.0 then -1.0 else 1.0;
    var a := xi * xisign;
    if a > Pi / 2.0 then XiFold(Pi - a, eta * etasign, xisign, etasign, true)
    else XiFold(a, eta * etasign, xisign, etasign, false)
  }

  /** Reflecting back and restoring the signs gives xi and eta again. */
  lemma FoldXiRoundTrip(xi: real, eta: real)
    ensures var x := FoldXi(xi, eta);
      && x.xisign * (if x.backside then Pi - x.xi else x.xi) == xi
      && x.etasign * x.eta == eta
  {
  }

  /** The in-place sign split and backside fold of `to_coord`; it produces exactly `FoldXi`. */
  method FoldXiInPlace(xi0: real, eta0: real)
    returns (xi: real, eta: real, xisign: real, etasign: real, backside: bool)
    ensures XiFold(xi, eta, xisign, etasign, backside) == FoldXi(xi0, eta0)
  {
    xi := xi0;
    eta := eta0;
    xisign := if xi < 0.0 then -1.0 else 1.0;
    etasign := if eta < 0.0 then -1.0 else 1.0;
    xi := xi * xisign;
    eta := eta * etasign;
    backside := xi > Pi / 2.0;
    if backside {
      xi := Pi - xi;
    }
  }

  /**
   * Latitude and longitude `to_coord` hands to `Coord::new` outside UPS:
   * the series result unfolded with the signs and backside flag of the xi fold.
   */
  function Unfold(utm: Utm, scale: real, falseEasting: seq<real>, falseNorthing: seq<real>,
                  inverse: (real, real) -> (real, real)): (ll: (real, real))
    requires |falseEasting| == 4 && |falseNorthing| == 4 && scale != 0.0
    ensures -180.0 < ll.1 <= 180.0
  {
    var ind := OriginIndex(utm.north, utm.ups);
    var x := FoldXi((utm.northing - falseNorthing[ind]) / scale, (utm.easting - falseEasting[ind]) / scale);
    UnfoldXi(x, inverse(x.xi, x.eta), CentralMeridian(utm.zone))
  }

  /**
   * The inverse series result p of a folded (xi, eta) with the latitude sign,
   * the reflection, the longitude sign and lon_0 restored.
   */
  function UnfoldXi(x: XiFold, p: (real, real), lon0: real): (ll: (real, real))
    ensures -180.0 < ll.1 <= 180.0
  {
    (p.0 * x.xisign, RestoredLon(x.backside, x.etasign, p.1, lon0))
  }

  /** The longitude of `to_coord`: reflection undone, sign restored, lon_0 added, normalised. */
  function RestoredLon(backside: bool, etasign: real, lon: real, lon0: real): (r: real)
    ensures -180.0 < r <= 180.0
  {
    AngleNormalize(Unreflected(backside, lon) * etasign + lon0)
  }

  /** A longitude magnitude reflected about 90 degrees on the backside. */
  function Unreflected(backside: bool, lon: real): real
  {
    if backside then 180.0 - lon else lon
  }

  /**
   * The xi fold of `to_coord` undoes the signs and backside reflection that
   * `from_coord` applied to a series result strictly inside the quadrant.
   */
  lemma FoldXiUndoesFold(xi: real, eta: real, backside: bool, latsign: real, lonsign: real)
    requires 0.0 < xi < Pi / 2.0 && 0.0 < eta
    requires IsSign(latsign) && IsSign(lonsign)
    ensures FoldXi((if backside then Pi - xi else xi) * latsign, eta * lonsign)
         == XiFold(xi, eta, latsign, lonsign, backside)
  {
    var t := if backside then Pi - xi else xi;
    assert 0.0 < t;
    Unsign(t * latsign, latsign);
    Unsign(eta * lonsign, lonsign);
  }

  /**
   * `to_coord` after `from_coord`: for a non-UPS `utm` as `FromCoord` returns
   * it, when `inverse` inverts `series` on the folded angles and the series
   * result lies strictly inside the quadrant, unfolding the stored easting
   * and northing gives back the latitude and the longitude, the latter
   * normalised into (-180, 180].
   */
  lemma FromCoordToCoord(coord: Coord, series: (real, real) -> (real, real),
                         inverse: (real, real) -> (real, real), scale: real,
                         falseEasting: seq<real>, falseNorthing: seq<real>, utm: Utm)
    requires |falseEasting| == 4 && |falseNorthing| == 4 && scale != 0.0
    requires !utm.ups && utm.zone == Zone(coord.lat, coord.lon) && (utm.north <==> coord.lat >= 0.0)
    requires var fo := Fold(coord.lat, AngleDiff(CentralMeridian(utm.zone), coord.lon));
      var p := series(fo.latNorm, fo.lonNorm);
      var ind := OriginIndex(utm.north, false);
      && utm.northing == Northing(scale, p.0, fo.backside, fo.latsign, falseNorthing[ind])
      && utm.easting == Easting(scale, p.1, fo.lonsign, falseEasting[ind])
      && 0.0 < p.0 < Pi / 2.0 && 0.0 < p.1 && inverse(p.0, p.1) == (fo.latNorm, fo.lonNorm)
    ensures Unfold(utm, scale, falseEasting, falseNorthing, inverse) == (coord.lat, AngleNormalize(coord.lon))
  {
    var cm := CentralMeridian(utm.zone);
    var d := AngleDiff(cm, coord.lon);
    var fo := Fold(coord.lat, d);
    var p := series(fo.latNorm, fo.lonNorm);
    UnfoldAfterFold(utm, scale, falseEasting, falseNorthing, inverse, coord.lat, d, p);
    AngleDiffUndo(cm, coord.lon);
  }

  /** The xi fold of a stored northing and easting recovers the series result and the signs. */
  lemma StoredXi(northing: real, easting: real, scale: real, falseNorthing: real, falseEasting: real,
                 p: (real, real), backside: bool, latsign: real, lonsign: real)
    requires scale != 0.0 && IsSign(latsign) && IsSign(lonsign) && 0.0 < p.0 < Pi / 2.0 && 0.0 < p.1
    requires northing == Northing(scale, p.0, backside, latsign, falseNorthing)
    requires easting == Easting(scale, p.1, lonsign, falseEasting)
    ensures FoldXi((northing - falseNorthing) / scale, (easting - falseEasting) / scale)
         == XiFold(p.0, p.1, latsign, lonsign, backside)
  {
    FoldXiUndoesFold(p.0, p.1, backside, latsign, lonsign);
  }

  /** Reading the folded angles back through the signs and the reflection gives lat and lonDiff. */
  lemma FoldUndone(lat: real, lonDiff: real, q: (real, real))
    requires -180.0 <= lonDiff <= 180.0
    requires q == (Fold(lat, lonDiff).latNorm, Fold(lat, lonDiff).lonNorm)
    ensures var fo := Fold(lat, lonDiff);
      q.0 * fo.latsign == lat && Unreflected(fo.backside, q.1) * fo.lonsign == lonDiff
  {
    var fo := Fold(lat, lonDiff);
    assert fo.latsign * fo.latNorm == lat;
    assert fo.lonsign * Unreflect(fo) == lonDiff;
  }

  /**
   * Unfolding a position built by `Northing`/`Easting` from the series result
   * p of the folded (lat, lonDiff) gives lat and lonDiff east of the central
   * meridian, when `inverse` takes p back to the folded angles.
   */
  lemma UnfoldAfterFold(utm: Utm, scale: real, falseEasting: seq<real>, falseNorthing: seq<real>,
                        inverse: (real, real) -> (real, real), lat: real, lonDiff: real, p: (real, real))
    requires |falseEasting| == 4 && |falseNorthing| == 4 && scale != 0.0 && !utm.ups
    requires -180.0 <= lonDiff <= 180.0 && 0.0 < p.0 < Pi / 2.0 && 0.0 < p.1
    requires var fo := Fold(lat, lonDiff);
      && utm.northing == Northing(scale, p.0, fo.backside, fo.latsign, falseNorthing[OriginIndex(utm.north, false)])
      && utm.easting == Easting(scale, p.1, fo.lonsign, falseEasting[OriginIndex(utm.north, false)])
      && inverse(p.0, p.1) == (fo.latNorm, fo.lonNorm)
    ensures Unfold(utm, scale, falseEasting, falseNorthing, inverse)
         == (lat, AngleNormalize(lonDiff + CentralMeridian(utm.zone)))
  {
    var fo := Fold(lat, lonDiff);
    var ind := OriginIndex(utm.north, utm.ups);
    var x := FoldXi((utm.northing - falseNorthing[ind]) / scale, (utm.easting - falseEasting[ind]) / scale);
    StoredXi(utm.northing, utm.easting, scale, falseNorthing[ind], falseEasting[ind],
             p, fo.backside, fo.latsign, fo.lonsign);
    var q := inverse(x.xi, x.eta);
    FoldUndone(lat, lonDiff, q);
    RestoreAfterFold(lat, lonDiff, x, q, CentralMeridian(utm.zone));
  }

  /**
   * When the signs and the reflection of `x` take the folded angles q back
   * to lat and lonDiff, unfolding gives lat and lonDiff + lon0 normalised.
   */
  lemma RestoreAfterFold(lat: real, lonDiff: real, x: XiFold, q: (real, real), lon0: real)
    requires q.0 * x.xisign == lat && Unreflected(x.backside, q.1) * x.etasign == lonDiff
    ensures UnfoldXi(x, q, lon0).0 == lat
    ensures UnfoldXi(x, q, lon0).1 == AngleNormalize(lonDiff + lon0)
  {
    RestoredLonUndoes(x.backside, x.etasign, q.1, lonDiff, lon0);
  }

  /** The restored longitude of a magnitude that unreflects and signs to lonDiff is lonDiff + lon0 normalised. */
  lemma RestoredLonUndoes(backside: bool, etasign: real, lon: real, lonDiff: real, lon0: real)
    requires Unreflected(backside, lon) * etasign == lonDiff
    ensures RestoredLon(backside, etasign, lon, lon0) == AngleNormalize(lonDiff + lon0)
  {
    assert Unreflected(backside, lon) * etasign + lon0 == lonDiff + lon0;
  }

  /**
   * The non-UPS branch of `to_coord`: subtract the false origin, scale, fold
   * xi and eta, apply the inverse series and undo the fold on its result.
   */
  method UnfoldInPlace(utm: Utm, scale: real, falseEasting: seq<real>, falseNorthing: seq<real>,
                       inverse: (real, real) -> (real, real))
    returns (latitude: real, longitude: real)
    requires |falseEasting| == 4 && |falseNorthing| == 4 && scale != 0.0 && !utm.ups
    ensures (latitude, longitude) == Unfold(utm, scale, falseEasting, falseNorthing, inverse)
  {
    var ind := OriginIndex(utm.north, utm.ups);
    var realEast := utm.easting - falseEasting[ind];
    var realNorth := utm.northing - falseNorthing[ind];

    var lon0 := CentralMeridian(utm.zone);
    var xi, eta, xisign, etasign, backside := FoldXiInPlace(realNorth / scale, realEast / scale);

    var p := inverse(xi, eta);
    latitude, longitude := RestoreInPlace(xisign, etasign, backside, p, lon0);
  }

  /** After the inverse series: restore the latitude sign, undo the reflection and the longitude sign, add lon_0. */
  method RestoreInPlace(xisign: real, etasign: real, backside: bool, p: (real, real), lon0: real)
    returns (latitude: real, longitude: real)
    ensures latitude == p.0 * xisign
    ensures longitude == RestoredLon(backside, etasign, p.1, lon0)
  {
    assert RestoredLon(backside, etasign, p.1, lon0) == AngleNormalize(Unreflected(backside, p.1) * etasign + lon0);
    var rlat, rlon := p.0, p.1;
    rlat := rlat * xisign;
    if backside {
      rlon := 180.0 - rlon;
    }
    assert rlon == Unreflected(backside, p.1);
    rlon := rlon * etasign;
    assert rlon == Unreflected(backside, p.1) * etasign;
    rlon := AngleNormalize(rlon + lon0);

    latitude := rlat;
    longitude := rlon;
  }

  /**
   * `to_coord`. `inverse` stands for the inverse series, mapping the folded
   * (xi, eta) to (lat, lon) relative to the central meridian. UPS input gives
   * (0, 0); otherwise the only way to fail is a latitude beyond +-90.
   */
  method ToCoord(utm: Utm, scale: real, falseEasting: seq<real>, falseNorthing: seq<real>,
                 inverse: (real, real) -> (real, real))
    returns (r: Result<Coord>)
    requires |falseEasting| == 4 && |falseNorthing| == 4 && scale != 0.0
    ensures utm.ups ==> r == Ok(Coord(0.0, 0.0))
    ensures !utm.ups ==>
      var ll := Unfold(utm, scale, falseEasting, falseNorthing, inverse);
      r == NewCoord(ll.0, ll.1)
    ensures !utm.ups ==>
      var ll := Unfold(utm, scale, falseEasting, falseNorthing, inverse);
      r.Err? <==> ll.0 < -90.0 || ll.0 > 90.0
  {
    var latitude: real;
    var longitude: real;
    if utm.ups {
      latitude := 0.0;
      longitude := 0.0;
    } else {
      latitude, longitude := UnfoldInPlace(utm, scale, falseEasting, falseNorthing, inverse);
    }
    r := NewCoord(latitude, longitude);
  }
}
