# geomorph: zones, bands and MGRS text, in Dafny

This project models the discrete core of the Rust crate geomorph. The crate converts
latitude/longitude coordinates to UTM (Universal Transverse Mercator) positions
and writes them as MGRS (Military Grid Reference System) strings. It also
precomputes the ellipsoid constants the projection uses.

Latitudes, longitudes and metres are exact reals. The transverse Mercator
series itself is a function parameter. The model captures everything around
that series:

- **Coordinates** (`coord.dfy`, `src/coord.rs`): `Coord::new` and its range check.
- **GeoMath** (`geomath.dfy`, `src/math.rs`):
  - `fmod`, which truncates its own result;
  - `remainder`, with rounding half away from zero;
  - `angle_normalize` and `angle_diff`;
  - Horner's `polyval` as a loop, proved against an independent power-sum definition.
- **Datums** (`datum.dfy`, `src/datum.rs`):
  - `Datum::new`: `e2`, `e2m`, `n`, the signed eccentricity, `b1`, `a1`;
  - the loop that builds the 7-entry `alp`/`bet` tables, with its offset bookkeeping;
  - `Datum::wgs84` with its literal coefficient tables.
- **Utms** (`utm.dfy`, `src/utm.rs`):
  - the latitude band chain, the `north` and `ups` flags;
  - the zone, with the Norway and Svalbard exceptions;
  - the sign and backside fold before the series, and the index into the false-origin tables;
  - `from_coord`, `to_coord`, including the xi fold, and `Utm::new`.
- **MgrsFormat** (`mgrs.dfy`, `src/mgrs.rs`):
  - `Mgrs::new`;
  - `Display for Mgrs`: two zone digits, the band letter, the 100 km column and row letters, then `prec` easting and `prec` northing digits written right to left into a space-padded buffer (a Dafny `array<char>`).

Where the prose description of the crate and the code disagree, the model follows the code:

- The zone comes from `ilon`, the *truncated* longitude, since `fmod` truncates (`src/math.rs:98`, `src/utm.rs:145-151`). So -0.5 gets zone 31, not 30 (`Utms.StandardZoneTruncationExample`).
- The Norway exception applies where `except_band == 7`, which is floor(lat) in [56, 63], band V, not band U (`Utms.ExceptBandSeven`).
- The Svalbard exception includes ilon = 42 (`ilon <= 42.0`), and it uses `ilon as i32`.
- The MGRS band letter uses trunc of ((floor(lat) + 80) / 8 - 10.10), clamped to [-10, 9]. This differs from the UTM band chain:
  - north of the equator, on [8k, 8k + 1) for k = 1..9, it is one band further south;
  - south of the equator, it is one band further north unless floor(lat) is a multiple of 8.

  `MgrsFormat.MgrsBandNorth`, `MgrsFormat.MgrsBandSouth` and `MgrsFormat.MgrsBandDisagreements` state this exactly. For example, 8.5 N is band P, but the encoder writes N.
- The files shown contain no MGRS decoder: `Utm::from_mgrs` calls `mgrs.to_utm()`, which src/mgrs.rs does not define.

## Model

| member | source | states |
|---|---|---|
| Coordinates.NewCoord | src/coord.rs:32-45 | error exactly when lat < -90, lat > 90, lon < -180 or lon > 180; on success both inputs stored unchanged |
| Coordinates.NewCoordAcceptsExactlyRange | src/coord.rs:34-44 | accepted exactly when lat is in [-90, 90] and lon in [-180, 180] |
| Coordinates.NewCoordInclusiveBounds | src/coord.rs:34-37 | the bounds are inclusive: (90, 180) and (-90, -180) are accepted unchanged |
| Coordinates.NewCoordExamples | src/coord.rs:52-88 | the test pair is stored exactly; -91/91 latitudes and -181/181 longitudes are refused |
| GeoMath.Trunc | src/math.rs:98 | `trunc` rounds toward zero: within 1 of x, never past it |
| GeoMath.Round | src/math.rs:118 | `round` is within 1/2 of x; a halfway case goes away from zero |
| GeoMath.FMod | src/math.rs:97-99 | fmod(a, b) is a whole number with the sign of a and magnitude below abs(b) |
| GeoMath.FModBounds | src/math.rs:98 | a - b trunc(a/b) has the sign of a and magnitude below abs(b) |
| GeoMath.FModNatural | src/math.rs:97-99 | on whole non-negative operands fmod is the integer remainder |
| GeoMath.FModWithinTurn | src/math.rs:97-99 | inside (-360, 360), fmod(x, 360) is trunc(x) |
| GeoMath.FModExample | src/math.rs:207-213 | fmod(5.3, 2.1) = 1 |
| GeoMath.Remainder | src/math.rs:117-119 | remainder(n, d) lies within abs(d)/2 of 0 and differs from n by a whole multiple of d |
| GeoMath.RemainderBounds | src/math.rs:117-119 | a quotient within 1/2 of k leaves a residue within abs(d)/2 |
| GeoMath.RemainderExample | src/math.rs:215-221 | remainder(5.3, 2.1) = -1 over the reals |
| GeoMath.AngleNormalize | src/math.rs:135-139 | result in (-180, 180] and congruent to d modulo 360 |
| GeoMath.AngleNormalizeUnique | src/math.rs:135-139 | the value in (-180, 180] congruent to d is unique, so it is the result |
| GeoMath.AngleNormalizeCongruent | src/math.rs:135-139 | angles congruent modulo 360 normalise alike |
| GeoMath.AngleDiff | src/math.rs:157-159 | angle_diff(x, y) is in (-180, 180] and equals angle_normalize(y - x) |
| GeoMath.AngleDiffUndo | src/math.rs:157-159 | adding x back to angle_diff(x, y) gives y modulo 360 |
| GeoMath.AngleExamples | src/math.rs:223-236 | 453 normalises to 93, -180 and 180 to 180; angle_diff(453, 1832) = -61 |
| GeoMath.PowerSumSnoc | src/math.rs:179-185 | appending a coefficient multiplies the polynomial sum by x and adds it |
| GeoMath.HornerIsPowerSum | src/math.rs:179-185 | Horner's recurrence equals the sum of c[i] x^(n-1-i) |
| GeoMath.PolyVal | src/math.rs:179-185 | the loop reads only c[0..order], needs order + 1 coefficients and returns their polynomial sum |
| GeoMath.PolyValExample | src/math.rs:238-245 | the documented example evaluates to -19.58528 exactly; trunc(y 10^5) = -1958528 |
| Datums.OffsetTable | src/datum.rs:67-76 | o runs through 0, 7, 13, 18, 22, 25, 27 |
| Datums.Offset | src/datum.rs:67-74 | o starts at 0 and grows by m + 2 = 7 - i per iteration; `OffsetTable` and `OffsetClosedForm` give its values |
| Datums.OffsetClosedForm | src/datum.rs:67-76 | 2 o_i = 14 i - i (i - 1) |
| Datums.Divisor | src/datum.rs:70-73 | the normaliser read at iteration i lies past o_i and at most at index 26, reached in the last iteration |
| Datums.SeriesTerm | src/datum.rs:72-73 | entry i+1 of `alp`/`bet`: n^(i+1) times the power sum of coeff[o_i..o_i+m] at n, over coeff[o_i+m+1] |
| Datums.SeriesTable | src/datum.rs:57-76 | the table has 7 entries; entry 0 is 0 and entry i+1 is the term of iteration i |
| Datums.SeriesTableReadsPrefix | src/datum.rs:67-76 | only the first 27 input coefficients affect the table |
| Datums.SeriesStep | src/datum.rs:68-75 | with o = o_i and d = n^(i+1), d polyval(m, coeff[o..], n) / coeff[o+m+1] is term i |
| Datums.SeriesLoop | src/datum.rs:57-76 | the loop builds `alp` and `bet` equal to the series tables |
| Datums.OnePlusThirdFlattening | src/datum.rs:54-64 | (1 + n)(2 - f) = 2, so the b1 divisor 1 + n is never 0 |
| Datums.B1 | src/datum.rs:62-64 | b1 = power sum of b1coeff[0..4] at n^2, over b1coeff[4] (1 + n) |
| Datums.B1Step | src/datum.rs:62-64 | polyval(3, b1coeff, n^2) / (b1coeff[4] (1 + n)) reads b1coeff[0..4] and is b1 |
| Datums.EccentricityIdentities | src/datum.rs:48-54 | e2m = (1 - f)^2 and e2 (1 + n)^2 = 4 n |
| Datums.NewDatum | src/datum.rs:47-93 | never an error; stores e2 = f(2-f), e2m, n = f/(2-f), es with square abs(e2) and sign of f, b1, a1 = b1 a, and the alp/bet tables |
| Datums.Wgs84TablesFit | src/datum.rs:105-131 | the WGS84 tables hold exactly the 27 entries the loop reads, with non-zero normalisers; b1coeff has 5 |
| Datums.Wgs84ThirdFlattening | src/datum.rs:135-142 | trunc(n 10^8) = 167922 for the WGS84 flattening |
| Datums.Wgs84B1Series | src/datum.rs:62-65 | with the WGS84 b1 table, b1 = (1 + n^2/4 + n^4/64 + n^6/256) / (1 + n) |
| Datums.Wgs84 | src/datum.rs:105-131 | the WGS84 datum: its a, f and k0; n = f/(2-f), with trunc(n 10^8) = 167922 as the source's unit test asserts (src/datum.rs:141); e2 = f(2-f), e2m = (1-f)^2, es non-negative with square e2; b1 = B1 of the literal b1 table, in closed form (1 + n^2/4 + n^4/64 + n^6/256)/(1 + n); a1 = b1 a; the 7-entry tables from the literal coefficients |
| Utms.NewUtm | src/utm.rs:75-98 | always Ok, with all six fields copied |
| Utms.Band | src/utm.rs:120-139 | the band chain; its letter is always one of CDEFGHJKLMNPQRSTUVWX |
| Utms.BandIndex | src/utm.rs:120-139 | the band position is in 0..19 |
| Utms.BandIsIndexed | src/utm.rs:120-139 | the chain gives letter floor(lat/8) + 10 of CDEFGHJKLMNPQRSTUVWX, C below -72 and X from 72 |
| Utms.BandAdvances | src/utm.rs:120-139 | from -72 to 64, 8 more degrees give the next letter |
| Utms.BandNeverIO | src/utm.rs:120-139 | the band is never I or O |
| Utms.BandMonotone | src/utm.rs:120-139 | a larger latitude never gives an earlier band letter |
| Utms.NorthIffBand | src/utm.rs:130-141 | north (lat >= 0) holds exactly when the band is N or later |
| Utms.IsUps | src/utm.rs:142 | UPS is lat < -80 or lat >= 84, which lies inside bands C and X |
| Utms.ILon | src/utm.rs:145-149 | ilon is whole and in [-180, 180) |
| Utms.ILonOfRange | src/utm.rs:145-149 | for lon in [-180, 180], ilon = trunc(lon), with 180 wrapped to -180 |
| Utms.StandardZone | src/utm.rs:151 | trunc((ilon + 186)/6) is the zone whose 6-degree strip [6 zone - 186, 6 zone - 180) holds ilon |
| Utms.StandardZoneRange | src/utm.rs:145-151 | the zone before exceptions is in [1, 60], and its 6-degree strip holds ilon |
| Utms.StandardZoneContainsEast | src/utm.rs:145-151 | for east longitudes that strip holds lon itself |
| Utms.StandardZoneTruncationExample | src/utm.rs:145-151 | lon = -0.5 lies in zone 30's strip but gets zone 31 |
| Utms.ExceptBand | src/utm.rs:153-156 | except_band is trunc((floor(lat) + 80)/8 - 10) clamped into [-10, 9] |
| Utms.ExceptBandSeven | src/utm.rs:153-159 | except_band = 7 exactly when floor(lat) is in [56, 63] |
| Utms.ExceptBandNine | src/utm.rs:153-162 | except_band = 9 exactly when floor(lat) >= 72 |
| Utms.SvalbardZone | src/utm.rs:164 | 2 ((ilon as i32 + 183) div 12) + 1 is odd and in 31..37 for ilon in [0, 42] |
| Utms.SvalbardZoneValues | src/utm.rs:162-165 | the Svalbard zone is 31, 33, 35 or 37 by ilon range, 42 included |
| Utms.Zone | src/utm.rs:143-169 | the zone `from_coord` assigns: 0 exactly for UPS (lat < -80 or lat >= 84), otherwise in [1, 60] |
| Utms.ZoneNorway | src/utm.rs:158-161 | in floor(lat) 56..63, zone 31 with ilon >= 3 becomes 32 |
| Utms.ZoneSvalbard | src/utm.rs:162-165 | for floor(lat) >= 72 and ilon in [0, 42], the zone is 2((ilon+183) div 12)+1, one of 31, 33, 35, 37 |
| Utms.ZoneStandard | src/utm.rs:143-166 | outside both exceptions the zone is the standard one |
| Utms.ZoneExamples | src/utm.rs:463-552 | zones and bands of the eight test coordinates |
| Utms.OriginIndex | src/utm.rs:241-243 | ind < 4, ind >= 2 exactly outside UPS, ind odd exactly when north |
| Utms.CentralMeridian | src/utm.rs:172 | lon_0 = 6 zone - 183 lies strictly inside the zone's strip, and within [-177, 177] for zones 1..60 |
| Utms.Fold | src/utm.rs:171-190 | lat_norm >= 0 and lon_norm in [0, 90]; the signs restore lat and the longitude difference; backside exactly when that difference exceeds 90; latsign is -1 exactly for lat < 0 or an equatorial point on the backside, lonsign -1 exactly for a negative difference |
| Utms.FoldInPlace | src/utm.rs:171-190 | the in-place steps produce exactly the fold |
| Utms.FoldLongitudeRoundTrip | src/utm.rs:171-190 | undoing the fold as `to_coord` does gives lon back modulo 360 |
| Utms.Northing | src/utm.rs:245-247 | northing = scale (pi - xi on the backside, else xi) latsign + false northing; subtracting the false northing and dividing by the scale gives back the signed, reflected xi |
| Utms.Easting | src/utm.rs:248-249 | easting = scale eta lonsign + false easting; subtracting the false easting and dividing by the scale gives back eta lonsign |
| Utms.FromCoord | src/utm.rs:105-264 | band by the chain, north iff lat >= 0, ups iff outside [-80, 84), zone as above; UPS gives easting = northing = 0; otherwise both come from the folded series result, signs, backside and false origin |
| Utms.FoldXi | src/utm.rs:299-311 | eta >= 0, xi <= pi/2 (and >= 0 within one half turn); xisign and etasign are -1 exactly for negative xi and eta; backside exactly when abs(xi) > pi/2 |
| Utms.FoldXiInPlace | src/utm.rs:300-311 | the in-place sign split and reflection of `to_coord` produce exactly `FoldXi` |
| Utms.FoldXiRoundTrip | src/utm.rs:299-311 | reflecting back and restoring the signs gives xi and eta again |
| Utms.FoldXiUndoesFold | src/utm.rs:245-249 | for a series result inside the quadrant, the xi fold of `to_coord` recovers xi, eta, latsign, lonsign and backside from the signed, reflected values `from_coord` stored |
| Utms.FoldUndone | src/utm.rs:175-190 | the folded angles times the signs, with the reflection undone, give lat and the longitude difference back |
| Utms.UnfoldAfterFold | src/utm.rs:299-375 | unfolding a position built from the series result of the folded angles gives lat and the longitude difference east of lon_0, when the inverse series inverts the series |
| Utms.Unfold | src/utm.rs:366-375 | the unfolded longitude is in (-180, 180] |
| Utms.UnfoldXi | src/utm.rs:366-372 | the longitude restored from a folded series result is in (-180, 180] |
| Utms.RestoredLon | src/utm.rs:367-372 | the longitude after undoing the reflection and the sign and adding lon_0 is in (-180, 180] |
| Utms.RestoredLonUndoes | src/utm.rs:367-372 | when the reflection and the sign take the folded longitude back to the difference from lon_0, the restored longitude is that difference plus lon_0, normalised |
| Utms.RestoreAfterFold | src/utm.rs:366-372 | when the signs and the reflection take the folded angles back to lat and the longitude difference, the unfolded pair is lat and that difference plus lon_0, normalised |
| Utms.StoredXi | src/utm.rs:299-311 | the xi fold of a northing and easting stored from a series result inside the quadrant gives back that result, its signs and its backside flag |
| Utms.UnfoldInPlace | src/utm.rs:289-375 | the in-place non-UPS branch of `to_coord` computes exactly `Unfold` |
| Utms.RestoreInPlace | src/utm.rs:366-372 | the in-place restore steps give the latitude times xisign and exactly `RestoredLon` |
| Utms.ToCoord | src/utm.rs:279-390 | UPS gives (0, 0); otherwise Coord::new of the unfolded series result, an error exactly when that latitude is beyond 90 |
| Utms.FromCoordToCoord | src/utm.rs:105-375 | `to_coord`'s unfolding of what `from_coord` stores gives back lat and angle_normalize(lon), when the inverse series inverts the series and its result is inside the quadrant |
| MgrsFormat.NewMgrs | src/mgrs.rs:17-19 | keeps the Utm unchanged and sets prec to 5 |
| MgrsFormat.SatUsize | src/mgrs.rs:115-123 | `as usize` truncates non-negative values and saturates below 1 to 0 |
| MgrsFormat.TileIndex | src/mgrs.rs:61-65 | the 100 km tile is trunc(floor(x 10^6) / 10^11), non-negative for x >= 0 |
| MgrsFormat.TileOffset | src/mgrs.rs:129-130 | the offset is floor(x 10^6) less 10^11 tiles; `TileOffsetRange` gives its range |
| MgrsFormat.TileOffsetRange | src/mgrs.rs:61-65 | a non-negative micrometre count splits into tile index and an offset in [0, 10^11) |
| MgrsFormat.DigitGroup | src/mgrs.rs:128-133 | the tile offset divided by 10^(11 - prec), a negative offset giving 0; `DigitGroupBound` bounds it |
| MgrsFormat.DigitGroupBound | src/mgrs.rs:128-133 | each digit group is below 10^prec |
| MgrsFormat.DigitsOf | src/mgrs.rs:142-149 | the last p decimal digits, most significant first: exactly p characters, each a digit |
| MgrsFormat.DigitsRoundTrip | src/mgrs.rs:142-149 | the p written digits of v < 10^p read back as v |
| MgrsFormat.DigitGroupRoundTrip | src/mgrs.rs:128-149 | the written easting or northing digits read back as the digit group |
| MgrsFormat.MgrsBandIndex | src/mgrs.rs:72-81 | the band index lies in [-10, 9], so latband[10 + iband] is in bounds |
| MgrsFormat.MgrsBandNorth | src/mgrs.rs:72-81 | north of the equator the encoder's band agrees with the chain except on [8k, 8k+1), k = 1..9, one band south there |
| MgrsFormat.MgrsBandSouth | src/mgrs.rs:72-81 | south of the equator it agrees only where floor(lat) is a multiple of 8, else one band north |
| MgrsFormat.MgrsBandDisagreements | src/mgrs.rs:72-81 | 8.5 N: chain P, encoder N; 23 S: chain K, encoder L |
| MgrsFormat.RowIndex | src/mgrs.rs:116-123 | the row position is inside the 20-letter row alphabet |
| MgrsFormat.RowIndexCycles | src/mgrs.rs:116-123 | for yh >= 0 the row is (yh + 5 for even zones) mod 20 |
| MgrsFormat.ColumnLetter | src/mgrs.rs:82-115 | the column letter is taken from set (zone - 1) mod 3, so it is never I or O |
| MgrsFormat.ColumnLetterInTile | src/mgrs.rs:82-115 | for xh in 1..8 the column letter is utmcols[(zone-1) mod 3][xh-1], never I or O |
| MgrsFormat.RowWithinBand | src/mgrs.rs:83-102 | the row range test of `fmt`: minrow, maxrow, baserow and irow from the band index, and irow within [minrow, maxrow] |
| MgrsFormat.RowRangeCheck | src/mgrs.rs:102-112 | the dead branch of `fmt`: it has no result and modifies nothing, since its only statement is commented out |
| MgrsFormat.Encodable | src/mgrs.rs:57-115 | what `fmt` needs to stay in bounds: prec <= 11, and outside UPS a zone in 1..99 and an easting tile <= 8 |
| MgrsFormat.Prefix | src/mgrs.rs:55-126 | 5 characters outside UPS, none for UPS |
| MgrsFormat.MgrsText | src/mgrs.rs:55-151 | the declarative MGRS text: prefix, easting digits, northing digits; `MgrsLayout` and `Format` state its properties |
| MgrsFormat.MgrsLayout | src/mgrs.rs:128-150 | length z + 2 prec; easting digits at z.., northing digits after; band letter at index 2 |
| MgrsFormat.ZoneDigitsRoundTrip | src/mgrs.rs:55-59 | outside UPS the text starts with the zone in two digits, reading back as the zone |
| MgrsFormat.MgrsPrecisionZero | src/mgrs.rs:128 | prec 0 writes only the zone digits and the three letters |
| MgrsFormat.PushPrefix | src/mgrs.rs:53-126 | the pushed prefix, with z its length |
| MgrsFormat.GridLetters | src/mgrs.rs:61-124 | band, column and row letters as defined above |
| MgrsFormat.FillStep | src/mgrs.rs:142-149 | one iteration moves the written/unwritten boundary one digit left, prefix intact |
| MgrsFormat.FillDigits | src/mgrs.rs:140-150 | the reversed loop leaves buf[..z] intact and writes both digit groups, zero-padded, over all padding |
| MgrsFormat.PadAndFill | src/mgrs.rs:128-151 | the text is the prefix, then the easting digits, then the northing digits |
| MgrsFormat.Format | src/mgrs.rs:23-154 | `fmt` produces exactly the MGRS text |
| MgrsFormat.MgrsExamplePrec5 | src/mgrs.rs:216-224 | the zone 23 K tile at precision 5 gives 23KPQ6026454563 |
| MgrsFormat.MgrsExamplePrec6 | src/mgrs.rs:206-214 | the zone 48 P tile at precision 6 gives 48PUV772989830350 |

## Left out

- The transverse Mercator numerics are not modelled: the trigonometric set-up, the Clenshaw loops, `eatanhe`, `taupf` and `tauf`. `Utms.FromCoord` takes them as the parameter `series`, and `Utms.ToCoord` as `inverse`. So the easting/northing literals of the UTM tests are not stated.
- `gamma` and `k` in `to_coord` are computed and discarded by the source, so the model does not compute them.
- `Datums.NewDatum` does not compute the field `c`: it needs `exp` and `sqrt`. For the same reason, `es` is kept as its sign and its square (`SignedRoot`).
- `Utms.FromCoord` and `Utms.ToCoord` take the false easting/northing tables and the scale `a1 * k0` as parameters. The `Datum` in `src/datum.rs` has no false-origin tables.
- Only the index into those tables is modelled (`Utms.OriginIndex`).
- `Datums.NewDatum` requires f != 2 and non-zero normalising coefficients. The source divides by these and would yield infinities instead.
- `Utms.Unfold` and `Utms.ToCoord` require a non-zero scale, for the same reason.
- `MgrsFormat.Format` requires `Encodable`: prec <= 11, and outside UPS a zone in 1..99 and an easting tile <= 8. Outside these the source indexes out of bounds or underflows and panics.
- `MgrsFormat.Format` takes the latitude as a parameter. The source obtains it by converting back to a coordinate (`src/mgrs.rs:71`).
- Floating-point behaviour is not modelled:
  - arithmetic is exact over the reals;
  - the f64 digit extraction (`%` and `/` on f64, then `as usize`) is integer div/mod on the truncated value, with negative offsets printing as zeros;
  - 10.10, 2^-46 and the other constants are their exact decimal values;
  - NaN and infinity (NaN passes the `Coord::new` checks) are not modelled.
- `Utms.FromCoordToCoord` is stated for series results strictly inside the quadrant (0 < xi < pi/2, eta > 0). On the equator or the central meridian a zero xi or eta loses its sign, so `to_coord` need not recover the signs `from_coord` used.
- `GeoMath.RemainderExample`: the source's test expects -1.0000000000000009 from float rounding, while the model gives exactly -1.
- Display and `to_string` for Utm, `Clone`, the `From` impls, `from_mgrs`/`to_mgrs` and `src/lib.rs` are plumbing. MGRS decoding is not part of these files.
