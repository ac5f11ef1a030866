/** `src/coord.rs`: a latitude/longitude pair and its range-checked constructor. */
module Coordinates {
  import opened Errors

  /** Degrees; the fields are public, so a value may also be built without the check. */
  datatype Coord = Coord(lat: real, lon: real)

  predicate InRange(lat: real, lon: real)
  {
    -90.0 <= lat <= 90.0 && -180.0 <= lon <= 180.0
  }

  /**
   * `Coord::new`: refuses a latitude outside [-90, 90] or a longitude outside
   * [-180, 180] (both bounds inclusive) and otherwise stores both inputs unchanged.
   */
  function NewCoord(lat: real, lon: real): (r: Result<Coord>)
    ensures r.Err? <==> lat < -90.0 || lat > 90.0 || lon < -180.0 || lon > 180.0
    ensures r.Ok? ==> r.value.lat == lat && r.value.lon == lon
  {
    if lat < -90.0 || lat > 90.0 || lon < -180.0 || lon > 180.0 then Err(ParseError)
    else Ok(Coord(lat, lon))
  }

  /** Every accepted coordinate lies inside the ranges, and every such pair is accepted. */
  lemma NewCoordAcceptsExactlyRange(lat: real, lon: real)
    ensures NewCoord(lat, lon).Ok? <==> InRange(lat, lon)
  {
  }

  /** The range ends themselves are accepted. */
  lemma NewCoordInclusiveBounds()
    ensures NewCoord(90.0, 180.0) == Ok(Coord(90.0, 180.0))
    ensures NewCoord(-90.0, -180.0) == Ok(Coord(-90.0, -180.0))
  {
  }

  /** The values the tests use: one accepted pair and four refused ones. */
  lemma NewCoordExamples()
    ensures NewCoord(-23.0095839, -43.4361816) == Ok(Coord(-23.0095839, -43.4361816))
    ensures NewCoord(-91.0, 0.0).Err? && NewCoord(91.0, 0.0).Err?
    ensures NewCoord(0.0, -181.0).Err? && NewCoord(0.0, 181.0).Err?
  {
  }
}
