/** The coordinate validator of the import routine: global range and the Philippines box. */
module Coordinates {
  import opened Wrappers
  import opened Values

  /** Latitude in [-90, 90] and longitude in [-180, 180]. */
  predicate InValidRange(lat: real, lng: real) {
    -90.0 <= lat <= 90.0 && -180.0 <= lng <= 180.0
  }

  /** The approximate bounding box of the Philippines: latitude 4.0..22.0, longitude 116.0..127.5. */
  predicate InPhilippinesBox(lat: real, lng: real) {
    4.0 <= lat <= 22.0 && 116.0 <= lng <= 127.5
  }

  /** is_valid_coordinate: fails closed, so a value float() rejects gives false, never an error. */
  function IsValidCoordinate(lat: Raw, lng: Raw, ps: Parsers): (b: bool)
    ensures b <==> ToFloat(lat, ps).Some? && ToFloat(lng, ps).Some?
                   && InValidRange(ToFloat(lat, ps).value, ToFloat(lng, ps).value)
  {
    match (ToFloat(lat, ps), ToFloat(lng, ps))
    case (Some(a), Some(b)) => InValidRange(a, b)
    case _ => false
  }

  /** is_in_philippines: the same fail-closed parse, then the bounding box. */
  function IsInPhilippines(lat: Raw, lng: Raw, ps: Parsers): (b: bool)
    ensures b <==> ToFloat(lat, ps).Some? && ToFloat(lng, ps).Some?
                   && InPhilippinesBox(ToFloat(lat, ps).value, ToFloat(lng, ps).value)
  {
    match (ToFloat(lat, ps), ToFloat(lng, ps))
    case (Some(a), Some(b)) => InPhilippinesBox(a, b)
    case _ => false
  }

  /** A value that does not parse, None included, makes both predicates false. */
  lemma UnparseableIsRejected(lat: Raw, lng: Raw, ps: Parsers)
    requires ToFloat(lat, ps).None? || ToFloat(lng, ps).None?
    ensures !IsValidCoordinate(lat, lng, ps) && !IsInPhilippines(lat, lng, ps)
  {
  }

  /** The box lies inside the globe: every point in it is a valid coordinate. */
  lemma InPhilippinesIsValid(lat: Raw, lng: Raw, ps: Parsers)
    ensures IsInPhilippines(lat, lng, ps) ==> IsValidCoordinate(lat, lng, ps)
  {
  }
}
