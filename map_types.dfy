/**
 * The shapes the map works on: a measurement point as the backend sends it (`MapDataPoint`,
 * coordinates as text) and a viewport rectangle (`MapBounds`).
 */
module MapTypes {
  import opened Wrappers

  /**
   * A measurement point. Only the fields the map logic reads are kept; the identifiers shown
   * in the popup are represented by `deviceId`.
   */
  datatype MapPoint = MapPoint(
    deviceId: string,
    latitude: string,
    longitude: string,
    signalStrength: Option<real>,
    signalQuality: Option<real>)

  /** A viewport rectangle reported by the map widget. */
  datatype Bounds = Bounds(minLat: real, maxLat: real, minLong: real, maxLong: real)

  /** Latitude in [-90, 90] and longitude in [-180, 180]. */
  predicate InRange(lat: real, lng: real) {
    -90.0 <= lat <= 90.0 && -180.0 <= lng <= 180.0
  }
}
