/**
 * The stored groundwater record and the constraints its schema declares:
 * required fields, the `trend` and `source` enumerations, the two-element
 * coordinate array, and the keys records are identified by.
 */
module Records {

  import opened Wrappers
  import opened Text

  /** A JavaScript `Date`, as its time value in milliseconds. */
  type Date = int

  /** A GeoJSON point: `type` and `[longitude, latitude]`; the numbers are opaque. */
  datatype GeoPoint = GeoPoint(kind: string, coordinates: seq<real>)

  datatype Location = Location(
    state: Option<string>,
    district: Option<string>,
    block: Option<string>,
    village: Option<string>,
    pinCode: Option<string>,
    stationId: Option<string>,
    coordinates: Option<GeoPoint>)

  /** A groundwater document; the store-managed timestamps are not part of it. */
  datatype Record = Record(
    location: Location,
    date: Option<Date>,
    waterLevelMbgl: Option<real>,
    availabilityBcm: Option<real>,
    trend: Option<string>,
    source: Option<string>,
    quality: Option<map<string, real>>)

  const Trends: set<string> := {"Rising", "Falling", "Stable"}
  const Sources: set<string> := {"WRIS", "CGWB", "StatePortal", "Manual", "Other"}

  /** A required string passes validation when, after the schema's trim, it is non-empty. */
  predicate RequiredString(s: Option<string>) {
    s.Some? && Trim(s.value) != ""
  }

  predicate ValidPoint(p: GeoPoint) {
    p.kind == "Point" && |p.coordinates| == 2
  }

  /** Every constraint of the schema definition holds of the record. */
  predicate ValidRecord(r: Record) {
    && RequiredString(r.location.state)
    && r.date.Some?
    && r.waterLevelMbgl.Some?
    && (r.location.coordinates.Some? ==> ValidPoint(r.location.coordinates.value))
    && (r.trend.Some? ==> r.trend.value in Trends)
    && r.source.Some? && r.source.value in Sources
  }

  /** The filter the ingestion upsert matches on: (stationId, date). */
  datatype StationKey = StationKey(stationId: Option<string>, date: Option<Date>)

  function StationKeyOf(r: Record): StationKey {
    StationKey(r.location.stationId, r.date)
  }

  /** The fields of the compound unique index: state, district, village, pinCode, date. */
  datatype PlaceKey = PlaceKey(
    state: Option<string>,
    district: Option<string>,
    village: Option<string>,
    pinCode: Option<string>,
    date: Option<Date>)

  function PlaceKeyOf(r: Record): PlaceKey {
    PlaceKey(r.location.state, r.location.district, r.location.village, r.location.pinCode, r.date)
  }

  /** A collection of documents, each filed under its (stationId, date) key. */
  type Docs = map<StationKey, Record>

  /** Each document sits under its own (stationId, date): at most one record per station and date. */
  ghost predicate KeyedByStation(docs: Docs) {
    forall k :: k in docs ==> StationKeyOf(docs[k]) == k
  }

  /** What the unique index promises: no two documents share a place key. */
  ghost predicate UniquePlaceKeys(docs: Docs) {
    forall k1, k2 :: k1 in docs && k2 in docs && k1 != k2 ==> PlaceKeyOf(docs[k1]) != PlaceKeyOf(docs[k2])
  }
}
