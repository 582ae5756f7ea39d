/**
 * The shape of an entitlement record as the license service hands it out:
 * identifiers, free-form product metadata, the feature table, per-entitlement
 * overrides, a validity window and the optional floatable (seat-counted) mark.
 */
module Entitlements {
  import opened JsValues

  /** A JSON-like metadata value; objects nest. */
  datatype Json = JBool(b: bool) | JNum(n: int) | JStr(s: string) | JObject(fields: map<string, Json>)

  /** A JavaScript `Date`: milliseconds since 1970-01-01T00:00:00Z. */
  datatype Instant = Instant(epochMillis: int)

  datatype Entitlement = Entitlement(
    id: string,
    productId: string,
    productMetadata: map<string, Json>,
    features: map<string, Value>,
    featureOverrides: map<string, Value>,
    validFrom: Instant,
    validTo: Instant,
    isFloatable: Option<bool>)

  /** `metadata.p0.p1...`: follows a property path through nested metadata objects. */
  function MetadataAt(metadata: map<string, Json>, path: seq<string>): Option<Json>
    requires path != []
    decreases |path|
  {
    if path[0] !in metadata then None
    else if |path| == 1 then Some(metadata[path[0]])
    else match metadata[path[0]]
      case JObject(fields) => MetadataAt(fields, path[1..])
      case _ => None
  }

  /**
   * The days from 1970-01-01 to the given proleptic Gregorian date, counted
   * through 400-year eras of 146097 days with years starting in March.
   */
  function DaysFromCivil(year: nat, month: nat, day: nat): int
    requires 1 <= year && 1 <= month <= 12 && 1 <= day <= 31
  {
    var y := if month <= 2 then year - 1 else year;
    var era := y / 400;
    var yearOfEra := y - era * 400;
    var monthFromMarch := if month > 2 then month - 3 else month + 9;
    var dayOfYear := (153 * monthFromMarch + 2) / 5 + day - 1;
    var dayOfEra := yearOfEra * 365 + yearOfEra / 4 - yearOfEra / 100 + dayOfYear;
    era * 146097 + dayOfEra - 719468
  }

  /**
   * `new Date('YYYY-MM-DD')`: a date-only string in ECMA-262's Date Time
   * String Format denotes midnight UTC of that day.
   */
  function DateOnly(year: nat, month: nat, day: nat): (r: Instant)
    requires 1 <= year && 1 <= month <= 12 && 1 <= day <= 31
    ensures r.epochMillis % 86400000 == 0
  {
    Instant(DaysFromCivil(year, month, day) * 86400000)
  }

  /** Known day counts, including leap days in 2000, and the day of 2026-01-01. */
  lemma DaysFromCivilExamples()
    ensures DaysFromCivil(1970, 1, 1) == 0
    ensures DaysFromCivil(1970, 3, 1) == 59
    ensures DaysFromCivil(2000, 3, 1) == 11017
    ensures DaysFromCivil(2026, 1, 1) == 20454
  {
  }
}
