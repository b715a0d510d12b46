/**
 * The structured payload (`raw_json`) of a stored listing and the
 * extraction of the four auxiliary fields from it (`extract_from_json`
 * in dashboard.py). JSON text itself is not parsed here: a payload is
 * given already classified by what `json.loads` would have produced.
 */
module Payload {

  /** A JSON value, reduced to the distinctions the normaliser makes. */
  datatype Value =
    | Null                 // JSON null (Python None)
    | Bool(b: bool)        // JSON true / false
    | Num(x: real)         // a JSON number, exact
    | Str(s: string)       // a JSON string
    | Compound             // a JSON array or nested object

  /** What `json.loads(row['raw_json'])` yields for one row. */
  datatype Payload =
    | Malformed                    // json.loads raises (bad text, NULL column, ...)
    | NotObject(v: Value)          // it parses, but not to an object, so `.get` raises
    | Obj(m: map<string, Value>)   // it parses to an object

  /** The four columns that extraction appends to each row. */
  datatype Extracted = Extracted(
    areaPriceRaw: Value,
    maintFeeRaw: Value,
    approvalDate: Value,
    groundFloorRaw: Value)

  const AREA_PRICE_KEY := "areaPrice"
  const MAINTENANCE_FEE_KEY := "maintenanceFee"
  const COMPLETION_DATE_KEY := "completionConfirmedDateUtc"
  const GROUND_FLOOR_KEY := "groundFloor"

  /** The marker that stands for "no completion date". */
  const NO_DATE := "N/A"

  /** The all-default tuple of the `except` branch. */
  const FALLBACK := Extracted(Num(0.0), Num(0.0), Str(NO_DATE), Num(0.0))

  /** Python's `dict.get(key, default)`. */
  function Get(m: map<string, Value>, key: string, default: Value): (v: Value)
    ensures key in m ==> v == m[key]
    ensures key !in m ==> v == default
  {
    if key in m then m[key] else default
  }

  /**
   * `extract_from_json`: each key is read on its own with its own default;
   * a payload that does not parse, or parses to something other than an
   * object, gives the all-default tuple instead of an error.
   */
  function ExtractFromJson(p: Payload): (e: Extracted)
    ensures !p.Obj? ==> e == FALLBACK
    ensures p.Obj? && AREA_PRICE_KEY in p.m ==> e.areaPriceRaw == p.m[AREA_PRICE_KEY]
    ensures p.Obj? && AREA_PRICE_KEY !in p.m ==> e.areaPriceRaw == Num(0.0)
    ensures p.Obj? && MAINTENANCE_FEE_KEY in p.m ==> e.maintFeeRaw == p.m[MAINTENANCE_FEE_KEY]
    ensures p.Obj? && MAINTENANCE_FEE_KEY !in p.m ==> e.maintFeeRaw == Num(0.0)
    ensures p.Obj? && COMPLETION_DATE_KEY in p.m ==> e.approvalDate == p.m[COMPLETION_DATE_KEY]
    ensures p.Obj? && COMPLETION_DATE_KEY !in p.m ==> e.approvalDate == Str(NO_DATE)
    ensures p.Obj? && GROUND_FLOOR_KEY in p.m ==> e.groundFloorRaw == p.m[GROUND_FLOOR_KEY]
    ensures p.Obj? && GROUND_FLOOR_KEY !in p.m ==> e.groundFloorRaw == Num(0.0)
  {
    match p
    case Obj(m) =>
      Extracted(
        Get(m, AREA_PRICE_KEY, Num(0.0)),
        Get(m, MAINTENANCE_FEE_KEY, Num(0.0)),
        Get(m, COMPLETION_DATE_KEY, Str(NO_DATE)),
        Get(m, GROUND_FLOOR_KEY, Num(0.0)))
    case _ => FALLBACK
  }

  /**
   * An object that carries none of the four keys extracts to the same tuple
   * as a payload that does not parse: the two cases are indistinguishable
   * in the output.
   */
  lemma MissingKeysLikeMalformed(m: map<string, Value>)
    requires AREA_PRICE_KEY !in m && MAINTENANCE_FEE_KEY !in m
    requires COMPLETION_DATE_KEY !in m && GROUND_FLOOR_KEY !in m
    ensures ExtractFromJson(Obj(m)) == ExtractFromJson(Malformed)
  {
  }

  /** Extraction looks at the four keys only: other keys never matter. */
  lemma ExtractReadsOnlyItsKeys(m: map<string, Value>, k: string, v: Value)
    requires k != AREA_PRICE_KEY && k != MAINTENANCE_FEE_KEY
    requires k != COMPLETION_DATE_KEY && k != GROUND_FLOOR_KEY
    ensures ExtractFromJson(Obj(m[k := v])) == ExtractFromJson(Obj(m))
  {
  }
}
