/**
 * The listing normaliser of `get_processed_data` (dashboard.py): every
 * stored row is extended with the payload's auxiliary fields and with the
 * derived money, area, ratio and age columns.
 *
 * Money columns of the store are in units of 10,000 won (manwon); the
 * derived `...Won` columns are in won. Areas are in square metres, and
 * `sizePy` in pyeong. Real numbers are exact here, not IEEE doubles.
 */
module Listing {
  import opened Options
  import opened Payload
  import opened YearParse

  /** One row of the `stores` table. */
  datatype RawListing = RawListing(
    id: string,
    listingNumber: string,
    title: string,
    businessLargeCodeName: string,
    businessMiddleCodeName: string,
    nearSubwayStation: string,
    deposit: int,       // manwon
    monthlyRent: int,   // manwon
    premium: int,       // manwon
    size: real,         // square metres
    floor: int,
    rawJson: Payload)

  /** A stored row with the columns the normaliser appends to it. */
  datatype NormalizedListing = NormalizedListing(
    raw: RawListing,
    aux: Extracted,
    depositWon: int,
    monthlyRentWon: int,
    premiumWon: int,
    maintenanceFeeWon: real,
    areaPriceWonPerM2: real,
    sizePy: real,
    totalInitialCost: int,
    monthlyTotalCost: real,
    rentPerM2: real,
    rentPerPy: real,
    premiumRatio: real,
    buildingAge: int,
    district: string)

  /** Won per manwon, the unit of the stored money columns. */
  const WON_PER_MANWON := 10000

  /** Square metres per pyeong; fixed, not configurable. */
  const M2_PER_PYEONG: real := 3.3058

  /** The district every row is stamped with (a placeholder, not derived from the address). */
  const DISTRICT := "강남구"

  /**
   * A payload value used as a number in arithmetic. Python lets a boolean
   * take part as 0 or 1; any other non-number has no numeric reading.
   */
  function AsNumber(v: Value): (r: Option<real>)
    ensures v.Num? ==> r == Some(v.x)
    ensures v.Bool? ==> r == Some(if v.b then 1.0 else 0.0)
    ensures r.Some? <==> v.Num? || v.Bool?
  {
    match v
    case Num(x) => Some(x)
    case Bool(b) => Some(if b then 1.0 else 0.0)
    case _ => None
  }

  /**
   * `num / den if den > 0 else 0`: the one shape of the three efficiency
   * columns. It never divides by zero, and when it divides, the quotient
   * times the denominator gives back the numerator.
   */
  function GuardedRatio(num: real, den: real): (q: real)
    ensures den > 0.0 ==> q * den == num
    ensures den <= 0.0 ==> q == 0.0
  {
    if den > 0.0 then num / den else 0.0
  }

  /**
   * The derived columns of one row, given its extracted fields and their
   * numeric readings: conversions first, then the sums and ratios that
   * consume them, then the age and the district.
   */
  function Derive(row: RawListing, aux: Extracted, fee: real, areaPrice: real,
                  currentYear: int): (n: NormalizedListing)
    ensures n.raw == row && n.aux == aux && n.district == DISTRICT
    ensures n.depositWon == row.deposit * WON_PER_MANWON
    ensures n.monthlyRentWon == row.monthlyRent * WON_PER_MANWON
    ensures n.premiumWon == row.premium * WON_PER_MANWON
    ensures n.totalInitialCost == n.depositWon + n.premiumWon
    ensures n.monthlyTotalCost == n.monthlyRentWon as real + n.maintenanceFeeWon
    ensures n.totalInitialCost == (row.deposit + row.premium) * WON_PER_MANWON
    ensures n.monthlyTotalCost == (row.monthlyRent as real + fee) * WON_PER_MANWON as real
    ensures n.maintenanceFeeWon / WON_PER_MANWON as real == fee
    ensures n.areaPriceWonPerM2 / WON_PER_MANWON as real == areaPrice
    ensures n.sizePy * M2_PER_PYEONG == row.size
    ensures row.size > 0.0 ==> n.rentPerM2 * row.size == (row.monthlyRent * WON_PER_MANWON) as real
    ensures row.size <= 0.0 ==> n.rentPerM2 == 0.0 && n.rentPerPy == 0.0
    ensures n.rentPerPy == n.rentPerM2 * M2_PER_PYEONG
    ensures row.deposit > 0 ==> n.premiumRatio * (row.deposit * WON_PER_MANWON) as real ==
                                (row.premium * WON_PER_MANWON) as real
    ensures row.deposit <= 0 ==> n.premiumRatio == 0.0
    ensures n.buildingAge == BuildingAge(aux.approvalDate, currentYear)
  {
    var depositWon := row.deposit * WON_PER_MANWON;
    var monthlyRentWon := row.monthlyRent * WON_PER_MANWON;
    var premiumWon := row.premium * WON_PER_MANWON;
    var maintenanceFeeWon := fee * WON_PER_MANWON as real;
    var areaPriceWonPerM2 := areaPrice * WON_PER_MANWON as real;
    var sizePy := row.size / M2_PER_PYEONG;
    NormalizedListing(
      raw := row,
      aux := aux,
      depositWon := depositWon,
      monthlyRentWon := monthlyRentWon,
      premiumWon := premiumWon,
      maintenanceFeeWon := maintenanceFeeWon,
      areaPriceWonPerM2 := areaPriceWonPerM2,
      sizePy := sizePy,
      totalInitialCost := depositWon + premiumWon,
      monthlyTotalCost := monthlyRentWon as real + maintenanceFeeWon,
      rentPerM2 := GuardedRatio(monthlyRentWon as real, row.size),
      rentPerPy := GuardedRatio(monthlyRentWon as real, sizePy),
      premiumRatio := GuardedRatio(premiumWon as real, depositWon as real),
      buildingAge := BuildingAge(aux.approvalDate, currentYear),
      district := DISTRICT)
  }

  /**
   * The normalised form of one row, with `currentYear` the reference year
   * shared by the whole batch. It is None exactly when the payload carries
   * a non-numeric value under `maintenanceFee` or `areaPrice`, which the
   * source's arithmetic does not accept.
   */
  function Normalize(row: RawListing, currentYear: int): (r: Option<NormalizedListing>)
    ensures r.Some? <==>
              AsNumber(ExtractFromJson(row.rawJson).maintFeeRaw).Some? &&
              AsNumber(ExtractFromJson(row.rawJson).areaPriceRaw).Some?
    ensures r.Some? ==> r.value.raw == row
    ensures r.Some? ==> r.value.aux == ExtractFromJson(row.rawJson)
    ensures r.Some? ==> r.value.district == DISTRICT
    ensures r.Some? ==> r.value.buildingAge == BuildingAge(r.value.aux.approvalDate, currentYear)
  {
    var aux := ExtractFromJson(row.rawJson);
    var fee := AsNumber(aux.maintFeeRaw);
    var areaPrice := AsNumber(aux.areaPriceRaw);
    if fee.Some? && areaPrice.Some? then
      Some(Derive(row, aux, fee.value, areaPrice.value, currentYear))
    else
      None
  }

  /**
   * A payload that does not parse, or is not an object, never makes a row
   * fail: it gets the default tuple, and so a zero age, a zero area price,
   * a zero maintenance fee and a monthly total that is the rent alone.
   */
  lemma MalformedPayloadDefaults(row: RawListing, currentYear: int)
    requires !row.rawJson.Obj?
    ensures Normalize(row, currentYear).Some?
    ensures var n := Normalize(row, currentYear).value;
            n.aux == FALLBACK && n.buildingAge == 0 &&
            n.areaPriceWonPerM2 == 0.0 && n.maintenanceFeeWon == 0.0 &&
            n.monthlyTotalCost == n.monthlyRentWon as real
  {
  }

  /**
   * Money conversion: each won column is the stored value times 10,000, so
   * dividing by 10,000 gives the stored value back exactly, and the two
   * sums are the sums of the won columns, that is of the stored values
   * scaled.
   */
  lemma MoneyScaling(row: RawListing, currentYear: int)
    requires Normalize(row, currentYear).Some?
    ensures var n := Normalize(row, currentYear).value;
            n.depositWon == row.deposit * WON_PER_MANWON &&
            n.monthlyRentWon == row.monthlyRent * WON_PER_MANWON &&
            n.premiumWon == row.premium * WON_PER_MANWON &&
            n.maintenanceFeeWon == AsNumber(n.aux.maintFeeRaw).value * WON_PER_MANWON as real &&
            n.areaPriceWonPerM2 == AsNumber(n.aux.areaPriceRaw).value * WON_PER_MANWON as real &&
            n.totalInitialCost == n.depositWon + n.premiumWon &&
            n.monthlyTotalCost == n.monthlyRentWon as real + n.maintenanceFeeWon
    ensures var n := Normalize(row, currentYear).value;
            n.depositWon / WON_PER_MANWON == row.deposit &&
            n.monthlyRentWon / WON_PER_MANWON == row.monthlyRent &&
            n.premiumWon / WON_PER_MANWON == row.premium &&
            n.maintenanceFeeWon / WON_PER_MANWON as real == AsNumber(n.aux.maintFeeRaw).value &&
            n.areaPriceWonPerM2 / WON_PER_MANWON as real == AsNumber(n.aux.areaPriceRaw).value &&
            n.totalInitialCost == (row.deposit + row.premium) * WON_PER_MANWON &&
            n.monthlyTotalCost ==
              (row.monthlyRent as real + AsNumber(n.aux.maintFeeRaw).value) * WON_PER_MANWON as real
  {
  }

  /** The pyeong area is positive exactly when the square-metre area is. */
  lemma PyeongAreaSign(row: RawListing, currentYear: int)
    requires Normalize(row, currentYear).Some?
    ensures var n := Normalize(row, currentYear).value;
            n.sizePy * M2_PER_PYEONG == row.size &&
            (n.sizePy > 0.0 <==> row.size > 0.0)
  {
  }

  /**
   * The three ratios are guarded: with no positive area both rent ratios
   * are 0, with no positive deposit the premium ratio is 0; otherwise each
   * ratio times its denominator is its numerator.
   */
  lemma RatioGuards(row: RawListing, currentYear: int)
    requires Normalize(row, currentYear).Some?
    ensures var n := Normalize(row, currentYear).value;
            (row.size <= 0.0 ==> n.rentPerM2 == 0.0 && n.rentPerPy == 0.0) &&
            (row.size > 0.0 ==> n.rentPerM2 * row.size == n.monthlyRentWon as real) &&
            (row.size > 0.0 ==> n.rentPerPy * n.sizePy == n.monthlyRentWon as real) &&
            (row.deposit <= 0 ==> n.premiumRatio == 0.0) &&
            (row.deposit > 0 ==> n.premiumRatio * n.depositWon as real == n.premiumWon as real)
  {
  }

  /** Rent per pyeong is always rent per square metre times 3.3058. */
  lemma RentPerPyeongScales(row: RawListing, currentYear: int)
    requires Normalize(row, currentYear).Some?
    ensures var n := Normalize(row, currentYear).value;
            n.rentPerPy == n.rentPerM2 * M2_PER_PYEONG
  {
  }

  /**
   * `get_processed_data` after loading: the extraction is applied row by
   * row and every derived column is computed from the same row, so the
   * table is filled one row at a time here. The reference year is read
   * once and shared by all rows; an empty input is returned as it is. The
   * result is None when some row has a non-numeric money value in its
   * payload.
   */
  method ProcessedData(rows: seq<RawListing>, currentYear: int)
    returns (r: Option<seq<NormalizedListing>>)
    ensures r.Some? <==> forall i :: 0 <= i < |rows| ==> Normalize(rows[i], currentYear).Some?
    ensures r.Some? ==> |r.value| == |rows|
    ensures r.Some? ==> forall i :: 0 <= i < |rows| ==> Normalize(rows[i], currentYear) == Some(r.value[i])
  {
    if |rows| == 0 {
      return Some([]);
    }
    var table := new NormalizedListing[|rows|];
    var i := 0;
    while i < |rows|
      invariant 0 <= i <= |rows|
      invariant forall k :: 0 <= k < i ==> Normalize(rows[k], currentYear) == Some(table[k])
    {
      var n := Normalize(rows[i], currentYear);
      if n.None? {
        return None;
      }
      table[i] := n.value;
      i := i + 1;
    }
    return Some(table[..]);
  }
}
