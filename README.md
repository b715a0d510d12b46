# Listing normaliser and filter engine of the store-listing dashboard

This project models the data-transformation core of `dashboard.py`, a dashboard over
commercial real-estate listings. It has two parts:

- The **listing normaliser** (`get_processed_data` after the rows are loaded). Each stored row
  gets four auxiliary fields (`areaPrice`, `maintenanceFee`, `completionConfirmedDateUtc`,
  `groundFloor`) from its JSON payload. A bad payload falls back to the default tuple. The
  stored money columns (in manwon, units of 10,000 won) are scaled to won. The area is
  converted from square metres to pyeong with the constant 3.3058. Two sums are formed, and
  three ratios that never divide by zero. The building age comes from the first four
  characters of the completion date. Every row is stamped with the district `강남구`.
- The **filter engine** (the mask in `draw_sidebar`). It keeps a row when its
  `businessLargeCodeName` is among the chosen categories and deposit, monthly rent, premium and
  size each lie in an inclusive range. When the first-floor box is ticked, a second selection
  keeps only `floor == 1`. Order is preserved.

Two helpers of the explorer page are modelled too: the first twenty rows shown for an empty
search, and the start-up cost formula.

Modules: `Options` (the optional result), `Payload` (payload values and `extract_from_json`),
`YearParse` (`int()` on the date prefix and `get_age`), `Listing` (the rows, `Normalize` and
`ProcessedData`), `FilterEngine` (boolean-mask selection and the sidebar filter), `Explorer`.

Modelling choices:

- The payload arrives already classified as `Malformed` (`json.loads` raises), `NotObject`
  (it parses to something that has no `.get`) or `Obj(map)`. JSON values are `Null`, `Bool`,
  `Num` (exact real), `Str` or `Compound` (array or nested object).
- The reference year is a parameter of `Normalize` and `ProcessedData`. The source reads it
  once, at import (`CURRENT_YEAR`, dashboard.py:22), so every row of a batch shares it.
- The source fills the table column by column, but every column is computed from its own row.
  `ProcessedData` therefore fills an array row by row with `Normalize`, which gives the same table.
- Stored money columns and `floor` are integers. `size`, the payload numbers, the pyeong area
  and the ratios are exact reals.
- The code has no length check on the completion date. A short numeric date such as `"12"` is
  therefore read as the year 12, not treated as unparseable (`YearParse.AgeFromLeadingDigits`).
- `groundFloor` is passed through as whatever value the payload holds; nothing in the core
  computes with it.

## Model

| member | source | states |
|---|---|---|
| `Payload.Get` | dashboard.py:43-46 | `dict.get`: the stored value when the key is present, the default otherwise |
| `Payload.ExtractFromJson` | dashboard.py:39-49 | a non-parsing or non-object payload gives exactly (0, 0, "N/A", 0); for an object each key independently passes its value through unchanged or takes its own default |
| `Payload.MissingKeysLikeMalformed` | dashboard.py:39-49 | an object carrying none of the four keys extracts to the same tuple as a malformed payload |
| `Payload.ExtractReadsOnlyItsKeys` | dashboard.py:42-47 | adding or changing any other key of the object leaves the extracted tuple unchanged |
| `YearParse.ParseInt` | dashboard.py:77 | `int()` accepts exactly an optional sign followed by at least one digit, with the numeral's value (negated after `-`); anything else, a lone sign included, fails |
| `YearParse.Prefix4` | dashboard.py:77 | `date_str[:4]` is the first min(4, length) characters |
| `YearParse.BuildingAge` | dashboard.py:74-80 | age is 0 for "N/A", the empty string, any non-string value and any prefix that does not parse; otherwise it is the reference year minus the parsed prefix |
| `YearParse.DecimalRoundTrip` | dashboard.py:77 | parsing the decimal numeral of n gives back n |
| `YearParse.NegativeDecimalRoundTrip` | dashboard.py:77 | parsing `-` followed by the numeral of n gives back -n |
| `YearParse.AgeFromLeadingDigits` | dashboard.py:74-81 | a date led by digits d (four of them, or a shorter all-digit date) has age currentYear - d, whatever follows the four digits; no length check exists |
| `YearParse.IsoDateAge` | dashboard.py:74-81 | a date `YYYY...` with a year from 1000 to 9999 has age currentYear - YYYY |
| `YearParse.NonNumericDateAge` | dashboard.py:76-80 | under the sign-and-ASCII-digits reading of `int()` (see `YearParse.ParseInt` under Left out), a date starting with neither a digit nor a sign has age 0 |
| `Listing.AsNumber` | dashboard.py:58-59 | numbers are used as they are, booleans as 1 or 0; every other value has no numeric reading |
| `Listing.Derive` | dashboard.py:55-84 | the appended columns of one row: the stored row and extracted tuple kept, deposit, rent and premium in won as stored value × 10,000, the initial cost as deposit won + premium won and the monthly total as rent won + maintenance fee won (both also as scaled stored values), the money columns giving back the payload numbers, the pyeong area times 3.3058 giving the size, the three guarded ratios on both branches, rent per pyeong as rent per m² times 3.3058, the age of the date and the district |
| `Listing.GuardedRatio` | dashboard.py:69-71 | for a positive denominator the quotient times the denominator is the numerator; otherwise the result is 0, with no division |
| `Listing.Normalize` | dashboard.py:39-84 | a row normalises exactly when its payload's maintenance fee and area price have numeric readings; the result keeps the stored row and the extracted tuple, has the district `강남구` and the age of its date |
| `Listing.MalformedPayloadDefaults` | dashboard.py:39-81 | a malformed or non-object payload never fails the row; it gives the default tuple, age 0, area price 0, maintenance fee 0, and a monthly total equal to the rent |
| `Listing.MoneyScaling` | dashboard.py:55-66 | every won column is its stored value times 10,000, and dividing by 10,000 gives the stored value back; the initial cost is deposit won + premium won, the monthly total is rent won + maintenance fee won |
| `Listing.PyeongAreaSign` | dashboard.py:62 | the pyeong area times 3.3058 is the square-metre area, and one is positive exactly when the other is |
| `Listing.RatioGuards` | dashboard.py:62-71 | with no positive size both rent ratios are 0, with no positive deposit the premium ratio is 0; otherwise each ratio times its denominator is its numerator |
| `Listing.RentPerPyeongScales` | dashboard.py:62-70 | rent per pyeong is always rent per square metre times 3.3058, including the zero-size case |
| `Listing.ProcessedData` | dashboard.py:35-86 | the batch succeeds exactly when every row normalises; its output has one row per input row, in order, each the normal form of its input row under the one reference year (so it keeps that row and carries the district); empty input gives empty output |
| `FilterEngine.Where` | dashboard.py:141-147 | a boolean-mask selection is never longer than its input |
| `FilterEngine.WhereMembers` | dashboard.py:141-147 | an element is selected exactly when it is in the input and the mask accepts it |
| `FilterEngine.WhereMultiplicity` | dashboard.py:141-147 | selection keeps every copy of an accepted element and no copy of a rejected one |
| `FilterEngine.WhereIsSubsequence` | dashboard.py:141-147 | the selection is an order-preserving subsequence of its input |
| `FilterEngine.WhereFusion` | dashboard.py:141-150 | selecting by f and then by g is selecting once by f and g |
| `FilterEngine.SidebarFilter` | dashboard.py:141-152 | the sidebar filter keeps exactly the input rows that meet every active condition, as an order-preserving subsequence of the input |
| `FilterEngine.FilterIsConjunction` | dashboard.py:141-150 | the sidebar's two-step filter equals one selection by the conjunction of all active conditions |
| `FilterEngine.FilterMembers` | dashboard.py:141-150 | soundness and completeness: a row is kept exactly when it is in the input, its category is chosen, all four values lie in their ranges inclusive at both ends, and it is on floor 1 when the box is ticked |
| `FilterEngine.FilterOrderAndMultiplicity` | dashboard.py:141-150 | the result is an order-preserving subsequence of the input and keeps every copy of each selected row |
| `FilterEngine.EmptyCategoriesSelectNothing` | dashboard.py:142 | no chosen category gives an empty result |
| `FilterEngine.DegenerateRangeSelectsNothing` | dashboard.py:143-146 | any range whose lower end exceeds its upper end gives an empty result, not an error |
| `FilterEngine.FirstFloorOnlyNarrows` | dashboard.py:149-150 | ticking the first-floor box gives the first-floor rows of the unticked result, a subsequence of it |
| `Explorer.DefaultResults` | dashboard.py:216 | `head(20)`: the first min(20, n) rows, in order |
| `Explorer.ExplorerResults` | dashboard.py:213-216 | an empty search shows the default rows; otherwise exactly the rows the search predicate accepts, in input order, with every copy kept |
| `Explorer.StartCost` | dashboard.py:246 | with no months of operation the cost is deposit won + premium won; with a non-negative month count and monthly total it is never below that |
| `Explorer.StartCostInManwon` | dashboard.py:246 | the start-up cost is the initial cost plus months × the monthly total, that is (deposit + premium + months × (rent + fee)) × 10,000 |
| `Explorer.StartCostPerMonth` | dashboard.py:246 | each additional month adds exactly one monthly total |

## Left out

- Loading from SQLite, the existence check of the database file and `st.cache_data` (dashboard.py:26-33) are I/O. The model starts from a given sequence of rows.
- `fetch_and_parse_detail` (dashboard.py:88-110) is an HTTP request and HTML scraping.
- All rendering (page setup, fonts, KPI cards, charts, tabs, `main`) is presentation. So are the KPI means, group-by means and value counts, which are floating-point summaries feeding charts.
- The slider and multiselect defaults, `(0, max)` and `all_cats[:3]` (dashboard.py:118-135), are UI choices. The filter takes its ranges and categories as parameters.
- The text search of the explorer (dashboard.py:214) uses pandas `str.contains`, which matches a regular expression by default. It is a parameter (`hit`) of `Explorer.ExplorerResults`. The number-of-months widget's 1 to 12 bound is likewise not modelled; `StartCost` accepts any month count.
- JSON text is not parsed. The payload arrives already classified as malformed, non-object or object.
- YearParse.ParseInt: Python `int()` also accepts surrounding whitespace, `_` between digits and non-ASCII digits. Only an optional sign and ASCII digits are modelled.
- Listing.Normalize: a payload value under `maintenanceFee` or `areaPrice` that is neither a number nor a boolean makes the row, and with it the batch, fail (None). In pandas the outcome depends on the column's inferred type: a TypeError, NaN propagation, or string repetition for `areaPrice`. That variety is not modelled.
- Stored columns that are NULL (NaN in pandas) are not modelled. All stored numeric fields are present numbers.
- Floating point: the pyeong area and the three ratios are exact reals, not IEEE doubles.
- Normalising twice with the same reference year gives the same rows because `Normalize` is a function. No lemma is stated for that.
