/**
 * Building age from the completion date (`get_age` in dashboard.py): the
 * first four characters of the date are read as an integer year.
 *
 * Python's `int()` is simplified to an optional sign followed by one or
 * more ASCII digits (no surrounding whitespace, no `_` separators, no
 * non-ASCII digits).
 */
module YearParse {
  import opened Options
  import opened Payload

  predicate IsAsciiDigit(c: char) {
    '0' <= c <= '9'
  }

  predicate AllDigits(s: string) {
    forall i :: 0 <= i < |s| ==> IsAsciiDigit(s[i])
  }

  function DigitValue(c: char): (d: nat)
    requires IsAsciiDigit(c)
    ensures d < 10
  {
    c as int - '0' as int
  }

  function DigitChar(d: nat): (c: char)
    requires d < 10
    ensures IsAsciiDigit(c) && DigitValue(c) == d
  {
    ('0' as int + d) as char
  }

  /** The value of a decimal numeral, most significant digit first. */
  function DigitsValue(s: string): nat
    requires AllDigits(s)
  {
    if s == [] then 0 else DigitsValue(s[..|s| - 1]) * 10 + DigitValue(s[|s| - 1])
  }

  /** The decimal numeral of `n`, without leading zeros. */
  function Decimal(n: nat): (s: string)
    ensures |s| > 0
  {
    if n < 10 then [DigitChar(n)] else Decimal(n / 10) + [DigitChar(n % 10)]
  }

  /** `int(s)`, reduced to an optional sign followed by ASCII digits. */
  function ParseInt(s: string): (r: Option<int>)
    ensures |s| > 0 && AllDigits(s) ==> r == Some(DigitsValue(s))
    ensures |s| > 1 && s[0] == '-' && AllDigits(s[1..]) ==> r.Some? && r.value + DigitsValue(s[1..]) == 0
    ensures |s| > 1 && s[0] == '+' && AllDigits(s[1..]) ==> r.Some? && r.value == DigitsValue(s[1..])
    ensures r.Some? ==> |s| > 0 && (IsAsciiDigit(s[0]) || s[0] == '-' || s[0] == '+')
    ensures r.Some? ==> IsAsciiDigit(s[0]) || |s| > 1
    ensures r.Some? ==> forall i :: 1 <= i < |s| ==> IsAsciiDigit(s[i])
  {
    if s == [] then None
    else if s[0] == '-' || s[0] == '+' then
      var digits := s[1..];
      if digits != [] && AllDigits(digits) then
        var magnitude: int := DigitsValue(digits);
        Some(if s[0] == '-' then -magnitude else magnitude)
      else None
    else if AllDigits(s) then Some(DigitsValue(s))
    else None
  }

  /** `date_str[:4]`: at most the first four characters. */
  function Prefix4(s: string): (p: string)
    ensures |p| == if |s| < 4 then |s| else 4
    ensures p == s[..|p|]
  {
    if |s| < 4 then s else s[..4]
  }

  /**
   * `get_age(date_str)` with the reference year as a parameter. A value
   * that is not a string always gives 0: a falsy one takes the first
   * branch, and for any other slicing or `int()` raises and the bare
   * `except` answers 0.
   */
  function BuildingAge(date: Value, currentYear: int): (age: int)
    ensures !date.Str? ==> age == 0
    ensures date == Str(NO_DATE) || date == Str("") ==> age == 0
    ensures date.Str? && ParseInt(Prefix4(date.s)).None? ==> age == 0
    ensures date.Str? && date.s != NO_DATE && ParseInt(Prefix4(date.s)).Some? ==>
              age == currentYear - ParseInt(Prefix4(date.s)).value
  {
    match date
    case Str(s) =>
      if s == NO_DATE || s == "" then 0
      else
        var year := ParseInt(Prefix4(s));
        if year.Some? then currentYear - year.value else 0
    case _ => 0
  }

  lemma {:induction false} DecimalDigits(n: nat)
    ensures AllDigits(Decimal(n)) && DigitsValue(Decimal(n)) == n
  {
    if n >= 10 {
      DecimalDigits(n / 10);
      var s := Decimal(n);
      assert s[..|s| - 1] == Decimal(n / 10);
    } else {
      assert Decimal(n)[..0] == [];
    }
  }

  /** Reading back the numeral of a natural number yields that number. */
  lemma DecimalRoundTrip(n: nat)
    ensures ParseInt(Decimal(n)) == Some(n)
  {
    DecimalDigits(n);
  }

  /** Negative numbers read back through the leading minus sign. */
  lemma NegativeDecimalRoundTrip(n: nat)
    ensures ParseInt("-" + Decimal(n)) == Some(-(n as int))
  {
    DecimalDigits(n);
    assert ("-" + Decimal(n))[1..] == Decimal(n);
  }

  /** Every year from 1000 to 9999 is written with exactly four digits. */
  lemma FourDigitYear(y: nat)
    requires 1000 <= y <= 9999
    ensures |Decimal(y)| == 4
  {
    assert |Decimal(y / 10 / 10 / 10)| == 1;
    assert |Decimal(y / 10 / 10)| == 2;
    assert |Decimal(y / 10)| == 3;
  }

  /**
   * A date whose leading digits are `d` gives the age `currentYear - d`,
   * whatever follows a four-digit prefix. There is no length check: a
   * numeric string shorter than four characters is read as a year too.
   */
  lemma AgeFromLeadingDigits(d: string, rest: string, currentYear: int)
    requires 0 < |d| <= 4 && AllDigits(d)
    requires |d| == 4 || rest == []
    ensures BuildingAge(Str(d + rest), currentYear) == currentYear - DigitsValue(d)
  {
  }

  /** An ISO-8601 date `YYYY-...` gives the age `currentYear - YYYY`. */
  lemma IsoDateAge(year: nat, rest: string, currentYear: int)
    requires 1000 <= year <= 9999
    ensures BuildingAge(Str(Decimal(year) + rest), currentYear) == currentYear - year
  {
    FourDigitYear(year);
    DecimalDigits(year);
    AgeFromLeadingDigits(Decimal(year), rest, currentYear);
  }

  /**
   * A date that starts with neither a digit nor a sign gives age 0, under
   * the sign-and-ASCII-digits reading of `int()` above (Python would also
   * accept leading whitespace).
   */
  lemma NonNumericDateAge(s: string, currentYear: int)
    requires |s| > 0 && !IsAsciiDigit(s[0]) && s[0] != '-' && s[0] != '+'
    ensures BuildingAge(Str(s), currentYear) == 0
  {
  }
}
