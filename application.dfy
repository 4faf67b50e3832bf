/** The request-parameter validators of Application.java, and the parts of
    `Integer.parseInt` and `Integer.toString` they rely on, over ASCII text. */
module Application {
  import opened Common

  /** The exception `Integer.parseInt` throws. */
  datatype NumberFormatError = NumberFormatException

  const IntMin: int := -0x8000_0000
  const IntMax: int := 0x7fff_ffff

  /** A character of STRING_ID_PATTERN's class `[A-Za-z0-9_\-.%]`. */
  predicate IsIdChar(c: char)
  {
    IsUpper(c) || IsLower(c) || IsDigit(c) || c == '_' || c == '-' || c == '.' || c == '%'
  }

  /** `isValidId`: false for null, otherwise a whole match of one or more id
      characters. */
  function IsValidId(idParameter: Option<string>): (b: bool)
    ensures b <==> idParameter.Some? && |idParameter.value| > 0
                   && forall i | 0 <= i < |idParameter.value| :: IsIdChar(idParameter.value[i])
  {
    idParameter.Some? && MatchesPlus(idParameter.value, IsIdChar)
  }

  /** `isValidNumericalId`: NUMERICAL_ID_PATTERN `^\d{0,20}$`, so at most
      twenty ASCII digits, the empty string included. */
  function IsValidNumericalId(idParameter: string): (b: bool)
    ensures b <==> |idParameter| <= 20 && forall i | 0 <= i < |idParameter| :: IsDigit(idParameter[i])
  {
    |idParameter| <= 20 && (idParameter == "" || MatchesPlus(idParameter, IsDigit))
  }

  /** Every non-empty numerical id is also a textual id. */
  lemma NumericalIdsAreIds(idParameter: string)
    requires IsValidNumericalId(idParameter) && idParameter != ""
    ensures IsValidId(Some(idParameter))
  {
  }

  /** The value of a decimal digit. */
  function DigitValue(c: char): (d: nat)
    requires IsDigit(c)
    ensures d < 10
  {
    c as int - '0' as int
  }

  /** The value of a string of decimal digits, most significant first. */
  function DigitsValue(s: string): nat
    requires forall i | 0 <= i < |s| :: IsDigit(s[i])
    decreases |s|
  {
    if s == [] then 0 else DigitsValue(s[..|s| - 1]) * 10 + DigitValue(s[|s| - 1])
  }

  predicate AllDigits(s: string)
  {
    forall i | 0 <= i < |s| :: IsDigit(s[i])
  }

  /** `Integer.parseInt(s)` on ASCII input: an optional sign, then one or
      more digits whose value fits the 32-bit range. */
  function ParseInt(s: string): (r: Result<int, NumberFormatError>)
    ensures r.Ok? ==> IntMin <= r.value <= IntMax
  {
    if s == "" then Err(NumberFormatException)
    else
      var negative := s[0] == '-';
      var digits := if s[0] == '-' || s[0] == '+' then s[1..] else s;
      if digits == "" || !AllDigits(digits) then Err(NumberFormatException)
      else
        var value: int := if negative then -(DigitsValue(digits) as int) else DigitsValue(digits);
        if value < IntMin || value > IntMax then Err(NumberFormatException) else Ok(value)
  }

  /** The digit character of a value below ten. */
  function DigitChar(d: nat): (c: char)
    requires d < 10
    ensures IsDigit(c) && DigitValue(c) == d
  {
    ('0' as int + d) as char
  }

  /** `Integer.toString` of a non-negative value: its decimal digits,
      without leading zeros. */
  function NatDigits(n: nat): (s: string)
    ensures |s| > 0 && AllDigits(s)
    decreases n
  {
    if n < 10 then [DigitChar(n)] else NatDigits(n / 10) + [DigitChar(n % 10)]
  }

  /** `Integer.toString(n)`. */
  function IntToString(n: int): (s: string)
    ensures |s| > 0
  {
    if n < 0 then "-" + NatDigits(-n) else NatDigits(n)
  }

  /** Reading the digits back gives the number. */
  lemma {:induction false} NatDigitsValue(n: nat)
    ensures DigitsValue(NatDigits(n)) == n
    decreases n
  {
    if n >= 10 {
      NatDigitsValue(n / 10);
      var s := NatDigits(n);
      assert s[..|s| - 1] == NatDigits(n / 10);
    }
  }

  function Pow10(k: nat): (p: nat)
    ensures p >= 1
  {
    if k == 0 then 1 else 10 * Pow10(k - 1)
  }

  /** A number below 10^k has at most k digits. */
  lemma {:induction false} NatDigitsLength(n: nat, k: nat)
    requires k >= 1 && n < Pow10(k)
    ensures |NatDigits(n)| <= k
    decreases k
  {
    if n >= 10 {
      assert k >= 2;
      NatDigitsLength(n / 10, k - 1);
    }
  }

  /** `parseInt` undoes `toString` on every 32-bit integer. */
  lemma ParseIntToString(n: int)
    requires IntMin <= n <= IntMax
    ensures ParseInt(IntToString(n)) == Ok(n)
  {
    if n < 0 {
      NatDigitsValue(-n);
      assert IntToString(n)[1..] == NatDigits(-n);
    } else {
      NatDigitsValue(n);
      assert NatDigits(n)[0] != '-';
    }
  }

  /** `validateId`: -1 for anything that is not a numerical id, otherwise
      `parseInt`, which throws on the empty string and on values above the
      32-bit range. */
  function ValidateId(idParameter: string): (r: Result<int, NumberFormatError>)
    ensures r.Ok? ==> -1 <= r.value <= IntMax
  {
    if !IsValidNumericalId(idParameter) then Ok(-1) else ParseInt(idParameter)
  }

  /** The three outcomes of `validateId`: -1 exactly for the strings that
      are not numerical ids, an exception exactly for the empty string and
      the numbers beyond 2^31 - 1, and the number itself otherwise. */
  lemma ValidateIdOutcomes(idParameter: string)
    ensures ValidateId(idParameter) == Ok(-1) <==> !IsValidNumericalId(idParameter)
    ensures ValidateId(idParameter).Err? <==>
              IsValidNumericalId(idParameter) && (idParameter == "" || DigitsValue(idParameter) > IntMax)
    ensures IsValidNumericalId(idParameter) && idParameter != "" && DigitsValue(idParameter) <= IntMax ==>
              ValidateId(idParameter) == Ok(DigitsValue(idParameter))
  {
    if IsValidNumericalId(idParameter) && idParameter != "" {
      assert idParameter[0] != '-' && idParameter[0] != '+';
    }
  }

  /** Every id a request can name comes back from `validateId` unchanged. */
  lemma ValidateIdRoundTrip(n: int)
    requires 0 <= n <= IntMax
    ensures ValidateId(IntToString(n)) == Ok(n)
  {
    assert IntMax < Pow10(10);
    NatDigitsLength(n, 10);
    ParseIntToString(n);
  }

  /** `validateGeoAccession`: the input itself when it matches
      GEO_ACCESSION_PATTERN `^G[A-Z]{2}\d+$`, otherwise null. */
  function ValidateGeoAccession(idParameter: string): (r: Option<string>)
    ensures r.Some? ==> r.value == idParameter
    ensures r.Some? <==> |idParameter| >= 4 && idParameter[0] == 'G' && IsUpper(idParameter[1])
                         && IsUpper(idParameter[2]) && forall i | 3 <= i < |idParameter| :: IsDigit(idParameter[i])
  {
    if |idParameter| >= 4 && idParameter[0] == 'G' && IsUpper(idParameter[1]) && IsUpper(idParameter[2])
       && MatchesPlus(idParameter[3..], IsDigit)
    then Some(idParameter)
    else None
  }

  /** An accession is also a textual id. */
  lemma GeoAccessionIsId(idParameter: string)
    requires ValidateGeoAccession(idParameter).Some?
    ensures IsValidId(Some(idParameter))
  {
  }
}
