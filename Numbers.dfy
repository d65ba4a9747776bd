/**
 * Int32 and the decimal parser Int32.TryParse: an optional sign followed by
 * one or more decimal digits whose value fits in 32 bits.
 */
module Numbers {
  import opened Wrappers
  import opened Errors

  const MinValue: int := -0x8000_0000
  const MaxValue: int := 0x7FFF_FFFF

  /** System.Int32. */
  newtype int32 = x: int | -0x8000_0000 <= x < 0x8000_0000

  predicate IsDigit(c: char) {
    '0' <= c <= '9'
  }

  predicate AllDigits(s: string) {
    forall i | 0 <= i < |s| :: IsDigit(s[i])
  }

  function DigitValue(c: char): (d: nat)
    requires IsDigit(c)
    ensures d < 10
  {
    c as int - '0' as int
  }

  function DigitChar(d: nat): (c: char)
    requires d < 10
    ensures IsDigit(c) && DigitValue(c) == d
  {
    ('0' as int + d) as char
  }

  /** The value of a string of decimal digits, most significant first. */
  function DigitsValue(s: string): nat
    requires AllDigits(s)
    decreases |s|
  {
    if |s| == 0 then 0 else DigitsValue(s[..|s| - 1]) * 10 + DigitValue(s[|s| - 1])
  }

  /** Int32.TryParse(s, out n): None when s is not a decimal Int32. */
  function TryParseInt32(s: string): (r: Option<int32>)
    ensures r.Some? ==> |s| >= 1 && AllDigits(s[1..]) && (IsDigit(s[0]) || s[0] == '-' || s[0] == '+')
    ensures r.Some? && IsDigit(s[0]) ==> r.value as int == DigitsValue(s)
    ensures r.Some? && s[0] == '+' ==> |s| >= 2 && r.value as int == DigitsValue(s[1..])
    ensures r.Some? && s[0] == '-' ==> |s| >= 2 && r.value as int == 0 - DigitsValue(s[1..])
    ensures AllDigits(s) && 1 <= |s| && DigitsValue(s) <= MaxValue ==> r.Some?
    ensures (|s| >= 2 && (s[0] == '-' || s[0] == '+') && AllDigits(s[1..])
      && MinValue <= (if s[0] == '-' then 0 - DigitsValue(s[1..]) else DigitsValue(s[1..])) <= MaxValue) ==> r.Some?
  {
    if |s| == 0 then
      None
    else if s[0] == '-' || s[0] == '+' then
      var digits := s[1..];
      if |digits| == 0 || !AllDigits(digits) then None
      else
        var v: int := if s[0] == '-' then 0 - DigitsValue(digits) else DigitsValue(digits);
        if MinValue <= v <= MaxValue then Some(v as int32) else None
    else if AllDigits(s) then
      var v := DigitsValue(s);
      if v <= MaxValue then Some(v as int32) else None
    else
      None
  }

  /** The shortest decimal representation of n. */
  function ToDecimal(n: nat): (r: string)
    ensures |r| >= 1 && AllDigits(r)
    decreases n
  {
    if n < 10 then [DigitChar(n)] else ToDecimal(n / 10) + [DigitChar(n % 10)]
  }

  /** Reading back the decimal representation of n gives n. */
  lemma {:induction false} DigitsValueOfDecimal(n: nat)
    ensures DigitsValue(ToDecimal(n)) == n
    decreases n
  {
    if n >= 10 {
      var s := ToDecimal(n);
      DigitsValueOfDecimal(n / 10);
      assert s[..|s| - 1] == ToDecimal(n / 10);
    }
  }

  /** Int32.TryParse reads back the decimal representation of every non-negative Int32. */
  lemma ParseOfDecimal(n: int32)
    requires n >= 0
    ensures TryParseInt32(ToDecimal(n as nat)) == Some(n)
  {
    DigitsValueOfDecimal(n as nat);
  }

  /** Int32.TryParse reads back "-" followed by the decimal representation of every negative Int32. */
  lemma ParseOfNegativeDecimal(n: int32)
    requires n < 0
    ensures TryParseInt32("-" + ToDecimal(-(n as int))) == Some(n)
  {
    var s := "-" + ToDecimal(-(n as int));
    assert s[1..] == ToDecimal(-(n as int));
    DigitsValueOfDecimal(-(n as int));
  }

  /**
   * The issue and pull request number parsers of the web-link parsers: an
   * Int32 (or an invalid-number error), which must be positive.
   */
  function TryParsePositiveNumber(input: string): (r: Result<int32, ParseError>)
    ensures r.Success? <==> TryParseInt32(input).Some? && TryParseInt32(input).value > 0
    ensures r.Success? ==> r.value >= 1 && TryParseInt32(input) == Some(r.value)
    ensures TryParseInt32(input).None? ==> r == Failure(InvalidNumber(input))
    ensures TryParseInt32(input).Some? && TryParseInt32(input).value <= 0 ==>
      r == Failure(NonPositiveNumber(TryParseInt32(input).value as int))
  {
    match TryParseInt32(input)
    case None => Failure(InvalidNumber(input))
    case Some(n) => if n <= 0 then Failure(NonPositiveNumber(n as int)) else Success(n)
  }

  /** Every positive Int32, written in decimal, is read back as itself. */
  lemma PositiveNumberOfDecimal(n: int32)
    requires n >= 1
    ensures TryParsePositiveNumber(ToDecimal(n as nat)) == Success(n)
  {
    ParseOfDecimal(n);
  }

  /** Zero, negative numbers and text that is not a number are rejected. */
  lemma PositiveNumberRejections()
    ensures TryParsePositiveNumber("0") == Failure(NonPositiveNumber(0))
    ensures TryParsePositiveNumber("-23") == Failure(NonPositiveNumber(-23))
    ensures TryParsePositiveNumber("") == Failure(InvalidNumber(""))
    ensures TryParsePositiveNumber("1a") == Failure(InvalidNumber("1a"))
  {
    assert !AllDigits("1a") by { assert !IsDigit("1a"[1]); }
    assert DigitsValue("23") == 23 by { assert "23"[..1] == "2"; }
  }
}
