/**
 * The two conversions of Go's strconv package that datatable defaults go
 * through, ParseBool and Atoi (for a 64-bit int), with their inverses
 * FormatBool and Itoa as partners.
 *
 * Strings are sequences of characters rather than bytes. Every character
 * these parsers accept is ASCII, so the switch from bytes to characters
 * changes no verdict: a non-ASCII character is a syntax error either way.
 */
module StrConv {
  import opened Wrappers

  /** The two sentinel errors strconv wraps in a NumError. */
  datatype ErrKind = ErrSyntax | ErrRange

  /** strconv.NumError: the function that failed, its input and the cause. */
  datatype NumError = NumError(fnName: string, num: string, err: ErrKind)

  const MaxInt64: int := 0x7FFF_FFFF_FFFF_FFFF
  const MinInt64: int := -0x8000_0000_0000_0000
  const MaxUint64: int := 0xFFFF_FFFF_FFFF_FFFF

  const TrueLiterals: set<string> := {"1", "t", "T", "true", "TRUE", "True"}
  const FalseLiterals: set<string> := {"0", "f", "F", "false", "FALSE", "False"}

  /** strconv.ParseBool: exactly twelve spellings are accepted. */
  function ParseBool(s: string): (r: Result<bool, NumError>)
    ensures r.Success? <==> s in TrueLiterals + FalseLiterals
    ensures r.Success? ==> (r.value <==> s !in FalseLiterals)
    ensures r.Failure? ==> r.error == NumError("ParseBool", s, ErrSyntax)
  {
    if s in TrueLiterals then Success(true)
    else if s in FalseLiterals then Success(false)
    else Failure(NumError("ParseBool", s, ErrSyntax))
  }

  /** strconv.FormatBool. */
  function FormatBool(b: bool): string
  {
    if b then "true" else "false"
  }

  /** ParseBool undoes FormatBool. */
  lemma ParseFormatBool(b: bool)
    ensures ParseBool(FormatBool(b)) == Success(b)
  {
  }

  predicate IsDigit(c: char)
  {
    '0' <= c <= '9'
  }

  predicate AllDigits(s: string)
  {
    forall i :: 0 <= i < |s| ==> IsDigit(s[i])
  }

  /** The value of a string of decimal digits, most significant first. */
  function DigitsValue(s: string): nat
    requires AllDigits(s)
  {
    if s == [] then 0
    else DigitsValue(s[..|s| - 1]) * 10 + (s[|s| - 1] - '0') as int
  }

  /** The number of decimal digits at the start of s. */
  function LeadingDigitCount(s: string): (n: nat)
    ensures n <= |s|
    ensures AllDigits(s[..n])
    ensures n < |s| ==> !IsDigit(s[n])
  {
    if s == [] || !IsDigit(s[0]) then 0
    else
      var n := 1 + LeadingDigitCount(s[1..]);
      assert s[..n] == [s[0]] + s[1..][..n - 1];
      n
  }

  /** The text after an optional leading sign. */
  function Unsigned(s: string): string
  {
    if s != [] && (s[0] == '-' || s[0] == '+') then s[1..] else s
  }

  predicate IsNegative(s: string)
  {
    s != [] && s[0] == '-'
  }

  /** Reference form of a base-10 integer literal: an optional sign and at least one digit. */
  predicate IsDecimalLiteral(s: string)
  {
    Unsigned(s) != [] && AllDigits(Unsigned(s))
  }

  /** The value a decimal literal denotes, with no width limit. */
  function LiteralValue(s: string): int
    requires IsDecimalLiteral(s)
  {
    var u: int := DigitsValue(Unsigned(s));
    if IsNegative(s) then -u else u
  }

  /**
   * strconv.Atoi on a 64-bit platform. Below 19 bytes Go takes a fast path
   * and otherwise ParseInt(s, 10, 0); both accept the same strings. A
   * well-formed literal outside the int64 range is a range error, any other
   * failure a syntax error, except that a leading digit run that overflows
   * uint64 is reported as a range error before any later syntax error is
   * seen, because ParseUint scans left to right.
   */
  function Atoi(s: string): (r: Result<int, NumError>)
    ensures r.Success? <==> IsDecimalLiteral(s) && MinInt64 <= LiteralValue(s) <= MaxInt64
    ensures r.Success? ==> r.value == LiteralValue(s)
    ensures r.Failure? ==> r.error.fnName == "Atoi" && r.error.num == s
    ensures r.Failure? && IsDecimalLiteral(s) ==> r.error.err == ErrRange
    ensures r.Failure? && !IsDecimalLiteral(s) ==>
      (r.error.err == ErrRange <==> DigitsValue(Unsigned(s)[..LeadingDigitCount(Unsigned(s))]) > MaxUint64)
  {
    var body := Unsigned(s);
    if body == [] then Failure(NumError("Atoi", s, ErrSyntax))
    else
      var run := LeadingDigitCount(body);
      if DigitsValue(body[..run]) > MaxUint64 then
        assert run < |body| ==> !AllDigits(body);
        assert run == |body| ==> body[..run] == body;
        Failure(NumError("Atoi", s, ErrRange))
      else if run < |body| then
        assert !AllDigits(body);
        Failure(NumError("Atoi", s, ErrSyntax))
      else
        assert body[..run] == body;
        var u: int := DigitsValue(body);
        if !IsNegative(s) && u > MaxInt64 then Failure(NumError("Atoi", s, ErrRange))
        else if IsNegative(s) && u > -MinInt64 then Failure(NumError("Atoi", s, ErrRange))
        else Success(if IsNegative(s) then -u else u)
  }

  function DigitChar(d: nat): char
    requires d < 10
  {
    ('0' as int + d) as char
  }

  /** The decimal digits of n, without leading zeros. */
  function Digits(n: nat): (s: string)
  {
    if n < 10 then [DigitChar(n)] else Digits(n / 10) + [DigitChar(n % 10)]
  }

  /** strconv.Itoa. */
  function Itoa(n: int): string
  {
    if n < 0 then "-" + Digits(-n) else Digits(n)
  }

  lemma {:induction false} DigitsAreDigits(n: nat)
    ensures Digits(n) != [] && AllDigits(Digits(n))
    ensures DigitsValue(Digits(n)) == n
  {
    if n >= 10 {
      DigitsAreDigits(n / 10);
      var s := Digits(n);
      assert s[..|s| - 1] == Digits(n / 10);
    }
  }

  /** Atoi undoes Itoa on every 64-bit integer. */
  lemma AtoiItoa(n: int)
    requires MinInt64 <= n <= MaxInt64
    ensures Atoi(Itoa(n)) == Success(n)
  {
    var s := Itoa(n);
    if n < 0 {
      DigitsAreDigits(-n);
      assert Unsigned(s) == Digits(-n);
      assert IsNegative(s);
    } else {
      DigitsAreDigits(n);
      assert Unsigned(s) == Digits(n);
      assert !IsNegative(s);
    }
    assert IsDecimalLiteral(s) && LiteralValue(s) == n;
  }
}
