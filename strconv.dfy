/** The parts of Go's `strconv` package the service depends on, for a 64-bit
    `int`: `Atoi`, the decimal rendering `%d` produces, and `Quote` as used in
    the text of a `*NumError`. */
module Strconv {
  import opened Wrappers
  import opened GoInt

  predicate IsDigit(c: char) {
    '0' <= c <= '9'
  }

  predicate AllDigits(s: string) {
    forall i :: 0 <= i < |s| ==> IsDigit(s[i])
  }

  function DigitValue(c: char): (d: nat)
    requires IsDigit(c)
    ensures d < 10
  {
    c as int - '0' as int
  }

  function DigitChar(d: nat): (c: char)
    requires d < 10
    ensures IsDigit(c) && DigitValue(c) == d
  {
    ('0' as int + d) as char
  }

  function Pow10(n: nat): (p: nat)
    ensures p >= 1
  {
    if n == 0 then 1 else 10 * Pow10(n - 1)
  }

  /** The value of a string of decimal digits, most significant digit first. */
  function DigitsValue(s: string): nat
    requires AllDigits(s)
  {
    if s == [] then 0 else 10 * DigitsValue(s[..|s| - 1]) + DigitValue(s[|s| - 1])
  }

  /** The length of the longest prefix of `s` made of decimal digits. */
  function DigitPrefix(s: string): (n: nat)
    ensures n <= |s|
    ensures AllDigits(s[..n])
    ensures n < |s| ==> !IsDigit(s[n])
  {
    if s == [] || !IsDigit(s[0]) then 0
    else
      var m := DigitPrefix(s[1..]);
      assert s[..m + 1] == [s[0]] + s[1..][..m];
      m + 1
  }

  /** `s` without its optional leading sign. */
  function Unsigned(s: string): (u: string)
    requires s != []
    ensures |u| == |s| || (|u| == |s| - 1 && (s[0] == '+' || s[0] == '-'))
  {
    if s[0] == '+' || s[0] == '-' then s[1..] else s
  }

  /** The strings of the shape Atoi accepts: an optional `+` or `-` followed by
      one or more decimal digits. */
  predicate WellFormed(s: string) {
    s != [] && Unsigned(s) != [] && AllDigits(Unsigned(s))
  }

  /** The mathematical value a well-formed string denotes. */
  function SignedValue(s: string): int
    requires WellFormed(s)
  {
    var v: int := DigitsValue(Unsigned(s));
    if s[0] == '-' then -v else v
  }

  datatype ErrorKind = ErrSyntax | ErrRange

  /** Go's `*strconv.NumError`: the function that failed, its input, and why. */
  datatype NumError = NumError(func: string, num: string, err: ErrorKind) {
    /** The text `(*NumError).Error()` produces. */
    function Error(): string {
      "strconv." + func + ": parsing " + Quote(num) + ": "
      + match err
        case ErrSyntax => "invalid syntax"
        case ErrRange => "value out of range"
    }
  }

  /** Go's `strconv.Atoi` on a 64-bit platform. An empty string, a lone sign
      or a non-digit is a syntax error, except that a digit run which already
      exceeds the unsigned 64-bit range before the first non-digit is reported
      as a range error, as `ParseUint` checks overflow digit by digit. A
      well-formed value outside the signed 64-bit range is a range error. Every
      error carries the whole input. */
  function Atoi(s: string): (r: Result<int, NumError>)
    ensures r.Success? <==> WellFormed(s) && InInt64(SignedValue(s))
    ensures r.Success? ==> r.value == SignedValue(s)
    ensures r.Failure? ==> r.error.func == "Atoi" && r.error.num == s
    ensures r.Failure? && r.error.err == ErrSyntax ==> !WellFormed(s)
    ensures r.Failure? && WellFormed(s) ==> r.error.err == ErrRange
  {
    if s == [] then Failure(NumError("Atoi", s, ErrSyntax))
    else
      var digits := Unsigned(s);
      var k := DigitPrefix(digits);
      var neg := s[0] == '-';
      assert WellFormed(s) ==> digits[..k] == digits;
      if digits == [] then Failure(NumError("Atoi", s, ErrSyntax))
      else if DigitsValue(digits[..k]) > MaxUint64 then Failure(NumError("Atoi", s, ErrRange))
      else if k < |digits| then Failure(NumError("Atoi", s, ErrSyntax))
      else
        assert digits[..k] == digits;
        var v: int := DigitsValue(digits);
        if !neg && v > MaxInt64 then Failure(NumError("Atoi", s, ErrRange))
        else if neg && v > -MinInt64 then Failure(NumError("Atoi", s, ErrRange))
        else Success(if neg then -v else v)
  }

  lemma {:induction false} DigitsValueBound(s: string)
    requires AllDigits(s)
    ensures DigitsValue(s) < Pow10(|s|)
  {
    if s != [] {
      DigitsValueBound(s[..|s| - 1]);
    }
  }

  /** Go's `Atoi` takes a shortcut for inputs shorter than 19 bytes that never
      reports a range error; the general definition agrees with it there. */
  lemma ShortInputNeverOutOfRange(s: string)
    requires |s| < 19
    ensures Atoi(s).Failure? ==> Atoi(s).error.err == ErrSyntax
  {
    if s != [] {
      var digits := Unsigned(s);
      var k := DigitPrefix(digits);
      DigitsValueBound(digits[..k]);
      Pow10Eighteen();
      PowMonotone(k, 18);
      assert DigitsValue(digits[..k]) < 1_000_000_000_000_000_000;
      if k == |digits| {
        assert digits[..k] == digits;
      }
    }
  }

  lemma Pow10Eighteen()
    ensures Pow10(18) == 1_000_000_000_000_000_000
  {
    assert Pow10(3) == 1000;
    assert Pow10(6) == 1000 * Pow10(3);
    assert Pow10(9) == 1000 * Pow10(6);
    assert Pow10(12) == 1000 * Pow10(9);
    assert Pow10(15) == 1000 * Pow10(12);
    assert Pow10(18) == 1000 * Pow10(15);
  }

  lemma {:induction false} PowMonotone(a: nat, b: nat)
    requires a <= b
    ensures Pow10(a) <= Pow10(b)
  {
    if a < b {
      PowMonotone(a, b - 1);
    }
  }

  /** The decimal digits of `n`, without leading zeros. */
  function NatToDecimal(n: nat): (s: string)
    ensures s != [] && AllDigits(s)
    ensures s[0] == '0' ==> n == 0
  {
    if n < 10 then [DigitChar(n)] else NatToDecimal(n / 10) + [DigitChar(n % 10)]
  }

  /** The rendering of an integer by Go's `%d` verb (and `strconv.Itoa`). */
  function FormatInt(n: int): (s: string)
    ensures s != []
    ensures n < 0 <==> s[0] == '-'
  {
    if n < 0 then "-" + NatToDecimal(-n) else NatToDecimal(n)
  }

  lemma {:induction false} NatToDecimalValue(n: nat)
    ensures DigitsValue(NatToDecimal(n)) == n
  {
    if n >= 10 {
      NatToDecimalValue(n / 10);
      var s := NatToDecimal(n);
      assert s[..|s| - 1] == NatToDecimal(n / 10);
    }
  }

  /** Every 64-bit integer survives rendering with `%d` and parsing with Atoi. */
  lemma AtoiFormatInt(n: int)
    requires InInt64(n)
    ensures WellFormed(FormatInt(n))
    ensures Atoi(FormatInt(n)) == Success(n)
  {
    var s := FormatInt(n);
    if n < 0 {
      assert Unsigned(s) == NatToDecimal(-n);
      NatToDecimalValue(-n);
    } else {
      NatToDecimalValue(n);
    }
  }

  /** Rendering with `%d` loses nothing: distinct integers render differently. */
  lemma FormatIntInjective(m: int, n: int)
    requires InInt64(m) && InInt64(n)
    requires FormatInt(m) == FormatInt(n)
    ensures m == n
  {
    AtoiFormatInt(m);
    AtoiFormatInt(n);
  }

  function HexDigit(d: nat): char
    requires d < 16
  {
    if d < 10 then DigitChar(d) else ('a' as int + d - 10) as char
  }

  /** How `strconv.Quote` writes one character: the quote and the backslash
      are escaped, as are the control characters with a named escape; other
      ASCII control characters become `\xNN`. */
  function EscapeChar(c: char): string {
    if c == '"' then "\\\""
    else if c == '\\' then "\\\\"
    else if c as int == 7 then "\\a"
    else if c as int == 8 then "\\b"
    else if c as int == 12 then "\\f"
    else if c == '\n' then "\\n"
    else if c == '\r' then "\\r"
    else if c == '\t' then "\\t"
    else if c as int == 11 then "\\v"
    else if c as int < 0x20 || c as int == 0x7f then "\\x" + [HexDigit(c as int / 16), HexDigit(c as int % 16)]
    else [c]
  }

  predicate NeedsEscape(c: char) {
    EscapeChar(c) != [c]
  }

  function QuoteChars(s: string): string {
    if s == [] then [] else EscapeChar(s[0]) + QuoteChars(s[1..])
  }

  /** `strconv.Quote`: the string in double quotes, with escapes. */
  function Quote(s: string): string {
    "\"" + QuoteChars(s) + "\""
  }

  lemma {:induction false} QuoteCharsPlain(s: string)
    requires forall i :: 0 <= i < |s| ==> !NeedsEscape(s[i])
    ensures QuoteChars(s) == s
  {
    if s != [] {
      QuoteCharsPlain(s[1..]);
    }
  }

  /** A string with nothing to escape is quoted by wrapping it in double quotes,
      so its NumError text contains the input verbatim. */
  lemma QuotePlain(s: string)
    requires forall i :: 0 <= i < |s| ==> !NeedsEscape(s[i])
    ensures Quote(s) == "\"" + s + "\""
  {
    QuoteCharsPlain(s);
  }

  /** A string that starts with neither a sign nor a digit is a syntax error. */
  lemma NonDigitStartIsSyntaxError(s: string)
    requires s != [] && !IsDigit(s[0]) && s[0] != '+' && s[0] != '-'
    ensures Atoi(s) == Failure(NumError("Atoi", s, ErrSyntax))
  {
    assert DigitPrefix(Unsigned(s)) == 0;
    assert Unsigned(s)[..0] == [];
  }

  /** The text of an Atoi syntax error: the input, quoted, between fixed words. */
  lemma AtoiSyntaxErrorText(s: string)
    ensures NumError("Atoi", s, ErrSyntax).Error() == "strconv.Atoi: parsing " + Quote(s) + ": invalid syntax"
  {
    assert "strconv." + "Atoi" + ": parsing " == "strconv.Atoi: parsing ";
  }

  lemma NotANumberQuoted(s: string)
    requires s == "NotANumber"
    ensures Quote(s) == "\"" + s + "\""
  {
    forall i | 0 <= i < |s|
      ensures !NeedsEscape(s[i])
    {
      assert 'A' <= s[i] <= 'z' && s[i] != '\\';
    }
    QuotePlain(s);
  }

  /** The Atoi syntax error on a string that quotes plainly names it between
      double quotes. */
  lemma PlainSyntaxErrorText(s: string)
    requires Quote(s) == "\"" + s + "\""
    ensures NumError("Atoi", s, ErrSyntax).Error() == "strconv.Atoi: parsing \"" + s + "\": invalid syntax"
  {
    AtoiSyntaxErrorText(s);
    assert "strconv.Atoi: parsing " + ("\"" + s + "\"") + ": invalid syntax"
        == "strconv.Atoi: parsing \"" + s + "\": invalid syntax";
  }

  /** The error text the converter's test expects for the age "NotANumber":
      `strconv.Atoi: parsing "NotANumber": invalid syntax`. */
  lemma NotANumberMessage(s: string)
    requires s == "NotANumber"
    ensures Atoi(s).Failure?
    ensures Atoi(s).error.Error() == "strconv.Atoi: parsing \"" + s + "\": invalid syntax"
  {
    NonDigitStartIsSyntaxError(s);
    NotANumberQuoted(s);
    PlainSyntaxErrorText(s);
  }
}
