/**
 * The scalar values a parsed mapping file hands to PHP, and the PHP
 * conversions the service applies to them: truthiness, the `(int)` cast
 * and the decimal rendering of an int inside a string.
 */
module PhpValues {

  /** A YAML scalar as the parser returns it. */
  datatype Scalar = Null | Bool(b: bool) | Int(i: int) | Str(s: string)

  /** The bounds of PHP's 64-bit integer type. */
  const IntMax: int := 0x7FFF_FFFF_FFFF_FFFF
  const IntMin: int := -0x8000_0000_0000_0000

  /** `isset($v)`: a present key whose value is not null. */
  predicate IsSet(v: Scalar)
  {
    !v.Null?
  }

  /** PHP truthiness: null, false, 0, "" and "0" are false; all else is true. */
  predicate Truthy(v: Scalar)
  {
    match v
    case Null => false
    case Bool(b) => b
    case Int(i) => i != 0
    case Str(s) => s != "" && s != "0"
  }

  predicate IsDigit(c: char)
  {
    '0' <= c <= '9'
  }

  predicate AllDigits(s: string)
  {
    forall i :: 0 <= i < |s| ==> IsDigit(s[i])
  }

  function DigitChar(d: nat): (c: char)
    requires d < 10
    ensures IsDigit(c)
  {
    ('0' as int + d) as char
  }

  function DigitValue(c: char): nat
    requires IsDigit(c)
  {
    c as int - '0' as int
  }

  /** The decimal digits of `n`, most significant first, without leading zeros. */
  function NatToDecimal(n: nat): (s: string)
    ensures |s| >= 1 && AllDigits(s)
    decreases n
  {
    if n < 10 then [DigitChar(n)] else NatToDecimal(n / 10) + [DigitChar(n % 10)]
  }

  /** `(string)$n` for an int: its decimal form, with a minus sign when negative. */
  function IntToDecimal(n: int): string
  {
    if n < 0 then "-" + NatToDecimal(-n) else NatToDecimal(n)
  }

  /** The value of a run of decimal digits, most significant first. */
  function DigitsValue(s: string): nat
    requires AllDigits(s)
  {
    if s == [] then 0 else DigitsValue(s[..|s| - 1]) * 10 + DigitValue(s[|s| - 1])
  }

  /** The longest prefix of `s` made of digits. */
  function LeadingDigits(s: string): (r: string)
    ensures AllDigits(r) && |r| <= |s| && r == s[..|r|]
    ensures |r| < |s| ==> !IsDigit(s[|r|])
  {
    if s != [] && IsDigit(s[0]) then [s[0]] + LeadingDigits(s[1..]) else []
  }

  /** The whitespace PHP skips before a numeric string. */
  predicate IsNumericSpace(c: char)
  {
    c == ' ' || c == '\t' || c == '\n' || c == '\r' || c == '\U{B}' || c == '\U{C}'
  }

  function SkipNumericSpace(s: string): (r: string)
    ensures |r| <= |s| && r == s[|s| - |r|..]
    ensures r == [] || !IsNumericSpace(r[0])
  {
    if s != [] && IsNumericSpace(s[0]) then SkipNumericSpace(s[1..]) else s
  }

  /** Saturation into the 64-bit range, as PHP does for an out-of-range numeric string. */
  function Clamp(n: int): (r: int)
    ensures IntMin <= r <= IntMax
    ensures IntMin <= n <= IntMax ==> r == n
    ensures n > IntMax ==> r == IntMax
    ensures n < IntMin ==> r == IntMin
  {
    if n > IntMax then IntMax else if n < IntMin then IntMin else n
  }

  /**
   * `(int)$s`: leading whitespace, an optional sign and the leading digits
   * give the value; a string with no leading digits gives 0.
   */
  function StringToInt(s: string): int
  {
    Clamp(SignedValue(SkipNumericSpace(s)))
  }

  /** The value of an optional sign followed by the leading digits. */
  function SignedValue(t: string): int
  {
    if t != [] && t[0] == '-' then -(DigitsValue(LeadingDigits(t[1..])) as int)
    else if t != [] && t[0] == '+' then DigitsValue(LeadingDigits(t[1..]))
    else DigitsValue(LeadingDigits(t))
  }

  /** `(int)$v` for a scalar. */
  function IntCast(v: Scalar): int
  {
    match v
    case Null => 0
    case Bool(b) => if b then 1 else 0
    case Int(i) => i
    case Str(s) => StringToInt(s)
  }

  /** `(string)$v` for a scalar, as PHP coerces an argument declared `string`. */
  function ToPhpString(v: Scalar): string
  {
    match v
    case Null => ""
    case Bool(b) => if b then "1" else ""
    case Int(i) => IntToDecimal(i)
    case Str(s) => s
  }

  lemma {:induction false} DigitsOfDecimal(n: nat)
    ensures DigitsValue(NatToDecimal(n)) == n
    decreases n
  {
    var s := NatToDecimal(n);
    if n >= 10 {
      DigitsOfDecimal(n / 10);
      assert s[..|s| - 1] == NatToDecimal(n / 10);
    }
  }

  lemma {:induction false} LeadingDigitsOfDigits(s: string)
    requires AllDigits(s)
    ensures LeadingDigits(s) == s
  {
    if s != [] {
      LeadingDigitsOfDigits(s[1..]);
    }
  }

  lemma NothingToSkip(s: string)
    requires s != [] && !IsNumericSpace(s[0])
    ensures SkipNumericSpace(s) == s
  {
  }

  /** A string that starts with a digit is read by its leading digits alone. */
  lemma UnsignedValue(s: string)
    requires s != [] && IsDigit(s[0])
    ensures StringToInt(s) == Clamp(DigitsValue(LeadingDigits(s)))
  {
    NothingToSkip(s);
  }

  /** A minus sign followed by a digit negates the value of the digits. */
  lemma NegativeValue(s: string)
    requires |s| >= 2 && s[0] == '-' && IsDigit(s[1])
    ensures StringToInt(s) == Clamp(-(DigitsValue(LeadingDigits(s[1..])) as int))
  {
    NothingToSkip(s);
    SignedNegative(s);
    ReadsSign(s);
  }

  /** With no whitespace to skip, the cast is the clamped signed value. */
  lemma ReadsSign(t: string)
    requires SkipNumericSpace(t) == t
    ensures StringToInt(t) == Clamp(SignedValue(t))
  {
  }

  lemma SignedNegative(t: string)
    requires t != [] && t[0] == '-'
    ensures SignedValue(t) == -(DigitsValue(LeadingDigits(t[1..])) as int)
  {
  }

  /**
   * The `(int)` cast reads back every 64-bit int from its decimal form:
   * the row number written into a range is the number it was made from.
   */
  lemma DecimalRoundTrip(n: int)
    requires IntMin <= n <= IntMax
    ensures StringToInt(IntToDecimal(n)) == n
  {
    var m: nat := if n < 0 then -n else n;
    var d := NatToDecimal(m);
    DigitsOfDecimal(m);
    LeadingDigitsOfDigits(d);
    if n < 0 {
      assert ("-" + d)[1..] == d;
      NegativeValue("-" + d);
    } else {
      UnsignedValue(d);
    }
  }
}
