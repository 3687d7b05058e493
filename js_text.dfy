/**
 * The JavaScript string conversions the browser code relies on: `String.prototype.trim`,
 * the global `parseInt` with no radix, and `Number(string)`.
 */
module JsText {
  import opened Common
  import opened Strings
  import opened Numbers

  /** ECMAScript WhiteSpace and LineTerminator code points: what `trim` and `parseInt` skip. */
  predicate IsJsSpace(c: char) {
    var n := c as int;
    n == 0x09 || n == 0x0A || n == 0x0B || n == 0x0C || n == 0x0D || n == 0x20 || n == 0xA0
    || n == 0x1680 || (0x2000 <= n <= 0x200A) || n == 0x2028 || n == 0x2029 || n == 0x202F
    || n == 0x205F || n == 0x3000 || n == 0xFEFF
  }

  /** `s.trim()`. */
  function Trim(s: string): string {
    TrimBy(s, IsJsSpace)
  }

  /** The longest prefix of `s` made of radix digits. */
  function DigitPrefix(s: string, radix: nat): (d: string)
    ensures |d| <= |s| && d == s[..|d|]
    ensures AllRadixDigits(d, radix)
    ensures |d| == |s| || !IsRadixDigit(s[|d|], radix)
    decreases |s|
  {
    if |s| == 0 || !IsRadixDigit(s[0], radix) then ""
    else [s[0]] + DigitPrefix(s[1..], radix)
  }

  /**
   * `parseInt(s)`: skip leading white space, then read a signed magnitude.
   * `None` stands for NaN.
   */
  function ParseInt(s: string): Option<int> {
    ParseSigned(TrimStartBy(s, IsJsSpace))
  }

  /** An optional sign, then the magnitude. */
  function ParseSigned(t: string): Option<int> {
    if |t| > 0 && t[0] == '-' then
      match ParseMagnitude(t[1..])
      case None => None
      case Some(m) => Some(-(m as int))
    else if |t| > 0 && t[0] == '+' then
      match ParseMagnitude(t[1..])
      case None => None
      case Some(m) => Some(m)
    else
      match ParseMagnitude(t)
      case None => None
      case Some(m) => Some(m)
  }

  /**
   * The unsigned part of `parseInt`: radix 16 after "0x" or "0X", radix 10 otherwise, then as
   * many digits as there are; no digit at all is NaN, and text after the digits is ignored.
   */
  function ParseMagnitude(u: string): Option<nat> {
    var hex := |u| >= 2 && u[0] == '0' && (u[1] == 'x' || u[1] == 'X');
    var radix := if hex then 16 else 10;
    var d := DigitPrefix(if hex then u[2..] else u, radix);
    if |d| == 0 then None else Some(RadixValue(d, radix))
  }

  /** A run of digits followed by anything that is not a digit reads as that run. */
  lemma DigitPrefixOfDigits(digits: string, rest: string, radix: nat)
    requires AllRadixDigits(digits, radix)
    requires |rest| == 0 || !IsRadixDigit(rest[0], radix)
    ensures DigitPrefix(digits + rest, radix) == digits
    decreases |digits|
  {
    if |digits| == 0 {
      assert digits + rest == rest;
    } else {
      assert (digits + rest)[1..] == digits[1..] + rest;
      DigitPrefixOfDigits(digits[1..], rest, radix);
      assert [digits[0]] + digits[1..] == digits;
    }
  }

  lemma TrimStartNonSpace(s: string)
    requires |s| > 0 && (s[0] == '-' || IsDigit(s[0]))
    ensures TrimStartBy(s, IsJsSpace) == s
  {
    assert !IsJsSpace(s[0]);
  }

  /** The magnitude of a natural number's decimal text is read back, whatever non-digit follows. */
  lemma ParseMagnitudeOfNat(n: nat, rest: string)
    requires |rest| == 0 || !IsDigit(rest[0])
    requires (n == 0 && |rest| > 0) ==> rest[0] != 'x' && rest[0] != 'X'
    ensures ParseMagnitude(NatToString(n) + rest) == Some(n)
  {
    var digits := NatToString(n);
    var u := digits + rest;
    if |u| >= 2 && u[0] == '0' {
      assert |digits| == 1;
      assert u[1] == rest[0];
    }
    DigitPrefixOfDigits(digits, rest, 10);
  }

  lemma ParseSignedOfNegative(n: nat, rest: string)
    requires n > 0
    requires |rest| == 0 || !IsDigit(rest[0])
    ensures ParseSigned("-" + NatToString(n) + rest) == Some(-(n as int))
  {
    var u := NatToString(n) + rest;
    ParseMagnitudeOfNat(n, rest);
    ParseSignedMinus(u);
    MinusAssociates(NatToString(n), rest);
  }

  lemma MinusAssociates(a: string, b: string)
    ensures "-" + a + b == "-" + (a + b)
  {
  }

  lemma ParseSignedMinus(u: string)
    ensures ParseSigned("-" + u) == match ParseMagnitude(u) case None => None case Some(m) => Some(-(m as int))
  {
    assert ("-" + u)[1..] == u;
  }

  lemma ParseIntOfNegative(n: nat, rest: string)
    requires n > 0
    requires |rest| == 0 || !IsDigit(rest[0])
    ensures ParseInt("-" + NatToString(n) + rest) == Some(-(n as int))
  {
    var s := "-" + NatToString(n) + rest;
    TrimStartNonSpace(s);
    ParseSignedOfNegative(n, rest);
    assert ParseInt(s) == ParseSigned(s);
  }

  lemma ParseIntOfNat(n: nat, rest: string)
    requires |rest| == 0 || !IsDigit(rest[0])
    requires (n == 0 && |rest| > 0) ==> rest[0] != 'x' && rest[0] != 'X'
    ensures ParseInt(NatToString(n) + rest) == Some(n as int)
  {
    var s := NatToString(n) + rest;
    assert s[0] != '-' && s[0] != '+';
    TrimStartNonSpace(s);
    ParseMagnitudeOfNat(n, rest);
    assert ParseSigned(s) == Some(n as int);
  }

  /**
   * `parseInt` reads the decimal text of an integer back, and ignores whatever follows it
   * unless that would extend the number: a further digit, or "x" after a lone "0" (hexadecimal).
   */
  lemma ParseIntOfDecimal(i: int, rest: string)
    requires |rest| == 0 || !IsDigit(rest[0])
    requires (i == 0 && |rest| > 0) ==> rest[0] != 'x' && rest[0] != 'X'
    ensures ParseInt(IntToString(i) + rest) == Some(i)
  {
    if i < 0 {
      var n: nat := -i;
      var s := "-" + NatToString(n) + rest;
      assert IntToString(i) + rest == s;
      ParseIntOfNegative(n, rest);
      assert ParseInt(s) == Some(-(n as int));
    } else {
      var n: nat := i;
      var s := NatToString(n) + rest;
      assert IntToString(i) + rest == s;
      ParseIntOfNat(n, rest);
      assert ParseInt(s) == Some(n);
    }
  }

  /** `parseInt` of text with no digit where a number should start is NaN. */
  lemma ParseIntNaN(s: string)
    requires |s| > 0 && !IsDigit(s[0]) && !IsJsSpace(s[0]) && s[0] != '-' && s[0] != '+'
    ensures ParseInt(s) == None
  {
  }

  /** Text that starts and ends with a digit is left alone by `trim`. */
  lemma TrimDigits(s: string)
    requires |s| > 0 && IsDigit(s[0]) && IsDigit(s[|s| - 1])
    ensures Trim(s) == s
  {
    assert !IsJsSpace(s[0]) && !IsJsSpace(s[|s| - 1]);
  }

  /** An unsigned decimal literal without exponent: "12", "12.", ".5", "12.50". */
  function UnsignedDecimal(u: string): Option<real> {
    var parts := Split(u, '.');
    if |parts| == 1 then
      if |u| > 0 && AllDigits(u) then Some(DigitsValue(u) as real) else None
    else if |parts| == 2 && AllDigits(parts[0]) && AllDigits(parts[1]) && |parts[0]| + |parts[1]| > 0 then
      Some(DigitsValue(parts[0]) as real + DigitsValue(parts[1]) as real / Pow10(|parts[1]|) as real)
    else None
  }

  /**
   * `Number(s)` for a string: white space around the number is ignored, empty text is 0, and a
   * signed decimal literal gives its value. `None` stands for NaN.
   */
  function ToNumber(s: string): Option<real> {
    var t := Trim(s);
    if |t| == 0 then Some(0.0)
    else
      var neg := t[0] == '-';
      var u := if t[0] == '-' || t[0] == '+' then t[1..] else t;
      match UnsignedDecimal(u)
      case None => None
      case Some(v) => Some(if neg then -v else v)
  }

  /** `Number` reads the decimal text of a natural number back. */
  lemma ToNumberOfNat(n: nat)
    ensures ToNumber(NatToString(n)) == Some(n as real)
  {
    var s := NatToString(n);
    assert !IsJsSpace(s[0]) && !IsJsSpace(s[|s| - 1]);
    assert Trim(s) == s;
    assert '.' !in s;
    SplitWithoutSeparator(s, '.');
  }
}
