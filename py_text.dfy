/** Python's `int(s)` on a string, as the serial bridge uses it to read a pump id out of a topic. */
module PyText {
  import opened Common
  import opened Strings

  /** ASCII white space as `str.strip` and `int()` skip it. */
  predicate IsPySpace(c: char) {
    var n := c as int;
    (0x09 <= n <= 0x0D) || (0x1C <= n <= 0x20)
  }

  /** Digits with single underscores between them, as `int()` allows ("1_000"). */
  predicate IsPyDigitRun(u: string) {
    && |u| > 0
    && IsDigit(u[0]) && IsDigit(u[|u| - 1])
    && (forall i :: 0 <= i < |u| ==> IsDigit(u[i]) || u[i] == '_')
    && (forall i :: 0 <= i < |u| - 1 && u[i] == '_' ==> u[i + 1] != '_')
  }

  function WithoutUnderscores(u: string): (d: string)
    requires forall i :: 0 <= i < |u| ==> IsDigit(u[i]) || u[i] == '_'
    ensures AllDigits(d)
    ensures AllDigits(u) ==> d == u
    decreases |u|
  {
    if |u| == 0 then ""
    else (if u[0] == '_' then "" else [u[0]]) + WithoutUnderscores(u[1..])
  }

  /**
   * `int(s)`: white space around the number is ignored, an optional sign, then a run of
   * decimal digits; anything else raises ValueError, which is `None` here.
   */
  function ParseInt(s: string): Option<int> {
    ParseSigned(TrimBy(s, IsPySpace))
  }

  /** An optional sign, then a digit run. */
  function ParseSigned(t: string): Option<int> {
    var neg := |t| > 0 && t[0] == '-';
    var u := if |t| > 0 && (t[0] == '-' || t[0] == '+') then t[1..] else t;
    if IsPyDigitRun(u) then
      var m: int := DigitsValue(WithoutUnderscores(u));
      Some(if neg then -m else m)
    else None
  }

  /** Plain digits, with or without a minus sign in front, read as their value. */
  lemma ParseSignedOfDigits(u: string)
    requires |u| > 0 && AllDigits(u)
    ensures ParseSigned(u) == Some(DigitsValue(u) as int)
    ensures ParseSigned("-" + u) == Some(-(DigitsValue(u) as int))
  {
    assert IsDigit(u[0]) && IsDigit(u[|u| - 1]);
    assert IsPyDigitRun(u);
    assert ("-" + u)[1..] == u;
  }

  lemma NatTextTrimmed(n: nat)
    ensures TrimBy(NatToString(n), IsPySpace) == NatToString(n)
  {
    var u := NatToString(n);
    assert IsDigit(u[0]) && IsDigit(u[|u| - 1]);
    TrimByUnchanged(u, IsPySpace);
  }

  lemma NegativeTextTrimmed(n: nat)
    ensures TrimBy("-" + NatToString(n), IsPySpace) == "-" + NatToString(n)
  {
    var u := NatToString(n);
    var t := "-" + u;
    assert t[|t| - 1] == u[|u| - 1] && IsDigit(u[|u| - 1]);
    TrimByUnchanged(t, IsPySpace);
  }

  lemma ParseIntOfTrimmed(t: string)
    ensures ParseInt(t) == ParseSigned(TrimBy(t, IsPySpace))
  {
  }

  /** `int(str(n)) == n` for a natural number. */
  lemma ParseIntOfNat(n: nat)
    ensures ParseInt(NatToString(n)) == Some(n)
  {
    NatTextTrimmed(n);
    ParseIntOfTrimmed(NatToString(n));
    ParseSignedOfDigits(NatToString(n));
  }

  /** `int("-" + str(n)) == -n`. */
  lemma ParseIntOfNegative(n: nat)
    ensures ParseInt("-" + NatToString(n)) == Some(-(n as int))
  {
    NegativeTextTrimmed(n);
    ParseIntOfTrimmed("-" + NatToString(n));
    ParseSignedOfDigits(NatToString(n));
  }

  /** `int(str(i)) == i`. */
  lemma ParseIntOfDecimal(i: int)
    ensures ParseInt(IntToString(i)) == Some(i)
  {
    if i < 0 {
      var n: nat := -i;
      var s := "-" + NatToString(n);
      assert IntToString(i) == s;
      ParseIntOfNegative(n);
      assert ParseInt(s) == Some(-(n as int));
    } else {
      var n: nat := i;
      var s := NatToString(n);
      assert IntToString(i) == s;
      ParseIntOfNat(n);
      assert ParseInt(s) == Some(n);
    }
  }
}
