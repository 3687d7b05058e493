/**
 * Language-neutral text helpers shared by the models: splitting on a separator
 * (Python's `str.split(sep)` and JavaScript's `String.prototype.split(sep)` agree for a
 * one-character separator), joining, and decimal digits.
 */
module Strings {

  // ---------------------------------------------------------------------------
  // Digits

  predicate IsDigit(c: char) { '0' <= c <= '9' }

  /** A digit of the given radix (10 or 16); hexadecimal letters in either case. */
  predicate IsRadixDigit(c: char, radix: nat) {
    if radix == 16 then IsDigit(c) || 'a' <= c <= 'f' || 'A' <= c <= 'F'
    else IsDigit(c)
  }

  function RadixDigitValue(c: char, radix: nat): (d: nat)
    requires IsRadixDigit(c, radix)
  {
    if IsDigit(c) then (c as int) - ('0' as int)
    else if 'a' <= c <= 'f' then (c as int) - ('a' as int) + 10
    else (c as int) - ('A' as int) + 10
  }

  function DigitChar(d: nat): (c: char)
    requires d < 10
    ensures IsDigit(c) && RadixDigitValue(c, 10) == d
  {
    (('0' as int) + d) as char
  }

  predicate AllRadixDigits(s: string, radix: nat) {
    forall i :: 0 <= i < |s| ==> IsRadixDigit(s[i], radix)
  }

  predicate AllDigits(s: string) { AllRadixDigits(s, 10) }

  /** The number a run of digits denotes, most significant digit first. */
  function RadixValue(s: string, radix: nat): nat
    requires AllRadixDigits(s, radix)
    decreases |s|
  {
    if |s| == 0 then 0
    else RadixValue(s[..|s| - 1], radix) * radix + RadixDigitValue(s[|s| - 1], radix)
  }

  function DigitsValue(s: string): nat
    requires AllDigits(s)
  {
    RadixValue(s, 10)
  }

  /** Appending one digit multiplies by the radix and adds it. */
  lemma RadixValueSnoc(s: string, c: char, radix: nat)
    requires AllRadixDigits(s, radix) && IsRadixDigit(c, radix)
    ensures AllRadixDigits(s + [c], radix)
    ensures RadixValue(s + [c], radix) == RadixValue(s, radix) * radix + RadixDigitValue(c, radix)
  {
    assert (s + [c])[..|s + [c]| - 1] == s;
  }

  // ---------------------------------------------------------------------------
  // Decimal text of integers (`str(n)` in Python, `String(n)` / `n.toString()` in JavaScript)

  /** Shortest decimal text of `n`: digits only, no leading zero except for 0 itself. */
  function NatToString(n: nat): (s: string)
    ensures |s| >= 1 && AllDigits(s)
    ensures DigitsValue(s) == n
    ensures s[0] == '0' <==> n == 0
    decreases n
  {
    if n < 10 then
      RadixValueSnoc("", DigitChar(n), 10);
      assert "" + [DigitChar(n)] == [DigitChar(n)];
      [DigitChar(n)]
    else
      var hi := NatToString(n / 10);
      RadixValueSnoc(hi, DigitChar(n % 10), 10);
      hi + [DigitChar(n % 10)]
  }

  /** `str(i)` / `String(i)`: a minus sign for negative numbers, then the digits. */
  function IntToString(i: int): (s: string)
    ensures |s| >= 1
    ensures i < 0 <==> s[0] == '-'
  {
    if i < 0 then "-" + NatToString(-i) else NatToString(i)
  }


  // ---------------------------------------------------------------------------
  // Splitting and joining on a one-character separator

  /** The pieces of `s` between occurrences of `sep`; always at least one piece. */
  function Split(s: string, sep: char): (parts: seq<string>)
    ensures |parts| >= 1
    ensures forall i :: 0 <= i < |parts| ==> sep !in parts[i]
    decreases |s|
  {
    if |s| == 0 then [""]
    else
      var rest := Split(s[1..], sep);
      if s[0] == sep then [""] + rest
      else [[s[0]] + rest[0]] + rest[1..]
  }

  /** The pieces with `sep` between consecutive ones (Python's `sep.join`, JavaScript's `join`). */
  function Join(parts: seq<string>, sep: char): string
    requires |parts| >= 1
    decreases |parts|
  {
    if |parts| == 1 then parts[0] else parts[0] + [sep] + Join(parts[1..], sep)
  }

  /** Text without the separator is one piece. */
  lemma {:induction false} SplitWithoutSeparator(s: string, sep: char)
    requires sep !in s
    ensures Split(s, sep) == [s]
    decreases |s|
  {
    if |s| > 0 {
      SplitWithoutSeparator(s[1..], sep);
      assert [s[0]] + s[1..] == s;
    }
  }

  /** A leading piece followed by the separator splits off as the first piece. */
  lemma {:induction false} SplitAfterFirst(a: string, sep: char, b: string)
    requires sep !in a
    ensures Split(a + [sep] + b, sep) == [a] + Split(b, sep)
    decreases |a|
  {
    var s := a + [sep] + b;
    if |a| == 0 {
      assert s[1..] == b;
    } else {
      assert s[1..] == a[1..] + [sep] + b;
      SplitAfterFirst(a[1..], sep, b);
      assert [a[0]] + a[1..] == a;
    }
  }

  /** Joining and splitting again gives back the pieces, when no piece holds the separator. */
  lemma {:induction false} SplitJoin(parts: seq<string>, sep: char)
    requires |parts| >= 1
    requires forall i :: 0 <= i < |parts| ==> sep !in parts[i]
    ensures Split(Join(parts, sep), sep) == parts
    decreases |parts|
  {
    if |parts| == 1 {
      SplitWithoutSeparator(parts[0], sep);
    } else {
      SplitAfterFirst(parts[0], sep, Join(parts[1..], sep));
      SplitJoin(parts[1..], sep);
      assert [parts[0]] + parts[1..] == parts;
    }
  }

  /** Splitting and joining again gives back the text. */
  lemma {:induction false} JoinSplit(s: string, sep: char)
    ensures Join(Split(s, sep), sep) == s
    decreases |s|
  {
    if |s| > 0 {
      JoinSplit(s[1..], sep);
      var rest := Split(s[1..], sep);
      if s[0] != sep {
        if |rest| > 1 {
          assert ([[s[0]] + rest[0]] + rest[1..])[1..] == rest[1..];
        }
      } else {
        assert ([""] + rest)[1..] == rest;
      }
    }
  }

  /** Joining pieces that do not hold `c` with another separator gives text without `c`. */
  lemma {:induction false} JoinAvoids(parts: seq<string>, sep: char, c: char)
    requires |parts| >= 1 && c != sep
    requires forall i :: 0 <= i < |parts| ==> c !in parts[i]
    ensures c !in Join(parts, sep)
    decreases |parts|
  {
    if |parts| > 1 {
      JoinAvoids(parts[1..], sep, c);
    }
  }

  /** The number of occurrences of `c` in `s`. */
  function Count(s: string, c: char): nat
    decreases |s|
  {
    if |s| == 0 then 0 else (if s[0] == c then 1 else 0) + Count(s[1..], c)
  }

  lemma {:induction false} CountAppend(a: string, b: string, c: char)
    ensures Count(a + b, c) == Count(a, c) + Count(b, c)
    decreases |a|
  {
    if |a| == 0 {
      assert a + b == b;
    } else {
      assert (a + b)[1..] == a[1..] + b;
      CountAppend(a[1..], b, c);
    }
  }

  lemma {:induction false} CountAbsent(s: string, c: char)
    requires c !in s
    ensures Count(s, c) == 0
    decreases |s|
  {
    if |s| > 0 {
      CountAbsent(s[1..], c);
    }
  }

  /** Joining n pieces that do not hold the separator puts exactly n - 1 separators in the text. */
  lemma {:induction false} JoinSeparatorCount(parts: seq<string>, sep: char)
    requires |parts| >= 1
    requires forall i :: 0 <= i < |parts| ==> sep !in parts[i]
    ensures Count(Join(parts, sep), sep) == |parts| - 1
    decreases |parts|
  {
    CountAbsent(parts[0], sep);
    if |parts| > 1 {
      JoinSeparatorCount(parts[1..], sep);
      CountAppend(parts[0], [sep], sep);
      CountAppend(parts[0] + [sep], Join(parts[1..], sep), sep);
    }
  }

  // ---------------------------------------------------------------------------
  // Trimming, with the whitespace class of the language in question

  /** `s` without its leading characters of class `space`. */
  function TrimStartBy(s: string, space: char -> bool): (t: string)
    ensures |t| <= |s| && t == s[|s| - |t|..]
    ensures |t| > 0 ==> !space(t[0])
    ensures forall i :: 0 <= i < |s| - |t| ==> space(s[i])
    decreases |s|
  {
    if |s| > 0 && space(s[0]) then TrimStartBy(s[1..], space) else s
  }

  /** `s` without its trailing characters of class `space`. */
  function TrimEndBy(s: string, space: char -> bool): (t: string)
    ensures |t| <= |s| && t == s[..|t|]
    ensures |t| > 0 ==> !space(t[|t| - 1])
    ensures forall i :: |t| <= i < |s| ==> space(s[i])
    decreases |s|
  {
    if |s| > 0 && space(s[|s| - 1]) then TrimEndBy(s[..|s| - 1], space) else s
  }

  function TrimBy(s: string, space: char -> bool): string {
    TrimEndBy(TrimStartBy(s, space), space)
  }

  /** Text that neither starts nor ends with a space is left alone. */
  lemma TrimByUnchanged(s: string, space: char -> bool)
    requires |s| > 0 && !space(s[0]) && !space(s[|s| - 1])
    ensures TrimBy(s, space) == s
  {
    assert TrimStartBy(s, space) == s;
  }
}
