/**
 * The profile uploader (`backend/main.py`): `POST /send-data` takes thirteen `[time,
 * concentration]` pairs, renders them as the Arduino's line `time:conc,time:conc,...\n`
 * (time as an integer, concentration with one decimal) and hands that line to the serial port.
 *
 * Floats are exact reals. What the serial port does with the line, and whether it fails, is
 * the parameter `serialOk`.
 */
module Backend {
  import opened Common
  import opened Strings
  import opened Numbers

  /** A concentration in tenths, as `.1f` rounds it: half to even on the magnitude, sign kept. */
  function Tenths(c: real): (t: int)
    ensures Abs(t as real / 10.0 - c) <= 0.05
  {
    var m := RoundHalfEven(Abs(c) * 10.0);
    if c < 0.0 then -m else m
  }

  /** `f"{c:.1f}"`: a minus sign for a negative value (even one that rounds to zero), digits, one decimal. */
  function OneDecimal(c: real): string {
    (if c < 0.0 then "-" else "") + TenthsText(RoundHalfEven(Abs(c) * 10.0))
  }

  /** A number of tenths written with one decimal: the whole part, '.', the tenths digit. */
  function TenthsText(m: nat): string {
    NatToString(m / 10) + "." + [DigitChar(m % 10)]
  }

  /** `f"{int(time)}:{concentration:.1f}"` for a pair. */
  function PairText(p: seq<real>): string
    requires |p| == 2
  {
    IntToString(Trunc(p[0])) + ":" + OneDecimal(p[1])
  }

  /** The text of a pair; a list that is not of length two fails to unpack. */
  function FormatPair(p: seq<real>): (r: Option<string>)
    ensures r.Some? <==> |p| == 2
  {
    if |p| != 2 then None else Some(PairText(p))
  }

  /** The formatted pairs, or `None` at the first pair that does not unpack. */
  function FormatPairs(data: seq<seq<real>>): (r: Option<seq<string>>)
    ensures r.Some? ==> |r.value| == |data|
    ensures r.Some? <==> forall i :: 0 <= i < |data| ==> |data[i]| == 2
    ensures r.Some? ==> forall i :: 0 <= i < |data| ==> r.value[i] == PairText(data[i])
  {
    MapSome(FormatPair, data)
  }

  /** `format_data_for_arduino`: the pairs joined by ',' and one line feed. */
  function FormatData(data: seq<seq<real>>): Option<string> {
    match FormatPairs(data)
    case None => None
    case Some(items) => Some((if |items| == 0 then "" else Join(items, ',')) + "\n")
  }

  /** Why a request fails; every failure is answered with status 500. */
  datatype Failure = WrongLength | MalformedPair | SerialError

  datatype SendReply = Success | Failed(cause: Failure)

  function StatusCode(r: SendReply): int {
    if r.Success? then 200 else 500
  }

  /** The body of a successful reply. */
  const SuccessBody := [("status", "success"), ("message", "Data sent to Arduino and monitoring complete")]

  /** The reply of `send_data` and the line handed to the serial port, if any. */
  datatype SendOutcome = SendOutcome(reply: SendReply, line: Option<string>)

  /**
   * `send_data`: the length check comes first; its HTTPException(400) is caught by the
   * handler's own `except Exception` and re-raised as a 500.
   */
  function SendData(data: seq<seq<real>>, serialOk: bool): SendOutcome {
    if |data| != 13 then SendOutcome(Failed(WrongLength), None)
    else
      match FormatData(data)
      case None => SendOutcome(Failed(MalformedPair), None)
      case Some(line) => SendOutcome(if serialOk then Success else Failed(SerialError), Some(line))
  }

  // ---------------------------------------------------------------------------
  // A reader for the Arduino line, the partner of the formatter

  /** Decimal text of an integer, with an optional minus sign. */
  function ParseDecimal(s: string): Option<int> {
    if |s| > 0 && s[0] == '-' then
      if |s| > 1 && AllDigits(s[1..]) then Some(-(DigitsValue(s[1..]) as int)) else None
    else if |s| > 0 && AllDigits(s) then Some(DigitsValue(s))
    else None
  }

  /** Text with one decimal, read as tenths. */
  function ParseTenths(s: string): Option<int> {
    var neg := |s| > 0 && s[0] == '-';
    var u := if neg then s[1..] else s;
    var parts := Split(u, '.');
    if |parts| == 2 && |parts[0]| > 0 && AllDigits(parts[0]) && |parts[1]| == 1 && IsDigit(parts[1][0]) then
      var t := (DigitsValue(parts[0]) * 10 + RadixDigitValue(parts[1][0], 10)) as int;
      Some(if neg then -t else t)
    else None
  }

  /** One item: a time and a concentration in tenths, separated by ':'. */
  function ParseItem(item: string): Option<(int, int)> {
    var fields := Split(item, ':');
    if |fields| != 2 then None
    else
      match (ParseDecimal(fields[0]), ParseTenths(fields[1]))
      case (Some(t), Some(c)) => Some((t, c))
      case _ => None
  }

  function ParseItems(items: seq<string>): (r: Option<seq<(int, int)>>)
    ensures r.Some? ==> |r.value| == |items|
    decreases |items|
  {
    if |items| == 0 then Some([])
    else
      match (ParseItem(items[0]), ParseItems(items[1..]))
      case (Some(x), Some(rest)) => Some([x] + rest)
      case _ => None
  }

  /** The pairs of an Arduino line: time and concentration in tenths. */
  function ParseArduinoLine(s: string): Option<seq<(int, int)>> {
    if |s| == 0 || s[|s| - 1] != '\n' then None
    else
      var body := s[..|s| - 1];
      if |body| == 0 then Some([]) else ParseItems(Split(body, ','))
  }

  lemma ParseDecimalOfInt(i: int)
    ensures ParseDecimal(IntToString(i)) == Some(i)
  {
    var s := IntToString(i);
    if i < 0 {
      assert s[1..] == NatToString(-i);
    }
  }

  lemma NoSeparatorInDecimal(i: int)
    ensures ',' !in IntToString(i) && ':' !in IntToString(i) && '.' !in IntToString(i)
  {
    var t := IntToString(i);
    forall k | 0 <= k < |t| ensures t[k] != ',' && t[k] != ':' && t[k] != '.' {
      if i < 0 && k > 0 {
        assert t[k] == t[1..][k - 1];
      }
    }
  }

  /** Tenths text splits at its one '.', starts with a digit, and holds no separator. */
  lemma TenthsTextShape(m: nat)
    ensures Split(TenthsText(m), '.') == [NatToString(m / 10), [DigitChar(m % 10)]]
    ensures IsDigit(TenthsText(m)[0])
    ensures ',' !in TenthsText(m) && ':' !in TenthsText(m) && '\n' !in TenthsText(m)
  {
    var whole := NatToString(m / 10);
    var digit := DigitChar(m % 10);
    NoSeparatorInDecimal(m / 10);
    assert '\n' !in whole;
    assert whole + "." + [digit] == whole + ['.'] + [digit];
    SplitAfterFirst(whole, '.', [digit]);
    SplitWithoutSeparator([digit], '.');
    assert TenthsText(m)[0] == whole[0];
  }

  /** Tenths text, with or without a minus sign, reads back as its number of tenths. */
  lemma ParseTenthsText(m: nat)
    ensures ParseTenths(TenthsText(m)) == Some(m)
    ensures ParseTenths("-" + TenthsText(m)) == Some(-(m as int))
  {
    var u := TenthsText(m);
    TenthsTextShape(m);
    assert m == (m / 10) * 10 + m % 10;
    assert ("-" + u)[1..] == u;
  }

  lemma SignedTenthsText(m: nat, negative: bool)
    ensures var t := (if negative then "-" else "") + TenthsText(m);
      && ',' !in t && ':' !in t && '\n' !in t
      && ParseTenths(t) == Some(if negative then -(m as int) else m)
  {
    TenthsTextShape(m);
    ParseTenthsText(m);
    assert "" + TenthsText(m) == TenthsText(m);
  }

  lemma OneDecimalShape(c: real)
    ensures ',' !in OneDecimal(c) && ':' !in OneDecimal(c) && '\n' !in OneDecimal(c)
    ensures ParseTenths(OneDecimal(c)) == Some(Tenths(c))
  {
    SignedTenthsText(RoundHalfEven(Abs(c) * 10.0), c < 0.0);
  }



  /** `Trunc` of the time and `Tenths` of the concentration: what the line says about a pair. */
  function Reading(p: seq<real>): (int, int)
    requires |p| == 2
  {
    (Trunc(p[0]), Tenths(p[1]))
  }

  predicate AllPairs(data: seq<seq<real>>) {
    forall i :: 0 <= i < |data| ==> |data[i]| == 2
  }

  /** The reading of every pair, in order. */
  function Readings(data: seq<seq<real>>): (r: seq<(int, int)>)
    requires AllPairs(data)
    ensures |r| == |data| && forall i :: 0 <= i < |data| ==> r[i] == Reading(data[i])
  {
    seq(|data|, i requires 0 <= i < |data| => Reading(data[i]))
  }

  /** One formatted pair splits at ':' into its time and its concentration, which read back. */
  lemma ParsePair(p: seq<real>)
    requires |p| == 2
    ensures ParseItem(PairText(p)) == Some(Reading(p))
  {
    var ts := IntToString(Trunc(p[0]));
    var cs := OneDecimal(p[1]);
    NoSeparatorInDecimal(Trunc(p[0]));
    OneDecimalShape(p[1]);
    assert ts + ":" + cs == ts + [':'] + cs;
    SplitAfterFirst(ts, ':', cs);
    SplitWithoutSeparator(cs, ':');
    ParseDecimalOfInt(Trunc(p[0]));
    assert Split(PairText(p), ':') == [ts, cs];
  }

  lemma ReadingsCons(data: seq<seq<real>>)
    requires AllPairs(data) && |data| > 0
    ensures AllPairs(data[1..]) && Readings(data) == [Reading(data[0])] + Readings(data[1..])
  {
    assert forall i :: 0 <= i < |data| - 1 ==> data[1..][i] == data[i + 1];
  }

  lemma {:induction false} ParseFormattedItems(data: seq<seq<real>>, items: seq<string>)
    requires AllPairs(data) && |items| == |data|
    requires forall i :: 0 <= i < |data| ==> items[i] == PairText(data[i])
    ensures ParseItems(items) == Some(Readings(data))
    decreases |data|
  {
    if |data| > 0 {
      ParsePair(data[0]);
      ReadingsCons(data);
      var rest, restItems := data[1..], items[1..];
      forall k | 0 <= k < |rest| ensures restItems[k] == PairText(rest[k]) {
        assert rest[k] == data[k + 1] && restItems[k] == items[k + 1];
      }
      ParseFormattedItems(rest, restItems);
    }
  }

  /** No formatted item holds a comma, so the comma-separated text splits back into the items. */
  lemma ItemsHaveNoComma(data: seq<seq<real>>, items: seq<string>)
    requires FormatPairs(data) == Some(items)
    ensures forall i :: 0 <= i < |items| ==> ',' !in items[i] && |items[i]| > 0
  {
    forall i | 0 <= i < |items| ensures ',' !in items[i] && |items[i]| > 0 {
      PairTextNoComma(data[i]);
    }
  }

  lemma PairTextNoComma(p: seq<real>)
    requires |p| == 2
    ensures ',' !in PairText(p)
  {
    NoSeparatorInDecimal(Trunc(p[0]));
    OneDecimalShape(p[1]);
  }


  /**
   * Reading the line back at ',' and then ':' gives each pair's truncated time and its
   * concentration in tenths, in order.
   */
  lemma FormatDataRoundTrip(data: seq<seq<real>>)
    requires AllPairs(data)
    ensures FormatData(data).Some?
    ensures ParseArduinoLine(FormatData(data).value) == Some(Readings(data))
  {
    var items := FormatPairs(data).value;
    ParseFormattedItems(data, items);
    if |items| > 0 {
      ItemsHaveNoComma(data, items);
      ParseJoinedLine(items);
    } else {
      assert FormatData(data).value == "\n";
    }
  }

  /** A line of comma-free, non-empty items joined by ',' splits back into those items. */
  lemma ParseJoinedLine(items: seq<string>)
    requires |items| > 0
    requires forall i :: 0 <= i < |items| ==> ',' !in items[i] && |items[i]| > 0
    ensures ParseArduinoLine(Join(items, ',') + "\n") == ParseItems(items)
  {
    var s := Join(items, ',') + "\n";
    SplitJoin(items, ',');
    assert s[..|s| - 1] == Join(items, ',');
    JoinNonEmpty(items, ',');
  }


  lemma {:induction false} JoinNonEmpty(parts: seq<string>, sep: char)
    requires |parts| >= 1
    requires forall i :: 0 <= i < |parts| ==> |parts[i]| > 0
    ensures |Join(parts, sep)| > 0
    decreases |parts|
  {
    if |parts| > 1 {
      JoinNonEmpty(parts[1..], sep);
    }
  }

  /**
   * The line is one item per pair joined by ',', so n pairs give n - 1 commas, and it ends in
   * its only line feed.
   */
  lemma FormatDataShape(data: seq<seq<real>>)
    requires |data| >= 1
    requires AllPairs(data)
    ensures var s := FormatData(data).value;
      && Count(s, ',') == |data| - 1
      && Count(s, '\n') == 1 && s[|s| - 1] == '\n'
  {
    var items := FormatPairs(data).value;
    ItemsHaveNoComma(data, items);
    JoinSeparatorCount(items, ',');
    var body := Join(items, ',');
    assert forall i :: 0 <= i < |items| ==> '\n' !in items[i] by {
      forall i | 0 <= i < |items| ensures '\n' !in items[i] {
        NoLineFeed(data[i]);
      }
    }
    JoinAvoids(items, ',', '\n');
    CountAbsent(body, '\n');
    CountAppend(body, "\n", ',');
    CountAppend(body, "\n", '\n');
  }

  lemma NoLineFeed(p: seq<real>)
    requires |p| == 2
    ensures '\n' !in PairText(p)
  {
    var t := IntToString(Trunc(p[0]));
    forall k | 0 <= k < |t| ensures t[k] != '\n' {
      if Trunc(p[0]) < 0 && k > 0 {
        assert t[k] == t[1..][k - 1];
      }
    }
    OneDecimalShape(p[1]);
  }


  /** A payload of any length but 13 is refused with 500 before anything reaches the serial port. */
  lemma SendDataRejectsLength(data: seq<seq<real>>, serialOk: bool)
    requires |data| != 13
    ensures SendData(data, serialOk) == SendOutcome(Failed(WrongLength), None)
    ensures StatusCode(SendData(data, serialOk).reply) == 500
  {
  }

  /**
   * Thirteen well-formed pairs reach the serial port as the formatted line; the reply is
   * "success" (200) when the serial exchange succeeds and 500 otherwise.
   */
  lemma SendDataAccepts(data: seq<seq<real>>, serialOk: bool)
    requires |data| == 13
    requires AllPairs(data)
    ensures SendData(data, serialOk).line == FormatData(data)
    ensures FormatData(data).Some?
    ensures SendData(data, serialOk).reply == (if serialOk then Success else Failed(SerialError))
  {
  }

  /** A malformed pair among thirteen is a 500 and nothing is sent. */
  lemma SendDataRejectsPair(data: seq<seq<real>>, serialOk: bool)
    requires |data| == 13
    requires exists i :: 0 <= i < |data| && |data[i]| != 2
    ensures SendData(data, serialOk) == SendOutcome(Failed(MalformedPair), None)
  {
  }
}
