/**
 * The glucose-profile editor (`frontend/js/write.js`): a 13-point preview profile on the grid
 * 0, 5, ..., 60 minutes, replaced by a constant blend of two pump concentrations, by a
 * simulated pattern, or by an uploaded CSV, and posted to the backend.
 *
 * The page's module-level state (`glucosePreviewData`, `csvData`, the apply button and the
 * status line) is the class `WritePage`. A form field read with `parseFloat` is a parameter of
 * type `Option<real>` (`None` for NaN); floats are exact reals.
 */
module WritePage {
  import opened Common
  import opened Strings
  import opened Numbers
  import JsText

  /** A preview point `[time, concentration]`, in minutes and mM. */
  type Point = (real, real)

  /** `timeSteps`. */
  function TimeSteps(): (ts: seq<int>)
    ensures |ts| == 13
  {
    seq(13, i => i * 5)
  }

  /** The grid runs from 0 to 60 minutes in steps of 5. */
  lemma TimeStepsGrid()
    ensures TimeSteps()[0] == 0 && TimeSteps()[12] == 60
    ensures forall i :: 0 <= i < 12 ==> TimeSteps()[i + 1] == TimeSteps()[i] + 5
  {
  }

  /** The profile with concentration `c` at every grid step. */
  function ConstantProfile(c: real): (p: seq<Point>)
    ensures |p| == 13
  {
    seq(13, i requires 0 <= i < 13 => (TimeSteps()[i] as real, c))
  }

  /** The preview the page starts with: 15 mM throughout. */
  function DefaultPreview(): seq<Point> {
    ConstantProfile(15.0)
  }

  /**
   * `calculateCombinedGlucose`: 0 for a ratio outside [0, 1], otherwise the blend rounded to two
   * decimals.
   */
  function CombinedGlucose(ratio: real, g1: real, g2: real): (c: real)
    ensures (ratio < 0.0 || ratio > 1.0) ==> c == 0.0
    ensures 0.0 <= ratio <= 1.0 ==> Abs(c - (g1 * ratio + g2 * (1.0 - ratio))) <= 0.005
  {
    if ratio < 0.0 || ratio > 1.0 then 0.0
    else ToFixed2(g1 * ratio + g2 * (1.0 - ratio))
  }

  /** All of pump 1 gives pump 1's concentration, none of it pump 2's (for two-decimal values). */
  lemma CombinedGlucoseEnds(k1: int, k2: int)
    ensures CombinedGlucose(1.0, k1 as real / 100.0, k2 as real / 100.0) == k1 as real / 100.0
    ensures CombinedGlucose(0.0, k1 as real / 100.0, k2 as real / 100.0) == k2 as real / 100.0
  {
    var g1, g2 := k1 as real / 100.0, k2 as real / 100.0;
    assert g1 * 1.0 + g2 * (1.0 - 1.0) == g1;
    assert g1 * 0.0 + g2 * (1.0 - 0.0) == g2;
    ToFixed2Hundredths(k1);
    ToFixed2Hundredths(k2);
  }

  /** A blend of two concentrations between whole bounds stays between them. */
  lemma CombinedGlucoseWithin(ratio: real, g1: real, g2: real, lo: nat, hi: nat)
    requires 0.0 <= ratio <= 1.0
    requires lo as real <= g1 <= hi as real && lo as real <= g2 <= hi as real
    ensures lo as real <= CombinedGlucose(ratio, g1, g2) <= hi as real
  {
    BlendAbove(ratio, g1, g2, lo as real);
    BlendBelow(ratio, g1, g2, hi as real);
    ToFixed2Within(g1 * ratio + g2 * (1.0 - ratio), lo, hi);
  }

  /** `parseFloat(...) || d`: NaN and 0 both fall back to `d`. */
  function OrDefault(v: Option<real>, d: real): real {
    if v.None? || v.value == 0.0 then d else v.value
  }

  /** What a press of "update pumps" does to the preview. */
  datatype ManualResult = RatioOutOfRange | ManualProfile(points: seq<Point>)

  /**
   * The manual handler: a ratio outside [0, 1] is refused; otherwise every grid step gets the
   * blend of the two concentrations.
   */
  function ManualUpdate(ratioIn: Option<real>, g1In: Option<real>, g2In: Option<real>): (m: ManualResult)
    ensures m.ManualProfile? <==> 0.0 <= OrDefault(ratioIn, 0.0) <= 1.0
    ensures m.ManualProfile? ==> |m.points| == 13 && forall i :: 0 <= i < 13 ==>
      m.points[i] == (TimeSteps()[i] as real,
                      CombinedGlucose(OrDefault(ratioIn, 0.0), OrDefault(g1In, 15.0), OrDefault(g2In, 15.0)))
  {
    var ratio := OrDefault(ratioIn, 0.0);
    if ratio < 0.0 || ratio > 1.0 then RatioOutOfRange
    else ManualProfile(ConstantProfile(CombinedGlucose(ratio, OrDefault(g1In, 15.0), OrDefault(g2In, 15.0))))
  }

  /**
   * Blank (or zero) concentration fields mean 15 mM, so with both blank any accepted ratio gives
   * the page's default profile back.
   */
  lemma ManualBlankFields(ratioIn: Option<real>)
    requires 0.0 <= OrDefault(ratioIn, 0.0) <= 1.0
    ensures ManualUpdate(ratioIn, None, Some(0.0)) == ManualProfile(DefaultPreview())
  {
    var r := OrDefault(ratioIn, 0.0);
    assert 15.0 * r + 15.0 * (1.0 - r) == 1500 as real / 100.0;
    ToFixed2Hundredths(1500);
  }

  /** The simulated patterns. The sine, meal and random patterns are not part of this model. */
  datatype Variation =
    | Square     // toggles every 10 minutes between base - amplitude and base + amplitude
    | Unshaped   // a pattern name the switch does not match: the base value throughout

  /** The value before clamping at minute `t`. */
  function RawValue(t: int, base: real, amplitude: real, kind: Variation): real {
    match kind
    case Square => base + (if (t / 10) % 2 == 0 then -amplitude else amplitude)
    case Unshaped => base
  }

  /** `Math.max(10, Math.min(20, value))` and then two decimals. */
  function SimulatedValue(t: int, base: real, amplitude: real, kind: Variation): (v: real)
    ensures 10.0 <= v <= 20.0
  {
    var clamped := Clamp(RawValue(t, base, amplitude, kind), 10.0, 20.0);
    ToFixed2Within(clamped, 10, 20);
    ToFixed2(clamped)
  }

  /** The simulator's profile: one point per grid step, each within [10, 20] mM. */
  function SimulatedProfile(base: real, amplitude: real, kind: Variation): (p: seq<Point>)
    ensures |p| == 13
    ensures forall i :: 0 <= i < 13 ==> p[i].0 == TimeSteps()[i] as real && 10.0 <= p[i].1 <= 20.0
  {
    seq(13, i requires 0 <= i < 13 =>
      (TimeSteps()[i] as real, SimulatedValue(TimeSteps()[i], base, amplitude, kind)))
  }

  /** The low and the high level of the square wave, clamped and rounded. */
  function SquareLow(base: real, amplitude: real): real {
    ToFixed2(Clamp(base - amplitude, 10.0, 20.0))
  }

  function SquareHigh(base: real, amplitude: real): real {
    ToFixed2(Clamp(base + amplitude, 10.0, 20.0))
  }

  /**
   * On the 5-minute grid, the square wave holds each level for two points: points 0, 1 are low,
   * 2, 3 high, 4, 5 low, and so on.
   */
  lemma SquareAlternates(base: real, amplitude: real, i: int)
    requires 0 <= i < 13
    ensures SimulatedProfile(base, amplitude, Square)[i].1 ==
      if (i / 2) % 2 == 0 then SquareLow(base, amplitude) else SquareHigh(base, amplitude)
  {
    var q := i / 2;
    if i % 2 == 0 {
      assert i == 2 * q;
      assert TimeSteps()[i] == 10 * q;
    } else {
      assert i == 2 * q + 1;
      assert TimeSteps()[i] == 10 * q + 5;
    }
    assert TimeSteps()[i] / 10 == q;
    assert base + -amplitude == base - amplitude;
  }

  /** A square wave that stays within [10, 20] mM is not clamped: its levels are base -/+ amplitude. */
  lemma SquareUnclamped(kb: int, ka: int)
    requires 1000 <= kb - ka <= 2000 && 1000 <= kb + ka <= 2000
    ensures SquareLow(kb as real / 100.0, ka as real / 100.0) == (kb - ka) as real / 100.0
    ensures SquareHigh(kb as real / 100.0, ka as real / 100.0) == (kb + ka) as real / 100.0
  {
    assert kb as real / 100.0 - ka as real / 100.0 == (kb - ka) as real / 100.0;
    assert kb as real / 100.0 + ka as real / 100.0 == (kb + ka) as real / 100.0;
    ToFixed2Hundredths(kb - ka);
    ToFixed2Hundredths(kb + ka);
  }

  // ---------------------------------------------------------------------------
  // CSV upload

  /** The outcome of reading a row or a whole file: the first error's message, or the value. */
  datatype Outcome<T> = Rejected(message: string) | Accepted(value: T)

  const RowCountMessage := "CSV must contain exactly 13 rows"
  const FormatMessage := "Invalid data format"
  const RangeMessage := "Concentration must be between 10 and 20 mM"

  /**
   * One row: `row.split(',').map(Number)` read as `[time, concentration]`; a missing second
   * field is `undefined`, which is NaN, and fields after the second are ignored.
   */
  function ParseRow(row: string): (r: Outcome<Point>)
    ensures r.Accepted? ==> 10.0 <= r.value.1 <= 20.0
  {
    var fields := Split(row, ',');
    if |fields| < 2 then Rejected(FormatMessage)
    else
      match (JsText.ToNumber(fields[0]), JsText.ToNumber(fields[1]))
      case (Some(t), Some(c)) =>
        if c < 10.0 || c > 20.0 then Rejected(RangeMessage) else Accepted((t, c))
      case _ => Rejected(FormatMessage)
  }

  /**
   * `rows.map(parse)`, which throws at the first row that does not parse. The row parser is a
   * parameter so that the list logic does not depend on how one row is read.
   */
  function ParseRows<A>(parse: string -> Outcome<A>, rows: seq<string>): (r: Outcome<seq<A>>)
    ensures r.Accepted? <==> forall i :: 0 <= i < |rows| ==> parse(rows[i]).Accepted?
    ensures r.Accepted? ==> |r.value| == |rows|
    ensures r.Accepted? ==> forall i :: 0 <= i < |rows| ==> r.value[i] == parse(rows[i]).value
    decreases |rows|
  {
    if |rows| == 0 then Accepted([])
    else
      var head := parse(rows[0]);
      assert forall i :: 0 <= i < |rows| - 1 ==> rows[1..][i] == rows[i + 1];
      if head.Rejected? then Rejected(head.message)
      else
        var rest := ParseRows(parse, rows[1..]);
        if rest.Rejected? then Rejected(rest.message)
        else
          var points := [head.value] + rest.value;
          assert forall i :: 1 <= i < |rows| ==> points[i] == rest.value[i - 1];
          Accepted(points)
  }

  /** A rejection carries the message of the first row that fails. */
  lemma {:induction false} ParseRowsFirstError<A>(parse: string -> Outcome<A>, rows: seq<string>)
    requires ParseRows(parse, rows).Rejected?
    ensures exists i :: 0 <= i < |rows| && parse(rows[i]) == Rejected(ParseRows(parse, rows).message)
                        && (forall j :: 0 <= j < i ==> parse(rows[j]).Accepted?)
    decreases |rows|
  {
    var message := ParseRows(parse, rows).message;
    if parse(rows[0]).Rejected? {
      assert parse(rows[0]) == Rejected(message);
    } else {
      var tail := rows[1..];
      ParseRowsFirstError(parse, tail);
      var i :| 0 <= i < |tail| && parse(tail[i]) == Rejected(message)
        && forall j :: 0 <= j < i ==> parse(tail[j]).Accepted?;
      assert parse(rows[i + 1]) == Rejected(message);
      forall j | 0 <= j < i + 1 ensures parse(rows[j]).Accepted? {
        if j > 0 { assert rows[j] == tail[j - 1]; }
      }
    }
  }


  /** The file handler: trim the text, split it into lines, demand 13 of them, read each row. */
  function ParseCsv(text: string): (r: Outcome<seq<Point>>)
    ensures r.Accepted? ==> |r.value| == 13
    ensures r.Accepted? ==> forall i :: 0 <= i < 13 ==> 10.0 <= r.value[i].1 <= 20.0
    ensures |Split(JsText.Trim(text), '\n')| != 13 ==> r == Rejected(RowCountMessage)
  {
    var rows := Split(JsText.Trim(text), '\n');
    if |rows| != 13 then Rejected(RowCountMessage) else ParseRows(ParseRow, rows)
  }

  /** One CSV line with whole numbers. */
  function CsvLine(p: (nat, nat)): string {
    NatToString(p.0) + "," + NatToString(p.1)
  }

  /** The lines of a CSV file with one line per point. */
  function CsvLines(points: seq<(nat, nat)>): (lines: seq<string>)
    ensures |lines| == |points|
  {
    seq(|points|, i requires 0 <= i < |points| => CsvLine(points[i]))
  }

  /** A CSV file with one line per point. */
  function CsvText(points: seq<(nat, nat)>): string
    requires |points| >= 1
  {
    Join(CsvLines(points), '\n')
  }

  lemma ParseCsvLine(p: (nat, nat))
    requires 10 <= p.1 <= 20
    ensures ParseRow(CsvLine(p)) == Accepted((p.0 as real, p.1 as real))
  {
    var a, b := NatToString(p.0), NatToString(p.1);
    assert ',' !in a && ',' !in b;
    assert a + "," + b == a + [','] + b;
    SplitAfterFirst(a, ',', b);
    SplitWithoutSeparator(b, ',');
    assert Split(CsvLine(p), ',') == [a, b];
    JsText.ToNumberOfNat(p.0);
    JsText.ToNumberOfNat(p.1);
    assert !(p.1 as real < 10.0 || p.1 as real > 20.0);
  }

  /** The points as the CSV reader returns them. */
  function PointsOf(points: seq<(nat, nat)>): (r: seq<Point>)
    ensures |r| == |points|
  {
    seq(|points|, i requires 0 <= i < |points| => (points[i].0 as real, points[i].1 as real))
  }

  lemma ParseCsvLines(points: seq<(nat, nat)>)
    requires forall i :: 0 <= i < |points| ==> 10 <= points[i].1 <= 20
    ensures ParseRows(ParseRow, CsvLines(points)) == Accepted(PointsOf(points))
  {
    var lines := CsvLines(points);
    forall i | 0 <= i < |points| ensures ParseRow(lines[i]) == Accepted(PointsOf(points)[i]) {
      ParseCsvLine(points[i]);
    }
    var r := ParseRows(ParseRow, lines);
    assert r.Accepted?;
    assert r.value == PointsOf(points);
  }

  /** A CSV line is one line, and starts and ends with a digit. */
  lemma CsvLineShape(p: (nat, nat))
    ensures '\n' !in CsvLine(p) && |CsvLine(p)| > 0
    ensures IsDigit(CsvLine(p)[0]) && IsDigit(CsvLine(p)[|CsvLine(p)| - 1])
  {
    var a, b := NatToString(p.0), NatToString(p.1);
    assert '\n' !in a && '\n' !in b;
    assert CsvLine(p)[|CsvLine(p)| - 1] == b[|b| - 1];
  }

  /** The text of a CSV file built from whole numbers has no white space to trim at either end. */
  lemma CsvTextTrimmed(points: seq<(nat, nat)>)
    requires |points| >= 1
    ensures JsText.Trim(CsvText(points)) == CsvText(points)
    ensures forall i :: 0 <= i < |points| ==> '\n' !in CsvLines(points)[i]
  {
    var lines := CsvLines(points);
    forall i | 0 <= i < |points|
      ensures '\n' !in lines[i] && |lines[i]| > 0
      ensures IsDigit(lines[i][0]) && IsDigit(lines[i][|lines[i]| - 1])
    {
      CsvLineShape(points[i]);
    }
    JoinEnds(lines, '\n');
    JsText.TrimDigits(CsvText(points));
  }

  /** A file of 13 whole-number rows with concentrations in [10, 20] reads back as those points. */
  lemma CsvRoundTrip(points: seq<(nat, nat)>)
    requires |points| == 13
    requires forall i :: 0 <= i < 13 ==> 10 <= points[i].1 <= 20
    ensures ParseCsv(CsvText(points)) == Accepted(PointsOf(points))
  {
    CsvTextTrimmed(points);
    SplitJoin(CsvLines(points), '\n');
    ParseCsvLines(points);
  }

  /** A CSV line starts with the first digit of its time and ends with the last of its concentration. */
  lemma {:induction false} JoinEnds(lines: seq<string>, sep: char)
    requires |lines| >= 1
    requires forall i :: 0 <= i < |lines| ==> |lines[i]| > 0
    ensures var s := Join(lines, sep);
      |s| > 0 && s[0] == lines[0][0] && s[|s| - 1] == lines[|lines| - 1][|lines[|lines| - 1]| - 1]
    decreases |lines|
  {
    if |lines| > 1 {
      JoinEnds(lines[1..], sep);
    }
  }

  // ---------------------------------------------------------------------------
  // The page

  /** The status line: nothing yet, a progress or success message, or an error. */
  datatype Status = NoStatus | Info(message: string) | Error(message: string)

  /** How the POST to `/send-data` ended: an HTTP status, or a rejected fetch with its message. */
  datatype Fetched = Answered(code: int) | FetchFailed(reason: string)

  const ProfileMessage := "Please configure a valid glucose concentration profile first"

  class WritePage {
    var preview: seq<Point>
    var csvData: Option<seq<Point>>
    var applyEnabled: bool
    var status: Status

    /** Every way of setting the preview gives 13 points: the checks before sending always pass. */
    predicate Valid()
      reads this
    {
      |preview| == 13 && (csvData.Some? ==> |csvData.value| == 13)
    }

    /**
     * The initial state. That the apply button starts disabled is an assumption about the page's
     * markup, which is not part of this model; frontend/js/write.js only sets `disabled` when a
     * file loads or fails (lines 208 and 214).
     */
    constructor ()
      ensures Valid()
      ensures preview == DefaultPreview() && csvData == None && !applyEnabled && status == NoStatus
    {
      preview := DefaultPreview();
      csvData := None;
      applyEnabled := false;
      status := NoStatus;
    }

    /** The "update pumps" handler. */
    method ManualControl(ratioIn: Option<real>, g1In: Option<real>, g2In: Option<real>)
      requires Valid()
      modifies this
      ensures Valid()
      ensures ManualUpdate(ratioIn, g1In, g2In).RatioOutOfRange? ==>
        preview == old(preview) && status == Error("Ratio must be between 0 and 1")
      ensures ManualUpdate(ratioIn, g1In, g2In).ManualProfile? ==>
        preview == ManualUpdate(ratioIn, g1In, g2In).points && status == old(status)
      ensures csvData == old(csvData) && applyEnabled == old(applyEnabled)
    {
      var ratio := OrDefault(ratioIn, 0.0);
      var g1 := OrDefault(g1In, 15.0);
      var g2 := OrDefault(g2In, 15.0);
      if ratio < 0.0 || ratio > 1.0 {
        status := Error("Ratio must be between 0 and 1");
        return;
      }
      var combined := CombinedGlucose(ratio, g1, g2);
      preview := ConstantProfile(combined);
    }

    /** The "apply simulation" handler. */
    method ApplySimulation(base: real, amplitude: real, kind: Variation)
      requires Valid()
      modifies this
      ensures Valid()
      ensures preview == SimulatedProfile(base, amplitude, kind)
      ensures csvData == old(csvData) && applyEnabled == old(applyEnabled) && status == old(status)
    {
      preview := SimulatedProfile(base, amplitude, kind);
    }

    /** The file reader's `onload`: keep the points and enable apply, or drop them and disable it. */
    method LoadCsv(text: string)
      requires Valid()
      modifies this
      ensures Valid()
      ensures ParseCsv(text).Accepted? ==> csvData == Some(ParseCsv(text).value) && applyEnabled
      ensures ParseCsv(text).Rejected? ==> csvData == None && !applyEnabled
      ensures preview == old(preview) && status == old(status)
    {
      var parsed := ParseCsv(text);
      if parsed.Accepted? {
        csvData := Some(parsed.value);
        applyEnabled := true;
      } else {
        csvData := None;
        applyEnabled := false;
      }
    }

    /** The apply button: the stored CSV points become the preview, if there are any. */
    method ApplyCsv()
      requires Valid()
      modifies this
      ensures Valid()
      ensures preview == (if old(csvData).Some? then old(csvData).value else old(preview))
      ensures csvData == old(csvData) && applyEnabled == old(applyEnabled) && status == old(status)
    {
      if csvData.Some? {
        preview := csvData.value;
      }
    }

    /** The "Simulate Only" button: the data put in the simulation URL, if the preview has 13 points. */
    method SimulateOnly() returns (shown: Option<seq<Point>>)
      modifies this
      ensures shown == (if |old(preview)| == 13 then Some(old(preview)) else None)
      ensures |old(preview)| != 13 ==> status == Error(ProfileMessage)
      ensures |old(preview)| == 13 ==> status == old(status)
      ensures preview == old(preview) && csvData == old(csvData) && applyEnabled == old(applyEnabled)
    {
      if |preview| != 13 {
        status := Error(ProfileMessage);
        return None;
      }
      shown := Some(preview);
    }

    /**
     * The "start process" button: the data posted to `/send-data`, and the status the reply
     * leaves; a reply outside 200..299 is reported with its status code.
     */
    method StartProcess(response: Fetched) returns (sent: Option<seq<Point>>)
      modifies this
      ensures sent == (if |old(preview)| == 13 then Some(old(preview)) else None)
      ensures status == (
        if |old(preview)| != 13 then Error("Error: " + ProfileMessage)
        else if response.Answered? && 200 <= response.code <= 299 then Info("Process started successfully!")
        else if response.Answered? then Error("Error: HTTP error! status: " + IntToString(response.code))
        else Error("Error: " + response.reason))
      ensures preview == old(preview) && csvData == old(csvData) && applyEnabled == old(applyEnabled)
    {
      if |preview| != 13 {
        status := Error("Error: " + ProfileMessage);
        return None;
      }
      status := Info("Sending data to machine...");
      sent := Some(preview);
      match response
      case Answered(code) =>
        if 200 <= code <= 299 {
          status := Info("Process started successfully!");
        } else {
          status := Error("Error: HTTP error! status: " + IntToString(code));
        }
      case FetchFailed(reason) =>
        status := Error("Error: " + reason);
    }
  }
}
