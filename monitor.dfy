/**
 * The glucose monitor page (`js/main.js`): a series of the last 61 minutes, labelled `HH:MM`,
 * that every update shifts by one point, and whose new value is the last one moved by a random
 * step and kept within 40..240 mg/dl.
 *
 * The clock is the parameter `now`, in whole minutes of local time (seconds do not show in a
 * label); `Math.random` is the parameter `u` (or `noise`), and `Math.sin(i / 10)` is given for
 * each minute as `sines`.
 */
module Monitor {
  import opened Common
  import opened Strings
  import opened Numbers

  /** Two decimal digits of `n` below 100: the tens, then the units. */
  function Pad2(n: nat): string
    requires n < 100
  {
    [DigitChar(n / 10), DigitChar(n % 10)]
  }

  /** `Pad2` is `n.toString().padStart(2, '0')`: a leading "0" below 10, the number itself above. */
  lemma Pad2IsPadStart(n: nat)
    requires n < 100
    ensures Pad2(n) == if n < 10 then "0" + NatToString(n) else NatToString(n)
  {
    if n >= 10 {
      assert NatToString(n / 10) == [DigitChar(n / 10)];
    }
  }

  /** `HH:MM` of minute `now`: the hour and the minute within the day. */
  function ClockLabel(now: int): (s: string)
    ensures |s| == 5 && s[2] == ':'
  {
    var m := now % 1440;
    Pad2(m / 60) + ":" + Pad2(m % 60)
  }

  /** Reading an `HH:MM` label back as the minute of the day. */
  function ParseClock(s: string): (r: Option<int>)
  {
    if |s| == 5 && s[2] == ':' && IsDigit(s[0]) && IsDigit(s[1])
       && IsDigit(s[3]) && IsDigit(s[4])
    then
      var h := RadixDigitValue(s[0], 10) * 10 + RadixDigitValue(s[1], 10);
      var m := RadixDigitValue(s[3], 10) * 10 + RadixDigitValue(s[4], 10);
      Some(h * 60 + m)
    else None
  }

  /** A label shows exactly the minute of the day, hours below 24 and minutes below 60. */
  lemma ClockLabelRoundTrip(now: int)
    ensures ParseClock(ClockLabel(now)) == Some(now % 1440)
    ensures var l := ClockLabel(now);
      && RadixDigitValue(l[0], 10) * 10 + RadixDigitValue(l[1], 10) < 24
      && RadixDigitValue(l[3], 10) * 10 + RadixDigitValue(l[4], 10) < 60
  {
    var m := now % 1440;
    var h, mm := m / 60, m % 60;
    assert m == h * 60 + mm;
    assert h < 24;
  }

  /** Labels a minute apart read as successive minutes of the day, wrapping at midnight. */
  lemma ClockLabelsSuccessive(now: nat)
    ensures ParseClock(ClockLabel(now + 1)).value == (ParseClock(ClockLabel(now)).value + 1) % 1440
  {
    ClockLabelRoundTrip(now);
    ClockLabelRoundTrip(now + 1);
    ModSucc(now, 1440);
  }

  /** `Math.round(120 + Math.sin(i / 10) * 30 + Math.random() * 20 - 10)`. */
  function SampleValue(sine: real, u: real): int {
    RoundHalfUp(120.0 + (sine * 30.0 + u * 20.0 - 10.0))
  }

  /** A sample lies in [80, 160] mg/dl. */
  lemma SampleValueRange(sine: real, u: real)
    requires -1.0 <= sine <= 1.0 && 0.0 <= u < 1.0
    ensures 80 <= SampleValue(sine, u) <= 160
  {
    RoundHalfUpWithin(120.0 + (sine * 30.0 + u * 20.0 - 10.0), 80, 160);
  }

  /** `Math.round(Math.max(40, Math.min(240, last + (Math.random() * 10 - 5))))`. */
  function NextValue(last: int, u: real): (v: int)
    ensures 40 <= v <= 240
  {
    var x := Clamp(last as real + (u * 10.0 - 5.0), 40.0, 240.0);
    RoundHalfUpWithin(x, 40, 240);
    RoundHalfUp(x)
  }

  /** From a value within 40..240, one update moves the series by at most 5. */
  lemma NextValueStep(last: int, u: real)
    requires 40 <= last <= 240 && 0.0 <= u < 1.0
    ensures last - 5 <= NextValue(last, u) <= last + 5
  {
    var x := Clamp(last as real + (u * 10.0 - 5.0), 40.0, 240.0);
    assert (last - 5) as real <= x <= (last + 5) as real;
    RoundHalfUpWithin(x, last - 5, last + 5);
  }

  class GlucoseMonitor {
    var labels: seq<string>
    var values: seq<int>

    /** After `initializeData`: one label and one value for each of the last 61 minutes. */
    predicate Valid()
      reads this
    {
      |labels| == 61 && |values| == 61
    }

    /** `glucoseData` before `init`: both series empty. */
    constructor ()
      ensures labels == [] && values == []
    {
      labels := [];
      values := [];
    }

    /**
     * `initializeData`: minutes 60, 59, ..., 0 before `now`, oldest first. `sines[i]` and
     * `noise[i]` are the sine and the random draw for the point `i` minutes old.
     */
    method InitializeData(now: int, sines: seq<real>, noise: seq<real>)
      requires |sines| == 61 && |noise| == 61
      modifies this
      ensures Valid()
      ensures forall k :: 0 <= k < 61 ==> labels[k] == ClockLabel(now - (60 - k))
      ensures forall k :: 0 <= k < 61 ==> values[k] == SampleValue(sines[60 - k], noise[60 - k])
    {
      labels := [];
      values := [];
      var i := 60;
      while i >= 0
        invariant -1 <= i <= 60
        invariant |labels| == 60 - i && |values| == 60 - i
        invariant forall k :: 0 <= k < 60 - i ==> labels[k] == ClockLabel(now - (60 - k))
        invariant forall k :: 0 <= k < 60 - i ==> values[k] == SampleValue(sines[60 - k], noise[60 - k])
      {
        var text, value := ClockLabel(now - i), SampleValue(sines[i], noise[i]);
        assert now - (60 - (60 - i)) == now - i;
        labels := labels + [text];
        values := values + [value];
        i := i - 1;
      }
    }

    /**
     * `updateChart`: drop the oldest point and append one for `now`, whose value follows the
     * last one; both series keep their length.
     */
    method UpdateChart(now: int, u: real)
      requires Valid()
      modifies this
      ensures Valid()
      ensures labels == old(labels)[1..] + [ClockLabel(now)]
      ensures values == old(values)[1..] + [NextValue(old(values)[60], u)]
    {
      labels := labels[1..];
      values := values[1..];
      var last := values[|values| - 1];
      labels := labels + [ClockLabel(now)];
      values := values + [NextValue(last, u)];
    }
  }

  /** Once every value is within 40..240, updates keep it so. */
  lemma UpdateKeepsRange(values: seq<int>, u: real)
    requires |values| == 61 && forall k :: 0 <= k < 61 ==> 40 <= values[k] <= 240
    ensures var next := values[1..] + [NextValue(values[60], u)];
      |next| == 61 && forall k :: 0 <= k < 61 ==> 40 <= next[k] <= 240
  {
  }
}
