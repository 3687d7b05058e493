/**
 * The CGM writing simulation of the older page (`js/write.js`): a 24-point preview series, and a
 * process that, once started, marks one point per timer tick as written and stops by itself
 * after the last one.
 *
 * `Math.random` is the parameter `noise`; one tick of the `setInterval` timer is a call of
 * `Tick`. The point colours are the array `colors` (`true` for the written colour), which the
 * first tick ever allocates and no later run clears.
 */
module WritingProcess {
  import opened Strings
  import opened Numbers

  /** The x-axis labels "0:00" to "23:00". */
  function PreviewLabels(): (labels: seq<string>)
    ensures |labels| == 24
  {
    seq(24, i requires 0 <= i < 24 => NatToString(i) + ":00")
  }

  /**
   * The hour-by-hour pattern of the sample profile: the base value of hour `i` and the width
   * of the random part added to it.
   */
  function PreviewBand(i: int): (band: (int, int))
    requires 0 <= i < 24
    ensures 90 <= band.0 && band.0 + band.1 <= 180 && band.1 >= 0
  {
    if i < 6 then (90, 10)                       // night
    else if i < 8 then (100 + (i - 5) * 15, 10)  // dawn rise
    else if i == 8 then (160, 20)                // breakfast
    else if i < 12 then (160 - (i - 8) * 15, 10) // after breakfast
    else if i == 12 then (150, 20)               // lunch
    else if i < 18 then (150 - (i - 12) * 8, 15) // afternoon
    else if i == 18 then (140, 20)               // dinner
    else (140 - (i - 18) * 10, 10)               // evening
  }

  /** `Math.round(value)` for hour `i`, with `u` the random draw in [0, 1). */
  function PreviewValue(i: int, u: real): (v: int)
    requires 0 <= i < 24
  {
    var band := PreviewBand(i);
    RoundHalfUp(band.0 as real + u * band.1 as real)
  }

  /** Each value lies in its hour's band, and so every value in [90, 180]. */
  lemma PreviewValueInBand(i: int, u: real)
    requires 0 <= i < 24 && 0.0 <= u < 1.0
    ensures var band := PreviewBand(i);
      band.0 <= PreviewValue(i, u) <= band.0 + band.1
    ensures 90 <= PreviewValue(i, u) <= 180
  {
    var band := PreviewBand(i);
    MulMonotone(0.0, u, band.1 as real);
    MulMonotone(u, 1.0, band.1 as real);
    RoundHalfUpWithin(band.0 as real + u * band.1 as real, band.0, band.0 + band.1);
  }

  /** `initializePreviewData`: 24 whole values, hour by hour. */
  method InitializePreviewData(noise: seq<real>) returns (values: seq<int>)
    requires |noise| == 24
    ensures |values| == 24
    ensures forall i :: 0 <= i < 24 ==> values[i] == PreviewValue(i, noise[i])
    ensures (forall i :: 0 <= i < 24 ==> 0.0 <= noise[i] < 1.0) ==>
      forall i :: 0 <= i < 24 ==> 90 <= values[i] <= 180
  {
    values := [];
    var i := 0;
    while i < 24
      invariant 0 <= i <= 24 && |values| == i
      invariant forall k :: 0 <= k < i ==> values[k] == PreviewValue(k, noise[k])
    {
      values := values + [PreviewValue(i, noise[i])];
      i := i + 1;
    }
    if forall k :: 0 <= k < 24 ==> 0.0 <= noise[k] < 1.0 {
      forall k | 0 <= k < 24 ensures 90 <= values[k] <= 180 {
        PreviewValueInBand(k, noise[k]);
      }
    }
  }

  class WritingProcess {
    var values: seq<int>
    var isWriting: bool
    var timerLive: bool      // `writingInterval` is set
    var currentIndex: nat    // the running timer's own counter
    var colors: array?<bool>

    /** The marks as the chart shows them: none written before the first tick ever. */
    function Marks(): (m: seq<bool>)
      reads this, colors
      ensures |m| == (if colors == null then |values| else colors.Length)
    {
      if colors == null then seq(|values|, _ => false) else colors[..]
    }

    /**
     * The timer lives exactly while writing, the counter never passes the series, the colour
     * array has one entry per point, and during a run every point before the counter is marked.
     */
    predicate Valid()
      reads this, colors
    {
      && timerLive == isWriting
      && currentIndex <= |values|
      && (colors != null ==> colors.Length == |values|)
      && (isWriting ==> forall i :: 0 <= i < currentIndex ==> Marks()[i])
    }

    /** `init`: the series is generated first; nothing is writing. */
    constructor (noise: seq<real>)
      requires |noise| == 24
      ensures Valid()
      ensures |values| == 24 && forall i :: 0 <= i < 24 ==> values[i] == PreviewValue(i, noise[i])
      ensures !isWriting && colors == null
    {
      var v := InitializePreviewData(noise);
      values := v;
      isWriting := false;
      timerLive := false;
      currentIndex := 0;
      colors := null;
    }

    /** `startWritingProcess`: ignored while writing; otherwise a new run from point 0. */
    method Start()
      requires Valid()
      modifies this
      ensures Valid()
      ensures old(isWriting) ==> currentIndex == old(currentIndex) && isWriting
      ensures !old(isWriting) ==> isWriting && timerLive && currentIndex == 0
      ensures values == old(values) && colors == old(colors) && Marks() == old(Marks())
    {
      if isWriting {
        return;
      }
      isWriting := true;
      currentIndex := 0;
      timerLive := true;
    }

    /** `stopWritingProcess`: ignored while idle; otherwise the timer is cleared. */
    method Stop()
      requires Valid()
      modifies this
      ensures Valid()
      ensures !isWriting && !timerLive
      ensures currentIndex == old(currentIndex)
      ensures values == old(values) && colors == old(colors) && Marks() == old(Marks())
    {
      if !isWriting {
        return;
      }
      isWriting := false;
      if timerLive {
        timerLive := false;
      }
    }

    /**
     * One firing of the timer: past the last point the process stops; otherwise the point at
     * the counter is marked and the counter moves on. Marks are only ever added.
     */
    method Tick()
      requires Valid()
      modifies this, colors
      ensures Valid()
      ensures values == old(values)
      ensures !old(timerLive) ==>
        isWriting == old(isWriting) && currentIndex == old(currentIndex) && Marks() == old(Marks())
      ensures old(timerLive) && old(currentIndex) >= |values| ==>
        !isWriting && !timerLive && currentIndex == old(currentIndex) && Marks() == old(Marks())
      ensures old(timerLive) && old(currentIndex) < |values| ==>
        && isWriting && currentIndex == old(currentIndex) + 1
        && Marks() == old(Marks())[old(currentIndex) := true]
      ensures old(colors) != null ==> colors == old(colors)
      ensures colors != null && old(colors) == null ==> fresh(colors)
    {
      if !timerLive {
        return;
      }
      if currentIndex >= |values| {
        Stop();
        return;
      }
      ghost var before := Marks();
      if colors == null {
        colors := new bool[|values|](_ => false);
        assert colors[..] == before;
      }
      colors[currentIndex] := true;
      assert colors[..] == before[currentIndex := true];
      currentIndex := currentIndex + 1;
    }
  }

  /**
   * A second run starts at point 0 with the first run's marks still shown: two ticks, a stop
   * and a new start leave points 0 and 1 marked and the counter at 0.
   */
  method ScenarioRestartKeepsMarks(noise: seq<real>) returns (marked0: bool, marked1: bool, index: nat)
    requires |noise| == 24
    ensures marked0 && marked1 && index == 0
  {
    var w := new WritingProcess(noise);
    w.Start();
    w.Tick();
    w.Tick();
    w.Stop();
    w.Start();
    marked0 := w.Marks()[0];
    marked1 := w.Marks()[1];
    index := w.currentIndex;
  }
}
