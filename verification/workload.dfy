/** The workload shifter (src/components/WorkloadShifter.tsx): a 24-hour
    load profile and the buttons that reshape it.

    Each button is a pure function from the old profile to the new one
    (the component's `setWorkload(prev => ...)` updates); `Act` and
    `Replay` model a sequence of button presses. The chart's bar height
    and colour rules close the module.
 */
module Workload {
  import opened JsCore

  /** Hours in a day, and in every profile the component ever holds. */
  const Hours: nat := 24

  /** The profile the component starts from and `reset` restores. */
  const InitialWorkload: seq<real> := [
    0.3, 0.2, 0.2, 0.1, 0.1, 0.2,
    0.4, 0.6, 0.8, 0.9, 1.0, 1.1,
    1.2, 1.1, 1.0, 0.9, 0.8, 0.7,
    0.6, 0.5, 0.4, 0.4, 0.3, 0.3 ]

  /** The total load, as `reduce((sum, val) => sum + val, 0)`. */
  function Sum(s: seq<real>): real
    decreases |s|
  {
    if |s| == 0 then 0.0 else s[0] + Sum(s[1..])
  }

  lemma {:induction false} SumConcat(a: seq<real>, b: seq<real>)
    ensures Sum(a + b) == Sum(a) + Sum(b)
    decreases |a|
  {
    if |a| == 0 {
      assert a + b == b;
    } else {
      assert (a + b)[1..] == a[1..] + b;
      SumConcat(a[1..], b);
    }
  }

  /** If every value is at most `hi`, the total is at most `|s| * hi`. */
  lemma {:induction false} SumAtMost(s: seq<real>, hi: real)
    requires forall k :: 0 <= k < |s| ==> s[k] <= hi
    ensures Sum(s) <= |s| as real * hi
    decreases |s|
  {
    if |s| > 0 {
      SumAtMost(s[1..], hi);
    }
  }

  /** If every value is at least `lo`, the total is at least `|s| * lo`. */
  lemma {:induction false} SumAtLeast(s: seq<real>, lo: real)
    requires forall k :: 0 <= k < |s| ==> lo <= s[k]
    ensures |s| as real * lo <= Sum(s)
    decreases |s|
  {
    if |s| > 0 {
      SumAtLeast(s[1..], lo);
    }
  }

  /** `n` copies of `v`. */
  function Repeat(n: nat, v: real): (r: seq<real>)
    ensures |r| == n
    ensures forall k :: 0 <= k < n ==> r[k] == v
  {
    seq(n, _ => v)
  }

  lemma {:induction false} SumRepeat(n: nat, v: real)
    ensures Sum(Repeat(n, v)) == n as real * v
    decreases n
  {
    if n > 0 {
      assert Repeat(n, v)[1..] == Repeat(n - 1, v);
      SumRepeat(n - 1, v);
    }
  }

  // ---------------------------------------------------------------------
  // Shifts
  // ---------------------------------------------------------------------

  /** `shiftLeft`: the first hour moves to the end. The non-null assertion
      on `shift()` is the source's promise that the profile is not empty. */
  function ShiftLeft(w: seq<real>): (r: seq<real>)
    requires |w| > 0
    ensures |r| == |w|
    ensures forall k :: 0 <= k < |w| - 1 ==> r[k] == w[k + 1]
    ensures r[|w| - 1] == w[0]
  {
    w[1..] + [w[0]]
  }

  /** `shiftRight`: the last hour moves to the front. */
  function ShiftRight(w: seq<real>): (r: seq<real>)
    requires |w| > 0
    ensures |r| == |w|
    ensures r[0] == w[|w| - 1]
    ensures forall k :: 1 <= k < |w| ==> r[k] == w[k - 1]
  {
    [w[|w| - 1]] + w[..|w| - 1]
  }

  /** The two shifts undo each other. */
  lemma ShiftsAreInverse(w: seq<real>)
    requires |w| > 0
    ensures ShiftLeft(ShiftRight(w)) == w
    ensures ShiftRight(ShiftLeft(w)) == w
  {
    assert ShiftLeft(ShiftRight(w)) == w;
    assert ShiftRight(ShiftLeft(w)) == w;
  }

  /** Shifting only moves values around. */
  lemma ShiftsKeepValues(w: seq<real>)
    requires |w| > 0
    ensures multiset(ShiftLeft(w)) == multiset(w)
    ensures multiset(ShiftRight(w)) == multiset(w)
  {
    assert w == [w[0]] + w[1..];
    assert w == w[..|w| - 1] + [w[|w| - 1]];
  }

  /** Moving the head to the end keeps the total. */
  lemma SumRotated(head: seq<real>, tail: seq<real>)
    ensures Sum(tail + head) == Sum(head + tail)
  {
    SumConcat(head, tail);
    SumConcat(tail, head);
  }

  /** Shifting keeps the total load. */
  lemma ShiftsKeepTotal(w: seq<real>)
    requires |w| > 0
    ensures Sum(ShiftLeft(w)) == Sum(w)
    ensures Sum(ShiftRight(w)) == Sum(w)
  {
    ShiftLeftIsRotation(w);
    RotationKeepsSum(w, 1);
    ShiftRightIsRotation(w);
    RotationKeepsSum(w, |w| - 1);
  }

  lemma ShiftLeftIsRotation(w: seq<real>)
    requires |w| > 0
    ensures ShiftLeft(w) == w[1..] + w[..1]
  {
    assert w[..1] == [w[0]];
  }

  lemma ShiftRightIsRotation(w: seq<real>)
    requires |w| > 0
    ensures ShiftRight(w) == w[|w| - 1..] + w[..|w| - 1]
  {
    assert w[|w| - 1..] == [w[|w| - 1]];
  }

  /** Any rotation of the profile keeps the total. */
  lemma RotationKeepsSum(w: seq<real>, i: nat)
    requires i <= |w|
    ensures Sum(w[i..] + w[..i]) == Sum(w)
  {
    SumRotated(w[..i], w[i..]);
    assert w[..i] + w[i..] == w;
  }

  /** `n` presses of the left-shift button. */
  function ShiftLeftTimes(w: seq<real>, n: nat): (r: seq<real>)
    requires |w| > 0
    ensures |r| == |w|
    decreases n
  {
    if n == 0 then w else ShiftLeftTimes(ShiftLeft(w), n - 1)
  }

  /** `n` left shifts rotate the first `n` hours to the end. */
  lemma {:induction false} ShiftLeftTimesRotates(w: seq<real>, n: nat)
    requires 0 < |w| && n <= |w|
    ensures ShiftLeftTimes(w, n) == w[n..] + w[..n]
    decreases n
  {
    if n == 0 {
      assert w[0..] + w[..0] == w;
    } else {
      var v := ShiftLeft(w);
      ShiftLeftTimesRotates(v, n - 1);
      assert v == w[1..] + [w[0]];
      assert v[n - 1..] == w[n..] + [w[0]];
      assert v[..n - 1] == w[1..n];
      assert w[..n] == [w[0]] + w[1..n];
      assert w[n..] + [w[0]] + w[1..n] == w[n..] + w[..n];
    }
  }

  /** A full day of left shifts gives the profile back. */
  lemma FullDayOfShifts(w: seq<real>)
    requires |w| > 0
    ensures ShiftLeftTimes(w, |w|) == w
  {
    ShiftLeftTimesRotates(w, |w|);
    assert w[|w|..] + w[..|w|] == w;
  }

  /** 24 left shifts of the initial profile return it unchanged. */
  lemma InitialProfileAfterDayOfShifts()
    ensures ShiftLeftTimes(InitialWorkload, 24) == InitialWorkload
  {
    FullDayOfShifts(InitialWorkload);
  }

  // ---------------------------------------------------------------------
  // Flatten peaks
  // ---------------------------------------------------------------------

  /** The average hour: as many averages as hours make up the total. */
  function Mean(w: seq<real>): (r: real)
    requires |w| > 0
    ensures r * |w| as real == Sum(w)
  {
    Sum(w) / |w| as real
  }

  /** Every value moved 30% of the way to `target`. */
  function Toward(w: seq<real>, target: real): (r: seq<real>)
    ensures |r| == |w|
    ensures forall k :: 0 <= k < |w| ==> r[k] - target == 0.7 * (w[k] - target)
    decreases |w|
  {
    if |w| == 0 then []
    else [w[0] + (target - w[0]) * 0.3] + Toward(w[1..], target)
  }

  lemma {:induction false} SumToward(w: seq<real>, target: real)
    ensures Sum(Toward(w, target)) == 0.7 * Sum(w) + 0.3 * (|w| as real * target)
    decreases |w|
  {
    if |w| > 0 {
      SumToward(w[1..], target);
      assert Toward(w, target)[1..] == Toward(w[1..], target);
      assert |w| as real * target == target + (|w| - 1) as real * target;
    }
  }

  /** `flattenPeaks`: every hour moves 30% of the way to the day's mean. An
      empty profile stays empty (its mean is undefined, but nothing is mapped). */
  function FlattenPeaks(w: seq<real>): (r: seq<real>)
    ensures |r| == |w|
    ensures |w| > 0 ==> forall k :: 0 <= k < |w| ==> r[k] - Mean(w) == 0.7 * (w[k] - Mean(w))
  {
    if |w| == 0 then [] else Toward(w, Mean(w))
  }

  /** Flattening keeps the total load (and so the mean). */
  lemma FlattenKeepsTotal(w: seq<real>)
    ensures Sum(FlattenPeaks(w)) == Sum(w)
  {
    if |w| > 0 {
      SumToward(w, Mean(w));
      assert |w| as real * Mean(w) == Sum(w);
    }
  }

  /** Flattening keeps the hours' relative order. */
  lemma FlattenKeepsOrder(w: seq<real>, j: nat, k: nat)
    requires j < |w| && k < |w|
    ensures w[j] <= w[k] <==> FlattenPeaks(w)[j] <= FlattenPeaks(w)[k]
    ensures w[j] < w[k] <==> FlattenPeaks(w)[j] < FlattenPeaks(w)[k]
  {
  }

  /** Every bound the profile keeps, the flattened profile keeps: the
      maximum does not rise and the minimum does not fall. */
  lemma FlattenKeepsBounds(w: seq<real>, lo: real, hi: real)
    requires forall k :: 0 <= k < |w| ==> lo <= w[k] <= hi
    ensures forall k :: 0 <= k < |w| ==> lo <= FlattenPeaks(w)[k] <= hi
  {
    if |w| > 0 {
      SumAtMost(w, hi);
      SumAtLeast(w, lo);
      var n := |w| as real;
      assert Mean(w) <= hi by {
        assert Sum(w) <= n * hi;
      }
      assert lo <= Mean(w) by {
        assert n * lo <= Sum(w);
      }
    }
  }

  /** A constant profile is a fixed point of flattening. */
  lemma FlattenFixesConstant(w: seq<real>, c: real)
    requires forall k :: 0 <= k < |w| ==> w[k] == c
    ensures FlattenPeaks(w) == w
  {
    if |w| > 0 {
      SumAtMost(w, c);
      SumAtLeast(w, c);
      assert Mean(w) == c;
    }
  }

  // ---------------------------------------------------------------------
  // Night mode
  // ---------------------------------------------------------------------

  /** The hours night mode loads, in the source's order. */
  const NightHours: seq<nat> := [20, 21, 22, 23, 0, 1, 2, 3, 4, 5]

  /** The floor every hour keeps in night mode. */
  const BaseLoad: real := 0.1

  /** The chart's night band: 20:00 to 06:00. */
  predicate IsNightHour(k: int) {
    k >= 20 || k < 6
  }

  /** The listed night hours are exactly the hours the chart shows as night. */
  lemma NightHoursAreChartNight()
    ensures forall k :: 0 <= k < Hours ==> (k in NightHours <==> IsNightHour(k))
  {
  }

  /** Every hour in `hours` is below `n`, and none is listed twice. */
  predicate DistinctHoursBelow(hours: seq<nat>, n: nat) {
    && (forall j :: 0 <= j < |hours| ==> hours[j] < n)
    && (forall j, m :: 0 <= j < m < |hours| ==> hours[j] != hours[m])
  }

  /** Every listed night hour is an hour of the day, and none is listed twice. */
  lemma NightHoursDistinct()
    ensures DistinctHoursBelow(NightHours, Hours)
  {
  }

  /** Set each listed hour to `v` (the `forEach` over the night hours). */
  function SetHours(w: seq<real>, hours: seq<nat>, v: real): (r: seq<real>)
    requires forall j :: 0 <= j < |hours| ==> hours[j] < |w|
    ensures |r| == |w|
    ensures forall k :: 0 <= k < |w| ==> r[k] == (if k in hours then v else w[k])
    decreases |hours|
  {
    if |hours| == 0 then w
    else SetHours(w[hours[0] := v], hours[1..], v)
  }

  /** What each night hour receives on top of the floor: the floor on all
      24 hours plus this share on each night hour give back the total. */
  function LoadPerNightHour(w: seq<real>): (r: real)
    ensures Hours as real * BaseLoad + |NightHours| as real * r == Sum(w)
  {
    (Sum(w) - Hours as real * BaseLoad) / |NightHours| as real
  }

  /** The night-mode profile with night level `high`: the 0.1 floor
      everywhere, then `high` at each listed night hour. */
  function NightLevels(high: real): (r: seq<real>)
    ensures |r| == Hours
  {
    NightHoursDistinct();
    RaisedFloor(Hours, NightHours, BaseLoad, high)
  }

  /** Hour by hour, the night-mode profile holds `high` in the chart's
      night band and the floor elsewhere. */
  lemma NightLevelsByHour(high: real)
    ensures forall k :: 0 <= k < Hours ==>
      NightLevels(high)[k] == (if IsNightHour(k) then high else BaseLoad)
  {
    NightHoursAreChartNight();
    NightHoursDistinct();
  }

  /** `nightMode`: every hour drops to the 0.1 floor, and the rest of the
      total is shared equally among the ten night hours. */
  function NightMode(w: seq<real>): (r: seq<real>)
    ensures |r| == Hours
    ensures forall k :: 0 <= k < Hours ==>
      r[k] == (if IsNightHour(k) then BaseLoad + LoadPerNightHour(w) else BaseLoad)
  {
    NightLevelsByHour(BaseLoad + LoadPerNightHour(w));
    NightLevels(BaseLoad + LoadPerNightHour(w))
  }

  /** A flat profile of `n` hours at `b`, with the listed hours raised to `high`. */
  function RaisedFloor(n: nat, hours: seq<nat>, b: real, high: real): (r: seq<real>)
    requires DistinctHoursBelow(hours, n)
    ensures |r| == n
  {
    SetHours(Repeat(n, b), hours, high)
  }

  /** Overwriting one hour changes the total by the difference. */
  lemma {:induction false} SumUpdate(w: seq<real>, h: nat, v: real)
    requires h < |w|
    ensures Sum(w[h := v]) == Sum(w) - w[h] + v
    decreases |w|
  {
    if h > 0 {
      assert w[h := v][1..] == w[1..][h - 1 := v];
      SumUpdate(w[1..], h - 1, v);
    }
  }

  /** Raising distinct hours that all held `b` to `v` adds `v - b` per hour. */
  lemma {:induction false} SumSetHours(w: seq<real>, hours: seq<nat>, v: real, b: real)
    requires forall j :: 0 <= j < |hours| ==> hours[j] < |w| && w[hours[j]] == b
    requires forall j, m :: 0 <= j < m < |hours| ==> hours[j] != hours[m]
    ensures Sum(SetHours(w, hours, v)) == Sum(w) + Sum(Repeat(|hours|, v - b))
    decreases |hours|
  {
    if |hours| > 0 {
      var u := w[hours[0] := v];
      SumUpdate(w, hours[0], v);
      forall j | 0 <= j < |hours[1..]|
        ensures hours[1..][j] < |u| && u[hours[1..][j]] == b
      {
        assert hours[1..][j] == hours[j + 1] != hours[0];
      }
      SumSetHours(u, hours[1..], v, b);
      assert Repeat(|hours|, v - b)[1..] == Repeat(|hours[1..]|, v - b);
      assert SetHours(w, hours, v) == SetHours(u, hours[1..], v);
    }
  }

  /** Night mode keeps the total load. */
  lemma NightModeKeepsTotal(w: seq<real>)
    ensures Sum(NightMode(w)) == Sum(w)
  {
    NightModeIsLevels(w);
    NightLevelsTotal(w);
  }

  /** Night mode is the floor with each night hour raised by its share. */
  lemma NightModeIsLevels(w: seq<real>)
    ensures NightMode(w) == NightLevels(BaseLoad + LoadPerNightHour(w))
  {
  }

  /** The floor plus a share on each night hour adds back up to the total. */
  lemma NightLevelsTotal(w: seq<real>)
    ensures Sum(NightLevels(BaseLoad + LoadPerNightHour(w))) == Sum(w)
  {
    SharesAddBack(LoadPerNightHour(w), Sum(w));
  }

  /** Night levels whose shares and floor make up `total` sum to `total`. */
  lemma SharesAddBack(share: real, total: real)
    requires 2.4 + 10.0 * share == total
    ensures Sum(NightLevels(BaseLoad + share)) == total
  {
    NightLevelsRaised(share);
    SumRepeat(Hours, BaseLoad);
    SumRepeat(|NightHours|, share);
  }

  /** The night-mode profile with `extra` above the floor at night totals
      the flat 0.1 profile plus `extra` for each of the ten night hours. */
  lemma NightLevelsRaised(extra: real)
    ensures Sum(NightLevels(BaseLoad + extra)) == Sum(Repeat(Hours, BaseLoad)) + Sum(Repeat(|NightHours|, extra))
  {
    NightHoursDistinct();
    RaisedFloorTotal(Hours, NightHours, BaseLoad, BaseLoad + extra);
    assert BaseLoad + extra - BaseLoad == extra;
  }

  /** Sharing an amount among the night hours and adding the shares back
      gives the amount. */
  lemma NightShare(total: real)
    ensures Sum(Repeat(|NightHours|, total / |NightHours| as real)) == total
  {
    SumRepeatShare(|NightHours|, total);
  }

  /** Raising distinct hours of a flat profile at `b` to `high` adds
      `high - b` per raised hour. */
  lemma RaisedFloorTotal(n: nat, hours: seq<nat>, b: real, high: real)
    requires DistinctHoursBelow(hours, n)
    ensures Sum(RaisedFloor(n, hours, b, high)) == Sum(Repeat(n, b)) + Sum(Repeat(|hours|, high - b))
  {
    SumSetHours(Repeat(n, b), hours, high, b);
  }

  /** Sharing an amount equally among `n` parts and adding the parts back gives the amount. */
  lemma SumRepeatShare(n: nat, total: real)
    requires n > 0
    ensures Sum(Repeat(n, total / n as real)) == total
  {
    SumRepeat(n, total / n as real);
  }

  // ---------------------------------------------------------------------
  // Button presses
  // ---------------------------------------------------------------------

  datatype Button = ShiftLeftButton | ShiftRightButton | FlattenPeaksButton | NightModeButton | ResetButton

  /** One button press. Every button but reset keeps the total load. */
  function Act(w: seq<real>, b: Button): (r: seq<real>)
    requires |w| > 0
    ensures b.ResetButton? ==> r == InitialWorkload
    ensures !b.ResetButton? ==> Sum(r) == Sum(w)
    ensures |w| == Hours ==> |r| == Hours
  {
    match b
    case ShiftLeftButton => ShiftsKeepTotal(w); ShiftLeft(w)
    case ShiftRightButton => ShiftsKeepTotal(w); ShiftRight(w)
    case FlattenPeaksButton => FlattenKeepsTotal(w); FlattenPeaks(w)
    case NightModeButton => NightModeKeepsTotal(w); NightMode(w)
    case ResetButton => InitialWorkload
  }

  /** A sequence of button presses. */
  function Replay(w: seq<real>, presses: seq<Button>): (r: seq<real>)
    requires |w| == Hours
    ensures |r| == Hours
    decreases |presses|
  {
    if |presses| == 0 then w else Replay(Act(w, presses[0]), presses[1..])
  }

  lemma {:induction false} ReplayConcat(w: seq<real>, xs: seq<Button>, ys: seq<Button>)
    requires |w| == Hours
    ensures Replay(w, xs + ys) == Replay(Replay(w, xs), ys)
    decreases |xs|
  {
    if |xs| == 0 {
      assert xs + ys == ys;
    } else {
      assert (xs + ys)[1..] == xs[1..] + ys;
      ReplayConcat(Act(w, xs[0]), xs[1..], ys);
    }
  }

  /** Reset forgets every earlier press. */
  lemma ResetForgetsHistory(w: seq<real>, xs: seq<Button>, ys: seq<Button>)
    requires |w| == Hours
    ensures Replay(w, xs + [ResetButton] + ys) == Replay(InitialWorkload, ys)
  {
    ReplayConcat(w, xs + [ResetButton], ys);
    ReplayConcat(w, xs, [ResetButton]);
  }

  /** Without a reset, any sequence of presses keeps the total load. */
  lemma {:induction false} ReplayKeepsTotal(w: seq<real>, presses: seq<Button>)
    requires |w| == Hours
    requires forall j :: 0 <= j < |presses| ==> !presses[j].ResetButton?
    ensures Sum(Replay(w, presses)) == Sum(w)
    decreases |presses|
  {
    if |presses| > 0 {
      ReplayKeepsTotal(Act(w, presses[0]), presses[1..]);
    }
  }

  // ---------------------------------------------------------------------
  // The chart
  // ---------------------------------------------------------------------

  /** `Math.max(...workload, 1.2)`: the chart's scale. */
  function MaxWorkload(w: seq<real>): (r: real)
    ensures r >= 1.2
    ensures forall k :: 0 <= k < |w| ==> w[k] <= r
    ensures r == 1.2 || exists k :: 0 <= k < |w| && r == w[k]
    decreases |w|
  {
    if |w| == 0 then 1.2
    else
      var rest := MaxWorkload(w[1..]);
      assert forall k :: 1 <= k < |w| ==> w[k] == w[1..][k - 1];
      Max(w[0], rest)
  }

  /** A bar's height, as a percentage of the chart's scale: never above the
      top of the chart, and never below its foot for a non-negative hour. */
  function BarHeight(w: seq<real>, k: nat): (r: real)
    requires k < |w|
    ensures r <= 100.0
    ensures w[k] >= 0.0 ==> r >= 0.0
  {
    var scale := MaxWorkload(w);
    PercentAtMostHundred(w[k], scale);
    w[k] / scale * 100.0
  }

  /** Non-negative hours draw bars between 0% and 100% high; the top of the
      scale is reached exactly by a value equal to it. */
  lemma BarHeightBounds(w: seq<real>, k: nat)
    requires k < |w|
    ensures w[k] >= 0.0 ==> 0.0 <= BarHeight(w, k) <= 100.0
    ensures BarHeight(w, k) == 100.0 <==> w[k] == MaxWorkload(w)
  {
    PercentOfScale(w[k], MaxWorkload(w));
  }

  /** A value's percentage of a positive scale it does not exceed is at
      most 100, and is not negative for a non-negative value. */
  lemma PercentAtMostHundred(x: real, m: real)
    requires m > 0.0 && x <= m
    ensures x / m * 100.0 <= 100.0
    ensures x >= 0.0 ==> x / m * 100.0 >= 0.0
  {
    assert x / m * m == x;
  }

  /** A share of a positive scale, as a percentage. */
  lemma PercentOfScale(x: real, m: real)
    requires 0.0 < m && x <= m
    ensures x >= 0.0 ==> 0.0 <= x / m * 100.0 <= 100.0
    ensures x / m * 100.0 == 100.0 <==> x == m
  {
    assert x / m * m == x;
  }

  datatype BarColour = PeakColour | NightColour | DayColour

  /** The bar colour: peak above 0.9, else night in the night band, else day. */
  function BarColourOf(value: real, hour: int): (c: BarColour)
    ensures c == PeakColour <==> value > 0.9
    ensures c == NightColour <==> value <= 0.9 && IsNightHour(hour)
    ensures c == DayColour <==> value <= 0.9 && 6 <= hour < 20
  {
    if value > 0.9 then PeakColour
    else if IsNightHour(hour) then NightColour
    else DayColour
  }

  /** After night mode with a daily total above the floors plus one peak's
      worth, every night bar is red, never green. */
  lemma NightModeBarsAfterHeavyDay(w: seq<real>, k: nat)
    requires Sum(w) > 10.4
    requires k < Hours
    ensures IsNightHour(k) ==> BarColourOf(NightMode(w)[k], k) == PeakColour
    ensures !IsNightHour(k) ==> BarColourOf(NightMode(w)[k], k) == DayColour
  {
  }
}
