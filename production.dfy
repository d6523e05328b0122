// Production (rate) series preparation of the stacked pressure/rate chart:
// the absolute-time test, the accumulation of per-step intervals into
// absolute times, and the detection of shut-in / open events
// (WT_PlottingWidget::drawStackedPlot, wt_plottingwidget.cpp).

module Production {
  import opened Common

  // ---------------------------------------------------------------------------
  // Absolute time or intervals?
  // ---------------------------------------------------------------------------

  /** Production X data count as absolute times iff there are at least two and they strictly increase. */
  predicate IsAbsoluteTime(x2: seq<real>)
  {
    |x2| > 1 && StrictlyIncreasing(x2)
  }

  /** The scan of drawStackedPlot that sets `isAbsoluteTime`. */
  method DetectAbsoluteTime(x2: seq<real>) returns (isAbsolute: bool)
    ensures isAbsolute == IsAbsoluteTime(x2)
  {
    isAbsolute := true;
    if |x2| > 1 {
      var i := 0;
      while i < |x2| - 1
        invariant 0 <= i <= |x2| - 1
        invariant isAbsolute
        invariant forall k :: 0 <= k < i ==> x2[k] < x2[k + 1]
      {
        if x2[i + 1] <= x2[i] {
          isAbsolute := false;
          break;
        }
        i := i + 1;
      }
    } else {
      isAbsolute := false;
    }
  }

  // ---------------------------------------------------------------------------
  // Interval accumulation
  // ---------------------------------------------------------------------------

  /** Number of steps the accumulation appends: one per interval that has a rate. */
  function StepCount(x2: seq<real>, y2: seq<real>): nat
  {
    Min(|x2|, |y2|)
  }

  /** Step start times: 0, then the running sums of the intervals. */
  function StepTimes(x2: seq<real>, y2: seq<real>): seq<real>
  {
    var n := StepCount(x2, y2);
    if n == 0 then []
    else [0.0] + seq(n, i requires 0 <= i < n => Sum(x2[..i + 1]))
  }

  /** Step rates: the next rate after each interval, the last rate held when rates run out. */
  function StepRates(x2: seq<real>, y2: seq<real>): seq<real>
  {
    var n := StepCount(x2, y2);
    if n == 0 then []
    else [y2[0]] + seq(n, i requires 0 <= i < n => if i + 1 < |y2| then y2[i + 1] else y2[i])
  }

  /** The accumulation loop of drawStackedPlot, running sum in `tCum`. */
  method AccumulateIntervals(x2: seq<real>, y2: seq<real>) returns (px: seq<real>, py: seq<real>)
    ensures px == StepTimes(x2, y2)
    ensures py == StepRates(x2, y2)
  {
    var tCum := 0.0;
    px, py := [], [];
    if |x2| > 0 && |y2| > 0 {
      px := px + [0.0];
      py := py + [y2[0]];
    }
    var i := 0;
    while i < |x2|
      invariant 0 <= i <= |x2|
      invariant tCum == Sum(x2[..i])
      invariant StepCount(x2, y2) == 0 ==> px == [] && py == []
      invariant StepCount(x2, y2) > 0 ==> |px| == |py| == Min(i, |y2|) + 1
      invariant StepCount(x2, y2) > 0 ==> px[0] == 0.0 && py[0] == y2[0]
      invariant StepCount(x2, y2) > 0 ==> forall k :: 0 < k < |px| ==>
        px[k] == Sum(x2[..k]) && py[k] == y2[Min(k, |y2| - 1)]
    {
      assert x2[..i + 1][..i] == x2[..i];
      tCum := tCum + x2[i];
      if i + 1 < |y2| {
        AccumulateStep(x2, y2, i, px, py, tCum, y2[i + 1]);
        px := px + [tCum];
        py := py + [y2[i + 1]];
      } else if i < |y2| {
        AccumulateStep(x2, y2, i, px, py, tCum, y2[i]);
        px := px + [tCum];
        py := py + [y2[i]];
      }
      i := i + 1;
    }
    if StepCount(x2, y2) > 0 {
      AccumulatedSteps(x2, y2, px, py);
    }
  }

  /** Vectors that hold the description kept by the accumulation loop, for every step, are the step series. */
  lemma AccumulatedSteps(x2: seq<real>, y2: seq<real>, px: seq<real>, py: seq<real>)
    requires StepCount(x2, y2) > 0 && |px| == |py| == StepCount(x2, y2) + 1
    requires px[0] == 0.0 && py[0] == y2[0]
    requires forall k :: 0 < k < |px| ==> px[k] == Sum(x2[..k]) && py[k] == y2[Min(k, |y2| - 1)]
    ensures px == StepTimes(x2, y2) && py == StepRates(x2, y2)
  {
    var times, rates := StepTimes(x2, y2), StepRates(x2, y2);
    forall k | 0 < k < |px| ensures px[k] == times[k] && py[k] == rates[k] {
      assert times[k] == Sum(x2[..k]);
      assert rates[k] == if k < |y2| then y2[k] else y2[k - 1];
    }
    assert px == times;
    assert py == rates;
  }

  /** One pass of the accumulation loop that appends a step keeps the loop's description of the vectors. */
  lemma AccumulateStep(x2: seq<real>, y2: seq<real>, i: nat, px: seq<real>, py: seq<real>, t: real, q: real)
    requires i < |x2| && i < |y2| && |px| == |py| == i + 1
    requires t == Sum(x2[..i + 1]) && q == y2[Min(i + 1, |y2| - 1)]
    requires forall k :: 0 < k < |px| ==> px[k] == Sum(x2[..k]) && py[k] == y2[Min(k, |y2| - 1)]
    ensures forall k :: 0 < k < |px + [t]| ==> (px + [t])[k] == Sum(x2[..k]) && (py + [q])[k] == y2[Min(k, |y2| - 1)]
  {
    forall k | 0 < k < |px + [t]| ensures (px + [t])[k] == Sum(x2[..k]) && (py + [q])[k] == y2[Min(k, |y2| - 1)] {
      if k < |px| {
        assert (px + [t])[k] == px[k] && (py + [q])[k] == py[k];
      }
    }
  }

  /** Both step vectors have one point more than the number of steps, or none at all. */
  lemma StepSeriesLength(x2: seq<real>, y2: seq<real>)
    ensures var n := StepCount(x2, y2);
      |StepTimes(x2, y2)| == |StepRates(x2, y2)| == if n == 0 then 0 else n + 1
    ensures |StepTimes(x2, y2)| == 0 <==> x2 == [] || y2 == []
  {
  }

  /** The series starts at time 0 with the first rate, and point i+1 sits at the sum of the first i+1 intervals. */
  lemma StepSeriesPoints(x2: seq<real>, y2: seq<real>, i: nat)
    requires i < StepCount(x2, y2)
    ensures StepTimes(x2, y2)[0] == 0.0 && StepRates(x2, y2)[0] == y2[0]
    ensures StepTimes(x2, y2)[i + 1] == StepTimes(x2, y2)[i] + x2[i]
  {
    assert x2[..i + 1][..i] == x2[..i];
    if i == 0 {
      assert x2[..1][..0] == [];
      assert Sum(x2[..1]) == Sum(x2[..1][..0]) + x2[0];
    } else {
      assert StepTimes(x2, y2)[i] == Sum(x2[..i]);
    }
  }

  /** The rates of the step chart are the input rates, the last one held to the end of the last interval when there are as many intervals as rates. */
  lemma {:induction false} StepRatesHoldLast(x2: seq<real>, y2: seq<real>)
    requires StepCount(x2, y2) > 0
    ensures |x2| >= |y2| ==> StepRates(x2, y2) == y2 + [y2[|y2| - 1]]
    ensures |x2| < |y2| ==> StepRates(x2, y2) == y2[..|x2| + 1]
  {
    var r := StepRates(x2, y2);
    if |x2| >= |y2| {
      forall k | 0 <= k < |r| ensures r[k] == (y2 + [y2[|y2| - 1]])[k] {
        if k > 0 {
          assert r[k] == (if k < |y2| then y2[k] else y2[k - 1]);
        }
      }
    } else {
      forall k | 0 <= k < |r| ensures r[k] == y2[..|x2| + 1][k] {
        if k > 0 {
          assert r[k] == y2[k];
        }
      }
    }
  }

  /** Non-negative intervals give a non-decreasing time axis. */
  lemma {:induction false} StepTimesNonDecreasing(x2: seq<real>, y2: seq<real>)
    requires NonNegative(x2)
    ensures NonDecreasing(StepTimes(x2, y2))
  {
    var t := StepTimes(x2, y2);
    forall i, j | 0 <= i <= j < |t| ensures t[i] <= t[j] {
      if 0 < i {
        SumPrefixMonotone(x2, i, j);
      } else if 0 < j {
        SumPrefixMonotone(x2, 0, j);
      }
    }
  }

  /** Positive intervals give strictly increasing times, which the absolute-time test recognises, and every pair of times is in order. */
  lemma {:induction false} StepTimesAreAbsolute(x2: seq<real>, y2: seq<real>)
    requires StepCount(x2, y2) > 0
    requires forall k :: 0 <= k < StepCount(x2, y2) ==> x2[k] > 0.0
    ensures IsAbsoluteTime(StepTimes(x2, y2))
    ensures Sorted(StepTimes(x2, y2))
  {
    var n := StepCount(x2, y2);
    var t := StepTimes(x2, y2);
    forall i | 0 <= i < |t| - 1 ensures t[i] < t[i + 1] {
      SumPrefixStrict(x2, i, i + 1);
    }
    StrictlyIncreasingIsSorted(t);
  }

  // ---------------------------------------------------------------------------
  // The production series drawn under the pressure curve
  // ---------------------------------------------------------------------------

  /**
   * What drawStackedPlot plots for the rate curve: for a step chart (type 0)
   * the data as they are when they are absolute times and the accumulated
   * step series otherwise; for a line or scatter chart the data as they are.
   */
  function PreparedSeries(x2: seq<real>, y2: seq<real>, prodGraphType: int): (seq<real>, seq<real>)
  {
    if prodGraphType == 0 && !(IsAbsoluteTime(x2) && x2 != []) then (StepTimes(x2, y2), StepRates(x2, y2))
    else (x2, y2)
  }

  /**
   * The rate-curve part of drawStackedPlot: the plotted vectors, and for a
   * step chart the shut-in / open event lines drawn on both axis rects.
   */
  method PrepareProductionSeries(x2: seq<real>, y2: seq<real>, prodGraphType: int)
    returns (px: seq<real>, py: seq<real>, events: seq<WellEvent>)
    ensures (px, py) == PreparedSeries(x2, y2, prodGraphType)
    ensures events == if prodGraphType == 0 then WellEvents(px, py) else []
  {
    events := [];
    if prodGraphType == 0 {
      var isAbsoluteTime := DetectAbsoluteTime(x2);
      if isAbsoluteTime && x2 != [] {
        px, py := x2, y2;
      } else {
        px, py := AccumulateIntervals(x2, y2);
      }
      events := DetectWellEvents(px, py);
    } else {
      px, py := x2, y2;
    }
  }

  /**
   * A step series that was moved along the time axis and saved back as
   * absolute times is drawn as it is and not accumulated a second time.
   */
  lemma MovedStepSeriesNotReaccumulated(x2: seq<real>, y2: seq<real>, dx: real)
    requires StepCount(x2, y2) > 0
    requires forall k :: 0 <= k < StepCount(x2, y2) ==> x2[k] > 0.0
    ensures var t := StepTimes(x2, y2);
      var moved := seq(|t|, i requires 0 <= i < |t| => t[i] + dx);
      PreparedSeries(moved, StepRates(x2, y2), 0) == (moved, StepRates(x2, y2))
  {
    StepTimesAreAbsolute(x2, y2);
  }

  /** Intervals that happen to increase strictly are taken for absolute times: the test is a heuristic. */
  lemma IncreasingIntervalsReadAsAbsolute()
    ensures PreparedSeries([1.0, 2.0], [5.0, 5.0], 0) == ([1.0, 2.0], [5.0, 5.0])
    ensures StepTimes([1.0, 2.0], [5.0, 5.0]) == [0.0, 1.0, 3.0]
  {
    assert IsAbsoluteTime([1.0, 2.0]);
    assert Sum([1.0, 2.0][..1]) == 1.0 by { assert [1.0, 2.0][..1] == [1.0]; assert [1.0][..0] == []; }
    assert Sum([1.0, 2.0][..2]) == 3.0 by { assert [1.0, 2.0][..2] == [1.0, 2.0]; assert [1.0, 2.0][..1] == [1.0]; assert [1.0][..0] == []; }
  }

  /**
   * A step of zero length makes the accumulated times repeat a value, so a
   * step series saved back after a move no longer passes the strict test and
   * is accumulated a second time.
   */
  lemma ZeroIntervalReaccumulatedAfterMove()
    ensures StepTimes([1.0, 0.0], [5.0, 6.0]) == [0.0, 1.0, 1.0]
    ensures StepRates([1.0, 0.0], [5.0, 6.0]) == [5.0, 6.0, 6.0]
    ensures PreparedSeries([0.0, 1.0, 1.0], [5.0, 6.0, 6.0], 0).0 == [0.0, 0.0, 1.0, 2.0]
  {
    var a := [1.0, 0.0];
    assert Sum(a[..1]) == 1.0 by { assert a[..1] == [1.0]; assert [1.0][..0] == []; }
    assert Sum(a[..2]) == 1.0 by { assert a[..2] == a; assert a[..1] == [1.0]; }
    var t := [0.0, 1.0, 1.0];
    assert !IsAbsoluteTime(t) by { assert !(t[1] < t[2]); }
    assert Sum(t[..1]) == 0.0 by { assert t[..1] == [0.0]; assert [0.0][..0] == []; }
    assert Sum(t[..2]) == 1.0 by { assert t[..2] == [0.0, 1.0]; assert [0.0, 1.0][..1] == [0.0]; }
    assert Sum(t[..3]) == 2.0 by { assert t[..3] == t; assert t[..2] == [0.0, 1.0]; }
  }

  // ---------------------------------------------------------------------------
  // Shut-in and open events
  // ---------------------------------------------------------------------------

  /** 0 (red line) marks a shut-in, 1 (green line) an opening. */
  datatype EventKind = ShutIn | Open

  datatype WellEvent = WellEvent(time: real, kind: EventKind)

  /** A rate counts as flowing above the 1e-9 threshold. */
  predicate Flowing(q: real)
  {
    q > Epsilon
  }

  /** The event, if any, for the adjacent pair (i, i+1), placed at the later time. */
  function PairEvent(px: seq<real>, py: seq<real>, i: nat): seq<WellEvent>
    requires i + 1 < |px| && i + 1 < |py|
  {
    if Flowing(py[i]) && !Flowing(py[i + 1]) then [WellEvent(px[i + 1], ShutIn)]
    else if !Flowing(py[i]) && Flowing(py[i + 1]) then [WellEvent(px[i + 1], Open)]
    else []
  }

  /** Events of the first n adjacent pairs, in order. */
  function EventsUpTo(px: seq<real>, py: seq<real>, n: nat): (events: seq<WellEvent>)
    requires n < |px| && |px| == |py|
    ensures |events| <= n
  {
    if n == 0 then [] else EventsUpTo(px, py, n - 1) + PairEvent(px, py, n - 1)
  }

  /** All events of a series; none unless both vectors have the same length above one. */
  function WellEvents(px: seq<real>, py: seq<real>): seq<WellEvent>
  {
    if |px| == |py| && |px| > 1 then EventsUpTo(px, py, |px| - 1) else []
  }

  /** The event loop of drawStackedPlot; each emitted event is an addEventLine call. */
  method DetectWellEvents(px: seq<real>, py: seq<real>) returns (events: seq<WellEvent>)
    ensures events == WellEvents(px, py)
  {
    events := [];
    if |px| == |py| && |px| > 1 {
      var i := 0;
      while i < |px| - 1
        invariant 0 <= i <= |px| - 1
        invariant events == EventsUpTo(px, py, i)
      {
        var valCurrent := py[i];
        var valNext := py[i + 1];
        var timeNext := px[i + 1];
        if valCurrent > Epsilon && valNext <= Epsilon {
          events := events + [WellEvent(timeNext, ShutIn)];
        } else if valCurrent <= Epsilon && valNext > Epsilon {
          events := events + [WellEvent(timeNext, Open)];
        }
        i := i + 1;
      }
    }
  }

  /** At most one event per adjacent pair. */
  lemma WellEventsBound(px: seq<real>, py: seq<real>)
    ensures |WellEvents(px, py)| <= if |px| > 1 then |px| - 1 else 0
  {
  }

  /** Every event marks a crossing of the threshold between two adjacent samples, at the later time. */
  lemma {:induction false} WellEventSound(px: seq<real>, py: seq<real>, n: nat, k: nat)
    requires n < |px| && |px| == |py|
    requires k < |EventsUpTo(px, py, n)|
    ensures exists i :: 0 <= i < n && PairEvent(px, py, i) == [EventsUpTo(px, py, n)[k]]
  {
    var prev := EventsUpTo(px, py, n - 1);
    if k < |prev| {
      WellEventSound(px, py, n - 1, k);
      var i :| 0 <= i < n - 1 && PairEvent(px, py, i) == [prev[k]];
      assert EventsUpTo(px, py, n)[k] == prev[k];
    } else {
      assert PairEvent(px, py, n - 1) == [EventsUpTo(px, py, n)[k]];
    }
  }

  /** Every crossing between adjacent samples produces its event. */
  lemma {:induction false} WellEventComplete(px: seq<real>, py: seq<real>, n: nat, i: nat)
    requires n < |px| && |px| == |py|
    requires i < n && PairEvent(px, py, i) != []
    ensures PairEvent(px, py, i)[0] in EventsUpTo(px, py, n)
  {
    if i < n - 1 {
      WellEventComplete(px, py, n - 1, i);
    }
  }

  /** One more pair appends its event, if any, to the events so far. */
  lemma EventsUpToStep(px: seq<real>, py: seq<real>, n: nat)
    requires 0 < n < |px| && |px| == |py|
    ensures |EventsUpTo(px, py, n)| == |EventsUpTo(px, py, n - 1)| + |PairEvent(px, py, n - 1)|
    ensures forall k :: 0 <= k < |EventsUpTo(px, py, n - 1)| ==> EventsUpTo(px, py, n)[k] == EventsUpTo(px, py, n - 1)[k]
    ensures |PairEvent(px, py, n - 1)| > 0 ==> EventsUpTo(px, py, n)[|EventsUpTo(px, py, n - 1)|] == PairEvent(px, py, n - 1)[0]
  {
  }

  /**
   * The number of events so far decides the flow state: the well flows at
   * sample n iff it flowed at the first sample and an even number of events
   * has passed, or it did not and an odd number has.
   */
  lemma {:induction false} FlowParity(px: seq<real>, py: seq<real>, n: nat)
    requires n < |px| && |px| == |py|
    ensures Flowing(py[n]) <==> (Flowing(py[0]) <==> |EventsUpTo(px, py, n)| % 2 == 0)
  {
    if n > 0 {
      EventsUpToStep(px, py, n);
      FlowParity(px, py, n - 1);
      PairEventKind(px, py, n - 1);
    }
  }

  /** Event k is a shut-in iff the well flowed at the first sample and k is even, or it did not and k is odd. */
  lemma {:induction false} EventKindParity(px: seq<real>, py: seq<real>, n: nat, k: nat)
    requires n < |px| && |px| == |py|
    requires k < |EventsUpTo(px, py, n)|
    ensures EventsUpTo(px, py, n)[k].kind == ShutIn <==> (Flowing(py[0]) <==> k % 2 == 0)
  {
    var prev := EventsUpTo(px, py, n - 1);
    EventsUpToStep(px, py, n);
    if k < |prev| {
      EventKindParity(px, py, n - 1, k);
    } else {
      FlowParity(px, py, n - 1);
      PairEventKind(px, py, n - 1);
    }
  }

  /** Without events among the first n pairs, the well flows at sample n iff it flows at the first sample. */
  lemma NoEventKeepsFlow(px: seq<real>, py: seq<real>, n: nat)
    requires n < |px| && |px| == |py|
    requires |EventsUpTo(px, py, n)| == 0
    ensures Flowing(py[0]) <==> Flowing(py[n])
  {
    FlowParity(px, py, n);
  }

  /** The first event is a shut-in iff the well flows at the first sample. */
  lemma FirstEventKind(px: seq<real>, py: seq<real>, n: nat)
    requires n < |px| && |px| == |py|
    requires |EventsUpTo(px, py, n)| > 0
    ensures EventsUpTo(px, py, n)[0].kind == ShutIn <==> Flowing(py[0])
  {
    EventKindParity(px, py, n, 0);
  }

  /** The last event is a shut-in iff the well does not flow at the last sample considered. */
  lemma LastEventKind(px: seq<real>, py: seq<real>, n: nat)
    requires n < |px| && |px| == |py|
    requires |EventsUpTo(px, py, n)| > 0
    ensures var e := EventsUpTo(px, py, n);
      e[|e| - 1].kind == ShutIn <==> !Flowing(py[n])
  {
    EventKindParity(px, py, n, |EventsUpTo(px, py, n)| - 1);
    FlowParity(px, py, n);
  }

  /** Shut-in and open events alternate: every two consecutive events differ in kind. */
  lemma WellEventsAlternate(px: seq<real>, py: seq<real>, n: nat)
    requires n < |px| && |px| == |py|
    ensures var e := EventsUpTo(px, py, n);
      forall j, k :: 0 <= j < k < |e| && k == j + 1 ==> e[j].kind != e[k].kind
  {
    var e := EventsUpTo(px, py, n);
    forall j, k | 0 <= j < k < |e| && k == j + 1 ensures e[j].kind != e[k].kind {
      EventKindParity(px, py, n, j);
      EventKindParity(px, py, n, k);
    }
  }

  /** A pair gives no event iff both samples flow or neither does; a shut-in leaves a flowing sample, an opening a non-flowing one. */
  lemma PairEventKind(px: seq<real>, py: seq<real>, i: nat)
    requires i + 1 < |px| && i + 1 < |py|
    ensures |PairEvent(px, py, i)| <= 1
    ensures |PairEvent(px, py, i)| == 0 <==> (Flowing(py[i]) <==> Flowing(py[i + 1]))
    ensures |PairEvent(px, py, i)| == 1 ==>
      (PairEvent(px, py, i)[0].kind == ShutIn <==> Flowing(py[i]))
      && (PairEvent(px, py, i)[0].kind == ShutIn <==> !Flowing(py[i + 1]))
  {
  }
}
