/** What every projection promises, for all inputs. */
module ProjectionTheorems {
  import opened Basics
  import opened StockProjection
  import opened ProjectionExact
  import opened ProjectionMonotone
  import opened Projecting

  /** Samples are whole seconds from `now`, and within any horizon of three days or more. */
  lemma SampleTime(now: int, days: nat, i: nat)
    requires i < |Samples(now, days)|
    ensures now <= Samples(now, days)[i] && (Samples(now, days)[i] - now) % SECOND == 0
    ensures days >= 3 ==> Samples(now, days)[i] <= now + days * DAY
  {
    if i <= HOURLY {
      assert Samples(now, days)[i] - now == i * 3600 * SECOND;
    } else {
      assert Samples(now, days)[i] - now == (i - HOURLY + 3) * 86400 * SECOND;
    }
  }

  // ----- Line stops -----

  /** The moments a projection reports as stopped are those the finished loop covers. */
  lemma InStopIsCovered(p: Projection, inputs: PlantInputs, s: Sim, end: int, times: seq<int>, moment: int)
    requires Reports(p, inputs, s, end, times)
    ensures InStop(p, moment) <==> Covered(Spans(s), moment)
  {
    if Covered(Spans(s), moment) {
      var i :| 0 <= i < |Spans(s)| && Within(Spans(s)[i], moment);
      assert p.windows[i].span == Spans(s)[i];
    }
  }

  /** What the reference says at a moment carries over to the reported points and stops. */
  lemma PointIsRight(p: Projection, inputs: PlantInputs, s: Sim, events: seq<Movement>, now: int, end: int,
                     times: seq<int>, i: nat)
    requires Timeline(events, now) && LastTime(now, events) <= end
    requires s == Finished(Max(inputs.onHand, 0.0), now, Rate(inputs), events, end)
    requires Reports(p, inputs, s, end, times)
    requires i < |p.points| && now <= p.points[i].at <= end
    ensures p.points[i].stock == StockAt(Max(inputs.onHand, 0.0), now, Rate(inputs), events, p.points[i].at) >= 0.0
    ensures inputs.rate > 0.0 ==> (p.points[i].stock == 0.0 <==> InStop(p, p.points[i].at))
  {
    hide Burnt, Runout;
    var start, moment := Max(inputs.onHand, 0.0), p.points[i].at;
    ZeroExactlyWhenStopped(start, now, Rate(inputs), events, end, moment);
    InStopIsCovered(p, inputs, s, end, times, moment);
    StockMonotone(start, start, now, Rate(inputs), events, events, moment);
  }

  /**
   A projected point is zero exactly when its moment lies in a reported line stop, and is never
   negative. A point beyond a horizon of fewer than three days is not claimed.
   */
  lemma PointZeroExactlyInStop(p: Projection, inputs: PlantInputs, now: int, days: nat, i: nat)
    requires IsProjection(p, inputs, now, days) && i < |p.points|
    requires inputs.rate > 0.0 && p.points[i].at <= now + days * DAY
    ensures now <= p.points[i].at
    ensures p.points[i].stock >= 0.0
    ensures p.points[i].stock == 0.0 <==> InStop(p, p.points[i].at)
    ensures p.points[i].stock == Stock(inputs, now, now + days * DAY, p.points[i].at)
  {
    hide Finished, Events, Samples, Value, StockAt, WindowsOf;
    var end := now + days * DAY;
    EventsTimeline(inputs, now, end);
    SampleTime(now, days, i);
    PointIsRight(p, inputs, Simulated(inputs, now, end), Events(inputs, now, end), now, end, Samples(now, days), i);
  }

  /** One line stop per stock-out, starting at it; in order, disjoint, only the last one open. */
  ghost predicate OneStopEach(p: Projection, end: int) {
    && |p.windows| == |p.stockouts|
    && (forall i :: 0 <= i < |p.windows| ==> p.windows[i].span.start == p.stockouts[i])
    && (forall i :: 0 <= i < |p.windows| && p.windows[i].span.end != None ==>
          p.windows[i].span.start <= p.windows[i].span.end.value <= end)
    && (forall i, j :: 0 <= i < j < |p.windows| ==>
          p.windows[i].span.end != None && p.windows[i].span.end.value <= p.windows[j].span.start)
  }

  lemma StopsOfSound(p: Projection, inputs: PlantInputs, s: Sim, now: int, end: int, times: seq<int>)
    requires Sound(s, now, Rate(inputs)) && s.t == end && Reports(p, inputs, s, end, times)
    ensures OneStopEach(p, end)
  {
    hide PointsOf, Rate, Burnt, Names, OrdersIn;
    assert |p.windows| == |Spans(s)|;
    assert forall i :: 0 <= i < |p.windows| ==> p.windows[i].span == Spans(s)[i];
  }

  /** Every projection reports its line stops so, whatever rounding does to the stock-out times. */
  lemma OneStopPerStockout(p: Projection, inputs: PlantInputs, now: int, days: nat)
    requires IsProjection(p, inputs, now, days)
    ensures OneStopEach(p, now + days * DAY)
  {
    hide Reports, Simulated, Sound, OneStopEach;
    SimulatedSound(inputs, now, now + days * DAY);
    SimulatedTime(inputs, now, now + days * DAY);
    StopsOfSound(p, inputs, Simulated(inputs, now, now + days * DAY), now, now + days * DAY, Samples(now, days));
  }

  lemma SimulatedTime(inputs: PlantInputs, now: int, end: int)
    requires now <= end
    ensures Simulated(inputs, now, end).t == end
  {
    EventsTimeline(inputs, now, end);
  }

  // ----- Exact model -----

  /**
   A projected point against the exact continuous stock: at most the cut-off fractions above it, and below it
   at most by half a second of consumption per stock-out reported so far; never above it on whole seconds.
   */
  lemma PointNearExact(p: Projection, inputs: PlantInputs, now: int, days: nat, i: nat)
    requires IsProjection(p, inputs, now, days) && i < |p.points| && p.points[i].at <= now + days * DAY
    ensures Timeline(Events(inputs, now, now + days * DAY), now) && now <= p.points[i].at
    ensures var events, at := Events(inputs, now, now + days * DAY), p.points[i].at;
      && -CutAt(now, Rate(inputs), events, at)
         <= ExactAt(Max(inputs.onHand, 0.0), now, Rate(inputs), events, at) - p.points[i].stock
         <= Allowance(p.stockouts, Rate(inputs), at)
      && (WholeUpTo(events, now, at) ==> CutAt(now, Rate(inputs), events, at) == 0.0)
  {
    hide Burnt, Runout, Finished, Events, Samples, Value, ExactAt, Allowance, WindowsOf, CutAt, WholeUpTo;
    var end, moment := now + days * DAY, p.points[i].at;
    EventsTimeline(inputs, now, end);
    SampleTime(now, days, i);
    ValueNearExact(Max(inputs.onHand, 0.0), now, Rate(inputs), Events(inputs, now, end), end, moment);
  }

  // ----- Monotone -----

  /** The same plant with no less stock and no movement smaller, at the same times. */
  ghost predicate NoLess(inputs: PlantInputs, more: PlantInputs) {
    inputs.rate == more.rate && inputs.onHand <= more.onHand && Raised(inputs.movements, more.movements)
  }

  lemma {:induction false} InsertRaised(x: Movement, y: Movement, xs: seq<Movement>, ys: seq<Movement>)
    requires x.at == y.at && x.qty <= y.qty && Raised(xs, ys)
    ensures Raised(Insert(ByTime, x, xs), Insert(ByTime, y, ys))
  {
    if xs != [] && !ByTime(x, xs[0]) {
      InsertRaised(x, y, xs[1..], ys[1..]);
    }
  }

  lemma {:induction false} SortedRaised(xs: seq<Movement>, ys: seq<Movement>)
    requires Raised(xs, ys)
    ensures Raised(Sorted(ByTime, xs), Sorted(ByTime, ys))
  {
    if xs != [] {
      SortedRaised(xs[1..], ys[1..]);
      InsertRaised(xs[0], ys[0], Sorted(ByTime, xs[1..]), Sorted(ByTime, ys[1..]));
    }
  }

  lemma RaisedPrepend(x: Movement, y: Movement, xs: seq<Movement>, ys: seq<Movement>)
    requires x.at == y.at && x.qty <= y.qty && Raised(xs, ys)
    ensures Raised([x] + xs, [y] + ys)
  {
  }

  lemma {:induction false} FilterRaised(xs: seq<Movement>, ys: seq<Movement>, end: int)
    requires Raised(xs, ys)
    ensures Raised(Filter((m: Movement) => m.at <= end, xs), Filter((m: Movement) => m.at <= end, ys))
  {
    if xs != [] {
      FilterRaised(xs[1..], ys[1..], end);
      RaisedPrepend(xs[0], ys[0], Filter((m: Movement) => m.at <= end, xs[1..]),
        Filter((m: Movement) => m.at <= end, ys[1..]));
      assert [] + Filter((m: Movement) => m.at <= end, xs[1..]) == Filter((m: Movement) => m.at <= end, xs[1..]);
      assert [] + Filter((m: Movement) => m.at <= end, ys[1..]) == Filter((m: Movement) => m.at <= end, ys[1..]);
    }
  }

  lemma {:induction false} ClampedRaised(xs: seq<Movement>, ys: seq<Movement>, now: int)
    requires Raised(xs, ys)
    ensures Raised(Clamped(xs, now), Clamped(ys, now))
  {
    if xs != [] {
      ClampedRaised(xs[1..], ys[1..], now);
    }
  }

  lemma EventsRaised(inputs: PlantInputs, more: PlantInputs, now: int, end: int)
    requires NoLess(inputs, more)
    ensures Raised(Events(inputs, now, end), Events(more, now, end))
  {
    ClampedRaised(inputs.movements, more.movements, now);
    var xs, ys := Clamped(inputs.movements, now), Clamped(more.movements, now);
    SortedRaised(xs, ys);
    FilterRaised(Sorted(ByTime, xs), Sorted(ByTime, ys), end);
  }

  /** Units short over all line stops: `units_short` of the source. */
  function UnitsShort(windows: seq<Window>): real {
    if windows == [] then 0.0
    else UnitsShort(windows[..|windows| - 1]) + windows[|windows| - 1].unitsShort
  }

  lemma {:induction false} UnitsShortIsStopped(inputs: PlantInputs, spans: seq<Span>, end: int)
    ensures UnitsShort(WindowsOf(spans, inputs, end)) == Rate(inputs) / 3600.0 * Stopped(spans, end) as real
  {
    hide Rate, Names, OrdersIn;
    if spans != [] {
      var n, windows := |spans| - 1, WindowsOf(spans, inputs, end);
      UnitsShortIsStopped(inputs, spans[..n], end);
      assert windows[..n] == WindowsOf(spans[..n], inputs, end);
      var seconds := Seconds(spans[n].start, Stop(spans[n], end));
      assert windows[n].unitsShort == Rate(inputs) * (seconds as real / 3600.0);
      Distribute(Rate(inputs), Stopped(spans[..n], end), seconds);
    }
  }

  lemma Distribute(rate: real, a: int, b: int)
    ensures rate / 3600.0 * (a + b) as real == rate / 3600.0 * a as real + rate * (b as real / 3600.0)
  {
    var r, x, y := rate / 3600.0, a as real, b as real;
    assert (a + b) as real == x + y;
    assert r * (x + y) == r * x + r * y;
    assert r * y == rate * (y / 3600.0);
  }

  /** More stock or larger movements never lower a sample. */
  lemma MoreNeverLowersAPoint(p: Projection, q: Projection, inputs: PlantInputs, more: PlantInputs, now: int,
                              days: nat, i: nat)
    requires IsProjection(p, inputs, now, days) && IsProjection(q, more, now, days) && NoLess(inputs, more)
    requires i < |p.points| && p.points[i].at <= now + days * DAY
    ensures |q.points| == |p.points| && q.points[i].at == p.points[i].at
    ensures p.points[i].stock <= q.points[i].stock
  {
    hide Finished, Events, Samples, Value, StockAt, WindowsOf;
    var end, moment := now + days * DAY, p.points[i].at;
    var a, b, rate := Max(inputs.onHand, 0.0), Max(more.onHand, 0.0), Rate(inputs);
    var events, raised := Events(inputs, now, end), Events(more, now, end);
    EventsTimeline(inputs, now, end);
    EventsTimeline(more, now, end);
    EventsRaised(inputs, more, now, end);
    SampleTime(now, days, i);
    StockMonotone(a, b, now, rate, events, raised, moment);
    ZeroExactlyWhenStopped(a, now, rate, events, end, moment);
    ZeroExactlyWhenStopped(b, now, rate, raised, end, moment);
  }

  /** They never stop the line at a moment it ran before. */
  lemma MoreNeverStopsTheLine(p: Projection, q: Projection, inputs: PlantInputs, more: PlantInputs, now: int,
                              days: nat, moment: int)
    requires IsProjection(p, inputs, now, days) && IsProjection(q, more, now, days) && NoLess(inputs, more)
    requires inputs.rate > 0.0 && now <= moment <= now + days * DAY && InStop(q, moment)
    ensures InStop(p, moment)
  {
    hide Finished, Events, Samples, StockAt, Covered, InStop, WindowsOf, PointsOf;
    var end := now + days * DAY;
    EventsTimeline(inputs, now, end);
    EventsTimeline(more, now, end);
    EventsRaised(inputs, more, now, end);
    InStopIsCovered(p, inputs, Simulated(inputs, now, end), end, Samples(now, days), moment);
    InStopIsCovered(q, more, Simulated(more, now, end), end, Samples(now, days), moment);
    NoNewStops(Max(inputs.onHand, 0.0), Max(more.onHand, 0.0), now, Rate(inputs),
               Events(inputs, now, end), Events(more, now, end), end, moment);
  }

  /** They never raise the total of units short. */
  lemma MoreNeverAddsUnitsShort(p: Projection, q: Projection, inputs: PlantInputs, more: PlantInputs, now: int,
                                days: nat)
    requires IsProjection(p, inputs, now, days) && IsProjection(q, more, now, days) && NoLess(inputs, more)
    requires inputs.rate > 0.0
    ensures UnitsShort(q.windows) <= UnitsShort(p.windows)
  {
    hide Finished, Events, Samples, UnitsShort, Stopped, WindowsOf, PointsOf;
    var end := now + days * DAY;
    EventsTimeline(inputs, now, end);
    EventsTimeline(more, now, end);
    EventsRaised(inputs, more, now, end);
    StoppedNoLonger(Max(inputs.onHand, 0.0), Max(more.onHand, 0.0), now, Rate(inputs),
                    Events(inputs, now, end), Events(more, now, end), end);
    SimulatedSound(inputs, now, end);
    SimulatedSound(more, now, end);
    var low, high := Spans(Simulated(inputs, now, end)), Spans(Simulated(more, now, end));
    UnitsShortIsStopped(inputs, low, end);
    UnitsShortIsStopped(more, high, end);
    Scale(Rate(inputs) / 3600.0, Stopped(high, end) as real, Stopped(low, end) as real);
  }
}
