/**
 More stock never hurts: raising on-hand stock or the quantity of an existing movement never
 lowers a sample, never stops the line at a moment it ran before, and never adds units short.
 The argument runs both simulations side by side over the same event times.
 */
module ProjectionMonotone {
  import opened Basics
  import opened StockProjection

  /** The same event times, no quantity lower. */
  ghost predicate Raised(events: seq<Movement>, more: seq<Movement>) {
    && |events| == |more|
    && forall i :: 0 <= i < |events| ==> events[i].at == more[i].at && events[i].qty <= more[i].qty
  }

  lemma RaisedPrefix(events: seq<Movement>, more: seq<Movement>, now: int)
    requires Raised(events, more) && events != [] && Timeline(events, now)
    ensures Raised(events[..|events| - 1], more[..|more| - 1])
    ensures Timeline(more, now) && LastTime(now, events) == LastTime(now, more)
    ensures LastTime(now, events[..|events| - 1]) == LastTime(now, more[..|more| - 1])
  {
  }

  lemma {:induction false} LevelMonotone(a: real, b: real, now: int, rate: real, events: seq<Movement>,
                                         more: seq<Movement>)
    requires 0.0 <= a <= b && rate >= 0.0 && Raised(events, more) && Timeline(events, now) && Timeline(more, now)
    ensures 0.0 <= Level(a, now, rate, events) <= Level(b, now, rate, more)
  {
    hide Burnt, Runout;
    if events != [] {
      RaisedPrefix(events, more, now);
      var before, moreBefore := events[..|events| - 1], more[..|more| - 1];
      LevelMonotone(a, b, now, rate, before, moreBefore);
      DrainMonotone(Level(a, now, rate, before), Level(b, now, rate, moreBefore), rate,
                    events[|events| - 1].at - LastTime(now, before));
    }
  }

  /** At every moment the raised inputs project at least as much stock. */
  lemma {:induction false} StockMonotone(a: real, b: real, now: int, rate: real, events: seq<Movement>,
                                         more: seq<Movement>, moment: int)
    requires 0.0 <= a <= b && rate >= 0.0 && Raised(events, more) && Timeline(events, now) && Timeline(more, now)
    requires now <= moment
    ensures 0.0 <= StockAt(a, now, rate, events, moment) <= StockAt(b, now, rate, more, moment)
  {
    hide Burnt, Runout;
    if events != [] {
      RaisedPrefix(events, more, now);
    }
    if LastTime(now, events) <= moment {
      LevelMonotone(a, b, now, rate, events, more);
      DrainMonotone(Level(a, now, rate, events), Level(b, now, rate, more), rate, moment - LastTime(now, events));
    } else {
      StockMonotone(a, b, now, rate, events[..|events| - 1], more[..|more| - 1], moment);
    }
  }

  /** A moment stopped under the raised inputs was stopped before. */
  lemma NoNewStops(a: real, b: real, now: int, rate: real, events: seq<Movement>, more: seq<Movement>, end: int,
                   moment: int)
    requires 0.0 <= a <= b && rate > 0.0 && Raised(events, more) && Timeline(events, now) && Timeline(more, now)
    requires LastTime(now, events) <= end && LastTime(now, more) <= end && now <= moment <= end
    requires Covered(Spans(Finished(b, now, rate, more, end)), moment)
    ensures Covered(Spans(Finished(a, now, rate, events, end)), moment)
  {
    hide Burnt, Runout;
    ZeroExactlyWhenStopped(a, now, rate, events, end, moment);
    ZeroExactlyWhenStopped(b, now, rate, more, end, moment);
    StockMonotone(a, b, now, rate, events, more, moment);
  }

  // ----- Units short -----

  /** Whole seconds from `a` to `b`. */
  function Seconds(a: int, b: int): int {
    (b - a) / SECOND
  }

  lemma SecondsSplit(a: int, b: int, c: int)
    requires a <= b <= c
    ensures 0 <= Seconds(a, b) && Seconds(a, b) + Seconds(b, c) <= Seconds(a, c)
  {
  }

  /** Whole seconds stopped, each line stop cut on its own; an open one runs to the horizon. */
  function Stopped(spans: seq<Span>, horizon: int): int {
    if spans == [] then 0
    else
      var last := spans[|spans| - 1];
      Stopped(spans[..|spans| - 1], horizon)
      + Seconds(last.start, if last.end == None then horizon else last.end.value)
  }

  lemma StoppedSnoc(spans: seq<Span>, span: Span, horizon: int)
    ensures Stopped(spans + [span], horizon)
         == Stopped(spans, horizon) + Seconds(span.start, if span.end == None then horizon else span.end.value)
  {
    assert (spans + [span])[..|spans|] == spans;
  }

  /** `high` runs with at least the stock of `low` and has stopped no longer. */
  ghost predicate Better(low: Sim, high: Sim, horizon: int) {
    && low.t == high.t && 0.0 <= low.stock <= high.stock
    && (low.since == None ==>
          high.since == None && Stopped(high.windows, horizon) <= Stopped(low.windows, horizon))
    && (low.since != None ==>
          && low.since.value <= low.t
          && (high.since != None ==> low.since.value <= high.since.value <= low.t)
          && Stopped(high.windows, horizon)
             <= Stopped(low.windows, horizon)
                + Seconds(low.since.value, if high.since == None then low.t else high.since.value))
  }

  lemma AdvanceBetter(low: Sim, high: Sim, now: int, rate: real, until: int, horizon: int)
    requires Better(low, high, horizon) && Sound(low, now, rate) && Sound(high, now, rate)
    requires rate > 0.0 && low.t <= until
    ensures Better(Advance(low, rate, until), Advance(high, rate, until), horizon)
  {
    hide Burnt, Runout;
    AdvanceSound(low, now, rate, until);
    AdvanceSound(high, now, rate, until);
    DrainMonotone(low.stock, high.stock, rate, until - low.t);
    RunoutMonotone(0.0, high.stock, rate);
    RunoutMonotone(low.stock, high.stock, rate);
  }

  lemma MeetBetter(low: Sim, high: Sim, now: int, rate: real, qty: real, more: real, horizon: int)
    requires Better(low, high, horizon) && Sound(low, now, rate) && Sound(high, now, rate)
    requires rate > 0.0 && qty <= more
    ensures Better(Meet(low, rate, qty), Meet(high, rate, more), horizon)
  {
    hide Burnt, Runout;
    var t := low.t;
    if low.since != None {
      StoppedSnoc(low.windows, Span(low.since.value, Some(t)), horizon);
    }
    if high.since != None {
      StoppedSnoc(high.windows, Span(high.since.value, Some(t)), horizon);
      SecondsSplit(low.since.value, high.since.value, t);
    }
  }

  lemma {:induction false} SimulateBetter(a: real, b: real, now: int, rate: real, events: seq<Movement>,
                                          more: seq<Movement>, horizon: int)
    requires 0.0 <= a <= b && rate > 0.0 && Raised(events, more) && Timeline(events, now) && Timeline(more, now)
    ensures Better(Simulate(a, now, rate, events), Simulate(b, now, rate, more), horizon)
  {
    hide Burnt, Runout;
    if events != [] {
      RaisedPrefix(events, more, now);
      var before, moreBefore := events[..|events| - 1], more[..|more| - 1];
      var event, raised := events[|events| - 1], more[|more| - 1];
      SimulateBetter(a, b, now, rate, before, moreBefore, horizon);
      SimulateSound(a, now, rate, before);
      SimulateSound(b, now, rate, moreBefore);
      var low, high := Simulate(a, now, rate, before), Simulate(b, now, rate, moreBefore);
      AdvanceBetter(low, high, now, rate, event.at, horizon);
      AdvanceSound(low, now, rate, event.at);
      AdvanceSound(high, now, rate, event.at);
      MeetBetter(Advance(low, rate, event.at), Advance(high, rate, event.at), now, rate, event.qty, raised.qty,
        horizon);
    }
  }

  /** The raised inputs stop the line for no more whole seconds in all. */
  lemma StoppedNoLonger(a: real, b: real, now: int, rate: real, events: seq<Movement>, more: seq<Movement>, end: int)
    requires 0.0 <= a <= b && rate > 0.0 && Raised(events, more) && Timeline(events, now) && Timeline(more, now)
    requires LastTime(now, events) <= end && LastTime(now, more) <= end
    ensures Stopped(Spans(Finished(b, now, rate, more, end)), end)
         <= Stopped(Spans(Finished(a, now, rate, events, end)), end)
  {
    hide Burnt, Runout;
    if events != [] {
      RaisedPrefix(events, more, now);
    }
    SimulateBetter(a, b, now, rate, events, more, end);
    SimulateSound(a, now, rate, events);
    SimulateSound(b, now, rate, more);
    AdvanceBetter(Simulate(a, now, rate, events), Simulate(b, now, rate, more), now, rate, end, end);
    var low, high := Finished(a, now, rate, events, end), Finished(b, now, rate, more, end);
    if low.since != None {
      StoppedSnoc(low.windows, Span(low.since.value, None), end);
      if high.since != None {
        StoppedSnoc(high.windows, Span(high.since.value, None), end);
        SecondsSplit(low.since.value, high.since.value, end);
      } else {
        assert Spans(high) == high.windows;
      }
    } else {
      assert Spans(high) == high.windows && Spans(low) == low.windows;
    }
  }
}
