/**
 The time-phased stock projection of services/optimizer/projection.py.

 Instants and durations are integers counting microseconds, the resolution of the source's
 datetimes; quantities are exact reals. Consumption is per hour, durations are cut to whole
 seconds and stock-out times are rounded to whole seconds, as the source does.
 */
module StockProjection {
  import opened Basics

  const SECOND := 1000000
  const HOUR := 3600 * SECOND
  const DAY := 24 * HOUR
  const HOURLY := 72

  /** A receipt (qty > 0) or an issue (qty < 0). */
  datatype Movement = Movement(at: int, qty: real, name: string, sourceRef: string)

  datatype Requirement = Requirement(order: string, at: int, qty: real, sourceRef: string)

  datatype PlantInputs = PlantInputs(
    plant: string, onHand: real, rate: real,
    movements: seq<Movement>, requirements: seq<Requirement>, sourceRefs: seq<string>)

  /** A line stop; `end` is None when the line is still stopped at the horizon. */
  datatype Span = Span(start: int, end: Option<int>)

  datatype Window = Window(span: Span, orders: seq<string>, unitsShort: real)

  /** Stock right after an instant; it falls at the consumption rate until the next break. */
  datatype Break = Break(at: int, level: real)

  datatype Point = Point(at: int, stock: real)

  datatype Projection = Projection(
    plant: string, points: seq<Point>, stockouts: seq<int>, windows: seq<Window>,
    sourceRefs: seq<string>)

  // ----- Rounding -----

  /** Decimal.to_integral_value: to the nearest integer, ties to the even one. */
  function RoundHalfEven(x: real): (n: int)
    ensures -0.5 <= n as real - x <= 0.5
    ensures n as real - x in {-0.5, 0.5} ==> n % 2 == 0
  {
    var low := x.Floor;
    var part := x - low as real;
    if part < 0.5 || (part == 0.5 && low % 2 == 0) then low else low + 1
  }

  /** Rounding never reverses an order, so a larger stock never runs out earlier. */
  lemma RoundMonotone(x: real, y: real)
    requires x <= y
    ensures RoundHalfEven(x) <= RoundHalfEven(y)
  {
    if x.Floor < y.Floor {
      assert RoundHalfEven(x) <= x.Floor + 1;
    }
  }

  /** Hours in a duration cut to whole seconds. Every duration the projection measures runs forward. */
  function Hours(delta: int): (h: real)
    ensures delta >= 0 ==> h >= 0.0
  {
    (delta / SECOND) as real / 3600.0
  }

  /** The duration of so many hours, rounded to whole seconds. */
  function Lasting(hours: real): int {
    RoundHalfEven(hours * 3600.0) * SECOND
  }

  // ----- One stretch without events -----

  /** Consumption booked for a stretch. */
  function Burnt(rate: real, delta: int): real {
    rate * Hours(delta)
  }

  /** How long stock lasts, rounded to whole seconds. */
  function Runout(stock: real, rate: real): int
    requires rate > 0.0
  {
    Lasting(stock / rate)
  }

  /** Stock after `delta` without events: the reference for one stretch of the simulation. */
  function Drain(stock: real, rate: real, delta: int): real {
    if stock > 0.0 && rate > 0.0 then
      if Runout(stock, rate) <= delta then 0.0 else stock - Burnt(rate, delta)
    else stock
  }

  lemma Scale(rate: real, a: real, b: real)
    requires rate >= 0.0 && a <= b
    ensures rate * a <= rate * b
  {
  }

  lemma ScaleStrictly(rate: real, a: real, b: real)
    requires rate > 0.0 && a < b
    ensures rate * a < rate * b
  {
  }

  lemma Quotient(stock: real, rate: real) returns (hours: real)
    requires rate > 0.0
    ensures hours == stock / rate && rate * hours == stock
  {
    hours := stock / rate;
  }

  lemma BurntNonnegative(rate: real, delta: int)
    requires rate >= 0.0 && delta >= 0
    ensures Burnt(rate, delta) >= 0.0
    ensures rate == 0.0 ==> Burnt(rate, delta) == 0.0
  {
    Scale(rate, 0.0, Hours(delta));
  }

  /** Half a second of consumption. */
  function HalfSecond(rate: real): real {
    rate / 7200.0
  }

  lemma RunoutAbove(stock: real, rate: real, delta: int) returns (hours: real)
    requires rate > 0.0 && Runout(stock, rate) > delta
    ensures rate * hours == stock && Hours(delta) < hours
  {
    hours := Quotient(stock, rate);
    assert RoundHalfEven(hours * 3600.0) >= delta / SECOND + 1;
  }

  lemma RunoutBelow(stock: real, rate: real, delta: int) returns (hours: real)
    requires rate > 0.0 && Runout(stock, rate) <= delta
    ensures rate * hours == stock && hours <= Hours(delta) + 1.0 / 7200.0
  {
    hours := Quotient(stock, rate);
    assert RoundHalfEven(hours * 3600.0) <= delta / SECOND;
  }

  /** Before its rounded stock-out time the stock really is positive. */
  lemma StillPositive(stock: real, rate: real, delta: int)
    requires stock > 0.0 && rate > 0.0 && delta >= 0
    requires Runout(stock, rate) > delta
    ensures stock - Burnt(rate, delta) > 0.0
  {
    hide Runout, Hours;
    var hours := RunoutAbove(stock, rate, delta);
    ScaleStrictly(rate, Hours(delta), hours);
  }

  /** At its rounded stock-out time at most half a second of consumption is left. */
  lemma NearlyEmpty(stock: real, rate: real, delta: int)
    requires stock > 0.0 && rate > 0.0 && delta >= 0
    requires Runout(stock, rate) <= delta
    ensures stock <= Burnt(rate, delta) + HalfSecond(rate)
  {
    hide Runout, Hours, HalfSecond;
    var hours := RunoutBelow(stock, rate, delta);
    ScaleAndHalfSecond(rate, hours, Hours(delta));
  }

  lemma Spread(rate: real, a: real, b: real)
    ensures rate * (a + b) == rate * a + rate * b
  {
  }

  lemma ScaleAndHalfSecond(rate: real, a: real, b: real)
    requires rate >= 0.0 && a <= b + 1.0 / 7200.0
    ensures rate * a <= rate * b + HalfSecond(rate)
  {
    Scale(rate, a, b + 1.0 / 7200.0);
    Spread(rate, b, 1.0 / 7200.0);
  }

  lemma DivideMonotone(a: real, b: real, rate: real)
    requires rate > 0.0 && a <= b
    ensures a / rate <= b / rate
  {
    var x := Quotient(a, rate);
    var y := Quotient(b, rate);
    if x > y {
      ScaleStrictly(rate, y, x);
    }
  }

  /** More stock never runs out earlier. */
  lemma RunoutMonotone(a: real, b: real, rate: real)
    requires rate > 0.0 && 0.0 <= a <= b
    ensures 0 <= Runout(a, rate) <= Runout(b, rate)
  {
    DivideMonotone(0.0, a, rate);
    DivideMonotone(a, b, rate);
    var x, y := a / rate, b / rate;
    RoundMonotone(0.0, x * 3600.0);
    RoundMonotone(x * 3600.0, y * 3600.0);
  }

  /** More stock at the start of a stretch is never less at its end. */
  lemma DrainMonotone(a: real, b: real, rate: real, delta: int)
    requires rate >= 0.0 && delta >= 0 && 0.0 <= a <= b
    ensures 0.0 <= Drain(a, rate, delta) <= Drain(b, rate, delta)
  {
    hide Burnt, Runout;
    if rate > 0.0 && b > 0.0 {
      RunoutMonotone(a, b, rate);
      if Runout(b, rate) > delta {
        StillPositive(b, rate, delta);
      }
      if a > 0.0 && Runout(a, rate) > delta {
        StillPositive(a, rate, delta);
      }
    }
  }

  // ----- The reference: stock as a function of the events met so far -----

  /** Events in time order, none before `now`. */
  ghost predicate Timeline(events: seq<Movement>, now: int) {
    && (forall i :: 0 <= i < |events| ==> now <= events[i].at)
    && (forall i, j :: 0 <= i < j < |events| ==> events[i].at <= events[j].at)
  }

  ghost function LastTime(now: int, events: seq<Movement>): int {
    if events == [] then now else events[|events| - 1].at
  }

  /** Stock right after the last event; an issue takes no more than there is. */
  ghost function Level(start: real, now: int, rate: real, events: seq<Movement>): real
    requires Timeline(events, now) && rate >= 0.0
  {
    if events == [] then start
    else
      var before, event := events[..|events| - 1], events[|events| - 1];
      Max(Drain(Level(start, now, rate, before), rate, event.at - LastTime(now, before)) + event.qty, 0.0)
  }

  /** Stock at a moment: the level after the last event up to it, drained since. */
  ghost function StockAt(start: real, now: int, rate: real, events: seq<Movement>, moment: int): real
    requires Timeline(events, now) && rate >= 0.0 && now <= moment
  {
    if LastTime(now, events) <= moment then
      Drain(Level(start, now, rate, events), rate, moment - LastTime(now, events))
    else
      StockAt(start, now, rate, events[..|events| - 1], moment)
  }

  // ----- The simulation state of the event loop -----

  datatype Sim = Sim(
    t: int, stock: real, since: Option<int>,
    breaks: seq<Break>, stockouts: seq<int>, windows: seq<Span>)

  function Begin(start: real, now: int, rate: real): Sim {
    var stopped := start == 0.0 && rate > 0.0;
    Sim(now, start, if stopped then Some(now) else None, [Break(now, start)],
        if stopped then [now] else [], [])
  }

  /** Consume from `s.t` to `until`, noting the stock-out on the way if there is one. */
  function Advance(s: Sim, rate: real, until: int): Sim
    requires s.t <= until
  {
    if s.stock > 0.0 && rate > 0.0 then
      var zero := s.t + Runout(s.stock, rate);
      if zero <= until then
        Sim(until, 0.0, Some(zero), s.breaks + [Break(zero, 0.0)], s.stockouts + [zero], s.windows)
      else
        s.(t := until, stock := s.stock - Burnt(rate, until - s.t))
    else s.(t := until)
  }

  /** A receipt or issue at `s.t`. */
  function Meet(s: Sim, rate: real, qty: real): Sim {
    var stock := Max(s.stock + qty, 0.0);
    var met := s.(stock := stock, breaks := s.breaks + [Break(s.t, stock)]);
    if stock == 0.0 then
      if s.since == None && rate > 0.0 then
        met.(since := Some(s.t), stockouts := s.stockouts + [s.t])
      else met
    else
      match s.since
      case None => met
      case Some(stopped) =>
        met.(since := None, windows := s.windows + [Span(stopped, Some(s.t))])
  }

  /** One turn of the event loop. */
  function Turn(s: Sim, rate: real, event: Movement): Sim
    requires s.t <= event.at
  {
    Meet(Advance(s, rate, event.at), rate, event.qty)
  }

  function Simulate(start: real, now: int, rate: real, events: seq<Movement>): (s: Sim)
    requires Timeline(events, now)
    ensures s.t == LastTime(now, events)
  {
    if events == [] then Begin(start, now, rate)
    else
      Turn(Simulate(start, now, rate, events[..|events| - 1]), rate, events[|events| - 1])
  }

  /** The line stops so far; the one still open has no end. */
  function Spans(s: Sim): seq<Span> {
    s.windows + if s.since == None then [] else [Span(s.since.value, None)]
  }

  /** Start inclusive, end exclusive; an open span runs on. */
  predicate Within(span: Span, moment: int) {
    span.start <= moment && (span.end == None || moment < span.end.value)
  }

  ghost predicate Covered(spans: seq<Span>, moment: int) {
    exists i :: 0 <= i < |spans| && Within(spans[i], moment)
  }

  /** In order and disjoint; only the last may be open. */
  ghost predicate Disjoint(spans: seq<Span>) {
    && (forall i :: 0 <= i < |spans| && spans[i].end != None ==> spans[i].start <= spans[i].end.value)
    && (forall i, j :: 0 <= i < j < |spans| ==>
          spans[i].end != None && spans[i].end.value <= spans[j].start)
  }

  /** The level at a moment read from the last break up to it: `value` of the source. */
  function Value(breaks: seq<Break>, rate: real, moment: int): real
    requires breaks != []
  {
    var last := breaks[|breaks| - 1];
    if last.at <= moment || |breaks| == 1 then Max(last.level - Burnt(rate, moment - last.at), 0.0)
    else Value(breaks[..|breaks| - 1], rate, moment)
  }

  // ----- What every simulation state keeps -----

  ghost predicate Sound(s: Sim, now: int, rate: real) {
    && now <= s.t && s.stock >= 0.0
    && (s.since != None <==> s.stock == 0.0 && rate > 0.0)
    && (s.since != None ==> now <= s.since.value <= s.t)
    && s.breaks != [] && s.breaks[0].at == now
    && |s.stockouts| == |Spans(s)|
    && (forall i :: 0 <= i < |Spans(s)| ==> Spans(s)[i].start == s.stockouts[i])
    && (forall i :: 0 <= i < |s.windows| ==> s.windows[i].end != None && s.windows[i].end.value <= s.t)
    && Disjoint(Spans(s))
  }

  lemma BeginSound(start: real, now: int, rate: real)
    requires start >= 0.0
    ensures Sound(Begin(start, now, rate), now, rate) && Fresh(Begin(start, now, rate))
  {
    hide Burnt, Runout;
  }

  lemma AdvanceSound(s: Sim, now: int, rate: real, until: int)
    requires Sound(s, now, rate) && s.t <= until && rate >= 0.0
    ensures Sound(Advance(s, rate, until), now, rate)
    ensures Advance(s, rate, until).stock == Drain(s.stock, rate, until - s.t)
  {
    hide Burnt, Runout;
    if s.stock > 0.0 && rate > 0.0 {
      RunoutMonotone(0.0, s.stock, rate);
      var zero := s.t + Runout(s.stock, rate);
      if zero <= until {
        assert Spans(s) == s.windows;
        assert Spans(Advance(s, rate, until)) == s.windows + [Span(zero, None)];
      } else {
        StillPositive(s.stock, rate, until - s.t);
      }
    }
  }

  lemma MeetSound(s: Sim, now: int, rate: real, qty: real)
    requires Sound(s, now, rate) && rate >= 0.0
    ensures Sound(Meet(s, rate, qty), now, rate)
  {
    hide Burnt, Runout;
    var met := Meet(s, rate, qty);
    if met.stock == 0.0 && s.since == None && rate > 0.0 {
      assert Spans(s) == s.windows;
      assert Spans(met) == s.windows + [Span(s.t, None)];
    } else if met.stock > 0.0 && s.since != None {
      assert Spans(met) == s.windows + [Span(s.since.value, Some(s.t))];
      assert Spans(s) == s.windows + [Span(s.since.value, None)];
      assert forall i :: 0 <= i < |s.windows| ==> Spans(s)[i] == s.windows[i] == Spans(met)[i];
      assert Spans(s)[|s.windows|].start == s.since.value == s.stockouts[|s.windows|];
    } else {
      assert Spans(met) == Spans(s);
    }
  }

  /** The last break is the present. */
  ghost predicate Fresh(s: Sim) {
    s.breaks != [] && s.breaks[|s.breaks| - 1] == Break(s.t, s.stock)
  }

  lemma TurnSound(s: Sim, now: int, rate: real, event: Movement)
    requires Sound(s, now, rate) && s.t <= event.at && rate >= 0.0
    ensures Sound(Turn(s, rate, event), now, rate)
    ensures Turn(s, rate, event).stock == Max(Drain(s.stock, rate, event.at - s.t) + event.qty, 0.0)
    ensures Fresh(Turn(s, rate, event))
  {
    hide Burnt, Runout;
    AdvanceSound(s, now, rate, event.at);
    MeetSound(Advance(s, rate, event.at), now, rate, event.qty);
  }

  lemma {:induction false} SimulateSound(start: real, now: int, rate: real, events: seq<Movement>)
    requires start >= 0.0 && rate >= 0.0 && Timeline(events, now)
    ensures Sound(Simulate(start, now, rate, events), now, rate)
    ensures Simulate(start, now, rate, events).stock == Level(start, now, rate, events)
    ensures Fresh(Simulate(start, now, rate, events))
  {
    hide Burnt, Runout, Turn, Drain, Sound, Fresh;
    if events == [] {
      BeginSound(start, now, rate);
    } else {
      var before := events[..|events| - 1];
      SimulateSound(start, now, rate, before);
      TurnSound(Simulate(start, now, rate, before), now, rate, events[|events| - 1]);
    }
  }

  // ----- The breaks and line stops describe the reference -----

  lemma CoveredSnoc(spans: seq<Span>, x: Span, moment: int)
    ensures Covered(spans + [x], moment) <==> Covered(spans, moment) || Within(x, moment)
  {
    var more := spans + [x];
    if Within(x, moment) {
      assert more[|spans|] == x;
    }
    if Covered(spans, moment) {
      var i :| 0 <= i < |spans| && Within(spans[i], moment);
      assert more[i] == spans[i];
    }
  }

  lemma NoneEnded(spans: seq<Span>, moment: int)
    requires forall i :: 0 <= i < |spans| ==> spans[i].end != None && spans[i].end.value <= moment
    ensures !Covered(spans, moment)
  {
  }

  /** At `moment` the breaks give the reference stock, and it is zero exactly in a line stop. */
  ghost predicate Right(s: Sim, start: real, now: int, rate: real, events: seq<Movement>, moment: int)
    requires Timeline(events, now) && rate >= 0.0 && now <= moment
  {
    && s.breaks != [] && s.breaks[0].at == now
    && Value(s.breaks, rate, moment) == StockAt(start, now, rate, events, moment)
    && (rate > 0.0 ==> (Value(s.breaks, rate, moment) == 0.0 <==> Covered(Spans(s), moment)))
  }

  lemma {:induction false} AdvanceRightEarlier(s: Sim, start: real, now: int, rate: real, events: seq<Movement>,
                                               until: int, moment: int)
    requires Timeline(events, now) && rate >= 0.0 && Sound(s, now, rate)
    requires now <= moment < s.t <= until
    requires Right(s, start, now, rate, events, moment)
    ensures Right(Advance(s, rate, until), start, now, rate, events, moment)
  {
    hide Burnt, Runout;
    if s.stock > 0.0 && rate > 0.0 {
      RunoutMonotone(0.0, s.stock, rate);
      var zero := s.t + Runout(s.stock, rate);
      if zero <= until {
        var a := Advance(s, rate, until);
        assert a.breaks[..|a.breaks| - 1] == s.breaks;
        assert Spans(a) == s.windows + [Span(zero, None)] && Spans(s) == s.windows;
        CoveredSnoc(s.windows, Span(zero, None), moment);
      }
    }
  }

  /** The stretch after the last event, when it does not run into a stock-out by `moment`. */
  lemma LastLevel(breaks: seq<Break>, rate: real, t: int, stock: real, moment: int)
    requires breaks != [] && breaks[|breaks| - 1] == Break(t, stock) && t <= moment
    requires stock >= 0.0 && rate >= 0.0
    ensures stock == 0.0 ==> Value(breaks, rate, moment) == 0.0
    ensures rate == 0.0 ==> Value(breaks, rate, moment) == stock
    ensures stock > 0.0 && rate > 0.0 && moment - t < Runout(stock, rate) ==>
              Value(breaks, rate, moment) == stock - Burnt(rate, moment - t) > 0.0
  {
    hide Burnt, Runout;
    BurntNonnegative(rate, moment - t);
    if stock > 0.0 && rate > 0.0 && moment - t < Runout(stock, rate) {
      StillPositive(stock, rate, moment - t);
    }
  }

  lemma AdvanceRightLater(s: Sim, start: real, now: int, rate: real, events: seq<Movement>, until: int, moment: int)
    requires Timeline(events, now) && rate >= 0.0 && Sound(s, now, rate)
    requires s.t == LastTime(now, events) && s.stock == Level(start, now, rate, events)
    requires Fresh(s)
    requires s.t <= moment <= until
    ensures Right(Advance(s, rate, until), start, now, rate, events, moment)
  {
    hide Burnt, Runout;
    var a := Advance(s, rate, until);
    LastLevel(s.breaks, rate, s.t, s.stock, moment);
    NoneEnded(s.windows, moment);
    if s.stock > 0.0 && rate > 0.0 {
      assert Spans(s) == s.windows;
      RunoutMonotone(0.0, s.stock, rate);
      var zero := s.t + Runout(s.stock, rate);
      if zero <= until {
        assert a.breaks[..|a.breaks| - 1] == s.breaks;
        assert Spans(a) == s.windows + [Span(zero, None)];
        CoveredSnoc(s.windows, Span(zero, None), moment);
        if zero <= moment {
          LastLevel(a.breaks, rate, zero, 0.0, moment);
        } else {
          assert Value(a.breaks, rate, moment) == Value(s.breaks, rate, moment);
        }
      }
    } else if rate > 0.0 {
      assert Spans(a) == s.windows + [Span(s.since.value, None)];
      CoveredSnoc(s.windows, Span(s.since.value, None), moment);
    }
  }

  /** A receipt or issue does not change which earlier moments were stopped. */
  lemma MeetSpans(s: Sim, rate: real, qty: real, moment: int)
    requires moment < s.t
    ensures Covered(Spans(Meet(s, rate, qty)), moment) <==> Covered(Spans(s), moment)
  {
    hide Burnt, Runout;
    var met := Meet(s, rate, qty);
    if met.stock == 0.0 {
      if s.since == None && rate > 0.0 {
        assert Spans(s) == s.windows && Spans(met) == s.windows + [Span(s.t, None)];
        CoveredSnoc(s.windows, Span(s.t, None), moment);
      } else {
        assert Spans(met) == Spans(s);
      }
    } else if s.since != None {
      assert Spans(s) == s.windows + [Span(s.since.value, None)];
      assert Spans(met) == s.windows + [Span(s.since.value, Some(s.t))];
      CoveredSnoc(s.windows, Span(s.since.value, None), moment);
      CoveredSnoc(s.windows, Span(s.since.value, Some(s.t)), moment);
    } else {
      assert Spans(met) == Spans(s);
    }
  }

  lemma {:induction false} MeetRight(s: Sim, start: real, now: int, rate: real, events: seq<Movement>, event: Movement,
                                     moment: int)
    requires Timeline(events + [event], now) && Timeline(events, now) && rate >= 0.0 && Sound(s, now, rate)
    requires now <= moment < s.t == event.at
    requires Right(s, start, now, rate, events, moment)
    ensures Right(Meet(s, rate, event.qty), start, now, rate, events + [event], moment)
  {
    hide Burnt, Runout;
    var met := Meet(s, rate, event.qty);
    assert met.breaks[..|met.breaks| - 1] == s.breaks;
    assert (events + [event])[..|events|] == events;
    MeetSpans(s, rate, event.qty, moment);
  }

  lemma TurnRight(s: Sim, start: real, now: int, rate: real, events: seq<Movement>, event: Movement, moment: int)
    requires Timeline(events + [event], now) && Timeline(events, now) && rate >= 0.0 && Sound(s, now, rate)
    requires s.t == LastTime(now, events) && s.stock == Level(start, now, rate, events)
    requires Fresh(s)
    requires s.t <= event.at && now <= moment < event.at
    requires moment < s.t ==> Right(s, start, now, rate, events, moment)
    ensures Right(Turn(s, rate, event), start, now, rate, events + [event], moment)
  {
    hide Burnt, Runout;
    AdvanceSound(s, now, rate, event.at);
    if moment < s.t {
      AdvanceRightEarlier(s, start, now, rate, events, event.at, moment);
    } else {
      AdvanceRightLater(s, start, now, rate, events, event.at, moment);
    }
    MeetRight(Advance(s, rate, event.at), start, now, rate, events, event, moment);
  }

  lemma {:induction false} SimulateRight(start: real, now: int, rate: real, events: seq<Movement>, moment: int)
    requires start >= 0.0 && rate >= 0.0 && Timeline(events, now)
    requires now <= moment < LastTime(now, events)
    ensures Right(Simulate(start, now, rate, events), start, now, rate, events, moment)
  {
    hide Burnt, Runout, Turn, Sound, Value, Level, StockAt, Right, Fresh;
    var before, event := events[..|events| - 1], events[|events| - 1];
    assert before + [event] == events;
    SimulateSound(start, now, rate, before);
    if moment < LastTime(now, before) {
      SimulateRight(start, now, rate, before, moment);
    }
    TurnRight(Simulate(start, now, rate, before), start, now, rate, before, event, moment);
  }

  /** The finished simulation: consumption runs on to the horizon. */
  function Finished(start: real, now: int, rate: real, events: seq<Movement>, end: int): Sim
    requires Timeline(events, now) && LastTime(now, events) <= end
  {
    Advance(Simulate(start, now, rate, events), rate, end)
  }

  /**
   A projected stock is zero exactly while the line is stopped, at every moment up to the
   horizon and despite the rounded stock-out times; and it is the reference stock.
   */
  lemma ZeroExactlyWhenStopped(start: real, now: int, rate: real, events: seq<Movement>, end: int, moment: int)
    requires start >= 0.0 && rate >= 0.0 && Timeline(events, now) && LastTime(now, events) <= end
    requires now <= moment <= end
    ensures Right(Finished(start, now, rate, events, end), start, now, rate, events, moment)
  {
    hide Burnt, Runout, Sound, Value, Level, StockAt, Right, Fresh, Simulate;
    var s := Simulate(start, now, rate, events);
    SimulateSound(start, now, rate, events);
    if moment < s.t {
      SimulateRight(start, now, rate, events, moment);
      AdvanceRightEarlier(s, start, now, rate, events, end, moment);
    } else {
      AdvanceRightLater(s, start, now, rate, events, end, moment);
    }
  }
}
