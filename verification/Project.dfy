/** `project` of services/optimizer/projection.py as the loop it is, and what it promises. */
module Projecting {
  import opened Basics
  import opened StockProjection

  predicate ByTime(a: Movement, b: Movement) {
    a.at <= b.at
  }

  predicate ByNeed(a: Requirement, b: Requirement) {
    a.at <= b.at
  }

  /** A movement in the past counts as happening now. */
  function Clamped(movements: seq<Movement>, now: int): seq<Movement> {
    if movements == [] then []
    else [movements[0].(at := if movements[0].at < now then now else movements[0].at)] + Clamped(movements[1..], now)
  }

  lemma {:induction false} ClampedLater(movements: seq<Movement>, now: int)
    ensures forall m :: m in Clamped(movements, now) ==> now <= m.at
  {
    if movements != [] {
      ClampedLater(movements[1..], now);
    }
  }

  /** The events the loop meets: in time order, up to the horizon. */
  function Events(inputs: PlantInputs, now: int, end: int): seq<Movement> {
    Filter((m: Movement) => m.at <= end, Sorted(ByTime, Clamped(inputs.movements, now)))
  }

  lemma EventsTimeline(inputs: PlantInputs, now: int, end: int)
    requires now <= end
    ensures Timeline(Events(inputs, now, end), now) && LastTime(now, Events(inputs, now, end)) <= end
  {
    var clamped := Clamped(inputs.movements, now);
    SortedOrdered(ByTime, clamped);
    FilterOrdered(ByTime, (m: Movement) => m.at <= end, Sorted(ByTime, clamped));
    ClampedLater(inputs.movements, now);
    SortedMembers(ByTime, clamped);
    FilterMembers((m: Movement) => m.at <= end, Sorted(ByTime, clamped));
    var events := Events(inputs, now, end);
    forall i | 0 <= i < |events| ensures now <= events[i].at <= end {
      assert events[i] in events;
    }
    forall i, j | 0 <= i < j < |events| ensures events[i].at <= events[j].at {
      assert ByTime(events[i], events[j]);
    }
  }

  lemma {:induction false} ClampedEach(movements: seq<Movement>, now: int)
    ensures |Clamped(movements, now)| == |movements|
    ensures forall i :: 0 <= i < |movements| ==>
      var m := movements[i];
      Clamped(movements, now)[i] == Movement(if m.at < now then now else m.at, m.qty, m.name, m.sourceRef)
  {
    if movements != [] {
      ClampedEach(movements[1..], now);
    }
  }

  lemma ByTimeTotal()
    ensures TotalOrder(ByTime) && TotalOrder(ByNeed)
  {}

  /**
   The loop meets each movement dated up to the horizon once, at the later of its own time and now, with its
   quantity, and nothing else: in time order, and those of one moment in the order given. `order` says which.
   */
  lemma EventsAreMovements(inputs: PlantInputs, now: int, end: int) returns (order: seq<nat>)
    requires now <= end
    ensures var events, given := Events(inputs, now, end), inputs.movements;
      && |order| == |events|
      && (forall k :: 0 <= k < |order| ==>
            && order[k] < |given|
            && var m := given[order[k]];
               events[k] == Movement(if m.at < now then now else m.at, m.qty, m.name, m.sourceRef))
      && (forall i: nat :: i < |given| ==> (i in order <==> given[i].at <= end))
      && (forall j, k :: 0 <= j < k < |order| ==>
            && order[j] != order[k] && events[j].at <= events[k].at
            && (events[j].at == events[k].at ==> order[j] < order[k]))
  {
    ByTimeTotal();
    ClampedEach(inputs.movements, now);
    order := FilterSortedArranges(ByTime, (m: Movement) => m.at <= end, Clamped(inputs.movements, now));
  }

  /** Counted: the events are as often there as the movements that come to them by the horizon. */
  lemma EventsCounted(inputs: PlantInputs, now: int, end: int, event: Movement)
    requires now <= end
    ensures var given := inputs.movements;
      var dated := seq(|given|, i requires 0 <= i < |given| =>
        Movement(if given[i].at < now then now else given[i].at, given[i].qty, given[i].name, given[i].sourceRef));
      multiset(Events(inputs, now, end))[event] == if event.at <= end then multiset(dated)[event] else 0
  {
    var given := inputs.movements;
    ClampedEach(given, now);
    assert Clamped(given, now) == seq(|given|, i requires 0 <= i < |given| =>
      Movement(if given[i].at < now then now else given[i].at, given[i].qty, given[i].name, given[i].sourceRef));
    SortedPermutes(ByTime, Clamped(given, now));
    FilterCounts((m: Movement) => m.at <= end, Sorted(ByTime, Clamped(given, now)), event);
  }

  function Rate(inputs: PlantInputs): real {
    Max(inputs.rate, 0.0)
  }

  /** The finished event loop. */
  function Simulated(inputs: PlantInputs, now: int, end: int): Sim
    requires now <= end
  {
    EventsTimeline(inputs, now, end);
    Finished(Max(inputs.onHand, 0.0), now, Rate(inputs), Events(inputs, now, end), end)
  }

  /** The reference stock at a moment for these inputs. */
  ghost function Stock(inputs: PlantInputs, now: int, end: int, moment: int): real
    requires now <= moment <= end
  {
    EventsTimeline(inputs, now, end);
    StockAt(Max(inputs.onHand, 0.0), now, Rate(inputs), Events(inputs, now, end), moment)
  }

  /** Hourly for 72 hours, then daily. */
  function Samples(now: int, days: nat): seq<int> {
    seq(HOURLY + 1, (h: int) requires 0 <= h <= HOURLY => now + h * HOUR)
    + if days < 4 then [] else seq(days - 3, (d: int) requires 0 <= d < days - 3 => now + (d + 4) * DAY)
  }

  function Stop(span: Span, end: int): int {
    if span.end == None then end else span.end.value
  }

  /** Orders, in order of need, whose requirement falls in the line stop. */
  function OrdersIn(requirements: seq<Requirement>, span: Span, end: int): seq<Requirement> {
    Filter((r: Requirement) => span.start <= r.at < Stop(span, end), Sorted(ByNeed, requirements))
  }

  function Names(requirements: seq<Requirement>): seq<string> {
    seq(|requirements|, i requires 0 <= i < |requirements| => requirements[i].order)
  }

  function WindowOf(span: Span, inputs: PlantInputs, end: int): Window {
    Window(span, Names(OrdersIn(inputs.requirements, span, end)),
           Burnt(Rate(inputs), Stop(span, end) - span.start))
  }

  function WindowsOf(spans: seq<Span>, inputs: PlantInputs, end: int): seq<Window> {
    seq(|spans|, k requires 0 <= k < |spans| => WindowOf(spans[k], inputs, end))
  }

  function PointsOf(breaks: seq<Break>, rate: real, times: seq<int>): seq<Point>
    requires breaks != []
  {
    seq(|times|, k requires 0 <= k < |times| => Point(times[k], Value(breaks, rate, times[k])))
  }

  /** The projection reports a finished event loop. */
  ghost predicate Reports(p: Projection, inputs: PlantInputs, s: Sim, end: int, times: seq<int>) {
    && s.breaks != []
    && p == Projection(inputs.plant, PointsOf(s.breaks, Rate(inputs), times), s.stockouts,
                       WindowsOf(Spans(s), inputs, end), inputs.sourceRefs)
  }

  /** What a projection of these inputs is. */
  ghost predicate IsProjection(p: Projection, inputs: PlantInputs, now: int, days: nat) {
    var end := now + days * DAY;
    Reports(p, inputs, Simulated(inputs, now, end), end, Samples(now, days))
  }

  /** `moment` lies in a reported line stop. */
  ghost predicate InStop(p: Projection, moment: int) {
    exists i :: 0 <= i < |p.windows| && Within(p.windows[i].span, moment)
  }

  /** Each order of a line stop, by the place of its requirement in the inputs. */
  lemma OrdersAreThoseStopped(requirements: seq<Requirement>, span: Span, end: int) returns (order: seq<nat>)
    ensures var orders := Names(OrdersIn(requirements, span, end));
      && |order| == |orders|
      && (forall k :: 0 <= k < |order| ==>
            order[k] < |requirements| && orders[k] == requirements[order[k]].order)
      && (forall i: nat :: i < |requirements| ==>
            (i in order <==>
             && span.start <= requirements[i].at
             && requirements[i].at < (if span.end.Some? then span.end.value else end)))
      && (forall j, k :: 0 <= j < k < |order| ==>
            && order[j] != order[k] && requirements[order[j]].at <= requirements[order[k]].at
            && (requirements[order[j]].at == requirements[order[k]].at ==> order[j] < order[k]))
  {
    ByTimeTotal();
    order := FilterSortedArranges(ByNeed, (r: Requirement) => span.start <= r.at < Stop(span, end), requirements);
  }

  /**
   A reported line stop lists the orders whose requirement falls in it, in order of need, and is short of what
   its whole seconds would have consumed; one still open counts up to the horizon.
   */
  lemma WindowListsOrders(p: Projection, inputs: PlantInputs, now: int, days: nat, w: nat) returns (order: seq<nat>)
    requires IsProjection(p, inputs, now, days) && w < |p.windows|
    ensures var window, needs := p.windows[w], inputs.requirements;
      var stop := if window.span.end.Some? then window.span.end.value else now + days * (24 * 3600 * 1000000);
      && |order| == |window.orders|
      && (forall k :: 0 <= k < |order| ==> order[k] < |needs| && window.orders[k] == needs[order[k]].order)
      && (forall i: nat :: i < |needs| ==> (i in order <==> window.span.start <= needs[i].at < stop))
      && (forall j, k :: 0 <= j < k < |order| ==>
            && order[j] != order[k] && needs[order[j]].at <= needs[order[k]].at
            && (needs[order[j]].at == needs[order[k]].at ==> order[j] < order[k]))
      && window.unitsShort == (if inputs.rate > 0.0 then inputs.rate else 0.0)
         * (((stop - window.span.start) / 1000000) as real / 3600.0)
  {
    hide Simulated, Samples, PointsOf, OrdersIn, Names;
    order := OrdersAreThoseStopped(inputs.requirements, p.windows[w].span, now + days * DAY);
  }

  /** Points are given for every hour of the first three days, and for every day after them up to the horizon. */
  lemma PointsHourlyThenDaily(p: Projection, inputs: PlantInputs, now: int, days: nat)
    requires IsProjection(p, inputs, now, days)
    ensures |p.points| == 73 + if days > 3 then days - 3 else 0
    ensures forall h :: 0 <= h <= 72 ==> p.points[h].at == now + h * (3600 * 1000000)
    ensures forall d :: 3 < d <= days ==> p.points[69 + d].at == now + d * (24 * 3600 * 1000000)
  {
    hide Simulated, WindowsOf, Value;
  }

  lemma SimulatedSound(inputs: PlantInputs, now: int, end: int)
    requires now <= end
    ensures Sound(Simulated(inputs, now, end), now, Rate(inputs))
  {
    EventsTimeline(inputs, now, end);
    SimulateSound(Max(inputs.onHand, 0.0), now, Rate(inputs), Events(inputs, now, end));
    AdvanceSound(Simulate(Max(inputs.onHand, 0.0), now, Rate(inputs), Events(inputs, now, end)), now, Rate(inputs),
      end);
  }

  /** First half of the loop body: consume until the next event or the horizon. */
  method Consume(s: Sim, rate: real, until: int)
    returns (stock: real, since: Option<int>, breaks: seq<Break>, stockouts: seq<int>)
    requires s.t <= until
    ensures Sim(until, stock, since, breaks, stockouts, s.windows) == Advance(s, rate, until)
  {
    hide Burnt, Runout;
    stock, since, breaks, stockouts := s.stock, s.since, s.breaks, s.stockouts;
    if stock > 0.0 && rate > 0.0 {
      var zero := s.t + Runout(stock, rate);
      if zero <= until {
        stock, since := 0.0, Some(zero);
        breaks, stockouts := breaks + [Break(zero, 0.0)], stockouts + [zero];
      } else {
        stock := stock - Burnt(rate, until - s.t);
      }
    }
  }

  /** Second half of the loop body: book a receipt or issue at `s.t`. */
  method Book(s: Sim, rate: real, qty: real)
    returns (stock: real, since: Option<int>, breaks: seq<Break>, stockouts: seq<int>, windows: seq<Span>)
    ensures Sim(s.t, stock, since, breaks, stockouts, windows) == Meet(s, rate, qty)
  {
    since, stockouts, windows := s.since, s.stockouts, s.windows;
    stock := s.stock + qty;
    if stock <= 0.0 {
      stock := 0.0;
      if since == None && rate > 0.0 {
        since, stockouts := Some(s.t), stockouts + [s.t];
      }
    } else if since != None {
      windows, since := windows + [Span(since.value, Some(s.t))], None;
    }
    breaks := s.breaks + [Break(s.t, stock)];
  }

  /** The event loop of `project`; the horizon comes last, as an event without a movement. */
  method EventLoop(start: real, now: int, rate: real, events: seq<Movement>, end: int)
    returns (breaks: seq<Break>, stockouts: seq<int>, windows: seq<Span>)
    requires start >= 0.0 && rate >= 0.0 && Timeline(events, now) && LastTime(now, events) <= end
    ensures var s := Finished(start, now, rate, events, end);
      breaks == s.breaks && stockouts == s.stockouts && windows == Spans(s)
  {
    hide Burnt, Runout;
    var t, stock := now, start;
    var since: Option<int> := if stock == 0.0 && rate > 0.0 then Some(now) else None;
    breaks, stockouts, windows := [Break(t, stock)], [], [];
    if since != None {
      stockouts := [now];
    }
    var i := 0;
    while true
      invariant 0 <= i <= |events|
      invariant Sim(t, stock, since, breaks, stockouts, windows) == Simulate(start, now, rate, events[..i])
      decreases |events| - i
    {
      var until := if i == |events| then end else events[i].at;
      stock, since, breaks, stockouts := Consume(Sim(t, stock, since, breaks, stockouts, windows), rate, until);
      t := until;
      if i == |events| {
        break;
      }
      stock, since, breaks, stockouts, windows :=
        Book(Sim(t, stock, since, breaks, stockouts, windows), rate, events[i].qty);
      assert events[..i + 1][..i] == events[..i];
      i := i + 1;
    }
    assert events[..i] == events;
    if since != None {
      windows := windows + [Span(since.value, None)];
    }
  }

  method Project(inputs: PlantInputs, now: int, days: nat) returns (p: Projection)
    ensures IsProjection(p, inputs, now, days)
  {
    hide WindowOf, Value, Finished, Events, Samples, Burnt, Runout;
    var end := now + days * DAY;
    EventsTimeline(inputs, now, end);
    SimulatedSound(inputs, now, end);
    var breaks, stockouts, spans :=
      EventLoop(Max(inputs.onHand, 0.0), now, Rate(inputs), Events(inputs, now, end), end);
    p := Projection(inputs.plant, PointsOf(breaks, Rate(inputs), Samples(now, days)), stockouts,
                    WindowsOf(spans, inputs, end), inputs.sourceRefs);
  }
}
