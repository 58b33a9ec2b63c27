/**
 The projection against the exact continuous model, in which stock falls without rounding.
 Two roundings separate them: a stock-out is moved to a whole second, and each stretch between
 events is cut to whole seconds.
 */
module ProjectionExact {
  import opened Basics
  import opened StockProjection

  /** The exact hours in a duration. */
  function ExactHours(delta: int): real {
    delta as real / HOUR as real
  }

  function ExactDrain(stock: real, rate: real, delta: int): real {
    Max(stock - rate * ExactHours(delta), 0.0)
  }

  ghost function ExactLevel(start: real, now: int, rate: real, events: seq<Movement>): real {
    if events == [] then start
    else
      var before, event := events[..|events| - 1], events[|events| - 1];
      Max(ExactDrain(ExactLevel(start, now, rate, before), rate, event.at - LastTime(now, before)) + event.qty, 0.0)
  }

  ghost function ExactAt(start: real, now: int, rate: real, events: seq<Movement>, moment: int): real
    requires Timeline(events, now) && now <= moment
  {
    if LastTime(now, events) <= moment then
      ExactDrain(ExactLevel(start, now, rate, events), rate, moment - LastTime(now, events))
    else
      ExactAt(start, now, rate, events[..|events| - 1], moment)
  }

  /** Does this stretch run into a stock-out? */
  ghost predicate Empties(stock: real, rate: real, delta: int) {
    stock > 0.0 && rate > 0.0 && Runout(stock, rate) <= delta
  }

  /** Half a second of consumption, charged to a stretch that runs into a stock-out. */
  ghost function Late(stock: real, rate: real, delta: int): real {
    if Empties(stock, rate, delta) then HalfSecond(rate) else 0.0
  }

  /** Consumption not booked in a stretch because it is cut to whole seconds. */
  ghost function Unbooked(rate: real, delta: int): real {
    rate * ExactHours(delta % SECOND)
  }

  /** The half seconds of the stock-outs so far. */
  ghost function Lateness(start: real, now: int, rate: real, events: seq<Movement>): real
    requires Timeline(events, now) && rate >= 0.0
  {
    if events == [] then 0.0
    else
      var before, event := events[..|events| - 1], events[|events| - 1];
      Lateness(start, now, rate, before)
      + Late(Level(start, now, rate, before), rate, event.at - LastTime(now, before))
  }

  ghost function LatenessAt(start: real, now: int, rate: real, events: seq<Movement>, moment: int): real
    requires Timeline(events, now) && rate >= 0.0 && now <= moment
  {
    if LastTime(now, events) <= moment then
      Lateness(start, now, rate, events)
      + Late(Level(start, now, rate, events), rate, moment - LastTime(now, events))
    else LatenessAt(start, now, rate, events[..|events| - 1], moment)
  }

  /** The consumption cut off so far. */
  ghost function Cut(now: int, rate: real, events: seq<Movement>): real {
    if events == [] then 0.0
    else
      var before, event := events[..|events| - 1], events[|events| - 1];
      Cut(now, rate, before) + Unbooked(rate, event.at - LastTime(now, before))
  }

  ghost function CutAt(now: int, rate: real, events: seq<Movement>, moment: int): real
    requires Timeline(events, now) && now <= moment
  {
    if LastTime(now, events) <= moment then
      Cut(now, rate, events) + Unbooked(rate, moment - LastTime(now, events))
    else CutAt(now, rate, events[..|events| - 1], moment)
  }

  lemma ExactHoursSplit(delta: int)
    requires delta >= 0
    ensures ExactHours(delta) == Hours(delta) + ExactHours(delta % SECOND)
  {
    assert delta == delta / SECOND * SECOND + delta % SECOND;
  }

  /** One stretch widens the gap by its cut below and by half a second of a stock-out above. */
  lemma StretchGap(exact: real, stock: real, rate: real, delta: int, low: real, high: real)
    requires exact >= 0.0 && stock >= 0.0 && rate >= 0.0 && delta >= 0 && low >= 0.0 && high >= 0.0
    requires -low <= exact - stock <= high
    ensures -(low + Unbooked(rate, delta))
         <= ExactDrain(exact, rate, delta) - Drain(stock, rate, delta)
         <= high + Late(stock, rate, delta)
    ensures Unbooked(rate, delta) >= 0.0 && Late(stock, rate, delta) >= 0.0
    ensures ExactDrain(exact, rate, delta) >= 0.0 && Drain(stock, rate, delta) >= 0.0
  {
    ExactHoursSplit(delta);
    var whole, rest := rate * Hours(delta), rate * ExactHours(delta % SECOND);
    Scale(rate, 0.0, ExactHours(delta % SECOND));
    Scale(rate, 0.0, Hours(delta));
    assert rate * ExactHours(delta) == whole + rest;
    if Empties(stock, rate, delta) {
      NearlyEmpty(stock, rate, delta);
    } else if stock > 0.0 && rate > 0.0 {
      StillPositive(stock, rate, delta);
    }
  }

  /** The gap between the exact and the projected level right after the given events. */
  ghost predicate LevelsNear(start: real, now: int, rate: real, events: seq<Movement>)
    requires Timeline(events, now) && rate >= 0.0
  {
    && Level(start, now, rate, events) >= 0.0 && ExactLevel(start, now, rate, events) >= 0.0
    && Cut(now, rate, events) >= 0.0 && Lateness(start, now, rate, events) >= 0.0
    && -Cut(now, rate, events)
       <= ExactLevel(start, now, rate, events) - Level(start, now, rate, events)
       <= Lateness(start, now, rate, events)
  }

  lemma {:induction false} LevelGap(start: real, now: int, rate: real, events: seq<Movement>)
    requires Timeline(events, now) && rate >= 0.0 && start >= 0.0
    ensures LevelsNear(start, now, rate, events)
  {
    hide Burnt, Runout, HalfSecond;
    if events != [] {
      var before, event := events[..|events| - 1], events[|events| - 1];
      LevelGap(start, now, rate, before);
      StretchGap(ExactLevel(start, now, rate, before), Level(start, now, rate, before), rate,
                 event.at - LastTime(now, before), Cut(now, rate, before), Lateness(start, now, rate, before));
    }
  }

  /**
   The projection refines the exact model: at every moment the exact stock lies at most the cut
   below, and at most half a second of consumption per stock-out above, the projected one.
   */
  lemma {:induction false} RefinesExact(start: real, now: int, rate: real, events: seq<Movement>, moment: int)
    requires Timeline(events, now) && rate >= 0.0 && start >= 0.0 && now <= moment
    ensures -CutAt(now, rate, events, moment)
         <= ExactAt(start, now, rate, events, moment) - StockAt(start, now, rate, events, moment)
         <= LatenessAt(start, now, rate, events, moment)
  {
    hide Burnt, Runout, HalfSecond;
    if LastTime(now, events) <= moment {
      LevelGap(start, now, rate, events);
      StretchGap(ExactLevel(start, now, rate, events), Level(start, now, rate, events), rate,
                 moment - LastTime(now, events), Cut(now, rate, events), Lateness(start, now, rate, events));
    } else {
      RefinesExact(start, now, rate, events[..|events| - 1], moment);
    }
  }

  lemma HalfSecondUnbooked(stock: real)
    requires stock >= 1.0
    ensures Drain(stock, 3600.0, SECOND / 2) == stock && ExactDrain(stock, 3600.0, SECOND / 2) == stock - 0.5
  {
    hide Runout;
    assert Burnt(3600.0, SECOND / 2) == 0.0;
    assert ExactHours(SECOND / 2) == 0.5 / 3600.0;
    RunoutMonotone(1.0, stock, 3600.0);
    OneSecondLeft();
  }

  lemma OneSecondLeft()
    ensures Runout(1.0, 3600.0) == SECOND
  {
    assert 1.0 / 3600.0 * 3600.0 == 1.0;
  }

  /** A movement half a second in: neither half second is booked, and a unit a second goes missing. */
  lemma FractionsUnbooked()
    ensures var events := [Movement(SECOND / 2, 0.0, "", "SAP:")];
      && Timeline(events, 0)
      && StockAt(10.0, 0, 3600.0, events, SECOND) == 10.0 && ExactAt(10.0, 0, 3600.0, events, SECOND) == 9.0
  {
    var events := [Movement(SECOND / 2, 0.0, "", "SAP:")];
    hide Drain, ExactDrain;
    assert events[..|events| - 1] == [];
    HalfSecondUnbooked(10.0);
    HalfSecondUnbooked(9.5);
    assert Level(10.0, 0, 3600.0, events) == 10.0;
    assert ExactLevel(10.0, 0, 3600.0, events) == 9.5;
  }

  /** Every instant lies a whole number of seconds after `now`. */
  ghost predicate WholeSeconds(events: seq<Movement>, now: int) {
    forall i :: 0 <= i < |events| ==> (events[i].at - now) % SECOND == 0
  }

  // ----- Exactly when the projection may exceed the exact stock -----

  /** The moment, and every instant met by then, lies a whole number of seconds after `now`. */
  ghost predicate WholeUpTo(events: seq<Movement>, now: int, moment: int) {
    && (moment - now) % SECOND == 0
    && forall i :: 0 <= i < |events| && events[i].at <= moment ==> (events[i].at - now) % SECOND == 0
  }

  lemma UnbookedExactly(rate: real, delta: int)
    requires rate >= 0.0
    ensures Unbooked(rate, delta) >= 0.0
    ensures Unbooked(rate, delta) == 0.0 <==> rate == 0.0 || delta % SECOND == 0
  {
    Scale(rate, 0.0, ExactHours(delta % SECOND));
    if delta % SECOND != 0 && rate > 0.0 {
      ScaleStrictly(rate, 0.0, ExactHours(delta % SECOND));
    }
  }

  lemma WholeStep(a: int, b: int, now: int)
    requires (a - now) % SECOND == 0
    ensures (b - a) % SECOND == 0 <==> (b - now) % SECOND == 0
  {
    assert b - now == (b - a) + (a - now) / SECOND * SECOND;
  }

  lemma WholeBefore(now: int, events: seq<Movement>)
    requires Timeline(events, now) && events != []
    ensures var before, event := events[..|events| - 1], events[|events| - 1];
      && (WholeSeconds(events, now) <==> WholeSeconds(before, now) && (event.at - now) % SECOND == 0)
      && ((LastTime(now, before) - now) % SECOND == 0 ==>
            ((event.at - LastTime(now, before)) % SECOND == 0 <==> (event.at - now) % SECOND == 0))
  {
    var before, event := events[..|events| - 1], events[|events| - 1];
    if (LastTime(now, before) - now) % SECOND == 0 {
      WholeStep(LastTime(now, before), event.at, now);
    }
  }

  lemma {:induction false} CutBetweenExactly(now: int, rate: real, events: seq<Movement>)
    requires Timeline(events, now) && rate >= 0.0
    ensures Cut(now, rate, events) >= 0.0
    ensures Cut(now, rate, events) == 0.0 <==> rate == 0.0 || WholeSeconds(events, now)
    ensures WholeSeconds(events, now) ==> (LastTime(now, events) - now) % SECOND == 0
  {
    hide Unbooked;
    if events != [] {
      var before, event := events[..|events| - 1], events[|events| - 1];
      CutBetweenExactly(now, rate, before);
      UnbookedExactly(rate, event.at - LastTime(now, before));
      WholeBefore(now, events);
    }
  }

  /** Consumption is cut off exactly when some instant up to the moment is not on a whole second. */
  lemma {:induction false} CutExactly(now: int, rate: real, events: seq<Movement>, moment: int)
    requires Timeline(events, now) && rate >= 0.0 && now <= moment
    ensures CutAt(now, rate, events, moment) >= 0.0
    ensures CutAt(now, rate, events, moment) == 0.0 <==> rate == 0.0 || WholeUpTo(events, now, moment)
  {
    hide Unbooked;
    if LastTime(now, events) <= moment {
      CutBetweenExactly(now, rate, events);
      UnbookedExactly(rate, moment - LastTime(now, events));
      if WholeSeconds(events, now) {
        WholeStep(LastTime(now, events), moment, now);
      }
    } else {
      CutExactly(now, rate, events[..|events| - 1], moment);
    }
  }

  /** Everything the events issue. */
  ghost function Issued(events: seq<Movement>): real {
    if events == [] then 0.0
    else Issued(events[..|events| - 1]) + Max(-events[|events| - 1].qty, 0.0)
  }

  /** Exact consumption over a duration. */
  ghost function ExactUse(rate: real, delta: int): real {
    rate * ExactHours(delta)
  }

  lemma UseAdds(rate: real, a: int, b: int, c: int)
    requires rate > 0.0 && a <= b <= c
    ensures ExactUse(rate, c - a) == ExactUse(rate, b - a) + ExactUse(rate, c - b)
    ensures ExactUse(rate, b - a) >= 0.0 && ExactUse(rate, c - b) >= 0.0
  {
    Scale(rate, 0.0, ExactHours(b - a));
    Scale(rate, 0.0, ExactHours(c - b));
    Spread(rate, ExactHours(b - a), ExactHours(c - b));
  }

  /** Enough stock never to run out by the moment, in either model, with an hour to spare. */
  ghost function Ample(now: int, rate: real, events: seq<Movement>, moment: int): real {
    Issued(events) + ExactUse(rate, moment - now) + rate
  }

  lemma LastsLonger(hours: real, delta: int)
    requires delta >= 0 && hours >= Hours(delta) + 1.0
    ensures Lasting(hours) > delta
  {
    assert Hours(delta) * 3600.0 == (delta / SECOND) as real;
    assert RoundHalfEven(hours * 3600.0) >= delta / SECOND + 1;
  }

  lemma ScaledBack(rate: real, x: real, y: real)
    requires rate > 0.0 && y == rate * x
    ensures y / rate == x
  {
    var q := Quotient(y, rate);
    if q < x {
      ScaleStrictly(rate, q, x);
    } else if x < q {
      ScaleStrictly(rate, x, q);
    }
  }

  /** The hours so much stock lasts, when it covers `whole + cut` hours and one more. */
  lemma AmpleHours(stock: real, rate: real, hours: real, whole: real, cut: real)
    requires rate > 0.0 && cut >= 0.0 && hours == whole + cut && stock >= rate * hours + rate
    ensures stock / rate >= whole + 1.0
    ensures rate * hours == rate * whole + rate * cut
  {
    Spread(rate, whole, cut);
    Scale(rate, 0.0, cut);
    Spread(rate, whole, 1.0);
    var least := rate * (whole + 1.0);
    assert least == rate * whole + rate;
    DivideMonotone(least, stock, rate);
    ScaledBack(rate, whole + 1.0, least);
  }

  /** With an hour to spare the stock does not run out in a stretch. */
  lemma AmpleStretch(stock: real, rate: real, delta: int)
    requires rate > 0.0 && delta >= 0 && stock >= ExactUse(rate, delta) + rate
    ensures Drain(stock, rate, delta) == stock - ExactUse(rate, delta) + Unbooked(rate, delta)
    ensures ExactDrain(stock, rate, delta) == stock - ExactUse(rate, delta) > 0.0
  {
    ExactHoursSplit(delta);
    assert ExactHours(delta % SECOND) >= 0.0;
    UseAdds(rate, 0, 0, delta);
    hide Hours, ExactHours, Lasting;
    AmpleHours(stock, rate, ExactHours(delta), Hours(delta), ExactHours(delta % SECOND));
    LastsLonger(stock / rate, delta);
  }

  /** One stretch and the movement at its end, from ample stock. */
  lemma AmpleStep(exact: real, level: real, cut: real, rate: real, delta: int, qty: real)
    requires rate > 0.0 && delta >= 0 && exact == level - cut && cut >= 0.0
    requires exact >= ExactUse(rate, delta) + rate + Max(-qty, 0.0)
    ensures var exactly, projected := Max(ExactDrain(exact, rate, delta) + qty, 0.0),
            Max(Drain(level, rate, delta) + qty, 0.0);
      && exactly == projected - (cut + Unbooked(rate, delta))
      && exactly >= exact - ExactUse(rate, delta) - Max(-qty, 0.0)
    ensures cut + Unbooked(rate, delta) >= 0.0
  {
    hide Burnt, Runout, Unbooked, ExactUse, Drain, ExactDrain;
    AmpleStretch(exact, rate, delta);
    AmpleStretch(level, rate, delta);
    UnbookedExactly(rate, delta);
  }

  /** From ample stock the two models differ by exactly what is cut off. */
  lemma {:induction false} AmpleLevels(start: real, now: int, rate: real, events: seq<Movement>, moment: int)
    requires Timeline(events, now) && rate > 0.0 && LastTime(now, events) <= moment
    requires start >= Ample(now, rate, events, moment)
    ensures ExactLevel(start, now, rate, events) == Level(start, now, rate, events) - Cut(now, rate, events)
    ensures ExactLevel(start, now, rate, events) >= start - Issued(events) - ExactUse(rate, LastTime(now, events) - now)
    ensures Cut(now, rate, events) >= 0.0
  {
    hide Burnt, Runout, Unbooked, ExactUse, Drain, ExactDrain, Max;
    if events == [] {
      UseAdds(rate, now, now, now);
    } else {
      var before, event := events[..|events| - 1], events[|events| - 1];
      var last := LastTime(now, before);
      AmpleBefore(start, now, rate, events, moment);
      AmpleLevels(start, now, rate, before, moment);
      UseAdds(rate, now, last, event.at);
      UseAdds(rate, now, event.at, moment);
      AmpleStep(ExactLevel(start, now, rate, before), Level(start, now, rate, before), Cut(now, rate, before), rate,
                event.at - last, event.qty);
    }
  }

  lemma AmpleBefore(start: real, now: int, rate: real, events: seq<Movement>, moment: int)
    requires events != [] && start >= Ample(now, rate, events, moment)
    ensures start >= Ample(now, rate, events[..|events| - 1], moment)
  {}

  lemma {:induction false} AmpleMoment(start: real, now: int, rate: real, events: seq<Movement>, moment: int)
    requires Timeline(events, now) && rate > 0.0 && now <= moment && start >= Ample(now, rate, events, moment)
    ensures ExactAt(start, now, rate, events, moment)
         == StockAt(start, now, rate, events, moment) - CutAt(now, rate, events, moment)
  {
    hide Burnt, Runout, Unbooked, ExactUse, Drain, ExactDrain;
    var last := LastTime(now, events);
    if last <= moment {
      AmpleLevels(start, now, rate, events, moment);
      UseAdds(rate, now, last, moment);
      AmpleStretch(ExactLevel(start, now, rate, events), rate, moment - last);
      AmpleStretch(Level(start, now, rate, events), rate, moment - last);
    } else {
      AmpleBefore(start, now, rate, events, moment);
      AmpleMoment(start, now, rate, events[..|events| - 1], moment);
    }
  }

  lemma {:induction false} IssuedNonnegative(events: seq<Movement>)
    ensures Issued(events) >= 0.0
  {
    if events != [] {
      IssuedNonnegative(events[..|events| - 1]);
    }
  }

  /**
   The projected stock never exceeds the exact one, whatever the stock on hand, exactly when the sampled
   moment and every movement up to it lie a whole number of seconds after `now`.
   */
  lemma NeverAboveExact(now: int, rate: real, events: seq<Movement>, moment: int)
    requires Timeline(events, now) && rate > 0.0 && now <= moment
    ensures (forall start :: start >= 0.0 ==>
               ExactAt(start, now, rate, events, moment) >= StockAt(start, now, rate, events, moment))
            <==> WholeUpTo(events, now, moment)
  {
    hide ExactAt, StockAt, CutAt, LatenessAt, WholeUpTo;
    CutExactly(now, rate, events, moment);
    if WholeUpTo(events, now, moment) {
      forall start | start >= 0.0
        ensures ExactAt(start, now, rate, events, moment) >= StockAt(start, now, rate, events, moment)
      {
        RefinesExact(start, now, rate, events, moment);
      }
    } else {
      var start := Ample(now, rate, events, moment);
      IssuedNonnegative(events);
      UseAdds(rate, now, now, moment);
      AmpleMoment(start, now, rate, events, moment);
    }
  }

  // ----- The reported stock-outs pay for the gap -----

  /** Half a second of consumption for each reported stock-out up to the moment. */
  ghost function Allowance(times: seq<int>, rate: real, moment: int): real {
    if times == [] then 0.0
    else Allowance(times[..|times| - 1], rate, moment) + if times[|times| - 1] <= moment then HalfSecond(rate) else 0.0
  }

  /** In closed form: the number of stock-outs reported so far times half a second of consumption. */
  lemma {:induction false} AllowanceCounts(times: seq<int>, rate: real, moment: int)
    ensures Allowance(times, rate, moment) == CountUpTo(times, moment) as real * HalfSecond(rate)
  {
    hide HalfSecond;
    if times != [] {
      AllowanceCounts(times[..|times| - 1], rate, moment);
      Spread(HalfSecond(rate), CountUpTo(times[..|times| - 1], moment) as real, 1.0);
    }
  }

  function CountUpTo(times: seq<int>, moment: int): nat {
    if times == [] then 0
    else CountUpTo(times[..|times| - 1], moment) + if times[|times| - 1] <= moment then 1 else 0
  }

  lemma AllowanceSnoc(times: seq<int>, x: int, rate: real, moment: int)
    requires rate >= 0.0
    ensures Allowance(times + [x], rate, moment) == Allowance(times, rate, moment) + if x <= moment
            then HalfSecond(rate) else 0.0
    ensures HalfSecond(rate) >= 0.0
  {
    assert (times + [x])[..|times|] == times;
  }

  lemma AdvanceReports(s: Sim, rate: real, until: int, moment: int)
    requires s.t <= until && rate >= 0.0 && s.t <= moment
    ensures Allowance(Advance(s, rate, until).stockouts, rate, moment)
         >= Allowance(s.stockouts, rate, moment)
           + Late(s.stock, rate, if moment <= until then moment - s.t else until - s.t)
  {
    hide Burnt, Runout, HalfSecond, Allowance;
    if s.stock > 0.0 && rate > 0.0 {
      AllowanceSnoc(s.stockouts, s.t + Runout(s.stock, rate), rate, moment);
    }
  }

  lemma AdvanceReportsMore(s: Sim, rate: real, until: int, moment: int)
    requires s.t <= until && rate >= 0.0
    ensures Allowance(Advance(s, rate, until).stockouts, rate, moment) >= Allowance(s.stockouts, rate, moment)
  {
    hide Burnt, Runout, HalfSecond, Allowance;
    if s.stock > 0.0 && rate > 0.0 {
      AllowanceSnoc(s.stockouts, s.t + Runout(s.stock, rate), rate, moment);
    }
  }

  lemma MeetReports(s: Sim, rate: real, qty: real, moment: int)
    requires rate >= 0.0
    ensures Allowance(Meet(s, rate, qty).stockouts, rate, moment) >= Allowance(s.stockouts, rate, moment)
  {
    hide HalfSecond, Allowance;
    AllowanceSnoc(s.stockouts, s.t, rate, moment);
  }

  /** The loop reports every stock-out the bound is charged for. */
  lemma {:induction false} ReportsLateness(start: real, now: int, rate: real, events: seq<Movement>, moment: int)
    requires start >= 0.0 && rate >= 0.0 && Timeline(events, now) && LastTime(now, events) <= moment
    ensures Lateness(start, now, rate, events) <= Allowance(Simulate(start, now, rate, events).stockouts, rate, moment)
  {
    hide Burnt, Runout, HalfSecond, Advance, Meet, Late, Drain, Sound;
    if events == [] {
      AllowanceSnoc([], now, rate, moment);
      assert [] + [now] == [now];
    } else {
      var before, event := events[..|events| - 1], events[|events| - 1];
      var s := Simulate(start, now, rate, before);
      ReportsLateness(start, now, rate, before, moment);
      SimulateSound(start, now, rate, before);
      AdvanceReports(s, rate, event.at, moment);
      MeetReports(Advance(s, rate, event.at), rate, event.qty, moment);
    }
  }

  lemma {:induction false} ReportsLatenessAt(start: real, now: int, rate: real, events: seq<Movement>, end: int,
                                             moment: int)
    requires start >= 0.0 && rate >= 0.0 && Timeline(events, now) && LastTime(now, events) <= end
            && now <= moment <= end
    ensures LatenessAt(start, now, rate, events, moment)
         <= Allowance(Finished(start, now, rate, events, end).stockouts, rate, moment)
    decreases |events|
  {
    hide Burnt, Runout, HalfSecond;
    SimulateSound(start, now, rate, events);
    var s := Simulate(start, now, rate, events);
    if LastTime(now, events) <= moment {
      ReportsLateness(start, now, rate, events, moment);
      AdvanceReports(s, rate, end, moment);
    } else {
      var before, event := events[..|events| - 1], events[|events| - 1];
      ReportsLatenessAt(start, now, rate, before, event.at, moment);
      MeetReports(Finished(start, now, rate, before, event.at), rate, event.qty, moment);
      AdvanceReportsMore(s, rate, end, moment);
    }
  }

  /**
   The sampled level against the exact model, in terms of what is reported: the exact stock lies at most the
   cut below it, and at most half a second of consumption above it for each stock-out reported so far. On
   whole seconds it is never below.
   */
  lemma ValueNearExact(start: real, now: int, rate: real, events: seq<Movement>, end: int, moment: int)
    requires start >= 0.0 && rate >= 0.0 && Timeline(events, now) && LastTime(now, events) <= end
            && now <= moment <= end
    ensures var s := Finished(start, now, rate, events, end);
      && s.breaks != [] && s.breaks[0].at == now
      && -CutAt(now, rate, events, moment)
         <= ExactAt(start, now, rate, events, moment) - Value(s.breaks, rate, moment)
         <= Allowance(s.stockouts, rate, moment)
    ensures WholeUpTo(events, now, moment) ==> CutAt(now, rate, events, moment) == 0.0
  {
    hide Burnt, Runout, HalfSecond;
    ZeroExactlyWhenStopped(start, now, rate, events, end, moment);
    RefinesExact(start, now, rate, events, moment);
    CutExactly(now, rate, events, moment);
    ReportsLatenessAt(start, now, rate, events, end, moment);
  }
}
