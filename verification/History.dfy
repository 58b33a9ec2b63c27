/**
 First-in-first-out matching of goods receipts to schedule lines: the allocation loop of
 services/dialogue/history.py. Dates are day numbers, quantities exact reals.
 */
module ReceiptHistory {
  import opened Basics

  datatype Receipt = Receipt(postedOn: int, quantity: real, sourceRef: string)

  datatype Line = Line(due: int, number: string, quantity: real)

  // ----- Order -----

  predicate ByPosting(a: Receipt, b: Receipt) {
    a.postedOn < b.postedOn || (a.postedOn == b.postedOn && StringLeq(a.sourceRef, b.sourceRef))
  }

  predicate ByDue(a: Line, b: Line) {
    a.due < b.due || (a.due == b.due && StringLeq(a.number, b.number))
  }

  lemma ByPostingTotal()
    ensures TotalOrder(ByPosting)
  {
    forall x: Receipt, y: Receipt ensures ByPosting(x, y) || ByPosting(y, x) {
      StringLeqTotal(x.sourceRef, y.sourceRef);
    }
    forall x: Receipt, y: Receipt, z: Receipt | ByPosting(x, y) && ByPosting(y, z) ensures ByPosting(x, z) {
      if x.postedOn == y.postedOn == z.postedOn {
        StringLeqTransitive(x.sourceRef, y.sourceRef, z.sourceRef);
      }
    }
  }

  lemma ByDueTotal()
    ensures TotalOrder(ByDue)
  {
    forall x: Line, y: Line ensures ByDue(x, y) || ByDue(y, x) {
      StringLeqTotal(x.number, y.number);
    }
    forall x: Line, y: Line, z: Line | ByDue(x, y) && ByDue(y, z) ensures ByDue(x, z) {
      if x.due == y.due == z.due {
        StringLeqTransitive(x.number, y.number, z.number);
      }
    }
  }

  /**
   Lines are served by due date, those of one day by their number; receipts are used by posting date, those of
   one day by their document. None is lost or served twice.
   */
  lemma ServedInOrder(receipts: seq<Receipt>, lines: seq<Line>)
    ensures var served := Sorted(ByDue, lines);
      && multiset(served) == multiset(lines)
      && forall i, j :: 0 <= i < j < |served| ==>
           && served[i].due <= served[j].due
           && (served[i].due == served[j].due ==> StringLeq(served[i].number, served[j].number))
    ensures var used := Sorted(ByPosting, receipts);
      && multiset(used) == multiset(receipts)
      && forall i, j :: 0 <= i < j < |used| ==>
           && used[i].postedOn <= used[j].postedOn
           && (used[i].postedOn == used[j].postedOn ==> StringLeq(used[i].sourceRef, used[j].sourceRef))
  {
    ByDueTotal();
    ByPostingTotal();
    SortedPermutes(ByDue, lines);
    SortedPermutes(ByPosting, receipts);
    SortedOrdered(ByDue, lines);
    SortedOrdered(ByPosting, receipts);
    hide Sorted, StringLeq, TotalOrder;
    var served, used := Sorted(ByDue, lines), Sorted(ByPosting, receipts);
    assert forall i, j :: 0 <= i < j < |served| ==> ByDue(served[i], served[j]);
    assert forall i, j :: 0 <= i < j < |used| ==> ByPosting(used[i], used[j]);
  }

  // ----- One line -----

  function Min(a: real, b: real): real {
    if a <= b then a else b
  }

  /** What one receipt gives a line that still lacks `remaining`. */
  function Taken(remaining: real, receipt: Receipt): real {
    Min(remaining, receipt.quantity)
  }

  function Lacking(remaining: real, receipt: Receipt): real {
    if Taken(remaining, receipt) > 0.0 then remaining - Taken(remaining, receipt) else remaining
  }

  /** The part of one receipt assigned to the line, if any. */
  function Given(remaining: real, receipt: Receipt): seq<Receipt> {
    var take := Taken(remaining, receipt);
    if take > 0.0 then [receipt.(quantity := take)] else []
  }

  /** The part of one receipt left for later lines, if any. */
  function Kept(remaining: real, receipt: Receipt): seq<Receipt> {
    var take := Taken(remaining, receipt);
    if receipt.quantity > take then [receipt.(quantity := receipt.quantity - take)] else []
  }

  /** The receipts, or parts of receipts, assigned to a line of `remaining` units. */
  function Assigned(receipts: seq<Receipt>, remaining: real): seq<Receipt> {
    if receipts == [] then []
    else Given(remaining, receipts[0]) + Assigned(receipts[1..], Lacking(remaining, receipts[0]))
  }

  /** What is left of the receipts for the lines after it. */
  function Rest(receipts: seq<Receipt>, remaining: real): seq<Receipt> {
    if receipts == [] then []
    else Kept(remaining, receipts[0]) + Rest(receipts[1..], Lacking(remaining, receipts[0]))
  }

  /** What the receipts leave a line short of. */
  function Short(receipts: seq<Receipt>, remaining: real): real {
    if receipts == [] then remaining else Short(receipts[1..], Lacking(remaining, receipts[0]))
  }

  lemma {:induction false} MatchedSnoc(receipts: seq<Receipt>, receipt: Receipt, remaining: real)
    ensures Short(receipts + [receipt], remaining) == Lacking(Short(receipts, remaining), receipt)
    ensures Assigned(receipts + [receipt], remaining)
         == Assigned(receipts, remaining) + Given(Short(receipts, remaining), receipt)
    ensures Rest(receipts + [receipt], remaining)
         == Rest(receipts, remaining) + Kept(Short(receipts, remaining), receipt)
  {
    hide Given, Kept, Lacking;
    if receipts == [] {
      assert [] + [receipt] == [receipt];
    } else {
      assert (receipts + [receipt])[1..] == receipts[1..] + [receipt];
      MatchedSnoc(receipts[1..], receipt, Lacking(remaining, receipts[0]));
    }
  }

  /** The inner loop: fill one line from the receipts still available. */
  method FillLine(available: seq<Receipt>, required: real) returns (matched: seq<Receipt>, rest: seq<Receipt>)
    ensures matched == Assigned(available, required) && rest == Rest(available, required)
  {
    matched, rest := [], [];
    var remaining := required;
    var i := 0;
    while i < |available|
      invariant 0 <= i <= |available|
      invariant remaining == Short(available[..i], required)
      invariant matched == Assigned(available[..i], required) && rest == Rest(available[..i], required)
    {
      var receipt := available[i];
      MatchedSnoc(available[..i], receipt, required);
      assert available[..i + 1] == available[..i] + [receipt];
      var take := Min(remaining, receipt.quantity);
      if take > 0.0 {
        matched := matched + [receipt.(quantity := take)];
        remaining := remaining - take;
      }
      if receipt.quantity > take {
        rest := rest + [receipt.(quantity := receipt.quantity - take)];
      }
      i := i + 1;
    }
    assert available[..i] == available;
  }

  // ----- All lines of one purchase order item -----

  /** What the first `i` lines leave available. */
  function Left(receipts: seq<Receipt>, lines: seq<Line>, i: nat): seq<Receipt>
    requires i <= |lines|
  {
    if i == 0 then receipts else Rest(Left(receipts, lines, i - 1), lines[i - 1].quantity)
  }

  /** The receipts assigned to line `i`. */
  function ForLine(receipts: seq<Receipt>, lines: seq<Line>, i: nat): seq<Receipt>
    requires i < |lines|
  {
    Assigned(Left(receipts, lines, i), lines[i].quantity)
  }

  /** The outer loop: lines by due date, receipts by posting date. */
  method MatchReceipts(receipts: seq<Receipt>, lines: seq<Line>)
    returns (ordered: seq<Line>, history: seq<seq<Receipt>>, left: seq<Receipt>)
    ensures ordered == Sorted(ByDue, lines) && |history| == |ordered|
    ensures forall i :: 0 <= i < |history| ==> history[i] == ForLine(Sorted(ByPosting, receipts), ordered, i)
    ensures left == Left(Sorted(ByPosting, receipts), ordered, |ordered|)
  {
    hide Sorted, Rest, Assigned;
    left := Sorted(ByPosting, receipts);
    ordered, history := Sorted(ByDue, lines), [];
    var i := 0;
    while i < |ordered|
      invariant 0 <= i <= |ordered| && |history| == i
      invariant left == Left(Sorted(ByPosting, receipts), ordered, i)
      invariant forall k :: 0 <= k < i ==> history[k] == ForLine(Sorted(ByPosting, receipts), ordered, k)
    {
      var matched, rest := FillLine(left, ordered[i].quantity);
      history := history + [matched];
      left := rest;
      i := i + 1;
    }
  }

  // ----- The closed form -----

  function Positive(quantity: real): real {
    if quantity > 0.0 then quantity else 0.0
  }

  /** Units in the receipts whose date and document `keep` selects. */
  function Units(receipts: seq<Receipt>, keep: (int, string) -> bool): real {
    if receipts == [] then 0.0
    else (if keep(receipts[0].postedOn, receipts[0].sourceRef) then Positive(receipts[0].quantity) else 0.0)
         + Units(receipts[1..], keep)
  }

  /** Units posted up to a day. */
  function UnitsBy(receipts: seq<Receipt>, day: int): real {
    Units(receipts, (postedOn: int, sourceRef: string) => postedOn <= day)
  }

  lemma {:induction false} UnitsAppend(a: seq<Receipt>, b: seq<Receipt>, keep: (int, string) -> bool)
    ensures Units(a + b, keep) == Units(a, keep) + Units(b, keep)
  {
    if a == [] {
      assert a + b == b;
    } else {
      assert (a + b)[1..] == a[1..] + b;
      UnitsAppend(a[1..], b, keep);
    }
  }

  lemma {:induction false} UnitsOfInsert(x: Receipt, xs: seq<Receipt>, keep: (int, string) -> bool)
    ensures Units(Insert(ByPosting, x, xs), keep) == Units([x], keep) + Units(xs, keep)
  {
    if xs == [] || ByPosting(x, xs[0]) {
      UnitsAppend([x], xs, keep);
    } else {
      UnitsOfInsert(x, xs[1..], keep);
      UnitsAppend([xs[0]], Insert(ByPosting, x, xs[1..]), keep);
    }
  }

  /** Sorting the receipts changes no sum. */
  lemma {:induction false} UnitsOfSorted(receipts: seq<Receipt>, keep: (int, string) -> bool)
    ensures Units(Sorted(ByPosting, receipts), keep) == Units(receipts, keep)
  {
    if receipts != [] {
      UnitsOfSorted(receipts[1..], keep);
      UnitsOfInsert(receipts[0], Sorted(ByPosting, receipts[1..]), keep);
    }
  }

  /** A line that asks for less than nothing adds what it asks for to every larger receipt it passes on. */
  ghost predicate KeepsUnits(receipts: seq<Receipt>, required: real, keep: (int, string) -> bool) {
    required >= 0.0
    || forall receipt :: receipt in receipts && keep(receipt.postedOn, receipt.sourceRef) ==>
       receipt.quantity <= required
  }

  lemma {:induction false} FilledConserves(receipts: seq<Receipt>, required: real, keep: (int, string) -> bool)
    requires required >= 0.0
    ensures Units(Assigned(receipts, required), keep) + Units(Rest(receipts, required), keep) == Units(receipts, keep)
  {
    if receipts != [] {
      var first, lacking := receipts[0], Lacking(required, receipts[0]);
      FilledConserves(receipts[1..], lacking, keep);
      UnitsAppend(Given(required, first), Assigned(receipts[1..], lacking), keep);
      UnitsAppend(Kept(required, first), Rest(receipts[1..], lacking), keep);
    }
  }

  lemma {:induction false} NegativeInvents(receipts: seq<Receipt>, required: real, keep: (int, string) -> bool)
    requires required < 0.0
    ensures Assigned(receipts, required) == [] && Units(Rest(receipts, required), keep) >= Units(receipts, keep)
    ensures Units(Rest(receipts, required), keep) == Units(receipts, keep) <==> KeepsUnits(receipts, required, keep)
  {
    if receipts != [] {
      var first := receipts[0];
      assert Given(required, first) == [] && Lacking(required, first) == required;
      NegativeInvents(receipts[1..], required, keep);
      UnitsAppend(Kept(required, first), Rest(receipts[1..], required), keep);
      OneInvents(first, required, keep);
      hide Kept, Units;
      assert forall receipt :: receipt in receipts <==> receipt == first || receipt in receipts[1..];
      assert Units(receipts, keep) == Units([first], keep) + Units(receipts[1..], keep) by {
        UnitsAppend([first], receipts[1..], keep);
        assert receipts == [first] + receipts[1..];
      }
    }
  }

  lemma OneInvents(receipt: Receipt, required: real, keep: (int, string) -> bool)
    requires required < 0.0
    ensures Units(Kept(required, receipt), keep) >= Units([receipt], keep)
    ensures Units(Kept(required, receipt), keep) == Units([receipt], keep)
            <==> (keep(receipt.postedOn, receipt.sourceRef) ==> receipt.quantity <= required)
  {}

  /** Matching a line loses nothing, and invents nothing exactly when it keeps units: for any selection of receipts. */
  lemma LineConserves(receipts: seq<Receipt>, required: real, keep: (int, string) -> bool)
    ensures Units(Assigned(receipts, required), keep) + Units(Rest(receipts, required), keep) >= Units(receipts, keep)
    ensures Units(Assigned(receipts, required), keep) + Units(Rest(receipts, required), keep) == Units(receipts, keep)
            <==> KeepsUnits(receipts, required, keep)
  {
    hide Assigned, Rest;
    if required >= 0.0 {
      FilledConserves(receipts, required, keep);
    } else {
      NegativeInvents(receipts, required, keep);
    }
  }

  /** Units assigned to the first `i` lines. */
  function AssignedUnits(receipts: seq<Receipt>, lines: seq<Line>, i: nat, keep: (int, string) -> bool): real
    requires i <= |lines|
  {
    if i == 0 then 0.0
    else AssignedUnits(receipts, lines, i - 1, keep) + Units(ForLine(receipts, lines, i - 1), keep)
  }

  /**
   No receipt is assigned beyond its quantity: whatever receipts one selects (one document, or all),
   the units assigned over all lines plus the units left are the units received. That holds exactly as
   long as no line of negative quantity meets a selected receipt larger than it.
   */
  lemma {:induction false} ReceiptsConserved(receipts: seq<Receipt>, lines: seq<Line>, i: nat,
                                             keep: (int, string) -> bool)
    requires i <= |lines|
    ensures var sorted := Sorted(ByPosting, receipts);
      var total := AssignedUnits(sorted, lines, i, keep) + Units(Left(sorted, lines, i), keep);
      && Units(Left(sorted, lines, i), keep) >= 0.0 && total >= Units(receipts, keep)
      && (total == Units(receipts, keep) <==>
            forall k :: 0 <= k < i ==> KeepsUnits(Left(sorted, lines, k), lines[k].quantity, keep))
  {
    hide Sorted, Rest, Assigned, Units, KeepsUnits;
    var sorted := Sorted(ByPosting, receipts);
    UnitsNonnegative(Left(sorted, lines, i), keep);
    if i == 0 {
      UnitsOfSorted(receipts, keep);
    } else {
      ReceiptsConserved(receipts, lines, i - 1, keep);
      LineConserves(Left(sorted, lines, i - 1), lines[i - 1].quantity, keep);
    }
  }

  /** Units the first `i` lines ask for. */
  function Demand(lines: seq<Line>, i: nat): real
    requires i <= |lines|
  {
    if i == 0 then 0.0 else Demand(lines, i - 1) + lines[i - 1].quantity
  }

  // ----- Negative lines -----

  ghost predicate AllPositive(receipts: seq<Receipt>) {
    forall receipt :: receipt in receipts ==> receipt.quantity > 0.0
  }

  /** Units in all receipts. */
  function AllUnits(receipts: seq<Receipt>): real {
    Units(receipts, (postedOn: int, sourceRef: string) => true)
  }

  /** A line leaves what exceeds its quantity. */
  lemma {:induction false} LineLeaves(receipts: seq<Receipt>, required: real)
    requires AllPositive(receipts)
    ensures AllPositive(Rest(receipts, required))
    ensures required >= 0.0 ==> AllUnits(Rest(receipts, required)) == Max(AllUnits(receipts) - required, 0.0)
  {
    if receipts != [] {
      var first, lacking := receipts[0], Lacking(required, receipts[0]);
      assert receipts == [first] + receipts[1..];
      LineLeaves(receipts[1..], lacking);
      UnitsNonnegative(receipts[1..], (postedOn: int, sourceRef: string) => true);
      UnitsAppend(Kept(required, first), Rest(receipts[1..], lacking), (postedOn: int, sourceRef: string) => true);
    }
  }

  lemma {:induction false} LinesLeave(receipts: seq<Receipt>, lines: seq<Line>, k: nat)
    requires k <= |lines| && AllPositive(receipts)
    ensures AllPositive(Left(receipts, lines, k))
    ensures (forall j :: 0 <= j < k ==> lines[j].quantity >= 0.0) ==>
              AllUnits(Left(receipts, lines, k)) == Max(AllUnits(receipts) - Demand(lines, k), 0.0)
                && Demand(lines, k) >= 0.0
  {
    hide Rest, AllPositive, AllUnits;
    if k > 0 {
      LinesLeave(receipts, lines, k - 1);
      LineLeaves(Left(receipts, lines, k - 1), lines[k - 1].quantity);
    } else {
      UnitsNonnegative(receipts, (postedOn: int, sourceRef: string) => true);
      AllUnitsOf(receipts);
    }
  }

  lemma AllUnitsOf(receipts: seq<Receipt>)
    ensures AllUnits(receipts) == Units(receipts, (postedOn: int, sourceRef: string) => true)
  {}

  /** Positive receipts hold no units only when there are none. */
  lemma SomethingLeft(receipts: seq<Receipt>)
    requires AllPositive(receipts)
    ensures AllUnits(receipts) <= 0.0 <==> receipts == []
  {
    if receipts != [] {
      assert receipts[0] in receipts;
      UnitsNonnegative(receipts[1..], (postedOn: int, sourceRef: string) => true);
    }
  }

  lemma {:induction false} NothingLeftStays(receipts: seq<Receipt>, lines: seq<Line>, k: nat, j: nat)
    requires k <= j <= |lines| && Left(receipts, lines, k) == []
    ensures Left(receipts, lines, j) == []
  {
    if k < j {
      NothingLeftStays(receipts, lines, k, j - 1);
    }
  }

  /** The first line to ask for less than nothing. */
  ghost predicate FirstNegative(lines: seq<Line>, k: nat) {
    k < |lines| && lines[k].quantity < 0.0 && forall j :: 0 <= j < k ==> lines[j].quantity >= 0.0
  }

  /**
   In terms of what SAP sends: with positive receipts no unit is invented exactly when all receipts are used
   up before the first line of negative quantity, if there is one.
   */
  lemma UnitsInventedOnlyByNegativeLines(receipts: seq<Receipt>, lines: seq<Line>)
    requires AllPositive(receipts)
    ensures var sorted, keep := Sorted(ByPosting, receipts), (postedOn: int, sourceRef: string) => true;
      AssignedUnits(sorted, lines, |lines|, keep) + AllUnits(Left(sorted, lines, |lines|)) == AllUnits(receipts)
      <==> forall k: nat :: FirstNegative(lines, k) ==> AllUnits(receipts) <= Demand(lines, k)
  {
    hide Sorted, Units, Left;
    var sorted, keep := Sorted(ByPosting, receipts), (postedOn: int, sourceRef: string) => true;
    SortedMembers(ByPosting, receipts);
    UnitsOfSorted(receipts, keep);
    ReceiptsConserved(receipts, lines, |lines|, keep);
    if k: nat :| FirstNegative(lines, k) {
      var left := Left(sorted, lines, k);
      LinesLeave(sorted, lines, k);
      SomethingLeft(left);
      if left == [] {
        forall j | 0 <= j < |lines| ensures KeepsUnits(Left(sorted, lines, j), lines[j].quantity, keep) {
          if k <= j {
            NothingLeftStays(sorted, lines, k, j);
          }
        }
      } else {
        assert left[0] in left;
        assert !KeepsUnits(left, lines[k].quantity, keep);
      }
    } else {
      NoFirstNegative(lines, |lines|);
    }
  }

  lemma {:induction false} NoFirstNegative(lines: seq<Line>, n: nat)
    requires n <= |lines| && forall k: nat :: !FirstNegative(lines, k)
    ensures forall j :: 0 <= j < n ==> lines[j].quantity >= 0.0
  {
    if n > 0 {
      NoFirstNegative(lines, n - 1);
      assert !FirstNegative(lines, n - 1);
    }
  }

  lemma {:induction false} UnitsNonnegative(receipts: seq<Receipt>, keep: (int, string) -> bool)
    ensures Units(receipts, keep) >= 0.0
  {
    if receipts != [] {
      UnitsNonnegative(receipts[1..], keep);
    }
  }

  /** So a receipt of 5 units becomes one of 8 when it passes a line of -3. */
  lemma NegativeLineCreatesUnits()
    ensures var receipts := [Receipt(1, 5.0, "SAP:R")];
      Units(Rest(receipts, -3.0), (postedOn: int, sourceRef: string) => true) == 8.0
  {
    var receipts := [Receipt(1, 5.0, "SAP:R")];
    assert Rest(receipts, -3.0) == [Receipt(1, 8.0, "SAP:R")] + Rest(receipts[1..], -3.0);
  }

  // ----- By date -----

  ghost predicate InDateOrder(receipts: seq<Receipt>) {
    forall i, j :: 0 <= i < j < |receipts| ==> receipts[i].postedOn <= receipts[j].postedOn
  }

  lemma {:induction false} NoneBefore(receipts: seq<Receipt>, day: int)
    requires forall i :: 0 <= i < |receipts| ==> receipts[i].postedOn > day
    ensures UnitsBy(receipts, day) == 0.0
  {
    if receipts != [] {
      NoneBefore(receipts[1..], day);
    }
  }

  /** Matching keeps the date order, and dates no later than before. */
  lemma {:induction false} MatchedDates(receipts: seq<Receipt>, required: real, from: int)
    requires InDateOrder(receipts) && forall i :: 0 <= i < |receipts| ==> from <= receipts[i].postedOn
    ensures InDateOrder(Assigned(receipts, required)) && InDateOrder(Rest(receipts, required))
    ensures forall i :: 0 <= i < |Assigned(receipts, required)| ==> from <= Assigned(receipts, required)[i].postedOn
    ensures forall i :: 0 <= i < |Rest(receipts, required)| ==> from <= Rest(receipts, required)[i].postedOn
  {
    if receipts != [] {
      MatchedDates(receipts[1..], Lacking(required, receipts[0]), receipts[0].postedOn);
    }
  }

  /**
   By any day, a line has received the smaller of its quantity and what was available, and the
   lines after it can use what exceeds its quantity.
   */
  lemma {:induction false} LineByDay(receipts: seq<Receipt>, required: real, day: int)
    requires InDateOrder(receipts) && required >= 0.0
    ensures UnitsBy(Assigned(receipts, required), day) == Min(UnitsBy(receipts, day), required)
    ensures UnitsBy(Rest(receipts, required), day) == Max(UnitsBy(receipts, day) - required, 0.0)
  {
    if receipts != [] {
      var first, lacking := receipts[0], Lacking(required, receipts[0]);
      if day < first.postedOn {
        MatchedDates(receipts, required, first.postedOn);
        NoneBefore(receipts, day);
        NoneBefore(Assigned(receipts, required), day);
        NoneBefore(Rest(receipts, required), day);
      } else {
        var keep := (postedOn: int, sourceRef: string) => postedOn <= day;
        LineByDay(receipts[1..], lacking, day);
        UnitsNonnegative(receipts[1..], keep);
        UnitsAppend(Given(required, first), Assigned(receipts[1..], lacking), keep);
        UnitsAppend(Kept(required, first), Rest(receipts[1..], lacking), keep);
      }
    }
  }

  lemma SortedInDateOrder(receipts: seq<Receipt>)
    ensures InDateOrder(Sorted(ByPosting, receipts))
  {
    ByPostingTotal();
    SortedOrdered(ByPosting, receipts);
    var sorted := Sorted(ByPosting, receipts);
    forall i, j | 0 <= i < j < |sorted| ensures sorted[i].postedOn <= sorted[j].postedOn {
      assert ByPosting(sorted[i], sorted[j]);
    }
  }

  lemma {:induction false} LeftByDay(receipts: seq<Receipt>, lines: seq<Line>, i: nat, day: int)
    requires i <= |lines| && forall k :: 0 <= k < i ==> lines[k].quantity >= 0.0
    ensures InDateOrder(Left(Sorted(ByPosting, receipts), lines, i))
    ensures UnitsBy(Left(Sorted(ByPosting, receipts), lines, i), day)
         == Max(UnitsBy(receipts, day) - Demand(lines, i), 0.0)
    ensures Demand(lines, i) >= 0.0
  {
    hide Sorted, Rest, Assigned, Units;
    var keep := (postedOn: int, sourceRef: string) => postedOn <= day;
    if i == 0 {
      SortedInDateOrder(receipts);
      UnitsOfSorted(receipts, keep);
      UnitsNonnegative(receipts, keep);
    } else {
      var before := Left(Sorted(ByPosting, receipts), lines, i - 1);
      LeftByDay(receipts, lines, i - 1, day);
      LineByDay(before, lines[i - 1].quantity, day);
      MatchedDates(before, lines[i - 1].quantity, if before == [] then 0 else before[0].postedOn);
    }
  }

  /**
   The closed form of the nested loops: by any day a line has received exactly the part of its
   quantity that cumulative receipts cover beyond the cumulative demand of the lines before it.
   */
  lemma MatchingIsCumulative(receipts: seq<Receipt>, lines: seq<Line>, i: nat, day: int)
    requires i < |lines| && forall k :: 0 <= k <= i ==> lines[k].quantity >= 0.0
    ensures UnitsBy(ForLine(Sorted(ByPosting, receipts), lines, i), day)
         == Min(Max(UnitsBy(receipts, day) - Demand(lines, i), 0.0), lines[i].quantity)
  {
    LeftByDay(receipts, lines, i, day);
    LineByDay(Left(Sorted(ByPosting, receipts), lines, i), lines[i].quantity, day);
  }

  /** What a line should have received by a day, from cumulative receipts and demand alone. */
  ghost predicate ReceivedByDay(receipts: seq<Receipt>, lines: seq<Line>, i: nat, day: int)
    requires i < |lines|
  {
    UnitsBy(ForLine(Sorted(ByPosting, receipts), lines, i), day)
    == Min(Max(UnitsBy(receipts, day) - Demand(lines, i), 0.0), lines[i].quantity)
  }

  /** The closed form holds for the lines up to `i`, on all days, exactly when none of them is negative. */
  lemma CumulativeUnlessNegative(receipts: seq<Receipt>, lines: seq<Line>, i: nat)
    requires i < |lines|
    ensures (forall k: nat, day :: k <= i ==> ReceivedByDay(receipts, lines, k, day))
            <==> forall k :: 0 <= k <= i ==> lines[k].quantity >= 0.0
  {
    hide Sorted, Assigned, Left, Units, Demand;
    if k: nat :| k <= i && lines[k].quantity < 0.0 {
      var early := (postedOn: int, sourceRef: string) => postedOn <= 0;
      UnitsNonnegative(ForLine(Sorted(ByPosting, receipts), lines, k), early);
      assert !ReceivedByDay(receipts, lines, k, 0);
    } else {
      forall k: nat, day | k <= i ensures ReceivedByDay(receipts, lines, k, day) {
        MatchingIsCumulative(receipts, lines, k, day);
      }
    }
  }
}
