/** Supplier reliability from matched schedule lines: services/dialogue/reliability.py. */
module SupplierReliability {
  import opened Basics
  import opened ReceiptHistory

  datatype Schedule = Schedule(
    supplierId: string, material: string, dueOn: int, quantity: real,
    receipts: seq<Receipt>, sourceRef: string)

  datatype Reliability = Reliability(
    supplierId: string, material: string, windowDays: int, sampleSize: int,
    onTimeRate: real, meanDelayDays: real, p90DelayDays: int, partialRate: real,
    computedOn: int, sourceRefs: set<string>)

  const SAP_PREFIX := "SAP:"

  predicate FromSap(ref: string) {
    SAP_PREFIX <= ref
  }

  // ----- Completion -----

  function AllUnits(receipts: seq<Receipt>): real {
    Units(receipts, (postedOn: int, sourceRef: string) => true)
  }

  /** `day` is the first by which the receipts posted reach the quantity. */
  ghost predicate Completes(receipts: seq<Receipt>, quantity: real, day: int) {
    && UnitsBy(receipts, day) >= quantity
    && forall earlier :: earlier < day ==> UnitsBy(receipts, earlier) < quantity
  }

  /** The completion day, if the receipts ever reach the quantity. */
  ghost function CompletedDay(receipts: seq<Receipt>, quantity: real): Option<int> {
    if exists day :: Completes(receipts, quantity, day) then
      var day :| Completes(receipts, quantity, day);
      Some(day)
    else None
  }

  lemma CompletesOnce(receipts: seq<Receipt>, quantity: real, a: int, b: int)
    requires Completes(receipts, quantity, a) && Completes(receipts, quantity, b)
    ensures a == b
  {
    assert UnitsBy(receipts, a) >= quantity && UnitsBy(receipts, b) >= quantity;
  }

  lemma CompletionUnique(receipts: seq<Receipt>, quantity: real, day: int)
    requires Completes(receipts, quantity, day)
    ensures CompletedDay(receipts, quantity) == Some(day)
  {
    var other :| Completes(receipts, quantity, other) && CompletedDay(receipts, quantity) == Some(other);
    CompletesOnce(receipts, quantity, day, other);
  }

  /** A receipt the computation accepts. */
  predicate Acceptable(receipt: Receipt, today: int) {
    receipt.quantity > 0.0 && FromSap(receipt.sourceRef) && receipt.postedOn <= today
  }

  predicate AcceptableLine(line: Schedule, today: int) {
    && line.quantity > 0.0 && FromSap(line.sourceRef)
    && forall r :: r in line.receipts ==> Acceptable(r, today)
  }

  // ----- What the loop over one line computes -----

  lemma {:induction false} UnitsSnoc(receipts: seq<Receipt>, receipt: Receipt, keep: (int, string) -> bool)
    ensures Units(receipts + [receipt], keep)
         == Units(receipts, keep) + if keep(receipt.postedOn, receipt.sourceRef) then Positive(receipt.quantity)
           else 0.0
  {
    UnitsAppend(receipts, [receipt], keep);
    assert Units([receipt], keep)
        == (if keep(receipt.postedOn, receipt.sourceRef) then Positive(receipt.quantity) else 0.0)
          + Units([receipt][1..], keep);
  }

  lemma AllUnitsSnoc(receipts: seq<Receipt>, receipt: Receipt)
    requires receipt.quantity > 0.0
    ensures AllUnits(receipts + [receipt]) == AllUnits(receipts) + receipt.quantity
  {
    UnitsSnoc(receipts, receipt, (postedOn: int, sourceRef: string) => true);
  }

  lemma {:induction false} AllPostedBy(receipts: seq<Receipt>, day: int)
    requires forall i :: 0 <= i < |receipts| ==> receipts[i].postedOn <= day
    ensures UnitsBy(receipts, day) == AllUnits(receipts)
  {
    if receipts != [] {
      AllPostedBy(receipts[1..], day);
    }
  }

  /** Receipts after the first `i` in date order change nothing before the day of the next one. */
  lemma PrefixBy(receipts: seq<Receipt>, i: nat, day: int)
    requires i <= |receipts| && InDateOrder(receipts)
    requires i < |receipts| ==> day < receipts[i].postedOn
    ensures UnitsBy(receipts, day) == UnitsBy(receipts[..i], day)
  {
    assert receipts == receipts[..i] + receipts[i..];
    UnitsAppend(receipts[..i], receipts[i..], (postedOn: int, sourceRef: string) => postedOn <= day);
    NoneBefore(receipts[i..], day);
  }

  lemma {:induction false} UnitsMonotone(receipts: seq<Receipt>, a: (int, string) -> bool, b: (int, string) -> bool)
    requires forall day, ref :: a(day, ref) ==> b(day, ref)
    ensures Units(receipts, a) <= Units(receipts, b)
  {
    if receipts != [] {
      UnitsMonotone(receipts[1..], a, b);
    }
  }

  /** The running total first reaches the quantity at the receipt that completes the line. */
  lemma ReachedHere(receipts: seq<Receipt>, i: nat, quantity: real)
    requires InDateOrder(receipts) && i < |receipts|
    requires AllUnits(receipts[..i]) < quantity <= AllUnits(receipts[..i + 1])
    ensures Completes(receipts, quantity, receipts[i].postedOn)
  {
    var day := receipts[i].postedOn;
    var upTo := (postedOn: int, sourceRef: string) => postedOn <= day;
    AllPostedBy(receipts[..i + 1], day);
    assert receipts == receipts[..i + 1] + receipts[i + 1..];
    UnitsAppend(receipts[..i + 1], receipts[i + 1..], upTo);
    UnitsNonnegative(receipts[i + 1..], upTo);
    forall earlier | earlier < day ensures UnitsBy(receipts, earlier) < quantity {
      PrefixBy(receipts, i, earlier);
      UnitsMonotone(receipts[..i], (postedOn: int, sourceRef: string) => postedOn <= earlier,
                    (postedOn: int, sourceRef: string) => true);
    }
  }

  lemma SortedCompletes(receipts: seq<Receipt>, quantity: real, day: int)
    ensures Completes(Sorted(ByPosting, receipts), quantity, day) <==> Completes(receipts, quantity, day)
  {
    forall d ensures UnitsBy(Sorted(ByPosting, receipts), d) == UnitsBy(receipts, d) {
      UnitsOfSorted(receipts, (postedOn: int, sourceRef: string) => postedOn <= d);
    }
  }

  lemma NotReached(receipts: seq<Receipt>, quantity: real)
    requires AllUnits(receipts) < quantity
    ensures CompletedDay(receipts, quantity) == None
  {
    forall day ensures UnitsBy(receipts, day) < quantity {
      UnitsMonotone(receipts, (postedOn: int, sourceRef: string) => postedOn <= day,
                    (postedOn: int, sourceRef: string) => true);
    }
  }

  /** The SAP references one line rests on. */
  function LineRefs(line: Schedule): set<string> {
    {line.sourceRef} + Refs(line.receipts)
  }

  function Refs(receipts: seq<Receipt>): set<string> {
    set r | r in receipts :: r.sourceRef
  }

  lemma RefsSnoc(receipts: seq<Receipt>, receipt: Receipt)
    ensures Refs(receipts + [receipt]) == Refs(receipts) + {receipt.sourceRef}
  {
    assert receipt in receipts + [receipt];
    forall r | r in receipts ensures r in receipts + [receipt] {
    }
  }

  lemma RefsOfSorted(receipts: seq<Receipt>)
    ensures Refs(Sorted(ByPosting, receipts)) == Refs(receipts)
  {
    SortedMembers(ByPosting, receipts);
  }

  /** The loop over the sorted receipts of one line; it stops at one it does not accept. */
  method ReadReceipts(receipts: seq<Receipt>, quantity: real, today: int)
    returns (ok: bool, completedOn: Option<int>, received: real, refs: set<string>)
    requires InDateOrder(receipts) && quantity > 0.0
    ensures ok <==> forall k :: 0 <= k < |receipts| ==> Acceptable(receipts[k], today)
    ensures ok ==>
      && received == AllUnits(receipts) && refs == Refs(receipts)
      && (completedOn == None ==> received < quantity)
      && (completedOn != None ==> Completes(receipts, quantity, completedOn.value))
  {
    assert AllUnits([]) == 0.0 && Refs([]) == {};
    hide Refs, Units, Completes, AllUnits, InDateOrder, UnitsBy;
    ok, completedOn, received, refs := true, None, 0.0, {};
    var i := 0;
    assert receipts[..i] == [];
    while i < |receipts|
      invariant 0 <= i <= |receipts|
      invariant forall k :: 0 <= k < i ==> Acceptable(receipts[k], today)
      invariant received == AllUnits(receipts[..i]) && refs == Refs(receipts[..i])
      invariant completedOn == None ==> received < quantity
      invariant completedOn != None ==> Completes(receipts, quantity, completedOn.value)
    {
      var receipt := receipts[i];
      if receipt.quantity <= 0.0 || !("SAP:" <= receipt.sourceRef) || receipt.postedOn > today {
        assert !Acceptable(receipts[i], today);
        ok := false;
        return;
      }
      assert receipts[..i + 1] == receipts[..i] + [receipt];
      RefsSnoc(receipts[..i], receipt);
      refs := refs + {receipt.sourceRef};
      AllUnitsSnoc(receipts[..i], receipt);
      received := received + receipt.quantity;
      if received >= quantity && completedOn == None {
        ReachedHere(receipts, i, quantity);
        completedOn := Some(receipt.postedOn);
      }
      i := i + 1;
    }
    assert receipts[..i] == receipts;
  }

  /** One line: an error, or its completion day, the units received and the references used. */
  method ReadLine(line: Schedule, today: int)
    returns (error: Option<string>, completedOn: Option<int>, received: real, refs: set<string>)
    ensures error == None <==> AcceptableLine(line, today)
    ensures error == None ==>
      && completedOn == CompletedDay(line.receipts, line.quantity)
      && received == AllUnits(line.receipts)
      && refs == LineRefs(line)
  {
    hide Sorted, Acceptable, AllUnits, CompletedDay, Refs;
    error, completedOn, received, refs := None, None, 0.0, {};
    if line.quantity <= 0.0 || !("SAP:" <= line.sourceRef) {
      error := Some("reliability requires sourced positive SAP schedule quantities");
      return;
    }
    SortedInDateOrder(line.receipts);
    SortedMembers(ByPosting, line.receipts);
    AllAcceptable(line.receipts, Sorted(ByPosting, line.receipts), today);
    var ok;
    ok, completedOn, received, refs := ReadReceipts(Sorted(ByPosting, line.receipts), line.quantity, today);
    refs := {line.sourceRef} + refs;
    if ok {
      SortedCompletion(line.receipts, line.quantity, completedOn);
      RefsOfSorted(line.receipts);
    } else {
      error := Some("reliability requires sourced positive SAP goods receipts");
    }
  }

  lemma AllAcceptable(receipts: seq<Receipt>, sorted: seq<Receipt>, today: int)
    requires forall r :: r in sorted <==> r in receipts
    ensures (forall k :: 0 <= k < |sorted| ==> Acceptable(sorted[k], today))
       <==> forall r :: r in receipts ==> Acceptable(r, today)
  {
    hide Acceptable;
    if r :| r in receipts && !Acceptable(r, today) {
      var k :| 0 <= k < |sorted| && sorted[k] == r;
      assert !Acceptable(sorted[k], today);
    } else {
      forall k | 0 <= k < |sorted| ensures Acceptable(sorted[k], today) {
        assert sorted[k] in sorted;
      }
    }
  }

  /** What a pass over the sorted receipts finds holds of the receipts as given. */
  lemma SortedCompletion(receipts: seq<Receipt>, quantity: real, completedOn: Option<int>)
    requires completedOn == None ==> AllUnits(Sorted(ByPosting, receipts)) < quantity
    requires completedOn != None ==> Completes(Sorted(ByPosting, receipts), quantity, completedOn.value)
    ensures completedOn == CompletedDay(receipts, quantity)
    ensures AllUnits(Sorted(ByPosting, receipts)) == AllUnits(receipts)
  {
    hide Sorted, Units;
    UnitsOfSorted(receipts, (postedOn: int, sourceRef: string) => true);
    if completedOn == None {
      NotReached(receipts, quantity);
    } else {
      SortedCompletes(receipts, quantity, completedOn.value);
      CompletionUnique(receipts, quantity, completedOn.value);
    }
  }

  // ----- The figures over all selected lines -----

  predicate Selected(line: Schedule, supplierId: string, material: string, firstDay: int, today: int) {
    line.supplierId == supplierId && line.material == material && firstDay <= line.dueOn <= today
  }

  /** On time: the receipts posted by the due date reach the quantity. */
  predicate OnTime(line: Schedule) {
    UnitsBy(line.receipts, line.dueOn) >= line.quantity
  }

  predicate Partial(line: Schedule) {
    |line.receipts| > 1 || AllUnits(line.receipts) < line.quantity
  }

  /** Days late; an incomplete line counts as late until today. */
  ghost function Delay(line: Schedule, today: int): int {
    var completed := CompletedDay(line.receipts, line.quantity);
    var late := (if completed == None then today else completed.value) - line.dueOn;
    if late > 0 then late else 0
  }

  ghost function Delays(lines: seq<Schedule>, today: int): seq<int> {
    seq(|lines|, i requires 0 <= i < |lines| => Delay(lines[i], today))
  }

  function Count<T>(xs: seq<T>, holds: T -> bool): (n: nat)
    ensures n <= |xs|
  {
    if xs == [] then 0 else Count(xs[..|xs| - 1], holds) + if holds(xs[|xs| - 1]) then 1 else 0
  }

  function Sum(xs: seq<int>): int {
    if xs == [] then 0 else Sum(xs[..|xs| - 1]) + xs[|xs| - 1]
  }

  /** A line completed by its due date is exactly one on time. */
  lemma OnTimeIsCompletedInTime(line: Schedule)
    requires line.quantity > 0.0
    ensures OnTime(line) <==>
      var day := CompletedDay(line.receipts, line.quantity); day != None && day.value <= line.dueOn
  {
    if OnTime(line) {
      FirstDay(line.receipts, line.quantity, line.dueOn);
    } else {
      var day := CompletedDay(line.receipts, line.quantity);
      if day != None {
        UnitsMonotoneByDay(line.receipts, day.value, line.dueOn);
      }
    }
  }

  lemma UnitsMonotoneByDay(receipts: seq<Receipt>, a: int, b: int)
    ensures a <= b ==> UnitsBy(receipts, a) <= UnitsBy(receipts, b)
  {
    if a <= b {
      UnitsMonotone(receipts, (postedOn: int, sourceRef: string) => postedOn <= a,
                    (postedOn: int, sourceRef: string) => postedOn <= b);
    }
  }

  /** If some day reaches a positive quantity there is a first one, no later. */
  lemma FirstDay(receipts: seq<Receipt>, quantity: real, day: int)
    requires quantity > 0.0 && UnitsBy(receipts, day) >= quantity
    ensures var first := CompletedDay(receipts, quantity); first != None && first.value <= day
  {
    var low := EarliestDate(receipts);
    if low > day {
      NoneBefore(receipts, day);
    }
    SearchFirst(receipts, quantity, low - 1, day);
  }

  lemma SearchFirst(receipts: seq<Receipt>, quantity: real, low: int, day: int)
    requires low <= day && UnitsBy(receipts, day) >= quantity
    requires forall earlier :: earlier <= low ==> UnitsBy(receipts, earlier) < quantity
    ensures var first := CompletedDay(receipts, quantity); first != None && first.value <= day
    decreases day - low
  {
    if UnitsBy(receipts, day - 1) >= quantity {
      SearchFirst(receipts, quantity, low, day - 1);
    } else {
      forall earlier | earlier < day ensures UnitsBy(receipts, earlier) < quantity {
        UnitsMonotoneByDay(receipts, earlier, day - 1);
      }
      CompletionUnique(receipts, quantity, day);
    }
  }

  lemma {:induction false} EarliestDate(receipts: seq<Receipt>) returns (low: int)
    ensures forall i :: 0 <= i < |receipts| ==> low <= receipts[i].postedOn
    ensures forall day :: day < low ==> UnitsBy(receipts, day) == 0.0
  {
    if receipts == [] {
      low := 0;
    } else {
      var rest := EarliestDate(receipts[1..]);
      low := if rest <= receipts[0].postedOn then rest else receipts[0].postedOn;
    }
    forall day | day < low ensures UnitsBy(receipts, day) == 0.0 {
      NoneBefore(receipts, day);
    }
  }

  function IntLeq(a: int, b: int): bool {
    a <= b
  }

  /** The 1-based nearest rank of the 90th percentile of n values, rounded up. */
  function Rank90(n: nat): nat
    requires n > 0
    ensures 1 <= Rank90(n) <= n
  {
    (9 * n + 9) / 10
  }

  /** At least nine tenths of the values are no larger than `v`, fewer than nine tenths are smaller. */
  ghost predicate NearestRank90(values: seq<int>, v: int) {
    && v in values
    && 10 * Count(values, (x: int) => x <= v) >= 9 * |values|
    && 10 * Count(values, (x: int) => x < v) < 9 * |values|
  }

  function AllRefs(lines: seq<Schedule>): set<string> {
    if lines == [] then {} else AllRefs(lines[..|lines| - 1]) + LineRefs(lines[|lines| - 1])
  }

  /** The loop over the selected lines. */
  method Tally(selected: seq<Schedule>, today: int)
    returns (error: Option<string>, delays: seq<int>, onTime: nat, partial: nat, refs: set<string>)
    ensures error == None <==> forall i :: 0 <= i < |selected| ==> AcceptableLine(selected[i], today)
    ensures error == None ==>
      && delays == Delays(selected, today) && refs == AllRefs(selected)
      && onTime == Count(selected, OnTime) && partial == Count(selected, Partial)
  {
    hide Acceptable, OnTime, CompletedDay, AllUnits, LineRefs;
    error, delays, onTime, partial, refs := None, [], 0, 0, {};
    var i := 0;
    while i < |selected|
      invariant 0 <= i <= |selected| && error == None
      invariant forall k :: 0 <= k < i ==> AcceptableLine(selected[k], today)
      invariant onTime == Count(selected[..i], OnTime) && partial == Count(selected[..i], Partial)
      invariant delays == Delays(selected[..i], today) && refs == AllRefs(selected[..i])
    {
      var line := selected[i];
      var completedOn, received, lineRefs;
      error, completedOn, received, lineRefs := ReadLine(line, today);
      if error != None {
        return;
      }
      OnTimeIsCompletedInTime(line);
      refs := refs + lineRefs;
      if completedOn != None && completedOn.value <= line.dueOn {
        onTime := onTime + 1;
      }
      if |line.receipts| > 1 || received < line.quantity {
        partial := partial + 1;
      }
      var late := (if completedOn == None then today else completedOn.value) - line.dueOn;
      delays := delays + [if late > 0 then late else 0];
      assert selected[..i + 1][..i] == selected[..i];
      DelaysSnoc(selected, i, today);
      i := i + 1;
    }
    assert selected[..i] == selected;
  }

  lemma DelaysSnoc(lines: seq<Schedule>, i: nat, today: int)
    requires i < |lines|
    ensures Delays(lines[..i + 1], today) == Delays(lines[..i], today) + [Delay(lines[i], today)]
  {
  }

  /** The lines of this supplier and material due in the window. */
  function InWindow(schedules: seq<Schedule>, supplierId: string, material: string, firstDay: int,
                    today: int): seq<Schedule> {
    Filter((line: Schedule) => Selected(line, supplierId, material, firstDay, today), schedules)
  }

  /** A line is looked at, as often as it is there, exactly when it is of this supplier and material and due in time. */
  lemma WindowExactly(schedules: seq<Schedule>, supplierId: string, material: string, today: int, windowDays: int,
                      line: Schedule)
    ensures multiset(InWindow(schedules, supplierId, material, today - windowDays, today))[line]
         == if line.supplierId == supplierId && line.material == material
               && today - line.dueOn <= windowDays && line.dueOn <= today
            then multiset(schedules)[line] else 0
  {
    var firstDay := today - windowDays;
    FilterCounts((other: Schedule) => Selected(other, supplierId, material, firstDay, today), schedules, line);
  }

  /** `sum`: what is in one list and the other adds up. */
  lemma {:induction false} SumsUp(a: seq<int>, b: seq<int>, x: int)
    ensures Sum([]) == 0 && Sum([x]) == x && Sum(a + b) == Sum(a) + Sum(b)
  {
    assert [x][..0] == [];
    if b == [] {
      assert a + b == a;
    } else {
      assert (a + b)[..|a + b| - 1] == a + b[..|b| - 1];
      SumsUp(a, b[..|b| - 1], x);
    }
  }

  lemma {:induction false} SumOfInsert(x: int, xs: seq<int>)
    ensures Sum(Insert(IntLeq, x, xs)) == x + Sum(xs)
  {
    if xs == [] || IntLeq(x, xs[0]) {
      SumsUp([x], xs, x);
    } else {
      SumOfInsert(x, xs[1..]);
      SumsUp([xs[0]], Insert(IntLeq, x, xs[1..]), xs[0]);
      SumsUp([xs[0]], xs[1..], xs[0]);
      assert [xs[0]] + xs[1..] == xs;
    }
  }

  lemma {:induction false} SumOfSorted(xs: seq<int>)
    ensures Sum(Sorted(IntLeq, xs)) == Sum(xs)
  {
    if xs != [] {
      SumOfSorted(xs[1..]);
      SumOfInsert(xs[0], Sorted(IntLeq, xs[1..]));
      SumsUp([xs[0]], xs[1..], xs[0]);
      assert [xs[0]] + xs[1..] == xs;
    }
  }

  method Compute(supplierId: string, material: string, schedules: seq<Schedule>, today: int, windowDays: int)
    returns (r: Result<Reliability>)
    ensures var selected := InWindow(schedules, supplierId, material, today - windowDays, today);
      && (r.Ok? <==> supplierId != "" && material != "" && windowDays > 0 && selected != []
                     && forall i :: 0 <= i < |selected| ==> AcceptableLine(selected[i], today))
      && (r.Ok? ==>
            && r.value.supplierId == supplierId && r.value.material == material
            && r.value.windowDays == windowDays && r.value.sampleSize == |selected| && r.value.computedOn == today
            && r.value.onTimeRate == Count(selected, OnTime) as real / |selected| as real
            && r.value.partialRate == Count(selected, Partial) as real / |selected| as real
            && r.value.meanDelayDays == Sum(Delays(selected, today)) as real / |selected| as real
            && NearestRank90(Delays(selected, today), r.value.p90DelayDays)
            && r.value.sourceRefs == AllRefs(selected))
  {
    hide AcceptableLine, NearestRank90, Sorted, Count, Sum, AllRefs, InWindow;
    if supplierId == "" || material == "" || windowDays <= 0 {
      return Err("reliability requires supplier, material and an aware observation time");
    }
    var selected := InWindow(schedules, supplierId, material, today - windowDays, today);
    var error, delays, onTime, partial, refs := Tally(selected, today);
    if error != None {
      return Err(error.value);
    }
    if selected == [] {
      return Err("no SAP schedule lines in reliability window");
    }
    Rank90IsNearest(delays);
    SumOfSorted(delays);
    delays := Sorted(IntLeq, delays);
    r := Ok(Reliability(supplierId, material, windowDays, |selected|, onTime as real / |selected| as real,
                        Sum(delays) as real / |selected| as real, delays[Rank90(|selected|) - 1],
                        partial as real / |selected| as real, today, refs));
  }

  // ----- The percentile -----

  lemma {:induction false} CountOfInsert(x: int, xs: seq<int>, holds: int -> bool)
    ensures Count(Insert(IntLeq, x, xs), holds) == Count(xs, holds) + if holds(x) then 1 else 0
  {
    if xs == [] || IntLeq(x, xs[0]) {
      CountAppend([x], xs, holds);
    } else {
      CountOfInsert(x, xs[1..], holds);
      CountAppend([xs[0]], Insert(IntLeq, x, xs[1..]), holds);
      CountAppend([xs[0]], xs[1..], holds);
      assert [xs[0]] + xs[1..] == xs;
    }
  }

  lemma {:induction false} CountAppend(a: seq<int>, b: seq<int>, holds: int -> bool)
    ensures Count(a + b, holds) == Count(a, holds) + Count(b, holds)
  {
    if b == [] {
      assert a + b == a;
    } else {
      assert (a + b)[..|a + b| - 1] == a + b[..|b| - 1];
      CountAppend(a, b[..|b| - 1], holds);
    }
  }

  lemma {:induction false} CountOfSorted(xs: seq<int>, holds: int -> bool)
    ensures Count(Sorted(IntLeq, xs), holds) == Count(xs, holds)
  {
    if xs != [] {
      CountOfSorted(xs[1..], holds);
      CountOfInsert(xs[0], Sorted(IntLeq, xs[1..]), holds);
      CountAppend([xs[0]], xs[1..], holds);
      assert [xs[0]] + xs[1..] == xs;
    }
  }

  lemma {:induction false} CountAll(xs: seq<int>, holds: int -> bool)
    requires forall i :: 0 <= i < |xs| ==> holds(xs[i])
    ensures Count(xs, holds) == |xs|
  {
    if xs != [] {
      CountAll(xs[..|xs| - 1], holds);
    }
  }

  lemma {:induction false} CountNone(xs: seq<int>, holds: int -> bool)
    requires forall i :: 0 <= i < |xs| ==> !holds(xs[i])
    ensures Count(xs, holds) == 0
  {
    if xs != [] {
      CountNone(xs[..|xs| - 1], holds);
    }
  }

  /** The value at the rounded-up rank of the sorted list is the nearest-rank percentile. */
  lemma Rank90IsNearest(values: seq<int>)
    requires values != []
    ensures |Sorted(IntLeq, values)| == |values|
    ensures NearestRank90(values, Sorted(IntLeq, values)[Rank90(|values|) - 1])
  {
    hide Sorted, Count;
    SortedPermutes(IntLeq, values);
    SortedOrdered(IntLeq, values);
    var sorted, rank := Sorted(IntLeq, values), Rank90(|values|);
    var v := sorted[rank - 1];
    var atMost, below := (x: int) => x <= v, (x: int) => x < v;
    CountOfSorted(values, atMost);
    CountOfSorted(values, below);
    RanksOfSorted(sorted, rank, atMost, below);
    assert v in values by {
      SortedMembers(IntLeq, values);
      assert v in sorted;
    }
  }

  /** In a sorted list the first `rank` values are at most the value there, and the rest are not below it. */
  lemma RanksOfSorted(sorted: seq<int>, rank: nat, atMost: int -> bool, below: int -> bool)
    requires Ordered(IntLeq, sorted) && 1 <= rank <= |sorted|
    requires forall x :: (atMost(x) <==> x <= sorted[rank - 1]) && (below(x) <==> x < sorted[rank - 1])
    ensures Count(sorted, atMost) >= rank && Count(sorted, below) <= rank - 1
  {
    hide Count;
    forall i | 0 <= i < rank ensures atMost(sorted[i]) {
      assert i < rank - 1 ==> IntLeq(sorted[i], sorted[rank - 1]);
    }
    forall i | rank - 1 <= i < |sorted| ensures !below(sorted[i]) {
      assert i > rank - 1 ==> IntLeq(sorted[rank - 1], sorted[i]);
    }
    assert sorted == sorted[..rank] + sorted[rank..];
    CountAppend(sorted[..rank], sorted[rank..], atMost);
    CountAll(sorted[..rank], atMost);
    assert sorted == sorted[..rank - 1] + sorted[rank - 1..];
    CountAppend(sorted[..rank - 1], sorted[rank - 1..], below);
    CountNone(sorted[rank - 1..], below);
  }

  // ----- End to end -----

  /**
   The date `compute` finds for a schedule line matched by `load_history` is the earliest posting
   date by which cumulative receipts reach the cumulative demand through that line, and it finds
   none exactly when the receipts never do.
   */
  lemma CompletionIsCumulative(receipts: seq<Receipt>, lines: seq<Line>, i: nat)
    requires i < |lines| && forall k :: 0 <= k < i ==> lines[k].quantity >= 0.0
    requires lines[i].quantity > 0.0
    ensures CompletedDay(ForLine(Sorted(ByPosting, receipts), lines, i), lines[i].quantity)
         == CompletedDay(receipts, Demand(lines, i + 1))
  {
    var matched, quantity, demand := ForLine(Sorted(ByPosting, receipts), lines, i), lines[i].quantity,
      Demand(lines, i + 1);
    forall day ensures UnitsBy(matched, day) >= quantity <==> UnitsBy(receipts, day) >= demand {
      MatchingIsCumulative(receipts, lines, i, day);
    }
    forall day ensures Completes(matched, quantity, day) <==> Completes(receipts, demand, day) {
    }
    if day :| Completes(matched, quantity, day) {
      CompletionUnique(matched, quantity, day);
      CompletionUnique(receipts, demand, day);
    }
  }
}
