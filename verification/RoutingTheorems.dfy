/** When a plan is refused, approved or sent to a person, in the fields of the plan, its checks and the policy. */
module RoutingTheorems {
  import opened Basics
  import opened Routing

  // ----- Refusals -----

  /** What routing asks of its policy. */
  predicate Sensible(v: Verified, policy: Policy) {
    && v.finite(policy.autoLimit) && v.finite(policy.confidenceMin) && v.finite(policy.auditShare)
    && policy.confidenceMin <= 1.0 && policy.auditShare <= 1.0 && policy.approvalWindow > 0
  }

  /** A check of this name for this option is missing, or one is there that is none of the known checks. */
  ghost predicate CheckAmiss(v: Verified, id: string, name: string) {
    name in v.checkIds <==> forall c :: c in v.checks && c.checkId == name ==> c.optionId != Some(id)
  }

  /** The plan as a whole has no check of this name. */
  ghost predicate PlanCheckMissing(v: Verified, name: string) {
    forall c :: c in v.checks && c.optionId.None? ==> c.checkId != name
  }

  lemma ChecksComplete(v: Verified)
    ensures (exists id :: id in v.chosen && CheckIdsFor(v, id) != v.checkIds)
            <==> exists id, name :: id in v.chosen && CheckAmiss(v, id, name)
    ensures {"V-01", "V-09"} <= PlanCheckIds(v) <==> !PlanCheckMissing(v, "V-01") && !PlanCheckMissing(v, "V-09")
  {
    if id :| id in v.chosen && CheckIdsFor(v, id) != v.checkIds {
      if name :| name in v.checkIds && name !in CheckIdsFor(v, id) {
        assert CheckAmiss(v, id, name);
      } else {
        var name :| name in CheckIdsFor(v, id) && name !in v.checkIds;
        assert CheckAmiss(v, id, name);
      }
    }
  }

  /**
   Under a sensible policy a plan is refused, whoever could approve it, exactly when one of these holds: the kill
   switch is on, the run limit is hit, the plan is not the verified one, it was not verified within the last
   minute, its options repeat or are not grounded, a check is missing, a blocking check of the plan or of a
   chosen option failed, or its confidence is too low. A refused plan is Tier 3 and has no parts.
   */
  lemma RefusedExactly(v: Verified, setting: Setting)
    requires Sensible(v, setting.policy)
    ensures var route := RouteOf(v, setting);
      (route.Ok? && route.value.tier == 3 && route.value.reason != "NO_SUFFICIENT_APPROVER") <==>
        || setting.policy.killSwitch
        || setting.policy.limitHit
        || v.planHash != v.versionHash
        || v.verifiedAt.None? || v.verifiedAt.value > setting.now || setting.now - v.verifiedAt.value > 60 * 1000000
        || (exists i, j :: 0 <= i < j < |v.chosen| && v.chosen[i] == v.chosen[j])
        || !v.grounded
        || (exists id :: id in v.chosen && id !in v.lead)
        || (exists id, name :: id in v.chosen && CheckAmiss(v, id, name))
        || PlanCheckMissing(v, "V-01") || PlanCheckMissing(v, "V-09")
        || (exists c :: c in v.checks && c.blocking && !c.passed
              && (c.optionId.None? || c.optionId.value in v.chosen))
        || v.confidence(v.chosen) < setting.policy.confidenceMin
    ensures RouteOf(v, setting).Ok? && RouteOf(v, setting).value.tier == 3 ==> RouteOf(v, setting).value.parts == []
  {
    hide Auto, Parts, CheckAmiss, PlanCheckMissing, CheckIdsFor, PlanCheckIds;
    ChecksComplete(v);
    if RouteOf(v, setting).Ok? {
      RouteTier(v, setting);
    }
  }

  /** A plan that is routed was refused for no reason. */
  lemma RoutedOnlyIfClear(v: Verified, setting: Setting)
    requires RouteOf(v, setting).Ok? && RouteOf(v, setting).value.tier != 3
    ensures Sensible(v, setting.policy) && !setting.policy.killSwitch && !setting.policy.limitHit
    ensures v.planHash == v.versionHash == RouteOf(v, setting).value.versionHash && v.verifiedAt.Some?
    ensures 0 <= setting.now - v.verifiedAt.value <= 60 * 1000000
    ensures v.grounded && forall i, j :: 0 <= i < j < |v.chosen| ==> v.chosen[i] != v.chosen[j]
    ensures forall id :: id in v.chosen ==> id in v.lead && id in v.options
    ensures forall id, name :: id in v.chosen ==> !CheckAmiss(v, id, name)
    ensures !PlanCheckMissing(v, "V-01") && !PlanCheckMissing(v, "V-09")
    ensures forall c :: c in v.checks && c.blocking && (c.optionId.None? || c.optionId.value in v.chosen) ==> c.passed
    ensures v.confidence(v.chosen) >= setting.policy.confidenceMin
  {
    hide Auto, Parts, CheckAmiss, PlanCheckMissing, CheckIdsFor, PlanCheckIds;
    ChecksComplete(v);
  }

  /** Routing raises only for a policy that makes no sense, or for a plan it could not price. */
  lemma RaisesOnly(v: Verified, setting: Setting)
    ensures !Sensible(v, setting.policy) ==> RouteOf(v, setting).Err?
    ensures RouteOf(v, setting).Err? && Sensible(v, setting.policy) ==>
      v.chosen == [] || exists id :: id in v.chosen && id !in v.options
    ensures RouteOf(v, setting).Ok? && RouteOf(v, setting).value.tier != 3 ==>
      v.chosen != [] && forall id :: id in v.chosen ==> id in v.options
  {
    hide Parts, Blocked;
  }

  // ----- What goes through without a person -----

  /** The price of options, one more at the end. */
  lemma {:induction false} CostsAdd(v: Verified, ids: seq<string>, id: string)
    requires id in v.options
    ensures TotalCost(v, []) == 0.0 && TotalCoverage(v, []) == 0.0
    ensures TotalCost(v, ids + [id]) == TotalCost(v, ids) + v.options[id].costUsd
    ensures TotalCoverage(v, ids + [id]) == TotalCoverage(v, ids) + v.options[id].coverage
  {
    if ids == [] {
      assert ids + [id] == [id];
    } else {
      assert (ids + [id])[1..] == ids[1..] + [id];
      CostsAdd(v, ids[1..], id);
    }
  }

  /**
   These options may be approved without a person: there are some, together they cost no more than the limit,
   each can be taken back, the verifier is confident enough of them, and every check passed, blocking or not, of
   the plan as a whole and of each of them.
   */
  lemma AutoExactly(v: Verified, policy: Policy, ids: seq<string>)
    requires forall id :: id in ids ==> id in v.chosen
    ensures Auto(v, policy, ids) <==>
      && ids != [] && TotalCost(v, ids) <= policy.autoLimit
      && (forall id :: id in ids ==> v.reversible(id))
      && v.confidence(ids) >= policy.confidenceMin
      && (forall c :: c in v.checks && c.optionId.None? ==> c.passed)
      && (forall c :: c in v.checks && c.optionId.Some? && c.optionId.value in ids ==> c.passed)
  {
    hide TotalCost;
  }

  /** A plan is approved as a whole exactly when all of its options may be. */
  lemma TierOneExactly(v: Verified, setting: Setting)
    requires RouteOf(v, setting).Ok?
    requires RouteOf(v, setting).value.tier == 3 ==> RouteOf(v, setting).value.reason == "NO_SUFFICIENT_APPROVER"
    ensures RouteOf(v, setting).value.tier == 1 <==>
      && TotalCost(v, v.chosen) <= setting.policy.autoLimit
      && (forall id :: id in v.chosen ==> v.reversible(id))
      && (forall c :: c in v.checks && (c.optionId.None? || c.optionId.value in v.chosen) ==> c.passed)
  {
    hide TotalCost, Parts, Repeats, CheckIdsFor, PlanCheckIds;
    AutoExactly(v, setting.policy, v.chosen);
  }

  // ----- The parts -----

  /** A plan that is neither refused nor approved as a whole goes by whether the waiting part has an approver. */
  lemma RoutedByApprover(v: Verified, setting: Setting)
    requires RouteOf(v, setting).Ok? && RouteOf(v, setting).value.tier != 1
    requires RouteOf(v, setting).value.tier == 3 ==> RouteOf(v, setting).value.reason == "NO_SUFFICIENT_APPROVER"
    ensures v.chosen != []
    ensures var part := PendingPart(v, setting, Outside(v.chosen, ChosenNow(v, setting)));
      && (RouteOf(v, setting).value.tier == 3 <==> part.approver.None?)
      && (RouteOf(v, setting).value.tier == 2 ==> RouteOf(v, setting).value.parts == Parts(v, setting))
      && Parts(v, setting)[|Parts(v, setting)| - 1] == part
  {
    hide Auto, Outside, Urgent, PendingPart, Immediate, TotalCost, Repeats, CheckIdsFor, PlanCheckIds, AutoPart;
  }

  /**
   A plan that is neither refused nor approved as a whole goes to a person exactly when somebody's limit at this
   plant covers, today, all of it that has to wait; otherwise it is Tier 3.
   */
  lemma PersonExactly(v: Verified, setting: Setting) returns (waiting: seq<string>)
    requires RouteOf(v, setting).Ok? && RouteOf(v, setting).value.tier != 1
    requires RouteOf(v, setting).value.tier == 3 ==> RouteOf(v, setting).value.reason == "NO_SUFFICIENT_APPROVER"
    ensures RouteOf(v, setting).value.tier == 3 <==>
      forall limit :: limit in setting.limits ==>
        !(limit.plant == setting.plant && limit.validFrom <= setting.now / (24 * 3600 * 1000000) <= limit.validTo
          && v.finite(limit.limitUsd) && TotalCost(v, waiting) <= limit.limitUsd)
    ensures var parts := RouteOf(v, setting).value.parts;
      RouteOf(v, setting).value.tier == 2 ==> parts != [] && parts[|parts| - 1].options == waiting
    ensures forall id :: id in waiting ==> id in v.chosen
  {
    RoutedByApprover(v, setting);
    waiting := Outside(v.chosen, ChosenNow(v, setting));
    OutsideMembers(v.chosen, ChosenNow(v, setting));
    ApproverExactly(v, setting, waiting);
    PendingTakes(v, setting, waiting);
    hide RouteOf, Outside, PendingPart, TotalCost, Parts, ChosenNow;
  }

  lemma {:induction false} OutsideMembers(ids: seq<string>, taken: seq<string>)
    ensures forall id :: id in Outside(ids, taken) <==> id in ids && id !in taken
  {
    if ids != [] {
      OutsideMembers(ids[1..], taken);
      assert ids == [ids[0]] + ids[1..];
    }
  }

  lemma ApproverExactly(v: Verified, setting: Setting, ids: seq<string>)
    ensures PendingPart(v, setting, ids).approver.None? <==>
      forall limit :: limit in setting.limits ==>
        !(limit.plant == setting.plant && limit.validFrom <= setting.now / (24 * 3600 * 1000000) <= limit.validTo
          && v.finite(limit.limitUsd) && TotalCost(v, ids) <= limit.limitUsd)
  {
    hide Eligible, TotalCost, Deadline, OtherUser;
    var people := Eligible(v.finite, setting.limits, setting.plant, TotalCost(v, ids), setting.now);
    EligibleSmallestFirst(v.finite, setting.limits, setting.plant, TotalCost(v, ids), setting.now);
    if people != [] {
      assert people[0] in people;
    }
  }

  lemma IdIsSorted(v: Verified, ids: seq<string>)
    ensures var id := IdOf(v, ids);
      id.planHash == v.planHash && multiset(id.options) == multiset(ids) && Ordered(StringLeq, id.options)
  {
    StringLeqOrders();
    SortedOrdered(StringLeq, ids);
    SortedPermutes(StringLeq, ids);
  }

  /** Half of the time left, and of two whole moments that are equally near the even one. */
  predicate Halfway(left: int, ahead: int) {
    left - 1 <= 2 * ahead <= left + 1 && (left % 2 == 1 ==> ahead % 2 == 0)
  }

  lemma HalfIsHalfway(d: int)
    ensures Halfway(d, Half(d))
  {}

  /** A part is known by the plan and its own options, in whatever order they were chosen. */
  lemma PartIsNamed(v: Verified, setting: Setting, k: nat)
    requires RouteOf(v, setting).Ok? && k < |RouteOf(v, setting).value.parts|
    ensures var part := RouteOf(v, setting).value.parts[k];
      && part.id.planHash == v.planHash && multiset(part.id.options) == multiset(part.options)
      && Ordered(StringLeq, part.id.options)
  {
    PartShape(v, setting, k);
    var part := RouteOf(v, setting).value.parts[k];
    IdIsSorted(v, part.options);
    PendingReminds(v, setting, part.options);
    hide RouteOf, TotalCost, IdOf, PendingPart, Ordered, Sorted;
  }

  /** What a part says of itself: its cost and confidence, whether it is sampled, and when to remind. */
  lemma PartSays(v: Verified, setting: Setting, k: nat)
    requires RouteOf(v, setting).Ok? && k < |RouteOf(v, setting).value.parts|
    ensures var part := RouteOf(v, setting).value.parts[k];
      && part.cost == TotalCost(v, part.options) && part.confidence == v.confidence(part.options)
      && (part.tier == 1 || part.tier == 2)
      && (part.tier == 1 ==>
            && (part.sampled <==> setting.sample(part.id) < setting.policy.auditShare)
            && part.approver.None? && part.backup.None? && part.deadline.None? && part.reminder.None?)
      && (part.tier == 2 ==>
            && !part.sampled && part.deadline.Some? && part.reminder.Some?
            && Halfway(part.deadline.value - setting.now, part.reminder.value - setting.now))
  {
    hide *;
    PartShape(v, setting, k);
    AutoSamples(v, setting, RouteOf(v, setting).value.parts[k].options);
    PendingReminds(v, setting, RouteOf(v, setting).value.parts[k].options);
  }

  lemma PartShape(v: Verified, setting: Setting, k: nat)
    requires RouteOf(v, setting).Ok? && k < |RouteOf(v, setting).value.parts|
    ensures var part := RouteOf(v, setting).value.parts[k];
      part == AutoPart(v, setting, part.options) || part == PendingPart(v, setting, part.options)
  {
    RouteTier(v, setting);
    RouteShape(v, setting);
    hide RouteOf, Auto, Immediate, TotalCost, Eligible, Deadline, Outside, Urgent, Repeats, IdOf, Half, OtherUser;
  }

  lemma AutoSamples(v: Verified, setting: Setting, ids: seq<string>)
    ensures var part := AutoPart(v, setting, ids);
      && part.options == ids && part.tier == 1 && part.cost == TotalCost(v, ids)
      && part.confidence == v.confidence(ids)
      && (part.sampled <==> setting.sample(part.id) < setting.policy.auditShare)
      && part.approver.None? && part.backup.None? && part.deadline.None? && part.reminder.None?
  {
    hide TotalCost, IdOf;
  }

  lemma PendingReminds(v: Verified, setting: Setting, ids: seq<string>)
    ensures var part := PendingPart(v, setting, ids);
      && part.id == IdOf(v, ids) && part.options == ids && part.tier == 2 && part.cost == TotalCost(v, ids)
      && part.confidence == v.confidence(ids) && !part.sampled && part.deadline.Some? && part.reminder.Some?
      && Halfway(part.deadline.value - setting.now, part.reminder.value - setting.now)
  {
    hide TotalCost, Eligible, Deadline, OtherUser, IdOf, Half, Halfway;
    HalfIsHalfway(Deadline(v, setting, ids) - setting.now);
  }

  lemma StringLeqOrders()
    ensures TotalOrder(StringLeq)
  {
    forall x, y ensures StringLeq(x, y) || StringLeq(y, x) {
      StringLeqTotal(x, y);
    }
    forall x, y, z | StringLeq(x, y) && StringLeq(y, z) ensures StringLeq(x, z) {
      StringLeqTransitive(x, y, z);
    }
  }

  /**
   The waiting part must be approved within the window, and in time for each of its options to arrive before
   stock runs out without it; the deadline is the latest such moment.
   */
  lemma DeadlineExactly(v: Verified, setting: Setting)
    requires RouteOf(v, setting).Ok? && RouteOf(v, setting).value.tier == 2
    ensures var parts := RouteOf(v, setting).value.parts;
      && parts != [] && parts[|parts| - 1].deadline.Some?
      && var part, least := parts[|parts| - 1], parts[|parts| - 1].deadline.value;
         && least <= setting.now + setting.policy.approvalWindow
         && (forall id :: id in part.options ==>
               && id in v.lead
               && match StockoutWithout(setting, id)
                  case Some(horizon) => least <= horizon - v.lead[id]
                  case None => true)
         && (least == setting.now + setting.policy.approvalWindow
             || exists id :: id in part.options && id in v.lead && StockoutWithout(setting, id).Some?
                             && least == StockoutWithout(setting, id).value - v.lead[id])
  {
    RouteShape(v, setting);
    RoutedOnlyIfClear(v, setting);
    var ids := Outside(v.chosen, ChosenNow(v, setting));
    OutsideMembers(v.chosen, ChosenNow(v, setting));
    DeadlineInTime(v, setting, ids);
    forall id ensures Horizon(setting, id) == StockoutWithout(setting, id) {}
    hide RouteOf, Auto, Immediate, Eligible, Deadline, Outside, Urgent, TotalCost, OtherUser, Repeats, Horizon,
         StockoutWithout;
    var parts := RouteOf(v, setting).value.parts;
    assert parts[|parts| - 1] == PendingPart(v, setting, ids);
    forall id | id in ids ensures Lead(v, id) == v.lead[id] {}
  }

  /** The projected stock-out with every other chosen action in place, or else the one the case was opened with. */
  function StockoutWithout(setting: Setting, id: string): Option<int> {
    match setting.without
    case Some(stockouts) => if id in stockouts then stockouts[id] else Some(setting.stockout)
    case None => Some(setting.stockout)
  }

  lemma {:induction false} FastestExactly(v: Verified, ids: seq<string>, time: int)
    requires ids != [] && forall id :: id in ids ==> id in v.lead
    ensures time < Fastest(v, ids) <==> forall id :: id in ids ==> time < v.lead[id]
  {
    if |ids| > 1 {
      FastestExactly(v, ids[1..], time);
      assert ids == [ids[0]] + ids[1..];
    } else {
      assert ids == [ids[0]];
    }
  }

  /** A Tier 2 plan is split exactly when no option could arrive after the window and some may go without a person. */
  lemma SplitExactly(v: Verified, setting: Setting)
    requires RouteOf(v, setting).Ok? && RouteOf(v, setting).value.tier == 2
    ensures (|RouteOf(v, setting).value.parts| == 2 || |RouteOf(v, setting).value.parts| == 1)
    ensures forall id :: id in v.chosen ==> id in v.lead
    ensures |RouteOf(v, setting).value.parts| == 2 <==>
      && (forall id :: id in v.chosen ==>
            setting.stockout - setting.now < setting.policy.approvalWindow + v.lead[id])
      && exists ids :: IsSubsequence(ids, v.chosen) && |ids| < |v.chosen| && Auto(v, setting.policy, ids)
  {
    RouteShape(v, setting);
    RoutedOnlyIfClear(v, setting);
    FastestExactly(v, v.chosen, setting.stockout - setting.now - setting.policy.approvalWindow);
    ImmediateCoversMost(v, setting.policy);
    hide RouteOf, Auto, Immediate, PendingPart, Outside, IsSubsequence, Repeats, Fastest;
  }

  /** The tuples first differ at `k`, and `a` is the smaller there. */
  ghost predicate SmallerAt(a: seq<string>, b: seq<string>, k: nat) {
    k < |a| && k < |b| && a[..k] == b[..k] && a[k] != b[k] && StringLeq(a[k], b[k])
  }

  /** Tuples compare as in Python: by their first difference, and a prefix comes first. */
  ghost predicate Before(a: seq<string>, b: seq<string>) {
    a <= b || exists k :: SmallerAt(a, b, k)
  }

  lemma SmallerLater(x: string, s: seq<string>, t: seq<string>, k: nat)
    ensures SmallerAt([x] + s, [x] + t, k + 1) <==> SmallerAt(s, t, k)
    ensures !SmallerAt([x] + s, [x] + t, 0)
  {
    if k < |s| && k < |t| {
      assert ([x] + s)[..k + 1] == [x] + s[..k] && ([x] + t)[..k + 1] == [x] + t[..k];
      assert ([x] + s[..k])[1..] == s[..k] && ([x] + t[..k])[1..] == t[..k];
    }
  }

  lemma SmallerFirst(a: seq<string>, b: seq<string>, k: nat)
    requires a != [] && b != [] && a[0] != b[0]
    ensures SmallerAt(a, b, k) <==> k == 0 && StringLeq(a[0], b[0])
  {
    if 0 < k < |a| && k < |b| {
      assert a[..k][0] == a[0] && b[..k][0] == b[0];
    }
  }

  lemma SameFirst(x: string, s: seq<string>, t: seq<string>)
    ensures Before([x] + s, [x] + t) <==> Before(s, t)
  {
    hide SmallerAt;
    assert [x] + s <= [x] + t <==> s <= t by {
      assert ([x] + s)[1..] == s && ([x] + t)[1..] == t;
      assert s <= t ==> t == s + t[|s|..];
    }
    if k: nat :| SmallerAt(s, t, k) {
      SmallerLater(x, s, t, k);
    }
    if k: nat :| SmallerAt([x] + s, [x] + t, k) {
      SmallerLater(x, s, t, if k == 0 then 0 else k - 1);
    }
  }

  lemma {:induction false} IdsLeqExactly(a: seq<string>, b: seq<string>)
    ensures IdsLeq(a, b) <==> Before(a, b)
  {
    hide StringLeq;
    if a != [] && b != [] {
      if a[0] == b[0] {
        IdsLeqExactly(a[1..], b[1..]);
        SameFirst(a[0], a[1..], b[1..]);
        assert a == [a[0]] + a[1..] && b == [b[0]] + b[1..];
      } else {
        hide SmallerAt;
        SmallerFirst(a, b, 0);
        if k: nat :| SmallerAt(a, b, k) {
          SmallerFirst(a, b, k);
        }
      }
    }
  }

  lemma {:induction false} IdsLeqOrders(a: seq<string>, b: seq<string>, c: seq<string>)
    ensures IdsLeq(a, b) || IdsLeq(b, a)
    ensures IdsLeq(a, b) && IdsLeq(b, c) ==> IdsLeq(a, c)
  {
    hide StringLeq;
    if a != [] && b != [] {
      StringLeqTotal(a[0], b[0]);
      if c != [] {
        IdsLeqOrders(a[1..], b[1..], c[1..]);
        StringLeqTotal(b[0], c[0]);
        if StringLeq(a[0], b[0]) && StringLeq(b[0], c[0]) {
          StringLeqTransitive(a[0], b[0], c[0]);
        }
      } else {
        IdsLeqOrders(a[1..], b[1..], c);
      }
    }
  }

  /** `max` takes the largest coverage, and of equal ones the last by their ids. */
  lemma {:induction false} StrongestIsLast(v: Verified, candidates: seq<seq<string>>)
    requires candidates != []
    ensures forall ids :: ids in candidates ==> Weaker(v, ids, Strongest(v, candidates))
  {
    hide IdsLeq, TotalCoverage;
    var last := candidates[|candidates| - 1];
    IdsLeqOrders(last, last, last);
    if |candidates| > 1 {
      var fewer := candidates[..|candidates| - 1];
      StrongestIsLast(v, fewer);
      var best := Strongest(v, fewer);
      assert candidates == fewer + [last];
      IdsLeqOrders(last, best, best);
      forall ids | ids in candidates ensures Weaker(v, ids, Strongest(v, candidates)) {
        if ids != last {
          assert ids in fewer;
          IdsLeqOrders(ids, best, last);
        }
      }
    }
  }

  /** The urgent part has the largest coverage, and of equal ones the last ids. */
  lemma UrgentPartIsLast(v: Verified, setting: Setting, other: seq<string>)
    requires RouteOf(v, setting).Ok? && RouteOf(v, setting).value.tier == 2 && |RouteOf(v, setting).value.parts| == 2
    requires IsSubsequence(other, v.chosen) && |other| < |v.chosen| && Auto(v, setting.policy, other)
    ensures var ids := RouteOf(v, setting).value.parts[0].options;
      || TotalCoverage(v, other) < TotalCoverage(v, ids)
      || (TotalCoverage(v, other) == TotalCoverage(v, ids) && Before(other, ids))
  {
    RouteShape(v, setting);
    hide RouteOf, Auto, TotalCoverage, IsSubsequence, PendingPart, Outside, Urgent, Repeats, Strongest, IdsLeq, Before;
    ImmediateIsLast(v, setting.policy, other);
    IdsLeqExactly(other, Immediate(v, setting.policy));
    hide Immediate;
  }

  lemma ImmediateIsLast(v: Verified, policy: Policy, other: seq<string>)
    requires v.chosen != [] && IsSubsequence(other, v.chosen) && |other| < |v.chosen| && Auto(v, policy, other)
    ensures Weaker(v, other, Immediate(v, policy))
  {
    var keep := (ids: seq<string>) => Auto(v, policy, ids);
    var all := ProperSubsets(v.chosen, 1);
    AutoNonempty(v, policy, other);
    hide Auto, TotalCoverage, IsSubsequence, ProperSubsets, Filter, Strongest, IdsLeq;
    FilterMembers(keep, all);
    ProperSubsetsComplete(v.chosen, 1, other);
    assert keep(other);
    StrongestIsLast(v, Filter(keep, all));
  }

  /** Nothing goes through without a person but what the limit, the verifier and every check allow. */
  lemma WithoutAPerson(v: Verified, setting: Setting, k: nat)
    requires RouteOf(v, setting).Ok? && k < |RouteOf(v, setting).value.parts|
    requires RouteOf(v, setting).value.parts[k].tier == 1
    ensures var part := RouteOf(v, setting).value.parts[k];
      && part.options != [] && part.cost == TotalCost(v, part.options) <= setting.policy.autoLimit
      && (forall id :: id in part.options ==> id in v.chosen && v.reversible(id))
      && v.confidence(part.options) >= setting.policy.confidenceMin
      && (forall c :: c in v.checks && c.optionId.None? ==> c.passed)
      && (forall c :: c in v.checks && c.optionId.Some? && c.optionId.value in part.options ==> c.passed)
    ensures !setting.policy.killSwitch && !setting.policy.limitHit && v.planHash == v.versionHash
  {
    AutoApprovedWithinLimit(v, setting, k);
    RouteTier(v, setting);
    RoutedOnlyIfClear(v, setting);
    RoutePartitions(v, setting);
    hide RouteOf, Auto, TotalCost, Repeats, PartCosts;
    var parts := RouteOf(v, setting).value.parts;
    forall id | id in parts[0].options ensures id in v.chosen {
      assert PartOptions(parts) == parts[0].options + PartOptions(parts[1..]);
      assert id in multiset(PartOptions(parts));
    }
    AutoExactly(v, setting.policy, parts[0].options);
  }

  /** The approver of the waiting part has the least limit that covers it, at this plant and now. */
  lemma LeastLimitApproves(v: Verified, setting: Setting)
    requires RouteOf(v, setting).Ok? && RouteOf(v, setting).value.tier == 2
    ensures var parts := RouteOf(v, setting).value.parts;
      && parts != [] && parts[|parts| - 1].approver.Some?
      && var part := parts[|parts| - 1];
         && exists limit :: && limit in setting.limits && limit.userId == part.approver.value
              && Covers(v, setting, limit, part.cost)
              && forall other :: other in setting.limits && Covers(v, setting, other, part.cost) ==>
                   limit.limitUsd < other.limitUsd
                   || (limit.limitUsd == other.limitUsd && StringLeq(limit.userId, other.userId))
  {
    PendingApprover(v, setting);
    hide RouteOf;
  }

  /** This limit holds at the plant today and is no less than the cost. */
  predicate Covers(v: Verified, setting: Setting, limit: Limit, cost: real) {
    && limit.plant == setting.plant
    && limit.validFrom <= setting.now / (24 * 3600 * 1000000) <= limit.validTo
    && v.finite(limit.limitUsd) && limit.limitUsd >= cost
  }
}
