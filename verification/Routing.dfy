/**
 Choosing who approves a verified plan: services/routing/logic.py. The verifier is not part of this
 model: its confidence and reversibility judgements, and the plan's hash, are given. Instants and
 durations are integer microseconds; money and units are exact reals.
 */
module Routing {
  import opened Basics

  const DAY := 24 * 3600 * 1000000
  const MINUTE := 60 * 1000000

  datatype Limit = Limit(userId: string, plant: string, validFrom: int, validTo: int, limitUsd: real)

  datatype Policy = Policy(
    autoLimit: real, confidenceMin: real, auditShare: real, approvalWindow: int, killSwitch: bool, limitHit: bool)

  datatype Check = Check(checkId: string, optionId: Option<string>, blocking: bool, passed: bool)

  datatype Choice = Choice(costUsd: real, coverage: real)

  /** A verified plan, and the verifier's judgements on any selection of its options. */
  datatype Verified = Verified(
    planHash: string, versionHash: string, verifiedAt: Option<int>, chosen: seq<string>, grounded: bool,
    checks: seq<Check>, options: map<string, Choice>, lead: map<string, int>,
    confidence: seq<string> -> real, reversible: string -> bool, finite: real -> bool, checkIds: set<string>)

  datatype PartId = PartId(planHash: string, options: seq<string>)

  datatype Part = Part(
    id: PartId, options: seq<string>, tier: int, cost: real, confidence: real, sampled: bool,
    approver: Option<string>, backup: Option<string>, deadline: Option<int>, reminder: Option<int>)

  datatype Route = Route(tier: int, versionHash: string, parts: seq<Part>, reason: string)

  /** The rest of what `route` is called with; `without` says when stock runs out without one option. */
  datatype Setting = Setting(
    now: int, stockout: int, plant: string, limits: seq<Limit>, policy: Policy,
    without: Option<map<string, Option<int>>>, sample: PartId -> real)

  // ----- Approvers -----

  predicate Sufficient(finite: real -> bool, limit: Limit, plant: string, cost: real, now: int) {
    limit.plant == plant && limit.validFrom <= now / DAY <= limit.validTo && finite(limit.limitUsd)
      && limit.limitUsd >= cost
  }

  predicate ByLimit(a: Limit, b: Limit) {
    a.limitUsd < b.limitUsd || (a.limitUsd == b.limitUsd && StringLeq(a.userId, b.userId))
  }

  function Eligible(finite: real -> bool, limits: seq<Limit>, plant: string, cost: real, now: int): seq<Limit> {
    Sorted(ByLimit, Filter((limit: Limit) => Sufficient(finite, limit, plant, cost, now), limits))
  }

  lemma ByLimitTotal()
    ensures TotalOrder(ByLimit)
  {
    forall x: Limit, y: Limit ensures ByLimit(x, y) || ByLimit(y, x) {
      StringLeqTotal(x.userId, y.userId);
    }
    forall x: Limit, y: Limit, z: Limit | ByLimit(x, y) && ByLimit(y, z) ensures ByLimit(x, z) {
      if x.limitUsd == y.limitUsd == z.limitUsd {
        StringLeqTransitive(x.userId, y.userId, z.userId);
      }
    }
  }

  /** The eligible approvers are exactly the sufficient limits, the smallest first. */
  lemma EligibleSmallestFirst(finite: real -> bool, limits: seq<Limit>, plant: string, cost: real, now: int)
    ensures var people := Eligible(finite, limits, plant, cost, now);
      && (forall limit :: limit in people <==> limit in limits && Sufficient(finite, limit, plant, cost, now))
      && Ordered(ByLimit, people)
  {
    hide Sufficient, ByLimit;
    var keep := (limit: Limit) => Sufficient(finite, limit, plant, cost, now);
    FilterMembers(keep, limits);
    SortedMembers(ByLimit, Filter(keep, limits));
    ByLimitTotal();
    SortedOrdered(ByLimit, Filter(keep, limits));
  }

  // ----- Sums over options -----

  function TotalCost(v: Verified, ids: seq<string>): real {
    if ids == [] then 0.0 else (if ids[0] in v.options then v.options[ids[0]].costUsd else 0.0) + TotalCost(v, ids[1..])
  }

  function TotalCoverage(v: Verified, ids: seq<string>): real {
    if ids == [] then 0.0 else
      (if ids[0] in v.options then v.options[ids[0]].coverage else 0.0) + TotalCoverage(v, ids[1..])
  }

  /** The checks that concern the plan as a whole or a chosen option. */
  predicate Relevant(v: Verified, check: Check) {
    check.optionId.None? || check.optionId.value in v.chosen
  }

  /** May be approved without a person. */
  predicate Auto(v: Verified, policy: Policy, ids: seq<string>) {
    && ids != []
    && TotalCost(v, ids) <= policy.autoLimit
    && (forall id <- ids :: v.reversible(id))
    && v.confidence(ids) >= policy.confidenceMin
    && (forall check <- v.checks ::
          Relevant(v, check) && (check.optionId.None? || check.optionId.value in ids) ==> check.passed)
  }

  // ----- Subsets -----

  /** `combinations(xs, size)`, in its order. */
  function Combinations(xs: seq<string>, size: nat): seq<seq<string>> {
    if size == 0 then [[]]
    else if xs == [] then []
    else Prefixed(xs[0], Combinations(xs[1..], size - 1)) + Combinations(xs[1..], size)
  }

  function Prefixed(x: string, lists: seq<seq<string>>): seq<seq<string>> {
    seq(|lists|, i requires 0 <= i < |lists| => [x] + lists[i])
  }

  /** The proper nonempty subsets, smallest first. */
  function ProperSubsets(xs: seq<string>, from: nat): seq<seq<string>>
    requires from <= |xs|
    decreases |xs| - from
  {
    if from == |xs| then [] else Combinations(xs, from) + ProperSubsets(xs, from + 1)
  }

  /** `part` can be had by leaving out elements of `whole`. */
  predicate IsSubsequence(part: seq<string>, whole: seq<string>) {
    if part == [] then true
    else if whole == [] then false
    else (part[0] == whole[0] && IsSubsequence(part[1..], whole[1..])) || IsSubsequence(part, whole[1..])
  }

  lemma {:induction false} EmptyIsSubsequence(whole: seq<string>)
    ensures IsSubsequence([], whole)
  {}

  /** Combinations are exactly the subsequences of that size. */
  lemma {:induction false} CombinationsComplete(xs: seq<string>, size: nat, part: seq<string>)
    ensures part in Combinations(xs, size) <==> |part| == size && IsSubsequence(part, xs)
  {
    if size > 0 && xs != [] {
      var with, without := Prefixed(xs[0], Combinations(xs[1..], size - 1)), Combinations(xs[1..], size);
      assert part in Combinations(xs, size) <==> part in with || part in without;
      CombinationsComplete(xs[1..], size, part);
      if part != [] {
        CombinationsComplete(xs[1..], size - 1, part[1..]);
        assert IsSubsequence(part, xs) <==>
            (part[0] == xs[0] && IsSubsequence(part[1..], xs[1..])) || IsSubsequence(part, xs[1..]);
      }
      hide Combinations, IsSubsequence;
      PrefixedMembers(xs[0], Combinations(xs[1..], size - 1), part);
    }
  }

  lemma PrefixedMembers(x: string, lists: seq<seq<string>>, part: seq<string>)
    ensures part in Prefixed(x, lists) <==> part != [] && part[0] == x && part[1..] in lists
  {
    if part != [] && part[0] == x && part[1..] in lists {
      var i :| 0 <= i < |lists| && lists[i] == part[1..];
      assert Prefixed(x, lists)[i] == [x] + part[1..] == part;
    }
    if part in Prefixed(x, lists) {
      var i :| 0 <= i < |lists| && Prefixed(x, lists)[i] == part;
      assert part[1..] == lists[i];
    }
  }

  lemma {:induction false} ProperSubsetsComplete(xs: seq<string>, from: nat, part: seq<string>)
    requires from <= |xs|
    ensures part in ProperSubsets(xs, from) <==> from <= |part| < |xs| && IsSubsequence(part, xs)
    decreases |xs| - from
  {
    hide IsSubsequence, Combinations;
    if from < |xs| {
      ProperSubsetsComplete(xs, from + 1, part);
      CombinationsComplete(xs, from, part);
    }
  }

  // ----- The urgent part -----

  /** Tuples of ids compare element by element. */
  predicate IdsLeq(a: seq<string>, b: seq<string>) {
    a == [] || (b != [] && (if a[0] == b[0] then IdsLeq(a[1..], b[1..]) else StringLeq(a[0], b[0])))
  }

  /** The key `(coverage, ids)` of `max`. */
  predicate Weaker(v: Verified, a: seq<string>, b: seq<string>) {
    TotalCoverage(v, a) < TotalCoverage(v, b) || (TotalCoverage(v, a) == TotalCoverage(v, b) && IdsLeq(a, b))
  }

  /** `max(candidates, key=...)`: the first of the greatest. */
  function Strongest(v: Verified, candidates: seq<seq<string>>): seq<string>
    requires candidates != []
  {
    if |candidates| == 1 then candidates[0]
    else
      var best := Strongest(v, candidates[..|candidates| - 1]);
      if Weaker(v, candidates[|candidates| - 1], best) then best else candidates[|candidates| - 1]
  }

  lemma {:induction false} StrongestCovers(v: Verified, candidates: seq<seq<string>>)
    requires candidates != []
    ensures Strongest(v, candidates) in candidates
    ensures forall ids :: ids in candidates ==> TotalCoverage(v, ids) <= TotalCoverage(v, Strongest(v, candidates))
  {
    if |candidates| > 1 {
      var fewer, last := candidates[..|candidates| - 1], candidates[|candidates| - 1];
      StrongestCovers(v, fewer);
      assert candidates == fewer + [last];
    }
  }

  function Immediate(v: Verified, policy: Policy): seq<string>
    requires v.chosen != []
  {
    var candidates := Filter((ids: seq<string>) => Auto(v, policy, ids), ProperSubsets(v.chosen, 1));
    if candidates == [] then [] else Strongest(v, candidates)
  }

  /**
   The urgent part, when there is one, may be auto-approved and covers at least as much as any other
   proper subset that may; there is none only when no proper subset may.
   */
  lemma ImmediateCoversMost(v: Verified, policy: Policy)
    requires v.chosen != []
    ensures var ids := Immediate(v, policy);
      && (ids != [] ==> Auto(v, policy, ids) && IsSubsequence(ids, v.chosen) && |ids| < |v.chosen|)
      && forall other :: IsSubsequence(other, v.chosen) && |other| < |v.chosen| && Auto(v, policy, other) ==>
           ids != [] && TotalCoverage(v, other) <= TotalCoverage(v, ids)
  {
    hide Auto, TotalCoverage, IsSubsequence, ProperSubsets, Filter, Strongest;
    var keep := (ids: seq<string>) => Auto(v, policy, ids);
    var all := ProperSubsets(v.chosen, 1);
    var candidates := Filter(keep, all);
    FilterMembers(keep, all);
    if candidates != [] {
      StrongestCovers(v, candidates);
      ProperSubsetsComplete(v.chosen, 1, Strongest(v, candidates));
    }
    forall other | IsSubsequence(other, v.chosen) && |other| < |v.chosen| && Auto(v, policy, other)
      ensures Immediate(v, policy) != [] && TotalCoverage(v, other) <= TotalCoverage(v, Immediate(v, policy))
    {
      ProperSubsetsComplete(v.chosen, 1, other);
      AutoNonempty(v, policy, other);
      assert keep(other);
      StrongestNonempty(v, policy, candidates);
    }
  }

  lemma AutoNonempty(v: Verified, policy: Policy, ids: seq<string>)
    requires Auto(v, policy, ids)
    ensures ids != []
  {}

  lemma StrongestNonempty(v: Verified, policy: Policy, candidates: seq<seq<string>>)
    requires candidates != [] && forall ids :: ids in candidates ==> Auto(v, policy, ids)
    ensures Strongest(v, candidates) != []
  {
    StrongestCovers(v, candidates);
  }

  // ----- Parts -----

  /** Half a duration, rounded half to even as `timedelta` divides. */
  function Half(d: int): int {
    if d % 2 == 0 then d / 2 else if (d / 2) % 2 == 0 then d / 2 else d / 2 + 1
  }

  /** When stock runs out with every other chosen action in place; None when it does not. */
  function Horizon(setting: Setting, id: string): Option<int> {
    if setting.without.Some? && setting.without.value != map[]
      && id in setting.without.value then setting.without.value[id]
    else Some(setting.stockout)
  }

  function Lead(v: Verified, id: string): int {
    if id in v.lead then v.lead[id] else 0
  }

  /** The last moment at which every action of the part is still worth approving. */
  function Deadline(v: Verified, setting: Setting, ids: seq<string>): int {
    if ids == [] then setting.now + setting.policy.approvalWindow
    else
      var rest := Deadline(v, setting, ids[..|ids| - 1]);
      var horizon := Horizon(setting, ids[|ids| - 1]);
      if horizon.Some? && horizon.value - Lead(v, ids[|ids| - 1]) < rest then horizon.value - Lead(v, ids[|ids| - 1])
        else rest
  }

  function OtherUser(people: seq<Limit>, user: string): Option<string> {
    if people == [] then None else if people[0].userId != user then Some(people[0].userId)
      else OtherUser(people[1..], user)
  }

  function IdOf(v: Verified, ids: seq<string>): PartId {
    PartId(v.planHash, Sorted(StringLeq, ids))
  }

  function AutoPart(v: Verified, setting: Setting, ids: seq<string>): Part {
    Part(IdOf(v, ids), ids, 1, TotalCost(v, ids), v.confidence(ids),
         setting.sample(IdOf(v, ids)) < setting.policy.auditShare, None, None, None, None)
  }

  function PendingPart(v: Verified, setting: Setting, ids: seq<string>): Part {
    var people := Eligible(v.finite, setting.limits, setting.plant, TotalCost(v, ids), setting.now);
    var deadline := Deadline(v, setting, ids);
    Part(IdOf(v, ids), ids, 2, TotalCost(v, ids), v.confidence(ids), false,
         if people == [] then None else Some(people[0].userId),
         if people == [] then None else OtherUser(people, people[0].userId),
         Some(deadline), Some(setting.now + Half(deadline - setting.now)))
  }

  // ----- The route -----

  function CheckIdsFor(v: Verified, id: string): set<string> {
    set check <- v.checks | check.optionId == Some(id) :: check.checkId
  }

  function PlanCheckIds(v: Verified): set<string> {
    set check <- v.checks | check.optionId.None? :: check.checkId
  }

  predicate Repeats(ids: seq<string>) {
    exists i, j :: 0 <= i < j < |ids| && ids[i] == ids[j]
  }

  /** The first reason, in the source's order, that sends the plan to people outside the tiers. */
  function Blocked(v: Verified, setting: Setting): Option<string> {
    if setting.policy.killSwitch then Some("KILL_SWITCH: advise-only")
    else if setting.policy.limitHit then Some("RUN_LIMIT")
    else if v.planHash != v.versionHash then Some("STALE_VERIFICATION")
    else if v.verifiedAt.None? || !(0 <= setting.now - v.verifiedAt.value <= MINUTE) then Some("STALE_VERIFICATION")
    else if Repeats(v.chosen) || !v.grounded then Some("INCOMPLETE_VERIFICATION")
    else if exists id <- v.chosen ::
      CheckIdsFor(v, id) != v.checkIds || id !in v.lead then Some("INCOMPLETE_VERIFICATION")
    else if !({"V-01", "V-09"} <= PlanCheckIds(v)) then Some("INCOMPLETE_VERIFICATION")
    else if exists check <- v.checks ::
      Relevant(v, check) && check.blocking && !check.passed then Some("BLOCKING_CHECK")
    else if v.confidence(v.chosen) < setting.policy.confidenceMin then Some("LOW_CONFIDENCE")
    else None
  }

  predicate ValidPolicy(v: Verified, policy: Policy) {
    && v.finite(policy.autoLimit) && v.finite(policy.confidenceMin) && policy.confidenceMin <= 1.0
    && v.finite(policy.auditShare) && policy.auditShare <= 1.0 && policy.approvalWindow > 0
  }

  function Fastest(v: Verified, ids: seq<string>): int
    requires ids != []
  {
    if |ids| == 1 then Lead(v, ids[0])
    else
      var rest := Fastest(v, ids[1..]);
      if Lead(v, ids[0]) < rest then Lead(v, ids[0]) else rest
  }

  /** Stock runs out before a person could decide and the fastest action arrive. */
  predicate Urgent(v: Verified, setting: Setting)
    requires v.chosen != []
  {
    setting.stockout - setting.now < setting.policy.approvalWindow + Fastest(v, v.chosen)
  }

  function ChosenNow(v: Verified, setting: Setting): seq<string>
    requires v.chosen != []
  {
    if Urgent(v, setting) then Immediate(v, setting.policy) else []
  }

  /** `tuple(i for i in ids if i not in taken)`. */
  function Outside(ids: seq<string>, taken: seq<string>): seq<string> {
    if ids == [] then [] else (if ids[0] in taken then [] else [ids[0]]) + Outside(ids[1..], taken)
  }

  /** The urgent part, if any, and the part that waits for a person. */
  function Parts(v: Verified, setting: Setting): seq<Part>
    requires v.chosen != []
  {
    var immediate := ChosenNow(v, setting);
    (if immediate == [] then [] else [AutoPart(v, setting, immediate)])
    + [PendingPart(v, setting, Outside(v.chosen, immediate))]
  }

  /** `route`; an error stands for an exception, also for a chosen option the plan does not have. */
  function RouteOf(v: Verified, setting: Setting): Result<Route> {
    if !ValidPolicy(v, setting.policy) then Err("invalid routing policy")
    else
      var blocked := Blocked(v, setting);
      if blocked.Some? then Ok(Route(3, v.planHash, [], blocked.value))
      else if exists id <- v.chosen :: id !in v.options then Err("unknown option")
      else if Auto(v, setting.policy, v.chosen) then Ok(Route(1, v.planHash, [AutoPart(v, setting, v.chosen)], ""))
      else if v.chosen == [] then Err("nothing chosen")
      else
        var parts := Parts(v, setting);
        if parts[|parts| - 1].approver.None? then Ok(Route(3, v.planHash, [], "NO_SUFFICIENT_APPROVER"))
        else Ok(Route(2, v.planHash, parts, ""))
  }

  // ----- What a route promises -----

  function PartOptions(parts: seq<Part>): seq<string> {
    if parts == [] then [] else parts[0].options + PartOptions(parts[1..])
  }

  function PartCosts(parts: seq<Part>): real {
    if parts == [] then 0.0 else parts[0].cost + PartCosts(parts[1..])
  }

  lemma {:induction false} SubsequenceMembers(part: seq<string>, whole: seq<string>)
    requires IsSubsequence(part, whole)
    ensures forall id :: id in part ==> id in whole
  {
    if part != [] {
      assert whole == [whole[0]] + whole[1..] && part == [part[0]] + part[1..];
      if part[0] == whole[0] && IsSubsequence(part[1..], whole[1..]) {
        SubsequenceMembers(part[1..], whole[1..]);
      } else {
        SubsequenceMembers(part, whole[1..]);
      }
    }
  }

  lemma {:induction false} OutsideAll(ids: seq<string>, taken: seq<string>)
    requires forall id :: id in ids ==> id !in taken
    ensures Outside(ids, taken) == ids
  {
    if ids != [] {
      assert ids[0] in ids;
      OutsideAll(ids[1..], taken);
    }
  }

  /** What leaving `part` out of `whole` leaves, element by element. */
  lemma OutsideStep(part: seq<string>, whole: seq<string>) returns (taken: bool)
    requires part != [] && IsSubsequence(part, whole) && !Repeats(whole)
    ensures whole != [] && !Repeats(whole[1..])
    ensures taken ==>
            part[0] == whole[0] && IsSubsequence(part[1..], whole[1..])
            && Outside(whole, part) == Outside(whole[1..], part[1..])
    ensures !taken ==> IsSubsequence(part, whole[1..]) && Outside(whole, part) == [whole[0]] + Outside(whole[1..], part)
  {
    NoRepeatsInTail(whole);
    HeadNotInTail(whole);
    taken := part[0] == whole[0] && IsSubsequence(part[1..], whole[1..]);
    if taken {
      OutsideHead(whole, part);
    } else {
      SubsequenceMembers(part, whole[1..]);
      assert whole[0] !in part;
    }
  }

  lemma OptionsCons(id: string, ids: seq<string>)
    ensures multiset([id] + ids) == multiset{id} + multiset(ids)
  {}

  lemma {:induction false} OptionsSplit(part: seq<string>, whole: seq<string>)
    requires IsSubsequence(part, whole) && !Repeats(whole)
    ensures multiset(part) + multiset(Outside(whole, part)) == multiset(whole)
    decreases |whole|
  {
    hide IsSubsequence, Outside, Repeats;
    if part == [] {
      OutsideAll(whole, part);
    } else {
      var taken := OutsideStep(part, whole);
      assert whole == [whole[0]] + whole[1..] && part == [part[0]] + part[1..];
      OptionsCons(whole[0], whole[1..]);
      if taken {
        OptionsSplit(part[1..], whole[1..]);
        OptionsCons(part[0], part[1..]);
      } else {
        OptionsSplit(part, whole[1..]);
        OptionsCons(whole[0], Outside(whole[1..], part));
      }
    }
  }

  lemma TotalCostCons(v: Verified, id: string, ids: seq<string>)
    ensures TotalCost(v, [id] + ids) == TotalCost(v, [id]) + TotalCost(v, ids)
  {
    assert ([id] + ids)[1..] == ids && [id][1..] == [];
  }

  lemma {:induction false} CostSplits(v: Verified, part: seq<string>, whole: seq<string>)
    requires IsSubsequence(part, whole) && !Repeats(whole)
    ensures TotalCost(v, part) + TotalCost(v, Outside(whole, part)) == TotalCost(v, whole)
    decreases |whole|
  {
    hide IsSubsequence, Outside, Repeats, TotalCost;
    if part == [] {
      OutsideAll(whole, part);
      NoCost(v);
    } else {
      var taken := OutsideStep(part, whole);
      assert whole == [whole[0]] + whole[1..] && part == [part[0]] + part[1..];
      TotalCostCons(v, whole[0], whole[1..]);
      if taken {
        CostSplits(v, part[1..], whole[1..]);
        TotalCostCons(v, part[0], part[1..]);
      } else {
        CostSplits(v, part, whole[1..]);
        TotalCostCons(v, whole[0], Outside(whole[1..], part));
      }
    }
  }

  lemma NoRepeatsInTail(ids: seq<string>)
    requires ids != [] && !Repeats(ids)
    ensures !Repeats(ids[1..])
  {
    forall i, j | 0 <= i < j < |ids[1..]| ensures ids[1..][i] != ids[1..][j] {
      assert ids[i + 1] != ids[j + 1];
    }
  }

  lemma HeadNotInTail(ids: seq<string>)
    requires ids != [] && !Repeats(ids)
    ensures ids[0] !in ids[1..]
  {
    forall j | 0 <= j < |ids[1..]| ensures ids[1..][j] != ids[0] {
      assert ids[0] != ids[j + 1];
    }
  }

  lemma {:induction false} OutsideIgnores(ids: seq<string>, taken: seq<string>, id: string)
    requires id !in ids
    ensures Outside(ids, [id] + taken) == Outside(ids, taken)
  {
    if ids != [] {
      OutsideIgnores(ids[1..], taken, id);
      assert ids[0] in ids && (ids[0] in [id] + taken <==> ids[0] in taken);
    }
  }

  lemma OutsideHead(whole: seq<string>, part: seq<string>)
    requires whole != [] && part != [] && part[0] == whole[0] && whole[0] !in whole[1..]
    ensures Outside(whole, part) == Outside(whole[1..], part[1..])
  {
    assert part == [part[0]] + part[1..];
    OutsideIgnores(whole[1..], part[1..], whole[0]);
    assert Outside(whole, part) == Outside(whole[1..], part);
  }

  /** The two shapes of a route that is not blocked. */
  lemma RouteShape(v: Verified, setting: Setting)
    requires RouteOf(v, setting).Ok? && RouteOf(v, setting).value.tier != 3
    ensures var route := RouteOf(v, setting).value;
      && !Repeats(v.chosen) && v.chosen != [] && route.tier in {1, 2}
      && (route.tier == 1 ==> Auto(v, setting.policy, v.chosen) && route.parts == [AutoPart(v, setting, v.chosen)])
      && (route.tier == 2 ==> route.parts == Parts(v, setting) && route.parts[|route.parts| - 1].approver.Some?)
  {
    hide TotalCost, Immediate, PendingPart, Outside, Urgent, Repeats;
  }

  /** A Tier 1 or 2 route parts the chosen options, and their cost, without loss or overlap. */
  lemma RoutePartitions(v: Verified, setting: Setting)
    requires RouteOf(v, setting).Ok? && RouteOf(v, setting).value.tier != 3
    ensures var parts := RouteOf(v, setting).value.parts;
      && multiset(PartOptions(parts)) == multiset(v.chosen) && !Repeats(v.chosen)
      && PartCosts(parts) == TotalCost(v, v.chosen)
  {
    RouteShape(v, setting);
    hide RouteOf, Auto, TotalCost, PartOptions, PartCosts, Repeats, Parts;
    if RouteOf(v, setting).value.tier == 1 {
      OnePart(AutoPart(v, setting, v.chosen));
    } else {
      PartsPartition(v, setting);
    }
  }

  lemma PartsPartition(v: Verified, setting: Setting)
    requires v.chosen != [] && !Repeats(v.chosen)
    ensures multiset(PartOptions(Parts(v, setting))) == multiset(v.chosen)
    ensures PartCosts(Parts(v, setting)) == TotalCost(v, v.chosen)
  {
    hide Auto, Immediate, IsSubsequence, TotalCost, PartOptions, PartCosts, Outside, PendingPart, Urgent, Repeats;
    var immediate := ChosenNow(v, setting);
    var rest := Outside(v.chosen, immediate);
    PendingTakes(v, setting, rest);
    ImmediateCoversMost(v, setting.policy);
    EmptyIsSubsequence(v.chosen);
    OptionsSplit(immediate, v.chosen);
    CostSplits(v, immediate, v.chosen);
    NoCost(v);
    if immediate == [] {
      OnePart(PendingPart(v, setting, rest));
      assert Parts(v, setting) == [PendingPart(v, setting, rest)];
    } else {
      assert Parts(v, setting) == [AutoPart(v, setting, immediate), PendingPart(v, setting, rest)];
      TwoParts(AutoPart(v, setting, immediate), PendingPart(v, setting, rest));
    }
  }

  lemma PendingTakes(v: Verified, setting: Setting, ids: seq<string>)
    ensures PendingPart(v, setting, ids).options == ids && PendingPart(v, setting, ids).cost == TotalCost(v, ids)
  {
    hide Eligible, Deadline, TotalCost;
  }

  lemma OnePart(part: Part)
    ensures PartOptions([part]) == part.options && PartCosts([part]) == part.cost
  {
    assert [part][1..] == [];
  }

  lemma TwoParts(a: Part, b: Part)
    ensures PartOptions([a, b]) == a.options + b.options && PartCosts([a, b]) == a.cost + b.cost
  {
    assert [a, b][1..] == [b];
    OnePart(b);
  }

  lemma NoCost(v: Verified)
    ensures TotalCost(v, []) == 0.0
  {}

  /** A blocked plan has no parts. */
  lemma RouteTier(v: Verified, setting: Setting)
    requires RouteOf(v, setting).Ok?
    ensures RouteOf(v, setting).value.tier == 3 ==> RouteOf(v, setting).value.parts == []
  {
    hide Auto, Immediate, PendingPart, Outside, Urgent, Repeats, Blocked;
  }

  lemma UrgentPartsAuto(v: Verified, setting: Setting)
    requires v.chosen != []
    ensures var parts := Parts(v, setting);
      forall k :: 0 <= k < |parts| && parts[k].tier == 1 ==>
        k == 0 && Auto(v, setting.policy, parts[k].options) && parts[k].cost == TotalCost(v, parts[k].options)
  {
    hide Auto, Immediate, TotalCost, Eligible, Deadline, Outside, Urgent, IsSubsequence;
    ImmediateCoversMost(v, setting.policy);
  }

  lemma AutoWithinLimit(v: Verified, policy: Policy, ids: seq<string>)
    ensures Auto(v, policy, ids) ==> TotalCost(v, ids) <= policy.autoLimit
  {}

  /** All that is approved without a person costs at most the limit, is reversible and passed every check. */
  lemma AutoApprovedWithinLimit(v: Verified, setting: Setting, k: nat)
    requires RouteOf(v, setting).Ok? && k < |RouteOf(v, setting).value.parts|
            && RouteOf(v, setting).value.parts[k].tier == 1
    ensures var parts := RouteOf(v, setting).value.parts;
      && k == 0
      && Auto(v, setting.policy, parts[0].options)
         && parts[0].cost == TotalCost(v, parts[0].options) <= setting.policy.autoLimit
      && (forall j :: 0 <= j < |parts| && parts[j].tier == 1 ==> j == 0)
  {
    RouteTier(v, setting);
    RouteShape(v, setting);
    hide RouteOf, Auto, TotalCost, Parts, Repeats;
    if RouteOf(v, setting).value.tier == 2 {
      UrgentPartsAuto(v, setting);
    }
    AutoWithinLimit(v, setting.policy, RouteOf(v, setting).value.parts[0].options);
  }

  /** Urgency alone splits a plan, and then the urgent part covers the most it can without a person. */
  lemma UrgentPartCoversMost(v: Verified, setting: Setting, other: seq<string>)
    requires RouteOf(v, setting).Ok? && RouteOf(v, setting).value.tier == 2
    requires v.chosen != [] && IsSubsequence(other, v.chosen) && |other| < |v.chosen| && Auto(v, setting.policy, other)
    ensures var parts := RouteOf(v, setting).value.parts;
      && (|parts| == 2 <==> Urgent(v, setting))
      && (Urgent(v, setting) ==> parts[0].tier == 1 && TotalCoverage(v, other) <= TotalCoverage(v, parts[0].options))
  {
    RouteShape(v, setting);
    hide RouteOf, Auto, Immediate, Eligible, Deadline, IsSubsequence, TotalCoverage, Urgent, TotalCost, Outside,
         Repeats;
    ImmediateCoversMost(v, setting.policy);
  }

  lemma {:induction false} DeadlineInTime(v: Verified, setting: Setting, ids: seq<string>)
    ensures Deadline(v, setting, ids) <= setting.now + setting.policy.approvalWindow
    ensures forall id :: id in ids && Horizon(setting, id).Some? ==>
              Deadline(v, setting, ids) <= Horizon(setting, id).value - Lead(v, id)
    ensures Deadline(v, setting, ids) == setting.now + setting.policy.approvalWindow
         || exists id ::
            id in ids && Horizon(setting, id).Some?
            && Deadline(v, setting, ids) == Horizon(setting, id).value - Lead(v, id)
  {
    hide Horizon, Lead;
    if ids != [] {
      var fewer, last := ids[..|ids| - 1], ids[|ids| - 1];
      DeadlineInTime(v, setting, fewer);
      assert ids == fewer + [last];
      assert last in ids;
    }
  }

  lemma {:induction false} OtherUserNext(people: seq<Limit>, user: string)
    ensures match OtherUser(people, user)
      case Some(other) => other != user && exists i ::
        0 <= i < |people| && people[i].userId == other && forall j :: 0 <= j < i ==> people[j].userId == user
      case None => forall p :: p in people ==> p.userId == user
  {
    if people != [] {
      OtherUserNext(people[1..], user);
      if people[0].userId == user && OtherUser(people, user).Some? {
        var i :| 0 <= i < |people[1..]| && people[1..][i].userId == OtherUser(people, user).value
          && forall j :: 0 <= j < i ==> people[1..][j].userId == user;
        forall j | 0 <= j < i + 1 ensures people[j].userId == user {
          if j > 0 {
            assert people[1..][j - 1].userId == user;
          }
        }
        assert people[i + 1].userId == OtherUser(people, user).value;
      }
    }
  }

  predicate OtherApprover(v: Verified, setting: Setting, cost: real, user: string, limit: Limit) {
    limit in setting.limits && limit.userId != user && Sufficient(v.finite, limit, setting.plant, cost, setting.now)
  }

  /**
   The part that waits for a person goes to the least sufficient approver for its whole cost, with a
   different person as backup when there is one, and with the latest deadline at which the window is
   open and every action can still arrive in time.
   */
  lemma PendingApprover(v: Verified, setting: Setting)
    requires RouteOf(v, setting).Ok? && RouteOf(v, setting).value.tier == 2
    ensures var parts := RouteOf(v, setting).value.parts;
      && parts != []
      && var part := parts[|parts| - 1];
         && part.tier == 2 && part.approver.Some? && part.deadline.Some?
         && (exists limit :: limit in setting.limits && limit.userId == part.approver.value
               && Sufficient(v.finite, limit, setting.plant, part.cost, setting.now)
               && forall other ::
                  other in setting.limits && Sufficient(v.finite, other, setting.plant, part.cost, setting.now) ==>
                    ByLimit(limit, other))
         && (part.backup.Some? <==> exists other :: OtherApprover(v, setting, part.cost, part.approver.value, other))
         && part.deadline.value <= setting.now + setting.policy.approvalWindow
         && (forall id :: id in part.options && Horizon(setting, id).Some? ==>
            part.deadline.value <= Horizon(setting, id).value - Lead(v, id))
  {
    RouteShape(v, setting);
    hide RouteOf, Auto, Immediate, Eligible, Deadline, IsSubsequence, TotalCost, Horizon, Lead, Sufficient, ByLimit,
         Urgent, Outside, Repeats, OtherUser, OtherApprover;
    var ids := Outside(v.chosen, ChosenNow(v, setting));
    var part := PendingPart(v, setting, ids);
    assert RouteOf(v, setting).value.parts[|RouteOf(v, setting).value.parts| - 1] == part;
    DeadlineInTime(v, setting, ids);
    LeastSufficient(v, setting, part.cost);
  }

  lemma LeastSufficient(v: Verified, setting: Setting, cost: real)
    ensures var people := Eligible(v.finite, setting.limits, setting.plant, cost, setting.now);
      people != [] ==>
        && (exists limit :: limit in setting.limits && limit.userId == people[0].userId
              && Sufficient(v.finite, limit, setting.plant, cost, setting.now)
              && forall other ::
                   other in setting.limits && Sufficient(v.finite, other, setting.plant, cost, setting.now) ==>
                     ByLimit(limit, other))
        && (OtherUser(people, people[0].userId).Some?
            <==> exists other :: OtherApprover(v, setting, cost, people[0].userId, other))
  {
    hide Eligible, Sufficient;
    var people := Eligible(v.finite, setting.limits, setting.plant, cost, setting.now);
    EligibleSmallestFirst(v.finite, setting.limits, setting.plant, cost, setting.now);
    if people != [] {
      assert people[0] in people;
      forall other | other in setting.limits && Sufficient(v.finite, other, setting.plant, cost, setting.now)
        ensures ByLimit(people[0], other) {
        assert other in people;
        var k :| 0 <= k < |people| && people[k] == other;
        if k == 0 {
          StringLeqTotal(other.userId, other.userId);
        } else {
          assert ByLimit(people[0], people[k]);
        }
      }
      OtherUserNext(people, people[0].userId);
      if OtherUser(people, people[0].userId).Some? {
        var i :| 0 <= i < |people| && people[i].userId == OtherUser(people, people[0].userId).value;
        assert people[i] in people;
        assert OtherApprover(v, setting, cost, people[0].userId, people[i]);
      }
    }
  }
}
