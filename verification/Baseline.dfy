/**
 What a portfolio solve saves over each case solved on its own, first proposed first served:
 `Inputs.event`, `_alone` and the saving of services/optimizer/runtime.py.
 */
module PortfolioBaseline {
  import opened Basics
  import opened PortfolioSolver

  datatype Inputs = Inputs(needs: seq<Need>, candidates: seq<Candidate>, capacities: seq<Capacity>)

  // ----- The rows of one case, or of all needy cases -----

  predicate Needy(inputs: Inputs, caseId: string) {
    exists n <- inputs.needs :: n.caseId == caseId
  }

  predicate Kept(inputs: Inputs, only: Option<string>, caseId: string) {
    (only.None? || caseId == only.value) && Needy(inputs, caseId)
  }

  function KeptNeeds(inputs: Inputs, only: Option<string>, needs: seq<Need>): seq<Need>
    decreases |needs|
  {
    if needs == [] then []
    else (if Kept(inputs, only, needs[0].caseId) then [needs[0]] else []) + KeptNeeds(inputs, only, needs[1..])
  }

  function KeptCandidates(inputs: Inputs, only: Option<string>, candidates: seq<Candidate>): seq<Candidate>
    decreases |candidates|
  {
    if candidates == [] then []
    else
      (if Kept(inputs, only, candidates[0].caseId) then [candidates[0]] else [])
      + KeptCandidates(inputs, only, candidates[1..])
  }

  /** `Inputs.event`. */
  function Event(inputs: Inputs, only: Option<string>, capacities: seq<Capacity>): Problem {
    Problem(KeptNeeds(inputs, only, inputs.needs), KeptCandidates(inputs, only, inputs.candidates), capacities)
  }

  function Joint(inputs: Inputs): Problem {
    Event(inputs, None, inputs.capacities)
  }

  function NeedsOf(needs: seq<Need>, c: string): seq<Need> {
    if needs == [] then [] else (if needs[0].caseId == c then [needs[0]] else []) + NeedsOf(needs[1..], c)
  }

  function CandidatesOf(candidates: seq<Candidate>, c: string): seq<Candidate> {
    if candidates == [] then [] else
      (if candidates[0].caseId == c then [candidates[0]] else []) + CandidatesOf(candidates[1..], c)
  }

  lemma {:induction false} KeptNeedsOf(inputs: Inputs, needs: seq<Need>, c: string)
    ensures KeptNeeds(inputs, Some(c), needs)
         == if Needy(inputs, c) then NeedsOf(KeptNeeds(inputs, None, needs), c) else []
  {
    if needs != [] {
      KeptNeedsOf(inputs, needs[1..], c);
      var rest := KeptNeeds(inputs, None, needs[1..]);
      assert ([needs[0]] + rest)[1..] == rest;
      assert KeptNeeds(inputs, None, needs) == if Needy(inputs, needs[0].caseId) then [needs[0]] + rest else rest;
    }
  }

  lemma {:induction false} KeptCandidatesOf(inputs: Inputs, candidates: seq<Candidate>, c: string)
    ensures KeptCandidates(inputs, Some(c), candidates)
         == if Needy(inputs, c) then CandidatesOf(KeptCandidates(inputs, None, candidates), c) else []
  {
    if candidates != [] {
      KeptCandidatesOf(inputs, candidates[1..], c);
      var rest := KeptCandidates(inputs, None, candidates[1..]);
      assert ([candidates[0]] + rest)[1..] == rest;
      assert KeptCandidates(inputs, None, candidates) == if Needy(inputs, candidates[0].caseId)
          then [candidates[0]] + rest else rest;
    }
  }

  lemma {:induction false} KeptMembers(inputs: Inputs, only: Option<string>, needs: seq<Need>,
                                       candidates: seq<Candidate>)
    ensures forall n :: n in KeptNeeds(inputs, only, needs) ==> n in needs && Kept(inputs, only, n.caseId)
    ensures forall a :: a in KeptCandidates(inputs, only, candidates) ==>
            a in candidates && Kept(inputs, only, a.caseId)
    decreases |needs| + |candidates|
  {
    if needs != [] {
      KeptMembers(inputs, only, needs[1..], candidates);
    } else if candidates != [] {
      KeptMembers(inputs, only, needs, candidates[1..]);
    }
  }

  lemma {:induction false} KeptNeedsCount(inputs: Inputs, only: Option<string>, needs: seq<Need>, n: Need)
    ensures multiset(KeptNeeds(inputs, only, needs))[n]
         == if Kept(inputs, only, n.caseId) then multiset(needs)[n] else 0
    decreases |needs|
  {
    hide Kept;
    if needs != [] {
      KeptNeedsCount(inputs, only, needs[1..], n);
      assert needs == [needs[0]] + needs[1..];
    }
  }

  lemma {:induction false} KeptCandidatesCount(inputs: Inputs, only: Option<string>, candidates: seq<Candidate>,
                                               a: Candidate)
    ensures multiset(KeptCandidates(inputs, only, candidates))[a]
         == if Kept(inputs, only, a.caseId) then multiset(candidates)[a] else 0
    decreases |candidates|
  {
    hide Kept;
    if candidates != [] {
      KeptCandidatesCount(inputs, only, candidates[1..], a);
      assert candidates == [candidates[0]] + candidates[1..];
    }
  }

  /**
   The joint problem, and that of one case, has each need and each candidate of the cases it is about as often as
   the inputs do, where the case has a need at all, and no other; the capacities are those given.
   */
  lemma EventKeepsExactly(inputs: Inputs, only: Option<string>, left: seq<Capacity>, n: Need, a: Candidate)
    ensures var event := Event(inputs, only, left);
      && multiset(event.needs)[n] == (if only in {None, Some(n.caseId)} then multiset(inputs.needs)[n] else 0)
      && multiset(event.candidates)[a]
         == (if only in {None, Some(a.caseId)} && exists m :: m in inputs.needs && m.caseId == a.caseId
             then multiset(inputs.candidates)[a] else 0)
      && event.capacities == left
    ensures Event(inputs, None, left).needs == inputs.needs
    ensures Joint(inputs) == Event(inputs, None, inputs.capacities)
  {
    KeptNeedsCount(inputs, only, inputs.needs, n);
    KeptCandidatesCount(inputs, only, inputs.candidates, a);
    AllNeedsKept(inputs, inputs.needs);
    if n !in inputs.needs {
      assert multiset(inputs.needs)[n] == 0;
    }
  }

  lemma {:induction false} AllNeedsKept(inputs: Inputs, needs: seq<Need>)
    requires forall n :: n in needs ==> Needy(inputs, n.caseId)
    ensures KeptNeeds(inputs, None, needs) == needs
    decreases |needs|
  {
    if needs != [] {
      AllNeedsKept(inputs, needs[1..]);
      assert needs == [needs[0]] + needs[1..];
    }
  }

  // ----- One point out of the points of several cases -----

  /** The solutions of the cases in `done` side by side; every other case does nothing. */
  function Combined(done: map<string, Point>): Point {
    Point(
      (a: Candidate) => a.caseId in done && done[a.caseId].chosen(a),
      (a: Candidate) => if a.caseId in done then done[a.caseId].quantity(a) else 0,
      (a: Candidate, n: Need) => if a.caseId in done then done[a.caseId].covered(a, n) else 0,
      (n: Need) => if n.caseId in done then done[n.caseId].uncovered(n) else n.quantity)
  }

  /** The lost revenue of the cases in `done`. */
  function LossIn(needs: seq<Need>, done: map<string, Point>): int {
    if needs == [] then 0
    else
      (if needs[0].caseId in done then LossOf(needs[0], done[needs[0].caseId].uncovered(needs[0])) else 0)
      + LossIn(needs[1..], done)
  }

  lemma {:induction false} UsedAdds(candidates: seq<Candidate>, done: map<string, Point>, c: string, p: Point,
                                    resource: string)
    requires c !in done
    ensures Used(candidates, Combined(done[c := p]), resource)
         == Used(candidates, Combined(done), resource) + Used(CandidatesOf(candidates, c), p, resource)
  {
    if candidates != [] {
      UsedAdds(candidates[1..], done, c, p, resource);
      var rest := CandidatesOf(candidates[1..], c);
      assert ([candidates[0]] + rest)[1..] == rest;
      assert candidates[0].caseId != c ==> CandidatesOf(candidates, c) == rest;
    }
  }

  lemma {:induction false} CostAdds(candidates: seq<Candidate>, done: map<string, Point>, c: string, p: Point)
    requires c !in done
    ensures Cost(candidates, Combined(done[c := p])) == Cost(candidates, Combined(done))
            + Cost(CandidatesOf(candidates, c), p)
  {
    if candidates != [] {
      CostAdds(candidates[1..], done, c, p);
      var rest := CandidatesOf(candidates[1..], c);
      assert ([candidates[0]] + rest)[1..] == rest;
      assert candidates[0].caseId != c ==> CandidatesOf(candidates, c) == rest;
    }
  }

  lemma {:induction false} LossAdds(needs: seq<Need>, done: map<string, Point>, c: string, p: Point)
    requires c !in done
    ensures LossIn(needs, done[c := p]) == LossIn(needs, done) + Loss(NeedsOf(needs, c), p)
  {
    if needs != [] {
      LossAdds(needs[1..], done, c, p);
      var rest := NeedsOf(needs[1..], c);
      assert ([needs[0]] + rest)[1..] == rest;
      assert needs[0].caseId != c ==> NeedsOf(needs, c) == rest;
    }
  }

  lemma {:induction false} NothingYet(needs: seq<Need>, candidates: seq<Candidate>, resource: string)
    ensures LossIn(needs, map[]) == 0
    ensures Used(candidates, Combined(map[]), resource) == 0 && Cost(candidates, Combined(map[])) == 0
    decreases |needs| + |candidates|
  {
    if needs != [] {
      NothingYet(needs[1..], candidates, resource);
    } else if candidates != [] {
      NothingYet(needs, candidates[1..], resource);
    }
  }

  lemma {:induction false} AllLossIn(needs: seq<Need>, done: map<string, Point>)
    requires forall n :: n in needs ==> n.caseId in done
    ensures LossIn(needs, done) == Loss(needs, Combined(done))
  {
    if needs != [] {
      assert needs[0] in needs;
      AllLossIn(needs[1..], done);
    }
  }

  /** A case's own point satisfies every constraint that concerns this case alone. */
  ghost predicate CaseFits(joint: Problem, c: string, p: Point) {
    && (forall a :: a in CandidatesOf(joint.candidates, c) ==>
       Sized(a, p) && CoversWithin(a, NeedsOf(joint.needs, c), p))
    && (forall n :: n in NeedsOf(joint.needs, c) ==> Balanced(n, CandidatesOf(joint.candidates, c), p))
    && (forall group :: ChosenIn(CandidatesOf(joint.candidates, c), p, group) <= 1)
  }

  /** No exclusive group spans two cases. */
  ghost predicate GroupsWithinCases(candidates: seq<Candidate>) {
    forall a, b :: a in candidates && b in candidates && a.group.Some? && a.group == b.group ==> a.caseId == b.caseId
  }

  lemma {:induction false} OfCaseMembers(needs: seq<Need>, candidates: seq<Candidate>, c: string)
    ensures forall n :: n in NeedsOf(needs, c) <==> n in needs && n.caseId == c
    ensures forall a :: a in CandidatesOf(candidates, c) <==> a in candidates && a.caseId == c
    decreases |needs| + |candidates|
  {
    if needs != [] {
      OfCaseMembers(needs[1..], candidates, c);
    } else if candidates != [] {
      OfCaseMembers(needs, candidates[1..], c);
    }
  }

  lemma {:induction false} CoverOfCase(a: Candidate, needs: seq<Need>, done: map<string, Point>)
    requires a.caseId in done
    ensures CoverOf(a, needs, Combined(done)) == CoverOf(a, NeedsOf(needs, a.caseId), done[a.caseId])
  {
    if needs != [] {
      CoverOfCase(a, needs[1..], done);
      var rest := NeedsOf(needs[1..], a.caseId);
      assert ([needs[0]] + rest)[1..] == rest;
      assert needs[0].caseId != a.caseId ==> NeedsOf(needs, a.caseId) == rest;
    }
  }

  lemma {:induction false} CoveredInCase(n: Need, candidates: seq<Candidate>, done: map<string, Point>)
    requires n.caseId in done
    ensures CoveredNeed(n, candidates, Combined(done))
            == CoveredNeed(n, CandidatesOf(candidates, n.caseId), done[n.caseId])
  {
    if candidates != [] {
      CoveredInCase(n, candidates[1..], done);
      var rest := CandidatesOf(candidates[1..], n.caseId);
      assert ([candidates[0]] + rest)[1..] == rest;
      assert candidates[0].caseId != n.caseId ==> CandidatesOf(candidates, n.caseId) == rest;
    }
  }

  lemma {:induction false} GroupInCase(candidates: seq<Candidate>, done: map<string, Point>, group: string, c: string)
    requires forall a :: a in candidates && a.group == Some(group) ==> a.caseId == c
    ensures ChosenIn(candidates, Combined(done), group)
         == if c in done then ChosenIn(CandidatesOf(candidates, c), done[c], group) else 0
  {
    if candidates != [] {
      assert candidates[0] in candidates;
      GroupInCase(candidates[1..], done, group, c);
      var rest := CandidatesOf(candidates[1..], c);
      assert ([candidates[0]] + rest)[1..] == rest;
      assert candidates[0].caseId != c ==> CandidatesOf(candidates, c) == rest;
    }
  }

  lemma GroupFits(joint: Problem, done: map<string, Point>, group: string)
    requires GroupsWithinCases(joint.candidates) && forall c :: c in done ==> CaseFits(joint, c, done[c])
    ensures ChosenIn(joint.candidates, Combined(done), group) <= 1
  {
    hide Combined, ChosenIn, CandidatesOf;
    if a :| a in joint.candidates && a.group == Some(group) {
      GroupInCase(joint.candidates, done, group, a.caseId);
    } else {
      GroupInCase(joint.candidates, map[], group, "");
      GroupInCase(joint.candidates, done, group, "");
    }
  }

  /** Points of all cases that together fit the capacities make a point of the joint problem. */
  lemma CombinedFeasible(joint: Problem, done: map<string, Point>)
    requires GroupsWithinCases(joint.candidates) && forall a :: a in joint.candidates ==> a.caseId in done
    requires forall n :: n in joint.needs ==> n.caseId in done
    requires forall c :: c in done ==> CaseFits(joint, c, done[c])
    requires forall k :: k in joint.capacities ==> Used(joint.candidates, Combined(done), k.resource) <= k.quantity
    ensures Feasible(joint, Combined(done))
  {
    var p := Combined(done);
    hide Used, ChosenIn;
    forall a | a in joint.candidates ensures Sized(a, p) && CoversWithin(a, joint.needs, p) {
      CandidateFits(joint, done, a);
    }
    forall group ensures ChosenIn(joint.candidates, p, group) <= 1 {
      GroupFits(joint, done, group);
    }
    forall n | n in joint.needs ensures Balanced(n, joint.candidates, p) {
      OfCaseMembers(joint.needs, joint.candidates, n.caseId);
      assert CaseFits(joint, n.caseId, done[n.caseId]);
      CoveredInCase(n, joint.candidates, done);
    }
  }

  lemma CandidateFits(joint: Problem, done: map<string, Point>, a: Candidate)
    requires a in joint.candidates && a.caseId in done && CaseFits(joint, a.caseId, done[a.caseId])
    ensures Sized(a, Combined(done)) && CoversWithin(a, joint.needs, Combined(done))
  {
    var p, q := Combined(done), done[a.caseId];
    OfCaseMembers(joint.needs, joint.candidates, a.caseId);
    CoverOfCase(a, joint.needs, done);
    assert Sized(a, q) && CoversWithin(a, NeedsOf(joint.needs, a.caseId), q);
    forall n | n in joint.needs && Eligible(a, n)
      ensures 0 <= p.covered(a, n) <= a.maxQuantity && p.covered(a, n) <= n.quantity
    {
      assert n in NeedsOf(joint.needs, a.caseId);
    }
  }

  // ----- Taking allocations out of what is left -----

  /** What the allocations of one case leave of each capacity. */
  ghost predicate Reduced(left: seq<Capacity>, after: seq<Capacity>, allocations: seq<Allocation>,
                          candidates: seq<Candidate>) {
    && |after| == |left|
    && forall i :: 0 <= i < |left| ==>
         after[i] == left[i].(quantity := left[i].quantity - UsedBy(allocations, candidates, left[i].resource))
  }

  function Less(left: seq<Capacity>, resource: string, quantity: int): seq<Capacity> {
    seq(|left|, i requires 0 <= i < |left| =>
      if left[i].resource == resource then left[i].(quantity := left[i].quantity - quantity) else left[i])
  }

  method TakeOne(left: seq<Capacity>, resources: seq<string>, quantity: int) returns (after: seq<Capacity>)
    requires forall i, j :: 0 <= i < j < |resources| ==> resources[i] != resources[j]
    ensures |after| == |left|
    ensures forall i :: 0 <= i < |left| ==>
      after[i] == left[i].(quantity := left[i].quantity - (if left[i].resource in resources then quantity else 0))
  {
    after := left;
    var k := 0;
    while k < |resources|
      invariant 0 <= k <= |resources| && |after| == |left|
      invariant forall i :: 0 <= i < |left| ==>
        after[i] == left[i].(quantity :=
          left[i].quantity - (if left[i].resource in resources[..k] then quantity else 0))
    {
      assert resources[..k + 1] == resources[..k] + [resources[k]];
      assert resources[k] !in resources[..k];
      after := Less(after, resources[k], quantity);
      k := k + 1;
    }
    assert resources[..k] == resources;
  }

  lemma {:induction false} UsedByAppend(a: seq<Allocation>, b: Allocation, candidates: seq<Candidate>, resource: string)
    ensures UsedBy(a + [b], candidates, resource) == UsedBy(a, candidates, resource) + UsedBy([b], candidates, resource)
  {
    if a != [] {
      assert (a + [b])[1..] == a[1..] + [b];
      UsedByAppend(a[1..], b, candidates, resource);
    } else {
      assert a + [b] == [b];
    }
  }

  method TakeAll(left: seq<Capacity>, allocations: seq<Allocation>,
                 candidates: seq<Candidate>) returns (after: seq<Capacity>)
    requires forall a :: a in candidates ==> forall i, j :: 0 <= i < j < |a.resources| ==>
            a.resources[i] != a.resources[j]
    ensures Reduced(left, after, allocations, candidates)
  {
    hide UsedBy;
    after := left;
    var k := 0;
    NothingTaken(left, candidates);
    while k < |allocations|
      invariant 0 <= k <= |allocations| && Reduced(left, after, allocations[..k], candidates)
    {
      var offer := Offered(candidates, allocations[k].candidateId);
      ghost var was := after;
      if offer.Some? {
        OfferedIn(candidates, allocations[k].candidateId);
        after := TakeOne(after, offer.value.resources, allocations[k].quantity);
      }
      assert allocations[..k + 1] == allocations[..k] + [allocations[k]];
      ReducedMore(left, was, after, allocations[..k], allocations[k], candidates);
      k := k + 1;
    }
    assert allocations[..k] == allocations;
  }

  lemma NothingTaken(left: seq<Capacity>, candidates: seq<Candidate>)
    ensures Reduced(left, left, [], candidates)
  {}

  lemma {:induction false} OfferedIn(candidates: seq<Candidate>, id: string)
    ensures Offered(candidates, id).Some? ==> Offered(candidates, id).value in candidates
  {
    if candidates != [] && candidates[|candidates| - 1].id != id {
      OfferedIn(candidates[..|candidates| - 1], id);
    }
  }

  lemma ReducedMore(left: seq<Capacity>, was: seq<Capacity>, after: seq<Capacity>, before: seq<Allocation>,
                    next: Allocation,
                    candidates: seq<Candidate>)
    requires Reduced(left, was, before, candidates) && |after| == |was|
    requires var offer := Offered(candidates, next.candidateId);
      forall i :: 0 <= i < |was| ==>
        after[i] == was[i].(quantity := was[i].quantity
                            - (if offer.Some? && was[i].resource in offer.value.resources then next.quantity else 0))
    ensures Reduced(left, after, before + [next], candidates)
  {
    forall i | 0 <= i < |left|
      ensures after[i] == left[i].(quantity := left[i].quantity - UsedBy(before + [next], candidates, left[i].resource))
    {
      UsedByAppend(before, next, candidates, left[i].resource);
      assert UsedBy([next][1..], candidates, left[i].resource) == 0;
    }
  }

  // ----- The baseline -----

  /** What a run of `_alone` has done so far: `done` cases solved, their cost, and what they left. */
  ghost predicate Progress(joint: Problem, done: map<string, Point>, left: seq<Capacity>, total: int) {
    && (forall c :: c in done ==> CaseFits(joint, c, done[c]))
    && total == Cost(joint.candidates, Combined(done)) + LossIn(joint.needs, done)
    && |left| == |joint.capacities|
    && (forall i :: 0 <= i < |left| ==>
          && left[i].resource == joint.capacities[i].resource
          && left[i].quantity == joint.capacities[i].quantity - Used(joint.candidates, Combined(done), left[i].resource)
          && left[i].quantity >= 0)
  }

  ghost predicate WellFormed(inputs: Inputs) {
    && UniqueCandidates(inputs.candidates) && UniqueNeeds(inputs.needs) && GroupsWithinCases(inputs.candidates)
    && (forall n :: n in inputs.needs ==> n.quantity >= 0)
    && (forall c :: c in inputs.capacities ==> c.quantity >= 0)
    && (forall a :: a in inputs.candidates ==>
          && a.maxQuantity >= 0
          && (forall i, j :: 0 <= i < j < |a.resources| ==> a.resources[i] != a.resources[j]))
  }

  lemma NoProgressYet(inputs: Inputs)
    requires WellFormed(inputs)
    ensures Progress(Joint(inputs), map[], inputs.capacities, 0)
  {
    var joint := Joint(inputs);
    hide Used, Cost, LossIn;
    NothingYet(joint.needs, joint.candidates, "");
    forall i | 0 <= i < |inputs.capacities|
      ensures Used(joint.candidates, Combined(map[]), inputs.capacities[i].resource) == 0 {
      NothingYet(joint.needs, joint.candidates, inputs.capacities[i].resource);
    }
  }

  /** The allocations a case's answer reports use what its point uses. */
  lemma AnswerUses(event: Problem, p: Point, resource: string)
    requires UniqueCandidates(event.candidates) && Feasible(event, p)
    ensures UsedBy(Allocations(event.candidates, event.needs, p), event.candidates, resource)
            == Used(event.candidates, p, resource)
  {
    hide Used, UsedBy, Sized;
    forall a | a in event.candidates ensures Sized(a, p) && Offered(event.candidates, a.id) == Some(a) {
      OfferedSelf(event.candidates, a);
    }
    AllocationsUse(event.candidates, event.candidates, event.needs, p, resource);
  }

  /** Solving one more case on what is left. */
  lemma ProgressCase(joint: Problem, done: map<string, Point>, left: seq<Capacity>, total: int, c: string, p: Point,
                     after: seq<Capacity>, event: Problem)
    requires Progress(joint, done, left, total) && c !in done
    requires event == Problem(NeedsOf(joint.needs, c), CandidatesOf(joint.candidates, c), left)
    requires UniqueCandidates(event.candidates) && Feasible(event, p)
    requires Reduced(left, after, Allocations(event.candidates, event.needs, p), event.candidates)
    ensures Progress(joint, done[c := p], after, total + Objective(event, p))
  {
    hide Used, UsedBy, Cost, Loss, LossIn, Sized, CoversWithin, Balanced, ChosenIn, Combined, NeedsOf, CandidatesOf;
    var more := done[c := p];
    CostAdds(joint.candidates, done, c, p);
    LossAdds(joint.needs, done, c, p);
    assert CaseFits(joint, c, p);
    forall d | d in more ensures CaseFits(joint, d, more[d]) {}
    forall i | 0 <= i < |after|
      ensures after[i].resource == joint.capacities[i].resource && after[i].quantity >= 0
      ensures after[i].quantity
              == joint.capacities[i].quantity - Used(joint.candidates, Combined(more), after[i].resource)
    {
      AnswerUses(event, p, left[i].resource);
      UsedAdds(joint.candidates, done, c, p, left[i].resource);
      assert left[i] in event.capacities;
    }
  }

  lemma {:induction false} FullLoss(needs: seq<Need>)
    ensures Loss(needs, NOTHING) == LossAfterNothing(needs)
  {
    if needs != [] {
      FullLoss(needs[1..]);
    }
  }

  /** `sum(quantity * lostRevenueCentsPerUnit)`. */
  function LossAfterNothing(needs: seq<Need>): int {
    if needs == [] then 0 else LossOf(needs[0], needs[0].quantity) + LossAfterNothing(needs[1..])
  }

  lemma EventOfCase(inputs: Inputs, c: string, left: seq<Capacity>)
    ensures var joint := Joint(inputs);
      Event(inputs, Some(c), left)
      == if Needy(inputs, c) then Problem(NeedsOf(joint.needs, c), CandidatesOf(joint.candidates, c), left)
        else Problem([], [], left)
  {
    KeptNeedsOf(inputs, inputs.needs, c);
    KeptCandidatesOf(inputs, inputs.candidates, c);
  }

  lemma {:induction false} KeptUnique(inputs: Inputs, only: Option<string>, candidates: seq<Candidate>)
    requires UniqueCandidates(candidates)
    ensures UniqueCandidates(KeptCandidates(inputs, only, candidates))
    decreases |candidates|
  {
    if candidates != [] {
      forall i, j | 0 <= i < j < |candidates[1..]| ensures candidates[1..][i].id != candidates[1..][j].id {
        assert candidates[i + 1].id != candidates[j + 1].id;
      }
      KeptUnique(inputs, only, candidates[1..]);
      var rest := KeptCandidates(inputs, only, candidates[1..]);
      KeptMembers(inputs, only, [], candidates[1..]);
      forall j | 0 <= j < |rest| ensures candidates[0].id != rest[j].id {
        assert rest[j] in rest;
        var k :| 0 <= k < |candidates[1..]| && candidates[1..][k] == rest[j];
        assert candidates[0].id != candidates[k + 1].id;
      }
    }
  }

  /** A case with needs and no candidate loses all its revenue: the empty plan's point. */
  lemma CaseWithoutCandidates(joint: Problem, c: string, left: seq<Capacity>)
    requires CandidatesOf(joint.candidates, c) == []
    requires forall n :: n in joint.needs ==> n.quantity >= 0
    requires forall i :: 0 <= i < |left| ==> left[i].quantity >= 0
    ensures var event := Problem(NeedsOf(joint.needs, c), [], left);
      && Feasible(event, NOTHING) && Objective(event, NOTHING) == LossAfterNothing(event.needs)
      && UniqueCandidates(event.candidates)
         && Reduced(left, left, Allocations(event.candidates, event.needs, NOTHING), [])
  {
    var event := Problem(NeedsOf(joint.needs, c), [], left);
    OfCaseMembers(joint.needs, joint.candidates, c);
    NothingFeasible(event);
    FullLoss(event.needs);
  }

  lemma NoNeeds(inputs: Inputs, c: string)
    requires Needy(inputs, c)
    ensures NeedsOf(Joint(inputs).needs, c) != []
  {
    var n :| n in inputs.needs && n.caseId == c;
    KeptAll(inputs, inputs.needs, n);
    OfCaseMembers(Joint(inputs).needs, [], c);
  }

  lemma {:induction false} KeptAll(inputs: Inputs, needs: seq<Need>, n: Need)
    requires n in needs && Needy(inputs, n.caseId)
    ensures n in KeptNeeds(inputs, None, needs)
    decreases |needs|
  {
    if needs[0] != n {
      KeptAll(inputs, needs[1..], n);
    }
  }

  ghost predicate Once(order: seq<string>) {
    forall i, j :: 0 <= i < j < |order| ==> order[i] != order[j]
  }

  /**
   `_alone`: solve the cases one after another on what the ones before left. When every solve found an
   answer, the total is the cost of a feasible point of the joint problem, whatever the order.
   */
  method Alone(inputs: Inputs, order: seq<string>, solver: Problem -> Answer) returns (total: Option<int>)
    requires WellFormed(inputs) && Once(order)
    requires forall problem :: Honest(problem, solver(problem))
    requires forall n :: n in inputs.needs ==> n.caseId in order
    ensures total.Some? ==> exists q :: Feasible(Joint(inputs), q) && Objective(Joint(inputs), q) == total.value
    ensures total.None? ==> exists c, left :: c in order && solver(Event(inputs, Some(c), left)).objective.None?
  {
    hide Feasible, Objective, Honest, Behind, UniqueCandidates, Progress, Reduced, WellFormed, Needy, Joint, Event,
         LossAfterNothing;
    var left, sum := inputs.capacities, 0;
    ghost var done: map<string, Point> := map[];
    NoProgressYet(inputs);
    var i := 0;
    while i < |order|
      invariant 0 <= i <= |order|
      invariant Progress(Joint(inputs), done, left, sum)
      invariant forall c :: c in done <==> c in order[..i] && Needy(inputs, c)
    {
      var c := order[i];
      var event := Event(inputs, Some(c), left);
      assert order[..i + 1] == order[..i] + [c];
      assert c !in order[..i];
      EventParts(inputs, c, left);
      if event.needs != [] {
        if event.candidates == [] {
          ProgressWithout(inputs, done, left, sum, c);
          sum := sum + LossAfterNothing(event.needs);
          done := done[c := NOTHING];
        } else {
          var answer := solver(event);
          if answer.objective.None? {
            return None;
          }
          var after := TakeAll(left, answer.allocations, event.candidates);
          ghost var p := ProgressWith(inputs, done, left, sum, c, answer, after);
          sum := sum + answer.objective.value;
          left := after;
          done := done[c := p];
        }
      }
      i := i + 1;
    }
    assert order[..i] == order;
    TotalIsJoint(inputs, done, left, sum);
    total := Some(sum);
  }

  lemma EventParts(inputs: Inputs, c: string, left: seq<Capacity>)
    requires WellFormed(inputs)
    ensures Event(inputs, Some(c), left).needs != [] <==> Needy(inputs, c)
    ensures forall a :: a in Event(inputs, Some(c), left).candidates ==>
              forall i, j :: 0 <= i < j < |a.resources| ==> a.resources[i] != a.resources[j]
  {
    hide UniqueCandidates, UniqueNeeds;
    EventOfCase(inputs, c, left);
    KeptMembers(inputs, Some(c), inputs.needs, inputs.candidates);
    if Needy(inputs, c) {
      NoNeeds(inputs, c);
    }
  }

  lemma ProgressWithout(inputs: Inputs, done: map<string, Point>, left: seq<Capacity>, total: int, c: string)
    requires WellFormed(inputs) && Progress(Joint(inputs), done, left, total) && c !in done
    requires var event := Event(inputs, Some(c), left); event.needs != [] && event.candidates == []
    ensures Progress(Joint(inputs), done[c := NOTHING], left,
            total + LossAfterNothing(Event(inputs, Some(c), left).needs))
  {
    var joint := Joint(inputs);
    EventOfCase(inputs, c, left);
    KeptMembers(inputs, None, inputs.needs, inputs.candidates);
    hide Feasible, Objective, Reduced, CaseFits, KeptNeeds, KeptCandidates, Combined, LossAfterNothing,
         UniqueCandidates, UniqueNeeds;
    CaseWithoutCandidates(joint, c, left);
    ProgressCase(joint, done, left, total, c, NOTHING, left, Problem(NeedsOf(joint.needs, c), [], left));
  }

  lemma ProgressWith(inputs: Inputs, done: map<string, Point>, left: seq<Capacity>, total: int, c: string,
                     answer: Answer,
                     after: seq<Capacity>) returns (p: Point)
    requires WellFormed(inputs) && Progress(Joint(inputs), done, left, total) && c !in done
    requires var event := Event(inputs, Some(c), left);
      && event.needs != [] && answer.objective.Some? && Honest(event, answer)
      && Reduced(left, after, answer.allocations, event.candidates)
    ensures Progress(Joint(inputs), done[c := p], after, total + answer.objective.value)
  {
    hide Feasible, Objective, Reduced, Progress, UniqueCandidates, UniqueNeeds;
    var event := Event(inputs, Some(c), left);
    EventOfCase(inputs, c, left);
    assert UniqueCandidates(event.candidates) by {
      KeptUnique(inputs, Some(c), inputs.candidates);
    }
    p :| Behind(event, answer, p);
    ProgressCase(Joint(inputs), done, left, total, c, p, after, event);
  }

  lemma TotalIsJoint(inputs: Inputs, done: map<string, Point>, left: seq<Capacity>, total: int)
    requires WellFormed(inputs) && Progress(Joint(inputs), done, left, total)
    requires forall n :: n in inputs.needs ==> Needy(inputs, n.caseId) ==> n.caseId in done
    ensures exists q :: Feasible(Joint(inputs), q) && Objective(Joint(inputs), q) == total
  {
    var joint := Joint(inputs);
    KeptMembers(inputs, None, inputs.needs, inputs.candidates);
    forall a | a in joint.candidates ensures a.caseId in done {
      var n :| n in inputs.needs && n.caseId == a.caseId;
    }
    forall k | k in joint.capacities ensures Used(joint.candidates, Combined(done), k.resource) <= k.quantity {
      var i :| 0 <= i < |joint.capacities| && joint.capacities[i] == k;
      assert left[i].resource == k.resource;
    }
    hide Feasible, Used, Cost, Loss, LossIn, Combined, CaseFits;
    CombinedFeasible(joint, done);
    AllLossIn(joint.needs, done);
    assert Objective(joint, Combined(done)) == total;
  }

  /**
   `savingVsSingle`: a joint solve that is OPTIMAL never costs more than solving the cases one by one,
   in any order.
   */
  method Saving(inputs: Inputs, order: seq<string>, solver: Problem -> Answer)
    returns (joint: Answer, alone: Option<int>, saving: Option<int>)
    requires WellFormed(inputs) && Once(order)
    requires forall problem :: Honest(problem, solver(problem))
    requires forall n :: n in inputs.needs ==> n.caseId in order
    ensures joint == solver(Joint(inputs))
    ensures saving == if alone.Some? && joint.objective.Some? then Some(alone.value - joint.objective.value) else None
    ensures saving.Some? && joint.status.Optimal? ==> saving.value >= 0
    ensures alone.None? ==> exists c, left :: c in order && solver(Event(inputs, Some(c), left)).objective.None?
  {
    hide Feasible, Objective, WellFormed, Joint;
    joint := solver(Joint(inputs));
    alone := Alone(inputs, order, solver);
    saving := None;
    if alone.Some? && joint.objective.Some? {
      saving := Some(alone.value - joint.objective.value);
    }
  }
}
