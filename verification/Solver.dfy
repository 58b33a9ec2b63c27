/**
 Joint action sizing: services/optimizer/solver.py. The constraint solver is a parameter of which
 only this is asked: a point it returns is feasible, and least when it says OPTIMAL. Instants are
 integers, money is in cents.
 */
module PortfolioSolver {
  import opened Basics

  datatype Need = Need(caseId: string, id: string, due: int, quantity: int, lostCents: int, sourceRef: string)

  datatype Candidate = Candidate(
    caseId: string, id: string, arrival: int, maxQuantity: int, fixedCents: int, unitCents: int,
    resources: seq<string>, sourceRef: string, sizeable: bool, group: Option<string>)

  datatype Capacity = Capacity(resource: string, quantity: int, sourceRef: string)

  datatype Allocation = Allocation(candidateId: string, caseId: string, quantity: int, covered: seq<(string, int)>)

  datatype Status = Optimal | FeasibleOnly | Infeasible | Unknown

  datatype Answer = Answer(status: Status, objective: Option<int>, allocations: seq<Allocation>,
                           uncovered: seq<(string, int)>)

  datatype Problem = Problem(needs: seq<Need>, candidates: seq<Candidate>, capacities: seq<Capacity>)

  // ----- Validation -----

  predicate UniqueNeeds(needs: seq<Need>) {
    forall i, j :: 0 <= i < j < |needs| ==> needs[i].id != needs[j].id
  }

  predicate UniqueCandidates(candidates: seq<Candidate>) {
    forall i, j :: 0 <= i < j < |candidates| ==> candidates[i].id != candidates[j].id
  }

  predicate UniqueCapacities(capacities: seq<Capacity>) {
    forall i, j :: 0 <= i < j < |capacities| ==> capacities[i].resource != capacities[j].resource
  }

  predicate Blank(s: string) {
    forall c <- s :: c == ' ' || c == '\t' || c == '\n' || c == '\r'
  }

  predicate ValidCandidate(problem: Problem, a: Candidate) {
    && (exists n :: n in problem.needs && n.caseId == a.caseId)
    && a.maxQuantity > 0 && a.fixedCents >= 0 && a.unitCents >= 0 && a.sourceRef != ""
    && (a.group.Some? ==> !Blank(a.group.value))
    && (forall i, j :: 0 <= i < j < |a.resources| ==> a.resources[i] != a.resources[j])
    && (forall r :: r in a.resources ==> exists c :: c in problem.capacities && c.resource == r)
  }

  predicate Valid(problem: Problem) {
    && problem.needs != [] && problem.candidates != []
    && UniqueNeeds(problem.needs)
    && UniqueCandidates(problem.candidates)
    && UniqueCapacities(problem.capacities)
    && (forall n :: n in problem.needs ==> n.quantity > 0 && n.lostCents >= 0 && n.sourceRef != "")
    && (forall a :: a in problem.candidates ==> ValidCandidate(problem, a))
    && (forall c :: c in problem.capacities ==> c.quantity >= 0 && c.sourceRef != "")
  }

  /** A list has as many elements as the set of them exactly when none repeats. */
  lemma {:induction false} SetOfDistinct(ids: seq<string>)
    ensures |set id | id in ids| <= |ids|
    ensures |set id | id in ids| == |ids| <==> forall i, j :: 0 <= i < j < |ids| ==> ids[i] != ids[j]
  {
    if ids != [] {
      var rest, last := ids[..|ids| - 1], ids[|ids| - 1];
      SetOfDistinct(rest);
      var some, all := set id | id in rest, set id | id in ids;
      assert ids == rest + [last];
      assert all == some + {last};
      if last in some {
        assert all == some;
        var i :| 0 <= i < |rest| && rest[i] == last;
        assert ids[i] == ids[|ids| - 1];
      } else {
        forall i, j | 0 <= i < j < |ids| && !(exists a, b :: 0 <= a < b < |rest| && rest[a] == rest[b])
          ensures ids[i] != ids[j]
        {
          assert ids[i] == rest[i];
          assert j < |rest| ==> ids[j] == rest[j];
        }
      }
    }
  }

  /** `[x.id for x in xs]`. */
  function Each<T>(xs: seq<T>, key: T -> string): (keys: seq<string>)
    ensures |keys| == |xs| && forall i :: 0 <= i < |xs| ==> keys[i] == key(xs[i])
  {
    seq(|xs|, i requires 0 <= i < |xs| => key(xs[i]))
  }

  lemma EachDistinct<T>(xs: seq<T>, key: T -> string)
    ensures |set k | k in Each(xs, key)| == |xs| <==> forall i, j :: 0 <= i < j < |xs| ==> key(xs[i]) != key(xs[j])
  {
    var keys := Each(xs, key);
    SetOfDistinct(keys);
    if forall i, j :: 0 <= i < j < |xs| ==> key(xs[i]) != key(xs[j]) {
      forall i, j | 0 <= i < j < |keys| ensures keys[i] != keys[j] {
        assert key(xs[i]) != key(xs[j]);
      }
    } else {
      var i, j :| 0 <= i < j < |xs| && key(xs[i]) == key(xs[j]);
      assert keys[i] == keys[j];
    }
  }

  lemma EachKnown<T>(xs: seq<T>, key: T -> string)
    ensures forall k :: k in Each(xs, key) <==> exists x :: x in xs && key(x) == k
  {
    forall k ensures k in Each(xs, key) <==> exists x :: x in xs && key(x) == k {
      if k in Each(xs, key) {
        var i :| 0 <= i < |xs| && Each(xs, key)[i] == k;
        assert xs[i] in xs && key(xs[i]) == k;
      }
      if x :| x in xs && key(x) == k {
        var i :| 0 <= i < |xs| && xs[i] == x;
        assert Each(xs, key)[i] == k;
      }
    }
  }

  method ValidateNeeds(needs: seq<Need>) returns (ok: bool)
    ensures ok <==> forall n :: n in needs ==> n.quantity > 0 && n.lostCents >= 0 && n.sourceRef != ""
  {
    for i := 0 to |needs|
      invariant forall n :: n in needs[..i] ==> n.quantity > 0 && n.lostCents >= 0 && n.sourceRef != ""
    {
      if needs[i].quantity <= 0 || needs[i].lostCents < 0 || needs[i].sourceRef == "" {
        return false;
      }
    }
    ok := true;
    assert needs[..|needs|] == needs;
  }

  method ValidateCandidate(problem: Problem, a: Candidate, cases: set<string>, limits: set<string>) returns (ok: bool)
    requires forall c :: c in cases <==> exists n :: n in problem.needs && n.caseId == c
    requires forall r :: r in limits <==> exists c :: c in problem.capacities && c.resource == r
    ensures ok <==> ValidCandidate(problem, a)
  {
    SetOfDistinct(a.resources);
    ok := a.caseId in cases && a.maxQuantity > 0 && a.fixedCents >= 0 && a.unitCents >= 0 && a.sourceRef != ""
      && !(a.group.Some? && forall c <- a.group.value :: c in " \t\n\r") && |a.resources| == |set r | r in a.resources|
      && forall r <- a.resources :: r in limits;
  }

  /** `len({x.id for x in xs}) == len(xs)`. */
  method Unrepeated<T>(xs: seq<T>, key: T -> string) returns (ok: bool)
    ensures ok <==> forall i, j :: 0 <= i < j < |xs| ==> key(xs[i]) != key(xs[j])
  {
    EachDistinct(xs, key);
    var keys := Each(xs, key);
    ok := |set k | k in keys| == |xs|;
  }

  method Keys<T>(xs: seq<T>, key: T -> string) returns (keys: set<string>)
    ensures forall k :: k in keys <==> exists x :: x in xs && key(x) == k
  {
    EachKnown(xs, key);
    var list := Each(xs, key);
    keys := set k | k in list;
  }

  /** `_validate`; false stands for any of its exceptions. */
  method Validate(problem: Problem) returns (ok: bool)
    ensures ok <==> Valid(problem)
  {
    var needs, candidates, capacities := problem.needs, problem.candidates, problem.capacities;
    if needs == [] || candidates == [] {
      return false;
    }
    var apartNeeds := Unrepeated(needs, (n: Need) => n.id);
    var apartCandidates := Unrepeated(candidates, (a: Candidate) => a.id);
    var apartCapacities := Unrepeated(capacities, (c: Capacity) => c.resource);
    if !apartNeeds || !apartCandidates || !apartCapacities {
      return false;
    }
    assert UniqueNeeds(needs) && UniqueCandidates(candidates) && UniqueCapacities(capacities);
    hide UniqueNeeds, UniqueCandidates, UniqueCapacities, ValidCandidate;
    var cases := Keys(needs, (n: Need) => n.caseId);
    var limits := Keys(capacities, (c: Capacity) => c.resource);
    ok := ValidateNeeds(needs);
    if !ok {
      return;
    }
    for i := 0 to |candidates|
      invariant forall a :: a in candidates[..i] ==> ValidCandidate(problem, a)
    {
      ok := ValidateCandidate(problem, candidates[i], cases, limits);
      if !ok {
        return;
      }
    }
    ok := forall c <- capacities :: c.quantity >= 0 && c.sourceRef != "";
    assert candidates[..|candidates|] == candidates;
  }

  // ----- The constraint system -----

  /** A value for every variable of the model. */
  datatype Point = Point(
    chosen: Candidate -> bool, quantity: Candidate -> int,
    covered: (Candidate, Need) -> int, uncovered: Need -> int)

  /** A candidate covers only needs of its own case that it reaches in time. */
  predicate Eligible(a: Candidate, n: Need) {
    n.caseId == a.caseId && a.arrival <= n.due
  }

  function CoverOf(a: Candidate, needs: seq<Need>, p: Point): int {
    if needs == [] then 0
    else (if Eligible(a, needs[0]) then p.covered(a, needs[0]) else 0) + CoverOf(a, needs[1..], p)
  }

  function CoveredNeed(n: Need, candidates: seq<Candidate>, p: Point): int {
    if candidates == [] then 0
    else (if Eligible(candidates[0], n) then p.covered(candidates[0], n) else 0) + CoveredNeed(n, candidates[1..], p)
  }

  function Used(candidates: seq<Candidate>, p: Point, resource: string): int {
    if candidates == [] then 0
    else
      (if resource in candidates[0].resources then p.quantity(candidates[0]) else 0)
      + Used(candidates[1..], p, resource)
  }

  function ChosenIn(candidates: seq<Candidate>, p: Point, group: string): nat {
    if candidates == [] then 0
    else
      (if candidates[0].group == Some(group) && p.chosen(candidates[0]) then 1 else 0)
      + ChosenIn(candidates[1..], p, group)
  }

  function LossOf(n: Need, quantity: int): int {
    n.lostCents * quantity
  }

  function Cost(candidates: seq<Candidate>, p: Point): int {
    if candidates == [] then 0
    else
      (if p.chosen(candidates[0]) then candidates[0].fixedCents else 0)
      + candidates[0].unitCents * p.quantity(candidates[0])
      + Cost(candidates[1..], p)
  }

  function Loss(needs: seq<Need>, p: Point): int {
    if needs == [] then 0 else LossOf(needs[0], p.uncovered(needs[0])) + Loss(needs[1..], p)
  }

  function Objective(problem: Problem, p: Point): int {
    Cost(problem.candidates, p) + Loss(problem.needs, p)
  }

  predicate Sized(a: Candidate, p: Point) {
    var most := if p.chosen(a) then a.maxQuantity else 0;
    && 0 <= p.quantity(a) <= most && (p.chosen(a) ==> p.quantity(a) >= 1)
    && (!a.sizeable ==> p.quantity(a) == most)
  }

  predicate CoversWithin(a: Candidate, needs: seq<Need>, p: Point) {
    && (forall n :: n in needs && Eligible(a, n) ==>
       0 <= p.covered(a, n) <= a.maxQuantity && p.covered(a, n) <= n.quantity)
    && CoverOf(a, needs, p) <= p.quantity(a)
  }

  predicate Balanced(n: Need, candidates: seq<Candidate>, p: Point) {
    0 <= p.uncovered(n) <= n.quantity && p.uncovered(n) + CoveredNeed(n, candidates, p) == n.quantity
  }

  ghost predicate Feasible(problem: Problem, p: Point) {
    && (forall a :: a in problem.candidates ==> Sized(a, p) && CoversWithin(a, problem.needs, p))
    && (forall group :: ChosenIn(problem.candidates, p, group) <= 1)
    && (forall c :: c in problem.capacities ==> Used(problem.candidates, p, c.resource) <= c.quantity)
    && (forall n :: n in problem.needs ==> Balanced(n, problem.candidates, p))
  }

  datatype Solved = Found(optimal: bool, p: Point) | NoPoint(proved: bool)

  /** All that is asked of the constraint solver. */
  ghost predicate Trusted(problem: Problem, solved: Solved) {
    match solved
    case Found(optimal, p) =>
      Feasible(problem, p) && (optimal ==> forall q :: Feasible(problem, q) ==>
        Objective(problem, p) <= Objective(problem, q))
    case NoPoint(proved) => proved ==> forall q :: !Feasible(problem, q)
  }

  const NOTHING := Point(a => false, a => 0, (a, n) => 0, (n: Need) => n.quantity)

  // ----- Extraction -----

  function CoverList(a: Candidate, needs: seq<Need>, p: Point): seq<(string, int)> {
    if needs == [] then []
    else
      (if Eligible(a, needs[0]) && p.covered(a, needs[0]) > 0 then [(needs[0].id, p.covered(a, needs[0]))] else [])
      + CoverList(a, needs[1..], p)
  }

  function AllocationOf(a: Candidate, needs: seq<Need>, p: Point): Allocation {
    Allocation(a.id, a.caseId, p.quantity(a), CoverList(a, needs, p))
  }

  /** Only chosen candidates are reported. */
  function Allocations(candidates: seq<Candidate>, needs: seq<Need>, p: Point): seq<Allocation> {
    if candidates == [] then []
    else
      (if p.chosen(candidates[0]) then [AllocationOf(candidates[0], needs, p)] else [])
      + Allocations(candidates[1..], needs, p)
  }

  function Remaining(needs: seq<Need>, p: Point): seq<(string, int)> {
    seq(|needs|, i requires 0 <= i < |needs| => (needs[i].id, p.uncovered(needs[i])))
  }

  // ----- The fail-closed check -----

  /** `{a.id: a for a in candidates}[id]`. */
  function Offered(candidates: seq<Candidate>, id: string): Option<Candidate> {
    if candidates == [] then None
    else if candidates[|candidates| - 1].id == id then Some(candidates[|candidates| - 1])
    else Offered(candidates[..|candidates| - 1], id)
  }

  /** `dict(pairs).get(id, 0)`. */
  function Lookup(pairs: seq<(string, int)>, id: string): int {
    if pairs == [] then 0
    else if pairs[|pairs| - 1].0 == id then pairs[|pairs| - 1].1
    else Lookup(pairs[..|pairs| - 1], id)
  }

  function SumPairs(pairs: seq<(string, int)>): int {
    if pairs == [] then 0 else pairs[0].1 + SumPairs(pairs[1..])
  }

  function UsedBy(allocations: seq<Allocation>, candidates: seq<Candidate>, resource: string): int {
    if allocations == [] then 0
    else
      var offer := Offered(candidates, allocations[0].candidateId);
      (if offer.Some? && resource in offer.value.resources then allocations[0].quantity else 0)
      + UsedBy(allocations[1..], candidates, resource)
  }

  function CoverFor(allocations: seq<Allocation>, id: string): int {
    if allocations == [] then 0 else Lookup(allocations[0].covered, id) + CoverFor(allocations[1..], id)
  }

  predicate Later(allocations: seq<Allocation>, id: string) {
    exists b <- allocations :: b.candidateId == id
  }

  /** The cost of `{a.candidate_id: a for a in allocations}`: a repeated id counts once, as its last. */
  function SelectedCost(allocations: seq<Allocation>, candidates: seq<Candidate>): int {
    if allocations == [] then 0
    else
      var offer := Offered(candidates, allocations[0].candidateId);
      (if offer.None? || Later(allocations[1..], allocations[0].candidateId) then 0
       else offer.value.fixedCents + offer.value.unitCents * allocations[0].quantity)
      + SelectedCost(allocations[1..], candidates)
  }

  function LossAfter(needs: seq<Need>, remaining: seq<(string, int)>): int {
    if needs == [] then 0
    else needs[0].lostCents * Lookup(remaining, needs[0].id) + LossAfter(needs[1..], remaining)
  }

  predicate GroupsApart(allocations: seq<Allocation>, candidates: seq<Candidate>) {
    forall i, j :: 0 <= i < j < |allocations| ==>
      var x, y := Offered(candidates, allocations[i].candidateId), Offered(candidates, allocations[j].candidateId);
      x.Some? && y.Some? && x.value.group.Some? ==> x.value.group != y.value.group
  }

  predicate SoundAllocation(candidates: seq<Candidate>, allocation: Allocation) {
    var offer := Offered(candidates, allocation.candidateId);
    && offer.Some? && 0 < allocation.quantity <= offer.value.maxQuantity
    && SumPairs(allocation.covered) <= allocation.quantity
  }

  /** `_check_result` raises nothing. */
  predicate Passes(problem: Problem, answer: Answer) {
    && GroupsApart(answer.allocations, problem.candidates)
    && (forall a :: a in answer.allocations ==> SoundAllocation(problem.candidates, a))
    && (forall c :: c in problem.capacities ==>
       UsedBy(answer.allocations, problem.candidates, c.resource) <= c.quantity)
    && (forall n :: n in problem.needs ==>
       && (exists pair :: pair in answer.uncovered && pair.0 == n.id)
       && CoverFor(answer.allocations, n.id) + Lookup(answer.uncovered, n.id) == n.quantity)
    && answer.objective == Some(SelectedCost(answer.allocations, problem.candidates)
       + LossAfter(problem.needs, answer.uncovered))
  }

  /** The groups of the allocations, in order: `active_groups`. */
  method ActiveGroups(allocations: seq<Allocation>, candidates: seq<Candidate>)
    returns (known: bool, apart: bool)
    ensures known <==> forall b :: b in allocations ==> Offered(candidates, b.candidateId).Some?
    ensures known ==> (apart <==> GroupsApart(allocations, candidates))
  {
    var groups: seq<string> := [];
    ghost var from: seq<nat> := [];
    for i := 0 to |allocations|
      invariant forall b :: b in allocations[..i] ==> Offered(candidates, b.candidateId).Some?
      invariant |from| == |groups|
      invariant forall k :: 0 <= k < |from| ==>
        from[k] < i && Offered(candidates, allocations[from[k]].candidateId).value.group == Some(groups[k])
      invariant forall j, k :: 0 <= j < k < |from| ==> from[j] < from[k]
      invariant forall j: nat :: j < i && Offered(candidates, allocations[j].candidateId).value.group.Some? ==>
        j in from
    {
      var offer := Offered(candidates, allocations[i].candidateId);
      if offer.None? {
        assert allocations[i] in allocations;
        return false, false;
      }
      if offer.value.group.Some? {
        groups, from := groups + [offer.value.group.value], from + [i];
      }
    }
    known, apart := true, |groups| == |set g | g in groups|;
    assert allocations[..|allocations|] == allocations;
    SetOfDistinct(groups);
    GroupsOf(allocations, candidates, groups, from);
  }

  lemma GroupsOf(allocations: seq<Allocation>, candidates: seq<Candidate>, groups: seq<string>, from: seq<nat>)
    requires forall b :: b in allocations ==> Offered(candidates, b.candidateId).Some?
    requires |from| == |groups| && forall j, k :: 0 <= j < k < |from| ==> from[j] < from[k]
    requires forall k :: 0 <= k < |from| ==>
      from[k] < |allocations| && Offered(candidates, allocations[from[k]].candidateId).value.group == Some(groups[k])
    requires forall j: nat ::
      j < |allocations| && Offered(candidates, allocations[j].candidateId).value.group.Some? ==> j in from
    ensures GroupsApart(allocations, candidates) <==> forall j, k :: 0 <= j < k < |groups| ==> groups[j] != groups[k]
  {
    hide Offered;
    if GroupsApart(allocations, candidates) {
      forall j, k | 0 <= j < k < |groups| ensures groups[j] != groups[k] {
        assert from[j] < from[k];
        assert Offered(candidates, allocations[from[j]].candidateId).value.group
            != Offered(candidates, allocations[from[k]].candidateId).value.group;
      }
    }
    if forall j, k :: 0 <= j < k < |groups| ==> groups[j] != groups[k] {
      forall i, j | 0 <= i < j < |allocations|
        ensures var x, y := Offered(candidates, allocations[i].candidateId),
                            Offered(candidates, allocations[j].candidateId);
          x.Some? && y.Some? && x.value.group.Some? ==> x.value.group != y.value.group
      {
        if Offered(candidates, allocations[i].candidateId).value.group.Some? {
          assert i in from;
        }
      }
    }
  }

  /** `_check_result`; false stands for any of its exceptions. */
  method CheckResult(problem: Problem, answer: Answer) returns (ok: bool)
    ensures ok <==> Passes(problem, answer)
  {
    hide GroupsApart, SumPairs, UsedBy, CoverFor, Lookup, SelectedCost, LossAfter, Offered;
    var candidates := problem.candidates;
    var known, apart := ActiveGroups(answer.allocations, candidates);
    if !known || !apart {
      return false;
    }
    for i := 0 to |answer.allocations|
      invariant forall b :: b in answer.allocations[..i] ==> SoundAllocation(candidates, b)
    {
      var allocation := answer.allocations[i];
      var offer := Offered(candidates, allocation.candidateId);
      if allocation.quantity <= 0 || allocation.quantity > offer.value.maxQuantity
         || SumPairs(allocation.covered) > allocation.quantity {
        assert !SoundAllocation(candidates, allocation);
        return false;
      }
      assert SoundAllocation(candidates, allocation);
    }
    assert answer.allocations[..|answer.allocations|] == answer.allocations;
    for i := 0 to |problem.capacities|
      invariant forall c :: c in problem.capacities[..i] ==>
        UsedBy(answer.allocations, candidates, c.resource) <= c.quantity
    {
      if UsedBy(answer.allocations, candidates, problem.capacities[i].resource) > problem.capacities[i].quantity {
        return false;
      }
    }
    assert problem.capacities[..|problem.capacities|] == problem.capacities;
    for i := 0 to |problem.needs|
      invariant forall n :: n in problem.needs[..i] ==>
        && (exists pair :: pair in answer.uncovered && pair.0 == n.id)
        && CoverFor(answer.allocations, n.id) + Lookup(answer.uncovered, n.id) == n.quantity
    {
      var need := problem.needs[i];
      if !(exists pair <- answer.uncovered :: pair.0 == need.id)
         || CoverFor(answer.allocations, need.id) + Lookup(answer.uncovered, need.id) != need.quantity {
        return false;
      }
    }
    assert problem.needs[..|problem.needs|] == problem.needs;
    ok := answer.objective == Some(SelectedCost(answer.allocations, candidates)
      + LossAfter(problem.needs, answer.uncovered));
  }

  function Extracted(problem: Problem, optimal: bool, p: Point): Answer {
    Answer(if optimal then Optimal else FeasibleOnly, Some(Objective(problem, p)),
           Allocations(problem.candidates, problem.needs, p), Remaining(problem.needs, p))
  }

  // ----- Whatever is feasible passes -----

  lemma {:induction false} OfferedSelf(candidates: seq<Candidate>, a: Candidate)
    requires UniqueCandidates(candidates) && a in candidates
    ensures Offered(candidates, a.id) == Some(a)
  {
    var last := candidates[|candidates| - 1];
    if last != a {
      var k :| 0 <= k < |candidates| && candidates[k] == a;
      assert k == |candidates| - 1 || candidates[k].id != candidates[|candidates| - 1].id;
      assert candidates[..|candidates| - 1][k] == a;
      OfferedSelf(candidates[..|candidates| - 1], a);
    }
  }

  lemma {:induction false} CoverListSums(a: Candidate, needs: seq<Need>, p: Point)
    requires forall n :: n in needs && Eligible(a, n) ==> p.covered(a, n) >= 0
    ensures SumPairs(CoverList(a, needs, p)) == CoverOf(a, needs, p) >= 0
  {
    if needs != [] {
      CoverListSums(a, needs[1..], p);
      assert !(Eligible(a, needs[0]) && p.covered(a, needs[0]) > 0) ==>
          CoverList(a, needs, p) == CoverList(a, needs[1..], p);
    }
  }

  lemma {:induction false} LookupAbsent(pairs: seq<(string, int)>, id: string)
    requires forall pair :: pair in pairs ==> pair.0 != id
    ensures Lookup(pairs, id) == 0
  {
    if pairs != [] {
      LookupAbsent(pairs[..|pairs| - 1], id);
    }
  }

  lemma {:induction false} LookupCons(first: (string, int), pairs: seq<(string, int)>, id: string)
    requires first.0 == id ==> forall pair :: pair in pairs ==> pair.0 != id
    ensures Lookup([first] + pairs, id) == if first.0 == id then first.1 else Lookup(pairs, id)
  {
    var all := [first] + pairs;
    if pairs == [] {
      assert all[..|all| - 1] == [];
    } else {
      assert all[..|all| - 1] == [first] + pairs[..|pairs| - 1];
      LookupCons(first, pairs[..|pairs| - 1], id);
      if first.0 == id {
        assert pairs[|pairs| - 1] in pairs;
      }
    }
  }

  lemma {:induction false} CoverListIds(a: Candidate, needs: seq<Need>, p: Point)
    ensures forall pair :: pair in CoverList(a, needs, p) ==> exists n :: n in needs && n.id == pair.0
  {
    if needs != [] {
      CoverListIds(a, needs[1..], p);
      assert needs[0] in needs;
    }
  }

  /** The covered amount a need reads back out of an allocation. */
  lemma {:induction false} CoverListLookup(a: Candidate, needs: seq<Need>, p: Point, n: Need)
    requires UniqueNeeds(needs) && n in needs
    requires forall m :: m in needs && Eligible(a, m) ==> p.covered(a, m) >= 0
    ensures Lookup(CoverList(a, needs, p), n.id) == if Eligible(a, n) then p.covered(a, n) else 0
  {
    var first, rest := needs[0], CoverList(a, needs[1..], p);
    CoverListIds(a, needs[1..], p);
    forall pair | pair in rest ensures pair.0 != first.id {
      var m :| m in needs[1..] && m.id == pair.0;
      var k :| 0 <= k < |needs[1..]| && needs[1..][k] == m;
      assert needs[0].id != needs[k + 1].id;
    }
    var listed := Eligible(a, first) && p.covered(a, first) > 0;
    if listed {
      LookupCons((first.id, p.covered(a, first)), rest, n.id);
    } else {
      assert CoverList(a, needs, p) == rest;
    }
    if n == first {
      LookupAbsent(rest, n.id);
    } else {
      assert n in needs[1..];
      var k :| 0 <= k < |needs[1..]| && needs[1..][k] == n;
      assert needs[0].id != needs[k + 1].id;
      CoverListLookup(a, needs[1..], p, n);
    }
  }

  lemma {:induction false} NothingShipped(a: Candidate, needs: seq<Need>, p: Point, n: Need)
    requires n in needs && Eligible(a, n) && CoverOf(a, needs, p) <= 0
    requires forall m :: m in needs && Eligible(a, m) ==> p.covered(a, m) >= 0
    ensures p.covered(a, n) == 0
  {
    CoverListSums(a, needs[1..], p);
    if n != needs[0] {
      NothingShipped(a, needs[1..], p, n);
    }
  }

  /** Dropping the candidates not chosen changes no use, no coverage and no cost. */
  lemma {:induction false} AllocationsUse(candidates: seq<Candidate>, all: seq<Candidate>, needs: seq<Need>, p: Point,
                                          resource: string)
    requires forall a :: a in candidates ==> Sized(a, p) && Offered(all, a.id) == Some(a)
    ensures UsedBy(Allocations(candidates, needs, p), all, resource) == Used(candidates, p, resource)
  {
    if candidates != [] {
      AllocationsUse(candidates[1..], all, needs, p, resource);
      assert candidates[0] in candidates;
      var rest := Allocations(candidates[1..], needs, p);
      if p.chosen(candidates[0]) {
        var first := AllocationOf(candidates[0], needs, p);
        assert ([first] + rest)[1..] == rest;
      } else {
        assert Allocations(candidates, needs, p) == rest;
      }
    }
  }

  lemma {:induction false} AllocationsCover(candidates: seq<Candidate>, needs: seq<Need>, p: Point, n: Need)
    requires UniqueNeeds(needs) && n in needs
    requires forall a :: a in candidates ==> Sized(a, p) && CoversWithin(a, needs, p)
    ensures CoverFor(Allocations(candidates, needs, p), n.id) == CoveredNeed(n, candidates, p)
  {
    if candidates != [] {
      AllocationsCover(candidates[1..], needs, p, n);
      var a, rest := candidates[0], Allocations(candidates[1..], needs, p);
      assert Sized(a, p) && CoversWithin(a, needs, p);
      if p.chosen(a) {
        CoverListLookup(a, needs, p, n);
        assert ([AllocationOf(a, needs, p)] + rest)[1..] == rest;
      } else {
        assert Allocations(candidates, needs, p) == rest;
        if Eligible(a, n) {
          NothingShipped(a, needs, p, n);
        }
      }
    }
  }

  lemma {:induction false} AllocationIds(candidates: seq<Candidate>, needs: seq<Need>, p: Point)
    ensures forall b :: b in Allocations(candidates, needs, p) ==>
              exists a :: a in candidates && p.chosen(a) && b == AllocationOf(a, needs, p)
  {
    if candidates != [] {
      AllocationIds(candidates[1..], needs, p);
      assert candidates[0] in candidates;
    }
  }

  lemma {:induction false} AllocationsCost(candidates: seq<Candidate>, all: seq<Candidate>, needs: seq<Need>, p: Point)
    requires UniqueCandidates(candidates)
    requires forall a :: a in candidates ==> Sized(a, p) && Offered(all, a.id) == Some(a)
    ensures SelectedCost(Allocations(candidates, needs, p), all) == Cost(candidates, p)
  {
    if candidates != [] {
      var a, rest := candidates[0], Allocations(candidates[1..], needs, p);
      assert a in candidates;
      forall i, j | 0 <= i < j < |candidates[1..]| ensures candidates[1..][i].id != candidates[1..][j].id {
          assert candidates[i + 1].id != candidates[j + 1].id;
      }
      AllocationsCost(candidates[1..], all, needs, p);
      if p.chosen(a) {
        NoneLater(candidates, needs, p);
        assert ([AllocationOf(a, needs, p)] + rest)[1..] == rest;
      } else {
        assert Allocations(candidates, needs, p) == rest;
        assert p.quantity(a) == 0;
      }
    }
  }

  lemma NoneLater(candidates: seq<Candidate>, needs: seq<Need>, p: Point)
    requires candidates != [] && UniqueCandidates(candidates)
    ensures !Later(Allocations(candidates[1..], needs, p), candidates[0].id)
  {
    AllocationIds(candidates[1..], needs, p);
    forall b | b in Allocations(candidates[1..], needs, p) ensures b.candidateId != candidates[0].id {
      var a :| a in candidates[1..] && p.chosen(a) && b == AllocationOf(a, needs, p);
      var k :| 0 <= k < |candidates[1..]| && candidates[1..][k] == a;
      assert candidates[0].id != candidates[k + 1].id;
    }
  }

  lemma {:induction false} RemainingLookup(needs: seq<Need>, p: Point, n: Need)
    requires UniqueNeeds(needs) && n in needs
    ensures Lookup(Remaining(needs, p), n.id) == p.uncovered(n)
  {
    var last := |needs| - 1;
    assert Remaining(needs, p)[..last] == Remaining(needs[..last], p);
    if needs[last] != n {
      var k :| 0 <= k < |needs| && needs[k] == n;
      assert needs[k].id != needs[last].id;
      assert needs[..last][k] == n;
      RemainingLookup(needs[..last], p, n);
    }
  }

  lemma {:induction false} LossOfRemaining(needs: seq<Need>, all: seq<Need>, p: Point)
    requires UniqueNeeds(all) && forall n :: n in needs ==> n in all
    ensures LossAfter(needs, Remaining(all, p)) == Loss(needs, p)
  {
    if needs != [] {
      assert needs[0] in needs;
      RemainingLookup(all, p, needs[0]);
      LossOfRemaining(needs[1..], all, p);
    }
  }

  lemma {:induction false} ChosenCounts(candidates: seq<Candidate>, p: Point, group: string, a: Candidate)
    requires a in candidates && p.chosen(a) && a.group == Some(group)
    ensures ChosenIn(candidates, p, group) >= 1
  {
    if candidates[0] != a {
      ChosenCounts(candidates[1..], p, group, a);
    }
  }

  /** At most one chosen candidate of a group: no two allocations share one. */
  lemma {:induction false} GroupsStayApart(candidates: seq<Candidate>, all: seq<Candidate>, needs: seq<Need>, p: Point)
    requires forall a :: a in candidates ==> Offered(all, a.id) == Some(a)
    requires forall group :: ChosenIn(candidates, p, group) <= 1
    ensures GroupsApart(Allocations(candidates, needs, p), all)
  {
    if candidates != [] {
      var a, rest := candidates[0], Allocations(candidates[1..], needs, p);
      assert a in candidates;
      forall group ensures ChosenIn(candidates[1..], p, group) <= 1 {
        assert ChosenIn(candidates, p, group) <= 1;
      }
      GroupsStayApart(candidates[1..], all, needs, p);
      if p.chosen(a) {
        var list := Allocations(candidates, needs, p);
        assert list == [AllocationOf(a, needs, p)] + rest;
        forall i, j | 0 <= i < j < |list| ensures
          var x, y := Offered(all, list[i].candidateId), Offered(all, list[j].candidateId);
          x.Some? && y.Some? && x.value.group.Some? ==> x.value.group != y.value.group
        {
          if i == 0 {
            OtherGroup(candidates, all, needs, p, j - 1);
          } else {
            assert list[i] == rest[i - 1] && list[j] == rest[j - 1];
          }
        }
      } else {
        assert Allocations(candidates, needs, p) == rest;
      }
    }
  }

  lemma OtherGroup(candidates: seq<Candidate>, all: seq<Candidate>, needs: seq<Need>, p: Point, j: nat)
    requires candidates != [] && p.chosen(candidates[0]) && j < |Allocations(candidates[1..], needs, p)|
    requires forall a :: a in candidates ==> Offered(all, a.id) == Some(a)
    requires forall group :: ChosenIn(candidates, p, group) <= 1
    ensures var y := Offered(all, Allocations(candidates[1..], needs, p)[j].candidateId);
      candidates[0].group.Some? && y.Some? ==> candidates[0].group != y.value.group
  {
    var rest := Allocations(candidates[1..], needs, p);
    AllocationIds(candidates[1..], needs, p);
    assert rest[j] in rest;
    var b :| b in candidates[1..] && p.chosen(b) && rest[j] == AllocationOf(b, needs, p);
    if candidates[0].group.Some? && b.group == candidates[0].group {
      ChosenBoth(candidates, p, b.group.value, b);
    }
  }

  lemma ChosenBoth(candidates: seq<Candidate>, p: Point, group: string, b: Candidate)
    requires candidates != [] && p.chosen(candidates[0]) && candidates[0].group == Some(group)
    requires b in candidates[1..] && p.chosen(b) && b.group == Some(group)
    ensures ChosenIn(candidates, p, group) >= 2
  {
    ChosenCounts(candidates[1..], p, group, b);
  }

  /** Any solution of the posted constraints passes the check, after unchosen candidates are dropped. */
  lemma FeasiblePasses(problem: Problem, optimal: bool, p: Point)
    requires UniqueNeeds(problem.needs) && UniqueCandidates(problem.candidates) && Feasible(problem, p)
    ensures Passes(problem, Extracted(problem, optimal, p))
  {
    hide Sized, CoversWithin, Balanced, GroupsApart, UniqueNeeds, UniqueCandidates, SoundAllocation, Allocations, Used,
         UsedBy, CoverFor, Lookup, SelectedCost, LossAfter, Cost, Loss, Offered, ChosenIn, Remaining;
    var needs, candidates := problem.needs, problem.candidates;
    var answer := Extracted(problem, optimal, p);
    forall a | a in candidates ensures Offered(candidates, a.id) == Some(a) {
      OfferedSelf(candidates, a);
    }
    GroupsStayApart(candidates, candidates, needs, p);
    AllocationIds(candidates, needs, p);
    forall b | b in answer.allocations ensures SoundAllocation(candidates, b) {
      var a :| a in candidates && p.chosen(a) && b == AllocationOf(a, needs, p);
      ShipsEnough(candidates, needs, p, a);
    }
    forall c | c in problem.capacities ensures UsedBy(answer.allocations, candidates, c.resource) <= c.quantity {
      AllocationsUse(candidates, candidates, needs, p, c.resource);
    }
    forall n | n in needs
      ensures exists pair :: pair in answer.uncovered && pair.0 == n.id
      ensures CoverFor(answer.allocations, n.id) + Lookup(answer.uncovered, n.id) == n.quantity
    {
      NeedMet(problem, p, n);
    }
    AllocationsCost(candidates, candidates, needs, p);
    LossOfRemaining(needs, needs, p);
  }

  lemma NeedMet(problem: Problem, p: Point, n: Need)
    requires UniqueNeeds(problem.needs) && n in problem.needs && Balanced(n, problem.candidates, p)
    requires forall a :: a in problem.candidates ==> Sized(a, p) && CoversWithin(a, problem.needs, p)
    ensures exists pair :: pair in Remaining(problem.needs, p) && pair.0 == n.id
    ensures CoverFor(Allocations(problem.candidates, problem.needs, p), n.id)
            + Lookup(Remaining(problem.needs, p), n.id) == n.quantity
  {
    hide Sized, CoversWithin, Balanced, UniqueNeeds, Allocations, CoverFor, Lookup, CoveredNeed;
    AllocationsCover(problem.candidates, problem.needs, p, n);
    RemainingLookup(problem.needs, p, n);
    BalancedSums(n, problem.candidates, p);
    var i :| 0 <= i < |problem.needs| && problem.needs[i] == n;
    assert Remaining(problem.needs, p)[i].0 == n.id;
  }

  lemma BalancedSums(n: Need, candidates: seq<Candidate>, p: Point)
    requires Balanced(n, candidates, p)
    ensures p.uncovered(n) + CoveredNeed(n, candidates, p) == n.quantity
  {}

  lemma ShipsEnough(candidates: seq<Candidate>, needs: seq<Need>, p: Point, a: Candidate)
    requires Offered(candidates, a.id) == Some(a) && p.chosen(a) && Sized(a, p) && CoversWithin(a, needs, p)
    ensures SoundAllocation(candidates, AllocationOf(a, needs, p))
  {
    CoverListSums(a, needs, p);
  }

  // ----- The empty plan -----

  lemma {:induction false} NothingUsed(candidates: seq<Candidate>, resource: string, n: Need, group: string)
    ensures Used(candidates, NOTHING, resource) == 0 && CoveredNeed(n, candidates, NOTHING) == 0
    ensures ChosenIn(candidates, NOTHING, group) == 0 && Cost(candidates, NOTHING) == 0
  {
    if candidates != [] {
      NothingUsed(candidates[1..], resource, n, group);
    }
  }

  lemma {:induction false} NothingCovers(a: Candidate, needs: seq<Need>)
    ensures CoverOf(a, needs, NOTHING) == 0
  {
    if needs != [] {
      NothingCovers(a, needs[1..]);
    }
  }

  /** Doing nothing is always feasible, so a valid problem is never INFEASIBLE. */
  lemma NothingFeasible(problem: Problem)
    requires forall a :: a in problem.candidates ==> a.maxQuantity >= 0
    requires forall n :: n in problem.needs ==> n.quantity >= 0
    requires forall c :: c in problem.capacities ==> c.quantity >= 0
    ensures Feasible(problem, NOTHING)
  {
    hide Used, CoveredNeed, ChosenIn, Cost, CoverOf;
    var n := Need("", "", 0, 0, 0, "");
    forall a | a in problem.candidates ensures Sized(a, NOTHING) && CoversWithin(a, problem.needs, NOTHING) {
      NothingCovers(a, problem.needs);
    }
    forall group ensures ChosenIn(problem.candidates, NOTHING, group) <= 1 {
      NothingUsed(problem.candidates, "", n, group);
    }
    forall c | c in problem.capacities ensures Used(problem.candidates, NOTHING, c.resource) <= c.quantity {
      NothingUsed(problem.candidates, c.resource, n, "");
    }
    forall m | m in problem.needs ensures Balanced(m, problem.candidates, NOTHING) {
      NothingUsed(problem.candidates, "", m, "");
    }
  }

  // ----- Solving -----

  /** An answer with an objective is the extraction of a feasible point, least when it says OPTIMAL. */
  ghost predicate Honest(problem: Problem, answer: Answer) {
    answer.objective.Some? ==> exists p :: Behind(problem, answer, p)
  }

  ghost predicate Behind(problem: Problem, answer: Answer, p: Point) {
    && Feasible(problem, p) && answer.objective == Some(Objective(problem, p))
    && answer.allocations == Allocations(problem.candidates, problem.needs, p)
    && (answer.status.Optimal? ==> forall q :: Feasible(problem, q) ==> Objective(problem, p) <= Objective(problem, q))
  }

  /**
   `solve`: with a solver one can trust, a valid problem always gets an answer. The check never
   rejects it, and INFEASIBLE is never among the answers.
   */
  method Solve(problem: Problem, solver: Problem -> Solved) returns (result: Result<Answer>)
    requires Trusted(problem, solver(problem))
    ensures result.Ok? <==> Valid(problem)
    ensures result.Ok? ==> Honest(problem, result.value) && !result.value.status.Infeasible?
    ensures result.Ok? && result.value.objective.Some? ==> Passes(problem, result.value)
    ensures result.Ok? && result.value.objective.None? ==> result.value.allocations == [] && solver(problem).NoPoint?
  {
    hide Feasible, Passes, Objective;
    var valid := Validate(problem);
    if !valid {
      return Err("portfolio not valid");
    }
    match solver(problem)
    case NoPoint(proved) =>
      NothingFeasible(problem);
      result := Ok(Answer(if proved then Infeasible else Unknown, None, [], []));
    case Found(optimal, p) =>
      var answer := Extracted(problem, optimal, p);
      FeasiblePasses(problem, optimal, p);
      var passes := CheckResult(problem, answer);
      if !passes {
        return Err("solver output violates a hard constraint");
      }
      assert Behind(problem, answer, p);
      result := Ok(answer);
  }
}
