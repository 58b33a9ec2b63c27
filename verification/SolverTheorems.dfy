/** What an answer of services/optimizer/solver.py may say of a candidate, in the fields of needs and candidates. */
module SolverTheorems {
  import opened Basics
  import opened PortfolioSolver

  /** Listed are just the amounts covered of needs of the candidate's own case that it reaches in time. */
  lemma {:induction false} CoverListed(a: Candidate, needs: seq<Need>, p: Point)
    ensures forall pair :: pair in CoverList(a, needs, p) ==>
      pair.1 > 0 && exists n :: n in needs && n.id == pair.0 && n.caseId == a.caseId && a.arrival <= n.due
                                && pair.1 == p.covered(a, n)
    ensures forall n :: n in needs && n.caseId == a.caseId && a.arrival <= n.due && p.covered(a, n) > 0 ==>
      (n.id, p.covered(a, n)) in CoverList(a, needs, p)
  {
    if needs != [] {
      CoverListed(a, needs[1..], p);
      assert needs == [needs[0]] + needs[1..];
    }
  }

  /**
   Every allocation of an answer is of a candidate offered, of that candidate's case and within its size, and
   covers only needs of that case which are due no earlier than the candidate arrives, none beyond its quantity.
   */
  lemma CoversOnlyInTime(problem: Problem, answer: Answer, b: Allocation)
    requires Honest(problem, answer) && answer.objective.Some? && b in answer.allocations
    ensures exists a ::
      && a in problem.candidates && a.id == b.candidateId && a.caseId == b.caseId
      && 1 <= b.quantity <= a.maxQuantity && (a.sizeable || b.quantity == a.maxQuantity)
      && forall pair :: pair in b.covered ==>
           && 0 < pair.1 <= b.quantity
           && exists n :: && n in problem.needs && n.id == pair.0 && n.caseId == b.caseId
                          && a.arrival <= n.due && pair.1 <= n.quantity
  {
    hide Objective, CoverOf, CoverList, Used, ChosenIn, Balanced, Sized, CoversWithin, Allocations;
    var p :| Behind(problem, answer, p);
    AllocationIds(problem.candidates, problem.needs, p);
    var a :| a in problem.candidates && p.chosen(a) && b == AllocationOf(a, problem.needs, p);
    assert Sized(a, p) && CoversWithin(a, problem.needs, p);
    hide Behind, Feasible;
    SizedAndListed(problem.needs, p, a);
  }

  lemma SizedAndListed(needs: seq<Need>, p: Point, a: Candidate)
    requires p.chosen(a) && Sized(a, p) && CoversWithin(a, needs, p)
    ensures 1 <= p.quantity(a) <= a.maxQuantity && (a.sizeable || p.quantity(a) == a.maxQuantity)
    ensures forall pair :: pair in CoverList(a, needs, p) ==>
      && 0 < pair.1 <= p.quantity(a)
      && exists n :: && n in needs && n.id == pair.0 && n.caseId == a.caseId
                     && a.arrival <= n.due && pair.1 <= n.quantity
  {
    hide CoverOf;
    CoverListed(a, needs, p);
    forall pair | pair in CoverList(a, needs, p)
      ensures pair.1 <= p.quantity(a)
      ensures exists n :: && n in needs && n.id == pair.0 && n.caseId == a.caseId
                          && a.arrival <= n.due && pair.1 <= n.quantity
    {
      var n :| n in needs && n.id == pair.0 && n.caseId == a.caseId && a.arrival <= n.due
        && pair.1 == p.covered(a, n);
      CoverAtMost(a, needs, p, n);
    }
  }

  /** One need takes no more than all of them. */
  lemma {:induction false} CoverAtMost(a: Candidate, needs: seq<Need>, p: Point, n: Need)
    requires n in needs && Eligible(a, n)
    requires forall m :: m in needs && Eligible(a, m) ==> p.covered(a, m) >= 0
    ensures p.covered(a, n) <= CoverOf(a, needs, p)
  {
    CoverListSums(a, needs[1..], p);
    if needs[0] != n {
      CoverAtMost(a, needs[1..], p, n);
    }
  }

  /** One candidate uses no more than all of them. */
  lemma {:induction false} UseAtMost(candidates: seq<Candidate>, p: Point, resource: string, a: Candidate)
    requires forall b :: b in candidates ==> p.quantity(b) >= 0
    requires a in candidates && resource in a.resources
    ensures p.quantity(a) <= Used(candidates, p, resource)
  {
    UsesSomething(candidates[1..], p, resource);
    if candidates[0] != a {
      UseAtMost(candidates[1..], p, resource, a);
    }
  }

  lemma {:induction false} UsesSomething(candidates: seq<Candidate>, p: Point, resource: string)
    requires forall b :: b in candidates ==> p.quantity(b) >= 0
    ensures Used(candidates, p, resource) >= 0
  {
    if candidates != [] {
      UsesSomething(candidates[1..], p, resource);
    }
  }

  // ----- One candidate covering one need -----

  /** Only `a` is chosen, in this size, and covers `k` of `n`. */
  function Lone(a: Candidate, size: int, n: Need, k: int): Point {
    Point((b: Candidate) => b == a, (b: Candidate) => if b == a then size else 0,
          (b: Candidate, m: Need) => if b == a && m == n then k else 0,
          (m: Need) => if m == n then m.quantity - k else m.quantity)
  }

  lemma {:induction false} LoneUses(candidates: seq<Candidate>, a: Candidate, size: int, n: Need, k: int,
                                    resource: string, group: string)
    requires UniqueCandidates(candidates)
    ensures Used(candidates, Lone(a, size, n, k), resource) == if a in candidates && resource in a.resources then size
                                                               else 0
    ensures ChosenIn(candidates, Lone(a, size, n, k), group) <= if a in candidates then 1 else 0
    ensures forall m :: CoveredNeed(m, candidates, Lone(a, size, n, k))
                        == if a in candidates && m == n && Eligible(a, n) then k else 0
  {
    if candidates != [] {
      forall i, j | 0 <= i < j < |candidates[1..]| ensures candidates[1..][i].id != candidates[1..][j].id {
        assert candidates[i + 1].id != candidates[j + 1].id;
      }
      LoneUses(candidates[1..], a, size, n, k, resource, group);
      forall b | b in candidates[1..] ensures b != candidates[0] {
        var i :| 0 <= i < |candidates[1..]| && candidates[1..][i] == b;
        assert candidates[0].id != candidates[i + 1].id;
      }
    }
  }

  lemma {:induction false} LoneCovers(needs: seq<Need>, a: Candidate, size: int, n: Need, k: int, b: Candidate)
    requires UniqueNeeds(needs)
    ensures CoverOf(b, needs, Lone(a, size, n, k)) == if b == a && n in needs && Eligible(a, n) then k else 0
  {
    if needs != [] {
      forall i, j | 0 <= i < j < |needs[1..]| ensures needs[1..][i].id != needs[1..][j].id {
        assert needs[i + 1].id != needs[j + 1].id;
      }
      LoneCovers(needs[1..], a, size, n, k, b);
      forall m | m in needs[1..] ensures m != needs[0] {
        var i :| 0 <= i < |needs[1..]| && needs[1..][i] == m;
        assert needs[0].id != needs[i + 1].id;
      }
    }
  }

  lemma LoneFeasible(problem: Problem, a: Candidate, size: int, n: Need, k: int)
    requires Valid(problem) && a in problem.candidates && n in problem.needs && Eligible(a, n)
    requires 0 < k <= size <= a.maxQuantity && k <= n.quantity && (a.sizeable || size == a.maxQuantity)
    requires forall c :: c in problem.capacities && c.resource in a.resources ==> size <= c.quantity
    ensures Feasible(problem, Lone(a, size, n, k))
  {
    var p := Lone(a, size, n, k);
    hide UniqueNeeds, UniqueCandidates, UniqueCapacities, Used, ChosenIn, CoveredNeed, CoverOf;
    forall b | b in problem.candidates ensures Sized(b, p) && CoversWithin(b, problem.needs, p) {
      assert ValidCandidate(problem, b);
      LoneCovers(problem.needs, a, size, n, k, b);
    }
    hide ValidCandidate;
    forall group ensures ChosenIn(problem.candidates, p, group) <= 1 {
      LoneUses(problem.candidates, a, size, n, k, "", group);
    }
    forall c | c in problem.capacities ensures Used(problem.candidates, p, c.resource) <= c.quantity {
      LoneUses(problem.candidates, a, size, n, k, c.resource, "");
    }
    forall m | m in problem.needs ensures Balanced(m, problem.candidates, p) {
      LoneUses(problem.candidates, a, size, n, k, "", "");
    }
  }

  /** The solution has the candidate cover so much of the need, as its allocation reports it. */
  ghost predicate Covers(problem: Problem, p: Point, a: Candidate, n: Need, k: int) {
    exists b :: b in Allocations(problem.candidates, problem.needs, p) && b.candidateId == a.id
                && (n.id, k) in b.covered
  }

  lemma {:induction false} ChosenReported(candidates: seq<Candidate>, needs: seq<Need>, p: Point, a: Candidate)
    requires a in candidates && p.chosen(a)
    ensures AllocationOf(a, needs, p) in Allocations(candidates, needs, p)
  {
    if candidates[0] != a {
      ChosenReported(candidates[1..], needs, p, a);
    }
  }

  /**
   A candidate can be given `k` units of a need exactly when the need is of its own case and due no earlier than
   it arrives, neither is smaller than `k`, and every resource it draws on has what it would take: `k` units, or
   all of it when it cannot be sized.
   */
  lemma CoverableExactly(problem: Problem, a: Candidate, n: Need, k: int)
    requires Valid(problem) && a in problem.candidates && n in problem.needs
    ensures (exists p :: Feasible(problem, p) && Covers(problem, p, a, n, k)) <==>
      && n.caseId == a.caseId && a.arrival <= n.due && 0 < k <= n.quantity && k <= a.maxQuantity
      && forall c :: c in problem.capacities && c.resource in a.resources ==>
           (if a.sizeable then k else a.maxQuantity) <= c.quantity
  {
    if p :| Feasible(problem, p) && Covers(problem, p, a, n, k) {
      CoveredMeets(problem, p, a, n, k);
    }
    if n.caseId == a.caseId && a.arrival <= n.due && 0 < k <= n.quantity && k <= a.maxQuantity
       && (forall c :: c in problem.capacities && c.resource in a.resources ==>
             (if a.sizeable then k else a.maxQuantity) <= c.quantity)
    {
      var size := if a.sizeable then k else a.maxQuantity;
      var p := Lone(a, size, n, k);
      LoneFeasible(problem, a, size, n, k);
      ChosenReported(problem.candidates, problem.needs, p, a);
      CoverListed(a, problem.needs, p);
      assert (n.id, k) in AllocationOf(a, problem.needs, p).covered;
      assert Covers(problem, p, a, n, k);
    }
  }

  lemma SameId(problem: Problem, a: Candidate, b: Candidate, n: Need, m: Need)
    requires Valid(problem) && a in problem.candidates && b in problem.candidates
    requires n in problem.needs && m in problem.needs
    ensures (a.id == b.id ==> a == b) && (n.id == m.id ==> n == m)
  {
    hide ValidCandidate;
    var i :| 0 <= i < |problem.candidates| && problem.candidates[i] == a;
    var j :| 0 <= j < |problem.candidates| && problem.candidates[j] == b;
    assert i < j ==> problem.candidates[i].id != problem.candidates[j].id;
    assert j < i ==> problem.candidates[j].id != problem.candidates[i].id;
    var x :| 0 <= x < |problem.needs| && problem.needs[x] == n;
    var y :| 0 <= y < |problem.needs| && problem.needs[y] == m;
    assert x < y ==> problem.needs[x].id != problem.needs[y].id;
    assert y < x ==> problem.needs[y].id != problem.needs[x].id;
  }

  lemma CoveredMeets(problem: Problem, p: Point, a: Candidate, n: Need, k: int)
    requires Valid(problem) && a in problem.candidates && n in problem.needs
    requires Feasible(problem, p) && Covers(problem, p, a, n, k)
    ensures n.caseId == a.caseId && a.arrival <= n.due && 0 < k <= n.quantity && k <= a.maxQuantity
    ensures forall c :: c in problem.capacities && c.resource in a.resources ==>
      (if a.sizeable then k else a.maxQuantity) <= c.quantity
  {
    hide UniqueNeeds, UniqueCandidates, ValidCandidate, Used, ChosenIn, CoveredNeed, CoverOf, Valid, Balanced;
    var b :| b in Allocations(problem.candidates, problem.needs, p) && b.candidateId == a.id && (n.id, k) in b.covered;
    AllocationIds(problem.candidates, problem.needs, p);
    var other :| other in problem.candidates && p.chosen(other) && b == AllocationOf(other, problem.needs, p);
    SameId(problem, a, other, n, n);
    CoverListed(a, problem.needs, p);
    var m :| m in problem.needs && m.id == n.id && m.caseId == a.caseId && a.arrival <= m.due && k == p.covered(a, m);
    SameId(problem, a, a, n, m);
    assert Sized(a, p) && CoversWithin(a, problem.needs, p);
    CoverAtMost(a, problem.needs, p, n);
    forall c | c in problem.capacities && c.resource in a.resources
      ensures (if a.sizeable then k else a.maxQuantity) <= c.quantity
    {
      forall x | x in problem.candidates ensures p.quantity(x) >= 0 {
        assert Sized(x, p);
      }
      UseAtMost(problem.candidates, p, c.resource, a);
    }
  }
}
