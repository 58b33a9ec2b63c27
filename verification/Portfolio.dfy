/**
 Grouping open cases that compete for a finite resource: services/optimizer/portfolio.py.
 The portfolios are the connected components, of two cases or more, of "shares a resource".
 */
module PortfolioDetection {
  import opened Basics
  import opened Plans

  const HORIZON := 30 * 24 * 3600 * 1000000

  /** A resource key; the source spells it as one string with `#` between the fields. */
  datatype Resource =
    | Stock(material: string, plant: string)
    | Donor(material: string, plant: string)
    | Freight(supplierId: string, plant: string)
    | Partial(supplierId: string, material: string)

  datatype Entry = Entry(caseId: string, closed: bool, material: string, plant: string, candidates: seq<PlanOption>)

  datatype Portfolio = Portfolio(caseIds: seq<string>, shared: set<Resource>)

  // ----- Claims -----

  /** What one action claims for the case. */
  function Claimed(entry: Entry, action: Action): set<Resource> {
    match action
    case CreateSto(fromPlant, _, material, _, _) => {Donor(material, fromPlant)}
    case BookAirFreight(supplier, _, _, _, _) => {Freight(supplier, entry.plant), Partial(supplier, entry.material)}
    case CreatePoAlternate(supplier, _, _, _, _) => {Partial(supplier, entry.material)}
    case _ => {}
  }

  /** Only candidates that arrive within the horizon count. */
  predicate InHorizon(option: PlanOption, now: int) {
    now <= option.arrival <= now + HORIZON
  }

  /** The case's own stock, and whatever a candidate arriving within the horizon draws on. */
  ghost predicate Claims(entry: Entry, now: int, key: Resource) {
    || key == Stock(entry.material, entry.plant)
    || exists option, action :: option in entry.candidates && InHorizon(option, now)
         && action in option.actions && key in Claimed(entry, action)
  }

  /** Some candidate of the case that arrives within thirty days has this action. */
  ghost predicate Has(entry: Entry, now: int, action: Action) {
    exists option :: option in entry.candidates && now <= option.arrival <= now + 30 * 24 * 3600 * 1000000
                     && action in option.actions
  }

  /**
   A case claims its own stock; the donor's stock for each transfer; for each air freight the lane to its own plant
   and what the supplier has ready of its own material, and that too for each order with another supplier.
   */
  lemma ClaimsExactly(entry: Entry, now: int, key: Resource)
    ensures Claims(entry, now, key) <==>
      match key
      case Stock(material, plant) => material == entry.material && plant == entry.plant
      case Donor(material, plant) =>
        exists a :: Has(entry, now, a) && a.CreateSto? && a.material == material && a.fromPlant == plant
      case Freight(supplier, plant) =>
        plant == entry.plant && exists a :: Has(entry, now, a) && a.BookAirFreight? && a.supplierId == supplier
      case Partial(supplier, material) =>
        && material == entry.material
        && exists a :: Has(entry, now, a) && (a.BookAirFreight? || a.CreatePoAlternate?) && a.supplierId == supplier
  {
    if Claims(entry, now, key) && !key.Stock? {
      var option, action :| option in entry.candidates && InHorizon(option, now) && action in option.actions
        && key in Claimed(entry, action);
      assert Has(entry, now, action);
    }
    forall a | Has(entry, now, a) && key in Claimed(entry, a) ensures Claims(entry, now, key) {
      var option :| option in entry.candidates && InHorizon(option, now) && a in option.actions;
    }
  }

  /** `resources` of the source. */
  method Resources(entry: Entry, now: int) returns (keys: set<Resource>)
    ensures forall key :: key in keys <==> Claims(entry, now, key)
  {
    keys := {Stock(entry.material, entry.plant)};
    var i := 0;
    while i < |entry.candidates|
      invariant 0 <= i <= |entry.candidates|
      invariant Stock(entry.material, entry.plant) in keys
      invariant forall key :: key in keys ==> Claims(entry, now, key)
      invariant forall option, action ::
              option in entry.candidates[..i] && InHorizon(option, now) && action in option.actions ==>
                  Claimed(entry, action) <= keys
    {
      var option := entry.candidates[i];
      if now <= option.arrival <= now + HORIZON {
        var j := 0;
        while j < |option.actions|
          invariant 0 <= j <= |option.actions|
          invariant Stock(entry.material, entry.plant) in keys
          invariant forall key :: key in keys ==> Claims(entry, now, key)
          invariant forall other, action ::
                  other in entry.candidates[..i] && InHorizon(other, now) && action in other.actions ==>
                      Claimed(entry, action) <= keys
          invariant forall action :: action in option.actions[..j] ==> Claimed(entry, action) <= keys
        {
          ghost var was := keys;
          match option.actions[j] {
            case CreateSto(fromPlant, _, material, _, _) => keys := keys + {Donor(material, fromPlant)};
            case BookAirFreight(supplier, _, _, _, _) =>
              keys := keys + {Freight(supplier, entry.plant)};
              keys := keys + {Partial(supplier, entry.material)};
            case CreatePoAlternate(supplier, _, _, _, _) => keys := keys + {Partial(supplier, entry.material)};
            case _ =>
          }
          assert keys == was + Claimed(entry, option.actions[j]);
          j := j + 1;
        }
      }
      i := i + 1;
    }
    assert entry.candidates[..i] == entry.candidates;
  }

  // ----- The graph -----

  /** The claims of every active case, by case id. */
  type ClaimTable = map<string, set<Resource>>

  predicate Overlap(claims: ClaimTable, a: string, b: string) {
    a in claims && b in claims && claims[a] * claims[b] != {}
  }

  ghost predicate IsPath(claims: ClaimTable, path: seq<string>) {
    && path != []
    && (forall i :: 0 <= i < |path| ==> path[i] in claims)
    && (forall i :: 0 <= i < |path| - 1 ==> Overlap(claims, path[i], path[i + 1]))
  }

  /** A chain of cases, each sharing a resource with the next, leads from one to the other. */
  ghost predicate Linked(claims: ClaimTable, a: string, b: string) {
    exists path :: IsPath(claims, path) && path[0] == a && path[|path| - 1] == b
  }

  lemma LinkedSelf(claims: ClaimTable, a: string)
    requires a in claims
    ensures Linked(claims, a, a)
  {
    assert IsPath(claims, [a]);
  }

  lemma LinkedStep(claims: ClaimTable, a: string, b: string, c: string)
    requires Linked(claims, a, b) && Overlap(claims, b, c)
    ensures Linked(claims, a, c)
  {
    var path :| IsPath(claims, path) && path[0] == a && path[|path| - 1] == b;
    var longer := path + [c];
    assert IsPath(claims, longer) && longer[0] == a && longer[|longer| - 1] == c;
  }

  /** A set that holds a case and every case it overlaps holds every case it is linked to. */
  lemma ClosedHoldsLinked(claims: ClaimTable, members: set<string>, a: string, b: string)
    requires a in members && Linked(claims, a, b)
    requires forall x, y :: x in members && Overlap(claims, x, y) ==> y in members
    ensures b in members
  {
    var path :| IsPath(claims, path) && path[0] == a && path[|path| - 1] == b;
    PathStays(claims, members, path, |path| - 1);
  }

  lemma {:induction false} PathStays(claims: ClaimTable, members: set<string>, path: seq<string>, i: nat)
    requires IsPath(claims, path) && path[0] in members && i < |path|
    requires forall x, y :: x in members && Overlap(claims, x, y) ==> y in members
    ensures path[i] in members
  {
    if i > 0 {
      PathStays(claims, members, path, i - 1);
      assert Overlap(claims, path[i - 1], path[i - 1 + 1]);
    }
  }

  // ----- Ids in order -----

  lemma {:induction false} HasLeast(ids: set<string>)
    requires ids != {}
    ensures exists least :: least in ids && forall id :: id in ids ==> StringLeq(least, id)
  {
    hide StringLeq;
    var any :| any in ids;
    var rest := ids - {any};
    StringLeqTotal(any, any);
    assert ids == rest + {any};
    if rest == {} {
      assert forall id :: id in ids ==> id == any;
    } else {
      HasLeast(rest);
      var least :| least in rest && forall id :: id in rest ==> StringLeq(least, id);
      StringLeqTotal(any, least);
      if StringLeq(any, least) {
        forall id | id in ids ensures StringLeq(any, id) {
          if id != any {
            StringLeqTransitive(any, least, id);
          }
        }
      } else {
        assert forall id :: id in ids ==> id == any || id in rest;
      }
    }
  }

  predicate IsLeast(ids: set<string>, least: string) {
    least in ids && forall id :: id in ids ==> StringLeq(least, id)
  }

  /** `min` of a nonempty set of ids. */
  method Least(ids: set<string>) returns (least: string)
    requires ids != {}
    ensures IsLeast(ids, least)
  {
    HasLeast(ids);
    least :| least in ids && forall id :: id in ids ==> StringLeq(least, id);
  }

  ghost predicate Ascending(ids: seq<string>) {
    forall i, j :: 0 <= i < j < |ids| ==> StringLeq(ids[i], ids[j]) && ids[i] != ids[j]
  }

  function Ids(list: seq<string>): set<string> {
    set id | id in list
  }

  /** `sorted` of a set of ids. */
  method InOrder(ids: set<string>) returns (ordered: seq<string>)
    ensures Ascending(ordered) && |ordered| == |ids| && Ids(ordered) == ids
  {
    ordered := [];
    var left := ids;
    while left != {}
      invariant left <= ids && |ordered| + |left| == |ids|
      invariant Ascending(ordered)
      invariant forall id :: id in ordered <==> id in ids - left
      invariant forall i, id :: 0 <= i < |ordered| && id in left ==> StringLeq(ordered[i], id)
      decreases |left|
    {
      var least := Least(left);
      assert forall i :: 0 <= i < |ordered| ==> ordered[i] in ids - left;
      left := left - {least};
      ordered := ordered + [least];
    }
  }

  // ----- Neighbours -----

  /** Two entries of the list, at different places, are these two cases, and they overlap. */
  ghost predicate Meets(ids: seq<string>, claims: ClaimTable, a: string, b: string) {
    && Overlap(claims, a, b)
    && exists p, q :: 0 <= p < q < |ids| && ((ids[p] == a && ids[q] == b) || (ids[p] == b && ids[q] == a))
  }

  lemma DistinctMeet(ids: seq<string>, claims: ClaimTable, a: string, b: string)
    requires a != b && a in ids && b in ids
    ensures Meets(ids, claims, a, b) <==> Overlap(claims, a, b)
  {
    var p :| 0 <= p < |ids| && ids[p] == a;
    var q :| 0 <= q < |ids| && ids[q] == b;
    if p < q {
      assert ids[p] == a && ids[q] == b;
    } else {
      assert q < p && ids[q] == b && ids[p] == a;
    }
  }

  /** The pairs the two nested loops have compared when they stand at (i, j). */
  ghost predicate Compared(p: int, q: int, i: int, j: int) {
    0 <= p < q && (p < i || (p == i && q < j))
  }

  ghost predicate MetBy(ids: seq<string>, claims: ClaimTable, a: string, b: string, i: int, j: int) {
    && Overlap(claims, a, b)
    && exists p, q ::
       Compared(p, q, i, j) && q < |ids| && ((ids[p] == a && ids[q] == b) || (ids[p] == b && ids[q] == a))
  }

  type NeighbourTable = map<string, set<string>>

  type SharedTable = map<set<string>, set<Resource>>

  ghost predicate Tables(ids: seq<string>, claims: ClaimTable, neighbours: NeighbourTable, shared: SharedTable, i: int,
                         j: int) {
    && neighbours.Keys == claims.Keys
    && (forall a, b :: a in neighbours ==> (b in neighbours[a] <==> MetBy(ids, claims, a, b, i, j)))
    && (forall a, b :: MetBy(ids, claims, a, b, i, j) ==> {a, b} in shared && shared[{a, b}] == claims[a] * claims[b])
    && (forall pair :: pair in shared ==> exists a, b :: MetBy(ids, claims, a, b, i, j) && pair == {a, b})
  }

  lemma MetNext(ids: seq<string>, claims: ClaimTable, i: int, j: int, a: string, b: string)
    requires 0 <= i < j < |ids|
    ensures MetBy(ids, claims, a, b, i, j + 1) <==>
      || MetBy(ids, claims, a, b, i, j)
      || (Overlap(claims, a, b) && ((ids[i] == a && ids[j] == b) || (ids[i] == b && ids[j] == a)))
  {
    if MetBy(ids, claims, a, b, i, j) {
      var p, q :| Compared(p, q, i, j) && q < |ids| && ((ids[p] == a && ids[q] == b) || (ids[p] == b && ids[q] == a));
      assert Compared(p, q, i, j + 1);
    }
    assert Compared(i, j, i, j + 1);
  }

  lemma MetNextRow(ids: seq<string>, claims: ClaimTable, i: int, a: string, b: string)
    requires 0 <= i < |ids|
    ensures MetBy(ids, claims, a, b, i, |ids|) <==> MetBy(ids, claims, a, b, i + 1, i + 2)
  {
    forall p, q ensures Compared(p, q, i, |ids|) && q < |ids| <==> Compared(p, q, i + 1, i + 2) && q < |ids| {
    }
  }

  /** The pair at (i, j) meets just its two cases. */
  lemma MetNextIs(ids: seq<string>, claims: ClaimTable, i: int, j: int)
    requires 0 <= i < j < |ids|
    ensures forall a, b :: MetBy(ids, claims, a, b, i, j + 1) <==>
      || MetBy(ids, claims, a, b, i, j)
      || (Overlap(claims, a, b) && {a, b} == {ids[i], ids[j]})
  {
    forall a, b ensures MetBy(ids, claims, a, b, i, j + 1) <==>
      || MetBy(ids, claims, a, b, i, j)
      || (Overlap(claims, a, b) && {a, b} == {ids[i], ids[j]})
    {
      MetNext(ids, claims, i, j, a, b);
      SamePair(a, b, ids[i], ids[j]);
    }
  }

  lemma MetKnown(ids: seq<string>, claims: ClaimTable, a: string, b: string, i: int, j: int)
    requires MetBy(ids, claims, a, b, i, j)
    ensures a in claims && b in claims
  {
  }

  lemma SamePair(a: string, b: string, x: string, y: string)
    ensures {a, b} == {x, y} <==> (a == x && b == y) || (a == y && b == x)
  {
    if {a, b} == {x, y} {
      assert a in {x, y} && b in {x, y} && x in {a, b} && y in {a, b};
    }
  }

  /** The tables when the pair at (i, j) shares nothing. */
  lemma TablesSkip(ids: seq<string>, claims: ClaimTable, neighbours: NeighbourTable, shared: SharedTable, i: int,
                   j: int)
    requires 0 <= i < j < |ids| && ids[i] in claims && ids[j] in claims
    requires Tables(ids, claims, neighbours, shared, i, j) && claims[ids[i]] * claims[ids[j]] == {}
    ensures Tables(ids, claims, neighbours, shared, i, j + 1)
  {
    hide MetBy;
    MetNextIs(ids, claims, i, j);
    forall a, b ensures MetBy(ids, claims, a, b, i, j + 1) <==> MetBy(ids, claims, a, b, i, j) {
      SamePair(a, b, ids[i], ids[j]);
      assert claims[ids[j]] * claims[ids[i]] == claims[ids[i]] * claims[ids[j]];
    }
  }

  /** The tables when it shares something. */
  lemma TablesLink(ids: seq<string>, claims: ClaimTable, neighbours: NeighbourTable, shared: SharedTable, i: int,
                   j: int)
    requires 0 <= i < j < |ids| && ids[i] in claims && ids[j] in claims
    requires Tables(ids, claims, neighbours, shared, i, j) && claims[ids[i]] * claims[ids[j]] != {}
    ensures Tables(ids, claims, Linking(neighbours, ids[i], ids[j]),
                   shared[{ids[i], ids[j]} := claims[ids[i]] * claims[ids[j]]], i, j + 1)
  {
    hide MetBy;
    var x, y := ids[i], ids[j];
    assert claims[y] * claims[x] == claims[x] * claims[y];
    MetNextIs(ids, claims, i, j);
    var linked, more := Linking(neighbours, x, y), shared[{x, y} := claims[x] * claims[y]];
    forall a, b | a in linked ensures b in linked[a] <==> MetBy(ids, claims, a, b, i, j + 1) {
      SamePair(a, b, x, y);
    }
    forall a, b | MetBy(ids, claims, a, b, i, j + 1)
      ensures a in claims && b in claims && {a, b} in more && more[{a, b}] == claims[a] * claims[b]
    {
      MetKnown(ids, claims, a, b, i, j + 1);
      SamePair(a, b, x, y);
    }
    assert MetBy(ids, claims, x, y, i, j + 1);
  }

  /** Make two cases neighbours. */
  function Linking(neighbours: NeighbourTable, a: string, b: string): NeighbourTable
    requires a in neighbours && b in neighbours
  {
    var once := neighbours[a := neighbours[a] + {b}];
    once[b := once[b] + {a}]
  }

  /** The two nested loops over the active cases. */
  method Compare(ids: seq<string>, claims: ClaimTable) returns (neighbours: NeighbourTable, shared: SharedTable)
    requires forall id :: id in ids <==> id in claims
    ensures neighbours.Keys == claims.Keys
    ensures forall a, b :: a in neighbours ==> (b in neighbours[a] <==> Meets(ids, claims, a, b))
    ensures forall a, b :: Meets(ids, claims, a, b) ==> {a, b} in shared && shared[{a, b}] == claims[a] * claims[b]
    ensures forall pair :: pair in shared ==> exists a, b :: Meets(ids, claims, a, b) && pair == {a, b}
  {
    hide MetBy;
    neighbours, shared := map id | id in claims :: {}, map[];
    NothingMet(ids, claims);
    var i := 0;
    while i < |ids|
      invariant 0 <= i <= |ids|
      invariant Tables(ids, claims, neighbours, shared, i, i + 1)
    {
      var j := i + 1;
      while j < |ids|
        invariant i < j <= |ids|
        invariant Tables(ids, claims, neighbours, shared, i, j)
      {
        assert ids[i] in ids && ids[j] in ids;
        var overlap := claims[ids[i]] * claims[ids[j]];
        if overlap == {} {
          TablesSkip(ids, claims, neighbours, shared, i, j);
        } else {
          TablesLink(ids, claims, neighbours, shared, i, j);
          neighbours := Linking(neighbours, ids[i], ids[j]);
          shared := shared[{ids[i], ids[j]} := overlap];
        }
        j := j + 1;
      }
      TablesNextRow(ids, claims, neighbours, shared, i);
      i := i + 1;
    }
    AllMet(ids, claims);
  }

  lemma NothingMet(ids: seq<string>, claims: ClaimTable)
    ensures forall a, b :: !MetBy(ids, claims, a, b, 0, 1)
  {
  }

  lemma AllMet(ids: seq<string>, claims: ClaimTable)
    ensures forall a, b :: MetBy(ids, claims, a, b, |ids|, |ids| + 1) <==> Meets(ids, claims, a, b)
  {
    forall a, b ensures MetBy(ids, claims, a, b, |ids|, |ids| + 1) <==> Meets(ids, claims, a, b) {
      if Meets(ids, claims, a, b) {
        var p, q :| 0 <= p < q < |ids| && ((ids[p] == a && ids[q] == b) || (ids[p] == b && ids[q] == a));
        assert Compared(p, q, |ids|, |ids| + 1);
      }
    }
  }

  lemma TablesNextRow(ids: seq<string>, claims: ClaimTable, neighbours: NeighbourTable, shared: SharedTable, i: int)
    requires 0 <= i < |ids| && Tables(ids, claims, neighbours, shared, i, |ids|)
    ensures Tables(ids, claims, neighbours, shared, i + 1, i + 2)
  {
    hide MetBy;
    forall a, b ensures MetBy(ids, claims, a, b, i, |ids|) <==> MetBy(ids, claims, a, b, i + 1, i + 2) {
      MetNextRow(ids, claims, i, a, b);
    }
  }

  // ----- Components -----

  /** `neighbours` says which other cases overlap a case; a case may be listed as its own neighbour. */
  ghost predicate Describes(neighbours: NeighbourTable, claims: ClaimTable) {
    && neighbours.Keys == claims.Keys
    && forall a, b :: a in neighbours && a != b ==> (b in neighbours[a] <==> Overlap(claims, a, b))
  }

  /** Every case linked to a member is a member. */
  ghost predicate Closed(claims: ClaimTable, members: set<string>) {
    forall x, y :: x in members && Overlap(claims, x, y) ==> y in members
  }

  /** The loop over the newly met neighbours of one case. */
  method Discover(found: seq<string>, component0: set<string>, unseen0: set<string>, pending0: seq<string>)
    returns (component: set<string>, unseen: set<string>, pending: seq<string>)
    ensures component == component0 + Ids(found) && unseen == unseen0 - Ids(found)
    ensures pending == pending0 + found
  {
    component, unseen, pending := component0, unseen0, pending0;
    for k := 0 to |found|
      invariant component == component0 + Ids(found[..k])
      invariant unseen == unseen0 - Ids(found[..k])
      invariant pending == pending0 + found[..k]
    {
      unseen := unseen - {found[k]};
      component := component + {found[k]};
      pending := pending + [found[k]];
      assert found[..k + 1] == found[..k] + [found[k]];
    }
    assert found[..|found|] == found;
  }

  /** Whatever a member overlaps is a member, unless the member still waits in the worklist. */
  ghost predicate Frontier(claims: ClaimTable, component: set<string>, pending: seq<string>) {
    forall x, y :: x in component && x !in pending && Overlap(claims, x, y) ==> y in component
  }

  lemma FrontierStep(neighbours: NeighbourTable, claims: ClaimTable, component: set<string>, unseen: set<string>,
                     rest: seq<string>, node: string, found: seq<string>)
    requires Describes(neighbours, claims) && component + unseen <= claims.Keys && node in component
    requires Closed(claims, component + unseen) && Frontier(claims, component, rest + [node])
    requires Ids(found) == neighbours[node] * unseen
    ensures Frontier(claims, component + Ids(found), rest + found)
  {
    var grown := component + Ids(found);
    forall x, y | x in grown && x !in rest + found && Overlap(claims, x, y) ensures y in grown {
      assert x !in found && x in component && (x != node ==> x !in rest + [node]);
      assert y in component + unseen;
    }
  }

  /** What the worklist keeps: the component so far is linked to the root, the rest is unseen. */
  ghost predicate Searching(claims: ClaimTable, before: set<string>, root: string,
                            component: set<string>, unseen: set<string>, pending: seq<string>) {
    && component + unseen == before && component !! unseen && root in component
    && Ids(pending) <= component
    && (forall id :: id in component ==> Linked(claims, root, id))
    && Frontier(claims, component, pending)
  }

  lemma SearchStep(neighbours: NeighbourTable, claims: ClaimTable, before: set<string>, root: string,
                   component: set<string>, unseen: set<string>, rest: seq<string>, node: string, found: seq<string>)
    requires Describes(neighbours, claims) && before <= claims.Keys && Closed(claims, before)
    requires Searching(claims, before, root, component, unseen, rest + [node]) && node in component
    requires Ids(found) == neighbours[node] * unseen
    ensures Searching(claims, before, root, component + Ids(found), unseen - Ids(found), rest + found)
  {
    hide Frontier, Linked, Closed;
    FrontierStep(neighbours, claims, component, unseen, rest, node, found);
    forall y | y in Ids(found) ensures Linked(claims, root, y) {
      NeighbourOverlaps(neighbours, claims, node, y);
      LinkedStep(claims, root, node, y);
    }
    forall id | id in Ids(rest + found) ensures id in component + Ids(found) {
      assert id in rest || id in found;
      assert id in rest ==> id in Ids(rest + [node]);
    }
  }

  lemma SearchDone(claims: ClaimTable, before: set<string>, root: string, component: set<string>, unseen: set<string>)
    requires Searching(claims, before, root, component, unseen, [])
    ensures forall id :: id in component <==> Linked(claims, root, id)
    ensures Closed(claims, component)
  {
    hide Linked;
    forall id | Linked(claims, root, id) ensures id in component {
      ClosedHoldsLinked(claims, component, root, id);
    }
  }

  /** The inner worklist: everything linked to the root moves from `unseen` to the component. */
  method Component(neighbours: NeighbourTable, claims: ClaimTable, before: set<string>, root: string)
    returns (component: set<string>, unseen: set<string>)
    requires Describes(neighbours, claims) && before <= claims.Keys && root in before
    requires Closed(claims, before)
    ensures component + unseen == before && component !! unseen && root in component
    ensures forall id :: id in component <==> Linked(claims, root, id)
    ensures Closed(claims, component)
  {
    component, unseen := {root}, before - {root};
    var pending := [root];
    LinkedSelf(claims, root);
    assert Searching(claims, before, root, component, unseen, pending);
    hide Describes, Closed, Searching, Linked;
    while pending != []
      invariant Searching(claims, before, root, component, unseen, pending)
      decreases |unseen|, |pending|
    {
      var node := pending[|pending| - 1];
      var rest := pending[..|pending| - 1];
      assert pending == rest + [node];
      NodeKnown(neighbours, claims, before, root, component, unseen, rest, node);
      var found := InOrder(neighbours[node] * unseen);
      SearchStep(neighbours, claims, before, root, component, unseen, rest, node, found);
      FewerUnseen(unseen, found);
      component, unseen, pending := Discover(found, component, unseen, rest);
    }
    SearchDone(claims, before, root, component, unseen);
    assert component + unseen == before && component !! unseen && root in component by {
      SearchParts(claims, before, root, component, unseen, []);
    }
  }

  lemma SearchParts(claims: ClaimTable, before: set<string>, root: string, component: set<string>, unseen: set<string>,
                    pending: seq<string>)
    requires Searching(claims, before, root, component, unseen, pending)
    ensures component + unseen == before && component !! unseen && root in component
  {
  }

  lemma NodeKnown(neighbours: NeighbourTable, claims: ClaimTable, before: set<string>, root: string,
                  component: set<string>, unseen: set<string>, rest: seq<string>, node: string)
    requires Describes(neighbours, claims) && before <= claims.Keys
    requires Searching(claims, before, root, component, unseen, rest + [node])
    ensures node in component && node in neighbours
  {
    assert node in Ids(rest + [node]);
  }

  lemma FewerUnseen(unseen: set<string>, found: seq<string>)
    requires Ids(found) <= unseen
    ensures if found == [] then unseen - Ids(found) == unseen else |unseen - Ids(found)| < |unseen|
  {
    if found != [] {
      assert found[0] in Ids(found);
      SmallerSet(unseen - Ids(found), unseen);
    }
  }

  lemma NeighbourOverlaps(neighbours: NeighbourTable, claims: ClaimTable, a: string, b: string)
    requires Describes(neighbours, claims) && a in neighbours && b in neighbours[a] && a != b
    ensures Overlap(claims, a, b)
  {
  }

  lemma SmallerSet(a: set<string>, b: set<string>)
    requires a < b
    ensures |a| < |b|
  {
    var x :| x in b && x !in a;
    SubsetSize(a, b - {x});
  }

  lemma {:induction false} SubsetSize(a: set<string>, b: set<string>)
    requires a <= b
    ensures |a| <= |b|
  {
    if a != {} {
      var x :| x in a;
      SubsetSize(a - {x}, b - {x});
    }
  }

  // ----- Portfolios -----

  /** What the members of a component share in pairs. */
  ghost predicate SharedWithin(ids: seq<string>, claims: ClaimTable, members: set<string>, key: Resource) {
    exists a, b :: a in members && b in members && Meets(ids, claims, a, b) && key in claims[a] && key in claims[b]
  }

  /** Two cases or more, in order: exactly the cases linked to any one of them. */
  ghost predicate IsPortfolio(ids: seq<string>, claims: ClaimTable, portfolio: Portfolio) {
    && |portfolio.caseIds| > 1 && Ascending(portfolio.caseIds)
    && (forall a :: a in portfolio.caseIds ==> a in claims)
    && (forall a, b :: a in portfolio.caseIds ==> (b in portfolio.caseIds <==> Linked(claims, a, b)))
    && (forall key :: key in portfolio.shared <==> SharedWithin(ids, claims, Ids(portfolio.caseIds), key))
  }

  /** The portfolio's first case comes no later than this one. */
  ghost predicate StartsBy(portfolio: Portfolio, id: string) {
    portfolio.caseIds != [] && StringLeq(portfolio.caseIds[0], id)
  }

  /** All portfolios: every case linked to another one is in one, no two overlap, and they are in order. */
  ghost predicate ArePortfolios(ids: seq<string>, claims: ClaimTable, portfolios: seq<Portfolio>) {
    && (forall k :: 0 <= k < |portfolios| ==> IsPortfolio(ids, claims, portfolios[k]))
    && (forall k, l :: 0 <= k < l < |portfolios| ==> Ids(portfolios[k].caseIds) !! Ids(portfolios[l].caseIds))
    && (forall a, b :: a != b && Linked(claims, a, b) ==>
          exists k :: 0 <= k < |portfolios| && a in portfolios[k].caseIds && b in portfolios[k].caseIds)
    && (forall k, l :: 0 <= k < l < |portfolios| ==> forall id :: id in portfolios[l].caseIds ==>
       StartsBy(portfolios[k], id))
  }

  lemma OverlapSymmetric(claims: ClaimTable, a: string, b: string)
    requires Overlap(claims, a, b)
    ensures Overlap(claims, b, a)
  {
    var key :| key in claims[a] * claims[b];
    assert key in claims[b] * claims[a];
  }

  lemma LinkedBack(claims: ClaimTable, a: string, b: string)
    requires Linked(claims, a, b)
    ensures Linked(claims, b, a)
  {
    var path :| IsPath(claims, path) && path[0] == a && path[|path| - 1] == b;
    var back := seq(|path|, i requires 0 <= i < |path| => path[|path| - 1 - i]);
    forall i | 0 <= i < |back| - 1 ensures Overlap(claims, back[i], back[i + 1]) {
      assert Overlap(claims, path[|path| - 2 - i], path[|path| - 2 - i + 1]);
      OverlapSymmetric(claims, path[|path| - 2 - i], path[|path| - 1 - i]);
    }
    assert IsPath(claims, back) && back[0] == b && back[|back| - 1] == a;
  }

  lemma LinkedJoin(claims: ClaimTable, a: string, b: string, c: string)
    requires Linked(claims, a, b) && Linked(claims, b, c)
    ensures Linked(claims, a, c)
  {
    var p :| IsPath(claims, p) && p[0] == a && p[|p| - 1] == b;
    var q :| IsPath(claims, q) && q[0] == b && q[|q| - 1] == c;
    var path := p + q[1..];
    forall i | 0 <= i < |path| - 1 ensures Overlap(claims, path[i], path[i + 1]) {
      if i < |p| - 1 {
        assert Overlap(claims, p[i], p[i + 1]);
      } else {
        var j := i - (|p| - 1);
        assert path[i] == q[j] && path[i + 1] == q[j + 1];
        assert Overlap(claims, q[j], q[j + 1]);
      }
    }
    assert IsPath(claims, path) && path[0] == a && path[|path| - 1] == c;
  }

  /** The union of `shared` over the pairs inside a component. */
  method SharedOf(ids: seq<string>, claims: ClaimTable, shared: SharedTable, component: set<string>)
    returns (common: set<Resource>)
    requires forall a, b :: Meets(ids, claims, a, b) ==> {a, b} in shared && shared[{a, b}] == claims[a] * claims[b]
    requires forall pair :: pair in shared ==> exists a, b :: Meets(ids, claims, a, b) && pair == {a, b}
    ensures forall key :: key in common <==> SharedWithin(ids, claims, component, key)
  {
    common := set pair, key | pair in shared && pair <= component && key in shared[pair] :: key;
    forall key ensures key in common <==> SharedWithin(ids, claims, component, key) {
      if key in common {
        var pair :| pair in shared && pair <= component && key in shared[pair];
        var a, b :| Meets(ids, claims, a, b) && pair == {a, b};
        assert a in pair && b in pair;
      }
      if SharedWithin(ids, claims, component, key) {
        var a, b :| a in component && b in component && Meets(ids, claims, a, b) && key in claims[a]
          && key in claims[b];
        assert {a, b} in shared && {a, b} <= component && key in shared[{a, b}];
      }
    }
  }

  /** What the outer worklist keeps: the portfolios of the cases already seen. */
  ghost predicate Grouping(ids: seq<string>, claims: ClaimTable, unseen: set<string>, portfolios: seq<Portfolio>) {
    && unseen <= claims.Keys && Closed(claims, unseen)
    && (forall k :: 0 <= k < |portfolios| ==>
       IsPortfolio(ids, claims, portfolios[k]) && Ids(portfolios[k].caseIds) !! unseen)
    && (forall k, l :: 0 <= k < l < |portfolios| ==> Ids(portfolios[k].caseIds) !! Ids(portfolios[l].caseIds))
    && (forall a, b :: a in claims && a !in unseen && a != b && Linked(claims, a, b) ==>
          exists k :: 0 <= k < |portfolios| && a in portfolios[k].caseIds && b in portfolios[k].caseIds)
    && (forall k, id :: 0 <= k < |portfolios| && id in unseen ==> StartsBy(portfolios[k], id))
    && (forall k, l :: 0 <= k < l < |portfolios| ==> forall id :: id in portfolios[l].caseIds ==>
       StartsBy(portfolios[k], id))
  }

  lemma ClosedRest(claims: ClaimTable, component: set<string>, unseen: set<string>)
    requires Closed(claims, component + unseen) && Closed(claims, component) && component !! unseen
    ensures Closed(claims, unseen)
  {
    forall x, y | x in unseen && Overlap(claims, x, y) ensures y in unseen {
      OverlapSymmetric(claims, x, y);
      assert y in component + unseen;
    }
  }

  /** A component of one case is no portfolio, and leaves no link out. */
  lemma GroupSingle(ids: seq<string>, claims: ClaimTable, component: set<string>, unseen: set<string>,
                    portfolios: seq<Portfolio>, root: string)
    requires Grouping(ids, claims, component + unseen, portfolios) && component !! unseen && component == {root}
    requires Closed(claims, component) && forall id :: id in component <==> Linked(claims, root, id)
    ensures Grouping(ids, claims, unseen, portfolios)
  {
    hide Linked, IsPortfolio, Closed, StartsBy;
    ClosedRest(claims, component, unseen);
    forall a, b | a in claims && a !in unseen && a != b && Linked(claims, a, b)
      ensures exists k :: 0 <= k < |portfolios| && a in portfolios[k].caseIds && b in portfolios[k].caseIds
    {
      assert a in component ==> a == root && b in component;
    }
  }

  lemma FirstIsLeast(ordered: seq<string>, id: string)
    requires Ascending(ordered) && id in Ids(ordered)
    ensures ordered != [] && StringLeq(ordered[0], id)
  {
    var i :| 0 <= i < |ordered| && ordered[i] == id;
    StringLeqTotal(id, id);
  }

  /** A component of two cases or more, in order, is a portfolio. */
  lemma MakesPortfolio(ids: seq<string>, claims: ClaimTable, component: set<string>, root: string, portfolio: Portfolio)
    requires forall id :: id in component <==> Linked(claims, root, id)
    requires Ids(portfolio.caseIds) == component && Ascending(portfolio.caseIds) && |portfolio.caseIds| > 1
    requires component <= claims.Keys
    requires forall key :: key in portfolio.shared <==> SharedWithin(ids, claims, component, key)
    ensures IsPortfolio(ids, claims, portfolio)
  {
    hide Linked, SharedWithin, Ascending;
    forall a ensures a in portfolio.caseIds <==> a in component {
      assert a in component <==> a in Ids(portfolio.caseIds);
    }
    forall a, b | a in portfolio.caseIds ensures b in portfolio.caseIds <==> Linked(claims, a, b) {
      LinkedBack(claims, root, a);
      if b in component {
        LinkedJoin(claims, a, root, b);
      }
      if Linked(claims, a, b) {
        LinkedJoin(claims, root, a, b);
      }
    }
  }

  lemma GroupPortfolio(ids: seq<string>, claims: ClaimTable, component: set<string>, unseen: set<string>,
                       portfolios: seq<Portfolio>, root: string, portfolio: Portfolio)
    requires Grouping(ids, claims, component + unseen, portfolios) && component !! unseen
    requires IsLeast(component + unseen, root) && root in component
    requires Closed(claims, component) && forall id :: id in component <==> Linked(claims, root, id)
    requires IsPortfolio(ids, claims, portfolio) && Ids(portfolio.caseIds) == component && Ascending(portfolio.caseIds)
    ensures Grouping(ids, claims, unseen, portfolios + [portfolio])
  {
    hide Linked, Closed, IsPortfolio;
    ClosedRest(claims, component, unseen);
    forall id | id in unseen ensures StartsBy(portfolio, id) {
      FirstIsLeast(portfolio.caseIds, root);
      StringLeqTransitive(portfolio.caseIds[0], root, id);
    }
    hide Ascending, StartsBy;
    var more := portfolios + [portfolio];
    assert forall id :: id in portfolio.caseIds ==> id in Ids(portfolio.caseIds);
    forall k, l | 0 <= k < l < |more| ensures Ids(more[k].caseIds) !! Ids(more[l].caseIds) {
      assert Ids(more[k].caseIds) !! component + unseen;
    }
    forall a, b | a in claims && a !in unseen && a != b && Linked(claims, a, b)
      ensures exists k :: 0 <= k < |more| && a in more[k].caseIds && b in more[k].caseIds
    {
      if a in component {
        LinkedJoin(claims, root, a, b);
        assert more[|portfolios|] == portfolio;
        assert a in Ids(portfolio.caseIds) && b in Ids(portfolio.caseIds);
      } else {
        var k :| 0 <= k < |portfolios| && a in portfolios[k].caseIds && b in portfolios[k].caseIds;
        assert more[k] == portfolios[k];
      }
    }
  }

  /** The components of the active cases: the part of `detect` after the claims are known. */
  method Group(ids: seq<string>, claims: ClaimTable) returns (portfolios: seq<Portfolio>)
    requires forall id :: id in ids <==> id in claims
    ensures ArePortfolios(ids, claims, portfolios)
  {
    var neighbours, shared := Compare(ids, claims);
    forall a, b | a in neighbours && a != b ensures b in neighbours[a] <==> Overlap(claims, a, b) {
      if Overlap(claims, a, b) {
        DistinctMeet(ids, claims, a, b);
      }
    }
    assert Describes(neighbours, claims);
    portfolios := [];
    var unseen := claims.Keys;
    assert Grouping(ids, claims, unseen, portfolios);
    hide Meets, Linked, Describes, Closed, IsPortfolio, SharedWithin, Ascending, StartsBy;
    while unseen != {}
      invariant Grouping(ids, claims, unseen, portfolios)
      decreases |unseen|
    {
      var root := Least(unseen);
      var component, rest := Component(neighbours, claims, unseen, root);
      SmallerSet(rest, unseen);
      if |component| > 1 {
        var common := SharedOf(ids, claims, shared, component);
        var members := InOrder(component);
        MakesPortfolio(ids, claims, component, root, Portfolio(members, common));
        GroupPortfolio(ids, claims, component, rest, portfolios, root, Portfolio(members, common));
        portfolios := portfolios + [Portfolio(members, common)];
      } else {
        OnlyOne(component, root);
        GroupSingle(ids, claims, component, rest, portfolios, root);
      }
      unseen := rest;
    }
    LinkedKnown(claims);
  }

  lemma LinkedKnown(claims: ClaimTable)
    ensures forall a, b :: Linked(claims, a, b) ==> a in claims
  {
  }

  predicate ById(a: Entry, b: Entry) {
    StringLeq(a.caseId, b.caseId)
  }

  /** The open cases in id order. */
  function Active(entries: seq<Entry>): seq<Entry> {
    Sorted(ById, Filter((e: Entry) => !e.closed, entries))
  }

  /** The active cases are those not closed, as often as they are there, by id. */
  lemma ActiveExactly(entries: seq<Entry>, entry: Entry)
    ensures multiset(Active(entries))[entry] == if entry.closed then 0 else multiset(entries)[entry]
    ensures forall i, j :: 0 <= i < j < |Active(entries)| ==>
      StringLeq(Active(entries)[i].caseId, Active(entries)[j].caseId)
  {
    hide StringLeq, Sorted, Filter;
    var open := Filter((e: Entry) => !e.closed, entries);
    FilterCounts((e: Entry) => !e.closed, entries, entry);
    SortedPermutes(ById, open);
    forall x: Entry, y: Entry ensures ById(x, y) || ById(y, x) {
      StringLeqTotal(x.caseId, y.caseId);
    }
    forall x: Entry, y: Entry, z: Entry | ById(x, y) && ById(y, z) ensures ById(x, z) {
      StringLeqTransitive(x.caseId, y.caseId, z.caseId);
    }
    SortedOrdered(ById, open);
    forall i, j | 0 <= i < j < |Active(entries)|
      ensures StringLeq(Active(entries)[i].caseId, Active(entries)[j].caseId)
    {
      assert ById(Active(entries)[i], Active(entries)[j]);
    }
  }

  function CaseIds(entries: seq<Entry>): (ids: seq<string>)
    ensures |ids| == |entries| && forall i :: 0 <= i < |ids| ==> ids[i] == entries[i].caseId
  {
    seq(|entries|, i requires 0 <= i < |entries| => entries[i].caseId)
  }

  /** The `i`-th of the first `n` entries is the last of them with this id. */
  ghost predicate LastOf(active: seq<Entry>, n: int, i: int, id: string) {
    0 <= i < n <= |active| && active[i].caseId == id && forall j :: i < j < n ==> active[j].caseId != id
  }

  /** The claims of each of the first `n` cases; of two entries with one id the later counts, as in a dictionary. */
  ghost predicate AreClaims(active: seq<Entry>, n: int, now: int, claims: ClaimTable) {
    && (forall id :: id in claims ==> exists i :: LastOf(active, n, i, id))
    && (forall i, id :: LastOf(active, n, i, id) ==>
          id in claims && forall key :: key in claims[id] <==> Claims(active[i], now, key))
  }

  lemma ClaimsNext(active: seq<Entry>, n: int, now: int, claims: ClaimTable, keys: set<Resource>)
    requires 0 <= n < |active| && AreClaims(active, n, now, claims)
    requires forall key :: key in keys <==> Claims(active[n], now, key)
    ensures AreClaims(active, n + 1, now, claims[active[n].caseId := keys])
  {
    hide Claims;
    var more, m := claims[active[n].caseId := keys], n + 1;
    assert LastOf(active, m, n, active[n].caseId);
    forall i, id | LastOf(active, m, i, id)
      ensures id in more && forall key :: key in more[id] <==> Claims(active[i], now, key)
    {
      if i < n {
        assert LastOf(active, n, i, id);
        assert active[n].caseId != id;
      }
    }
    forall id | id in more ensures exists i :: LastOf(active, m, i, id) {
      if id != active[n].caseId {
        var i :| LastOf(active, n, i, id);
        assert LastOf(active, m, i, id);
      }
    }
  }

  lemma ClaimedIds(active: seq<Entry>, now: int, claims: ClaimTable)
    requires AreClaims(active, |active|, now, claims)
    ensures forall id :: id in CaseIds(active) <==> id in claims
  {
    hide Claims;
    forall id | id in CaseIds(active) ensures id in claims {
      var i :| 0 <= i < |active| && active[i].caseId == id;
      LastExists(active, i);
      var last :| LastOf(active, |active|, last, id);
    }
    forall id | id in claims ensures id in CaseIds(active) {
      var i :| LastOf(active, |active|, i, id);
      assert CaseIds(active)[i] == id;
    }
  }

  lemma LastExists(active: seq<Entry>, i: int)
    requires 0 <= i < |active|
    ensures exists last :: LastOf(active, |active|, last, active[i].caseId)
    decreases |active| - i
  {
    if j :| i < j < |active| && active[j].caseId == active[i].caseId {
      LastExists(active, j);
    } else {
      assert LastOf(active, |active|, i, active[i].caseId);
    }
  }

  /** `detect` of the source. */
  method Detect(entries: seq<Entry>, now: int) returns (claims: ClaimTable, portfolios: seq<Portfolio>)
    ensures AreClaims(Active(entries), |Active(entries)|, now, claims)
    ensures ArePortfolios(CaseIds(Active(entries)), claims, portfolios)
  {
    hide ArePortfolios, Claims, Active;
    var active := Active(entries);
    claims := map[];
    for i := 0 to |active|
      invariant AreClaims(active, i, now, claims)
    {
      var keys := Resources(active[i], now);
      ClaimsNext(active, i, now, claims, keys);
      claims := claims[active[i].caseId := keys];
    }
    ClaimedIds(active, now, claims);
    portfolios := Group(CaseIds(active), claims);
  }

  // ----- What the grouping buys -----

  /** Two portfolios never claim a common resource. */
  lemma PortfoliosShareNothing(ids: seq<string>, claims: ClaimTable, portfolios: seq<Portfolio>, k: nat, l: nat,
                               a: string, b: string)
    requires ArePortfolios(ids, claims, portfolios) && k < |portfolios| && l < |portfolios| && k != l
    requires a in portfolios[k].caseIds && b in portfolios[l].caseIds
    ensures a in claims && b in claims && claims[a] * claims[b] == {}
  {
    assert IsPortfolio(ids, claims, portfolios[k]) && IsPortfolio(ids, claims, portfolios[l]);
    assert b in Ids(portfolios[l].caseIds) && (k < l || l < k);
    assert b !in Ids(portfolios[k].caseIds);
    LinkedSelf(claims, a);
    if Overlap(claims, a, b) {
      LinkedStep(claims, a, a, b);
    }
  }

  /** A case outside every portfolio competes with no other case. */
  lemma OutsidersCompeteWithNobody(ids: seq<string>, claims: ClaimTable, portfolios: seq<Portfolio>, a: string,
                                   b: string)
    requires ArePortfolios(ids, claims, portfolios) && a in claims && b in claims && a != b
    requires forall k :: 0 <= k < |portfolios| ==> a !in portfolios[k].caseIds
    ensures claims[a] * claims[b] == {}
  {
    if claims[a] * claims[b] != {} {
      LinkedSelf(claims, a);
      LinkedStep(claims, a, a, b);
    }
  }
}
