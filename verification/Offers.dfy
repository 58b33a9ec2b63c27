/**
 What the cases of a portfolio may be allocated, and when portfolios can be solved apart: `_resources` of
 services/optimizer/runtime.py against `resources` of services/optimizer/portfolio.py.
 */
module PortfolioOffers {
  import opened Basics
  import opened Plans
  import opened PortfolioDetection

  // ----- What an option draws on -----

  /** Freight needs a rate for the lane on the day and a confirmed partial; a new supplier has no capacity at all. */
  predicate Unsourced(entry: Entry, arrival: int, freight: (string, string, int) -> bool, partial: bool,
                      action: Action) {
    action.CreatePoAlternate?
      || (action.BookAirFreight? && !(partial && freight(action.supplierId, entry.plant, arrival)))
  }

  /** Some of these actions draws on the resource. */
  predicate DrawOn(entry: Entry, actions: seq<Action>, key: Resource) {
    exists action <- actions :: key in Claimed(entry, action)
  }

  lemma DrawOnSnoc(entry: Entry, actions: seq<Action>, action: Action, key: Resource)
    ensures DrawOn(entry, actions + [action], key) <==> DrawOn(entry, actions, key) || key in Claimed(entry, action)
  {
    assert action in actions + [action];
    assert forall other :: other in actions + [action] <==> other in actions || other == action;
  }

  /** `_resources` of the source: the keys of one option, or None when one of its actions has no sourced capacity. */
  method ResourcesOf(entry: Entry, option: PlanOption, freight: (string, string, int) -> bool, partial: bool)
    returns (keys: Option<seq<Resource>>)
    ensures keys.None? <==>
              exists action :: action in option.actions && Unsourced(entry, option.arrival, freight, partial, action)
    ensures keys.Some? ==> forall key :: key in keys.value <==> DrawOn(entry, option.actions, key)
  {
    var found: seq<Resource> := [];
    var i := 0;
    while i < |option.actions|
      invariant 0 <= i <= |option.actions|
      invariant forall action :: action in option.actions[..i] ==>
                  !Unsourced(entry, option.arrival, freight, partial, action)
      invariant forall key :: key in found <==> DrawOn(entry, option.actions[..i], key)
    {
      var action := option.actions[i];
      assert option.actions[..i + 1] == option.actions[..i] + [action];
      forall key ensures DrawOn(entry, option.actions[..i + 1], key)
                         <==> DrawOn(entry, option.actions[..i], key) || key in Claimed(entry, action) {
        DrawOnSnoc(entry, option.actions[..i], action, key);
      }
      if action.CreateSto? {
        var donor := Donor(action.material, action.fromPlant);
        if donor !in found {
          found := found + [donor];
        }
      } else if action.BookAirFreight? {
        if !freight(action.supplierId, entry.plant, option.arrival) || !partial {
          assert action in option.actions;
          return None;
        }
        found := found + [Freight(action.supplierId, entry.plant)];
        var ready := Partial(action.supplierId, entry.material);
        if ready !in found {
          found := found + [ready];
        }
      } else if action.CreatePoAlternate? {
        assert action in option.actions;
        return None;
      }
      i := i + 1;
    }
    assert option.actions[..i] == option.actions;
    keys := Some(found);
  }

  /** The case offers the key to the solver; `candidate` says which options are sourced, priced and not ruled out. */
  ghost predicate Offers(entry: Entry, candidate: (Entry, PlanOption) -> bool, key: Resource) {
    exists option :: option in entry.candidates && candidate(entry, option) && DrawOn(entry, option.actions, key)
  }

  /** Offered, but only by options that arrive outside the horizon, so that detection did not see it. */
  ghost predicate Stray(entry: Entry, candidate: (Entry, PlanOption) -> bool, now: int, key: Resource) {
    Offers(entry, candidate, key) && !Claims(entry, now, key)
  }

  /** A case whose options all arrive within the horizon has no stray offers. */
  lemma WithinHorizonNothingStray(entry: Entry, candidate: (Entry, PlanOption) -> bool, now: int, key: Resource)
    requires forall option :: option in entry.candidates && candidate(entry, option) ==> InHorizon(option, now)
    ensures !Stray(entry, candidate, now, key)
  {}

  /** A stray offer is one that every option drawing on it makes outside the horizon, and some candidate does. */
  lemma StrayIsOutsideHorizon(entry: Entry, candidate: (Entry, PlanOption) -> bool, now: int, key: Resource)
    ensures Stray(entry, candidate, now, key) <==>
      && (exists option :: option in entry.candidates && candidate(entry, option) && DrawOn(entry, option.actions, key))
      && (forall option :: option in entry.candidates && DrawOn(entry, option.actions, key) ==> !InHorizon(option, now))
  {
    if Offers(entry, candidate, key) {
      assert !key.Stock?;
    }
  }

  // ----- Solving portfolios apart -----

  /** Units of a resource the listed cases are allocated. */
  function Used(caseIds: seq<string>, use: (string, Resource) -> nat, key: Resource): nat {
    if caseIds == [] then 0 else Used(caseIds[..|caseIds| - 1], use, key) + use(caseIds[|caseIds| - 1], key)
  }

  function UsedByAll(portfolios: seq<Portfolio>, use: (string, Resource) -> nat, key: Resource): nat {
    if portfolios == [] then 0
    else UsedByAll(portfolios[..|portfolios| - 1], use, key) + Used(portfolios[|portfolios| - 1].caseIds, use, key)
  }

  /** What each case may be allocated. */
  type OfferTable = ClaimTable

  /** Units are allocated only where they are offered. */
  ghost predicate OnOffer(offers: OfferTable, use: (string, Resource) -> nat) {
    forall id, key :: use(id, key) > 0 ==> id in offers && key in offers[id]
  }

  /** Each portfolio alone respects the capacity. */
  ghost predicate FitsEach(portfolios: seq<Portfolio>, use: (string, Resource) -> nat, key: Resource, capacity: nat) {
    forall k :: 0 <= k < |portfolios| ==> Used(portfolios[k].caseIds, use, key) <= capacity
  }

  /** Some two cases of different portfolios offer the same resource. */
  ghost predicate OffersMeet(portfolios: seq<Portfolio>, offers: OfferTable, k: nat, l: nat, a: string, b: string,
                             key: Resource) {
    && k < |portfolios| && l < |portfolios| && k != l
    && a in portfolios[k].caseIds && b in portfolios[l].caseIds
    && a in offers && b in offers && key in offers[a] && key in offers[b]
  }

  lemma {:induction false} NothingUsed(offers: OfferTable, caseIds: seq<string>, use: (string, Resource) -> nat,
                                       key: Resource)
    requires OnOffer(offers, use) && forall id :: id in caseIds && id in offers ==> key !in offers[id]
    ensures Used(caseIds, use, key) == 0
  {
    if caseIds != [] {
      NothingUsed(offers, caseIds[..|caseIds| - 1], use, key);
      assert caseIds[|caseIds| - 1] in caseIds;
    }
  }

  /** The total when at most the `k`-th portfolio uses the resource. */
  lemma {:induction false} OnlyOneUses(portfolios: seq<Portfolio>, use: (string, Resource) -> nat, key: Resource,
                                       k: nat)
    requires forall l :: 0 <= l < |portfolios| && l != k ==> Used(portfolios[l].caseIds, use, key) == 0
    ensures UsedByAll(portfolios, use, key) == if k < |portfolios| then Used(portfolios[k].caseIds, use, key) else 0
  {
    if portfolios != [] {
      OnlyOneUses(portfolios[..|portfolios| - 1], use, key, k);
    }
  }

  /** With offers apart, what fits each portfolio fits them all. */
  lemma FitsTogether(portfolios: seq<Portfolio>, offers: OfferTable, use: (string, Resource) -> nat, key: Resource,
                     capacity: nat)
    requires OnOffer(offers, use) && FitsEach(portfolios, use, key, capacity)
    requires forall k: nat, l: nat, a, b :: !OffersMeet(portfolios, offers, k, l, a, b, key)
    ensures UsedByAll(portfolios, use, key) <= capacity
  {
    hide Used, UsedByAll, OnOffer;
    if k: nat, a :| k < |portfolios| && a in portfolios[k].caseIds && a in offers && key in offers[a] {
      forall l | 0 <= l < |portfolios| && l != k ensures Used(portfolios[l].caseIds, use, key) == 0 {
        forall b | b in portfolios[l].caseIds && b in offers ensures key !in offers[b] {
          assert !OffersMeet(portfolios, offers, k, l, a, b, key);
        }
        NothingUsed(offers, portfolios[l].caseIds, use, key);
      }
      OnlyOneUses(portfolios, use, key, k);
    } else {
      forall l | 0 <= l < |portfolios| ensures Used(portfolios[l].caseIds, use, key) == 0 {
        NothingUsed(offers, portfolios[l].caseIds, use, key);
      }
      OnlyOneUses(portfolios, use, key, |portfolios|);
    }
  }

  // ----- When offers meet -----

  /** One unit each for two cases. */
  function OneEach(a: string, b: string, key: Resource): (string, Resource) -> nat {
    (id: string, other: Resource) => if other == key && (id == a || id == b) then 1 else 0
  }

  lemma {:induction false} OneEachUsed(caseIds: seq<string>, a: string, b: string, key: Resource)
    requires Ascending(caseIds) && !(a in caseIds && b in caseIds)
    ensures Used(caseIds, OneEach(a, b, key), key) == if a in caseIds || b in caseIds then 1 else 0
  {
    if caseIds != [] {
      var before, last := caseIds[..|caseIds| - 1], caseIds[|caseIds| - 1];
      assert caseIds == before + [last];
      OneEachUsed(before, a, b, key);
      assert last !in before;
    }
  }

  lemma {:induction false} TwoUse(portfolios: seq<Portfolio>, use: (string, Resource) -> nat, key: Resource, k: nat,
                                  l: nat)
    requires k < |portfolios| && l < |portfolios| && k != l
    ensures UsedByAll(portfolios, use, key)
         >= Used(portfolios[k].caseIds, use, key) + Used(portfolios[l].caseIds, use, key)
  {
    var n := |portfolios| - 1;
    if k < n && l < n {
      TwoUse(portfolios[..n], use, key, k, l);
    } else {
      OneUses(portfolios[..n], use, key, if k < n then k else l);
    }
  }

  lemma {:induction false} OneUses(portfolios: seq<Portfolio>, use: (string, Resource) -> nat, key: Resource, k: nat)
    requires k < |portfolios|
    ensures UsedByAll(portfolios, use, key) >= Used(portfolios[k].caseIds, use, key)
  {
    if k < |portfolios| - 1 {
      OneUses(portfolios[..|portfolios| - 1], use, key, k);
    }
  }

  lemma CasesApart(ids: seq<string>, claims: ClaimTable, portfolios: seq<Portfolio>, k: nat, l: nat, a: string)
    requires ArePortfolios(ids, claims, portfolios) && k < |portfolios| && l < |portfolios| && k != l
    requires a in portfolios[k].caseIds
    ensures a !in portfolios[l].caseIds && Ascending(portfolios[k].caseIds)
  {
    assert IsPortfolio(ids, claims, portfolios[k]);
    assert a in Ids(portfolios[k].caseIds) && (k < l || l < k);
  }

  lemma MeetingOvercommits(ids: seq<string>, claims: ClaimTable, portfolios: seq<Portfolio>, offers: OfferTable,
                           k: nat, l: nat, a: string, b: string, key: Resource)
    requires ArePortfolios(ids, claims, portfolios) && OffersMeet(portfolios, offers, k, l, a, b, key)
    ensures var use := OneEach(a, b, key);
      OnOffer(offers, use) && FitsEach(portfolios, use, key, 1) && UsedByAll(portfolios, use, key) > 1
  {
    var use := OneEach(a, b, key);
    forall m | 0 <= m < |portfolios| ensures Used(portfolios[m].caseIds, use, key) <= 1 {
      assert IsPortfolio(ids, claims, portfolios[m]);
      CasesApart(ids, claims, portfolios, k, l, a);
      CasesApart(ids, claims, portfolios, l, k, b);
      if m != k {
        CasesApart(ids, claims, portfolios, k, m, a);
      }
      OneEachUsed(portfolios[m].caseIds, a, b, key);
    }
    CasesApart(ids, claims, portfolios, k, l, a);
    CasesApart(ids, claims, portfolios, l, k, b);
    OneEachUsed(portfolios[k].caseIds, a, b, key);
    OneEachUsed(portfolios[l].caseIds, a, b, key);
    TwoUse(portfolios, use, key, k, l);
  }

  /** Whatever the portfolios are allocated apart, within their offers and each capacity, fits all together. */
  ghost predicate SolvableApart(portfolios: seq<Portfolio>, offers: OfferTable) {
    forall use: (string, Resource) -> nat, key, capacity ::
      OnOffer(offers, use) && FitsEach(portfolios, use, key, capacity) ==> UsedByAll(portfolios, use, key) <= capacity
  }

  /** Portfolios can be solved apart exactly when no two cases of different portfolios offer the same resource. */
  lemma SolvableApartExactly(ids: seq<string>, claims: ClaimTable, portfolios: seq<Portfolio>, offers: OfferTable)
    requires ArePortfolios(ids, claims, portfolios)
    ensures SolvableApart(portfolios, offers)
            <==> forall k: nat, l: nat, a, b, key :: !OffersMeet(portfolios, offers, k, l, a, b, key)
  {
    if k: nat, l: nat, a, b, key :| OffersMeet(portfolios, offers, k, l, a, b, key) {
      MeetingOvercommits(ids, claims, portfolios, offers, k, l, a, b, key);
    } else {
      forall use: (string, Resource) -> nat, key, capacity: nat | OnOffer(offers, use)
        && FitsEach(portfolios, use, key, capacity)
        ensures UsedByAll(portfolios, use, key) <= capacity
      {
        FitsTogether(portfolios, offers, use, key, capacity);
      }
    }
  }

  // ----- What detection makes of it -----

  /** The offers of each active case; of two entries with one id the later counts. */
  ghost predicate AreOffers(active: seq<Entry>, candidate: (Entry, PlanOption) -> bool, offers: OfferTable) {
    && (forall id :: id in offers ==> exists i :: LastOf(active, |active|, i, id))
    && (forall i, id :: LastOf(active, |active|, i, id) ==>
          id in offers && forall key :: key in offers[id] <==> Offers(active[i], candidate, key))
  }

  /** A case of one portfolio offers astray what a case of another one offers. */
  ghost predicate StrayMeets(active: seq<Entry>, candidate: (Entry, PlanOption) -> bool, now: int,
                             portfolios: seq<Portfolio>,
                             k: nat, l: nat, i: int, j: int, key: Resource) {
    && k < |portfolios| && l < |portfolios| && k != l && 0 <= i < |active| && 0 <= j < |active|
    && LastOf(active, |active|, i, active[i].caseId) && LastOf(active, |active|, j, active[j].caseId)
    && active[i].caseId in portfolios[k].caseIds && active[j].caseId in portfolios[l].caseIds
    && Stray(active[i], candidate, now, key) && Offers(active[j], candidate, key)
  }

  lemma MeetingIsStray(active: seq<Entry>, now: int, candidate: (Entry, PlanOption) -> bool, claims: ClaimTable,
                       portfolios: seq<Portfolio>, offers: OfferTable, k: nat, l: nat, a: string, b: string,
                         key: Resource)
    requires AreClaims(active, |active|, now, claims) && ArePortfolios(CaseIds(active), claims, portfolios)
    requires AreOffers(active, candidate, offers) && OffersMeet(portfolios, offers, k, l, a, b, key)
    ensures exists i, j :: StrayMeets(active, candidate, now, portfolios, k, l, i, j, key)
                        || StrayMeets(active, candidate, now, portfolios, l, k, j, i, key)
  {
    hide Claims, Offers, ArePortfolios;
    var i :| LastOf(active, |active|, i, a);
    var j :| LastOf(active, |active|, j, b);
    PortfoliosShareNothing(CaseIds(active), claims, portfolios, k, l, a, b);
    assert key !in claims[a] * claims[b];
    if Claims(active[i], now, key) {
      assert StrayMeets(active, candidate, now, portfolios, l, k, j, i, key);
    } else {
      assert StrayMeets(active, candidate, now, portfolios, k, l, i, j, key);
    }
  }

  lemma StrayIsMeeting(active: seq<Entry>, now: int, candidate: (Entry, PlanOption) -> bool, portfolios: seq<Portfolio>,
                       offers: OfferTable, k: nat, l: nat, i: int, j: int, key: Resource)
    requires AreOffers(active, candidate, offers) && StrayMeets(active, candidate, now, portfolios, k, l, i, j, key)
    ensures 0 <= i < |active| && 0 <= j < |active|
    ensures OffersMeet(portfolios, offers, k, l, active[i].caseId, active[j].caseId, key)
  {
    hide Offers;
  }

  /**
   What detection grouped can be solved apart, for every capacity and every allocation within the offers,
   exactly when no case offers, by options that all arrive outside the horizon, a resource that a case of
   another portfolio offers too.
   */
  lemma SolvableApartUnlessStray(active: seq<Entry>, now: int, candidate: (Entry, PlanOption) -> bool,
                                 claims: ClaimTable,
                                 portfolios: seq<Portfolio>, offers: OfferTable)
    requires AreClaims(active, |active|, now, claims) && ArePortfolios(CaseIds(active), claims, portfolios)
    requires AreOffers(active, candidate, offers)
    ensures SolvableApart(portfolios, offers)
            <==> forall k: nat, l: nat, i, j, key :: !StrayMeets(active, candidate, now, portfolios, k, l, i, j, key)
  {
    hide AreClaims, ArePortfolios, AreOffers, StrayMeets, OffersMeet, SolvableApart;
    SolvableApartExactly(CaseIds(active), claims, portfolios, offers);
    if k: nat, l: nat, i, j, key :| StrayMeets(active, candidate, now, portfolios, k, l, i, j, key) {
      StrayIsMeeting(active, now, candidate, portfolios, offers, k, l, i, j, key);
    } else if k: nat, l: nat, a, b, key :| OffersMeet(portfolios, offers, k, l, a, b, key) {
      MeetingIsStray(active, now, candidate, claims, portfolios, offers, k, l, a, b, key);
    }
  }

  /** When every offered option arrives within the horizon, portfolios can be solved apart. */
  lemma SolvableApartWithinHorizon(active: seq<Entry>, now: int, candidate: (Entry, PlanOption) -> bool,
                                   claims: ClaimTable,
                                   portfolios: seq<Portfolio>, offers: OfferTable)
    requires AreClaims(active, |active|, now, claims) && ArePortfolios(CaseIds(active), claims, portfolios)
    requires AreOffers(active, candidate, offers)
    requires forall entry, option :: entry in active && option in entry.candidates && candidate(entry, option) ==>
               InHorizon(option, now)
    ensures SolvableApart(portfolios, offers)
  {
    hide AreClaims, ArePortfolios, AreOffers, SolvableApart, Stray, InHorizon;
    SolvableApartUnlessStray(active, now, candidate, claims, portfolios, offers);
    forall k: nat, l: nat, i, j, key ensures !StrayMeets(active, candidate, now, portfolios, k, l, i, j, key) {
      if 0 <= i < |active| {
        WithinHorizonNothingStray(active[i], candidate, now, key);
      }
    }
  }

  // ----- A donor detection does not see -----

  /** A transfer that arrives a microsecond after the horizon. */
  const LATE := PlanOption("O", [CreateSto("D", "P", "M", 5.0, 0)], HORIZON + 1, [])

  const FOUR := [Entry("a", false, "M", "P1", [LATE]), Entry("b", false, "M", "P1", [LATE]),
                 Entry("c", false, "M", "P2", [LATE]), Entry("d", false, "M", "P2", [LATE])]

  const FOUR_CLAIMS: ClaimTable :=
    map["a" := {Stock("M", "P1")}, "b" := {Stock("M", "P1")}, "c" := {Stock("M", "P2")}, "d" := {Stock("M", "P2")}]

  const TWO := [Portfolio(["a", "b"], {Stock("M", "P1")}), Portfolio(["c", "d"], {Stock("M", "P2")})]

  const DONOR := Donor("M", "D")

  const FOUR_OFFERS: OfferTable := map["a" := {DONOR}, "b" := {DONOR}, "c" := {DONOR}, "d" := {DONOR}]

  function Everything(): (Entry, PlanOption) -> bool {
    (entry: Entry, option: PlanOption) => true
  }

  /** Five units for each case. */
  function FiveEach(): (string, Resource) -> nat {
    (id: string, key: Resource) => if id in FOUR_OFFERS && key == DONOR then 5 else 0
  }

  lemma LateDraws(entry: Entry, key: Resource)
    ensures DrawOn(entry, LATE.actions, key) <==> key == DONOR
  {
    assert LATE.actions[0] in LATE.actions;
  }

  /** The case claims only its own stock, and offers only the donor's. */
  lemma LateEntry(entry: Entry, key: Resource)
    requires entry.candidates == [LATE]
    ensures Claims(entry, 0, key) <==> key == Stock(entry.material, entry.plant)
    ensures Offers(entry, Everything(), key) <==> key == DONOR
  {
    LateDraws(entry, key);
    assert LATE in entry.candidates;
    hide DrawOn;
  }

  lemma FourLast(i: int, id: string)
    ensures LastOf(FOUR, 4, i, id) <==> 0 <= i < 4 && id == ["a", "b", "c", "d"][i]
  {}

  lemma FourAreClaims()
    ensures AreClaims(FOUR, 4, 0, FOUR_CLAIMS)
  {
    forall i, id ensures LastOf(FOUR, 4, i, id) <==> 0 <= i < 4 && id == ["a", "b", "c", "d"][i] {
      FourLast(i, id);
    }
    forall i, key | 0 <= i < 4 ensures Claims(FOUR[i], 0, key) <==> key == Stock("M", FOUR[i].plant) {
      LateEntry(FOUR[i], key);
    }
    hide Claims, LastOf;
    assert LastOf(FOUR, 4, 0, "a") && LastOf(FOUR, 4, 1, "b") && LastOf(FOUR, 4, 2, "c") && LastOf(FOUR, 4, 3, "d");
  }

  lemma FourAreOffers()
    ensures AreOffers(FOUR, Everything(), FOUR_OFFERS)
  {
    forall i, id ensures LastOf(FOUR, 4, i, id) <==> 0 <= i < 4 && id == ["a", "b", "c", "d"][i] {
      FourLast(i, id);
    }
    forall i, key | 0 <= i < 4 ensures Offers(FOUR[i], Everything(), key) <==> key == DONOR {
      LateEntry(FOUR[i], key);
    }
    hide Offers, LastOf, Everything;
    assert LastOf(FOUR, 4, 0, "a") && LastOf(FOUR, 4, 1, "b") && LastOf(FOUR, 4, 2, "c") && LastOf(FOUR, 4, 3, "d");
  }

  /** The first two share their plant's stock, and so do the last two. */
  predicate SameHalf(a: string, b: string) {
    (a in {"a", "b"} && b in {"a", "b"}) || (a in {"c", "d"} && b in {"c", "d"})
  }

  lemma FourOverlap(a: string, b: string)
    ensures Overlap(FOUR_CLAIMS, a, b) <==> SameHalf(a, b)
  {
    if SameHalf(a, b) {
      assert Stock("M", if a in {"a", "b"} then "P1" else "P2") in FOUR_CLAIMS[a] * FOUR_CLAIMS[b];
    }
  }

  lemma FourLinked(a: string, b: string)
    ensures Linked(FOUR_CLAIMS, a, b) <==> SameHalf(a, b)
  {
    forall x, y ensures Overlap(FOUR_CLAIMS, x, y) <==> SameHalf(x, y) {
      FourOverlap(x, y);
    }
    hide Overlap;
    if Linked(FOUR_CLAIMS, a, b) {
      LinkedEnds(FOUR_CLAIMS, a, b);
      ClosedHoldsLinked(FOUR_CLAIMS, if a in {"a", "b"} then {"a", "b"} else {"c", "d"}, a, b);
    } else if SameHalf(a, b) {
      LinkedSelf(FOUR_CLAIMS, a);
      LinkedStep(FOUR_CLAIMS, a, a, b);
    }
  }

  lemma LinkedEnds(claims: ClaimTable, a: string, b: string)
    requires Linked(claims, a, b)
    ensures a in claims && b in claims
  {}

  lemma FourShared(k: nat, key: Resource)
    requires k < 2
    ensures SharedWithin(CaseIds(FOUR), FOUR_CLAIMS, Ids(TWO[k].caseIds), key) <==> key in TWO[k].shared
  {
    var ids, a, b := CaseIds(FOUR), TWO[k].caseIds[0], TWO[k].caseIds[1];
    assert ids == ["a", "b", "c", "d"];
    FourOverlap(a, b);
    assert Meets(ids, FOUR_CLAIMS, a, b) by {
      assert ids[2 * k] == a && ids[2 * k + 1] == b;
    }
  }

  lemma InAlphabet()
    ensures StringLeq("a", "b") && StringLeq("a", "c") && StringLeq("a", "d") && StringLeq("c", "d")
  {}

  lemma PairIsPortfolio(ids: seq<string>, claims: ClaimTable, x: string, y: string, shared: set<Resource>)
    requires x != y && StringLeq(x, y) && x in claims && y in claims
    requires forall b :: (Linked(claims, x, b) <==> b == x || b == y) && (Linked(claims, y, b) <==> b == x || b == y)
    requires forall key :: key in shared <==> SharedWithin(ids, claims, Ids([x, y]), key)
    ensures IsPortfolio(ids, claims, Portfolio([x, y], shared))
  {
    hide Linked, SharedWithin, StringLeq;
  }

  lemma PairsArePortfolios(ids: seq<string>, claims: ClaimTable, p: Portfolio, q: Portfolio)
    requires IsPortfolio(ids, claims, p) && IsPortfolio(ids, claims, q) && Ids(p.caseIds) !! Ids(q.caseIds)
    requires forall id :: id in claims ==> id in p.caseIds || id in q.caseIds
    requires forall id :: id in q.caseIds ==> StringLeq(p.caseIds[0], id)
    ensures ArePortfolios(ids, claims, [p, q])
  {
    hide SharedWithin, StringLeq;
    var both := [p, q];
    forall a, b | a != b && Linked(claims, a, b)
      ensures exists k :: 0 <= k < |both| && a in both[k].caseIds && b in both[k].caseIds
    {
      LinkedEnds(claims, a, b);
      var k := if a in p.caseIds then 0 else 1;
      assert a in both[k].caseIds && b in both[k].caseIds;
    }
  }

  lemma EachIsPortfolio(k: nat)
    requires k < 2
    ensures IsPortfolio(CaseIds(FOUR), FOUR_CLAIMS, TWO[k])
  {
    var x, y := TWO[k].caseIds[0], TWO[k].caseIds[1];
    forall b ensures Linked(FOUR_CLAIMS, x, b) <==> b == x || b == y
             ensures Linked(FOUR_CLAIMS, y, b) <==> b == x || b == y {
      FourLinked(x, b);
      FourLinked(y, b);
    }
    forall key ensures SharedWithin(CaseIds(FOUR), FOUR_CLAIMS, Ids([x, y]), key) <==> key in TWO[k].shared {
      FourShared(k, key);
    }
    InAlphabet();
    hide Linked, SharedWithin, StringLeq, SameHalf, IsPortfolio, Ids, CaseIds;
    assert TWO[k] == Portfolio([x, y], TWO[k].shared);
    PairIsPortfolio(CaseIds(FOUR), FOUR_CLAIMS, x, y, TWO[k].shared);
  }

  lemma FourPortfolios()
    ensures ArePortfolios(CaseIds(FOUR), FOUR_CLAIMS, TWO)
  {
    EachIsPortfolio(0);
    EachIsPortfolio(1);
    InAlphabet();
    hide IsPortfolio, StringLeq, CaseIds, ArePortfolios;
    PairsArePortfolios(CaseIds(FOUR), FOUR_CLAIMS, TWO[0], TWO[1]);
    assert TWO == [TWO[0], TWO[1]];
  }

  /**
   Two portfolios, each within the donor's ten units and together twenty of them: every option arrives a
   microsecond after the horizon, so no case claims the donor it offers.
   */
  lemma LateOffersOvercommit()
    ensures AreClaims(FOUR, |FOUR|, 0, FOUR_CLAIMS) && ArePortfolios(CaseIds(FOUR), FOUR_CLAIMS, TWO)
    ensures AreOffers(FOUR, Everything(), FOUR_OFFERS) && OnOffer(FOUR_OFFERS, FiveEach())
    ensures FitsEach(TWO, FiveEach(), DONOR, 10) && UsedByAll(TWO, FiveEach(), DONOR) == 20
  {
    FourAreClaims();
    FourAreOffers();
    FourPortfolios();
    hide AreClaims, ArePortfolios, AreOffers;
    TwoCases("a", "b");
    TwoCases("c", "d");
    assert TWO[..1][..0] == [] && TWO[..1][0] == TWO[0];
    assert UsedByAll(TWO[..1], FiveEach(), DONOR) == 10;
  }

  lemma TwoCases(a: string, b: string)
    requires a in FOUR_OFFERS && b in FOUR_OFFERS
    ensures Used([a, b], FiveEach(), DONOR) == 10
  {
    assert [a, b][..1] == [a] && [a][..0] == [];
    assert Used([a], FiveEach(), DONOR) == 5;
  }
}
