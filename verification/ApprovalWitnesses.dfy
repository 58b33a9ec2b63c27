/** Runs from a first state that show the findings about the approval record do happen. */
module ApprovalWitnesses {
  import opened Basics
  import opened Approvals
  import opened ApprovalRuns
  import opened HandOver
  import Routing

  const ANA := Routing.Limit("ana", "PLANT", 0, 0, 100.0)

  const LIMITS := map["ana" := ANA]

  /** Ana has until 50 to decide the first plan, and until 90 for the second. */
  const OPEN := Part(1, 2, 100.0, "PLANT", Some("ana"), 50, 25, false, false, None, None, None, 0)

  const LATER := Part(2, 2, 100.0, "PLANT", Some("ana"), 90, 70, false, false, None, None, None, 0)

  const ROUTE := Save(1, map["P" := OPEN])

  const SECOND := Save(2, map["Q" := LATER])

  /** A case that awaits its first route, and one approver. */
  const FIRST := State(1, AwaitingApproval, map[], map[], multiset{}, Some("off"), LIMITS, map[])

  const SAVED := State(
    1, AwaitingApproval, map[1 := {"P"}], map["P" := OPEN], multiset{PlanRouted(1)}, Some("off"), LIMITS,
    map[1 := Client(ROUTE, Done)])

  lemma FirstSaved(finite: real -> bool)
    ensures Run(finite, FIRST, SaveMoves(1, ROUTE)) == SAVED
  {
    assert NewPart(OPEN, 1);
    assert ROUTE.parts.Keys == {"P"} && AutoApproved(ROUTE.parts) == {};
    SavedAlone(finite, FIRST, 1, ROUTE);
    hide Run;
    assert FIRST.parts + ROUTE.parts == SAVED.parts;
  }

  // ----- A superseded part approved -----

  const ESCALATE := Reallocate(false)

  const APPROVE := Decide("ana", true, 9)

  const VOID := OPEN.(supersededBy := Some(1), revision := 1)

  const ESCALATED := State(
    1, Escalated, map[1 := {"P"}], map["P" := VOID], multiset{PlanRouted(1), Reallocated(1)}, Some("off"), LIMITS,
    map[1 := Client(ROUTE, Done), 2 := Client(ESCALATE, Done)])

  lemma EscalatedState()
    ensures Resizable(SAVED, ESCALATE, "P") && With(Resized(SAVED, ESCALATE, "P"), 2, ESCALATE, Done) == ESCALATED
  {}

  lemma CaseEscalated(finite: real -> bool)
    ensures Run(finite, SAVED, ReallocateMoves(2, ESCALATE, "P")) == ESCALATED
  {
    hide Run, ReallocateMoves, Resizable, Resized, With;
    EscalatedState();
    ReallocatedAlone(finite, SAVED, 2, ESCALATE, "P");
  }

  lemma ThenDecidable(finite: real -> bool)
    requires finite(100.0)
    ensures Decidable(finite, ESCALATED, APPROVE, "P")
  {
    assert Lower("off") == "off";
  }

  /** The route is saved, a reallocation escalates the case, and then the approver decides. */
  function EscalatedThenApproved(): seq<Move> {
    SaveMoves(1, ROUTE) + ReallocateMoves(2, ESCALATE, "P") + DecideMoves(3, APPROVE, "P")
  }

  /** So a superseded part of an escalated case can still be approved: this run does it. */
  lemma EscalatedPartStillApproved(finite: real -> bool)
    requires finite(100.0)
    ensures var end := Run(finite, FIRST, EscalatedThenApproved());
      && end.status == Escalated && "P" in end.parts && end.parts["P"].supersededBy == Some(1)
      && end.parts["P"].decision == Some(Decision("ana", true, 9)) && end.outbox[PlanApproved("P")] == 1
  {
    hide Run, SaveMoves, ReallocateMoves, DecideMoves, Decidable, With;
    RunJoins(finite, FIRST, SaveMoves(1, ROUTE) + ReallocateMoves(2, ESCALATE, "P"), DecideMoves(3, APPROVE, "P"));
    RunJoins(finite, FIRST, SaveMoves(1, ROUTE), ReallocateMoves(2, ESCALATE, "P"));
    FirstSaved(finite);
    CaseEscalated(finite);
    ThenDecidable(finite);
    DecidedAlone(finite, ESCALATED, 3, APPROVE, "P");
    DecisionShows(3);
  }

  lemma DecisionShows(who: nat)
    ensures var end := With(DecidedPart(ESCALATED, APPROVE, "P"), who, APPROVE, Done);
      && end.status == Escalated && "P" in end.parts && end.parts["P"].supersededBy == Some(1)
      && end.parts["P"].decision == Some(Decision("ana", true, 9)) && end.outbox[PlanApproved("P")] == 1
  {}

  // ----- The same approver again -----

  const EXPIRY := Tick("P", 60)

  /** A second plan is proposed while the first approval is open. */
  const PROPOSED := SAVED.(version := 2)

  lemma SecondProposed(finite: real -> bool)
    ensures Run(finite, SAVED, [NewPlan]) == PROPOSED
  {
    RunOne(finite, SAVED, NewPlan);
  }

  const EXPIRED := OPEN.(expired := true, expiredApprover := Some("ana"), approver := None, revision := 1)

  /** The second route has been computed from limits read before the first approval expires. */
  const READ := PROPOSED.(clients := PROPOSED.clients[2 := Client(SECOND, SawMissed({}))])

  lemma SecondReads(finite: real -> bool)
    ensures Run(finite, PROPOSED, [Start(2, SECOND), Step(2, "")]) == READ
  {
    SecondAcceptable();
    hide Run, After, Acceptable, Missed;
    TwoMoves(finite, PROPOSED, Start(2, SECOND), Step(2, ""));
    Started(finite, PROPOSED, 2, SECOND);
    SaveReadsMissed(finite, PROPOSED, 2, SECOND, "");
  }

  lemma SecondAcceptable()
    ensures Acceptable(SECOND) && Missed(PROPOSED) == {}
  {
    assert NewPart(LATER, 2);
  }

  lemma OnlyAna(finite: real -> bool, s: State, key: string, now: int)
    requires s.limits == LIMITS && key in s.parts && s.parts[key].approver == Some("ana")
    requires Due(s.parts[key], now) && now >= s.parts[key].deadline && s.outbox[Expiry(key)] == 0
    ensures Expiring(finite, s, Tick(key, now), None)
  {
    hide Due;
  }

  const LAPSED := READ.(
    parts := map["P" := EXPIRED], outbox := multiset{PlanRouted(1), Expiry("P")},
    clients := READ.clients[3 := Client(EXPIRY, Escalating)])

  lemma LapsedState()
    ensures With(ExpiredPart(READ, EXPIRY, None), 3, EXPIRY, Escalating) == LAPSED && 3 !in READ.clients
  {
    assert READ.parts["P" := EXPIRED] == map["P" := EXPIRED];
  }

  lemma FirstExpires(finite: real -> bool)
    ensures Run(finite, READ, TickMoves(3, EXPIRY, None)) == LAPSED
  {
    hide Run, TickMoves, Expiring, ExpiredPart, With;
    LapsedState();
    OnlyAna(finite, READ, "P", 60);
    ExpiredAlone(finite, READ, 3, EXPIRY, None);
  }

  lemma SecondCommits()
    ensures SaveCommits(LAPSED, Client(SECOND, Routed({}))) && ApproversIn(LAPSED, SECOND, {})
    ensures With(LAPSED, 2, SECOND, SawMissed({})) == LAPSED
  {
    assert LAPSED.clients[2] == Client(SECOND, SawMissed({}));
    assert LAPSED.clients[2 := LAPSED.clients[2]] == LAPSED.clients;
  }

  /** The second route is stored although its approver has let the first approval expire meanwhile. */
  lemma SecondStored(finite: real -> bool)
    ensures var end := Run(finite, LAPSED, [Step(2, ""), Step(2, "")]);
      && "Q" in end.parts && Open(end.parts["Q"]) && end.parts["Q"].approver == Some("ana")
      && "P" in end.parts && end.parts["P"] == EXPIRED
  {
    SecondCommits();
    hide Run, After, SaveCommits, ApproversIn;
    TwoMoves(finite, LAPSED, Step(2, ""), Step(2, ""));
    SaveRoutes(finite, LAPSED, 2, SECOND, {}, "");
    SaveStores(finite, LAPSED, 2, SECOND, {}, "");
  }

  /** A save that raced an expiry. */
  function StaleRoute(): seq<Move> {
    SaveMoves(1, ROUTE) + [NewPlan] + [Start(2, SECOND), Step(2, "")] + TickMoves(3, EXPIRY, None)
      + [Step(2, ""), Step(2, "")]
  }

  /** So a save that raced an expiry hands the case back to the approver who let it expire. */
  lemma StaleRouteReassigns(finite: real -> bool)
    ensures var end := Run(finite, FIRST, StaleRoute());
      "Q" in end.parts && Open(end.parts["Q"]) && end.parts["Q"].approver == Some("ana") && "ana" in Missed(end)
  {
    hide Run, SaveMoves, TickMoves, Missed;
    var a, b, c, d := SaveMoves(1, ROUTE), [NewPlan], [Start(2, SECOND), Step(2, "")], TickMoves(3, EXPIRY, None);
    RunJoins(finite, FIRST, a + b + c + d, [Step(2, ""), Step(2, "")]);
    RunJoins(finite, FIRST, a + b + c, d);
    RunJoins(finite, FIRST, a + b, c);
    RunJoins(finite, FIRST, a, b);
    FirstSaved(finite);
    SecondProposed(finite);
    SecondReads(finite);
    FirstExpires(finite);
    SecondStored(finite);
    MissedOf(Run(finite, FIRST, StaleRoute()), "P");
  }

  // ----- Two approvals open at once -----

  const BOTH := State(
    2, AwaitingApproval, map[1 := {"P"}, 2 := {"Q"}], map["P" := OPEN, "Q" := LATER],
    multiset{PlanRouted(1), PlanRouted(2)}, Some("off"), LIMITS,
      map[1 := Client(ROUTE, Done), 2 := Client(SECOND, Done)])

  lemma SecondRecords()
    ensures PROPOSED.parts + SECOND.parts == BOTH.parts && PROPOSED.routes[2 := SECOND.parts.Keys] == BOTH.routes
  {
    assert SECOND.parts.Keys == {"Q"};
  }

  lemma SecondAnnounced()
    ensures PROPOSED.outbox + multiset(AutoApproved(SECOND.parts)) + multiset{PlanRouted(2)} == BOTH.outbox
  {
    assert AutoApproved(SECOND.parts) == {};
  }

  lemma BothState()
    ensures With(Saved(PROPOSED, SECOND), 2, SECOND, Done) == BOTH && 2 !in PROPOSED.clients
  {
    SecondRecords();
    SecondAnnounced();
    hide AutoApproved;
    assert PROPOSED.clients[2 := Client(SECOND, Done)] == BOTH.clients;
  }

  lemma BothCommit()
    ensures SaveCommits(PROPOSED, Client(SECOND, Begun)) && ApproversIn(PROPOSED, SECOND, {})
  {}

  lemma BothSaved(finite: real -> bool)
    ensures Run(finite, PROPOSED, SaveMoves(2, SECOND)) == BOTH
  {
    hide Run, SaveMoves, Saved, With, Acceptable, SaveCommits, ApproversIn, Missed;
    SecondAcceptable();
    BothCommit();
    BothState();
    SavedAlone(finite, PROPOSED, 2, SECOND);
  }

  const ONE_LAPSED := BOTH.(
    parts := map["P" := EXPIRED, "Q" := LATER], outbox := BOTH.outbox + multiset{Expiry("P")},
    clients := BOTH.clients[3 := Client(EXPIRY, Escalating)])

  lemma OneLapsedState()
    ensures With(ExpiredPart(BOTH, EXPIRY, None), 3, EXPIRY, Escalating) == ONE_LAPSED && 3 !in BOTH.clients
  {
    assert BOTH.parts["P" := EXPIRED] == ONE_LAPSED.parts;
  }

  lemma OneExpires(finite: real -> bool)
    ensures Run(finite, BOTH, TickMoves(3, EXPIRY, None)) == ONE_LAPSED
  {
    hide Run, TickMoves, Expiring, ExpiredPart, With;
    OneLapsedState();
    OnlyAna(finite, BOTH, "P", 60);
    ExpiredAlone(finite, BOTH, 3, EXPIRY, None);
  }

  const SECOND_EXPIRY := Tick("Q", 95)

  lemma OtherExpires(finite: real -> bool)
    ensures var end := Run(finite, ONE_LAPSED, TickMoves(4, SECOND_EXPIRY, None));
      && "P" in end.parts && end.parts["P"] == EXPIRED
      && "Q" in end.parts && end.parts["Q"].expired && end.parts["Q"].expiredApprover == Some("ana")
  {
    OnlyAna(finite, ONE_LAPSED, "Q", 95);
    ExpiredAlone(finite, ONE_LAPSED, 4, SECOND_EXPIRY, None);
    hide Run, Expiring;
  }

  /** The urgent part of the first plan turned out stale, so a second one was planned with the rest still open. */
  function OverlappingRoutes(): seq<Move> {
    SaveMoves(1, ROUTE) + [NewPlan] + SaveMoves(2, SECOND) + TickMoves(3, EXPIRY, None)
      + TickMoves(4, SECOND_EXPIRY, None)
  }

  /** Without any stale read, the one approver of a case lets two of its approvals expire. */
  lemma OneApproverExpiresTwice(finite: real -> bool)
    ensures var end := Run(finite, FIRST, OverlappingRoutes());
      && !ExpiredApart(end) && |Expired(end)| > |FIRST.limits|
  {
    hide Run, SaveMoves, TickMoves;
    var a, b, c, d := SaveMoves(1, ROUTE), [NewPlan], SaveMoves(2, SECOND), TickMoves(3, EXPIRY, None);
    RunJoins(finite, FIRST, a + b + c + d, TickMoves(4, SECOND_EXPIRY, None));
    RunJoins(finite, FIRST, a + b + c, d);
    RunJoins(finite, FIRST, a + b, c);
    RunJoins(finite, FIRST, a, b);
    FirstSaved(finite);
    SecondProposed(finite);
    BothSaved(finite);
    OneExpires(finite);
    OtherExpires(finite);
    var end := Run(finite, FIRST, OverlappingRoutes());
    TwoExpired(end);
  }

  lemma TwoExpired(end: State)
    requires "P" in end.parts && end.parts["P"].expired && "Q" in end.parts && end.parts["Q"].expired
    ensures |Expired(end)| > |FIRST.limits|
  {
    assert {"P", "Q"} <= Expired(end) && |{"P", "Q"}| == 2;
    Smaller({"P", "Q"}, Expired(end));
    assert FIRST.limits.Keys == {"ana"};
  }

  lemma {:induction false} Smaller<T>(a: set<T>, b: set<T>)
    requires a <= b
    ensures |a| <= |b|
  {
    assert b == a + (b - a);
  }
}
