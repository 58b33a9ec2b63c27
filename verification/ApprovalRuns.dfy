/** Requests that nobody disturbs, move by move: the pieces from which whole runs of the approval record are built. */
module ApprovalRuns {
  import opened Basics
  import opened Approvals
  import Routing

  lemma {:induction false} RunJoins(finite: real -> bool, s: State, a: seq<Move>, b: seq<Move>)
    ensures Run(finite, s, a + b) == Run(finite, Run(finite, s, a), b)
    decreases |a|
  {
    hide After;
    if a == [] {
      assert a + b == b;
    } else {
      assert (a + b)[0] == a[0] && (a + b)[1..] == a[1..] + b;
      RunJoins(finite, After(finite, s, a[0]), a[1..], b);
    }
  }

  lemma RunOne(finite: real -> bool, s: State, move: Move)
    ensures Run(finite, s, [move]) == After(finite, s, move)
  {
    hide After;
    assert [move][1..] == [];
  }

  /** A request arrives. */
  function With(s: State, who: nat, request: Request, progress: Progress): State {
    s.(clients := s.clients[who := Client(request, progress)])
  }

  lemma Started(finite: real -> bool, s: State, who: nat, request: Request)
    requires who !in s.clients && Acceptable(request)
    ensures After(finite, s, Start(who, request)) == With(s, who, request, Begun)
  {
    hide Acceptable;
  }

  lemma WithTwice(s: State, who: nat, request: Request, progress: Progress, next: Progress)
    ensures Now(With(s, who, request, progress), who, next) == With(s, who, request, next)
  {
    assert s.clients[who := Client(request, progress)][who := Client(request, next)]
        == s.clients[who := Client(request, next)];
  }

  // ----- Save -----

  /** The route stored with its parts and messages. */
  function Saved(s: State, request: Request): State
    requires request.Save?
  {
    s.(parts := s.parts + request.parts, routes := s.routes[request.version := request.parts.Keys],
       outbox := s.outbox + multiset(AutoApproved(request.parts)) + multiset{PlanRouted(request.version)})
  }

  predicate ApproversIn(s: State, request: Request, missed: set<string>)
    requires request.Save?
  {
    forall key <- request.parts :: request.parts[key].approver.Some? ==>
      request.parts[key].approver.value in s.limits && request.parts[key].approver.value !in missed
  }

  /** The limits, and who has missed an approval, are read. */
  lemma SaveReadsMissed(finite: real -> bool, s: State, who: nat, request: Request, pick: string)
    requires request.Save?
    ensures After(finite, With(s, who, request, Begun), Step(who, pick)) == With(s, who, request, SawMissed(Missed(s)))
  {
    WithTwice(s, who, request, Begun, SawMissed(Missed(s)));
  }

  lemma SaveRoutes(finite: real -> bool, s: State, who: nat, request: Request, missed: set<string>, pick: string)
    requires request.Save? && ApproversIn(s, request, missed)
    ensures After(finite, With(s, who, request, SawMissed(missed)), Step(who, pick))
            == With(s, who, request, Routed(missed))
  {
    WithTwice(s, who, request, SawMissed(missed), Routed(missed));
  }

  lemma SaveStores(finite: real -> bool, s: State, who: nat, request: Request, missed: set<string>, pick: string)
    requires request.Save? && SaveCommits(s, Client(request, Routed(missed)))
    ensures After(finite, With(s, who, request, Routed(missed)), Step(who, pick))
            == With(Saved(s, request), who, request, Done)
  {
    WithTwice(s, who, request, Routed(missed), Done);
    assert SaveCommits(With(s, who, request, Routed(missed)), Client(request, Routed(missed)));
    hide SaveCommits;
  }

  /** The moves of one request from its arrival. */
  function SaveMoves(who: nat, request: Request): seq<Move> {
    [Start(who, request), Step(who, ""), Step(who, ""), Step(who, "")]
  }

  lemma FourMoves(finite: real -> bool, s: State, a: Move, b: Move, c: Move, d: Move)
    ensures Run(finite, s, [a, b, c, d]) == After(finite, After(finite, After(finite, After(finite, s, a), b), c), d)
  {
    hide After;
    RunJoins(finite, s, [a], [b, c, d]);
    RunJoins(finite, After(finite, s, a), [b], [c, d]);
    RunJoins(finite, After(finite, After(finite, s, a), b), [c], [d]);
    assert [a] + [b, c, d] == [a, b, c, d] && [b] + [c, d] == [b, c, d] && [c] + [d] == [c, d];
    RunOne(finite, s, a);
    RunOne(finite, After(finite, s, a), b);
    RunOne(finite, After(finite, After(finite, s, a), b), c);
    RunOne(finite, After(finite, After(finite, After(finite, s, a), b), c), d);
  }

  lemma SavedAlone(finite: real -> bool, s: State, who: nat, request: Request)
    requires who !in s.clients && request.Save? && Acceptable(request)
    requires ApproversIn(s, request, Missed(s)) && SaveCommits(s, Client(request, Begun))
    ensures Run(finite, s, SaveMoves(who, request)) == With(Saved(s, request), who, request, Done)
  {
    hide After, With, Saved, Acceptable, ApproversIn;
    FourMoves(finite, s, Start(who, request), Step(who, ""), Step(who, ""), Step(who, ""));
    Started(finite, s, who, request);
    SaveReadsMissed(finite, s, who, request, "");
    SaveRoutes(finite, s, who, request, Missed(s), "");
    SaveStores(finite, s, who, request, Missed(s), "");
  }

  // ----- Tick -----

  /** A timer past the deadline, and what its backup search may come to. */
  predicate Expiring(finite: real -> bool, s: State, request: Request, backup: Option<string>) {
    && request.Tick? && request.key in s.parts && Due(s.parts[request.key], request.now)
    && request.now >= s.parts[request.key].deadline && s.outbox[Expiry(request.key)] == 0
    && if backup.Some? then MayBackUp(finite, s, s.parts[request.key], request.now, backup.value)
       else forall user <- s.limits :: !MayBackUp(finite, s, s.parts[request.key], request.now, user)
  }

  /** The part expired, with this backup. */
  function ExpiredPart(s: State, request: Request, backup: Option<string>): State
    requires request.Tick? && request.key in s.parts
  {
    s.(parts := s.parts[request.key := Ticked(s.parts[request.key], request.now, backup)],
       outbox := s.outbox + multiset{Expiry(request.key)})
  }

  function TickMoves(who: nat, request: Request, backup: Option<string>): seq<Move> {
    [Start(who, request), Step(who, ""), Step(who, if backup.Some? then backup.value else ""), Step(who, "")]
  }

  lemma TickReadsPart(finite: real -> bool, s: State, who: nat, request: Request, pick: string)
    requires request.Tick? && request.key in s.parts && Due(s.parts[request.key], request.now)
    ensures After(finite, With(s, who, request, Begun), Step(who, pick))
         == With(s, who, request, SawPart(request.key, s.parts[request.key]))
  {
    WithTwice(s, who, request, Begun, SawPart(request.key, s.parts[request.key]));
  }

  lemma BackUpWith(finite: real -> bool, s: State, who: nat, request: Request, progress: Progress, part: Part,
                   now: int, user: string)
    ensures MayBackUp(finite, With(s, who, request, progress), part, now, user) == MayBackUp(finite, s, part, now, user)
  {
    assert Missed(With(s, who, request, progress)) == Missed(s);
  }

  lemma TickFindsBackup(finite: real -> bool, s: State, who: nat, request: Request, backup: Option<string>)
    requires Expiring(finite, s, request, backup)
    ensures var part := s.parts[request.key];
      After(finite, With(s, who, request, SawPart(request.key, part)),
        Step(who, if backup.Some? then backup.value else ""))
      == With(s, who, request, SawBackup(request.key, part, backup))
  {
    var part := s.parts[request.key];
    var now := With(s, who, request, SawPart(request.key, part));
    forall user ensures MayBackUp(finite, now, part, request.now, user)
      == MayBackUp(finite, s, part, request.now, user) {
      BackUpWith(finite, s, who, request, SawPart(request.key, part), part, request.now, user);
    }
    WithTwice(s, who, request, SawPart(request.key, part), SawBackup(request.key, part, backup));
    if backup.None? {
      NobodyBacksUp(finite, s, part, request.now);
    }
    hide MayBackUp, Due;
  }

  lemma NobodyBacksUp(finite: real -> bool, s: State, part: Part, now: int)
    requires forall user <- s.limits :: !MayBackUp(finite, s, part, now, user)
    ensures forall user :: !MayBackUp(finite, s, part, now, user)
  {}

  lemma TickExpires(finite: real -> bool, s: State, who: nat, request: Request, backup: Option<string>, pick: string)
    requires Expiring(finite, s, request, backup)
    ensures var after := if backup.None? then Escalating else Done;
      After(finite, With(s, who, request, SawBackup(request.key, s.parts[request.key], backup)), Step(who, pick))
      == With(ExpiredPart(s, request, backup), who, request, after)
  {
    hide MayBackUp, Due;
    var part := s.parts[request.key];
    WithTwice(s, who, request, SawBackup(request.key, part, backup), if backup.None? then Escalating else Done);
  }

  lemma ExpiredAlone(finite: real -> bool, s: State, who: nat, request: Request, backup: Option<string>)
    requires who !in s.clients && Expiring(finite, s, request, backup)
    ensures Run(finite, s, TickMoves(who, request, backup))
         == With(ExpiredPart(s, request, backup), who, request, if backup.None? then Escalating else Done)
  {
    var pick := if backup.Some? then backup.value else "";
    assert request.Tick? && Due(s.parts[request.key], request.now);
    hide After, With, ExpiredPart, Expiring, Due;
    FourMoves(finite, s, Start(who, request), Step(who, ""), Step(who, pick), Step(who, ""));
    Started(finite, s, who, request);
    TickReadsPart(finite, s, who, request, "");
    TickFindsBackup(finite, s, who, request, backup);
    TickExpires(finite, s, who, request, backup, "");
  }

  // ----- Decide -----

  /** The part of the current route that waits for this actor, whose limit and the kill switch allow the decision. */
  predicate Decidable(finite: real -> bool, s: State, request: Request, key: string) {
    && request.Decide? && s.version in s.routes && key in s.routes[s.version] && key in s.parts
    && s.parts[key].version == s.version && May(request, s.parts[key])
    && request.actor in s.limits && s.limits[request.actor].userId == request.actor
    && Routing.Sufficient(finite, s.limits[request.actor], s.parts[key].plant, s.parts[key].cost, request.now)
    && s.kill.Some? && IsOff(s.kill.value) && s.outbox[Verdict(request, key)] == 0
  }

  function DecidedPart(s: State, request: Request, key: string): State
    requires request.Decide? && key in s.parts
  {
    s.(parts := s.parts[key := Decided(s.parts[key], request)], outbox := s.outbox + multiset{Verdict(request, key)})
  }

  function DecideMoves(who: nat, request: Request, key: string): seq<Move> {
    [Start(who, request), Step(who, ""), Step(who, key), Step(who, "")] + [Step(who, ""), Step(who, "")]
  }

  lemma DecideReads(finite: real -> bool, s: State, who: nat, request: Request, key: string)
    requires Decidable(finite, s, request, key)
    ensures var part, limit := s.parts[key], s.limits[request.actor];
      && After(finite, With(s, who, request, Begun), Step(who, "")) == With(s, who, request, SawVersion(s.version))
      && After(finite, With(s, who, request, SawVersion(s.version)), Step(who, key))
         == With(s, who, request, SawPart(key, part))
      && After(finite, With(s, who, request, SawPart(key, part)), Step(who, ""))
         == With(s, who, request, SawLimit(key, part, limit))
      && After(finite, With(s, who, request, SawLimit(key, part, limit)), Step(who, ""))
         == With(s, who, request, SawSwitch(key, part, limit, s.kill.value))
  {
    var part, limit := s.parts[key], s.limits[request.actor];
    WithTwice(s, who, request, Begun, SawVersion(s.version));
    WithTwice(s, who, request, SawVersion(s.version), SawPart(key, part));
    WithTwice(s, who, request, SawPart(key, part), SawLimit(key, part, limit));
    WithTwice(s, who, request, SawLimit(key, part, limit), SawSwitch(key, part, limit, s.kill.value));
    hide May, Routing.Sufficient, IsOff;
  }

  lemma DecideStores(finite: real -> bool, s: State, who: nat, request: Request, key: string)
    requires Decidable(finite, s, request, key)
    ensures After(finite, With(s, who, request, SawSwitch(key, s.parts[key], s.limits[request.actor], s.kill.value)),
            Step(who, ""))
         == With(DecidedPart(s, request, key), who, request, Done)
  {
    hide May, Routing.Sufficient, IsOff;
    WithTwice(s, who, request, SawSwitch(key, s.parts[key], s.limits[request.actor], s.kill.value), Done);
  }

  lemma DecidedAlone(finite: real -> bool, s: State, who: nat, request: Request, key: string)
    requires who !in s.clients && Decidable(finite, s, request, key)
    ensures Run(finite, s, DecideMoves(who, request, key)) == With(DecidedPart(s, request, key), who, request, Done)
  {
    DecideReads(finite, s, who, request, key);
    DecideStores(finite, s, who, request, key);
    Started(finite, s, who, request);
    hide After, With, DecidedPart, Decidable;
    FourMoves(finite, s, Start(who, request), Step(who, ""), Step(who, key), Step(who, ""));
    var before := Run(finite, s, [Start(who, request), Step(who, ""), Step(who, key), Step(who, "")]);
    RunJoins(finite, s, [Start(who, request), Step(who, ""), Step(who, key), Step(who, "")],
      [Step(who, ""), Step(who, "")]);
    TwoMoves(finite, before, Step(who, ""), Step(who, ""));
  }

  lemma TwoMoves(finite: real -> bool, s: State, a: Move, b: Move)
    ensures Run(finite, s, [a, b]) == After(finite, After(finite, s, a), b)
  {
    hide After;
    RunJoins(finite, s, [a], [b]);
    assert [a] + [b] == [a, b];
    RunOne(finite, s, a);
    RunOne(finite, After(finite, s, a), b);
  }

  // ----- Reallocate -----

  /** The case awaits approval of a route with one part, which is open. */
  predicate Resizable(s: State, request: Request, key: string) {
    && request.Reallocate? && s.status.AwaitingApproval? && s.version in s.routes && s.routes[s.version] == {key}
    && key in s.parts && Waiting(s.parts[key]) && s.parts[key].supersededBy.None?
    && s.outbox[ReallocateMessage(Client(request, Begun), s.version)] == 0
  }

  function Resized(s: State, request: Request, key: string): State
    requires request.Reallocate? && key in s.parts
  {
    var version := Following(Client(request, Begun), s.version);
    var part := s.parts[key];
    s.(status := if request.repropose then Investigating else Escalated, version := version,
       parts := s.parts[key := part.(supersededBy := Some(version), revision := part.revision + 1)],
       outbox := s.outbox + multiset{ReallocateMessage(Client(request, Begun), s.version)})
  }

  function ReallocateMoves(who: nat, request: Request, key: string): seq<Move> {
    [Start(who, request), Step(who, ""), Step(who, ""), Step(who, key)] + [Step(who, "")]
  }

  lemma ReallocateReads(finite: real -> bool, s: State, who: nat, request: Request, key: string)
    requires Resizable(s, request, key)
    ensures After(finite, With(s, who, request, Begun), Step(who, "")) == With(s, who, request, SawVersion(s.version))
    ensures After(finite, With(s, who, request, SawVersion(s.version)), Step(who, ""))
         == With(s, who, request, Gathering(s.version, {key}, map[]))
    ensures After(finite, With(s, who, request, Gathering(s.version, {key}, map[])), Step(who, key))
         == With(s, who, request, Gathering(s.version, {}, map[key := s.parts[key]]))
  {
    var seen := map[][key := s.parts[key]];
    WithTwice(s, who, request, Begun, SawVersion(s.version));
    WithTwice(s, who, request, SawVersion(s.version), Gathering(s.version, {key}, map[]));
    WithTwice(s, who, request, Gathering(s.version, {key}, map[]), Gathering(s.version, {}, seen));
    assert {key} - {key} == {};
    hide Waiting;
  }

  lemma ReallocateStores(finite: real -> bool, s: State, who: nat, request: Request, key: string)
    requires Resizable(s, request, key)
    ensures After(finite, With(s, who, request, Gathering(s.version, {}, map[key := s.parts[key]])), Step(who, ""))
         == With(Resized(s, request, key), who, request, Done)
  {
    hide Waiting;
    var pending := map[key := s.parts[key]];
    var version := Following(Client(request, Begun), s.version);
    WithTwice(s, who, request, Gathering(s.version, {}, pending), Done);
    assert Superseded(s.parts, pending, version) == Resized(s, request, key).parts;
  }

  lemma ReallocatedAlone(finite: real -> bool, s: State, who: nat, request: Request, key: string)
    requires who !in s.clients && Resizable(s, request, key)
    ensures Run(finite, s, ReallocateMoves(who, request, key)) == With(Resized(s, request, key), who, request, Done)
  {
    ReallocateReads(finite, s, who, request, key);
    ReallocateStores(finite, s, who, request, key);
    Started(finite, s, who, request);
    hide After, With, Resized, Resizable;
    FourMoves(finite, s, Start(who, request), Step(who, ""), Step(who, ""), Step(who, key));
    RunJoins(finite, s, [Start(who, request), Step(who, ""), Step(who, ""), Step(who, key)], [Step(who, "")]);
    RunOne(finite, Run(finite, s, [Start(who, request), Step(who, ""), Step(who, ""), Step(who, key)]), Step(who, ""));
  }
}
