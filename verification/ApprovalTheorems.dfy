/** What the approval records promise over every interleaving, and where the promise ends. */
module ApprovalTheorems {
  import opened Basics
  import opened Approvals
  import Routing

  lemma {:induction false} RunKeeps(finite: real -> bool, s: State, moves: seq<Move>)
    requires Sound(finite, s)
    ensures Sound(finite, Run(finite, s, moves))
    decreases |moves|
  {
    hide Sound, After;
    if moves != [] {
      MoveKeeps(finite, s, moves[0]);
      RunKeeps(finite, After(finite, s, moves[0]), moves[1..]);
    }
  }

  /** A later state of a part: what it ended with, and what superseded it, stays. */
  predicate Follows(now: Part, was: Part) {
    && now.version == was.version && now.tier == was.tier && now.cost == was.cost && now.plant == was.plant
    && (was.decision.Some? ==> now.decision == was.decision)
    && (was.expired ==> now.expired && now.expiredApprover == was.expiredApprover)
    && (was.supersededBy.Some? ==> now.supersededBy == was.supersededBy)
  }

  ghost predicate PartsFollow(s: State, t: State) {
    forall key :: key in s.parts ==> key in t.parts && Follows(t.parts[key], s.parts[key])
  }

  lemma SameParts(s: State, t: State)
    requires t.parts == s.parts
    ensures PartsFollow(s, t)
  {}

  lemma OnePartFollows(s: State, t: State, key: string)
    requires key in s.parts && key in t.parts && t.parts == s.parts[key := t.parts[key]]
            && Follows(t.parts[key], s.parts[key])
    ensures PartsFollow(s, t)
  {}

  lemma SaveFollows(s: State, who: nat)
    requires who in s.clients && s.clients[who].request.Save?
    ensures PartsFollow(s, StepSave(s, who))
  {
    var t, client := StepSave(s, who), s.clients[who];
    if t.parts == s.parts {
      SameParts(s, t);
    } else {
      assert client.progress.Routed? && SaveCommits(s, client) && t.parts == s.parts + client.request.parts;
      hide StepSave;
      assert forall key :: key in s.parts ==> t.parts[key] == s.parts[key];
    }
  }

  lemma DecideFollows(finite: real -> bool, s: State, who: nat, pick: string)
    requires Sound(finite, s) && who in s.clients && s.clients[who].request.Decide?
    ensures PartsFollow(s, StepDecide(finite, s, who, pick))
  {
    hide Routing.Sufficient, IsOff, SoundParts, SoundRoutes, SoundOutbox, PartsFollow;
    ClientOf(finite, s, who);
    var t, client := StepDecide(finite, s, who, pick), s.clients[who];
    if client.progress.SawSwitch? && DecideCommits(s, client) {
      var key := client.progress.key;
      assert client.progress.part == s.parts[key];
      assert t.parts == s.parts[key := t.parts[key]] && Follows(t.parts[key], s.parts[key]);
      OnePartFollows(s, t, key);
    } else {
      hide SoundClients;
      SameParts(s, t);
    }
  }

  lemma TickFollows(finite: real -> bool, s: State, who: nat, pick: string)
    requires Sound(finite, s) && who in s.clients && s.clients[who].request.Tick?
    ensures PartsFollow(s, StepTick(finite, s, who, pick))
  {
    hide MayBackUp, SoundParts, SoundRoutes, SoundOutbox, PartsFollow;
    ClientOf(finite, s, who);
    var t, client := StepTick(finite, s, who, pick), s.clients[who];
    if client.progress.SawBackup? && TickCommits(s, client) {
      var key := client.request.key;
      assert client.progress.part == s.parts[key];
      assert t.parts == s.parts[key := t.parts[key]] && Follows(t.parts[key], s.parts[key]);
      OnePartFollows(s, t, key);
    } else {
      hide SoundClients;
      SameParts(s, t);
    }
  }

  lemma ReallocateFollows(finite: real -> bool, s: State, who: nat, pick: string)
    requires Sound(finite, s) && who in s.clients && s.clients[who].request.Reallocate?
    ensures PartsFollow(s, StepReallocate(s, who, pick))
  {
    hide SoundParts, SoundRoutes, SoundOutbox;
    ClientOf(finite, s, who);
    var t, client := StepReallocate(s, who, pick), s.clients[who];
    if t.parts != s.parts {
      assert client.progress.Gathering? && ReallocateCommits(s, client);
      var pending := client.progress.pending;
      forall key | key in s.parts ensures key in t.parts && Follows(t.parts[key], s.parts[key]) {
        assert key in pending ==> pending[key] == s.parts[key];
      }
    } else {
      SameParts(s, t);
    }
  }

  lemma StepFollows(finite: real -> bool, s: State, who: nat, pick: string)
    requires Sound(finite, s) && who in s.clients
    ensures PartsFollow(s, After(finite, s, Step(who, pick)))
  {
    hide Sound, PartsFollow, StepSave, StepDecide, StepTick, StepReallocate;
    match s.clients[who].request
    case Save(_, _) => SaveFollows(s, who);
    case Decide(_, _, _) => DecideFollows(finite, s, who, pick);
    case Tick(_, _) => TickFollows(finite, s, who, pick);
    case Reallocate(_) => ReallocateFollows(finite, s, who, pick);
  }

  lemma MoveFollows(finite: real -> bool, s: State, move: Move)
    requires Sound(finite, s)
    ensures PartsFollow(s, After(finite, s, move))
  {
    if move.Step? && move.who in s.clients {
      StepFollows(finite, s, move.who, move.pick);
    } else {
      hide Sound, SoundParts;
      assert After(finite, s, move).parts == s.parts;
    }
  }

  lemma {:induction false} RunFollows(finite: real -> bool, s: State, moves: seq<Move>)
    requires Sound(finite, s)
    ensures PartsFollow(s, Run(finite, s, moves))
    decreases |moves|
  {
    hide Sound, After, Follows;
    if moves == [] {
      forall key | key in s.parts ensures Follows(s.parts[key], s.parts[key]) {
        FollowsItself(s.parts[key]);
      }
    } else {
      var t := After(finite, s, moves[0]);
      MoveKeeps(finite, s, moves[0]);
      MoveFollows(finite, s, moves[0]);
      RunFollows(finite, t, moves[1..]);
      var end := Run(finite, s, moves);
      forall key | key in s.parts ensures key in end.parts && Follows(end.parts[key], s.parts[key]) {
        FollowsThrough(end.parts[key], t.parts[key], s.parts[key]);
      }
    }
  }

  lemma FollowsItself(part: Part)
    ensures Follows(part, part)
  {}

  lemma FollowsThrough(c: Part, b: Part, a: Part)
    requires Follows(c, b) && Follows(b, a)
    ensures Follows(c, a)
  {}

  /**
   Over every interleaving of save, decide, tick and reallocate with changes of plan, limits and kill
   switch: a part is at most one of approved, rejected, expired and superseded by a new plan; what it
   ended as never changes; and its approval was announced once, exactly when it is Tier 1 or approved.
   */
  lemma EndsOnceForGood(finite: real -> bool, s: State, moves: seq<Move>, key: string)
    requires Sound(finite, s)
    ensures var t := Run(finite, s, moves);
      && (key in t.parts ==> Endings(t.parts[key]) <= 1)
      && (key in s.parts ==> key in t.parts && Follows(t.parts[key], s.parts[key]))
      && t.outbox[PlanApproved(key)] <= 1
      && (t.outbox[PlanApproved(key)] == 1 <==> Approved(t, key))
  {
    RunKeeps(finite, s, moves);
    RunFollows(finite, s, moves);
    hide Run, Follows;
    var t := Run(finite, s, moves);
    assert key in t.parts ==> SoundPart(t.parts[key], t.version);
    assert t.outbox[PlanApproved(key)] == if Approved(t, key) then 1 else 0;
  }

  // ----- What routing gives to store -----

  /** A part of a route as `save` stores it. */
  function Stored(part: Routing.Part, version: nat, plant: string): Part {
    Part(version, part.tier, part.cost, plant, part.approver,
         if part.deadline.Some? then part.deadline.value else 0, if part.reminder.Some? then part.reminder.value else 0,
         false, false, None, None, None, 0)
  }

  function StoredParts(name: Routing.PartId -> string, parts: seq<Routing.Part>, version: nat,
                       plant: string): map<string, Part> {
    if parts == [] then map[]
    else
      var last := parts[|parts| - 1];
      StoredParts(name, parts[..|parts| - 1], version, plant)[name(last.id) := Stored(last, version, plant)]
  }

  lemma {:induction false} StoredFrom(name: Routing.PartId -> string, parts: seq<Routing.Part>, version: nat,
                                      plant: string)
    ensures forall key :: key in StoredParts(name, parts, version, plant) ==>
      exists k :: 0 <= k < |parts| && name(parts[k].id) == key
                  && StoredParts(name, parts, version, plant)[key] == Stored(parts[k], version, plant)
  {
    hide Stored;
    if parts != [] {
      StoredFrom(name, parts[..|parts| - 1], version, plant);
    }
  }

  /** Every route has parts to store as requests are taken to have: new ones, at most one of them for a person. */
  lemma RouteIsAcceptable(v: Routing.Verified, setting: Routing.Setting, name: Routing.PartId -> string, version: nat)
    requires Routing.RouteOf(v, setting).Ok?
    ensures var parts := Routing.RouteOf(v, setting).value.parts;
      Acceptable(Save(version, StoredParts(name, parts, version, setting.plant)))
  {
    var route := Routing.RouteOf(v, setting).value;
    var stored := StoredParts(name, route.parts, version, setting.plant);
    StoredFrom(name, route.parts, version, setting.plant);
    RouteTiers(v, setting);
    hide StoredParts, Routing.RouteOf;
    forall key | key in stored ensures NewPart(stored[key], version) {
      var k :| 0 <= k < |route.parts| && name(route.parts[k].id) == key
        && stored[key] == Stored(route.parts[k], version, setting.plant);
    }
    forall a, b | a in stored && b in stored && stored[a].tier == 2 && stored[b].tier == 2 ensures a == b {
      var j :| 0 <= j < |route.parts| && name(route.parts[j].id) == a
        && stored[a] == Stored(route.parts[j], version, setting.plant);
      var k :| 0 <= k < |route.parts| && name(route.parts[k].id) == b
        && stored[b] == Stored(route.parts[k], version, setting.plant);
    }
  }

  /** Only the last part of a route waits for a person, and it has an approver. */
  lemma RouteTiers(v: Routing.Verified, setting: Routing.Setting)
    requires Routing.RouteOf(v, setting).Ok?
    ensures var parts := Routing.RouteOf(v, setting).value.parts;
      forall k :: 0 <= k < |parts| ==>
        && parts[k].tier in {1, 2} && (parts[k].tier == 2 <==> parts[k].approver.Some?)
        && (parts[k].tier == 2 ==> k == |parts| - 1)
  {
    Routing.RouteTier(v, setting);
    if Routing.RouteOf(v, setting).value.tier != 3 {
      Routing.RouteShape(v, setting);
      hide Routing.RouteOf, Routing.Auto, Routing.Immediate, Routing.Outside, Routing.Urgent, Routing.Eligible,
           Routing.Deadline, Routing.TotalCost, Routing.IdOf, Routing.OtherUser;
    }
  }

  // ----- Messages -----

  ghost predicate OnceEach(s: State) {
    forall message :: s.outbox[message] <= 1
  }

  lemma DecideAnnounces(finite: real -> bool, s: State, who: nat, pick: string)
    requires OnceEach(s) && who in s.clients && s.clients[who].request.Decide?
    ensures OnceEach(StepDecide(finite, s, who, pick))
  {
    hide May, Routing.Sufficient, IsOff, Unchanged;
  }

  lemma TickAnnounces(finite: real -> bool, s: State, who: nat, pick: string)
    requires Sound(finite, s) && OnceEach(s) && who in s.clients && s.clients[who].request.Tick?
    ensures OnceEach(StepTick(finite, s, who, pick))
  {
    ClientOf(finite, s, who);
    hide Sound, MayBackUp, Due, Stranded, Unchanged, Ticked;
  }

  lemma ReallocateAnnounces(s: State, who: nat, pick: string)
    requires OnceEach(s) && who in s.clients && s.clients[who].request.Reallocate?
    ensures OnceEach(StepReallocate(s, who, pick))
  {
    hide Waiting, Unchanged, Superseded;
  }

  lemma SaveAnnounces(s: State, who: nat)
    requires OnceEach(s) && who in s.clients && s.clients[who].request.Save?
    ensures OnceEach(StepSave(s, who))
  {
    hide Missed;
    var t, client := StepSave(s, who), s.clients[who];
    if client.progress.Routed? && SaveCommits(s, client) {
      var approved := AutoApproved(client.request.parts);
      forall message ensures t.outbox[message] <= 1 {
        assert message in approved ==> message.PlanApproved? && s.outbox[message] == 0;
      }
    }
  }

  lemma MoveAnnouncesOnce(finite: real -> bool, s: State, move: Move)
    requires Sound(finite, s) && OnceEach(s)
    ensures OnceEach(After(finite, s, move))
  {
    hide Sound, StepSave, StepDecide, StepTick, StepReallocate, Acceptable;
    if move.Step? && move.who in s.clients {
      match s.clients[move.who].request
      case Save(_, _) => SaveAnnounces(s, move.who);
      case Decide(_, _, _) => DecideAnnounces(finite, s, move.who, move.pick);
      case Tick(_, _) => TickAnnounces(finite, s, move.who, move.pick);
      case Reallocate(_) => ReallocateAnnounces(s, move.who, move.pick);
    } else {
      assert After(finite, s, move).outbox == s.outbox;
    }
  }

  /**
   However requests interleave, every message is put in the outbox at most once: each route, proposal, reallocation
   and approval, and each part's rejection, reminder and expiry.
   */
  lemma {:induction false} AnnouncedOnce(finite: real -> bool, s: State, moves: seq<Move>, message: Message)
    requires Sound(finite, s) && forall other :: s.outbox[other] <= 1
    ensures Run(finite, s, moves).outbox[message] <= 1
    decreases |moves|
  {
    hide After, Sound;
    if moves != [] {
      MoveKeeps(finite, s, moves[0]);
      MoveAnnouncesOnce(finite, s, moves[0]);
      AnnouncedOnce(finite, After(finite, s, moves[0]), moves[1..], message);
    }
  }

  // ----- The moment of decision -----

  /** `kill` is `word`, with any of its letters in capitals. */
  predicate Reads(kill: string, word: string) {
    |kill| == |word| && forall i :: 0 <= i < |word| ==>
      kill[i] == word[i] || ('a' <= word[i] <= 'z' && kill[i] as int + 32 == word[i] as int)
  }

  /** The kill switch is off exactly when it reads off, false or 0, in whatever case; anything else keeps it on. */
  lemma OffExactly(kill: string)
    ensures IsOff(kill) <==> Reads(kill, "off") || Reads(kill, "false") || Reads(kill, "0")
  {
    assert IsOff(kill) ==> |Lower(kill)| == |kill|;
    forall word | word in {"off", "false", "0"} ensures Reads(kill, word) <==> Lower(kill) == word {
      if Lower(kill) == word {
        assert forall i :: 0 <= i < |kill| ==> Lower(kill)[i] == word[i];
      }
    }
  }

  predicate IsDecided(s: State, key: string) {
    key in s.parts && s.parts[key].decision.Some?
  }

  /** Only the commit of `decide` decides a part. */
  lemma OnlyDecideDecides(finite: real -> bool, s: State, move: Move, key: string)
    requires Sound(finite, s) && !IsDecided(s, key) && IsDecided(After(finite, s, move), key)
    ensures move.Step? && move.who in s.clients
    ensures var client := s.clients[move.who];
      && client.request.Decide? && client.progress.SawSwitch? && client.progress.key == key && DecideCommits(s, client)
      && After(finite, s, move).parts[key] == Decided(client.progress.part, client.request)
  {
    hide MayBackUp, Routing.Sufficient, IsOff, SoundParts, SoundRoutes, SoundOutbox, Endings, Waiting, Due, May;
    if move.Step? && move.who in s.clients {
      ClientOf(finite, s, move.who);
      var client := s.clients[move.who];
      if client.request.Save? {
        SavedUndecided(finite, s, move.who);
      }
      hide Sound, SoundClient;
    } else {
      hide Sound;
    }
  }

  lemma SavedUndecided(finite: real -> bool, s: State, who: nat)
    requires Sound(finite, s) && who in s.clients && s.clients[who].request.Save?
    ensures forall key :: IsDecided(StepSave(s, who), key) ==> IsDecided(s, key)
  {
    ClientOf(finite, s, who);
    var client := s.clients[who];
    hide Sound, SoundClient;
    assert forall key :: key in client.request.parts && client.progress.Routed? && SaveCommits(s, client) ==>
        key !in s.parts;
    if client.progress.Routed? {
      AcceptableOf(finite, s, who);
      forall key | key in client.request.parts ensures client.request.parts[key].decision.None? {
        assert NewPart(client.request.parts[key], client.request.version);
      }
    }
  }

  lemma AcceptableOf(finite: real -> bool, s: State, who: nat)
    requires Sound(finite, s) && who in s.clients && s.clients[who].request.Save? && s.clients[who].progress.Routed?
    ensures Acceptable(s.clients[who].request)
  {
    ClientOf(finite, s, who);
  }

  /**
   Whenever a decision is written, at that very moment: the kill switch is off, the plan version is
   current, the decider is the part's approver with a limit that covers its cost, and the part has
   neither expired nor been superseded by a new plan.
   */
  lemma DecisionIsGuarded(finite: real -> bool, s: State, move: Move, key: string)
    requires Sound(finite, s) && !IsDecided(s, key) && IsDecided(After(finite, s, move), key)
    ensures key in s.parts && s.parts[key].version == s.version && s.kill.Some? && IsOff(s.kill.value)
    ensures var part, decision := s.parts[key], After(finite, s, move).parts[key].decision.value;
      && part.tier == 2 && part.approver == Some(decision.actor) && !part.expired && !Superseding(part)
         && decision.at < part.deadline
      && decision.actor in s.limits
      && var limit := s.limits[decision.actor];
         && limit.userId == decision.actor && limit.plant == part.plant && limit.limitUsd >= part.cost
         && limit.validFrom <= decision.at / (24 * 3600 * 1000000) <= limit.validTo
  {
    OnlyDecideDecides(finite, s, move, key);
    ClientOf(finite, s, move.who);
    var client := s.clients[move.who];
    hide After, IsOff, SoundRoutes, SoundClients, SoundOutbox;
    assert client.progress.part == s.parts[key];
    assert SoundPart(s.parts[key], s.version);
  }

  // ----- Superseding -----

  /**
   `decide` does not look at `superseded`. A superseded part can be decided exactly when the version
   that superseded it is its own: when a reallocation escalated the case instead of proposing a plan.
   */
  lemma SupersededDecidedOnlyIfEscalated(finite: real -> bool, s: State, moves: seq<Move>, key: string)
    requires Sound(finite, s)
    ensures var t := Run(finite, s, moves);
      key in t.parts && t.parts[key].supersededBy.Some? && t.parts[key].decision.Some? ==>
        t.parts[key].supersededBy.value == t.parts[key].version
  {
    RunKeeps(finite, s, moves);
    hide Run;
    var t := Run(finite, s, moves);
    assert key in t.parts ==> SoundPart(t.parts[key], t.version);
  }

  /** The conditions of the decision's transaction hold for an escalated part like for any other of its version. */
  lemma SupersededDecidable(finite: real -> bool, s: State, client: Client)
    requires Sound(finite, s) && SoundClient(finite, s, client) && client.request.Decide? && client.progress.SawSwitch?
    requires Unchanged(s, client.progress.key, client.progress.part) && s.kill == Some(client.progress.kill)
    requires client.request.actor in s.limits && s.limits[client.request.actor] == client.progress.limit
    requires s.outbox[Verdict(client.request, client.progress.key)] == 0 && client.progress.part.supersededBy.Some?
    requires s.version <= client.progress.part.supersededBy.value
    ensures DecideCommits(s, client) <==> client.progress.part.supersededBy.value == client.progress.part.version
  {
    assert SoundPart(s.parts[client.progress.key], s.version);
  }
}
