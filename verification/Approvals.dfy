/**
 The approval record of one case under concurrent writers: `save`, `decide`, `tick` and `reallocate` of
 services/routing/store.py. Each move makes one read or one conditional transaction; any number of
 requests interleave with changes of configuration and with new plan versions.
 */
module Approvals {
  import opened Basics
  import Routing

  datatype Decision = Decision(actor: string, approved: bool, at: int)

  datatype Part = Part(
    version: nat, tier: int, cost: real, plant: string, approver: Option<string>, deadline: int, reminder: int,
    reminded: bool, expired: bool, expiredApprover: Option<string>, decision: Option<Decision>,
    supersededBy: Option<nat>, revision: nat)

  /** Only the two states of the case that `reallocate` tells apart, and where it leads. */
  datatype Status = AwaitingApproval | Investigating | Escalated | Other

  datatype Message =
    | PlanApproved(key: string)
    | PlanRejected(key: string)
    | Reminder(key: string)
    | Expiry(key: string)
    | PlanProposed(version: nat)
    | Reallocated(version: nat)
    | PlanRouted(version: nat)

  datatype Request =
    | Save(version: nat, parts: map<string, Part>)
    | Decide(actor: string, approve: bool, now: int)
    | Tick(key: string, now: int)
    | Reallocate(repropose: bool)

  /** What a request has read so far. */
  datatype Progress =
    | Begun
    | SawMissed(missed: set<string>)
    | Routed(missed: set<string>)
    | SawVersion(version: nat)
    | SawPart(key: string, part: Part)
    | SawLimit(key: string, part: Part, limit: Routing.Limit)
    | SawSwitch(key: string, part: Part, limit: Routing.Limit, kill: string)
    | SawBackup(key: string, part: Part, backup: Option<string>)
    | Gathering(version: nat, todo: set<string>, pending: map<string, Part>)
    | Escalating
    | Done

  datatype Client = Client(request: Request, progress: Progress)

  datatype State = State(
    version: nat, status: Status, routes: map<nat, set<string>>, parts: map<string, Part>, outbox: multiset<Message>,
    kill: Option<string>, limits: map<string, Routing.Limit>, clients: map<nat, Client>)

  /** `pick` names the part or the backup approver a step looks at, where it looks at one. */
  datatype Move =
    | Start(who: nat, request: Request)
    | Step(who: nat, pick: string)
    | SetSwitch(kill: Option<string>)
    | SetLimit(user: string, limit: Option<Routing.Limit>)
    | NewPlan
    | SetStatus(status: Status)

  // ----- Vocabulary -----

  function Lower(s: string): string {
    seq(|s|, i requires 0 <= i < |s| => if 'A' <= s[i] <= 'Z' then (s[i] as int + 32) as char else s[i])
  }

  predicate IsOff(kill: string) {
    Lower(kill) in {"off", "false", "0"}
  }

  /** Approvers who let an approval of this case expire. */
  function Missed(s: State): set<string> {
    set key | key in s.parts && s.parts[key].expiredApprover.Some? :: s.parts[key].expiredApprover.value
  }

  /** A part as `save` stores it. */
  predicate NewPart(part: Part, version: nat) {
    && part.version == version && part.tier in {1, 2} && (part.tier == 2 <==> part.approver.Some?)
    && !part.reminded && !part.expired && part.expiredApprover.None? && part.decision.None? && part.supersededBy.None?
    && part.revision == 0
  }

  predicate May(request: Request, part: Part) {
    && request.Decide? && part.tier == 2 && part.decision.None? && part.approver == Some(request.actor)
    && !part.expired && request.now < part.deadline
  }

  predicate Due(part: Part, now: int) {
    && part.supersededBy.None? && part.tier == 2 && part.decision.None? && !part.expired
    && now >= part.reminder && (now >= part.deadline || !part.reminded)
  }

  /** Expired with nobody to take over: a timer that stopped before escalating the case tries again. */
  predicate Stranded(part: Part) {
    part.supersededBy.None? && part.expired && part.approver.None? && part.decision.None?
  }

  predicate Waiting(part: Part) {
    part.tier == 2 && part.decision.None? && !part.expired
  }

  function TickMessage(key: string, part: Part, now: int): Message {
    if now >= part.deadline then Expiry(key) else Reminder(key)
  }

  function Ticked(part: Part, now: int, backup: Option<string>): Part {
    if now >= part.deadline
    then part.(expired := true, expiredApprover := part.approver, approver := backup, revision := part.revision + 1)
    else part.(reminded := true, revision := part.revision + 1)
  }

  function Decided(part: Part, request: Request): Part
    requires request.Decide?
  {
    part.(decision := Some(Decision(request.actor, request.approve, request.now)), revision := part.revision + 1)
  }

  function Verdict(request: Request, key: string): Message
    requires request.Decide?
  {
    if request.approve then PlanApproved(key) else PlanRejected(key)
  }

  // ----- One step of a request -----

  predicate Unchanged(s: State, key: string, part: Part) {
    key in s.parts && s.parts[key].revision == part.revision
  }

  /** The conditions of the transaction of `decide`. */
  predicate DecideCommits(s: State, client: Client)
    requires client.request.Decide? && client.progress.SawSwitch?
  {
    var p := client.progress;
    && Unchanged(s, p.key, p.part) && s.version == p.part.version && s.kill == Some(p.kill)
    && client.request.actor in s.limits && s.limits[client.request.actor] == p.limit
    && s.outbox[Verdict(client.request, p.key)] == 0
  }

  predicate TickCommits(s: State, client: Client)
    requires client.request.Tick? && client.progress.SawBackup?
  {
    var p := client.progress;
    Unchanged(s, p.key, p.part) && s.outbox[TickMessage(p.key, p.part, client.request.now)] == 0
  }

  function Following(client: Client, version: nat): nat {
    if client.request == Reallocate(true) then version + 1 else version
  }

  function ReallocateMessage(client: Client, version: nat): Message {
    if client.request == Reallocate(true) then PlanProposed(version + 1) else Reallocated(version)
  }

  predicate ReallocateCommits(s: State, client: Client)
    requires client.progress.Gathering?
  {
    var p := client.progress;
    && s.status.AwaitingApproval? && s.version == p.version
    && (forall key <- p.pending :: Unchanged(s, key, p.pending[key]))
    && s.outbox[ReallocateMessage(client, p.version)] == 0
  }

  predicate SaveCommits(s: State, client: Client)
    requires client.request.Save?
  {
    var r := client.request;
    && r.version !in s.routes && s.version == r.version && s.outbox[PlanRouted(r.version)] == 0
    && forall key <- r.parts :: key !in s.parts && (r.parts[key].tier == 1 ==> s.outbox[PlanApproved(key)] == 0)
  }

  function AutoApproved(parts: map<string, Part>): set<Message> {
    set key | key in parts && parts[key].tier == 1 :: PlanApproved(key)
  }

  function Superseded(parts: map<string, Part>, pending: map<string, Part>, version: nat): map<string, Part> {
    map key | key in parts ::
      if key in pending then parts[key].(supersededBy := Some(version), revision := parts[key].revision + 1)
        else parts[key]
  }

  function Now(s: State, who: nat, progress: Progress): State
    requires who in s.clients
  {
    s.(clients := s.clients[who := s.clients[who].(progress := progress)])
  }

  /** Eligible by the limits of now, and has not let an approval of this case expire. */
  predicate MayBackUp(finite: real -> bool, s: State, part: Part, now: int, user: string) {
    && user in s.limits && s.limits[user].userId == user && Some(user) != part.approver && user !in Missed(s)
    && Routing.Sufficient(finite, s.limits[user], part.plant, part.cost, now)
  }

  function StepSave(s: State, who: nat): State
    requires who in s.clients && s.clients[who].request.Save?
  {
    var client := s.clients[who];
    var parts := client.request.parts;
    match client.progress
    case Begun => Now(s, who, SawMissed(Missed(s)))
    case SawMissed(missed) =>
      if forall key <- parts :: parts[key].approver.Some? ==>
        parts[key].approver.value in s.limits && parts[key].approver.value !in missed
      then Now(s, who, Routed(missed)) else Now(s, who, Done)
    case Routed(_) =>
      if !SaveCommits(s, client) then Now(s, who, Done)
      else
        Now(s, who, Done).(parts := s.parts + parts, routes := s.routes[client.request.version := parts.Keys],
                           outbox := s.outbox + multiset(AutoApproved(parts))
                             + multiset{PlanRouted(client.request.version)})
    case _ => s
  }

  function StepDecide(finite: real -> bool, s: State, who: nat, pick: string): State
    requires who in s.clients && s.clients[who].request.Decide?
  {
    var client := s.clients[who];
    var request := client.request;
    match client.progress
    case Begun => Now(s, who, SawVersion(s.version))
    case SawVersion(version) =>
      if version in s.routes && pick in s.routes[version] && pick in s.parts && May(request, s.parts[pick])
      then Now(s, who, SawPart(pick, s.parts[pick])) else Now(s, who, Done)
    case SawPart(key, part) =>
      if request.actor in s.limits && s.limits[request.actor].userId == request.actor
         && Routing.Sufficient(finite, s.limits[request.actor], part.plant, part.cost, request.now)
      then Now(s, who, SawLimit(key, part, s.limits[request.actor])) else Now(s, who, Done)
    case SawLimit(key, part, limit) =>
      if s.kill.Some? && IsOff(s.kill.value) then Now(s, who, SawSwitch(key, part, limit, s.kill.value))
        else Now(s, who, Done)
    case SawSwitch(key, part, _, _) =>
      if !DecideCommits(s, client) then Now(s, who, Done)
      else Now(s, who, Done).(parts := s.parts[key := Decided(part, request)],
        outbox := s.outbox + multiset{Verdict(request, key)})
    case _ => s
  }

  function StepTick(finite: real -> bool, s: State, who: nat, pick: string): State
    requires who in s.clients && s.clients[who].request.Tick?
  {
    var client := s.clients[who];
    var key, now := client.request.key, client.request.now;
    match client.progress
    case Begun =>
      if key in s.parts && Stranded(s.parts[key]) then Now(s, who, Escalating)
      else if key in s.parts && Due(s.parts[key], now) then Now(s, who, SawPart(key, s.parts[key]))
      else Now(s, who, Done)
    case SawPart(_, part) =>
      if now < part.deadline then Now(s, who, SawBackup(key, part, None))
      else if MayBackUp(finite, s, part, now, pick) then Now(s, who, SawBackup(key, part, Some(pick)))
      else if exists user <- s.limits :: MayBackUp(finite, s, part, now, user) then s
      else Now(s, who, SawBackup(key, part, None))
    case SawBackup(_, part, backup) =>
      if !TickCommits(s, client) then Now(s, who, Done)
      else
        Now(s, who, if now >= part.deadline && backup.None? then Escalating else Done)
        .(parts := s.parts[key := Ticked(part, now, backup)],
          outbox := s.outbox + multiset{TickMessage(key, part, now)})
    case Escalating => Now(s, who, Done).(status := if s.status.AwaitingApproval? then Escalated else s.status)
    case _ => s
  }

  function StepReallocate(s: State, who: nat, pick: string): State
    requires who in s.clients && s.clients[who].request.Reallocate?
  {
    var client := s.clients[who];
    match client.progress
    case Begun => Now(s, who, if s.status.AwaitingApproval? then SawVersion(s.version) else Done)
    case SawVersion(version) =>
      if version in s.routes then Now(s, who, Gathering(version, s.routes[version], map[])) else Now(s, who, Done)
    case Gathering(version, todo, pending) =>
      if pick in todo then
        if pick !in s.parts || !Waiting(s.parts[pick]) then Now(s, who, Done)
        else
          var more := if s.parts[pick].supersededBy.None? then pending[pick := s.parts[pick]] else pending;
          Now(s, who, Gathering(version, todo - {pick}, more))
      else if todo != {} then s
      else if !ReallocateCommits(s, client) then Now(s, who, Done)
      else
        Now(s, who, Done).(status := if client.request.repropose then Investigating else Escalated,
                           version := Following(client, version),
                           parts := Superseded(s.parts, pending, Following(client, version)),
                           outbox := s.outbox + multiset{ReallocateMessage(client, version)})
    case _ => s
  }

  /** A route to save has new parts, at most one of them for a person. */
  predicate Acceptable(request: Request) {
    request.Save? ==>
      && (forall key <- request.parts :: NewPart(request.parts[key], request.version))
      && forall a <- request.parts, b <- request.parts :: request.parts[a].tier == 2 && request.parts[b].tier == 2 ==>
         a == b
  }

  /** Any move: a request arriving or advancing, or the rest of the system changing what requests read. */
  function After(finite: real -> bool, s: State, move: Move): State {
    match move
    case Start(who, request) =>
      if who in s.clients || !Acceptable(request) then s else s.(clients := s.clients[who := Client(request, Begun)])
    case SetSwitch(kill) => s.(kill := kill)
    case SetLimit(user, limit) => s.(limits := if limit.Some? then s.limits[user := limit.value] else s.limits - {user})
    case NewPlan => s.(version := s.version + 1)
    case SetStatus(status) => s.(status := status)
    case Step(who, pick) =>
      if who !in s.clients then s
      else
        match s.clients[who].request
        case Save(_, _) => StepSave(s, who)
        case Decide(_, _, _) => StepDecide(finite, s, who, pick)
        case Tick(_, _) => StepTick(finite, s, who, pick)
        case Reallocate(_) => StepReallocate(s, who, pick)
  }

  function Run(finite: real -> bool, s: State, moves: seq<Move>): State
    decreases |moves|
  {
    if moves == [] then s else Run(finite, After(finite, s, moves[0]), moves[1..])
  }

  // ----- What holds in every reachable state -----

  /** A part read earlier: its revision tells whether it is still the same, and its terms never change. */
  predicate Read(parts: map<string, Part>, key: string, part: Part) {
    && key in parts && part.revision <= parts[key].revision
       && (part.revision == parts[key].revision ==> part == parts[key])
    && part.version == parts[key].version
  }

  predicate Superseding(part: Part) {
    part.supersededBy.Some? && part.supersededBy.value > part.version
  }

  /** How often a part has ended: decided, expired, or superseded by a new plan. */
  function Endings(part: Part): nat {
    (if part.decision.Some? then 1 else 0) + (if part.expired then 1 else 0) + (if Superseding(part) then 1 else 0)
  }

  /** A part ends at most once; only the part of a person does; superseding never passes the current version. */
  predicate SoundPart(part: Part, version: nat) {
    && part.tier in {1, 2} && part.version <= version && Endings(part) <= 1
    && (part.tier == 1 ==> part.decision.None? && !part.expired && part.supersededBy.None?)
    && (part.supersededBy.Some? ==> part.version <= part.supersededBy.value <= version && !part.expired)
    && (part.expired <==> part.expiredApprover.Some?) && (part.tier == 2 && !part.expired ==> part.approver.Some?)
  }

  predicate SoundClient(finite: real -> bool, s: State, client: Client) {
    match client.progress
    case SawVersion(version) => version <= s.version
    case SawPart(key, part) =>
      && Read(s.parts, key, part)
      && (client.request.Decide? ==> May(client.request, part))
      && (client.request.Tick? ==> key == client.request.key && Due(part, client.request.now))
    case SawLimit(key, part, limit) =>
      && client.request.Decide? && Read(s.parts, key, part) && May(client.request, part)
         && limit.userId == client.request.actor
      && Routing.Sufficient(finite, limit, part.plant, part.cost, client.request.now)
    case SawSwitch(key, part, limit, kill) =>
      && client.request.Decide? && Read(s.parts, key, part) && May(client.request, part)
         && limit.userId == client.request.actor
      && Routing.Sufficient(finite, limit, part.plant, part.cost, client.request.now) && IsOff(kill)
    case SawBackup(key, part, _) =>
      client.request.Tick? && key == client.request.key && Read(s.parts, key, part) && Due(part, client.request.now)
    case Gathering(version, todo, pending) =>
      && client.request.Reallocate? && version <= s.version && version in s.routes && todo <= s.routes[version]
      && (forall key <- pending ::
         Read(s.parts, key, pending[key]) && Waiting(pending[key])
         && pending[key].supersededBy.None?
         && pending[key].version == version)
    case Routed(missed) =>
      && Acceptable(client.request) && client.request.Save?
      && forall key <- client.request.parts ::
           client.request.parts[key].approver.Some? ==> client.request.parts[key].approver.value !in missed
    case _ => Acceptable(client.request)
  }

  ghost predicate SoundParts(s: State) {
    forall key :: key in s.parts ==> SoundPart(s.parts[key], s.version)
  }

  ghost predicate SoundRoutes(s: State) {
    forall version, key :: version in s.routes && key in s.routes[version] ==>
      key in s.parts && s.parts[key].version == version
  }

  ghost predicate SoundClients(finite: real -> bool, s: State) {
    forall who :: who in s.clients ==> SoundClient(finite, s, s.clients[who])
  }

  predicate Approved(s: State, key: string) {
    key in s.parts && (s.parts[key].tier == 1 || (s.parts[key].decision.Some? && s.parts[key].decision.value.approved))
  }

  ghost predicate SoundOutbox(s: State) {
    forall key :: s.outbox[PlanApproved(key)] == if Approved(s, key) then 1 else 0
  }

  ghost predicate Sound(finite: real -> bool, s: State) {
    SoundParts(s) && SoundRoutes(s) && SoundClients(finite, s) && SoundOutbox(s)
  }

  lemma SoundAtFirst(finite: real -> bool, version: nat, status: Status, kill: Option<string>,
                     limits: map<string, Routing.Limit>)
    ensures Sound(finite, State(version, status, map[], map[], multiset{}, kill, limits, map[]))
  {}

  /** Parts are never lost, keep their version, and change only with their revision; versions and routes only grow. */
  ghost predicate Grows(s: State, t: State) {
    && (forall key :: key in s.parts ==> Read(t.parts, key, s.parts[key]))
    && s.version <= t.version
    && (forall version :: version in s.routes ==> version in t.routes && t.routes[version] == s.routes[version])
  }

  lemma ClientStays(finite: real -> bool, s: State, t: State, client: Client)
    requires SoundClient(finite, s, client) && Grows(s, t)
    ensures SoundClient(finite, t, client)
  {
    hide Acceptable, Due, May, Waiting, IsOff, Read;
    match client.progress
    case SawPart(key, part) => ReadNow(s, t, key, part);
    case SawLimit(key, part, _) => ReadNow(s, t, key, part);
    case SawSwitch(key, part, _, _) => ReadNow(s, t, key, part);
    case SawBackup(key, part, _) => ReadNow(s, t, key, part);
    case Gathering(_, _, pending) =>
      forall key | key in pending ensures Read(t.parts, key, pending[key]) {
        ReadNow(s, t, key, pending[key]);
      }
    case _ =>
  }

  lemma ReadNow(s: State, t: State, key: string, part: Part)
    requires Read(s.parts, key, part) && Grows(s, t)
    ensures Read(t.parts, key, part)
  {}

  /** All clients but the one that moves stay sound when the state grows. */
  lemma ClientsStay(finite: real -> bool, s: State, t: State, who: nat)
    requires SoundClients(finite, s) && Grows(s, t)
    requires who in t.clients && SoundClient(finite, t, t.clients[who])
    requires forall other :: other in t.clients && other != who ==>
            other in s.clients && t.clients[other] == s.clients[other]
    ensures SoundClients(finite, t)
  {
    hide SoundClient, Grows;
    forall other | other in t.clients ensures SoundClient(finite, t, t.clients[other]) {
      if other != who {
        ClientStays(finite, s, t, s.clients[other]);
      }
    }
  }

  /** A step that only reads. */
  lemma ReadingKeeps(finite: real -> bool, s: State, who: nat, progress: Progress)
    requires Sound(finite, s) && who in s.clients
    requires SoundClient(finite, s, s.clients[who].(progress := progress))
    ensures Sound(finite, Now(s, who, progress))
  {
    hide SoundPart, SoundClient;
    var t := Now(s, who, progress);
    ClientStays(finite, s, t, s.clients[who].(progress := progress));
    ClientsStay(finite, s, t, who);
  }

  // ----- Each transaction keeps the invariant -----

  lemma DecideCommitKeeps(finite: real -> bool, s: State, who: nat)
    requires Sound(finite, s) && who in s.clients && s.clients[who].request.Decide?
            && s.clients[who].progress.SawSwitch?
    requires DecideCommits(s, s.clients[who])
    ensures Sound(finite, StepDecide(finite, s, who, ""))
  {
    var client := s.clients[who];
    var key, part := client.progress.key, client.progress.part;
    assert SoundClient(finite, s, client);
    assert part == s.parts[key] && SoundPart(part, s.version);
    var t := StepDecide(finite, s, who, "");
    assert SoundPart(t.parts[key], t.version);
    hide SoundPart, SoundClient, DecideCommits, May, Read;
    RevisedGrows(s, t, key);
    RevisedParts(s, t, key);
    assert SoundClient(finite, t, t.clients[who]) by {
      EndedIsSound(finite, t, t.clients[who]);
    }
    ClientsStay(finite, s, t, who);
    forall other ensures t.outbox[PlanApproved(other)] == if Approved(t, other) then 1 else 0 {
      assert s.outbox[PlanApproved(other)] == if Approved(s, other) then 1 else 0;
    }
  }

  lemma EndedIsSound(finite: real -> bool, s: State, client: Client)
    requires (client.progress.Done? || client.progress.Escalating?) && Acceptable(client.request)
    ensures SoundClient(finite, s, client)
  {}

  /** One part revised. */
  lemma RevisedGrows(s: State, t: State, key: string)
    requires key in s.parts && key in t.parts && t.parts == s.parts[key := t.parts[key]]
    requires t.parts[key].revision == s.parts[key].revision + 1 && t.parts[key].version == s.parts[key].version
    requires t.version == s.version && t.routes == s.routes
    ensures Grows(s, t)
  {}

  lemma RevisedParts(s: State, t: State, key: string)
    requires SoundParts(s) && SoundRoutes(s) && key in s.parts && key in t.parts
            && t.parts == s.parts[key := t.parts[key]]
    requires SoundPart(t.parts[key], t.version) && t.parts[key].version == s.parts[key].version
    requires t.version == s.version && t.routes == s.routes
    ensures SoundParts(t) && SoundRoutes(t)
  {
    hide SoundPart;
  }

  lemma TickCommitKeeps(finite: real -> bool, s: State, who: nat)
    requires Sound(finite, s) && who in s.clients && s.clients[who].request.Tick? && s.clients[who].progress.SawBackup?
    requires TickCommits(s, s.clients[who])
    ensures Sound(finite, StepTick(finite, s, who, ""))
  {
    var client := s.clients[who];
    var key, part := client.request.key, client.progress.part;
    assert SoundClient(finite, s, client);
    assert part == s.parts[key] && SoundPart(part, s.version);
    var t := StepTick(finite, s, who, "");
    assert SoundPart(t.parts[key], t.version);
    assert t.parts[key].tier == part.tier && t.parts[key].decision == part.decision;
    hide SoundPart, SoundClient, TickCommits, Read, Due;
    RevisedGrows(s, t, key);
    RevisedParts(s, t, key);
    assert SoundClient(finite, t, t.clients[who]) by {
      EndedIsSound(finite, t, t.clients[who]);
    }
    ClientsStay(finite, s, t, who);
    forall other ensures t.outbox[PlanApproved(other)] == if Approved(t, other) then 1 else 0 {
      assert s.outbox[PlanApproved(other)] == if Approved(s, other) then 1 else 0;
      assert Approved(t, other) == Approved(s, other);
    }
  }

  lemma ReallocateCommitKeeps(finite: real -> bool, s: State, who: nat)
    requires Sound(finite, s) && who in s.clients && s.clients[who].request.Reallocate?
            && s.clients[who].progress.Gathering?
    requires s.clients[who].progress.todo == {} && ReallocateCommits(s, s.clients[who])
    ensures Sound(finite, StepReallocate(s, who, ""))
  {
    var client := s.clients[who];
    var pending := client.progress.pending;
    assert SoundClient(finite, s, client);
    var t := StepReallocate(s, who, "");
    assert t.parts == Superseded(s.parts, pending, t.version) && s.version <= t.version <= s.version + 1;
    forall key | key in s.parts ensures SupersededWell(s, t, key) {
      if key in pending {
        assert pending[key] == s.parts[key];
      }
    }
    assert forall key :: key in t.parts <==> key in s.parts;
    hide SoundPart, SoundClient, Superseded, ReallocateCommits, Read, Waiting;
    assert Grows(s, t) && SoundParts(t) && SoundRoutes(t) by {
      SupersededGrows(s, t);
    }
    assert SoundClient(finite, t, t.clients[who]) by {
      EndedIsSound(finite, t, t.clients[who]);
    }
    ClientsStay(finite, s, t, who);
    forall other ensures t.outbox[PlanApproved(other)] == if Approved(t, other) then 1 else 0 {
      assert s.outbox[PlanApproved(other)] == if Approved(s, other) then 1 else 0;
      assert other in s.parts ==> SupersededWell(s, t, other);
    }
  }

  predicate SupersededWell(s: State, t: State, key: string)
    requires key in s.parts
  {
    && Read(t.parts, key, s.parts[key]) && SoundPart(t.parts[key], t.version)
    && t.parts[key].tier == s.parts[key].tier && t.parts[key].decision == s.parts[key].decision
  }

  lemma SupersededGrows(s: State, t: State)
    requires SoundRoutes(s) && s.version <= t.version && t.routes == s.routes && t.parts.Keys == s.parts.Keys
    requires forall key :: key in s.parts ==> SupersededWell(s, t, key)
    ensures Grows(s, t) && SoundParts(t) && SoundRoutes(t)
  {
    hide SoundPart;
    forall key | key in t.parts ensures SoundPart(t.parts[key], t.version) {
      assert key in s.parts.Keys;
      assert SupersededWell(s, t, key);
    }
    forall version, key | version in t.routes && key in t.routes[version]
      ensures key in t.parts && t.parts[key].version == version {
      assert key in s.parts && SupersededWell(s, t, key);
    }
  }

  lemma SaveCommitKeeps(finite: real -> bool, s: State, who: nat)
    requires Sound(finite, s) && who in s.clients && s.clients[who].request.Save? && s.clients[who].progress.Routed?
    requires SaveCommits(s, s.clients[who])
    ensures Sound(finite, StepSave(s, who))
  {
    var client := s.clients[who];
    var parts := client.request.parts;
    assert SoundClient(finite, s, client);
    assert Acceptable(client.request);
    var t := StepSave(s, who);
    forall key | key in parts
      ensures SoundPart(parts[key], t.version) && key !in s.parts && parts[key].version == t.version {
      assert NewPart(parts[key], client.request.version);
    }
    hide SoundPart, SoundClient, Acceptable, NewPart;
    SavedGrows(s, t, client.request.version, parts);
    assert SoundClient(finite, t, t.clients[who]) by {
      EndedIsSound(finite, t, t.clients[who]);
    }
    ClientsStay(finite, s, t, who);
    forall key ensures t.outbox[PlanApproved(key)] == if Approved(t, key) then 1 else 0 {
      assert s.outbox[PlanApproved(key)] == if Approved(s, key) then 1 else 0;
      NewApproval(s, t, client.request, key);
    }
  }

  /** One route saved with its parts. */
  lemma SavedGrows(s: State, t: State, version: nat, parts: map<string, Part>)
    requires SoundParts(s) && SoundRoutes(s) && version !in s.routes && t.version == s.version
    requires t.parts == s.parts + parts && t.routes == s.routes[version := parts.Keys]
    requires forall key :: key in parts ==>
            key !in s.parts && SoundPart(parts[key], t.version) && parts[key].version == version
    ensures Grows(s, t) && SoundParts(t) && SoundRoutes(t)
  {
    hide SoundPart;
    forall key | key in s.parts ensures Read(t.parts, key, s.parts[key]) {
      assert t.parts[key] == s.parts[key];
    }
  }

  lemma NewApproval(s: State, t: State, request: Request, key: string)
    requires request.Save? && Acceptable(request) && t.parts == s.parts + request.parts
    requires t.outbox == s.outbox + multiset(AutoApproved(request.parts)) + multiset{PlanRouted(request.version)}
    requires forall other :: other in request.parts ==> other !in s.parts
    requires s.outbox[PlanApproved(key)] == if Approved(s, key) then 1 else 0
    ensures t.outbox[PlanApproved(key)] == if Approved(t, key) then 1 else 0
  {
    assert PlanApproved(key) in AutoApproved(request.parts) <==> key in request.parts && request.parts[key].tier == 1;
    if key in request.parts {
      assert NewPart(request.parts[key], request.version);
    }
  }

  // ----- Every move keeps the invariant -----

  lemma SaveKeeps(finite: real -> bool, s: State, who: nat)
    requires Sound(finite, s) && who in s.clients && s.clients[who].request.Save?
    ensures Sound(finite, StepSave(s, who))
  {
    hide Sound, SaveCommits, Acceptable;
    var client := s.clients[who];
    ClientOf(finite, s, who);
    match client.progress
    case Begun => SaveReads(finite, s, who, SawMissed(Missed(s)));
    case SawMissed(missed) =>
      SaveReads(finite, s, who, Done);
      if StepSave(s, who) != Now(s, who, Done) {
        ReadingKeeps(finite, s, who, Routed(missed));
      }
    case Routed(_) =>
      if SaveCommits(s, client) {
        SaveCommitKeeps(finite, s, who);
      } else {
        SaveReads(finite, s, who, Done);
      }
    case _ =>
  }

  lemma ClientOf(finite: real -> bool, s: State, who: nat)
    requires Sound(finite, s) && who in s.clients
    ensures SoundClient(finite, s, s.clients[who])
  {}

  lemma SaveReads(finite: real -> bool, s: State, who: nat, progress: Progress)
    requires Sound(finite, s) && who in s.clients && s.clients[who].request.Save?
    requires s.clients[who].progress.Begun? || s.clients[who].progress.SawMissed? || s.clients[who].progress.Routed?
    requires progress.SawMissed? || progress.Done?
    ensures Sound(finite, Now(s, who, progress))
  {
    hide Sound;
    ClientOf(finite, s, who);
    ReadingKeeps(finite, s, who, progress);
  }

  lemma ReadsTrue(s: State, key: string)
    requires key in s.parts
    ensures Read(s.parts, key, s.parts[key])
  {}

  lemma DecideKeeps(finite: real -> bool, s: State, who: nat, pick: string)
    requires Sound(finite, s) && who in s.clients && s.clients[who].request.Decide?
    ensures Sound(finite, StepDecide(finite, s, who, pick))
  {
    hide Sound, DecideCommits, May, Read, Routing.Sufficient, IsOff, SoundPart;
    var client := s.clients[who];
    ClientOf(finite, s, who);
    ReadingKeeps(finite, s, who, Done);
    match client.progress
    case Begun => ReadingKeeps(finite, s, who, SawVersion(s.version));
    case SawVersion(version) =>
      if version in s.routes && pick in s.routes[version] && pick in s.parts && May(client.request, s.parts[pick]) {
        ReadsTrue(s, pick);
        ReadingKeeps(finite, s, who, SawPart(pick, s.parts[pick]));
      }
    case SawPart(key, part) =>
      if StepDecide(finite, s, who, pick) != Now(s, who, Done) {
        ReadingKeeps(finite, s, who, SawLimit(key, part, s.limits[client.request.actor]));
      }
    case SawLimit(key, part, limit) =>
      if s.kill.Some? && IsOff(s.kill.value) {
        ReadingKeeps(finite, s, who, SawSwitch(key, part, limit, s.kill.value));
      }
    case SawSwitch(_, _, _, _) =>
      if DecideCommits(s, client) {
        DecideCommitKeeps(finite, s, who);
      }
    case _ =>
  }

  lemma TickKeeps(finite: real -> bool, s: State, who: nat, pick: string)
    requires Sound(finite, s) && who in s.clients && s.clients[who].request.Tick?
    ensures Sound(finite, StepTick(finite, s, who, pick))
  {
    hide Sound, TickCommits, Due, Stranded, Read, MayBackUp, SoundPart;
    var client := s.clients[who];
    var key, now := client.request.key, client.request.now;
    ClientOf(finite, s, who);
    ReadingKeeps(finite, s, who, Done);
    match client.progress
    case Begun =>
      ReadingKeeps(finite, s, who, Escalating);
      if key in s.parts && Due(s.parts[key], now) {
        ReadsTrue(s, key);
        ReadingKeeps(finite, s, who, SawPart(key, s.parts[key]));
      }
    case SawPart(_, part) =>
      ReadingKeeps(finite, s, who, SawBackup(key, part, None));
      ReadingKeeps(finite, s, who, SawBackup(key, part, Some(pick)));
    case SawBackup(_, _, _) =>
      if TickCommits(s, client) {
        TickCommitKeeps(finite, s, who);
      }
    case Escalating =>
      StatusKeeps(finite, Now(s, who, Done), if s.status.AwaitingApproval? then Escalated else s.status);
    case _ =>
  }

  lemma StatusKeeps(finite: real -> bool, s: State, status: Status)
    requires Sound(finite, s)
    ensures Sound(finite, s.(status := status))
  {
    hide SoundPart, SoundClient;
    EnvironmentKeeps(finite, s, s.(status := status));
  }

  /** Changes outside the approval records. */
  lemma EnvironmentKeeps(finite: real -> bool, s: State, t: State)
    requires Sound(finite, s) && t.parts == s.parts && t.routes == s.routes && t.outbox == s.outbox
            && s.version <= t.version
    requires t.clients == s.clients
    ensures Sound(finite, t)
  {
    assert SoundParts(t);
    hide SoundPart, SoundClient;
    assert Grows(s, t);
    forall who | who in t.clients ensures SoundClient(finite, t, t.clients[who]) {
      ClientStays(finite, s, t, s.clients[who]);
    }
  }

  lemma ReallocateKeeps(finite: real -> bool, s: State, who: nat, pick: string)
    requires Sound(finite, s) && who in s.clients && s.clients[who].request.Reallocate?
    ensures Sound(finite, StepReallocate(s, who, pick))
  {
    hide Sound, ReallocateCommits, Waiting, Read, SoundPart;
    var client := s.clients[who];
    ClientOf(finite, s, who);
    ReadingKeeps(finite, s, who, Done);
    match client.progress
    case Begun => ReadingKeeps(finite, s, who, SawVersion(s.version));
    case SawVersion(version) =>
      if version in s.routes {
        ReadingKeeps(finite, s, who, Gathering(version, s.routes[version], map[]));
      }
    case Gathering(version, todo, pending) =>
      if pick in todo && pick in s.parts && Waiting(s.parts[pick]) {
        ReadsTrue(s, pick);
        RouteVersion(finite, s, version, pick);
        ReadingKeeps(finite, s, who, Gathering(version, todo - {pick}, pending));
        if s.parts[pick].supersededBy.None? {
          ReadingKeeps(finite, s, who, Gathering(version, todo - {pick}, pending[pick := s.parts[pick]]));
        }
      } else if todo == {} && ReallocateCommits(s, client) {
        ReallocateCommitKeeps(finite, s, who);
      }
    case _ =>
  }

  lemma RouteVersion(finite: real -> bool, s: State, version: nat, key: string)
    requires Sound(finite, s) && version in s.routes && key in s.routes[version]
    ensures key in s.parts && s.parts[key].version == version
  {}

  lemma StartKeeps(finite: real -> bool, s: State, who: nat, request: Request)
    requires Sound(finite, s) && who !in s.clients && Acceptable(request)
    ensures Sound(finite, s.(clients := s.clients[who := Client(request, Begun)]))
  {
    hide SoundPart, Acceptable;
    var t := s.(clients := s.clients[who := Client(request, Begun)]);
    assert Grows(s, t);
    assert SoundClient(finite, t, t.clients[who]);
    ClientsStay(finite, s, t, who);
  }

  lemma MoveKeeps(finite: real -> bool, s: State, move: Move)
    requires Sound(finite, s)
    ensures Sound(finite, After(finite, s, move))
  {
    hide Sound, StepSave, StepDecide, StepTick, StepReallocate, Acceptable;
    match move
    case Start(who, request) =>
      if who !in s.clients && Acceptable(request) {
        StartKeeps(finite, s, who, request);
      }
    case Step(who, pick) =>
      if who in s.clients {
        match s.clients[who].request
        case Save(_, _) => SaveKeeps(finite, s, who);
        case Decide(_, _, _) => DecideKeeps(finite, s, who, pick);
        case Tick(_, _) => TickKeeps(finite, s, who, pick);
        case Reallocate(_) => ReallocateKeeps(finite, s, who, pick);
      }
    case SetSwitch(_) => EnvironmentKeeps(finite, s, After(finite, s, move));
    case SetLimit(_, _) => EnvironmentKeeps(finite, s, After(finite, s, move));
    case NewPlan => EnvironmentKeeps(finite, s, After(finite, s, move));
    case SetStatus(_) => EnvironmentKeeps(finite, s, After(finite, s, move));
  }
}
