/**
 The approval store as one caller alone uses it: the methods of services/routing/store.py, each reading,
 checking and committing without interruption. Approvals says what happens when they interleave.
 */
module ControlStores {
  import opened Basics
  import opened Approvals
  import Routing

  /** The one part of the current route that this actor may decide, with every condition of the transaction met. */
  predicate Decidable(finite: real -> bool, s: State, actor: string, approve: bool, now: int, key: string) {
    && IsPending(s, key) && May(Decide(actor, approve, now), s.parts[key])
    && actor in s.limits && s.limits[actor].userId == actor
    && Routing.Sufficient(finite, s.limits[actor], s.parts[key].plant, s.parts[key].cost, now)
    && s.kill.Some? && IsOff(s.kill.value) && s.outbox[Verdict(Decide(actor, approve, now), key)] == 0
  }

  /** The parts of the current route that wait for a person. */
  function ForPeople(s: State): set<string> {
    if s.version in s.routes then set key | key in s.routes[s.version] && key in s.parts && s.parts[key].tier == 2
    else {}
  }

  predicate IsPending(s: State, key: string) {
    ForPeople(s) == {key} && key in s.parts
  }

  /** The open parts of the current route. */
  function OpenParts(s: State): map<string, Part>
    requires s.version in s.routes
  {
    map key | key in s.routes[s.version] && key in s.parts && s.parts[key].supersededBy.None? :: s.parts[key]
  }

  predicate Reallocatable(s: State, repropose: bool) {
    && s.status.AwaitingApproval? && s.version in s.routes
    && (forall key <- s.routes[s.version] :: key in s.parts && Waiting(s.parts[key]))
    && s.outbox[ReallocateMessage(Client(Reallocate(repropose), Begun), s.version)] == 0
  }

  function AfterReallocation(s: State, repropose: bool): State
    requires s.version in s.routes
  {
    var client := Client(Reallocate(repropose), Begun);
    s.(status := if repropose then Investigating else Escalated, version := Following(client, s.version),
       parts := Superseded(s.parts, OpenParts(s), Following(client, s.version)),
       outbox := s.outbox + multiset{ReallocateMessage(client, s.version)})
  }

  /**
   Of those with a sufficient limit who let none of the case's approvals expire, other than the approver, the one
   with the least limit; None when there is nobody.
   */
  ghost predicate IsBackup(finite: real -> bool, s: State, part: Part, now: int, backup: Option<string>) {
    if now < part.deadline then backup.None?
    else if backup.Some? then
      && MayBackUp(finite, s, part, now, backup.value)
      && forall user :: MayBackUp(finite, s, part, now, user) ==>
           Routing.ByLimit(s.limits[backup.value], s.limits[user])
    else forall user :: !MayBackUp(finite, s, part, now, user)
  }

  function AfterTick(s: State, key: string, now: int, backup: Option<string>): State
    requires key in s.parts
  {
    s.(parts := s.parts[key := Ticked(s.parts[key], now, backup)],
       outbox := s.outbox + multiset{TickMessage(key, s.parts[key], now)},
       status := if now >= s.parts[key].deadline && backup.None? then AfterEscalation(s.status) else s.status)
  }

  function AfterEscalation(status: Status): Status {
    if status.AwaitingApproval? then Escalated else status
  }

  /** What a timer may leave. */
  ghost predicate TickLeaves(finite: real -> bool, s: State, t: State, key: string, now: int) {
    if key in s.parts && Stranded(s.parts[key]) then t == s.(status := AfterEscalation(s.status))
    else if key in s.parts && Due(s.parts[key], now) && s.outbox[TickMessage(key, s.parts[key], now)] == 0
    then exists backup :: IsBackup(finite, s, s.parts[key], now, backup) && t == AfterTick(s, key, now, backup)
    else t == s
  }

  /** The decision is written to that part and announced; nothing else changes. */
  predicate DecisionLeaves(finite: real -> bool, s: State, t: State, actor: string, approve: bool, now: int,
                           key: string) {
    var request := Decide(actor, approve, now);
    && Decidable(finite, s, actor, approve, now, key)
    && t == s.(parts := s.parts[key := Decided(s.parts[key], request)],
       outbox := s.outbox + multiset{Verdict(request, key)})
  }

  /** A decision that comes too late runs the part's timer instead. */
  ghost predicate OverdueLeaves(finite: real -> bool, s: State, t: State, now: int, key: string) {
    IsPending(s, key) && (s.parts[key].expired || now >= s.parts[key].deadline) && TickLeaves(finite, s, t, key, now)
  }

  /** What an approver sends, as it is kept with the decision. */
  datatype Submission = Submission(actor: string, approve: bool, comment: string, hash: string)

  /** The change was made, or had been made before by the same request, or is refused. */
  datatype Answer = Made | Repeated | Refused

  predicate Blank(comment: string) {
    forall c <- comment :: c in {' ', '\t', '\n', '\r'}
  }

  /** A comment of reasonable length, which a rejection must have. */
  predicate Commented(sent: Submission) {
    |sent.comment| <= 2000 && (sent.approve || !Blank(sent.comment))
  }

  class ControlStore {
    var version: nat
    var status: Status
    var routes: map<nat, set<string>>
    var parts: map<string, Part>
    var outbox: multiset<Message>
    var kill: Option<string>
    var limits: map<string, Routing.Limit>
    /** The plan hash of each route, and what was sent with each decision. */
    var hashes: map<nat, string>
    var submissions: map<string, Submission>

    ghost function Stored(): State
      reads this
    {
      State(version, status, routes, parts, outbox, kill, limits, map[])
    }

    constructor (version: nat, status: Status, kill: Option<string>, limits: map<string, Routing.Limit>)
      ensures Stored() == State(version, status, map[], map[], multiset{}, kill, limits, map[])
      ensures hashes == map[] && submissions == map[]
    {
      hashes, submissions := map[], map[];
      this.version, this.status, this.kill, this.limits := version, status, kill, limits;
      routes, parts, outbox := map[], map[], multiset{};
    }

    method SaveRoute(finite: real -> bool, planVersion: nat, hash: string, saved: map<string, Part>)
      returns (answer: Answer)
      requires Acceptable(Save(planVersion, saved)) && Sound(finite, Stored())
      modifies this
      ensures Sound(finite, Stored()) && submissions == old(submissions)
      ensures answer.Made? <==> SaveCommits(old(Stored()), Client(Save(planVersion, saved), Begun))
      ensures answer.Made? ==> hashes == old(hashes)[planVersion := hash]
      ensures answer.Made? ==> Stored() == old(Stored()).(
        parts := old(parts) + saved, routes := old(routes)[planVersion := saved.Keys],
        outbox := old(outbox) + multiset(AutoApproved(saved)) + multiset{PlanRouted(planVersion)})
      ensures answer.Repeated? <==>
        planVersion in old(routes) && planVersion in old(hashes) && old(hashes)[planVersion] == hash
      ensures !answer.Made? ==> Stored() == old(Stored()) && hashes == old(hashes)
    {
      hide Sound, Acceptable;
      if planVersion in routes {
        return if planVersion in hashes && hashes[planVersion] == hash then Repeated else Refused;
      }
      var free := version == planVersion && outbox[PlanRouted(planVersion)] == 0
        && forall key <- saved :: key !in parts && (saved[key].tier == 1 ==> outbox[PlanApproved(key)] == 0);
      if !free {
        return Refused;
      }
      SaveAloneKeeps(finite, Stored(), planVersion, saved);
      outbox := outbox + multiset(AutoApproved(saved)) + multiset{PlanRouted(planVersion)};
      parts, routes := parts + saved, routes[planVersion := saved.Keys];
      hashes := hashes[planVersion := hash];
      answer := Made;
    }

    /** The sender may approve, the comment will do, and the decision is about the current route. */
    predicate Admissible(approver: bool, sent: Submission)
      reads this
    {
      approver && Commented(sent) && version in routes && version in hashes && hashes[version] == sent.hash
    }

    /** The current approval was decided before by this very submission. */
    ghost predicate DecidedBy(sent: Submission, key: string)
      reads this
    {
      IsPending(Stored(), key) && parts[key].decision.Some? && key in submissions && submissions[key] == sent
    }

    /** A decision on the current approval, which nobody has decided yet. */
    method DecidePending(finite: real -> bool, sent: Submission, key: string, now: int) returns (ok: bool)
      requires Sound(finite, Stored()) && IsPending(Stored(), key) && parts[key].decision.None?
      modifies this
      ensures Sound(finite, Stored()) && hashes == old(hashes)
      ensures ok <==> Decidable(finite, old(Stored()), sent.actor, sent.approve, now, key)
      ensures ok ==> DecisionLeaves(finite, old(Stored()), Stored(), sent.actor, sent.approve, now, key)
      ensures !ok ==> Stored() == old(Stored()) || OverdueLeaves(finite, old(Stored()), Stored(), now, key)
      ensures submissions == if ok then old(submissions)[key := sent] else old(submissions)
    {
      hide Sound, IsOff, Routing.Sufficient, TickLeaves;
      var part := parts[key];
      if part.approver != Some(sent.actor) {
        return false;
      }
      if part.expired || now >= part.deadline {
        RunTimer(finite, key, now);
        return false;
      }
      if sent.actor !in limits || limits[sent.actor].userId != sent.actor
         || !Routing.Sufficient(finite, limits[sent.actor], part.plant, part.cost, now) {
        return false;
      }
      if kill.None? || !IsOff(kill.value) {
        return false;
      }
      var message := if sent.approve then PlanApproved(key) else PlanRejected(key);
      ok := part.version == version && outbox[message] == 0;
      PendingOfVersion(finite, Stored(), key);
      if ok {
        DecideAloneKeeps(finite, Stored(), sent.actor, sent.approve, now, key);
        parts := parts[key := part.(decision := Some(Decision(sent.actor, sent.approve, now)),
          revision := part.revision + 1)];
        outbox := outbox + multiset{message};
        submissions := submissions[key := sent];
      }
    }

    method MakeDecision(finite: real -> bool, approver: bool, sent: Submission, now: int) returns (answer: Answer)
      requires Sound(finite, Stored())
      modifies this
      ensures Sound(finite, Stored()) && hashes == old(hashes)
      ensures answer.Made? <==>
        old(Admissible(approver, sent))
          && exists key :: Decidable(finite, old(Stored()), sent.actor, sent.approve, now, key)
      ensures answer.Made? ==>
        exists key :: DecisionLeaves(finite, old(Stored()), Stored(), sent.actor, sent.approve, now, key)
                      && submissions == old(submissions)[key := sent]
      ensures answer.Repeated? <==> old(Admissible(approver, sent)) && exists key :: old(DecidedBy(sent, key))
      ensures answer.Repeated? ==> Stored() == old(Stored())
      ensures answer.Refused? ==>
              Stored() == old(Stored()) || exists key :: OverdueLeaves(finite, old(Stored()), Stored(), now, key)
      ensures !answer.Made? ==> submissions == old(submissions)
    {
      hide Sound, IsOff, Routing.Sufficient, OverdueLeaves, DecisionLeaves;
      if !approver || |sent.comment| > 2000 || (!sent.approve && forall c <- sent.comment :: c in " \t\n\r") {
        return Refused;
      }
      if version !in routes || version !in hashes || hashes[version] != sent.hash {
        return Refused;
      }
      var waiting := set key | key in routes[version] && key in parts && parts[key].tier == 2;
      if |waiting| != 1 {
        OnePendingOnly(Stored());
        return Refused;
      }
      var key :| key in waiting;
      OnlyOne(waiting, key);
      assert IsPending(Stored(), key);
      assert forall other :: IsPending(Stored(), other) ==> other in ForPeople(Stored());
      hide IsPending, ForPeople;
      if parts[key].decision.Some? {
        assert DecidedBy(sent, key) <==> key in submissions && submissions[key] == sent;
        return if key in submissions && submissions[key] == sent then Repeated else Refused;
      }
      var ok := DecidePending(finite, sent, key, now);
      answer := if ok then Made else Refused;
    }

    /** The first of `backups`. */
    method PickBackup(finite: real -> bool, part: Part, now: int) returns (backup: Option<string>)
      requires now >= part.deadline
      ensures IsBackup(finite, Stored(), part, now, backup)
    {
      hide MayBackUp, Routing.ByLimit;
      var missed := set other | other in parts && parts[other].expiredApprover.Some? ::
        parts[other].expiredApprover.value;
      var able := set user |
        user in limits && limits[user].userId == user && Some(user) != part.approver && user !in missed
        && Routing.Sufficient(finite, limits[user], part.plant, part.cost, now);
      AbleBackUp(finite, Stored(), part, now, able, missed);
      backup := None;
      if able != {} {
        LeastLimit(limits, able);
        var user :| user in able && forall other :: other in able ==> Routing.ByLimit(limits[user], limits[other]);
        backup := Some(user);
      }
    }

    method RunTimer(finite: real -> bool, key: string, now: int)
      requires Sound(finite, Stored())
      modifies this
      ensures Sound(finite, Stored())
      ensures TickLeaves(finite, old(Stored()), Stored(), key, now)
      ensures hashes == old(hashes) && submissions == old(submissions)
    {
      hide Sound, MayBackUp;
      if key !in parts || parts[key].supersededBy.Some? {
        return;
      }
      var part := parts[key];
      if part.expired && part.approver.None? && part.decision.None? {
        StatusKeeps(finite, Stored(), AfterEscalation(status));
        status := if status.AwaitingApproval? then Escalated else status;
        return;
      }
      if part.tier != 2 || part.decision.Some? || part.expired {
        return;
      }
      if now < part.reminder || (now < part.deadline && part.reminded) {
        return;
      }
      if outbox[if now >= part.deadline then Expiry(key) else Reminder(key)] != 0 {
        return;
      }
      var backup := None;
      if now >= part.deadline {
        backup := PickBackup(finite, part, now);
      }
      assert IsBackup(finite, Stored(), part, now, backup);
      TickAloneKeeps(finite, Stored(), key, now, backup);
      outbox := outbox + multiset{if now >= part.deadline then Expiry(key) else Reminder(key)};
      parts := parts[key :=
        if now >= part.deadline
        then part.(expired := true, expiredApprover := part.approver, approver := backup, revision := part.revision + 1)
        else part.(reminded := true, revision := part.revision + 1)];
      if now >= part.deadline && backup.None? {
        status := if status.AwaitingApproval? then Escalated else status;
      }
    }

    /** Read the parts of a route; stop at one that is Tier 1, decided or expired. */
    method Gather(keys: set<string>) returns (waiting: bool, pending: map<string, Part>)
      ensures waiting <==> forall key <- keys :: key in parts && Waiting(parts[key])
      ensures waiting ==>
              pending == map key | key in keys && key in parts && parts[key].supersededBy.None? :: parts[key]
    {
      var todo := keys;
      pending := map[];
      while todo != {}
        invariant todo <= keys
        invariant forall key <- keys - todo :: key in parts && Waiting(parts[key])
        invariant pending == map key | key in keys - todo && key in parts && parts[key].supersededBy.None? :: parts[key]
        decreases todo
      {
        var key :| key in todo;
        if key !in parts || parts[key].tier != 2 || parts[key].decision.Some? || parts[key].expired {
          assert key in keys && !(key in parts && Waiting(parts[key]));
          return false, pending;
        }
        if parts[key].supersededBy.None? {
          pending := pending[key := parts[key]];
        }
        todo := todo - {key};
      }
      waiting := true;
    }

    method Resize(finite: real -> bool, repropose: bool) returns (ok: bool)
      requires Sound(finite, Stored())
      modifies this
      ensures Sound(finite, Stored())
      ensures ok <==> Reallocatable(old(Stored()), repropose)
      ensures Stored() == if ok then AfterReallocation(old(Stored()), repropose) else old(Stored())
    {
      hide Sound, Superseded, Waiting;
      if !status.AwaitingApproval? || version !in routes {
        return false;
      }
      var waiting, pending := Gather(routes[version]);
      if !waiting {
        return false;
      }
      assert pending == OpenParts(Stored());
      var message := if repropose then PlanProposed(version + 1) else Reallocated(version);
      ok := outbox[message] == 0;
      if ok {
        ReallocateAloneKeeps(finite, Stored(), repropose);
        var following := if repropose then version + 1 else version;
        parts := Superseded(parts, pending, following);
        outbox, version := outbox + multiset{message}, following;
        status := if repropose then Investigating else Escalated;
      }
    }
  }

  // ----- Each method keeps the invariant of the interleaved records -----

  /** The state with one request about to commit. */
  function With(s: State, request: Request, progress: Progress): State {
    s.(clients := map[0 := Client(request, progress)])
  }

  lemma WithIsSound(finite: real -> bool, s: State, request: Request, progress: Progress)
    requires Sound(finite, s) && SoundClient(finite, With(s, request, progress), Client(request, progress))
    ensures Sound(finite, With(s, request, progress))
  {
    hide SoundPart, SoundClient;
  }

  lemma AloneIsSound(finite: real -> bool, s: State, t: State)
    requires Sound(finite, s) && t == s.(clients := map[])
    ensures Sound(finite, t)
  {
    hide SoundPart, SoundClient;
  }

  lemma OnePendingOnly(s: State)
    ensures forall key :: IsPending(s, key) ==> |ForPeople(s)| == 1
  {}

  lemma PendingOfVersion(finite: real -> bool, s: State, key: string)
    requires Sound(finite, s) && IsPending(s, key)
    ensures s.parts[key].version == s.version && s.parts[key].tier == 2
    ensures forall other :: IsPending(s, other) ==> other == key
  {
    assert key in ForPeople(s);
    forall other | IsPending(s, other) ensures other == key {
      assert other in {key};
    }
  }

  lemma AbleBackUp(finite: real -> bool, s: State, part: Part, now: int, able: set<string>, missed: set<string>)
    requires missed == Missed(s)
    requires able == set user |
               user in s.limits && s.limits[user].userId == user && Some(user) != part.approver && user !in missed
               && Routing.Sufficient(finite, s.limits[user], part.plant, part.cost, now)
    ensures forall user :: user in able <==> MayBackUp(finite, s, part, now, user)
  {}

  /** Among some users there is one with the least limit, as `eligible` orders them. */
  lemma LeastLimit(limits: map<string, Routing.Limit>, able: set<string>)
    requires able != {} && able <= limits.Keys
    ensures exists user ::
      user in able && forall other :: other in able ==> Routing.ByLimit(limits[user], limits[other])
  {
    Routing.ByLimitTotal();
    hide Routing.ByLimit, TotalOrder;
    var theirs := set user | user in able :: limits[user];
    var any :| any in able;
    assert limits[any] in theirs;
    HasLeastOf(Routing.ByLimit, theirs);
    var least :| least in theirs && forall x :: x in theirs ==> Routing.ByLimit(least, x);
    var user :| user in able && limits[user] == least;
  }

  lemma SaveAloneKeeps(finite: real -> bool, s: State, version: nat, saved: map<string, Part>)
    requires Sound(finite, s) && s.clients == map[] && Acceptable(Save(version, saved))
    requires SaveCommits(s, Client(Save(version, saved), Begun))
    ensures Sound(finite, s.(parts := s.parts + saved, routes := s.routes[version := saved.Keys],
                             outbox := s.outbox + multiset(AutoApproved(saved)) + multiset{PlanRouted(version)}))
  {
    hide Sound, Acceptable;
    var ready := With(s, Save(version, saved), Begun);
    WithIsSound(finite, s, Save(version, saved), Begun);
    NobodyMissed(finite, ready, version, saved);
    var t := With(s, Save(version, saved), Routed({}));
    SaveCommitKeeps(finite, t, 0);
    AloneIsSound(finite, StepSave(t, 0), StepSave(t, 0).(clients := map[]));
  }

  /** A route about to be saved, whoever missed what. */
  lemma NobodyMissed(finite: real -> bool, s: State, version: nat, saved: map<string, Part>)
    requires Sound(finite, s) && s.clients == map[0 := Client(Save(version, saved), Begun)]
            && Acceptable(Save(version, saved))
    ensures Sound(finite, s.(clients := map[0 := Client(Save(version, saved), Routed({}))]))
  {
    hide Sound, Acceptable;
    ReadingKeeps(finite, s, 0, Routed({}));
    assert Now(s, 0, Routed({})) == s.(clients := map[0 := Client(Save(version, saved), Routed({}))]);
  }

  lemma DecideAloneKeeps(finite: real -> bool, s: State, actor: string, approve: bool, now: int, key: string)
    requires Sound(finite, s) && s.clients == map[] && Decidable(finite, s, actor, approve, now, key)
    ensures var request := Decide(actor, approve, now);
      Sound(finite, s.(parts := s.parts[key := Decided(s.parts[key], request)],
        outbox := s.outbox + multiset{Verdict(request, key)}))
  {
    hide Sound, IsOff, Routing.Sufficient;
    var request := Decide(actor, approve, now);
    var progress := SawSwitch(key, s.parts[key], s.limits[actor], s.kill.value);
    PendingOfVersion(finite, s, key);
    ReadsTrue(s, key);
    WithIsSound(finite, s, request, progress);
    DecideCommitKeeps(finite, With(s, request, progress), 0);
    var t := StepDecide(finite, With(s, request, progress), 0, "");
    AloneIsSound(finite, t, t.(clients := map[]));
  }

  lemma TickAloneKeeps(finite: real -> bool, s: State, key: string, now: int, backup: Option<string>)
    requires Sound(finite, s) && s.clients == map[] && key in s.parts && Due(s.parts[key], now)
    requires s.outbox[TickMessage(key, s.parts[key], now)] == 0
    ensures Sound(finite, AfterTick(s, key, now, backup))
  {
    hide Sound;
    var request, progress := Tick(key, now), SawBackup(key, s.parts[key], backup);
    ReadsTrue(s, key);
    WithIsSound(finite, s, request, progress);
    TickCommitKeeps(finite, With(s, request, progress), 0);
    var t := StepTick(finite, With(s, request, progress), 0, "");
    AloneIsSound(finite, t, t.(clients := map[]));
    StatusKeeps(finite, t.(clients := map[]), AfterTick(s, key, now, backup).status);
  }

  lemma ReallocateAloneKeeps(finite: real -> bool, s: State, repropose: bool)
    requires Sound(finite, s) && s.clients == map[] && Reallocatable(s, repropose)
    ensures Sound(finite, AfterReallocation(s, repropose))
  {
    hide Sound, Superseded;
    var request, progress := Reallocate(repropose), Gathering(s.version, {}, OpenParts(s));
    forall key | key in OpenParts(s)
      ensures Read(s.parts, key, OpenParts(s)[key]) && s.parts[key].version == s.version {
      ReadsTrue(s, key);
      RouteVersion(finite, s, s.version, key);
    }
    WithIsSound(finite, s, request, progress);
    ReallocateCommitKeeps(finite, With(s, request, progress), 0);
    var t := StepReallocate(With(s, request, progress), 0, "");
    AloneIsSound(finite, t, t.(clients := map[]));
  }
}
