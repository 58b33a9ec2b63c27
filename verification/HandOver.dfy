/** Approval hand-over ends: services/routing/store.py with the routes of services/verifier/service.py. */
module HandOver {
  import opened Basics
  import opened Approvals
  import opened ApprovalRuns
  import opened ApprovalTheorems
  import Routing

  predicate Open(part: Part) {
    part.tier == 2 && part.decision.None? && !part.expired && part.supersededBy.None?
  }

  /** No approver has two approvals of the case open or expired, or one of each. */
  ghost predicate HandedOver(s: State) {
    && (forall key :: key in s.parts && Open(s.parts[key]) ==>
          s.parts[key].approver.Some? && s.parts[key].approver.value !in Missed(s))
    && (forall a, b :: a in s.parts && b in s.parts && Open(s.parts[a]) && Open(s.parts[b]) && a != b ==>
          s.parts[a].approver != s.parts[b].approver)
    && ExpiredApart(s)
  }

  /** Each approval that expired had another approver. */
  ghost predicate ExpiredApart(s: State) {
    forall a, b :: a in s.parts && b in s.parts && s.parts[a].expired && s.parts[b].expired && a != b ==>
      s.parts[a].expiredApprover != s.parts[b].expiredApprover
  }

  /** This approver has let no approval of the case expire, and has none open. */
  predicate Fresh(s: State, user: string) {
    user !in Missed(s) && forall key <- s.parts :: Open(s.parts[key]) ==> s.parts[key].approver != Some(user)
  }

  /** The move stores a route. */
  predicate Saves(s: State, move: Move) {
    && move.Step? && move.who in s.clients && s.clients[move.who].request.Save?
    && s.clients[move.who].progress.Routed? && SaveCommits(s, s.clients[move.who])
  }

  /** A route is only stored for approvers who are fresh at that moment. */
  predicate Orderly(s: State, move: Move) {
    Saves(s, move) ==>
      var parts := s.clients[move.who].request.parts;
      forall key <- parts :: parts[key].approver.Some? ==> Fresh(s, parts[key].approver.value)
  }

  predicate OrderlyRun(finite: real -> bool, s: State, moves: seq<Move>)
    decreases |moves|
  {
    moves == [] || (Orderly(s, moves[0]) && OrderlyRun(finite, After(finite, s, moves[0]), moves[1..]))
  }

  lemma MissedOf(s: State, key: string)
    requires key in s.parts && s.parts[key].expiredApprover.Some?
    ensures s.parts[key].expiredApprover.value in Missed(s)
  {}

  // ----- One move -----

  /** No approval opens, and nobody lets one expire. */
  ghost predicate OnlyCloses(s: State, t: State) {
    && t.parts.Keys == s.parts.Keys
    && forall key :: key in s.parts ==>
         && t.parts[key].expired == s.parts[key].expired && t.parts[key].expiredApprover == s.parts[key].expiredApprover
         && (Open(t.parts[key]) ==> Open(s.parts[key]) && t.parts[key].approver == s.parts[key].approver)
  }

  lemma ClosingHandsOver(s: State, t: State)
    requires HandedOver(s) && OnlyCloses(s, t)
    ensures HandedOver(t) && Missed(t) == Missed(s)
  {
    assert forall key :: key in t.parts <==> key in s.parts.Keys;
    assert Missed(t) == Missed(s);
  }

  lemma SameCloses(s: State, t: State)
    requires t.parts == s.parts
    ensures OnlyCloses(s, t)
  {}

  lemma OneCloses(s: State, t: State, key: string)
    requires key in s.parts && key in t.parts && t.parts == s.parts[key := t.parts[key]]
    requires t.parts[key].expired == s.parts[key].expired && t.parts[key].expiredApprover
            == s.parts[key].expiredApprover
    requires Open(t.parts[key]) ==> Open(s.parts[key]) && t.parts[key].approver == s.parts[key].approver
    ensures OnlyCloses(s, t)
  {}

  /** An open approval expires: its approver joins those who missed one, and was not among them. */
  lemma ExpiryHandsOver(s: State, t: State, key: string)
    requires HandedOver(s) && key in s.parts && Open(s.parts[key]) && s.parts[key].approver.Some?
    requires forall other :: other in s.parts ==> (s.parts[other].expired <==> s.parts[other].expiredApprover.Some?)
    requires key in t.parts && t.parts == s.parts[key := t.parts[key]]
    requires t.parts[key].expired && t.parts[key].expiredApprover == s.parts[key].approver && !Open(t.parts[key])
    ensures HandedOver(t)
  {
    var user := s.parts[key].approver.value;
    assert forall other :: other in s.parts && other != key ==> t.parts[other] == s.parts[other];
    assert forall other :: other in Missed(t) ==> other in Missed(s) || other == user;
    forall other | other in s.parts && s.parts[other].expired ensures s.parts[other].expiredApprover != Some(user) {
      MissedOf(s, other);
    }
  }

  lemma SaveHandsOver(finite: real -> bool, s: State, who: nat)
    requires Sound(finite, s) && HandedOver(s) && Saves(s, Step(who, "")) && Orderly(s, Step(who, ""))
    ensures HandedOver(StepSave(s, who))
  {
    ClientOf(finite, s, who);
    var client := s.clients[who];
    var parts := client.request.parts;
    var t := StepSave(s, who);
    assert t.parts == s.parts + parts;
    assert forall key :: key in parts ==> NewPart(parts[key], client.request.version) && key !in s.parts;
    assert forall key :: key in parts && parts[key].approver.Some? ==> Fresh(s, parts[key].approver.value);
    hide Sound, SaveCommits, StepSave, Fresh;
    SavedHandsOver(s, t, client.request.version, parts);
  }

  lemma SavedHandsOver(s: State, t: State, version: nat, parts: map<string, Part>)
    requires HandedOver(s) && t.parts == s.parts + parts
    requires forall key :: key in parts ==> NewPart(parts[key], version) && key !in s.parts
    requires forall a, b :: a in parts && b in parts && parts[a].tier == 2 && parts[b].tier == 2 ==> a == b
    requires forall key :: key in parts && parts[key].approver.Some? ==> Fresh(s, parts[key].approver.value)
    ensures HandedOver(t)
  {
    SavedMisses(s, t, version, parts);
    forall key | key in parts ensures !t.parts[key].expired && (Open(t.parts[key]) ==> t.parts[key].approver.Some?) {
      assert NewPart(parts[key], version);
    }
    hide Missed, NewPart;
    assert forall key :: key in s.parts ==> t.parts[key] == s.parts[key];
  }

  lemma SavedMisses(s: State, t: State, version: nat, parts: map<string, Part>)
    requires t.parts == s.parts + parts && forall key :: key in parts ==>
            NewPart(parts[key], version) && key !in s.parts
    ensures Missed(t) == Missed(s)
  {
    assert forall key :: key in parts ==> t.parts[key] == parts[key] && NewPart(parts[key], version);
    assert forall key :: key in s.parts ==> t.parts[key] == s.parts[key];
  }

  lemma DecideCloses(finite: real -> bool, s: State, who: nat, pick: string)
    requires Sound(finite, s) && who in s.clients && s.clients[who].request.Decide?
    ensures OnlyCloses(s, StepDecide(finite, s, who, pick))
  {
    hide Routing.Sufficient, IsOff, SoundParts, SoundRoutes, SoundOutbox, OnlyCloses;
    ClientOf(finite, s, who);
    var t, client := StepDecide(finite, s, who, pick), s.clients[who];
    if client.progress.SawSwitch? && DecideCommits(s, client) {
      var key := client.progress.key;
      assert client.progress.part == s.parts[key];
      OneCloses(s, t, key);
    } else {
      SameCloses(s, t);
    }
  }

  lemma TickHandsOver(finite: real -> bool, s: State, who: nat, pick: string)
    requires Sound(finite, s) && HandedOver(s) && who in s.clients && s.clients[who].request.Tick?
    ensures HandedOver(StepTick(finite, s, who, pick))
  {
    hide MayBackUp, SoundRoutes, SoundOutbox, OnlyCloses, HandedOver;
    ClientOf(finite, s, who);
    var t, client := StepTick(finite, s, who, pick), s.clients[who];
    if client.progress.SawBackup? && TickCommits(s, client) {
      var key := client.request.key;
      assert client.progress.part == s.parts[key];
      assert SoundPart(s.parts[key], s.version);
      if client.request.now >= client.progress.part.deadline {
        ExpiredHaveApprovers(s);
        ExpiryHandsOver(s, t, key);
      } else {
        OneCloses(s, t, key);
        ClosingHandsOver(s, t);
      }
    } else {
      SameCloses(s, t);
      ClosingHandsOver(s, t);
    }
  }

  lemma ExpiredHaveApprovers(s: State)
    requires SoundParts(s)
    ensures forall key :: key in s.parts ==> (s.parts[key].expired <==> s.parts[key].expiredApprover.Some?)
  {
    forall key | key in s.parts ensures s.parts[key].expired <==> s.parts[key].expiredApprover.Some? {
      assert SoundPart(s.parts[key], s.version);
    }
  }

  lemma ReallocateCloses(s: State, who: nat, pick: string)
    requires who in s.clients && s.clients[who].request.Reallocate?
    ensures OnlyCloses(s, StepReallocate(s, who, pick))
  {
    var t := StepReallocate(s, who, pick);
    if t.parts == s.parts {
      SameCloses(s, t);
    } else {
      assert forall key :: key in t.parts <==> key in s.parts;
    }
  }

  lemma MoveHandsOver(finite: real -> bool, s: State, move: Move)
    requires Sound(finite, s) && HandedOver(s) && Orderly(s, move)
    ensures HandedOver(After(finite, s, move))
  {
    hide Sound, HandedOver, StepDecide, StepTick, StepReallocate, OnlyCloses, SaveCommits, Fresh;
    if move.Step? && move.who in s.clients {
      var client := s.clients[move.who];
      match client.request
      case Save(_, _) =>
        if Saves(s, move) {
          SaveHandsOver(finite, s, move.who);
        } else {
          SameCloses(s, StepSave(s, move.who));
          ClosingHandsOver(s, StepSave(s, move.who));
        }
      case Decide(_, _, _) =>
        DecideCloses(finite, s, move.who, move.pick);
        ClosingHandsOver(s, StepDecide(finite, s, move.who, move.pick));
      case Tick(_, _) => TickHandsOver(finite, s, move.who, move.pick);
      case Reallocate(_) =>
        ReallocateCloses(s, move.who, move.pick);
        ClosingHandsOver(s, StepReallocate(s, move.who, move.pick));
    } else {
      SameCloses(s, After(finite, s, move));
      ClosingHandsOver(s, After(finite, s, move));
    }
  }

  // ----- Who may ever be an approver -----

  /** All approvers, present, past and about to be assigned, are among `users`. */
  ghost predicate Among(s: State, users: set<string>) {
    && s.limits.Keys <= users
    && (forall key :: key in s.parts && !s.parts[key].expired && s.parts[key].approver.Some? ==>
       s.parts[key].approver.value in users)
    && (forall key :: key in s.parts && s.parts[key].expiredApprover.Some? ==>
       s.parts[key].expiredApprover.value in users)
    && (forall who :: who in s.clients && s.clients[who].request.Save? && s.clients[who].progress.Routed? ==>
          PartsAmong(s.clients[who].request.parts, users))
  }

  ghost predicate PartsAmong(parts: map<string, Part>, users: set<string>) {
    forall key :: key in parts && parts[key].approver.Some? ==> parts[key].approver.value in users
  }

  lemma PartsStayAmong(s: State, t: State, users: set<string>)
    requires Among(s, users) && t.limits.Keys <= users && t.parts.Keys == s.parts.Keys
    requires forall key :: key in s.parts ==> StaysAmong(t.parts[key], s.parts[key], users)
    requires forall who :: who in t.clients && t.clients[who].request.Save? && t.clients[who].progress.Routed? ==>
               PartsAmong(t.clients[who].request.parts, users)
    ensures Among(t, users)
  {
    hide PartsAmong;
    forall key | key in t.parts ensures StaysAmong(t.parts[key], s.parts[key], users) {
      assert key in s.parts.Keys;
    }
  }

  predicate StaysAmong(now: Part, was: Part, users: set<string>) {
    && (now.expiredApprover.Some? && now.expiredApprover != was.expiredApprover ==> now.expiredApprover.value in users)
    && (!now.expired ==> !was.expired && now.approver == was.approver)
  }

  lemma ClientsAmong(s: State, t: State, users: set<string>, who: nat)
    requires Among(s, users) && t.clients.Keys <= s.clients.Keys + {who}
    requires forall other :: other in t.clients && other != who ==> t.clients[other] == s.clients[other]
    requires who in t.clients && t.clients[who].request.Save? && t.clients[who].progress.Routed? ==>
               PartsAmong(t.clients[who].request.parts, users)
    ensures forall other ::
            other in t.clients && t.clients[other].request.Save? && t.clients[other].progress.Routed? ==>
               PartsAmong(t.clients[other].request.parts, users)
  {
    hide PartsAmong;
    forall other | other in t.clients && other != who ensures other in s.clients {
      assert other in t.clients.Keys;
    }
  }

  lemma SaveStaysAmong(finite: real -> bool, s: State, who: nat, users: set<string>)
    requires Sound(finite, s) && Among(s, users) && who in s.clients && s.clients[who].request.Save?
    ensures Among(StepSave(s, who), users)
  {
    ClientOf(finite, s, who);
    hide Sound, SaveCommits;
    var client := s.clients[who];
    var t := StepSave(s, who);
    if client.progress.Routed? && SaveCommits(s, client) {
      AcceptableOf(finite, s, who);
      assert t.parts == s.parts + client.request.parts && PartsAmong(client.request.parts, users);
      SavedAmong(s, t, client.request, users, who);
    } else {
      if t.clients[who].progress.Routed? && !client.progress.Routed? {
        assert PartsAmong(client.request.parts, users);
      }
      ClientsAmong(s, t, users, who);
      PartsStayAmong(s, t, users);
    }
  }

  lemma SavedAmong(s: State, t: State, request: Request, users: set<string>, who: nat)
    requires Among(s, users) && request.Save? && Acceptable(request) && PartsAmong(request.parts, users)
    requires t.parts == s.parts + request.parts && t.limits == s.limits && who in t.clients
            && t.clients[who].progress.Done?
    requires t.clients == s.clients[who := t.clients[who]]
    ensures Among(t, users)
  {
    assert forall key :: key in request.parts ==>
        NewPart(request.parts[key], request.version) && t.parts[key] == request.parts[key];
    assert forall key :: key in t.parts && key !in request.parts ==> key in s.parts && t.parts[key] == s.parts[key];
    ClientsAmong(s, t, users, who);
    hide NewPart, Acceptable;
  }

  lemma LimitsAmong(s: State, users: set<string>)
    requires Among(s, users)
    ensures s.limits.Keys <= users
  {}

  /** A step that saves no route leaves the limits and the other clients alone. */
  ghost predicate StepFrame(s: State, t: State, who: nat) {
    && t.limits == s.limits && who in s.clients && who in t.clients && t.clients == s.clients[who := t.clients[who]]
    && t.clients[who].request == s.clients[who].request
  }

  lemma NowFrames(s: State, who: nat, progress: Progress, t: State)
    requires who in s.clients && t.limits == s.limits && t.clients == Now(s, who, progress).clients
    ensures StepFrame(s, t, who)
  {}

  lemma SameFrames(s: State, who: nat)
    requires who in s.clients
    ensures StepFrame(s, s, who)
  {
    assert s.clients == s.clients[who := s.clients[who]];
  }

  lemma DecideFrame(finite: real -> bool, s: State, who: nat, pick: string)
    requires who in s.clients && s.clients[who].request.Decide?
    ensures StepFrame(s, StepDecide(finite, s, who, pick), who)
  {
    hide Routing.Sufficient, IsOff, May, DecideCommits, StepFrame, Now;
    var t := StepDecide(finite, s, who, pick);
    forall progress | t.limits == Now(s, who, progress).limits && t.clients == Now(s, who, progress).clients
      ensures StepFrame(s, t, who)
    {
      NowLimits(s, who, progress);
      NowFrames(s, who, progress, t);
    }
    SameFrames(s, who);
  }

  lemma NowLimits(s: State, who: nat, progress: Progress)
    requires who in s.clients
    ensures Now(s, who, progress).limits == s.limits
  {}

  lemma TickFrame(finite: real -> bool, s: State, who: nat, pick: string)
    requires who in s.clients && s.clients[who].request.Tick?
    ensures StepFrame(s, StepTick(finite, s, who, pick), who)
  {
    hide MayBackUp, Due, Stranded, TickCommits, Ticked, StepFrame, Now;
    var t := StepTick(finite, s, who, pick);
    forall progress | t.limits == Now(s, who, progress).limits && t.clients == Now(s, who, progress).clients
      ensures StepFrame(s, t, who)
    {
      NowLimits(s, who, progress);
      NowFrames(s, who, progress, t);
    }
    SameFrames(s, who);
  }

  lemma ReallocateFrame(s: State, who: nat, pick: string)
    requires who in s.clients && s.clients[who].request.Reallocate?
    ensures StepFrame(s, StepReallocate(s, who, pick), who)
  {
    hide Waiting, ReallocateCommits, Superseded, Following, StepFrame, Now;
    var t := StepReallocate(s, who, pick);
    forall progress | t.limits == Now(s, who, progress).limits && t.clients == Now(s, who, progress).clients
      ensures StepFrame(s, t, who)
    {
      NowLimits(s, who, progress);
      NowFrames(s, who, progress, t);
    }
    SameFrames(s, who);
  }

  lemma FrameStaysAmong(s: State, t: State, who: nat, users: set<string>)
    requires Among(s, users) && StepFrame(s, t, who) && !s.clients[who].request.Save? && t.parts.Keys == s.parts.Keys
    requires forall key :: key in s.parts ==> StaysAmong(t.parts[key], s.parts[key], users)
    ensures Among(t, users)
  {
    hide Among, StaysAmong;
    LimitsAmong(s, users);
    ClientsAmong(s, t, users, who);
    PartsStayAmong(s, t, users);
  }

  lemma DecidePartsStay(finite: real -> bool, s: State, who: nat, pick: string, users: set<string>)
    requires Sound(finite, s) && who in s.clients && s.clients[who].request.Decide?
    ensures var t := StepDecide(finite, s, who, pick);
      t.parts.Keys == s.parts.Keys && forall key :: key in s.parts ==> StaysAmong(t.parts[key], s.parts[key], users)
  {
    hide Routing.Sufficient, IsOff, SoundParts, SoundRoutes, SoundOutbox;
    ClientOf(finite, s, who);
    var t, client := StepDecide(finite, s, who, pick), s.clients[who];
    if t.parts != s.parts {
      assert client.progress.SawSwitch? && client.progress.part == s.parts[client.progress.key];
    }
  }

  lemma TickPartsStay(finite: real -> bool, s: State, who: nat, pick: string, users: set<string>)
    requires Sound(finite, s) && Among(s, users) && who in s.clients && s.clients[who].request.Tick?
    ensures var t := StepTick(finite, s, who, pick);
      t.parts.Keys == s.parts.Keys && forall key :: key in s.parts ==> StaysAmong(t.parts[key], s.parts[key], users)
  {
    hide MayBackUp, SoundParts, SoundRoutes, SoundOutbox, Among;
    ClientOf(finite, s, who);
    var t, client := StepTick(finite, s, who, pick), s.clients[who];
    if t.parts != s.parts {
      var key := client.request.key;
      assert client.progress.SawBackup? && client.progress.part == s.parts[key];
      ApproverAmong(s, key, users);
    }
  }

  lemma ApproverAmong(s: State, key: string, users: set<string>)
    requires Among(s, users) && key in s.parts && !s.parts[key].expired
    ensures s.parts[key].approver.Some? ==> s.parts[key].approver.value in users
  {}

  lemma ReallocatePartsStay(s: State, who: nat, pick: string, users: set<string>)
    requires who in s.clients && s.clients[who].request.Reallocate?
    ensures var t := StepReallocate(s, who, pick);
      t.parts.Keys == s.parts.Keys && forall key :: key in s.parts ==> StaysAmong(t.parts[key], s.parts[key], users)
  {
    hide Waiting, ReallocateCommits;
    var t := StepReallocate(s, who, pick);
    assert t.parts.Keys == s.parts.Keys;
  }

  lemma ClientsAlready(s: State, users: set<string>)
    requires Among(s, users)
    ensures forall who :: who in s.clients && s.clients[who].request.Save? && s.clients[who].progress.Routed? ==>
              PartsAmong(s.clients[who].request.parts, users)
  {}

  /** A limit is only ever given to one of `users`. */
  predicate Grants(move: Move, users: set<string>) {
    move.SetLimit? && move.limit.Some? ==> move.user in users
  }

  lemma MoveStaysAmong(finite: real -> bool, s: State, move: Move, users: set<string>)
    requires Sound(finite, s) && Among(s, users) && Grants(move, users)
    ensures Among(After(finite, s, move), users)
  {
    hide Sound, Among, StepSave, StepDecide, StepTick, StepReallocate, Acceptable, StepFrame, PartsAmong;
    var t := After(finite, s, move);
    if move.Step? && move.who in s.clients {
      match s.clients[move.who].request
      case Save(_, _) => SaveStaysAmong(finite, s, move.who, users);
      case Decide(_, _, _) =>
        DecideFrame(finite, s, move.who, move.pick);
        DecidePartsStay(finite, s, move.who, move.pick, users);
        FrameStaysAmong(s, t, move.who, users);
      case Tick(_, _) =>
        TickFrame(finite, s, move.who, move.pick);
        TickPartsStay(finite, s, move.who, move.pick, users);
        FrameStaysAmong(s, t, move.who, users);
      case Reallocate(_) =>
        ReallocateFrame(s, move.who, move.pick);
        ReallocatePartsStay(s, move.who, move.pick, users);
        FrameStaysAmong(s, t, move.who, users);
    } else {
      LimitsAmong(s, users);
      ClientsAlready(s, users);
      PartsStayAmong(s, t, users);
    }
  }

  // ----- Over every run -----

  function Expired(s: State): set<string> {
    set key | key in s.parts && s.parts[key].expired
  }

  /** As many approvers missed an approval as approvals expired. */
  lemma {:induction false} ExpiredCounted(s: State, keys: set<string>, users: set<string>)
    requires keys <= Expired(s)
    requires forall a, b :: a in keys && b in keys && a != b ==>
            s.parts[a].expiredApprover != s.parts[b].expiredApprover
    requires forall key :: key in keys ==>
            s.parts[key].expiredApprover.Some? && s.parts[key].expiredApprover.value in users
    ensures |keys| <= |users|
  {
    if keys != {} {
      var key :| key in keys;
      var user := s.parts[key].expiredApprover.value;
      ExpiredCounted(s, keys - {key}, users - {user});
    }
  }

  lemma {:induction false} RunHandsOver(finite: real -> bool, s: State, moves: seq<Move>)
    requires Sound(finite, s) && HandedOver(s) && OrderlyRun(finite, s, moves)
    ensures Sound(finite, Run(finite, s, moves)) && HandedOver(Run(finite, s, moves))
    decreases |moves|
  {
    hide Sound, HandedOver, Orderly, After;
    if moves != [] {
      MoveKeeps(finite, s, moves[0]);
      MoveHandsOver(finite, s, moves[0]);
      RunHandsOver(finite, After(finite, s, moves[0]), moves[1..]);
    }
  }

  lemma {:induction false} RunStaysAmong(finite: real -> bool, s: State, moves: seq<Move>, users: set<string>)
    requires Sound(finite, s) && Among(s, users) && forall i :: 0 <= i < |moves| ==> Grants(moves[i], users)
    ensures Among(Run(finite, s, moves), users)
    decreases |moves|
  {
    hide Sound, Among, After, Grants;
    if moves != [] {
      MoveKeeps(finite, s, moves[0]);
      MoveStaysAmong(finite, s, moves[0], users);
      RunStaysAmong(finite, After(finite, s, moves[0]), moves[1..], users);
    }
  }

  /**
   Hand-over ends. In a run whose routes are each stored for an approver who then has none of the case's
   approvals expired or open, every expiry takes another approver out of those who may still be assigned,
   and so there are at most as many expiries as approvers.
   */
  lemma HandOverEnds(finite: real -> bool, s: State, moves: seq<Move>, users: set<string>)
    requires Sound(finite, s) && HandedOver(s) && Among(s, users)
    requires OrderlyRun(finite, s, moves) && forall i :: 0 <= i < |moves| ==> Grants(moves[i], users)
    ensures var t := Run(finite, s, moves);
      && |Expired(t)| <= |users|
      && (forall key :: key in t.parts && Open(t.parts[key]) ==>
            t.parts[key].approver.Some? && t.parts[key].approver.value in users - Missed(t))
  {
    RunHandsOver(finite, s, moves);
    RunStaysAmong(finite, s, moves, users);
    hide Run;
    var t := Run(finite, s, moves);
    ExpiredHaveApprovers(t);
    ExpiredCounted(t, Expired(t), users);
  }
}
