/**
 When a case comes back to an approver who let one of its approvals expire, and when that ends hand-over:
 `save`, `limits` and `tick` of services/routing/store.py in any interleaving.
 */
module Reassignment {
  import opened Basics
  import opened Approvals
  import opened ApprovalRuns
  import opened ApprovalTheorems
  import opened HandOver
  import Routing

  // ----- Who misses an approval in a run -----

  /** The move is the transaction by which an approval of this user expires. */
  predicate Expires(s: State, move: Move, user: string) {
    && move.Step? && move.who in s.clients && s.clients[move.who].request.Tick?
       && s.clients[move.who].progress.SawBackup?
    && TickCommits(s, s.clients[move.who])
    && s.clients[move.who].request.now >= s.clients[move.who].progress.part.deadline
    && s.clients[move.who].progress.part.approver == Some(user)
  }

  /** Some move of the run is the expiry of an approval of this user. */
  predicate ExpiresIn(finite: real -> bool, s: State, moves: seq<Move>, user: string)
    decreases |moves|
  {
    moves != [] && (Expires(s, moves[0], user) || ExpiresIn(finite, After(finite, s, moves[0]), moves[1..], user))
  }

  lemma ClosingMisses(s: State, t: State)
    requires OnlyCloses(s, t)
    ensures Missed(t) == Missed(s)
  {
    assert forall key :: key in t.parts <==> key in s.parts.Keys;
  }

  lemma OneMisses(s: State, t: State, key: string)
    requires key in s.parts && s.parts[key].expiredApprover.None? && key in t.parts
            && t.parts == s.parts[key := t.parts[key]]
    ensures forall user :: user in Missed(t) <==> user in Missed(s) || t.parts[key].expiredApprover == Some(user)
  {
    assert forall other :: other in s.parts && other != key ==> t.parts[other] == s.parts[other];
    forall user ensures user in Missed(t) <==> user in Missed(s) || t.parts[key].expiredApprover == Some(user) {
      if user in Missed(s) {
        var other :| other in s.parts && s.parts[other].expiredApprover.Some?
          && s.parts[other].expiredApprover.value == user;
        assert t.parts[other] == s.parts[other];
      }
    }
  }

  lemma TickMisses(finite: real -> bool, s: State, who: nat, pick: string)
    requires Sound(finite, s) && who in s.clients && s.clients[who].request.Tick?
    ensures forall user ::
            user in Missed(StepTick(finite, s, who, pick)) <==> user in Missed(s) || Expires(s, Step(who, pick), user)
  {
    hide MayBackUp, SoundRoutes, SoundOutbox, OnlyCloses, Missed;
    ClientOf(finite, s, who);
    var t, client := StepTick(finite, s, who, pick), s.clients[who];
    if client.progress.SawBackup? && TickCommits(s, client) {
      var key := client.request.key;
      assert client.progress.part == s.parts[key] && SoundPart(s.parts[key], s.version);
      OneMisses(s, t, key);
    } else {
      SameCloses(s, t);
      ClosingMisses(s, t);
    }
  }

  lemma SaveMisses(finite: real -> bool, s: State, who: nat)
    requires Sound(finite, s) && who in s.clients && s.clients[who].request.Save?
    ensures Missed(StepSave(s, who)) == Missed(s)
  {
    hide Missed, OnlyCloses;
    ClientOf(finite, s, who);
    var t, client := StepSave(s, who), s.clients[who];
    hide Sound, NewPart;
    if client.progress.Routed? && SaveCommits(s, client) {
      SavedMisses(s, t, client.request.version, client.request.parts);
    } else {
      SameCloses(s, t);
      ClosingMisses(s, t);
    }
  }

  lemma MoveMisses(finite: real -> bool, s: State, move: Move)
    requires Sound(finite, s)
    ensures forall user :: user in Missed(After(finite, s, move)) <==> user in Missed(s) || Expires(s, move, user)
  {
    hide Sound, Missed, StepSave, StepDecide, StepTick, StepReallocate, OnlyCloses;
    var t := After(finite, s, move);
    if move.Step? && move.who in s.clients {
      match s.clients[move.who].request
      case Save(_, _) => SaveMisses(finite, s, move.who);
      case Tick(_, _) => TickMisses(finite, s, move.who, move.pick);
      case Decide(_, _, _) =>
        DecideCloses(finite, s, move.who, move.pick);
        ClosingMisses(s, t);
      case Reallocate(_) =>
        ReallocateCloses(s, move.who, move.pick);
        ClosingMisses(s, t);
    } else {
      SameCloses(s, t);
      ClosingMisses(s, t);
    }
  }

  /** Over a run, those who missed an approval are those who had, and those an approval of whom expires in it. */
  lemma {:induction false} RunMisses(finite: real -> bool, s: State, moves: seq<Move>)
    requires Sound(finite, s)
    ensures forall user ::
            user in Missed(Run(finite, s, moves)) <==> user in Missed(s) || ExpiresIn(finite, s, moves, user)
    decreases |moves|
  {
    hide Sound, Missed, After, Expires;
    if moves != [] {
      MoveKeeps(finite, s, moves[0]);
      MoveMisses(finite, s, moves[0]);
      RunMisses(finite, After(finite, s, moves[0]), moves[1..]);
    }
  }

  // ----- A save remembers what it read -----

  /** A save that has read who missed an approval, or is done. */
  predicate Remembers(client: Client, request: Request, missed: set<string>) {
    client.request == request
    && (client.progress == SawMissed(missed) || client.progress == Routed(missed) || client.progress.Done?)
  }

  lemma OwnSaveRemembers(s: State, who: nat, request: Request, missed: set<string>)
    requires who in s.clients && request.Save? && Remembers(s.clients[who], request, missed)
    ensures who in StepSave(s, who).clients && Remembers(StepSave(s, who).clients[who], request, missed)
  {
    hide SaveCommits, Missed;
  }

  lemma SaveFrame(s: State, who: nat, other: nat)
    requires who in s.clients && s.clients[who].request.Save? && other in s.clients && other != who
    ensures other in StepSave(s, who).clients && StepSave(s, who).clients[other] == s.clients[other]
  {
    hide SaveCommits, Missed;
  }

  lemma MoveRemembers(finite: real -> bool, s: State, move: Move, who: nat, request: Request, missed: set<string>)
    requires who in s.clients && request.Save? && Remembers(s.clients[who], request, missed)
    ensures who in After(finite, s, move).clients && Remembers(After(finite, s, move).clients[who], request, missed)
  {
    hide StepSave, StepDecide, StepTick, StepReallocate, Remembers, Acceptable;
    if move.Step? && move.who in s.clients {
      if move.who == who {
        assert s.clients[who].request == request by {
          RequestOf(s.clients[who], request, missed);
        }
        OwnSaveRemembers(s, who, request, missed);
      } else {
        match s.clients[move.who].request
        case Save(_, _) => SaveFrame(s, move.who, who);
        case Decide(_, _, _) => DecideFrame(finite, s, move.who, move.pick);
        case Tick(_, _) => TickFrame(finite, s, move.who, move.pick);
        case Reallocate(_) => ReallocateFrame(s, move.who, move.pick);
      }
    }
  }

  lemma RequestOf(client: Client, request: Request, missed: set<string>)
    requires Remembers(client, request, missed)
    ensures client.request == request
  {}

  lemma {:induction false} RunRemembers(finite: real -> bool, s: State, moves: seq<Move>, who: nat, request: Request,
                                        missed: set<string>)
    requires who in s.clients && request.Save? && Remembers(s.clients[who], request, missed)
    ensures who in Run(finite, s, moves).clients && Remembers(Run(finite, s, moves).clients[who], request, missed)
    decreases |moves|
  {
    hide After, Remembers;
    if moves != [] {
      MoveRemembers(finite, s, moves[0], who, request, missed);
      RunRemembers(finite, After(finite, s, moves[0]), moves[1..], who, request, missed);
    }
  }

  /**
   Let a save read, at `s`, who has missed an approval, and after any moves of anybody store its route. It then
   assigns an approver who has let an approval of the case expire exactly when one of the moves between was
   the expiry of an approval of that approver.
   */
  lemma ReassignedExactlyIfExpiredSince(finite: real -> bool, s: State, who: nat, pick: string, moves: seq<Move>,
                                        key: string)
    requires Sound(finite, s) && who in s.clients && s.clients[who].request.Save? && s.clients[who].progress.Begun?
    requires Saves(Run(finite, After(finite, s, Step(who, pick)), moves), Step(who, pick))
    requires key in s.clients[who].request.parts && s.clients[who].request.parts[key].approver.Some?
    ensures var read := After(finite, s, Step(who, pick));
      var t, user := Run(finite, read, moves), s.clients[who].request.parts[key].approver.value;
      var end := After(finite, t, Step(who, pick));
      && key in end.parts && end.parts[key].approver == Some(user) && Open(end.parts[key])
      && (user in Missed(end) <==> ExpiresIn(finite, read, moves, user))
  {
    var request, read := s.clients[who].request, After(finite, s, Step(who, pick));
    var user := request.parts[key].approver.value;
    assert Remembers(read.clients[who], request, Missed(s)) && Missed(read) == Missed(s);
    MoveKeeps(finite, s, Step(who, pick));
    hide After;
    RunRemembers(finite, read, moves, who, request, Missed(s));
    RunKeeps(finite, read, moves);
    RunMisses(finite, read, moves);
    hide Run;
    StoredAs(finite, Run(finite, read, moves), who, pick, request, Missed(s), key);
  }

  lemma StoredAs(finite: real -> bool, t: State, who: nat, pick: string, request: Request, missed: set<string>,
                 key: string)
    requires Sound(finite, t) && Saves(t, Step(who, pick)) && request.Save?
            && Remembers(t.clients[who], request, missed)
    requires key in request.parts && request.parts[key].approver.Some?
    ensures var end, user := After(finite, t, Step(who, pick)), request.parts[key].approver.value;
      && key in end.parts && end.parts[key].approver == Some(user) && Open(end.parts[key])
      && user !in missed && Missed(end) == Missed(t)
  {
    ClientOf(finite, t, who);
    assert NewPart(request.parts[key], request.version);
    SaveMisses(finite, t, who);
    hide Sound, Missed, SaveCommits;
  }

  // ----- Expiries are announced once -----

  /** Only an approval that expired has its expiry announced. */
  ghost predicate ExpiriesAnnounced(s: State) {
    forall key :: s.outbox[Expiry(key)] > 0 ==> key in s.parts && s.parts[key].expired
  }

  /** The announcements of expiries added by a move are those of approvals it lets expire. */
  ghost predicate AnnouncesExpired(s: State, t: State) {
    forall key :: t.outbox[Expiry(key)] > s.outbox[Expiry(key)] ==> key in t.parts && t.parts[key].expired
  }

  lemma TickAnnounces(finite: real -> bool, s: State, who: nat, pick: string)
    requires Sound(finite, s) && who in s.clients && s.clients[who].request.Tick?
    ensures AnnouncesExpired(s, StepTick(finite, s, who, pick))
  {
    ClientOf(finite, s, who);
    hide Sound, MayBackUp, Due, Stranded, TickCommits;
  }

  lemma SaveAnnounces(s: State, who: nat)
    requires who in s.clients && s.clients[who].request.Save?
    ensures AnnouncesExpired(s, StepSave(s, who))
  {
    hide SaveCommits, Missed;
    assert forall key :: Expiry(key) !in AutoApproved(s.clients[who].request.parts);
  }

  lemma DecideAnnounces(finite: real -> bool, s: State, who: nat, pick: string)
    requires who in s.clients && s.clients[who].request.Decide?
    ensures AnnouncesExpired(s, StepDecide(finite, s, who, pick))
  {
    hide May, DecideCommits, Routing.Sufficient, IsOff;
  }

  lemma ReallocateAnnounces(s: State, who: nat, pick: string)
    requires who in s.clients && s.clients[who].request.Reallocate?
    ensures AnnouncesExpired(s, StepReallocate(s, who, pick))
  {
    hide Waiting, ReallocateCommits, Superseded;
  }

  lemma MoveAnnounces(finite: real -> bool, s: State, move: Move)
    requires Sound(finite, s) && ExpiriesAnnounced(s)
    ensures ExpiriesAnnounced(After(finite, s, move))
  {
    var t := After(finite, s, move);
    MoveFollows(finite, s, move);
    assert AnnouncesExpired(s, t) by {
      hide Sound, PartsFollow, StepTick, StepSave, StepDecide, StepReallocate;
      if move.Step? && move.who in s.clients {
        match s.clients[move.who].request
        case Save(_, _) => SaveAnnounces(s, move.who);
        case Decide(_, _, _) => DecideAnnounces(finite, s, move.who, move.pick);
        case Tick(_, _) => TickAnnounces(finite, s, move.who, move.pick);
        case Reallocate(_) => ReallocateAnnounces(s, move.who, move.pick);
      }
    }
    hide After, Sound;
    assert forall key :: key in s.parts && s.parts[key].expired ==> key in t.parts && t.parts[key].expired by {
      forall key | key in s.parts && s.parts[key].expired ensures key in t.parts && t.parts[key].expired {
        assert Follows(t.parts[key], s.parts[key]);
      }
    }
  }

  lemma {:induction false} RunAnnounces(finite: real -> bool, s: State, moves: seq<Move>)
    requires Sound(finite, s) && ExpiriesAnnounced(s)
    ensures ExpiriesAnnounced(Run(finite, s, moves))
    decreases |moves|
  {
    hide Sound, ExpiriesAnnounced, After;
    if moves != [] {
      MoveKeeps(finite, s, moves[0]);
      MoveAnnounces(finite, s, moves[0]);
      RunAnnounces(finite, After(finite, s, moves[0]), moves[1..]);
    }
  }

  // ----- Any open approval may expire -----

  lemma Above(s: set<nat>) returns (n: nat)
    ensures forall x :: x in s ==> x < n
  {
    n := 0;
    if s != {} {
      var x :| x in s;
      n := Above(s - {x});
      n := if n <= x then x + 1 else n;
      assert forall y :: y in s ==> y == x || y in s - {x};
    }
  }

  lemma {:induction false} OrderlyJoins(finite: real -> bool, s: State, a: seq<Move>, b: seq<Move>)
    requires OrderlyRun(finite, s, a) && OrderlyRun(finite, Run(finite, s, a), b)
    ensures OrderlyRun(finite, s, a + b)
    decreases |a|
  {
    hide After, Orderly;
    if a == [] {
      assert a + b == b;
    } else {
      assert (a + b)[0] == a[0] && (a + b)[1..] == a[1..] + b;
      OrderlyJoins(finite, After(finite, s, a[0]), a[1..], b);
    }
  }

  lemma OrderlyFour(finite: real -> bool, s: State, a: Move, b: Move, c: Move, d: Move)
    requires Orderly(s, a) && Orderly(After(finite, s, a), b) && Orderly(After(finite, After(finite, s, a), b), c)
    requires Orderly(After(finite, After(finite, After(finite, s, a), b), c), d)
    ensures OrderlyRun(finite, s, [a, b, c, d])
  {
    hide After, Orderly;
    var s3 := After(finite, After(finite, After(finite, s, a), b), c);
    assert [d][1..] == [] && [c, d][1..] == [d] && [b, c, d][1..] == [c, d] && [a, b, c, d][1..] == [b, c, d];
    assert OrderlyRun(finite, s3, [d]);
    assert OrderlyRun(finite, After(finite, After(finite, s, a), b), [c, d]);
    assert OrderlyRun(finite, After(finite, s, a), [b, c, d]);
  }

  lemma TimersAreOrderly(s: State, who: nat, request: Request, progress: Progress, pick: string)
    requires request.Tick?
    ensures Orderly(With(s, who, request, progress), Step(who, pick))
  {}

  /** An undisturbed timer stores no route. */
  lemma ExpiryIsOrderly(finite: real -> bool, s: State, who: nat, request: Request, backup: Option<string>)
    requires who !in s.clients && Expiring(finite, s, request, backup)
    ensures OrderlyRun(finite, s, TickMoves(who, request, backup))
  {
    var pick := if backup.Some? then backup.value else "";
    assert request.Tick? && Due(s.parts[request.key], request.now);
    assert Orderly(s, Start(who, request));
    hide After, With, Expiring, Due, Orderly, OrderlyRun;
    var part := s.parts[request.key];
    Started(finite, s, who, request);
    TickReadsPart(finite, s, who, request, "");
    TickFindsBackup(finite, s, who, request, backup);
    TimersAreOrderly(s, who, request, Begun, "");
    TimersAreOrderly(s, who, request, SawPart(request.key, part), pick);
    TimersAreOrderly(s, who, request, SawBackup(request.key, part, backup), "");
    OrderlyFour(finite, s, Start(who, request), Step(who, ""), Step(who, pick), Step(who, ""));
  }

  /** Every open approval can expire, by a timer nobody disturbs. */
  lemma OpenMayExpire(finite: real -> bool, s: State, key: string) returns (moves: seq<Move>)
    requires ExpiriesAnnounced(s) && key in s.parts && Open(s.parts[key])
    ensures OrderlyRun(finite, s, moves)
    ensures var t := Run(finite, s, moves);
      && key in t.parts && t.parts[key].expired && t.parts[key].expiredApprover == s.parts[key].approver
      && t.parts == s.parts[key := t.parts[key]]
  {
    var part := s.parts[key];
    var who := Above(s.clients.Keys);
    var now := if part.deadline >= part.reminder then part.deadline else part.reminder;
    var request := Tick(key, now);
    assert Due(part, now);
    var backup := None;
    if user :| user in s.limits && MayBackUp(finite, s, part, now, user) {
      backup := Some(user);
    }
    assert Expiring(finite, s, request, backup);
    hide MayBackUp, Due, Expiring, TickMoves, OrderlyRun, Run, ExpiriesAnnounced;
    moves := TickMoves(who, request, backup);
    ExpiredAlone(finite, s, who, request, backup);
    ExpiryIsOrderly(finite, s, who, request, backup);
  }

  // ----- Exactly which saves endanger hand-over -----

  /** However the run goes on, as long as later routes are stored in order, each expiry has another approver. */
  ghost predicate StaysApart(finite: real -> bool, s: State) {
    forall moves :: OrderlyRun(finite, s, moves) ==> ExpiredApart(Run(finite, s, moves))
  }

  lemma StaleBreaks(finite: real -> bool, t: State, key: string, user: string)
    requires ExpiriesAnnounced(t) && key in t.parts && Open(t.parts[key]) && t.parts[key].approver == Some(user)
    requires exists other :: other in t.parts && t.parts[other].expired && t.parts[other].expiredApprover == Some(user)
    ensures !StaysApart(finite, t)
  {
    var other :| other in t.parts && t.parts[other].expired && t.parts[other].expiredApprover == Some(user);
    var moves := OpenMayExpire(finite, t, key);
    var end := Run(finite, t, moves);
    assert other != key && end.parts[other] == t.parts[other];
    assert !ExpiredApart(end);
  }

  lemma TwoOpenBreak(finite: real -> bool, t: State, key: string, other: string, user: string)
    requires Sound(finite, t) && ExpiriesAnnounced(t) && key != other
    requires key in t.parts && Open(t.parts[key]) && t.parts[key].approver == Some(user)
    requires other in t.parts && Open(t.parts[other]) && t.parts[other].approver == Some(user)
    ensures !StaysApart(finite, t)
  {
    var first := OpenMayExpire(finite, t, other);
    var between := Run(finite, t, first);
    RunAnnounces(finite, t, first);
    hide Sound, ExpiriesAnnounced;
    var second := OpenMayExpire(finite, between, key);
    OrderlyJoins(finite, t, first, second);
    RunJoins(finite, t, first, second);
    var end := Run(finite, between, second);
    assert end.parts[other] == between.parts[other];
    assert !ExpiredApart(end);
  }

  /** The state right after a route was stored. */
  lemma StoredState(finite: real -> bool, s: State, who: nat, key: string)
    requires Sound(finite, s) && ExpiriesAnnounced(s) && Saves(s, Step(who, ""))
    requires key in s.clients[who].request.parts && s.clients[who].request.parts[key].approver.Some?
    ensures var t := After(finite, s, Step(who, ""));
      && Sound(finite, t) && ExpiriesAnnounced(t) && key in t.parts && key !in s.parts
      && Open(t.parts[key]) && t.parts[key].approver == s.clients[who].request.parts[key].approver
      && forall other :: other in s.parts ==> other in t.parts && t.parts[other] == s.parts[other]
  {
    MoveKeeps(finite, s, Step(who, ""));
    MoveAnnounces(finite, s, Step(who, ""));
    ClientOf(finite, s, who);
    var request := s.clients[who].request;
    assert NewPart(request.parts[key], request.version);
    hide Sound, ExpiriesAnnounced;
    assert After(finite, s, Step(who, "")).parts == s.parts + request.parts;
  }

  lemma OneApprover(finite: real -> bool, s: State, who: nat, key: string)
    requires Sound(finite, s) && Saves(s, Step(who, ""))
    requires key in s.clients[who].request.parts && s.clients[who].request.parts[key].approver.Some?
    ensures Orderly(s, Step(who, "")) <==> Fresh(s, s.clients[who].request.parts[key].approver.value)
  {
    ClientOf(finite, s, who);
    var request := s.clients[who].request;
    forall other | other in request.parts && request.parts[other].approver.Some? ensures other == key {
      assert NewPart(request.parts[other], request.version) && NewPart(request.parts[key], request.version);
    }
    hide Sound, SoundClient, Fresh;
  }

  /**
   Storing a route endangers hand-over exactly when its approver has already let an approval of the case
   expire, or still has one open: otherwise, however the run goes on, no approver lets two of them expire
   as long as the same is true of later routes.
   */
  lemma StaysApartExactlyIfFresh(finite: real -> bool, s: State, who: nat, key: string)
    requires Sound(finite, s) && HandedOver(s) && ExpiriesAnnounced(s) && Saves(s, Step(who, ""))
    requires key in s.clients[who].request.parts && s.clients[who].request.parts[key].approver.Some?
    ensures StaysApart(finite, After(finite, s, Step(who, "")))
            <==> Fresh(s, s.clients[who].request.parts[key].approver.value)
  {
    var t, user := After(finite, s, Step(who, "")), s.clients[who].request.parts[key].approver.value;
    StoredState(finite, s, who, key);
    OneApprover(finite, s, who, key);
    if Fresh(s, user) {
      hide Sound, After, Orderly, Fresh, ExpiriesAnnounced, Saves;
      MoveHandsOver(finite, s, Step(who, ""));
      forall moves | OrderlyRun(finite, t, moves) ensures ExpiredApart(Run(finite, t, moves)) {
        RunHandsOver(finite, t, moves);
      }
    } else if user in Missed(s) {
      var other :| other in s.parts && s.parts[other].expiredApprover == Some(user);
      ExpiredHaveApprovers(s);
      hide Sound, ExpiriesAnnounced, After, Saves;
      StaleBreaks(finite, t, key, user);
    } else {
      var other :| other in s.parts && Open(s.parts[other]) && s.parts[other].approver == Some(user);
      hide Sound, ExpiriesAnnounced, After, Saves;
      TwoOpenBreak(finite, t, key, other, user);
    }
  }
}
