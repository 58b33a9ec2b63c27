/** What happens when nobody is left to take over an approval: `tick` and `_escalate` of services/routing/store.py. */
module Escalation {
  import opened Basics
  import opened Approvals
  import opened ApprovalTheorems
  import opened HandOver
  import opened Reassignment
  import Routing

  /** When nobody is left to back up an expiring approval, the case that awaits it is escalated. */
  lemma LastExpiryEscalates(finite: real -> bool, s: State, who: nat)
    requires Sound(finite, s) && who in s.clients && s.clients[who].request.Tick? && s.clients[who].progress.SawPart?
    requires s.clients[who].progress.part.deadline <= s.clients[who].request.now && s.status.AwaitingApproval?
    requires var key := s.clients[who].request.key;
      && key in s.parts && s.parts[key] == s.clients[who].progress.part && s.outbox[Expiry(key)] == 0
      && forall user :: !MayBackUp(finite, s, s.parts[key], s.clients[who].request.now, user)
    ensures var key := s.clients[who].request.key;
      var t := After(finite, After(finite, After(finite, s, Step(who, "")), Step(who, "")), Step(who, ""));
      t.status == Escalated && key in t.parts && t.parts[key].expired && t.parts[key].approver.None?
  {
    var key, part, now := s.clients[who].request.key, s.parts[s.clients[who].request.key], s.clients[who].request.now;
    var s1 := Now(s, who, SawBackup(key, part, None));
    NoBackup(finite, s, who);
    LastCommit(finite, s1, who);
  }

  lemma NoBackup(finite: real -> bool, s: State, who: nat)
    requires Sound(finite, s) && who in s.clients && s.clients[who].request.Tick? && s.clients[who].progress.SawPart?
    requires s.clients[who].progress.part.deadline <= s.clients[who].request.now
    requires forall user :: !MayBackUp(finite, s, s.clients[who].progress.part, s.clients[who].request.now, user)
    ensures s.clients[who].progress.key == s.clients[who].request.key
    ensures After(finite, s, Step(who, ""))
            == Now(s, who, SawBackup(s.clients[who].request.key, s.clients[who].progress.part, None))
  {
    ClientOf(finite, s, who);
    hide Sound, MayBackUp;
  }

  lemma LastCommit(finite: real -> bool, s: State, who: nat)
    requires who in s.clients && s.clients[who].request.Tick? && s.status.AwaitingApproval?
    requires var key := s.clients[who].request.key;
      && key in s.parts && s.clients[who].progress == SawBackup(key, s.parts[key], None)
      && s.parts[key].deadline <= s.clients[who].request.now && s.outbox[Expiry(key)] == 0
    ensures var key := s.clients[who].request.key;
      var t := After(finite, After(finite, s, Step(who, "")), Step(who, ""));
      t.status == Escalated && key in t.parts && t.parts[key].expired && t.parts[key].approver.None?
  {
    var t := After(finite, s, Step(who, ""));
    assert t.clients[who].progress == Escalating && t.clients[who].request.Tick?;
  }

  // ----- Over every run -----

  /** When every approver has missed an approval of the case, or holds the one that expires, nobody can back it up. */
  lemma NobodyLeft(finite: real -> bool, s: State, part: Part, now: int)
    requires forall user :: user in s.limits ==> user in Missed(s) || part.approver == Some(user)
    ensures forall user :: !MayBackUp(finite, s, part, now, user)
  {}

  /** The approval expired and nobody took over. */
  predicate Abandoned(s: State, key: string) {
    key in s.parts && s.parts[key].expired && s.parts[key].approver.None?
  }

  /** An expiry without a backup abandons the approval. */
  lemma ExpiryAbandons(finite: real -> bool, s: State, who: nat, pick: string)
    requires Sound(finite, s) && who in s.clients && s.clients[who].request.Tick? && s.clients[who].progress.SawBackup?
    requires TickCommits(s, s.clients[who]) && s.clients[who].request.now >= s.clients[who].progress.part.deadline
    ensures Abandoned(StepTick(finite, s, who, pick), s.clients[who].request.key)
            <==> s.clients[who].progress.backup.None?
  {
    ClientOf(finite, s, who);
    hide Sound, MayBackUp, Due;
  }

  lemma SaveLeavesExpired(finite: real -> bool, s: State, who: nat, key: string)
    requires Sound(finite, s) && who in s.clients && s.clients[who].request.Save? && key in s.parts
    ensures key in StepSave(s, who).parts && StepSave(s, who).parts[key] == s.parts[key]
  {
    hide Sound, Missed;
  }

  lemma DecideLeavesExpired(finite: real -> bool, s: State, who: nat, pick: string, key: string)
    requires Sound(finite, s) && who in s.clients && s.clients[who].request.Decide? && key in s.parts
            && s.parts[key].expired
    ensures key in StepDecide(finite, s, who, pick).parts && StepDecide(finite, s, who, pick).parts[key] == s.parts[key]
  {
    ClientOf(finite, s, who);
    hide SoundParts, SoundRoutes, SoundOutbox, SoundClients, Routing.Sufficient, IsOff;
  }

  lemma TickLeavesExpired(finite: real -> bool, s: State, who: nat, pick: string, key: string)
    requires Sound(finite, s) && who in s.clients && s.clients[who].request.Tick? && key in s.parts
            && s.parts[key].expired
    ensures key in StepTick(finite, s, who, pick).parts && StepTick(finite, s, who, pick).parts[key] == s.parts[key]
  {
    ClientOf(finite, s, who);
    hide SoundParts, SoundRoutes, SoundOutbox, SoundClients, MayBackUp;
  }

  lemma ReallocateLeavesExpired(finite: real -> bool, s: State, who: nat, pick: string, key: string)
    requires Sound(finite, s) && who in s.clients && s.clients[who].request.Reallocate?
    requires key in s.parts && s.parts[key].expired
    ensures key in StepReallocate(s, who, pick).parts && StepReallocate(s, who, pick).parts[key] == s.parts[key]
  {
    ClientOf(finite, s, who);
    hide SoundParts, SoundRoutes, SoundOutbox, SoundClients;
  }

  /** An approval that expired never changes again. */
  lemma ExpiredStays(finite: real -> bool, s: State, move: Move, key: string)
    requires Sound(finite, s) && key in s.parts && s.parts[key].expired
    ensures key in After(finite, s, move).parts && After(finite, s, move).parts[key] == s.parts[key]
  {
    hide Sound, StepSave, StepDecide, StepTick, StepReallocate, Acceptable;
    if move.Step? && move.who in s.clients {
      match s.clients[move.who].request
      case Save(_, _) => SaveLeavesExpired(finite, s, move.who, key);
      case Decide(_, _, _) => DecideLeavesExpired(finite, s, move.who, move.pick, key);
      case Tick(_, _) => TickLeavesExpired(finite, s, move.who, move.pick, key);
      case Reallocate(_) => ReallocateLeavesExpired(finite, s, move.who, move.pick, key);
    }
  }

  /** A client moves only by its own steps. */
  lemma ClientWaits(finite: real -> bool, s: State, move: Move, who: nat)
    requires who in s.clients && !(move.Step? && move.who == who)
    ensures who in After(finite, s, move).clients && After(finite, s, move).clients[who] == s.clients[who]
  {
    hide StepSave, StepDecide, StepTick, StepReallocate, Acceptable;
    if move.Step? && move.who in s.clients {
      match s.clients[move.who].request
      case Save(_, _) => SaveFrame(s, move.who, who);
      case Decide(_, _, _) => DecideFrame(finite, s, move.who, move.pick);
      case Tick(_, _) => TickFrame(finite, s, move.who, move.pick);
      case Reallocate(_) => ReallocateFrame(s, move.who, move.pick);
    }
  }

  /** A case that left approval comes back to it only from outside. */
  lemma LeftStays(finite: real -> bool, s: State, move: Move)
    requires !s.status.AwaitingApproval? && move != SetStatus(AwaitingApproval)
    ensures !After(finite, s, move).status.AwaitingApproval?
  {
    hide MayBackUp, May, Due, Stranded, Waiting, DecideCommits, TickCommits, ReallocateCommits, SaveCommits, Missed,
         Superseded, Routing.Sufficient, IsOff, Acceptable;
  }

  function StepsOf(moves: seq<Move>, who: nat): nat {
    if moves == [] then 0 else (if moves[0].Step? && moves[0].who == who then 1 else 0) + StepsOf(moves[1..], who)
  }

  /** A timer of this approval with so many steps ahead of it escalates the case. */
  predicate WillEscalate(s: State, who: nat, key: string, steps: nat) {
    && who in s.clients && s.clients[who].request.Tick? && s.clients[who].request.key == key
    && ((s.clients[who].progress.Begun? && steps >= 2) || (s.clients[who].progress.Escalating? && steps >= 1))
  }

  lemma TimerAdvances(finite: real -> bool, s: State, who: nat, pick: string, key: string, steps: nat)
    requires Sound(finite, s) && Abandoned(s, key) && WillEscalate(s, who, key, steps + 1)
    ensures var t := After(finite, s, Step(who, pick)); !t.status.AwaitingApproval? || WillEscalate(t, who, key, steps)
  {
    assert SoundPart(s.parts[key], s.version);
    hide Sound, MayBackUp, Due, TickCommits;
  }

  /**
   Once an approval expired with nobody to take over, and whatever else goes on, the case no longer awaits
   approval as soon as its timer has been retried: as soon as two steps of a new timer have been taken.
   */
  lemma {:induction false} RetriedTimerEscalates(finite: real -> bool, s: State, moves: seq<Move>, who: nat,
                                                 key: string)
    requires Sound(finite, s) && Abandoned(s, key) && forall i :: 0 <= i < |moves| ==>
            moves[i] != SetStatus(AwaitingApproval)
    requires !s.status.AwaitingApproval? || WillEscalate(s, who, key, StepsOf(moves, who))
    ensures !Run(finite, s, moves).status.AwaitingApproval? && Abandoned(Run(finite, s, moves), key)
    decreases |moves|
  {
    hide Sound, After, WillEscalate;
    if moves != [] {
      var move, t := moves[0], After(finite, s, moves[0]);
      MoveKeeps(finite, s, move);
      ExpiredStays(finite, s, move, key);
      if !s.status.AwaitingApproval? {
        LeftStays(finite, s, move);
      } else if move.Step? && move.who == who {
        TimerAdvances(finite, s, who, move.pick, key, StepsOf(moves[1..], who));
      } else {
        TimerWaits(finite, s, move, who, key, StepsOf(moves, who));
      }
      RetriedTimerEscalates(finite, t, moves[1..], who, key);
    } else {
      NoStepsLeft(s, who, key);
    }
  }

  lemma NoStepsLeft(s: State, who: nat, key: string)
    ensures !WillEscalate(s, who, key, 0)
  {}

  lemma TimerWaits(finite: real -> bool, s: State, move: Move, who: nat, key: string, steps: nat)
    requires WillEscalate(s, who, key, steps) && !(move.Step? && move.who == who)
    ensures WillEscalate(After(finite, s, move), who, key, steps)
  {
    hide After;
    ClientWaits(finite, s, move, who);
  }
}
