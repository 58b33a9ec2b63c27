/**
 The hash-chained audit trail: services/shared/audit.py, and the check a decision record makes of it
 in services/reporting/decision.py. Event ids are integers, as ULIDs compare; the digest is a parameter.
 */
module AuditChain {
  import opened Basics
  import opened Storage

  const GENESIS := "0000000000000000000000000000000000000000000000000000000000000000"

  datatype Draft = Draft(chainKey: string, caseId: Option<string>, actor: string, kind: string, payload: Value)

  datatype Event = Event(eventId: nat, draft: Draft, ts: int, prevHash: string, hash: string)

  /** What is hashed. */
  datatype Material = Material(eventId: nat, draft: Draft, ts: int, prevHash: string)

  function MaterialOf(eventId: nat, draft: Draft, ts: int, prevHash: string): Material {
    Material(eventId, draft.(payload := Canonical(draft.payload)), ts, prevHash)
  }

  type Digest = Material -> string

  /** SHA-256 as one relies on it: no collision, and nothing hashes to the genesis value. */
  ghost predicate Strong(digest: Digest) {
    (forall a, b :: digest(a) == digest(b) ==> a == b) && forall a :: digest(a) != GENESIS
  }

  function HashOf(digest: Digest, event: Event): string {
    digest(MaterialOf(event.eventId, event.draft, event.ts, event.prevHash))
  }

  // ----- Verification -----

  function LastHash(events: seq<Event>): string {
    if events == [] then GENESIS else events[|events| - 1].hash
  }

  /** The event at `i` links to the one before it and hashes to its own hash. */
  predicate Holds(digest: Digest, events: seq<Event>, i: nat)
    requires i < |events|
  {
    events[i].prevHash == LastHash(events[..i]) && events[i].hash == HashOf(digest, events[i])
  }

  ghost predicate Verifies(digest: Digest, events: seq<Event>) {
    forall i :: 0 <= i < |events| ==> Holds(digest, events, i)
  }

  /** The ids, in order, of the events among the first `n` that do not hold. */
  function Broken(digest: Digest, events: seq<Event>, n: nat): seq<nat>
    requires n <= |events|
  {
    if n == 0 then []
    else Broken(digest, events, n - 1) + (if Holds(digest, events, n - 1) then [] else [events[n - 1].eventId])
  }

  method VerifyChain(digest: Digest, events: seq<Event>) returns (broken: seq<nat>)
    ensures broken == Broken(digest, events, |events|)
    ensures broken == [] <==> Verifies(digest, events)
  {
    broken := [];
    var previous := GENESIS;
    var i := 0;
    while i < |events|
      invariant 0 <= i <= |events| && previous == LastHash(events[..i])
      invariant broken == Broken(digest, events, i)
      invariant broken == [] <==> forall k :: 0 <= k < i ==> Holds(digest, events, k)
    {
      if events[i].prevHash != previous || events[i].hash != HashOf(digest, events[i]) {
        broken := broken + [events[i].eventId];
      }
      previous := events[i].hash;
      i := i + 1;
    }
  }

  lemma VerifiesPrefix(digest: Digest, events: seq<Event>, n: nat)
    requires Verifies(digest, events) && n <= |events|
    ensures Verifies(digest, events[..n])
  {
    forall i | 0 <= i < n ensures Holds(digest, events[..n], i) {
      assert events[..n][..i] == events[..i];
      assert Holds(digest, events, i);
    }
  }

  /**
   Nothing can be changed, dropped, added or reordered unseen: any sequence that verifies and ends at
   the recorded head is the recorded sequence, every field of it, modulo the canonical form of payloads.
   */
  lemma {:induction false} HeadFixesHistory(digest: Digest, recorded: seq<Event>, shown: seq<Event>)
    requires Strong(digest) && Verifies(digest, recorded) && Verifies(digest, shown)
    requires LastHash(recorded) == LastHash(shown)
    ensures |recorded| == |shown| && forall i :: 0 <= i < |recorded| ==>
      var a, b := recorded[i], shown[i];
      && a.eventId == b.eventId && a.ts == b.ts && a.prevHash == b.prevHash && a.hash == b.hash
      && a.draft.(payload := Canonical(a.draft.payload)) == b.draft.(payload := Canonical(b.draft.payload))
    decreases |recorded|
  {
    if recorded == [] || shown == [] {
      NonemptyEndsElsewhere(digest, recorded);
      NonemptyEndsElsewhere(digest, shown);
    } else {
      var m, n := |recorded| - 1, |shown| - 1;
      assert Holds(digest, recorded, m) && Holds(digest, shown, n);
      VerifiesPrefix(digest, recorded, m);
      VerifiesPrefix(digest, shown, n);
      HeadFixesHistory(digest, recorded[..m], shown[..n]);
      assert forall i :: 0 <= i < m ==> recorded[..m][i] == recorded[i] && shown[..n][i] == shown[i];
    }
  }

  lemma NonemptyEndsElsewhere(digest: Digest, events: seq<Event>)
    requires Strong(digest) && Verifies(digest, events)
    ensures LastHash(events) == GENESIS <==> events == []
  {
    if events != [] {
      assert Holds(digest, events, |events| - 1);
    }
  }

  /** An event as it is verified: read back from storage and dumped again. */
  function Reread(event: Event): Event {
    event.(draft := event.draft.(payload := Reloaded(event.draft.payload)))
  }

  /** A recorded event still hashes to its hash after storage exactly when its payload lasts. */
  lemma RereadHolds(digest: Digest, event: Event)
    requires Strong(digest) && event.hash == HashOf(digest, event)
    ensures Reread(event).hash == HashOf(digest, Reread(event)) <==> Lasts(event.draft.payload)
  {
    CanonicalSurvivesStorage(event.draft.payload);
  }

  /**
   A verified chain still verifies when read back exactly when all its payloads last: no None field, and no
   number or date in them that is dumped or stored with another spelling than the one hashed.
   */
  lemma RereadVerifies(digest: Digest, events: seq<Event>)
    requires Strong(digest) && Verifies(digest, events)
    ensures var reread := seq(|events|, i requires 0 <= i < |events| => Reread(events[i]));
      Verifies(digest, reread) <==> forall i :: 0 <= i < |events| ==> Lasts(events[i].draft.payload)
  {
    hide HashOf, Lasts, Strong;
    var reread := seq(|events|, i requires 0 <= i < |events| => Reread(events[i]));
    forall i | 0 <= i < |events| ensures Holds(digest, reread, i) <==> Lasts(events[i].draft.payload) {
      assert Holds(digest, events, i);
      RereadHolds(digest, events[i]);
      assert LastHash(reread[..i]) == LastHash(events[..i]);
    }
  }

  // ----- Concurrent writers -----

  const ATTEMPTS := 5

  datatype Head = Head(hash: string, eventId: nat)

  /** `Linking` has read a head, or assumes one that was read before; `left` counts attempts. */
  datatype Progress =
    | Reading(left: nat)
    | Linking(seen: Option<Head>, left: nat)
    | Recorded(event: Event)
    | Conflicted
    | GaveUp

  datatype Writer = Writer(draft: Draft, progress: Progress)

  /** One chain: its stored head and events, and whose extra writes have been committed. */
  datatype State = State(head: Option<Head>, events: seq<Event>, extras: seq<nat>, writers: map<nat, Writer>)

  datatype Move =
    | Start(who: nat, draft: Draft)
    | StartAssuming(who: nat, draft: Draft, upTo: nat)
    | Read(who: nat)
    | Commit(who: nat, candidate: nat, ts: int, extraHolds: bool)

  function HeadAt(events: seq<Event>, n: nat): Option<Head>
    requires n <= |events|
  {
    if n == 0 then None else Some(Head(events[n - 1].hash, events[n - 1].eventId))
  }

  function Previous(seen: Option<Head>): string {
    if seen.Some? then seen.value.hash else GENESIS
  }

  /** `_after`: a fresh id, raised above the last one when it is not already. */
  function NextId(seen: Option<Head>, candidate: nat): nat {
    if seen.Some? && candidate <= seen.value.eventId then seen.value.eventId + 1 else candidate
  }

  /** The next id is the least that is no smaller than the fresh one and larger than the last one. */
  lemma NextIdLeast(seen: Option<Head>, candidate: nat, id: nat)
    ensures NextId(seen, candidate) >= candidate && (seen.Some? ==> NextId(seen, candidate) > seen.value.eventId)
    ensures id >= candidate && (seen.Some? ==> id > seen.value.eventId) ==> NextId(seen, candidate) <= id
  {}

  function Linked(digest: Digest, draft: Draft, seen: Option<Head>, candidate: nat, ts: int): Event {
    var id := NextId(seen, candidate);
    Event(id, draft, ts, Previous(seen), digest(MaterialOf(id, draft, ts, Previous(seen))))
  }

  predicate HeadUnmoved(head: Option<Head>, seen: Option<Head>) {
    if seen.None? then head.None? else head.Some? && head.value.hash == seen.value.hash
  }

  predicate IdUnused(events: seq<Event>, id: nat) {
    forall event <- events :: event.eventId != id
  }

  /** One move of one writer; a crash is a writer that moves no more. */
  function After(digest: Digest, s: State, move: Move): State {
    match move
    case Start(who, draft) =>
      if who in s.writers then s else s.(writers := s.writers[who := Writer(draft, Reading(ATTEMPTS))])
    case StartAssuming(who, draft, upTo) =>
      if who in s.writers || upTo > |s.events| then s
      else s.(writers := s.writers[who := Writer(draft, Linking(HeadAt(s.events, upTo), ATTEMPTS - 1))])
    case Read(who) =>
      if who !in s.writers || !s.writers[who].progress.Reading? then s
      else
        var left := s.writers[who].progress.left;
        var next := if left == 0 then GaveUp else Linking(s.head, left - 1);
        s.(writers := s.writers[who := s.writers[who].(progress := next)])
    case Commit(who, candidate, ts, extraHolds) =>
      if who !in s.writers || !s.writers[who].progress.Linking? then s
      else
        var writer := s.writers[who];
        var event := Linked(digest, writer.draft, writer.progress.seen, candidate, ts);
        if !extraHolds then s.(writers := s.writers[who := writer.(progress := Conflicted)])
        else if !HeadUnmoved(s.head, writer.progress.seen) || !IdUnused(s.events, event.eventId)
        then s.(writers := s.writers[who := writer.(progress := Reading(writer.progress.left))])
        else State(Some(Head(event.hash, event.eventId)), s.events + [event], s.extras + [who],
                   s.writers[who := writer.(progress := Recorded(event))])
  }

  function Run(digest: Digest, s: State, moves: seq<Move>): State
    decreases |moves|
  {
    if moves == [] then s else Run(digest, After(digest, s, moves[0]), moves[1..])
  }

  // ----- Attempts -----

  /** How often, over these moves, the writer puts its event to the table. */
  function Tried(digest: Digest, s: State, moves: seq<Move>, who: nat): nat
    decreases |moves|
  {
    if moves == [] then 0
    else
      var trying := moves[0].Commit? && moves[0].who == who && who in s.writers && s.writers[who].progress.Linking?;
      (if trying then 1 else 0) + Tried(digest, After(digest, s, moves[0]), moves[1..], who)
  }

  /** How often it may still try. */
  function Tries(progress: Progress): nat {
    match progress
    case Reading(left) => left
    case Linking(_, left) => left + 1
    case _ => 0
  }

  lemma {:induction false} TriesRunOut(digest: Digest, s: State, moves: seq<Move>, who: nat)
    requires who in s.writers
    ensures who in Run(digest, s, moves).writers
    ensures var progress := Run(digest, s, moves).writers[who].progress;
      && Tried(digest, s, moves, who) + Tries(progress) <= Tries(s.writers[who].progress)
      && (!progress.Recorded? && !progress.Conflicted? ==>
            Tried(digest, s, moves, who) + Tries(progress) == Tries(s.writers[who].progress))
      && (s.writers[who].progress.Recorded? || s.writers[who].progress.Conflicted? ==>
            progress == s.writers[who].progress)
    decreases |moves|
  {
    if moves != [] {
      var t := After(digest, s, moves[0]);
      TriesRunOut(digest, t, moves[1..], who);
    }
  }

  /** Whatever the others do, a writer tries at most five times, and gives up exactly after the fifth. */
  lemma {:induction false} FiveAttempts(digest: Digest, s: State, moves: seq<Move>, who: nat)
    requires who !in s.writers
    ensures Tried(digest, s, moves, who) <= 5
    ensures who in Run(digest, s, moves).writers && Run(digest, s, moves).writers[who].progress.GaveUp? ==>
      Tried(digest, s, moves, who) == 5
    decreases |moves|
  {
    if moves != [] {
      var t := After(digest, s, moves[0]);
      if who in t.writers {
        TriesRunOut(digest, t, moves[1..], who);
      } else {
        FiveAttempts(digest, t, moves[1..], who);
      }
    }
  }

  const EMPTY := State(None, [], [], map[])

  ghost predicate Increasing(events: seq<Event>) {
    forall i, j :: 0 <= i < j < |events| ==> events[i].eventId < events[j].eventId
  }

  /** A head some prefix of the chain once had. */
  ghost predicate OnceHead(events: seq<Event>, seen: Option<Head>) {
    exists n :: 0 <= n <= |events| && seen == HeadAt(events, n)
  }

  /** The writer of extra `i` recorded event `i`, and has no other. */
  ghost predicate ExtrasMatch(s: State) {
    && |s.extras| == |s.events|
    && (forall i :: 0 <= i < |s.extras| ==>
          s.extras[i] in s.writers && s.writers[s.extras[i]].progress == Recorded(s.events[i]))
    && (forall who :: who in s.writers && s.writers[who].progress.Recorded? ==> who in s.extras)
  }

  ghost predicate Sound(digest: Digest, s: State) {
    && Verifies(digest, s.events) && Increasing(s.events) && s.head == HeadAt(s.events, |s.events|) && ExtrasMatch(s)
    && forall who :: who in s.writers && s.writers[who].progress.Linking? ==>
       OnceHead(s.events, s.writers[who].progress.seen)
  }

  lemma SoundAtFirst(digest: Digest)
    ensures Sound(digest, EMPTY)
  {}

  /** With no collisions, no hash occurs twice in a chain. */
  lemma HashesDiffer(digest: Digest, events: seq<Event>, m: nat, n: nat)
    requires Strong(digest) && Verifies(digest, events) && Increasing(events) && m < n < |events|
    ensures events[m].hash != events[n].hash
  {
    assert Holds(digest, events, m) && Holds(digest, events, n);
    assert events[m].eventId < events[n].eventId;
  }

  /** A head that was current once and whose hash is current is the current head. */
  lemma UnmovedIsCurrent(digest: Digest, events: seq<Event>, seen: Option<Head>)
    requires Strong(digest) && Verifies(digest, events) && Increasing(events) && OnceHead(events, seen)
    requires HeadUnmoved(HeadAt(events, |events|), seen)
    ensures seen == HeadAt(events, |events|)
  {
    hide Verifies, Increasing, Strong;
    var n :| 0 <= n <= |events| && seen == HeadAt(events, n);
    if 0 < n < |events| {
      HashesDiffer(digest, events, n - 1, |events| - 1);
    }
  }

  lemma OnceHeadGrows(events: seq<Event>, event: Event, seen: Option<Head>)
    requires OnceHead(events, seen)
    ensures OnceHead(events + [event], seen)
  {
    var n :| 0 <= n <= |events| && seen == HeadAt(events, n);
    assert HeadAt(events + [event], n) == HeadAt(events, n);
  }

  /** A committed event extends the chain. */
  lemma CommitExtends(digest: Digest, events: seq<Event>, draft: Draft, candidate: nat, ts: int)
    requires Verifies(digest, events) && Increasing(events)
    ensures var event := Linked(digest, draft, HeadAt(events, |events|), candidate, ts);
      Verifies(digest, events + [event]) && Increasing(events + [event])
  {
    var event := Linked(digest, draft, HeadAt(events, |events|), candidate, ts);
    var longer := events + [event];
    forall i | 0 <= i < |longer| ensures Holds(digest, longer, i) {
      if i < |events| {
        assert longer[..i] == events[..i];
        assert Holds(digest, events, i);
      } else {
        assert longer[..i] == events;
      }
    }
    forall i, j | 0 <= i < j < |longer| ensures longer[i].eventId < longer[j].eventId {
      if j == |events| && i < |events| - 1 {
        assert events[i].eventId < events[|events| - 1].eventId;
      }
    }
  }

  predicate Extends(digest: Digest, s: State, move: Move) {
    && move.Commit? && move.who in s.writers && s.writers[move.who].progress.Linking? && move.extraHolds
    && HeadUnmoved(s.head, s.writers[move.who].progress.seen)
    && IdUnused(s.events, NextId(s.writers[move.who].progress.seen, move.candidate))
  }

  lemma MoveKeepsSound(digest: Digest, s: State, move: Move)
    requires Strong(digest) && Sound(digest, s)
    ensures Sound(digest, After(digest, s, move))
  {
    if Extends(digest, s, move) {
      ExtensionKeepsSound(digest, s, move);
    } else {
      QuietKeepsSound(digest, s, move);
    }
  }

  lemma QuietKeepsSound(digest: Digest, s: State, move: Move)
    requires Sound(digest, s) && !Extends(digest, s, move)
    ensures Sound(digest, After(digest, s, move))
  {
    hide Verifies, Increasing, OnceHead, HeadUnmoved, IdUnused;
    var next := After(digest, s, move);
    assert next.events == s.events && next.head == s.head && next.extras == s.extras;
    assert HeadAt(s.events, |s.events|) == s.head;
    assert forall i :: 0 <= i < |s.extras| ==>
        s.extras[i] in next.writers && next.writers[s.extras[i]] == s.writers[s.extras[i]];
    forall who | who in next.writers && next.writers[who].progress.Linking?
      ensures OnceHead(s.events, next.writers[who].progress.seen) {
      if who !in s.writers || !s.writers[who].progress.Linking? {
        NewlyLinking(digest, s, move, who);
      }
    }
  }

  /** A writer links to a head it has just read, or to one it assumes from an earlier recording. */
  lemma NewlyLinking(digest: Digest, s: State, move: Move, who: nat)
    requires Sound(digest, s) && !Extends(digest, s, move)
    requires who in After(digest, s, move).writers && After(digest, s, move).writers[who].progress.Linking?
    requires who !in s.writers || !s.writers[who].progress.Linking?
    ensures OnceHead(s.events, After(digest, s, move).writers[who].progress.seen)
  {
    hide Verifies, Increasing, ExtrasMatch, HeadUnmoved, IdUnused;
    assert s.head == HeadAt(s.events, |s.events|);
    assert OnceHead(s.events, s.head);
  }

  lemma ExtensionKeepsSound(digest: Digest, s: State, move: Move)
    requires Strong(digest) && Sound(digest, s) && Extends(digest, s, move)
    ensures Sound(digest, After(digest, s, move))
  {
    var writer := s.writers[move.who];
    UnmovedIsCurrent(digest, s.events, writer.progress.seen);
    CommitExtends(digest, s.events, writer.draft, move.candidate, move.ts);
    hide Verifies, Increasing, OnceHead, Strong;
    var next := After(digest, s, move);
    var event := next.events[|s.events|];
    assert next.events == s.events + [event] && next.extras == s.extras + [move.who];
    assert HeadAt(next.events, |next.events|) == Some(Head(event.hash, event.eventId));
    forall who | who in next.writers && next.writers[who].progress.Linking?
      ensures OnceHead(next.events, next.writers[who].progress.seen) {
      OnceHeadGrows(s.events, event, s.writers[who].progress.seen);
    }
    forall i | 0 <= i < |next.extras|
      ensures next.extras[i] in next.writers && next.writers[next.extras[i]].progress == Recorded(next.events[i])
    {
      if i < |s.extras| {
        assert s.writers[s.extras[i]].progress == Recorded(s.events[i]);
      }
    }
    forall who | who in next.writers && next.writers[who].progress.Recorded? ensures who in next.extras {
      assert who != move.who ==> who in s.extras;
    }
  }

  /**
   Concurrent writers never fork a chain: after any interleaving of writers, retries and crashes the chain
   verifies from genesis, its ids strictly increase, its stored head is its last event's, and the extra
   writes committed are exactly those of the recorded events, one each and in their order.
   */
  lemma {:induction false} ChainNeverForks(digest: Digest, s: State, moves: seq<Move>)
    requires Strong(digest) && Sound(digest, s)
    ensures Sound(digest, Run(digest, s, moves))
    ensures |s.events| <= |Run(digest, s, moves).events| && Run(digest, s, moves).events[..|s.events|] == s.events
    decreases |moves|
  {
    hide Sound, Strong;
    if moves != [] {
      MoveKeepsSound(digest, s, moves[0]);
      ChainNeverForks(digest, After(digest, s, moves[0]), moves[1..]);
      var next := After(digest, s, moves[0]);
      assert next.events[..|s.events|] == s.events;
      assert Run(digest, s, moves).events[..|next.events|] == next.events;
    }
  }

  /**
   The check of a decision record, on whatever events it is shown for a chain that any writers recorded:
   if the events verify and end at the stored head, they are the recorded ones.
   */
  lemma DecisionRecordSeesAll(digest: Digest, moves: seq<Move>, shown: seq<Event>)
    requires Strong(digest) && Verifies(digest, shown) && shown != []
    requires var head := Run(digest, EMPTY, moves).head; head.Some? && head.value.hash == LastHash(shown)
    ensures var recorded := Run(digest, EMPTY, moves).events;
      |recorded| == |shown| && forall i :: 0 <= i < |recorded| ==>
        var a, b := recorded[i], shown[i];
        && a.eventId == b.eventId && a.ts == b.ts && a.prevHash == b.prevHash && a.hash == b.hash
        && a.draft.(payload := Canonical(a.draft.payload)) == b.draft.(payload := Canonical(b.draft.payload))
  {
    SoundAtFirst(digest);
    ChainNeverForks(digest, EMPTY, moves);
    HeadFixesHistory(digest, Run(digest, EMPTY, moves).events, shown);
  }

  // ----- One writer alone -----

  ghost predicate SoundChain(digest: Digest, head: Option<Head>, events: seq<Event>) {
    Verifies(digest, events) && Increasing(events) && head == HeadAt(events, |events|)
  }

  /** Linking to the current head always gives an unused id. */
  lemma CurrentIdUnused(events: seq<Event>, candidate: nat)
    requires Increasing(events)
    ensures IdUnused(events, NextId(HeadAt(events, |events|), candidate))
  {
    forall event | event in events ensures event.eventId < NextId(HeadAt(events, |events|), candidate) {
      var k :| 0 <= k < |events| && events[k] == event;
      assert k < |events| - 1 ==> events[k].eventId < events[|events| - 1].eventId;
    }
  }

  class AuditWriter {
    var head: Option<Head>
    var events: seq<Event>

    constructor ()
      ensures head.None? && events == []
    {
      head, events := None, [];
    }

    /**
     `record` when nobody else writes: the event is appended unless an extra write's condition fails,
     also when the caller assumed a head that has moved on since.
     */
    method Record(digest: Digest, draft: Draft, assumed: Option<Option<Head>>,
                  extraHolds: bool) returns (recorded: Result<Event>)
      requires Strong(digest) && SoundChain(digest, head, events) && (assumed.Some? ==> OnceHead(events, assumed.value))
      modifies this
      ensures SoundChain(digest, head, events)
      ensures recorded.Ok? <==> extraHolds
      ensures recorded.Ok? ==>
                && events == old(events) + [recorded.value] && recorded.value.draft == draft
                && recorded.value.prevHash == LastHash(old(events))
                   && head == Some(Head(recorded.value.hash, recorded.value.eventId))
      ensures recorded.Err? ==> events == old(events) && head == old(head)
    {
      hide Strong, Verifies, Increasing, OnceHead, IdUnused;
      var given := assumed;
      var attempt := 0;
      while attempt < ATTEMPTS
        invariant attempt <= 1 && (attempt == 1 ==> given.None?) && (given.Some? ==> given == assumed)
        invariant events == old(events) && head == old(head)
      {
        var seen := if given.Some? then given.value else head;
        given := None;
        var candidate: nat, ts: int := *, *;
        var event := Linked(digest, draft, seen, candidate, ts);
        if !extraHolds {
          return Err("a caller's condition failed");
        }
        CommitsIfCurrent(digest, events, seen, candidate, attempt == 0 && assumed.Some?);
        if HeadUnmoved(head, seen) && IdUnused(events, event.eventId) {
          CommitExtends(digest, events, draft, candidate, ts);
          head, events := Some(Head(event.hash, event.eventId)), events + [event];
          return Ok(event);
        }
        attempt := attempt + 1;
      }
      recorded := Err("contended");
    }
  }

  lemma CommitsIfCurrent(digest: Digest, events: seq<Event>, seen: Option<Head>, candidate: nat, given: bool)
    requires Strong(digest) && SoundChain(digest, HeadAt(events, |events|), events)
    requires if given then OnceHead(events, seen) else seen == HeadAt(events, |events|)
    ensures HeadUnmoved(HeadAt(events, |events|), seen) ==>
            seen == HeadAt(events, |events|) && IdUnused(events, NextId(seen, candidate))
    ensures !given ==> HeadUnmoved(HeadAt(events, |events|), seen)
  {
    if given && HeadUnmoved(HeadAt(events, |events|), seen) {
      UnmovedIsCurrent(digest, events, seen);
    }
    CurrentIdUnused(events, candidate);
  }
}
