/**
 What one run of the execution saga may leave behind: the vocabulary in which
 services/execution/workflow.py is specified.
 */
module SagaStates {
  import opened Basics
  import opened WriteJournal
  import opened StockLedger
  import opened Executions

  /** What happened, in order: checks passed, undo records stored, SAP writes and reversals sent, writes verified. */
  datatype Event =
    | Authorized
    | RollbackAuthorized
    | SwitchOff
    | SwitchOn
    | Valid
    | SaveUndo(key: Key, undo: Undo)
    | Apply(step: Step)
    | Verified(step: Step)
    | Revert(step: Step, undo: Undo, result: Payload)

  datatype World = World(records: Records, accounts: Accounts, log: seq<Event>)

  /** The checks a run passes before it holds any stock. */
  const ADMITTED := [Authorized, SwitchOff, Valid]

  /** The log grew by checks alone. */
  predicate OnlyChecks(a: seq<Event>, b: seq<Event>) {
    |a| <= |b| && b[..|a|] == a && forall i :: |a| <= i < |b| ==>
      b[i].Authorized? || b[i].SwitchOff? || b[i].SwitchOn? || b[i].Valid?
  }

  /** Nothing but checks happened. */
  predicate Idle(a: World, b: World) {
    b.records == a.records && b.accounts == a.accounts && OnlyChecks(a.log, b.log)
  }

  predicate Same(a: Records, b: Records, key: Key) {
    (key in a <==> key in b) && (key in a ==> a[key] == b[key])
  }

  function Found(records: Records, key: Key): Option<Record> {
    if key in records then Some(records[key]) else None
  }

  function Keys(e: Execution): seq<Key> {
    seq(|e.steps|, i requires 0 <= i < |e.steps| =>
      var key := StepKey(e, e.steps[i]);
      if key.Some? then key.value else Hashed(""))
  }

  predicate Keyed(e: Execution) {
    forall i :: 0 <= i < |e.steps| ==> StepKey(e, e.steps[i]).Some?
  }

  // ----- Stock -----

  function HoldOf(e: Execution, t: Transfer): Hold {
    Hold(e.partId, e.caseId, t.qty, t.available, t.sourceRef)
  }

  predicate HeldFor(e: Execution, accounts: Accounts, t: Transfer) {
    && e.partId in At(accounts, t.place).reservations
    && SameHold(At(accounts, t.place).reservations[e.partId], HoldOf(e, t))
  }

  predicate FreedFor(e: Execution, accounts: Accounts, t: Transfer) {
    e.partId in At(accounts, t.place).reservations ==> At(accounts, t.place).reservations[e.partId].status == Released
  }

  predicate SameReservation(a: Accounts, b: Accounts, place: Place, id: string) {
    && (id in At(a, place).reservations <==> id in At(b, place).reservations)
    && (id in At(a, place).reservations ==> At(a, place).reservations[id] == At(b, place).reservations[id])
  }

  /** Nothing but this part's reservations at these transfers' places differs. */
  ghost predicate OnlyPart(e: Execution, a: Accounts, b: Accounts, transfers: seq<Transfer>) {
    forall place, id :: (id == e.partId && exists t :: t in transfers && t.place == place)
      || SameReservation(a, b, place, id)
  }

  ghost predicate StockHeld(e: Execution, a: Accounts, b: Accounts) {
    (forall t :: t in e.transfers ==> HeldFor(e, b, t)) && OnlyPart(e, a, b, e.transfers)
  }

  /** The holds of some of the transfers are given back; every other reservation is as it was. */
  ghost predicate StockFreed(e: Execution, a: Accounts, b: Accounts, transfers: seq<Transfer>) {
    (forall t :: t in transfers ==> FreedFor(e, b, t)) && OnlyPart(e, a, b, transfers)
  }

  // ----- Saving undos -----

  function WriteOf(e: Execution, step: Step): Request {
    WriteRequest(step.action, step.target, step.sourceRefs, e.versionHash, e.partId)
  }

  predicate SavedStep(e: Execution, step: Step, key: Key, a: Records, b: Records) {
    && key in b && b[key].request == WriteOf(e, step)
    && (if key in a then b[key] == a[key] else b[key].status == Ready)
  }

  /** The first `n` undo records are stored, and nothing else has changed. */
  ghost predicate SavedSteps(e: Execution, keys: seq<Key>, a: Records, b: Records, n: nat)
    requires n <= |keys| == |e.steps|
  {
    && (forall i :: 0 <= i < n ==> SavedStep(e, e.steps[i], keys[i], a, b))
    && (forall key :: key !in keys[..n] ==> Same(a, b, key))
  }

  /** The log grew by one stored undo per key. */
  predicate LoggedSaves(a: seq<Event>, b: seq<Event>, keys: seq<Key>, records: Records, n: nat)
    requires n <= |keys|
  {
    && |b| == |a| + n && b[..|a|] == a
    && forall i :: 0 <= i < n ==> keys[i] in records && b[|a| + i] == SaveUndo(keys[i], records[keys[i]].undo)
  }

  // ----- Writing -----

  datatype Break = BeforeClaim | Unclaimable | RejectedStep | Unresolved | Unverified

  datatype End = Finished | KillSwitched | Broke(at: Break)

  /** The write is recorded as made, with its result; an earlier success keeps its record. */
  predicate WrittenStep(a: Records, b: Records, key: Key, result: Payload) {
    && key in a && key in b
    && b[key] == a[key].(status := Succeeded, result := result)
    && (a[key].status == Ready || b[key] == a[key])
  }

  predicate BrokenStep(a: Records, b: Records, key: Key, at: Break) {
    match at
    case BeforeClaim => Same(a, b, key)
    case Unclaimable => Same(a, b, key) && !Is(a, key, Ready) && !Is(a, key, Succeeded)
    case RejectedStep => Is(a, key, Ready) && key in b && b[key] == a[key].(status := Rejected)
    case Unresolved => Is(a, key, Ready) && key in b && b[key] == a[key].(status := Pending)
    case Unverified => key in b && WrittenStep(a, b, key, b[key].result)
  }

  /** A step is sent once, unless an earlier run already made the write. */
  function Sent(a: Records, step: Step, key: Key): seq<Event> {
    if Is(a, key, Ready) then [Apply(step)] else []
  }

  /** The kill switch was read off before anything was claimed. */
  function BrokenEvents(a: Records, step: Step, key: Key, at: Break): seq<Event> {
    if at.BeforeClaim? then [] else if at.Unclaimable? then [SwitchOff] else [SwitchOff] + Sent(a, step, key)
  }

  function StepEvents(a: Records, step: Step, key: Key): seq<Event> {
    [SwitchOff] + Sent(a, step, key) + [Verified(step)]
  }

  function Writes(e: Execution, keys: seq<Key>, a: Records, n: nat): seq<Event>
    requires n <= |keys| == |e.steps|
  {
    if n == 0 then []
    else Writes(e, keys, a, n - 1) + StepEvents(a, e.steps[n - 1], keys[n - 1])
  }

  /** The first `n` steps are written with these results, step `n` is as the ending left it, the rest is untouched. */
  ghost predicate WrittenUpTo(keys: seq<Key>, a: Records, b: Records, results: seq<Payload>, end: End)
    requires |results| <= |keys|
  {
    var n := |results|;
    && (forall i :: 0 <= i < n ==> WrittenStep(a, b, keys[i], results[i]))
    && (end.Finished? <==> n == |keys|)
    && (n < |keys| ==> BrokenStep(a, b, keys[n], if end.Broke? then end.at else BeforeClaim))
    && (forall key :: key !in keys[..n] && (n < |keys| ==> key != keys[n]) ==> Same(a, b, key))
  }

  function WriteEvents(e: Execution, keys: seq<Key>, a: Records, n: nat, end: End): seq<Event>
    requires n <= |keys| == |e.steps|
  {
    Writes(e, keys, a, n)
    + (if end.KillSwitched? then [SwitchOn]
       else if end.Broke? && n < |keys| then BrokenEvents(a, e.steps[n], keys[n], end.at)
       else [])
  }

  // ----- Compensating -----

  datatype Completion = Completion(step: Step, key: Key, result: Payload)

  predicate Irreversible(undo: Undo) {
    undo.Recipe? && undo.irreversible
  }

  /** An undo is sent unless the action is irreversible or its undo was already made. */
  function RevertOf(a: Records, c: Completion): seq<Event> {
    if c.key !in a || Irreversible(a[c.key].undo) || Is(a, UndoOf(c.key), Succeeded) then []
    else [Revert(c.step, a[c.key].undo, c.result)]
  }

  /** The undos of completed steps `from` onwards, last step first. */
  function Reverts(a: Records, completed: seq<Completion>, from: nat): seq<Event>
    requires from <= |completed|
    decreases |completed| - from
  {
    if from == |completed| then [] else Reverts(a, completed, from + 1) + RevertOf(a, completed[from])
  }

  predicate Settled(a: Records, b: Records, c: Completion) {
    && c.key in a
    && if Irreversible(a[c.key].undo) then Same(a, b, c.key) && Same(a, b, UndoOf(c.key))
       else c.key in b && b[c.key] == a[c.key].(status := Undone) && Is(b, UndoOf(c.key), Succeeded)
  }

  predicate Touched(completed: seq<Completion>, key: Key) {
    exists i :: 0 <= i < |completed| && (key == completed[i].key || key == UndoOf(completed[i].key))
  }

  /** Steps from `from` on are settled and those before it untouched; `sent` says the one before it was attempted. */
  ghost predicate CompensatedFrom(a: Records, b: Records, completed: seq<Completion>, from: nat)
    requires from <= |completed|
  {
    && (forall i :: from <= i < |completed| ==> Settled(a, b, completed[i]))
    && (forall i :: 0 <= i < from ==> Same(a, b, completed[i].key))
    && (forall key :: !Touched(completed, key) ==> Same(a, b, key))
  }

  function RevertEvents(a: Records, completed: seq<Completion>, from: nat, sent: bool): seq<Event>
    requires from <= |completed|
  {
    Reverts(a, completed, from) + (if sent && from > 0 then RevertOf(a, completed[from - 1]) else [])
  }

  ghost predicate CompletedSteps(completed: seq<Completion>, records: Records) {
    && (forall i :: 0 <= i < |completed| ==> completed[i].key.Hashed? && Is(records, completed[i].key, Succeeded))
    && (forall i, j :: 0 <= i < j < |completed| ==> completed[i].key != completed[j].key)
  }

  // ----- How a run ends -----

  datatype Outcome =
    | Refused
    | Replayed(results: seq<Payload>)
    | Stopped
    | Unprepared(saved: nat, held: nat)
    | Unannounced
    | Halted(results: seq<Payload>)
    | Failed(results: seq<Payload>, at: Break, from: nat, sent: bool, compensated: bool)
    | Unconfirmed(results: seq<Payload>)
    | Completed(results: seq<Payload>)

  function RunOf(e: Execution): Request {
    RunRequest(e.versionHash, seq(|e.steps|, i requires 0 <= i < |e.steps| =>
      (e.steps[i].index, e.steps[i].target, e.steps[i].action, e.steps[i].sourceRefs)))
  }

  /** The run's own record claimed; nothing else changed. */
  ghost predicate RunClaimed(e: Execution, a: Records, b: Records) {
    && (ExecKey(e) !in a || Is(a, ExecKey(e), Ready))
    && Is(b, ExecKey(e), Pending) && b[ExecKey(e)].request == RunOf(e)
    && forall key :: key != ExecKey(e) ==> Same(a, b, key)
  }

  /** No step is already in doubt or compensated, and not every step is already made. */
  ghost predicate Fresh(keys: seq<Key>, a: Records) {
    && (forall i :: 0 <= i < |keys| ==> !Is(a, keys[i], Pending) && !Is(a, keys[i], Undone))
    && (exists i :: 0 <= i < |keys| && !Is(a, keys[i], Succeeded))
  }

  /** Claimed, stock held, every undo stored. */
  ghost predicate Readied(e: Execution, before: World, claimed: Records, readied: World) {
    && Keyed(e) && UniquelyIndexed(e.steps) && e.steps != []
    && RunClaimed(e, before.records, claimed) && Fresh(Keys(e), claimed)
    && SavedSteps(e, Keys(e), claimed, readied.records, |e.steps|)
    && LoggedSaves(before.log + ADMITTED, readied.log, Keys(e), readied.records, |e.steps|)
    && StockHeld(e, before.accounts, readied.accounts)
  }

  function Completions(e: Execution, keys: seq<Key>, records: Records, n: nat): seq<Completion>
    requires n <= |keys| == |e.steps|
  {
    seq(n, i requires 0 <= i < n =>
      Completion(e.steps[i], keys[i], if keys[i] in records then records[keys[i]].result else NOTHING))
  }

  /** The steps to compensate: all that succeeded, verified or not. */
  function Count(results: seq<Payload>, at: Break): nat {
    |results| + (if at.Unverified? then 1 else 0)
  }

  /** What a run leaves when it got as far as writing. */
  ghost predicate Wrote(e: Execution, readied: World, written: World, results: seq<Payload>, end: End) {
    && |results| <= |e.steps|
    && WrittenUpTo(Keys(e), readied.records, written.records, results, end)
    && written.log == readied.log + WriteEvents(e, Keys(e), readied.records, |results|, end)
    && written.accounts == readied.accounts
  }

  /** The failing run compensates what it completed, and frees its stock only when nothing is in doubt. */
  ghost predicate Undid(e: Execution, written: World, after: World, outcome: Outcome)
    requires outcome.Failed?
  {
    && Count(outcome.results, outcome.at) <= |e.steps|
    && var completed := Completions(e, Keys(e), written.records, Count(outcome.results, outcome.at));
    && outcome.from <= |completed| && (outcome.compensated ==> outcome.from == 0 && !outcome.sent)
    && CompensatedFrom(written.records, after.records, completed, outcome.from)
    && after.log == written.log + RevertEvents(written.records, completed, outcome.from, outcome.sent)
    && (if outcome.compensated && !outcome.at.Unresolved?
        then StockFreed(e, written.accounts, after.accounts, e.transfers)
        else after.accounts == written.accounts)
    && ((exists i :: 0 <= i < |e.steps| && Is(after.records, Keys(e)[i], Pending)) <==> outcome.at.Unresolved?)
  }

  /** Every step was already made: by this very run, or by others. */
  ghost predicate ReplayedRecords(e: Execution, results: seq<Payload>, a: Records, b: Records) {
    if Is(a, ExecKey(e), Succeeded) then b == a && results == a[ExecKey(e)].result.results
    else
      && Keyed(e) && RunClaimed(e, a, b) && |results| == |e.steps|
      && forall i :: 0 <= i < |e.steps| ==> Is(a, Keys(e)[i], Succeeded) && results[i] == a[Keys(e)[i]].result
  }

  ghost predicate LeavesReplayed(e: Execution, results: seq<Payload>, before: World, after: World) {
    ReplayedRecords(e, results, before.records, after.records) && after.accounts == before.accounts
      && OnlyChecks(before.log, after.log)
  }

  ghost predicate LeavesStopped(e: Execution, before: World, after: World) {
    RunClaimed(e, before.records, after.records) && after.accounts == before.accounts
      && OnlyChecks(before.log, after.log)
  }

  ghost predicate LeavesWritten(e: Execution, results: seq<Payload>, end: End, before: World, written: World) {
    exists claimed, readied :: Readied(e, before, claimed, readied) && Wrote(e, readied, written, results, end)
  }

  ghost predicate LeavesFailed(e: Execution, outcome: Outcome, before: World, after: World)
    requires outcome.Failed?
  {
    exists written :: LeavesWritten(e, outcome.results, Broke(outcome.at), before, written)
      && Undid(e, written, after, outcome)
  }

  ghost predicate LeavesCompleted(e: Execution, results: seq<Payload>, before: World, after: World) {
    exists written :: LeavesWritten(e, results, Finished, before, written) && Concluded(e, results, written, after)
  }

  ghost predicate Concluded(e: Execution, results: seq<Payload>, written: World, after: World) {
    && Is(written.records, ExecKey(e), Pending)
    && after == written.(records := WriteJournal.Completed(written.records, ExecKey(e), Payload("", results)))
  }

  /** The whole contract of a run, outcome by outcome. */
  ghost predicate Leaves(e: Execution, outcome: Outcome, before: World, after: World) {
    match outcome
    case Refused => Idle(before, after)
    case Replayed(results) => LeavesReplayed(e, results, before, after)
    case Stopped => LeavesStopped(e, before, after)
    case Unprepared(saved, held) => exists claimed :: UnpreparedAt(e, before, after, claimed, saved, held)
    case Unannounced => exists claimed :: Readied(e, before, claimed, after)
    case Halted(results) => LeavesWritten(e, results, KillSwitched, before, after)
    case Failed(_, _, _, _, _) => LeavesFailed(e, outcome, before, after)
    case Unconfirmed(results) => LeavesWritten(e, results, Finished, before, after)
    case Completed(results) => LeavesCompleted(e, results, before, after)
  }

  ghost predicate UnpreparedAt(e: Execution, before: World, after: World, claimed: Records, saved: nat, held: nat) {
    && saved <= |e.steps| && held <= |e.transfers| && (saved < |e.steps| || held < |e.transfers|)
    && Keyed(e) && RunClaimed(e, before.records, claimed)
    && SavedSteps(e, Keys(e), claimed, after.records, saved)
    && LoggedSaves(before.log + ADMITTED, after.log, Keys(e), after.records, saved)
    && StockFreed(e, before.accounts, after.accounts, e.transfers[..held])
  }

  // ----- Why a run ends -----

  ghost predicate Malformed(e: Execution) {
    e.steps == [] || !UniquelyIndexed(e.steps) || exists step :: step in e.steps && step.sourceRefs == []
  }

  /** The run's record belongs to another run, or to this one already started and not finished. */
  predicate RunTaken(e: Execution, a: Records) {
    var key := ExecKey(e);
    && key in a
    && (a[key].request != RunOf(e) || a[key].undo != ReverseCompleted
       || (a[key].status != Ready && a[key].status != Succeeded))
  }

  predicate StepInDoubt(e: Execution, a: Records) {
    exists i :: 0 <= i < |e.steps| && (Is(a, Keys(e)[i], Pending) || Is(a, Keys(e)[i], Undone))
  }

  /** With the transfers before it held, the ledger refuses transfer `n`. */
  ghost predicate HoldRefused(e: Execution, a: Accounts, n: nat) {
    n < |e.transfers| && exists holding ::
      && OnlyPart(e, a, holding, e.transfers[..n]) && (forall t :: t in e.transfers[..n] ==> HeldFor(e, holding, t))
      && Reserved(At(holding, e.transfers[n].place), HoldOf(e, e.transfers[n])).Err?
  }

  /** Step `n`'s key was saved before with another write. */
  predicate KeyTaken(e: Execution, a: Records, n: nat) {
    n < |e.steps| && Keys(e)[n] in a && a[Keys(e)[n]].request != WriteOf(e, e.steps[n])
  }

  /** What an outcome means when the boundary answered every question well and never raised. */
  ghost predicate Justified(e: Execution, outcome: Outcome, before: World) {
    match outcome
    case Refused => Malformed(e) || RunTaken(e, before.records)
    case Replayed(_) => true
    case Stopped => !Keyed(e) || StepInDoubt(e, before.records)
    case Unprepared(saved, held) =>
      if held < |e.transfers| then HoldRefused(e, before.accounts, held) else KeyTaken(e, before.records, saved)
    case Failed(_, at, _, _, _) => at.Unclaimable?
    case Completed(_) => true
    case _ => false
  }

  // ----- How a rollback ends -----

  datatype Reversal =
    | Denied
    | AlreadyDone
    | Blocked
    | Unfinished(from: nat, sent: bool)
    | Unrecorded
    | RolledBack

  /** The steps a rollback compensates: those still recorded as made, in plan order. */
  function MadeSteps(e: Execution, records: Records, n: nat): seq<Completion>
    requires n <= |e.steps|
  {
    if n == 0 then []
    else
      var key := Keys(e)[n - 1];
      MadeSteps(e, records, n - 1)
      + (if Is(records, key, Succeeded) then [Completion(e.steps[n - 1], key, records[key].result)] else [])
  }

  function RollbackKey(e: Execution): Key {
    RollbackOf(ExecKey(e))
  }

  /** The finished execution's rollback is claimed; nothing else changed. */
  ghost predicate RollbackClaimed(e: Execution, a: Records, b: Records) {
    && Is(a, ExecKey(e), Succeeded)
    && (RollbackKey(e) !in a || Is(a, RollbackKey(e), Ready))
    && Is(b, RollbackKey(e), Pending)
    && forall key :: key != RollbackKey(e) ==> Same(a, b, key)
  }

  /** Steps from `from` on are undone, in reverse plan order, and nothing else is touched. */
  ghost predicate Reversed(e: Execution, claimed: Records, before: World, after: World, from: nat, sent: bool) {
    && RollbackClaimed(e, before.records, claimed)
    && (forall i :: 0 <= i < |e.steps| ==> !Is(claimed, Keys(e)[i], Pending))
    && var made := MadeSteps(e, claimed, |e.steps|);
    && from <= |made|
    && CompensatedFrom(claimed, after.records, made, from)
    && after.log == before.log + [RollbackAuthorized] + RevertEvents(claimed, made, from, sent)
  }

  ghost predicate LeavesRolledBack(e: Execution, before: World, after: World) {
    exists claimed, undone ::
      && Reversed(e, claimed, before, after.(records := undone), 0, false)
      && StockFreed(e, before.accounts, after.accounts, e.transfers)
      && Is(undone, RollbackKey(e), Pending)
      && after.records == WriteJournal.Completed(undone, RollbackKey(e), NOTHING)
  }

  /** The whole contract of a rollback, outcome by outcome. */
  ghost predicate LeavesReversed(e: Execution, outcome: Reversal, before: World, after: World) {
    match outcome
    case Denied => after == before || after == before.(log := before.log + [RollbackAuthorized])
    case AlreadyDone => after == before.(log := before.log + [RollbackAuthorized])
      && Is(before.records, RollbackKey(e), Succeeded)
    case Blocked => after == World(after.records, before.accounts, before.log + [RollbackAuthorized])
                    && RollbackClaimed(e, before.records, after.records)
    case Unfinished(from, sent) => after.accounts == before.accounts
      && exists claimed :: Reversed(e, claimed, before, after, from, sent)
    case Unrecorded =>
      StockFreed(e, before.accounts, after.accounts, e.transfers)
        && exists claimed :: Reversed(e, claimed, before, after, 0, false)
    case RolledBack => LeavesRolledBack(e, before, after)
  }

  /** The undo of this step was sent before and is in doubt, or its key belongs to another undo. */
  predicate UndoTaken(a: Records, c: Completion) {
    var key := UndoOf(c.key);
    && c.key in a && key in a
    && (a[key].request != UndoRequest(a[c.key].undo, c.result) || a[key].undo != ManualReconciliation
        || (a[key].status != Ready && a[key].status != Succeeded))
  }

  predicate RollbackTaken(e: Execution, a: Records) {
    var key := RollbackKey(e);
    && key in a
    && (a[key].request != RollbackRequest(e.versionHash) || a[key].undo != ManualReconciliation
        || (a[key].status != Ready && a[key].status != Succeeded))
  }

  /** What an outcome of a rollback means when the boundary answered every question well and never raised. */
  ghost predicate JustifiedReversal(e: Execution, outcome: Reversal, before: World) {
    match outcome
    case Denied => !Is(before.records, ExecKey(e), Succeeded) || RollbackTaken(e, before.records)
    case Blocked => !Keyed(e) || exists i :: 0 <= i < |e.steps| && Is(before.records, Keys(e)[i], Pending)
    case Unfinished(_, _) => exists c :: c in MadeSteps(e, before.records, |e.steps|) && UndoTaken(before.records, c)
    case Unrecorded => false
    case _ => true
  }
}
