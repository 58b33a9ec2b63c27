/**
 The execution saga: services/execution/workflow.py. The boundary to SAP and the audit trail
 answers every call as it likes, and may raise; the journal and the ledger are reliable here, and
 nobody else writes to them during the run (the modules JournalRaces and LedgerRaces drop that).
 */
module Workflows {
  import opened Basics
  import opened WriteJournal
  import opened StockLedger
  import opened Executions
  import opened SagaStates

  datatype Answer = Yes | No | Raises

  datatype ApplyAnswer = Applied(result: Payload) | Refuses | ApplyRaises

  /** What the checks before the first write decide. */
  datatype Admission = Deny | Return(results: seq<Payload>) | Halt | Proceed

  /**
   Nothing is known about any answer. The log keeps the calls that matter, and `faults` counts the
   answers a run cannot go on with: refusals, an enabled kill switch, failed checks and exceptions.
   */
  class Boundary {
    ghost var log: seq<Event>
    ghost var faults: nat

    constructor ()
      ensures log == [] && faults == 0
    {
      log, faults := [], 0;
    }

    method Authorize(e: Execution) returns (answer: Answer)
      modifies this
      ensures log == old(log) + (if answer.Yes? then [Authorized] else [])
      ensures faults == old(faults) + (if answer.Yes? then 0 else 1)
    {
      answer := *;
      log := log + (if answer.Yes? then [Authorized] else []);
      faults := faults + (if answer.Yes? then 0 else 1);
    }

    method AuthorizeRollback(e: Execution) returns (answer: Answer)
      modifies this
      ensures log == old(log) + (if answer.Yes? then [RollbackAuthorized] else [])
      ensures faults == old(faults) + (if answer.Yes? then 0 else 1)
    {
      answer := *;
      log := log + (if answer.Yes? then [RollbackAuthorized] else []);
      faults := faults + (if answer.Yes? then 0 else 1);
    }

    method KillSwitch() returns (answer: Answer)
      modifies this
      ensures log == old(log) + SwitchEvents(answer)
      ensures faults == old(faults) + (if answer.No? then 0 else 1)
    {
      answer := *;
      log := log + SwitchEvents(answer);
      faults := faults + (if answer.No? then 0 else 1);
    }

    method Revalidate(e: Execution) returns (answer: Answer)
      modifies this
      ensures log == old(log) + (if answer.Yes? then [Valid] else [])
      ensures faults == old(faults) + (if answer.Yes? then 0 else 1)
    {
      answer := *;
      log := log + (if answer.Yes? then [Valid] else []);
      faults := faults + (if answer.Yes? then 0 else 1);
    }

    method PrepareUndo(step: Step) returns (undo: Option<Undo>)
      modifies this`faults
      ensures faults == old(faults) + (if undo.Some? then 0 else 1)
    {
      undo := *;
      faults := faults + (if undo.Some? then 0 else 1);
    }

    method Apply(step: Step) returns (answer: ApplyAnswer)
      modifies this
      ensures log == old(log) + [Event.Apply(step)]
      ensures faults == old(faults) + (if answer.Applied? then 0 else 1)
    {
      answer := *;
      log := log + [Event.Apply(step)];
      faults := faults + (if answer.Applied? then 0 else 1);
    }

    method Verify(step: Step, result: Payload) returns (answer: Answer)
      modifies this
      ensures log == old(log) + (if answer.Yes? then [Verified(step)] else [])
      ensures faults == old(faults) + (if answer.Yes? then 0 else 1)
    {
      answer := *;
      log := log + (if answer.Yes? then [Verified(step)] else []);
      faults := faults + (if answer.Yes? then 0 else 1);
    }

    method UndoWrite(step: Step, undo: Undo, result: Payload) returns (answer: Option<Payload>)
      modifies this
      ensures log == old(log) + [Revert(step, undo, result)]
      ensures faults == old(faults) + (if answer.Some? then 0 else 1)
    {
      answer := *;
      log := log + [Revert(step, undo, result)];
      faults := faults + (if answer.Some? then 0 else 1);
    }

    method Audit(kind: string) returns (ok: bool)
      modifies this`faults
      ensures faults == old(faults) + (if ok then 0 else 1)
    {
      ok := *;
      faults := faults + (if ok then 0 else 1);
    }
  }

  /** An enabled switch, unlike one that cannot be read, halts a run. */
  function SwitchEvents(answer: Answer): seq<Event> {
    match answer
    case Yes => [SwitchOn]
    case No => [SwitchOff]
    case Raises => []
  }

  class Workflow {
    const journal: Journal
    const ledger: Ledger
    const boundary: Boundary

    constructor (journal: Journal, ledger: Ledger, boundary: Boundary)
      ensures this.journal == journal && this.ledger == ledger && this.boundary == boundary
    {
      this.journal, this.ledger, this.boundary := journal, ledger, boundary;
    }

    ghost function Now(): World
      reads journal, ledger, boundary
    {
      World(journal.records, ledger.accounts, boundary.log)
    }

    // ----- One write -----

    /** Claim, apply, complete and verify one step. */
    method WriteStep(step: Step, key: Key) returns (end: End, result: Payload)
      requires key in journal.records
      modifies boundary, journal
      ensures forall other :: other != key ==> Same(old(journal.records), journal.records, other)
      ensures match end
        case Finished =>
          && WrittenStep(old(journal.records), journal.records, key, result)
          && boundary.log == old(boundary.log) + StepEvents(old(journal.records), step, key)
        case KillSwitched => journal.records == old(journal.records) && boundary.log == old(boundary.log) + [SwitchOn]
        case Broke(at) =>
          && BrokenStep(old(journal.records), journal.records, key, at)
          && (at.Unverified? ==> WrittenStep(old(journal.records), journal.records, key, result))
          && boundary.log == old(boundary.log) + BrokenEvents(old(journal.records), step, key, at)
      ensures boundary.faults >= old(boundary.faults)
      ensures boundary.faults == old(boundary.faults) ==> end.Finished? || end == Broke(Unclaimable)
    {
      var halt := boundary.KillSwitch();
      if halt.Yes? {
        return KillSwitched, NOTHING;
      }
      if halt.Raises? {
        return Broke(BeforeClaim), NOTHING;
      }
      var previous := journal.Claim(key);
      if previous.Stop? {
        return Broke(Unclaimable), NOTHING;
      }
      if previous.Go? {
        var answer := boundary.Apply(step);
        if answer.Refuses? {
          var _ := journal.Reject(key);
          return Broke(RejectedStep), NOTHING;
        }
        if answer.ApplyRaises? {
          return Broke(Unresolved), NOTHING;
        }
        result := answer.result;
        var _ := journal.Complete(key, result);
      } else {
        result := previous.result;
      }
      var passed := boundary.Verify(step, result);
      if !passed.Yes? {
        return Broke(Unverified), result;
      }
      end := Finished;
    }

    /** The writing loop: stops at the first step that does not finish. */
    method WriteAll(e: Execution, keys: seq<Key>) returns (completed: seq<Completion>, results: seq<Payload>, end: End)
      requires |keys| == |e.steps| && Distinct(keys) && forall i :: 0 <= i < |keys| ==> keys[i] in journal.records
      modifies boundary, journal
      ensures |results| <= |keys|
      ensures WrittenUpTo(keys, old(journal.records), journal.records, results, end)
      ensures boundary.log == old(boundary.log) + WriteEvents(e, keys, old(journal.records), |results|, end)
      ensures |results| + (if end == Broke(Unverified) then 1 else 0) <= |keys|
      ensures completed
           == Completions(e, keys, journal.records, |results| + (if end == Broke(Unverified) then 1 else 0))
      ensures boundary.faults >= old(boundary.faults)
      ensures boundary.faults == old(boundary.faults) ==> end.Finished? || end == Broke(Unclaimable)
    {
      hide Same, WrittenStep, BrokenStep, WrittenPrefix, WrittenUpTo, StepEvents, BrokenEvents, Distinct;
      ghost var before := journal.records;
      completed, results := [], [];
      NothingWritten(keys, before);
      var i := 0;
      while i < |keys|
        invariant 0 <= i <= |keys| && |results| == i
        invariant forall k :: i <= k < |keys| ==> keys[k] in journal.records
        invariant WrittenPrefix(keys, before, journal.records, results)
        invariant boundary.log == old(boundary.log) + Writes(e, keys, before, i)
        invariant completed == Completions(e, keys, journal.records, i)
        invariant boundary.faults >= old(boundary.faults)
      {
        ghost var was := journal.records;
        var result;
        end, result := WriteStep(e.steps[i], keys[i]);
        LaterUnchanged(keys, was, journal.records, i);
        StepStays(keys, before, was, journal.records, results, e.steps[i]);
        CompletionsStay(e, keys, was, journal.records, i);
        if !end.Finished? {
          StepEnds(keys, before, was, journal.records, results, end);
          if end == Broke(Unverified) {
            CompletionOf(was, journal.records, keys[i], result);
            completed := completed + [Completion(e.steps[i], keys[i], result)];
          }
          return;
        }
        CompletionOf(was, journal.records, keys[i], result);
        StepFinishes(keys, before, was, journal.records, results, result);
        completed := completed + [Completion(e.steps[i], keys[i], result)];
        results := results + [result];
        i := i + 1;
      }
      end := Finished;
      AllFinish(keys, before, journal.records, results);
    }

    // ----- Compensation -----

    /** Undo one completed step, unless it is irreversible or already undone. */
    method CompensateStep(c: Completion) returns (settled: bool, sent: bool, ok: bool)
      requires c.key.Hashed? && Is(journal.records, c.key, Succeeded)
      modifies boundary, journal
      ensures ok ==> settled
      ensures settled ==> !sent && Settled(old(journal.records), journal.records, c)
      ensures !settled ==> Same(old(journal.records), journal.records, c.key)
      ensures forall key :: key != c.key && key != UndoOf(c.key) ==> Same(old(journal.records), journal.records, key)
      ensures boundary.log == old(boundary.log) + (if settled || sent then RevertOf(old(journal.records), c) else [])
      ensures boundary.faults >= old(boundary.faults)
      ensures boundary.faults == old(boundary.faults) && !ok ==> UndoTaken(old(journal.records), c)
    {
      ghost var before := journal.records;
      sent := false;
      var record := journal.Read(c.key);
      if record.value.status == Undone {
        return true, false, true;
      }
      if record.value.undo.Recipe? && record.value.undo.irreversible {
        ok := boundary.Audit("ACTION_IRREVERSIBLE");
        return true, false, ok;
      }
      var undoKey := UndoOf(c.key);
      var saved := journal.Prepare(undoKey, UndoRequest(record.value.undo, c.result), ManualReconciliation);
      if !saved {
        return false, false, false;
      }
      var prior := journal.Claim(undoKey);
      if prior.Stop? {
        return false, false, false;
      }
      if prior.Go? {
        var answer := boundary.UndoWrite(c.step, record.value.undo, c.result);
        if answer.None? {
          return false, true, false;
        }
        var _ := journal.Complete(undoKey, answer.value);
      }
      var _ := journal.MarkUndone(c.key);
      ok := boundary.Audit("ACTION_COMPENSATED");
      settled := true;
    }

    /** `_compensate`: last completed step first; stops at the first one that cannot be settled. */
    method Compensate(completed: seq<Completion>) returns (from: nat, sent: bool, finished: bool)
      requires CompletedSteps(completed, journal.records)
      modifies boundary, journal
      ensures from <= |completed| && (finished ==> from == 0 && !sent)
      ensures CompensatedFrom(old(journal.records), journal.records, completed, from)
      ensures boundary.log == old(boundary.log) + RevertEvents(old(journal.records), completed, from, sent)
      ensures boundary.faults >= old(boundary.faults)
      ensures boundary.faults == old(boundary.faults) && !finished ==>
                exists c :: c in completed && UndoTaken(old(journal.records), c)
    {
      hide Same, Settled, RevertOf, CompletedSteps, CompensatedFrom, Compensating, Reverts, RevertEvents, UndoTaken;
      ghost var before := journal.records;
      from := |completed|;
      NothingCompensated(before, completed);
      NothingReverted(boundary.log, before, completed);
      while from > 0
        invariant from <= |completed|
        invariant Compensating(before, journal.records, completed, from)
        invariant boundary.log == old(boundary.log) + Reverts(before, completed, from)
        invariant boundary.faults >= old(boundary.faults)
      {
        ghost var was := journal.records;
        StillSucceeded(before, was, completed, from);
        var settled, ok;
        settled, sent, ok := CompensateStep(completed[from - 1]);
        CompensationStays(before, was, journal.records, completed, from, settled);
        RevertsGrow(old(boundary.log), boundary.log, before, completed, from, settled, sent);
        assert completed[from - 1] in completed;
        if settled {
          from := from - 1;
        }
        if !ok {
          var _ := boundary.Audit("COMPENSATION_FAILED");
          return from, sent, false;
        }
      }
      CompensationKnown(before, journal.records, completed, from);
      NothingAttempted(before, completed);
      sent, finished := false, true;
    }

    // ----- Stock -----

    method HoldStock(e: Execution) returns (held: nat)
      requires AllSound(ledger.accounts)
      modifies ledger
      ensures held <= |e.transfers| && AllSound(ledger.accounts)
      ensures forall t :: t in e.transfers[..held] ==> HeldFor(e, ledger.accounts, t)
      ensures OnlyPart(e, old(ledger.accounts), ledger.accounts, e.transfers[..held])
      ensures held < |e.transfers| ==> HoldRefused(e, old(ledger.accounts), held)
    {
      hide AllSound, HeldFor, OnlyPart, At, Reserved, HoldRefused;
      ghost var before := ledger.accounts;
      held := 0;
      NothingMoved(e, before);
      while held < |e.transfers|
        invariant held <= |e.transfers| && AllSound(ledger.accounts)
        invariant forall t :: t in e.transfers[..held] ==> HeldFor(e, ledger.accounts, t)
        invariant OnlyPart(e, before, ledger.accounts, e.transfers[..held])
      {
        var t := e.transfers[held];
        ghost var was := ledger.accounts;
        var ok := ledger.Reserve(t.place, Hold(e.partId, e.caseId, t.qty, t.available, t.sourceRef));
        if !ok {
          RefusedHere(e, before, was, held);
          return;
        }
        HoldOneMore(e, before, was, ledger.accounts, e.transfers[..held], t);
        assert e.transfers[..held + 1] == e.transfers[..held] + [t];
        held := held + 1;
      }
    }

    /** `_release` for each transfer in turn; on sound accounts none of them is refused. */
    method ReleaseStock(e: Execution, transfers: seq<Transfer>)
      requires AllSound(ledger.accounts)
      modifies ledger
      ensures AllSound(ledger.accounts)
      ensures StockFreed(e, old(ledger.accounts), ledger.accounts, transfers)
    {
      hide AllSound, FreedFor, OnlyPart, At, ReleasedFrom;
      ghost var before := ledger.accounts;
      var i := 0;
      NothingMoved(e, before);
      while i < |transfers|
        invariant 0 <= i <= |transfers| && AllSound(ledger.accounts)
        invariant forall t :: t in transfers[..i] ==> FreedFor(e, ledger.accounts, t)
        invariant OnlyPart(e, before, ledger.accounts, transfers[..i])
      {
        ghost var was := ledger.accounts;
        SoundAt(was, transfers[i].place);
        ReleaseKeepsSound(At(was, transfers[i].place), e.partId);
        var _ := ledger.Release(transfers[i].place, e.partId);
        FreeOneMore(e, before, was, ledger.accounts, transfers[..i], transfers[i]);
        assert transfers[..i + 1] == transfers[..i] + [transfers[i]];
        i := i + 1;
      }
      assert transfers[..i] == transfers;
    }

    // ----- Saving the undos -----

    /** Store the undo of every step; the number stored tells whether one was refused. */
    method SaveUndos(e: Execution, keys: seq<Key>, found: seq<Option<Record>>) returns (saved: nat)
      requires |keys| == |found| == |e.steps| && Distinct(keys)
      requires forall i :: 0 <= i < |keys| ==> found[i] == Found(journal.records, keys[i])
      modifies boundary, journal
      ensures saved <= |keys|
      ensures SavedSteps(e, keys, old(journal.records), journal.records, saved)
      ensures LoggedSaves(old(boundary.log), boundary.log, keys, journal.records, saved)
      ensures boundary.faults >= old(boundary.faults)
      ensures boundary.faults == old(boundary.faults) && saved < |keys| ==>
              TakenByAnother(e, keys, old(journal.records), saved)
    {
      hide SavedSteps, LoggedSaves, CanPrepare, Prepared, Distinct, TakenByAnother;
      ghost var before := journal.records;
      saved := 0;
      NothingSaved(e, keys, before, boundary.log);
      while saved < |keys|
        invariant saved <= |keys|
        invariant SavedSteps(e, keys, before, journal.records, saved)
        invariant LoggedSaves(old(boundary.log), boundary.log, keys, journal.records, saved)
        invariant boundary.faults >= old(boundary.faults)
      {
        ghost var was, logged := journal.records, boundary.log;
        var undo;
        if found[saved].Some? {
          undo := found[saved].value.undo;
        } else {
          var answer := boundary.PrepareUndo(e.steps[saved]);
          if answer.None? {
            return;
          }
          undo := answer.value;
        }
        var step := e.steps[saved];
        var request := WriteRequest(step.action, step.target, step.sourceRefs, e.versionHash, e.partId);
        var ok := journal.Prepare(keys[saved], request, undo);
        SaveRefused(was, keys[saved], WriteOf(e, e.steps[saved]), undo);
        NextKeyTaken(e, keys, before, was, saved, undo);
        if !ok {
          return;
        }
        boundary.log := boundary.log + [SaveUndo(keys[saved], undo)];
        SaveOneMore(e, keys, before, was, saved, undo);
        LogOneMore(old(boundary.log), logged, e, keys, was, saved, undo);
        saved := saved + 1;
      }
    }

    // ----- Admission -----

    /** `len({(s.index, s.target) ...}) == len(steps)`. */
    method Unique(steps: seq<Step>) returns (unique: bool)
      ensures unique == UniquelyIndexed(steps)
    {
      var seen: set<(int, string)> := {};
      var i := 0;
      while i < |steps|
        invariant 0 <= i <= |steps| && |seen| <= i
        invariant forall pair :: pair in seen <==> exists k :: 0 <= k < i && pair == (steps[k].index, steps[k].target)
        invariant |seen| == i <==> UniquelyIndexed(steps[..i])
      {
        SeenBefore(steps, seen, i);
        seen := seen + {(steps[i].index, steps[i].target)};
        i := i + 1;
      }
      assert steps[..i] == steps;
      unique := |seen| == |steps|;
    }

    method ReadKeys(e: Execution) returns (keyed: bool, keys: seq<Key>)
      ensures keyed == Keyed(e) && (keyed ==> keys == Keys(e))
    {
      hide StepKey;
      keys := [];
      while |keys| < |e.steps|
        invariant |keys| <= |e.steps|
        invariant forall i :: 0 <= i < |keys| ==> StepKey(e, e.steps[i]) == Some(keys[i])
      {
        var key := StepKey(e, e.steps[|keys|]);
        if key.None? {
          return false, keys;
        }
        keys := keys + [key.value];
      }
      keyed := true;
    }

    method ReadRecords(keys: seq<Key>) returns (found: seq<Option<Record>>)
      ensures |found| == |keys| && forall i :: 0 <= i < |keys| ==> found[i] == Found(journal.records, keys[i])
    {
      found := [];
      while |found| < |keys|
        invariant |found| <= |keys|
        invariant forall i :: 0 <= i < |found| ==> found[i] == Found(journal.records, keys[i])
      {
        var record := journal.Read(keys[|found|]);
        found := found + [record];
      }
    }

    /** Check the steps and claim the run: to proceed, the claim must be new. */
    method ClaimRun(e: Execution) returns (admission: Admission)
      modifies boundary, journal
      ensures admission.Proceed? ==>
              RunClaimed(e, old(journal.records), journal.records) && e.steps != [] && UniquelyIndexed(e.steps)
      ensures !admission.Proceed? ==> journal.records == old(journal.records)
      ensures admission.Return? ==>
                && Is(old(journal.records), ExecKey(e), Succeeded)
                && admission.results == old(journal.records)[ExecKey(e)].result.results
      ensures !admission.Halt?
      ensures OnlyChecks(old(boundary.log), boundary.log)
      ensures admission.Proceed? ==> boundary.log == old(boundary.log) + [SwitchOff]
      ensures boundary.faults >= old(boundary.faults)
      ensures boundary.faults == old(boundary.faults) && admission.Deny? ==>
              Malformed(e) || RunTaken(e, old(journal.records))
    {
      hide UniquelyIndexed;
      var unique := Unique(e.steps);
      if e.steps == [] || !unique || exists i :: 0 <= i < |e.steps| && e.steps[i].sourceRefs == [] {
        return Deny;
      }
      var halt := boundary.KillSwitch();
      if !halt.No? {
        return Deny;
      }
      var key := Exec(e.caseId, e.version, e.partId);
      var request := RunRequest(e.versionHash, seq(|e.steps|, i requires 0 <= i < |e.steps| =>
        (e.steps[i].index, e.steps[i].target, e.steps[i].action, e.steps[i].sourceRefs)));
      assert request == RunOf(e);
      var saved := journal.Prepare(key, request, ReverseCompleted);
      if !saved {
        return Deny;
      }
      var replay := journal.Claim(key);
      if replay.Prior? {
        var ok := boundary.Audit("EXECUTION_REPLAY");
        return if ok then Return(replay.result.results) else Deny;
      }
      return if replay.Go? then Proceed else Deny;
    }

    /** Everything before the first reservation. */
    method Admit(e: Execution) returns (admission: Admission, keys: seq<Key>, found: seq<Option<Record>>)
      modifies boundary, journal
      ensures OnlyChecks(old(boundary.log), boundary.log)
      ensures boundary.faults >= old(boundary.faults)
      ensures boundary.faults == old(boundary.faults) && admission.Deny? ==>
              Malformed(e) || RunTaken(e, old(journal.records))
      ensures boundary.faults == old(boundary.faults) && admission.Halt? ==>
              !Keyed(e) || StepInDoubt(e, old(journal.records))
      ensures match admission
        case Deny => journal.records == old(journal.records)
        case Return(results) => ReplayedRecords(e, results, old(journal.records), journal.records)
        case Halt => RunClaimed(e, old(journal.records), journal.records)
        case Proceed =>
          && e.steps != [] && UniquelyIndexed(e.steps) && Keyed(e) && keys == Keys(e)
          && RunClaimed(e, old(journal.records), journal.records) && Fresh(keys, journal.records)
          && |found| == |keys| && (forall i :: 0 <= i < |keys| ==> found[i] == Found(journal.records, keys[i]))
          && boundary.log == old(boundary.log) + [SwitchOff, Valid]
    {
      hide UniquelyIndexed, StepKey, RunOf, ExecKey, Keyed, AllSucceeded, InDoubt, StepInDoubt, Malformed, RunTaken;
      keys, found := [], [];
      admission := ClaimRun(e);
      if !admission.Proceed? {
        return;
      }
      var keyed;
      keyed, keys := ReadKeys(e);
      if !keyed {
        return Halt, keys, found;
      }
      found := ReadRecords(keys);
      if AllSucceeded(found) {
        var ok := boundary.Audit("EXECUTION_REPLAY");
        if !ok {
          return Halt, keys, found;
        }
        AllMade(e, old(journal.records), journal.records, found);
        return Return(Results(found)), keys, found;
      }
      if InDoubt(found) {
        DoubtBefore(e, old(journal.records), journal.records, found);
        return Halt, keys, found;
      }
      var valid := boundary.Revalidate(e);
      if !valid.Yes? {
        var _ := boundary.Audit("RETURN_TO_PLANNING");
        return Halt, keys, found;
      }
      StillFresh(keys, journal.records, found);
    }

    /** Hold the stock and store every undo, or give the stock back. */
    method Ready(e: Execution, keys: seq<Key>, found: seq<Option<Record>>) returns (ok: bool, saved: nat, held: nat)
      requires |keys| == |found| == |e.steps| && Distinct(keys) && AllSound(ledger.accounts)
      requires forall i :: 0 <= i < |keys| ==> found[i] == Found(journal.records, keys[i])
      modifies boundary, journal, ledger
      ensures saved <= |keys| && held <= |e.transfers| && AllSound(ledger.accounts)
      ensures ok <==> saved == |keys| && held == |e.transfers|
      ensures SavedSteps(e, keys, old(journal.records), journal.records, saved)
      ensures LoggedSaves(old(boundary.log), boundary.log, keys, journal.records, saved)
      ensures if ok then StockHeld(e, old(ledger.accounts), ledger.accounts)
              else StockFreed(e, old(ledger.accounts), ledger.accounts, e.transfers[..held])
      ensures boundary.faults >= old(boundary.faults)
      ensures held < |e.transfers| ==> HoldRefused(e, old(ledger.accounts), held)
      ensures boundary.faults == old(boundary.faults) && held == |e.transfers| && saved < |keys| ==>
                TakenByAnother(e, keys, old(journal.records), saved)
    {
      hide AllSound, HeldFor, FreedFor, OnlyPart, Distinct, SavedSteps, LoggedSaves, HoldRefused, TakenByAnother;
      ghost var before := ledger.accounts;
      NothingSaved(e, keys, journal.records, boundary.log);
      saved := 0;
      held := HoldStock(e);
      if held == |e.transfers| {
        saved := SaveUndos(e, keys, found);
        assert e.transfers[..held] == e.transfers;
        if saved == |keys| {
          return true, saved, held;
        }
      }
      ghost var holding := ledger.accounts;
      ReleaseStock(e, Backwards(e.transfers[..held]));
      BackwardsFrees(e, before, holding, ledger.accounts, e.transfers[..held]);
      ok := false;
    }

    // ----- The run -----

    /** True while some step's effect in SAP is unknown. */
    method Uncertain(keys: seq<Key>) returns (uncertain: bool)
      ensures uncertain <==> exists i :: 0 <= i < |keys| && Is(journal.records, keys[i], Pending)
    {
      var i := 0;
      while i < |keys|
        invariant 0 <= i <= |keys|
        invariant forall k :: 0 <= k < i ==> !Is(journal.records, keys[k], Pending)
      {
        var record := journal.Read(keys[i]);
        if record.Some? && record.value.status == Pending {
          return true;
        }
        i := i + 1;
      }
      uncertain := false;
    }

    /** The failing branch: compensate, then free the stock unless something is in doubt. */
    method Fail(e: Execution, keys: seq<Key>, completed: seq<Completion>, results: seq<Payload>, at: Break,
                ghost readied: World)
      returns (outcome: Outcome)
      requires keys == Keys(e)
      requires Keyed(e) && UniquelyIndexed(e.steps) && NoneInDoubt(Keys(e), readied.records)
      requires Wrote(e, readied, Now(), results, Broke(at)) && Count(results, at) <= |e.steps|
      requires completed == Completions(e, Keys(e), journal.records, Count(results, at))
      requires AllSound(ledger.accounts)
      modifies boundary, journal, ledger
      ensures AllSound(ledger.accounts)
      ensures outcome.Failed? && outcome.results == results && outcome.at == at
      ensures Undid(e, old(Now()), Now(), outcome)
      ensures boundary.faults >= old(boundary.faults)
    {
      hide StepKey, Keyed, UniquelyIndexed, Wrote, AllSound, StockFreed, CompensatedFrom, CompletedSteps, RevertEvents,
           NoneInDoubt, Undid;
      ghost var written := Now();
      CompletionsMade(e, readied, written, results, at);
      var from, sent, finished := Compensate(completed);
      PendingExactly(e, readied, written, journal.records, results, at, from);
      outcome := Failed(results, at, from, sent, finished);
      if finished {
        var uncertain := Uncertain(keys);
        if !uncertain {
          ReleaseStock(e, e.transfers);
        }
        var _ := boundary.Audit(if uncertain then "EXECUTION_UNCERTAIN" else "FAILED_ROLLED_BACK");
      }
      IsUndone(e, written, Now(), outcome, completed);
    }

    /** From the claimed run on: hold, save, write, and finish or fail. */
    method Carry(e: Execution, keys: seq<Key>, found: seq<Option<Record>>,
                 ghost before: World) returns (outcome: Outcome)
      requires e.steps != [] && UniquelyIndexed(e.steps) && Keyed(e) && keys == Keys(e)
      requires RunClaimed(e, before.records, journal.records) && Fresh(keys, journal.records)
      requires |found| == |keys| && forall i :: 0 <= i < |keys| ==> found[i] == Found(journal.records, keys[i])
      requires before.accounts == ledger.accounts && boundary.log == before.log + ADMITTED && AllSound(ledger.accounts)
      modifies boundary, journal, ledger
      ensures AllSound(ledger.accounts)
      ensures Leaves(e, outcome, before, Now())
      ensures boundary.faults >= old(boundary.faults)
      ensures boundary.faults == old(boundary.faults) ==> Justified(e, outcome, before)
    {
      hide HoldRefused, TakenByAnother, KeyTaken, UniquelyIndexed, Keyed, Keys, RunClaimed, Fresh, AllSound, SavedSteps,
           LoggedSaves, StockHeld, StockFreed, Wrote, Undid, Readied, Completions, WrittenUpTo, WriteEvents, Distinct;
      ghost var claimed := journal.records;
      KeysFor(e);
      var ok, saved, held := Ready(e, keys, found);
      if !ok {
        NotReady(e, before, Now(), claimed, saved, held);
        TakenBefore(e, before.records, claimed, saved);
        return Unprepared(saved, held);
      }
      ghost var readied := Now();
      IsReadied(e, before, claimed, readied);
      var announced := boundary.Audit("UNDO_SAVED");
      if !announced {
        return Unannounced;
      }
      SavedKeysKnown(e, before, claimed, readied);
      var completed, results, end := WriteAll(e, keys);
      IsWrote(e, readied, Now(), results, end);
      match end
      case KillSwitched =>
        var _ := boundary.Audit("EXECUTION_HALTED");
        outcome := Halted(results);
      case Broke(at) =>
        ghost var written := Now();
        outcome := Fail(e, keys, completed, results, at, readied);
      case Finished =>
        var told := boundary.Audit("EXECUTION_COMPLETED");
        if !told {
          return Unconfirmed(results);
        }
        ghost var written := Now();
        ClaimStillPending(e, before, claimed, readied, written, results, end);
        var _ := journal.Complete(ExecKey(e), Payload("", results));
        assert Concluded(e, results, written, Now());
        outcome := Completed(results);
    }

    /** `run`: whatever the boundary answers, the outcome says exactly what was left behind. */
    method Run(execution: Execution) returns (outcome: Outcome)
      requires AllSound(ledger.accounts)
      modifies boundary, journal, ledger
      ensures AllSound(ledger.accounts)
      ensures Leaves(execution.(steps := Expanded(execution.steps)), outcome, old(Now()), Now())
      ensures boundary.faults == old(boundary.faults) ==>
                Justified(execution.(steps := Expanded(execution.steps)), outcome, old(Now()))
    {
      hide AllSound, UniquelyIndexed, Keyed, RunClaimed, Fresh, ReplayedRecords, LeavesWritten, LeavesFailed,
           LeavesCompleted, UnpreparedAt, Readied, Expanded, Malformed, RunTaken, StepInDoubt, HoldRefused, KeyTaken;
      var authorized := boundary.Authorize(execution);
      if !authorized.Yes? {
        return Refused;
      }
      var e := Expand(execution);
      var admission, keys, found := Admit(e);
      match admission
      case Deny => outcome := Refused;
      case Return(results) => outcome := Replayed(results);
      case Halt => outcome := Stopped;
      case Proceed =>
        assert boundary.log == old(boundary.log) + ADMITTED;
        outcome := Carry(e, keys, found, old(Now()));
    }

    // ----- Rollback of a finished run -----

    /** The steps still recorded as made; false when one is in doubt. */
    method CollectMade(e: Execution) returns (ok: bool, made: seq<Completion>)
      ensures ok ==> Keyed(e) && made == MadeSteps(e, journal.records, |e.steps|)
      ensures ok ==> forall i :: 0 <= i < |e.steps| ==> !Is(journal.records, Keys(e)[i], Pending)
      ensures !ok ==> !Keyed(e) || exists i :: 0 <= i < |e.steps| && Is(journal.records, Keys(e)[i], Pending)
    {
      hide StepKey;
      made := [];
      var i := 0;
      while i < |e.steps|
        invariant 0 <= i <= |e.steps| && made == MadeSteps(e, journal.records, i)
        invariant forall k :: 0 <= k < i ==> StepKey(e, e.steps[k]).Some? && !Is(journal.records, Keys(e)[k], Pending)
      {
        var key := StepKey(e, e.steps[i]);
        if key.None? {
          return false, made;
        }
        assert Keys(e)[i] == key.value;
        var record := journal.Read(key.value);
        if record.Some? && record.value.status == Pending {
          return false, made;
        }
        if record.Some? && record.value.status == Succeeded {
          made := made + [Completion(e.steps[i], key.value, record.value.result)];
        }
        i := i + 1;
      }
      ok := true;
    }

    /** Read the run's record and claim its rollback. */
    method ClaimRollback(e: Execution) returns (outcome: Reversal)
      modifies journal
      ensures outcome.Denied? || outcome.AlreadyDone? ==> journal.records == old(journal.records)
      ensures outcome.AlreadyDone? ==> Is(old(journal.records), RollbackKey(e), Succeeded)
      ensures outcome.RolledBack? ==> RollbackClaimed(e, old(journal.records), journal.records)
      ensures outcome.Denied? || outcome.AlreadyDone? || outcome.RolledBack?
      ensures outcome.Denied? ==>
              !Is(old(journal.records), ExecKey(e), Succeeded) || RollbackTaken(e, old(journal.records))
    {
      var key := Exec(e.caseId, e.version, e.partId);
      var record := journal.Read(key);
      if record.None? || record.value.status != Succeeded {
        return Denied;
      }
      var saved := journal.Prepare(RollbackOf(key), RollbackRequest(e.versionHash), ManualReconciliation);
      if !saved {
        return Denied;
      }
      var claim := journal.Claim(RollbackOf(key));
      return match claim
        case Go => RolledBack
        case Prior(_) => AlreadyDone
        case Stop => Denied;
    }

    /** `rollback`; the steps are those of the run, which checked that they are uniquely indexed. */
    method Rollback(execution: Execution) returns (outcome: Reversal)
      requires AllSound(ledger.accounts) && UniquelyIndexed(Expanded(execution.steps))
      modifies boundary, journal, ledger
      ensures AllSound(ledger.accounts)
      ensures LeavesReversed(execution.(steps := Expanded(execution.steps)), outcome, old(Now()), Now())
      ensures boundary.faults == old(boundary.faults) ==>
                JustifiedReversal(execution.(steps := Expanded(execution.steps)), outcome, old(Now()))
    {
      hide AllSound, UniquelyIndexed, Keyed, StepKey, StockFreed, CompensatedFrom, RevertEvents, CompletedSteps,
           RollbackClaimed, MadeSteps, Expanded, Reversed, RollbackTaken, UndoTaken;
      var authorized := boundary.AuthorizeRollback(execution);
      if !authorized.Yes? {
        return Denied;
      }
      var e := Expand(execution);
      ghost var before := old(Now());
      outcome := ClaimRollback(e);
      if !outcome.RolledBack? {
        return;
      }
      ghost var claimed := journal.records;
      var ok, made := CollectMade(e);
      StepsUntouched(e, before.records, claimed, |e.steps|);
      if !ok {
        return Blocked;
      }
      MadeStepsSucceeded(e, claimed, |e.steps|);
      var from, sent, finished := Compensate(made);
      ghost var reversed := Now();
      IsReversed(e, claimed, before, reversed, from, sent);
      if !finished {
        return Unfinished(from, sent);
      }
      ReleaseStock(e, e.transfers);
      IsReversed(e, claimed, before, Now(), 0, false);
      var told := boundary.Audit("ROLLED_BACK");
      if !told {
        return Unrecorded;
      }
      ghost var undone := journal.records;
      RollbackStillPending(e, claimed, before, Now());
      var _ := journal.Complete(RollbackKey(e), NOTHING);
      IsRolledBack(e, claimed, undone, before, Now());
    }
  }

  function Backwards<T>(xs: seq<T>): seq<T> {
    seq(|xs|, i requires 0 <= i < |xs| => xs[|xs| - 1 - i])
  }

  predicate AllSucceeded(found: seq<Option<Record>>) {
    forall i :: 0 <= i < |found| ==> found[i].Some? && found[i].value.status == Succeeded
  }

  predicate InDoubt(found: seq<Option<Record>>) {
    exists i :: 0 <= i < |found| && found[i].Some?
      && (found[i].value.status == Pending || found[i].value.status == Undone)
  }

  function Results(found: seq<Option<Record>>): seq<Payload> {
    seq(|found|, i requires 0 <= i < |found| => if found[i].Some? then found[i].value.result else NOTHING)
  }

  // ----- Lemmas for the loops -----

  /** The loop invariant of the writing loop. */
  ghost predicate WrittenPrefix(keys: seq<Key>, a: Records, b: Records, results: seq<Payload>)
    requires |results| <= |keys|
  {
    && (forall i :: 0 <= i < |results| ==> WrittenStep(a, b, keys[i], results[i]))
    && (forall key :: key !in keys[..|results|] ==> Same(a, b, key))
  }

  lemma NothingWritten(keys: seq<Key>, a: Records)
    ensures WrittenPrefix(keys, a, a, [])
  {}

  lemma LaterUnchanged(keys: seq<Key>, a: Records, b: Records, n: nat)
    requires n < |keys| && Distinct(keys) && forall key :: key != keys[n] ==> Same(a, b, key)
    ensures forall k :: n < k < |keys| ==> Same(a, b, keys[k])
    ensures forall k :: n < k < |keys| && keys[k] in a ==> keys[k] in b
  {
    forall k | n < k < |keys| ensures Same(a, b, keys[k]) {
      assert keys[k] != keys[n];
    }
  }

  /** The step at hand leaves what was written before it, and starts from what the loop started from. */
  lemma StepStays(keys: seq<Key>, a: Records, b: Records, c: Records, results: seq<Payload>, step: Step)
    requires |results| < |keys| && Distinct(keys) && WrittenPrefix(keys, a, b, results)
    requires forall other :: other != keys[|results|] ==> Same(b, c, other)
    ensures forall i :: 0 <= i < |results| ==> WrittenStep(a, c, keys[i], results[i])
    ensures forall other :: other !in keys[..|results|] && other != keys[|results|] ==> Same(a, c, other)
    ensures Same(a, b, keys[|results|])
    ensures StepEvents(a, step, keys[|results|]) == StepEvents(b, step, keys[|results|])
    ensures forall at :: BrokenEvents(a, step, keys[|results|], at) == BrokenEvents(b, step, keys[|results|], at)
  {
    var key := keys[|results|];
    assert key !in keys[..|results|];
    assert Same(a, b, key);
    forall i | 0 <= i < |results| ensures WrittenStep(a, c, keys[i], results[i]) {
      assert Same(b, c, keys[i]);
    }
    forall other | other !in keys[..|results|] && other != key ensures Same(a, c, other) {
      assert Same(a, b, other) && Same(b, c, other);
    }
  }

  lemma StepFinishes(keys: seq<Key>, a: Records, b: Records, c: Records, results: seq<Payload>, result: Payload)
    requires |results| < |keys| && Same(a, b, keys[|results|]) && WrittenStep(b, c, keys[|results|], result)
    requires forall i :: 0 <= i < |results| ==> WrittenStep(a, c, keys[i], results[i])
    requires forall other :: other !in keys[..|results|] && other != keys[|results|] ==> Same(a, c, other)
    ensures WrittenPrefix(keys, a, c, results + [result])
  {
    hide Same;
    var longer := results + [result];
    WrittenFrom(a, b, c, keys[|results|], result);
    assert keys[..|longer|] == keys[..|results|] + [keys[|results|]];
    forall i | 0 <= i < |longer| ensures WrittenStep(a, c, keys[i], longer[i]) {
      if i < |results| {
        assert longer[i] == results[i];
      }
    }
  }

  lemma WrittenFrom(a: Records, b: Records, c: Records, key: Key, result: Payload)
    requires Same(a, b, key) && WrittenStep(b, c, key, result)
    ensures WrittenStep(a, c, key, result)
  {}

  lemma StepEnds(keys: seq<Key>, a: Records, b: Records, c: Records, results: seq<Payload>, end: End)
    requires |results| < |keys| && Same(a, b, keys[|results|]) && !end.Finished?
    requires if end.Broke? then BrokenStep(b, c, keys[|results|], end.at) else c == b
    requires forall i :: 0 <= i < |results| ==> WrittenStep(a, c, keys[i], results[i])
    requires forall other :: other !in keys[..|results|] && other != keys[|results|] ==> Same(a, c, other)
    ensures WrittenUpTo(keys, a, c, results, end)
  {
    hide WrittenStep;
    BrokenFrom(a, b, c, keys[|results|], if end.Broke? then end.at else BeforeClaim);
  }

  lemma BrokenFrom(a: Records, b: Records, c: Records, key: Key, at: Break)
    requires Same(a, b, key) && (BrokenStep(b, c, key, at) || (at.BeforeClaim? && b == c))
    ensures BrokenStep(a, c, key, at)
  {}

  lemma AllFinish(keys: seq<Key>, a: Records, b: Records, results: seq<Payload>)
    requires |results| == |keys| && WrittenPrefix(keys, a, b, results)
    ensures WrittenUpTo(keys, a, b, results, Finished)
  {
    hide WrittenStep, Same;
  }

  lemma CompletionOf(a: Records, b: Records, key: Key, result: Payload)
    requires WrittenStep(a, b, key, result)
    ensures key in b && b[key].result == result
  {}

  lemma CompletionsStay(e: Execution, keys: seq<Key>, a: Records, b: Records, n: nat)
    requires |keys| == |e.steps| && n < |keys| && Distinct(keys)
    requires forall key :: key != keys[n] ==> Same(a, b, key)
    ensures Completions(e, keys, a, n) == Completions(e, keys, b, n)
  {
    forall i | 0 <= i < n ensures Completions(e, keys, a, n)[i] == Completions(e, keys, b, n)[i] {
      assert Same(a, b, keys[i]);
    }
  }

  /** The loop invariant of compensation. */
  ghost predicate Compensating(a: Records, b: Records, completed: seq<Completion>, from: nat)
    requires from <= |completed|
  {
    && CompensatedFrom(a, b, completed, from)
    && forall i :: 0 <= i < from ==> Same(a, b, UndoOf(completed[i].key))
  }

  lemma NothingCompensated(a: Records, completed: seq<Completion>)
    ensures Compensating(a, a, completed, |completed|)
  {}

  lemma NothingReverted(log: seq<Event>, a: Records, completed: seq<Completion>)
    ensures log + Reverts(a, completed, |completed|) == log
  {
    assert log + [] == log;
  }

  lemma NothingAttempted(a: Records, completed: seq<Completion>)
    ensures RevertEvents(a, completed, 0, false) == Reverts(a, completed, 0)
  {
    assert Reverts(a, completed, 0) + [] == Reverts(a, completed, 0);
  }

  /** The log after one more step of compensation. */
  lemma RevertsGrow(log: seq<Event>, now: seq<Event>, a: Records, completed: seq<Completion>, from: nat, settled: bool,
                    sent: bool)
    requires 0 < from <= |completed| && (settled ==> !sent)
    requires now == log + Reverts(a, completed, from)
            + (if settled || sent then RevertOf(a, completed[from - 1]) else [])
    ensures settled ==> now == log + Reverts(a, completed, from - 1) == log + RevertEvents(a, completed, from - 1, sent)
    ensures !settled ==> now == log + RevertEvents(a, completed, from, sent)
  {
    hide RevertOf;
    var more := if settled || sent then RevertOf(a, completed[from - 1]) else [];
    assert now == log + (Reverts(a, completed, from) + more);
    if settled {
      assert Reverts(a, completed, from - 1) + [] == Reverts(a, completed, from - 1);
    }
  }

  lemma CompensationKnown(a: Records, b: Records, completed: seq<Completion>, from: nat)
    requires from <= |completed| && Compensating(a, b, completed, from)
    ensures CompensatedFrom(a, b, completed, from)
  {}

  lemma StillSucceeded(a: Records, b: Records, completed: seq<Completion>, from: nat)
    requires 0 < from <= |completed| && CompletedSteps(completed, a) && Compensating(a, b, completed, from)
    ensures completed[from - 1].key.Hashed? && Is(b, completed[from - 1].key, Succeeded)
    ensures RevertOf(a, completed[from - 1]) == RevertOf(b, completed[from - 1])
    ensures UndoTaken(a, completed[from - 1]) == UndoTaken(b, completed[from - 1])
  {
    assert Same(a, b, completed[from - 1].key) && Same(a, b, UndoOf(completed[from - 1].key));
  }

  lemma CompensationStays(a: Records, b: Records, c: Records, completed: seq<Completion>, from: nat, settled: bool)
    requires 0 < from <= |completed| && CompletedSteps(completed, a) && Compensating(a, b, completed, from)
    requires var now := completed[from - 1];
      && (forall key :: key != now.key && key != UndoOf(now.key) ==> Same(b, c, key))
      && (if settled then Settled(b, c, now) else Same(b, c, now.key))
    ensures settled ==> Compensating(a, c, completed, from - 1)
    ensures CompensatedFrom(a, c, completed, if settled then from - 1 else from)
  {
    hide Settled, Same;
    var now := completed[from - 1];
    assert Same(a, b, now.key) && Same(a, b, UndoOf(now.key));
    forall i | from <= i < |completed| ensures Settled(a, c, completed[i]) {
      SettledStays(a, b, c, completed[i]);
    }
    forall i | 0 <= i < from - 1 ensures Same(a, c, completed[i].key) && Same(a, c, UndoOf(completed[i].key)) {
      SameThrough(a, b, c, completed[i].key);
      SameThrough(a, b, c, UndoOf(completed[i].key));
    }
    forall key | !Touched(completed, key) ensures Same(a, c, key) {
      assert key != now.key && key != UndoOf(now.key);
      SameThrough(a, b, c, key);
    }
    if settled {
      SettledFrom(a, b, c, now);
    } else {
      SameThrough(a, b, c, now.key);
    }
  }

  lemma SameThrough(a: Records, b: Records, c: Records, key: Key)
    requires Same(a, b, key) && Same(b, c, key)
    ensures Same(a, c, key)
  {}

  lemma SettledStays(a: Records, b: Records, c: Records, done: Completion)
    requires Settled(a, b, done) && Same(b, c, done.key) && Same(b, c, UndoOf(done.key))
    ensures Settled(a, c, done)
  {}

  lemma SettledFrom(a: Records, b: Records, c: Records, done: Completion)
    requires Same(a, b, done.key) && Same(a, b, UndoOf(done.key)) && Settled(b, c, done)
    ensures Settled(a, c, done)
  {}

  // ----- Lemmas for stock -----

  lemma NothingMoved(e: Execution, a: Accounts)
    ensures OnlyPart(e, a, a, [])
  {}

  lemma SoundAt(a: Accounts, place: Place)
    requires AllSound(a)
    ensures Sound(At(a, place))
  {}

  lemma OnlyPartGrows(e: Execution, a: Accounts, b: Accounts, c: Accounts, transfers: seq<Transfer>, t: Transfer)
    requires OnlyPart(e, a, b, transfers)
    requires forall place, id :: (place == t.place && id == e.partId) || SameReservation(b, c, place, id)
    ensures OnlyPart(e, a, c, transfers + [t])
  {
    hide At, SameReservation;
    forall place, id | !(id == e.partId && exists u :: u in transfers + [t] && u.place == place)
      ensures SameReservation(a, c, place, id)
    {
      assert t in transfers + [t];
      assert forall u :: u in transfers ==> u in transfers + [t];
      ReservationThrough(a, b, c, place, id);
    }
  }

  lemma ReservationThrough(a: Accounts, b: Accounts, c: Accounts, place: Place, id: string)
    requires SameReservation(a, b, place, id) && SameReservation(b, c, place, id)
    ensures SameReservation(a, c, place, id)
  {}

  lemma RefusedHere(e: Execution, a: Accounts, b: Accounts, n: nat)
    requires n < |e.transfers| && OnlyPart(e, a, b, e.transfers[..n])
            && (forall t :: t in e.transfers[..n] ==> HeldFor(e, b, t))
    requires Reserved(At(b, e.transfers[n].place), HoldOf(e, e.transfers[n])).Err?
    ensures HoldRefused(e, a, n)
  {
    hide OnlyPart, HeldFor, At, Reserved;
  }

  lemma HoldOneMore(e: Execution, a: Accounts, b: Accounts, c: Accounts, transfers: seq<Transfer>, t: Transfer)
    requires AllSound(b) && OnlyPart(e, a, b, transfers) && (forall u :: u in transfers ==> HeldFor(e, b, u))
    requires Reserved(At(b, t.place), HoldOf(e, t)).Ok?
    requires At(c, t.place) == Reserved(At(b, t.place), HoldOf(e, t)).value
    requires forall other :: other != t.place ==> At(c, other) == At(b, other)
    ensures AllSound(c) && OnlyPart(e, a, c, transfers + [t])
    ensures forall u :: u in transfers + [t] ==> HeldFor(e, c, u)
  {
    hide At, Sound, OnlyPart;
    SoundAt(b, t.place);
    ReserveKeepsSound(At(b, t.place), HoldOf(e, t));
    hide Reserved;
    forall place ensures Sound(At(c, place)) {
      SoundAt(b, place);
    }
    OnlyPartGrows(e, a, b, c, transfers, t);
  }

  lemma FreeOneMore(e: Execution, a: Accounts, b: Accounts, c: Accounts, transfers: seq<Transfer>, t: Transfer)
    requires AllSound(b) && OnlyPart(e, a, b, transfers) && (forall u :: u in transfers ==> FreedFor(e, b, u))
    requires ReleasedFrom(At(b, t.place), e.partId).Ok?
    requires At(c, t.place) == ReleasedFrom(At(b, t.place), e.partId).value
    requires forall other :: other != t.place ==> At(c, other) == At(b, other)
    ensures AllSound(c) && OnlyPart(e, a, c, transfers + [t])
    ensures forall u :: u in transfers + [t] ==> FreedFor(e, c, u)
  {
    hide At, Sound, OnlyPart;
    SoundAt(b, t.place);
    ReleaseKeepsSound(At(b, t.place), e.partId);
    hide ReleasedFrom;
    forall place ensures Sound(At(c, place)) {
      SoundAt(b, place);
    }
    OnlyPartGrows(e, a, b, c, transfers, t);
  }

  // ----- Lemmas for saving -----

  lemma NothingSaved(e: Execution, keys: seq<Key>, a: Records, log: seq<Event>)
    requires |keys| == |e.steps|
    ensures SavedSteps(e, keys, a, a, 0) && LoggedSaves(log, log, keys, a, 0)
  {}

  lemma SaveRefused(a: Records, key: Key, request: Request, undo: Undo)
    ensures !CanPrepare(a, key, request, undo) ==> Prepared(a, key, request, undo) == a
  {}

  predicate TakenByAnother(e: Execution, keys: seq<Key>, a: Records, n: nat)
    requires |keys| == |e.steps| && n < |keys|
  {
    keys[n] in a && a[keys[n]].request != WriteOf(e, e.steps[n])
  }

  /** The next save can be refused only for a key saved before with another write. */
  lemma NextKeyTaken(e: Execution, keys: seq<Key>, a: Records, b: Records, n: nat, undo: Undo)
    requires |keys| == |e.steps| && n < |keys| && Distinct(keys) && SavedSteps(e, keys, a, b, n)
    requires keys[n] in a ==> undo == a[keys[n]].undo
    ensures !CanPrepare(b, keys[n], WriteOf(e, e.steps[n]), undo) ==> TakenByAnother(e, keys, a, n)
  {
    hide WriteOf, SavedStep;
    assert keys[n] !in keys[..n];
    assert Same(a, b, keys[n]);
  }

  lemma SaveOneMore(e: Execution, keys: seq<Key>, a: Records, b: Records, n: nat, undo: Undo)
    requires |keys| == |e.steps| && n < |keys| && Distinct(keys) && SavedSteps(e, keys, a, b, n)
    requires CanPrepare(b, keys[n], WriteOf(e, e.steps[n]), undo)
    ensures SavedSteps(e, keys, a, Prepared(b, keys[n], WriteOf(e, e.steps[n]), undo), n + 1)
  {
    hide WriteOf;
    var c := Prepared(b, keys[n], WriteOf(e, e.steps[n]), undo);
    assert keys[n] !in keys[..n];
    assert Same(a, b, keys[n]);
    assert keys[..n + 1] == keys[..n] + [keys[n]];
    forall i | 0 <= i < n + 1 ensures SavedStep(e, e.steps[i], keys[i], a, c) {
      if i < n {
        assert SavedStep(e, e.steps[i], keys[i], a, b);
      }
    }
  }

  lemma LogOneMore(log: seq<Event>, logged: seq<Event>, e: Execution, keys: seq<Key>, b: Records, n: nat, undo: Undo)
    requires |keys| == |e.steps| && n < |keys| && LoggedSaves(log, logged, keys, b, n)
    requires CanPrepare(b, keys[n], WriteOf(e, e.steps[n]), undo)
    ensures LoggedSaves(log, logged + [SaveUndo(keys[n], undo)], keys,
            Prepared(b, keys[n], WriteOf(e, e.steps[n]), undo), n + 1)
  {
    hide WriteOf;
  }

  // ----- Lemmas for admission -----

  lemma SeenBefore(steps: seq<Step>, seen: set<(int, string)>, i: nat)
    requires i < |steps|
    requires forall pair :: pair in seen <==> exists k :: 0 <= k < i && pair == (steps[k].index, steps[k].target)
    ensures UniquelyIndexed(steps[..i + 1])
       <==> UniquelyIndexed(steps[..i]) && (steps[i].index, steps[i].target) !in seen
  {
    var all, some := steps[..i + 1], steps[..i];
    if UniquelyIndexed(all) {
      forall j, k | 0 <= j < k < i ensures some[j].index != some[k].index || some[j].target != some[k].target {
        assert all[j] == some[j] && all[k] == some[k];
      }
      forall k | 0 <= k < i ensures (steps[i].index, steps[i].target) != (steps[k].index, steps[k].target) {
        assert all[k] == steps[k] && all[i] == steps[i];
      }
    }
  }

  lemma AllMade(e: Execution, a: Records, b: Records, found: seq<Option<Record>>)
    requires Keyed(e) && RunClaimed(e, a, b) && |found| == |e.steps| && AllSucceeded(found)
    requires forall i :: 0 <= i < |found| ==> found[i] == Found(b, Keys(e)[i])
    ensures ReplayedRecords(e, Results(found), a, b)
  {
    hide StepKey, RunOf;
    forall i | 0 <= i < |e.steps| ensures Is(a, Keys(e)[i], Succeeded) && Results(found)[i] == a[Keys(e)[i]].result {
      StepKeyHashed(e, e.steps[i]);
      assert Same(a, b, Keys(e)[i]);
    }
  }

  lemma DoubtBefore(e: Execution, a: Records, b: Records, found: seq<Option<Record>>)
    requires Keyed(e) && RunClaimed(e, a, b) && |found| == |e.steps| && InDoubt(found)
    requires forall i :: 0 <= i < |found| ==> found[i] == Found(b, Keys(e)[i])
    ensures StepInDoubt(e, a)
  {
    hide StepKey, RunOf;
    var i :| 0 <= i < |found| && found[i].Some?
      && (found[i].value.status == Pending || found[i].value.status == Undone);
    StepKeyHashed(e, e.steps[i]);
    assert Same(a, b, Keys(e)[i]);
    assert Is(a, Keys(e)[i], Pending) || Is(a, Keys(e)[i], Undone);
  }

  lemma StillFresh(keys: seq<Key>, a: Records, found: seq<Option<Record>>)
    requires |found| == |keys| && forall i :: 0 <= i < |keys| ==> found[i] == Found(a, keys[i])
    requires !AllSucceeded(found) && !InDoubt(found)
    ensures Fresh(keys, a)
  {}

  lemma BackwardsFrees(e: Execution, a: Accounts, b: Accounts, c: Accounts, transfers: seq<Transfer>)
    requires OnlyPart(e, a, b, transfers) && StockFreed(e, b, c, Backwards(transfers))
    ensures StockFreed(e, a, c, transfers)
  {
    hide SameReservation, FreedFor;
    forall t ensures t in Backwards(transfers) <==> t in transfers {
      if t in transfers {
        var k :| 0 <= k < |transfers| && transfers[k] == t;
        assert Backwards(transfers)[|transfers| - 1 - k] == t;
      }
    }
    forall place, id | !(id == e.partId && exists t :: t in transfers && t.place == place)
      ensures SameReservation(a, c, place, id)
    {
      ReservationThrough(a, b, c, place, id);
    }
  }

  // ----- Lemmas for the run -----

  ghost predicate NoneInDoubt(keys: seq<Key>, a: Records) {
    forall i :: 0 <= i < |keys| ==> !Is(a, keys[i], Pending)
  }

  lemma KeysFor(e: Execution)
    requires UniquelyIndexed(e.steps) && Keyed(e)
    ensures |Keys(e)| == |e.steps| && Distinct(Keys(e))
    ensures forall i :: 0 <= i < |e.steps| ==> Keys(e)[i].Hashed?
  {
    hide StepKey, UniquelyIndexed;
    KeysDistinct(e, Keys(e));
  }

  lemma NotReady(e: Execution, before: World, after: World, claimed: Records, saved: nat, held: nat)
    requires saved <= |e.steps| && held <= |e.transfers| && (saved < |e.steps| || held < |e.transfers|)
    requires Keyed(e) && RunClaimed(e, before.records, claimed) && |Keys(e)| == |e.steps|
    requires SavedSteps(e, Keys(e), claimed, after.records, saved)
    requires LoggedSaves(before.log + ADMITTED, after.log, Keys(e), after.records, saved)
    requires StockFreed(e, before.accounts, after.accounts, e.transfers[..held])
    ensures Leaves(e, Unprepared(saved, held), before, after)
  {
    hide Keyed, RunClaimed, SavedSteps, LoggedSaves, StockFreed, Keys;
    assert UnpreparedAt(e, before, after, claimed, saved, held);
  }

  lemma TakenBefore(e: Execution, a: Records, claimed: Records, n: nat)
    requires RunClaimed(e, a, claimed) && Keyed(e)
    ensures |Keys(e)| == |e.steps|
    ensures n < |e.steps| && TakenByAnother(e, Keys(e), claimed, n) ==> KeyTaken(e, a, n)
  {
    hide StepKey, RunOf, WriteOf;
    if n < |e.steps| {
      StepKeyHashed(e, e.steps[n]);
      assert Same(a, claimed, Keys(e)[n]);
    }
  }

  lemma IsReadied(e: Execution, before: World, claimed: Records, readied: World)
    requires e.steps != [] && UniquelyIndexed(e.steps) && Keyed(e) && |Keys(e)| == |e.steps|
    requires RunClaimed(e, before.records, claimed) && Fresh(Keys(e), claimed)
    requires SavedSteps(e, Keys(e), claimed, readied.records, |e.steps|)
    requires LoggedSaves(before.log + ADMITTED, readied.log, Keys(e), readied.records, |e.steps|)
    requires StockHeld(e, before.accounts, readied.accounts)
    ensures Readied(e, before, claimed, readied)
  {}

  lemma SavedKeysKnown(e: Execution, before: World, claimed: Records, readied: World)
    requires Readied(e, before, claimed, readied)
    ensures forall i :: 0 <= i < |e.steps| ==> Keys(e)[i] in readied.records
    ensures NoneInDoubt(Keys(e), readied.records)
  {
    hide StepKey, WriteOf, RunClaimed, LoggedSaves, StockHeld;
    var keys := Keys(e);
    forall i | 0 <= i < |keys| ensures keys[i] in readied.records && !Is(readied.records, keys[i], Pending) {
      assert SavedStep(e, e.steps[i], keys[i], claimed, readied.records);
    }
  }

  lemma IsWrote(e: Execution, readied: World, written: World, results: seq<Payload>, end: End)
    requires |Keys(e)| == |e.steps| && |results| <= |e.steps| && written.accounts == readied.accounts
    requires WrittenUpTo(Keys(e), readied.records, written.records, results, end)
    requires written.log == readied.log + WriteEvents(e, Keys(e), readied.records, |results|, end)
    ensures Wrote(e, readied, written, results, end)
  {}

  lemma ClaimStillPending(e: Execution, before: World, claimed: Records, readied: World, written: World,
                          results: seq<Payload>, end: End)
    requires Readied(e, before, claimed, readied) && Wrote(e, readied, written, results, end)
    ensures Is(written.records, ExecKey(e), Pending)
  {
    hide StepKey, SavedStep, WrittenStep, BrokenStep, LoggedSaves, StockHeld;
    assert forall i :: 0 <= i < |e.steps| ==> Keys(e)[i] != ExecKey(e) by {
      KeysFor(e);
    }
    assert Same(claimed, readied.records, ExecKey(e));
    assert Same(readied.records, written.records, ExecKey(e));
  }

  lemma CompletionsMade(e: Execution, readied: World, written: World, results: seq<Payload>, at: Break)
    requires Keyed(e) && UniquelyIndexed(e.steps) && Count(results, at) <= |e.steps|
    requires Wrote(e, readied, written, results, Broke(at))
    ensures CompletedSteps(Completions(e, Keys(e), written.records, Count(results, at)), written.records)
  {
    hide StepKey, Keyed, UniquelyIndexed;
    KeysFor(e);
    var a, b := readied.records, written.records;
    var keys, completed := Keys(e), Completions(e, Keys(e), b, Count(results, at));
    forall i | 0 <= i < |completed| ensures completed[i].key.Hashed? && Is(b, completed[i].key, Succeeded) {
      assert i < |results| ==> WrittenStep(a, b, keys[i], results[i]);
    }
  }

  lemma IsUndone(e: Execution, written: World, after: World, outcome: Outcome, completed: seq<Completion>)
    requires outcome.Failed? && Count(outcome.results, outcome.at) <= |e.steps|
    requires completed == Completions(e, Keys(e), written.records, Count(outcome.results, outcome.at))
    requires outcome.from <= |completed| && (outcome.compensated ==> outcome.from == 0 && !outcome.sent)
    requires CompensatedFrom(written.records, after.records, completed, outcome.from)
    requires after.log == written.log + RevertEvents(written.records, completed, outcome.from, outcome.sent)
    requires if outcome.compensated
            && !outcome.at.Unresolved? then StockFreed(e, written.accounts, after.accounts, e.transfers)
             else after.accounts == written.accounts
    requires (exists i :: 0 <= i < |e.steps| && Is(after.records, Keys(e)[i], Pending)) <==> outcome.at.Unresolved?
    ensures Undid(e, written, after, outcome)
  {}

  /** After compensation a step is in doubt exactly when the run broke on an unresolved write. */
  lemma PendingExactly(e: Execution, readied: World, written: World, c: Records, results: seq<Payload>, at: Break,
                       from: nat)
    requires Keyed(e) && UniquelyIndexed(e.steps) && NoneInDoubt(Keys(e), readied.records)
    requires Wrote(e, readied, written, results, Broke(at)) && from <= Count(results, at) <= |e.steps|
    requires CompensatedFrom(written.records, c, Completions(e, Keys(e), written.records, Count(results, at)), from)
    ensures (exists i :: 0 <= i < |e.steps| && Is(c, Keys(e)[i], Pending)) <==> at.Unresolved?
  {
    hide StepKey, Keyed, UniquelyIndexed;
    KeysFor(e);
    var keys := Keys(e);
    forall i | 0 <= i < |keys| ensures Is(c, keys[i], Pending) <==> i == |results| && at.Unresolved? {
      PendingAt(e, keys, readied.records, written.records, c, results, at, from, i);
    }
    assert |results| < |keys|;
    if at.Unresolved? {
      assert Is(c, keys[|results|], Pending);
    }
  }

  lemma PendingAt(e: Execution, keys: seq<Key>, a: Records, b: Records, c: Records, results: seq<Payload>,
                  at: Break, from: nat, i: nat)
    requires |keys| == |e.steps| && Distinct(keys) && i < |keys|
    requires forall k :: 0 <= k < |keys| ==> keys[k].Hashed? && !Is(a, keys[k], Pending)
    requires |results| < |keys| && WrittenUpTo(keys, a, b, results, Broke(at)) && from <= Count(results, at) <= |keys|
    requires CompensatedFrom(b, c, Completions(e, keys, b, Count(results, at)), from)
    ensures Is(c, keys[i], Pending) <==> i == |results| && at.Unresolved?
  {
    var completed := Completions(e, keys, b, Count(results, at));
    if i < |completed| {
      assert completed[i].key == keys[i];
      assert i < |results| ==> WrittenStep(a, b, keys[i], results[i]);
      assert Is(b, keys[i], Succeeded);
      assert i >= from ==> Settled(b, c, completed[i]);
      assert i < from ==> Same(b, c, completed[i].key);
    } else {
      hide WrittenStep, Settled;
      assert !Touched(completed, keys[i]) by {
        forall k | 0 <= k < |completed| ensures keys[i] != completed[k].key && keys[i] != UndoOf(completed[k].key) {
          assert completed[k].key == keys[k] && keys[k] != keys[i];
        }
      }
      assert Same(b, c, keys[i]);
      if i > |results| {
        assert keys[i] !in keys[..|results|];
        assert Same(a, b, keys[i]);
      }
    }
  }

  // ----- Lemmas for rollback -----

  lemma {:induction false} MadeStepsSucceeded(e: Execution, records: Records, n: nat)
    requires Keyed(e) && UniquelyIndexed(e.steps) && n <= |e.steps|
    ensures CompletedSteps(MadeSteps(e, records, n), records)
    ensures forall c :: c in MadeSteps(e, records, n) ==> c.key in Keys(e)[..n]
  {
    hide StepKey, UniquelyIndexed, Keyed;
    if n > 0 {
      MadeStepsSucceeded(e, records, n - 1);
      KeysFor(e);
      var before := MadeSteps(e, records, n - 1);
      assert Keys(e)[..n] == Keys(e)[..n - 1] + [Keys(e)[n - 1]];
      forall i | 0 <= i < |before| ensures before[i].key != Keys(e)[n - 1] {
        assert before[i] in before;
      }
    }
  }

  /** Claiming a rollback touches no step. */
  lemma {:induction false} StepsUntouched(e: Execution, a: Records, b: Records, n: nat)
    requires RollbackClaimed(e, a, b) && n <= |e.steps|
    ensures Keyed(e) ==> MadeSteps(e, a, n) == MadeSteps(e, b, n)
    ensures Keyed(e) ==> forall i :: 0 <= i < n ==> Same(a, b, Keys(e)[i])
    ensures Keyed(e) ==> forall c :: c in MadeSteps(e, b, n) ==> UndoTaken(a, c) == UndoTaken(b, c)
  {
    hide StepKey, RollbackKey;
    if n > 0 && Keyed(e) {
      StepsUntouched(e, a, b, n - 1);
      StepKeyHashed(e, e.steps[n - 1]);
      assert Same(a, b, Keys(e)[n - 1]) by {
        KeyIsNoRollback(e, Keys(e)[n - 1]);
      }
      UndoUntouched(e, a, b, Keys(e)[n - 1]);
    }
  }

  lemma KeyIsNoRollback(e: Execution, key: Key)
    requires key.Hashed?
    ensures key != RollbackKey(e) && UndoOf(key) != RollbackKey(e)
  {}

  lemma UndoUntouched(e: Execution, a: Records, b: Records, key: Key)
    requires RollbackClaimed(e, a, b) && key.Hashed?
    ensures forall c: Completion :: c.key == key ==> UndoTaken(a, c) == UndoTaken(b, c)
  {
    KeyIsNoRollback(e, key);
    assert Same(a, b, key) && Same(a, b, UndoOf(key));
  }

  lemma IsReversed(e: Execution, claimed: Records, before: World, after: World, from: nat, sent: bool)
    requires RollbackClaimed(e, before.records, claimed)
    requires forall i :: 0 <= i < |e.steps| ==> !Is(claimed, Keys(e)[i], Pending)
    requires var made := MadeSteps(e, claimed, |e.steps|);
      && from <= |made| && CompensatedFrom(claimed, after.records, made, from)
      && after.log == before.log + [RollbackAuthorized] + RevertEvents(claimed, made, from, sent)
    ensures Reversed(e, claimed, before, after, from, sent)
  {}

  lemma RollbackStillPending(e: Execution, claimed: Records, before: World, after: World)
    requires Keyed(e) && UniquelyIndexed(e.steps) && Reversed(e, claimed, before, after, 0, false)
    ensures Is(after.records, RollbackKey(e), Pending)
  {
    hide StepKey, UniquelyIndexed, Keyed;
    MadeStepsSucceeded(e, claimed, |e.steps|);
    assert !Touched(MadeSteps(e, claimed, |e.steps|), RollbackKey(e));
    assert Same(claimed, after.records, RollbackKey(e));
  }

  lemma IsRolledBack(e: Execution, claimed: Records, undone: Records, before: World, after: World)
    requires Reversed(e, claimed, before, after.(records := undone), 0, false)
    requires StockFreed(e, before.accounts, after.accounts, e.transfers)
    requires Is(undone, RollbackKey(e), Pending)
    requires after.records == WriteJournal.Completed(undone, RollbackKey(e), NOTHING)
    ensures LeavesRolledBack(e, before, after)
  {}
}
