/** What follows from the saga's contract: promises of services/execution/workflow.py over whole runs. */
module SagaTheorems {
  import opened Basics
  import opened WriteJournal
  import opened StockLedger
  import opened Executions
  import opened SagaStates

  predicate IsPrefix<T(==)>(a: seq<T>, b: seq<T>) {
    |a| <= |b| && b[..|a|] == a
  }

  /** The run got as far as having stored every undo, and its log goes on from there. */
  ghost predicate WentOn(e: Execution, before: World, readied: World, after: World) {
    && |Keys(e)| == |e.steps|
    && LoggedSaves(before.log + ADMITTED, readied.log, Keys(e), readied.records, |e.steps|)
    && IsPrefix(readied.log, after.log)
  }

  lemma WrittenWentOn(e: Execution, results: seq<Payload>, end: End, before: World,
                      written: World) returns (readied: World)
    requires LeavesWritten(e, results, end, before, written)
    ensures WentOn(e, before, readied, written)
  {
    hide WriteEvents, WrittenUpTo, RunClaimed, Fresh, SavedSteps, StockHeld;
    var claimed, here :| Readied(e, before, claimed, here) && Wrote(e, here, written, results, end);
    readied := here;
  }

  lemma FailedWentOn(e: Execution, outcome: Outcome, before: World, after: World) returns (readied: World)
    requires outcome.Failed? && LeavesFailed(e, outcome, before, after)
    ensures WentOn(e, before, readied, after)
  {
    hide LeavesWritten, CompensatedFrom, RevertEvents, StockFreed;
    var written :| LeavesWritten(e, outcome.results, Broke(outcome.at), before, written)
      && Undid(e, written, after, outcome);
    readied := WrittenWentOn(e, outcome.results, Broke(outcome.at), before, written);
    assert IsPrefix(written.log, after.log);
  }

  lemma CompletedWentOn(e: Execution, results: seq<Payload>, before: World, after: World) returns (readied: World)
    requires LeavesCompleted(e, results, before, after)
    ensures WentOn(e, before, readied, after)
  {
    hide LeavesWritten;
    var written :| LeavesWritten(e, results, Finished, before, written) && Concluded(e, results, written, after);
    readied := WrittenWentOn(e, results, Finished, before, written);
  }

  lemma SavedOnly(a: seq<Event>, b: seq<Event>, keys: seq<Key>, records: Records, n: nat, i: nat)
    requires n <= |keys| && LoggedSaves(a, b, keys, records, n) && |a| <= i < |b|
    ensures b[i].SaveUndo? && b[i].key == keys[i - |a|]
  {
    var k := i - |a|;
    assert b[|a| + k] == SaveUndo(keys[k], records[keys[k]].undo);
  }

  lemma SavedFirst(e: Execution, before: World, readied: World, after: World, i: nat, k: nat)
    requires WentOn(e, before, readied, after) && k < |e.steps|
    requires |before.log| <= i < |after.log| && after.log[i].Apply?
    ensures exists j :: |before.log| <= j < i && after.log[j].SaveUndo? && after.log[j].key == Keys(e)[k]
  {
    hide Keys, LoggedSaves;
    var admitted := before.log + ADMITTED;
    var j := |admitted| + k;
    SavedLength(admitted, readied.log, Keys(e), readied.records, |e.steps|);
    SavedOnly(admitted, readied.log, Keys(e), readied.records, |e.steps|, j);
    assert readied.log[j] == after.log[j];
    if i < |readied.log| {
      NotSentYet(before, admitted, readied, Keys(e), |e.steps|, i);
    }
    assert after.log[j].SaveUndo? && after.log[j].key == Keys(e)[k];
  }

  lemma NotSentYet(before: World, admitted: seq<Event>, readied: World, keys: seq<Key>, n: nat, i: nat)
    requires admitted == before.log + ADMITTED && n <= |keys|
            && LoggedSaves(admitted, readied.log, keys, readied.records, n)
    requires |before.log| <= i < |readied.log|
    ensures !readied.log[i].Apply?
  {
    if i < |admitted| {
      assert readied.log[i] == admitted[i] == ADMITTED[i - |before.log|];
    } else {
      SavedOnly(admitted, readied.log, keys, readied.records, n, i);
    }
  }

  lemma SavedLength(a: seq<Event>, b: seq<Event>, keys: seq<Key>, records: Records, n: nat)
    requires n <= |keys| && LoggedSaves(a, b, keys, records, n)
    ensures |b| == |a| + n && b[..|a|] == a
  {}

  /** No write is sent to SAP before the undo of every step of the run is stored. */
  lemma EveryUndoSavedFirst(e: Execution, outcome: Outcome, before: World, after: World, i: nat, k: nat)
    requires Leaves(e, outcome, before, after) && k < |e.steps|
    requires |before.log| <= i < |after.log| && after.log[i].Apply?
    ensures exists j :: |before.log| <= j < i && after.log[j].SaveUndo? && after.log[j].key == Keys(e)[k]
  {
    hide LeavesReplayed, LeavesStopped, LeavesWritten, LeavesFailed, LeavesCompleted, UnpreparedAt, Readied, WentOn,
         Keys;
    match outcome
    case Halted(results) =>
      var readied := WrittenWentOn(e, results, KillSwitched, before, after);
      SavedFirst(e, before, readied, after, i, k);
    case Unconfirmed(results) =>
      var readied := WrittenWentOn(e, results, Finished, before, after);
      SavedFirst(e, before, readied, after, i, k);
    case Failed(_, _, _, _, _) =>
      var readied := FailedWentOn(e, outcome, before, after);
      SavedFirst(e, before, readied, after, i, k);
    case Completed(results) =>
      var readied := CompletedWentOn(e, results, before, after);
      SavedFirst(e, before, readied, after, i, k);
    case _ => NothingApplied(e, outcome, before, after, i);
  }

  lemma NothingApplied(e: Execution, outcome: Outcome, before: World, after: World, i: nat)
    requires Leaves(e, outcome, before, after) && |before.log| <= i < |after.log|
    requires outcome.Refused? || outcome.Replayed? || outcome.Stopped? || outcome.Unprepared? || outcome.Unannounced?
    ensures !after.log[i].Apply?
  {
    hide RunClaimed, SavedSteps, StockFreed, StockHeld, Fresh, Keyed, StepKey, LoggedSaves;
    match outcome
    case Unprepared(saved, held) =>
      var claimed :| UnpreparedAt(e, before, after, claimed, saved, held);
      NotSentYet(before, before.log + ADMITTED, after, Keys(e), saved, i);
    case Unannounced =>
      var claimed :| Readied(e, before, claimed, after);
      NotSentYet(before, before.log + ADMITTED, after, Keys(e), |e.steps|, i);
    case _ =>
  }

  // ----- The kill switch -----

  /** Every write is sent right after the kill switch was read off. */
  ghost predicate Guarded(log: seq<Event>) {
    forall i :: 0 <= i < |log| && log[i].Apply? ==> i > 0 && log[i - 1].SwitchOff?
  }

  lemma GuardedConcat(a: seq<Event>, b: seq<Event>)
    requires Guarded(a) && Guarded(b)
    ensures Guarded(a + b)
  {
    forall i | 0 <= i < |a + b| && (a + b)[i].Apply? ensures i > 0 && (a + b)[i - 1].SwitchOff? {
      if i >= |a| {
        assert b[i - |a|].Apply?;
      }
    }
  }

  lemma {:induction false} WritesGuarded(e: Execution, keys: seq<Key>, a: Records, n: nat)
    requires n <= |keys| == |e.steps|
    ensures Guarded(Writes(e, keys, a, n))
  {
    if n > 0 {
      WritesGuarded(e, keys, a, n - 1);
      StepGuarded(a, e.steps[n - 1], keys[n - 1]);
      hide Guarded;
      GuardedConcat(Writes(e, keys, a, n - 1), StepEvents(a, e.steps[n - 1], keys[n - 1]));
    }
  }

  lemma StepGuarded(a: Records, step: Step, key: Key)
    ensures Guarded(StepEvents(a, step, key))
    ensures forall at :: Guarded(BrokenEvents(a, step, key, at))
  {}

  lemma {:induction false} RevertsGuarded(a: Records, completed: seq<Completion>, from: nat)
    requires from <= |completed|
    ensures forall i :: 0 <= i < |Reverts(a, completed, from)| ==> Reverts(a, completed, from)[i].Revert?
    decreases |completed| - from
  {
    if from < |completed| {
      RevertsGuarded(a, completed, from + 1);
    }
  }

  lemma WriteEventsGuarded(e: Execution, keys: seq<Key>, a: Records, n: nat, end: End)
    requires n <= |keys| == |e.steps|
    ensures Guarded(WriteEvents(e, keys, a, n, end))
  {
    WritesGuarded(e, keys, a, n);
    var tail := if end.KillSwitched? then [SwitchOn]
                else if end.Broke? && n < |keys| then BrokenEvents(a, e.steps[n], keys[n], end.at) else [];
    if n < |keys| {
      StepGuarded(a, e.steps[n], keys[n]);
    }
    assert Guarded(tail);
    hide Guarded;
    GuardedConcat(Writes(e, keys, a, n), tail);
  }

  /** What a run adds to the log after it stored the undos, whatever way it ends. */
  lemma TailGuarded(e: Execution, outcome: Outcome, before: World, after: World) returns (readied: World)
    requires Leaves(e, outcome, before, after)
    requires outcome.Halted? || outcome.Failed? || outcome.Unconfirmed? || outcome.Completed?
    ensures WentOn(e, before, readied, after) && Guarded(after.log[|readied.log|..])
  {
    hide WentOn, Guarded, WriteEvents, RevertEvents, WrittenUpTo, CompensatedFrom, StockFreed, RunClaimed, Fresh,
         SavedSteps, StockHeld, LoggedSaves, StepKey;
    match outcome
    case Halted(results) => readied := WrittenTail(e, results, KillSwitched, before, after);
    case Unconfirmed(results) => readied := WrittenTail(e, results, Finished, before, after);
    case Completed(results) =>
      var written :| LeavesWritten(e, results, Finished, before, written) && Concluded(e, results, written, after);
      readied := WrittenTail(e, results, Finished, before, written);
      SameLogWentOn(e, before, readied, written, after);
    case Failed(results, at, from, sent, _) =>
      var written :| LeavesWritten(e, results, Broke(at), before, written) && Undid(e, written, after, outcome);
      readied := WrittenTail(e, results, Broke(at), before, written);
      FailedTail(e, outcome, before, readied, written, after);
  }

  lemma SameLogWentOn(e: Execution, before: World, readied: World, written: World, after: World)
    requires WentOn(e, before, readied, written) && after.log == written.log
    ensures WentOn(e, before, readied, after)
  {}

  lemma WrittenTail(e: Execution, results: seq<Payload>, end: End, before: World,
                    written: World) returns (readied: World)
    requires LeavesWritten(e, results, end, before, written)
    ensures WentOn(e, before, readied, written) && Guarded(written.log[|readied.log|..])
  {
    hide Guarded, WriteEvents, WrittenUpTo, RunClaimed, Fresh, SavedSteps, StockHeld, StepKey;
    var claimed, here :| Readied(e, before, claimed, here) && Wrote(e, here, written, results, end);
    readied := here;
    WriteEventsGuarded(e, Keys(e), here.records, |results|, end);
    assert written.log[|here.log|..] == WriteEvents(e, Keys(e), here.records, |results|, end);
  }

  lemma FailedTail(e: Execution, outcome: Outcome, before: World, readied: World, written: World, after: World)
    requires outcome.Failed? && Undid(e, written, after, outcome) && WentOn(e, before, readied, written)
    requires Guarded(written.log[|readied.log|..])
    ensures WentOn(e, before, readied, after) && Guarded(after.log[|readied.log|..])
  {
    hide StepKey, CompensatedFrom, StockFreed, LoggedSaves;
    var completed := Completions(e, Keys(e), written.records, Count(outcome.results, outcome.at));
    var undone := RevertEvents(written.records, completed, outcome.from, outcome.sent);
    RevertsGuarded(written.records, completed, outcome.from);
    assert Guarded(undone);
    GuardedConcat(written.log[|readied.log|..], undone);
    assert after.log[|readied.log|..] == written.log[|readied.log|..] + undone;
  }

  /**
   Whatever the boundary does, a run sends a write only right after it read the kill switch off, and only
   after it was authorised and its plan revalidated.
   */
  lemma WritesFollowChecks(e: Execution, outcome: Outcome, before: World, after: World, i: nat)
    requires Leaves(e, outcome, before, after)
    requires |before.log| <= i < |after.log| && after.log[i].Apply?
    ensures i > |before.log| + 3 && after.log[i - 1].SwitchOff?
    ensures after.log[|before.log|..|before.log| + 3] == ADMITTED
  {
    hide Leaves, Guarded, WentOn;
    if outcome.Halted? || outcome.Failed? || outcome.Unconfirmed? || outcome.Completed? {
      var readied := TailGuarded(e, outcome, before, after);
      GuardedAfter(e, before, readied, after, i);
    } else {
      NothingApplied(e, outcome, before, after, i);
    }
  }

  lemma GuardedAfter(e: Execution, before: World, readied: World, after: World, i: nat)
    requires WentOn(e, before, readied, after) && Guarded(after.log[|readied.log|..])
    requires |before.log| <= i < |after.log| && after.log[i].Apply?
    ensures i > |before.log| + 3 && after.log[i - 1].SwitchOff?
    ensures after.log[|before.log|..|before.log| + 3] == ADMITTED
  {
    hide Keys, LoggedSaves;
    var admitted := before.log + ADMITTED;
    SavedLength(admitted, readied.log, Keys(e), readied.records, |e.steps|);
    assert after.log[..|readied.log|] == readied.log && readied.log[..|admitted|] == admitted;
    assert after.log[..|admitted|] == admitted;
    assert after.log[|before.log|..|before.log| + 3] == admitted[|before.log|..] == ADMITTED;
    if i < |readied.log| {
      assert readied.log[i] == after.log[i];
      NotSentYet(before, admitted, readied, Keys(e), |e.steps|, i);
    } else {
      assert after.log[|readied.log|..][i - |readied.log|] == after.log[i];
    }
  }

  // ----- What has been written -----

  lemma {:induction false} SentInWrites(e: Execution, keys: seq<Key>, a: Records, n: nat, k: nat)
    requires k < n <= |keys| == |e.steps| && Is(a, keys[k], Ready)
    ensures Apply(e.steps[k]) in Writes(e, keys, a, n)
  {
    if k < n - 1 {
      SentInWrites(e, keys, a, n - 1, k);
    } else {
      assert Apply(e.steps[k]) in StepEvents(a, e.steps[k], keys[k]);
    }
  }

  /**
   Each write a run got through is recorded SUCCEEDED with the result reported for it. If an earlier run had made
   it its record is untouched; otherwise it was never tried before, and this run sent it.
   */
  lemma WritesAreRecorded(e: Execution, results: seq<Payload>, end: End, before: World, written: World, k: nat)
    requires LeavesWritten(e, results, end, before, written) && k < |results|
    ensures |results| <= |e.steps| == |Keys(e)| && |before.log| <= |written.log| && Keys(e)[k] in written.records
    ensures var key, step, now := Keys(e)[k], e.steps[k], written.records[Keys(e)[k]];
      && now.status == WriteJournal.Succeeded && now.result == results[k]
      && now.request == WriteRequest(step.action, step.target, step.sourceRefs, e.versionHash, e.partId)
      && if Is(before.records, key, WriteJournal.Succeeded) then now == before.records[key]
         else
           && (key in before.records ==> before.records[key].status == Ready)
           && Apply(step) in written.log[|before.log|..]
  {
    hide StepKey, Writes, LoggedSaves, StockHeld, RunOf, UniquelyIndexed;
    var claimed, readied :| Readied(e, before, claimed, readied) && Wrote(e, readied, written, results, end);
    KeysHashed(e);
    KeysPerStep(e);
    var key, n := Keys(e)[k], |results|;
    hide Keys;
    assert key.Hashed? && Same(before.records, claimed, key);
    assert SavedStep(e, e.steps[k], key, claimed, readied.records);
    assert WrittenStep(readied.records, written.records, key, results[k]);
    SavedPrefix(e, before, readied);
    if Is(readied.records, key, Ready) {
      SentInWrites(e, Keys(e), readied.records, n, k);
      assert Apply(e.steps[k]) in WriteEvents(e, Keys(e), readied.records, n, end);
      InTail(before.log, readied.log, written.log, WriteEvents(e, Keys(e), readied.records, n, end), Apply(e.steps[k]));
    }
  }

  lemma SavedPrefix(e: Execution, before: World, readied: World)
    requires |Keys(e)| == |e.steps|
    requires LoggedSaves(before.log + ADMITTED, readied.log, Keys(e), readied.records, |e.steps|)
    ensures IsPrefix(before.log, readied.log)
  {
    hide Keys;
    assert readied.log[..|before.log|] == readied.log[..|before.log + ADMITTED|][..|before.log|];
  }

  lemma InTail(first: seq<Event>, a: seq<Event>, b: seq<Event>, more: seq<Event>, event: Event)
    requires IsPrefix(first, a) && b == a + more && event in more
    ensures |first| <= |b| && event in b[|first|..]
  {
    assert b[|first|..] == a[|first|..] + more;
  }

  // ----- The run's own record -----

  lemma WrittenClaims(e: Execution, results: seq<Payload>, end: End, before: World, written: World)
    requires LeavesWritten(e, results, end, before, written)
    ensures !Is(before.records, ExecKey(e), Pending) && !Is(before.records, ExecKey(e), Succeeded)
    ensures Is(written.records, ExecKey(e), Pending)
  {
    var claimed, readied :| Readied(e, before, claimed, readied) && Wrote(e, readied, written, results, end);
    PendingThrough(e, before, claimed, readied, written, results, end);
  }

  lemma KeysHashed(e: Execution)
    requires Keyed(e)
    ensures forall i :: 0 <= i < |e.steps| ==> Keys(e)[i].Hashed?
  {
    hide StepKey;
    forall i | 0 <= i < |e.steps| ensures Keys(e)[i].Hashed? {
      StepKeyHashed(e, e.steps[i]);
    }
  }

  lemma PendingThrough(e: Execution, before: World, claimed: Records, readied: World, written: World,
                       results: seq<Payload>, end: End)
    requires Readied(e, before, claimed, readied) && Wrote(e, readied, written, results, end)
    ensures !Is(before.records, ExecKey(e), Pending) && !Is(before.records, ExecKey(e), Succeeded)
    ensures Is(readied.records, ExecKey(e), Pending) && Is(written.records, ExecKey(e), Pending)
  {
    hide StepKey, SavedStep, WrittenStep, BrokenStep, LoggedSaves, StockHeld, RunOf, UniquelyIndexed;
    KeysHashed(e);
    assert Same(claimed, readied.records, ExecKey(e));
    assert Same(readied.records, written.records, ExecKey(e));
  }

  lemma ReadiedClaims(e: Execution, before: World, claimed: Records, readied: World)
    requires Readied(e, before, claimed, readied)
    ensures !Is(before.records, ExecKey(e), Pending) && !Is(before.records, ExecKey(e), Succeeded)
    ensures Is(readied.records, ExecKey(e), Pending)
  {
    hide StepKey, SavedStep, LoggedSaves, StockHeld, RunOf, UniquelyIndexed;
    KeysHashed(e);
    assert Same(claimed, readied.records, ExecKey(e));
  }

  lemma UnpreparedClaims(e: Execution, before: World, after: World, claimed: Records, saved: nat, held: nat)
    requires UnpreparedAt(e, before, after, claimed, saved, held)
    ensures !Is(before.records, ExecKey(e), Pending) && !Is(before.records, ExecKey(e), Succeeded)
    ensures Is(after.records, ExecKey(e), Pending)
  {
    hide StepKey, SavedStep, LoggedSaves, StockFreed, RunOf;
    KeysHashed(e);
    assert Same(claimed, after.records, ExecKey(e));
  }

  lemma FailedClaims(e: Execution, outcome: Outcome, before: World, after: World)
    requires outcome.Failed? && LeavesFailed(e, outcome, before, after)
    ensures !Is(before.records, ExecKey(e), Pending) && !Is(before.records, ExecKey(e), Succeeded)
    ensures Is(after.records, ExecKey(e), Pending)
  {
    hide LeavesWritten, StockFreed, RevertEvents, StepKey, Settled;
    var written :| LeavesWritten(e, outcome.results, Broke(outcome.at), before, written)
      && Undid(e, written, after, outcome);
    WrittenClaims(e, outcome.results, Broke(outcome.at), before, written);
    KeyedWhenWritten(e, outcome.results, Broke(outcome.at), before, written);
    KeysHashed(e);
    var completed := Completions(e, Keys(e), written.records, Count(outcome.results, outcome.at));
    assert !Touched(completed, ExecKey(e));
    assert Same(written.records, after.records, ExecKey(e));
  }

  lemma KeyedWhenWritten(e: Execution, results: seq<Payload>, end: End, before: World, written: World)
    requires LeavesWritten(e, results, end, before, written)
    ensures Keyed(e) && UniquelyIndexed(e.steps)
  {
    hide Wrote, RunClaimed, Fresh, SavedSteps, LoggedSaves, StockHeld, StepKey;
    var claimed, readied :| Readied(e, before, claimed, readied) && Wrote(e, readied, written, results, end);
  }

  /** After any outcome that claimed the run, its record is PENDING, or SUCCEEDED exactly when it completed. */
  lemma RunRecordAfter(e: Execution, outcome: Outcome, before: World, after: World)
    requires Leaves(e, outcome, before, after)
    requires !outcome.Refused? && !Is(before.records, ExecKey(e), Succeeded)
    ensures !Is(before.records, ExecKey(e), Pending)
    ensures if outcome.Completed? then Is(after.records, ExecKey(e), Succeeded)
                                       && after.records[ExecKey(e)].result.results == outcome.results
            else Is(after.records, ExecKey(e), Pending)
  {
    hide LeavesWritten, LeavesFailed, UnpreparedAt, Readied, Keyed, ExecKey, Keys, RunOf;
    match outcome
    case Replayed(_) =>
    case Stopped =>
    case Unprepared(saved, held) =>
      var claimed :| UnpreparedAt(e, before, after, claimed, saved, held);
      UnpreparedClaims(e, before, after, claimed, saved, held);
    case Unannounced =>
      var claimed :| Readied(e, before, claimed, after);
      ReadiedClaims(e, before, claimed, after);
    case Halted(results) => WrittenClaims(e, results, KillSwitched, before, after);
    case Unconfirmed(results) => WrittenClaims(e, results, Finished, before, after);
    case Failed(_, _, _, _, _) => FailedClaims(e, outcome, before, after);
    case Completed(results) =>
      var written :| LeavesWritten(e, results, Finished, before, written) && Concluded(e, results, written, after);
      WrittenClaims(e, results, Finished, before, written);
  }

  /**
   A run that was claimed and did not complete can never be run again: its record stays PENDING, every
   later run is refused, and nothing happens but checks. (A failed run is compensated, its record is not.)
   */
  lemma StrandedForEver(e: Execution, first: Outcome, before: World, between: World, second: Outcome, after: World)
    requires Leaves(e, first, before, between) && Leaves(e, second, between, after)
    requires !first.Refused? && !first.Completed? && !Is(before.records, ExecKey(e), Succeeded)
    ensures second.Refused? && Idle(between, after)
  {
    hide Leaves, ExecKey;
    RunRecordAfter(e, first, before, between);
    if !second.Refused? {
      RunRecordAfter(e, second, between, after);
    }
    RefusedChangesNothing(e, second, between, after);
  }

  lemma RefusedChangesNothing(e: Execution, outcome: Outcome, before: World, after: World)
    requires Leaves(e, outcome, before, after)
    ensures outcome.Refused? ==> Idle(before, after)
  {}

  /** Once a run completed, every later run sends no write, holds no stock, and returns the same results. */
  lemma CompletedReplays(e: Execution, results: seq<Payload>, before: World, between: World, second: Outcome,
                         after: World)
    requires Leaves(e, Completed(results), before, between) && Leaves(e, second, between, after)
    requires !Is(before.records, ExecKey(e), Succeeded)
    ensures Idle(between, after) && (second.Refused? || second == Replayed(results))
  {
    RunRecordAfter(e, Completed(results), before, between);
    SucceededReplays(e, second, between, after);
  }

  lemma SucceededReplays(e: Execution, outcome: Outcome, before: World, after: World)
    requires Leaves(e, outcome, before, after) && Is(before.records, ExecKey(e), Succeeded)
    ensures Idle(before, after)
    ensures outcome.Refused? || outcome == Replayed(before.records[ExecKey(e)].result.results)
  {
    hide LeavesWritten, LeavesFailed, UnpreparedAt, Readied, Keyed, ExecKey, Keys, RunOf;
    match outcome
    case Refused =>
    case Replayed(_) =>
    case Stopped =>
    case Unprepared(saved, held) =>
      var claimed :| UnpreparedAt(e, before, after, claimed, saved, held);
      UnpreparedClaims(e, before, after, claimed, saved, held);
    case Unannounced =>
      var claimed :| Readied(e, before, claimed, after);
      ReadiedClaims(e, before, claimed, after);
    case Halted(results) => WrittenClaims(e, results, KillSwitched, before, after);
    case Unconfirmed(results) => WrittenClaims(e, results, Finished, before, after);
    case Failed(_, _, _, _, _) => FailedClaims(e, outcome, before, after);
    case Completed(results) =>
      var written :| LeavesWritten(e, results, Finished, before, written) && Concluded(e, results, written, after);
      WrittenClaims(e, results, Finished, before, written);
  }

  // ----- What a failed run leaves in the journal -----

  /** Nothing stands in the way of undoing this step. */
  predicate Revertible(a: Records, c: Completion) {
    c.key in a && !Irreversible(a[c.key].undo) && !Is(a, UndoOf(c.key), Succeeded)
  }

  /** Python's `reversed`. */
  function Backwards<T>(xs: seq<T>): seq<T> {
    if xs == [] then [] else Backwards(xs[1..]) + [xs[0]]
  }

  /** The steps an undo may be sent for, in the given order. */
  function Revertibles(a: Records, completed: seq<Completion>): (kept: seq<Completion>)
    ensures forall c :: c in kept ==> c in completed && c.key in a && Revertible(a, c)
  {
    FilterMembers((c: Completion) => Revertible(a, c), completed);
    Filter((c: Completion) => Revertible(a, c), completed)
  }

  /** One undo for each step, in the given order. */
  function RevertOfEach(a: Records, completed: seq<Completion>): seq<Event>
    requires forall c :: c in completed ==> c.key in a
  {
    seq(|completed|, i requires 0 <= i < |completed| =>
      assert completed[i] in completed;
      Revert(completed[i].step, a[completed[i].key].undo, completed[i].result))
  }

  lemma OneRevert(a: Records, before: seq<Completion>, c: Completion)
    requires forall b :: b in before ==> b.key in a
    ensures Revertible(a, c) ==> RevertOfEach(a, before + [c]) == RevertOfEach(a, before) + RevertOf(a, c)
    ensures !Revertible(a, c) ==> RevertOf(a, c) == []
  {}

  lemma {:induction false} RevertsAreReverse(a: Records, completed: seq<Completion>, from: nat)
    requires from <= |completed|
    ensures Reverts(a, completed, from) == RevertOfEach(a, Revertibles(a, Backwards(completed[from..])))
    decreases |completed| - from
  {
    hide RevertOf, Revertible, RevertOfEach;
    if from < |completed| {
      var c, later := completed[from], Backwards(completed[from + 1..]);
      RevertsAreReverse(a, completed, from + 1);
      assert completed[from..][0] == c && completed[from..][1..] == completed[from + 1..];
      FilterAppend((c: Completion) => Revertible(a, c), later, [c]);
      FilterOne(a, c);
      OneRevert(a, Revertibles(a, later), c);
      assert Revertibles(a, later) + [] == Revertibles(a, later);
    } else {
      NoReverts(a);
    }
  }

  lemma NoReverts(a: Records)
    ensures RevertOfEach(a, Revertibles(a, Backwards([]))) == []
  {}

  lemma FilterOne(a: Records, c: Completion)
    ensures Filter((c: Completion) => Revertible(a, c), [c]) == if Revertible(a, c) then [c] else []
  {
    assert Filter((c: Completion) => Revertible(a, c), []) == [];
  }

  /** The undo that was sent last and not confirmed follows the others. */
  lemma SentRevertsToo(a: Records, completed: seq<Completion>, from: nat, sent: bool)
    requires from <= |completed|
    ensures RevertEvents(a, completed, from, sent) == Reverts(a, completed, if sent && from > 0 then from - 1 else from)
  {
    assert Reverts(a, completed, from) + [] == Reverts(a, completed, from);
  }

  /** The step compensation came to: the one whose undo was sent last, if that was not confirmed. */
  function Reached(outcome: Outcome): nat
    requires outcome.Failed?
  {
    if outcome.sent && outcome.from > 0 then outcome.from - 1 else outcome.from
  }

  /**
   After its writes a failed run sends nothing but undos: those of its completed steps, last step first,
   leaving out the irreversible ones and those undone before. When compensation finishes it is all of them.
   */
  lemma FailureUndoesInReverse(e: Execution, outcome: Outcome, before: World, after: World)
    returns (written: World, completed: seq<Completion>)
    requires outcome.Failed? && Leaves(e, outcome, before, after)
    ensures LeavesWritten(e, outcome.results, Broke(outcome.at), before, written)
    ensures Count(outcome.results, outcome.at) <= |e.steps| == |Keys(e)|
    ensures completed == Completions(e, Keys(e), written.records, Count(outcome.results, outcome.at))
    ensures Reached(outcome) <= |completed| && (outcome.compensated ==> Reached(outcome) == 0)
    ensures var undone := Revertibles(written.records, Backwards(completed[Reached(outcome)..]));
      after.log == written.log + RevertOfEach(written.records, undone)
  {
    hide LeavesWritten, Keys, CompensatedFrom, StockFreed, Reverts, Revertibles, RevertOfEach, Completions;
    KeysPerStep(e);
    var there :| LeavesWritten(e, outcome.results, Broke(outcome.at), before, there) && Undid(e, there, after, outcome);
    written, completed := there, Completions(e, Keys(e), there.records, Count(outcome.results, outcome.at));
    SentRevertsToo(there.records, completed, outcome.from, outcome.sent);
    RevertsAreReverse(there.records, completed, Reached(outcome));
  }

  lemma KeysPerStep(e: Execution)
    ensures |Keys(e)| == |e.steps|
  {}

  /** A rollback that finishes undoes every write still recorded as made, last step first, in the same way. */
  lemma RollbackUndoesInReverse(e: Execution, before: World, after: World) returns (claimed: Records)
    requires LeavesRolledBack(e, before, after)
    ensures RollbackClaimed(e, before.records, claimed)
    ensures var undone := Revertibles(claimed, Backwards(MadeSteps(e, claimed, |e.steps|)));
      after.log == before.log + [RollbackAuthorized] + RevertOfEach(claimed, undone)
  {
    hide RollbackClaimed, Keys, CompensatedFrom, StockFreed, Reverts, Revertibles, RevertOfEach;
    var there, undone :|
      && Reversed(e, there, before, after.(records := undone), 0, false)
      && StockFreed(e, before.accounts, after.accounts, e.transfers)
      && Is(undone, RollbackKey(e), Pending)
      && after.records == WriteJournal.Completed(undone, RollbackKey(e), NOTHING);
    claimed := there;
    var made := MadeSteps(e, claimed, |e.steps|);
    SentRevertsToo(claimed, made, 0, false);
    RevertsAreReverse(claimed, made, 0);
    assert made[0..] == made;
  }

  /**
   A compensated failure leaves a completed write standing exactly when its undo record says it is
   irreversible; every other completed write ends UNDONE.
   */
  lemma IrreversibleStands(e: Execution, written: World, after: World, outcome: Outcome, k: nat)
    requires outcome.Failed? && outcome.compensated && Undid(e, written, after, outcome)
    requires |Keys(e)| == |e.steps| && k < Count(outcome.results, outcome.at)
            && Is(written.records, Keys(e)[k], Succeeded)
    ensures var undo := written.records[Keys(e)[k]].undo;
      && (Is(after.records, Keys(e)[k], Succeeded) <==> undo.Recipe? && undo.irreversible)
      && (Is(after.records, Keys(e)[k], Undone) <==> !(undo.Recipe? && undo.irreversible))
  {
    hide StepKey, StockFreed, RevertEvents;
    var completed := Completions(e, Keys(e), written.records, Count(outcome.results, outcome.at));
    assert completed[k].key == Keys(e)[k];
    assert Settled(written.records, after.records, completed[k]);
  }

  // ----- Compensation, from the journal's own records -----

  /** The undos sent for the completed steps, in the fields of their records. */
  lemma {:induction false} RevertsAre(a: Records, completed: seq<Completion>, from: nat)
    requires from <= |completed|
    requires forall i :: 0 <= i < |completed| ==> completed[i].key in a
    ensures forall i :: from <= i < |completed| ==>
      var c, undo := completed[i], a[completed[i].key].undo;
      (undo.Recipe? && undo.irreversible) || Is(a, UndoOf(c.key), Succeeded)
        || Revert(c.step, undo, c.result) in Reverts(a, completed, from)
    ensures forall event :: event in Reverts(a, completed, from) ==>
      exists i :: from <= i < |completed|
        && var c, undo := completed[i], a[completed[i].key].undo;
           && !(undo.Recipe? && undo.irreversible) && !Is(a, UndoOf(c.key), Succeeded)
           && event == Revert(c.step, undo, c.result)
    decreases |completed| - from
  {
    if from < |completed| {
      RevertsAre(a, completed, from + 1);
    }
  }

  /** What compensation leaves of one completed step. */
  lemma SettledRecord(a: Records, b: Records, c: Completion)
    requires Settled(a, b, c)
    ensures c.key in a && c.key in b
    ensures var undo := a[c.key].undo;
      if undo.Recipe? && undo.irreversible then b[c.key] == a[c.key]
      else b[c.key] == a[c.key].(status := Undone) && Is(b, UndoOf(c.key), Succeeded)
  {}

  /**
   When compensation of a failed run finishes, every write it completed whose undo is not marked
   irreversible ends UNDONE, and that undo was sent with the write's own result unless it had been made
   before. Only writes marked irreversible stand, and no undo is sent for those.
   */
  lemma FailureUndoesReversible(e: Execution, outcome: Outcome, before: World, after: World)
    returns (written: World, sent: seq<Event>)
    requires outcome.Failed? && outcome.compensated && Leaves(e, outcome, before, after)
    ensures LeavesWritten(e, outcome.results, Broke(outcome.at), before, written)
    ensures |Keys(e)| == |e.steps| && after.log == written.log + sent
    ensures forall k: nat :: k < |outcome.results| || (k == |outcome.results| && outcome.at.Unverified?) ==>
      && k < |e.steps| && Is(written.records, Keys(e)[k], Succeeded) && Keys(e)[k] in after.records
      && var key, was := Keys(e)[k], written.records[Keys(e)[k]];
         if was.undo.Recipe? && was.undo.irreversible then after.records[key] == was
         else
           && after.records[key] == was.(status := Undone) && Is(after.records, UndoOf(key), Succeeded)
           && (Is(written.records, UndoOf(key), Succeeded)
               || Revert(e.steps[k], was.undo, was.result) in sent)
    ensures forall event :: event in sent ==>
      exists k: nat :: k < |e.steps| && Keys(e)[k] in written.records
        && var was := written.records[Keys(e)[k]];
           && !(was.undo.Recipe? && was.undo.irreversible) && !Is(written.records, UndoOf(Keys(e)[k]), Succeeded)
           && event == Revert(e.steps[k], was.undo, was.result)
  {
    hide Keys, LeavesWritten, StockFreed, Reverts, Settled;
    KeysPerStep(e);
    var there :| LeavesWritten(e, outcome.results, Broke(outcome.at), before, there) && Undid(e, there, after, outcome);
    written := there;
    var completed := Completions(e, Keys(e), there.records, Count(outcome.results, outcome.at));
    assert forall i :: 0 <= i < |completed| ==> Settled(there.records, after.records, completed[i]);
    forall i | 0 <= i < |completed|
      ensures completed[i].key in there.records && completed[i].result == there.records[completed[i].key].result
    {
      SettledRecord(there.records, after.records, completed[i]);
    }
    RevertsAre(there.records, completed, 0);
    sent := RevertEvents(there.records, completed, 0, false);
    CompletedMade(e, outcome, before, there);
    hide CompensatedFrom, Undid;
    forall k: nat | k < |completed|
      ensures Keys(e)[k] in after.records
      ensures var key, was := Keys(e)[k], there.records[Keys(e)[k]];
        if was.undo.Recipe? && was.undo.irreversible then after.records[key] == was
        else
          && after.records[key] == was.(status := Undone) && Is(after.records, UndoOf(key), Succeeded)
          && (Is(there.records, UndoOf(key), Succeeded)
              || Revert(e.steps[k], was.undo, was.result) in sent)
    {
      SettledRecord(there.records, after.records, completed[k]);
    }
  }

  /** A rollback takes up exactly the steps recorded as made. */
  lemma {:induction false} MadeStepsAre(e: Execution, records: Records, n: nat)
    requires n <= |e.steps| == |Keys(e)|
    ensures forall k :: 0 <= k < n && Is(records, Keys(e)[k], Succeeded) ==>
      Completion(e.steps[k], Keys(e)[k], records[Keys(e)[k]].result) in MadeSteps(e, records, n)
    ensures forall c :: c in MadeSteps(e, records, n) ==>
      exists k :: 0 <= k < n && Is(records, Keys(e)[k], Succeeded)
        && c == Completion(e.steps[k], Keys(e)[k], records[Keys(e)[k]].result)
  {
    hide Keys;
    if n > 0 {
      MadeStepsAre(e, records, n - 1);
    }
  }

  lemma RollbackParts(e: Execution, before: World, after: World) returns (claimed: Records, undone: Records)
    requires LeavesRolledBack(e, before, after)
    ensures RollbackClaimed(e, before.records, claimed)
    ensures CompensatedFrom(claimed, undone, MadeSteps(e, claimed, |e.steps|), 0)
    ensures after.log == before.log + [RollbackAuthorized] + Reverts(claimed, MadeSteps(e, claimed, |e.steps|), 0)
    ensures RollbackKey(e) in undone && after.records == WriteJournal.Completed(undone, RollbackKey(e), NOTHING)
  {
    hide RollbackClaimed, Keys, CompensatedFrom, StockFreed, Reverts;
    claimed, undone :|
      && Reversed(e, claimed, before, after.(records := undone), 0, false)
      && StockFreed(e, before.accounts, after.accounts, e.transfers)
      && Is(undone, RollbackKey(e), Pending)
      && after.records == WriteJournal.Completed(undone, RollbackKey(e), NOTHING);
    SentRevertsToo(claimed, MadeSteps(e, claimed, |e.steps|), 0, false);
  }

  /** A step's key, and that of its undo, are not the rollback's. */
  lemma StepKeysApart(e: Execution, k: nat)
    requires k < |e.steps| == |Keys(e)|
    ensures Keys(e)[k] != RollbackKey(e) && UndoOf(Keys(e)[k]) != RollbackKey(e)
  {
    hide StepKey;
    StepKeyHashed(e, e.steps[k]);
  }

  /**
   A finished rollback does the same to every write still recorded as made: it ends UNDONE, its undo sent with
   its own result unless that had been made before, and only a write marked irreversible stands.
   */
  lemma RollbackUndoesReversible(e: Execution, before: World, after: World) returns (sent: seq<Event>)
    requires LeavesRolledBack(e, before, after)
    ensures |Keys(e)| == |e.steps| && after.log == before.log + [RollbackAuthorized] + sent
    ensures forall k :: 0 <= k < |e.steps| && Is(before.records, Keys(e)[k], Succeeded) ==>
      && Keys(e)[k] in after.records
      && var key, was := Keys(e)[k], before.records[Keys(e)[k]];
         if was.undo.Recipe? && was.undo.irreversible then after.records[key] == was
         else
           && after.records[key] == was.(status := Undone) && Is(after.records, UndoOf(key), Succeeded)
           && (Is(before.records, UndoOf(key), Succeeded)
               || Revert(e.steps[k], was.undo, was.result) in sent)
    ensures forall event :: event in sent ==>
      exists k :: 0 <= k < |e.steps| && Is(before.records, Keys(e)[k], Succeeded)
        && var was := before.records[Keys(e)[k]];
           && !(was.undo.Recipe? && was.undo.irreversible) && !Is(before.records, UndoOf(Keys(e)[k]), Succeeded)
           && event == Revert(e.steps[k], was.undo, was.result)
  {
    KeysPerStep(e);
    hide Keys, Reverts, Settled, MadeSteps;
    var claimed, undone := RollbackParts(e, before, after);
    var made := MadeSteps(e, claimed, |e.steps|);
    MadeStepsAre(e, claimed, |e.steps|);
    forall k | 0 <= k < |e.steps|
      ensures Keys(e)[k] != RollbackKey(e) && UndoOf(Keys(e)[k]) != RollbackKey(e)
      ensures Same(before.records, claimed, Keys(e)[k]) && Same(before.records, claimed, UndoOf(Keys(e)[k]))
    {
      StepKeysApart(e, k);
    }
    hide RollbackKey;
    forall i | 0 <= i < |made| ensures made[i].key in claimed {
      assert made[i] in made;
    }
    RevertsAre(claimed, made, 0);
    sent := Reverts(claimed, made, 0);
    forall k | 0 <= k < |e.steps| && Is(before.records, Keys(e)[k], Succeeded)
      ensures Keys(e)[k] in after.records
      ensures var key, was := Keys(e)[k], before.records[Keys(e)[k]];
        if was.undo.Recipe? && was.undo.irreversible then after.records[key] == was
        else
          && after.records[key] == was.(status := Undone) && Is(after.records, UndoOf(key), Succeeded)
          && (Is(before.records, UndoOf(key), Succeeded)
              || Revert(e.steps[k], was.undo, was.result) in sent)
    {
      var c := Completion(e.steps[k], Keys(e)[k], claimed[Keys(e)[k]].result);
      var i :| 0 <= i < |made| && made[i] == c;
      SettledRecord(claimed, undone, made[i]);
    }
    forall event | event in sent
      ensures exists k ::
        && 0 <= k < |e.steps| && Is(before.records, Keys(e)[k], Succeeded)
        && var was := before.records[Keys(e)[k]];
           && !(was.undo.Recipe? && was.undo.irreversible) && !Is(before.records, UndoOf(Keys(e)[k]), Succeeded)
           && event == Revert(e.steps[k], was.undo, was.result)
    {
      var i :| 0 <= i < |made|
        && var c, undo := made[i], claimed[made[i].key].undo;
           && !(undo.Recipe? && undo.irreversible) && !Is(claimed, UndoOf(c.key), Succeeded)
           && event == Revert(c.step, undo, c.result);
      assert made[i] in made;
      var k :| 0 <= k < |e.steps| && Is(claimed, Keys(e)[k], Succeeded)
        && made[i] == Completion(e.steps[k], Keys(e)[k], claimed[Keys(e)[k]].result);
    }
  }

  /** The steps a failing run completed are recorded as made. */
  lemma CompletedMade(e: Execution, outcome: Outcome, before: World, written: World)
    requires outcome.Failed? && LeavesWritten(e, outcome.results, Broke(outcome.at), before, written)
    requires |Keys(e)| == |e.steps| && Count(outcome.results, outcome.at) <= |e.steps|
    ensures forall k: nat :: k < Count(outcome.results, outcome.at) ==> Is(written.records, Keys(e)[k], Succeeded)
  {
    hide Keys, WriteEvents, RunClaimed, Fresh, SavedSteps, LoggedSaves, StockHeld;
    var claimed, readied :| Readied(e, before, claimed, readied)
      && Wrote(e, readied, written, outcome.results, Broke(outcome.at));
    assert WrittenUpTo(Keys(e), readied.records, written.records, outcome.results, Broke(outcome.at));
  }

  // ----- Stock -----

  lemma OneReservationApart(a: map<string, Reservation>, b: map<string, Reservation>, id: string)
    requires forall other :: other != id ==> (other in a <==> other in b) && (other in a ==> a[other] == b[other])
    requires (id in a ==> a[id].status == Released) && (id in b ==> b[id].status == Released)
    ensures HeldUnits(a) == HeldUnits(b)
  {
    assert a - {id} == b - {id};
    if id in a {
      HeldUnitsWithout(a, id);
    } else {
      assert a - {id} == a;
    }
    if id in b {
      HeldUnitsWithout(b, id);
    } else {
      assert b - {id} == b;
    }
  }

  /** A part that held nothing before and whose holds are all freed leaves every balance as it was. */
  lemma FreedStockRestores(e: Execution, a: Accounts, b: Accounts, transfers: seq<Transfer>, place: Place)
    requires AllSound(a) && AllSound(b) && StockFreed(e, a, b, transfers)
    requires !Holds(a, place, e.partId, Held)
    ensures Allocated(At(a, place)) == Allocated(At(b, place))
  {
    hide At;
    assert Sound(At(a, place)) && Sound(At(b, place));
    forall other | other != e.partId
      ensures (other in At(a, place).reservations <==> other in At(b, place).reservations)
           && (other in At(a, place).reservations ==>
              At(a, place).reservations[other] == At(b, place).reservations[other])
    {
      assert SameReservation(a, b, place, other);
    }
    if !exists t :: t in transfers && t.place == place {
      assert SameReservation(a, b, place, e.partId);
    }
    OneReservationApart(At(a, place).reservations, At(b, place).reservations, e.partId);
  }

  /** What the transfers take from one place, and how many they are. */
  function Taken(transfers: seq<Transfer>, place: Place): real {
    if transfers == [] then 0.0
    else (if transfers[0].place == place then transfers[0].qty else 0.0) + Taken(transfers[1..], place)
  }

  function Times(transfers: seq<Transfer>, place: Place): nat {
    if transfers == [] then 0 else (if transfers[0].place == place then 1 else 0) + Times(transfers[1..], place)
  }

  lemma {:induction false} TakenOfEqual(transfers: seq<Transfer>, place: Place, qty: real)
    requires qty > 0.0 && forall t :: t in transfers && t.place == place ==> t.qty == qty
    ensures Taken(transfers, place) == Times(transfers, place) as real * qty
  {
    if transfers != [] {
      TakenOfEqual(transfers[1..], place, qty);
      assert transfers[0] in transfers;
      assert (1 + Times(transfers[1..], place)) as real * qty == qty + Times(transfers[1..], place) as real * qty;
    }
  }

  /**
   The reservation id is the part's id alone, so two transfers out of one place share one hold. The
   hold covers what the transfers take there exactly when there is a single one.
   */
  lemma HoldCoversOneTransfer(e: Execution, accounts: Accounts, place: Place)
    requires (forall t :: t in e.transfers ==> HeldFor(e, accounts, t))
            && (forall t :: t in e.transfers ==> t.qty > 0.0)
    requires exists t :: t in e.transfers && t.place == place
    ensures e.partId in At(accounts, place).reservations
    ensures At(accounts, place).reservations[e.partId].qty == Taken(e.transfers, place)
            <==> Times(e.transfers, place) == 1
  {
    var t :| t in e.transfers && t.place == place;
    assert HeldFor(e, accounts, t);
    var qty := At(accounts, place).reservations[e.partId].qty;
    hide At, Taken, Times;
    forall u | u in e.transfers && u.place == place ensures u.qty == qty {
      assert HeldFor(e, accounts, u);
    }
    TakenOfEqual(e.transfers, place, qty);
    TimesPositive(e.transfers, t);
    ManyTakeMore(Times(e.transfers, place), qty, Taken(e.transfers, place));
  }

  lemma {:induction false} TimesPositive(transfers: seq<Transfer>, t: Transfer)
    requires t in transfers
    ensures Times(transfers, t.place) >= 1
  {
    if transfers[0] != t {
      TimesPositive(transfers[1..], t);
    }
  }

  lemma ManyTakeMore(n: nat, qty: real, taken: real)
    requires n >= 1 && qty > 0.0 && taken == n as real * qty
    ensures qty == taken <==> n == 1
  {
    if n >= 2 {
      assert (n as real - 1.0) * qty > 0.0;
    }
  }
}
