/** Runs that show the findings about the saga do happen. */
module SagaWitnesses {
  import opened Basics
  import opened Plans
  import opened WriteJournal
  import opened StockLedger
  import opened Executions
  import opened SagaStates
  import opened SagaTheorems

  const ALTERNATE := CreatePoAlternate("S", "M", "P", 1.0, 0)

  const FIRST := Step(0, ALTERNATE, "T0", ["SAP:R"], 0)

  const SECOND := Step(1, ALTERNATE, "T1", ["SAP:R"], 0)

  /** Two orders with an alternate supplier, which nothing can undo. */
  const RUN := Execution("C", 1, "P", "H", [FIRST, SECOND], [])

  const FIRST_KEY := Hashed(Joined(["C", Digits(1), Digits(0), "CREATE_PO_ALTERNATE", "T0"]))

  const SECOND_KEY := Hashed(Joined(["C", Digits(1), Digits(1), "CREATE_PO_ALTERNATE", "T1"]))

  const RUN_KEY := Exec("C", 1, "P")

  const RECIPE := Recipe("DELETE_PO_ITEM", true)

  const ORDERED := Payload("4500000001", [])

  const NOTHING_YET := World(map[], map[], [])

  function RunRecord(): Record {
    Record(RunOf(RUN), ReverseCompleted, Pending, NOTHING)
  }

  function StepRecord(step: Step, status: WriteJournal.Status, result: Payload): Record {
    Record(WriteOf(RUN, step), RECIPE, status, result)
  }

  /** The run's record, and those of its two steps. */
  function Records3(first: Record, second: Record): Records {
    map[RUN_KEY := RunRecord(), FIRST_KEY := first, SECOND_KEY := second]
  }

  const SAVED := ADMITTED + [SaveUndo(FIRST_KEY, RECIPE), SaveUndo(SECOND_KEY, RECIPE)]

  const READIED := World(
    Records3(StepRecord(FIRST, Ready, NOTHING), StepRecord(SECOND, Ready, NOTHING)), map[], SAVED)

  lemma PlainFields()
    ensures PlainField("C") && PlainField("T0") && PlainField("T1") && PlainField(Digits(0)) && PlainField(Digits(1))
    ensures PlainField("CREATE_PO_ALTERNATE")
  {
    assert Digits(0) == "0" && Digits(1) == "1";
  }

  lemma KeysOfSteps()
    ensures StepKey(RUN, FIRST) == Some(FIRST_KEY) && StepKey(RUN, SECOND) == Some(SECOND_KEY)
  {
    PlainFields();
    hide PlainField, Digits, Joined;
  }

  lemma RunKeys()
    ensures Keyed(RUN) && Keys(RUN) == [FIRST_KEY, SECOND_KEY] && FIRST_KEY != SECOND_KEY && UniquelyIndexed(RUN.steps)
    ensures ExecKey(RUN) == RUN_KEY
  {
    KeysOfSteps();
    hide StepKey, Joined, Digits;
    var keys := [FIRST_KEY, SECOND_KEY];
    KeysDistinct(RUN, keys);
    assert keys[0] != keys[1];
  }

  const CLAIMED: Records := map[RUN_KEY := RunRecord()]

  lemma RunStarts()
    ensures RunClaimed(RUN, map[], CLAIMED) && Fresh(Keys(RUN), CLAIMED)
  {
    RunKeys();
    hide StepKey, Joined, Digits, Keys, Keyed, UniquelyIndexed;
    assert !Is(CLAIMED, Keys(RUN)[0], Succeeded);
  }

  lemma RunSaves()
    ensures |Keys(RUN)| == 2 && SavedSteps(RUN, Keys(RUN), CLAIMED, READIED.records, 2)
    ensures LoggedSaves(ADMITTED, READIED.log, Keys(RUN), READIED.records, 2)
  {
    RunKeys();
    hide StepKey, Joined, Digits, Keys, Keyed, UniquelyIndexed, RunOf;
    assert Keys(RUN)[..2] == [FIRST_KEY, SECOND_KEY];
  }

  lemma RunReadied()
    ensures Readied(RUN, NOTHING_YET, CLAIMED, READIED)
  {
    RunKeys();
    RunStarts();
    RunSaves();
    hide StepKey, Joined, Digits, Keys, Keyed, UniquelyIndexed, RunOf, RunClaimed, Fresh, SavedSteps, LoggedSaves;
    assert NOTHING_YET.log + ADMITTED == ADMITTED;
  }

  // ----- A halted run -----

  /** The kill switch was turned on before the first write. */
  const HALTED := READIED.(log := SAVED + [SwitchOn])

  /** A run can be halted with nothing written, and is then refused at every later attempt. */
  lemma HaltedRunIsStranded(second: Outcome, after: World)
    ensures Leaves(RUN, Halted([]), NOTHING_YET, HALTED)
    ensures Leaves(RUN, second, HALTED, after) ==> second.Refused? && Idle(HALTED, after)
  {
    RunKeys();
    RunReadied();
    HaltedAfter();
    assert LeavesWritten(RUN, [], KillSwitched, NOTHING_YET, HALTED);
    hide Leaves, LeavesWritten;
    assert Leaves(RUN, Halted([]), NOTHING_YET, HALTED) by {
      HaltedLeaves();
    }
    if Leaves(RUN, second, HALTED, after) {
      StrandedForEver(RUN, Halted([]), NOTHING_YET, HALTED, second, after);
    }
  }

  lemma HaltedLeaves()
    requires LeavesWritten(RUN, [], KillSwitched, NOTHING_YET, HALTED)
    ensures Leaves(RUN, Halted([]), NOTHING_YET, HALTED)
  {}

  lemma HaltedAfter()
    ensures Wrote(RUN, READIED, HALTED, [], KillSwitched)
  {
    RunKeys();
    hide StepKey, Joined, Digits, Keys, Keyed, UniquelyIndexed, RunOf;
    assert Writes(RUN, Keys(RUN), READIED.records, 0) == [];
  }

  // ----- An irreversible write left standing -----

  /** The first order was placed and verified, the second one rejected. */
  const REJECTED := World(
    Records3(StepRecord(FIRST, Succeeded, ORDERED), StepRecord(SECOND, Rejected, NOTHING)), map[],
    SAVED + [SwitchOff, Apply(FIRST), Verified(FIRST), SwitchOff, Apply(SECOND)])

  const FAILURE := Failed([ORDERED], RejectedStep, 0, false, true)

  lemma RejectedAfter()
    ensures Wrote(RUN, READIED, REJECTED, [ORDERED], Broke(RejectedStep))
  {
    RunKeys();
    hide StepKey, Joined, Digits, Keys, Keyed, UniquelyIndexed, RunOf;
    var a := READIED.records;
    assert Writes(RUN, Keys(RUN), a, 1) == Writes(RUN, Keys(RUN), a, 0) + StepEvents(a, FIRST, FIRST_KEY);
    assert StepEvents(a, FIRST, FIRST_KEY) == [SwitchOff, Apply(FIRST), Verified(FIRST)];
    assert BrokenEvents(a, SECOND, SECOND_KEY, RejectedStep) == [SwitchOff, Apply(SECOND)];
  }

  lemma RejectedUndone()
    ensures Undid(RUN, REJECTED, REJECTED, FAILURE)
  {
    RunKeys();
    hide StepKey, Joined, Digits, Keys, Keyed, UniquelyIndexed, RunOf;
    var completed := Completions(RUN, Keys(RUN), REJECTED.records, 1);
    assert completed == [Completion(FIRST, FIRST_KEY, ORDERED)];
    assert RevertOf(REJECTED.records, completed[0]) == [];
    assert Reverts(REJECTED.records, completed, 1) == [];
  }

  lemma RejectedWritten()
    ensures LeavesWritten(RUN, [ORDERED], Broke(RejectedStep), NOTHING_YET, REJECTED)
  {
    hide Readied, Wrote;
    RunReadied();
    RejectedAfter();
  }

  lemma FirstStands()
    ensures |Keys(RUN)| == 2 && Is(REJECTED.records, Keys(RUN)[0], Succeeded) && Apply(FIRST) in REJECTED.log
  {
    RunKeys();
    assert REJECTED.log[|SAVED| + 1] == Apply(FIRST);
  }

  /** A run can fail, be compensated in full, and leave an irreversible write of its own standing. */
  lemma IrreversibleWriteStands()
    ensures Leaves(RUN, FAILURE, NOTHING_YET, REJECTED) && FAILURE.compensated
    ensures |Keys(RUN)| == 2 && Is(REJECTED.records, Keys(RUN)[0], Succeeded) && Apply(FIRST) in REJECTED.log
  {
    hide LeavesWritten, Undid, Keys, Is;
    RejectedWritten();
    RejectedUndone();
    FirstStands();
  }

  // ----- Two transfers, one hold -----

  const DONOR := Place("M", "D")

  const TEN := Transfer(DONOR, 10.0, 15.0, "SAP:STOCK")

  /** Two transfers of ten out of a plant that can spare fifteen. */
  const TRANSFERS := Execution("C", 1, "P", "H", [], [TEN, TEN])

  /** Both reservations are granted, and together they hold ten of the twenty. */
  lemma TwoTransfersOneHold()
    ensures var hold := HoldOf(TRANSFERS, TEN);
      var once := Reserved(EMPTY, hold);
      && once.Ok? && Reserved(once.value, hold) == once && Allocated(once.value) == 10.0
      && (forall t :: t in TRANSFERS.transfers ==> HeldFor(TRANSFERS, map[DONOR := once.value], t))
      && Taken(TRANSFERS.transfers, DONOR) == 20.0
  {
    assert Acceptable(HoldOf(TRANSFERS, TEN));
    assert Taken(TRANSFERS.transfers[1..][1..], DONOR) == 0.0;
    assert Taken(TRANSFERS.transfers[1..], DONOR) == 10.0;
  }
}
