# Aera: a verified model of planning, approving and executing supply actions

This Dafny project models the control code of a supply-disruption service and proves what its
design promises. The service projects plant stock, groups cases that compete for stock, sizes their
actions jointly, routes each plan to the people who may approve it, executes approved plans as a saga
of SAP writes, and records everything in a hash-chained audit trail.

`dafny verify dfyconfig.toml` checks every file. Nothing here executes the original program.

## How it is modelled

- **Execution saga** (`Execution.dfy`, `Journal.dfy`, `Ledger.dfy`, `Saga.dfy`, `Workflow.dfy`,
  `SagaTheorems.dfy`, `SagaWitnesses.dfy`, `Loading.dfy`). `Workflow.dfy` has the classes of the source. The
  boundary to SAP answers arbitrarily and may raise at any call, audit calls included; its ghost log keeps the
  calls made and a ghost counter the answers a run cannot go on with.
  `Saga.dfy` says outcome by outcome what a run or rollback leaves in journal, ledger and log, and the
  methods are proved against it from any initial journal. SHA-256 is taken to be injective: keys are the
  joined identities, and joining is proved injective.
- **Races** (`JournalRaces.dfy`, `JournalRuns.dfy`, `LedgerRaces.dfy`). The same protocols as transition systems in
  which any number of executors and ledger callers interleave single reads, conditional commits and calls, and
  may stop for ever at any point. Theorems quantify over all sequences of moves; `JournalRuns.dfy` says what an
  executor gets done when nobody is in its way.
- **SAP schedule lines** (`Sap.dfy`). A map of lines whose ETag changes with every write.
- **Stock projection** (`Projection*.dfy`, `Project.dfy`). Instants are integer microseconds, decimals
  exact reals; rounding to seconds is half to even. The loop is proved against a simulation, that against a
  reference stock function, and that against the continuous model.
- **Receipts** (`History.dfy`, `Reliability.dfy`). First-in-first-out matching, its cumulative closed form,
  and the supplier statistics computed from it. Dates are day numbers.
- **Portfolios** (`Portfolio.dfy`, `Offers.dfy`, `Solver.dfy`, `SolverTheorems.dfy`, `Baseline.dfy`). Connected
  components by worklist; what the cases of a portfolio offer the solver against what detection saw them claim;
  the constraint system, of whose solver only "a returned point is feasible, and least when OPTIMAL" is asked;
  the checks around it; and the one-by-one baseline.
- **Approvals** (`Routing.dfy`, `RoutingTheorems.dfy`, `Approvals.dfy`, `ApprovalRuns.dfy`,
  `ApprovalTheorems.dfy`, `HandOver.dfy`, `Reassignment.dfy`, `Escalation.dfy`, `ApprovalWitnesses.dfy`,
  `ControlStore.dfy`). Routing as pure functions over a verified plan; the approval records as a transition
  system of interleaved requests, and as the store's methods used alone. The verifier is not part of this model:
  its confidence, reversibility and plan hash are given.
- **Audit** (`Dynamo.dfy`, `Audit.dfy`). The JSON dump, storage conversion and canonical form down to the
  spelling of decimals; chain verification; and concurrent writers under a head condition with a digest as
  parameter.

## Findings

Where the code does not keep a promise for all inputs, the model keeps the code, shows where that
happens, and proves the exact condition:

- A claimed run that halts or fails keeps its own record PENDING for ever (`SagaTheorems.StrandedForEver`,
  `SagaWitnesses.HaltedRunIsStranded`).
- An irreversible write that succeeded stays when a later one fails (`SagaTheorems.IrreversibleStands`,
  `SagaWitnesses.IrreversibleWriteStands`).
- Two transfers out of one place share one hold (`SagaTheorems.HoldCoversOneTransfer`,
  `SagaWitnesses.TwoTransfersOneHold`).
- A run looks for step records of an earlier run (`services/execution/workflow.py:118-129` and `:144`). It never
  finds one: only the winner of the run's claim stores them, and nobody wins it twice
  (`JournalRaces.ClaimedRunFindsNoSteps`). So an adapter has always prepared what it applies.
- Detection leaves out options that arrive outside thirty days, but the solver is offered them all. Portfolios
  can be solved apart exactly when no case offers, only by such options, what a case of another portfolio
  offers (`PortfolioOffers.SolvableApartUnlessStray`, `PortfolioOffers.LateOffersOvercommit`).
- `decide` does not look at `superseded`: after an escalating reallocation the part can still be approved
  (`ApprovalTheorems.SupersededDecidable`, `ApprovalWitnesses.EscalatedPartStillApproved`).
- A case can come back to an approver who let an approval of it expire: when the expiry comes after the save
  read who had (`Reassignment.ReassignedExactlyIfExpiredSince`, `ApprovalWitnesses.StaleRouteReassigns`), or when
  a second route is saved while the approver's first approval is open, as after an urgent part that turned out
  stale (`services/execution/service.py:371-377`, `ApprovalWitnesses.OneApproverExpiresTwice`). These two are
  exactly the saves that endanger hand-over (`Reassignment.StaysApartExactlyIfFresh`).
- A recorded payload does not always hash the same once it is read back: fields that are None are dropped, and
  decimals, dates and small floats may come back with another spelling, as the rates that
  `services/api/admin.py:214-232` records (`Storage.CanonicalSurvivesStorage`, `Storage.SpellingsLost`,
  `AuditChain.RereadVerifies`). Nor does the hash tell numbers from their spelling
  (`Storage.NumberAndSpellingAlike`).
- Fractions of a second are cut off when consumption is booked, so projected stock can exceed exact stock. It
  never does exactly when all instants are on whole seconds (`ProjectionExact.NeverAboveExact`,
  `ProjectionExact.FractionsUnbooked`).
- Negative schedule-line quantities create units (`ReceiptHistory.UnitsInventedOnlyByNegativeLines`,
  `ReceiptHistory.NegativeLineCreatesUnits`). The interface does not rule them out: the field is a plain
  `Edm.Decimal` in the service metadata and `number` takes any sign. No line in the repository's SAP data is
  negative.

## Model

| member | source | states |
|---|---|---|
| Workflows.Workflow.Run | services/execution/workflow.py:85-203 | Whatever the boundary answers or raises, a run ends in one outcome whose exact trace is fixed: refused and replayed runs change nothing; prepare failures give the stock back; a halted run leaves a SUCCEEDED prefix, an untouched suffix and its stock held; a failed run sends, in reverse, the undos of its completed writes that are not marked irreversible and frees stock iff compensation finished and no write is in doubt; a completed run has every write verified and its record SUCCEEDED. Without a fault of the boundary, every other outcome has its cause in the steps, the journal or the ledger. |
| Workflows.Workflow.Rollback | services/execution/workflow.py:242-268 | A rollback needs the run's record SUCCEEDED, is claimed once, is blocked by a write in doubt, undoes in reverse plan order the writes still recorded as made unless they are marked irreversible, frees the transfers, and records itself; each early end leaves exactly what had happened by then, and without a fault of the boundary has its cause in the journal. |
| Workflows.Workflow.ClaimRun | services/execution/workflow.py:86-117 | A run proceeds only when its steps are nonempty, uniquely indexed and sourced, the kill switch reads off, and its own record went from absent or READY to PENDING in this call. |
| Workflows.Workflow.Admit | services/execution/workflow.py:88-129 | Before any stock is held: keys exist, no step is in doubt or compensated, not all steps are already made, and the plan revalidates; otherwise stored results or a stop with nothing but the claim changed. |
| Workflows.Workflow.Ready | services/execution/workflow.py:130-159 | Either every transfer is held and every undo stored, or each hold taken is given back and only a prefix of the undos was stored. |
| Workflows.Workflow.HoldStock | services/execution/workflow.py:130-142 | Holds transfers in order up to the first refusal; nothing but this part's reservations changes and every balance stays exact. |
| Workflows.Workflow.ReleaseStock | services/execution/workflow.py:157-159 | Frees the part's reservation at each transfer's place and nothing else; on exact balances no release is refused. |
| Workflows.Workflow.SaveUndos | services/execution/workflow.py:143-155 | Stores the undo of each step under its key, keeping records that exist, up to the first step whose undo cannot be had or whose key was used for another write. |
| Workflows.Workflow.WriteStep | services/execution/workflow.py:165-180 | One step: an enabled kill switch halts, and otherwise it is read off and the claim won before the write is sent, the result recorded, then verified; each way it can break leaves the record in the one status that tells how. |
| Workflows.Workflow.WriteAll | services/execution/workflow.py:161-180 | The writes made are a prefix of the plan, each sent at most once and verified before the next; the step at which it stopped carries the reason and the rest is untouched. |
| Workflows.Workflow.CompensateStep | services/execution/workflow.py:214-235 | A completed step whose undo record is not marked irreversible ends UNDONE with its undo recorded, one so marked is untouched, and a step that cannot be settled stays SUCCEEDED with at most one undo sent. |
| Workflows.Workflow.Compensate | services/execution/workflow.py:210-240 | Undos go out last completed step first, for all but steps marked irreversible or undone before; it stops at the first step it cannot settle, all later steps being settled and all earlier ones untouched. |
| Workflows.Workflow.Fail | services/execution/workflow.py:184-198 | After a broken run: compensation, then stock freed exactly when compensation finished and the break was not an unresolved write. |
| Workflows.Workflow.Uncertain | services/execution/workflow.py:187-190 | True exactly when some step's record is PENDING. |
| Workflows.Workflow.Unique | services/execution/workflow.py:89-92 | The count of distinct (index, target) pairs equals the number of steps exactly when no two steps share both. |
| Workflows.PendingExactly | services/execution/workflow.py:184-191 | After compensation a step is PENDING exactly when the run broke on a write whose effect is unknown. |
| SagaTheorems.EveryUndoSavedFirst | services/execution/workflow.py:143-161 | In every outcome, before any write is sent the undo of every step of the run has been stored. |
| SagaTheorems.WritesFollowChecks | services/execution/workflow.py:86-166 | In every outcome, each write is sent right after the kill switch was read off, and after authorisation and revalidation. |
| SagaTheorems.WritesAreRecorded | services/execution/workflow.py:143-180 | Each write a run got through is recorded SUCCEEDED with the result reported and as the write of its step; if it had been made before its record is untouched, otherwise it had never been tried and was sent in this run. |
| SagaTheorems.RunRecordAfter | services/execution/workflow.py:97-117 | A claimed run leaves its own record PENDING, or SUCCEEDED with its results exactly when it completed. |
| SagaTheorems.StrandedForEver | services/execution/workflow.py:114-117 | Finding: a run that was claimed and halted, failed or stopped keeps its record PENDING, so every later run of that part is refused and does nothing. |
| SagaWitnesses.HaltedRunIsStranded | services/execution/workflow.py:114-166 | Finding, at an input: a run of two steps is halted before its first write, and whatever a second run of it does is a refusal. |
| SagaTheorems.CompletedReplays | services/execution/workflow.py:114-117 | Once a run completed, every later run sends nothing, holds nothing and returns the same results. |
| SagaTheorems.FailureUndoesInReverse | services/execution/workflow.py:184-240 | After its writes a failed run sends nothing but undos: those of its completed steps, last step first, without the steps marked irreversible and those undone before, down to the step compensation came to, which is the first one when it finished. |
| SagaTheorems.RollbackUndoesInReverse | services/execution/workflow.py:255-268 | A rollback that finishes undoes every write still recorded as made, last step first, in the same way. |
| SagaTheorems.IrreversibleStands | services/execution/workflow.py:220-235 | Finding: after a compensated failure a completed write stands exactly when its undo record is a recipe marked irreversible; every other one is UNDONE. |
| SagaTheorems.FailureUndoesReversible | services/execution/workflow.py:184-240 | In the fields of the journal's records: when compensation of a failed run finishes, each write it completed whose undo is not a recipe marked irreversible is UNDONE, its undo is recorded as made, and it was sent in this run with the write's own result unless it had been made before; writes so marked keep their record; and nothing else was sent. |
| SagaTheorems.RollbackUndoesReversible | services/execution/workflow.py:255-268 | The same of a finished rollback, for every write still recorded as made when it began. |
| SagaWitnesses.IrreversibleWriteStands | services/execution/workflow.py:161-240 | Finding, at an input: of two orders with an alternate supplier the first succeeds and the second is rejected; the run fails, compensates in full, and the first order stands. |
| SagaTheorems.FreedStockRestores | services/execution/workflow.py:191-193 | A part that held nothing before leaves every allocated balance as it was once its holds are freed. |
| SagaTheorems.HoldCoversOneTransfer | services/execution/workflow.py:132-141 | Finding: the reservation id is the part's id, so the hold at a place covers what the transfers take there exactly when there is a single transfer out of it. |
| SagaWitnesses.TwoTransfersOneHold | services/execution/ledger.py:48-56 | Finding, at an input: two transfers of ten out of a plant that can spare fifteen are both granted and together hold ten. |
| Executions.Expand | services/execution/workflow.py:270-281 | Every split becomes one step per part with its own target, in order; other steps stay. |
| Executions.KeysDistinct | services/execution/workflow.py:78-83 | Steps that differ in index or target have different idempotency keys. |
| Executions.SameKeySameWrite | services/execution/workflow.py:78-83 | Steps of any two executions have the same key exactly when case, plan version, action index, target and kind of action agree; the part does not enter. |
| Executions.StepKeyGiven | services/execution/journal.py:16-20 | A step has a key exactly when its plan version is positive, its index is not negative, and case and target are nonempty and hold no bar. |
| WriteJournal.KeyIdentifiesWrite | services/execution/journal.py:16-20 | Two writes have the same idempotency identity only when case, version, index, action type and target all agree. |
| WriteJournal.JoinedInjective | services/execution/journal.py:17-20 | Joining fields that contain no bar with bars is injective. |
| WriteJournal.KeyGiven | services/execution/journal.py:16-20 | A write has a key exactly when its version and index are in range and case, kind and target are nonempty and hold no bar; decimal numbers never do. |
| Basics.DigitsInjective | services/execution/journal.py:17 | Two non-negative numbers with the same decimal spelling are equal. |
| WriteJournal.ReadBack | services/execution/journal.py:36-114 | Whatever calls the journal has answered since, the record read under a key is the write and undo first stored there; its status has only moved forward, never back to READY, and a result once recorded is kept. |
| WriteJournal.Journal.Prepare | services/execution/journal.py:42-63 | Stores a READY record once; a second save changes nothing and is refused unless write and undo are the same. |
| WriteJournal.Journal.Claim | services/execution/journal.py:65-86 | Go exactly from READY, which becomes PENDING; a SUCCEEDED record gives its result; anything else stops; nothing else changes. |
| WriteJournal.Journal.Complete | services/execution/journal.py:88-98 | SUCCEEDED with the result exactly from PENDING. |
| WriteJournal.Journal.Reject | services/execution/journal.py:100-101 | REJECTED exactly from PENDING. |
| WriteJournal.Journal.MarkUndone | services/execution/journal.py:103-104 | UNDONE exactly from SUCCEEDED. |
| WriteJournal.Journal.Transition | services/execution/journal.py:106-114 | A status changes only from the one required, and nothing else does. |
| JournalRaces.SentAtMostOnce | services/execution/journal.py:65-86 | Over all interleavings of runs and rollbacks, retried and crashed, from any journal: each key is claimed with go at most once, each apply and undo is sent at most once and only by its winner, and an undo is sent only for a write recorded as made. |
| JournalRaces.RecordsTellWhatWasSent | services/execution/journal.py:65-114 | From an empty journal, in every interleaving: a key was claimed exactly when its record is past READY; a write or undo was sent exactly once if its record is SUCCEEDED, REJECTED or UNDONE, at most once while PENDING and never before; a write is UNDONE only when its undo was sent and recorded as made. |
| JournalRuns.RunFinishes | services/execution/workflow.py:85-203 | A run of steps nobody has tried, with nobody in its way, ends with its record and all its steps SUCCEEDED and has sent each write once. |
| JournalRuns.RefusalCompensates | services/execution/workflow.py:170-240 | A run whose next write is refused records it REJECTED, sends the undo of each write before it once, and leaves those UNDONE. |
| JournalRuns.RollbackFinishes | services/execution/workflow.py:242-268 | A rollback of a finished run, with nobody in its way, sends each undo once, leaves every step UNDONE and its own record SUCCEEDED. |
| JournalRaces.FinishedRunActsNoMore | services/execution/workflow.py:114-126 | Once a run's record is SUCCEEDED it stays so in every later interleaving and no run of that part ever again holds stock or sends a write. |
| JournalRaces.ClaimedRunFindsNoSteps | services/execution/workflow.py:118-155 | In every interleaving a run that won its claim finds no record of any step of its part: the undo of every step is prepared by the very run, and so the very adapter, that then writes it. |
| JournalRaces.MoveKeeps | services/execution/workflow.py:85-268 | Every single access of a run, rollback or compensation keeps: one sender per key, one owner per run, its record PENDING while owned, undos only of made writes. |
| JournalRaces.ProgramFollows | services/execution/workflow.py:85-268 | Every step of the program changes a status only as the journal allows, sends only what it has just claimed, and becomes owner of a run only by claiming it. |
| StockLedger.Ledger.AllocatedAt | services/execution/ledger.py:26-29 | The allocated units of a place, zero when it has no balance. |
| StockLedger.Ledger.Reserve | services/execution/ledger.py:31-103 | Refuses unacceptable quantities or sources, a mismatched or released reservation and insufficient stock; otherwise the reservation is held and the balance grows by it, once. |
| StockLedger.Ledger.Release | services/execution/ledger.py:105-154 | An absent or released reservation is a success without effect; a held one is released and its quantity leaves the balance. |
| StockLedger.ReserveKeepsSound | services/execution/ledger.py:31-103 | A granted reservation keeps the balance equal to the sum of held reservations, within what its caller saw available, and touches no other reservation. |
| StockLedger.ReleaseKeepsSound | services/execution/ledger.py:105-154 | On an exact balance a release is never refused and gives back exactly what was held. |
| StockLedger.HeldUnitsWithout | services/execution/ledger.py:48-80 | The sum of held reservations does not depend on the order it is taken in. |
| LedgerRaces.BalanceIsExact | services/execution/ledger.py:48-154 | However callers interleave, race, retry or crash, the allocated balance is the sum of held reservations and never exceeds a ceiling that every caller's available respects, which keeps the donor's minimum cover. |
| LedgerRaces.ReservationLivesOnce | services/execution/ledger.py:48-154 | A reservation goes absent, held, released, each at most once, and never changes case or quantity. |
| LedgerRaces.RunIsSerial | services/execution/ledger.py:48-154 | Every interleaving leaves what its committed requests leave when made one at a time in commit order, none of them refused. |
| LedgerRaces.CommitIsAtomic | services/execution/ledger.py:73-103 | A transaction whose conditions hold does exactly what its whole request would do at that moment. |
| LedgerRaces.UndisturbedIsAtomic | services/execution/ledger.py:31-154 | A request nobody disturbs is granted or refused, and leaves the account, as it would in one step. |
| Loading.Load | services/execution/service.py:102-136 | Steps and transfers of the chosen options, each step under its action's index in the whole plan, reversible steps first; the transfers are the chosen stock transfer orders, each held at the plant that gives. |
| Loading.LoadOption | services/execution/service.py:113-125 | The index advances for every action of an option, chosen or not. |
| Loading.ChosenIndexes | services/execution/service.py:113-125 | Each step is the action at its own index in the plan and its option was chosen; indexes strictly increase. |
| Loading.TransfersAre | services/execution/service.py:113-124 | The transfers are, in plan order, exactly one for each chosen CREATE_STO and none for any other action: of its material and quantity, at its from-plant, with the availability and reference read at that place. |
| Loading.StepsAre | services/execution/service.py:113-127 | The loaded steps are exactly one for each action of a chosen option, under the action's index in the whole plan and with its option's references; air freight and alternate orders come after all others, and each kind is in plan order. |
| Loading.ActionAt | services/execution/service.py:112-125 | The index of an action is the number of all actions of the options before its own, plus its place in its option. |
| Loading.TargetIsTheObject | services/execution/service.py:64-72 | With names that hold no hash sign, two actions have the same target exactly when they write the same object: the same transfer lane and material, schedule line, booked item, or supplier, material and plant. |
| Loading.LoadedInOrder | services/execution/service.py:126-136 | Every loaded and expanded execution is uniquely indexed, has distinct keys, and no reversible write after an irreversible one. |
| Loading.ReversibleFailureStrandsNothing | services/execution/service.py:126-127 | When a run fails at a reversible step, to apply or to verify, no irreversible write of the part has been sent, for every plan, choice and answer of SAP. |
| Loading.PartsOf | services/execution/workflow.py:273-278 | The writes of one split keep its index and differ in target. |
| ScheduleLines.SapBoundary.PrepareUndo | services/execution/sap.py:80-119 | The undo of a date change or split line from the line as it is; refused when the line is missing, the parts do not sum to it, or a new line already exists; remembered for the apply. |
| ScheduleLines.SapBoundary.ApplyStep | services/execution/sap.py:170-201 | A write goes through only for a step this adapter prepared, and only onto the line as prepared (same ETag) or a line still absent. |
| ScheduleLines.SapBoundary.UndoStep | services/execution/sap.py:351-377 | An undo is refused when the line no longer shows what the step wrote. |
| ScheduleLines.PreparedExactly | services/execution/sap.py:80-119 | A date change is accepted exactly when its line exists; the first part of a split exactly when the line exists and the parts sum to it; a later part exactly when its line does not exist. |
| ScheduleLines.SplitAcceptedExactly | services/execution/sap.py:93-119 | A split is accepted as a whole exactly when its line exists, its parts sum to that line's quantity and none of the lines it adds exists. |
| ScheduleLines.WritesExactly | services/execution/sap.py:170-201 | A prepared write goes through exactly when its line has the ETag it was prepared with, or is still absent; the line then has the action's date and quantity and no other line is touched. |
| ScheduleLines.UndoesExactly | services/execution/sap.py:336-377 | A write is undone exactly when its line still shows the date, and for a split the quantity, that it wrote; the line then has the prepared date and quantity or is gone again, and no other line is touched. |
| ScheduleLines.CompensationRestores | services/execution/sap.py:351-377 | After any number of successful writes, of any mix of date changes and splits, undoing them last first succeeds and restores the quantity and date of every line. |
| ScheduleLines.UndoInverts | services/execution/sap.py:170-201 | Undoing a write, on any state with the contents it left, gives the contents before it. |
| ScheduleLines.AppliesToPrepared | services/execution/sap.py:80-119 | A write that succeeds finds its line exactly as its undo was prepared from it. |
| ScheduleLines.SplitsKeepApart | services/execution/sap.py:93-119 | Two accepted splits of different lines of one item never write the same line. |
| ScheduleLines.SplitsConserveQuantity | services/execution/sap.py:93-119 | Executing any list of date changes and splits in full leaves the total quantity on order as it was. |
| ScheduleLines.ActionAddsNothing | services/execution/sap.py:101-104 | The parts of an accepted split sum to the original line. |
| Projecting.Project | services/optimizer/projection.py:116-184 | The projection is the sampled levels, stock-outs and line-stop windows of the finished event loop over the movements dated up to the horizon, overdue ones at once, in time order. |
| Projecting.EventLoop | services/optimizer/projection.py:125-158 | The loop leaves the breaks, stock-outs and windows of the simulation, the last window open when stock is out at the horizon. |
| Projecting.EventsAreMovements | services/optimizer/projection.py:119-123 | The events are the movements dated up to the horizon, each exactly once, at the later of its own time and now, with its quantity, name and reference, in time order and those of one moment in the order given. |
| Projecting.EventsCounted | services/optimizer/projection.py:119-123 | Counted over the inputs' movements: the events hold each as often as the inputs do once overdue ones are moved to now, and none beyond the horizon. |
| Projecting.WindowListsOrders | services/optimizer/projection.py:168-182 | A line stop lists, in order of need, the orders of exactly those requirements that fall in it, start inclusive and end exclusive, an open one up to the horizon; its units short are the consumption of its whole seconds. |
| Projecting.PointsHourlyThenDaily | services/optimizer/projection.py:164-165 | Points are given at every hour of the first three days and at every day after them up to the horizon. |
| StockProjection.AdvanceSound | services/optimizer/projection.py:134-143 | One stretch of consumption leaves the reference stock, never negative, and exactly one line stop for each stock-out noted, in order and disjoint. |
| StockProjection.MeetSound | services/optimizer/projection.py:147-156 | A receipt or issue leaves stock that is never negative, out of stock exactly when stopped, and exactly one line stop for each stock-out, in order and disjoint. |
| ProjectionTheorems.PointZeroExactlyInStop | services/optimizer/projection.py:160-184 | For every input with a positive rate a projected point is never negative, is zero exactly inside a reported line stop (start inclusive, end exclusive, an open one to the horizon), and equals the reference stock. |
| ProjectionTheorems.OneStopPerStockout | services/optimizer/projection.py:128-183 | One window per stock-out, starting at it; windows ordered and disjoint; only the last may be open. |
| StockProjection.ZeroExactlyWhenStopped | services/optimizer/projection.py:128-162 | At every moment up to the horizon the sampled level is the reference stock and is zero exactly in a line stop, despite second-rounded stock-out times. |
| ProjectionTheorems.PointNearExact | services/optimizer/projection.py:112-156 | At any instants, the exact continuous stock lies at most the cut-off fractions of seconds below the projected point and at most half a second of consumption per reported stock-out above it; nothing is cut off on whole seconds. |
| ProjectionExact.RefinesExact | services/optimizer/projection.py:112-156 | At any instants, exact minus projected stock lies between minus the consumption of the cut-off fractions of seconds and the rounding allowance of the stock-outs met. |
| ProjectionExact.FractionsUnbooked | services/optimizer/projection.py:108-143 | Finding, at an input: with a movement half a second in, a sample one second from now shows a whole second's consumption too much stock. |
| ProjectionExact.NeverAboveExact | services/optimizer/projection.py:108-162 | Finding: the projected stock never exceeds the exact one, whatever the stock on hand, exactly when the sampled moment and every movement up to it are whole seconds from now. |
| ProjectionExact.CutExactly | services/optimizer/projection.py:108-109 | Consumption is cut off exactly when some instant up to the moment is not on a whole second. |
| ProjectionExact.ValueNearExact | services/optimizer/projection.py:108-162 | The same bounds for the sampled level, with the upper one in terms of the stock-outs the loop reports. |
| ProjectionExact.AllowanceCounts | services/optimizer/projection.py:112-113 | The allowance is the number of stock-outs so far times rate/7200. |
| StockProjection.RoundMonotone | services/optimizer/projection.py:112-113 | Half-even rounding is monotone. |
| ProjectionTheorems.MoreNeverLowersAPoint | services/optimizer/projection.py:116-184 | More stock on hand or larger movements at the same times never lower a sample. |
| ProjectionTheorems.MoreNeverStopsTheLine | services/optimizer/projection.py:116-184 | They never stop the line at a moment it ran before. |
| ProjectionTheorems.MoreNeverAddsUnitsShort | services/optimizer/projection.py:85-87 | They never raise the total of units short. |
| ReceiptHistory.FillLine | services/dialogue/history.py:84-96 | One line takes from the receipts in order until filled; what is split stays for later lines. |
| ReceiptHistory.MatchReceipts | services/dialogue/history.py:79-107 | Lines by due date take from receipts by posting date, each from what the ones before left. |
| ReceiptHistory.ServedInOrder | services/dialogue/history.py:79-82 | Lines are served by due date and then number, receipts used by posting date and then document, none lost or taken twice. |
| ReceiptHistory.ReceiptsConserved | services/dialogue/history.py:79-107 | For any selection of receipts, units assigned over all lines plus units left are never fewer than the units received, and are exactly those unless a line of negative quantity meets a selected receipt larger than it. |
| ReceiptHistory.LineConserves | services/dialogue/history.py:84-96 | Matching one line loses nothing, and invents nothing exactly when its quantity is not negative or no selected receipt is larger than it. |
| ReceiptHistory.LineByDay | services/dialogue/history.py:84-96 | By any day a line has received the smaller of its quantity and what was available; later lines get the excess. |
| ReceiptHistory.MatchingIsCumulative | services/dialogue/history.py:79-107 | The closed form: by any day a line has exactly the part of its quantity that cumulative receipts cover beyond the cumulative demand of the lines before it. |
| ReceiptHistory.CumulativeUnlessNegative | services/dialogue/history.py:79-107 | The closed form holds for the lines up to a given one, on all days, exactly when none of them is negative. |
| ReceiptHistory.UnitsInventedOnlyByNegativeLines | services/dialogue/history.py:79-107 | Finding: with positive receipts no unit is invented exactly when all receipts are used up before the first line of negative quantity, if there is one. |
| ReceiptHistory.NegativeLineCreatesUnits | services/dialogue/history.py:83-96 | Finding, at an input: a receipt of five units becomes one of eight when it passes a line of minus three. |
| SupplierReliability.Compute | services/dialogue/reliability.py:42-101 | Rejects exactly the inputs the source rejects; otherwise sample size, on-time, mean delay, nearest-rank 90th percentile and partial rate of the lines due in the window, by their meaning. |
| SupplierReliability.ReadReceipts | services/dialogue/reliability.py:67-79 | The pass over the sorted receipts finds the first day by which they reach the quantity. |
| SupplierReliability.ReadLine | services/dialogue/reliability.py:63-81 | A line is accepted exactly when it and its receipts are positive, sourced and not posted later than today. |
| SupplierReliability.Tally | services/dialogue/reliability.py:60-85 | Counts of on-time and partial lines and each line's days late. |
| SupplierReliability.WindowExactly | services/dialogue/reliability.py:52-59 | The lines looked at are, as often as they are given, exactly those of this supplier and material due today or within the window before it. |
| SupplierReliability.SumOfSorted | services/dialogue/reliability.py:93-96 | The mean delay does not depend on the order the delays are summed in. |
| SupplierReliability.CompletionUnique | services/dialogue/reliability.py:67-79 | At most one day is the first to reach the quantity. |
| SupplierReliability.OnTimeIsCompletedInTime | services/dialogue/reliability.py:80-81 | A line is on time exactly when receipts posted by its due date reach its quantity. |
| SupplierReliability.Rank90IsNearest | services/dialogue/reliability.py:89-97 | The chosen element has at least nine tenths of the values no larger and fewer than nine tenths smaller. |
| SupplierReliability.CompletionIsCumulative | services/dialogue/reliability.py:67-85 | Across both services: the completion date found for schedule line i is the earliest posting date by which cumulative receipts reach cumulative demand through line i, and none exactly when they never do. |
| PortfolioDetection.Resources | services/optimizer/portfolio.py:32-47 | A case claims its own stock and whatever its candidates arriving within the horizon draw on, and nothing else. |
| PortfolioDetection.ClaimsExactly | services/optimizer/portfolio.py:32-47 | A case claims its own stock; the donor's stock of each transfer; for each air freight the lane to its own plant and the supplier's ready units of its own material; those also for each alternate order; each only by candidates that arrive between now and thirty days on. |
| PortfolioDetection.ActiveExactly | services/optimizer/portfolio.py:52-54 | The cases compared are those not closed, each as often as it is given, by case id. |
| PortfolioDetection.Compare | services/optimizer/portfolio.py:56-66 | The neighbour table holds exactly the overlapping pairs, with what they share. |
| PortfolioDetection.Component | services/optimizer/portfolio.py:69-79 | The worklist collects exactly the cases linked to its root, and ends because the unseen set shrinks. |
| PortfolioDetection.SharedOf | services/optimizer/portfolio.py:81-83 | The shared resources are those some pair inside the component shares. |
| PortfolioDetection.Group | services/optimizer/portfolio.py:67-85 | Exactly the connected components of two cases or more, each case in at most one, already in order. |
| PortfolioDetection.Detect | services/optimizer/portfolio.py:50-85 | The portfolios of the cases that are not closed, by the claims of each. |
| PortfolioDetection.PortfoliosShareNothing | services/optimizer/portfolio.py:50-85 | Cases of two portfolios never claim a common resource. |
| PortfolioDetection.OutsidersCompeteWithNobody | services/optimizer/portfolio.py:80 | A case in no portfolio shares no resource with any other case. |
| PortfolioOffers.ResourcesOf | services/optimizer/runtime.py:261-290 | The resources one option draws on, or none when an action of it has no sourced capacity. |
| PortfolioOffers.SolvableApartUnlessStray | services/optimizer/portfolio.py:32-85 | Finding: what detection grouped can be solved apart, for every capacity and every allocation within the offers, exactly when no case offers, by options that all arrive outside the horizon, a resource that a case of another portfolio offers too. |
| PortfolioOffers.SolvableApartWithinHorizon | services/optimizer/portfolio.py:36-38 | When every offered option arrives within the horizon, allocations that respect a capacity in each portfolio respect it together. |
| PortfolioOffers.SolvableApartExactly | services/optimizer/portfolio.py:50-85 | Portfolios can be solved apart exactly when no two cases of different portfolios offer the same resource. |
| PortfolioOffers.StrayIsOutsideHorizon | services/optimizer/portfolio.py:36-38 | A resource is offered but not claimed exactly when an offered option draws on it and every option drawing on it arrives outside the horizon. |
| PortfolioOffers.LateOffersOvercommit | services/optimizer/runtime.py:292-342 | Finding, at an input: four cases at two plants, with transfers from one donor that arrive a microsecond after the horizon, form two portfolios that each fit its ten units and together take twenty. |
| PortfolioSolver.Solve | services/optimizer/solver.py:104-179 | With a solver whose points are feasible, and least when OPTIMAL, a valid problem always gets an answer that passes the check and is never INFEASIBLE; an invalid one is refused, and every answer with an objective is what some feasible point says. |
| PortfolioSolver.Validate | services/optimizer/solver.py:67-101 | A problem is accepted exactly when ids and resources are unique, every need, candidate and capacity is in range and sourced, and candidates name only known cases and resources, none twice. |
| PortfolioSolver.CheckResult | services/optimizer/solver.py:182-216 | An answer passes exactly when its groups are apart, each allocation is within its candidate's size and covers no more than it ships, no capacity is exceeded, each need is covered or left uncovered in full, and the objective is what the allocations cost. |
| SolverTheorems.CoversOnlyInTime | services/optimizer/solver.py:129-170 | In every answer with an objective, an allocation is of a candidate of its own case and within its size, and each amount it covers is positive and of a need of that case due no earlier than the candidate arrives, none beyond the need. |
| SolverTheorems.CoverableExactly | services/optimizer/solver.py:117-170 | Some feasible solution has a candidate cover k units of a need exactly when both are of one case, the candidate arrives by the due date, neither is smaller than k, and each resource it draws on has k units, or all the candidate's when it cannot be sized. |
| PortfolioSolver.FeasiblePasses | services/optimizer/solver.py:117-216 | Any solution of the posted constraints, after unchosen actions are dropped, respects every capacity and group, conserves each need, covers no more than it ships and has the recomputed objective. |
| PortfolioSolver.NothingFeasible | services/optimizer/solver.py:115-143 | Doing nothing satisfies every constraint. |
| PortfolioSolver.AllocationsCover | services/optimizer/solver.py:157-170 | What a need reads back out of the reported allocations is what the solution covers of it. |
| PortfolioSolver.AllocationsUse | services/optimizer/solver.py:198-203 | Dropping unchosen actions changes no resource use. |
| PortfolioSolver.AllocationsCost | services/optimizer/solver.py:211-213 | Dropping unchosen actions changes no cost. |
| PortfolioSolver.GroupsStayApart | services/optimizer/solver.py:188-191 | No two reported allocations share an exclusive group. |
| PortfolioBaseline.Saving | services/optimizer/runtime.py:393-409 | If the joint solve is OPTIMAL and no exclusive group spans two cases, the saving over each case alone is never negative, in any order of cases. |
| PortfolioBaseline.Alone | services/optimizer/runtime.py:347-367 | When every solve answers, the one-by-one total is the cost of a feasible point of the joint problem; there is no total only when some case got no answer. |
| PortfolioBaseline.TakeAll | services/optimizer/runtime.py:363-366 | Each capacity falls by exactly what the allocations use of it. |
| PortfolioBaseline.TakeOne | services/optimizer/runtime.py:364-366 | One allocation comes out of each of its candidate's resources. |
| PortfolioBaseline.EventOfCase | services/optimizer/runtime.py:71-81 | The rows of one case are those of the joint problem that belong to it, and none when it has no needs. |
| PortfolioBaseline.EventKeepsExactly | services/optimizer/runtime.py:71-81 | The joint problem has every need, and every candidate of a case with needs, as often as the inputs do; that of one case has those of the case; neither has any other. |
| PortfolioBaseline.CombinedFeasible | services/optimizer/solver.py:117-143 | Solutions of all cases side by side solve the joint problem when together they fit the capacities. |
| RoutingTheorems.RefusedExactly | services/routing/logic.py:92-115 | Under a sensible policy a plan is refused, Tier 3 without parts, exactly when: the kill switch is on, the run limit is hit, the hash differs from the verified one, the verification is missing or not 0 to 60 seconds old, chosen options repeat or are not grounded, a chosen option lacks a check or has a foreign one or no evidence, V-01 or V-09 of the plan is missing, a blocking check of the plan or a chosen option failed, or confidence is below the minimum. |
| RoutingTheorems.RoutedOnlyIfClear | services/routing/logic.py:86-116 | A Tier 1 or 2 route implies that none of these holds. |
| RoutingTheorems.RaisesOnly | services/routing/logic.py:86-161 | Routing raises for every policy out of range, and otherwise only when nothing or an unknown option is chosen. |
| RoutingTheorems.TierOneExactly | services/routing/logic.py:118-158 | A plan that is not refused is approved as a whole exactly when it costs at most the auto limit, every chosen option can be taken back and every check of the plan and of them passed, blocking or not. |
| RoutingTheorems.AutoExactly | services/routing/logic.py:118-125 | Options may go without a person exactly when there are some, they cost at most the limit, can be taken back, are confident enough, and every check of the plan and of each of them passed. |
| RoutingTheorems.WithoutAPerson | services/routing/logic.py:92-158 | Whatever a route approves without a person meets that, with the kill switch off, the run limit not hit and the plan unchanged since it was verified. |
| RoutingTheorems.PersonExactly | services/routing/logic.py:172-177 | A plan neither refused nor approved as a whole goes to a person exactly when somebody's limit at the plant, valid today, covers all that has to wait; otherwise it is Tier 3. |
| RoutingTheorems.LeastLimitApproves | services/routing/logic.py:49-62 | Its approver has the least such limit, ties going by user id. |
| RoutingTheorems.SplitExactly | services/routing/logic.py:159-176 | A Tier 2 plan is split exactly when stock runs out before the window and the lead time of every chosen option, and some proper selection may go without a person. |
| RoutingTheorems.UrgentPartIsLast | services/routing/logic.py:169-171 | Of the selections that may go without a person the urgent part has the largest coverage, and of equal ones the last tuple of ids, compared as Python compares tuples. |
| RoutingTheorems.DeadlineExactly | services/routing/logic.py:136-141 | The deadline is the latest moment within the window at which each waiting option can still arrive before the projected stock-out without it, or before the case's own where none is projected for it. |
| RoutingTheorems.PartSays | services/routing/logic.py:127-155 | A part's cost and confidence are those of its options; a Tier 1 part is sampled exactly when its sample is below the audit share and names nobody; a waiting part has a deadline and a reminder halfway to it. |
| RoutingTheorems.PartIsNamed | services/routing/logic.py:128-129 | A part is identified by the plan's hash and its own options, sorted. |
| RoutingTheorems.CostsAdd | services/routing/logic.py:121-128 | Cost and coverage of options are the sums of their own. |
| Routing.RoutePartitions | services/routing/logic.py:157-177 | A Tier 1 or 2 route splits the chosen options, and their cost, without loss or overlap. |
| Routing.AutoApprovedWithinLimit | services/routing/logic.py:118-125 | All that is approved without a person is one part, which may be approved so and costs at most the auto limit. |
| Routing.UrgentPartCoversMost | services/routing/logic.py:159-176 | When some proper subset may be auto-approved, the plan is split exactly when it is urgent, and then the urgent part covers at least as much as any such subset. |
| Routing.ImmediateCoversMost | services/routing/logic.py:162-171 | The selected subset qualifies and has maximal coverage; none is selected only when none qualifies. |
| Routing.CombinationsComplete | services/routing/logic.py:162-167 | Combinations of a size are exactly the subsequences of that size. |
| Routing.ProperSubsetsComplete | services/routing/logic.py:162-167 | The candidates are exactly the proper nonempty subsequences of the chosen options. |
| Routing.EligibleSmallestFirst | services/routing/logic.py:49-62 | The eligible approvers are exactly the sufficient limits, least first. |
| Routing.PendingApprover | services/routing/logic.py:127-155 | The waiting part goes to the least sufficient approver, with another person as backup exactly when there is one, and a deadline no later than the window or any action's last useful start. |
| Routing.DeadlineInTime | services/routing/logic.py:136-141 | The deadline is the latest moment satisfying those bounds. |
| ApprovalTheorems.EndsOnceForGood | services/routing/store.py:135-501 | Over all interleavings of save, decide, tick and reallocate with changing plans, limits and kill switch: a part is at most one of approved, rejected, expired or superseded by a new plan, what it ended as never changes, and exactly one PlanApproved exists iff it is Tier 1 or approved. |
| ApprovalTheorems.RouteIsAcceptable | services/routing/store.py:121-151 | The parts of every route, as they are stored, are new, of Tier 1 or, with an approver, Tier 2, and at most one of them waits for a person: what the approval records take a saved route to be. |
| ApprovalTheorems.AnnouncedOnce | services/routing/store.py:185-194 | However requests interleave, each message is put in the outbox at most once: a route, proposal, reallocation or approval, and a part's rejection, reminder and expiry. |
| ApprovalTheorems.DecisionIsGuarded | services/routing/store.py:231-327 | When a decision is written, at that moment the kill switch is off, the plan version is current, and the decider is the part's approver, whose limit is for the part's plant, valid that day and no less than its cost; the part is neither expired nor superseded by a new plan. |
| ApprovalTheorems.OffExactly | services/routing/store.py:257-258 | The kill switch is off exactly when it reads off, false or 0, in whatever case. |
| ApprovalTheorems.OnlyDecideDecides | services/routing/store.py:260-327 | No other transaction writes a decision. |
| ApprovalTheorems.SupersededDecidedOnlyIfEscalated | services/routing/store.py:231-239 | A superseded part is ever decided only when it was superseded under its own version, by an escalating reallocation. |
| ApprovalTheorems.SupersededDecidable | services/routing/store.py:267-294 | The decision on a superseded part commits exactly when the superseding version is the part's own. |
| ApprovalWitnesses.EscalatedPartStillApproved | services/routing/store.py:357-403 | Finding, as a run from a first state: a route is saved, a reallocation escalates the case, and its superseded part is then approved and announced. |
| Reassignment.ReassignedExactlyIfExpiredSince | services/routing/store.py:72-97 | Finding: a save that read who had missed an approval at one state and stores its route after any moves of anybody assigns an approver who has let one expire exactly when one of the moves between was such an expiry of that approver. |
| ApprovalWitnesses.StaleRouteReassigns | services/routing/store.py:72-97 | Finding, as a run from a first state: a save that raced an expiry hands the case back to the approver who let it expire. |
| ApprovalWitnesses.OneApproverExpiresTwice | services/routing/store.py:99-183 | Finding, as a run from a first state: with no stale read, two routes for one approver are open at once and both expire. |
| Reassignment.StaysApartExactlyIfFresh | services/routing/store.py:72-183 | Finding: storing a route keeps hand-over safe, however the run goes on with later routes stored in the same way, exactly when its approver has then neither let an approval of the case expire nor one still open. |
| Reassignment.RunMisses | services/routing/store.py:456-475 | Over any run, the approvers who missed an approval are those who had, and those an approval of whom expires in it. |
| Approvals.MoveKeeps | services/routing/store.py:99-516 | Every read and every conditional transaction keeps the approval invariant. |
| Approvals.DecideCommitKeeps | services/routing/store.py:260-327 | A decision commits only onto the part as it was read, and keeps endings exclusive and announcements exact. |
| Approvals.TickCommitKeeps | services/routing/store.py:456-503 | A reminder or expiry commits only onto the part as it was read, and keeps the same. |
| Approvals.ReallocateCommitKeeps | services/routing/store.py:358-436 | A reallocation supersedes only open parts as they were read. |
| Approvals.SaveCommitKeeps | services/routing/store.py:112-183 | A route is saved once with all its parts and one approval per Tier 1 part. |
| HandOver.HandOverEnds | services/routing/store.py:65-97 | When each route is stored for an approver with none of the case's approvals expired or open, no approver is assigned after letting one expire, each expiry has another approver, and there are at most as many expiries as approvers. |
| HandOver.MoveHandsOver | services/routing/store.py:456-475 | Each expiry takes a new approver out of those who may still be assigned. |
| Escalation.RetriedTimerEscalates | services/routing/store.py:438-516 | Once an approval expired with nobody to take over, then in every interleaving in which two steps of a new timer are taken the case no longer awaits approval, unless it is set back from outside. |
| Escalation.NobodyLeft | services/routing/store.py:456-463 | When every approver with a limit has missed an approval of the case or holds the expiring one, nobody can take it over. |
| Escalation.ExpiryAbandons | services/routing/store.py:456-475 | An expiry leaves the approval with nobody exactly when its timer found no backup. |
| Escalation.ExpiredStays | services/routing/store.py:438-456 | An approval that expired never changes again. |
| Escalation.LastExpiryEscalates | services/routing/store.py:438-516 | Undisturbed, the timer that finds nobody to take over an expiring approval escalates the case by itself. |
| ControlStores.ControlStore.SaveRoute | services/routing/store.py:99-183 | Alone: a route is stored once, for the current version, with its hash, parts and messages; a repeated save of the same hash is answered as such, and otherwise nothing changes. |
| ControlStores.ControlStore.MakeDecision | services/routing/store.py:196-327 | Alone: decides exactly when an approver with an acceptable comment names the hash of the current route, whose one part for a person is open and assigned to this actor with a sufficient limit, and the kill switch is off; the same submission again is answered as such; a late one runs the timer instead. |
| ControlStores.ControlStore.RunTimer | services/routing/store.py:438-516 | Alone: reminds, or expires and names the backup, the one of least sufficient limit who is not the approver and let no approval of the case expire, or escalates when there is nobody; otherwise nothing changes. |
| ControlStores.ControlStore.Resize | services/routing/store.py:329-436 | Alone: supersedes every open part of the current route, and proposes the next version or escalates, exactly when all its parts wait for a person. |
| AuditChain.VerifyChain | services/shared/audit.py:69-77 | Lists the events whose link or hash does not hold, in order; empty exactly when the chain verifies from genesis. |
| AuditChain.HeadFixesHistory | services/shared/audit.py:39-77 | With a collision-free digest, any sequence that verifies and ends at the recorded head is the recorded one, modulo the canonical form of payloads. |
| AuditChain.ChainNeverForks | services/shared/audit.py:118-198 | Over all interleavings of writers, retries and crashes the chain verifies, its ids strictly increase, its head is its last event, it only grows, and the extra writes committed are exactly those of its events. |
| AuditChain.UnmovedIsCurrent | services/shared/audit.py:144-148 | The head condition compares hashes only; without collisions an unmoved hash means an unmoved head. |
| AuditChain.CommitExtends | services/shared/audit.py:80-85 | The event linked to the current head extends the chain with a larger id. |
| AuditChain.NextIdLeast | services/shared/audit.py:80-85 | The next id is the least that is no smaller than the fresh one and larger than the last one of the chain. |
| AuditChain.FiveAttempts | services/shared/audit.py:119-198 | Over all interleavings a writer puts its event to the table at most five times, and gives up exactly after the fifth. |
| AuditChain.AuditWriter.Record | services/shared/audit.py:105-198 | A writer alone appends its event unless an extra condition fails, also from an assumed head that has moved on. |
| AuditChain.DecisionRecordSeesAll | services/reporting/decision.py:55-65 | Events that verify and end at the stored head are all that any writers recorded. |
| AuditChain.RereadVerifies | services/shared/audit.py:105-219 | A chain read back from storage verifies exactly when every payload in it lasts through dump and storage. |
| Storage.CanonicalSurvivesStorage | services/shared/audit.py:39-49 | Finding: the hashed form of a payload survives dumping, storing and reading back exactly when, at any depth, it has no field that is None, no decimal spelled with an exponent or a trailing zero, no float that is minus zero or a fraction so spelled, and no date that str spells unlike the dump. |
| Storage.SpelledAsHashed | services/shared/audit.py:47-48 | A decimal is dumped as it is hashed exactly when its spelling has no exponent and no trailing zero behind the point. |
| Storage.WholeAsHashed | services/shared/dynamo.py:47-56 | A whole number read back as an integer is hashed as before exactly when it was not minus zero. |
| Storage.WholeExactly | services/shared/dynamo.py:54-55 | A stored number is read back as an integer exactly when some integer has its value. |
| Storage.FullExactly | services/shared/audit.py:53 | A dumped decimal is written in full exactly when its exponent is not positive and it is no smaller than a millionth; zero when it has at most six places. |
| Storage.SpellingsLost | services/shared/audit.py:47-163 | Finding, at an input: a rate of 1.50 is hashed as 1.5 and read back as 1.50, and a float of 1e-7 comes back with an exponent. |
| Storage.StoredOnce | services/shared/dynamo.py:21-36 | A second trip through storage changes nothing. |
| Storage.NumberAndSpellingAlike | services/shared/audit.py:47-48 | Finding: a number and the string that spells it hash alike. |

## Left out

- Workflows.Workflow.Run: journal and ledger calls succeed or fail only by their conditions, and nobody else
  writes during the run; a storage call that is lost, and other executors, are covered by JournalRaces and
  LedgerRaces. Which audit events are written is not part of the log.
- Workflows.Workflow.Rollback: requires steps that are uniquely indexed, as those of every loaded execution are
  (Loading.LoadedInOrder).
- JournalRaces.FinishedRunActsNoMore: tracks statuses only; that the stored results are returned unchanged is
  SagaTheorems.CompletedReplays.
- JournalRaces.SentAtMostOnce: before a run holds stock the model may always stop it, which stands for the
  checks of stored steps and for revalidation.
- ProjectionTheorems.PointZeroExactlyInStop: says nothing of samples beyond the horizon, which there are only
  for fewer than three days; the one caller projects thirty.
- ReceiptHistory.MatchingIsCumulative: for schedule lines whose quantity is not negative, which is exactly when it
  holds (ReceiptHistory.CumulativeUnlessNegative).
- JournalRaces.ClaimedRunFindsNoSteps: for runs whose steps belong to one part each, as the parts of a route
  share no option.
- PortfolioOffers.SolvableApartUnlessStray: one capacity for a resource in every portfolio; the units a supplier
  has ready are summed over the cases of each portfolio in the source.
- PortfolioDetection.Detect: resource keys are structured, so the source's `#`-joined strings are taken
  not to collide; the final sort is left out because the portfolios are proved to be in order already.
- PortfolioBaseline.Saving: for candidates with distinct resources, unique ids and no exclusive group across
  cases; groups inside one case are allowed although the service never sets any.
- PortfolioSolver.Solve: time limits, worker counts and the rounding of a floating objective; whether instants
  carry a time zone.
- HandOver.HandOverEnds: holds whichever of several eligible backups an expiring part names, although the source
  takes the one of least limit (ControlStores.ControlStore.RunTimer); the name is a record only, since an expired
  part cannot be decided.
- ControlStores.ControlStore.SaveRoute: that the route's hash is the plan's is asked of the caller; blank
  comments are those of spaces, tabs and line ends.
- Routing.RoutePartitions: an option chosen but absent from the plan is an error here, as an exception is there.
- ScheduleLines.CompensationRestores: stock transfers, alternate orders and freight bookings are not on the
  schedule-line map; the saga treats their writes as opaque.
- SupplierReliability.Compute: source references are kept as a set, and time zones are not modelled.
- Storage.CanonicalSurvivesStorage: the rounding of numbers beyond twenty-eight digits.
- The donor and option allocations read back from a portfolio record, the re-sizing of plans and planner
  constraints: selections over a record, only easy members.
- Case status transitions, notifications, goods-receipt schedules and the state-machine handler: I/O and a
  finite table.
- AWS, SAP and the event bus themselves, the language-model agent, guardrails, document reading, messaging,
  HTTP routing and presentation.
- Float and decimal precision beyond exact reals, record expiry and administrative resets.
