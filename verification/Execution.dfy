/**
 One plan part to execute, its expansion into single writes and the key of each write:
 the data of services/execution/workflow.py.
 */
module Executions {
  import opened Basics
  import opened Plans
  import opened WriteJournal
  import opened StockLedger

  datatype Step = Step(index: int, action: Action, target: string, sourceRefs: seq<string>, substep: nat)

  datatype Transfer = Transfer(place: Place, qty: real, available: real, sourceRef: string)

  datatype Execution = Execution(
    caseId: string, version: int, partId: string, versionHash: string,
    steps: seq<Step>, transfers: seq<Transfer>)

  function Kind(action: Action): string {
    match action
    case CreateSto(_, _, _, _, _) => "CREATE_STO"
    case ChangePoDate(_, _, _, _) => "CHANGE_PO_DATE"
    case SplitPoScheduleLine(_, _, _, _) => "SPLIT_PO_SCHEDULE_LINE"
    case BookAirFreight(_, _, _, _, _) => "BOOK_AIR_FREIGHT"
    case CreatePoAlternate(_, _, _, _, _) => "CREATE_PO_ALTERNATE"
  }

  // ----- Expansion -----

  /** One write per part of a split, with its own target. */
  function Part(step: Step, i: nat): Step {
    step.(target := step.target + "#part#" + Digits(i), substep := i)
  }

  function Parts(step: Step): seq<Step> {
    if step.action.SplitPoScheduleLine? then seq(|step.action.parts|, i requires 0 <= i => Part(step, i)) else [step]
  }

  function Expanded(steps: seq<Step>): seq<Step> {
    if steps == [] then [] else Parts(steps[0]) + Expanded(steps[1..])
  }

  lemma {:induction false} ExpandedAppend(a: seq<Step>, b: seq<Step>)
    ensures Expanded(a + b) == Expanded(a) + Expanded(b)
  {
    if a == [] {
      assert a + b == b;
    } else {
      assert (a + b)[1..] == a[1..] + b;
      ExpandedAppend(a[1..], b);
    }
  }

  method Expand(execution: Execution) returns (expanded: Execution)
    ensures expanded == execution.(steps := Expanded(execution.steps))
  {
    var steps: seq<Step> := [];
    var i := 0;
    while i < |execution.steps|
      invariant 0 <= i <= |execution.steps|
      invariant steps == Expanded(execution.steps[..i])
    {
      var step := execution.steps[i];
      ExpandedAppend(execution.steps[..i], [step]);
      assert execution.steps[..i + 1] == execution.steps[..i] + [step];
      assert Expanded([step]) == Parts(step) + Expanded([]);
      if step.action.SplitPoScheduleLine? {
        steps := steps + seq(|step.action.parts|, k requires 0 <= k =>
          step.(target := step.target + "#part#" + Digits(k), substep := k));
      } else {
        steps := steps + [step];
      }
      i := i + 1;
    }
    assert execution.steps[..i] == execution.steps;
    expanded := execution.(steps := steps);
  }

  // ----- Keys -----

  function ExecKey(e: Execution): Key {
    Exec(e.caseId, e.version, e.partId)
  }

  /** The index is the action's index in the whole plan, never renumbered inside a part. */
  function StepKey(e: Execution, step: Step): Option<Key> {
    IdempotencyKey(e.caseId, e.version, step.index, Kind(step.action), step.target)
  }

  ghost predicate UniquelyIndexed(steps: seq<Step>) {
    forall i, j :: 0 <= i < j < |steps| ==> steps[i].index != steps[j].index || steps[i].target != steps[j].target
  }

  ghost predicate Distinct<T>(xs: seq<T>) {
    forall i, j :: 0 <= i < j < |xs| ==> xs[i] != xs[j]
  }

  ghost predicate KeysOf(e: Execution, keys: seq<Key>) {
    && |keys| == |e.steps|
    && forall i :: 0 <= i < |keys| ==> StepKey(e, e.steps[i]) == Some(keys[i])
  }

  /** Uniquely indexed steps have distinct idempotency keys. */
  lemma KeysDistinct(e: Execution, keys: seq<Key>)
    requires UniquelyIndexed(e.steps) && KeysOf(e, keys)
    ensures Distinct(keys) && forall i :: 0 <= i < |keys| ==> keys[i].Hashed?
  {
    hide IdempotencyKey;
    forall i, j | 0 <= i < j < |keys| ensures keys[i] != keys[j] {
      if keys[i] == keys[j] {
        var a, b := e.steps[i], e.steps[j];
        KeyIdentifiesWrite(e.caseId, e.version, a.index, Kind(a.action), a.target,
                           e.caseId, e.version, b.index, Kind(b.action), b.target);
      }
    }
    forall i | 0 <= i < |keys| ensures keys[i].Hashed? {
      StepKeyHashed(e, e.steps[i]);
    }
  }

  /** The same kind of action. */
  predicate SameKind(a: Action, b: Action) {
    && a.CreateSto? == b.CreateSto? && a.ChangePoDate? == b.ChangePoDate?
    && a.SplitPoScheduleLine? == b.SplitPoScheduleLine? && a.BookAirFreight? == b.BookAirFreight?
  }

  /** Steps of any two executions have the same key exactly when they are the same write of the same plan. */
  lemma SameKeySameWrite(e: Execution, f: Execution, a: Step, b: Step)
    requires StepKey(e, a).Some?
    ensures StepKey(e, a) == StepKey(f, b) <==>
      && e.caseId == f.caseId && e.version == f.version
      && a.index == b.index && a.target == b.target && SameKind(a.action, b.action)
  {
    hide IdempotencyKey;
    if StepKey(e, a) == StepKey(f, b) {
      KeyIdentifiesWrite(e.caseId, e.version, a.index, Kind(a.action), a.target,
                         f.caseId, f.version, b.index, Kind(b.action), b.target);
    }
  }

  /** A step has a key exactly when its plan is numbered and neither its case nor its target breaks the key. */
  lemma StepKeyGiven(e: Execution, step: Step)
    ensures StepKey(e, step).Some? <==>
      && e.version > 0 && step.index >= 0
      && e.caseId != "" && step.target != "" && '|' !in e.caseId && '|' !in step.target
  {
    hide IdempotencyKey;
    KeyGiven(e.caseId, e.version, step.index, Kind(step.action), step.target);
  }

  lemma StepKeyHashed(e: Execution, step: Step)
    ensures StepKey(e, step).Some? ==> StepKey(e, step).value.Hashed?
  {}
}
