/**
 Purchase-order schedule lines as services/execution/sap.py writes them: date changes and splits,
 with their undo records. SAP is a map of lines; every write gives a line a new ETag.
 */
module ScheduleLines {
  import opened Basics
  import opened Plans
  import opened Executions

  datatype LineKey = LineKey(poNumber: string, poItem: string, line: nat)

  datatype Line = Line(qty: real, date: int, etag: nat)

  /** All schedule lines, and the next ETag SAP will hand out. */
  datatype Sap = Sap(lines: map<LineKey, Line>, clock: nat)

  datatype Recipe =
    | RestoreDate(key: LineKey, date: int, etag: nat)
    | RestoreLine(key: LineKey, qty: real, date: int, etag: nat)
    | DeleteLine(key: LineKey)

  predicate OnLines(step: Step) {
    || step.action.ChangePoDate?
    || (step.action.SplitPoScheduleLine? && step.substep < |step.action.parts|)
  }

  function TargetLine(step: Step): LineKey
    requires OnLines(step)
  {
    LineKey(step.action.poNumber, step.action.poItem,
            step.action.scheduleLine + (if step.action.SplitPoScheduleLine? then step.substep else 0))
  }

  function PartsTotal(parts: seq<SplitPart>): real {
    if parts == [] then 0.0 else PartsTotal(parts[..|parts| - 1]) + parts[|parts| - 1].qty
  }

  // ----- The four boundary calls -----

  function Prepare(sap: Sap, step: Step): Result<Recipe>
    requires OnLines(step)
  {
    var key := TargetLine(step);
    if step.action.ChangePoDate? then
      if key !in sap.lines then Err("not found") else Ok(RestoreDate(key, sap.lines[key].date, sap.lines[key].etag))
    else if step.substep == 0 then
      if key !in sap.lines then Err("not found")
      else if PartsTotal(step.action.parts) != sap.lines[key].qty
        then Err("split must preserve original schedule-line quantity")
      else Ok(RestoreLine(key, sap.lines[key].qty, sap.lines[key].date, sap.lines[key].etag))
    else if key in sap.lines then Err("split target schedule line already exists")
    else Ok(DeleteLine(key))
  }

  /** Update one line under a condition on its ETag. */
  function Updated(sap: Sap, key: LineKey, qty: real, date: int, etag: nat): Result<Sap> {
    if key !in sap.lines || sap.lines[key].etag != etag then Err("precondition failed")
    else Ok(Sap(sap.lines[key := Line(qty, date, sap.clock)], sap.clock + 1))
  }

  function Apply(sap: Sap, step: Step, recipe: Recipe): Result<Sap>
    requires OnLines(step)
  {
    var key := recipe.key;
    if step.action.ChangePoDate? then
      if !recipe.RestoreDate? || key !in sap.lines then Err("not found")
      else Updated(sap, key, sap.lines[key].qty, step.action.newDate, recipe.etag)
    else
      var part := step.action.parts[step.substep];
      if recipe.RestoreLine? then Updated(sap, key, part.qty, part.deliveryDate, recipe.etag)
      else if key in sap.lines then Err("line exists")
      else Ok(Sap(sap.lines[key := Line(part.qty, part.deliveryDate, sap.clock)], sap.clock + 1))
  }

  predicate Verifies(sap: Sap, step: Step)
    requires OnLines(step)
  {
    var key := TargetLine(step);
    && key in sap.lines
    && if step.action.ChangePoDate? then sap.lines[key].date == step.action.newDate
       else
         sap.lines[key].qty == step.action.parts[step.substep].qty
         && sap.lines[key].date == step.action.parts[step.substep].deliveryDate
  }

  function Undo(sap: Sap, step: Step, recipe: Recipe): Result<Sap>
    requires OnLines(step)
  {
    var key := recipe.key;
    if key !in sap.lines || !Verifies(sap, step) then Err("changed after execution; rollback refused")
    else
      match recipe
      case RestoreDate(_, date, _) => Updated(sap, key, sap.lines[key].qty, date, sap.lines[key].etag)
      case RestoreLine(_, qty, date, _) => Updated(sap, key, qty, date, sap.lines[key].etag)
      case DeleteLine(_) => Ok(Sap(sap.lines - {key}, sap.clock))
  }

  /** The adapter, which remembers the undo record of each step it prepared. */
  class SapBoundary {
    var sap: Sap
    var prepared: map<(int, string), Recipe>

    constructor (sap: Sap)
      ensures this.sap == sap && prepared == map[]
    {
      this.sap := sap;
      prepared := map[];
    }

    method PrepareUndo(step: Step) returns (undo: Result<Recipe>)
      requires OnLines(step)
      modifies this
      ensures sap == old(sap) && undo == Prepare(sap, step)
      ensures prepared == if undo.Ok? then old(prepared)[(step.index, step.target) := undo.value] else old(prepared)
    {
      var key := TargetLine(step);
      if step.action.SplitPoScheduleLine? && step.substep > 0 {
        if key in sap.lines {
          return Err("split target schedule line already exists");
        }
        undo := Ok(DeleteLine(key));
      } else {
        if key !in sap.lines {
          return Err("not found");
        }
        var current := sap.lines[key];
        if step.action.ChangePoDate? {
          undo := Ok(RestoreDate(key, current.date, current.etag));
        } else {
          if PartsTotal(step.action.parts) != current.qty {
            return Err("split must preserve original schedule-line quantity");
          }
          undo := Ok(RestoreLine(key, current.qty, current.date, current.etag));
        }
      }
      prepared := prepared[(step.index, step.target) := undo.value];
    }

    /** The write to SAP: one line, under a condition on its ETag. */
    method Update(key: LineKey, qty: real, date: int, etag: nat) returns (ok: bool)
      modifies this`sap
      ensures ok == Updated(old(sap), key, qty, date, etag).Ok?
      ensures sap == if ok then Updated(old(sap), key, qty, date, etag).value else old(sap)
    {
      ok := key in sap.lines && sap.lines[key].etag == etag;
      if ok {
        sap := Sap(sap.lines[key := Line(qty, date, sap.clock)], sap.clock + 1);
      }
    }

    /** Only a step prepared by this very adapter can be applied. */
    method ApplyStep(step: Step) returns (ok: bool)
      requires OnLines(step)
      modifies this
      ensures prepared == old(prepared)
      ensures ok <==>
              (step.index, step.target) in prepared && Apply(old(sap), step, prepared[(step.index, step.target)]).Ok?
      ensures sap == if ok then Apply(old(sap), step, prepared[(step.index, step.target)]).value else old(sap)
    {
      if (step.index, step.target) !in prepared {
        return false;
      }
      var undo := prepared[(step.index, step.target)];
      var key := undo.key;
      if step.action.ChangePoDate? {
        if !undo.RestoreDate? || key !in sap.lines {
          return false;
        }
        ok := Update(key, sap.lines[key].qty, step.action.newDate, undo.etag);
      } else {
        var part := step.action.parts[step.substep];
        if undo.RestoreLine? {
          ok := Update(key, part.qty, part.deliveryDate, undo.etag);
        } else {
          ok := key !in sap.lines;
          if ok {
            sap := Sap(sap.lines[key := Line(part.qty, part.deliveryDate, sap.clock)], sap.clock + 1);
          }
        }
      }
    }

    method UndoStep(step: Step, undo: Recipe) returns (ok: bool)
      requires OnLines(step)
      modifies this
      ensures prepared == old(prepared) && ok == Undo(old(sap), step, undo).Ok?
      ensures sap == if ok then Undo(old(sap), step, undo).value else old(sap)
    {
      var key := undo.key;
      if key !in sap.lines || !Verifies(sap, step) {
        return false;
      }
      var current := sap.lines[key];
      match undo
      case RestoreDate(_, date, _) => ok := Update(key, current.qty, date, current.etag);
      case RestoreLine(_, qty, date, _) => ok := Update(key, qty, date, current.etag);
      case DeleteLine(_) =>
        sap := Sap(sap.lines - {key}, sap.clock);
        ok := true;
    }
  }

  // ----- A whole execution on the lines -----

  ghost predicate AllOnLines(steps: seq<Step>) {
    forall i :: 0 <= i < |steps| ==> OnLines(steps[i])
  }

  /** Every undo was prepared from the same SAP state, before the first write. */
  ghost predicate Prepared(sap: Sap, steps: seq<Step>, recipes: seq<Recipe>) {
    && |recipes| == |steps| && AllOnLines(steps)
    && forall i :: 0 <= i < |steps| ==> Prepare(sap, steps[i]) == Ok(recipes[i])
  }

  ghost predicate EtagsPast(sap: Sap) {
    forall key :: key in sap.lines ==> sap.lines[key].etag < sap.clock
  }

  /** The first `n` writes, in order. */
  function Applied(sap: Sap, steps: seq<Step>, recipes: seq<Recipe>, n: nat): Result<Sap>
    requires n <= |steps| == |recipes| && forall i :: 0 <= i < |steps| ==> OnLines(steps[i])
  {
    if n == 0 then Ok(sap)
    else
      var before := Applied(sap, steps, recipes, n - 1);
      if before.Err? then before else Apply(before.value, steps[n - 1], recipes[n - 1])
  }

  /** The undos of the first `n` writes, last first. */
  function Unwound(sap: Sap, steps: seq<Step>, recipes: seq<Recipe>, n: nat): Result<Sap>
    requires n <= |steps| == |recipes| && forall i :: 0 <= i < |steps| ==> OnLines(steps[i])
    decreases n
  {
    if n == 0 then Ok(sap)
    else
      var before := Undo(sap, steps[n - 1], recipes[n - 1]);
      if before.Err? then before else Unwound(before.value, steps, recipes, n - 1)
  }

  /** Quantity and date of every line; ETags are SAP's own business. */
  function Contents(sap: Sap): map<LineKey, (real, int)> {
    map key | key in sap.lines :: (sap.lines[key].qty, sap.lines[key].date)
  }

  /** A line keeps the ETag it had at first only while it keeps its contents. */
  ghost predicate WrittenSince(first: Sap, sap: Sap) {
    && first.clock <= sap.clock && EtagsPast(sap)
    && forall key :: key in sap.lines ==>
         (key in first.lines && sap.lines[key] == first.lines[key]) || sap.lines[key].etag >= first.clock
  }

  lemma {:induction false} AppliedWritesSince(sap: Sap, steps: seq<Step>, recipes: seq<Recipe>, n: nat)
    requires Prepared(sap, steps, recipes) && EtagsPast(sap) && n <= |steps| && Applied(sap, steps, recipes, n).Ok?
    ensures WrittenSince(sap, Applied(sap, steps, recipes, n).value)
  {
    hide Apply, Prepare;
    if n > 0 {
      AppliedWritesSince(sap, steps, recipes, n - 1);
      ApplyWritesSince(sap, Applied(sap, steps, recipes, n - 1).value, steps[n - 1], recipes[n - 1]);
    }
  }

  lemma ApplyWritesSince(first: Sap, sap: Sap, step: Step, recipe: Recipe)
    requires OnLines(step) && WrittenSince(first, sap) && Apply(sap, step, recipe).Ok?
    ensures WrittenSince(first, Apply(sap, step, recipe).value)
  {}

  /** A write that succeeds finds its line as the undo was prepared from it. */
  lemma AppliesToPrepared(first: Sap, sap: Sap, step: Step, recipe: Recipe)
    requires OnLines(step) && EtagsPast(first) && WrittenSince(first, sap)
    requires Prepare(first, step) == Ok(recipe) && Apply(sap, step, recipe).Ok?
    ensures recipe.key == TargetLine(step)
    ensures if recipe.DeleteLine? then recipe.key !in sap.lines
            else
              recipe.key in sap.lines && recipe.key in first.lines && sap.lines[recipe.key] == first.lines[recipe.key]
  {}

  /** Undoing a write, on any state with the contents it left, brings back the contents before it. */
  lemma UndoInverts(first: Sap, sap: Sap, step: Step, recipe: Recipe, now: Sap)
    requires OnLines(step) && EtagsPast(first) && WrittenSince(first, sap)
    requires Prepare(first, step) == Ok(recipe) && Apply(sap, step, recipe).Ok?
    requires Contents(now) == Contents(Apply(sap, step, recipe).value)
    ensures Undo(now, step, recipe).Ok? && Contents(Undo(now, step, recipe).value) == Contents(sap)
  {
    AppliesToPrepared(first, sap, step, recipe);
    hide WrittenSince, EtagsPast;
    var applied := Apply(sap, step, recipe).value;
    var key := recipe.key;
    assert key in Contents(applied) && key in Contents(now) && Contents(now)[key] == Contents(applied)[key];
    var back := Undo(now, step, recipe).value;
    forall k ensures k in Contents(back) <==> k in Contents(sap) {
      assert k in Contents(now) <==> k in Contents(applied);
    }
    forall k | k in Contents(sap) ensures Contents(back)[k] == Contents(sap)[k] {
      if k != key {
        assert Contents(now)[k] == Contents(applied)[k];
      }
    }
  }

  lemma {:induction false} UnwindsFrom(first: Sap, steps: seq<Step>, recipes: seq<Recipe>, n: nat, now: Sap)
    requires Prepared(first, steps, recipes) && EtagsPast(first) && n <= |steps|
            && Applied(first, steps, recipes, n).Ok?
    requires Contents(now) == Contents(Applied(first, steps, recipes, n).value)
    ensures Unwound(now, steps, recipes, n).Ok? && Contents(Unwound(now, steps, recipes, n).value) == Contents(first)
    decreases n
  {
    hide Contents, Apply, Undo, Prepare;
    if n > 0 {
      var before := Applied(first, steps, recipes, n - 1).value;
      AppliedWritesSince(first, steps, recipes, n - 1);
      UndoInverts(first, before, steps[n - 1], recipes[n - 1], now);
      UnwindsFrom(first, steps, recipes, n - 1, Undo(now, steps[n - 1], recipes[n - 1]).value);
    }
  }

  /**
   Reverse compensation restores every schedule line: after any number of successful writes, of any
   mix of date changes and splits, undoing them last first succeeds and gives back the first contents.
   */
  lemma CompensationRestores(sap: Sap, steps: seq<Step>, recipes: seq<Recipe>, n: nat)
    requires Prepared(sap, steps, recipes) && EtagsPast(sap) && n <= |steps| && Applied(sap, steps, recipes, n).Ok?
    ensures var written := Applied(sap, steps, recipes, n).value;
      Unwound(written, steps, recipes, n).Ok? && Contents(Unwound(written, steps, recipes, n).value) == Contents(sap)
  {
    UnwindsFrom(sap, steps, recipes, n, Applied(sap, steps, recipes, n).value);
  }

  // ----- What is accepted, and what it writes -----

  /**
   A date change is accepted exactly when its line is there. Of a split, the first part is accepted exactly when
   the line is there and the parts add up to its quantity, a later part exactly when its own line is not.
   */
  lemma PreparedExactly(sap: Sap, step: Step)
    requires OnLines(step)
    ensures var action := step.action;
      var key := LineKey(action.poNumber, action.poItem, action.scheduleLine);
      var added := LineKey(action.poNumber, action.poItem, action.scheduleLine + step.substep);
      && (action.ChangePoDate? ==> (Prepare(sap, step).Ok? <==> key in sap.lines))
      && (action.SplitPoScheduleLine? && step.substep == 0 ==>
            (Prepare(sap, step).Ok? <==> key in sap.lines && sap.lines[key].qty == PartsTotal(action.parts)))
      && (action.SplitPoScheduleLine? && step.substep > 0 ==> (Prepare(sap, step).Ok? <==> added !in sap.lines))
  {}

  /** A split with parts is accepted as a whole exactly when its parts add up and no line it adds is there. */
  lemma SplitAcceptedExactly(sap: Sap, step: Step)
    requires step.action.SplitPoScheduleLine? && step.action.parts != []
    ensures var action := step.action;
      Accepted(sap, step) <==>
        && LineKey(action.poNumber, action.poItem, action.scheduleLine) in sap.lines
        && sap.lines[LineKey(action.poNumber, action.poItem, action.scheduleLine)].qty == PartsTotal(action.parts)
        && forall key :: key in sap.lines && key.poNumber == action.poNumber && key.poItem == action.poItem ==>
             key.line <= action.scheduleLine || key.line >= action.scheduleLine + |action.parts|
  {
    var action := step.action;
    forall i | 0 <= i < |action.parts|
      ensures Prepare(sap, Part(step, i)).Ok? <==>
        var key := LineKey(action.poNumber, action.poItem, action.scheduleLine + i);
        if i == 0 then key in sap.lines && sap.lines[key].qty == PartsTotal(action.parts) else key !in sap.lines
    {
      PreparedExactly(sap, Part(step, i));
    }
    hide Prepare, Part;
    if Accepted(sap, step) {
      assert Prepare(sap, Part(step, 0)).Ok?;
      forall key | key in sap.lines && key.poNumber == action.poNumber && key.poItem == action.poItem
        ensures key.line <= action.scheduleLine || key.line >= action.scheduleLine + |action.parts|
      {
        ExistingIsApart(sap, step, key);
      }
    }
  }

  /**
   A prepared write goes through exactly when its line is still as it was prepared, or still absent for a line
   it adds. It then gives the line the action's date and quantity, and touches no other line.
   */
  lemma WritesExactly(first: Sap, sap: Sap, step: Step)
    requires OnLines(step) && EtagsPast(first) && WrittenSince(first, sap) && Prepare(first, step).Ok?
    ensures var action := step.action;
      var line := action.scheduleLine + if action.SplitPoScheduleLine? then step.substep else 0;
      var key := LineKey(action.poNumber, action.poItem, line);
      var after := Apply(sap, step, Prepare(first, step).value);
      && (after.Ok? <==> (key in sap.lines <==> key in first.lines)
                         && (key in sap.lines ==> sap.lines[key].etag == first.lines[key].etag))
      && (after.Ok? ==>
            && after.value.lines.Keys == sap.lines.Keys + {key}
            && (forall other :: other in sap.lines && other != key ==> after.value.lines[other] == sap.lines[other])
            && after.value.lines[key].etag == sap.clock
            && if action.ChangePoDate? then
                 after.value.lines[key].date == action.newDate && after.value.lines[key].qty == sap.lines[key].qty
               else
                 && after.value.lines[key].qty == action.parts[step.substep].qty
                 && after.value.lines[key].date == action.parts[step.substep].deliveryDate)
  {}

  /**
   A write is undone exactly when its line still shows what it wrote: the new date, and for a split the part's
   quantity too. The line then has the date it was prepared with, after a split the quantity too, or is gone
   again, and no other line is touched.
   */
  lemma UndoesExactly(first: Sap, now: Sap, step: Step)
    requires OnLines(step) && Prepare(first, step).Ok?
    ensures var action := step.action;
      var line := action.scheduleLine + if action.SplitPoScheduleLine? then step.substep else 0;
      var key := LineKey(action.poNumber, action.poItem, line);
      var after := Undo(now, step, Prepare(first, step).value);
      && (after.Ok? <==>
            && key in now.lines
            && if action.ChangePoDate? then now.lines[key].date == action.newDate
               else
                 && now.lines[key].qty == action.parts[step.substep].qty
                 && now.lines[key].date == action.parts[step.substep].deliveryDate)
      && (after.Ok? ==>
            && (key in after.value.lines <==> key in first.lines)
            && (key in first.lines ==>
                  && after.value.lines[key].date == first.lines[key].date
                  && after.value.lines[key].qty == (if action.ChangePoDate? then now else first).lines[key].qty)
            && after.value.lines - {key} == now.lines - {key})
  {
    var action := step.action;
    var line := action.scheduleLine + if action.SplitPoScheduleLine? then step.substep else 0;
    var key := LineKey(action.poNumber, action.poItem, line);
    var after := Undo(now, step, Prepare(first, step).value);
    assert Prepare(first, step).value.key == key == TargetLine(step);
    if after.Ok? {
      assert after.value.lines - {key} == now.lines - {key};
    }
  }

  // ----- Splits -----

  /** The substeps of one split, as expansion makes them, are all prepared. */
  ghost predicate Accepted(sap: Sap, step: Step) {
    && step.action.SplitPoScheduleLine?
    && forall i :: 0 <= i < |step.action.parts| ==> Prepare(sap, Part(step, i)).Ok?
  }

  /** The first line of an accepted split exists, and no line it adds does. */
  lemma AcceptedLine(sap: Sap, step: Step, i: nat)
    requires Accepted(sap, step) && i < |step.action.parts|
    ensures TargetLine(Part(step, i)) in sap.lines <==> i == 0
  {
    assert Prepare(sap, Part(step, i)).Ok?;
  }

  lemma ExistingIsApart(sap: Sap, step: Step, key: LineKey)
    requires Accepted(sap, step) && key in sap.lines
    requires key.poNumber == step.action.poNumber && key.poItem == step.action.poItem
    ensures key.line <= step.action.scheduleLine || key.line >= step.action.scheduleLine + |step.action.parts|
  {
    var k := key.line - step.action.scheduleLine;
    if 0 < k < |step.action.parts| {
      AcceptedLine(sap, step, k);
    }
  }

  /** Two accepted splits of different lines of an item never write the same line. */
  lemma SplitsKeepApart(sap: Sap, a: Step, b: Step, i: nat, j: nat)
    requires Accepted(sap, a) && Accepted(sap, b) && i < |a.action.parts| && j < |b.action.parts|
    requires TargetLine(Part(a, 0)) != TargetLine(Part(b, 0))
    ensures TargetLine(Part(a, i)) != TargetLine(Part(b, j))
  {
    AcceptedLine(sap, a, 0);
    AcceptedLine(sap, b, 0);
    if a.action.poNumber == b.action.poNumber && a.action.poItem == b.action.poItem {
      ExistingIsApart(sap, a, TargetLine(Part(b, 0)));
      ExistingIsApart(sap, b, TargetLine(Part(a, 0)));
    }
  }

  ghost function Total(lines: map<LineKey, Line>): real {
    if lines == map[] then 0.0
    else
      var key :| key in lines;
      lines[key].qty + Total(lines - {key})
  }

  lemma {:induction false} TotalWithout(lines: map<LineKey, Line>, key: LineKey)
    requires key in lines
    ensures Total(lines) == lines[key].qty + Total(lines - {key})
    decreases |lines|
  {
    var first :| first in lines && Total(lines) == lines[first].qty + Total(lines - {first});
    if first != key {
      TotalWithout(lines - {first}, key);
      TotalWithout(lines - {key}, first);
      assert lines - {first} - {key} == lines - {key} - {first};
    }
  }

  lemma TotalUpdated(lines: map<LineKey, Line>, key: LineKey, line: Line)
    ensures Total(lines[key := line]) == Total(lines) + line.qty - (if key in lines then lines[key].qty else 0.0)
  {
    TotalWithout(lines[key := line], key);
    assert lines[key := line] - {key} == lines - {key};
    if key in lines {
      TotalWithout(lines, key);
    } else {
      assert lines - {key} == lines;
    }
  }

  /** What one write adds to the quantity on order. */
  function Added(step: Step, recipe: Recipe): real
    requires OnLines(step)
  {
    if step.action.ChangePoDate? then 0.0
    else step.action.parts[step.substep].qty - (if recipe.RestoreLine? then recipe.qty else 0.0)
  }

  function AddedBy(steps: seq<Step>, recipes: seq<Recipe>): real
    requires |steps| == |recipes| && forall i :: 0 <= i < |steps| ==> OnLines(steps[i])
  {
    if steps == [] then 0.0 else
      AddedBy(steps[..|steps| - 1], recipes[..|steps| - 1]) + Added(steps[|steps| - 1], recipes[|steps| - 1])
  }

  lemma {:induction false} TotalAfter(sap: Sap, steps: seq<Step>, recipes: seq<Recipe>, n: nat)
    requires Prepared(sap, steps, recipes) && EtagsPast(sap) && n <= |steps| && Applied(sap, steps, recipes, n).Ok?
    ensures Total(Applied(sap, steps, recipes, n).value.lines) == Total(sap.lines) + AddedBy(steps[..n], recipes[..n])
  {
    hide Total, Apply, Prepare, WrittenSince, EtagsPast, Added;
    if n > 0 {
      TotalAfter(sap, steps, recipes, n - 1);
      AppliedWritesSince(sap, steps, recipes, n - 1);
      var before := Applied(sap, steps, recipes, n - 1).value;
      TotalAfterOne(sap, before, steps[n - 1], recipes[n - 1]);
      assert steps[..n][..n - 1] == steps[..n - 1] && recipes[..n][..n - 1] == recipes[..n - 1];
    }
  }

  lemma TotalAfterOne(first: Sap, sap: Sap, step: Step, recipe: Recipe)
    requires OnLines(step) && EtagsPast(first) && WrittenSince(first, sap)
    requires Prepare(first, step) == Ok(recipe) && Apply(sap, step, recipe).Ok?
    ensures Total(Apply(sap, step, recipe).value.lines) == Total(sap.lines) + Added(step, recipe)
  {
    AppliesToPrepared(first, sap, step, recipe);
    hide Total, WrittenSince, EtagsPast;
    TotalUpdated(sap.lines, recipe.key, Apply(sap, step, recipe).value.lines[recipe.key]);
  }

  lemma {:induction false} AddedByAppend(a: seq<Step>, b: seq<Step>, p: seq<Recipe>, q: seq<Recipe>)
    requires |a| == |p| && |b| == |q| && AllOnLines(a) && AllOnLines(b)
    ensures AllOnLines(a + b) && AddedBy(a + b, p + q) == AddedBy(a, p) + AddedBy(b, q)
  {
    if b == [] {
      assert a + b == a && p + q == p;
    } else {
      var n := |b| - 1;
      AddedByAppend(a, b[..n], p, q[..n]);
      assert (a + b)[..|a + b| - 1] == a + b[..n] && (p + q)[..|p + q| - 1] == p + q[..n];
    }
  }

  /** The first `n` writes of a split add up to its first parts less the original line. */
  lemma {:induction false} SplitAdds(sap: Sap, step: Step, recipes: seq<Recipe>, n: nat)
    requires step.action.SplitPoScheduleLine? && 0 < n <= |recipes| == |step.action.parts|
    requires Prepared(sap, Parts(step), recipes)
    ensures AllOnLines(Parts(step)[..n])
    ensures TargetLine(Part(step, 0)) in sap.lines
    ensures AddedBy(Parts(step)[..n], recipes[..n])
         == PartsTotal(step.action.parts[..n]) - sap.lines[TargetLine(Part(step, 0))].qty
  {
    assert Prepare(sap, Parts(step)[0]) == Ok(recipes[0]);
    assert Prepare(sap, Parts(step)[n - 1]) == Ok(recipes[n - 1]);
    assert Parts(step)[..n][..n - 1] == Parts(step)[..n - 1] && recipes[..n][..n - 1] == recipes[..n - 1];
    assert step.action.parts[..n][..n - 1] == step.action.parts[..n - 1];
    if n > 1 {
      SplitAdds(sap, step, recipes, n - 1);
    }
  }

  /** The writes of one whole action leave the quantity on order as it was. */
  lemma ActionAddsNothing(sap: Sap, step: Step, recipes: seq<Recipe>)
    requires Prepared(sap, Parts(step), recipes)
    ensures AddedBy(Parts(step), recipes) == 0.0
  {
    if step.action.SplitPoScheduleLine? {
      var n := |step.action.parts|;
      if n > 0 {
        SplitAdds(sap, step, recipes, n);
        assert Parts(step)[..n] == Parts(step) && recipes[..n] == recipes
            && step.action.parts[..n] == step.action.parts;
        assert Prepare(sap, Parts(step)[0]) == Ok(recipes[0]);
      }
    } else {
      assert Parts(step)[0] == step;
      assert AddedBy([step], recipes) == AddedBy([step][..0], recipes[..0]) + Added(step, recipes[0]);
    }
  }

  lemma PreparedParts(sap: Sap, a: seq<Step>, b: seq<Step>, recipes: seq<Recipe>)
    requires Prepared(sap, a + b, recipes)
    ensures Prepared(sap, a, recipes[..|a|]) && Prepared(sap, b, recipes[|a|..])
  {
    forall i | 0 <= i < |a| ensures OnLines(a[i]) && Prepare(sap, a[i]) == Ok(recipes[..|a|][i]) {
      assert (a + b)[i] == a[i];
    }
    forall i | 0 <= i < |b| ensures OnLines(b[i]) && Prepare(sap, b[i]) == Ok(recipes[|a|..][i]) {
      assert (a + b)[|a| + i] == b[i];
    }
  }

  lemma {:induction false} ExpansionAddsNothing(sap: Sap, actions: seq<Step>, recipes: seq<Recipe>)
    requires Prepared(sap, Expanded(actions), recipes)
    ensures AddedBy(Expanded(actions), recipes) == 0.0
  {
    hide Prepare, Parts, AddedBy;
    if actions != [] {
      var first, rest := Parts(actions[0]), Expanded(actions[1..]);
      PreparedParts(sap, first, rest, recipes);
      ActionAddsNothing(sap, actions[0], recipes[..|first|]);
      ExpansionAddsNothing(sap, actions[1..], recipes[|first|..]);
      AddedByAppend(first, rest, recipes[..|first|], recipes[|first|..]);
      assert recipes == recipes[..|first|] + recipes[|first|..];
    } else {
      NothingAdded(recipes);
    }
  }

  lemma NothingAdded(recipes: seq<Recipe>)
    requires recipes == []
    ensures AddedBy([], recipes) == 0.0
  {}

  /**
   Executing any list of date changes and splits in full conserves the quantity on order: all schedule
   lines together, and so the parts of each split, sum to what they did before.
   */
  lemma SplitsConserveQuantity(sap: Sap, actions: seq<Step>, recipes: seq<Recipe>)
    requires Prepared(sap, Expanded(actions), recipes) && EtagsPast(sap)
    requires Applied(sap, Expanded(actions), recipes, |recipes|).Ok?
    ensures Total(Applied(sap, Expanded(actions), recipes, |recipes|).value.lines) == Total(sap.lines)
  {
    hide Prepare, Total;
    var steps := Expanded(actions);
    TotalAfter(sap, steps, recipes, |steps|);
    ExpansionAddsNothing(sap, actions, recipes);
    assert steps[..|steps|] == steps && recipes[..|recipes|] == recipes;
  }
}
