/**
 Turning an approved plan part into ordered steps: `load` of services/execution/service.py. Reading
 the stored records, and asking SAP what a donor plant can spare, are parameters here.
 */
module Loading {
  import opened Basics
  import opened Plans
  import opened WriteJournal
  import opened StockLedger
  import opened Executions
  import opened SagaStates
  import opened SagaTheorems

  predicate IsIrreversible(action: Action) {
    action.BookAirFreight? || action.CreatePoAlternate?
  }

  /** The SAP object an action writes. */
  function TargetOf(action: Action): string {
    match action
    case CreateSto(fromPlant, toPlant, material, _, _) => "STO#" + fromPlant + "#" + toPlant + "#" + material
    case ChangePoDate(poNumber, poItem, line, _) => "PO#" + poNumber + "#" + poItem + "#" + Digits(line)
    case SplitPoScheduleLine(poNumber, poItem, line, _) => "PO#" + poNumber + "#" + poItem + "#" + Digits(line)
    case BookAirFreight(_, poNumber, poItem, _, _) => "AIR#" + poNumber + "#" + poItem
    case CreatePoAlternate(supplierId, material, plant, _, _) => "ALT#" + supplierId + "#" + material + "#" + plant
  }

  /** Every action of the plan with the option it belongs to, in plan order. */
  function Actions(options: seq<PlanOption>): seq<(PlanOption, Action)> {
    if options == [] then [] else OfOption(options[0], options[0].actions) + Actions(options[1..])
  }

  function OfOption(option: PlanOption, actions: seq<Action>): seq<(PlanOption, Action)> {
    seq(|actions|, i requires 0 <= i < |actions| => (option, actions[i]))
  }

  function StepFor(index: nat, option: PlanOption, action: Action): Step {
    Step(index, action, TargetOf(action), option.sourceRefs, 0)
  }

  /** The steps of the chosen options, each under its action's index in the whole plan. */
  function Chosen(actions: seq<(PlanOption, Action)>, chosen: set<string>): seq<Step> {
    if actions == [] then []
    else
      var (option, action) := actions[|actions| - 1];
      Chosen(actions[..|actions| - 1], chosen)
      + (if option.id in chosen then [StepFor(|actions| - 1, option, action)] else [])
  }

  function Moves(actions: seq<(PlanOption, Action)>, chosen: set<string>,
                 available: Place -> (real, string)): seq<Transfer> {
    if actions == [] then []
    else
      var (option, action) := actions[|actions| - 1];
      Moves(actions[..|actions| - 1], chosen, available)
      + (if option.id in chosen && action.CreateSto? then [Move(action, available)] else [])
  }

  function Move(action: Action, available: Place -> (real, string)): Transfer
    requires action.CreateSto?
  {
    var place := Place(action.material, action.fromPlant);
    Transfer(place, action.qty, available(place).0, available(place).1)
  }

  /** The sort key `(irreversible, index)`. */
  predicate Before(a: Step, b: Step) {
    if IsIrreversible(a.action) == IsIrreversible(b.action) then a.index <= b.index else IsIrreversible(b.action)
  }

  lemma {:induction false} ActionsAppend(a: seq<PlanOption>, b: seq<PlanOption>)
    ensures Actions(a + b) == Actions(a) + Actions(b)
  {
    if a == [] {
      assert a + b == b;
    } else {
      assert (a + b)[1..] == a[1..] + b;
      ActionsAppend(a[1..], b);
    }
  }

  /** The inner loop: the actions of one option, whether or not it was chosen. */
  method LoadOption(ghost seen: seq<(PlanOption, Action)>, option: PlanOption, chosen: set<string>,
                    available: Place -> (real, string),
                    before: seq<Step>, moved: seq<Transfer>, start: nat)
    returns (steps: seq<Step>, transfers: seq<Transfer>, index: nat)
    requires start == |seen| && before == Chosen(seen, chosen) && moved == Moves(seen, chosen, available)
    ensures index == start + |option.actions|
    ensures steps == Chosen(seen + OfOption(option, option.actions), chosen)
    ensures transfers == Moves(seen + OfOption(option, option.actions), chosen, available)
  {
    hide Chosen, Moves;
    steps, transfers, index := before, moved, start;
    var i := 0;
    assert seen + OfOption(option, option.actions[..0]) == seen;
    while i < |option.actions|
      invariant 0 <= i <= |option.actions| && index == start + i
      invariant steps == Chosen(seen + OfOption(option, option.actions[..i]), chosen)
      invariant transfers == Moves(seen + OfOption(option, option.actions[..i]), chosen, available)
    {
      var action := option.actions[i];
      OneMoreAction(seen, option, chosen, available, i);
      if option.id in chosen {
        steps := steps + [Step(index, action, TargetOf(action), option.sourceRefs, 0)];
        if action.CreateSto? {
          var donor := Place(action.material, action.fromPlant);
          transfers := transfers + [Transfer(donor, action.qty, available(donor).0, available(donor).1)];
        }
      }
      index := index + 1;
      i := i + 1;
    }
    assert option.actions[..i] == option.actions;
  }

  lemma OneMoreAction(seen: seq<(PlanOption, Action)>, option: PlanOption, chosen: set<string>,
                      available: Place -> (real, string),
                      i: nat)
    requires i < |option.actions|
    ensures var action := option.actions[i];
      var was, now := seen + OfOption(option, option.actions[..i]), seen + OfOption(option, option.actions[..i + 1]);
      && Chosen(now, chosen)
         == Chosen(was, chosen) + (if option.id in chosen then [StepFor(|seen| + i, option, action)] else [])
      && Moves(now, chosen, available)
         == Moves(was, chosen, available)
           + (if option.id in chosen && action.CreateSto? then [Move(action, available)] else [])
  {
    var longer := seen + OfOption(option, option.actions[..i + 1]);
    assert longer[|longer| - 1] == (option, option.actions[i]);
    assert longer[..|longer| - 1] == seen + OfOption(option, option.actions[..i]);
  }

  /** `load`: number every action of the plan, keep the chosen ones, and sort the irreversible ones last. */
  method Load(options: seq<PlanOption>, chosen: set<string>, available: Place -> (real, string))
    returns (steps: seq<Step>, transfers: seq<Transfer>)
    ensures steps == Sorted(Before, Chosen(Actions(options), chosen))
    ensures transfers == Moves(Actions(options), chosen, available)
  {
    hide Chosen, Moves, Sorted;
    NothingChosen(chosen, available);
    steps, transfers := [], [];
    var index: nat := 0;
    var i := 0;
    while i < |options|
      invariant 0 <= i <= |options| && index == |Actions(options[..i])|
      invariant steps == Chosen(Actions(options[..i]), chosen)
      invariant transfers == Moves(Actions(options[..i]), chosen, available)
    {
      ghost var seen := Actions(options[..i]);
      steps, transfers, index := LoadOption(seen, options[i], chosen, available, steps, transfers, index);
      OneMoreOption(options, i);
      i := i + 1;
    }
    assert options[..i] == options;
    steps := Sorted(Before, steps);
  }

  lemma NothingChosen(chosen: set<string>, available: Place -> (real, string))
    ensures Chosen([], chosen) == [] && Moves([], chosen, available) == []
  {}

  lemma OneMoreOption(options: seq<PlanOption>, i: nat)
    requires i < |options|
    ensures Actions(options[..i + 1]) == Actions(options[..i]) + OfOption(options[i], options[i].actions)
  {
    assert options[..i + 1] == options[..i] + [options[i]];
    ActionsAppend(options[..i], [options[i]]);
    assert Actions([options[i]]) == OfOption(options[i], options[i].actions) + Actions([options[i]][1..]);
  }

  // ----- What the loaded steps and transfers are -----

  /** The `a`-th action of the `o`-th option comes after all actions of the options before it. */
  lemma ActionAt(options: seq<PlanOption>, o: nat, a: nat)
    requires o < |options| && a < |options[o].actions|
    ensures |Actions(options[..o])| + a < |Actions(options)|
    ensures Actions(options)[|Actions(options[..o])| + a] == (options[o], options[o].actions[a])
  {
    OneMoreOption(options, o);
    assert options == options[..o + 1] + options[o + 1..];
    ActionsAppend(options[..o + 1], options[o + 1..]);
  }

  /** The action is a chosen stock transfer order, and the transfer is its own, at the plant that gives. */
  predicate Takes(of: (PlanOption, Action), chosen: set<string>, available: Place -> (real, string), t: Transfer) {
    && of.0.id in chosen && of.1.CreateSto?
    && t.place.material == of.1.material && t.place.plant == of.1.fromPlant && t.qty == of.1.qty
    && (t.available, t.sourceRef) == available(t.place)
  }

  /** `moved` are, in plan order, the transfers of exactly the chosen transfer orders; `from` says where those stand. */
  ghost predicate TransfersOf(actions: seq<(PlanOption, Action)>, chosen: set<string>,
                              available: Place -> (real, string), moved: seq<Transfer>, from: seq<nat>) {
    && |from| == |moved|
    && (forall k :: 0 <= k < |from| ==> from[k] < |actions| && Takes(actions[from[k]], chosen, available, moved[k]))
    && (forall i: nat :: i < |actions| && actions[i].0.id in chosen && actions[i].1.CreateSto? ==> i in from)
    && (forall j, k :: 0 <= j < k < |from| ==> from[j] < from[k])
  }

  lemma NoTransfer(before: seq<(PlanOption, Action)>, last: (PlanOption, Action), chosen: set<string>,
                   available: Place -> (real, string), moved: seq<Transfer>, from: seq<nat>)
    requires TransfersOf(before, chosen, available, moved, from) && !(last.0.id in chosen && last.1.CreateSto?)
    ensures TransfersOf(before + [last], chosen, available, moved, from)
  {
    hide Takes;
    var all := before + [last];
    assert forall k :: 0 <= k < |from| ==> all[from[k]] == before[from[k]];
    forall i: nat | i < |all| && all[i].0.id in chosen && all[i].1.CreateSto? ensures i in from {
      assert all[i] == before[i];
    }
  }

  lemma OneTransfer(before: seq<(PlanOption, Action)>, last: (PlanOption, Action), chosen: set<string>,
                    available: Place -> (real, string), moved: seq<Transfer>, from: seq<nat>)
    requires TransfersOf(before, chosen, available, moved, from) && last.0.id in chosen && last.1.CreateSto?
    ensures TransfersOf(before + [last], chosen, available, moved + [Move(last.1, available)], from + [|before|])
  {
    var all, more, places := before + [last], moved + [Move(last.1, available)], from + [|before|];
    assert Takes(last, chosen, available, Move(last.1, available));
    hide Takes;
    forall k | 0 <= k < |places| ensures places[k] < |all| && Takes(all[places[k]], chosen, available, more[k]) {
      if k < |from| {
        assert all[places[k]] == before[from[k]] && more[k] == moved[k];
      }
    }
    forall i: nat | i < |all| && all[i].0.id in chosen && all[i].1.CreateSto? ensures i in places {
      if i < |before| {
        assert all[i] == before[i] && i in from;
      } else {
        assert places[|from|] == i;
      }
    }
  }

  /**
   The transfers are, in plan order, one for each chosen stock transfer order and none for any other action: of
   its material and quantity, out of the plant that gives, with what that plant was read to spare.
   */
  lemma TransfersAre(actions: seq<(PlanOption, Action)>, chosen: set<string>,
                     available: Place -> (real, string)) returns (from: seq<nat>)
    ensures var moved := Moves(actions, chosen, available);
      && |from| == |moved|
      && (forall k :: 0 <= k < |from| ==>
            && from[k] < |actions|
            && var (option, action) := actions[from[k]];
               && option.id in chosen && action.CreateSto?
               && moved[k].place.material == action.material && moved[k].place.plant == action.fromPlant
               && moved[k].qty == action.qty
               && (moved[k].available, moved[k].sourceRef) == available(moved[k].place))
      && (forall i: nat :: i < |actions| && actions[i].0.id in chosen && actions[i].1.CreateSto? ==> i in from)
      && (forall j, k :: 0 <= j < k < |from| ==> from[j] < from[k])
  {
    from := TransfersTaken(actions, chosen, available);
    hide Moves;
  }

  lemma {:induction false} TransfersTaken(actions: seq<(PlanOption, Action)>, chosen: set<string>,
                                          available: Place -> (real, string)) returns (from: seq<nat>)
    ensures TransfersOf(actions, chosen, available, Moves(actions, chosen, available), from)
  {
    from := [];
    if actions != [] {
      hide TransfersOf;
      var before, last := actions[..|actions| - 1], actions[|actions| - 1];
      from := TransfersTaken(before, chosen, available);
      assert actions == before + [last];
      if last.0.id in chosen && last.1.CreateSto? {
        OneTransfer(before, last, chosen, available, Moves(before, chosen, available), from);
        from := from + [|before|];
      } else {
        NoTransfer(before, last, chosen, available, Moves(before, chosen, available), from);
      }
    }
  }

  /** Each step stands for the action at its index in the plan, and indexes increase. */
  lemma {:induction false} ChosenIndexes(actions: seq<(PlanOption, Action)>, chosen: set<string>)
    ensures var steps := Chosen(actions, chosen);
      && (forall s :: s in steps ==>
            && 0 <= s.index < |actions| && actions[s.index].0.id in chosen
            && s == StepFor(s.index, actions[s.index].0, actions[s.index].1))
      && (forall i, j :: 0 <= i < j < |steps| ==> steps[i].index < steps[j].index)
  {
    if actions != [] {
      var fewer := actions[..|actions| - 1];
      ChosenIndexes(fewer, chosen);
      var before := Chosen(fewer, chosen);
      forall i | 0 <= i < |before| ensures before[i].index < |actions| - 1 {
        assert before[i] in before;
      }
    }
  }

  lemma BeforeTotal()
    ensures TotalOrder(Before)
  {}

  lemma Twice<T>(xs: seq<T>, i: nat, j: nat)
    requires i < j < |xs| && xs[i] == xs[j]
    ensures multiset(xs)[xs[i]] >= 2
  {
    assert xs == xs[..j] + xs[j..];
    assert xs[..j][i] == xs[i] && xs[j..][0] == xs[j];
    assert multiset(xs[..j])[xs[i]] >= 1 && multiset(xs[j..])[xs[i]] >= 1;
  }

  lemma NotTwice<T>(xs: seq<T>, i: nat, j: nat)
    requires i < j < |xs| && multiset(xs)[xs[i]] == 1
    ensures xs[i] != xs[j]
  {
    if xs[i] == xs[j] {
      Twice(xs, i, j);
    }
  }

  /** Distinct indexes survive the sort. */
  lemma SortedIndexes(steps: seq<Step>)
    requires forall i, j :: 0 <= i < j < |steps| ==> steps[i].index < steps[j].index
    ensures forall i, j :: 0 <= i < j < |Sorted(Before, steps)| ==>
            Sorted(Before, steps)[i].index != Sorted(Before, steps)[j].index
  {
    SortedPermutes(Before, steps);
    SortedMembers(Before, steps);
    OnceEach(steps);
    var sorted := Sorted(Before, steps);
    hide Sorted;
    forall i, j | 0 <= i < j < |sorted| ensures sorted[i].index != sorted[j].index {
      assert sorted[i] in sorted && sorted[j] in sorted;
      NotTwice(sorted, i, j);
      var a :| 0 <= a < |steps| && steps[a] == sorted[i];
      var b :| 0 <= b < |steps| && steps[b] == sorted[j];
      assert a != b;
    }
  }

  lemma {:induction false} OnceEach(steps: seq<Step>)
    requires forall i, j :: 0 <= i < j < |steps| ==> steps[i].index < steps[j].index
    ensures forall s :: s in steps ==> multiset(steps)[s] == 1
  {
    if steps != [] {
      var before, last := steps[..|steps| - 1], steps[|steps| - 1];
      OnceEach(before);
      assert steps == before + [last];
      assert last !in before;
    }
  }

  lemma {:induction false} ChosenAll(actions: seq<(PlanOption, Action)>, chosen: set<string>)
    ensures forall i: nat :: i < |actions| && actions[i].0.id in chosen ==>
              exists s :: s in Chosen(actions, chosen) && s.index == i
  {
    if actions != [] {
      var n := |actions| - 1;
      ChosenAll(actions[..n], chosen);
      forall i: nat | i < |actions| && actions[i].0.id in chosen
        ensures exists s :: s in Chosen(actions, chosen) && s.index == i
      {
        if i < n {
          assert actions[..n][i] == actions[i];
          var s :| s in Chosen(actions[..n], chosen) && s.index == i;
          assert s in Chosen(actions, chosen);
        } else {
          assert StepFor(n, actions[n].0, actions[n].1) in Chosen(actions, chosen);
        }
      }
    }
  }

  /**
   The loaded steps are one for each action of a chosen option, under the action's index in the whole plan and
   with its option's references; air freight and orders with another supplier come after everything else.
   */
  lemma StepsAre(actions: seq<(PlanOption, Action)>, chosen: set<string>)
    ensures var steps := Sorted(Before, Chosen(actions, chosen));
      && (forall s :: s in steps ==>
            && 0 <= s.index < |actions| && actions[s.index].0.id in chosen && s.action == actions[s.index].1
            && s.target == TargetOf(s.action) && s.sourceRefs == actions[s.index].0.sourceRefs && s.substep == 0)
      && (forall i: nat :: i < |actions| && actions[i].0.id in chosen ==> exists s :: s in steps && s.index == i)
      && (forall j, k :: 0 <= j < k < |steps| ==>
            var a, b := steps[j], steps[k];
            if a.action.BookAirFreight? || a.action.CreatePoAlternate?
            then (b.action.BookAirFreight? || b.action.CreatePoAlternate?) && a.index < b.index
            else b.action.BookAirFreight? || b.action.CreatePoAlternate? || a.index < b.index)
  {
    hide Chosen, Sorted, TotalOrder;
    ChosenIndexes(actions, chosen);
    ChosenAll(actions, chosen);
    SortedMembers(Before, Chosen(actions, chosen));
    SortedIndexes(Chosen(actions, chosen));
    BeforeTotal();
    SortedOrdered(Before, Chosen(actions, chosen));
    var steps := Sorted(Before, Chosen(actions, chosen));
    forall j, k | 0 <= j < k < |steps| ensures Before(steps[j], steps[k]) && steps[j].index != steps[k].index {}
  }

  // ----- Targets -----

  predicate NoHash(field: string) {
    '#' !in field
  }

  /** The fields an action's target is spelled with. */
  function TargetFields(action: Action): seq<string> {
    match action
    case CreateSto(fromPlant, toPlant, material, _, _) => [fromPlant, toPlant, material]
    case ChangePoDate(poNumber, poItem, _, _) => [poNumber, poItem]
    case SplitPoScheduleLine(poNumber, poItem, _, _) => [poNumber, poItem]
    case BookAirFreight(_, poNumber, poItem, _, _) => [poNumber, poItem]
    case CreatePoAlternate(supplierId, material, plant, _, _) => [supplierId, material, plant]
  }

  /** Both actions write the same object of SAP. */
  predicate SameObject(a: Action, b: Action) {
    match a
    case CreateSto(fromPlant, toPlant, material, _, _) =>
      b.CreateSto? && b.fromPlant == fromPlant && b.toPlant == toPlant && b.material == material
    case BookAirFreight(_, poNumber, poItem, _, _) =>
      b.BookAirFreight? && b.poNumber == poNumber && b.poItem == poItem
    case CreatePoAlternate(supplierId, material, plant, _, _) =>
      b.CreatePoAlternate? && b.supplierId == supplierId && b.material == material && b.plant == plant
    case _ =>
      (b.ChangePoDate? || b.SplitPoScheduleLine?)
      && b.poNumber == a.poNumber && b.poItem == a.poItem && b.scheduleLine == a.scheduleLine
  }

  lemma {:induction false} DigitsNoHash(n: nat)
    ensures NoHash(Digits(n))
  {
    if n >= 10 {
      DigitsNoHash(n / 10);
    }
  }

  lemma TwoParts(a: string, b: string, x: string, y: string, prefix: string)
    requires NoHash(a) && NoHash(x) && prefix + a + "#" + b == prefix + x + "#" + y
    ensures a == x && b == y
  {
    var s, t := prefix + a + "#" + b, prefix + x + "#" + y;
    assert s[|prefix|..] == a + "#" + b && t[|prefix|..] == x + "#" + y;
    FirstFieldUnique('#', a, x, b, y);
  }

  lemma ThreeParts(a: string, b: string, c: string, x: string, y: string, z: string, prefix: string)
    requires NoHash(a) && NoHash(x) && NoHash(b) && NoHash(y)
    requires prefix + a + "#" + b + "#" + c == prefix + x + "#" + y + "#" + z
    ensures a == x && b == y && c == z
  {
    assert prefix + a + "#" + b + "#" + c == prefix + a + "#" + (b + "#" + c);
    assert prefix + x + "#" + y + "#" + z == prefix + x + "#" + (y + "#" + z);
    TwoParts(a, b + "#" + c, x, y + "#" + z, prefix);
    FirstFieldUnique('#', b, y, c, z);
  }

  lemma DifferentPrefix(a: Action, b: Action)
    requires TargetOf(a) == TargetOf(b)
    ensures a.CreateSto? == b.CreateSto? && a.BookAirFreight? == b.BookAirFreight?
    ensures a.CreatePoAlternate? == b.CreatePoAlternate?
  {
    hide Digits;
    assert TargetOf(a)[..2] == TargetOf(b)[..2];
    assert a.CreateSto? ==> TargetOf(a)[..2] == "ST";
    assert b.CreateSto? ==> TargetOf(b)[..2] == "ST";
    assert a.BookAirFreight? ==> TargetOf(a)[..2] == "AI";
    assert b.BookAirFreight? ==> TargetOf(b)[..2] == "AI";
    assert a.CreatePoAlternate? ==> TargetOf(a)[..2] == "AL";
    assert b.CreatePoAlternate? ==> TargetOf(b)[..2] == "AL";
    assert a.ChangePoDate? || a.SplitPoScheduleLine? ==> TargetOf(a)[..2] == "PO";
    assert b.ChangePoDate? || b.SplitPoScheduleLine? ==> TargetOf(b)[..2] == "PO";
  }

  /** With names that hold no `#`, two actions have the same target exactly when they write the same object of SAP. */
  lemma TargetIsTheObject(a: Action, b: Action)
    requires forall f :: f in TargetFields(a) ==> NoHash(f)
    requires forall f :: f in TargetFields(b) ==> NoHash(f)
    ensures TargetOf(a) == TargetOf(b) <==> SameObject(a, b)
  {
    if TargetOf(a) == TargetOf(b) {
      DifferentPrefix(a, b);
      hide NoHash, Digits;
      var f, g := TargetFields(a), TargetFields(b);
      assert NoHash(f[0]) && NoHash(f[1]) && NoHash(g[0]) && NoHash(g[1]);
      match a
      case CreateSto(_, _, _, _, _) => ThreeParts(f[0], f[1], f[2], g[0], g[1], g[2], "STO#");
      case BookAirFreight(_, _, _, _, _) => TwoParts(f[0], f[1], g[0], g[1], "AIR#");
      case CreatePoAlternate(_, _, _, _, _) => ThreeParts(f[0], f[1], f[2], g[0], g[1], g[2], "ALT#");
      case _ =>
        ThreeParts(f[0], f[1], Digits(a.scheduleLine), g[0], g[1], Digits(b.scheduleLine), "PO#");
        DigitsInjective(a.scheduleLine, b.scheduleLine);
    }
  }

  // ----- Expansion -----

  /** Writes of one step keep its index and action; those of a split differ in target. */
  lemma PartsOf(step: Step)
    ensures forall p :: p in Parts(step) ==>
            p.index == step.index && p.action == step.action && p.sourceRefs == step.sourceRefs
    ensures UniquelyIndexed(Parts(step))
  {
    var parts := Parts(step);
    hide Digits;
    forall i, j | 0 <= i < j < |parts| ensures parts[i].index != parts[j].index || parts[i].target != parts[j].target {
      if parts[i].target == parts[j].target {
        var prefix := step.target + "#part#";
        assert (prefix + Digits(i))[|prefix|..] == Digits(i) && (prefix + Digits(j))[|prefix|..] == Digits(j);
        DigitsInjective(i, j);
      }
    }
  }

  /** Expanding steps with distinct indexes gives uniquely indexed writes. */
  lemma {:induction false} ExpandedUnique(steps: seq<Step>)
    requires forall i, j :: 0 <= i < j < |steps| ==> steps[i].index != steps[j].index
    ensures UniquelyIndexed(Expanded(steps))
    ensures forall s :: s in Expanded(steps) ==> exists k ::
            0 <= k < |steps| && s.index == steps[k].index && s.action == steps[k].action
  {
    if steps != [] {
      ExpandedUnique(steps[1..]);
      PartsOf(steps[0]);
      var first, rest := Parts(steps[0]), Expanded(steps[1..]);
      hide Parts, Expanded;
      forall s | s in rest ensures s.index != steps[0].index
      {
        var k :| 0 <= k < |steps[1..]| && s.index == steps[1..][k].index && s.action == steps[1..][k].action;
        assert steps[1..][k] == steps[k + 1];
      }
      forall s | s in first + rest
        ensures exists k :: 0 <= k < |steps| && s.index == steps[k].index && s.action == steps[k].action {
        if s in first {
          assert s.index == steps[0].index;
        } else {
          var k :| 0 <= k < |steps[1..]| && s.index == steps[1..][k].index && s.action == steps[1..][k].action;
          assert s.index == steps[k + 1].index && s.action == steps[k + 1].action;
        }
      }
      UniqueConcat(first, rest, steps[0].index);
    }
  }

  lemma UniqueConcat(a: seq<Step>, b: seq<Step>, index: int)
    requires UniquelyIndexed(a) && UniquelyIndexed(b)
    requires (forall s :: s in a ==> s.index == index) && (forall s :: s in b ==> s.index != index)
    ensures UniquelyIndexed(a + b)
  {
    var c := a + b;
    forall i, j | 0 <= i < j < |c| ensures c[i].index != c[j].index || c[i].target != c[j].target {
      if i < |a| <= j {
        assert c[i] in a && c[j] in b;
      } else if j < |a| {
        assert c[i] == a[i] && c[j] == a[j];
      } else {
        assert c[i] == b[i - |a|] && c[j] == b[j - |a|];
      }
    }
  }

  /** No reversible step after an irreversible one. */
  ghost predicate ReversibleFirst(steps: seq<Step>) {
    forall i, j :: 0 <= i < j < |steps| && IsIrreversible(steps[i].action) ==> IsIrreversible(steps[j].action)
  }

  lemma {:induction false} ExpandedKeepsOrder(steps: seq<Step>)
    requires ReversibleFirst(steps)
    ensures ReversibleFirst(Expanded(steps))
    ensures forall s :: s in Expanded(steps) ==> exists k :: 0 <= k < |steps| && s.action == steps[k].action
  {
    if steps != [] {
      ExpandedKeepsOrder(steps[1..]);
      PartsOf(steps[0]);
      var first, rest := Parts(steps[0]), Expanded(steps[1..]);
      hide Parts, Expanded, IsIrreversible;
      forall s | s in rest ensures IsIrreversible(steps[0].action) ==> IsIrreversible(s.action) {
        var k :| 0 <= k < |steps[1..]| && s.action == steps[1..][k].action;
        assert steps[1..][k] == steps[k + 1];
      }
      forall s | s in first + rest ensures exists k :: 0 <= k < |steps| && s.action == steps[k].action {
        if s in first {
          assert s.action == steps[0].action;
        } else {
          var k :| 0 <= k < |steps[1..]| && s.action == steps[1..][k].action;
          assert s.action == steps[k + 1].action;
        }
      }
      OrderConcat(first, rest, steps[0].action);
    }
  }

  lemma OrderConcat(a: seq<Step>, b: seq<Step>, action: Action)
    requires ReversibleFirst(b) && (forall s :: s in a ==> s.action == action)
    requires forall s :: s in b ==> IsIrreversible(action) ==> IsIrreversible(s.action)
    ensures ReversibleFirst(a + b)
  {
    hide IsIrreversible;
    var c := a + b;
    forall i, j | 0 <= i < j < |c| && IsIrreversible(c[i].action) ensures IsIrreversible(c[j].action) {
      if i < |a| {
        assert c[i] in a && (c[j] in a || c[j] in b);
      } else {
        assert c[i] == b[i - |a|] && c[j] == b[j - |a|];
      }
    }
  }

  /** What `Load` returns, as a run receives it. */
  ghost predicate LoadedFrom(e: Execution, options: seq<PlanOption>, chosen: set<string>) {
    e.steps == Expanded(Sorted(Before, Chosen(Actions(options), chosen)))
  }

  /** Every loaded execution has uniquely indexed writes, so distinct keys, and its irreversible writes come last. */
  lemma LoadedInOrder(e: Execution, options: seq<PlanOption>, chosen: set<string>)
    requires LoadedFrom(e, options, chosen)
    ensures UniquelyIndexed(e.steps) && ReversibleFirst(e.steps)
    ensures Keyed(e) ==> Distinct(Keys(e))
  {
    hide Chosen, Sorted, Expanded, StepKey, Actions;
    var steps := Chosen(Actions(options), chosen);
    ChosenIndexes(Actions(options), chosen);
    SortedIndexes(steps);
    BeforeTotal();
    SortedOrdered(Before, steps);
    var sorted := Sorted(Before, steps);
    forall i, j | 0 <= i < j < |sorted| && IsIrreversible(sorted[i].action) ensures IsIrreversible(sorted[j].action) {
      assert Before(sorted[i], sorted[j]);
    }
    ExpandedUnique(sorted);
    ExpandedKeepsOrder(sorted);
    if Keyed(e) {
      KeysDistinct(e, Keys(e));
    }
  }

  // ----- A failing reversible step strands nothing irreversible -----

  lemma {:induction false} AppliedAmongFirst(e: Execution, keys: seq<Key>, a: Records, n: nat, event: Event)
    requires n <= |keys| == |e.steps| && event in Writes(e, keys, a, n) && event.Apply?
    ensures exists k :: 0 <= k < n && event.step == e.steps[k]
  {
    if event !in Writes(e, keys, a, n - 1) {
      assert event.step == e.steps[n - 1];
    } else {
      AppliedAmongFirst(e, keys, a, n - 1, event);
    }
  }

  lemma {:induction false} RevertsApplyNothing(a: Records, completed: seq<Completion>, from: nat, event: Event)
    requires from <= |completed| && event in Reverts(a, completed, from)
    ensures !event.Apply?
    decreases |completed| - from
  {
    if event in Reverts(a, completed, from + 1) {
      RevertsApplyNothing(a, completed, from + 1, event);
    }
  }

  lemma AppliedBeforeFailure(e: Execution, readied: World, written: World, results: seq<Payload>, at: Break, i: nat)
    requires |Keys(e)| == |e.steps| && |results| < |e.steps| && Wrote(e, readied, written, results, Broke(at))
    requires |readied.log| <= i < |written.log| && written.log[i].Apply?
    ensures exists k :: 0 <= k <= |results| && written.log[i].step == e.steps[k]
  {
    hide Keys, WrittenUpTo;
    var event, n := written.log[i], |results|;
    assert event in WriteEvents(e, Keys(e), readied.records, n, Broke(at)) by {
      assert written.log[i] == WriteEvents(e, Keys(e), readied.records, n, Broke(at))[i - |readied.log|];
    }
    if event in Writes(e, Keys(e), readied.records, n) {
      AppliedAmongFirst(e, Keys(e), readied.records, n, event);
    } else {
      assert event in BrokenEvents(readied.records, e.steps[n], Keys(e)[n], at);
      assert event.step == e.steps[n];
    }
  }

  lemma FailureParts(e: Execution, outcome: Outcome, before: World, after: World)
    returns (readied: World, written: World)
    requires outcome.Failed? && Leaves(e, outcome, before, after)
    ensures |Keys(e)| == |e.steps| && Wrote(e, readied, written, outcome.results, Broke(outcome.at))
    ensures LoggedSaves(before.log + ADMITTED, readied.log, Keys(e), readied.records, |e.steps|)
    ensures Undid(e, written, after, outcome)
  {
    hide Wrote, Undid, LoggedSaves, RunClaimed, Fresh, SavedSteps, StockHeld, StepKey;
    var there :| LeavesWritten(e, outcome.results, Broke(outcome.at), before, there) && Undid(e, there, after, outcome);
    var claimed, here :| Readied(e, before, claimed, here) && Wrote(e, here, there, outcome.results, Broke(outcome.at));
    readied, written := here, there;
  }

  /**
   When a run fails at a reversible step, to apply or to verify, no irreversible write of the part has
   been sent: whatever the plan, the chosen options and the answers of SAP.
   */
  lemma ReversibleFailureStrandsNothing(e: Execution, options: seq<PlanOption>, chosen: set<string>, outcome: Outcome,
                                        before: World, after: World, i: nat)
    requires LoadedFrom(e, options, chosen) && outcome.Failed? && Leaves(e, outcome, before, after)
    requires |outcome.results| < |e.steps| && !IsIrreversible(e.steps[|outcome.results|].action)
    requires |before.log| <= i < |after.log| && after.log[i].Apply?
    ensures !IsIrreversible(after.log[i].step.action)
  {
    hide LoadedFrom, Leaves, Keys, IsIrreversible, LoggedSaves, Wrote, Undid, UniquelyIndexed, Keyed, Distinct;
    LoadedInOrder(e, options, chosen);
    var readied, written := FailureParts(e, outcome, before, after);
    FailureLogs(e, outcome, before, readied, written, after);
    if i < |readied.log| {
      assert readied.log[i] == after.log[i];
      NotSentYet(before, before.log + ADMITTED, readied, Keys(e), |e.steps|, i);
    } else if i < |written.log| {
      assert written.log[i] == after.log[i];
      AppliedBeforeFailure(e, readied, written, outcome.results, outcome.at, i);
    } else {
      RevertedAfterFailure(e, written, after, outcome, i);
    }
  }

  lemma FailureLogs(e: Execution, outcome: Outcome, before: World, readied: World, written: World, after: World)
    requires outcome.Failed? && |Keys(e)| == |e.steps| && Wrote(e, readied, written, outcome.results, Broke(outcome.at))
    requires LoggedSaves(before.log + ADMITTED, readied.log, Keys(e), readied.records, |e.steps|)
            && Undid(e, written, after, outcome)
    ensures |before.log| <= |readied.log| && IsPrefix(readied.log, written.log) && IsPrefix(written.log, after.log)
    ensures IsPrefix(readied.log, after.log)
  {
    hide Keys, WriteEvents, RevertEvents, WrittenUpTo, CompensatedFrom, StockFreed;
  }

  lemma RevertedAfterFailure(e: Execution, written: World, after: World, outcome: Outcome, i: nat)
    requires outcome.Failed? && |Keys(e)| == |e.steps| && Undid(e, written, after, outcome)
            && |written.log| <= i < |after.log|
    ensures !after.log[i].Apply?
  {
    hide StepKey, CompensatedFrom, StockFreed;
    var completed := Completions(e, Keys(e), written.records, Count(outcome.results, outcome.at));
    var event := after.log[i];
    assert event == RevertEvents(written.records, completed, outcome.from, outcome.sent)[i - |written.log|];
    if event in Reverts(written.records, completed, outcome.from) {
      RevertsApplyNothing(written.records, completed, outcome.from, event);
    }
  }
}
