/**
 Concurrent, retried and crashing executors of services/execution/workflow.py over one journal.
 Each move makes at most one access to the journal or one call to SAP; moves of any number of runs
 and rollbacks interleave freely, and an executor that crashes simply makes no further move.
 */
module JournalRaces {
  import opened Basics
  import opened WriteJournal

  datatype Task = ToRun(exec: Key, steps: seq<Key>) | ToRollBack(exec: Key, steps: seq<Key>)

  /** What an executor claims: its run, its rollback, one write, or the undo of one write. */
  datatype Goal =
    | OfRun
    | OfRollback
    | OfStep(done: seq<Key>, key: Key, rest: seq<Key>)
    | OfUndo(todo: seq<Key>, key: Key)

  /** Where an executor is in the program. `Undoing` takes the last of its list first. */
  datatype Pc =
    | Begin
    | Preparing
    | Claiming(goal: Goal)
    | Committing(goal: Goal)
    | Holding
    | Saving(rest: seq<Key>)
    | Sending(goal: Goal)
    | Closing(goal: Goal)
    | Verifying(done: seq<Key>, rest: seq<Key>)
    | Collecting(made: seq<Key>, rest: seq<Key>)
    | Undoing(todo: seq<Key>)
    | SavingUndo(todo: seq<Key>, key: Key)
    | Marking(todo: seq<Key>, key: Key)
    | Ended

  datatype Executor = Executor(task: Task, pc: Pc)

  /** How the boundary behaves during a move. */
  datatype Choice = Well | Refuses | Raises

  type Statuses = map<Key, Status>

  datatype Event = Quiet | Won(key: Key) | Sent(key: Key) | Held

  datatype Act = Act(pc: Pc, write: Option<(Key, Status)>, event: Event)

  /** `won` counts claims that returned go, `sent` the applies and undos issued, `acted` what runs did to the world. */
  datatype State = State(
    records: Statuses, executors: map<nat, Executor>,
    won: multiset<Key>, sent: multiset<Key>, acted: multiset<Key>)

  datatype Move = Start(who: nat, task: Task) | Step(who: nat, choice: Choice)

  // ----- The program -----

  function KeyOf(task: Task, goal: Goal): Key {
    match goal
    case OfRun => task.exec
    case OfRollback => RollbackOf(task.exec)
    case OfStep(_, key, _) => key
    case OfUndo(_, key) => UndoOf(key)
  }

  predicate Has(records: Statuses, key: Key, status: Status) {
    key in records && records[key] == status
  }

  /** `prepare`: put if absent. */
  function Put(records: Statuses, key: Key, pc: Pc): Act {
    Act(pc, if key in records then None else Some((key, Ready)), Quiet)
  }

  function Go(pc: Pc): Act {
    Act(pc, None, Quiet)
  }

  function NextWrite(done: seq<Key>, rest: seq<Key>): Pc {
    if rest == [] then Closing(OfRun) else Claiming(OfStep(done, rest[0], rest[1..]))
  }

  /** The claimed write was already made. */
  function AlreadyMade(goal: Goal): Pc {
    match goal
    case OfStep(done, key, rest) => Verifying(done + [key], rest)
    case OfUndo(todo, key) => Marking(todo, key)
    case _ => Ended
  }

  /** The claim was refused. */
  function NotClaimed(goal: Goal): Pc {
    if goal.OfStep? then Undoing(goal.done) else Ended
  }

  function AfterClaim(task: Task, goal: Goal): Pc {
    match goal
    case OfRun => Holding
    case OfRollback => Collecting([], task.steps)
    case _ => Sending(goal)
  }

  /** Read the record of a claim. A kill switch halts a run between writes. */
  function Claim(records: Statuses, x: Executor, goal: Goal, choice: Choice): Act {
    var key := KeyOf(x.task, goal);
    if goal.OfStep? && choice.Refuses? then Go(Ended)
    else if goal.OfStep? && choice.Raises? then Go(Undoing(goal.done))
    else if Has(records, key, Ready) then Go(Committing(goal))
    else if Has(records, key, Succeeded) then Go(AlreadyMade(goal))
    else Go(NotClaimed(goal))
  }

  /** The conditional update of a claim. */
  function Commit(records: Statuses, x: Executor, goal: Goal): Act {
    var key := KeyOf(x.task, goal);
    if Has(records, key, Ready) then Act(AfterClaim(x.task, goal), Some((key, Pending)), Won(key))
      else Go(NotClaimed(goal))
  }

  function Close(records: Statuses, x: Executor, goal: Goal, choice: Choice): Act {
    var key := KeyOf(x.task, goal);
    if !Has(records, key, Pending) then Go(NotClaimed(goal))
    else
      match (goal, choice)
      case (OfStep(done, _, rest), Well) => Act(Verifying(done + [key], rest), Some((key, Succeeded)), Quiet)
      case (OfStep(done, _, _), Refuses) => Act(Undoing(done), Some((key, Rejected)), Quiet)
      case (OfUndo(todo, step), Well) => Act(Marking(todo, step), Some((key, Succeeded)), Quiet)
      case (OfRun, Well) => Act(Ended, Some((key, Succeeded)), Quiet)
      case (OfRollback, Well) => Act(Ended, Some((key, Succeeded)), Quiet)
      case _ => Go(NotClaimed(goal))
  }

  function Collect(records: Statuses, made: seq<Key>, rest: seq<Key>): Act {
    if rest == [] then Go(Undoing(made))
    else if Has(records, rest[0], Pending) then Go(Ended)
    else if Has(records, rest[0], Succeeded) then Go(Collecting(made + [rest[0]], rest[1..]))
    else Go(Collecting(made, rest[1..]))
  }

  /** Compensate the last of `todo`, unless it is irreversible (`Refuses`) or already undone. */
  function Undo(records: Statuses, x: Executor, todo: seq<Key>, choice: Choice): Act {
    if todo == [] then Go(if x.task.ToRun? then Ended else Closing(OfRollback))
    else
      var key, before := todo[|todo| - 1], todo[..|todo| - 1];
      if key !in records || choice.Raises? then Go(Ended)
      else if records[key] == Undone || choice.Refuses? then Go(Undoing(before))
      else Go(SavingUndo(before, key))
  }

  function Mark(records: Statuses, todo: seq<Key>, key: Key, choice: Choice): Act {
    if Has(records, key, Succeeded) then Act(if choice.Well? then Undoing(todo) else Ended, Some((key, Undone)), Quiet)
    else Go(Ended)
  }

  /** One move of one executor. */
  function Does(records: Statuses, x: Executor, choice: Choice): Act {
    match x.pc
    case Begin =>
      if choice != Well then Go(Ended)
      else if x.task.ToRun? then Put(records, x.task.exec, Claiming(OfRun))
      else Go(if Has(records, x.task.exec, Succeeded) then Preparing else Ended)
    case Preparing => Put(records, RollbackOf(x.task.exec), Claiming(OfRollback))
    case Claiming(goal) => Claim(records, x, goal, choice)
    case Committing(goal) => Commit(records, x, goal)
    case Holding => if choice.Well? then Act(Saving(x.task.steps), None, Held) else Go(Ended)
    case Saving(rest) =>
      if choice != Well then Go(Ended)
      else if rest == [] then Go(NextWrite([], x.task.steps))
      else Put(records, rest[0], Saving(rest[1..]))
    case Sending(goal) => Act(Closing(goal), None, Sent(KeyOf(x.task, goal)))
    case Closing(goal) => Close(records, x, goal, choice)
    case Verifying(done, rest) => Go(if choice.Well? then NextWrite(done, rest) else Undoing(done))
    case Collecting(made, rest) => Collect(records, made, rest)
    case Undoing(todo) => Undo(records, x, todo, choice)
    case SavingUndo(todo, key) => Put(records, UndoOf(key), Claiming(OfUndo(todo, key)))
    case Marking(todo, key) => Mark(records, todo, key, choice)
    case Ended => Go(Ended)
  }

  predicate AllHashed(keys: seq<Key>) {
    forall key <- keys :: key.Hashed?
  }

  predicate IsTask(task: Task) {
    task.exec.Exec? && AllHashed(task.steps)
  }

  function Wrote(records: Statuses, write: Option<(Key, Status)>): Statuses {
    if write.Some? then records[write.value.0 := write.value.1] else records
  }

  /** A run acts on the world when it holds stock or sends a step's write. */
  predicate Acts(x: Executor, event: Event) {
    x.task.ToRun? && (event.Held? || event.Sent?)
  }

  function After(s: State, move: Move): State {
    match move
    case Start(who, task) =>
      if who in s.executors || !IsTask(task) then s else s.(executors := s.executors[who := Executor(task, Begin)])
    case Step(who, choice) =>
      if who !in s.executors then s
      else
        var x := s.executors[who];
        var act := Does(s.records, x, choice);
        State(Wrote(s.records, act.write), s.executors[who := x.(pc := act.pc)],
              if act.event.Won? then s.won + multiset{act.event.key} else s.won,
              if act.event.Sent? then s.sent + multiset{act.event.key} else s.sent,
              if x.task.ToRun? && (act.event.Held? || act.event.Sent?) then s.acted + multiset{x.task.exec}
              else s.acted)
  }

  function Run(s: State, moves: seq<Move>): State
    decreases |moves|
  {
    if moves == [] then s else Run(After(s, moves[0]), moves[1..])
  }

  // ----- What one move may do -----

  /** The only ways a record's status changes: nothing leads back to READY. */
  predicate Allowed(records: Statuses, key: Key, status: Status) {
    match status
    case Ready => key !in records
    case Pending => Has(records, key, Ready)
    case Succeeded => Has(records, key, Pending)
    case Rejected => Has(records, key, Pending)
    case Undone => Has(records, key, Succeeded) && key.Hashed?
  }

  /** A run past its claim. */
  predicate Owns(x: Executor) {
    && x.task.ToRun? && !x.pc.Begin? && !x.pc.Ended?
    && x.pc != Claiming(OfRun) && x.pc != Committing(OfRun)
  }

  /** Steps the executor has seen made: written by it, or collected for a rollback. */
  function Seen(pc: Pc): seq<Key> {
    match pc
    case Claiming(goal) => SeenBy(goal)
    case Committing(goal) => SeenBy(goal)
    case Sending(goal) => SeenBy(goal)
    case Closing(goal) => SeenBy(goal)
    case Verifying(done, _) => done
    case Collecting(made, _) => made
    case Undoing(todo) => todo
    case SavingUndo(todo, key) => todo + [key]
    case Marking(todo, key) => todo + [key]
    case _ => []
  }

  function SeenBy(goal: Goal): seq<Key> {
    match goal
    case OfStep(done, _, _) => done
    case OfUndo(todo, key) => todo + [key]
    case _ => []
  }

  /** Steps the executor may still write. */
  function Ahead(pc: Pc): seq<Key> {
    match pc
    case Claiming(goal) => AheadOf(goal)
    case Committing(goal) => AheadOf(goal)
    case Sending(goal) => AheadOf(goal)
    case Closing(goal) => AheadOf(goal)
    case Saving(rest) => rest
    case Verifying(_, rest) => rest
    case Collecting(_, rest) => rest
    case _ => []
  }

  function AheadOf(goal: Goal): seq<Key> {
    if goal.OfStep? then [goal.key] + goal.rest else []
  }

  predicate Made(records: Statuses, key: Key) {
    Has(records, key, Succeeded) || Has(records, key, Undone)
  }

  ghost predicate AllMade(records: Statuses, keys: seq<Key>) {
    forall key :: key in keys ==> Made(records, key)
  }

  /** Runs claim runs, rollbacks claim rollbacks, and only the claims of writes and undos are sent. */
  predicate RightGoal(task: Task, pc: Pc) {
    match pc
    case Claiming(goal) => (goal.OfRun? || goal.OfStep? ==> task.ToRun?) && (goal.OfRollback? ==> task.ToRollBack?)
    case Committing(goal) => (goal.OfRun? || goal.OfStep? ==> task.ToRun?) && (goal.OfRollback? ==> task.ToRollBack?)
    case Sending(goal) => (goal.OfStep? ==> task.ToRun?) && !goal.OfRun? && !goal.OfRollback?
    case Closing(goal) => (goal.OfRun? || goal.OfStep? ==> task.ToRun?) && (goal.OfRollback? ==> task.ToRollBack?)
    case Holding => task.ToRun?
    case Saving(_) => task.ToRun?
    case Verifying(_, _) => task.ToRun?
    case Preparing => task.ToRollBack?
    case Collecting(_, _) => task.ToRollBack?
    case _ => true
  }

  ghost predicate Sensible(records: Statuses, x: Executor) {
    IsTask(x.task) && RightGoal(x.task, x.pc) && AllHashed(Ahead(x.pc)) && AllHashed(Seen(x.pc))
      && AllMade(records, Seen(x.pc))
  }

  /** Everything the proofs need to know about the program, move by move. */
  ghost predicate Obeys(records: Statuses, x: Executor, act: Act) {
    && (act.write.Some? ==> Allowed(records, act.write.value.0, act.write.value.1))
    && (act.event.Won? <==> act.write.Some? && act.write.value.1 == Pending)
    && (act.event.Won? ==> act.write.value.0 == act.event.key)
    && (act.event.Sent? ==> x.pc.Sending? && act.event.key == KeyOf(x.task, x.pc.goal))
    && (act.pc.Sending? ==> act.event == Won(KeyOf(x.task, act.pc.goal)))
    && (x.pc.Sending? ==> act.event == Sent(KeyOf(x.task, x.pc.goal)))
    && (Owns(x.(pc := act.pc)) ==> Owns(x) || act.event == Won(x.task.exec))
    && (act.write.Some? && act.write.value.0.Exec? && act.write.value.1 != Ready ==>
          act.write.value.0 == x.task.exec && (act.write.value.1 == Pending || (Owns(x) && act.pc.Ended?)))
    && (Acts(x, act.event) ==> Owns(x))
  }

  ghost predicate Follows(records: Statuses, x: Executor, act: Act) {
    Obeys(records, x, act) && Sensible(Wrote(records, act.write), x.(pc := act.pc))
  }

  /** What has been seen made stays made, whatever legal write comes next. */
  lemma MadeStays(records: Statuses, write: Option<(Key, Status)>, keys: seq<Key>)
    requires AllMade(records, keys) && (write.Some? ==> Allowed(records, write.value.0, write.value.1))
    ensures AllMade(Wrote(records, write), keys)
  {
    forall key | key in keys ensures Made(Wrote(records, write), key) {
      assert Made(records, key);
      if write.Some? && write.value.0 == key {
        assert write.value.1 == Undone;
      }
    }
  }

  lemma ClaimFollows(records: Statuses, x: Executor, goal: Goal, choice: Choice)
    requires Sensible(records, x) && x.pc == Claiming(goal)
    ensures Follows(records, x, Claim(records, x, goal, choice))
  {
    var act := Claim(records, x, goal, choice);
    assert Obeys(records, x, act) by {
      hide AllMade, AllHashed;
    }
    if goal.OfStep? && Has(records, goal.key, Succeeded) {
      assert Made(records, goal.key);
    }
  }

  lemma CommitFollows(records: Statuses, x: Executor, goal: Goal)
    requires Sensible(records, x) && x.pc == Committing(goal)
    ensures Follows(records, x, Commit(records, x, goal))
  {
    var act := Commit(records, x, goal);
    assert goal.OfStep? ==> goal.key in AheadOf(goal) && goal.key.Hashed?;
    assert Obeys(records, x, act) by {
      hide AllMade, AllHashed;
    }
    MadeStays(records, act.write, SeenBy(goal));
    hide Made;
  }

  lemma CloseFollows(records: Statuses, x: Executor, goal: Goal, choice: Choice)
    requires Sensible(records, x) && x.pc == Closing(goal)
    ensures Follows(records, x, Close(records, x, goal, choice))
  {
    var act := Close(records, x, goal, choice);
    assert goal.OfStep? ==> goal.key in AheadOf(goal) && goal.key.Hashed?;
    assert Obeys(records, x, act) by {
      hide AllMade, AllHashed;
    }
    MadeStays(records, act.write, SeenBy(goal));
    if goal.OfStep? && act.pc.Verifying? {
      assert Made(Wrote(records, act.write), goal.key);
    }
    hide Made;
  }

  lemma CollectFollows(records: Statuses, x: Executor, made: seq<Key>, rest: seq<Key>)
    requires Sensible(records, x) && x.pc == Collecting(made, rest)
    ensures Follows(records, x, Collect(records, made, rest))
  {
    if rest != [] && Has(records, rest[0], Succeeded) {
      assert Made(records, rest[0]);
    }
    hide Made;
  }

  lemma UndoFollows(records: Statuses, x: Executor, todo: seq<Key>, choice: Choice)
    requires Sensible(records, x) && x.pc == Undoing(todo)
    ensures Follows(records, x, Undo(records, x, todo, choice))
  {
    hide Made;
    if todo != [] {
      assert todo == todo[..|todo| - 1] + [todo[|todo| - 1]];
    }
  }

  lemma MarkFollows(records: Statuses, x: Executor, todo: seq<Key>, key: Key, choice: Choice)
    requires Sensible(records, x) && x.pc == Marking(todo, key)
    ensures Follows(records, x, Mark(records, todo, key, choice))
  {
    assert key in todo + [key];
    MadeStays(records, Mark(records, todo, key, choice).write, todo + [key]);
    hide Made;
  }

  lemma SavingFollows(records: Statuses, x: Executor, choice: Choice)
    requires Sensible(records, x) && (x.pc.Saving? || x.pc.SavingUndo? || x.pc.Preparing?)
    ensures Follows(records, x, Does(records, x, choice))
  {
    MadeStays(records, Does(records, x, choice).write, Seen(x.pc));
    hide Made, Claim, Commit, Close, Collect, Undo, Mark;
  }

  lemma OtherFollows(records: Statuses, x: Executor, choice: Choice)
    requires Sensible(records, x)
    requires x.pc.Begin? || x.pc.Holding? || x.pc.Sending? || x.pc.Verifying? || x.pc.Ended?
    ensures Follows(records, x, Does(records, x, choice))
  {
    hide Made, Claim, Commit, Close, Collect, Undo, Mark;
  }

  lemma ProgramFollows(records: Statuses, x: Executor, choice: Choice)
    requires Sensible(records, x)
    ensures Follows(records, x, Does(records, x, choice))
  {
    hide Follows, Sensible, Claim, Commit, Close, Collect, Undo, Mark;
    match x.pc
    case Claiming(goal) => ClaimFollows(records, x, goal, choice);
    case Committing(goal) => CommitFollows(records, x, goal);
    case Closing(goal) => CloseFollows(records, x, goal, choice);
    case Collecting(made, rest) => CollectFollows(records, x, made, rest);
    case Undoing(todo) => UndoFollows(records, x, todo, choice);
    case Marking(todo, key) => MarkFollows(records, x, todo, key, choice);
    case Saving(_) => SavingFollows(records, x, choice);
    case SavingUndo(_, _) => SavingFollows(records, x, choice);
    case Preparing => SavingFollows(records, x, choice);
    case _ => OtherFollows(records, x, choice);
  }

  // ----- The invariant -----

  /** Each key is won at most once, never sent without being won, and never READY again. */
  ghost predicate Counted(s: State) {
    forall key :: s.won[key] <= 1 && s.sent[key] <= s.won[key]
      && (s.won[key] > 0 ==> key in s.records && s.records[key] != Ready)
  }

  ghost predicate AllSensible(s: State) {
    forall who :: who in s.executors ==> Sensible(s.records, s.executors[who])
  }

  predicate AboutToSend(s: State, who: nat, key: Key) {
    who in s.executors && s.executors[who].pc.Sending? && KeyOf(s.executors[who].task, s.executors[who].pc.goal) == key
  }

  /** Whoever is about to send holds the one claim of that key, not yet used, and is alone. */
  ghost predicate OneSender(s: State) {
    && (forall who, key :: AboutToSend(s, who, key) ==> s.won[key] == 1 && s.sent[key] == 0)
    && (forall who, other, key :: AboutToSend(s, who, key) && AboutToSend(s, other, key) ==> who == other)
  }

  predicate Owner(s: State, who: nat, exec: Key) {
    who in s.executors && Owns(s.executors[who]) && s.executors[who].task.exec == exec
  }

  /** Past its claim a run is the only one, and its record is PENDING. */
  ghost predicate OneOwner(s: State) {
    && (forall who, exec :: Owner(s, who, exec) ==> Has(s.records, exec, Pending))
    && (forall who, other, exec :: Owner(s, who, exec) && Owner(s, other, exec) ==> who == other)
  }

  /** An undo was sent only for a write recorded as made. */
  ghost predicate UndoneWereMade(s: State) {
    forall key :: s.sent[UndoOf(key)] > 0 ==> Made(s.records, key)
  }

  ghost predicate Invariant(s: State) {
    Counted(s) && AllSensible(s) && OneSender(s) && OneOwner(s) && UndoneWereMade(s)
  }

  lemma InvariantAtFirst(records: Statuses)
    ensures Invariant(State(records, map[], multiset{}, multiset{}, multiset{}))
  {}

  lemma StartKeeps(s: State, who: nat, task: Task)
    requires Invariant(s)
    ensures Invariant(After(s, Start(who, task)))
  {
    var next := After(s, Start(who, task));
    assert AllSensible(next) by {
      hide AboutToSend, Owner, KeyOf, Made;
    }
    hide AllSensible, Sensible, Made, KeyOf;
    assert forall other, key :: AboutToSend(next, other, key) ==> AboutToSend(s, other, key);
    assert forall other, exec :: Owner(next, other, exec) ==> Owner(s, other, exec);
  }

  /** A legal write and its event keep the counts. */
  lemma CountsKept(s: State, who: nat, choice: Choice)
    requires Invariant(s) && who in s.executors
    ensures Counted(After(s, Step(who, choice)))
  {
    var x := s.executors[who];
    var act := Does(s.records, x, choice);
    ProgramFollows(s.records, x, choice);
    hide Does, Sensible, Invariant;
    var next := After(s, Step(who, choice));
    forall key
      ensures next.won[key] <= 1 && next.sent[key] <= next.won[key]
      ensures next.won[key] > 0 ==> key in next.records && next.records[key] != Ready
    {
      if act.event.Sent? && act.event.key == key {
        assert AboutToSend(s, who, key);
      }
    }
  }

  lemma SensibleKept(s: State, who: nat, choice: Choice)
    requires AllSensible(s) && who in s.executors
    ensures AllSensible(After(s, Step(who, choice)))
  {
    var x := s.executors[who];
    var act := Does(s.records, x, choice);
    ProgramFollows(s.records, x, choice);
    hide Does, AllMade, AllHashed, RightGoal, Seen, Ahead;
    var next := After(s, Step(who, choice));
    forall other | other in next.executors ensures Sensible(next.records, next.executors[other]) {
      if other != who {
        MadeStays(s.records, act.write, Seen(s.executors[other].pc));
      }
    }
  }

  /** The mover sends what it was about to send, and is about to send only what it has just won from READY. */
  lemma MoverSends(s: State, who: nat, choice: Choice)
    requires AllSensible(s) && who in s.executors
    ensures var x, act := s.executors[who], Does(s.records, s.executors[who], choice);
      && (act.event.Won? ==> Has(s.records, act.event.key, Ready))
      && (act.event.Sent? ==> AboutToSend(s, who, act.event.key))
      && (forall key :: AboutToSend(s, who, key) ==> act.event == Sent(key))
      && (forall key :: AboutToSend(After(s, Step(who, choice)), who, key) ==> act.event == Won(key))
  {
    ProgramFollows(s.records, s.executors[who], choice);
    hide Does;
  }

  /** Whoever is about to send after a move was so before it, or has just won the claim from READY. */
  lemma SenderBefore(s: State, who: nat, choice: Choice, other: nat, key: Key)
    requires Invariant(s) && who in s.executors && AboutToSend(After(s, Step(who, choice)), other, key)
    ensures AboutToSend(s, other, key) || Has(s.records, key, Ready)
    ensures AboutToSend(s, other, key) <==> other != who
    ensures After(s, Step(who, choice)).won[key] == 1 && After(s, Step(who, choice)).sent[key] == 0
  {
    MoverSends(s, who, choice);
    hide Does, UndoneWereMade, OneOwner, AllSensible;
    assert other != who ==> AboutToSend(s, other, key);
  }

  lemma SenderKept(s: State, who: nat, choice: Choice)
    requires Invariant(s) && who in s.executors
    ensures OneSender(After(s, Step(who, choice)))
  {
    hide Does, Counted, UndoneWereMade, OneOwner, AllSensible, AboutToSend, After;
    var next := After(s, Step(who, choice));
    forall other: nat, key | AboutToSend(next, other, key) ensures next.won[key] == 1 && next.sent[key] == 0 {
      SenderBefore(s, who, choice, other, key);
    }
    forall one: nat, other: nat, key | AboutToSend(next, one, key) && AboutToSend(next, other, key)
      ensures one == other {
      SenderBefore(s, who, choice, one, key);
      SenderBefore(s, who, choice, other, key);
      if one == who && other != who {
        SecondClaim(s, other, key);
      } else if one != who && other == who {
        SecondClaim(s, one, key);
      }
    }
  }

  /** A key somebody is about to send cannot be claimed again. */
  lemma SecondClaim(s: State, who: nat, key: Key)
    requires Invariant(s) && AboutToSend(s, who, key)
    ensures !Has(s.records, key, Ready)
  {}

  lemma OwnerKept(s: State, who: nat, choice: Choice)
    requires Invariant(s) && who in s.executors
    ensures OneOwner(After(s, Step(who, choice)))
  {
    var x := s.executors[who];
    var act := Does(s.records, x, choice);
    ProgramFollows(s.records, x, choice);
    ExecOfTask(s, who);
    hide Does, Sensible, UndoneWereMade, OneSender, Counted, Owns;
    var next := After(s, Step(who, choice));
    forall other, exec | Owner(next, other, exec) ensures Has(next.records, exec, Pending) {
      ExecOfTask(s, other);
      OwnedBefore(s, who, choice, other, exec);
    }
    forall one, other, exec | Owner(next, one, exec) && Owner(next, other, exec) ensures one == other {
      if one != other {
        OwnedBefore(s, who, choice, one, exec);
        OwnedBefore(s, who, choice, other, exec);
      }
    }
  }

  lemma ExecOfTask(s: State, who: nat)
    requires AllSensible(s)
    ensures who in s.executors ==> s.executors[who].task.exec.Exec?
  {}

  /** Whoever owns a run after a move owned it before, or has just claimed it from READY; its record is PENDING. */
  lemma OwnedBefore(s: State, who: nat, choice: Choice, other: nat, exec: Key)
    requires OneOwner(s) && AllSensible(s) && who in s.executors
    requires Owner(After(s, Step(who, choice)), other, exec)
    ensures Owner(s, other, exec) || (other == who && Has(s.records, exec, Ready))
    ensures Has(After(s, Step(who, choice)).records, exec, Pending)
  {
    var x := s.executors[who];
    var act := Does(s.records, x, choice);
    ProgramFollows(s.records, x, choice);
    ExecOfTask(s, other);
    hide Does, Sensible;
    assert Owns(x) && x.task.exec == exec ==> Owner(s, who, exec);
  }

  lemma UndoneKept(s: State, who: nat, choice: Choice)
    requires Invariant(s) && who in s.executors
    ensures UndoneWereMade(After(s, Step(who, choice)))
  {
    var x := s.executors[who];
    var act := Does(s.records, x, choice);
    ProgramFollows(s.records, x, choice);
    assert Sensible(s.records, x);
    hide Does, OneOwner, OneSender, Counted, AllSensible;
    var next := After(s, Step(who, choice));
    forall key | next.sent[UndoOf(key)] > 0 ensures Made(next.records, key) {
      if s.sent[UndoOf(key)] == 0 {
        assert x.pc.Sending? && KeyOf(x.task, x.pc.goal) == UndoOf(key);
        SendsUndoOfMade(s.records, x, key);
      }
      MadeStays(s.records, act.write, [key]);
      assert key in [key];
    }
  }

  lemma SendsUndoOfMade(records: Statuses, x: Executor, key: Key)
    requires Sensible(records, x) && x.pc.Sending? && KeyOf(x.task, x.pc.goal) == UndoOf(key)
    ensures Made(records, key)
  {
    if x.pc.goal.OfStep? {
      NextIsHashed(x.pc.goal);
    } else {
      assert key in Seen(x.pc);
    }
  }

  lemma NextIsHashed(goal: Goal)
    requires goal.OfStep? && AllHashed(AheadOf(goal))
    ensures goal.key.Hashed?
  {
    assert goal.key in AheadOf(goal);
  }

  lemma MoveKeeps(s: State, move: Move)
    requires Invariant(s)
    ensures Invariant(After(s, move))
  {
    hide Counted, AllSensible, OneSender, OneOwner, UndoneWereMade, Does;
    match move
    case Start(who, task) => StartKeeps(s, who, task);
    case Step(who, choice) =>
      if who in s.executors {
        CountsKept(s, who, choice);
        SensibleKept(s, who, choice);
        SenderKept(s, who, choice);
        OwnerKept(s, who, choice);
        UndoneKept(s, who, choice);
      }
  }

  // ----- Over every run -----

  lemma {:induction false} RunKeeps(s: State, moves: seq<Move>)
    requires Invariant(s)
    ensures Invariant(Run(s, moves))
    decreases |moves|
  {
    hide Invariant, After;
    if moves != [] {
      MoveKeeps(s, moves[0]);
      RunKeeps(After(s, moves[0]), moves[1..]);
    }
  }

  /**
   However executors interleave, retry and crash, from any journal at rest: each key is claimed at
   most once, each apply and each undo is sent at most once and only by the winner of its claim, and
   an undo is sent only for a write that is recorded as made.
   */
  lemma SentAtMostOnce(records: Statuses, moves: seq<Move>, key: Key)
    ensures var end := Run(State(records, map[], multiset{}, multiset{}, multiset{}), moves);
      && end.won[key] <= 1 && end.sent[key] <= end.won[key]
      && (end.sent[UndoOf(key)] > 0 ==> Made(end.records, key))
  {
    InvariantAtFirst(records);
    RunKeeps(State(records, map[], multiset{}, multiset{}, multiset{}), moves);
  }

  // ----- What the counts say of the records -----

  /** A write or an undo, which are sent; a run or a rollback is not. */
  predicate IsSent(key: Key) {
    key.Hashed? || key.UndoOf?
  }

  predicate SendsGoal(goal: Goal) {
    goal.OfStep? || goal.OfUndo?
  }

  predicate Over(records: Statuses, key: Key) {
    key in records && records[key] in {Succeeded, Rejected, Undone}
  }

  predicate AccountedAt(s: State, key: Key) {
    && s.won[key] == (if key in s.records && s.records[key] != Ready then 1 else 0)
    && (IsSent(key) && Over(s.records, key) ==> s.sent[key] == 1)
    && (Has(s.records, key, Undone) ==> Has(s.records, UndoOf(key), Succeeded))
  }

  ghost predicate Accounted(s: State) {
    forall key :: AccountedAt(s, key)
  }

  /** Whoever may record an answer has sent for it, and whoever may mark a write undone finds its undo recorded. */
  ghost predicate Prompted(s: State) {
    forall who :: who in s.executors ==>
      var x := s.executors[who];
      && (x.pc.Closing? && SendsGoal(x.pc.goal) ==> s.sent[KeyOf(x.task, x.pc.goal)] == 1)
      && (x.pc.Marking? ==> Has(s.records, UndoOf(x.pc.key), Succeeded))
  }

  /** What a move writes, and what it then may go on to do. */
  ghost predicate Prompts(records: Statuses, x: Executor, act: Act) {
    && (act.pc.Closing? && SendsGoal(act.pc.goal) ==> act.event == Sent(KeyOf(x.task, act.pc.goal)))
    && (act.pc.Marking? ==> Has(Wrote(records, act.write), UndoOf(act.pc.key), Succeeded))
    && (act.write.Some? && act.write.value.1 in {Succeeded, Rejected} && IsSent(act.write.value.0) ==>
          x.pc.Closing? && SendsGoal(x.pc.goal) && act.write.value.0 == KeyOf(x.task, x.pc.goal))
    && (act.write.Some? && act.write.value.1 == Undone ==> x.pc.Marking? && act.write.value.0 == x.pc.key)
  }

  lemma ClaimPrompts(records: Statuses, x: Executor, goal: Goal, choice: Choice)
    requires x.pc == Claiming(goal) || x.pc == Committing(goal) || x.pc == Closing(goal)
    requires x.task.exec.Exec?
    ensures x.pc.Claiming? ==> Prompts(records, x, Claim(records, x, goal, choice))
    ensures x.pc.Committing? ==> Prompts(records, x, Commit(records, x, goal))
    ensures x.pc.Closing? ==> Prompts(records, x, Close(records, x, goal, choice))
  {}

  lemma ProgramPrompts(records: Statuses, x: Executor, choice: Choice)
    requires IsTask(x.task)
    ensures Prompts(records, x, Does(records, x, choice))
  {
    if x.pc.Claiming? || x.pc.Committing? || x.pc.Closing? {
      ClaimPrompts(records, x, x.pc.goal, choice);
      hide Prompts, Claim, Commit, Close;
    } else {
      hide Claim, Commit, Close, AllHashed;
    }
  }

  lemma WonKept(s: State, who: nat, choice: Choice, key: Key)
    requires AllSensible(s) && AccountedAt(s, key) && who in s.executors
    ensures var next := After(s, Step(who, choice));
      next.won[key] == if key in next.records && next.records[key] != Ready then 1 else 0
  {
    ProgramFollows(s.records, s.executors[who], choice);
    hide Does, Sensible, KeyOf, Acts, Owns, IsSent, Over;
  }

  lemma SentKept(s: State, who: nat, choice: Choice, key: Key)
    requires Invariant(s) && AccountedAt(s, key) && Prompted(s) && who in s.executors && IsSent(key)
    requires Over(After(s, Step(who, choice)).records, key)
    ensures After(s, Step(who, choice)).sent[key] == 1
  {
    var x := s.executors[who];
    var act := Does(s.records, x, choice);
    assert s.sent[key] <= 1;
    MoverSends(s, who, choice);
    assert act.event == Sent(key) ==> s.sent[key] == 0 by {
      if act.event == Sent(key) {
        assert AboutToSend(s, who, key);
      }
    }
    assert x.pc.Closing? && SendsGoal(x.pc.goal) ==> s.sent[KeyOf(x.task, x.pc.goal)] == 1;
    assert IsTask(x.task) by {
      assert Sensible(s.records, x);
    }
    ProgramPrompts(s.records, x, choice);
    ProgramFollows(s.records, x, choice);
    hide Does, Sensible, KeyOf, Acts, Owns, Invariant, Prompted, AboutToSend;
  }

  lemma UndoneKeeps(s: State, who: nat, choice: Choice, key: Key)
    requires AllSensible(s) && AccountedAt(s, key) && Prompted(s) && who in s.executors
    requires Has(After(s, Step(who, choice)).records, key, Undone)
    ensures Has(After(s, Step(who, choice)).records, UndoOf(key), Succeeded)
  {
    var x := s.executors[who];
    assert Sensible(s.records, x);
    ProgramPrompts(s.records, x, choice);
    ProgramFollows(s.records, x, choice);
    hide Does, Sensible, KeyOf, Acts, Owns;
  }

  lemma KeyAccounted(s: State, who: nat, choice: Choice, key: Key)
    requires Invariant(s) && AccountedAt(s, key) && Prompted(s) && who in s.executors
    ensures AccountedAt(After(s, Step(who, choice)), key)
  {
    hide After, Counted, AllSensible, OneSender, OneOwner, UndoneWereMade, Prompted, IsSent, Over, Has;
    var next := After(s, Step(who, choice));
    WonKept(s, who, choice, key);
    if IsSent(key) && Over(next.records, key) {
      SentKept(s, who, choice, key);
    }
    if Has(next.records, key, Undone) {
      UndoneKeeps(s, who, choice, key);
    }
  }

  lemma AccountedKept(s: State, who: nat, choice: Choice)
    requires Invariant(s) && Accounted(s) && Prompted(s) && who in s.executors
    ensures Accounted(After(s, Step(who, choice)))
  {
    hide After, Invariant, Prompted, AccountedAt;
    forall key ensures AccountedAt(After(s, Step(who, choice)), key) {
      KeyAccounted(s, who, choice, key);
    }
  }

  /** What prompts a move of another executor is still so after this one. */
  lemma OtherPrompted(s: State, who: nat, choice: Choice, other: nat)
    requires Invariant(s) && Prompted(s) && who in s.executors && other in s.executors && other != who
    ensures var y, next := s.executors[other], After(s, Step(who, choice));
      && (y.pc.Closing? && SendsGoal(y.pc.goal) ==> next.sent[KeyOf(y.task, y.pc.goal)] == 1)
      && (y.pc.Marking? ==> Has(next.records, UndoOf(y.pc.key), Succeeded))
  {
    var x, y := s.executors[who], s.executors[other];
    var act := Does(s.records, x, choice);
    MoverSends(s, who, choice);
    if act.event.Sent? {
      assert AboutToSend(s, who, act.event.key) && s.sent[act.event.key] == 0;
    }
    assert Sensible(s.records, x);
    MadeUndo(s.records, x, choice, UndoOf(if y.pc.Marking? then y.pc.key else x.task.exec));
    assert y.pc.Closing? && SendsGoal(y.pc.goal) ==> s.sent[KeyOf(y.task, y.pc.goal)] == 1;
    assert y.pc.Marking? ==> Has(s.records, UndoOf(y.pc.key), Succeeded);
    hide Does, Sensible, KeyOf, Acts, Owns, Invariant, Prompted, AboutToSend, Has;
  }

  /** An undo recorded as made stays so. */
  lemma MadeUndo(records: Statuses, x: Executor, choice: Choice, undo: Key)
    requires Sensible(records, x) && undo.UndoOf?
    ensures Has(records, undo, Succeeded) ==> Has(Wrote(records, Does(records, x, choice).write), undo, Succeeded)
  {
    ProgramFollows(records, x, choice);
    hide Does, Sensible;
  }

  lemma PromptedKept(s: State, who: nat, choice: Choice)
    requires Invariant(s) && Prompted(s) && who in s.executors
    ensures Prompted(After(s, Step(who, choice)))
  {
    var x := s.executors[who];
    var act := Does(s.records, x, choice);
    var next := After(s, Step(who, choice));
    assert Sensible(s.records, x);
    ProgramPrompts(s.records, x, choice);
    MoverSends(s, who, choice);
    if act.event.Sent? {
      assert AboutToSend(s, who, act.event.key) && s.sent[act.event.key] == 0;
    }
    hide Does, Sensible, Counted, OneSender, OneOwner, AllSensible, UndoneWereMade, Acts, KeyOf, AboutToSend;
    forall other | other in next.executors
      ensures var y := next.executors[other];
        && (y.pc.Closing? && SendsGoal(y.pc.goal) ==> next.sent[KeyOf(y.task, y.pc.goal)] == 1)
        && (y.pc.Marking? ==> Has(next.records, UndoOf(y.pc.key), Succeeded))
    {
      if other != who {
        hide Prompted;
        OtherPrompted(s, who, choice, other);
      }
    }
  }

  lemma {:induction false} RunAccounts(s: State, moves: seq<Move>)
    requires Invariant(s) && Accounted(s) && Prompted(s)
    ensures Accounted(Run(s, moves)) && Invariant(Run(s, moves))
    decreases |moves|
  {
    hide Invariant, After, Accounted, Prompted;
    if moves != [] {
      MoveKeeps(s, moves[0]);
      MoveAccounts(s, moves[0]);
      RunAccounts(After(s, moves[0]), moves[1..]);
    }
  }

  lemma MoveAccounts(s: State, move: Move)
    requires Invariant(s) && Accounted(s) && Prompted(s)
    ensures Accounted(After(s, move)) && Prompted(After(s, move))
  {
    if move.Step? && move.who in s.executors {
      AccountedKept(s, move.who, move.choice);
      PromptedKept(s, move.who, move.choice);
    } else {
      hide Invariant;
      forall key ensures AccountedAt(After(s, move), key) {
        assert AccountedAt(s, key);
      }
    }
  }

  /**
   From an empty journal, in every interleaving: a key has been claimed exactly when its record is past READY; a
   write or undo was sent exactly once if its record is SUCCEEDED, REJECTED or UNDONE, at most once while it is
   PENDING and never before; and a write is UNDONE only when its undo was sent and recorded as made.
   */
  lemma RecordsTellWhatWasSent(moves: seq<Move>, key: Key)
    ensures var end := Run(State(map[], map[], multiset{}, multiset{}, multiset{}), moves);
      && end.won[key] == (if key in end.records && end.records[key] != Ready then 1 else 0)
      && end.sent[key] <= end.won[key]
      && ((key.Hashed? || key.UndoOf?) && key in end.records && end.records[key] in {Succeeded, Rejected, Undone} ==>
            end.sent[key] == 1)
      && (key in end.records && end.records[key] == Undone ==>
            UndoOf(key) in end.records && end.records[UndoOf(key)] == Succeeded && end.sent[UndoOf(key)] == 1)
  {
    InvariantAtFirst(map[]);
    RunAccounts(State(map[], map[], multiset{}, multiset{}, multiset{}), moves);
    hide Run;
    var end := Run(State(map[], map[], multiset{}, multiset{}, multiset{}), moves);
    assert AccountedAt(end, key) && AccountedAt(end, UndoOf(key));
  }

  lemma SucceededStays(s: State, move: Move, exec: Key)
    requires Invariant(s) && exec.Exec? && Has(s.records, exec, Succeeded)
    ensures Has(After(s, move).records, exec, Succeeded) && After(s, move).acted[exec] == s.acted[exec]
  {
    if move.Step? && move.who in s.executors {
      var x := s.executors[move.who];
      ProgramFollows(s.records, x, move.choice);
      ExecOfTask(s, move.who);
      hide Does, Sensible, Owns;
      assert !Owner(s, move.who, exec);
    }
  }

  /**
   Once a run's record is SUCCEEDED it stays so, and whatever executors come later, no run of that
   part holds stock or sends a write again: each of them only reads the stored results.
   */
  lemma {:induction false} FinishedRunActsNoMore(s: State, moves: seq<Move>, exec: Key)
    requires Invariant(s) && exec.Exec? && Has(s.records, exec, Succeeded)
    ensures Has(Run(s, moves).records, exec, Succeeded) && Run(s, moves).acted[exec] == s.acted[exec]
    decreases |moves|
  {
    hide Invariant, After;
    if moves != [] {
      SucceededStays(s, moves[0], exec);
      MoveKeeps(s, moves[0]);
      FinishedRunActsNoMore(After(s, moves[0]), moves[1..], exec);
    }
  }

  // ----- What a claimed run finds -----

  ghost predicate NoRepeats(keys: seq<Key>) {
    forall i, j :: 0 <= i < j < |keys| ==> keys[i] != keys[j]
  }

  /** `run` names the run each step belongs to: the parts of a plan share no action, and a key names its action. */
  ghost predicate Belongs(run: Key -> Key, task: Task) {
    NoRepeats(task.steps) && forall key :: key in task.steps ==> run(key) == task.exec
  }

  /** Every stored step belongs to a run that has been claimed. */
  ghost predicate Founded(records: Statuses, run: Key -> Key) {
    forall key :: key in records && key.Hashed? ==> run(key) in records && records[run(key)] != Ready
  }

  /** The steps a run past its claim has still to save. */
  function Unsaved(x: Executor): seq<Key> {
    match x.pc
    case Holding => x.task.steps
    case Saving(rest) => rest
    case _ => []
  }

  ghost predicate SavesNew(records: Statuses, run: Key -> Key, x: Executor) {
    && Belongs(run, x.task) && NoRepeats(Unsaved(x))
    && forall key :: key in Unsaved(x) ==> run(key) == x.task.exec && key !in records
  }

  ghost predicate AllSaveNew(s: State, run: Key -> Key) {
    Founded(s.records, run) && forall who :: who in s.executors ==> SavesNew(s.records, run, s.executors[who])
  }

  /** The program stores a new step only where a run saves its next undo. */
  lemma StoresOnlyNext(records: Statuses, x: Executor, choice: Choice)
    requires Sensible(records, x)
    ensures var act := Does(records, x, choice);
      act.write.Some? && act.write.value.0.Hashed? && act.write.value.0 !in records ==>
        && x.pc.Saving? && x.pc.rest != [] && act.write.value.0 == x.pc.rest[0] && act.pc == Saving(x.pc.rest[1..])
        && Owns(x)
  {
    ProgramFollows(records, x, choice);
    hide AllMade, AllHashed, Claim, Commit, Close, Collect, Undo, Mark;
    assert x.pc.SavingUndo? || x.pc.Preparing? || x.pc.Begin? || x.pc.Saving? || Does(records, x, choice).write.None?
        || Does(records, x, choice).write.value.1 != Ready by {
      OnlyFourStore(records, x, choice);
    }
  }

  lemma OnlyFourStore(records: Statuses, x: Executor, choice: Choice)
    ensures x.pc.SavingUndo? || x.pc.Preparing? || x.pc.Begin? || x.pc.Saving? || Does(records, x, choice).write.None?
         || Does(records, x, choice).write.value.1 != Ready
  {}

  /** A run starts holding only by claiming its record, and saves its steps in order. */
  lemma UnsavedNext(records: Statuses, x: Executor, choice: Choice)
    requires Sensible(records, x)
    ensures var act := Does(records, x, choice);
      var next := x.(pc := act.pc);
      Unsaved(next) == [] || (x.pc.Holding? && Unsaved(next) == Unsaved(x) && act.write.None?)
      || (x.pc.Saving? && x.pc.rest != [] && Unsaved(next) == x.pc.rest[1..]
          && act.write == if x.pc.rest[0] in records then None else Some((x.pc.rest[0], Ready)))
      || (Unsaved(next) == x.task.steps && Has(records, x.task.exec, Ready)
         && act.write == Some((x.task.exec, Pending)))
  {
    hide AllMade, AllHashed, Close, Collect, Undo, Mark;
    if x.pc.Closing? || x.pc.Collecting? || x.pc.Undoing? || x.pc.Marking? {
      NeverSaves(records, x, choice);
    }
  }

  lemma NeverSaves(records: Statuses, x: Executor, choice: Choice)
    requires x.pc.Closing? || x.pc.Collecting? || x.pc.Undoing? || x.pc.Marking?
    ensures Unsaved(x.(pc := Does(records, x, choice).pc)) == []
  {}

  lemma FoundedKept(records: Statuses, run: Key -> Key, x: Executor, choice: Choice)
    requires Sensible(records, x) && Founded(records, run) && SavesNew(records, run, x)
    requires Owns(x) ==> Has(records, x.task.exec, Pending)
    ensures Founded(Wrote(records, Does(records, x, choice).write), run)
  {
    var act := Does(records, x, choice);
    ProgramFollows(records, x, choice);
    StoresOnlyNext(records, x, choice);
    assert x.pc.Saving? && x.pc.rest != [] ==> x.pc.rest[0] in Unsaved(x);
    assert x.task.exec.Exec?;
    hide Does, Follows, Sensible, Owns, Belongs, NoRepeats;
    assert act.write.Some? ==> Allowed(records, act.write.value.0, act.write.value.1) by {
      ProgramObeys(records, x, choice);
    }
    var after := Wrote(records, act.write);
    forall key | key in after && key.Hashed? ensures run(key) in after && after[run(key)] != Ready {
    }
  }

  lemma ProgramObeys(records: Statuses, x: Executor, choice: Choice)
    requires Sensible(records, x)
    ensures var act := Does(records, x, choice); act.write.Some? ==>
            Allowed(records, act.write.value.0, act.write.value.1)
  {
    ProgramFollows(records, x, choice);
  }

  lemma OwnSavesNew(records: Statuses, run: Key -> Key, x: Executor, choice: Choice)
    requires Sensible(records, x) && Founded(records, run) && SavesNew(records, run, x)
    ensures var act := Does(records, x, choice); SavesNew(Wrote(records, act.write), run, x.(pc := act.pc))
  {
    var act := Does(records, x, choice);
    UnsavedNext(records, x, choice);
    assert IsTask(x.task);
    hide Does, Sensible;
    assert forall key :: key in x.task.steps ==> key.Hashed?;
    if x.pc.Saving? && x.pc.rest != [] {
      assert forall k :: 0 <= k < |x.pc.rest[1..]| ==> x.pc.rest[1..][k] == x.pc.rest[k + 1];
      assert forall key :: key in x.pc.rest[1..] ==> key in x.pc.rest;
    }
  }

  /** Nobody else saves a step of a run that has an owner. */
  lemma OtherSavesNew(records: Statuses, run: Key -> Key, x: Executor, choice: Choice, y: Executor)
    requires Sensible(records, x) && SavesNew(records, run, x) && SavesNew(records, run, y) && RightGoal(y.task, y.pc)
    requires AllHashed(Unsaved(y)) && !(Owns(x) && Owns(y) && x.task.exec == y.task.exec)
    ensures SavesNew(Wrote(records, Does(records, x, choice).write), run, y)
  {
    var act := Does(records, x, choice);
    StoresOnlyNext(records, x, choice);
    assert Unsaved(y) != [] ==> Owns(y);
    assert x.pc.Saving? && x.pc.rest != [] ==> x.pc.rest[0] in Unsaved(x);
    hide Does, Sensible, Belongs, NoRepeats, Owns;
  }

  lemma StepSavesNew(s: State, run: Key -> Key, who: nat, choice: Choice)
    requires Invariant(s) && AllSaveNew(s, run) && who in s.executors
    ensures AllSaveNew(After(s, Step(who, choice)), run)
  {
    var x := s.executors[who];
    assert Sensible(s.records, x);
    assert Owns(x) ==> Owner(s, who, x.task.exec);
    FoundedKept(s.records, run, x, choice);
    OwnSavesNew(s.records, run, x, choice);
    var next := After(s, Step(who, choice));
    forall other | other in next.executors ensures SavesNew(next.records, run, next.executors[other]) {
      if other != who {
        var y := s.executors[other];
        assert Sensible(s.records, y);
        assert Owns(y) ==> Owner(s, other, y.task.exec);
        UnsavedHashed(s.records, y);
        OtherSavesNew(s.records, run, x, choice, y);
      }
    }
  }

  lemma UnsavedHashed(records: Statuses, x: Executor)
    requires Sensible(records, x)
    ensures AllHashed(Unsaved(x)) && RightGoal(x.task, x.pc)
  {}

  /** Whoever is started has a part of its own. */
  ghost predicate StartsBelong(run: Key -> Key, moves: seq<Move>) {
    forall i :: 0 <= i < |moves| && moves[i].Start? ==> Belongs(run, moves[i].task)
  }

  lemma {:induction false} RunSavesNew(s: State, run: Key -> Key, moves: seq<Move>)
    requires Invariant(s) && AllSaveNew(s, run) && StartsBelong(run, moves)
    ensures AllSaveNew(Run(s, moves), run) && Invariant(Run(s, moves))
    decreases |moves|
  {
    hide Invariant, After, SavesNew, Founded, Belongs;
    if moves != [] {
      MoveKeeps(s, moves[0]);
      MoveSavesNew(s, run, moves[0]);
      forall i | 0 <= i < |moves[1..]| && moves[1..][i].Start? ensures Belongs(run, moves[1..][i].task) {
        assert moves[1..][i] == moves[i + 1];
      }
      RunSavesNew(After(s, moves[0]), run, moves[1..]);
    }
  }

  lemma MoveSavesNew(s: State, run: Key -> Key, move: Move)
    requires Invariant(s) && AllSaveNew(s, run) && (move.Start? ==> Belongs(run, move.task))
    ensures AllSaveNew(After(s, move), run)
  {
    if move.Step? && move.who in s.executors {
      StepSavesNew(s, run, move.who, move.choice);
    } else {
      hide Invariant, Founded, Belongs;
    }
  }

  /**
   However executors interleave, retry and crash, a run that won its claim finds no record of any step of its
   part: the undo of every step is prepared by the very run that then writes it.
   */
  lemma ClaimedRunFindsNoSteps(records: Statuses, run: Key -> Key, moves: seq<Move>, who: nat, key: Key)
    requires Founded(records, run) && StartsBelong(run, moves)
    ensures var end := Run(State(records, map[], multiset{}, multiset{}, multiset{}), moves);
      who in end.executors && key in Unsaved(end.executors[who]) ==> key !in end.records
  {
    InvariantAtFirst(records);
    RunSavesNew(State(records, map[], multiset{}, multiset{}, multiset{}), run, moves);
    hide Run;
  }
}
