/** Executors that nobody disturbs, move by move: what the programs of JournalRaces get done. */
module JournalRuns {
  import opened Basics
  import opened WriteJournal
  import opened JournalRaces

  lemma {:induction false} RunJoins(s: State, a: seq<Move>, b: seq<Move>)
    ensures Run(s, a + b) == Run(Run(s, a), b)
    decreases |a|
  {
    hide After;
    if a == [] {
      assert a + b == b;
    } else {
      assert (a + b)[0] == a[0] && (a + b)[1..] == a[1..] + b;
      RunJoins(After(s, a[0]), a[1..], b);
    }
  }

  /** One executor went on to `pc`; the journal is `records`, and these writes and undos have been sent since. */
  ghost predicate Gone(s: State, t: State, who: nat, pc: Pc, records: Statuses, sent: multiset<Key>) {
    && who in s.executors && t.executors == s.executors[who := s.executors[who].(pc := pc)]
    && t.records == records && t.sent == s.sent + sent
  }

  /** One move in which the boundary does its part. */
  lemma Moved(s: State, who: nat, choice: Choice) returns (moves: seq<Move>)
    requires who in s.executors
    ensures var act := Does(s.records, s.executors[who], choice);
      Gone(s, Run(s, moves), who, act.pc, Wrote(s.records, act.write),
           if act.event.Sent? then multiset{act.event.key} else multiset{})
  {
    moves := [Step(who, choice)];
    hide Does, Acts;
    assert moves[1..] == [];
    assert Run(s, moves) == Run(After(s, moves[0]), []);
  }

  lemma GoneOn(s: State, t: State, u: State, who: nat, pc: Pc, next: Pc, middle: Statuses, records: Statuses,
               sent: multiset<Key>, more: multiset<Key>)
    requires Gone(s, t, who, pc, middle, sent) && Gone(t, u, who, next, records, more)
    ensures Gone(s, u, who, next, records, sent + more)
  {}

  lemma NothingMore(sent: multiset<Key>)
    ensures sent + multiset{} == sent == multiset{} + sent
  {}

  /** One more move after others. */
  lemma Further(s: State, moves: seq<Move>, who: nat, pc: Pc, records: Statuses, sent: multiset<Key>, choice: Choice)
    returns (more: seq<Move>)
    requires Gone(s, Run(s, moves), who, pc, records, sent)
    ensures var act := Does(records, s.executors[who].(pc := pc), choice);
      Gone(s, Run(s, more), who, act.pc, Wrote(records, act.write),
           if act.event.Sent? then sent + multiset{act.event.key} else sent)
  {
    hide Run, Does;
    var t := Run(s, moves);
    var last := Moved(t, who, choice);
    more := moves + last;
    RunJoins(s, moves, last);
    var act := Does(records, s.executors[who].(pc := pc), choice);
    GoneOn(s, t, Run(t, last), who, pc, act.pc, records, Wrote(records, act.write), sent,
           if act.event.Sent? then multiset{act.event.key} else multiset{});
    assert sent + multiset{} == sent;
  }

  // ----- A run -----

  /** A saved write that can be claimed is claimed, sent and recorded as made. */
  lemma WriteOne(s: State, who: nat, done: seq<Key>, key: Key, rest: seq<Key>) returns (moves: seq<Move>)
    requires who in s.executors && s.executors[who].pc == Claiming(OfStep(done, key, rest))
    requires Has(s.records, key, Ready)
    ensures Gone(s, Run(s, moves), who, NextWrite(done + [key], rest), s.records[key := Succeeded], multiset{key})
  {
    hide Run, Gone;
    moves := Moved(s, who, Well);
    moves := Further(s, moves, who, Committing(OfStep(done, key, rest)), s.records, multiset{}, Well);
    var pending := s.records[key := Pending];
    moves := Further(s, moves, who, Sending(OfStep(done, key, rest)), pending, multiset{}, Well);
    assert multiset{} + multiset{key} == multiset{key};
    moves := Further(s, moves, who, Closing(OfStep(done, key, rest)), pending, multiset{key}, Well);
    assert pending[key := Succeeded] == s.records[key := Succeeded];
    moves := Further(s, moves, who, Verifying(done + [key], rest), s.records[key := Succeeded], multiset{key}, Well);
  }

  /** Every one of these keys has this status, and all others are as they were. */
  ghost predicate Became(a: Statuses, b: Statuses, keys: seq<Key>, status: Status) {
    && (forall key :: key in keys ==> Has(b, key, status))
    && (forall key :: key !in keys ==> (key in b <==> key in a) && (key in a ==> b[key] == a[key]))
  }

  lemma BecameOneMore(a: Statuses, c: Statuses, key: Key, rest: seq<Key>, status: Status)
    requires Became(a[key := status], c, rest, status) && key !in rest
    ensures Became(a, c, [key] + rest, status)
  {
    assert forall k :: k in [key] + rest <==> k == key || k in rest;
  }

  /** A run with its steps saved writes them all. */
  lemma {:induction false} WriteRest(s: State, who: nat, done: seq<Key>, rest: seq<Key>) returns (moves: seq<Move>)
    requires who in s.executors && s.executors[who].pc == NextWrite(done, rest)
    requires NoRepeats(rest) && forall key :: key in rest ==> Has(s.records, key, Ready)
    ensures Gone(s, Run(s, moves), who, Closing(OfRun), Run(s, moves).records, multiset(rest))
    ensures Became(s.records, Run(s, moves).records, rest, Succeeded)
    decreases |rest|
  {
    if rest == [] {
      moves := [];
    } else {
      var key, later := rest[0], rest[1..];
      assert rest == [key] + later && NoRepeats(later) && key !in later by {
        forall i, j | 0 <= i < j < |later| ensures later[i] != later[j] {
          assert later[i] == rest[i + 1] && later[j] == rest[j + 1];
        }
      }
      var first := WriteOne(s, who, done, key, later);
      var t := Run(s, first);
      forall k | k in later ensures Has(t.records, k, Ready) {
        assert k in rest && k != key;
      }
      hide Run, NoRepeats;
      var second := WriteRest(t, who, done + [key], later);
      moves := first + second;
      RunJoins(s, first, second);
      GoneOn(s, t, Run(t, second), who, NextWrite(done + [key], later), Closing(OfRun), t.records,
             Run(t, second).records, multiset{key}, multiset(later));
      BecameOneMore(s.records, Run(t, second).records, key, later, Succeeded);
      assert multiset(rest) == multiset{key} + multiset(later);
    }
  }

  /** A run saves the undo of every step that is not there yet. */
  lemma {:induction false} SaveRest(s: State, who: nat, rest: seq<Key>) returns (moves: seq<Move>)
    requires who in s.executors && s.executors[who].pc == Saving(rest)
    requires NoRepeats(rest) && forall key :: key in rest ==> key !in s.records
    ensures Gone(s, Run(s, moves), who, NextWrite([], s.executors[who].task.steps), Run(s, moves).records, multiset{})
    ensures Became(s.records, Run(s, moves).records, rest, Ready)
    decreases |rest|
  {
    var first := Moved(s, who, Well);
    var t := Run(s, first);
    if rest == [] {
      moves := first;
    } else {
      var key, later := rest[0], rest[1..];
      assert rest == [key] + later && NoRepeats(later) && key !in later by {
        forall i, j | 0 <= i < j < |later| ensures later[i] != later[j] {
          assert later[i] == rest[i + 1] && later[j] == rest[j + 1];
        }
      }
      hide Run, NoRepeats;
      assert t.records == s.records[key := Ready];
      var second := SaveRest(t, who, later);
      moves := first + second;
      RunJoins(s, first, second);
      GoneOn(s, t, Run(t, second), who, Saving(later), NextWrite([], s.executors[who].task.steps), t.records,
             Run(t, second).records, multiset{}, multiset{});
      BecameOneMore(s.records, Run(t, second).records, key, later, Ready);
    }
  }

  /** A run of new steps claims its record and holds its stock. */
  lemma ClaimsRun(s: State, who: nat, exec: Key, steps: seq<Key>) returns (moves: seq<Move>)
    requires who in s.executors && s.executors[who] == Executor(ToRun(exec, steps), Begin) && exec !in s.records
    ensures Gone(s, Run(s, moves), who, Saving(steps), s.records[exec := Pending], multiset{})
  {
    hide Run, Gone;
    moves := Moved(s, who, Well);
    moves := Further(s, moves, who, Claiming(OfRun), s.records[exec := Ready], multiset{}, Well);
    moves := Further(s, moves, who, Committing(OfRun), s.records[exec := Ready], multiset{}, Well);
    assert s.records[exec := Ready][exec := Pending] == s.records[exec := Pending];
    moves := Further(s, moves, who, Holding, s.records[exec := Pending], multiset{}, Well);
  }

  /** It then saves the undo of every step. */
  lemma Readies(s: State, who: nat, exec: Key, steps: seq<Key>) returns (moves: seq<Move>)
    requires who in s.executors && s.executors[who] == Executor(ToRun(exec, steps), Begin)
    requires NoRepeats(steps) && exec !in s.records && exec !in steps
    requires forall key :: key in steps ==> key !in s.records
    ensures Gone(s, Run(s, moves), who, NextWrite([], steps), Run(s, moves).records, multiset{})
    ensures Became(s.records[exec := Pending], Run(s, moves).records, steps, Ready)
  {
    hide Run, NoRepeats, Gone, Became, Does;
    var claims := ClaimsRun(s, who, exec, steps);
    var t := Run(s, claims);
    GoneMeans(s, t, who, Saving(steps), s.records[exec := Pending], multiset{});
    var saves := SaveRest(t, who, steps);
    moves := claims + saves;
    RunJoins(s, claims, saves);
    GoneOn(s, t, Run(t, saves), who, Saving(steps), NextWrite([], steps), t.records, Run(t, saves).records, multiset{},
           multiset{});
    NothingMore(multiset{});
  }

  lemma AllSaved(a: Statuses, b: Statuses, steps: seq<Key>)
    requires Became(a, b, steps, Ready)
    ensures forall key :: key in steps ==> Has(b, key, Ready)
  {}

  lemma AllWritten(a: Statuses, b: Statuses, c: Statuses, exec: Key, steps: seq<Key>)
    requires Became(a[exec := Pending], b, steps, Ready) && Became(b, c, steps, Succeeded) && exec !in steps
    ensures Has(c, exec, Pending) && Became(a, c[exec := Succeeded], [exec] + steps, Succeeded)
  {
    assert forall key :: key in [exec] + steps <==> key == exec || key in steps;
  }

  /**
   A run that nobody disturbs, of steps nobody has tried, ends with its own record and all its steps SUCCEEDED
   and has sent each write once.
   */
  lemma RunFinishes(s: State, who: nat, exec: Key, steps: seq<Key>) returns (moves: seq<Move>)
    requires who in s.executors && s.executors[who] == Executor(ToRun(exec, steps), Begin)
    requires IsTask(ToRun(exec, steps)) && NoRepeats(steps)
    requires exec !in s.records && forall key :: key in steps ==> key !in s.records
    ensures Gone(s, Run(s, moves), who, Ended, Run(s, moves).records, multiset(steps))
    ensures Became(s.records, Run(s, moves).records, [exec] + steps, Succeeded)
  {
    assert exec !in steps;
    hide Run, NoRepeats, Gone, Became, Does, IsTask;
    var readies := Readies(s, who, exec, steps);
    var t := Run(s, readies);
    GoneMeans(s, t, who, NextWrite([], steps), t.records, multiset{});
    AllSaved(s.records[exec := Pending], t.records, steps);
    var writes := WriteRest(t, who, [], steps);
    var u := Run(t, writes);
    RunJoins(s, readies, writes);
    GoneOn(s, t, u, who, NextWrite([], steps), Closing(OfRun), t.records, u.records, multiset{}, multiset(steps));
    NothingMore(multiset(steps));
    AllWritten(s.records, t.records, u.records, exec, steps);
    moves := Closes(s, readies + writes, who, u.records, multiset(steps));
    GoneMeans(s, Run(s, moves), who, Ended, u.records[exec := Succeeded], multiset(steps));
  }

  lemma Closes(s: State, moves: seq<Move>, who: nat, records: Statuses, sent: multiset<Key>) returns (more: seq<Move>)
    requires Gone(s, Run(s, moves), who, Closing(OfRun), records, sent)
    requires Has(records, s.executors[who].task.exec, Pending)
    ensures Gone(s, Run(s, more), who, Ended, records[s.executors[who].task.exec := Succeeded], sent)
  {
    hide Run, Gone;
    more := Further(s, moves, who, Closing(OfRun), records, sent, Well);
  }

  lemma GoneMeans(s: State, t: State, who: nat, pc: Pc, records: Statuses, sent: multiset<Key>)
    requires Gone(s, t, who, pc, records, sent)
    ensures who in t.executors && t.executors[who] == s.executors[who].(pc := pc) && t.records == records
    ensures t.sent == s.sent + sent
  {}

  // ----- Compensation -----

  function Undos(keys: seq<Key>): seq<Key> {
    seq(|keys|, i requires 0 <= i < |keys| => UndoOf(keys[i]))
  }

  /** The last write to undo is undone: its undo is saved, claimed, sent and recorded, and it is marked. */
  lemma UndoOne(s: State, who: nat, before: seq<Key>, key: Key) returns (moves: seq<Move>)
    requires who in s.executors && s.executors[who].pc == Undoing(before + [key])
    requires Has(s.records, key, Succeeded) && UndoOf(key) !in s.records
    ensures Gone(s, Run(s, moves), who, Undoing(before), s.records[UndoOf(key) := Succeeded][key := Undone],
                 multiset{UndoOf(key)})
  {
    hide Run, Gone;
    var undo, records := UndoOf(key), s.records;
    assert (before + [key])[..|before + [key]| - 1] == before;
    moves := Moved(s, who, Well);
    moves := Further(s, moves, who, SavingUndo(before, key), records, multiset{}, Well);
    moves := Further(s, moves, who, Claiming(OfUndo(before, key)), records[undo := Ready], multiset{}, Well);
    moves := Further(s, moves, who, Committing(OfUndo(before, key)), records[undo := Ready], multiset{}, Well);
    assert records[undo := Ready][undo := Pending] == records[undo := Pending];
    moves := Further(s, moves, who, Sending(OfUndo(before, key)), records[undo := Pending], multiset{}, Well);
    assert multiset{} + multiset{undo} == multiset{undo};
    moves := Further(s, moves, who, Closing(OfUndo(before, key)), records[undo := Pending], multiset{undo}, Well);
    assert records[undo := Pending][undo := Succeeded] == records[undo := Succeeded];
    moves := Further(s, moves, who, Marking(before, key), records[undo := Succeeded], multiset{undo}, Well);
  }

  /** The keys are undone, their undos recorded as made, and all other records are as they were. */
  ghost predicate AllUndone(a: Statuses, b: Statuses, keys: seq<Key>) {
    && (forall key :: key in keys ==> Has(b, key, Undone) && Has(b, UndoOf(key), Succeeded))
    && (forall key :: key !in keys && !(key.UndoOf? && key.key in keys) ==>
          (key in b <==> key in a) && (key in a ==> b[key] == a[key]))
  }

  lemma UndoneOneMore(a: Statuses, c: Statuses, before: seq<Key>, key: Key)
    requires AllUndone(a[UndoOf(key) := Succeeded][key := Undone], c, before) && AllHashed(before + [key])
    requires key !in before
    ensures AllUndone(a, c, before + [key])
  {
    assert forall k :: k in before + [key] <==> k in before || k == key;
    assert key.Hashed? by {
      assert key in before + [key];
    }
  }

  lemma UndosSnoc(before: seq<Key>, key: Key)
    ensures multiset(Undos(before + [key])) == multiset{UndoOf(key)} + multiset(Undos(before))
  {
    assert Undos(before + [key]) == Undos(before) + [UndoOf(key)];
  }

  /**
   Compensation that nobody disturbs, of writes that are recorded as made and were never undone, sends each undo
   once, last write first, and leaves every write UNDONE.
   */
  lemma {:induction false} UndoAll(s: State, who: nat, todo: seq<Key>) returns (moves: seq<Move>)
    requires who in s.executors && s.executors[who].pc == Undoing(todo)
    requires NoRepeats(todo) && AllHashed(todo)
    requires forall key :: key in todo ==> Has(s.records, key, Succeeded) && UndoOf(key) !in s.records
    ensures Gone(s, Run(s, moves), who, Undoing([]), Run(s, moves).records, multiset(Undos(todo)))
    ensures AllUndone(s.records, Run(s, moves).records, todo)
    decreases |todo|
  {
    if todo == [] {
      moves := [];
    } else {
      var before, key := todo[..|todo| - 1], todo[|todo| - 1];
      assert todo == before + [key] && NoRepeats(before) && key !in before;
      var first := UndoOne(s, who, before, key);
      var t := Run(s, first);
      GoneMeans(s, t, who, Undoing(before), s.records[UndoOf(key) := Succeeded][key := Undone], multiset{UndoOf(key)});
      assert forall k :: k in before ==> k in todo;
      assert key in todo;
      hide Run, NoRepeats, Gone, Undos, AllUndone;
      forall k | k in before ensures Has(t.records, k, Succeeded) && UndoOf(k) !in t.records && k.Hashed? {
        assert k in todo && k != key && key.Hashed?;
      }
      var second := UndoAll(t, who, before);
      moves := first + second;
      RunJoins(s, first, second);
      GoneOn(s, t, Run(t, second), who, Undoing(before), Undoing([]), t.records, Run(t, second).records,
             multiset{UndoOf(key)}, multiset(Undos(before)));
      UndoneOneMore(s.records, Run(t, second).records, before, key);
      UndosSnoc(before, key);
    }
  }

  /** A run one of whose writes is refused records it REJECTED and undoes those before it, sending nothing else. */
  lemma RefusalCompensates(s: State, who: nat, done: seq<Key>, key: Key, rest: seq<Key>) returns (moves: seq<Move>)
    requires who in s.executors && s.executors[who].pc == Closing(OfStep(done, key, rest))
    requires s.executors[who].task.ToRun? && Has(s.records, key, Pending) && key.Hashed?
    requires NoRepeats(done) && AllHashed(done)
    requires forall k :: k in done ==> Has(s.records, k, Succeeded) && UndoOf(k) !in s.records
    ensures Gone(s, Run(s, moves), who, Ended, Run(s, moves).records, multiset(Undos(done)))
    ensures AllUndone(s.records[key := Rejected], Run(s, moves).records, done)
  {
    hide Run, NoRepeats, Gone;
    var first := Moved(s, who, Refuses);
    var t := Run(s, first);
    GoneMeans(s, t, who, Undoing(done), s.records[key := Rejected], multiset{});
    var second := UndoAll(t, who, done);
    var u := Run(t, second);
    RunJoins(s, first, second);
    GoneOn(s, t, u, who, Undoing(done), Undoing([]), t.records, u.records, multiset{}, multiset(Undos(done)));
    assert multiset{} + multiset(Undos(done)) == multiset(Undos(done));
    moves := Further(s, first + second, who, Undoing([]), u.records, multiset(Undos(done)), Well);
    GoneMeans(s, Run(s, moves), who, Ended, u.records, multiset(Undos(done)));
  }

  // ----- A rollback -----

  /** All steps are recorded as made: a rollback collects them in order. */
  lemma {:induction false} CollectRest(s: State, who: nat, made: seq<Key>, rest: seq<Key>) returns (moves: seq<Move>)
    requires who in s.executors && s.executors[who].pc == Collecting(made, rest)
    requires forall key :: key in rest ==> Has(s.records, key, Succeeded)
    ensures Gone(s, Run(s, moves), who, Undoing(made + rest), s.records, multiset{})
    decreases |rest|
  {
    hide Run, Gone;
    var first := Moved(s, who, Well);
    var t := Run(s, first);
    if rest == [] {
      moves := first;
      assert made + rest == made;
    } else {
      var key, later := rest[0], rest[1..];
      assert rest == [key] + later && key in rest;
      GoneMeans(s, t, who, Collecting(made + [key], later), s.records, multiset{});
      hide Does;
      var second := CollectRest(t, who, made + [key], later);
      moves := first + second;
      RunJoins(s, first, second);
      assert made + [key] + later == made + rest;
      GoneOn(s, t, Run(t, second), who, Collecting(made + [key], later), Undoing(made + rest), s.records, s.records,
             multiset{}, multiset{});
      NothingMore(multiset{});
    }
  }

  lemma ClaimsRollback(s: State, who: nat, exec: Key, steps: seq<Key>) returns (moves: seq<Move>)
    requires who in s.executors && s.executors[who] == Executor(ToRollBack(exec, steps), Begin)
    requires Has(s.records, exec, Succeeded) && RollbackOf(exec) !in s.records
    ensures Gone(s, Run(s, moves), who, Collecting([], steps), s.records[RollbackOf(exec) := Pending], multiset{})
  {
    hide Run, Gone;
    var records, key := s.records, RollbackOf(exec);
    moves := Moved(s, who, Well);
    moves := Further(s, moves, who, Preparing, records, multiset{}, Well);
    moves := Further(s, moves, who, Claiming(OfRollback), records[key := Ready], multiset{}, Well);
    moves := Further(s, moves, who, Committing(OfRollback), records[key := Ready], multiset{}, Well);
    assert records[key := Ready][key := Pending] == records[key := Pending];
  }

  /**
   A rollback that nobody disturbs, of a finished run whose steps are all recorded as made and were never undone,
   sends each undo once, leaves every step UNDONE and its own record SUCCEEDED.
   */
  lemma RollbackFinishes(s: State, who: nat, exec: Key, steps: seq<Key>) returns (moves: seq<Move>)
    requires who in s.executors && s.executors[who] == Executor(ToRollBack(exec, steps), Begin)
    requires IsTask(ToRollBack(exec, steps)) && NoRepeats(steps)
    requires Has(s.records, exec, Succeeded) && RollbackOf(exec) !in s.records
    requires forall key :: key in steps ==> Has(s.records, key, Succeeded) && UndoOf(key) !in s.records
    ensures Gone(s, Run(s, moves), who, Ended, Run(s, moves).records, multiset(Undos(steps)))
    ensures AllUndone(s.records[RollbackOf(exec) := Succeeded], Run(s, moves).records, steps)
  {
    hide Run, NoRepeats, Gone, AllUndone;
    var rollback := RollbackOf(exec);
    var claims := ClaimsRollback(s, who, exec, steps);
    var t := Run(s, claims);
    GoneMeans(s, t, who, Collecting([], steps), s.records[rollback := Pending], multiset{});
    forall key | key in steps ensures Has(t.records, key, Succeeded) && UndoOf(key) !in t.records && key.Hashed? {}
    var collects := CollectRest(t, who, [], steps);
    var u := Run(t, collects);
    assert [] + steps == steps;
    GoneMeans(t, u, who, Undoing(steps), t.records, multiset{});
    var undoes := UndoAll(u, who, steps);
    var v := Run(u, undoes);
    RunJoins(s, claims, collects);
    RunJoins(s, claims + collects, undoes);
    GoneOn(s, t, u, who, Collecting([], steps), Undoing(steps), t.records, u.records, multiset{}, multiset{});
    GoneOn(s, u, v, who, Undoing(steps), Undoing([]), u.records, v.records, multiset{}, multiset(Undos(steps)));
    assert multiset{} + multiset{} + multiset(Undos(steps)) == multiset(Undos(steps));
    moves := Further(s, claims + collects + undoes, who, Undoing([]), v.records, multiset(Undos(steps)), Well);
    RollbackKept(u.records, v.records, steps, rollback);
    moves := Further(s, moves, who, Closing(OfRollback), v.records, multiset(Undos(steps)), Well);
    GoneMeans(s, Run(s, moves), who, Ended, v.records[rollback := Succeeded], multiset(Undos(steps)));
    RollbackDone(s.records, v.records, steps, rollback);
  }

  lemma RollbackKept(a: Statuses, b: Statuses, steps: seq<Key>, rollback: Key)
    requires AllUndone(a, b, steps) && rollback.RollbackOf? && AllHashed(steps) && Has(a, rollback, Pending)
    ensures Has(b, rollback, Pending)
  {
    assert rollback !in steps;
  }

  lemma RollbackDone(a: Statuses, b: Statuses, steps: seq<Key>, rollback: Key)
    requires AllUndone(a[rollback := Pending], b, steps) && rollback.RollbackOf? && AllHashed(steps)
    ensures AllUndone(a[rollback := Succeeded], b[rollback := Succeeded], steps)
  {
    assert rollback !in steps;
  }
}
