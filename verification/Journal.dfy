/**
 Durable write claims: services/execution/journal.py. A record is READY when its undo is saved,
 PENDING once somebody may have sent the write, and then SUCCEEDED, REJECTED or, later, UNDONE.
 */
module WriteJournal {
  import opened Basics
  import opened Plans

  // ----- Idempotency keys -----

  /** A stored key: the digest of a write's identity, or a readable key derived from another. */
  datatype Key =
    | Hashed(identity: string)
    | Exec(caseId: string, version: int, partId: string)
    | UndoOf(key: Key)
    | RollbackOf(key: Key)

  function Joined(fields: seq<string>): string {
    if fields == [] then []
    else if |fields| == 1 then fields[0]
    else fields[0] + "|" + Joined(fields[1..])
  }

  predicate PlainField(field: string) {
    field != "" && '|' !in field
  }

  /** The digest is taken to be injective, so the joined identity stands for it. */
  function IdempotencyKey(caseId: string, version: int, index: int, kind: string, target: string): Option<Key> {
    if version < 1 || index < 0 then None
    else
      var fields := [caseId, Digits(version), Digits(index), kind, target];
      if exists i :: 0 <= i < 5 && !PlainField(fields[i]) then None else Some(Hashed(Joined(fields)))
  }

  lemma BarComesLater(bar: char, a: string, b: string, x: string, y: string)
    requires bar !in b && a + [bar] + x == b + [bar] + y
    ensures |a| >= |b|
  {
    assert (a + [bar] + x)[|a|] == bar;
    assert forall i :: 0 <= i < |b| ==> (b + [bar] + y)[i] == b[i];
  }

  /** The first bar splits a joined name in one way only. */
  lemma FirstFieldUnique(bar: char, a: string, b: string, x: string, y: string)
    requires bar !in a && bar !in b && a + [bar] + x == b + [bar] + y
    ensures a == b && x == y
  {
    BarComesLater(bar, a, b, x, y);
    BarComesLater(bar, b, a, y, x);
    var s := a + [bar] + x;
    assert a == s[..|a|] == b;
    assert x == s[|a| + 1..] == y;
  }

  lemma {:induction false} JoinedInjective(a: seq<string>, b: seq<string>)
    requires |a| == |b| && forall i :: 0 <= i < |a| ==> PlainField(a[i]) && PlainField(b[i])
    requires Joined(a) == Joined(b)
    ensures a == b
  {
    if |a| == 1 {
      assert a == [a[0]] && b == [b[0]];
    } else if |a| > 1 {
      FirstFieldUnique('|', a[0], b[0], Joined(a[1..]), Joined(b[1..]));
      JoinedInjective(a[1..], b[1..]);
      assert a == [a[0]] + a[1..] && b == [b[0]] + b[1..];
    }
  }

  /** Two writes share an idempotency key only when all five identifying fields agree. */
  lemma KeyIdentifiesWrite(
      caseId: string, version: int, index: int, kind: string, target: string,
      caseId': string, version': int, index': int, kind': string, target': string)
    requires IdempotencyKey(caseId, version, index, kind, target).Some?
    requires IdempotencyKey(caseId, version, index, kind, target)
          == IdempotencyKey(caseId', version', index', kind', target')
    ensures caseId == caseId' && version == version' && index == index' && kind == kind' && target == target'
  {
    var a := [caseId, Digits(version), Digits(index), kind, target];
    var b := [caseId', Digits(version'), Digits(index'), kind', target'];
    hide Digits, PlainField;
    assert forall i :: 0 <= i < 5 ==> PlainField(a[i]) && PlainField(b[i]);
    assert Joined(a) == Joined(b);
    JoinedInjective(a, b);
    assert a[0] == b[0] && a[1] == b[1] && a[2] == b[2] && a[3] == b[3] && a[4] == b[4];
    DigitsInjective(version, version');
    DigitsInjective(index, index');
  }

  lemma {:induction false} DigitsPlain(n: nat)
    ensures PlainField(Digits(n))
  {
    if n >= 10 {
      DigitsPlain(n / 10);
    }
  }

  /** A write has a key exactly when its version and index are in range and no field is empty or holds a `|`. */
  lemma KeyGiven(caseId: string, version: int, index: int, kind: string, target: string)
    ensures IdempotencyKey(caseId, version, index, kind, target).Some? <==>
      && version > 0 && index >= 0 && caseId != "" && kind != "" && target != ""
      && '|' !in caseId && '|' !in kind && '|' !in target
  {
    if version > 0 && index >= 0 {
      var fields := [caseId, Digits(version), Digits(index), kind, target];
      DigitsPlain(version);
      DigitsPlain(index);
      hide Digits;
      assert fields[0] == caseId && fields[3] == kind && fields[4] == target;
    }
  }

  // ----- Records -----

  datatype Status = Ready | Pending | Succeeded | Rejected | Undone

  /** What a boundary or a run answered: fields kept as text, and the results of a whole run. */
  datatype Payload = Payload(fields: string, results: seq<Payload>)

  datatype Undo = ReverseCompleted | ManualReconciliation | Recipe(fields: string, irreversible: bool)

  datatype Request =
    | RunRequest(versionHash: string, steps: seq<(int, string, Action, seq<string>)>)
    | WriteRequest(action: Action, target: string, sourceRefs: seq<string>, versionHash: string, partId: string)
    | UndoRequest(undo: Undo, result: Payload)
    | RollbackRequest(versionHash: string)

  const NOTHING := Payload("", [])

  datatype Record = Record(request: Request, undo: Undo, status: Status, result: Payload)

  type Records = map<Key, Record>

  predicate Is(records: Records, key: Key, status: Status) {
    key in records && records[key].status == status
  }

  /** `prepare` refuses a key saved with a different write or undo; the fingerprint compares both. */
  predicate CanPrepare(records: Records, key: Key, request: Request, undo: Undo) {
    key in records ==> records[key].request == request && records[key].undo == undo
  }

  /** Saved once; a second save of the same write changes nothing, whatever the record's status. */
  function Prepared(records: Records, key: Key, request: Request, undo: Undo): Records {
    if key in records then records else records[key := Record(request, undo, Ready, NOTHING)]
  }

  function WithStatus(records: Records, key: Key, status: Status): Records
    requires key in records
  {
    records[key := records[key].(status := status)]
  }

  function Completed(records: Records, key: Key, result: Payload): Records
    requires key in records
  {
    records[key := records[key].(status := Succeeded, result := result)]
  }

  // ----- What a record goes through -----

  datatype Call =
    | Saves(key: Key, request: Request, undo: Undo)
    | Claims(key: Key)
    | Completes(key: Key, result: Payload)
    | Rejects(key: Key)
    | Undoes(key: Key)

  /** What a call leaves; it changes nothing when its condition fails. */
  function Called(records: Records, call: Call): Records {
    match call
    case Saves(key, request, undo) => Prepared(records, key, request, undo)
    case Claims(key) => if Is(records, key, Ready) then WithStatus(records, key, Pending) else records
    case Completes(key, result) => if Is(records, key, Pending) then Completed(records, key, result) else records
    case Rejects(key) => if Is(records, key, Pending) then WithStatus(records, key, Rejected) else records
    case Undoes(key) => if Is(records, key, Succeeded) then WithStatus(records, key, Undone) else records
  }

  function AfterCalls(records: Records, calls: seq<Call>): Records {
    if calls == [] then records else Called(AfterCalls(records, calls[..|calls| - 1]), calls[|calls| - 1])
  }

  /**
   Whatever calls have been made since, `read` gives the write and undo first stored under the key; its
   status has only moved forward, never back to READY, and a result once recorded is still there.
   */
  lemma {:induction false} ReadBack(records: Records, calls: seq<Call>, key: Key)
    requires key in records
    ensures key in AfterCalls(records, calls)
    ensures var now, was := AfterCalls(records, calls)[key], records[key];
      && now.request == was.request && now.undo == was.undo
      && (now == was ||
          match was.status
          case Ready => now.status != Ready
          case Pending => now.status in {Succeeded, Rejected, Undone}
          case Succeeded => now.status == Undone
          case _ => false)
      && (was.status == Succeeded ==> now.result == was.result)
  {
    if calls != [] {
      ReadBack(records, calls[..|calls| - 1], key);
    }
  }

  /** What `claim` tells its caller: send the write, it was sent with this result, or stop. */
  datatype Claim = Go | Prior(result: Payload) | Stop

  class Journal {
    var records: Records

    constructor ()
      ensures records == map[]
    {
      records := map[];
    }

    method Read(key: Key) returns (record: Option<Record>)
      ensures record == if key in records then Some(records[key]) else None
    {
      record := if key in records then Some(records[key]) else None;
    }

    /** Put if absent; otherwise compare the fingerprints. */
    method Prepare(key: Key, request: Request, undo: Undo) returns (ok: bool)
      modifies this
      ensures ok == CanPrepare(old(records), key, request, undo)
      ensures records == Called(old(records), Saves(key, request, undo))
    {
      if key !in records {
        records := records[key := Record(request, undo, Ready, NOTHING)];
        ok := true;
      } else {
        ok := records[key].request == request && records[key].undo == undo;
      }
    }

    method Claim(key: Key) returns (claim: Claim)
      modifies this
      ensures claim.Go? <==> Is(old(records), key, Ready)
      ensures claim.Prior? <==> Is(old(records), key, Succeeded)
      ensures claim.Prior? ==> claim.result == old(records)[key].result
      ensures records == Called(old(records), Claims(key))
    {
      var saved := Read(key);
      if saved.None? {
        return Stop;
      }
      if saved.value.status == Succeeded {
        return Prior(saved.value.result);
      }
      if saved.value.status != Ready {
        return Stop;
      }
      records := records[key := records[key].(status := Pending)];
      claim := Go;
    }

    /** Update on condition that the write is PENDING. */
    method Complete(key: Key, result: Payload) returns (ok: bool)
      modifies this
      ensures ok == Is(old(records), key, Pending)
      ensures records == Called(old(records), Completes(key, result))
    {
      ok := key in records && records[key].status == Pending;
      if ok {
        records := records[key := records[key].(status := Succeeded, result := result)];
      }
    }

    method Reject(key: Key) returns (ok: bool)
      modifies this
      ensures ok == Is(old(records), key, Pending)
      ensures records == Called(old(records), Rejects(key))
    {
      ok := Transition(key, Pending, Rejected);
    }

    method MarkUndone(key: Key) returns (ok: bool)
      modifies this
      ensures ok == Is(old(records), key, Succeeded)
      ensures records == Called(old(records), Undoes(key))
    {
      ok := Transition(key, Succeeded, Undone);
    }

    method Transition(key: Key, source: Status, target: Status) returns (ok: bool)
      modifies this
      ensures ok == Is(old(records), key, source)
      ensures records == if ok then WithStatus(old(records), key, target) else old(records)
    {
      ok := key in records && records[key].status == source;
      if ok {
        records := records[key := records[key].(status := target)];
      }
    }
  }
}
