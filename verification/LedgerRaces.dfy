/**
 Concurrent callers of the stock ledger. `reserve` and `release` each read a reservation, read the
 balance, and commit one transaction conditional on the versions read (services/execution/ledger.py).
 Any number of callers interleave these moves; a caller that crashes simply makes no further move.
 */
module LedgerRaces {
  import opened Basics
  import opened StockLedger

  datatype Want = ToReserve(hold: Hold) | ToRelease(id: string)

  /** How far a caller got, and what it has read. */
  datatype Progress =
    | Begun
    | SawReservation(existing: Option<Reservation>)
    | SawBalance(existing: Option<Reservation>, balance: Option<Balance>)
    | Ended(ok: bool)

  datatype Caller = Caller(want: Want, progress: Progress)

  datatype State = State(account: Account, callers: map<nat, Caller>)

  datatype Move = Start(who: nat, want: Want) | ReadReservation(who: nat) | ReadBalance(who: nat) | Commit(who: nat)

  function Id(want: Want): string {
    if want.ToReserve? then want.hold.id else want.id
  }

  function Found(account: Account, id: string): Option<Reservation> {
    if id in account.reservations then Some(account.reservations[id]) else None
  }

  /** After reading the reservation: refuse, return at once, or go on. */
  function AfterReservation(want: Want, existing: Option<Reservation>): Progress {
    match want
    case ToReserve(hold) =>
      if !Acceptable(hold) then Ended(false)
      else if existing.Some? then Ended(SameHold(existing.value, hold))
      else SawReservation(existing)
    case ToRelease(_) =>
      if existing.None? || existing.value.status == Released then Ended(true) else SawReservation(existing)
  }

  function AfterBalance(want: Want, existing: Option<Reservation>, balance: Option<Balance>): Progress {
    match want
    case ToReserve(hold) =>
      var units := if balance.Some? then balance.value.units else 0.0;
      if hold.qty + units > hold.available then Ended(false) else SawBalance(existing, balance)
    case ToRelease(_) =>
      if balance.None? || existing.None? || balance.value.units < existing.value.qty then Ended(false)
      else SawBalance(existing, balance)
  }

  /** The condition the store checks atomically with the write. */
  predicate Commits(account: Account, want: Want, existing: Option<Reservation>, balance: Option<Balance>) {
    match want
    case ToReserve(hold) =>
      && hold.id !in account.reservations
      && (if balance.Some? then account.balance.Some? && account.balance.value.version == balance.value.version
          else account.balance.None?)
    case ToRelease(id) =>
      && balance.Some? && existing.Some?
      && account.balance.Some? && account.balance.value.version == balance.value.version
      && id in account.reservations && account.reservations[id].status == Held
      && account.reservations[id].version == existing.value.version
  }

  function Committed(account: Account, want: Want, existing: Option<Reservation>, balance: Option<Balance>): Account
    requires Commits(account, want, existing, balance)
  {
    match want
    case ToReserve(hold) =>
      WithHold(account, if balance.Some? then balance.value.units else 0.0,
               if balance.Some? then balance.value.version else 0, hold)
    case ToRelease(id) => WithRelease(account, balance.value, id, existing.value)
  }

  /** One move; a move its caller is not ready for changes nothing. */
  function After(s: State, move: Move): State {
    if move.Start? then
      if move.who in s.callers then s else s.(callers := s.callers[move.who := Caller(move.want, Begun)])
    else if move.who !in s.callers then s
    else
      var caller := s.callers[move.who];
      match (move, caller.progress)
      case (ReadReservation(who), Begun) =>
        s.(callers := s.callers[who :=
          caller.(progress := AfterReservation(caller.want, Found(s.account, Id(caller.want))))])
      case (ReadBalance(who), SawReservation(existing)) =>
        s.(callers := s.callers[who := caller.(progress := AfterBalance(caller.want, existing, s.account.balance))])
      case (Commit(who), SawBalance(existing, balance)) =>
        if Commits(s.account, caller.want, existing, balance)
        then State(Committed(s.account, caller.want, existing, balance),
          s.callers[who := caller.(progress := Ended(true))])
        else s.(callers := s.callers[who := caller.(progress := Ended(false))])
      case _ => s
  }

  function Run(s: State, moves: seq<Move>): State
    decreases |moves|
  {
    if moves == [] then s else Run(After(s, moves[0]), moves[1..])
  }

  /** The same request made by one caller alone. */
  function Atomic(account: Account, want: Want): Result<Account> {
    if want.ToReserve? then Reserved(account, want.hold) else ReleasedFrom(account, want.id)
  }

  // ----- What is read stays usable until its version changes -----

  predicate BalanceFresh(account: Account, balance: Option<Balance>) {
    balance.Some? ==>
      && account.balance.Some?
      && balance.value.version <= account.balance.value.version
      && (balance.value.version == account.balance.value.version ==> balance == account.balance)
  }

  predicate ReservationFresh(account: Account, id: string, existing: Option<Reservation>) {
    existing.Some? ==>
      && id in account.reservations
      && existing.value.version <= account.reservations[id].version
      && (existing.value.version == account.reservations[id].version ==> existing.value == account.reservations[id])
  }

  predicate CallerFresh(account: Account, caller: Caller) {
    match caller.progress
    case Begun => true
    case Ended(_) => true
    case SawReservation(existing) =>
      AfterReservation(caller.want, existing) == caller.progress && ReservationFresh(account, Id(caller.want), existing)
    case SawBalance(existing, balance) =>
      && AfterReservation(caller.want, existing) == SawReservation(existing)
      && AfterBalance(caller.want, existing, balance) == caller.progress
      && ReservationFresh(account, Id(caller.want), existing) && BalanceFresh(account, balance)
  }

  ghost predicate Fresh(s: State) {
    forall who :: who in s.callers ==> CallerFresh(s.account, s.callers[who])
  }

  predicate Commitment(s: State, move: Move) {
    && move.Commit? && move.who in s.callers && s.callers[move.who].progress.SawBalance?
    && var caller := s.callers[move.who];
       Commits(s.account, caller.want, caller.progress.existing, caller.progress.balance)
  }

  /** A transaction that commits does exactly what its request would do alone at that moment. */
  lemma CommitIsAtomic(account: Account, caller: Caller)
    requires CallerFresh(account, caller) && caller.progress.SawBalance?
    requires Commits(account, caller.want, caller.progress.existing, caller.progress.balance)
    ensures Atomic(account, caller.want)
         == Ok(Committed(account, caller.want, caller.progress.existing, caller.progress.balance))
  {
    var existing, balance := caller.progress.existing, caller.progress.balance;
    assert existing.Some? ==> existing.value == account.reservations[Id(caller.want)];
    assert balance == account.balance;
  }

  /** A committed write outdates every older read of what it wrote. */
  lemma CommitKeepsFresh(account: Account, caller: Caller, other: Caller)
    requires CallerFresh(account, caller) && caller.progress.SawBalance? && CallerFresh(account, other)
    requires Commits(account, caller.want, caller.progress.existing, caller.progress.balance)
    ensures CallerFresh(Committed(account, caller.want, caller.progress.existing, caller.progress.balance), other)
  {
    hide Acceptable, SameHold;
    var after := Committed(account, caller.want, caller.progress.existing, caller.progress.balance);
    assert after.balance.Some? && after.balance.value.version == Version(account) + 1;
    var id := Id(other.want);
    if id in account.reservations && after.reservations[id] != account.reservations[id] {
      assert after.reservations[id].version == account.reservations[id].version + 1;
    }
  }

  lemma StepKeepsFresh(s: State, move: Move)
    requires Fresh(s)
    ensures Fresh(After(s, move))
    ensures if Commitment(s, move) then Atomic(s.account, s.callers[move.who].want) == Ok(After(s, move).account)
            else After(s, move).account == s.account
  {
    hide Atomic, Commits, Committed, CallerFresh;
    var next := After(s, move);
    if Commitment(s, move) {
      CommitIsAtomic(s.account, s.callers[move.who]);
      forall who | who in next.callers ensures CallerFresh(next.account, next.callers[who]) {
        if who == move.who {
          EndedIsFresh(next.account, next.callers[who]);
        } else {
          CommitKeepsFresh(s.account, s.callers[move.who], s.callers[who]);
        }
      }
    } else {
      forall who | who in next.callers ensures CallerFresh(next.account, next.callers[who]) {
        if who == move.who {
          OwnMoveFresh(s, move);
        }
      }
    }
  }

  lemma EndedIsFresh(account: Account, caller: Caller)
    requires caller.progress.Ended?
    ensures CallerFresh(account, caller)
  {}

  lemma OwnMoveFresh(s: State, move: Move)
    requires Fresh(s) && !Commitment(s, move) && move.who in After(s, move).callers
    ensures After(s, move).account == s.account
    ensures CallerFresh(s.account, After(s, move).callers[move.who])
  {
    hide Acceptable, SameHold;
    if move.who in s.callers {
      assert CallerFresh(s.account, s.callers[move.who]);
    }
  }

  // ----- Over every run -----

  /** The requests whose transactions committed, in the order they did. */
  function Granted(s: State, moves: seq<Move>): seq<Want>
    decreases |moves|
  {
    if moves == [] then []
    else
      (if Commitment(s, moves[0]) then [s.callers[moves[0].who].want] else []) + Granted(After(s, moves[0]), moves[1..])
  }

  /** The same requests, one after another. */
  function Serial(account: Account, wants: seq<Want>): Result<Account>
    decreases |wants|
  {
    if wants == [] then Ok(account)
    else if Atomic(account, wants[0]).Err? then Atomic(account, wants[0])
    else Serial(Atomic(account, wants[0]).value, wants[1..])
  }

  /** Every interleaving leaves what its committed requests leave when made one at a time, in commit order. */
  lemma {:induction false} RunIsSerial(s: State, moves: seq<Move>)
    requires Fresh(s)
    ensures Serial(s.account, Granted(s, moves)) == Ok(Run(s, moves).account)
    decreases |moves|
  {
    hide Fresh, Atomic, Commits, After;
    if moves != [] {
      var next := After(s, moves[0]);
      StepKeepsFresh(s, moves[0]);
      RunIsSerial(next, moves[1..]);
      var rest := Granted(next, moves[1..]);
      if Commitment(s, moves[0]) {
        var want := s.callers[moves[0].who].want;
        assert Granted(s, moves) == [want] + rest;
        assert ([want] + rest)[1..] == rest;
      } else {
        assert Granted(s, moves) == rest;
      }
    }
  }

  /** No request starts that believes more is available than the plant's ceiling. */
  ghost predicate Within(moves: seq<Move>, ceiling: real) {
    forall i :: 0 <= i < |moves| && moves[i].Start? && moves[i].want.ToReserve? ==>
      moves[i].want.hold.available <= ceiling
  }

  ghost predicate WantsWithin(s: State, ceiling: real) {
    forall who :: who in s.callers && s.callers[who].want.ToReserve? ==> s.callers[who].want.hold.available <= ceiling
  }

  /** What a step may do to one reservation: nothing, create it held, or release it. */
  predicate Advances(before: Account, after: Account, id: string) {
    if id !in before.reservations then
      id in after.reservations ==> after.reservations[id].status == Held
    else
      && id in after.reservations
      && var was, now := before.reservations[id], after.reservations[id];
         now == was || (was.status == Held && now == was.(status := Released, version := was.version + 1))
  }

  lemma AtomicAdvances(account: Account, want: Want, id: string)
    requires Atomic(account, want).Ok?
    ensures Advances(account, Atomic(account, want).value, id)
  {}

  lemma AtomicKeepsSound(account: Account, want: Want, ceiling: real)
    requires Sound(account) && Allocated(account) <= ceiling && Atomic(account, want).Ok?
    requires want.ToReserve? ==> want.hold.available <= ceiling
    ensures Sound(Atomic(account, want).value) && Allocated(Atomic(account, want).value) <= ceiling
  {
    hide Sound, Allocated;
    if want.ToReserve? {
      ReserveKeepsSound(account, want.hold);
    } else {
      ReleaseKeepsSound(account, want.id);
      ReservationsPositive(account, want.id);
    }
  }

  lemma ReservationsPositive(account: Account, id: string)
    requires Sound(account)
    ensures id in account.reservations ==> UnitsHeld(account.reservations[id]) >= 0.0
  {}

  /**
   However callers interleave, race, retry or crash, the allocated balance is the sum of the held
   reservations, and it stays within any ceiling that every caller's `available` respects.
   */
  lemma {:induction false} BalanceIsExact(s: State, moves: seq<Move>, ceiling: real)
    requires Fresh(s) && Sound(s.account) && Allocated(s.account) <= ceiling
    requires Within(moves, ceiling) && WantsWithin(s, ceiling)
    ensures Sound(Run(s, moves).account) && Allocated(Run(s, moves).account) <= ceiling
    ensures Fresh(Run(s, moves))
    decreases |moves|
  {
    hide Sound, Fresh, Allocated, Atomic;
    if moves != [] {
      var next := After(s, moves[0]);
      StepKeepsFresh(s, moves[0]);
      if Commitment(s, moves[0]) {
        AtomicKeepsSound(s.account, s.callers[moves[0].who].want, ceiling);
      }
      WantsStayWithin(s, moves[0], ceiling);
      BalanceIsExact(next, moves[1..], ceiling);
    }
  }

  lemma WantsStayWithin(s: State, move: Move, ceiling: real)
    requires WantsWithin(s, ceiling)
    requires move.Start? && move.want.ToReserve? ==> move.want.hold.available <= ceiling
    ensures WantsWithin(After(s, move), ceiling)
  {
    hide AfterReservation, AfterBalance, Commits, Committed, Found;
  }

  /** The rank of a reservation: absent, held, released. */
  function Stage(account: Account, id: string): nat {
    if id !in account.reservations then 0 else if account.reservations[id].status == Held then 1 else 2
  }

  /**
   A reservation goes from absent to held to released, each at most once, and keeps its case and
   quantity from the moment it exists.
   */
  lemma {:induction false} ReservationLivesOnce(s: State, moves: seq<Move>, id: string)
    requires Fresh(s)
    ensures Stage(s.account, id) <= Stage(Run(s, moves).account, id)
    ensures id in s.account.reservations ==>
              && id in Run(s, moves).account.reservations
              && Run(s, moves).account.reservations[id].qty == s.account.reservations[id].qty
              && Run(s, moves).account.reservations[id].caseId == s.account.reservations[id].caseId
    decreases |moves|
  {
    hide Fresh, Atomic;
    if moves != [] {
      StepKeepsFresh(s, moves[0]);
      if Commitment(s, moves[0]) {
        AtomicAdvances(s.account, s.callers[moves[0].who].want, id);
      }
      ReservationLivesOnce(After(s, moves[0]), moves[1..], id);
    }
  }

  /** A request nobody disturbs ends as it would alone, whether granted or refused. */
  lemma UndisturbedIsAtomic(s: State, who: nat, want: Want)
    requires Sound(s.account) && who !in s.callers
    ensures var end := Run(s, [Start(who, want), ReadReservation(who), ReadBalance(who), Commit(who)]);
      && who in end.callers && end.callers[who].progress == Ended(Atomic(s.account, want).Ok?)
      && end.account == (if Atomic(s.account, want).Ok? then Atomic(s.account, want).value else s.account)
  {
    hide Sound, Acceptable, SameHold, Run;
    var a := After(s, Start(who, want));
    var b := After(a, ReadReservation(who));
    var c := After(b, ReadBalance(who));
    var d := After(c, Commit(who));
    RunOfFour(s, Start(who, want), ReadReservation(who), ReadBalance(who), Commit(who));
  }

  lemma RunOfFour(s: State, w: Move, x: Move, y: Move, z: Move)
    ensures Run(s, [w, x, y, z]) == After(After(After(After(s, w), x), y), z)
  {
    hide After;
    assert [w, x, y, z][1..] == [x, y, z] && [x, y, z][1..] == [y, z] && [y, z][1..] == [z] && [z][1..] == [];
    assert Run(After(After(After(s, w), x), y), [z]) == After(After(After(After(s, w), x), y), z);
    assert Run(After(After(s, w), x), [y, z]) == Run(After(After(After(s, w), x), y), [z]);
    assert Run(After(s, w), [x, y, z]) == Run(After(After(s, w), x), [y, z]);
  }
}
