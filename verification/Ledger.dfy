/**
 Stock reservations against a versioned balance per material and plant: services/execution/ledger.py.
 Quantities are exact reals.
 */
module StockLedger {
  import opened Basics

  datatype Status = Held | Released

  datatype Balance = Balance(units: real, version: nat)

  datatype Reservation = Reservation(caseId: string, qty: real, status: Status, version: nat)

  /** Everything stored under one material and plant. */
  datatype Account = Account(balance: Option<Balance>, reservations: map<string, Reservation>)

  datatype Place = Place(material: string, plant: string)

  datatype Hold = Hold(id: string, caseId: string, qty: real, available: real, sourceRef: string)

  const EMPTY := Account(None, map[])

  function Allocated(account: Account): real {
    if account.balance.Some? then account.balance.value.units else 0.0
  }

  function Version(account: Account): nat {
    if account.balance.Some? then account.balance.value.version else 0
  }

  predicate Acceptable(hold: Hold) {
    hold.qty > 0.0 && hold.available >= 0.0 && hold.qty == hold.qty.Floor as real && "SAP:" <= hold.sourceRef
  }

  /** The existing reservation is this very one, still held. */
  predicate SameHold(existing: Reservation, hold: Hold) {
    existing.caseId == hold.caseId && existing.qty == hold.qty && existing.status == Held
  }

  /** The transaction of `reserve`, from the balance that was read. */
  function WithHold(account: Account, units: real, version: nat, hold: Hold): Account {
    Account(Some(Balance(units + hold.qty, version + 1)),
            account.reservations[hold.id := Reservation(hold.caseId, hold.qty, Held, 1)])
  }

  /** The transaction of `release`, from the balance and the reservation that were read. */
  function WithRelease(account: Account, balance: Balance, id: string, was: Reservation): Account
    requires id in account.reservations
  {
    var now := account.reservations[id].(status := Released, version := was.version + 1);
    Account(Some(Balance(balance.units - was.qty, balance.version + 1)), account.reservations[id := now])
  }

  // ----- One caller alone -----

  function Reserved(account: Account, hold: Hold): Result<Account> {
    if !Acceptable(hold) then Err("quantities or source not acceptable")
    else if hold.id in account.reservations then
      if SameHold(account.reservations[hold.id], hold) then Ok(account)
      else Err("reservation identity or state mismatch")
    else if hold.qty + Allocated(account) > hold.available then Err("insufficient unreserved stock")
    else Ok(WithHold(account, Allocated(account), Version(account), hold))
  }

  function ReleasedFrom(account: Account, id: string): Result<Account> {
    if id !in account.reservations || account.reservations[id].status == Released then Ok(account)
    else if account.balance.None? || account.balance.value.units < account.reservations[id].qty
    then Err("ledger balance inconsistent")
    else Ok(WithRelease(account, account.balance.value, id, account.reservations[id]))
  }

  // ----- The balance is the sum of the reservations held -----

  function UnitsHeld(reservation: Reservation): real {
    if reservation.status == Held then reservation.qty else 0.0
  }

  ghost function HeldUnits(reservations: map<string, Reservation>): real {
    if reservations == map[] then 0.0
    else
      var id :| id in reservations;
      UnitsHeld(reservations[id]) + HeldUnits(reservations - {id})
  }

  ghost predicate Sound(account: Account) {
    && Allocated(account) == HeldUnits(account.reservations)
    && forall id :: id in account.reservations ==> account.reservations[id].qty > 0.0
  }

  /** The sum does not depend on the order. */
  lemma {:induction false} HeldUnitsWithout(reservations: map<string, Reservation>, id: string)
    requires id in reservations
    ensures HeldUnits(reservations) == UnitsHeld(reservations[id]) + HeldUnits(reservations - {id})
    decreases |reservations|
  {
    var first :| first in reservations
      && HeldUnits(reservations) == UnitsHeld(reservations[first]) + HeldUnits(reservations - {first});
    if first != id {
      HeldUnitsWithout(reservations - {first}, id);
      HeldUnitsWithout(reservations - {id}, first);
      assert reservations - {first} - {id} == reservations - {id} - {first};
    }
  }

  lemma HeldUnitsUpdated(reservations: map<string, Reservation>, id: string, now: Reservation)
    ensures HeldUnits(reservations[id := now])
         == HeldUnits(reservations) + UnitsHeld(now) - (if id in reservations then UnitsHeld(reservations[id]) else 0.0)
  {
    HeldUnitsWithout(reservations[id := now], id);
    assert reservations[id := now] - {id} == reservations - {id};
    if id in reservations {
      HeldUnitsWithout(reservations, id);
    } else {
      assert reservations - {id} == reservations;
    }
  }

  lemma {:induction false} HeldUnitsNonnegative(reservations: map<string, Reservation>)
    requires forall id :: id in reservations ==> reservations[id].qty > 0.0
    ensures HeldUnits(reservations) >= 0.0
    decreases |reservations|
  {
    if reservations != map[] {
      var id :| id in reservations;
      HeldUnitsWithout(reservations, id);
      HeldUnitsNonnegative(reservations - {id});
    }
  }

  /** A reservation keeps the balance exact and within what its caller saw available. */
  lemma ReserveKeepsSound(account: Account, hold: Hold)
    requires Sound(account) && Reserved(account, hold).Ok?
    ensures var after := Reserved(account, hold).value;
      && Sound(after)
      && hold.id in after.reservations && SameHold(after.reservations[hold.id], hold)
      && Allocated(account) <= Allocated(after)
      && (after == account || Allocated(after) <= hold.available)
      && (forall id :: id in account.reservations ==>
         id in after.reservations && after.reservations[id] == account.reservations[id])
  {
    if hold.id !in account.reservations {
      HeldUnitsUpdated(account.reservations, hold.id, Reservation(hold.caseId, hold.qty, Held, 1));
    }
  }

  /** On a sound account a release always succeeds and gives back exactly what was held. */
  lemma ReleaseKeepsSound(account: Account, id: string)
    requires Sound(account)
    ensures ReleasedFrom(account, id).Ok?
    ensures var after := ReleasedFrom(account, id).value;
      && Sound(after)
      && (id in account.reservations ==> id in after.reservations && after.reservations[id].status == Released)
      && Allocated(after) == Allocated(account)
                             - (if id in account.reservations then UnitsHeld(account.reservations[id]) else 0.0)
      && after.reservations.Keys == account.reservations.Keys
      && (forall other :: other in account.reservations && other != id ==>
         after.reservations[other] == account.reservations[other])
  {
    if id in account.reservations && account.reservations[id].status == Held {
      var was := account.reservations[id];
      HeldUnitsWithout(account.reservations, id);
      HeldUnitsNonnegative(account.reservations - {id});
      HeldUnitsUpdated(account.reservations, id, was.(status := Released, version := was.version + 1));
    }
  }

  // ----- Every account -----

  type Accounts = map<Place, Account>

  function At(accounts: Accounts, place: Place): Account {
    if place in accounts then accounts[place] else EMPTY
  }

  ghost predicate AllSound(accounts: Accounts) {
    forall place :: Sound(At(accounts, place))
  }

  predicate Holds(accounts: Accounts, place: Place, id: string, status: Status) {
    id in At(accounts, place).reservations && At(accounts, place).reservations[id].status == status
  }

  class Ledger {
    var accounts: Accounts

    constructor ()
      ensures accounts == map[]
    {
      accounts := map[];
    }

    /** Units already held at a plant. */
    method AllocatedAt(place: Place) returns (held: real)
      ensures held == Allocated(At(accounts, place))
    {
      held := if place in accounts && accounts[place].balance.Some? then accounts[place].balance.value.units else 0.0;
    }

    /** `reserve`: false stands for any of its exceptions, which all leave the table unchanged. */
    method Reserve(place: Place, hold: Hold) returns (ok: bool)
      modifies this
      ensures ok == Reserved(At(old(accounts), place), hold).Ok?
      ensures ok ==> At(accounts, place) == Reserved(At(old(accounts), place), hold).value
      ensures forall other :: other != place ==> At(accounts, other) == At(old(accounts), other)
      ensures !ok ==> accounts == old(accounts)
    {
      if hold.qty <= 0.0 || hold.available < 0.0 || hold.qty != hold.qty.Floor as real || !("SAP:" <= hold.sourceRef) {
        return false;
      }
      var account := At(accounts, place);
      if hold.id in account.reservations {
        var existing := account.reservations[hold.id];
        return existing.caseId == hold.caseId && existing.qty == hold.qty && existing.status != Released;
      }
      var version := if account.balance.Some? then account.balance.value.version else 0;
      var units := if account.balance.Some? then account.balance.value.units else 0.0;
      if hold.qty + units > hold.available {
        return false;
      }
      var reservations := account.reservations[hold.id := Reservation(hold.caseId, hold.qty, Held, 1)];
      accounts := accounts[place := Account(Some(Balance(units + hold.qty, version + 1)), reservations)];
      ok := true;
    }

    method Release(place: Place, id: string) returns (ok: bool)
      modifies this
      ensures ok == ReleasedFrom(At(old(accounts), place), id).Ok?
      ensures ok ==> At(accounts, place) == ReleasedFrom(At(old(accounts), place), id).value
      ensures forall other :: other != place ==> At(accounts, other) == At(old(accounts), other)
      ensures !ok ==> accounts == old(accounts)
    {
      var account := At(accounts, place);
      if id !in account.reservations || account.reservations[id].status == Released {
        return true;
      }
      var reservation := account.reservations[id];
      if account.balance.None? || account.balance.value.units < reservation.qty {
        return false;
      }
      var left := Balance(account.balance.value.units - reservation.qty, account.balance.value.version + 1);
      var released := reservation.(status := Released, version := reservation.version + 1);
      accounts := accounts[place := Account(Some(left), account.reservations[id := released])];
      ok := true;
    }
  }
}
