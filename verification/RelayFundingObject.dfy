/** The funding object as it runs, over the ledger tables and the legacy column. */
module RelayFundingObject {
  import opened LedgerSchema
  import opened LedgerRuntime
  import opened LedgerDatabase
  import opened WalletMirror
  import opened RelayFunding

  class QuotaColumn {
    var quota: int

    constructor (quota: int)
      ensures this.quota == quota
    {
      this.quota := quota;
    }

    /** Takes delta from the column, or nothing when the store refuses; a zero delta is not a write. */
    method Project(delta: int, refused: bool) returns (ok: bool)
      modifies this
      ensures ok == (delta == 0 || !refused)
      ensures quota == if ok then old(quota) - delta else old(quota)
    {
      if delta == 0 {
        return true;
      }
      if refused {
        return false;
      }
      quota := quota - delta;
      return true;
    }
  }

  method EnsureMirroredUserAccount(db: Database, m: Mirror, balance: int, newId: AccountId, x: Faults)
    returns (r: Result<AccountId>)
    modifies db
    ensures (db.State(), r) == EnsureMirrored(old(db.State()), m, balance, newId, x.ensure, x.bootstrap)
  {
    if x.ensure {
      return Failure(StoreFailed);
    }
    var account := db.EnsureBillingAccount(m.owner, newId);
    if account.Failure? {
      return Failure(account.error);
    }
    var a := account.value;
    if NonZero(Snap(db.State(), a)) || balance <= 0 {
      return Success(a);
    }
    if x.bootstrap {
      return Failure(StoreFailed);
    }
    var credited := db.CreditAccount(BootstrapCredit(m, a, balance));
    if credited.Failure? {
      return Failure(credited.error);
    }
    return Success(a);
  }

  class LedgerRelayFunding {
    const request: Request
    const db: Database
    const column: QuotaColumn

    var account: Option<AccountId>
    var reservation: Option<nat>
    var settlement: Option<nat>
    var reserved: int
    var legacyHeld: int

    function Fields(): Funding
      reads this
    {
      Funding(account, reservation, settlement, reserved, legacyHeld)
    }

    function Purse(): Wallet
      reads this, db, column
    {
      Wallet(db.State(), column.quota)
    }

    constructor (request: Request, db: Database, column: QuotaColumn)
      ensures Fields() == NEW_FUNDING && this.request == request && this.db == db && this.column == column
    {
      this.request, this.db, this.column := request, db, column;
      account, reservation, settlement, reserved, legacyHeld := None, None, None, 0, 0;
    }

    method EnsureRelayAccount(newId: AccountId, x: Faults) returns (r: Result<AccountId>)
      modifies db
      ensures (db.State(), r) == EnsureAccount(old(Purse()), old(Fields()), request, newId, x)
    {
      if account.Some? {
        return Success(account.value);
      }
      var balance := ReadBalance(Purse(), request.mirror);
      r := EnsureMirroredUserAccount(db, request.mirror, balance, newId, x);
    }

    method HoldFunds(amount: int, newId: AccountId, x: Faults) returns (r: Result<()>)
      modifies this, db, column
      ensures var o := PreConsume(old(Purse()), old(Fields()), request, amount, newId, x);
        Purse() == o.wallet && Fields() == o.funding && r == o.result
    {
      if amount <= 0 {
        return Success(());
      }
      if reservation.Some? {
        return if reserved != amount then Failure(LedgerConflict) else Success(());
      }
      var ensured := EnsureRelayAccount(newId, x);
      if ensured.Failure? {
        return Failure(ensured.error);
      }
      var existing := FindReservation(db.reservations, request.keys.reserve);
      if existing.Some? {
        var row := db.reservations[existing.value];
        account := Some(row.account);
        reservation := existing;
        reserved := row.amount;
        if row.status.Open? {
          legacyHeld := reserved;
        }
        return Success(());
      }
      if x.ledger {
        return Failure(StoreFailed);
      }
      var held := db.CreateReservation(HoldParams(request, ensured.value, amount));
      if held.Failure? {
        return Failure(held.error);
      }
      r := ProjectNewHold(ensured.value, held.value, amount, x);
    }

    method ProjectNewHold(a: AccountId, row: nat, amount: int, x: Faults) returns (r: Result<()>)
      requires amount > 0
      modifies this, db, column
      ensures var o := ProjectHold(old(Purse()), old(Fields()), request, a, row, amount, x);
        Purse() == o.wallet && Fields() == o.funding && r == o.result
    {
      var projected := column.Project(amount, x.project);
      if !projected {
        if !x.undo {
          var undone := db.ReleaseReservation(UndoParams(request, row));
        }
        return Failure(StoreFailed);
      }
      account := Some(a);
      reservation := Some(row);
      reserved := amount;
      legacyHeld := amount;
      return Success(());
    }

    method Settle(delta: int, x: Faults) returns (r: Result<()>)
      modifies this, db, column
      ensures var o := SettleHold(old(Purse()), old(Fields()), request, delta, x);
        Purse() == o.wallet && Fields() == o.funding && r == o.result
    {
      if reservation.None? {
        return Failure(ReservationMissing);
      }
      var actual := reserved + delta;
      if actual < 0 {
        actual := 0;
      }
      var existing := FindSettlement(db.settlements, request.keys.settle);
      if existing.Some? {
        settlement := existing;
        return Success(());
      }
      if delta != 0 {
        var projected := column.Project(delta, x.project);
        if !projected {
          return Failure(StoreFailed);
        }
        legacyHeld := legacyHeld + delta;
      }
      var settled: Result<nat> := Failure(StoreFailed);
      if !x.ledger {
        settled := db.SettleReservation(SettleParams(reservation.value, request.id, actual, request.keys.settle));
      }
      if settled.Success? {
        settlement := Some(settled.value);
        return Success(());
      }
      if delta != 0 {
        var restored := column.Project(-delta, x.undo);
        if restored {
          legacyHeld := legacyHeld - delta;
        }
      }
      return Failure(settled.error);
    }

    method GiveBack(x: Faults) returns (r: Result<()>)
      modifies this, db, column
      ensures var o := Refund(old(Purse()), old(Fields()), request, x);
        Purse() == o.wallet && Fields() == o.funding && r == o.result
    {
      if reservation.None? {
        return Success(());
      }
      if legacyHeld > 0 {
        var projected := column.Project(-legacyHeld, x.project);
        if !projected {
          return Failure(StoreFailed);
        }
      }
      var released: Result<nat> := Failure(StoreFailed);
      if !x.ledger {
        released := db.ReleaseReservation(ReleaseParams(reservation.value, request.keys.release, ""));
      }
      if released.Success? {
        legacyHeld := 0;
        return Success(());
      }
      if legacyHeld > 0 {
        var restored := column.Project(legacyHeld, x.undo);
      }
      return Failure(released.error);
    }
  }
}
