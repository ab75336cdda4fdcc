/** The ledger runtime as it runs: tables updated in place, step by step, inside transactions that
    are rolled back when a step fails.  Every method is proved against its transaction function. */
module LedgerDatabase {
  import opened LedgerSchema
  import opened SnapshotAggregation
  import opened LedgerRuntime
  import opened LedgerWorker

  const DEFAULT_BATCH_SIZE: nat := 100

  class Database {
    var accounts: seq<Account>
    var snapshots: map<AccountId, Snapshot>
    var entries: seq<Entry>
    var reservations: seq<Reservation>
    var settlements: seq<Settlement>
    var outbox: seq<Event>

    function State(): Ledger
      reads this
    {
      Ledger(accounts, snapshots, entries, reservations, settlements, outbox)
    }

    constructor ()
      ensures State() == EMPTY_LEDGER
    {
      accounts, snapshots, entries, reservations, settlements, outbox := [], map[], [], [], [], [];
    }

    /** Puts every table back to what it was when the transaction began. */
    method Rollback(saved: Ledger)
      modifies this
      ensures State() == saved
    {
      accounts, snapshots, entries := saved.accounts, saved.snapshots, saved.entries;
      reservations, settlements, outbox := saved.reservations, saved.settlements, saved.outbox;
    }

    method EnsureBalanceSnapshot(a: AccountId)
      modifies this
      ensures State() == old(State()).(snapshots := old(snapshots)[a := Snap(old(State()), a)])
    {
      if a !in snapshots {
        snapshots := snapshots[a := ZERO_SNAPSHOT];
      }
    }

    method RecordOutboxEvent(account: AccountId, aggregate: Aggregate, eventType: EventType, key: string)
      returns (r: Result<()>)
      modifies this
      ensures var o := RecordOutbox(old(State()), NewEvent(account, aggregate, eventType, key), ());
        r == ResultOf(o) && State() == After(old(State()), o)
    {
      if |account| == 0 {
        return Failure(InvalidParams);
      }
      var event := Event(account, aggregate, eventType, key, false, 0);
      var existing := FindEvent(outbox, event.key);
      if existing.Some? {
        if SameEvent(outbox[existing.value], event) {
          return Success(());
        }
        return Failure(LedgerConflict);
      }
      outbox := outbox + [event];
      return Success(());
    }

    // ----- Inside a transaction: on failure the tables may be left halfway -----

    method EnsureBillingAccountTx(p: EnsureParams, newId: AccountId) returns (r: Result<AccountId>)
      modifies this
      ensures var o := Ensure(old(State()), p, newId);
        r == ResultOf(o) && (o.Done? ==> State() == o.state)
    {
      if p.ownerId <= 0 || |p.ownerType| == 0 || |p.accountType| == 0 {
        return Failure(InvalidParams);
      }
      var unit := p.quotaUnit;
      if |unit| == 0 {
        unit := "quota";
      }
      var owner := Owner(p.accountType, p.ownerType, p.ownerId, unit);
      var found := FindAccount(accounts, owner);
      if found.Some? {
        EnsureBalanceSnapshot(accounts[found.value].id);
        return Success(accounts[found.value].id);
      }
      if AccountExists(accounts, newId) {
        return Failure(UniqueViolation);
      }
      accounts := accounts + [Account(newId, owner)];
      EnsureBalanceSnapshot(newId);
      return Success(newId);
    }

    method CreditAccountTx(p: CreditParams) returns (r: Result<nat>)
      modifies this
      ensures var o := Credit(old(State()), p);
        r == ResultOf(o) && (o.Done? ==> State() == o.state)
    {
      hide FindEntry, FindReservation, FindSettlement, FindEvent, KeyOf;
      if |p.account| == 0 || p.amount <= 0 || |p.key| == 0 {
        return Failure(InvalidParams);
      }
      var found := FindEntry(entries, KeyOf(p.key));
      if found.Some? {
        var existing := entries[found.value];
        if !Same(existing.account, p.account) || existing.amount != p.amount || !existing.entryType.GrantCredit? {
          return Failure(LedgerConflict);
        }
        return Success(found.value);
      }
      EnsureBalanceSnapshot(p.account);
      var snapshot := snapshots[p.account];
      snapshot := snapshot.(available := snapshot.available + p.amount);
      snapshot := snapshot.(granted := snapshot.granted + p.amount);
      snapshots := snapshots[p.account := snapshot];
      var row := |entries|;
      entries := entries + [GrantEntry(p, snapshot.available)];
      var recorded := RecordOutboxEvent(p.account, OfEntry(row), CreditGranted, p.key);
      if recorded.Failure? {
        return Failure(recorded.error);
      }
      return Success(row);
    }

    method RecordAdjustmentTx(p: AdjustParams) returns (r: Result<nat>)
      modifies this
      ensures var o := Adjust(old(State()), p);
        r == ResultOf(o) && (o.Done? ==> State() == o.state)
    {
      if |p.account| == 0 || |p.key| == 0 {
        return Failure(InvalidParams);
      }
      var found := FindEntry(entries, KeyOf(p.key));
      if found.Some? {
        var existing := entries[found.value];
        if !Same(existing.account, p.account) || !existing.entryType.Adjustment? {
          return Failure(LedgerConflict);
        }
        return Success(found.value);
      }
      var row := |entries|;
      entries := entries + [AdjustmentEntry(p)];
      var recorded := RecordOutboxEvent(p.account, OfEntry(row), AdjustmentRecorded, p.key);
      if recorded.Failure? {
        return Failure(recorded.error);
      }
      return Success(row);
    }

    method CreateReservationTx(p: ReserveParams) returns (r: Result<nat>)
      modifies this
      ensures var o := Reserve(old(State()), p);
        r == ResultOf(o) && (o.Done? ==> State() == o.state)
    {
      hide FindEntry, FindReservation, FindSettlement, FindEvent, KeyOf;
      if |p.account| == 0 || p.amount <= 0 || |p.key| == 0 {
        return Failure(InvalidParams);
      }
      var found := FindReservation(reservations, p.key);
      if found.Some? {
        var existing := reservations[found.value];
        if !Same(existing.account, p.account) || existing.amount != p.amount ||
           !Same(existing.requestId, p.requestId) || !Same(existing.workflowId, p.workflowId)
        {
          return Failure(LedgerConflict);
        }
        return Success(found.value);
      }
      EnsureBalanceSnapshot(p.account);
      var snapshot := snapshots[p.account];
      if snapshot.available < p.amount {
        return Failure(InsufficientBalance);
      }
      snapshot := snapshot.(available := snapshot.available - p.amount);
      snapshot := snapshot.(reserved := snapshot.reserved + p.amount);
      snapshots := snapshots[p.account := snapshot];
      var reservation := NewReservation(p);
      var row := |reservations|;
      reservations := reservations + [reservation];
      var hold := HoldEntry(reservation, row, snapshot.available);
      if FindEntry(entries, hold.key).Some? {
        return Failure(UniqueViolation);
      }
      entries := entries + [hold];
      var recorded := RecordOutboxEvent(reservation.account, OfReservation(row), ReservationCreated, reservation.key);
      if recorded.Failure? {
        return Failure(recorded.error);
      }
      return Success(row);
    }

    method ReleaseReservationTx(p: ReleaseParams) returns (r: Result<nat>)
      modifies this
      ensures var o := Release(old(State()), p);
        r == ResultOf(o) && (o.Done? ==> State() == o.state)
    {
      hide FindEntry, FindReservation, FindSettlement, FindEvent, KeyOf, ReleaseEntry;
      if |p.key| == 0 {
        return Failure(InvalidParams);
      }
      if p.reservation >= |reservations| {
        return Failure(ReservationNotFound);
      }
      var current := reservations[p.reservation];
      if current.status.Released? {
        return Success(p.reservation);
      }
      if !current.status.Open? {
        return Failure(ReservationNotOpen);
      }
      var found := FindEntry(entries, KeyOf(p.key));
      if found.Some? {
        var existing := entries[found.value];
        if existing.reference != ToReservation(p.reservation) || !existing.entryType.ReserveRelease? {
          return Failure(LedgerConflict);
        }
        reservations := reservations[p.reservation := current.(status := Released)];
        return Success(p.reservation);
      }
      EnsureBalanceSnapshot(current.account);
      var snapshot := snapshots[current.account];
      if snapshot.reserved < current.amount {
        return Failure(ReservedUnderflow);
      }
      snapshot := snapshot.(available := snapshot.available + current.amount);
      snapshot := snapshot.(reserved := snapshot.reserved - current.amount);
      snapshots := snapshots[current.account := snapshot];
      reservations := reservations[p.reservation := current.(status := Released)];
      entries := entries + [ReleaseEntry(current, p, snapshot.available)];
      var recorded := RecordOutboxEvent(current.account, OfReservation(p.reservation), ReservationReleased, p.key);
      if recorded.Failure? {
        return Failure(recorded.error);
      }
      return Success(p.reservation);
    }

    /** Turns a hold into a charge: the difference is taken from, or goes back to, the available balance. */
    method ChargeHold(before: Snapshot, amount: int, actual: int) returns (snapshot: Snapshot)
      ensures snapshot == Charged(before, amount, actual)
    {
      var delta := actual - amount;
      snapshot := before.(reserved := before.reserved - amount);
      snapshot := snapshot.(consumed := snapshot.consumed + actual);
      if delta > 0 {
        snapshot := snapshot.(available := snapshot.available - delta);
      } else if delta < 0 {
        snapshot := snapshot.(available := snapshot.available + -delta);
        snapshot := snapshot.(refunded := snapshot.refunded + -delta);
      }
    }

    method SettleReservationTx(p: SettleParams) returns (r: Result<nat>)
      modifies this
      ensures var o := Settle(old(State()), p);
        r == ResultOf(o) && (o.Done? ==> State() == o.state)
    {
      if |p.key| == 0 || p.actual < 0 {
        return Failure(InvalidParams);
      }
      var found := FindSettlement(settlements, p.key);
      if found.Some? {
        var existing := settlements[found.value];
        if existing.reservation != p.reservation || existing.actual != p.actual {
          return Failure(LedgerConflict);
        }
        return Success(found.value);
      }
      if p.reservation >= |reservations| {
        return Failure(ReservationNotFound);
      }
      var current := reservations[p.reservation];
      if !current.status.Open? {
        return Failure(if current.status.Settled? then SettlementAlreadyExists else ReservationNotOpen);
      }
      r := SettleOpenTx(p);
    }

    method SettleOpenTx(p: SettleParams) returns (r: Result<nat>)
      requires p.reservation < |reservations|
      modifies this
      ensures var o := SettleOpen(old(State()), p);
        r == ResultOf(o) && (o.Done? ==> State() == o.state)
    {
      hide FindEntry, FindReservation, FindSettlement, FindEvent, KeyOf, SettleEntries, NewSettlement;
      hide SettlementClashes;
      var current := reservations[p.reservation];
      EnsureBalanceSnapshot(current.account);
      var snapshot := snapshots[current.account];
      if snapshot.reserved < current.amount {
        return Failure(ReservedUnderflow);
      }
      var delta := p.actual - current.amount;
      if delta > 0 && snapshot.available < delta {
        return Failure(InsufficientBalance);
      }
      snapshot := ChargeHold(snapshot, current.amount, p.actual);
      snapshots := snapshots[current.account := snapshot];
      var settlement := NewSettlement(p, delta);
      if SettlementClashes(settlements, settlement) {
        return Failure(UniqueViolation);
      }
      var row := |settlements|;
      settlements := settlements + [settlement];
      reservations := Close(reservations, p.reservation, Settled);
      var posted := PostDifference(current.account, settlement, row, snapshot.available);
      if posted.Failure? {
        return Failure(posted.error);
      }
      var recorded := RecordOutboxEvent(current.account, OfSettlement(row), ReservationSettled, settlement.key);
      if recorded.Failure? {
        return Failure(recorded.error);
      }
      return Success(row);
    }

    /** The debit or credit entry of a settlement that differs from its hold. */
    method PostDifference(account: AccountId, t: Settlement, row: nat, balance: int) returns (r: Result<()>)
      modifies this
      ensures var es := SettleEntries(account, t, row, balance);
        if es != [] && FindEntry(old(entries), Derived(t.key)).Some?
        then r == Failure(UniqueViolation) && State() == old(State())
        else r == Success(()) && State() == old(State()).(entries := old(entries) + es)
    {
      if t.delta != 0 {
        var entryType, direction, amount := SettleDebit, DebitSide, t.delta;
        if t.delta < 0 {
          entryType, direction, amount := SettleCredit, CreditSide, -t.delta;
        }
        if FindEntry(entries, Derived(t.key)).Some? {
          return Failure(UniqueViolation);
        }
        entries := entries + [Entry(account, ToSettlement(row), entryType, direction, amount, Some(balance),
                                    Derived(t.key), Fallback)];
      }
      return Success(());
    }

    // ----- Whole transactions: on failure the tables are as before -----

    method EnsureBillingAccount(p: EnsureParams, newId: AccountId) returns (r: Result<AccountId>)
      modifies this
      ensures var o := Ensure(old(State()), p, newId); r == ResultOf(o) && State() == After(old(State()), o)
    {
      var saved := State();
      r := EnsureBillingAccountTx(p, newId);
      if r.Failure? {
        Rollback(saved);
      }
    }

    method CreditAccount(p: CreditParams) returns (r: Result<nat>)
      modifies this
      ensures var o := Credit(old(State()), p); r == ResultOf(o) && State() == After(old(State()), o)
    {
      var saved := State();
      r := CreditAccountTx(p);
      if r.Failure? {
        Rollback(saved);
      }
    }

    method RecordAdjustment(p: AdjustParams) returns (r: Result<nat>)
      modifies this
      ensures var o := Adjust(old(State()), p); r == ResultOf(o) && State() == After(old(State()), o)
    {
      var saved := State();
      r := RecordAdjustmentTx(p);
      if r.Failure? {
        Rollback(saved);
      }
    }

    method CreateReservation(p: ReserveParams) returns (r: Result<nat>)
      modifies this
      ensures var o := Reserve(old(State()), p); r == ResultOf(o) && State() == After(old(State()), o)
    {
      var saved := State();
      r := CreateReservationTx(p);
      if r.Failure? {
        Rollback(saved);
      }
    }

    method ReleaseReservation(p: ReleaseParams) returns (r: Result<nat>)
      modifies this
      ensures var o := Release(old(State()), p); r == ResultOf(o) && State() == After(old(State()), o)
    {
      var saved := State();
      r := ReleaseReservationTx(p);
      if r.Failure? {
        Rollback(saved);
      }
    }

    method SettleReservation(p: SettleParams) returns (r: Result<nat>)
      modifies this
      ensures var o := Settle(old(State()), p); r == ResultOf(o) && State() == After(old(State()), o)
    {
      var saved := State();
      r := SettleReservationTx(p);
      if r.Failure? {
        Rollback(saved);
      }
    }

    // ----- The worker -----

    method RebuildBalanceSnapshot(a: AccountId) returns (r: Result<()>)
      modifies this
      ensures var o := RepairSnapshot(old(State()), a); r == ResultOf(o) && State() == After(old(State()), o)
    {
      if |a| == 0 {
        return Failure(InvalidParams);
      }
      if !AccountExists(accounts, a) {
        return Failure(AccountNotFound);
      }
      snapshots := snapshots[a := Expected(State(), a)];
      return Success(());
    }

    method ProcessLedgerOutboxEvent(i: nat) returns (r: Result<()>)
      modifies this
      ensures var o := ProcessEvent(old(State()), i); r == ResultOf(o) && State() == After(old(State()), o)
    {
      if i >= |outbox| {
        return Failure(EventNotFound);
      }
      var event := outbox[i];
      if event.published {
        return Success(());
      }
      if !AccountExists(accounts, event.account) {
        return Failure(AccountNotFound);
      }
      snapshots := snapshots[event.account := Expected(State(), event.account)];
      outbox := outbox[i := event.(published := true)];
      return Success(());
    }

    method MarkLedgerOutboxFailure(i: nat)
      modifies this
      ensures State() == MarkFailure(old(State()), i)
    {
      if i < |outbox| {
        outbox := outbox[i := outbox[i].(attempts := outbox[i].attempts + 1)];
      }
    }

    method AttemptEvent(i: nat) returns (published: bool)
      modifies this
      ensures State() == Attempt(old(State()), i) && published == ProcessEvent(old(State()), i).Done?
    {
      var result := ProcessLedgerOutboxEvent(i);
      published := result.Success?;
      if !published {
        MarkLedgerOutboxFailure(i);
      }
    }

    /** Processes the pending events of one window, oldest first, and reports how many went through. */
    method RunLedgerWorkerBatch(limit: int) returns (processed: nat)
      modifies this
      ensures var n := if limit <= 0 then DEFAULT_BATCH_SIZE else limit;
        && State() == Batch(old(State()), n)
        && processed == |Window(old(State()), n)| - |Unprocessable(old(State()), Window(old(State()), n))|
    {
      var n: nat := if limit <= 0 then DEFAULT_BATCH_SIZE else limit;
      var rows := Window(State(), n);
      ghost var start := State();
      processed := 0;
      for k := 0 to |rows|
        invariant State() == AttemptAll(start, rows[..k])
        invariant processed == k - |Unprocessable(start, rows[..k])|
      {
        WindowRow(start, n, k);
        NextOfWindow(start, rows, k);
        var published := AttemptEvent(rows[k]);
        if published {
          processed := processed + 1;
        }
      }
      assert rows[..|rows|] == rows;
    }
  }

  lemma {:induction false} NextOfWindow(s: Ledger, rows: seq<nat>, k: nat)
    requires k < |rows|
    ensures AttemptAll(s, rows[..k + 1]) == Attempt(AttemptAll(s, rows[..k]), rows[k])
    ensures |Unprocessable(s, rows[..k + 1])| ==
            |Unprocessable(s, rows[..k])| + if Processable(s, rows[k]) then 0 else 1
  {
    assert rows[..k + 1][..k] == rows[..k];
  }

  /** The k-th row of a window: a pending event that the first k attempts did not touch. */
  lemma {:induction false} WindowRow(s: Ledger, limit: nat, k: nat)
    requires k < |Window(s, limit)|
    ensures var rows := Window(s, limit);
      var s' := AttemptAll(s, rows[..k]);
      ProcessEvent(s', rows[k]).Done? <==> Processable(s, rows[k])
  {
    var all := PendingRows(s.outbox, 0);
    var rows := Window(s, limit);
    assert rows[..k] == all[..k];
    AttemptsPublish(s, k);
    var s' := AttemptAll(s, rows[..k]);
    assert rows[k] == all[k..][0];
    assert rows[k] in PendingRows(s'.outbox, 0);
    PendingAt(s'.outbox, 0, rows[k]);
  }
}
