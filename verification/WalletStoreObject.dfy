/** The wallet and token stores as they run: step by step over the ledger tables and a quota column. */
module WalletStoreObject {
  import opened LedgerSchema
  import opened LedgerRuntime
  import opened LedgerEffects
  import opened LedgerDatabase
  import opened WalletMirror
  import opened WalletStore
  import opened WalletOperations
  import opened RelayFunding
  import opened RelayFundingObject
  import opened TokenQuota

  function Purse(db: Database, column: QuotaColumn): Wallet
    reads db, column
  {
    Wallet(db.State(), column.quota)
  }

  // ----- Inside a caller's transaction -----

  method ApplyLedgerDeltaTx(db: Database, a: AccountId, delta: int, k: OpKeys) returns (r: Result<()>)
    modifies db
    ensures var o := ApplyDeltaTx(old(db.State()), a, delta, k); r == ResultOf(o) && (o.Done? ==> db.State() == o.state)
  {
    hide Credit, Reserve, Settle;
    if delta == 0 {
      return Success(());
    }
    if delta < 0 {
      var credited := db.CreditAccountTx(CreditOf(a, -delta, k));
      return if credited.Failure? then Failure(credited.error) else Success(());
    }
    var held := db.CreateReservationTx(HoldOfOp(a, delta, k));
    if held.Failure? {
      return Failure(held.error);
    }
    var settled := db.SettleReservationTx(ChargeOfOp(held.value, delta, k));
    return if settled.Failure? then Failure(settled.error) else Success(());
  }

  method EnsureMirroredUserAccountTx(db: Database, m: Mirror, balance: int, newId: AccountId)
    returns (r: Result<AccountId>)
    modifies db
    ensures var o := EnsureMirroredTx(old(db.State()), m, balance, newId);
      r == ResultOf(o) && (o.Done? ==> db.State() == o.state)
  {
    hide Credit, Ensure;
    r := db.EnsureBillingAccountTx(m.owner, newId);
    if r.Failure? {
      return;
    }
    if NonZero(Snap(db.State(), r.value)) || balance <= 0 {
      return;
    }
    var credited := db.CreditAccountTx(BootstrapCredit(m, r.value, balance));
    if credited.Failure? {
      r := Failure(credited.error);
    }
  }

  method OpenReconciledTx(db: Database, m: Mirror, balance: int, newId: AccountId, k: OpKeys)
    returns (r: Result<AccountId>)
    modifies db
    ensures var o := OpenReconciled(old(db.State()), m, balance, newId, k);
      r == ResultOf(o) && (o.Done? ==> db.State() == o.state)
  {
    hide EnsureMirroredTx, ApplyDeltaTx;
    r := EnsureMirroredUserAccountTx(db, m, balance, newId);
    if r.Failure? {
      return;
    }
    var diff := balance - Available(db.State(), r.value);
    var reconciled := ApplyLedgerDeltaTx(db, r.value, -diff, k);
    if reconciled.Failure? {
      r := Failure(reconciled.error);
    }
  }

  /** One transaction over both stores: a refused one leaves neither changed. */
  method DebitWalletQuota(db: Database, column: QuotaColumn, m: Mirror, amount: int, newId: AccountId, kr: OpKeys,
                          kd: OpKeys)
    returns (r: Result<()>)
    modifies db, column
    ensures match DebitTx(old(Purse(db, column)), m, amount, newId, kr, kd)
            case Refused(e) => r == Failure(e) && Purse(db, column) == old(Purse(db, column))
            case Changed(w) => r == Success(()) && Purse(db, column) == w
  {
    hide OpenReconciled, ApplyDeltaTx;
    var saved := db.State();
    if amount <= 0 {
      return Failure(InvalidParams);
    }
    if column.quota < amount {
      return Failure(InsufficientBalance);
    }
    var account := OpenReconciledTx(db, m, column.quota, newId, kr);
    if account.Failure? {
      db.Rollback(saved);
      return Failure(account.error);
    }
    r := ApplyLedgerDeltaTx(db, account.value, amount, kd);
    if r.Failure? {
      db.Rollback(saved);
      return;
    }
    column.quota := column.quota - amount;
    return Success(());
  }

  method CreditWalletQuota(db: Database, column: QuotaColumn, m: Mirror, amount: int, key: string, newId: AccountId,
                           kr: OpKeys)
    returns (r: Result<()>)
    modifies db, column
    ensures match CreditTx(old(Purse(db, column)), m, amount, key, newId, kr)
            case Refused(e) => r == Failure(e) && Purse(db, column) == old(Purse(db, column))
            case Changed(w) => r == Success(()) && Purse(db, column) == w
  {
    hide OpenReconciled, Credit;
    var saved := db.State();
    if amount <= 0 || |key| == 0 {
      return Failure(InvalidParams);
    }
    var account := OpenReconciledTx(db, m, column.quota, newId, kr);
    if account.Failure? {
      db.Rollback(saved);
      return Failure(account.error);
    }
    var credited := db.CreditAccountTx(CreditParams(account.value, amount, key, "", "", ""));
    if credited.Failure? {
      db.Rollback(saved);
      return Failure(credited.error);
    }
    column.quota := column.quota + amount;
    return Success(());
  }

  // ----- In transactions of their own, with compensation -----

  method ApplyLedgerDelta(db: Database, a: AccountId, delta: int, k: OpKeys, cut: Cut) returns (r: Result<()>)
    modifies db
    ensures (db.State(), r) == ApplyDelta(old(db.State()), a, delta, k, cut)
  {
    hide Credit, Reserve, Settle;
    if delta == 0 {
      return Success(());
    }
    if cut.Before? {
      return Failure(StoreFailed);
    }
    if delta < 0 {
      var credited := db.CreditAccount(CreditOf(a, -delta, k));
      return if credited.Failure? then Failure(credited.error) else Success(());
    }
    var held := db.CreateReservation(HoldOfOp(a, delta, k));
    if held.Failure? {
      return Failure(held.error);
    }
    if cut.Between? {
      return Failure(StoreFailed);
    }
    var settled := db.SettleReservation(ChargeOfOp(held.value, delta, k));
    return if settled.Failure? then Failure(settled.error) else Success(());
  }

  method AdjustMirroredQuota(db: Database, column: QuotaColumn, m: Mirror, balance: int, delta: int, newId: AccountId,
                             kr: OpKeys, ka: OpKeys, kc: OpKeys, x: AdjustFaults)
    returns (r: Result<()>)
    modifies db, column
    ensures (Purse(db, column), r) == AdjustMirrored(old(Purse(db, column)), m, balance, delta, newId, kr, ka, kc, x)
  {
    hide EnsureMirrored, AdjustOpened;
    if delta == 0 {
      return Success(());
    }
    var account := EnsureMirroredUserAccount(db, m, balance, newId, Faults(x.ensure, x.bootstrap, false, false, false));
    if account.Failure? {
      return Failure(account.error);
    }
    r := AdjustOpenedQuota(db, column, account.value, balance, delta, kr, ka, kc, x);
  }

  method AdjustOpenedQuota(db: Database, column: QuotaColumn, a: AccountId, balance: int, delta: int,
                           kr: OpKeys, ka: OpKeys, kc: OpKeys, x: AdjustFaults)
    returns (r: Result<()>)
    requires delta != 0
    modifies db, column
    ensures (Purse(db, column), r) == AdjustOpened(old(Purse(db, column)), a, balance, delta, kr, ka, kc, x)
  {
    hide ApplyDelta;
    var diff := balance - Available(db.State(), a);
    r := ApplyLedgerDelta(db, a, -diff, kr, x.reconcile);
    if r.Failure? {
      return;
    }
    r := ApplyLedgerDelta(db, a, delta, ka, x.apply);
    if r.Failure? {
      return;
    }
    var projected := column.Project(delta, x.column);
    if !projected {
      var compensated := ApplyLedgerDelta(db, a, -delta, kc, x.compensate);
      return Failure(StoreFailed);
    }
    return Success(());
  }

  method AdjustUserWalletQuota(db: Database, column: QuotaColumn, m: Mirror, delta: int, newId: AccountId,
                               kr: OpKeys, ka: OpKeys, kc: OpKeys, x: AdjustFaults)
    returns (r: Result<()>)
    modifies db, column
    ensures (Purse(db, column), r) == AdjustWallet(old(Purse(db, column)), m, delta, newId, kr, ka, kc, x)
  {
    hide AdjustMirrored;
    var balance := ReadBalance(Purse(db, column), m);
    r := AdjustMirroredQuota(db, column, m, balance, delta, newId, kr, ka, kc, x);
  }

  method SetUserWalletQuota(db: Database, column: QuotaColumn, m: Mirror, target: int, newId: AccountId,
                            kr: OpKeys, ka: OpKeys, kc: OpKeys, x: AdjustFaults)
    returns (r: Result<()>)
    modifies db, column
    ensures (Purse(db, column), r) == SetWallet(old(Purse(db, column)), m, target, newId, kr, ka, kc, x)
  {
    hide AdjustMirrored;
    if target < 0 {
      return Failure(InvalidParams);
    }
    var current := ReadBalance(Purse(db, column), m);
    r := AdjustUserWalletQuota(db, column, m, current - target, newId, kr, ka, kc, x);
  }

  function Tills(db: Database, column: QuotaColumn, token: QuotaColumn): Till
    reads db, column, token
  {
    Till(Purse(db, column), token.quota)
  }

  method AdjustStoredToken(db: Database, column: QuotaColumn, token: QuotaColumn, i: TokenInfo, delta: int,
                           c: TokenCall)
    returns (r: Result<()>)
    requires column != token
    modifies db, token
    ensures (Tills(db, column, token), r) == AdjustTokenQuota(old(Tills(db, column, token)), i, delta, c)
  {
    hide AdjustMirrored;
    if i.id <= 0 || delta == 0 {
      return Success(());
    }
    if c.missing {
      return Failure(StoreFailed);
    }
    if i.unlimited {
      return Success(());
    }
    r := AdjustMirroredQuota(db, token, i.mirror, token.quota, delta, c.newId, c.kr, c.ka, c.kc, c.x);
  }

  method PreConsumeStoredToken(db: Database, column: QuotaColumn, token: QuotaColumn, i: TokenInfo, quota: int,
                               c: TokenCall)
    returns (r: Result<()>)
    requires column != token
    modifies db, token
    ensures (Tills(db, column, token), r) == PreConsumeTokenQuota(old(Tills(db, column, token)), i, quota, c)
  {
    hide AdjustTokenQuota, AdjustMirrored;
    if quota < 0 {
      return Failure(InvalidParams);
    }
    if i.playground {
      return Success(());
    }
    if c.missing {
      return Failure(StoreFailed);
    }
    if !i.requestUnlimited && RemainQuota(Tills(db, column, token), i) < quota {
      return Failure(InsufficientBalance);
    }
    r := AdjustStoredToken(db, column, token, i, quota, c);
  }
}
