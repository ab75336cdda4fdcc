/** A quota column that the ledger mirrors: reading it, and opening its account on first use. */
module WalletMirror {
  import opened LedgerSchema
  import opened LedgerRuntime
  import opened LedgerInvariants
  import opened LedgerEffects

  /** The ledger, and the legacy quota column of one owner. */
  datatype Wallet = Wallet(ledger: Ledger, column: int)

  /** The owner of a mirrored column and the key of its bootstrap credit. */
  datatype Mirror = Mirror(owner: EnsureParams, bootstrapKey: string)

  function OwnerRow(p: EnsureParams): Owner {
    Owner(p.accountType, p.ownerType, p.ownerId, p.quotaUnit)
  }

  predicate ValidMirror(m: Mirror) {
    m.owner.ownerId > 0 && |m.owner.ownerType| > 0 && |m.owner.accountType| > 0 && |m.owner.quotaUnit| > 0
  }

  function AccountOf(s: Ledger, m: Mirror): Option<AccountId> {
    match FindAccount(s.accounts, OwnerRow(m.owner))
    case None => None
    case Some(i) => Some(s.accounts[i].id)
  }

  /** Once the account exists its available balance is canonical; before that the column is. */
  function ReadBalance(w: Wallet, m: Mirror): int {
    var a := AccountOf(w.ledger, m);
    if a.Some? then Available(w.ledger, a.value) else w.column
  }

  predicate NonZero(x: Snapshot) {
    x.available != 0 || x.reserved != 0 || x.consumed != 0 || x.refunded != 0 || x.granted != 0
  }

  function BootstrapCredit(m: Mirror, a: AccountId, balance: int): CreditParams {
    CreditParams(a, balance, m.bootstrapKey, "mirror_bootstrap", "user", "")
  }

  /** The bootstrap credit inside the caller's transaction. */
  function EnsureMirroredTx(s: Ledger, m: Mirror, balance: int, newId: AccountId): Outcome<AccountId> {
    match Ensure(s, m.owner, newId)
    case Failed(e) => Failed(e)
    case Done(s1, a) =>
      if NonZero(Snap(s1, a)) || balance <= 0 then Done(s1, a)
      else match Credit(s1, BootstrapCredit(m, a, balance))
      case Failed(e) => Failed(e)
      case Done(s2, _) => Done(s2, a)
  }

  /** The same in two transactions of its own, either of which the database may refuse. */
  function EnsureMirrored(s: Ledger, m: Mirror, balance: int, newId: AccountId, ensureFails: bool, creditFails: bool):
    (r: (Ledger, Result<AccountId>))
  {
    if ensureFails then (s, Failure(StoreFailed))
    else match Ensure(s, m.owner, newId)
    case Failed(e) => (s, Failure(e))
    case Done(s1, a) =>
      if NonZero(Snap(s1, a)) || balance <= 0 then (s1, Success(a))
      else if creditFails then (s1, Failure(StoreFailed))
      else match Credit(s1, BootstrapCredit(m, a, balance))
      case Failed(e) => (s1, Failure(e))
      case Done(s2, _) => (s2, Success(a))
  }

  /** An existing account is found again, and no balance and no row changes. */
  lemma {:induction false} EnsureExisting(s: Ledger, m: Mirror, newId: AccountId)
    requires ValidMirror(m) && AccountOf(s, m).Some?
    ensures var o := Ensure(s, m.owner, newId);
      && o.Done? && o.value == AccountOf(s, m).value && SameHistory(s, o.state) && SameBalances(s, o.state)
      && o.state.accounts == s.accounts && o.state.outbox == s.outbox
  {
  }

  /** A missing account is opened empty under the new identifier. */
  lemma {:induction false} EnsureNew(s: Ledger, m: Mirror, newId: AccountId)
    requires ValidMirror(m) && AccountOf(s, m).None? && !AccountExists(s.accounts, newId) && newId !in s.snapshots
    ensures var o := Ensure(s, m.owner, newId);
      && o.Done? && o.value == newId && SameHistory(s, o.state) && SameBalances(s, o.state)
      && Snap(o.state, newId) == ZERO_SNAPSHOT && AccountOf(o.state, m) == Some(newId) && o.state.outbox == s.outbox
  {
  }

  /** Reading through the ledger and mirroring what was read changes nothing once the account exists. */
  lemma {:induction false} MirroringExisting(w: Wallet, m: Mirror, newId: AccountId, ensureFails: bool,
                                             creditFails: bool)
    requires ValidMirror(m) && AccountOf(w.ledger, m).Some?
    ensures var (s', r) := EnsureMirrored(w.ledger, m, ReadBalance(w, m), newId, ensureFails, creditFails);
      && (r == if ensureFails then Failure(StoreFailed) else Success(AccountOf(w.ledger, m).value))
      && SameHistory(w.ledger, s') && SameBalances(w.ledger, s') && s'.accounts == w.ledger.accounts
      && s'.outbox == w.ledger.outbox
  {
    EnsureExisting(w.ledger, m, newId);
  }

  /** First use: the ledger takes over a column that is not negative, exactly; a refused bootstrap
      credit leaves an empty account behind, and from then on that account is what is read. */
  lemma {:induction false} Bootstrap(w: Wallet, m: Mirror, newId: AccountId, creditFails: bool)
    requires ValidMirror(m) && AccountOf(w.ledger, m).None? && !AccountExists(w.ledger.accounts, newId)
    requires newId !in w.ledger.snapshots && |newId| > 0 && Unused(w.ledger, m.bootstrapKey)
    ensures var (s', r) := EnsureMirrored(w.ledger, m, ReadBalance(w, m), newId, false, creditFails);
      && AccountOf(s', m) == Some(newId)
      && (r.Success? <==> w.column <= 0 || !creditFails)
      && (ReadBalance(Wallet(s', w.column), m) == w.column <==> w.column == 0 || (w.column > 0 && !creditFails))
  {
    EnsureNew(w.ledger, m, newId);
    var s1 := Ensure(w.ledger, m.owner, newId).state;
    assert Unused(s1, m.bootstrapKey);
    if w.column > 0 {
      BootstrapPosts(s1, m, newId, w.column);
    }
  }

  lemma {:induction false} BootstrapPosts(s: Ledger, m: Mirror, a: AccountId, balance: int)
    requires Unused(s, m.bootstrapKey) && |a| > 0 && balance > 0 && Available(s, a) == 0
    ensures var o := Credit(s, BootstrapCredit(m, a, balance));
      o.Done? && o.state.accounts == s.accounts && Available(o.state, a) == balance
  {
  }
}
