/** Changing a mirrored balance: the ledger is reconciled with the column, moved, and the column follows. */
module WalletStore {
  import opened LedgerSchema
  import opened LedgerRuntime
  import opened LedgerInvariants
  import opened LedgerEffects
  import opened WalletMirror

  /** The idempotency keys derived from one operation identifier, and its descriptive columns. */
  datatype OpKeys = OpKeys(credit: string, reservation: string, settlement: string, request: string, reason: string)

  function CreditOf(a: AccountId, amount: int, k: OpKeys): CreditParams {
    CreditParams(a, amount, k.credit, k.reason, "", "")
  }

  function HoldOfOp(a: AccountId, amount: int, k: OpKeys): ReserveParams {
    ReserveParams(a, k.request, "", amount, k.reservation)
  }

  function ChargeOfOp(row: nat, amount: int, k: OpKeys): SettleParams {
    SettleParams(row, "", amount, k.settlement)
  }

  /** Takes delta from the account (a negative delta is credited), in the caller's transaction. */
  function ApplyDeltaTx(s: Ledger, a: AccountId, delta: int, k: OpKeys): Outcome<()> {
    if delta == 0 then Done(s, ())
    else if delta < 0 then
      match Credit(s, CreditOf(a, -delta, k))
      case Failed(e) => Failed(e)
      case Done(s1, _) => Done(s1, ())
    else
      match Reserve(s, HoldOfOp(a, delta, k))
      case Failed(e) => Failed(e)
      case Done(s1, row) =>
        match Settle(s1, ChargeOfOp(row, delta, k))
        case Failed(e) => Failed(e)
        case Done(s2, _) => Done(s2, ())
  }

  /** Where the database refuses an operation of one or two transactions. */
  datatype Cut = Never | Before | Between

  /** The same in transactions of its own. */
  function ApplyDelta(s: Ledger, a: AccountId, delta: int, k: OpKeys, cut: Cut): (r: (Ledger, Result<()>)) {
    if delta == 0 then (s, Success(()))
    else if cut.Before? then (s, Failure(StoreFailed))
    else if delta < 0 then
      var o := Credit(s, CreditOf(a, -delta, k));
      if o.Done? then (o.state, Success(())) else (s, Failure(o.error))
    else
      match Reserve(s, HoldOfOp(a, delta, k))
      case Failed(e) => (s, Failure(e))
      case Done(s1, row) =>
        if cut.Between? then (s1, Failure(StoreFailed))
        else
          match Settle(s1, ChargeOfOp(row, delta, k))
          case Failed(e) => (s1, Failure(e))
          case Done(s2, _) => (s2, Success(()))
  }

  // ----- Fresh operations -----

  predicate Plain(key: string) {
    !HasEntryPrefix(key)
  }

  predicate PlainKeys(k: OpKeys) {
    Plain(k.credit) && Plain(k.reservation) && Plain(k.settlement) && !Same(k.reservation, k.settlement)
  }

  /** No key of the operation occurs in the ledger. */
  predicate FreshOp(s: Ledger, k: OpKeys) {
    PlainKeys(k) && Unused(s, k.credit) && Unused(s, k.reservation) && Unused(s, k.settlement)
  }

  predicate Avoids(k: OpKeys, key: string) {
    Plain(key) && !Same(key, k.credit) && !Same(key, k.reservation) && !Same(key, k.settlement)
  }

  predicate Disjoint(k: OpKeys, k': OpKeys) {
    Avoids(k, k'.credit) && Avoids(k, k'.reservation) && Avoids(k, k'.settlement)
  }

  lemma {:induction false} PlainKeysDiffer(a: string, b: string)
    requires Plain(a) && Plain(b) && !Same(a, b)
    ensures KeyOf(a) != KeyOf(b) && KeyOf(a) != Derived(b) && KeyOf(b) != Derived(a)
  {
    KeyOfIsExact(a, b);
  }

  lemma {:induction false} CreditAdds(s: Ledger, p: CreditParams)
    requires Credit(s, p).Done? && FindEntry(s.entries, KeyOf(p.key)).None?
    ensures var s' := Credit(s, p).state;
      && s'.reservations == s.reservations && s'.settlements == s.settlements
      && s.entries <= s'.entries && (forall i | |s.entries| <= i < |s'.entries| :: s'.entries[i].key == KeyOf(p.key))
      && s.outbox <= s'.outbox && (forall i | |s.outbox| <= i < |s'.outbox| :: Same(s'.outbox[i].key, p.key))
  {
    hide FindEntry, FindEvent, KeyOf, Snap;
  }

  lemma {:induction false} CreditKeepsUnused(s: Ledger, p: CreditParams, key: string)
    requires Credit(s, p).Done? && Unused(s, key) && Plain(key) && Plain(p.key) && !Same(key, p.key)
    ensures Unused(Credit(s, p).state, key)
  {
    PlainKeysDiffer(key, p.key);
    if FindEntry(s.entries, KeyOf(p.key)).None? {
      hide Unused, KeyOf, FindEntry, Plain;
      CreditAdds(s, p);
      UsedNowhere(s, key);
      hide Credit;
      StillUnused(s, Credit(s, p).state, key);
    }
  }

  /** What an unused key says of the rows there are. */
  lemma {:induction false} UsedNowhere(s: Ledger, key: string)
    requires Unused(s, key)
    ensures forall i | 0 <= i < |s.reservations| :: !Same(s.reservations[i].key, key)
    ensures forall i | 0 <= i < |s.settlements| :: !Same(s.settlements[i].key, key)
  {
  }

  lemma {:induction false} ReserveAdds(s: Ledger, p: ReserveParams)
    requires Reserve(s, p).Done? && FindReservation(s.reservations, p.key).None?
    ensures var s' := Reserve(s, p).state;
      && s'.reservations == s.reservations + [NewReservation(p)] && s'.settlements == s.settlements
      && s.entries <= s'.entries && (forall i | |s.entries| <= i < |s'.entries| :: s'.entries[i].key == Derived(p.key))
      && s.outbox <= s'.outbox && (forall i | |s.outbox| <= i < |s'.outbox| :: Same(s'.outbox[i].key, p.key))
  {
    hide FindEntry, FindReservation, FindEvent, Snap;
  }

  lemma {:induction false} ReserveKeepsUnused(s: Ledger, p: ReserveParams, key: string)
    requires Reserve(s, p).Done? && Unused(s, key) && Plain(key) && Plain(p.key) && !Same(key, p.key)
    ensures Unused(Reserve(s, p).state, key)
  {
    PlainKeysDiffer(key, p.key);
    if FindReservation(s.reservations, p.key).None? {
      hide Unused, KeyOf, FindReservation, Plain;
      ReserveAdds(s, p);
      UsedNowhere(s, key);
      hide Reserve;
      StillUnused(s, Reserve(s, p).state, key);
    }
  }

  lemma {:induction false} SettleAdds(s: Ledger, p: SettleParams)
    requires Settle(s, p).Done? && FindSettlement(s.settlements, p.key).None?
    ensures var s' := Settle(s, p).state;
      && |s'.settlements| == |s.settlements| + 1 && s'.settlements[..|s.settlements|] == s.settlements
      && Same(s'.settlements[|s.settlements|].key, p.key)
      && |s'.reservations| == |s.reservations|
      && (forall i | 0 <= i < |s.reservations| :: Same(s'.reservations[i].key, s.reservations[i].key))
  {
  }

  lemma {:induction false} SettleAddsEntries(s: Ledger, p: SettleParams)
    requires Settle(s, p).Done? && FindSettlement(s.settlements, p.key).None?
    ensures var s' := Settle(s, p).state;
      && s.entries <= s'.entries
      && (forall i | |s.entries| <= i < |s'.entries| :: s'.entries[i].key == Derived(p.key))
      && s.outbox <= s'.outbox
      && (forall i | |s.outbox| <= i < |s'.outbox| :: Same(s'.outbox[i].key, p.key))
  {
  }

  lemma {:induction false} SettleKeepsUnused(s: Ledger, p: SettleParams, key: string)
    requires Settle(s, p).Done? && Unused(s, key) && Plain(key) && Plain(p.key) && !Same(key, p.key)
    ensures Unused(Settle(s, p).state, key)
  {
    if FindSettlement(s.settlements, p.key).None? {
      PlainKeysDiffer(key, p.key);
      SettleAdds(s, p);
      SettleAddsEntries(s, p);
      StillUnused(s, Settle(s, p).state, key);
    }
  }

  /** A key stays unused when no new row carries it. */
  lemma {:induction false} StillUnused(s: Ledger, s': Ledger, key: string)
    requires Unused(s, key) && s.entries <= s'.entries && s.outbox <= s'.outbox
    requires forall i | |s.entries| <= i < |s'.entries| ::
      s'.entries[i].key != KeyOf(key) && s'.entries[i].key != Derived(key)
    requires forall i | |s.outbox| <= i < |s'.outbox| :: !Same(s'.outbox[i].key, key)
    requires |s.reservations| <= |s'.reservations| && |s.settlements| <= |s'.settlements|
    requires forall i | 0 <= i < |s.reservations| :: Same(s'.reservations[i].key, s.reservations[i].key)
    requires forall i | |s.reservations| <= i < |s'.reservations| :: !Same(s'.reservations[i].key, key)
    requires s'.settlements[..|s.settlements|] == s.settlements
    requires forall i | |s.settlements| <= i < |s'.settlements| :: !Same(s'.settlements[i].key, key)
    ensures Unused(s', key)
  {
    forall i | 0 <= i < |s'.settlements| ensures !Same(s'.settlements[i].key, key) {
      if i < |s.settlements| {
        assert s'.settlements[i] == s'.settlements[..|s.settlements|][i];
      }
    }
    forall i | 0 <= i < |s'.reservations| ensures !Same(s'.reservations[i].key, key) {
    }
  }

  lemma {:induction false} ApplyKeepsUnused(s: Ledger, a: AccountId, delta: int, k: OpKeys, key: string)
    requires ApplyDeltaTx(s, a, delta, k).Done? && Unused(s, key) && PlainKeys(k) && Avoids(k, key)
    ensures Unused(ApplyDeltaTx(s, a, delta, k).state, key)
  {
    if delta < 0 {
      CreditKeepsUnused(s, CreditOf(a, -delta, k), key);
    } else if delta > 0 {
      var o := Reserve(s, HoldOfOp(a, delta, k));
      ReserveKeepsUnused(s, HoldOfOp(a, delta, k), key);
      SettleKeepsUnused(o.state, ChargeOfOp(o.value, delta, k), key);
    }
  }

  lemma {:induction false} ApplyKeepsFresh(s: Ledger, a: AccountId, delta: int, k: OpKeys, k': OpKeys)
    requires ApplyDeltaTx(s, a, delta, k).Done? && PlainKeys(k) && Disjoint(k, k') && FreshOp(s, k')
    ensures FreshOp(ApplyDeltaTx(s, a, delta, k).state, k')
  {
    ApplyKeepsUnused(s, a, delta, k, k'.credit);
    ApplyKeepsUnused(s, a, delta, k, k'.reservation);
    ApplyKeepsUnused(s, a, delta, k, k'.settlement);
  }

  lemma {:induction false} CreditKeepsAccounts(s: Ledger, p: CreditParams)
    requires Credit(s, p).Done?
    ensures Credit(s, p).state.accounts == s.accounts
  {
  }

  lemma {:induction false} HoldAndChargeKeepAccounts(s: Ledger, a: AccountId, delta: int, k: OpKeys)
    requires delta > 0 && ApplyDeltaTx(s, a, delta, k).Done?
    ensures ApplyDeltaTx(s, a, delta, k).state.accounts == s.accounts
  {
  }

  lemma {:induction false} ApplyKeepsBooks(s: Ledger, a: AccountId, delta: int, k: OpKeys)
    requires Books(s) && ApplyDeltaTx(s, a, delta, k).Done?
    ensures Books(ApplyDeltaTx(s, a, delta, k).state)
    ensures ApplyDeltaTx(s, a, delta, k).state.accounts == s.accounts
  {
    hide Credit, Reserve, Settle;
    if delta < 0 {
      CreditKeepsBooks(s, CreditOf(a, -delta, k));
      CreditKeepsAccounts(s, CreditOf(a, -delta, k));
    } else if delta > 0 {
      HoldAndChargeKeepAccounts(s, a, delta, k);
      var o := Reserve(s, HoldOfOp(a, delta, k));
      ReserveKeepsBooks(s, HoldOfOp(a, delta, k));
      SettleKeepsBooks(o.state, ChargeOfOp(o.value, delta, k));
    }
  }

  /** A fresh operation takes exactly delta from its account, and is refused only for want of balance. */
  lemma {:induction false} FreshApply(s: Ledger, a: AccountId, delta: int, k: OpKeys)
    requires Books(s) && FreshOp(s, k) && |a| > 0
    ensures var o := ApplyDeltaTx(s, a, delta, k);
      if delta > 0 && Available(s, a) < delta then o == Failed(InsufficientBalance)
      else o.Done? && Shifts(s, o.state, a, -delta)
  {
    if delta < 0 {
      FreshCreditSucceeds(s, CreditOf(a, -delta, k));
      CreditShifts(s, CreditOf(a, -delta, k));
    } else if delta > 0 {
      FreshReserve(s, HoldOfOp(a, delta, k));
      if Available(s, a) >= delta {
        FreshCharge(s, a, delta, k);
      }
    }
  }

  lemma {:induction false} FreshCharge(s: Ledger, a: AccountId, delta: int, k: OpKeys)
    requires Books(s) && FreshOp(s, k) && |a| > 0 && 0 < delta <= Available(s, a)
    ensures var o := ApplyDeltaTx(s, a, delta, k); o.Done? && Shifts(s, o.state, a, -delta)
  {
    var p := HoldOfOp(a, delta, k);
    FreshReserve(s, p);
    var s1 := Reserve(s, p).state;
    var q := ChargeOfOp(|s.reservations|, delta, k);
    ReserveShifts(s, p);
    ReserveKeepsBooks(s, p);
    ReserveKeepsUnused(s, p, k.settlement);
    NonNegative(s1, a);
    FreshSettleSucceeds(s1, q);
    SettleShifts(s1, q);
    ShiftsCompose(s, s1, Settle(s1, q).state, a, -delta, 0);
  }

  lemma {:induction false} NonNegative(s: Ledger, a: AccountId)
    requires Books(s)
    ensures Available(s, a) >= 0
  {
    assert Holds(Conservation, s);
  }

  /** With transactions of its own and no cut between them, an operation does the same. */
  lemma {:induction false} ApplyInTransactions(s: Ledger, a: AccountId, delta: int, k: OpKeys, cut: Cut)
    requires Books(s) && FreshOp(s, k) && |a| > 0 && !cut.Between?
    ensures var (s', r) := ApplyDelta(s, a, delta, k, cut);
      if cut.Before? && delta != 0 then s' == s && r == Failure(StoreFailed)
      else var o := ApplyDeltaTx(s, a, delta, k); s' == After(s, o) && r == ResultOf(o)
  {
    FreshApply(s, a, delta, k);
  }

  /** A cut between the hold and its settlement leaves the hold open: the operation reports failure,
      and the amount is neither available nor charged. */
  lemma {:induction false} CutLeavesHold(s: Ledger, a: AccountId, delta: int, k: OpKeys)
    requires Books(s) && FreshOp(s, k) && |a| > 0 && 0 < delta <= Available(s, a)
    ensures var (s', r) := ApplyDelta(s, a, delta, k, Between);
      && r == Failure(StoreFailed) && Available(s', a) == Available(s, a) - delta && s'.accounts == s.accounts
      && s'.reservations == s.reservations + [NewReservation(HoldOfOp(a, delta, k))]
  {
    FreshReserve(s, HoldOfOp(a, delta, k));
    ReserveShifts(s, HoldOfOp(a, delta, k));
  }

  /** The operation is cut off between a hold that goes through and its settlement. */
  predicate CutOff(available: int, delta: int, cut: Cut) {
    cut.Between? && 0 < delta <= available
  }

  predicate Applies(available: int, delta: int, cut: Cut) {
    delta == 0 || (!cut.Before? && delta <= available && !CutOff(available, delta, cut))
  }

  /** An operation does all that its transactions are to do, or reports failure and does nothing, exactly when
      it is not cut off. */
  lemma {:induction false} OperationIsAtomic(s: Ledger, a: AccountId, delta: int, k: OpKeys, cut: Cut)
    requires Books(s) && FreshOp(s, k) && |a| > 0
    ensures var (s', r) := ApplyDelta(s, a, delta, k, cut);
      var o := ApplyDeltaTx(s, a, delta, k);
      (if r.Success? then o.Done? && s' == o.state else s' == s) <==> !CutOff(Available(s, a), delta, cut)
  {
    hide Books, FreshOp;
    FreshApply(s, a, delta, k);
    if CutOff(Available(s, a), delta, cut) {
      CutLeavesHold(s, a, delta, k);
    } else if cut.Between? && delta > 0 {
      ShortHold(s, a, delta, k, cut);
    } else if !cut.Between? {
      hide ApplyDelta, ApplyDeltaTx;
      ApplyInTransactions(s, a, delta, k, cut);
    }
  }

  lemma {:induction false} ShortHold(s: Ledger, a: AccountId, delta: int, k: OpKeys, cut: Cut)
    requires FreshOp(s, k) && |a| > 0 && delta > 0 && delta > Available(s, a)
    ensures ApplyDelta(s, a, delta, k, cut).0 == s && ApplyDelta(s, a, delta, k, cut).1.Failure?
  {
    FreshReserve(s, HoldOfOp(a, delta, k));
  }

  /** What an operation does to the balance of its account, wherever it is refused. */
  lemma {:induction false} ApplyOutcome(s: Ledger, a: AccountId, delta: int, k: OpKeys, cut: Cut)
    requires Books(s) && FreshOp(s, k) && |a| > 0
    ensures var (s', r) := ApplyDelta(s, a, delta, k, cut);
      && (r.Success? <==> Applies(Available(s, a), delta, cut))
      && (r.Success? ==> ApplyDeltaTx(s, a, delta, k) == Done(s', ()))
      && s'.accounts == s.accounts
      && Available(s', a) == Available(s, a) - if r.Success? || CutOff(Available(s, a), delta, cut) then delta else 0
  {
    hide Books, FreshOp;
    NonNegative(s, a);
    FreshApply(s, a, delta, k);
    if CutOff(Available(s, a), delta, cut) {
      CutLeavesHold(s, a, delta, k);
    } else if cut.Between? && delta > 0 {
      ShortHold(s, a, delta, k, cut);
    } else if delta != 0 {
      if cut.Between? {
        CutIsIdle(s, a, delta, k, cut);
      }
      hide ApplyDelta, ApplyDeltaTx;
      ApplyInTransactions(s, a, delta, k, if cut.Between? then Never else cut);
      var o := ApplyDeltaTx(s, a, delta, k);
      if o.Done? {
        ApplyKeepsBooks(s, a, delta, k);
        assert Available(o.state, a) == Available(s, a) - delta;
      }
    }
  }

  lemma {:induction false} CutIsIdle(s: Ledger, a: AccountId, delta: int, k: OpKeys, cut: Cut)
    requires delta <= 0 && cut.Between?
    ensures ApplyDelta(s, a, delta, k, cut) == ApplyDelta(s, a, delta, k, Never)
  {
  }

  // ----- Opening the account -----

  /** The account can be opened, or is open, and its bootstrap can go through when it is due. */
  ghost predicate Openable(s: Ledger, m: Mirror, newId: AccountId) {
    && Books(s) && ValidMirror(m) && Plain(m.bootstrapKey)
    && match AccountOf(s, m)
       case None => |newId| > 0 && !AccountExists(s.accounts, newId) && newId !in s.snapshots &&
                    Unused(s, m.bootstrapKey)
       case Some(a) => |a| > 0 && (NonZero(Snap(s, a)) || Unused(s, m.bootstrapKey))
  }

  /** Opening succeeds, keeps the books and every other fresh key. */
  lemma {:induction false} Opens(s: Ledger, m: Mirror, balance: int, newId: AccountId)
    requires Openable(s, m, newId)
    ensures var o := EnsureMirroredTx(s, m, balance, newId);
      && o.Done? && |o.value| > 0 && Books(o.state) && AccountOf(o.state, m) == Some(o.value)
  {
    var e := Ensure(s, m.owner, newId);
    if AccountOf(s, m).Some? {
      EnsureExisting(s, m, newId);
    } else {
      EnsureNew(s, m, newId);
    }
    EnsureKeepsBooks(s, m.owner, newId);
    if !NonZero(Snap(e.state, e.value)) && balance > 0 {
      BootstrapPosts(e.state, m, e.value, balance);
      CreditKeepsBooks(e.state, BootstrapCredit(m, e.value, balance));
    }
  }

  lemma {:induction false} OpeningKeepsUnused(s: Ledger, m: Mirror, balance: int, newId: AccountId, key: string)
    requires Openable(s, m, newId) && Unused(s, key) && Plain(key) && !Same(key, m.bootstrapKey)
    ensures Unused(EnsureMirroredTx(s, m, balance, newId).state, key)
  {
    Opens(s, m, balance, newId);
    var e := Ensure(s, m.owner, newId);
    assert Unused(e.state, key) by {
      if AccountOf(s, m).Some? {
        EnsureExisting(s, m, newId);
      } else {
        EnsureNew(s, m, newId);
      }
    }
    if !NonZero(Snap(e.state, e.value)) && balance > 0 {
      CreditKeepsUnused(e.state, BootstrapCredit(m, e.value, balance), key);
    }
  }

  predicate AvoidsBootstrap(m: Mirror, k: OpKeys) {
    !Same(k.credit, m.bootstrapKey) && !Same(k.reservation, m.bootstrapKey) && !Same(k.settlement, m.bootstrapKey)
  }

  lemma {:induction false} OpeningKeepsFresh(s: Ledger, m: Mirror, balance: int, newId: AccountId, k: OpKeys)
    requires Openable(s, m, newId) && FreshOp(s, k) && AvoidsBootstrap(m, k)
    ensures FreshOp(EnsureMirroredTx(s, m, balance, newId).state, k)
  {
    OpeningKeepsUnused(s, m, balance, newId, k.credit);
    OpeningKeepsUnused(s, m, balance, newId, k.reservation);
    OpeningKeepsUnused(s, m, balance, newId, k.settlement);
  }

  /** Opened and reconciled: the ledger's available balance is the given one. */
  function OpenReconciled(s: Ledger, m: Mirror, balance: int, newId: AccountId, k: OpKeys): Outcome<AccountId> {
    match EnsureMirroredTx(s, m, balance, newId)
    case Failed(e) => Failed(e)
    case Done(s1, a) =>
      match ApplyDeltaTx(s1, a, Available(s1, a) - balance, k)
      case Failed(e) => Failed(e)
      case Done(s2, _) => Done(s2, a)
  }

  /** Whatever the drift was, opening and reconciling ends with the ledger at the balance read; it is
      refused exactly when that balance is negative. */
  lemma {:induction false} Reconciles(s: Ledger, m: Mirror, balance: int, newId: AccountId, k: OpKeys)
    requires Openable(s, m, newId) && FreshOp(s, k) && AvoidsBootstrap(m, k)
    ensures var o := OpenReconciled(s, m, balance, newId, k);
      if balance < 0 then o == Failed(InsufficientBalance)
      else o.Done? && |o.value| > 0 && Books(o.state) && AccountOf(o.state, m) == Some(o.value) &&
           Available(o.state, o.value) == balance
  {
    Opens(s, m, balance, newId);
    OpeningKeepsFresh(s, m, balance, newId, k);
    var o1 := EnsureMirroredTx(s, m, balance, newId);
    var d := Available(o1.state, o1.value) - balance;
    NonNegative(o1.state, o1.value);
    FreshApply(o1.state, o1.value, d, k);
    if balance >= 0 {
      ApplyKeepsBooks(o1.state, o1.value, d, k);
    }
  }

  lemma {:induction false} ReconcilingKeepsUnused(s: Ledger, m: Mirror, balance: int, newId: AccountId, k: OpKeys,
                                                  key: string)
    requires Openable(s, m, newId) && OpenReconciled(s, m, balance, newId, k).Done? && PlainKeys(k)
    requires Unused(s, key) && Avoids(k, key) && !Same(key, m.bootstrapKey)
    ensures Unused(OpenReconciled(s, m, balance, newId, k).state, key)
  {
    hide EnsureMirroredTx, ApplyDeltaTx, Openable;
    OpeningKeepsUnused(s, m, balance, newId, key);
    var o1 := EnsureMirroredTx(s, m, balance, newId);
    ApplyKeepsUnused(o1.state, o1.value, Available(o1.state, o1.value) - balance, k, key);
  }
}
