/** Debits, credits and adjustments of a mirrored balance. */
module WalletOperations {
  import opened LedgerSchema
  import opened LedgerRuntime
  import opened LedgerInvariants
  import opened LedgerEffects
  import opened LedgerRuns
  import opened WalletMirror
  import opened WalletStore

  datatype Change = Changed(wallet: Wallet) | Refused(error: LedgerError)

  // ----- One transaction: reconcile, move the ledger, move the column -----

  function DebitTx(w: Wallet, m: Mirror, amount: int, newId: AccountId, kr: OpKeys, kd: OpKeys): Change {
    if amount <= 0 then Refused(InvalidParams)
    else if w.column < amount then Refused(InsufficientBalance)
    else match OpenReconciled(w.ledger, m, w.column, newId, kr)
    case Failed(e) => Refused(e)
    case Done(s1, a) =>
      match ApplyDeltaTx(s1, a, amount, kd)
      case Failed(e) => Refused(e)
      case Done(s2, _) => Changed(Wallet(s2, w.column - amount))
  }

  /** The keys a reconciling operation may use beside another one. */
  predicate Apart(m: Mirror, k: OpKeys, k': OpKeys) {
    PlainKeys(k) && PlainKeys(k') && Disjoint(k, k') && AvoidsBootstrap(m, k) && AvoidsBootstrap(m, k')
  }

  lemma {:induction false} FreshAfterReconciling(s: Ledger, m: Mirror, balance: int, newId: AccountId, k: OpKeys,
                                                 k': OpKeys)
    requires Openable(s, m, newId) && OpenReconciled(s, m, balance, newId, k).Done? && Apart(m, k, k') && FreshOp(s, k')
    ensures FreshOp(OpenReconciled(s, m, balance, newId, k).state, k')
  {
    ReconcilingKeepsUnused(s, m, balance, newId, k, k'.credit);
    ReconcilingKeepsUnused(s, m, balance, newId, k, k'.reservation);
    ReconcilingKeepsUnused(s, m, balance, newId, k, k'.settlement);
  }

  /** Whatever the drift before it, a debit under a fresh operation identifier goes through exactly when
      the column covers it, and ends with ledger and column at the old column less the amount. */
  lemma {:induction false} DebitInStep(w: Wallet, m: Mirror, amount: int, newId: AccountId, kr: OpKeys, kd: OpKeys)
    requires Openable(w.ledger, m, newId) && FreshOp(w.ledger, kr) && FreshOp(w.ledger, kd) && Apart(m, kr, kd)
    ensures var c := DebitTx(w, m, amount, newId, kr, kd);
      && (c.Changed? <==> 0 < amount <= w.column)
      && (c.Refused? ==> c.error == if amount <= 0 then InvalidParams else InsufficientBalance)
      && (c.Changed? ==> c.wallet.column == w.column - amount == ReadBalance(c.wallet, m) && Books(c.wallet.ledger))
  {
    if 0 < amount <= w.column {
      Reconciles(w.ledger, m, w.column, newId, kr);
      FreshAfterReconciling(w.ledger, m, w.column, newId, kr, kd);
      var o := OpenReconciled(w.ledger, m, w.column, newId, kr);
      FreshApply(o.state, o.value, amount, kd);
      ApplyKeepsBooks(o.state, o.value, amount, kd);
      assert Available(ApplyDeltaTx(o.state, o.value, amount, kd).state, o.value) == w.column - amount;
    }
  }

  /** A debit that goes through leaves ledger and column equal exactly when its operation was not
      recorded before: a repeated identifier lowers the column alone. */
  lemma {:induction false} RepeatedDebit(w: Wallet, m: Mirror, amount: int, newId: AccountId, kr: OpKeys, kd: OpKeys)
    requires Openable(w.ledger, m, newId) && FreshOp(w.ledger, kr) && Apart(m, kr, kd)
    requires FreshOp(w.ledger, kd) || FindReservation(w.ledger.reservations, kd.reservation).Some?
    requires DebitTx(w, m, amount, newId, kr, kd).Changed?
    ensures var w' := DebitTx(w, m, amount, newId, kr, kd).wallet;
      ReadBalance(w', m) == w'.column <==> FindReservation(w.ledger.reservations, kd.reservation).None?
  {
    if FreshOp(w.ledger, kd) {
      DebitInStep(w, m, amount, newId, kr, kd);
    } else {
      Reconciles(w.ledger, m, w.column, newId, kr);
      var o := OpenReconciled(w.ledger, m, w.column, newId, kr);
      ReconcilingExtends(w.ledger, m, w.column, newId, kr);
      StillFound(w.ledger, o.state, Given(""), kd.reservation);
      ApplyKeepsBooks(o.state, o.value, amount, kd);
      RepeatedChargeShiftsNothing(o.state, o.value, amount, kd);
    }
  }

  lemma {:induction false} ApplyExtends(s: Ledger, a: AccountId, delta: int, k: OpKeys)
    requires ApplyDeltaTx(s, a, delta, k).Done?
    ensures Extends(s, ApplyDeltaTx(s, a, delta, k).state)
  {
    if delta < 0 {
      CreditExtends(s, CreditOf(a, -delta, k));
    } else if delta > 0 {
      var o := Reserve(s, HoldOfOp(a, delta, k));
      ReserveExtends(s, HoldOfOp(a, delta, k));
      SettleExtends(o.state, ChargeOfOp(o.value, delta, k));
      ExtendsIsTransitive(s, o.state, Settle(o.state, ChargeOfOp(o.value, delta, k)).state);
    }
  }

  lemma {:induction false} OpeningExtends(s: Ledger, m: Mirror, balance: int, newId: AccountId)
    requires EnsureMirroredTx(s, m, balance, newId).Done?
    ensures Extends(s, EnsureMirroredTx(s, m, balance, newId).state)
  {
    var e := Ensure(s, m.owner, newId);
    EnsureExtends(s, m.owner, newId);
    if !NonZero(Snap(e.state, e.value)) && balance > 0 {
      CreditExtends(e.state, BootstrapCredit(m, e.value, balance));
      ExtendsIsTransitive(s, e.state, EnsureMirroredTx(s, m, balance, newId).state);
    }
  }

  /** Reconciling loses no row, so what could be found by its key still can. */
  lemma {:induction false} ReconcilingExtends(s: Ledger, m: Mirror, balance: int, newId: AccountId, k: OpKeys)
    requires OpenReconciled(s, m, balance, newId, k).Done?
    ensures Extends(s, OpenReconciled(s, m, balance, newId, k).state)
  {
    hide EnsureMirroredTx, ApplyDeltaTx;
    var o1 := EnsureMirroredTx(s, m, balance, newId);
    OpeningExtends(s, m, balance, newId);
    ApplyExtends(o1.state, o1.value, Available(o1.state, o1.value) - balance, k);
    ExtendsIsTransitive(s, o1.state, OpenReconciled(s, m, balance, newId, k).state);
  }

  lemma {:induction false} StillFound(s: Ledger, s': Ledger, entryKey: EntryKey, key: string)
    requires Extends(s, s')
    ensures FindEntry(s.entries, entryKey).Some? ==> FindEntry(s'.entries, entryKey).Some?
    ensures FindReservation(s.reservations, key).Some? ==> FindReservation(s'.reservations, key).Some?
  {
    var e := FindEntry(s.entries, entryKey);
    if e.Some? {
      assert s'.entries[e.value] == s.entries[e.value];
    }
    var r := FindReservation(s.reservations, key);
    if r.Some? {
      assert s'.reservations[r.value].(status := s.reservations[r.value].status) == s.reservations[r.value];
    }
  }

  lemma {:induction false} RepeatedChargeShiftsNothing(s: Ledger, a: AccountId, amount: int, k: OpKeys)
    requires amount > 0 && ApplyDeltaTx(s, a, amount, k).Done? && FindReservation(s.reservations, k.reservation).Some?
    ensures Available(ApplyDeltaTx(s, a, amount, k).state, a) == Available(s, a)
  {
    var o := Reserve(s, HoldOfOp(a, amount, k));
    assert o.state == s;
    var q := ChargeOfOp(o.value, amount, k);
    if FindSettlement(s.settlements, q.key).None? {
      SettleShifts(s, q);
      assert Available(Settle(s, q).state, a) == Available(s, a) + 0;
    }
  }

  function CreditTx(w: Wallet, m: Mirror, amount: int, key: string, newId: AccountId, kr: OpKeys): Change {
    if amount <= 0 || |key| == 0 then Refused(InvalidParams)
    else match OpenReconciled(w.ledger, m, w.column, newId, kr)
    case Failed(e) => Refused(e)
    case Done(s1, a) =>
      match Credit(s1, CreditParams(a, amount, key, "", "", ""))
      case Failed(e) => Refused(e)
      case Done(s2, _) => Changed(Wallet(s2, w.column + amount))
  }

  /** A wallet credit that goes through leaves ledger and column equal exactly when its key is new: a
      replay returns the recorded entry and still raises the column. */
  lemma {:induction false} CreditInStepIffNew(w: Wallet, m: Mirror, amount: int, key: string, newId: AccountId,
                                              kr: OpKeys)
    requires Openable(w.ledger, m, newId) && FreshOp(w.ledger, kr) && AvoidsBootstrap(m, kr)
    requires Avoids(kr, key) && !Same(key, m.bootstrapKey)
    requires Unused(w.ledger, key) || FindEntry(w.ledger.entries, KeyOf(key)).Some?
    requires CreditTx(w, m, amount, key, newId, kr).Changed?
    ensures var w' := CreditTx(w, m, amount, key, newId, kr).wallet;
      && w'.column == w.column + amount
      && (ReadBalance(w', m) == w'.column <==> FindEntry(w.ledger.entries, KeyOf(key)).None?)
  {
    Reconciles(w.ledger, m, w.column, newId, kr);
    var o := OpenReconciled(w.ledger, m, w.column, newId, kr);
    var p := CreditParams(o.value, amount, key, "", "", "");
    CreditKeepsBooks(o.state, p);
    CreditShifts(o.state, p);
    assert Available(Credit(o.state, p).state, o.value) ==
           w.column + if FindEntry(o.state.entries, KeyOf(key)).None? then amount else 0;
    assert Credit(o.state, p).state.accounts == o.state.accounts;
    if Unused(w.ledger, key) {
      ReconcilingKeepsUnused(w.ledger, m, w.column, newId, kr, key);
    } else {
      ReconcilingExtends(w.ledger, m, w.column, newId, kr);
      StillFound(w.ledger, o.state, KeyOf(key), key);
    }
  }

  /** A credit under a new key goes through exactly when there is something to credit and the column is not negative. */
  lemma {:induction false} CreditGoesThrough(w: Wallet, m: Mirror, amount: int, key: string, newId: AccountId,
                                             kr: OpKeys)
    requires Openable(w.ledger, m, newId) && FreshOp(w.ledger, kr) && AvoidsBootstrap(m, kr)
    requires Avoids(kr, key) && !Same(key, m.bootstrapKey) && Unused(w.ledger, key)
    ensures var c := CreditTx(w, m, amount, key, newId, kr);
      if amount <= 0 then c == Refused(InvalidParams)
      else if w.column < 0 then c == Refused(InsufficientBalance)
      else c.Changed? && c.wallet.column == w.column + amount && ReadBalance(c.wallet, m) == w.column + amount
  {
    Reconciles(w.ledger, m, w.column, newId, kr);
    var o := OpenReconciled(w.ledger, m, w.column, newId, kr);
    if amount > 0 && o.Done? {
      ReconcilingKeepsUnused(w.ledger, m, w.column, newId, kr, key);
      FreshCreditSucceeds(o.state, CreditParams(o.value, amount, key, "", "", ""));
      hide OpenReconciled, Credit, Openable, FreshOp, Unused;
      CreditInStepIffNew(w, m, amount, key, newId, kr);
    }
  }

  // ----- Transactions of their own: compensate when the column is refused -----

  datatype AdjustFaults = AdjustFaults(ensure: bool, bootstrap: bool, reconcile: Cut, apply: Cut, column: bool,
                                       compensate: Cut)

  /** Moves the ledger by delta and then the column; a refused column is compensated in the ledger. */
  function MoveBoth(w: Wallet, a: AccountId, delta: int, ka: OpKeys, kc: OpKeys, x: AdjustFaults): (r: (Wallet,
                    Result<()>)) {
    var (s1, applied) := ApplyDelta(w.ledger, a, delta, ka, x.apply);
    if applied.Failure? then (w.(ledger := s1), applied)
    else if x.column then
      var (s2, _) := ApplyDelta(s1, a, -delta, kc, x.compensate);
      (w.(ledger := s2), Failure(StoreFailed))
    else (Wallet(s1, w.column - delta), Success(()))
  }

  /** Mirrors, reconciles with the balance read, and moves both stores by delta. */
  function AdjustMirrored(w: Wallet, m: Mirror, balance: int, delta: int, newId: AccountId,
                          kr: OpKeys, ka: OpKeys, kc: OpKeys, x: AdjustFaults): (r: (Wallet, Result<()>))
  {
    if delta == 0 then (w, Success(()))
    else
      var (s1, ensured) := EnsureMirrored(w.ledger, m, balance, newId, x.ensure, x.bootstrap);
      match ensured
      case Failure(e) => (w.(ledger := s1), Failure(e))
      case Success(a) => AdjustOpened(w.(ledger := s1), a, balance, delta, kr, ka, kc, x)
  }

  /** The account is open: reconcile it with the balance read, then move both stores. */
  function AdjustOpened(w: Wallet, a: AccountId, balance: int, delta: int,
                        kr: OpKeys, ka: OpKeys, kc: OpKeys, x: AdjustFaults): (r: (Wallet, Result<()>))
  {
    var (s1, reconciled) := ApplyDelta(w.ledger, a, Available(w.ledger, a) - balance, kr, x.reconcile);
    if reconciled.Failure? then (w.(ledger := s1), reconciled)
    else MoveBoth(w.(ledger := s1), a, delta, ka, kc, x)
  }

  /** A limited token reads its own column. */
  function AdjustToken(w: Wallet, m: Mirror, delta: int, newId: AccountId,
                       kr: OpKeys, ka: OpKeys, kc: OpKeys, x: AdjustFaults): (r: (Wallet, Result<()>))
  {
    AdjustMirrored(w, m, w.column, delta, newId, kr, ka, kc, x)
  }

  /** A wallet reads through the ledger. */
  function AdjustWallet(w: Wallet, m: Mirror, delta: int, newId: AccountId,
                        kr: OpKeys, ka: OpKeys, kc: OpKeys, x: AdjustFaults): (r: (Wallet, Result<()>))
  {
    AdjustMirrored(w, m, ReadBalance(w, m), delta, newId, kr, ka, kc, x)
  }

  function SetWallet(w: Wallet, m: Mirror, target: int, newId: AccountId,
                     kr: OpKeys, ka: OpKeys, kc: OpKeys, x: AdjustFaults): (r: (Wallet, Result<()>))
  {
    if target < 0 then (w, Failure(InvalidParams))
    else AdjustWallet(w, m, ReadBalance(w, m) - target, newId, kr, ka, kc, x)
  }

  /** By how much a move that fails lowers the ledger alone: it was cut off from its settlement, or the
      compensation was refused. */
  function Stray(available: int, delta: int, x: AdjustFaults): int {
    if CutOff(available, delta, x.apply) then delta
    else if Applies(available, delta, x.apply) && x.column && x.compensate.Before? then delta
    else 0
  }

  /** Both stores move by delta or the column stays; then the ledger stays too, exactly but for the stray
      amount. */
  lemma {:induction false} MovesBothOrNeither(w: Wallet, a: AccountId, delta: int, ka: OpKeys, kc: OpKeys,
                                              x: AdjustFaults)
    requires Books(w.ledger) && |a| > 0 && FreshOp(w.ledger, ka) && FreshOp(w.ledger, kc) && Disjoint(ka, kc)
    ensures var (w', r) := MoveBoth(w, a, delta, ka, kc, x);
      && w'.ledger.accounts == w.ledger.accounts
      && (r.Success? <==> !x.column && Applies(Available(w.ledger, a), delta, x.apply))
      && w'.column == w.column - (if r.Success? then delta else 0)
      && Available(w'.ledger, a) ==
         Available(w.ledger, a) - if r.Success? then delta else Stray(Available(w.ledger, a), delta, x)
  {
    hide ApplyDelta, ApplyDeltaTx, Books, FreshOp, Disjoint;
    ApplyOutcome(w.ledger, a, delta, ka, x.apply);
    var (s1, applied) := ApplyDelta(w.ledger, a, delta, ka, x.apply);
    if applied.Success? && x.column {
      KeysArePlain(w.ledger, ka);
      ApplyKeepsBooks(w.ledger, a, delta, ka);
      ApplyKeepsFresh(w.ledger, a, delta, ka, kc);
      ApplyOutcome(s1, a, -delta, kc, x.compensate);
      EnoughBack(w.ledger, a, delta);
    }
  }

  lemma {:induction false} KeysArePlain(s: Ledger, k: OpKeys)
    requires FreshOp(s, k)
    ensures PlainKeys(k)
  {
  }

  /** What was credited can be taken back. */
  lemma {:induction false} EnoughBack(s: Ledger, a: AccountId, delta: int)
    requires Books(s)
    ensures -delta <= Available(s, a) - delta
  {
    NonNegative(s, a);
  }

  lemma {:induction false} AdjustsOpened(w: Wallet, m: Mirror, balance: int, delta: int, newId: AccountId, s1: Ledger,
                                         a: AccountId,
                                         kr: OpKeys, ka: OpKeys, kc: OpKeys, x: AdjustFaults)
    requires delta != 0 && EnsureMirrored(w.ledger, m, balance, newId, x.ensure, x.bootstrap) == (s1, Success(a))
    ensures AdjustMirrored(w, m, balance, delta, newId, kr, ka, kc, x) ==
            AdjustOpened(w.(ledger := s1), a, balance, delta, kr, ka, kc, x)
  {
  }

  lemma {:induction false} MovesReconciled(w: Wallet, a: AccountId, balance: int, delta: int, s1: Ledger,
                                           applied: Result<()>,
                                           kr: OpKeys, ka: OpKeys, kc: OpKeys, x: AdjustFaults)
    requires ApplyDelta(w.ledger, a, Available(w.ledger, a) - balance, kr, x.reconcile) == (s1, applied)
    ensures AdjustOpened(w, a, balance, delta, kr, ka, kc, x) ==
            if applied.Failure? then (w.(ledger := s1), applied) else MoveBoth(w.(ledger := s1), a, delta, ka, kc, x)
  {
    hide ApplyDelta, MoveBoth;
  }

  /** Whether the token's account can be opened: the bootstrap credit is not refused when it is due. */
  predicate TokenOpens(w: Wallet, m: Mirror, x: AdjustFaults) {
    !x.bootstrap || w.column <= 0 ||
    (AccountOf(w.ledger, m).Some? && NonZero(Snap(w.ledger, AccountOf(w.ledger, m).value)))
  }

  /** What the ledger has for the token once its account is open. */
  function TokenFound(w: Wallet, m: Mirror): int {
    var a := AccountOf(w.ledger, m);
    if a.Some? && NonZero(Snap(w.ledger, a.value)) then Available(w.ledger, a.value)
    else if w.column > 0 then w.column else 0
  }

  /** A token adjustment reads the column and reconciles the ledger with it, whatever the drift was.  It goes
      through exactly when nothing on its way is refused, the column is not negative and covers the amount, and
      then both stand at the old column less delta; when it fails later than that, the ledger stands at the old
      column but for the stray amount, and when it fails earlier, at what was found. */
  lemma {:induction false} TokenAdjusted(w: Wallet, m: Mirror, delta: int, newId: AccountId,
                                         kr: OpKeys, ka: OpKeys, kc: OpKeys, x: AdjustFaults)
    requires Openable(w.ledger, m, newId)
    requires FreshOp(w.ledger, kr) && FreshOp(w.ledger, ka) && FreshOp(w.ledger, kc)
    requires Apart(m, kr, ka) && Apart(m, kr, kc) && Disjoint(ka, kc)
    ensures TokenFound(w, m) >= 0
    ensures var (w', r) := AdjustToken(w, m, delta, newId, kr, ka, kc, x);
      var found := TokenFound(w, m);
      var opens := !x.ensure && TokenOpens(w, m, x);
      var reconciled := Applies(found, found - w.column, x.reconcile);
      && (r.Success? <==> delta == 0 || (opens && reconciled && !x.column && Applies(w.column, delta, x.apply)))
      && w'.column == w.column - (if r.Success? then delta else 0)
      && ReadBalance(w', m) ==
           if delta == 0 || x.ensure then ReadBalance(w, m)
           else if !opens then 0
           else if !reconciled then if CutOff(found, found - w.column, x.reconcile) then w.column else found
           else w.column - if r.Success? then delta else Stray(w.column, delta, x)
  {
    hide EnsureMirrored, AdjustToken, AdjustMirrored, AdjustOpened, ReadBalance, AccountOf, TokenFound, TokenOpens;
    hide Books, Openable, FreshOp, Apart, Disjoint, Avoids, Applies, CutOff, Stray;
    FoundNotNegative(w, m, newId);
    TokenIsMirrored(w, m, delta, newId, kr, ka, kc, x);
    if delta != 0 && !x.ensure {
      AvoidBootstraps(m, kr, ka, kc);
      OpenedForToken(w, m, newId, x);
      var (s1, r) := EnsureMirrored(w.ledger, m, w.column, newId, x.ensure, x.bootstrap);
      if r.Success? {
        FreshWhenOpened(w, m, w.column, newId, x, kr);
        FreshWhenOpened(w, m, w.column, newId, x, ka);
        FreshWhenOpened(w, m, w.column, newId, x, kc);
        AdjustsOpened(w, m, w.column, delta, newId, s1, r.value, kr, ka, kc, x);
        OpenedAdjusted(w.(ledger := s1), m, r.value, delta, kr, ka, kc, x);
      } else {
        TokenNotOpened(w, m, delta, newId, kr, ka, kc, x);
        var a := if AccountOf(w.ledger, m).Some? then AccountOf(w.ledger, m).value else newId;
        ReadsOpened(w.(ledger := s1), w.(ledger := s1), m, a);
      }
    }
  }

  /** The account is open: what reconciling and moving do. */
  lemma {:induction false} OpenedAdjusted(w: Wallet, m: Mirror, a: AccountId, delta: int,
                                          kr: OpKeys, ka: OpKeys, kc: OpKeys, x: AdjustFaults)
    requires Books(w.ledger) && AccountOf(w.ledger, m) == Some(a) && |a| > 0
    requires FreshOp(w.ledger, kr) && FreshOp(w.ledger, ka) && FreshOp(w.ledger, kc)
    requires Apart(m, kr, ka) && Apart(m, kr, kc) && Disjoint(ka, kc)
    ensures var (w', r) := AdjustOpened(w, a, w.column, delta, kr, ka, kc, x);
      var found := Available(w.ledger, a);
      var reconciled := Applies(found, found - w.column, x.reconcile);
      && (r.Success? <==> reconciled && !x.column && Applies(w.column, delta, x.apply))
      && w'.column == w.column - (if r.Success? then delta else 0)
      && ReadBalance(w', m) ==
           if !reconciled then if CutOff(found, found - w.column, x.reconcile) then w.column else found
           else w.column - if r.Success? then delta else Stray(w.column, delta, x)
  {
    hide ApplyDelta, ApplyDeltaTx, MoveBoth, AdjustOpened, ReadBalance, AccountOf, Books, FreshOp, Disjoint, Avoids;
    hide Applies, Stray;
    var d := Available(w.ledger, a) - w.column;
    var (s2, applied) := ApplyDelta(w.ledger, a, d, kr, x.reconcile);
    MovesReconciled(w, a, w.column, delta, s2, applied, kr, ka, kc, x);
    ApplyOutcome(w.ledger, a, d, kr, x.reconcile);
    ReadsOpened(w, w.(ledger := s2), m, a);
    if applied.Success? {
      ApplyKeepsBooks(w.ledger, a, d, kr);
      ApplyKeepsFresh(w.ledger, a, d, kr, ka);
      ApplyKeepsFresh(w.ledger, a, d, kr, kc);
      MovesBothOrNeither(w.(ledger := s2), a, delta, ka, kc, x);
      ReadsOpened(w, MoveBoth(w.(ledger := s2), a, delta, ka, kc, x).0, m, a);
      NotCutOff(Available(w.ledger, a), d, x.reconcile);
    }
  }

  lemma {:induction false} NotCutOff(available: int, delta: int, cut: Cut)
    requires Applies(available, delta, cut)
    ensures !CutOff(available, delta, cut)
  {
  }

  lemma {:induction false} AvoidBootstraps(m: Mirror, kr: OpKeys, ka: OpKeys, kc: OpKeys)
    requires Apart(m, kr, ka) && Apart(m, kr, kc)
    ensures AvoidsBootstrap(m, kr) && AvoidsBootstrap(m, ka) && AvoidsBootstrap(m, kc)
  {
  }

  lemma {:induction false} TokenIsMirrored(w: Wallet, m: Mirror, delta: int, newId: AccountId,
                                           kr: OpKeys, ka: OpKeys, kc: OpKeys, x: AdjustFaults)
    ensures AdjustToken(w, m, delta, newId, kr, ka, kc, x) ==
            AdjustMirrored(w, m, w.column, delta, newId, kr, ka, kc, x)
    ensures delta == 0 ==> AdjustToken(w, m, delta, newId, kr, ka, kc, x) == (w, Success(()))
    ensures delta != 0 && x.ensure ==> AdjustToken(w, m, delta, newId, kr, ka, kc, x) == (w, Failure(StoreFailed))
  {
    hide AdjustOpened;
  }

  lemma {:induction false} FoundNotNegative(w: Wallet, m: Mirror, newId: AccountId)
    requires Openable(w.ledger, m, newId)
    ensures TokenFound(w, m) >= 0
  {
    if AccountOf(w.ledger, m).Some? {
      NonNegative(w.ledger, AccountOf(w.ledger, m).value);
    }
  }

  /** Opening the account of a token, with its column. */
  lemma {:induction false} OpenedForToken(w: Wallet, m: Mirror, newId: AccountId, x: AdjustFaults)
    requires Openable(w.ledger, m, newId) && !x.ensure
    ensures var (s1, r) := EnsureMirrored(w.ledger, m, w.column, newId, x.ensure, x.bootstrap);
      var a := if AccountOf(w.ledger, m).Some? then AccountOf(w.ledger, m).value else newId;
      && Books(s1) && AccountOf(s1, m) == Some(a) && |a| > 0
      && (if TokenOpens(w, m, x) then r == Success(a) && Available(s1, a) == TokenFound(w, m)
          else r.Failure? && Available(s1, a) == 0)
  {
    hide Books, Unused, Plain;
    var e := Ensure(w.ledger, m.owner, newId);
    EnsureKeepsBooks(w.ledger, m.owner, newId);
    if AccountOf(w.ledger, m).Some? {
      EnsureExisting(w.ledger, m, newId);
    } else {
      EnsureNew(w.ledger, m, newId);
    }
    if !NonZero(Snap(e.state, e.value)) && w.column > 0 && !x.bootstrap {
      BootstrapStillUnused(w.ledger, m, newId);
      BootstrapPosts(e.state, m, e.value, w.column);
      CreditKeepsBooks(e.state, BootstrapCredit(m, e.value, w.column));
      hide Credit;
    }
  }

  lemma {:induction false} BootstrapStillUnused(s: Ledger, m: Mirror, newId: AccountId)
    requires Openable(s, m, newId) && Ensure(s, m.owner, newId).Done?
    requires !NonZero(Snap(Ensure(s, m.owner, newId).state, Ensure(s, m.owner, newId).value))
    ensures Unused(Ensure(s, m.owner, newId).state, m.bootstrapKey)
  {
    if AccountOf(s, m).Some? {
      EnsureExisting(s, m, newId);
    } else {
      EnsureNew(s, m, newId);
    }
  }

  lemma {:induction false} TokenNotOpened(w: Wallet, m: Mirror, delta: int, newId: AccountId,
                                          kr: OpKeys, ka: OpKeys, kc: OpKeys, x: AdjustFaults)
    requires delta != 0 && EnsureMirrored(w.ledger, m, w.column, newId, x.ensure, x.bootstrap).1.Failure?
    ensures var (w', r) := AdjustToken(w, m, delta, newId, kr, ka, kc, x);
      && r.Failure?
      && w' == w.(ledger := EnsureMirrored(w.ledger, m, w.column, newId, x.ensure, x.bootstrap).0)
  {
    hide EnsureMirrored, AdjustOpened;
  }

  /** Whether the ledger takes the balance read over: always once the account exists, and else when the
      column is zero, or positive and its bootstrap is not refused. */
  predicate TakesOver(w: Wallet, m: Mirror, x: AdjustFaults) {
    AccountOf(w.ledger, m).Some? || w.column == 0 || (w.column > 0 && !x.bootstrap)
  }

  /** A wallet adjustment reads through the ledger, so there is nothing to reconcile: the balance read moves
      by delta as the column does, or stays but for the stray amount.  Only a wallet whose account is opened
      by the failing call itself can end with another balance, zero. */
  lemma {:induction false} WalletAdjusted(w: Wallet, m: Mirror, delta: int, newId: AccountId,
                                          kr: OpKeys, ka: OpKeys, kc: OpKeys, x: AdjustFaults)
    requires Openable(w.ledger, m, newId)
    requires FreshOp(w.ledger, kr) && FreshOp(w.ledger, ka) && FreshOp(w.ledger, kc)
    requires Apart(m, kr, ka) && Apart(m, kr, kc) && Disjoint(ka, kc)
    ensures var (w', r) := AdjustWallet(w, m, delta, newId, kr, ka, kc, x);
      var balance := ReadBalance(w, m);
      && (r.Success? <==>
          delta == 0 || (!x.ensure && TakesOver(w, m, x) && !x.column && Applies(balance, delta, x.apply)))
      && w'.column == w.column - (if r.Success? then delta else 0)
      && ReadBalance(w', m) ==
           if delta == 0 || x.ensure then balance
           else if !TakesOver(w, m, x) then 0
           else balance - if r.Success? then delta else Stray(balance, delta, x)
  {
    if delta != 0 && !x.ensure {
      hide ApplyDelta, MoveBoth, EnsureMirrored, AdjustMirrored, AdjustOpened, ReadBalance, AccountOf;
      hide Books, Openable, FreshOp, Disjoint, Avoids;
      var balance := ReadBalance(w, m);
      OpenedForWallet(w, m, newId, x);
      var (s1, r) := EnsureMirrored(w.ledger, m, balance, newId, x.ensure, x.bootstrap);
      if r.Success? {
        var a := r.value;
        var w1 := w.(ledger := s1);
        var d := Available(s1, a) - balance;
        var (s2, applied) := ApplyDelta(s1, a, d, kr, x.reconcile);
        AdjustsOpened(w, m, balance, delta, newId, s1, a, kr, ka, kc, x);
        MovesReconciled(w1, a, balance, delta, s2, applied, kr, ka, kc, x);
        if TakesOver(w, m, x) {
          FreshWhenOpened(w, m, balance, newId, x, ka);
          FreshWhenOpened(w, m, balance, newId, x, kc);
          NothingToReconcile(s1, a, kr, x.reconcile);
          MovesBothOrNeither(w1, a, delta, ka, kc, x);
          ReadsOpened(w1, MoveBoth(w1, a, delta, ka, kc, x).0, m, a);
        } else {
          FreshWhenOpened(w, m, balance, newId, x, kr);
          NegativeColumn(w, m, x);
          ApplyOutcome(s1, a, d, kr, x.reconcile);
          ReadsOpened(w1, w.(ledger := s2), m, a);
        }
      } else {
        OpeningRefused(w, m, delta, newId, kr, ka, kc, x);
        ReadsOpened(w.(ledger := s1), w.(ledger := s1), m, newId);
      }
    }
  }

  lemma {:induction false} ReadsOpened(w: Wallet, w': Wallet, m: Mirror, a: AccountId)
    requires AccountOf(w.ledger, m) == Some(a) && w'.ledger.accounts == w.ledger.accounts
    ensures ReadBalance(w', m) == Available(w'.ledger, a)
  {
  }

  lemma {:induction false} NegativeColumn(w: Wallet, m: Mirror, x: AdjustFaults)
    requires !TakesOver(w, m, x)
    ensures ReadBalance(w, m) == w.column
  {
  }

  lemma {:induction false} OpeningRefused(w: Wallet, m: Mirror, delta: int, newId: AccountId,
                                          kr: OpKeys, ka: OpKeys, kc: OpKeys, x: AdjustFaults)
    requires delta != 0 && EnsureMirrored(w.ledger, m, ReadBalance(w, m), newId, x.ensure, x.bootstrap).1.Failure?
    ensures var (w', r) := AdjustWallet(w, m, delta, newId, kr, ka, kc, x);
      && r.Failure?
      && w' == w.(ledger := EnsureMirrored(w.ledger, m, ReadBalance(w, m), newId, x.ensure, x.bootstrap).0)
  {
    hide EnsureMirrored, AdjustOpened;
  }

  lemma {:induction false} NothingToReconcile(s: Ledger, a: AccountId, k: OpKeys, cut: Cut)
    ensures ApplyDelta(s, a, 0, k, cut) == (s, Success(()))
  {
  }

  /** Opening the account of a wallet, with the balance read. */
  lemma {:induction false} OpenedForWallet(w: Wallet, m: Mirror, newId: AccountId, x: AdjustFaults)
    requires Openable(w.ledger, m, newId) && !x.ensure
    ensures var (s1, r) := EnsureMirrored(w.ledger, m, ReadBalance(w, m), newId, x.ensure, x.bootstrap);
      var a := match AccountOf(w.ledger, m) case Some(known) => known case None => newId;
      && Books(s1) && AccountOf(s1, m) == Some(a) && |a| > 0
      && (if TakesOver(w, m, x) || w.column < 0 then r == Success(a) else a == newId && r.Failure?)
      && Available(s1, a) == if TakesOver(w, m, x) then ReadBalance(w, m) else 0
  {
    hide Books, Unused, Plain;
    var e := Ensure(w.ledger, m.owner, newId);
    EnsureKeepsBooks(w.ledger, m.owner, newId);
    if AccountOf(w.ledger, m).Some? {
      EnsureExisting(w.ledger, m, newId);
    } else {
      EnsureNew(w.ledger, m, newId);
      if w.column > 0 && !x.bootstrap {
        BootstrapStillUnused(w.ledger, m, newId);
        BootstrapPosts(e.state, m, newId, w.column);
        CreditKeepsBooks(e.state, BootstrapCredit(m, newId, w.column));
        hide Credit;
      }
    }
  }

  lemma {:induction false} FreshWhenOpened(w: Wallet, m: Mirror, balance: int, newId: AccountId, x: AdjustFaults,
                                           k: OpKeys)
    requires Openable(w.ledger, m, newId) && !x.ensure && FreshOp(w.ledger, k) && AvoidsBootstrap(m, k)
    requires EnsureMirrored(w.ledger, m, balance, newId, x.ensure, x.bootstrap).1.Success?
    ensures FreshOp(EnsureMirrored(w.ledger, m, balance, newId, x.ensure, x.bootstrap).0, k)
  {
    Opens(w.ledger, m, balance, newId);
    hide Ensure, Credit, FreshOp, Openable;
    assert EnsureMirrored(w.ledger, m, balance, newId, x.ensure, x.bootstrap).0 ==
           EnsureMirroredTx(w.ledger, m, balance, newId).state;
    OpeningKeepsFresh(w.ledger, m, balance, newId, k);
  }

  /** Setting a wallet that goes through puts the balance read at the target; the column gets there too
      exactly when it was in step before. */
  lemma {:induction false} SetReachesTarget(w: Wallet, m: Mirror, target: int, newId: AccountId,
                                            kr: OpKeys, ka: OpKeys, kc: OpKeys, x: AdjustFaults)
    requires Openable(w.ledger, m, newId)
    requires FreshOp(w.ledger, kr) && FreshOp(w.ledger, ka) && FreshOp(w.ledger, kc)
    requires Apart(m, kr, ka) && Apart(m, kr, kc) && Disjoint(ka, kc)
    ensures var (w', r) := SetWallet(w, m, target, newId, kr, ka, kc, x);
      var balance := ReadBalance(w, m);
      var moves := !x.ensure && TakesOver(w, m, x) && !x.column && !x.apply.Before? &&
                   !CutOff(balance, balance - target, x.apply);
      && (r.Success? <==> target >= 0 && (balance == target || moves))
      && (r.Success? ==> ReadBalance(w', m) == target && (w'.column == target <==> w.column == balance))
  {
    hide AdjustWallet;
    WalletAdjusted(w, m, ReadBalance(w, m) - target, newId, kr, ka, kc, x);
  }
}
