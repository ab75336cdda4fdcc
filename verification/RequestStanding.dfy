/** What one request has taken from its wallet so far, read off its ledger row. */
module RequestStanding {
  import opened LedgerSchema
  import opened LedgerRuntime
  import opened LedgerInvariants
  import opened LedgerEffects
  import opened WalletMirror
  import opened WalletStore
  import opened RelayFunding
  import opened TokenQuota

  /** The whole hold while it is open, the charge once it is settled, nothing otherwise. */
  function Standing(s: Ledger, f: Funding): int {
    if f.reservation.None? || f.reservation.value >= |s.reservations| then 0
    else
      var r := s.reservations[f.reservation.value];
      if r.status.Open? then r.amount
      else if r.status.Settled? && f.settlement.Some? && f.settlement.value < |s.settlements|
      then s.settlements[f.settlement.value].actual
      else 0
  }

  /** The request is settled exactly when its settle key is used, by the settlement of its own row; while it
      has no row, a row under its reserve key can only be one that was undone. */
  predicate Seated(s: Ledger, q: Request, f: Funding) {
    var found := FindSettlement(s.settlements, q.keys.settle);
    && found == f.settlement
    && match f.reservation
       case None =>
         found.None? && forall i | 0 <= i < |s.reservations| && Same(s.reservations[i].key, q.keys.reserve) ::
           s.reservations[i].status.Released?
       case Some(row) =>
         && row < |s.reservations| && (found.Some? <==> s.reservations[row].status.Settled?)
         && (found.Some? ==> s.settlements[found.value].reservation == row)
  }

  ghost predicate Sits(w: Wallet, a: AccountId, q: Request, f: Funding) {
    Serves(w, a, q, f) && InHand(w.ledger, f) && Seated(w.ledger, q, f)
  }

  /** Ledger and column both gave exactly what the request's standing rose by. */
  predicate Drawn(w: Wallet, f: Funding, r: Relayed, a: AccountId) {
    var rise := Standing(r.wallet.ledger, r.funding) - Standing(w.ledger, f);
    Available(r.wallet.ledger, a) == Available(w.ledger, a) - rise && r.wallet.column == w.column - rise
  }

  predicate StatusIs(s: Ledger, f: Funding, status: ReservationStatus) {
    f.reservation.Some? && f.reservation.value < |s.reservations| &&
    s.reservations[f.reservation.value].status == status
  }

  /** No row was ever recorded under the request's keys. */
  predicate NewRequest(s: Ledger, q: Request) {
    && (forall i | 0 <= i < |s.reservations| :: !Same(s.reservations[i].key, q.keys.reserve))
    && FindSettlement(s.settlements, q.keys.settle).None?
  }

  lemma {:induction false} NewRequestSits(w: Wallet, a: AccountId, q: Request)
    requires Books(w.ledger) && ValidMirror(q.mirror) && AccountOf(w.ledger, q.mirror) == Some(a)
    requires NewRequest(w.ledger, q)
    ensures Sits(w, a, q, NEW_FUNDING) && Standing(w.ledger, NEW_FUNDING) == 0
  {
  }

  /** What the seat of a request says about its row. */
  lemma {:induction false} SeatedRow(w: Wallet, a: AccountId, q: Request, f: Funding)
    requires Sits(w, a, q, f)
    ensures StatusIs(w.ledger, f, Settled) <==> f.settlement.Some?
    ensures f.reservation.Some? ==>
      f.reserved > 0 &&
      (StatusIs(w.ledger, f, Open) || StatusIs(w.ledger, f, Settled) || StatusIs(w.ledger, f, Released))
    ensures StatusIs(w.ledger, f, Open) ==> Standing(w.ledger, f) == f.reserved
    ensures StatusIs(w.ledger, f, Released) || f.reservation.None? ==> Standing(w.ledger, f) == 0
  {
    assert Holds(Reservations, w.ledger);
  }

  lemma {:induction false} HoldKeepsSettlements(s: Ledger, p: ReserveParams)
    requires Reserve(s, p).Done?
    ensures Reserve(s, p).state.settlements == s.settlements
  {
  }

  lemma {:induction false} ReleaseKeepsSettlements(s: Ledger, p: ReleaseParams)
    requires Release(s, p).Done?
    ensures Release(s, p).state.settlements == s.settlements
  {
  }

  lemma {:induction false} AdoptSeats(s: Ledger, a: AccountId, q: Request, f: Funding, i: nat)
    requires f.reservation.None? && Seated(s, q, f)
    requires i < |s.reservations| && Same(s.reservations[i].key, q.keys.reserve)
    ensures Seated(s, q, Adopt(f, s.reservations, i)) && Standing(s, Adopt(f, s.reservations, i)) == 0
  {
  }

  /** The ledger recorded the hold; now the column follows it, or it is undone. */
  lemma {:induction false} ProjectSeats(w: Wallet, s1: Ledger, a: AccountId, q: Request, f: Funding, amount: int,
                                        x: Faults)
    requires Books(s1) && f.reservation.None? && Seated(s1, q, f)
    requires FindReservation(s1.reservations, q.keys.reserve).None? && Reserve(s1, HoldParams(q, a, amount)).Done?
    requires var o := Reserve(s1, HoldParams(q, a, amount));
      !ProjectHold(w.(ledger := o.state), f, q, a, o.value, amount, x).stuck
    ensures var o := Reserve(s1, HoldParams(q, a, amount));
      var r := ProjectHold(w.(ledger := o.state), f, q, a, o.value, amount, x);
      && Seated(r.wallet.ledger, q, r.funding)
      && Available(r.wallet.ledger, a) == Available(s1, a) - Standing(r.wallet.ledger, r.funding)
      && (r.result.Success? ==> StatusIs(r.wallet.ledger, r.funding, Open) && r.funding.reserved == amount)
  {
    hide Reserve, Release, Books;
    var p := HoldParams(q, a, amount);
    var o := Reserve(s1, p);
    HoldEffect(s1, q, a, amount);
    HoldKeepsSettlements(s1, p);
    assert Available(o.state, a) == Available(s1, a) - amount;
    if x.project {
      var u := UndoParams(q, o.value);
      ReleaseEffect(o.state, u);
      ReleaseKeepsSettlements(o.state, u);
      assert Available(Release(o.state, u).state, a) == Available(o.state, a) + amount;
    }
  }

  lemma {:induction false} HoldKeepsItsSettlement(w: Wallet, q: Request, f: Funding, amount: int, newId: AccountId,
                                                  x: Faults)
    ensures var r := PreConsume(w, f, q, amount, newId, x);
      r.funding.settlement == f.settlement && (r.result.Failure? ==> r.funding == f)
  {
    hide EnsureAccount, Reserve, Release;
  }

  lemma {:induction false} StuckFails(w: Wallet, q: Request, f: Funding, delta: int, x: Faults)
    ensures SettleHold(w, f, q, delta, x).stuck ==> SettleHold(w, f, q, delta, x).result.Failure?
    ensures Refund(w, f, q, x).stuck ==> Refund(w, f, q, x).result.Failure?
  {
    hide Settle, Release;
  }

  lemma {:induction false} StuckHoldFails(w: Wallet, q: Request, f: Funding, amount: int, newId: AccountId, x: Faults)
    ensures PreConsume(w, f, q, amount, newId, x).stuck ==> PreConsume(w, f, q, amount, newId, x).result.Failure?
  {
    hide EnsureAccount, Reserve, Release;
  }

  /** A hold call that needed no refused compensation draws what it holds; on a new request success means
      exactly the amount asked for. */
  lemma {:induction false} HoldSeats(w: Wallet, a: AccountId, q: Request, f: Funding, amount: int, newId: AccountId,
                                     x: Faults)
    requires Sits(w, a, q, f) && !PreConsume(w, f, q, amount, newId, x).stuck
    ensures var r := PreConsume(w, f, q, amount, newId, x);
      && Sits(r.wallet, a, q, r.funding) && Drawn(w, f, r, a) && r.wallet.ledger.accounts == w.ledger.accounts
      && (r.result.Success? && amount > 0 ==> r.funding.reservation.Some?)
      && (r.result.Success? && amount > 0 && StatusIs(r.wallet.ledger, r.funding, Open) ==>
          r.funding.reserved == amount)
      && r.funding.settlement == f.settlement
      && (r.result.Success? && amount > 0 && NewRequest(w.ledger, q) ==>
            StatusIs(r.wallet.ledger, r.funding, Open))
      && (f.reservation.Some? || amount <= 0 ==> r.funding == f && r.wallet == w)
      && (r.result.Failure? ==> r.funding == f)
  {
    hide Books, Reserve, EnsureAccount, ProjectHold;
    var r := PreConsume(w, f, q, amount, newId, x);
    PreConsumeAccounted(w, a, q, f, amount, newId, x);
    PreConsumeInStep(w, a, q, f, amount, newId, x);
    SelfServed(w, a, q, f, r);
    HoldKeepsItsSettlement(w, q, f, amount, newId, x);
    if amount > 0 && f.reservation.None? {
      var (s1, account) := EnsureAccount(w, f, q, newId, x);
      EnsureAccounted(w, a, q, f, newId, x);
      assert Available(s1, a) == Available(w.ledger, a);
      if account.Success? {
        var found := FindReservation(s1.reservations, q.keys.reserve);
        if found.Some? {
          AdoptSeats(s1, a, q, f, found.value);
        } else if !x.ledger && Reserve(s1, HoldParams(q, account.value, amount)).Done? {
          ProjectSeats(w, s1, a, q, f, amount, x);
        }
      }
    }
  }

  /** A settlement that asks for no more than the hold back, and needed no refused compensation, draws what
      it charges; success means the request is settled, by this call for exactly the hold plus delta. */
  lemma {:induction false} FinishSeats(w: Wallet, a: AccountId, q: Request, f: Funding, delta: int, x: Faults)
    requires Sits(w, a, q, f) && (StatusIs(w.ledger, f, Open) ==> delta >= -f.reserved)
    requires !SettleHold(w, f, q, delta, x).stuck
    ensures var r := SettleHold(w, f, q, delta, x);
      && Sits(r.wallet, a, q, r.funding) && Drawn(w, f, r, a) && r.wallet.ledger.accounts == w.ledger.accounts
      && r.funding.reservation == f.reservation && r.funding.reserved == f.reserved
      && (r.result.Success? ==> StatusIs(r.wallet.ledger, r.funding, Settled))
      && (r.result.Success? && StatusIs(w.ledger, f, Open) ==>
          Standing(r.wallet.ledger, r.funding) == f.reserved + delta)
      && (r.result.Success? ==> !StatusIs(w.ledger, f, Released))
      && (StatusIs(w.ledger, f, Settled) ==> r.result.Success? && r.wallet == w && r.funding == f)
      && (r.result.Failure? ==> r.wallet == w && r.funding == f)
  {
    hide Books, Settle;
    var r := SettleHold(w, f, q, delta, x);
    SettleAccounted(w, a, q, f, delta, x);
    SettleInStep(w, a, q, f, delta, x);
    SelfServed(w, a, q, f, r);
    if f.reservation.Some? && FindSettlement(w.ledger.settlements, q.keys.settle).None? {
      var p := SettleParams(f.reservation.value, q.id, Charge(f.reserved, delta), q.keys.settle);
      if !(delta != 0 && x.project) && !x.ledger && Settle(w.ledger, p).Done? {
        SettleEffect(w.ledger, p);
        SettledUnderKey(w.ledger, p);
        assert Available(Settle(w.ledger, p).state, a) == Available(w.ledger, a) + (f.reserved - p.actual);
      }
    }
  }

  /** A settlement is found again under its key. */
  lemma {:induction false} SettledUnderKey(s: Ledger, p: SettleParams)
    requires Settle(s, p).Done? && FindSettlement(s.settlements, p.key).None?
    ensures var o := Settle(s, p);
      && o.value == |s.settlements| && |o.state.settlements| == |s.settlements| + 1
      && FindSettlement(o.state.settlements, p.key) == Some(o.value)
      && o.state.settlements[o.value].reservation == p.reservation && o.state.settlements[o.value].actual == p.actual
  {
  }

  /** A refund that needed no refused compensation gives back what the request holds; success means nothing
      is held any more, and a settled request refuses it. */
  lemma {:induction false} GiveBackSeats(w: Wallet, a: AccountId, q: Request, f: Funding, x: Faults)
    requires Sits(w, a, q, f) && !Refund(w, f, q, x).stuck
    ensures var r := Refund(w, f, q, x);
      && Sits(r.wallet, a, q, r.funding) && Drawn(w, f, r, a) && r.wallet.ledger.accounts == w.ledger.accounts
      && r.funding.reservation == f.reservation && r.funding.reserved == f.reserved
      && (r.result.Success? ==> Standing(r.wallet.ledger, r.funding) == 0)
      && (r.result.Success? && f.reservation.Some? ==> StatusIs(r.wallet.ledger, r.funding, Released))
      && (StatusIs(w.ledger, f, Settled) ==> r.result.Failure?)
      && (r.result.Failure? ==> r.wallet == w && r.funding == f)
  {
    hide Books, Release;
    var r := Refund(w, f, q, x);
    RefundAccounted(w, a, q, f, x);
    RefundInStep(w, a, q, f, x);
    SelfServed(w, a, q, f, r);
    if f.reservation.Some? {
      var p := ReleaseParams(f.reservation.value, q.keys.release, "");
      if !(f.legacyHeld > 0 && x.project) && !x.ledger && Release(w.ledger, p).Done? {
        ReleaseEffect(w.ledger, p);
        ReleaseKeepsSettlements(w.ledger, p);
        ReleaseNeedsLive(w.ledger, p);
        var row := w.ledger.reservations[f.reservation.value];
        assert Available(Release(w.ledger, p).state, a) ==
               Available(w.ledger, a) + if row.status.Open? then row.amount else 0;
      }
    }
  }

  lemma {:induction false} StaysApart(w: Wallet, w': Wallet, a: AccountId, q: Request, f: Funding, m: Mirror)
    requires WalletApart(w.ledger, a, q, m) && Sits(w', a, q, f) && w'.ledger.accounts == w.ledger.accounts
    ensures WalletApart(w'.ledger, a, q, m)
  {
  }

  /** Traffic that leaves the request's rows alone leaves it where it stood. */
  lemma {:induction false} StillSits(w: Wallet, w': Wallet, a: AccountId, q: Request, f: Funding, m: Mirror)
    requires Sits(w, a, q, f) && LeavesRows(w.ledger, w'.ledger, q) && WalletApart(w.ledger, a, q, m)
    ensures Sits(w', a, q, f) && Standing(w'.ledger, f) == Standing(w.ledger, f) && WalletApart(w'.ledger, a, q, m)
  {
    hide Books;
    WalletStaysApart(w.ledger, w'.ledger, a, q, m);
    FoundAsBefore(w.ledger.settlements, w'.ledger.settlements, q.keys.settle);
  }

  lemma {:induction false} FoundAsBefore(ss: seq<Settlement>, ss': seq<Settlement>, key: string)
    requires SettlementsUndisturbed(ss, ss', key)
    ensures FindSettlement(ss', key) == FindSettlement(ss, key)
    decreases |ss'|
  {
    if |ss| < |ss'| {
      FoundAsBefore(ss, ss'[..|ss'| - 1], key);
    } else {
      assert ss == ss';
    }
  }

  lemma {:induction false} StillNew(s: Ledger, s': Ledger, q: Request)
    requires NewRequest(s, q) && LeavesRows(s, s', q)
    ensures NewRequest(s', q)
  {
    hide Books;
    FoundAsBefore(s.settlements, s'.settlements, q.keys.settle);
  }

  // ----- When a call goes through -----

  /** With nothing refused by the stores, an open request under an unused settle key is settled exactly when
      the wallet covers what it asks for beyond its hold. */
  lemma {:induction false} FinishGoesThrough(w: Wallet, a: AccountId, q: Request, f: Funding, delta: int, x: Faults)
    requires Sits(w, a, q, f) && StatusIs(w.ledger, f, Open) && Unused(w.ledger, q.keys.settle) && !x.ledger
    requires !x.project
    ensures SettleHold(w, f, q, delta, x).result.Success? <==> delta <= Available(w.ledger, a)
  {
    var p := SettleParams(f.reservation.value, q.id, Charge(f.reserved, delta), q.keys.settle);
    NonNegative(w.ledger, a);
    SeatedRow(w, a, q, f);
    if p.actual <= f.reserved + Available(w.ledger, a) {
      FreshSettleSucceeds(w.ledger, p);
    } else {
      ShortSettleFails(w.ledger, p);
    }
  }

  lemma {:induction false} ShortSettleFails(s: Ledger, p: SettleParams)
    requires FindSettlement(s.settlements, p.key).None? && p.reservation < |s.reservations|
    requires var r := s.reservations[p.reservation];
      p.actual > r.amount + Available(s, r.account) && p.actual > r.amount
    ensures Settle(s, p).Failed?
  {
  }

  /** An open request is always refunded when the stores refuse nothing. */
  lemma {:induction false} GiveBackGoesThrough(w: Wallet, a: AccountId, q: Request, f: Funding, x: Faults)
    requires Sits(w, a, q, f) && StatusIs(w.ledger, f, Open) && Unused(w.ledger, q.keys.release) && !x.ledger
    requires !x.project
    ensures Refund(w, f, q, x).result.Success?
  {
    FreshReleaseSucceeds(w.ledger, ReleaseParams(f.reservation.value, q.keys.release, ""));
  }

  /** With nothing refused, a new request's hold goes through exactly when the wallet covers it; the hold is
      its only new row. */
  lemma {:induction false} HoldGoesThrough(w: Wallet, a: AccountId, q: Request, amount: int, newId: AccountId,
                                           x: Faults)
    requires Sits(w, a, q, NEW_FUNDING) && NewRequest(w.ledger, q) && Unused(w.ledger, q.keys.reserve) && |a| > 0
    requires amount > 0
    requires !x.ensure && !x.ledger && !x.project
    ensures PreConsume(w, NEW_FUNDING, q, amount, newId, x).result.Success? <==> amount <= Available(w.ledger, a)
  {
    hide Reserve, EnsureAccount, ProjectHold;
    var (s1, account) := EnsureAccount(w, NEW_FUNDING, q, newId, x);
    EnsureAccounted(w, a, q, NEW_FUNDING, newId, x);
    AccountFound(w, q, newId, x);
    assert Available(s1, a) == Available(w.ledger, a);
    FreshHold(w.ledger, s1, q, account.value, amount);
    var o := Reserve(s1, HoldParams(q, account.value, amount));
    ProjectGoesThrough(w.(ledger := After(s1, o)), q, account.value, |s1.reservations|, amount, x);
  }

  lemma {:induction false} AccountFound(w: Wallet, q: Request, newId: AccountId, x: Faults)
    requires ValidMirror(q.mirror) && AccountOf(w.ledger, q.mirror).Some? && !x.ensure
    ensures var (s1, account) := EnsureAccount(w, NEW_FUNDING, q, newId, x);
      account.Success? && s1.outbox == w.ledger.outbox
  {
    MirroringExisting(w, q.mirror, newId, x.ensure, x.bootstrap);
  }

  lemma {:induction false} FreshHold(s: Ledger, s1: Ledger, q: Request, a: AccountId, amount: int)
    requires Unused(s, q.keys.reserve) && SameHistory(s, s1) && s1.outbox == s.outbox && |a| > 0 && amount > 0
    ensures FindReservation(s1.reservations, q.keys.reserve).None?
    ensures Reserve(s1, HoldParams(q, a, amount)) ==
      if Available(s1, a) < amount then Failed(InsufficientBalance)
      else Done(Reserve(s1, HoldParams(q, a, amount)).state, |s1.reservations|)
  {
    hide Reserve;
    assert Unused(s1, q.keys.reserve);
    FreshReserve(s1, HoldParams(q, a, amount));
  }

  lemma {:induction false} ProjectGoesThrough(w: Wallet, q: Request, a: AccountId, row: nat, amount: int, x: Faults)
    requires !x.project
    ensures ProjectHold(w, NEW_FUNDING, q, a, row, amount, x).result.Success?
  {
  }

  /** A hold uses no key but its own. */
  lemma {:induction false} HoldKeepsUnused(w: Wallet, a: AccountId, q: Request, amount: int, newId: AccountId,
                                           x: Faults, key: string)
    requires Sits(w, a, q, NEW_FUNDING) && Unused(w.ledger, key) && Plain(key) && Plain(q.keys.reserve)
    requires !Same(key, q.keys.reserve)
    requires !x.project
    ensures Unused(PreConsume(w, NEW_FUNDING, q, amount, newId, x).wallet.ledger, key)
  {
    hide Unused, Reserve, EnsureMirrored, Plain, Books;
    MirroringKeepsUnused(w, q, newId, x, key);
    var (s1, account) := EnsureMirrored(w.ledger, q.mirror, ReadBalance(w, q.mirror), newId, x.ensure, x.bootstrap);
    if account.Success? && Reserve(s1, HoldParams(q, account.value, amount)).Done? {
      ReserveKeepsUnused(s1, HoldParams(q, account.value, amount), key);
    }
  }

  lemma {:induction false} MirroringKeepsUnused(w: Wallet, q: Request, newId: AccountId, x: Faults, key: string)
    requires ValidMirror(q.mirror) && AccountOf(w.ledger, q.mirror).Some? && Unused(w.ledger, key)
    ensures Unused(EnsureMirrored(w.ledger, q.mirror, ReadBalance(w, q.mirror), newId, x.ensure, x.bootstrap).0, key)
  {
    MirroringExisting(w, q.mirror, newId, x.ensure, x.bootstrap);
  }

  // ----- The first request of a wallet -----

  /** The wallet's account has not been opened yet; it will be under the new identifier a. */
  ghost predicate Unopened(w: Wallet, a: AccountId, q: Request) {
    && Books(w.ledger) && ValidMirror(q.mirror) && AccountOf(w.ledger, q.mirror).None?
    && |a| > 0 && !AccountExists(w.ledger.accounts, a) && a !in w.ledger.snapshots
    && Unused(w.ledger, q.mirror.bootstrapKey) && Plain(q.mirror.bootstrapKey)
  }

  /** What the ledger takes over of a column: nothing of a negative one. */
  function TakenOver(column: int): int {
    if column > 0 then column else 0
  }

  /** First use opens the account and takes the column over, unless a store refuses. */
  lemma {:induction false} OpensOnFirstUse(w: Wallet, a: AccountId, q: Request, x: Faults)
    requires Unopened(w, a, q) && !x.ensure
    ensures var (s1, r) := EnsureMirrored(w.ledger, q.mirror, ReadBalance(w, q.mirror), a, x.ensure, x.bootstrap);
      && Books(s1) && AccountOf(s1, q.mirror) == Some(a) && a in s1.snapshots
      && s1.reservations == w.ledger.reservations && s1.settlements == w.ledger.settlements
      && (r.Success? <==> !(w.column > 0 && x.bootstrap)) && (r.Success? ==> r.value == a)
      && Available(s1, a) == if r.Success? then TakenOver(w.column) else 0
  {
    hide Books, Unused, Plain;
    var e := Ensure(w.ledger, q.mirror.owner, a);
    EnsureNew(w.ledger, q.mirror, a);
    EnsureKeepsBooks(w.ledger, q.mirror.owner, a);
    EnsureAddsSnapshot(w.ledger, q.mirror, a);
    if w.column > 0 {
      BootstrapUnused(w, a, q);
      BootstrapPosts(e.state, q.mirror, a, w.column);
      CreditKeepsBooks(e.state, BootstrapCredit(q.mirror, a, w.column));
      CreditKeepsRows(e.state, BootstrapCredit(q.mirror, a, w.column), a);
      hide Credit;
    }
  }

  lemma {:induction false} EnsureAddsSnapshot(s: Ledger, m: Mirror, a: AccountId)
    requires ValidMirror(m) && AccountOf(s, m).None? && !AccountExists(s.accounts, a)
    ensures a in Ensure(s, m.owner, a).state.snapshots
  {
  }

  lemma {:induction false} BootstrapUnused(w: Wallet, a: AccountId, q: Request)
    requires Unopened(w, a, q)
    ensures var e := Ensure(w.ledger, q.mirror.owner, a); e.Done? && Unused(e.state, q.mirror.bootstrapKey)
  {
    EnsureNew(w.ledger, q.mirror, a);
  }

  lemma {:induction false} CreditKeepsRows(s: Ledger, p: CreditParams, a: AccountId)
    requires Credit(s, p).Done?
    ensures var s' := Credit(s, p).state;
      s'.reservations == s.reservations && s'.settlements == s.settlements && (a in s.snapshots ==> a in s'.snapshots)
  {
  }

  lemma {:induction false} FirstUseKeepsUnused(w: Wallet, a: AccountId, q: Request, x: Faults, key: string)
    requires Unopened(w, a, q) && !x.ensure && Unused(w.ledger, key) && Plain(key) && !Same(key, q.mirror.bootstrapKey)
    ensures Unused(EnsureMirrored(w.ledger, q.mirror, ReadBalance(w, q.mirror), a, x.ensure, x.bootstrap).0, key)
  {
    var e := Ensure(w.ledger, q.mirror.owner, a);
    EnsureNew(w.ledger, q.mirror, a);
    assert Unused(e.state, key);
    var p := BootstrapCredit(q.mirror, a, w.column);
    if w.column > 0 && Credit(e.state, p).Done? {
      hide Unused, Credit, Plain;
      CreditKeepsUnused(e.state, p, key);
    }
  }

  /** The account is open: opening it again changes nothing. */
  lemma {:induction false} AlreadyOpen(w: Wallet, a: AccountId, q: Request, x: Faults)
    requires ValidMirror(q.mirror) && AccountOf(w.ledger, q.mirror) == Some(a) && a in w.ledger.snapshots && !x.ensure
    ensures EnsureAccount(w, NEW_FUNDING, q, a, x) == (w.ledger, Success(a))
  {
    assert w.ledger.snapshots[a := Snap(w.ledger, a)] == w.ledger.snapshots;
  }

  /** The state the stores are in once first use has opened the account. */
  function OpenedWallet(w: Wallet, a: AccountId, q: Request, x: Faults): Wallet {
    w.(ledger := EnsureMirrored(w.ledger, q.mirror, ReadBalance(w, q.mirror), a, x.ensure, x.bootstrap).0)
  }

  lemma {:induction false} FirstHoldIsAHold(w: Wallet, a: AccountId, q: Request, amount: int, x: Faults)
    requires Unopened(w, a, q) && !x.ensure && !(w.column > 0 && x.bootstrap) && amount > 0
    ensures PreConsume(w, NEW_FUNDING, q, amount, a, x) ==
            PreConsume(OpenedWallet(w, a, q, x), NEW_FUNDING, q, amount, a, x)
  {
    hide Reserve, ProjectHold, EnsureMirrored, Unopened;
    OpensOnFirstUse(w, a, q, x);
    MirrorIsValid(w, a, q);
    AlreadyOpen(OpenedWallet(w, a, q, x), a, q, x);
    assert EnsureAccount(w, NEW_FUNDING, q, a, x) == (OpenedWallet(w, a, q, x).ledger, Success(a));
  }

  lemma {:induction false} MirrorIsValid(w: Wallet, a: AccountId, q: Request)
    requires Unopened(w, a, q)
    ensures ValidMirror(q.mirror) && |a| > 0
  {
  }

  /** The keys of a request are new, and none of them is the wallet's bootstrap key. */
  ghost predicate NewKeys(s: Ledger, q: Request) {
    && NewRequest(s, q)
    && Unused(s, q.keys.reserve) && Plain(q.keys.reserve) && !Same(q.keys.reserve, q.mirror.bootstrapKey)
    && Unused(s, q.keys.undo) && Plain(q.keys.undo) && !Same(q.keys.undo, q.mirror.bootstrapKey)
    && !Same(q.keys.undo, q.keys.reserve)
  }

  /** The first hold of a wallet.  It goes through exactly when nothing is refused and the column covers it,
      and then column and ledger stand at the old column less the amount.  A refused opening changes
      nothing; a refused bootstrap leaves the account open and empty; a hold that was refused or undone
      leaves the column as it was and the ledger at what it took over of it; one whose undoing is refused
      leaves the ledger alone short of the amount. */
  lemma {:induction false} FirstHold(w: Wallet, a: AccountId, q: Request, amount: int, x: Faults)
    requires Unopened(w, a, q) && NewKeys(w.ledger, q) && amount > 0
    ensures var r := PreConsume(w, NEW_FUNDING, q, amount, a, x);
      var unfilled := w.column > 0 && x.bootstrap;
      && (r.result.Success? <==> !x.ensure && !unfilled && !x.ledger && !x.project && amount <= w.column)
      && r.wallet.column == w.column - (if r.result.Success? then amount else 0)
      && (x.ensure ==> r.wallet == w)
      && (!x.ensure ==> AccountOf(r.wallet.ledger, q.mirror) == Some(a) && Books(r.wallet.ledger))
      && (!x.ensure && unfilled ==> Available(r.wallet.ledger, a) == 0)
      && (!x.ensure && !unfilled ==>
            Available(r.wallet.ledger, a) == TakenOver(w.column) - if r.result.Success? || r.stuck then amount else 0)
      && (r.stuck <==> !x.ensure && !unfilled && !x.ledger && amount <= w.column && x.project && x.undo)
  {
    if !x.ensure {
      hide PreConsume, Unopened, NewKeys;
      OpensOnFirstUse(w, a, q, x);
      if !(w.column > 0 && x.bootstrap) {
        FirstHoldIsAHold(w, a, q, amount, x);
        OpenedKeys(w, a, q, x);
        MirrorIsValid(w, a, q);
        NewHold(OpenedWallet(w, a, q, x), a, q, amount, x);
      } else {
        UnfilledFails(w, a, q, amount, x);
      }
    }
  }

  lemma {:induction false} UnfilledFails(w: Wallet, a: AccountId, q: Request, amount: int, x: Faults)
    requires Unopened(w, a, q) && !x.ensure && w.column > 0 && x.bootstrap && amount > 0
    ensures var r := PreConsume(w, NEW_FUNDING, q, amount, a, x);
      r.wallet == OpenedWallet(w, a, q, x) && r.result.Failure? && !r.stuck
  {
    hide EnsureMirrored, Unopened;
    OpensOnFirstUse(w, a, q, x);
  }

  lemma {:induction false} OpenedKeys(w: Wallet, a: AccountId, q: Request, x: Faults)
    requires Unopened(w, a, q) && NewKeys(w.ledger, q) && !x.ensure
    ensures NewKeys(OpenedWallet(w, a, q, x).ledger, q)
  {
    hide EnsureMirrored, Unopened, Unused, Plain;
    OpensOnFirstUse(w, a, q, x);
    FirstUseKeepsUnused(w, a, q, x, q.keys.reserve);
    FirstUseKeepsUnused(w, a, q, x, q.keys.undo);
  }

  /** The hold of a new request on an open account, with everything it may run into. */
  lemma {:induction false} NewHold(w: Wallet, a: AccountId, q: Request, amount: int, x: Faults)
    requires Books(w.ledger) && ValidMirror(q.mirror) && AccountOf(w.ledger, q.mirror) == Some(a)
    requires NewKeys(w.ledger, q)
    requires |a| > 0 && amount > 0 && !x.ensure
    ensures var r := PreConsume(w, NEW_FUNDING, q, amount, a, x);
      && (r.result.Success? <==> !x.ledger && !x.project && amount <= Available(w.ledger, a))
      && r.wallet.column == w.column - (if r.result.Success? then amount else 0)
      && AccountOf(r.wallet.ledger, q.mirror) == Some(a) && Books(r.wallet.ledger)
      && Available(r.wallet.ledger, a) == Available(w.ledger, a) - (if r.result.Success? || r.stuck then amount else 0)
      && (r.stuck <==> !x.ledger && amount <= Available(w.ledger, a) && x.project && x.undo)
  {
    hide Books, Reserve, EnsureAccount, ProjectHold, NewRequest, Unused;
    NewRequestSits(w, a, q);
    var r := PreConsume(w, NEW_FUNDING, q, amount, a, x);
    PreConsumeAccounted(w, a, q, NEW_FUNDING, amount, a, x);
    var (s1, account) := EnsureAccount(w, NEW_FUNDING, q, a, x);
    EnsureAccounted(w, a, q, NEW_FUNDING, a, x);
    AccountFound(w, q, a, x);
    assert Available(s1, a) == Available(w.ledger, a);
    FreshHold(w.ledger, s1, q, account.value, amount);
    if !x.ledger && amount <= Available(w.ledger, a) {
      HoldEffect(s1, q, a, amount);
      var s2 := Reserve(s1, HoldParams(q, a, amount)).state;
      assert Available(s2, a) == Available(s1, a) - amount;
      UndoUnused(w.ledger, s1, q, a, amount);
      Projected(w.(ledger := s2), q, a, |s1.reservations|, amount, x);
    }
  }

  lemma {:induction false} UndoUnused(s: Ledger, s1: Ledger, q: Request, a: AccountId, amount: int)
    requires NewKeys(s, q) && SameHistory(s, s1) && s1.outbox == s.outbox && Reserve(s1, HoldParams(q, a, amount)).Done?
    ensures Unused(Reserve(s1, HoldParams(q, a, amount)).state, q.keys.undo)
  {
    assert Unused(s1, q.keys.undo);
    hide Unused, Reserve;
    ReserveKeepsUnused(s1, HoldParams(q, a, amount), q.keys.undo);
  }

  /** The column follows a recorded hold, or the hold is undone, or neither. */
  lemma {:induction false} Projected(w: Wallet, q: Request, a: AccountId, row: nat, amount: int, x: Faults)
    requires Books(w.ledger) && Unused(w.ledger, q.keys.undo) && row < |w.ledger.reservations|
    requires w.ledger.reservations[row].status.Open? && Same(w.ledger.reservations[row].account, a)
    requires w.ledger.reservations[row].amount == amount
    ensures var r := ProjectHold(w, NEW_FUNDING, q, a, row, amount, x);
      && (r.result.Success? <==> !x.project) && (r.stuck <==> x.project && x.undo)
      && r.wallet.column == w.column - (if r.result.Success? then amount else 0)
      && Available(r.wallet.ledger, a) == Available(w.ledger, a) + (if x.project && !x.undo then amount else 0)
  {
    FreshReleaseSucceeds(w.ledger, UndoParams(q, row));
    ReleaseEffect(w.ledger, UndoParams(q, row));
    hide Release, Books;
    assert Available(Release(w.ledger, UndoParams(q, row)).state, a) == Available(w.ledger, a) + amount;
  }
}
