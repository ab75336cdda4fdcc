/** What the ledger has given under one request's keys, and how each call moves it, whatever is refused. */
module RequestAccount {
  import opened LedgerSchema
  import opened LedgerRuntime
  import opened LedgerInvariants
  import opened LedgerEffects
  import opened WalletMirror
  import opened RelayFunding
  import opened TokenQuota
  import opened RequestStanding

  function RowOf(l: Ledger, q: Request): Option<nat> {
    FindReservation(l.reservations, q.keys.reserve)
  }

  predicate RowIs(l: Ledger, q: Request, status: ReservationStatus) {
    RowOf(l, q).Some? && l.reservations[RowOf(l, q).value].status == status
  }

  /** The hold while it is open, whether the funding knows of it or not, and the charge once it is settled. */
  function LedgerGave(l: Ledger, q: Request): int {
    match FindSettlement(l.settlements, q.keys.settle)
    case Some(t) => l.settlements[t].actual
    case None => if RowIs(l, q, Open) then l.reservations[RowOf(l, q).value].amount else 0
  }

  /** The funding knows of no other row than the one under its key, and the row is settled exactly when the
      settle key is used. */
  predicate Placed(l: Ledger, q: Request, f: Funding) {
    && FindSettlement(l.settlements, q.keys.settle) == f.settlement
    && (f.reservation.Some? ==> RowOf(l, q) == f.reservation)
    && (f.settlement.Some? <==> RowIs(l, q, Settled)) && (f.settlement.Some? ==> f.reservation.Some?)
  }

  ghost predicate OnRecord(w: Wallet, a: AccountId, q: Request, f: Funding) {
    Serves(w, a, q, f) && Placed(w.ledger, q, f)
  }

  /** Only the ledger's part of a call is told by the row; the column follows it but for the slip. */
  predicate Moved(w: Wallet, a: AccountId, q: Request, r: Relayed) {
    && Available(r.wallet.ledger, a) ==
       Available(w.ledger, a) - (LedgerGave(r.wallet.ledger, q) - LedgerGave(w.ledger, q))
    && Drift(r.wallet, a) == Drift(w, a) + r.slip && r.wallet.ledger.accounts == w.ledger.accounts
  }

  lemma {:induction false} OneRow(l: Ledger, q: Request, i: nat)
    requires Books(l) && i < |l.reservations| && Same(l.reservations[i].key, q.keys.reserve)
    ensures RowOf(l, q) == Some(i)
  {
    assert Holds(Reservations, l);
  }

  /** The hold there is, or the one asked for. */
  function HeldOr(l: Ledger, q: Request, amount: int): int {
    if RowOf(l, q).Some? then l.reservations[RowOf(l, q).value].amount else amount
  }

  /** A hold leaves the ledger's part told by the row, takes up the row there is, and otherwise holds the
      amount; a hold that succeeds slips nothing. */
  lemma {:induction false} HoldMoves(w: Wallet, a: AccountId, q: Request, f: Funding, amount: int, newId: AccountId,
                                     x: Faults)
    requires OnRecord(w, a, q, f)
    ensures var r := PreConsume(w, f, q, amount, newId, x);
      && OnRecord(r.wallet, a, q, r.funding) && Moved(w, a, q, r) && r.funding.settlement == f.settlement
      && (r.result.Failure? ==> r.funding == f) && (r.result.Success? ==> r.slip == 0)
      && (f.reservation.Some? || amount <= 0 ==> r.wallet == w && r.funding == f)
      && (r.result.Success? && amount > 0 ==>
          r.funding.reservation.Some? && r.funding.reserved == HeldOr(w.ledger, q, amount))
  {
    PreConsumeAccounted(w, a, q, f, amount, newId, x);
    HoldKeepsItsSettlement(w, q, f, amount, newId, x);
    SelfServed(w, a, q, f, PreConsume(w, f, q, amount, newId, x));
    if amount <= 0 || f.reservation.Some? {
      NothingToHold(w, a, q, f, amount, newId, x);
    } else {
      var (s1, account) := EnsureAccount(w, f, q, newId, x);
      EnsureAccounted(w, a, q, f, newId, x);
      SameRows(w.ledger, s1, q, f, amount);
      assert Available(s1, a) == Available(w.ledger, a);
      hide Books, Reserve, EnsureAccount, ProjectHold, Placed, LedgerGave, HeldOr, Serves;
      if account.Success? {
        if RowOf(s1, q).Some? {
          AdoptMoves(s1, q, f, amount);
        } else {
          NoRowYet(s1, q, f, amount);
          if !x.ledger && Reserve(s1, HoldParams(q, a, amount)).Done? {
            ProjectMoves(w, s1, a, q, f, amount, x);
          }
        }
      }
    }
  }

  lemma {:induction false} NothingToHold(w: Wallet, a: AccountId, q: Request, f: Funding, amount: int, newId: AccountId,
                                         x: Faults)
    requires OnRecord(w, a, q, f) && (amount <= 0 || f.reservation.Some?)
    ensures var r := PreConsume(w, f, q, amount, newId, x);
      && r.wallet == w && r.funding == f && r.slip == 0
      && (r.result.Success? && amount > 0 ==> f.reservation.Some? && f.reserved == HeldOr(w.ledger, q, amount))
  {
  }

  /** What is told by the rows alone. */
  lemma {:induction false} SameRows(l: Ledger, l': Ledger, q: Request, f: Funding, amount: int)
    requires SameHistory(l, l')
    ensures Placed(l', q, f) == Placed(l, q, f) && LedgerGave(l', q) == LedgerGave(l, q)
    ensures HeldOr(l', q, amount) == HeldOr(l, q, amount)
  {
  }

  lemma {:induction false} AdoptMoves(l: Ledger, q: Request, f: Funding, amount: int)
    requires Placed(l, q, f) && RowOf(l, q).Some? && f.reservation.None?
    ensures var f' := Adopt(f, l.reservations, RowOf(l, q).value);
      Placed(l, q, f') && f'.reservation.Some? && f'.reserved == HeldOr(l, q, amount) && f'.settlement == f.settlement
  {
  }

  lemma {:induction false} NoRowYet(l: Ledger, q: Request, f: Funding, amount: int)
    requires Placed(l, q, f) && RowOf(l, q).None?
    ensures LedgerGave(l, q) == 0 && HeldOr(l, q, amount) == amount
  {
  }

  lemma {:induction false} ProjectMoves(w: Wallet, s1: Ledger, a: AccountId, q: Request, f: Funding, amount: int,
                                        x: Faults)
    requires Books(s1) && f.reservation.None? && Placed(s1, q, f) && RowOf(s1, q).None?
    requires Reserve(s1, HoldParams(q, a, amount)).Done?
    ensures var o := Reserve(s1, HoldParams(q, a, amount));
      var r := ProjectHold(w.(ledger := o.state), f, q, a, o.value, amount, x);
      && Placed(r.wallet.ledger, q, r.funding) && (r.result.Success? ==> r.funding.reserved == amount && r.slip == 0)
      && Available(r.wallet.ledger, a) == Available(s1, a) - LedgerGave(r.wallet.ledger, q)
  {
    hide Reserve, Release, Books;
    var p := HoldParams(q, a, amount);
    var o := Reserve(s1, p);
    HoldEffect(s1, q, a, amount);
    HoldKeepsSettlements(s1, p);
    OneRow(o.state, q, o.value);
    assert Available(o.state, a) == Available(s1, a) - amount;
    if x.project && !x.undo && Release(o.state, UndoParams(q, o.value)).Done? {
      var u := UndoParams(q, o.value);
      ReleaseEffect(o.state, u);
      RequestStanding.ReleaseKeepsSettlements(o.state, u);
      OneRow(Release(o.state, u).state, q, o.value);
      assert Available(Release(o.state, u).state, a) == Available(o.state, a) + amount;
    }
  }

  lemma {:induction false} FinishMoves(w: Wallet, a: AccountId, q: Request, f: Funding, delta: int, x: Faults)
    requires OnRecord(w, a, q, f)
    ensures var r := SettleHold(w, f, q, delta, x);
      && OnRecord(r.wallet, a, q, r.funding) && Moved(w, a, q, r)
      && r.funding.reservation == f.reservation && r.funding.reserved == f.reserved
      && (r.result.Success? ==> r.funding.settlement.Some?)
      && (r.result.Failure? ==> r.wallet.ledger == w.ledger && r.funding.settlement == f.settlement)
      && (f.settlement.Some? ==> r.wallet == w && r.funding == f && r.result.Success? && r.slip == 0)
      && (r.result.Success? && f.settlement.None? ==>
            && RowIs(w.ledger, q, Open) && f.reservation.Some? && f.reserved == HeldOr(w.ledger, q, f.reserved)
            && LedgerGave(r.wallet.ledger, q) == Charge(f.reserved, delta)
            && r.slip == Charge(f.reserved, delta) - (f.reserved + delta))
  {
    hide Books, Settle;
    SettleAccounted(w, a, q, f, delta, x);
    SelfServed(w, a, q, f, SettleHold(w, f, q, delta, x));
    if f.reservation.Some? && FindSettlement(w.ledger.settlements, q.keys.settle).None? {
      var p := SettleParams(f.reservation.value, q.id, Charge(f.reserved, delta), q.keys.settle);
      if !(delta != 0 && x.project) && !x.ledger && Settle(w.ledger, p).Done? {
        SettleEffect(w.ledger, p);
        SettledUnderKey(w.ledger, p);
        OneRow(Settle(w.ledger, p).state, q, f.reservation.value);
        assert Available(Settle(w.ledger, p).state, a) == Available(w.ledger, a) + (f.reserved - p.actual);
      }
    }
  }

  lemma {:induction false} BackMoves(w: Wallet, a: AccountId, q: Request, f: Funding, x: Faults)
    requires OnRecord(w, a, q, f)
    ensures var r := Refund(w, f, q, x);
      && OnRecord(r.wallet, a, q, r.funding) && Moved(w, a, q, r)
      && r.funding.reservation == f.reservation && r.funding.reserved == f.reserved
      && r.funding.settlement == f.settlement
      && (r.result.Failure? ==> r.wallet.ledger == w.ledger)
      && (r.result.Success? && f.reservation.Some? ==>
          RowIs(r.wallet.ledger, q, Released) && LedgerGave(r.wallet.ledger, q) == 0)
  {
    hide Books, Release;
    RefundAccounted(w, a, q, f, x);
    SelfServed(w, a, q, f, Refund(w, f, q, x));
    if f.reservation.Some? {
      var p := ReleaseParams(f.reservation.value, q.keys.release, "");
      if !(f.legacyHeld > 0 && x.project) && !x.ledger && Release(w.ledger, p).Done? {
        ReleaseEffect(w.ledger, p);
        RequestStanding.ReleaseKeepsSettlements(w.ledger, p);
        ReleaseNeedsLive(w.ledger, p);
        OneRow(Release(w.ledger, p).state, q, f.reservation.value);
        var row := w.ledger.reservations[f.reservation.value];
        assert Available(Release(w.ledger, p).state, a) ==
               Available(w.ledger, a) + if row.status.Open? then row.amount else 0;
      }
    }
  }

  /** A released request stays released: it is neither charged nor held again. */
  lemma {:induction false} ReleasedForGood(w: Wallet, a: AccountId, q: Request, f: Funding, delta: int, x: Faults)
    requires OnRecord(w, a, q, f) && RowIs(w.ledger, q, Released)
    ensures SettleHold(w, f, q, delta, x).result.Failure?
  {
    hide Books, Settle;
    FinishMoves(w, a, q, f, delta, x);
  }

  /** Traffic that leaves the request's rows alone. */
  lemma {:induction false} SamePlace(l: Ledger, l': Ledger, q: Request, f: Funding)
    requires Books(l) && Placed(l, q, f)
    requires RowsUndisturbed(l.reservations, l'.reservations, q.keys.reserve)
    requires SettlementsUndisturbed(l.settlements, l'.settlements, q.keys.settle)
    ensures Placed(l', q, f) && LedgerGave(l', q) == LedgerGave(l, q)
    ensures forall status :: RowIs(l', q, status) <==> RowIs(l, q, status)
    ensures forall amount :: HeldOr(l', q, amount) == HeldOr(l, q, amount)
  {
    FoundAsBefore(l.settlements, l'.settlements, q.keys.settle);
    var row := RowOf(l', q);
    if row.Some? {
      OneRow(l, q, row.value);
    }
  }

  lemma {:induction false} StillOnRecord(w: Wallet, w': Wallet, a: AccountId, q: Request, f: Funding, m: Mirror)
    requires OnRecord(w, a, q, f) && WalletApart(w.ledger, a, q, m) && LeavesRows(w.ledger, w'.ledger, q)
    ensures OnRecord(w', a, q, f) && LedgerGave(w'.ledger, q) == LedgerGave(w.ledger, q)
    ensures WalletApart(w'.ledger, a, q, m)
    ensures forall status :: RowIs(w'.ledger, q, status) <==> RowIs(w.ledger, q, status)
    ensures forall amount :: HeldOr(w'.ledger, q, amount) == HeldOr(w.ledger, q, amount)
  {
    hide Books, RowIs, LedgerGave, HeldOr, Placed;
    WalletStaysApart(w.ledger, w'.ledger, a, q, m);
    SamePlace(w.ledger, w'.ledger, q, f);
  }
}
