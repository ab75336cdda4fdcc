/** What a request's funding calls answer, whatever they find and whatever the stores refuse. */
module RelayAnswers {
  import opened LedgerSchema
  import opened LedgerRuntime
  import opened LedgerInvariants
  import opened LedgerEffects
  import opened WalletMirror
  import opened RelayFunding
  import opened RequestStanding

  /** The account is known, or its opening is not refused. */
  predicate AccountReady(f: Funding, x: Faults) {
    f.account.Some? || !x.ensure
  }

  /** The request's row, if it has one. */
  predicate HasRow(s: Ledger, q: Request) {
    FindReservation(s.reservations, q.keys.reserve).Some?
  }

  /** A hold is answered by what is there.  Nothing to hold is a success; a repeated hold is one exactly when it asks
      for the amount held, and a conflict otherwise; a row of the request that another object recorded is taken over
      whatever its amount; and a new hold goes through exactly when nothing is refused and the balance covers it. */
  lemma {:induction false} HoldAnswers(w: Wallet, a: AccountId, q: Request, f: Funding, amount: int, newId: AccountId,
                                       x: Faults)
    requires Sits(w, a, q, f) && |a| > 0
    requires !HasRow(w.ledger, q) ==> Unused(w.ledger, q.keys.reserve)
    ensures var r := PreConsume(w, f, q, amount, newId, x);
      if amount <= 0 then r.result.Success?
      else if f.reservation.Some? then
        r.result == if amount == w.ledger.reservations[f.reservation.value].amount then Success(())
                    else Failure(LedgerConflict)
      else if HasRow(w.ledger, q) then r.result.Success? <==> AccountReady(f, x)
      else r.result.Success? <==> AccountReady(f, x) && !x.ledger && !x.project && amount <= Available(w.ledger, a)
  {
    if amount > 0 && f.reservation.None? {
      hide Reserve, EnsureAccount, ProjectHold, Unused, Books;
      var (s1, account) := EnsureAccount(w, f, q, newId, x);
      EnsureAccounted(w, a, q, f, newId, x);
      OpensWhenReady(w, a, q, f, newId, x);
      if account.Success? && !HasRow(w.ledger, q) {
        assert Available(s1, a) == Available(w.ledger, a);
        FreshHold(w.ledger, s1, q, account.value, amount);
        var o := Reserve(s1, HoldParams(q, account.value, amount));
        ProjectAnswers(w.(ledger := After(s1, o)), f, q, account.value, |s1.reservations|, amount, x);
      }
    }
  }

  lemma {:induction false} OpensWhenReady(w: Wallet, a: AccountId, q: Request, f: Funding, newId: AccountId, x: Faults)
    requires ValidMirror(q.mirror) && AccountOf(w.ledger, q.mirror) == Some(a)
    ensures var (s1, account) := EnsureAccount(w, f, q, newId, x);
      (account.Success? <==> AccountReady(f, x)) && s1.outbox == w.ledger.outbox
  {
    if f.account.None? {
      MirroringExisting(w, q.mirror, newId, x.ensure, x.bootstrap);
    }
  }

  lemma {:induction false} ProjectAnswers(w: Wallet, f: Funding, q: Request, a: AccountId, row: nat, amount: int,
                                          x: Faults)
    ensures ProjectHold(w, f, q, a, row, amount, x).result.Success? <==> !x.project
  {
  }

  /** A hold that only the balance is in the way of is refused for want of it. */
  lemma {:induction false} HoldRefused(w: Wallet, a: AccountId, q: Request, f: Funding, amount: int, newId: AccountId,
                                       x: Faults)
    requires Sits(w, a, q, f) && |a| > 0 && f.reservation.None? && Unused(w.ledger, q.keys.reserve)
    requires AccountReady(f, x) && !x.ledger && amount > Available(w.ledger, a) && amount > 0
    ensures var r := PreConsume(w, f, q, amount, newId, x);
      r.result == Failure(InsufficientBalance) && r.funding == f && r.wallet.column == w.column
  {
    hide Reserve, EnsureAccount, ProjectHold, Unused, Books;
    var (s1, account) := EnsureAccount(w, f, q, newId, x);
    EnsureAccounted(w, a, q, f, newId, x);
    OpensWhenReady(w, a, q, f, newId, x);
    assert Available(s1, a) == Available(w.ledger, a);
    FreshHold(w.ledger, s1, q, account.value, amount);
  }

  /** Taking over a row takes nothing from the stores; the object then holds in the column what the row still holds. */
  lemma {:induction false} RowTakenOver(w: Wallet, a: AccountId, q: Request, f: Funding, amount: int, newId: AccountId,
                                        x: Faults)
    requires Serves(w, a, q, f) && f.reservation.None? && HasRow(w.ledger, q) && AccountReady(f, x) && amount > 0
    ensures var r := PreConsume(w, f, q, amount, newId, x);
      var row := FindReservation(w.ledger.reservations, q.keys.reserve).value;
      && r.result.Success? && SameBalances(w.ledger, r.wallet.ledger) && r.wallet.column == w.column
      && r.funding.reservation == Some(row) && r.funding.reserved == w.ledger.reservations[row].amount
      && r.funding.legacyHeld == Freeing(w.ledger, row)
  {
    hide EnsureAccount, Books;
    EnsureAccounted(w, a, q, f, newId, x);
    OpensWhenReady(w, a, q, f, newId, x);
  }

  /** A settlement is answered by the request's row: without one it fails, a settled request answers success again, an
      open one exactly when nothing is refused and the balance covers what the charge asks for beyond the hold, and
      any other fails. */
  lemma {:induction false} FinishAnswers(w: Wallet, a: AccountId, q: Request, f: Funding, delta: int, x: Faults)
    requires Sits(w, a, q, f)
    requires StatusIs(w.ledger, f, Open) ==> Unused(w.ledger, q.keys.settle)
    ensures var r := SettleHold(w, f, q, delta, x);
      && (f.reservation.None? ==> r.result == Failure(ReservationMissing))
      && (r.result.Success? <==>
          StatusIs(w.ledger, f, Settled) ||
          (StatusIs(w.ledger, f, Open) && !x.ledger && !(delta != 0 && x.project) && delta <= Available(w.ledger, a)))
      && (StatusIs(w.ledger, f, Open) && (x.ledger || (delta != 0 && x.project)) ==> r.result == Failure(StoreFailed))
  {
    if f.reservation.Some? && !StatusIs(w.ledger, f, Settled) {
      SeatedRow(w, a, q, f);
      if StatusIs(w.ledger, f, Open) {
        OpenFinishes(w, a, q, f, delta, x);
      } else {
        hide Books, Sits;
      }
    }
  }

  lemma {:induction false} OpenFinishes(w: Wallet, a: AccountId, q: Request, f: Funding, delta: int, x: Faults)
    requires Sits(w, a, q, f) && StatusIs(w.ledger, f, Open) && Unused(w.ledger, q.keys.settle)
    ensures SettleHold(w, f, q, delta, x).result.Success? <==>
            !x.ledger && !(delta != 0 && x.project) && delta <= Available(w.ledger, a)
    ensures x.ledger || (delta != 0 && x.project) ==> SettleHold(w, f, q, delta, x).result == Failure(StoreFailed)
  {
    if !x.ledger && !(delta != 0 && x.project) {
      hide Settle, Books, Unused;
      FinishGoesThrough(w, a, q, f, delta, x.(project := false));
      SameWithoutProject(w, q, f, delta, x);
    }
  }

  lemma {:induction false} SameWithoutProject(w: Wallet, q: Request, f: Funding, delta: int, x: Faults)
    requires !(delta != 0 && x.project)
    ensures SettleHold(w, f, q, delta, x) == SettleHold(w, f, q, delta, x.(project := false))
  {
    hide Settle;
  }

  /** A settlement that another object recorded is taken over, and nothing is taken from the stores. */
  lemma {:induction false} SettlementTakenOver(w: Wallet, q: Request, f: Funding, delta: int, x: Faults, i: nat)
    requires f.reservation.Some? && FindSettlement(w.ledger.settlements, q.keys.settle) == Some(i)
    ensures var r := SettleHold(w, f, q, delta, x);
      && r.result.Success? && r.wallet == w && !r.stuck && r.funding.settlement == Some(i)
      && r.funding.reserved == f.reserved && r.funding.legacyHeld == f.legacyHeld
  {
  }

  /** A refund is answered by the row as well: with nothing held it is a success, and a row that was undone stays so; an
      open one is given back exactly when nothing is refused, and a settled one never. */
  lemma {:induction false} GiveBackAnswers(w: Wallet, a: AccountId, q: Request, f: Funding, x: Faults)
    requires Sits(w, a, q, f) && |q.keys.release| > 0
    requires StatusIs(w.ledger, f, Open) ==> Unused(w.ledger, q.keys.release)
    ensures Refund(w, f, q, x).result.Success? <==>
      f.reservation.None? ||
      (!x.ledger && (StatusIs(w.ledger, f, Released) || (StatusIs(w.ledger, f, Open) && !x.project)))
  {
    if f.reservation.Some? {
      SeatedRow(w, a, q, f);
      if StatusIs(w.ledger, f, Open) {
        OpenGivenBack(w, a, q, f, x);
      } else {
        hide Books, Seated;
      }
    }
  }

  lemma {:induction false} OpenGivenBack(w: Wallet, a: AccountId, q: Request, f: Funding, x: Faults)
    requires Sits(w, a, q, f) && StatusIs(w.ledger, f, Open) && Unused(w.ledger, q.keys.release)
    ensures Refund(w, f, q, x).result.Success? <==> !x.ledger && !x.project
  {
    if x.ledger || x.project {
      SeatedRow(w, a, q, f);
      hide Release, Books;
    } else {
      GiveBackGoesThrough(w, a, q, f, x);
    }
  }
}
