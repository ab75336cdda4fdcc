/** What one ledger transaction does to the available balances, for the ledger's clients. */
module LedgerEffects {
  import opened LedgerSchema
  import opened LedgerRuntime
  import opened LedgerInvariants

  function Available(s: Ledger, a: AccountId): int {
    Snap(s, a).available
  }

  /** From s to s' the available balance of account a moved by d, and no other one moved. */
  ghost predicate Shifts(s: Ledger, s': Ledger, a: AccountId, d: int) {
    forall b: AccountId :: Available(s', b) == Available(s, b) + if Same(b, a) then d else 0
  }

  lemma {:induction false} ShiftsCompose(s: Ledger, s1: Ledger, s2: Ledger, a: AccountId, d: int, e: int)
    requires Shifts(s, s1, a, d) && Shifts(s1, s2, a, e)
    ensures Shifts(s, s2, a, d + e)
  {
    forall b: AccountId ensures Available(s2, b) == Available(s, b) + if Same(b, a) then d + e else 0 {
      assert Available(s1, b) == Available(s, b) + if Same(b, a) then d else 0;
    }
  }

  lemma {:induction false} CreditShifts(s: Ledger, p: CreditParams)
    requires Credit(s, p).Done?
    ensures var isNew := FindEntry(s.entries, KeyOf(p.key)).None?;
      Shifts(s, Credit(s, p).state, p.account, if isNew then p.amount else 0)
  {
  }

  lemma {:induction false} ReserveShifts(s: Ledger, p: ReserveParams)
    requires Reserve(s, p).Done?
    ensures var isNew := FindReservation(s.reservations, p.key).None?;
      Shifts(s, Reserve(s, p).state, p.account, if isNew then -p.amount else 0)
  {
  }

  lemma {:induction false} SettleShifts(s: Ledger, p: SettleParams)
    requires Settle(s, p).Done? && FindSettlement(s.settlements, p.key).None?
    ensures p.reservation < |s.reservations| && s.reservations[p.reservation].status.Open?
    ensures var r := s.reservations[p.reservation];
      Shifts(s, Settle(s, p).state, r.account, r.amount - p.actual)
  {
  }

  lemma {:induction false} ReleaseShifts(s: Ledger, p: ReleaseParams)
    requires Books(s) && Release(s, p).Done?
    ensures p.reservation < |s.reservations|
    ensures var r := s.reservations[p.reservation];
      Shifts(s, Release(s, p).state, r.account, if r.status.Open? then r.amount else 0)
  {
    var r := s.reservations[p.reservation];
    if r.status.Open? {
      var found := FindEntry(s.entries, KeyOf(p.key));
      if found.Some? {
        OpenReservationIsUnreleased(s, p.reservation, found.value);
      }
    }
  }

  // ----- Fresh keys do not clash -----

  /** Nothing in the ledger carries the key, neither as it is nor behind the "entry:" prefix. */
  predicate Unused(s: Ledger, key: string) {
    && |key| > 0
    && FindEntry(s.entries, KeyOf(key)).None? && FindEntry(s.entries, Derived(key)).None?
    && FindReservation(s.reservations, key).None? && FindSettlement(s.settlements, key).None?
    && FindEvent(s.outbox, key).None?
  }

  lemma {:induction false} FreshCreditSucceeds(s: Ledger, p: CreditParams)
    requires Unused(s, p.key) && |p.account| > 0 && p.amount > 0
    ensures Credit(s, p).Done?
  {
  }

  lemma {:induction false} FreshReserve(s: Ledger, p: ReserveParams)
    requires Unused(s, p.key) && |p.account| > 0 && p.amount > 0
    ensures Reserve(s, p) ==
      if Available(s, p.account) < p.amount then Failed(InsufficientBalance)
      else Done(Reserve(s, p).state, |s.reservations|)
    ensures Reserve(s, p).Done? ==> Reserve(s, p).state.reservations == s.reservations + [NewReservation(p)]
  {
  }

  lemma {:induction false} FreshSettleSucceeds(s: Ledger, p: SettleParams)
    requires Books(s) && Unused(s, p.key) && p.reservation < |s.reservations| && p.actual >= 0
    requires var r := s.reservations[p.reservation]; r.status.Open? && p.actual <= r.amount + Available(s, r.account)
    ensures Settle(s, p).Done?
  {
    NoReservedUnderflow(s, p.reservation);
    OpenRowIsUnsettled(s, p.reservation);
    ReservationHasAccount(s, p.reservation);
    SettleOpenSucceeds(s, p);
  }

  lemma {:induction false} ReservationHasAccount(s: Ledger, row: nat)
    requires Books(s) && row < |s.reservations|
    ensures |s.reservations[row].account| > 0 && s.reservations[row].amount > 0
  {
    assert Holds(Reservations, s);
  }

  lemma {:induction false} OpenRowIsUnsettled(s: Ledger, row: nat)
    requires Books(s) && row < |s.reservations| && s.reservations[row].status.Open?
    ensures forall i | 0 <= i < |s.settlements| :: s.settlements[i].reservation != row
  {
    assert Holds(Settlements, s);
    forall i | 0 <= i < |s.settlements| ensures s.settlements[i].reservation != row {
      assert SettlementRow(s.settlements[i], s.reservations);
    }
  }

  lemma {:induction false} SettleOpenSucceeds(s: Ledger, p: SettleParams)
    requires Unused(s, p.key) && p.reservation < |s.reservations| && p.actual >= 0
    requires forall i | 0 <= i < |s.settlements| :: s.settlements[i].reservation != p.reservation
    requires var r := s.reservations[p.reservation];
      r.status.Open? && |r.account| > 0 && r.amount <= Snap(s, r.account).reserved &&
      p.actual <= r.amount + Available(s, r.account)
    ensures Settle(s, p).Done?
  {
  }

  lemma {:induction false} FreshReleaseSucceeds(s: Ledger, p: ReleaseParams)
    requires Books(s) && Unused(s, p.key) && p.reservation < |s.reservations|
    requires s.reservations[p.reservation].status.Open?
    ensures Release(s, p).Done?
  {
    NoReservedUnderflow(s, p.reservation);
    ReservationHasAccount(s, p.reservation);
  }
}
