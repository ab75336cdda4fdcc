/** What every ledger transaction answers: under a key that nothing uses, and under one that is used. */
module LedgerAnswers {
  import opened LedgerSchema
  import opened LedgerRuntime
  import opened LedgerInvariants
  import opened LedgerEffects
  import opened LedgerRuns

  // ----- Replaying an adjustment -----

  /** The row a successful adjustment reports. */
  lemma {:induction false} AdjustRecords(s: Ledger, p: AdjustParams)
    requires Adjust(s, p).Done?
    ensures var s' := Adjust(s, p).state; var i := Adjust(s, p).value;
      && i < |s'.entries| && s'.entries[i].key == KeyOf(p.key) && Same(s'.entries[i].account, p.account)
      && s'.entries[i].entryType.Adjustment?
  {
  }

  /** After any further run, an adjustment under a key that an adjustment has used reports the recorded row
      when it is for the same account, is a conflict for another one, and never changes anything. */
  lemma {:induction false} AdjustReplay(s: Ledger, p: AdjustParams, cs: seq<Command>, p': AdjustParams)
    requires Consistent(s) && Adjust(s, p).Done? && p'.key == p.key && |p'.account| > 0
    ensures var s2 := Run(Adjust(s, p).state, cs);
      Adjust(s2, p') == if Same(p'.account, p.account) then Done(s2, Adjust(s, p).value) else Failed(LedgerConflict)
  {
    var s1 := Adjust(s, p).state;
    var i := Adjust(s, p).value;
    var s2 := Run(s1, cs);
    AdjustRecords(s, p);
    RecordsLast(s, RecordAdjustment(p), cs);
    assert s2.entries[i] == s1.entries[i];
    EntryFound(s2, i);
    AdjustOnto(s2, p', i);
  }

  lemma {:induction false} AdjustOnto(s: Ledger, p: AdjustParams, i: nat)
    requires i < |s.entries| && FindEntry(s.entries, KeyOf(p.key)) == Some(i) && |p.account| > 0 && |p.key| > 0
    ensures Adjust(s, p) ==
            if s.entries[i].entryType.Adjustment? && Same(s.entries[i].account, p.account) then Done(s, i)
            else Failed(LedgerConflict)
  {
  }

  lemma {:induction false} CreditOnto(s: Ledger, p: CreditParams, i: nat)
    requires i < |s.entries| && FindEntry(s.entries, KeyOf(p.key)) == Some(i)
    requires |p.account| > 0 && p.amount > 0 && |p.key| > 0 && !s.entries[i].entryType.GrantCredit?
    ensures Credit(s, p) == Failed(LedgerConflict)
  {
  }

  /** A credit and an adjustment never answer for each other: under a key that the one has used, the other is a
      conflict, after any further run. */
  lemma {:induction false} AdjustOverCredit(s: Ledger, p: CreditParams, cs: seq<Command>, p': AdjustParams)
    requires Consistent(s) && Credit(s, p).Done? && p'.key == p.key && |p'.account| > 0
    ensures Adjust(Run(Credit(s, p).state, cs), p') == Failed(LedgerConflict)
  {
    var s1 := Credit(s, p).state;
    var i := Credit(s, p).value;
    CreditRecords(s, p);
    RecordsLast(s, CreditAccount(p), cs);
    var s2 := Run(s1, cs);
    assert s2.entries[i] == s1.entries[i];
    EntryFound(s2, i);
    AdjustOnto(s2, p', i);
  }

  lemma {:induction false} CreditOverAdjust(s: Ledger, p: AdjustParams, cs: seq<Command>, p': CreditParams)
    requires Consistent(s) && Adjust(s, p).Done? && p'.key == p.key && |p'.account| > 0 && p'.amount > 0
    ensures Credit(Run(Adjust(s, p).state, cs), p') == Failed(LedgerConflict)
  {
    var s1 := Adjust(s, p).state;
    var i := Adjust(s, p).value;
    AdjustRecords(s, p);
    RecordsLast(s, RecordAdjustment(p), cs);
    var s2 := Run(s1, cs);
    assert s2.entries[i] == s1.entries[i];
    EntryFound(s2, i);
    CreditOnto(s2, p', i);
  }

  // ----- Under a key that nothing uses -----

  /** An adjustment goes through for any account there may be; it adds one row and its event, and moves no
      balance. */
  lemma {:induction false} AdjustAnswers(s: Ledger, p: AdjustParams)
    requires Unused(s, p.key)
    ensures var o := Adjust(s, p);
      if |p.account| == 0 then o == Failed(InvalidParams)
      else
        && o.Done? && o.value == |s.entries| && |o.state.entries| == |s.entries| + 1
        && o.state.entries[..|s.entries|] == s.entries && o.state.entries[|s.entries|].amount == 0
        && o.state == s.(entries := o.state.entries, outbox := o.state.outbox) && |o.state.outbox| == |s.outbox| + 1
        && SameBalances(s, o.state)
  {
  }

  /** A credit goes through for any account there may be and any positive amount; available and granted rise by
      it, and no other balance moves. */
  lemma {:induction false} CreditAnswers(s: Ledger, p: CreditParams)
    requires Unused(s, p.key)
    ensures var o := Credit(s, p);
      if |p.account| == 0 || p.amount <= 0 then o == Failed(InvalidParams)
      else
        && o.Done? && o.value == |s.entries|
        && forall a: AccountId :: Moves(s, o.state, a, if Same(a, p.account) then p.amount else 0, 0, 0, 0,
                                        if Same(a, p.account) then p.amount else 0)
  {
  }

  /** By how much each of an account's five balances rose. */
  predicate Moves(s: Ledger, s': Ledger, a: AccountId, available: int, reserved: int, consumed: int, refunded: int,
                  granted: int) {
    var x, y := Snap(s, a), Snap(s', a);
    y == Snapshot(x.available + available, x.reserved + reserved, x.consumed + consumed, x.refunded + refunded,
                  x.granted + granted)
  }

  /** A reservation goes through exactly when the account's available balance covers it, and moves it from there
      to the reserved one. */
  lemma {:induction false} ReserveAnswers(s: Ledger, p: ReserveParams)
    requires Unused(s, p.key)
    ensures var o := Reserve(s, p);
      if |p.account| == 0 || p.amount <= 0 then o == Failed(InvalidParams)
      else if p.amount > Available(s, p.account) then o == Failed(InsufficientBalance)
      else
        && o.Done? && o.value == |s.reservations|
        && forall a: AccountId ::
             var d := if Same(a, p.account) then p.amount else 0; Moves(s, o.state, a, -d, d, 0, 0, 0)
  {
  }

  /** A release answers by its row alone, and gives an open hold back. */
  lemma {:induction false} ReleaseAnswers(s: Ledger, p: ReleaseParams)
    requires Books(s) && Unused(s, p.key)
    ensures var o := Release(s, p);
      if p.reservation >= |s.reservations| then o == Failed(ReservationNotFound)
      else
        var r := s.reservations[p.reservation];
        match r.status
        case Released => o == Done(s, p.reservation)
        case Open =>
          && o.Done? && o.value == p.reservation
          && forall a: AccountId ::
               var d := if Same(a, r.account) then r.amount else 0; Moves(s, o.state, a, d, -d, 0, 0, 0)
        case _ => o == Failed(ReservationNotOpen)
  {
    if p.reservation < |s.reservations| && s.reservations[p.reservation].status.Open? {
      NoReservedUnderflow(s, p.reservation);
      ReservationHasAccount(s, p.reservation);
    }
  }

  /** Under a key that an entry has used, no open reservation is released: that is a conflict. */
  lemma {:induction false} ReleaseUnderUsedKey(s: Ledger, p: ReleaseParams)
    requires Books(s) && FindEntry(s.entries, KeyOf(p.key)).Some? && |p.key| > 0
    requires p.reservation < |s.reservations| && s.reservations[p.reservation].status.Open?
    ensures Release(s, p) == Failed(LedgerConflict)
  {
    OpenReservationIsUnreleased(s, p.reservation, FindEntry(s.entries, KeyOf(p.key)).value);
  }

  /** A settlement answers by its row and the balance: the hold turns into the charge, what the charge leaves of
      it is refunded, and what goes beyond it comes from the available balance. */
  lemma {:induction false} SettleAnswers(s: Ledger, p: SettleParams)
    requires Books(s) && Unused(s, p.key)
    ensures var o := Settle(s, p);
      if p.actual < 0 then o == Failed(InvalidParams)
      else if p.reservation >= |s.reservations| then o == Failed(ReservationNotFound)
      else
        var r := s.reservations[p.reservation];
        match r.status
        case Settled => o == Failed(SettlementAlreadyExists)
        case Open =>
          if p.actual > r.amount + Available(s, r.account) then o == Failed(InsufficientBalance)
          else
            && o.Done? && o.value == |s.settlements|
            && forall a: AccountId :: SettledBy(s, o.state, a, Same(a, r.account), r.amount, p.actual)
        case _ => o == Failed(ReservationNotOpen)
  {
    if p.actual >= 0 && p.reservation < |s.reservations| && s.reservations[p.reservation].status.Open? {
      NoReservedUnderflow(s, p.reservation);
      OpenRowIsUnsettled(s, p.reservation);
      ReservationHasAccount(s, p.reservation);
      NotNegative(s, s.reservations[p.reservation].account);
    }
  }

  lemma {:induction false} NotNegative(s: Ledger, a: AccountId)
    requires Books(s)
    ensures Available(s, a) >= 0
  {
    assert Holds(Conservation, s);
  }

  predicate SettledBy(s: Ledger, s': Ledger, a: AccountId, its: bool, held: int, charge: int) {
    if !its then Moves(s, s', a, 0, 0, 0, 0, 0)
    else Moves(s, s', a, held - charge, -held, charge, if charge < held then held - charge else 0, 0)
  }

  // ----- Opening an account -----

  /** An owner's account is found, or opened under the new identifier; a blank unit is the quota's. */
  lemma {:induction false} EnsureAnswers(s: Ledger, p: EnsureParams, newId: AccountId)
    ensures var o := Ensure(s, p, newId);
      var unit := if |p.quotaUnit| > 0 then p.quotaUnit else "quota";
      var owner := Owner(p.accountType, p.ownerType, p.ownerId, unit);
      if p.ownerId <= 0 || |p.ownerType| == 0 || |p.accountType| == 0 then o == Failed(InvalidParams)
      else if exists i | 0 <= i < |s.accounts| :: s.accounts[i].owner == owner then
        && o.Done? && o.state.accounts == s.accounts
        && exists i | 0 <= i < |s.accounts| :: s.accounts[i] == Account(o.value, owner)
      else if AccountExists(s.accounts, newId) then o == Failed(UniqueViolation)
      else o.Done? && o.value == newId && o.state.accounts == s.accounts + [Account(newId, owner)]
  {
  }

  // ----- The outbox -----

  /** An event is appended; once recorded it is accepted again and adds nothing; another one under its key is a
      conflict; a published flag and failed attempts make no difference. */
  lemma {:induction false} RecordedAgain<T>(s: Ledger, e: Event, value: T, e': Event, value': T)
    requires RecordOutbox(s, e, value).Done? && Same(e'.key, e.key) && |e'.account| > 0
    ensures FindEvent(s.outbox, e.key).None? ==> RecordOutbox(s, e, value) == Done(s.(outbox := s.outbox + [e]), value)
    ensures var s' := RecordOutbox(s, e, value).state;
      RecordOutbox(s', e', value') ==
      if e'.eventType == e.eventType && e'.aggregate == e.aggregate && Same(e'.account, e.account) then Done(s', value')
      else Failed(LedgerConflict)
  {
    var s' := RecordOutbox(s, e, value).state;
    if FindEvent(s.outbox, e.key).None? {
      assert s'.outbox[|s'.outbox| - 1] == e;
    }
  }
}
