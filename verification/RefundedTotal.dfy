/** The refunded total of an account: the one balance that its granted total does not bound. */
module RefundedTotal {
  import opened LedgerSchema
  import opened LedgerRuntime
  import opened LedgerInvariants
  import opened LedgerEffects
  import opened LedgerRuns
  import opened LedgerWorker
  import opened WalletStore

  function UnitHold(a: AccountId, n: nat): ReserveParams {
    ReserveParams(a, "", "", 1, NumberedKey(2 * n + 1))
  }

  function FreeSettlement(n: nat): SettleParams {
    SettleParams(n, "", 0, NumberedKey(2 * n + 2))
  }

  /** One unit is granted; then n times it is held, and settled for nothing. */
  function Refunds(a: AccountId, n: nat): seq<Command> {
    if n == 0 then [CreditAccount(OrphanCredit(a, 0))]
    else Refunds(a, n - 1) + [CreateReservation(UnitHold(a, n - 1))] + [SettleReservation(FreeSettlement(n - 1))]
  }

  ghost predicate NewFrom(s: Ledger, n: nat) {
    forall j: nat | j >= n :: Unused(s, NumberedKey(j))
  }

  ghost predicate Refunded(s: Ledger, a: AccountId, n: nat) {
    && Books(s) && |s.reservations| == n && Snap(s, a) == Snapshot(1, 0, 0, n, 1) && NewFrom(s, 2 * n + 1)
  }

  lemma {:induction false} HoldsUnit(s: Ledger, a: AccountId, n: nat)
    requires Refunded(s, a, n) && |a| > 0
    ensures var o := Reserve(s, UnitHold(a, n));
      && o.Done? && Books(o.state) && NewFrom(o.state, 2 * n + 2) && Snap(o.state, a) == Snapshot(0, 1, 0, n, 1)
      && o.state.reservations == s.reservations + [NewReservation(UnitHold(a, n))]
  {
    var p := UnitHold(a, n);
    assert Unused(s, p.key);
    hide Books, Unused, NumberedKey, NewFrom;
    FreshReserve(s, p);
    HeldUnit(s, p);
    hide Reserve;
    ReserveKeepsBooks(s, p);
    UnusedAfterHold(s, p, 2 * n + 1);
  }

  lemma {:induction false} HeldUnit(s: Ledger, p: ReserveParams)
    requires Unused(s, p.key) && Reserve(s, p).Done?
    ensures Snap(Reserve(s, p).state, p.account) == Held(Snap(s, p.account), p.amount)
  {
  }

  lemma {:induction false} UnusedAfterHold(s: Ledger, p: ReserveParams, n: nat)
    requires Reserve(s, p).Done? && NewFrom(s, n) && p.key == NumberedKey(n)
    ensures NewFrom(Reserve(s, p).state, n + 1)
  {
    hide Reserve, Unused;
    forall j: nat | j >= n + 1 ensures Unused(Reserve(s, p).state, NumberedKey(j)) {
      NumberedKeysDiffer(j, n);
      ReserveKeepsUnused(s, p, NumberedKey(j));
    }
  }

  lemma {:induction false} UnusedAfterSettlement(s: Ledger, p: SettleParams, n: nat)
    requires Settle(s, p).Done? && NewFrom(s, n) && p.key == NumberedKey(n)
    ensures NewFrom(Settle(s, p).state, n + 1)
  {
    hide Settle, Unused;
    forall j: nat | j >= n + 1 ensures Unused(Settle(s, p).state, NumberedKey(j)) {
      NumberedKeysDiffer(j, n);
      SettleKeepsUnused(s, p, NumberedKey(j));
    }
  }

  lemma {:induction false} RefundsUnit(s: Ledger, a: AccountId, n: nat)
    requires Books(s) && NewFrom(s, 2 * n + 2) && Snap(s, a) == Snapshot(0, 1, 0, n, 1) && |s.reservations| == n + 1
    requires s.reservations[n] == NewReservation(UnitHold(a, n)) && |a| > 0
    ensures var o := Settle(s, FreeSettlement(n)); o.Done? && Refunded(o.state, a, n + 1)
  {
    var p := FreeSettlement(n);
    assert Unused(s, p.key);
    hide Books, Unused, NumberedKey, NewFrom;
    FreshSettleSucceeds(s, p);
    SettledUnit(s, p, a);
    hide Settle;
    SettleKeepsBooks(s, p);
    UnusedAfterSettlement(s, p, 2 * n + 2);
  }

  lemma {:induction false} SettledUnit(s: Ledger, p: SettleParams, a: AccountId)
    requires Unused(s, p.key) && Settle(s, p).Done? && p.reservation < |s.reservations|
    requires s.reservations[p.reservation].account == a
    ensures var s' := Settle(s, p).state;
      && |s'.reservations| == |s.reservations|
      && Snap(s', a) == LedgerRuntime.Charged(Snap(s, a), s.reservations[p.reservation].amount, p.actual)
  {
  }

  lemma {:induction false} GrantsUnit(a: AccountId)
    requires |a| > 0
    ensures Refunded(Step(EMPTY_LEDGER, CreditAccount(OrphanCredit(a, 0))), a, 0)
  {
    var p := OrphanCredit(a, 0);
    AllUnused();
    FreshCreditSucceeds(EMPTY_LEDGER, p);
    EmptyIsConsistent();
    CreditKeepsBooks(EMPTY_LEDGER, p);
    assert Snap(Credit(EMPTY_LEDGER, p).state, a) == Granted(Snap(EMPTY_LEDGER, a), 1);
    hide Credit, Unused, Books;
    forall j: nat | j >= 1 ensures Unused(Credit(EMPTY_LEDGER, p).state, NumberedKey(j)) {
      NumberedKeysDiffer(j, 0);
      CreditKeepsUnused(EMPTY_LEDGER, p, NumberedKey(j));
    }
  }

  lemma {:induction false} AllUnused()
    ensures NewFrom(EMPTY_LEDGER, 0)
  {
  }

  lemma {:induction false} NextRefund(s: Ledger, a: AccountId, n: nat)
    requires Refunded(s, a, n) && |a| > 0
    ensures Refunded(Step(Step(s, CreateReservation(UnitHold(a, n))), SettleReservation(FreeSettlement(n))), a, n + 1)
  {
    hide Reserve, Settle, Step, NewFrom, NumberedKey, Books, Snap;
    HoldsUnit(s, a, n);
    RefundsUnit(Reserve(s, UnitHold(a, n)).state, a, n);
    StepsThrough(s, UnitHold(a, n), FreeSettlement(n));
  }

  lemma {:induction false} StepsThrough(s: Ledger, p: ReserveParams, q: SettleParams)
    requires Reserve(s, p).Done? && Settle(Reserve(s, p).state, q).Done?
    ensures Step(Step(s, CreateReservation(p)), SettleReservation(q)) == Settle(Reserve(s, p).state, q).state
  {
    hide Reserve, Settle;
  }

  /** However little was granted, the refunded total grows without bound: n units of it, with one granted. */
  lemma {:induction false} RefundedOutgrowsGranted(a: AccountId, n: nat)
    requires |a| > 0
    ensures Refunded(Run(EMPTY_LEDGER, Refunds(a, n)), a, n)
  {
    hide Refunded, Step, Run;
    if n == 0 {
      FirstStep(CreditAccount(OrphanCredit(a, 0)));
      GrantsUnit(a);
    } else {
      var hold := CreateReservation(UnitHold(a, n - 1));
      RefundedOutgrowsGranted(a, n - 1);
      NextRefund(Run(EMPTY_LEDGER, Refunds(a, n - 1)), a, n - 1);
      LastStep(EMPTY_LEDGER, Refunds(a, n - 1), hold);
      LastStep(EMPTY_LEDGER, Refunds(a, n - 1) + [hold], SettleReservation(FreeSettlement(n - 1)));
    }
  }

  lemma {:induction false} FirstStep(c: Command)
    ensures Run(EMPTY_LEDGER, [c]) == Step(EMPTY_LEDGER, c)
  {
    LastStep(EMPTY_LEDGER, [], c);
    assert [] + [c] == [c];
  }

  // ----- What bounds it -----

  /** The amount a row counts for. */
  function SettledAmount(r: Reservation, a: AccountId): int {
    if Same(r.account, a) && r.status.Settled? then r.amount else 0
  }

  /** What was held of an account and has been settled since. */
  function SettledHolds(rs: seq<Reservation>, a: AccountId): int {
    if rs == [] then 0 else SettledHolds(rs[..|rs| - 1], a) + SettledAmount(rs[|rs| - 1], a)
  }

  lemma {:induction false} HoldAdds(rs: seq<Reservation>, r: Reservation, a: AccountId)
    ensures SettledHolds(rs + [r], a) == SettledHolds(rs, a) + SettledAmount(r, a)
  {
    assert (rs + [r])[..|rs|] == rs;
  }

  lemma {:induction false} ClosingAdds(rs: seq<Reservation>, row: nat, status: ReservationStatus, a: AccountId)
    requires row < |rs|
    ensures SettledHolds(Close(rs, row, status), a) ==
            SettledHolds(rs, a) - SettledAmount(rs[row], a) + SettledAmount(rs[row].(status := status), a)
  {
    var n := |rs| - 1;
    if row < n {
      assert Close(rs, row, status)[..n] == Close(rs[..n], row, status);
      ClosingAdds(rs[..n], row, status, a);
    } else {
      assert Close(rs, row, status)[..n] == rs[..n];
    }
  }

  /** No more was refunded than was held and settled. */
  predicate RefundsWithin(s: Ledger, a: AccountId) {
    Snap(s, a).refunded <= SettledHolds(s.reservations, a)
  }

  lemma {:induction false} SettleRefundsWithin(s: Ledger, p: SettleParams, a: AccountId)
    requires Books(s) && Settle(s, p).Done? && RefundsWithin(s, a)
    ensures RefundsWithin(Settle(s, p).state, a)
  {
    hide Books;
    if FindSettlement(s.settlements, p.key).None? {
      var r := s.reservations[p.reservation];
      ClosingAdds(s.reservations, p.reservation, Settled, a);
      ReservationHasAccount(s, p.reservation);
      SettledRefund(s, p, a);
    }
  }

  lemma {:induction false} SettledRefund(s: Ledger, p: SettleParams, a: AccountId)
    requires Settle(s, p).Done? && FindSettlement(s.settlements, p.key).None? && p.reservation < |s.reservations|
    ensures var r := s.reservations[p.reservation];
      var s' := Settle(s, p).state;
      && r.status.Open? && p.actual >= 0 && s'.reservations == Close(s.reservations, p.reservation, Settled)
      && (!Same(r.account, a) ==> Snap(s', a).refunded == Snap(s, a).refunded)
      && (Same(r.account, a) ==>
            Snap(s', a).refunded == Snap(s, a).refunded + if p.actual < r.amount then r.amount - p.actual else 0)
  {
  }

  lemma {:induction false} CreditRefundsWithin(s: Ledger, p: CreditParams, a: AccountId)
    requires Credit(s, p).Done? && RefundsWithin(s, a)
    ensures RefundsWithin(Credit(s, p).state, a)
  {
    hide SettledHolds, FindEntry, FindEvent, KeyOf;
  }

  lemma {:induction false} AdjustRefundsWithin(s: Ledger, p: AdjustParams, a: AccountId)
    requires Adjust(s, p).Done? && RefundsWithin(s, a)
    ensures RefundsWithin(Adjust(s, p).state, a)
  {
    hide SettledHolds, FindEntry, FindEvent, KeyOf;
  }

  lemma {:induction false} ReserveRefundsWithin(s: Ledger, p: ReserveParams, a: AccountId)
    requires Reserve(s, p).Done? && RefundsWithin(s, a)
    ensures RefundsWithin(Reserve(s, p).state, a)
  {
    hide SettledHolds, FindEntry, FindEvent, FindReservation;
    if FindReservation(s.reservations, p.key).None? {
      HoldAdds(s.reservations, NewReservation(p), a);
    }
  }

  lemma {:induction false} ReleaseRefundsWithin(s: Ledger, p: ReleaseParams, a: AccountId)
    requires Release(s, p).Done? && RefundsWithin(s, a)
    ensures RefundsWithin(Release(s, p).state, a)
  {
    hide SettledHolds, FindEntry, FindEvent, KeyOf;
    if s.reservations[p.reservation].status.Open? {
      ClosingAdds(s.reservations, p.reservation, Released, a);
    }
  }

  lemma {:induction false} SameRefunds(s: Ledger, s': Ledger, a: AccountId)
    requires RefundsWithin(s, a) && SameBalances(s, s') && s'.reservations == s.reservations
    ensures RefundsWithin(s', a)
  {
  }

  lemma {:induction false} StepRefundsWithin(s: Ledger, c: Command, a: AccountId)
    requires Books(s) && RefundsWithin(s, a)
    ensures RefundsWithin(Step(s, c), a)
  {
    hide Books, RefundsWithin, Ensure, Credit, Reserve, Release, Settle, Adjust, Attempt, RepairSnapshot, SameBalances;
    match c
    case EnsureAccount(p, id) =>
      EnsureTouchesNoBalance(s, p, id);
      SameRefunds(s, Step(s, c), a);
    case CreditAccount(p) =>
      if Credit(s, p).Done? { CreditRefundsWithin(s, p, a); }
    case CreateReservation(p) =>
      if Reserve(s, p).Done? { ReserveRefundsWithin(s, p, a); }
    case ReleaseReservation(p) =>
      if Release(s, p).Done? { ReleaseRefundsWithin(s, p, a); }
    case SettleReservation(p) =>
      if Settle(s, p).Done? { SettleRefundsWithin(s, p, a); }
    case RecordAdjustment(p) =>
      if Adjust(s, p).Done? { AdjustRefundsWithin(s, p, a); }
    case WorkerAttempt(i) =>
      AttemptKeepsBooks(s, i);
      AttemptKeepsReservations(s, i);
      SameRefunds(s, Step(s, c), a);
    case Repair(b) =>
      RepairKeepsReservations(s, b);
      SameRefunds(s, Step(s, c), a);
  }

  lemma {:induction false} AttemptKeepsReservations(s: Ledger, i: nat)
    ensures Attempt(s, i).reservations == s.reservations
  {
  }

  lemma {:induction false} RepairKeepsReservations(s: Ledger, a: AccountId)
    requires Books(s)
    ensures var s' := After(s, RepairSnapshot(s, a)); s'.reservations == s.reservations && SameBalances(s, s')
  {
    RebuildKeepsBooks(s, a);
  }

  /** So it fits wherever the holds that were settled do. */
  lemma {:induction false} RefundedWithinHolds(cs: seq<Command>, a: AccountId)
    ensures RefundsWithin(Run(EMPTY_LEDGER, cs), a)
  {
    hide Step, RefundsWithin, Books;
    if cs == [] {
      NothingRefunded(a);
    } else {
      var n := |cs| - 1;
      RefundedWithinHolds(cs[..n], a);
      ReachableBooks(cs[..n]);
      StepRefundsWithin(Run(EMPTY_LEDGER, cs[..n]), cs[n], a);
    }
  }

  lemma {:induction false} NothingRefunded(a: AccountId)
    ensures RefundsWithin(Run(EMPTY_LEDGER, []), a)
  {
  }

  lemma {:induction false} ReachableBooks(cs: seq<Command>)
    ensures Books(Run(EMPTY_LEDGER, cs))
  {
    ReachableIsConsistent(cs);
  }
}
