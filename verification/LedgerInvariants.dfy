/** What every ledger transaction keeps. */
module LedgerInvariants {
  import opened LedgerSchema
  import opened SnapshotAggregation
  import opened LedgerRuntime

  // ----- The invariant -----

  /** Every stored snapshot, and every missing one read as zero, is the sum over the history. */
  ghost predicate SnapshotsAgree(s: Ledger) {
    forall a: AccountId :: Snap(s, a) == Expected(s, a)
  }

  /** No balance is negative and what was granted is available, held or consumed. */
  predicate Sound(x: Snapshot) {
    x.available >= 0 && x.reserved >= 0 && x.consumed >= 0 && x.refunded >= 0 &&
    x.available + x.reserved + x.consumed == x.granted
  }

  predicate Balanced(snapshots: map<AccountId, Snapshot>) {
    forall a | a in snapshots :: Sound(snapshots[a])
  }

  lemma {:induction false} BalanceUpdated(snapshots: map<AccountId, Snapshot>, a: AccountId, x: Snapshot)
    requires Balanced(snapshots) && Sound(x)
    ensures Balanced(snapshots[a := x])
  {
  }

  predicate AccountsHaveSnapshots(s: Ledger) {
    forall i | 0 <= i < |s.accounts| :: s.accounts[i].id in s.snapshots
  }

  /** One account per owner, one owner per account. */
  predicate DistinctAccounts(accounts: seq<Account>) {
    forall i, j | 0 <= i < j < |accounts| ::
      !Same(accounts[i].id, accounts[j].id) && accounts[i].owner != accounts[j].owner
  }

  predicate ReservationRows(rs: seq<Reservation>) {
    && (forall i | 0 <= i < |rs| :: rs[i].amount > 0 && !rs[i].status.Expired? && |rs[i].account| > 0)
    && (forall i, j | 0 <= i < j < |rs| :: !Same(rs[i].key, rs[j].key))
  }

  predicate SettlementRow(t: Settlement, rs: seq<Reservation>) {
    && t.reservation < |rs| && rs[t.reservation].status.Settled?
    && t.status.Completed? && t.actual >= 0 && t.delta == t.actual - rs[t.reservation].amount
  }

  /** Settlements and settled reservations correspond one to one. */
  ghost predicate SettlementRows(ss: seq<Settlement>, rs: seq<Reservation>) {
    && (forall i | 0 <= i < |ss| :: SettlementRow(ss[i], rs))
    && (forall i, j | 0 <= i < j < |ss| :: ss[i].reservation != ss[j].reservation && !Same(ss[i].key, ss[j].key))
    && (forall r | 0 <= r < |rs| && rs[r].status.Settled? :: IsSettled(ss, r))
  }

  ghost predicate IsSettled(ss: seq<Settlement>, r: nat) {
    exists t | 0 <= t < |ss| :: ss[t].reservation == r
  }

  /** The entry stands on the account of the settled reservation. */
  predicate OnAccountOf(e: Entry, t: Settlement, rs: seq<Reservation>) {
    t.reservation < |rs| && Same(e.account, rs[t.reservation].account)
  }

  predicate EntryRow(e: Entry, rs: seq<Reservation>, ss: seq<Settlement>) {
    match e.entryType
    case GrantCredit => e.reference.External? && e.direction.CreditSide? && e.amount > 0
    case Adjustment => e.reference.External? && e.direction.CreditSide? && e.amount == 0
    case ReserveHold =>
      e.reference.ToReservation? && e.reference.row < |rs| && e.direction.DebitSide? &&
      Same(e.account, rs[e.reference.row].account) && e.amount == rs[e.reference.row].amount
    case ReserveRelease =>
      e.reference.ToReservation? && e.reference.row < |rs| && e.direction.CreditSide? &&
      rs[e.reference.row].status.Released? &&
      Same(e.account, rs[e.reference.row].account) && e.amount == rs[e.reference.row].amount
    case SettleDebit =>
      e.reference.ToSettlement? && e.reference.row < |ss| && e.direction.DebitSide? &&
      e.amount == ss[e.reference.row].delta > 0 &&
      OnAccountOf(e, ss[e.reference.row], rs)
    case SettleCredit =>
      e.reference.ToSettlement? && e.reference.row < |ss| && e.direction.CreditSide? &&
      e.amount == -ss[e.reference.row].delta > 0 &&
      OnAccountOf(e, ss[e.reference.row], rs)
  }

  predicate EntryRows(es: seq<Entry>, rs: seq<Reservation>, ss: seq<Settlement>) {
    && (forall i | 0 <= i < |es| :: EntryRow(es[i], rs, ss))
    && (forall i, j | 0 <= i < j < |es| :: !Same(es[i].key, es[j].key))
    && (forall i, j | 0 <= i < j < |es| && es[i].entryType.ReserveRelease? && es[j].entryType.ReserveRelease? ::
          es[i].reference != es[j].reference)
  }

  /** An entry records the available balance of its account right after it was posted. */
  predicate RunningBalances(es: seq<Entry>) {
    forall i | 0 <= i < |es| ::
      es[i].balanceAfter == if es[i].entryType.Adjustment? then None else Some(AvailableOf(es[..i + 1], es[i].account))
  }

  /** An entry moves money of reservation r: its hold, its release or its settlement's difference. */
  predicate Belongs(e: Entry, ss: seq<Settlement>, r: nat) {
    match e.reference
    case ToReservation(row) => row == r
    case ToSettlement(row) => row < |ss| && ss[row].reservation == r
    case External(_, _) => false
  }

  function NetOf(es: seq<Entry>, ss: seq<Settlement>, r: nat): int {
    if es == [] then 0 else
      var e := es[|es| - 1];
      NetOf(es[..|es| - 1], ss, r) + if Belongs(e, ss, r) then Signed(e) else 0
  }

  /** What a reservation has cost its account so far, read off its entries. */
  predicate Nets(s: Ledger) {
    && (forall r | 0 <= r < |s.reservations| ::
          (s.reservations[r].status.Open? ==> NetOf(s.entries, s.settlements, r) == -s.reservations[r].amount) &&
          (s.reservations[r].status.Released? ==> NetOf(s.entries, s.settlements, r) == 0))
    && (forall t | 0 <= t < |s.settlements| ::
          NetOf(s.entries, s.settlements, s.settlements[t].reservation) == -s.settlements[t].actual)
  }

  /** The ledger's invariant, part by part. */
  datatype Part = Agreement | Conservation | AccountRows | Reservations | Settlements | Entries | Running | Charges

  ghost predicate Holds(part: Part, s: Ledger) {
    match part
    case Agreement => SnapshotsAgree(s)
    case Conservation => Balanced(s.snapshots)
    case AccountRows => AccountsHaveSnapshots(s) && DistinctAccounts(s.accounts)
    case Reservations => ReservationRows(s.reservations)
    case Settlements => SettlementRows(s.settlements, s.reservations)
    case Entries => EntryRows(s.entries, s.reservations, s.settlements)
    case Running => RunningBalances(s.entries)
    case Charges => Nets(s)
  }

  ghost predicate Books(s: Ledger) {
    forall part: Part :: Holds(part, s)
  }

  // ----- Nets -----

  lemma {:induction false} NetAppended(es: seq<Entry>, e: Entry, ss: seq<Settlement>, r: nat)
    ensures NetOf(es + [e], ss, r) == NetOf(es, ss, r) + if Belongs(e, ss, r) then Signed(e) else 0
  {
    assert (es + [e])[..|es|] == es;
  }

  /** A new settlement has no entries yet, so no net moves. */
  lemma {:induction false} NetKeptBySettlement(es: seq<Entry>, ss: seq<Settlement>, t: Settlement, r: nat)
    requires forall i | 0 <= i < |es| && es[i].reference.ToSettlement? :: es[i].reference.row < |ss|
    ensures NetOf(es, ss + [t], r) == NetOf(es, ss, r)
  {
    if es != [] {
      NetKeptBySettlement(es[..|es| - 1], ss, t, r);
    }
  }

  /** Nothing has been posted yet for the reservation that is about to be created. */
  lemma {:induction false} NetStartsAtZero(es: seq<Entry>, ss: seq<Settlement>, r: nat)
    requires forall i | 0 <= i < |es| :: !Belongs(es[i], ss, r)
    ensures NetOf(es, ss, r) == 0
  {
    if es != [] {
      NetStartsAtZero(es[..|es| - 1], ss, r);
    }
  }

  // ----- One transaction after the other -----

  lemma {:induction false} RunningBalanceAppended(es: seq<Entry>, e: Entry)
    requires RunningBalances(es)
    requires e.balanceAfter == if e.entryType.Adjustment? then None else Some(AvailableOf(es, e.account) + Signed(e))
    ensures RunningBalances(es + [e])
  {
    EntryAppended(es, e, e.account);
    forall i | 0 <= i < |es + [e]|
      ensures (es + [e])[i].balanceAfter ==
              if (es + [e])[i].entryType.Adjustment? then None
              else Some(AvailableOf((es + [e])[..i + 1], (es + [e])[i].account))
    {
      if i < |es| {
        assert (es + [e])[..i + 1] == es[..i + 1];
      } else {
        assert (es + [e])[..i + 1] == es + [e];
      }
    }
  }

  // ----- Opening an account -----

  predicate SameHistory(s: Ledger, s': Ledger) {
    s'.entries == s.entries && s'.reservations == s.reservations && s'.settlements == s.settlements
  }

  ghost predicate SameBalances(s: Ledger, s': Ledger) {
    forall a: AccountId :: Snap(s', a) == Snap(s, a)
  }

  lemma {:induction false} EnsureTouchesNoBalance(s: Ledger, p: EnsureParams, newId: AccountId)
    ensures var s' := After(s, Ensure(s, p, newId)); SameHistory(s, s') && SameBalances(s, s')
  {
  }

  lemma {:induction false} EnsureKeepsRows(s: Ledger, p: EnsureParams, newId: AccountId)
    ensures var s' := After(s, Ensure(s, p, newId));
      && (AccountsHaveSnapshots(s) ==> AccountsHaveSnapshots(s'))
      && (Balanced(s.snapshots) ==> Balanced(s'.snapshots))
  {
  }

  lemma {:induction false} EnsureKeepsAccountsDistinct(s: Ledger, p: EnsureParams, newId: AccountId)
    requires DistinctAccounts(s.accounts)
    ensures DistinctAccounts(After(s, Ensure(s, p, newId)).accounts)
  {
  }

  lemma {:induction false} AgreementKept(s: Ledger, s': Ledger)
    requires SameHistory(s, s') && SameBalances(s, s') && SnapshotsAgree(s)
    ensures SnapshotsAgree(s')
  {
    forall a: AccountId ensures Snap(s', a) == Expected(s', a) {
      assert Snap(s, a) == Expected(s, a);
    }
  }

  lemma {:induction false} EnsureKeepsBooks(s: Ledger, p: EnsureParams, newId: AccountId)
    requires Books(s)
    ensures Books(After(s, Ensure(s, p, newId)))
  {
    var s' := After(s, Ensure(s, p, newId));
    EnsureTouchesNoBalance(s, p, newId);
    EnsureKeepsRows(s, p, newId);
    forall part: Part ensures Holds(part, s') {
      assert Holds(part, s);
      if part == Agreement {
        AgreementKept(s, s');
      } else if part == AccountRows {
        EnsureKeepsAccountsDistinct(s, p, newId);
      }
    }
  }

  // ----- Credits and adjustments: one entry, no reservation -----

  /** The entry of a credit or an adjustment, given the balance before it. */
  predicate GrantRow(e: Entry, before: Snapshot) {
    && e.reference.External? && e.direction.CreditSide?
    && ((e.entryType.GrantCredit? && e.amount > 0 && e.balanceAfter == Some(before.available + e.amount)) ||
        (e.entryType.Adjustment? && e.amount == 0 && e.balanceAfter == None))
  }

  /** s' is s after a credit or an adjustment posted entry e. */
  predicate Posted(s: Ledger, s': Ledger, e: Entry) {
    && s'.entries == s.entries + [e] && s'.accounts == s.accounts
    && s'.reservations == s.reservations && s'.settlements == s.settlements
    && GrantRow(e, Snap(s, e.account)) && FindEntry(s.entries, e.key).None?
    && s'.snapshots ==
       if e.entryType.Adjustment? then s.snapshots
       else s.snapshots[e.account := Granted(Snap(s, e.account), e.amount)]
  }

  lemma {:induction false} CreditPosts(s: Ledger, p: CreditParams)
    requires Credit(s, p).Done? && FindEntry(s.entries, KeyOf(p.key)).None?
    ensures Posted(s, Credit(s, p).state, GrantEntry(p, Snap(s, p.account).available + p.amount))
  {
  }

  lemma {:induction false} AdjustPosts(s: Ledger, p: AdjustParams)
    requires Adjust(s, p).Done? && FindEntry(s.entries, KeyOf(p.key)).None?
    ensures Posted(s, Adjust(s, p).state, AdjustmentEntry(p))
  {
  }

  lemma {:induction false} PostingKeepsAgreement(s: Ledger, s': Ledger, e: Entry)
    requires SnapshotsAgree(s) && Posted(s, s', e)
    ensures SnapshotsAgree(s')
  {
    forall a: AccountId ensures Snap(s', a) == Expected(s', a) {
      assert Snap(s, a) == Expected(s, a);
      EntryAppended(s.entries, e, a);
    }
  }

  lemma {:induction false} GrantIsSound(x: Snapshot, amount: int)
    requires Sound(x) && amount > 0
    ensures Sound(Granted(x, amount))
  {
  }

  lemma {:induction false} PostingKeepsBalance(s: Ledger, s': Ledger, e: Entry)
    requires Balanced(s.snapshots) && Posted(s, s', e)
    ensures Balanced(s'.snapshots)
  {
    if e.entryType.GrantCredit? {
      GrantIsSound(Snap(s, e.account), e.amount);
      BalanceUpdated(s.snapshots, e.account, Granted(Snap(s, e.account), e.amount));
    }
  }

  lemma {:induction false} PostingKeepsEntries(s: Ledger, s': Ledger, e: Entry)
    requires EntryRows(s.entries, s.reservations, s.settlements) && Posted(s, s', e)
    ensures EntryRows(s'.entries, s'.reservations, s'.settlements)
  {
  }

  lemma {:induction false} PostingKeepsRunning(s: Ledger, s': Ledger, e: Entry)
    requires SnapshotsAgree(s) && RunningBalances(s.entries) && Posted(s, s', e)
    ensures RunningBalances(s'.entries)
  {
    assert Snap(s, e.account) == Expected(s, e.account);
    RunningBalanceAppended(s.entries, e);
  }

  lemma {:induction false} PostingKeepsNets(s: Ledger, s': Ledger, e: Entry)
    requires Nets(s) && Posted(s, s', e)
    ensures Nets(s')
  {
    forall r: nat ensures NetOf(s'.entries, s'.settlements, r) == NetOf(s.entries, s.settlements, r) {
      NetAppended(s.entries, e, s.settlements, r);
    }
  }

  lemma {:induction false} PostingKeepsBooks(s: Ledger, s': Ledger, e: Entry)
    requires Books(s) && Posted(s, s', e)
    ensures Books(s')
  {
    assert Holds(Agreement, s) && Holds(Running, s);
    forall part: Part ensures Holds(part, s') {
      assert Holds(part, s);
      match part
      case Agreement => PostingKeepsAgreement(s, s', e);
      case Conservation => PostingKeepsBalance(s, s', e);
      case AccountRows =>
      case Reservations =>
      case Settlements =>
      case Entries => PostingKeepsEntries(s, s', e);
      case Running => PostingKeepsRunning(s, s', e);
      case Charges => PostingKeepsNets(s, s', e);
    }
  }

  lemma {:induction false} CreditKeepsBooks(s: Ledger, p: CreditParams)
    requires Books(s)
    ensures Books(After(s, Credit(s, p)))
  {
    var o := Credit(s, p);
    if o.Done? && FindEntry(s.entries, KeyOf(p.key)).None? {
      CreditPosts(s, p);
      PostingKeepsBooks(s, o.state, GrantEntry(p, Snap(s, p.account).available + p.amount));
    }
  }

  lemma {:induction false} AdjustKeepsBooks(s: Ledger, p: AdjustParams)
    requires Books(s)
    ensures Books(After(s, Adjust(s, p)))
  {
    var o := Adjust(s, p);
    if o.Done? && FindEntry(s.entries, KeyOf(p.key)).None? {
      AdjustPosts(s, p);
      PostingKeepsBooks(s, o.state, AdjustmentEntry(p));
    }
  }

  // ----- Reservations: a new row and its hold -----

  function HoldOf(s: Ledger, r: Reservation): Entry {
    HoldEntry(r, |s.reservations|, Snap(s, r.account).available - r.amount)
  }

  predicate CanOpen(s: Ledger, r: Reservation) {
    && r.status.Open? && |r.account| > 0 && 0 < r.amount <= Snap(s, r.account).available
    && FindReservation(s.reservations, r.key).None? && FindEntry(s.entries, Derived(r.key)).None?
  }

  /** s' is s after reservation r was opened and its hold posted. */
  predicate Opened(s: Ledger, s': Ledger, r: Reservation) {
    && s'.accounts == s.accounts && s'.settlements == s.settlements
    && s'.reservations == s.reservations + [r]
    && s'.entries == s.entries + [HoldOf(s, r)]
    && s'.snapshots == s.snapshots[r.account := Held(Snap(s, r.account), r.amount)]
  }

  lemma {:induction false} ReserveOpens(s: Ledger, p: ReserveParams)
    requires Reserve(s, p).Done? && FindReservation(s.reservations, p.key).None?
    ensures CanOpen(s, NewReservation(p)) && Opened(s, Reserve(s, p).state, NewReservation(p))
  {
  }

  lemma {:induction false} OpenKeepsAgreement(s: Ledger, s': Ledger, r: Reservation)
    requires SnapshotsAgree(s) && SettlementRows(s.settlements, s.reservations) && CanOpen(s, r) && Opened(s, s', r)
    ensures SnapshotsAgree(s')
  {
    forall a: AccountId ensures Snap(s', a) == Expected(s', a) {
      assert Snap(s, a) == Expected(s, a);
      EntryAppended(s.entries, HoldOf(s, r), a);
      ReservationAppended(s.reservations, r, a);
      SettlementSumsKept(s.settlements, s.reservations, s'.reservations, a);
    }
  }

  lemma {:induction false} HoldIsSound(x: Snapshot, amount: int)
    requires Sound(x) && 0 < amount <= x.available
    ensures Sound(Held(x, amount))
  {
  }

  lemma {:induction false} OpenKeepsBalance(s: Ledger, s': Ledger, r: Reservation)
    requires Balanced(s.snapshots) && CanOpen(s, r) && Opened(s, s', r)
    ensures Balanced(s'.snapshots)
  {
    HoldIsSound(Snap(s, r.account), r.amount);
    BalanceUpdated(s.snapshots, r.account, Held(Snap(s, r.account), r.amount));
  }

  lemma {:induction false} OpenKeepsSettlements(s: Ledger, s': Ledger, r: Reservation)
    requires SettlementRows(s.settlements, s.reservations) && CanOpen(s, r) && Opened(s, s', r)
    ensures SettlementRows(s'.settlements, s'.reservations)
  {
    forall i | 0 <= i < |s.settlements| ensures SettlementRow(s.settlements[i], s'.reservations) {
      assert SettlementRow(s.settlements[i], s.reservations);
    }
  }

  lemma {:induction false} OpenKeepsEntries(s: Ledger, s': Ledger, r: Reservation)
    requires EntryRows(s.entries, s.reservations, s.settlements) && CanOpen(s, r) && Opened(s, s', r)
    ensures EntryRows(s'.entries, s'.reservations, s'.settlements)
  {
    forall i | 0 <= i < |s.entries| ensures EntryRow(s.entries[i], s'.reservations, s'.settlements) {
      assert EntryRow(s.entries[i], s.reservations, s.settlements);
    }
  }

  lemma {:induction false} OpenKeepsRunning(s: Ledger, s': Ledger, r: Reservation)
    requires SnapshotsAgree(s) && RunningBalances(s.entries) && Opened(s, s', r)
    ensures RunningBalances(s'.entries)
  {
    assert Snap(s, r.account) == Expected(s, r.account);
    RunningBalanceAppended(s.entries, HoldOf(s, r));
  }

  lemma {:induction false} OpenKeepsNets(s: Ledger, s': Ledger, r: Reservation)
    requires Nets(s) && SettlementRows(s.settlements, s.reservations)
    requires EntryRows(s.entries, s.reservations, s.settlements)
    requires CanOpen(s, r) && Opened(s, s', r)
    ensures Nets(s')
  {
    var row := |s.reservations|;
    forall q: nat
      ensures NetOf(s'.entries, s'.settlements, q) ==
              NetOf(s.entries, s.settlements, q) - if q == row then r.amount else 0
    {
      NetAppended(s.entries, HoldOf(s, r), s.settlements, q);
    }
    forall i | 0 <= i < |s.entries| ensures !Belongs(s.entries[i], s.settlements, row) {
      assert EntryRow(s.entries[i], s.reservations, s.settlements);
    }
    NetStartsAtZero(s.entries, s.settlements, row);
  }

  lemma {:induction false} ReserveKeepsBooks(s: Ledger, p: ReserveParams)
    requires Books(s)
    ensures Books(After(s, Reserve(s, p)))
  {
    var o := Reserve(s, p);
    if o.Done? && FindReservation(s.reservations, p.key).None? {
      ReserveOpens(s, p);
      OpenKeepsBooks(s, o.state, NewReservation(p));
    }
  }

  lemma {:induction false} OpenKeepsBooks(s: Ledger, s': Ledger, r: Reservation)
    requires Books(s) && CanOpen(s, r) && Opened(s, s', r)
    ensures Books(s')
  {
    assert Holds(Agreement, s) && Holds(Settlements, s) && Holds(Entries, s);
    forall part: Part ensures Holds(part, s') {
      assert Holds(part, s);
      match part
      case Agreement => OpenKeepsAgreement(s, s', r);
      case Conservation => OpenKeepsBalance(s, s', r);
      case AccountRows =>
      case Reservations =>
      case Settlements => OpenKeepsSettlements(s, s', r);
      case Entries => OpenKeepsEntries(s, s', r);
      case Running => OpenKeepsRunning(s, s', r);
      case Charges => OpenKeepsNets(s, s', r);
    }
  }

  // ----- Releases: the hold goes back -----

  /** s' is s after the open reservation in the given row was released. */
  predicate ReleasedRow(s: Ledger, s': Ledger, p: ReleaseParams) {
    && p.reservation < |s.reservations|
    && var r := s.reservations[p.reservation];
    && var before := Snap(s, r.account);
    && r.status.Open? && FindEntry(s.entries, KeyOf(p.key)).None?
    && s'.accounts == s.accounts && s'.settlements == s.settlements
    && s'.reservations == Close(s.reservations, p.reservation, Released)
    && s'.entries == s.entries + [ReleaseEntry(r, p, before.available + r.amount)]
    && s'.snapshots == s.snapshots[r.account := Freed(before, r.amount)]
  }

  /** A release entry for an open reservation does not exist, so that branch is never taken;
      and no hold is larger than the reserved balance, so neither is the underflow branch. */
  lemma {:induction false} OpenReservationIsUnreleased(s: Ledger, row: nat, i: nat)
    requires Books(s) && row < |s.reservations| && s.reservations[row].status.Open? && i < |s.entries|
    ensures !(s.entries[i].entryType.ReserveRelease? && s.entries[i].reference == ToReservation(row))
  {
    assert Holds(Entries, s);
    assert EntryRow(s.entries[i], s.reservations, s.settlements);
  }

  lemma {:induction false} NoReservedUnderflow(s: Ledger, row: nat)
    requires Books(s) && row < |s.reservations| && s.reservations[row].status.Open?
    ensures s.reservations[row].amount <= Snap(s, s.reservations[row].account).reserved
  {
    var a := s.reservations[row].account;
    assert Holds(Agreement, s) && Holds(Reservations, s);
    assert Snap(s, a) == Expected(s, a);
    ReservedCovers(s.reservations, row);
  }

  /** So neither underflow error is ever reported. */
  lemma {:induction false} NeverUnderflows(s: Ledger, p: ReleaseParams, q: SettleParams)
    requires Books(s)
    ensures Release(s, p) != Failed(ReservedUnderflow)
    ensures Settle(s, q) != Failed(ReservedUnderflow)
  {
    if p.reservation < |s.reservations| && s.reservations[p.reservation].status.Open? {
      NoReservedUnderflow(s, p.reservation);
    }
    if q.reservation < |s.reservations| && s.reservations[q.reservation].status.Open? {
      NoReservedUnderflow(s, q.reservation);
    }
  }

  lemma {:induction false} ReleaseCloses(s: Ledger, p: ReleaseParams)
    requires Release(s, p).Done? && !s.reservations[p.reservation].status.Released?
    requires FindEntry(s.entries, KeyOf(p.key)).None?
    ensures ReleasedRow(s, Release(s, p).state, p)
  {
  }

  lemma {:induction false} CloseKeepsOwners(rs: seq<Reservation>, row: nat, status: ReservationStatus)
    requires row < |rs|
    ensures KeepsOwners(rs, Close(rs, row, status))
  {
  }

  lemma {:induction false} ReleaseKeepsAgreement(s: Ledger, s': Ledger, p: ReleaseParams)
    requires SnapshotsAgree(s) && SettlementRows(s.settlements, s.reservations) && ReleasedRow(s, s', p)
    ensures SnapshotsAgree(s')
  {
    var r := s.reservations[p.reservation];
    CloseKeepsOwners(s.reservations, p.reservation, Released);
    forall a: AccountId ensures Snap(s', a) == Expected(s', a) {
      assert Snap(s, a) == Expected(s, a);
      EntryAppended(s.entries, ReleaseEntry(r, p, Snap(s, r.account).available + r.amount), a);
      ReservationClosed(s.reservations, p.reservation, Released, a);
      SettlementSumsKept(s.settlements, s.reservations, s'.reservations, a);
    }
  }

  lemma {:induction false} FreeingIsSound(x: Snapshot, amount: int)
    requires Sound(x) && 0 < amount <= x.reserved
    ensures Sound(Freed(x, amount))
  {
  }

  lemma {:induction false} ReleaseKeepsBalance(s: Ledger, s': Ledger, p: ReleaseParams)
    requires Balanced(s.snapshots) && ReleasedRow(s, s', p)
    requires var r := s.reservations[p.reservation]; 0 < r.amount <= Snap(s, r.account).reserved
    ensures Balanced(s'.snapshots)
  {
    var r := s.reservations[p.reservation];
    FreeingIsSound(Snap(s, r.account), r.amount);
    BalanceUpdated(s.snapshots, r.account, Freed(Snap(s, r.account), r.amount));
  }

  lemma {:induction false} ClosingKeepsReservations(rs: seq<Reservation>, row: nat, status: ReservationStatus)
    requires ReservationRows(rs) && row < |rs| && !status.Expired?
    ensures ReservationRows(Close(rs, row, status))
  {
  }

  lemma {:induction false} ReleaseKeepsSettlements(ss: seq<Settlement>, rs: seq<Reservation>, row: nat)
    requires SettlementRows(ss, rs) && row < |rs| && rs[row].status.Open?
    ensures SettlementRows(ss, Close(rs, row, Released))
  {
    var rs' := Close(rs, row, Released);
    forall i | 0 <= i < |ss| ensures SettlementRow(ss[i], rs') {
      assert SettlementRow(ss[i], rs);
    }
  }

  lemma {:induction false} ReleaseKeepsEntries(s: Ledger, s': Ledger, p: ReleaseParams)
    requires EntryRows(s.entries, s.reservations, s.settlements) && ReleasedRow(s, s', p)
    ensures EntryRows(s'.entries, s'.reservations, s'.settlements)
  {
    forall i | 0 <= i < |s.entries|
      ensures EntryRow(s.entries[i], s'.reservations, s'.settlements)
      ensures !(s.entries[i].entryType.ReserveRelease? && s.entries[i].reference == ToReservation(p.reservation))
    {
      assert EntryRow(s.entries[i], s.reservations, s.settlements);
    }
  }

  lemma {:induction false} ReleaseKeepsRunning(s: Ledger, s': Ledger, p: ReleaseParams)
    requires SnapshotsAgree(s) && RunningBalances(s.entries) && ReleasedRow(s, s', p)
    ensures RunningBalances(s'.entries)
  {
    var r := s.reservations[p.reservation];
    assert Snap(s, r.account) == Expected(s, r.account);
    RunningBalanceAppended(s.entries, ReleaseEntry(r, p, Snap(s, r.account).available + r.amount));
  }

  lemma {:induction false} ReleaseKeepsNets(s: Ledger, s': Ledger, p: ReleaseParams)
    requires Nets(s) && SettlementRows(s.settlements, s.reservations) && ReleasedRow(s, s', p)
    ensures Nets(s')
  {
    var row := p.reservation;
    var r := s.reservations[row];
    var e := ReleaseEntry(r, p, Snap(s, r.account).available + r.amount);
    forall q: nat
      ensures NetOf(s'.entries, s'.settlements, q) ==
              NetOf(s.entries, s.settlements, q) + if q == row then r.amount else 0
    {
      NetAppended(s.entries, e, s.settlements, q);
    }
    forall t | 0 <= t < |s.settlements| ensures s.settlements[t].reservation != row {
      assert SettlementRow(s.settlements[t], s.reservations);
    }
  }

  lemma {:induction false} ReleaseKeepsBooks(s: Ledger, p: ReleaseParams)
    requires Books(s)
    ensures Books(After(s, Release(s, p)))
  {
    var o := Release(s, p);
    if o.Done? && !s.reservations[p.reservation].status.Released? {
      var found := FindEntry(s.entries, KeyOf(p.key));
      if found.Some? {
        OpenReservationIsUnreleased(s, p.reservation, found.value);
      } else {
        ReleaseCloses(s, p);
        ReleasedRowKeepsBooks(s, o.state, p);
      }
    }
  }

  lemma {:induction false} ReleasedRowKeepsBooks(s: Ledger, s': Ledger, p: ReleaseParams)
    requires Books(s) && ReleasedRow(s, s', p)
    ensures Books(s')
  {
    assert Holds(Agreement, s) && Holds(Settlements, s) && Holds(Reservations, s);
    NoReservedUnderflow(s, p.reservation);
    forall part: Part ensures Holds(part, s') {
      assert Holds(part, s);
      match part
      case Agreement => ReleaseKeepsAgreement(s, s', p);
      case Conservation => ReleaseKeepsBalance(s, s', p);
      case AccountRows =>
      case Reservations => ClosingKeepsReservations(s.reservations, p.reservation, Released);
      case Settlements => ReleaseKeepsSettlements(s.settlements, s.reservations, p.reservation);
      case Entries => ReleaseKeepsEntries(s, s', p);
      case Running => ReleaseKeepsRunning(s, s', p);
      case Charges => ReleaseKeepsNets(s, s', p);
    }
  }

  // ----- Settlements: the hold becomes the charge -----

  /** s' is s after the open reservation was settled. */
  predicate SettledRow(s: Ledger, s': Ledger, p: SettleParams) {
    && p.reservation < |s.reservations| && p.actual >= 0
    && var r := s.reservations[p.reservation];
    && var before := Snap(s, r.account);
    && var delta := p.actual - r.amount;
    && var t := NewSettlement(p, delta);
    && var es := SettleEntries(r.account, t, |s.settlements|, before.available - delta);
    && r.status.Open? && (delta <= 0 || delta <= before.available)
    && FindSettlement(s.settlements, p.key).None? && (es != [] ==> FindEntry(s.entries, Derived(p.key)).None?)
    && s'.accounts == s.accounts && s'.settlements == s.settlements + [t]
    && s'.reservations == Close(s.reservations, p.reservation, Settled)
    && s'.entries == s.entries + es
    && s'.snapshots == s.snapshots[r.account := Charged(before, r.amount, p.actual)]
  }

  lemma {:induction false} SettleCharges(s: Ledger, p: SettleParams)
    requires Settle(s, p).Done? && FindSettlement(s.settlements, p.key).None?
    ensures SettledRow(s, Settle(s, p).state, p)
  {
  }

  /** How closing row t.reservation with settlement t moves the sums over reservations and settlements. */
  lemma {:induction false} SettledSums(ss: seq<Settlement>, rs: seq<Reservation>, t: Settlement, a: AccountId)
    requires SettlementRows(ss, rs) && t.reservation < |rs| && rs[t.reservation].status.Open? && t.status.Completed?
    ensures var r := rs[t.reservation];
      var rs' := Close(rs, t.reservation, Settled);
      && ReservedOf(rs', a) == ReservedOf(rs, a) - (if Same(r.account, a) then r.amount else 0)
      && ConsumedOf(ss + [t], rs', a) == ConsumedOf(ss, rs, a) + (if Same(r.account, a) then t.actual else 0)
      && RefundedOf(ss + [t], rs', a) ==
         RefundedOf(ss, rs, a) + (if Same(r.account, a) && t.delta < 0 then -t.delta else 0)
  {
    var rs' := Close(rs, t.reservation, Settled);
    CloseKeepsOwners(rs, t.reservation, Settled);
    ReservationClosed(rs, t.reservation, Settled, a);
    SettlementSumsKept(ss, rs, rs', a);
    SettlementAppended(ss, t, rs', a);
  }

  lemma {:induction false} SettledExpectation(s: Ledger, s': Ledger, t: Settlement, balance: int, a: AccountId)
    requires SettlementRows(s.settlements, s.reservations) && t.reservation < |s.reservations| && t.status.Completed?
    requires var r := s.reservations[t.reservation]; r.status.Open? && t.delta == t.actual - r.amount
    requires s'.settlements == s.settlements + [t]
    requires s'.reservations == Close(s.reservations, t.reservation, Settled)
    requires s'.entries == s.entries + SettleEntries(s.reservations[t.reservation].account, t, |s.settlements|, balance)
    ensures var r := s.reservations[t.reservation];
      Expected(s', a) == if Same(r.account, a) then Charged(Expected(s, a), r.amount, t.actual) else Expected(s, a)
  {
    SettleEntriesMove(s, t, s.reservations[t.reservation].account, balance, a);
    SettledSums(s.settlements, s.reservations, t, a);
  }

  lemma {:induction false} SettleKeepsAgreement(s: Ledger, s': Ledger, p: SettleParams)
    requires SnapshotsAgree(s) && SettlementRows(s.settlements, s.reservations) && SettledRow(s, s', p)
    ensures SnapshotsAgree(s')
  {
    var r := s.reservations[p.reservation];
    var delta := p.actual - r.amount;
    forall a: AccountId ensures Snap(s', a) == Expected(s', a) {
      assert Snap(s, a) == Expected(s, a);
      SettledExpectation(s, s', NewSettlement(p, delta), Snap(s, r.account).available - delta, a);
    }
  }

  lemma {:induction false} SettleEntriesMove(s: Ledger, t: Settlement, b: AccountId, balance: int, a: AccountId)
    ensures var es := s.entries + SettleEntries(b, t, |s.settlements|, balance);
      && AvailableOf(es, a) == AvailableOf(s.entries, a) - (if Same(b, a) then t.delta else 0)
      && GrantedOf(es, a) == GrantedOf(s.entries, a)
  {
    var added := SettleEntries(b, t, |s.settlements|, balance);
    if added == [] {
      assert s.entries + added == s.entries;
    } else {
      EntryAppended(s.entries, added[0], a);
    }
  }

  lemma {:induction false} ChargeIsSound(x: Snapshot, amount: int, actual: int)
    requires Sound(x) && 0 < amount <= x.reserved && 0 <= actual && (actual <= amount || actual - amount <= x.available)
    ensures Sound(Charged(x, amount, actual))
  {
  }

  lemma {:induction false} SettleKeepsBalance(s: Ledger, s': Ledger, p: SettleParams)
    requires Balanced(s.snapshots) && SettledRow(s, s', p)
    requires var r := s.reservations[p.reservation]; 0 < r.amount <= Snap(s, r.account).reserved
    ensures Balanced(s'.snapshots)
  {
    var r := s.reservations[p.reservation];
    ChargeIsSound(Snap(s, r.account), r.amount, p.actual);
    BalanceUpdated(s.snapshots, r.account, Charged(Snap(s, r.account), r.amount, p.actual));
  }

  lemma {:induction false} SettleKeepsSettlements(ss: seq<Settlement>, rs: seq<Reservation>, t: Settlement)
    requires SettlementRows(ss, rs) && t.reservation < |rs| && rs[t.reservation].status.Open?
    requires t.status.Completed? && t.actual >= 0 && t.delta == t.actual - rs[t.reservation].amount
    requires FindSettlement(ss, t.key).None?
    ensures SettlementRows(ss + [t], Close(rs, t.reservation, Settled))
  {
    var rs' := Close(rs, t.reservation, Settled);
    forall i | 0 <= i < |ss| ensures SettlementRow(ss[i], rs') && ss[i].reservation != t.reservation {
      assert SettlementRow(ss[i], rs);
    }
    forall r | 0 <= r < |rs'| && rs'[r].status.Settled? ensures IsSettled(ss + [t], r) {
      if r == t.reservation {
        assert (ss + [t])[|ss|].reservation == r;
      } else {
        assert IsSettled(ss, r);
        var i :| 0 <= i < |ss| && ss[i].reservation == r;
        assert (ss + [t])[i].reservation == r;
      }
    }
  }

  lemma {:induction false} SettlingKeepsRows(es: seq<Entry>, rs: seq<Reservation>, ss: seq<Settlement>, row: nat,
                                             ss': seq<Settlement>)
    requires row < |rs| && rs[row].status.Open? && ss <= ss' && forall i | 0 <= i < |es| :: EntryRow(es[i], rs, ss)
    ensures forall i | 0 <= i < |es| :: EntryRow(es[i], Close(rs, row, Settled), ss')
  {
    forall i | 0 <= i < |es| ensures EntryRow(es[i], Close(rs, row, Settled), ss') {
      assert EntryRow(es[i], rs, ss);
    }
  }

  lemma {:induction false} SettleKeepsEntries(s: Ledger, s': Ledger, p: SettleParams)
    requires EntryRows(s.entries, s.reservations, s.settlements) && SettledRow(s, s', p)
    ensures EntryRows(s'.entries, s'.reservations, s'.settlements)
  {
    SettlingKeepsRows(s.entries, s.reservations, s.settlements, p.reservation, s'.settlements);
  }

  lemma {:induction false} SettleEntriesRun(es: seq<Entry>, a: AccountId, t: Settlement, row: nat)
    requires RunningBalances(es)
    ensures RunningBalances(es + SettleEntries(a, t, row, AvailableOf(es, a) - t.delta))
  {
    var added := SettleEntries(a, t, row, AvailableOf(es, a) - t.delta);
    if added == [] {
      assert es + added == es;
    } else {
      RunningBalanceAppended(es, added[0]);
    }
  }

  lemma {:induction false} SettleKeepsRunning(s: Ledger, s': Ledger, p: SettleParams)
    requires SnapshotsAgree(s) && RunningBalances(s.entries) && SettledRow(s, s', p)
    ensures RunningBalances(s'.entries)
  {
    var r := s.reservations[p.reservation];
    assert Snap(s, r.account).available == AvailableOf(s.entries, r.account) by {
      assert Snap(s, r.account) == Expected(s, r.account);
    }
    SettleEntriesRun(s.entries, r.account, NewSettlement(p, p.actual - r.amount), |s.settlements|);
  }

  lemma {:induction false} SettleKeepsNets(s: Ledger, s': Ledger, p: SettleParams)
    requires Nets(s) && SettlementRows(s.settlements, s.reservations)
    requires EntryRows(s.entries, s.reservations, s.settlements) && SettledRow(s, s', p)
    ensures Nets(s')
  {
    var row := p.reservation;
    var delta := p.actual - s.reservations[row].amount;
    forall q: nat
      ensures NetOf(s'.entries, s'.settlements, q) == NetOf(s.entries, s.settlements, q) - if q == row then delta else 0
    {
      NetAfterSettlement(s, s', p, q);
    }
    hide SettledRow, EntryRows;
    NetsClosed(s, s', row);
  }

  lemma {:induction false} NetAfterSettlement(s: Ledger, s': Ledger, p: SettleParams, q: nat)
    requires EntryRows(s.entries, s.reservations, s.settlements) && SettledRow(s, s', p)
    ensures var delta := p.actual - s.reservations[p.reservation].amount;
      NetOf(s'.entries, s'.settlements, q) ==
      NetOf(s.entries, s.settlements, q) - if q == p.reservation then delta else 0
  {
    EntriesReferBack(s);
    NetKeptBySettlement(s.entries, s.settlements, NewSettlement(p, p.actual - s.reservations[p.reservation].amount), q);
    SettlementNet(s, s', p, q);
  }

  lemma {:induction false} EntriesReferBack(s: Ledger)
    requires EntryRows(s.entries, s.reservations, s.settlements)
    ensures forall i | 0 <= i < |s.entries| && s.entries[i].reference.ToSettlement? ::
      s.entries[i].reference.row < |s.settlements|
  {
    forall i | 0 <= i < |s.entries| && s.entries[i].reference.ToSettlement?
      ensures s.entries[i].reference.row < |s.settlements|
    {
      assert EntryRow(s.entries[i], s.reservations, s.settlements);
    }
  }

  /** Only the net of the settled row moved, and it moved to what was charged. */
  lemma {:induction false} NetsClosed(s: Ledger, s': Ledger, row: nat)
    requires Nets(s) && SettlementRows(s.settlements, s.reservations)
    requires row < |s.reservations| && s.reservations[row].status.Open?
    requires s'.reservations == Close(s.reservations, row, Settled)
    requires |s'.settlements| == |s.settlements| + 1 && s'.settlements[..|s.settlements|] == s.settlements
    requires s'.settlements[|s.settlements|].reservation == row
    requires var charge := s'.settlements[|s.settlements|].actual;
      forall q: nat :: NetOf(s'.entries, s'.settlements, q) ==
        NetOf(s.entries, s.settlements, q) - if q == row then charge - s.reservations[row].amount else 0
    ensures Nets(s')
  {
    forall t | 0 <= t < |s.settlements|
      ensures s'.settlements[t] == s.settlements[t] && s.settlements[t].reservation != row
    {
      assert s'.settlements[t] == s'.settlements[..|s.settlements|][t];
      assert SettlementRow(s.settlements[t], s.reservations);
    }
  }

  lemma {:induction false} SettlementNet(s: Ledger, s': Ledger, p: SettleParams, q: nat)
    requires SettledRow(s, s', p)
    ensures NetOf(s'.entries, s'.settlements, q) == NetOf(s.entries, s'.settlements, q) -
            if q == p.reservation then p.actual - s.reservations[p.reservation].amount else 0
  {
    var r := s.reservations[p.reservation];
    var delta := p.actual - r.amount;
    var es := SettleEntries(r.account, NewSettlement(p, delta), |s.settlements|, Snap(s, r.account).available - delta);
    if es == [] {
      assert s'.entries == s.entries;
    } else {
      NetAppended(s.entries, es[0], s'.settlements, q);
    }
  }

  lemma {:induction false} SettledRowKeepsBooks(s: Ledger, s': Ledger, p: SettleParams)
    requires Books(s) && SettledRow(s, s', p)
    ensures Books(s')
  {
    assert Holds(Agreement, s) && Holds(Settlements, s) && Holds(Reservations, s) && Holds(Entries, s);
    NoReservedUnderflow(s, p.reservation);
    forall part: Part ensures Holds(part, s') {
      assert Holds(part, s);
      match part
      case Agreement => SettleKeepsAgreement(s, s', p);
      case Conservation => SettleKeepsBalance(s, s', p);
      case AccountRows =>
      case Reservations => ClosingKeepsReservations(s.reservations, p.reservation, Settled);
      case Settlements =>
        SettleKeepsSettlements(s.settlements, s.reservations,
                               NewSettlement(p, p.actual - s.reservations[p.reservation].amount));
      case Entries => SettleKeepsEntries(s, s', p);
      case Running => SettleKeepsRunning(s, s', p);
      case Charges => SettleKeepsNets(s, s', p);
    }
  }

  lemma {:induction false} SettleKeepsBooks(s: Ledger, p: SettleParams)
    requires Books(s)
    ensures Books(After(s, Settle(s, p)))
  {
    var o := Settle(s, p);
    if o.Done? && FindSettlement(s.settlements, p.key).None? {
      SettleCharges(s, p);
      SettledRowKeepsBooks(s, o.state, p);
    }
  }
}
