/** Runs: any sequence of ledger transactions, worker attempts and repairs from the empty ledger. */
module LedgerRuns {
  import opened LedgerSchema
  import opened SnapshotAggregation
  import opened LedgerRuntime
  import opened LedgerInvariants
  import opened LedgerOutbox
  import opened LedgerWorker

  datatype Command =
    | EnsureAccount(ensure: EnsureParams, newId: AccountId)
    | CreditAccount(credit: CreditParams)
    | CreateReservation(reserve: ReserveParams)
    | ReleaseReservation(release: ReleaseParams)
    | SettleReservation(settle: SettleParams)
    | RecordAdjustment(adjust: AdjustParams)
    | WorkerAttempt(event: nat)
    | Repair(account: AccountId)

  function Step(s: Ledger, c: Command): Ledger {
    match c
    case EnsureAccount(p, id) => After(s, Ensure(s, p, id))
    case CreditAccount(p) => After(s, Credit(s, p))
    case CreateReservation(p) => After(s, Reserve(s, p))
    case ReleaseReservation(p) => After(s, Release(s, p))
    case SettleReservation(p) => After(s, Settle(s, p))
    case RecordAdjustment(p) => After(s, Adjust(s, p))
    case WorkerAttempt(i) => Attempt(s, i)
    case Repair(a) => After(s, RepairSnapshot(s, a))
  }

  function Run(s: Ledger, cs: seq<Command>): Ledger {
    if cs == [] then s else Step(Run(s, cs[..|cs| - 1]), cs[|cs| - 1])
  }

  ghost predicate Consistent(s: Ledger) {
    Books(s) && Mirrored(s)
  }

  // ----- Every reachable ledger is consistent -----

  lemma {:induction false} StepKeepsBooks(s: Ledger, c: Command)
    requires Books(s)
    ensures Books(Step(s, c))
  {
    match c
    case EnsureAccount(p, id) => EnsureKeepsBooks(s, p, id);
    case CreditAccount(p) => CreditKeepsBooks(s, p);
    case CreateReservation(p) => ReserveKeepsBooks(s, p);
    case ReleaseReservation(p) => ReleaseKeepsBooks(s, p);
    case SettleReservation(p) => SettleKeepsBooks(s, p);
    case RecordAdjustment(p) => AdjustKeepsBooks(s, p);
    case WorkerAttempt(i) => AttemptKeepsBooks(s, i);
    case Repair(a) => RebuildKeepsBooks(s, a);
  }

  lemma {:induction false} StepKeepsMirror(s: Ledger, c: Command)
    requires Books(s) && Mirrored(s)
    ensures Mirrored(Step(s, c))
  {
    match c
    case EnsureAccount(p, id) => QuietStepKeepsMirror(s, Step(s, c));
    case CreditAccount(p) => CreditKeepsMirror(s, p);
    case CreateReservation(p) => ReserveKeepsMirror(s, p);
    case ReleaseReservation(p) => ReleaseKeepsMirror(s, p);
    case SettleReservation(p) => SettleKeepsMirror(s, p);
    case RecordAdjustment(p) => AdjustKeepsMirror(s, p);
    case WorkerAttempt(i) => AttemptKeepsMirror(s, i);
    case Repair(a) => QuietStepKeepsMirror(s, Step(s, c));
  }

  lemma {:induction false} RunKeepsConsistent(s: Ledger, cs: seq<Command>)
    requires Consistent(s)
    ensures Consistent(Run(s, cs))
  {
    if cs != [] {
      var s1 := Run(s, cs[..|cs| - 1]);
      RunKeepsConsistent(s, cs[..|cs| - 1]);
      StepKeepsBooks(s1, cs[|cs| - 1]);
      StepKeepsMirror(s1, cs[|cs| - 1]);
    }
  }

  lemma {:induction false} EmptyIsConsistent()
    ensures Consistent(EMPTY_LEDGER)
  {
    forall part: Part ensures Holds(part, EMPTY_LEDGER) {
    }
    forall part: OutboxPart ensures OutboxHolds(part, EMPTY_LEDGER) {
    }
  }

  lemma {:induction false} ReachableIsConsistent(cs: seq<Command>)
    ensures Consistent(Run(EMPTY_LEDGER, cs))
  {
    EmptyIsConsistent();
    RunKeepsConsistent(EMPTY_LEDGER, cs);
  }

  /** In every reachable ledger each stored snapshot is, in all five fields, the sum over the history. */
  lemma {:induction false} ReachableAgreement(cs: seq<Command>, a: AccountId)
    ensures var s := Run(EMPTY_LEDGER, cs); Snap(s, a) == Expected(s, a)
  {
    ReachableIsConsistent(cs);
    assert Holds(Agreement, Run(EMPTY_LEDGER, cs));
  }

  /** In every reachable ledger what was granted is available, held or consumed, none of them negative. */
  lemma {:induction false} ReachableConservation(cs: seq<Command>, a: AccountId)
    ensures Sound(Snap(Run(EMPTY_LEDGER, cs), a))
  {
    ReachableIsConsistent(cs);
    SoundInBooks(Run(EMPTY_LEDGER, cs), a);
  }

  lemma {:induction false} SoundInBooks(s: Ledger, a: AccountId)
    requires Books(s)
    ensures Sound(Snap(s, a))
  {
    BooksBalance(s);
  }

  /** An entry's recorded balance is the running sum over its account's entries up to it. */
  lemma {:induction false} ReachableRunningBalance(cs: seq<Command>, i: nat)
    requires i < |Run(EMPTY_LEDGER, cs).entries|
    ensures var es := Run(EMPTY_LEDGER, cs).entries;
      es[i].balanceAfter == if es[i].entryType.Adjustment? then None else Some(AvailableOf(es[..i + 1], es[i].account))
  {
    ReachableIsConsistent(cs);
    assert Holds(Running, Run(EMPTY_LEDGER, cs));
  }

  /** A reservation's entries net to minus its hold while it is open, to nothing when it is
      released, and to minus the charge of its one settlement when it is settled. */
  lemma {:induction false} ReachableNet(cs: seq<Command>, r: nat)
    requires r < |Run(EMPTY_LEDGER, cs).reservations|
    ensures var s := Run(EMPTY_LEDGER, cs);
      var net := NetOf(s.entries, s.settlements, r);
      match s.reservations[r].status
      case Open => net == -s.reservations[r].amount && !IsSettled(s.settlements, r)
      case Released => net == 0 && !IsSettled(s.settlements, r)
      case Settled =>
        exists t | 0 <= t < |s.settlements| && s.settlements[t].reservation == r ::
          net == -s.settlements[t].actual &&
          forall t' | 0 <= t' < |s.settlements| && s.settlements[t'].reservation == r :: t' == t
      case Expired => false
  {
    var s := Run(EMPTY_LEDGER, cs);
    ReachableIsConsistent(cs);
    assert Holds(Reservations, s) && Holds(Charges, s) && Holds(Settlements, s);
    if IsSettled(s.settlements, r) {
      var t :| 0 <= t < |s.settlements| && s.settlements[t].reservation == r;
      assert SettlementRow(s.settlements[t], s.reservations);
    }
  }

  // ----- What is recorded stays recorded -----

  predicate StatusMoves(a: ReservationStatus, b: ReservationStatus) {
    a == b || (a.Open? && (b.Settled? || b.Released?))
  }

  predicate ReservationsGrow(rs: seq<Reservation>, rs': seq<Reservation>) {
    && |rs| <= |rs'|
    && forall i | 0 <= i < |rs| ::
         rs'[i].(status := rs[i].status) == rs[i] && StatusMoves(rs[i].status, rs'[i].status)
  }

  predicate OutboxGrows(es: seq<Event>, es': seq<Event>) {
    && |es| <= |es'|
    && forall i | 0 <= i < |es| ::
         es'[i].(published := es[i].published, attempts := es[i].attempts) == es[i] &&
         (es[i].published ==> es'[i].published)
  }

  /** s' records everything s does: rows are only appended, a reservation only moves from open to
      settled or released, and a published event stays published. */
  predicate Extends(s: Ledger, s': Ledger) {
    && s.accounts <= s'.accounts && s.entries <= s'.entries && s.settlements <= s'.settlements
    && ReservationsGrow(s.reservations, s'.reservations) && OutboxGrows(s.outbox, s'.outbox)
  }

  lemma {:induction false} CreditExtends(s: Ledger, p: CreditParams)
    ensures Extends(s, After(s, Credit(s, p)))
  {
  }

  lemma {:induction false} AdjustExtends(s: Ledger, p: AdjustParams)
    ensures Extends(s, After(s, Adjust(s, p)))
  {
  }

  lemma {:induction false} EnsureExtends(s: Ledger, p: EnsureParams, newId: AccountId)
    ensures Extends(s, After(s, Ensure(s, p, newId)))
  {
  }

  lemma {:induction false} WorkerExtends(s: Ledger, i: nat, a: AccountId)
    ensures Extends(s, Attempt(s, i)) && Extends(s, After(s, RepairSnapshot(s, a)))
  {
  }

  lemma {:induction false} ReserveExtends(s: Ledger, p: ReserveParams)
    ensures Extends(s, After(s, Reserve(s, p)))
  {
  }

  lemma {:induction false} ReleaseExtends(s: Ledger, p: ReleaseParams)
    ensures Extends(s, After(s, Release(s, p)))
  {
  }

  lemma {:induction false} SettleExtends(s: Ledger, p: SettleParams)
    ensures Extends(s, After(s, Settle(s, p)))
  {
  }

  lemma {:induction false} ExtendsIsTransitive(s: Ledger, s1: Ledger, s2: Ledger)
    requires Extends(s, s1) && Extends(s1, s2)
    ensures Extends(s, s2)
  {
    forall i | 0 <= i < |s.reservations|
      ensures s2.reservations[i].(status := s.reservations[i].status) == s.reservations[i]
      ensures StatusMoves(s.reservations[i].status, s2.reservations[i].status)
    {
      assert s1.reservations[i].(status := s.reservations[i].status) == s.reservations[i];
      assert s2.reservations[i].(status := s1.reservations[i].status) == s1.reservations[i];
    }
    forall i | 0 <= i < |s.outbox|
      ensures s2.outbox[i].(published := s.outbox[i].published, attempts := s.outbox[i].attempts) == s.outbox[i]
      ensures s.outbox[i].published ==> s2.outbox[i].published
    {
      assert s1.outbox[i].(published := s.outbox[i].published, attempts := s.outbox[i].attempts) == s.outbox[i];
      assert s2.outbox[i].(published := s1.outbox[i].published, attempts := s1.outbox[i].attempts) == s1.outbox[i];
    }
  }

  lemma {:induction false} StepExtends(s: Ledger, c: Command)
    ensures Extends(s, Step(s, c))
  {
    match c
    case EnsureAccount(p, id) => EnsureExtends(s, p, id);
    case CreditAccount(p) => CreditExtends(s, p);
    case CreateReservation(p) => ReserveExtends(s, p);
    case ReleaseReservation(p) => ReleaseExtends(s, p);
    case SettleReservation(p) => SettleExtends(s, p);
    case RecordAdjustment(p) => AdjustExtends(s, p);
    case WorkerAttempt(i) => WorkerExtends(s, i, "");
    case Repair(a) => WorkerExtends(s, 0, a);
  }

  /** Over any run nothing recorded is lost or rewritten, and no terminal state is left. */
  lemma {:induction false} RunExtends(s: Ledger, cs: seq<Command>)
    ensures Extends(s, Run(s, cs))
  {
    if cs != [] {
      var s1 := Run(s, cs[..|cs| - 1]);
      var c := cs[|cs| - 1];
      RunExtends(s, cs[..|cs| - 1]);
      StepExtends(s1, c);
      ExtendsIsTransitive(s, s1, Step(s1, c));
    }
  }

  // ----- Replays -----

  lemma {:induction false} EntryFound(s: Ledger, i: nat)
    requires Books(s) && i < |s.entries|
    ensures FindEntry(s.entries, s.entries[i].key) == Some(i)
  {
    assert Holds(Entries, s);
  }

  lemma {:induction false} ReservationFound(s: Ledger, i: nat)
    requires Books(s) && i < |s.reservations|
    ensures FindReservation(s.reservations, s.reservations[i].key) == Some(i)
  {
    assert Holds(Reservations, s);
  }

  lemma {:induction false} SettlementFound(s: Ledger, i: nat)
    requires Books(s) && i < |s.settlements|
    ensures FindSettlement(s.settlements, s.settlements[i].key) == Some(i)
  {
    assert Holds(Settlements, s);
  }

  /** The row a successful credit reports. */
  lemma {:induction false} CreditRecords(s: Ledger, p: CreditParams)
    requires Credit(s, p).Done?
    ensures var s' := Credit(s, p).state; var i := Credit(s, p).value;
      && i < |s'.entries| && s'.entries[i].key == KeyOf(p.key) && Same(s'.entries[i].account, p.account)
      && s'.entries[i].amount == p.amount && s'.entries[i].entryType.GrantCredit?
  {
  }

  /** After any further run, a credit with a key that has been used succeeds exactly when account and
      amount are those recorded; it then reports the recorded row, and never moves anything. */
  lemma {:induction false} CreditReplay(s: Ledger, p: CreditParams, cs: seq<Command>, p': CreditParams)
    requires Consistent(s) && Credit(s, p).Done? && p'.key == p.key
    requires |p'.account| > 0 && p'.amount > 0
    ensures var s2 := Run(Credit(s, p).state, cs);
      Credit(s2, p') == if Same(p'.account, p.account) && p'.amount == p.amount then Done(s2, Credit(s, p).value)
                        else Failed(LedgerConflict)
  {
    var s1 := Credit(s, p).state;
    var i := Credit(s, p).value;
    var s2 := Run(s1, cs);
    CreditRecords(s, p);
    RecordsLast(s, CreditAccount(p), cs);
    assert s2.entries[i] == s1.entries[i];
    EntryFound(s2, i);
    CreditAgain(s2, p', i);
  }

  lemma {:induction false} CreditAgain(s: Ledger, p: CreditParams, i: nat)
    requires i < |s.entries| && FindEntry(s.entries, KeyOf(p.key)) == Some(i)
    requires |p.account| > 0 && p.amount > 0 && |p.key| > 0 && s.entries[i].entryType.GrantCredit?
    ensures Credit(s, p) == if Same(s.entries[i].account, p.account) && s.entries[i].amount == p.amount then Done(s, i)
                            else Failed(LedgerConflict)
  {
  }

  lemma {:induction false} RecordsLast(s: Ledger, c: Command, cs: seq<Command>)
    requires Consistent(s)
    ensures Consistent(Run(Step(s, c), cs)) && Extends(Step(s, c), Run(Step(s, c), cs))
  {
    StepKeepsBooks(s, c);
    StepKeepsMirror(s, c);
    RunKeepsConsistent(Step(s, c), cs);
    RunExtends(Step(s, c), cs);
  }

  lemma {:induction false} ReserveRecords(s: Ledger, p: ReserveParams)
    requires Reserve(s, p).Done?
    ensures var s' := Reserve(s, p).state; var i := Reserve(s, p).value;
      && i < |s'.reservations| && Same(s'.reservations[i].key, p.key) && Same(s'.reservations[i].account, p.account)
      && s'.reservations[i].amount == p.amount && Same(s'.reservations[i].requestId, p.requestId)
      && Same(s'.reservations[i].workflowId, p.workflowId)
  {
  }

  lemma {:induction false} ReserveAgain(s: Ledger, p: ReserveParams, i: nat)
    requires i < |s.reservations| && FindReservation(s.reservations, p.key) == Some(i)
    requires |p.account| > 0 && p.amount > 0 && |p.key| > 0
    ensures var r := s.reservations[i];
      Reserve(s, p) == if Same(r.account, p.account) && r.amount == p.amount && Same(r.requestId, p.requestId) &&
                          Same(r.workflowId, p.workflowId)
                       then Done(s, i) else Failed(LedgerConflict)
  {
  }

  lemma {:induction false} ReserveReplay(s: Ledger, p: ReserveParams, cs: seq<Command>, p': ReserveParams)
    requires Consistent(s) && Reserve(s, p).Done? && p'.key == p.key
    requires |p'.account| > 0 && p'.amount > 0
    ensures var s2 := Run(Reserve(s, p).state, cs);
      Reserve(s2, p') == if Same(p'.account, p.account) && p'.amount == p.amount && Same(p'.requestId, p.requestId) &&
                            Same(p'.workflowId, p.workflowId)
                         then Done(s2, Reserve(s, p).value) else Failed(LedgerConflict)
  {
    var s1 := Reserve(s, p).state;
    var i := Reserve(s, p).value;
    var s2 := Run(s1, cs);
    ReserveRecords(s, p);
    RecordsLast(s, CreateReservation(p), cs);
    assert s2.reservations[i].(status := s1.reservations[i].status) == s1.reservations[i];
    ReservationFound(s2, i);
    ReserveAgain(s2, p', i);
  }

  lemma {:induction false} SettleRecords(s: Ledger, p: SettleParams)
    requires Settle(s, p).Done?
    ensures var s' := Settle(s, p).state; var i := Settle(s, p).value;
      && i < |s'.settlements| && Same(s'.settlements[i].key, p.key)
      && s'.settlements[i].reservation == p.reservation && s'.settlements[i].actual == p.actual
  {
  }

  lemma {:induction false} SettleAgain(s: Ledger, p: SettleParams, i: nat)
    requires i < |s.settlements| && FindSettlement(s.settlements, p.key) == Some(i) && |p.key| > 0 && p.actual >= 0
    ensures var t := s.settlements[i];
      Settle(s, p) ==
      if t.reservation == p.reservation && t.actual == p.actual then Done(s, i) else Failed(LedgerConflict)
  {
  }

  lemma {:induction false} SettleReplay(s: Ledger, p: SettleParams, cs: seq<Command>, p': SettleParams)
    requires Consistent(s) && Settle(s, p).Done? && p'.key == p.key && p'.actual >= 0
    ensures var s2 := Run(Settle(s, p).state, cs);
      Settle(s2, p') == if p'.reservation == p.reservation && p'.actual == p.actual
                        then Done(s2, Settle(s, p).value) else Failed(LedgerConflict)
  {
    var s1 := Settle(s, p).state;
    var i := Settle(s, p).value;
    var s2 := Run(s1, cs);
    SettleRecords(s, p);
    RecordsLast(s, SettleReservation(p), cs);
    assert s2.settlements[i] == s1.settlements[i];
    SettlementFound(s2, i);
    SettleAgain(s2, p', i);
  }

  /** A reservation that was released stays released: releasing it again, with whatever key, reports
      success and moves nothing, and settling it with a fresh key is refused. */
  lemma {:induction false} ReleaseIsFinal(s: Ledger, p: ReleaseParams, cs: seq<Command>, p': ReleaseParams,
                                          q: SettleParams)
    requires Consistent(s) && Release(s, p).Done?
    requires p'.reservation == p.reservation && |p'.key| > 0
    requires q.reservation == p.reservation && |q.key| > 0 && q.actual >= 0
    ensures var s2 := Run(Release(s, p).state, cs);
      && Release(s2, p') == Done(s2, p.reservation)
      && (FindSettlement(s2.settlements, q.key).None? ==> Settle(s2, q) == Failed(ReservationNotOpen))
  {
    var s1 := Release(s, p).state;
    RecordsLast(s, ReleaseReservation(p), cs);
    assert s1.reservations[p.reservation].status.Released?;
  }

  /** A settled reservation stays settled: neither a release nor another settlement gets through. */
  lemma {:induction false} SettleIsFinal(s: Ledger, p: SettleParams, cs: seq<Command>, q: ReleaseParams,
                                         p': SettleParams)
    requires Consistent(s) && Settle(s, p).Done?
    requires q.reservation == p.reservation && |q.key| > 0
    requires p'.reservation == p.reservation && |p'.key| > 0 && p'.actual >= 0 && p'.key != p.key
    ensures var s2 := Run(Settle(s, p).state, cs);
      && Release(s2, q) == Failed(ReservationNotOpen)
      && (Settle(s2, p') == Failed(SettlementAlreadyExists) || Settle(s2, p') == Failed(LedgerConflict))
  {
    var s1 := Settle(s, p).state;
    var i := Settle(s, p).value;
    var s2 := Run(s1, cs);
    SettleRecords(s, p);
    RecordsLast(s, SettleReservation(p), cs);
    assert s2.settlements[i] == s1.settlements[i];
    SettledRowStatus(s2, i);
    SettleBlocked(s2, i, p');
  }

  lemma {:induction false} SettledRowStatus(s: Ledger, i: nat)
    requires Books(s) && i < |s.settlements|
    ensures var r := s.settlements[i].reservation; r < |s.reservations| && s.reservations[r].status.Settled?
  {
    assert Holds(Settlements, s);
    assert SettlementRow(s.settlements[i], s.reservations);
  }

  lemma {:induction false} SettleBlocked(s: Ledger, i: nat, p: SettleParams)
    requires Books(s) && i < |s.settlements| && s.settlements[i].reservation == p.reservation
    requires !Same(s.settlements[i].key, p.key) && |p.key| > 0 && p.actual >= 0
    ensures Settle(s, p) == Failed(SettlementAlreadyExists) || Settle(s, p) == Failed(LedgerConflict)
  {
    SettledRowStatus(s, i);
    var found := FindSettlement(s.settlements, p.key);
    if found.Some? {
      assert Holds(Settlements, s);
      assert found.value != i;
    }
  }

  /** While the total granted to an account fits in 64 bits, so do its other balances (but the
      refunded total, which nothing bounds): the stored columns cannot overflow first. */
  lemma {:induction false} BalancesFit(s: Ledger, a: AccountId)
    requires Books(s) && Snap(s, a).granted < 0x8000_0000_0000_0000
    ensures var x := Snap(s, a);
      0 <= x.available < 0x8000_0000_0000_0000 && 0 <= x.reserved < 0x8000_0000_0000_0000 &&
      0 <= x.consumed < 0x8000_0000_0000_0000
  {
    SoundInBooks(s, a);
  }

  // ----- A run that blocks the worker -----

  /** A text of n + 1 letters, so that no two of them are equal. */
  function NumberedKey(n: nat): (key: string)
    ensures |key| == n + 1 && !HasEntryPrefix(key)
  {
    seq(n + 1, i => 'k')
  }

  function OrphanCredit(a: AccountId, n: nat): CreditParams {
    CreditParams(a, 1, NumberedKey(n), "", "", "")
  }

  /** n credits to an account that was never opened: nothing in a credit asks for the account's row. */
  function Orphans(a: AccountId, n: nat): seq<Command> {
    if n == 0 then [] else Orphans(a, n - 1) + [CreditAccount(OrphanCredit(a, n - 1))]
  }

  /** The ledger those credits leave: no account, and one pending event for each. */
  predicate Orphaned(s: Ledger, a: AccountId, n: nat) {
    && s.accounts == [] && |s.entries| == n == |s.outbox|
    && (forall i | 0 <= i < n :: s.entries[i].key == Given(NumberedKey(i)))
    && (forall i | 0 <= i < n ::
          Same(s.outbox[i].key, NumberedKey(i)) && Same(s.outbox[i].account, a) && !s.outbox[i].published)
  }

  lemma {:induction false} NumberedKeysDiffer(i: nat, j: nat)
    requires i != j
    ensures !Same(NumberedKey(i), NumberedKey(j)) && KeyOf(NumberedKey(j)) == Given(NumberedKey(j))
  {
    assert |NumberedKey(i)| != |NumberedKey(j)|;
  }

  lemma {:induction false} NumberedKeyIsNew(s: Ledger, a: AccountId, n: nat)
    requires Orphaned(s, a, n)
    ensures FindEntry(s.entries, KeyOf(NumberedKey(n))).None? && FindEvent(s.outbox, NumberedKey(n)).None?
  {
    hide NumberedKey, KeyOf, HasEntryPrefix;
    forall i | 0 <= i < n
      ensures !Same(s.entries[i].key, KeyOf(NumberedKey(n))) && !Same(s.outbox[i].key, NumberedKey(n))
    {
      NumberedKeysDiffer(i, n);
    }
  }

  /** A credit of a new number adds its entry and its event. */
  lemma {:induction false} NextOrphan(s: Ledger, a: AccountId, n: nat, b: AccountId)
    requires Orphaned(s.(accounts := []), a, n) && |b| > 0
    ensures var o := Credit(s, OrphanCredit(b, n));
      && o.Done? && o.state.accounts == s.accounts
      && |o.state.entries| == n + 1 == |o.state.outbox|
      && o.state.entries[..n] == s.entries && o.state.entries[n].key == Given(NumberedKey(n))
      && o.state.outbox[..n] == s.outbox && !o.state.outbox[n].published
      && Same(o.state.outbox[n].key, NumberedKey(n)) && Same(o.state.outbox[n].account, b)
  {
    NumberedKeyIsNew(s.(accounts := []), a, n);
    assert KeyOf(NumberedKey(n)) == Given(NumberedKey(n));
    hide NumberedKey, KeyOf, FindEntry, FindEvent, Snap;
  }

  lemma {:induction false} OrphansPost(a: AccountId, n: nat)
    requires |a| > 0
    ensures Orphaned(Run(EMPTY_LEDGER, Orphans(a, n)), a, n)
  {
    hide Orphaned, Run, Step;
    if n == 0 {
      NoOrphansYet(a);
    } else {
      var s := Run(EMPTY_LEDGER, Orphans(a, n - 1));
      OrphansPost(a, n - 1);
      LastStep(EMPTY_LEDGER, Orphans(a, n - 1), CreditAccount(OrphanCredit(a, n - 1)));
      OrphanNext(s, a, n - 1);
    }
  }

  lemma {:induction false} NoOrphansYet(a: AccountId)
    ensures Orphaned(Run(EMPTY_LEDGER, []), a, 0)
  {
  }

  lemma {:induction false} OrphanNext(s: Ledger, a: AccountId, n: nat)
    requires Orphaned(s, a, n) && |a| > 0
    ensures Orphaned(Step(s, CreditAccount(OrphanCredit(a, n))), a, n + 1)
  {
    hide NumberedKey;
    assert s.(accounts := []) == s;
    NextOrphan(s, a, n, a);
    CreditStep(s, OrphanCredit(a, n));
    hide Credit, Step;
    OrphanedNext(s, Credit(s, OrphanCredit(a, n)).state, a, n);
  }

  lemma {:induction false} LastStep(s: Ledger, cs: seq<Command>, c: Command)
    ensures Run(s, cs + [c]) == Step(Run(s, cs), c)
  {
    hide Step;
    assert (cs + [c])[..|cs|] == cs;
  }

  lemma {:induction false} OrphanedNext(s: Ledger, s': Ledger, a: AccountId, n: nat)
    requires Orphaned(s, a, n) && s'.accounts == []
    requires |s'.entries| == n + 1 == |s'.outbox| && s'.entries[..n] == s.entries && s'.outbox[..n] == s.outbox
    requires s'.entries[n].key == Given(NumberedKey(n)) && !s'.outbox[n].published
    requires Same(s'.outbox[n].key, NumberedKey(n)) && Same(s'.outbox[n].account, a)
    ensures Orphaned(s', a, n + 1)
  {
    hide NumberedKey;
    forall i | 0 <= i < n ensures s'.entries[i] == s.entries[i] && s'.outbox[i] == s.outbox[i] {
      assert s'.entries[i] == s'.entries[..n][i] && s'.outbox[i] == s'.outbox[..n][i];
    }
  }

  /** After limit credits to an account that was never opened, the event of a credit to one that was is
      pending for ever, however often the worker runs. */
  lemma {:induction false} OrphansBlockTheWorker(a: AccountId, b: AccountId, p: EnsureParams, limit: nat, k: nat)
    requires |a| > 0 && |b| > 0 && !Same(a, b) && p.ownerId > 0 && |p.ownerType| > 0 && |p.accountType| > 0
    ensures var cs := Orphans(a, limit) + [EnsureAccount(p, b)] + [CreditAccount(OrphanCredit(b, limit))];
      var s := Run(EMPTY_LEDGER, cs);
      && |s.outbox| == limit + 1 && Processable(s, limit)
      && limit < |Batches(s, limit, k).outbox| && !Batches(s, limit, k).outbox[limit].published
  {
    hide Batches, NumberedKey, Credit, Run, Step;
    var s0 := Run(EMPTY_LEDGER, Orphans(a, limit));
    OrphansPost(a, limit);
    LastStep(EMPTY_LEDGER, Orphans(a, limit), EnsureAccount(p, b));
    LastStep(EMPTY_LEDGER, Orphans(a, limit) + [EnsureAccount(p, b)], CreditAccount(OrphanCredit(b, limit)));
    var s1 := Run(EMPTY_LEDGER, Orphans(a, limit) + [EnsureAccount(p, b)]);
    OpensFirst(s0, p, b);
    assert s1.(accounts := []) == s0.(accounts := [], snapshots := s1.snapshots);
    NextOrphan(s1, a, limit, b);
    var s := Credit(s1, OrphanCredit(b, limit)).state;
    CreditStep(s1, OrphanCredit(b, limit));
    BlockedBehind(s, a, b, limit, k);
  }

  lemma {:induction false} CreditStep(s: Ledger, p: CreditParams)
    requires Credit(s, p).Done?
    ensures Step(s, CreditAccount(p)) == Credit(s, p).state
  {
    hide Credit;
  }

  lemma {:induction false} OpensFirst(s: Ledger, p: EnsureParams, b: AccountId)
    requires s.accounts == [] && p.ownerId > 0 && |p.ownerType| > 0 && |p.accountType| > 0
    ensures var s' := Step(s, EnsureAccount(p, b));
      |s'.accounts| == 1 && s'.accounts[0].id == b && s' == s.(accounts := s'.accounts, snapshots := s'.snapshots)
  {
  }

  lemma {:induction false} BlockedBehind(s: Ledger, a: AccountId, b: AccountId, limit: nat, k: nat)
    requires |s.accounts| == 1 && s.accounts[0].id == b && !Same(a, b) && |s.outbox| == limit + 1
    requires forall i | 0 <= i < limit :: Same(s.outbox[..limit][i].account, a)
    requires Same(s.outbox[limit].account, b) && forall i | 0 <= i <= limit :: !s.outbox[i].published
    ensures Processable(s, limit)
    ensures limit < |Batches(s, limit, k).outbox| && !Batches(s, limit, k).outbox[limit].published
  {
    hide Batches;
    AllPending(s.outbox, 0);
    assert Same(s.accounts[0].id, s.outbox[limit].account);
    var rows := PendingRows(s.outbox, 0);
    forall i | 0 <= i < limit ensures !Processable(s, rows[..limit][i]) {
      assert s.outbox[..limit][i] == s.outbox[i];
    }
    AllUnprocessable(s, rows[..limit]);
    NeverReached(s, limit, k, limit, limit, limit);
  }

  lemma {:induction false} AllPending(outbox: seq<Event>, i: nat)
    requires i <= |outbox| && forall r | i <= r < |outbox| :: !outbox[r].published
    ensures |PendingRows(outbox, i)| == |outbox| - i
    ensures forall j | 0 <= j < |outbox| - i :: PendingRows(outbox, i)[j] == i + j
    decreases |outbox| - i
  {
    if i < |outbox| {
      AllPending(outbox, i + 1);
    }
  }
}
