/** A balance enters the ledger once: the lazy mirror and the backfill migration each guard the bootstrap
    credit in their own way, and ordinary traffic runs in between. */
module BootstrapOnce {
  import opened LedgerSchema
  import opened SnapshotAggregation
  import opened LedgerRuntime
  import opened LedgerInvariants
  import opened LedgerEffects
  import opened LedgerRuns
  import opened LedgerWorker
  import opened WalletMirror

  /** One owner's mirrored column, and the key under which the migration would credit it. */
  datatype Boot = Boot(mirror: Mirror, backfillKey: string)

  predicate HasEntries(es: seq<Entry>, a: AccountId) {
    exists i | 0 <= i < |es| :: Same(es[i].account, a)
  }

  function BackfillCredit(b: Boot, a: AccountId, amount: int): CreditParams {
    CreditParams(a, amount, b.backfillKey, "legacy_balance_backfill", b.mirror.owner.ownerType, "")
  }

  /** The migration credits an account that has no entry at all. */
  function EnsureBootstrapCredit(s: Ledger, b: Boot, amount: int, newId: AccountId): Outcome<AccountId> {
    match Ensure(s, b.mirror.owner, newId)
    case Failed(e) => Failed(e)
    case Done(s1, a) =>
      if HasEntries(s1.entries, a) || amount <= 0 then Done(s1, a)
      else match Credit(s1, BackfillCredit(b, a, amount))
      case Failed(e) => Failed(e)
      case Done(s2, _) => Done(s2, a)
  }

  /** It opens the owner's account if there is none, and then credits it exactly when there is something to credit
      and the account has no entry; otherwise no balance moves. */
  lemma {:induction false} BackfillCredits(s: Ledger, b: Boot, amount: int, newId: AccountId)
    requires ValidMirror(b.mirror) && Unused(s, b.backfillKey)
    requires match AccountOf(s, b.mirror)
      case None => |newId| > 0 && !AccountExists(s.accounts, newId) && newId !in s.snapshots &&
                   !HasEntries(s.entries, newId)
      case Some(a) => |a| > 0
    ensures var o := EnsureBootstrapCredit(s, b, amount, newId);
      && o.Done? && AccountOf(o.state, b.mirror) == Some(o.value)
      && o.value == (match AccountOf(s, b.mirror) case None => newId case Some(a) => a)
      && var credited := if !HasEntries(s.entries, o.value) && amount > 0 then amount else 0;
      && Snap(o.state, o.value).available == Snap(s, o.value).available + credited
      && Snap(o.state, o.value).granted == Snap(s, o.value).granted + credited
      && forall a | !Same(a, o.value) :: Snap(o.state, a) == Snap(s, a)
  {
    var e := Ensure(s, b.mirror.owner, newId);
    if AccountOf(s, b.mirror).Some? {
      EnsureExisting(s, b.mirror, newId);
    } else {
      EnsureNew(s, b.mirror, newId);
    }
    OpenedAccount(s, b.mirror, newId);
    assert Unused(e.state, b.backfillKey);
    assert HasEntries(e.state.entries, e.value) == HasEntries(s.entries, e.value);
    hide Ensure, HasEntries;
    if !HasEntries(s.entries, e.value) && amount > 0 {
      FreshCreditSucceeds(e.state, BackfillCredit(b, e.value, amount));
    }
  }

  // ----- The two guards -----

  predicate GrantsPositive(es: seq<Entry>) {
    forall i | 0 <= i < |es| && es[i].entryType.GrantCredit? :: es[i].amount > 0
  }

  lemma {:induction false} BooksGrantPositive(s: Ledger)
    requires Books(s)
    ensures GrantsPositive(s.entries)
  {
    assert Holds(Entries, s);
    forall i | 0 <= i < |s.entries| && s.entries[i].entryType.GrantCredit? ensures s.entries[i].amount > 0 {
      assert EntryRow(s.entries[i], s.reservations, s.settlements);
    }
  }

  lemma {:induction false} GrantsAdd(es: seq<Entry>, es': seq<Entry>, a: AccountId)
    requires es <= es' && GrantsPositive(es')
    ensures GrantedOf(es', a) >= GrantedOf(es, a)
    ensures (exists i | |es| <= i < |es'| :: es'[i].entryType.GrantCredit? && Same(es'[i].account, a)) ==>
              GrantedOf(es', a) > GrantedOf(es, a)
    decreases |es'|
  {
    if |es| == |es'| {
      assert es == es';
    } else {
      var n := |es'| - 1;
      assert es'[n].entryType.GrantCredit? ==> es'[n].amount > 0;
      GrantsAdd(es, es'[..n], a);
      forall i | |es| <= i < |es'| && es'[i].entryType.GrantCredit? && Same(es'[i].account, a)
        ensures GrantedOf(es', a) > GrantedOf(es, a)
      {
        if i < n {
          assert es'[..n][i].entryType.GrantCredit? && Same(es'[..n][i].account, a);
        }
      }
    }
  }

  /** The total ever granted to an account never falls. */
  lemma {:induction false} GrantedNeverFalls(s: Ledger, s': Ledger, a: AccountId)
    requires Books(s) && Books(s') && Extends(s, s')
    ensures Snap(s', a).granted >= Snap(s, a).granted
  {
    assert Holds(Agreement, s) && Holds(Agreement, s');
    assert Snap(s, a) == Expected(s, a) && Snap(s', a) == Expected(s', a);
    BooksGrantPositive(s');
    GrantsAdd(s.entries, s'.entries, a);
  }

  lemma {:induction false} CreditedIsGranted(s: Ledger, i: nat)
    requires Books(s) && i < |s.entries| && s.entries[i].entryType.GrantCredit?
    ensures Snap(s, s.entries[i].account).granted > 0
  {
    var a := s.entries[i].account;
    assert Holds(Agreement, s);
    assert Snap(s, a) == Expected(s, a);
    BooksGrantPositive(s);
    GrantsAdd([], s.entries, a);
    assert GrantedOf([], a) == 0;
  }

  /** Whoever has a reservation was granted something first. */
  predicate Funded(s: Ledger) {
    forall r | 0 <= r < |s.reservations| :: Snap(s, s.reservations[r].account).granted > 0
  }

  predicate OnlyAdjusted(es: seq<Entry>, a: AccountId) {
    forall i | 0 <= i < |es| && Same(es[i].account, a) :: es[i].entryType.Adjustment?
  }

  lemma {:induction false} AdjustmentsMoveNothing(es: seq<Entry>, a: AccountId)
    requires OnlyAdjusted(es, a)
    ensures AvailableOf(es, a) == 0 && GrantedOf(es, a) == 0
  {
    if es != [] {
      assert Same(es[|es| - 1].account, a) ==> es[|es| - 1].entryType.Adjustment?;
      AdjustmentsMoveNothing(es[..|es| - 1], a);
    }
  }

  lemma {:induction false} NothingReserved(rs: seq<Reservation>, a: AccountId)
    requires forall i | 0 <= i < |rs| :: !Same(rs[i].account, a)
    ensures ReservedOf(rs, a) == 0
  {
    if rs != [] {
      NothingReserved(rs[..|rs| - 1], a);
    }
  }

  lemma {:induction false} NothingSettled(ss: seq<Settlement>, rs: seq<Reservation>, a: AccountId)
    requires forall i | 0 <= i < |rs| :: !Same(rs[i].account, a)
    ensures ConsumedOf(ss, rs, a) == 0 && RefundedOf(ss, rs, a) == 0
  {
    if ss != [] {
      NothingSettled(ss[..|ss| - 1], rs, a);
    }
  }

  /** The mirror's guard looks at the snapshot, the migration's at the entries; they part only over an
      account whose entries are all adjustments. */
  lemma {:induction false} GuardsAgree(s: Ledger, a: AccountId)
    requires Books(s) && Funded(s)
    ensures !NonZero(Snap(s, a)) <==> OnlyAdjusted(s.entries, a)
    ensures !HasEntries(s.entries, a) ==> !NonZero(Snap(s, a))
  {
    assert Holds(Agreement, s);
    assert Snap(s, a) == Expected(s, a);
    if OnlyAdjusted(s.entries, a) {
      AdjustmentsMoveNothing(s.entries, a);
      NothingReserved(s.reservations, a);
      NothingSettled(s.settlements, s.reservations, a);
    } else {
      var i :| 0 <= i < |s.entries| && Same(s.entries[i].account, a) && !s.entries[i].entryType.Adjustment?;
      EntryMeansGrant(s, i);
    }
  }

  lemma {:induction false} EntryMeansGrant(s: Ledger, i: nat)
    requires Books(s) && Funded(s) && i < |s.entries| && !s.entries[i].entryType.Adjustment?
    ensures Snap(s, s.entries[i].account).granted > 0
  {
    var e := s.entries[i];
    assert Holds(Entries, s);
    assert EntryRow(e, s.reservations, s.settlements);
    if e.entryType.GrantCredit? {
      CreditedIsGranted(s, i);
    }
  }

  // ----- Runs -----

  /** The owner's two bootstraps, and any other ledger command. */
  datatype Move = Traffic(c: Command) | MirrorOnUse(balance: int, newId: AccountId) | Backfill(amount: int,
                          newId: AccountId)

  function Make(s: Ledger, b: Boot, move: Move): Ledger {
    match move
    case Traffic(c) => Step(s, c)
    case MirrorOnUse(balance, newId) => After(s, EnsureMirroredTx(s, b.mirror, balance, newId))
    case Backfill(amount, newId) => After(s, EnsureBootstrapCredit(s, b, amount, newId))
  }

  function MakeAll(s: Ledger, b: Boot, moves: seq<Move>): Ledger {
    if moves == [] then s else Make(MakeAll(s, b, moves[..|moves| - 1]), b, moves[|moves| - 1])
  }

  /** Ordinary traffic posts nothing under the owner's bootstrap keys. */
  predicate Ordinary(b: Boot, c: Command) {
    match c
    case CreditAccount(p) => !IsBootKey(b, KeyOf(p.key))
    case RecordAdjustment(p) => !IsBootKey(b, KeyOf(p.key))
    case ReleaseReservation(p) => !IsBootKey(b, KeyOf(p.key))
    case _ => true
  }

  predicate IsBootKey(b: Boot, key: EntryKey) {
    Same(key, Given(b.mirror.bootstrapKey)) || Same(key, Given(b.backfillKey))
  }

  predicate ValidBoot(b: Boot) {
    && ValidMirror(b.mirror) && !HasEntryPrefix(b.mirror.bootstrapKey) && !HasEntryPrefix(b.backfillKey)
    && !Same(b.mirror.bootstrapKey, b.backfillKey)
  }

  /** A bootstrap entry of the owner is a grant on the owner's account. */
  predicate BootEntries(s: Ledger, b: Boot) {
    forall i | 0 <= i < |s.entries| && IsBootKey(b, s.entries[i].key) ::
      s.entries[i].entryType.GrantCredit? && AccountOf(s, b.mirror) == Some(s.entries[i].account)
  }

  /** At most one entry stands under the two bootstrap keys together. */
  predicate AtMostOne(s: Ledger, b: Boot) {
    forall i, j | 0 <= i < |s.entries| && 0 <= j < |s.entries| &&
                  IsBootKey(b, s.entries[i].key) && IsBootKey(b, s.entries[j].key) :: i == j
  }

  ghost predicate Booted(s: Ledger, b: Boot) {
    Books(s) && Funded(s) && BootEntries(s, b) && AtMostOne(s, b)
  }

  // ----- A move keeps whoever has a reservation funded -----

  lemma {:induction false} FundedKept(s: Ledger, s': Ledger)
    requires Books(s) && Books(s') && Extends(s, s') && Funded(s)
    requires forall r | |s.reservations| <= r < |s'.reservations| :: Snap(s', s'.reservations[r].account).granted > 0
    ensures Funded(s')
  {
    forall r | 0 <= r < |s'.reservations| ensures Snap(s', s'.reservations[r].account).granted > 0 {
      if r < |s.reservations| {
        assert s'.reservations[r].(status := s.reservations[r].status) == s.reservations[r];
        GrantedNeverFalls(s, s', s.reservations[r].account);
      }
    }
  }

  lemma {:induction false} HoldIsFunded(s: Ledger, p: ReserveParams)
    requires Books(s) && Reserve(s, p).Done? && FindReservation(s.reservations, p.key).None?
    ensures var s' := Reserve(s, p).state;
      |s'.reservations| == |s.reservations| + 1 && Snap(s', s'.reservations[|s.reservations|].account).granted > 0
  {
    assert Holds(Conservation, s);
  }

  lemma {:induction false} NoNewReservation(s: Ledger, c: Command)
    requires c.CreateReservation? ==>
      Reserve(s, c.reserve).Failed? || FindReservation(s.reservations, c.reserve.key).Some?
    ensures |Step(s, c).reservations| == |s.reservations|
  {
    hide Snap;
  }

  lemma {:induction false} TrafficKeepsFunded(s: Ledger, c: Command)
    requires Books(s) && Funded(s)
    ensures Funded(Step(s, c))
  {
    hide Step, Reserve, Funded;
    StepKeepsBooks(s, c);
    StepExtends(s, c);
    if c.CreateReservation? && Reserve(s, c.reserve).Done? && FindReservation(s.reservations, c.reserve.key).None? {
      HoldIsFunded(s, c.reserve);
      StepReserves(s, c.reserve);
    } else {
      NoNewReservation(s, c);
    }
    FundedKept(s, Step(s, c));
  }

  lemma {:induction false} StepReserves(s: Ledger, p: ReserveParams)
    requires Reserve(s, p).Done?
    ensures Step(s, CreateReservation(p)) == Reserve(s, p).state
  {
    hide Reserve;
  }

  // ----- And bootstraps the owner at most once -----

  lemma {:induction false} OwnerStays(s: Ledger, s': Ledger, m: Mirror)
    requires Books(s') && s.accounts <= s'.accounts && AccountOf(s, m).Some?
    ensures AccountOf(s', m) == AccountOf(s, m)
  {
    assert Holds(AccountRows, s');
    var i := FindAccount(s.accounts, OwnerRow(m.owner)).value;
    assert s'.accounts[i] == s.accounts[i];
  }

  lemma {:induction false} AttemptPostsNothing(s: Ledger, i: nat)
    ensures Attempt(s, i).entries == s.entries
  {
  }

  lemma {:induction false} OrdinaryEntries(s: Ledger, b: Boot, c: Command)
    requires Ordinary(b, c) && ValidBoot(b)
    ensures s.entries <= Step(s, c).entries
    ensures forall i | |s.entries| <= i < |Step(s, c).entries| :: !IsBootKey(b, Step(s, c).entries[i].key)
  {
    hide Snap, FindEntry, FindReservation, FindSettlement, FindEvent, Close, Attempt;
    AttemptPostsNothing(s, if c.WorkerAttempt? then c.event else 0);
  }

  lemma {:induction false} NoBootEntryAdded(s: Ledger, s': Ledger, b: Boot)
    requires BootEntries(s, b) && AtMostOne(s, b) && Books(s') && s.accounts <= s'.accounts && s.entries <= s'.entries
    requires forall i | |s.entries| <= i < |s'.entries| :: !IsBootKey(b, s'.entries[i].key)
    ensures BootEntries(s', b) && AtMostOne(s', b)
  {
    forall i | 0 <= i < |s'.entries| && IsBootKey(b, s'.entries[i].key)
      ensures s'.entries[i].entryType.GrantCredit? && AccountOf(s', b.mirror) == Some(s'.entries[i].account)
    {
      assert s'.entries[i] == s.entries[i];
      OwnerStays(s, s', b.mirror);
    }
    forall i, j | 0 <= i < |s'.entries| && 0 <= j < |s'.entries| &&
                  IsBootKey(b, s'.entries[i].key) && IsBootKey(b, s'.entries[j].key)
      ensures i == j
    {
      assert s'.entries[i] == s.entries[i] && s'.entries[j] == s.entries[j];
    }
  }

  lemma {:induction false} TrafficKeepsBooted(s: Ledger, b: Boot, c: Command)
    requires Booted(s, b) && ValidBoot(b) && Ordinary(b, c)
    ensures Booted(Step(s, c), b)
  {
    hide Step, Funded, Ordinary, ValidBoot;
    StepKeepsBooks(s, c);
    StepExtends(s, c);
    TrafficKeepsFunded(s, c);
    OrdinaryEntries(s, b, c);
    NoBootEntryAdded(s, Step(s, c), b);
  }

  /** Both guards see an earlier bootstrap of the account. */
  lemma {:induction false} GuardsSeeBootstrap(s: Ledger, b: Boot, a: AccountId)
    requires Booted(s, b) && AccountOf(s, b.mirror) == Some(a)
    requires !HasEntries(s.entries, a) || !NonZero(Snap(s, a))
    ensures forall i | 0 <= i < |s.entries| :: !IsBootKey(b, s.entries[i].key)
  {
    GuardsAgree(s, a);
    forall i | 0 <= i < |s.entries| && IsBootKey(b, s.entries[i].key) ensures false {
      CreditedIsGranted(s, i);
    }
  }

  lemma {:induction false} FirstBootstrap(s: Ledger, b: Boot, p: CreditParams)
    requires Booted(s, b) && ValidBoot(b) && AccountOf(s, b.mirror) == Some(p.account)
    requires forall i | 0 <= i < |s.entries| :: !IsBootKey(b, s.entries[i].key)
    requires Credit(s, p).Done?
    ensures Booted(Credit(s, p).state, b)
  {
    hide Booted;
    var s' := Credit(s, p).state;
    assert Books(s) && Funded(s) by { BootedParts(s, b); }
    TrafficKeepsFunded(s, CreditAccount(p));
    CreditKeepsBooks(s, p);
    if FindEntry(s.entries, KeyOf(p.key)).None? {
      CreditPosts(s, p);
      OneEntryAdded(s, s', b, GrantEntry(p, Snap(s, p.account).available + p.amount));
      BootedFrom(s', b);
    }
  }

  lemma {:induction false} BootedParts(s: Ledger, b: Boot)
    requires Booted(s, b)
    ensures Books(s) && Funded(s) && BootEntries(s, b) && AtMostOne(s, b)
  {
  }

  lemma {:induction false} BootedFrom(s: Ledger, b: Boot)
    requires Books(s) && Funded(s) && BootEntries(s, b) && AtMostOne(s, b)
    ensures Booted(s, b)
  {
  }

  lemma {:induction false} OneEntryAdded(s: Ledger, s': Ledger, b: Boot, e: Entry)
    requires forall i | 0 <= i < |s.entries| :: !IsBootKey(b, s.entries[i].key)
    requires s'.entries == s.entries + [e] && s'.accounts == s.accounts
    requires e.entryType.GrantCredit? && AccountOf(s, b.mirror) == Some(e.account)
    ensures BootEntries(s', b) && AtMostOne(s', b)
  {
  }

  lemma {:induction false} OpenedBooted(s: Ledger, b: Boot, newId: AccountId)
    requires Booted(s, b) && ValidBoot(b) && Ensure(s, b.mirror.owner, newId).Done?
    ensures var o := Ensure(s, b.mirror.owner, newId);
      Booted(o.state, b) && AccountOf(o.state, b.mirror) == Some(o.value)
  {
    TrafficKeepsBooted(s, b, EnsureAccount(b.mirror.owner, newId));
    OpenedAccount(s, b.mirror, newId);
  }

  lemma {:induction false} OpenedAccount(s: Ledger, m: Mirror, newId: AccountId)
    requires ValidMirror(m) && Ensure(s, m.owner, newId).Done?
    ensures var o := Ensure(s, m.owner, newId); AccountOf(o.state, m) == Some(o.value)
  {
  }

  lemma {:induction false} MoveKeepsBooted(s: Ledger, b: Boot, move: Move)
    requires Booted(s, b) && ValidBoot(b) && (move.Traffic? ==> Ordinary(b, move.c))
    ensures Booted(Make(s, b, move), b)
  {
    hide Booted, ValidBoot, Ensure, Credit, Ordinary, IsBootKey, Step;
    match move
    case Traffic(c) => TrafficKeepsBooted(s, b, c);
    case MirrorOnUse(balance, newId) =>
      var e := Ensure(s, b.mirror.owner, newId);
      if e.Done? {
        OpenedBooted(s, b, newId);
        var p := BootstrapCredit(b.mirror, e.value, balance);
        if !NonZero(Snap(e.state, e.value)) && Credit(e.state, p).Done? {
          GuardsSeeBootstrap(e.state, b, e.value);
          FirstBootstrap(e.state, b, p);
        }
      }
    case Backfill(amount, newId) =>
      var e := Ensure(s, b.mirror.owner, newId);
      if e.Done? {
        OpenedBooted(s, b, newId);
        var p := BackfillCredit(b, e.value, amount);
        if !HasEntries(e.state.entries, e.value) && Credit(e.state, p).Done? {
          GuardsSeeBootstrap(e.state, b, e.value);
          FirstBootstrap(e.state, b, p);
        }
      }
  }

  /** However the two bootstraps of an owner are interleaved with each other and with ordinary traffic, the
      ledger records at most one bootstrap credit for it. */
  lemma {:induction false} BootstrappedOnce(b: Boot, moves: seq<Move>)
    requires ValidBoot(b) && forall i | 0 <= i < |moves| && moves[i].Traffic? :: Ordinary(b, moves[i].c)
    ensures Booted(MakeAll(EMPTY_LEDGER, b, moves), b)
  {
    if moves == [] {
      EmptyIsConsistent();
    } else {
      var n := |moves| - 1;
      BootstrappedOnce(b, moves[..n]);
      MoveKeepsBooted(MakeAll(EMPTY_LEDGER, b, moves[..n]), b, moves[n]);
    }
  }

  // ----- Outside a transaction -----

  /** The mirror that runs outside a caller's transaction reads the snapshot first and credits later. */
  predicate Decided(s: Ledger, m: Mirror, a: AccountId, balance: int) {
    AccountOf(s, m) == Some(a) && !NonZero(Snap(s, a)) && balance > 0
  }

  /** A credit decided on and posted later makes a second bootstrap exactly when the migration credited the
      account in between. */
  lemma {:induction false} OvertakenBootstrap(s: Ledger, b: Boot, a: AccountId, balance: int, s': Ledger)
    requires ValidBoot(b) && Decided(s, b.mirror, a, balance) && Booted(s', b) && Extends(s, s')
    requires Credit(s', BootstrapCredit(b.mirror, a, balance)).Done?
    ensures var s2 := Credit(s', BootstrapCredit(b.mirror, a, balance)).state;
      AtMostOne(s2, b) <==> FindEntry(s'.entries, Given(b.backfillKey)).None?
  {
    var p := BootstrapCredit(b.mirror, a, balance);
    var key := KeyOf(p.key);
    var found := FindEntry(s'.entries, key);
    var filled := FindEntry(s'.entries, Given(b.backfillKey));
    if found.None? {
      CreditPosts(s', p);
      var s2 := Credit(s', p).state;
      var n := |s'.entries|;
      assert s2.entries[n].key == key;
      if filled.Some? {
        assert s2.entries[filled.value].key == Given(b.backfillKey);
      } else {
        forall i | 0 <= i < |s2.entries| && IsBootKey(b, s2.entries[i].key) ensures i == n {
        }
      }
    }
  }

  /** Which can happen: the migration runs between the mirror's reading and its credit. */
  lemma {:induction false} BothCredited(s: Ledger, b: Boot, a: AccountId, amount: int, balance: int)
    requires ValidBoot(b) && Decided(s, b.mirror, a, balance) && |a| > 0 && !HasEntries(s.entries, a) && amount > 0
    requires Unused(s, b.backfillKey) && Unused(s, b.mirror.bootstrapKey)
    ensures var o := EnsureBootstrapCredit(s, b, amount, a);
      && o.Done? && Credit(o.state, BootstrapCredit(b.mirror, a, balance)).Done?
      && Snap(Credit(o.state, BootstrapCredit(b.mirror, a, balance)).state, a).granted == amount + balance
  {
    var e := Ensure(s, b.mirror.owner, a);
    EnsureExisting(s, b.mirror, a);
    assert Unused(e.state, b.backfillKey);
    FreshCreditSucceeds(e.state, BackfillCredit(b, a, amount));
    BackfilledThenCredited(e.state, b, a, amount, balance);
  }

  lemma {:induction false} BackfilledThenCredited(s: Ledger, b: Boot, a: AccountId, amount: int, balance: int)
    requires !HasEntryPrefix(b.mirror.bootstrapKey) && !HasEntryPrefix(b.backfillKey)
    requires !Same(b.mirror.bootstrapKey, b.backfillKey)
    requires |a| > 0 && amount > 0 && balance > 0 && Snap(s, a).granted == 0
    requires Unused(s, b.backfillKey) && Unused(s, b.mirror.bootstrapKey)
    ensures var o := Credit(s, BackfillCredit(b, a, amount));
      && o.Done? && Credit(o.state, BootstrapCredit(b.mirror, a, balance)).Done?
      && Snap(Credit(o.state, BootstrapCredit(b.mirror, a, balance)).state, a).granted == amount + balance
  {
    var s1 := Credit(s, BackfillCredit(b, a, amount)).state;
    assert s1.entries[..|s.entries|] == s.entries && s1.outbox[..|s.outbox|] == s.outbox;
  }
}
