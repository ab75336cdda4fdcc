/** One request's hold on a wallet, kept in two stores: the ledger and the legacy quota column.
    Every external write may be refused; what was already done is then compensated. */
module RelayFunding {
  import opened LedgerSchema
  import opened LedgerRuntime
  import opened LedgerInvariants
  import opened LedgerEffects
  import opened WalletMirror

  /** The idempotency keys of one request. */
  datatype RelayKeys = RelayKeys(reserve: string, settle: string, release: string, undo: string)

  datatype Request = Request(id: string, mirror: Mirror, keys: RelayKeys)

  /** The keys of a request: the source, the request and the operation, joined by colons. */
  function KeysFor(source: string, id: string): RelayKeys {
    RelayKeys("relay:" + source + ":" + id + ":reserve", "relay:" + source + ":" + id + ":settle",
              "relay:" + source + ":" + id + ":release",
              "relay:" + source + ":" + id + ":release-after-projection-failure")
  }

  datatype Funding = Funding(account: Option<AccountId>, reservation: Option<nat>, settlement: Option<nat>,
                             reserved: int, legacyHeld: int)

  const NEW_FUNDING := Funding(None, None, None, 0, 0)

  /** Which external writes of a call the stores refuse: opening the account, its bootstrap credit,
      the ledger transaction, the column update, and the compensating step. */
  datatype Faults = Faults(ensure: bool, bootstrap: bool, ledger: bool, project: bool, undo: bool)

  /** The outcome of a call, and two figures the code does not keep: slip, by which the call moves
      the column away from the ledger, and stuck, that a compensating step was needed and refused. */
  datatype Relayed = Relayed(wallet: Wallet, funding: Funding, result: Result<()>, slip: int, stuck: bool)

  function Adopt(f: Funding, rs: seq<Reservation>, i: nat): Funding
    requires i < |rs|
  {
    var r := rs[i];
    f.(account := Some(r.account), reservation := Some(i), reserved := r.amount,
       legacyHeld := if r.status.Open? then r.amount else f.legacyHeld)
  }

  function EnsureAccount(w: Wallet, f: Funding, q: Request, newId: AccountId, x: Faults): (Ledger, Result<AccountId>) {
    if f.account.Some? then (w.ledger, Success(f.account.value))
    else EnsureMirrored(w.ledger, q.mirror, ReadBalance(w, q.mirror), newId, x.ensure, x.bootstrap)
  }

  function HoldParams(q: Request, a: AccountId, amount: int): ReserveParams {
    ReserveParams(a, q.id, "", amount, q.keys.reserve)
  }

  function UndoParams(q: Request, row: nat): ReleaseParams {
    ReleaseParams(row, q.keys.undo, "")
  }

  /** The hold has been recorded in row; now the column follows, or the hold is undone. */
  function ProjectHold(w: Wallet, f: Funding, q: Request, a: AccountId, row: nat, amount: int, x: Faults): Relayed {
    if x.project then
      var o := if x.undo then Failed(StoreFailed) else Release(w.ledger, UndoParams(q, row));
      Relayed(w.(ledger := After(w.ledger, o)), f, Failure(StoreFailed),
              if o.Done? then 0 else amount, !o.Done?)
    else
      Relayed(w.(column := w.column - amount),
              f.(account := Some(a), reservation := Some(row), reserved := amount, legacyHeld := amount),
              Success(()), 0, false)
  }

  function PreConsume(w: Wallet, f: Funding, q: Request, amount: int, newId: AccountId, x: Faults): Relayed {
    if amount <= 0 then Relayed(w, f, Success(()), 0, false)
    else if f.reservation.Some? then
      Relayed(w, f, if f.reserved != amount then Failure(LedgerConflict) else Success(()), 0, false)
    else
      var (s1, account) := EnsureAccount(w, f, q, newId, x);
      var w1 := w.(ledger := s1);
      match account
      case Failure(e) => Relayed(w1, f, Failure(e), 0, false)
      case Success(a) =>
        match FindReservation(s1.reservations, q.keys.reserve)
        case Some(i) => Relayed(w1, Adopt(f, s1.reservations, i), Success(()), 0, false)
        case None =>
          var o := if x.ledger then Failed(StoreFailed) else Reserve(s1, HoldParams(q, a, amount));
          match o
          case Failed(e) => Relayed(w1, f, Failure(e), 0, false)
          case Done(s2, row) => ProjectHold(w.(ledger := s2), f, q, a, row, amount, x)
  }

  function Charge(reserved: int, delta: int): int {
    if reserved + delta < 0 then 0 else reserved + delta
  }

  function SettleHold(w: Wallet, f: Funding, q: Request, delta: int, x: Faults): Relayed {
    if f.reservation.None? then Relayed(w, f, Failure(ReservationMissing), 0, false)
    else match FindSettlement(w.ledger.settlements, q.keys.settle)
    case Some(i) => Relayed(w, f.(settlement := Some(i)), Success(()), 0, false)
    case None =>
      if delta != 0 && x.project then Relayed(w, f, Failure(StoreFailed), 0, false)
      else
        var w1 := w.(column := w.column - delta);
        var f1 := f.(legacyHeld := f.legacyHeld + delta);
        var p := SettleParams(f.reservation.value, q.id, Charge(f.reserved, delta), q.keys.settle);
        match if x.ledger then Failed(StoreFailed) else Settle(w.ledger, p)
        case Done(s1, t) =>
          Relayed(w1.(ledger := s1), f1.(settlement := Some(t)), Success(()),
                  Charge(f.reserved, delta) - (f.reserved + delta), false)
        case Failed(e) =>
          if delta != 0 && x.undo then Relayed(w1, f1, Failure(e), -delta, true)
          else Relayed(w, f, Failure(e), 0, false)
  }

  function Refund(w: Wallet, f: Funding, q: Request, x: Faults): Relayed {
    if f.reservation.None? then Relayed(w, f, Success(()), 0, false)
    else if f.legacyHeld > 0 && x.project then Relayed(w, f, Failure(StoreFailed), 0, false)
    else
      var back := if f.legacyHeld > 0 then f.legacyHeld else 0;
      var row := f.reservation.value;
      match if x.ledger then Failed(StoreFailed) else Release(w.ledger, ReleaseParams(row, q.keys.release, ""))
      case Done(s1, _) =>
        Relayed(Wallet(s1, w.column + back), f.(legacyHeld := 0), Success(()), back - Freeing(w.ledger, row), false)
      case Failed(e) =>
        if back > 0 && x.undo then Relayed(w.(column := w.column + back), f, Failure(e), back, true)
        else Relayed(w, f, Failure(e), 0, false)
  }

  /** What releasing a row frees: its amount while it is open. */
  function Freeing(s: Ledger, row: nat): int {
    if row < |s.reservations| && s.reservations[row].status.Open? then s.reservations[row].amount else 0
  }

  // ----- One call -----

  /** The funding object's fields agree with the ledger row it owns. */
  predicate Owns(s: Ledger, a: AccountId, q: Request, f: Funding) {
    && (f.account.Some? ==> Same(f.account.value, a))
    && match f.reservation
       case None => f.legacyHeld == 0
       case Some(row) =>
         && row < |s.reservations|
         && var r := s.reservations[row];
         && Same(r.account, a) && Same(r.key, q.keys.reserve) && r.amount == f.reserved > 0
  }

  /** The column amount the funding believes it holds is the ledger's hold. */
  predicate InHand(s: Ledger, f: Funding) {
    f.reservation.Some? && f.reservation.value < |s.reservations| ==>
      var status := s.reservations[f.reservation.value].status;
      (status.Open? ==> f.legacyHeld == f.reserved) && (status.Released? ==> f.legacyHeld <= 0)
  }

  /** Reservations under the request's key belong to the wallet. */
  predicate KeyIsOurs(s: Ledger, a: AccountId, q: Request) {
    forall i | 0 <= i < |s.reservations| && Same(s.reservations[i].key, q.keys.reserve) ::
      Same(s.reservations[i].account, a)
  }

  /** The wallet's account exists and the request is one of its own. */
  ghost predicate Serves(w: Wallet, a: AccountId, q: Request, f: Funding) {
    && Books(w.ledger) && ValidMirror(q.mirror)
    && AccountOf(w.ledger, q.mirror) == Some(a)
    && Owns(w.ledger, a, q, f) && KeyIsOurs(w.ledger, a, q)
  }

  function Drift(w: Wallet, a: AccountId): int {
    w.column - Available(w.ledger, a)
  }

  /** Only the rows under the request's key may change, and new rows carry it. */
  predicate TouchesOnly(s: Ledger, s': Ledger, a: AccountId, q: Request) {
    && s'.accounts == s.accounts && |s.reservations| <= |s'.reservations|
    && (forall i | 0 <= i < |s.reservations| && !Same(s.reservations[i].key, q.keys.reserve) ::
          s'.reservations[i] == s.reservations[i])
    && (forall i | 0 <= i < |s.reservations| ::
          Same(s'.reservations[i].key, s.reservations[i].key) &&
          Same(s'.reservations[i].account, s.reservations[i].account))
    && (forall i | |s.reservations| <= i < |s'.reservations| ::
          Same(s'.reservations[i].key, q.keys.reserve) && Same(s'.reservations[i].account, a))
  }

  /** What every call guarantees: the books stand, the drift moves by exactly the slip, the funding
      still matches its row, and no other request's row was touched. */
  ghost predicate Accounted(w: Wallet, a: AccountId, q: Request, r: Relayed) {
    && Books(r.wallet.ledger)
    && Drift(r.wallet, a) == Drift(w, a) + r.slip
    && Owns(r.wallet.ledger, a, q, r.funding)
    && TouchesOnly(w.ledger, r.wallet.ledger, a, q)
  }

  lemma {:induction false} NothingDone(w: Wallet, a: AccountId, q: Request, f: Funding, r: Relayed)
    requires Serves(w, a, q, f) && r.wallet == w && r.slip == 0 && Owns(w.ledger, a, q, r.funding)
    ensures Accounted(w, a, q, r)
  {
  }

  lemma {:induction false} EnsureAccounted(w: Wallet, a: AccountId, q: Request, f: Funding, newId: AccountId, x: Faults)
    requires Serves(w, a, q, f)
    ensures var (s1, r) := EnsureAccount(w, f, q, newId, x);
      && Books(s1) && SameHistory(w.ledger, s1) && SameBalances(w.ledger, s1) && s1.accounts == w.ledger.accounts
      && (r.Success? ==> Same(r.value, a))
  {
    if f.account.None? {
      MirroringExisting(w, q.mirror, newId, x.ensure, x.bootstrap);
      if !x.ensure {
        EnsureKeepsBooks(w.ledger, q.mirror.owner, newId);
        EnsureExisting(w.ledger, q.mirror, newId);
      }
    }
  }

  /** The hold of a new request: its row, and the shift it causes. */
  lemma {:induction false} HoldEffect(s: Ledger, q: Request, a: AccountId, amount: int)
    requires Books(s) && FindReservation(s.reservations, q.keys.reserve).None?
    requires Reserve(s, HoldParams(q, a, amount)).Done?
    ensures var o := Reserve(s, HoldParams(q, a, amount));
      && Books(o.state) && o.value == |s.reservations| && o.state.accounts == s.accounts
      && o.state.reservations == s.reservations + [NewReservation(HoldParams(q, a, amount))]
      && Shifts(s, o.state, a, -amount) && amount > 0
  {
    ReserveKeepsBooks(s, HoldParams(q, a, amount));
    ReserveShifts(s, HoldParams(q, a, amount));
  }

  lemma {:induction false} ReleaseEffect(s: Ledger, p: ReleaseParams)
    requires Books(s) && Release(s, p).Done?
    ensures p.reservation < |s.reservations|
    ensures var o := Release(s, p); var r := s.reservations[p.reservation];
      && Books(o.state) && o.state.accounts == s.accounts
      && o.state.reservations == Close(s.reservations, p.reservation, Released)
      && Shifts(s, o.state, r.account, if r.status.Open? then r.amount else 0)
  {
    ReleaseKeepsBooks(s, p);
    ReleaseShifts(s, p);
  }

  lemma {:induction false} SettleEffect(s: Ledger, p: SettleParams)
    requires Books(s) && Settle(s, p).Done? && FindSettlement(s.settlements, p.key).None?
    ensures p.reservation < |s.reservations| && s.reservations[p.reservation].status.Open?
    ensures var o := Settle(s, p); var r := s.reservations[p.reservation];
      && Books(o.state) && o.state.accounts == s.accounts
      && o.state.reservations == Close(s.reservations, p.reservation, Settled)
      && Shifts(s, o.state, r.account, r.amount - p.actual)
  {
    SettleKeepsBooks(s, p);
    SettleShifts(s, p);
  }

  lemma {:induction false} PreConsumeAccounted(w: Wallet, a: AccountId, q: Request, f: Funding, amount: int,
                                               newId: AccountId, x: Faults)
    requires Serves(w, a, q, f)
    ensures Accounted(w, a, q, PreConsume(w, f, q, amount, newId, x))
  {
    if amount <= 0 || f.reservation.Some? {
      NothingDone(w, a, q, f, PreConsume(w, f, q, amount, newId, x));
    } else {
      var (s1, account) := EnsureAccount(w, f, q, newId, x);
      EnsureAccounted(w, a, q, f, newId, x);
      if account.Success? {
        var found := FindReservation(s1.reservations, q.keys.reserve);
        if found.Some? {
          AdoptOwns(s1, a, q, f, found.value);
        } else if !x.ledger && Reserve(s1, HoldParams(q, a, amount)).Done? {
          HoldEffect(s1, q, a, amount);
          HoldAccounted(w, s1, a, q, f, amount, x);
        }
      }
    }
  }

  lemma {:induction false} AdoptOwns(s: Ledger, a: AccountId, q: Request, f: Funding, i: nat)
    requires Books(s) && Owns(s, a, q, f) && KeyIsOurs(s, a, q) && f.reservation.None?
    requires i < |s.reservations| && Same(s.reservations[i].key, q.keys.reserve)
    ensures Owns(s, a, q, Adopt(f, s.reservations, i))
  {
    ReservationHasAccount(s, i);
  }

  lemma {:induction false} HoldAccounted(w: Wallet, s1: Ledger, a: AccountId, q: Request, f: Funding, amount: int,
                                         x: Faults)
    requires Books(s1) && SameHistory(w.ledger, s1) && SameBalances(w.ledger, s1) && s1.accounts == w.ledger.accounts
    requires f.reservation.None? && Owns(w.ledger, a, q, f)
    requires FindReservation(s1.reservations, q.keys.reserve).None? && Reserve(s1, HoldParams(q, a, amount)).Done?
    ensures var o := Reserve(s1, HoldParams(q, a, amount));
      Accounted(w, a, q, ProjectHold(w.(ledger := o.state), f, q, a, o.value, amount, x))
  {
    hide Reserve, Release, Books;
    HoldEffect(s1, q, a, amount);
    var o := Reserve(s1, HoldParams(q, a, amount));
    assert Available(s1, a) == Available(w.ledger, a);
    assert Available(o.state, a) == Available(s1, a) - amount;
    if x.project && !x.undo && Release(o.state, UndoParams(q, o.value)).Done? {
      ReleaseEffect(o.state, UndoParams(q, o.value));
      assert Available(Release(o.state, UndoParams(q, o.value)).state, a) == Available(o.state, a) + amount;
    }
  }

  lemma {:induction false} SettleAccounted(w: Wallet, a: AccountId, q: Request, f: Funding, delta: int, x: Faults)
    requires Serves(w, a, q, f)
    ensures Accounted(w, a, q, SettleHold(w, f, q, delta, x))
  {
    if f.reservation.Some? && FindSettlement(w.ledger.settlements, q.keys.settle).None? {
      var p := SettleParams(f.reservation.value, q.id, Charge(f.reserved, delta), q.keys.settle);
      if !(delta != 0 && x.project) && !x.ledger && Settle(w.ledger, p).Done? {
        SettleEffect(w.ledger, p);
        assert Available(Settle(w.ledger, p).state, a) == Available(w.ledger, a) + (f.reserved - p.actual);
      }
    }
  }

  lemma {:induction false} RefundAccounted(w: Wallet, a: AccountId, q: Request, f: Funding, x: Faults)
    requires Serves(w, a, q, f)
    ensures Accounted(w, a, q, Refund(w, f, q, x))
  {
    if f.reservation.Some? {
      var p := ReleaseParams(f.reservation.value, q.keys.release, "");
      if !(f.legacyHeld > 0 && x.project) && !x.ledger && Release(w.ledger, p).Done? {
        ReleaseEffect(w.ledger, p);
        var r := w.ledger.reservations[f.reservation.value];
        assert Available(Release(w.ledger, p).state, a) ==
               Available(w.ledger, a) + if r.status.Open? then r.amount else 0;
      }
    }
  }

  // ----- When a call leaves column and ledger in step -----

  /** A hold call leaves them in step unless its compensation was refused. */
  lemma {:induction false} PreConsumeInStep(w: Wallet, a: AccountId, q: Request, f: Funding, amount: int,
                                            newId: AccountId, x: Faults)
    requires Serves(w, a, q, f) && InHand(w.ledger, f)
    ensures var r := PreConsume(w, f, q, amount, newId, x);
      (r.slip == 0 <==> !r.stuck) && InHand(r.wallet.ledger, r.funding)
  {
    if amount > 0 && f.reservation.None? {
      var (s1, account) := EnsureAccount(w, f, q, newId, x);
      EnsureAccounted(w, a, q, f, newId, x);
      if account.Success? && FindReservation(s1.reservations, q.keys.reserve).None? && !x.ledger &&
         Reserve(s1, HoldParams(q, account.value, amount)).Done?
      {
        HoldEffect(s1, q, account.value, amount);
      }
    }
  }

  /** A settlement that goes through leaves them in step exactly when it does not ask for more than
      the hold back; one that fails does unless its compensation was refused. */
  lemma {:induction false} SettleInStep(w: Wallet, a: AccountId, q: Request, f: Funding, delta: int, x: Faults)
    requires Serves(w, a, q, f) && InHand(w.ledger, f)
    ensures var r := SettleHold(w, f, q, delta, x);
      var charged := |r.wallet.ledger.settlements| > |w.ledger.settlements|;
      && (r.slip == 0 <==> !r.stuck && (charged ==> delta >= -f.reserved))
      && (!r.stuck ==> InHand(r.wallet.ledger, r.funding))
  {
    if f.reservation.Some? && FindSettlement(w.ledger.settlements, q.keys.settle).None? {
      var p := SettleParams(f.reservation.value, q.id, Charge(f.reserved, delta), q.keys.settle);
      if !(delta != 0 && x.project) && !x.ledger && Settle(w.ledger, p).Done? {
        SettleEffect(w.ledger, p);
        SettleAddsRow(w.ledger, p);
      }
    }
  }

  lemma {:induction false} SettleAddsRow(s: Ledger, p: SettleParams)
    requires Settle(s, p).Done? && FindSettlement(s.settlements, p.key).None?
    ensures |Settle(s, p).state.settlements| == |s.settlements| + 1
  {
  }

  /** A refund leaves them in step unless its compensation was refused. */
  lemma {:induction false} RefundInStep(w: Wallet, a: AccountId, q: Request, f: Funding, x: Faults)
    requires Serves(w, a, q, f) && InHand(w.ledger, f)
    ensures var r := Refund(w, f, q, x);
      (r.slip == 0 <==> !r.stuck) && InHand(r.wallet.ledger, r.funding)
  {
    if f.reservation.Some? {
      var p := ReleaseParams(f.reservation.value, q.keys.release, "");
      if !(f.legacyHeld > 0 && x.project) && !x.ledger && Release(w.ledger, p).Done? {
        ReleaseEffect(w.ledger, p);
        ReleaseNeedsLive(w.ledger, p);
      }
    }
  }

  lemma {:induction false} ReleaseNeedsLive(s: Ledger, p: ReleaseParams)
    requires Release(s, p).Done?
    ensures s.reservations[p.reservation].status.Open? || s.reservations[p.reservation].status.Released?
  {
  }

  // ----- Many requests on one wallet -----

  datatype World = World(wallet: Wallet, fundings: map<Request, Funding>)

  /** A call of one request, or anything else that happens to the two stores in between. */
  datatype Call =
    | Hold(q: Request, amount: int, newId: AccountId, x: Faults)
    | Finish(q: Request, delta: int, x: Faults)
    | GiveBack(q: Request, x: Faults)
    | Elsewhere(next: Wallet)

  function Served(w: World, c: Call): Relayed
    requires !c.Elsewhere? && c.q in w.fundings
  {
    var f := w.fundings[c.q];
    match c
    case Hold(q, amount, newId, x) => PreConsume(w.wallet, f, q, amount, newId, x)
    case Finish(q, delta, x) => SettleHold(w.wallet, f, q, delta, x)
    case GiveBack(q, x) => Refund(w.wallet, f, q, x)
  }

  /** Other traffic may do anything that keeps the books, moves ledger and column alike and leaves the
      requests' rows alone. */
  ghost predicate Elsewheres(w: World, a: AccountId, next: Wallet) {
    && Books(next.ledger) && Drift(next, a) == Drift(w.wallet, a)
    && |w.wallet.ledger.reservations| <= |next.ledger.reservations|
    && forall q | q in w.fundings ::
         AccountOf(next.ledger, q.mirror) == Some(a) &&
         RowsUndisturbed(w.wallet.ledger.reservations, next.ledger.reservations, q.keys.reserve)
  }

  predicate RowsUndisturbed(rs: seq<Reservation>, rs': seq<Reservation>, key: string) {
    && |rs| <= |rs'|
    && (forall i | 0 <= i < |rs| && Same(rs[i].key, key) :: rs'[i] == rs[i])
    && (forall i | 0 <= i < |rs| && !Same(rs[i].key, key) :: !Same(rs'[i].key, key))
    && (forall i | |rs| <= i < |rs'| :: !Same(rs'[i].key, key))
  }

  ghost predicate Allowed(w: World, a: AccountId, c: Call) {
    if c.Elsewhere? then Elsewheres(w, a, c.next) else c.q in w.fundings
  }

  function Next(w: World, c: Call): World
    requires c.Elsewhere? || c.q in w.fundings
  {
    if c.Elsewhere? then w.(wallet := c.next)
    else var r := Served(w, c); World(r.wallet, w.fundings[c.q := r.funding])
  }

  function SlipOf(w: World, c: Call): int
    requires c.Elsewhere? || c.q in w.fundings
  {
    if c.Elsewhere? then 0 else Served(w, c).slip
  }

  ghost predicate WellKept(w: World, a: AccountId) {
    && (forall q | q in w.fundings :: Serves(w.wallet, a, q, w.fundings[q]))
    && (forall q, q' | q in w.fundings && q' in w.fundings && q != q' :: !Same(q.keys.reserve, q'.keys.reserve))
  }

  lemma {:induction false} ServedAccounted(w: World, a: AccountId, c: Call)
    requires WellKept(w, a) && !c.Elsewhere? && c.q in w.fundings
    ensures Accounted(w.wallet, a, c.q, Served(w, c))
  {
    var f := w.fundings[c.q];
    assert Serves(w.wallet, a, c.q, f);
    match c
    case Hold(q, amount, newId, x) => PreConsumeAccounted(w.wallet, a, q, f, amount, newId, x);
    case Finish(q, delta, x) => SettleAccounted(w.wallet, a, q, f, delta, x);
    case GiveBack(q, x) => RefundAccounted(w.wallet, a, q, f, x);
  }

  /** A call of one request leaves every other request served. */
  lemma {:induction false} OthersServed(w: Wallet, a: AccountId, q: Request, r: Relayed, q': Request, f': Funding)
    requires Accounted(w, a, q, r) && Serves(w, a, q', f') && !Same(q.keys.reserve, q'.keys.reserve)
    ensures Serves(r.wallet, a, q', f')
    ensures InHand(w.ledger, f') ==> InHand(r.wallet.ledger, f')
  {
  }

  lemma {:induction false} SelfServed(w: Wallet, a: AccountId, q: Request, f: Funding, r: Relayed)
    requires Accounted(w, a, q, r) && Serves(w, a, q, f)
    ensures Serves(r.wallet, a, q, r.funding)
  {
  }

  lemma {:induction false} StillServed(w: World, a: AccountId, next: Wallet, q: Request)
    requires q in w.fundings && Serves(w.wallet, a, q, w.fundings[q]) && Elsewheres(w, a, next)
    ensures Serves(next, a, q, w.fundings[q])
    ensures InHand(w.wallet.ledger, w.fundings[q]) ==> InHand(next.ledger, w.fundings[q])
  {
    assert RowsUndisturbed(w.wallet.ledger.reservations, next.ledger.reservations, q.keys.reserve);
  }

  lemma {:induction false} CallKeepsWorld(w: World, a: AccountId, c: Call)
    requires WellKept(w, a) && Allowed(w, a, c)
    ensures WellKept(Next(w, c), a) && Drift(Next(w, c).wallet, a) == Drift(w.wallet, a) + SlipOf(w, c)
  {
    hide PreConsume, SettleHold, Refund, Serves, Books, TouchesOnly, Owns;
    var w' := Next(w, c);
    if c.Elsewhere? {
      forall q | q in w'.fundings ensures Serves(w'.wallet, a, q, w'.fundings[q]) {
        StillServed(w, a, c.next, q);
      }
    } else {
      ServedAccounted(w, a, c);
      forall q | q in w'.fundings ensures Serves(w'.wallet, a, q, w'.fundings[q]) {
        assert Serves(w.wallet, a, q, w.fundings[q]);
        if q == c.q {
          SelfServed(w.wallet, a, q, w.fundings[q], Served(w, c));
        } else {
          OthersServed(w.wallet, a, c.q, Served(w, c), q, w.fundings[q]);
        }
      }
    }
  }

  /** A run of calls, each allowed when its turn comes. */
  ghost predicate Runs(w: World, a: AccountId, cs: seq<Call>)
    decreases |cs|
  {
    cs == [] || (Allowed(w, a, cs[0]) && Runs(Next(w, cs[0]), a, cs[1..]))
  }

  ghost function Final(w: World, a: AccountId, cs: seq<Call>): World
    requires Runs(w, a, cs)
    decreases |cs|
  {
    if cs == [] then w else Final(Next(w, cs[0]), a, cs[1..])
  }

  ghost function TotalSlip(w: World, a: AccountId, cs: seq<Call>): int
    requires Runs(w, a, cs)
    decreases |cs|
  {
    if cs == [] then 0 else SlipOf(w, cs[0]) + TotalSlip(Next(w, cs[0]), a, cs[1..])
  }

  /** Over any interleaving of any calls of any requests, whatever the stores refuse, the column moves
      away from the ledger by the sum of the calls' slips and by nothing else. */
  lemma {:induction false} RunAccounted(w: World, a: AccountId, cs: seq<Call>)
    requires WellKept(w, a) && Runs(w, a, cs)
    ensures WellKept(Final(w, a, cs), a)
    ensures Drift(Final(w, a, cs).wallet, a) == Drift(w.wallet, a) + TotalSlip(w, a, cs)
    decreases |cs|
  {
    if cs != [] {
      CallKeepsWorld(w, a, cs[0]);
      RunAccounted(Next(w, cs[0]), a, cs[1..]);
    }
  }

  ghost predicate AllInHand(w: World) {
    forall q | q in w.fundings :: InHand(w.wallet.ledger, w.fundings[q])
  }

  /** The call's compensation, if it needed one, went through, and a settlement asks for no more
      than its hold back. */
  predicate Clean(w: World, c: Call)
    requires c.Elsewhere? || c.q in w.fundings
  {
    c.Elsewhere? || (!Served(w, c).stuck && (c.Finish? ==> c.delta >= -w.fundings[c.q].reserved))
  }

  lemma {:induction false} CleanCall(w: World, a: AccountId, c: Call)
    requires WellKept(w, a) && Allowed(w, a, c) && AllInHand(w) && Clean(w, c)
    ensures SlipOf(w, c) == 0 && AllInHand(Next(w, c))
  {
    var w' := Next(w, c);
    if c.Elsewhere? {
      forall q | q in w'.fundings ensures InHand(w'.wallet.ledger, w'.fundings[q]) {
        StillServed(w, a, c.next, q);
      }
    } else {
      ServedAccounted(w, a, c);
      CleanlyServed(w, a, c);
      forall q | q in w'.fundings ensures InHand(w'.wallet.ledger, w'.fundings[q]) {
        assert InHand(w.wallet.ledger, w.fundings[q]);
        assert Serves(w.wallet, a, q, w.fundings[q]);
        if q != c.q {
          OthersServed(w.wallet, a, c.q, Served(w, c), q, w.fundings[q]);
        }
      }
    }
  }

  lemma {:induction false} CleanlyServed(w: World, a: AccountId, c: Call)
    requires WellKept(w, a) && !c.Elsewhere? && c.q in w.fundings && AllInHand(w) && Clean(w, c)
    ensures Served(w, c).slip == 0 && InHand(Served(w, c).wallet.ledger, Served(w, c).funding)
  {
    var f := w.fundings[c.q];
    assert Serves(w.wallet, a, c.q, f) && InHand(w.wallet.ledger, f);
    match c
    case Hold(q, amount, newId, x) => PreConsumeInStep(w.wallet, a, q, f, amount, newId, x);
    case Finish(q, delta, x) => SettleInStep(w.wallet, a, q, f, delta, x);
    case GiveBack(q, x) => RefundInStep(w.wallet, a, q, f, x);
  }

  ghost predicate CleanRun(w: World, a: AccountId, cs: seq<Call>)
    requires Runs(w, a, cs)
    decreases |cs|
  {
    cs == [] || (Clean(w, cs[0]) && CleanRun(Next(w, cs[0]), a, cs[1..]))
  }

  /** So a wallet whose column equals its ledger balance keeps it so over every run in which the
      compensating steps go through and no settlement asks for more than its hold back. */
  lemma {:induction false} CleanRunStaysInStep(w: World, a: AccountId, cs: seq<Call>)
    requires WellKept(w, a) && AllInHand(w) && Runs(w, a, cs) && CleanRun(w, a, cs)
    ensures Drift(Final(w, a, cs).wallet, a) == Drift(w.wallet, a) && AllInHand(Final(w, a, cs))
    decreases |cs|
  {
    if cs != [] {
      CallKeepsWorld(w, a, cs[0]);
      CleanCall(w, a, cs[0]);
      CleanRunStaysInStep(Next(w, cs[0]), a, cs[1..]);
    }
  }

  function KeyList(k: RelayKeys): seq<string> {
    [k.reserve, k.settle, k.release, k.undo]
  }

  /** Which key it is can be read off its end, and which request off its middle. */
  lemma {:induction false} KeyParts(source: string, id: string, i: nat)
    requires i < 4
    ensures var k := KeyList(KeysFor(source, id))[i];
      && |k| >= 2 && k[|k| - 2] == ['v', 'l', 's', 'r'][i]
      && var tail := [8, 7, 8, 33][i];
         7 + |source| + |id| + tail == |k| && k[7 + |source|..|k| - tail] == id
  {
    var front := "relay:" + source + ":";
    if i == 0 {
      assert KeysFor(source, id).reserve == front + id + ":reserve";
    } else if i == 1 {
      assert KeysFor(source, id).settle == front + id + ":settle";
    } else if i == 2 {
      assert KeysFor(source, id).release == front + id + ":release";
    } else {
      assert KeysFor(source, id).undo == front + id + ":release-after-projection-failure";
    }
  }

  /** The keys of two requests of one source never meet, nor do two keys of one request. */
  lemma {:induction false} KeysNeverMeet(source: string, id: string, id': string, i: nat, j: nat)
    requires i < 4 && j < 4 && (id != id' || i != j)
    ensures KeyList(KeysFor(source, id))[i] != KeyList(KeysFor(source, id'))[j]
  {
    hide KeysFor;
    KeyParts(source, id, i);
    KeyParts(source, id', j);
  }

  /** What a refund pays back to the column. */
  function PaidBack(f: Funding): int {
    if f.legacyHeld > 0 then f.legacyHeld else 0
  }

  /** A refund that goes through pays the column what the funding believes it holds and frees what the row
      still holds, so the two stores move alike exactly when these agree. */
  lemma {:induction false} RefundPaysWhatIsFreed(w: Wallet, a: AccountId, q: Request, f: Funding, x: Faults)
    requires Serves(w, a, q, f) && f.reservation.Some? && Refund(w, f, q, x).result.Success?
    ensures var r := Refund(w, f, q, x);
      && r.wallet.column == w.column + PaidBack(f)
      && Available(r.wallet.ledger, a) == Available(w.ledger, a) + Freeing(w.ledger, f.reservation.value)
      && (Drift(r.wallet, a) == Drift(w, a) <==> PaidBack(f) == Freeing(w.ledger, f.reservation.value))
  {
    hide Release, Serves;
    RefundAccounted(w, a, q, f, x);
  }

  /** So a request needs one funding object: two objects holding the same open row both pay the column
      back, while the ledger frees the hold once. */
  lemma {:induction false} TwoObjectsRefundTwice(w: Wallet, a: AccountId, q: Request, f: Funding, x: Faults)
    requires Serves(w, a, q, f) && InHand(w.ledger, f) && f.reservation.Some?
    requires w.ledger.reservations[f.reservation.value].status.Open? && Unused(w.ledger, q.keys.release)
    requires x == Faults(false, false, false, false, false)
    ensures var r1 := Refund(w, f, q, x);
      var r2 := Refund(r1.wallet, f, q, x);
      && r1.result.Success? && r2.result.Success?
      && r2.wallet.column == w.column + 2 * f.reserved
      && Available(r2.wallet.ledger, a) == Available(w.ledger, a) + f.reserved
  {
    var p := ReleaseParams(f.reservation.value, q.keys.release, "");
    FreshReleaseSucceeds(w.ledger, p);
    ReleaseEffect(w.ledger, p);
    var s1 := Release(w.ledger, p).state;
    assert Available(s1, a) == Available(w.ledger, a) + f.reserved;
    assert Release(s1, p) == Done(s1, f.reservation.value);
  }
}
