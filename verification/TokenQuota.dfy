/** A request's token: its quota is adjusted in the same ledger, beside the wallet's hold. */
module TokenQuota {
  import opened LedgerSchema
  import opened LedgerRuntime
  import opened LedgerInvariants
  import opened LedgerEffects
  import opened WalletMirror
  import opened WalletStore
  import opened WalletOperations
  import opened RelayFunding

  /** The stores one relay request draws on: the ledger with the wallet column, and the token column. */
  datatype Till = Till(wallet: Wallet, tokenColumn: int)

  /** The request's own view of its token, and the token row itself. */
  datatype TokenInfo = TokenInfo(mirror: Mirror, id: int, playground: bool, requestUnlimited: bool, unlimited: bool)

  /** What one token call generates and what the stores refuse it. */
  datatype TokenCall = TokenCall(newId: AccountId, kr: OpKeys, ka: OpKeys, kc: OpKeys, x: AdjustFaults, missing: bool)

  function TokenWallet(t: Till): Wallet {
    Wallet(t.wallet.ledger, t.tokenColumn)
  }

  function AdjustTokenQuota(t: Till, i: TokenInfo, delta: int, c: TokenCall): (r: (Till, Result<()>)) {
    if i.id <= 0 || delta == 0 then (t, Success(()))
    else if c.missing then (t, Failure(StoreFailed))
    else if i.unlimited then (t, Success(()))
    else
      var (w, done) := AdjustToken(TokenWallet(t), i.mirror, delta, c.newId, c.kr, c.ka, c.kc, c.x);
      (Till(t.wallet.(ledger := w.ledger), w.column), done)
  }

  function RemainQuota(t: Till, i: TokenInfo): int {
    if i.unlimited then t.tokenColumn else ReadBalance(TokenWallet(t), i.mirror)
  }

  function PreConsumeTokenQuota(t: Till, i: TokenInfo, quota: int, c: TokenCall): (r: (Till, Result<()>)) {
    if quota < 0 then (t, Failure(InvalidParams))
    else if i.playground then (t, Success(()))
    else if c.missing then (t, Failure(StoreFailed))
    else if !i.requestUnlimited && RemainQuota(t, i) < quota then (t, Failure(InsufficientBalance))
    else AdjustTokenQuota(t, i, quota, c)
  }

  /** Whether calls change this token's quota at all. */
  predicate Metered(i: TokenInfo) {
    i.id > 0 && !i.unlimited
  }

  /** A token call moves the token column by exactly its amount or not at all, and never the wallet column. */
  lemma {:induction false} TokenMovesExactly(t: Till, i: TokenInfo, delta: int, c: TokenCall)
    ensures var (t', r) := AdjustTokenQuota(t, i, delta, c);
      && t'.wallet.column == t.wallet.column
      && t'.tokenColumn == t.tokenColumn - if r.Success? && Metered(i) then delta else 0
  {
    hide ApplyDelta, EnsureMirrored;
  }

  // ----- What a token call leaves alone -----

  predicate SettlementsUndisturbed(ss: seq<Settlement>, ss': seq<Settlement>, key: string) {
    ss <= ss' && forall i | |ss| <= i < |ss'| :: !Same(ss'[i].key, key)
  }

  /** From s to s' the request's rows stayed as they were. */
  ghost predicate LeavesRows(s: Ledger, s': Ledger, q: Request) {
    && Books(s') && s.accounts <= s'.accounts
    && RowsUndisturbed(s.reservations, s'.reservations, q.keys.reserve)
    && SettlementsUndisturbed(s.settlements, s'.settlements, q.keys.settle)
  }

  /** And its wallet account kept its balance. */
  ghost predicate LeavesRequest(s: Ledger, s': Ledger, a: AccountId, q: Request) {
    LeavesRows(s, s', q) && Available(s', a) == Available(s, a)
  }

  lemma {:induction false} LeavesNothing(s: Ledger, a: AccountId, q: Request)
    requires Books(s)
    ensures LeavesRequest(s, s, a, q)
  {
  }

  lemma {:induction false} LeavesTwice(s: Ledger, s1: Ledger, s2: Ledger, a: AccountId, q: Request)
    requires LeavesRequest(s, s1, a, q) && LeavesRequest(s1, s2, a, q)
    ensures LeavesRequest(s, s2, a, q)
  {
    hide Books;
    RowsUndisturbedTwice(s.reservations, s1.reservations, s2.reservations, q.keys.reserve);
  }

  lemma {:induction false} RowsUndisturbedTwice(rs: seq<Reservation>, rs1: seq<Reservation>, rs2: seq<Reservation>,
                                                key: string)
    requires RowsUndisturbed(rs, rs1, key) && RowsUndisturbed(rs1, rs2, key)
    ensures RowsUndisturbed(rs, rs2, key)
  {
    forall i | 0 <= i < |rs| ensures if Same(rs[i].key, key) then rs2[i] == rs[i] else !Same(rs2[i].key, key) {
      assert if Same(rs[i].key, key) then rs1[i] == rs[i] else !Same(rs1[i].key, key);
    }
  }

  lemma {:induction false} CreditLeaves(s: Ledger, p: CreditParams, a: AccountId, q: Request)
    requires Books(s) && Credit(s, p).Done? && !Same(p.account, a)
    ensures LeavesRequest(s, Credit(s, p).state, a, q)
  {
    CreditKeepsBooks(s, p);
    CreditFrame(s, p, a);
  }

  lemma {:induction false} CreditFrame(s: Ledger, p: CreditParams, a: AccountId)
    requires Credit(s, p).Done? && !Same(p.account, a)
    ensures var s' := Credit(s, p).state;
      && Available(s', a) == Available(s, a) && s'.accounts == s.accounts
      && s'.reservations == s.reservations && s'.settlements == s.settlements
  {
  }

  lemma {:induction false} ReserveLeaves(s: Ledger, p: ReserveParams, a: AccountId, q: Request)
    requires Books(s) && Reserve(s, p).Done? && !Same(p.account, a) && !Same(p.key, q.keys.reserve)
    ensures LeavesRequest(s, Reserve(s, p).state, a, q)
  {
    ReserveKeepsBooks(s, p);
    ReserveFrame(s, p, a);
    if FindReservation(s.reservations, p.key).None? {
      assert Reserve(s, p).state.reservations == s.reservations + [NewReservation(p)];
    }
  }

  lemma {:induction false} ReserveFrame(s: Ledger, p: ReserveParams, a: AccountId)
    requires Reserve(s, p).Done? && !Same(p.account, a)
    ensures var s' := Reserve(s, p).state;
      && Available(s', a) == Available(s, a) && s'.accounts == s.accounts && s'.settlements == s.settlements
      && s'.reservations == if FindReservation(s.reservations, p.key).None? then s.reservations + [NewReservation(p)]
                            else s.reservations
    ensures var s' := Reserve(s, p).state; var row := Reserve(s, p).value;
      row < |s'.reservations| && Same(s'.reservations[row].key, p.key) && Same(s'.reservations[row].account, p.account)
  {
  }

  lemma {:induction false} SettleLeaves(s: Ledger, p: SettleParams, a: AccountId, q: Request)
    requires Books(s) && Settle(s, p).Done? && p.reservation < |s.reservations| && !Same(p.key, q.keys.settle)
    requires !Same(s.reservations[p.reservation].account, a) && !Same(s.reservations[p.reservation].key, q.keys.reserve)
    ensures LeavesRequest(s, Settle(s, p).state, a, q)
  {
    SettleKeepsBooks(s, p);
    SettleFrame(s, p, a);
  }

  lemma {:induction false} SettleFrame(s: Ledger, p: SettleParams, a: AccountId)
    requires Settle(s, p).Done? && p.reservation < |s.reservations| && !Same(s.reservations[p.reservation].account, a)
    ensures var s' := Settle(s, p).state;
      && Available(s', a) == Available(s, a) && s'.accounts == s.accounts
      && (s'.reservations == s.reservations || s'.reservations == Close(s.reservations, p.reservation, Settled))
      && s.settlements <= s'.settlements
      && (forall i | |s.settlements| <= i < |s'.settlements| :: Same(s'.settlements[i].key, p.key))
  {
  }

  /** The operation's keys are none of the request's. */
  predicate ApartFrom(q: Request, k: OpKeys) {
    !Same(k.reservation, q.keys.reserve) && !Same(k.settlement, q.keys.settle)
  }

  lemma {:induction false} ApplyLeaves(s: Ledger, b: AccountId, delta: int, k: OpKeys, cut: Cut, a: AccountId,
                                       q: Request)
    requires Books(s) && !Same(b, a) && ApartFrom(q, k)
    ensures LeavesRequest(s, ApplyDelta(s, b, delta, k, cut).0, a, q)
  {
    hide Credit, Reserve, Settle, LeavesRequest, Books;
    LeavesNothing(s, a, q);
    if delta < 0 {
      if Credit(s, CreditOf(b, -delta, k)).Done? {
        CreditLeaves(s, CreditOf(b, -delta, k), a, q);
      }
    } else if delta > 0 {
      var o := Reserve(s, HoldOfOp(b, delta, k));
      if o.Done? {
        ReserveLeaves(s, HoldOfOp(b, delta, k), a, q);
        ReserveFrame(s, HoldOfOp(b, delta, k), a);
        ReserveKeepsBooks(s, HoldOfOp(b, delta, k));
        var p := ChargeOfOp(o.value, delta, k);
        if Settle(o.state, p).Done? {
          SettleLeaves(o.state, p, a, q);
          LeavesTwice(s, o.state, Settle(o.state, p).state, a, q);
        }
      }
    }
  }

  /** The wallet's account, and a token account of another owner. */
  ghost predicate WalletApart(s: Ledger, a: AccountId, q: Request, m: Mirror) {
    && Books(s) && AccountOf(s, q.mirror) == Some(a)
    && ValidMirror(q.mirror) && ValidMirror(m) && OwnerRow(m.owner) != OwnerRow(q.mirror.owner)
  }

  lemma {:induction false} WalletStaysApart(s: Ledger, s': Ledger, a: AccountId, q: Request, m: Mirror)
    requires WalletApart(s, a, q, m) && Books(s') && s.accounts <= s'.accounts
    ensures WalletApart(s', a, q, m)
  {
    assert Holds(AccountRows, s');
    var i := FindAccount(s.accounts, OwnerRow(q.mirror.owner)).value;
    assert s'.accounts[i] == s.accounts[i];
  }

  /** Opening or finding the token account touches the wallet account neither way. */
  lemma {:induction false} EnsureLeaves(s: Ledger, m: Mirror, newId: AccountId, a: AccountId, q: Request)
    requires WalletApart(s, a, q, m) && Ensure(s, m.owner, newId).Done?
    ensures var o := Ensure(s, m.owner, newId); LeavesRequest(s, o.state, a, q) && !Same(o.value, a)
  {
    EnsureKeepsBooks(s, m.owner, newId);
    EnsureTouchesNoBalance(s, m.owner, newId);
    assert Holds(AccountRows, s);
    EnsureOpensAnother(s, m, newId, a, q);
  }

  lemma {:induction false} EnsureOpensAnother(s: Ledger, m: Mirror, newId: AccountId, a: AccountId, q: Request)
    requires DistinctAccounts(s.accounts) && AccountOf(s, q.mirror) == Some(a)
    requires ValidMirror(m) && OwnerRow(m.owner) != OwnerRow(q.mirror.owner)
    requires Ensure(s, m.owner, newId).Done?
    ensures var o := Ensure(s, m.owner, newId); !Same(o.value, a) && s.accounts <= o.state.accounts
  {
  }

  lemma {:induction false} MirroringLeaves(s: Ledger, m: Mirror, balance: int, newId: AccountId, x: AdjustFaults,
                                           a: AccountId, q: Request)
    requires WalletApart(s, a, q, m)
    ensures var (s', r) := EnsureMirrored(s, m, balance, newId, x.ensure, x.bootstrap);
      LeavesRequest(s, s', a, q) && (r.Success? ==> !Same(r.value, a))
  {
    hide Ensure, Credit, LeavesRequest;
    LeavesNothing(s, a, q);
    var e := Ensure(s, m.owner, newId);
    if !x.ensure && e.Done? {
      EnsureLeaves(s, m, newId, a, q);
      LeavesBooks(s, e.state, a, q);
      var p := BootstrapCredit(m, e.value, balance);
      if Credit(e.state, p).Done? {
        CreditLeaves(e.state, p, a, q);
        LeavesTwice(s, e.state, Credit(e.state, p).state, a, q);
      }
    }
  }

  lemma {:induction false} LeavesBooks(s: Ledger, s': Ledger, a: AccountId, q: Request)
    requires LeavesRequest(s, s', a, q)
    ensures Books(s') && s.accounts <= s'.accounts
  {
  }

  lemma {:induction false} MovingLeaves(w: Wallet, b: AccountId, delta: int, c: TokenCall, a: AccountId, q: Request)
    requires Books(w.ledger) && !Same(b, a) && ApartFrom(q, c.ka) && ApartFrom(q, c.kc)
    ensures LeavesRequest(w.ledger, MoveBoth(w, b, delta, c.ka, c.kc, c.x).0.ledger, a, q)
  {
    hide ApplyDelta, LeavesRequest, Books;
    ApplyLeaves(w.ledger, b, delta, c.ka, c.x.apply, a, q);
    var s1 := ApplyDelta(w.ledger, b, delta, c.ka, c.x.apply).0;
    LeavesBooks(w.ledger, s1, a, q);
    ApplyLeaves(s1, b, -delta, c.kc, c.x.compensate, a, q);
    LeavesTwice(w.ledger, s1, ApplyDelta(s1, b, -delta, c.kc, c.x.compensate).0, a, q);
  }

  lemma {:induction false} OpenedLeaves(w: Wallet, b: AccountId, balance: int, delta: int, c: TokenCall, a: AccountId,
                                        q: Request)
    requires Books(w.ledger) && !Same(b, a) && ApartFrom(q, c.kr) && ApartFrom(q, c.ka) && ApartFrom(q, c.kc)
    ensures LeavesRequest(w.ledger, AdjustOpened(w, b, balance, delta, c.kr, c.ka, c.kc, c.x).0.ledger, a, q)
  {
    hide ApplyDelta, MoveBoth, LeavesRequest, Books;
    var d := Available(w.ledger, b) - balance;
    ApplyLeaves(w.ledger, b, d, c.kr, c.x.reconcile, a, q);
    var s1 := ApplyDelta(w.ledger, b, d, c.kr, c.x.reconcile).0;
    LeavesBooks(w.ledger, s1, a, q);
    MovingLeaves(w.(ledger := s1), b, delta, c, a, q);
    LeavesTwice(w.ledger, s1, MoveBoth(w.(ledger := s1), b, delta, c.ka, c.kc, c.x).0.ledger, a, q);
  }

  /** A token call, whatever it runs into, leaves every other request's wallet side alone. */
  lemma {:induction false} TokenLeaves(t: Till, i: TokenInfo, delta: int, c: TokenCall, a: AccountId, q: Request)
    requires WalletApart(t.wallet.ledger, a, q, i.mirror)
    requires ApartFrom(q, c.kr) && ApartFrom(q, c.ka) && ApartFrom(q, c.kc)
    ensures LeavesRequest(t.wallet.ledger, AdjustTokenQuota(t, i, delta, c).0.wallet.ledger, a, q)
  {
    hide EnsureMirrored, AdjustOpened, LeavesRequest, Books, Holds;
    var s := t.wallet.ledger;
    LeavesNothing(s, a, q);
    var w := TokenWallet(t);
    var (s1, r) := EnsureMirrored(s, i.mirror, w.column, c.newId, c.x.ensure, c.x.bootstrap);
    MirroringLeaves(s, i.mirror, w.column, c.newId, c.x, a, q);
    if r.Success? {
      LeavesBooks(s, s1, a, q);
      OpenedLeaves(w.(ledger := s1), r.value, w.column, delta, c, a, q);
      var s2 := AdjustOpened(w.(ledger := s1), r.value, w.column, delta, c.kr, c.ka, c.kc, c.x).0.ledger;
      LeavesTwice(s, s1, s2, a, q);
    }
  }

  // ----- When a token call goes through -----

  /** The token's account is open or can be opened, every generated key is new, and nothing is refused but
      possibly the column. */
  ghost predicate TokenReady(s: Ledger, i: TokenInfo, c: TokenCall) {
    && Openable(s, i.mirror, c.newId)
    && FreshOp(s, c.kr) && FreshOp(s, c.ka) && FreshOp(s, c.kc)
    && Apart(i.mirror, c.kr, c.ka) && Apart(i.mirror, c.kr, c.kc) && Disjoint(c.ka, c.kc)
    && !c.missing && c.x == AdjustFaults(false, false, Never, Never, c.x.column, Never)
  }

  /** A token call goes through exactly when the column accepts the write and covers the amount. */
  lemma {:induction false} TokenGoesThrough(t: Till, i: TokenInfo, delta: int, c: TokenCall)
    requires TokenReady(t.wallet.ledger, i, c) && Metered(i) && delta != 0
    ensures AdjustTokenQuota(t, i, delta, c).1.Success? <==> !c.x.column && t.tokenColumn >= 0 && t.tokenColumn >= delta
  {
    hide AdjustToken, Openable, FreshOp;
    TokenAdjusted(TokenWallet(t), i.mirror, delta, c.newId, c.kr, c.ka, c.kc, c.x);
  }

  /** A key that none of the call's operations uses. */
  predicate KeyApart(i: TokenInfo, c: TokenCall, key: string) {
    Avoids(c.kr, key) && Avoids(c.ka, key) && Avoids(c.kc, key) && !Same(key, i.mirror.bootstrapKey)
  }

  lemma {:induction false} FreshAfterSettle(s: Ledger, p: SettleParams, k: OpKeys)
    requires Settle(s, p).Done? && FreshOp(s, k) && Avoids(k, p.key)
    ensures FreshOp(Settle(s, p).state, k)
  {
    hide Settle, Unused;
    SettleKeepsUnused(s, p, k.credit);
    SettleKeepsUnused(s, p, k.reservation);
    SettleKeepsUnused(s, p, k.settlement);
  }

  lemma {:induction false} SettleKeepsOthers(s: Ledger, p: SettleParams, b: AccountId)
    requires Settle(s, p).Done? && p.reservation < |s.reservations| && !Same(s.reservations[p.reservation].account, b)
    ensures var s' := Settle(s, p).state;
      Snap(s', b) == Snap(s, b) && s'.accounts == s.accounts && (b !in s.snapshots ==> b !in s'.snapshots)
  {
  }

  lemma {:induction false} OpenableAfterSettle(s: Ledger, p: SettleParams, a: AccountId, m: Mirror, newId: AccountId)
    requires Books(s) && Settle(s, p).Done? && p.reservation < |s.reservations|
    requires Same(s.reservations[p.reservation].account, a)
    requires Openable(s, m, newId) && Plain(p.key) && !Same(p.key, m.bootstrapKey)
    requires AccountOf(s, m).Some? ==> !Same(AccountOf(s, m).value, a)
    requires !Same(newId, a)
    ensures Openable(Settle(s, p).state, m, newId)
  {
    hide Settle, Unused, Books, Snap;
    SettleKeepsBooks(s, p);
    SettleKeepsOthers(s, p, newId);
    if AccountOf(s, m).Some? {
      SettleKeepsOthers(s, p, AccountOf(s, m).value);
    }
    if Unused(s, m.bootstrapKey) {
      SettleKeepsUnused(s, p, m.bootstrapKey);
    }
  }

  /** Settling the wallet's row leaves the token call ready. */
  lemma {:induction false} ReadyAfterSettle(s: Ledger, p: SettleParams, a: AccountId, q: Request, i: TokenInfo,
                                            c: TokenCall)
    requires WalletApart(s, a, q, i.mirror) && Settle(s, p).Done? && p.reservation < |s.reservations|
    requires Same(s.reservations[p.reservation].account, a) && TokenReady(s, i, c) && KeyApart(i, c, p.key)
    requires !Same(c.newId, a)
    ensures TokenReady(Settle(s, p).state, i, c)
  {
    hide Settle, FreshOp, Openable, Books;
    FreshAfterSettle(s, p, c.kr);
    FreshAfterSettle(s, p, c.ka);
    FreshAfterSettle(s, p, c.kc);
    OtherOwners(s, a, q, i.mirror);
    OpenableAfterSettle(s, p, a, i.mirror, c.newId);
  }

  lemma {:induction false} OtherOwners(s: Ledger, a: AccountId, q: Request, m: Mirror)
    requires WalletApart(s, a, q, m)
    ensures Books(s) && (AccountOf(s, m).Some? ==> !Same(AccountOf(s, m).value, a))
  {
    assert Holds(AccountRows, s);
  }

  // ----- What a token call does not use -----

  /** From s to s' the books stay in order, and neither the account identifier, nor the key, nor the owner
      came into use. */
  ghost predicate Spares(s: Ledger, s': Ledger, a: AccountId, m: Mirror, key: string) {
    && (Books(s) ==> Books(s'))
    && (!AccountExists(s.accounts, a) ==> !AccountExists(s'.accounts, a))
    && (a !in s.snapshots ==> a !in s'.snapshots)
    && (AccountOf(s, m).None? ==> AccountOf(s', m).None?)
    && (Unused(s, key) ==> Unused(s', key))
  }

  lemma {:induction false} SparesTwice(s: Ledger, s1: Ledger, s2: Ledger, a: AccountId, m: Mirror, key: string)
    requires Spares(s, s1, a, m, key) && Spares(s1, s2, a, m, key)
    ensures Spares(s, s2, a, m, key)
  {
    hide AccountExists, AccountOf, Unused, Books;
  }

  /** An operation on account b that opens none. */
  predicate MovesOnly(s: Ledger, s': Ledger, b: AccountId) {
    s'.accounts == s.accounts && forall a | a !in s.snapshots && !Same(a, b) :: a !in s'.snapshots
  }

  lemma {:induction false} CreditMovesOnly(s: Ledger, p: CreditParams)
    requires Credit(s, p).Done?
    ensures MovesOnly(s, Credit(s, p).state, p.account)
  {
    hide FindEntry, FindEvent, KeyOf;
  }

  lemma {:induction false} ReserveMovesOnly(s: Ledger, p: ReserveParams)
    requires Reserve(s, p).Done?
    ensures MovesOnly(s, Reserve(s, p).state, p.account)
  {
    hide FindEntry, FindEvent, FindReservation;
  }

  lemma {:induction false} SettleMovesOnly(s: Ledger, p: SettleParams)
    requires Settle(s, p).Done? && p.reservation < |s.reservations|
    ensures MovesOnly(s, Settle(s, p).state, s.reservations[p.reservation].account)
  {
    hide FindEntry, FindEvent, FindSettlement;
  }

  lemma {:induction false} ApplySpares(s: Ledger, b: AccountId, delta: int, k: OpKeys, cut: Cut, a: AccountId,
                                       m: Mirror, key: string)
    requires PlainKeys(k) && Avoids(k, key) && !Same(b, a)
    ensures Spares(s, ApplyDelta(s, b, delta, k, cut).0, a, m, key)
  {
    hide Credit, Reserve, Settle, Unused, AccountExists, FindAccount, Books;
    if delta < 0 {
      var p := CreditOf(b, -delta, k);
      if Credit(s, p).Done? {
        CreditSound(s, p);
        CreditMovesOnly(s, p);
        if Unused(s, key) {
          CreditKeepsUnused(s, p, key);
        }
      }
    } else if delta > 0 {
      var p := HoldOfOp(b, delta, k);
      var o := Reserve(s, p);
      if o.Done? {
        ReserveSound(s, p);
        ReserveMovesOnly(s, p);
        ReserveFrame2(s, p);
        if Unused(s, key) {
          ReserveKeepsUnused(s, p, key);
        }
        var q := ChargeOfOp(o.value, delta, k);
        if Settle(o.state, q).Done? {
          SettleSound(o.state, q);
          SettleMovesOnly(o.state, q);
          if Unused(o.state, key) {
            SettleKeepsUnused(o.state, q, key);
          }
        }
      }
    }
  }

  lemma {:induction false} CreditSound(s: Ledger, p: CreditParams)
    requires Credit(s, p).Done?
    ensures Books(s) ==> Books(Credit(s, p).state)
  {
    hide Credit, Books;
    if Books(s) {
      CreditKeepsBooks(s, p);
    }
  }

  lemma {:induction false} ReserveSound(s: Ledger, p: ReserveParams)
    requires Reserve(s, p).Done?
    ensures Books(s) ==> Books(Reserve(s, p).state)
  {
    hide Reserve, Books;
    if Books(s) {
      ReserveKeepsBooks(s, p);
    }
  }

  lemma {:induction false} SettleSound(s: Ledger, p: SettleParams)
    requires Settle(s, p).Done?
    ensures Books(s) ==> Books(Settle(s, p).state)
  {
    hide Settle, Books;
    if Books(s) {
      SettleKeepsBooks(s, p);
    }
  }

  lemma {:induction false} EnsureSound(s: Ledger, p: EnsureParams, newId: AccountId)
    requires Ensure(s, p, newId).Done?
    ensures Books(s) ==> Books(Ensure(s, p, newId).state)
  {
    hide Ensure, Books;
    if Books(s) {
      EnsureKeepsBooks(s, p, newId);
    }
  }

  lemma {:induction false} ReserveFrame2(s: Ledger, p: ReserveParams)
    requires Reserve(s, p).Done?
    ensures var o := Reserve(s, p);
      o.value < |o.state.reservations| && Same(o.state.reservations[o.value].account, p.account)
  {
    hide FindEntry, FindEvent;
  }

  lemma {:induction false} EnsureSpares(s: Ledger, i: Mirror, newId: AccountId, a: AccountId, m: Mirror, key: string)
    requires ValidMirror(i) && OwnerRow(i.owner) != OwnerRow(m.owner) && Ensure(s, i.owner, newId).Done?
    requires !Same(newId, a)
    requires !AccountExists(s.accounts, a)
    ensures Spares(s, Ensure(s, i.owner, newId).state, a, m, key) && !Same(Ensure(s, i.owner, newId).value, a)
  {
    hide Books;
    EnsureSound(s, i.owner, newId);
    EnsureAddsOther(s, i, newId, m);
    assert s.(accounts := Ensure(s, i.owner, newId).state.accounts,
              snapshots := Ensure(s, i.owner, newId).state.snapshots) ==
           Ensure(s, i.owner, newId).state;
  }

  lemma {:induction false} EnsureAddsOther(s: Ledger, i: Mirror, newId: AccountId, m: Mirror)
    requires ValidMirror(i) && OwnerRow(i.owner) != OwnerRow(m.owner) && Ensure(s, i.owner, newId).Done?
    ensures AccountOf(s, m).None? ==> AccountOf(Ensure(s, i.owner, newId).state, m).None?
  {
  }

  lemma {:induction false} MirroringSpares(s: Ledger, i: Mirror, balance: int, newId: AccountId, x: AdjustFaults,
                                           a: AccountId, m: Mirror, key: string)
    requires ValidMirror(i) && OwnerRow(i.owner) != OwnerRow(m.owner) && !Same(newId, a)
    requires !AccountExists(s.accounts, a)
    requires Plain(key) && Plain(i.bootstrapKey) && !Same(key, i.bootstrapKey)
    ensures var (s', r) := EnsureMirrored(s, i, balance, newId, x.ensure, x.bootstrap);
      Spares(s, s', a, m, key) && (r.Success? ==> !Same(r.value, a))
  {
    hide Ensure, Credit, Unused, AccountExists, FindAccount, Plain, Books;
    SparesItself(s, a, m, key);
    var e := Ensure(s, i.owner, newId);
    if !x.ensure && e.Done? {
      EnsureSpares(s, i, newId, a, m, key);
      var p := BootstrapCredit(i, e.value, balance);
      if Credit(e.state, p).Done? {
        CreditSound(e.state, p);
        CreditMovesOnly(e.state, p);
        if Unused(e.state, key) {
          CreditKeepsUnused(e.state, p, key);
        }
      }
    }
  }

  lemma {:induction false} MovingSpares(w: Wallet, b: AccountId, delta: int, c: TokenCall, a: AccountId, m: Mirror,
                                        key: string)
    requires PlainKeys(c.ka) && PlainKeys(c.kc) && Avoids(c.ka, key) && Avoids(c.kc, key) && !Same(b, a)
    ensures Spares(w.ledger, MoveBoth(w, b, delta, c.ka, c.kc, c.x).0.ledger, a, m, key)
  {
    hide ApplyDelta, Spares;
    ApplySpares(w.ledger, b, delta, c.ka, c.x.apply, a, m, key);
    var s1 := ApplyDelta(w.ledger, b, delta, c.ka, c.x.apply).0;
    ApplySpares(s1, b, -delta, c.kc, c.x.compensate, a, m, key);
    SparesTwice(w.ledger, s1, ApplyDelta(s1, b, -delta, c.kc, c.x.compensate).0, a, m, key);
  }

  lemma {:induction false} OpenedSpares(w: Wallet, b: AccountId, balance: int, delta: int, c: TokenCall,
                                        a: AccountId, m: Mirror, key: string)
    requires PlainKeys(c.kr) && PlainKeys(c.ka) && PlainKeys(c.kc) && !Same(b, a)
    requires Avoids(c.kr, key) && Avoids(c.ka, key) && Avoids(c.kc, key)
    ensures Spares(w.ledger, AdjustOpened(w, b, balance, delta, c.kr, c.ka, c.kc, c.x).0.ledger, a, m, key)
  {
    hide ApplyDelta, MoveBoth, Spares;
    var d := Available(w.ledger, b) - balance;
    ApplySpares(w.ledger, b, d, c.kr, c.x.reconcile, a, m, key);
    var s1 := ApplyDelta(w.ledger, b, d, c.kr, c.x.reconcile).0;
    MovingSpares(w.(ledger := s1), b, delta, c, a, m, key);
    SparesTwice(w.ledger, s1, MoveBoth(w.(ledger := s1), b, delta, c.ka, c.kc, c.x).0.ledger, a, m, key);
  }

  /** A token call's generated identifiers are not the ones kept for the wallet. */
  predicate CallApart(i: TokenInfo, c: TokenCall, a: AccountId, m: Mirror, key: string) {
    && ValidMirror(i.mirror) && OwnerRow(i.mirror.owner) != OwnerRow(m.owner) && !Same(c.newId, a)
    && PlainKeys(c.kr) && PlainKeys(c.ka) && PlainKeys(c.kc) && Plain(i.mirror.bootstrapKey) && KeyApart(i, c, key)
  }

  /** A token call, whatever it runs into, uses nothing that is kept for the wallet's first request. */
  lemma {:induction false} TokenSpares(t: Till, i: TokenInfo, delta: int, c: TokenCall, a: AccountId, m: Mirror,
                                       key: string)
    requires CallApart(i, c, a, m, key) && !AccountExists(t.wallet.ledger.accounts, a)
    ensures Spares(t.wallet.ledger, AdjustTokenQuota(t, i, delta, c).0.wallet.ledger, a, m, key)
  {
    hide EnsureMirrored, AdjustOpened, Spares, AccountExists, PlainKeys, Plain;
    var s := t.wallet.ledger;
    SparesItself(s, a, m, key);
    var w := TokenWallet(t);
    var (s1, r) := EnsureMirrored(s, i.mirror, w.column, c.newId, c.x.ensure, c.x.bootstrap);
    KeyIsPlain(i, c, key);
    MirroringSpares(s, i.mirror, w.column, c.newId, c.x, a, m, key);
    if r.Success? {
      OpenedSpares(w.(ledger := s1), r.value, w.column, delta, c, a, m, key);
      var s2 := AdjustOpened(w.(ledger := s1), r.value, w.column, delta, c.kr, c.ka, c.kc, c.x).0.ledger;
      SparesTwice(s, s1, s2, a, m, key);
    }
  }

  lemma {:induction false} KeyIsPlain(i: TokenInfo, c: TokenCall, key: string)
    requires KeyApart(i, c, key)
    ensures Plain(key)
  {
  }

  lemma {:induction false} SparesItself(s: Ledger, a: AccountId, m: Mirror, key: string)
    ensures Spares(s, s, a, m, key)
  {
    hide Books;
  }
}
