/** When a session settles: one that holds its amount, and a trusted one that holds it only then. */
module SessionAnswers {
  import opened LedgerSchema
  import opened LedgerRuntime
  import opened LedgerInvariants
  import opened LedgerEffects
  import opened WalletMirror
  import opened WalletStore
  import opened RelayFunding
  import opened TokenQuota
  import opened RequestStanding
  import opened BillingSession
  import opened SessionOpening

  // ----- A session that holds its amount -----

  /** With nothing refused, it is settled exactly when the balance covers what goes beyond the hold, and reports success
      exactly when the token covers that too; otherwise nothing happens. */
  lemma {:induction false} SettlesExactly(t: Tab, a: AccountId, k: Ticket, quota: int, c: Parts)
    requires Kept(t, a, k) && PartsApart(k, c) && !t.session.settled && t.session.preConsumed > 0
    requires SettleReady(t.till, a, k, c) && StatusIs(t.till.wallet.ledger, t.session.funding, Open)
    ensures var v := BillingSession.Settle(t.till, t.session, k, quota, c);
      var beyond := NoBelow(quota) - t.session.preConsumed;
      && (v.session.settled <==> beyond <= Available(t.till.wallet.ledger, a))
      && (v.result.Success? <==> v.session.settled && TokenCovers(t.till, k, beyond, c))
      && (!v.session.settled && !c.finish.undo ==> v.till == t.till && v.session == t.session)
  {
    hide SettleBoth, Sits, WalletApart, SettleReady, TokenCovers;
    var actual := NoBelow(quota);
    if actual - t.session.preConsumed <= Available(t.till.wallet.ledger, a) {
      SettlementOutcome(t.till, t.session, a, k, actual, c);
    } else {
      NotCovered(t, a, k, actual, c);
    }
  }

  lemma {:induction false} NotCovered(t: Tab, a: AccountId, k: Ticket, actual: int, c: Parts)
    requires Kept(t, a, k) && !t.session.settled && actual >= 0
    requires SettleReady(t.till, a, k, c) && StatusIs(t.till.wallet.ledger, t.session.funding, Open)
    requires actual - t.session.preConsumed > Available(t.till.wallet.ledger, a)
    ensures var v := SettleBoth(t.till, t.session, k, actual, c);
      v.result.Failure? && !v.session.settled && (!c.finish.undo ==> v.till == t.till && v.session == t.session)
  {
    hide SettleHold, Sits, WalletApart, Unused, TokenReady, KeyApart;
    var f := t.session.funding;
    var delta := actual - t.session.preConsumed;
    FinishGoesThrough(t.till.wallet, a, k.request, f, delta, c.finish);
    FailureUndone(t.till.wallet, f, k.request, delta, c.finish);
  }

  lemma {:induction false} FailureUndone(w: Wallet, f: Funding, q: Request, delta: int, x: Faults)
    ensures var r := SettleHold(w, f, q, delta, x);
      r.result.Failure? && !x.undo ==> r.wallet == w && r.funding == f
  {
    hide LedgerRuntime.Settle;
  }

  // ----- A refund -----

  /** An untrusted session needs a refund exactly while it is neither settled nor refunded and something was taken;
      otherwise asking for one answers success and touches nothing. */
  lemma {:induction false} RefundDue(t: Tab, a: AccountId, k: Ticket, c: Parts)
    requires Kept(t, a, k) && !t.session.trusted
    ensures var due := !t.session.settled && !t.session.refunded && t.ledgerTaken > 0;
      && (NeedsRefund(t.session) <==> due)
      && (!due ==> RefundSync(t.till, t.session, k, c) == Turn(t.till, t.session, Success(()), false))
  {
    hide Books, Refund, AdjustTokenQuota;
    SeatedRow(t.till.wallet, a, k.request, t.session.funding);
  }

  // ----- A token call after the wallet's hold -----

  /** From l to l' the token's account kept its balances, and no key of the call came into use. */
  ghost predicate KeepsToken(l: Ledger, l': Ledger, i: TokenInfo, c: TokenCall) {
    && Books(l') && l'.accounts == l.accounts
    && (c.newId !in l.snapshots ==> c.newId !in l'.snapshots)
    && (AccountOf(l, i.mirror).Some? ==>
        var b := AccountOf(l, i.mirror).value; Snap(l', b) == Snap(l, b))
  }

  /** A key stays unused from l to l'. */
  predicate StaysUnused(l: Ledger, l': Ledger, key: string) {
    Unused(l, key) ==> Unused(l', key)
  }

  predicate StaysFresh(l: Ledger, l': Ledger, k: OpKeys) {
    StaysUnused(l, l', k.credit) && StaysUnused(l, l', k.reservation) && StaysUnused(l, l', k.settlement)
  }

  lemma {:induction false} StillReady(l: Ledger, l': Ledger, i: TokenInfo, c: TokenCall)
    requires TokenReady(l, i, c) && KeepsToken(l, l', i, c) && StaysUnused(l, l', i.mirror.bootstrapKey)
    requires StaysFresh(l, l', c.kr) && StaysFresh(l, l', c.ka) && StaysFresh(l, l', c.kc)
    ensures TokenReady(l', i, c)
  {
    hide Unused, Books, Disjoint, PlainKeys;
  }

  /** The account is opened already: nothing else comes into being. */
  lemma {:induction false} OpeningElsewhere(w: Wallet, a: AccountId, q: Request, newId: AccountId, x: Faults,
                                            b: AccountId)
    requires ValidMirror(q.mirror) && AccountOf(w.ledger, q.mirror) == Some(a) && !Same(a, b)
    ensures var s1 := EnsureAccount(w, NEW_FUNDING, q, newId, x).0; b !in w.ledger.snapshots ==> b !in s1.snapshots
  {
    EnsureExisting(w.ledger, q.mirror, newId);
  }

  lemma {:induction false} ReserveElsewhere(s: Ledger, p: ReserveParams, b: AccountId)
    requires LedgerRuntime.Reserve(s, p).Done? && !Same(p.account, b)
    ensures var s' := LedgerRuntime.Reserve(s, p).state;
      Snap(s', b) == Snap(s, b) && (b !in s.snapshots ==> b !in s'.snapshots)
  {
  }

  lemma {:induction false} HoldUses(s: Ledger, s1: Ledger, p: ReserveParams, key: string)
    requires SameHistory(s, s1) && s1.outbox == s.outbox && LedgerRuntime.Reserve(s1, p).Done?
    requires Plain(key) && Plain(p.key) && !Same(key, p.key)
    ensures StaysUnused(s, LedgerRuntime.Reserve(s1, p).state, key)
  {
    hide LedgerRuntime.Reserve, Plain, FindEntry, FindReservation, FindSettlement, FindEvent;
    if Unused(s, key) {
      assert Unused(s1, key);
      hide Unused;
      ReserveKeepsUnused(s1, p, key);
    }
  }

  lemma {:induction false} HoldUsesNone(s: Ledger, s1: Ledger, p: ReserveParams, k: OpKeys)
    requires SameHistory(s, s1) && s1.outbox == s.outbox && LedgerRuntime.Reserve(s1, p).Done?
    requires PlainKeys(k) && Avoids(k, p.key)
    ensures StaysFresh(s, LedgerRuntime.Reserve(s1, p).state, k)
  {
    hide LedgerRuntime.Reserve, Plain, StaysUnused, SameHistory;
    HoldUses(s, s1, p, k.credit);
    HoldUses(s, s1, p, k.reservation);
    HoldUses(s, s1, p, k.settlement);
  }

  /** The wallet's hold leaves a token call ready, and what the token reads unchanged. */
  lemma {:induction false} ReadyAfterHold(w: Wallet, a: AccountId, q: Request, amount: int, newId: AccountId, x: Faults,
                                          i: TokenInfo, c: TokenCall)
    requires Sits(w, a, q, NEW_FUNDING) && NewRequest(w.ledger, q) && WalletApart(w.ledger, a, q, i.mirror) && |a| > 0
    requires Unused(w.ledger, q.keys.reserve) && 0 < amount <= Available(w.ledger, a)
    requires !x.ensure && !x.ledger && !x.project
    requires KeyIsOther(i, c, q.keys.reserve) && !Same(c.newId, a)
    ensures var w' := PreConsume(w, NEW_FUNDING, q, amount, newId, x).wallet;
      && (TokenReady(w.ledger, i, c) ==> TokenReady(w'.ledger, i, c))
      && (AccountOf(w.ledger, i.mirror).Some? ==>
          var b := AccountOf(w.ledger, i.mirror).value; Available(w'.ledger, b) == Available(w.ledger, b))
      && w'.ledger.accounts == w.ledger.accounts
  {
    hide LedgerRuntime.Reserve, EnsureAccount, TokenReady, Books, Unused, Plain, Avoids;
    var (s1, account) := EnsureAccount(w, NEW_FUNDING, q, newId, x);
    EnsureAccounted(w, a, q, NEW_FUNDING, newId, x);
    AccountFound(w, q, newId, x);
    FreshHold(w.ledger, s1, q, account.value, amount);
    var p := HoldParams(q, account.value, amount);
    HoldEffect(s1, q, account.value, amount);
    OtherOwners(w.ledger, a, q, i.mirror);
    OpeningElsewhere(w, a, q, newId, x, c.newId);
    ReserveElsewhere(s1, p, c.newId);
    if AccountOf(w.ledger, i.mirror).Some? {
      ReserveElsewhere(s1, p, AccountOf(w.ledger, i.mirror).value);
    }
    KeyIsPlain(i, c, q.keys.reserve);
    HoldUses(w.ledger, s1, p, i.mirror.bootstrapKey);
    HoldUsesNone(w.ledger, s1, p, c.kr);
    HoldUsesNone(w.ledger, s1, p, c.ka);
    HoldUsesNone(w.ledger, s1, p, c.kc);
    if TokenReady(w.ledger, i, c) {
      StillReady(w.ledger, LedgerRuntime.Reserve(s1, p).state, i, c);
    }
  }

  // ----- A trusted session -----

  /** The request is new, nothing is refused, and the token call is ready beside it. */
  ghost predicate LateReady(t: Till, a: AccountId, k: Ticket, c: Parts) {
    OpeningReady(t, a, k, c) && !Same(c.pre.newId, a)
  }

  /** The late hold of a trusted session goes through exactly when the balance covers the amount and the token is good
      for it, as the hold of any other session would have when it was opened. */
  lemma {:induction false} LateHoldExactly(t: Till, a: AccountId, k: Ticket, amount: int, c: Parts)
    requires LateReady(t, a, k, c) && amount > 0
    ensures ReserveTrusted(t, NewSession(true, 0), k, amount, c).result.Success? <==>
            amount <= Available(t.wallet.ledger, a) && (k.token.playground || TokenAffords(t, k.token, amount, c.pre))
  {
    hide PreConsume, PreConsumeTokenQuota, Refund, TokenAffords, OpeningReady, Available;
    var p := PreConsume(t.wallet, NEW_FUNDING, k.request, amount, c.newId, c.hold);
    WalletPart(t, a, k, amount, c);
    if p.result.Success? {
      TokenPart(t, a, k, amount, c);
    }
  }

  lemma {:induction false} WalletPart(t: Till, a: AccountId, k: Ticket, amount: int, c: Parts)
    requires OpeningReady(t, a, k, c) && amount > 0
    ensures PreConsume(t.wallet, NEW_FUNDING, k.request, amount, c.newId, c.hold).result.Success? <==>
            amount <= Available(t.wallet.ledger, a)
  {
    hide PreConsume, WalletApart, Unused, NewRequest, TokenPrepared, KeyIsOther;
    NewTicketSits(t, a, k);
    HoldGoesThrough(t.wallet, a, k.request, amount, c.newId, c.hold);
  }

  lemma {:induction false} TokenPart(t: Till, a: AccountId, k: Ticket, amount: int, c: Parts)
    requires LateReady(t, a, k, c) && 0 < amount <= Available(t.wallet.ledger, a)
    ensures var p := PreConsume(t.wallet, NEW_FUNDING, k.request, amount, c.newId, c.hold);
      PreConsumeTokenQuota(t.(wallet := p.wallet), k.token, amount, c.pre).1.Success? <==>
      k.token.playground || TokenAffords(t, k.token, amount, c.pre)
  {
    hide PreConsume, PreConsumeTokenQuota, WalletApart, Unused, NewRequest, KeyIsOther, TokenReady, Available, Sits,
         AccountOf;
    var p := PreConsume(t.wallet, NEW_FUNDING, k.request, amount, c.newId, c.hold);
    NewTicketSits(t, a, k);
    ReadyAfterHold(t.wallet, a, k.request, amount, c.newId, c.hold, k.token, c.pre);
    SameAccountOf(t.wallet.ledger, p.wallet.ledger, k.token.mirror);
    TokenPartGoesThrough(t.(wallet := p.wallet), k.token, amount, c.pre);
  }

  lemma {:induction false} SameAccountOf(l: Ledger, l': Ledger, m: Mirror)
    requires l'.accounts == l.accounts
    ensures AccountOf(l', m) == AccountOf(l, m)
  {
  }

  /** The keys of the late hold and of the settlement after it do not meet. */
  predicate SettleKeyOther(l: Ledger, k: Ticket, c: Parts) {
    && Unused(l, k.request.keys.settle) && Plain(k.request.keys.settle) && Plain(k.request.keys.reserve)
    && !Same(k.request.keys.settle, k.request.keys.reserve) && KeyIsOther(k.token, c.pre, k.request.keys.settle)
  }

  /** So a trusted session of a new request is settled for an amount exactly when the balance covers it and the token is
      good for it; what it has paid is then the amount, as of any session. */
  lemma {:induction false} LateSettlement(t: Till, a: AccountId, k: Ticket, amount: int, c: Parts)
    requires LateReady(t, a, k, c) && SettleKeyOther(t.wallet.ledger, k, c) && !c.finish.ledger && amount > 0
    ensures BillingSession.Settle(t, NewSession(true, 0), k, amount, c).result.Success? <==>
            amount <= Available(t.wallet.ledger, a) && (k.token.playground || TokenAffords(t, k.token, amount, c.pre))
  {
    hide ReserveTrusted, SettleBoth, LateReady, TokenAffords, SettleKeyOther, Available;
    LateHoldExactly(t, a, k, amount, c);
    var v := ReserveTrusted(t, NewSession(true, 0), k, amount, c);
    if v.result.Success? {
      HeldLate(t, a, k, amount, c);
      SettlesHeld(v.till, v.session, a, k, amount, c);
    }
  }

  /** What the late hold leaves behind. */
  lemma {:induction false} HeldLate(t: Till, a: AccountId, k: Ticket, amount: int, c: Parts)
    requires LateReady(t, a, k, c) && SettleKeyOther(t.wallet.ledger, k, c) && amount > 0
    requires ReserveTrusted(t, NewSession(true, 0), k, amount, c).result.Success?
    ensures var v := ReserveTrusted(t, NewSession(true, 0), k, amount, c);
      && v.session.preConsumed == amount && !v.session.fundingSettled
      && Sits(v.till.wallet, a, k.request, v.session.funding)
      && StatusIs(v.till.wallet.ledger, v.session.funding, Open)
      && Unused(v.till.wallet.ledger, k.request.keys.settle)
  {
    hide PreConsume, PreConsumeTokenQuota, Refund, Sits, WalletApart, Unused, NewRequest, Plain, KeyIsOther,
         TokenPrepared;
    var p := PreConsume(t.wallet, NEW_FUNDING, k.request, amount, c.newId, c.hold);
    var t1 := t.(wallet := p.wallet);
    NewTicketSits(t, a, k);
    StuckHoldFails(t.wallet, k.request, NEW_FUNDING, amount, c.newId, c.hold);
    HoldSeats(t.wallet, a, k.request, NEW_FUNDING, amount, c.newId, c.hold);
    StaysApart(t.wallet, p.wallet, a, k.request, p.funding, k.token.mirror);
    HoldKeepsUnused(t.wallet, a, k.request, amount, c.newId, c.hold, k.request.keys.settle);
    PreTokenKeepsSeat(t1, a, k, p.funding, amount, c.pre);
    TokenKeepsKey(t1, a, k, amount, c.pre, k.request.keys.settle);
  }

  lemma {:induction false} TokenKeepsKey(t: Till, a: AccountId, k: Ticket, amount: int, c: TokenCall, key: string)
    requires WalletApart(t.wallet.ledger, a, k.request, k.token.mirror) && KeyIsOther(k.token, c, key)
    requires Unused(t.wallet.ledger, key)
    ensures Unused(PreConsumeTokenQuota(t, k.token, amount, c).0.wallet.ledger, key)
  {
    hide AdjustTokenQuota, Unused, WalletApart, KeyIsOther;
    TokenKeepsUnused(t, a, k.request, k.token, amount, c, key);
  }

  /** A settlement for exactly what is held asks nothing of the column, the balance or the token. */
  lemma {:induction false} SettlesHeld(t: Till, s: Session, a: AccountId, k: Ticket, amount: int, c: Parts)
    requires Sits(t.wallet, a, k.request, s.funding) && StatusIs(t.wallet.ledger, s.funding, Open)
    requires Unused(t.wallet.ledger, k.request.keys.settle) && !c.finish.ledger
    requires s.preConsumed == amount && !s.fundingSettled
    ensures SettleBoth(t, s, k, amount, c).result.Success?
  {
    hide SettleHold, Sits, Unused;
    ZeroFinish(t.wallet, a, k.request, s.funding, c.finish);
    NothingAsked(SettleHold(t.wallet, s.funding, k.request, 0, c.finish).wallet, t, k, c.post);
  }

  lemma {:induction false} NothingAsked(w: Wallet, t: Till, k: Ticket, c: TokenCall)
    ensures AdjustTokenQuota(t.(wallet := w), k.token, 0, c).1.Success?
  {
  }
}
