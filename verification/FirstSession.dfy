/** The first request of a wallet: its session is opened before the ledger knows the wallet. */
module FirstSession {
  import opened LedgerSchema
  import opened LedgerRuntime
  import opened LedgerInvariants
  import opened LedgerEffects
  import opened WalletMirror
  import opened WalletStore
  import opened RelayFunding
  import opened TokenQuota
  import opened RequestStanding
  import opened BillingSession
  import opened SessionFaults

  predicate NewKey(l: Ledger, k: Ticket, key: string) {
    Unused(l, key) && Plain(key) && !Same(key, k.request.mirror.bootstrapKey)
  }

  /** The wallet's account has not been opened, and no key of the request occurs in the ledger. */
  ghost predicate FirstRequest(t: Till, a: AccountId, k: Ticket) {
    && Unopened(t.wallet, a, k.request)
    && NewKey(t.wallet.ledger, k, k.request.keys.reserve) && NewKey(t.wallet.ledger, k, k.request.keys.settle)
    && NewKey(t.wallet.ledger, k, k.request.keys.undo) && !Same(k.request.keys.undo, k.request.keys.reserve)
  }

  /** A token call generates nothing that the wallet and its request are to use. */
  predicate CallNew(k: Ticket, c: TokenCall, a: AccountId) {
    var q := k.request;
    && CallApart(k.token, c, a, q.mirror, q.mirror.bootstrapKey) && CallApart(k.token, c, a, q.mirror, q.keys.reserve)
    && CallApart(k.token, c, a, q.mirror, q.keys.settle) && CallApart(k.token, c, a, q.mirror, q.keys.undo)
  }

  lemma {:induction false} StillFirst(t: Till, t': Till, a: AccountId, k: Ticket)
    requires FirstRequest(t, a, k) && t'.wallet.column == t.wallet.column
    requires var q := k.request; var l := t.wallet.ledger; var l' := t'.wallet.ledger;
      && Spares(l, l', a, q.mirror, q.mirror.bootstrapKey) && Spares(l, l', a, q.mirror, q.keys.reserve)
      && Spares(l, l', a, q.mirror, q.keys.settle) && Spares(l, l', a, q.mirror, q.keys.undo)
    ensures FirstRequest(t', a, k)
  {
    hide Unused, Plain, AccountOf, AccountExists, Books;
  }

  /** A token call before the first hold, whatever it runs into. */
  lemma {:induction false} TokenKeepsFirst(t: Till, a: AccountId, k: Ticket, delta: int, c: TokenCall)
    requires FirstRequest(t, a, k) && CallNew(k, c, a)
    ensures var (t', r) := AdjustTokenQuota(t, k.token, delta, c);
      && FirstRequest(t', a, k) && t'.wallet.column == t.wallet.column
      && t'.tokenColumn == t.tokenColumn - if r.Success? && Metered(k.token) then delta else 0
  {
    hide AdjustTokenQuota, Spares, NewKey, CallApart;
    TokenMovesExactly(t, k.token, delta, c);
    var q := k.request;
    NotOpenYet(t, a, k);
    TokenSpares(t, k.token, delta, c, a, q.mirror, q.mirror.bootstrapKey);
    TokenSpares(t, k.token, delta, c, a, q.mirror, q.keys.reserve);
    TokenSpares(t, k.token, delta, c, a, q.mirror, q.keys.settle);
    TokenSpares(t, k.token, delta, c, a, q.mirror, q.keys.undo);
    hide FirstRequest;
    StillFirst(t, AdjustTokenQuota(t, k.token, delta, c).0, a, k);
  }

  lemma {:induction false} NotOpenYet(t: Till, a: AccountId, k: Ticket)
    requires FirstRequest(t, a, k)
    ensures !AccountExists(t.wallet.ledger.accounts, a)
    ensures Unopened(t.wallet, a, k.request) && ReadBalance(t.wallet, k.request.mirror) == t.wallet.column
  {
  }

  lemma {:induction false} PreTokenKeepsFirst(t: Till, a: AccountId, k: Ticket, quota: int, c: TokenCall)
    requires FirstRequest(t, a, k) && CallNew(k, c, a)
    ensures var (t', r) := PreConsumeTokenQuota(t, k.token, quota, c);
      && FirstRequest(t', a, k) && t'.wallet.column == t.wallet.column
      && t'.tokenColumn == t.tokenColumn - if r.Success? && BillingSession.Charged(k) then quota else 0
  {
    hide AdjustTokenQuota, FirstRequest, CallNew;
    TokenKeepsFirst(t, a, k, quota, c);
  }

  /** The stores once first use has opened the wallet's account and the ledger has taken the column over. */
  function AtFirstUse(t: Till, a: AccountId, k: Ticket, x: Faults): Till {
    t.(wallet := OpenedWallet(t.wallet, a, k.request, x))
  }

  /** No store refuses the opening of the account. */
  predicate OpeningGoesThrough(t: Till, x: Faults) {
    !x.ensure && !(t.wallet.column > 0 && x.bootstrap)
  }

  /** From then on the request is one of an open account, that has taken nothing. */
  lemma {:induction false} OpensSeated(t: Till, a: AccountId, k: Ticket, x: Faults, c: TokenCall)
    requires FirstRequest(t, a, k) && CallNew(k, c, a) && !x.ensure
    ensures var t' := AtFirstUse(t, a, k, x);
      && SeatMoved(t', t', a, k, NEW_FUNDING) && NewRequest(t'.wallet.ledger, k.request)
      && Standing(t'.wallet.ledger, NEW_FUNDING) == 0
      && Available(t'.wallet.ledger, a) == if x.bootstrap then 0 else TakenOver(t.wallet.column)
  {
    hide EnsureMirrored, Unopened, Books, Unused, Plain;
    OpensOnFirstUse(t.wallet, a, k.request, x);
    NoRows(t, a, k);
    MirrorsValid(t, a, k, c);
    NewTicketSits(AtFirstUse(t, a, k, x), a, k);
  }

  lemma {:induction false} NoRows(t: Till, a: AccountId, k: Ticket)
    requires FirstRequest(t, a, k)
    ensures NewRequest(t.wallet.ledger, k.request)
  {
    UsedNowhere(t.wallet.ledger, k.request.keys.reserve);
  }

  lemma {:induction false} MirrorsValid(t: Till, a: AccountId, k: Ticket, c: TokenCall)
    requires FirstRequest(t, a, k) && CallNew(k, c, a)
    ensures ValidMirror(k.request.mirror) && ValidMirror(k.token.mirror)
    ensures OwnerRow(k.token.mirror.owner) != OwnerRow(k.request.mirror.owner)
  {
  }

  lemma {:induction false} KeysApart(k: Ticket, c: TokenCall, a: AccountId)
    requires CallNew(k, c, a)
    ensures ApartFrom(k.request, c.kr) && ApartFrom(k.request, c.ka) && ApartFrom(k.request, c.kc)
  {
  }

  lemma {:induction false} PartsNew(k: Ticket, c: Parts, a: AccountId)
    requires CallNew(k, c.pre, a) && CallNew(k, c.post, a)
    ensures PartsApart(k, c)
  {
    hide CallNew;
    KeysApart(k, c.pre, a);
    KeysApart(k, c.post, a);
  }

  /** The hold of the first session, once its account opens, is the hold of a session on an open account. */
  lemma {:induction false} FirstHeldAlike(t: Till, a: AccountId, k: Ticket, s: Session, held: int, c: Parts)
    requires FirstRequest(t, a, k) && c.newId == a && held > 0 && s.funding == NEW_FUNDING
    requires OpeningGoesThrough(t, c.hold)
    ensures OpenHeld(t, s, k, held, c) == OpenHeld(AtFirstUse(t, a, k, c.hold), s, k, held, c)
  {
    hide PreConsume, OpenedWallet, FirstRequest;
    NotOpenYet(t, a, k);
    hide Unopened;
    FirstHoldIsAHold(t.wallet, a, k.request, held, c.hold);
  }

  /** What a session that could not be opened leaves: the column as it was, the token short of what could not
      be given back, and a balance that reads as before, less a hold that could not be undone, or as zero when
      the account was opened and its bootstrap refused. */
  predicate Unspent(t: Till, t': Till, k: Ticket, x: Faults, held: int, tokenHeld: int) {
    && t'.wallet.column == t.wallet.column && t'.tokenColumn == t.tokenColumn - tokenHeld
    && (ReadBalance(t'.wallet, k.request.mirror) == t.wallet.column - held ||
        (!x.ensure && x.bootstrap && t.wallet.column > 0 && held == 0 && ReadBalance(t'.wallet, k.request.mirror) == 0))
  }

  /** The first session, holding an amount: wallet, column and token each stand that amount lower than the
      column and the token stood before, or nothing was opened and nothing taken but what a refused rollback
      left. */
  lemma {:induction false} FirstHoldOpens(t: Till, t1: Till, a: AccountId, k: Ticket, s: Session, amount: int, c: Parts)
    returns (held: bool, tokenHeld: bool)
    requires FirstRequest(t1, a, k) && CallNew(k, c.pre, a) && CallNew(k, c.post, a) && c.newId == a
    requires amount > 0 && s == NewSession(s.trusted, amount) && t.wallet.column > 0
    requires t1.wallet.column == t.wallet.column && t1.tokenColumn == t.tokenColumn - OfToken(k, amount)
    ensures OpenHeld(t1, s, k, amount, c).stuck <==> held || tokenHeld
    ensures var o := OpenHeld(t1, s, k, amount, c);
      match o.session
      case None =>
        Unspent(t, o.till, k, c.hold, if held then amount else 0, if tokenHeld then OfToken(k, amount) else 0)
      case Some(s') =>
        && s'.trusted == s.trusted && s'.preConsumed == amount && OpeningGoesThrough(t, c.hold)
        && Kept(Tab(o.till, s', amount, amount, OfToken(k, amount), false), a, k)
        && Available(o.till.wallet.ledger, a) == o.till.wallet.column == t.wallet.column - amount
        && o.till.tokenColumn == t.tokenColumn - OfToken(k, amount)
  {
    hide OpenHeld, FirstRequest, CallNew, Kept;
    PartsNew(k, c, a);
    if OpeningGoesThrough(t, c.hold) {
      held, tokenHeld := OpenedAndHeld(t, t1, a, k, s, amount, c);
    } else if c.hold.ensure {
      held := false;
      tokenHeld := EnsureRefused(t, t1, a, k, s, amount, c);
    } else {
      held := false;
      tokenHeld := BootstrapRefused(t, t1, a, k, s, amount, c);
    }
  }

  lemma {:induction false} OpenedAndHeld(t: Till, t1: Till, a: AccountId, k: Ticket, s: Session, amount: int, c: Parts)
    returns (held: bool, tokenHeld: bool)
    requires FirstRequest(t1, a, k) && CallNew(k, c.post, a) && PartsApart(k, c) && c.newId == a
    requires amount > 0 && s == NewSession(s.trusted, amount) && OpeningGoesThrough(t, c.hold) && t.wallet.column > 0
    requires t1.wallet.column == t.wallet.column && t1.tokenColumn == t.tokenColumn - OfToken(k, amount)
    ensures OpenHeld(t1, s, k, amount, c).stuck <==> held || tokenHeld
    ensures var o := OpenHeld(t1, s, k, amount, c);
      match o.session
      case None =>
        Unspent(t, o.till, k, c.hold, if held then amount else 0, if tokenHeld then OfToken(k, amount) else 0)
      case Some(s') =>
        && s'.trusted == s.trusted && s'.preConsumed == amount
        && Kept(Tab(o.till, s', amount, amount, OfToken(k, amount), false), a, k)
        && Available(o.till.wallet.ledger, a) == o.till.wallet.column == t.wallet.column - amount
        && o.till.tokenColumn == t.tokenColumn - OfToken(k, amount)
  {
    hide OpenHeld, EnsureMirrored, ReadBalance, FirstRequest, CallNew, PartsApart, Sits, WalletApart, NewRequest;
    hide Agrees;
    hide Standing;
    hide PreConsume, TokenHeld;
    FirstHeldAlike(t1, a, k, s, amount, c);
    OpensSeated(t1, a, k, c.hold, c.post);
    var t2 := AtFirstUse(t1, a, k, c.hold);
    var base := t2.(tokenColumn := t.tokenColumn);
    var o := OpenHeld(t2, s, k, amount, c);
    held, tokenHeld := false, false;
    if o.stuck {
      SitsServes(t2.wallet, a, k.request);
      StuckIsNone(t2, s, k, amount, c);
      FailedOpening(t2, a, k, s, amount, c);
      ReadsAvailable(o.till, a, k);
      var p := PreConsume(t2.wallet, NEW_FUNDING, k.request, amount, c.newId, c.hold);
      held, tokenHeld := p.stuck, TokenHeld(t2.(wallet := p.wallet), k, amount, c);
    } else {
      assert SeatMoved(base, t2, a, k, NEW_FUNDING);
      HoldOpens(base, t2, a, k, s, amount, c);
      if o.session.None? {
        ReadsAvailable(o.till, a, k);
      }
    }
  }

  lemma {:induction false} EnsureRefused(t: Till, t1: Till, a: AccountId, k: Ticket, s: Session, amount: int, c: Parts)
    returns (tokenHeld: bool)
    requires FirstRequest(t1, a, k) && CallNew(k, c.post, a) && c.hold.ensure && amount > 0
    requires s == NewSession(s.trusted, amount)
    requires t1.wallet.column == t.wallet.column && t1.tokenColumn == t.tokenColumn - OfToken(k, amount)
    ensures var o := OpenHeld(t1, s, k, amount, c);
      && o.session.None? && o.stuck == tokenHeld
      && Unspent(t, o.till, k, c.hold, 0, if tokenHeld then OfToken(k, amount) else 0)
  {
    hide AdjustTokenQuota, FirstRequest, CallNew, ReadBalance;
    HoldNotOpened(t1.wallet, k.request, amount, c);
    TokenKeepsFirst(t1, a, k, -amount, c.post);
    NotOpenYet(t1, a, k);
    NotOpenYet(AdjustTokenQuota(t1, k.token, -amount, c.post).0, a, k);
    tokenHeld := OpenHeld(t1, s, k, amount, c).stuck;
  }

  lemma {:induction false} HoldNotOpened(w: Wallet, q: Request, held: int, c: Parts)
    requires c.hold.ensure && held > 0
    ensures PreConsume(w, NEW_FUNDING, q, held, c.newId, c.hold) ==
            Relayed(w, NEW_FUNDING, Failure(StoreFailed), 0, false)
  {
  }

  lemma {:induction false} BootstrapRefused(t: Till, t1: Till, a: AccountId, k: Ticket, s: Session, amount: int,
                                            c: Parts)
    returns (tokenHeld: bool)
    requires FirstRequest(t1, a, k) && CallNew(k, c.post, a) && PartsApart(k, c) && c.newId == a
    requires !c.hold.ensure && t.wallet.column > 0 && c.hold.bootstrap && amount > 0
    requires s == NewSession(s.trusted, amount)
    requires t1.wallet.column == t.wallet.column && t1.tokenColumn == t.tokenColumn - OfToken(k, amount)
    ensures var o := OpenHeld(t1, s, k, amount, c);
      && o.session.None? && o.stuck == tokenHeld
      && Unspent(t, o.till, k, c.hold, 0, if tokenHeld then OfToken(k, amount) else 0)
  {
    hide AdjustTokenQuota, FirstRequest, CallNew, ReadBalance, PreConsume, EnsureMirrored, NewRequest, Standing;
    NotOpenYet(t1, a, k);
    hide Unopened;
    UnfilledFails(t1.wallet, a, k.request, amount, c.hold);
    OpensSeated(t1, a, k, c.hold, c.post);
    var t2 := AtFirstUse(t1, a, k, c.hold);
    hide Sits, WalletApart;
    ReadsAvailable(t2, a, k);
    if !k.token.playground {
      TokenKeepsSeat(t2, a, k, NEW_FUNDING, -amount, c.post);
      ReadsAvailable(AdjustTokenQuota(t2, k.token, -amount, c.post).0, a, k);
    }
    tokenHeld := OpenHeld(t1, s, k, amount, c).stuck;
  }

  /** The first session of a wallet.  It is opened exactly as OpeningOutcome says of later ones: holding the
      same amount in wallet, column and token, or nothing when it is trusted or asked for no more, or else it
      takes nothing but what a refused rollback left.  A session that holds nothing leaves the wallet
      unopened. */
  lemma {:induction false} FirstSessionHeldAlike(t: Till, a: AccountId, k: Ticket, quota: int, c: Parts)
    returns (held: bool, tokenHeld: bool)
    requires FirstRequest(t, a, k) && CallNew(k, c.pre, a) && CallNew(k, c.post, a) && c.newId == a
    ensures OpenSession(t, k, quota, c).stuck <==> held || tokenHeld
    ensures var o := OpenSession(t, k, quota, c);
      match o.session
      case None => Unspent(t, o.till, k, c.hold, if held then quota else 0, if tokenHeld then OfToken(k, quota) else 0)
      case Some(s) =>
        var amount := if s.trusted then 0 else quota;
        if amount <= 0 then o == Opening(t, Some(NewSession(s.trusted, 0).(preConsumed := amount)), false)
        else
          && s.preConsumed == amount && OpeningGoesThrough(t, c.hold)
          && Kept(Tab(o.till, s, amount, amount, OfToken(k, amount), false), a, k)
          && Available(o.till.wallet.ledger, a) == o.till.wallet.column == t.wallet.column - amount
          && o.till.tokenColumn == t.tokenColumn - OfToken(k, amount)
  {
    hide OpenHeld, PreConsumeTokenQuota, ReadBalance, FirstRequest, CallNew, Kept;
    held, tokenHeld := false, false;
    NotOpenYet(t, a, k);
    var userQuota := ReadBalance(t.wallet, k.request.mirror);
    var trusted := ShouldTrust(k, userQuota);
    var amount := if trusted then 0 else quota;
    if userQuota > 0 && userQuota - quota >= 0 {
      if amount <= 0 {
        NothingAsked(t, k, NewSession(trusted, 0), amount, c);
      } else {
        PreTokenKeepsFirst(t, a, k, amount, c.pre);
        var (t1, r) := PreConsumeTokenQuota(t, k.token, amount, c.pre);
        NotOpenYet(t1, a, k);
        if r.Success? {
          held, tokenHeld := FirstHoldOpens(t, t1, a, k, NewSession(trusted, amount), amount, c);
        }
      }
    }
  }

  /** A trusted first session: its settlement is that of the same session on the wallet as first use opens
      it, which is one that Kept describes; so all that is said of settlements holds of it. */
  lemma {:induction false} FirstLateHold(t: Till, a: AccountId, k: Ticket, quota: int, c: Parts, pre: TokenCall)
    requires FirstRequest(t, a, k) && CallNew(k, pre, a) && c.newId == a && OpeningGoesThrough(t, c.hold) && quota > 0
    ensures var t' := AtFirstUse(t, a, k, c.hold);
      && BillingSession.Settle(t, NewSession(true, 0), k, quota, c) ==
         BillingSession.Settle(t', NewSession(true, 0), k, quota, c)
      && Kept(Tab(t', NewSession(true, 0), 0, 0, 0, false), a, k)
      && Available(t'.wallet.ledger, a) == TakenOver(t.wallet.column)
      && t'.wallet.column == t.wallet.column && t'.tokenColumn == t.tokenColumn
  {
    hide PreConsume, EnsureMirrored, PreConsumeTokenQuota, Refund, SettleBoth, FirstRequest, Standing, NewRequest;
    hide CallNew;
    OpensSeated(t, a, k, c.hold, pre);
    NotOpenYet(t, a, k);
    hide Unopened, Sits, WalletApart;
    FirstHoldIsAHold(t.wallet, a, k.request, quota, c.hold);
    var s, t' := NewSession(true, 0), AtFirstUse(t, a, k, c.hold);
    assert ReserveTrusted(t, s, k, quota, c) == ReserveTrusted(t', s, k, quota, c);
    SeatedRow(t'.wallet, a, k.request, NEW_FUNDING);
  }

  /** When the opening is refused, that late hold fails and the session knows of nothing: a refused account
      leaves everything as it was, and a refused bootstrap an empty account. */
  lemma {:induction false} FirstLateHoldRefused(t: Till, a: AccountId, k: Ticket, quota: int, c: Parts)
    requires FirstRequest(t, a, k) && c.newId == a && !OpeningGoesThrough(t, c.hold) && quota > 0
    ensures var v := BillingSession.Settle(t, NewSession(true, 0), k, quota, c);
      && v.result.Failure? && !v.stuck && v.session == NewSession(true, 0)
      && v.till == if c.hold.ensure then t else AtFirstUse(t, a, k, c.hold)
  {
    hide EnsureMirrored, PreConsumeTokenQuota, Refund, SettleBoth, FirstRequest;
    NotOpenYet(t, a, k);
    if c.hold.ensure {
      HoldNotOpened(t.wallet, k.request, quota, c);
    } else {
      hide Unopened, PreConsume;
      UnfilledFails(t.wallet, a, k.request, quota, c.hold);
      UnfilledFunding(t.wallet, k.request, quota, a, c.hold);
    }
  }

  lemma {:induction false} UnfilledFunding(w: Wallet, q: Request, amount: int, a: AccountId, x: Faults)
    requires PreConsume(w, NEW_FUNDING, q, amount, a, x).result.Failure?
    ensures PreConsume(w, NEW_FUNDING, q, amount, a, x).funding == NEW_FUNDING
  {
    HoldKeepsItsSettlement(w, q, NEW_FUNDING, amount, a, x);
  }
}
