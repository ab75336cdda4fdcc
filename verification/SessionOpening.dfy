/** When a session opens, when it holds nothing, and when it may reserve. */
module SessionOpening {
  import opened LedgerSchema
  import opened LedgerRuntime
  import opened LedgerInvariants
  import opened LedgerEffects
  import opened LedgerRuns
  import opened WalletMirror
  import opened WalletStore
  import opened RelayFunding
  import opened TokenQuota
  import opened RequestStanding
  import opened BillingSession
  import opened FirstSession

  // ----- When the token pays -----

  /** What a token reads as its own: the ledger's balance once it has an account there, else its column; one
      without a limit always its column. */
  function TokenReads(t: Till, i: TokenInfo): int {
    match AccountOf(t.wallet.ledger, i.mirror)
    case Some(b) => if i.unlimited then t.tokenColumn else Available(t.wallet.ledger, b)
    case None => t.tokenColumn
  }

  /** Whether the token is good for an amount: its own request does not ask, or what it reads covers the amount,
      and its column accepts the write and covers it too. */
  predicate TokenAffords(t: Till, i: TokenInfo, amount: int, c: TokenCall) {
    && (i.requestUnlimited || amount <= TokenReads(t, i))
    && (amount == 0 || !Metered(i) || (!c.x.column && 0 <= t.tokenColumn && amount <= t.tokenColumn))
  }

  /** A call on a token that is not metered goes through without touching anything, unless its row is missing. */
  lemma {:induction false} UnmeteredToken(t: Till, i: TokenInfo, delta: int, c: TokenCall)
    requires delta == 0 || !Metered(i)
    ensures AdjustTokenQuota(t, i, delta, c) ==
            (t, if delta != 0 && i.id > 0 && c.missing then Failure(StoreFailed) else Success(()))
  {
  }

  lemma {:induction false} ReadsItsOwn(t: Till, i: TokenInfo)
    ensures RemainQuota(t, i) == TokenReads(t, i)
  {
  }

  /** What a hold on a token asks before it adjusts anything, in this order, and what it answers when that is
      refused: the amount, the token's row, and what the token reads. */
  lemma {:induction false} TokenRefuses(t: Till, i: TokenInfo, amount: int, c: TokenCall)
    requires amount < 0 || (!i.playground && (c.missing || (!i.requestUnlimited && TokenReads(t, i) < amount)))
    ensures PreConsumeTokenQuota(t, i, amount, c) ==
            (t, Failure(if amount < 0 then InvalidParams else if c.missing then StoreFailed else InsufficientBalance))
  {
    ReadsItsOwn(t, i);
    hide AdjustTokenQuota, RemainQuota, TokenReads;
  }

  /** The token's part of a hold goes through exactly when it is a playground's or the token is good for it. */
  lemma {:induction false} TokenPartGoesThrough(t: Till, i: TokenInfo, amount: int, c: TokenCall)
    requires i.playground || (!c.missing && (Metered(i) ==> TokenReady(t.wallet.ledger, i, c)))
    ensures PreConsumeTokenQuota(t, i, amount, c).1.Success? <==>
            amount >= 0 && (i.playground || TokenAffords(t, i, amount, c))
  {
    ReadsItsOwn(t, i);
    hide AdjustTokenQuota, RemainQuota, TokenReads, TokenReady;
    if !i.playground && amount >= 0 {
      if amount == 0 || !Metered(i) {
        UnmeteredToken(t, i, amount, c);
      } else {
        TokenGoesThrough(t, i, amount, c);
      }
    }
  }

  // ----- Keys that a token call leaves unused -----

  function LongestId(accounts: seq<Account>): nat {
    if accounts == [] then 0
    else
      var n := LongestId(accounts[..|accounts| - 1]);
      var m := |accounts[|accounts| - 1].id|;
      if m > n then m else n
  }

  lemma {:induction false} NoLongerId(accounts: seq<Account>, i: nat)
    requires i < |accounts|
    ensures |accounts[i].id| <= LongestId(accounts)
  {
    if i < |accounts| - 1 {
      NoLongerId(accounts[..|accounts| - 1], i);
    }
  }

  /** There is always another account identifier. */
  lemma {:induction false} AnotherId(accounts: seq<Account>, other: AccountId) returns (a: AccountId)
    ensures !AccountExists(accounts, a) && !Same(other, a)
  {
    a := NumberedKey(LongestId(accounts) + |other|);
    forall i | 0 <= i < |accounts| ensures !Same(accounts[i].id, a) {
      NoLongerId(accounts, i);
    }
  }

  /** None of the call's keys, nor the token's bootstrap key, is the given one. */
  predicate KeyIsOther(i: TokenInfo, c: TokenCall, key: string) {
    PlainKeys(c.kr) && PlainKeys(c.ka) && PlainKeys(c.kc) && Plain(i.mirror.bootstrapKey) && KeyApart(i, c, key)
  }

  lemma {:induction false} TokenKeepsUnused(t: Till, a: AccountId, q: Request, i: TokenInfo, delta: int, c: TokenCall,
                                            key: string)
    requires WalletApart(t.wallet.ledger, a, q, i.mirror) && KeyIsOther(i, c, key) && Unused(t.wallet.ledger, key)
    ensures Unused(AdjustTokenQuota(t, i, delta, c).0.wallet.ledger, key)
  {
    hide AdjustTokenQuota, Unused, Books, PlainKeys, Plain, KeyApart;
    var b := AnotherId(t.wallet.ledger.accounts, c.newId);
    TokenSpares(t, i, delta, c, b, q.mirror, key);
  }

  // ----- A wallet with an account -----

  /** The request is new, nothing is refused, and the token call's keys are new. */
  ghost predicate OpeningReady(t: Till, a: AccountId, k: Ticket, c: Parts) {
    && |a| > 0 && WalletApart(t.wallet.ledger, a, k.request, k.token.mirror) && PartsApart(k, c)
    && NewRequest(t.wallet.ledger, k.request) && Unused(t.wallet.ledger, k.request.keys.reserve)
    && !c.hold.ensure && !c.hold.ledger && !c.hold.project
    && (k.token.playground || TokenPrepared(t, k, c)) && KeyIsOther(k.token, c.pre, k.request.keys.reserve)
  }

  ghost predicate TokenPrepared(t: Till, k: Ticket, c: Parts) {
    !c.pre.missing && (Metered(k.token) ==> TokenReady(t.wallet.ledger, k.token, c.pre))
  }

  /** Which sessions hold nothing: those that draw on a standard wallet whose balance is above a limit that is
      set, for a token that is above it too or has none, unless holding is forced. */
  predicate SkipsHold(k: Ticket, balance: int) {
    && k.source == StandardWallet && !k.forcePreConsume && 0 < k.trustQuota < balance
    && (k.trustQuota < k.tokenQuota || k.token.requestUnlimited)
  }

  /** What must be covered for a session to open. */
  predicate Covered(t: Till, k: Ticket, balance: int, quota: int, c: Parts) {
    && 0 < balance && quota <= balance
    && (SkipsHold(k, balance) || quota <= 0 || k.token.playground || TokenAffords(t, k.token, quota, c.pre))
  }

  /** With nothing refused, a new request's session opens exactly when the balance is positive and covers the
      amount and, unless it skips its hold, the token is good for it; and it skips its hold exactly when stated. */
  lemma {:induction false} OpensExactly(t: Till, a: AccountId, k: Ticket, quota: int, c: Parts)
    requires OpeningReady(t, a, k, c)
    ensures var balance := Available(t.wallet.ledger, a);
      var o := OpenSession(t, k, quota, c);
      && (o.session.Some? <==> Covered(t, k, balance, quota, c))
      && (o.session.Some? ==>
            && o.session.value.trusted == SkipsHold(k, balance)
            && o.session.value.preConsumed == if SkipsHold(k, balance) then 0 else quota)
  {
    var balance := Available(t.wallet.ledger, a);
    ReadsAvailable(t, a, k);
    hide OpenHeld, PreConsumeTokenQuota, ReadBalance, TokenAffords, OpeningReady, Available;
    var trusted := ShouldTrust(k, balance);
    var held := if trusted then 0 else quota;
    if balance > 0 && quota <= balance {
      if held <= 0 {
        NothingToHoldOpens(t, NewSession(trusted, 0), k, held, c);
      } else {
        TokenPartOf(t, a, k, held, c);
        if PreConsumeTokenQuota(t, k.token, held, c.pre).1.Success? {
          HeldOpens(t, a, k, NewSession(trusted, held), held, c);
        }
      }
    }
  }

  lemma {:induction false} NothingToHoldOpens(t: Till, s: Session, k: Ticket, held: int, c: Parts)
    requires s == NewSession(s.trusted, 0) && held <= 0
    ensures OpenHeld(t, s, k, held, c) == Opening(t, Some(s.(preConsumed := held)), false)
  {
  }

  lemma {:induction false} TokenPartOf(t: Till, a: AccountId, k: Ticket, held: int, c: Parts)
    requires OpeningReady(t, a, k, c) && held > 0
    ensures PreConsumeTokenQuota(t, k.token, held, c.pre).1.Success? <==>
            k.token.playground || TokenAffords(t, k.token, held, c.pre)
  {
    hide PreConsumeTokenQuota, TokenAffords, WalletApart, TokenReady;
    TokenPartGoesThrough(t, k.token, held, c.pre);
  }

  lemma {:induction false} HeldOpens(t: Till, a: AccountId, k: Ticket, s: Session, held: int, c: Parts)
    requires OpeningReady(t, a, k, c) && 0 < held <= Available(t.wallet.ledger, a) && s == NewSession(s.trusted, held)
    ensures var o := OpenHeld(PreConsumeTokenQuota(t, k.token, held, c.pre).0, s, k, held, c);
      o.session.Some? && o.session.value.trusted == s.trusted && o.session.value.preConsumed == held
  {
    hide PreConsumeTokenQuota, PreConsume, Sits, WalletApart, Unused, NewRequest, Books, TokenPrepared, KeyIsOther;
    NewTicketSits(t, a, k);
    PreTokenKeepsSeat(t, a, k, NEW_FUNDING, held, c.pre);
    PreTokenKeepsNew(t, a, k, held, c.pre);
    PreTokenKeepsUnused(t, a, k, held, c.pre);
    var t1 := PreConsumeTokenQuota(t, k.token, held, c.pre).0;
    HoldGoesThrough(t1.wallet, a, k.request, held, c.newId, c.hold);
  }

  lemma {:induction false} PreTokenKeepsUnused(t: Till, a: AccountId, k: Ticket, quota: int, c: TokenCall)
    requires WalletApart(t.wallet.ledger, a, k.request, k.token.mirror)
    requires KeyIsOther(k.token, c, k.request.keys.reserve)
    requires Unused(t.wallet.ledger, k.request.keys.reserve)
    ensures Unused(PreConsumeTokenQuota(t, k.token, quota, c).0.wallet.ledger, k.request.keys.reserve)
  {
    hide AdjustTokenQuota, Unused, WalletApart, KeyIsOther;
    TokenKeepsUnused(t, a, k.request, k.token, quota, c, k.request.keys.reserve);
  }

  // ----- A wallet whose account is opened by the session -----

  /** The first session of a wallet opens exactly when the same is covered by its column and, when it holds
      something, nothing is refused on the way. */
  lemma {:induction false} FirstOpensExactly(t: Till, a: AccountId, k: Ticket, quota: int, c: Parts)
    requires FirstRequest(t, a, k) && CallNew(k, c.pre, a) && c.newId == a
    requires k.token.playground || TokenPrepared(t, k, c)
    ensures var balance := t.wallet.column;
      var o := OpenSession(t, k, quota, c);
      var holds := !SkipsHold(k, balance) && quota > 0;
      && (o.session.Some? <==>
          Covered(t, k, balance, quota, c) &&
          (holds ==> OpeningGoesThrough(t, c.hold) && !c.hold.ledger && !c.hold.project))
      && (o.session.Some? ==>
            && o.session.value.trusted == SkipsHold(k, balance)
            && o.session.value.preConsumed == if SkipsHold(k, balance) then 0 else quota)
  {
    hide OpenHeld, PreConsumeTokenQuota, ReadBalance, TokenAffords, FirstRequest, CallNew, TokenPrepared;
    NotOpenYet(t, a, k);
    var balance := t.wallet.column;
    var trusted := ShouldTrust(k, balance);
    var held := if trusted then 0 else quota;
    if balance > 0 && quota <= balance {
      if held <= 0 {
        NothingToHoldOpens(t, NewSession(trusted, 0), k, held, c);
      } else {
        FirstTokenPart(t, k, held, c);
        if PreConsumeTokenQuota(t, k.token, held, c.pre).1.Success? {
          FirstHeldOpens(t, a, k, NewSession(trusted, held), held, c);
        }
      }
    }
  }

  lemma {:induction false} FirstTokenPart(t: Till, k: Ticket, held: int, c: Parts)
    requires (k.token.playground || TokenPrepared(t, k, c)) && held > 0
    ensures PreConsumeTokenQuota(t, k.token, held, c.pre).1.Success? <==>
            k.token.playground || TokenAffords(t, k.token, held, c.pre)
  {
    hide PreConsumeTokenQuota, TokenAffords, TokenReady;
    TokenPartGoesThrough(t, k.token, held, c.pre);
  }

  lemma {:induction false} FirstHeldOpens(t: Till, a: AccountId, k: Ticket, s: Session, held: int, c: Parts)
    requires FirstRequest(t, a, k) && CallNew(k, c.pre, a) && c.newId == a
    requires 0 < held <= t.wallet.column && s == NewSession(s.trusted, held)
    ensures var o := OpenHeld(PreConsumeTokenQuota(t, k.token, held, c.pre).0, s, k, held, c);
      && (o.session.Some? <==> OpeningGoesThrough(t, c.hold) && !c.hold.ledger && !c.hold.project)
      && (o.session.Some? ==> o.session.value.trusted == s.trusted && o.session.value.preConsumed == held)
  {
    hide PreConsumeTokenQuota, PreConsume, CallNew, FirstRequest, AdjustTokenQuota;
    PreTokenKeepsFirst(t, a, k, held, c.pre);
    var t1 := PreConsumeTokenQuota(t, k.token, held, c.pre).0;
    FirstKeys(t1, a, k);
    FirstHold(t1.wallet, a, k.request, held, c.hold);
  }

  lemma {:induction false} FirstKeys(t: Till, a: AccountId, k: Ticket)
    requires FirstRequest(t, a, k)
    ensures Unopened(t.wallet, a, k.request) && NewKeys(t.wallet.ledger, k.request)
  {
    NoRows(t, a, k);
  }

  // ----- Reserving more -----

  /** An untrusted session that is neither settled nor refunded has its hold in all three stores, so reserving
      up to a target succeeds exactly when that much has been given by each of them, and else fails; any other
      session answers success.  No more is ever taken. */
  lemma {:induction false} ReservesWhatItHolds(t: Tab, a: AccountId, k: Ticket, target: int)
    requires Kept(t, a, k)
    ensures var s := t.session;
      var v := BillingSession.Reserve(t.till, s, target);
      var holding := !s.trusted && !s.settled && !s.refunded;
      && (holding ==> t.ledgerTaken == t.columnTaken == s.preConsumed && t.tokenTaken == OfToken(k, t.ledgerTaken))
      && v.result == (if holding && NoBelow(target) > t.ledgerTaken then Failure(InvalidParams) else Success(()))
      && v.till == t.till && v.session == s && !v.stuck
  {
    hide Books;
    SeatedRow(t.till.wallet, a, k.request, t.session.funding);
  }
}
