/** One relay request's billing session: a wallet hold and a token hold, settled or refunded once. */
module BillingSession {
  import opened LedgerSchema
  import opened LedgerRuntime
  import opened LedgerInvariants
  import opened LedgerEffects
  import opened WalletMirror
  import opened WalletStore
  import opened RelayFunding
  import opened TokenQuota
  import opened RequestStanding

  datatype Session = Session(funding: Funding, preConsumed: int, tokenConsumed: int, extraReserved: int,
                             trusted: bool, fundingSettled: bool, settled: bool, refunded: bool)

  /** The wallet a session draws on. */
  datatype Source = StandardWallet | ClaudeWallet

  /** The relay request as billing sees it. */
  datatype Ticket = Ticket(request: Request, token: TokenInfo, source: Source, forcePreConsume: bool, trustQuota: int,
                           tokenQuota: int)

  /** What one call generates, and what the stores refuse each of its parts. */
  datatype Parts = Parts(newId: AccountId, hold: Faults, finish: Faults, back: Faults, pre: TokenCall, post: TokenCall)

  /** The outcome of a call; stuck as for the funding: a compensation was needed and refused. */
  datatype Turn = Turn(till: Till, session: Session, result: Result<()>, stuck: bool)

  function NoBelow(x: int): int {
    if x < 0 then 0 else x
  }

  /** Only a standard wallet well above the trust limit, drawn on by a token that is too, skips the hold. */
  predicate ShouldTrust(k: Ticket, userQuota: int) {
    && !k.forcePreConsume && k.trustQuota > 0 && (k.token.requestUnlimited || k.tokenQuota > k.trustQuota)
    && match k.source
       case StandardWallet => userQuota > k.trustQuota
       case ClaudeWallet => false
  }

  // ----- Opening -----

  datatype Opening = Opening(till: Till, session: Option<Session>, stuck: bool)

  function NewSession(trusted: bool, held: int): Session {
    Session(NEW_FUNDING, 0, held, 0, trusted, false, false, false)
  }

  function OpenSession(t: Till, k: Ticket, quota: int, c: Parts): Opening {
    var userQuota := ReadBalance(t.wallet, k.request.mirror);
    if userQuota <= 0 || userQuota - quota < 0 then Opening(t, None, false)
    else
      var trusted := ShouldTrust(k, userQuota);
      var held := if trusted then 0 else quota;
      if held <= 0 then OpenHeld(t, NewSession(trusted, 0), k, held, c)
      else
        var (t1, r) := PreConsumeTokenQuota(t, k.token, held, c.pre);
        if r.Failure? then Opening(t1, None, false) else OpenHeld(t1, NewSession(trusted, held), k, held, c)
  }

  function OpenHeld(t: Till, s: Session, k: Ticket, held: int, c: Parts): Opening {
    var p := PreConsume(t.wallet, s.funding, k.request, held, c.newId, c.hold);
    var t1 := t.(wallet := p.wallet);
    if p.result.Failure? then
      if s.tokenConsumed > 0 && !k.token.playground then
        var (t2, r) := AdjustTokenQuota(t1, k.token, -s.tokenConsumed, c.post);
        Opening(t2, None, p.stuck || r.Failure?)
      else Opening(t1, None, p.stuck)
    else Opening(t1, Some(s.(funding := p.funding, preConsumed := held)), false)
  }

  // ----- Settling -----

  function ReserveTrusted(t: Till, s: Session, k: Ticket, actual: int, c: Parts): Turn {
    var p := PreConsume(t.wallet, s.funding, k.request, actual, c.newId, c.hold);
    var t1 := t.(wallet := p.wallet);
    var s1 := s.(funding := p.funding);
    if p.result.Failure? then Turn(t1, s1, p.result, p.stuck)
    else
      var (t2, r) := PreConsumeTokenQuota(t1, k.token, actual, c.pre);
      if r.Failure? then
        var g := Refund(t2.wallet, s1.funding, k.request, c.back);
        Turn(t2.(wallet := g.wallet), s1.(funding := g.funding), r, g.stuck)
      else Turn(t2, s1.(preConsumed := actual, tokenConsumed := actual), Success(()), false)
  }

  function SettleToken(t: Till, s: Session, k: Ticket, delta: int, c: Parts): Turn {
    if k.token.playground then Turn(t, s.(settled := true), Success(()), false)
    else
      var (t1, r) := AdjustTokenQuota(t, k.token, delta, c.post);
      Turn(t1, s.(settled := true), r, false)
  }

  function SettleBoth(t: Till, s: Session, k: Ticket, actual: int, c: Parts): Turn {
    var delta := actual - s.preConsumed;
    if s.fundingSettled then SettleToken(t, s, k, delta, c)
    else
      var p := SettleHold(t.wallet, s.funding, k.request, delta, c.finish);
      var t1 := t.(wallet := p.wallet);
      if p.result.Failure? then Turn(t1, s.(funding := p.funding), p.result, p.stuck)
      else SettleToken(t1, s.(funding := p.funding, fundingSettled := true), k, delta, c)
  }

  function Settle(t: Till, s: Session, k: Ticket, quota: int, c: Parts): Turn {
    var actual := NoBelow(quota);
    if s.settled then Turn(t, s, Success(()), false)
    else if s.trusted && s.preConsumed == 0 && actual > 0 then
      var v := ReserveTrusted(t, s, k, actual, c);
      if v.result.Failure? then v else SettleBoth(v.till, v.session, k, actual, c)
    else SettleBoth(t, s, k, actual, c)
  }

  // ----- Refunding, and reserving more -----

  predicate NeedsRefund(s: Session) {
    !s.settled && !s.refunded && !s.fundingSettled && s.tokenConsumed > 0
  }

  function RefundSync(t: Till, s: Session, k: Ticket, c: Parts): Turn {
    if !NeedsRefund(s) then Turn(t, s, Success(()), false)
    else
      var g := Refund(t.wallet, s.funding, k.request, c.back);
      var t1 := t.(wallet := g.wallet);
      var s1 := s.(funding := g.funding, refunded := true);
      if k.token.playground then Turn(t1, s1, g.result, g.stuck)
      else
        var (t2, r) := AdjustTokenQuota(t1, k.token, -s.tokenConsumed, c.post);
        Turn(t2, s1, if g.result.Failure? then g.result else r, g.stuck)
  }

  /** A refund whose token part goes through. */
  predicate ReturnsToken(t: Till, s: Session, k: Ticket, c: Parts) {
    && NeedsRefund(s) && !k.token.playground
    && var g := Refund(t.wallet, s.funding, k.request, c.back);
       AdjustTokenQuota(t.(wallet := g.wallet), k.token, -s.tokenConsumed, c.post).1.Success?
  }

  /** The ledger funding cannot reserve more than its first hold. */
  function Reserve(t: Till, s: Session, target: int): Turn {
    if s.settled || s.refunded || s.trusted || NoBelow(target) <= s.preConsumed then Turn(t, s, Success(()), false)
    else Turn(t, s, Failure(InvalidParams), false)
  }

  // ----- What the session has taken -----

  /** The stores, the session, how much its own calls have taken from each store since it was opened, and
      whether a refund of the token went through. */
  datatype Tab = Tab(till: Till, session: Session, ledgerTaken: int, columnTaken: int, tokenTaken: int, returned: bool)

  datatype Call =
    | SettleFor(quota: int, c: Parts)
    | RefundNow(c: Parts)
    | ReserveUpTo(target: int)
    | Between(next: Till)

  function Taken(t: Tab, v: Turn, a: AccountId): Tab {
    Tab(v.till, v.session,
        t.ledgerTaken + Available(t.till.wallet.ledger, a) - Available(v.till.wallet.ledger, a),
        t.columnTaken + t.till.wallet.column - v.till.wallet.column,
        t.tokenTaken + t.till.tokenColumn - v.till.tokenColumn, t.returned)
  }

  /** The same after a refund. */
  function TakenBack(t: Tab, a: AccountId, k: Ticket, c: Parts): Tab {
    Taken(t, RefundSync(t.till, t.session, k, c), a).(returned := t.returned || ReturnsToken(t.till, t.session, k, c))
  }

  function Answer(t: Tab, k: Ticket, call: Call): Turn {
    match call
    case SettleFor(quota, c) => Settle(t.till, t.session, k, quota, c)
    case RefundNow(c) => RefundSync(t.till, t.session, k, c)
    case ReserveUpTo(target) => Reserve(t.till, t.session, target)
    case Between(next) => Turn(next, t.session, Success(()), false)
  }

  function Next(t: Tab, a: AccountId, k: Ticket, call: Call): Tab {
    match call
    case Between(next) => t.(till := next)
    case RefundNow(c) => TakenBack(t, a, k, c)
    case _ => Taken(t, Answer(t, k, call), a)
  }

  /** Whether the session's token calls change the token's quota. */
  predicate Charged(k: Ticket) {
    !k.token.playground && Metered(k.token)
  }

  function OfToken(k: Ticket, amount: int): int {
    if Charged(k) then amount else 0
  }

  predicate PartsApart(k: Ticket, c: Parts) {
    && ApartFrom(k.request, c.pre.kr) && ApartFrom(k.request, c.pre.ka) && ApartFrom(k.request, c.pre.kc)
    && ApartFrom(k.request, c.post.kr) && ApartFrom(k.request, c.post.ka) && ApartFrom(k.request, c.post.kc)
  }

  /** The session's counters agree with its row in the ledger. */
  predicate Agrees(l: Ledger, s: Session) {
    && s.tokenConsumed == s.preConsumed >= 0
    && (s.settled <==> s.fundingSettled) && (s.settled <==> StatusIs(l, s.funding, Settled))
    && (s.preConsumed > 0 ==>
        s.funding.reservation.Some? && (StatusIs(l, s.funding, Open) ==> s.funding.reserved == s.preConsumed))
    && (!s.trusted && !s.settled && !s.refunded && s.preConsumed > 0 ==> StatusIs(l, s.funding, Open))
    && (!s.trusted && s.preConsumed == 0 ==> s.funding.reservation.None?)
    && (s.refunded ==> s.preConsumed > 0)
  }

  ghost predicate Seats(t: Till, a: AccountId, k: Ticket, s: Session) {
    && Sits(t.wallet, a, k.request, s.funding) && WalletApart(t.wallet.ledger, a, k.request, k.token.mirror)
    && Agrees(t.wallet.ledger, s)
  }

  /** Ledger and column have given the request's standing; until the session is settled the token has given
      its hold, or nothing once a refund of it went through. */
  ghost predicate Kept(t: Tab, a: AccountId, k: Ticket) {
    && Seats(t.till, a, k, t.session)
    && t.ledgerTaken == t.columnTaken == Standing(t.till.wallet.ledger, t.session.funding)
    && (t.returned ==> t.session.refunded)
    && (!t.session.settled ==> t.tokenTaken == OfToken(k, if t.returned then 0 else t.session.tokenConsumed))
  }

  /** All three stores have given the same amount. */
  predicate Took(t: Tab, k: Ticket, amount: int) {
    t.ledgerTaken == t.columnTaken == amount && t.tokenTaken == OfToken(k, amount)
  }

  predicate Finished(t: Tab) {
    t.session.settled || (t.session.refunded && StatusIs(t.till.wallet.ledger, t.session.funding, Released))
  }

  // ----- The parts of a call -----

  /** A token call moves the token alone. */
  lemma {:induction false} TokenKeepsSeat(t: Till, a: AccountId, k: Ticket, f: Funding, delta: int, c: TokenCall)
    requires Sits(t.wallet, a, k.request, f) && WalletApart(t.wallet.ledger, a, k.request, k.token.mirror)
    requires ApartFrom(k.request, c.kr) && ApartFrom(k.request, c.ka) && ApartFrom(k.request, c.kc)
    ensures var (t', r) := AdjustTokenQuota(t, k.token, delta, c);
      && SeatMoved(t, t', a, k, f)
      && t'.tokenColumn == t.tokenColumn - if r.Success? && Metered(k.token) then delta else 0
  {
    hide AdjustTokenQuota, Sits, WalletApart, LeavesRequest, Books;
    var t' := AdjustTokenQuota(t, k.token, delta, c).0;
    TokenLeaves(t, k.token, delta, c, a, k.request);
    TokenMovesExactly(t, k.token, delta, c);
    LeftAlone(t, t', a, k, f);
  }

  /** From t to t' neither the wallet nor the request's row moved. */
  ghost predicate SeatMoved(t: Till, t': Till, a: AccountId, k: Ticket, f: Funding) {
    && Sits(t'.wallet, a, k.request, f) && WalletApart(t'.wallet.ledger, a, k.request, k.token.mirror)
    && Standing(t'.wallet.ledger, f) == Standing(t.wallet.ledger, f)
    && Available(t'.wallet.ledger, a) == Available(t.wallet.ledger, a) && t'.wallet.column == t.wallet.column
    && SameRow(t.wallet.ledger, t'.wallet.ledger, f)
  }

  predicate SameRow(l: Ledger, l': Ledger, f: Funding) {
    forall status :: StatusIs(l', f, status) <==> StatusIs(l, f, status)
  }

  lemma {:induction false} LeftAlone(t: Till, t': Till, a: AccountId, k: Ticket, f: Funding)
    requires Sits(t.wallet, a, k.request, f) && WalletApart(t.wallet.ledger, a, k.request, k.token.mirror)
    requires LeavesRequest(t.wallet.ledger, t'.wallet.ledger, a, k.request) && t'.wallet.column == t.wallet.column
    ensures SeatMoved(t, t', a, k, f)
  {
    StillSits(t.wallet, t'.wallet, a, k.request, f, k.token.mirror);
    SameRowLeft(t.wallet.ledger, t'.wallet.ledger, a, k, f);
  }

  lemma {:induction false} SameRowLeft(l: Ledger, l': Ledger, a: AccountId, k: Ticket, f: Funding)
    requires Owns(l, a, k.request, f) && RowsUndisturbed(l.reservations, l'.reservations, k.request.keys.reserve)
    ensures SameRow(l, l', f)
  {
  }

  lemma {:induction false} PreTokenKeepsSeat(t: Till, a: AccountId, k: Ticket, f: Funding, quota: int, c: TokenCall)
    requires Sits(t.wallet, a, k.request, f) && WalletApart(t.wallet.ledger, a, k.request, k.token.mirror)
    requires ApartFrom(k.request, c.kr) && ApartFrom(k.request, c.ka) && ApartFrom(k.request, c.kc)
    ensures var (t', r) := PreConsumeTokenQuota(t, k.token, quota, c);
      && SeatMoved(t, t', a, k, f)
      && t'.tokenColumn == t.tokenColumn - if r.Success? && Charged(k) then quota else 0
  {
    hide AdjustTokenQuota, Sits, WalletApart;
    TokenKeepsSeat(t, a, k, f, quota, c);
  }

  lemma {:induction false} PreTokenKeepsNew(t: Till, a: AccountId, k: Ticket, quota: int, c: TokenCall)
    requires NewRequest(t.wallet.ledger, k.request) && WalletApart(t.wallet.ledger, a, k.request, k.token.mirror)
    requires ApartFrom(k.request, c.kr) && ApartFrom(k.request, c.ka) && ApartFrom(k.request, c.kc)
    ensures NewRequest(PreConsumeTokenQuota(t, k.token, quota, c).0.wallet.ledger, k.request)
  {
    hide AdjustTokenQuota, WalletApart, LeavesRequest, NewRequest, Books;
    var t' := AdjustTokenQuota(t, k.token, quota, c).0;
    TokenLeaves(t, k.token, quota, c, a, k.request);
    StillNewAfter(t.wallet.ledger, t'.wallet.ledger, a, k.request);
  }

  lemma {:induction false} StillNewAfter(l: Ledger, l': Ledger, a: AccountId, q: Request)
    requires NewRequest(l, q) && LeavesRequest(l, l', a, q)
    ensures NewRequest(l', q)
  {
    StillNew(l, l', q);
  }

  lemma {:induction false} SettlesBoth(t: Tab, a: AccountId, k: Ticket, actual: int, c: Parts)
    requires Kept(t, a, k) && !t.session.settled && actual >= 0 && PartsApart(k, c)
    requires !SettleBoth(t.till, t.session, k, actual, c).stuck
    ensures var v := SettleBoth(t.till, t.session, k, actual, c);
      && Kept(Taken(t, v, a), a, k)
      && v.session.trusted == t.session.trusted && v.session.refunded == t.session.refunded
      && (v.session.settled ==> StatusIs(t.till.wallet.ledger, t.session.funding, Open))
      && (!v.session.settled ==> v.result.Failure? && v.till == t.till && v.session == t.session)
      && v.session.preConsumed == t.session.preConsumed
      && (v.session.settled ==>
          Taken(t, v, a).ledgerTaken == t.session.funding.reserved + actual - t.session.preConsumed)
      && (v.session.settled ==>
            Taken(t, v, a).tokenTaken ==
            t.tokenTaken + if v.result.Success? then OfToken(k, actual - t.session.preConsumed) else 0)
  {
    hide SettleHold, AdjustTokenQuota, Sits, WalletApart;
    var s := t.session;
    var delta := actual - s.preConsumed;
    var p := SettleHold(t.till.wallet, s.funding, k.request, delta, c.finish);
    SeatedRow(t.till.wallet, a, k.request, s.funding);
    StuckFails(t.till.wallet, k.request, s.funding, delta, c.finish);
    FinishSeats(t.till.wallet, a, k.request, s.funding, delta, c.finish);
    StaysApart(t.till.wallet, p.wallet, a, k.request, p.funding, k.token.mirror);
    SeatedRow(p.wallet, a, k.request, p.funding);
    if p.result.Success? && !k.token.playground {
      TokenKeepsSeat(t.till.(wallet := p.wallet), a, k, p.funding, delta, c.post);
    }
  }

  /** The late hold of a trusted session: both stores hold the amount, or the call fails and neither does. */
  lemma {:induction false} ReservesTrusted(t: Tab, a: AccountId, k: Ticket, actual: int, c: Parts)
    requires Kept(t, a, k) && t.session.trusted && t.session.preConsumed == 0 && !t.session.settled && actual > 0
    requires PartsApart(k, c)
    requires !ReserveTrusted(t.till, t.session, k, actual, c).stuck
    ensures var v := ReserveTrusted(t.till, t.session, k, actual, c);
      && Kept(Taken(t, v, a), a, k)
      && v.session.trusted && !v.session.settled && v.session.refunded == t.session.refunded
      && (v.result.Success? ==> v.session.preConsumed == actual)
  {
    hide PreConsume, PreConsumeTokenQuota, Refund, Sits, WalletApart;
    var s := t.session;
    var p := PreConsume(t.till.wallet, s.funding, k.request, actual, c.newId, c.hold);
    StuckHoldFails(t.till.wallet, k.request, s.funding, actual, c.newId, c.hold);
    HoldSeats(t.till.wallet, a, k.request, s.funding, actual, c.newId, c.hold);
    StaysApart(t.till.wallet, p.wallet, a, k.request, p.funding, k.token.mirror);
    SeatedRow(t.till.wallet, a, k.request, s.funding);
    SeatedRow(p.wallet, a, k.request, p.funding);
    if p.result.Success? {
      var t1 := t.till.(wallet := p.wallet);
      PreTokenKeepsSeat(t1, a, k, p.funding, actual, c.pre);
      var (t2, r) := PreConsumeTokenQuota(t1, k.token, actual, c.pre);
      if r.Failure? {
        var g := Refund(t2.wallet, p.funding, k.request, c.back);
        GiveBackSeats(t2.wallet, a, k.request, p.funding, c.back);
        StaysApart(t2.wallet, g.wallet, a, k.request, g.funding, k.token.mirror);
        SeatedRow(g.wallet, a, k.request, g.funding);
      }
    }
  }

  lemma {:induction false} TakenTwice(t: Tab, v1: Turn, v2: Turn, a: AccountId)
    ensures Taken(Taken(t, v1, a), v2, a) == Taken(t, v2, a)
  {
  }

  lemma {:induction false} SettleKeeps(t: Tab, a: AccountId, k: Ticket, quota: int, c: Parts)
    requires Kept(t, a, k) && PartsApart(k, c) && !Settle(t.till, t.session, k, quota, c).stuck
    ensures var v := Settle(t.till, t.session, k, quota, c);
      && Kept(Taken(t, v, a), a, k)
      && v.session.refunded == t.session.refunded
      && (Finished(t) ==> v.till == t.till && v.session == t.session)
      && (v.result.Success? && !t.session.settled ==>
            v.session.settled &&
            (Took(Taken(t, v, a), k, NoBelow(quota)) <==>
             (quota > 0 || t.session.preConsumed > 0) && !(t.returned && Charged(k))))
  {
    hide ReserveTrusted, SettleBoth, Sits, WalletApart;
    var actual := NoBelow(quota);
    var s := t.session;
    if !s.settled {
      SeatedRow(t.till.wallet, a, k.request, s.funding);
      if s.trusted && s.preConsumed == 0 && actual > 0 {
        var v1 := ReserveTrusted(t.till, s, k, actual, c);
        HeldOrNot(t.till, s, k, actual, c);
        ReservesTrusted(t, a, k, actual, c);
        if v1.result.Success? {
          SettlesBoth(Taken(t, v1, a), a, k, actual, c);
          TakenTwice(t, v1, SettleBoth(v1.till, v1.session, k, actual, c), a);
        }
      } else {
        SettlesBoth(t, a, k, actual, c);
      }
    }
  }

  lemma {:induction false} HeldOrNot(t: Till, s: Session, k: Ticket, actual: int, c: Parts)
    ensures ReserveTrusted(t, s, k, actual, c).stuck ==> ReserveTrusted(t, s, k, actual, c).result.Failure?
  {
    hide PreConsume, PreConsumeTokenQuota, Refund;
  }

  lemma {:induction false} RefundKeeps(t: Tab, a: AccountId, k: Ticket, c: Parts)
    requires Kept(t, a, k) && PartsApart(k, c) && !RefundSync(t.till, t.session, k, c).stuck
    ensures var v := RefundSync(t.till, t.session, k, c);
      var t' := TakenBack(t, a, k, c);
      && Kept(t', a, k)
      && v.session.settled == t.session.settled && v.session.preConsumed == t.session.preConsumed
      && v.session.trusted == t.session.trusted
      && (Finished(t) ==> v.till == t.till && v.session == t.session)
      && (v.result.Success? && NeedsRefund(t.session) ==> Finished(t') && Took(t', k, 0))
  {
    hide Refund, AdjustTokenQuota, Sits, WalletApart;
    var s := t.session;
    if NeedsRefund(s) {
      var g := Refund(t.till.wallet, s.funding, k.request, c.back);
      var t1 := t.till.(wallet := g.wallet);
      SeatedRow(t.till.wallet, a, k.request, s.funding);
      GiveBackSeats(t.till.wallet, a, k.request, s.funding, c.back);
      StaysApart(t.till.wallet, g.wallet, a, k.request, g.funding, k.token.mirror);
      SeatedRow(g.wallet, a, k.request, g.funding);
      if !k.token.playground {
        TokenKeepsSeat(t1, a, k, g.funding, -s.tokenConsumed, c.post);
      }
    }
  }

  /** A refund gives back the parts that go through and reports success when both do.  Whatever was refused
      stays taken: the next refund reports success and does nothing. */
  lemma {:induction false} RefundIsAttemptedOnce(t: Tab, a: AccountId, k: Ticket, c: Parts, c': Parts)
    requires Kept(t, a, k) && PartsApart(k, c) && NeedsRefund(t.session) && !RefundSync(t.till, t.session, k, c).stuck
    ensures var v := RefundSync(t.till, t.session, k, c);
      var t' := TakenBack(t, a, k, c);
      var walletBack := Refund(t.till.wallet, t.session.funding, k.request, c.back).result.Success?;
      && t'.ledgerTaken == t'.columnTaken == (if walletBack then 0 else t.ledgerTaken)
      && t'.tokenTaken == (if ReturnsToken(t.till, t.session, k, c) then 0 else t.tokenTaken)
      && (v.result.Success? <==> walletBack && (k.token.playground || ReturnsToken(t.till, t.session, k, c)))
      && RefundSync(v.till, v.session, k, c') == Turn(v.till, v.session, Success(()), false)
  {
    hide Refund, AdjustTokenQuota, Sits, WalletApart;
    var s := t.session;
    var g := Refund(t.till.wallet, s.funding, k.request, c.back);
    SeatedRow(t.till.wallet, a, k.request, s.funding);
    GiveBackSeats(t.till.wallet, a, k.request, s.funding, c.back);
    StaysApart(t.till.wallet, g.wallet, a, k.request, g.funding, k.token.mirror);
    if !k.token.playground {
      TokenKeepsSeat(t.till.(wallet := g.wallet), a, k, g.funding, -s.tokenConsumed, c.post);
    }
  }

  // ----- Runs -----

  /** The session's calls need no compensation that is then refused; anything else may happen to the
      stores in between, as long as it leaves the request's own rows alone. */
  ghost predicate Allowed(t: Tab, k: Ticket, call: Call) {
    match call
    case SettleFor(_, c) => PartsApart(k, c) && !Answer(t, k, call).stuck
    case RefundNow(c) => PartsApart(k, c) && !Answer(t, k, call).stuck
    case ReserveUpTo(_) => true
    case Between(next) => LeavesRows(t.till.wallet.ledger, next.wallet.ledger, k.request)
  }

  predicate TookTheSame(t: Tab, t': Tab) {
    t'.ledgerTaken == t.ledgerTaken && t'.columnTaken == t.columnTaken && t'.tokenTaken == t.tokenTaken
  }

  /** A call keeps the accounts of the session, and takes nothing once the session is finished. */
  lemma {:induction false} CallKeeps(t: Tab, a: AccountId, k: Ticket, call: Call)
    requires Kept(t, a, k) && Allowed(t, k, call)
    ensures var t' := Next(t, a, k, call);
      Kept(t', a, k) && (Finished(t) ==> Finished(t') && TookTheSame(t, t'))
  {
    hide Settle, RefundSync, Sits, WalletApart, LeavesRows, Books;
    match call
    case SettleFor(quota, c) => SettleKeeps(t, a, k, quota, c);
    case RefundNow(c) => RefundKeeps(t, a, k, c);
    case ReserveUpTo(_) =>
    case Between(next) =>
      StillSits(t.till.wallet, next.wallet, a, k.request, t.session.funding, k.token.mirror);
      RowStays(t.till, next, a, k, t.session.funding);
  }

  lemma {:induction false} RowStays(t: Till, t': Till, a: AccountId, k: Ticket, f: Funding)
    requires Sits(t.wallet, a, k.request, f) && LeavesRows(t.wallet.ledger, t'.wallet.ledger, k.request)
    ensures SameRow(t.wallet.ledger, t'.wallet.ledger, f)
  {
    SameRowLeft(t.wallet.ledger, t'.wallet.ledger, a, k, f);
  }

  ghost predicate Runs(t: Tab, a: AccountId, k: Ticket, calls: seq<Call>)
    decreases |calls|
  {
    calls == [] || (Allowed(t, k, calls[0]) && Runs(Next(t, a, k, calls[0]), a, k, calls[1..]))
  }

  function Final(t: Tab, a: AccountId, k: Ticket, calls: seq<Call>): Tab
    decreases |calls|
  {
    if calls == [] then t else Final(Next(t, a, k, calls[0]), a, k, calls[1..])
  }

  /** Over any run ledger and column have given exactly the request's standing, and a finished session
      takes nothing more. */
  lemma {:induction false} RunKeeps(t: Tab, a: AccountId, k: Ticket, calls: seq<Call>)
    requires Kept(t, a, k) && Runs(t, a, k, calls)
    ensures var t' := Final(t, a, k, calls);
      Kept(t', a, k) && (Finished(t) ==> Finished(t') && TookTheSame(t, t'))
    decreases |calls|
  {
    hide Kept, Finished, Next, Allowed;
    if calls != [] {
      CallKeeps(t, a, k, calls[0]);
      RunKeeps(Next(t, a, k, calls[0]), a, k, calls[1..]);
    }
  }

  lemma {:induction false} RunSplits(t: Tab, a: AccountId, k: Ticket, before: seq<Call>, call: Call, later: seq<Call>)
    requires Runs(t, a, k, before + [call] + later)
    ensures Runs(t, a, k, before) && Allowed(Final(t, a, k, before), k, call)
    ensures var t1 := Next(Final(t, a, k, before), a, k, call);
      Runs(t1, a, k, later) && Final(t, a, k, before + [call] + later) == Final(t1, a, k, later)
    decreases |before|
  {
    hide Next, Allowed;
    var calls := before + [call] + later;
    if before == [] {
      assert calls[1..] == later;
    } else {
      assert calls[0] == before[0] && calls[1..] == before[1..] + [call] + later;
      RunSplits(Next(t, a, k, before[0]), a, k, before[1..], call, later);
    }
  }

  /** Whatever was called before and is called afterwards, the settlement that goes through decides what the
      session has paid: wallet, column and token the amount it was given (nothing when that is negative),
      exactly when there was something to settle and no refund of the token went through before it. */
  lemma {:induction false} SettledExactlyOnce(t: Tab, a: AccountId, k: Ticket, before: seq<Call>, quota: int, c: Parts,
                                              later: seq<Call>)
    requires Kept(t, a, k) && Runs(t, a, k, before + [SettleFor(quota, c)] + later)
    requires var m := Final(t, a, k, before);
      !m.session.settled && Answer(m, k, SettleFor(quota, c)).result.Success?
    ensures var m := Final(t, a, k, before);
      Took(Final(t, a, k, before + [SettleFor(quota, c)] + later), k, NoBelow(quota)) <==>
      (quota > 0 || m.session.preConsumed > 0) && !(m.returned && Charged(k))
  {
    hide Kept, Runs, Final;
    var call := SettleFor(quota, c);
    RunSplits(t, a, k, before, call, later);
    var m := Final(t, a, k, before);
    RunKeeps(t, a, k, before);
    SettleOutcome(m, a, k, quota, c);
    CallKeeps(m, a, k, call);
    RunKeeps(Next(m, a, k, call), a, k, later);
  }

  lemma {:induction false} SettleOutcome(m: Tab, a: AccountId, k: Ticket, quota: int, c: Parts)
    requires Kept(m, a, k) && Allowed(m, k, SettleFor(quota, c))
    requires !m.session.settled && Answer(m, k, SettleFor(quota, c)).result.Success?
    ensures var m' := Next(m, a, k, SettleFor(quota, c));
      Finished(m') &&
      (Took(m', k, NoBelow(quota)) <==> (quota > 0 || m.session.preConsumed > 0) && !(m.returned && Charged(k)))
  {
    hide Settle, Seats;
    SettleKeeps(m, a, k, quota, c);
  }

  /** A refund that goes through leaves wallet, column and token where they were when the session was
      opened, for good: a settlement that comes later is refused. */
  lemma {:induction false} RefundedForGood(t: Tab, a: AccountId, k: Ticket, before: seq<Call>, c: Parts,
                                           later: seq<Call>)
    requires Kept(t, a, k) && Runs(t, a, k, before + [RefundNow(c)] + later)
    requires NeedsRefund(Final(t, a, k, before).session)
    requires Answer(Final(t, a, k, before), k, RefundNow(c)).result.Success?
    ensures Took(Final(t, a, k, before + [RefundNow(c)] + later), k, 0)
  {
    hide Kept, Runs, Final;
    RunSplits(t, a, k, before, RefundNow(c), later);
    var m := Final(t, a, k, before);
    RunKeeps(t, a, k, before);
    RefundOutcome(m, a, k, c);
    CallKeeps(m, a, k, RefundNow(c));
    RunKeeps(Next(m, a, k, RefundNow(c)), a, k, later);
  }

  lemma {:induction false} RefundOutcome(m: Tab, a: AccountId, k: Ticket, c: Parts)
    requires Kept(m, a, k) && Allowed(m, k, RefundNow(c))
    requires NeedsRefund(m.session) && Answer(m, k, RefundNow(c)).result.Success?
    ensures var m' := Next(m, a, k, RefundNow(c)); Finished(m') && Took(m', k, 0)
  {
    hide RefundSync, Seats;
    RefundKeeps(m, a, k, c);
  }

  // ----- Opening a session -----

  function Opened(t: Till, o: Opening, a: AccountId): Tab
    requires o.session.Some?
  {
    Taken(Tab(t, o.session.value, 0, 0, 0, false), Turn(o.till, o.session.value, Success(()), false), a)
  }

  /** Nothing was taken from the wallet, its column or the token. */
  predicate NothingTaken(t: Till, t': Till, a: AccountId) {
    && Available(t'.wallet.ledger, a) == Available(t.wallet.ledger, a)
    && t'.wallet.column == t.wallet.column && t'.tokenColumn == t.tokenColumn
  }

  /** Opening a new request's session holds the same amount in all three stores (nothing when the session
      is trusted), or fails and takes nothing. */
  lemma {:induction false} OpensHeldAlike(t: Till, a: AccountId, k: Ticket, quota: int, c: Parts)
    requires Books(t.wallet.ledger) && NewRequest(t.wallet.ledger, k.request) && PartsApart(k, c) && quota >= 0
    requires WalletApart(t.wallet.ledger, a, k.request, k.token.mirror)
    requires !OpenSession(t, k, quota, c).stuck
    ensures var o := OpenSession(t, k, quota, c);
      match o.session
      case None => NothingTaken(t, o.till, a)
      case Some(s) =>
        var held := if s.trusted then 0 else quota;
        Kept(Opened(t, o, a), a, k) && s.preConsumed == held && Took(Opened(t, o, a), k, held)
  {
    hide OpenHeld, PreConsumeTokenQuota, ReadBalance, Sits, WalletApart, Books;
    NewTicketSits(t, a, k);
    var userQuota := ReadBalance(t.wallet, k.request.mirror);
    var trusted := ShouldTrust(k, userQuota);
    var held := if trusted then 0 else quota;
    if userQuota > 0 && userQuota - quota >= 0 {
      if held == 0 {
        HoldOpens(t, t, a, k, NewSession(trusted, 0), 0, c);
      } else {
        PreTokenKeepsSeat(t, a, k, NEW_FUNDING, held, c.pre);
        PreTokenKeepsNew(t, a, k, held, c.pre);
        var (t1, r) := PreConsumeTokenQuota(t, k.token, held, c.pre);
        if r.Success? {
          HoldOpens(t, t1, a, k, NewSession(trusted, held), held, c);
        }
      }
    }
  }

  lemma {:induction false} NewTicketSits(t: Till, a: AccountId, k: Ticket)
    requires NewRequest(t.wallet.ledger, k.request) && WalletApart(t.wallet.ledger, a, k.request, k.token.mirror)
    ensures Sits(t.wallet, a, k.request, NEW_FUNDING) && Standing(t.wallet.ledger, NEW_FUNDING) == 0
  {
    NewRequestSits(t.wallet, a, k.request);
  }

  lemma {:induction false} HoldOpens(t: Till, t1: Till, a: AccountId, k: Ticket, s: Session, held: int, c: Parts)
    requires held >= 0 && s == NewSession(s.trusted, held) && PartsApart(k, c)
    requires SeatMoved(t, t1, a, k, NEW_FUNDING) && t1.tokenColumn == t.tokenColumn - OfToken(k, held)
    requires !OpenHeld(t1, s, k, held, c).stuck
    requires held > 0 ==> NewRequest(t1.wallet.ledger, k.request)
    ensures var o := OpenHeld(t1, s, k, held, c);
      match o.session
      case None => NothingTaken(t, o.till, a) && WalletApart(o.till.wallet.ledger, a, k.request, k.token.mirror)
      case Some(s') =>
        s'.trusted == s.trusted && s'.preConsumed == held &&
        Kept(Opened(t, o, a), a, k) && Took(Opened(t, o, a), k, held)
  {
    hide PreConsume, AdjustTokenQuota, Sits, WalletApart;
    var p := PreConsume(t1.wallet, s.funding, k.request, held, c.newId, c.hold);
    var t2 := t1.(wallet := p.wallet);
    StuckHoldFails(t1.wallet, k.request, s.funding, held, c.newId, c.hold);
    HoldSeats(t1.wallet, a, k.request, s.funding, held, c.newId, c.hold);
    StaysApart(t1.wallet, p.wallet, a, k.request, p.funding, k.token.mirror);
    SeatedRow(t1.wallet, a, k.request, s.funding);
    SeatedRow(p.wallet, a, k.request, p.funding);
    if p.result.Failure? && held > 0 && !k.token.playground {
      TokenKeepsSeat(t2, a, k, p.funding, -held, c.post);
      assert NothingTaken(t, AdjustTokenQuota(t2, k.token, -held, c.post).0, a);
    }
  }

  // ----- When a settlement goes through -----

  /** The settle key is new and no key of the token call, and neither store refuses the settlement. */
  ghost predicate SettleReady(t: Till, a: AccountId, k: Ticket, c: Parts) {
    && Unused(t.wallet.ledger, k.request.keys.settle) && !c.finish.ledger && !c.finish.project
    && TokenReady(t.wallet.ledger, k.token, c.post) && KeyApart(k.token, c.post, k.request.keys.settle)
    && !Same(c.post.newId, a)
  }

  /** Whether the token accepts what a settlement asks of it beyond the hold. */
  predicate TokenCovers(t: Till, k: Ticket, delta: int, c: Parts) {
    delta == 0 || !Charged(k) || (!c.post.x.column && t.tokenColumn >= 0 && t.tokenColumn >= delta)
  }

  /** With the request's row open and the wallet covering what goes beyond the hold, the session is settled,
      and reports success exactly when the token covers it too. */
  lemma {:induction false} SettlementOutcome(t: Till, s: Session, a: AccountId, k: Ticket, actual: int, c: Parts)
    requires Seats(t, a, k, s) && PartsApart(k, c) && SettleReady(t, a, k, c) && actual >= 0 && s.preConsumed > 0
    requires StatusIs(t.wallet.ledger, s.funding, Open) && actual - s.preConsumed <= Available(t.wallet.ledger, a)
    ensures var v := SettleBoth(t, s, k, actual, c);
      v.session.settled && !v.stuck && (v.result.Success? <==> TokenCovers(t, k, actual - s.preConsumed, c))
  {
    hide SettleHold, AdjustTokenQuota, Sits, WalletApart, TokenReady, Unused, KeyApart;
    var delta := actual - s.preConsumed;
    var p := SettleHold(t.wallet, s.funding, k.request, delta, c.finish);
    FinishGoesThrough(t.wallet, a, k.request, s.funding, delta, c.finish);
    StuckFails(t.wallet, k.request, s.funding, delta, c.finish);
    if Charged(k) && delta != 0 {
      SettledTokenReady(t, s, a, k, delta, c);
      TokenGoesThrough(t.(wallet := p.wallet), k.token, delta, c.post);
    } else if !k.token.playground {
      ReadyIsPresent(t.wallet.ledger, k.token, c.post);
      TokenUnasked(t.(wallet := p.wallet), k, delta, c.post);
    }
  }

  lemma {:induction false} ReadyIsPresent(l: Ledger, i: TokenInfo, c: TokenCall)
    requires TokenReady(l, i, c)
    ensures !c.missing
  {
  }

  lemma {:induction false} TokenUnasked(t: Till, k: Ticket, delta: int, c: TokenCall)
    requires delta == 0 || !Metered(k.token)
    requires !c.missing
    ensures AdjustTokenQuota(t, k.token, delta, c) == (t, Success(()))
  {
  }

  lemma {:induction false} SettledTokenReady(t: Till, s: Session, a: AccountId, k: Ticket, delta: int, c: Parts)
    requires Seats(t, a, k, s) && SettleReady(t, a, k, c) && StatusIs(t.wallet.ledger, s.funding, Open)
    requires SettleHold(t.wallet, s.funding, k.request, delta, c.finish).result.Success?
    ensures TokenReady(SettleHold(t.wallet, s.funding, k.request, delta, c.finish).wallet.ledger, k.token, c.post)
  {
    hide TokenReady, KeyApart, Unused, WalletApart;
    var f := s.funding;
    var p := SettleParams(f.reservation.value, k.request.id, Charge(f.reserved, delta), k.request.keys.settle);
    SeatedRow(t.wallet, a, k.request, f);
    OwnRow(t.wallet, a, k.request, f);
    hide Settle;
    ReadyAfterSettle(t.wallet.ledger, p, a, k.request, k.token, c.post);
  }

  lemma {:induction false} OwnRow(w: Wallet, a: AccountId, q: Request, f: Funding)
    requires Sits(w, a, q, f) && f.reservation.Some?
    ensures f.reservation.value < |w.ledger.reservations| && Same(w.ledger.reservations[f.reservation.value].account, a)
  {
  }

  /** A settlement whose token part is refused is final all the same: wallet and column pay the charge, the
      token goes on paying the hold, and settling again reports success without correcting it.  It happens
      exactly when the token's column refuses the write or does not cover the difference. */
  lemma {:induction false} TokenErrorIsFinal(t: Tab, a: AccountId, k: Ticket, quota: int, c: Parts, quota': int,
                                             c': Parts)
    requires Kept(t, a, k) && PartsApart(k, c) && !t.session.settled && !t.returned && t.session.preConsumed > 0
    requires SettleReady(t.till, a, k, c) && StatusIs(t.till.wallet.ledger, t.session.funding, Open)
    requires NoBelow(quota) - t.session.preConsumed <= Available(t.till.wallet.ledger, a)
    ensures var v := Settle(t.till, t.session, k, quota, c);
      var t' := Taken(t, v, a);
      && v.session.settled && t'.ledgerTaken == t'.columnTaken == NoBelow(quota)
      && Settle(v.till, v.session, k, quota', c') == Turn(v.till, v.session, Success(()), false)
      && t'.tokenTaken == OfToken(k, if TokenCovers(t.till, k, NoBelow(quota) - t.session.preConsumed, c)
                                     then NoBelow(quota) else t.session.preConsumed)
      && (v.result.Success? <==> TokenCovers(t.till, k, NoBelow(quota) - t.session.preConsumed, c))
  {
    hide SettleBoth, Sits, WalletApart, SettleReady, TokenCovers;
    SettlementOutcome(t.till, t.session, a, k, NoBelow(quota), c);
    SeatedRow(t.till.wallet, a, k.request, t.session.funding);
    SettlesBoth(t, a, k, NoBelow(quota), c);
  }

  // ----- A refund that half went through -----

  /** The refund's wallet part is refused and its token part goes through. */
  ghost predicate HalfRefunded(t: Till, k: Ticket, c: Parts) {
    && c.back.ledger && !c.back.project && !c.back.undo
    && TokenReady(t.wallet.ledger, k.token, c.post) && !c.post.x.column && t.tokenColumn >= 0
  }

  lemma {:induction false} HalfRefund(t: Tab, a: AccountId, k: Ticket, c: Parts)
    requires Kept(t, a, k) && PartsApart(k, c) && NeedsRefund(t.session) && HalfRefunded(t.till, k, c) && Charged(k)
    requires StatusIs(t.till.wallet.ledger, t.session.funding, Open)
    ensures var t' := TakenBack(t, a, k, c);
      && Kept(t', a, k) && t'.returned && !t'.session.settled && t'.session.preConsumed == t.session.preConsumed > 0
      && StatusIs(t'.till.wallet.ledger, t'.session.funding, Open)
      && t'.ledgerTaken == t'.columnTaken == t.ledgerTaken && t'.tokenTaken == 0
      && RefundSync(t.till, t.session, k, c).result.Failure?
  {
    hide AdjustTokenQuota, Sits, WalletApart, TokenReady;
    var s := t.session;
    WalletRefused(t.till.wallet, s.funding, k.request, c.back);
    SeatedRow(t.till.wallet, a, k.request, s.funding);
    TokenGoesThrough(t.till, k.token, -s.tokenConsumed, c.post);
    TokenKeepsSeat(t.till, a, k, s.funding, -s.tokenConsumed, c.post);
    hide Refund;
    RefundKeeps(t, a, k, c);
  }

  lemma {:induction false} WalletRefused(w: Wallet, f: Funding, q: Request, x: Faults)
    requires x.ledger && !x.project && !x.undo && f.reservation.Some?
    ensures Refund(w, f, q, x) == Relayed(w, f, Failure(StoreFailed), 0, false)
  {
  }

  /** A settlement that comes after such a refund charges the wallet in full and the token only what goes
      beyond the hold it has already been given back. */
  lemma {:induction false} HalfRefundThenSettled(t: Tab, a: AccountId, k: Ticket, c: Parts, quota: int, c': Parts)
    requires Kept(t, a, k) && PartsApart(k, c) && NeedsRefund(t.session) && HalfRefunded(t.till, k, c) && Charged(k)
    requires StatusIs(t.till.wallet.ledger, t.session.funding, Open)
    requires var t1 := TakenBack(t, a, k, c); var delta := NoBelow(quota) - t.session.preConsumed;
      && PartsApart(k, c') && SettleReady(t1.till, a, k, c')
      && delta <= Available(t1.till.wallet.ledger, a) && TokenCovers(t1.till, k, delta, c')
    ensures var t1 := TakenBack(t, a, k, c);
      var v := Settle(t1.till, t1.session, k, quota, c');
      var t2 := Taken(t1, v, a);
      && v.result.Success? && t2.ledgerTaken == t2.columnTaken == NoBelow(quota)
      && t2.tokenTaken == NoBelow(quota) - t.session.preConsumed && !Took(t2, k, NoBelow(quota))
  {
    hide Kept, TakenBack, Settle, SettleReady, TokenCovers, HalfRefunded, PartsApart, NeedsRefund;
    HalfRefund(t, a, k, c);
    SettledAfterReturn(TakenBack(t, a, k, c), a, k, quota, c');
  }

  lemma {:induction false} SettledAfterReturn(t: Tab, a: AccountId, k: Ticket, quota: int, c: Parts)
    requires Kept(t, a, k) && t.returned && !t.session.settled && t.session.preConsumed > 0 && Charged(k)
    requires StatusIs(t.till.wallet.ledger, t.session.funding, Open) && PartsApart(k, c) && SettleReady(t.till, a, k, c)
    requires var delta := NoBelow(quota) - t.session.preConsumed;
      delta <= Available(t.till.wallet.ledger, a) && TokenCovers(t.till, k, delta, c)
    ensures var v := Settle(t.till, t.session, k, quota, c);
      var t' := Taken(t, v, a);
      && v.result.Success? && t'.ledgerTaken == t'.columnTaken == NoBelow(quota)
      && t'.tokenTaken == NoBelow(quota) - t.session.preConsumed && !Took(t', k, NoBelow(quota))
  {
    hide SettleBoth, Sits, WalletApart, SettleReady, TokenCovers;
    SettlementOutcome(t.till, t.session, a, k, NoBelow(quota), c);
    SeatedRow(t.till.wallet, a, k.request, t.session.funding);
    SettlesBoth(t, a, k, NoBelow(quota), c);
  }

  /** Only a session that held its token before it settled can be settled by a call that fails. */
  lemma {:induction false} LateHoldSettlesWhole(t: Tab, a: AccountId, k: Ticket, quota: int, c: Parts)
    requires Kept(t, a, k) && PartsApart(k, c) && !t.session.settled && t.session.preConsumed == 0
    requires !Settle(t.till, t.session, k, quota, c).stuck
    ensures var v := Settle(t.till, t.session, k, quota, c); v.session.settled <==> v.result.Success?
  {
    hide SettleHold, PreConsume, PreConsumeTokenQuota, Refund, Sits, WalletApart;
    var actual := NoBelow(quota);
    if t.session.trusted && actual > 0 {
      ReservesTrusted(t, a, k, actual, c);
    } else {
      SettlesBoth(t, a, k, actual, c);
    }
  }

  // ----- A hold the session does not know of -----

  /** A trusted session that knows of no hold, settled for nothing: when its row is not open the call fails
      and takes nothing, and when it is open the call charges the whole hold unless the ledger refuses. */
  lemma {:induction false} ZeroSettlement(t: Tab, a: AccountId, k: Ticket, quota: int, c: Parts)
    requires Kept(t, a, k) && PartsApart(k, c) && !t.session.settled && t.session.trusted && t.session.preConsumed == 0
    requires quota <= 0
    requires Unused(t.till.wallet.ledger, k.request.keys.settle)
    ensures var v := Settle(t.till, t.session, k, quota, c);
      && (v.result.Success? <==> StatusIs(t.till.wallet.ledger, t.session.funding, Open) && !c.finish.ledger)
      && (v.session.settled <==> v.result.Success?)
      && Taken(t, v, a).ledgerTaken ==
         (if StatusIs(t.till.wallet.ledger, t.session.funding, Open) then t.session.funding.reserved else 0)
      && (StatusIs(t.till.wallet.ledger, t.session.funding, Open) ==> t.session.funding.reserved > 0)
      && (v.result.Failure? ==> v.till == t.till)
  {
    hide SettleHold, Sits, WalletApart, Unused;
    var f := t.session.funding;
    SeatedRow(t.till.wallet, a, k.request, f);
    NothingToProject(t.till.wallet, f, k.request, c.finish);
    SettlesBoth(t, a, k, 0, c);
    if StatusIs(t.till.wallet.ledger, f, Open) {
      ZeroFinish(t.till.wallet, a, k.request, f, c.finish);
    }
  }

  lemma {:induction false} NothingToProject(w: Wallet, f: Funding, q: Request, x: Faults)
    ensures !SettleHold(w, f, q, 0, x).stuck
  {
  }

  lemma {:induction false} ZeroFinish(w: Wallet, a: AccountId, q: Request, f: Funding, x: Faults)
    requires Sits(w, a, q, f) && StatusIs(w.ledger, f, Open) && Unused(w.ledger, q.keys.settle)
    ensures SettleHold(w, f, q, 0, x).result.Success? <==> !x.ledger
  {
    hide Settle, Sits;
    NoColumnWrite(w, f, q, x);
    if !x.ledger {
      FinishGoesThrough(w, a, q, f, 0, x.(project := false));
      EnoughForNothing(w, a, q, f);
    }
  }

  lemma {:induction false} EnoughForNothing(w: Wallet, a: AccountId, q: Request, f: Funding)
    requires Sits(w, a, q, f)
    ensures Available(w.ledger, a) >= 0
  {
    assert Holds(Conservation, w.ledger);
  }

  /** Without a difference the column is not written, whether it would refuse or not. */
  lemma {:induction false} NoColumnWrite(w: Wallet, f: Funding, q: Request, x: Faults)
    ensures SettleHold(w, f, q, 0, x) == SettleHold(w, f, q, 0, x.(project := false))
    ensures x.ledger && f.reservation.Some? && FindSettlement(w.ledger.settlements, q.keys.settle).None? ==>
              SettleHold(w, f, q, 0, x).result.Failure?
  {
    hide Settle;
  }

  /** The trusted session of a new request, the settlement whose hold is taken but whose token and whose
      give-back are refused, and what is left: an open hold that the session does not know of. */
  lemma {:induction false} HoldIsForgotten(t: Till, a: AccountId, k: Ticket, quota: nat, amount: int, c: Parts,
                                           c': Parts)
    requires Books(t.wallet.ledger) && NewRequest(t.wallet.ledger, k.request) && PartsApart(k, c) && PartsApart(k, c')
    requires WalletApart(t.wallet.ledger, a, k.request, k.token.mirror) && |a| > 0
    requires ShouldTrust(k, Available(t.wallet.ledger, a)) && quota <= Available(t.wallet.ledger, a)
    requires Unused(t.wallet.ledger, k.request.keys.reserve) && 0 < amount <= Available(t.wallet.ledger, a)
    requires !c'.hold.ensure && !c'.hold.ledger && !c'.hold.project
    requires c'.pre.missing && !k.token.playground && c'.back.ledger && !c'.back.project && !c'.back.undo
    ensures var o := OpenSession(t, k, quota, c);
      && o == Opening(t, Some(NewSession(true, 0)), false)
      && var v := Settle(t, NewSession(true, 0), k, amount, c');
      && v.result.Failure? && !v.stuck && !v.session.settled && v.session.trusted && v.session.preConsumed == 0
      && Kept(Taken(Opened(t, o, a), v, a), a, k)
      && StatusIs(v.till.wallet.ledger, v.session.funding, Open) && v.session.funding.reserved == amount
  {
    hide PreConsumeTokenQuota, Refund, Sits, WalletApart, Unused, NewRequest, Books;
    NewTicketSits(t, a, k);
    ReadsAvailable(t, a, k);
    OpensTrusted(t, a, k, quota, c);
    var s := NewSession(true, 0);
    var p := PreConsume(t.wallet, NEW_FUNDING, k.request, amount, c'.newId, c'.hold);
    HoldGoesThrough(t.wallet, a, k.request, amount, c'.newId, c'.hold);
    StuckHoldFails(t.wallet, k.request, NEW_FUNDING, amount, c'.newId, c'.hold);
    HoldSeats(t.wallet, a, k.request, NEW_FUNDING, amount, c'.newId, c'.hold);
    TokenMissing(t.(wallet := p.wallet), k, amount, c'.pre);
    WalletRefused(p.wallet, p.funding, k.request, c'.back);
    hide PreConsume;
    OpensHeldAlike(t, a, k, quota, c);
    var o := OpenSession(t, k, quota, c);
    ReservesTrusted(Opened(t, o, a), a, k, amount, c');
  }

  lemma {:induction false} ReadsAvailable(t: Till, a: AccountId, k: Ticket)
    requires WalletApart(t.wallet.ledger, a, k.request, k.token.mirror)
    ensures ReadBalance(t.wallet, k.request.mirror) == Available(t.wallet.ledger, a)
  {
  }

  lemma {:induction false} OpensTrusted(t: Till, a: AccountId, k: Ticket, quota: int, c: Parts)
    requires ReadBalance(t.wallet, k.request.mirror) == Available(t.wallet.ledger, a)
    requires ShouldTrust(k, Available(t.wallet.ledger, a)) && quota <= Available(t.wallet.ledger, a)
    ensures OpenSession(t, k, quota, c) == Opening(t, Some(NewSession(true, 0)), false)
  {
    hide PreConsumeTokenQuota;
  }

  lemma {:induction false} TokenMissing(t: Till, k: Ticket, amount: int, c: TokenCall)
    requires amount >= 0 && c.missing && !k.token.playground
    ensures PreConsumeTokenQuota(t, k.token, amount, c) == (t, Failure(StoreFailed))
  {
    hide AdjustTokenQuota;
  }

  /** So the next settlement for nothing charges the wallet the whole amount that the failed one was to take. */
  lemma {:induction false} ForgottenHoldIsCharged(t: Till, a: AccountId, k: Ticket, quota: nat, amount: int,
                                                  c: Parts, c': Parts, c'': Parts)
    requires Books(t.wallet.ledger) && NewRequest(t.wallet.ledger, k.request)
    requires PartsApart(k, c) && PartsApart(k, c') && PartsApart(k, c'')
    requires WalletApart(t.wallet.ledger, a, k.request, k.token.mirror) && |a| > 0
    requires ShouldTrust(k, Available(t.wallet.ledger, a)) && quota <= Available(t.wallet.ledger, a)
    requires 0 < amount <= Available(t.wallet.ledger, a)
    requires Unused(t.wallet.ledger, k.request.keys.reserve) && Plain(k.request.keys.reserve)
    requires Unused(t.wallet.ledger, k.request.keys.settle) && Plain(k.request.keys.settle)
    requires !Same(k.request.keys.settle, k.request.keys.reserve)
    requires !c'.hold.ensure && !c'.hold.ledger && !c'.hold.project
    requires c'.pre.missing && !k.token.playground && c'.back.ledger && !c'.back.project && !c'.back.undo
    requires !c''.finish.ledger
    ensures var v := Settle(t, NewSession(true, 0), k, amount, c');
      var v' := Settle(v.till, v.session, k, 0, c'');
      && v.result.Failure? && v'.result.Success?
      && Taken(Taken(Opened(t, OpenSession(t, k, quota, c), a), v, a), v', a).ledgerTaken == amount
  {
    HoldIsForgotten(t, a, k, quota, amount, c, c');
    var v := Settle(t, NewSession(true, 0), k, amount, c');
    assert Unused(v.till.wallet.ledger, k.request.keys.settle) by {
      ForgottenLedger(t, a, k, amount, c');
    }
    hide Settle, Kept, OpenSession, WalletApart, Unused, NewRequest, Books, PartsApart, ShouldTrust, StatusIs;
    ZeroSettlement(Taken(Opened(t, OpenSession(t, k, quota, c), a), v, a), a, k, 0, c'');
  }

  lemma {:induction false} ForgottenLedger(t: Till, a: AccountId, k: Ticket, amount: int, c: Parts)
    requires NewRequest(t.wallet.ledger, k.request) && WalletApart(t.wallet.ledger, a, k.request, k.token.mirror)
    requires |a| > 0
    requires 0 < amount <= Available(t.wallet.ledger, a)
    requires Unused(t.wallet.ledger, k.request.keys.reserve) && Plain(k.request.keys.reserve)
    requires Unused(t.wallet.ledger, k.request.keys.settle) && Plain(k.request.keys.settle)
    requires !Same(k.request.keys.settle, k.request.keys.reserve)
    requires !c.hold.ensure && !c.hold.ledger && !c.hold.project
    requires c.pre.missing && !k.token.playground && c.back.ledger && !c.back.project && !c.back.undo
    ensures Unused(Settle(t, NewSession(true, 0), k, amount, c).till.wallet.ledger, k.request.keys.settle)
  {
    hide PreConsume, PreConsumeTokenQuota, Refund, Sits, WalletApart, Unused, NewRequest, Plain;
    NewTicketSits(t, a, k);
    var p := PreConsume(t.wallet, NEW_FUNDING, k.request, amount, c.newId, c.hold);
    HoldGoesThrough(t.wallet, a, k.request, amount, c.newId, c.hold);
    StuckHoldFails(t.wallet, k.request, NEW_FUNDING, amount, c.newId, c.hold);
    HoldSeats(t.wallet, a, k.request, NEW_FUNDING, amount, c.newId, c.hold);
    HoldKeepsUnused(t.wallet, a, k.request, amount, c.newId, c.hold, k.request.keys.settle);
    TokenMissing(t.(wallet := p.wallet), k, amount, c.pre);
    WalletRefused(p.wallet, p.funding, k.request, c.back);
  }
}
