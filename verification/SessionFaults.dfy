/** Sessions whose compensations may be refused too: what wallet, column and token have paid after any run. */
module SessionFaults {
  import opened LedgerSchema
  import opened LedgerRuntime
  import opened LedgerInvariants
  import opened LedgerEffects
  import opened WalletMirror
  import opened RelayFunding
  import opened TokenQuota
  import opened RequestStanding
  import opened RequestAccount
  import opened BillingSession

  // ----- How far a call moves the column away from the ledger -----

  function SettleSlip(t: Till, s: Session, k: Ticket, actual: int, c: Parts): int {
    if s.fundingSettled then 0 else SettleHold(t.wallet, s.funding, k.request, actual - s.preConsumed, c.finish).slip
  }

  function LateHoldSlip(t: Till, s: Session, k: Ticket, actual: int, c: Parts): int {
    var p := PreConsume(t.wallet, s.funding, k.request, actual, c.newId, c.hold);
    if p.result.Failure? then p.slip
    else
      var (t2, r) := PreConsumeTokenQuota(t.(wallet := p.wallet), k.token, actual, c.pre);
      p.slip + if r.Failure? then Refund(t2.wallet, p.funding, k.request, c.back).slip else 0
  }

  /** The sum of the slips of a call's parts. */
  function CallSlip(t: Till, s: Session, k: Ticket, call: BillingSession.Call): int {
    match call
    case SettleFor(quota, c) =>
      var actual := NoBelow(quota);
      if s.settled then 0
      else if s.trusted && s.preConsumed == 0 && actual > 0 then
        var v := ReserveTrusted(t, s, k, actual, c);
        LateHoldSlip(t, s, k, actual, c) + if v.result.Failure? then 0 else SettleSlip(v.till, v.session, k, actual, c)
      else SettleSlip(t, s, k, actual, c)
    case RefundNow(c) => if NeedsRefund(s) then Refund(t.wallet, s.funding, k.request, c.back).slip else 0
    case ReserveUpTo(_) => 0
    case Between(_) => 0
  }

  /** By how much the column has given less than the ledger. */
  function Slipped(t: Tab): int {
    t.ledgerTaken - t.columnTaken
  }

  // ----- What every call keeps -----

  /** The session's counters agree with what its funding knows. */
  predicate Counts(s: Session) {
    && s.tokenConsumed == s.preConsumed >= 0
    && (s.settled <==> s.fundingSettled) && (s.settled <==> s.funding.settlement.Some?)
    && (s.preConsumed > 0 ==> s.funding.reservation.Some?)
    && (!s.trusted && s.preConsumed == 0 ==> s.funding.reservation.None?)
    && (s.refunded ==> s.preConsumed > 0)
  }

  /** The ledger has given what it tells under the request's keys; until the session is settled the token has
      given its hold, or nothing once a refund of it went through. */
  ghost predicate Booked(t: Tab, a: AccountId, k: Ticket) {
    && OnRecord(t.till.wallet, a, k.request, t.session.funding)
    && WalletApart(t.till.wallet.ledger, a, k.request, k.token.mirror) && Counts(t.session)
    && t.ledgerTaken == LedgerGave(t.till.wallet.ledger, k.request)
    && (t.returned ==> t.session.refunded)
    && (!t.session.settled ==> t.tokenTaken == OfToken(k, if t.returned then 0 else t.session.tokenConsumed))
  }

  /** Every session that BillingSession describes is booked, and nothing has slipped. */
  lemma {:induction false} KeptIsBooked(t: Tab, a: AccountId, k: Ticket)
    requires Kept(t, a, k)
    ensures Booked(t, a, k) && Slipped(t) == 0
  {
    hide Books;
    var f := t.session.funding;
    var l := t.till.wallet.ledger;
    if f.reservation.Some? {
      OneRow(l, k.request, f.reservation.value);
    }
  }

  /** From t to t' a token call left the request's rows, the wallet's balance and its column alone. */
  ghost predicate PlaceKept(t: Till, t': Till, a: AccountId, k: Ticket, f: Funding) {
    && OnRecord(t'.wallet, a, k.request, f) && WalletApart(t'.wallet.ledger, a, k.request, k.token.mirror)
    && LedgerGave(t'.wallet.ledger, k.request) == LedgerGave(t.wallet.ledger, k.request)
    && Available(t'.wallet.ledger, a) == Available(t.wallet.ledger, a) && t'.wallet.column == t.wallet.column
    && (forall status :: RowIs(t'.wallet.ledger, k.request, status) <==> RowIs(t.wallet.ledger, k.request, status))
  }

  lemma {:induction false} TokenKeepsPlace(t: Till, a: AccountId, k: Ticket, f: Funding, delta: int, c: TokenCall)
    requires OnRecord(t.wallet, a, k.request, f) && WalletApart(t.wallet.ledger, a, k.request, k.token.mirror)
    requires ApartFrom(k.request, c.kr) && ApartFrom(k.request, c.ka) && ApartFrom(k.request, c.kc)
    ensures var (t', r) := AdjustTokenQuota(t, k.token, delta, c);
      && PlaceKept(t, t', a, k, f)
      && t'.tokenColumn == t.tokenColumn - if r.Success? && Metered(k.token) then delta else 0
  {
    hide AdjustTokenQuota, OnRecord, WalletApart, LeavesRows, LedgerGave, RowIs;
    var t' := AdjustTokenQuota(t, k.token, delta, c).0;
    TokenLeaves(t, k.token, delta, c, a, k.request);
    TokenMovesExactly(t, k.token, delta, c);
    StillOnRecord(t.wallet, t'.wallet, a, k.request, f, k.token.mirror);
  }

  lemma {:induction false} PreTokenKeepsPlace(t: Till, a: AccountId, k: Ticket, f: Funding, quota: int, c: TokenCall)
    requires OnRecord(t.wallet, a, k.request, f) && WalletApart(t.wallet.ledger, a, k.request, k.token.mirror)
    requires ApartFrom(k.request, c.kr) && ApartFrom(k.request, c.ka) && ApartFrom(k.request, c.kc)
    ensures var (t', r) := PreConsumeTokenQuota(t, k.token, quota, c);
      && PlaceKept(t, t', a, k, f)
      && t'.tokenColumn == t.tokenColumn - if r.Success? && BillingSession.Charged(k) then quota else 0
  {
    hide AdjustTokenQuota, OnRecord, WalletApart, LedgerGave, RowIs;
    TokenKeepsPlace(t, a, k, f, quota, c);
  }

  lemma {:induction false} ApartStays(w: Wallet, w': Wallet, a: AccountId, q: Request, f: Funding, m: Mirror)
    requires WalletApart(w.ledger, a, q, m) && OnRecord(w', a, q, f) && w'.ledger.accounts == w.ledger.accounts
    ensures WalletApart(w'.ledger, a, q, m)
  {
  }

  /** The settling steps, from any booked session. */
  lemma {:induction false} SettleBothBooked(t: Tab, a: AccountId, k: Ticket, actual: int, c: Parts)
    requires Booked(t, a, k) && !t.session.settled && actual >= 0 && PartsApart(k, c)
    ensures var v := SettleBoth(t.till, t.session, k, actual, c);
      var t' := Taken(t, v, a);
      var delta := actual - t.session.preConsumed;
      && Booked(t', a, k) && Slipped(t') == Slipped(t) + SettleSlip(t.till, t.session, k, actual, c)
      && v.session ==
         t.session.(funding := v.session.funding, fundingSettled := v.session.settled, settled := v.session.settled)
      && (v.result.Success? ==> v.session.settled)
      && (if v.session.settled
          then && RowIs(t.till.wallet.ledger, k.request, Open) && t.session.funding.reservation.Some?
               && t.session.funding.reserved == HeldOr(t.till.wallet.ledger, k.request, t.session.funding.reserved)
               && t'.ledgerTaken == Charge(t.session.funding.reserved, delta)
               && SettleSlip(t.till, t.session, k, actual, c) == t'.ledgerTaken - (t.session.funding.reserved + delta)
               && t'.tokenTaken == t.tokenTaken + if v.result.Success? then OfToken(k, delta) else 0
          else t'.ledgerTaken == t.ledgerTaken && t'.tokenTaken == t.tokenTaken)
  {
    hide SettleHold, AdjustTokenQuota, OnRecord, WalletApart, LedgerGave, RowIs, HeldOr;
    var s := t.session;
    var delta := actual - s.preConsumed;
    var p := SettleHold(t.till.wallet, s.funding, k.request, delta, c.finish);
    PlacedFunding(t.till.wallet, a, k.request, s.funding);
    FinishMoves(t.till.wallet, a, k.request, s.funding, delta, c.finish);
    ApartStays(t.till.wallet, p.wallet, a, k.request, p.funding, k.token.mirror);
    if p.result.Success? && !k.token.playground {
      TokenKeepsPlace(t.till.(wallet := p.wallet), a, k, p.funding, delta, c.post);
    }
  }

  lemma {:induction false} PlacedFunding(w: Wallet, a: AccountId, q: Request, f: Funding)
    requires OnRecord(w, a, q, f)
    ensures f.settlement.Some? <==> RowIs(w.ledger, q, Settled)
  {
  }

  /** The late hold of a trusted session, from any booked one. */
  lemma {:induction false} LateHoldBooked(t: Tab, a: AccountId, k: Ticket, actual: int, c: Parts)
    requires Booked(t, a, k) && t.session.trusted && t.session.preConsumed == 0 && !t.session.settled && actual > 0
    requires PartsApart(k, c)
    ensures var v := ReserveTrusted(t.till, t.session, k, actual, c);
      var t' := Taken(t, v, a);
      && Booked(t', a, k) && Slipped(t') == Slipped(t) + LateHoldSlip(t.till, t.session, k, actual, c)
      && v.session.trusted && !v.session.settled && v.session.refunded == t.session.refunded
      && (v.result.Success? ==>
            && v.session.preConsumed == actual && t'.tokenTaken == OfToken(k, actual) && Slipped(t') == Slipped(t)
            && v.session.funding.reserved == HeldOr(t.till.wallet.ledger, k.request, actual))
      && (v.result.Failure? ==> v.session.preConsumed == 0)
  {
    hide PreConsume, PreConsumeTokenQuota, Refund, OnRecord, WalletApart, LedgerGave, RowIs, HeldOr;
    var s := t.session;
    var p := PreConsume(t.till.wallet, s.funding, k.request, actual, c.newId, c.hold);
    HoldMoves(t.till.wallet, a, k.request, s.funding, actual, c.newId, c.hold);
    ApartStays(t.till.wallet, p.wallet, a, k.request, p.funding, k.token.mirror);
    if p.result.Success? {
      var t1 := t.till.(wallet := p.wallet);
      PreTokenKeepsPlace(t1, a, k, p.funding, actual, c.pre);
      var (t2, r) := PreConsumeTokenQuota(t1, k.token, actual, c.pre);
      if r.Failure? {
        var g := Refund(t2.wallet, p.funding, k.request, c.back);
        BackMoves(t2.wallet, a, k.request, p.funding, c.back);
        ApartStays(t2.wallet, g.wallet, a, k.request, g.funding, k.token.mirror);
      }
    }
  }

  /** The hold that a settlement finds or makes, and the one the session counts. */
  function HoldFound(t: Tab, k: Ticket, quota: int): int {
    HeldOr(t.till.wallet.ledger, k.request, NoBelow(quota))
  }

  function HoldCounted(t: Tab, quota: int): int {
    if t.session.preConsumed > 0 then t.session.preConsumed else NoBelow(quota)
  }

  /** What a settlement charges the wallet when it goes through: the amount, as far as the hold found is the
      one counted. */
  function WalletCharge(t: Tab, k: Ticket, quota: int): int {
    Charge(HoldFound(t, k, quota), NoBelow(quota) - HoldCounted(t, quota))
  }

  /** The slip of a settlement that charges the wallet so much. */
  predicate SlipsBy(t: Tab, k: Ticket, quota: int, c: Parts, charge: int) {
    CallSlip(t.till, t.session, k, SettleFor(quota, c)) ==
    charge - (HoldFound(t, k, quota) + NoBelow(quota) - HoldCounted(t, quota))
  }

  lemma {:induction false} SettleBooked(t: Tab, a: AccountId, k: Ticket, quota: int, c: Parts)
    requires Booked(t, a, k) && PartsApart(k, c)
    ensures var v := BillingSession.Settle(t.till, t.session, k, quota, c);
      var t' := Taken(t, v, a);
      var something := quota > 0 || t.session.preConsumed > 0;
      && Booked(t', a, k) && Slipped(t') == Slipped(t) + CallSlip(t.till, t.session, k, SettleFor(quota, c))
      && v.session.refunded == t.session.refunded
      && (t.session.settled ==> v.till == t.till && v.session == t.session)
      && (v.result.Success? && !t.session.settled ==>
            && v.session.settled
            && (something ==> t'.ledgerTaken == WalletCharge(t, k, quota))
            && (something ==> SlipsBy(t, k, quota, c, t'.ledgerTaken))
            && (!something ==> t'.ledgerTaken > 0)
            && (something ==>
                (t'.tokenTaken == OfToken(k, NoBelow(quota)) <==> !(t.returned && BillingSession.Charged(k)))))
  {
    hide ReserveTrusted, SettleBoth, LateHoldSlip, SettleSlip, OnRecord, WalletApart, LedgerGave, RowIs, HeldOr;
    var actual := NoBelow(quota);
    var s := t.session;
    if !s.settled {
      if s.trusted && s.preConsumed == 0 && actual > 0 {
        var v1 := ReserveTrusted(t.till, s, k, actual, c);
        LateHoldBooked(t, a, k, actual, c);
        if v1.result.Success? {
          SettleBothBooked(Taken(t, v1, a), a, k, actual, c);
          HoldsSomething(Taken(t, v1, a), a, k);
          TakenTwice(t, v1, SettleBoth(v1.till, v1.session, k, actual, c), a);
        }
      } else {
        SettleBothBooked(t, a, k, actual, c);
        if SettleBoth(t.till, s, k, actual, c).session.settled {
          HoldsSomething(t, a, k);
          FoundIsRow(t.till.wallet.ledger, k.request, s.funding.reserved, actual);
        }
      }
    }
  }

  lemma {:induction false} HoldsSomething(t: Tab, a: AccountId, k: Ticket)
    requires Booked(t, a, k) && t.session.funding.reservation.Some?
    ensures t.session.funding.reserved > 0
  {
  }

  lemma {:induction false} FoundIsRow(l: Ledger, q: Request, x: int, y: int)
    requires RowIs(l, q, Open)
    ensures HeldOr(l, q, x) == HeldOr(l, q, y)
  {
  }

  lemma {:induction false} RefundBooked(t: Tab, a: AccountId, k: Ticket, c: Parts)
    requires Booked(t, a, k) && PartsApart(k, c)
    ensures var v := RefundSync(t.till, t.session, k, c);
      var t' := TakenBack(t, a, k, c);
      && Booked(t', a, k) && Slipped(t') == Slipped(t) + CallSlip(t.till, t.session, k, RefundNow(c))
      && v.session.settled == t.session.settled && v.session.preConsumed == t.session.preConsumed
      && (!NeedsRefund(t.session) ==>
          v.till == t.till && v.session == t.session && !ReturnsToken(t.till, t.session, k, c))
      && (v.result.Success? && NeedsRefund(t.session) ==>
            PaidOut(t', k) && t'.ledgerTaken == 0 && t'.tokenTaken == 0)
  {
    hide Refund, AdjustTokenQuota, OnRecord, WalletApart, LedgerGave, RowIs;
    var s := t.session;
    if NeedsRefund(s) {
      var g := Refund(t.till.wallet, s.funding, k.request, c.back);
      BackMoves(t.till.wallet, a, k.request, s.funding, c.back);
      ApartStays(t.till.wallet, g.wallet, a, k.request, g.funding, k.token.mirror);
      if !k.token.playground {
        TokenKeepsPlace(t.till.(wallet := g.wallet), a, k, g.funding, -s.tokenConsumed, c.post);
      }
    }
  }

  /** A refund gives back the parts that go through and is not tried again, whatever it ran into; the column's
      part goes wrong by its slip. */
  lemma {:induction false} RefundTriedOnce(t: Tab, a: AccountId, k: Ticket, c: Parts, c': Parts)
    requires Booked(t, a, k) && PartsApart(k, c) && NeedsRefund(t.session)
    ensures var v := RefundSync(t.till, t.session, k, c);
      var t' := TakenBack(t, a, k, c);
      var walletBack := Refund(t.till.wallet, t.session.funding, k.request, c.back).result.Success?;
      && t'.ledgerTaken == (if walletBack then 0 else t.ledgerTaken)
      && t'.tokenTaken == (if ReturnsToken(t.till, t.session, k, c) then 0 else t.tokenTaken)
      && Slipped(t') == Slipped(t) + CallSlip(t.till, t.session, k, RefundNow(c))
      && (v.result.Success? <==> walletBack && (k.token.playground || ReturnsToken(t.till, t.session, k, c)))
      && RefundSync(v.till, v.session, k, c') == Turn(v.till, v.session, Success(()), false)
  {
    hide Refund, AdjustTokenQuota, OnRecord, WalletApart, LedgerGave, RowIs;
    var g := Refund(t.till.wallet, t.session.funding, k.request, c.back);
    RefundBooked(t, a, k, c);
    BackMoves(t.till.wallet, a, k.request, t.session.funding, c.back);
    ApartStays(t.till.wallet, g.wallet, a, k.request, g.funding, k.token.mirror);
    LedgerAlike(t.till.wallet.ledger, g.wallet.ledger, k.request);
    if !k.token.playground {
      TokenKeepsPlace(t.till.(wallet := g.wallet), a, k, g.funding, -t.session.tokenConsumed, c.post);
    }
  }

  lemma {:induction false} LedgerAlike(l: Ledger, l': Ledger, q: Request)
    ensures l' == l ==> LedgerGave(l', q) == LedgerGave(l, q)
  {
  }

  /** Refunded for good: the row is released. */
  predicate PaidOut(t: Tab, k: Ticket) {
    t.session.refunded && !t.session.settled && RowIs(t.till.wallet.ledger, k.request, Released)
  }

  // ----- Any run -----

  /** Any calls, whatever they run into, and anything else that leaves the request's rows alone in between. */
  ghost predicate May(t: Tab, k: Ticket, call: BillingSession.Call) {
    match call
    case SettleFor(_, c) => PartsApart(k, c)
    case RefundNow(c) => PartsApart(k, c)
    case ReserveUpTo(_) => true
    case Between(next) => LeavesRows(t.till.wallet.ledger, next.wallet.ledger, k.request)
  }

  ghost predicate AnyRun(t: Tab, a: AccountId, k: Ticket, calls: seq<BillingSession.Call>)
    decreases |calls|
  {
    calls == [] || (May(t, k, calls[0]) && AnyRun(BillingSession.Next(t, a, k, calls[0]), a, k, calls[1..]))
  }

  function RunSlip(t: Tab, a: AccountId, k: Ticket, calls: seq<BillingSession.Call>): int
    decreases |calls|
  {
    if calls == [] then 0
    else CallSlip(t.till, t.session, k, calls[0]) + RunSlip(BillingSession.Next(t, a, k, calls[0]), a, k, calls[1..])
  }

  lemma {:induction false} CallBooked(t: Tab, a: AccountId, k: Ticket, call: BillingSession.Call)
    requires Booked(t, a, k) && May(t, k, call)
    ensures var t' := BillingSession.Next(t, a, k, call);
      && Booked(t', a, k) && Slipped(t') == Slipped(t) + CallSlip(t.till, t.session, k, call)
      && (t.session.settled ==> t'.session.settled && TookTheSame(t, t'))
      && (PaidOut(t, k) ==> PaidOut(t', k) && t'.ledgerTaken == t.ledgerTaken && t'.tokenTaken == t.tokenTaken)
  {
    hide Refund, ReserveTrusted, SettleBoth, SettleSlip, LateHoldSlip, LeavesRows, OnRecord, WalletApart, LedgerGave;
    hide RowIs;
    match call
    case SettleFor(quota, c) =>
      SettleBooked(t, a, k, quota, c);
      if PaidOut(t, k) {
        ReleasedStays(t, a, k, quota, c);
      }
    case RefundNow(c) => RefundBooked(t, a, k, c);
    case ReserveUpTo(_) =>
    case Between(next) => StillOnRecord(t.till.wallet, next.wallet, a, k.request, t.session.funding, k.token.mirror);
  }

  lemma {:induction false} ReleasedStays(t: Tab, a: AccountId, k: Ticket, quota: int, c: Parts)
    requires Booked(t, a, k) && PaidOut(t, k)
    ensures var v := BillingSession.Settle(t.till, t.session, k, quota, c);
      var t' := Taken(t, v, a);
      PaidOut(t', k) && t'.ledgerTaken == t.ledgerTaken && t'.tokenTaken == t.tokenTaken
  {
    hide SettleHold, OnRecord, WalletApart, LedgerGave, RowIs;
    var s := t.session;
    var delta := NoBelow(quota) - s.preConsumed;
    ReleasedForGood(t.till.wallet, a, k.request, s.funding, delta, c.finish);
    FinishMoves(t.till.wallet, a, k.request, s.funding, delta, c.finish);
  }

  /** Over any run the ledger has given what it tells, and the column has given less by the sum of the slips. */
  lemma {:induction false} RunBooked(t: Tab, a: AccountId, k: Ticket, calls: seq<BillingSession.Call>)
    requires Booked(t, a, k) && AnyRun(t, a, k, calls)
    ensures var t' := BillingSession.Final(t, a, k, calls);
      && Booked(t', a, k) && Slipped(t') == Slipped(t) + RunSlip(t, a, k, calls)
      && (t.session.settled ==> t'.session.settled && TookTheSame(t, t'))
      && (PaidOut(t, k) ==> PaidOut(t', k) && t'.ledgerTaken == t.ledgerTaken && t'.tokenTaken == t.tokenTaken)
    decreases |calls|
  {
    hide Booked, May, CallSlip, Slipped, PaidOut, BillingSession.Next;
    if calls != [] {
      CallBooked(t, a, k, calls[0]);
      RunBooked(BillingSession.Next(t, a, k, calls[0]), a, k, calls[1..]);
    }
  }

  lemma {:induction false} AnyRunSplits(t: Tab, a: AccountId, k: Ticket, before: seq<BillingSession.Call>,
                                        call: BillingSession.Call, later: seq<BillingSession.Call>)
    requires AnyRun(t, a, k, before + [call] + later)
    ensures AnyRun(t, a, k, before) && May(BillingSession.Final(t, a, k, before), k, call)
    ensures var t1 := BillingSession.Next(BillingSession.Final(t, a, k, before), a, k, call);
      && AnyRun(t1, a, k, later)
      && BillingSession.Final(t, a, k, before + [call] + later) == BillingSession.Final(t1, a, k, later)
    decreases |before|
  {
    hide BillingSession.Next, May;
    var calls := before + [call] + later;
    if before == [] {
      assert calls[1..] == later;
    } else {
      assert calls[0] == before[0] && calls[1..] == before[1..] + [call] + later;
      AnyRunSplits(BillingSession.Next(t, a, k, before[0]), a, k, before[1..], call, later);
    }
  }

  /** Whatever was called before and is called afterwards, and whatever the stores refused: after the
      settlement that goes through, wallet, column and token have each paid the amount it was given exactly
      when there was something to settle, no refund of the token went through before it, the hold it found was
      the one the session counts, and the slips of all calls sum to nothing. */
  lemma {:induction false} SettledInAnyRun(t: Tab, a: AccountId, k: Ticket, before: seq<BillingSession.Call>,
                                           quota: int, c: Parts,
                                           later: seq<BillingSession.Call>)
    requires Booked(t, a, k) && AnyRun(t, a, k, before + [SettleFor(quota, c)] + later)
    requires var m := BillingSession.Final(t, a, k, before);
      !m.session.settled && Answer(m, k, SettleFor(quota, c)).result.Success?
    ensures var m := BillingSession.Final(t, a, k, before);
      var calls := before + [SettleFor(quota, c)] + later;
      Took(BillingSession.Final(t, a, k, calls), k, NoBelow(quota)) <==>
      && (quota > 0 || m.session.preConsumed > 0) && !(m.returned && BillingSession.Charged(k))
      && WalletCharge(m, k, quota) == NoBelow(quota) && Slipped(t) + RunSlip(t, a, k, calls) == 0
  {
    hide Booked, AnyRun, BillingSession.Final, BillingSession.Settle, CallSlip, WalletCharge, PaidOut, May;
    hide BillingSession.Charged;
    var call := SettleFor(quota, c);
    AnyRunSplits(t, a, k, before, call, later);
    var m := BillingSession.Final(t, a, k, before);
    RunBooked(t, a, k, before);
    MayApart(m, k, quota, c);
    SettleBooked(m, a, k, quota, c);
    RunBooked(BillingSession.Next(m, a, k, call), a, k, later);
    RunBooked(t, a, k, before + [call] + later);
  }

  lemma {:induction false} MayApart(t: Tab, k: Ticket, quota: int, c: Parts)
    requires May(t, k, SettleFor(quota, c))
    ensures PartsApart(k, c)
  {
  }

  /** Likewise a refund that goes through: ledger and token have paid nothing, for good, and the column nothing
      exactly when the slips sum to nothing. */
  lemma {:induction false} RefundedInAnyRun(t: Tab, a: AccountId, k: Ticket, before: seq<BillingSession.Call>, c: Parts,
                                            later: seq<BillingSession.Call>)
    requires Booked(t, a, k) && AnyRun(t, a, k, before + [RefundNow(c)] + later)
    requires var m := BillingSession.Final(t, a, k, before);
      NeedsRefund(m.session) && Answer(m, k, RefundNow(c)).result.Success?
    ensures var calls := before + [RefundNow(c)] + later;
      var t' := BillingSession.Final(t, a, k, calls);
      && t'.ledgerTaken == 0 && t'.tokenTaken == 0 && t'.columnTaken == -(Slipped(t) + RunSlip(t, a, k, calls))
  {
    hide Booked, AnyRun, BillingSession.Final, RefundSync, CallSlip, PaidOut, May;
    var call := RefundNow(c);
    AnyRunSplits(t, a, k, before, call, later);
    var m := BillingSession.Final(t, a, k, before);
    RunBooked(t, a, k, before);
    RefundApart(m, k, c);
    RefundBooked(m, a, k, c);
    RunBooked(BillingSession.Next(m, a, k, call), a, k, later);
    RunBooked(t, a, k, before + [call] + later);
  }

  lemma {:induction false} RefundApart(t: Tab, k: Ticket, c: Parts)
    requires May(t, k, RefundNow(c))
    ensures PartsApart(k, c)
  {
  }

  /** A run in which every compensation that is needed goes through slips nothing. */
  lemma {:induction false} CleanRunSlipsNothing(t: Tab, a: AccountId, k: Ticket, calls: seq<BillingSession.Call>)
    requires Kept(t, a, k) && BillingSession.Runs(t, a, k, calls)
    ensures AnyRun(t, a, k, calls) && RunSlip(t, a, k, calls) == 0
  {
    hide Kept, Booked, RunSlip, BillingSession.Final;
    CleanRunIsARun(t, a, k, calls);
    KeptIsBooked(t, a, k);
    RunBooked(t, a, k, calls);
    RunKeeps(t, a, k, calls);
    KeptIsBooked(BillingSession.Final(t, a, k, calls), a, k);
  }

  lemma {:induction false} CleanRunIsARun(t: Tab, a: AccountId, k: Ticket, calls: seq<BillingSession.Call>)
    requires BillingSession.Runs(t, a, k, calls)
    ensures AnyRun(t, a, k, calls)
    decreases |calls|
  {
    hide BillingSession.Next, LeavesRows, PartsApart, Answer;
    if calls != [] {
      CleanRunIsARun(BillingSession.Next(t, a, k, calls[0]), a, k, calls[1..]);
    }
  }

  // ----- A settlement whose compensation is refused -----

  /** The ledger refuses the settlement after the column paid the difference, and then the column refuses to
      take it back.  The session is not settled; the settlement that comes later charges the wallet what it
      should and the column the difference once more. */
  lemma {:induction false} PaidAgain(t: Tab, a: AccountId, k: Ticket, quota: int, c: Parts, c': Parts)
    requires Kept(t, a, k) && PartsApart(k, c) && PartsApart(k, c') && !t.session.settled && t.session.preConsumed > 0
    requires StatusIs(t.till.wallet.ledger, t.session.funding, Open) && NoBelow(quota) != t.session.preConsumed
    requires !c.finish.project && c.finish.ledger && c.finish.undo
    ensures var v := BillingSession.Settle(t.till, t.session, k, quota, c);
      var t1 := Taken(t, v, a);
      var v' := BillingSession.Settle(t1.till, t1.session, k, quota, c');
      var t2 := Taken(t1, v', a);
      var delta := NoBelow(quota) - t.session.preConsumed;
      && v.result.Failure? && v.stuck && !v.session.settled
      && t1.ledgerTaken == t.session.preConsumed && t1.columnTaken == t.session.preConsumed + delta
      && (v'.result.Success? ==> t2.ledgerTaken == NoBelow(quota) && t2.columnTaken == NoBelow(quota) + delta)
  {
    hide SettleBoth, Booked, OnRecord, WalletApart, LedgerGave, RowIs, HeldOr, SettleSlip;
    KeptIsBooked(t, a, k);
    SettleBooked(t, a, k, quota, c);
    StuckSettlement(t, a, k, NoBelow(quota), c);
    var t1 := Taken(t, BillingSession.Settle(t.till, t.session, k, quota, c), a);
    SettleBooked(t1, a, k, quota, c');
    FoundAgain(t, a, k, quota);
  }

  lemma {:induction false} StuckSettlement(t: Tab, a: AccountId, k: Ticket, actual: int, c: Parts)
    requires Kept(t, a, k) && !t.session.settled && t.session.preConsumed > 0
    requires StatusIs(t.till.wallet.ledger, t.session.funding, Open) && actual != t.session.preConsumed
    requires !c.finish.project && c.finish.ledger && c.finish.undo
    ensures var v := SettleBoth(t.till, t.session, k, actual, c);
      && v.result.Failure? && v.stuck && v.till.wallet.ledger == t.till.wallet.ledger
      && v.session == t.session.(funding := v.session.funding)
      && SettleSlip(t.till, t.session, k, actual, c) == t.session.preConsumed - actual
      && t.ledgerTaken == t.session.preConsumed
  {
    hide LedgerRuntime.Settle, AdjustTokenQuota, WalletApart;
    SeatedRow(t.till.wallet, a, k.request, t.session.funding);
  }

  lemma {:induction false} FoundAgain(t: Tab, a: AccountId, k: Ticket, quota: int)
    requires Kept(t, a, k) && t.session.preConsumed > 0 && StatusIs(t.till.wallet.ledger, t.session.funding, Open)
    ensures HoldFound(t, k, quota) == t.session.preConsumed == HoldCounted(t, quota)
  {
    hide Books;
    OneRow(t.till.wallet.ledger, k.request, t.session.funding.reservation.value);
  }

  // ----- An opening whose rollback is refused -----

  /** A hold that fails leaves the column alone; the ledger keeps the amount when its undoing was refused. */
  lemma {:induction false} FailedHold(w: Wallet, a: AccountId, q: Request, amount: int, newId: AccountId, x: Faults)
    requires Serves(w, a, q, NEW_FUNDING) && PreConsume(w, NEW_FUNDING, q, amount, newId, x).result.Failure?
    ensures var r := PreConsume(w, NEW_FUNDING, q, amount, newId, x);
      && Books(r.wallet.ledger) && r.wallet.ledger.accounts == w.ledger.accounts && r.wallet.column == w.column
      && Available(r.wallet.ledger, a) == Available(w.ledger, a) - if r.stuck then amount else 0
  {
    hide EnsureAccount, LedgerRuntime.Reserve, Release, Books;
    PreConsumeAccounted(w, a, q, NEW_FUNDING, amount, newId, x);
  }

  /** So does an opening that fails; the token keeps paying the amount when giving it back was refused. */
  lemma {:induction false} FailedOpening(t: Till, a: AccountId, k: Ticket, s: Session, held: int, c: Parts)
    requires Serves(t.wallet, a, k.request, NEW_FUNDING) && WalletApart(t.wallet.ledger, a, k.request, k.token.mirror)
    requires held > 0 && s == NewSession(s.trusted, held) && PartsApart(k, c)
    requires OpenHeld(t, s, k, held, c).session.None?
    ensures var o := OpenHeld(t, s, k, held, c);
      var p := PreConsume(t.wallet, NEW_FUNDING, k.request, held, c.newId, c.hold);
      var tokenHeld := TokenHeld(t.(wallet := p.wallet), k, held, c);
      && WalletApart(o.till.wallet.ledger, a, k.request, k.token.mirror) && o.till.wallet.column == t.wallet.column
      && Available(o.till.wallet.ledger, a) == Available(t.wallet.ledger, a) - (if p.stuck then held else 0)
      && o.till.tokenColumn == t.tokenColumn + (if tokenHeld then 0 else OfToken(k, held))
      && (o.stuck <==> p.stuck || tokenHeld)
  {
    hide PreConsume, AdjustTokenQuota, Serves, WalletApart, LeavesRequest, Books;
    var p := PreConsume(t.wallet, NEW_FUNDING, k.request, held, c.newId, c.hold);
    FailedHold(t.wallet, a, k.request, held, c.newId, c.hold);
    ApartAfter(t.wallet, p.wallet, a, k.request, k.token.mirror);
    if !k.token.playground {
      var t1 := t.(wallet := p.wallet);
      TokenLeaves(t1, k.token, -held, c.post, a, k.request);
      TokenMovesExactly(t1, k.token, -held, c.post);
      LeftApart(t1.wallet.ledger, AdjustTokenQuota(t1, k.token, -held, c.post).0.wallet.ledger, a, k.request,
                k.token.mirror);
    }
  }

  /** Giving the token back was due and refused. */
  predicate TokenHeld(t: Till, k: Ticket, held: int, c: Parts) {
    !k.token.playground && AdjustTokenQuota(t, k.token, -held, c.post).1.Failure?
  }

  lemma {:induction false} ApartAfter(w: Wallet, w': Wallet, a: AccountId, q: Request, m: Mirror)
    requires WalletApart(w.ledger, a, q, m) && Books(w'.ledger) && w'.ledger.accounts == w.ledger.accounts
    ensures WalletApart(w'.ledger, a, q, m)
  {
  }

  lemma {:induction false} LeftApart(l: Ledger, l': Ledger, a: AccountId, q: Request, m: Mirror)
    requires WalletApart(l, a, q, m) && LeavesRequest(l, l', a, q)
    ensures WalletApart(l', a, q, m) && Available(l', a) == Available(l, a)
  {
    WalletStaysApart(l, l', a, q, m);
  }

  /** Opening a new request's session, whatever it runs into and whatever it is asked for.  A session that is
      not opened has taken nothing but what a refused rollback left: the hold in the ledger (held), or the
      token's part (tokenHeld).  One that is opened for less than nothing holds nothing. */
  lemma {:induction false} OpeningOutcome(t: Till, a: AccountId, k: Ticket, quota: int, c: Parts)
    returns (held: bool, tokenHeld: bool)
    requires Books(t.wallet.ledger) && NewRequest(t.wallet.ledger, k.request) && PartsApart(k, c)
    requires WalletApart(t.wallet.ledger, a, k.request, k.token.mirror)
    ensures OpenSession(t, k, quota, c).stuck <==> held || tokenHeld
    ensures var o := OpenSession(t, k, quota, c);
      match o.session
      case None =>
        && o.till.wallet.column == t.wallet.column
        && Available(o.till.wallet.ledger, a) == Available(t.wallet.ledger, a) - (if held then quota else 0)
        && o.till.tokenColumn == t.tokenColumn - (if tokenHeld then OfToken(k, quota) else 0)
      case Some(s) =>
        var amount := if s.trusted then 0 else quota;
        if amount < 0 then o.till == t && s == NewSession(false, 0).(preConsumed := amount)
        else
          var tab := BillingSession.Opened(t, o, a);
          Kept(tab, a, k) && s.preConsumed == amount && Took(tab, k, amount)
  {
    hide OpenHeld, PreConsumeTokenQuota, PreConsume, ReadBalance, Sits, WalletApart, Books, NewRequest, Kept, Took;
    hide TokenHeld;
    held, tokenHeld := false, false;
    var trusted := ShouldTrust(k, ReadBalance(t.wallet, k.request.mirror));
    if OpenSession(t, k, quota, c).stuck {
      held, tokenHeld := StuckOpening(t, a, k, quota, c);
    } else if quota >= 0 {
      OpensHeldAlike(t, a, k, quota, c);
    } else if trusted {
      NothingAsked(t, k, NewSession(true, 0), 0, c);
      OpensHeldAlike(t, a, k, 0, c);
    } else {
      NothingAsked(t, k, NewSession(false, 0), quota, c);
    }
  }

  lemma {:induction false} NothingAsked(t: Till, k: Ticket, s: Session, amount: int, c: Parts)
    requires s == NewSession(s.trusted, 0) && amount <= 0
    ensures OpenHeld(t, s, k, amount, c) == Opening(t, Some(s.(preConsumed := amount)), false)
  {
  }

  lemma {:induction false} StuckOpening(t: Till, a: AccountId, k: Ticket, quota: int, c: Parts)
    returns (held: bool, tokenHeld: bool)
    requires Books(t.wallet.ledger) && NewRequest(t.wallet.ledger, k.request) && PartsApart(k, c)
    requires WalletApart(t.wallet.ledger, a, k.request, k.token.mirror) && OpenSession(t, k, quota, c).stuck
    ensures held || tokenHeld
    ensures var o := OpenSession(t, k, quota, c);
      && o.session.None? && o.till.wallet.column == t.wallet.column
      && Available(o.till.wallet.ledger, a) == Available(t.wallet.ledger, a) - (if held then quota else 0)
      && o.till.tokenColumn == t.tokenColumn - (if tokenHeld then OfToken(k, quota) else 0)
  {
    hide OpenHeld, PreConsumeTokenQuota, PreConsume, ReadBalance, Sits, WalletApart, Books, NewRequest, TokenHeld;
    var trusted := ShouldTrust(k, ReadBalance(t.wallet, k.request.mirror));
    var amount := if trusted then 0 else quota;
    if amount <= 0 {
      NothingAsked(t, k, NewSession(trusted, 0), amount, c);
    }
    NewTicketSits(t, a, k);
    PreTokenKeepsSeat(t, a, k, NEW_FUNDING, amount, c.pre);
    var (t1, r) := PreConsumeTokenQuota(t, k.token, amount, c.pre);
    SitsServes(t1.wallet, a, k.request);
    StuckIsNone(t1, NewSession(trusted, amount), k, amount, c);
    FailedOpening(t1, a, k, NewSession(trusted, amount), amount, c);
    var p := PreConsume(t1.wallet, NEW_FUNDING, k.request, amount, c.newId, c.hold);
    held, tokenHeld := p.stuck, TokenHeld(t1.(wallet := p.wallet), k, amount, c);
  }

  lemma {:induction false} SitsServes(w: Wallet, a: AccountId, q: Request)
    requires Sits(w, a, q, NEW_FUNDING)
    ensures Serves(w, a, q, NEW_FUNDING)
  {
  }

  lemma {:induction false} StuckIsNone(t: Till, s: Session, k: Ticket, held: int, c: Parts)
    ensures OpenHeld(t, s, k, held, c).stuck ==> OpenHeld(t, s, k, held, c).session.None?
  {
    hide PreConsume, AdjustTokenQuota;
  }
}
