/** The billing session as it runs, over the funding object, the ledger tables and the token column. */
module BillingSessionObject {
  import opened LedgerSchema
  import opened WalletMirror
  import opened RelayFunding
  import opened RelayFundingObject
  import opened TokenQuota
  import opened WalletStoreObject
  import opened BillingSession

  class RelaySession {
    const ticket: Ticket
    const funding: LedgerRelayFunding
    const token: QuotaColumn

    var preConsumedQuota: int
    var tokenConsumed: int
    var extraReserved: int
    var trusted: bool
    var fundingSettled: bool
    var settled: bool
    var refunded: bool

    ghost predicate Valid()
    {
      token != funding.column && funding.request == ticket.request
    }

    function Fields(): Session
      reads this, funding
    {
      Session(funding.Fields(), preConsumedQuota, tokenConsumed, extraReserved, trusted, fundingSettled,
              settled, refunded)
    }

    function Stores(): Till
      reads funding, funding.db, funding.column, token
    {
      Till(funding.Purse(), token.quota)
    }

    constructor (ticket: Ticket, funding: LedgerRelayFunding, token: QuotaColumn)
      requires token != funding.column && funding.request == ticket.request
      ensures Valid() && this.ticket == ticket && this.funding == funding && this.token == token
      ensures Fields() == Session(funding.Fields(), 0, 0, 0, false, false, false, false)
    {
      this.ticket, this.funding, this.token := ticket, funding, token;
      preConsumedQuota, tokenConsumed, extraReserved := 0, 0, 0;
      trusted, fundingSettled, settled, refunded := false, false, false, false;
    }

    method Open(quota: int, c: Parts) returns (ok: bool)
      requires Valid() && Fields() == NewSession(false, 0)
      modifies this, funding, funding.db, funding.column, token
      ensures var o := OpenSession(old(Stores()), ticket, quota, c);
        Stores() == o.till && ok == o.session.Some? && (ok ==> Fields() == o.session.value)
    {
      hide PreConsume, PreConsumeTokenQuota, AdjustTokenQuota;
      var userQuota := ReadBalance(funding.Purse(), ticket.request.mirror);
      if userQuota <= 0 || userQuota - quota < 0 {
        return false;
      }
      var effectiveQuota := quota;
      if ShouldTrust(ticket, userQuota) {
        trusted := true;
        effectiveQuota := 0;
      }
      if effectiveQuota > 0 {
        var taken := PreConsumeStoredToken(funding.db, funding.column, token, ticket.token, effectiveQuota, c.pre);
        if taken.Failure? {
          return false;
        }
        tokenConsumed := effectiveQuota;
      }
      var held := funding.HoldFunds(effectiveQuota, c.newId, c.hold);
      if held.Failure? {
        if tokenConsumed > 0 && !ticket.token.playground {
          var rolledBack := AdjustStoredToken(funding.db, funding.column, token, ticket.token, -tokenConsumed, c.post);
        }
        return false;
      }
      preConsumedQuota := effectiveQuota;
      return true;
    }

    method SettleQuota(quota: int, c: Parts) returns (r: Result<()>)
      requires Valid()
      modifies this, funding, funding.db, funding.column, token
      ensures var v := Settle(old(Stores()), old(Fields()), ticket, quota, c);
        Stores() == v.till && Fields() == v.session && r == v.result
    {
      hide ReserveTrusted, SettleBoth;
      var actual := if quota < 0 then 0 else quota;
      if settled {
        return Success(());
      }
      if trusted && preConsumedQuota == 0 && actual > 0 {
        r := ReserveTrustedSettlement(actual, c);
        if r.Failure? {
          return;
        }
      }
      r := SettleFundingAndToken(actual, c);
    }

    method ReserveTrustedSettlement(actual: int, c: Parts) returns (r: Result<()>)
      requires Valid()
      modifies this, funding, funding.db, funding.column, token
      ensures var v := ReserveTrusted(old(Stores()), old(Fields()), ticket, actual, c);
        Stores() == v.till && Fields() == v.session && r == v.result
    {
      hide PreConsume, PreConsumeTokenQuota, Refund;
      r := funding.HoldFunds(actual, c.newId, c.hold);
      if r.Failure? {
        return;
      }
      var taken := PreConsumeStoredToken(funding.db, funding.column, token, ticket.token, actual, c.pre);
      if taken.Failure? {
        var refund := funding.GiveBack(c.back);
        return taken;
      }
      preConsumedQuota := actual;
      tokenConsumed := actual;
      return Success(());
    }

    method SettleFundingAndToken(actual: int, c: Parts) returns (r: Result<()>)
      requires Valid()
      modifies this, funding, funding.db, funding.column, token
      ensures var v := SettleBoth(old(Stores()), old(Fields()), ticket, actual, c);
        Stores() == v.till && Fields() == v.session && r == v.result
    {
      hide SettleHold, AdjustTokenQuota;
      var delta := actual - preConsumedQuota;
      if !fundingSettled {
        r := funding.Settle(delta, c.finish);
        if r.Failure? {
          return;
        }
        fundingSettled := true;
      }
      r := Success(());
      if !ticket.token.playground {
        r := AdjustStoredToken(funding.db, funding.column, token, ticket.token, delta, c.post);
      }
      settled := true;
    }

    method RefundNow(c: Parts) returns (r: Result<()>)
      requires Valid()
      modifies this, funding, funding.db, funding.column, token
      ensures var v := RefundSync(old(Stores()), old(Fields()), ticket, c);
        Stores() == v.till && Fields() == v.session && r == v.result
    {
      hide Refund, AdjustTokenQuota;
      if settled || refunded || fundingSettled || tokenConsumed <= 0 {
        return Success(());
      }
      refunded := true;
      r := funding.GiveBack(c.back);
      if !ticket.token.playground {
        var given := AdjustStoredToken(funding.db, funding.column, token, ticket.token, -tokenConsumed, c.post);
        if r.Success? {
          r := given;
        }
      }
    }

    method ReserveUpTo(target: int) returns (r: Result<()>)
      requires Valid()
      ensures var v := Reserve(old(Stores()), old(Fields()), target);
        Stores() == v.till && Fields() == v.session && r == v.result
    {
      var wanted := if target < 0 then 0 else target;
      if settled || refunded || trusted || wanted <= preConsumedQuota {
        return Success(());
      }
      return Failure(InvalidParams);
    }
  }
}
