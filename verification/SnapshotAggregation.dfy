/** What a balance snapshot should be: sums over the ledger's history. */
module SnapshotAggregation {
  import opened LedgerSchema

  /** The amount by which an entry moves the available balance. */
  function Signed(e: Entry): int {
    match e.entryType
    case GrantCredit | ReserveRelease | SettleCredit => e.amount
    case ReserveHold | SettleDebit => -e.amount
    case Adjustment => 0
  }

  function AvailableOf(es: seq<Entry>, a: AccountId): int {
    if es == [] then 0 else
      var e := es[|es| - 1];
      AvailableOf(es[..|es| - 1], a) + if Same(e.account, a) then Signed(e) else 0
  }

  function GrantedOf(es: seq<Entry>, a: AccountId): int {
    if es == [] then 0 else
      var e := es[|es| - 1];
      GrantedOf(es[..|es| - 1], a) + if Same(e.account, a) && e.entryType.GrantCredit? then e.amount else 0
  }

  function ReservedOf(rs: seq<Reservation>, a: AccountId): int {
    if rs == [] then 0 else
      var r := rs[|rs| - 1];
      ReservedOf(rs[..|rs| - 1], a) + if Same(r.account, a) && r.status.Open? then r.amount else 0
  }

  /** The join of a settlement with its reservation, restricted to one account. */
  predicate Counts(t: Settlement, rs: seq<Reservation>, a: AccountId) {
    t.reservation < |rs| && Same(rs[t.reservation].account, a) && t.status.Completed?
  }

  function ConsumedOf(ss: seq<Settlement>, rs: seq<Reservation>, a: AccountId): int {
    if ss == [] then 0 else
      var t := ss[|ss| - 1];
      ConsumedOf(ss[..|ss| - 1], rs, a) + if Counts(t, rs, a) then t.actual else 0
  }

  function RefundedOf(ss: seq<Settlement>, rs: seq<Reservation>, a: AccountId): int {
    if ss == [] then 0 else
      var t := ss[|ss| - 1];
      RefundedOf(ss[..|ss| - 1], rs, a) + if Counts(t, rs, a) && t.delta < 0 then -t.delta else 0
  }

  function Expected(s: Ledger, a: AccountId): Snapshot {
    Snapshot(AvailableOf(s.entries, a), ReservedOf(s.reservations, a),
             ConsumedOf(s.settlements, s.reservations, a),
             RefundedOf(s.settlements, s.reservations, a), GrantedOf(s.entries, a))
  }

  lemma {:induction false} EntryAppended(es: seq<Entry>, e: Entry, a: AccountId)
    ensures AvailableOf(es + [e], a) == AvailableOf(es, a) + if Same(e.account, a) then Signed(e) else 0
    ensures GrantedOf(es + [e], a) ==
            GrantedOf(es, a) + if Same(e.account, a) && e.entryType.GrantCredit? then e.amount else 0
  {
    assert (es + [e])[..|es|] == es;
  }

  lemma {:induction false} ReservationAppended(rs: seq<Reservation>, r: Reservation, a: AccountId)
    ensures ReservedOf(rs + [r], a) == ReservedOf(rs, a) + if Same(r.account, a) && r.status.Open? then r.amount else 0
  {
    assert (rs + [r])[..|rs|] == rs;
  }

  /** Closing the open reservation in row i takes exactly its amount out of the sum. */
  lemma {:induction false} ReservationClosed(rs: seq<Reservation>, i: nat, status: ReservationStatus, a: AccountId)
    requires i < |rs| && rs[i].status.Open? && !status.Open?
    ensures ReservedOf(rs[i := rs[i].(status := status)], a) ==
            ReservedOf(rs, a) - if Same(rs[i].account, a) then rs[i].amount else 0
  {
    var rs' := rs[i := rs[i].(status := status)];
    var n := |rs| - 1;
    if i == n {
      assert rs'[..n] == rs[..n];
    } else {
      assert rs'[..n] == rs[..n][i := rs[i].(status := status)];
      ReservationClosed(rs[..n], i, status, a);
    }
  }

  lemma {:induction false} SettlementAppended(ss: seq<Settlement>, t: Settlement, rs: seq<Reservation>, a: AccountId)
    ensures ConsumedOf(ss + [t], rs, a) == ConsumedOf(ss, rs, a) + if Counts(t, rs, a) then t.actual else 0
    ensures RefundedOf(ss + [t], rs, a) ==
            RefundedOf(ss, rs, a) + if Counts(t, rs, a) && t.delta < 0 then -t.delta else 0
  {
    assert (ss + [t])[..|ss|] == ss;
  }

  /** rs' holds the reservations of rs, possibly with another status, and maybe more. */
  predicate KeepsOwners(rs: seq<Reservation>, rs': seq<Reservation>) {
    |rs| <= |rs'| && forall i | 0 <= i < |rs| :: Same(rs'[i].account, rs[i].account)
  }

  /** The settlement sums do not see status changes or further reservations. */
  lemma {:induction false} SettlementSumsKept(ss: seq<Settlement>, rs: seq<Reservation>, rs': seq<Reservation>,
                                              a: AccountId)
    requires KeepsOwners(rs, rs')
    requires forall i | 0 <= i < |ss| :: ss[i].reservation < |rs|
    ensures ConsumedOf(ss, rs', a) == ConsumedOf(ss, rs, a)
    ensures RefundedOf(ss, rs', a) == RefundedOf(ss, rs, a)
  {
    if ss != [] {
      SettlementSumsKept(ss[..|ss| - 1], rs, rs', a);
    }
  }

  /** The sum over open reservations covers each of them when amounts are not negative. */
  lemma {:induction false} ReservedCovers(rs: seq<Reservation>, i: nat)
    requires i < |rs| && rs[i].status.Open?
    requires forall j | 0 <= j < |rs| :: rs[j].amount >= 0
    ensures rs[i].amount <= ReservedOf(rs, rs[i].account)
  {
    var n := |rs| - 1;
    if i == n {
      ReservedNonNegative(rs[..n], rs[i].account);
    } else {
      ReservedCovers(rs[..n], i);
    }
  }

  lemma {:induction false} ReservedNonNegative(rs: seq<Reservation>, a: AccountId)
    requires forall j | 0 <= j < |rs| :: rs[j].amount >= 0
    ensures ReservedOf(rs, a) >= 0
  {
    if rs != [] {
      ReservedNonNegative(rs[..|rs| - 1], a);
    }
  }
}
