/** Funding lots: where an account's quota came from, drawn on first in, first out. */
module FundingLots {
  import opened LedgerSchema
  import opened LedgerRuntime
  import opened LedgerRuns

  datatype FundingSource = Topup | BlindBox | Subscription | LegacyUnattributed | Other

  datatype Lot = Lot(account: AccountId, source: FundingSource, original: int, remaining: int, multiplier: real,
                     key: string)

  datatype Allocation = Allocation(request: string, lot: nat, account: AccountId, source: FundingSource,
                                   amount: int, multiplier: real)

  // ----- What is left, and what was taken -----

  predicate Draws(l: Lot, a: AccountId) {
    Same(l.account, a) && l.remaining > 0
  }

  /** What the account's lots still hold. */
  function RemainingOf(lots: seq<Lot>, a: AccountId): int {
    if lots == [] then 0 else
      var l := lots[|lots| - 1];
      RemainingOf(lots[..|lots| - 1], a) + if Same(l.account, a) then l.remaining else 0
  }

  function TakenFrom(allocations: seq<Allocation>, lot: nat): int {
    if allocations == [] then 0 else
      var x := allocations[|allocations| - 1];
      TakenFrom(allocations[..|allocations| - 1], lot) + if x.lot == lot then x.amount else 0
  }

  function TakenFor(allocations: seq<Allocation>, request: string): int {
    if allocations == [] then 0 else
      var x := allocations[|allocations| - 1];
      TakenFor(allocations[..|allocations| - 1], request) + if Same(x.request, request) then x.amount else 0
  }

  predicate IsAllocated(allocations: seq<Allocation>, request: string) {
    exists i | 0 <= i < |allocations| :: Same(allocations[i].request, request)
  }

  /** Every lot keeps 0 <= remaining = original - what was allocated from it, and allocations copy their lot. */
  predicate LotsBalance(lots: seq<Lot>, allocations: seq<Allocation>) {
    && (forall i | 0 <= i < |lots| :: 0 <= lots[i].remaining == lots[i].original - TakenFrom(allocations, i))
    && (forall i | 0 <= i < |allocations| ::
          var x := allocations[i];
          && x.amount > 0 && x.lot < |lots|
          && Same(x.account, lots[x.lot].account) && x.source == lots[x.lot].source
          && x.multiplier == lots[x.lot].multiplier)
  }

  // ----- The draw, in closed form -----

  function Min(a: int, b: int): int {
    if a < b then a else b
  }

  /** What the lots before row i give towards the amount. */
  function GivenBefore(lots: seq<Lot>, a: AccountId, amount: int, i: nat): int
    requires i <= |lots|
  {
    Min(amount, RemainingOf(lots[..i], a))
  }

  function Given(lots: seq<Lot>, a: AccountId, amount: int, i: nat): int
    requires i < |lots|
  {
    GivenBefore(lots, a, amount, i + 1) - GivenBefore(lots, a, amount, i)
  }

  /** The lots after the rows before n have been drawn on. */
  function Drawn(lots: seq<Lot>, a: AccountId, amount: int, n: nat): seq<Lot>
    requires n <= |lots|
  {
    seq(|lots|, i requires 0 <= i < |lots| =>
      if i < n then lots[i].(remaining := lots[i].remaining - Given(lots, a, amount, i)) else lots[i])
  }

  function Allocated(lots: seq<Lot>, request: string, a: AccountId, amount: int, n: nat): seq<Allocation>
    requires n <= |lots|
  {
    if n == 0 then [] else
      var l := lots[n - 1];
      Allocated(lots, request, a, amount, n - 1) +
      if Given(lots, a, amount, n - 1) > 0
      then [Allocation(request, n - 1, l.account, l.source, Given(lots, a, amount, n - 1), l.multiplier)] else []
  }

  predicate NoneNegative(lots: seq<Lot>) {
    forall i | 0 <= i < |lots| :: lots[i].remaining >= 0
  }

  lemma {:induction false} RemainingNonNegative(lots: seq<Lot>, a: AccountId)
    requires NoneNegative(lots)
    ensures RemainingOf(lots, a) >= 0
  {
    if lots != [] {
      assert lots[|lots| - 1].remaining >= 0;
      RemainingNonNegative(lots[..|lots| - 1], a);
    }
  }

  lemma {:induction false} RemainingStep(lots: seq<Lot>, a: AccountId, i: nat)
    requires i < |lots|
    ensures RemainingOf(lots[..i + 1], a) ==
            RemainingOf(lots[..i], a) + if Same(lots[i].account, a) then lots[i].remaining else 0
  {
    assert lots[..i + 1][..i] == lots[..i];
  }

  /** A lot gives what is still wanted, as far as it goes. */
  lemma {:induction false} GivenIsMinimum(lots: seq<Lot>, a: AccountId, amount: int, i: nat)
    requires i < |lots| && NoneNegative(lots) && amount > 0
    ensures 0 <= GivenBefore(lots, a, amount, i) <= amount
    ensures Given(lots, a, amount, i) ==
      if Same(lots[i].account, a) then Min(lots[i].remaining, amount - GivenBefore(lots, a, amount, i)) else 0
  {
    RemainingStep(lots, a, i);
    RemainingNonNegative(lots[..i], a);
  }

  lemma {:induction false} GivenInRange(lots: seq<Lot>, a: AccountId, amount: int, i: nat)
    requires i < |lots| && NoneNegative(lots) && amount > 0
    ensures 0 <= Given(lots, a, amount, i) <= lots[i].remaining
  {
    GivenIsMinimum(lots, a, amount, i);
  }

  lemma {:induction false} GivenStep(lots: seq<Lot>, a: AccountId, amount: int, i: nat)
    requires i < |lots| && NoneNegative(lots) && amount > 0
    ensures GivenBefore(lots, a, amount, i + 1) == GivenBefore(lots, a, amount, i) + Given(lots, a, amount, i)
    ensures Given(lots, a, amount, i) >= 0
  {
    GivenInRange(lots, a, amount, i);
  }

  /** First in, first out: a lot is touched only when every earlier lot of the account is empty afterwards. */
  lemma {:induction false} EarlierLotsEmpty(lots: seq<Lot>, a: AccountId, amount: int, i: nat, j: nat)
    requires i < j < |lots| && NoneNegative(lots) && amount > 0
    requires Same(lots[i].account, a) && Given(lots, a, amount, j) > 0
    ensures Drawn(lots, a, amount, |lots|)[i].remaining == 0
  {
    GivenIsMinimum(lots, a, amount, i);
    GivenIsMinimum(lots, a, amount, j);
    RemainingGrows(lots, a, i + 1, j);
    RemainingStep(lots, a, i);
  }

  lemma {:induction false} RemainingGrows(lots: seq<Lot>, a: AccountId, i: nat, j: nat)
    requires i <= j <= |lots| && NoneNegative(lots)
    ensures RemainingOf(lots[..i], a) <= RemainingOf(lots[..j], a)
    decreases j - i
  {
    if i < j {
      RemainingStep(lots, a, j - 1);
      RemainingGrows(lots, a, i, j - 1);
    }
  }

  lemma {:induction false} RemainingAfter(lots: seq<Lot>, a: AccountId, amount: int, n: nat, b: AccountId)
    requires n <= |lots| && NoneNegative(lots) && amount > 0
    ensures RemainingOf(Drawn(lots, a, amount, |lots|)[..n], b) ==
            RemainingOf(lots[..n], b) - if Same(a, b) then GivenBefore(lots, a, amount, n) else 0
  {
    if n > 0 {
      RemainingAfter(lots, a, amount, n - 1, b);
      RemainingStep(lots, b, n - 1);
      RemainingStep(Drawn(lots, a, amount, |lots|), b, n - 1);
      GivenIsMinimum(lots, a, amount, n - 1);
    }
  }

  lemma {:induction false} AllocatedFor(lots: seq<Lot>, request: string, a: AccountId, amount: int, n: nat, r: string)
    requires n <= |lots| && NoneNegative(lots) && amount > 0
    ensures TakenFor(Allocated(lots, request, a, amount, n), r) ==
            if Same(request, r) then GivenBefore(lots, a, amount, n) else 0
  {
    hide GivenBefore, RemainingOf, Same, Allocated, TakenFor, Given, NoneNegative;
    if n == 0 {
      NothingAllocatedYet(lots, request, a, amount, r);
    } else {
      AllocatedFor(lots, request, a, amount, n - 1, r);
      GivenStep(lots, a, amount, n - 1);
      AllocatedStep(lots, request, a, amount, n, n, r);
    }
  }

  lemma {:induction false} NothingAllocatedYet(lots: seq<Lot>, request: string, a: AccountId, amount: int, r: string)
    requires amount > 0
    ensures TakenFor(Allocated(lots, request, a, amount, 0), r) == 0 == GivenBefore(lots, a, amount, 0)
  {
    NothingGivenYet(lots, a, amount);
  }

  lemma {:induction false} AllocatedStep(lots: seq<Lot>, request: string, a: AccountId, amount: int, n: nat, i: nat,
                                         r: string)
    requires 0 < n <= |lots|
    ensures var xs := Allocated(lots, request, a, amount, n);
      var ys := Allocated(lots, request, a, amount, n - 1);
      var given := if Given(lots, a, amount, n - 1) > 0 then Given(lots, a, amount, n - 1) else 0;
      && TakenFor(xs, r) == TakenFor(ys, r) + (if Same(request, r) then given else 0)
      && TakenFrom(xs, i) == TakenFrom(ys, i) + (if i == n - 1 then given else 0)
  {
    hide Given;
    var ys := Allocated(lots, request, a, amount, n - 1);
    var given := Given(lots, a, amount, n - 1);
    if given > 0 {
      var l := lots[n - 1];
      var x := Allocation(request, n - 1, l.account, l.source, given, l.multiplier);
      assert (ys + [x])[..|ys|] == ys;
    } else {
      assert ys + [] == ys;
    }
  }

  lemma {:induction false} AllocatedFrom(lots: seq<Lot>, request: string, a: AccountId, amount: int, n: nat, i: nat)
    requires n <= |lots| && NoneNegative(lots) && amount > 0
    ensures TakenFrom(Allocated(lots, request, a, amount, n), i) == if i < n then Given(lots, a, amount, i) else 0
  {
    hide GivenBefore, RemainingOf, Same, Allocated, TakenFrom, Given, NoneNegative;
    if n == 0 {
      NothingAllocatedFrom(lots, request, a, amount, i);
    } else {
      AllocatedFrom(lots, request, a, amount, n - 1, i);
      GivenStep(lots, a, amount, n - 1);
      AllocatedStep(lots, request, a, amount, n, i, request);
    }
  }

  lemma {:induction false} NothingAllocatedFrom(lots: seq<Lot>, request: string, a: AccountId, amount: int, i: nat)
    ensures TakenFrom(Allocated(lots, request, a, amount, 0), i) == 0
  {
  }

  lemma {:induction false} TakenAdds(xs: seq<Allocation>, ys: seq<Allocation>, lot: nat, request: string)
    ensures TakenFrom(xs + ys, lot) == TakenFrom(xs, lot) + TakenFrom(ys, lot)
    ensures TakenFor(xs + ys, request) == TakenFor(xs, request) + TakenFor(ys, request)
  {
    if ys == [] {
      assert xs + ys == xs;
    } else {
      assert (xs + ys)[..|xs + ys| - 1] == xs + ys[..|ys| - 1];
      TakenAdds(xs, ys[..|ys| - 1], lot, request);
    }
  }

  // ----- Topping up with a legacy lot -----

  function LegacyLot(a: AccountId, missing: int, key: string): Lot {
    Lot(a, LegacyUnattributed, missing, missing, 0.0, key)
  }

  /** Quota from before the lots were kept gets one lot of unknown origin. */
  function ToppedUp(lots: seq<Lot>, a: AccountId, target: int, key: string): seq<Lot> {
    if RemainingOf(lots, a) >= target then lots else lots + [LegacyLot(a, target - RemainingOf(lots, a), key)]
  }

  lemma {:induction false} ToppedUpCovers(lots: seq<Lot>, allocations: seq<Allocation>, a: AccountId, target: int,
                                          key: string)
    requires LotsBalance(lots, allocations)
    ensures RemainingOf(ToppedUp(lots, a, target, key), a) >= target
    ensures RemainingOf(ToppedUp(lots, a, target, key), a) ==
            if RemainingOf(lots, a) >= target then RemainingOf(lots, a) else target
    ensures LotsBalance(ToppedUp(lots, a, target, key), allocations)
  {
    if RemainingOf(lots, a) < target {
      var lots' := ToppedUp(lots, a, target, key);
      assert lots'[..|lots|] == lots;
      NothingTaken(allocations, |lots|);
    }
  }

  lemma {:induction false} NothingTaken(allocations: seq<Allocation>, lot: nat)
    requires forall i | 0 <= i < |allocations| :: allocations[i].lot < lot
    ensures TakenFrom(allocations, lot) == 0
  {
    if allocations != [] {
      NothingTaken(allocations[..|allocations| - 1], lot);
    }
  }

  // ----- What one draw achieves -----

  lemma {:induction false} AllocatedRows(lots: seq<Lot>, request: string, a: AccountId, amount: int, n: nat, k: nat)
    requires n <= |lots| && k < |Allocated(lots, request, a, amount, n)|
    ensures var x := Allocated(lots, request, a, amount, n)[k];
      && Same(x.request, request) && x.amount > 0 && x.lot < n
      && Same(x.account, lots[x.lot].account) && x.source == lots[x.lot].source
      && x.multiplier == lots[x.lot].multiplier
  {
    if n > 0 && k < |Allocated(lots, request, a, amount, n - 1)| {
      AllocatedRows(lots, request, a, amount, n - 1, k);
    }
  }

  lemma {:induction false} DrawKeepsBalance(lots: seq<Lot>, allocations: seq<Allocation>, request: string, a: AccountId,
                                            amount: int)
    requires LotsBalance(lots, allocations) && amount > 0
    ensures LotsBalance(Drawn(lots, a, amount, |lots|), allocations + Allocated(lots, request, a, amount, |lots|))
  {
    var lots' := Drawn(lots, a, amount, |lots|);
    var added := Allocated(lots, request, a, amount, |lots|);
    forall i | 0 <= i < |lots|
      ensures 0 <= lots'[i].remaining == lots'[i].original - TakenFrom(allocations + added, i)
    {
      GivenInRange(lots, a, amount, i);
      AllocatedFrom(lots, request, a, amount, |lots|, i);
      TakenAdds(allocations, added, i, request);
    }
    forall k | 0 <= k < |added| ensures
      added[k].amount > 0 && added[k].lot < |lots| && Same(added[k].account, lots[added[k].lot].account) &&
      added[k].source == lots[added[k].lot].source && added[k].multiplier == lots[added[k].lot].multiplier
    {
      AllocatedRows(lots, request, a, amount, |lots|, k);
    }
  }

  /** A covered draw allocates the amount to its request, to no other one, and leaves the rest of the
      account's lots and every other account's. */
  lemma {:induction false} DrawIsExact(lots: seq<Lot>, allocations: seq<Allocation>, request: string, a: AccountId,
                                       amount: int,
                                       r: string, b: AccountId)
    requires LotsBalance(lots, allocations) && amount > 0 && RemainingOf(lots, a) >= amount
    ensures TakenFor(allocations + Allocated(lots, request, a, amount, |lots|), r) ==
            TakenFor(allocations, r) + if Same(request, r) then amount else 0
    ensures RemainingOf(Drawn(lots, a, amount, |lots|), b) == RemainingOf(lots, b) - if Same(a, b) then amount else 0
  {
    assert lots[..|lots|] == lots;
    AllocatedFor(lots, request, a, amount, |lots|, r);
    TakenAdds(allocations, Allocated(lots, request, a, amount, |lots|), 0, r);
    RemainingAfter(lots, a, amount, |lots|, b);
    assert Drawn(lots, a, amount, |lots|)[..|lots|] == Drawn(lots, a, amount, |lots|);
  }

  lemma {:induction false} UnallocatedTakesNothing(allocations: seq<Allocation>, request: string)
    requires !IsAllocated(allocations, request)
    ensures TakenFor(allocations, request) == 0
  {
    if allocations != [] {
      var n := |allocations| - 1;
      assert !Same(allocations[n].request, request);
      assert forall i | 0 <= i < n :: !Same(allocations[i].request, request);
      UnallocatedTakesNothing(allocations[..n], request);
    }
  }

  // ----- The book -----

  datatype Book = Book(lots: seq<Lot>, allocations: seq<Allocation>)

  const EMPTY_BOOK := Book([], [])

  predicate HasKey(lots: seq<Lot>, key: string) {
    exists i | 0 <= i < |lots| :: Same(lots[i].key, key)
  }

  /** A credit's lot; a repeated key records no second one. */
  function LotRecorded(b: Book, a: AccountId, amount: int, key: string, source: FundingSource, multiplier: real): Book {
    if amount <= 0 || |a| == 0 || HasKey(b.lots, key) then b
    else b.(lots := b.lots + [Lot(a, source, amount, amount, multiplier, key)])
  }

  /** A settled amount drawn from the account's lots: once per request, topped up first, and not at all when
      the balance is unknown or the lots fall short. */
  function AmountAllocated(b: Book, request: string, a: AccountId, amount: int, available: Option<int>, key: string):
    (r: (Book, Result<()>))
  {
    if |request| == 0 || |a| == 0 || amount <= 0 || IsAllocated(b.allocations, request) then (b, Success(()))
    else if available.None? then (b, Failure(AccountNotFound))
    else
      var topped := ToppedUp(b.lots, a, available.value + amount, key);
      if RemainingOf(topped, a) < amount then (b, Failure(InsufficientBalance))
      else
        var added := Allocated(topped, request, a, amount, |topped|);
        (Book(Drawn(topped, a, amount, |topped|), b.allocations + added), Success(()))
  }

  class FundingBook {
    var lots: seq<Lot>
    var allocations: seq<Allocation>

    ghost function State(): Book
      reads this
    {
      Book(lots, allocations)
    }

    ghost predicate Valid()
      reads this
    {
      LotsBalance(lots, allocations)
    }

    constructor ()
      ensures Valid() && lots == [] && allocations == []
    {
      lots, allocations := [], [];
    }

    method RecordFundingLot(a: AccountId, amount: int, key: string, source: FundingSource, multiplier: real)
      requires Valid()
      modifies this
      ensures Valid() && State() == LotRecorded(old(State()), a, amount, key, source, multiplier)
    {
      if amount <= 0 || |a| == 0 {
        return;
      }
      if HasKey(lots, key) {
        return;
      }
      NothingTaken(allocations, |lots|);
      lots := lots + [Lot(a, source, amount, amount, multiplier, key)];
    }

    method EnsureLegacyFundingLot(a: AccountId, available: int, minimum: int, key: string)
      requires Valid()
      modifies this
      ensures Valid() && allocations == old(allocations) && lots == ToppedUp(old(lots), a, available + minimum, key)
    {
      var total := RemainingOf(lots, a);
      var target := available + minimum;
      ToppedUpCovers(lots, allocations, a, target, key);
      if total >= target {
        return;
      }
      var missing := target - total;
      lots := lots + [Lot(a, LegacyUnattributed, missing, missing, 0.0, key)];
    }

    /** One pass over the account's lots, oldest first, until the amount is covered. */
    method DrawOnLots(request: string, a: AccountId, amount: int) returns (remaining: int)
      requires NoneNegative(lots) && amount > 0
      modifies this
      ensures lots == Drawn(old(lots), a, amount, |old(lots)|)
      ensures allocations == old(allocations) + Allocated(old(lots), request, a, amount, |old(lots)|)
      ensures remaining == amount - GivenBefore(old(lots), a, amount, |old(lots)|)
    {
      hide RemainingOf, GivenBefore;
      ghost var start := lots;
      ghost var before := allocations;
      remaining := amount;
      var index := 0;
      NothingGivenYet(start, a, amount);
      while index < |lots| && remaining != 0
        invariant 0 <= index <= |lots| == |start|
        invariant remaining == amount - GivenBefore(start, a, amount, index)
        invariant lots == Drawn(start, a, amount, index)
        invariant allocations == before + Allocated(start, request, a, amount, index)
      {
        GivenIsMinimum(start, a, amount, index);
        DrawnStep(start, a, amount, index);
        if Draws(lots[index], a) {
          var used := lots[index].remaining;
          if used > remaining {
            used := remaining;
          }
          allocations := allocations +
            [Allocation(request, index, lots[index].account, lots[index].source, used, lots[index].multiplier)];
          lots := lots[index := lots[index].(remaining := lots[index].remaining - used)];
          remaining := remaining - used;
        }
        index := index + 1;
      }
      if index < |lots| {
        DrawnEnough(start, request, a, amount, index);
      }
    }

    /** Allocates a settled amount to the account's lots, oldest first. */
    method AllocateSettledFundingFIFO(request: string, a: AccountId, amount: int, available: Option<int>, key: string)
      returns (r: Result<()>)
      requires Valid()
      modifies this
      ensures Valid()
      ensures (State(), r) == AmountAllocated(old(State()), request, a, amount, available, key)
    {
      hide Drawn, Allocated, RemainingOf;
      if |request| == 0 || |a| == 0 || amount <= 0 || IsAllocated(allocations, request) {
        return Success(());
      }
      if available.None? {
        return Failure(AccountNotFound);
      }
      var savedLots, savedAllocations := lots, allocations;
      EnsureLegacyFundingLot(a, available.value, amount, key);
      ghost var topped := lots;
      var remaining := DrawOnLots(request, a, amount);
      AllGiven(topped, a, amount);
      if remaining != 0 {
        lots, allocations := savedLots, savedAllocations;
        return Failure(InsufficientBalance);
      }
      DrawKeepsBalance(topped, savedAllocations, request, a, amount);
      return Success(());
    }
  }

  lemma {:induction false} NothingGivenYet(lots: seq<Lot>, a: AccountId, amount: int)
    requires amount > 0
    ensures GivenBefore(lots, a, amount, 0) == 0 && Drawn(lots, a, amount, 0) == lots
  {
    assert lots[..0] == [];
  }

  lemma {:induction false} DrawnStep(lots: seq<Lot>, a: AccountId, amount: int, i: nat)
    requires i < |lots|
    ensures Drawn(lots, a, amount, i)[i] == lots[i]
    ensures Drawn(lots, a, amount, i + 1) ==
            Drawn(lots, a, amount, i)[i := lots[i].(remaining := lots[i].remaining - Given(lots, a, amount, i))]
    ensures Given(lots, a, amount, i) == GivenBefore(lots, a, amount, i + 1) - GivenBefore(lots, a, amount, i)
  {
  }

  lemma {:induction false} AllGiven(lots: seq<Lot>, a: AccountId, amount: int)
    ensures GivenBefore(lots, a, amount, |lots|) == Min(amount, RemainingOf(lots, a))
  {
    assert lots[..|lots|] == lots;
  }

  /** Once the amount is covered, further lots give nothing. */
  lemma {:induction false} DrawnEnough(lots: seq<Lot>, request: string, a: AccountId, amount: int, i: nat)
    requires i <= |lots| && NoneNegative(lots) && amount > 0 && GivenBefore(lots, a, amount, i) == amount
    ensures Drawn(lots, a, amount, i) == Drawn(lots, a, amount, |lots|)
    ensures Allocated(lots, request, a, amount, i) == Allocated(lots, request, a, amount, |lots|)
    ensures GivenBefore(lots, a, amount, |lots|) == amount
    decreases |lots| - i
  {
    if i < |lots| {
      GivenIsMinimum(lots, a, amount, i);
      DrawnStep(lots, a, amount, i);
      DrawnEnough(lots, request, a, amount, i + 1);
    }
  }

  // ----- What the allocation promises -----

  /** With an available balance that is not negative, as the ledger's always are, the lots cover every
      settlement: its allocations sum to the amount, and what is left still covers the balance. */
  lemma {:induction false} AllocationAlwaysCovered(lots: seq<Lot>, allocations: seq<Allocation>, request: string,
                                                   a: AccountId,
                                                   amount: int, available: int, key: string)
    requires LotsBalance(lots, allocations) && amount > 0 && available >= 0 && !IsAllocated(allocations, request)
    ensures var topped := ToppedUp(lots, a, available + amount, key);
      && RemainingOf(topped, a) >= amount
      && TakenFor(allocations + Allocated(topped, request, a, amount, |topped|), request) == amount
      && RemainingOf(Drawn(topped, a, amount, |topped|), a) >= available
      && IsAllocated(allocations + Allocated(topped, request, a, amount, |topped|), request)
  {
    hide Drawn, Allocated;
    var topped := ToppedUp(lots, a, available + amount, key);
    ToppedUpCovers(lots, allocations, a, available + amount, key);
    DrawIsExact(topped, allocations, request, a, amount, request, a);
    UnallocatedTakesNothing(allocations, request);
    var all := allocations + Allocated(topped, request, a, amount, |topped|);
    if !IsAllocated(all, request) {
      UnallocatedTakesNothing(all, request);
    }
  }

  /** So an allocation made against a reachable ledger never runs short. */
  lemma {:induction false} ReachableNeverShort(cs: seq<Command>, lots: seq<Lot>, allocations: seq<Allocation>,
                                               request: string,
                                               a: AccountId, amount: int, key: string)
    requires LotsBalance(lots, allocations) && amount > 0 && !IsAllocated(allocations, request)
    ensures var available := Snap(Run(EMPTY_LEDGER, cs), a).available;
      RemainingOf(ToppedUp(lots, a, available + amount, key), a) >= amount
  {
    hide Run, Snap, ToppedUp, RemainingOf, Drawn, Allocated, TakenFor, LotsBalance, IsAllocated;
    var available := Snap(Run(EMPTY_LEDGER, cs), a).available;
    assert available >= 0 by {
      ReachableConservation(cs, a);
    }
    AllocationAlwaysCovered(lots, allocations, request, a, amount, available, key);
  }
}
