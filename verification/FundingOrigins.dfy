/** Where the rows of a funding run come from: every lot from one grant or from topping up, and every record from the
    latest snapshot of its request. */
module FundingOrigins {
  import opened LedgerSchema
  import opened FundingLots
  import opened FundingEconomics
  import opened FundingRuns

  // ----- Lots -----

  predicate Grants(step: Step, key: string) {
    step.Grant? && Same(step.key, key) && step.amount > 0 && |step.a| > 0
  }

  /** The first grant under the key that is worth anything to anyone. */
  function FirstGrant(steps: seq<Step>, key: string): Option<Step> {
    if steps == [] then None else
      var n := |steps| - 1;
      var before := FirstGrant(steps[..n], key);
      if before.Some? then before else if Grants(steps[n], key) then Some(steps[n]) else None
  }

  predicate IsLotOf(l: Lot, step: Step) {
    && step.Grant? && Same(l.account, step.a) && l.source == step.source && l.original == step.amount
    && l.multiplier == step.multiplier && Same(l.key, step.key)
  }

  /** The one lot that carries the key is that of the grant. */
  predicate OnlyLot(lots: seq<Lot>, key: string, step: Step) {
    && (exists i | 0 <= i < |lots| :: Same(lots[i].key, key) && IsLotOf(lots[i], step))
    && (forall i, j | 0 <= i < |lots| && 0 <= j < |lots| && Same(lots[i].key, key) && Same(lots[j].key, key) :: i == j)
  }

  predicate LotAsGranted(lots: seq<Lot>, key: string, first: Option<Step>) {
    match first
    case None => !HasKey(lots, key)
    case Some(step) => OnlyLot(lots, key, step)
  }

  /** Topping up uses keys of its own. */
  predicate KeyIsGrants(steps: seq<Step>, key: string) {
    forall i | 0 <= i < |steps| && steps[i].Allocate? :: !Same(steps[i].key, key)
  }

  /** Over any run a key has one lot, that of its first grant, however often it is granted again and whatever is drawn
      from the lots; and no lot when nothing was granted under it. */
  lemma {:induction false} OneLotPerGrant(steps: seq<Step>, key: string)
    requires KeyIsGrants(steps, key)
    ensures LotAsGranted(FundingRuns.Run(steps).book.lots, key, FirstGrant(steps, key))
  {
    hide LotAsGranted, Next;
    if steps == [] {
      NoLots(key);
    } else {
      var n := |steps| - 1;
      assert forall i | 0 <= i < n :: steps[..n][i] == steps[i];
      OneLotPerGrant(steps[..n], key);
      LotStep(FundingRuns.Run(steps[..n]), steps[n], key, FirstGrant(steps[..n], key));
    }
  }

  lemma {:induction false} NoLots(key: string)
    ensures LotAsGranted([], key, None)
  {
  }

  lemma {:induction false} LotStep(s: State, step: Step, key: string, first: Option<Step>)
    requires LotAsGranted(s.book.lots, key, first)
    requires step.Allocate? ==> !Same(step.key, key)
    ensures LotAsGranted(FundingRuns.Next(s, step).book.lots, key,
                         if first.Some? then first else if Grants(step, key) then Some(step) else None)
  {
    match step
    case Grant(a, amount, k, source, multiplier) => {
      if amount > 0 && |a| > 0 && !HasKey(s.book.lots, k) {
        LotAppended(s.book.lots, Lot(a, source, amount, amount, multiplier, k), key, step, first);
      }
    }
    case Allocate(request, a, amount, available, k) =>
      AllocateKeepsLots(s.book, request, a, amount, available, k, key, first);
    case TakeSnapshot(_) =>
  }

  lemma {:induction false} LotAppended(lots: seq<Lot>, l: Lot, key: string, step: Step, first: Option<Step>)
    requires LotAsGranted(lots, key, first)
    requires Same(l.key, key) ==> first.None? && IsLotOf(l, step)
    ensures LotAsGranted(lots + [l], key, if Same(l.key, key) then Some(step) else first)
  {
    hide IsLotOf;
    var lots' := lots + [l];
    assert forall i | 0 <= i < |lots| :: lots'[i] == lots[i];
    assert lots'[|lots|] == l;
    if !Same(l.key, key) && first.Some? {
      var i :| 0 <= i < |lots| && Same(lots[i].key, key) && IsLotOf(lots[i], first.value);
      assert Same(lots'[i].key, key) && IsLotOf(lots'[i], first.value);
    }
  }

  /** Drawing on lots changes what remains in them, and nothing else. */
  lemma {:induction false} AllocateKeepsLots(b: Book, request: string, a: AccountId, amount: int,
                                             available: Option<int>, k: string, key: string, first: Option<Step>)
    requires LotAsGranted(b.lots, key, first) && !Same(k, key)
    ensures LotAsGranted(AmountAllocated(b, request, a, amount, available, k).0.lots, key, first)
  {
    hide RemainingOf, FundingLots.Given, IsLotOf;
    if available.Some? {
      var topped := ToppedUp(b.lots, a, available.value + amount, k);
      if topped != b.lots {
        LotAppended(b.lots, topped[|b.lots|], key, Allocate(request, a, amount, available, k), first);
      }
      DrawnKeepsLots(topped, a, amount, key, first);
    }
  }

  lemma {:induction false} DrawnKeepsLots(lots: seq<Lot>, a: AccountId, amount: int, key: string, first: Option<Step>)
    requires LotAsGranted(lots, key, first)
    ensures LotAsGranted(Drawn(lots, a, amount, |lots|), key, first)
  {
    hide FundingLots.Given;
    var drawn := Drawn(lots, a, amount, |lots|);
    assert forall i | 0 <= i < |lots| :: drawn[i] == lots[i].(remaining := drawn[i].remaining);
    if first.Some? {
      var i :| 0 <= i < |lots| && Same(lots[i].key, key) && IsLotOf(lots[i], first.value);
      assert Same(drawn[i].key, key) && IsLotOf(drawn[i], first.value);
    }
  }

  /** Quota that no grant brought is of unknown origin, and realises no revenue. */
  predicate Accounted(l: Lot, steps: seq<Step>) {
    || (l.source == LegacyUnattributed && l.multiplier == 0.0)
    || exists k | 0 <= k < |steps| :: IsLotOf(l, steps[k])
  }

  lemma {:induction false} LotsAreAccounted(steps: seq<Step>, i: nat)
    requires i < |FundingRuns.Run(steps).book.lots|
    ensures Accounted(FundingRuns.Run(steps).book.lots[i], steps)
  {
    if steps != [] {
      hide FundingRuns.Run, Next, IsLotOf, Accounted;
      var n := |steps| - 1;
      var s := FundingRuns.Run(steps[..n]);
      LastOfRun(steps);
      LotsOfStep(s, steps[n], i);
      var l := FundingRuns.Run(steps).book.lots[i];
      if i < |s.book.lots| {
        LotsAreAccounted(steps[..n], i);
        StillAccounted(s.book.lots[i], l.remaining, steps);
      } else {
        AccountedBy(l, steps, n);
      }
    }
  }

  lemma {:induction false} LastOfRun(steps: seq<Step>)
    requires steps != []
    ensures FundingRuns.Run(steps) == FundingRuns.Next(FundingRuns.Run(steps[..|steps| - 1]), steps[|steps| - 1])
  {
  }

  lemma {:induction false} StillAccounted(l: Lot, remaining: int, steps: seq<Step>)
    requires steps != [] && Accounted(l, steps[..|steps| - 1])
    ensures Accounted(l.(remaining := remaining), steps)
  {
    if l.source != LegacyUnattributed || l.multiplier != 0.0 {
      var k :| 0 <= k < |steps| - 1 && IsLotOf(l, steps[..|steps| - 1][k]);
      assert IsLotOf(l.(remaining := remaining), steps[k]);
    }
  }

  lemma {:induction false} AccountedBy(l: Lot, steps: seq<Step>, k: nat)
    requires k < |steps|
    requires (l.source == LegacyUnattributed && l.multiplier == 0.0) || IsLotOf(l, steps[k])
    ensures Accounted(l, steps)
  {
  }

  lemma {:induction false} LotsOfStep(s: State, step: Step, i: nat)
    requires i < |FundingRuns.Next(s, step).book.lots|
    ensures var l := FundingRuns.Next(s, step).book.lots[i];
      if i < |s.book.lots| then l == s.book.lots[i].(remaining := l.remaining)
      else (l.source == LegacyUnattributed && l.multiplier == 0.0) || IsLotOf(l, step)
  {
    hide RemainingOf, FundingLots.Given;
  }

  /** What an allocation answers.  It fails exactly when there is something to allocate and the balance is not known, or
      is negative and the lots do not cover the amount; then nothing is allocated and no lot is touched. */
  lemma {:induction false} AllocationAnswers(b: Book, request: string, a: AccountId, amount: int,
                                             available: Option<int>, key: string)
    requires LotsBalance(b.lots, b.allocations)
    ensures var (b', r) := AmountAllocated(b, request, a, amount, available, key);
      var asked := |request| > 0 && |a| > 0 && amount > 0 && !IsAllocated(b.allocations, request);
      && (r.Failure? <==>
          asked && (available.None? || (available.value < 0 && RemainingOf(b.lots, a) < amount)))
      && (r.Failure? ==>
          r.error == (if available.None? then AccountNotFound else InsufficientBalance) && b' == b)
      && (!asked ==> b' == b)
  {
    hide LotsBalance, IsAllocated, Drawn, Allocated, RemainingOf;
    if available.Some? {
      ToppedUpCovers(b.lots, b.allocations, a, available.value + amount, key);
    }
  }

  // ----- Records -----

  predicate Snaps(step: Step, request: string) {
    && step.TakeSnapshot? && Same(step.record.request, request)
    && |step.record.request| > 0 && step.record.amount >= 0 && step.record.costMultiplier > 0.0
  }

  /** The latest snapshot of the request that was kept. */
  function LatestSnapshot(steps: seq<Step>, request: string): Option<Record> {
    if steps == [] then None else
      var n := |steps| - 1;
      if Snaps(steps[n], request) then Some(steps[n].record) else LatestSnapshot(steps[..n], request)
  }

  predicate OnlyRow(records: seq<Record>, request: string, row: Option<Record>) {
    && (forall i | 0 <= i < |records| && Same(records[i].request, request) :: row == Some(records[i]))
    && (row.Some? ==> exists i | 0 <= i < |records| :: records[i] == row.value && Same(records[i].request, request))
    && (forall i, j | 0 <= i < |records| && 0 <= j < |records| &&
                      Same(records[i].request, request) && Same(records[j].request, request) :: i == j)
  }

  /** Over any run a request has one row, its latest snapshot, whatever is recorded of other requests. */
  lemma {:induction false} OneRowPerRequest(steps: seq<Step>, request: string)
    ensures OnlyRow(FundingRuns.Run(steps).records, request, LatestSnapshot(steps, request))
  {
    hide OnlyRow, Recorded;
    if steps == [] {
      NoRows(request);
    } else {
      var n := |steps| - 1;
      OneRowPerRequest(steps[..n], request);
      var s := FundingRuns.Run(steps[..n]);
      if steps[n].TakeSnapshot? {
        RowRecorded(s.records, steps[n].record, request, LatestSnapshot(steps[..n], request));
      }
    }
  }

  lemma {:induction false} NoRows(request: string)
    ensures OnlyRow([], request, None)
  {
  }

  lemma {:induction false} RowRecorded(records: seq<Record>, r: Record, request: string, row: Option<Record>)
    requires OnlyRow(records, request, row)
    ensures OnlyRow(Recorded(records, r), request, if Same(r.request, request) then Some(r) else row)
  {
    RecordedAt(records, r);
    var k := Position(records, r.request);
    var records' := Recorded(records, r);
    assert records'[k] == r;
    if !Same(r.request, request) && row.Some? {
      var i :| 0 <= i < |records| && records[i] == row.value && Same(records[i].request, request);
      assert records'[i] == row.value;
    }
  }

  /** The row of a request, or where it would be added. */
  function Position(records: seq<Record>, request: string): (k: nat)
    ensures k <= |records|
    ensures k < |records| ==> Same(records[k].request, request)
    ensures forall i | 0 <= i < k :: !Same(records[i].request, request)
  {
    if records == [] || Same(records[0].request, request) then 0 else 1 + Position(records[1..], request)
  }

  lemma {:induction false} RecordedAt(records: seq<Record>, r: Record)
    ensures var k := Position(records, r.request);
      Recorded(records, r) == if k < |records| then records[k := r] else records + [r]
  {
    if records != [] && !Same(records[0].request, r.request) {
      RecordedAt(records[1..], r);
    }
  }
}
