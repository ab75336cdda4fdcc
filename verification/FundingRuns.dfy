/** Runs of grants, allocations and settlement snapshots, and the report on what they leave. */
module FundingRuns {
  import opened LedgerSchema
  import opened FundingLots
  import opened FundingEconomics

  /** A snapshot is taken of a settlement that was reported successful. */
  datatype Step =
    | Grant(a: AccountId, amount: int, key: string, source: FundingSource, multiplier: real)
    | Allocate(request: string, a: AccountId, amount: int, available: Option<int>, key: string)
    | TakeSnapshot(record: Record)

  datatype State = State(book: Book, records: seq<Record>)

  const START := State(EMPTY_BOOK, [])

  /** One row per request: a later snapshot replaces an earlier one. */
  function Recorded(records: seq<Record>, r: Record): seq<Record> {
    if records == [] then [r]
    else if Same(records[0].request, r.request) then [r] + records[1..]
    else [records[0]] + Recorded(records[1..], r)
  }

  function Next(s: State, step: Step): State {
    match step
    case Grant(a, amount, key, source, multiplier) =>
      s.(book := LotRecorded(s.book, a, amount, key, source, multiplier))
    case Allocate(request, a, amount, available, key) =>
      s.(book := AmountAllocated(s.book, request, a, amount, available, key).0)
    case TakeSnapshot(r) =>
      if |r.request| == 0 || r.amount < 0 || r.costMultiplier <= 0.0 then s else s.(records := Recorded(s.records, r))
  }

  function Run(steps: seq<Step>): State {
    if steps == [] then START else Next(Run(steps[..|steps| - 1]), steps[|steps| - 1])
  }

  // ----- What a request was allocated -----

  /** The step allocates to the request. */
  predicate AllocatesTo(s: State, step: Step, request: string) {
    && step.Allocate? && Same(step.request, request) && |step.request| > 0 && |step.a| > 0 && step.amount > 0
    && step.available.Some?
    && RemainingOf(ToppedUp(s.book.lots, step.a, step.available.value + step.amount, step.key), step.a) >= step.amount
  }

  /** The amount of the first step that allocates to the request. */
  function FirstAllocated(steps: seq<Step>, request: string): Option<int> {
    if steps == [] then None
    else
      var n := |steps| - 1;
      var before := FirstAllocated(steps[..n], request);
      if before.Some? then before
      else if AllocatesTo(Run(steps[..n]), steps[n], request) then Some(steps[n].amount)
      else None
  }

  /** The book's lots balance, and every request has been allocated what its first allocation was given. */
  lemma {:induction false} RunAllocates(steps: seq<Step>, request: string)
    ensures LotsBalance(Run(steps).book.lots, Run(steps).book.allocations)
    ensures var allocations := Run(steps).book.allocations;
      match FirstAllocated(steps, request)
      case None => !IsAllocated(allocations, request)
      case Some(amount) => IsAllocated(allocations, request) && TakenFor(allocations, request) == amount > 0
  {
    if steps != [] {
      var n := |steps| - 1;
      RunAllocates(steps[..n], request);
      StepAllocates(Run(steps[..n]), steps[n], request);
    }
  }

  lemma {:induction false} StepAllocates(s: State, step: Step, request: string)
    requires LotsBalance(s.book.lots, s.book.allocations)
    ensures var s' := Next(s, step);
      && LotsBalance(s'.book.lots, s'.book.allocations)
      && (IsAllocated(s.book.allocations, request) ==>
            IsAllocated(s'.book.allocations, request) &&
            TakenFor(s'.book.allocations, request) == TakenFor(s.book.allocations, request))
      && (!IsAllocated(s.book.allocations, request) ==>
            if AllocatesTo(s, step, request)
            then IsAllocated(s'.book.allocations, request) && TakenFor(s'.book.allocations, request) == step.amount
            else !IsAllocated(s'.book.allocations, request))
  {
    match step
    case Grant(a, amount, key, source, multiplier) =>
      GrantBalances(s.book, a, amount, key, source, multiplier);
    case Allocate(r, a, amount, available, key) =>
      AllocateExactly(s.book, r, a, amount, available, key, request);
    case TakeSnapshot(_) =>
  }

  lemma {:induction false} GrantBalances(b: Book, a: AccountId, amount: int, key: string, source: FundingSource,
                                         multiplier: real)
    requires LotsBalance(b.lots, b.allocations)
    ensures LotsBalance(LotRecorded(b, a, amount, key, source, multiplier).lots, b.allocations)
    ensures LotRecorded(b, a, amount, key, source, multiplier).allocations == b.allocations
  {
    NothingTaken(b.allocations, |b.lots|);
  }

  lemma {:induction false} AllocateExactly(b: Book, r: string, a: AccountId, amount: int, available: Option<int>,
                                           key: string,
                                           request: string)
    requires LotsBalance(b.lots, b.allocations)
    ensures var b' := AmountAllocated(b, r, a, amount, available, key).0;
      var goes := Same(r, request) && |r| > 0 && |a| > 0 && amount > 0 && available.Some? &&
                  RemainingOf(ToppedUp(b.lots, a, available.value + amount, key), a) >= amount;
      && LotsBalance(b'.lots, b'.allocations)
      && (IsAllocated(b.allocations, request) ==>
            IsAllocated(b'.allocations, request) &&
            TakenFor(b'.allocations, request) == TakenFor(b.allocations, request))
      && (!IsAllocated(b.allocations, request) ==>
            if goes then IsAllocated(b'.allocations, request) && TakenFor(b'.allocations, request) == amount
            else !IsAllocated(b'.allocations, request))
  {
    hide LotsBalance, Drawn, Allocated, RemainingOf, ToppedUp, TakenFor;
    if |r| > 0 && |a| > 0 && amount > 0 && !IsAllocated(b.allocations, r) && available.Some? {
      var topped := ToppedUp(b.lots, a, available.value + amount, key);
      if RemainingOf(topped, a) >= amount {
        ToppedUpCovers(b.lots, b.allocations, a, available.value + amount, key);
        DrawKeepsBalance(topped, b.allocations, r, a, amount);
        DrawIsExact(topped, b.allocations, r, a, amount, request, a);
        if Same(r, request) {
          FirstDraw(topped, b.allocations, r, a, amount, request);
        } else if IsAllocated(b.allocations, request) {
          StillAllocated(b.allocations, Allocated(topped, r, a, amount, |topped|), request);
        } else {
          OthersUnallocated(topped, b.allocations, r, a, amount, request);
        }
      }
    }
  }

  lemma {:induction false} StillAllocated(xs: seq<Allocation>, ys: seq<Allocation>, request: string)
    requires IsAllocated(xs, request)
    ensures IsAllocated(xs + ys, request)
  {
    var i :| 0 <= i < |xs| && Same(xs[i].request, request);
    assert (xs + ys)[i] == xs[i];
  }

  lemma {:induction false} FirstDraw(lots: seq<Lot>, allocations: seq<Allocation>, r: string, a: AccountId, amount: int,
                                     request: string)
    requires LotsBalance(lots, allocations) && amount > 0 && RemainingOf(lots, a) >= amount && Same(r, request)
    requires !IsAllocated(allocations, request)
    ensures TakenFor(allocations, request) == 0
    ensures IsAllocated(allocations + Allocated(lots, r, a, amount, |lots|), request)
  {
    hide LotsBalance, Drawn, Allocated, RemainingOf;
    UnallocatedTakesNothing(allocations, request);
    DrawIsExact(lots, allocations, r, a, amount, request, a);
    var all := allocations + Allocated(lots, r, a, amount, |lots|);
    if !IsAllocated(all, request) {
      UnallocatedTakesNothing(all, request);
    }
  }

  // ----- What the report conserves -----

  /** Every snapshot of an allocated request that a wallet paid carries the amount it was first allocated. */
  ghost predicate SettledOnce(steps: seq<Step>) {
    forall i | 0 <= i < |steps| && steps[i].TakeSnapshot? && !steps[i].record.fromSubscription ::
      var r := steps[i].record;
      FirstAllocated(steps, r.request).None? || FirstAllocated(steps, r.request) == Some(r.amount)
  }

  predicate IsSnapshot(steps: seq<Step>, r: Record) {
    exists i | 0 <= i < |steps| :: steps[i] == TakeSnapshot(r)
  }

  /** The rows kept are snapshots that were taken. */
  lemma {:induction false} RowsAreSnapshots(steps: seq<Step>, k: nat)
    requires k < |Run(steps).records|
    ensures IsSnapshot(steps, Run(steps).records[k])
  {
    if steps != [] {
      var n := |steps| - 1;
      var s := Run(steps[..n]);
      var row := Run(steps).records[k];
      if steps[n] != TakeSnapshot(row) {
        RowsBefore(s, steps[n], k);
        var j :| 0 <= j < |s.records| && s.records[j] == row;
        RowsAreSnapshots(steps[..n], j);
        var i :| 0 <= i < |steps[..n]| && steps[..n][i] == TakeSnapshot(row);
        assert steps[i] == TakeSnapshot(row);
      }
    }
  }

  lemma {:induction false} RowsBefore(s: State, step: Step, k: nat)
    requires k < |Next(s, step).records| && step != TakeSnapshot(Next(s, step).records[k])
    ensures Next(s, step).records[k] in s.records
  {
    if step.TakeSnapshot? {
      RecordedRows(s.records, step.record);
    }
  }

  lemma {:induction false} RecordedRows(records: seq<Record>, r: Record)
    ensures forall x | x in Recorded(records, r) :: x == r || x in records
  {
    if records != [] && !Same(records[0].request, r.request) {
      RecordedRows(records[1..], r);
    }
  }

  /** The day's rows are some of those kept. */
  predicate Among(day: seq<Record>, records: seq<Record>) {
    forall i | 0 <= i < |day| :: day[i] in records
  }

  /** Whatever was granted, allocated and recorded in whatever order, and whatever was refused: when no request
      was recorded with another amount than it was allocated, the report's cost and quota are those of the
      day's requests. */
  lemma {:induction false} RunConserves(steps: seq<Step>, day: seq<Record>, quotaPerUnit: real)
    requires SettledOnce(steps) && Among(day, Run(steps).records) && quotaPerUnit > 0.0
    ensures var allocations := Run(steps).book.allocations;
      && Spoiled(day, allocations) == {}
      && CostOn(AllLines(day, allocations, quotaPerUnit)) == TotalCost(day, quotaPerUnit)
      && QuotaOn(AllLines(day, allocations, quotaPerUnit)) == TotalAmount(day)
  {
    hide AllLines, CostOn, QuotaOn, TotalCost, TotalAmount, Spoiled, Run;
    RunIsFull(steps, day);
    ReportConservesCost(day, Run(steps).book.allocations, quotaPerUnit);
    ReportConservesQuota(day, Run(steps).book.allocations, quotaPerUnit);
  }

  lemma {:induction false} RunIsFull(steps: seq<Step>, day: seq<Record>)
    requires SettledOnce(steps) && Among(day, Run(steps).records)
    ensures FullyAllocated(day, Run(steps).book.allocations)
  {
    hide Run, FirstAllocated, TakenFor, IsAllocated, LotsBalance;
    var s := Run(steps);
    forall i | 0 <= i < |day| && !day[i].fromSubscription
      ensures !IsAllocated(s.book.allocations, day[i].request) ||
              TakenFor(s.book.allocations, day[i].request) == day[i].amount != 0
    {
      RunAllocates(steps, day[i].request);
      var k :| 0 <= k < |s.records| && s.records[k] == day[i];
      RowsAreSnapshots(steps, k);
      var j :| 0 <= j < |steps| && steps[j] == TakeSnapshot(day[i]);
    }
  }

  /** A row brings its whole cost into the report exactly when it is paid by a subscription, or was not
      allocated, or was allocated its amount, or costs nothing. */
  lemma {:induction false} RowBringsItsCost(steps: seq<Step>, r: Record, quotaPerUnit: real)
    requires quotaPerUnit > 0.0
    ensures var allocations := Run(steps).book.allocations;
      SpoiledBy(r, allocations) == {} && Share(r, allocations, quotaPerUnit) == BaseCost(r, quotaPerUnit) <==>
      r.fromSubscription || FirstAllocated(steps, r.request).None? ||
      FirstAllocated(steps, r.request) == Some(r.amount) ||
      (r.amount != 0 && BaseCost(r, quotaPerUnit) == 0.0)
  {
    hide Run, FirstAllocated, TakenFor, IsAllocated, LotsBalance, BaseCost, PartOf;
    var allocations := Run(steps).book.allocations;
    RunAllocates(steps, r.request);
    NoRowsUnallocated(allocations, r.request);
    var xs := ForRequest(allocations, r.request);
    if !r.fromSubscription && xs != [] {
      if r.amount == 0 {
        assert xs[0].source in SpoiledBy(r, allocations);
      } else {
        PartIsWhole(BaseCost(r, quotaPerUnit), TakenFor(allocations, r.request), r.amount);
      }
    }
  }

  lemma {:induction false} PartIsWhole(cost: real, x: int, whole: int)
    requires whole != 0
    ensures PartOf(cost, x, whole) == cost <==> x == whole || cost == 0.0
  {
    var w := whole as real;
    if cost == 0.0 {
      assert cost * (x as real) == 0.0;
    } else if x == whole {
      WholePart(cost, whole);
    } else {
      assert PartOf(cost, x, whole) * w == cost * (x as real);
      assert cost * (w - x as real) == cost * w - cost * (x as real);
    }
  }

  /** A request whose settlement was reported again with another amount: its lots were drawn on once, and the
      report loses the difference. */
  lemma {:induction false} RecordedAnew(a: AccountId, request: string, quotaPerUnit: real)
    requires |a| > 0 && |request| > 0 && quotaPerUnit > 0.0
    ensures var r := Record(request, 10, false, 1.0, 0.0);
      var r' := r.(amount := 20);
      var steps := [Allocate(request, a, 10, Some(0), "k")] + [TakeSnapshot(r)] + [TakeSnapshot(r')];
      && Run(steps).records == [r']
      && CostOn(AllLines([r'], Run(steps).book.allocations, quotaPerUnit)) == 10.0 / quotaPerUnit
      && TotalCost([r'], quotaPerUnit) == 20.0 / quotaPerUnit
  {
    var r := Record(request, 10, false, 1.0, 0.0);
    var r' := r.(amount := 20);
    var first := Allocate(request, a, 10, Some(0), "k");
    LastStep([], first);
    LastStep([first], TakeSnapshot(r));
    LastStep([first] + [TakeSnapshot(r)], TakeSnapshot(r'));
    assert [] + [first] == [first];
    var steps := [first] + [TakeSnapshot(r)] + [TakeSnapshot(r')];
    var allocations := Run(steps).book.allocations;
    assert allocations == Next(START, first).book.allocations;
    AllocateExactly(EMPTY_BOOK, request, a, 10, Some(0), "k", request);
    hide Run, Next, AmountAllocated;
    HalfItsCost(r', allocations, quotaPerUnit);
  }

  lemma {:induction false} HalfItsCost(r: Record, allocations: seq<Allocation>, quotaPerUnit: real)
    requires quotaPerUnit > 0.0 && !r.fromSubscription && r.amount == 20 && r.costMultiplier == 1.0
    requires IsAllocated(allocations, r.request) && TakenFor(allocations, r.request) == 10
    ensures CostOn(AllLines([r], allocations, quotaPerUnit)) == 10.0 / quotaPerUnit
    ensures TotalCost([r], quotaPerUnit) == 20.0 / quotaPerUnit
  {
    hide CostOn, AllLines, TakenFor, IsAllocated, ForRequest;
    AllLinesCost([r], allocations, quotaPerUnit);
    NoRowsUnallocated(allocations, r.request);
    assert [r][..0] == [];
    assert Shares([r], allocations, quotaPerUnit) == Share(r, allocations, quotaPerUnit);
    assert BaseCost(r, quotaPerUnit) == 20.0 / quotaPerUnit;
  }

  lemma {:induction false} LastStep(steps: seq<Step>, step: Step)
    ensures Run(steps + [step]) == Next(Run(steps), step)
  {
    hide Next;
    assert (steps + [step])[..|steps|] == steps;
  }
}
