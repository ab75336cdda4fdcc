/** The daily report: settled requests' procurement cost, split over the sources their quota came from. */
module FundingEconomics {
  import opened LedgerSchema
  import opened FundingLots

  /** A request's settlement snapshot. */
  datatype Record = Record(request: string, amount: int, fromSubscription: bool, costMultiplier: real,
                           revenueMultiplier: real)

  datatype Line = Line(quota: int, revenue: real, cost: real)

  type Lines = map<FundingSource, Line>

  /** The report; the spoiled sources are those whose cost, and every total it enters, is no number. */
  datatype Report = Report(recognizedRevenue: real, recognizedCost: real, recognizedProfit: real,
                           unattributedCost: real,
                           sources: Lines, spoiled: set<FundingSource>)

  function BaseCost(r: Record, quotaPerUnit: real): real
    requires quotaPerUnit > 0.0
  {
    Worth(r.amount, quotaPerUnit, r.costMultiplier)
  }

  function TotalCost(records: seq<Record>, quotaPerUnit: real): real
    requires quotaPerUnit > 0.0
  {
    if records == [] then 0.0
    else TotalCost(records[..|records| - 1], quotaPerUnit) + BaseCost(records[|records| - 1], quotaPerUnit)
  }

  function ForRequest(allocations: seq<Allocation>, request: string): seq<Allocation> {
    if allocations == [] then [] else
      var x := allocations[|allocations| - 1];
      ForRequest(allocations[..|allocations| - 1], request) + if Same(x.request, request) then [x] else []
  }

  function SumOf(xs: seq<Allocation>): int {
    if xs == [] then 0 else SumOf(xs[..|xs| - 1]) + xs[|xs| - 1].amount
  }

  lemma {:induction false} SumForRequest(allocations: seq<Allocation>, request: string)
    ensures SumOf(ForRequest(allocations, request)) == TakenFor(allocations, request)
  {
    if allocations != [] {
      var n := |allocations| - 1;
      var x := allocations[n];
      var xs := ForRequest(allocations[..n], request);
      SumForRequest(allocations[..n], request);
      assert xs + [] == xs && (xs + [x])[..|xs|] == xs;
    }
  }

  // ----- The report's lines -----

  function Appended(lines: Lines, source: FundingSource, quota: int, revenue: real, cost: real): Lines {
    var line := if source in lines then lines[source] else Line(0, 0.0, 0.0);
    lines[source := Line(line.quota + quota, line.revenue + revenue, line.cost + cost)]
  }

  datatype Figure = Revenue | Cost

  function At(lines: Lines, among: set<FundingSource>, source: FundingSource, figure: Figure): real {
    if source !in among || source !in lines then 0.0
    else if figure.Cost? then lines[source].cost else lines[source].revenue
  }

  /** The sum of a figure over the lines of the given sources. */
  function Over(lines: Lines, among: set<FundingSource>, figure: Figure): real {
    At(lines, among, Topup, figure) + At(lines, among, BlindBox, figure) + At(lines, among, Subscription, figure) +
    At(lines, among, LegacyUnattributed, figure) + At(lines, among, Other, figure)
  }

  function CostOn(lines: Lines): real {
    Over(lines, lines.Keys, Cost)
  }

  const UNATTRIBUTED := {LegacyUnattributed, Other}

  lemma {:induction false} AppendedCost(lines: Lines, source: FundingSource, quota: int, revenue: real, cost: real)
    ensures CostOn(Appended(lines, source, quota, revenue, cost)) == CostOn(lines) + cost
  {
  }

  lemma {:induction false} Without(lines: Lines, among: set<FundingSource>, source: FundingSource, figure: Figure)
    requires source in among && among <= lines.Keys
    ensures Over(lines, among, figure) == Over(lines, among - {source}, figure) + At(lines, {source}, source, figure)
  {
  }

  /** The part of a cost that belongs to x out of the whole.  Out of nothing it is no number; it counts as zero
      here, and Spoiled names the sources it spoils. */
  function PartOf(cost: real, x: int, whole: int): real {
    if whole == 0 then 0.0 else cost * (x as real) / whole as real
  }

  /** What an amount of quota is worth at a multiplier. */
  function Worth(amount: int, quotaPerUnit: real, multiplier: real): real
    requires quotaPerUnit > 0.0
  {
    amount as real / quotaPerUnit * multiplier
  }

  /** The cost a request contributes: all of it, or what its allocations cover. */
  function Share(r: Record, allocations: seq<Allocation>, quotaPerUnit: real): real
    requires quotaPerUnit > 0.0
  {
    if r.fromSubscription || ForRequest(allocations, r.request) == [] then BaseCost(r, quotaPerUnit)
    else PartOf(BaseCost(r, quotaPerUnit), TakenFor(allocations, r.request), r.amount)
  }

  function Shares(records: seq<Record>, allocations: seq<Allocation>, quotaPerUnit: real): real
    requires quotaPerUnit > 0.0
  {
    if records == [] then 0.0 else
      var n := |records| - 1;
      Shares(records[..n], allocations, quotaPerUnit) + Share(records[n], allocations, quotaPerUnit)
  }

  /** The sources of a record's allocations, when it has no amount to divide by. */
  function SpoiledBy(r: Record, allocations: seq<Allocation>): set<FundingSource> {
    if r.fromSubscription || r.amount != 0 then {}
    else set x | x in ForRequest(allocations, r.request) :: x.source
  }

  function Spoiled(records: seq<Record>, allocations: seq<Allocation>): set<FundingSource> {
    if records == [] then {} else
      var n := |records| - 1;
      Spoiled(records[..n], allocations) + SpoiledBy(records[n], allocations)
  }

  lemma {:induction false} PartsAdd(base: real, x: int, y: int, whole: int)
    ensures PartOf(base, x, whole) + PartOf(base, y, whole) == PartOf(base, x + y, whole)
  {
    if whole != 0 {
      var w := whole as real;
      assert base * (x as real) / w + base * (y as real) / w == (base * (x as real) + base * (y as real)) / w;
    }
  }

  lemma {:induction false} NoPart(base: real, whole: int)
    ensures PartOf(base, 0, whole) == 0.0
  {
  }

  lemma {:induction false} WholePart(base: real, whole: int)
    requires whole != 0
    ensures PartOf(base, whole, whole) == base
  {
  }

  // ----- What the report's lines should be -----

  function AllocationLines(lines: Lines, xs: seq<Allocation>, whole: int, cost: real, quotaPerUnit: real): Lines
    requires quotaPerUnit > 0.0
  {
    if xs == [] then lines else
      var x := xs[|xs| - 1];
      Appended(AllocationLines(lines, xs[..|xs| - 1], whole, cost, quotaPerUnit),
               x.source, x.amount, Worth(x.amount, quotaPerUnit, x.multiplier), PartOf(cost, x.amount, whole))
  }

  function RecordLines(lines: Lines, r: Record, allocations: seq<Allocation>, quotaPerUnit: real): Lines
    requires quotaPerUnit > 0.0
  {
    var cost := BaseCost(r, quotaPerUnit);
    if r.fromSubscription then
      Appended(lines, Subscription, r.amount, Worth(r.amount, quotaPerUnit, r.revenueMultiplier), cost)
    else if ForRequest(allocations, r.request) == [] then Appended(lines, LegacyUnattributed, r.amount, 0.0, cost)
    else AllocationLines(lines, ForRequest(allocations, r.request), r.amount, cost, quotaPerUnit)
  }

  function AllLines(records: seq<Record>, allocations: seq<Allocation>, quotaPerUnit: real): Lines
    requires quotaPerUnit > 0.0
  {
    if records == [] then map[] else
      var n := |records| - 1;
      RecordLines(AllLines(records[..n], allocations, quotaPerUnit), records[n], allocations, quotaPerUnit)
  }

  lemma {:induction false} AllocationLinesCost(lines: Lines, xs: seq<Allocation>, whole: int, cost: real,
                                               quotaPerUnit: real)
    requires quotaPerUnit > 0.0
    ensures CostOn(AllocationLines(lines, xs, whole, cost, quotaPerUnit)) ==
            CostOn(lines) + PartOf(cost, SumOf(xs), whole)
  {
    hide Worth, PartOf, CostOn, Appended;
    if xs == [] {
      NoPart(cost, whole);
    } else {
      var n := |xs| - 1;
      AllocationLinesCost(lines, xs[..n], whole, cost, quotaPerUnit);
      AppendedCost(AllocationLines(lines, xs[..n], whole, cost, quotaPerUnit), xs[n].source, xs[n].amount,
                   Worth(xs[n].amount, quotaPerUnit, xs[n].multiplier), PartOf(cost, xs[n].amount, whole));
      PartsAdd(cost, SumOf(xs[..n]), xs[n].amount, whole);
    }
  }

  lemma {:induction false} RecordLinesCost(lines: Lines, r: Record, allocations: seq<Allocation>, quotaPerUnit: real)
    requires quotaPerUnit > 0.0
    ensures CostOn(RecordLines(lines, r, allocations, quotaPerUnit)) ==
            CostOn(lines) + Share(r, allocations, quotaPerUnit)
  {
    hide BaseCost, Worth, PartOf, CostOn, Appended, AllocationLines;
    var cost := BaseCost(r, quotaPerUnit);
    var xs := ForRequest(allocations, r.request);
    if r.fromSubscription {
      AppendedCost(lines, Subscription, r.amount, Worth(r.amount, quotaPerUnit, r.revenueMultiplier), cost);
    } else if xs == [] {
      AppendedCost(lines, LegacyUnattributed, r.amount, 0.0, cost);
    } else {
      SumForRequest(allocations, r.request);
      AllocationLinesCost(lines, xs, r.amount, cost, quotaPerUnit);
    }
  }

  lemma {:induction false} AllLinesCost(records: seq<Record>, allocations: seq<Allocation>, quotaPerUnit: real)
    requires quotaPerUnit > 0.0
    ensures CostOn(AllLines(records, allocations, quotaPerUnit)) == Shares(records, allocations, quotaPerUnit)
  {
    if records != [] {
      hide CostOn, RecordLines, Share;
      var n := |records| - 1;
      AllLinesCost(records[..n], allocations, quotaPerUnit);
      RecordLinesCost(AllLines(records[..n], allocations, quotaPerUnit), records[n], allocations, quotaPerUnit);
    }
  }

  // ----- The report as it is built -----

  method AppendAllocations(lines: Lines, xs: seq<Allocation>, whole: int, cost: real, quotaPerUnit: real)
    returns (lines': Lines, spoiled: set<FundingSource>)
    requires quotaPerUnit > 0.0
    ensures lines' == AllocationLines(lines, xs, whole, cost, quotaPerUnit)
    ensures spoiled == if whole == 0 then set x | x in xs :: x.source else {}
  {
    hide Worth, PartOf, Appended;
    lines', spoiled := lines, {};
    var j := 0;
    assert xs[..0] == [];
    while j < |xs|
      invariant 0 <= j <= |xs|
      invariant lines' == AllocationLines(lines, xs[..j], whole, cost, quotaPerUnit)
      invariant spoiled == if whole == 0 then set x | x in xs[..j] :: x.source else {}
    {
      var x := xs[j];
      if whole == 0 {
        spoiled := spoiled + {x.source};
      }
      assert xs[..j + 1] == xs[..j] + [x];
      lines' := Appended(lines', x.source, x.amount, Worth(x.amount, quotaPerUnit, x.multiplier),
                         PartOf(cost, x.amount, whole));
      assert xs[..j + 1][..j] == xs[..j];
      j := j + 1;
    }
    assert xs[..j] == xs;
  }

  /** The report over a day's records.  Its lines are visited in any order. */
  method DailyFundingEconomics(records: seq<Record>, allocations: seq<Allocation>, quotaPerUnit: real)
    returns (r: Result<Report>)
    ensures r.Success? <==> quotaPerUnit > 0.0
    ensures r.Success? ==>
      && r.value.sources == AllLines(records, allocations, quotaPerUnit)
      && r.value.spoiled == Spoiled(records, allocations)
      && r.value.unattributedCost == Over(r.value.sources, UNATTRIBUTED, Cost)
      && r.value.recognizedCost + r.value.unattributedCost == CostOn(r.value.sources)
      && r.value.recognizedRevenue == Over(r.value.sources, r.value.sources.Keys - UNATTRIBUTED, Revenue)
      && r.value.recognizedProfit == r.value.recognizedRevenue - r.value.recognizedCost
  {
    if quotaPerUnit <= 0.0 {
      return Failure(InvalidParams);
    }
    hide RecordLines, SpoiledBy;
    var lines: Lines, spoiled: set<FundingSource> := map[], {};
    var i := 0;
    assert records[..0] == [];
    while i < |records|
      invariant 0 <= i <= |records|
      invariant lines == AllLines(records[..i], allocations, quotaPerUnit)
      invariant spoiled == Spoiled(records[..i], allocations)
    {
      assert records[..i + 1][..i] == records[..i];
      var spoils;
      lines, spoils := AppendRecord(lines, records[i], allocations, quotaPerUnit);
      spoiled := spoiled + spoils;
      i := i + 1;
    }
    assert records[..i] == records;
    var recognizedRevenue, recognizedCost, unattributedCost := TotalLines(lines);
    return Success(Report(recognizedRevenue, recognizedCost, recognizedRevenue - recognizedCost, unattributedCost,
                          lines, spoiled));
  }

  method AppendRecord(lines: Lines, r: Record, allocations: seq<Allocation>, quotaPerUnit: real)
    returns (lines': Lines, spoiled: set<FundingSource>)
    requires quotaPerUnit > 0.0
    ensures lines' == RecordLines(lines, r, allocations, quotaPerUnit) && spoiled == SpoiledBy(r, allocations)
  {
    hide Worth, PartOf, Appended, AllocationLines;
    var baseCost := BaseCost(r, quotaPerUnit);
    if r.fromSubscription {
      return Appended(lines, Subscription, r.amount, Worth(r.amount, quotaPerUnit, r.revenueMultiplier), baseCost), {};
    }
    var xs := ForRequest(allocations, r.request);
    if xs == [] {
      return Appended(lines, LegacyUnattributed, r.amount, 0.0, baseCost), {};
    }
    lines', spoiled := AppendAllocations(lines, xs, r.amount, baseCost, quotaPerUnit);
  }

  method TotalLines(lines: Lines) returns (recognizedRevenue: real, recognizedCost: real, unattributedCost: real)
    ensures recognizedCost + unattributedCost == CostOn(lines)
    ensures unattributedCost == Over(lines, UNATTRIBUTED, Cost)
    ensures recognizedRevenue == Over(lines, lines.Keys - UNATTRIBUTED, Revenue)
  {
    recognizedRevenue, recognizedCost, unattributedCost := 0.0, 0.0, 0.0;
    var rest := lines.Keys;
    OnlyPresent(lines);
    while rest != {}
      invariant rest <= lines.Keys
      invariant recognizedCost + unattributedCost + Over(lines, rest, Cost) == CostOn(lines)
      invariant unattributedCost + Over(lines, rest * UNATTRIBUTED, Cost) == Over(lines, UNATTRIBUTED, Cost)
      invariant recognizedRevenue + Over(lines, rest - UNATTRIBUTED, Revenue) ==
                Over(lines, lines.Keys - UNATTRIBUTED, Revenue)
      decreases |rest|
    {
      hide Over;
      var source :| source in rest;
      Without(lines, rest, source, Cost);
      var line := lines[source];
      if source.LegacyUnattributed? || source.Other? {
        Without(lines, rest * UNATTRIBUTED, source, Cost);
        assert rest * UNATTRIBUTED - {source} == (rest - {source}) * UNATTRIBUTED;
        assert rest - UNATTRIBUTED == rest - {source} - UNATTRIBUTED;
        unattributedCost := unattributedCost + line.cost;
      } else {
        Without(lines, rest - UNATTRIBUTED, source, Revenue);
        assert rest * UNATTRIBUTED == (rest - {source}) * UNATTRIBUTED;
        assert rest - UNATTRIBUTED - {source} == rest - {source} - UNATTRIBUTED;
        recognizedRevenue := recognizedRevenue + line.revenue;
        recognizedCost := recognizedCost + line.cost;
      }
      rest := rest - {source};
    }
    NothingOver(lines);
    assert {} * UNATTRIBUTED == {} == {} - UNATTRIBUTED;
  }

  lemma {:induction false} OnlyPresent(lines: Lines)
    ensures Over(lines, lines.Keys * UNATTRIBUTED, Cost) == Over(lines, UNATTRIBUTED, Cost)
  {
  }

  lemma {:induction false} NothingOver(lines: Lines)
    ensures Over(lines, {}, Cost) == 0.0 && Over(lines, {}, Revenue) == 0.0
  {
  }

  // ----- Conservation -----

  /** Every wallet-paid request is allocated in full or not at all, as the lots' allocation leaves it. */
  predicate FullyAllocated(records: seq<Record>, allocations: seq<Allocation>) {
    forall i | 0 <= i < |records| && !records[i].fromSubscription ::
      !IsAllocated(allocations, records[i].request) ||
      TakenFor(allocations, records[i].request) == records[i].amount != 0
  }

  lemma {:induction false} NoRowsUnallocated(allocations: seq<Allocation>, request: string)
    ensures ForRequest(allocations, request) == [] <==> !IsAllocated(allocations, request)
  {
    if allocations != [] {
      var n := |allocations| - 1;
      NoRowsUnallocated(allocations[..n], request);
      assert forall i | 0 <= i < n :: allocations[..n][i] == allocations[i];
    }
  }

  /** Then recognised and unattributed cost, all the report's cost, add up to what the day's requests cost. */
  lemma {:induction false} ReportConservesCost(records: seq<Record>, allocations: seq<Allocation>, quotaPerUnit: real)
    requires quotaPerUnit > 0.0 && FullyAllocated(records, allocations)
    ensures Spoiled(records, allocations) == {}
    ensures CostOn(AllLines(records, allocations, quotaPerUnit)) == TotalCost(records, quotaPerUnit)
  {
    SharesAreCosts(records, allocations, quotaPerUnit);
    AllLinesCost(records, allocations, quotaPerUnit);
  }

  lemma {:induction false} SharesAreCosts(records: seq<Record>, allocations: seq<Allocation>, quotaPerUnit: real)
    requires quotaPerUnit > 0.0 && FullyAllocated(records, allocations)
    ensures Spoiled(records, allocations) == {}
    ensures Shares(records, allocations, quotaPerUnit) == TotalCost(records, quotaPerUnit)
  {
    if records != [] {
      var n := |records| - 1;
      assert forall i | 0 <= i < n :: records[..n][i] == records[i];
      SharesAreCosts(records[..n], allocations, quotaPerUnit);
      NoRowsUnallocated(allocations, records[n].request);
      if records[n].amount != 0 {
        WholePart(BaseCost(records[n], quotaPerUnit), records[n].amount);
      }
    }
  }

  /** Allocating a request's settled amount first in, first out keeps every request fully allocated. */
  lemma {:induction false} AllocatingKeepsFull(records: seq<Record>, lots: seq<Lot>, allocations: seq<Allocation>,
                                               request: string, a: AccountId, amount: int)
    requires LotsBalance(lots, allocations) && amount > 0 && RemainingOf(lots, a) >= amount
    requires !IsAllocated(allocations, request)
    requires FullyAllocated(records, allocations)
    requires forall i | 0 <= i < |records| && Same(records[i].request, request) :: records[i].amount == amount
    ensures FullyAllocated(records, allocations + Allocated(lots, request, a, amount, |lots|))
  {
    hide LotsBalance, RemainingOf, Allocated, TakenFor;
    var all := allocations + Allocated(lots, request, a, amount, |lots|);
    UnallocatedTakesNothing(allocations, request);
    forall i | 0 <= i < |records| && !records[i].fromSubscription
      ensures !IsAllocated(all, records[i].request) || TakenFor(all, records[i].request) == records[i].amount != 0
    {
      var r := records[i].request;
      DrawIsExact(lots, allocations, request, a, amount, r, a);
      if !Same(request, r) && !IsAllocated(allocations, r) {
        OthersUnallocated(lots, allocations, request, a, amount, r);
      }
    }
  }

  lemma {:induction false} OthersUnallocated(lots: seq<Lot>, allocations: seq<Allocation>, request: string,
                                             a: AccountId,
                                             amount: int, r: string)
    requires !IsAllocated(allocations, r) && !Same(request, r)
    ensures !IsAllocated(allocations + Allocated(lots, request, a, amount, |lots|), r)
  {
    var added := Allocated(lots, request, a, amount, |lots|);
    forall k | 0 <= k < |added| ensures !Same(added[k].request, r) {
      AllocatedRows(lots, request, a, amount, |lots|, k);
    }
  }

  // ----- The same for the quota on the lines -----

  function QuotaAt(lines: Lines, source: FundingSource): int {
    if source in lines then lines[source].quota else 0
  }

  function QuotaOn(lines: Lines): int {
    QuotaAt(lines, Topup) + QuotaAt(lines, BlindBox) + QuotaAt(lines, Subscription) +
    QuotaAt(lines, LegacyUnattributed) +
    QuotaAt(lines, Other)
  }

  function TotalAmount(records: seq<Record>): int {
    if records == [] then 0 else TotalAmount(records[..|records| - 1]) + records[|records| - 1].amount
  }

  lemma {:induction false} AppendedQuota(lines: Lines, source: FundingSource, quota: int, revenue: real, cost: real)
    ensures QuotaOn(Appended(lines, source, quota, revenue, cost)) == QuotaOn(lines) + quota
  {
  }

  lemma {:induction false} AllocationLinesQuota(lines: Lines, xs: seq<Allocation>, whole: int, cost: real,
                                                quotaPerUnit: real)
    requires quotaPerUnit > 0.0
    ensures QuotaOn(AllocationLines(lines, xs, whole, cost, quotaPerUnit)) == QuotaOn(lines) + SumOf(xs)
  {
    hide Worth, PartOf, QuotaOn, Appended;
    if xs != [] {
      var n := |xs| - 1;
      AllocationLinesQuota(lines, xs[..n], whole, cost, quotaPerUnit);
      AppendedQuota(AllocationLines(lines, xs[..n], whole, cost, quotaPerUnit), xs[n].source, xs[n].amount,
                    Worth(xs[n].amount, quotaPerUnit, xs[n].multiplier), PartOf(cost, xs[n].amount, whole));
    }
  }

  lemma {:induction false} RecordLinesQuota(lines: Lines, r: Record, allocations: seq<Allocation>, quotaPerUnit: real)
    requires quotaPerUnit > 0.0
    requires !r.fromSubscription && IsAllocated(allocations, r.request) ==> TakenFor(allocations, r.request) == r.amount
    ensures QuotaOn(RecordLines(lines, r, allocations, quotaPerUnit)) == QuotaOn(lines) + r.amount
  {
    hide BaseCost, Worth, PartOf, QuotaOn, Appended, AllocationLines;
    var cost := BaseCost(r, quotaPerUnit);
    var xs := ForRequest(allocations, r.request);
    NoRowsUnallocated(allocations, r.request);
    if r.fromSubscription {
      AppendedQuota(lines, Subscription, r.amount, Worth(r.amount, quotaPerUnit, r.revenueMultiplier), cost);
    } else if xs == [] {
      AppendedQuota(lines, LegacyUnattributed, r.amount, 0.0, cost);
    } else {
      SumForRequest(allocations, r.request);
      AllocationLinesQuota(lines, xs, r.amount, cost, quotaPerUnit);
    }
  }

  /** The lines of the report account for exactly the quota the day's requests settled. */
  lemma {:induction false} ReportConservesQuota(records: seq<Record>, allocations: seq<Allocation>, quotaPerUnit: real)
    requires quotaPerUnit > 0.0 && FullyAllocated(records, allocations)
    ensures QuotaOn(AllLines(records, allocations, quotaPerUnit)) == TotalAmount(records)
  {
    if records != [] {
      hide QuotaOn, RecordLines;
      var n := |records| - 1;
      assert forall i | 0 <= i < n :: records[..n][i] == records[i];
      ReportConservesQuota(records[..n], allocations, quotaPerUnit);
      RecordLinesQuota(AllLines(records[..n], allocations, quotaPerUnit), records[n], allocations, quotaPerUnit);
    } else {
      assert AllLines(records, allocations, quotaPerUnit) == map[];
    }
  }
}
