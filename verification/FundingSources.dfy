/** The daily report source by source: which records and allocations a source's line is made of.  The sums here
    run over the records and the allocations themselves, not over the report's lines. */
module FundingSources {
  import opened LedgerSchema
  import opened FundingLots
  import opened FundingEconomics

  predicate Serves(x: Allocation, request: string, source: FundingSource) {
    Same(x.request, request) && x.source == source
  }

  /** What a request was allocated out of the lots of a source. */
  function QuotaOutOf(allocations: seq<Allocation>, request: string, source: FundingSource): int {
    if allocations == [] then 0 else
      var x := allocations[|allocations| - 1];
      QuotaOutOf(allocations[..|allocations| - 1], request, source) + if Serves(x, request, source) then x.amount else 0
  }

  /** What that was sold for, every allocation at the multiplier of its lot. */
  function RevenueOutOf(allocations: seq<Allocation>, request: string, source: FundingSource, quotaPerUnit: real): real
    requires quotaPerUnit > 0.0
  {
    if allocations == [] then 0.0 else
      var x := allocations[|allocations| - 1];
      RevenueOutOf(allocations[..|allocations| - 1], request, source, quotaPerUnit) +
      if Serves(x, request, source) then x.amount as real / quotaPerUnit * x.multiplier else 0.0
  }

  predicate DrawsOn(allocations: seq<Allocation>, request: string, source: FundingSource) {
    exists i | 0 <= i < |allocations| :: Serves(allocations[i], request, source)
  }

  /** A request paid by a subscription belongs to that source, one without allocations to the unattributed one, and
      any other to the sources it drew on. */
  predicate Concerns(r: Record, allocations: seq<Allocation>, source: FundingSource) {
    if r.fromSubscription then source == Subscription
    else if !IsAllocated(allocations, r.request) then source == LegacyUnattributed
    else DrawsOn(allocations, r.request, source)
  }

  /** The allocations a record's figures are split over: none for a subscription's. */
  predicate Split(r: Record, allocations: seq<Allocation>) {
    !r.fromSubscription && IsAllocated(allocations, r.request)
  }

  function QuotaOf(r: Record, allocations: seq<Allocation>, source: FundingSource): int {
    if Split(r, allocations) then QuotaOutOf(allocations, r.request, source)
    else if Concerns(r, allocations, source) then r.amount else 0
  }

  function RevenueOf(r: Record, allocations: seq<Allocation>, source: FundingSource, quotaPerUnit: real): real
    requires quotaPerUnit > 0.0
  {
    if Split(r, allocations) then RevenueOutOf(allocations, r.request, source, quotaPerUnit)
    else if r.fromSubscription && source.Subscription? then r.amount as real / quotaPerUnit * r.revenueMultiplier
    else 0.0
  }

  /** The request's cost in proportion to what it drew on the source; out of no amount it is no number and counts
      as zero. */
  function CostOf(r: Record, allocations: seq<Allocation>, source: FundingSource, quotaPerUnit: real): real
    requires quotaPerUnit > 0.0
  {
    var cost := r.amount as real / quotaPerUnit * r.costMultiplier;
    if !Split(r, allocations) then if Concerns(r, allocations, source) then cost else 0.0
    else if r.amount == 0 then 0.0
    else cost * (QuotaOutOf(allocations, r.request, source) as real) / r.amount as real
  }

  function QuotaFrom(records: seq<Record>, allocations: seq<Allocation>, source: FundingSource): int {
    if records == [] then 0 else
      var n := |records| - 1;
      QuotaFrom(records[..n], allocations, source) + QuotaOf(records[n], allocations, source)
  }

  function RevenueFrom(records: seq<Record>, allocations: seq<Allocation>, source: FundingSource,
                       quotaPerUnit: real): real
    requires quotaPerUnit > 0.0
  {
    if records == [] then 0.0 else
      var n := |records| - 1;
      RevenueFrom(records[..n], allocations, source, quotaPerUnit) +
      RevenueOf(records[n], allocations, source, quotaPerUnit)
  }

  function CostFrom(records: seq<Record>, allocations: seq<Allocation>, source: FundingSource, quotaPerUnit: real): real
    requires quotaPerUnit > 0.0
  {
    if records == [] then 0.0 else
      var n := |records| - 1;
      CostFrom(records[..n], allocations, source, quotaPerUnit) + CostOf(records[n], allocations, source, quotaPerUnit)
  }

  predicate Reported(records: seq<Record>, allocations: seq<Allocation>, source: FundingSource) {
    exists i | 0 <= i < |records| :: Concerns(records[i], allocations, source)
  }

  // ----- A line, present or not -----

  function LineOf(lines: Lines, source: FundingSource): Line {
    if source in lines then lines[source] else Line(0, 0.0, 0.0)
  }

  function Plus(l: Line, quota: int, revenue: real, cost: real): Line {
    Line(l.quota + quota, l.revenue + revenue, l.cost + cost)
  }

  lemma {:induction false} AppendedLine(lines: Lines, source: FundingSource, quota: int, revenue: real, cost: real,
                                        s: FundingSource)
    ensures var lines' := Appended(lines, source, quota, revenue, cost);
      && (s in lines' <==> s in lines || s == source)
      && LineOf(lines', s) == if s == source then Plus(LineOf(lines, s), quota, revenue, cost) else LineOf(lines, s)
  {
  }

  lemma {:induction false} PlusNothing(l: Line)
    ensures Plus(l, 0, 0.0, 0.0) == l
  {
  }

  lemma {:induction false} PlusBoth(l: Line, quota: int, revenue: real, cost: real, quota': int, revenue': real,
                                    cost': real)
    ensures Plus(Plus(l, quota, revenue, cost), quota', revenue', cost') ==
            Plus(l, quota + quota', revenue + revenue', cost + cost')
  {
  }

  // ----- One request's lines -----

  lemma {:induction false} WorthIs(amount: int, quotaPerUnit: real, multiplier: real)
    requires quotaPerUnit > 0.0
    ensures Worth(amount, quotaPerUnit, multiplier) == amount as real / quotaPerUnit * multiplier
  {
  }

  lemma {:induction false} DrawsOnLast(allocations: seq<Allocation>, request: string, source: FundingSource)
    requires allocations != []
    ensures var n := |allocations| - 1;
      DrawsOn(allocations, request, source) <==>
      DrawsOn(allocations[..n], request, source) || Serves(allocations[n], request, source)
  {
    hide Serves;
    var n := |allocations| - 1;
    assert forall i | 0 <= i < n :: allocations[..n][i] == allocations[i];
  }

  lemma {:induction false} DrawsOnNothing(request: string, source: FundingSource)
    ensures !DrawsOn([], request, source)
  {
  }

  lemma {:induction false} OutOfLast(allocations: seq<Allocation>, request: string, source: FundingSource,
                                     quotaPerUnit: real)
    requires allocations != [] && quotaPerUnit > 0.0
    ensures var n := |allocations| - 1;
      var x := allocations[n];
      var serves := Serves(x, request, source);
      && QuotaOutOf(allocations, request, source) ==
         QuotaOutOf(allocations[..n], request, source) + (if serves then x.amount else 0)
      && RevenueOutOf(allocations, request, source, quotaPerUnit) ==
         RevenueOutOf(allocations[..n], request, source, quotaPerUnit) +
         (if serves then Worth(x.amount, quotaPerUnit, x.multiplier) else 0.0)
  {
    hide Serves;
  }

  lemma {:induction false} ForRequestLast(allocations: seq<Allocation>, request: string)
    requires allocations != []
    ensures var n := |allocations| - 1;
      ForRequest(allocations, request) ==
      if Same(allocations[n].request, request) then ForRequest(allocations[..n], request) + [allocations[n]]
      else ForRequest(allocations[..n], request)
  {
  }

  lemma {:induction false} AllocationLinesLast(lines: Lines, xs: seq<Allocation>, x: Allocation, whole: int, cost: real,
                                               quotaPerUnit: real)
    requires quotaPerUnit > 0.0
    ensures AllocationLines(lines, xs + [x], whole, cost, quotaPerUnit) ==
            Appended(AllocationLines(lines, xs, whole, cost, quotaPerUnit),
                     x.source, x.amount, Worth(x.amount, quotaPerUnit, x.multiplier), PartOf(cost, x.amount, whole))
  {
    hide Appended, Worth, PartOf;
    assert (xs + [x])[..|xs|] == xs;
  }

  /** The lines of a request's allocations, added up over all allocations of all requests. */
  lemma {:induction false} AllocatedLine(lines: Lines, allocations: seq<Allocation>, request: string, whole: int,
                                         cost: real, quotaPerUnit: real, s: FundingSource)
    requires quotaPerUnit > 0.0
    ensures var lines' := AllocationLines(lines, ForRequest(allocations, request), whole, cost, quotaPerUnit);
      && (s in lines' <==> s in lines || DrawsOn(allocations, request, s))
      && LineOf(lines', s) ==
         Plus(LineOf(lines, s), QuotaOutOf(allocations, request, s),
              RevenueOutOf(allocations, request, s, quotaPerUnit),
              PartOf(cost, QuotaOutOf(allocations, request, s), whole))
  {
    hide Worth, PartOf, Appended, LineOf, Plus, DrawsOn;
    if allocations == [] {
      NoPart(cost, whole);
      PlusNothing(LineOf(lines, s));
      DrawsOnNothing(request, s);
    } else {
      hide AllocationLines, ForRequest, QuotaOutOf, RevenueOutOf;
      var n := |allocations| - 1;
      var x := allocations[n];
      var xs := ForRequest(allocations[..n], request);
      AllocatedLine(lines, allocations[..n], request, whole, cost, quotaPerUnit, s);
      DrawsOnLast(allocations, request, s);
      OutOfLast(allocations, request, s, quotaPerUnit);
      ForRequestLast(allocations, request);
      if Same(x.request, request) {
        AllocationLinesLast(lines, xs, x, whole, cost, quotaPerUnit);
        AppendedLine(AllocationLines(lines, xs, whole, cost, quotaPerUnit), x.source, x.amount,
                     Worth(x.amount, quotaPerUnit, x.multiplier), PartOf(cost, x.amount, whole), s);
        if x.source == s {
          var q := QuotaOutOf(allocations[..n], request, s);
          PlusBoth(LineOf(lines, s), q, RevenueOutOf(allocations[..n], request, s, quotaPerUnit),
                   PartOf(cost, q, whole), x.amount, Worth(x.amount, quotaPerUnit, x.multiplier),
                   PartOf(cost, x.amount, whole));
          PartsAdd(cost, q, x.amount, whole);
        }
      }
    }
  }

  lemma {:induction false} CostIs(r: Record, allocations: seq<Allocation>, s: FundingSource, quotaPerUnit: real)
    requires quotaPerUnit > 0.0
    ensures var cost := BaseCost(r, quotaPerUnit);
      CostOf(r, allocations, s, quotaPerUnit) ==
      if Split(r, allocations) then PartOf(cost, QuotaOutOf(allocations, r.request, s), r.amount)
      else if Concerns(r, allocations, s) then cost else 0.0
  {
    hide Concerns, Split, QuotaOutOf;
    WorthIs(r.amount, quotaPerUnit, r.costMultiplier);
  }

  lemma {:induction false} RevenueIs(r: Record, allocations: seq<Allocation>, s: FundingSource, quotaPerUnit: real)
    requires quotaPerUnit > 0.0
    ensures RevenueOf(r, allocations, s, quotaPerUnit) ==
      if Split(r, allocations) then RevenueOutOf(allocations, r.request, s, quotaPerUnit)
      else if r.fromSubscription && s == Subscription then Worth(r.amount, quotaPerUnit, r.revenueMultiplier) else 0.0
  {
    hide Split, RevenueOutOf;
    WorthIs(r.amount, quotaPerUnit, r.revenueMultiplier);
  }

  lemma {:induction false} RecordLine(lines: Lines, r: Record, allocations: seq<Allocation>, quotaPerUnit: real,
                                      s: FundingSource)
    requires quotaPerUnit > 0.0
    ensures var lines' := RecordLines(lines, r, allocations, quotaPerUnit);
      && (s in lines' <==> s in lines || Concerns(r, allocations, s))
      && LineOf(lines', s) ==
         Plus(LineOf(lines, s), QuotaOf(r, allocations, s), RevenueOf(r, allocations, s, quotaPerUnit),
              CostOf(r, allocations, s, quotaPerUnit))
  {
    hide Worth, BaseCost, RevenueOf, CostOf, PartOf, Appended, LineOf, Plus, DrawsOn, AllocationLines, IsAllocated,
         QuotaOutOf, RevenueOutOf;
    var cost := BaseCost(r, quotaPerUnit);
    RevenueIs(r, allocations, s, quotaPerUnit);
    CostIs(r, allocations, s, quotaPerUnit);
    NoRowsUnallocated(allocations, r.request);
    PlusNothing(LineOf(lines, s));
    if r.fromSubscription {
      AppendedLine(lines, Subscription, r.amount, Worth(r.amount, quotaPerUnit, r.revenueMultiplier), cost, s);
    } else if !IsAllocated(allocations, r.request) {
      AppendedLine(lines, LegacyUnattributed, r.amount, 0.0, cost, s);
    } else {
      AllocatedLine(lines, allocations, r.request, r.amount, cost, quotaPerUnit, s);
    }
  }

  // ----- The report -----

  lemma {:induction false} ReportedLast(records: seq<Record>, allocations: seq<Allocation>, s: FundingSource)
    requires records != []
    ensures var n := |records| - 1;
      Reported(records, allocations, s) <==>
      Reported(records[..n], allocations, s) || Concerns(records[n], allocations, s)
  {
    hide Concerns;
    var n := |records| - 1;
    assert forall i | 0 <= i < n :: records[..n][i] == records[i];
  }

  /** A source is reported exactly when a record concerns it, and its line is the sum over the day's records. */
  lemma {:induction false} LinePerSource(records: seq<Record>, allocations: seq<Allocation>, quotaPerUnit: real,
                                         s: FundingSource)
    requires quotaPerUnit > 0.0
    ensures var lines := AllLines(records, allocations, quotaPerUnit);
      && (s in lines <==> Reported(records, allocations, s))
      && LineOf(lines, s) ==
         Line(QuotaFrom(records, allocations, s), RevenueFrom(records, allocations, s, quotaPerUnit),
              CostFrom(records, allocations, s, quotaPerUnit))
  {
    hide RecordLines, Concerns, QuotaOf, RevenueOf, CostOf, Reported;
    if records == [] {
      NothingReported(allocations, s);
    } else {
      var n := |records| - 1;
      LinePerSource(records[..n], allocations, quotaPerUnit, s);
      RecordLine(AllLines(records[..n], allocations, quotaPerUnit), records[n], allocations, quotaPerUnit, s);
      ReportedLast(records, allocations, s);
    }
  }

  lemma {:induction false} NothingReported(allocations: seq<Allocation>, s: FundingSource)
    ensures !Reported([], allocations, s)
  {
  }

  /** The report's totals: what is recognised comes from the attributed sources, the rest of the cost from the
      two others. */
  lemma {:induction false} TotalsPerSource(records: seq<Record>, allocations: seq<Allocation>, quotaPerUnit: real)
    requires quotaPerUnit > 0.0
    ensures var lines := AllLines(records, allocations, quotaPerUnit);
      && Over(lines, UNATTRIBUTED, Cost) ==
         CostFrom(records, allocations, LegacyUnattributed, quotaPerUnit) +
         CostFrom(records, allocations, Other, quotaPerUnit)
      && CostOn(lines) - Over(lines, UNATTRIBUTED, Cost) ==
         CostFrom(records, allocations, Topup, quotaPerUnit) + CostFrom(records, allocations, BlindBox, quotaPerUnit) +
         CostFrom(records, allocations, Subscription, quotaPerUnit)
      && Over(lines, lines.Keys - UNATTRIBUTED, Revenue) ==
         RevenueFrom(records, allocations, Topup, quotaPerUnit) +
         RevenueFrom(records, allocations, BlindBox, quotaPerUnit) +
         RevenueFrom(records, allocations, Subscription, quotaPerUnit)
  {
    hide AllLines, CostFrom, RevenueFrom, Reported;
    LinePerSource(records, allocations, quotaPerUnit, Topup);
    LinePerSource(records, allocations, quotaPerUnit, BlindBox);
    LinePerSource(records, allocations, quotaPerUnit, Subscription);
    LinePerSource(records, allocations, quotaPerUnit, LegacyUnattributed);
    LinePerSource(records, allocations, quotaPerUnit, Other);
  }

  /** A source's figures are no number exactly when a record without an amount drew on it. */
  lemma {:induction false} SpoiledSources(records: seq<Record>, allocations: seq<Allocation>, s: FundingSource)
    ensures s in Spoiled(records, allocations) <==>
      exists i | 0 <= i < |records| ::
        !records[i].fromSubscription && records[i].amount == 0 && DrawsOn(allocations, records[i].request, s)
  {
    if records != [] {
      hide DrawsOn, SpoiledBy;
      var n := |records| - 1;
      SpoiledSources(records[..n], allocations, s);
      assert forall i | 0 <= i < n :: records[..n][i] == records[i];
      SpoiledByRecord(records[n], allocations, s);
    }
  }

  lemma {:induction false} SpoiledByRecord(r: Record, allocations: seq<Allocation>, s: FundingSource)
    ensures s in SpoiledBy(r, allocations) <==>
      !r.fromSubscription && r.amount == 0 && DrawsOn(allocations, r.request, s)
  {
    hide DrawsOn;
    SourcesDrawnOn(allocations, r.request, s);
  }

  lemma {:induction false} SourcesDrawnOn(allocations: seq<Allocation>, request: string, s: FundingSource)
    ensures DrawsOn(allocations, request, s) <==> exists x | x in ForRequest(allocations, request) :: x.source == s
  {
    if allocations == [] {
      DrawsOnNothing(request, s);
    } else {
      hide DrawsOn, ForRequest;
      var n := |allocations| - 1;
      SourcesDrawnOn(allocations[..n], request, s);
      DrawsOnLast(allocations, request, s);
      ForRequestLast(allocations, request);
      var x := allocations[n];
      if Serves(x, request, s) {
        assert x in ForRequest(allocations, request);
      }
    }
  }
}
