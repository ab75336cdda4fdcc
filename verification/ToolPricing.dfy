/** Tool prices: an index over a price table, looked up by tool and by the longest model prefix. */
module ToolPricing {
  import opened LedgerSchema

  type Table = map<string, real>

  // ----- Reading a key of the table -----

  function ColonFrom(key: string, i: nat): (r: Option<nat>)
    requires i <= |key|
    ensures r.Some? ==> i <= r.value < |key| && key[r.value] == ':' && forall j | i <= j < r.value :: key[j] != ':'
    ensures r.None? ==> forall j | i <= j < |key| :: key[j] != ':'
    decreases |key| - i
  {
    if i == |key| then None else if key[i] == ':' then Some(i) else ColonFrom(key, i + 1)
  }

  function TrimStar(text: string): string {
    if |text| > 0 && text[|text| - 1] == '*' then text[..|text| - 1] else text
  }

  /** "tool" is the tool's default price; "tool:model" and "tool:prefix*" are overrides, read alike. */
  datatype Row = Default | Override(tool: string, prefix: string)

  function Parse(key: string): Row {
    match ColonFrom(key, 0)
    case None => Default
    case Some(i) => Override(key[..i], TrimStar(key[i + 1..]))
  }

  // ----- What the price should be -----

  /** A key without a colon is a tool's default; what follows the first colon is a model, or with a star at its end the
      beginning of one, read as the same prefix. */
  lemma {:induction false} KeysParsed(tool: string, model: string)
    requires ':' !in tool
    ensures Parse(tool) == Default
    ensures Parse(tool + ":" + model + "*") == Override(tool, model)
    ensures (model == "" || model[|model| - 1] != '*') ==> Parse(tool + ":" + model) == Override(tool, model)
  {
    ColonAfter(tool, model, 0);
    ColonAfter(tool, model + "*", 0);
    assert tool + ":" + (model + "*") == tool + ":" + model + "*";
    assert (tool + ":" + model)[|tool| + 1..] == model;
    assert (tool + ":" + (model + "*"))[|tool| + 1..] == model + "*";
    assert (tool + ":" + model)[..|tool|] == tool == (tool + ":" + (model + "*"))[..|tool|];
    NoColon(tool);
  }

  lemma {:induction false} NoColon(tool: string)
    requires ':' !in tool
    ensures ColonFrom(tool, 0).None?
  {
  }

  lemma {:induction false} ColonAfter(tool: string, rest: string, i: nat)
    requires ':' !in tool && i <= |tool|
    ensures ColonFrom(tool + ":" + rest, i) == Some(|tool|)
    decreases |tool| - i
  {
    var key := tool + ":" + rest;
    if i < |tool| {
      assert key[i] == tool[i];
      ColonAfter(tool, rest, i + 1);
    }
  }

  predicate Matches(table: Table, tool: string, model: string, key: string) {
    key in table && Parse(key).Override? && Parse(key).tool == tool && Parse(key).prefix <= model
  }

  /** The override of the longest prefix of the model. */
  ghost predicate Longest(table: Table, tool: string, model: string, key: string) {
    Matches(table, tool, model, key) &&
    forall k | Matches(table, tool, model, k) :: |Parse(k).prefix| <= |Parse(key).prefix|
  }

  ghost predicate Overridden(table: Table, tool: string, model: string) {
    model != "" && exists key :: Matches(table, tool, model, key)
  }

  function DefaultPrice(table: Table, tool: string): real {
    if tool in table && Parse(tool).Default? then table[tool] else 0.0
  }

  /** A price the table gives: the longest matching override's, else the tool's default, else nothing. */
  ghost predicate Prices(table: Table, tool: string, model: string, price: real) {
    if Overridden(table, tool, model) then exists key :: Longest(table, tool, model, key) && price == table[key]
    else price == DefaultPrice(table, tool)
  }

  // ----- The index -----

  datatype PrefixEntry = PrefixEntry(prefix: string, price: real)

  datatype Index = Index(defaults: Table, prefixes: map<string, seq<PrefixEntry>>)

  predicate LongestFirst(entries: seq<PrefixEntry>) {
    forall i, j | 0 <= i < j < |entries| :: |entries[i].prefix| >= |entries[j].prefix|
  }

  predicate Has(idx: Index, tool: string, e: PrefixEntry) {
    tool in idx.prefixes && e in idx.prefixes[tool]
  }

  ghost predicate IsRow(table: Table, tool: string, e: PrefixEntry, key: string) {
    key in table && Parse(key) == Override(tool, e.prefix) && table[key] == e.price
  }

  /** The index holds exactly the rows of the table with the given keys. */
  ghost predicate Covers(table: Table, keys: set<string>, idx: Index) {
    && (forall key | key in keys && key in table && Parse(key).Default? ::
          key in idx.defaults && idx.defaults[key] == table[key])
    && (forall key | key in keys && key in table && Parse(key).Override? ::
          Has(idx, Parse(key).tool, PrefixEntry(Parse(key).prefix, table[key])))
    && (forall tool | tool in idx.defaults ::
          tool in keys && tool in table && Parse(tool).Default? && idx.defaults[tool] == table[tool])
    && (forall tool, e | Has(idx, tool, e) :: exists key :: key in keys && IsRow(table, tool, e, key))
  }

  ghost predicate IsIndex(table: Table, idx: Index) {
    Covers(table, table.Keys, idx) && forall tool | tool in idx.prefixes :: LongestFirst(idx.prefixes[tool])
  }

  // ----- Looking up -----

  function FirstMatch(entries: seq<PrefixEntry>, model: string): Option<real> {
    if entries == [] then None
    else if entries[0].prefix <= model then Some(entries[0].price)
    else FirstMatch(entries[1..], model)
  }

  function Lookup(idx: Index, tool: string, model: string): real {
    var found := if tool in idx.prefixes && model != "" then FirstMatch(idx.prefixes[tool], model) else None;
    if found.Some? then found.value else if tool in idx.defaults then idx.defaults[tool] else 0.0
  }

  method GetPriceForModel(idx: Index, tool: string, model: string) returns (price: real)
    ensures price == Lookup(idx, tool, model)
  {
    if tool in idx.prefixes && model != "" {
      var entries := idx.prefixes[tool];
      var i := 0;
      while i < |entries|
        invariant 0 <= i <= |entries|
        invariant FirstMatch(entries, model) == FirstMatch(entries[i..], model)
      {
        if entries[i].prefix <= model {
          return entries[i].price;
        }
        assert entries[i..][1..] == entries[i + 1..];
        i := i + 1;
      }
    }
    return if tool in idx.defaults then idx.defaults[tool] else 0.0;
  }

  lemma {:induction false} FirstMatchIsFirst(entries: seq<PrefixEntry>, model: string)
    ensures match FirstMatch(entries, model)
            case None => forall i | 0 <= i < |entries| :: !(entries[i].prefix <= model)
            case Some(price) =>
              exists i | 0 <= i < |entries| ::
                entries[i].prefix <= model && price == entries[i].price &&
                forall j | 0 <= j < i :: !(entries[j].prefix <= model)
  {
    if entries != [] && !(entries[0].prefix <= model) {
      FirstMatchIsFirst(entries[1..], model);
      var r := FirstMatch(entries[1..], model);
      if r.Some? {
        var i :| 0 <= i < |entries[1..]| && entries[1..][i].prefix <= model && r.value == entries[1..][i].price &&
                 forall j | 0 <= j < i :: !(entries[1..][j].prefix <= model);
        assert entries[i + 1] == entries[1..][i];
        forall j | 0 <= j < i + 1 ensures !(entries[j].prefix <= model) {
          if j > 0 {
            assert entries[j] == entries[1..][j - 1];
          }
        }
      } else {
        forall i | 0 <= i < |entries| ensures !(entries[i].prefix <= model) {
          if i > 0 {
            assert entries[i] == entries[1..][i - 1];
          }
        }
      }
    }
  }

  /** Whatever order the rebuild visited the table in, the lookup answers with a price the table gives. */
  lemma {:induction false} LookupIsLongestPrefix(table: Table, idx: Index, tool: string, model: string)
    requires IsIndex(table, idx)
    ensures Prices(table, tool, model, Lookup(idx, tool, model))
  {
    hide Parse, TrimStar;
    if Overridden(table, tool, model) {
      var key :| Matches(table, tool, model, key);
      assert Has(idx, tool, PrefixEntry(Parse(key).prefix, table[key]));
      var entries := idx.prefixes[tool];
      FirstMatchIsFirst(entries, model);
      FirstIsLongest(table, idx, tool, model);
    } else if tool in idx.prefixes && model != "" {
      var entries := idx.prefixes[tool];
      FirstMatchIsFirst(entries, model);
      forall i | 0 <= i < |entries| ensures !(entries[i].prefix <= model) {
        assert Has(idx, tool, entries[i]);
        var key :| key in table.Keys && IsRow(table, tool, entries[i], key);
        assert !Matches(table, tool, model, key);
      }
    }
  }

  /** A matching row stands no earlier than the first matching entry, so its prefix is no longer. */
  lemma {:induction false} NotBefore(table: Table, idx: Index, tool: string, model: string, i: nat, key: string)
    requires IsIndex(table, idx) && tool in idx.prefixes && i < |idx.prefixes[tool]| && Matches(table, tool, model, key)
    requires forall j | 0 <= j < i :: !(idx.prefixes[tool][j].prefix <= model)
    ensures |Parse(key).prefix| <= |idx.prefixes[tool][i].prefix|
  {
    hide Parse, TrimStar;
    var e := PrefixEntry(Parse(key).prefix, table[key]);
    assert Has(idx, tool, e);
    var j :| 0 <= j < |idx.prefixes[tool]| && idx.prefixes[tool][j] == e;
    assert i <= j;
  }

  lemma {:induction false} FirstIsLongest(table: Table, idx: Index, tool: string, model: string)
    requires IsIndex(table, idx) && tool in idx.prefixes
    requires exists key :: Matches(table, tool, model, key)
    ensures FirstMatch(idx.prefixes[tool], model).Some?
    ensures exists key :: Longest(table, tool, model, key) && table[key] == FirstMatch(idx.prefixes[tool], model).value
  {
    hide Parse, TrimStar, FirstMatch, DefaultPrice;
    var entries := idx.prefixes[tool];
    FirstMatchIsFirst(entries, model);
    var k :| Matches(table, tool, model, k);
    assert Has(idx, tool, PrefixEntry(Parse(k).prefix, table[k]));
    var price := FirstMatch(entries, model).value;
    var i :| 0 <= i < |entries| && entries[i].prefix <= model && price == entries[i].price &&
             forall j | 0 <= j < i :: !(entries[j].prefix <= model);
    assert Has(idx, tool, entries[i]);
    var key :| key in table.Keys && IsRow(table, tool, entries[i], key);
    forall other | Matches(table, tool, model, other) ensures |Parse(other).prefix| <= |Parse(key).prefix| {
      NotBefore(table, idx, tool, model, i, other);
    }
    assert Longest(table, tool, model, key);
  }

  // ----- Rebuilding the index -----

  /** The row under one key enters the index. */
  function AddRow(idx: Index, key: string, price: real): Index {
    match Parse(key)
    case Default => idx.(defaults := idx.defaults[key := price])
    case Override(tool, prefix) =>
      idx.(prefixes := idx.prefixes[tool := EntriesOf(idx, tool) + [PrefixEntry(prefix, price)]])
  }

  function EntriesOf(idx: Index, tool: string): seq<PrefixEntry> {
    if tool in idx.prefixes then idx.prefixes[tool] else []
  }

  predicate AreKeys(table: Table, order: seq<string>) {
    forall i | 0 <= i < |order| :: order[i] in table
  }

  /** The rows, in the order the table was visited in. */
  function Collected(table: Table, order: seq<string>): Index
    requires AreKeys(table, order)
  {
    if order == [] then Index(map[], map[])
    else
      var last := |order| - 1;
      AddRow(Collected(table, order[..last]), order[last], table[order[last]])
  }

  /** The entry goes before the first one of a shorter prefix. */
  function Insert(sorted: seq<PrefixEntry>, e: PrefixEntry): seq<PrefixEntry> {
    if sorted == [] || |sorted[0].prefix| < |e.prefix| then [e] + sorted else [sorted[0]] + Insert(sorted[1..], e)
  }

  /** What sorting may make of the entries: longest prefixes first, those of one length in any order. */
  ghost predicate MaySort(entries: seq<PrefixEntry>, sorted: seq<PrefixEntry>) {
    LongestFirst(sorted) && multiset(sorted) == multiset(entries)
  }

  /** One such outcome, that keeps entries of one length in the order they were given. */
  function StablySorted(entries: seq<PrefixEntry>): seq<PrefixEntry> {
    if entries == [] then [] else Insert(StablySorted(entries[..|entries| - 1]), entries[|entries| - 1])
  }

  /** The order visits every key of the table once. */
  ghost predicate Enumerates(order: seq<string>, table: Table) {
    && AreKeys(table, order) && (forall i, j | 0 <= i < j < |order| :: order[i] != order[j])
    && forall key | key in table :: key in order
  }

  function StablyOrdered(idx: Index): Index {
    idx.(prefixes := map tool | tool in idx.prefixes :: StablySorted(idx.prefixes[tool]))
  }

  /** What rebuilding may yield: the rows in whatever order the table was visited, sorted in whatever way. */
  ghost predicate MayRebuild(table: Table, idx: Index) {
    exists order :: Enumerates(order, table) && MayOrder(Collected(table, order), idx)
  }

  ghost predicate MayOrder(rows: Index, idx: Index) {
    && idx.defaults == rows.defaults && idx.prefixes.Keys == rows.prefixes.Keys
    && forall tool | tool in rows.prefixes :: MaySort(rows.prefixes[tool], idx.prefixes[tool])
  }

  /** One such outcome: the table visited in the given order and sorted stably. */
  function StablyRebuilt(table: Table, order: seq<string>): Index
    requires AreKeys(table, order)
  {
    StablyOrdered(Collected(table, order))
  }

  method InsertEntry(sorted: seq<PrefixEntry>, e: PrefixEntry) returns (sorted': seq<PrefixEntry>)
    ensures sorted' == Insert(sorted, e)
  {
    hide Insert;
    var n := 0;
    assert sorted[0..] == sorted && sorted[..0] == [];
    while n < |sorted| && |sorted[n].prefix| >= |e.prefix|
      invariant 0 <= n <= |sorted|
      invariant Insert(sorted, e) == sorted[..n] + Insert(sorted[n..], e)
    {
      InsertLater(sorted, e, n);
      assert sorted[..n + 1] == sorted[..n] + [sorted[n]];
      n := n + 1;
    }
    InsertHere(sorted[n..], e);
    sorted' := sorted[..n] + [e] + sorted[n..];
  }

  lemma {:induction false} InsertLater(sorted: seq<PrefixEntry>, e: PrefixEntry, n: nat)
    requires n < |sorted| && |sorted[n].prefix| >= |e.prefix|
    ensures Insert(sorted[n..], e) == [sorted[n]] + Insert(sorted[n + 1..], e)
  {
    assert sorted[n..][1..] == sorted[n + 1..];
  }

  lemma {:induction false} InsertHere(sorted: seq<PrefixEntry>, e: PrefixEntry)
    requires sorted == [] || |sorted[0].prefix| < |e.prefix|
    ensures Insert(sorted, e) == [e] + sorted
  {
  }

  method SortLongestFirst(entries: seq<PrefixEntry>) returns (sorted: seq<PrefixEntry>)
    ensures MaySort(entries, sorted)
  {
    sorted := [];
    var i := 0;
    while i < |entries|
      invariant 0 <= i <= |entries|
      invariant sorted == StablySorted(entries[..i])
    {
      assert entries[..i + 1][..i] == entries[..i];
      sorted := InsertEntry(sorted, entries[i]);
      i := i + 1;
    }
    assert entries[..i] == entries;
    SortedStably(entries);
  }

  method CollectRows(table: Table) returns (idx: Index, ghost order: seq<string>)
    ensures Enumerates(order, table) && idx == Collected(table, order)
  {
    idx := Index(map[], map[]);
    order := [];
    var rest := table.Keys;
    while rest != {}
      invariant rest <= table.Keys && AreKeys(table, order) && idx == Collected(table, order)
      invariant (forall i | 0 <= i < |order| :: order[i] !in rest)
      invariant forall i, j | 0 <= i < j < |order| :: order[i] != order[j]
      invariant forall key | key in table && key !in rest :: key in order
      decreases |rest|
    {
      var key :| key in rest;
      ghost var visited := order + [key];
      assert visited[..|order|] == order && visited[|order|] == key;
      assert forall k :: k in visited <==> k in order || k == key;
      idx := AddRow(idx, key, table[key]);
      order := visited;
      rest := rest - {key};
    }
  }

  /** The index of the defaults, the default overrides and the configured prices, later ones winning. */
  method RebuildIndex(defaults: Table, overrides: Table, configured: Table) returns (idx: Index)
    ensures var table := defaults + overrides + configured;
      MayRebuild(table, idx) && IsIndex(table, idx)
  {
    var table := defaults + overrides + configured;
    ghost var order;
    idx, order := CollectRows(table);
    idx := OrderRows(idx);
    RebuiltIsIndex(table, idx);
  }

  method OrderRows(rows: Index) returns (idx: Index)
    ensures MayOrder(rows, idx)
  {
    hide MaySort;
    idx := rows;
    var tools := idx.prefixes.Keys;
    while tools != {}
      invariant tools <= idx.prefixes.Keys && idx.defaults == rows.defaults && idx.prefixes.Keys == rows.prefixes.Keys
      invariant forall tool | tool in idx.prefixes ::
        if tool in tools then idx.prefixes[tool] == rows.prefixes[tool]
        else MaySort(rows.prefixes[tool], idx.prefixes[tool])
      decreases |tools|
    {
      var tool :| tool in tools;
      var sorted := SortLongestFirst(idx.prefixes[tool]);
      idx := idx.(prefixes := idx.prefixes[tool := sorted]);
      tools := tools - {tool};
    }
  }

  // ----- What rebuilding yields -----

  lemma {:induction false} InsertedInOrder(sorted: seq<PrefixEntry>, e: PrefixEntry)
    requires LongestFirst(sorted)
    ensures LongestFirst(Insert(sorted, e)) && forall x :: x in Insert(sorted, e) <==> x in sorted || x == e
  {
    if sorted != [] && |sorted[0].prefix| >= |e.prefix| {
      var rest := sorted[1..];
      assert sorted == [sorted[0]] + rest;
      InsertedInOrder(rest, e);
      forall x | x in Insert(rest, e) ensures |sorted[0].prefix| >= |x.prefix| {
      }
      PrependKeepsOrder(sorted[0], Insert(rest, e));
    } else if sorted != [] {
      PrependKeepsOrder(e, sorted);
    }
  }

  lemma {:induction false} PrependKeepsOrder(e: PrefixEntry, sorted: seq<PrefixEntry>)
    requires LongestFirst(sorted) && forall x | x in sorted :: |e.prefix| >= |x.prefix|
    ensures LongestFirst([e] + sorted)
  {
    forall i, j | 0 <= i < j < |[e] + sorted| ensures |([e] + sorted)[i].prefix| >= |([e] + sorted)[j].prefix| {
      assert ([e] + sorted)[j] == sorted[j - 1];
    }
  }

  lemma {:induction false} InsertedElements(sorted: seq<PrefixEntry>, e: PrefixEntry)
    ensures multiset(Insert(sorted, e)) == multiset(sorted) + multiset{e}
  {
    if sorted != [] && |sorted[0].prefix| >= |e.prefix| {
      InsertedElements(sorted[1..], e);
      assert sorted == [sorted[0]] + sorted[1..];
    }
  }

  lemma {:induction false} SortedStably(entries: seq<PrefixEntry>)
    ensures MaySort(entries, StablySorted(entries))
  {
    if entries != [] {
      var n := |entries| - 1;
      SortedStably(entries[..n]);
      InsertedInOrder(StablySorted(entries[..n]), entries[n]);
      InsertedElements(StablySorted(entries[..n]), entries[n]);
      assert entries == entries[..n] + [entries[n]];
    }
  }

  lemma {:induction false} SortedElements(entries: seq<PrefixEntry>, sorted: seq<PrefixEntry>)
    requires MaySort(entries, sorted)
    ensures forall e :: e in sorted <==> e in entries
  {
    assert forall e :: e in sorted <==> e in multiset(sorted);
    assert forall e :: e in entries <==> e in multiset(entries);
  }

  lemma {:induction false} AddedRowCovered(table: Table, keys: set<string>, idx: Index, key: string)
    requires Covers(table, keys, idx) && key in table
    ensures Covers(table, keys + {key}, AddRow(idx, key, table[key]))
  {
    hide TrimStar;
    var idx' := AddRow(idx, key, table[key]);
    forall tool, e | Has(idx', tool, e) ensures exists k :: k in keys + {key} && IsRow(table, tool, e, k) {
      if Has(idx, tool, e) {
        var k :| k in keys && IsRow(table, tool, e, k);
        assert k in keys + {key};
      } else {
        assert IsRow(table, tool, e, key) && key in keys + {key};
      }
    }
    forall k | k in keys + {key} && k in table && Parse(k).Override?
      ensures Has(idx', Parse(k).tool, PrefixEntry(Parse(k).prefix, table[k]))
    {
      if k != key {
        assert Has(idx, Parse(k).tool, PrefixEntry(Parse(k).prefix, table[k]));
      }
    }
  }

  function Visited(order: seq<string>): set<string> {
    set key | key in order
  }

  lemma {:induction false} CollectedCovers(table: Table, order: seq<string>)
    requires AreKeys(table, order)
    ensures Covers(table, Visited(order), Collected(table, order))
  {
    hide Covers, AddRow;
    if order == [] {
      NothingCovered(table);
      assert Visited(order) == {};
    } else {
      var last := |order| - 1;
      CollectedCovers(table, order[..last]);
      AddedRowCovered(table, Visited(order[..last]), Collected(table, order[..last]), order[last]);
      assert order == order[..last] + [order[last]];
      assert Visited(order) == Visited(order[..last]) + {order[last]};
    }
  }

  lemma {:induction false} NothingCovered(table: Table)
    ensures Covers(table, {}, Index(map[], map[]))
  {
  }

  /** Two indexes with the same elements cover the same rows. */
  lemma {:induction false} SameRows(table: Table, keys: set<string>, idx: Index, idx': Index)
    requires Covers(table, keys, idx) && idx'.defaults == idx.defaults
    requires forall tool, e :: Has(idx', tool, e) <==> Has(idx, tool, e)
    ensures Covers(table, keys, idx')
  {
    hide Parse, TrimStar, Has;
  }

  /** Whatever order the table was visited in and however it was sorted, the rebuild is an index of it. */
  lemma {:induction false} RebuiltIsIndex(table: Table, idx: Index)
    requires MayRebuild(table, idx)
    ensures IsIndex(table, idx)
  {
    hide LongestFirst, Collected, Covers;
    var order :| Enumerates(order, table) && MayOrder(Collected(table, order), idx);
    var rows := Collected(table, order);
    CollectedCovers(table, order);
    assert Visited(order) == table.Keys;
    forall tool | tool in rows.prefixes ensures forall e :: e in idx.prefixes[tool] <==> e in rows.prefixes[tool] {
      SortedElements(rows.prefixes[tool], idx.prefixes[tool]);
    }
    SameRows(table, table.Keys, rows, idx);
  }

  lemma {:induction false} StablyMayRebuild(table: Table, order: seq<string>)
    requires Enumerates(order, table)
    ensures MayRebuild(table, StablyRebuilt(table, order))
  {
    hide MaySort, StablySorted, Collected;
    var rows := Collected(table, order);
    forall tool | tool in rows.prefixes ensures MaySort(rows.prefixes[tool], StablySorted(rows.prefixes[tool])) {
      SortedStably(rows.prefixes[tool]);
    }
    assert MayOrder(rows, StablyRebuilt(table, order));
  }

  /** The first of the longest matching entries. */
  function Best(entries: seq<PrefixEntry>, model: string): Option<PrefixEntry> {
    if entries == [] then None
    else
      var n := |entries| - 1;
      Better(Best(entries[..n], model), entries[n], model)
  }

  /** A later entry wins only with a longer prefix. */
  function Better(best: Option<PrefixEntry>, e: PrefixEntry, model: string): Option<PrefixEntry> {
    if e.prefix <= model && (best.None? || |best.value.prefix| < |e.prefix|) then Some(e) else best
  }

  function FirstEntry(entries: seq<PrefixEntry>, model: string): Option<PrefixEntry> {
    if entries == [] then None
    else if entries[0].prefix <= model then Some(entries[0])
    else FirstEntry(entries[1..], model)
  }

  lemma {:induction false} InsertedFirst(sorted: seq<PrefixEntry>, e: PrefixEntry, model: string)
    requires LongestFirst(sorted)
    ensures FirstEntry(Insert(sorted, e), model) == Better(FirstEntry(sorted, model), e, model)
  {
    if sorted != [] && |sorted[0].prefix| >= |e.prefix| {
      InsertedFirst(sorted[1..], e, model);
    } else {
      FirstIsNoLonger(sorted, model);
      assert ([e] + sorted)[1..] == sorted;
    }
  }

  lemma {:induction false} FirstIsNoLonger(sorted: seq<PrefixEntry>, model: string)
    requires LongestFirst(sorted)
    ensures FirstEntry(sorted, model).Some? ==>
      sorted != [] && |FirstEntry(sorted, model).value.prefix| <= |sorted[0].prefix|
  {
    if sorted != [] && !(sorted[0].prefix <= model) {
      FirstIsNoLonger(sorted[1..], model);
    }
  }

  lemma {:induction false} SortedFirst(entries: seq<PrefixEntry>, model: string)
    ensures FirstEntry(StablySorted(entries), model) == Best(entries, model)
  {
    if entries != [] {
      var n := |entries| - 1;
      SortedFirst(entries[..n], model);
      SortedStably(entries[..n]);
      InsertedFirst(StablySorted(entries[..n]), entries[n], model);
    }
  }

  lemma {:induction false} FirstMatchHasPrice(entries: seq<PrefixEntry>, model: string)
    ensures var e := FirstEntry(entries, model);
      FirstMatch(entries, model) == if e.Some? then Some(e.value.price) else None
  {
    if entries != [] && !(entries[0].prefix <= model) {
      FirstMatchHasPrice(entries[1..], model);
    }
  }

  /** The best entry after the first i keys: of the longest prefix from its first row on. */
  lemma {:induction false} BestSoFar(table: Table, order: seq<string>, n: nat, i: nat, tool: string, model: string)
    requires AreKeys(table, order) && n < |order| && i <= |order|
    requires Longest(table, tool, model, order[n]) && forall m | 0 <= m < n :: !Longest(table, tool, model, order[m])
    ensures var best := Best(EntriesOf(Collected(table, order[..i]), tool), model);
      if i <= n then best.None? || |best.value.prefix| < |Parse(order[n]).prefix|
      else best == Some(PrefixEntry(Parse(order[n]).prefix, table[order[n]]))
  {
    hide Parse, TrimStar, Collected;
    if i > 0 {
      BestSoFar(table, order, n, i - 1, tool, model);
      var key := order[i - 1];
      CollectedNext(table, order, i - 1);
      RowIsBetter(Collected(table, order[..i - 1]), key, table[key], tool, model);
      if Matches(table, tool, model, key) && !Longest(table, tool, model, key) {
        ShorterThanLongest(table, tool, model, order[n], key);
      }
    } else {
      NothingCollected(table, order);
    }
  }

  lemma {:induction false} NothingCollected(table: Table, order: seq<string>)
    ensures AreKeys(table, order[..0]) && Collected(table, order[..0]) == Index(map[], map[])
  {
  }

  lemma {:induction false} CollectedNext(table: Table, order: seq<string>, i: nat)
    requires AreKeys(table, order) && i < |order|
    ensures Collected(table, order[..i + 1]) == AddRow(Collected(table, order[..i]), order[i], table[order[i]])
  {
    assert order[..i + 1][..i] == order[..i];
  }

  lemma {:induction false} RowIsBetter(idx: Index, key: string, price: real, tool: string, model: string)
    ensures var best := Best(EntriesOf(idx, tool), model);
      Best(EntriesOf(AddRow(idx, key, price), tool), model) ==
      if Parse(key).Override? && Parse(key).tool == tool
      then Better(best, PrefixEntry(Parse(key).prefix, price), model) else best
  {
    hide Parse;
    var entries := EntriesOf(idx, tool);
    if Parse(key).Override? && Parse(key).tool == tool {
      var e := PrefixEntry(Parse(key).prefix, price);
      assert (entries + [e])[..|entries|] == entries;
    }
  }

  lemma {:induction false} ShorterThanLongest(table: Table, tool: string, model: string, k: string, key: string)
    requires Longest(table, tool, model, k) && Matches(table, tool, model, key) && !Longest(table, tool, model, key)
    ensures |Parse(key).prefix| < |Parse(k).prefix|
  {
    hide Parse;
  }

  /** After a stable sort the lookup answers with the price of the row of the longest matching prefix that was
      visited first. */
  lemma {:induction false} FirstVisitedWins(table: Table, order: seq<string>, n: nat, tool: string, model: string)
    requires Enumerates(order, table) && n < |order| && model != ""
    requires Longest(table, tool, model, order[n]) && forall m | 0 <= m < n :: !Longest(table, tool, model, order[m])
    ensures Lookup(StablyRebuilt(table, order), tool, model) == table[order[n]]
  {
    hide Parse, TrimStar, Collected, Longest, Best, FirstMatch, FirstEntry, StablySorted;
    assert order[..|order|] == order;
    BestSoFar(table, order, n, |order|, tool, model);
    var entries := EntriesOf(Collected(table, order), tool);
    NoBest(model);
    SortedFirst(entries, model);
    FirstMatchHasPrice(StablySorted(entries), model);
  }

  lemma {:induction false} NoBest(model: string)
    ensures Best([], model) == None
  {
  }

  // ----- When the answer is unique -----

  /** All rows of the longest matching prefix carry one price. */
  ghost predicate OnePriced(table: Table, tool: string, model: string) {
    forall k, k' | Longest(table, tool, model, k) && Longest(table, tool, model, k') :: table[k] == table[k']
  }

  /** No two rebuilds of the table answer this question differently. */
  ghost predicate AllRebuildsAgree(table: Table, tool: string, model: string) {
    forall idx, idx' | MayRebuild(table, idx) && MayRebuild(table, idx') ::
      Lookup(idx, tool, model) == Lookup(idx', tool, model)
  }

  /** Some rebuild of the table answers with the price. */
  ghost predicate MayAnswer(table: Table, tool: string, model: string, price: real) {
    exists idx :: MayRebuild(table, idx) && Lookup(idx, tool, model) == price
  }

  /** Rebuilds answer with the prices that the table gives, and with each of them. */
  lemma {:induction false} AnswersArePrices(table: Table, tool: string, model: string, price: real)
    ensures MayAnswer(table, tool, model, price) <==> Prices(table, tool, model, price)
  {
    hide MayRebuild, Lookup, IsIndex;
    if MayAnswer(table, tool, model, price) {
      var idx :| MayRebuild(table, idx) && Lookup(idx, tool, model) == price;
      RebuiltIsIndex(table, idx);
      LookupIsLongestPrefix(table, idx, tool, model);
    }
    if Prices(table, tool, model, price) {
      if Overridden(table, tool, model) {
        var key :| Longest(table, tool, model, key) && price == table[key];
        RowMayAnswer(table, tool, model, key);
      } else {
        var idx := SomeRebuild(table);
        RebuiltIsIndex(table, idx);
        LookupIsLongestPrefix(table, idx, tool, model);
      }
    }
  }

  lemma {:induction false} RowMayAnswer(table: Table, tool: string, model: string, key: string)
    requires Longest(table, tool, model, key) && model != ""
    ensures key in table && MayAnswer(table, tool, model, table[key])
  {
    hide Lookup, Longest, MayRebuild, Enumerates, StablyRebuilt;
    LongestIsRow(table, tool, model, key);
    var order := VisitingFirst(table, key);
    StablyMayRebuild(table, order);
    VisitsSome(table, order, key);
    FirstVisitedWins(table, order, 0, tool, model);
  }

  lemma {:induction false} VisitsSome(table: Table, order: seq<string>, key: string)
    requires Enumerates(order, table) && key in table
    ensures |order| > 0
  {
  }

  lemma {:induction false} SomeRebuild(table: Table) returns (idx: Index)
    ensures MayRebuild(table, idx)
  {
    hide MayRebuild, StablyRebuilt;
    var order := [];
    if table.Keys != {} {
      var key :| key in table;
      order := VisitingFirst(table, key);
    }
    idx := StablyRebuilt(table, order);
    StablyMayRebuild(table, order);
  }

  /** Then any two indexes of the table agree, however rows of one length are ordered. */
  lemma {:induction false} IndexesAgree(table: Table, idx: Index, idx': Index, tool: string, model: string)
    requires (model == "" || OnePriced(table, tool, model)) && IsIndex(table, idx) && IsIndex(table, idx')
    ensures Lookup(idx, tool, model) == Lookup(idx', tool, model)
  {
    hide Lookup, IsIndex, Longest;
    LookupIsLongestPrefix(table, idx, tool, model);
    LookupIsLongestPrefix(table, idx', tool, model);
  }

  /** All rebuilds agree on a tool and a model exactly when no model is given or the rows of its longest
      matching prefix carry one price. */
  lemma {:induction false} RebuildsAgreeIffOnePriced(table: Table, tool: string, model: string)
    ensures AllRebuildsAgree(table, tool, model) <==> model == "" || OnePriced(table, tool, model)
  {
    if model == "" || OnePriced(table, tool, model) {
      hide OnePriced, IsIndex, Lookup, MayRebuild;
      forall idx, idx' | MayRebuild(table, idx) && MayRebuild(table, idx')
        ensures Lookup(idx, tool, model) == Lookup(idx', tool, model)
      {
        RebuiltIsIndex(table, idx);
        RebuiltIsIndex(table, idx');
        IndexesAgree(table, idx, idx', tool, model);
      }
    } else {
      hide Lookup, MayRebuild, Longest;
      var k, k' :| Longest(table, tool, model, k) && Longest(table, tool, model, k') && table[k] != table[k'];
      RowMayAnswer(table, tool, model, k);
      RowMayAnswer(table, tool, model, k');
    }
  }

  lemma {:induction false} LongestIsRow(table: Table, tool: string, model: string, k: string)
    requires Longest(table, tool, model, k)
    ensures k in table
  {
  }

  /** The table can be visited with any of its keys first. */
  lemma {:induction false} VisitingFirst(table: Table, k: string) returns (order: seq<string>)
    requires k in table
    ensures Enumerates(order, table) && order[0] == k
  {
    order := [k];
    var rest := table.Keys - {k};
    while rest != {}
      invariant rest <= table.Keys && AreKeys(table, order) && order != [] && order[0] == k
      invariant (forall i | 0 <= i < |order| :: order[i] !in rest)
      invariant forall i, j | 0 <= i < j < |order| :: order[i] != order[j]
      invariant forall key | key in table && key !in rest :: key in order
      decreases |rest|
    {
      var key :| key in rest;
      var visited := order + [key];
      assert forall x :: x in visited <==> x in order || x == key;
      order := visited;
      rest := rest - {key};
    }
  }

  /** No tool has both "tool:p" and "tool:p*", unless they agree. */
  ghost predicate Unambiguous(table: Table) {
    forall k, k' | k in table && k' in table && Parse(k).Override? && Parse(k) == Parse(k') :: table[k] == table[k']
  }

  lemma {:induction false} PrefixesOfOneLength(p: string, q: string, model: string)
    requires p <= model && q <= model && |p| == |q|
    ensures p == q
  {
    assert p == model[..|p|] && q == model[..|q|];
  }

  lemma {:induction false} UnambiguousIsOnePriced(table: Table, tool: string, model: string)
    requires Unambiguous(table)
    ensures OnePriced(table, tool, model)
  {
    hide Parse;
    forall k, k' | Longest(table, tool, model, k) && Longest(table, tool, model, k') ensures table[k] == table[k'] {
      PrefixesOfOneLength(Parse(k).prefix, Parse(k').prefix, model);
      assert Parse(k) == Parse(k');
    }
  }

  /** So no two indexes of a table without such conflicts disagree on any model. */
  lemma {:induction false} RebuildsAgree(table: Table, idx: Index, idx': Index, tool: string, model: string)
    requires Unambiguous(table) && IsIndex(table, idx) && IsIndex(table, idx')
    ensures Lookup(idx, tool, model) == Lookup(idx', tool, model)
  {
    hide Unambiguous, IsIndex, Lookup;
    UnambiguousIsOnePriced(table, tool, model);
    IndexesAgree(table, idx, idx', tool, model);
  }

  /** And one with such a conflict has rebuilds that do, on the model that is the prefix itself. */
  lemma {:induction false} ConflictIsVisible(table: Table, tool: string, model: string, k: string, k': string)
    requires k in table && k' in table && table[k] != table[k'] && Parse(k) == Parse(k') == Override(tool, model)
    ensures AllRebuildsAgree(table, tool, model) <==> model == ""
  {
    hide Parse, AllRebuildsAgree;
    assert Longest(table, tool, model, k) && Longest(table, tool, model, k');
    RebuildsAgreeIffOnePriced(table, tool, model);
  }
}
