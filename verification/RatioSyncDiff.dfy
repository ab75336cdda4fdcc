/** Comparing local pricing with upstream channels.  K stands for the names of models, fields and channels. */
module RatioSyncDiff {
  import opened LedgerSchema

  datatype Value = Number(x: real) | Text(text: string)

  const EPSILON := 0.000000001

  predicate NearlyEqual(a: real, b: real) {
    if a > b then a - b < EPSILON else b - a < EPSILON
  }

  predicate ValuesEqual(a: Value, b: Value) {
    if a.Number? && b.Number? then NearlyEqual(a.x, b.x) else a == b
  }

  /** Pricing data: a value per field and model. */
  type Pricing<K> = map<K, map<K, Value>>

  datatype Channel<K> = Channel(name: K, data: Pricing<K>)

  datatype Item<K> = Item(current: Option<Value>, upstreams: map<K, Option<Value>>, confidence: map<K, bool>)

  type Report<K> = map<K, map<K, Item<K>>>

  /** The marker that stands for a value equal to the local one. */
  const SAME := Value.Text("same")

  function At<K(==)>(data: Pricing<K>, field: K, model: K): Option<Value> {
    if field in data && model in data[field] then Some(data[field][model]) else None
  }

  // ----- One model and field -----

  predicate Differs(here: Option<Value>, upstream: Option<Value>) {
    upstream.Some? && (here.None? || !ValuesEqual(here.value, upstream.value))
  }

  /** What the report shows for a channel: its value, the marker, or nothing. */
  function Cell(here: Option<Value>, upstream: Option<Value>): Option<Value> {
    if upstream.None? then (if here.None? then Some(SAME) else None)
    else if here.Some? && ValuesEqual(here.value, upstream.value) then Some(SAME)
    else upstream
  }

  /** A cell that shows a value of the channel's own. */
  predicate Shown(cell: Option<Value>) {
    cell.Some? && cell.value != SAME
  }

  function Upstreams<K(==)>(channels: seq<Channel<K>>, here: Option<Value>, field: K, model: K): map<K, Option<Value>> {
    if channels == [] then map[] else
      var c := channels[|channels| - 1];
      Upstreams(channels[..|channels| - 1], here, field, model)[c.name := Cell(here, At(c.data, field, model))]
  }

  function Confidences<K(==)>(channels: seq<Channel<K>>, ratio: K, completion: K, model: K): map<K, bool> {
    if channels == [] then map[] else
      var c := channels[|channels| - 1];
      var before := Confidences(channels[..|channels| - 1], ratio, completion, model);
      before[c.name := Confident(c.data, ratio, completion, model)]
  }

  /** A channel whose ratios for the model look like placeholders is not trusted. */
  predicate Confident<K(==)>(data: Pricing<K>, ratio: K, completion: K, model: K) {
    var r := At(data, ratio, model);
    var c := At(data, completion, model);
    !(r.Some? && c.Some? && r.value.Number? && c.value.Number? && NearlyEqual(r.value.x, 37.5) &&
      NearlyEqual(c.value.x, 1.0))
  }

  predicate SomeDiffers<K(==)>(channels: seq<Channel<K>>, here: Option<Value>, field: K, model: K) {
    exists i | 0 <= i < |channels| :: Differs(here, At(channels[i].data, field, model))
  }

  /** The fields that hold the model ratio and the completion ratio, among all that are compared. */
  datatype Fields<K> = Fields(all: seq<K>, ratio: K, completion: K)

  function FullItem<K(==)>(here: Pricing<K>, channels: seq<Channel<K>>, fields: Fields<K>, model: K,
                           field: K): Item<K> {
    Item(At(here, field, model), Upstreams(channels, At(here, field, model), field, model),
         Confidences(channels, fields.ratio, fields.completion, model))
  }

  /** One channel's cell, and whether it makes a difference. */
  method CompareCell(here: Option<Value>, upstream: Option<Value>) returns (cell: Option<Value>, differs: bool)
    ensures cell == Cell(here, upstream)
    ensures here.Some? ==> differs == Differs(here, upstream)
  {
    cell, differs := upstream, false;
    if upstream.Some? && here.Some? {
      if ValuesEqual(here.value, upstream.value) {
        cell := Some(SAME);
      } else {
        differs := true;
      }
    }
    if cell.None? && here.None? {
      cell := Some(SAME);
    }
    if here.None? && Shown(cell) {
      differs := true;
    }
  }

  method CompareField<K(==)>(here: Pricing<K>, channels: seq<Channel<K>>, fields: Fields<K>, model: K, field: K)
    returns (item: Item<K>, differs: bool)
    ensures item == FullItem(here, channels, fields, model, field)
    ensures differs == SomeDiffers(channels, At(here, field, model), field, model)
  {
    hide ValuesEqual, Cell, Confident, At;
    var localValue := At(here, field, model);
    var upstreams: map<K, Option<Value>>, confidence: map<K, bool> := map[], map[];
    var hasUpstream, hasDifference := false, false;
    var i := 0;
    while i < |channels|
      invariant 0 <= i <= |channels|
      invariant upstreams == Upstreams(channels[..i], localValue, field, model)
      invariant confidence == Confidences(channels[..i], fields.ratio, fields.completion, model)
      invariant hasUpstream == exists j | 0 <= j < i :: At(channels[j].data, field, model).Some?
      invariant localValue.Some? ==> hasDifference == exists j | 0 <= j < i ::
        Differs(localValue, At(channels[j].data, field, model))
    {
      var c := channels[i];
      var upstream := At(c.data, field, model);
      var cell, differing := CompareCell(localValue, upstream);
      hasUpstream := hasUpstream || upstream.Some?;
      hasDifference := hasDifference || differing;
      upstreams := upstreams[c.name := cell];
      confidence := confidence[c.name := Confident(c.data, fields.ratio, fields.completion, model)];
      assert channels[..i + 1][..i] == channels[..i];
      i := i + 1;
    }
    assert channels[..i] == channels;
    item := Item(localValue, upstreams, confidence);
    differs := if localValue.Some? then hasDifference else hasUpstream;
  }

  // ----- First and second pass: every model and field with a difference -----

  predicate Reported<K(==)>(report: Report<K>, model: K, field: K) {
    model in report && field in report[model]
  }

  predicate NoEmptyModel<K(==)>(report: Report<K>) {
    forall model | model in report :: report[model] != map[]
  }

  function Models<K(==)>(here: Pricing<K>, channels: seq<Channel<K>>, fields: seq<K>): set<K> {
    (set field, model | field in fields && field in here && model in here[field] :: model) +
    (set c, field, model | c in channels && field in fields && field in c.data && model in c.data[field] :: model)
  }

  ghost predicate Included<K>(here: Pricing<K>, channels: seq<Channel<K>>, model: K, field: K) {
    SomeDiffers(channels, At(here, field, model), field, model)
  }

  /** The report holds, for the given models and fields, the items with a difference, in full. */
  ghost predicate IsBuilt<K(!new)>(report: Report<K>, here: Pricing<K>, channels: seq<Channel<K>>, fields: Fields<K>,
                                   models: set<K>) {
    && NoEmptyModel(report)
    && (forall model, field :: Reported(report, model, field) <==>
          model in models && field in fields.all && Included(here, channels, model, field))
    && (forall model, field | Reported(report, model, field) ::
          report[model][field] == FullItem(here, channels, fields, model, field))
  }

  method CompareModel<K(==, !new)>(here: Pricing<K>, channels: seq<Channel<K>>, fields: Fields<K>, model: K)
    returns (items: map<K, Item<K>>)
    ensures forall field :: field in items <==> field in fields.all && Included(here, channels, model, field)
    ensures forall field | field in items :: items[field] == FullItem(here, channels, fields, model, field)
  {
    hide Included, FullItem;
    items := map[];
    var i := 0;
    while i < |fields.all|
      invariant 0 <= i <= |fields.all|
      invariant forall field :: field in items <==> field in fields.all[..i] && Included(here, channels, model, field)
      invariant forall field | field in items :: items[field] == FullItem(here, channels, fields, model, field)
    {
      var field := fields.all[i];
      var item, differs := CompareField(here, channels, fields, model, field);
      IncludedMeans(here, channels, model, field);
      if differs {
        items := items[field := item];
      }
      assert fields.all[..i + 1] == fields.all[..i] + [field];
      i := i + 1;
    }
    assert fields.all[..i] == fields.all;
  }

  lemma {:induction false} IncludedMeans<K>(here: Pricing<K>, channels: seq<Channel<K>>, model: K, field: K)
    ensures Included(here, channels, model, field) == SomeDiffers(channels, At(here, field, model), field, model)
  {
  }

  method BuildAll<K(==, !new)>(here: Pricing<K>, channels: seq<Channel<K>>, fields: Fields<K>)
    returns (report: Report<K>)
    ensures IsBuilt(report, here, channels, fields, Models(here, channels, fields.all))
  {
    hide Included, FullItem, Models, IsBuilt;
    report := map[];
    NothingBuilt(here, channels, fields);
    var models := Models(here, channels, fields.all);
    var rest := models;
    assert models - rest == {};
    while rest != {}
      invariant rest <= models && IsBuilt(report, here, channels, fields, models - rest)
      invariant forall model | model in report :: model in models - rest
      decreases |rest|
    {
      var model :| model in rest;
      var items := CompareModel(here, channels, fields, model);
      ghost var done := models - rest;
      BuiltStep(report, here, channels, fields, done, model, items);
      if items != map[] {
        report := report[model := items];
      }
      rest := rest - {model};
      assert models - rest == done + {model};
    }
    assert models - rest == models;
  }

  lemma {:induction false} NothingBuilt<K(!new)>(here: Pricing<K>, channels: seq<Channel<K>>, fields: Fields<K>)
    ensures IsBuilt(map[], here, channels, fields, {})
  {
  }

  lemma {:induction false} BuiltStep<K(!new)>(report: Report<K>, here: Pricing<K>, channels: seq<Channel<K>>,
                                              fields: Fields<K>,
                                              done: set<K>, model: K, items: map<K, Item<K>>)
    requires IsBuilt(report, here, channels, fields, done) && model !in done && model !in report
    requires forall field :: field in items <==> field in fields.all && Included(here, channels, model, field)
    requires forall field | field in items :: items[field] == FullItem(here, channels, fields, model, field)
    ensures IsBuilt(if items != map[] then report[model := items] else report, here, channels, fields, done + {model})
  {
    hide Included, FullItem;
    var report' := if items != map[] then report[model := items] else report;
    forall m, field
      ensures Reported(report', m, field) <==>
        m in done + {model} && field in fields.all && Included(here, channels, m, field)
    {
      if m != model {
        assert Reported(report', m, field) <==> Reported(report, m, field);
      } else {
        assert Reported(report', m, field) <==> field in items;
      }
    }
    forall m, field | Reported(report', m, field)
      ensures report'[m][field] == FullItem(here, channels, fields, m, field)
    {
      if m != model {
        assert Reported(report, m, field);
      }
    }
  }

  // ----- Third pass: only channels that differ somewhere -----

  predicate ShownIn<K(==)>(item: Item<K>, name: K) {
    name in item.upstreams && Shown(item.upstreams[name])
  }

  method ShownNames<K(==, !new)>(item: Item<K>) returns (names: set<K>)
    ensures forall n :: n in names <==> ShownIn(item, n)
  {
    names := {};
    var rest := item.upstreams.Keys;
    while rest != {}
      invariant rest <= item.upstreams.Keys
      invariant forall n :: n in names <==> n !in rest && ShownIn(item, n)
      decreases |rest|
    {
      var n :| n in rest;
      if Shown(item.upstreams[n]) {
        names := names + {n};
      }
      rest := rest - {n};
    }
  }

  method ShownInItems<K(==, !new)>(items: map<K, Item<K>>) returns (names: set<K>)
    ensures forall n :: n in names <==> exists field | field in items :: ShownIn(items[field], n)
  {
    hide ShownIn;
    names := {};
    var rest := items.Keys;
    while rest != {}
      invariant rest <= items.Keys
      invariant forall n :: n in names <==> exists field | field in items && field !in rest :: ShownIn(items[field], n)
      decreases |rest|
    {
      var field :| field in rest;
      var more := ShownNames(items[field]);
      names := names + more;
      rest := rest - {field};
    }
  }

  /** The channel shows a value of its own somewhere in the report. */
  ghost predicate HasDiff<K(!new)>(report: Report<K>, name: K) {
    exists model, field | Reported(report, model, field) :: ShownIn(report[model][field], name)
  }

  method ChannelsWithDifferences<K(==, !new)>(report: Report<K>) returns (names: set<K>)
    ensures forall n :: n in names <==> HasDiff(report, n)
  {
    hide ShownIn;
    names := {};
    var rest := report.Keys;
    while rest != {}
      invariant rest <= report.Keys
      invariant forall n :: n in names <==>
        exists model, field | Reported(report, model, field) && model !in rest :: ShownIn(report[model][field], n)
      decreases |rest|
    {
      var model :| model in rest;
      var more := ShownInItems(report[model]);
      forall n
        ensures n in more <==> exists field | Reported(report, model, field) :: ShownIn(report[model][field], n)
      {
        if n in more {
          var field :| field in report[model] && ShownIn(report[model][field], n);
          assert Reported(report, model, field);
        }
      }
      names := names + more;
      rest := rest - {model};
    }
  }

  /** The item without the channels that are not kept. */
  function Restrict<K(==)>(item: Item<K>, names: set<K>): Item<K> {
    Item(item.current, item.upstreams - (item.upstreams.Keys - names), item.confidence - (item.upstreams.Keys - names))
  }

  predicate Survives<K(==)>(item: Item<K>) {
    exists n | n in item.upstreams :: item.upstreams[n] != Some(SAME)
  }

  method DropChannels<K(==)>(item: Item<K>, names: set<K>) returns (kept: Item<K>)
    ensures kept == Restrict(item, names)
  {
    kept := item;
    var rest := item.upstreams.Keys;
    ghost var dropped: set<K> := {};
    assert item.upstreams - {} == item.upstreams && item.confidence - {} == item.confidence;
    while rest != {}
      invariant rest <= item.upstreams.Keys && dropped == item.upstreams.Keys - names - rest
      invariant kept == Item(item.current, item.upstreams - dropped, item.confidence - dropped)
      decreases |rest|
    {
      var n :| n in rest;
      if n !in names {
        kept := kept.(upstreams := kept.upstreams - {n}, confidence := kept.confidence - {n});
        assert item.upstreams - dropped - {n} == item.upstreams - (dropped + {n});
        assert item.confidence - dropped - {n} == item.confidence - (dropped + {n});
        dropped := dropped + {n};
      }
      rest := rest - {n};
    }
    assert dropped == item.upstreams.Keys - names;
  }

  method PruneItems<K(==, !new)>(items: map<K, Item<K>>, names: set<K>) returns (kept: map<K, Item<K>>)
    ensures forall field :: field in kept <==> field in items && Survives(Restrict(items[field], names))
    ensures forall field | field in kept :: kept[field] == Restrict(items[field], names)
  {
    hide Survives, Restrict;
    kept := items;
    var rest := items.Keys;
    while rest != {}
      invariant rest <= items.Keys
      invariant forall field ::
        field in kept <==> field in items && (field in rest || Survives(Restrict(items[field], names)))
      invariant forall field | field in kept ::
        kept[field] == if field in rest then items[field] else Restrict(items[field], names)
      decreases |rest|
    {
      var field :| field in rest;
      var item := DropChannels(items[field], names);
      kept := if Survives(item) then kept[field := item] else kept - {field};
      rest := rest - {field};
    }
  }

  ghost predicate IsPruned<K(!new)>(pruned: Report<K>, report: Report<K>, names: set<K>) {
    && NoEmptyModel(pruned)
    && (forall model, field :: Reported(pruned, model, field) <==>
          Reported(report, model, field) && Survives(Restrict(report[model][field], names)))
    && (forall model, field | Reported(pruned, model, field) ::
        pruned[model][field] == Restrict(report[model][field], names))
  }

  method PruneReport<K(==, !new)>(report: Report<K>, names: set<K>) returns (pruned: Report<K>)
    requires NoEmptyModel(report)
    ensures IsPruned(pruned, report, names)
  {
    hide Survives, Restrict;
    pruned := report;
    var rest := report.Keys;
    while rest != {}
      invariant rest <= report.Keys && NoEmptyModel(pruned)
      invariant forall model | model in rest :: model in pruned && pruned[model] == report[model]
      invariant forall model, field | model !in rest :: Reported(pruned, model, field) <==>
        Reported(report, model, field) && Survives(Restrict(report[model][field], names))
      invariant forall model, field | model !in rest && Reported(pruned, model, field) ::
        pruned[model][field] == Restrict(report[model][field], names)
      decreases |rest|
    {
      var model :| model in rest;
      var kept := PruneItems(report[model], names);
      ghost var before := pruned;
      pruned := if kept == map[] then pruned - {model} else pruned[model := kept];
      rest := rest - {model};
      forall m, field | m !in rest ensures Reported(pruned, m, field) <==>
        Reported(report, m, field) && Survives(Restrict(report[m][field], names))
      {
        if m == model {
          assert Reported(pruned, m, field) <==> field in kept;
        } else {
          assert Reported(pruned, m, field) <==> Reported(before, m, field);
        }
      }
    }
  }

  // ----- What the report means -----

  predicate DistinctNames<K(==)>(channels: seq<Channel<K>>) {
    forall i, j | 0 <= i < j < |channels| :: channels[i].name != channels[j].name
  }

  /** No channel supplies the marker as a value of its own. */
  ghost predicate NoMarker<K(!new)>(channels: seq<Channel<K>>) {
    forall i, field, model | 0 <= i < |channels| :: At(channels[i].data, field, model) != Some(SAME)
  }

  lemma {:induction false} CellOf<K>(channels: seq<Channel<K>>, here: Option<Value>, field: K, model: K, i: nat)
    requires i < |channels| && DistinctNames(channels)
    ensures var ups := Upstreams(channels, here, field, model);
      channels[i].name in ups && ups[channels[i].name] == Cell(here, At(channels[i].data, field, model))
  {
    var n := |channels| - 1;
    if i < n {
      assert channels[..n][i] == channels[i];
      CellOf(channels[..n], here, field, model, i);
    }
  }

  lemma {:induction false} ConfidenceOf<K>(channels: seq<Channel<K>>, fields: Fields<K>, model: K, i: nat)
    requires i < |channels| && DistinctNames(channels)
    ensures var cs := Confidences(channels, fields.ratio, fields.completion, model);
      channels[i].name in cs &&
      cs[channels[i].name] == Confident(channels[i].data, fields.ratio, fields.completion, model)
  {
    var n := |channels| - 1;
    if i < n {
      assert channels[..n][i] == channels[i];
      ConfidenceOf(channels[..n], fields, model, i);
    }
  }

  lemma {:induction false} NameOf<K>(channels: seq<Channel<K>>, here: Option<Value>, field: K, model: K, name: K)
    requires name in Upstreams(channels, here, field, model)
    ensures exists i | 0 <= i < |channels| :: channels[i].name == name
  {
    var n := |channels| - 1;
    if channels[n].name != name {
      NameOf(channels[..n], here, field, model, name);
      var i :| 0 <= i < n && channels[..n][i].name == name;
      assert channels[i].name == name;
    }
  }

  lemma {:induction false} ShownWhenDiffers(here: Option<Value>, upstream: Option<Value>)
    requires upstream != Some(SAME)
    ensures Shown(Cell(here, upstream)) == Differs(here, upstream)
  {
  }

  /** Numbers agree to within a billionth, texts in every character, and a number with no text.  A cell shows the
      marker exactly when both sides agree on a value or on having none, nothing exactly when only the local side
      has a value, and otherwise the channel's own value, which then makes a difference. */
  lemma {:induction false} CellsAndDifferences(here: Option<Value>, upstream: Option<Value>)
    requires upstream != Some(SAME)
    ensures match (here, upstream)
      case (None, None) => Cell(here, upstream) == Some(SAME) && !Differs(here, upstream)
      case (Some(_), None) => Cell(here, upstream) == None && !Differs(here, upstream)
      case (None, Some(_)) => Cell(here, upstream) == upstream && Differs(here, upstream)
      case (Some(x), Some(y)) =>
        var agree := match (x, y)
          case (Number(m), Number(n)) => -0.000000001 < m - n < 0.000000001
          case (Text(t), Text(u)) => t == u
          case _ => false;
        Differs(here, upstream) == !agree && Cell(here, upstream) == if agree then Some(SAME) else upstream
  {
  }

  /** A channel is not trusted on a model exactly when it gives both the ratios that stand for no price at all. */
  lemma {:induction false} WhenConfident<K>(data: Pricing<K>, ratio: K, completion: K, model: K)
    ensures Confident(data, ratio, completion, model) <==>
      match (At(data, ratio, model), At(data, completion, model))
      case (Some(Number(x)), Some(Number(y))) =>
        !(-0.000000001 < x - 37.5 < 0.000000001 && -0.000000001 < y - 1.0 < 0.000000001)
      case _ => true
  {
    hide At;
  }

  /** The channel differs from the local value for some model and compared field. */
  ghost predicate DiffersSomewhere<K(!new)>(here: Pricing<K>, channels: seq<Channel<K>>, fields: seq<K>, name: K) {
    exists i, field, model | 0 <= i < |channels| && channels[i].name == name && field in fields ::
      Differs(At(here, field, model), At(channels[i].data, field, model))
  }

  /** A model and field are reported exactly when some channel differs there, and the item shows exactly the
      channels that differ somewhere, each with its own value where it differs. */
  ghost predicate Meaning<K(!new)>(report: Report<K>, here: Pricing<K>, channels: seq<Channel<K>>, fields: Fields<K>) {
    && NoEmptyModel(report)
    && (forall model, field :: Reported(report, model, field) <==>
        field in fields.all && Included(here, channels, model, field))
    && (forall model, field | Reported(report, model, field) ::
          ItemMeans(report[model][field], here, channels, fields, model, field))
  }

  lemma {:induction false} InModels<K>(here: Pricing<K>, channels: seq<Channel<K>>, fields: seq<K>, i: nat, field: K,
                                       model: K)
    requires i < |channels| && field in fields && At(channels[i].data, field, model).Some?
    ensures model in Models(here, channels, fields)
  {
    var c := channels[i];
    assert c in channels && field in fields && field in c.data && model in c.data[field];
  }

  lemma {:induction false} DiffersShows<K(!new)>(built: Report<K>, here: Pricing<K>, channels: seq<Channel<K>>,
                                                 fields: Fields<K>,
                                                 i: nat, field: K, model: K)
    requires IsBuilt(built, here, channels, fields, Models(here, channels, fields.all)) && DistinctNames(channels)
    requires NoMarker(channels)
    requires i < |channels| && field in fields.all
    requires Differs(At(here, field, model), At(channels[i].data, field, model))
    ensures Reported(built, model, field) && ShownIn(built[model][field], channels[i].name)
  {
    hide Models, Cell, Differs;
    assert At(channels[i].data, field, model).Some? by {
      DiffersHasValue(At(here, field, model), At(channels[i].data, field, model));
    }
    InModels(here, channels, fields.all, i, field, model);
    assert Included(here, channels, model, field);
    assert Reported(built, model, field);
    CellOf(channels, At(here, field, model), field, model, i);
    assert At(channels[i].data, field, model) != Some(SAME);
    ShownWhenDiffers(At(here, field, model), At(channels[i].data, field, model));
  }

  lemma {:induction false} DiffersHasValue(here: Option<Value>, upstream: Option<Value>)
    requires Differs(here, upstream)
    ensures upstream.Some?
  {
  }

  lemma {:induction false} ShownDiffers<K(!new)>(here: Pricing<K>, channels: seq<Channel<K>>, fields: Fields<K>,
                                                 field: K, model: K, name: K)
    requires DistinctNames(channels) && NoMarker(channels)
    requires ShownIn(FullItem(here, channels, fields, model, field), name)
    ensures exists i | 0 <= i < |channels| ::
      channels[i].name == name && Differs(At(here, field, model), At(channels[i].data, field, model))
  {
    hide Cell, Differs;
    NameOf(channels, At(here, field, model), field, model, name);
    var i :| 0 <= i < |channels| && channels[i].name == name;
    CellOf(channels, At(here, field, model), field, model, i);
    assert At(channels[i].data, field, model) != Some(SAME);
    ShownWhenDiffers(At(here, field, model), At(channels[i].data, field, model));
  }

  lemma {:induction false} KeptChannels<K(!new)>(built: Report<K>, here: Pricing<K>, channels: seq<Channel<K>>,
                                                 fields: Fields<K>, name: K)
    requires IsBuilt(built, here, channels, fields, Models(here, channels, fields.all)) && DistinctNames(channels)
    requires NoMarker(channels)
    ensures HasDiff(built, name) <==> DiffersSomewhere(here, channels, fields.all, name)
  {
    hide Models, ShownIn, Differs, FullItem, DistinctNames, NoMarker, Included;
    if HasDiff(built, name) {
      var model, field :| Reported(built, model, field) && ShownIn(built[model][field], name);
      ShownDiffers(here, channels, fields, field, model, name);
    }
    if DiffersSomewhere(here, channels, fields.all, name) {
      var i, field, model :| 0 <= i < |channels| && channels[i].name == name && field in fields.all &&
        Differs(At(here, field, model), At(channels[i].data, field, model));
      DiffersShows(built, here, channels, fields, i, field, model);
    }
  }

  /** Whatever is reported for one field survives the pruning. */
  lemma {:induction false} IncludedSurvives<K(!new)>(built: Report<K>, here: Pricing<K>, channels: seq<Channel<K>>,
                                                     fields: Fields<K>,
                                                     names: set<K>, model: K, field: K)
    requires IsBuilt(built, here, channels, fields, Models(here, channels, fields.all)) && DistinctNames(channels)
    requires NoMarker(channels)
    requires forall n :: n in names <==> HasDiff(built, n)
    requires field in fields.all && Included(here, channels, model, field)
    ensures Reported(built, model, field) && Survives(Restrict(built[model][field], names))
  {
    hide Models, Differs, FullItem, DistinctNames, NoMarker;
    IncludedMeans(here, channels, model, field);
    var i :| 0 <= i < |channels| && Differs(At(here, field, model), At(channels[i].data, field, model));
    DiffersShows(built, here, channels, fields, i, field, model);
    assert HasDiff(built, channels[i].name);
    var item := Restrict(built[model][field], names);
    assert channels[i].name in item.upstreams && item.upstreams[channels[i].name] != Some(SAME);
  }

  /** What a kept item shows. */
  ghost predicate ItemMeans<K(!new)>(item: Item<K>, here: Pricing<K>, channels: seq<Channel<K>>, fields: Fields<K>,
                                     model: K, field: K) {
    && item.current == At(here, field, model)
    && (forall name :: name in item.upstreams <==> DiffersSomewhere(here, channels, fields.all, name))
    && item.confidence.Keys == item.upstreams.Keys
    && (forall i | 0 <= i < |channels| && channels[i].name in item.upstreams ::
          item.upstreams[channels[i].name] == Cell(At(here, field, model), At(channels[i].data, field, model)))
    && (forall i | 0 <= i < |channels| && channels[i].name in item.upstreams ::
          channels[i].name in item.confidence &&
          item.confidence[channels[i].name] == Confident(channels[i].data, fields.ratio, fields.completion, model))
  }

  lemma {:induction false} SameNames<K>(channels: seq<Channel<K>>, fields: Fields<K>, here: Option<Value>, field: K,
                                        model: K)
    ensures Confidences(channels, fields.ratio, fields.completion, model).Keys ==
            Upstreams(channels, here, field, model).Keys
  {
    if channels != [] {
      SameNames(channels[..|channels| - 1], fields, here, field, model);
    }
  }

  lemma {:induction false} KeptItemMeans<K(!new)>(built: Report<K>, here: Pricing<K>, channels: seq<Channel<K>>,
                                                  fields: Fields<K>,
                                                  names: set<K>, model: K, field: K)
    requires IsBuilt(built, here, channels, fields, Models(here, channels, fields.all)) && DistinctNames(channels)
    requires NoMarker(channels)
    requires forall n :: n in names <==> HasDiff(built, n)
    ensures ItemMeans(Restrict(FullItem(here, channels, fields, model, field), names), here, channels, fields, model,
                      field)
  {
    hide Models, DistinctNames, NoMarker, HasDiff, DiffersSomewhere, Cell, Confident, IsBuilt;
    var ups := Upstreams(channels, At(here, field, model), field, model);
    var cs := Confidences(channels, fields.ratio, fields.completion, model);
    forall i | 0 <= i < |channels|
      ensures channels[i].name in cs
      ensures cs[channels[i].name] == Confident(channels[i].data, fields.ratio, fields.completion, model)
    {
      ConfidenceOf(channels, fields, model, i);
    }
    forall i | 0 <= i < |channels|
      ensures channels[i].name in ups
      ensures ups[channels[i].name] == Cell(At(here, field, model), At(channels[i].data, field, model))
    {
      CellOf(channels, At(here, field, model), field, model, i);
    }
    SameNames(channels, fields, At(here, field, model), field, model);
    forall name ensures name in ups && name in names <==> DiffersSomewhere(here, channels, fields.all, name) {
      KeptChannels(built, here, channels, fields, name);
      if DiffersSomewhere(here, channels, fields.all, name) {
        SomewhereHasName(here, channels, fields.all, name);
      }
    }
  }

  lemma {:induction false} PrunedMeans<K(!new)>(built: Report<K>, pruned: Report<K>, here: Pricing<K>,
                                                channels: seq<Channel<K>>,
                                                fields: Fields<K>, names: set<K>)
    requires IsBuilt(built, here, channels, fields, Models(here, channels, fields.all)) && DistinctNames(channels)
    requires NoMarker(channels)
    requires (forall n :: n in names <==> HasDiff(built, n)) && IsPruned(pruned, built, names)
    ensures Meaning(pruned, here, channels, fields)
  {
    hide Models, Survives, Restrict, FullItem, Included, DistinctNames, NoMarker, HasDiff, ItemMeans;
    forall model, field
      ensures Reported(pruned, model, field) <==> field in fields.all && Included(here, channels, model, field)
    {
      if field in fields.all && Included(here, channels, model, field) {
        IncludedSurvives(built, here, channels, fields, names, model, field);
      }
    }
    forall model, field | Reported(pruned, model, field)
      ensures ItemMeans(pruned[model][field], here, channels, fields, model, field)
    {
      KeptItemMeans(built, here, channels, fields, names, model, field);
    }
  }

  lemma {:induction false} SomewhereHasName<K(!new)>(here: Pricing<K>, channels: seq<Channel<K>>, fields: seq<K>,
                                                     name: K)
    requires DiffersSomewhere(here, channels, fields, name)
    ensures exists i | 0 <= i < |channels| :: channels[i].name == name
  {
  }

  /** The three passes.  With channels of distinct names, none of which supplies the marker as a value, the
      report means what it should. */
  method BuildDifferences<K(==, !new)>(here: Pricing<K>, channels: seq<Channel<K>>, fields: Fields<K>)
    returns (report: Report<K>)
    ensures DistinctNames(channels) && NoMarker(channels) ==> Meaning(report, here, channels, fields)
  {
    hide Models, Included, FullItem, Survives, Restrict, HasDiff, DistinctNames, NoMarker, Meaning;
    var built := BuildAll(here, channels, fields);
    var names := ChannelsWithDifferences(built);
    report := PruneReport(built, names);
    if DistinctNames(channels) && NoMarker(channels) {
      PrunedMeans(built, report, here, channels, fields, names);
    }
  }
}
