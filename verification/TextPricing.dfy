/** What a text request is charged, in terms of the usage it reports: by the call, by the token, and at the limits. */
module TextPricing {
  import opened LedgerSchema
  import opened TextQuota

  // ----- Priced by the call -----

  /** What a request costs beside its tool calls. */
  function CallPrice(info: Info, b: Billed): real {
    Amount(info, b) - info.surcharge
  }

  function Scaled(info: Info, x: real, y: real, z: real): Info {
    info.(prices := info.prices.(modelPrice := Times(x, info.prices.modelPrice),
                                 groupRatio := Times(y, info.prices.groupRatio)),
          quotaPerUnit := Times(z, info.quotaPerUnit))
  }

  lemma {:induction false} ProductOfThree(x: real, y: real, z: real, a: real, b: real, c: real)
    ensures Times(Times(Times(x, a), Times(z, c)), Times(y, b)) == Times(Times(Times(x, y), z), Times(Times(a, c), b))
  {
    assert (x * a) * (z * c) == (x * z) * (a * c);
    assert ((x * z) * (a * c)) * (y * b) == ((x * z) * y) * ((a * c) * b);
    assert (x * z) * y == (x * y) * z;
  }

  lemma {:induction false} CallPriceIs(info: Info, b: Billed)
    requires info.prices.usePrice
    ensures CallPrice(info, b) == Times(Times(info.prices.modelPrice, info.quotaPerUnit), info.prices.groupRatio)
    ensures Amount(info, b) == CallPrice(info, b) + info.surcharge
  {
  }

  /** A price per call is one when its three factors are, grows with each of them in proportion, and depends neither on
      the tokens nor on the tool calls. */
  lemma {:induction false} PricedByCall(info: Info, b: Billed, b': Billed, x: real, y: real, z: real, surcharge: real)
    requires info.prices.usePrice
    ensures info.prices.modelPrice == info.prices.groupRatio == info.quotaPerUnit == 1.0 ==> CallPrice(info, b) == 1.0
    ensures CallPrice(Scaled(info, x, y, z).(surcharge := surcharge), b') ==
            Times(Times(Times(x, y), z), CallPrice(info, b))
  {
    CallPriceIs(info, b);
    CallPriceIs(Scaled(info, x, y, z).(surcharge := surcharge), b');
    ProductOfThree(x, y, z, info.prices.modelPrice, info.prices.groupRatio, info.quotaPerUnit);
    hide Times, CallPrice;
    TimesOne(1.0);
  }

  /** So every request with tokens is charged alike, and to the nearest whole number of what the call, its tool calls
      and the further ratios come to. */
  lemma {:induction false} CallCharged(info: Info, b: Billed, b': Billed, others: seq<real>, total: int, total': int)
    requires info.prices.usePrice && total != 0 && total' != 0
    ensures QuotaOf(info, b, others, total) == QuotaOf(info, b', others, total')
    ensures var p := info.prices;
      var price := Times(Times(p.modelPrice, info.quotaPerUnit), p.groupRatio);
      var amount := Times(price + info.surcharge, Product(others));
      0.5 <= amount <= MAX_INT as real ==> -0.5 < QuotaOf(info, b, others, total) as real - amount <= 0.5
  {
    hide Times, Product, Charge, Amount, CallPrice;
    CallPriceIs(info, b);
    CallPriceIs(info, b');
    ChargedEverywhere(info, Times(Amount(info, b), Product(others)), total);
    ChargedEverywhere(info, Times(Amount(info, b), Product(others)), total');
    ChargedAlike(info, Times(Amount(info, b), Product(others)), total, total');
  }

  // ----- From an amount to what is charged -----

  /** A request with tokens is charged the amount to the nearest whole number, halves upwards; below a half it is
      charged one, or nothing without a ratio, and above the largest integer that integer.  One without tokens is
      charged nothing. */
  lemma {:induction false} ChargedEverywhere(info: Info, amount: real, total: int)
    ensures var q := Charge(info, amount, total);
      if total == 0 then q == 0
      else if amount < 0.5 then q == if Ratio(info.prices) != 0.0 then 1 else 0
      else if amount <= MAX_INT as real then -0.5 < q as real - amount <= 0.5
      else q == MAX_INT
  {
    hide Ratio;
    RoundedUp(amount);
    if amount > MAX_INT as real {
      RoundExact(MAX_INT);
      RoundGrows(MAX_INT as real, amount);
    }
    RoundExact(1);
    hide Round;
  }

  lemma {:induction false} ChargedAlike(info: Info, amount: real, total: int, total': int)
    requires total != 0 && total' != 0
    ensures Charge(info, amount, total) == Charge(info, amount, total')
  {
    hide Ratio, Round;
  }

  lemma {:induction false} RoundedUp(x: real)
    ensures x >= 0.0 ==> -0.5 < Round(x) as real - x <= 0.5
    ensures x < 0.5 ==> Round(x) <= 0
  {
  }

  // ----- From a usage to what is billed -----

  predicate Empty(u: Usage) {
    u.prompt == 0 && u.completion == 0 && u.total == 0
  }

  /** Whether cached and written tokens come on top of the prompt, by what the usage says of itself: one that says
      nothing is read as its request's format, or as Claude's when it splits the cache writes and has no source. */
  predicate OnTop(info: Info, u: Usage) {
    match u.semantic
    case Anthropic => true
    case OpenAI => false
    case Foreign => false
    case Unstated => info.claudeFormat || (!u.hasSource && (u.creation5m > 0 || u.creation1h > 0))
  }

  predicate CountsNotNegative(u: Usage) {
    && u.prompt >= 0 && u.completion >= 0 && u.cached >= 0 && u.creation >= 0 && u.creation5m >= 0 && u.creation1h >= 0
    && u.image >= 0 && u.audio >= 0
  }

  /** The tokens of a request as they are billed. */
  function BilledFor(info: Info, usage: Option<Usage>): Billed
    requires info.quotaPerUnit > 0.0
  {
    var u := EffectiveUsage(info, usage);
    var claude := SemanticOf(info, usage) == Anthropic;
    BilledTokens(CountsOf(info, u, claude), claude || LegacyClaude(info, u), info.audioPrice > 0.0)
  }

  function TotalFor(info: Info, usage: Option<Usage>): int {
    var u := EffectiveUsage(info, usage);
    u.prompt + u.completion
  }

  /** The cache writes that the prompt carries, as far as the usage counts them. */
  function Written(u: Usage, onTop: bool): int {
    if onTop then CacheWriteTokensTotal(u.creation, u.creation5m, u.creation1h) else u.creation
  }

  /** On any channel but OpenRouter's Claude, a usage is billed for exactly the tokens it reports: every output, cached
      and image token, every cache write, and audio where it is priced; the plain prompt is what is left of the
      prompt, or all of it but images and audio when the others come on top. */
  lemma {:induction false} BilledAsReported(info: Info, u: Usage)
    requires info.quotaPerUnit > 0.0 && CountsNotNegative(u) && !Empty(u)
    requires !(info.openRouter && SemanticOf(info, Some(u)) == Anthropic)
    ensures var b := BilledFor(info, Some(u));
      var top := OnTop(info, u);
      && b.completion == u.completion && b.cached == u.cached && b.image == u.image
      && b.audio == (if info.audioPrice > 0.0 then u.audio else 0)
      && b.creation + b.creation5m + b.creation1h == Written(u, top)
      && (if top then b.creation5m == u.creation5m && b.creation1h == u.creation1h
          else b.creation5m == 0 == b.creation1h)
      && b.base + b.image + b.audio + (if top then 0 else b.cached + b.creation) == u.prompt
  {
    hide CacheWritesFromCost;
  }

  /** An empty usage, or none, is billed as the estimated prompt alone; without an estimate it is charged nothing. */
  lemma {:induction false} EstimateBilled(info: Info, usage: Option<Usage>, others: seq<real>)
    requires info.quotaPerUnit > 0.0 && (usage.Some? ==> Empty(usage.value))
    ensures info.estimate <= 0 ==> QuotaOf(info, BilledFor(info, usage), others, TotalFor(info, usage)) == 0
    ensures info.estimate > 0 && !(info.openRouter && SemanticOf(info, usage) == Anthropic) ==>
      BilledFor(info, usage) == NO_TOKENS.(base := info.estimate) && TotalFor(info, usage) == info.estimate
  {
    hide CacheWritesFromCost, Amount, Product, Ratio, Round;
  }

  // ----- Cache writes inferred on OpenRouter -----

  /** On OpenRouter's Claude the writes are inferred only where none are reported, a write has a price of its own, the
      cost is not the integer zero, and the model's prices are the standard ones; they are then those that explain
      the cost, when the uncached prompt has that many. */
  lemma {:induction false} WritesInferred(info: Info, u: Usage, n: int)
    requires info.quotaPerUnit > 0.0 && info.openRouter && info.prices.modelRatio != 0.0
    requires u.cost == Float(OpenRouterCost(info.prices.modelRatio / info.quotaPerUnit, u.prompt, u.cached, n,
                                            u.completion, info.prices))
    ensures CountsOf(info, u, true).creation ==
      if u.creation == 0 && info.prices.creationRatio != 1.0 && !info.prices.usePrice && !info.customRatio &&
         0 <= n <= u.prompt - u.cached
      then n else u.creation
  {
    hide OpenRouterCost, CacheWritesFromCost;
    if info.prices.creationRatio != 1.0 {
      PricePerToken(info);
      CacheWritesRecovered(u, n, info.prices, info.quotaPerUnit);
    }
  }

  lemma {:induction false} PricePerToken(info: Info)
    requires info.quotaPerUnit > 0.0
    ensures TokenPrice(info.prices, info.quotaPerUnit) == info.prices.modelRatio / info.quotaPerUnit
  {
  }

  /** Nothing is inferred outside those conditions, whatever the usage says of its cost; and the other counts are
      those of the usage. */
  lemma {:induction false} OpenRouterCounts(info: Info, u: Usage)
    requires info.quotaPerUnit > 0.0 && info.openRouter
    ensures var c := CountsOf(info, u, true);
      && c.completion == u.completion && c.cached == u.cached && c.image == u.image && c.audio == u.audio
      && c.creation5m == u.creation5m && c.creation1h == u.creation1h
      && c.prompt + c.cached + c.creation == u.prompt
      && (c.creation != u.creation ==>
            && u.creation == 0 && info.prices.creationRatio != 1.0 && u.cost != Integer(0)
            && !info.prices.usePrice && !info.customRatio && 0 <= c.creation <= u.prompt - u.cached)
  {
    hide CacheWritesFromCost;
  }
}
