/** What a text request costs: every token billed at one ratio, and the sum turned into quota.  Amounts are
    real numbers, so the decimal library's rounding is that of its Round alone. */
module TextQuota {
  import opened LedgerSchema

  datatype Semantic = Unstated | OpenAI | Anthropic | Foreign

  /** The cost a usage reports: a decoded number is a float; anything that is no number counts as absent. */
  datatype Cost = Absent | Float(amount: real) | Integer(n: int)

  datatype Usage = Usage(prompt: int, completion: int, total: int, cached: int, creation: int, creation5m: int,
                         creation1h: int,
                         image: int, audio: int, hasSource: bool, semantic: Semantic, cost: Cost)

  const NO_USAGE := Usage(0, 0, 0, 0, 0, 0, 0, 0, 0, false, Unstated, Absent)

  datatype Prices = Prices(completionRatio: real, cacheRatio: real, imageRatio: real, modelRatio: real,
                           groupRatio: real,
                           modelPrice: real, creationRatio: real, creation5mRatio: real, creation1hRatio: real,
                           usePrice: bool)

  /** The request: its format, channel and estimate, its prices, what its tool calls cost, and the price of a
      million audio input tokens (not positive when audio is not priced apart). */
  datatype Info = Info(claudeFormat: bool, openRouter: bool, customRatio: bool, estimate: int, prices: Prices,
                       surcharge: real, audioPrice: real, quotaPerUnit: real)

  // ----- Which usage is billed -----

  function SemanticOf(info: Info, usage: Option<Usage>): Semantic {
    if usage.Some? && !usage.value.semantic.Unstated? then usage.value.semantic
    else if info.claudeFormat then Anthropic else OpenAI
  }

  /** An empty usage is replaced by the estimated prompt. */
  function EffectiveUsage(info: Info, usage: Option<Usage>): Usage {
    if usage.Some? && (usage.value.prompt != 0 || usage.value.completion != 0 || usage.value.total != 0)
    then usage.value
    else if info.estimate > 0 then NO_USAGE.(prompt := info.estimate, total := info.estimate, hasSource := true)
    else if usage.Some? then usage.value else NO_USAGE
  }

  /** An OpenAI usage that carries Claude's cache counts without saying so. */
  predicate LegacyClaude(info: Info, u: Usage) {
    !info.claudeFormat && !u.hasSource && u.semantic.Unstated? && (u.creation5m > 0 || u.creation1h > 0)
  }

  function CacheWriteTokensTotal(creation: int, creation5m: int, creation1h: int): int {
    if creation5m > 0 || creation1h > 0 then
      if creation > creation5m + creation1h then creation else creation5m + creation1h
    else creation
  }

  // ----- Cache writes read off the upstream's cost -----

  function Round(x: real): int {
    if x >= 0.0 then (x + 0.5).Floor else -(-x + 0.5).Floor
  }

  /** What OpenRouter charges for the given token counts. */
  function OpenRouterCost(price: real, prompt: int, cached: int, creation: int, completion: int, p: Prices): real {
    (prompt - cached - creation) as real * price + cached as real * (price * p.cacheRatio) +
    creation as real * (price * p.creationRatio) + completion as real * (price * p.completionRatio)
  }

  /** Only a float cost is used. */
  function CostOf(u: Usage): real {
    if u.cost.Float? then u.cost.amount else 0.0
  }

  /** What the cost leaves for the cache writes, above the price of those tokens as a plain prompt. */
  function Residual(u: Usage, p: Prices, price: real): real {
    CostOf(u) - u.prompt as real * price + u.cached as real * (price - price * p.cacheRatio) -
    u.completion as real * (price * p.completionRatio)
  }

  /** The plain price of a token, and what a cache write costs above it. */
  function TokenPrice(p: Prices, quotaPerUnit: real): real
    requires quotaPerUnit > 0.0
  {
    p.modelRatio / quotaPerUnit
  }

  function Premium(price: real, ratio: real): real {
    price * ratio - price
  }

  function Quotient(x: real, y: real): real
    requires y != 0.0
  {
    x / y
  }

  /** At a zero price the quotient is infinite or no number; the integer it becomes is then negative, or
      larger than any prompt, or zero, and in each case leaves the cache writes at zero.  Here it is
      negative. */
  function CacheWritesFromCost(u: Usage, p: Prices, quotaPerUnit: real): int
    requires quotaPerUnit > 0.0
  {
    if p.creationRatio == 1.0 then 0
    else if p.modelRatio == 0.0 then -1
    else
      var price := TokenPrice(p, quotaPerUnit);
      PriceNotZero(p, quotaPerUnit);
      PremiumNotZero(price, p.creationRatio);
      Round(Quotient(Residual(u, p, price), Premium(price, p.creationRatio)))
  }

  lemma {:induction false} PriceNotZero(p: Prices, quotaPerUnit: real)
    requires p.modelRatio != 0.0 && quotaPerUnit > 0.0
    ensures TokenPrice(p, quotaPerUnit) != 0.0
  {
  }

  lemma {:induction false} PremiumNotZero(price: real, ratio: real)
    requires price != 0.0 && ratio != 1.0
    ensures Premium(price, ratio) != 0.0
  {
    assert Premium(price, ratio) == price * (ratio - 1.0);
  }

  lemma {:induction false} RoundExact(n: int)
    ensures Round(n as real) == n
  {
  }

  lemma {:induction false} QuotientOf(n: real, d: real)
    requires d != 0.0
    ensures Quotient(Times(n, d), d) == n
  {
  }

  lemma {:induction false} CostLessRest(price: real, u: Usage, creation: int, p: Prices)
    requires CostOf(u) == OpenRouterCost(price, u.prompt, u.cached, creation, u.completion, p)
    ensures Residual(u, p, price) == Times(creation as real, Premium(price, p.creationRatio))
  {
    var prompt, cached, write := u.prompt as real, u.cached as real, creation as real;
    assert (u.prompt - u.cached - creation) as real == prompt - cached - write;
    assert (prompt - cached - write) * price == prompt * price - cached * price - write * price;
    assert cached * (price - price * p.cacheRatio) == cached * price - cached * (price * p.cacheRatio);
    assert write * Premium(price, p.creationRatio) == write * (price * p.creationRatio) - write * price;
  }

  /** When the upstream's cost is what it charges for some number of cache writes, that number is recovered
      exactly. */
  lemma {:induction false} CacheWritesRecovered(u: Usage, creation: int, p: Prices, quotaPerUnit: real)
    requires quotaPerUnit > 0.0 && p.modelRatio != 0.0 && p.creationRatio != 1.0
    requires u.cost == Float(OpenRouterCost(TokenPrice(p, quotaPerUnit), u.prompt, u.cached, creation, u.completion, p))
    ensures CacheWritesFromCost(u, p, quotaPerUnit) == creation
  {
    hide OpenRouterCost;
    var price := TokenPrice(p, quotaPerUnit);
    PriceNotZero(p, quotaPerUnit);
    PremiumNotZero(price, p.creationRatio);
    CostLessRest(price, u, creation, p);
    QuotientOf(creation as real, Premium(price, p.creationRatio));
    RoundExact(creation);
    var premium := Premium(price, p.creationRatio);
    assert Residual(u, p, price) == Times(creation as real, premium);
    assert Quotient(Residual(u, p, price), premium) == creation as real;
    assert Round(Quotient(Residual(u, p, price), premium)) == creation;
  }

  // ----- The tokens of a request, and the ratio each is billed at -----

  datatype Counts = Counts(prompt: int, completion: int, cached: int, creation: int, creation5m: int, creation1h: int,
                           image: int, audio: int)

  /** The cost is compared with the integer zero, which no decoded cost is: neither a missing cost nor a
      float zero keeps the inference from running. */
  predicate Inferable(info: Info, c: int, u: Usage) {
    c == 0 && info.prices.creationRatio != 1.0 && u.cost != Integer(0) && !(info.prices.usePrice || info.customRatio)
  }

  /** OpenRouter counts Claude's cache tokens into the prompt; they are taken out, inferring the writes from
      the cost when the usage does not tell them. */
  function CountsOf(info: Info, u: Usage, claude: bool): Counts
    requires info.quotaPerUnit > 0.0
  {
    if !(info.openRouter && claude) then
      Counts(u.prompt, u.completion, u.cached, u.creation, u.creation5m, u.creation1h, u.image, u.audio)
    else
      var prompt := u.prompt - u.cached;
      var maybe := if Inferable(info, u.creation, u) then CacheWritesFromCost(u, info.prices, info.quotaPerUnit) else 0;
      var creation := if Inferable(info, u.creation, u) && 0 <= maybe <= prompt then maybe else u.creation;
      Counts(prompt - creation, u.completion, u.cached, creation, u.creation5m, u.creation1h, u.image, u.audio)
  }

  lemma {:induction false} RoundNear(x: real)
    ensures -0.5 <= Round(x) as real - x <= 0.5
  {
  }

  lemma {:induction false} TimesQuotient(x: real, y: real)
    requires y != 0.0
    ensures Times(Quotient(x, y), y) == x
  {
  }

  /** What OpenRouter charges for the prompt as it is then counted is the cost it reported, to within half
      the premium of one cache write. */
  lemma {:induction false} InferredExplainsCost(u: Usage, p: Prices, quotaPerUnit: real)
    requires quotaPerUnit > 0.0 && p.modelRatio != 0.0 && p.creationRatio != 1.0
    ensures var price := TokenPrice(p, quotaPerUnit);
      var premium := Premium(price, p.creationRatio);
      var n := CacheWritesFromCost(u, p, quotaPerUnit);
      var off := OpenRouterCost(price, u.prompt, u.cached, n, u.completion, p) - CostOf(u);
      if premium > 0.0 then -premium / 2.0 <= off <= premium / 2.0 else premium / 2.0 <= off <= -premium / 2.0
  {
    var price := TokenPrice(p, quotaPerUnit);
    PriceNotZero(p, quotaPerUnit);
    PremiumNotZero(price, p.creationRatio);
    var premium := Premium(price, p.creationRatio);
    var n := CacheWritesFromCost(u, p, quotaPerUnit);
    assert n == Round(Quotient(Residual(u, p, price), premium));
    hide *;
    CostOfRounded(u, p, price, premium, n);
  }

  lemma {:induction false} CostOfRounded(u: Usage, p: Prices, price: real, premium: real, n: int)
    requires premium == Premium(price, p.creationRatio) != 0.0 && n == Round(Quotient(Residual(u, p, price), premium))
    ensures var off := OpenRouterCost(price, u.prompt, u.cached, n, u.completion, p) - CostOf(u);
      if premium > 0.0 then -premium / 2.0 <= off <= premium / 2.0 else premium / 2.0 <= off <= -premium / 2.0
  {
    hide OpenRouterCost, Residual, Premium, Round, Quotient;
    var q := Quotient(Residual(u, p, price), premium);
    RoundNear(q);
    TimesQuotient(Residual(u, p, price), premium);
    var explained := u.(cost := Float(OpenRouterCost(price, u.prompt, u.cached, n, u.completion, p)));
    CostLessRest(price, explained, n, p);
    ResidualMoves(u, explained, p, price);
    Scaled(n as real - q, premium);
    Distributes(n as real - q, q, premium);
  }

  lemma {:induction false} ResidualMoves(u: Usage, u': Usage, p: Prices, price: real)
    requires u' == u.(cost := u'.cost)
    ensures Residual(u', p, price) - Residual(u, p, price) == CostOf(u') - CostOf(u)
  {
  }

  lemma {:induction false} Scaled(x: real, y: real)
    requires -0.5 <= x <= 0.5
    ensures if y > 0.0 then -y / 2.0 <= Times(x, y) <= y / 2.0 else y / 2.0 <= Times(x, y) <= -y / 2.0
  {
    var size := if y > 0.0 then y else -y;
    TimesNotNegative(0.5 - x, size);
    TimesNotNegative(0.5 + x, size);
    assert (0.5 - x) * size == 0.5 * size - x * size && (0.5 + x) * size == 0.5 * size + x * size;
    assert x * -y == -(x * y);
  }

  /** Counted as cache writes, the whole prompt comes closer to costing nothing than half a cache write's
      saving: what the cached and the output tokens and those writes cost, in plain tokens, is less. */
  predicate PromptAsWrites(u: Usage, p: Prices) {
    p.modelRatio != 0.0 &&
    Times(u.cached as real, p.cacheRatio) + Times(u.completion as real, p.completionRatio) +
    Times((u.prompt - u.cached) as real, p.creationRatio) < (1.0 - p.creationRatio) / 2.0
  }

  /** Without a cost, or with a cost of zero, the inference runs too.  It then takes either the whole uncached
      prompt for cache writes or nothing, the former exactly when that is as good as free. */
  lemma {:induction false} InferredWithoutCost(info: Info, u: Usage)
    requires info.quotaPerUnit > 0.0 && info.openRouter && CostOf(u) == 0.0 && u.creation == 0
    requires 0 <= u.cached <= u.prompt && u.completion >= 0 && info.prices.creationRatio >= 0.0
    requires (u.cached == 0 || info.prices.cacheRatio >= 0.0)
    requires (u.completion == 0 || info.prices.completionRatio >= 0.0)
    ensures CountsOf(info, u, true).creation ==
            if Inferable(info, 0, u) && PromptAsWrites(u, info.prices) then u.prompt - u.cached else 0
  {
    var p := info.prices;
    if Inferable(info, 0, u) && p.modelRatio != 0.0 {
      CacheWritesWithoutCost(u, p, info.quotaPerUnit);
      var n := (u.prompt - u.cached) as real;
      var x := Times(u.cached as real, p.cacheRatio) + Times(u.completion as real, p.completionRatio);
      CostsNotNegative(u.cached, p.cacheRatio);
      CostsNotNegative(u.completion, p.completionRatio);
      CostsNotNegative(u.prompt - u.cached, p.creationRatio);
      if p.creationRatio < 1.0 {
        RoundedQuotient(u.prompt - u.cached, x, p.creationRatio);
      } else {
        NegatedQuotient(n + x, 1.0 - p.creationRatio);
        NotAbove(-(n + x), p.creationRatio - 1.0);
      }
    }
    hide Times, Round, Quotient, CacheWritesFromCost;
  }

  lemma {:induction false} CostsNotNegative(n: nat, ratio: real)
    requires n == 0 || ratio >= 0.0
    ensures Times(n as real, ratio) >= 0.0
  {
    if n > 0 {
      TimesNotNegative(n as real, ratio);
    }
  }

  /** The price of a token cancels out. */
  lemma {:induction false} CacheWritesWithoutCost(u: Usage, p: Prices, quotaPerUnit: real)
    requires quotaPerUnit > 0.0 && CostOf(u) == 0.0 && p.modelRatio != 0.0 && p.creationRatio != 1.0
    ensures var x := Times(u.cached as real, p.cacheRatio) + Times(u.completion as real, p.completionRatio);
      CacheWritesFromCost(u, p, quotaPerUnit) ==
      Round(Quotient((u.prompt - u.cached) as real + x, 1.0 - p.creationRatio))
  {
    var price := TokenPrice(p, quotaPerUnit);
    PriceNotZero(p, quotaPerUnit);
    PremiumNotZero(price, p.creationRatio);
    var x := Times(u.cached as real, p.cacheRatio) + Times(u.completion as real, p.completionRatio);
    var a := (u.prompt - u.cached) as real + x;
    assert CacheWritesFromCost(u, p, quotaPerUnit) ==
           Round(Quotient(Residual(u, p, price), Premium(price, p.creationRatio)));
    ResidualWithoutCost(u, p, price);
    PremiumIsLess(price, p.creationRatio);
    Cancels(a, 1.0 - p.creationRatio, -price);
    hide *;
  }

  lemma {:induction false} ResidualWithoutCost(u: Usage, p: Prices, price: real)
    requires CostOf(u) == 0.0
    ensures var x := Times(u.cached as real, p.cacheRatio) + Times(u.completion as real, p.completionRatio);
      Residual(u, p, price) == Times((u.prompt - u.cached) as real + x, -price)
  {
    var prompt, cached, completion := u.prompt as real, u.cached as real, u.completion as real;
    assert cached * (price - price * p.cacheRatio) == cached * price - cached * (price * p.cacheRatio);
    assert cached * (price * p.cacheRatio) == cached * p.cacheRatio * price;
    assert completion * (price * p.completionRatio) == completion * p.completionRatio * price;
    Distributes(prompt - cached + cached * p.cacheRatio, completion * p.completionRatio, price);
    Distributes(prompt - cached, cached * p.cacheRatio, price);
    assert (prompt - cached) * price == prompt * price - cached * price;
    assert (u.prompt - u.cached) as real == prompt - cached;
    var a := prompt - cached + cached * p.cacheRatio + completion * p.completionRatio;
    assert a * -price == -(a * price);
  }

  lemma {:induction false} PremiumIsLess(price: real, ratio: real)
    ensures Premium(price, ratio) == Times(1.0 - ratio, -price)
  {
    assert price * (ratio - 1.0) == price * ratio - price;
    assert (1.0 - ratio) * -price == price * (ratio - 1.0);
  }

  lemma {:induction false} Cancels(x: real, y: real, z: real)
    requires y != 0.0 && z != 0.0
    ensures Times(y, z) != 0.0 && Quotient(Times(x, z), Times(y, z)) == Quotient(x, y)
  {
    var q := Quotient(x, y);
    assert Times(q, y) == x by {
      TimesQuotient(x, y);
    }
    TimesAssociates(q, y, z);
    QuotientOf(q, Times(y, z));
  }

  lemma {:induction false} NegatedQuotient(x: real, y: real)
    requires y != 0.0
    ensures Quotient(x, y) == Quotient(-x, -y)
  {
    var q := Quotient(x, y);
    TimesQuotient(x, y);
    assert q * -y == -(q * y);
    QuotientOf(q, -y);
  }

  /** The quotient is at least n, and is rounded down to it exactly when it is less than half above. */
  lemma {:induction false} RoundedQuotient(n: nat, x: real, ratio: real)
    requires x >= 0.0 && 0.0 <= ratio < 1.0
    ensures var r := Round(Quotient(n as real + x, 1.0 - ratio));
      r >= n && (r == n <==> x + Times(n as real, ratio) < (1.0 - ratio) / 2.0)
  {
    var d := 1.0 - ratio;
    var q := Quotient(n as real + x, d);
    TimesQuotient(n as real + x, d);
    TimesNotNegative(n as real, ratio);
    assert Times(n as real, d) == n as real - Times(n as real, ratio);
    Distributes(n as real, 0.5, d);
    InOrder(n as real, q, d);
    InOrder(n as real + 0.5, q, d);
    RoundExact(n);
    RoundGrows(n as real, q);
    hide Times, Quotient;
  }

  lemma {:induction false} InOrder(x: real, y: real, z: real)
    requires z > 0.0
    ensures Times(x, z) <= Times(y, z) <==> x <= y
  {
    if x <= y {
      TimesGrows(x, y, z);
    } else {
      assert Times(x - y, z) > 0.0;
      Distributes(x - y, y, z);
    }
  }

  /** Nothing is inferred without a cost exactly when the inference does not run, or no uncached token is
      there, or writing the prompt is not as good as free. */
  lemma {:induction false} NothingInferredWithoutCost(info: Info, u: Usage)
    requires info.quotaPerUnit > 0.0 && info.openRouter && CostOf(u) == 0.0 && u.creation == 0
    requires 0 <= u.cached <= u.prompt && u.completion >= 0 && info.prices.creationRatio >= 0.0
    requires (u.cached == 0 || info.prices.cacheRatio >= 0.0)
    requires (u.completion == 0 || info.prices.completionRatio >= 0.0)
    ensures CountsOf(info, u, true).creation == 0 <==>
            !Inferable(info, 0, u) || u.prompt == u.cached || !PromptAsWrites(u, info.prices)
  {
    hide CacheWritesFromCost, PromptAsWrites, Inferable;
    InferredWithoutCost(info, u);
  }

  lemma {:induction false} NotAbove(x: real, y: real)
    requires x <= 0.0 && y > 0.0
    ensures Round(Quotient(x, y)) <= 0
  {
    assert Quotient(x, y) <= 0.0;
  }

  /** So never where a cache write is dearer than a plain token. */
  lemma {:induction false} NoCostNothingInferred(info: Info, u: Usage)
    requires info.quotaPerUnit > 0.0 && info.openRouter && CostOf(u) <= 0.0 && u.creation == 0
    requires var p := info.prices;
      p.creationRatio > 1.0 && p.modelRatio > 0.0 && p.cacheRatio >= 0.0 && p.completionRatio >= 0.0
    requires 0 <= u.cached <= u.prompt && u.completion >= 0
    ensures CountsOf(info, u, true).creation == 0
  {
    var p := info.prices;
    var price := TokenPrice(p, info.quotaPerUnit);
    assert price > 0.0;
    PremiumNotZero(price, p.creationRatio);
    assert Premium(price, p.creationRatio) == price * (p.creationRatio - 1.0) > 0.0;
    NothingLeft(u, p, price);
    NotAbove(Residual(u, p, price), Premium(price, p.creationRatio));
    hide Residual, Premium, TokenPrice, Quotient;
  }

  lemma {:induction false} NothingLeft(u: Usage, p: Prices, price: real)
    requires price > 0.0 && p.cacheRatio >= 0.0 && p.completionRatio >= 0.0 && CostOf(u) <= 0.0
    requires 0 <= u.cached <= u.prompt && u.completion >= 0
    ensures Residual(u, p, price) <= 0.0
  {
    var prompt, cached, completion := u.prompt as real, u.cached as real, u.completion as real;
    assert (prompt - cached) * price >= 0.0;
    assert cached * (price * p.cacheRatio) >= 0.0 && completion * (price * p.completionRatio) >= 0.0;
    assert cached * (price - price * p.cacheRatio) == cached * price - cached * (price * p.cacheRatio);
    assert (prompt - cached) * price == prompt * price - cached * price;
  }

  /** And where cache writes are free, a prompt without cached and output tokens is taken for them whole. */
  lemma {:induction false} FreeWritesInferred(info: Info, prompt: nat)
    requires info.quotaPerUnit > 0.0 && info.openRouter && !info.customRatio && !info.prices.usePrice
    requires info.prices.creationRatio == 0.0 && info.prices.modelRatio > 0.0
    ensures var u := NO_USAGE.(prompt := prompt);
      CountsOf(info, u, true) == Counts(0, 0, 0, prompt, 0, 0, 0, 0)
  {
    InferredWithoutCost(info, NO_USAGE.(prompt := prompt));
  }

  /** How many tokens are billed at each ratio. */
  datatype Billed = Billed(base: int, cached: int, creation: int, creation5m: int, creation1h: int, image: int,
                           audio: int, completion: int)

  function BilledTokens(c: Counts, apart: bool, audioPriced: bool): Billed {
    var writes := c.creation != 0 || c.creation5m > 0 || c.creation1h > 0;
    var rest := c.creation - c.creation5m - c.creation1h;
    Billed(c.prompt - (if apart then 0 else c.cached) - (if apart || !writes then 0 else c.creation) - c.image -
             (if audioPriced then c.audio else 0),
           c.cached,
           if !writes then 0 else if !apart then c.creation else if rest < 0 then 0 else rest,
           if writes && apart then c.creation5m else 0,
           if writes && apart then c.creation1h else 0,
           c.image,
           if audioPriced then c.audio else 0,
           c.completion)
  }

  /** OpenAI usages include cached, written, image and audio tokens in the prompt: each prompt token is billed
      once. */
  lemma {:induction false} PromptBilledOnce(c: Counts, audioPriced: bool)
    ensures var b := BilledTokens(c, false, audioPriced);
      b.base + b.cached + b.creation + b.creation5m + b.creation1h + b.image + b.audio == c.prompt
  {
  }

  /** Claude usages count them apart: the cache writes billed are the cache writes reported, and the prompt
      is billed beside them. */
  lemma {:induction false} CacheWritesBilledOnce(c: Counts, audioPriced: bool)
    requires c.creation >= 0 && c.creation5m >= 0 && c.creation1h >= 0
    ensures var b := BilledTokens(c, true, audioPriced);
      && b.creation + b.creation5m + b.creation1h == CacheWriteTokensTotal(c.creation, c.creation5m, c.creation1h)
      && b.base + b.image + b.audio == c.prompt
  {
  }

  /** On OpenRouter the prompt it reports is billed once, as plain, cached or written; only cache writes that
      the usage splits up without counting them are billed beyond it. */
  lemma {:induction false} OpenRouterBilledOnce(info: Info, u: Usage, audioPriced: bool)
    requires info.openRouter && info.quotaPerUnit > 0.0
    requires u.creation >= 0 && u.creation5m >= 0 && u.creation1h >= 0
    ensures var c := CountsOf(info, u, true);
      var b := BilledTokens(c, true, audioPriced);
      var uncounted := u.creation5m + u.creation1h - c.creation;
      b.base + b.cached + b.creation + b.creation5m + b.creation1h + b.image + b.audio ==
      u.prompt + if uncounted > 0 then uncounted else 0
  {
    hide CacheWritesFromCost;
  }

  // ----- From tokens to quota -----

  const MAX_INT := 0x7FFF_FFFF_FFFF_FFFF

  function Saturate(x: int): int {
    if x <= 0 then 0 else if x > MAX_INT then MAX_INT else x
  }

  /** The weighted sum of the prompt's tokens. */
  function PromptWeight(b: Billed, p: Prices): real {
    b.base as real + b.cached as real * p.cacheRatio + b.image as real * p.imageRatio +
    (b.creation as real * p.creationRatio + b.creation5m as real * p.creation5mRatio +
     b.creation1h as real * p.creation1hRatio)
  }

  function Ratio(p: Prices): real {
    p.modelRatio * p.groupRatio
  }

  function AudioCost(info: Info, audio: int): real {
    info.audioPrice / 1000000.0 * audio as real * info.prices.groupRatio * info.quotaPerUnit
  }

  function Amount(info: Info, b: Billed): real {
    var p := info.prices;
    if p.usePrice then p.modelPrice * info.quotaPerUnit * p.groupRatio + info.surcharge
    else (PromptWeight(b, p) + b.completion as real * p.completionRatio) * Ratio(p) + info.surcharge +
         AudioCost(info, b.audio)
  }

  function Times(x: real, y: real): real {
    x * y
  }

  function Product(xs: seq<real>): real {
    if xs == [] then 1.0 else Times(Product(xs[..|xs| - 1]), xs[|xs| - 1])
  }

  /** The least charge, the rounding and the final clamps. */
  function Charge(info: Info, amount: real, total: int): int {
    var ratio := Ratio(info.prices);
    var raised := if !info.prices.usePrice && ratio != 0.0 && amount <= 0.0 then 1.0 else amount;
    var quota := Saturate(Round(raised));
    if total == 0 then 0 else if ratio != 0.0 && quota == 0 then 1 else quota
  }

  function QuotaOf(info: Info, b: Billed, others: seq<real>, total: int): int {
    Charge(info, Times(Amount(info, b), Product(others)), total)
  }

  /** The calculation as it runs; others are the further ratios in the order the map yields them. */
  method CalculateTextQuota(info: Info, usage: Option<Usage>, others: seq<real>) returns (quota: int, billed: Billed)
    requires info.quotaPerUnit > 0.0
    ensures var u := EffectiveUsage(info, usage);
      var claude := SemanticOf(info, usage) == Anthropic;
      && billed == BilledTokens(CountsOf(info, u, claude), claude || LegacyClaude(info, u), info.audioPrice > 0.0)
      && quota == QuotaOf(info, billed, others, u.prompt + u.completion)
  {
    hide PromptWeight, Ratio, AudioCost, Times;
    var claude := SemanticOf(info, usage) == Anthropic;
    var u := EffectiveUsage(info, usage);
    var apart := claude || LegacyClaude(info, u);
    var c := CountsOf(info, u, claude);
    billed := CountTokens(c, apart, info.audioPrice > 0.0);
    var amount := AddUp(info, billed);
    var i := 0;
    ghost var start := amount;
    assert others[..0] == [];
    TimesOne(amount);
    while i < |others|
      invariant 0 <= i <= |others|
      invariant amount == Times(start, Product(others[..i]))
    {
      assert others[..i + 1][..i] == others[..i];
      TimesAssociates(start, Product(others[..i]), others[i]);
      amount := Times(amount, others[i]);
      i := i + 1;
    }
    assert others[..i] == others;
    quota := Charge(info, amount, u.prompt + u.completion);
  }

  lemma {:induction false} TimesOne(x: real)
    ensures Times(x, 1.0) == x
  {
  }

  lemma {:induction false} TimesAssociates(x: real, y: real, z: real)
    ensures Times(Times(x, y), z) == Times(x, Times(y, z))
  {
  }

  /** The branches that move tokens out of the prompt. */
  method CountTokens(c: Counts, apart: bool, audioPriced: bool) returns (b: Billed)
    ensures b == BilledTokens(c, apart, audioPriced)
  {
    var base := c.prompt;
    if c.cached != 0 && !apart {
      base := base - c.cached;
    }
    var creation, creation5m, creation1h := 0, 0, 0;
    if c.creation != 0 || c.creation5m > 0 || c.creation1h > 0 {
      if !apart {
        base := base - c.creation;
        creation := c.creation;
      } else {
        creation := c.creation - c.creation5m - c.creation1h;
        if creation < 0 {
          creation := 0;
        }
        creation5m, creation1h := c.creation5m, c.creation1h;
      }
    }
    var image := 0;
    if c.image != 0 {
      base := base - c.image;
      image := c.image;
    }
    var audio := 0;
    if c.audio != 0 && audioPriced {
      base := base - c.audio;
      audio := c.audio;
    }
    return Billed(base, c.cached, creation, creation5m, creation1h, image, audio, c.completion);
  }

  method AddUp(info: Info, b: Billed) returns (amount: real)
    ensures amount == Amount(info, b)
  {
    hide PromptWeight, Ratio, AudioCost;
    var p := info.prices;
    if p.usePrice {
      amount := p.modelPrice * info.quotaPerUnit * p.groupRatio;
      return amount + info.surcharge;
    }
    amount := (PromptWeight(b, p) + b.completion as real * p.completionRatio) * Ratio(p);
    amount := amount + info.surcharge;
    amount := amount + AudioCost(info, b.audio);
  }

  // ----- What the quota promises -----

  /** A request with tokens and a ratio costs at least one, one without tokens nothing. */
  lemma {:induction false} AtLeastOne(info: Info, amount: real, total: int)
    ensures var q := Charge(info, amount, total);
      && 0 <= q <= MAX_INT
      && (total == 0 ==> q == 0)
      && (total != 0 && Ratio(info.prices) != 0.0 ==> q >= 1)
  {
    hide Ratio, Round;
  }

  lemma {:induction false} ProductWithout(xs: seq<real>, i: nat)
    requires i < |xs|
    ensures Product(xs) == Times(Product(xs[..i] + xs[i + 1..]), xs[i])
  {
    hide Times;
    var n := |xs| - 1;
    if i == n {
      assert xs[..i] + xs[i + 1..] == xs[..n];
    } else {
      var ys := xs[..i] + xs[i + 1..];
      assert ys[..|ys| - 1] == xs[..n][..i] + xs[..n][i + 1..] && ys[|ys| - 1] == xs[n];
      ProductWithout(xs[..n], i);
      SwapFactors(Product(ys[..|ys| - 1]), xs[i], xs[n]);
    }
  }

  lemma {:induction false} SwapFactors(x: real, y: real, z: real)
    ensures Times(Times(x, y), z) == Times(Times(x, z), y)
  {
  }

  /** The product of the further ratios is the same in every order. */
  lemma {:induction false} ProductOfAnyOrder(xs: seq<real>, ys: seq<real>)
    requires multiset(xs) == multiset(ys)
    ensures Product(xs) == Product(ys)
    decreases |xs|
  {
    if xs == [] {
      assert |multiset(ys)| == 0;
    } else {
      var n := |xs| - 1;
      assert xs[n] in multiset(xs);
      var i :| 0 <= i < |ys| && ys[i] == xs[n];
      RemovedAlike(xs, ys, i);
      ProductOfAnyOrder(xs[..n], ys[..i] + ys[i + 1..]);
      ProductWithout(ys, i);
    }
  }

  lemma {:induction false} RemovedAlike<T>(xs: seq<T>, ys: seq<T>, i: nat)
    requires multiset(xs) == multiset(ys) && xs != [] && i < |ys| && ys[i] == xs[|xs| - 1]
    ensures multiset(xs[..|xs| - 1]) == multiset(ys[..i] + ys[i + 1..])
  {
    WithoutAt(xs, |xs| - 1);
    WithoutAt(ys, i);
    assert xs[..|xs| - 1] + xs[|xs|..] == xs[..|xs| - 1];
  }

  lemma {:induction false} WithoutAt<T>(xs: seq<T>, i: nat)
    requires i < |xs|
    ensures multiset(xs[..i] + xs[i + 1..]) == multiset(xs) - multiset{xs[i]}
  {
    assert xs == xs[..i] + ([xs[i]] + xs[i + 1..]);
  }

  /** So the quota does not depend on the order in which the ratios come out of their map. */
  lemma {:induction false} OrderDoesNotMatter(info: Info, b: Billed, others: seq<real>, others': seq<real>, total: int)
    requires multiset(others) == multiset(others')
    ensures QuotaOf(info, b, others, total) == QuotaOf(info, b, others', total)
  {
    ProductOfAnyOrder(others, others');
  }

  // ----- More output never costs less -----

  predicate PricesNotNegative(p: Prices) {
    p.completionRatio >= 0.0 && p.modelRatio >= 0.0 && p.groupRatio >= 0.0
  }

  lemma {:induction false} ChargeGrows(info: Info, x: real, y: real, total: int, total': int)
    requires x <= y && 0 <= total <= total'
    requires !info.prices.usePrice && Ratio(info.prices) != 0.0
    ensures Charge(info, x, total) <= Charge(info, y, total')
  {
    hide Ratio;
    RoundGrows(x, y);
    AtLeastOne(info, x, total);
    AtLeastOne(info, y, total');
    if x <= 0.0 {
      RoundExact(1);
    }
  }

  lemma {:induction false} RoundGrows(x: real, y: real)
    requires x <= y
    ensures Round(x) <= Round(y) && (x <= 0.0 ==> Round(x) <= 0)
  {
  }

  lemma {:induction false} ProductNotNegative(xs: seq<real>)
    requires forall i | 0 <= i < |xs| :: xs[i] >= 0.0
    ensures Product(xs) >= 0.0
  {
    if xs != [] {
      ProductNotNegative(xs[..|xs| - 1]);
      TimesNotNegative(Product(xs[..|xs| - 1]), xs[|xs| - 1]);
    }
  }

  lemma {:induction false} TimesNotNegative(x: real, y: real)
    requires x >= 0.0 && y >= 0.0
    ensures Times(x, y) >= 0.0
  {
  }

  lemma {:induction false} TimesGrows(x: real, y: real, z: real)
    requires x <= y && z >= 0.0
    ensures Times(x, z) <= Times(y, z)
  {
    TimesNotNegative(y - x, z);
    assert (y - x) * z == y * z - x * z;
  }

  lemma {:induction false} AmountGrows(info: Info, b: Billed, completion: int)
    requires PricesNotNegative(info.prices) && !info.prices.usePrice && b.completion <= completion
    ensures Amount(info, b) <= Amount(info, b.(completion := completion))
  {
    hide AudioCost;
    var p := info.prices;
    TimesNotNegative(p.modelRatio, p.groupRatio);
    TimesGrows(b.completion as real, completion as real, p.completionRatio);
    var b' := b.(completion := completion);
    assert PromptWeight(b', p) == PromptWeight(b, p);
    TimesGrows(PromptWeight(b, p) + b.completion as real * p.completionRatio,
               PromptWeight(b, p) + completion as real * p.completionRatio, Ratio(p));
  }

  /** With ratios that are not negative, and through rounding and clamps, more output never costs less. */
  lemma {:induction false} MoreOutputNeverCheaper(info: Info, b: Billed, completion: int, others: seq<real>,
                                                  prompt: nat)
    requires PricesNotNegative(info.prices) && Ratio(info.prices) != 0.0 && !info.prices.usePrice
    requires forall i | 0 <= i < |others| :: others[i] >= 0.0
    requires 0 <= b.completion <= completion
    ensures QuotaOf(info, b, others, prompt + b.completion) <=
            QuotaOf(info, b.(completion := completion), others, prompt + completion)
  {
    hide Amount, Charge, Product, Times;
    AmountGrows(info, b, completion);
    ProductNotNegative(others);
    TimesGrows(Amount(info, b), Amount(info, b.(completion := completion)), Product(others));
    ChargeGrows(info, Times(Amount(info, b), Product(others)),
                Times(Amount(info, b.(completion := completion)), Product(others)),
                prompt + b.completion, prompt + completion);
  }

  /** The same of whole usages, as long as the cache writes counted are the same. */
  lemma {:induction false} MoreOutputOfUsage(info: Info, u: Usage, completion: int, claude: bool, apart: bool,
                                             others: seq<real>)
    requires info.quotaPerUnit > 0.0 && PricesNotNegative(info.prices) && Ratio(info.prices) != 0.0
    requires !info.prices.usePrice
    requires forall i | 0 <= i < |others| :: others[i] >= 0.0
    requires u.prompt >= 0 && 0 <= u.completion <= completion
    requires CountsOf(info, u.(completion := completion), claude).creation == CountsOf(info, u, claude).creation
    ensures UsageQuota(info, u, claude, apart, others) <=
            UsageQuota(info, u.(completion := completion), claude, apart, others)
  {
    hide QuotaOf, Ratio, CacheWritesFromCost, Inferable;
    var b := BilledTokens(CountsOf(info, u, claude), apart, info.audioPrice > 0.0);
    MoreOutputNeverCheaper(info, b, completion, others, u.prompt);
  }

  function UsageQuota(info: Info, u: Usage, claude: bool, apart: bool, others: seq<real>): int
    requires info.quotaPerUnit > 0.0
  {
    QuotaOf(info, BilledTokens(CountsOf(info, u, claude), apart, info.audioPrice > 0.0), others,
            u.prompt + u.completion)
  }

  /** The cache writes billed at their own ratio beside the split ones. */
  function RestWrites(c: Counts): int {
    var rest := c.creation - c.creation5m - c.creation1h;
    if rest < 0 then 0 else rest
  }

  /** More output brings no less than it takes away: what it costs itself, and the tokens that return to the
      plain prompt, make up for the cache writes that are no longer billed. */
  predicate OutputMakesUp(info: Info, u: Usage, completion: int)
    requires info.quotaPerUnit > 0.0
  {
    var c := CountsOf(info, u, true);
    var c' := CountsOf(info, u.(completion := completion), true);
    Times((RestWrites(c) - RestWrites(c')) as real, info.prices.creationRatio) <=
    Times((completion - u.completion) as real, info.prices.completionRatio) + (c.creation - c'.creation) as real
  }

  function UsageAmount(info: Info, u: Usage): real
    requires info.quotaPerUnit > 0.0
  {
    Amount(info, BilledTokens(CountsOf(info, u, true), true, info.audioPrice > 0.0))
  }

  /** Where more output changes the cache writes inferred, the amount before rounding is no less exactly when
      it makes up for them. */
  lemma {:induction false} MoreOutputAgainstWrites(info: Info, u: Usage, completion: int)
    requires info.quotaPerUnit > 0.0 && !info.prices.usePrice && Ratio(info.prices) > 0.0
    requires u.creation5m >= 0 && u.creation1h >= 0
    ensures UsageAmount(info, u) <= UsageAmount(info, u.(completion := completion)) <==>
      OutputMakesUp(info, u, completion)
  {
    hide CacheWritesFromCost, Inferable, Ratio, AudioCost, PromptWeight;
    var p := info.prices;
    var b := BilledTokens(CountsOf(info, u, true), true, info.audioPrice > 0.0);
    var b' := BilledTokens(CountsOf(info, u.(completion := completion), true), true, info.audioPrice > 0.0);
    var k := (b'.completion - b.completion) as real;
    WeightsDiffer(b, b', p);
    Distributes(b.completion as real, k, p.completionRatio);
    assert b'.completion as real == b.completion as real + k;
    var x := PromptWeight(b, p) + b.completion as real * p.completionRatio;
    var x' := PromptWeight(b', p) + b'.completion as real * p.completionRatio;
    assert x' - x == Times(k, p.completionRatio) + (b'.base - b.base) as real -
                     Times((b.creation - b'.creation) as real, p.creationRatio);
    SameOrder(x, x', Ratio(p));
  }

  lemma {:induction false} WeightsDiffer(b: Billed, b': Billed, p: Prices)
    requires b' == b.(base := b'.base, creation := b'.creation, completion := b'.completion)
    ensures PromptWeight(b, p) - PromptWeight(b', p) ==
            Times((b.creation - b'.creation) as real, p.creationRatio) - (b'.base - b.base) as real
  {
    var d := (b.creation - b'.creation) as real;
    assert b.creation as real == b'.creation as real + d;
    Distributes(b'.creation as real, d, p.creationRatio);
  }

  /** And then, through the further ratios, the least charge, rounding and clamps, the quota is no less
      either. */
  lemma {:induction false} MoreOutputMakesUp(info: Info, u: Usage, completion: int, others: seq<real>)
    requires info.quotaPerUnit > 0.0 && !info.prices.usePrice && Ratio(info.prices) > 0.0
    requires u.creation5m >= 0 && u.creation1h >= 0 && u.prompt >= 0 && 0 <= u.completion <= completion
    requires forall i | 0 <= i < |others| :: others[i] >= 0.0
    requires OutputMakesUp(info, u, completion)
    ensures UsageQuota(info, u, true, true, others) <=
            UsageQuota(info, u.(completion := completion), true, true, others)
  {
    hide CountsOf, BilledTokens, Amount, Charge, Product, Times, Ratio, OutputMakesUp;
    MoreOutputAgainstWrites(info, u, completion);
    ProductNotNegative(others);
    var u' := u.(completion := completion);
    TimesGrows(UsageAmount(info, u), UsageAmount(info, u'), Product(others));
    ChargeGrows(info, Times(UsageAmount(info, u), Product(others)), Times(UsageAmount(info, u'), Product(others)),
                u.prompt + u.completion, u.prompt + completion);
  }

  /** Where it falls short by a whole unit of quota or more, and no clamp is reached, the quota is less. */
  lemma {:induction false} MoreOutputFallsShort(info: Info, u: Usage, completion: int, others: seq<real>)
    requires info.quotaPerUnit > 0.0 && !info.prices.usePrice && Ratio(info.prices) > 0.0
    requires u.prompt + u.completion != 0 && u.prompt + completion != 0
    requires var x := Times(UsageAmount(info, u), Product(others));
      var y := Times(UsageAmount(info, u.(completion := completion)), Product(others));
      0.5 <= y && y + 1.0 <= x <= MAX_INT as real
    ensures UsageQuota(info, u, true, true, others) > UsageQuota(info, u.(completion := completion), true, true, others)
  {
    hide CountsOf, BilledTokens, Amount, Product, Times, Ratio;
  }

  lemma {:induction false} SameOrder(x: real, y: real, z: real)
    requires z > 0.0
    ensures x <= y <==> x * z <= y * z
  {
  }

  /** An OpenRouter model whose cache writes cost three times a plain token. */
  const DEAR_WRITES :=
    Info(true, true, false, 0, Prices(1.0, 0.1, 1.0, 1.0, 1.0, 0.0, 3.0, 3.0, 3.0, false), 0.0, 0.0, 1.0)

  /** Where they are inferred from the cost, it can: the second output token makes the cost explain one
      cache write less, and a cache write is dearer than an output token. */
  lemma {:induction false} MoreOutputCheaperWhenInferred(info: Info, u: Usage)
    requires info == DEAR_WRITES
    requires u == NO_USAGE.(prompt := 10, cost := Float(13.0))
    ensures UsageQuota(info, u, true, true, []) == 14 && UsageQuota(info, u.(completion := 1), true, true, []) == 13
  {
    InferredHere(info.prices, u, 2, 1.5);
    InferredHere(info.prices, u.(completion := 1), 1, 1.0);
    hide CacheWritesFromCost, QuotaOf;
    ChargedHere(info, Billed(8, 0, 2, 0, 0, 0, 0, 0), 10);
    ChargedHere(info, Billed(9, 0, 1, 0, 0, 0, 0, 1), 11);
  }

  lemma {:induction false} ChargedHere(info: Info, b: Billed, total: nat)
    requires info == DEAR_WRITES
    requires b == Billed(b.base, 0, b.creation, 0, 0, 0, 0, b.completion) && total > 0
    requires 0 < b.base + 3 * b.creation + b.completion < 100
    ensures QuotaOf(info, b, [], total) == b.base + 3 * b.creation + b.completion
  {
    hide Round, Amount, Times, Product, Ratio;
    var n := b.base + 3 * b.creation + b.completion;
    AmountHere(info, b);
    NoFurtherRatios(n as real);
    RoundExact(n);
  }

  lemma {:induction false} NoFurtherRatios(x: real)
    ensures Times(x, Product([])) == x
  {
  }

  lemma {:induction false} AmountHere(info: Info, b: Billed)
    requires info == DEAR_WRITES
    requires b == Billed(b.base, 0, b.creation, 0, 0, 0, 0, b.completion)
    ensures Amount(info, b) == (b.base + 3 * b.creation + b.completion) as real && Ratio(info.prices) == 1.0
  {
    AudioAdds(info, 0, 0);
    hide AudioCost;
    assert PromptWeight(b, info.prices) == b.base as real + b.creation as real * 3.0;
  }

  lemma {:induction false} InferredHere(p: Prices, u: Usage, n: int, q: real)
    requires p.modelRatio == 1.0 && p.creationRatio == 3.0 && p.cacheRatio == 0.1 && p.completionRatio == 1.0
    requires u.cached == 0
    requires u.cost == Float(u.prompt as real + u.completion as real + 2.0 * q) && Round(q) == n
    ensures CacheWritesFromCost(u, p, 1.0) == n
  {
    assert TokenPrice(p, 1.0) == 1.0 && Premium(1.0, 3.0) == 2.0;
    assert Residual(u, p, 1.0) == 2.0 * q;
    assert Quotient(2.0 * q, 2.0) == q;
  }

  // ----- Each token at its own price -----

  const NO_TOKENS := Billed(0, 0, 0, 0, 0, 0, 0, 0)

  function Together(b: Billed, b': Billed): Billed {
    Billed(b.base + b'.base, b.cached + b'.cached, b.creation + b'.creation, b.creation5m + b'.creation5m,
           b.creation1h + b'.creation1h, b.image + b'.image, b.audio + b'.audio, b.completion + b'.completion)
  }

  /** The part of the amount that the tokens make up. */
  function TokenCost(info: Info, b: Billed): real {
    Amount(info, b) - Amount(info, NO_TOKENS)
  }

  lemma {:induction false} Distributes(x: real, y: real, z: real)
    ensures (x + y) * z == x * z + y * z
    ensures Times(x + y, z) == Times(x, z) + Times(y, z)
  {
  }

  lemma {:induction false} WeightsAdd(b: Billed, b': Billed, p: Prices)
    ensures PromptWeight(Together(b, b'), p) == PromptWeight(b, p) + PromptWeight(b', p)
  {
    Distributes(b.cached as real, b'.cached as real, p.cacheRatio);
    Distributes(b.image as real, b'.image as real, p.imageRatio);
    Distributes(b.creation as real, b'.creation as real, p.creationRatio);
    Distributes(b.creation5m as real, b'.creation5m as real, p.creation5mRatio);
    Distributes(b.creation1h as real, b'.creation1h as real, p.creation1hRatio);
  }

  lemma {:induction false} AudioAdds(info: Info, x: int, y: int)
    ensures AudioCost(info, x + y) == AudioCost(info, x) + AudioCost(info, y)
    ensures AudioCost(info, 0) == 0.0
  {
    var unit := info.audioPrice / 1000000.0;
    Distributes(x as real, y as real, unit);
    Distributes(unit * x as real, unit * y as real, info.prices.groupRatio);
    Distributes(unit * x as real * info.prices.groupRatio, unit * y as real * info.prices.groupRatio,
                info.quotaPerUnit);
  }

  lemma {:induction false} AmountWithout(info: Info)
    requires !info.prices.usePrice
    ensures Amount(info, NO_TOKENS) == info.surcharge
  {
    AudioAdds(info, 0, 0);
  }

  /** Before rounding, tokens cost the same together as apart. */
  lemma {:induction false} CostsAddUp(info: Info, b: Billed, b': Billed)
    requires !info.prices.usePrice
    ensures TokenCost(info, Together(b, b')) == TokenCost(info, b) + TokenCost(info, b')
  {
    hide PromptWeight, Ratio, AudioCost;
    var p := info.prices;
    var t := Together(b, b');
    AmountWithout(info);
    WeightsAdd(b, b', p);
    AudioAdds(info, b.audio, b'.audio);
    Distributes(b.completion as real, b'.completion as real, p.completionRatio);
    Distributes(PromptWeight(b, p) + b.completion as real * p.completionRatio,
                PromptWeight(b', p) + b'.completion as real * p.completionRatio, Ratio(p));
  }

  /** And each of them costs what its own ratio says. */
  lemma {:induction false} UnitPrices(info: Info)
    requires !info.prices.usePrice
    ensures var p := info.prices; var one := Times(p.modelRatio, p.groupRatio);
      && TokenCost(info, NO_TOKENS.(base := 1)) == one
      && TokenCost(info, NO_TOKENS.(cached := 1)) == p.cacheRatio * one
      && TokenCost(info, NO_TOKENS.(creation := 1)) == p.creationRatio * one
      && TokenCost(info, NO_TOKENS.(creation5m := 1)) == p.creation5mRatio * one
      && TokenCost(info, NO_TOKENS.(creation1h := 1)) == p.creation1hRatio * one
      && TokenCost(info, NO_TOKENS.(image := 1)) == p.imageRatio * one
      && TokenCost(info, NO_TOKENS.(completion := 1)) == p.completionRatio * one
      && TokenCost(info, NO_TOKENS.(audio := 1)) == info.audioPrice / 1000000.0 * p.groupRatio * info.quotaPerUnit
  {
    RatioIs(info.prices);
    AmountWithout(info);
    AudioAdds(info, 0, 0);
    hide Ratio, Times;
  }

  lemma {:induction false} RatioIs(p: Prices)
    ensures Ratio(p) == Times(p.modelRatio, p.groupRatio)
  {
  }

  /** A positive amount within range is charged to the nearest whole number. */
  lemma {:induction false} ChargedToTheNearest(info: Info, amount: real, total: int)
    requires total != 0 && 0.5 <= amount <= MAX_INT as real
    ensures var q := Charge(info, amount, total) as real; -0.5 <= q - amount <= 0.5
  {
    hide Ratio;
  }
}
