/**
 Prices and cost estimates (server/application/domain/model/model_billing.py and
 server/adapter/outbound/persistence/model_billing_factory_adapter.py), and the
 theorem that accumulating estimates is the same as estimating the accumulated usage.
 Money is `real`: the program's floating-point rounding is not modelled.
 */
module Billing {
  import opened Wrappers
  import opened UsageStats

  function Charge(tokens: nat, rate: real, tokensPerPrice: int): real
    requires tokensPerPrice >= 1
  {
    tokens as real * rate / tokensPerPrice as real
  }

  datatype ModelBilling = ModelBilling(tokensPerPrice: int, inputRate: real, outputRate: real) {
    /** What the constructor accepts; it raises ValueError on anything else. */
    predicate Valid() {
      tokensPerPrice >= 1 && inputRate >= 0.0 && outputRate >= 0.0
    }

    function Estimate(u: TokensUsage): TokensCost
      requires Valid()
    {
      var p := Charge(u.prompt, inputRate, tokensPerPrice);
      var c := Charge(u.completion, outputRate, tokensPerPrice);
      TokensCost(p, c, p + c)
    }
  }

  lemma ChargeAdditive(a: nat, b: nat, rate: real, tokensPerPrice: int)
    requires tokensPerPrice >= 1
    ensures Charge(a + b, rate, tokensPerPrice) == Charge(a, rate, tokensPerPrice) + Charge(b, rate, tokensPerPrice)
  {
    var x, y, per := a as real * rate, b as real * rate, tokensPerPrice as real;
    assert (a + b) as real * rate == x + y;
    assert (x + y) / per == x / per + y / per;
  }

  /** `Estimate` is additive in the usage. */
  lemma EstimateAdditive(b: ModelBilling, u: TokensUsage, v: TokensUsage)
    requires b.Valid()
    ensures Some(b.Estimate(AddUsage(u, v))) == AddCost(Some(b.Estimate(u)), Some(b.Estimate(v)))
  {
    ChargeAdditive(u.prompt, v.prompt, b.inputRate, b.tokensPerPrice);
    ChargeAdditive(u.completion, v.completion, b.outputRate, b.tokensPerPrice);
  }

  /** The cost is the tokens at the engine's rates: prompt at the input rate, completion at the output rate. */
  ghost predicate AtRates(b: ModelBilling, u: TokensUsage, cost: TokensCost) {
    && cost.prompt * b.tokensPerPrice as real == u.prompt as real * b.inputRate
    && cost.completion * b.tokensPerPrice as real == u.completion as real * b.outputRate
    && cost.total == cost.prompt + cost.completion
  }

  lemma EstimateAtRates(b: ModelBilling, u: TokensUsage)
    requires b.Valid()
    ensures AtRates(b, u, b.Estimate(u))
  {
  }

  // ---------- The pricing table ----------

  /** One entry of the pricing file after JSON parsing, before validation. */
  datatype CostItem = CostItem(provider: string, model: string, billing: ModelBilling) {
    predicate Acceptable() {
      provider != "" && model != "" && billing.Valid()
    }
  }

  type Pricing = map<(string, string), ModelBilling>

  ghost predicate ValidPricing(t: Pricing) {
    forall k :: k in t ==> t[k].Valid()
  }

  ghost predicate LastFor(items: seq<CostItem>, key: (string, string), i: int) {
    && 0 <= i < |items|
    && (items[i].provider, items[i].model) == key
    && forall j :: i < j < |items| ==> (items[j].provider, items[j].model) != key
  }

  ghost predicate IsLastEntry(b: ModelBilling, items: seq<CostItem>, key: (string, string)) {
    exists i :: LastFor(items, key, i) && b == items[i].billing
  }

  /** `t` maps exactly the listed pairs, each to its last entry. */
  ghost predicate Tabulates(t: Pricing, items: seq<CostItem>) {
    && (forall i :: 0 <= i < |items| ==> (items[i].provider, items[i].model) in t)
    && (forall key :: key in t ==> IsLastEntry(t[key], items, key))
  }

  /**
   Fills the table entry by entry, a later entry replacing an earlier one for the same
   pair. The first unacceptable entry aborts the load; its index is reported.
   */
  method LoadPricing(items: seq<CostItem>) returns (r: Result<Pricing, nat>)
    ensures r.Success? ==> ValidPricing(r.value) && Tabulates(r.value, items)
    ensures r.Success? <==> forall i :: 0 <= i < |items| ==> items[i].Acceptable()
    ensures r.Failure? ==> && r.error < |items| && !items[r.error].Acceptable()
                           && forall i :: 0 <= i < r.error ==> items[i].Acceptable()
  {
    var pricing: Pricing := map[];
    var i := 0;
    while i < |items|
      invariant 0 <= i <= |items|
      invariant forall j :: 0 <= j < i ==> items[j].Acceptable()
      invariant ValidPricing(pricing)
      invariant Tabulates(pricing, items[..i])
    {
      var item := items[i];
      if !item.Acceptable() {
        return Failure(i);
      }
      var key := (item.provider, item.model);
      ghost var before := pricing;
      pricing := pricing[key := item.billing];
      forall k | k in pricing
        ensures IsLastEntry(pricing[k], items[..i + 1], k)
      {
        if k == key {
          assert LastFor(items[..i + 1], k, i);
        } else {
          var j :| LastFor(items[..i], k, j) && before[k] == items[..i][j].billing;
          assert LastFor(items[..i + 1], k, j);
        }
      }
      i := i + 1;
    }
    assert items[..i] == items;
    return Success(pricing);
  }

  /** The engine for a pair, or nothing when the pair has no price. */
  function BillingFor(t: Pricing, provider: string, model: string): Option<ModelBilling> {
    if (provider, model) in t then Some(t[(provider, model)]) else None
  }

  function CostBy(b: Option<ModelBilling>, u: TokensUsage): Option<TokensCost>
    requires b.Some? ==> b.value.Valid()
  {
    if b.Some? then Some(b.value.Estimate(u)) else None
  }

  // ---------- Accumulated cost ----------

  /** The statistics are what the table charges for the usage they show. */
  ghost predicate Priced(t: Pricing, provider: string, model: string, s: ModelStats)
    requires ValidPricing(t)
  {
    s.cost == CostBy(BillingFor(t, provider, model), s.usage)
  }

  ghost predicate PricedLog(t: Pricing, log: seq<Entry>)
    requires ValidPricing(t)
  {
    forall i :: 0 <= i < |log| ==> Priced(t, log[i].provider, log[i].model, log[i].stats)
  }

  lemma MergePriced(t: Pricing, provider: string, model: string, a: ModelStats, b: ModelStats)
    requires ValidPricing(t)
    requires Priced(t, provider, model, a) && Priced(t, provider, model, b)
    ensures Priced(t, provider, model, Merge(a, b))
  {
    if (provider, model) in t {
      EstimateAdditive(t[(provider, model)], a.usage, b.usage);
    }
  }

  /**
   Starting from nothing, every accumulated row shows the price of its accumulated
   usage: no cost exactly for an unpriced pair, otherwise its tokens at the pair's rates.
   */
  lemma {:induction false} BillingHomomorphism(t: Pricing, log: seq<Entry>, provider: string, model: string)
    requires ValidPricing(t) && PricedLog(t, log)
    ensures var row := Lookup(Accumulate(map[], log), provider, model);
            row.Some? ==>
              && Priced(t, provider, model, row.value)
              && (row.value.cost.None? <==> (provider, model) !in t)
              && (row.value.cost.Some? ==> AtRates(t[(provider, model)], row.value.usage, row.value.cost.value))
  {
    hide AtRates;
    var shown := Lookup(Accumulate(map[], log), provider, model);
    if shown.Some? && (provider, model) in t {
      EstimateAtRates(t[(provider, model)], shown.value.usage);
    }
    if log != [] {
      var n := |log| - 1;
      var e := log[n];
      BillingHomomorphism(t, log[..n], provider, model);
      var row := Lookup(Accumulate(map[], log[..n]), provider, model);
      if e.provider == provider && e.model == model && row.Some? {
        MergePriced(t, provider, model, row.value, e.stats);
      }
    }
  }

  // ---------- More usage never costs less ----------

  /** Both are priced or neither is, and no part of the first is larger. */
  ghost predicate CostAtMost(a: Option<TokensCost>, b: Option<TokensCost>) {
    && (a.Some? <==> b.Some?)
    && (a.Some? ==> && a.value.prompt <= b.value.prompt
                    && a.value.completion <= b.value.completion
                    && a.value.total <= b.value.total)
  }

  /** No larger an amount: neither in tokens nor in cost. */
  ghost predicate AtMost(a: Option<ModelStats>, b: Option<ModelStats>) {
    NoMore(a, b) && (a.Some? ==> CostAtMost(a.value.cost, b.value.cost))
  }

  lemma ChargeMonotone(a: nat, b: nat, rate: real, tokensPerPrice: int)
    requires tokensPerPrice >= 1 && rate >= 0.0 && a <= b
    ensures Charge(a, rate, tokensPerPrice) <= Charge(b, rate, tokensPerPrice)
  {
    var x, y, per := a as real * rate, b as real * rate, tokensPerPrice as real;
    assert y - x == (b - a) as real * rate >= 0.0;
    assert y / per - x / per == (y - x) / per >= 0.0;
  }

  lemma PricedMonotone(t: Pricing, provider: string, model: string, a: ModelStats, b: ModelStats)
    requires ValidPricing(t) && Priced(t, provider, model, a) && Priced(t, provider, model, b)
    requires a.usage.prompt <= b.usage.prompt && a.usage.completion <= b.usage.completion
    ensures CostAtMost(a.cost, b.cost)
  {
    if (provider, model) in t {
      var e := t[(provider, model)];
      ChargeMonotone(a.usage.prompt, b.usage.prompt, e.inputRate, e.tokensPerPrice);
      ChargeMonotone(a.usage.completion, b.usage.completion, e.outputRate, e.tokensPerPrice);
    }
  }

  /** A longer priced log never shows a smaller amount for any pair, in tokens or in cost. */
  lemma AmountsGrow(t: Pricing, log: seq<Entry>, more: seq<Entry>, provider: string, model: string)
    requires ValidPricing(t) && PricedLog(t, log) && PricedLog(t, log + more)
    ensures AtMost(Lookup(Accumulate(map[], log), provider, model),
                   Lookup(Accumulate(map[], log + more), provider, model))
  {
    hide Accumulate, PricedLog, CostAtMost;
    TotalsGrow(map[], log, more, provider, model);
    BillingHomomorphism(t, log, provider, model);
    BillingHomomorphism(t, log + more, provider, model);
    var before := Lookup(Accumulate(map[], log), provider, model);
    var after := Lookup(Accumulate(map[], log + more), provider, model);
    if before.Some? {
      PricedMonotone(t, provider, model, before.value, after.value);
    }
  }
}
