/**
 * The known-model part of `OpenAIResponseBackend.calculate_cost`: a reasoning-effort
 * suffix is stripped from the model name, and the base name is priced per
 * thousand input and output tokens. Rates are exact reals; the rates used for a
 * model missing from the price list come from the environment and are a parameter.
 */
module Pricing {
  import opened Strings

  /** Dollars per 1000 input tokens and per 1000 output tokens. */
  datatype Rates = Rates(input: real, output: real)

  /** The built-in OpenAI price list. */
  const PriceList: map<string, Rates> := map[
    "gpt-4o" := Rates(0.0025, 0.01),
    "gpt-4o-mini" := Rates(0.00015, 0.0006),
    "gpt-4" := Rates(0.03, 0.06),
    "gpt-3.5-turbo" := Rates(0.001, 0.002),
    "o1" := Rates(0.015, 0.06),
    "o1-mini" := Rates(0.003, 0.012),
    "o3-mini" := Rates(0.003, 0.012)
  ]

  /** The reasoning-effort suffixes, tried in the order low, medium, high. */
  predicate EffortSuffix(s: string) {
    s == "-low" || s == "-medium" || s == "-high"
  }

  predicate HasEffortSuffix(model: string) {
    EndsWith(model, "-low") || EndsWith(model, "-medium") || EndsWith(model, "-high")
  }

  /**
   * The base model: the first suffix the name ends with has every one of its
   * occurrences removed; the remaining suffixes are not tried.
   */
  function BaseModel(model: string): (base: string)
    ensures !HasEffortSuffix(model) ==> base == model
    ensures HasEffortSuffix(model) ==> |base| < |model|
  {
    EndsWithContains(model, "-low");
    EndsWithContains(model, "-medium");
    EndsWithContains(model, "-high");
    if EndsWith(model, "-low") then
      RemoveAllShrinks(model, "-low");
      RemoveAll(model, "-low")
    else if EndsWith(model, "-medium") then
      RemoveAllShrinks(model, "-medium");
      RemoveAll(model, "-medium")
    else if EndsWith(model, "-high") then
      RemoveAllShrinks(model, "-high");
      RemoveAll(model, "-high")
    else model
  }

  /** The rates `calculate_cost` applies to `model`. */
  function RatesFor(model: string, fallback: Rates): (rates: Rates)
    ensures model in PriceList ==> rates == PriceList[model]
    ensures NonNegative(fallback) ==> NonNegative(rates)
  {
    ListedModelIsOwnBase(model);
    var base := BaseModel(model);
    if base in PriceList then PriceList[base] else fallback
  }

  /** Cost of a token count at the given rates, per thousand tokens. */
  function CostAt(rates: Rates, inputTokens: int, outputTokens: int): (cost: real)
    ensures inputTokens == 0 && outputTokens == 0 ==> cost == 0.0
    ensures inputTokens >= 0 && outputTokens >= 0 && NonNegative(rates) ==> cost >= 0.0
  {
    (inputTokens as real / 1000.0) * rates.input + (outputTokens as real / 1000.0) * rates.output
  }

  predicate NonNegative(rates: Rates) {
    rates.input >= 0.0 && rates.output >= 0.0
  }

  /** `calculate_cost(input_tokens, output_tokens, model)`. */
  function CalculateCost(inputTokens: int, outputTokens: int, model: string, fallback: Rates): (cost: real)
    ensures inputTokens == 0 && outputTokens == 0 ==> cost == 0.0
    ensures inputTokens >= 0 && outputTokens >= 0 && NonNegative(fallback) ==> cost >= 0.0
  {
    CostAt(RatesFor(model, fallback), inputTokens, outputTokens)
  }

  lemma {:induction false} EndsWithContains(s: string, suffix: string)
    ensures EndsWith(s, suffix) ==> Contains(s, suffix)
    decreases |s|
  {
    if EndsWith(s, suffix) && |s| > |suffix| {
      assert s[1..][|s| - 1 - |suffix|..] == s[|s| - |suffix|..];
      EndsWithContains(s[1..], suffix);
    }
  }

  /** The dash that starts each effort suffix occurs nowhere else in it. */
  lemma DashOnlyFirst(suffix: string)
    requires EffortSuffix(suffix)
    ensures |suffix| > 0 && forall i :: 0 < i < |suffix| ==> suffix[i] != suffix[0]
  {
  }

  /** A listed model has no suffix to strip. */
  lemma ListedModelIsOwnBase(model: string)
    ensures model in PriceList ==> BaseModel(model) == model
  {
    if model in PriceList {
      ListedModelsHaveNoSuffix(model, "-low");
      ListedModelsHaveNoSuffix(model, "-medium");
      ListedModelsHaveNoSuffix(model, "-high");
      EndsWithContains(model, "-low");
      EndsWithContains(model, "-medium");
      EndsWithContains(model, "-high");
    }
  }

  /** Every listed model is free of all three suffixes. */
  lemma {:induction false} ListedModelsHaveNoSuffix(model: string, suffix: string)
    requires model in PriceList && EffortSuffix(suffix)
    ensures !Contains(model, suffix)
  {
    var c := if suffix == "-low" then 'w' else if suffix == "-medium" then 'd' else 'h';
    assert c in suffix;
    MissingCharNotContained(model, suffix, c);
  }

  /**
   * Appending a suffix to a name that does not contain it and stripping gives
   * the name back: the appended suffix is the one found first.
   */
  lemma {:induction false} BaseModelStripsSuffix(name: string, suffix: string)
    requires EffortSuffix(suffix) && !Contains(name, suffix)
    ensures BaseModel(name + suffix) == name
  {
    var m := name + suffix;
    assert m[|m| - |suffix|..] == suffix;
    RemoveAllTrailing(name, suffix);
    if suffix == "-low" {
      assert EndsWith(m, "-low");
    } else if suffix == "-medium" {
      assert m[|m| - 1] == 'm';
      assert EndsWith(m, "-medium");
    } else {
      assert m[|m| - 1] == 'h';
      assert EndsWith(m, "-high");
    }
  }

  /**
   * The matched suffix is removed everywhere in the name, not only at its end:
   * an earlier occurrence goes too, and the parts around it are joined.
   */
  lemma {:induction false} BaseModelRemovesEvery(x: string, y: string, suffix: string)
    requires EffortSuffix(suffix) && EndsWith(y, suffix)
    ensures BaseModel(x + suffix + y) == RemoveAll(x, suffix) + RemoveAll(y, suffix)
  {
    var m := x + suffix + y;
    assert m[|m| - |suffix|..] == y[|y| - |suffix|..];
    StripsMatchedSuffix(m, suffix);
    DashOnlyFirst(suffix);
    RemoveAllSplits(x, y, suffix);
  }

  /** A name ending with an effort suffix has that suffix removed, and no other. */
  lemma StripsMatchedSuffix(model: string, suffix: string)
    requires EffortSuffix(suffix) && EndsWith(model, suffix)
    ensures BaseModel(model) == RemoveAll(model, suffix)
  {
    if suffix == "-medium" {
      assert model[|model| - 1] == 'm';
    } else if suffix == "-high" {
      assert model[|model| - 1] == 'h';
    }
  }

  /** "o1-low-mini-low" loses both of its "-low"s and is priced as "o1-mini". */
  lemma InnerSuffixRemoved(model: string, inputTokens: int, outputTokens: int, fallback: Rates)
    requires model == "o1-low-mini-low"
    ensures BaseModel(model) == "o1-mini"
    ensures CalculateCost(inputTokens, outputTokens, model, fallback) == CostAt(PriceList["o1-mini"], inputTokens, outputTokens)
  {
    var x, stem, low := "o1", "-mini", "-low";
    var y := stem + low;
    assert model == x + low + y;
    assert BaseModel(model) == x + stem by {
      MissingCharNotContained(stem, low, 'w');
      RemoveAllTrailing(stem, low);
      BaseModelRemovesEvery(x, y, low);
      assert RemoveAll(x, low) == x;
    }
  }

  /**
   * A listed model with any effort suffix appended is priced exactly as the
   * listed model itself.
   */
  lemma {:induction false} SuffixedModelPricedAsBase(model: string, suffix: string, inputTokens: int, outputTokens: int, fallback: Rates)
    requires model in PriceList && EffortSuffix(suffix)
    ensures BaseModel(model + suffix) == model
    ensures CalculateCost(inputTokens, outputTokens, model + suffix, fallback)
         == CalculateCost(inputTokens, outputTokens, model, fallback)
         == CostAt(PriceList[model], inputTokens, outputTokens)
  {
    ListedModelsHaveNoSuffix(model, "-low");
    ListedModelsHaveNoSuffix(model, "-medium");
    ListedModelsHaveNoSuffix(model, "-high");
    EndsWithContains(model, "-low");
    EndsWithContains(model, "-medium");
    EndsWithContains(model, "-high");
    BaseModelStripsSuffix(model, suffix);
  }

  /**
   * Only the first matching suffix is stripped: a name ending in "-high-low"
   * keeps its "-high", so it is never found in the price list.
   */
  lemma {:induction false} OnlyFirstSuffixStripped(name: string)
    requires !Contains(name, "-low")
    ensures BaseModel(name + "-high" + "-low") == name + "-high"
    ensures name + "-high" !in PriceList
  {
    var stem := name + "-high";
    assert !Contains(stem, "-low") by {
      MissingCharNotContained("-high", "-low", 'w');
      NotContainedAcross(name, "-high", "-low");
    }
    BaseModelStripsSuffix(stem, "-low");
    assert stem[|stem| - 1] == 'h';
    ListedModelsLackH();
  }

  lemma ListedModelsLackH()
    ensures forall k :: k in PriceList ==> 'h' !in k
  {
  }

  /** Cost is additive: pricing two usages together equals pricing them apart. */
  lemma CostAdditive(in1: int, out1: int, in2: int, out2: int, model: string, fallback: Rates)
    ensures CalculateCost(in1 + in2, out1 + out2, model, fallback)
         == CalculateCost(in1, out1, model, fallback) + CalculateCost(in2, out2, model, fallback)
  {
    CostAtAdditive(RatesFor(model, fallback), in1, out1, in2, out2);
  }

  lemma CostAtAdditive(rates: Rates, in1: int, out1: int, in2: int, out2: int)
    ensures CostAt(rates, in1 + in2, out1 + out2) == CostAt(rates, in1, out1) + CostAt(rates, in2, out2)
  {
    Distributes(in1 as real / 1000.0, in2 as real / 1000.0, rates.input);
    Distributes(out1 as real / 1000.0, out2 as real / 1000.0, rates.output);
    assert (in1 + in2) as real / 1000.0 == in1 as real / 1000.0 + in2 as real / 1000.0;
    assert (out1 + out2) as real / 1000.0 == out1 as real / 1000.0 + out2 as real / 1000.0;
  }

  lemma Distributes(a: real, b: real, rate: real)
    ensures (a + b) * rate == a * rate + b * rate
  {
  }
}
