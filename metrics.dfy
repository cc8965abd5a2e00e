/** The scoring heuristics of utils/metrics.py, over real numbers: an
    accuracy estimate from the model's tier and the response length, and a
    cost estimate from a per-token rate. */
module Metrics {
  import opened Text

  function Min(a: real, b: real): real {
    if a <= b then a else b
  }

  function Max(a: int, b: int): int {
    if a >= b then a else b
  }

  /** The extra 0.1 granted to models whose name mentions ollama. */
  function OllamaBonus(modelName: string): real {
    if Contains(modelName, "ollama") then 0.1 else 0.0
  }

  /** The tier accuracy: `medium` or `gemma` in the name gives 0.8 (tested
      before `large`), `large` gives 0.85, anything else 0.7; an ollama
      model gets 0.1 on top. */
  function BaseAccuracy(modelName: string): (base: real)
    ensures 0.7 <= base <= 0.95
    ensures Contains(modelName, "medium") || Contains(modelName, "gemma") ==>
              base == 0.8 + OllamaBonus(modelName)
    ensures !Contains(modelName, "medium") && !Contains(modelName, "gemma") && Contains(modelName, "large") ==>
              base == 0.85 + OllamaBonus(modelName)
    ensures !Contains(modelName, "medium") && !Contains(modelName, "gemma") && !Contains(modelName, "large") ==>
              base == 0.7 + OllamaBonus(modelName)
  {
    var tier :=
      if Contains(modelName, "medium") || Contains(modelName, "gemma") then 0.8
      else if Contains(modelName, "large") then 0.85
      else 0.7;
    tier + OllamaBonus(modelName)
  }

  /** The response quality of `calculate_accuracy`: response words over
      query words (at least one), capped at 1. It is positive, and it is 1
      once the response has as many words as the query. */
  function ResponseQuality(queryWords: nat, responseWords: nat): (quality: real)
    requires responseWords > 0
    ensures 0.0 < quality <= 1.0
    ensures responseWords >= queryWords ==> quality == 1.0
  {
    var d := Max(1, queryWords);
    var ratio := responseWords as real / d as real;
    assert ratio * d as real == responseWords as real;
    Min(1.0, ratio)
  }

  /** Scaling by a factor in (0, 1] keeps a non-negative value between 0
      and itself. */
  lemma ScaleDown(x: real, factor: real)
    requires 0.0 <= x && 0.0 < factor <= 1.0
    ensures 0.0 <= x * factor <= x
  {
    assert x - x * factor == x * (1.0 - factor);
  }

  /** `calculate_accuracy`: the tier accuracy scaled by the response
      quality, capped at 0.95, and 0 for a response without words. */
  function CalculateAccuracy(modelName: string, query: string, response: string): (acc: real)
    ensures 0.0 <= acc <= 0.95
    ensures WordCount(response) == 0 ==> acc == 0.0
    ensures WordCount(response) > 0 && WordCount(response) >= WordCount(query) ==>
              acc == Min(0.95, BaseAccuracy(modelName))
    ensures acc <= BaseAccuracy(modelName)
  {
    var base := BaseAccuracy(modelName);
    var queryLength := WordCount(query);
    var responseLength := WordCount(response);
    if responseLength == 0 then 0.0
    else
      var quality := ResponseQuality(queryLength, responseLength);
      ScaleDown(base, quality);
      Min(0.95, base * quality)
  }

  /** A response made only of whitespace scores 0. */
  lemma BlankResponseScoresZero(modelName: string, query: string, response: string)
    requires forall i :: 0 <= i < |response| ==> IsSpace(response[i])
    ensures CalculateAccuracy(modelName, query, response) == 0.0
  {
    NoWordsIffAllSpace(response);
  }

  /** The per-token rate: a table for ollama models (phi, gemma:2b) and one
      for every other provider (gpt2-large), with 0.0000002 and 0.00001 for
      models the tables do not list. */
  function TokenRate(modelName: string, provider: string): (rate: real)
    ensures rate > 0.0
    ensures provider == "ollama" && modelName != "phi" && modelName != "gemma:2b" ==> rate == 0.0000002
    ensures provider != "ollama" ==> rate == 0.00001
  {
    if provider == "ollama" then
      if modelName == "phi" then 0.0000001
      else if modelName == "gemma:2b" then 0.0000003
      else 0.0000002
    else
      // the `gpt2-large` entry and the default are both 0.00001
      0.00001
  }

  /** `calculate_cost`: the rate times the estimated token count, 1.3
      tokens per word of response. */
  function CalculateCost(modelName: string, responseLength: real, provider: string): (cost: real)
    ensures responseLength == 0.0 ==> cost == 0.0
    ensures responseLength > 0.0 ==> cost > 0.0
    ensures cost * 10.0 == TokenRate(modelName, provider) * 13.0 * responseLength
  {
    TokenRate(modelName, provider) * (responseLength * 1.3)
  }

  /** For a fixed model and provider the cost never decreases as the
      response gets longer. */
  lemma CostMonotone(modelName: string, provider: string, shorter: real, longer: real)
    requires shorter <= longer
    ensures CalculateCost(modelName, provider := provider, responseLength := shorter)
            <= CalculateCost(modelName, provider := provider, responseLength := longer)
  {
    var rate := TokenRate(modelName, provider);
    assert rate * (longer * 1.3) - rate * (shorter * 1.3) == rate * ((longer - shorter) * 1.3);
  }
}
