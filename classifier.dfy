/** The query classifier of core/classifier.py: a rule-based complexity
    estimate over keyword and length tests, the feature extraction, and the
    switch to a trained statistical model once one has been fitted. */
module Classifier {
  import opened Wrappers
  import opened Text

  const SimpleLabel := "simple"
  const MediumLabel := "medium"
  const AdvancedLabel := "advanced"

  /** A complexity label with the classifier's confidence in it. */
  datatype Classification = Classification(category: string, confidence: real)

  /** The `classification` section of the configuration; a key that is
      absent is None and takes the source's default. */
  datatype ClassifierConfig = ClassifierConfig(
    simpleKeywords: Option<seq<string>>,
    advancedKeywords: Option<seq<string>>,
    simpleLengthThreshold: Option<int>,
    advancedLengthThreshold: Option<int>)

  function SimpleKeywords(cfg: ClassifierConfig): seq<string> {
    if cfg.simpleKeywords.Some? then cfg.simpleKeywords.value else []
  }

  function AdvancedKeywords(cfg: ClassifierConfig): seq<string> {
    if cfg.advancedKeywords.Some? then cfg.advancedKeywords.value else []
  }

  /** Queries strictly shorter than this are short (default 80). */
  function ShortBelow(cfg: ClassifierConfig): int {
    if cfg.simpleLengthThreshold.Some? then cfg.simpleLengthThreshold.value else 80
  }

  /** Queries strictly longer than this are long (default 200). */
  function LongAbove(cfg: ClassifierConfig): int {
    if cfg.advancedLengthThreshold.Some? then cfg.advancedLengthThreshold.value else 200
  }

  /** Keywords are matched against the lowercased query as given: the
      keywords themselves are not lowercased. */
  predicate HasSimple(query: string, cfg: ClassifierConfig) {
    ContainsAny(Lower(query), SimpleKeywords(cfg))
  }

  predicate HasAdvanced(query: string, cfg: ClassifierConfig) {
    ContainsAny(Lower(query), AdvancedKeywords(cfg))
  }

  predicate IsShort(query: string, cfg: ClassifierConfig) {
    |query| < ShortBelow(cfg)
  }

  predicate IsLong(query: string, cfg: ClassifierConfig) {
    |query| > LongAbove(cfg)
  }

  /** `_rule_based_classification`. An advanced keyword or a long query
      gives `advanced`; otherwise a simple keyword in a short query gives
      `simple`; everything else is `medium`. The confidence is fixed per
      outcome, and the 0.75 written for a simple label without a simple
      keyword can never be returned. */
  function RuleBased(query: string, cfg: ClassifierConfig): (c: Classification)
    ensures c.category in {SimpleLabel, MediumLabel, AdvancedLabel}
    ensures c.confidence in {0.70, 0.80, 0.85, 0.90} && c.confidence != 0.75
    ensures HasAdvanced(query, cfg) ==> c == Classification(AdvancedLabel, 0.85)
    ensures !HasAdvanced(query, cfg) && IsLong(query, cfg) ==> c == Classification(AdvancedLabel, 0.70)
    ensures c.category == AdvancedLabel <==> HasAdvanced(query, cfg) || IsLong(query, cfg)
    ensures c.category == SimpleLabel <==>
              HasSimple(query, cfg) && IsShort(query, cfg) && !HasAdvanced(query, cfg) && !IsLong(query, cfg)
    ensures c.category == SimpleLabel ==> c.confidence == 0.90
    ensures c.category == MediumLabel ==> c.confidence == 0.80
  {
    var hasSimple := HasSimple(query, cfg);
    var hasAdvanced := HasAdvanced(query, cfg);
    if hasAdvanced || IsLong(query, cfg) then
      Classification(AdvancedLabel, if hasAdvanced then 0.85 else 0.70)
    else if hasSimple && IsShort(query, cfg) then
      Classification(SimpleLabel, if hasSimple then 0.90 else 0.75)
    else
      Classification(MediumLabel, 0.80)
  }

  /** Adding a keyword that holds an upper-case letter to a keyword list
      never changes whether the list matches a query. */
  lemma {:induction false} UpperKeywordNeverMatches(query: string, keywords: seq<string>, kw: string)
    requires exists j :: 0 <= j < |kw| && IsUpper(kw[j])
    ensures ContainsAny(Lower(query), keywords + [kw]) == ContainsAny(Lower(query), keywords)
  {
    UpperNeedleNeverInLowered(query, kw);
    var all := keywords + [kw];
    if ContainsAny(Lower(query), all) {
      var i :| 0 <= i < |all| && Contains(Lower(query), all[i]);
      assert i < |keywords| && Contains(Lower(query), keywords[i]);
    }
    if ContainsAny(Lower(query), keywords) {
      var i :| 0 <= i < |keywords| && Contains(Lower(query), keywords[i]);
      assert all[i] == keywords[i];
    }
  }

  /** Consequently a configured keyword with an upper-case letter has no
      effect on the rule-based classification. */
  lemma UpperAdvancedKeywordIgnored(query: string, cfg: ClassifierConfig, kw: string)
    requires exists j :: 0 <= j < |kw| && IsUpper(kw[j])
    ensures RuleBased(query, cfg.(advancedKeywords := Some(AdvancedKeywords(cfg) + [kw]))) == RuleBased(query, cfg)
  {
    UpperKeywordNeverMatches(query, AdvancedKeywords(cfg), kw);
  }

  lemma UpperSimpleKeywordIgnored(query: string, cfg: ClassifierConfig, kw: string)
    requires exists j :: 0 <= j < |kw| && IsUpper(kw[j])
    ensures RuleBased(query, cfg.(simpleKeywords := Some(SimpleKeywords(cfg) + [kw]))) == RuleBased(query, cfg)
  {
    UpperKeywordNeverMatches(query, SimpleKeywords(cfg), kw);
  }

  /** A value in the feature dictionary: a number or a truth value. */
  datatype Feature = Count(n: int) | Present(b: bool)

  /** `int(keyword in query.lower())` */
  function KeywordFlag(query: string, kw: string): (flag: int)
    ensures flag == 1 <==> Contains(Lower(query), kw)
    ensures flag == 0 <==> !Contains(Lower(query), kw)
  {
    if Contains(Lower(query), kw) then 1 else 0
  }

  /** The four features every query gets before the keyword flags. */
  function BaseFeatures(query: string): map<string, Feature> {
    map["length" := Count(|query|),
        "word_count" := Count(WordCount(query)),
        "has_question_mark" := Present('?' in query),
        "has_exclamation" := Present('!' in query)]
  }

  /** `k` is the flag key `has_<kw>` of one of `keywords`. */
  predicate IsFlagKey(k: string, keywords: seq<string>) {
    |k| >= 4 && k[..4] == "has_" && k[4..] in keywords
  }

  /** The dictionary after flags for `keywords` have been written over the
      base features: one 0/1 flag per keyword, base features that no flag
      key overwrote, and nothing else. */
  ghost predicate FeaturesFor(features: map<string, Feature>, query: string, keywords: seq<string>) {
    && (forall j :: 0 <= j < |keywords| ==>
          ("has_" + keywords[j]) in features && features["has_" + keywords[j]] == Count(KeywordFlag(query, keywords[j])))
    && (forall k :: k in BaseFeatures(query) && !IsFlagKey(k, keywords) ==>
          k in features && features[k] == BaseFeatures(query)[k])
    && (forall k :: k in features ==> k in BaseFeatures(query) || IsFlagKey(k, keywords))
  }

  /** Writing the flag for one more keyword extends `FeaturesFor` by it. */
  lemma AddFlag(features: map<string, Feature>, query: string, keywords: seq<string>, kw: string)
    requires FeaturesFor(features, query, keywords)
    ensures FeaturesFor(features["has_" + kw := Count(KeywordFlag(query, kw))], query, keywords + [kw])
  {
    var next := features["has_" + kw := Count(KeywordFlag(query, kw))];
    var all := keywords + [kw];
    forall j | 0 <= j < |all|
      ensures ("has_" + all[j]) in next && next["has_" + all[j]] == Count(KeywordFlag(query, all[j]))
    {
      if "has_" + all[j] == "has_" + kw {
        assert all[j] == ("has_" + all[j])[4..] == ("has_" + kw)[4..] == kw;
      }
    }
    forall k | k in next
      ensures k in BaseFeatures(query) || IsFlagKey(k, all)
    {
      if k == "has_" + kw {
        assert k[..4] == "has_" && k[4..] == kw;
      }
    }
  }

  /** One step of a keyword loop: the flag of `keywords[i]` extends the
      flags already written for `done` and `keywords[..i]`. */
  lemma AddNextFlag(features: map<string, Feature>, query: string, done: seq<string>, keywords: seq<string>, i: nat)
    requires i < |keywords|
    requires FeaturesFor(features, query, done + keywords[..i])
    ensures FeaturesFor(features["has_" + keywords[i] := Count(KeywordFlag(query, keywords[i]))], query,
                        done + keywords[..i + 1])
  {
    AddFlag(features, query, done + keywords[..i], keywords[i]);
    assert done + keywords[..i] + [keywords[i]] == done + keywords[..i + 1];
  }

  class QueryClassifier {
    const config: ClassifierConfig
    /** Whether a statistical model has been fitted. */
    var isTrained: bool
    /** The fitted model's prediction: its label and its highest class
        probability. Opaque; consulted only once `isTrained` holds. */
    var predictor: string -> Classification

    constructor (config: ClassifierConfig)
      ensures this.config == config && !isTrained
    {
      this.config := config;
      isTrained := false;
      predictor := _ => Classification(MediumLabel, 0.0);
    }

    /** `extract_features`: the base features, then one flag per simple
        keyword and one per advanced keyword, each written over whatever
        the dictionary held under that key. */
    method ExtractFeatures(query: string) returns (features: map<string, Feature>)
      ensures FeaturesFor(features, query, SimpleKeywords(config) + AdvancedKeywords(config))
    {
      var lowered := Lower(query);
      features := BaseFeatures(query);
      assert FeaturesFor(features, query, []);
      features := AddKeywordFlags(features, query, lowered, [], SimpleKeywords(config));
      assert [] + SimpleKeywords(config) == SimpleKeywords(config);
      features := AddKeywordFlags(features, query, lowered, SimpleKeywords(config), AdvancedKeywords(config));
    }

    /** One of the two `for keyword in ...` loops of `extract_features`:
        writes the flag of each of `keywords`, in order, over `features`,
        which already holds the flags of `done`. */
    static method AddKeywordFlags(features: map<string, Feature>, query: string, lowered: string,
                                  done: seq<string>, keywords: seq<string>)
      returns (out: map<string, Feature>)
      requires lowered == Lower(query)
      requires FeaturesFor(features, query, done)
      ensures FeaturesFor(out, query, done + keywords)
    {
      out := features;
      for i := 0 to |keywords|
        invariant FeaturesFor(out, query, done + keywords[..i])
      {
        AddNextFlag(out, query, done, keywords, i);
        var flag := if Contains(lowered, keywords[i]) then 1 else 0;
        assert flag == KeywordFlag(query, keywords[i]);
        out := out["has_" + keywords[i] := Count(flag)];
      }
      assert keywords[..|keywords|] == keywords;
    }

    /** `train`: an empty training set leaves the classifier as it was;
        otherwise the model is fitted (its outcome is `fitted`) and the
        trained path is switched on. */
    method Train(trainingData: seq<(string, string)>, fitted: string -> Classification)
      modifies this
      ensures trainingData == [] ==> isTrained == old(isTrained) && predictor == old(predictor)
      ensures trainingData != [] ==> isTrained && predictor == fitted
    {
      if trainingData == [] {
        return;
      }
      predictor := fitted;
      isTrained := true;
    }

    /** `classify`: the fitted model once trained, the rule-based
        classification otherwise. */
    function Classify(query: string): (c: Classification)
      reads this
      ensures !isTrained ==> c == RuleBased(query, config)
      ensures isTrained ==> c == predictor(query)
    {
      if isTrained then predictor(query) else RuleBased(query, config)
    }
  }
}
