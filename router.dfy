/** The router of core/router.py: per query it either calls a forced model
    directly, serves a cached outcome, or classifies the query, selects a
    model, calls the backend and caches the outcome; it keeps running
    counters over all of this. */
module Routing {
  import opened Wrappers
  import opened Text
  import opened Cache
  import opened Classifier

  /** The classification reported for a forced query. */
  const ForcedLabel := "forced"

  /** `RoutingResult`, field for field. */
  datatype RoutingResult = RoutingResult(
    query: string,
    modelUsed: string,
    response: string,
    speedMs: real,
    accuracy: real,
    cost: real,
    fromCache: bool,
    classification: string,
    confidence: real)

  /** `RoutingResult(from_cache=..., **d)`: rebuilds a result from a stored
      dictionary that holds the eight entry fields with the right kinds of
      value. */
  function FromRecord(d: Record, fromCache: bool): (r: Option<RoutingResult>)
    ensures r.Some? ==> EntryFields <= d.Keys && r.value.fromCache == fromCache
    ensures r.Some? ==> d["query"] == Str(r.value.query) && d["model_used"] == Str(r.value.modelUsed)
  {
    if && "query" in d && d["query"].Str?
       && "model_used" in d && d["model_used"].Str?
       && "response" in d && d["response"].Str?
       && "speed_ms" in d && d["speed_ms"].Num?
       && "accuracy" in d && d["accuracy"].Num?
       && "cost" in d && d["cost"].Num?
       && "classification" in d && d["classification"].Str?
       && "confidence" in d && d["confidence"].Num?
    then
      Some(RoutingResult(d["query"].s, d["model_used"].s, d["response"].s, d["speed_ms"].x,
                         d["accuracy"].x, d["cost"].x, fromCache, d["classification"].s, d["confidence"].x))
    else
      None
  }

  /** `result_data`: a result as the dictionary the router caches. It has
      exactly the entry fields, so the cache stores it unchanged, and reading
      it back yields the same result. */
  function ResultData(r: RoutingResult): (d: Record)
    ensures d.Keys == EntryFields && "from_cache" !in d
    ensures Project(d) == d
    ensures FromRecord(d, r.fromCache) == Some(r)
  {
    map["query" := Str(r.query),
        "model_used" := Str(r.modelUsed),
        "response" := Str(r.response),
        "speed_ms" := Num(r.speedMs),
        "accuracy" := Num(r.accuracy),
        "cost" := Num(r.cost),
        "classification" := Str(r.classification),
        "confidence" := Num(r.confidence)]
  }

  /** The `routing` section of the configuration. */
  datatype RoutingConfig = RoutingConfig(thresholds: map<string, real>, fallbackModel: Option<string>)

  /** The fixed label-to-model mapping of `_select_model`. */
  const ModelMapping: map<string, string> :=
    map["simple" := "ollama-simple", "medium" := "ollama-medium", "advanced" := "gpt2-large"]

  /** `config.get('fallback_model', 'ollama-simple')` */
  function Fallback(cfg: RoutingConfig): string {
    if cfg.fallbackModel.Some? then cfg.fallbackModel.value else "ollama-simple"
  }

  /** The label has a configured threshold and the confidence reaches it. */
  predicate MeetsThreshold(cfg: RoutingConfig, classification: string, confidence: real) {
    classification in cfg.thresholds && confidence >= cfg.thresholds[classification]
  }

  /** `_select_model`: the mapped model when the label's threshold is met,
      the fallback otherwise (also for a label the mapping lacks). */
  function SelectModel(cfg: RoutingConfig, classification: string, confidence: real): (model: string)
    ensures model in ModelMapping.Values || model == Fallback(cfg)
    ensures MeetsThreshold(cfg, classification, confidence) && classification in ModelMapping ==>
              model == ModelMapping[classification]
    ensures !MeetsThreshold(cfg, classification, confidence) ==> model == Fallback(cfg)
    ensures classification !in ModelMapping ==> model == Fallback(cfg)
  {
    if MeetsThreshold(cfg, classification, confidence) then
      if classification in ModelMapping then ModelMapping[classification] else Fallback(cfg)
    else
      Fallback(cfg)
  }

  /** Whatever the fallback, a result other than the fallback is the mapped
      model of a label whose threshold was met. */
  lemma SelectedNonFallbackMeansThresholdMet(cfg: RoutingConfig, classification: string, confidence: real)
    requires SelectModel(cfg, classification, confidence) != Fallback(cfg)
    ensures MeetsThreshold(cfg, classification, confidence) && classification in ModelMapping
    ensures SelectModel(cfg, classification, confidence) == ModelMapping[classification]
  {
  }

  /** What `generate_response` does for one model and query: a response with
      its latency and estimated accuracy, or a raised provider error. */
  datatype BackendReply = Generated(response: string, speedMs: real, accuracy: real) | ProviderError(message: string)

  /** The backend, seen as an oracle from (model id, query) to its reply. */
  type Backend = (string, string) -> BackendReply

  /** The exceptions `route_query` lets escape. */
  datatype RouteError =
    | UnknownModel(model: string)       // ValueError: forced model not configured
    | MissingModelConfig(model: string) // KeyError: selected model not configured
    | GenerationFailed(message: string) // the backend raised

  /** The calls a routing step makes to its collaborators, in order. */
  datatype Call = CacheLookup(key: string) | Classified(query: string) | Generation(model: string, query: string) | CacheStore(key: string)

  /** `if force_model:` — an empty model name counts as no override. */
  predicate IsForced(forceModel: Option<string>) {
    forceModel.Some? && forceModel.value != ""
  }

  /** Picks some key of a non-empty usage map. */
  ghost function AnyModel(usage: map<string, nat>): string
    requires usage != map[]
  {
    var m :| m in usage; m
  }

  /** `sum(model_usage.values())` */
  ghost function TotalUsage(usage: map<string, nat>): nat
    decreases |usage|
  {
    if usage == map[] then 0
    else
      var m := AnyModel(usage);
      usage[m] + TotalUsage(usage - {m})
  }

  /** The sum can be split at any model, not only the one it picks. */
  lemma {:induction false} TotalUsageWithout(usage: map<string, nat>, m: string)
    requires m in usage
    ensures TotalUsage(usage) == usage[m] + TotalUsage(usage - {m})
    decreases |usage|
  {
    var k := AnyModel(usage);
    if k != m {
      TotalUsageWithout(usage - {k}, m);
      TotalUsageWithout(usage - {m}, k);
      assert (usage - {k}) - {m} == (usage - {m}) - {k};
    }
  }

  /** The usage map after one more use of `model`, as `_update_metrics`
      leaves it. */
  function RecordUse(usage: map<string, nat>, model: string): (next: map<string, nat>)
    ensures next.Keys == usage.Keys + {model}
    ensures model in usage ==> next[model] == usage[model] + 1
    ensures model !in usage ==> next[model] == 1
    ensures forall m :: m in usage && m != model ==> next[m] == usage[m]
  {
    var count := if model in usage then usage[model] else 0;
    usage[model := count + 1]
  }

  /** One more use adds exactly one to the usage total. */
  lemma RecordUseAddsOne(usage: map<string, nat>, model: string)
    ensures TotalUsage(RecordUse(usage, model)) == TotalUsage(usage) + 1
  {
    var next := RecordUse(usage, model);
    TotalUsageWithout(next, model);
    if model in usage {
      TotalUsageWithout(usage, model);
      assert next - {model} == usage - {model};
    } else {
      assert next - {model} == usage;
    }
  }

  /** A cache entry as the router writes it: a stored result for a query
      with this key, naming a configured model. */
  predicate StoredEntry(key: string, rec: Record, models: map<string, real>) {
    var r := FromRecord(rec, true);
    r.Some? && QueryHash(r.value.query) == key && r.value.modelUsed in models
  }

  /** `get_metrics`: the raw counters, the cache statistics and the derived
      rates. */
  datatype MetricsSnapshot = MetricsSnapshot(
    totalQueries: nat,
    cacheHits: nat,
    modelUsage: map<string, nat>,
    totalCost: real,
    totalTime: real,
    cacheStats: CacheStats,
    cacheHitRate: real,
    avgCostPerQuery: real,
    avgTimePerQuery: real)

  /** `x / n`, or 0 when `n` is not positive. */
  function RatioOrZero(x: real, n: int): (q: real)
    ensures n > 0 ==> q * n as real == x
    ensures n <= 0 ==> q == 0.0
    ensures 0.0 <= x <= n as real ==> 0.0 <= q <= 1.0
  {
    if n > 0 then x / n as real else 0.0
  }

  class Router {
    /** `config['models']`: each configured model id with its cost. */
    const models: map<string, real>
    const routing: RoutingConfig
    const cache: QueryCache
    const classifier: QueryClassifier

    var totalQueries: nat
    var cacheHits: nat
    var modelUsage: map<string, nat>
    var totalCost: real
    var totalTime: real

    /** Calls that raised after being counted. */
    ghost var failures: nat
    /** Every call made to the cache, the classifier and the backend. */
    ghost var trace: seq<Call>

    /** Every counted query was a cache hit, a model use or a failure; only
        configured models are ever used; the cache holds only entries the
        router wrote. */
    ghost predicate Valid()
      reads this, cache
    {
      && cacheHits + TotalUsage(modelUsage) + failures == totalQueries
      && modelUsage.Keys <= models.Keys
      && forall k :: k in cache.entries ==> StoredEntry(k, cache.entries[k], models)
    }

    constructor (models: map<string, real>, routing: RoutingConfig, classification: ClassifierConfig,
                 ttlSeconds: int, maxSize: int)
      ensures Valid() && fresh(cache) && fresh(classifier)
      ensures this.models == models && this.routing == routing
      ensures classifier.config == classification && !classifier.isTrained
      ensures cache.entries == map[] && cache.ttlSeconds == ttlSeconds
      ensures totalQueries == 0 && cacheHits == 0 && modelUsage == map[] && totalCost == 0.0 && totalTime == 0.0
      ensures failures == 0 && trace == []
    {
      this.models := models;
      this.routing := routing;
      cache := new QueryCache(ttlSeconds, maxSize);
      classifier := new QueryClassifier(classification);
      totalQueries, cacheHits, modelUsage, totalCost, totalTime := 0, 0, map[], 0.0, 0.0;
      failures, trace := 0, [];
    }

    /** `_update_metrics`: one more use of `model`, its cost and latency
        added to the totals. */
    method UpdateMetrics(model: string, speed: real, cost: real)
      modifies this`modelUsage, this`totalCost, this`totalTime
      ensures modelUsage == RecordUse(old(modelUsage), model)
      ensures totalCost == old(totalCost) + cost && totalTime == old(totalTime) + speed
    {
      var count := if model in modelUsage then modelUsage[model] else 0;
      modelUsage := modelUsage[model := count + 1];
      totalCost := totalCost + cost;
      totalTime := totalTime + speed;
    }

    /** Valid except that the query being routed is counted but not yet
        accounted for. */
    ghost predicate Pending()
      reads this, cache
    {
      && cacheHits + TotalUsage(modelUsage) + failures + 1 == totalQueries
      && modelUsage.Keys <= models.Keys
      && forall k :: k in cache.entries ==> StoredEntry(k, cache.entries[k], models)
    }

    /** What the forced branch leaves behind for the configured model `m`,
        given the usage and totals before it. */
    ghost predicate ForcedOutcome(query: string, m: string, backend: Backend, r: Result<RoutingResult, RouteError>,
                                  usage0: map<string, nat>, cost0: real, time0: real)
      requires m in models
      reads this
    {
      match backend(m, query)
      case ProviderError(msg) =>
        && r == Failure(GenerationFailed(msg))
        && modelUsage == usage0 && totalCost == cost0 && totalTime == time0
      case Generated(response, speed, accuracy) =>
        && r == Success(RoutingResult(query, m, response, speed, accuracy, models[m], false, ForcedLabel, 1.0))
        && modelUsage == RecordUse(usage0, m)
        && totalCost == cost0 + models[m] && totalTime == time0 + speed
    }

    /** What a cache hit leaves behind: the stored result, one more hit,
        nothing else changed. */
    ghost predicate HitOutcome(query: string, r: Result<RoutingResult, RouteError>, hits0: nat,
                               usage0: map<string, nat>, cost0: real, time0: real, entries0: map<string, Record>)
      requires QueryHash(query) in entries0
      reads this, cache
    {
      && cacheHits == hits0 + 1
      && modelUsage == usage0 && totalCost == cost0 && totalTime == time0
      && cache.entries == entries0
      && r.Success? && r.value.fromCache && Lower(r.value.query) == Lower(query)
      && Some(r.value) == FromRecord(entries0[QueryHash(query)], true)
    }

    /** The forced branch of `route_query` (core/router.py:39-62): the cache is
        neither read nor written. */
    method RouteForced(query: string, m: string, backend: Backend) returns (r: Result<RoutingResult, RouteError>)
      requires Pending()
      modifies this`modelUsage, this`totalCost, this`totalTime, this`failures, this`trace
      ensures Valid()
      ensures failures == old(failures) + (if r.Failure? then 1 else 0)
      ensures m !in models ==> r == Failure(UnknownModel(m)) && trace == old(trace)
      ensures m in models ==> trace == old(trace) + [Generation(m, query)]
      ensures m in models ==> ForcedOutcome(query, m, backend, r, old(modelUsage), old(totalCost), old(totalTime))
      ensures r.Failure? ==> modelUsage == old(modelUsage) && totalCost == old(totalCost) && totalTime == old(totalTime)
    {
      if m !in models {
        failures := failures + 1;
        return Failure(UnknownModel(m));
      }
      trace := trace + [Generation(m, query)];
      var reply := backend(m, query);
      if reply.ProviderError? {
        failures := failures + 1;
        return Failure(GenerationFailed(reply.message));
      }
      var cost := models[m];
      RecordUseAddsOne(modelUsage, m);
      UpdateMetrics(m, reply.speedMs, cost);
      return Success(RoutingResult(query, m, reply.response, reply.speedMs, reply.accuracy, cost, false, ForcedLabel, 1.0));
    }

    /** The cached branch of `route_query` (core/router.py:64-68): a hit returns the
        stored outcome; a miss goes on to `RouteMiss`. */
    method RouteUnforced(query: string, backend: Backend, culled: set<string>) returns (r: Result<RoutingResult, RouteError>)
      requires Pending()
      modifies this`cacheHits, this`modelUsage, this`totalCost, this`totalTime, this`failures, this`trace, cache
      ensures Valid()
      ensures failures == old(failures) + (if r.Failure? then 1 else 0)
      ensures r.Failure? ==> cacheHits == old(cacheHits) && modelUsage == old(modelUsage)
                             && totalCost == old(totalCost) && totalTime == old(totalTime)
                             && cache.entries == old(cache.entries)
      ensures QueryHash(query) in old(cache.entries) ==>
                && trace == old(trace) + [CacheLookup(QueryHash(query))]
                && HitOutcome(query, r, old(cacheHits), old(modelUsage), old(totalCost), old(totalTime),
                              old(cache.entries))
      ensures QueryHash(query) !in old(cache.entries) ==>
                && cacheHits == old(cacheHits)
                && MissOutcome(query, backend, culled, r, old(trace) + [CacheLookup(QueryHash(query))], old(modelUsage),
                               old(totalCost), old(totalTime), old(cache.entries))
    {
      var cached := cache.Get(query);
      trace := trace + [CacheLookup(QueryHash(query))];
      if cached.Some? && cached.value != map[] {
        cacheHits := cacheHits + 1;
        assert StoredEntry(QueryHash(query), cached.value, models);
        var restored := FromRecord(cached.value, true);
        return Success(restored.value);
      }
      r := RouteMiss(query, backend, culled);
    }

    /** What a cache miss leaves behind, given the trace, usage, totals and
        cache entries before it. */
    ghost predicate MissOutcome(query: string, backend: Backend, culled: set<string>,
                                r: Result<RoutingResult, RouteError>,
                                trace0: seq<Call>, usage0: map<string, nat>, cost0: real, time0: real,
                                entries0: map<string, Record>)
      reads this, cache, classifier
    {
      var c := classifier.Classify(query);
      var m := SelectModel(routing, c.category, c.confidence);
      && (m !in models ==>
            r == Failure(MissingModelConfig(m)) && trace == trace0 + [Classified(query)])
      && (m in models ==>
            GenerationOutcome(query, c, m, backend, culled, r, trace0 + [Classified(query)], usage0, cost0, time0,
                              entries0))
    }

    /** What generating with the selected model `m` leaves behind; the
        store culls `culled` when it writes the result. */
    ghost predicate GenerationOutcome(query: string, c: Classification, m: string, backend: Backend,
                                      culled: set<string>, r: Result<RoutingResult, RouteError>,
                                      trace0: seq<Call>, usage0: map<string, nat>, cost0: real, time0: real,
                                      entries0: map<string, Record>)
      requires m in models
      reads this, cache
    {
      match backend(m, query)
      case ProviderError(msg) =>
        && r == Failure(GenerationFailed(msg))
        && trace == trace0 + [Generation(m, query)]
      case Generated(response, speed, accuracy) =>
        var result := RoutingResult(query, m, response, speed, accuracy, models[m], false, c.category, c.confidence);
        && r == Success(result)
        && modelUsage == RecordUse(usage0, m)
        && totalCost == cost0 + models[m] && totalTime == time0 + speed
        && cache.entries == (entries0 - culled)[QueryHash(query) := ResultData(result)]
        && trace == trace0 + [Generation(m, query), CacheStore(QueryHash(query))]
    }

    /** The miss branch of `route_query` (core/router.py:70-100): classify, select,
        then generate, record and store. */
    method RouteMiss(query: string, backend: Backend, culled: set<string>) returns (r: Result<RoutingResult, RouteError>)
      requires Pending()
      modifies this`modelUsage, this`totalCost, this`totalTime, this`failures, this`trace, cache
      ensures Valid()
      ensures failures == old(failures) + (if r.Failure? then 1 else 0)
      ensures r.Failure? ==> modelUsage == old(modelUsage) && totalCost == old(totalCost) && totalTime == old(totalTime)
                             && cache.entries == old(cache.entries)
      ensures MissOutcome(query, backend, culled, r, old(trace), old(modelUsage), old(totalCost), old(totalTime),
                          old(cache.entries))
    {
      var c := classifier.Classify(query);
      trace := trace + [Classified(query)];
      var chosen := SelectModel(routing, c.category, c.confidence);
      if chosen !in models {
        failures := failures + 1;
        return Failure(MissingModelConfig(chosen));
      }
      r := GenerateAndStore(query, c, chosen, backend, culled);
    }

    /** core/router.py:77-100: generate with `m`, record the use, cache the result. */
    method GenerateAndStore(query: string, c: Classification, m: string, backend: Backend, culled: set<string>)
      returns (r: Result<RoutingResult, RouteError>)
      requires Pending() && m in models
      modifies this`modelUsage, this`totalCost, this`totalTime, this`failures, this`trace, cache
      ensures Valid()
      ensures failures == old(failures) + (if r.Failure? then 1 else 0)
      ensures r.Failure? ==> modelUsage == old(modelUsage) && totalCost == old(totalCost) && totalTime == old(totalTime)
                             && cache.entries == old(cache.entries)
      ensures GenerationOutcome(query, c, m, backend, culled, r, old(trace), old(modelUsage), old(totalCost), old(totalTime),
                                old(cache.entries))
    {
      trace := trace + [Generation(m, query)];
      var reply := backend(m, query);
      if reply.ProviderError? {
        failures := failures + 1;
        return Failure(GenerationFailed(reply.message));
      }
      var cost := models[m];
      RecordUseAddsOne(modelUsage, m);
      UpdateMetrics(m, reply.speedMs, cost);
      var result := RoutingResult(query, m, reply.response, reply.speedMs, reply.accuracy, cost,
                                  false, c.category, c.confidence);
      StoreResult(query, result, culled);
      return Success(result);
    }

    /** The cache write of core/router.py:98, for a result the router
        produced for this query with a configured model. */
    method StoreResult(query: string, result: RoutingResult, culled: set<string>)
      requires forall k :: k in cache.entries ==> StoredEntry(k, cache.entries[k], models)
      requires result.query == query && result.modelUsed in models
      modifies cache, this`trace
      ensures forall k :: k in cache.entries ==> StoredEntry(k, cache.entries[k], models)
      ensures cache.entries == (old(cache.entries) - culled)[QueryHash(query) := ResultData(result)]
      ensures trace == old(trace) + [CacheStore(QueryHash(query))]
    {
      cache.Set(query, ResultData(result), culled);
      trace := trace + [CacheStore(QueryHash(query))];
      assert StoredEntry(QueryHash(query), ResultData(result), models) by {
        assert ResultData(result) == ResultData(result.(fromCache := true));
      }
    }

    /** `route_query`. Every call counts one query, whatever happens next;
        a call that raises changes nothing else a caller can see. `culled`
        is what the store evicts if this call writes to it. */
    method RouteQuery(query: string, forceModel: Option<string>, backend: Backend, culled: set<string>)
      returns (r: Result<RoutingResult, RouteError>)
      requires Valid()
      modifies this, cache
      ensures Valid()
      ensures totalQueries == old(totalQueries) + 1
      ensures failures == old(failures) + (if r.Failure? then 1 else 0)
      ensures r.Failure? ==>
                && cacheHits == old(cacheHits) && modelUsage == old(modelUsage)
                && totalCost == old(totalCost) && totalTime == old(totalTime)
                && cache.entries == old(cache.entries)
      // Forced: the cache is neither read nor written.
      ensures IsForced(forceModel) ==> cache.entries == old(cache.entries) && cacheHits == old(cacheHits)
      ensures IsForced(forceModel) && forceModel.value !in models ==>
                r == Failure(UnknownModel(forceModel.value)) && trace == old(trace)
      ensures IsForced(forceModel) && forceModel.value in models ==>
                && trace == old(trace) + [Generation(forceModel.value, query)]
                && ForcedOutcome(query, forceModel.value, backend, r, old(modelUsage), old(totalCost), old(totalTime))
      // Cache hit: the stored outcome, nothing classified or generated.
      ensures !IsForced(forceModel) && QueryHash(query) in old(cache.entries) ==>
                && trace == old(trace) + [CacheLookup(QueryHash(query))]
                && HitOutcome(query, r, old(cacheHits), old(modelUsage), old(totalCost), old(totalTime),
                              old(cache.entries))
      // Cache miss: classify, select, generate, record, store.
      ensures !IsForced(forceModel) && QueryHash(query) !in old(cache.entries) ==>
                && cacheHits == old(cacheHits)
                && MissOutcome(query, backend, culled, r, old(trace) + [CacheLookup(QueryHash(query))], old(modelUsage),
                               old(totalCost), old(totalTime), old(cache.entries))
    {
      totalQueries := totalQueries + 1;
      if IsForced(forceModel) {
        r := RouteForced(query, forceModel.value, backend);
      } else {
        r := RouteUnforced(query, backend, culled);
      }
    }

    /** `get_metrics`: the counters as they stand, the cache's statistics,
        the share of queries served from the cache (0 before any query),
        and the mean cost and latency over the queries that were not cache
        hits (0 when there were none). */
    function GetMetrics(reply: StatsReply, volume: int): (s: MetricsSnapshot)
      reads this, cache
      ensures s.totalQueries == totalQueries && s.cacheHits == cacheHits && s.modelUsage == modelUsage
      ensures s.totalCost == totalCost && s.totalTime == totalTime
      ensures s.cacheStats == cache.GetStats(reply, volume)
      ensures totalQueries > 0 ==> s.cacheHitRate * totalQueries as real == cacheHits as real
      ensures totalQueries == 0 ==> s.cacheHitRate == 0.0
      ensures cacheHits <= totalQueries ==> 0.0 <= s.cacheHitRate <= 1.0
      ensures totalQueries > cacheHits ==>
                && s.avgCostPerQuery * (totalQueries - cacheHits) as real == totalCost
                && s.avgTimePerQuery * (totalQueries - cacheHits) as real == totalTime
      ensures totalQueries <= cacheHits ==> s.avgCostPerQuery == 0.0 && s.avgTimePerQuery == 0.0
    {
      var served := totalQueries - cacheHits;
      MetricsSnapshot(totalQueries, cacheHits, modelUsage, totalCost, totalTime, cache.GetStats(reply, volume),
                      RatioOrZero(cacheHits as real, totalQueries),
                      RatioOrZero(totalCost, served),
                      RatioOrZero(totalTime, served))
    }

    /** `clear_cache`: empties the cache and touches no counter. */
    method ClearCache()
      requires Valid()
      modifies cache
      ensures Valid()
      ensures cache.entries == map[]
    {
      cache.Clear();
    }
  }

  /** Under the router's invariant the cache hit rate is a proportion, and
      with no failed call every query is either a hit or one model use. */
  lemma HitsAndUsesAccountForQueries(r: Router, reply: StatsReply, volume: int)
    requires r.Valid()
    ensures r.cacheHits + TotalUsage(r.modelUsage) <= r.totalQueries
    ensures r.failures == 0 ==> r.cacheHits + TotalUsage(r.modelUsage) == r.totalQueries
    ensures 0.0 <= r.GetMetrics(reply, volume).cacheHitRate <= 1.0
  {
  }
}
