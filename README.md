# LLM routing core, modelled in Dafny

This project models the routing decision pipeline of the LLM Routing System.
A query is routed in one of three ways. With a forced model, that model's
backend is called directly. Otherwise the query cache is consulted. On a
miss the query is classified (`simple`, `medium` or `advanced` with a
confidence), a model is selected by confidence threshold with a fallback,
the backend is called, and the outcome is cached. Running counters track
queries, cache hits, per-model usage, cost and latency. The model also
covers the accuracy and cost heuristics and the misclassification audit of
the demo driver.

Modules, one per source file:

- `Text` (`text.dfy`): `str.lower()` on ASCII letters, the substring test `kw in s`, and `len(s.split())`.
- `Cache` (`cache.dfy`, core/cache.py): the key derived from the lowercased query, the eight-field projection on `set`, `get`, `clear`, and the hit rate of `get_stats`. The store is a class whose `entries` map is reassigned.
- `Classifier` (`classifier.dfy`, core/classifier.py): the rule-based classification as a pure function, feature extraction as loops, and `train`/`classify` on a class with the `isTrained` flag.
- `Metrics` (`metrics.dfy`, utils/metrics.py): `calculate_accuracy` and `calculate_cost` over reals.
- `Routing` (`router.dfy`, core/router.py): `Router` with its counters, `route_query` split by branch, `_select_model`, `_update_metrics`, `get_metrics` and `clear_cache`.
- `Analysis` (`analysis.dfy`, main.py): `analyze_misclassifications` as a loop proved equal to a filter-map.
- `Wrappers` (`wrappers.dfy`): `Option` and `Result`.

The router's invariant `Routing.Router.Valid` states three things. Every counted query is a cache hit, one model use, or a call that raised: `cache_hits + sum(model_usage.values()) + failures == total_queries`, where `failures` is a ghost counter. Only configured models are ever counted. Every cache entry is a complete result that the router stored under its own query's key. A ghost `trace` records each call a routing step makes to the cache, the classifier and the backend. It is used to state which collaborators each branch touches.

Two behaviours of the code are easy to miss, and the model keeps them:

- Entries never expire: `ttl_seconds` is stored (core/cache.py:7) but never passed when writing (core/cache.py:33).
- A selected model missing from `config['models']` raises `KeyError` at core/router.py:78, before the backend is called; the model returns `MissingModelConfig`.

A third is not kept: `get_stats` can raise, because its exception handler calls `volume()` again (core/cache.py:55). It is listed under "## Left out".

## Model

| member | source | states |
|---|---|---|
| `Text.Lower` | LLM_Routing_System/core/cache.py:15 | lowercasing keeps the length and maps every character through the ASCII lower-case map, so nothing is trimmed |
| `Text.LowerIdempotent` | LLM_Routing_System/core/cache.py:15 | lowercasing twice is lowercasing once |
| `Text.ContainsAt` | LLM_Routing_System/core/classifier.py:62-63 | the recursive substring test holds exactly when the needle occurs at some offset |
| `Text.UpperNeedleNeverInLowered` | LLM_Routing_System/core/classifier.py:55-63 | a needle holding an upper-case letter is never found in lowercased text |
| `Text.NoWordsIffAllSpace` | LLM_Routing_System/utils/metrics.py:15-18 | `len(s.split())` is 0 exactly when every character is whitespace |
| `Cache.QueryHash` | LLM_Routing_System/core/cache.py:14-15 | the key has the query's length, holds no upper-case letter, and keeps every other character of the query (no trimming) |
| `Cache.SameKeyIffSameLowered` | LLM_Routing_System/core/cache.py:14-15 | two queries share a key exactly when they are equal after lowercasing |
| `Cache.KeyOfLoweredQuery` | LLM_Routing_System/core/cache.py:14-15 | a query and its lowercased form share a key |
| `Cache.Project` | LLM_Routing_System/core/cache.py:21-32 | the stored record has exactly the eight entry fields, copies present ones, sets missing ones to None, and never holds `from_cache` |
| `Cache.ProjectIdempotent` | LLM_Routing_System/core/cache.py:23-32 | projecting a stored record again changes nothing |
| `Cache.ProjectKeepsEntryRecord` | LLM_Routing_System/core/cache.py:23-33 | a record with exactly the eight fields is stored unchanged |
| `Cache.HitRate` | LLM_Routing_System/core/cache.py:38-58 | rate × (hits + misses) = hits when the total is positive; 0 for no accesses, a non-tuple or short tuple, or a raised call; in [0, 1] for non-negative counters |
| `Cache.Lookup` | LLM_Routing_System/core/cache.py:17-19 | a lookup finds an entry exactly when the query's key is stored, and returns that entry |
| `Cache.LookupAfterStore` | LLM_Routing_System/core/cache.py:17-33 | after a write under `q` that culls some keys, every casing variant of `q` finds the projected record, a culled query finds nothing, and every other query finds what it found before |
| `Cache.QueryCache.constructor` | LLM_Routing_System/core/cache.py:6-12 | keeps the TTL, sets a byte budget of `max_size` MiB, starts empty |
| `Cache.QueryCache.Get` | LLM_Routing_System/core/cache.py:17-19 | returns the entry under the lowercased query, or nothing when there is none |
| `Cache.QueryCache.Set` | LLM_Routing_System/core/cache.py:21-33 | the store drops the entries it culls, then the query's key maps to the projected record; every other key that was not culled keeps its entry, and no other key appears |
| `Cache.QueryCache.Clear` | LLM_Routing_System/core/cache.py:35-36 | afterwards the store is empty and every lookup finds nothing |
| `Cache.QueryCache.GetStats` | LLM_Routing_System/core/cache.py:38-58 | reports the volume and item count; the hit rate is in [0, 1] for non-negative counters and is 0 without accesses |
| `Classifier.RuleBased` | LLM_Routing_System/core/classifier.py:53-78 | the label is one of three and the confidence one of 0.70/0.80/0.85/0.90, never 0.75; an advanced keyword gives (`advanced`, 0.85); a long query without one gives (`advanced`, 0.70); `simple` exactly when a simple keyword is present, the query is short, and there is no advanced keyword and no excess length, always at 0.90; `medium` is always 0.80 |
| `Classifier.UpperKeywordNeverMatches` | LLM_Routing_System/core/classifier.py:55-63 | adding a keyword with an upper-case letter to a keyword list never changes whether the list matches |
| `Classifier.UpperAdvancedKeywordIgnored` | LLM_Routing_System/core/classifier.py:55-73 | an advanced keyword with an upper-case letter has no effect on the rule-based classification |
| `Classifier.UpperSimpleKeywordIgnored` | LLM_Routing_System/core/classifier.py:55-76 | a simple keyword with an upper-case letter has no effect on the rule-based classification |
| `Classifier.KeywordFlag` | LLM_Routing_System/core/classifier.py:25 | the flag is 1 exactly when the keyword occurs in the lowercased query, and 0 otherwise |
| `Classifier.AddFlag` | LLM_Routing_System/core/classifier.py:24-28 | writing one more keyword flag keeps all earlier flags correct, including when two keywords share a flag key |
| `Classifier.QueryClassifier.constructor` | LLM_Routing_System/core/classifier.py:8-12 | keeps the configuration and starts untrained |
| `Classifier.QueryClassifier.ExtractFeatures` | LLM_Routing_System/core/classifier.py:14-30 | the dictionary holds a 0/1 flag `has_<kw>` for every configured keyword, the length, word count and `?`/`!` presence under the keys no flag overwrote, and nothing else |
| `Classifier.QueryClassifier.AddKeywordFlags` | LLM_Routing_System/core/classifier.py:24-28 | each loop adds the correct flag for every keyword of its list |
| `Classifier.QueryClassifier.Train` | LLM_Routing_System/core/classifier.py:32-39 | empty training data changes nothing; otherwise the fitted model is installed and the trained path switched on |
| `Classifier.QueryClassifier.Classify` | LLM_Routing_System/core/classifier.py:41-51 | the rule-based path is used exactly when the classifier is not trained |
| `Metrics.BaseAccuracy` | LLM_Routing_System/utils/metrics.py:2-11 | `medium`/`gemma` give 0.8 (checked before `large`), `large` gives 0.85, others 0.7, plus 0.1 for `ollama`; always within [0.7, 0.95] |
| `Metrics.ResponseQuality` | LLM_Routing_System/utils/metrics.py:14-20 | the quality is in (0, 1] and is 1 once the response has at least as many words as the query |
| `Metrics.CalculateAccuracy` | LLM_Routing_System/utils/metrics.py:1-22 | the result is in [0, 0.95] and never above the tier accuracy; 0 for a response without words; `min(0.95, base)` when the response has at least as many words as the query |
| `Metrics.BlankResponseScoresZero` | LLM_Routing_System/utils/metrics.py:15-18 | an all-whitespace response scores 0 |
| `Metrics.TokenRate` | LLM_Routing_System/utils/metrics.py:27-43 | the rate is positive; unlisted ollama models get 0.0000002; every non-ollama provider gets 0.00001 |
| `Metrics.CalculateCost` | LLM_Routing_System/utils/metrics.py:24-43 | 10 × cost = rate × 13 × length, so it is 0 for length 0 and positive for positive length |
| `Metrics.CostMonotone` | LLM_Routing_System/utils/metrics.py:38-43 | for a fixed model and provider, the cost never decreases as the response gets longer |
| `Routing.FromRecord` | LLM_Routing_System/core/router.py:68 | a rebuilt result carries the requested `from_cache` flag and the stored query and model |
| `Routing.ResultData` | LLM_Routing_System/core/router.py:87-96 | `result_data` has exactly the eight entry fields and no `from_cache`; the cache stores it unchanged, and reading it back gives the same result |
| `Routing.SelectModel` | LLM_Routing_System/core/router.py:102-126 | the mapped model when the label has a threshold that the confidence reaches (and the mapping knows the label), the fallback otherwise; always a mapped model or the fallback |
| `Routing.SelectedNonFallbackMeansThresholdMet` | LLM_Routing_System/core/router.py:117-126 | a selection other than the fallback implies that the label's threshold was met and the label's mapped model was chosen |
| `Routing.RecordUse` | LLM_Routing_System/core/router.py:128-132 | the usage map gains the model if new, its count rises by one, and other counts stay |
| `Routing.RecordUseAddsOne` | LLM_Routing_System/core/router.py:128-134 | one recorded use adds exactly one to the usage total |
| `Routing.RatioOrZero` | LLM_Routing_System/core/router.py:143-145 | quotient × divisor = dividend for a positive divisor, 0 otherwise, and within [0, 1] when the dividend is between 0 and the divisor |
| `Routing.HitsAndUsesAccountForQueries` | LLM_Routing_System/core/router.py:128-145 | for any router in its invariant state, hits plus model uses are at most `total_queries`, equal to it when no call raised, and the hit rate reported by `get_metrics` is in [0, 1] |
| `Routing.Router.constructor` | LLM_Routing_System/core/router.py:20-34 | a fresh cache and classifier, zeroed counters, and the invariant established |
| `Routing.Router.UpdateMetrics` | LLM_Routing_System/core/router.py:128-134 | usage of the model up by one, cost and speed added to the totals |
| `Routing.Router.RouteForced` | LLM_Routing_System/core/router.py:39-62 | an unknown model fails with no backend call; otherwise exactly one backend call, and on success (`forced`, 1.0, not from cache, configured cost) with usage, cost and time updated; the cache is untouched |
| `Routing.Router.RouteUnforced` | LLM_Routing_System/core/router.py:64-68 | on a hit: one more cache hit, the stored result with `from_cache` true, no classify or generate call, and usage, cost, time and cache unchanged; on a miss: the miss outcome |
| `Routing.Router.RouteMiss` | LLM_Routing_System/core/router.py:70-100 | classify, then select; an unconfigured selected model fails before any backend call; otherwise the generation outcome |
| `Routing.Router.GenerateAndStore` | LLM_Routing_System/core/router.py:76-100 | on a backend failure, nothing but the failure is recorded and nothing is cached; on success, usage +1, cost + configured cost, time + backend speed, the cache holds exactly `result_data` for the query over the entries the store did not cull, and the result is not from the cache |
| `Routing.Router.StoreResult` | LLM_Routing_System/core/router.py:86-98 | after the store's cull, the query's key holds exactly `result_data`, and every entry is still a complete router-written result |
| `Routing.Router.RouteQuery` | LLM_Routing_System/core/router.py:36-100 | every call adds exactly one to `total_queries`, including calls that raise; a raised call changes no other counter and no cache entry; the forced, hit and miss outcomes as above; the invariant is kept |
| `Routing.Router.GetMetrics` | LLM_Routing_System/core/router.py:136-146 | the raw counters and cache stats; hit rate × total = hits (0 with no queries, in [0, 1]); average cost and time × (total − hits) = the totals, or 0 when there are no non-hit queries |
| `Routing.Router.ClearCache` | LLM_Routing_System/core/router.py:148-150 | empties the cache, keeps the invariant, and touches no counter |
| `Analysis.Flag` | LLM_Routing_System/main.py:71-89 | advanced wording on a non-`advanced` result flags expected `advanced`; otherwise simple wording on a non-`simple` result flags expected `simple`; no wording means no entry; an entry always has expected ≠ actual and copies the query, label and model |
| `Analysis.AdvancedWithBothWordingsFlaggedSimple` | LLM_Routing_System/main.py:76-89 | an `advanced` result whose query has both kinds of wording is flagged as expected `simple` |
| `Analysis.FlagSeq` | LLM_Routing_System/main.py:76-89 | a result contributes at most one entry |
| `Analysis.Audit` | LLM_Routing_System/main.py:68-91 | the audit has no more entries than there are results |
| `Analysis.AuditAppend` | LLM_Routing_System/main.py:71-89 | auditing a concatenation concatenates the audits, so entries keep input order |
| `Analysis.AuditEntriesFromInputs` | LLM_Routing_System/main.py:76-89 | every entry has expected ≠ actual and is the flag of some input result |
| `Analysis.UnremarkableQueriesNeverFlagged` | LLM_Routing_System/main.py:76-89 | only queries containing one of the four phrases appear |
| `Analysis.AnalyzeMisclassifications` | LLM_Routing_System/main.py:68-91 | the loop's output equals the filter-map audit of its input |

## Left out

- core/models.py is not part of this model. The backend is a function parameter from (model id, query) to a response with speed and accuracy, or to a provider error. Model loading, HTTP calls, response cleaning and latency measurement are left out.
- The trained classifier: TF-IDF vectorisation and logistic regression are an opaque predictor supplied to `Train`.
- Classifier.QueryClassifier.Train: does not model fitting that raises (for example one class only), because the fit is opaque; the model switches to the trained path for any non-empty data.
- The md5 digest: the key is the lowercased query itself, so digest collisions are not modelled.
- Lowercasing maps only the ASCII letters A-Z; Python's Unicode case mapping of other letters is not modelled.
- Floating point: scores, costs, rates and times are reals. For example, 0.7 + 0.1 is exactly 0.8 here, but not in IEEE doubles.
- diskcache internals: which entries the least-recently-used cull drops is an input to `Set`, not computed from sizes. Access-time tracking is left out. `volume()` and the hit/miss counters are inputs to `GetStats`.
- Cache.QueryCache.Set: assumes the cull never drops the entry being written.
- Cache.QueryCache.GetStats: does not model `volume()` raising inside the exception handler, because the volume is an input.
- TTL expiry: the code never applies the TTL, so it is not modelled.
- Persistence: the on-disk cache directory may outlive the process. The model starts each cache empty.
- Configuration shape: the `routing`, `confidence_thresholds` and `caching` sections are assumed present, and every configured model has a numeric `cost`. The `KeyError`s raised for missing sections are not modelled. Thresholds are numbers, so the exception handler of `_select_model` is never reached.
- Analysis.AnalyzeMisclassifications: reads only `query`, `classification` and `model_used`. The `KeyError` for a row without them is not modelled.
- The rest of main.py (config loading, the global router, reports, `compare_with_most_powerful`), utils/logger.py and download_models.py: driver, logging and setup code outside the routing core.
- Routing.Router.RouteQuery: assumes `cache.get` and `cache.set` never raise, because disk errors are not modelled. A `cache.set` that raised at core/router.py:98 would come after `_update_metrics` (core/router.py:84), so that failed call would already have counted a use, its cost and its time.
- Routing.Router.GetMetrics: returns a value copy. In the code, `{**self.metrics, ...}` (core/router.py:140-141) is a shallow copy, so the snapshot's `model_usage` is the router's live dictionary and keeps changing as later queries are routed. The snapshot's `total_queries` does not change.
- Concurrency: the code has none.
