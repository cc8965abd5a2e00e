/** The query cache of core/cache.py: a persistent key-value store whose
    key is derived from the lowercased query alone, holding routing
    outcomes projected onto eight fields. */
module Cache {
  import opened Wrappers
  import opened Text

  /** A Python value as it sits in the dictionaries the cache stores. */
  datatype Value = Null | Str(s: string) | Num(x: real) | Flag(b: bool)

  /** A Python dictionary with string keys. */
  type Record = map<string, Value>

  /** The fields a stored entry keeps; `from_cache` is not among them. */
  const EntryFields: set<string> :=
    {"query", "model_used", "response", "speed_ms", "accuracy", "cost", "classification", "confidence"}

  /** `_get_query_hash`: the digest of the lowercased query. The digest is
      stood in for by the lowercased text itself (no collisions). Nothing is
      trimmed: the key has the query's length and keeps every character that
      is not an upper-case letter. */
  function QueryHash(query: string): (key: string)
    ensures |key| == |query|
    ensures forall i :: 0 <= i < |key| ==> !IsUpper(key[i])
    ensures forall i :: 0 <= i < |query| && !IsUpper(query[i]) ==> key[i] == query[i]
  {
    Lower(query)
  }

  /** Two queries share a cache key exactly when they are equal after
      lowercasing. */
  lemma SameKeyIffSameLowered(a: string, b: string)
    ensures QueryHash(a) == QueryHash(b) <==> Lower(a) == Lower(b)
  {
  }

  /** Every casing variant of a query shares the key of its lowercased form. */
  lemma KeyOfLoweredQuery(q: string)
    ensures QueryHash(Lower(q)) == QueryHash(q)
  {
    LowerIdempotent(q);
  }

  /** The record `set` writes: exactly the eight entry fields, each taken
      from `result` when present and `None` otherwise. */
  function Project(result: Record): (clean: Record)
    ensures clean.Keys == EntryFields
    ensures forall f :: f in EntryFields && f in result ==> clean[f] == result[f]
    ensures forall f :: f in EntryFields && f !in result ==> clean[f] == Null
    ensures "from_cache" !in clean
  {
    map f | f in EntryFields :: if f in result then result[f] else Null
  }

  /** Projecting twice is projecting once. */
  lemma ProjectIdempotent(result: Record)
    ensures Project(Project(result)) == Project(result)
  {
  }

  /** A record that already has exactly the entry fields is stored unchanged. */
  lemma ProjectKeepsEntryRecord(result: Record)
    requires result.Keys == EntryFields
    ensures Project(result) == result
  {
  }

  /** What `self.cache.stats()` yields: it may raise, it may return
      something other than a tuple, or a tuple of counters (hits, misses, ...). */
  datatype StatsReply = StatsRaised | StatsNotTuple | StatsTuple(counters: seq<int>)

  /** The dictionary `get_stats` returns. */
  datatype CacheStats = CacheStats(size: int, items: nat, hitRate: real)

  /** Whether the stats reply carries a hits/misses pair with a positive total. */
  predicate HasAccesses(reply: StatsReply) {
    reply.StatsTuple? && |reply.counters| >= 2 && reply.counters[0] + reply.counters[1] > 0
  }

  /** The access counters of a stats reply, if any, are non-negative. */
  predicate CountersNonNegative(reply: StatsReply) {
    reply.StatsTuple? ==> forall i :: 0 <= i < |reply.counters| ==> reply.counters[i] >= 0
  }

  /** The hit rate of `get_stats`: hits over hits plus misses, degrading to
      0 when there were no accesses, when the reply is not a pair of
      counters, and when asking for it raised. */
  function HitRate(reply: StatsReply): (rate: real)
    ensures HasAccesses(reply) ==>
              rate * (reply.counters[0] + reply.counters[1]) as real == reply.counters[0] as real
    ensures !HasAccesses(reply) ==> rate == 0.0
    ensures reply.StatsTuple? && |reply.counters| >= 2 && reply.counters[0] >= 0 && reply.counters[1] >= 0
            ==> 0.0 <= rate <= 1.0
  {
    match reply
    case StatsTuple(c) =>
      if |c| >= 2 then
        var total := c[0] + c[1];
        if total > 0 then c[0] as real / total as real else 0.0
      else 0.0
    case _ => 0.0
  }

  /** The entry a lookup finds in `entries` for `query`, if any. */
  function Lookup(entries: map<string, Record>, query: string): (r: Option<Record>)
    ensures r.Some? <==> QueryHash(query) in entries
    ensures r.Some? ==> r.value == entries[QueryHash(query)]
  {
    if QueryHash(query) in entries then Some(entries[QueryHash(query)]) else None
  }

  /** After the store culls `culled` and writes `result` under `q`, a lookup
      with any casing variant of `q` finds the projected record, a lookup
      of a culled key finds nothing, and every other lookup is unaffected. */
  lemma LookupAfterStore(entries: map<string, Record>, culled: set<string>, q: string, result: Record, q': string)
    ensures Lower(q') == Lower(q) ==>
              Lookup((entries - culled)[QueryHash(q) := Project(result)], q') == Some(Project(result))
    ensures Lower(q') != Lower(q) && QueryHash(q') in culled ==>
              Lookup((entries - culled)[QueryHash(q) := Project(result)], q') == None
    ensures Lower(q') != Lower(q) && QueryHash(q') !in culled ==>
              Lookup((entries - culled)[QueryHash(q) := Project(result)], q') == Lookup(entries, q')
  {
  }

  class QueryCache {
    const ttlSeconds: int
    /** The byte budget handed to the store: `max_size` megabytes. */
    const sizeLimit: int
    /** The backing store, from query key to stored record. */
    var entries: map<string, Record>

    /** `__init__`: the TTL is kept but never used when writing. */
    constructor (ttlSeconds: int, maxSize: int)
      ensures this.ttlSeconds == ttlSeconds && sizeLimit == maxSize * 1024 * 1024
      ensures entries == map[]
    {
      this.ttlSeconds := ttlSeconds;
      sizeLimit := maxSize * 1024 * 1024;
      entries := map[];
    }

    /** `get`: the record stored under the query's key, if any. */
    function Get(query: string): (r: Option<Record>)
      reads this
      ensures r.Some? <==> Lower(query) in entries
      ensures r.Some? ==> r.value == entries[Lower(query)]
    {
      Lookup(entries, query)
    }

    /** `set`: the store first culls its least-recently-used entries
        `culled` to stay within `sizeLimit` (which ones is the store's
        choice), then stores the projection of `result` under the query's
        key; every other key that was not culled keeps its entry. */
    method Set(query: string, result: Record, culled: set<string>)
      modifies this
      ensures entries == (old(entries) - culled)[QueryHash(query) := Project(result)]
      ensures forall k :: k in old(entries) && k !in culled && k != QueryHash(query) ==>
                k in entries && entries[k] == old(entries)[k]
      ensures forall k :: k in entries ==> k == QueryHash(query) || k in old(entries)
    {
      entries := (entries - culled)[QueryHash(query) := Project(result)];
    }

    /** `clear`: afterwards no query finds an entry. */
    method Clear()
      modifies this
      ensures entries == map[]
      ensures forall q :: Get(q) == None
    {
      entries := map[];
    }

    /** `get_stats`: the store's byte volume, its item count and the hit
        rate, which never raises. */
    function GetStats(reply: StatsReply, volume: int): (s: CacheStats)
      reads this
      ensures s.size == volume && s.items == |entries|
      ensures CountersNonNegative(reply) ==> 0.0 <= s.hitRate <= 1.0
      ensures !HasAccesses(reply) ==> s.hitRate == 0.0
    {
      CacheStats(volume, |entries|, HitRate(reply))
    }
  }
}
