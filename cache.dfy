// The response cache: query normalisation, key derivation, an in-memory
// TTL map read against an injected clock, and hit/miss/set counters.

module Cache {
  import opened Records
  import opened PyText

  // ---------------------------------------------------------------
  // Query normalisation and keys

  /** Lowercase, strip, then collapse every whitespace run to one space.
   *  Punctuation is kept. */
  function NormalizeQuery(q: string): string {
    Join(" ", Split(Strip(Lower(q))))
  }

  /** The normalised query is the space-joined list of the query's words,
   *  lowercased. */
  lemma NormalizeQueryWords(q: string)
    ensures NormalizeQuery(q) == Join(" ", LowerEach(Split(q)))
    ensures Split(NormalizeQuery(q)) == LowerEach(Split(q))
  {
    SplitStrip(Lower(q));
    SplitLower(q);
    var ws := LowerEach(Split(q));
    forall k | 0 <= k < |ws| ensures IsWord(ws[k]) {
      assert IsWord(Split(q)[k]);
    }
    SplitJoin(ws);
  }

  lemma LoweredWords(q: string)
    ensures forall k :: 0 <= k < |LowerEach(Split(q))| ==> IsWord(LowerEach(Split(q))[k])
    ensures forall k :: 0 <= k < |LowerEach(Split(q))| ==> NoUpper(LowerEach(Split(q))[k])
  {
    var ws := LowerEach(Split(q));
    forall k | 0 <= k < |ws| ensures IsWord(ws[k]) {
      assert IsWord(Split(q)[k]);
    }
  }

  lemma JoinNoUpper(ws: seq<string>)
    requires forall k :: 0 <= k < |ws| ==> NoUpper(ws[k])
    ensures NoUpper(Join(" ", ws))
  {
    JoinChars(ws, (c: char) => !IsUpper(c));
  }

  /** The normalised query has no uppercase letter and no edge spaces. */
  lemma NormalizeQueryShape(q: string)
    ensures NoUpper(NormalizeQuery(q))
    ensures Strip(NormalizeQuery(q)) == NormalizeQuery(q)
  {
    NormalizeQueryWords(q);
    var ws := LowerEach(Split(q));
    LoweredWords(q);
    JoinNoUpper(ws);
    JoinEnds(ws);
    StripNoEdgeSpaces(Join(" ", ws));
  }

  /** Normalising twice is normalising once. */
  lemma NormalizeQueryIdempotent(q: string)
    ensures NormalizeQuery(NormalizeQuery(q)) == NormalizeQuery(q)
  {
    var n := NormalizeQuery(q);
    NormalizeQueryShape(q);
    NormalizeQueryWords(q);
    LowerOfNoUpper(n);
    assert Split(Strip(Lower(n))) == LowerEach(Split(q));
  }

  /** Two queries share a normalised form exactly when they have the same
   *  words up to ASCII case, however they are spaced. */
  lemma NormalizeQuerySame(a: string, b: string)
    ensures NormalizeQuery(a) == NormalizeQuery(b) <==> LowerEach(Split(a)) == LowerEach(Split(b))
  {
    NormalizeQueryWords(a);
    NormalizeQueryWords(b);
  }

  /** A query and its lowercase spelling normalise alike. */
  lemma NormalizeQueryCaseInsensitive(q: string)
    ensures NormalizeQuery(Lower(q)) == NormalizeQuery(q)
  {
    LowerIdempotent(q);
  }

  const KeyPrefix := "rag:response:"

  /** The string that is hashed into the cache key: "<normalised>:<top_k>". */
  function KeySource(query: string, topK: int): string {
    NormalizeQuery(query) + ":" + IntToString(topK)
  }

  /** Cache key; the MD5 digest of the key source is not modelled. */
  function CacheKey(query: string, topK: int): string {
    KeyPrefix + KeySource(query, topK)
  }

  /** The text after the last ':' of a string. */
  function AfterLastColon(t: string): (r: string)
    ensures |r| <= |t| && r == t[|t| - |r|..]
    ensures forall i :: 0 <= i < |r| ==> r[i] != ':'
    ensures |r| < |t| ==> t[|t| - |r| - 1] == ':'
  {
    if t == [] || t[|t| - 1] == ':' then []
    else AfterLastColon(t[..|t| - 1]) + [t[|t| - 1]]
  }

  lemma {:induction false} AfterLastColonOf(x: string, s: string)
    requires forall i :: 0 <= i < |s| ==> s[i] != ':'
    ensures AfterLastColon(x + ":" + s) == s
  {
    if s != [] {
      var t := x + ":" + s;
      assert t[..|t| - 1] == x + ":" + s[..|s| - 1];
      AfterLastColonOf(x, s[..|s| - 1]);
      assert s == s[..|s| - 1] + [s[|s| - 1]];
    } else {
      assert x + ":" + s == x + ":";
    }
  }

  lemma ColonPairInjective(x: string, s: string, y: string, s2: string)
    requires forall i :: 0 <= i < |s| ==> s[i] != ':'
    requires forall i :: 0 <= i < |s2| ==> s2[i] != ':'
    requires x + ":" + s == y + ":" + s2
    ensures x == y && s == s2
  {
    AfterLastColonOf(x, s);
    AfterLastColonOf(y, s2);
    var t := x + ":" + s;
    assert x == t[..|x|];
    assert y == t[..|y|];
  }

  /** Since str(int) never contains ':', the key source determines both
   *  the normalised query (which may itself contain ':') and top_k. */
  lemma KeySourceInjective(a: string, ka: int, b: string, kb: int)
    ensures KeySource(a, ka) == KeySource(b, kb) <==> NormalizeQuery(a) == NormalizeQuery(b) && ka == kb
  {
    if KeySource(a, ka) == KeySource(b, kb) {
      ColonPairInjective(NormalizeQuery(a), IntToString(ka), NormalizeQuery(b), IntToString(kb));
      IntToStringInjective(ka, kb);
    }
  }

  lemma CacheKeyInjective(a: string, ka: int, b: string, kb: int)
    ensures CacheKey(a, ka) == CacheKey(b, kb) <==> NormalizeQuery(a) == NormalizeQuery(b) && ka == kb
  {
    KeySourceInjective(a, ka, b, kb);
    if CacheKey(a, ka) == CacheKey(b, kb) {
      assert KeySource(a, ka) == CacheKey(a, ka)[|KeyPrefix|..];
      assert KeySource(b, kb) == CacheKey(b, kb)[|KeyPrefix|..];
    }
  }

  // ---------------------------------------------------------------
  // The memory backend

  /** The cached dictionary {response, sources, timestamp}. */
  datatype CachedResponse = CachedResponse(response: string, sources: seq<Doc>, timestamp: real)

  datatype Entry = Entry(value: CachedResponse, expiresAt: real)

  type Store = map<string, Entry>

  /** The value `get` answers at time `now`. */
  function Fetch(m: Store, key: string, now: real): Option<CachedResponse> {
    if key !in m || now > m[key].expiresAt then None else Some(m[key].value)
  }

  /** The map after `get` at time `now`: an expired entry is deleted. */
  function AfterFetch(m: Store, key: string, now: real): Store {
    if key in m && now > m[key].expiresAt then m - {key} else m
  }

  function Put(m: Store, key: string, value: CachedResponse, now: real, ttl: int): Store {
    m[key := Entry(value, now + ttl as real)]
  }

  /** A value put at time t0 is answered until t0 + ttl inclusive, and
   *  not after. */
  lemma PutThenFetch(m: Store, key: string, v: CachedResponse, t0: real, ttl: int, now: real)
    ensures Fetch(Put(m, key, v, t0, ttl), key, now) == if now <= t0 + ttl as real then Some(v) else None
  {
  }

  /** Putting one key leaves what every other key answers unchanged. */
  lemma PutOtherKey(m: Store, key: string, other: string, v: CachedResponse, t0: real, ttl: int, now: real)
    requires other != key
    ensures Fetch(Put(m, key, v, t0, ttl), other, now) == Fetch(m, other, now)
  {
  }

  /** Deleting an expired entry changes no later answer at the same or a
   *  later time, and keeps every other entry. */
  lemma AfterFetchSameAnswers(m: Store, key: string, now: real, k: string, later: real)
    requires now <= later
    ensures Fetch(AfterFetch(m, key, now), k, later) == Fetch(m, k, later)
    ensures forall x :: x in m && x != key ==> x in AfterFetch(m, key, now) && AfterFetch(m, key, now)[x] == m[x]
  {
  }

  /** MemoryCache: a dictionary from key to {value, expires_at}. */
  class MemoryCache {
    var entries: Store

    constructor()
      ensures entries == map[]
    {
      entries := map[];
    }

    method Get(key: string, now: real) returns (r: Option<CachedResponse>)
      modifies this
      ensures r == Fetch(old(entries), key, now)
      ensures entries == AfterFetch(old(entries), key, now)
    {
      if key !in entries {
        return None;
      }
      var entry := entries[key];
      if now > entry.expiresAt {
        entries := entries - {key};
        return None;
      }
      return Some(entry.value);
    }

    method Set(key: string, value: CachedResponse, ttl: int, now: real)
      modifies this
      ensures entries == Put(old(entries), key, value, now, ttl)
    {
      entries := entries[key := Entry(value, now + ttl as real)];
    }

    method Delete(key: string)
      modifies this
      ensures entries == old(entries) - {key}
    {
      if key in entries {
        entries := entries - {key};
      }
    }

    method Clear()
      modifies this
      ensures entries == map[]
    {
      entries := map[];
    }
  }

  // ---------------------------------------------------------------
  // The response cache

  datatype Counters = Counters(hits: nat, misses: nat, sets: nat)

  datatype StatsReport = StatsReport(hits: nat, misses: nat, sets: nat, hitRate: real, totalRequests: nat)

  lemma RatioInUnit(a: nat, b: nat)
    requires 0 < b && a <= b
    ensures 0.0 <= a as real / b as real <= 1.0
  {
    var x := a as real / b as real;
    assert x * b as real == a as real;
  }

  /** get_stats: the counters, their sum and hits / (hits + misses), or 0
   *  when nothing was requested. */
  function Report(c: Counters): (r: StatsReport)
    ensures r.hits == c.hits && r.misses == c.misses && r.sets == c.sets
    ensures r.totalRequests == c.hits + c.misses
    ensures 0.0 <= r.hitRate <= 1.0
    ensures r.totalRequests == 0 ==> r.hitRate == 0.0
    ensures r.totalRequests > 0 ==> r.hitRate * r.totalRequests as real == c.hits as real
  {
    var total := c.hits + c.misses;
    if total > 0 then
      RatioInUnit(c.hits, total);
      StatsReport(c.hits, c.misses, c.sets, c.hits as real / total as real, total)
    else StatsReport(c.hits, c.misses, c.sets, 0.0, 0)
  }

  /** The counters after a `get` that found `r`. */
  function CountGet(c: Counters, found: bool): Counters {
    if found then c.(hits := c.hits + 1) else c.(misses := c.misses + 1)
  }

  /** An enabled get adds exactly one request, a hit exactly when it found
   *  an entry. */
  lemma CountGetOne(c: Counters, found: bool)
    ensures var d := CountGet(c, found);
      && d.hits + d.misses == c.hits + c.misses + 1
      && d.sets == c.sets
      && (d.hits == c.hits + 1 <==> found)
  {
  }

  class ResponseCache {
    const backend: MemoryCache
    const ttl: int
    const enabled: bool
    var stats: Counters

    constructor(backend: MemoryCache, ttl: int := 3600, enabled: bool := true)
      ensures this.backend == backend && this.ttl == ttl && this.enabled == enabled
      ensures stats == Counters(0, 0, 0)
    {
      this.backend := backend;
      this.ttl := ttl;
      this.enabled := enabled;
      stats := Counters(0, 0, 0);
    }

    method Get(query: string, topK: int, now: real) returns (r: Option<CachedResponse>)
      modifies this, backend
      ensures !enabled ==> r == None && stats == old(stats) && backend.entries == old(backend.entries)
      ensures enabled ==> r == Fetch(old(backend.entries), CacheKey(query, topK), now)
      ensures enabled ==> backend.entries == AfterFetch(old(backend.entries), CacheKey(query, topK), now)
      ensures enabled ==> stats == CountGet(old(stats), r.Some?)
    {
      if !enabled {
        return None;
      }
      var key := CacheKey(query, topK);
      r := backend.Get(key, now);
      if r.Some? {
        stats := stats.(hits := stats.hits + 1);
      } else {
        stats := stats.(misses := stats.misses + 1);
      }
    }

    method Set(query: string, topK: int, response: string, sources: seq<Doc>, now: real)
      modifies this, backend
      ensures !enabled ==> stats == old(stats) && backend.entries == old(backend.entries)
      ensures enabled ==>
        backend.entries == Put(old(backend.entries), CacheKey(query, topK), CachedResponse(response, sources, now), now, ttl)
      ensures enabled ==> stats == old(stats).(sets := old(stats).sets + 1)
    {
      if !enabled {
        return;
      }
      var key := CacheKey(query, topK);
      backend.Set(key, CachedResponse(response, sources, now), ttl, now);
      stats := stats.(sets := stats.sets + 1);
    }

    /** Logs only; no entry is removed. */
    method InvalidateUrl(url: string)
      ensures unchanged(this) && unchanged(backend)
    {
    }

    /** Empties the backend and resets the counters, enabled or not. */
    method Clear()
      modifies this, backend
      ensures backend.entries == map[]
      ensures stats == Counters(0, 0, 0)
    {
      backend.Clear();
      stats := Counters(0, 0, 0);
    }

    function GetStats(): (r: StatsReport)
      reads this
      ensures r == Report(stats)
    {
      Report(stats)
    }
  }

  /** A response stored for one query is found, until it expires, by any
   *  later query with the same words up to case and spacing and the same
   *  top_k; a different top_k or different words never find it. */
  lemma StoredResponseFound(m: Store, q: string, k: int, v: CachedResponse, t0: real, ttl: int,
                            q2: string, k2: int, now: real)
    ensures LowerEach(Split(q2)) == LowerEach(Split(q)) && k2 == k && now <= t0 + ttl as real
      ==> Fetch(Put(m, CacheKey(q, k), v, t0, ttl), CacheKey(q2, k2), now) == Some(v)
    ensures LowerEach(Split(q2)) != LowerEach(Split(q)) || k2 != k
      ==> Fetch(Put(m, CacheKey(q, k), v, t0, ttl), CacheKey(q2, k2), now) == Fetch(m, CacheKey(q2, k2), now)
  {
    NormalizeQuerySame(q, q2);
    CacheKeyInjective(q, k, q2, k2);
    var key, key2 := CacheKey(q, k), CacheKey(q2, k2);
    if key2 == key {
      PutThenFetch(m, key, v, t0, ttl, now);
    } else {
      PutOtherKey(m, key, key2, v, t0, ttl, now);
    }
  }
}
