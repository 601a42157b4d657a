/** The in-memory response cache of the backend's performance middleware: a map from
    request fingerprints to stored JSON responses, read (and lazily invalidated) by the
    `memoryCache` middleware, swept by a periodic timer, cleared on demand and
    reported on by `getCacheStats`; plus the three small request gates of the same
    file. Times are milliseconds since the epoch and are passed in explicitly where
    the source reads `Date.now()`. */
module ResponseCache {
  import opened Json
  import opened Text
  import opened Http

  /** A stored response: the JSON payload, when it was stored (ms) and its TTL in
      seconds, any finite number, so a fractional TTL such as 1.5 is legal. */
  datatype Entry = Entry(data: Json, timestamp: int, ttl: real)

  /** Age in whole seconds: `Math.floor((now - timestamp) / 1000)`. Dafny's division by
      a positive divisor rounds down, as `Math.floor` does, also for a negative age. */
  function AgeSeconds(now: int, e: Entry): int {
    (now - e.timestamp) / 1000
  }

  /** The read-time test of the middleware: fresh while the age in whole seconds is
      below the TTL. */
  predicate IsFresh(now: int, e: Entry) {
    AgeSeconds(now, e) as real < e.ttl
  }

  /** The test of the periodic sweep and of the statistics: expired once more than
      `ttl * 1000` ms have passed. */
  predicate IsExpired(now: int, e: Entry) {
    (now - e.timestamp) as real > e.ttl * 1000.0
  }

  /** A TTL that is a whole number of seconds. */
  predicate Whole(t: real) {
    t.Floor as real == t
  }

  /** `Math.ceil(t)`: the least integer not below `t`. */
  function Ceil(t: real): (c: int)
    ensures t <= c as real < t + 1.0
    ensures Whole(t) <==> c as real == t
  {
    if Whole(t) then t.Floor else t.Floor + 1
  }

  /** A lookup hits exactly while fewer than `ceil(ttl) * 1000` ms have passed, since
      the whole-second age is compared with the TTL: for a whole TTL that is
      `ttl * 1000` ms, for a TTL of 1.5 it is 2000 ms. */
  lemma FreshIffYoungerThanTtl(now: int, e: Entry)
    ensures IsFresh(now, e) <==> now - e.timestamp < Ceil(e.ttl) * 1000
    ensures Whole(e.ttl) ==> (IsFresh(now, e) <==> (now - e.timestamp) as real < e.ttl * 1000.0)
  {
    var d := now - e.timestamp;
    var q, r := d / 1000, d % 1000;
    var c := Ceil(e.ttl);
    assert d == 1000 * q + r && 0 <= r < 1000;
    assert q as real < e.ttl <==> q < c;
    if q < c {
      assert 1000 * q <= 1000 * c - 1000;
    } else {
      assert 1000 * q >= 1000 * c;
    }
  }

  /** How the read test and the sweep test disagree. A stale entry that has not expired
      exists only for a whole TTL, at the single instant `ttl * 1000` ms. A fresh entry
      that has expired exists only for a fractional TTL, on the whole interval between
      `ttl * 1000` and `ceil(ttl) * 1000` ms. At every other age a lookup hits iff the
      entry has not expired. */
  lemma ReadAndSweepDisagreeOnlyAtBoundary(now: int, e: Entry)
    ensures (!IsFresh(now, e) && !IsExpired(now, e)) <==>
      Whole(e.ttl) && (now - e.timestamp) as real == e.ttl * 1000.0
    ensures (IsFresh(now, e) && IsExpired(now, e)) <==>
      e.ttl * 1000.0 < (now - e.timestamp) as real && now - e.timestamp < Ceil(e.ttl) * 1000
    ensures Whole(e.ttl) ==> !(IsFresh(now, e) && IsExpired(now, e))
  {
    FreshIffYoungerThanTtl(now, e);
    var d := now - e.timestamp;
    var c := Ceil(e.ttl);
    if !Whole(e.ttl) && d >= c * 1000 {
      assert (c * 1000) as real == c as real * 1000.0;
      assert d as real > e.ttl * 1000.0;
    }
    if Whole(e.ttl) {
      assert (c * 1000) as real == e.ttl * 1000.0;
    }
  }

  /** An entry stored at `now` is served at once iff its TTL is positive. */
  lemma FreshRightAfterStore(data: Json, now: int, ttl: real)
    ensures IsFresh(now, Entry(data, now, ttl)) <==> ttl > 0.0
  {
  }

  /** Once `ceil(ttl)` seconds have passed a lookup misses; for a fractional TTL a
      lookup still hits at `ttl * 1000` ms, as with a TTL of 1.5 at 1500 ms. */
  lemma StaleOnceTtlElapsed(now: int, e: Entry)
    requires now - e.timestamp >= Ceil(e.ttl) * 1000
    ensures !IsFresh(now, e)
    ensures !Whole(e.ttl) && e.ttl > 0.0 ==> IsFresh(e.timestamp + Ceil(e.ttl) * 1000 - 1000, e)
  {
    FreshIffYoungerThanTtl(now, e);
    FreshIffYoungerThanTtl(e.timestamp + Ceil(e.ttl) * 1000 - 1000, e);
  }

  /** With a TTL of 1.5 seconds, 1700 ms after storing, a lookup hits although the
      sweep and the statistics count the entry as expired. */
  lemma FractionalTtlServesExpired(data: Json, t: int)
    ensures IsFresh(t + 1700, Entry(data, t, 1.5)) && IsExpired(t + 1700, Entry(data, t, 1.5))
  {
    assert AgeSeconds(t + 1700, Entry(data, t, 1.5)) == 1;
  }

  /** The default fingerprint `${method}:${originalUrl}:${JSON.stringify(query)}`; the
      serialised query is taken as given. */
  function DefaultKey(verb: string, originalUrl: string, queryJson: string): (k: string)
    ensures StartsWith(k, verb + ":")
  {
    verb + ":" + originalUrl + ":" + queryJson
  }

  /** Two requests whose methods differ (and contain no colon) never share a default
      fingerprint, whatever their URLs and queries. */
  lemma DefaultKeySeparatesMethods(m1: string, u1: string, q1: string, m2: string, u2: string, q2: string)
    requires m1 != m2
    requires forall i :: 0 <= i < |m1| ==> m1[i] != ':'
    requires forall i :: 0 <= i < |m2| ==> m2[i] != ':'
    ensures DefaultKey(m1, u1, q1) != DefaultKey(m2, u2, q2)
  {
    var k1, k2 := DefaultKey(m1, u1, q1), DefaultKey(m2, u2, q2);
    if |m1| < |m2| {
      assert k1[|m1|] == ':' && k2[|m1|] == m2[|m1|];
    } else if |m2| < |m1| {
      assert k2[|m2|] == ':' && k1[|m2|] == m1[|m2|];
    } else {
      var i :| 0 <= i < |m1| && m1[i] != m2[i];
      assert k1[i] == m1[i] && k2[i] == m2[i];
    }
  }

  /** What the middleware sees of a request. */
  datatype CacheRequest = CacheRequest(verb: string, originalUrl: string, queryJson: string)

  /** `CacheOptions`: the TTL in seconds, an optional custom key function and an
      optional predicate deciding whether the cache is used at all. */
  datatype CacheOptions = CacheOptions(
    ttl: real,
    key: Option<CacheRequest -> string>,
    condition: Option<CacheRequest -> bool>)

  /** The fingerprint under which a request is cached. */
  function KeyFor(req: CacheRequest, options: CacheOptions): string {
    if options.key.Some? then options.key.value(req) else DefaultKey(req.verb, req.originalUrl, req.queryJson)
  }

  /** What the downstream handler answers when the request is not served from cache:
      the status it set and the body it passed to `res.json`. */
  datatype HandlerReply = HandlerReply(status: int, body: Json)

  /** Only 2xx responses are stored. */
  predicate Cacheable(status: int) {
    200 <= status < 300
  }

  /** The map after the periodic sweep at `now`: the entries that have not expired. */
  function Swept(m: map<string, Entry>, now: int): (r: map<string, Entry>)
    ensures forall k :: k in r <==> k in m && !IsExpired(now, m[k])
    ensures forall k :: k in r ==> r[k] == m[k]
  {
    map k | k in m && !IsExpired(now, m[k]) :: m[k]
  }

  /** Sweeping again at the same instant changes nothing. */
  lemma SweepIdempotent(m: map<string, Entry>, now: int)
    ensures Swept(Swept(m, now), now) == Swept(m, now)
  {
    var once := Swept(m, now);
    assert Swept(once, now).Keys == once.Keys;
  }

  /** The sweep never drops an entry that a lookup would still serve when the TTL is
      whole; with a fractional TTL it drops a servable entry exactly once more than
      `ttl * 1000` ms have passed. */
  lemma SweepKeepsFresh(m: map<string, Entry>, now: int, k: string)
    requires k in m && IsFresh(now, m[k])
    ensures k in Swept(m, now) <==> (now - m[k].timestamp) as real <= m[k].ttl * 1000.0
    ensures Whole(m[k].ttl) ==> k in Swept(m, now) && Swept(m, now)[k] == m[k]
  {
    ReadAndSweepDisagreeOnlyAtBoundary(now, m[k]);
  }

  /** The map after `clearCache(pattern)`, the compiled pattern given as a key test. */
  function Unmatched(m: map<string, Entry>, test: string -> bool): (r: map<string, Entry>)
    ensures forall k :: k in r <==> k in m && !test(k)
    ensures forall k :: k in r ==> r[k] == m[k]
  {
    map k | k in m && !test(k) :: m[k]
  }

  /** One line of `getCacheStats().entries`. */
  datatype EntryStat = EntryStat(age: int, ttl: real, expired: bool)

  /** `getCacheStats()` without the process memory figures; the entries are keyed by
      fingerprint instead of listed in insertion order. */
  datatype CacheStats = CacheStats(totalEntries: nat, entries: map<string, EntryStat>)

  function StatsOf(m: map<string, Entry>, now: int): CacheStats {
    CacheStats(|m|, map k | k in m :: EntryStat(AgeSeconds(now, m[k]), m[k].ttl, IsExpired(now, m[k])))
  }

  /** Right after a sweep the statistics list every remaining entry as not expired. */
  lemma StatsAfterSweepShowNothingExpired(m: map<string, Entry>, now: int)
    ensures var s := StatsOf(Swept(m, now), now);
      s.entries.Keys == Swept(m, now).Keys && forall k :: k in s.entries ==> !s.entries[k].expired
  {
  }

  /** An entry exactly `ttl * 1000` ms old survives the sweep and is reported as not
      expired; a lookup treats it as stale iff the TTL is whole (a TTL of 1.5 is still
      served at 1500 ms). */
  lemma BoundaryEntrySurvivesSweepButMisses(m: map<string, Entry>, now: int, k: string)
    requires k in m && (now - m[k].timestamp) as real == m[k].ttl * 1000.0
    ensures k in Swept(m, now)
    ensures k in StatsOf(m, now).entries && !StatsOf(m, now).entries[k].expired
    ensures !IsFresh(now, m[k]) <==> Whole(m[k].ttl)
  {
    ReadAndSweepDisagreeOnlyAtBoundary(now, m[k]);
    FreshIffYoungerThanTtl(now, m[k]);
  }

  /** The module-level `cache` map and the operations on it. */
  class Cache {
    var entries: map<string, Entry>

    constructor ()
      ensures entries == map[]
    {
      entries := map[];
    }

    /** The lookup half of `memoryCache`: a fresh entry is returned and kept; a present
        but stale one is deleted; nothing else changes. */
    method Lookup(key: string, now: int) returns (hit: Option<Entry>)
      modifies this
      ensures hit.Some? <==> key in old(entries) && IsFresh(now, old(entries)[key])
      ensures hit.Some? ==> hit.value == old(entries)[key] && entries == old(entries)
      ensures hit.None? ==> entries == old(entries) - {key}
    {
      if key in entries {
        var cached := entries[key];
        if AgeSeconds(now, cached) as real < cached.ttl {
          return Some(cached);
        }
        entries := entries - {key};
      }
      return None;
    }

    /** The replaced `res.json`: a 2xx response is stored under the key, replacing any
        earlier entry, stamped with the time of the reply and the configured TTL. */
    method Store(key: string, data: Json, status: int, ttl: real, now: int) returns (stored: bool)
      modifies this
      ensures stored <==> Cacheable(status)
      ensures entries == if stored then old(entries)[key := Entry(data, now, ttl)] else old(entries)
    {
      stored := 200 <= status && status < 300;
      if stored {
        entries := entries[key := Entry(data, now, ttl)];
      }
    }

    /** The whole `memoryCache` middleware for one request. `now` is the time of the
        lookup, `replyTime` the time the handler calls `res.json`, `handler` what it
        answers when it runs. */
    method Handle(req: CacheRequest, options: CacheOptions, now: int, handler: HandlerReply, replyTime: int)
      returns (resp: Response)
      modifies this
      ensures options.condition.Some? && !options.condition.value(req) ==>
        entries == old(entries) && resp == Response(handler.status, map[], handler.body)
      ensures !(options.condition.Some? && !options.condition.value(req)) ==>
        var key := KeyFor(req, options);
        if key in old(entries) && IsFresh(now, old(entries)[key]) then
          && entries == old(entries)
          && resp == Response(200, map["X-Cache" := "HIT", "X-Cache-Age" := IntToString(AgeSeconds(now, old(entries)[key]))],
                              old(entries)[key].data)
        else
          && entries == (if Cacheable(handler.status)
                         then (old(entries) - {key})[key := Entry(handler.body, replyTime, options.ttl)]
                         else old(entries) - {key})
          && resp == Response(handler.status, if Cacheable(handler.status) then map["X-Cache" := "MISS"] else map[], handler.body)
    {
      if options.condition.Some? && !options.condition.value(req) {
        return Response(handler.status, map[], handler.body);
      }
      var key := KeyFor(req, options);
      var hit := Lookup(key, now);
      if hit.Some? {
        var age := AgeSeconds(now, hit.value);
        return Response(200, map["X-Cache" := "HIT", "X-Cache-Age" := IntToString(age)], hit.value.data);
      }
      var stored := Store(key, handler.body, handler.status, options.ttl, replyTime);
      var headers := if stored then map["X-Cache" := "MISS"] else map[];
      resp := Response(handler.status, headers, handler.body);
    }

    /** The body of the periodic timer: delete, one key at a time, every entry that has
        expired at `now`; keep every other entry untouched. */
    method Sweep(now: int)
      modifies this
      ensures entries == Swept(old(entries), now)
    {
      var pending := entries.Keys;
      while pending != {}
        invariant pending <= entries.Keys <= old(entries).Keys
        invariant forall k :: k in entries ==> entries[k] == old(entries)[k]
        invariant forall k :: k in old(entries) && k !in pending ==> (k in entries <==> !IsExpired(now, old(entries)[k]))
        decreases pending
      {
        var key :| key in pending;
        if (now - entries[key].timestamp) as real > entries[key].ttl * 1000.0 {
          entries := entries - {key};
        }
        pending := pending - {key};
      }
      assert entries.Keys == Swept(old(entries), now).Keys;
    }

    /** `clearCache(pattern)`. An absent or empty pattern empties the map. Otherwise
        `compile` stands for `new RegExp(pattern)`: None when the pattern is not a valid
        expression (the call throws before deleting anything), else the key test; every
        key it matches is deleted and every other entry kept. */
    method Clear(pattern: Option<string>, compile: string -> Option<string -> bool>) returns (ok: bool)
      modifies this
      ensures ok <==> pattern.None? || pattern.value == "" || compile(pattern.value).Some?
      ensures !ok ==> entries == old(entries)
      ensures (pattern.None? || pattern.value == "") ==> entries == map[]
      ensures pattern.Some? && pattern.value != "" && compile(pattern.value).Some? ==>
        entries == Unmatched(old(entries), compile(pattern.value).value)
    {
      if pattern.None? || pattern.value == "" {
        entries := map[];
        return true;
      }
      var regex := compile(pattern.value);
      if regex.None? {
        return false;
      }
      var test := regex.value;
      var pending := entries.Keys;
      while pending != {}
        invariant pending <= entries.Keys <= old(entries).Keys
        invariant forall k :: k in entries ==> entries[k] == old(entries)[k]
        invariant forall k :: k in old(entries) && k !in pending ==> (k in entries <==> !test(k))
        decreases pending
      {
        var key :| key in pending;
        if test(key) {
          entries := entries - {key};
        }
        pending := pending - {key};
      }
      assert entries.Keys == Unmatched(old(entries), test).Keys;
      return true;
    }

    /** `getCacheStats()` at time `now`. */
    function Stats(now: int): (s: CacheStats)
      reads this
      ensures s.totalEntries == |entries| && s.entries.Keys == entries.Keys
    {
      StatsOf(entries, now)
    }
  }

  /** The default limit of `requestSizeLimiter`: 10 MiB. */
  const DefaultMaxRequestSize: int := 10 * 1024 * 1024

  /** `requestSizeLimiter(maxSize)`: a request is refused with 413 exactly when it
      carries a non-empty `Content-Length` whose `parseInt` value exceeds the limit;
      otherwise it is passed on. */
  function RequestSizeLimiter(contentLength: Option<string>, maxSize: int): (o: Outcome)
    ensures o.Respond? || o.Next?
    ensures o.Respond? <==>
      contentLength.Some? && contentLength.value != "" && ParseInt(contentLength.value, 0).Some?
      && ParseInt(contentLength.value, 0).value > maxSize
    ensures o.Respond? ==> o.resp.status == 413 && Member(Some(o.resp.body), "success") == Some(Bool(false))
  {
    if contentLength.Some? && contentLength.value != "" then
      match ParseInt(contentLength.value, 0)
      case Some(n) =>
        if n > maxSize then
          Respond(Reply(413, map[
            "success" := Bool(false),
            "error" := Str("Request Too Large"),
            "message" := Str("Request size " + contentLength.value + " bytes exceeds limit of "
                             + IntToString(maxSize) + " bytes"),
            "maxSize" := Num(maxSize as real)]))
        else Next
      case None => Next
    else Next
  }

  /** A request that declares its size in decimal is refused iff the size exceeds the
      limit. */
  lemma DeclaredSizeDecidesLimit(size: int, maxSize: int)
    ensures RequestSizeLimiter(Some(IntToString(size)), maxSize).Respond? <==> size > maxSize
  {
    ParseIntOfDecimal(size, 0);
  }

  /** `corsPreflightCache(maxAge)`: the headers after the middleware. */
  function CorsPreflightCache(headers: map<string, string>, verb: string, maxAge: int): (r: map<string, string>)
    ensures "Access-Control-Max-Age" in r <==> verb == "OPTIONS" || "Access-Control-Max-Age" in headers
    ensures forall h :: h in headers && h != "Access-Control-Max-Age" ==> h in r && r[h] == headers[h]
    ensures verb == "OPTIONS" ==> ParseInt(r["Access-Control-Max-Age"], 10) == Some(maxAge)
    ensures verb != "OPTIONS" ==> r == headers
  {
    ParseIntOfDecimal(maxAge, 10);
    if verb == "OPTIONS" then headers["Access-Control-Max-Age" := IntToString(maxAge)] else headers
  }

  /** `apiVersion(version)`: both version headers carry the version, nothing else changes. */
  function ApiVersion(headers: map<string, string>, version: string): (r: map<string, string>)
    ensures r.Keys == headers.Keys + {"API-Version", "X-API-Version"}
    ensures r["API-Version"] == version && r["X-API-Version"] == version
    ensures forall h :: h in headers && h != "API-Version" && h != "X-API-Version" ==> r[h] == headers[h]
  {
    headers["API-Version" := version]["X-API-Version" := version]
  }
}
