/**
 * The dashboard's API client (frontend/utils/api_client.py): a per-session
 * response cache keyed by the endpoint and the sorted request parameters,
 * filled on a successful fetch, never written on a failure and emptied on
 * demand. The HTTP call itself is a function parameter that either yields a
 * JSON document or fails in one of the ways the client tells apart.
 */
module ApiClient {
  import opened Common
  import opened StringOrder

  // ---------------------------------------------------------------------------
  // Values exchanged with the backend
  // ---------------------------------------------------------------------------

  datatype ParamValue = IntParam(i: int) | StrParam(s: string) | RealParam(x: real)

  /** A parameter dictionary, as its entries in insertion order. */
  type Params = seq<(string, ParamValue)>

  /** Dictionary keys are unique. */
  predicate DistinctKeys(ps: Params)
  {
    forall i, j :: 0 <= i < j < |ps| ==> ps[i].0 != ps[j].0
  }

  function ParamName(p: (string, ParamValue)): string { p.0 }

  datatype Json =
    | JNull
    | JBool(b: bool)
    | JNum(x: real)
    | JStr(s: string)
    | JArray(items: seq<Json>)
    | JObject(fields: map<string, Json>)

  /** What the HTTP layer can report for one GET. */
  datatype FetchOutcome =
    | Fetched(data: Json)          // 2xx status with a JSON body
    | TimedOut                     // requests.exceptions.Timeout
    | HttpFailure(error: string)   // raise_for_status: a 4xx or 5xx status
    | OtherFailure(error: string)  // connection errors, a body that is not JSON, ...

  /** The GET issued on a cache miss: full URL and parameters to outcome. */
  type Fetcher = (string, Option<Params>) -> FetchOutcome

  const ApiBaseUrl: string := "http://localhost:8000"
  const ApiTimeout: nat := 300

  // ---------------------------------------------------------------------------
  // Cache key
  // ---------------------------------------------------------------------------

  /** `(endpoint, tuple(sorted(params.items())) if params else None)`. */
  datatype CacheKey = CacheKey(endpoint: string, params: Option<Params>)

  function MakeCacheKey(endpoint: string, params: Option<Params>): (k: CacheKey)
    ensures k.endpoint == endpoint
    ensures params.None? || params == Some([]) ==> k.params.None?
    ensures params.Some? && params.value != [] ==>
              k.params.Some? && SortedBy(k.params.value, ParamName)
              && multiset(k.params.value) == multiset(params.value)
  {
    if params.None? || |params.value| == 0 then CacheKey(endpoint, None)
    else
      StableSortProps(params.value, ParamName);
      CacheKey(endpoint, Some(StableSort(params.value, ParamName)))
  }

  /** With unique names, at most one entry carries a given name. */
  lemma {:induction false} WithNameUnique(ps: Params, x: (string, ParamValue))
    requires DistinctKeys(ps) && x in ps
    ensures WithKey(ps, ParamName, x.0) == [x]
    decreases |ps|
  {
    assert ps == [ps[0]] + ps[1..];
    if ps[0] == x {
      forall y | y in ps[1..] ensures y.0 != x.0 {
        var j :| 0 <= j < |ps[1..]| && ps[1..][j] == y;
        assert ps[1 + j] == y;
      }
      WithKeyAbsent(ps[1..], x.0);
    } else {
      WithNameUnique(ps[1..], x);
    }
  }

  lemma WithKeyAbsent(ps: Params, name: string)
    requires forall y :: y in ps ==> y.0 != name
    ensures WithKey(ps, ParamName, name) == []
  {
  }

  /** Two calls whose parameters differ only in insertion order share a cache key. */
  lemma CacheKeyIgnoresOrder(endpoint: string, p: Params, q: Params)
    requires DistinctKeys(p) && DistinctKeys(q) && multiset(p) == multiset(q)
    ensures MakeCacheKey(endpoint, Some(p)) == MakeCacheKey(endpoint, Some(q))
  {
    if |p| == 0 || |q| == 0 {
      assert |multiset(p)| == |multiset(q)|;
    } else {
      StableSortProps(p, ParamName);
      StableSortProps(q, ParamName);
      forall name ensures WithKey(StableSort(p, ParamName), ParamName, name)
                          == WithKey(StableSort(q, ParamName), ParamName, name)
      {
        if x :| x in p && x.0 == name {
          assert x in multiset(q);
          WithNameUnique(p, x);
          WithNameUnique(q, x);
        } else {
          forall y | y in q ensures y.0 != name { assert y in multiset(p); }
          WithKeyAbsent(p, name);
          WithKeyAbsent(q, name);
        }
      }
      SortedUnique(StableSort(p, ParamName), StableSort(q, ParamName), ParamName);
    }
  }

  /** A request without parameters and one with an empty dictionary share a cache key. */
  lemma NoParamsKey(endpoint: string)
    ensures MakeCacheKey(endpoint, None) == MakeCacheKey(endpoint, Some([])) == CacheKey(endpoint, None)
  {
  }

  // ---------------------------------------------------------------------------
  // Outcome of a request
  // ---------------------------------------------------------------------------

  function DigitChar(d: nat): char
    requires d < 10
  {
    "0123456789"[d]
  }

  /** Decimal notation of a natural number. */
  function NatToString(n: nat): (s: string)
    ensures |s| > 0
    decreases n
  {
    if n < 10 then [DigitChar(n)] else NatToString(n / 10) + [DigitChar(n % 10)]
  }

  /** The message raised on a timeout; it names the limit in seconds. */
  function TimeoutMessage(timeout: nat): string
  {
    "TIMEOUT:" + " El procesamiento excedió el tiempo límite de " + NatToString(timeout) + "s"
  }

  /** The data of a successful fetch, or the message of the exception the client raises. */
  function Outcome(o: FetchOutcome, timeout: nat): (r: Result<Json, string>)
    ensures r.Ok? <==> o.Fetched?
    ensures o.Fetched? ==> r.value == o.data
    ensures o.TimedOut? ==> "TIMEOUT:" <= r.error && r.error == TimeoutMessage(timeout)
    ensures o.HttpFailure? ==> r.error == "HTTP Error: " + o.error
    ensures o.OtherFailure? ==> r.error == "Request Error: " + o.error
  {
    match o
    case Fetched(data) => Ok(data)
    case TimedOut =>
      var rest := " El procesamiento excedió el tiempo límite de " + NatToString(timeout) + "s";
      assert TimeoutMessage(timeout) == "TIMEOUT:" + rest;
      assert ("TIMEOUT:" + rest)[..8] == "TIMEOUT:";
      Err(TimeoutMessage(timeout))
    case HttpFailure(e) => Err("HTTP Error: " + e)
    case OtherFailure(e) => Err("Request Error: " + e)
  }

  /** The result of one `_make_request`, whether it fetched, and the cache afterwards. */
  datatype Answer = Answer(result: Result<Json, string>, fetched: bool, cache: map<CacheKey, Json>)

  function Request(cache: map<CacheKey, Json>, baseUrl: string, timeout: nat,
                   endpoint: string, params: Option<Params>, fetch: Fetcher): (a: Answer)
    ensures a.fetched <==> MakeCacheKey(endpoint, params) !in cache
    ensures forall k :: k in cache ==> k in a.cache && a.cache[k] == cache[k]
    ensures a.cache.Keys <= cache.Keys + {MakeCacheKey(endpoint, params)}
    ensures a.result.Ok? ==> MakeCacheKey(endpoint, params) in a.cache
                             && a.cache[MakeCacheKey(endpoint, params)] == a.result.value
  {
    var key := MakeCacheKey(endpoint, params);
    if key in cache then Answer(Ok(cache[key]), false, cache)
    else
      var r := Outcome(fetch(baseUrl + endpoint, params), timeout);
      Answer(r, true, if r.Ok? then cache[key := r.value] else cache)
  }

  /** A hit returns the stored value without fetching and leaves the cache alone. */
  lemma HitDoesNotFetch(cache: map<CacheKey, Json>, baseUrl: string, timeout: nat,
                        endpoint: string, params: Option<Params>, fetch: Fetcher)
    requires MakeCacheKey(endpoint, params) in cache
    ensures var a := Request(cache, baseUrl, timeout, endpoint, params, fetch);
            !a.fetched && a.result == Ok(cache[MakeCacheKey(endpoint, params)]) && a.cache == cache
  {
  }

  /**
   * A miss fetches once. Success stores the data under the key and changes no
   * other entry; failure raises the classified message and writes nothing.
   */
  lemma MissFetchesAndStores(cache: map<CacheKey, Json>, baseUrl: string, timeout: nat,
                             endpoint: string, params: Option<Params>, fetch: Fetcher)
    requires MakeCacheKey(endpoint, params) !in cache
    ensures var a := Request(cache, baseUrl, timeout, endpoint, params, fetch);
            var o := fetch(baseUrl + endpoint, params);
            a.fetched && a.result == Outcome(o, timeout)
            && (o.Fetched? ==> a.cache == cache[MakeCacheKey(endpoint, params) := o.data])
            && (!o.Fetched? ==> a.cache == cache && a.result.Err?)
    ensures var a := Request(cache, baseUrl, timeout, endpoint, params, fetch);
            forall k :: k != MakeCacheKey(endpoint, params) ==>
              (k in a.cache <==> k in cache) && (k in cache ==> a.cache[k] == cache[k])
  {
  }

  /** After a successful fetch, an immediately repeated identical call is a hit with the same data. */
  lemma RepeatAfterSuccessHits(cache: map<CacheKey, Json>, baseUrl: string, timeout: nat,
                               endpoint: string, params: Option<Params>, fetch: Fetcher, fetch2: Fetcher)
    requires Request(cache, baseUrl, timeout, endpoint, params, fetch).result.Ok?
    ensures var a := Request(cache, baseUrl, timeout, endpoint, params, fetch);
            var b := Request(a.cache, baseUrl, timeout, endpoint, params, fetch2);
            !b.fetched && b.result == a.result && b.cache == a.cache
  {
  }

  /** A reordered parameter dictionary hits the entry the first order stored. */
  lemma ReorderedParamsHit(cache: map<CacheKey, Json>, baseUrl: string, timeout: nat,
                           endpoint: string, p: Params, q: Params, fetch: Fetcher, fetch2: Fetcher)
    requires DistinctKeys(p) && DistinctKeys(q) && multiset(p) == multiset(q)
    requires Request(cache, baseUrl, timeout, endpoint, Some(p), fetch).result.Ok?
    ensures var a := Request(cache, baseUrl, timeout, endpoint, Some(p), fetch);
            var b := Request(a.cache, baseUrl, timeout, endpoint, Some(q), fetch2);
            !b.fetched && b.result == a.result
  {
    CacheKeyIgnoresOrder(endpoint, p, q);
  }

  /** On an emptied cache every request is a miss. */
  lemma EmptyCacheMisses(baseUrl: string, timeout: nat, endpoint: string, params: Option<Params>, fetch: Fetcher)
    ensures Request(map[], baseUrl, timeout, endpoint, params, fetch).fetched
  {
  }

  // ---------------------------------------------------------------------------
  // Parameter building of get_latest_data and get_risk_map
  // ---------------------------------------------------------------------------

  /** `cloud_coverage` always; then `days` if given, else `months` if given. */
  function PeriodParams(cloudCoverage: int, days: Option<int>, months: Option<int>): (p: Params)
    ensures DistinctKeys(p)
    ensures |p| >= 1 && p[0] == ("cloud_coverage", IntParam(cloudCoverage))
    ensures days.Some? ==> p == [p[0], ("days", IntParam(days.value))]
    ensures days.None? && months.Some? ==> p == [p[0], ("months", IntParam(months.value))]
    ensures days.None? && months.None? ==> p == [p[0]]
  {
    var params := [("cloud_coverage", IntParam(cloudCoverage))];
    if days.Some? then params + [("days", IntParam(days.value))]
    else if months.Some? then params + [("months", IntParam(months.value))]
    else params
  }

  // ---------------------------------------------------------------------------
  // The client
  // ---------------------------------------------------------------------------

  class APIClient {
    const baseUrl: string
    const timeout: nat
    /** The session cache of responses (Streamlit's `_api_cache`, or `_local_cache`). */
    var cache: map<CacheKey, Json>

    constructor (baseUrl: string)
      ensures this.baseUrl == baseUrl && timeout == ApiTimeout && cache == map[]
    {
      this.baseUrl := baseUrl;
      timeout := ApiTimeout;
      cache := map[];
    }

    method MakeRequest(endpoint: string, params: Option<Params>, fetch: Fetcher)
      returns (r: Result<Json, string>, fetched: bool)
      requires params.Some? ==> DistinctKeys(params.value)
      modifies this
      ensures Answer(r, fetched, cache) == Request(old(cache), baseUrl, timeout, endpoint, params, fetch)
    {
      var cacheKey := MakeCacheKey(endpoint, params);
      if cacheKey in cache {
        return Ok(cache[cacheKey]), false;
      }
      fetched := true;
      var outcome := fetch(baseUrl + endpoint, params);
      match outcome {
        case Fetched(data) =>
          cache := cache[cacheKey := data];
          r := Ok(data);
        case TimedOut =>
          r := Err(TimeoutMessage(timeout));
        case HttpFailure(e) =>
          r := Err("HTTP Error: " + e);
        case OtherFailure(e) =>
          r := Err("Request Error: " + e);
      }
    }

    method GetLatestData(cloudCoverage: int, days: Option<int>, months: Option<int>, fetch: Fetcher)
      returns (r: Result<Json, string>, fetched: bool)
      modifies this
      ensures Answer(r, fetched, cache)
              == Request(old(cache), baseUrl, timeout, "/latest", Some(PeriodParams(cloudCoverage, days, months)), fetch)
    {
      var params := PeriodParams(cloudCoverage, days, months);
      r, fetched := MakeRequest("/latest", Some(params), fetch);
    }

    method GetRiskMap(cloudCoverage: int, days: Option<int>, months: Option<int>, fetch: Fetcher)
      returns (r: Result<Json, string>, fetched: bool)
      modifies this
      ensures Answer(r, fetched, cache)
              == Request(old(cache), baseUrl, timeout, "/risk-map", Some(PeriodParams(cloudCoverage, days, months)), fetch)
    {
      var params := PeriodParams(cloudCoverage, days, months);
      r, fetched := MakeRequest("/risk-map", Some(params), fetch);
    }

    method ClearCache()
      modifies this
      ensures cache == map[]
      ensures forall endpoint, params, fetch ::
                Request(cache, baseUrl, timeout, endpoint, params, fetch).fetched
    {
      cache := map[];
    }
  }

  /** A client run: a successful fetch, a hit, a clear, and a miss again. */
  method CacheScenario(fetch: Fetcher)
    requires fetch(ApiBaseUrl + "/latest", Some(PeriodParams(20, Some(7), None))).Fetched?
  {
    var client := new APIClient(ApiBaseUrl);
    var r1, f1 := client.GetLatestData(20, Some(7), None, fetch);
    assert f1 && r1.Ok?;
    var r2, f2 := client.GetLatestData(20, Some(7), None, fetch);
    assert !f2 && r2 == r1;
    client.ClearCache();
    var r3, f3 := client.GetLatestData(20, Some(7), None, fetch);
    assert f3;
  }
}
