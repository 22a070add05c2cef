/**
 * The catalog cache of src/context/SatelliteContext.tsx: the SatelliteProvider
 * state, `makeCacheKey`, `fetchSatellites` with its cache, abort handle and
 * loading/error flags, `refreshSatellites`, and the 250 ms debounce effect on
 * the observer location.
 *
 * `fetchSatellites` is async. Its synchronous part, up to the `await`, is
 * FetchSatellites. What runs once the request settles (the try/catch and the
 * finally) is Complete. Time is the `now` argument in milliseconds.
 */
module SatelliteContext {
  import opened Wrappers
  import opened Fetch
  import opened N2yoApi

  const CacheTtlMs: int := 2 * 60 * 1000
  const DebounceMs: int := 250
  const DefaultFailureMessage: string := "Failed to fetch satellites"
  const InitialLocation: ObserverLocation := ObserverLocation(28.6139, 77.2090, 0.0)

  // ---------------------------------------------------------------- the cache key

  function Abs(x: real): real {
    if x < 0.0 then -x else x
  }

  /** `Math.round`: the nearest integer, halves rounded up. */
  function MathRound(x: real): (r: int)
    ensures r as real - 0.5 <= x < r as real + 0.5
  {
    (x + 0.5).Floor
  }

  /** No integer is nearer to x than MathRound(x). */
  lemma RoundIsNearest(x: real, k: int)
    ensures Abs(x - MathRound(x) as real) <= Abs(x - k as real)
  {
    var r := MathRound(x);
    if k < r {
      assert k as real <= r as real - 1.0;
    } else if k > r {
      assert k as real >= r as real + 1.0;
    }
  }

  /**
   * What `x.toFixed(4)` distinguishes: the sign ("-" for a negative x) and the
   * magnitude rounded to four decimals, halves away from zero.
   */
  datatype Fixed4 = Fixed4(negative: bool, scaled: int)

  function ToFixed4(x: real): (f: Fixed4)
    ensures f.negative <==> x < 0.0
    ensures f.scaled >= 0
    ensures f.scaled as real - 0.5 <= Abs(x) * 10000.0 < f.scaled as real + 0.5
  {
    Fixed4(x < 0.0, MathRound(Abs(x) * 10000.0))
  }

  /** `${lat.toFixed(4)}_${lng.toFixed(4)}_${Math.round(alt)}`, kept as its three parts. */
  datatype CacheKey = CacheKey(lat: Fixed4, lng: Fixed4, alt: int)

  function MakeCacheKey(loc: ObserverLocation): CacheKey {
    CacheKey(ToFixed4(loc.lat), ToFixed4(loc.lng), MathRound(loc.alt))
  }

  /** Altitudes within the same metre share a key when lat and lng agree. */
  lemma NearbyAltitudesShareKey(a: ObserverLocation, b: ObserverLocation, m: int)
    requires a.lat == b.lat && a.lng == b.lng
    requires m as real - 0.5 <= a.alt < m as real + 0.5
    requires m as real - 0.5 <= b.alt < m as real + 0.5
    ensures MakeCacheKey(a) == MakeCacheKey(b)
  {
    assert MathRound(a.alt) == m by {
      assert MathRound(a.alt) as real - 0.5 <= a.alt < MathRound(a.alt) as real + 0.5;
    }
    assert MathRound(b.alt) == m by {
      assert MathRound(b.alt) as real - 0.5 <= b.alt < MathRound(b.alt) as real + 0.5;
    }
  }

  /** Altitudes a metre or more apart never share a key. */
  lemma DistantAltitudesDiffer(a: ObserverLocation, b: ObserverLocation)
    requires b.alt >= a.alt + 1.0
    ensures MakeCacheKey(a) != MakeCacheKey(b)
  {
    assert MathRound(b.alt) > MathRound(a.alt);
  }

  /** Non-negative latitudes a full unit of the fourth decimal apart never share a key. */
  lemma DistantLatitudesDiffer(a: ObserverLocation, b: ObserverLocation)
    requires 0.0 <= a.lat && a.lat + 0.0001 <= b.lat
    ensures MakeCacheKey(a) != MakeCacheKey(b)
  {
    assert Abs(b.lat) * 10000.0 >= Abs(a.lat) * 10000.0 + 1.0;
    assert ToFixed4(b.lat).scaled > ToFixed4(a.lat).scaled;
  }

  /** A latitude just below 0 and one just above print differently ("-0.0000" and "0.0000"). */
  lemma SignSplitsKeys(a: ObserverLocation, b: ObserverLocation)
    requires a.lat < 0.0 <= b.lat
    ensures MakeCacheKey(a) != MakeCacheKey(b)
  {
  }

  // ---------------------------------------------------------------- the cache rule

  datatype CacheEntry = CacheEntry(ts: int, data: seq<SatelliteSummary>)

  /** The request an outstanding `fetchSatellites` call waits on, and the key it will write. */
  datatype CatalogRequest = CatalogRequest(key: CacheKey, query: seq<QueryParam>)

  /** The pending `setTimeout` of the location effect. */
  datatype DebounceTimer = DebounceTimer(dueAt: int, loc: ObserverLocation)

  /** `!force && cached && (Date.now() - cached.ts) < CACHE_TTL_MS`. */
  predicate CacheHit(cache: map<CacheKey, CacheEntry>, key: CacheKey, force: bool, now: int) {
    !force && key in cache && now - cache[key].ts < CacheTtlMs
  }

  /** A fresh entry answers a normal call until its age reaches 120000 ms; a forced call never. */
  lemma CacheHitWindow(cache: map<CacheKey, CacheEntry>, key: CacheKey, now: int)
    requires key in cache
    ensures CacheHit(cache, key, false, now) <==> now < cache[key].ts + 120000
    ensures !CacheHit(cache, key, true, now)
  {
  }

  /** `error?.message || "Failed to fetch satellites"`. */
  function FailureMessage(e: Exception): (msg: string)
    ensures msg != ""
    ensures e.message != "" ==> msg == e.message
    ensures e.message == "" ==> msg == DefaultFailureMessage
  {
    if e.message != "" then e.message else DefaultFailureMessage
  }

  /** A response that is not ok surfaces the proxy's own message, never the generic one. */
  lemma ProxyFailureMessageShown(status: nat, body: ResponseBody)
    ensures var r := GetSatellitesAbove(Response(false, status, body));
            r.Failure? && FailureMessage(r.error) == ProxyErrorMessage(status, body)
  {
  }

  // ---------------------------------------------------------------- the provider

  class SatelliteProvider {
    var observerLocation: ObserverLocation
    var satellitesAbove: seq<SatelliteSummary>
    var loadingSatellites: bool
    var satellitesError: Option<string>
    var lastUpdated: Option<int>
    /** `cacheRef.current`. */
    var cache: map<CacheKey, CacheEntry>
    /** `abortRef.current`: the controller it holds, or null. */
    var abortHandle: Option<Token>
    /** The controllers on which `abort()` has been called. */
    var aborted: set<Token>
    /** The `fetchSatellites` calls suspended at their `await`. */
    var inFlight: map<Token, CatalogRequest>
    /** The next controller `new AbortController()` creates. */
    var nextToken: Token
    /** The location effect's pending timer, until it fires or is cleared. */
    var debounce: Option<DebounceTimer>

    ghost predicate Valid()
      reads this
    {
      // the handle holds the newest controller, live and not aborted
      && Controllers(inFlight, aborted, abortHandle, nextToken)
      && (abortHandle.Some? ==> loadingSatellites)
      // the spinner shows only while the newest request is outstanding
      && (loadingSatellites ==> nextToken >= 1 && nextToken - 1 in inFlight)
      // the timer was set by the effect run for the current location
      && (debounce.Some? ==> debounce.value.loc == observerLocation)
    }

    /** Mounting: initial state, and the location effect schedules the first load. */
    constructor (now: int)
      ensures Valid()
      ensures observerLocation == InitialLocation && satellitesAbove == []
      ensures !loadingSatellites && satellitesError == None && lastUpdated == None
      ensures cache == map[] && abortHandle == None && aborted == {}
      ensures inFlight == map[] && nextToken == 0
      ensures debounce == Some(DebounceTimer(now + DebounceMs, InitialLocation))
    {
      observerLocation := InitialLocation;
      satellitesAbove := [];
      loadingSatellites := false;
      satellitesError := None;
      lastUpdated := None;
      cache := map[];
      abortHandle := None;
      aborted := {};
      inFlight := map[];
      nextToken := 0;
      debounce := Some(DebounceTimer(now + DebounceMs, InitialLocation));
    }

    /** The state `fetchSatellites(loc, force)` leaves when it reaches its `await` or returns. */
    twostate predicate Fetched(loc: ObserverLocation, force: bool, now: int, new token: Option<Token>)
      reads this
    {
      var key := MakeCacheKey(loc);
      // whatever happens next, the outstanding request was aborted first
      && aborted == old(aborted) + OptionSet(old(abortHandle))
      && abortHandle == token
      && if CacheHit(old(cache), key, force, now) then
           && token == None
           && satellitesAbove == old(cache)[key].data
           && satellitesError == None
           && lastUpdated == Some(old(cache)[key].ts)
           && loadingSatellites == old(loadingSatellites)
           && inFlight == old(inFlight) && nextToken == old(nextToken)
         else
           && token == Some(old(nextToken))
           && old(nextToken) !in old(inFlight)
           && inFlight == old(inFlight)[old(nextToken) := CatalogRequest(key, AboveQuery(loc, 70.0))]
           && nextToken == old(nextToken) + 1
           && loadingSatellites && satellitesError == None
           && satellitesAbove == old(satellitesAbove) && lastUpdated == old(lastUpdated)
    }

    /** Abort the controller in the handle, if there is one, and clear the handle. */
    method AbortOutstanding()
      requires Valid()
      modifies this`abortHandle, this`aborted
      ensures Valid()
      ensures abortHandle == None
      ensures aborted == old(aborted) + OptionSet(old(abortHandle))
    {
      if abortHandle.Some? {
        aborted := aborted + {abortHandle.value};
        abortHandle := None;
      }
    }

    /**
     * `fetchSatellites(loc, force)` up to its `await`: abort, then either answer
     * from a fresh cache entry or issue a request and raise the loading flag.
     */
    method FetchSatellites(loc: ObserverLocation, force: bool, now: int) returns (token: Option<Token>)
      requires Valid()
      modifies this`abortHandle, this`aborted, this`satellitesAbove, this`satellitesError
      modifies this`lastUpdated, this`loadingSatellites, this`inFlight, this`nextToken
      ensures Valid()
      ensures Fetched(loc, force, now, token)
    {
      AbortOutstanding();
      var key := MakeCacheKey(loc);
      if CacheHit(cache, key, force, now) {
        var cached := cache[key];
        satellitesAbove := cached.data;
        satellitesError := None;
        lastUpdated := Some(cached.ts);
        token := None;
        return;
      }
      IssueKeepsControllers(inFlight, aborted, abortHandle, nextToken, CatalogRequest(key, AboveQuery(loc, 70.0)));
      var controller := nextToken;
      nextToken := nextToken + 1;
      abortHandle := Some(controller);
      loadingSatellites := true;
      satellitesError := None;
      inFlight := inFlight[controller := CatalogRequest(key, AboveQuery(loc, 70.0))];
      token := Some(controller);
    }

    /**
     * The rest of `fetchSatellites` once request `token` settles with the
     * exchange `exchange`, of which `getSatellitesAbove` makes the list or the
     * exception. The `catch` returns early only for an exception named
     * AbortError, so that alone writes nothing; a success replaces the list
     * and writes the cache; any other failure sets the error, whether or not
     * the request had been aborted. The `finally` runs in every case: it lowers
     * the loading flag and clears the handle, even when the handle holds a
     * newer request's controller.
     */
    method Complete(token: Token, exchange: FetchOutcome, now: int)
      requires Valid()
      requires token in inFlight
      // the runtime: a request aborted before it settled settles by that abort
      requires token in aborted ==> AbortedExchange(exchange)
      modifies this`satellitesAbove, this`lastUpdated, this`cache, this`satellitesError
      modifies this`loadingSatellites, this`abortHandle, this`inFlight
      ensures Valid()
      ensures inFlight == old(inFlight) - {token}
      ensures !loadingSatellites && abortHandle == None
      ensures var r := GetSatellitesAbove(exchange);
              Cancelled(r) ==>
                && satellitesAbove == old(satellitesAbove) && lastUpdated == old(lastUpdated)
                && cache == old(cache) && satellitesError == old(satellitesError)
      ensures var r := GetSatellitesAbove(exchange);
              r.Success? ==>
                && satellitesAbove == r.value && lastUpdated == Some(now)
                && cache == old(cache)[old(inFlight)[token].key := CacheEntry(now, r.value)]
                && satellitesError == old(satellitesError)
      ensures var r := GetSatellitesAbove(exchange);
              r.Failure? && !Cancelled(r) ==>
                && satellitesError == Some(FailureMessage(r.error))
                && satellitesAbove == old(satellitesAbove) && lastUpdated == old(lastUpdated)
                && cache == old(cache)
      // an aborted request never writes the list or the cache...
      ensures token in old(aborted) ==>
                satellitesAbove == old(satellitesAbove) && lastUpdated == old(lastUpdated) && cache == old(cache)
      // ...but one aborted while reading an error body still shows "Proxy error <status>"
      ensures token in old(aborted) && exchange.Response? && !exchange.ok ==>
                satellitesError == Some("Proxy error " + Decimal(exchange.status))
      ensures token in old(aborted) && !(exchange.Response? && !exchange.ok) ==>
                satellitesError == old(satellitesError)
    {
      if token in aborted {
        AbortedRequestOutcome(exchange);
      }
      SettleKeepsControllers(inFlight, aborted, abortHandle, nextToken, token);
      var result := GetSatellitesAbove(exchange);
      var request := inFlight[token];
      inFlight := inFlight - {token};
      if !Cancelled(result) {
        match result
        case Success(list) =>
          satellitesAbove := list;
          lastUpdated := Some(now);
          cache := cache[request.key := CacheEntry(now, list)];
        case Failure(e) =>
          satellitesError := Some(FailureMessage(e));
      }
      loadingSatellites := false;
      abortHandle := None;
    }

    /** `refreshSatellites`: a forced fetch for the current location, never served from the cache. */
    method RefreshSatellites(now: int) returns (token: Option<Token>)
      requires Valid()
      modifies this`abortHandle, this`aborted, this`satellitesAbove, this`satellitesError
      modifies this`lastUpdated, this`loadingSatellites, this`inFlight, this`nextToken
      ensures Valid()
      ensures Fetched(observerLocation, true, now, token)
      ensures token == Some(old(nextToken)) && loadingSatellites
    {
      token := FetchSatellites(observerLocation, true, now);
    }

    /**
     * `setObserverLocation(loc)`. The effect is keyed on the three values: an
     * equal location changes nothing; a different one runs the cleanup (clear
     * the timer, abort the outstanding request) and schedules a new timer.
     */
    method SetObserverLocation(loc: ObserverLocation, now: int)
      requires Valid()
      modifies this`observerLocation, this`debounce, this`abortHandle, this`aborted
      ensures Valid()
      ensures observerLocation == loc
      ensures loc == old(observerLocation) ==>
                debounce == old(debounce) && abortHandle == old(abortHandle) && aborted == old(aborted)
      ensures loc != old(observerLocation) ==>
                && debounce == Some(DebounceTimer(now + DebounceMs, loc))
                && abortHandle == None && aborted == old(aborted) + OptionSet(old(abortHandle))
    {
      if loc != observerLocation {
        debounce := None;
        AbortOutstanding();
        observerLocation := loc;
        debounce := Some(DebounceTimer(now + DebounceMs, loc));
      }
    }

    /** The debounce timer fires: `fetchSatellites(observerLocation, false)`. */
    method DebounceElapsed(now: int) returns (token: Option<Token>)
      requires Valid()
      requires debounce.Some? && now >= debounce.value.dueAt
      modifies this`abortHandle, this`aborted, this`satellitesAbove, this`satellitesError
      modifies this`lastUpdated, this`loadingSatellites, this`inFlight, this`nextToken, this`debounce
      ensures Valid()
      ensures debounce == None
      ensures Fetched(old(observerLocation), false, now, token)
    {
      token := FetchSatellites(observerLocation, false, now);
      debounce := None;
    }
  }
}
