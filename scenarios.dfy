/**
 * Event sequences of the components, driven through the models and
 * concluded from their contracts alone: the debounce, the cache window, a
 * proxy error with its retry, the error an aborted request still reports,
 * the stale response that the clearing of the abort handle lets through, and
 * the trail animation.
 */
module Scenarios {
  import opened Wrappers
  import opened Fetch
  import opened N2yoApi
  import opened SatelliteContext
  import SatelliteTracking
  import MapView

  /** An ok JSON response whose `above` is the array `raw`: it yields the normalised list. */
  function OkAbove(raw: seq<RawSatellite>): (r: FetchOutcome)
    ensures GetSatellitesAbove(r) == Success(NormalizeList(raw))
  {
    Response(true, 200, Json(None, None, AboveArray(raw)))
  }

  /** The exception an aborted signal's `abort()` makes. */
  const AbortException: Exception := Exception(AbortErrorName, "signal is aborted without reason")

  /**
   * Three location changes 100 ms apart issue no request until the timer of
   * the last one fires, and then exactly one, for the last location.
   */
  method DebounceBurst(a: ObserverLocation, b: ObserverLocation, c: ObserverLocation)
    returns (beforeTimer: map<Token, CatalogRequest>, afterTimer: map<Token, CatalogRequest>)
    ensures beforeTimer == map[]
    ensures afterTimer == map[0 := CatalogRequest(MakeCacheKey(c), AboveQuery(c, 70.0))]
  {
    var p := new SatelliteProvider(0);
    p.SetObserverLocation(a, 100);
    p.SetObserverLocation(b, 200);
    p.SetObserverLocation(c, 300);
    beforeTimer := p.inFlight;
    var token := p.DebounceElapsed(300 + DebounceMs);
    afterTimer := p.inFlight;
  }

  /**
   * After a load completes at 1000 ms, asking again at 120999 ms is answered
   * from the cache, at 121000 ms it is a new request, and a refresh is always
   * a new request.
   */
  method CacheWindow(loc: ObserverLocation, raw: seq<RawSatellite>)
    returns (within: Option<Token>, shown: seq<SatelliteSummary>, expired: Option<Token>, refreshed: Option<Token>)
    ensures within == None && shown == NormalizeList(raw)
    ensures expired == Some(1) && refreshed == Some(2)
  {
    var key := MakeCacheKey(loc);
    var p := new SatelliteProvider(0);
    var first := p.FetchSatellites(loc, false, 0);
    assert first == Some(0) && p.inFlight[0].key == key && p.aborted == {};
    p.Complete(first.value, OkAbove(raw), 1000);
    assert p.cache == map[key := CacheEntry(1000, NormalizeList(raw))];
    within := p.FetchSatellites(loc, false, 1000 + CacheTtlMs - 1);
    shown := p.satellitesAbove;
    assert p.nextToken == 1;
    expired := p.FetchSatellites(loc, false, 1000 + CacheTtlMs);
    refreshed := p.RefreshSatellites(1000 + CacheTtlMs);
  }

  /**
   * A 500 whose body carries an error shows that error and stops the spinner;
   * the refresh clears the error and shows the spinner again; its success
   * shows the list.
   */
  method ProxyErrorThenRetry(raw: seq<RawSatellite>)
    returns (failedError: Option<string>, failedLoading: bool,
             retryError: Option<string>, retryLoading: bool, finalList: seq<SatelliteSummary>)
    ensures failedError == Some("upstream down") && !failedLoading
    ensures retryError == None && retryLoading
    ensures finalList == NormalizeList(raw)
  {
    var p := new SatelliteProvider(0);
    var first := p.DebounceElapsed(DebounceMs);
    var failed := Response(false, 500, Json(Some("upstream down"), None, AboveNotArray));
    ProxyFailureIsNotAbort(500, failed.body);
    p.Complete(first.value, failed, 400);
    failedError, failedLoading := p.satellitesError, p.loadingSatellites;
    var retry := p.RefreshSatellites(500);
    retryError, retryLoading := p.satellitesError, p.loadingSatellites;
    p.Complete(retry.value, OkAbove(raw), 700);
    finalList := p.satellitesAbove;
  }

  /**
   * A request aborted by a refresh while its error body is being read still
   * reports "Proxy error 500": the AbortError of the body read is swallowed,
   * so the caller's `catch` sees no cancellation. The refresh's own success
   * then shows its list and leaves that error in place.
   */
  method AbortedProxyErrorSticks(raw: seq<RawSatellite>)
    returns (errorAfterAbort: Option<string>, errorAfterSuccess: Option<string>, shown: seq<SatelliteSummary>)
    // "Proxy error 500", by Decimal500
    ensures errorAfterAbort == Some("Proxy error " + Decimal(500))
    ensures errorAfterSuccess == Some("Proxy error " + Decimal(500))
    ensures shown == NormalizeList(raw)
  {
    var p := new SatelliteProvider(0);
    var r0 := p.DebounceElapsed(DebounceMs);      // request 0
    var r1 := p.RefreshSatellites(300);           // aborts 0, issues 1
    p.Complete(0, Response(false, 500, Interrupted(AbortException)), 400);
    errorAfterAbort := p.satellitesError;
    p.Complete(1, OkAbove(raw), 600);
    errorAfterSuccess, shown := p.satellitesError, p.satellitesAbove;
  }

  /**
   * The `finally` of an aborted request clears the handle that holds its
   * successor. The spinner then stops while the successor is still out, the
   * next refresh cannot abort the successor, and when the successor answers
   * last its older list replaces the newer one.
   */
  method StaleCatalogOverwrite(older: seq<RawSatellite>, newer: seq<RawSatellite>, abortedExchange: FetchOutcome)
    returns (loadingWhileOut: bool, successorAborted: bool, shown: seq<SatelliteSummary>)
    requires AbortedExchange(abortedExchange)
    ensures !loadingWhileOut
    ensures !successorAborted
    ensures shown == NormalizeList(older)
  {
    var p := new SatelliteProvider(0);
    var r0 := p.DebounceElapsed(DebounceMs);      // request 0
    var r1 := p.RefreshSatellites(300);           // aborts 0, issues 1
    p.Complete(0, abortedExchange, 400);          // 0 settles: no list, clears the handle
    loadingWhileOut := p.loadingSatellites;
    var r2 := p.RefreshSatellites(500);           // the handle is empty: 1 is not aborted
    successorAborted := 1 in p.aborted;
    p.Complete(2, OkAbove(newer), 600);
    p.Complete(1, OkAbove(older), 700);
    shown := p.satellitesAbove;
  }

  /**
   * The same interleaving in the position tracker: a request that settles
   * after its replacement clears the handle, so the next interval does not
   * abort the replacement, whose late trail then wins.
   */
  method StaleTrailOverwrite(satId: int, observer: ObserverLocation,
                             older: seq<PositionPoint>, newer: seq<PositionPoint>,
                             reason: Exception)
    returns (successorAborted: bool, trail: seq<PositionPoint>)
    requires satId != 0
    ensures !successorAborted
    ensures trail == SatelliteTracking.LastN(older, SatelliteTracking.MaxTrailPoints)
  {
    var t := new SatelliteTracking.SatelliteTracker(Some(satId), Some(observer), false, 0);   // request 0
    var r1 := t.IntervalFires(8000);              // aborts 0, issues 1
    t.Complete(0, Failure(reason));               // clears the handle
    var r2 := t.IntervalFires(16000);             // the handle is empty: 1 is not aborted, issues 2
    successorAborted := 1 in t.aborted;
    t.Complete(2, Success(newer));
    t.Complete(1, Success(older));
    trail := t.positions;
  }

  function Sample(k: int): PositionPoint {
    PositionPoint(5.0, 10.0 + 0.1 * k as real, 400.0, k)
  }

  /**
   * Six samples one second apart: segments last 1000 ms, and 2500 ms after the
   * first frame the marker is midway between the third and fourth samples.
   */
  method AnimateSamples() returns (marker: Option<MapView.LatLng>, index: nat)
    ensures marker == Some(MapView.LatLng(5.0, 10.25)) && index == 2
  {
    var trail := [Sample(0), Sample(1), Sample(2), Sample(3), Sample(4), Sample(5)];
    var anim := new MapView.TrailAnimator();
    anim.Restart(trail, true);
    anim.Tick(0);       // step: segment 0 from 0 ms
    anim.Tick(1000);    // t = 1: i = 1
    anim.Tick(1000);    // step: segment 1 from 1000 ms
    anim.Tick(2000);    // t = 1: i = 2
    anim.Tick(2000);    // step: segment 2 from 2000 ms
    anim.Tick(2500);    // t = 0.5
    marker, index := anim.marker, anim.i;
  }

  /** With one sample the marker holds on it, frame after frame. */
  method HoldSingleSample(p: PositionPoint, frames: nat) returns (marker: Option<MapView.LatLng>)
    ensures marker == Some(MapView.At(p))
  {
    var anim := new MapView.TrailAnimator();
    anim.Restart([p], true);
    var k := 0;
    while k < frames
      invariant anim.Valid() && anim.running && anim.trail == [p]
      invariant anim.i == 0 && anim.phase == MapView.AwaitStep
      invariant anim.marker == Some(MapView.At(p))
    {
      anim.Tick(k);
      k := k + 1;
    }
    marker := anim.marker;
  }

  /** In the map view, a successful empty answer clears the trail and stops the animation. */
  method EmptyAnswerStopsAnimation(satId: int, observer: ObserverLocation)
    returns (trail: seq<PositionPoint>, animating: bool)
    ensures trail == [] && !animating
  {
    var m := new MapView.MapViewState(Some(satId), observer, 0);
    m.Complete(0, Success([]));
    trail, animating := m.positions, m.anim.running;
  }
}
