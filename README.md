# Satellite tracker client core, modelled in Dafny

This project models the client-side core of a satellite tracking web application. The pieces are:

- **the catalog cache** (`SatelliteProvider` in src/context/SatelliteContext.tsx). It fetches the list of satellites above the observer, after a 250 ms debounce on location changes. Answers are cached under a key quantised to 4 decimals of latitude and longitude and whole metres of altitude, for 120 s. Each new request aborts the outstanding one.
- **the service layer** (src/services/n2yoAPI.ts). It builds the `/api/above` query, derives the message thrown for a failed proxy response, and normalises raw entries so that null and undefined become "absent".
- **the live position tracker** (src/hooks/useSatelliteTracking.ts). It polls every 8000 ms while a target, an observer and a visible tab exist, and keeps the last 30 samples.
- **the map view** (src/components/MapView.tsx). It has its own 3000 ms poller over untruncated trails, plus the trail animator. The animator interpolates a marker between consecutive samples, one segment per `max(300, Δt·1000)` ms, and holds on the last sample.
- **the catalog pagination** (src/components/SatelliteList.tsx).
- **the observer location form** (src/components/ObserverLocationForm.tsx).

Files and modules:

| file | module | models |
|---|---|---|
| wrappers.dfy | `Wrappers` | Option and Result |
| numeric.dfy | `Numeric` | `Math.min` and `Math.max` on integers |
| fetch.dfy | `Fetch` | request tokens (one per `AbortController`), exceptions, when a settled request counts as cancelled, and the controller bookkeeping every component keeps |
| n2yo_api.dfy | `N2yoApi` | src/services/n2yoAPI.ts |
| satellite_context.dfy | `SatelliteContext` | src/context/SatelliteContext.tsx |
| satellite_tracking.dfy | `SatelliteTracking` | src/hooks/useSatelliteTracking.ts |
| map_view.dfy | `MapView` | src/components/MapView.tsx, without rendering |
| satellite_list.dfy | `SatelliteList` | src/components/SatelliteList.tsx |
| observer_location_form.dfy | `ObserverLocationForm` | src/components/ObserverLocationForm.tsx |
| scenarios.dfy | `Scenarios` | event sequences driven through the models above |

How the asynchronous code is represented:

- **Components are classes.** The provider, the tracker, the map view's poller and the animator each get fields for their React state and refs. Every event is a method: a location change, a timer firing, a visibility change, an animation frame.
- **A fetch is two events.** Starting one aborts the previous controller if the source does so. It then records a fresh token in `inFlight` and puts it in the abort handle. `Complete` runs the code after the `await`, including `catch` and `finally`. The provider's `Complete` receives the raw HTTP exchange and runs `getSatellitesAbove` on it. The trackers' `Complete` receives the trajectory outcome.
- **Cancellation.** As in every `catch`, an outcome counts as cancelled exactly when it is an exception named "AbortError" (`Fetch.Cancelled`). The model also records which controllers were aborted. For the provider it uses that record only to limit what an aborted request can settle as: `fetch` rejected with an AbortError, or a body read cut off by one (`N2yoApi.AbortedExchange`).
- **Time is a parameter.** `Date.now()` is the parameter `now` of each event.

Behaviour the code has that its names and comments do not suggest:

- **Superseded requests still write state.** Each `finally` clears the abort handle even when the handle already holds a newer request's controller. The next request then cannot abort that newer one, and a superseded request can still write its result. In the provider, that `finally` also lowers the loading flag while the newer request is still out. `Scenarios.StaleCatalogOverwrite` and `Scenarios.StaleTrailOverwrite` derive exactly this from the contracts.
- **An aborted request can still report an error.** If a request is aborted while the error body of a non-ok response is being read, the empty `catch` at src/services/n2yoAPI.ts:35-39 swallows the AbortError. The caller then receives the Error "Proxy error <status>", which is not an AbortError, so the provider shows it. Its replacement's own success does not clear it. `N2yoApi.AbortedRequestOutcome` and `SatelliteContext.SatelliteProvider.Complete` state this, and `Scenarios.AbortedProxyErrorSticks` derives it from the contracts.
- **The map view keeps every sample.** It does not truncate to 30.
- **The altitude message is not enforced.** The form's altitude message names a range, but no range is checked.
- **The page resets only when the list's length changes.** The comment at src/components/SatelliteList.tsx:21 announces a reset to the first page whenever the list changes. The effect at lines 22-24 is keyed on `satellitesAbove.length` alone, so a refresh that returns as many entries as before keeps the page. `SatelliteList.AfterListChange` states this.

## Model

| member | source | states |
|---|---|---|
| Numeric.Min | src/components/SatelliteList.tsx:30 | `Math.min` is one of its arguments and no greater than either |
| Numeric.Max | src/components/SatelliteList.tsx:27 | `Math.max` is one of its arguments and no less than either |
| Fetch.Cancelled | src/context/SatelliteContext.tsx:67 | an outcome is taken for a cancellation exactly when it is an exception named "AbortError", whatever became of its controller; useSatelliteTracking.ts:58 and MapView.tsx:84 apply the same test |
| Fetch.Controllers | src/context/SatelliteContext.tsx:41-57 | every in-flight and every aborted controller was issued already, and a held handle names the newest controller, in flight and not aborted |
| Fetch.IssueKeepsControllers | src/context/SatelliteContext.tsx:56-57 | a fresh controller is never one already in flight; issuing it keeps the bookkeeping and makes it the held one, the previous one counted as aborted |
| Fetch.SettleKeepsControllers | src/context/SatelliteContext.tsx:73-76 | a settling request leaving the in-flight set, with the handle cleared by the `finally`, keeps the bookkeeping |
| N2yoApi.AboveQuery | src/services/n2yoAPI.ts:21-27 | the query carries exactly four parameters: lat, lng, alt of the location and the radius |
| N2yoApi.DefaultQueryRadius | src/services/n2yoAPI.ts:23 | without an explicit radius the query asks for 70 |
| N2yoApi.Decimal | src/services/n2yoAPI.ts:40 | the status rendering is a non-empty digit string without a leading zero; 0 is written "0" |
| N2yoApi.Decimal500 | src/services/n2yoAPI.ts:40 | status 500 is written "500" |
| N2yoApi.DecimalRoundTrip | src/services/n2yoAPI.ts:40 | the decimal rendering of a status reads back as that status, so distinct statuses give distinct messages |
| N2yoApi.TruthyString | src/services/n2yoAPI.ts:40 | a body field takes part in the `||` chain exactly when it is present and not the empty string |
| N2yoApi.ProxyErrorMessage | src/services/n2yoAPI.ts:33-41 | the thrown message is never empty: body.error if truthy, else body.message if truthy, else "Proxy error <status>", including for a body that is not JSON |
| N2yoApi.RawList | src/services/n2yoAPI.ts:45 | an `above` that is not an array yields no entries |
| N2yoApi.Nullish | src/services/n2yoAPI.ts:52-57 | `x ?? undefined`: null and undefined become absent, any other value is kept |
| N2yoApi.Normalize | src/services/n2yoAPI.ts:47-58 | id, name, designator and launch date are copied; each optional numeric/category field is absent exactly when null or undefined and otherwise equals the raw value |
| N2yoApi.NormalizeList | src/services/n2yoAPI.ts:47-58 | one summary per raw entry, in the same order |
| N2yoApi.ZeroIsKept | src/services/n2yoAPI.ts:52-56 | each numeric field (latitude, longitude, altitude, azimuth, elevation) that is 0 stays 0 rather than becoming absent |
| N2yoApi.GetSatellitesAbove | src/services/n2yoAPI.ts:32-59 | success exactly for an ok JSON response, then the normalised list elementwise; a rejected fetch rethrows its reason; a non-ok response throws an Error with the proxy message |
| N2yoApi.ProxyFailureIsNotAbort | src/services/n2yoAPI.ts:33-41 | a failed response is a failure with a non-empty message that is never taken for an abort |
| N2yoApi.MissingAboveIsEmpty | src/services/n2yoAPI.ts:44-45 | an ok JSON body without an `above` array gives the empty list |
| N2yoApi.AbortedExchange | src/services/n2yoAPI.ts:32-44 | an aborted request settles as a `fetch` rejected with an AbortError or as a response whose body read was cut off with one |
| N2yoApi.AbortedRequestOutcome | src/services/n2yoAPI.ts:32-44 | an aborted request never yields a list; it reaches the caller as an AbortError except after a non-ok response, where the swallowed body read makes it the Error "Proxy error <status>" |
| SatelliteContext.MathRound | src/context/SatelliteContext.tsx:39 | `Math.round` returns the integer r with x in [r - 0.5, r + 0.5), that is r in (x - 0.5, x + 0.5], so halves round up |
| SatelliteContext.RoundIsNearest | src/context/SatelliteContext.tsx:39 | no integer is closer to x than its rounding |
| SatelliteContext.ToFixed4 | src/context/SatelliteContext.tsx:39 | the 4-decimal rendering keeps the sign and the magnitude rounded to 4 decimals |
| SatelliteContext.MakeCacheKey | src/context/SatelliteContext.tsx:38-39 | the key is latitude and longitude rendered to 4 decimals and the altitude rounded to the metre; the four lemmas below state which locations share one |
| SatelliteContext.NearbyAltitudesShareKey | src/context/SatelliteContext.tsx:38-39 | locations with equal lat/lng whose altitudes round to the same metre share a cache key |
| SatelliteContext.DistantAltitudesDiffer | src/context/SatelliteContext.tsx:38-39 | altitudes at least 1 m apart never share a key |
| SatelliteContext.DistantLatitudesDiffer | src/context/SatelliteContext.tsx:38-39 | non-negative latitudes 0.0001 apart never share a key |
| SatelliteContext.SignSplitsKeys | src/context/SatelliteContext.tsx:38-39 | a negative and a non-negative latitude never share a key |
| SatelliteContext.CacheHit | src/context/SatelliteContext.tsx:49 | the cache answers exactly when the call is not forced, the key is present and the entry is younger than 120000 ms |
| SatelliteContext.CacheHitWindow | src/context/SatelliteContext.tsx:37-49 | an unforced lookup of a present entry hits exactly while now < ts + 120000; a forced one never hits |
| SatelliteContext.FailureMessage | src/context/SatelliteContext.tsx:72 | the shown error is the exception's message, or "Failed to fetch satellites" when it is empty |
| SatelliteContext.ProxyFailureMessageShown | src/context/SatelliteContext.tsx:62-72 | after a failed proxy response the error shown is exactly the proxy message |
| SatelliteContext.SatelliteProvider.constructor | src/context/SatelliteContext.tsx:24-35 | initial state at the default location, empty cache, and a 250 ms timer for the first load |
| SatelliteContext.SatelliteProvider.AbortOutstanding | src/context/SatelliteContext.tsx:42-45 | the held controller, if any, is aborted and the handle cleared |
| SatelliteContext.SatelliteProvider.FetchSatellites | src/context/SatelliteContext.tsx:41-60 | the outstanding request is aborted first; a hit shows cached data, clears the error, sets lastUpdated to the entry's time and issues nothing; a miss issues one request for the location's key and query, raises loading and clears the error |
| SatelliteContext.SatelliteProvider.Complete | src/context/SatelliteContext.tsx:61-76 | an AbortError writes nothing; a success replaces the list, stamps lastUpdated and writes the cache entry; any other failure sets the error; an aborted request never writes the list or the cache, but one aborted during the error body's read shows "Proxy error <status>"; loading drops and the handle clears in every case |
| SatelliteContext.SatelliteProvider.RefreshSatellites | src/context/SatelliteContext.tsx:79-81 | a refresh always issues a new request for the current location, bypassing the cache |
| SatelliteContext.SatelliteProvider.SetObserverLocation | src/context/SatelliteContext.tsx:83-101 | a location equal in all three values changes nothing; a different one clears the timer, aborts the outstanding request and schedules a fetch 250 ms later |
| SatelliteContext.SatelliteProvider.DebounceElapsed | src/context/SatelliteContext.tsx:85-92 | the timer firing performs one unforced fetch for the location it was set for |
| SatelliteTracking.LastN | src/hooks/useSatelliteTracking.ts:6-56 | the kept trail is the last min(30, n) samples, in order |
| SatelliteTracking.LastNFits | src/hooks/useSatelliteTracking.ts:56 | a trail that fits is kept whole, and truncation is idempotent |
| SatelliteTracking.LastNIgnoresOlder | src/hooks/useSatelliteTracking.ts:56 | samples older than a full window never affect the kept trail |
| SatelliteTracking.TruthyId | src/hooks/useSatelliteTracking.ts:42 | `!!satId`: an id counts when present and not 0 (the same test at line 83) |
| SatelliteTracking.ShouldPoll | src/hooks/useSatelliteTracking.ts:42 | the effect polls only for a truthy id, a present observer and a visible tab |
| SatelliteTracking.IsTracking | src/hooks/useSatelliteTracking.ts:83 | `isTracking` is a truthy id and a visible tab |
| SatelliteTracking.TrackingWithoutObserver | src/hooks/useSatelliteTracking.ts:42-83 | polling implies isTracking, and isTracking without polling happens exactly when the observer is absent |
| SatelliteTracking.SatelliteTracker.Tracking | src/hooks/useSatelliteTracking.ts:83 | the hook's `isTracking` for its current arguments and visibility |
| SatelliteTracking.SatelliteTracker.constructor | src/hooks/useSatelliteTracking.ts:12-67 | mounting starts one request and the 8000 ms interval exactly when target, observer and visibility allow |
| SatelliteTracking.SatelliteTracker.FetchPositions | src/hooks/useSatelliteTracking.ts:44-48 | the held controller is aborted, not cleared, and replaced by a request for the current target and observer over 60 s |
| SatelliteTracking.SatelliteTracker.Restart | src/hooks/useSatelliteTracking.ts:29-72 | the trail empties, the outstanding request is aborted; past the guard one request and an interval start, otherwise nothing polls |
| SatelliteTracking.SatelliteTracker.Update | src/hooks/useSatelliteTracking.ts:73-79 | arguments equal by value change nothing; any difference restarts polling |
| SatelliteTracking.SatelliteTracker.VisibilityChange | src/hooks/useSatelliteTracking.ts:19-26 | the flag follows `!document.hidden` and a change restarts polling, stopping it when hidden |
| SatelliteTracking.SatelliteTracker.IntervalFires | src/hooks/useSatelliteTracking.ts:67 | each firing issues one request and schedules the next 8000 ms later |
| SatelliteTracking.SatelliteTracker.Complete | src/hooks/useSatelliteTracking.ts:49-63 | a success keeps its last 30 samples, whatever became of its controller; any failure, an AbortError or another, keeps the trail; the handle clears |
| MapView.At | src/components/MapView.tsx:64 | `toLatLng`: a sample is shown at its satlat and satlng |
| MapView.SegmentDuration | src/components/MapView.tsx:159 | a segment lasts its timestamp gap in ms, never less than 300 |
| MapView.AnomalousSegmentsGetFloor | src/components/MapView.tsx:159 | equal or reversed timestamps give a 300 ms segment |
| MapView.Fraction | src/components/MapView.tsx:161 | t never exceeds 1, is non-negative after the start, equals 1 exactly once the duration elapsed, and is elapsed/duration before |
| MapView.Lerp | src/components/MapView.tsx:163-164 | the coordinate at fraction t of the way from x to y; LerpBetween and InterpolationIsUniform state its properties |
| MapView.LerpBetween | src/components/MapView.tsx:163-164 | for t in [0, 1] the interpolated coordinate lies between the endpoints |
| MapView.Interpolate | src/components/MapView.tsx:163-165 | the marker is on sample a at t = 0, on b at t = 1, and between them for t in between |
| MapView.InterpolationIsUniform | src/components/MapView.tsx:163-164 | equal steps of t move the marker by equal amounts |
| MapView.TrailAnimator.constructor | src/components/MapView.tsx:55-58 | before the first answer there is no trail and no animation |
| MapView.TrailAnimator.Restart | src/components/MapView.tsx:132-142 | a new trail restarts at index 0 with the marker on the first sample, and the animation runs only for a selected target and a non-empty trail |
| MapView.TrailAnimator.Tick | src/components/MapView.tsx:144-175 | one frame never decreases the index and raises it by at most one; it holds at the last sample, otherwise starts segment i at now, or moves the marker to the interpolation at t and advances exactly when t reaches 1 |
| MapView.TrailAnimator.HoldShowsLastSample | src/components/MapView.tsx:149-153 | holding at the end shows the latest sample |
| MapView.MapViewState.constructor | src/components/MapView.tsx:95-116 | mounting with a selection starts one request and the 3000 ms interval; without one, nothing |
| MapView.MapViewState.FetchAndSetPositions | src/components/MapView.tsx:67-77 | the held controller is aborted and cleared, and a request over 60 s for the target is issued |
| MapView.MapViewState.Restart | src/components/MapView.tsx:95-127 | the trail empties (stopping the animation), the outstanding request is aborted; with a selection one request and the interval start |
| MapView.MapViewState.Update | src/components/MapView.tsx:129 | an unchanged satid and observer change nothing; any difference restarts |
| MapView.MapViewState.IntervalFires | src/components/MapView.tsx:113-115 | each firing issues one request and schedules the next 3000 ms later |
| MapView.MapViewState.Complete | src/components/MapView.tsx:76-89 | a success replaces the trail with the whole answer and restarts the animation at 0; any failure, an AbortError or another, leaves trail and animation untouched; the handle clears |
| MapView.MapViewState.Tick | src/components/MapView.tsx:144-175 | a frame keeps the animator over the current trail and never decreases the index |
| SatelliteList.TotalPages | src/components/SatelliteList.tsx:6-27 | the page count is at least 1, is 1 for an empty list, and is the least count of 10-item pages that holds the list |
| SatelliteList.StartIndex | src/components/SatelliteList.tsx:29 | page p starts at item p·10 |
| SatelliteList.EndIndex | src/components/SatelliteList.tsx:29-30 | the end bound is the list length or start + 10, whichever is smaller |
| SatelliteList.JsSlice | src/components/SatelliteList.tsx:33-36 | slicing caps both bounds at the length and is empty for a reversed range |
| SatelliteList.CurrentPage | src/components/SatelliteList.tsx:29-36 | a page holds at most 10 items, namely the items from page·10 on, as many as remain |
| SatelliteList.PageInRangeIsFilled | src/components/SatelliteList.tsx:27-36 | every page in range of a non-empty list shows at least one item |
| SatelliteList.ItemIsOnItsPage | src/components/SatelliteList.tsx:27-36 | item k appears on page k / 10 at row k mod 10 |
| SatelliteList.PagesFromIsSuffix | src/components/SatelliteList.tsx:27-36 | the pages from p on, read in order, are the list from p·10 on |
| SatelliteList.PageIsSlice | src/components/SatelliteList.tsx:27-36 | page p is the stretch of the list from p·10 up to the start of page p + 1, both capped at the length |
| SatelliteList.PagesPartitionList | src/components/SatelliteList.tsx:27-36 | all pages in order are exactly the list |
| SatelliteList.GoPrev | src/components/SatelliteList.tsx:42 | Prev goes back one page and never below 0, staying at 0 |
| SatelliteList.GoNext | src/components/SatelliteList.tsx:43 | Next goes forward one page and never past the last, staying there |
| SatelliteList.JumpTo | src/components/SatelliteList.tsx:44 | a jump lands in range, on the page asked for when it exists, else on the nearer end |
| SatelliteList.PrevDisabled | src/components/SatelliteList.tsx:131 | Prev is disabled exactly on page 0 |
| SatelliteList.NextDisabled | src/components/SatelliteList.tsx:140 | Next is disabled on the last page and beyond |
| SatelliteList.DisabledExactlyWhenStuck | src/components/SatelliteList.tsx:131-140 | on a page in range, Prev is disabled exactly when it would not move, and so is Next |
| SatelliteList.MovesStayInRange | src/components/SatelliteList.tsx:42-44 | every move keeps the page in range |
| SatelliteList.AfterListChange | src/components/SatelliteList.tsx:22-24 | a change of the list's length resets the page to 0, and none keeps it |
| SatelliteList.ListChangeKeepsRange | src/components/SatelliteList.tsx:22-27 | the page stays in range across list changes |
| ObserverLocationForm.TrimStart | src/components/ObserverLocationForm.tsx:28-32 | removes exactly the leading whitespace |
| ObserverLocationForm.TrimEnd | src/components/ObserverLocationForm.tsx:28-32 | removes exactly the trailing whitespace |
| ObserverLocationForm.Trim | src/components/ObserverLocationForm.tsx:28-32 | the trimmed text has no whitespace at either end |
| ObserverLocationForm.TrimIsInfix | src/components/ObserverLocationForm.tsx:28-32 | the trimmed text is the infix of the input between a whitespace-only prefix and a whitespace-only suffix |
| ObserverLocationForm.TrimKeepsTrimmed | src/components/ObserverLocationForm.tsx:28-32 | a text with no whitespace at either end is its own trim |
| ObserverLocationForm.TrimStartSkipsBlank | src/components/ObserverLocationForm.tsx:28-32 | whitespace put in front of a text does not change what trimming its start leaves |
| ObserverLocationForm.TrimStartKeepsTail | src/components/ObserverLocationForm.tsx:28-32 | for a text that is not all whitespace, anything appended survives trimming its start unchanged |
| ObserverLocationForm.TrimEndSkipsBlank | src/components/ObserverLocationForm.tsx:28-32 | whitespace appended to a text does not change what trimming its end leaves |
| ObserverLocationForm.TrimIdempotent | src/components/ObserverLocationForm.tsx:28-32 | trimming twice is trimming once |
| ObserverLocationForm.TrimEmptyIffBlank | src/components/ObserverLocationForm.tsx:28-38 | a text trims to empty exactly when it is whitespace only |
| ObserverLocationForm.PaddingIgnored | src/components/ObserverLocationForm.tsx:28-32 | whitespace around a value never changes what is validated |
| ObserverLocationForm.LatitudeOk | src/components/ObserverLocationForm.tsx:34-40 | a latitude is accepted exactly when it is non-empty, a number and within [-90, 90] |
| ObserverLocationForm.LongitudeOk | src/components/ObserverLocationForm.tsx:35-43 | a longitude is accepted exactly when it is non-empty, a number and within [-180, 180] |
| ObserverLocationForm.AltitudeOk | src/components/ObserverLocationForm.tsx:36-46 | an altitude is accepted when empty or a number, with no range |
| ObserverLocationForm.AltitudeValue | src/components/ObserverLocationForm.tsx:36 | an empty altitude is 0, any other accepted one is its parsed number |
| ObserverLocationForm.ErrorCount | src/components/ObserverLocationForm.tsx:49 | the number of error keys is 0 exactly when there are no errors |
| ObserverLocationForm.ValidationResult | src/components/ObserverLocationForm.tsx:26-54 | each trimmed text carries its message exactly when rejected, and there is a result exactly when nothing is rejected, namely the parsed triple |
| ObserverLocationForm.ValidationResultIsUnique | src/components/ObserverLocationForm.tsx:26-54 | the validation outcome is determined by the form |
| ObserverLocationForm.ValidateAndParse | src/components/ObserverLocationForm.tsx:26-54 | latitude errs exactly when empty, not a number or outside [-90, 90]; longitude likewise with [-180, 180]; altitude only when non-empty and not a number; the result is absent exactly when some error exists, and otherwise is the parsed triple with an empty altitude as 0 |
| ObserverLocationForm.AltitudeHasNoRange | src/components/ObserverLocationForm.tsx:44-46 | any altitude that parses is accepted, however far outside the range its message names |
| ObserverLocationForm.InitialView | src/components/ObserverLocationForm.tsx:12-18 | the form starts from the current observer's values with no errors |
| ObserverLocationForm.OnChange | src/components/ObserverLocationForm.tsx:21-24 | only the edited field's text changes and only its error clears |
| ObserverLocationForm.OnChangeLastWins | src/components/ObserverLocationForm.tsx:21-24 | two edits of a field leave only the second |
| ObserverLocationForm.ApplyPreset | src/components/ObserverLocationForm.tsx:92-95 | all three texts come from the preset (altitude 0 by default) and every error clears |
| ObserverLocationForm.OnSetLocation | src/components/ObserverLocationForm.tsx:57-62 | the errors shown become the validator's, and a location is submitted exactly when validation succeeded, as the parsed triple |
| Scenarios.DebounceBurst | src/context/SatelliteContext.tsx:83-101 | a burst of location changes issues nothing before its last timer fires and then one request, for the last location |
| Scenarios.CacheWindow | src/context/SatelliteContext.tsx:37-81 | 120 s minus 1 ms after a load the cache answers; at 120 s, and for any refresh, a new request is issued |
| Scenarios.ProxyErrorThenRetry | src/context/SatelliteContext.tsx:59-76 | a 500 shows its error without a spinner; the retry clears the error and shows the spinner; its success shows the list |
| Scenarios.AbortedProxyErrorSticks | src/context/SatelliteContext.tsx:61-76 | a request aborted during its 500's body read shows "Proxy error 500", and its replacement's success shows the list but keeps that error |
| Scenarios.StaleCatalogOverwrite | src/context/SatelliteContext.tsx:42-76 | a superseded request, however its abort lands, drops the spinner in its `finally` and frees its successor from cancellation, whose late answer then replaces a newer list |
| Scenarios.StaleTrailOverwrite | src/hooks/useSatelliteTracking.ts:45-63 | the same interleaving in the tracker leaves the successor unaborted, and its older trail replaces a newer one |
| Scenarios.AnimateSamples | src/components/MapView.tsx:144-175 | with samples 1 s apart the marker is midway between samples 2 and 3 at 2500 ms |
| Scenarios.HoldSingleSample | src/components/MapView.tsx:149-153 | a one-sample trail keeps the marker on that sample for any number of frames |
| Scenarios.EmptyAnswerStopsAnimation | src/components/MapView.tsx:77-82 | an empty successful answer clears the trail and stops the animation |

## Left out

- Logging is not modelled: the `console.warn` about a missing key at src/services/n2yoAPI.ts:18 and the `console.error` calls at src/context/SatelliteContext.tsx:71, src/hooks/useSatelliteTracking.ts:59 and src/components/MapView.tsx:85 change no state.
- Rendering:
  - Leaflet and JSX rendering are not modelled: map, icons, polyline, popups, `RecenterMap`, `FollowSatellite`.
  - The `followSatellite` toggle is not modelled.
  - Re-renders that reset the marker's displayed position to the first sample between frames are not modelled.
  - The `animRef` ref is never assigned by the animation effect, so its cancellation at src/components/MapView.tsx:101-104 does nothing and is not modelled.
- Other parts of the repository:
  - The Express proxy in server/ is not part of this model.
  - SatelliteInfoPanel (floating-point haversine and speed) is not part of this model.
  - Dashboard, App, main and ObserverContext, which only hold state, are not part of this model.
  - The trajectory source `getSatellitePositions` is not part of this model. Its requests are recorded as `PositionRequest` values and its answers are inputs. The same holds for `fetch`, `res.json()` and the HTTP exchange, which arrive as a `FetchOutcome`.
- Runtime facilities:
  - `AbortController`, timers, `requestAnimationFrame`, `document.hidden` and the `visibilitychange` listener become explicit events; the listener's registration and removal are not modelled.
  - `Date.now()` becomes a `now` parameter. Where the source reads the clock twice in one step (src/context/SatelliteContext.tsx:64-65), one `now` serves both reads.
  - Unmounting is not modelled: its final cleanup only aborts and clears timers.
  - The `mounted` flag of the location effect is not modelled, because it is still true whenever the timer callback runs.
  - Whether an aborted trajectory request can still succeed depends on `getSatellitePositions`, which src/services/n2yoAPI.ts does not define. The trackers' `Complete` therefore lets any outcome follow an abort, and a success writes whatever became of its controller.
- URL building: the proxy origin (`VITE_PROXY_ORIGIN`, else `http://localhost:8000`) and the `encodeURIComponent` rendering of the query at src/services/n2yoAPI.ts:27-30 are not modelled. `N2yoApi.AboveQuery` models only the parameter names and values.
- Number formatting and parsing:
  - JavaScript `Number()` is the parameter `parse`; NaN is None, and Infinity is not representable.
  - `String()` is the parameter `show`.
  - `toFixed(4)` is modelled on exact reals as a sign and a magnitude rounded half away from zero. IEEE double rounding, which can move a value that is written as a halfway case, is not modelled.
- Number arithmetic: all numbers are exact reals or integers, without IEEE rounding.
- Values the model does not represent:
  - A parsed body whose `error` or `message` is truthy but not a string, and a JSON body that is `null`.
  - An `above` entry without a `satid` or `satname`, or one that is not an object at all. Normalisation copies `undefined` for missing fields and throws a TypeError on a `null` entry. `RawSatellite` always carries an integer id and a string name.
  - Timestamps that are not integers.
- The animator's frame callback still runs while the Leaflet marker ref is null, but the model does not check that ref: a frame with no marker attached is modelled as a frame with one attached.
- The geolocation button `useGeolocation` of the form is not modelled: it needs the browser's position service and alerts.
- The form's `isGeoLoading` flag is not modelled, for the same reason.
- MapView.MapViewState.Tick: states only the index bound and the invariant. The frame's effect on the marker is stated by `MapView.TrailAnimator.Tick`, which it calls.
- SatelliteList.JsSlice: covers non-negative bounds only, because the page index never goes negative, so JavaScript's negative-index slicing is not modelled.
