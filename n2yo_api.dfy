/**
 * The service layer in src/services/n2yoAPI.ts: the shared value types, the
 * query `getSatellitesAbove` sends, the message it throws for a response that
 * is not ok, and the normalisation of the raw `above` list.
 *
 * The HTTP exchange itself is an input here: a FetchOutcome is what `fetch`
 * and `res.json()` produced. The trajectory source `getSatellitePositions` is
 * not defined in that file; only the shape of its samples (PositionPoint) and
 * of its requests (PositionRequest) are modelled.
 */
module N2yoApi {
  import opened Wrappers
  import opened Fetch

  /** Observer location: degrees, degrees, metres. */
  datatype ObserverLocation = ObserverLocation(lat: real, lng: real, alt: real)

  /** A field of a parsed JSON object: missing, explicitly null, or holding a value. */
  datatype Raw<T> = Undefined | Null | Value(v: T)

  /** `category` is `string | number` upstream. */
  datatype Category = CategoryName(name: string) | CategoryNumber(number: real)

  /** One element of the upstream `above` array, before normalisation. */
  datatype RawSatellite = RawSatellite(
    satid: int,
    satname: string,
    intDesignator: Raw<string>,
    launchDate: Raw<string>,
    satlat: Raw<real>,
    satlng: Raw<real>,
    satalt: Raw<real>,
    azimuth: Raw<real>,
    elevation: Raw<real>,
    category: Raw<Category>)

  /**
   * SatelliteSummary as getSatellitesAbove builds it. `intDesignator` and
   * `launchDate` are copied as they came, so they may still be null.
   */
  datatype SatelliteSummary = SatelliteSummary(
    satid: int,
    satname: string,
    intDesignator: Raw<string>,
    launchDate: Raw<string>,
    satlat: Option<real>,
    satlng: Option<real>,
    satalt: Option<real>,
    azimuth: Option<real>,
    elevation: Option<real>,
    category: Option<Category>)

  /** One trajectory sample, with the fields MapView reads of it. */
  datatype PositionPoint = PositionPoint(satlat: real, satlng: real, satalt: real, timestamp: int)

  /** The arguments of one `getSatellitePositions(satId, observer, seconds)` call. */
  datatype PositionRequest = PositionRequest(satId: int, observer: ObserverLocation, seconds: nat)

  /** The `seconds` argument both position pollers pass: the next 60 seconds of trajectory. */
  const TrajectorySeconds: nat := 60

  // ---------------------------------------------------------------- the request

  const DefaultRadius: real := 70.0

  datatype QueryParam = QueryParam(name: string, value: real)

  /** The value of the first query parameter called `name`, if any. */
  function Param(query: seq<QueryParam>, name: string): Option<real> {
    if query == [] then None
    else if query[0].name == name then Some(query[0].value)
    else Param(query[1..], name)
  }

  /** The query string of `/api/above`: lat, lng, alt and radius, in that order. */
  function AboveQuery(location: ObserverLocation, radius: real := DefaultRadius): (q: seq<QueryParam>)
    ensures |q| == 4
    ensures Param(q, "lat") == Some(location.lat)
    ensures Param(q, "lng") == Some(location.lng)
    ensures Param(q, "alt") == Some(location.alt)
    ensures Param(q, "radius") == Some(radius)
  {
    var q := [ QueryParam("lat", location.lat), QueryParam("lng", location.lng),
               QueryParam("alt", location.alt), QueryParam("radius", radius) ];
    assert q[1..][1..] == q[2..] && q[2..][1..] == q[3..];
    assert Param(q, "alt") == Param(q[2..], "alt");
    assert Param(q, "radius") == Param(q[2..], "radius") == Param(q[3..], "radius");
    q
  }

  /** Called without a radius, the query asks for 70 degrees. */
  lemma DefaultQueryRadius(location: ObserverLocation)
    ensures Param(AboveQuery(location), "radius") == Some(70.0)
  {
  }

  // ---------------------------------------------------------------- the response

  /** The `above` member of the success body: an array, or anything else. */
  datatype AboveField = AboveArray(items: seq<RawSatellite>) | AboveNotArray

  /**
   * A response body as `res.json()` delivers it: text that is not JSON (with
   * the parser's message), a JSON object of which the model keeps `error`,
   * `message` and `above` (a missing, null or falsy `error`/`message` is None;
   * a truthy one that is not a string is outside the model), or a read cut off by an abort of the request's signal, which
   * rejects with `reason`.
   */
  datatype ResponseBody =
    | NotJson(syntaxMessage: string)
    | Json(error: Option<string>, message: Option<string>, above: AboveField)
    | Interrupted(reason: Exception)

  /** What `fetch` produced: a rejection, or a response with its status. */
  datatype FetchOutcome =
    | Rejected(reason: Exception)
    | Response(ok: bool, status: nat, body: ResponseBody)

  /** JavaScript truthiness of an optional string. */
  predicate TruthyString(s: Option<string>) {
    s.Some? && s.value != ""
  }

  function DigitChar(d: nat): char
    requires d < 10
  {
    ('0' as int + d) as char
  }

  function DigitValue(c: char): nat {
    if '0' <= c <= '9' then (c as int - '0' as int) as nat else 0
  }

  /** The decimal rendering of a status code, as `${res.status}` writes it. */
  function Decimal(n: nat): (s: string)
    ensures |s| >= 1
    ensures forall k :: 0 <= k < |s| ==> '0' <= s[k] <= '9'
    ensures s[0] == '0' ==> n == 0
    ensures n == 0 ==> s == "0"
  {
    if n < 10 then [DigitChar(n)] else Decimal(n / 10) + [DigitChar(n % 10)]
  }

  /** Status 500 is written "500". */
  lemma Decimal500()
    ensures Decimal(500) == "500"
  {
  }

  /** Reads a string of decimal digits back as a number. */
  function DecimalValue(s: string): nat {
    if s == [] then 0 else 10 * DecimalValue(s[..|s| - 1]) + DigitValue(s[|s| - 1])
  }

  /** Different status codes give different messages: the rendering reads back. */
  lemma {:induction false} DecimalRoundTrip(n: nat)
    ensures DecimalValue(Decimal(n)) == n
  {
    var s := Decimal(n);
    if n >= 10 {
      DecimalRoundTrip(n / 10);
      assert s[..|s| - 1] == Decimal(n / 10);
      assert DigitValue(s[|s| - 1]) == n % 10;
      assert DecimalValue(s) == 10 * (n / 10) + n % 10;
    }
  }

  /**
   * The message thrown for a response that is not ok: `body.error`, else
   * `body.message`, else "Proxy error <status>" (also when the body is not JSON).
   */
  function ProxyErrorMessage(status: nat, body: ResponseBody): (msg: string)
    ensures msg != ""
    ensures body.Json? && TruthyString(body.error) ==> msg == body.error.value
    ensures body.Json? && !TruthyString(body.error) && TruthyString(body.message) ==> msg == body.message.value
    ensures !(body.Json? && (TruthyString(body.error) || TruthyString(body.message))) ==>
              msg == "Proxy error " + Decimal(status)
  {
    if body.Json? && TruthyString(body.error) then body.error.value
    else if body.Json? && TruthyString(body.message) then body.message.value
    else "Proxy error " + Decimal(status)
  }

  /** `Array.isArray(data.above) ? data.above : []`. */
  function RawList(above: AboveField): (items: seq<RawSatellite>)
    ensures above.AboveNotArray? ==> items == []
  {
    match above
    case AboveArray(items) => items
    case AboveNotArray => []
  }

  /** `x ?? undefined`: null and undefined become absent, any other value stays. */
  function Nullish<T>(x: Raw<T>): Option<T> {
    match x
    case Value(v) => Some(v)
    case _ => None
  }

  /** `out` is `raw` with null and undefined read as absent and every value kept. */
  predicate KeepsValue<T(==)>(raw: Raw<T>, out: Option<T>) {
    (out.Some? <==> raw.Value?) && (raw.Value? ==> out.value == raw.v)
  }

  /** The object literal built for one raw entry. */
  function Normalize(s: RawSatellite): (r: SatelliteSummary)
    ensures r.satid == s.satid && r.satname == s.satname
    ensures r.intDesignator == s.intDesignator && r.launchDate == s.launchDate
    ensures KeepsValue(s.satlat, r.satlat) && KeepsValue(s.satlng, r.satlng)
    ensures KeepsValue(s.satalt, r.satalt) && KeepsValue(s.azimuth, r.azimuth)
    ensures KeepsValue(s.elevation, r.elevation) && KeepsValue(s.category, r.category)
  {
    SatelliteSummary(
      s.satid, s.satname, s.intDesignator, s.launchDate,
      Nullish(s.satlat), Nullish(s.satlng), Nullish(s.satalt),
      Nullish(s.azimuth), Nullish(s.elevation), Nullish(s.category))
  }

  /** `rawList.map(...)`: one summary per entry, same length, same order. */
  function NormalizeList(raw: seq<RawSatellite>): (r: seq<SatelliteSummary>)
    ensures |r| == |raw|
    ensures forall k :: 0 <= k < |raw| ==> r[k] == Normalize(raw[k])
  {
    if raw == [] then [] else [Normalize(raw[0])] + NormalizeList(raw[1..])
  }

  /** A numeric field of 0 is a value, not a missing field: `??` keeps falsy values. */
  lemma ZeroIsKept(s: RawSatellite)
    ensures s.satlat == Value(0.0) ==> Normalize(s).satlat == Some(0.0)
    ensures s.satlng == Value(0.0) ==> Normalize(s).satlng == Some(0.0)
    ensures s.satalt == Value(0.0) ==> Normalize(s).satalt == Some(0.0)
    ensures s.azimuth == Value(0.0) ==> Normalize(s).azimuth == Some(0.0)
    ensures s.elevation == Value(0.0) ==> Normalize(s).elevation == Some(0.0)
  {
  }

  /**
   * getSatellitesAbove after the request: a rejected fetch rethrows its
   * reason, a response that is not ok throws an Error with ProxyErrorMessage,
   * an ok response whose body is not JSON throws the parser's SyntaxError,
   * and an ok JSON response yields the normalised list.
   */
  function GetSatellitesAbove(outcome: FetchOutcome): (r: Result<seq<SatelliteSummary>, Exception>)
    ensures r.Success? <==> outcome.Response? && outcome.ok && outcome.body.Json?
    ensures outcome.Rejected? ==> r == Failure(outcome.reason)
    ensures outcome.Response? && !outcome.ok ==>
              r == Failure(Exception("Error", ProxyErrorMessage(outcome.status, outcome.body)))
    ensures r.Success? ==>
              var raw := RawList(outcome.body.above);
              |r.value| == |raw| && forall k :: 0 <= k < |raw| ==> r.value[k] == Normalize(raw[k])
  {
    match outcome
    case Rejected(reason) => Failure(reason)
    case Response(ok, status, body) =>
      if !ok then Failure(Exception("Error", ProxyErrorMessage(status, body)))
      else match body
        case NotJson(syntaxMessage) => Failure(Exception("SyntaxError", syntaxMessage))
        case Json(_, _, above) => Success(NormalizeList(RawList(above)))
        case Interrupted(reason) => Failure(reason)
  }

  /**
   * What the runtime delivers for a request whose signal was aborted before
   * it settled: `fetch` itself rejects with an AbortError, or the response
   * had arrived and reading its body is cut off with an AbortError.
   */
  predicate AbortedExchange(outcome: FetchOutcome) {
    || (outcome.Rejected? && IsAbortError(outcome.reason))
    || (outcome.Response? && outcome.body.Interrupted? && IsAbortError(outcome.body.reason))
  }

  /**
   * An aborted request never yields a list. It reaches its caller as an
   * AbortError except on the error path: there the swallowed body read leaves
   * `body` null, and the caller receives the Error "Proxy error <status>".
   */
  lemma AbortedRequestOutcome(outcome: FetchOutcome)
    requires AbortedExchange(outcome)
    ensures GetSatellitesAbove(outcome).Failure?
    ensures Cancelled(GetSatellitesAbove(outcome)) <==> !(outcome.Response? && !outcome.ok)
    ensures outcome.Response? && !outcome.ok ==>
              GetSatellitesAbove(outcome) == Failure(Exception("Error", "Proxy error " + Decimal(outcome.status)))
  {
  }

  /** A failed response is never mistaken for a cancellation and always carries a message. */
  lemma ProxyFailureIsNotAbort(status: nat, body: ResponseBody)
    ensures var r := GetSatellitesAbove(Response(false, status, body));
            r.Failure? && !IsAbortError(r.error) && r.error.message != ""
  {
  }

  /** An ok JSON response whose `above` is not an array is the empty list. */
  lemma MissingAboveIsEmpty(error: Option<string>, message: Option<string>, status: nat)
    ensures GetSatellitesAbove(Response(true, status, Json(error, message, AboveNotArray))) == Success([])
  {
  }
}
