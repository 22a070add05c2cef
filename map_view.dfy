/**
 * src/components/MapView.tsx without its Leaflet rendering: the component's
 * own 3000 ms poller (`fetchAndSetPositions` and the selection effect) and the
 * trail animator (the `step`/`animate` frame loop with its index `i`, segment
 * duration and fraction `t`).
 *
 * Each animation frame is one Tick(now). A frame runs whichever callback is
 * pending: `step`, which starts the segment from trail[i] to trail[i + 1] or
 * holds, or `animate`, which moves the marker and, once `t` reaches 1,
 * advances `i`. The marker is the last position handed to `setLatLng`.
 */
module MapView {
  import opened Wrappers
  import opened Fetch
  import opened N2yoApi

  const MapPollIntervalMs: int := 3000
  const MinSegmentMs: int := 300

  datatype LatLng = LatLng(lat: real, lng: real)

  /** `toLatLng`. */
  function At(p: PositionPoint): LatLng {
    LatLng(p.satlat, p.satlng)
  }

  // ---------------------------------------------------------------- the formulas

  /** `Math.max(300, (b.timestamp - a.timestamp) * 1000)`. */
  function SegmentDuration(a: PositionPoint, b: PositionPoint): (d: int)
    ensures d >= MinSegmentMs
    ensures d >= (b.timestamp - a.timestamp) * 1000
    ensures d == MinSegmentMs || d == (b.timestamp - a.timestamp) * 1000
  {
    var span := (b.timestamp - a.timestamp) * 1000;
    if span > MinSegmentMs then span else MinSegmentMs
  }

  /** Same-timestamp and reversed samples still get a visible 300 ms segment. */
  lemma AnomalousSegmentsGetFloor(a: PositionPoint, b: PositionPoint)
    requires b.timestamp <= a.timestamp
    ensures SegmentDuration(a, b) == MinSegmentMs
  {
  }

  /** `Math.min(1, (now - start) / durationMs)`. */
  function Fraction(now: int, start: int, duration: int): (t: real)
    requires duration > 0
    ensures t <= 1.0
    ensures now >= start ==> t >= 0.0
    ensures t == 1.0 <==> now - start >= duration
    ensures t < 1.0 ==> t * duration as real == (now - start) as real
  {
    var elapsed := (now - start) as real / duration as real;
    assert elapsed * duration as real == (now - start) as real;
    if elapsed < 1.0 then elapsed else 1.0
  }

  /** `x + (y - x) * t`. */
  function Lerp(x: real, y: real, t: real): real {
    x + (y - x) * t
  }

  /** v lies on the closed segment between x and y. */
  predicate Between(x: real, v: real, y: real) {
    (x <= v <= y) || (y <= v <= x)
  }

  lemma MulNonneg(a: real, b: real)
    requires a >= 0.0 && b >= 0.0
    ensures a * b >= 0.0
  {
  }

  lemma LerpBetween(x: real, y: real, t: real)
    requires 0.0 <= t <= 1.0
    ensures Between(x, Lerp(x, y, t), y)
  {
    var d := if x <= y then y - x else x - y;
    MulNonneg(d, t);
    MulNonneg(d, 1.0 - t);
    assert d * (1.0 - t) == d - d * t;
    if x <= y {
      assert Lerp(x, y, t) == x + d * t;
    } else {
      assert Lerp(x, y, t) == x - d * t;
    }
  }

  /** The displayed position: lat and lng interpolated separately between a and b. */
  function Interpolate(a: PositionPoint, b: PositionPoint, t: real): (p: LatLng)
    ensures t == 0.0 ==> p == At(a)
    ensures t == 1.0 ==> p == At(b)
    ensures 0.0 <= t <= 1.0 ==> Between(a.satlat, p.lat, b.satlat) && Between(a.satlng, p.lng, b.satlng)
  {
    var p := LatLng(Lerp(a.satlat, b.satlat, t), Lerp(a.satlng, b.satlng, t));
    assert 0.0 <= t <= 1.0 ==> Between(a.satlat, p.lat, b.satlat) && Between(a.satlng, p.lng, b.satlng) by {
      if 0.0 <= t <= 1.0 {
        LerpBetween(a.satlat, b.satlat, t);
        LerpBetween(a.satlng, b.satlng, t);
      }
    }
    p
  }

  /** Equal steps of t move the marker by equal distances along the segment. */
  lemma InterpolationIsUniform(a: PositionPoint, b: PositionPoint, t: real, u: real)
    ensures Interpolate(a, b, t + u).lat - Interpolate(a, b, t).lat == (b.satlat - a.satlat) * u
    ensures Interpolate(a, b, t + u).lng - Interpolate(a, b, t).lng == (b.satlng - a.satlng) * u
  {
  }

  // ---------------------------------------------------------------- the animator

  /** The pending frame callback: `step`, or `animate` for a segment begun at `start`. */
  datatype Phase = AwaitStep | Animating(start: int, duration: int)

  /** One run of the animation effect, over the positions array it closed over. */
  class TrailAnimator {
    var trail: seq<PositionPoint>
    /** A frame callback is pending (the effect passed its guard and was not cleaned up). */
    var running: bool
    var i: nat
    var phase: Phase
    var marker: Option<LatLng>

    ghost predicate Valid()
      reads this
    {
      && (!running ==> i == 0 && phase == AwaitStep && marker == None)
      && (running ==> |trail| > 0 && i < |trail| && marker.Some?)
      // a segment is only ever animated between two samples that exist
      && (running && phase.Animating? ==>
            i + 1 < |trail| && phase.duration == SegmentDuration(trail[i], trail[i + 1]))
      // between segments the marker sits exactly on sample i
      && (running && phase == AwaitStep ==> marker == Some(At(trail[i])))
    }

    constructor ()
      ensures Valid() && trail == [] && !running
    {
      trail := [];
      running := false;
      i := 0;
      phase := AwaitStep;
      marker := None;
    }

    /**
     * The effect runs again for a new positions array or target: the old frame
     * is cancelled and, for a selected target and a non-empty array, `step` is
     * requested with `i = 0` and the marker placed on the first sample.
     */
    method Restart(positions: seq<PositionPoint>, selected: bool)
      modifies this
      ensures Valid()
      ensures trail == positions && i == 0 && phase == AwaitStep
      ensures running <==> selected && |positions| > 0
      ensures marker == if running then Some(At(positions[0])) else None
    {
      trail := positions;
      i := 0;
      phase := AwaitStep;
      running := selected && |positions| > 0;
      marker := if running then Some(At(positions[0])) else None;
    }

    /** One animation frame at time `now`. */
    method Tick(now: int)
      requires Valid()
      modifies this`i, this`phase, this`marker
      ensures Valid()
      ensures old(i) <= i <= old(i) + 1
      ensures !running ==> i == old(i) && phase == old(phase) && marker == old(marker)
      // step at the last sample: hold
      ensures running && old(phase) == AwaitStep && old(i) >= |trail| - 1 ==>
                i == old(i) && phase == AwaitStep && marker == old(marker)
      // step before the last sample: begin segment i now
      ensures running && old(phase) == AwaitStep && old(i) < |trail| - 1 ==>
                && i == old(i) && marker == old(marker)
                && phase == Animating(now, SegmentDuration(trail[i], trail[i + 1]))
      // animate: move the marker, and advance i exactly when t reaches 1
      ensures running && old(phase).Animating? ==>
                var t := Fraction(now, old(phase).start, old(phase).duration);
                && marker == Some(Interpolate(trail[old(i)], trail[old(i) + 1], t))
                && (t < 1.0 ==> i == old(i) && phase == old(phase))
                && (t == 1.0 ==> i == old(i) + 1 && phase == AwaitStep)
    {
      if !running {
        return;
      }
      match phase
      case AwaitStep =>
        if i >= |trail| - 1 {
          return;
        }
        phase := Animating(now, SegmentDuration(trail[i], trail[i + 1]));
      case Animating(start, duration) =>
        var t := Fraction(now, start, duration);
        marker := Some(Interpolate(trail[i], trail[i + 1], t));
        if t >= 1.0 {
          i := i + 1;
          phase := AwaitStep;
        }
    }

    /** Holding at the end, the marker shows the latest known sample. */
    lemma HoldShowsLastSample()
      requires Valid() && running && phase == AwaitStep && i >= |trail| - 1
      ensures marker == Some(At(trail[|trail| - 1]))
    {
    }
  }

  // ---------------------------------------------------------------- the poller

  class MapViewState {
    /** `selectedSatellite?.satid`. */
    var selected: Option<int>
    var observer: ObserverLocation
    var positions: seq<PositionPoint>
    /** `pollingRef.current`: when the running interval fires next, if one runs. */
    var polling: Option<int>
    /** `abortRef.current`. */
    var abortHandle: Option<Token>
    var aborted: set<Token>
    /** The `fetchAndSetPositions` calls suspended at their `await`. */
    var inFlight: map<Token, PositionRequest>
    var nextToken: Token
    const anim: TrailAnimator

    ghost predicate RequestsValid()
      reads this
    {
      Controllers(inFlight, aborted, abortHandle, nextToken)
    }

    /** The animator always runs over the current positions, and only for a selected target. */
    ghost predicate AnimatesPositions()
      reads this, anim
    {
      anim.Valid() && anim.trail == positions && (anim.running <==> selected.Some? && |positions| > 0)
    }

    ghost predicate Valid()
      reads this, anim
    {
      && RequestsValid()
      && AnimatesPositions()
      && (polling.Some? <==> selected.Some?)
    }

    /** The state one run of the selection effect leaves, its cleanup included. */
    twostate predicate Restarted(now: int, new token: Option<Token>)
      reads this, anim
    {
      && positions == []
      && !anim.running
      && aborted == old(aborted) + OptionSet(old(abortHandle))
      && if selected.Some? then
           && token == Some(old(nextToken))
           && old(nextToken) !in old(inFlight)
           && abortHandle == token && nextToken == old(nextToken) + 1
           && inFlight == old(inFlight)[old(nextToken) :=
                PositionRequest(selected.value, observer, TrajectorySeconds)]
           && polling == Some(now + MapPollIntervalMs)
         else
           && token == None && abortHandle == None && polling == None
           && inFlight == old(inFlight) && nextToken == old(nextToken)
    }

    /** Mounting: no trail; with a selected target, one fetch and a 3000 ms interval. */
    constructor (selected: Option<int>, observer: ObserverLocation, now: int)
      ensures Valid() && fresh(anim)
      ensures this.selected == selected && this.observer == observer
      ensures positions == [] && !anim.running && aborted == {}
      ensures selected.Some? ==>
                && abortHandle == Some(0) && nextToken == 1
                && inFlight == map[0 := PositionRequest(selected.value, observer, TrajectorySeconds)]
                && polling == Some(now + MapPollIntervalMs)
      ensures selected.None? ==>
                abortHandle == None && inFlight == map[] && polling == None && nextToken == 0
    {
      this.selected := selected;
      this.observer := observer;
      positions := [];
      aborted := {};
      anim := new TrailAnimator();
      if selected.Some? {
        abortHandle := Some(0);
        inFlight := map[0 := PositionRequest(selected.value, observer, TrajectorySeconds)];
        nextToken := 1;
        polling := Some(now + MapPollIntervalMs);
      } else {
        abortHandle := None;
        inFlight := map[];
        nextToken := 0;
        polling := None;
      }
    }

    /** `fetchAndSetPositions(satId)` up to its `await`: abort and clear the handle, install a new controller. */
    method FetchAndSetPositions(satId: int) returns (token: Token)
      requires RequestsValid()
      modifies this`abortHandle, this`aborted, this`inFlight, this`nextToken
      ensures RequestsValid()
      ensures token == old(nextToken) && old(nextToken) !in old(inFlight)
      ensures aborted == old(aborted) + OptionSet(old(abortHandle))
      ensures abortHandle == Some(token) && nextToken == old(nextToken) + 1
      ensures inFlight == old(inFlight)[token := PositionRequest(satId, observer, TrajectorySeconds)]
    {
      IssueKeepsControllers(inFlight, aborted, abortHandle, nextToken, PositionRequest(satId, observer, TrajectorySeconds));
      if abortHandle.Some? {
        aborted := aborted + {abortHandle.value};
        abortHandle := None;
      }
      token := nextToken;
      nextToken := nextToken + 1;
      abortHandle := Some(token);
      inFlight := inFlight[token := PositionRequest(satId, observer, TrajectorySeconds)];
    }

    /**
     * One run of the selection effect: the cleanup (clear the interval, abort
     * and clear the handle), emptying the positions (which stops the
     * animation), then, for a selected target, one immediate fetch and a
     * 3000 ms interval.
     */
    method Restart(now: int) returns (token: Option<Token>)
      requires RequestsValid() && anim.Valid()
      modifies this`polling, this`abortHandle, this`aborted, this`positions, this`inFlight, this`nextToken, anim
      ensures Valid()
      ensures Restarted(now, token)
    {
      polling := None;
      if abortHandle.Some? {
        aborted := aborted + {abortHandle.value};
        abortHandle := None;
      }
      positions := [];
      anim.Restart([], selected.Some?);
      if selected.None? {
        token := None;
        return;
      }
      var t := FetchAndSetPositions(selected.value);
      token := Some(t);
      polling := Some(now + MapPollIntervalMs);
    }

    /** A re-render: the effect reruns exactly when the satid or one of the observer's values differs. */
    method Update(newSelected: Option<int>, newObserver: ObserverLocation, now: int)
      returns (token: Option<Token>)
      requires Valid()
      modifies this`selected, this`observer
      modifies this`polling, this`abortHandle, this`aborted, this`positions, this`inFlight, this`nextToken, anim
      ensures Valid()
      ensures selected == newSelected && observer == newObserver
      ensures newSelected == old(selected) && newObserver == old(observer) ==>
                && token == None && positions == old(positions) && polling == old(polling)
                && abortHandle == old(abortHandle) && aborted == old(aborted)
                && inFlight == old(inFlight) && nextToken == old(nextToken)
                && unchanged(anim)
      ensures newSelected != old(selected) || newObserver != old(observer) ==> Restarted(now, token)
    {
      if newSelected == selected && newObserver == observer {
        token := None;
        return;
      }
      selected := newSelected;
      observer := newObserver;
      token := Restart(now);
    }

    /** The 3000 ms interval fires: another fetch for the selected target. */
    method IntervalFires(now: int) returns (token: Token)
      requires Valid()
      requires polling.Some? && now >= polling.value
      modifies this`polling, this`abortHandle, this`aborted, this`inFlight, this`nextToken
      ensures Valid()
      ensures polling == Some(old(polling).value + MapPollIntervalMs)
      ensures token == old(nextToken) && old(nextToken) !in old(inFlight)
      ensures aborted == old(aborted) + OptionSet(old(abortHandle))
      ensures abortHandle == Some(token) && nextToken == old(nextToken) + 1
      ensures inFlight == old(inFlight)[token := PositionRequest(selected.value, observer, TrajectorySeconds)]
    {
      token := FetchAndSetPositions(selected.value);
      polling := Some(polling.value + MapPollIntervalMs);
    }

    /**
     * The rest of `fetchAndSetPositions` once request `token` settles. A
     * success replaces the positions with the whole response (an empty one
     * empties them), which restarts the animation at `i = 0`; a failure keeps
     * them, whether it is an AbortError or another; the `finally` clears the
     * handle whichever controller it holds.
     */
    method Complete(token: Token, outcome: Result<seq<PositionPoint>, Exception>)
      requires Valid()
      requires token in inFlight
      modifies this`positions, this`abortHandle, this`inFlight, anim
      ensures Valid()
      ensures inFlight == old(inFlight) - {token} && abortHandle == None
      ensures outcome.Success? ==>
                && positions == outcome.value
                && anim.i == 0 && anim.phase == AwaitStep
      ensures outcome.Failure? ==> positions == old(positions) && unchanged(anim)
    {
      SettleKeepsControllers(inFlight, aborted, abortHandle, nextToken, token);
      inFlight := inFlight - {token};
      if outcome.Success? {
        var pts := outcome.value;
        positions := if |pts| > 0 then pts else [];
        anim.Restart(positions, selected.Some?);
      }
      abortHandle := None;
    }

    /** One animation frame. */
    method Tick(now: int)
      requires Valid()
      modifies anim`i, anim`phase, anim`marker
      ensures Valid()
      ensures old(anim.i) <= anim.i <= old(anim.i) + 1
    {
      anim.Tick(now);
    }
  }
}
