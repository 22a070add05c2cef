/**
 * The live position tracker of src/hooks/useSatelliteTracking.ts: the
 * visibility flag, the polling effect with `fetchPositions`, the trail
 * truncation `pts.slice(-MAX_TRAIL_POINTS)` and `isTracking`.
 *
 * One object is one mounted hook. Its arguments arrive through Update, the
 * `visibilitychange` event through VisibilityChange, each firing of the
 * 8000 ms interval through IntervalFires, and the settling of a request
 * through Complete.
 */
module SatelliteTracking {
  import opened Wrappers
  import opened Fetch
  import opened N2yoApi
  import opened Numeric

  const PollIntervalMs: int := 8000
  const MaxTrailPoints: nat := 30

  /** `pts.slice(-n)` for n > 0: the last min(n, |s|) elements, in their order. */
  function LastN<T>(s: seq<T>, n: nat): (r: seq<T>)
    requires n > 0
    ensures |r| == Min(n, |s|)
    ensures forall k :: 0 <= k < |r| ==> r[k] == s[|s| - |r| + k]
  {
    if |s| <= n then s else s[|s| - n..]
  }

  /** A trail that already fits is kept whole; truncating twice is truncating once. */
  lemma LastNFits<T>(s: seq<T>, n: nat)
    requires n > 0
    ensures |s| <= n ==> LastN(s, n) == s
    ensures LastN(LastN(s, n), n) == LastN(s, n)
  {
  }

  /** Appending older samples in front never changes the retained tail once it is full. */
  lemma LastNIgnoresOlder<T>(older: seq<T>, s: seq<T>, n: nat)
    requires n > 0 && |s| >= n
    ensures LastN(older + s, n) == LastN(s, n)
  {
  }

  /** `!!satId`: an id is truthy when present and not 0. */
  predicate TruthyId(satId: Option<int>) {
    satId.Some? && satId.value != 0
  }

  /** The effect's guard at line 42: poll only for a truthy id, a present observer and a visible tab. */
  predicate ShouldPoll(satId: Option<int>, observer: Option<ObserverLocation>, visible: bool) {
    TruthyId(satId) && observer.Some? && visible
  }

  /** `isTracking: !!satId && isTabVisible`. */
  predicate IsTracking(satId: Option<int>, visible: bool) {
    TruthyId(satId) && visible
  }

  /**
   * isTracking does not look at the observer: it may be true while nothing
   * polls, exactly when the observer is absent.
   */
  lemma TrackingWithoutObserver(satId: Option<int>, observer: Option<ObserverLocation>, visible: bool)
    ensures ShouldPoll(satId, observer, visible) ==> IsTracking(satId, visible)
    ensures IsTracking(satId, visible) && !ShouldPoll(satId, observer, visible) <==>
              IsTracking(satId, visible) && observer.None?
  {
  }

  class SatelliteTracker {
    var satId: Option<int>
    var observer: Option<ObserverLocation>
    var isTabVisible: bool
    var positions: seq<PositionPoint>
    /** `pollingRef.current`: when the running interval fires next, if one runs. */
    var polling: Option<int>
    /** `abortRef.current`. */
    var abortHandle: Option<Token>
    var aborted: set<Token>
    /** The `fetchPositions` calls suspended at their `await`. */
    var inFlight: map<Token, PositionRequest>
    var nextToken: Token

    /** The bookkeeping of controllers, which holds between any two events. */
    ghost predicate RequestsValid()
      reads this
    {
      Controllers(inFlight, aborted, abortHandle, nextToken)
    }

    ghost predicate Valid()
      reads this
    {
      && RequestsValid()
      // an interval runs exactly when the effect for the current inputs passed its guard
      && (polling.Some? <==> ShouldPoll(satId, observer, isTabVisible))
    }

    function Tracking(): (r: bool)
      reads this
    {
      IsTracking(satId, isTabVisible)
    }

    /** The state one run of the polling effect leaves, its cleanup included. */
    twostate predicate Restarted(now: int, new token: Option<Token>)
      reads this
    {
      && positions == []
      && aborted == old(aborted) + OptionSet(old(abortHandle))
      && if ShouldPoll(satId, observer, isTabVisible) then
           && token == Some(old(nextToken))
           && old(nextToken) !in old(inFlight)
           && abortHandle == token && nextToken == old(nextToken) + 1
           && inFlight == old(inFlight)[old(nextToken) :=
                PositionRequest(satId.value, observer.value, TrajectorySeconds)]
           && polling == Some(now + PollIntervalMs)
         else
           && token == None && abortHandle == None && polling == None
           && inFlight == old(inFlight) && nextToken == old(nextToken)
    }

    /** Mounting with the given arguments and `document.hidden`. */
    constructor (satId: Option<int>, observer: Option<ObserverLocation>, hidden: bool, now: int)
      ensures Valid()
      ensures this.satId == satId && this.observer == observer && isTabVisible == !hidden
      ensures positions == [] && aborted == {}
      ensures ShouldPoll(satId, observer, !hidden) ==>
                && abortHandle == Some(0) && inFlight == map[0 := PositionRequest(satId.value, observer.value, TrajectorySeconds)]
                && polling == Some(now + PollIntervalMs) && nextToken == 1
      ensures !ShouldPoll(satId, observer, !hidden) ==>
                abortHandle == None && inFlight == map[] && polling == None && nextToken == 0
    {
      this.satId := satId;
      this.observer := observer;
      isTabVisible := !hidden;
      positions := [];
      aborted := {};
      nextToken := 0;
      if ShouldPoll(satId, observer, !hidden) {
        abortHandle := Some(0);
        inFlight := map[0 := PositionRequest(satId.value, observer.value, TrajectorySeconds)];
        nextToken := 1;
        polling := Some(now + PollIntervalMs);
      } else {
        abortHandle := None;
        inFlight := map[];
        polling := None;
      }
    }

    /**
     * `fetchPositions` up to its `await`: abort the previous controller, if
     * any, and install a new one for the current target and observer.
     */
    method FetchPositions() returns (token: Token)
      requires RequestsValid() && TruthyId(satId) && observer.Some?
      modifies this`abortHandle, this`aborted, this`inFlight, this`nextToken
      ensures RequestsValid()
      ensures token == old(nextToken) && old(nextToken) !in old(inFlight)
      ensures aborted == old(aborted) + OptionSet(old(abortHandle))
      ensures abortHandle == Some(token) && nextToken == old(nextToken) + 1
      ensures inFlight == old(inFlight)[token := PositionRequest(satId.value, observer.value, TrajectorySeconds)]
    {
      IssueKeepsControllers(inFlight, aborted, abortHandle, nextToken,
                            PositionRequest(satId.value, observer.value, TrajectorySeconds));
      if abortHandle.Some? {
        aborted := aborted + {abortHandle.value};
      }
      token := nextToken;
      nextToken := nextToken + 1;
      abortHandle := Some(token);
      inFlight := inFlight[token := PositionRequest(satId.value, observer.value, TrajectorySeconds)];
    }

    /**
     * One run of the polling effect: the previous run's cleanup and this
     * run's own (clear the interval, abort and clear the handle), emptying the
     * trail, then, past the guard, one immediate fetch and an 8000 ms interval.
     */
    method Restart(now: int) returns (token: Option<Token>)
      requires RequestsValid()
      modifies this`polling, this`abortHandle, this`aborted, this`positions, this`inFlight, this`nextToken
      ensures Valid()
      ensures Restarted(now, token)
    {
      polling := None;
      if abortHandle.Some? {
        aborted := aborted + {abortHandle.value};
        abortHandle := None;
      }
      positions := [];
      if !ShouldPoll(satId, observer, isTabVisible) {
        token := None;
        return;
      }
      var t := FetchPositions();
      token := Some(t);
      polling := Some(now + PollIntervalMs);
    }

    /**
     * A re-render with new arguments. The effect is keyed on satId and the
     * observer's three values, so it reruns exactly when one of them differs.
     */
    method Update(newSatId: Option<int>, newObserver: Option<ObserverLocation>, now: int)
      returns (token: Option<Token>)
      requires Valid()
      modifies this`satId, this`observer
      modifies this`polling, this`abortHandle, this`aborted, this`positions, this`inFlight, this`nextToken
      ensures Valid()
      ensures satId == newSatId && observer == newObserver
      ensures newSatId == old(satId) && newObserver == old(observer) ==>
                && token == None && positions == old(positions) && polling == old(polling)
                && abortHandle == old(abortHandle) && aborted == old(aborted)
                && inFlight == old(inFlight) && nextToken == old(nextToken)
      ensures newSatId != old(satId) || newObserver != old(observer) ==> Restarted(now, token)
    {
      if newSatId == satId && newObserver == observer {
        token := None;
        return;
      }
      satId := newSatId;
      observer := newObserver;
      token := Restart(now);
    }

    /** `visibilitychange`: the flag becomes `!document.hidden`; a change reruns the effect. */
    method VisibilityChange(hidden: bool, now: int) returns (token: Option<Token>)
      requires Valid()
      modifies this`isTabVisible
      modifies this`polling, this`abortHandle, this`aborted, this`positions, this`inFlight, this`nextToken
      ensures Valid()
      ensures isTabVisible == !hidden
      ensures !hidden == old(isTabVisible) ==>
                && token == None && positions == old(positions) && polling == old(polling)
                && abortHandle == old(abortHandle) && aborted == old(aborted)
                && inFlight == old(inFlight) && nextToken == old(nextToken)
      ensures !hidden != old(isTabVisible) ==> Restarted(now, token)
    {
      if !hidden == isTabVisible {
        token := None;
        return;
      }
      isTabVisible := !hidden;
      token := Restart(now);
    }

    /** The interval fires: another `fetchPositions`, and the next firing 8000 ms later. */
    method IntervalFires(now: int) returns (token: Token)
      requires Valid()
      requires polling.Some? && now >= polling.value
      modifies this`polling, this`abortHandle, this`aborted, this`inFlight, this`nextToken
      ensures Valid()
      ensures polling == Some(old(polling).value + PollIntervalMs)
      ensures token == old(nextToken) && old(nextToken) !in old(inFlight)
      ensures aborted == old(aborted) + OptionSet(old(abortHandle))
      ensures abortHandle == Some(token) && nextToken == old(nextToken) + 1
      ensures inFlight == old(inFlight)[token := PositionRequest(satId.value, observer.value, TrajectorySeconds)]
    {
      token := FetchPositions();
      polling := Some(polling.value + PollIntervalMs);
    }

    /**
     * The rest of `fetchPositions` once request `token` settles: a success
     * keeps the last 30 samples; any failure, an AbortError or another,
     * keeps the trail; and the `finally` clears the handle whichever
     * controller it holds.
     */
    method Complete(token: Token, outcome: Result<seq<PositionPoint>, Exception>)
      requires Valid()
      requires token in inFlight
      modifies this`positions, this`abortHandle, this`inFlight
      ensures Valid()
      ensures inFlight == old(inFlight) - {token} && abortHandle == None
      ensures outcome.Success? ==> positions == LastN(outcome.value, MaxTrailPoints)
      ensures outcome.Failure? ==> positions == old(positions)
    {
      SettleKeepsControllers(inFlight, aborted, abortHandle, nextToken, token);
      inFlight := inFlight - {token};
      if outcome.Success? {
        positions := LastN(outcome.value, MaxTrailPoints);
      }
      abortHandle := None;
    }
  }
}
