/**
 * What the model keeps of the browser's `fetch` and `AbortController`.
 *
 * Each request gets a Token, standing for its AbortController. A request is
 * issued by one event and answered by another that delivers its outcome. An
 * exception is kept as the two properties the source reads: its `name`
 * (compared against "AbortError") and its `message` ("" when it has none).
 */
module Fetch {
  import opened Wrappers

  type Token = nat

  datatype Exception = Exception(name: string, message: string)

  const AbortErrorName: string := "AbortError"

  predicate IsAbortError(e: Exception) {
    e.name == AbortErrorName
  }

  /**
   * The test every `catch` applies: the outcome is taken for a cancellation
   * exactly when it is an exception named "AbortError". Whether the request's
   * controller was aborted is not consulted. The provider and the map view
   * return early on it; the tracker only skips its log line.
   */
  predicate Cancelled<T>(outcome: Result<T, Exception>) {
    outcome.Failure? && IsAbortError(outcome.error)
  }

  /**
   * The bookkeeping of controllers shared by every component that fetches:
   * tokens in flight and aborted tokens were issued already, and a held
   * handle names the newest request, still in flight and not aborted.
   */
  predicate Controllers<R>(inFlight: map<Token, R>, aborted: set<Token>, handle: Option<Token>, next: Token) {
    && (forall t :: t in inFlight ==> t < next)
    && (forall t :: t in aborted ==> t < next)
    && (handle.Some? ==> handle.value in inFlight && handle.value !in aborted && handle.value + 1 == next)
  }

  /** Issuing request `next` keeps the bookkeeping and makes it the held one. */
  lemma IssueKeepsControllers<R>(inFlight: map<Token, R>, aborted: set<Token>, handle: Option<Token>, next: Token, request: R)
    requires Controllers(inFlight, aborted, handle, next)
    ensures next !in inFlight
    ensures Controllers(inFlight[next := request], aborted + OptionSet(handle), Some(next), next + 1)
  {
  }

  /** Settling request `token` and clearing the handle keeps the bookkeeping. */
  lemma SettleKeepsControllers<R>(inFlight: map<Token, R>, aborted: set<Token>, handle: Option<Token>, next: Token, token: Token)
    requires Controllers(inFlight, aborted, handle, next)
    ensures Controllers(inFlight - {token}, aborted, None, next)
  {
  }
}
