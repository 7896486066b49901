/** The frontend's global state (`lib/store.ts`): the device's token status as the
    backend last reported it, a loading flag and an error message.

    `fetchTokenStatus` is split at its one `await`: `FetchBegun` is the state while
    the request is in flight and `FetchSettled` the state once it has answered.
    The request's outcome is a parameter: the status, or the value it threw. */
module Store {
  import opened Common
  import opened ApiClient

  /** A thrown value: an `Error` with its message, or anything else. */
  datatype Thrown = ErrorObject(message: string) | NonError

  const FetchFailedMessage: string := "Failed to fetch token status"

  datatype StoreState = StoreState(tokenStatus: Option<TokenStatus>, isLoading: bool, error: Option<string>)

  /** The store as created: no status, not loading, no error. */
  const Initial: StoreState := StoreState(None, false, None)

  /** The message a failed fetch leaves in `error`. */
  function FailureMessage(t: Thrown): (m: string)
    ensures t.ErrorObject? ==> m == t.message
    ensures t.NonError? ==> m == FetchFailedMessage
  {
    match t
    case ErrorObject(message) => message
    case NonError => FetchFailedMessage
  }

  /** The state while a fetch is in flight. */
  function FetchBegun(s: StoreState): StoreState {
    s.(isLoading := true, error := None)
  }

  /** The state once the fetch has answered. */
  function FetchSettled(s: StoreState, outcome: Result<TokenStatus, Thrown>): StoreState {
    match outcome
    case Ok(status) => s.(tokenStatus := Some(status), isLoading := false)
    case Err(t) => s.(error := Some(FailureMessage(t)), isLoading := false)
  }

  /** A whole fetch: it always ends not loading; on success the status is exactly the
      one reported and no error remains, on failure the previous status is kept and
      the error holds the thrown message. */
  lemma FetchEndsSettled(s: StoreState, outcome: Result<TokenStatus, Thrown>)
    ensures var during := FetchBegun(s);
      var after := FetchSettled(during, outcome);
      && during.isLoading && during.error == None && during.tokenStatus == s.tokenStatus
      && !after.isLoading
      && (outcome.Ok? ==> after.tokenStatus == Some(outcome.value) && after.error == None)
      && (outcome.Err? ==> after.tokenStatus == s.tokenStatus && after.error == Some(FailureMessage(outcome.error)))
  {
  }

  /** A successful fetch after a failed one clears the error and shows the new status. */
  lemma SuccessClearsEarlierError(s: StoreState, failure: Thrown, status: TokenStatus)
    ensures var failed := FetchSettled(FetchBegun(s), Err(failure));
      FetchSettled(FetchBegun(failed), Ok(status)) == StoreState(Some(status), false, None)
  {
  }

  /** The store's scenarios: a fetch from the initial state stores the reported status;
      a rejected request leaves its message; setting and clearing an error. */
  lemma StoreScenarios(status: TokenStatus, message: string)
    ensures FetchSettled(FetchBegun(Initial), Ok(status)) == StoreState(Some(status), false, None)
    ensures FetchSettled(FetchBegun(Initial), Err(ErrorObject(message))) == StoreState(None, false, Some(message))
    ensures FetchSettled(FetchBegun(Initial), Err(NonError)) == StoreState(None, false, Some(FetchFailedMessage))
  {
  }

  /** `useAppStore`. */
  class AppStore {
    var tokenStatus: Option<TokenStatus>
    var isLoading: bool
    var error: Option<string>

    constructor ()
      ensures State() == Initial
    {
      tokenStatus, isLoading, error := None, false, None;
    }

    function State(): StoreState
      reads this
    {
      StoreState(tokenStatus, isLoading, error)
    }

    /** `fetchTokenStatus`; `during` is the state seen while the request is in flight. */
    method FetchTokenStatus(outcome: Result<TokenStatus, Thrown>) returns (during: StoreState)
      modifies this
      ensures during == FetchBegun(old(State()))
      ensures State() == FetchSettled(during, outcome)
    {
      isLoading, error := true, None;
      during := State();
      match outcome {
        case Ok(status) =>
          tokenStatus, isLoading := Some(status), false;
        case Err(t) =>
          error, isLoading := Some(FailureMessage(t)), false;
      }
    }

    /** `setError`. */
    method SetError(e: Option<string>)
      modifies this
      ensures State() == old(State()).(error := e)
    {
      error := e;
    }

    /** `clearError`. */
    method ClearError()
      modifies this
      ensures State() == old(State()).(error := None)
    {
      error := None;
    }
  }
}
