/** The `services` slice of the Redux store: the fetched service list and the
    fetch's loading/error flags. */
module ServicesSlice {
  import opened Js
  import opened Types

  const FetchFailedMessage := "Failed to fetch services"
  const DefaultServiceTypeId := 3
  const DefaultClientId := 166

  /** The optional argument of `fetchServices`; an absent property is
      `undefined`. */
  datatype FetchServicesArgs = FetchServicesArgs(serviceTypeId: Option<int>, clientId: Option<int>)

  /** The query `fetchServices` sends: `(serviceTypeId, clientId)`, with the
      destructuring defaults for absent properties. */
  function RequestFor(args: FetchServicesArgs): (r: (int, int))
    ensures args.serviceTypeId.Some? ==> r.0 == args.serviceTypeId.value
    ensures args.serviceTypeId.None? ==> r.0 == 3
    ensures args.clientId.Some? ==> r.1 == args.clientId.value
    ensures args.clientId.None? ==> r.1 == 166
  {
    (match args.serviceTypeId case Some(t) => t case None => DefaultServiceTypeId,
     match args.clientId case Some(c) => c case None => DefaultClientId)
  }

  /** The body of the `fetchServices` thunk, with the awaited request given as
      its outcome. */
  function FetchServices(response: Outcome<seq<Service>>): (r: ThunkResult<seq<Service>>)
    ensures r.Fulfilled? <==> response.Returned?
    ensures r.Fulfilled? ==> r.payload == response.value
    ensures r.Rejected? ==> r.reason != ""
    ensures r.Rejected? && Truthy(response.error.message) ==> r.reason == response.error.message.value
    ensures r.Rejected? && !Truthy(response.error.message) ==> r.reason == "Failed to fetch services"
  {
    match response
    case Returned(services) => Fulfilled(services)
    case Threw(e) => Rejected(OrElse(e.message, FetchFailedMessage))
  }

  datatype ServicesState = ServicesState(services: seq<Service>, loading: bool, error: Option<string>)

  const InitialState := ServicesState([], false, None)

  datatype ServicesAction =
    | ClearServicesError
    | FetchPending
    | FetchFulfilled(services: seq<Service>)
    | FetchRejected(reason: string)

  /** A fetch in flight shows no error. */
  predicate Consistent(s: ServicesState) {
    s.loading ==> s.error.None?
  }

  /** The slice reducer. */
  function Reduce(s: ServicesState, a: ServicesAction): (r: ServicesState)
    ensures Consistent(r)
    ensures r.services != s.services ==> a.FetchFulfilled?
    ensures r.error.Some? ==> a.FetchRejected? || r.error == s.error
  {
    match a
    case ClearServicesError => s.(error := None)
    case FetchPending => s.(loading := true, error := None)
    case FetchFulfilled(services) => s.(loading := false, services := services, error := None)
    case FetchRejected(reason) => s.(loading := false, error := Some(reason))
  }

  /** `pending` raises `loading`, clears `error` and keeps the list. */
  lemma PendingEffect(s: ServicesState)
    ensures Reduce(s, FetchPending) == ServicesState(s.services, true, None)
  {
  }

  /** `fulfilled` replaces the list wholesale, so the same payload twice is the
      same as once. */
  lemma FulfilledReplacesServices(s: ServicesState, services: seq<Service>)
    ensures Reduce(s, FetchFulfilled(services)) == ServicesState(services, false, None)
    ensures Reduce(Reduce(s, FetchFulfilled(services)), FetchFulfilled(services)) == Reduce(s, FetchFulfilled(services))
  {
  }

  /** `rejected` keeps the list already shown. */
  lemma RejectedKeepsServices(s: ServicesState, reason: string)
    ensures Reduce(s, FetchRejected(reason)) == ServicesState(s.services, false, Some(reason))
  {
  }

  /** The store's `services` state, updated in place by one method per case
      reducer. */
  class ServicesStore {
    var services: seq<Service>
    var loading: bool
    var error: Option<string>

    ghost function State(): ServicesState
      reads this
    {
      ServicesState(services, loading, error)
    }

    constructor ()
      ensures State() == InitialState
    {
      services, loading, error := [], false, None;
    }

    method ClearServicesError()
      modifies this`error
      ensures State() == Reduce(old(State()), ServicesAction.ClearServicesError)
    {
      error := None;
    }

    method FetchPending()
      modifies this`loading, this`error
      ensures State() == Reduce(old(State()), ServicesAction.FetchPending)
    {
      loading := true;
      error := None;
    }

    method FetchFulfilled(payload: seq<Service>)
      modifies this
      ensures State() == Reduce(old(State()), ServicesAction.FetchFulfilled(payload))
    {
      loading := false;
      services := payload;
      error := None;
    }

    method FetchRejected(reason: string)
      modifies this`loading, this`error
      ensures State() == Reduce(old(State()), ServicesAction.FetchRejected(reason))
    {
      loading := false;
      error := Some(reason);
    }
  }
}
