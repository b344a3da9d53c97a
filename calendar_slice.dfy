/** The `calendar` slice of the Redux store: the fetched slots, the fetch's
    loading/error/message flags and the slot the user last picked. */
module CalendarSlice {
  import opened Js
  import opened Types

  const FetchFailedMessage := "Failed to fetch calendar data"

  /** The server's answer to the calendar set-up request. */
  datatype CalendarResponse = CalendarResponse(data: seq<CalendarSlot>, responseMessage: string)

  /** What `fetchCalendarSetup` fulfils with. */
  datatype CalendarPayload = CalendarPayload(data: seq<CalendarSlot>, message: string)

  /** The body of the `fetchCalendarSetup` thunk, with the awaited request
      given as its outcome. */
  function FetchCalendarSetup(response: Outcome<CalendarResponse>): (r: ThunkResult<CalendarPayload>)
    ensures r.Fulfilled? <==> response.Returned?
    ensures r.Fulfilled? ==>
              r.payload.data == response.value.data && r.payload.message == response.value.responseMessage
    ensures r.Rejected? ==> r.reason != ""
    ensures r.Rejected? && Truthy(response.error.message) ==> r.reason == response.error.message.value
    ensures r.Rejected? && !Truthy(response.error.message) ==> r.reason == FetchFailedMessage
  {
    match response
    case Returned(res) => Fulfilled(CalendarPayload(res.data, res.responseMessage))
    case Threw(e) => Rejected(OrElse(e.message, FetchFailedMessage))
  }

  datatype CalendarState = CalendarState(
    slots: seq<CalendarSlot>,
    loading: bool,
    error: Option<string>,
    message: Option<string>,
    selectedSlot: Option<CalendarSlot>)

  const InitialState := CalendarState([], false, None, None, None)

  /** The slice's actions: its three reducers and the three settlements of
      `fetchCalendarSetup`. */
  datatype CalendarAction =
    | SelectSlot(slot: CalendarSlot)
    | ClearSelectedSlot
    | ClearCalendarError
    | FetchPending
    | FetchFulfilled(payload: CalendarPayload)
    | FetchRejected(reason: string)

  /** An error and a server message are never shown together, and a fetch in
      flight shows neither. */
  predicate Consistent(s: CalendarState) {
    && !(s.error.Some? && s.message.Some?)
    && (s.loading ==> s.error.None? && s.message.None?)
  }

  /** The slice reducer. */
  function Reduce(s: CalendarState, a: CalendarAction): (r: CalendarState)
    ensures Consistent(s) ==> Consistent(r)
    ensures r.slots != s.slots ==> a.FetchFulfilled?
    ensures r.selectedSlot != s.selectedSlot ==> a.SelectSlot? || a.ClearSelectedSlot?
  {
    match a
    case SelectSlot(slot) => s.(selectedSlot := Some(slot))
    case ClearSelectedSlot => s.(selectedSlot := None)
    case ClearCalendarError => s.(error := None, message := None)
    case FetchPending => s.(loading := true, error := None, message := None)
    case FetchFulfilled(p) => s.(loading := false, slots := p.data, message := Some(p.message), error := None)
    case FetchRejected(reason) => s.(loading := false, error := Some(reason), message := None)
  }

  /** The state after dispatching `actions` in order. */
  function ReduceAll(s: CalendarState, actions: seq<CalendarAction>): CalendarState
    decreases |actions|
  {
    if actions == [] then s else ReduceAll(Reduce(s, actions[0]), actions[1..])
  }

  lemma {:induction false} ReduceAllConsistent(s: CalendarState, actions: seq<CalendarAction>)
    requires Consistent(s)
    ensures Consistent(ReduceAll(s, actions))
    decreases |actions|
  {
    if actions != [] {
      ReduceAllConsistent(Reduce(s, actions[0]), actions[1..]);
    }
  }

  /** Starting from the initial state, no sequence of actions shows an error
      and a message at once. */
  lemma ReachableStatesConsistent(actions: seq<CalendarAction>)
    ensures Consistent(ReduceAll(InitialState, actions))
  {
    ReduceAllConsistent(InitialState, actions);
  }

  /** `pending` raises `loading`, clears error and message, and keeps the
      slots and the selection. */
  lemma PendingEffect(s: CalendarState)
    ensures Reduce(s, FetchPending) == CalendarState(s.slots, true, None, None, s.selectedSlot)
  {
  }

  /** `fulfilled` replaces the slots wholesale, whatever they were, so
      receiving the same payload again changes nothing. */
  lemma FulfilledReplacesSlots(s: CalendarState, p: CalendarPayload)
    ensures Reduce(s, FetchFulfilled(p)) == CalendarState(p.data, false, None, Some(p.message), s.selectedSlot)
    ensures Reduce(Reduce(s, FetchFulfilled(p)), FetchFulfilled(p)) == Reduce(s, FetchFulfilled(p))
  {
  }

  /** `rejected` keeps the slots already shown. */
  lemma RejectedKeepsSlots(s: CalendarState, reason: string)
    ensures Reduce(s, FetchRejected(reason)) == CalendarState(s.slots, false, Some(reason), None, s.selectedSlot)
  {
  }

  /** One dispatch of `fetchCalendarSetup`: `pending`, then the thunk's
      settlement. */
  function Fetch(s: CalendarState, response: Outcome<CalendarResponse>): (r: CalendarState)
    ensures Consistent(r) && !r.loading && r.selectedSlot == s.selectedSlot
    ensures response.Returned? ==>
              r.slots == response.value.data && r.error.None? && r.message == Some(response.value.responseMessage)
    ensures response.Threw? ==>
              && r.slots == s.slots && r.message.None?
              && r.error == Some(OrElse(response.error.message, FetchFailedMessage))
  {
    var pending := Reduce(s, FetchPending);
    match FetchCalendarSetup(response)
    case Fulfilled(p) => Reduce(pending, FetchFulfilled(p))
    case Rejected(reason) => Reduce(pending, FetchRejected(reason))
  }

  /** Fetching twice with the same server answer leaves the state the first
      fetch produced (last write wins; nothing is merged or duplicated). */
  lemma RefetchIdempotent(s: CalendarState, response: Outcome<CalendarResponse>)
    ensures Fetch(Fetch(s, response), response) == Fetch(s, response)
  {
  }

  /** The store's `calendar` state, updated in place by one method per case
      reducer. */
  class CalendarStore {
    var slots: seq<CalendarSlot>
    var loading: bool
    var error: Option<string>
    var message: Option<string>
    var selectedSlot: Option<CalendarSlot>

    ghost function State(): CalendarState
      reads this
    {
      CalendarState(slots, loading, error, message, selectedSlot)
    }

    constructor ()
      ensures State() == InitialState
    {
      slots, loading, error, message, selectedSlot := [], false, None, None, None;
    }

    method SelectSlot(slot: CalendarSlot)
      modifies this`selectedSlot
      ensures State() == Reduce(old(State()), CalendarAction.SelectSlot(slot))
    {
      selectedSlot := Some(slot);
    }

    method ClearSelectedSlot()
      modifies this`selectedSlot
      ensures State() == Reduce(old(State()), CalendarAction.ClearSelectedSlot)
    {
      selectedSlot := None;
    }

    method ClearCalendarError()
      modifies this`error, this`message
      ensures State() == Reduce(old(State()), CalendarAction.ClearCalendarError)
    {
      error := None;
      message := None;
    }

    method FetchPending()
      modifies this`loading, this`error, this`message
      ensures State() == Reduce(old(State()), CalendarAction.FetchPending)
    {
      loading := true;
      error := None;
      message := None;
    }

    method FetchFulfilled(payload: CalendarPayload)
      modifies this`loading, this`slots, this`message, this`error
      ensures State() == Reduce(old(State()), CalendarAction.FetchFulfilled(payload))
    {
      loading := false;
      slots := payload.data;
      message := Some(payload.message);
      error := None;
    }

    method FetchRejected(reason: string)
      modifies this`loading, this`error, this`message
      ensures State() == Reduce(old(State()), CalendarAction.FetchRejected(reason))
    {
      loading := false;
      error := Some(reason);
      message := None;
    }
  }
}
