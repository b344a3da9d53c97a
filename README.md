# e7gezly booking client: a Dafny model of its core

e7gezly is a React Native app for booking medical services. This project
models its core and proves properties of that model. The core has two parts.

- The Redux store's three slices: `calendar`, `auth` and `services`. Each has
  its initial state, its case reducers and its async thunk bodies.
- Three screens:
  - the calendar screen groups the fetched slots by day, lists the days as a
    sorted strip, shows the chosen day's slots with their availability, and
    runs a confirmation dialog;
  - the login form checks its fields before dispatching `login`;
  - the services list applies small display rules to each card.

Modules:

- `Js` (`js.dfy`) holds the JavaScript semantics the code relies on:
  - `null`/`undefined` as `Option`;
  - string truthiness, and `a || fallback` on strings;
  - the truncating `%`;
  - the `\s` whitespace class.
- `StringOrder` (`string_order.dfy`) holds the default order of
  `Array.prototype.sort` on strings and a sort proved against it. That order
  is lexicographic by character, and a proper prefix comes first.
- `Types` (`types.dfy`) holds the records: slots, services, login data, and
  thunk outcomes. A thrown error is a value carrying an optional `message`
  and an optional server `responseMessage`.
- `CalendarSlice`, `AuthSlice` and `ServicesSlice` model the three slices.
  Each slice is given twice:
  - a pure reducer `Reduce(state, action)`, whose contract states the
    invariant the reducer keeps;
  - a store class with one method per case reducer. Each method updates only
    the fields that case assigns, and its contract ties the new state to
    `Reduce`.
- `ScreenView` holds the precedence that both list screens use to choose
  between the skeleton, the error view and the content.
- `CalendarScreen`, `LoginScreen` and `ServicesScreen` model the screens.
  - The grouping `forEach` is a method with a loop invariant.
  - The screen's `useState` fields become a `BookingSession` class. It holds a
    reference to the calendar store, which a slot press also updates.
  - The login form is a `LoginForm` class.

Behaviour of the code that a reader might not expect, which the model keeps:

- When the post-confirmation timer fires, the dialog closes but the chosen
  date stays (`CalendarScreen.BookingSession.TimerFires`).
- The "few left" warning colour is chosen by `remainingRequests <= 3`. It
  therefore also marks fully booked slots (0) and negative counts, and no
  count is clamped (`CalendarScreen.SlotsColor`).
- Cancelling the dialog keeps the store's `selectedSlot`
  (`CalendarScreen.BookingSession.HandleCancelBooking`).
- Pressing a date sets it without checking that it is in the strip.
- Confirming a booking sends nothing; it only shows the success view.
- `login` rejects with the server's reason only when the thrown error carries
  `response.data.responseMessage` (`AuthSlice.Login`). The request helper in
  `src/services/api/auth/index.ts` throws a plain `Error` whose `message`
  holds the server's text, so such an error reaches the thunk as one without
  `responseMessage`, and the rejection carries the fixed fallback message.

## Model

| member | source | states |
|---|---|---|
| CalendarSlice.FetchCalendarSetup | src/store/slices/calendarSlice.ts:27-35 | The thunk fulfils exactly when the request returns, with the response's slots and message. A failure rejects with a non-empty reason: the error's message when it is truthy, otherwise 'Failed to fetch calendar data'. |
| CalendarSlice.Reduce | src/store/slices/calendarSlice.ts:43-71 | Every case keeps an error and a message from showing together, and keeps both clear while loading. Only `fulfilled` changes the slots. Only `selectSlot`/`clearSelectedSlot` change the selection. |
| CalendarSlice.ReduceAllConsistent | src/store/slices/calendarSlice.ts:42-71 | Any sequence of actions from a consistent state ends in a consistent state. |
| CalendarSlice.ReachableStatesConsistent | src/store/slices/calendarSlice.ts:13-71 | Every state reachable from the initial state is consistent. |
| CalendarSlice.PendingEffect | src/store/slices/calendarSlice.ts:56-60 | `pending` sets loading and clears error and message. It keeps the slots and the selection. |
| CalendarSlice.FulfilledReplacesSlots | src/store/slices/calendarSlice.ts:61-66 | `fulfilled` replaces the slots wholesale and stores the message. Applying the same payload twice equals applying it once. |
| CalendarSlice.RejectedKeepsSlots | src/store/slices/calendarSlice.ts:67-71 | `rejected` records the reason, clears the message and keeps the previous slots. |
| CalendarSlice.RefetchIdempotent | src/store/slices/calendarSlice.ts:56-71 | A whole fetch (pending, then its settlement) repeated with the same server answer leaves the state of the first fetch: last write wins, nothing is merged. |
| CalendarSlice.Fetch | src/store/slices/calendarSlice.ts:27-71 | One whole dispatch of `fetchCalendarSetup` (pending, then its settlement) always ends consistent, not loading, with the selection kept. A returned answer replaces the slots and shows its message. A throw keeps the slots and shows the error's message or the fallback. |
| CalendarSlice.CalendarStore.constructor | src/store/slices/calendarSlice.ts:13-19 | The store starts in the initial state. |
| CalendarSlice.CalendarStore.SelectSlot | src/store/slices/calendarSlice.ts:43-45 | Assigns only `selectedSlot`; the new state is `Reduce` of the old one. |
| CalendarSlice.CalendarStore.ClearSelectedSlot | src/store/slices/calendarSlice.ts:46-48 | Assigns only `selectedSlot`, to null, as `Reduce` does. |
| CalendarSlice.CalendarStore.ClearCalendarError | src/store/slices/calendarSlice.ts:49-52 | Assigns only `error` and `message`, as `Reduce` does. |
| CalendarSlice.CalendarStore.FetchPending | src/store/slices/calendarSlice.ts:56-60 | Assigns only `loading`, `error` and `message`, as `Reduce` does. |
| CalendarSlice.CalendarStore.FetchFulfilled | src/store/slices/calendarSlice.ts:61-66 | Assigns `loading`, `slots`, `message` and `error`, as `Reduce` does. |
| CalendarSlice.CalendarStore.FetchRejected | src/store/slices/calendarSlice.ts:67-71 | Assigns `loading`, `error` and `message`, as `Reduce` does. |
| AuthSlice.Login | src/store/slices/authSlice.ts:43-60 | `login` fulfils exactly when the request returns, the token is saved and a customer record is present. The payload carries the identity, with `id` as `userId`. A rejection carries the server's truthy `responseMessage`, otherwise the fixed fallback message. |
| AuthSlice.PlainErrorRejectsWithFallback | src/store/slices/authSlice.ts:57-60 | A thrown error without `responseMessage`, such as the plain `Error` the request helper throws, rejects with the fixed fallback message whatever its `message` says. |
| AuthSlice.Reduce | src/store/slices/authSlice.ts:76-125 | Keeps "authenticated implies a token" and "loading implies no error". Only `login.fulfilled`, `logout.fulfilled` and `checkAuthStatus.fulfilled` change the token. Only `login.fulfilled` and `checkAuthStatus.fulfilled` authenticate. |
| AuthSlice.ReduceAllConsistent | src/store/slices/authSlice.ts:84-125 | Any sequence of actions from a consistent state ends in a consistent state. |
| AuthSlice.ReachableStatesConsistent | src/store/slices/authSlice.ts:21-125 | From the initial state, an authenticated state always holds a token. |
| AuthSlice.LoginPendingEffect | src/store/slices/authSlice.ts:84-87 | `login.pending` sets loading and clears the error, and changes nothing else. |
| AuthSlice.LoginFulfilledEffect | src/store/slices/authSlice.ts:88-101 | The whole new state: the nine identity fields hold the payload's values, the flag is set, and loading and the error are cleared. |
| AuthSlice.LoginRejectedEffect | src/store/slices/authSlice.ts:102-105 | The whole new state: only loading (cleared) and the error change. The error is the payload when truthy, otherwise the fixed fallback message. |
| AuthSlice.RejectionThenClearError | src/screens/LoginScreen.tsx:44-55 | The login screen's `clearError` after a rejection leaves no error and the identity untouched. |
| AuthSlice.LogoutEffect | src/store/slices/authSlice.ts:107-118 | `logout.fulfilled` clears the nine identity fields and the flag, and leaves loading and the error alone. |
| AuthSlice.CheckAuthStatusEffect | src/store/slices/authSlice.ts:120-125 | A truthy stored token authenticates with that token. Otherwise the state is unchanged. It never signs out. |
| AuthSlice.AuthStore.constructor | src/store/slices/authSlice.ts:21-34 | The store starts in the initial state. |
| AuthSlice.AuthStore.ClearError | src/store/slices/authSlice.ts:77-79 | Assigns only `error`, as `Reduce` does. |
| AuthSlice.AuthStore.LoginPending | src/store/slices/authSlice.ts:84-87 | Assigns only `loading` and `error`, as `Reduce` does. |
| AuthSlice.AuthStore.AssignIdentity | src/store/slices/authSlice.ts:107-116 | Assigns exactly the nine identity fields, which both `login.fulfilled` and `logout.fulfilled` write. |
| AuthSlice.AuthStore.LoginFulfilled | src/store/slices/authSlice.ts:88-101 | The new state is `Reduce` of the old one under `login.fulfilled`. |
| AuthSlice.AuthStore.LoginRejected | src/store/slices/authSlice.ts:102-105 | Assigns only `loading` and `error`, as `Reduce` does. |
| AuthSlice.AuthStore.LogoutFulfilled | src/store/slices/authSlice.ts:107-118 | Assigns only the identity fields and the flag, as `Reduce` does. |
| AuthSlice.AuthStore.CheckAuthStatusFulfilled | src/store/slices/authSlice.ts:120-125 | Assigns only `token` and `isAuthenticated`, and only for a truthy token, as `Reduce` does. |
| ServicesSlice.RequestFor | src/store/slices/servicesSlice.ts:19 | An absent `serviceTypeId` defaults to 3 and an absent `clientId` to 166. Given values are passed through. |
| ServicesSlice.FetchServices | src/store/slices/servicesSlice.ts:20-25 | Fulfils exactly when the request returns, with its list. Rejects with the error's truthy message, otherwise 'Failed to fetch services'. |
| ServicesSlice.Reduce | src/store/slices/servicesSlice.ts:33-51 | Every resulting state shows no error while loading. Only `fulfilled` changes the list. An error appears only through `rejected`. |
| ServicesSlice.PendingEffect | src/store/slices/servicesSlice.ts:39-42 | `pending` sets loading, clears the error and keeps the list. |
| ServicesSlice.FulfilledReplacesServices | src/store/slices/servicesSlice.ts:43-47 | `fulfilled` replaces the list wholesale. The same payload twice equals once. |
| ServicesSlice.RejectedKeepsServices | src/store/slices/servicesSlice.ts:48-51 | `rejected` records the reason and keeps the previous list. |
| ServicesSlice.ServicesStore.constructor | src/store/slices/servicesSlice.ts:11-15 | The store starts in the initial state. |
| ServicesSlice.ServicesStore.ClearServicesError | src/store/slices/servicesSlice.ts:33-35 | Assigns only `error`, as `Reduce` does. |
| ServicesSlice.ServicesStore.FetchPending | src/store/slices/servicesSlice.ts:39-42 | Assigns only `loading` and `error`, as `Reduce` does. |
| ServicesSlice.ServicesStore.FetchFulfilled | src/store/slices/servicesSlice.ts:43-47 | Assigns `loading`, `services` and `error`, as `Reduce` does. |
| ServicesSlice.ServicesStore.FetchRejected | src/store/slices/servicesSlice.ts:48-51 | Assigns only `loading` and `error`, as `Reduce` does. |
| ScreenView.ChooseView | src/screens/ServicesScreen.tsx:100-106 | The skeleton shows exactly while loading with nothing listed. The error view shows exactly when not loading, nothing is listed and the error is truthy, and it carries that error. Anything listed is shown. The calendar screen uses the same precedence (src/screens/CalendarScreen.tsx:98-104). |
| StringOrder.Sort | src/screens/CalendarScreen.tsx:58 | The result of `sort()` is in ascending string order and a permutation of its input. |
| StringOrder.SortDistinct | src/screens/CalendarScreen.tsx:58 | Sorting distinct keys gives a strictly ascending sequence. |
| StringOrder.LessIrreflexive | src/screens/CalendarScreen.tsx:58 | No string is less than itself in the order `sort()` uses. |
| StringOrder.LessAsymmetric | src/screens/CalendarScreen.tsx:58 | The order never holds both ways. |
| StringOrder.LessTransitive | src/screens/CalendarScreen.tsx:58 | The order is transitive. |
| StringOrder.LessTotal | src/screens/CalendarScreen.tsx:58 | Any two different strings are ordered one way or the other. |
| CalendarScreen.DayOrder | src/screens/CalendarScreen.tsx:50-56 | The object's keys are distinct, include every slot's day, and are all days some slot has. |
| CalendarScreen.SlotsOnCounts | src/screens/CalendarScreen.tsx:50-56 | A day's bucket holds each slot of that day exactly as often as the input does, and nothing else. |
| CalendarScreen.GroupingStepKnownDay | src/screens/CalendarScreen.tsx:55 | Appending a slot to the bucket its day already has extends the grouping of a prefix to the next prefix. |
| CalendarScreen.GroupingStepNewDay | src/screens/CalendarScreen.tsx:52-55 | Creating the bucket for a new day and appending the slot extends the grouping of a prefix to the next prefix, with the day as the last key. |
| CalendarScreen.GroupOfGroups | src/screens/CalendarScreen.tsx:50-56 | The object the loop builds, with its key order, is a grouping of the slots: one key per distinct day in order of first appearance, each holding exactly that day's slots in input order. |
| CalendarScreen.GroupSlots | src/screens/CalendarScreen.tsx:50-56 | The loop ends with the object `GroupOf` describes and the key order `DayOrder` describes, so with one key per distinct day in order of first appearance. Each key holds exactly that day's slots in input order. |
| CalendarScreen.GroupingKeepsEverySlot | src/screens/CalendarScreen.tsx:50-56 | The bucket lengths add up to the number of slots: nothing is dropped or duplicated. |
| CalendarScreen.DatesAreSortedDays | src/screens/CalendarScreen.tsx:58 | The date strip is strictly ascending and lists every day with a slot and nothing else. No slots give no dates. |
| CalendarScreen.Dates | src/screens/CalendarScreen.tsx:58 | The strip is the day keys in non-decreasing string order, as a permutation of the keys. |
| CalendarScreen.DisplayedSlotsAreThatDay | src/screens/CalendarScreen.tsx:106 | `DisplayedSlots` is exactly the chosen day's slots in input order. It is empty when no day is chosen or the day has no slots. |
| CalendarScreen.SlotsColor | src/screens/CalendarScreen.tsx:205 | The warning colour '#FF6B6B' shows exactly when at most 3 requests remain, otherwise '#666'. |
| CalendarScreen.UnavailableSlotsWarn | src/screens/CalendarScreen.tsx:204-205 | Every slot that `IsAvailable` rejects (no capacity left) shows the warning colour. |
| CalendarScreen.BookingSession.constructor | src/screens/CalendarScreen.tsx:36-39 | No date is chosen, the dialog is closed, no slot is pending and no success is shown. |
| CalendarScreen.BookingSession.Render | src/screens/CalendarScreen.tsx:98-106 | The screen follows the skeleton/error/content precedence. Content carries the strictly ascending strip of exactly the days with slots, and the chosen day's slots. |
| CalendarScreen.BookingSession.HandleDatePress | src/screens/CalendarScreen.tsx:60-62 | The pressed date becomes the chosen date, unchecked, and nothing else changes. |
| CalendarScreen.BookingSession.HandleSlotPress | src/screens/CalendarScreen.tsx:64-69 | The store's selection is set through `Reduce`. The dialog opens on the slot with the success view off, and the session invariant holds. |
| CalendarScreen.BookingSession.PressSlotCard | src/screens/CalendarScreen.tsx:204-219 | A slot that `IsAvailable` accepts opens the dialog on it. A slot without capacity changes nothing in the session or the store. |
| CalendarScreen.BookingSession.HandleConfirmBooking | src/screens/CalendarScreen.tsx:71-74 | Only the success view turns on. It keeps the session invariant when the dialog is open. |
| CalendarScreen.BookingSession.TimerFires | src/screens/CalendarScreen.tsx:75-79 | Closes the dialog, drops the pending slot and the success view. Keeps the chosen date. |
| CalendarScreen.BookingSession.HandleCancelBooking | src/screens/CalendarScreen.tsx:82-86 | Closes the dialog and drops the pending slot. The date and the store's selection stay. |
| LoginScreen.EmailShapeIsPattern | src/screens/LoginScreen.tsx:58 | The direct check accepts a text if and only if `/^[^\s@]+@[^\s@]+\.[^\s@]+$/` matches the whole text. |
| LoginScreen.CheckEmail | src/screens/LoginScreen.tsx:57-69 | Valid exactly when the pattern matches, and then the error line is empty. An empty text gives 'Email is required'; any other failing text gives 'Please enter a valid email'. |
| LoginScreen.CheckPassword | src/screens/LoginScreen.tsx:71-82 | Valid exactly when the length is at least 6, and then the error line is empty. An empty text gives 'Password is required'; a shorter one 'Password must be at least 6 characters'. |
| LoginScreen.LoginForm.constructor | src/screens/LoginScreen.tsx:27-30 | All four fields start empty. |
| LoginScreen.LoginForm.ValidateEmail | src/screens/LoginScreen.tsx:57-69 | Sets the e-mail error line to the verdict on the text, and answers its validity. |
| LoginScreen.LoginForm.ValidatePassword | src/screens/LoginScreen.tsx:71-82 | Sets the password error line to the verdict on the text, and answers its validity. |
| LoginScreen.LoginForm.HandleLogin | src/screens/LoginScreen.tsx:84-91 | Refreshes both error lines. It dispatches `login` with the two fields exactly when the e-mail matches the pattern and the password has at least 6 characters. |
| LoginScreen.LoginForm.ChangeEmail | src/screens/LoginScreen.tsx:123-128 | Stores the text. It re-validates only while an error is shown, so a shown error always describes the current text. |
| LoginScreen.LoginForm.BlurEmail | src/screens/LoginScreen.tsx:129 | Always validates the current e-mail. |
| LoginScreen.LoginForm.ChangePassword | src/screens/LoginScreen.tsx:150-155 | Stores the text. It re-validates only while an error is shown. |
| LoginScreen.LoginForm.BlurPassword | src/screens/LoginScreen.tsx:156 | Always validates the current password. |
| ServicesScreen.IconBackground | src/screens/ServicesScreen.tsx:52-55 | For a non-negative index, the colour is `iconColors[index % 5]`. Any colour returned is one of the five. The result is `undefined` exactly for a negative index that is not a multiple of 5. |
| ServicesScreen.IconBackgroundCycles | src/screens/ServicesScreen.tsx:54 | Cards `i` and `i + 5k` (i ≥ 0) share their icon background. |
| ServicesScreen.StatusLabel | src/screens/ServicesScreen.tsx:84-86 | 'Available' exactly when `serviceStatus === 1`, otherwise 'Busy'. |
| ServicesScreen.FeeLabelOf | src/screens/ServicesScreen.tsx:88-92 | The fee is shown, as it is, exactly when it is positive. Zero and negative fees read 'Free'. |
| ServicesScreen.CardFor | src/screens/ServicesScreen.tsx:57-98 | A card shows the service's two names, the colour for its index, 'Available' exactly when `serviceStatus === 1`, and a price exactly when the fee is positive. |
| ServicesScreen.Cards | src/screens/ServicesScreen.tsx:118-121 | One card per service, in list order, with the card's index as its position. |
| ServicesScreen.Render | src/screens/ServicesScreen.tsx:100-128 | Skeleton exactly while loading with an empty list. Error view exactly when not loading, the list is empty and the error is truthy. Otherwise the list, even alongside an error. |
| ServicesScreen.RefreshShowsList | src/store/slices/servicesSlice.ts:43-47 | After a successful fetch the screen shows the new list, whatever it showed before. |
| ServicesScreen.FailedRefreshKeepsList | src/store/slices/servicesSlice.ts:48-51 | After a failed fetch, a non-empty list stays on screen instead of the error view. |

## Left out

- HTTP requests (`ServicesApi`, `AuthApi`) are network I/O. Each thunk receives the request's outcome as a parameter: a returned value or a thrown error.
- Token storage (`StorageService`) is I/O.
  - `Login` receives whether saving the token succeeded.
  - `checkAuthStatus` receives the stored token.
  - `logout`'s storage removal is not modelled, and neither is its rejection, which no reducer handles.
- AuthSlice.Login: the source saves the token before it reads `customerResponse`. When that read throws, the token stays saved although `login` rejects; the model does not record that write.
- Real time is not modelled. The 2-second timer is an explicit `TimerFires` step. The source never cancels that timer, so it also fires after the screen is gone. It also fires after a newer slot press, and then clears that newer selection; the model shows the effect but does not model the schedule.
- Date formatting (`toLocaleDateString`), toasts, navigation, skeleton and style components are presentation.
- Demo mode and mock data are left out. Both screens read `demoMode` from the auth state, which has no such field.
- Thunk arguments are left out. The calendar screen passes `{ serviceId, demoMode }` where `fetchCalendarSetup` expects a number, and the services screen passes `demoMode` where `fetchServices` expects its options. Both are forwarded only to the HTTP request.
- Redux plumbing (`createSlice`, `dispatch`, selectors, action creators) is left out; actions are datatype values.
- CalendarScreen.DayOrder assumes day keys are ordinary strings, as ISO dates are. JavaScript objects list integer-like keys first, and inherited names such as `constructor` would look present before any slot has that day.
- StringOrder.Less compares `char`s, which are Unicode scalar values. JavaScript compares UTF-16 code units, which orders characters beyond the Basic Multilingual Plane differently.
- LoginScreen.CheckPassword counts sequence elements where the source counts UTF-16 code units.
- Slot fields that the core does not read (`hour`, `shift`) are carried but not constrained. Service fields other than the ones the card reads are dropped.
- ServicesScreen.FeeLabelOf keeps the fee as a real number; JavaScript's number-to-text formatting is not modelled.
- The login screen's redirect on `isAuthenticated` and its password-visibility toggle are navigation and presentation.
- LoginScreen.LoginForm.HandleLogin, ChangeEmail and ChangePassword take no `loading` input. While `auth.loading` is set, the source makes both fields read-only and disables the Login button; the model lets these handlers run in that state.
