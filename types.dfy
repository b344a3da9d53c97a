/** The records the screens and the store exchange with the server, reduced to
    the fields the modelled logic reads. */
module Types {
  import opened Js

  datatype LocalizedText = LocalizedText(ar: string, en: string)

  /** One bookable hour of one day. `day` is a `YYYY-MM-DD` string, `hour` an
      `HH:mm` string, `remainingRequests` the capacity the server reports and
      `shift` (the record's `type` field) the shift label shown on confirmation. */
  datatype CalendarSlot = CalendarSlot(
    day: string,
    hour: string,
    remainingRequests: int,
    shift: LocalizedText)

  /** A bookable service as listed on the services screen. */
  datatype Service = Service(
    clientServiceId: int,
    serviceName: LocalizedText,
    serviceStatus: int,
    serviceFees: real)

  datatype LoginRequest = LoginRequest(email: string, password: string)

  datatype CustomerResponse = CustomerResponse(
    customerName: string,
    customerEmail: string,
    customerPhone: string,
    customerGender: string)

  /** The `data` of a successful login response; `customerResponse` may be
      `null` in the JSON. */
  datatype LoginData = LoginData(
    id: int,
    role: string,
    token: string,
    refreshToken: string,
    username: string,
    customerResponse: Option<CustomerResponse>)

  /** A value caught by a thunk's `catch`: its `message` and its
      `response.data.responseMessage`, each possibly absent. */
  datatype Thrown = Thrown(message: Option<string>, responseMessage: Option<string>)

  /** What an awaited call produced: a value, or a thrown error. */
  datatype Outcome<T> = Returned(value: T) | Threw(error: Thrown)

  /** How a `createAsyncThunk` call settles: `fulfilled` with the payload the
      thunk returned, or `rejected` with the value passed to `rejectWithValue`. */
  datatype ThunkResult<T> = Fulfilled(payload: T) | Rejected(reason: string)
}
