/** What a handler returns: a JSON payload with a status code, or an
    `{"error": message}` body with a status code. */
module Responses {
  import opened Entities

  /** The serialised row a successful handler sends back. */
  datatype Payload =
    | UserView(user: User)
    | DormView(dorm: Dorm)
    | LaundryView(laundry: Laundry)
    | SessionView(session: LaundryTime)

  datatype Response = Ok(code: int, payload: Payload) | Err(code: int, message: string)

  /** A success carries the payload; the status is 200 unless the handler names another. */
  function SuccessResponse(data: Payload, code: int := 200): (r: Response)
    ensures r.Ok? && r.payload == data && r.code == code
  {
    Ok(code, data)
  }

  /** A failure carries only the message; the status is 404 unless the handler names another. */
  function FailureResponse(message: string, code: int := 404): (r: Response)
    ensures r.Err? && r.message == message && r.code == code
  {
    Err(code, message)
  }
}
