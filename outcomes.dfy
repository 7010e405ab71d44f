/** Values shared by the three dashboard views: an optional value and the
    outcome of one `fetch` call, as the view's try/catch sees it. */
module Outcomes {

  datatype Option<+T> = None | Some(value: T)

  /** What one request of a view ends in, applied atomically:
      - Thrown: `fetch` rejected, or `response.json()` could not decode the body
        (the body is decoded before `response.ok` is looked at, so a decode
        failure of a non-ok response lands here too);
      - NotOk: the body decoded but the HTTP status is not a success;
      - Ok(payload): the status is a success and the body decoded to `payload`. */
  datatype FetchOutcome<+T> = Thrown | NotOk | Ok(payload: T)

  /** The message every view's `catch` block stores. */
  const NetworkError: string := "Network error"
}
