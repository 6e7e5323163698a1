/** What the screens exchange with the remote service through axios, and the
    alert a screen shows about it. */
module Http {
  import opened Js

  /** What a request made with axios delivers: a 2xx response resolves with
      its decoded body; a network failure or any other status rejects. */
  datatype AxiosOutcome = Resolved(data: Value) | Rejected

  /** The `{success, message}` record a screen shows as an alert. */
  datatype Status = Status(success: bool, message: string)
}
