/** What a route handler answers: a success with its status and JSON body,
    or an error status with the `{ error, ... }` body the source sends. */
module Http {
  import opened Wrappers

  /** The JSON error body. `required`/`balance` appear on 402 answers,
      `details` on validation failures reported by the error handler. */
  datatype ErrorBody = ErrorBody(error: string, required: Option<real>, balance: Option<real>, details: Option<string>)

  datatype Reply<T> = Ok(status: nat, value: T) | Err(status: nat, body: ErrorBody)

  function Fail<T>(status: nat, error: string): (r: Reply<T>)
    ensures r.Err? && r.status == status && r.body.error == error
  {
    Err(status, ErrorBody(error, None, None, None))
  }
}
