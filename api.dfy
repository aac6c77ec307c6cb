/** What every route handler shares: how a JSON field is tested for presence,
    the `{ success, message, ... }` reply with its HTTP status, and the
    catch block that turns a thrown error into a 503 or a 500. */
module Api {
  import opened Wrappers

  /** JavaScript truthiness of a string field read from a JSON body or a query
      string: absent (`undefined`/`null`) and `""` are both falsy. */
  predicate Present(v: Option<string>) {
    v.Some? && v.value != ""
  }

  /** The `name` of an error thrown by the database driver (or by
      `new ObjectId(...)`), as far as the catch blocks look at it. */
  datatype DbError = MongoNetworkError | OtherError

  /** A reply: `success: true` with status 200, the payload and the message
      (`""` where the JSON carries none), or `success: false` with a status
      and a message. */
  datatype Reply<+T> = Ok(body: T, message: string) | Fail(status: nat, message: string)

  const InternalError := "An internal server error occurred."
  const DatabaseUnavailable := "Database connection error."

  /** The catch block: a network-level database failure is a 503 with the
      route's `unavailable` message, anything else a 500. */
  function Caught<T>(e: DbError, unavailable: string): (r: Reply<T>)
    ensures r.Fail? && (r.status == 503 <==> e == MongoNetworkError)
    ensures r.status == 503 || (r.status == 500 && r.message == InternalError)
  {
    match e
    case MongoNetworkError => Fail(503, unavailable)
    case OtherError => Fail(500, InternalError)
  }

  /** The catch block of the model-calling routes: a 500 carrying
      `error.message`, or a fixed text when the message is empty. */
  function ThrownMessage<T>(message: string): (r: Reply<T>)
    ensures r.Fail? && r.status == 500 && r.message != ""
    ensures message != "" ==> r.message == message
  {
    Fail(500, if message != "" then message else "Internal server error")
  }
}
