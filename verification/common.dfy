/** Types shared by the server model and the client model. */
module Common {

  /** A document id. A MongoDB ObjectId is twelve bytes; here it is that
      number, so the fixed admin id "000000000000000000000001" is 1. */
  type ObjectId = nat

  /** Milliseconds since the epoch, as `Date.now` gives them; always supplied by the caller. */
  type Timestamp = nat

  datatype Option<T> = None | Some(value: T)

  /** JavaScript truthiness of a string that may be `undefined`. */
  predicate Truthy(s: Option<string>)
  {
    s.Some? && s.value != ""
  }

  /** `s || fallback` for a string that may be `undefined`. */
  function OrElse(s: Option<string>, fallback: string): string
  {
    if Truthy(s) then s.value else fallback
  }

  /** A document built from a request body: it passed schema validation, or these paths failed. */
  datatype Validation<T> = Built(doc: T) | Invalid(paths: set<string>)

  /** What a thrown error carries into a 500 or 400 reply's `message`. */
  datatype Cause =
    | ValidationFailed(paths: set<string>)   // schema validation rejected these paths
    | DuplicateKey(path: string)              // a unique index rejected the insert
    | IllegalArguments                        // bcrypt was handed `undefined`

  datatype ErrorBody = Message(text: string) | Thrown(cause: Cause)

  /** An HTTP reply: a status code and either the JSON body or `{ message }`. */
  datatype Response<T> = Success(code: nat, body: T) | Failure(code: nat, error: ErrorBody)

  /** The outcome of an HTTP call as the client sees it: the response data, or a failure
      carrying the server's `message` when the response had one. */
  datatype ApiReply<T> = Ok(data: T) | Err(message: Option<string>)
}
