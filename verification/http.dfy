/** What the two scripts read of an HTTP reply. */
module Http {
  /** `response.ok`: a status in the 2xx range. */
  predicate Ok(status: int)
  {
    200 <= status <= 299
  }

  /**
   * What `await response.json()` gives: it throws on a body that does not
   * parse, returns `null` for the JSON `null`, and otherwise a value.
   */
  datatype Body<T> = Unparsable | Null | Json(value: T)

  /** How a `fetch` ends: it throws, or a status comes back with a body. */
  datatype Reply<T> = NetworkError | Replied(status: int, body: Body<T>)

  /** A 2xx reply whose body is a JSON value other than `null`: its fields can be read. */
  predicate Answered<T>(reply: Reply<T>)
  {
    reply.Replied? && Ok(reply.status) && reply.body.Json?
  }

  /** A 2xx reply whose body is the JSON `null`: `json()` succeeds, and reading a field of the result throws. */
  predicate NullAnswer<T>(reply: Reply<T>)
  {
    reply.Replied? && Ok(reply.status) && reply.body.Null?
  }
}
