/** Small value types shared by the modules of this model: optional values,
    results with an error, and the outcome of one outbound HTTP request. */
module Common {

  datatype Option<+T> = None | Some(value: T)

  datatype Result<+T, +E> = Ok(value: T) | Err(error: E)

  /** What a single `fetch` produced: the promise rejected (network error),
      or a response with its `ok` flag and, when its body parses as the
      expected JSON shape, that body. A body that does not parse, or whose
      shape makes the mapping code throw, is `None`. */
  datatype Transport<+B> =
    | NetworkError
    | Response(ok: bool, status: int, body: Option<B>)

  /** The observable effect of a client call: the request it sent, if any,
      and what it returned or threw. */
  datatype Call<+Req, +T> = Call(request: Option<Req>, result: Result<T, string>)
}
