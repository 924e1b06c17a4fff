/** How a `fetch` call ends, as the hooks see it, and the error strings they derive from it. */
module Http {
  import opened Common
  import Numbers

  /** A response with an ok status and its decoded JSON, a response whose status is not ok,
      or a rejected promise (network failure, undecodable JSON) carrying an `Error` message. */
  datatype HttpOutcome<+T> = Ok(payload: T) | HttpErr(status: int) | NetErr(message: string)

  datatype Verb = GET | POST | PATCH | PUT

  /** A request the client issued, by method and path under the API base. */
  datatype Request = Request(verb: Verb, path: string)

  /** The message of the `Error` thrown for a response that is not ok. */
  function StatusMessage(status: int): string
  {
    "HTTP error! status: " + Numbers.IntString(status)
  }

  /** Two different statuses never produce the same message: the status can be read back. */
  lemma StatusMessageInjective(a: int, b: int)
    requires StatusMessage(a) == StatusMessage(b)
    ensures a == b
  {
    var prefix := "HTTP error! status: ";
    assert StatusMessage(a)[|prefix|..] == Numbers.IntString(a);
    assert StatusMessage(b)[|prefix|..] == Numbers.IntString(b);
    Numbers.ParseIntOfIntString(a);
    Numbers.ParseIntOfIntString(b);
  }

  /** `err.message` of what a failed `fetch` step throws. */
  function FailureMessage<T>(o: HttpOutcome<T>): (m: string)
    requires !o.Ok?
    ensures o.HttpErr? ==> m == StatusMessage(o.status)
    ensures o.NetErr? ==> m == o.message
  {
    match o
    case HttpErr(status) => StatusMessage(status)
    case NetErr(message) => message
  }

  /** The value a hook receives, or the error message it records. */
  function AsResult<T>(o: HttpOutcome<T>): (r: Result<T, string>)
    ensures o.Ok? <==> r.Success?
    ensures o.Ok? ==> r.value == o.payload
    ensures !o.Ok? ==> r.error == FailureMessage(o)
  {
    if o.Ok? then Success(o.payload) else Failure(FailureMessage(o))
  }
}
