/** Vocabulary shared by every provider module: Ruby's nil-or-value, raised
    errors as values, the untyped entries of option and header hashes, and
    the mutable response object that requests hand back. */
module FogCore {

  /** A Ruby value that may be nil. */
  datatype Option<+T> = None | Some(value: T)

  /** Either a normal return or a raised error; usable with `:-`. */
  datatype Result<+T, +E> = Ok(value: T) | Err(error: E) {
    predicate IsFailure() {
      Err?
    }

    function PropagateFailure<U>(): Result<U, E>
      requires Err?
    {
      Err(error)
    }

    function Extract(): T
      requires Ok?
    {
      value
    }
  }

  /** An entry of an options or header hash. Ruby does not type these
      entries, so a caller may pass a string where a time is documented;
      the comparisons below say what Ruby then does. Times are UTC instants
      with one-second resolution. */
  datatype Value = Text(s: string) | Instant(seconds: int) | Number(n: int)

  type Hash = map<string, Value>

  /** What a response holds at a given moment. */
  datatype Envelope<B> = Envelope(status: int, headers: Hash, body: B)

  /** A response object whose fields are assigned one by one. */
  class Response<B> {
    var status: int
    var headers: Hash
    var body: B

    constructor (status: int, headers: Hash, body: B)
      ensures this.status == status && this.headers == headers && this.body == body
    {
      this.status := status;
      this.headers := headers;
      this.body := body;
    }

    function View(): Envelope<B>
      reads this
    {
      Envelope(status, headers, body)
    }
  }

  /** The value a returned response object holds, or the error raised. */
  function ViewOf<B, E>(r: Result<Response<B>, E>): Result<Envelope<B>, E>
    reads if r.Ok? then {r.value} else {}
  {
    match r
    case Ok(response) => Ok(response.View())
    case Err(e) => Err(e)
  }
}
