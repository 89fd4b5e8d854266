/** The RPC side of a handler: commands sent to a backend, what the backend call produces, and
    the stages (`catchError`, `firstValueFrom`) a reply goes through before the handler sees it. */
module Rpc {
  import opened Wrappers
  import opened Json

  const BAD_REQUEST: int := 400
  const NOT_FOUND: int := 404
  const INTERNAL_SERVER_ERROR: int := 500

  /** How a backend names an operation: a plain subject string, or a `{cmd: ...}` pattern object. */
  datatype Pattern = Subject(name: string) | Cmd(cmd: string)

  /** One message to a backend: `client.send(pattern, payload)`. */
  datatype Command = Command(pattern: Pattern, payload: Json)

  /** What one backend call produces: a value, an error object with optional `status` and
      `message` (a backend rejection or a transport error), or a stream that completes with no value. */
  datatype Outcome =
    | Success(value: Json)
    | Failure(status: Option<int>, message: Option<string>)
    | NoReply

  /** The object an `RpcException` carries, as `getError()` returns it; either field may be missing. */
  datatype RpcError = RpcError(status: Option<int>, message: Option<string>)

  datatype RpcException = RpcException(error: RpcError)

  /** An RpcException built the way every handler builds one, with both fields present. */
  function Raise(message: string, status: int): RpcException
  {
    RpcException(RpcError(Some(status), Some(message)))
  }

  /** What can be thrown inside a handler's `try` block. */
  datatype Thrown =
    | Raised(exception: RpcException)                              // an RpcException
    | BackendError(status: Option<int>, message: Option<string>)  // the backend's error object
    | EmptyError                                                   // `firstValueFrom` on an empty stream

  /** The reply observable of one call, after any operators piped onto it. */
  datatype Stream = Emits(value: Json) | Errors(thrown: Thrown) | Completes

  /** The observable `client.send` returns, for a given backend outcome. */
  function Send(o: Outcome): Stream
  {
    match o
    case Success(v) => Emits(v)
    case Failure(st, m) => Errors(BackendError(st, m))
    case NoReply => Completes
  }

  /** JavaScript falsiness of an optional status: `undefined`, `null` and `0` are falsy. */
  predicate FalsyStatus(s: Option<int>) {
    s.None? || s.value == 0
  }

  /** JavaScript falsiness of an optional message: `undefined`, `null` and `""` are falsy. */
  predicate FalsyMessage(m: Option<string>) {
    m.None? || m.value == ""
  }

  /** `status || d`: the default replaces any falsy status, not only a missing one. */
  function OrStatus(s: Option<int>, d: int): int
  {
    if s.Some? && s.value != 0 then s.value else d
  }

  /** `message || d`: the default replaces any falsy message, not only a missing one. */
  function OrMessage(m: Option<string>, d: string): string
  {
    if m.Some? && m.value != "" then m.value else d
  }

  /** The `catchError` operator the products handlers pipe onto the reply: a backend error becomes
      an RpcException carrying the error's message and status, each replaced by the handler's
      default when falsy; a value or a completion passes through untouched. */
  function CatchBackendError(s: Stream, defaultMessage: string, defaultStatus: int): Stream
  {
    match s
    case Errors(BackendError(st, m)) =>
      Errors(Raised(Raise(OrMessage(m, defaultMessage), OrStatus(st, defaultStatus))))
    case _ => s
  }

  /** `await firstValueFrom(stream)`: the first value, the stream's error, or EmptyError. */
  function FirstValueFrom(s: Stream): Result<Json, Thrown>
  {
    match s
    case Emits(v) => Ok(v)
    case Errors(t) => Err(t)
    case Completes => Err(EmptyError)
  }

  /** What a handler did for one request: the command it sent, if any, and what it returned or threw. */
  datatype Reply = Reply(sent: Option<Command>, result: Result<Json, RpcException>)
}
