/** The global filter for RpcException: it writes the HTTP status and a `{statusCode, message}` body,
    then rethrows the exception unchanged. Defaults come from destructuring, so they apply only to a
    field that is missing; a present `0` or `""` is written as it is. */
module RpcExceptionFilter {
  import opened Wrappers
  import opened Json
  import opened Rpc

  const DEFAULT_MESSAGE: string := "Internal server error"

  /** What the filter does with one exception: the status set on the response, the JSON body sent,
      and the exception it rethrows. */
  datatype Caught = Caught(httpStatus: int, body: Json, rethrown: RpcException)

  /** The response body `{ statusCode, message }`. */
  function ErrorBody(status: int, message: string): Json {
    JObj([("statusCode", JNum(status as real)), ("message", JStr(message))])
  }

  /** `RpcCustomExceptionFilter.catch`. */
  function Catch(exception: RpcException): (c: Caught)
    ensures exception.error.status.None? ==> c.httpStatus == 500
    ensures exception.error.status.Some? ==> c.httpStatus == exception.error.status.value
    ensures c.body.JObj? && Keys(c.body.fields) == ["statusCode", "message"]
    ensures Lookup(c.body.fields, "statusCode") == Some(JNum(c.httpStatus as real))
    ensures exception.error.message.None? ==>
      Lookup(c.body.fields, "message") == Some(JStr("Internal server error"))
    ensures exception.error.message.Some? ==>
      Lookup(c.body.fields, "message") == Some(JStr(exception.error.message.value))
    ensures c.rethrown == exception
  {
    var RpcError(s, m) := exception.error;
    var status := s.GetOr(INTERNAL_SERVER_ERROR);
    var message := m.GetOr(DEFAULT_MESSAGE);
    Caught(status, ErrorBody(status, message), exception)
  }

  /** The filter and the controllers disagree on falsy values: the filter keeps a status of 0 and an
      empty message, where the controllers' `||` replaces them with their defaults. */
  lemma DefaultsOnlyOnAbsence(message: string)
    ensures Catch(RpcException(RpcError(Some(0), Some("")))).httpStatus == 0
    ensures Lookup(Catch(RpcException(RpcError(Some(0), Some("")))).body.fields, "message") == Some(JStr(""))
    ensures OrStatus(Some(0), INTERNAL_SERVER_ERROR) == 500
    ensures OrMessage(Some(""), message) == message
  {
  }

  /** Every exception a controller raises carries both fields, so it reaches the client verbatim. */
  lemma RaisedExceptionsAreVerbatim(message: string, status: int)
    ensures Catch(Raise(message, status)).httpStatus == status
    ensures Catch(Raise(message, status)).body == ErrorBody(status, message)
  {
  }
}
