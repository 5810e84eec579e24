/** Error values and the HTTP error responder (lib/utils/error.js). */
module Errors {
  import opened Wrappers
  import opened Values

  /**
   * What a rejected promise or a thrown exception carries: an `Error` object with its
   * `message` and the optional `status` and `code`/`statusCode` numbers the engine sets,
   * or a bare reason that is not an `Error` (a string).
   */
  datatype Failure =
    | Error(message: string, status: Option<int>, code: Option<int>)
    | Reason(text: string)

  /** An HTTP response: status code and JSON body. */
  datatype Response = Response(status: int, body: Value)

  /** `err.status`, `undefined` when not set (a string reason has no `status`). */
  function StatusField(err: Failure): Value {
    if err.Error? && err.status.Some? then Num(err.status.value) else Undefined
  }

  /** `err.message`, `undefined` for a string reason. */
  function MessageField(err: Failure): Value {
    if err.Error? then Str(err.message) else Undefined
  }

  /** The body `{error: {status, message}}` that the error responder sends. */
  function ErrorBody(status: Value, message: Value): Value {
    Obj(map["error" := Obj(map["status" := status, "message" := message])])
  }

  /**
   * `clientErrorHandler`: the response status is `err.status` when truthy and 500
   * otherwise; the body carries the raw `status` field, even when the response is 500.
   */
  function ClientErrorHandler(err: Failure): (r: Response)
    ensures Truthy(StatusField(err)) ==> r.status == err.status.value
    ensures !Truthy(StatusField(err)) ==> r.status == 500
    ensures r.body == ErrorBody(StatusField(err), MessageField(err))
  {
    Response(if Truthy(StatusField(err)) then StatusField(err).n else 500,
             ErrorBody(StatusField(err), MessageField(err)))
  }

  /**
   * `errorLogger`: forwards the very same error; the stack is printed unless the
   * environment is `production` (`forwarded` is the error, `logs` says whether it prints).
   */
  function ErrorLogger(err: Failure, nodeEnv: string): (r: (Failure, bool))
    ensures r.0 == err
    ensures r.1 <==> nodeEnv != "production"
  {
    (err, nodeEnv != "production")
  }

  /** `message || fallback` for an optional message argument. */
  function MessageOr(message: Option<string>, fallback: string): string {
    if message.Some? && message.value != "" then message.value else fallback
  }

  function BadRequestError(message: Option<string>): (r: Failure)
    ensures r.Error? && r.status == Some(400) && r.code.None?
    ensures r.message == MessageOr(message, "Bad request")
  {
    Error(MessageOr(message, "Bad request"), Some(400), None)
  }

  function UnauthorizedError(message: Option<string>): (r: Failure)
    ensures r.Error? && r.status == Some(401) && r.code.None?
    ensures r.message == MessageOr(message, "Unauthorized")
  {
    Error(MessageOr(message, "Unauthorized"), Some(401), None)
  }

  function NotFoundError(message: Option<string>): (r: Failure)
    ensures r.Error? && r.status == Some(404) && r.code.None?
    ensures r.message == MessageOr(message, "Not found")
  {
    Error(MessageOr(message, "Not found"), Some(404), None)
  }

  /** A plain `new Error(message)`: no status, so it is answered with 500. */
  function PlainError(message: string): (r: Failure)
    ensures r.Error? && r.status.None? && r.message == message
  {
    Error(message, None, None)
  }

  /** Every constructor's status survives the responder, and the body mirrors it. */
  lemma ConstructedErrorsKeepTheirStatus(message: Option<string>)
    ensures ClientErrorHandler(BadRequestError(message)) ==
      Response(400, ErrorBody(Num(400), Str(MessageOr(message, "Bad request"))))
    ensures ClientErrorHandler(UnauthorizedError(message)) ==
      Response(401, ErrorBody(Num(401), Str(MessageOr(message, "Unauthorized"))))
    ensures ClientErrorHandler(NotFoundError(message)) ==
      Response(404, ErrorBody(Num(404), Str(MessageOr(message, "Not found"))))
  {
  }

  /** An error without `status` becomes a 500 whose body still says `status: undefined`. */
  lemma StatuslessErrorIs500(err: Failure)
    requires err.Reason? || err.status.None? || err.status == Some(0)
    ensures ClientErrorHandler(err).status == 500
    ensures ClientErrorHandler(err).body == ErrorBody(StatusField(err), MessageField(err))
  {
  }
}
