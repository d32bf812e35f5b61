/**
 * SynchronousTransport: one blocking POST whose response is classified into
 * a returned envelope, a raised error, or (with `no_raise`) a logged error
 * and a `None` result.
 */
module SyncTransport {
  import opened Wrappers
  import opened Values
  import opened Errors

  /**
   * What `session.post` produced. `body` is what `response.json()` decodes
   * the response text to, None when the text is not JSON.
   */
  datatype Response =
    | ConnectionFailed
    | Http(status: int, text: string, body: Option<Json>)

  /** The result of `_send`: the envelope, an exception, or a log record and `None`. */
  datatype Outcome =
    | Returned(envelope: map<string, Json>)
    | Raised(error: Error)
    | Logged(error: Error)

  const Unauthorized := 401
  const InternalServerError := 500

  /** A failure of `_send`: logged and swallowed under `no_raise`, raised otherwise. */
  function Fail(e: Error, noRaise: bool): (o: Outcome)
    ensures o.Logged? || o.Raised?
    ensures o.error == e && (o.Logged? <==> noRaise)
  {
    if noRaise then Logged(e) else Raised(e)
  }

  /** The envelope `response.json()` yields, when it is a JSON object. */
  function Envelope(response: Response): (e: Option<map<string, Json>>)
    requires response.Http?
    ensures e.Some? <==> response.body.Some? && response.body.value.JObj?
    ensures e.Some? ==> response.body.value == JObj(e.value)
  {
    if response.body.Some? && response.body.value.JObj? then Some(response.body.value.fields) else None
  }

  /** `SynchronousTransport._send` applied to the response the POST produced. */
  function Send(response: Response, noRaise: bool): (o: Outcome)
    // A failed connection re-raises `ConnectionError` as it is, or logs it.
    ensures response.ConnectionFailed? ==> o == Fail(ConnectionError, noRaise)
    // 401 is decided before the body is looked at, even when it is not JSON.
    ensures response.Http? && response.status == Unauthorized ==>
              o == Fail(AuthenticationError(response.text), noRaise)
    // A truthy `success` returns the envelope whatever the status (500 included) but 401.
    ensures o.Returned? <==>
              response.Http? && response.status != Unauthorized && Envelope(response).Some? &&
              Truthy(Get(Envelope(response).value, "success", JBool(false)))
    ensures o.Returned? ==> o.envelope == Envelope(response).value
    // A body that is not a JSON object raises from `response.json()` or `.get`, even under `no_raise`.
    ensures response.Http? && response.status != Unauthorized && Envelope(response).None? ==>
              o == Raised(MalformedResponse)
    // Only an unreadable envelope escapes `no_raise`.
    ensures o.Logged? <==> noRaise && !o.Returned? && o.error != MalformedResponse
    ensures o.Raised? && noRaise ==> o.error == MalformedResponse
    ensures !o.Returned? && response.Http? && response.status == InternalServerError && Envelope(response).Some? ==>
              o.error == ServiceUnavailable(None)
    ensures !o.Returned? && response.Http? && response.status !in {Unauthorized, InternalServerError} &&
            Envelope(response).Some? ==>
              o.error == InvalidRequest(Get(Envelope(response).value, "errors", JArr([])))
  {
    match response
    case ConnectionFailed => Fail(ConnectionError, noRaise)
    case Http(status, text, _) =>
      if status == Unauthorized then Fail(AuthenticationError(text), noRaise)
      else match Envelope(response)
        case None => Raised(MalformedResponse)
        case Some(env) =>
          if Truthy(Get(env, "success", JBool(false))) then Returned(env)
          else if status == InternalServerError then Fail(ServiceUnavailable(None), noRaise)
          else Fail(InvalidRequest(Get(env, "errors", JArr([]))), noRaise)
  }

  /** `send_and_receive`: never silent, as the caller uses the result. */
  function SendAndReceive(response: Response): (o: Outcome)
    ensures !o.Logged?
    ensures o.Returned? ==> o == Send(response, true) && response.Http? && o.envelope == Envelope(response).value
    ensures o.Returned? == Send(response, true).Returned?
    ensures !o.Returned? ==> o == Raised(Send(response, true).error)
  {
    Send(response, false)
  }

  /**
   * `send_and_ignore`: silent exactly when a logger exists; the value is
   * dropped, so what is left is the exception that escapes, if any.
   */
  function SendAndIgnore(response: Response, hasLogger: bool): (raised: Option<Error>)
    ensures hasLogger ==> raised.None? || raised.value == MalformedResponse
    ensures hasLogger ==> (raised.Some? <==> SendAndReceive(response) == Raised(MalformedResponse))
    ensures !hasLogger ==> (raised.None? <==> SendAndReceive(response).Returned?)
    ensures raised.Some? ==> SendAndReceive(response) == Raised(raised.value)
  {
    match Send(response, hasLogger)
    case Raised(e) => Some(e)
    case _ => None
  }

  /**
   * `no_raise` changes only how a failure leaves `_send`: the same response
   * gives the same envelope, or the same error logged instead of raised.
   */
  lemma NoRaiseOnlySilences(response: Response)
    ensures Send(response, true).Returned? <==> Send(response, false).Returned?
    ensures Send(response, false).Raised? && Send(response, false).error != MalformedResponse ==>
              Send(response, true) == Logged(Send(response, false).error)
    ensures Send(response, false).Raised? && Send(response, false).error == MalformedResponse ==>
              Send(response, true) == Send(response, false)
  {
  }
}
