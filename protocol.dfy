/** The protocol handler (core/protocol.py): the TLS keyword arguments and
    the classification of TLS and connection failures around one request.
    The source reads `protocol.is_secure` and `verify_ssl` from a
    DeviceConfig that core/config.py does not define, so the handler is
    modelled over the two facts it reads. */
module Protocol {
  import opened Values
  import opened Errors

  datatype HandlerConfig = HandlerConfig(isSecure: bool, verifySsl: bool)

  /** Keyword arguments passed on to the request function. */
  type SslKwargs = map<string, bool>

  /** What the request library can raise out of a request, as the handler sees it.
      SslFailure is requests' SSLError (a subclass of its ConnectionError);
      ConnectionFailure is any other ConnectionError, ConnectTimeout included;
      TimeoutFailure is a Timeout that is not a ConnectionError (ReadTimeout);
      OtherRequestFailure is any other RequestException; AuthFailure is an
      AuthenticationError raised by the authentication handler. */
  datatype RequestException =
    | SslFailure(text: string)
    | ConnectionFailure(text: string)
    | TimeoutFailure(text: string)
    | OtherRequestFailure(text: string)
    | AuthFailure(error: AxisError)

  datatype CallOutcome<R> = Completed(response: R) | Threw(exception: RequestException)

  /** How execute_request ends: the response, an error it raises, or an exception it lets through. */
  datatype ProtocolResult<R> = Returned(response: R) | Raised(error: AxisError) | Passed(exception: RequestException)

  /** get_ssl_kwargs(): verification is never switched on; HTTPS switches it off explicitly. */
  function GetSslKwargs(h: HandlerConfig): (k: SslKwargs)
    ensures "verify" in k <==> h.isSecure
    ensures forall key :: key in k ==> key == "verify" && !k[key]
  {
    var kwargs: SslKwargs := map[];
    if h.isSecure then kwargs["verify" := false] else kwargs
  }

  const NotImplementedMessage := "Secure SSL verification is not implemented. Use verify_ssl=False for insecure connections."

  function ConnectionErrorCode(text: string): (code: string)
    ensures code == "connection_refused" <==> Contains(text, "Connection refused")
    ensures code == "connection_refused" || code == "connection_error"
  {
    if Contains(text, "Connection refused") then "connection_refused" else "connection_error"
  }

  /** The except clauses: SSL errors first, then connection errors; the rest pass through.
      The source raises NetworkError with three arguments, which its
      __init__ does not take; the model raises the NetworkError meant. */
  function Classify<R>(e: RequestException): (r: ProtocolResult<R>)
    ensures e.SslFailure? ==> r == Raised(SecurityError("ssl_error", Some("SSL error occurred"), Some(DText(e.text))))
    ensures e.ConnectionFailure? ==> r == Raised(NetworkError(ConnectionErrorCode(e.text), "Connection error"))
    ensures !e.SslFailure? && !e.ConnectionFailure? ==> r == Passed(e)
  {
    match e
    case SslFailure(t) => Raised(SecurityError("ssl_error", Some("SSL error occurred"), Some(DText(t))))
    case ConnectionFailure(t) => Raised(NetworkError(ConnectionErrorCode(t), "Connection error"))
    case _ => Passed(e)
  }

  /** execute_request(request_func): with HTTPS and verification on it raises
      ssl_not_implemented; otherwise it calls the function once with
      get_ssl_kwargs(), returns its response unchanged and classifies its failure. */
  function ExecuteRequest<R>(h: HandlerConfig, requestFunc: SslKwargs -> CallOutcome<R>): (r: ProtocolResult<R>)
    ensures h.isSecure && h.verifySsl ==> r == Raised(SecurityError("ssl_not_implemented", Some(NotImplementedMessage)))
    ensures !(h.isSecure && h.verifySsl) && requestFunc(GetSslKwargs(h)).Completed? ==>
      r == Returned(requestFunc(GetSslKwargs(h)).response)
    ensures !(h.isSecure && h.verifySsl) && requestFunc(GetSslKwargs(h)).Threw? ==>
      r == Classify(requestFunc(GetSslKwargs(h)).exception)
  {
    var kwargs := if h.isSecure then GetSslKwargs(h) else map[];
    if h.isSecure && h.verifySsl then
      Raised(SecurityError("ssl_not_implemented", Some(NotImplementedMessage)))
    else
      match requestFunc(kwargs)
      case Completed(response) => Returned(response)
      case Threw(e) => Classify(e)
  }

  /** With HTTPS and verification on, the request function is never called:
      the result is the same whatever it would do. */
  lemma VerifyOnRefuses<R>(h: HandlerConfig, f: SslKwargs -> CallOutcome<R>, g: SslKwargs -> CallOutcome<R>)
    requires h.isSecure && h.verifySsl
    ensures ExecuteRequest(h, f) == ExecuteRequest(h, g)
    ensures ExecuteRequest(h, f).Raised? && ExecuteRequest(h, f).error.kind == Security
    ensures ExecuteRequest(h, f).error.code == "ssl_not_implemented"
  {
  }
}
