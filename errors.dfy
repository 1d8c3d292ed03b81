/** The library's error taxonomy (utils/errors.py): one base error carrying a
    code, a message and details, and five kinds derived from it. Also the
    shape of a raised Python exception, so that operations which raise can
    be modelled as functions returning an Outcome. */
module Errors {
  import opened Values

  /** The five direct subclasses of AxisError. */
  datatype ErrorKind = Authentication | Configuration | Network | Security | Feature

  /** The `details` attribute: normally a dict, but the source also stores a
      plain string there (protocol.py passes str(e)), and a dict entry may be
      another error (the CLI reads details['original_error']). */
  datatype Detail =
    | DMap(entries: map<string, Detail>)
    | DText(text: string)
    | DError(error: AxisError)

  datatype AxisError = AxisError(kind: ErrorKind, code: string, message: string, details: Detail) {
    /** str(error): the text passed to Exception.__init__. */
    function Text(): string {
      code + ": " + message
    }
  }

  const NoDetails: Detail := DMap(map[])

  /** Python truthiness of a details value: empty dicts and strings are false. */
  predicate Falsy(d: Detail) {
    match d
    case DMap(m) => m == map[]
    case DText(s) => s == ""
    case DError(_) => false
  }

  /** AxisError.__init__: code and message kept verbatim, `details or {}`. */
  function NewError(kind: ErrorKind, code: string, message: string, details: Option<Detail>): (e: AxisError)
    ensures e.kind == kind && e.code == code && e.message == message
    ensures e.Text() == code + ": " + message
    ensures e.details == NoDetails <==> details.None? || Falsy(details.value)
    ensures details.Some? && !Falsy(details.value) ==> e.details == details.value
  {
    AxisError(kind, code, message, if details.None? || Falsy(details.value) then NoDetails else details.value)
  }

  function AuthenticationError(code: string, message: string, details: Option<Detail> := None): (e: AxisError)
    ensures e.kind == Authentication && e.code == code && e.message == message
    ensures e.details == NoDetails <==> details.None? || Falsy(details.value)
    ensures details.Some? && !Falsy(details.value) ==> e.details == details.value
  {
    NewError(Authentication, code, message, details)
  }

  function ConfigurationError(code: string, message: string, details: Option<Detail> := None): (e: AxisError)
    ensures e.kind == Configuration && e.code == code && e.message == message
    ensures e.details == NoDetails <==> details.None? || Falsy(details.value)
    ensures details.Some? && !Falsy(details.value) ==> e.details == details.value
  {
    NewError(Configuration, code, message, details)
  }

  function FeatureError(code: string, message: string, details: Option<Detail> := None): (e: AxisError)
    ensures e.kind == Feature && e.code == code && e.message == message
    ensures e.details == NoDetails <==> details.None? || Falsy(details.value)
    ensures details.Some? && !Falsy(details.value) ==> e.details == details.value
  {
    NewError(Feature, code, message, details)
  }

  /** NetworkError.__init__ takes no details, so they are always empty. */
  function NetworkError(code: string, message: string): (e: AxisError)
    ensures e.kind == Network && e.code == code && e.message == message
    ensures e.details == NoDetails
  {
    NewError(Network, code, message, None)
  }

  /** The default messages of SecurityError, by code. */
  function DefaultSecurityMessage(code: string): string {
    if code == "ssl_verification_failed" then "SSL certificate verification failed"
    else if code == "ssl_error" then "SSL error occurred"
    else if code == "cert_fingerprint_mismatch" then "Certificate fingerprint mismatch"
    else if code == "protocol_error" then "Protocol security error"
    else "Security error"
  }

  /** SecurityError.__init__: an explicit message wins over the table. */
  function SecurityError(code: string, message: Option<string> := None, details: Option<Detail> := None): (e: AxisError)
    ensures e.kind == Security && e.code == code
    ensures message.Some? ==> e.message == message.value
    ensures message.None? ==> e.message == DefaultSecurityMessage(code)
    ensures e.details == NoDetails <==> details.None? || Falsy(details.value)
    ensures details.Some? && !Falsy(details.value) ==> e.details == details.value
  {
    NewError(Security, code, if message.Some? then message.value else DefaultSecurityMessage(code), details)
  }

  lemma SecurityMessageTable(code: string)
    ensures SecurityError("ssl_verification_failed").message == "SSL certificate verification failed"
    ensures SecurityError("ssl_error").message == "SSL error occurred"
    ensures SecurityError("cert_fingerprint_mismatch").message == "Certificate fingerprint mismatch"
    ensures SecurityError("protocol_error").message == "Protocol security error"
    ensures code !in {"ssl_verification_failed", "ssl_error", "cert_fingerprint_mismatch", "protocol_error"}
            ==> SecurityError(code).message == "Security error"
  {
  }

  /** The built-in Python exceptions that escape from the modelled code. */
  datatype Builtin = TypeError | AttributeError | ValueError | IndexError | HttpError

  /** A raised exception: one of the library's errors or a built-in one with its text. */
  datatype Raised = AxisRaised(error: AxisError) | BuiltinRaised(builtin: Builtin, text: string) {
    /** str(exception). */
    function Text(): string {
      match this
      case AxisRaised(e) => e.Text()
      case BuiltinRaised(_, t) => t
    }
  }

  /** The outcome of Python code that may raise. Usable with `:-`. */
  datatype Outcome<+T> = Returns(value: T) | Raises(raised: Raised) {
    predicate IsFailure() {
      Raises?
    }

    function PropagateFailure<U>(): Outcome<U>
      requires Raises?
    {
      Raises(raised)
    }

    function Extract(): T
      requires Returns?
    {
      value
    }
  }
}
