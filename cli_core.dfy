/** The error formatter and the argument filter shared by the example
    command-line tools (examples/cli_core.py). The formatter rewrites the
    code of an ssl_error in place on the error object, so the error object is
    a class whose code is a mutable field. */
module CliCore {
  import opened Values
  import opened Errors

  datatype Color = White | Red | Yellow

  /** The user-facing messages for known error codes. */
  const ErrorMessages: map<string, string> := map[
    "ssl_verification_failed" :=
      "Cannot establish secure connection to camera.\nThe camera appears to be using a self-signed certificate.\n\n"
      + "Available options:\n1. Use HTTP instead:     --protocol http\n2. Skip verification:    --no-verify-ssl\n"
      + "3. Install a valid certificate on the camera",
    "connection_refused" :=
      "Cannot reach camera. Please check:\n1. Camera IP address is correct\n"
      + "2. Camera is powered on and connected to network\n3. No firewall is blocking the connection",
    "request_timeout" := "Request timed out. Please check:\n1. Camera is responsive\n2. Network connection is stable",
    "fetch_failed" := "Failed to fetch camera parameters.\nPlease check camera connectivity and try again.",
    "info_parse_failed" := "Failed to parse device information.\nThe camera response was not in the expected format.",
    "restart_failed" := "Failed to restart camera.\nPlease check permissions and try again.",
    "health_check_failed" := "Camera health check failed.\nThe camera is not responding correctly."]

  /** error_messages.get(code, f"{code}: {message}"). */
  function KnownOrDefault(code: string, message: string): (text: string)
    ensures code in ErrorMessages ==> text == ErrorMessages[code]
    ensures code !in ErrorMessages ==> text == code + ": " + message
  {
    if code in ErrorMessages then ErrorMessages[code] else code + ": " + message
  }

  /** The Python class name of an error kind. */
  function KindName(kind: ErrorKind): string {
    match kind
    case Authentication => "AuthenticationError"
    case Configuration => "ConfigurationError"
    case Network => "NetworkError"
    case Security => "SecurityError"
    case Feature => "FeatureError"
  }

  /** The kinds the formatter explains; any other error is an internal one. */
  predicate Explained(kind: ErrorKind) {
    kind == Security || kind == Network || kind == Feature
  }

  function ColorFor(kind: ErrorKind): (c: Color)
    ensures c == Yellow <==> kind == Security
    ensures c != White
  {
    if kind == Security then Yellow else Red
  }

  /** All SSL errors share the certificate message. */
  function RewriteCode(code: string): (c: string)
    ensures code == "ssl_error" ==> c == "ssl_verification_failed"
    ensures code != "ssl_error" ==> c == code
  {
    if code == "ssl_error" then "ssl_verification_failed" else code
  }

  /** The text appended for details['original_error']: nothing when the
      details are empty or have no such entry. The entry must be an error
      object; `in` on a text looks for a substring. */
  function OriginalErrorSuffix(details: Detail): (r: Outcome<string>)
    ensures Falsy(details) ==> r == Returns("")
    ensures details.DMap? && "original_error" !in details.entries ==> r == Returns("")
    ensures details.DMap? && "original_error" in details.entries && details.entries["original_error"].DError? ==>
      var e := details.entries["original_error"].error;
      r == Returns("\n---\n" + KnownOrDefault(e.code, e.message))
    ensures r.Returns? && r.value != "" ==> details.DMap? && "original_error" in details.entries
    ensures details.DMap? && "original_error" in details.entries && details.entries["original_error"].DMap? ==>
      r == Raises(BuiltinRaised(AttributeError, "'dict' object has no attribute 'code'"))
    ensures details.DMap? && "original_error" in details.entries && details.entries["original_error"].DText? ==>
      r == Raises(BuiltinRaised(AttributeError, "'str' object has no attribute 'code'"))
    ensures details.DText? && !Contains(details.text, "original_error") ==> r == Returns("")
    ensures details.DText? && Contains(details.text, "original_error") ==>
      r == Raises(BuiltinRaised(TypeError, "string indices must be integers, not 'str'"))
    ensures details.DError? ==>
      r == Raises(BuiltinRaised(TypeError, "argument of type '" + KindName(details.error.kind) + "' is not iterable"))
  {
    if Falsy(details) then Returns("")
    else match details
      case DMap(m) =>
        if "original_error" !in m then Returns("")
        else (match m["original_error"]
          case DError(e) => Returns("\n---\n" + KnownOrDefault(e.code, e.message))
          case DMap(_) => Raises(BuiltinRaised(AttributeError, "'dict' object has no attribute 'code'"))
          case DText(_) => Raises(BuiltinRaised(AttributeError, "'str' object has no attribute 'code'")))
      case DText(s) =>
        if Contains(s, "original_error") then Raises(BuiltinRaised(TypeError, "string indices must be integers, not 'str'"))
        else Returns("")
      case DError(e) => Raises(BuiltinRaised(TypeError, "argument of type '" + KindName(e.kind) + "' is not iterable"))
  }

  /** An AxisError object as the CLI holds it: `code` can be reassigned, and
      str(error) is the text fixed when it was raised. */
  class ErrorObject {
    var code: string
    const kind: ErrorKind
    const message: string
    const details: Detail
    const text: string

    constructor (e: AxisError)
      ensures code == e.code && kind == e.kind && message == e.message && details == e.details && text == e.Text()
    {
      code := e.code;
      kind := e.kind;
      message := e.message;
      details := e.details;
      text := e.Text();
    }
  }

  /** What reaches the formatter: OperationCancelled, one of the library's
      errors, or any other exception with its str() text. */
  datatype CliError = Cancelled(text: string) | Axis(obj: ErrorObject) | OtherError(text: string)

  /** What format_error_message returns for an error whose code was `code` on entry. */
  function FormatSpec(error: CliError, code: string): Outcome<(string, Color)> {
    match error
    case Cancelled(t) => Returns((t, White))
    case OtherError(t) => Returns(("Internal Error: " + t, Red))
    case Axis(obj) =>
      if !Explained(obj.kind) then Returns(("Internal Error: " + obj.text, Red))
      else
        var suffix :- OriginalErrorSuffix(obj.details);
        Returns((KnownOrDefault(RewriteCode(code), obj.message) + suffix, ColorFor(obj.kind)))
  }

  /** The colour is white exactly for a cancellation and yellow exactly for a SecurityError. */
  lemma FormatColors(error: CliError, code: string)
    requires FormatSpec(error, code).Returns?
    ensures FormatSpec(error, code).value.1 == White <==> error.Cancelled?
    ensures FormatSpec(error, code).value.1 == Yellow <==> error.Axis? && error.obj.kind == Security
  {
  }

  /** Authentication and configuration errors are reported as internal errors, with their text. */
  lemma UnexplainedIsInternal(error: CliError, code: string)
    requires error.Axis? && (error.obj.kind == Authentication || error.obj.kind == Configuration)
    ensures FormatSpec(error, code) == Returns(("Internal Error: " + error.obj.text, Red))
  {
  }

  /** An ssl_error without details, or with the text details the protocol
      handler gives it, gets the certificate message, whatever its own message said. */
  lemma SslErrorMessage(error: CliError)
    requires error.Axis? && error.obj.kind == Security
    requires Falsy(error.obj.details)
             || (error.obj.details.DText? && !Contains(error.obj.details.text, "original_error"))
    ensures FormatSpec(error, "ssl_error") == Returns((ErrorMessages["ssl_verification_failed"], Yellow))
  {
    assert ErrorMessages["ssl_verification_failed"] + "" == ErrorMessages["ssl_verification_failed"];
  }

  /** format_error_message(error). */
  method FormatErrorMessage(error: CliError) returns (r: Outcome<(string, Color)>)
    modifies if error.Axis? then {error.obj} else {}
    ensures r == FormatSpec(error, if error.Axis? then old(error.obj.code) else "")
    ensures error.Axis? && Explained(error.obj.kind) ==> error.obj.code == RewriteCode(old(error.obj.code))
    ensures error.Axis? && !Explained(error.obj.kind) ==> error.obj.code == old(error.obj.code)
  {
    match error
    case Cancelled(t) => return Returns((t, White));
    case OtherError(t) => return Returns(("Internal Error: " + t, Red));
    case Axis(obj) =>
      if !Explained(obj.kind) {
        return Returns(("Internal Error: " + obj.text, Red));
      }
      if obj.code == "ssl_error" {
        obj.code := "ssl_verification_failed";
      }
      var message := KnownOrDefault(obj.code, obj.message);
      var color := ColorFor(obj.kind);
      var suffix := OriginalErrorSuffix(obj.details);
      if suffix.Raises? {
        return Raises(suffix.raised);
      }
      r := Returns((message + suffix.value, color));
  }

  /** What handle_error prints, and the exit code it returns. */
  datatype Printed = Printed(message: string, color: Color, exitCode: int)

  /** handle_error(ctx, error, show_prefix). The debug output is not modelled. */
  method HandleError(error: CliError, showPrefix: bool) returns (r: Outcome<Printed>)
    modifies if error.Axis? then {error.obj} else {}
    ensures var f := FormatSpec(error, if error.Axis? then old(error.obj.code) else "");
      && (f.Raises? ==> r == Raises(f.raised))
      && (f.Returns? ==> r == Returns(Printed(
            if showPrefix && !error.Cancelled? then "Error: " + f.value.0 else f.value.0, f.value.1, 1)))
    ensures r.Returns? ==> r.value.exitCode == 1
    ensures error.Axis? && Explained(error.obj.kind) ==> error.obj.code == RewriteCode(old(error.obj.code))
    ensures error.Axis? && !Explained(error.obj.kind) ==> error.obj.code == old(error.obj.code)
  {
    var formatted := FormatErrorMessage(error);
    if formatted.Raises? {
      return Raises(formatted.raised);
    }
    var (message, color) := formatted.value;
    if showPrefix && !error.Cancelled? {
      message := "Error: " + message;
    }
    r := Returns(Printed(message, color, 1));
  }

  /** The context keys get_client_args passes on. */
  const ClientKeys: set<string> := {"camera_ip", "username", "password", "port", "protocol", "no_verify_ssl"}

  /** get_client_args(ctx_obj): the entries whose keys are client keys, values unchanged. */
  function GetClientArgs<V>(ctx: map<string, V>): (args: map<string, V>)
    ensures args.Keys == ctx.Keys * ClientKeys
    ensures forall k :: k in args ==> args[k] == ctx[k]
  {
    map k | k in ctx && k in ClientKeys :: ctx[k]
  }

  /** Filtering twice is filtering once, and the debug flag is never passed on. */
  lemma ClientArgsFilter<V>(ctx: map<string, V>)
    ensures GetClientArgs(GetClientArgs(ctx)) == GetClientArgs(ctx)
    ensures "debug" !in GetClientArgs(ctx)
  {
  }
}
