/** Connection configuration (core/config.py): the protocol and its default
    port, the TLS policy record, construction with its validation, the two
    named constructors and the base URL. */
module Config {
  import opened Values
  import opened Errors

  datatype AuthMethod = Auto | Basic | Digest

  datatype Protocol = Https | Http {
    function DefaultPort(): int {
      if this == Https then 443 else 80
    }

    predicate IsSecure() {
      this == Https
    }

    /** The enum's value, used as the URL scheme. */
    function Value(): string {
      if this == Https then "https" else "http"
    }
  }

  datatype SslConfig = SslConfig(
    verify: bool := true,
    caCertPath: Option<string> := None,
    clientCertPath: Option<string> := None,
    clientKeyPath: Option<string> := None,
    expectedFingerprint: Option<string> := None)

  /** The arguments of the CameraConfig dataclass, with its defaults. The
      timeout is carried as the text Python prints for the float. */
  datatype ConfigArgs = ConfigArgs(
    host: string,
    username: string,
    password: string,
    protocol: Protocol := Https,
    port: Option<int> := None,
    authMethod: AuthMethod := Auto,
    timeout: string := "10.0",
    ssl: Option<SslConfig> := None,
    allowInsecure: bool := false)

  /** A constructed configuration: the port has been filled in. */
  datatype CameraConfig = CameraConfig(
    host: string,
    username: string,
    password: string,
    protocol: Protocol,
    port: int,
    authMethod: AuthMethod,
    timeout: string,
    ssl: Option<SslConfig>,
    allowInsecure: bool)

  /** Why construction failed. In the source each failure raises a
      ConfigurationError called with one argument, which AxisError.__init__
      does not accept (it needs a code and a message); the model keeps the
      failure and its reason. */
  datatype ConfigError = InvalidPort(port: int) | HttpProtocolRequested

  function ErrorValue(e: ConfigError): (err: AxisError)
    ensures err.kind == Configuration
    ensures e.InvalidPort? ==> err.code == "invalid_port"
    ensures e.HttpProtocolRequested? ==> err.code == "http_protocol_requested"
    ensures e.InvalidPort? ==> err.message == "Invalid port number: " + IntToString(e.port)
    ensures e.HttpProtocolRequested? ==>
      err.message == "HTTP protocol requested but allow_insecure=False. Use CameraConfig.http() to explicitly allow HTTP."
  {
    match e
    case InvalidPort(p) =>
      ConfigurationError("invalid_port", "Invalid port number: " + IntToString(p))
    case HttpProtocolRequested =>
      ConfigurationError("http_protocol_requested",
        "HTTP protocol requested but allow_insecure=False. Use CameraConfig.http() to explicitly allow HTTP.")
  }

  predicate ValidPort(p: int) {
    0 < p < 65536
  }

  /** Fields the constructor copies unchanged. */
  predicate Copied(args: ConfigArgs, c: CameraConfig) {
    && c.host == args.host && c.username == args.username && c.password == args.password
    && c.protocol == args.protocol && c.authMethod == args.authMethod
    && c.timeout == args.timeout && c.allowInsecure == args.allowInsecure
  }

  /** CameraConfig(...) with __post_init__: fill in the port and the TLS
      policy in place, then validate the port and then the protocol. */
  method Create(args: ConfigArgs) returns (r: Result<CameraConfig, ConfigError>)
    ensures r.Success? ==> Copied(args, r.value) && ValidPort(r.value.port)
    ensures r.Success? && args.port.None? ==> r.value.port == args.protocol.DefaultPort()
    ensures r.Success? && args.port.Some? ==> r.value.port == args.port.value
    ensures r.Success? && args.ssl.None? && args.protocol == Https ==> r.value.ssl == Some(SslConfig())
    ensures r.Success? && (args.ssl.Some? || args.protocol == Http) ==> r.value.ssl == args.ssl
    ensures args.port.Some? && !ValidPort(args.port.value) ==> r == Failure(InvalidPort(args.port.value))
    ensures (args.port.None? || ValidPort(args.port.value)) && args.protocol == Http && !args.allowInsecure
            ==> r == Failure(HttpProtocolRequested)
    ensures (args.port.None? || ValidPort(args.port.value)) && (args.protocol == Https || args.allowInsecure)
            ==> r.Success?
  {
    var port := args.port;
    if port.None? {
      port := Some(args.protocol.DefaultPort());
    }
    var ssl := args.ssl;
    if ssl.None? && args.protocol.IsSecure() {
      ssl := Some(SslConfig());
    }
    if port.Some? && !ValidPort(port.value) {
      return Failure(InvalidPort(port.value));
    }
    if args.protocol == Http && !args.allowInsecure {
      return Failure(HttpProtocolRequested);
    }
    return Success(CameraConfig(args.host, args.username, args.password, args.protocol, port.value,
                                args.authMethod, args.timeout, ssl, args.allowInsecure));
  }

  /** CameraConfig.http(): HTTP with allow_insecure set, so only the port can be refused. */
  method HttpConfig(host: string, username: string, password: string, port: Option<int> := None)
    returns (r: Result<CameraConfig, ConfigError>)
    ensures r.Success? <==> port.None? || ValidPort(port.value)
    ensures r.Failure? ==> r.error == InvalidPort(port.value)
    ensures r.Success? ==> && r.value.protocol == Http && r.value.allowInsecure && r.value.ssl.None?
                           && r.value.host == host && r.value.username == username && r.value.password == password
                           && r.value.port == (if port.None? then 80 else port.value)
                           && r.value.authMethod == Auto && r.value.timeout == "10.0"
  {
    r := Create(ConfigArgs(host, username, password, protocol := Http, port := port, allowInsecure := true));
  }

  /** CameraConfig.https(): the TLS options are copied into the SslConfig unchanged. */
  method HttpsConfig(host: string, username: string, password: string, verifySsl: bool := true,
                     port: Option<int> := None, caCert: Option<string> := None,
                     certFingerprint: Option<string> := None, clientCert: Option<string> := None,
                     clientKey: Option<string> := None)
    returns (r: Result<CameraConfig, ConfigError>)
    ensures r.Success? <==> port.None? || ValidPort(port.value)
    ensures r.Failure? ==> r.error == InvalidPort(port.value)
    ensures r.Success? ==> && r.value.protocol == Https && !r.value.allowInsecure
                           && r.value.host == host && r.value.username == username && r.value.password == password
                           && r.value.port == (if port.None? then 443 else port.value)
                           && r.value.authMethod == Auto && r.value.timeout == "10.0"
                           && r.value.ssl == Some(SslConfig(verifySsl, caCert, clientCert, clientKey, certFingerprint))
  {
    var ssl := SslConfig(verify := verifySsl, caCertPath := caCert, expectedFingerprint := certFingerprint,
                         clientCertPath := clientCert, clientKeyPath := clientKey);
    r := Create(ConfigArgs(host, username, password, protocol := Https, port := port, ssl := Some(ssl)));
  }

  /** A TLS policy built with no arguments verifies and names no file or fingerprint. */
  lemma DefaultSslPolicy()
    ensures var s := SslConfig();
      s.verify && s.caCertPath.None? && s.clientCertPath.None? && s.clientKeyPath.None? && s.expectedFingerprint.None?
  {
  }

  /** get_base_url(): scheme://host, and ":port" only for a port other than 80 and 443. */
  function GetBaseUrl(c: CameraConfig): (url: string)
    ensures var prefix := c.protocol.Value() + "://" + c.host;
      && prefix <= url
      && (url == prefix <==> c.port == 80 || c.port == 443)
      && (url != prefix ==> url[|prefix|..] == ":" + IntToString(c.port))
  {
    var prefix := c.protocol.Value() + "://" + c.host;
    var portPart := if c.port == 80 || c.port == 443 then "" else ":" + IntToString(c.port);
    assert (prefix + portPart)[|prefix|..] == portPart;
    prefix + portPart
  }

  /** The URL is scheme://host, followed by ":" and the port's digits exactly
      when the port is neither 80 nor 443, whatever the protocol. */
  lemma BaseUrlLayout(c: CameraConfig)
    requires c.port >= 0
    ensures var prefix := c.protocol.Value() + "://" + c.host;
      var url := GetBaseUrl(c);
      && prefix <= url
      && (url == prefix <==> c.port == 80 || c.port == 443)
      && (url != prefix ==> && url[|prefix|] == ':' && AllDigits(url[|prefix| + 1..])
                            && DecimalValue(url[|prefix| + 1..]) == c.port)
  {
    var prefix := c.protocol.Value() + "://" + c.host;
    var url := GetBaseUrl(c);
    if c.port != 80 && c.port != 443 {
      assert url == prefix + ":" + NatToString(c.port);
      assert url[|prefix| + 1..] == NatToString(c.port);
      NatToStringRoundTrip(c.port);
    }
  }
}
