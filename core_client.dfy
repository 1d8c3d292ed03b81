/** The core request path (core/client.py): default transport headers merged
    with the caller's, the request handed to the protocol handler, and the
    exceptions that reach request() mapped to error results. The objects
    the source builds here (CameraClient and the FeatureClient base) are
    classes whose fields are set once by their constructors. */
module CoreClient {
  import opened Values
  import opened Errors
  import opened Config
  import opened Transport
  import opened Protocol

  /** _TRANSPORT_HEADERS. */
  const TransportHeaders: map<string, string> := map[
    "Accept" := "application/json",
    "User-Agent" := "ax-devil-device-api/1.0",
    "Content-Type" := "application/json",
    "Connection" := "keep-alive",
    "Accept-Encoding" := "gzip, deflate"]

  /** headers = _TRANSPORT_HEADERS.copy(); headers.update(caller). The
      class-level defaults are a value here and remain as they were. */
  function MergeHeaders(caller: map<string, string>): (headers: map<string, string>)
    ensures headers.Keys == TransportHeaders.Keys + caller.Keys
    ensures forall k :: k in caller ==> headers[k] == caller[k]
    ensures forall k :: k in TransportHeaders && k !in caller ==> headers[k] == TransportHeaders[k]
  {
    TransportHeaders + caller
  }

  /** What requests.request receives: the endpoint's method, the base URL
      and the endpoint (build_url is not part of this model), the merged
      headers, the configured timeout, the remaining keyword arguments (the
      "headers" entry popped) and the TLS arguments of the protocol handler. */
  datatype PreparedRequest = PreparedRequest(
    verb: string,
    baseUrl: string,
    endpoint: Endpoint,
    params: Option<map<string, string>>,
    json: Option<Json>,
    headers: map<string, string>,
    timeout: string,
    ssl: SslKwargs)

  function Prepare(config: CameraConfig, endpoint: Endpoint, options: RequestOptions, ssl: SslKwargs): (p: PreparedRequest)
    ensures p.verb == endpoint.verb && p.timeout == config.timeout && p.ssl == ssl
    ensures p.headers == MergeHeaders(options.headers.GetOr(map[]))
    ensures p.params == options.params && p.json == options.json
    ensures p.baseUrl == GetBaseUrl(config) && p.endpoint == endpoint
  {
    PreparedRequest(endpoint.verb, GetBaseUrl(config), endpoint, options.params, options.json,
                    MergeHeaders(options.headers.GetOr(map[])), config.timeout, ssl)
  }

  /** The protocol handler's view of a configuration: HTTPS, and whether its TLS policy verifies. */
  function HandlerView(config: CameraConfig): (h: HandlerConfig)
    ensures h.isSecure <==> config.protocol == Https
    ensures h.verifySsl <==> config.ssl.Some? && config.ssl.value.verify
  {
    HandlerConfig(config.protocol.IsSecure(), config.ssl.Some? && config.ssl.value.verify)
  }

  /** TransportResponse: the device's response, or an error result. */
  datatype TransportResult = Response(response: HttpResponse) | ErrorResult(error: AxisError)

  /** The authentication handler and requests.request together: the outcome of sending one prepared request. */
  type Sender = PreparedRequest -> CallOutcome<HttpResponse>

  function TimeoutMessage(config: CameraConfig): string {
    "Request timed out after " + config.timeout + "s"
  }

  /** The except clauses of request(): an AuthenticationError first, then a
      timeout, then any other request exception. */
  function MapException(config: CameraConfig, e: RequestException): (err: AxisError)
    ensures e.AuthFailure? ==> err == e.error
    ensures e.TimeoutFailure? ==> err == NetworkError("request_timeout", TimeoutMessage(config))
    ensures !e.AuthFailure? && !e.TimeoutFailure? ==> err == NetworkError("request_failed", e.text)
  {
    match e
    case AuthFailure(authError) => authError
    case TimeoutFailure(_) => NetworkError("request_timeout", TimeoutMessage(config))
    case _ => NetworkError("request_failed", e.text)
  }

  /** An HTTPS configuration whose TLS policy verifies (the default of CameraConfig.https()). */
  predicate Verifying(config: CameraConfig) {
    config.protocol == Https && config.ssl.Some? && config.ssl.value.verify
  }

  /** CameraClient.request(endpoint, **kwargs). A verifying configuration
      raises ssl_not_implemented without sending. Otherwise the prepared
      request is sent once: its response is returned unchanged, an SSL or
      connection failure leaves request() as the SecurityError or
      NetworkError the protocol handler raises, and any other exception
      becomes an error result. */
  function Request(config: CameraConfig, endpoint: Endpoint, options: RequestOptions, send: Sender): (r: Outcome<TransportResult>)
    ensures Verifying(config) ==>
      r == Raises(AxisRaised(SecurityError("ssl_not_implemented", Some(NotImplementedMessage))))
    ensures var sent := send(Prepare(config, endpoint, options, GetSslKwargs(HandlerView(config))));
      && (!Verifying(config) && sent.Completed? ==> r == Returns(Response(sent.response)))
      && (!Verifying(config) && sent.Threw? && sent.exception.SslFailure? ==>
            r == Raises(AxisRaised(SecurityError("ssl_error", Some("SSL error occurred"), Some(DText(sent.exception.text))))))
      && (!Verifying(config) && sent.Threw? && sent.exception.ConnectionFailure? ==>
            r == Raises(AxisRaised(NetworkError(ConnectionErrorCode(sent.exception.text), "Connection error"))))
      && (!Verifying(config) && sent.Threw? && !sent.exception.SslFailure? && !sent.exception.ConnectionFailure? ==>
            r == Returns(ErrorResult(MapException(config, sent.exception))))
  {
    var wrapped := (ssl: SslKwargs) => send(Prepare(config, endpoint, options, ssl));
    match ExecuteRequest(HandlerView(config), wrapped)
    case Returned(response) => Returns(Response(response))
    case Raised(error) => Raises(AxisRaised(error))
    case Passed(e) => Returns(ErrorResult(MapException(config, e)))
  }

  /** An AuthenticationError raised while sending becomes an error result carrying that same error. */
  lemma AuthenticationErrorKept(config: CameraConfig, endpoint: Endpoint, options: RequestOptions, send: Sender, error: AxisError)
    requires !Verifying(config)
    requires send(Prepare(config, endpoint, options, GetSslKwargs(HandlerView(config)))) == Threw(AuthFailure(error))
    ensures Request(config, endpoint, options, send) == Returns(ErrorResult(error))
  {
  }

  /** CameraClient: holds its configuration and the protocol handler built from it. */
  class CameraClient {
    const config: CameraConfig
    const protocol: HandlerConfig

    constructor (config: CameraConfig)
      ensures this.config == config && protocol == HandlerView(config)
    {
      this.config := config;
      protocol := HandlerView(config);
    }
  }

  /** The concrete feature client classes the facade builds. */
  datatype FeatureKind = DeviceFeature | NetworkFeature | MediaFeature | GeoCoordinatesFeature | MqttClientFeature | AnalyticsMqttFeature

  /** FeatureClient: a feature client keeps the core client it was given. */
  class FeatureClient {
    const kind: FeatureKind
    const camera: CameraClient

    constructor (kind: FeatureKind, camera: CameraClient)
      ensures this.kind == kind && this.camera == camera
    {
      this.kind := kind;
      this.camera := camera;
    }
  }
}
