# ax-devil-device-api: a Dafny model of the decision core

ax-devil-device-api is a Python client for Axis network cameras. This
project models the deterministic logic around its HTTP calls and proves
properties of that model. The HTTP calls themselves are not modelled.
The model covers:

- the connection configuration: default ports, the default TLS policy, the
  port and insecure-HTTP checks, and the base URL;
- the data-or-error result value `FeatureResponse`;
- the error taxonomy, including the `SecurityError` message table;
- the protocol handler: its TLS keyword arguments, how it refuses TLS
  verification, and how it classifies exceptions;
- the core request path: header merging and exception mapping;
- the `Client` facade, which creates and caches six feature clients lazily;
- three features (analytics MQTT, SSH users, geocoordinates);
- the error formatter and argument filter of the command-line tools.

The device is a parameter. A feature operation takes `send: Call ->
HttpResponse`. An `HttpResponse` is a status code plus what `response.json()`
and `ET.fromstring` give for its body. "No request is made" is therefore
stated as "the answer is the same for any two `send` functions". Python code
that raises returns an `Outcome` (`Returns(v)` or `Raises(exception)`).

Each source file has one module:

| module | file |
|---|---|
| Values | shared values: Option, Result, JSON, decimal text, zero padding |
| Errors | utils/errors.py, plus the shape of a raised exception |
| Types | core/types.py |
| Config | core/config.py |
| Transport | the HTTP library as the core sees it (responses, XML trees, `find`) |
| Protocol | core/protocol.py |
| CoreClient | core/client.py |
| Facade | client.py |
| UrlQuote | `urllib.parse.quote(s, safe='')` and its inverse |
| AnalyticsMqtt | features/analytics_mqtt.py |
| Ssh | features/ssh.py |
| GeoCoordinates | features/geocoordinates.py |
| CliCore | examples/cli_core.py |

Code that changes state is written imperatively:

- `CameraConfig.__post_init__` fills in the port and TLS policy before it
  validates. It is `Config.Create`.
- The `Client` facade is a class with six nullable slots.
- The `get_users` loop is `Ssh.CollectUsers`, proved equal to `KeptUsers`.
- The `set_orientation` parameter build is `GeoCoordinates.OrientationParams`.
- The CLI rewrites the code of an error object in place. The object is a
  class `ErrorObject` with a mutable `code`, and `FormatErrorMessage`
  modifies it.

Where the source cannot run as written, the model follows the evident
intent:

- `ConfigurationError` is raised with one argument
  (`core/config.py:85`, `core/config.py:88-91`), but `AxisError.__init__`
  needs a code and a message. The model fails with `invalid_port` or
  `http_protocol_requested` and the intended message.
- `NetworkError` is raised with three arguments (`core/protocol.py:49`), but
  it takes two. The model raises a `NetworkError` with the code and
  "Connection error".
- `core/protocol.py` reads `protocol.is_secure` and `verify_ssl` from a
  `DeviceConfig` that is not defined. The handler is modelled over these two
  facts. `CoreClient.HandlerView` derives them from `CameraConfig`
  (`protocol == HTTPS` and `ssl.verify`).
- `core/types.py` imports `BaseError`, which `utils/errors.py` does not
  define. `features/ssh.py` imports `FeatureError` from `core/types.py`. The
  model uses the `AxisError` and `FeatureError` of `utils/errors.py`.
- `FeatureClient.request` is taken to return the device's response. The
  feature base class, `TransportResponse` and the authentication handler are
  not part of this model.

Errors the protocol handler raises (`ssl_not_implemented`, `ssl_error` and
the connection errors) are not caught by `CameraClient.request`. In the
model they leave `Request` as `Raises`.

## Model

All source paths are relative to the repository root.

| member | source | states |
|---|---|---|
| Config.Create | src/ax_devil_device_api/core/config.py:75-91 | A missing port becomes the protocol's default, and a given port is kept. HTTPS without `ssl` gets `SSLConfig()`, and otherwise `ssl` is kept. A port outside 1..65535 fails with `InvalidPort`, and this is checked before the protocol. HTTP without `allow_insecure` fails with `HttpProtocolRequested`. Every other input succeeds, with the remaining fields copied. |
| Config.ErrorValue | src/ax_devil_device_api/core/config.py:84-91 | Each construction failure is a configuration error with code `invalid_port` or `http_protocol_requested`, carrying "Invalid port number: " and the port, or the allow_insecure message. |
| Config.HttpConfig | src/ax_devil_device_api/core/config.py:98-108 | `http()` succeeds exactly for a missing or valid port. The result is HTTP with `allow_insecure`, no TLS policy, port 80 by default, automatic auth and a 10 s timeout. |
| Config.HttpsConfig | src/ax_devil_device_api/core/config.py:110-144 | `https()` succeeds exactly for a missing or valid port. The result is HTTPS without `allow_insecure`, port 443 by default, with the TLS options copied unchanged into the `SSLConfig`. |
| Config.DefaultSslPolicy | src/ax_devil_device_api/core/config.py:30-45 | `SSLConfig()` verifies and names no CA file, client certificate, key or fingerprint. |
| Config.GetBaseUrl | src/ax_devil_device_api/core/config.py:146-149 | The base URL starts with `scheme://host` and equals it exactly for port 80 or 443. Otherwise ":" and the port follow. |
| Config.BaseUrlLayout | src/ax_devil_device_api/core/config.py:146-149 | The base URL is `scheme://host`. It is followed by ":" and the port's decimal digits exactly when the port is neither 80 nor 443, whatever the protocol. |
| Types.New | src/ax_devil_device_api/core/types.py:8-25 | Construction succeeds exactly when data and error are not both set, and then stores both unchanged. Otherwise it fails with the source's message. |
| Types.Ok | src/ax_devil_device_api/core/types.py:42-45 | `ok(d)` is a success holding `d` and no error. |
| Types.CreateError | src/ax_devil_device_api/core/types.py:47-50 | `create_error(e)` is not a success, holds `e` and has no data. |
| Types.OkNoneIsEmptySuccess | src/ax_devil_device_api/core/types.py:27-45 | `ok(None)` holds neither data nor error and is a success. |
| Types.SuccessExactlyWithoutError | src/ax_devil_device_api/core/types.py:27-40 | `is_success` holds exactly when the error is None, and a failure holds no data. |
| Errors.NewError | src/ax_devil_device_api/utils/errors.py:3-9 | The code and message are kept verbatim, and the text is `code: message`. The details become `{}` exactly when none or empty ones are passed; otherwise they are kept. |
| Errors.AuthenticationError | src/ax_devil_device_api/utils/errors.py:5-13 | An authentication kind with the code and message kept, and `details or {}`: missing or empty details become `{}`, and any other details are kept. |
| Errors.ConfigurationError | src/ax_devil_device_api/utils/errors.py:5-17 | A configuration kind with the code and message kept, and `details or {}`: missing or empty details become `{}`, and any other details are kept. |
| Errors.NetworkError | src/ax_devil_device_api/utils/errors.py:19-22 | A network kind with the code and message kept, whose details are always `{}`. |
| Errors.SecurityError | src/ax_devil_device_api/utils/errors.py:24-34 | An explicit message wins. Without one, the message comes from the default table. Missing or empty details become `{}` (the base class's `details or {}`), and any other details are kept. |
| Errors.SecurityMessageTable | src/ax_devil_device_api/utils/errors.py:26-33 | The four known codes get their table messages, and every other code gets "Security error". |
| Errors.FeatureError | src/ax_devil_device_api/utils/errors.py:5-38 | A feature kind with the code and message kept, and `details or {}`: missing or empty details become `{}`, and any other details are kept. |
| Transport.RaiseForStatus | src/ax_devil_device_api/features/analytics_mqtt.py:114 | `raise_for_status()` raises an HTTPError exactly for 4xx and 5xx statuses. |
| Transport.ResponseJson | src/ax_devil_device_api/features/analytics_mqtt.py:107 | `response.json()` gives the document, or raises ValueError with the decoder's reason. |
| Transport.FindChild | src/ax_devil_device_api/features/geocoordinates.py:28 | `find("tag")` finds something exactly when some direct child has that tag, and then returns the first direct child, in document order, with that tag. |
| Transport.FindDescendant | src/ax_devil_device_api/features/geocoordinates.py:89 | `find(".//tag")` is None exactly when no element strictly below has that tag, and otherwise returns the first such element in document order (preorder). |
| Protocol.GetSslKwargs | src/ax_devil_device_api/core/protocol.py:16-24 | The keyword arguments are `{"verify": False}` for HTTPS and `{}` otherwise. |
| Protocol.ConnectionErrorCode | src/ax_devil_device_api/core/protocol.py:47-49 | `connection_refused` is returned exactly when the text contains "Connection refused", and `connection_error` otherwise. |
| Protocol.Classify | src/ax_devil_device_api/core/protocol.py:44-49 | An SSL failure becomes SecurityError `ssl_error` with the exception text as details. This is checked before the connection branch. Any other connection failure becomes a NetworkError with the classified code. Every other exception passes through unchanged. |
| Protocol.VerifyOnRefuses | src/ax_devil_device_api/core/protocol.py:36-40 | With HTTPS and verification on, the handler raises SecurityError `ssl_not_implemented`. The result is the same whatever the request function would do, so that function is never called. |
| Protocol.ExecuteRequest | src/ax_devil_device_api/core/protocol.py:26-49 | With HTTPS and verification on it raises SecurityError `ssl_not_implemented`. Otherwise the request function is called with `get_ssl_kwargs()`, its response is returned unchanged, and its exception is classified by `Classify`. |
| CoreClient.MergeHeaders | src/ax_devil_device_api/core/client.py:35-56 | The headers have the five defaults' keys plus the caller's. A caller value wins, and every default the caller did not give keeps its value. |
| CoreClient.Prepare | src/ax_devil_device_api/core/client.py:51-67 | The request carries the endpoint's method, the configured timeout, the merged headers, the caller's own params and body, the handler's TLS arguments, the base URL of `get_base_url()` and the endpoint itself. |
| CoreClient.HandlerView | src/ax_devil_device_api/core/client.py:47 | The handler is secure exactly for HTTPS, and verifies exactly when the TLS policy exists and verifies. |
| CoreClient.MapException | src/ax_devil_device_api/core/client.py:77-90 | An AuthenticationError is kept as it is. A timeout becomes `request_timeout` naming the configured timeout. Any other request exception becomes `request_failed` with its text. |
| CoreClient.Request | src/ax_devil_device_api/core/client.py:49-90 | A verifying HTTPS configuration raises `ssl_not_implemented`. Otherwise the prepared request is sent: its response is returned unchanged, an SSL failure raises SecurityError `ssl_error`, a connection failure raises NetworkError `connection_refused` or `connection_error`, and any other exception becomes the error result of `MapException`. |
| CoreClient.AuthenticationErrorKept | src/ax_devil_device_api/core/client.py:77-78 | An AuthenticationError raised while sending becomes an error result carrying that same error. |
| CoreClient.CameraClient.constructor | src/ax_devil_device_api/core/client.py:43-47 | It keeps the configuration and the handler view built from it. |
| CoreClient.FeatureClient.constructor | src/ax_devil_device_api/core/client.py:14-19 | A feature client keeps its kind and the core client it was given. |
| Facade.Client.constructor | src/ax_devil_device_api/client.py:33-43 | One fresh core client is built from the configuration, and all six slots start empty. |
| Facade.Client.Device | src/ax_devil_device_api/client.py:45-50 | The first access creates a device client on the shared core and stores it. Later accesses return the stored one. No other slot changes. |
| Facade.Client.Network | src/ax_devil_device_api/client.py:52-57 | As for `Device`, for the network slot. |
| Facade.Client.Media | src/ax_devil_device_api/client.py:59-64 | As for `Device`, for the media slot. |
| Facade.Client.GeoCoordinates | src/ax_devil_device_api/client.py:66-71 | As for `Device`, for the geocoordinates slot. |
| Facade.Client.MqttClient | src/ax_devil_device_api/client.py:73-78 | As for `Device`, for the MQTT client slot. |
| Facade.Client.AnalyticsMqtt | src/ax_devil_device_api/client.py:80-85 | As for `Device`, for the analytics MQTT slot. |
| UrlQuote.Quote | src/ax_devil_device_api/features/analytics_mqtt.py:166-167 | The encoded id has only unreserved characters and %HH triples, contains no '/', and unquoting it gives back the id (sections 2.1 and 2.3 of RFC 3986, with UTF-8). |
| UrlQuote.QuoteKeepsUnreserved | src/ax_devil_device_api/features/analytics_mqtt.py:166-167 | An id made only of unreserved characters is left unchanged. |
| AnalyticsMqtt.NewPublisherConfig | src/ax_devil_device_api/features/analytics_mqtt.py:34-51 | The configuration holds the given id, data source key, topic, QoS, retain and prefix flags. |
| AnalyticsMqtt.PublisherDefaults | src/ax_devil_device_api/features/analytics_mqtt.py:49-51 | Without the optional arguments, QoS is 0 and retain and use_topic_prefix are false. |
| AnalyticsMqtt.ToPayload | src/ax_devil_device_api/features/analytics_mqtt.py:53-64 | The payload has only "data", which holds exactly the six keys, each with its field's value. |
| AnalyticsMqtt.PublisherFromResponse | src/ax_devil_device_api/features/analytics_mqtt.py:66-76 | It returns exactly for a dict, and any other value raises the AttributeError of `.get`. |
| AnalyticsMqtt.DataSourceFromResponse | src/ax_devil_device_api/features/analytics_mqtt.py:18-32 | It returns exactly for a dict, and any other value raises the AttributeError of `.get`. |
| AnalyticsMqtt.PayloadRoundTrip | src/ax_devil_device_api/features/analytics_mqtt.py:53-76 | Reading back a payload's "data" gives the configuration it was made from. |
| AnalyticsMqtt.MissingKeysAreNone | src/ax_devil_device_api/features/analytics_mqtt.py:66-76 | Missing keys read back as None, not as the constructor's defaults. |
| AnalyticsMqtt.EnvelopeError | src/ax_devil_device_api/features/analytics_mqtt.py:110 | The message is "Unknown error" without an "error" member, and the member's text when it is a string. |
| AnalyticsMqtt.JsonRequestWrapper | src/ax_devil_device_api/features/analytics_mqtt.py:103-115 | A body that is not JSON raises ValueError, and one that is not a dict raises AttributeError. A status other than "success" raises `request_failed`. A missing "data" raises `parse_failed`. The call returns exactly when the body passes these checks and the status code is not 4xx or 5xx, and then it returns "data". |
| AnalyticsMqtt.EnvelopeBeforeStatus | src/ax_devil_device_api/features/analytics_mqtt.py:109-114 | An error envelope is reported as `request_failed` even on an HTTP error status. |
| AnalyticsMqtt.MapAll | src/ax_devil_device_api/features/analytics_mqtt.py:125 | The list comprehension returns exactly when every item maps. It then has one result per item, in order. Otherwise it raises what the first failing item raises. |
| AnalyticsMqtt.ListFrom | src/ax_devil_device_api/features/analytics_mqtt.py:124-134 | A list maps item by item, and a text maps character by character, so an empty one gives []. An empty dict gives [], a non-empty one raises the AttributeError of `.get` on a str, and None, a bool or an int is not iterable and raises TypeError. |
| AnalyticsMqtt.ListFromWithGet | src/ax_devil_device_api/features/analytics_mqtt.py:124-134 | With a mapper that reads dicts and raises the AttributeError of `.get` otherwise, a failing list raises for its first entry that is not a dict, and a non-empty text raises the AttributeError on a str. |
| AnalyticsMqtt.StringEntriesRaise | src/ax_devil_device_api/features/analytics_mqtt.py:30-76 | Both mappers raise the same AttributeError on any string entry. |
| AnalyticsMqtt.GetDataSources | src/ax_devil_device_api/features/analytics_mqtt.py:118-125 | A failure of the wrapper propagates. A list gives a result exactly when every entry is a dict, then one data source per entry, in order, each with the entry's "key". Otherwise it raises the AttributeError of the first entry that is not a dict. An empty text or dict gives [], a non-empty one raises the AttributeError on a str, and None, a bool or an int raises TypeError. |
| AnalyticsMqtt.ListPublishers | src/ax_devil_device_api/features/analytics_mqtt.py:127-134 | A failure of the wrapper propagates. A list gives a result exactly when every entry is a dict, then one publisher per entry, in order, each read from that entry. Otherwise it raises the AttributeError of the first entry that is not a dict. An empty text or dict gives [], a non-empty one raises the AttributeError on a str, and None, a bool or an int raises TypeError. |
| AnalyticsMqtt.CreateEchoes | src/ax_devil_device_api/features/analytics_mqtt.py:136-152 | A device that accepts the payload and echoes its "data" gives back the configuration that was sent. |
| AnalyticsMqtt.CreatePublisher | src/ax_devil_device_api/features/analytics_mqtt.py:136-152 | A failure of the wrapper propagates, and a "data" value that is not a dict raises AttributeError. Otherwise the result is read from that dict, missing keys as None. |
| AnalyticsMqtt.RemovePublisher | src/ax_devil_device_api/features/analytics_mqtt.py:154-179 | An empty id raises `invalid_id`. Otherwise the call returns exactly when the DELETE's status is not 4xx or 5xx, and it then returns True. A 4xx or 5xx status raises the HTTPError of `raise_for_status()`. |
| AnalyticsMqtt.EmptyIdSendsNothing | src/ax_devil_device_api/features/analytics_mqtt.py:163-164 | An empty id is refused whatever the device would answer, so no request is made. |
| AnalyticsMqtt.RemovePathLayout | src/ax_devil_device_api/features/analytics_mqtt.py:166-172 | The path is BASE_PATH/publishers/ followed by one well-escaped segment without '/', and decoding that segment gives the id. |
| Ssh.AddUser | src/ax_devil_device_api/features/ssh.py:19-42 | An empty username or password gives `username_password_required`. Success happens exactly on status 201 and echoes the given username and comment. Any other status gives `add_user_error` "Failed to add user: HTTP status". |
| Ssh.UserEntry | src/ax_devil_device_api/features/ssh.py:60-94 | For a dict, an entry with "username" gives that user and its "comment", and one without is skipped. Only a dict yields a user. |
| Ssh.KeptUsers | src/ax_devil_device_api/features/ssh.py:59-68 | The users are never more than the entries. |
| Ssh.KeptUsersAppend | src/ax_devil_device_api/features/ssh.py:59-68 | Collecting over a concatenation collects over each part in turn, and the first raise ends it. |
| Ssh.KeptUsersSingle | src/ax_devil_device_api/features/ssh.py:61-66 | A dict entry with a username is kept, and one without is skipped. |
| Ssh.KeptUsersAllNamed | src/ax_devil_device_api/features/ssh.py:59-68 | When every entry is a dict with a username, every entry is kept: one user per entry, in order, with its username and its "comment" (None when missing). |
| Ssh.CollectUsers | src/ax_devil_device_api/features/ssh.py:59-68 | The loop's result is the collection `KeptUsers` states. |
| Ssh.GetUsers | src/ax_devil_device_api/features/ssh.py:44-70 | Any status other than 200 gives `get_users_error`. A body that is not JSON gives `failed_to_parse_response`, and a body that is not a dict raises AttributeError. A "data" that is not a list gives `invalid_response_format`. Otherwise the answer is the users the loop collects. |
| Ssh.GetUser | src/ax_devil_device_api/features/ssh.py:72-96 | An empty name gives `username_required`, and any status other than 200 gives `get_user_error`. A body that is not JSON gives `failed_to_parse_response`, and one that is not a dict raises AttributeError. Otherwise the "data" value decides: a user is returned, a skipped entry gives `invalid_response_format`, and the entry's own raise propagates. |
| Ssh.GetUserMissingDataRaises | src/ax_devil_device_api/features/ssh.py:85-87 | A 200 answer whose dict has no "data" raises TypeError "argument of type 'NoneType' is not iterable". |
| Ssh.ModifyPayload | src/ax_devil_device_api/features/ssh.py:107-111 | The payload has a password or comment key exactly when that field is given, with its value, and no other key. |
| Ssh.ModifyUser | src/ax_devil_device_api/features/ssh.py:98-124 | An empty name gives `username_required`. Neither field given gives the at-least-one error. Success happens exactly on status 200 and echoes the name and comment. Any other status gives `modify_user_error` with "Failed to modify user: HTTP status". |
| Ssh.RemoveUser | src/ax_devil_device_api/features/ssh.py:126-139 | An empty name gives `username_required`. Success happens exactly on status 200 and carries no data. Any other status gives a FeatureError `remove_user_error` "Failed to remove user: HTTP status" with empty details. |
| Ssh.GuardsSendNothing | src/ax_devil_device_api/features/ssh.py:21-129 | The empty-name guards answer the same whatever the device would say, so no request is made. |
| GeoCoordinates.ParseXml | src/ax_devil_device_api/features/geocoordinates.py:16-22 | It gives the root, or raises ValueError "Invalid XML format: " followed by the parser's reason. |
| GeoCoordinates.XmlValue | src/ax_devil_device_api/features/geocoordinates.py:24-29 | It gives None for no element or nothing found, and otherwise the found element's text. |
| GeoCoordinates.XmlBool | src/ax_devil_device_api/features/geocoordinates.py:31-34 | `xml_bool` holds exactly when the text exists and is "true" in any mix of cases. |
| GeoCoordinates.StripLeft | src/ax_devil_device_api/features/geocoordinates.py:59 | The removed prefix is all whitespace, and what remains does not start with whitespace. |
| GeoCoordinates.StripRight | src/ax_devil_device_api/features/geocoordinates.py:59 | The removed suffix is all whitespace, and what remains does not end with whitespace. |
| GeoCoordinates.ParseIso6709Coordinate | src/ax_devil_device_api/features/geocoordinates.py:54-62 | Fewer than 2 characters raises ValueError, and this is checked before stripping. Text that strips to nothing raises IndexError. Otherwise a leading '-' negates, and a leading sign is dropped before the number. |
| GeoCoordinates.LengthCheckedBeforeStrip | src/ax_devil_device_api/features/geocoordinates.py:56-59 | "5" is refused while " 5" is accepted. |
| GeoCoordinates.FormatCoord | src/ax_devil_device_api/features/geocoordinates.py:45-50 | The text is the sign ('+' when non-negative), at least `width` digits denoting the degrees, '.', and exactly six digits denoting the micro-degrees. |
| GeoCoordinates.FormatIso6709Coordinate | src/ax_devil_device_api/features/geocoordinates.py:43-52 | Latitude is formatted with width 2 and longitude with width 3, and the coordinate parser reads each back with its sign. |
| GeoCoordinates.ParseFormatted | src/ax_devil_device_api/features/geocoordinates.py:43-62 | Parsing a formatted coordinate gives back its sign and the digits after it. |
| GeoCoordinates.LocationFromParams | src/ax_devil_device_api/features/geocoordinates.py:68-83 | It returns exactly when both parameters are present and not empty, with is_valid True. Otherwise it raises "Missing required location parameters". |
| GeoCoordinates.LocationFromXml | src/ax_devil_device_api/features/geocoordinates.py:86-101 | Invalid XML raises ValueError "Invalid XML format: ...". A missing Location raises "Missing Location element". Otherwise Lat and Lng (missing ones read as "") are parsed in that order, the first parse raise propagates, and the location holds both coordinates with is_valid `xml_bool` of ValidPosition. |
| GeoCoordinates.MissingLatRaises | src/ax_devil_device_api/features/geocoordinates.py:94 | A Location without Lat raises ValueError "Empty or invalid coordinate string". |
| GeoCoordinates.TryFloatText | src/ax_devil_device_api/features/geocoordinates.py:36-41 | An absent or empty text gives None. |
| GeoCoordinates.OrientationFromXml | src/ax_devil_device_api/features/geocoordinates.py:116-129 | Invalid XML raises ValueError. Without GetSuccess there is only `is_valid: False`. Otherwise heading, tilt, roll and installation height are `try_float` of Heading, Tilt, Roll and InstallationHeight, and is_valid is `xml_bool` of ValidHeading. |
| GeoCoordinates.HandleResponse | src/ax_devil_device_api/features/geocoordinates.py:139-154 | Any status other than 200 gives `invalid_response` "HTTP status". A parser exception gives `parse_error` with its text. Otherwise the answer is ok(parsed). |
| GeoCoordinates.CheckXmlResponseForSuccess | src/ax_devil_device_api/features/geocoordinates.py:156-184 | Any status other than 200 gives the caller's code with "HTTP status". Invalid XML gives `invalid_response`. An Error element gives the caller's code with its code and description. Without Error or Success the answer is "No success confirmation in response". Success happens exactly with a Success element and no Error one, with data True. |
| GeoCoordinates.ErrorBeatsSuccess | src/ax_devil_device_api/features/geocoordinates.py:166-179 | An Error element decides the answer even when a Success element is present. |
| GeoCoordinates.GetLocation | src/ax_devil_device_api/features/geocoordinates.py:192-198 | Any status other than 200 gives `invalid_response`. It succeeds exactly on status 200 with a readable location, and then carries that location. A raise of the parser gives `parse_error` with its text. |
| GeoCoordinates.SetLocation | src/ax_devil_device_api/features/geocoordinates.py:200-209 | Any status other than 200 gives `set_failed` "HTTP status". With status 200, invalid XML gives `invalid_response`, an Error element gives `set_failed` with its code and description, and no confirmation gives `set_failed` "No success confirmation in response". It succeeds exactly with a Success element and no Error one, with data True. |
| GeoCoordinates.SetLocationSendsIso6709 | src/ax_devil_device_api/features/geocoordinates.py:200-209 | lat and lng are sent as coordinate texts of widths 2 and 3, and each parses back with its sign. |
| GeoCoordinates.GetOrientation | src/ax_devil_device_api/features/geocoordinates.py:213-220 | Any status other than 200 gives `invalid_response`. With status 200 it fails only for a body that is not XML, as `parse_error`, and otherwise carries the parsed orientation. |
| GeoCoordinates.OrientationParams | src/ax_devil_device_api/features/geocoordinates.py:225-237 | The parameters are action=set plus heading, tilt, roll and inst_height for exactly the entries that are given, each with the given value. |
| GeoCoordinates.OrientationParamsUnique | src/ax_devil_device_api/features/geocoordinates.py:225-237 | The orientation determines these parameters. |
| GeoCoordinates.NothingGivenSendsAction | src/ax_devil_device_api/features/geocoordinates.py:225-237 | With nothing given, only action=set is sent. |
| GeoCoordinates.SetOrientation | src/ax_devil_device_api/features/geocoordinates.py:222-242 | It sends those parameters and answers with the success check under `set_failed`. |
| GeoCoordinates.ApplySettings | src/ax_devil_device_api/features/geocoordinates.py:244-256 | It succeeds exactly on status 200 with ok(True). Otherwise it gives `apply_failed` "Failed to apply settings: HTTP status". |
| CliCore.KnownOrDefault | src/ax_devil_device_api/examples/cli_core.py:91-141 | A known code gets its table message, and an unknown one gets "code: message". |
| CliCore.ColorFor | src/ax_devil_device_api/examples/cli_core.py:142 | The colour is yellow exactly for a SecurityError, and red otherwise. |
| CliCore.RewriteCode | src/ax_devil_device_api/examples/cli_core.py:138-139 | `ssl_error` becomes `ssl_verification_failed`, and every other code is kept. |
| CliCore.OriginalErrorSuffix | src/ax_devil_device_api/examples/cli_core.py:145-147 | Empty details, or details without `original_error`, add nothing. An error entry adds "\n---\n" and its formatted message, and any other entry raises the AttributeError of `.code`. Text details add nothing unless they contain "original_error", which raises TypeError, and error details raise the TypeError of `in`. |
| CliCore.ErrorObject.constructor | src/ax_devil_device_api/utils/errors.py:5-9 | The CLI's error object holds the error's code, kind, message, details and text. |
| CliCore.FormatColors | src/ax_devil_device_api/examples/cli_core.py:132-142 | The colour is white exactly for a cancellation, and yellow exactly for a SecurityError. |
| CliCore.UnexplainedIsInternal | src/ax_devil_device_api/examples/cli_core.py:134-135 | Authentication and configuration errors give "Internal Error: " and their text, in red. |
| CliCore.SslErrorMessage | src/ax_devil_device_api/examples/cli_core.py:138-141 | An `ssl_error` without details, or with text details (as the protocol handler raises it) that do not contain "original_error", gets the certificate message in yellow. |
| CliCore.FormatErrorMessage | src/ax_devil_device_api/examples/cli_core.py:88-148 | It gives the formatted message and colour for the code as it was on entry. It rewrites the object's code exactly when the error is one it explains. |
| CliCore.HandleError | src/ax_devil_device_api/examples/cli_core.py:151-162 | It prints the formatted message with "Error: " unless the prefix is off or the operation was cancelled, and it returns 1. As `format_error_message` does, it renames the error's code in place (ssl_error to ssl_verification_failed) exactly for an explained error, and leaves any other code as it was. |
| CliCore.GetClientArgs | src/ax_devil_device_api/examples/cli_core.py:178-182 | It keeps exactly the entries whose keys are among the six client keys, with their values unchanged. |
| CliCore.ClientArgsFilter | src/ax_devil_device_api/examples/cli_core.py:178-182 | Filtering twice is the same as filtering once, and `debug` is never passed on. |

## Left out

- HTTP, TLS, sessions and the authentication handler are not modelled: `requests.request`, `AuthHandler`, `TransportResponse`, `build_url` and `TransportClient` are not part of this model. The device is the `send` parameter.
- The `urllib3` warning filter in `CameraConfig.__post_init__` (`core/config.py:93-96`) is I/O and is left out.
- src/ax_devil_device_api/features/discovery.py is not part of this model. A docstring in it closes early, leaving prose as code, and it uses an undefined `APICollection`.
- Floating point is not modelled. The timeout is carried as its printed text.
- FormatCoord: the coordinate is given by its sign, whole degrees and micro-degrees. The `abs`, `int` and `fraction * 1000000` truncation of the float is not modelled.
- ParseIso6709Coordinate: `float()` is not applied. The result is the sign and the text `float()` would read, so a malformed number is not refused here.
- TryFloatText: the text is kept when it is not empty. The ValueError that `float()` catches for non-numeric text is not modelled.
- LocationFromParams: the `float()` calls and their "Invalid coordinate format" error are not modelled. The parameters are kept as text.
- `orientation_from_params` is left out, because it is built from `try_float` and `bool(heading)` over floats.
- HandleResponse: the `parser_func is bool` branch is left out, because no caller passes `bool`.
- SetLocation and SetOrientation: the `except` that turns a raised exception into `_handle_request_error` is left out, because `send` always answers.
- RaiseForStatus: the HTTPError text carries only the status code, not the reason phrase and URL.
- EnvelopeError: an "error" member that is a dict or list is rendered as "Unknown error", not as its Python repr. A None member is rendered as "None", while the source keeps the None object as the message.
- XmlBool: `str.lower()` is modelled on ASCII letters. No other character lowers to a letter of "true", so the comparison is exact.
- HandleError: `click.secho` output and `show_debug_info` under `--debug` are left out. The printed text and colour are the result.
- `handle_result`, `create_client`, `common_options` and the click commands of the CLI modules are left out, because they are interactive I/O.
- The debug `print` calls in `features/analytics_mqtt.py` (lines 113, 145 and 151) are left out.
- The facade's `if not self._device` truthiness test is modelled as a test for null, because a feature client object is always truthy.
- Errors.NetworkError: the `message=None` default is not modelled, because every call in the core passes a message.
