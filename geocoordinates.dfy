/** The geocoordinates feature (features/geocoordinates.py): small XML
    readers, the ISO 6709 coordinate text, the response checks shared by the
    operations, and the parameters of the orientation request. Floating
    point is not modelled: a coordinate is formatted from its sign, its
    whole degrees and its micro-degrees, and parsing yields the sign and the
    text handed to float(). */
module GeoCoordinates {
  import opened Values
  import opened Errors
  import opened Types
  import opened Transport

  // ----- XML helpers -----

  /** The two kinds of ElementTree path the module uses: "Tag" and ".//Tag". */
  datatype Path = Child(tag: string) | Descendant(tag: string)

  function Find(e: Xml, p: Path): (r: Option<Xml>)
    ensures r.Some? ==> r.value.tag == p.tag
  {
    match p
    case Child(t) => FindChild(e, t)
    case Descendant(t) => FindDescendant(e, t)
  }

  /** parse_xml(text): the root, or the ValueError that wraps the parse error. */
  function ParseXml(xml: XmlParse): (r: Outcome<Xml>)
    ensures xml.XmlOk? ==> r == Returns(xml.root)
    ensures xml.XmlFailed? ==> r == Raises(BuiltinRaised(ValueError, "Invalid XML format: " + xml.reason))
  {
    match xml
    case XmlOk(root) => Returns(root)
    case XmlFailed(reason) => Raises(BuiltinRaised(ValueError, "Invalid XML format: " + reason))
  }

  /** xml_value(element, path): the text of the element found, None when
      there is no element or it has no text. */
  function XmlValue(element: Option<Xml>, p: Path): (v: Option<string>)
    ensures element.None? ==> v.None?
    ensures element.Some? && Find(element.value, p).None? ==> v.None?
    ensures element.Some? && Find(element.value, p).Some? ==> v == Find(element.value, p).value.text
  {
    if element.None? then None
    else match Find(element.value, p)
      case None => None
      case Some(found) => found.text
  }

  lemma LowerIsLetter(c: char, l: char)
    requires l == 't' || l == 'r' || l == 'u' || l == 'e'
    ensures LowerAscii(c) == l <==> c == l || c as int == l as int - 32
  {
  }

  /** A text lowers to "true" exactly when it is "true" in some mix of cases. */
  lemma LowerIsTrue(t: string)
    ensures LowerAsciiString(t) == "true" <==> |t| == 4 && forall i :: 0 <= i < 4 ==> t[i] == "true"[i] || t[i] == "TRUE"[i]
  {
    var lower := LowerAsciiString(t);
    if |t| == 4 && forall i :: 0 <= i < 4 ==> t[i] == "true"[i] || t[i] == "TRUE"[i] {
      forall i | 0 <= i < 4
        ensures lower[i] == "true"[i]
      {
        LowerIsLetter(t[i], "true"[i]);
      }
      assert lower == "true";
    }
    if lower == "true" {
      forall i | 0 <= i < 4
        ensures t[i] == "true"[i] || t[i] == "TRUE"[i]
      {
        assert LowerAscii(t[i]) == "true"[i];
        LowerIsLetter(t[i], "true"[i]);
      }
    }
  }

  /** xml_bool(element, path): true exactly for a text that is "true" in any
      mix of cases. str.lower() is modelled on ASCII letters; no other
      character lowers to one of the letters of "true". */
  function XmlBool(element: Option<Xml>, p: Path): (b: bool)
    ensures b <==>
      && XmlValue(element, p).Some?
      && |XmlValue(element, p).value| == 4
      && forall i :: 0 <= i < 4 ==> XmlValue(element, p).value[i] == "true"[i] || XmlValue(element, p).value[i] == "TRUE"[i]
  {
    match XmlValue(element, p)
    case None => false
    case Some(t) =>
      LowerIsTrue(t);
      LowerAsciiString(t) == "true"
  }

  // ----- str.strip() -----

  /** str.isspace() for one character. */
  predicate IsWhitespace(c: char) {
    var v := c as int;
    (0x09 <= v <= 0x0D) || (0x1C <= v <= 0x20) || v == 0x85 || v == 0xA0 || v == 0x1680
    || (0x2000 <= v <= 0x200A) || v == 0x2028 || v == 0x2029 || v == 0x202F || v == 0x205F || v == 0x3000
  }

  function StripLeft(s: string): (r: string)
    ensures |r| <= |s| && r == s[|s| - |r|..]
    ensures forall i :: 0 <= i < |s| - |r| ==> IsWhitespace(s[i])
    ensures r != [] ==> !IsWhitespace(r[0])
  {
    if s != [] && IsWhitespace(s[0]) then
      var r := StripLeft(s[1..]);
      assert forall i :: 1 <= i < |s| - |r| ==> s[i] == s[1..][i - 1];
      r
    else s
  }

  function StripRight(s: string): (r: string)
    ensures |r| <= |s| && r == s[..|r|]
    ensures forall i :: |r| <= i < |s| ==> IsWhitespace(s[i])
    ensures r != [] ==> !IsWhitespace(r[|r| - 1])
  {
    if s != [] && IsWhitespace(s[|s| - 1]) then
      var r := StripRight(s[..|s| - 1]);
      assert forall i :: |r| <= i < |s| - 1 ==> s[i] == s[..|s| - 1][i];
      r
    else s
  }

  /** str.strip(): the text without leading and trailing whitespace. */
  function Strip(s: string): string {
    StripRight(StripLeft(s))
  }

  lemma StripUnchanged(s: string)
    requires s != [] && !IsWhitespace(s[0]) && !IsWhitespace(s[|s| - 1])
    ensures Strip(s) == s
  {
  }

  // ----- ISO 6709 coordinates -----

  /** A parsed coordinate: whether it is negated, and the text after the sign, which float() reads. */
  datatype Coordinate = Coordinate(negative: bool, number: string)

  /** parse_iso6709_coordinate(s). The length is checked before stripping. */
  function ParseIso6709Coordinate(s: string): (r: Outcome<Coordinate>)
    ensures |s| < 2 ==> r == Raises(BuiltinRaised(ValueError, "Empty or invalid coordinate string"))
    ensures |s| >= 2 && Strip(s) == [] ==> r == Raises(BuiltinRaised(IndexError, "string index out of range"))
    ensures r.Returns? <==> |s| >= 2 && Strip(s) != []
    ensures r.Returns? ==>
      var t := Strip(s);
      && (r.value.negative <==> t[0] == '-')
      && (t[0] == '+' || t[0] == '-' ==> r.value.number == t[1..])
      && (t[0] != '+' && t[0] != '-' ==> r.value.number == t)
  {
    if |s| < 2 then Raises(BuiltinRaised(ValueError, "Empty or invalid coordinate string"))
    else
      var t := Strip(s);
      if t == [] then Raises(BuiltinRaised(IndexError, "string index out of range"))
      else Returns(Coordinate(t[0] == '-', if t[0] == '+' || t[0] == '-' then t[1..] else t))
  }

  /** One character is refused even when it is a number, while padding counts towards the length. */
  lemma LengthCheckedBeforeStrip()
    ensures ParseIso6709Coordinate("5").Raises?
    ensures ParseIso6709Coordinate(" 5") == Returns(Coordinate(false, "5"))
  {
    assert StripLeft(" 5") == "5";
    assert StripRight("5") == "5";
  }

  type Micro = m: nat | m < 1_000_000

  /** What format_coord derives from a float: the sign test value >= 0, the
      whole degrees int(abs(value)), and the fraction in units of 10^-6. */
  datatype Angle = Angle(nonNegative: bool, degrees: nat, micro: Micro)

  lemma MicroDigits(m: Micro)
    ensures |ZeroPad(m, 6)| == 6
  {
    assert Pow10(6) == 1_000_000;
    NatToStringLength(m, 6);
  }

  /** format_coord(value, width): a sign ('+' for a non-negative value), at
      least `width` digits denoting the degrees, a point, and exactly six
      digits denoting the micro-degrees. */
  function FormatCoord(a: Angle, width: nat): (s: string)
    ensures var n := |ZeroPad(a.degrees, width)|;
      && |s| == n + 8 && n >= width
      && s[0] == (if a.nonNegative then '+' else '-')
      && AllDigits(s[1..n + 1]) && DecimalValue(s[1..n + 1]) == a.degrees
      && s[n + 1] == '.'
      && AllDigits(s[n + 2..]) && DecimalValue(s[n + 2..]) == a.micro
  {
    var d := ZeroPad(a.degrees, width);
    var f := ZeroPad(a.micro, 6);
    MicroDigits(a.micro);
    ZeroPadValue(a.degrees, width);
    ZeroPadValue(a.micro, 6);
    var s := (if a.nonNegative then "+" else "-") + d + "." + f;
    assert s[1..|d| + 1] == d;
    assert s[|d| + 2..] == f;
    s
  }

  /** Parsing a formatted coordinate recovers its sign and the digits after it. */
  lemma ParseFormatted(a: Angle, width: nat)
    ensures ParseIso6709Coordinate(FormatCoord(a, width)) == Returns(Coordinate(!a.nonNegative, FormatCoord(a, width)[1..]))
  {
    var s := FormatCoord(a, width);
    MicroDigits(a.micro);
    assert IsDigit(s[|s| - 1]);
    StripUnchanged(s);
  }

  /** format_iso6709_coordinate(latitude, longitude): widths 2 and 3, each
      read back by the coordinate parser with its sign. */
  function FormatIso6709Coordinate(latitude: Angle, longitude: Angle): (r: (string, string))
    ensures r.0 == FormatCoord(latitude, 2) && r.1 == FormatCoord(longitude, 3)
    ensures ParseIso6709Coordinate(r.0) == Returns(Coordinate(!latitude.nonNegative, r.0[1..]))
    ensures ParseIso6709Coordinate(r.1) == Returns(Coordinate(!longitude.nonNegative, r.1[1..]))
  {
    ParseFormatted(latitude, 2);
    ParseFormatted(longitude, 3);
    (FormatCoord(latitude, 2), FormatCoord(longitude, 3))
  }

  // ----- the parsers -----

  /** A location as location_from_xml builds it. */
  datatype Location = Location(latitude: Coordinate, longitude: Coordinate, isValid: bool)

  /** location_from_params: the two parameter texts handed to float(), is_valid True. */
  datatype ParamsLocation = ParamsLocation(latitude: string, longitude: string, isValid: bool)

  function LocationFromParams(params: map<string, string>): (r: Outcome<ParamsLocation>)
    ensures r.Returns? <==>
      && "Geolocation.Latitude" in params && params["Geolocation.Latitude"] != ""
      && "Geolocation.Longitude" in params && params["Geolocation.Longitude"] != ""
    ensures r.Raises? ==> r == Raises(BuiltinRaised(ValueError, "Missing required location parameters"))
    ensures r.Returns? ==> r.value == ParamsLocation(params["Geolocation.Latitude"], params["Geolocation.Longitude"], true)
  {
    var lat := if "Geolocation.Latitude" in params then params["Geolocation.Latitude"] else "";
    var lng := if "Geolocation.Longitude" in params then params["Geolocation.Longitude"] else "";
    if lat == "" || lng == "" then Raises(BuiltinRaised(ValueError, "Missing required location parameters"))
    else Returns(ParamsLocation(lat, lng, true))
  }

  /** location_from_xml(text). A missing Lat or Lng reads as "", which the coordinate parser refuses. */
  function LocationFromXml(xml: XmlParse): (r: Outcome<Location>)
    ensures xml.XmlOk? && FindDescendant(xml.root, "Location").None? ==>
      r == Raises(BuiltinRaised(ValueError, "Missing Location element"))
    ensures r.Returns? ==> xml.XmlOk? && r.value.isValid == XmlBool(Some(xml.root), Descendant("ValidPosition"))
    ensures xml.XmlFailed? ==> r == Raises(BuiltinRaised(ValueError, "Invalid XML format: " + xml.reason))
    ensures xml.XmlOk? && FindDescendant(xml.root, "Location").Some? ==>
      var location := FindDescendant(xml.root, "Location").value;
      var lat := ParseIso6709Coordinate(XmlValue(Some(location), Child("Lat")).GetOr(""));
      var lng := ParseIso6709Coordinate(XmlValue(Some(location), Child("Lng")).GetOr(""));
      && (lat.Raises? ==> r == Raises(lat.raised))
      && (lat.Returns? && lng.Raises? ==> r == Raises(lng.raised))
      && (lat.Returns? && lng.Returns? ==>
            r == Returns(Location(lat.value, lng.value, XmlBool(Some(xml.root), Descendant("ValidPosition")))))
  {
    var root :- ParseXml(xml);
    match FindDescendant(root, "Location")
    case None => Raises(BuiltinRaised(ValueError, "Missing Location element"))
    case Some(location) =>
      var lat :- ParseIso6709Coordinate(XmlValue(Some(location), Child("Lat")).GetOr(""));
      var lng :- ParseIso6709Coordinate(XmlValue(Some(location), Child("Lng")).GetOr(""));
      Returns(Location(lat, lng, XmlBool(Some(root), Descendant("ValidPosition"))))
  }

  /** A Location without a Lat reads it as "", which is too short to be a coordinate. */
  lemma MissingLatRaises(xml: XmlParse)
    requires xml.XmlOk? && FindDescendant(xml.root, "Location").Some?
    requires XmlValue(FindDescendant(xml.root, "Location"), Child("Lat")).None?
    ensures LocationFromXml(xml) == Raises(BuiltinRaised(ValueError, "Empty or invalid coordinate string"))
  {
  }

  /** An orientation as orientation_from_xml builds it: only is_valid False
      when there is no GetSuccess element. A reading is the text handed to
      float(). */
  datatype Orientation =
    | InvalidOrientation
    | OrientationReading(heading: Option<string>, tilt: Option<string>, roll: Option<string>,
                         installationHeight: Option<string>, isValid: bool)

  /** try_float(val): an absent or empty text gives None. */
  function TryFloatText(v: Option<string>): (r: Option<string>)
    ensures r.None? <==> v.None? || v.value == ""
    ensures r.Some? ==> r == v
  {
    if v.None? || v.value == "" then None else v
  }

  function OrientationFromXml(xml: XmlParse): (r: Outcome<Orientation>)
    ensures xml.XmlFailed? ==> r == Raises(BuiltinRaised(ValueError, "Invalid XML format: " + xml.reason))
    ensures xml.XmlOk? ==> r.Returns? && (r.value.InvalidOrientation? <==> FindDescendant(xml.root, "GetSuccess").None?)
    ensures r.Returns? && r.value.OrientationReading? ==>
      var success := FindDescendant(xml.root, "GetSuccess");
      && r.value.heading == TryFloatText(XmlValue(success, Child("Heading")))
      && r.value.tilt == TryFloatText(XmlValue(success, Child("Tilt")))
      && r.value.roll == TryFloatText(XmlValue(success, Child("Roll")))
      && r.value.installationHeight == TryFloatText(XmlValue(success, Child("InstallationHeight")))
      && r.value.isValid == XmlBool(success, Child("ValidHeading"))
  {
    var root :- ParseXml(xml);
    var success := FindDescendant(root, "GetSuccess");
    if success.None? then Returns(InvalidOrientation)
    else
      Returns(OrientationReading(
        TryFloatText(XmlValue(success, Child("Heading"))),
        TryFloatText(XmlValue(success, Child("Tilt"))),
        TryFloatText(XmlValue(success, Child("Roll"))),
        TryFloatText(XmlValue(success, Child("InstallationHeight"))),
        XmlBool(success, Child("ValidHeading"))))
  }

  // ----- response checks -----

  function HttpText(status: int): string {
    "HTTP " + IntToString(status)
  }

  /** _handle_response(response, parser_func): any exception of the parser becomes parse_error. */
  function HandleResponse<T>(resp: HttpResponse, parser: XmlParse -> Outcome<T>): (r: FeatureResponse<T>)
    ensures resp.status != 200 ==> r == CreateError(FeatureError("invalid_response", HttpText(resp.status)))
    ensures resp.status == 200 && parser(resp.xml).Raises? ==>
      r == CreateError(FeatureError("parse_error", "Failed to parse response: " + parser(resp.xml).raised.Text()))
    ensures r.IsSuccess() <==> resp.status == 200 && parser(resp.xml).Returns?
    ensures r.IsSuccess() ==> r.data == Some(parser(resp.xml).value)
  {
    if resp.status != 200 then CreateError(FeatureError("invalid_response", HttpText(resp.status)))
    else match parser(resp.xml)
      case Returns(v) => Ok(Some(v))
      case Raises(x) => CreateError(FeatureError("parse_error", "Failed to parse response: " + x.Text()))
  }

  /** The code an Error element reports: "Unknown" when it has none or it is empty. */
  function ErrorCodeText(e: Xml): string {
    var v := XmlValue(Some(e), Child("ErrorCode"));
    if v.None? || v.value == "" then "Unknown" else v.value
  }

  function ErrorDescriptionText(e: Xml): string {
    XmlValue(Some(e), Child("ErrorDescription")).GetOr("")
  }

  /** _check_xml_response_for_success(response, error_code). */
  function CheckXmlResponseForSuccess(resp: HttpResponse, errorCode: string): (r: FeatureResponse<bool>)
    ensures resp.status != 200 ==> r == CreateError(FeatureError(errorCode, HttpText(resp.status)))
    ensures resp.status == 200 && resp.xml.XmlFailed? ==>
      r == CreateError(FeatureError("invalid_response", "Failed to parse response: Invalid XML format: " + resp.xml.reason))
    ensures r.IsSuccess() <==>
      && resp.status == 200 && resp.xml.XmlOk?
      && FindDescendant(resp.xml.root, "Error").None? && FindDescendant(resp.xml.root, "Success").Some?
    ensures r.IsSuccess() ==> r.data == Some(true)
    ensures resp.status == 200 && resp.xml.XmlOk? && FindDescendant(resp.xml.root, "Error").None?
            && FindDescendant(resp.xml.root, "Success").None? ==>
      r == CreateError(FeatureError(errorCode, "No success confirmation in response"))
    ensures resp.status == 200 && resp.xml.XmlOk? && FindDescendant(resp.xml.root, "Error").Some? ==>
      var e := FindDescendant(resp.xml.root, "Error").value;
      r == CreateError(FeatureError(errorCode, "API error: " + ErrorCodeText(e) + " - " + ErrorDescriptionText(e)))
  {
    if resp.status != 200 then CreateError(FeatureError(errorCode, HttpText(resp.status)))
    else match resp.xml
      case XmlFailed(reason) => CreateError(FeatureError("invalid_response", "Failed to parse response: Invalid XML format: " + reason))
      case XmlOk(root) =>
        match FindDescendant(root, "Error")
        case Some(e) => CreateError(FeatureError(errorCode, "API error: " + ErrorCodeText(e) + " - " + ErrorDescriptionText(e)))
        case None =>
          if FindDescendant(root, "Success").None? then
            CreateError(FeatureError(errorCode, "No success confirmation in response"))
          else Ok(Some(true))
  }

  /** An Error element decides the answer even when a Success element is present too. */
  lemma ErrorBeatsSuccess(resp: HttpResponse, errorCode: string)
    requires resp.status == 200 && resp.xml.XmlOk?
    requires FindDescendant(resp.xml.root, "Error").Some? && FindDescendant(resp.xml.root, "Success").Some?
    ensures !CheckXmlResponseForSuccess(resp, errorCode).IsSuccess()
    ensures CheckXmlResponseForSuccess(resp, errorCode).error.value.code == errorCode
  {
  }

  // ----- the operations -----

  const XmlHeaders: map<string, string> := map["Accept" := "text/xml"]
  const LocationGetEndpoint := Endpoint("GET", "/axis-cgi/geolocation/get.cgi")
  const LocationSetEndpoint := Endpoint("GET", "/axis-cgi/geolocation/set.cgi")
  const OrientationEndpoint := Endpoint("GET", "/axis-cgi/geoorientation/geoorientation.cgi")

  const LocationGetCall := Call(LocationGetEndpoint, RequestOptions(headers := Some(XmlHeaders)))

  /** get_location(): a location exactly when the status is 200 and the body holds a readable Location. */
  function GetLocation(send: Send): (r: FeatureResponse<Location>)
    ensures var resp := send(LocationGetCall);
      && (resp.status != 200 ==> r.error == Some(FeatureError("invalid_response", HttpText(resp.status))))
      && (r.IsSuccess() <==> resp.status == 200 && LocationFromXml(resp.xml).Returns?)
      && (r.IsSuccess() ==> r.data == Some(LocationFromXml(resp.xml).value))
      && (r.IsSuccess() ==> r.data.value.isValid == XmlBool(Some(resp.xml.root), Descendant("ValidPosition")))
      && (resp.status == 200 && LocationFromXml(resp.xml).Raises? ==>
            r.error == Some(FeatureError("parse_error", "Failed to parse response: " + LocationFromXml(resp.xml).raised.Text())))
  {
    HandleResponse(send(LocationGetCall), LocationFromXml)
  }

  function SetLocationCall(latitude: Angle, longitude: Angle): Call {
    var coords := FormatIso6709Coordinate(latitude, longitude);
    Call(LocationSetEndpoint, RequestOptions(params := Some(map["lat" := coords.0, "lng" := coords.1]), headers := Some(XmlHeaders)))
  }

  /** set_location(latitude, longitude). */
  function SetLocation(latitude: Angle, longitude: Angle, send: Send): (r: FeatureResponse<bool>)
    ensures var resp := send(SetLocationCall(latitude, longitude));
      && (resp.status != 200 ==> r == CreateError(FeatureError("set_failed", HttpText(resp.status))))
      && (r.IsSuccess() <==> && resp.status == 200 && resp.xml.XmlOk?
                             && FindDescendant(resp.xml.root, "Error").None? && FindDescendant(resp.xml.root, "Success").Some?)
      && (r.IsSuccess() ==> r.data == Some(true))
      && (resp.status == 200 && resp.xml.XmlFailed? ==>
            r == CreateError(FeatureError("invalid_response", "Failed to parse response: Invalid XML format: " + resp.xml.reason)))
      && (resp.status == 200 && resp.xml.XmlOk? && FindDescendant(resp.xml.root, "Error").Some? ==>
            var e := FindDescendant(resp.xml.root, "Error").value;
            r == CreateError(FeatureError("set_failed", "API error: " + ErrorCodeText(e) + " - " + ErrorDescriptionText(e))))
      && (resp.status == 200 && resp.xml.XmlOk? && FindDescendant(resp.xml.root, "Error").None?
          && FindDescendant(resp.xml.root, "Success").None? ==>
            r == CreateError(FeatureError("set_failed", "No success confirmation in response")))
  {
    CheckXmlResponseForSuccess(send(SetLocationCall(latitude, longitude)), "set_failed")
  }

  /** set_location sends lat and lng as ISO 6709 texts of widths 2 and 3,
      each of which the coordinate parser reads back with its sign. */
  lemma SetLocationSendsIso6709(latitude: Angle, longitude: Angle)
    ensures SetLocationCall(latitude, longitude).options.params
         == Some(map["lat" := FormatCoord(latitude, 2), "lng" := FormatCoord(longitude, 3)])
    ensures ParseIso6709Coordinate(FormatCoord(latitude, 2)).Returns?
    ensures ParseIso6709Coordinate(FormatCoord(latitude, 2)).value.negative == !latitude.nonNegative
    ensures ParseIso6709Coordinate(FormatCoord(longitude, 3)).Returns?
    ensures ParseIso6709Coordinate(FormatCoord(longitude, 3)).value.negative == !longitude.nonNegative
  {
    ParseFormatted(latitude, 2);
    ParseFormatted(longitude, 3);
  }

  const OrientationGetCall := Call(OrientationEndpoint, RequestOptions(params := Some(map["action" := "get"]), headers := Some(XmlHeaders)))

  /** get_orientation(): with status 200 only a body that is not XML fails, as parse_error. */
  function GetOrientation(send: Send): (r: FeatureResponse<Orientation>)
    ensures var resp := send(OrientationGetCall);
      && (resp.status != 200 ==> r.error == Some(FeatureError("invalid_response", HttpText(resp.status))))
      && (r.IsSuccess() <==> resp.status == 200 && resp.xml.XmlOk?)
      && (r.IsSuccess() ==> r.data == Some(OrientationFromXml(resp.xml).value))
      && (resp.status == 200 && resp.xml.XmlFailed? ==>
            r.error == Some(FeatureError("parse_error", "Failed to parse response: Invalid XML format: " + resp.xml.reason)))
  {
    var resp := send(OrientationGetCall);
    assert resp.xml.XmlFailed? ==>
      "Failed to parse response: " + ("Invalid XML format: " + resp.xml.reason)
      == "Failed to parse response: Invalid XML format: " + resp.xml.reason;
    HandleResponse(resp, OrientationFromXml)
  }

  /** The orientation keys and the parameter names they are sent under. */
  const ParamMapping: seq<(string, string)> :=
    [("heading", "heading"), ("tilt", "tilt"), ("roll", "roll"), ("installation_height", "inst_height")]

  const ParamNames: set<string> := {"action", "heading", "tilt", "roll", "inst_height"}

  /** orientation.get(key) is not None. An entry's value is given as its str() text. */
  predicate Given(orientation: map<string, Option<string>>, key: string) {
    key in orientation && orientation[key].Some?
  }

  /** The parameters of set_orientation: action=set, and one parameter per given orientation key. */
  predicate IsOrientationParams(orientation: map<string, Option<string>>, params: map<string, string>) {
    && "action" in params && params["action"] == "set"
    && params.Keys <= ParamNames
    && (forall i :: 0 <= i < |ParamMapping| ==> (ParamMapping[i].1 in params <==> Given(orientation, ParamMapping[i].0)))
    && (forall i :: 0 <= i < |ParamMapping| && Given(orientation, ParamMapping[i].0) ==>
          params[ParamMapping[i].1] == orientation[ParamMapping[i].0].value)
  }

  /** The params dict of set_orientation, updated entry by entry. */
  method OrientationParams(orientation: map<string, Option<string>>) returns (params: map<string, string>)
    ensures IsOrientationParams(orientation, params)
  {
    params := map["action" := "set"];
    var i := 0;
    while i < |ParamMapping|
      invariant 0 <= i <= |ParamMapping|
      invariant "action" in params && params["action"] == "set"
      invariant params.Keys <= ParamNames
      invariant forall j :: 0 <= j < |ParamMapping| ==> (ParamMapping[j].1 in params <==> j < i && Given(orientation, ParamMapping[j].0))
      invariant forall j :: 0 <= j < i && Given(orientation, ParamMapping[j].0) ==>
                  params[ParamMapping[j].1] == orientation[ParamMapping[j].0].value
    {
      var (key, name) := ParamMapping[i];
      if key in orientation && orientation[key].Some? {
        params := params[name := orientation[key].value];
      }
      i := i + 1;
    }
  }

  /** The parameters are determined by the orientation. */
  lemma OrientationParamsUnique(orientation: map<string, Option<string>>, p1: map<string, string>, p2: map<string, string>)
    requires IsOrientationParams(orientation, p1) && IsOrientationParams(orientation, p2)
    ensures p1 == p2
  {
    forall k | k in ParamNames
      ensures (k in p1 <==> k in p2) && (k in p1 ==> p1[k] == p2[k])
    {
      if k != "action" {
        var i := if k == "heading" then 0 else if k == "tilt" then 1 else if k == "roll" then 2 else 3;
        assert ParamMapping[i].1 == k;
      }
    }
  }

  /** With nothing given, only action=set is sent. */
  lemma NothingGivenSendsAction(params: map<string, string>)
    requires IsOrientationParams(map[], params)
    ensures params == map["action" := "set"]
  {
    forall k | k in ParamNames && k != "action"
      ensures k !in params
    {
      var i := if k == "heading" then 0 else if k == "tilt" then 1 else if k == "roll" then 2 else 3;
      assert ParamMapping[i].1 == k;
    }
  }

  function OrientationCall(params: map<string, string>): Call {
    Call(OrientationEndpoint, RequestOptions(params := Some(params)))
  }

  /** set_orientation(orientation). */
  method SetOrientation(orientation: map<string, Option<string>>, send: Send) returns (r: FeatureResponse<bool>)
    ensures exists params :: IsOrientationParams(orientation, params)
                          && r == CheckXmlResponseForSuccess(send(OrientationCall(params)), "set_failed")
  {
    var params := OrientationParams(orientation);
    r := CheckXmlResponseForSuccess(send(OrientationCall(params)), "set_failed");
  }

  const ApplyCall := Call(OrientationEndpoint, RequestOptions(params := Some(map["action" := "set", "auto_update_once" := "true"])))

  /** apply_settings(). */
  function ApplySettings(send: Send): (r: FeatureResponse<bool>)
    ensures r.IsSuccess() <==> send(ApplyCall).status == 200
    ensures r.IsSuccess() ==> r.data == Some(true)
    ensures !r.IsSuccess() ==>
      r == CreateError(FeatureError("apply_failed", "Failed to apply settings: " + HttpText(send(ApplyCall).status)))
  {
    var response := send(ApplyCall);
    if response.status != 200 then
      CreateError(FeatureError("apply_failed", "Failed to apply settings: " + HttpText(response.status)))
    else Ok(Some(true))
  }
}
