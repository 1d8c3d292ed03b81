/** The analytics MQTT feature (features/analytics_mqtt.py): publisher
    configurations and their JSON payloads, the envelope check every JSON
    request goes through, the list mappers, and the removal path built from a
    percent-encoded publisher id. Values read back from the device are JSON
    values, so a missing key is JNull (Python's None). */
module AnalyticsMqtt {
  import opened Values
  import opened Errors
  import opened Transport
  import opened UrlQuote

  const BasePath := "/config/rest/analytics-mqtt/v1beta"
  const DataSourcesEndpoint := Endpoint("GET", BasePath + "/data_sources")
  const PublishersEndpoint := Endpoint("GET", BasePath + "/publishers")
  const CreatePublisherEndpoint := Endpoint("POST", BasePath + "/publishers")

  const JsonHeaders: map<string, string> := map["Accept" := "application/json", "Content-Type" := "application/json"]

  datatype DataSource = DataSource(key: Json)

  datatype PublisherConfig = PublisherConfig(
    id: Json,
    dataSourceKey: Json,
    mqttTopic: Json,
    qos: Json,
    retain: Json,
    useTopicPrefix: Json)

  /** The six keys of a publisher payload. */
  const PublisherKeys: set<string> := {"id", "data_source_key", "mqtt_topic", "qos", "retain", "use_topic_prefix"}

  /** PublisherConfig(id, data_source_key, mqtt_topic, qos=0, retain=False, use_topic_prefix=False). */
  function NewPublisherConfig(id: string, dataSourceKey: string, mqttTopic: string,
                              qos: int := 0, retain: bool := false, useTopicPrefix: bool := false): (c: PublisherConfig)
    ensures c.id == JString(id) && c.dataSourceKey == JString(dataSourceKey) && c.mqttTopic == JString(mqttTopic)
    ensures c.qos == JInt(qos) && c.retain == JBool(retain) && c.useTopicPrefix == JBool(useTopicPrefix)
  {
    PublisherConfig(JString(id), JString(dataSourceKey), JString(mqttTopic), JInt(qos), JBool(retain), JBool(useTopicPrefix))
  }

  /** A configuration built without the optional arguments publishes with QoS 0, no retain and no topic prefix. */
  lemma PublisherDefaults(id: string, dataSourceKey: string, mqttTopic: string)
    ensures NewPublisherConfig(id, dataSourceKey, mqttTopic).qos == JInt(0)
    ensures NewPublisherConfig(id, dataSourceKey, mqttTopic).retain == JBool(false)
    ensures NewPublisherConfig(id, dataSourceKey, mqttTopic).useTopicPrefix == JBool(false)
  {
  }

  /** to_payload(): {"data": {...the six fields...}}. */
  function ToPayload(c: PublisherConfig): (p: Json)
    ensures p.JObject? && p.members.Keys == {"data"}
    ensures p.members["data"].JObject? && p.members["data"].members.Keys == PublisherKeys
    ensures var d := p.members["data"].members;
            d["id"] == c.id && d["data_source_key"] == c.dataSourceKey && d["mqtt_topic"] == c.mqttTopic
            && d["qos"] == c.qos && d["retain"] == c.retain && d["use_topic_prefix"] == c.useTopicPrefix
  {
    JObject(map["data" := JObject(map[
      "id" := c.id,
      "data_source_key" := c.dataSourceKey,
      "mqtt_topic" := c.mqttTopic,
      "qos" := c.qos,
      "retain" := c.retain,
      "use_topic_prefix" := c.useTopicPrefix])])
  }

  /** The AttributeError of calling .get on a value that is not a dict. */
  function NoGet(j: Json): Raised {
    BuiltinRaised(AttributeError, "'" + TypeName(j) + "' object has no attribute 'get'")
  }

  /** PublisherConfig.create_from_response(data): every field read with
      dict.get, so a missing key gives None and not the default. */
  function PublisherFromResponse(data: Json): (r: Outcome<PublisherConfig>)
    ensures r.Returns? <==> data.JObject?
    ensures r.Raises? ==> r == Raises(NoGet(data))
  {
    match data
    case JObject(m) =>
      Returns(PublisherConfig(Get(m, "id"), Get(m, "data_source_key"), Get(m, "mqtt_topic"),
                              Get(m, "qos"), Get(m, "retain"), Get(m, "use_topic_prefix")))
    case _ => Raises(NoGet(data))
  }

  /** DataSource.create_from_response(data). */
  function DataSourceFromResponse(data: Json): (r: Outcome<DataSource>)
    ensures r.Returns? <==> data.JObject?
    ensures r.Raises? ==> r == Raises(NoGet(data))
  {
    match data
    case JObject(m) => Returns(DataSource(Get(m, "key")))
    case _ => Raises(NoGet(data))
  }

  /** Reading back the "data" of a payload gives the configuration it was made from. */
  lemma PayloadRoundTrip(c: PublisherConfig)
    ensures PublisherFromResponse(ToPayload(c).members["data"]) == Returns(c)
  {
  }

  /** Keys absent from the response become None, whatever the constructor's defaults are. */
  lemma MissingKeysAreNone(m: map<string, Json>)
    requires forall k :: k in PublisherKeys ==> k !in m
    ensures PublisherFromResponse(JObject(m)) == Returns(PublisherConfig(JNull, JNull, JNull, JNull, JNull, JNull))
    ensures PublisherFromResponse(JObject(m)) != Returns(NewPublisherConfig("", "", ""))
  {
  }

  /** The message of a failed envelope: its "error" member, "Unknown error" when there is none. */
  function EnvelopeError(m: map<string, Json>): (message: string)
    ensures "error" !in m ==> message == "Unknown error"
    ensures "error" in m && m["error"].JString? ==> message == m["error"].s
  {
    if "error" !in m then "Unknown error"
    else match m["error"]
      case JString(s) => s
      case JNull => "None"
      case JBool(b) => if b then "True" else "False"
      case JInt(i) => IntToString(i)
      case _ => "Unknown error"
  }

  /** _json_request_wrapper: decode the body, require status "success",
      require a "data" member, then raise for an HTTP error status, and
      return the "data" member. */
  function JsonRequestWrapper(resp: HttpResponse): (r: Outcome<Json>)
    ensures resp.json.JsonFailed? ==> r == Raises(BuiltinRaised(ValueError, resp.json.reason))
    ensures resp.json.JsonOk? && !resp.json.json.JObject? ==> r == Raises(NoGet(resp.json.json))
    ensures resp.json.JsonOk? && resp.json.json.JObject? ==>
      var m := resp.json.json.members;
      && (Get(m, "status") != JString("success") ==> r == Raises(AxisRaised(FeatureError("request_failed", EnvelopeError(m)))))
      && (Get(m, "status") == JString("success") && "data" !in m ==>
            r == Raises(AxisRaised(FeatureError("parse_failed", "No data found in response"))))
    ensures r.Returns? <==>
      && resp.json.JsonOk? && resp.json.json.JObject?
      && Get(resp.json.json.members, "status") == JString("success")
      && "data" in resp.json.json.members
      && !RaisesForStatus(resp.status)
    ensures r.Returns? ==> r.value == resp.json.json.members["data"]
  {
    var j :- ResponseJson(resp);
    if !j.JObject? then Raises(NoGet(j))
    else if Get(j.members, "status") != JString("success") then
      Raises(AxisRaised(FeatureError("request_failed", EnvelopeError(j.members))))
    else if "data" !in j.members then
      Raises(AxisRaised(FeatureError("parse_failed", "No data found in response")))
    else
      var _ :- RaiseForStatus(resp);
      Returns(j.members["data"])
  }

  /** The status check comes before the status code: an error envelope is
      reported as request_failed even on an HTTP error status. */
  lemma EnvelopeBeforeStatus(resp: HttpResponse)
    requires resp.json.JsonOk? && resp.json.json.JObject?
    requires Get(resp.json.json.members, "status") != JString("success")
    ensures JsonRequestWrapper(resp).Raises? && JsonRequestWrapper(resp).raised.AxisRaised?
    ensures JsonRequestWrapper(resp).raised.error.code == "request_failed"
  {
  }

  /** A list comprehension [create(x) for x in items]: the first raise wins. */
  function MapAll<T>(items: seq<Json>, create: Json -> Outcome<T>): (r: Outcome<seq<T>>)
    ensures r.Returns? <==> forall i :: 0 <= i < |items| ==> create(items[i]).Returns?
    ensures r.Returns? ==> |r.value| == |items| && forall i :: 0 <= i < |items| ==> create(items[i]) == Returns(r.value[i])
    ensures r.Raises? ==> exists i :: FirstRaise(items, create, i) && create(items[i]) == Raises(r.raised)
  {
    if items == [] then Returns([])
    else match create(items[0])
      case Raises(x) =>
        assert FirstRaise(items, create, 0);
        Raises(x)
      case Returns(first) =>
        assert forall i :: 1 <= i < |items| ==> items[i] == items[1..][i - 1];
        match MapAll(items[1..], create)
        case Raises(x) =>
          var k :| FirstRaise(items[1..], create, k) && create(items[1..][k]) == Raises(x);
          assert FirstRaise(items, create, k + 1);
          Raises(x)
        case Returns(rest) => Returns([first] + rest)
  }

  /** Item i is the first item whose mapping raises. */
  predicate FirstRaise<T>(items: seq<Json>, create: Json -> Outcome<T>, i: int) {
    && 0 <= i < |items| && create(items[i]).Raises?
    && forall j :: 0 <= j < i ==> create(items[j]).Returns?
  }

  /** Iterating over the "data" value: a list gives its elements, a string its
      characters, a dict its keys (every create_from_response here raises the
      same AttributeError on a str, so which key comes first does not matter);
      None, a bool or an int is not iterable. */
  function ListFrom<T>(data: Json, create: Json -> Outcome<T>): (r: Outcome<seq<T>>)
    ensures data.JArray? ==> r == MapAll(data.items, create)
    ensures data.JNull? || data.JBool? || data.JInt? ==> r.Raises? && r.raised.BuiltinRaised? && r.raised.builtin == TypeError
    ensures data.JString? ==>
      (r.Returns? <==> forall i :: 0 <= i < |data.s| ==> create(JString([data.s[i]])).Returns?)
    ensures data.JString? && data.s == "" ==> r == Returns([])
    ensures data.JObject? && data.members == map[] ==> r == Returns([])
    ensures data.JObject? && data.members != map[] ==> r == Raises(NoGet(JString("")))
  {
    match data
    case JArray(items) => MapAll(items, create)
    case JString(s) =>
      var chars := seq(|s|, i requires 0 <= i < |s| => JString([s[i]]));
      assert forall i :: 0 <= i < |s| ==> chars[i] == JString([s[i]]);
      MapAll(chars, create)
    case JObject(m) => if m == map[] then Returns([]) else Raises(NoGet(JString("")))
    case _ => Raises(BuiltinRaised(TypeError, "'" + TypeName(data) + "' object is not iterable"))
  }

  /** Both mappers raise the same AttributeError on any str. */
  lemma StringEntriesRaise(s: string)
    ensures DataSourceFromResponse(JString(s)) == Raises(NoGet(JString("")))
    ensures PublisherFromResponse(JString(s)) == Raises(NoGet(JString("")))
  {
  }

  /** A mapper that, like both create_from_response, returns exactly for a
      dict and otherwise raises the AttributeError of `.get` on its argument. */
  ghost predicate ReadsWithGet<T>(create: Json -> Outcome<T>) {
    forall x :: (create(x).Returns? <==> x.JObject?) && (create(x).Raises? ==> create(x).raised == NoGet(x))
  }

  /** Entry i is the first entry that is not a dict. */
  predicate FirstNonDict(items: seq<Json>, i: int) {
    && 0 <= i < |items| && !items[i].JObject?
    && forall j :: 0 <= j < i ==> items[j].JObject?
  }

  /** With such a mapper, a list raises for its first entry that is not a
      dict, and a non-empty text raises for its first character. */
  lemma ListFromWithGet<T>(data: Json, create: Json -> Outcome<T>)
    requires ReadsWithGet(create)
    ensures data.JArray? && ListFrom(data, create).Raises? ==>
      exists i :: FirstNonDict(data.items, i) && ListFrom(data, create) == Raises(NoGet(data.items[i]))
    ensures data.JString? && data.s != "" ==> ListFrom(data, create) == Raises(NoGet(JString("")))
  {
    var r := ListFrom(data, create);
    if data.JArray? && r.Raises? {
      var k :| FirstRaise(data.items, create, k) && create(data.items[k]) == Raises(r.raised);
      assert FirstNonDict(data.items, k);
    }
    if data.JString? && data.s != "" {
      var s := data.s;
      var items := seq(|s|, i requires 0 <= i < |s| => JString([s[i]]));
      assert items[0] == JString([s[0]]);
      assert create(items[0]).Raises?;
      assert r == MapAll(items, create);
      var k :| FirstRaise(items, create, k) && create(items[k]) == Raises(r.raised);
      assert items[k] == JString([s[k]]);
    }
  }

  const DataSourcesCall := Call(DataSourcesEndpoint, RequestOptions())
  const PublishersCall := Call(PublishersEndpoint, RequestOptions())

  /** get_data_sources(): a failure of the wrapper propagates; a list gives
      one data source per entry, in order, unless an entry is not an object. */
  function GetDataSources(send: Send): (r: Outcome<seq<DataSource>>)
    ensures var w := JsonRequestWrapper(send(DataSourcesCall));
      && (w.Raises? ==> r == Raises(w.raised))
      && (w.Returns? && w.value.JArray? ==>
            && (r.Returns? <==> forall i :: 0 <= i < |w.value.items| ==> w.value.items[i].JObject?)
            && (r.Returns? ==> && |r.value| == |w.value.items|
                               && forall i :: 0 <= i < |w.value.items| ==>
                                    r.value[i] == DataSource(Get(w.value.items[i].members, "key"))))
      && (w.Returns? && (w.value.JNull? || w.value.JBool? || w.value.JInt?) ==>
            r.Raises? && r.raised.BuiltinRaised? && r.raised.builtin == TypeError)
      && (w.Returns? && w.value.JArray? && r.Raises? ==>
            exists i :: FirstNonDict(w.value.items, i) && r == Raises(NoGet(w.value.items[i])))
      && (w.Returns? && w.value.JString? ==>
            r == if w.value.s == "" then Returns([]) else Raises(NoGet(JString(""))))
      && (w.Returns? && w.value.JObject? ==>
            r == if w.value.members == map[] then Returns([]) else Raises(NoGet(JString(""))))
  {
    var data :- JsonRequestWrapper(send(DataSourcesCall));
    assert ReadsWithGet(DataSourceFromResponse);
    ListFromWithGet(data, DataSourceFromResponse);
    ListFrom(data, DataSourceFromResponse)
  }

  /** list_publishers(): a failure of the wrapper propagates; a list gives
      one configuration per entry, in order, unless an entry is not an object. */
  function ListPublishers(send: Send): (r: Outcome<seq<PublisherConfig>>)
    ensures var w := JsonRequestWrapper(send(PublishersCall));
      && (w.Raises? ==> r == Raises(w.raised))
      && (w.Returns? && w.value.JArray? ==>
            && (r.Returns? <==> forall i :: 0 <= i < |w.value.items| ==> w.value.items[i].JObject?)
            && (r.Returns? ==> && |r.value| == |w.value.items|
                               && forall i :: 0 <= i < |w.value.items| ==>
                                    PublisherFromResponse(w.value.items[i]) == Returns(r.value[i])))
      && (w.Returns? && (w.value.JNull? || w.value.JBool? || w.value.JInt?) ==>
            r.Raises? && r.raised.BuiltinRaised? && r.raised.builtin == TypeError)
      && (w.Returns? && w.value.JArray? && r.Raises? ==>
            exists i :: FirstNonDict(w.value.items, i) && r == Raises(NoGet(w.value.items[i])))
      && (w.Returns? && w.value.JString? ==>
            r == if w.value.s == "" then Returns([]) else Raises(NoGet(JString(""))))
      && (w.Returns? && w.value.JObject? ==>
            r == if w.value.members == map[] then Returns([]) else Raises(NoGet(JString(""))))
  {
    var data :- JsonRequestWrapper(send(PublishersCall));
    assert ReadsWithGet(PublisherFromResponse);
    ListFromWithGet(data, PublisherFromResponse);
    ListFrom(data, PublisherFromResponse)
  }

  function CreateCall(c: PublisherConfig): Call {
    Call(CreatePublisherEndpoint, RequestOptions(json := Some(ToPayload(c)), headers := Some(JsonHeaders)))
  }

  /** create_publisher(config): posts the payload and reads back the "data" member. */
  function CreatePublisher(c: PublisherConfig, send: Send): (r: Outcome<PublisherConfig>)
    ensures var w := JsonRequestWrapper(send(CreateCall(c)));
      && (w.Raises? ==> r == Raises(w.raised))
      && (w.Returns? && !w.value.JObject? ==> r == Raises(NoGet(w.value)))
      && (r.Returns? <==> w.Returns? && w.value.JObject?)
      && (r.Returns? ==> r.value == PublisherConfig(
            Get(w.value.members, "id"), Get(w.value.members, "data_source_key"), Get(w.value.members, "mqtt_topic"),
            Get(w.value.members, "qos"), Get(w.value.members, "retain"), Get(w.value.members, "use_topic_prefix")))
  {
    var data :- JsonRequestWrapper(send(CreateCall(c)));
    PublisherFromResponse(data)
  }

  /** A device that accepts the payload and echoes it back yields the configuration that was sent. */
  lemma CreateEchoes(c: PublisherConfig, send: Send)
    requires send(CreateCall(c)).json == JsonOk(JObject(map["status" := JString("success"), "data" := ToPayload(c).members["data"]]))
    requires !RaisesForStatus(send(CreateCall(c)).status)
    ensures CreatePublisher(c, send) == Returns(c)
  {
    PayloadRoundTrip(c);
  }

  /** The DELETE path: BASE_PATH/publishers/ followed by the percent-encoded id. */
  function RemovePath(id: string): string {
    BasePath + "/publishers/" + Quote(id)
  }

  function RemoveCall(id: string): Call {
    Call(Endpoint("DELETE", RemovePath(id)), RequestOptions(headers := Some(JsonHeaders)))
  }

  /** remove_publisher(publisher_id). */
  function RemovePublisher(id: string, send: Send): (r: Outcome<bool>)
    ensures id == "" ==> r == Raises(AxisRaised(FeatureError("invalid_id", "Publisher ID is required")))
    ensures r.Returns? <==> id != "" && !RaisesForStatus(send(RemoveCall(id)).status)
    ensures r.Returns? ==> r.value
    ensures id != "" && RaisesForStatus(send(RemoveCall(id)).status) ==> r == Raises(RaiseForStatus(send(RemoveCall(id))).raised)
  {
    if id == "" then Raises(AxisRaised(FeatureError("invalid_id", "Publisher ID is required")))
    else
      var _ :- RaiseForStatus(send(RemoveCall(id)));
      Returns(true)
  }

  /** An empty id is refused before any request: the outcome does not depend on the device. */
  lemma EmptyIdSendsNothing(send1: Send, send2: Send)
    ensures RemovePublisher("", send1) == RemovePublisher("", send2)
    ensures RemovePublisher("", send1).Raises?
  {
  }

  /** The id occupies exactly one path segment after the fixed prefix, and decoding that segment gives the id back. */
  lemma RemovePathLayout(id: string)
    ensures RemovePath(id) == "/config/rest/analytics-mqtt/v1beta/publishers/" + Quote(id)
    ensures '/' !in Quote(id) && WellEscaped(Quote(id))
    ensures Unquote(RemovePath(id)[|"/config/rest/analytics-mqtt/v1beta/publishers/"|..]) == Some(id)
  {
    var prefix := "/config/rest/analytics-mqtt/v1beta/publishers/";
    assert RemovePath(id)[|prefix|..] == Quote(id);
  }
}
