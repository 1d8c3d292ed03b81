/** The HTTP library as the model sees it: a response is its status code
    together with what response.json() and ET.fromstring(response.text)
    give for its body; a call is an endpoint plus the keyword arguments of
    a request. ElementTree's find() is modelled over a small XML tree. */
module Transport {
  import opened Values
  import opened Errors

  /** An XML element: its tag, its text (None for an element with no text) and its children. */
  datatype Xml = Element(tag: string, text: Option<string>, children: seq<Xml>)

  /** response.json(): the decoded document, or the text of the ValueError it raises. */
  datatype JsonParse = JsonOk(json: Json) | JsonFailed(reason: string)

  /** ET.fromstring(response.text): the root element, or the text of the ParseError. */
  datatype XmlParse = XmlOk(root: Xml) | XmlFailed(reason: string)

  datatype HttpResponse = HttpResponse(status: int, json: JsonParse, xml: XmlParse)

  /** An endpoint descriptor: HTTP method (verb) and path. */
  datatype Endpoint = Endpoint(verb: string, path: string)

  /** The keyword arguments a feature passes to request(). */
  datatype RequestOptions = RequestOptions(
    params: Option<map<string, string>> := None,
    json: Option<Json> := None,
    headers: Option<map<string, string>> := None)

  datatype Call = Call(endpoint: Endpoint, options: RequestOptions)

  /** The request a feature issues, answered by the device. */
  type Send = Call -> HttpResponse

  /** response.raise_for_status() raises HTTPError for the 4xx and 5xx codes. */
  predicate RaisesForStatus(status: int) {
    400 <= status < 600
  }

  /** response.raise_for_status(). The text of the HTTPError (reason phrase
      and URL) is not modelled; it carries the status code. */
  function RaiseForStatus(r: HttpResponse): (o: Outcome<()>)
    ensures o.Raises? <==> RaisesForStatus(r.status)
    ensures o.Raises? ==> o.raised.BuiltinRaised? && o.raised.builtin == HttpError
  {
    if RaisesForStatus(r.status) then Raises(BuiltinRaised(HttpError, IntToString(r.status))) else Returns(())
  }

  /** response.json(): the document, or the ValueError it raises on a body that is not JSON. */
  function ResponseJson(r: HttpResponse): (o: Outcome<Json>)
    ensures r.json.JsonOk? ==> o == Returns(r.json.json)
    ensures r.json.JsonFailed? ==> o == Raises(BuiltinRaised(ValueError, r.json.reason))
  {
    match r.json
    case JsonOk(j) => Returns(j)
    case JsonFailed(reason) => Raises(BuiltinRaised(ValueError, reason))
  }

  /** element.find("tag"): the first direct child with that tag. */
  function FindChild(e: Xml, tag: string): (r: Option<Xml>)
    ensures r.Some? <==> exists i :: 0 <= i < |e.children| && e.children[i].tag == tag
    ensures r.Some? ==> exists i :: && 0 <= i < |e.children| && e.children[i] == r.value && e.children[i].tag == tag
                                    && forall j :: 0 <= j < i ==> e.children[j].tag != tag
  {
    FirstWithTag(e.children, tag)
  }

  /** The first element of xs with the tag. */
  function FirstWithTag(xs: seq<Xml>, tag: string): (r: Option<Xml>)
    ensures r.Some? <==> exists i :: 0 <= i < |xs| && xs[i].tag == tag
    ensures r.Some? ==> exists i :: && 0 <= i < |xs| && xs[i] == r.value && xs[i].tag == tag
                                    && forall j :: 0 <= j < i ==> xs[j].tag != tag
  {
    if xs == [] then None
    else if xs[0].tag == tag then Some(xs[0])
    else
      var r := FirstWithTag(xs[1..], tag);
      assert forall i :: 1 <= i < |xs| ==> xs[i] == xs[1..][i - 1];
      if r.Some? then
        var i :| && 0 <= i < |xs[1..]| && xs[1..][i] == r.value && xs[1..][i].tag == tag
                 && forall j :: 0 <= j < i ==> xs[1..][j].tag != tag;
        assert xs[i + 1] == r.value && forall j :: 0 <= j < i + 1 ==> xs[j].tag != tag;
        r
      else r
  }

  /** Searching a concatenation searches the first part, then the second. */
  lemma {:induction false} FirstWithTagAppend(a: seq<Xml>, b: seq<Xml>, tag: string)
    ensures FirstWithTag(a + b, tag) == if FirstWithTag(a, tag).Some? then FirstWithTag(a, tag) else FirstWithTag(b, tag)
  {
    if a == [] {
      assert a + b == b;
    } else {
      assert (a + b)[0] == a[0];
      assert (a + b)[1..] == a[1..] + b;
      FirstWithTagAppend(a[1..], b, tag);
    }
  }

  /** The elements of a forest in document order: each element, then its descendants, then its siblings. */
  function Preorder(xs: seq<Xml>): seq<Xml>
    decreases xs
  {
    if xs == [] then [] else [xs[0]] + Preorder(xs[0].children) + Preorder(xs[1..])
  }

  /** element.find(".//tag"): the first element strictly below e with that tag, in document order. */
  function FindDescendant(e: Xml, tag: string): (r: Option<Xml>)
    ensures r == FirstWithTag(Preorder(e.children), tag)
    ensures r.None? <==> forall i :: 0 <= i < |Preorder(e.children)| ==> Preorder(e.children)[i].tag != tag
    ensures r.Some? ==> exists i :: && 0 <= i < |Preorder(e.children)| && Preorder(e.children)[i] == r.value
                                    && r.value.tag == tag
                                    && forall j :: 0 <= j < i ==> Preorder(e.children)[j].tag != tag
  {
    FindInForest(e.children, tag)
  }

  function FindInForest(xs: seq<Xml>, tag: string): (r: Option<Xml>)
    ensures r == FirstWithTag(Preorder(xs), tag)
    decreases xs
  {
    if xs == [] then None
    else
      var below := Preorder(xs[0].children);
      var after := Preorder(xs[1..]);
      assert Preorder(xs) == [xs[0]] + (below + after);
      if xs[0].tag == tag then Some(xs[0])
      else
        assert Preorder(xs)[1..] == below + after;
        FirstWithTagAppend(below, after, tag);
        match FindInForest(xs[0].children, tag)
        case Some(found) => Some(found)
        case None => FindInForest(xs[1..], tag)
  }
}
