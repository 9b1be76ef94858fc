/** The JSON-RPC 2.0 request object the client builds for every queued call
    (section 4 of the JSON-RPC 2.0 Specification) and the array of them it
    sends as one batch (section 6 of the same specification). */
module Request {
  import opened JsonValue
  import opened Failures

  /** The protocol version every request object announces. */
  const JsonRpcVersion := "2.0"

  /** The four members of every request object the client builds. */
  const RequestKeys: set<string> := {"jsonrpc", "method", "params", "id"}

  /** One queued call: the method name and params of the caller's task,
      and the correlation id assigned when it was queued. The source holds
      the caller's method and params objects by reference until it posts
      them; here they are values fixed at push time. */
  datatype Payload = Payload(name: Json, params: Json, id: nat)

  /** The request object written on the wire for one call. */
  function ToJson(p: Payload): (j: Json)
    ensures j.JObject? && j.fields.Keys == RequestKeys
    ensures j.fields["jsonrpc"] == JString(JsonRpcVersion)
    ensures j.fields["method"] == p.name && j.fields["params"] == p.params
    ensures j.fields["id"] == JInt(p.id)
  {
    JObject(map[
      "jsonrpc" := JString(JsonRpcVersion),
      "method" := p.name,
      "params" := p.params,
      "id" := JInt(p.id)])
  }

  /** Reads a request object back; None unless it has exactly the four
      members, version "2.0" and a non-negative integer id. Every object it
      accepts is exactly the encoding of the payload it returns. */
  function FromJson(j: Json): (r: Option<Payload>)
    ensures r.Some? ==> ToJson(r.value) == j
    ensures r.Some? ==> j.JObject? && j.fields["jsonrpc"] == JString(JsonRpcVersion)
  {
    if j.JObject? && j.fields.Keys == RequestKeys
       && j.fields["jsonrpc"] == JString(JsonRpcVersion)
       && j.fields["id"].JInt? && j.fields["id"].i >= 0
    then
      var p := Payload(j.fields["method"], j.fields["params"], j.fields["id"].i);
      assert ToJson(p).fields == j.fields;
      Some(p)
    else None
  }

  /** Encoding a payload and reading it back gives the same payload. */
  lemma EncodeDecode(p: Payload)
    ensures FromJson(ToJson(p)) == Some(p)
    ensures ToJson(p).fields.Keys == RequestKeys
  {
    assert ToJson(p).fields.Keys == RequestKeys;
  }

  /** The request objects of a queue, one per entry and in queue order. */
  function EncodeAll(ps: seq<Payload>): (items: seq<Json>)
    ensures |items| == |ps|
    ensures forall i :: 0 <= i < |ps| ==> items[i] == ToJson(ps[i])
  {
    if ps == [] then [] else [ToJson(ps[0])] + EncodeAll(ps[1..])
  }

  /** Reads a sequence of request objects back; None if any one of them is
      not a request object. */
  function DecodeAll(items: seq<Json>): (r: Option<seq<Payload>>)
    ensures r.Some? ==> EncodeAll(r.value) == items
  {
    if items == [] then Some([])
    else
      match FromJson(items[0])
      case None => None
      case Some(p) =>
        match DecodeAll(items[1..])
        case None => None
        case Some(rest) =>
          assert EncodeAll([p] + rest) == [ToJson(p)] + EncodeAll(rest) by {
            assert ([p] + rest)[1..] == rest;
          }
          Some([p] + rest)
  }

  /** Reading the encoded queue back gives the queue. */
  lemma {:induction false} DecodeEncodeAll(ps: seq<Payload>)
    ensures DecodeAll(EncodeAll(ps)) == Some(ps)
  {
    if ps != [] {
      EncodeDecode(ps[0]);
      DecodeEncodeAll(ps[1..]);
      var items := EncodeAll(ps);
      assert items[0] == ToJson(ps[0]);
      assert items[1..] == EncodeAll(ps[1..]);
      assert [ps[0]] + ps[1..] == ps;
    }
  }

  /** The body of a batch exchange: the array of all request objects. */
  function BatchBody(ps: seq<Payload>): (body: Json)
    ensures body.JArray? && |body.items| == |ps|
    ensures forall i :: 0 <= i < |ps| ==> FromJson(body.items[i]) == Some(ps[i])
  {
    var body := JArray(EncodeAll(ps));
    forall i | 0 <= i < |ps|
      ensures FromJson(body.items[i]) == Some(ps[i])
    {
      EncodeDecode(ps[i]);
    }
    body
  }

  /** Reads a batch body back into the queue it was built from. */
  function DecodeBatch(body: Json): (r: Option<seq<Payload>>)
    ensures r.Some? ==> BatchBody(r.value) == body
  {
    if body.JArray? then DecodeAll(body.items) else None
  }

  /** A batch body carries the whole queue, in order, and nothing else. */
  lemma BatchRoundTrip(ps: seq<Payload>)
    ensures DecodeBatch(BatchBody(ps)) == Some(ps)
  {
    DecodeEncodeAll(ps);
  }
}
