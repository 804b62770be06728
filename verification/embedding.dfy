/** The reachable body of `get_ollama_embedding`: one POST of the query text
    to the Ollama `/api/embed` endpoint, and the checks that turn the decoded
    response into a single vector or into "no embedding" (Python's None).

    The HTTP call is a parameter `send` from the request to its transport
    outcome; every exception the source catches (timeout, connection error,
    other request error, HTTP error status, undecodable JSON) is the single
    outcome `TransportFailure`. */
module Embedding {
  import opened Wrappers
  import opened Text
  import opened Json

  /** The `timeout=` argument of the POST, in seconds. */
  const RequestTimeoutSeconds: nat := 60

  /** The key the live parser reads the vectors from. */
  const EmbeddingsKey := "embeddings"

  /** An HTTP POST with a JSON body. */
  datatype PostRequest = PostRequest(url: string, payload: Json, timeoutSeconds: nat)

  /** What the transport delivers: a decoded JSON body after a successful
      status, or one of the failures the source catches. */
  datatype Transport = Delivered(body: Json) | TransportFailure

  /** Why no embedding was produced; the source reports each differently but
      returns None for all of them. */
  datatype Failure =
    | BlankText                    // empty or whitespace-only text, nothing sent
    | TransportError               // any caught request or JSON-decoding exception
    | EmbeddingsMissingOrInvalid   // no "embeddings" key, or its value is not a list
    | EmptyEmbeddings              // "embeddings" is []
    | UnexpectedEntries            // more than one entry, or a sole entry that is not a list
    | EmptyVector                  // [[]]: the extracted vector is falsy and falls through
    | DimensionMismatch            // expected dimension set and different from the length

  /** The result of one call: a vector, a handled failure (Python returns
      None), or an exception the source does not catch. */
  datatype Outcome = Embedded(vector: seq<Json>) | Failed(reason: Failure) | Raised {

    /** The Python return value of a call that returned. */
    function ToOption(): (r: Option<seq<Json>>)
      requires !Raised?
      ensures r.Some? <==> Embedded?
    {
      match this
      case Embedded(v) => Some(v)
      case Failed(_) => None
    }
  }

  /** The request body `{"model": model, "input": [text]}`. */
  function Payload(model: string, text: string): Json {
    JObject(map["model" := JString(model), "input" := JArray([JString(text)])])
  }

  /** The strings of a JSON list of strings. */
  function StringItems(items: seq<Json>): (r: Option<seq<string>>)
    ensures r.Some? ==> |r.value| == |items|
    ensures r.Some? ==> forall i :: 0 <= i < |items| ==> items[i] == JString(r.value[i])
  {
    if items == [] then Some([])
    else if !items[0].JString? then None
    else
      match StringItems(items[1..])
      case Some(rest) => Some([items[0].s] + rest)
      case None => None
  }

  /** How the embedding service reads a request body: the model name and the
      list of texts to embed. */
  function ReadPayload(payload: Json): Option<(string, seq<string>)> {
    match payload
    case JObject(m) =>
      if "model" in m && "input" in m && m["model"].JString? && m["input"].JArray? then
        match StringItems(m["input"].items)
        case Some(texts) => Some((m["model"].s, texts))
        case None => None
      else None
    case _ => None
  }

  /** The payload carries the model name and exactly one input: the text as
      given, not stripped. */
  lemma PayloadRoundTrip(model: string, text: string)
    ensures ReadPayload(Payload(model, text)) == Some((model, [text]))
  {
    var items := [JString(text)];
    assert items[1..] == [];
    assert StringItems(items[1..]) == Some([]);
    assert [items[0].s] + [] == [text];
    assert StringItems(items) == Some([text]);
    var m := Payload(model, text).members;
    assert m["model"] == JString(model) && m["input"] == JArray(items);
  }

  /** Python's `"embeddings" in body` followed by `body["embeddings"]` on a
      body that is not a dict: the membership test raises TypeError on None,
      bool and numbers; on a str (substring test) or a list (element test)
      it may succeed, and then indexing by a string raises TypeError. */
  predicate ProbeRaises(body: Json) {
    match body
    case JObject(_) => false
    case JArray(items) => JString(EmbeddingsKey) in items
    case JString(s) => Find(s, EmbeddingsKey).Some?
    case _ => true
  }

  /** The one shape the live parser accepts: an object whose "embeddings"
      value is a list holding exactly one non-empty list `v`, whose length
      matches `expectedDimension` unless that is 0. */
  ghost predicate Accepts(body: Json, expectedDimension: int, v: seq<Json>) {
    && body.JObject?
    && EmbeddingsKey in body.members
    && body.members[EmbeddingsKey] == JArray([JArray(v)])
    && |v| > 0
    && (expectedDimension == 0 || |v| == expectedDimension)
  }

  /** The parsing and dimension checks applied to a decoded response body. */
  function InterpretBody(body: Json, expectedDimension: int): (r: Outcome)
    ensures r.Embedded? ==> Accepts(body, expectedDimension, r.vector)
    ensures forall v :: Accepts(body, expectedDimension, v) ==> r == Embedded(v)
    ensures r.Raised? <==> ProbeRaises(body)
    ensures r != Failed(BlankText) && r != Failed(TransportError)
  {
    match body
    case JObject(m) =>
      if EmbeddingsKey in m && m[EmbeddingsKey].JArray? then
        var entries := m[EmbeddingsKey].items;
        if |entries| == 1 && entries[0].JArray? then
          var v := entries[0].items;
          assert m[EmbeddingsKey] == JArray([JArray(v)]);
          if |v| == 0 then Failed(EmptyVector)
          else if expectedDimension != 0 && |v| != expectedDimension then Failed(DimensionMismatch)
          else Embedded(v)
        else if |entries| == 0 then Failed(EmptyEmbeddings)
        else Failed(UnexpectedEntries)
      else Failed(EmbeddingsMissingOrInvalid)
    case _ =>
      if ProbeRaises(body) then Raised else Failed(EmbeddingsMissingOrInvalid)
  }

  /** The request sent for a non-blank text. */
  function BuildRequest(text: string, model: string, endpoint: string): PostRequest {
    PostRequest(endpoint, Payload(model, text), RequestTimeoutSeconds)
  }

  /** What the call makes of the transport's answer to its one request. */
  function Respond(reply: Transport, expectedDimension: int): (o: Outcome)
    ensures o.Embedded? ==> reply.Delivered? && Accepts(reply.body, expectedDimension, o.vector)
    ensures o == Failed(TransportError) <==> reply == TransportFailure
    ensures reply.Delivered? ==> forall v :: Accepts(reply.body, expectedDimension, v) ==> o == Embedded(v)
    ensures o.Raised? <==> reply.Delivered? && ProbeRaises(reply.body)
    ensures o != Failed(BlankText)
  {
    match reply
    case TransportFailure => Failed(TransportError)
    case Delivered(body) => InterpretBody(body, expectedDimension)
  }

  /** One call: the requests it sent (none or one) and its outcome. */
  datatype Call = Call(sent: seq<PostRequest>, outcome: Outcome)

  /** `get_ollama_embedding(text, model, endpoint, expected_dimension)`. */
  function GetEmbedding(text: string, model: string, endpoint: string, expectedDimension: int,
                        send: PostRequest -> Transport): (c: Call)
    ensures c.sent == [] <==> IsBlank(text)
    ensures c.outcome == Failed(BlankText) <==> IsBlank(text)
    ensures |c.sent| <= 1
    ensures forall q :: q in c.sent ==>
              && q.url == endpoint
              && q.timeoutSeconds == RequestTimeoutSeconds
              && ReadPayload(q.payload) == Some((model, [text]))
    ensures c.outcome.Embedded? ==>
              && |c.sent| == 1
              && send(c.sent[0]).Delivered?
              && Accepts(send(c.sent[0]).body, expectedDimension, c.outcome.vector)
    ensures c.outcome == Failed(TransportError) <==> (|c.sent| == 1 && send(c.sent[0]) == TransportFailure)
    ensures !IsBlank(text) ==> c.sent == [BuildRequest(text, model, endpoint)]
    ensures c.outcome.Raised? <==>
              |c.sent| == 1 && send(c.sent[0]).Delivered? && ProbeRaises(send(c.sent[0]).body)
    ensures |c.sent| == 1 && send(c.sent[0]).Delivered? ==>
              forall v :: Accepts(send(c.sent[0]).body, expectedDimension, v) ==> c.outcome == Embedded(v)
  {
    if IsBlank(text) then
      Call([], Failed(BlankText))
    else
      var request := BuildRequest(text, model, endpoint);
      PayloadRoundTrip(model, text);
      Call([request], Respond(send(request), expectedDimension))
  }

  /** Text made only of whitespace (or nothing) never reaches the network. */
  lemma WhitespaceTextSendsNothing(text: string, model: string, endpoint: string, expectedDimension: int,
                                   send: PostRequest -> Transport)
    requires forall i :: 0 <= i < |text| ==> IsSpace(text[i])
    ensures GetEmbedding(text, model, endpoint, expectedDimension, send) == Call([], Failed(BlankText))
  {
    BlankIffAllSpace(text);
  }

  /** A dict body never raises: every response the service can send as an
      object ends in a vector or in None. */
  lemma ObjectBodyReturns(members: map<string, Json>, expectedDimension: int)
    ensures !InterpretBody(JObject(members), expectedDimension).Raised?
  {
  }

  /** A negative expected dimension can never match a length, so no vector is
      ever returned with it. */
  lemma NegativeDimensionNeverEmbeds(body: Json, expectedDimension: int)
    requires expectedDimension < 0
    ensures !InterpretBody(body, expectedDimension).Embedded?
  {
  }

  /** A set dimension that differs from the vector's length rejects it. */
  lemma MismatchedDimensionRejects(v: seq<Json>, expectedDimension: int)
    requires |v| > 0 && expectedDimension != 0 && |v| != expectedDimension
    ensures InterpretBody(JObject(map[EmbeddingsKey := JArray([JArray(v)])]), expectedDimension)
            == Failed(DimensionMismatch)
  {
  }

  /** The legacy flat `{"embedding": [...]}` form is not accepted: the code
      that read it is unreachable. */
  lemma LegacyFlatFormRejected(v: seq<Json>, expectedDimension: int)
    ensures InterpretBody(JObject(map["embedding" := JArray(v)]), expectedDimension)
            == Failed(EmbeddingsMissingOrInvalid)
  {
  }

  /** The shape failures, each with its own reason. */
  lemma ShapeFailures(m: map<string, Json>, entries: seq<Json>, expectedDimension: int)
    ensures EmbeddingsKey !in m ==>
              InterpretBody(JObject(m), expectedDimension) == Failed(EmbeddingsMissingOrInvalid)
    ensures EmbeddingsKey in m && !m[EmbeddingsKey].JArray? ==>
              InterpretBody(JObject(m), expectedDimension) == Failed(EmbeddingsMissingOrInvalid)
    ensures InterpretBody(JObject(m[EmbeddingsKey := JArray([])]), expectedDimension) == Failed(EmptyEmbeddings)
    ensures InterpretBody(JObject(m[EmbeddingsKey := JArray([JArray([])])]), expectedDimension) == Failed(EmptyVector)
    ensures |entries| > 1 ==>
              InterpretBody(JObject(m[EmbeddingsKey := JArray(entries)]), expectedDimension) == Failed(UnexpectedEntries)
    ensures |entries| == 1 && !entries[0].JArray? ==>
              InterpretBody(JObject(m[EmbeddingsKey := JArray(entries)]), expectedDimension) == Failed(UnexpectedEntries)
  {
  }

  /** The worked examples: a three-element vector with dimension 3 is returned
      as is, with dimension 4 it is rejected, and with dimension 0 (unset) any
      length is accepted. */
  lemma ThreeElementExample()
    ensures var v := [JNumber(0.1), JNumber(0.2), JNumber(0.3)];
            var body := JObject(map[EmbeddingsKey := JArray([JArray(v)])]);
            && InterpretBody(body, 3) == Embedded(v)
            && InterpretBody(body, 4) == Failed(DimensionMismatch)
            && InterpretBody(body, 0) == Embedded(v)
  {
  }
}
