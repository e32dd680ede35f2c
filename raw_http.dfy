/**
  Raw HTTP mode: `requestHandler`, which turns one POST into an event map
  (structured or binary content mode of the CloudEvents HTTP binding) and
  forwards it with one outbound POST.

  The request's headers are an ordered sequence of already canonical names;
  JSON decoding of the body, the validity of the target URL and the transport's
  round trip are oracles given as inputs.
 */
module RawHttp {
  import opened Wrappers
  import opened GoStrings
  import opened Forwarder

  newtype byte = b: int | 0 <= b < 256

  /** One header of the request: its canonical name and all its values, in order. */
  datatype Header = Header(name: string, values: seq<string>)

  /** The outcome of `ioutil.ReadAll` on the request body. */
  datatype Body = ReadError | Bytes(content: seq<byte>)

  datatype Request = Request(headers: seq<Header>, body: Body)

  /**
    `json.Unmarshal` into a `map[string]interface{}` variable: the decoded map,
    `None` when the body is JSON `null` (which sets the variable to a nil map
    without an error), or the decoder's error text.
   */
  type Parser = seq<byte> -> Result<Option<Object>, string>

  /** What `json.Marshal` writes for a map variable: `null` for a nil map, the object otherwise. */
  function MapValue(m: Option<Object>): (j: Json)
    ensures j == JNull <==> m == None
    ensures m.Some? ==> j == JObject(m.value)
  {
    match m
    case None => JNull
    case Some(obj) => JObject(obj)
  }

  /** The outbound POST that `http.NewRequest` builds; `body` stands for the JSON that `json.Marshal` writes. */
  datatype Outbound = Outbound(verb: string, url: string, contentType: string, body: Json)

  /** The result of `httpTransport.RoundTrip`: an error, or a response with any status code. */
  datatype RoundTrip = TransportError(message: string) | Delivered(status: int)

  /**
    What the network side answers: whether `http.NewRequest` accepts the target
    URL, and what the one round trip returns.
   */
  datatype Network = Network(targetParses: bool, roundTrip: RoundTrip)

  /**
    What the client observes: a status with a body, or a connection dropped without
    any response (the server recovering from a panic in the handler).
   */
  datatype Reply = Respond(status: int, body: string) | Aborted

  /** The reply to one request and the outbound request it produced, if any. */
  datatype Outcome = Outcome(reply: Reply, sent: Option<Outbound>)

  const ContentTypeHeader := "Content-Type"
  const StructuredType := "application/cloudevents+json"
  const JsonType := "application/json"
  const CePrefix := "Ce-"
  const OutboundType := "application/cloudevents+json; charset=UTF-8"
  const DataKey := "data"

  /** `http.Error`: the status code and the message followed by a newline. */
  function ErrorReply(code: int, msg: string): (r: Reply)
    ensures r.Respond? && r.status == code
    ensures |r.body| == |msg| + 1 && r.body[..|msg|] == msg && r.body[|msg|] == '\n'
  {
    Respond(code, msg + "\n")
  }

  /** The text of the 415 reply: the rejected content type, quoted between a fixed lead and tail. */
  function UnsupportedMessage(contentType: string): (msg: string)
    ensures HasPrefix(msg, "Content-Type header ")
    ensures OccursAt(msg, contentType, |"Content-Type header "|)
    ensures |msg| == |"Content-Type header "| + |contentType| + |" is not supported"|
    ensures msg[|msg| - |" is not supported"|..] == " is not supported"
  {
    "Content-Type header " + contentType + " is not supported"
  }

  // ---------------------------------------------------------------------------
  // Header lookup
  // ---------------------------------------------------------------------------

  /** `Header.Get`: the first value of the first header called `key`, or "" when there is none. */
  function HeaderGet(hs: seq<Header>, key: string): (v: string)
    ensures (forall i :: 0 <= i < |hs| ==> hs[i].name != key) ==> v == ""
    ensures v != "" ==>
      exists i :: 0 <= i < |hs| && hs[i].name == key && |hs[i].values| > 0 && v == hs[i].values[0]
    ensures forall i ::
              (0 <= i < |hs| && hs[i].name == key &&
               (forall j :: 0 <= j < i ==> hs[j].name != key))
              ==> v == (if hs[i].values == [] then "" else hs[i].values[0])
  {
    if hs == [] then ""
    else if hs[0].name == key then (if hs[0].values == [] then "" else hs[0].values[0])
    else HeaderGet(hs[1..], key)
  }

  // ---------------------------------------------------------------------------
  // Binary content mode: attributes from `Ce-` headers
  // ---------------------------------------------------------------------------

  /** The attribute a `Ce-` header names: the rest of the name, lower-cased. */
  function AttrName(name: string): (k: string)
    ensures IsLower(k)
    ensures HasPrefix(name, CePrefix) ==> LowerCasedFrom(name, |CePrefix|, k)
  {
    ToLower(TrimPrefix(name, CePrefix))
  }

  /** A header that sets attribute `k`: its name starts with `Ce-`, it has a value, and it names `k`. */
  predicate Defines(h: Header, k: string)
  {
    HasPrefix(h.name, CePrefix) && |h.values| > 0 && AttrName(h.name) == k
  }

  /**
    The attribute map the header loops build, one header at a time: a `Ce-`
    header with values sets its attribute to its last value.
   */
  function CeAttributes(hs: seq<Header>): (m: Object)
    ensures forall k :: k in m ==> IsLower(k) && m[k].JString?
    decreases |hs|
  {
    if hs == [] then map[]
    else
      var m := CeAttributes(hs[..|hs| - 1]);
      var h := hs[|hs| - 1];
      if HasPrefix(h.name, CePrefix) && |h.values| > 0
      then m[AttrName(h.name) := JString(h.values[|h.values| - 1])]
      else m
  }

  /** Every attribute comes from some `Ce-` header with a value, and every such header sets one. */
  lemma {:induction false} CeAttributesKeys(hs: seq<Header>, k: string)
    ensures k in CeAttributes(hs) <==> exists i :: 0 <= i < |hs| && Defines(hs[i], k)
    decreases |hs|
  {
    if hs != [] {
      var init := hs[..|hs| - 1];
      CeAttributesKeys(init, k);
      if exists i :: 0 <= i < |init| && Defines(init[i], k) {
        var i :| 0 <= i < |init| && Defines(init[i], k);
        assert Defines(hs[i], k);
      }
      if exists i :: 0 <= i < |hs| && Defines(hs[i], k) {
        var i :| 0 <= i < |hs| && Defines(hs[i], k);
        if i < |init| { assert Defines(init[i], k); }
      }
    }
  }

  /**
    Last one wins: the value of an attribute is the last value of the last
    header that defines it.
   */
  lemma {:induction false} CeAttributesLastWins(hs: seq<Header>, k: string)
    requires k in CeAttributes(hs)
    ensures exists i ::
              0 <= i < |hs| && Defines(hs[i], k) &&
              (forall j :: i < j < |hs| ==> !Defines(hs[j], k)) &&
              CeAttributes(hs)[k] == JString(hs[i].values[|hs[i].values| - 1])
    decreases |hs|
  {
    var init := hs[..|hs| - 1];
    var h := hs[|hs| - 1];
    if Defines(h, k) {
      assert Defines(hs[|hs| - 1], k);
    } else {
      assert CeAttributes(hs)[k] == CeAttributes(init)[k];
      CeAttributesLastWins(init, k);
      var i :| 0 <= i < |init| && Defines(init[i], k) &&
        (forall j :: i < j < |init| ==> !Defines(init[j], k)) &&
        CeAttributes(init)[k] == JString(init[i].values[|init[i].values| - 1]);
      assert hs[i] == init[i];
      forall j | i < j < |hs| ensures !Defines(hs[j], k) {
        if j < |init| { assert hs[j] == init[j]; }
      }
    }
  }

  /** A header whose name lacks the exact prefix `Ce-` contributes nothing, wherever it stands. */
  lemma {:induction false} NonCeHeaderIgnored(before: seq<Header>, h: Header, after: seq<Header>)
    requires !HasPrefix(h.name, CePrefix)
    ensures CeAttributes(before + [h] + after) == CeAttributes(before + after)
    decreases |after|
  {
    if after == [] {
      assert (before + [h])[..|before + [h]| - 1] == before;
      assert before + [h] + after == before + [h];
      assert before + after == before;
    } else {
      var last := after[|after| - 1];
      var rest := after[..|after| - 1];
      NonCeHeaderIgnored(before, h, rest);
      assert (before + [h] + after)[..|before + [h] + after| - 1] == before + [h] + rest;
      assert (before + after)[..|before + after| - 1] == before + rest;
    }
  }

  // ---------------------------------------------------------------------------
  // Normalisation and the handler
  // ---------------------------------------------------------------------------

  /**
    The event map of an accepted request (`None` is a nil map, left by a body
    that decodes to JSON `null` in structured mode), or the status and message
    of a rejected one.
   */
  datatype Normalized = Event(event: Option<Object>) | Rejected(status: int, message: string)

  /**
    The decision of `requestHandler` before forwarding: body-read failure first,
    then structured mode, binary mode, or an unsupported media type.
   */
  function Normalize(req: Request, parse: Parser): (r: Normalized)
    ensures r.Rejected? ==> r.status in {400, 415, 500}
    ensures (r.Rejected? && r.status == 400) <==> req.body.ReadError?
    ensures r.Rejected? && r.status == 500 ==> req.body.Bytes? && parse(req.body.content).Failure?
  {
    var contentType := HeaderGet(req.headers, ContentTypeHeader);
    match req.body
    case ReadError => Rejected(400, "can't read body")
    case Bytes(body) =>
      if Contains(contentType, StructuredType) then
        match parse(body)
        case Failure(e) => Rejected(500, e)
        case Success(decoded) => Event(decoded)
      else if Contains(contentType, JsonType) then
        match parse(body)
        case Failure(e) => Rejected(500, e)
        case Success(data) => Event(Some(CeAttributes(req.headers)[DataKey := MapValue(data)]))
      else
        Rejected(415, UnsupportedMessage(contentType))
  }

  /**
    Which requests are rejected, and with which status: 400 exactly when the
    body cannot be read, 415 exactly for a readable body whose content type is
    neither JSON type, 500 exactly for a readable body of a JSON type that does
    not decode.
   */
  lemma NormalizeRejections(req: Request, parse: Parser)
    ensures var r := Normalize(req, parse);
      var ct := HeaderGet(req.headers, ContentTypeHeader);
      && ((r.Rejected? && r.status == 400) <==> req.body.ReadError?)
      && ((r.Rejected? && r.status == 415) <==>
            req.body.Bytes? && !Contains(ct, StructuredType) && !Contains(ct, JsonType))
      && ((r.Rejected? && r.status == 500) <==>
            req.body.Bytes? && parse(req.body.content).Failure? &&
            (Contains(ct, StructuredType) || Contains(ct, JsonType)))
  {
  }

  /** The whole of `requestHandler`: the reply and the one outbound request, if any. */
  function Handle(cfg: Config, req: Request, parse: Parser, net: Network): (r: Outcome)
    ensures r.reply.Aborted? || r.reply.status in {200, 400, 415, 500}
    ensures r.sent.Some? <==> Normalize(req, parse).Event? && cfg.target != Print && net.targetParses
    ensures r.sent.Some? ==>
      r.sent.value == Outbound("POST", cfg.target, OutboundType, MapValue(Normalize(req, parse).event))
    ensures r.reply.Aborted? <==>
      Normalize(req, parse).Event? && cfg.target != Print && !net.targetParses
  {
    match Normalize(req, parse)
    case Rejected(code, msg) => Outcome(ErrorReply(code, msg), None)
    case Event(m) =>
      if cfg.target == Print then
        Outcome(Respond(200, ""), None)
      else if !net.targetParses then
        // the request is nil and setting its header panics
        Outcome(Aborted, None)
      else
        var out := Outbound("POST", cfg.target, OutboundType, MapValue(m));
        match net.roundTrip
        case TransportError(e) => Outcome(ErrorReply(500, e), Some(out))
        case Delivered(_) => Outcome(Respond(200, ""), Some(out))
  }

  /**
    The header loop of binary mode: every value of every `Ce-` header is
    written into the map under its attribute name, in order.
   */
  method CollectAttributes(hs: seq<Header>) returns (m: Object)
    ensures m == CeAttributes(hs)
  {
    m := map[];
    var i := 0;
    while i < |hs|
      invariant 0 <= i <= |hs|
      invariant m == CeAttributes(hs[..i])
    {
      var name := hs[i].name;
      var values := hs[i].values;
      var j := 0;
      while j < |values|
        invariant 0 <= j <= |values|
        invariant m == (if HasPrefix(name, CePrefix) && j > 0
          then CeAttributes(hs[..i])[AttrName(name) := JString(values[j - 1])]
          else CeAttributes(hs[..i]))
      {
        var value := values[j];
        if HasPrefix(name, CePrefix) {
          var key := ToLower(TrimPrefix(name, CePrefix));
          assert m[key := JString(value)] ==
            CeAttributes(hs[..i])[AttrName(name) := JString(value)];
          m := m[key := JString(value)];
        }
        j := j + 1;
      }
      assert hs[..i + 1][..i] == hs[..i];
      i := i + 1;
    }
    assert hs[..i] == hs;
  }

  /**
    `requestHandler` step by step: the event map is built in place (in binary
    mode by `CollectAttributes`), then forwarded.  A Go map variable is a
    reference that may be nil, so `jsonMap` is an `Option<Object>`.
   */
  method RequestHandler(cfg: Config, req: Request, parse: Parser, net: Network) returns (o: Outcome)
    ensures o == Handle(cfg, req, parse, net)
  {
    var contentType := HeaderGet(req.headers, ContentTypeHeader);
    var jsonMap: Option<Object> := Some(map[]);
    if req.body.ReadError? {
      return Outcome(ErrorReply(400, "can't read body"), None);
    }
    var body := req.body.content;
    if Contains(contentType, StructuredType) {
      var decoded := parse(body);
      if decoded.Failure? {
        return Outcome(ErrorReply(500, decoded.error), None);
      }
      jsonMap := decoded.value;
    } else if Contains(contentType, JsonType) {
      var attrs := CollectAttributes(req.headers);
      jsonMap := Some(attrs);
      var jsonData := parse(body);
      if jsonData.Failure? {
        return Outcome(ErrorReply(500, jsonData.error), None);
      }
      jsonMap := Some(jsonMap.value[DataKey := MapValue(jsonData.value)]);
    } else {
      return Outcome(ErrorReply(415, UnsupportedMessage(contentType)), None);
    }

    if cfg.target == Print {
      return Outcome(Respond(200, ""), None);
    }
    if !net.targetParses {
      return Outcome(Aborted, None);
    }
    var event := MapValue(jsonMap);
    var sendReq := Outbound("POST", cfg.target, OutboundType, event);
    match net.roundTrip
    case TransportError(e) =>
      return Outcome(ErrorReply(500, e), Some(sendReq));
    case Delivered(_) =>
      return Outcome(Respond(200, ""), Some(sendReq));
  }
}
