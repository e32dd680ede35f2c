/** What `requestHandler` promises, stated over the model in `RawHttp`. */
module RawHttpProperties {
  import opened Wrappers
  import opened GoStrings
  import opened Forwarder
  import opened RawHttp

  function ContentTypeOf(req: Request): string
  {
    HeaderGet(req.headers, ContentTypeHeader)
  }

  /** A body that cannot be read gives 400 whatever the content type, and nothing is sent. */
  lemma BodyReadFailureRejects(cfg: Config, req: Request, parse: Parser, net: Network)
    requires req.body == ReadError
    ensures Handle(cfg, req, parse, net) == Outcome(Respond(400, "can't read body\n"), None)
  {
  }

  /** Structured mode: the event map is the decoded body itself (a nil map for a `null` body). */
  lemma StructuredModeEvent(req: Request, parse: Parser)
    requires req.body.Bytes? && Contains(ContentTypeOf(req), StructuredType)
    requires parse(req.body.content).Success?
    ensures Normalize(req, parse) == Event(parse(req.body.content).value)
  {
  }

  /** In either JSON mode a body that does not decode gives 500 with the decoder's error, and nothing is sent. */
  lemma DecodeFailureRejects(cfg: Config, req: Request, parse: Parser, net: Network)
    requires req.body.Bytes?
    requires Contains(ContentTypeOf(req), StructuredType) || Contains(ContentTypeOf(req), JsonType)
    requires parse(req.body.content).Failure?
    ensures Handle(cfg, req, parse, net) ==
      Outcome(Respond(500, parse(req.body.content).error + "\n"), None)
  {
  }

  /** Any other content type gives 415, and nothing is sent. */
  lemma UnsupportedMediaType(cfg: Config, req: Request, parse: Parser, net: Network)
    requires req.body.Bytes?
    requires !Contains(ContentTypeOf(req), StructuredType) && !Contains(ContentTypeOf(req), JsonType)
    ensures Handle(cfg, req, parse, net) ==
      Outcome(Respond(415, UnsupportedMessage(ContentTypeOf(req)) + "\n"), None)
  {
  }

  /** For an unsupported content type the body is never decoded: no decoder and no network changes the outcome. */
  lemma UnsupportedIgnoresBody(cfg: Config, req: Request, p1: Parser, p2: Parser, n1: Network, n2: Network)
    requires !Contains(ContentTypeOf(req), StructuredType) && !Contains(ContentTypeOf(req), JsonType)
    ensures Handle(cfg, req, p1, n1) == Handle(cfg, req, p2, n2)
  {
  }

  /** A `text/plain` body always gives 415. */
  lemma TextPlainUnsupported(cfg: Config, req: Request, parse: Parser, net: Network)
    requires req.body.Bytes? && ContentTypeOf(req) == "text/plain"
    ensures Handle(cfg, req, parse, net).reply == ErrorReply(415, UnsupportedMessage("text/plain"))
    ensures Handle(cfg, req, parse, net).sent == None
  {
    var ct := ContentTypeOf(req);
    assert |ct| < |JsonType|;
    UnsupportedMessageOfShort(cfg, req, parse, net);
  }

  /** Any content type shorter than `application/json` is unsupported. */
  lemma UnsupportedMessageOfShort(cfg: Config, req: Request, parse: Parser, net: Network)
    requires req.body.Bytes? && |ContentTypeOf(req)| < |JsonType|
    ensures Handle(cfg, req, parse, net) ==
      Outcome(Respond(415, UnsupportedMessage(ContentTypeOf(req)) + "\n"), None)
  {
    ShorterNeverContains(ContentTypeOf(req), StructuredType);
    ShorterNeverContains(ContentTypeOf(req), JsonType);
    UnsupportedMediaType(cfg, req, parse, net);
  }

  /**
    Binary mode: `data` is the decoded body, overriding any `Ce-Data` header;
    every other key is the lower-cased name, minus `Ce-`, of a header that has
    a value, and it holds the last value of the last such header.
   */
  lemma {:induction false} BinaryModeEvent(req: Request, parse: Parser, k: string)
    requires req.body.Bytes?
    requires !Contains(ContentTypeOf(req), StructuredType) && Contains(ContentTypeOf(req), JsonType)
    requires parse(req.body.content).Success?
    ensures Normalize(req, parse).Event?
    ensures Normalize(req, parse).event.Some?
    ensures var ev := Normalize(req, parse).event.value;
      DataKey in ev && ev[DataKey] == MapValue(parse(req.body.content).value)
    ensures var ev := Normalize(req, parse).event.value;
      k != DataKey ==> (k in ev <==> exists i :: 0 <= i < |req.headers| && Defines(req.headers[i], k))
    ensures var ev := Normalize(req, parse).event.value;
      var hs := req.headers;
      k != DataKey && k in ev ==>
        exists i ::
          0 <= i < |hs| && Defines(hs[i], k) &&
          (forall j :: i < j < |hs| ==> !Defines(hs[j], k)) &&
          ev[k] == JString(hs[i].values[|hs[i].values| - 1])
  {
    var attrs := CeAttributes(req.headers);
    assert Normalize(req, parse).event == Some(attrs[DataKey := MapValue(parse(req.body.content).value)]);
    CeAttributesKeys(req.headers, k);
    if k != DataKey && k in attrs {
      CeAttributesLastWins(req.headers, k);
    }
  }

  /**
    A body that decodes to JSON `null` is accepted: structured mode forwards the
    body `null`, binary mode forwards the header attributes with `"data": null`,
    and a delivered POST gives 200.
   */
  lemma NullBodyForwarded(cfg: Config, req: Request, parse: Parser, net: Network)
    requires req.body.Bytes? && parse(req.body.content) == Success(None)
    requires Contains(ContentTypeOf(req), StructuredType) || Contains(ContentTypeOf(req), JsonType)
    requires cfg.target != Print && net.targetParses && net.roundTrip.Delivered?
    ensures Handle(cfg, req, parse, net).reply == Respond(200, "")
    ensures Contains(ContentTypeOf(req), StructuredType) ==>
      Handle(cfg, req, parse, net).sent == Some(Outbound("POST", cfg.target, OutboundType, JNull))
    ensures !Contains(ContentTypeOf(req), StructuredType) ==>
      Handle(cfg, req, parse, net).sent ==
        Some(Outbound("POST", cfg.target, OutboundType,
                      JObject(CeAttributes(req.headers)[DataKey := JNull])))
  {
  }

  /** Binary mode in one equation: the header attributes with the decoded body under `data`. */
  lemma BinaryModeMap(req: Request, parse: Parser)
    requires req.body.Bytes?
    requires !Contains(ContentTypeOf(req), StructuredType) && Contains(ContentTypeOf(req), JsonType)
    requires parse(req.body.content).Success?
    ensures Normalize(req, parse) ==
      Event(Some(CeAttributes(req.headers)[DataKey := MapValue(parse(req.body.content).value)]))
  {
  }

  /** With target `print`, an accepted request gets the default 200 and nothing is sent. */
  lemma PrintTargetSendsNothing(cfg: Config, req: Request, parse: Parser, net: Network)
    requires cfg.target == Print && Normalize(req, parse).Event?
    ensures Handle(cfg, req, parse, net) == Outcome(Respond(200, ""), None)
  {
  }

  /**
    Otherwise exactly one POST goes to the target, carrying the event map as a
    structured CloudEvent; a transport error gives 500, any response gives 200.
   */
  lemma ForwardsOnce(cfg: Config, req: Request, parse: Parser, net: Network)
    requires cfg.target != Print && Normalize(req, parse).Event? && net.targetParses
    ensures Handle(cfg, req, parse, net).sent ==
      Some(Outbound("POST", cfg.target, OutboundType, MapValue(Normalize(req, parse).event)))
    ensures net.roundTrip.TransportError? ==>
      Handle(cfg, req, parse, net).reply == Respond(500, net.roundTrip.message + "\n")
    ensures net.roundTrip.Delivered? ==> Handle(cfg, req, parse, net).reply == Respond(200, "")
  {
  }

  /** The destination's status code is never inspected. */
  lemma DestinationStatusIgnored(cfg: Config, req: Request, parse: Parser, ok: bool, s1: int, s2: int)
    ensures Handle(cfg, req, parse, Network(ok, Delivered(s1))) ==
            Handle(cfg, req, parse, Network(ok, Delivered(s2)))
  {
  }

  /** A target that `http.NewRequest` rejects makes the handler panic before anything is sent. */
  lemma UnparsableTargetAborts(cfg: Config, req: Request, parse: Parser, net: Network)
    requires cfg.target != Print && Normalize(req, parse).Event? && !net.targetParses
    ensures Handle(cfg, req, parse, net) == Outcome(Aborted, None)
  {
  }

  /** `PrintEvent` only logs: it never changes the reply or what is sent. */
  lemma PrintFlagOnlyLogs(cfg: Config, req: Request, parse: Parser, net: Network, flag: bool)
    ensures Handle(cfg.(printEvent := flag), req, parse, net) == Handle(cfg, req, parse, net)
  {
  }

  /** The headers of the binary-mode example below, with any `id` and `source` values. */
  function ExampleHeaders(id: string, source: string): seq<Header>
  {
    [Header("Ce-Id", [id]), Header("Ce-Source", [source]), Header("Content-Type", ["application/json"])]
  }

  /** The example's content type is `application/json`. */
  lemma ExampleContentType(id: string, source: string)
    ensures HeaderGet(ExampleHeaders(id, source), ContentTypeHeader) == JsonType
  {
    var hs := ExampleHeaders(id, source);
    assert hs[0].name != ContentTypeHeader by { assert hs[0].name[1] != ContentTypeHeader[1]; }
    assert hs[1].name != ContentTypeHeader by { assert hs[1].name[1] != ContentTypeHeader[1]; }
    assert hs[1..][1..] == [hs[2]];
  }

  /** `application/json` selects binary mode, not structured mode. */
  lemma JsonTypeIsBinaryMode()
    ensures Contains(JsonType, JsonType) && !Contains(JsonType, StructuredType)
  {
    assert HasPrefix(JsonType, JsonType);
    ShorterNeverContains(JsonType, StructuredType);
  }

  /** The attributes the example's headers name. */
  lemma ExampleAttrNames()
    ensures AttrName("Ce-Id") == "id" && AttrName("Ce-Source") == "source"
    ensures !HasPrefix("Content-Type", CePrefix)
  {
    assert TrimPrefix("Ce-Id", CePrefix) == "Id";
    assert ToLower("Id") == "id";
    assert TrimPrefix("Ce-Source", CePrefix) == "Source";
    assert ToLower("Source") == "source";
    assert "Content-Type"[..|CePrefix|][1] != CePrefix[1];
  }

  /** The attribute map of the example's headers. */
  lemma ExampleAttributes(id: string, source: string)
    ensures CeAttributes(ExampleHeaders(id, source)) == map["id" := JString(id), "source" := JString(source)]
  {
    var hs := ExampleHeaders(id, source);
    ExampleAttrNames();
    assert hs[..2][..1][..0] == [];
    assert CeAttributes(hs[..1]) == map["id" := JString(id)];
    assert hs[..2][..1] == hs[..1];
    assert CeAttributes(hs[..2]) == map["id" := JString(id), "source" := JString(source)];
    assert hs[..3][..2] == hs[..2];
  }

  /**
    The binary-mode example: `Ce-Id: <id>`, `Ce-Source: <source>` and a body that
    decodes to `{"x":1}` give `{"id":<id>,"source":<source>,"data":{"x":1}}`.
   */
  lemma BinaryModeExample(id: string, source: string, parse: Parser, body: seq<byte>)
    requires parse(body) == Success(Some(map["x" := JNumber(1.0)]))
    ensures Normalize(Request(ExampleHeaders(id, source), Bytes(body)), parse) ==
      Event(Some(map["id" := JString(id), "source" := JString(source),
                     "data" := JObject(map["x" := JNumber(1.0)])]))
  {
    ExampleContentType(id, source);
    JsonTypeIsBinaryMode();
    ExampleAttributes(id, source);
  }
}
