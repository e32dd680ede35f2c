# cloudevents-forwarder, modelled in Dafny

The forwarder is a small relay. It receives a CloudEvent over HTTP and either
logs it (when the target is `print`) or forwards it to the configured target.
It has two modes:

- **Managed mode.** The CloudEvents SDK receives the event and hands it to
  `ReceiveAndReply`. That function calls `forwardEvent`.
  - If the target is `print`, nothing is sent and the reply is 200.
  - Otherwise `forwardEvent` sends the event once through the SDK client. The
    send uses structured encoding and an exponential-backoff retry policy
    (10 ms, 10 attempts). The reply is 200 when the send is acknowledged and
    400 otherwise.
- **Raw mode** (`SKIP_SDK`). `requestHandler` builds an event map itself:
  - With a `Content-Type` containing `application/cloudevents+json`
    (structured content mode), the map is the decoded body. A body that is
    JSON `null` leaves a nil map, which is re-serialised as `null`.
  - With a `Content-Type` containing `application/json` (binary content
    mode), the map is built from the `Ce-` headers, with the decoded body
    added under `data` (`null` for a body that is JSON `null`).
  - The map is then re-serialised and POSTed to the target with
    `Content-Type: application/cloudevents+json; charset=UTF-8`.

The model is a deterministic function from configuration and request to the
reply and the outbound request, if any. Everything outside that decision is an
input:

- JSON decoding is a `Parser` oracle from the body's bytes to an error text,
  an object, or `None` for a body that is JSON `null`.
- Whether `http.NewRequest` accepts the target URL is a boolean input.
- The transport round trip (an error, or a response with some status) is an
  input.
- The SDK's `Send` is an input: `Ack` or `Nack(reason)`.

Files:

- `wrappers.dfy`: `Option` and `Result`.
- `strings.dfy` (module `GoStrings`): `HasPrefix`, `TrimPrefix`, `Contains`
  and an ASCII `ToLower`, over `seq<char>`, with their properties.
- `forwarder.dfy` (module `Forwarder`): the configuration, decoded JSON
  values, the startup rule that a `print` target turns `PrintEvent` on, and
  managed mode (`ForwardEvent`, `ReceiveAndReply`).
- `raw_http.dfy` (module `RawHttp`): raw mode.
  - `RequestHandler` is an imperative method. In binary mode it calls
    `CollectAttributes`, which fills the map in place in two nested loops over
    the headers and over each header's values, as the source does.
  - `CollectAttributes` is proved equal to the header fold `CeAttributes`.
    `RequestHandler` is proved equal to the pure specification `Handle`, which
    is built on `Normalize` and `CeAttributes`.
  - Declarative lemmas characterise `CeAttributes`: which keys it has, that
    the last value wins, and that non-`Ce-` headers are ignored.
- `raw_http_properties.dfy` (module `RawHttpProperties`): the properties of
  raw mode, stated over `Handle` and `Normalize`.

Some behaviours of the code are modelled as written:

- `http.Error` appends a newline to the message, so every error reply's body
  ends in `"\n"`.
- If `http.NewRequest` rejects the target URL, the handler logs an unrelated
  variable and then sets a header on the nil request. That panics.
  `net/http` recovers from the panic and drops the connection without a
  reply. The model returns `Aborted` and sends nothing.
- A failed delivery gets different statuses in the two modes. Managed mode
  answers 400 (line 58). Raw mode answers 500 when the transport fails
  (line 177).
- In raw mode the destination's status code is never inspected: any response
  gives 200.

Modelling assumptions:

- The request's headers are a sequence of `(canonical name, values)` in a
  fixed order. Go iterates over a header map in random order.
  - "The last value wins" is therefore stated for that order: the last value
    of the last header that names the attribute.
  - For names made of valid token characters, canonicalisation makes two
    distinct header names lower-case to distinct attribute names. For such
    headers the order across names does not matter.
- `Header.Get("Content-type")` looks up the canonical name `Content-Type` and
  returns the first value of the first matching header, or `""`.

## Model

| member | source | states |
|---|---|---|
| GoStrings.HasPrefix | cloudevents-forwarder.go:133 | `strings.HasPrefix` holds iff the prefix fits and the string is the prefix followed by the rest |
| GoStrings.TrimPrefix | cloudevents-forwarder.go:134 | with the prefix present, prefix + result is the input; otherwise the input is unchanged |
| GoStrings.Contains | cloudevents-forwarder.go:122-129 | a string that starts with the substring contains it, and a string contains only substrings no longer than itself |
| GoStrings.ContainsIff | cloudevents-forwarder.go:122-129 | the `strings.Contains` scan succeeds exactly when the substring occurs at some index |
| GoStrings.ShorterNeverContains | cloudevents-forwarder.go:122-129 | a content type shorter than the media type never contains it |
| GoStrings.LowerChar | cloudevents-forwarder.go:134 | only `A`..`Z` change, each by the ASCII case offset, and the result is never upper case |
| GoStrings.ToLower | cloudevents-forwarder.go:134 | same length, each character lower-cased, and no upper-case letter left |
| GoStrings.LowerIsFixed | cloudevents-forwarder.go:134 | lower-casing an already lower-case string leaves it unchanged |
| Forwarder.ApplyStartupRules | cloudevents-forwarder.go:213-215 | PrintEvent is on afterwards iff it was on or the target is `print`; no other setting changes |
| Forwarder.ForwardEvent | cloudevents-forwarder.go:63-83 | `print` target: no Send; otherwise exactly one Send to the target, with structured encoding and 10 ms / 10 attempts backoff; success iff target is `print` or Send is ACK, and the failure carries Send's result |
| Forwarder.ReceiveAndReply | cloudevents-forwarder.go:52-61 | status is 200 or 400; 200 "OK" iff forwarding succeeded; 400 carries "failed to forward event: " and the failure |
| Forwarder.ManagedReplyStatus | cloudevents-forwarder.go:57-82 | end to end, 200 iff the target is `print` or Send is ACK; 400 iff the target is not `print` and Send is not ACK |
| Forwarder.PrintTargetIgnoresSend | cloudevents-forwarder.go:67-69 | with target `print` the Send result never matters and the reply is 200 "OK" |
| RawHttp.MapValue | cloudevents-forwarder.go:162 | the marshalled map is `null` exactly for a nil map, and the object itself otherwise |
| RawHttp.ErrorReply | cloudevents-forwarder.go:119 | `http.Error` (also at lines 126, 144, 150 and 177) replies with the given status and the message followed by one newline |
| RawHttp.UnsupportedMessage | cloudevents-forwarder.go:149 | the 415 text starts with "Content-Type header ", carries the content type right after it, and ends in " is not supported" |
| RawHttp.HeaderGet | cloudevents-forwarder.go:112 | "" when no header has the name; otherwise the first value of the first header with the name, or "" when that header has no value |
| RawHttp.AttrName | cloudevents-forwarder.go:133-134 | the attribute name is lower case and is the header name after `Ce-`, lower-cased character by character |
| RawHttp.CeAttributes | cloudevents-forwarder.go:130-139 | every key of the header-built map is lower case and every value is a string |
| RawHttp.CeAttributesKeys | cloudevents-forwarder.go:130-139 | a key is in the header-built map iff some header with a value starts with exactly `Ce-` and names that key |
| RawHttp.CeAttributesLastWins | cloudevents-forwarder.go:130-139 | each key holds the last value of the last header that names it |
| RawHttp.NonCeHeaderIgnored | cloudevents-forwarder.go:133 | a header without the `Ce-` prefix contributes nothing, wherever it stands |
| RawHttp.Normalize | cloudevents-forwarder.go:112-152 | a rejection has status 400, 415 or 500; 400 iff the body cannot be read; 500 only for a readable body that does not decode |
| RawHttp.NormalizeRejections | cloudevents-forwarder.go:115-152 | 400 iff the body cannot be read; 415 iff the body is readable and the content type contains neither JSON media type; 500 iff the body is readable, has a JSON media type and does not decode |
| RawHttp.Handle | cloudevents-forwarder.go:111-194 | the reply is Aborted or has status 200, 400, 415 or 500; a request goes out iff normalisation succeeds, the target is not `print` and the URL parses; the request goes out as one POST to the target carrying the event map with the cloudevents+json content type; Aborted iff the URL does not parse after a successful normalisation |
| RawHttp.CollectAttributes | cloudevents-forwarder.go:130-139 | writing each value of each `Ce-` header into the map in place, in order, gives exactly `CeAttributes` of the headers |
| RawHttp.RequestHandler | cloudevents-forwarder.go:111-194 | reading the body, building the map in place and forwarding it gives exactly the outcome of `Handle` |
| RawHttpProperties.BodyReadFailureRejects | cloudevents-forwarder.go:115-121 | a body that cannot be read gives 400 "can't read body", whatever the content type, and nothing is sent |
| RawHttpProperties.StructuredModeEvent | cloudevents-forwarder.go:122-128 | structured mode: the event map equals the decoded body, a nil map for a `null` body |
| RawHttpProperties.DecodeFailureRejects | cloudevents-forwarder.go:122-147 | in either JSON mode a body that fails to decode gives 500 with the decoder's error, and nothing is sent |
| RawHttpProperties.UnsupportedMediaType | cloudevents-forwarder.go:148-152 | neither media type gives 415 with "Content-Type header … is not supported", and nothing is sent |
| RawHttpProperties.UnsupportedIgnoresBody | cloudevents-forwarder.go:148-152 | for an unsupported content type the outcome does not depend on the decoder or the network, so the body is not decoded |
| RawHttpProperties.UnsupportedMessageOfShort | cloudevents-forwarder.go:148-152 | a content type shorter than `application/json` is always unsupported |
| RawHttpProperties.TextPlainUnsupported | cloudevents-forwarder.go:148-152 | `text/plain` gives the `http.Error` reply 415 with the message for `text/plain`, and nothing is sent |
| RawHttpProperties.BinaryModeEvent | cloudevents-forwarder.go:129-147 | binary mode: `data` is the decoded body, even over a `Ce-Data` header; every other key comes from a `Ce-` header that has a value, and vice versa; each key holds the last value of the last such header |
| RawHttpProperties.BinaryModeMap | cloudevents-forwarder.go:129-147 | binary mode: the event is the header-built map with the decoded body stored under `data` |
| RawHttpProperties.NullBodyForwarded | cloudevents-forwarder.go:122-162 | a body that is JSON `null` is accepted: structured mode POSTs `null`, binary mode POSTs the header attributes with `"data": null`, and a delivered POST gives 200 |
| RawHttpProperties.PrintTargetSendsNothing | cloudevents-forwarder.go:157-159 | with target `print`, a normalised request gets the default 200 with an empty body, and nothing is sent |
| RawHttpProperties.ForwardsOnce | cloudevents-forwarder.go:162-191 | otherwise exactly one POST goes to the target with the marshalled event map and the cloudevents+json content type; a transport error gives 500 with its text, and any response gives 200 |
| RawHttpProperties.DestinationStatusIgnored | cloudevents-forwarder.go:172-179 | the destination's status code never changes the outcome |
| RawHttpProperties.UnparsableTargetAborts | cloudevents-forwarder.go:167-171 | a target URL that `http.NewRequest` rejects drops the connection, and nothing is sent |
| RawHttpProperties.PrintFlagOnlyLogs | cloudevents-forwarder.go:154-156 | the PrintEvent flag never changes the reply or what is sent |
| RawHttpProperties.ExampleContentType | cloudevents-forwarder.go:112 | the example request's content type is `application/json` |
| RawHttpProperties.JsonTypeIsBinaryMode | cloudevents-forwarder.go:122-129 | `application/json` selects binary mode, not structured mode |
| RawHttpProperties.ExampleAttrNames | cloudevents-forwarder.go:133-134 | `Ce-Id` and `Ce-Source` name `id` and `source`; `Content-Type` is not a `Ce-` header |
| RawHttpProperties.ExampleAttributes | cloudevents-forwarder.go:130-139 | the example headers build `{"id":<id>,"source":<source>}` |
| RawHttpProperties.BinaryModeExample | cloudevents-forwarder.go:129-147 | `Ce-Id: <id>`, `Ce-Source: <source>`, `Content-Type: application/json` and a body decoding to `{"x":1}` give `{"id":<id>,"source":<source>,"data":{"x":1}}` |

## Left out

- GoStrings.ToLower: maps only ASCII letters. Go's `strings.ToLower` also lower-cases non-ASCII letters, and the model does not cover Unicode case mapping.
- The post-delivery sleep (`SleepSeconds`, lines 75-78 and 185-188): it is floating-point timing with no effect on the outcome. The field is not part of `Config`.
- Logging, including the `PrintEvent` printing (lines 64-66, 154-156, 166, 184): output only. `PrintFlagOnlyLogs` states that the flag has no other effect.
- The GET greeting `handleGet` (lines 46-49): output only.
- Receiver and server setup (`runWithCloudEventsSdk`, `runWithHttp`, `ListenAndServe`, lines 85-109 and 196-204) and the choice between them on `SkipSdk` (lines 220-224): I/O plumbing.
- Loading settings and defaults through `envconfig` (line 208): a foreign library.
- The SDK's retry loop and everything inside `Send`: `Send` is an oracle. The model records only the retry policy it is given.
- `json.Unmarshal` and `json.Marshal`: the decoder is the `Parser` oracle, and the outbound body is the JSON value that `json.Marshal` would encode (`MapValue`: `null` for a nil map, the object otherwise). The `log.Fatal` on a marshal error (lines 162-165) is not modelled, because the maps built here always marshal.
- Floating-point JSON numbers are `real` rather than `float64`.
- The handler never closes the destination's response body. Resource use is not modelled.
- Header-name canonicalisation by `net/http`, and Go's random iteration order over header names: headers are an ordered sequence of canonical names.
- Concurrency between requests: handlers share only read-only configuration.
