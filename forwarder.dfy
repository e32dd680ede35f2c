/**
  The forwarder's configuration, its event values, the startup rule for the
  `print` target, and the decision logic of the SDK-managed mode
  (`forwardEvent` and `ReceiveAndReply`).
 */
module Forwarder {
  import opened Wrappers

  /** The target value that means "do not forward, only log". */
  const Print := "print"

  /**
    The settings of a `ForwardingAction` as loaded from the environment.
    The sleep delay is a float used only for timing and is not part of the model.
   */
  datatype Config = Config(
    name: string,
    target: string,
    port: int,
    printEvent: bool,
    skipSdk: bool)

  /** A decoded JSON value, as `encoding/json` produces into an `interface{}`. */
  datatype Json =
    | JNull
    | JBool(b: bool)
    | JNumber(n: real)
    | JString(s: string)
    | JArray(items: seq<Json>)
    | JObject(members: Object)

  /** A JSON object decoded into a `map[string]interface{}`; also the event map. */
  type Object = map<string, Json>

  /** The startup rule in `main`: a `print` target turns event printing on. */
  function ApplyStartupRules(cfg: Config): (c: Config)
    ensures c.printEvent <==> cfg.printEvent || cfg.target == Print
    ensures c.(printEvent := cfg.printEvent) == cfg
  {
    if cfg.target == Print then cfg.(printEvent := true) else cfg
  }

  // ---------------------------------------------------------------------------
  // Managed (SDK) mode
  // ---------------------------------------------------------------------------

  /** What the SDK client's `Send` reports: an acknowledgement, or any other result with its text. */
  datatype SendResult = Ack | Nack(reason: string)

  /** The retry policy attached to the send context. */
  datatype Backoff = ExponentialBackoff(initialMillis: nat, maxAttempts: nat)

  /** Exponential backoff starting at 10 milliseconds, at most 10 attempts. */
  const SendRetry := ExponentialBackoff(10, 10)

  /** One call of `client.Send`: its target, encoding, retry policy and event. */
  datatype Dispatch = Dispatch(target: string, structured: bool, retry: Backoff, event: Object)

  /**
    The effect of `forwardEvent`: the `Send` call it made, if any, and the
    failure it returns (`None` is Go's `nil`).
   */
  datatype Forwarded = Forwarded(sent: Option<Dispatch>, failure: Option<string>)

  /**
    `forwardEvent`: a `print` target succeeds without sending; otherwise the event
    is sent once, in structured encoding with the fixed retry policy, and the call
    succeeds exactly when `Send` acknowledged it.  `send` is the oracle's answer to
    that one call.
   */
  function ForwardEvent(cfg: Config, event: Object, send: SendResult): (r: Forwarded)
    ensures cfg.target == Print ==> r.sent == None
    ensures cfg.target != Print ==> r.sent == Some(Dispatch(cfg.target, true, SendRetry, event))
    ensures r.failure == None <==> cfg.target == Print || send == Ack
    ensures r.failure.Some? ==> send == Nack(r.failure.value)
  {
    if cfg.target == Print then
      Forwarded(None, None)
    else
      var call := Dispatch(cfg.target, true, SendRetry, event);
      match send
      case Ack => Forwarded(Some(call), None)
      case Nack(reason) => Forwarded(Some(call), Some(reason))
  }

  /** The HTTP result the receiver hands back to the SDK. */
  datatype HttpResult = HttpResult(status: int, message: string)

  /** `ReceiveAndReply`: 200 when forwarding succeeded, 400 with the failure text otherwise. */
  function ReceiveAndReply(cfg: Config, event: Object, send: SendResult): (r: HttpResult)
    ensures r.status == 200 || r.status == 400
    ensures r.status == 200 <==> ForwardEvent(cfg, event, send).failure == None
    ensures r.status == 200 ==> r.message == "OK"
    ensures r.status == 400 ==>
      r.message == "failed to forward event: " + ForwardEvent(cfg, event, send).failure.value
  {
    match ForwardEvent(cfg, event, send).failure
    case None => HttpResult(200, "OK")
    case Some(err) => HttpResult(400, "failed to forward event: " + err)
  }

  /** End to end in managed mode: 200 exactly for a `print` target or an acknowledged send. */
  lemma ManagedReplyStatus(cfg: Config, event: Object, send: SendResult)
    ensures ReceiveAndReply(cfg, event, send).status == 200 <==> cfg.target == Print || send == Ack
    ensures ReceiveAndReply(cfg, event, send).status == 400 <==> cfg.target != Print && send.Nack?
  {
  }

  /** With a `print` target the oracle is never consulted: every answer gives the same reply. */
  lemma PrintTargetIgnoresSend(cfg: Config, event: Object, s1: SendResult, s2: SendResult)
    requires cfg.target == Print
    ensures ForwardEvent(cfg, event, s1) == ForwardEvent(cfg, event, s2)
    ensures ReceiveAndReply(cfg, event, s1) == HttpResult(200, "OK")
  {
  }
}
