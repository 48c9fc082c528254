/**
 * The top level of the complete Lambda example: the API Gateway handler
 * with its request-body fallback, the EventBridge handler, the envelope
 * `lambda_handler` wraps around every other result, and the process-wide
 * cold-start flag.
 *
 * JSON decoding is the `parse` input (`None` where `json.loads` raises
 * `JSONDecodeError`); the S3, SNS and SQS record handlers of this example
 * are the `recordHandler` input; the elapsed time, already rendered as
 * `X-Execution-Time-Ms` shows it, is the `elapsedMs` input.
 */
module CompleteHandler {
  import opened Wrappers
  import opened Json
  import opened PyText
  import opened EventSource
  import opened Diagnostics

  /** The attributes of the Lambda context object the responses report. */
  datatype Context = Context(
    functionName: string,
    functionVersion: string,
    invokedFunctionArn: string,
    memoryLimitMb: int,
    requestId: string)

  /** What the supplied pieces of the handler are. */
  datatype Runtime = Runtime(
    services: Services,
    parse: string -> Option<Json>,
    recordHandler: (SourceTag, Json) -> Json,
    elapsedMs: string)

  /** The `result` field of a 200 response, per event source. */
  datatype HandlerResult =
    | RecordResult(value: Json)
    | EventBridgeResult(eventSource: Json, detailType: Json, detail: Json)
    | DirectInvocation(direct: DirectResult)
    | UnknownSource(eventData: map<string, Json>)

  /** The decoded `body` of each response the handlers build. */
  datatype Body =
    | GatewayProcessed(httpMethod: Json, path: Json, requestData: Json)
    | GatewayFailed(error: PyError)
    | Completed(
        sourceType: string,
        functionName: string,
        environment: string,
        codeVersion: string,
        isColdStart: bool,
        functionUrl: bool,
        result: HandlerResult,
        requestId: string)
    | Failed(errorType: PyError, isColdStart: bool, functionName: string, requestId: string)

  datatype Envelope = Envelope(statusCode: int, headers: map<string, string>, body: Body)

  const JsonHeaders: map<string, string> :=
    map["Content-Type" := "application/json", "Access-Control-Allow-Origin" := "*"]

  // ---------------------------------------------------------------------
  // handle_api_gateway_event

  /**
   * The request data of an API Gateway event: the body defaults to the
   * text `{}`, a falsy body gives `{}`, a body `json.loads` rejects gives
   * `{'raw_body': body}`, and a truthy body that is not a string makes
   * `json.loads` raise `TypeError`.
   */
  function RequestData(event: map<string, Json>, parse: string -> Option<Json>): Result<Json, PyError>
  {
    var body := GetOr(event, "body", JStr("{}"));
    if !Truthy(body) then Ok(JObj(map[]))
    else if body.JStr? then
      match parse(body.s)
      case Some(v) => Ok(v)
      case None => Ok(JObj(map["raw_body" := body]))
    else Err(TypeError)
  }

  /** Each case of the body fallback. */
  lemma BodyFallback(event: map<string, Json>, parse: string -> Option<Json>)
    ensures "body" !in event ==>
      RequestData(event, parse) == (if parse("{}").Some? then Ok(parse("{}").value) else Ok(JObj(map["raw_body" := JStr("{}")])))
    ensures "body" in event && !Truthy(event["body"]) ==> RequestData(event, parse) == Ok(JObj(map[]))
    ensures "body" in event && event["body"].JStr? && event["body"].s != [] && parse(event["body"].s).None? ==>
      RequestData(event, parse) == Ok(JObj(map["raw_body" := event["body"]]))
    ensures RequestData(event, parse).Err? <==>
      "body" in event && Truthy(event["body"]) && !event["body"].JStr?
  {
  }

  /** `handle_api_gateway_event(event)`. */
  function GatewayEnvelope(event: map<string, Json>, parse: string -> Option<Json>): Envelope
  {
    match RequestData(event, parse)
    case Err(e) => Envelope(500, JsonHeaders, GatewayFailed(e))
    case Ok(data) =>
      Envelope(200, JsonHeaders["X-Lambda-Function" := "complete-lambda-example"],
        GatewayProcessed(GetOr(event, "httpMethod", JStr("UNKNOWN")), GetOr(event, "path", JStr("/")), data))
  }

  /**
   * The API Gateway response is 200 exactly when the body could be read,
   * and it then echoes the method and path (defaults `UNKNOWN` and `/`).
   */
  lemma GatewayStatus(event: map<string, Json>, parse: string -> Option<Json>)
    ensures GatewayEnvelope(event, parse).statusCode == 200 <==> RequestData(event, parse).Ok?
    ensures GatewayEnvelope(event, parse).statusCode in {200, 500}
    ensures GatewayEnvelope(event, parse).statusCode == 200 ==>
      && GatewayEnvelope(event, parse).headers["X-Lambda-Function"] == "complete-lambda-example"
      && GatewayEnvelope(event, parse).body.httpMethod == GetOr(event, "httpMethod", JStr("UNKNOWN"))
      && GatewayEnvelope(event, parse).body.path == GetOr(event, "path", JStr("/"))
  {
  }

  // ---------------------------------------------------------------------
  // handle_eventbridge_event

  function EventBridgeSpec(event: map<string, Json>): HandlerResult
  {
    EventBridgeResult(
      GetOr(event, "source", JStr("unknown")),
      GetOr(event, "detail-type", JStr("unknown")),
      GetOr(event, "detail", JObj(map[])))
  }

  // ---------------------------------------------------------------------
  // lambda_handler

  /** The handler result for a classified, non-API-Gateway event. */
  function ResultFor(tag: SourceTag, payload: Json, event: map<string, Json>, rt: Runtime): HandlerResult
  {
    match tag
    case S3 => RecordResult(rt.recordHandler(S3, payload))
    case Sns => RecordResult(rt.recordHandler(Sns, payload))
    case Sqs => RecordResult(rt.recordHandler(Sqs, payload))
    case EventBridge => EventBridgeSpec(event)
    case Direct => DirectInvocation(DirectSpec(event, rt.services))
    case _ => UnknownSource(event)
  }

  function ColdStartText(cold: bool): string
  {
    if cold then "true" else "false"
  }

  function CompletedEnvelope(tag: SourceTag, result: HandlerResult, ctx: Context, rt: Runtime, cold: bool): Envelope
  {
    var env := rt.services.env;
    var headers := JsonHeaders[
      "X-Source-Type" := TagName(tag)][
      "X-Execution-Time-Ms" := rt.elapsedMs][
      "X-Cold-Start" := ColdStartText(cold)][
      "X-Function-Version" := ctx.functionVersion][
      "X-Request-ID" := ctx.requestId];
    Envelope(200, headers, Completed(
      TagName(tag), ctx.functionName,
      EnvGet(env, "ENVIRONMENT", "unknown"), EnvGet(env, "FUNCTION_VERSION", "1.0.0"),
      cold, Lower(EnvGet(env, "ENABLE_FUNCTION_URL", "false")) == "true",
      result, ctx.requestId))
  }

  function FailedEnvelope(error: PyError, ctx: Context, rt: Runtime, cold: bool): Envelope
  {
    var headers := JsonHeaders["X-Execution-Time-Ms" := rt.elapsedMs]["X-Error" := "true"];
    Envelope(500, headers, Failed(error, cold, ctx.functionName, ctx.requestId))
  }

  /**
   * `lambda_handler(event, context)` once the cold-start flag is known:
   * API Gateway gets its own envelope, every other tag a 200 envelope,
   * and a classification that raised or returned `None` (whose unpacking
   * raises `TypeError`) a 500 envelope.
   */
  function HandlerResponse(event: map<string, Json>, ctx: Context, rt: Runtime, cold: bool): Envelope
  {
    match Classify(event)
    case Raises(e) => FailedEnvelope(e, ctx, rt, cold)
    case NoMatch => FailedEnvelope(TypeError, ctx, rt, cold)
    case Tagged(tag, payload) =>
      if tag == ApiGateway then GatewayEnvelope(event, rt.parse)
      else CompletedEnvelope(tag, ResultFor(tag, payload, event, rt), ctx, rt, cold)
  }

  /**
   * The envelope choice: pass-through for API Gateway, 200 with the tag
   * in `X-Source-Type` for every other tag, 500 with `X-Error` exactly
   * when the event could not be classified.
   */
  lemma EnvelopeChoice(event: map<string, Json>, ctx: Context, rt: Runtime, cold: bool)
    ensures var r := HandlerResponse(event, ctx, rt, cold);
      Classify(event).Tagged? && Classify(event).tag == ApiGateway ==> r == GatewayEnvelope(event, rt.parse)
    ensures var r := HandlerResponse(event, ctx, rt, cold);
      Classify(event).Tagged? && Classify(event).tag != ApiGateway ==>
        r.statusCode == 200 && r.headers["X-Source-Type"] == TagName(Classify(event).tag)
    ensures var r := HandlerResponse(event, ctx, rt, cold);
      "X-Error" in r.headers <==> !Classify(event).Tagged?
    ensures var r := HandlerResponse(event, ctx, rt, cold);
      !Classify(event).Tagged? ==> r.statusCode == 500 && r.headers["X-Error"] == "true"
  {
  }

  /**
   * A `Records` event whose first record names no known source is
   * answered with 500 and `TypeError`, even when it also looks like an
   * API Gateway request.
   */
  lemma UnmatchedRecordFails(event: map<string, Json>, ctx: Context, rt: Runtime, cold: bool)
    requires "Records" in event && FirstRecord(event["Records"]).Ok?
    requires var r := FirstRecord(event["Records"]).value;
      !FieldIs(r, "eventSource", "aws:s3") && !FieldIs(r, "EventSource", "aws:sns") && !FieldIs(r, "eventSource", "aws:sqs")
    ensures HandlerResponse(event, ctx, rt, cold).statusCode == 500
    ensures HandlerResponse(event, ctx, rt, cold).body == Failed(TypeError, cold, ctx.functionName, ctx.requestId)
  {
    RecordTags(event);
  }

  /** The cold-start flag is reported in the header and in the body alike. */
  lemma ColdStartReported(event: map<string, Json>, ctx: Context, rt: Runtime, cold: bool)
    requires !(Classify(event).Tagged? && Classify(event).tag == ApiGateway)
    ensures HandlerResponse(event, ctx, rt, cold).body.isColdStart == cold
    ensures Classify(event).Tagged? ==>
      HandlerResponse(event, ctx, rt, cold).headers["X-Cold-Start"] == ColdStartText(cold)
  {
  }

  /** One process of the function: it remembers whether it has run before. */
  class LambdaProcess {
    var initialized: bool

    constructor()
      ensures !initialized
    {
      initialized := false;
    }

    /** `lambda_handler(event, context)`: the first call in a process is the cold start. */
    method Handle(event: map<string, Json>, ctx: Context, rt: Runtime) returns (resp: Envelope)
      modifies this
      ensures initialized
      ensures resp == HandlerResponse(event, ctx, rt, !old(initialized))
    {
      var cold := !initialized;
      if cold {
        initialized := true;
      }
      var classified := Classify(event);
      match classified
      case Raises(e) =>
        resp := FailedEnvelope(e, ctx, rt, cold);
      case NoMatch =>
        resp := FailedEnvelope(TypeError, ctx, rt, cold);
      case Tagged(tag, payload) =>
        if tag == ApiGateway {
          return GatewayEnvelope(event, rt.parse);
        }
        var result: HandlerResult;
        if tag == S3 || tag == Sns || tag == Sqs {
          result := RecordResult(rt.recordHandler(tag, payload));
        } else if tag == EventBridge {
          result := EventBridgeSpec(event);
        } else if tag == Direct {
          var direct := HandleDirectInvocation(event, rt.services);
          result := DirectInvocation(direct);
        } else {
          result := UnknownSource(event);
        }
        resp := CompletedEnvelope(tag, result, ctx, rt, cold);
    }
  }

  /**
   * Two invocations of one fresh process: the first reports a cold start,
   * the second does not.
   */
  method TwoInvocations(event: map<string, Json>, ctx: Context, rt: Runtime)
    returns (first: Envelope, second: Envelope)
    requires Classify(event).Tagged? && Classify(event).tag != ApiGateway
    ensures "X-Cold-Start" in first.headers && first.headers["X-Cold-Start"] == "true"
    ensures "X-Cold-Start" in second.headers && second.headers["X-Cold-Start"] == "false"
    ensures first.body.Completed? && first.body.isColdStart
    ensures second.body.Completed? && !second.body.isColdStart
  {
    var process := new LambdaProcess();
    first := process.Handle(event, ctx, rt);
    second := process.Handle(event, ctx, rt);
    ColdStartReported(event, ctx, rt, true);
    ColdStartReported(event, ctx, rt, false);
  }
}
