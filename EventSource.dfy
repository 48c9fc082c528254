/**
 * Event-source identification of the complete Lambda example
 * (`identify_event_source`): an ordered, first-match-wins test on the
 * shape of the invocation event.
 */
module EventSource {
  import opened Wrappers
  import opened Json

  datatype SourceTag = S3 | Sns | Sqs | EventBridge | ApiGateway | Direct | Unknown

  /** The tag as the handler reports it (`X-Source-Type`, `source_type`). */
  function TagName(t: SourceTag): string
  {
    match t
    case S3 => "s3"
    case Sns => "sns"
    case Sqs => "sqs"
    case EventBridge => "eventbridge"
    case ApiGateway => "api_gateway"
    case Direct => "direct"
    case Unknown => "unknown"
  }

  /** Distinct tags are reported under distinct names. */
  lemma TagNameInjective(a: SourceTag, b: SourceTag)
    requires TagName(a) == TagName(b)
    ensures a == b
  {
  }

  predicate IsRecordSource(t: SourceTag)
  {
    t == S3 || t == Sns || t == Sqs
  }

  /**
   * What the classifier yields: a tag with its payload, nothing at all
   * (`NoMatch`: a `Records` event whose first record matches no known
   * source falls off the end of the function and returns `None`), or the
   * exception Python raises while looking at `Records[0]`.
   */
  datatype Classification =
    | Tagged(tag: SourceTag, payload: Json)
    | NoMatch
    | Raises(error: PyError)

  /** `event['Records'][0]` followed by `.get(...)`: only a dict has `.get`. */
  function FirstRecord(records: Json): (r: Result<map<string, Json>, PyError>)
    ensures r.Ok? <==> records.JArr? && records.items != [] && records.items[0].JObj?
    ensures r.Ok? ==> records.items[0] == JObj(r.value)
  {
    match records
    case JArr(items) =>
      if items == [] then Err(IndexError)
      else if items[0].JObj? then Ok(items[0].fields)
      else Err(AttributeError)
    case JStr(s) => if s == [] then Err(IndexError) else Err(AttributeError)
    case JObj(_) => Err(KeyError)
    case _ => Err(TypeError)
  }

  /** `record.get(key) == value`, where a missing key reads as `None`. */
  predicate FieldIs(record: map<string, Json>, key: string, value: string)
  {
    key in record && record[key] == JStr(value)
  }

  function ClassifyRecord(record: map<string, Json>): Classification
  {
    if FieldIs(record, "eventSource", "aws:s3") then Tagged(S3, JObj(record))
    else if FieldIs(record, "EventSource", "aws:sns") then Tagged(Sns, JObj(record))
    else if FieldIs(record, "eventSource", "aws:sqs") then Tagged(Sqs, JObj(record))
    else NoMatch
  }

  /** `identify_event_source(event)`. */
  function Classify(event: map<string, Json>): Classification
  {
    if "Records" in event then
      match FirstRecord(event["Records"])
      case Err(e) => Raises(e)
      case Ok(record) => ClassifyRecord(record)
    else if "source" in event && event["source"] == JStr("aws.events") then Tagged(EventBridge, JObj(event))
    else if "httpMethod" in event || "requestContext" in event then Tagged(ApiGateway, JObj(event))
    else if Truthy(GetOr(event, "action", JNull)) then Tagged(Direct, JObj(event))
    else Tagged(Unknown, JObj(event))
  }

  /**
   * `Records` always wins: an event carrying it is classified from its
   * first record only, whatever else it carries, and is never taken for
   * EventBridge, API Gateway, direct or unknown.
   */
  lemma RecordsWin(event: map<string, Json>)
    requires "Records" in event
    ensures Classify(event).Tagged? ==> IsRecordSource(Classify(event).tag)
    ensures Classify(event) == Classify(map["Records" := event["Records"]])
  {
  }

  /** Both the first record's source field and the tag order decide the record tags. */
  lemma RecordTags(event: map<string, Json>)
    requires "Records" in event && FirstRecord(event["Records"]).Ok?
    ensures var r := FirstRecord(event["Records"]).value;
      && (Classify(event) == Tagged(S3, JObj(r)) <==> FieldIs(r, "eventSource", "aws:s3"))
      && (Classify(event) == Tagged(Sns, JObj(r)) <==> FieldIs(r, "EventSource", "aws:sns") && !FieldIs(r, "eventSource", "aws:s3"))
      && (Classify(event) == Tagged(Sqs, JObj(r)) <==> FieldIs(r, "eventSource", "aws:sqs") && !FieldIs(r, "EventSource", "aws:sns"))
      && (Classify(event) == NoMatch <==>
            !FieldIs(r, "eventSource", "aws:s3") && !FieldIs(r, "EventSource", "aws:sns") && !FieldIs(r, "eventSource", "aws:sqs"))
  {
  }

  /** The order of the remaining tests, each one as an if-and-only-if. */
  lemma NonRecordTags(event: map<string, Json>)
    ensures Classify(event).Tagged? && Classify(event).tag == EventBridge <==>
      "Records" !in event && "source" in event && event["source"] == JStr("aws.events")
    ensures Classify(event).Tagged? && Classify(event).tag == ApiGateway <==>
      && "Records" !in event
      && !("source" in event && event["source"] == JStr("aws.events"))
      && ("httpMethod" in event || "requestContext" in event)
    ensures Classify(event).Tagged? && Classify(event).tag == Direct <==>
      && "Records" !in event
      && !("source" in event && event["source"] == JStr("aws.events"))
      && "httpMethod" !in event && "requestContext" !in event
      && Truthy(GetOr(event, "action", JNull))
    ensures Classify(event).Tagged? && Classify(event).tag == Unknown <==>
      && "Records" !in event
      && !("source" in event && event["source"] == JStr("aws.events"))
      && "httpMethod" !in event && "requestContext" !in event
      && !Truthy(GetOr(event, "action", JNull))
  {
  }

  /**
   * The payload: exactly `Records[0]` for the record sources, the whole
   * event for every other tag.
   */
  lemma Payload(event: map<string, Json>)
    requires Classify(event).Tagged?
    ensures IsRecordSource(Classify(event).tag) ==>
      "Records" in event && event["Records"].JArr? && |event["Records"].items| > 0 &&
      Classify(event).payload == event["Records"].items[0]
    ensures !IsRecordSource(Classify(event).tag) ==> Classify(event).payload == JObj(event)
  {
  }

  /** Only a `Records` event can fail to be classified. */
  lemma OnlyRecordsUnclassified(event: map<string, Json>)
    requires !Classify(event).Tagged?
    ensures "Records" in event
    ensures Classify(event).NoMatch? <==> FirstRecord(event["Records"]).Ok?
  {
  }
}
