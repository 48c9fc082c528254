/**
 * What each entry point of the S3 file processor does to the object
 * store and what it answers, as functions of the store's state before
 * the call: the S3-event path, the six manual actions and the default
 * processing run, and the top-level dispatch that turns an escaping
 * exception into a 500 response. The handlers in `S3Handlers` are
 * proved to follow these functions; the lemmas here state what the
 * functions guarantee.
 */
module S3Processor {
  import opened Wrappers
  import opened Json
  import opened PyText
  import opened ObjectStore
  import opened FileRules

  /** The module-level settings, read from the environment once. */
  datatype Config = Config(
    sourceBucket: string,
    destinationBucket: string,
    deploymentBucket: string,
    processingPrefix: string,
    environment: string)

  function ConfigOf(env: map<string, string>): Config
  {
    Config(
      EnvGet(env, "SOURCE_BUCKET", "${source_bucket}"),
      EnvGet(env, "DESTINATION_BUCKET", "${destination_bucket}"),
      EnvGet(env, "DEPLOYMENT_BUCKET", ""),
      EnvGet(env, "PROCESSING_PREFIX", "incoming/"),
      EnvGet(env, "ENVIRONMENT", "dev"))
  }

  /** The fields of the Lambda context the handlers report. */
  datatype Context = Context(functionName: string, functionVersion: string, requestId: string)

  /** Why a step raises. */
  datatype Failure =
    | PythonError(error: PyError)
    | ServiceError(fault: Fault)
      /**
       * The client rejects, before sending, a bucket or key that is not a
       * non-empty string and user metadata that is not US-ASCII.
       */
    | ParamValidation

  /** The text of the error a failed `head_bucket` raises. */
  const HeadBucketNotFound: string := "An error occurred (404) when calling the HeadBucket operation: Not Found"

  /** What one file operation reports. */
  datatype FileResult =
    | Processed(original: Location, processed: Location, fileSize: nat, contentType: string, lastModified: int)
    | Deletion(deletedBucket: Json, deletedKey: string, cleanupPerformed: bool, cleanupTarget: Location)

  datatype BatchError = BatchError(fileKey: Json, failure: Failure)

  datatype ConfiguredBuckets = ConfiguredBuckets(source: string, destination: string, deployment: string)

  datatype Body =
    | S3EventBody(results: seq<FileResult>, errors: seq<Failure>, requestId: string, functionName: string)
    | InvalidAction(action: string, availableActions: seq<string>, requestId: string)
    | DefaultBody(
        environment: string, functionName: string, functionVersion: string, requestId: string,
        sourceBucket: string, destinationBucket: string, objectsFound: nat, results: seq<FileResult>)
    | BucketsBody(buckets: set<string>, configured: ConfiguredBuckets, requestId: string)
    | ObjectsBody(bucket: string, prefix: string, objects: seq<Listed>, isTruncated: bool, requestId: string)
    | BatchBody(totalFiles: nat, results: seq<FileResult>, failures: seq<BatchError>, requestId: string)
    | CleanupBody(dryRun: Json, daysOld: Json, objectsFound: nat, objectsDeleted: nat, preview: seq<string>, requestId: string)
    | CopyBody(source: Location, destination: Location, requestId: string)
    | MissingParameter(requestId: string)
    | HealthBody(
        overallHealthy: bool, functionName: string, functionVersion: string, environment: string,
        details: map<string, string>, configured: ConfiguredBuckets, requestId: string)
    | InternalError(failure: Failure, requestId: string, functionName: string, functionVersion: string)

  datatype Response = Response(statusCode: int, body: Body)

  /** A step that may raise, with the store as the step leaves it (a raise can follow earlier writes). */
  datatype Step<T> = Step(result: Result<T, Failure>, state: StoreState)

  /** A step that cannot raise. */
  datatype Out<T> = Out(value: T, state: StoreState)

  function Configured(cfg: Config): ConfiguredBuckets
  {
    ConfiguredBuckets(cfg.sourceBucket, cfg.destinationBucket, cfg.deploymentBucket)
  }

  /** A bucket or key the client accepts: a non-empty string. */
  predicate IsParam(j: Json)
  {
    j.JStr? && j.s != []
  }

  // ---------------------------------------------------------------------
  // process_uploaded_file and handle_file_deletion

  /**
   * Read the object, upper-case it when it is text, and write it to the
   * destination bucket under its destination key. Only the final write
   * changes the store.
   */
  function ProcessFile(st: StoreState, cfg: Config, digest: seq<byte> -> string, bucket: Json, key: Json, now: int): Step<FileResult>
  {
    if !IsParam(bucket) || !IsParam(key) then Step(Err(ParamValidation), st)
    else
      var src := Location(bucket.s, key.s);
      match Lookup(st, src)
      case Err(f) => Step(Err(ServiceError(f)), st)
      case Ok(o) =>
        var contentType := if o.contentType.Some? then o.contentType.value else "unknown";
        var body := Transform(o.content, contentType, key.s);
        var dst := Location(cfg.destinationBucket, DestinationKey(key.s, cfg.processingPrefix));
        if !ProcessedMetadataAscii(cfg, bucket.s, key.s) then Step(Err(ParamValidation), st)
        else
        match Put(st, dst, S3Object(body, Some(contentType), now, Quoted(digest(body))))
        case Err(f) => Step(Err(ServiceError(f)), st)
        case Ok(next) => Step(Ok(Processed(src, dst, |o.content|, contentType, o.lastModified)), next)
  }

  /**
   * The metadata `put_object` attaches names the source bucket and key and
   * the environment; the client sends it only when all of it is US-ASCII.
   */
  predicate ProcessedMetadataAscii(cfg: Config, bucket: string, key: string)
  {
    IsAscii(bucket) && IsAscii(key) && IsAscii(cfg.environment)
  }

  /** The object a successful `ProcessFile` writes. */
  function ProcessedObject(o: S3Object, key: string, digest: seq<byte> -> string, now: int): S3Object
  {
    var contentType := if o.contentType.Some? then o.contentType.value else "unknown";
    var body := Transform(o.content, contentType, key);
    S3Object(body, Some(contentType), now, Quoted(digest(body)))
  }

  /**
   * Processing succeeds exactly when both names are usable, the source
   * object can be read, the metadata is US-ASCII and the destination
   * bucket exists. It then writes
   * the transformed content under the destination key and leaves every
   * other object as it was; a failure changes nothing.
   */
  lemma ProcessFileSpec(st: StoreState, cfg: Config, digest: seq<byte> -> string, bucket: Json, key: Json, now: int)
    requires st.Valid()
    ensures var s := ProcessFile(st, cfg, digest, bucket, key, now);
      && (s.result.Ok? <==>
            IsParam(bucket) && IsParam(key) && Lookup(st, Location(bucket.s, key.s)).Ok? &&
            ProcessedMetadataAscii(cfg, bucket.s, key.s) && cfg.destinationBucket in st.buckets)
      && ((IsParam(bucket) && IsParam(key) && Lookup(st, Location(bucket.s, key.s)).Ok? &&
           !ProcessedMetadataAscii(cfg, bucket.s, key.s)) ==> s.result == Err(ParamValidation))
      && (s.result.Err? ==> s.state == st)
      && s.state.Valid()
      && s.state.buckets == st.buckets
    ensures var s := ProcessFile(st, cfg, digest, bucket, key, now);
      s.result.Ok? ==>
        var dst := Location(cfg.destinationBucket, DestinationKey(key.s, cfg.processingPrefix));
        && s.result.value == Processed(Location(bucket.s, key.s), dst, |st.objects[Location(bucket.s, key.s)].content|,
             ProcessedObject(st.objects[Location(bucket.s, key.s)], key.s, digest, now).contentType.value,
             st.objects[Location(bucket.s, key.s)].lastModified)
        && Lookup(s.state, dst) == Ok(ProcessedObject(st.objects[Location(bucket.s, key.s)], key.s, digest, now))
        && (forall other :: other != dst ==> Lookup(s.state, other) == Lookup(st, other))
  {
    if IsParam(bucket) && IsParam(key) && Lookup(st, Location(bucket.s, key.s)).Ok? && ProcessedMetadataAscii(cfg, bucket.s, key.s) {
      var o := st.objects[Location(bucket.s, key.s)];
      var dst := Location(cfg.destinationBucket, DestinationKey(key.s, cfg.processingPrefix));
      PutSpec(st, dst, ProcessedObject(o, key.s, digest, now));
    }
  }

  /** Delete the processed copy of a removed object; a failed delete is reported, not raised. */
  function HandleDeletion(st: StoreState, cfg: Config, bucket: Json, key: string): Out<FileResult>
  {
    var target := Location(cfg.destinationBucket, DestinationKey(key, cfg.processingPrefix));
    match Delete(st, target)
    case Ok(next) => Out(Deletion(bucket, key, true, target), next)
    case Err(_) => Out(Deletion(bucket, key, false, target), st)
  }

  /**
   * The clean-up is performed exactly when the destination bucket exists;
   * it removes the processed copy and nothing else.
   */
  lemma HandleDeletionSpec(st: StoreState, cfg: Config, bucket: Json, key: string)
    requires st.Valid()
    ensures var d := HandleDeletion(st, cfg, bucket, key);
      && (d.value.cleanupPerformed <==> cfg.destinationBucket in st.buckets)
      && d.value.cleanupTarget == Location(cfg.destinationBucket, DestinationKey(key, cfg.processingPrefix))
      && d.state.Valid()
      && d.state.buckets == st.buckets
      && (!d.value.cleanupPerformed ==> d.state == st)
      && (d.value.cleanupPerformed ==> d.value.cleanupTarget !in d.state.objects)
      && (forall other :: other != d.value.cleanupTarget ==> Lookup(d.state, other) == Lookup(st, other))
  {
    DeleteSpec(st, Location(cfg.destinationBucket, DestinationKey(key, cfg.processingPrefix)));
  }

  // ---------------------------------------------------------------------
  // handle_s3_event

  /** The three fields the handler reads from one S3 event record. */
  datatype S3Record = S3Record(bucket: Json, key: string, eventName: string)

  /** `value[key]`: only a dict can be indexed by a string; a missing key raises `KeyError`. */
  function Index(j: Json, key: string): (r: Result<Json, PyError>)
    ensures r.Ok? <==> j.JObj? && key in j.fields
    ensures r.Err? ==> r.error == (if j.JObj? then KeyError else TypeError)
  {
    match j
    case JObj(fields) => if key in fields then Ok(fields[key]) else Err(KeyError)
    case _ => Err(TypeError)
  }

  function Index2(j: Json, a: string, b: string): Result<Json, PyError>
  {
    match Index(j, a)
    case Err(e) => Err(e)
    case Ok(x) => Index(x, b)
  }

  /**
   * `record['s3']['bucket']['name']`, `unquote_plus(record['s3']['object']['key'])`
   * and `record['eventName']`, in that order; `unquote_plus` and
   * `startswith` raise `AttributeError` on anything but a string.
   */
  function ParseRecord(record: Json): Result<S3Record, PyError>
  {
    match Index(record, "s3")
    case Err(e) => Err(e)
    case Ok(s3) =>
      match Index2(s3, "bucket", "name")
      case Err(e) => Err(e)
      case Ok(bucket) =>
        match Index2(s3, "object", "key")
        case Err(e) => Err(e)
        case Ok(key) =>
          if !key.JStr? then Err(AttributeError)
          else
            match Index(record, "eventName")
            case Err(e) => Err(e)
            case Ok(name) =>
              if !name.JStr? then Err(AttributeError)
              else Ok(S3Record(bucket, UnquotePlus(key.s), name.s))
  }

  /** A record as S3 sends it, with the key URL-encoded. */
  function EventRecord(bucket: string, encodedKey: string, eventName: string): Json
  {
    JObj(map[
      "eventName" := JStr(eventName),
      "s3" := JObj(map[
        "bucket" := JObj(map["name" := JStr(bucket)]),
        "object" := JObj(map["key" := JStr(encodedKey)])])])
  }

  /**
   * A record as S3 sends it parses back to its bucket, its decoded key
   * and its event name; a record that is not a dict raises `TypeError`
   * and one without `s3` raises `KeyError`.
   */
  lemma ParseRecordSpec(bucket: string, key: string, eventName: string, record: Json)
    requires IsAscii(key)
    ensures ParseRecord(EventRecord(bucket, QuotePlus(key), eventName)) == Ok(S3Record(JStr(bucket), key, eventName))
    ensures !record.JObj? ==> ParseRecord(record) == Err(TypeError)
    ensures record.JObj? && "s3" !in record.fields ==> ParseRecord(record) == Err(KeyError)
  {
    UnquoteQuotePlus(key);
  }

  datatype RecordOutcome = Handled(file: FileResult) | Ignored | RecordFailed(failure: Failure)

  /** One iteration of the record loop: created objects are processed, removed ones cleaned up. */
  function RecordStep(st: StoreState, cfg: Config, digest: seq<byte> -> string, record: Json, now: int): Out<RecordOutcome>
  {
    match ParseRecord(record)
    case Err(e) => Out(RecordFailed(PythonError(e)), st)
    case Ok(r) =>
      if StartsWith(r.eventName, "ObjectCreated") then
        var s := ProcessFile(st, cfg, digest, r.bucket, JStr(r.key), now);
        Out(if s.result.Ok? then Handled(s.result.value) else RecordFailed(s.result.error), s.state)
      else if StartsWith(r.eventName, "ObjectRemoved") then
        var d := HandleDeletion(st, cfg, r.bucket, r.key);
        Out(Handled(d.value), d.state)
      else Out(Ignored, st)
  }

  datatype EventTally = EventTally(results: seq<FileResult>, errors: seq<Failure>)

  function Count(t: EventTally, o: RecordOutcome): EventTally
  {
    match o
    case Handled(f) => EventTally(t.results + [f], t.errors)
    case Ignored => t
    case RecordFailed(e) => EventTally(t.results, t.errors + [e])
  }

  /** The record loop, record by record, each seeing the store the previous ones left. */
  function RunRecords(st: StoreState, cfg: Config, digest: seq<byte> -> string, records: seq<Json>, now: int): Out<EventTally>
  {
    if records == [] then Out(EventTally([], []), st)
    else
      var before := RunRecords(st, cfg, digest, records[..|records| - 1], now);
      var step := RecordStep(before.state, cfg, digest, records[|records| - 1], now);
      Out(Count(before.value, step.value), step.state)
  }

  /** A record the loop passes over: it parses, and its event is neither a creation nor a removal. */
  predicate Skipped(record: Json)
  {
    && ParseRecord(record).Ok?
    && !StartsWith(ParseRecord(record).value.eventName, "ObjectCreated")
    && !StartsWith(ParseRecord(record).value.eventName, "ObjectRemoved")
  }

  /** How many records are passed over; this does not depend on the store. */
  function SkippedCount(records: seq<Json>): (n: nat)
    ensures n <= |records|
  {
    if records == [] then 0
    else SkippedCount(records[..|records| - 1]) + (if Skipped(records[|records| - 1]) then 1 else 0)
  }

  /** How many records raise while their fields are read. */
  function ParseFailures(records: seq<Json>): (n: nat)
    ensures n <= |records|
  {
    if records == [] then 0
    else ParseFailures(records[..|records| - 1]) + (if ParseRecord(records[|records| - 1]).Err? then 1 else 0)
  }

  /**
   * The records after a prefix are handled exactly as if they came alone,
   * starting from the store the prefix left: a failing record does not
   * stop the ones after it, and the tallies are concatenated in order.
   */
  lemma {:induction false} RunRecordsAppend(st: StoreState, cfg: Config, digest: seq<byte> -> string,
                                            first: seq<Json>, rest: seq<Json>, now: int)
    ensures var a := RunRecords(st, cfg, digest, first, now);
      var b := RunRecords(a.state, cfg, digest, rest, now);
      RunRecords(st, cfg, digest, first + rest, now) ==
        Out(EventTally(a.value.results + b.value.results, a.value.errors + b.value.errors), b.state)
    decreases |rest|
  {
    if rest == [] {
      assert first + rest == first;
      var a := RunRecords(st, cfg, digest, first, now);
      assert a.value.results + [] == a.value.results && a.value.errors + [] == a.value.errors;
    } else {
      var init := rest[..|rest| - 1];
      var last := rest[|rest| - 1];
      assert (first + rest)[..|first + rest| - 1] == first + init;
      assert (first + rest)[|first + rest| - 1] == last;
      RunRecordsAppend(st, cfg, digest, first, init, now);
      var a := RunRecords(st, cfg, digest, first, now);
      var b' := RunRecords(a.state, cfg, digest, init, now);
      var step := RecordStep(b'.state, cfg, digest, last, now);
      var t := Count(b'.value, step.value);
      assert RunRecords(a.state, cfg, digest, rest, now) == Out(t, step.state);
      CountAfter(a.value, b'.value, step.value);
    }
  }

  /** Counting an outcome after two tallies is counting it after the second. */
  lemma CountAfter(a: EventTally, b: EventTally, o: RecordOutcome)
    ensures Count(EventTally(a.results + b.results, a.errors + b.errors), o) ==
      EventTally(a.results + Count(b, o).results, a.errors + Count(b, o).errors)
  {
    match o
    case Handled(f) => assert a.results + b.results + [f] == a.results + (b.results + [f]);
    case Ignored =>
    case RecordFailed(e) => assert a.errors + b.errors + [e] == a.errors + (b.errors + [e]);
  }

  /**
   * A record is ignored exactly when it parses and its event is neither a
   * creation nor a removal, and then nothing changes; a record that does
   * not parse fails with the exception the parse raised.
   */
  lemma RecordStepSpec(st: StoreState, cfg: Config, digest: seq<byte> -> string, record: Json, now: int)
    requires st.Valid()
    ensures var o := RecordStep(st, cfg, digest, record, now);
      && o.state.Valid()
      && o.state.buckets == st.buckets
      && (o.value.Ignored? ==> o.state == st)
      && (o.value.Ignored? <==> Skipped(record))
      && (ParseRecord(record).Err? ==> o.value == RecordFailed(PythonError(ParseRecord(record).error)))
  {
    match ParseRecord(record)
    case Err(_) =>
    case Ok(r) =>
      if StartsWith(r.eventName, "ObjectCreated") {
        ProcessFileSpec(st, cfg, digest, r.bucket, JStr(r.key), now);
      } else if StartsWith(r.eventName, "ObjectRemoved") {
        HandleDeletionSpec(st, cfg, r.bucket, r.key);
      }
  }

  /**
   * Every record yields at most one result or one error, the store stays
   * consistent and no bucket appears or disappears.
   */
  lemma {:induction false} RunRecordsSpec(st: StoreState, cfg: Config, digest: seq<byte> -> string, records: seq<Json>, now: int)
    requires st.Valid()
    ensures var run := RunRecords(st, cfg, digest, records, now);
      && |run.value.results| + |run.value.errors| + SkippedCount(records) == |records|
      && |run.value.errors| >= ParseFailures(records)
      && run.state.Valid()
      && run.state.buckets == st.buckets
  {
    if records != [] {
      var init := records[..|records| - 1];
      RunRecordsSpec(st, cfg, digest, init, now);
      RecordStepSpec(RunRecords(st, cfg, digest, init, now).state, cfg, digest, records[|records| - 1], now);
    }
  }

  /**
   * `handle_s3_event`: a list of records is processed in order; iterating
   * a string or a dict yields strings, each of which raises `TypeError`
   * when indexed; anything else cannot be iterated and raises.
   */
  function S3Event(st: StoreState, cfg: Config, ctx: Context, digest: seq<byte> -> string, records: Json, now: int): Step<Response>
  {
    match records
    case JArr(items) =>
      var run := RunRecords(st, cfg, digest, items, now);
      Step(Ok(EventResponse(run.value, ctx)), run.state)
    case JStr(s) => Step(Ok(EventResponse(EventTally([], seq(|s|, _ => PythonError(TypeError))), ctx)), st)
    case JObj(fields) => Step(Ok(EventResponse(EventTally([], seq(|fields|, _ => PythonError(TypeError))), ctx)), st)
    case _ => Step(Err(PythonError(TypeError)), st)
  }

  function EventResponse(t: EventTally, ctx: Context): Response
  {
    Response(if t.errors == [] then 200 else 207, S3EventBody(t.results, t.errors, ctx.requestId, ctx.functionName))
  }

  /**
   * The S3-event path raises exactly when `Records` cannot be iterated;
   * otherwise it answers 200 when no record failed and 207 (partial
   * success) when one did, and the counts never exceed the records.
   */
  lemma S3EventSpec(st: StoreState, cfg: Config, ctx: Context, digest: seq<byte> -> string, records: Json, now: int)
    requires st.Valid()
    ensures var s := S3Event(st, cfg, ctx, digest, records, now);
      && (s.result.Err? <==> records.JNull? || records.JBool? || records.JNum?)
      && (s.result.Ok? ==>
            && s.result.value.body.S3EventBody?
            && (s.result.value.statusCode == 200 <==> s.result.value.body.errors == [])
            && (s.result.value.statusCode == 207 <==> s.result.value.body.errors != []))
      && (records.JArr? ==>
            && |s.result.value.body.results| + |s.result.value.body.errors| + SkippedCount(records.items) == |records.items|
            && |s.result.value.body.errors| >= ParseFailures(records.items))
      && (records.JStr? ==> |s.result.value.body.errors| == |records.s| && s.state == st)
      && s.state.Valid()
      && s.state.buckets == st.buckets
  {
    if records.JArr? {
      RunRecordsSpec(st, cfg, digest, records.items, now);
    }
  }

  // ---------------------------------------------------------------------
  // Batch and default processing

  datatype FileTally = FileTally(results: seq<FileResult>, errors: seq<BatchError>)

  /** The file loop of `process_batch_files` (and, without its errors, of the default run). */
  function RunFiles(st: StoreState, cfg: Config, digest: seq<byte> -> string, bucket: Json, keys: seq<Json>, now: int): Out<FileTally>
  {
    if keys == [] then Out(FileTally([], []), st)
    else
      var before := RunFiles(st, cfg, digest, bucket, keys[..|keys| - 1], now);
      var key := keys[|keys| - 1];
      var s := ProcessFile(before.state, cfg, digest, bucket, key, now);
      var t := before.value;
      Out(if s.result.Ok? then FileTally(t.results + [s.result.value], t.errors)
          else FileTally(t.results, t.errors + [BatchError(key, s.result.error)]),
          s.state)
  }

  /**
   * Every key yields exactly one result or one error, the store stays
   * consistent, and with an unusable bucket name nothing is written and
   * every key fails.
   */
  lemma {:induction false} RunFilesSpec(st: StoreState, cfg: Config, digest: seq<byte> -> string, bucket: Json, keys: seq<Json>, now: int)
    requires st.Valid()
    ensures var run := RunFiles(st, cfg, digest, bucket, keys, now);
      && |run.value.results| + |run.value.errors| == |keys|
      && run.state.Valid()
      && run.state.buckets == st.buckets
      && (!IsParam(bucket) ==> run.state == st && run.value.results == [])
  {
    if keys != [] {
      var init := keys[..|keys| - 1];
      RunFilesSpec(st, cfg, digest, bucket, init, now);
      ProcessFileSpec(RunFiles(st, cfg, digest, bucket, init, now).state, cfg, digest, bucket, keys[|keys| - 1], now);
    }
  }

  function KeysOf(contents: seq<Listed>): (r: seq<Json>)
    ensures |r| == |contents|
    ensures forall i :: 0 <= i < |r| ==> r[i] == JStr(contents[i].key)
  {
    seq(|contents|, i requires 0 <= i < |contents| => JStr(contents[i].key))
  }

  /** The batch size of a listing-driven batch. */
  const BatchListLimit: int := 50

  /**
   * The keys the batch iterates: the listing of the processing prefix
   * when `file_keys` is falsy; otherwise the list's items or the
   * string's characters. A dict is refused (its key order is not part of
   * the model); a number or `True` cannot be iterated.
   */
  function BatchKeys(st: StoreState, cfg: Config, event: map<string, Json>, bucket: Json): Result<seq<Json>, Failure>
  {
    var fileKeys := GetOr(event, "file_keys", JArr([]));
    if !Truthy(fileKeys) then
      if !IsParam(bucket) then Err(ParamValidation)
      else
        match List(st, bucket.s, cfg.processingPrefix, BatchListLimit)
        case Err(f) => Err(ServiceError(f))
        case Ok(l) => Ok(KeysOf(l.contents))
    else
      match fileKeys
      case JArr(items) => Ok(items)
      case JStr(s) => Ok(seq(|s|, i requires 0 <= i < |s| => JStr([s[i]])))
      case _ => Err(PythonError(TypeError))
  }

  /** `process_batch_files`. */
  function ProcessBatch(st: StoreState, cfg: Config, ctx: Context, digest: seq<byte> -> string, event: map<string, Json>, now: int): Step<Response>
  {
    var bucket := GetOr(event, "bucket", JStr(cfg.sourceBucket));
    match BatchKeys(st, cfg, event, bucket)
    case Err(f) => Step(Err(f), st)
    case Ok(keys) =>
      var run := RunFiles(st, cfg, digest, bucket, keys, now);
      Step(Ok(Response(if run.value.errors == [] then 200 else 207,
                       BatchBody(|keys|, run.value.results, run.value.errors, ctx.requestId))), run.state)
  }

  /**
   * A batch reports every key it was given as processed or failed, and
   * answers 207 exactly when one failed; a listing-driven batch takes at
   * most 50 keys.
   */
  lemma ProcessBatchSpec(st: StoreState, cfg: Config, ctx: Context, digest: seq<byte> -> string, event: map<string, Json>, now: int)
    requires st.Valid()
    ensures var s := ProcessBatch(st, cfg, ctx, digest, event, now);
      && s.state.Valid()
      && s.state.buckets == st.buckets
      && (s.result.Ok? ==>
            var b := s.result.value.body;
            && b.BatchBody?
            && b.totalFiles == |b.results| + |b.failures|
            && (s.result.value.statusCode == 207 <==> b.failures != [])
            && (s.result.value.statusCode == 200 <==> b.failures == [])
            && (!Truthy(GetOr(event, "file_keys", JArr([]))) ==> b.totalFiles <= BatchListLimit))
      && (s.result.Err? ==> s.state == st)
  {
    var bucket := GetOr(event, "bucket", JStr(cfg.sourceBucket));
    var keys := BatchKeys(st, cfg, event, bucket);
    if keys.Ok? {
      RunFilesSpec(st, cfg, digest, bucket, keys.value, now);
      if !Truthy(GetOr(event, "file_keys", JArr([]))) {
        ListingBounds(st, bucket.s, cfg.processingPrefix, BatchListLimit);
      }
    }
  }

  /** How many objects the default run lists. */
  const DefaultListLimit: int := 10

  /** `handle_default_processing`: process the first ten pending files; failures are dropped. */
  function DefaultProcessing(st: StoreState, cfg: Config, ctx: Context, digest: seq<byte> -> string, now: int): Step<Response>
  {
    match List(st, cfg.sourceBucket, cfg.processingPrefix, DefaultListLimit)
    case Err(f) => Step(Err(ServiceError(f)), st)
    case Ok(l) =>
      var run := RunFiles(st, cfg, digest, JStr(cfg.sourceBucket), KeysOf(l.contents), now);
      Step(Ok(Response(200, DefaultBody(cfg.environment, ctx.functionName, ctx.functionVersion, ctx.requestId,
                                        cfg.sourceBucket, cfg.destinationBucket, |l.contents|, run.value.results))),
           run.state)
  }

  /**
   * The default run raises exactly when the source bucket is missing;
   * otherwise it answers 200 whatever failed, having found at most ten
   * objects and processed at most those.
   */
  lemma DefaultProcessingSpec(st: StoreState, cfg: Config, ctx: Context, digest: seq<byte> -> string, now: int)
    requires st.Valid()
    ensures var s := DefaultProcessing(st, cfg, ctx, digest, now);
      && (s.result.Err? <==> cfg.sourceBucket !in st.buckets)
      && (s.result.Err? ==> s.state == st)
      && (s.result.Ok? ==>
            && s.result.value.statusCode == 200
            && s.result.value.body.DefaultBody?
            && |s.result.value.body.results| <= s.result.value.body.objectsFound <= DefaultListLimit)
      && s.state.Valid()
      && s.state.buckets == st.buckets
  {
    ListingFailure(st, cfg.sourceBucket, cfg.processingPrefix, DefaultListLimit);
    var l := List(st, cfg.sourceBucket, cfg.processingPrefix, DefaultListLimit);
    if l.Ok? {
      ListingBounds(st, cfg.sourceBucket, cfg.processingPrefix, DefaultListLimit);
      RunFilesSpec(st, cfg, digest, JStr(cfg.sourceBucket), KeysOf(l.value.contents), now);
    }
  }

  // ---------------------------------------------------------------------
  // list_all_buckets and list_bucket_objects

  function ListBucketsResponse(st: StoreState, cfg: Config, ctx: Context): Response
  {
    Response(200, BucketsBody(st.buckets, Configured(cfg), ctx.requestId))
  }

  /** The listed entries with the quotes taken off each ETag. */
  function StripETags(contents: seq<Listed>): (r: seq<Listed>)
    ensures |r| == |contents|
    ensures forall i :: 0 <= i < |r| ==> r[i] == contents[i].(etag := StripETag(contents[i].etag))
  {
    seq(|contents|, i requires 0 <= i < |contents| => contents[i].(etag := StripETag(contents[i].etag)))
  }

  /** `list_bucket_objects`. */
  function ListObjects(st: StoreState, cfg: Config, ctx: Context, event: map<string, Json>): Result<Response, Failure>
  {
    match ClampMaxKeys(event)
    case Err(e) => Err(PythonError(e))
    case Ok(maxKeys) =>
      var bucket := GetOr(event, "bucket", JStr(cfg.sourceBucket));
      var prefix := GetOr(event, "prefix", JStr(""));
      if !IsParam(bucket) || !prefix.JStr? then Err(ParamValidation)
      else
        match List(st, bucket.s, prefix.s, maxKeys)
        case Err(f) => Err(ServiceError(f))
        case Ok(l) => Ok(Response(200, ObjectsBody(bucket.s, prefix.s, StripETags(l.contents), l.isTruncated, ctx.requestId)))
  }

  /**
   * A listing answers at most 100 objects (and no more than `max_keys`),
   * every one under the prefix, and an object stored with a quoted
   * digest as its ETag is listed with the bare digest.
   */
  lemma ListObjectsSpec(st: StoreState, cfg: Config, ctx: Context, event: map<string, Json>)
    requires ListObjects(st, cfg, ctx, event).Ok?
    ensures var b := ListObjects(st, cfg, ctx, event).value.body;
      && b.ObjectsBody?
      && |b.objects| <= ClampMaxKeys(event).value <= MaxListKeys
      && (forall i :: 0 <= i < |b.objects| ==> StartsWith(b.objects[i].key, b.prefix))
      && (forall i, d :: 0 <= i < |b.objects| && List(st, b.bucket, b.prefix, ClampMaxKeys(event).value).value.contents[i].etag == Quoted(d) && '"' !in d
            ==> b.objects[i].etag == d)
  {
    var maxKeys := ClampMaxKeys(event).value;
    ClampMaxKeysSpec(event);
    var b := ListObjects(st, cfg, ctx, event).value.body;
    ListingBounds(st, b.bucket, b.prefix, maxKeys);
    forall i, d | 0 <= i < |b.objects| && List(st, b.bucket, b.prefix, maxKeys).value.contents[i].etag == Quoted(d) && '"' !in d
      ensures b.objects[i].etag == d
    {
      StripQuotedETag(d);
    }
  }

  // ---------------------------------------------------------------------
  // cleanup_processed_files

  /** The `delete_objects` calls, one batch after another; a failing call stops the run. */
  function DeleteBatches(st: StoreState, bucket: string, batches: seq<seq<string>>): Step<nat>
    decreases |batches|, 1
  {
    if batches == [] then Step(Ok(0), st)
    else DeleteBatch(st, bucket, batches[0], batches[1..])
  }

  /** One `delete_objects` call, then the rest. */
  function DeleteBatch(st: StoreState, bucket: string, batch: seq<string>, rest: seq<seq<string>>): Step<nat>
    decreases |rest| + 1, 0
  {
    match DeleteMany(st, bucket, batch)
    case Err(f) => Step(Err(ServiceError(f)), st)
    case Ok(next) => After(|batch|, DeleteBatches(next, bucket, rest))
  }

  /** The rest of a run of deletions, after `count` keys were already deleted. */
  function After(count: nat, d: Step<nat>): Step<nat>
  {
    Step(if d.result.Ok? then Ok(count + d.result.value) else d.result, d.state)
  }

  /**
   * Batches of 1 to 1000 keys of an existing bucket all succeed, count
   * every key, and remove exactly those keys of that bucket.
   */
  lemma {:induction false} DeleteBatchesSpec(st: StoreState, bucket: string, batches: seq<seq<string>>)
    requires st.Valid() && bucket in st.buckets
    requires forall b :: b in batches ==> 0 < |b| <= MaxDeleteKeys
    ensures var d := DeleteBatches(st, bucket, batches);
      && d.result == Ok(|Flatten(batches)|)
      && d.state.Valid()
      && d.state.buckets == st.buckets
      && (forall l :: l in d.state.objects <==> l in st.objects && !(l.bucket == bucket && l.key in Flatten(batches)))
      && (forall l :: l in d.state.objects ==> d.state.objects[l] == st.objects[l])
    decreases |batches|
  {
    if batches != [] {
      assert batches[0] in batches;
      DeleteManySpec(st, bucket, batches[0]);
      var next := DeleteMany(st, bucket, batches[0]).value;
      assert forall b :: b in batches[1..] ==> b in batches;
      DeleteBatchesSpec(next, bucket, batches[1..]);
      assert Flatten(batches) == batches[0] + Flatten(batches[1..]);
    }
  }

  /** What the sweep found and what it deleted. */
  datatype Sweep = Sweep(found: seq<string>, deleted: nat)

  /** The listing, the age test and (unless it is a dry run) the deletions. */
  function Clean(st: StoreState, cfg: Config, event: map<string, Json>, now: int): Step<Sweep>
  {
    match List(st, cfg.destinationBucket, ProcessedPrefix, DefaultMaxKeys)
    case Err(f) => Step(Err(ServiceError(f)), st)
    case Ok(l) =>
      match DaysOld(event)
      case Err(e) => Step(Err(PythonError(e)), st)
      case Ok(days) =>
        var found := Candidates(l.contents, Cutoff(now, days));
        if !Truthy(GetOr(event, "dry_run", JBool(true))) && found != [] then
          var d := DeleteBatches(st, cfg.destinationBucket, Batches(found, MaxDeleteKeys));
          Step(if d.result.Ok? then Ok(Sweep(found, d.result.value)) else Err(d.result.error), d.state)
        else Step(Ok(Sweep(found, 0)), st)
  }

  /** `cleanup_processed_files`. */
  function Cleanup(st: StoreState, cfg: Config, ctx: Context, event: map<string, Json>, now: int): Step<Response>
  {
    var dryRun := GetOr(event, "dry_run", JBool(true));
    var c := Clean(st, cfg, event, now);
    match c.result
    case Err(f) => Step(Err(f), c.state)
    case Ok(sweep) =>
      Step(Ok(Response(200, CleanupBody(dryRun, GetOr(event, "days_old", JNum(7)), |sweep.found|,
                                        if Truthy(dryRun) then 0 else sweep.deleted, Preview(sweep.found), ctx.requestId))),
           c.state)
  }

  /** The candidates of a listing are stored keys of the listed bucket. */
  lemma ListedKeysStored(st: StoreState, bucket: string, prefix: string, maxKeys: int, cutoff: int)
    requires List(st, bucket, prefix, maxKeys).Ok?
    ensures forall k :: k in Candidates(List(st, bucket, prefix, maxKeys).value.contents, cutoff) ==>
      Location(bucket, k) in st.objects
  {
    var m := Matching(st, st.order, bucket, prefix);
    var shown := if maxKeys < |m| then m[..maxKeys] else m;
    var contents := List(st, bucket, prefix, maxKeys).value.contents;
    CandidatesSpec(contents, cutoff);
    forall k | k in Candidates(contents, cutoff) ensures Location(bucket, k) in st.objects {
      var i :| 0 <= i < |contents| && contents[i].key == k && contents[i].lastModified < cutoff;
      assert shown[i] in m;
      assert shown[i] == Location(bucket, k);
    }
  }

  /**
   * A dry run (the default) changes nothing; a real run deletes every
   * candidate it found and nothing else; the sweep looks at one listing,
   * so it finds at most 1000 objects and needs at most one delete call.
   */
  lemma CleanSpec(st: StoreState, cfg: Config, event: map<string, Json>, now: int)
    requires st.Valid()
    ensures var c := Clean(st, cfg, event, now);
      && (c.result.Err? ==> c.state == st)
      && (c.result.Ok? ==> |c.result.value.found| <= MaxDeleteKeys)
      && (c.result.Ok? ==>
            && List(st, cfg.destinationBucket, ProcessedPrefix, DefaultMaxKeys).Ok?
            && DaysOld(event).Ok?
            && c.result.value.found ==
                 Candidates(List(st, cfg.destinationBucket, ProcessedPrefix, DefaultMaxKeys).value.contents, Cutoff(now, DaysOld(event).value)))
      && (c.result.Ok? && Truthy(GetOr(event, "dry_run", JBool(true))) ==> c.state == st && c.result.value.deleted == 0)
      && (c.result.Ok? && !Truthy(GetOr(event, "dry_run", JBool(true))) ==>
            && c.result.value.deleted == |c.result.value.found|
            && (forall l :: l in c.state.objects <==>
                  l in st.objects && !(l.bucket == cfg.destinationBucket && l.key in c.result.value.found))
            && (forall k :: k in c.result.value.found ==> Location(cfg.destinationBucket, k) in st.objects))
      && c.state.Valid()
      && c.state.buckets == st.buckets
  {
    var l := List(st, cfg.destinationBucket, ProcessedPrefix, DefaultMaxKeys);
    if l.Ok? && DaysOld(event).Ok? {
      var found := Candidates(l.value.contents, Cutoff(now, DaysOld(event).value));
      ListingBounds(st, cfg.destinationBucket, ProcessedPrefix, DefaultMaxKeys);
      ListedKeysStored(st, cfg.destinationBucket, ProcessedPrefix, DefaultMaxKeys, Cutoff(now, DaysOld(event).value));
      if found != [] {
        BatchesFlatten(found, MaxDeleteKeys);
        BatchesSize(found, MaxDeleteKeys);
        DeleteBatchesSpec(st, cfg.destinationBucket, Batches(found, MaxDeleteKeys));
      }
    }
  }

  // ---------------------------------------------------------------------
  // copy_file_between_buckets

  /** `copy_file_between_buckets`: `dest_key` defaults to `source_key`, which is required. */
  function CopyFile(st: StoreState, cfg: Config, ctx: Context, event: map<string, Json>, now: int): Step<Response>
  {
    var srcBucket := GetOr(event, "source_bucket", JStr(cfg.sourceBucket));
    var srcKey := GetOr(event, "source_key", JNull);
    var dstBucket := GetOr(event, "dest_bucket", JStr(cfg.destinationBucket));
    var dstKey := GetOr(event, "dest_key", srcKey);
    if !Truthy(srcKey) then Step(Ok(Response(400, MissingParameter(ctx.requestId))), st)
    else if !IsParam(srcBucket) || !IsParam(srcKey) || !IsParam(dstBucket) || !IsParam(dstKey) then Step(Err(ParamValidation), st)
    else if !IsAscii(srcBucket.s) || !IsAscii(srcKey.s) then Step(Err(ParamValidation), st)
    else
      var src := Location(srcBucket.s, srcKey.s);
      var dst := Location(dstBucket.s, dstKey.s);
      match Copy(st, src, dst, now)
      case Err(f) => Step(Err(ServiceError(f)), st)
      case Ok(next) => Step(Ok(Response(200, CopyBody(src, dst, ctx.requestId))), next)
  }

  /**
   * A missing or empty `source_key` is answered 400 without touching the
   * store; a successful copy makes the destination (by default the same
   * key in the destination bucket) read as the source's content.
   */
  lemma CopyFileSpec(st: StoreState, cfg: Config, ctx: Context, event: map<string, Json>, now: int)
    requires st.Valid()
    ensures var s := CopyFile(st, cfg, ctx, event, now);
      && (!Truthy(GetOr(event, "source_key", JNull)) ==> s == Step(Ok(Response(400, MissingParameter(ctx.requestId))), st))
      && (s.result.Err? ==> s.state == st)
      && s.state.Valid()
      && s.state.buckets == st.buckets
      && (s.result.Ok? && s.result.value.statusCode == 200 ==>
            var b := s.result.value.body;
            && b.CopyBody?
            && ("dest_key" !in event ==> b.destination.key == b.source.key)
            && ("dest_bucket" !in event ==> b.destination.bucket == cfg.destinationBucket)
            && b.source in st.objects
            && IsAscii(b.source.bucket) && IsAscii(b.source.key)
            && Lookup(s.state, b.destination) == Ok(S3Object(st.objects[b.source].content, None, now, st.objects[b.source].etag))
            && (forall other :: other != b.destination ==> Lookup(s.state, other) == Lookup(st, other)))
      && ((Truthy(GetOr(event, "source_key", JNull)) && GetOr(event, "source_key", JNull).JStr? &&
           !IsAscii(GetOr(event, "source_key", JNull).s)) ==> s.result == Err(ParamValidation))
  {
    var srcBucket := GetOr(event, "source_bucket", JStr(cfg.sourceBucket));
    var srcKey := GetOr(event, "source_key", JNull);
    var dstBucket := GetOr(event, "dest_bucket", JStr(cfg.destinationBucket));
    var dstKey := GetOr(event, "dest_key", srcKey);
    if Truthy(srcKey) && IsParam(srcBucket) && IsParam(srcKey) && IsParam(dstBucket) && IsParam(dstKey) && IsAscii(srcBucket.s) && IsAscii(srcKey.s) {
      CopySpec(st, Location(srcBucket.s, srcKey.s), Location(dstBucket.s, dstKey.s), now);
    }
  }

  // ---------------------------------------------------------------------
  // perform_health_check

  const HealthKeys: seq<string> := ["lambda_function", "source_bucket_access", "destination_bucket_access", "deployment_bucket_access"]

  function BucketProbe(st: StoreState, bucket: string): string
  {
    ProbeStatus(bucket in st.buckets, HeadBucketNotFound)
  }

  /** The four statuses in the order the check records them; an unconfigured deployment bucket stays `unknown`. */
  function HealthStatuses(st: StoreState, cfg: Config): seq<string>
  {
    ["healthy",
     BucketProbe(st, cfg.sourceBucket),
     BucketProbe(st, cfg.destinationBucket),
     if cfg.deploymentBucket != [] then BucketProbe(st, cfg.deploymentBucket) else "unknown"]
  }

  function HealthDetails(statuses: seq<string>): map<string, string>
    requires |statuses| == 4
  {
    map[HealthKeys[0] := statuses[0], HealthKeys[1] := statuses[1], HealthKeys[2] := statuses[2], HealthKeys[3] := statuses[3]]
  }

  function HealthCheck(st: StoreState, cfg: Config, ctx: Context): Response
  {
    var statuses := HealthStatuses(st, cfg);
    var healthy := AllHealthy(statuses);
    Response(if healthy then 200 else 503,
             HealthBody(healthy, ctx.functionName, ctx.functionVersion, cfg.environment,
                        HealthDetails(statuses), Configured(cfg), ctx.requestId))
  }

  /**
   * Without a deployment bucket the check always reports degraded (503);
   * with one, it reports healthy (200) exactly when no probe gave
   * anything but `healthy` or an error, so a bucket that cannot be
   * reached never degrades it.
   */
  lemma HealthCheckSpec(st: StoreState, cfg: Config, ctx: Context)
    ensures var r := HealthCheck(st, cfg, ctx);
      && (r.statusCode == 200 <==> r.body.overallHealthy)
      && (r.statusCode == 503 <==> !r.body.overallHealthy)
      && (cfg.deploymentBucket == [] ==> r.statusCode == 503)
      && (cfg.deploymentBucket != [] ==> r.statusCode == 200)
      && r.body.details["deployment_bucket_access"] == (if cfg.deploymentBucket == [] then "unknown" else BucketProbe(st, cfg.deploymentBucket))
  {
    var statuses := HealthStatuses(st, cfg);
    HealthAggregation(statuses, HeadBucketNotFound);
    UnknownIsNoError();
    if cfg.deploymentBucket == [] {
      assert statuses[3] == "unknown";
    }
  }

  // ---------------------------------------------------------------------
  // handle_manual_action and lambda_handler

  const ManualActions: seq<string> := ["list_buckets", "list_objects", "process_batch", "cleanup", "health_check", "copy_file"]

  /** `handle_manual_action` after the action has been lower-cased. */
  function RunAction(st: StoreState, cfg: Config, ctx: Context, digest: seq<byte> -> string, event: map<string, Json>, action: string, now: int): Step<Response>
  {
    if action == "list_buckets" then Step(Ok(ListBucketsResponse(st, cfg, ctx)), st)
    else if action == "list_objects" then Step(ListObjects(st, cfg, ctx, event), st)
    else if action == "process_batch" then ProcessBatch(st, cfg, ctx, digest, event, now)
    else if action == "cleanup" then Cleanup(st, cfg, ctx, event, now)
    else if action == "health_check" then Step(Ok(HealthCheck(st, cfg, ctx)), st)
    else if action == "copy_file" then CopyFile(st, cfg, ctx, event, now)
    else Step(Ok(Response(400, InvalidAction(action, ManualActions, ctx.requestId))), st)
  }

  /** `event.get('action', '').lower()`: only a string has `lower`. */
  function ManualAction(st: StoreState, cfg: Config, ctx: Context, digest: seq<byte> -> string, event: map<string, Json>, now: int): Step<Response>
  {
    match GetOr(event, "action", JStr(""))
    case JStr(a) => RunAction(st, cfg, ctx, digest, event, Lower(a), now)
    case _ => Step(Err(PythonError(AttributeError)), st)
  }

  /**
   * Actions are matched ignoring ASCII case; a name that is none of the
   * six is answered 400 with the six names and leaves the store alone; a
   * non-string action raises `AttributeError`.
   */
  lemma ManualActionSpec(st: StoreState, cfg: Config, ctx: Context, digest: seq<byte> -> string, event: map<string, Json>, now: int)
    requires "action" in event
    ensures var s := ManualAction(st, cfg, ctx, digest, event, now);
      && (!event["action"].JStr? ==> s == Step(Err(PythonError(AttributeError)), st))
      && (event["action"].JStr? ==>
            && s == ManualAction(st, cfg, ctx, digest, event["action" := JStr(Lower(event["action"].s))], now)
            && (Lower(event["action"].s) !in ManualActions <==>
                  s == Step(Ok(Response(400, InvalidAction(Lower(event["action"].s), ManualActions, ctx.requestId))), st)))
  {
    if event["action"].JStr? {
      var a := Lower(event["action"].s);
      LowerIdempotent(event["action"].s);
      var e' := event["action" := JStr(a)];
      assert e'["action"] == JStr(a);
      RunActionFrame(st, cfg, ctx, digest, event, e', a, now);
    }
  }

  /** Two events that differ at most in their `action`. */
  ghost predicate SameBut(event: map<string, Json>, event': map<string, Json>)
  {
    && (forall k :: k != "action" ==> (k in event <==> k in event'))
    && (forall k :: k != "action" && k in event ==> event[k] == event'[k])
  }

  lemma SameField(event: map<string, Json>, event': map<string, Json>, k: string, d: Json)
    requires SameBut(event, event') && k != "action"
    ensures GetOr(event, k, d) == GetOr(event', k, d)
  {
  }

  /** The actions never read `action` itself, only the other event fields. */
  lemma RunActionFrame(st: StoreState, cfg: Config, ctx: Context, digest: seq<byte> -> string,
                       event: map<string, Json>, event': map<string, Json>, action: string, now: int)
    requires SameBut(event, event')
    ensures RunAction(st, cfg, ctx, digest, event, action, now) == RunAction(st, cfg, ctx, digest, event', action, now)
  {
    if action == "list_objects" {
      SameField(event, event', "max_keys", JNum(10));
      SameField(event, event', "bucket", JStr(cfg.sourceBucket));
      SameField(event, event', "prefix", JStr(""));
    } else if action == "process_batch" {
      SameField(event, event', "file_keys", JArr([]));
      SameField(event, event', "bucket", JStr(cfg.sourceBucket));
    } else if action == "cleanup" {
      CleanupFrame(st, cfg, ctx, event, event', now);
    } else if action == "copy_file" {
      CopyFileFrame(st, cfg, ctx, event, event', now);
    }
  }

  lemma CleanupFrame(st: StoreState, cfg: Config, ctx: Context, event: map<string, Json>, event': map<string, Json>, now: int)
    requires SameBut(event, event')
    ensures Cleanup(st, cfg, ctx, event, now) == Cleanup(st, cfg, ctx, event', now)
  {
    SameField(event, event', "dry_run", JBool(true));
    SameField(event, event', "days_old", JNum(7));
    assert DaysOld(event) == DaysOld(event');
    assert Clean(st, cfg, event, now) == Clean(st, cfg, event', now);
  }

  lemma CopyFileFrame(st: StoreState, cfg: Config, ctx: Context, event: map<string, Json>, event': map<string, Json>, now: int)
    requires SameBut(event, event')
    ensures CopyFile(st, cfg, ctx, event, now) == CopyFile(st, cfg, ctx, event', now)
  {
    SameField(event, event', "source_bucket", JStr(cfg.sourceBucket));
    SameField(event, event', "source_key", JNull);
    SameField(event, event', "dest_bucket", JStr(cfg.destinationBucket));
    SameField(event, event', "dest_key", GetOr(event, "source_key", JNull));
  }

  /** An invocation's response with the store it leaves behind. */
  datatype Outcome = Outcome(response: Response, state: StoreState)

  /** Which path an event takes: `Records` first, then `action`, then the default run. */
  function Route(st: StoreState, cfg: Config, ctx: Context, digest: seq<byte> -> string, event: map<string, Json>, now: int): Step<Response>
  {
    if "Records" in event then S3Event(st, cfg, ctx, digest, event["Records"], now)
    else if "action" in event then ManualAction(st, cfg, ctx, digest, event, now)
    else DefaultProcessing(st, cfg, ctx, digest, now)
  }

  /** `lambda_handler`: an exception escaping the chosen path becomes a 500 response. */
  function Handler(st: StoreState, cfg: Config, ctx: Context, digest: seq<byte> -> string, event: map<string, Json>, now: int): Outcome
  {
    var s := Route(st, cfg, ctx, digest, event, now);
    match s.result
    case Ok(r) => Outcome(r, s.state)
    case Err(f) => Outcome(Response(500, InternalError(f, ctx.requestId, ctx.functionName, ctx.functionVersion)), s.state)
  }

  /**
   * `Records` wins over `action`, which wins over the default run; an
   * escaping exception is answered 500 with the request's identity.
   */
  lemma HandlerSpec(st: StoreState, cfg: Config, ctx: Context, digest: seq<byte> -> string, event: map<string, Json>, now: int)
    ensures "Records" in event ==> Route(st, cfg, ctx, digest, event, now) == S3Event(st, cfg, ctx, digest, event["Records"], now)
    ensures "Records" !in event && "action" in event ==>
      Route(st, cfg, ctx, digest, event, now) == ManualAction(st, cfg, ctx, digest, event, now)
    ensures "Records" !in event && "action" !in event ==>
      Route(st, cfg, ctx, digest, event, now) == DefaultProcessing(st, cfg, ctx, digest, now)
    ensures var o := Handler(st, cfg, ctx, digest, event, now);
      && o.state == Route(st, cfg, ctx, digest, event, now).state
      && (Route(st, cfg, ctx, digest, event, now).result.Ok? ==> o.response == Route(st, cfg, ctx, digest, event, now).result.value)
      && (o.response.statusCode == 500 <==> Route(st, cfg, ctx, digest, event, now).result.Err?)
      && (o.response.statusCode == 500 ==>
            o.response.body == InternalError(Route(st, cfg, ctx, digest, event, now).result.error,
                                             ctx.requestId, ctx.functionName, ctx.functionVersion))
  {
  }
}
