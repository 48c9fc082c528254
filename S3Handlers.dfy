/**
 * The handlers of the S3 file processor as they run: each one calls the
 * shared client step by step, in the order the handler makes its calls,
 * and is proved to answer and to leave the store exactly as the
 * corresponding function of `S3Processor` says.
 */
module S3Handlers {
  import opened Wrappers
  import opened Json
  import opened PyText
  import opened ObjectStore
  import opened FileRules
  import opened S3Processor

  /**
   * `process_uploaded_file`. The metadata read (`head_object`) and the
   * content read (`get_object`) see the same object, so one read stands
   * for both.
   */
  method ProcessUploadedFile(client: S3Client, cfg: Config, bucket: Json, key: Json, now: int)
    returns (r: Result<FileResult, Failure>)
    requires client.Valid()
    modifies client
    ensures client.Valid()
    ensures var s := ProcessFile(old(client.state), cfg, client.digest, bucket, key, now);
      r == s.result && client.state == s.state
  {
    if !IsParam(bucket) || !IsParam(key) {
      return Err(ParamValidation);
    }
    var src := Location(bucket.s, key.s);
    var head := client.GetObject(src);
    if head.Err? {
      return Err(ServiceError(head.error));
    }
    var o := head.value;
    var contentType := if o.contentType.Some? then o.contentType.value else "unknown";
    var body := Transform(o.content, contentType, key.s);
    var dst := Location(cfg.destinationBucket, DestinationKey(key.s, cfg.processingPrefix));
    if !ProcessedMetadataAscii(cfg, bucket.s, key.s) {
      return Err(ParamValidation);
    }
    var put := client.PutObject(dst, body, contentType, now);
    if put.Err? {
      return Err(ServiceError(put.error));
    }
    r := Ok(Processed(src, dst, |o.content|, contentType, o.lastModified));
  }

  /** `handle_file_deletion`. */
  method HandleFileDeletion(client: S3Client, cfg: Config, bucket: Json, key: string) returns (f: FileResult)
    requires client.Valid()
    modifies client
    ensures client.Valid()
    ensures var d := HandleDeletion(old(client.state), cfg, bucket, key);
      f == d.value && client.state == d.state
  {
    var target := Location(cfg.destinationBucket, DestinationKey(key, cfg.processingPrefix));
    var deleted := client.DeleteObject(target);
    f := Deletion(bucket, key, deleted.Ok?, target);
  }

  /** `handle_s3_event`. */
  method HandleS3Event(client: S3Client, cfg: Config, ctx: Context, records: Json, now: int)
    returns (r: Result<Response, Failure>)
    requires client.Valid()
    modifies client
    ensures client.Valid()
    ensures var s := S3Event(old(client.state), cfg, ctx, client.digest, records, now);
      r == s.result && client.state == s.state
  {
    match records
    case JArr(items) =>
      var tally := EventTally([], []);
      for i := 0 to |items|
        invariant client.Valid()
        invariant Out(tally, client.state) == RunRecords(old(client.state), cfg, client.digest, items[..i], now)
      {
        assert items[..i + 1][..i] == items[..i];
        var outcome := HandleRecord(client, cfg, items[i], now);
        tally := Count(tally, outcome);
      }
      assert items[..|items|] == items;
      r := Ok(EventResponse(tally, ctx));
    case JStr(s) =>
      r := Ok(EventResponse(EventTally([], seq(|s|, _ => PythonError(TypeError))), ctx));
    case JObj(fields) =>
      r := Ok(EventResponse(EventTally([], seq(|fields|, _ => PythonError(TypeError))), ctx));
    case _ =>
      r := Err(PythonError(TypeError));
  }

  /** One iteration of the record loop of `handle_s3_event`. */
  method HandleRecord(client: S3Client, cfg: Config, item: Json, now: int) returns (outcome: RecordOutcome)
    requires client.Valid()
    modifies client
    ensures client.Valid()
    ensures Out(outcome, client.state) == RecordStep(old(client.state), cfg, client.digest, item, now)
  {
    match ParseRecord(item)
    case Err(e) =>
      outcome := RecordFailed(PythonError(e));
    case Ok(record) =>
      if StartsWith(record.eventName, "ObjectCreated") {
        var result := ProcessUploadedFile(client, cfg, record.bucket, JStr(record.key), now);
        match result
        case Ok(file) => outcome := Handled(file);
        case Err(failure) => outcome := RecordFailed(failure);
      } else if StartsWith(record.eventName, "ObjectRemoved") {
        var file := HandleFileDeletion(client, cfg, record.bucket, record.key);
        outcome := Handled(file);
      } else {
        outcome := Ignored;
      }
  }

  /** The file loop of `process_batch_files`: every key is tried, failures are collected. */
  method ProcessFiles(client: S3Client, cfg: Config, bucket: Json, keys: seq<Json>, now: int) returns (tally: FileTally)
    requires client.Valid()
    modifies client
    ensures client.Valid()
    ensures var run := RunFiles(old(client.state), cfg, client.digest, bucket, keys, now);
      tally == run.value && client.state == run.state
  {
    tally := FileTally([], []);
    for i := 0 to |keys|
      invariant client.Valid()
      invariant Out(tally, client.state) == RunFiles(old(client.state), cfg, client.digest, bucket, keys[..i], now)
    {
      assert keys[..i + 1][..i] == keys[..i];
      var result := ProcessUploadedFile(client, cfg, bucket, keys[i], now);
      match result
      case Ok(file) => tally := FileTally(tally.results + [file], tally.errors);
      case Err(failure) => tally := FileTally(tally.results, tally.errors + [BatchError(keys[i], failure)]);
    }
    assert keys[..|keys|] == keys;
  }

  /** `process_batch_files`. */
  method ProcessBatchFiles(client: S3Client, cfg: Config, ctx: Context, event: map<string, Json>, now: int)
    returns (r: Result<Response, Failure>)
    requires client.Valid()
    modifies client
    ensures client.Valid()
    ensures var s := ProcessBatch(old(client.state), cfg, ctx, client.digest, event, now);
      r == s.result && client.state == s.state
  {
    var bucket := GetOr(event, "bucket", JStr(cfg.sourceBucket));
    var fileKeys := GetOr(event, "file_keys", JArr([]));
    var keys: seq<Json>;
    if !Truthy(fileKeys) {
      if !IsParam(bucket) {
        return Err(ParamValidation);
      }
      var listing := client.ListObjects(bucket.s, cfg.processingPrefix, BatchListLimit);
      if listing.Err? {
        return Err(ServiceError(listing.error));
      }
      keys := KeysOf(listing.value.contents);
    } else {
      match fileKeys
      case JArr(items) => keys := items;
      case JStr(s) => keys := seq(|s|, i requires 0 <= i < |s| => JStr([s[i]]));
      case _ => return Err(PythonError(TypeError));
    }
    var tally := ProcessFiles(client, cfg, bucket, keys, now);
    r := Ok(Response(if tally.errors == [] then 200 else 207, BatchBody(|keys|, tally.results, tally.errors, ctx.requestId)));
  }

  /** `handle_default_processing`: its own loop, which drops failures. */
  method HandleDefaultProcessing(client: S3Client, cfg: Config, ctx: Context, now: int)
    returns (r: Result<Response, Failure>)
    requires client.Valid()
    modifies client
    ensures client.Valid()
    ensures var s := DefaultProcessing(old(client.state), cfg, ctx, client.digest, now);
      r == s.result && client.state == s.state
  {
    var listing := client.ListObjects(cfg.sourceBucket, cfg.processingPrefix, DefaultListLimit);
    if listing.Err? {
      return Err(ServiceError(listing.error));
    }
    var objects := listing.value.contents;
    var processed := ProcessPending(client, cfg, KeysOf(objects), now);
    r := Ok(Response(200, DefaultBody(cfg.environment, ctx.functionName, ctx.functionVersion, ctx.requestId,
                                      cfg.sourceBucket, cfg.destinationBucket, |objects|, processed)));
  }

  /** The loop of `handle_default_processing`, which keeps only the files that were processed. */
  method ProcessPending(client: S3Client, cfg: Config, keys: seq<Json>, now: int) returns (processed: seq<FileResult>)
    requires client.Valid()
    modifies client
    ensures client.Valid()
    ensures var run := RunFiles(old(client.state), cfg, client.digest, JStr(cfg.sourceBucket), keys, now);
      processed == run.value.results && client.state == run.state
  {
    processed := [];
    for i := 0 to |keys|
      invariant client.Valid()
      invariant var run := RunFiles(old(client.state), cfg, client.digest, JStr(cfg.sourceBucket), keys[..i], now);
        processed == run.value.results && client.state == run.state
    {
      assert keys[..i + 1][..i] == keys[..i];
      var result := ProcessUploadedFile(client, cfg, JStr(cfg.sourceBucket), keys[i], now);
      if result.Ok? {
        processed := processed + [result.value];
      }
    }
    assert keys[..|keys|] == keys;
  }

  /** `list_all_buckets`. */
  method ListAllBuckets(client: S3Client, cfg: Config, ctx: Context) returns (resp: Response)
    ensures resp == ListBucketsResponse(client.state, cfg, ctx)
    ensures resp.statusCode == 200 && resp.body.buckets == client.state.buckets
  {
    var names := client.ListBuckets();
    resp := Response(200, BucketsBody(names, Configured(cfg), ctx.requestId));
  }

  /** `list_bucket_objects`. */
  method ListBucketObjects(client: S3Client, cfg: Config, ctx: Context, event: map<string, Json>)
    returns (r: Result<Response, Failure>)
    ensures r == ListObjects(client.state, cfg, ctx, event)
  {
    var maxKeys := ClampMaxKeys(event);
    if maxKeys.Err? {
      return Err(PythonError(maxKeys.error));
    }
    var bucket := GetOr(event, "bucket", JStr(cfg.sourceBucket));
    var prefix := GetOr(event, "prefix", JStr(""));
    if !IsParam(bucket) || !prefix.JStr? {
      return Err(ParamValidation);
    }
    var listing := client.ListObjects(bucket.s, prefix.s, maxKeys.value);
    if listing.Err? {
      return Err(ServiceError(listing.error));
    }
    r := Ok(Response(200, ObjectsBody(bucket.s, prefix.s, StripETags(listing.value.contents), listing.value.isTruncated, ctx.requestId)));
  }

  /** The batch loop of `cleanup_processed_files`: `delete_objects` on each run of up to 1000 keys. */
  method DeleteInBatches(client: S3Client, bucket: string, keys: seq<string>) returns (r: Result<nat, Failure>)
    requires client.Valid()
    modifies client
    ensures client.Valid()
    ensures var d := DeleteBatches(old(client.state), bucket, Batches(keys, MaxDeleteKeys));
      r == d.result && client.state == d.state
  {
    ghost var total := DeleteBatches(client.state, bucket, Batches(keys, MaxDeleteKeys));
    var deleted: nat := 0;
    var i := 0;
    assert keys[i..] == keys;
    while i < |keys|
      invariant 0 <= i <= |keys|
      invariant client.Valid()
      invariant total == After(deleted, DeleteBatches(client.state, bucket, Batches(keys[i..], MaxDeleteKeys)))
    {
      var sent, end := DeleteNextBatch(client, bucket, keys, i, deleted, total);
      if sent.Err? {
        return Err(ServiceError(sent.error));
      }
      deleted := deleted + (end - i);
      i := end;
    }
    assert Batches(keys[i..], MaxDeleteKeys) == [];
    r := Ok(deleted);
  }

  /**
   * One `delete_objects` call, on `objects_to_delete[i:i+1000]`: the run
   * either stops there with the call's error, or goes on from `end` with
   * the batch counted.
   */
  method DeleteNextBatch(client: S3Client, bucket: string, keys: seq<string>, i: nat, deleted: nat, ghost total: Step<nat>)
    returns (sent: Result<(), Fault>, end: nat)
    requires client.Valid() && i < |keys|
    requires total == After(deleted, DeleteBatches(client.state, bucket, Batches(keys[i..], MaxDeleteKeys)))
    modifies client
    ensures client.Valid()
    ensures i < end <= |keys|
    ensures sent.Err? ==> total == Step(Err(ServiceError(sent.error)), client.state)
    ensures sent.Ok? ==>
      total == After(deleted + (end - i), DeleteBatches(client.state, bucket, Batches(keys[end..], MaxDeleteKeys)))
  {
    end := if i + MaxDeleteKeys < |keys| then i + MaxDeleteKeys else |keys|;
    var batch := keys[i..end];
    BatchesAt(keys, i);
    ghost var rest := Batches(keys[end..], MaxDeleteKeys);
    DeleteBatchesCons(client.state, bucket, batch, rest);
    sent := client.DeleteObjects(bucket, batch);
    if sent.Ok? {
      AfterAfter(deleted, |batch|, DeleteBatches(client.state, bucket, rest));
    }
  }

  /** `objects_to_delete[i:i+1000]` is the first batch of what is left from `i` on. */
  lemma BatchesAt(keys: seq<string>, i: nat)
    requires i < |keys|
    ensures var end := if i + MaxDeleteKeys < |keys| then i + MaxDeleteKeys else |keys|;
      Batches(keys[i..], MaxDeleteKeys) == [keys[i..end]] + Batches(keys[end..], MaxDeleteKeys)
  {
    var end := if i + MaxDeleteKeys < |keys| then i + MaxDeleteKeys else |keys|;
    if end == |keys| {
      assert keys[i..end] == keys[i..];
      assert keys[end..] == [];
    } else {
      assert keys[i..][..MaxDeleteKeys] == keys[i..end];
      assert keys[i..][MaxDeleteKeys..] == keys[end..];
    }
  }

  lemma DeleteBatchesCons(st: StoreState, bucket: string, batch: seq<string>, rest: seq<seq<string>>)
    ensures var m := DeleteMany(st, bucket, batch);
      DeleteBatches(st, bucket, [batch] + rest) ==
        if m.Err? then Step(Err(ServiceError(m.error)), st) else After(|batch|, DeleteBatches(m.value, bucket, rest))
  {
    assert ([batch] + rest)[0] == batch;
    assert ([batch] + rest)[1..] == rest;
  }

  lemma AfterAfter(a: nat, b: nat, d: Step<nat>)
    ensures After(a, After(b, d)) == After(a + b, d)
  {
  }

  /** `cleanup_processed_files`. */
  method CleanupProcessedFiles(client: S3Client, cfg: Config, ctx: Context, event: map<string, Json>, now: int)
    returns (r: Result<Response, Failure>)
    requires client.Valid()
    modifies client
    ensures client.Valid()
    ensures var s := Cleanup(old(client.state), cfg, ctx, event, now);
      r == s.result && client.state == s.state
  {
    var dryRun := GetOr(event, "dry_run", JBool(true));
    var listing := client.ListObjects(cfg.destinationBucket, ProcessedPrefix, DefaultMaxKeys);
    if listing.Err? {
      return Err(ServiceError(listing.error));
    }
    var days := DaysOld(event);
    if days.Err? {
      return Err(PythonError(days.error));
    }
    var found := CollectCandidates(listing.value.contents, Cutoff(now, days.value));
    var deleted := 0;
    if !Truthy(dryRun) && found != [] {
      var d := DeleteInBatches(client, cfg.destinationBucket, found);
      if d.Err? {
        return Err(d.error);
      }
      deleted := d.value;
    }
    r := Ok(Response(200, CleanupBody(dryRun, GetOr(event, "days_old", JNum(7)), |found|,
                                      if Truthy(dryRun) then 0 else deleted, Preview(found), ctx.requestId)));
  }

  /** `copy_file_between_buckets`. */
  method CopyFileBetweenBuckets(client: S3Client, cfg: Config, ctx: Context, event: map<string, Json>, now: int)
    returns (r: Result<Response, Failure>)
    requires client.Valid()
    modifies client
    ensures client.Valid()
    ensures var s := CopyFile(old(client.state), cfg, ctx, event, now);
      r == s.result && client.state == s.state
  {
    var srcBucket := GetOr(event, "source_bucket", JStr(cfg.sourceBucket));
    var srcKey := GetOr(event, "source_key", JNull);
    var dstBucket := GetOr(event, "dest_bucket", JStr(cfg.destinationBucket));
    var dstKey := GetOr(event, "dest_key", srcKey);
    if !Truthy(srcKey) {
      return Ok(Response(400, MissingParameter(ctx.requestId)));
    }
    if !IsParam(srcBucket) || !IsParam(srcKey) || !IsParam(dstBucket) || !IsParam(dstKey) {
      return Err(ParamValidation);
    }
    if !IsAscii(srcBucket.s) || !IsAscii(srcKey.s) {
      return Err(ParamValidation);
    }
    var src := Location(srcBucket.s, srcKey.s);
    var dst := Location(dstBucket.s, dstKey.s);
    var copied := client.CopyObject(src, dst, now);
    if copied.Err? {
      return Err(ServiceError(copied.error));
    }
    r := Ok(Response(200, CopyBody(src, dst, ctx.requestId)));
  }

  /** `perform_health_check`: the status table is filled in probe by probe, then aggregated. */
  method PerformHealthCheck(client: S3Client, cfg: Config, ctx: Context) returns (resp: Response)
    ensures resp == HealthCheck(client.state, cfg, ctx)
    ensures resp.statusCode == 200 <==> AllHealthy(HealthStatuses(client.state, cfg))
  {
    var details := map[
      "lambda_function" := "healthy",
      "source_bucket_access" := "unknown",
      "destination_bucket_access" := "unknown",
      "deployment_bucket_access" := "unknown"];
    var source := client.HeadBucket(cfg.sourceBucket);
    details := details["source_bucket_access" := ProbeStatus(source.Ok?, HeadBucketNotFound)];
    var destination := client.HeadBucket(cfg.destinationBucket);
    details := details["destination_bucket_access" := ProbeStatus(destination.Ok?, HeadBucketNotFound)];
    if cfg.deploymentBucket != [] {
      var deployment := client.HeadBucket(cfg.deploymentBucket);
      details := details["deployment_bucket_access" := ProbeStatus(deployment.Ok?, HeadBucketNotFound)];
    }
    var statuses := [details[HealthKeys[0]], details[HealthKeys[1]], details[HealthKeys[2]], details[HealthKeys[3]]];
    assert statuses == HealthStatuses(client.state, cfg);
    assert details == HealthDetails(statuses);
    var healthy := CheckAllHealthy(statuses);
    resp := Response(if healthy then 200 else 503,
                     HealthBody(healthy, ctx.functionName, ctx.functionVersion, cfg.environment,
                                details, Configured(cfg), ctx.requestId));
  }

  /** `handle_manual_action`. */
  method HandleManualAction(client: S3Client, cfg: Config, ctx: Context, event: map<string, Json>, now: int)
    returns (r: Result<Response, Failure>)
    requires client.Valid()
    modifies client
    ensures client.Valid()
    ensures var s := ManualAction(old(client.state), cfg, ctx, client.digest, event, now);
      r == s.result && client.state == s.state
  {
    var requested := GetOr(event, "action", JStr(""));
    if !requested.JStr? {
      return Err(PythonError(AttributeError));
    }
    var action := Lower(requested.s);
    if action == "list_buckets" {
      var resp := ListAllBuckets(client, cfg, ctx);
      r := Ok(resp);
    } else if action == "list_objects" {
      r := ListBucketObjects(client, cfg, ctx, event);
    } else if action == "process_batch" {
      r := ProcessBatchFiles(client, cfg, ctx, event, now);
    } else if action == "cleanup" {
      r := CleanupProcessedFiles(client, cfg, ctx, event, now);
    } else if action == "health_check" {
      var resp := PerformHealthCheck(client, cfg, ctx);
      r := Ok(resp);
    } else if action == "copy_file" {
      r := CopyFileBetweenBuckets(client, cfg, ctx, event, now);
    } else {
      r := Ok(Response(400, InvalidAction(action, ManualActions, ctx.requestId)));
    }
  }

  /** `lambda_handler`. */
  method LambdaHandler(client: S3Client, cfg: Config, ctx: Context, event: map<string, Json>, now: int)
    returns (resp: Response)
    requires client.Valid()
    modifies client
    ensures client.Valid()
    ensures var o := Handler(old(client.state), cfg, ctx, client.digest, event, now);
      resp == o.response && client.state == o.state
  {
    var r: Result<Response, Failure>;
    if "Records" in event {
      r := HandleS3Event(client, cfg, ctx, event["Records"], now);
    } else if "action" in event {
      r := HandleManualAction(client, cfg, ctx, event, now);
    } else {
      r := HandleDefaultProcessing(client, cfg, ctx, now);
    }
    match r
    case Ok(response) => resp := response;
    case Err(failure) =>
      resp := Response(500, InternalError(failure, ctx.requestId, ctx.functionName, ctx.functionVersion));
  }
}
