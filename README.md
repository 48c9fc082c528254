# Lambda examples: event routing, diagnostics and the S3 file processor

This project models two Python AWS Lambda handlers.

- `examples/complete-lambda-example/lambda_function.py` is the "complete"
  example. It classifies an incoming event by source: S3, SNS or SQS
  records, EventBridge, API Gateway, a direct invocation, or an unknown
  event. It dispatches the event and wraps the result in a JSON envelope
  with tracing headers and a cold-start flag. A direct invocation runs
  diagnostic actions:
  - the database endpoint probe;
  - the SSM parameter listing;
  - the permission probes;
  - a CPU workload.
- `examples/s3-lambda/s3_processor_function.py` is the S3 file processor.
  - It reacts to `ObjectCreated` events by upper-casing text files and
    writing them under `processed/` in the destination bucket.
  - It reacts to `ObjectRemoved` events by deleting the processed copy.
  - It serves manual actions: listing buckets, listing objects, batch
    processing, cleanup of old processed files, copying and a health check.
  - When the event has neither `Records` nor `action`, it processes the
    first pending uploads.

The Dafny modules are:

- `Wrappers`: `Option`, `Result` and the Python exceptions that can
  escape.
- `Json`: the decoded JSON values the handlers read, Python truthiness,
  and `dict.get`.
- `PyText`: the `str` methods the handlers use. These are `replace`,
  `find`, `split`/`join`, `strip`, `lower` and `int()` of a decimal text,
  plus `os.environ.get`.
- `EventSource`: `identify_event_source`.
- `Diagnostics`: the direct-invocation actions of the complete example.
- `CompleteHandler`: the API Gateway and EventBridge handlers, the
  response envelope, and the `LambdaProcess` class. That class holds the
  process-wide `_initialized` flag behind the cold-start report.
- `ObjectStore`: the part of Amazon S3 the processor uses, as a store
  value. It covers buckets, objects with their content, content type,
  modification time and ETag, and a listing order. The `S3Client` class
  holds that store and changes it through the boto3 calls. Each call is
  specified by a function of the old store.
- `FileRules`: the processor's pure rules.
  - the destination key;
  - the text transform;
  - `unquote_plus` and its inverse;
  - the `max_keys` clamp and the ETag strip;
  - the age cut-off, and batching by 1000;
  - the health aggregation.
- `S3Processor`: each handler of the processor as a function from the
  store (and the event) to a response and the new store, with lemmas
  for what each promises.
- `S3Handlers`: the same handlers as methods on an `S3Client`, with the
  loops of the source. Each is proved to compute what its `S3Processor`
  function specifies.

## Model

| member | source | states |
|---|---|---|
| EventSource.RecordsWin | examples/complete-lambda-example/lambda_function.py:30-37 | An event with `Records` is classified by its first record alone, and only as S3, SNS or SQS |
| EventSource.RecordTags | examples/complete-lambda-example/lambda_function.py:32-37 | The first record's `eventSource` `aws:s3` or `aws:sqs`, or its `EventSource` `aws:sns`, selects the tag, with S3 tested first |
| EventSource.NonRecordTags | examples/complete-lambda-example/lambda_function.py:38-47 | Without `Records`: `source == aws.events` gives EventBridge, else `httpMethod` gives API Gateway, else `action` gives Direct, else Unknown (each an iff) |
| EventSource.Payload | examples/complete-lambda-example/lambda_function.py:30-47 | Record sources carry the first record; every other source carries the whole event |
| EventSource.OnlyRecordsUnclassified | examples/complete-lambda-example/lambda_function.py:30-37 | Only a `Records` event can go unclassified; it returns None exactly when the first record exists and matches no source (otherwise indexing raises) |
| EventSource.TagNameInjective | examples/complete-lambda-example/lambda_function.py:33-47 | Distinct sources report distinct source-type names |
| EventSource.FirstRecord | examples/complete-lambda-example/lambda_function.py:31 | `event['Records'][0]` succeeds iff Records is a non-empty list whose head is a dict, and then it is that dict |
| PyText.FindLeftmost | examples/complete-lambda-example/lambda_function.py:105 | The position found is the leftmost occurrence, and None means there is no occurrence |
| PyText.ReplaceIsSplitJoin | examples/s3-lambda/s3_processor_function.py:230 | `s.replace(p, r)` equals `r.join(s.split(p))` for a non-empty pattern |
| PyText.ReplaceAtFirstOccurrence | examples/s3-lambda/s3_processor_function.py:230 | Replacement keeps the text before the first occurrence, substitutes it, and continues after it |
| PyText.ReplaceWithoutOccurrence | examples/s3-lambda/s3_processor_function.py:230 | A text without the pattern is left unchanged by `replace` |
| PyText.StripWrapped | examples/s3-lambda/s3_processor_function.py:345 | Stripping a character from a value wrapped in it, whose ends are not that character, gives back the value |
| PyText.StripSlice | examples/s3-lambda/s3_processor_function.py:345 | `strip(c)` is a slice of the input with only `c` removed from either end and neither new end equal to `c` |
| PyText.LowerIdempotent | examples/s3-lambda/s3_processor_function.py:126 | Lower-casing twice equals lower-casing once |
| PyText.ParseDecimal | examples/complete-lambda-example/lambda_function.py:105 | `int()` of a port's decimal rendering gives the port back |
| PyText.DecimalValue | examples/complete-lambda-example/lambda_function.py:105 | The decimal digits of `n` denote `n` |
| Diagnostics.SplitEndpoint | examples/complete-lambda-example/lambda_function.py:104-105 | The first two fields of `endpoint.split(':')` are the host and the text up to the next colon |
| Diagnostics.EndpointWithPort | examples/complete-lambda-example/lambda_function.py:104-105 | `host:port...` parses to that host and port when the field is an integer, and raises ValueError otherwise |
| Diagnostics.EndpointRoundTrip | examples/complete-lambda-example/lambda_function.py:104-105 | Rendering a host and port as `host:port` and parsing them back gives the same endpoint |
| Diagnostics.DatabaseTestSuccess | examples/complete-lambda-example/lambda_function.py:97-137 | The test succeeds iff the endpoint parses, the port is 0..65535 and the probe returns 0; a bad port is reported as a failure naming the endpoint; the endpoint defaults to the placeholder |
| Diagnostics.GetSsmParameters | examples/complete-lambda-example/lambda_function.py:71-95 | The loop builds exactly the mapping of the listed parameters, and an empty result when the call fails |
| Diagnostics.SsmMappingKeys | examples/complete-lambda-example/lambda_function.py:82-88 | A name is reported iff some parameter's name, with the `/function/` path removed, is that name |
| Diagnostics.SsmMappingLastWins | examples/complete-lambda-example/lambda_function.py:82-88 | When two parameters share a reported name, the later one wins |
| Diagnostics.EntryMasking | examples/complete-lambda-example/lambda_function.py:85-88 | SecureString values are reported as `[ENCRYPTED]`, and others as their value, with the type kept |
| Diagnostics.ParamKeyStripsPath | examples/complete-lambda-example/lambda_function.py:84 | `/function/name` is reported as `name` |
| Diagnostics.TestAllPermissions | examples/complete-lambda-example/lambda_function.py:186-228 | Exactly five probes are reported; S3, SNS and SQS succeed iff their call did; SSM and CloudWatch always report success |
| Diagnostics.SquareSumClosedForm | examples/complete-lambda-example/lambda_function.py:493 | The sum of `i*i` for `i < n` is `(n-1)n(2n-1)/6` |
| Diagnostics.PerformanceResult | examples/complete-lambda-example/lambda_function.py:493 | The workload's result is 333283335000 |
| Diagnostics.SumOfSquares | examples/complete-lambda-example/lambda_function.py:493 | The accumulating loop computes the sum of squares below `n` |
| Diagnostics.DirectDispatch | examples/complete-lambda-example/lambda_function.py:441-520 | An action outside the seven named ones (default `default`) is echoed back with the seven available actions, and only then |
| Diagnostics.HandleDirectInvocation | examples/complete-lambda-example/lambda_function.py:441-520 | The dispatch returns the report of the chosen action |
| CompleteHandler.BodyFallback | examples/complete-lambda-example/lambda_function.py:363-371 | A missing body is the text `{}`, a falsy body gives `{}`, an undecodable string is kept as `raw_body`, and only a truthy non-string body raises |
| CompleteHandler.GatewayStatus | examples/complete-lambda-example/lambda_function.py:360-407 | API Gateway answers 200 iff the body can be read, and 500 otherwise; a 200 names the function and echoes the method (default UNKNOWN) and path (default `/`) |
| CompleteHandler.EnvelopeChoice | examples/complete-lambda-example/lambda_function.py:631-672 | API Gateway passes its own response through; other sources get 200 with `X-Source-Type`; `X-Error` appears iff the event was not classified, with status 500 |
| CompleteHandler.UnmatchedRecordFails | examples/complete-lambda-example/lambda_function.py:576-577 | A record from no known source makes unpacking the classification raise TypeError, which is answered 500 |
| CompleteHandler.ColdStartReported | examples/complete-lambda-example/lambda_function.py:606 | The body reports the cold-start flag, and so does `X-Cold-Start` on a 200 |
| CompleteHandler.LambdaProcess.Handle | examples/complete-lambda-example/lambda_function.py:547-549 | The first call in a process reports a cold start, and the flag is set afterwards |
| CompleteHandler.TwoInvocations | examples/complete-lambda-example/lambda_function.py:547-549 | In a fresh process the first invocation reports `true` and the second `false` |
| ObjectStore.ListingBounds | examples/s3-lambda/s3_processor_function.py:333-337 | A listing returns at most `MaxKeys` keys, each under the prefix, and is truncated iff more keys match |
| ObjectStore.ListingFailure | examples/s3-lambda/s3_processor_function.py:333-337 | Listing fails iff the bucket does not exist (or MaxKeys is negative) |
| ObjectStore.PutSpec | examples/s3-lambda/s3_processor_function.py:235-248 | `put_object` succeeds iff the bucket exists; it then stores exactly that object at that key and changes nothing else |
| ObjectStore.DeleteSpec | examples/s3-lambda/s3_processor_function.py:272-278 | `delete_object` succeeds iff the bucket exists, even for a missing key; it removes only that key |
| ObjectStore.DeleteManySpec | examples/s3-lambda/s3_processor_function.py:445-450 | `delete_objects` succeeds iff the bucket exists and 1..1000 keys are given; it removes exactly those keys from that bucket |
| ObjectStore.CopySpec | examples/s3-lambda/s3_processor_function.py:500-511 | `copy_object` succeeds iff the source exists and the target bucket exists; the target then holds the source's content and ETag, and nothing else changes |
| ObjectStore.RemoveSpec | examples/s3-lambda/s3_processor_function.py:445-450 | Removing a set of locations keeps the store consistent and the other objects unchanged |
| FileRules.DestinationKey | examples/s3-lambda/s3_processor_function.py:230-232 | Every destination key starts with `processed/` |
| FileRules.DestinationOfIncoming | examples/s3-lambda/s3_processor_function.py:230 | `incoming/name` maps to `processed/name` when the name does not contain the prefix again |
| FileRules.DestinationOfOther | examples/s3-lambda/s3_processor_function.py:230 | A key without the prefix keeps its name under `processed/` |
| FileRules.DestinationOfEmptyPrefix | examples/s3-lambda/s3_processor_function.py:230-232 | With an empty prefix the destination key is the key with `processed/` before every character and once at the end: `processed/` at every position 11i, the key's i-th character at 11i+10, `processed/` after the last one |
| FileRules.ReplaceEmptyLayout | examples/s3-lambda/s3_processor_function.py:230 | `replace('', 'processed/')` puts `processed/` before each character of the string and at its end, keeping every character |
| FileRules.TransformSpec | examples/s3-lambda/s3_processor_function.py:222-227 | The transform keeps the length, leaves non-text unchanged, leaves no ASCII lower-case letter in text, and is idempotent |
| FileRules.UpperBytes | examples/s3-lambda/s3_processor_function.py:223 | Each byte is upper-cased on its own |
| FileRules.HexDigit | examples/s3-lambda/s3_processor_function.py:85 | A hex digit's value is the value it was made from |
| FileRules.UnquoteQuotePlus | examples/s3-lambda/s3_processor_function.py:85 | For an ASCII key, `unquote_plus` inverts the encoding of keys in S3 event notifications (`quote_plus` with `/` kept as is) |
| FileRules.UnquoteQuoteChar | examples/s3-lambda/s3_processor_function.py:85 | One encoded character decodes to itself |
| FileRules.UnquotePlain | examples/s3-lambda/s3_processor_function.py:85 | A key without `%` or `+` is decoded to itself |
| FileRules.ClampMaxKeysSpec | examples/s3-lambda/s3_processor_function.py:329-331 | `max_keys` defaults to 10, is capped at 100 with `min`, and raises TypeError for a value `min` cannot compare |
| FileRules.StripQuotedETag | examples/s3-lambda/s3_processor_function.py:345 | Stripping the quotes off a stored ETag gives back the digest |
| FileRules.CandidatesSpec | examples/s3-lambda/s3_processor_function.py:435-437 | A key is selected iff its object was modified strictly before the cut-off; cutting the listing at any point cuts the selection there, so the keys come in listing order |
| FileRules.CandidatesSplit | examples/s3-lambda/s3_processor_function.py:435-437 | The selection from a listing is the selection from any prefix followed by that from the rest |
| FileRules.CandidatesAppend | examples/s3-lambda/s3_processor_function.py:435-437 | Selecting from two listings one after the other is selecting from each in turn |
| FileRules.DaysOldSpec | examples/s3-lambda/s3_processor_function.py:422-433 | `days_old` defaults to 7 and an integer is taken as is; a value that is neither a number nor a boolean raises TypeError, and an integer whose seconds reach 2^1024 - 2^970 in magnitude raises OverflowError when the cutoff converts it to a float |
| FileRules.SmallDaysFit | examples/s3-lambda/s3_processor_function.py:433 | Any day count up to 2^64 in magnitude converts to a float without overflow |
| FileRules.CutoffIsStrict | examples/s3-lambda/s3_processor_function.py:436 | An object modified exactly at the cut-off is kept |
| FileRules.CollectCandidates | examples/s3-lambda/s3_processor_function.py:433-437 | The loop collects exactly the selected keys |
| FileRules.BatchesFlatten | examples/s3-lambda/s3_processor_function.py:442-443 | The batches, concatenated, are the keys in order |
| FileRules.BatchesSize | examples/s3-lambda/s3_processor_function.py:442-443 | Each batch holds 1..1000 keys, and there are ceil(n/1000) of them |
| FileRules.Preview | examples/s3-lambda/s3_processor_function.py:463-464 | The reported files are the first ten candidates, or all of them when there are fewer |
| FileRules.ProbeStatus | examples/s3-lambda/s3_processor_function.py:541-562 | A probe reports `healthy` iff it succeeded, and otherwise a status starting with `error` |
| FileRules.CheckAllHealthy | examples/s3-lambda/s3_processor_function.py:565-567 | The loop decides whether every status that is not an error status is `healthy` |
| FileRules.HealthAggregation | examples/s3-lambda/s3_processor_function.py:565-571 | The result is degraded iff some status is neither `healthy` nor an `error...` status; failed probes are skipped, so adding one never changes the result, while an `unknown` status degrades it |
| FileRules.UnknownIsNoError | examples/s3-lambda/s3_processor_function.py:564 | `unknown` is not an error status, so the aggregation does not skip it |
| S3Processor.ProcessFileSpec | examples/s3-lambda/s3_processor_function.py:206-259 | Processing succeeds iff the source object exists, the metadata (source bucket, key, environment) is US-ASCII and the destination bucket exists; non-ASCII metadata is rejected by the client; it then writes the transformed object at the destination key, reports the original's size, type and time, and changes nothing else; a failure leaves the store as it was |
| S3Processor.HandleDeletionSpec | examples/s3-lambda/s3_processor_function.py:262-285 | The processed copy is removed when the destination bucket exists; a failed delete is reported, not raised; no other object changes |
| S3Processor.ParseRecordSpec | examples/s3-lambda/s3_processor_function.py:82-86 | A record's URL-encoded key decodes to the original key when that key is ASCII; a non-dict record raises TypeError and a missing `s3` raises KeyError |
| S3Processor.RecordStepSpec | examples/s3-lambda/s3_processor_function.py:81-102 | A record is ignored iff it parses and its event is neither `ObjectCreated` nor `ObjectRemoved`, leaving the store unchanged; a malformed record becomes an error entry |
| S3Processor.RunRecordsSpec | examples/s3-lambda/s3_processor_function.py:81-102 | Every record that is not skipped yields exactly one result or one error, so results plus errors plus skipped records equal the records; every record that fails to parse is among the errors; the store stays consistent and keeps its buckets |
| S3Processor.RunRecordsAppend | examples/s3-lambda/s3_processor_function.py:81-102 | A failing record does not stop the loop: the records after a prefix run from the store the prefix left, and the tallies concatenate in order |
| S3Processor.S3EventSpec | examples/s3-lambda/s3_processor_function.py:75-120 | The event answers 200 without errors and 207 with errors; for a list of records, results plus errors plus skipped records equal the records and every unparsable record is an error; a string of records gives one error per character and no change; a number, boolean or null raises |
| S3Processor.RunFilesSpec | examples/s3-lambda/s3_processor_function.py:391-398 | Every key yields exactly one result or one error; a bucket that is not a name writes nothing |
| S3Processor.ProcessBatchSpec | examples/s3-lambda/s3_processor_function.py:373-416 | `total_files` counts results plus errors; 207 iff some failed; without `file_keys` at most 50 pending files are taken |
| S3Processor.DefaultProcessingSpec | examples/s3-lambda/s3_processor_function.py:159-203 | Default processing fails iff the source bucket is missing; otherwise it answers 200 with at most ten objects found and no more results than that |
| S3Processor.ListObjectsSpec | examples/s3-lambda/s3_processor_function.py:326-370 | At most `max_keys` (and at most 100) objects are listed, all under the prefix, with quotes stripped from their ETags |
| S3Processor.DeleteBatchesSpec | examples/s3-lambda/s3_processor_function.py:440-450 | Deleting the batches one after another removes exactly the listed keys of that bucket and counts them |
| S3Processor.ListedKeysStored | examples/s3-lambda/s3_processor_function.py:427-437 | Every selected key names a stored object of the destination bucket |
| S3Processor.CleanSpec | examples/s3-lambda/s3_processor_function.py:419-472 | The keys found are exactly the `Candidates` of the `processed/` listing at the cutoff; a dry run (the default) deletes nothing; otherwise exactly those keys are deleted and counted; at most 1000 are considered |
| S3Processor.CopyFileSpec | examples/s3-lambda/s3_processor_function.py:475-530 | A missing `source_key` answers 400 and changes nothing; the destination defaults to the source key in the destination bucket; a non-ASCII source key is rejected by the client; on 200 the source bucket and key are US-ASCII, the destination holds the source's content and every other location is unchanged |
| S3Processor.HealthCheckSpec | examples/s3-lambda/s3_processor_function.py:533-592 | 200 iff healthy, otherwise 503; without a deployment bucket its probe stays `unknown` and the answer is 503; with one configured the answer is 200, since failed probes are skipped |
| S3Processor.ManualActionSpec | examples/s3-lambda/s3_processor_function.py:123-156 | Actions are case-insensitive; an action outside the six gives 400 with the list of valid actions, and only then; a non-string action raises |
| S3Processor.RunActionFrame | examples/s3-lambda/s3_processor_function.py:126-139 | What an action does depends only on the other fields of the event |
| S3Processor.HandlerSpec | examples/s3-lambda/s3_processor_function.py:27-72 | `Records` routes to the S3 event handler, otherwise `action` to the manual action, otherwise the default run; the answer is the routed handler's when it returns, and an escaping exception is answered 500 with the function's identity |
| S3Handlers.ProcessUploadedFile | examples/s3-lambda/s3_processor_function.py:206-259 | The boto3 call sequence computes the response and store that `ProcessFile` specifies |
| S3Handlers.HandleFileDeletion | examples/s3-lambda/s3_processor_function.py:262-285 | The deletion computes what `HandleDeletion` specifies |
| S3Handlers.HandleRecord | examples/s3-lambda/s3_processor_function.py:81-102 | One iteration of the record loop computes what `RecordStep` specifies |
| S3Handlers.HandleS3Event | examples/s3-lambda/s3_processor_function.py:75-120 | The record loop, one `HandleRecord` per record, computes what `S3Event` specifies |
| S3Handlers.ProcessFiles | examples/s3-lambda/s3_processor_function.py:391-398 | The file loop computes what `RunFiles` specifies |
| S3Handlers.ProcessBatchFiles | examples/s3-lambda/s3_processor_function.py:373-416 | The batch handler computes what `ProcessBatch` specifies |
| S3Handlers.ProcessPending | examples/s3-lambda/s3_processor_function.py:173-178 | The loop over the listed objects computes the results and the store that `RunFiles` specifies, skipping failures |
| S3Handlers.HandleDefaultProcessing | examples/s3-lambda/s3_processor_function.py:159-203 | The listing followed by `ProcessPending` computes what `DefaultProcessing` specifies |
| S3Handlers.ListAllBuckets | examples/s3-lambda/s3_processor_function.py:288-323 | Answers 200 with exactly the store's buckets |
| S3Handlers.ListBucketObjects | examples/s3-lambda/s3_processor_function.py:326-370 | The listing computes what `ListObjects` specifies |
| S3Handlers.DeleteNextBatch | examples/s3-lambda/s3_processor_function.py:442-450 | One `delete_objects` call of the batch loop advances by one batch of at most 1000 keys and counts it, or stops the run with the call's fault |
| S3Handlers.DeleteInBatches | examples/s3-lambda/s3_processor_function.py:440-450 | The batch loop, one `DeleteNextBatch` per batch, computes what `DeleteBatches` over the 1000-key batches specifies |
| S3Handlers.CleanupProcessedFiles | examples/s3-lambda/s3_processor_function.py:419-472 | The cleanup computes what `Cleanup` specifies |
| S3Handlers.CopyFileBetweenBuckets | examples/s3-lambda/s3_processor_function.py:475-530 | The copy computes what `CopyFile` specifies |
| S3Handlers.PerformHealthCheck | examples/s3-lambda/s3_processor_function.py:533-592 | The probes and the aggregation loop compute `HealthCheck`, answering 200 iff no status other than a failed probe is anything but `healthy` |
| S3Handlers.HandleManualAction | examples/s3-lambda/s3_processor_function.py:123-156 | The dispatch computes what `ManualAction` specifies |
| S3Handlers.LambdaHandler | examples/s3-lambda/s3_processor_function.py:27-72 | The entry point computes what `Handler` specifies |

## Left out

- Amazon S3 is modelled as a store value. Bucket-name syntax checks that botocore makes are folded into "no such bucket". A non-string or empty name, or user metadata that is not US-ASCII (`put_object` and `copy_object`), raises a parameter-validation error.
- Listings come back in insertion order, not in the lexicographic key order that S3 uses.
- Object metadata, tagging and ISO-8601 timestamps are not modelled; times are integers in seconds.
- S3Handlers.ProcessUploadedFile: `head_object` and `get_object` are one read, because nothing changes the object between them in this model.
- Error messages (`str(e)`) are not modelled; an error is its exception type or a service fault.
- JSON serialisation (`json.dumps` of bodies) is left out. Decoding (`json.loads`) is the `parse` input of the API Gateway handler.
- `send_custom_metric`, logging and timing are left out. The elapsed time is the `elapsedMs` input.
- `test_vpc_connectivity` opens sockets and reads the network configuration, so its report is the `vpcReport` input.
- The S3, SNS and SQS record handlers of the complete example (`handle_s3_event`, `handle_sns_event`, `handle_sqs_event` at `lambda_function.py:230-358`) call AWS services. They are the `recordHandler` input.
- The `socket.connect_ex` probe of the database test is the `connect` input. The AWS calls of `test_all_permissions` and `get_ssm_parameters` are the `CallOutcome` and `ssmResponse` inputs.
- FileRules.Transform: `decode('utf-8').upper()` is modelled on ASCII only. Other bytes pass through unchanged. Invalid UTF-8 is not modelled; it would raise `UnicodeDecodeError`.
- FileRules.UnquotePlus: a `%XX` escape of 128 or more is kept literally. The decoder does not model multi-byte UTF-8 sequences or replacement characters.
- S3Processor.BatchKeys: a dict `file_keys` raises TypeError in the model. Python would iterate its keys.
- S3Processor.S3Event: a dict of records yields one TypeError per key; which key each error came from is not recorded.
- FileRules.ClampMaxKeys: a boolean `max_keys` is taken as 0 or 1; how botocore would send a boolean `MaxKeys` is not modelled.
- PyText.Lower: lower-cases ASCII letters only. Python's `str.lower` also maps other letters, such as the Kelvin sign or the `É` of `ÉTAT`, so such actions are not matched case-insensitively here.
- PyText.ParseInt: accepts ASCII digits only. Python's `int()` also accepts other Unicode decimal digits, such as full-width `５４３２`.
- S3Processor.Handler: the Lambda payload is a JSON object. A payload that is a list, a string or a number is not modelled; `CompleteHandler` likewise takes an object only.
- Json.JNum: numbers are integers, so a fractional value such as `days_old: 1.5` cannot be expressed.
- Diagnostics.DirectSpec: `test_all_features` calls `get_ssm_parameters` twice (`lambda_function.py:216` and `:453`). Both calls are answered by the one `ssmResponse` input, so two different answers are not modelled.
- The module-level `__main__` test blocks and the other example functions of the repository are not part of this model.
