/**
 * The direct-invocation diagnostics of the complete Lambda example: the
 * database endpoint parse and port probe (`test_database_connection`),
 * the SSM parameter listing (`get_ssm_parameters`), the permission probes
 * (`test_all_permissions`), the synthetic CPU workload of
 * `performance_test`, and the action dispatch of
 * `handle_direct_invocation`. Every AWS or network call is an input.
 */
module Diagnostics {
  import opened Wrappers
  import opened Json
  import opened PyText

  // ---------------------------------------------------------------------
  // test_database_connection

  datatype Endpoint = Endpoint(host: string, port: int)

  const DefaultPort: int := 5432

  lemma FindChar(s: string, c: char)
    ensures c in s <==> Find(s, [c]).Some?
    ensures Find(s, [c]).Some? ==> s[Find(s, [c]).value] == c
  {
    FindLeftmost(s, [c]);
    var f := Find(s, [c]);
    if f.Some? {
      assert s[f.value..][0] == s[f.value];
    }
  }

  /**
   * The host is everything before the first `:`; when there is a `:`, the
   * port is `int()` of the text between the first and the second `:`
   * (`ValueError` when that is not a number), otherwise 5432.
   */
  function ParseEndpoint(e: string): Result<Endpoint, PyError>
  {
    FindChar(e, ':');
    var fields := Split(e, ":");
    if ':' in e then
      match ParseInt(fields[1])
      case None => Err(ValueError)
      case Some(p) => Ok(Endpoint(fields[0], p))
    else Ok(Endpoint(fields[0], DefaultPort))
  }

  lemma FindAfterField(a: string, b: string, c: char)
    requires c !in a && (b == [] || b[0] == c)
    ensures Find(a + b, [c]) == if b == [] then None else Some(|a|)
  {
    FindLeftmost(a + b, [c]);
    if b == [] {
      assert a + b == a;
      FindChar(a, c);
    } else {
      assert (a + b)[|a|..][..1] == [c];
      FindChar(a + b, c);
    }
  }

  /** The first field of the split, and the rest after the separator. */
  lemma SplitAtFirst(a: string, b: string, c: char)
    requires c !in a && (b == [] || b[0] == c)
    ensures Split(a + b, [c])[0] == a
    ensures b != [] ==> Split(a + b, [c]) == [a] + Split(b[1..], [c])
  {
    FindAfterField(a, b, c);
    if b == [] {
      assert a + b == a;
    } else {
      assert (a + b)[..|a|] == a;
      assert (a + b)[|a| + 1..] == b[1..];
    }
  }

  /** `host:field[:...]` splits into `host`, `field`, and possibly more. */
  lemma SplitEndpoint(e: string, host: string, field: string, rest: string)
    requires e == host + [':'] + field + rest
    requires ':' !in host && ':' !in field
    requires rest == [] || rest[0] == ':'
    ensures ':' in e
    ensures |Split(e, ":")| >= 2 && Split(e, ":")[0] == host && Split(e, ":")[1] == field
  {
    var tail := [':'] + field + rest;
    assert e == host + tail && e[|host|] == ':';
    assert tail[1..] == field + rest;
    SplitAtFirst(host, tail, ':');
    SplitAtFirst(field, rest, ':');
  }

  /**
   * `host:port[:anything]` parses to the host and the port, whatever
   * follows a second `:`; and a port field that `int()` rejects yields
   * `ValueError`, never a partial result.
   */
  lemma EndpointWithPort(host: string, field: string, rest: string)
    requires ':' !in host && ':' !in field
    requires rest == [] || rest[0] == ':'
    ensures ParseInt(field).Some? ==>
      ParseEndpoint(host + ":" + field + rest) == Ok(Endpoint(host, ParseInt(field).value))
    ensures ParseInt(field).None? ==> ParseEndpoint(host + ":" + field + rest) == Err(ValueError)
  {
    SplitEndpoint(host + ":" + field + rest, host, field, rest);
  }

  /** The decimal rendering of a port parses back: `host:<n>` gives `n`. */
  lemma EndpointRoundTrip(host: string, port: nat)
    requires ':' !in host
    ensures ParseEndpoint(host + ":" + Decimal(port)) == Ok(Endpoint(host, port))
  {
    var d := Decimal(port);
    assert ':' !in d;
    ParseDecimal(port);
    EndpointWithPort(host, d, []);
    assert host + ":" + d + [] == host + ":" + d;
  }

  /** What `socket.connect_ex` does: an errno, or an exception such as `gaierror`. */
  datatype ConnectOutcome = ErrorCode(code: int) | ConnectRaised(message: string)

  datatype DbFailure = InvalidPort | PortOutOfRange(port: int) | SocketFailed(message: string)

  datatype DbTest =
    | PortReachable(endpoint: string, dbName: string)
    | PortUnreachable(endpoint: string, errorCode: int)
    | TestFailed(endpoint: string, failure: DbFailure)
  {
    /** The `success` field of the report. */
    predicate Success() { PortReachable? }
  }

  /**
   * `test_database_connection()`; `connect` stands for the socket probe.
   * A port outside 0..65535 makes `connect_ex` raise `OverflowError`.
   */
  function DatabaseTest(env: map<string, string>, connect: (string, int) -> ConnectOutcome): DbTest
  {
    var endpoint := EnvGet(env, "DB_ENDPOINT", "${db_endpoint}");
    var dbName := EnvGet(env, "DB_NAME", "lambdadb");
    match ParseEndpoint(endpoint)
    case Err(_) => TestFailed(endpoint, InvalidPort)
    case Ok(ep) =>
      if !(0 <= ep.port <= 65535) then TestFailed(endpoint, PortOutOfRange(ep.port))
      else
        match connect(ep.host, ep.port)
        case ConnectRaised(m) => TestFailed(endpoint, SocketFailed(m))
        case ErrorCode(code) =>
          if code == 0 then PortReachable(endpoint, dbName) else PortUnreachable(endpoint, code)
  }

  /**
   * The database test reports success exactly when the endpoint parses to
   * a valid port and the probe of that host and port returns 0; a
   * malformed port is reported as a failure, never raised.
   */
  lemma DatabaseTestSuccess(env: map<string, string>, connect: (string, int) -> ConnectOutcome)
    ensures var e := EnvGet(env, "DB_ENDPOINT", "${db_endpoint}");
      DatabaseTest(env, connect).Success() <==>
        ParseEndpoint(e).Ok? && 0 <= ParseEndpoint(e).value.port <= 65535 &&
        connect(ParseEndpoint(e).value.host, ParseEndpoint(e).value.port) == ErrorCode(0)
    ensures var e := EnvGet(env, "DB_ENDPOINT", "${db_endpoint}");
      ParseEndpoint(e).Err? ==> DatabaseTest(env, connect) == TestFailed(e, InvalidPort)
    ensures DatabaseTest(env, connect).endpoint == EnvGet(env, "DB_ENDPOINT", "${db_endpoint}")
  {
  }

  // ---------------------------------------------------------------------
  // get_ssm_parameters

  datatype SsmParam = SsmParam(name: string, value: string, paramType: string, lastModified: string)

  datatype SsmEntry = SsmEntry(value: string, paramType: string, lastModified: string)

  const Encrypted: string := "[ENCRYPTED]"

  function FunctionName(env: map<string, string>): string
  {
    EnvGet(env, "AWS_LAMBDA_FUNCTION_NAME", "complete-lambda-example")
  }

  /** The parameter's key: its name with every `/{function_name}/` removed. */
  function ParamKey(p: SsmParam, functionName: string): string
  {
    Replace(p.name, "/" + functionName + "/", "")
  }

  /** The reported entry: the value is masked exactly for `SecureString`. */
  function EntryOf(p: SsmParam): SsmEntry
  {
    SsmEntry(if p.paramType == "SecureString" then Encrypted else p.value, p.paramType, p.lastModified)
  }

  /** The dictionary built by the loop over the parameters: later ones overwrite earlier ones. */
  function SsmMapping(ps: seq<SsmParam>, functionName: string): map<string, SsmEntry>
  {
    if ps == [] then map[]
    else
      var last := ps[|ps| - 1];
      SsmMapping(ps[..|ps| - 1], functionName)[ParamKey(last, functionName) := EntryOf(last)]
  }

  /**
   * `get_ssm_parameters()`: `response` is what `get_parameters_by_path`
   * returned, `None` when it raised; any failure gives `{}`.
   */
  method GetSsmParameters(functionName: string, response: Option<seq<SsmParam>>)
    returns (parameters: map<string, SsmEntry>)
    ensures response.None? ==> parameters == map[]
    ensures response.Some? ==> parameters == SsmMapping(response.value, functionName)
  {
    parameters := map[];
    if response.None? {
      return;
    }
    var ps := response.value;
    for i := 0 to |ps|
      invariant parameters == SsmMapping(ps[..i], functionName)
    {
      assert ps[..i + 1][..i] == ps[..i];
      parameters := parameters[ParamKey(ps[i], functionName) := EntryOf(ps[i])];
    }
    assert ps[..|ps|] == ps;
  }

  /** The keys of the mapping are exactly the keys of the parameters. */
  lemma {:induction false} SsmMappingKeys(ps: seq<SsmParam>, functionName: string, k: string)
    ensures k in SsmMapping(ps, functionName) <==>
      exists i :: 0 <= i < |ps| && ParamKey(ps[i], functionName) == k
  {
    if ps != [] {
      var init := ps[..|ps| - 1];
      SsmMappingKeys(init, functionName, k);
      if k in SsmMapping(ps, functionName) && ParamKey(ps[|ps| - 1], functionName) != k {
        var i :| 0 <= i < |init| && ParamKey(init[i], functionName) == k;
        assert ps[i] == init[i];
      }
      if exists i :: 0 <= i < |ps| && ParamKey(ps[i], functionName) == k {
        var i :| 0 <= i < |ps| && ParamKey(ps[i], functionName) == k;
        if i < |ps| - 1 {
          assert init[i] == ps[i];
        }
      }
    }
  }

  /**
   * Each key carries the entry of the LAST parameter with that key, so a
   * value is reported as `[ENCRYPTED]` exactly when that parameter is a
   * `SecureString`, and as the parameter's own value otherwise.
   */
  lemma {:induction false} SsmMappingLastWins(ps: seq<SsmParam>, functionName: string, i: nat)
    requires i < |ps|
    requires forall j :: i < j < |ps| ==> ParamKey(ps[j], functionName) != ParamKey(ps[i], functionName)
    ensures ParamKey(ps[i], functionName) in SsmMapping(ps, functionName)
    ensures SsmMapping(ps, functionName)[ParamKey(ps[i], functionName)] == EntryOf(ps[i])
  {
    if i < |ps| - 1 {
      var init := ps[..|ps| - 1];
      assert init[i] == ps[i];
      forall j | i < j < |init| ensures ParamKey(init[j], functionName) != ParamKey(init[i], functionName) {
        assert init[j] == ps[j];
      }
      SsmMappingLastWins(init, functionName, i);
    }
  }

  /** A stored entry's value is masked exactly when its type is `SecureString`. */
  lemma EntryMasking(p: SsmParam)
    ensures EntryOf(p).paramType == p.paramType
    ensures p.paramType == "SecureString" ==> EntryOf(p).value == Encrypted
    ensures p.paramType != "SecureString" ==> EntryOf(p).value == p.value
  {
  }

  /**
   * A name under the function's path keeps only the part after it,
   * provided the path does not occur again in that part.
   */
  lemma ParamKeyStripsPath(functionName: string, rest: string, value: string, t: string, lm: string)
    requires Find(rest, "/" + functionName + "/").None?
    ensures ParamKey(SsmParam("/" + functionName + "/" + rest, value, t, lm), functionName) == rest
  {
    var path := "/" + functionName + "/";
    var name := path + rest;
    assert name[..|path|] == path;
    assert name[|path|..] == rest;
    ReplaceLeading(name, path, "");
    ReplaceWithoutOccurrence(rest, path, "");
  }

  // ---------------------------------------------------------------------
  // test_all_permissions

  datatype Probe = Probe(status: string, message: string)

  function ProbeOf(outcome: CallOutcome, working: string): Probe
  {
    match outcome
    case Succeeded => Probe("success", working)
    case Raised(m) => Probe("error", m)
  }

  /** The dictionary `test_all_permissions` returns. */
  function PermissionReport(s3: CallOutcome, sns: CallOutcome, sqs: CallOutcome, ssmCount: nat): map<string, Probe>
  {
    map[
      "s3" := ProbeOf(s3, "S3 access working"),
      "sns" := ProbeOf(sns, "SNS access working"),
      "sqs" := ProbeOf(sqs, "SQS access working"),
      "ssm" := Probe("success", "SSM access working, found " + Decimal(ssmCount) + " parameters"),
      "cloudwatch" := Probe("success", "CloudWatch metrics access working")]
  }

  /**
   * `test_all_permissions()`: one probe per service, assigned in turn.
   * The SSM and CloudWatch probes call helpers that swallow their own
   * failures, so those two entries always report success.
   */
  method TestAllPermissions(s3: CallOutcome, sns: CallOutcome, sqs: CallOutcome,
                            functionName: string, ssm: Option<seq<SsmParam>>)
    returns (results: map<string, Probe>)
    ensures results.Keys == {"s3", "sns", "sqs", "ssm", "cloudwatch"}
    ensures results["s3"].status == "success" <==> s3.Succeeded?
    ensures results["sns"].status == "success" <==> sns.Succeeded?
    ensures results["sqs"].status == "success" <==> sqs.Succeeded?
    ensures results["ssm"].status == "success" && results["cloudwatch"].status == "success"
    ensures results == PermissionReport(s3, sns, sqs, |GetParametersSpec(functionName, ssm)|)
  {
    results := map[];
    results := results["s3" := ProbeOf(s3, "S3 access working")];
    results := results["sns" := ProbeOf(sns, "SNS access working")];
    results := results["sqs" := ProbeOf(sqs, "SQS access working")];
    var parameters := GetSsmParameters(functionName, ssm);
    results := results["ssm" := Probe("success", "SSM access working, found " + Decimal(|parameters|) + " parameters")];
    results := results["cloudwatch" := Probe("success", "CloudWatch metrics access working")];
  }

  /** What `GetSsmParameters` returns, as a function for use in specifications. */
  function GetParametersSpec(functionName: string, response: Option<seq<SsmParam>>): map<string, SsmEntry>
  {
    if response.None? then map[] else SsmMapping(response.value, functionName)
  }

  // ---------------------------------------------------------------------
  // performance_test

  /** `sum(i * i for i in range(n))`. */
  function SquareSum(n: nat): nat
  {
    if n == 0 then 0 else SquareSum(n - 1) + (n - 1) * (n - 1)
  }

  /** The inductive step of the closed form, with `m = n - 1`. */
  lemma SquareSumStep(m: int)
    ensures (m - 1) * m * (2 * m - 1) + 6 * (m * m) == m * (m + 1) * (2 * m + 1)
  {
    calc {
      (m - 1) * m * (2 * m - 1) + 6 * (m * m);
      m * ((m - 1) * (2 * m - 1)) + m * (6 * m);
      m * ((m - 1) * (2 * m - 1) + 6 * m);
      { assert (m - 1) * (2 * m - 1) == 2 * m * m - 3 * m + 1; }
      m * (2 * m * m + 3 * m + 1);
      { assert (m + 1) * (2 * m + 1) == 2 * m * m + 3 * m + 1; }
      m * ((m + 1) * (2 * m + 1));
    }
  }

  lemma {:induction false} SquareSumClosedForm(n: nat)
    ensures 6 * SquareSum(n) == (n - 1) * n * (2 * n - 1)
  {
    if n > 0 {
      SquareSumClosedForm(n - 1);
      SquareSumStep(n - 1);
    }
  }

  /** The CPU workload's result is the sum of the first 10000 squares. */
  lemma PerformanceResult()
    ensures SquareSum(10000) == 333283335000
  {
    SquareSumClosedForm(10000);
  }

  method SumOfSquares(n: nat) returns (total: nat)
    ensures total == SquareSum(n)
  {
    total := 0;
    for i := 0 to n
      invariant total == SquareSum(i)
    {
      total := total + i * i;
    }
  }

  // ---------------------------------------------------------------------
  // handle_direct_invocation

  /** Everything the diagnostics read from outside the function. */
  datatype Services = Services(
    env: map<string, string>,
    s3Probe: CallOutcome,
    snsProbe: CallOutcome,
    sqsProbe: CallOutcome,
    ssmResponse: Option<seq<SsmParam>>,
    connect: (string, int) -> ConnectOutcome,
    vpcReport: Json)

  const AvailableActions: seq<string> := [
    "test_all_features", "test_permissions", "test_vpc",
    "test_database", "get_ssm_parameters", "test_via_alias",
    "performance_test"]

  datatype DirectResult =
    | AllFeatures(permissions: map<string, Probe>, vpc: Json, database: DbTest, ssmParameters: map<string, SsmEntry>)
    | PermissionsTest(results: map<string, Probe>)
    | VpcTest(vpcResults: Json)
    | DatabaseTestResult(dbResults: DbTest)
    | SsmParameters(parameters: map<string, SsmEntry>)
    | AliasTest
    | PerformanceTest(cpuResult: int)
    | DirectProcessed(action: Json, availableActions: seq<string>)

  /** The SSM parameters of this function, as `get_ssm_parameters()` reports them. */
  function SsmReport(svc: Services): map<string, SsmEntry>
  {
    GetParametersSpec(FunctionName(svc.env), svc.ssmResponse)
  }

  /** The permission probes, as `test_all_permissions()` reports them. */
  function Permissions(svc: Services): map<string, Probe>
  {
    PermissionReport(svc.s3Probe, svc.snsProbe, svc.sqsProbe, |SsmReport(svc)|)
  }

  /** What `handle_direct_invocation(event)` returns. */
  function DirectSpec(event: map<string, Json>, svc: Services): DirectResult
  {
    var action := GetOr(event, "action", JStr("default"));
    if action == JStr("test_all_features") then
      AllFeatures(Permissions(svc), svc.vpcReport, DatabaseTest(svc.env, svc.connect), SsmReport(svc))
    else if action == JStr("test_permissions") then PermissionsTest(Permissions(svc))
    else if action == JStr("test_vpc") then VpcTest(svc.vpcReport)
    else if action == JStr("test_database") then DatabaseTestResult(DatabaseTest(svc.env, svc.connect))
    else if action == JStr("get_ssm_parameters") then SsmParameters(SsmReport(svc))
    else if action == JStr("test_via_alias") then AliasTest
    else if action == JStr("performance_test") then PerformanceTest(333283335000)
    else DirectProcessed(action, AvailableActions)
  }

  /**
   * Any action outside the seven named ones is echoed back with exactly
   * the seven available actions; each named one gets its own report.
   */
  lemma DirectDispatch(event: map<string, Json>, svc: Services)
    ensures var action := GetOr(event, "action", JStr("default"));
      (forall a :: a in AvailableActions ==> action != JStr(a)) <==>
        DirectSpec(event, svc) == DirectProcessed(action, AvailableActions)
    ensures |AvailableActions| == 7
  {
  }

  /** `handle_direct_invocation(event)`. */
  method HandleDirectInvocation(event: map<string, Json>, svc: Services) returns (r: DirectResult)
    ensures r == DirectSpec(event, svc)
  {
    var action := GetOr(event, "action", JStr("default"));
    var fn := FunctionName(svc.env);
    if action == JStr("test_all_features") {
      var permissions := TestAllPermissions(svc.s3Probe, svc.snsProbe, svc.sqsProbe, fn, svc.ssmResponse);
      var parameters := GetSsmParameters(fn, svc.ssmResponse);
      r := AllFeatures(permissions, svc.vpcReport, DatabaseTest(svc.env, svc.connect), parameters);
    } else if action == JStr("test_permissions") {
      var permissions := TestAllPermissions(svc.s3Probe, svc.snsProbe, svc.sqsProbe, fn, svc.ssmResponse);
      r := PermissionsTest(permissions);
    } else if action == JStr("test_vpc") {
      r := VpcTest(svc.vpcReport);
    } else if action == JStr("test_database") {
      r := DatabaseTestResult(DatabaseTest(svc.env, svc.connect));
    } else if action == JStr("get_ssm_parameters") {
      var parameters := GetSsmParameters(fn, svc.ssmResponse);
      r := SsmParameters(parameters);
    } else if action == JStr("test_via_alias") {
      r := AliasTest;
    } else if action == JStr("performance_test") {
      var total := SumOfSquares(10000);
      PerformanceResult();
      r := PerformanceTest(total);
    } else {
      r := DirectProcessed(action, AvailableActions);
    }
  }
}
