/**
 * The container-worker generator (scripts/generate-worker-infra.py): `generate_worker_terraform`
 * renders the Terraform of one queue-driven ECS service from its parsed `service.yaml`.
 *
 * As for the serverless generator, the text is modelled as the sequence of blocks it declares,
 * each carrying its identifier, the names and settings the generator interpolates into it and
 * the references the model tracks (not every reference of the text).
 */
module WorkerInfra {
  import opened Wrappers
  import opened Strings
  import opened Yaml
  import opened Config
  import opened Terraform

  /** One entry of the container's `secrets` list. */
  datatype ContainerSecret = ContainerSecret(name: string, valueFrom: string)

  /** The CloudWatch alarms a worker can get. */
  datatype AlarmKind =
    | ScaleUpAlarm | ScaleDownAlarm | CpuAlarm | MemoryAlarm | TaskFailureAlarm | QueueDepthAlarm

  /** The Terraform type of a block whose only settings are names and references. */
  datatype Kind =
    | StateBackend | CallerIdentityData | EcrRepositoryData | EcrLifecyclePolicy | AwsProvider | CoreRemoteState
    | SqsQueue | SqsQueuePolicy | SqsRedrivePolicy | SecurityGroup | IamRole | IamRolePolicyAttachment
    | IamRolePolicy | LogGroup | RandomId | SecretsManagerSecret | SecretsManagerSecretVersion

  /**
   * The blocks of the worker's `main.tf`, in the order they appear. A `Declared` block carries its
   * identifier, the one name or value the generator writes into it (empty when there is none) and
   * the identifiers of the blocks it references that the model tracks.
   */
  datatype Block =
    | Declared(kind: Kind, id: string, text: string, refs: seq<string>)
    | TaskDefinition(id: string, family: string, cpu: Value, memory: Value,
                     environment: seq<(string, OutputValue)>, secrets: seq<ContainerSecret>)
    | EcsService(id: string, serviceName: string, taskId: string, desiredCount: Value,
                 maximumPercent: Value, minimumHealthyPercent: Value)
    | ScalingTarget(id: string, maxCapacity: Value, minCapacity: int)
    | ScalingPolicy(id: string, policyName: string, cooldown: int, adjustment: int)
    | Alarm(alarm: AlarmKind, id: string, alarmName: string, threshold: Value, policyId: Option<string>)
    | Output(id: string, value: OutputValue)

  predicate IsSecret(b: Block) {
    b.Declared? && b.kind == SecretsManagerSecret
  }

  predicate IsSecretVersion(b: Block) {
    b.Declared? && b.kind == SecretsManagerSecretVersion
  }

  // ---------------------------------------------------------------------------
  // Fixed identifiers and name parts of the rendered file

  const ExecutionRoleId := "execution_role"
  const TaskRoleId := "task_role"
  const SecretsSuffix := "_secrets"
  const ScaleUpPolicySuffix := "_scale_up_policy"
  const ScaleDownPolicySuffix := "_scale_down_policy"
  const SecretArnOpen := "${aws_secretsmanager_secret."
  const SecretArnClose := ".arn}:"
  const CpuMetricName := "cpu_utilization"
  const MemoryMetricName := "memory_utilization"

  // ---------------------------------------------------------------------------
  // Circuit breaker (lines 27-29) and queue-depth threshold (line 698)

  /** `scaling.get('circuit_breaker', {})` unpacked by `{**...}`, which fails on anything but a mapping. */
  function BreakerOf(scaling: map<string, Value>): (r: Result<map<string, Value>, ConfigError>)
    ensures "circuit_breaker" !in scaling ==> r == Ok(map[])
    ensures "circuit_breaker" in scaling ==> (r.Ok? <==> scaling["circuit_breaker"].Dict?)
    ensures r.Ok? && "circuit_breaker" in scaling ==> r.value == scaling["circuit_breaker"].entries
  {
    if "circuit_breaker" !in scaling then Ok(map[])
    else match scaling["circuit_breaker"]
      case Dict(m) => Ok(m)
      case _ => Err(NotAMapping("circuit_breaker"))
  }

  /** `circuit_breaker.get('enabled')` taken as a condition. */
  predicate BreakerEnabled(breaker: map<string, Value>) {
    Truthy(Get(breaker, "enabled", Null))
  }

  /**
   * The queue-depth alarm's threshold, `scaling.get('target_value', 5) * 2`, which is evaluated
   * only when the breaker is enabled; `None` when the alarms are not emitted.
   */
  function QueueDepth(breaker: map<string, Value>, scaling: map<string, Value>): (r: Result<Option<Value>, ConfigError>)
    ensures r.Ok? && r.value.Some? <==> BreakerEnabled(breaker) && Times2(Get(scaling, "target_value", Int(5))).Some?
    ensures !BreakerEnabled(breaker) ==> r == Ok(None)
    ensures r.Ok? && r.value.Some? ==> Times2(Get(scaling, "target_value", Int(5))) == r.value
    ensures r.Err? <==> BreakerEnabled(breaker) && Times2(Get(scaling, "target_value", Int(5))).None?
    ensures r.Err? ==> r.error == CannotDouble(Get(scaling, "target_value", Int(5)))
  {
    if !BreakerEnabled(breaker) then Ok(None)
    else
      var t := Get(scaling, "target_value", Int(5));
      match Times2(t)
      case Some(d) => Ok(Some(d))
      case None => Err(CannotDouble(t))
  }

  /** The queue-depth threshold reads `scaling` alone: `metrics` never affects it. */
  lemma QueueDepthIgnoresMetrics(breaker: map<string, Value>, scaling: map<string, Value>, metrics: Value)
    ensures QueueDepth(breaker, scaling["metrics" := metrics]) == QueueDepth(breaker, scaling)
  {
    assert Get(scaling["metrics" := metrics], "target_value", Int(5)) == Get(scaling, "target_value", Int(5));
  }

  /** With no `target_value` the queue-depth alarm fires above 10 messages. */
  lemma DefaultQueueDepth(breaker: map<string, Value>, scaling: map<string, Value>)
    requires BreakerEnabled(breaker) && "target_value" !in scaling
    ensures QueueDepth(breaker, scaling) == Ok(Some(Int(10)))
  {
  }

  /**
   * The breaker is merged key by key: an environment that sets `circuit_breaker` without
   * `enabled` keeps the base `enabled`, although the merged `scaling` section no longer holds it.
   */
  lemma BreakerKeepsBaseKeys(base: map<string, Value>, over: map<string, Value>, b: map<string, Value>, e: map<string, Value>)
    requires "circuit_breaker" in base && base["circuit_breaker"] == Dict(b)
    requires "circuit_breaker" in over && over["circuit_breaker"] == Dict(e)
    requires "enabled" in b && "enabled" !in e
    ensures BreakerOf(base) == Ok(b) && BreakerOf(over) == Ok(e)
    ensures Get(Override(b, e), "enabled", Null) == b["enabled"]
    ensures Override(base, over)["circuit_breaker"] == Dict(e)
    ensures "enabled" !in Override(base, over)["circuit_breaker"].entries
  {
  }

  // ---------------------------------------------------------------------------
  // Autoscaling settings (lines 490-491, 513, 533, 552, 577)

  /** The cooldowns and alarm thresholds of the step-scaling policies. */
  datatype Autoscaling = Autoscaling(scaleUpCooldown: int, scaleDownCooldown: int,
                                     scaleUpThreshold: Value, scaleDownThreshold: int)

  /**
   * `scaling.get('metrics', [{}])[0]` when `scaling.get('metrics')` is truthy, else `None`.
   * Indexing a truthy non-list, or calling `.get` on a first entry that is not a mapping, fails.
   */
  function FirstMetric(scaling: map<string, Value>): (r: Result<Option<map<string, Value>>, ConfigError>)
    ensures !Truthy(Get(scaling, "metrics", Null)) ==> r == Ok(None)
    ensures Truthy(Get(scaling, "metrics", Null)) ==>
      (r.Ok? <==> Get(scaling, "metrics", Null).List? && Get(scaling, "metrics", Null).items[0].Dict?)
    ensures r.Ok? && r.value.Some? ==>
      (Get(scaling, "metrics", Null).List? && Get(scaling, "metrics", Null).items != [] &&
       Get(scaling, "metrics", Null).items[0] == Dict(r.value.value))
  {
    var metrics := Get(scaling, "metrics", Null);
    if !Truthy(metrics) then Ok(None)
    else match metrics
      case List(items) => (if items[0].Dict? then Ok(Some(items[0].entries)) else Err(NotAMapping("metrics")))
      case _ => Err(NotAList("metrics"))
  }

  /** `int(T) // 2`: Python's floor division, which Dafny's `/` agrees with for a positive divisor. */
  function HalfThreshold(t: Value): (r: Result<int, ConfigError>)
    ensures r.Ok? <==> IntOf(t).Some?
    ensures r.Ok? ==> 2 * r.value <= IntOf(t).value < 2 * r.value + 2
  {
    match IntOf(t)
    case Some(i) => Ok(i / 2)
    case None => Err(NotAnInteger(t))
  }

  /**
   * The settings of the scaling policies and queue alarms. With a non-empty `metrics` list they
   * come from its first entry (`cooldown_up`, `cooldown_down`, `target_value`); otherwise from
   * `scaling` itself (`scale_up_cooldown`, `scale_down_cooldown`, `target_value`). The defaults are
   * `"30s"`, `"300s"` and 10; durations lose their trailing `s`s before `int`.
   */
  function Autoscale(scaling: map<string, Value>): (r: Result<Autoscaling, ConfigError>)
    ensures FirstMetric(scaling).Err? ==> r.Err?
    ensures r.Ok? ==> r.value.scaleUpCooldown >= 0 && r.value.scaleDownCooldown >= 0
    ensures r.Ok? ==> IntOf(r.value.scaleUpThreshold).Some?
    ensures r.Ok? ==>
      2 * r.value.scaleDownThreshold <= IntOf(r.value.scaleUpThreshold).value < 2 * r.value.scaleDownThreshold + 2
    ensures FirstMetric(scaling) == Ok(None) ==>
      (r.Ok? <==> DurationByRStrip(Get(scaling, "scale_up_cooldown", Str("30s"))).Ok? &&
                  DurationByRStrip(Get(scaling, "scale_down_cooldown", Str("300s"))).Ok? &&
                  IntOf(Get(scaling, "target_value", Int(10))).Some?)
    ensures FirstMetric(scaling).Ok? && FirstMetric(scaling).value.Some? ==>
      var m := FirstMetric(scaling).value.value;
      (r.Ok? <==> DurationByRStrip(Get(m, "cooldown_up", Str("30s"))).Ok? &&
                  DurationByRStrip(Get(m, "cooldown_down", Str("300s"))).Ok? &&
                  IntOf(Get(m, "target_value", Int(10))).Some?)
    ensures r.Ok? && FirstMetric(scaling) == Ok(None) ==>
      r.value.scaleUpThreshold == Get(scaling, "target_value", Int(10)) &&
      DurationByRStrip(Get(scaling, "scale_up_cooldown", Str("30s"))) == Ok(r.value.scaleUpCooldown) &&
      DurationByRStrip(Get(scaling, "scale_down_cooldown", Str("300s"))) == Ok(r.value.scaleDownCooldown)
    ensures r.Ok? && FirstMetric(scaling).Ok? && FirstMetric(scaling).value.Some? ==>
      var m := FirstMetric(scaling).value.value;
      r.value.scaleUpThreshold == Get(m, "target_value", Int(10)) &&
      DurationByRStrip(Get(m, "cooldown_up", Str("30s"))) == Ok(r.value.scaleUpCooldown) &&
      DurationByRStrip(Get(m, "cooldown_down", Str("300s"))) == Ok(r.value.scaleDownCooldown)
  {
    var first :- FirstMetric(scaling);
    var upSetting := match first
      case Some(m) => Get(m, "cooldown_up", Str("30s"))
      case None => Get(scaling, "scale_up_cooldown", Str("30s"));
    var downSetting := match first
      case Some(m) => Get(m, "cooldown_down", Str("300s"))
      case None => Get(scaling, "scale_down_cooldown", Str("300s"));
    var t := match first
      case Some(m) => Get(m, "target_value", Int(10))
      case None => Get(scaling, "target_value", Int(10));
    var up :- DurationByRStrip(upSetting);
    var down :- DurationByRStrip(downSetting);
    var half :- HalfThreshold(t);
    Ok(Autoscaling(up, down, t, half))
  }

  /** With none of the keys set: cooldowns of 30 and 300 seconds, thresholds 10 and 5. */
  lemma DefaultAutoscaling(scaling: map<string, Value>)
    requires "metrics" !in scaling && "scale_up_cooldown" !in scaling
    requires "scale_down_cooldown" !in scaling && "target_value" !in scaling
    ensures Autoscale(scaling) == Ok(Autoscaling(30, 300, Int(10), 5))
  {
    assert Get(scaling, "metrics", Null) == Null;
    assert FirstMetric(scaling) == Ok(None);
    assert Get(scaling, "scale_up_cooldown", Str("30s")) == Str("30s");
    assert Get(scaling, "scale_down_cooldown", Str("300s")) == Str("300s");
    assert Get(scaling, "target_value", Int(10)) == Int(10);
    DefaultShortDuration(Str("30s"));
    DefaultLongDuration(Str("300s"));
    assert HalfThreshold(Int(10)) == Ok(5);
  }

  /** Once `metrics` is non-empty, the top-level keys it replaces are no longer read. */
  lemma MetricsShadowScalingKeys(scaling: map<string, Value>, key: string, v: Value)
    requires Truthy(Get(scaling, "metrics", Null))
    requires key == "scale_up_cooldown" || key == "scale_down_cooldown" || key == "target_value"
    ensures Autoscale(scaling[key := v]) == Autoscale(scaling)
  {
    assert key != "metrics";
    assert Get(scaling[key := v], "metrics", Null) == Get(scaling, "metrics", Null);
    assert FirstMetric(scaling[key := v]) == FirstMetric(scaling);
  }

  // ---------------------------------------------------------------------------
  // The metric scan (lines 594-601)

  /** `metric.get('name') == metricName` for an entry that is a mapping. */
  predicate Named(v: Value, metricName: string) {
    v.Dict? && Get(v.entries, "name", Null) == Str(metricName)
  }

  /** The last entry with the given name, if there is one. */
  function LastNamed(items: seq<Value>, metricName: string): (r: Option<map<string, Value>>)
    ensures r.Some? ==> Named(Dict(r.value), metricName)
  {
    if items == [] then None
    else if Named(items[|items| - 1], metricName) then Some(items[|items| - 1].entries)
    else LastNamed(items[..|items| - 1], metricName)
  }

  /** Every entry is a mapping, as the loop's `.get` calls need. */
  predicate AllMappings(items: seq<Value>) {
    forall i :: 0 <= i < |items| ==> items[i].Dict?
  }

  /** The entries the loop visits: the `metrics` list, or nothing. */
  function MetricItems(scaling: map<string, Value>): seq<Value> {
    match Get(scaling, "metrics", Null)
    case List(items) => items
    case _ => []
  }

  /** What the scan leaves in `cpu_metric` and `memory_metric`. */
  function MetricScan(items: seq<Value>): Result<(Option<map<string, Value>>, Option<map<string, Value>>), ConfigError> {
    if AllMappings(items) then Ok((LastNamed(items, CpuMetricName), LastNamed(items, MemoryMetricName)))
    else Err(NotAMapping("metrics"))
  }

  lemma MetricNamesDiffer()
    ensures CpuMetricName != MemoryMetricName
  {
    assert CpuMetricName[0] != MemoryMetricName[0];
  }

  /**
   * The loop of lines 597-601: each entry named `cpu_utilization` replaces `cpu_metric`, each
   * named `memory_utilization` replaces `memory_metric`; an entry that is not a mapping fails.
   */
  method ScanMetrics(items: seq<Value>)
    returns (r: Result<(Option<map<string, Value>>, Option<map<string, Value>>), ConfigError>)
    ensures r == MetricScan(items)
  {
    MetricNamesDiffer();
    var cpu: Option<map<string, Value>> := None;
    var memory: Option<map<string, Value>> := None;
    for i := 0 to |items|
      invariant AllMappings(items[..i])
      invariant cpu == LastNamed(items[..i], CpuMetricName)
      invariant memory == LastNamed(items[..i], MemoryMetricName)
    {
      if !items[i].Dict? {
        return Err(NotAMapping("metrics"));
      }
      var metric := items[i].entries;
      assert items[..i + 1][..i] == items[..i];
      if Get(metric, "name", Null) == Str(CpuMetricName) {
        cpu := Some(metric);
      } else if Get(metric, "name", Null) == Str(MemoryMetricName) {
        memory := Some(metric);
      }
    }
    assert items[..|items|] == items;
    r := Ok((cpu, memory));
  }

  /**
   * `LastNamed` finds an entry exactly when one has the name, and what it finds is the last such
   * entry: no later entry has the name.
   */
  lemma {:induction false} LastNamedIsLast(items: seq<Value>, metricName: string)
    ensures LastNamed(items, metricName).Some? <==> exists i :: 0 <= i < |items| && Named(items[i], metricName)
    ensures LastNamed(items, metricName).Some? ==>
      exists i :: (0 <= i < |items| && items[i] == Dict(LastNamed(items, metricName).value) &&
                   forall j :: i < j < |items| ==> !Named(items[j], metricName))
  {
    if items != [] {
      var init := items[..|items| - 1];
      LastNamedIsLast(init, metricName);
      if !Named(items[|items| - 1], metricName) {
        forall i | 0 <= i < |items| - 1 ensures items[i] == init[i] { }
        if LastNamed(items, metricName).Some? {
          var i :| 0 <= i < |init| && init[i] == Dict(LastNamed(init, metricName).value) &&
            forall j :: i < j < |init| ==> !Named(init[j], metricName);
          assert forall j :: i < j < |items| ==> !Named(items[j], metricName);
        }
      }
    }
  }

  // ---------------------------------------------------------------------------
  // The container definition (lines 184-227)

  /** The configured variables, each quoted, in order (lines 199-201). */
  function ConfiguredVariables(envVars: seq<(string, Value)>): (vs: seq<(string, OutputValue)>)
    ensures |vs| == |envVars|
    ensures forall k :: 0 <= k < |envVars| ==> vs[k] == (envVars[k].0, Quoted(envVars[k].1))
  {
    if envVars == [] then []
    else
      var last := envVars[|envVars| - 1];
      ConfiguredVariables(envVars[..|envVars| - 1]) + [(last.0, Quoted(last.1))]
  }

  /** The variables every worker gets after the configured ones (lines 204-212). */
  function FixedWorkerVariables(env: string, name: string): seq<(string, OutputValue)> {
    [("SERVICE_NAME", Quoted(Str(name))), ("ENVIRONMENT", Quoted(Str(env))), ("PORT", Quoted(Str("8080"))),
     ("SQS_QUEUE_URL", Reference("aws_sqs_queue." + TfName(name) + "_queue.url")),
     ("_X_AMZN_TRACE_ID", Quoted(Str(""))), ("OTEL_PROPAGATORS", Quoted(Str("tracecontext,baggage,xray"))),
     ("OTEL_RESOURCE_ATTRIBUTES", Quoted(Str("service.name=" + name + ",service.version=1.0,deployment.environment=" + env)))]
  }

  /** The container's `environment` list: the environment section's variables, then the fixed ones. */
  function ContainerVariables(env: string, name: string, envVars: seq<(string, Value)>): seq<(string, OutputValue)> {
    ConfiguredVariables(envVars) + FixedWorkerVariables(env, name)
  }

  method ContainerEnvironment(env: string, name: string, envVars: seq<(string, Value)>)
    returns (vs: seq<(string, OutputValue)>)
    ensures vs == ContainerVariables(env, name, envVars)
  {
    vs := [];
    for i := 0 to |envVars|
      invariant vs == ConfiguredVariables(envVars[..i])
    {
      assert envVars[..i + 1][..i] == envVars[..i];
      vs := vs + [(envVars[i].0, Quoted(envVars[i].1))];
    }
    assert envVars[..|envVars|] == envVars;
    vs := vs + FixedWorkerVariables(env, name);
  }

  /** `${aws_secretsmanager_secret.<id>.arn}:<secret>::`: a key of the combined secret. */
  function ValueFrom(secretId: string, secret: string): string {
    SecretArnOpen + secretId + SecretArnClose + secret + "::"
  }

  /** One `valueFrom` entry per secret, in order, each a key of `<name>_secrets` (lines 220-225). */
  function ContainerSecrets(name: string, secrets: seq<string>): (cs: seq<ContainerSecret>)
    ensures |cs| == |secrets|
    ensures forall k :: 0 <= k < |secrets| ==>
      cs[k] == ContainerSecret(secrets[k], ValueFrom(TfName(name) + SecretsSuffix, secrets[k]))
  {
    if secrets == [] then []
    else
      var last := secrets[|secrets| - 1];
      ContainerSecrets(name, secrets[..|secrets| - 1]) + [ContainerSecret(last, ValueFrom(TfName(name) + SecretsSuffix, last))]
  }

  method ListContainerSecrets(name: string, secrets: seq<string>) returns (cs: seq<ContainerSecret>)
    ensures cs == ContainerSecrets(name, secrets)
  {
    cs := [];
    for i := 0 to |secrets|
      invariant cs == ContainerSecrets(name, secrets[..i])
    {
      assert secrets[..i + 1][..i] == secrets[..i];
      cs := cs + [ContainerSecret(secrets[i], ValueFrom(TfName(name) + SecretsSuffix, secrets[i]))];
    }
    assert secrets[..|secrets|] == secrets;
  }

  // ---------------------------------------------------------------------------
  // The combined secret (lines 433-486)

  /** `f'"{secret}": "changeme"'`. */
  function SecretEntry(secret: string): string {
    "\"" + secret + "\": \"changeme\""
  }

  function SecretEntries(secrets: seq<string>): (es: seq<string>)
    ensures |es| == |secrets|
    ensures forall k :: 0 <= k < |secrets| ==> es[k] == SecretEntry(secrets[k])
  {
    seq(|secrets|, k requires 0 <= k < |secrets| => SecretEntry(secrets[k]))
  }

  /** The placeholder `secret_string`: one entry per secret, joined by `", "`. */
  function SecretString(secrets: seq<string>): string {
    Join(SecretEntries(secrets), ", ")
  }

  /** A single secret gives a single entry; each further secret adds `", "` and its own entry. */
  lemma SecretStringSnoc(secrets: seq<string>, secret: string)
    ensures SecretString([secret]) == SecretEntry(secret)
    ensures secrets != [] ==> SecretString(secrets + [secret]) == SecretString(secrets) + ", " + SecretEntry(secret)
  {
    assert SecretEntries([secret]) == [SecretEntry(secret)];
    if secrets != [] {
      assert SecretEntries(secrets + [secret]) == SecretEntries(secrets) + [SecretEntry(secret)];
      JoinSnoc(SecretEntries(secrets), SecretEntry(secret), ", ");
    }
  }

  /** The one secret that holds every configured secret as a key. */
  function CombinedSecret(env: string, name: string): (b: Block)
    ensures IsSecret(b) && b.id == TfName(name) + SecretsSuffix
  {
    var n := TfName(name);
    Declared(SecretsManagerSecret, n + SecretsSuffix, env + "-" + name + "-secrets-${random_id." + n + "_secret_suffix.hex}",
             [n + "_secret_suffix"])
  }

  /** The combined secret's placeholder value. */
  function SecretVersionBlock(name: string, secrets: seq<string>): (b: Block)
    ensures IsSecretVersion(b) && b.refs == [TfName(name) + SecretsSuffix] && b.text == SecretString(secrets)
  {
    Declared(SecretsManagerSecretVersion, TfName(name) + "_secrets_version", SecretString(secrets), [TfName(name) + SecretsSuffix])
  }

  /** The combined secret: its random suffix, the secret, its placeholder version and the task role's policy. */
  function SecretSection(env: string, name: string, secrets: seq<string>): (bs: seq<Block>)
    ensures |bs| == 4 && bs[1] == CombinedSecret(env, name) && bs[2] == SecretVersionBlock(name, secrets)
    ensures forall b :: b in bs ==> b.Declared?
    ensures forall b :: b in bs && IsSecret(b) ==> b == CombinedSecret(env, name)
  {
    var n := TfName(name);
    [Declared(RandomId, n + "_secret_suffix", "", []),
     CombinedSecret(env, name),
     SecretVersionBlock(name, secrets),
     Declared(IamRolePolicy, "secrets_policy", env + "-" + name + "-secrets-policy", [TaskRoleId, n + SecretsSuffix])]
  }

  // ---------------------------------------------------------------------------
  // The blocks before the secret (lines 32-429)

  /** State, providers, the ECR repository and the queues (lines 32-166). */
  function WorkerHead(env: string, name: string): (bs: seq<Block>)
    ensures |bs| == 10
  {
    var n := TfName(name);
    [Declared(StateBackend, "s3", env + ServicesStateDir + name + StateFile, []),
     Declared(CallerIdentityData, "current", "", []),
     Declared(EcrRepositoryData, n + "_repo", name + "-" + env, []),
     Declared(EcrLifecyclePolicy, n + "_lifecycle", "", [n + "_repo"]),
     Declared(AwsProvider, "aws", "", []),
     Declared(CoreRemoteState, "core", env + CoreStateKey, []),
     Declared(SqsQueue, n + "_queue", env + "-" + name + "-queue", []),
     Declared(SqsQueue, n + "_dlq", env + "-" + name + "-queue-dlq", []),
     Declared(SqsQueuePolicy, n + "_queue_policy", "", [n + "_queue"]),
     Declared(SqsRedrivePolicy, n + "_redrive", "", [n + "_queue", n + "_dlq"])]
  }

  /** The task definition and the ECS service (lines 169-278), sized from the merged sections. */
  function ServiceBlocks(env: string, name: string, resources: map<string, Value>, deployment: map<string, Value>,
                         variables: seq<(string, OutputValue)>, containerSecrets: seq<ContainerSecret>): (bs: seq<Block>)
    ensures |bs| == 2 && bs[0].TaskDefinition? && bs[1].EcsService?
    ensures bs[0].environment == variables && bs[0].secrets == containerSecrets
  {
    var n := TfName(name);
    [TaskDefinition(n + "_task", env + "-" + name, Get(resources, "cpu", Int(256)), Get(resources, "memory", Int(512)),
                    variables, containerSecrets),
     EcsService(n + "_service", env + "-" + name, n + "_task", Get(resources, "desired_count", Int(1)),
                Get(deployment, "maximum_percent", Int(200)), Get(deployment, "minimum_healthy_percent", Int(100)))]
  }

  /**
   * The security group, roles, role policies and log group (lines 280-429). The execution role's
   * secrets policy names `<name>_secrets` whether or not any secret is configured.
   */
  function WorkerAccess(env: string, name: string): (bs: seq<Block>)
    ensures |bs| == 8
    ensures bs[3].Declared? && bs[3].kind == IamRolePolicy && bs[3].refs == [ExecutionRoleId, TfName(name) + SecretsSuffix]
  {
    var n := TfName(name);
    [Declared(SecurityGroup, n + "_sg", env + "-" + name + "-", []),
     Declared(IamRole, ExecutionRoleId, env + "-" + name + "-execution-role", []),
     Declared(IamRolePolicyAttachment, "execution_role_policy", "", [ExecutionRoleId]),
     Declared(IamRolePolicy, "execution_secrets_policy", env + "-" + name + "-execution-secrets-policy",
              [ExecutionRoleId, n + SecretsSuffix]),
     Declared(IamRole, TaskRoleId, env + "-" + name + "-task-role", []),
     Declared(IamRolePolicy, "sqs_policy", env + "-" + name + "-sqs-policy", [TaskRoleId, n + "_queue", n + "_dlq"]),
     Declared(IamRolePolicy, "app_signals_policy", env + "-" + name + "-app-signals-policy", [TaskRoleId]),
     Declared(LogGroup, n + "_logs", "/ecs/" + env + "-" + name, [])]
  }

  function WorkerFront(env: string, name: string, resources: map<string, Value>, deployment: map<string, Value>,
                       variables: seq<(string, OutputValue)>, containerSecrets: seq<ContainerSecret>): (bs: seq<Block>)
    ensures |bs| == 20
    ensures bs[10].TaskDefinition? && bs[10].environment == variables && bs[10].secrets == containerSecrets
    ensures bs[15] == WorkerAccess(env, name)[3]
  {
    WorkerHead(env, name) + ServiceBlocks(env, name, resources, deployment, variables, containerSecrets) + WorkerAccess(env, name)
  }

  /** A block that is neither a secret, a secret version, a scaling policy nor an alarm. */
  predicate Inert(b: Block) {
    !IsSecret(b) && !IsSecretVersion(b) && !b.ScalingPolicy? && !b.Alarm?
  }

  /** Nothing before the secret is a secret, a scaling policy or an alarm. */
  lemma FrontInert(env: string, name: string, resources: map<string, Value>, deployment: map<string, Value>,
                   variables: seq<(string, OutputValue)>, containerSecrets: seq<ContainerSecret>)
    ensures forall b :: b in WorkerFront(env, name, resources, deployment, variables, containerSecrets) ==> Inert(b)
  {
    var head := WorkerHead(env, name);
    var service := ServiceBlocks(env, name, resources, deployment, variables, containerSecrets);
    var access := WorkerAccess(env, name);
    HeadInert(env, name);
    AccessInert(env, name);
    assert forall b :: b in service ==> Inert(b);
    InertParts(head, service, access);
  }

  lemma HeadInert(env: string, name: string)
    ensures forall b :: b in WorkerHead(env, name) ==> b.Declared? && Inert(b)
  {
  }

  lemma AccessInert(env: string, name: string)
    ensures forall b :: b in WorkerAccess(env, name) ==> b.Declared? && Inert(b)
  {
  }

  lemma InertParts(xs: seq<Block>, ys: seq<Block>, zs: seq<Block>)
    requires forall b :: b in xs ==> Inert(b)
    requires forall b :: b in ys ==> Inert(b)
    requires forall b :: b in zs ==> Inert(b)
    ensures forall b :: b in xs + ys + zs ==> Inert(b)
  {
  }

  // ---------------------------------------------------------------------------
  // Autoscaling and alarms (lines 488-703)

  /** The scaling target, the two step-scaling policies and the two queue alarms that drive them. */
  function ScalingSection(env: string, name: string, resources: map<string, Value>, a: Autoscaling): (bs: seq<Block>)
    ensures |bs| == 5
  {
    var n := TfName(name);
    [ScalingTarget(n + "_target", Get(resources, "max_count", Int(10)), 1),
     ScalingPolicy(n + ScaleUpPolicySuffix, env + "-" + name + "-scale-up", a.scaleUpCooldown, 1),
     ScalingPolicy(n + ScaleDownPolicySuffix, env + "-" + name + "-scale-down", a.scaleDownCooldown, -1),
     Alarm(ScaleUpAlarm, n + "_scale_up_alarm", env + "-" + name + "-scale-up-alarm",
           a.scaleUpThreshold, Some(n + ScaleUpPolicySuffix)),
     Alarm(ScaleDownAlarm, n + "_scale_down_alarm", env + "-" + name + "-scale-down-alarm",
           Int(a.scaleDownThreshold), Some(n + ScaleDownPolicySuffix))]
  }

  /** The CPU alarm of lines 603-628, which triggers the scale-up policy. */
  function CpuAlarmBlock(env: string, name: string, metric: map<string, Value>): Block {
    Alarm(CpuAlarm, TfName(name) + "_cpu_alarm", env + "-" + name + "-cpu-high",
          Get(metric, "target_value", Int(75)), Some(TfName(name) + ScaleUpPolicySuffix))
  }

  /** The memory alarm of lines 630-655, which triggers the scale-up policy. */
  function MemoryAlarmBlock(env: string, name: string, metric: map<string, Value>): Block {
    Alarm(MemoryAlarm, TfName(name) + "_memory_alarm", env + "-" + name + "-memory-high",
          Get(metric, "target_value", Int(85)), Some(TfName(name) + ScaleUpPolicySuffix))
  }

  /** The circuit-breaker alarms of lines 662-703, which trigger nothing. */
  function BreakerAlarms(env: string, name: string, depth: Value): (bs: seq<Block>)
    ensures |bs| == 2
  {
    [Alarm(TaskFailureAlarm, TfName(name) + "_task_failure_alarm", env + "-" + name + "-low-running-tasks", Int(1), None),
     Alarm(QueueDepthAlarm, TfName(name) + "_queue_depth_high", env + "-" + name + "-queue-depth-high", depth, None)]
  }

  /** The alarms that depend on the configuration: CPU, memory, then the breaker's two. */
  function OptionalAlarms(env: string, name: string, cpu: Option<map<string, Value>>,
                          memory: Option<map<string, Value>>, depth: Option<Value>): (bs: seq<Block>)
    ensures forall b :: b in bs ==> b.Alarm?
  {
    CpuAlarms(env, name, cpu) + MemoryAlarms(env, name, memory) + CircuitBreakerAlarms(env, name, depth)
  }

  function CpuAlarms(env: string, name: string, cpu: Option<map<string, Value>>): seq<Block> {
    if cpu.Some? then [CpuAlarmBlock(env, name, cpu.value)] else []
  }

  function MemoryAlarms(env: string, name: string, memory: Option<map<string, Value>>): seq<Block> {
    if memory.Some? then [MemoryAlarmBlock(env, name, memory.value)] else []
  }

  function CircuitBreakerAlarms(env: string, name: string, depth: Option<Value>): seq<Block> {
    if depth.Some? then BreakerAlarms(env, name, depth.value) else []
  }

  /** The outputs (lines 716-741). */
  function WorkerOutputs(name: string): (bs: seq<Block>)
    ensures |bs| == 6
    ensures forall b :: b in bs ==> b.Output?
  {
    var n := TfName(name);
    [Output("queue_url", Reference("aws_sqs_queue." + n + "_queue.url")),
     Output("queue_arn", Reference("aws_sqs_queue." + n + "_queue.arn")),
     Output("service_name", Reference("aws_ecs_service." + n + "_service.name")),
     Output("cluster_name", Reference("data.terraform_remote_state.core.outputs.ecs_cluster_name")),
     Output("task_definition_arn", Reference("aws_ecs_task_definition." + n + "_task.arn")),
     Output("autoscaling_target_arn", Reference("aws_appautoscaling_target." + n + "_target.arn"))]
  }

  // ---------------------------------------------------------------------------
  // The whole file

  /** What the worker's settings come to once merged and derived. */
  datatype Derived = Derived(
    resources: map<string, Value>, deployment: map<string, Value>, autoscaling: Autoscaling,
    cpu: Option<map<string, Value>>, memory: Option<map<string, Value>>, depth: Option<Value>)

  /** The blocks of `main.tf`, given the derived settings. */
  function WorkerLayout(env: string, name: string, envVars: seq<(string, Value)>, secrets: seq<string>, d: Derived): seq<Block> {
    WorkerFront(env, name, d.resources, d.deployment, ContainerVariables(env, name, envVars), ContainerSecrets(name, secrets))
    + (if secrets != [] then SecretSection(env, name, secrets) else [])
    + ScalingSection(env, name, d.resources, d.autoscaling)
    + OptionalAlarms(env, name, d.cpu, d.memory, d.depth)
    + WorkerOutputs(name)
  }

  /**
   * Everything `generate_worker_terraform` reads, evaluated in the source's order: the breaker
   * unpacking (lines 27-29), the autoscaling settings (513-577), the metric scan (596-601) and
   * the queue-depth threshold (698).
   */
  function Derive(cfg: ServiceConfig, env: string): (r: Result<Derived, ConfigError>)
    ensures var e := EnvironmentOf(cfg, env);
      var scaling := Override(cfg.scaling, e.scaling);
      r.Ok? <==>
        BreakerOf(cfg.scaling).Ok? && BreakerOf(e.scaling).Ok? && Autoscale(scaling).Ok? &&
        AllMappings(MetricItems(scaling)) &&
        QueueDepth(Override(BreakerOf(cfg.scaling).value, BreakerOf(e.scaling).value), scaling).Ok?
    ensures r.Ok? ==> r.value.resources == Override(cfg.resources, EnvironmentOf(cfg, env).resources)
    ensures r.Ok? ==> r.value.deployment == Override(cfg.deployment, EnvironmentOf(cfg, env).deployment)
    ensures r.Ok? ==>
      (BreakerOf(cfg.scaling).Ok? && BreakerOf(EnvironmentOf(cfg, env).scaling).Ok? &&
       (r.value.depth.Some? <==>
        BreakerEnabled(Override(BreakerOf(cfg.scaling).value, BreakerOf(EnvironmentOf(cfg, env).scaling).value))))
    ensures r.Ok? ==>
      var items := MetricItems(Override(cfg.scaling, EnvironmentOf(cfg, env).scaling));
      r.value.cpu == LastNamed(items, CpuMetricName) && r.value.memory == LastNamed(items, MemoryMetricName)
  {
    var e := EnvironmentOf(cfg, env);
    var baseBreaker :- BreakerOf(cfg.scaling);
    var envBreaker :- BreakerOf(e.scaling);
    var scaling := Override(cfg.scaling, e.scaling);
    var autoscaling :- Autoscale(scaling);
    var found :- MetricScan(MetricItems(scaling));
    var depth :- QueueDepth(Override(baseBreaker, envBreaker), scaling);
    Ok(Derived(Override(cfg.resources, e.resources), Override(cfg.deployment, e.deployment), autoscaling,
               found.0, found.1, depth))
  }

  /** The blocks `generate_worker_terraform` writes for `env`, or why it fails. */
  function WorkerBlocks(cfg: ServiceConfig, env: string): (r: Result<seq<Block>, ConfigError>)
    ensures cfg.name.None? ==> r == Err(MissingName)
    ensures cfg.name.Some? ==> (r.Ok? <==> Derive(cfg, env).Ok?)
  {
    var name :- NameOf(cfg);
    var d :- Derive(cfg, env);
    Ok(WorkerLayout(env, name, EnvironmentOf(cfg, env).environmentVariables, cfg.secrets, d))
  }

  /** `generate_worker_terraform`: the settings are read and checked, then `tf_content` is built up section by section. */
  method GenerateWorker(cfg: ServiceConfig, env: string) returns (r: Result<seq<Block>, ConfigError>)
    ensures r == WorkerBlocks(cfg, env)
  {
    var name :- NameOf(cfg);
    var d :- DeriveSettings(cfg, env);
    var blocks := RenderWorker(env, name, EnvironmentOf(cfg, env).environmentVariables, cfg.secrets, d);
    r := Ok(blocks);
  }

  /** The merges of lines 20-29 and every derived setting that can fail, in the source's order. */
  method DeriveSettings(cfg: ServiceConfig, env: string) returns (r: Result<Derived, ConfigError>)
    ensures r == Derive(cfg, env)
  {
    var e := EnvironmentOf(cfg, env);
    var resources := Override(cfg.resources, e.resources);
    var scaling := Override(cfg.scaling, e.scaling);
    var deployment := Override(cfg.deployment, e.deployment);
    var baseBreaker :- BreakerOf(cfg.scaling);
    var envBreaker :- BreakerOf(e.scaling);
    var breaker := Override(baseBreaker, envBreaker);
    var autoscaling :- Autoscale(scaling);
    var found :- ScanConfiguredMetrics(scaling);
    var depth :- QueueDepth(breaker, scaling);
    r := Ok(Derived(resources, deployment, autoscaling, found.0, found.1, depth));
  }

  /** `tf_content` from the derived settings: the blocks in file order. */
  method RenderWorker(env: string, name: string, envVars: seq<(string, Value)>, secrets: seq<string>, d: Derived)
    returns (blocks: seq<Block>)
    ensures blocks == WorkerLayout(env, name, envVars, secrets, d)
  {
    blocks := FrontBlocks(env, name, d.resources, d.deployment, envVars, secrets);
    blocks := blocks + ScalingSection(env, name, d.resources, d.autoscaling);
    var alarms := AlarmBlocks(env, name, d.cpu, d.memory, d.depth);
    blocks := blocks + alarms + WorkerOutputs(name);
  }

  /** Lines 32-486: everything before the autoscaling target, with the container's two lists built by loops. */
  method FrontBlocks(env: string, name: string, resources: map<string, Value>, deployment: map<string, Value>,
                     envVars: seq<(string, Value)>, secrets: seq<string>) returns (blocks: seq<Block>)
    ensures blocks == WorkerFront(env, name, resources, deployment, ContainerVariables(env, name, envVars), ContainerSecrets(name, secrets))
                      + (if secrets != [] then SecretSection(env, name, secrets) else [])
  {
    var variables := ContainerEnvironment(env, name, envVars);
    var containerSecrets: seq<ContainerSecret> := [];
    if secrets != [] {
      containerSecrets := ListContainerSecrets(name, secrets);
    }
    blocks := WorkerFront(env, name, resources, deployment, variables, containerSecrets);
    if secrets != [] {
      blocks := blocks + SecretSection(env, name, secrets);
    }
  }

  /** Lines 594-601: the scan runs only when `scaling.get('metrics')` is truthy. */
  method ScanConfiguredMetrics(scaling: map<string, Value>)
    returns (r: Result<(Option<map<string, Value>>, Option<map<string, Value>>), ConfigError>)
    ensures r == MetricScan(MetricItems(scaling))
  {
    r := Ok((None, None));
    if Truthy(Get(scaling, "metrics", Null)) {
      r := ScanMetrics(MetricItems(scaling));
    }
  }

  /** Lines 603-703: the CPU and memory alarms, then the breaker's two when it is enabled. */
  method AlarmBlocks(env: string, name: string, cpu: Option<map<string, Value>>, memory: Option<map<string, Value>>,
                     depth: Option<Value>) returns (alarms: seq<Block>)
    ensures alarms == OptionalAlarms(env, name, cpu, memory, depth)
  {
    alarms := [];
    if cpu.Some? {
      alarms := [CpuAlarmBlock(env, name, cpu.value)];
    }
    if memory.Some? {
      alarms := alarms + [MemoryAlarmBlock(env, name, memory.value)];
    }
    if depth.Some? {
      alarms := alarms + BreakerAlarms(env, name, depth.value);
    }
  }

  // ---------------------------------------------------------------------------
  // What a rendered file declares

  /** How many blocks of the given Terraform type `bs` declares. */
  function CountKind(bs: seq<Block>, kind: Kind): nat {
    if bs == [] then 0
    else CountKind(bs[..|bs| - 1], kind) + (if bs[|bs| - 1].Declared? && bs[|bs| - 1].kind == kind then 1 else 0)
  }

  /** How many alarms of the given kind `bs` holds. */
  function AlarmCount(bs: seq<Block>, kind: AlarmKind): nat {
    if bs == [] then 0
    else AlarmCount(bs[..|bs| - 1], kind) + (if bs[|bs| - 1].Alarm? && bs[|bs| - 1].alarm == kind then 1 else 0)
  }

  /** The identifiers of the scaling policies `bs` declares. */
  function PolicyIds(bs: seq<Block>): set<string> {
    if bs == [] then {}
    else PolicyIds(bs[..|bs| - 1]) + (if bs[|bs| - 1].ScalingPolicy? then {bs[|bs| - 1].id} else {})
  }

  /** The identifiers of the policies the alarms of `bs` trigger. */
  function AlarmActions(bs: seq<Block>): set<string> {
    if bs == [] then {}
    else
      var b := bs[|bs| - 1];
      AlarmActions(bs[..|bs| - 1]) + (if b.Alarm? && b.policyId.Some? then {b.policyId.value} else {})
  }

  lemma {:induction false} CountKindAppend(xs: seq<Block>, ys: seq<Block>, kind: Kind)
    ensures CountKind(xs + ys, kind) == CountKind(xs, kind) + CountKind(ys, kind)
  {
    if ys == [] {
      assert xs + ys == xs;
    } else {
      var zs := xs + ys;
      assert zs[..|zs| - 1] == xs + ys[..|ys| - 1];
      CountKindAppend(xs, ys[..|ys| - 1], kind);
    }
  }

  lemma {:induction false} AlarmCountAppend(xs: seq<Block>, ys: seq<Block>, kind: AlarmKind)
    ensures AlarmCount(xs + ys, kind) == AlarmCount(xs, kind) + AlarmCount(ys, kind)
  {
    if ys == [] {
      assert xs + ys == xs;
    } else {
      var zs := xs + ys;
      assert zs[..|zs| - 1] == xs + ys[..|ys| - 1];
      AlarmCountAppend(xs, ys[..|ys| - 1], kind);
    }
  }

  lemma {:induction false} PoliciesAppend(xs: seq<Block>, ys: seq<Block>)
    ensures PolicyIds(xs + ys) == PolicyIds(xs) + PolicyIds(ys)
    ensures AlarmActions(xs + ys) == AlarmActions(xs) + AlarmActions(ys)
  {
    if ys == [] {
      assert xs + ys == xs;
    } else {
      var zs := xs + ys;
      assert zs[..|zs| - 1] == xs + ys[..|ys| - 1];
      PoliciesAppend(xs, ys[..|ys| - 1]);
    }
  }

  /** Blocks that are neither secrets nor secret versions count no secret. */
  lemma {:induction false} NoSecretBlocks(xs: seq<Block>)
    requires forall b :: b in xs ==> !IsSecret(b) && !IsSecretVersion(b)
    ensures CountKind(xs, SecretsManagerSecret) == 0 && CountKind(xs, SecretsManagerSecretVersion) == 0
  {
    if xs != [] {
      assert xs[|xs| - 1] in xs;
      assert forall b :: b in xs[..|xs| - 1] ==> b in xs;
      NoSecretBlocks(xs[..|xs| - 1]);
    }
  }

  /** Blocks that are not alarms count no alarm and trigger nothing. */
  lemma {:induction false} NoAlarmBlocks(xs: seq<Block>, kind: AlarmKind)
    requires forall b :: b in xs ==> !b.Alarm?
    ensures AlarmCount(xs, kind) == 0 && AlarmActions(xs) == {}
  {
    if xs != [] {
      assert xs[|xs| - 1] in xs;
      assert forall b :: b in xs[..|xs| - 1] ==> b in xs;
      NoAlarmBlocks(xs[..|xs| - 1], kind);
    }
  }

  /** Blocks that are not scaling policies declare no policy. */
  lemma {:induction false} NoPolicyBlocks(xs: seq<Block>)
    requires forall b :: b in xs ==> !b.ScalingPolicy?
    ensures PolicyIds(xs) == {}
  {
    if xs != [] {
      assert xs[|xs| - 1] in xs;
      assert forall b :: b in xs[..|xs| - 1] ==> b in xs;
      NoPolicyBlocks(xs[..|xs| - 1]);
    }
  }

  /** The file's counts of a kind, over its five parts as `WorkerLayout` concatenates them. */
  lemma CountKindOfParts(front: seq<Block>, section: seq<Block>, scaling: seq<Block>, alarms: seq<Block>, outputs: seq<Block>, kind: Kind)
    ensures CountKind(front + section + scaling + alarms + outputs, kind) ==
      CountKind(front, kind) + CountKind(section, kind) + CountKind(scaling, kind) + CountKind(alarms, kind) + CountKind(outputs, kind)
  {
    CountKindAppend(front, section, kind);
    CountKindAppend(front + section, scaling, kind);
    CountKindAppend(front + section + scaling, alarms, kind);
    CountKindAppend(front + section + scaling + alarms, outputs, kind);
  }

  lemma AlarmCountOfParts(front: seq<Block>, section: seq<Block>, scaling: seq<Block>, alarms: seq<Block>, outputs: seq<Block>, kind: AlarmKind)
    ensures AlarmCount(front + section + scaling + alarms + outputs, kind) ==
      AlarmCount(front, kind) + AlarmCount(section, kind) + AlarmCount(scaling, kind) + AlarmCount(alarms, kind) + AlarmCount(outputs, kind)
  {
    AlarmCountAppend(front, section, kind);
    AlarmCountAppend(front + section, scaling, kind);
    AlarmCountAppend(front + section + scaling, alarms, kind);
    AlarmCountAppend(front + section + scaling + alarms, outputs, kind);
  }

  lemma PoliciesOfParts(front: seq<Block>, section: seq<Block>, scaling: seq<Block>, alarms: seq<Block>, outputs: seq<Block>)
    ensures var bs := front + section + scaling + alarms + outputs;
      PolicyIds(bs) == PolicyIds(front) + PolicyIds(section) + PolicyIds(scaling) + PolicyIds(alarms) + PolicyIds(outputs) &&
      AlarmActions(bs) ==
        AlarmActions(front) + AlarmActions(section) + AlarmActions(scaling) + AlarmActions(alarms) + AlarmActions(outputs)
  {
    PoliciesAppend(front, section);
    PoliciesAppend(front + section, scaling);
    PoliciesAppend(front + section + scaling, alarms);
    PoliciesAppend(front + section + scaling + alarms, outputs);
  }

  /** How many alarms of each kind the derived settings call for. */
  function ExpectedAlarms(d: Derived, kind: AlarmKind): nat {
    match kind
    case ScaleUpAlarm => 1
    case ScaleDownAlarm => 1
    case CpuAlarm => if d.cpu.Some? then 1 else 0
    case MemoryAlarm => if d.memory.Some? then 1 else 0
    case TaskFailureAlarm => if d.depth.Some? then 1 else 0
    case QueueDepthAlarm => if d.depth.Some? then 1 else 0
  }

  /** The blocks before the autoscaling target hold no alarm, no policy and no secret. */
  lemma FrontSummary(env: string, name: string, resources: map<string, Value>, deployment: map<string, Value>,
                     variables: seq<(string, OutputValue)>, containerSecrets: seq<ContainerSecret>, kind: AlarmKind)
    ensures var bs := WorkerFront(env, name, resources, deployment, variables, containerSecrets);
      AlarmCount(bs, kind) == 0 && AlarmActions(bs) == {} && PolicyIds(bs) == {} &&
      CountKind(bs, SecretsManagerSecret) == 0 && CountKind(bs, SecretsManagerSecretVersion) == 0
  {
    var bs := WorkerFront(env, name, resources, deployment, variables, containerSecrets);
    FrontInert(env, name, resources, deployment, variables, containerSecrets);
    NoAlarmBlocks(bs, kind);
    NoPolicyBlocks(bs);
    NoSecretBlocks(bs);
  }

  /** The secrets section, when present, declares one secret and one secret version and no alarm or policy. */
  lemma SectionSummary(env: string, name: string, secrets: seq<string>, kind: AlarmKind)
    ensures var bs := if secrets != [] then SecretSection(env, name, secrets) else [];
      AlarmCount(bs, kind) == 0 && AlarmActions(bs) == {} && PolicyIds(bs) == {} &&
      CountKind(bs, SecretsManagerSecret) == (if secrets == [] then 0 else 1) &&
      CountKind(bs, SecretsManagerSecretVersion) == (if secrets == [] then 0 else 1)
  {
    if secrets != [] {
      var bs := SecretSection(env, name, secrets);
      SecretSectionCounts(env, name, secrets);
      NoAlarmBlocks(bs, kind);
      NoPolicyBlocks(bs);
    }
  }

  /** The secrets section declares one secret and one secret version. */
  lemma SecretSectionCounts(env: string, name: string, secrets: seq<string>)
    ensures var bs := SecretSection(env, name, secrets);
      CountKind(bs, SecretsManagerSecret) == 1 && CountKind(bs, SecretsManagerSecretVersion) == 1
  {
    var bs := SecretSection(env, name, secrets);
    assert bs[..3][..2] == bs[..2];
    assert bs[..2][..1] == bs[..1];
    assert bs[..1][..0] == [];
    assert CountKind(bs[..1], SecretsManagerSecret) == 0 && CountKind(bs[..1], SecretsManagerSecretVersion) == 0;
    assert CountKind(bs[..2], SecretsManagerSecret) == 1 && CountKind(bs[..2], SecretsManagerSecretVersion) == 0;
    assert CountKind(bs[..3], SecretsManagerSecret) == 1 && CountKind(bs[..3], SecretsManagerSecretVersion) == 1;
  }

  /** The scaling section holds one alarm of each queue kind and no secret. */
  lemma ScalingSectionAlarms(env: string, name: string, resources: map<string, Value>, a: Autoscaling, kind: AlarmKind)
    ensures var bs := ScalingSection(env, name, resources, a);
      AlarmCount(bs, kind) == (if kind == ScaleUpAlarm || kind == ScaleDownAlarm then 1 else 0) &&
      CountKind(bs, SecretsManagerSecret) == 0 && CountKind(bs, SecretsManagerSecretVersion) == 0
  {
    var bs := ScalingSection(env, name, resources, a);
    assert bs[..4][..3] == bs[..3];
    assert bs[..3][..2] == bs[..2];
    assert bs[..2][..1] == bs[..1];
    assert bs[..1][..0] == [];
    assert AlarmCount(bs[..1], kind) == 0;
    assert AlarmCount(bs[..2], kind) == 0;
    assert AlarmCount(bs[..3], kind) == 0;
    assert AlarmCount(bs[..4], kind) == if kind == ScaleUpAlarm then 1 else 0;
    NoSecretBlocks(bs);
  }

  /** The scaling section declares the two policies, and its alarms trigger both. */
  lemma ScalingSectionPolicies(env: string, name: string, resources: map<string, Value>, a: Autoscaling)
    ensures var bs := ScalingSection(env, name, resources, a);
      PolicyIds(bs) == {TfName(name) + ScaleUpPolicySuffix, TfName(name) + ScaleDownPolicySuffix} &&
      AlarmActions(bs) == PolicyIds(bs)
  {
    var bs := ScalingSection(env, name, resources, a);
    assert bs[..4][..3] == bs[..3];
    assert bs[..3][..2] == bs[..2];
    assert bs[..2][..1] == bs[..1];
    assert bs[..1][..0] == [];
    assert PolicyIds(bs[..1]) == {} && AlarmActions(bs[..1]) == {};
    assert PolicyIds(bs[..2]) == {bs[1].id} && AlarmActions(bs[..2]) == {};
    assert PolicyIds(bs[..3]) == {bs[1].id, bs[2].id} && AlarmActions(bs[..3]) == {};
    assert PolicyIds(bs[..4]) == {bs[1].id, bs[2].id} && AlarmActions(bs[..4]) == {bs[1].id};
  }

  /** The CPU alarm, when configured, is one alarm of its kind that triggers the scale-up policy. */
  lemma CpuAlarmsSummary(env: string, name: string, cpu: Option<map<string, Value>>, kind: AlarmKind)
    ensures var bs := CpuAlarms(env, name, cpu);
      AlarmCount(bs, kind) == (if cpu.Some? && kind == CpuAlarm then 1 else 0) &&
      PolicyIds(bs) == {} && AlarmActions(bs) == (if cpu.Some? then {TfName(name) + ScaleUpPolicySuffix} else {}) &&
      CountKind(bs, SecretsManagerSecret) == 0 && CountKind(bs, SecretsManagerSecretVersion) == 0
  {
    var bs := CpuAlarms(env, name, cpu);
    if cpu.Some? {
      assert bs[..0] == [];
    }
  }

  /** The memory alarm, when configured, is one alarm of its kind that triggers the scale-up policy. */
  lemma MemoryAlarmsSummary(env: string, name: string, memory: Option<map<string, Value>>, kind: AlarmKind)
    ensures var bs := MemoryAlarms(env, name, memory);
      AlarmCount(bs, kind) == (if memory.Some? && kind == MemoryAlarm then 1 else 0) &&
      PolicyIds(bs) == {} && AlarmActions(bs) == (if memory.Some? then {TfName(name) + ScaleUpPolicySuffix} else {}) &&
      CountKind(bs, SecretsManagerSecret) == 0 && CountKind(bs, SecretsManagerSecretVersion) == 0
  {
    var bs := MemoryAlarms(env, name, memory);
    if memory.Some? {
      assert bs[..0] == [];
    }
  }

  /** The circuit-breaker alarms, when enabled, are one of each breaker kind and trigger nothing. */
  lemma BreakerAlarmsSummary(env: string, name: string, depth: Option<Value>, kind: AlarmKind)
    ensures var bs := CircuitBreakerAlarms(env, name, depth);
      AlarmCount(bs, kind) == (if depth.Some? && (kind == TaskFailureAlarm || kind == QueueDepthAlarm) then 1 else 0) &&
      PolicyIds(bs) == {} && AlarmActions(bs) == {} &&
      CountKind(bs, SecretsManagerSecret) == 0 && CountKind(bs, SecretsManagerSecretVersion) == 0
  {
    var bs := CircuitBreakerAlarms(env, name, depth);
    if depth.Some? {
      assert bs[..1][..0] == [];
      assert AlarmCount(bs[..1], kind) == if kind == TaskFailureAlarm then 1 else 0;
      assert PolicyIds(bs[..1]) == {} && AlarmActions(bs[..1]) == {};
      assert CountKind(bs[..1], SecretsManagerSecret) == 0 && CountKind(bs[..1], SecretsManagerSecretVersion) == 0;
    }
  }

  /** The optional alarms: as many of each kind as the settings call for, no policy, no secret. */
  lemma OptionalAlarmsSummary(env: string, name: string, d: Derived, kind: AlarmKind)
    ensures var bs := OptionalAlarms(env, name, d.cpu, d.memory, d.depth);
      AlarmCount(bs, kind) == (if kind == ScaleUpAlarm || kind == ScaleDownAlarm then 0 else ExpectedAlarms(d, kind)) &&
      PolicyIds(bs) == {} && AlarmActions(bs) <= {TfName(name) + ScaleUpPolicySuffix} &&
      CountKind(bs, SecretsManagerSecret) == 0 && CountKind(bs, SecretsManagerSecretVersion) == 0
  {
    var cpuPart := CpuAlarms(env, name, d.cpu);
    var memoryPart := MemoryAlarms(env, name, d.memory);
    var breakerPart := CircuitBreakerAlarms(env, name, d.depth);
    AlarmCountAppend(cpuPart, memoryPart, kind);
    AlarmCountAppend(cpuPart + memoryPart, breakerPart, kind);
    PoliciesAppend(cpuPart, memoryPart);
    PoliciesAppend(cpuPart + memoryPart, breakerPart);
    CountKindAppend(cpuPart, memoryPart, SecretsManagerSecret);
    CountKindAppend(cpuPart + memoryPart, breakerPart, SecretsManagerSecret);
    CountKindAppend(cpuPart, memoryPart, SecretsManagerSecretVersion);
    CountKindAppend(cpuPart + memoryPart, breakerPart, SecretsManagerSecretVersion);
    CpuAlarmsSummary(env, name, d.cpu, kind);
    MemoryAlarmsSummary(env, name, d.memory, kind);
    BreakerAlarmsSummary(env, name, d.depth, kind);
  }

  /** The outputs hold no alarm, no policy and no secret. */
  lemma OutputsSummary(name: string, kind: AlarmKind)
    ensures var bs := WorkerOutputs(name);
      AlarmCount(bs, kind) == 0 && AlarmActions(bs) == {} && PolicyIds(bs) == {} &&
      CountKind(bs, SecretsManagerSecret) == 0 && CountKind(bs, SecretsManagerSecretVersion) == 0
  {
    var bs := WorkerOutputs(name);
    NoAlarmBlocks(bs, kind);
    NoPolicyBlocks(bs);
    NoSecretBlocks(bs);
  }

  /**
   * Secrets: without any, no secret and no secret version is declared; with some, exactly one of
   * each is.
   */
  lemma WorkerSecrets(env: string, name: string, envVars: seq<(string, Value)>, secrets: seq<string>, d: Derived, kind: Kind)
    requires kind == SecretsManagerSecret || kind == SecretsManagerSecretVersion
    ensures CountKind(WorkerLayout(env, name, envVars, secrets, d), kind) == if secrets == [] then 0 else 1
  {
    var variables := ContainerVariables(env, name, envVars);
    var containerSecrets := ContainerSecrets(name, secrets);
    CountKindOfParts(WorkerFront(env, name, d.resources, d.deployment, variables, containerSecrets),
                     if secrets != [] then SecretSection(env, name, secrets) else [],
                     ScalingSection(env, name, d.resources, d.autoscaling),
                     OptionalAlarms(env, name, d.cpu, d.memory, d.depth), WorkerOutputs(name), kind);
    FrontSummary(env, name, d.resources, d.deployment, variables, containerSecrets, CpuAlarm);
    SectionSummary(env, name, secrets, CpuAlarm);
    ScalingSectionAlarms(env, name, d.resources, d.autoscaling, CpuAlarm);
    OptionalAlarmsSummary(env, name, d, CpuAlarm);
    OutputsSummary(name, CpuAlarm);
  }

  /** With secrets configured, the file holds the combined secret and the version holding every entry. */
  lemma WorkerSecretBlocks(env: string, name: string, envVars: seq<(string, Value)>, secrets: seq<string>, d: Derived)
    requires secrets != []
    ensures var bs := WorkerLayout(env, name, envVars, secrets, d);
      CombinedSecret(env, name) in bs && SecretVersionBlock(name, secrets) in bs
  {
    var front := WorkerFront(env, name, d.resources, d.deployment, ContainerVariables(env, name, envVars), ContainerSecrets(name, secrets));
    var section := SecretSection(env, name, secrets);
    var scaling := ScalingSection(env, name, d.resources, d.autoscaling);
    var alarms := OptionalAlarms(env, name, d.cpu, d.memory, d.depth);
    SectionInFile(front, section, scaling, alarms, WorkerOutputs(name), 1);
    SectionInFile(front, section, scaling, alarms, WorkerOutputs(name), 2);
  }

  /** The container reads each configured secret, in order, as a key of the one combined secret. */
  lemma WorkerContainerSecrets(env: string, name: string, envVars: seq<(string, Value)>, secrets: seq<string>, d: Derived)
    ensures var bs := WorkerLayout(env, name, envVars, secrets, d);
      |bs| > 10 && bs[10].TaskDefinition? && |bs[10].secrets| == |secrets| &&
      forall k :: 0 <= k < |secrets| ==>
        bs[10].secrets[k] == ContainerSecret(secrets[k], ValueFrom(CombinedSecret(env, name).id, secrets[k]))
  {
    var front := WorkerFront(env, name, d.resources, d.deployment, ContainerVariables(env, name, envVars), ContainerSecrets(name, secrets));
    var section := if secrets != [] then SecretSection(env, name, secrets) else [];
    FrontPositions(front, section, ScalingSection(env, name, d.resources, d.autoscaling),
                   OptionalAlarms(env, name, d.cpu, d.memory, d.depth), WorkerOutputs(name), 10);
  }

  /**
   * Alarms: one scale-up and one scale-down alarm always; one CPU and one memory alarm exactly
   * when the scan found their metric; the two circuit-breaker alarms exactly when it is enabled.
   */
  lemma WorkerAlarms(env: string, name: string, envVars: seq<(string, Value)>, secrets: seq<string>, d: Derived, kind: AlarmKind)
    ensures AlarmCount(WorkerLayout(env, name, envVars, secrets, d), kind) == ExpectedAlarms(d, kind)
  {
    var variables := ContainerVariables(env, name, envVars);
    var containerSecrets := ContainerSecrets(name, secrets);
    AlarmCountOfParts(WorkerFront(env, name, d.resources, d.deployment, variables, containerSecrets),
                      if secrets != [] then SecretSection(env, name, secrets) else [],
                      ScalingSection(env, name, d.resources, d.autoscaling),
                      OptionalAlarms(env, name, d.cpu, d.memory, d.depth), WorkerOutputs(name), kind);
    FrontSummary(env, name, d.resources, d.deployment, variables, containerSecrets, kind);
    SectionSummary(env, name, secrets, kind);
    ScalingSectionAlarms(env, name, d.resources, d.autoscaling, kind);
    OptionalAlarmsSummary(env, name, d, kind);
    OutputsSummary(name, kind);
  }

  /** The file declares the two scaling policies, and its alarms trigger both and nothing else. */
  lemma AlarmActionsDeclared(env: string, name: string, envVars: seq<(string, Value)>, secrets: seq<string>, d: Derived)
    ensures var bs := WorkerLayout(env, name, envVars, secrets, d);
      PolicyIds(bs) == {TfName(name) + ScaleUpPolicySuffix, TfName(name) + ScaleDownPolicySuffix} &&
      AlarmActions(bs) == PolicyIds(bs)
  {
    WorkerPolicyIds(env, name, envVars, secrets, d);
    WorkerAlarmActions(env, name, envVars, secrets, d);
  }

  lemma WorkerPolicyIds(env: string, name: string, envVars: seq<(string, Value)>, secrets: seq<string>, d: Derived)
    ensures PolicyIds(WorkerLayout(env, name, envVars, secrets, d)) ==
      {TfName(name) + ScaleUpPolicySuffix, TfName(name) + ScaleDownPolicySuffix}
  {
    var variables := ContainerVariables(env, name, envVars);
    var containerSecrets := ContainerSecrets(name, secrets);
    PoliciesOfParts(WorkerFront(env, name, d.resources, d.deployment, variables, containerSecrets),
                    if secrets != [] then SecretSection(env, name, secrets) else [],
                    ScalingSection(env, name, d.resources, d.autoscaling),
                    OptionalAlarms(env, name, d.cpu, d.memory, d.depth), WorkerOutputs(name));
    FrontSummary(env, name, d.resources, d.deployment, variables, containerSecrets, ScaleUpAlarm);
    SectionSummary(env, name, secrets, ScaleUpAlarm);
    ScalingSectionPolicies(env, name, d.resources, d.autoscaling);
    OptionalAlarmsSummary(env, name, d, ScaleUpAlarm);
    OutputsSummary(name, ScaleUpAlarm);
  }

  lemma WorkerAlarmActions(env: string, name: string, envVars: seq<(string, Value)>, secrets: seq<string>, d: Derived)
    ensures AlarmActions(WorkerLayout(env, name, envVars, secrets, d)) ==
      {TfName(name) + ScaleUpPolicySuffix, TfName(name) + ScaleDownPolicySuffix}
  {
    var variables := ContainerVariables(env, name, envVars);
    var containerSecrets := ContainerSecrets(name, secrets);
    PoliciesOfParts(WorkerFront(env, name, d.resources, d.deployment, variables, containerSecrets),
                    if secrets != [] then SecretSection(env, name, secrets) else [],
                    ScalingSection(env, name, d.resources, d.autoscaling),
                    OptionalAlarms(env, name, d.cpu, d.memory, d.depth), WorkerOutputs(name));
    FrontSummary(env, name, d.resources, d.deployment, variables, containerSecrets, ScaleUpAlarm);
    SectionSummary(env, name, secrets, ScaleUpAlarm);
    ScalingSectionPolicies(env, name, d.resources, d.autoscaling);
    OptionalAlarmsSummary(env, name, d, ScaleUpAlarm);
    OutputsSummary(name, ScaleUpAlarm);
  }

  /** An alarm's threshold as lines 552, 577, 615, 644, 674 and 698 set it from the derived settings. */
  predicate ThresholdAsConfigured(b: Block, d: Derived) {
    b.Alarm? ==>
      match b.alarm
      case ScaleUpAlarm => b.threshold == d.autoscaling.scaleUpThreshold
      case ScaleDownAlarm => b.threshold == Int(d.autoscaling.scaleDownThreshold)
      case CpuAlarm => d.cpu.Some? && b.threshold == Get(d.cpu.value, "target_value", Int(75))
      case MemoryAlarm => d.memory.Some? && b.threshold == Get(d.memory.value, "target_value", Int(85))
      case TaskFailureAlarm => b.threshold == Int(1)
      case QueueDepthAlarm => d.depth.Some? && b.threshold == d.depth.value
  }

  /** The scaling section's alarms carry their configured thresholds. */
  lemma ScalingThresholds(env: string, name: string, d: Derived)
    ensures forall b :: b in ScalingSection(env, name, d.resources, d.autoscaling) ==> ThresholdAsConfigured(b, d)
  {
  }

  /** The optional alarms carry their configured thresholds. */
  lemma OptionalThresholds(env: string, name: string, d: Derived)
    ensures forall b :: b in OptionalAlarms(env, name, d.cpu, d.memory, d.depth) ==> ThresholdAsConfigured(b, d)
  {
    var cpuPart := CpuAlarms(env, name, d.cpu);
    var memoryPart := MemoryAlarms(env, name, d.memory);
    var breakerPart := CircuitBreakerAlarms(env, name, d.depth);
    assert forall b :: b in cpuPart ==> ThresholdAsConfigured(b, d);
    assert forall b :: b in memoryPart ==> ThresholdAsConfigured(b, d);
    assert forall b :: b in breakerPart ==> ThresholdAsConfigured(b, d);
  }

  /** Thresholds that hold in the parts that have alarms hold in the file. */
  lemma ThresholdsOfParts(front: seq<Block>, section: seq<Block>, scaling: seq<Block>, alarms: seq<Block>, outputs: seq<Block>, d: Derived)
    requires forall b :: b in front ==> !b.Alarm?
    requires forall b :: b in section ==> !b.Alarm?
    requires forall b :: b in scaling ==> ThresholdAsConfigured(b, d)
    requires forall b :: b in alarms ==> ThresholdAsConfigured(b, d)
    requires forall b :: b in outputs ==> b.Output?
    ensures forall b :: b in front + section + scaling + alarms + outputs ==> ThresholdAsConfigured(b, d)
  {
  }

  /**
   * Thresholds: the scale-up alarm fires above T, the scale-down alarm at `int(T) // 2`, the CPU and
   * memory alarms at their metric's `target_value` (75 and 85 by default), the queue-depth alarm at
   * twice `target_value`; the circuit-breaker task alarm fires below one running task.
   */
  lemma WorkerAlarmThresholds(env: string, name: string, envVars: seq<(string, Value)>, secrets: seq<string>, d: Derived)
    ensures forall b :: b in WorkerLayout(env, name, envVars, secrets, d) ==> ThresholdAsConfigured(b, d)
  {
    FrontInert(env, name, d.resources, d.deployment, ContainerVariables(env, name, envVars), ContainerSecrets(name, secrets));
    ScalingThresholds(env, name, d);
    OptionalThresholds(env, name, d);
    ThresholdsOfParts(WorkerFront(env, name, d.resources, d.deployment, ContainerVariables(env, name, envVars), ContainerSecrets(name, secrets)),
                      if secrets != [] then SecretSection(env, name, secrets) else [],
                      ScalingSection(env, name, d.resources, d.autoscaling),
                      OptionalAlarms(env, name, d.cpu, d.memory, d.depth), WorkerOutputs(name), d);
  }

  /**
   * The file ends with the six outputs (lines 716-741), and each output that reads a block of this
   * stack reads one the file declares: the queue, the ECS service, the task definition and the
   * scaling target.
   */
  lemma WorkerOutputsDeclared(env: string, name: string, envVars: seq<(string, Value)>, secrets: seq<string>, d: Derived)
    ensures var bs := WorkerLayout(env, name, envVars, secrets, d);
      var n := TfName(name);
      |bs| >= 26 &&
      bs[|bs| - 6..] == [Output("queue_url", Reference("aws_sqs_queue." + n + "_queue.url")),
                         Output("queue_arn", Reference("aws_sqs_queue." + n + "_queue.arn")),
                         Output("service_name", Reference("aws_ecs_service." + n + "_service.name")),
                         Output("cluster_name", Reference("data.terraform_remote_state.core.outputs.ecs_cluster_name")),
                         Output("task_definition_arn", Reference("aws_ecs_task_definition." + n + "_task.arn")),
                         Output("autoscaling_target_arn", Reference("aws_appautoscaling_target." + n + "_target.arn"))] &&
      bs[6].Declared? && bs[6].kind == SqsQueue && bs[6].id == n + "_queue" &&
      bs[10].TaskDefinition? && bs[10].id == n + "_task" &&
      bs[11].EcsService? && bs[11].id == n + "_service" &&
      ScalingTarget(n + "_target", Get(d.resources, "max_count", Int(10)), 1) in bs
  {
    var variables := ContainerVariables(env, name, envVars);
    var containerSecrets := ContainerSecrets(name, secrets);
    var front := WorkerFront(env, name, d.resources, d.deployment, variables, containerSecrets);
    var section := if secrets != [] then SecretSection(env, name, secrets) else [];
    var scaling := ScalingSection(env, name, d.resources, d.autoscaling);
    var alarms := OptionalAlarms(env, name, d.cpu, d.memory, d.depth);
    var outputs := WorkerOutputs(name);
    LastPart(front, section, scaling, alarms, outputs);
    FrontServiceAt(env, name, d.resources, d.deployment, variables, containerSecrets);
    FrontHeadAt(env, name, d.resources, d.deployment, variables, containerSecrets);
    FrontPositions(front, section, scaling, alarms, outputs, 6);
    FrontPositions(front, section, scaling, alarms, outputs, 10);
    FrontPositions(front, section, scaling, alarms, outputs, 11);
    ScalingInFile(front, section, scaling, alarms, outputs, 0);
  }

  /** The seventh block of the front is the queue. */
  lemma FrontHeadAt(env: string, name: string, resources: map<string, Value>, deployment: map<string, Value>,
                    variables: seq<(string, OutputValue)>, containerSecrets: seq<ContainerSecret>)
    ensures WorkerFront(env, name, resources, deployment, variables, containerSecrets)[6] == WorkerHead(env, name)[6]
  {
  }

  /** The last part of the file ends it. */
  lemma LastPart<T>(front: seq<T>, section: seq<T>, scaling: seq<T>, alarms: seq<T>, outputs: seq<T>)
    ensures var f := front + section + scaling + alarms + outputs;
      |f| >= |front| + |outputs| && f[|f| - |outputs|..] == outputs
  {
  }

  /** The first part of the file keeps its positions. */
  lemma FrontPositions(front: seq<Block>, section: seq<Block>, scaling: seq<Block>, alarms: seq<Block>, outputs: seq<Block>, i: nat)
    requires i < |front|
    ensures (front + section + scaling + alarms + outputs)[i] == front[i]
  {
  }

  /** Every block of the second part is in the file. */
  lemma SectionInFile(front: seq<Block>, section: seq<Block>, scaling: seq<Block>, alarms: seq<Block>, outputs: seq<Block>, i: nat)
    requires i < |section|
    ensures section[i] in front + section + scaling + alarms + outputs
  {
    assert (front + section + scaling + alarms + outputs)[|front| + i] == section[i];
  }

  /**
   * The execution role's secrets policy is emitted whatever the configuration and always names
   * `<name>_secrets`, which is declared only when secrets are configured.
   */
  lemma ExecutionPolicyNamesCombinedSecret(env: string, name: string, envVars: seq<(string, Value)>, secrets: seq<string>, d: Derived)
    ensures var bs := WorkerLayout(env, name, envVars, secrets, d);
      |bs| > 15 && bs[15].Declared? && bs[15].kind == IamRolePolicy && bs[15].refs == [ExecutionRoleId, CombinedSecret(env, name).id]
  {
    var front := WorkerFront(env, name, d.resources, d.deployment, ContainerVariables(env, name, envVars), ContainerSecrets(name, secrets));
    var section := if secrets != [] then SecretSection(env, name, secrets) else [];
    FrontPositions(front, section, ScalingSection(env, name, d.resources, d.autoscaling),
                   OptionalAlarms(env, name, d.cpu, d.memory, d.depth), WorkerOutputs(name), 15);
  }

  // ---------------------------------------------------------------------------
  // Sizing and what the configuration decides

  /** Where the middle part of a three-part sequence sits. */
  lemma MiddleAt<T>(a: seq<T>, b: seq<T>, c: seq<T>, i: nat)
    requires i < |b|
    ensures (a + b + c)[|a| + i] == b[i]
  {
  }

  /** The task definition and the ECS service are the eleventh and twelfth blocks. */
  lemma FrontServiceAt(env: string, name: string, resources: map<string, Value>, deployment: map<string, Value>,
                       variables: seq<(string, OutputValue)>, containerSecrets: seq<ContainerSecret>)
    ensures var bs := WorkerFront(env, name, resources, deployment, variables, containerSecrets);
      var service := ServiceBlocks(env, name, resources, deployment, variables, containerSecrets);
      bs[10] == service[0] && bs[11] == service[1]
  {
    var head := WorkerHead(env, name);
    var service := ServiceBlocks(env, name, resources, deployment, variables, containerSecrets);
    var access := WorkerAccess(env, name);
    MiddleAt(head, service, access, 0);
    MiddleAt(head, service, access, 1);
  }

  /** Every block of the third part is in the file. */
  lemma ScalingInFile(front: seq<Block>, section: seq<Block>, scaling: seq<Block>, alarms: seq<Block>, outputs: seq<Block>, i: nat)
    requires i < |scaling|
    ensures scaling[i] in front + section + scaling + alarms + outputs
  {
    assert (front + section + scaling + alarms + outputs)[|front| + |section| + i] == scaling[i];
  }

  /**
   * Sizing (lines 173-174, 260, 263-264, 490-491): cpu 256, memory 512, desired count 1, maximum
   * percent 200 and minimum healthy percent 100 unless the merged sections say otherwise; the scaling
   * target goes up to `max_count` (10) and never below one task.
   */
  lemma WorkerSizing(env: string, name: string, envVars: seq<(string, Value)>, secrets: seq<string>, d: Derived)
    ensures var bs := WorkerLayout(env, name, envVars, secrets, d);
      |bs| > 11 && bs[10].TaskDefinition? && bs[11].EcsService? &&
      bs[10].cpu == Get(d.resources, "cpu", Int(256)) && bs[10].memory == Get(d.resources, "memory", Int(512)) &&
      bs[11].desiredCount == Get(d.resources, "desired_count", Int(1)) &&
      bs[11].maximumPercent == Get(d.deployment, "maximum_percent", Int(200)) &&
      bs[11].minimumHealthyPercent == Get(d.deployment, "minimum_healthy_percent", Int(100)) &&
      ScalingTarget(TfName(name) + "_target", Get(d.resources, "max_count", Int(10)), 1) in bs
  {
    var variables := ContainerVariables(env, name, envVars);
    var containerSecrets := ContainerSecrets(name, secrets);
    var front := WorkerFront(env, name, d.resources, d.deployment, variables, containerSecrets);
    var section := if secrets != [] then SecretSection(env, name, secrets) else [];
    var scaling := ScalingSection(env, name, d.resources, d.autoscaling);
    var alarms := OptionalAlarms(env, name, d.cpu, d.memory, d.depth);
    FrontServiceAt(env, name, d.resources, d.deployment, variables, containerSecrets);
    FrontPositions(front, section, scaling, alarms, WorkerOutputs(name), 10);
    FrontPositions(front, section, scaling, alarms, WorkerOutputs(name), 11);
    ScalingInFile(front, section, scaling, alarms, WorkerOutputs(name), 0);
  }

  /**
   * The same sizes stated on the configuration: each setting is the environment's value if it has
   * one, else the base value, else the default.
   */
  lemma WorkerSizingFromConfig(cfg: ServiceConfig, env: string)
    requires WorkerBlocks(cfg, env).Ok?
    ensures var bs := WorkerBlocks(cfg, env).value;
      var e := EnvironmentOf(cfg, env);
      |bs| > 11 && bs[10].TaskDefinition? && bs[11].EcsService? &&
      bs[10].cpu == Layered(cfg.resources, e.resources, "cpu", Int(256)) &&
      bs[10].memory == Layered(cfg.resources, e.resources, "memory", Int(512)) &&
      bs[11].desiredCount == Layered(cfg.resources, e.resources, "desired_count", Int(1)) &&
      bs[11].maximumPercent == Layered(cfg.deployment, e.deployment, "maximum_percent", Int(200)) &&
      bs[11].minimumHealthyPercent == Layered(cfg.deployment, e.deployment, "minimum_healthy_percent", Int(100)) &&
      ScalingTarget(TfName(cfg.name.value) + "_target", Layered(cfg.resources, e.resources, "max_count", Int(10)), 1) in bs
  {
    var e := EnvironmentOf(cfg, env);
    var d := Derive(cfg, env).value;
    WorkerSizing(env, cfg.name.value, e.environmentVariables, cfg.secrets, d);
    OverrideGet(cfg.resources, e.resources, "cpu", Int(256));
    OverrideGet(cfg.resources, e.resources, "memory", Int(512));
    OverrideGet(cfg.resources, e.resources, "desired_count", Int(1));
    OverrideGet(cfg.resources, e.resources, "max_count", Int(10));
    OverrideGet(cfg.deployment, e.deployment, "maximum_percent", Int(200));
    OverrideGet(cfg.deployment, e.deployment, "minimum_healthy_percent", Int(100));
  }

  /**
   * The container's variables come from the environment's section only and its secrets from the
   * top-level list only (lines 23-24): a top-level `environment_variables` mapping and an
   * environment's own `secrets` list change nothing.
   */
  lemma WorkerIgnoresUnreadSettings(cfg: ServiceConfig, env: string, vars: seq<(string, Value)>, envSecrets: seq<string>)
    ensures WorkerBlocks(cfg.(environmentVariables := vars), env) == WorkerBlocks(cfg, env)
    ensures WorkerBlocks(cfg.(environments := cfg.environments[env := EnvironmentOf(cfg, env).(secrets := envSecrets)]), env)
         == WorkerBlocks(cfg, env)
  {
    IgnoresTopLevelVariables(cfg, env, vars);
    IgnoresEnvironmentSecrets(cfg, env, envSecrets);
  }

  lemma IgnoresTopLevelVariables(cfg: ServiceConfig, env: string, vars: seq<(string, Value)>)
    ensures WorkerBlocks(cfg.(environmentVariables := vars), env) == WorkerBlocks(cfg, env)
  {
    var cfg1 := cfg.(environmentVariables := vars);
    assert EnvironmentOf(cfg1, env) == EnvironmentOf(cfg, env);
    assert Derive(cfg1, env) == Derive(cfg, env);
  }

  lemma IgnoresEnvironmentSecrets(cfg: ServiceConfig, env: string, envSecrets: seq<string>)
    ensures WorkerBlocks(cfg.(environments := cfg.environments[env := EnvironmentOf(cfg, env).(secrets := envSecrets)]), env)
         == WorkerBlocks(cfg, env)
  {
    var e := EnvironmentOf(cfg, env);
    var cfg2 := cfg.(environments := cfg.environments[env := e.(secrets := envSecrets)]);
    assert EnvironmentOf(cfg2, env) == e.(secrets := envSecrets);
    assert Derive(cfg2, env) == Derive(cfg, env);
  }

  /**
   * The container gets the environment section's variables, each quoted and in order, then the
   * fixed ones; and one `valueFrom` entry per top-level secret.
   */
  lemma WorkerContainerFromConfig(cfg: ServiceConfig, env: string)
    requires WorkerBlocks(cfg, env).Ok?
    ensures var bs := WorkerBlocks(cfg, env).value;
      |bs| > 10 && bs[10].TaskDefinition? &&
      bs[10].environment == ConfiguredVariables(EnvironmentOf(cfg, env).environmentVariables)
                            + FixedWorkerVariables(env, cfg.name.value) &&
      bs[10].secrets == ContainerSecrets(cfg.name.value, cfg.secrets)
  {
    var e := EnvironmentOf(cfg, env);
    var d := Derive(cfg, env).value;
    var name := cfg.name.value;
    var front := WorkerFront(env, name, d.resources, d.deployment, ContainerVariables(env, name, e.environmentVariables),
                             ContainerSecrets(name, cfg.secrets));
    FrontPositions(front, if cfg.secrets != [] then SecretSection(env, name, cfg.secrets) else [],
                   ScalingSection(env, name, d.resources, d.autoscaling), OptionalAlarms(env, name, d.cpu, d.memory, d.depth),
                   WorkerOutputs(name), 10);
  }

  /**
   * A CPU and a memory alarm exactly when the merged `metrics` list has an entry of that name; the
   * last such entry is the one used (see `LastNamedIsLast`).
   */
  lemma MetricAlarmsFromConfig(cfg: ServiceConfig, env: string)
    requires WorkerBlocks(cfg, env).Ok?
    ensures var bs := WorkerBlocks(cfg, env).value;
      var items := MetricItems(Override(cfg.scaling, EnvironmentOf(cfg, env).scaling));
      && AlarmCount(bs, CpuAlarm) == (if LastNamed(items, CpuMetricName).Some? then 1 else 0)
      && AlarmCount(bs, MemoryAlarm) == (if LastNamed(items, MemoryMetricName).Some? then 1 else 0)
  {
    var e := EnvironmentOf(cfg, env);
    WorkerBlocksOk(cfg, env);
    WorkerAlarmCounts(env, cfg.name.value, e.environmentVariables, cfg.secrets, Derive(cfg, env).value);
  }

  /** The two circuit-breaker alarms exactly when the breaker merged key by key is enabled. */
  lemma BreakerAlarmsFromConfig(cfg: ServiceConfig, env: string)
    requires WorkerBlocks(cfg, env).Ok?
    ensures var bs := WorkerBlocks(cfg, env).value;
      var e := EnvironmentOf(cfg, env);
      BreakerOf(cfg.scaling).Ok? && BreakerOf(e.scaling).Ok? &&
      var enabled := BreakerEnabled(Override(BreakerOf(cfg.scaling).value, BreakerOf(e.scaling).value));
      && AlarmCount(bs, TaskFailureAlarm) == (if enabled then 1 else 0)
      && AlarmCount(bs, QueueDepthAlarm) == (if enabled then 1 else 0)
  {
    var e := EnvironmentOf(cfg, env);
    WorkerBlocksOk(cfg, env);
    WorkerAlarmCounts(env, cfg.name.value, e.environmentVariables, cfg.secrets, Derive(cfg, env).value);
  }

  /** A file that renders is the layout of the derived settings. */
  lemma WorkerBlocksOk(cfg: ServiceConfig, env: string)
    requires WorkerBlocks(cfg, env).Ok?
    ensures cfg.name.Some? && Derive(cfg, env).Ok?
    ensures WorkerBlocks(cfg, env).value
         == WorkerLayout(env, cfg.name.value, EnvironmentOf(cfg, env).environmentVariables, cfg.secrets, Derive(cfg, env).value)
  {
  }

  /**
   * A worker with a name and no `scaling` section anywhere renders, with the default cooldowns
   * and thresholds, no CPU or memory alarm and no circuit breaker.
   */
  lemma UnscaledWorkerRenders(cfg: ServiceConfig, env: string)
    requires cfg.name.Some? && cfg.scaling == map[] && EnvironmentOf(cfg, env).scaling == map[]
    ensures Derive(cfg, env).Ok? && WorkerBlocks(cfg, env).Ok?
    ensures var d := Derive(cfg, env).value;
      d.autoscaling == Autoscaling(30, 300, Int(10), 5) && d.cpu.None? && d.memory.None? && d.depth.None?
  {
    var scaling := Override(cfg.scaling, EnvironmentOf(cfg, env).scaling);
    assert scaling == map[];
    DefaultAutoscaling(scaling);
    assert MetricItems(scaling) == [];
    assert Override(map[], map[]) == map[];
    assert !BreakerEnabled(map[]);
  }

  /** Every kind's count at once. */
  lemma WorkerAlarmCounts(env: string, name: string, envVars: seq<(string, Value)>, secrets: seq<string>, d: Derived)
    ensures var bs := WorkerLayout(env, name, envVars, secrets, d);
      && AlarmCount(bs, ScaleUpAlarm) == 1 && AlarmCount(bs, ScaleDownAlarm) == 1
      && AlarmCount(bs, CpuAlarm) == (if d.cpu.Some? then 1 else 0)
      && AlarmCount(bs, MemoryAlarm) == (if d.memory.Some? then 1 else 0)
      && AlarmCount(bs, TaskFailureAlarm) == (if d.depth.Some? then 1 else 0)
      && AlarmCount(bs, QueueDepthAlarm) == (if d.depth.Some? then 1 else 0)
  {
    WorkerAlarms(env, name, envVars, secrets, d, ScaleUpAlarm);
    WorkerAlarms(env, name, envVars, secrets, d, ScaleDownAlarm);
    WorkerAlarms(env, name, envVars, secrets, d, CpuAlarm);
    WorkerAlarms(env, name, envVars, secrets, d, MemoryAlarm);
    WorkerAlarms(env, name, envVars, secrets, d, TaskFailureAlarm);
    WorkerAlarms(env, name, envVars, secrets, d, QueueDepthAlarm);
  }
}
