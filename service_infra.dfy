/**
 * The serverless generator (scripts/generate-service-infra.py): `generate_lambda_tf` and
 * `generate_eventbridge_tf` render one service's Terraform from its parsed `service.yaml`.
 *
 * The Terraform text is modelled as the sequence of blocks it declares, each carrying its
 * identifier, the names and settings the generator interpolates into it and the references
 * the model tracks (not every reference of the text); the fixed template text is not modelled.
 */
module ServiceInfra {
  import opened Wrappers
  import opened Strings
  import opened Yaml
  import opened Config
  import opened ApiTree
  import opened Terraform

  /** The blocks both generators emit, in the order they appear in `main.tf`. */
  datatype Block =
    | Backend(stateKey: string)
    | Provider(name: string)
    | RemoteState(id: string, stateKey: string)
    | LambdaFunction(id: string, functionName: string, memorySize: Value, timeout: int,
                     architecture: Value, variables: seq<(string, Value)>)
    | LambdaAlias(id: string, aliasName: Value, functionId: string)
    | IamRole(id: string, roleName: string)
    | RolePolicyAttachment(id: string, roleId: string)
    | Api(api: ApiBlock)
    | LambdaPermission(id: string, aliasId: string)
    | Secret(id: string, secretName: string)
    | SecretVersion(id: string, secretId: string)
    | SecretsPolicy(id: string, policyName: string, resourceList: string)
    | EventBridgePolicy(id: string, policyName: string, busId: string)
    | Output(id: string, value: OutputValue)
    | EventBus(id: string, busName: string)
    | EventRule(id: string, ruleName: string, busId: string, source: string, detailType: string)
    | EventTarget(id: string, ruleId: string, busId: string, targetId: Value)
    | CallerIdentity(id: string)

  // ---------------------------------------------------------------------------
  // Fixed identifiers and name parts of the rendered file

  const RoleSuffix := "-lambda-role"
  const FunctionPrefix := "aws_lambda_function."
  const CoreApiUrl := "data.terraform_remote_state.core.outputs.api_gateway_invoke_url"
  const RoleId := "lambda_role"
  const BasicAttachmentId := "lambda_basic"
  const UrlOutputId := "api_gateway_url"
  const StageOutputId := "api_gateway_stage"
  const ArnOutputId := "lambda_arn"
  const SecretsPolicySuffix := "-secrets-policy"
  const EventBridgePolicySuffix := "-eventbridge-policy"
  const SecretsPolicyId := "secrets_policy"
  const EventBridgePolicyId := "eventbridge_policy"
  const PermissionId := "api_gateway"
  const DefaultStage := "latest"
  const DefaultArchitecture := "arm64"
  const SecretArnPrefix := "          aws_secretsmanager_secret."

  // ---------------------------------------------------------------------------
  // Settings of the Lambda function (lines 16-18 and 56)

  /** `env_resources.get('memory', base_resources.get('memory', 512))`. */
  function MemorySetting(cfg: ServiceConfig, env: string): (v: Value)
    ensures "memory" in EnvironmentOf(cfg, env).resources ==> v == EnvironmentOf(cfg, env).resources["memory"]
    ensures "memory" !in EnvironmentOf(cfg, env).resources && "memory" in cfg.resources ==> v == cfg.resources["memory"]
    ensures "memory" !in EnvironmentOf(cfg, env).resources && "memory" !in cfg.resources ==> v == Int(512)
  {
    Get(EnvironmentOf(cfg, env).resources, "memory", Get(cfg.resources, "memory", Int(512)))
  }

  /** The timeout before conversion: env, else base, else `"30s"`. */
  function TimeoutSetting(cfg: ServiceConfig, env: string): (v: Value)
    ensures "timeout" in EnvironmentOf(cfg, env).resources ==> v == EnvironmentOf(cfg, env).resources["timeout"]
    ensures "timeout" !in EnvironmentOf(cfg, env).resources && "timeout" in cfg.resources ==> v == cfg.resources["timeout"]
    ensures "timeout" !in EnvironmentOf(cfg, env).resources && "timeout" !in cfg.resources ==> v == Str("30s")
  {
    Get(EnvironmentOf(cfg, env).resources, "timeout", Get(cfg.resources, "timeout", Str("30s")))
  }

  /** `service_config.get('resources', {}).get('architecture', 'arm64')`: the environment is never consulted. */
  function Architecture(cfg: ServiceConfig): (v: Value)
    ensures "architecture" in cfg.resources ==> v == cfg.resources["architecture"]
    ensures "architecture" !in cfg.resources ==> v == Str(DefaultArchitecture)
  {
    Get(cfg.resources, "architecture", Str(DefaultArchitecture))
  }

  /** The variables every function gets after the configured ones (lines 73-78). */
  function FixedVariables(env: string, name: string): seq<(string, Value)> {
    [("ENVIRONMENT", Str(env)), ("SERVICE_NAME", Str(name)), ("PORT", Str("8080")),
     ("AWS_LAMBDA_EXEC_WRAPPER", Str("/opt/bootstrap")), ("AWS_LWA_ASYNC_INIT", Str("true")),
     ("AWS_LWA_READINESS_CHECK_PATH", Str("/health"))]
  }

  /** The variables of the function: the environment's own, then the fixed ones (lines 69-78). */
  function Variables(cfg: ServiceConfig, env: string, name: string): seq<(string, Value)> {
    EnvironmentOf(cfg, env).environmentVariables + FixedVariables(env, name)
  }

  /** The blocks before the API resources (lines 20-109). */
  function LambdaHead(cfg: ServiceConfig, env: string, name: string, timeout: int, variables: seq<(string, Value)>): (bs: seq<Block>)
    ensures |bs| == 7
  {
    var n := TfName(name);
    [Backend(env + ServicesStateDir + name + StateFile),
     Provider("aws"),
     RemoteState("core", env + CoreStateKey),
     LambdaFunction(n, env + "-" + name, MemorySetting(cfg, env), timeout, Architecture(cfg), variables),
     LambdaAlias(n + "_alias", cfg.stage.GetOr(Str(DefaultStage)), n),
     IamRole(RoleId, env + "-" + name + RoleSuffix),
     RolePolicyAttachment(BasicAttachmentId, RoleId)]
  }

  /** The API-gateway blocks, as blocks of `main.tf`. */
  function ApiBlocks(api: seq<ApiBlock>): (bs: seq<Block>)
    ensures |bs| == |api|
    ensures forall k :: 0 <= k < |api| ==> bs[k] == Api(api[k])
  {
    seq(|api|, k requires 0 <= k < |api| => Api(api[k]))
  }

  // ---------------------------------------------------------------------------
  // Secrets (lines 181-239)

  /** `f"{name}_{secret}".replace('-', '_')`. */
  function SecretId(name: string, secret: string): (id: string)
    ensures |id| == |name| + 1 + |secret| && '-' !in id
    ensures forall i :: 0 <= i < |id| ==>
      id[i] == (var c := (name + "_" + secret)[i]; if c == '-' then '_' else c)
    ensures '-' !in name && '-' !in secret ==> id == name + "_" + secret
  {
    TfName(name + "_" + secret)
  }

  /** The secret and its placeholder version, for each secret in order. */
  function SecretBlocks(env: string, name: string, secrets: seq<string>): (bs: seq<Block>)
    ensures |bs| == 2 * |secrets|
    decreases |secrets|
  {
    if secrets == [] then []
    else
      var secret := secrets[|secrets| - 1];
      var id := SecretId(name, secret);
      SecretBlocks(env, name, secrets[..|secrets| - 1])
        + [Secret(id, env + "/" + name + "/" + secret), SecretVersion(id + "_version", id)]
  }

  /** The end of the text before the ARN lines: the opening of the policy's `Resource` list. */
  const ResourceListHeader := "        Resource = [\n"

  /** One ARN line without its trailing `,\n`. */
  function ArnEntry(name: string, secret: string): string {
    SecretArnPrefix + SecretId(name, secret) + ".arn"
  }

  /** One line the loop of lines 228-230 appends. */
  function ArnLine(name: string, secret: string): string {
    ArnEntry(name, secret) + ",\n"
  }

  /** The policy text once the loop of lines 228-230 has appended one line per secret. */
  function ArnText(name: string, secrets: seq<string>): string
    decreases |secrets|
  {
    if secrets == [] then ResourceListHeader
    else ArnText(name, secrets[..|secrets| - 1]) + ArnLine(name, secrets[|secrets| - 1])
  }

  /** The ARN of each secret, in order. */
  function ArnEntries(name: string, secrets: seq<string>): (es: seq<string>)
    ensures |es| == |secrets|
    ensures forall k :: 0 <= k < |secrets| ==> es[k] == ArnEntry(name, secrets[k])
  {
    seq(|secrets|, k requires 0 <= k < |secrets| => ArnEntry(name, secrets[k]))
  }

  /** The `Resource` list as intended: one ARN per secret, comma-separated, no trailing comma. */
  function ResourceListText(name: string, secrets: seq<string>): string {
    if secrets == [] then ResourceListHeader
    else ResourceListHeader + Join(ArnEntries(name, secrets), ",\n") + "\n"
  }

  // ---------------------------------------------------------------------------
  // The whole of `generate_lambda_tf`

  /** The permission that lets the API gateway invoke the alias (lines 169-177). */
  function Permission(name: string): Block {
    LambdaPermission(PermissionId, TfName(name) + "_alias")
  }

  /** The secrets policy, present only when there are secrets (lines 212-239). */
  function SecretsPolicySection(env: string, name: string, secrets: seq<string>): (bs: seq<Block>)
    ensures |bs| == if secrets == [] then 0 else 1
    ensures forall b :: b in bs ==> b.SecretsPolicy?
  {
    if secrets == [] then []
    else [SecretsPolicy(SecretsPolicyId, env + "-" + name + SecretsPolicySuffix, ResourceListText(name, secrets))]
  }

  /** The EventBridge policy, present only when `event_routing` is non-empty (lines 242-262). */
  function EventBridgePolicySection(env: string, name: string, routings: seq<EventRouting>): (bs: seq<Block>)
    ensures |bs| == if routings == [] then 0 else 1
    ensures forall b :: b in bs ==> b.EventBridgePolicy?
  {
    if routings == [] then []
    else [EventBridgePolicy(EventBridgePolicyId, env + "-" + name + EventBridgePolicySuffix, TfName(name) + "_events")]
  }

  /**
   * The three outputs (lines 264-276): the function's ARN, the core API's invoke URL and the
   * stage, `latest` unless `stage` is set.
   */
  function Outputs(name: string, stage: Option<Value>): (bs: seq<Block>)
    ensures |bs| == 3 && forall b :: b in bs ==> b.Output?
    ensures bs[0] == Output("lambda_arn", Reference("aws_lambda_function." + TfName(name) + ".arn"))
    ensures bs[1] == Output("api_gateway_url", Reference("data.terraform_remote_state.core.outputs.api_gateway_invoke_url"))
    ensures stage.Some? ==> bs[2] == Output("api_gateway_stage", Quoted(stage.value))
    ensures stage.None? ==> bs[2] == Output("api_gateway_stage", Quoted(Str("latest")))
  {
    [Output(ArnOutputId, Reference(FunctionPrefix + TfName(name) + ".arn")),
     Output(UrlOutputId, Reference(CoreApiUrl)),
     Output(StageOutputId, Quoted(stage.GetOr(Str(DefaultStage))))]
  }

  /** The part of the file up to the permission. */
  function LambdaFront(cfg: ServiceConfig, env: string, name: string, timeout: int, api: seq<ApiBlock>): seq<Block> {
    LambdaHead(cfg, env, name, timeout, Variables(cfg, env, name)) + ApiBlocks(api) + [Permission(name)]
  }

  /** The part of the file after the permission. */
  function LambdaBack(cfg: ServiceConfig, env: string, name: string): seq<Block> {
    SecretBlocks(env, name, cfg.secrets)
    + SecretsPolicySection(env, name, cfg.secrets)
    + EventBridgePolicySection(env, name, cfg.eventRouting)
    + Outputs(name, cfg.stage)
  }

  /** The rendered file once `name`, the timeout and the API resource tree `api` are known. */
  function LambdaLayout(cfg: ServiceConfig, env: string, name: string, timeout: int, api: seq<ApiBlock>): seq<Block> {
    LambdaFront(cfg, env, name, timeout, api) + LambdaBack(cfg, env, name)
  }

  /** What `generate_lambda_tf(service_config, environment)` renders, or the error it raises. */
  function LambdaBlocks(cfg: ServiceConfig, env: string): Result<seq<Block>, ConfigError> {
    var name :- NameOf(cfg);
    var timeout :- DurationByRemove(TimeoutSetting(cfg, env));
    Ok(LambdaLayout(cfg, env, name, timeout, BuildTree(name, cfg.routing).out))
  }

  /** The secrets loop of lines 186-209. */
  method SecretResources(env: string, name: string, secrets: seq<string>) returns (out: seq<Block>)
    ensures out == SecretBlocks(env, name, secrets)
  {
    out := [];
    for i := 0 to |secrets|
      invariant out == SecretBlocks(env, name, secrets[..i])
    {
      var secretName := env + "/" + name + "/" + secrets[i];
      var resourceName := TfName(name + "_" + secrets[i]);
      out := out + [Secret(resourceName, secretName), SecretVersion(resourceName + "_version", resourceName)];
      assert secrets[..i + 1][..i] == secrets[..i];
    }
    assert secrets[..|secrets|] == secrets;
  }

  /** The ARN loop of lines 228-230 followed by the trim of line 232. */
  method ResourceList(name: string, secrets: seq<string>) returns (text: string)
    ensures text == ResourceListText(name, secrets)
  {
    text := ResourceListHeader;
    for i := 0 to |secrets|
      invariant text == ArnText(name, secrets[..i])
    {
      text := text + ArnLine(name, secrets[i]);
      assert secrets[..i + 1][..i] == secrets[..i];
    }
    assert secrets[..|secrets|] == secrets;
    TrimArnLines(name, secrets);
    text := RStripAny(text, {',', '\n'}) + "\n";
  }

  /** The loops and conditionals of `generate_lambda_tf` (lines 6-278): the blocks up to the permission, then the rest. */
  method GenerateLambda(cfg: ServiceConfig, env: string) returns (r: Result<seq<Block>, ConfigError>)
    ensures r == LambdaBlocks(cfg, env)
  {
    if cfg.name.None? {
      return Err(MissingName);
    }
    var name := cfg.name.value;
    var timeout := DurationByRemove(TimeoutSetting(cfg, env));
    if timeout.Err? {
      return Err(timeout.error);
    }
    var front := LambdaFrontBlocks(cfg, env, name, timeout.value);
    var back := LambdaTail(cfg, env, name);
    r := Ok(front + back);
  }

  /** The blocks up to the permission (lines 20-177), with the variables gathered by the loop of lines 69-78. */
  method LambdaFrontBlocks(cfg: ServiceConfig, env: string, name: string, timeout: int) returns (front: seq<Block>)
    ensures front == LambdaFront(cfg, env, name, timeout, BuildTree(name, cfg.routing).out)
  {
    var variables := LambdaVariables(cfg, env, name);
    front := LambdaHead(cfg, env, name, timeout, variables);
    var api := BuildApiResources(name, cfg.routing);
    front := front + ApiBlocks(api) + [Permission(name)];
  }

  /** The environment's variables copied one by one, then the fixed ones (lines 69-78). */
  method LambdaVariables(cfg: ServiceConfig, env: string, name: string) returns (variables: seq<(string, Value)>)
    ensures variables == Variables(cfg, env, name)
  {
    var own := EnvironmentOf(cfg, env).environmentVariables;
    variables := [];
    for k := 0 to |own|
      invariant variables == own[..k]
    {
      variables := variables + [own[k]];
    }
    assert own[..|own|] == own;
    variables := variables + FixedVariables(env, name);
  }

  /** The blocks after the permission (lines 181-276): secrets, the two optional policies, the outputs. */
  method LambdaTail(cfg: ServiceConfig, env: string, name: string) returns (back: seq<Block>)
    ensures back == LambdaBack(cfg, env, name)
  {
    back := SecretResources(env, name, cfg.secrets);
    var policy := [];
    if cfg.secrets != [] {
      var resourceList := ResourceList(name, cfg.secrets);
      policy := [SecretsPolicy(SecretsPolicyId, env + "-" + name + SecretsPolicySuffix, resourceList)];
    }
    back := back + policy;
    var eventPolicy := [];
    if cfg.eventRouting != [] {
      eventPolicy := [EventBridgePolicy(EventBridgePolicyId, env + "-" + name + EventBridgePolicySuffix, TfName(name) + "_events")];
    }
    back := back + eventPolicy + Outputs(name, cfg.stage);
  }

  // ---------------------------------------------------------------------------
  // Properties of `generate_lambda_tf`

  /** Each secret contributes its resource, named `env/name/secret`, and then its version, in input order. */
  lemma {:induction false} SecretBlocksAt(env: string, name: string, secrets: seq<string>)
    ensures forall k :: 0 <= k < |secrets| ==>
      SecretBlocks(env, name, secrets)[2 * k] == Secret(SecretId(name, secrets[k]), env + "/" + name + "/" + secrets[k]) &&
      SecretBlocks(env, name, secrets)[2 * k + 1] == SecretVersion(SecretId(name, secrets[k]) + "_version", SecretId(name, secrets[k]))
  {
    if secrets != [] {
      var init := secrets[..|secrets| - 1];
      SecretBlocksAt(env, name, init);
      forall k | 0 <= k < |init|
        ensures secrets[k] == init[k]
      {
      }
    }
  }

  /** Every block a secret contributes is a secret or a secret version. */
  lemma {:induction false} SecretBlocksKinds(env: string, name: string, secrets: seq<string>)
    ensures forall b :: b in SecretBlocks(env, name, secrets) ==> b.Secret? || b.SecretVersion?
  {
    if secrets != [] {
      SecretBlocksKinds(env, name, secrets[..|secrets| - 1]);
    }
  }

  /** After at least one secret, the text is the header, the ARNs joined by `,\n`, and one more `,\n`. */
  lemma {:induction false} ArnTextJoin(name: string, secrets: seq<string>)
    requires secrets != []
    ensures ArnText(name, secrets) == ResourceListHeader + Join(ArnEntries(name, secrets), ",\n") + ",\n"
  {
    var init := secrets[..|secrets| - 1];
    var last := secrets[|secrets| - 1];
    if init == [] {
      assert ArnEntries(name, secrets) == [ArnEntry(name, last)];
      assert ArnText(name, init) == ResourceListHeader;
    } else {
      ArnTextJoin(name, init);
      assert ArnEntries(name, secrets) == ArnEntries(name, init) + [ArnEntry(name, last)];
      JoinSnoc(ArnEntries(name, init), ArnEntry(name, last), ",\n");
      Regroup(ResourceListHeader, Join(ArnEntries(name, init), ",\n"), ",\n", ArnEntry(name, last));
    }
  }

  /** Moving a separator from the end of one part to the start of the next. */
  lemma Regroup(h: string, j: string, sep: string, e: string)
    ensures (h + j + sep) + (e + sep) == h + (j + sep + e) + sep
  {
  }

  /** `rstrip(',\n')` removes exactly the last line's `,\n`, because every ARN line ends in `arn`. */
  lemma TrimArnLines(name: string, secrets: seq<string>)
    ensures RStripAny(ArnText(name, secrets), {',', '\n'}) + "\n" == ResourceListText(name, secrets)
  {
    if secrets == [] {
      TrimHeader();
    } else {
      ArnTextJoin(name, secrets);
      var lastEntry := ArnEntry(name, secrets[|secrets| - 1]);
      assert lastEntry[|lastEntry| - 1] == 'n';
      TrimJoined(ResourceListHeader, ArnEntries(name, secrets));
    }
  }

  /** With no secrets there is nothing to strip: the header ends in `[` before its newline. */
  lemma TrimHeader()
    ensures RStripAny(ResourceListHeader, {',', '\n'}) + "\n" == ResourceListHeader
  {
    var cs := {',', '\n'};
    assert ResourceListHeader == "        Resource = [" + "\n";
    RStripAnyAppended("        Resource = [", "\n", cs);
    RStripAnyKeeps("        Resource = [", cs);
  }

  /** Entries joined by `,\n` and followed by one more `,\n` lose just that `,\n` when the last entry ends otherwise. */
  lemma TrimJoined(h: string, xs: seq<string>)
    requires xs != [] && xs[|xs| - 1] != [] && xs[|xs| - 1][|xs[|xs| - 1]| - 1] !in {',', '\n'}
    ensures RStripAny(h + Join(xs, ",\n") + ",\n", {',', '\n'}) == h + Join(xs, ",\n")
  {
    var cs := {',', '\n'};
    var body := h + Join(xs, ",\n");
    RStripAnyAppended(body, ",\n", cs);
    JoinEndsWithLast(xs, ",\n");
    assert body[|body| - 1] == xs[|xs| - 1][|xs[|xs| - 1]| - 1];
    RStripAnyKeeps(body, cs);
  }

  /** A join of non-empty elements ends with the last element's last character. */
  lemma {:induction false} JoinEndsWithLast(xs: seq<string>, sep: string)
    requires xs != [] && xs[|xs| - 1] != []
    ensures |Join(xs, sep)| >= |xs[|xs| - 1]|
    ensures Join(xs, sep)[|Join(xs, sep)| - 1] == xs[|xs| - 1][|xs[|xs| - 1]| - 1]
  {
    if |xs| > 1 {
      assert xs[1..][|xs[1..]| - 1] == xs[|xs| - 1];
      JoinEndsWithLast(xs[1..], sep);
    }
  }

  /** The only ways `generate_lambda_tf` fails: a missing `name`, or a timeout that is not digits once `s` is removed. */
  lemma LambdaErrors(cfg: ServiceConfig, env: string)
    ensures cfg.name.None? ==> LambdaBlocks(cfg, env) == Err(MissingName)
    ensures cfg.name.Some? ==>
      (LambdaBlocks(cfg, env).Err? <==> DurationByRemove(TimeoutSetting(cfg, env)).Err?)
    ensures LambdaBlocks(cfg, env).Ok? ==>
      LambdaBlocks(cfg, env).value == LambdaLayout(cfg, env, cfg.name.value, DurationByRemove(TimeoutSetting(cfg, env)).value,
                                                BuildTree(cfg.name.value, cfg.routing).out)
  {
  }

  /** The function's settings: memory and timeout by precedence, architecture from the base section, variables in order. */
  lemma LambdaFunctionSettings(cfg: ServiceConfig, env: string, name: string, timeout: int, api: seq<ApiBlock>)
    ensures var f := LambdaLayout(cfg, env, name, timeout, api)[3];
      f == LambdaFunction(TfName(name), env + "-" + name, MemorySetting(cfg, env), timeout, Architecture(cfg),
                          EnvironmentOf(cfg, env).environmentVariables + FixedVariables(env, name))
  {
    var head := LambdaHead(cfg, env, name, timeout, Variables(cfg, env, name));
    assert LambdaFront(cfg, env, name, timeout, api)[3] == head[3];
  }

  /** With no timeout configured anywhere, the function gets 30 seconds. */
  lemma DefaultTimeout(cfg: ServiceConfig, env: string)
    requires cfg.name.Some?
    requires "timeout" !in EnvironmentOf(cfg, env).resources && "timeout" !in cfg.resources
    ensures LambdaBlocks(cfg, env) == Ok(LambdaLayout(cfg, env, cfg.name.value, 30, BuildTree(cfg.name.value, cfg.routing).out))
  {
    DefaultShortDuration(TimeoutSetting(cfg, env));
  }

  /** The `environments` section has no say over the architecture. */
  lemma ArchitectureIgnoresEnvironment(cfg: ServiceConfig, env: string, name: string, timeout: int, api: seq<ApiBlock>, envs: map<string, EnvConfig>)
    ensures LambdaLayout(cfg, env, name, timeout, api)[3].LambdaFunction?
    ensures LambdaLayout(cfg.(environments := envs), env, name, timeout, api)[3]
         == LambdaLayout(cfg, env, name, timeout, api)[3].(
              memorySize := MemorySetting(cfg.(environments := envs), env),
              variables := EnvironmentOf(cfg.(environments := envs), env).environmentVariables + FixedVariables(env, name))
  {
    LambdaFunctionSettings(cfg, env, name, timeout, api);
    LambdaFunctionSettings(cfg.(environments := envs), env, name, timeout, api);
  }

  /** The API blocks are exactly the resource tree, right after the head and right before the permission. */
  lemma LambdaApiBlocks(cfg: ServiceConfig, env: string, name: string, timeout: int, api: seq<ApiBlock>)
    ensures |LambdaLayout(cfg, env, name, timeout, api)| > 7 + |api|
    ensures forall k :: 0 <= k < |api| ==> LambdaLayout(cfg, env, name, timeout, api)[7 + k] == Api(api[k])
    ensures LambdaLayout(cfg, env, name, timeout, api)[7 + |api|] == LambdaPermission(PermissionId, TfName(name) + "_alias")
  {
    FrontAt(LambdaHead(cfg, env, name, timeout, Variables(cfg, env, name)), ApiBlocks(api), Permission(name), LambdaBack(cfg, env, name));
  }

  /** After the permission come the secrets' blocks, in input order (`SecretBlocksAt` says what each one is). */
  lemma LambdaSecretBlocks(cfg: ServiceConfig, env: string, name: string, timeout: int, api: seq<ApiBlock>)
    ensures |LambdaLayout(cfg, env, name, timeout, api)| >= 8 + |api| + 2 * |cfg.secrets|
    ensures LambdaLayout(cfg, env, name, timeout, api)[8 + |api|..8 + |api| + 2 * |cfg.secrets|] == SecretBlocks(env, name, cfg.secrets)
  {
    BackAt(LambdaFront(cfg, env, name, timeout, api), SecretBlocks(env, name, cfg.secrets), SecretsPolicySection(env, name, cfg.secrets),
           EventBridgePolicySection(env, name, cfg.eventRouting), Outputs(name, cfg.stage));
  }

  /**
   * The file ends with the three outputs; the ARN output reads the function the file declares, and
   * the stage output is the name of the alias the file declares.
   */
  lemma LambdaOutputs(cfg: ServiceConfig, env: string, name: string, timeout: int, api: seq<ApiBlock>)
    ensures var f := LambdaLayout(cfg, env, name, timeout, api);
      var stage := cfg.stage.GetOr(Str("latest"));
      |f| >= 7 &&
      f[|f| - 3..] == [Output("lambda_arn", Reference("aws_lambda_function." + TfName(name) + ".arn")),
                       Output("api_gateway_url", Reference("data.terraform_remote_state.core.outputs.api_gateway_invoke_url")),
                       Output("api_gateway_stage", Quoted(stage))] &&
      f[3].LambdaFunction? && f[3].id == TfName(name) &&
      f[4] == LambdaAlias(TfName(name) + "_alias", stage, TfName(name))
  {
    var front := LambdaFront(cfg, env, name, timeout, api);
    var outputs := Outputs(name, cfg.stage);
    EndsWith(front, SecretBlocks(env, name, cfg.secrets), SecretsPolicySection(env, name, cfg.secrets),
             EventBridgePolicySection(env, name, cfg.eventRouting), outputs);
    FrontDeclaresFunction(cfg, env, name, timeout, api);
    assert outputs == [outputs[0], outputs[1], outputs[2]];
  }

  /** The fourth and fifth blocks are the function and its alias. */
  lemma FrontDeclaresFunction(cfg: ServiceConfig, env: string, name: string, timeout: int, api: seq<ApiBlock>)
    ensures var front := LambdaFront(cfg, env, name, timeout, api);
      |front| > 4 && front[3].LambdaFunction? && front[3].id == TfName(name) &&
      front[4] == LambdaAlias(TfName(name) + "_alias", cfg.stage.GetOr(Str("latest")), TfName(name))
  {
    var head := LambdaHead(cfg, env, name, timeout, Variables(cfg, env, name));
    assert LambdaFront(cfg, env, name, timeout, api)[3] == head[3];
    assert LambdaFront(cfg, env, name, timeout, api)[4] == head[4];
  }

  /** Where the last part of the back sits. */
  lemma EndsWith<T>(f: seq<T>, s: seq<T>, x: seq<T>, y: seq<T>, z: seq<T>)
    ensures |f + (s + x + y + z)| >= |f| + |z|
    ensures (f + (s + x + y + z))[..|f|] == f
    ensures (f + (s + x + y + z))[|f + (s + x + y + z)| - |z|..] == z
  {
    assert (f + (s + x + y + z))[|f|..] == s + x + y + z;
  }

  /** Where the parts of a file built as head, API blocks, permission and back sit. */
  lemma FrontAt<T>(h: seq<T>, a: seq<T>, p: T, b: seq<T>)
    ensures |h + a + [p] + b| > |h| + |a|
    ensures forall k :: 0 <= k < |a| ==> (h + a + [p] + b)[|h| + k] == a[k]
    ensures (h + a + [p] + b)[|h| + |a|] == p
  {
  }

  /** Where the first part of the back sits. */
  lemma BackAt<T>(f: seq<T>, s: seq<T>, x: seq<T>, y: seq<T>, z: seq<T>)
    ensures |f + (s + x + y + z)| >= |f| + |s|
    ensures (f + (s + x + y + z))[|f|..|f| + |s|] == s
  {
    assert (f + (s + x + y + z))[|f|..] == s + x + y + z;
  }

  /** No block other than the secrets-policy section is a secrets policy, and only the EventBridge section is an EventBridge policy. */
  lemma LambdaLayoutKinds(cfg: ServiceConfig, env: string, name: string, timeout: int, api: seq<ApiBlock>)
    ensures forall b :: b in LambdaLayout(cfg, env, name, timeout, api) && b.SecretsPolicy? ==>
      b in SecretsPolicySection(env, name, cfg.secrets)
    ensures forall b :: b in LambdaLayout(cfg, env, name, timeout, api) && b.EventBridgePolicy? ==>
      b in EventBridgePolicySection(env, name, cfg.eventRouting)
  {
    FrontKinds(cfg, env, name, timeout, api);
    BackKinds(cfg, env, name);
  }

  /** The front holds no policy. */
  lemma FrontKinds(cfg: ServiceConfig, env: string, name: string, timeout: int, api: seq<ApiBlock>)
    ensures forall b :: b in LambdaFront(cfg, env, name, timeout, api) ==> !b.SecretsPolicy? && !b.EventBridgePolicy?
  {
    assert forall b :: b in ApiBlocks(api) ==> b.Api?;
  }

  /** In the back, each policy sits in its own section. */
  lemma BackKinds(cfg: ServiceConfig, env: string, name: string)
    ensures forall b :: b in LambdaBack(cfg, env, name) && b.SecretsPolicy? ==> b in SecretsPolicySection(env, name, cfg.secrets)
    ensures forall b :: b in LambdaBack(cfg, env, name) && b.EventBridgePolicy? ==> b in EventBridgePolicySection(env, name, cfg.eventRouting)
  {
    var secrets := SecretBlocks(env, name, cfg.secrets);
    var policies := SecretsPolicySection(env, name, cfg.secrets);
    var events := EventBridgePolicySection(env, name, cfg.eventRouting);
    var outputs := Outputs(name, cfg.stage);
    SecretBlocksKinds(env, name, cfg.secrets);
    InFourParts(secrets, policies, events, outputs);
    forall b | b in LambdaBack(cfg, env, name)
      ensures b.SecretsPolicy? ==> b in policies
      ensures b.EventBridgePolicy? ==> b in events
    {
      assert b in secrets || b in policies || b in events || b in outputs;
    }
  }

  lemma InFourParts<T>(a: seq<T>, b: seq<T>, c: seq<T>, d: seq<T>)
    ensures forall x :: x in a + b + c + d ==> x in a || x in b || x in c || x in d
  {
  }

  /** The secrets policy is emitted exactly when there are secrets, and it lists their ARNs. */
  lemma SecretsPolicyIff(cfg: ServiceConfig, env: string, name: string, timeout: int, api: seq<ApiBlock>)
    ensures (exists b :: b in LambdaLayout(cfg, env, name, timeout, api) && b.SecretsPolicy?) <==> cfg.secrets != []
    ensures forall b :: b in LambdaLayout(cfg, env, name, timeout, api) && b.SecretsPolicy? ==>
      b.resourceList == ResourceListText(name, cfg.secrets)
  {
    LambdaLayoutKinds(cfg, env, name, timeout, api);
    var section := SecretsPolicySection(env, name, cfg.secrets);
    if cfg.secrets != [] {
      assert section[0] in LambdaLayout(cfg, env, name, timeout, api);
    }
  }

  /** The EventBridge policy is emitted exactly when `event_routing` is non-empty, and it grants access to the service's bus. */
  lemma EventBridgePolicyIff(cfg: ServiceConfig, env: string, name: string, timeout: int, api: seq<ApiBlock>)
    ensures (exists b :: b in LambdaLayout(cfg, env, name, timeout, api) && b.EventBridgePolicy?) <==> cfg.eventRouting != []
    ensures forall b :: b in LambdaLayout(cfg, env, name, timeout, api) && b.EventBridgePolicy? ==>
      b.busId == TfName(name) + "_events"
  {
    LambdaLayoutKinds(cfg, env, name, timeout, api);
    var section := EventBridgePolicySection(env, name, cfg.eventRouting);
    if cfg.eventRouting != [] {
      assert section[0] in LambdaLayout(cfg, env, name, timeout, api);
    }
  }

  // ---------------------------------------------------------------------------
  // `generate_eventbridge_tf` (lines 280-332)

  /** `f"{name}_{event_type}".replace('-', '_').replace('.', '_')`. */
  function RuleId(name: string, event: string): (id: string)
    ensures |id| == |name| + 1 + |event|
    ensures '-' !in id && '.' !in id
    ensures forall i :: 0 <= i < |id| ==>
      id[i] == (var c := (name + "_" + event)[i]; if c == '-' || c == '.' then '_' else c)
    ensures '-' !in name + event && '.' !in name + event ==> id == name + "_" + event
  {
    ReplaceChar(ReplaceChar(name + "_" + event, '-', '_'), '.', '_')
  }

  /** `f"{rule_name}_target_{i}"`. */
  function TargetId(rule: string, i: nat): string {
    rule + "_target_" + NatToDecimal(i)
  }

  /** `target.get('queue', target)`. */
  function QueueOf(target: map<string, Value>): (v: Value)
    ensures "queue" in target ==> v == target["queue"]
    ensures "queue" !in target ==> v == Dict(target)
  {
    if "queue" in target then target["queue"] else Dict(target)
  }

  /** The targets of one rule, numbered from 0. */
  function TargetBlocks(rule: string, busId: string, targets: seq<map<string, Value>>): seq<Block>
    decreases |targets|
  {
    if targets == [] then []
    else
      var i := |targets| - 1;
      TargetBlocks(rule, busId, targets[..i]) + [EventTarget(TargetId(rule, i), rule, busId, QueueOf(targets[i]))]
  }

  function RuleBlock(env: string, name: string, routing: EventRouting): Block {
    var event := routing.event.GetOr("");
    EventRule(RuleId(name, event), env + "-" + name + "-" + event, TfName(name) + "_events", name, event)
  }

  /** Each routing's rule followed by its targets, in order. */
  function RuleBlocks(env: string, name: string, routings: seq<EventRouting>): seq<Block>
    decreases |routings|
  {
    if routings == [] then []
    else
      var routing := routings[|routings| - 1];
      RuleBlocks(env, name, routings[..|routings| - 1])
        + [RuleBlock(env, name, routing)]
        + TargetBlocks(RuleId(name, routing.event.GetOr("")), TfName(name) + "_events", routing.targets)
  }

  /** What `generate_eventbridge_tf(service_config, environment)` renders, or the error it raises. */
  function EventBridgeBlocks(cfg: ServiceConfig, env: string): Result<seq<Block>, ConfigError> {
    var name :- NameOf(cfg);
    Ok([EventBus(TfName(name) + "_events", env + "-" + name + "-events")]
       + RuleBlocks(env, name, cfg.eventRouting)
       + (if cfg.eventRouting != [] then [CallerIdentity("current")] else []))
  }

  /** The target loop of lines 311-323. */
  method RuleTargets(rule: string, busId: string, targets: seq<map<string, Value>>) returns (out: seq<Block>)
    ensures out == TargetBlocks(rule, busId, targets)
  {
    out := [];
    for i := 0 to |targets|
      invariant out == TargetBlocks(rule, busId, targets[..i])
    {
      var target := targets[i];
      var queueName := if "queue" in target then target["queue"] else Dict(target);
      out := out + [EventTarget(rule + "_target_" + NatToDecimal(i), rule, busId, queueName)];
      assert targets[..i + 1][..i] == targets[..i];
    }
    assert targets[..|targets|] == targets;
  }

  /** The loops and conditional of `generate_eventbridge_tf`. */
  method GenerateEventBridge(cfg: ServiceConfig, env: string) returns (r: Result<seq<Block>, ConfigError>)
    ensures r == EventBridgeBlocks(cfg, env)
  {
    if cfg.name.None? {
      return Err(MissingName);
    }
    var name := cfg.name.value;
    var busId := TfName(name) + "_events";
    var rules := [];
    for j := 0 to |cfg.eventRouting|
      invariant rules == RuleBlocks(env, name, cfg.eventRouting[..j])
    {
      var routing := cfg.eventRouting[j];
      var eventType := routing.event.GetOr("");
      var ruleName := ReplaceChar(ReplaceChar(name + "_" + eventType, '-', '_'), '.', '_');
      var targets := RuleTargets(ruleName, busId, routing.targets);
      var rule := EventRule(ruleName, env + "-" + name + "-" + eventType, busId, name, eventType);
      assert rule == RuleBlock(env, name, routing);
      rules := rules + [rule] + targets;
      assert cfg.eventRouting[..j + 1][..j] == cfg.eventRouting[..j];
    }
    assert cfg.eventRouting[..|cfg.eventRouting|] == cfg.eventRouting;
    var caller := [];
    if cfg.eventRouting != [] {
      caller := [CallerIdentity("current")];
    }
    r := Ok([EventBus(busId, env + "-" + name + "-events")] + rules + caller);
  }

  // ---------------------------------------------------------------------------
  // Properties of `generate_eventbridge_tf`

  /** The i-th target of a rule is `rule_target_i`, aimed at its `queue` (or at the target itself). */
  lemma {:induction false} TargetBlocksAt(rule: string, busId: string, targets: seq<map<string, Value>>)
    ensures |TargetBlocks(rule, busId, targets)| == |targets|
    ensures forall i :: 0 <= i < |targets| ==>
      TargetBlocks(rule, busId, targets)[i] == EventTarget(TargetId(rule, i), rule, busId, QueueOf(targets[i]))
  {
    if targets != [] {
      var init := targets[..|targets| - 1];
      TargetBlocksAt(rule, busId, init);
      forall i | 0 <= i < |init|
        ensures targets[i] == init[i]
      {
      }
    }
  }

  /** Different indices give different target names. */
  lemma TargetIdsDistinct(rule: string, i: nat, j: nat)
    requires i != j
    ensures TargetId(rule, i) != TargetId(rule, j)
  {
    var p := rule + "_target_";
    if TargetId(rule, i) == TargetId(rule, j) {
      assert TargetId(rule, i)[|p|..] == NatToDecimal(i);
      assert TargetId(rule, j)[|p|..] == NatToDecimal(j);
      NatToDecimalInjective(i, j);
    }
  }

  /** Rules and targets are the only blocks the routing loop emits. */
  lemma {:induction false} RuleBlocksKinds(env: string, name: string, routings: seq<EventRouting>)
    ensures forall b :: b in RuleBlocks(env, name, routings) ==> b.EventRule? || b.EventTarget?
  {
    if routings != [] {
      var routing := routings[|routings| - 1];
      RuleBlocksKinds(env, name, routings[..|routings| - 1]);
      TargetBlocksAt(RuleId(name, routing.event.GetOr("")), TfName(name) + "_events", routing.targets);
    }
  }

  /** The bus comes first, whatever the routing; the caller-identity data block is emitted exactly when `event_routing` is non-empty. */
  lemma CallerIdentityIff(cfg: ServiceConfig, env: string)
    requires cfg.name.Some?
    ensures var r := EventBridgeBlocks(cfg, env);
      r.Ok? && r.value[0] == EventBus(TfName(cfg.name.value) + "_events", env + "-" + cfg.name.value + "-events") &&
      ((exists b :: b in r.value && b.CallerIdentity?) <==> cfg.eventRouting != [])
  {
    RuleBlocksKinds(env, cfg.name.value, cfg.eventRouting);
    var r := EventBridgeBlocks(cfg, env);
    if cfg.eventRouting != [] {
      assert r.value[|r.value| - 1] == CallerIdentity("current");
    }
  }

  /** A missing `name` aborts both generators with the same error. */
  lemma MissingNameAbortsBoth(cfg: ServiceConfig, env: string)
    requires cfg.name.None?
    ensures LambdaBlocks(cfg, env) == Err(MissingName)
    ensures EventBridgeBlocks(cfg, env) == Err(MissingName)
  {
  }
}
