# Service infrastructure generators, modelled in Dafny

The repository deploys each service from a `service.yaml` file. Two Python scripts turn that file, plus an
environment name, into a Terraform `main.tf`:

- `scripts/generate-service-infra.py` covers serverless services. `generate_lambda_tf` renders the Lambda
  function, its alias and role, the API-gateway resource tree built from `routing`, one Secrets Manager
  secret per configured secret with a policy listing their ARNs, an optional EventBridge policy and the
  outputs. `generate_eventbridge_tf` renders the service's event bus, one rule per `event_routing` entry
  with numbered targets, and a caller-identity data block.
- `scripts/generate-worker-infra.py` covers queue-driven ECS workers. `generate_worker_terraform` merges
  the base and environment sections. It then renders the queues, task definition and ECS service, roles,
  one combined secret, step-scaling policies with their queue alarms, the optional CPU, memory and
  circuit-breaker alarms, and the outputs.

The model takes the parsed configuration as typed records (`Config.ServiceConfig`, `Config.EnvConfig`,
with `Yaml.Value` for settings that are only echoed or converted). A rendered file is modelled as the
sequence of blocks it declares. Each block carries its Terraform identifier, the names and settings
interpolated into it, and the references the model tracks. Those are not every reference the text
contains ("## Left out" lists the ones not tracked). The fixed template text is not modelled.

Modules:

- `Wrappers`: `Option`, `Result`.
- `Strings`: the `str` methods used: `replace`, `lstrip`, `rstrip`, `split`, `join`, `lower`,
  and `int`/`str` on digit strings.
- `Yaml`: values, `dict.get`, `{**a, **b}`, Python truthiness, `int()`, `* 2`.
- `Config`: the configuration records, the error that aborts a run, the two duration parsers and the name
  normalization.
- `Terraform`: shared state keys.
- `ApiTree`: the resource-tree builder.
- `ServiceInfra`: both serverless functions.
- `WorkerInfra`: the worker generator.

Building the output follows the same pattern in each module:

- The loops of the source are `method`s. They build the blocks step by step, as `tf_content +=` does.
- Each method is proved equal to a function that describes the finished file.
- The properties are lemmas about those functions.

For the resource tree, a second, independent description exists: every (key, parent, segment) triple of
every route, in order, with only the first occurrence of each key kept. The builder's resource blocks,
taken in order, are proved equal to that description, and its method and integration blocks, taken in
order, are proved equal to the routes' bindings. How resources and bindings interleave in the output is
not described.

`generate_eventbridge_tf` emits the event bus even without `event_routing`; only the caller-identity
block and the Lambda's EventBridge policy depend on it. The worker always emits the execution role's
`execution_secrets_policy`, which names `<name>_secrets`. That secret is only declared when secrets are
configured, so without secrets the policy refers to a resource that does not exist (lines 329-347
against 433). This is stated about that one reference; the model does not claim the file has no other
dangling reference.

## Model

| member | source | states |
|---|---|---|
| Strings.ReplaceChar | scripts/generate-service-infra.py:128 | `replace(a, b)` keeps the length, changes exactly the occurrences of `a`, and leaves none behind |
| Strings.RemoveChar | scripts/generate-service-infra.py:18 | `replace(c, '')` leaves no `c`, keeps every other character as often as it occurs, and is the identity on strings without `c` |
| Strings.RemoveCharConcat | scripts/generate-service-infra.py:18 | removal works piece by piece, so the kept characters stay in their order |
| Strings.LStripChar | scripts/generate-service-infra.py:116 | `lstrip(c)` drops exactly the leading run of `c`: the result is a suffix, everything dropped is `c`, and it does not start with `c` |
| Strings.RStripAny | scripts/generate-service-infra.py:232 | `rstrip(cs)` drops exactly the trailing run of characters in `cs`: a prefix that does not end in `cs` |
| Strings.Split | scripts/generate-service-infra.py:122 | `split(sep)` gives at least one field, and no field holds the separator |
| Strings.JoinSplit | scripts/generate-service-infra.py:122-145 | joining the fields of `split(sep)` with `sep` gives back the string |
| Strings.SplitJoin | scripts/generate-service-infra.py:122 | splitting a join of separator-free fields gives back the fields |
| Strings.JoinSnoc | scripts/generate-service-infra.py:228-232 | a join with one more element adds one separator and the element |
| Strings.RStripAnyAppended | scripts/generate-service-infra.py:232 | characters of the stripped set appended to a string are stripped again, and nothing else is lost |
| Strings.ParseDigits | scripts/generate-service-infra.py:18 | `int()` on text succeeds exactly on non-empty digit strings |
| Strings.NatToDecimal | scripts/generate-service-infra.py:312 | `str(n)` is a digit string with no leading zero |
| Strings.ParseNatToDecimal | scripts/generate-service-infra.py:17-18 | `int(str(n)) == n` |
| Strings.NatToDecimalInjective | scripts/generate-service-infra.py:312 | distinct numbers have distinct decimal text |
| Strings.AsciiLower | scripts/generate-service-infra.py:146 | `lower()` keeps the length and maps exactly the ASCII capitals to small letters |
| Yaml.Get | scripts/generate-service-infra.py:16 | `m.get(k, d)` is the stored value when the key is present (even `None`), else the default |
| Yaml.Override | scripts/generate-worker-infra.py:20-22 | `{**base, **over}` has the keys of both; a key of `over` wins; a key only in `base` keeps its value |
| Yaml.OverrideGet | scripts/generate-worker-infra.py:20-22 | a lookup in the union is the environment's value, else the base value, else the default |
| Yaml.IntOf | scripts/generate-worker-infra.py:577 | `int(v)` keeps integers, accepts exactly the digit strings among strings, and fails on `None`, lists and mappings |
| Yaml.IntOfDecimal | scripts/generate-service-infra.py:17-18 | `int()` reads the decimal text of `n` back as `n` |
| Yaml.Times2 | scripts/generate-worker-infra.py:698 | `v * 2` doubles numbers, repeats strings, and fails exactly on `None` and mappings |
| Config.EnvironmentOf | scripts/generate-worker-infra.py:17 | the environment's section if `environments` has it, else the empty section |
| Config.NameOf | scripts/generate-service-infra.py:8 | `service_config['name']` succeeds exactly when `name` is present, with its value |
| Config.TfName | scripts/generate-service-infra.py:45 | `name.replace('-', '_')`: each `-` becomes `_` and every other character is kept in place |
| Config.DurationByRemove | scripts/generate-service-infra.py:17-18 | an integer timeout is kept; a string timeout parses exactly when it is digits once every `s` is removed, to the value of those digits; anything else fails |
| Config.DurationByRStrip | scripts/generate-worker-infra.py:513 | a cooldown parses exactly when it is a string that is digits once trailing `s`s are stripped, to the value of those digits |
| Config.RStripUnitSuffix | scripts/generate-worker-infra.py:513 | stripping `s`s from digits followed by `s`s leaves the digits |
| Config.RemoveUnitSuffix | scripts/generate-service-infra.py:18 | removing `s`s from an `s`-free string followed by `s`s leaves the string |
| Config.DurationsAgreeOnUnitSuffix | scripts/generate-service-infra.py:18 | both parsers read `"<n>s…s"` as `n` |
| Config.DurationsDisagreeOnInnerUnit | scripts/generate-worker-infra.py:513 | on `"4s5s"` the serverless parser gives 45 and the worker parser fails |
| Config.DigitsThenUnit | scripts/generate-service-infra.py:18 | digits followed by one `s` read back as their value under both parsers |
| Config.DefaultShortDuration | scripts/generate-service-infra.py:17 | the default `"30s"` is 30 seconds under both parsers |
| Config.DefaultLongDuration | scripts/generate-worker-infra.py:533 | the default `"300s"` is 300 seconds |
| ApiTree.ResourceKey | scripts/generate-service-infra.py:128 | the key is `name_path` with each `/` and `-` turned into `_` and every other character kept in place |
| ApiTree.ResourceKeyParts | scripts/generate-service-infra.py:128 | the key is the name's key text, `_`, and the path's key text |
| ApiTree.ResourceKeyCollision | scripts/generate-service-infra.py:128-130 | two paths share a resource (the dedup key) exactly when they agree position by position once `/` and `-` both read as `_` |
| ApiTree.VisitSegment | scripts/generate-service-infra.py:127-142 | one segment iteration: extend `current_path`, declare the resource if the key is new, move `parent_id` to the key's reference |
| ApiTree.WalkRoute | scripts/generate-service-infra.py:123-142 | the segment loop from the core root computes the walk over all segments |
| ApiTree.VisitRoute | scripts/generate-service-infra.py:115-166 | one route iteration: skip an empty path, else walk it and bind its method and integration to the last resource |
| ApiTree.BuildApiResources | scripts/generate-service-infra.py:112-166 | the route loop computes `BuildTree` over all routes, whose resource blocks and binding blocks `BuildTreeSpec` describes |
| ApiTree.FirstOccurrencesSpec | scripts/generate-service-infra.py:131-140 | keeping first occurrences gives one block per id, loses no id, invents no block, and keeps every first occurrence |
| ApiTree.WholeWalkSpec | scripts/generate-service-infra.py:126-142 | walking a whole path keeps `created_resources` and the output in step with the triples seen, and ends at the resource of the whole path |
| ApiTree.BuildTreeSpec | scripts/generate-service-infra.py:112-166 | after each route, the declared resources are the first occurrences of all triples so far, and the other blocks are the routes' bindings |
| ApiTree.ResourceTreeProperties | scripts/generate-service-infra.py:131-140 | each key is declared at most once; every key of every non-skipped route is declared; each declared resource is its key's first triple, with that triple's parent |
| ApiTree.RouteResourceAt | scripts/generate-service-infra.py:123-142 | the k-th segment's triple has the key of the first k+1 segments joined by `/`, and its parent is the core root for k = 0, else the previous segment's key |
| ApiTree.LastSegmentIsFinalResource | scripts/generate-service-infra.py:145 | the key of the last segment equals `final_resource_name`, because the segments join back to the path |
| ApiTree.SkippedRouteAddsNothing | scripts/generate-service-infra.py:116-119 | a route whose path is empty after `lstrip('/')` changes neither the tree nor the description |
| ApiTree.MissingMethodIsGet | scripts/generate-service-infra.py:115-152 | a route without `method` binds `GET`, under the id `<key>_get`, to the resource of its whole path |
| ApiTree.CollidingFirstRoute | scripts/generate-service-infra.py:127-140 | route `/a/b` of service `s` declares `s_a` under the root and `s_a_b` under `s_a`, and binds `s_a_b_get` to `s_a_b` |
| ApiTree.CollidingSecondRoute | scripts/generate-service-infra.py:131-142 | route `/a-b`, once `s_a_b` exists, declares nothing and binds `s_a_b_get` to `s_a_b` again |
| ApiTree.CollidingPathsShareResource | scripts/generate-service-infra.py:127-131 | `/a/b` then `/a-b` give exactly two resources and two identical method/integration pairs: the paths collide |
| ServiceInfra.MemorySetting | scripts/generate-service-infra.py:16 | memory is the environment's value, else the base value, else 512 |
| ServiceInfra.TimeoutSetting | scripts/generate-service-infra.py:17 | the timeout setting is the environment's value, else the base value, else `"30s"` |
| ServiceInfra.Architecture | scripts/generate-service-infra.py:56 | the architecture is the base `resources.architecture`, else `arm64` |
| ServiceInfra.SecretId | scripts/generate-service-infra.py:188 | a secret's id is `name_secret` with each `-` turned into `_` and every other character kept in place |
| ServiceInfra.SecretResources | scripts/generate-service-infra.py:186-209 | the secrets loop emits each secret's resource and version, in order |
| ServiceInfra.SecretBlocksAt | scripts/generate-service-infra.py:186-207 | the 2k-th block is secret k, id `name_secret`, named `env/name/secret`; the next is its version |
| ServiceInfra.ResourceList | scripts/generate-service-infra.py:228-232 | the ARN loop followed by `rstrip(',\n')` yields the header and the ARNs joined by `,\n`, without a trailing comma |
| ServiceInfra.ArnTextJoin | scripts/generate-service-infra.py:228-230 | after the loop the text is the header, the ARNs joined by `,\n`, and one more `,\n` |
| ServiceInfra.TrimArnLines | scripts/generate-service-infra.py:232 | the trim removes exactly the last `,\n`, because every ARN ends in `arn` |
| ServiceInfra.SecretsPolicySection | scripts/generate-service-infra.py:212-239 | the secrets policy is present iff there are secrets |
| ServiceInfra.EventBridgePolicySection | scripts/generate-service-infra.py:242-262 | the EventBridge policy is present iff `event_routing` is non-empty |
| ServiceInfra.Outputs | scripts/generate-service-infra.py:264-276 | the outputs `lambda_arn` (the function's ARN), `api_gateway_url` (the core API's invoke URL) and `api_gateway_stage` (`stage`, default `latest`), in that order |
| ServiceInfra.LambdaOutputs | scripts/generate-service-infra.py:264-276 | the file ends with those three outputs; the ARN output reads the function the file declares, and the stage output is the declared alias's name |
| ServiceInfra.LambdaVariables | scripts/generate-service-infra.py:69-78 | the variables are the environment's own, in order, then the six fixed ones |
| ServiceInfra.LambdaFrontBlocks | scripts/generate-service-infra.py:20-177 | the blocks up to the permission, with the API tree the route loop builds |
| ServiceInfra.LambdaTail | scripts/generate-service-infra.py:181-276 | the blocks after the permission: secrets, the two conditional policies, the outputs |
| ServiceInfra.GenerateLambda | scripts/generate-service-infra.py:6-278 | the generator's result is the described file, or the error of a missing name or an unparsable timeout |
| ServiceInfra.LambdaErrors | scripts/generate-service-infra.py:8-18 | a missing name fails with `MissingName`; otherwise the run fails iff the timeout does not parse; success renders the layout |
| ServiceInfra.LambdaFunctionSettings | scripts/generate-service-infra.py:45-78 | the function block carries the normalized id, `env-name`, memory and architecture by precedence, the timeout, and the variables in order |
| ServiceInfra.DefaultTimeout | scripts/generate-service-infra.py:17-18 | with no timeout anywhere, the function gets 30 seconds |
| ServiceInfra.ArchitectureIgnoresEnvironment | scripts/generate-service-infra.py:56 | replacing `environments` changes only memory and variables, never the architecture |
| ServiceInfra.LambdaApiBlocks | scripts/generate-service-infra.py:111-177 | the API blocks are exactly the resource tree, after the seven head blocks and before the permission |
| ServiceInfra.LambdaSecretBlocks | scripts/generate-service-infra.py:181-209 | right after the permission come the secrets' blocks |
| ServiceInfra.LambdaLayoutKinds | scripts/generate-service-infra.py:212-262 | only the policy sections hold policies |
| ServiceInfra.SecretsPolicyIff | scripts/generate-service-infra.py:212-239 | a secrets policy exists iff there are secrets, and it lists the ARN list without trailing comma |
| ServiceInfra.EventBridgePolicyIff | scripts/generate-service-infra.py:242-262 | an EventBridge policy exists iff `event_routing` is non-empty, and it grants the service's bus |
| ServiceInfra.RuleId | scripts/generate-service-infra.py:295 | a rule id is `name_event` with each `-` and `.` turned into `_` and every other character kept in place |
| ServiceInfra.QueueOf | scripts/generate-service-infra.py:313 | a target's queue is its `queue` value, else the target itself |
| ServiceInfra.RuleTargets | scripts/generate-service-infra.py:311-323 | the target loop emits the rule's targets numbered from 0 |
| ServiceInfra.TargetBlocksAt | scripts/generate-service-infra.py:311-321 | the i-th target is `rule_target_i` on the rule and bus, aimed at its queue |
| ServiceInfra.TargetIdsDistinct | scripts/generate-service-infra.py:312 | different indices give different target ids |
| ServiceInfra.RuleBlocksKinds | scripts/generate-service-infra.py:293-323 | the routing loop emits only rules and targets |
| ServiceInfra.GenerateEventBridge | scripts/generate-service-infra.py:280-332 | the generator's result is the bus, the rules with their targets, then the caller identity when routing is present |
| ServiceInfra.CallerIdentityIff | scripts/generate-service-infra.py:284-330 | the bus comes first whatever the routing; the caller-identity block exists iff `event_routing` is non-empty |
| ServiceInfra.MissingNameAbortsBoth | scripts/generate-service-infra.py:282 | without `name` both generators fail with `MissingName` |
| WorkerInfra.BreakerOf | scripts/generate-worker-infra.py:27-28 | the breaker section is the empty mapping when absent, its entries when a mapping, and an error otherwise |
| WorkerInfra.BreakerKeepsBaseKeys | scripts/generate-worker-infra.py:21-29 | the breaker merged key by key keeps a base-only `enabled`, which the merged `scaling` section has lost |
| WorkerInfra.QueueDepth | scripts/generate-worker-infra.py:662-698 | the queue-depth threshold exists iff the breaker is enabled and `target_value * 2` is defined, and is that value; the run fails with `CannotDouble(target_value)` exactly when the breaker is enabled and `target_value * 2` is undefined (`None` or a mapping) |
| WorkerInfra.QueueDepthIgnoresMetrics | scripts/generate-worker-infra.py:698 | the queue-depth threshold does not depend on `metrics` |
| WorkerInfra.DefaultQueueDepth | scripts/generate-worker-infra.py:698 | without `target_value` the queue-depth threshold is 10 |
| WorkerInfra.FirstMetric | scripts/generate-worker-infra.py:513 | `metrics[0]` is used exactly when `metrics` is truthy, and must be a mapping in a list |
| WorkerInfra.HalfThreshold | scripts/generate-worker-infra.py:577 | `int(T) // 2` is defined iff `int(T)` is, and is its floor half |
| WorkerInfra.Autoscale | scripts/generate-worker-infra.py:513-577 | cooldowns and thresholds come from the first metric when `metrics` is truthy, else from `scaling`; the defaults are 30s, 300s and 10; the scale-down threshold is `int(T) // 2`; it succeeds exactly when the first metric can be read, both chosen cooldowns parse and the chosen `target_value` is an integer |
| WorkerInfra.DefaultAutoscaling | scripts/generate-worker-infra.py:513-577 | with none of the keys set: cooldowns 30 and 300, thresholds 10 and 5 |
| WorkerInfra.MetricsShadowScalingKeys | scripts/generate-worker-infra.py:513-577 | once `metrics` is truthy, the top-level cooldowns and `target_value` no longer matter |
| WorkerInfra.LastNamed | scripts/generate-worker-infra.py:597-601 | what the scan finds has the searched name |
| WorkerInfra.ScanMetrics | scripts/generate-worker-infra.py:597-601 | the scan loop leaves the last entry of each name, and fails on an entry that is not a mapping |
| WorkerInfra.ScanConfiguredMetrics | scripts/generate-worker-infra.py:594-601 | the scan runs only over a truthy `metrics` list |
| WorkerInfra.LastNamedIsLast | scripts/generate-worker-infra.py:597-601 | an entry is found iff one has the name, and no later entry has it |
| WorkerInfra.ConfiguredVariables | scripts/generate-worker-infra.py:199-201 | one quoted entry per configured variable, in order |
| WorkerInfra.ContainerEnvironment | scripts/generate-worker-infra.py:198-213 | the variable loop yields the configured entries then the seven fixed ones |
| WorkerInfra.ContainerSecrets | scripts/generate-worker-infra.py:220-225 | one `valueFrom` entry per secret, in order, each a key of `<name>_secrets` |
| WorkerInfra.ListContainerSecrets | scripts/generate-worker-infra.py:216-227 | the secrets loop yields those entries |
| WorkerInfra.SecretEntries | scripts/generate-worker-infra.py:456 | one `"s": "changeme"` entry per secret, in order |
| WorkerInfra.SecretStringSnoc | scripts/generate-worker-infra.py:456 | the secret string is the entries joined by `", "`: one more secret adds `", "` and its entry |
| WorkerInfra.CombinedSecret | scripts/generate-worker-infra.py:441-451 | the combined secret is a Secrets Manager secret with id `<name>_secrets` |
| WorkerInfra.SecretVersionBlock | scripts/generate-worker-infra.py:453-462 | its version references it and holds the joined entries |
| WorkerInfra.SecretSection | scripts/generate-worker-infra.py:433-484 | the section holds the random suffix, the combined secret, its version and the task-role policy, and no other secret |
| WorkerInfra.ServiceBlocks | scripts/generate-worker-infra.py:169-277 | the task definition carries the container's variables and secrets, and the ECS service follows it |
| WorkerInfra.WorkerAccess | scripts/generate-worker-infra.py:280-429 | the execution role's secrets policy references the role and `<name>_secrets` |
| WorkerInfra.WorkerFront | scripts/generate-worker-infra.py:32-429 | the task definition is the eleventh block and the execution secrets policy the sixteenth |
| WorkerInfra.FrontInert | scripts/generate-worker-infra.py:32-429 | nothing before the secret is a secret, a secret version, a scaling policy or an alarm |
| WorkerInfra.OptionalAlarms | scripts/generate-worker-infra.py:603-712 | the configuration-dependent blocks are all alarms |
| WorkerInfra.WorkerOutputsDeclared | scripts/generate-worker-infra.py:715-740 | the file ends with the six outputs `queue_url` … `autoscaling_target_arn`, in order, and the queue, service, task definition and scaling target they read are declared in the file |
| WorkerInfra.Derive | scripts/generate-worker-infra.py:20-698 | the derived settings hold the merged sections, a queue depth iff the merged breaker is enabled, and the last CPU and memory metrics of the merged list; it succeeds exactly when both breakers unpack, the autoscaling settings derive, every metric entry is a mapping and the queue depth can be computed |
| WorkerInfra.WorkerBlocks | scripts/generate-worker-infra.py:7-740 | a missing name fails with `MissingName`; otherwise the run succeeds iff every derived setting does |
| WorkerInfra.DeriveSettings | scripts/generate-worker-infra.py:17-29 | the merges and every fallible derivation, in the source's order |
| WorkerInfra.FrontBlocks | scripts/generate-worker-infra.py:32-486 | everything before the autoscaling target, with the container lists built by their loops |
| WorkerInfra.AlarmBlocks | scripts/generate-worker-infra.py:603-712 | the CPU, memory and breaker alarms, each under its own condition |
| WorkerInfra.RenderWorker | scripts/generate-worker-infra.py:32-741 | `tf_content` built section by section is the described file |
| WorkerInfra.GenerateWorker | scripts/generate-worker-infra.py:7-741 | the generator's result is the described file, or the error that aborts it |
| WorkerInfra.WorkerSecrets | scripts/generate-worker-infra.py:433-462 | without secrets no secret or secret version is declared; with some, exactly one of each |
| WorkerInfra.WorkerSecretBlocks | scripts/generate-worker-infra.py:441-462 | with secrets, the file holds the combined secret and the version with every entry |
| WorkerInfra.WorkerContainerSecrets | scripts/generate-worker-infra.py:216-227 | the container reads each secret, in order, as a key of the combined secret |
| WorkerInfra.WorkerAlarms | scripts/generate-worker-infra.py:543-712 | one scale-up and one scale-down alarm; a CPU and a memory alarm iff their metric was found; both breaker alarms iff enabled |
| WorkerInfra.WorkerAlarmCounts | scripts/generate-worker-infra.py:543-712 | the six alarm counts at once |
| WorkerInfra.WorkerPolicyIds | scripts/generate-worker-infra.py:504-524 | the file declares exactly the scale-up and scale-down policies |
| WorkerInfra.WorkerAlarmActions | scripts/generate-worker-infra.py:559-700 | the alarms trigger exactly those two policies |
| WorkerInfra.AlarmActionsDeclared | scripts/generate-worker-infra.py:504-700 | every policy an alarm triggers is declared, and every declared policy is triggered |
| WorkerInfra.WorkerAlarmThresholds | scripts/generate-worker-infra.py:552-698 | every alarm carries its threshold: T, `int(T) // 2`, the metric's `target_value` (75, 85), 1, and `target_value * 2` |
| WorkerInfra.ExecutionPolicyNamesCombinedSecret | scripts/generate-worker-infra.py:329-347 | the execution secrets policy is always present and names `<name>_secrets` |
| WorkerInfra.WorkerSizing | scripts/generate-worker-infra.py:173-491 | cpu 256, memory 512, desired count 1, max percent 200, min healthy 100 and max capacity 10 unless merged settings say otherwise; min capacity 1 |
| WorkerInfra.WorkerSizingFromConfig | scripts/generate-worker-infra.py:20-22 | each size is the environment's value, else the base value, else the default |
| WorkerInfra.WorkerIgnoresUnreadSettings | scripts/generate-worker-infra.py:23-24 | a top-level `environment_variables` and an environment's `secrets` change nothing |
| WorkerInfra.WorkerContainerFromConfig | scripts/generate-worker-infra.py:23-24 | the container's variables come from the environment's section, and its secrets from the top-level list |
| WorkerInfra.MetricAlarmsFromConfig | scripts/generate-worker-infra.py:594-632 | a CPU and a memory alarm iff the merged `metrics` list has an entry of that name |
| WorkerInfra.BreakerAlarmsFromConfig | scripts/generate-worker-infra.py:27-29 | both breaker alarms iff the breaker merged key by key is enabled |
| WorkerInfra.WorkerBlocksOk | scripts/generate-worker-infra.py:14-29 | a file that renders had a name and derivable settings, and is their layout |
| WorkerInfra.UnscaledWorkerRenders | scripts/generate-worker-infra.py:20-29 | a named worker without any `scaling` section renders, with cooldowns 30 and 300, thresholds 10 and 5, and no optional alarm |

## Left out

- Reading `service.yaml`, creating `.terraform`, writing `main.tf`, `print`, and the command-line checks.
  These are I/O; the configuration is taken already parsed.
- The HCL text itself: fixed template lines, `jsonencode` bodies, tags, comments, the shell fragments
  of the image tag, `timestamp()` and `filebase64sha256`. Blocks carry only identifiers, references,
  interpolated names and settings.
- How a setting is written into the text (`str()` of a value). Settings are kept as parsed values.
- Floats and dates in YAML. `int()` on text is limited to digit strings: signs, spaces and
  underscores are not modelled.
- `None` or wrongly typed section values (`resources: null`, a non-list `routing`,
  a non-mapping route or target). Sections are typed records and absent sections are empty. The
  failures that stay in the model are a missing `name`, an unparsable duration, a non-mapping
  breaker or metric entry, a non-list `metrics`, a non-integer threshold and an undoubleable
  `target_value`.
- Unicode case mapping: `lower()` is modelled on ASCII letters.
- YAML mappings of environment variables are modelled as sequences of pairs in file order.
- WorkerInfra.Derive: the queue-depth threshold is evaluated with the other settings, before any text
  is built. The source evaluates it while building the text. Both abort the run on the same inputs.
- WorkerInfra.WorkerSizingFromConfig: stated for the settings that can have a default. The cluster,
  subnets and other values taken from the core stack are references, not settings.
- References not tracked in the blocks: the task definition's `execution_role`, `task_role` and log
  group (worker lines 175-176, 234); the ECS service's cluster, subnets and security group (258,
  267-268); the queue policy's `data.aws_caller_identity.current` (151); the security group's VPC
  (282); the scaling target's ECS service and cluster (492); the step policies' scaling target
  (507-509, 527-529); the alarms' queue, service and cluster dimensions (556-679). In the serverless
  generator: the Lambda function's `lambda_role` (line 47), the two policies' `lambda_role` (216,
  246), the API-gateway blocks' core `api_gateway_id` (134, 150, 157), the integration's alias
  `invoke_arn` (163) and the targets' caller-identity account (320). Blocks keep only the names,
  settings and references listed in their datatypes.
- The fixed identifiers emitted by the templates are modelled as the identifiers are written. Their
  uniqueness across a file is not stated.
