/**
 * The parsed `service.yaml` as both generators read it, the errors that abort a run,
 * and the two ways the generators turn a duration such as "30s" into seconds.
 */
module Config {
  import opened Wrappers
  import opened Strings
  import opened Yaml

  /** One entry of `routing`; a missing `method` (here `httpMethod`) or `path` is `None`. */
  datatype Route = Route(httpMethod: Option<string>, path: Option<string>)

  /** One entry of `event_routing`; each target is a mapping, normally with a `queue` key. */
  datatype EventRouting = EventRouting(event: Option<string>, targets: seq<map<string, Value>>)

  /**
   * One entry of `environments`. Absent sections are empty mappings. `secrets` stands for a
   * `secrets` list written under an environment, which neither generator reads.
   */
  datatype EnvConfig = EnvConfig(
    resources: map<string, Value>,
    scaling: map<string, Value>,
    deployment: map<string, Value>,
    environmentVariables: seq<(string, Value)>,
    secrets: seq<string>)

  /**
   * The top level of `service.yaml`. Absent sections are empty; `name` and `stage` may be missing.
   * `environmentVariables` stands for a top-level `environment_variables` mapping, which neither
   * generator reads.
   */
  datatype ServiceConfig = ServiceConfig(
    name: Option<string>,
    environmentVariables: seq<(string, Value)>,
    resources: map<string, Value>,
    scaling: map<string, Value>,
    deployment: map<string, Value>,
    environments: map<string, EnvConfig>,
    routing: seq<Route>,
    secrets: seq<string>,
    eventRouting: seq<EventRouting>,
    stage: Option<Value>)

  /** Why a run aborts before anything is written. */
  datatype ConfigError =
    | MissingName
    | BadDuration(duration: Value)
    | NotAnInteger(value: Value)
    | NotAMapping(key: string)
    | NotAList(key: string)
    | CannotDouble(value: Value)

  const NoOverrides := EnvConfig(map[], map[], map[], [], [])

  /** `service_config.get('environments', {}).get(environment, {})`. */
  function EnvironmentOf(cfg: ServiceConfig, env: string): (e: EnvConfig)
    ensures env in cfg.environments ==> e == cfg.environments[env]
    ensures env !in cfg.environments ==> e == NoOverrides
  {
    if env in cfg.environments then cfg.environments[env] else NoOverrides
  }

  /** `service_config['name']`, which raises when the key is missing. */
  function NameOf(cfg: ServiceConfig): (r: Result<string, ConfigError>)
    ensures r.Ok? <==> cfg.name.Some?
    ensures r.Ok? ==> r.value == cfg.name.value
  {
    match cfg.name
    case Some(n) => Ok(n)
    case None => Err(MissingName)
  }

  /** `name.replace('-', '_')`: the prefix of every Terraform identifier a generator emits. */
  function TfName(name: string): (r: string)
    ensures |r| == |name| && '-' !in r
    ensures forall i :: 0 <= i < |name| ==> r[i] == if name[i] == '-' then '_' else name[i]
    ensures '-' !in name ==> r == name
  {
    ReplaceChar(name, '-', '_')
  }

  /**
   * The serverless generator's duration: `int(str(v).replace('s', ''))`.
   * An integer converts to its own decimal text and back, so it is kept as it is.
   */
  function DurationByRemove(v: Value): (r: Result<int, ConfigError>)
    ensures v.Int? ==> r == Ok(v.i)
    ensures v.Str? ==> (r.Ok? <==> IsDigits(RemoveChar(v.s, 's')))
    ensures v.Str? && r.Ok? ==> r.value >= 0
    ensures v.Str? && r.Ok? ==> ParseDigits(RemoveChar(v.s, 's')) == Some(r.value as nat)
    ensures !v.Int? && !v.Str? ==> r.Err?
  {
    match v
    case Int(i) => Ok(i)
    case Str(s) =>
      (match ParseDigits(RemoveChar(s, 's'))
       case Some(n) => Ok(n)
       case None => Err(BadDuration(v)))
    case _ => Err(BadDuration(v))
  }

  /** The worker generator's duration: `int(v.rstrip('s'))`, which needs a string. */
  function DurationByRStrip(v: Value): (r: Result<int, ConfigError>)
    ensures r.Ok? <==> v.Str? && IsDigits(RStripAny(v.s, {'s'}))
    ensures r.Ok? ==> r.value >= 0
    ensures r.Ok? ==> ParseDigits(RStripAny(v.s, {'s'})) == Some(r.value as nat)
  {
    match v
    case Str(s) =>
      (match ParseDigits(RStripAny(s, {'s'}))
       case Some(n) => Ok(n)
       case None => Err(BadDuration(v)))
    case _ => Err(BadDuration(v))
  }

  /** Stripping every trailing `s` from digits followed by `s`s leaves the digits. */
  lemma {:induction false} RStripUnitSuffix(d: string, k: nat)
    requires IsDigits(d)
    ensures RStripAny(d + seq(k, _ => 's'), {'s'}) == d
  {
    if k > 0 {
      var t := d + seq(k, _ => 's');
      assert t[..|t| - 1] == d + seq(k - 1, _ => 's');
      RStripUnitSuffix(d, k - 1);
    } else {
      assert d + seq(k, _ => 's') == d;
    }
  }

  /** Removing every `s` from digits followed by `s`s leaves the digits. */
  lemma {:induction false} RemoveUnitSuffix(d: string, k: nat)
    requires 's' !in d
    ensures RemoveChar(d + seq(k, _ => 's'), 's') == d
  {
    if d == [] {
      RemoveOnlyUnits(k);
      assert d + seq(k, _ => 's') == seq(k, _ => 's');
    } else {
      assert (d + seq(k, _ => 's'))[1..] == d[1..] + seq(k, _ => 's');
      RemoveUnitSuffix(d[1..], k);
      assert [d[0]] + d[1..] == d;
    }
  }

  lemma {:induction false} RemoveOnlyUnits(k: nat)
    ensures RemoveChar(seq(k, _ => 's'), 's') == []
  {
    if k > 0 {
      assert seq(k, _ => 's')[1..] == seq(k - 1, _ => 's');
      RemoveOnlyUnits(k - 1);
    }
  }

  /** Both duration parsers read `"<n>s"` (or `"<n>ss..."`) back as `n`. */
  lemma DurationsAgreeOnUnitSuffix(n: nat, k: nat)
    ensures DurationByRemove(Str(NatToDecimal(n) + seq(k, _ => 's'))) == Ok(n)
    ensures DurationByRStrip(Str(NatToDecimal(n) + seq(k, _ => 's'))) == Ok(n)
  {
    ParseNatToDecimal(n);
    RStripUnitSuffix(NatToDecimal(n), k);
    assert 's' !in NatToDecimal(n);
    RemoveUnitSuffix(NatToDecimal(n), k);
  }

  /** The two parsers differ on an inner `s`: `replace` drops it, `rstrip` keeps it and `int` fails. */
  lemma DurationsDisagreeOnInnerUnit(v: Value)
    requires v == Str("4s5s")
    ensures DurationByRemove(v) == Ok(45)
    ensures DurationByRStrip(v).Err?
  {
    RemoveInnerUnit();
    RStripInnerUnit();
  }

  lemma RemoveInnerUnit()
    ensures RemoveChar("4s5s", 's') == "45" && ParseDigits("45") == Some(45)
  {
    assert "4s5s"[1..] == "s5s";
    assert "s5s"[1..] == "5s";
    assert "5s"[1..] == "s";
    assert RemoveChar("5s", 's') == "5";
    assert "45"[..1] == "4";
  }

  lemma RStripInnerUnit()
    ensures RStripAny("4s5s", {'s'}) == "4s5" && !IsDigits("4s5")
  {
    assert "4s5s"[..3] == "4s5";
    assert !IsDigit("4s5"[1]);
  }

  /** Digits followed by one `s` read back as the digits' value under both parsers. */
  lemma DigitsThenUnit(d: string)
    requires IsDigits(d)
    ensures DurationByRemove(Str(d + "s")) == Ok(ParseDigits(d).value)
    ensures DurationByRStrip(Str(d + "s")) == Ok(ParseDigits(d).value)
  {
    assert d + "s" == d + seq(1, _ => 's');
    RStripUnitSuffix(d, 1);
    assert 's' !in d;
    RemoveUnitSuffix(d, 1);
  }

  /** The default timeout and scale-up cooldown `"30s"` is 30 seconds for both parsers. */
  lemma DefaultShortDuration(v: Value)
    requires v == Str("30s")
    ensures DurationByRemove(v) == Ok(30)
    ensures DurationByRStrip(v) == Ok(30)
  {
    assert "30s" == "30" + "s";
    assert "30"[..1] == "3";
    assert ParseDigits("30") == Some(30);
    DigitsThenUnit("30");
  }

  /** The default scale-down cooldown `"300s"` is 300 seconds. */
  lemma DefaultLongDuration(v: Value)
    requires v == Str("300s")
    ensures DurationByRStrip(v) == Ok(300)
  {
    assert "300s" == "300" + "s";
    assert "30"[..1] == "3";
    assert ParseDigits("30") == Some(30);
    assert "300"[..2] == "30";
    assert ParseDigits("300") == Some(300);
    DigitsThenUnit("300");
  }
}
