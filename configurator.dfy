/** Auto-configuration: per-environment tables with a fallback to the
    development entry, the security rules, the list of configuration blocks
    for a target environment, and the dry-run-gated application of
    optimization recommendations. */
module Configurator {
  import opened Values
  import opened Config

  // ---------------------------------------------------------------------
  // Tables

  datatype EnvironmentSettings = EnvironmentSettings(name: string, instanceType: string, replicas: nat,
                                                     autoScaling: bool, monitoring: string)

  /** `target_cpu_utilization` is absent from the development entry. */
  datatype ScalingSettings = ScalingSettings(enabled: bool, minInstances: nat, maxInstances: nat,
                                             targetCpuUtilization: Option<nat>)

  /** `alerts` is absent from the development entry. */
  datatype MonitoringSettings = MonitoringSettings(metrics: seq<string>, loggingLevel: string,
                                                   retentionDays: nat, alerts: Option<seq<string>>)

  /** `table.get(environment, table["dev"])` */
  function WithFallback<T>(table: map<string, T>, environment: string): T
    requires "dev" in table
  {
    if environment in table then table[environment] else table["dev"]
  }

  const EnvironmentTable: map<string, EnvironmentSettings> := map[
    "dev" := EnvironmentSettings("Development Environment", "small", 1, false, "basic"),
    "staging" := EnvironmentSettings("Staging Environment", "medium", 2, true, "standard"),
    "prod" := EnvironmentSettings("Production Environment", "large", 3, true, "comprehensive")]

  const ScalingTable: map<string, ScalingSettings> := map[
    "dev" := ScalingSettings(false, 1, 1, None),
    "staging" := ScalingSettings(true, 1, 3, Some(70)),
    "prod" := ScalingSettings(true, 2, 10, Some(60))]

  const MonitoringTable: map<string, MonitoringSettings> := map[
    "dev" := MonitoringSettings(["cpu", "memory"], "info", 7, None),
    "staging" := MonitoringSettings(["cpu", "memory", "disk", "network"], "info", 30,
                                    Some(["error_rate", "high_cpu"])),
    "prod" := MonitoringSettings(["cpu", "memory", "disk", "network", "requests"], "warning", 90,
                                 Some(["error_rate", "high_cpu", "high_memory", "low_availability"]))]

  /** `_get_environment_config`'s table lookup. */
  function EnvironmentFor(environment: string): EnvironmentSettings {
    WithFallback(EnvironmentTable, environment)
  }

  /** `_configure_auto_scaling`'s table lookup. */
  function ScalingFor(environment: string): ScalingSettings {
    WithFallback(ScalingTable, environment)
  }

  /** `_configure_monitoring`'s table lookup. */
  function MonitoringFor(environment: string): MonitoringSettings {
    WithFallback(MonitoringTable, environment)
  }

  /** Every environment but "staging" and "prod" gets the development entry
      of all three tables. */
  lemma Fallback(environment: string)
    requires environment != "staging" && environment != "prod"
    ensures EnvironmentFor(environment) == EnvironmentFor("dev")
    ensures ScalingFor(environment) == ScalingFor("dev")
    ensures MonitoringFor(environment) == MonitoringFor("dev")
  {
  }

  /** In every scaling entry the minimum is at least one and at most the
      maximum. The second clause, enabled exactly when the maximum exceeds
      one, only checks the table's values; no code ties the two fields. */
  lemma ScalingBounds(environment: string)
    ensures 1 <= ScalingFor(environment).minInstances <= ScalingFor(environment).maxInstances
    ensures ScalingFor(environment).enabled <==> ScalingFor(environment).maxInstances > 1
  {
  }

  /** The environment table and the scaling table agree on which
      environments auto-scale. The second clause only checks the values of
      two independent tables: the single-replica entry is the one whose logs
      are kept for 7 days; no code links the two. */
  lemma TablesAgree(environment: string)
    ensures EnvironmentFor(environment).autoScaling == ScalingFor(environment).enabled
    ensures EnvironmentFor(environment).replicas == 1 <==> MonitoringFor(environment).retentionDays == 7
  {
  }

  // ---------------------------------------------------------------------
  // Security

  datatype Rule = Rule(name: string, protocol: string, port: nat, source: string)

  const Https := Rule("https", "tcp", 443, "0.0.0.0/0")
  const Http := Rule("http", "tcp", 80, "0.0.0.0/0")

  /** `_get_security_groups`: HTTPS always, and HTTP as a second rule for
      exactly the environment named "dev". */
  function SecurityGroups(environment: string): (rules: seq<Rule>)
    ensures |rules| >= 1 && rules[0] == Https
    ensures |rules| == 2 <==> environment == "dev"
    ensures |rules| <= 2 && (|rules| == 2 ==> rules[1] == Http)
  {
    if environment == "dev" then [Https, Http] else [Https]
  }

  /** An environment the tables do not know is configured like "dev" but
      gets one security rule fewer: the tables fall back to "dev", the
      security groups compare with "dev" itself. */
  lemma UnknownEnvironment(environment: string)
    requires environment !in {"dev", "staging", "prod"}
    ensures EnvironmentFor(environment) == EnvironmentFor("dev")
    ensures SecurityGroups(environment) == [Https] && |SecurityGroups("dev")| == 2
  {
  }

  datatype SecuritySettings = SecuritySettings(encryptionAtRest: bool, encryptionInTransit: bool,
                                               networkIsolation: bool, accessLogging: bool,
                                               securityGroups: seq<Rule>)

  /** `_configure_security`: all four protections on, whatever the
      environment; only the rules depend on it. */
  function SecurityFor(environment: string): (s: SecuritySettings)
    ensures s.encryptionAtRest && s.encryptionInTransit && s.networkIsolation && s.accessLogging
    ensures s.securityGroups == SecurityGroups(environment)
  {
    SecuritySettings(true, true, true, true, SecurityGroups(environment))
  }

  // ---------------------------------------------------------------------
  // Configuration blocks

  /** One entry of `configurations`: a `type` and its `config`. */
  datatype Block =
    | EnvironmentBlock(environment: EnvironmentSettings)
    | AutoScalingBlock(scaling: ScalingSettings)
    | SecurityBlock(security: SecuritySettings)
    | MonitoringBlock(monitoring: MonitoringSettings)
  {
    function Type(): string {
      match this
      case EnvironmentBlock(_) => "environment"
      case AutoScalingBlock(_) => "auto_scaling"
      case SecurityBlock(_) => "security"
      case MonitoringBlock(_) => "monitoring"
    }
  }

  /** The blocks `configure` produces for an environment, with or without
      auto scaling. */
  function Blocks(environment: string, autoScaling: bool): seq<Block> {
    [EnvironmentBlock(EnvironmentFor(environment))] +
    (if autoScaling then [AutoScalingBlock(ScalingFor(environment))] else []) +
    [SecurityBlock(SecurityFor(environment)), MonitoringBlock(MonitoringFor(environment))]
  }

  function Types(blocks: seq<Block>): (ts: seq<string>)
    ensures |ts| == |blocks| && forall i :: 0 <= i < |blocks| ==> ts[i] == blocks[i].Type()
  {
    if blocks == [] then [] else [blocks[0].Type()] + Types(blocks[1..])
  }

  /** The block types are environment, auto scaling when enabled,
      security and monitoring, in that order. */
  lemma BlockTypes(environment: string, autoScaling: bool)
    ensures Types(Blocks(environment, autoScaling)) ==
            ["environment"] + (if autoScaling then ["auto_scaling"] else []) + ["security", "monitoring"]
  {
    var bs := Blocks(environment, autoScaling);
    var ts := ["environment"] + (if autoScaling then ["auto_scaling"] else []) + ["security", "monitoring"];
    assert |bs| == |ts|;
    forall i | 0 <= i < |bs| ensures Types(bs)[i] == ts[i] {
      assert bs[i].Type() == ts[i];
    }
  }

  /** The default configuration has no `automation.auto_configure`, so
      `configure` under it produces three blocks. */
  lemma DefaultBlocks(environment: string)
    ensures !Enabled(DefaultConfig(), AutoConfigure)
    ensures |Blocks(environment, Enabled(DefaultConfig(), AutoConfigure))| == 3
  {
    DefaultAutomationSettings();
  }

  /** The result of `configure`. `message` is present only on error. */
  datatype ConfigureResult = ConfigureResult(status: string, environment: string, configurations: seq<Block>,
                                             changes: seq<Value>, message: Option<string>)

  // ---------------------------------------------------------------------
  // Applying optimizations

  /** One applied recommendation, as `{recommendation, status}`. */
  datatype Applied = Applied(recommendation: Entries, status: string)

  /** `recommendation.get("type") == "optimization"` */
  predicate IsOptimization(r: Entries) {
    Get(r, "type") == Str("optimization")
  }

  /** The optimization recommendations, each marked applied, in input order. */
  function AppliedAll(recommendations: seq<Entries>): (applied: seq<Applied>)
    ensures forall a :: a in applied ==> a.status == "applied"
    ensures forall r :: Applied(r, "applied") in applied <==> r in recommendations && IsOptimization(r)
  {
    if recommendations == [] then []
    else
      var last := recommendations[|recommendations| - 1];
      AppliedAll(recommendations[..|recommendations| - 1]) +
      (if IsOptimization(last) then [Applied(last, "applied")] else [])
  }

  /** The number of recommendations whose type is "optimization". */
  function CountOptimizations(recommendations: seq<Entries>): nat {
    if recommendations == [] then 0
    else CountOptimizations(recommendations[1..]) + (if IsOptimization(recommendations[0]) then 1 else 0)
  }

  /** One applied entry per optimization recommendation. */
  lemma {:induction false} AppliedCount(recommendations: seq<Entries>)
    ensures |AppliedAll(recommendations)| == CountOptimizations(recommendations)
  {
    if recommendations != [] {
      var n := |recommendations|;
      AppliedCount(recommendations[..n - 1]);
      if n > 1 {
        CountLast(recommendations);
      } else {
        assert recommendations[..0] == [] && recommendations[1..] == [];
      }
    }
  }

  /** Counting from the back agrees with counting from the front. */
  lemma {:induction false} CountLast(recommendations: seq<Entries>)
    requires |recommendations| >= 1
    ensures CountOptimizations(recommendations) ==
            CountOptimizations(recommendations[..|recommendations| - 1]) +
            (if IsOptimization(recommendations[|recommendations| - 1]) then 1 else 0)
  {
    var n := |recommendations|;
    if n == 1 {
      assert recommendations[..0] == [] && recommendations[1..] == [];
    } else {
      CountLast(recommendations[1..]);
      assert recommendations[1..][..n - 2] == recommendations[..n - 1][1..];
    }
  }

  /** The recommendations inside some applied entries, in order. */
  function Kept(applied: seq<Applied>): (rs: seq<Entries>)
    ensures |rs| == |applied|
  {
    if applied == [] then []
    else Kept(applied[..|applied| - 1]) + [applied[|applied| - 1].recommendation]
  }

  /** Applying the applied recommendations again applies them all again:
      the filter keeps everything it has already kept. */
  lemma {:induction false} AppliedIdempotent(recommendations: seq<Entries>)
    ensures AppliedAll(Kept(AppliedAll(recommendations))) == AppliedAll(recommendations)
  {
    if recommendations != [] {
      var n := |recommendations|;
      var init := recommendations[..n - 1];
      var last := recommendations[n - 1];
      AppliedIdempotent(init);
      var prior := AppliedAll(init);
      if IsOptimization(last) {
        var applied := prior + [Applied(last, "applied")];
        assert AppliedAll(recommendations) == applied;
        assert applied[..|applied| - 1] == prior;
        assert Kept(applied) == Kept(prior) + [last];
        var kept := Kept(applied);
        assert kept[..|kept| - 1] == Kept(prior);
      } else {
        assert AppliedAll(recommendations) == prior;
      }
    }
  }

  class AutoConfigurator {
    const config: SidekickConfig

    constructor (config: SidekickConfig)
      ensures this.config == config
    {
      this.config := config;
    }

    /** `configure`: a missing path gives an error and no blocks; otherwise
        the environment block, the scaling block when
        `automation.auto_configure` is truthy, then the security and the
        monitoring blocks. The requested environment is echoed as given. */
    method Configure(path: string, pathExists: bool, environment: string) returns (result: ConfigureResult)
      ensures result.environment == environment && result.changes == []
      ensures !pathExists ==>
                result.status == "error" && result.configurations == [] &&
                result.message == Some("Path does not exist: " + path)
      ensures pathExists ==>
                result.status == "success" && result.message == None &&
                result.configurations == Blocks(environment, Enabled(config.config, AutoConfigure))
    {
      result := ConfigureResult("success", environment, [], [], None);
      if !pathExists {
        result := result.(status := "error", message := Some("Path does not exist: " + path));
        return;
      }
      var configurations := [EnvironmentBlock(EnvironmentFor(environment))];
      var autoScaling := AutoConfigureOn();
      if autoScaling {
        configurations := configurations + [AutoScalingBlock(ScalingFor(environment))];
      }
      configurations := configurations + [SecurityBlock(SecurityFor(environment))];
      configurations := configurations + [MonitoringBlock(MonitoringFor(environment))];
      result := result.(configurations := configurations);
    }

    /** `apply_optimizations`: nothing in dry-run mode; otherwise every
        recommendation whose type is "optimization", in order, marked
        applied. */
    method ApplyOptimizations(path: string, recommendations: seq<Entries>) returns (applied: seq<Applied>)
      ensures Enabled(config.config, DryRun) ==> applied == []
      ensures !Enabled(config.config, DryRun) ==> applied == AppliedAll(recommendations)
    {
      applied := [];
      var dryRun := DryRunOn();
      if dryRun {
        return;
      }
      var i := 0;
      while i < |recommendations|
        invariant 0 <= i <= |recommendations|
        invariant applied == AppliedAll(recommendations[..i])
      {
        assert recommendations[..i + 1][..i] == recommendations[..i];
        if Get(recommendations[i], "type") == Str("optimization") {
          applied := applied + [Applied(recommendations[i], "applied")];
        }
        i := i + 1;
      }
      assert recommendations[..i] == recommendations;
    }

    /** `config.get("automation.auto_configure")`, as a truth value. */
    method AutoConfigureOn() returns (on: bool)
      ensures on == Enabled(config.config, AutoConfigure)
    {
      AutoConfigureKey();
      on := ReadFlag(config, "automation.auto_configure", AutoConfigure);
    }

    /** `config.get("automation.dry_run")`, as a truth value. */
    method DryRunOn() returns (on: bool)
      ensures on == Enabled(config.config, DryRun)
    {
      DryRunKey();
      on := ReadFlag(config, "automation.dry_run", DryRun);
    }
  }
}
