/** Self-audit: three groups of fixed findings, each gated by a flag of the
    configuration, a weighted risk score over the security and compliance
    findings, and a prioritized list of recommendations. */
module Auditor {
  import opened Values
  import opened Config

  /** The nine checks. Each always reports the same finding: its kind,
      severity, category, message and recommended action are fixed. */
  datatype Check =
    | Encryption | AccessControls | NetworkSecurity | SecretsManagement
    | ResourceUtilization | CostOptimization | Performance
    | AuditLogging | Backup
  {
    function Kind(): string {
      match this
      case Encryption | AccessControls | NetworkSecurity | SecretsManagement => "security"
      case ResourceUtilization | CostOptimization | Performance => "optimization"
      case AuditLogging | Backup => "compliance"
    }

    function Severity(): string {
      match this
      case AccessControls | SecretsManagement => "high"
      case Encryption | NetworkSecurity | AuditLogging | Backup => "medium"
      case ResourceUtilization | CostOptimization | Performance => "low"
    }

    function Category(): string {
      match this
      case Encryption => "encryption"
      case AccessControls => "access_control"
      case NetworkSecurity => "network"
      case SecretsManagement => "secrets"
      case ResourceUtilization => "resources"
      case CostOptimization => "cost"
      case Performance => "performance"
      case AuditLogging => "logging"
      case Backup => "backup"
    }

    function Message(): string {
      match this
      case Encryption => "Ensure data encryption is enabled for all storage resources"
      case AccessControls => "Review IAM policies for least privilege access"
      case NetworkSecurity => "Verify network segmentation and firewall rules"
      case SecretsManagement => "Ensure secrets are stored securely"
      case ResourceUtilization => "Monitor resource utilization for right-sizing opportunities"
      case CostOptimization => "Review resource costs for optimization opportunities"
      case Performance => "Review performance metrics and optimization opportunities"
      case AuditLogging => "Ensure audit logging is enabled for compliance"
      case Backup => "Verify backup and disaster recovery procedures"
    }

    function Action(): string {
      match this
      case Encryption => "Enable encryption at rest for all data storage"
      case AccessControls => "Implement role-based access control (RBAC)"
      case NetworkSecurity => "Implement network isolation for sensitive resources"
      case SecretsManagement => "Use a secrets management service for sensitive data"
      case ResourceUtilization => "Implement auto-scaling based on actual usage patterns"
      case CostOptimization => "Consider reserved instances or spot instances for cost savings"
      case Performance => "Implement caching and CDN for improved performance"
      case AuditLogging => "Enable comprehensive audit logging for all resources"
      case Backup => "Implement automated backup and recovery processes"
    }
  }

  /** An audit finding: the check that reported it, which fixes its kind,
      category, message and recommendation, and its severity. The severity
      is optional because the risk score reads a missing one as "low". */
  datatype Finding = Finding(check: Check, severity: Option<string>) {
    function Kind(): string { check.Kind() }
    function Category(): string { check.Category() }
    function Message(): string { check.Message() }
    function Recommendation(): string { check.Action() }
  }

  /** The finding a check reports. */
  function Reported(c: Check): Finding {
    Finding(c, Some(c.Severity()))
  }

  // ---------------------------------------------------------------------
  // The checks

  function CheckEncryption(path: string): seq<Finding> { [Reported(Encryption)] }
  function CheckAccessControls(path: string): seq<Finding> { [Reported(AccessControls)] }
  function CheckNetworkSecurity(path: string): seq<Finding> { [Reported(NetworkSecurity)] }
  function CheckSecretsManagement(path: string): seq<Finding> { [Reported(SecretsManagement)] }
  function CheckResourceUtilization(path: string): seq<Finding> { [Reported(ResourceUtilization)] }
  function CheckCostOptimization(path: string): seq<Finding> { [Reported(CostOptimization)] }
  function CheckPerformance(path: string): seq<Finding> { [Reported(Performance)] }

  /** The findings of `_compliance_audit`. */
  function ComplianceFindings(path: string): seq<Finding> {
    [Reported(AuditLogging), Reported(Backup)]
  }

  /** What each check of `_security_audit` returns, in the order they run. */
  function SecurityCheckResults(path: string): seq<seq<Finding>> {
    [CheckEncryption(path), CheckAccessControls(path), CheckNetworkSecurity(path), CheckSecretsManagement(path)]
  }

  /** What each check of `_optimization_audit` returns, in the order they run. */
  function OptimizationCheckResults(path: string): seq<seq<Finding>> {
    [CheckResourceUtilization(path), CheckCostOptimization(path), CheckPerformance(path)]
  }

  /** The findings of several checks, one after another. */
  function Flatten(results: seq<seq<Finding>>): seq<Finding> {
    if results == [] then []
    else Flatten(results[..|results| - 1]) + results[|results| - 1]
  }

  function SecurityFindings(path: string): seq<Finding> {
    Flatten(SecurityCheckResults(path))
  }

  function OptimizationFindings(path: string): seq<Finding> {
    Flatten(OptimizationCheckResults(path))
  }

  function Severities(fs: seq<Finding>): (ss: seq<Option<string>>)
    ensures |ss| == |fs| && forall i :: 0 <= i < |fs| ==> ss[i] == fs[i].severity
  {
    if fs == [] then [] else [fs[0].severity] + Severities(fs[1..])
  }

  lemma FlattenFour(a: seq<Finding>, b: seq<Finding>, c: seq<Finding>, d: seq<Finding>)
    ensures Flatten([a, b, c, d]) == a + b + c + d
  {
    assert [a, b, c, d][..3] == [a, b, c];
    FlattenThree(a, b, c);
  }

  lemma FlattenThree(a: seq<Finding>, b: seq<Finding>, c: seq<Finding>)
    ensures Flatten([a, b, c]) == a + b + c
  {
    assert [a, b, c][..2] == [a, b] && [a, b][..1] == [a] && [a][..0] == [];
    assert Flatten([a]) == a;
    assert Flatten([a, b]) == a + b;
  }

  /** The security group is four findings, two of them high and two
      medium, all of kind "security". */
  lemma SecurityGroup(path: string)
    ensures Severities(SecurityFindings(path)) == [Some("medium"), Some("high"), Some("medium"), Some("high")]
    ensures forall f :: f in SecurityFindings(path) ==> f.Kind() == "security"
  {
    FlattenFour(CheckEncryption(path), CheckAccessControls(path), CheckNetworkSecurity(path), CheckSecretsManagement(path));
  }

  /** The optimization group is three low findings, of kind "optimization". */
  lemma OptimizationGroup(path: string)
    ensures Severities(OptimizationFindings(path)) == [Some("low"), Some("low"), Some("low")]
    ensures forall f :: f in OptimizationFindings(path) ==> f.Kind() == "optimization"
  {
    FlattenThree(CheckResourceUtilization(path), CheckCostOptimization(path), CheckPerformance(path));
  }

  /** The compliance group is two medium findings, of kind "compliance". */
  lemma ComplianceGroup(path: string)
    ensures Severities(ComplianceFindings(path)) == [Some("medium"), Some("medium")]
    ensures forall f :: f in ComplianceFindings(path) ==> f.Kind() == "compliance"
  {
  }

  // ---------------------------------------------------------------------
  // Risk score

  /** `finding.get("severity", "low")` */
  function SeverityLabel(f: Finding): (s: string)
    ensures f.severity == Some(s) || (f.severity == None && s == "low")
  {
    match f.severity
    case None => "low"
    case Some(name) => name
  }

  /** `severity_weights.get(severity, 0)` */
  function SeverityWeight(f: Finding): (w: nat)
    ensures w <= 10
    ensures f.severity.None? ==> w == 2
  {
    var severity := SeverityLabel(f);
    if severity == "high" then 10
    else if severity == "medium" then 5
    else if severity == "low" then 2
    else 0
  }

  /** The summed weights of some findings. */
  function WeightSum(fs: seq<Finding>): nat {
    if fs == [] then 0
    else WeightSum(fs[..|fs| - 1]) + SeverityWeight(fs[|fs| - 1])
  }

  /** The risk score: the weights of the security and compliance findings,
      capped at 100. */
  function RiskScore(security: seq<Finding>, compliance: seq<Finding>): nat {
    var total := WeightSum(security) + WeightSum(compliance);
    if total < 100 then total else 100
  }

  /** No finding weighs more than a high one. */
  lemma {:induction false} WeightSumBound(fs: seq<Finding>)
    ensures WeightSum(fs) <= 10 * |fs|
  {
    if fs != [] {
      WeightSumBound(fs[..|fs| - 1]);
    }
  }

  /** Summing weights distributes over concatenation. */
  lemma {:induction false} WeightSumAppend(a: seq<Finding>, b: seq<Finding>)
    ensures WeightSum(a + b) == WeightSum(a) + WeightSum(b)
  {
    if b != [] {
      assert (a + b)[..|a + b| - 1] == a + b[..|b| - 1];
      WeightSumAppend(a, b[..|b| - 1]);
    } else {
      assert a + b == a;
    }
  }

  /** The score lies in 0..100, is below the cap while there are fewer than
      ten weighed findings, only grows when a finding is added, and a finding
      without a severity weighs as much as a low one. */
  lemma RiskScoreBounds(security: seq<Finding>, compliance: seq<Finding>, f: Finding)
    ensures 0 <= RiskScore(security, compliance) <= 100
    ensures |security| + |compliance| < 10 ==>
              RiskScore(security, compliance) == WeightSum(security) + WeightSum(compliance)
    ensures RiskScore(security, compliance) <= RiskScore(security + [f], compliance)
    ensures RiskScore(security, compliance) <= RiskScore(security, compliance + [f])
    ensures f.severity.None? ==> SeverityWeight(f) == SeverityWeight(f.(severity := Some("low")))
  {
    WeightSumBound(security);
    WeightSumBound(compliance);
    assert (security + [f])[..|security|] == security;
    assert (compliance + [f])[..|compliance|] == compliance;
  }

  // ---------------------------------------------------------------------
  // Recommendations

  /** A recommendation: its priority and kind, and the check whose finding
      it answers, which fixes its action (the finding's recommendation) and
      its reason (the finding's message). */
  datatype Recommendation = Recommendation(priority: string, kind: string, source: Check) {
    function Action(): string { source.Action() }
    function Reason(): string { source.Message() }
  }

  /** The recommendation answering a finding. */
  function FromFinding(f: Finding, priority: string, kind: string): Recommendation {
    Recommendation(priority, kind, f.check)
  }

  predicate IsHigh(f: Finding) {
    f.severity == Some("high")
  }

  /** The high-severity findings, in order. */
  function HighFindings(fs: seq<Finding>): (hs: seq<Finding>)
    ensures forall f :: f in hs <==> f in fs && IsHigh(f)
    ensures |hs| <= |fs|
  {
    if fs == [] then []
    else HighFindings(fs[..|fs| - 1]) + (if IsHigh(fs[|fs| - 1]) then [fs[|fs| - 1]] else [])
  }

  /** One recommendation per finding, in order. */
  function Prioritized(fs: seq<Finding>, priority: string, kind: string): (rs: seq<Recommendation>)
    ensures |rs| == |fs|
    ensures forall i :: 0 <= i < |fs| ==> rs[i] == FromFinding(fs[i], priority, kind)
  {
    if fs == [] then []
    else Prioritized(fs[..|fs| - 1], priority, kind) + [FromFinding(fs[|fs| - 1], priority, kind)]
  }

  /** The recommendations of an audit: the high-severity security findings
      first, then every optimization finding, then every compliance
      finding. */
  function AuditRecommendations(security: seq<Finding>, optimization: seq<Finding>,
                                compliance: seq<Finding>): seq<Recommendation> {
    Prioritized(HighFindings(security), "high", "security") +
    Prioritized(optimization, "medium", "optimization") +
    Prioritized(compliance, "medium", "compliance")
  }

  /** The high-priority recommendations come first, one per high-severity
      security finding; every other one is medium and carries the action and
      reason of its optimization or compliance finding, in order. */
  lemma RecommendationsOrder(security: seq<Finding>, optimization: seq<Finding>, compliance: seq<Finding>)
    ensures |AuditRecommendations(security, optimization, compliance)| ==
            |HighFindings(security)| + |optimization| + |compliance|
    ensures forall j :: 0 <= j < |HighFindings(security)| ==>
              AuditRecommendations(security, optimization, compliance)[j] ==
              FromFinding(HighFindings(security)[j], "high", "security")
    ensures forall j :: |HighFindings(security)| <= j < |HighFindings(security)| + |optimization| ==>
              AuditRecommendations(security, optimization, compliance)[j] ==
              FromFinding(optimization[j - |HighFindings(security)|], "medium", "optimization")
    ensures forall j :: |HighFindings(security)| + |optimization| <= j <
                        |AuditRecommendations(security, optimization, compliance)| ==>
              AuditRecommendations(security, optimization, compliance)[j] ==
              FromFinding(compliance[j - |HighFindings(security)| - |optimization|], "medium", "compliance")
  {
    PrioritizedRuns(HighFindings(security), "high", "security", optimization, "medium", "optimization",
                    compliance, "medium", "compliance");
  }

  /** Where each finding's recommendation sits when three runs of
      recommendations are concatenated. */
  lemma PrioritizedRuns(f1: seq<Finding>, p1: string, k1: string, f2: seq<Finding>, p2: string, k2: string,
                        f3: seq<Finding>, p3: string, k3: string)
    ensures |Prioritized(f1, p1, k1) + Prioritized(f2, p2, k2) + Prioritized(f3, p3, k3)| == |f1| + |f2| + |f3|
    ensures forall j :: 0 <= j < |f1| ==>
              (Prioritized(f1, p1, k1) + Prioritized(f2, p2, k2) + Prioritized(f3, p3, k3))[j] == FromFinding(f1[j], p1, k1)
    ensures forall j :: |f1| <= j < |f1| + |f2| ==>
              (Prioritized(f1, p1, k1) + Prioritized(f2, p2, k2) + Prioritized(f3, p3, k3))[j] ==
              FromFinding(f2[j - |f1|], p2, k2)
    ensures forall j :: |f1| + |f2| <= j < |f1| + |f2| + |f3| ==>
              (Prioritized(f1, p1, k1) + Prioritized(f2, p2, k2) + Prioritized(f3, p3, k3))[j] ==
              FromFinding(f3[j - |f1| - |f2|], p3, k3)
  {
    var a, b, c := Prioritized(f1, p1, k1), Prioritized(f2, p2, k2), Prioritized(f3, p3, k3);
    forall j | 0 <= j < |f1| ensures (a + b + c)[j] == FromFinding(f1[j], p1, k1) {
      ThreeParts(a, b, c, j);
    }
    forall j | |f1| <= j < |f1| + |f2| ensures (a + b + c)[j] == FromFinding(f2[j - |f1|], p2, k2) {
      ThreeParts(a, b, c, j);
      assert b[j - |f1|] == FromFinding(f2[j - |f1|], p2, k2);
    }
    forall j | |f1| + |f2| <= j < |f1| + |f2| + |f3|
      ensures (a + b + c)[j] == FromFinding(f3[j - |f1| - |f2|], p3, k3)
    {
      ThreeParts(a, b, c, j);
      assert c[j - |f1| - |f2|] == FromFinding(f3[j - |f1| - |f2|], p3, k3);
    }
  }

  lemma HighFindingsStep(fs: seq<Finding>, i: nat)
    requires i < |fs|
    ensures HighFindings(fs[..i + 1]) == HighFindings(fs[..i]) + (if IsHigh(fs[i]) then [fs[i]] else [])
  {
    assert fs[..i + 1][..i] == fs[..i];
  }

  lemma PrioritizedStep(fs: seq<Finding>, f: Finding, priority: string, kind: string)
    ensures Prioritized(fs + [f], priority, kind) == Prioritized(fs, priority, kind) + [FromFinding(f, priority, kind)]
  {
    assert (fs + [f])[..|fs|] == fs;
  }

  lemma FlattenStep(results: seq<seq<Finding>>, k: nat)
    requires k < |results|
    ensures Flatten(results[..k + 1]) == Flatten(results[..k]) + results[k]
  {
    assert results[..k + 1][..k] == results[..k];
  }

  /** With every group enabled, as under the default configuration, the
      score is 40 and there are 7 recommendations, two of them high. */
  lemma AllGroupsAudit(path: string)
    ensures Enabled(DefaultConfig(), SecurityChecks) && Enabled(DefaultConfig(), OptimizationChecks) &&
            Enabled(DefaultConfig(), ComplianceChecks)
    ensures RiskScore(SecurityFindings(path), ComplianceFindings(path)) == 40
    ensures |AuditRecommendations(SecurityFindings(path), OptimizationFindings(path), ComplianceFindings(path))| == 7
    ensures |HighFindings(SecurityFindings(path))| == 2
  {
    DefaultAnalysisSettings();
    SecurityWeight(path);
    ComplianceWeight(path);
    FlattenThree(CheckResourceUtilization(path), CheckCostOptimization(path), CheckPerformance(path));
    RecommendationsOrder(SecurityFindings(path), OptimizationFindings(path), ComplianceFindings(path));
  }

  /** The security group weighs 30 and holds two high findings. */
  lemma SecurityWeight(path: string)
    ensures WeightSum(SecurityFindings(path)) == 30
    ensures |HighFindings(SecurityFindings(path))| == 2
  {
    var e, a, n, m := CheckEncryption(path)[0], CheckAccessControls(path)[0], CheckNetworkSecurity(path)[0],
                      CheckSecretsManagement(path)[0];
    FlattenFour([e], [a], [n], [m]);
    assert SecurityFindings(path) == [e, a, n, m];
    FourFindings(e, a, n, m);
  }

  /** The compliance group weighs 10. */
  lemma ComplianceWeight(path: string)
    ensures WeightSum(ComplianceFindings(path)) == 10
  {
    var fs := ComplianceFindings(path);
    assert fs[..1] == [fs[0]] && fs[..1][..0] == [];
  }

  lemma FourFindings(a: Finding, b: Finding, c: Finding, d: Finding)
    ensures WeightSum([a, b, c, d]) == SeverityWeight(a) + SeverityWeight(b) + SeverityWeight(c) + SeverityWeight(d)
    ensures HighFindings([a, b, c, d]) ==
            (if IsHigh(a) then [a] else []) + (if IsHigh(b) then [b] else []) +
            (if IsHigh(c) then [c] else []) + (if IsHigh(d) then [d] else [])
  {
    assert [a, b, c, d][..3] == [a, b, c] && [a, b, c][..2] == [a, b] && [a, b][..1] == [a] && [a][..0] == [];
    assert WeightSum([a]) == SeverityWeight(a);
    assert WeightSum([a, b]) == SeverityWeight(a) + SeverityWeight(b);
    assert WeightSum([a, b, c]) == SeverityWeight(a) + SeverityWeight(b) + SeverityWeight(c);
    assert HighFindings([a]) == (if IsHigh(a) then [a] else []);
    assert HighFindings([a, b]) == (if IsHigh(a) then [a] else []) + (if IsHigh(b) then [b] else []);
    assert HighFindings([a, b, c]) == (if IsHigh(a) then [a] else []) + (if IsHigh(b) then [b] else []) +
                                      (if IsHigh(c) then [c] else []);
  }

  // ---------------------------------------------------------------------
  // The auditor

  /** The audit report. `message` is present only on error. */
  datatype AuditReport = AuditReport(
    status: string,
    path: string,
    message: Option<string>,
    securityFindings: seq<Finding>,
    optimizationFindings: seq<Finding>,
    complianceFindings: seq<Finding>,
    recommendations: seq<Recommendation>,
    riskScore: int)

  /** The loop of `_security_audit` and `_optimization_audit`: the findings
      of each check that found something, in check order. */
  method RunChecks(results: seq<seq<Finding>>) returns (findings: seq<Finding>)
    ensures findings == Flatten(results)
  {
    findings := [];
    var k := 0;
    while k < |results|
      invariant 0 <= k <= |results|
      invariant findings == Flatten(results[..k])
    {
      FlattenStep(results, k);
      if results[k] != [] {
        findings := findings + results[k];
      }
      k := k + 1;
    }
    assert results[..k] == results;
  }

  /** `_security_audit` */
  method SecurityAudit(path: string) returns (findings: seq<Finding>)
    ensures findings == SecurityFindings(path)
  {
    findings := RunChecks(SecurityCheckResults(path));
  }

  /** `_optimization_audit` */
  method OptimizationAudit(path: string) returns (findings: seq<Finding>)
    ensures findings == OptimizationFindings(path)
  {
    findings := RunChecks(OptimizationCheckResults(path));
  }

  /** `_compliance_audit` */
  method ComplianceAudit(path: string) returns (findings: seq<Finding>)
    ensures findings == ComplianceFindings(path)
  {
    findings := [];
    findings := findings + [Reported(AuditLogging)];
    findings := findings + [Reported(Backup)];
  }

  /** `_calculate_risk_score` */
  method CalculateRiskScore(security: seq<Finding>, compliance: seq<Finding>) returns (score: int)
    ensures score == RiskScore(security, compliance)
  {
    score := 0;
    var i := 0;
    while i < |security|
      invariant 0 <= i <= |security|
      invariant score == WeightSum(security[..i])
    {
      assert security[..i + 1][..i] == security[..i];
      score := score + SeverityWeight(security[i]);
      i := i + 1;
    }
    assert security[..i] == security;
    var j := 0;
    while j < |compliance|
      invariant 0 <= j <= |compliance|
      invariant score == WeightSum(security) + WeightSum(compliance[..j])
    {
      assert compliance[..j + 1][..j] == compliance[..j];
      score := score + SeverityWeight(compliance[j]);
      j := j + 1;
    }
    assert compliance[..j] == compliance;
    if score > 100 {
      score := 100;
    }
  }

  /** `_generate_recommendations` */
  method GenerateRecommendations(security: seq<Finding>, optimization: seq<Finding>, compliance: seq<Finding>)
    returns (recs: seq<Recommendation>)
    ensures recs == AuditRecommendations(security, optimization, compliance)
  {
    recs := [];
    var i := 0;
    while i < |security|
      invariant 0 <= i <= |security|
      invariant recs == Prioritized(HighFindings(security[..i]), "high", "security")
    {
      HighFindingsStep(security, i);
      if security[i].severity == Some("high") {
        PrioritizedStep(HighFindings(security[..i]), security[i], "high", "security");
        recs := recs + [FromFinding(security[i], "high", "security")];
      }
      i := i + 1;
    }
    assert security[..i] == security;
    recs := AppendEach(recs, optimization, "medium", "optimization");
    recs := AppendEach(recs, compliance, "medium", "compliance");
  }

  /** One of the loops of `_generate_recommendations` that turns every
      finding of a group into a recommendation. */
  method AppendEach(recs0: seq<Recommendation>, fs: seq<Finding>, priority: string, kind: string)
    returns (recs: seq<Recommendation>)
    ensures recs == recs0 + Prioritized(fs, priority, kind)
  {
    recs := recs0;
    var i := 0;
    while i < |fs|
      invariant 0 <= i <= |fs|
      invariant recs == recs0 + Prioritized(fs[..i], priority, kind)
    {
      assert fs[..i + 1] == fs[..i] + [fs[i]];
      PrioritizedStep(fs[..i], fs[i], priority, kind);
      ghost var done := Prioritized(fs[..i], priority, kind);
      var r := FromFinding(fs[i], priority, kind);
      recs := recs + [r];
      assert recs == recs0 + (done + [r]);
      i := i + 1;
    }
    assert fs[..i] == fs;
  }

  class SelfAuditor {
    const config: SidekickConfig

    constructor (config: SidekickConfig)
      ensures this.config == config
    {
      this.config := config;
    }

    /** `audit`: a missing path gives an error report with nothing found;
        otherwise each enabled group runs, and the score and the
        recommendations are derived from what was found. */
    method Audit(path: string, pathExists: bool) returns (report: AuditReport)
      ensures report.path == path
      ensures !pathExists ==>
                report.status == "error" && report.message == Some("Path does not exist: " + path) &&
                report.securityFindings == [] && report.optimizationFindings == [] &&
                report.complianceFindings == [] && report.recommendations == [] && report.riskScore == 0
      ensures pathExists ==>
                report.status == "completed" && report.message == None &&
                report.securityFindings == (if Enabled(config.config, SecurityChecks) then SecurityFindings(path) else []) &&
                report.optimizationFindings ==
                  (if Enabled(config.config, OptimizationChecks) then OptimizationFindings(path) else []) &&
                report.complianceFindings ==
                  (if Enabled(config.config, ComplianceChecks) then ComplianceFindings(path) else []) &&
                report.riskScore == RiskScore(report.securityFindings, report.complianceFindings) &&
                report.recommendations == AuditRecommendations(report.securityFindings, report.optimizationFindings,
                                                               report.complianceFindings)
    {
      if !pathExists {
        return AuditReport("error", path, Some("Path does not exist: " + path), [], [], [], [], 0);
      }
      var securityOn, optimizationOn, complianceOn := FlagsOn();
      var security, optimization, compliance := [], [], [];
      if securityOn {
        security := SecurityAudit(path);
      }
      if optimizationOn {
        optimization := OptimizationAudit(path);
      }
      if complianceOn {
        compliance := ComplianceAudit(path);
      }
      var score := CalculateRiskScore(security, compliance);
      var recs := GenerateRecommendations(security, optimization, compliance);
      report := AuditReport("completed", path, None, security, optimization, compliance, recs, score);
    }

    /** The three `analysis.*_checks` flags. */
    method FlagsOn() returns (security: bool, optimization: bool, compliance: bool)
      ensures security == Enabled(config.config, SecurityChecks)
      ensures optimization == Enabled(config.config, OptimizationChecks)
      ensures compliance == Enabled(config.config, ComplianceChecks)
    {
      SecurityChecksKey();
      security := ReadFlag(config, "analysis.security_checks", SecurityChecks);
      OptimizationChecksKey();
      optimization := ReadFlag(config, "analysis.optimization_checks", OptimizationChecks);
      ComplianceChecksKey();
      compliance := ReadFlag(config, "analysis.compliance_checks", ComplianceChecks);
    }
  }
}
