/** Infrastructure analysis: extracting a flat resource list from a parsed
    document, and the canned recommendations derived from it. The file system
    is abstract: whether a path exists, what kind of entry it is, and what
    reading and parsing each file gives are inputs. */
module Analyzer {
  import opened Values
  import opened Config

  /** `{name, type, config}`. The name and type are whatever the document
      holds there, so they are values, not strings. */
  datatype Resource = Resource(name: Value, kind: Value, config: Value)

  // ---------------------------------------------------------------------
  // Resource extraction

  /** The type of a `resources` entry given as a mapping:
      `config.get("type", "unknown")` when the entry is a dict, else "unknown". */
  function DeclaredKind(c: Value): (k: Value)
    ensures c.Dict? && HasKey(c.entries, "type") ==> k == Lookup(c.entries, "type").value
    ensures !(c.Dict? && HasKey(c.entries, "type")) ==> k == Str("unknown")
  {
    if c.Dict? then GetOr(c.entries, "type", Str("unknown")) else Str("unknown")
  }

  /** `resources` given as a mapping: one resource per key, in key order. */
  function ResourcesFromDict(es: Entries): (rs: seq<Resource>)
    ensures |rs| == |es|
    ensures forall i :: 0 <= i < |es| ==>
              rs[i] == Resource(Str(es[i].0), DeclaredKind(es[i].1), es[i].1)
  {
    if es == [] then []
    else [Resource(Str(es[0].0), DeclaredKind(es[0].1), es[0].1)] + ResourcesFromDict(es[1..])
  }

  /** The items of a list that are dicts, in order. */
  function DictItems(items: seq<Value>): (ds: seq<Value>)
    ensures forall d :: d in ds <==> d in items && d.Dict?
    ensures |ds| <= |items|
  {
    if items == [] then []
    else if items[0].Dict? then [items[0]] + DictItems(items[1..])
    else DictItems(items[1..])
  }

  /** A dict item of a `resources` list is its own config; its name defaults
      to "unnamed" and its type to "unknown" only when the key is absent. */
  function ResourceFromItem(item: Value): (r: Resource)
    requires item.Dict?
    ensures r.config == item
    ensures r.kind == DeclaredKind(item)
    ensures r.name == if HasKey(item.entries, "name") then Lookup(item.entries, "name").value else Str("unnamed")
  {
    Resource(GetOr(item.entries, "name", Str("unnamed")), GetOr(item.entries, "type", Str("unknown")), item)
  }

  /** `resources` given as a list: one resource per dict item, in order;
      other items are skipped. */
  function ResourcesFromList(items: seq<Value>): (rs: seq<Resource>)
    ensures |rs| == |DictItems(items)|
    ensures forall j :: 0 <= j < |rs| ==> DictItems(items)[j].Dict? && rs[j] == ResourceFromItem(DictItems(items)[j])
  {
    if items == [] then []
    else if items[0].Dict? then [ResourceFromItem(items[0])] + ResourcesFromList(items[1..])
    else ResourcesFromList(items[1..])
  }

  /** One resource per key of a `services` or `infrastructure` mapping, all
      of the given type. */
  function Labelled(es: Entries, kind: string): (rs: seq<Resource>)
    ensures |rs| == |es|
    ensures forall i :: 0 <= i < |es| ==> rs[i] == Resource(Str(es[i].0), Str(kind), es[i].1)
  {
    if es == [] then []
    else [Resource(Str(es[0].0), Str(kind), es[0].1)] + Labelled(es[1..], kind)
  }

  /** `_parse_resources` */
  function ParseResources(section: Value): (rs: seq<Resource>)
    ensures section.Dict? ==> |rs| == |section.entries|
    ensures section.List? ==> |rs| <= |section.items|
    ensures !section.Dict? && !section.List? ==> rs == []
  {
    match section
    case Dict(es) => ResourcesFromDict(es)
    case List(items) => ResourcesFromList(items)
    case _ => []
  }

  /** `_parse_services` */
  function ParseServices(section: Value): (rs: seq<Resource>)
    ensures section.Dict? ==> |rs| == |section.entries| && forall r :: r in rs ==> r.kind == Str("service")
    ensures !section.Dict? ==> rs == []
  {
    if section.Dict? then Labelled(section.entries, "service") else []
  }

  /** `_parse_infrastructure` */
  function ParseInfrastructure(section: Value): (rs: seq<Resource>)
    ensures section.Dict? ==> |rs| == |section.entries| && forall r :: r in rs ==> r.kind == Str("infrastructure")
    ensures !section.Dict? ==> rs == []
  {
    if section.Dict? then Labelled(section.entries, "infrastructure") else []
  }

  /** `_extract_resources`: the `resources`, `services` and `infrastructure`
      sections of a dict document, in that order; nothing from anything else. */
  function ExtractResources(content: Value): (rs: seq<Resource>)
    ensures !content.Dict? ==> rs == []
  {
    match content
    case Dict(es) =>
      (if HasKey(es, "resources") then ParseResources(Get(es, "resources")) else []) +
      (if HasKey(es, "services") then ParseServices(Get(es, "services")) else []) +
      (if HasKey(es, "infrastructure") then ParseInfrastructure(Get(es, "infrastructure")) else [])
    case _ => []
  }

  /** A document with only a `resources` mapping gives one resource per key,
      named by the key and typed by the entry's `type`. */
  lemma ResourcesMappingOnly(es: Entries)
    ensures var rs := ExtractResources(Dict([("resources", Dict(es))]));
            |rs| == |es| &&
            forall i :: 0 <= i < |es| ==> rs[i].name == Str(es[i].0) && rs[i].kind == DeclaredKind(es[i].1)
  {
    var doc := [("resources", Dict(es))];
    assert doc == [doc[0]] + [];
    LookupPast([], doc[0], "services");
    LookupPast([], doc[0], "infrastructure");
    assert Lookup(doc, "resources") == Some(Dict(es));
    assert ExtractResources(Dict(doc)) == ResourcesFromDict(es);
  }

  /** Two typed entries under `resources` give two resources, in order. */
  lemma ExtractResourcesExample()
    ensures var server := Dict([("type", Str("compute"))]);
            var db := Dict([("type", Str("database"))]);
            ExtractResources(Dict([("resources", Dict([("server", server), ("db", db)]))])) ==
              [Resource(Str("server"), Str("compute"), server), Resource(Str("db"), Str("database"), db)]
  {
    var server := Dict([("type", Str("compute"))]);
    var db := Dict([("type", Str("database"))]);
    ResourcesMappingOnly([("server", server), ("db", db)]);
  }

  /** With all three sections as mappings, the resources are the three
      sections' entries one after another, whatever order the sections
      appear in the document: first `resources`, then the services, then the
      infrastructure components. */
  lemma AllSectionsOrder(resources: Entries, services: Entries, infrastructure: Entries)
    ensures |Sections(resources, services, infrastructure)| == |resources| + |services| + |infrastructure|
    ensures forall j :: 0 <= j < |resources| ==>
              Sections(resources, services, infrastructure)[j] ==
              Resource(Str(resources[j].0), DeclaredKind(resources[j].1), resources[j].1)
    ensures forall j :: |resources| <= j < |resources| + |services| ==>
              Sections(resources, services, infrastructure)[j] ==
              Resource(Str(services[j - |resources|].0), Str("service"), services[j - |resources|].1)
    ensures forall j :: |resources| + |services| <= j < |Sections(resources, services, infrastructure)| ==>
              Sections(resources, services, infrastructure)[j] ==
              Resource(Str(infrastructure[j - |resources| - |services|].0), Str("infrastructure"),
                       infrastructure[j - |resources| - |services|].1)
  {
    var a, b, c := ResourcesFromDict(resources), Labelled(services, "service"), Labelled(infrastructure, "infrastructure");
    var rs := Sections(resources, services, infrastructure);
    forall j | 0 <= j < |resources|
      ensures rs[j] == Resource(Str(resources[j].0), DeclaredKind(resources[j].1), resources[j].1)
    {
      ThreeParts(a, b, c, j);
    }
    forall j | |resources| <= j < |resources| + |services|
      ensures rs[j] == Resource(Str(services[j - |resources|].0), Str("service"), services[j - |resources|].1)
    {
      ThreeParts(a, b, c, j);
    }
    forall j | |resources| + |services| <= j < |rs|
      ensures rs[j] == Resource(Str(infrastructure[j - |resources| - |services|].0), Str("infrastructure"),
                                infrastructure[j - |resources| - |services|].1)
    {
      ThreeParts(a, b, c, j);
    }
  }

  /** The resources of a document holding all three sections, in the order
      `_extract_resources` collects them. */
  function Sections(resources: Entries, services: Entries, infrastructure: Entries): seq<Resource> {
    ResourcesFromDict(resources) + Labelled(services, "service") + Labelled(infrastructure, "infrastructure")
  }

  lemma AllSectionsConcat(resources: Entries, services: Entries, infrastructure: Entries)
    ensures ExtractResources(Dict([("infrastructure", Dict(infrastructure)), ("services", Dict(services)),
                                   ("resources", Dict(resources))])) ==
            Sections(resources, services, infrastructure)
  {
    var doc := [("infrastructure", Dict(infrastructure)), ("services", Dict(services)), ("resources", Dict(resources))];
    assert Lookup(doc, "infrastructure") == Some(Dict(infrastructure));
    assert Lookup(doc, "services") == Some(Dict(services));
    assert Lookup(doc[2..], "resources") == Some(Dict(resources));
    assert doc[1..][1..] == doc[2..];
    assert Lookup(doc, "resources") == Lookup(doc[1..], "resources");
  }

  // ---------------------------------------------------------------------
  // Recommendations

  /** An analyzer recommendation: encryption advice naming one resource, or
      the single advice to consolidate. */
  datatype Advice = EncryptionAdvice(resource: Value) | ConsolidationAdvice {
    function Kind(): string {
      if EncryptionAdvice? then "security" else "optimization"
    }
    function Message(): string {
      if EncryptionAdvice? then "Consider enabling encryption for this resource"
      else "Consider consolidating resources to reduce complexity"
    }
  }

  /** A resource whose config is a dict without a truthy `encryption` entry. */
  predicate LacksEncryption(r: Resource)
    ensures LacksEncryption(r) <==>
              r.config.Dict? &&
              (!HasKey(r.config.entries, "encryption") || !Truthy(Lookup(r.config.entries, "encryption").value))
  {
    r.config.Dict? && !Truthy(Get(r.config.entries, "encryption"))
  }

  /** The resources that lack encryption, in order. */
  function Unencrypted(rs: seq<Resource>): (us: seq<Resource>)
    ensures forall r :: r in us <==> r in rs && LacksEncryption(r)
    ensures |us| <= |rs|
  {
    if rs == [] then []
    else if LacksEncryption(rs[0]) then [rs[0]] + Unencrypted(rs[1..])
    else Unencrypted(rs[1..])
  }

  /** `_security_recommendations`: one advice per resource lacking
      encryption, naming it, in resource order. */
  function SecurityRecommendations(rs: seq<Resource>): (recs: seq<Advice>)
    ensures |recs| == |Unencrypted(rs)|
    ensures forall i :: 0 <= i < |recs| ==> recs[i] == EncryptionAdvice(Unencrypted(rs)[i].name)
  {
    if rs == [] then []
    else if LacksEncryption(rs[0]) then [EncryptionAdvice(rs[0].name)] + SecurityRecommendations(rs[1..])
    else SecurityRecommendations(rs[1..])
  }

  /** `_optimization_recommendations` */
  function OptimizationRecommendations(rs: seq<Resource>): (recs: seq<Advice>)
    ensures recs == [] || recs == [ConsolidationAdvice]
    ensures recs != [] <==> |rs| > 10
  {
    if |rs| > 10 then [ConsolidationAdvice] else []
  }

  /** `_generate_recommendations`: the security advice when
      `analysis.security_checks` is truthy, then the optimization advice when
      `analysis.optimization_checks` is truthy. */
  function GenerateRecommendations(root: Value, rs: seq<Resource>): seq<Advice> {
    (if Enabled(root, SecurityChecks) then SecurityRecommendations(rs) else []) +
    (if Enabled(root, OptimizationChecks) then OptimizationRecommendations(rs) else [])
  }

  /** The consolidation advice appears iff optimization checks are on and
      there are more than 10 resources; then it is the last advice, after all
      the security advice, and every other advice is about encryption. */
  lemma ConsolidationLast(root: Value, rs: seq<Resource>)
    ensures var recs := GenerateRecommendations(root, rs);
            (ConsolidationAdvice in recs <==> Enabled(root, OptimizationChecks) && |rs| > 10) &&
            (forall i :: 0 <= i < |recs| - 1 ==> recs[i].EncryptionAdvice?) &&
            (Enabled(root, OptimizationChecks) && |rs| > 10 ==> recs[|recs| - 1] == ConsolidationAdvice)
  {
    var sec := if Enabled(root, SecurityChecks) then SecurityRecommendations(rs) else [];
    assert forall a :: a in sec ==> a.EncryptionAdvice?;
  }

  /** A resource whose config has a truthy `encryption` entry or is not a
      dict gets no advice, any other exactly one naming it; with security
      checks on the security advice comes first, and with them off there is
      no encryption advice at all. */
  lemma SecurityAdviceCases(root: Value, rs: seq<Resource>, r: Resource)
    ensures !LacksEncryption(r) ==> SecurityRecommendations([r]) == []
    ensures LacksEncryption(r) ==> SecurityRecommendations([r]) == [EncryptionAdvice(r.name)]
    ensures Enabled(root, SecurityChecks) ==> SecurityRecommendations(rs) <= GenerateRecommendations(root, rs)
    ensures !Enabled(root, SecurityChecks) ==>
              forall a :: a in GenerateRecommendations(root, rs) ==> a.ConsolidationAdvice?
  {
  }

  /** A resource whose config says `encryption: False` gets one advice,
      naming it, of kind "security". */
  lemma UnencryptedExample()
    ensures var db := Resource(Str("db"), Str("unknown"), Dict([("encryption", Bool(false))]));
            var recs := SecurityRecommendations([db]);
            recs == [EncryptionAdvice(Str("db"))] && recs[0].Kind() == "security"
  {
    var db := Resource(Str("db"), Str("unknown"), Dict([("encryption", Bool(false))]));
    assert LacksEncryption(db);
  }

  /** Under the default configuration, a two-resource document whose
      database is encrypted gets one advice, about the web server. */
  lemma DefaultRecommendationsExample()
    ensures var web := Dict([("type", Str("compute")), ("replicas", Int(2))]);
            var database := Dict([("type", Str("postgresql")), ("encryption", Bool(true))]);
            var rs := ExtractResources(Dict([("resources", Dict([("web_server", web), ("database", database)]))]));
            |rs| == 2 && rs[0].name == Str("web_server") && rs[1].name == Str("database") &&
            GenerateRecommendations(DefaultConfig(), rs) == [EncryptionAdvice(Str("web_server"))]
  {
    var web := Dict([("type", Str("compute")), ("replicas", Int(2))]);
    var database := Dict([("type", Str("postgresql")), ("encryption", Bool(true))]);
    var es := [("web_server", web), ("database", database)];
    ResourcesMappingOnly(es);
    var rs := ExtractResources(Dict([("resources", Dict(es))]));
    assert rs == ResourcesFromDict(es);
    DefaultAnalysisSettings();
    assert LacksEncryption(rs[0]);
    assert !LacksEncryption(rs[1]);
    assert rs[1..][1..] == [];
    assert Unencrypted(rs) == [rs[0]];
  }

  // ---------------------------------------------------------------------
  // Files and directories

  /** What opening and parsing a file gives: the document, or the message of
      the exception raised. */
  datatype ParseOutcome = Parsed(doc: Value) | ParseError(reason: string)

  /** What a path names. `Special` exists but is neither a regular file nor
      a directory. A directory lists its files, at any depth, in the order
      the walk visits them, each with what reading it gives. */
  datatype FileSystemEntry =
    | Missing
    | RegularFile(outcome: ParseOutcome)
    | Directory(entries: seq<(string, ParseOutcome)>)
    | Special

  datatype Finding = Finding(kind: string, message: string)

  /** The report of `_analyze_file`. */
  datatype FileReport = FileReport(format: Option<string>, content: Option<Value>,
                                   resources: seq<Resource>, findings: seq<Finding>)

  predicate HasSuffix(s: string, suffix: string) {
    |suffix| <= |s| && s[|s| - |suffix|..] == suffix
  }

  predicate IsYaml(path: string) {
    HasSuffix(path, ".yml") || HasSuffix(path, ".yaml")
  }

  predicate IsJson(path: string) {
    HasSuffix(path, ".json")
  }

  /** The JSON suffix is tested after the YAML ones; no path has both, so
      the order of the tests does not matter. */
  lemma SuffixKindsDisjoint(path: string)
    ensures !(IsYaml(path) && IsJson(path))
  {
    if HasSuffix(path, ".yml") {
      assert path[|path| - 1] == path[|path| - 4..][3] == 'l';
    } else if HasSuffix(path, ".yaml") {
      assert path[|path| - 1] == path[|path| - 5..][4] == 'l';
    }
    if IsJson(path) {
      assert path[|path| - 1] == path[|path| - 5..][4] == 'n';
    }
  }

  /** `file.endswith((".yml", ".yaml", ".json"))` */
  predicate IsConfigFile(path: string) {
    IsYaml(path) || IsJson(path)
  }

  function ParseFailure(reason: string): Finding {
    Finding("error", "Failed to parse file: " + reason)
  }

  /** `_analyze_file`: a YAML or JSON file is parsed and its resources
      extracted; any other file gives a warning. For a file that is neither,
      a `ParseError` outcome stands for `open` failing. */
  function AnalyzeFile(path: string, outcome: ParseOutcome): (f: FileReport)
    ensures outcome.ParseError? ==>
              f.format == None && f.content == None && f.resources == [] &&
              f.findings == [ParseFailure(outcome.reason)]
    ensures outcome.Parsed? && IsConfigFile(path) ==>
              f.findings == [] && f.resources == ExtractResources(outcome.doc) &&
              f.format == Some(if IsYaml(path) then "yaml" else "json") && f.content == Some(outcome.doc)
    ensures outcome.Parsed? && !IsConfigFile(path) ==>
              f.format == Some("unknown") && f.content == None && f.resources == [] &&
              f.findings == [Finding("warning", "Unknown file format")]
  {
    match outcome
    case ParseError(reason) => FileReport(None, None, [], [ParseFailure(reason)])
    case Parsed(doc) =>
      if IsYaml(path) then FileReport(Some("yaml"), Some(doc), ExtractResources(doc), [])
      else if IsJson(path) then FileReport(Some("json"), Some(doc), ExtractResources(doc), [])
      else FileReport(Some("unknown"), None, [], [Finding("warning", "Unknown file format")])
  }

  datatype FileAnalysis = FileAnalysis(path: string, analysis: FileReport)

  /** The report of `_analyze_directory`. */
  datatype DirectoryReport = DirectoryReport(files: seq<FileAnalysis>, resources: seq<Resource>,
                                             findings: seq<Finding>)

  /** The files of a walk that end in .yml, .yaml or .json, in walk order. */
  function ConfigFiles(entries: seq<(string, ParseOutcome)>): (cs: seq<(string, ParseOutcome)>)
    ensures |cs| <= |entries|
  {
    if entries == [] then []
    else
      var last := entries[|entries| - 1];
      ConfigFiles(entries[..|entries| - 1]) + (if IsConfigFile(last.0) then [last] else [])
  }

  /** The files kept are exactly the walked files with a configuration
      suffix. */
  lemma {:induction false} ConfigFilesExactly(entries: seq<(string, ParseOutcome)>, e: (string, ParseOutcome))
    ensures e in ConfigFiles(entries) <==> e in entries && IsConfigFile(e.0)
  {
    if entries != [] {
      var init := entries[..|entries| - 1];
      ConfigFilesExactly(init, e);
      assert entries == init + [entries[|entries| - 1]];
    }
  }

  /** Each file's report, in order. */
  function AnalyzeAll(files: seq<(string, ParseOutcome)>): (fas: seq<FileAnalysis>)
    ensures |fas| == |files|
  {
    if files == [] then []
    else
      var last := files[|files| - 1];
      AnalyzeAll(files[..|files| - 1]) + [FileAnalysis(last.0, AnalyzeFile(last.0, last.1))]
  }

  /** The i-th report is the i-th file's, under its own path. */
  lemma {:induction false} AnalyzeAllEach(files: seq<(string, ParseOutcome)>, i: nat)
    requires i < |files|
    ensures AnalyzeAll(files)[i] == FileAnalysis(files[i].0, AnalyzeFile(files[i].0, files[i].1))
  {
    if i < |files| - 1 {
      AnalyzeAllEach(files[..|files| - 1], i);
    }
  }

  lemma ConfigFilesStep(entries: seq<(string, ParseOutcome)>, i: nat)
    requires i < |entries|
    ensures ConfigFiles(entries[..i + 1]) ==
            ConfigFiles(entries[..i]) + (if IsConfigFile(entries[i].0) then [entries[i]] else [])
  {
    assert entries[..i + 1][..i] == entries[..i];
  }

  lemma AnalyzeAllStep(files: seq<(string, ParseOutcome)>, f: (string, ParseOutcome))
    ensures AnalyzeAll(files + [f]) == AnalyzeAll(files) + [FileAnalysis(f.0, AnalyzeFile(f.0, f.1))]
  {
    assert (files + [f])[..|files|] == files;
  }

  lemma ConcatStep(files: seq<FileAnalysis>, f: FileAnalysis)
    ensures AllResources(files + [f]) == AllResources(files) + f.analysis.resources
    ensures AllFindings(files + [f]) == AllFindings(files) + f.analysis.findings
  {
    assert (files + [f])[..|files|] == files;
  }

  /** The resources of several file reports, concatenated in order. */
  function AllResources(files: seq<FileAnalysis>): seq<Resource> {
    if files == [] then []
    else AllResources(files[..|files| - 1]) + files[|files| - 1].analysis.resources
  }

  /** The findings of several file reports, concatenated in order. */
  function AllFindings(files: seq<FileAnalysis>): seq<Finding> {
    if files == [] then []
    else AllFindings(files[..|files| - 1]) + files[|files| - 1].analysis.findings
  }

  /** `d` is the report of a walk that has visited `entries`. */
  predicate Walked(entries: seq<(string, ParseOutcome)>, d: DirectoryReport) {
    d.files == AnalyzeAll(ConfigFiles(entries)) &&
    d.resources == AllResources(d.files) &&
    d.findings == AllFindings(d.files)
  }

  /** Visiting one more file: a configuration file's report is appended,
      any other file leaves the report as it was. */
  lemma WalkStep(entries: seq<(string, ParseOutcome)>, i: nat, d: DirectoryReport)
    requires i < |entries| && Walked(entries[..i], d)
    ensures var e := entries[i];
            var f := FileAnalysis(e.0, AnalyzeFile(e.0, e.1));
            Walked(entries[..i + 1], if IsConfigFile(e.0)
                                     then DirectoryReport(d.files + [f], d.resources + f.analysis.resources,
                                                          d.findings + f.analysis.findings)
                                     else d)
  {
    var e := entries[i];
    ConfigFilesStep(entries, i);
    if IsConfigFile(e.0) {
      AnalyzeAllStep(ConfigFiles(entries[..i]), e);
      ConcatStep(d.files, FileAnalysis(e.0, AnalyzeFile(e.0, e.1)));
      assert ConfigFiles(entries[..i + 1]) == ConfigFiles(entries[..i]) + [e];
    } else {
      assert ConfigFiles(entries[..i + 1]) == ConfigFiles(entries[..i]);
    }
  }

  /** The full analysis report. `kind`, `format`, `content` and `files` are
      the keys that only some paths produce. */
  datatype AnalysisReport = AnalysisReport(
    path: string,
    pathExists: bool,
    kind: Option<string>,
    format: Option<string>,
    content: Option<Value>,
    files: Option<seq<FileAnalysis>>,
    resources: seq<Resource>,
    findings: seq<Finding>,
    recommendations: seq<Advice>)

  class InfrastructureAnalyzer {
    const config: SidekickConfig

    constructor (config: SidekickConfig)
      ensures this.config == config
    {
      this.config := config;
    }

    /** `_analyze_directory`: analyzes every .yml, .yaml or .json file in
        walk order and concatenates their resources and findings. */
    method AnalyzeDirectory(entries: seq<(string, ParseOutcome)>) returns (d: DirectoryReport)
      ensures d.files == AnalyzeAll(ConfigFiles(entries))
      ensures d.resources == AllResources(d.files)
      ensures d.findings == AllFindings(d.files)
    {
      d := DirectoryReport([], [], []);
      var i := 0;
      while i < |entries|
        invariant 0 <= i <= |entries|
        invariant Walked(entries[..i], d)
      {
        var path := entries[i].0;
        WalkStep(entries, i, d);
        if IsConfigFile(path) {
          var report := AnalyzeFile(path, entries[i].1);
          d := DirectoryReport(d.files + [FileAnalysis(path, report)],
                               d.resources + report.resources, d.findings + report.findings);
        }
        i := i + 1;
      }
      assert entries[..i] == entries;
    }

    /** `_generate_recommendations`, reading the two flags from the
        configuration. */
    method Recommend(resources: seq<Resource>) returns (recs: seq<Advice>)
      ensures recs == GenerateRecommendations(config.config, resources)
    {
      SecurityChecksKey();
      var security := ReadFlag(config, "analysis.security_checks", SecurityChecks);
      OptimizationChecksKey();
      var optimization := ReadFlag(config, "analysis.optimization_checks", OptimizationChecks);
      recs := (if security then SecurityRecommendations(resources) else []) +
              (if optimization then OptimizationRecommendations(resources) else []);
    }

    /** `analyze`: a missing path gives one error finding and nothing else;
        a file or a directory is analyzed; then the recommendations are
        derived from the resources found. */
    method Analyze(path: string, fs: FileSystemEntry) returns (report: AnalysisReport)
      ensures report.path == path && report.pathExists == !fs.Missing?
      ensures fs.Missing? ==>
                report.findings == [Finding("error", "Path does not exist: " + path)] &&
                report.resources == [] && report.recommendations == [] && report.kind == None &&
                report.format == None && report.content == None && report.files == None
      ensures fs.RegularFile? ==>
                var f := AnalyzeFile(path, fs.outcome);
                report.kind == Some("file") && report.format == f.format && report.content == f.content &&
                report.resources == f.resources && report.findings == f.findings && report.files == None
      ensures fs.Directory? ==>
                report.kind == Some("directory") && report.format == None && report.content == None &&
                report.files.Some? &&
                report.files.value == AnalyzeAll(ConfigFiles(fs.entries)) &&
                report.resources == AllResources(report.files.value) &&
                report.findings == AllFindings(report.files.value)
      ensures fs.Special? ==>
                report.kind == None && report.format == None && report.content == None && report.files == None &&
                report.resources == [] && report.findings == []
      ensures !fs.Missing? ==> report.recommendations == GenerateRecommendations(config.config, report.resources)
    {
      report := AnalysisReport(path, !fs.Missing?, None, None, None, None, [], [], []);
      if !report.pathExists {
        report := report.(findings := report.findings + [Finding("error", "Path does not exist: " + path)]);
        return;
      }
      match fs {
        case RegularFile(outcome) =>
          var f := AnalyzeFile(path, outcome);
          report := report.(kind := Some("file"), format := f.format, content := f.content,
                            resources := f.resources, findings := f.findings);
        case Directory(entries) =>
          var d := AnalyzeDirectory(entries);
          report := report.(kind := Some("directory"), files := Some(d.files),
                            resources := d.resources, findings := d.findings);
        case Special =>
      }
      var recommendations := Recommend(report.resources);
      report := report.(recommendations := report.recommendations + recommendations);
    }
  }
}
