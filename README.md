# bit-sidekick core in Dafny

This project models the four components that make up the core of the
Bit-Block Sidekick, an agent that analyzes, configures and audits
infrastructure starter packs:

- **SidekickConfig** (`config.dfy`, module `Config`). This is the configuration store: a nested
  tree held in a field, read with `get` and written with `set` through
  dot-separated keys. The model also covers the default tree and the rule
  that a falsy loaded document becomes the empty dict. `get` is a loop proved
  against the recursive descent `GetPath`. `set` is a class method that
  `modifies` the store. Its descent loop runs in `SetIn` and is proved against
  `SetPath`.
- **InfrastructureAnalyzer** (`analyzer.dfy`, module `Analyzer`). It extracts a flat resource list
  from a parsed document's `resources` (a mapping or a list), `services`
  and `infrastructure` sections. It analyzes one file or a directory walk,
  and derives the encryption and consolidation recommendations.
- **SelfAuditor** (`auditor.dfy`, module `Auditor`). It runs three groups of fixed checks,
  each gated by an `analysis.*_checks` flag. It computes the capped severity-weighted
  risk score and the prioritized recommendation list.
- **AutoConfigurator** (`configurator.dfy`, module `Configurator`). It holds the per-environment
  tables with their fall-back to `dev`, and the security groups. It builds the list of
  configuration blocks and applies optimization recommendations unless dry run is on.

All four work on one value type (`values.dfy`, module `Values`): null,
booleans, integers, strings, lists and dicts. Dicts are sequences of entries
in insertion order, as Python dicts iterate.

The model follows the code in three places that are easy to misread:

- `get` returns the default for a segment that holds None, not only for an
  absent one (`bit_sidekick/config.py:71`).
- `configure` produces the auto-scaling block only when
  `automation.auto_configure` is truthy. The default tree has no such key, so
  it produces three blocks, not four (`bit_sidekick/modules/configurator.py:55`).
- A resource's name and type are whatever values the document holds, not
  necessarily strings (`bit_sidekick/modules/analyzer.py:137,147-148`).

## Model

| member | source | states |
|---|---|---|
| Values.Truthy | bit_sidekick/config.py:25 | Python truthiness: a value is false exactly when it is None, False, 0, "", [] or {}. Every flag test (`if config.get(key):`) and the encryption test use it. |
| Values.Put | bit_sidekick/config.py:91 | `d[k] = v` makes `k` map to `v` and leaves every other key's lookup unchanged. An existing key keeps its position and a new one goes last. |
| Values.PutWellFormed | bit_sidekick/config.py:89-91 | Assigning into a dict with unique keys keeps its keys unique at every depth. |
| Config.Split | bit_sidekick/config.py:66 | `key.split(".")` always gives at least one segment. It is pinned down by JoinSplit, SplitDotFree and SplitJoin; `set` splits the same way (line 85). |
| Config.JoinSplit | bit_sidekick/config.py:66 | Joining the segments of `key.split(".")` with dots gives the key back. |
| Config.SplitDotFree | bit_sidekick/config.py:66 | No segment of a split key contains a dot. |
| Config.SplitJoin | bit_sidekick/config.py:66 | Splitting dot-free segments joined by dots gives the segments back. |
| Config.GetPath | bit_sidekick/config.py:66-75 | The reference definition of `get`'s descent. It is pinned down by GetStopsAtNone, GetStopsAtNonDict and GetLastSegment, which together cover every segment, and SidekickConfig.Get is proved equal to it. |
| Config.SidekickConfig.constructor | bit_sidekick/config.py:11-26 | Without a loaded document the store holds the default tree; a loaded document is used when truthy, else the empty dict. |
| Config.SidekickConfig.Get | bit_sidekick/config.py:55-75 | The loop's result is the recursive descent `GetPath` over the split key: the default once a non-dict is reached, a segment is missing or it holds None. |
| Config.GetStopsAtNone | bit_sidekick/config.py:69-72 | When a segment before the last is absent or holds None, `get` gives the default. |
| Config.GetStopsAtNonDict | bit_sidekick/config.py:68-74 | When a value reached before the last segment is neither None nor a dict, `get` gives the default. |
| Config.GetLastSegment | bit_sidekick/config.py:69-75 | Under a dict parent, `get` gives the default for an absent or None last segment, and otherwise the stored value unchanged, even False. |
| Config.CanSet | bit_sidekick/config.py:85-91 | When `set` runs without a TypeError: the root is a dict and every existing intermediate segment holds a dict. It is the precondition of SetPath and SidekickConfig.Set. |
| Config.SetPath | bit_sidekick/config.py:85-91 | The reference definition of the tree after `set`. It is pinned down by SetThenGet, SetCreatesDicts, SetFrame and SetPathWellFormed, and SetIn is proved equal to it. |
| Config.SidekickConfig.Set | bit_sidekick/config.py:77-91 | The new store is `SetPath` of the old one, which creates missing intermediates and assigns the last segment; well-formedness is kept. |
| Config.SetIn | bit_sidekick/config.py:85-91 | The descent loop that creates missing intermediate dicts and the final assignment compute `SetPath`. |
| Config.WalkRebuild | bit_sidekick/config.py:87-91 | Rewriting the ancestors collected on the way down, around the updated node at depth `i`, gives the whole updated tree. |
| Config.SetThenGet | bit_sidekick/config.py:77-91 | After `set(k, x)`, `get(k)` is `x`, or the default when `x` is None. |
| Config.SetCreatesDicts | bit_sidekick/config.py:87-90 | After `set`, every proper prefix of the key leads to a dict. |
| Config.SetFrame | bit_sidekick/config.py:86-91 | `set(k, x)` leaves `get(k')` unchanged for every key path `k'` that is neither a prefix nor an extension of `k`. |
| Config.SetPathWellFormed | bit_sidekick/config.py:87-91 | Setting a well-formed value keeps the tree's dicts free of duplicate keys. |
| Config.PutTwice | bit_sidekick/config.py:91 | Assigning the same key twice is the same as assigning it once, with the last value. |
| Config.DefaultConfig | bit_sidekick/config.py:28-53 | The default tree. Its contents are stated by DefaultSettings and its well-formedness by DefaultConfigWellFormed. |
| Config.InitialConfig | bit_sidekick/config.py:21-26 | The store `_load_config` yields: the default tree without a document, else the document or `{}`. FalsyDocumentLoadsEmpty and SidekickConfig.constructor state it. |
| Config.DefaultConfigWellFormed | bit_sidekick/config.py:28-53 | The default tree has unique keys at every depth. |
| Config.DefaultSettings | bit_sidekick/config.py:28-53 | In the default tree the agent name and `domain_awareness` are set, all three checks are on, `auto_fix` is off, `dry_run` is on and `automation.auto_configure` is absent. |
| Config.MissingKeyGivesDefault | bit_sidekick/config.py:66-72 | On the default tree, `get("nonexistent.key", "default")` gives "default": the first segment is absent. |
| Config.FalsyDocumentLoadsEmpty | bit_sidekick/config.py:25 | A falsy loaded document becomes the empty dict, under which every `get` gives the default. |
| Config.ReadFlag | bit_sidekick/config.py:55-75 | `if config.get(key):` is the truthiness of the setting at the key's segments. |
| Analyzer.DeclaredKind | bit_sidekick/modules/analyzer.py:135-137 | The type of a mapping entry is its stored `type` (even a non-string or None) when the entry is a dict holding that key, and "unknown" otherwise. |
| Analyzer.ResourceFromItem | bit_sidekick/modules/analyzer.py:146-150 | A dict list item is its own config; its name is its stored `name`, or "unnamed" when the key is absent, and its type is the one a mapping entry would get. |
| Analyzer.ResourcesFromDict | bit_sidekick/modules/analyzer.py:133-142 | One resource per key, in key order, named by the key and typed by the entry's `type` (or "unknown"). |
| Analyzer.ResourcesFromList | bit_sidekick/modules/analyzer.py:143-150 | One resource per dict item, in order. Each item is its own config, with "unnamed" and "unknown" used only for absent keys. |
| Analyzer.Labelled | bit_sidekick/modules/analyzer.py:153-175 | One resource per key of a `services` or `infrastructure` mapping, carrying that section's fixed type. |
| Analyzer.ParseResources | bit_sidekick/modules/analyzer.py:130-151 | A mapping gives one resource per key and a list at most one per item. Anything else gives nothing. ResourcesFromDict and ResourcesFromList give the entries. |
| Analyzer.ParseServices | bit_sidekick/modules/analyzer.py:153-163 | A mapping gives one resource per key, all typed "service". Anything else gives nothing. |
| Analyzer.ParseInfrastructure | bit_sidekick/modules/analyzer.py:165-175 | A mapping gives one resource per key, all typed "infrastructure". Anything else gives nothing. |
| Analyzer.ExtractResources | bit_sidekick/modules/analyzer.py:115-128 | A document that is not a dict yields no resources. |
| Analyzer.ResourcesMappingOnly | bit_sidekick/modules/analyzer.py:121-142 | A document with only a `resources` mapping gives exactly one resource per key, named and typed as declared. |
| Analyzer.ExtractResourcesExample | bit_sidekick/modules/analyzer.py:115-142 | Two typed entries under `resources` give the two resources, in order. |
| Analyzer.AllSectionsOrder | bit_sidekick/modules/analyzer.py:121-126 | With all three sections as mappings, the resources come first, then the services, then the infrastructure components. Each position holds the whole resource (name, type, config) of its entry. |
| Analyzer.AllSectionsConcat | bit_sidekick/modules/analyzer.py:121-126 | The collection order is fixed by the code, not by the order the sections appear in the document. |
| Analyzer.LacksEncryption | bit_sidekick/modules/analyzer.py:199-200 | A resource lacks encryption exactly when its config is a dict and `encryption` is absent or holds a falsy value. |
| Analyzer.Unencrypted | bit_sidekick/modules/analyzer.py:198-200 | The resources kept are exactly those whose config is a dict without a truthy `encryption`. |
| Analyzer.SecurityRecommendations | bit_sidekick/modules/analyzer.py:191-207 | One encryption advice per unencrypted resource, naming it, in resource order. |
| Analyzer.OptimizationRecommendations | bit_sidekick/modules/analyzer.py:209-222 | At most one advice, the consolidation advice, given iff there are more than 10 resources. |
| Analyzer.GenerateRecommendations | bit_sidekick/modules/analyzer.py:177-189 | The reference definition of the analyzer's advice. ConsolidationLast and SecurityAdviceCases state its shape, and InfrastructureAnalyzer.Recommend is proved equal to it. |
| Analyzer.SecurityAdviceCases | bit_sidekick/modules/analyzer.py:177-207 | A resource with an encrypted or non-dict config gets no advice and any other exactly one naming it. With security checks on, the security advice is a prefix of all advice. With them off, no encryption advice is given. |
| Analyzer.ConsolidationLast | bit_sidekick/modules/analyzer.py:177-189 | The consolidation advice appears iff optimization checks are on and there are more than 10 resources. It is then last, and every other advice is about encryption. |
| Analyzer.UnencryptedExample | bit_sidekick/modules/analyzer.py:198-205 | A config with `encryption: False` yields exactly one security advice naming the resource. |
| Analyzer.DefaultRecommendationsExample | bit_sidekick/modules/analyzer.py:177-222 | Under the default tree, a web server and an encrypted database give one advice, about the web server. |
| Analyzer.SuffixKindsDisjoint | bit_sidekick/modules/analyzer.py:72-77 | No path ends both in a YAML suffix and in .json, so testing YAML first decides nothing. |
| Analyzer.AnalyzeFile | bit_sidekick/modules/analyzer.py:66-95 | YAML or JSON files yield their format, content and resources and no finding. Other files yield format "unknown", no content, no resources and one warning. A failed read or parse yields one error finding and no format, content or resources. |
| Analyzer.ConfigFiles | bit_sidekick/modules/analyzer.py:101-103 | Keeps at most the walked files; ConfigFilesExactly states which: those ending in .yml, .yaml or .json. |
| Analyzer.AnalyzeAll | bit_sidekick/modules/analyzer.py:101-109 | One report per kept file; AnalyzeAllEach states that the i-th is the i-th file's analysis under its path. |
| Analyzer.ConfigFilesExactly | bit_sidekick/modules/analyzer.py:103 | A walked file is analyzed iff it ends in .yml, .yaml or .json. |
| Analyzer.AnalyzeAllEach | bit_sidekick/modules/analyzer.py:104-109 | The i-th file report is the analysis of the i-th kept file, under its path. |
| Analyzer.WalkStep | bit_sidekick/modules/analyzer.py:101-111 | Visiting one more file appends its report, resources and findings when it is a configuration file, and changes nothing otherwise. |
| Analyzer.InfrastructureAnalyzer.AnalyzeDirectory | bit_sidekick/modules/analyzer.py:97-113 | The directory report lists every configuration file's analysis in walk order, with their resources and findings concatenated. |
| Analyzer.InfrastructureAnalyzer.Recommend | bit_sidekick/modules/analyzer.py:177-189 | The flags read from the store select the security and the optimization advice. |
| Analyzer.InfrastructureAnalyzer.Analyze | bit_sidekick/modules/analyzer.py:25-64 | A missing path gives exactly one error finding and no kind, format, content, files, resources or recommendations. A file or a directory is analyzed as above, and only the keys that analysis sets are present. Any other existing entry gives no kind and nothing found. The recommendations follow from the resources found. |
| Auditor.CheckEncryption | bit_sidekick/modules/auditor.py:91-105 | The result of the encryption check: one medium security finding, with the source's texts. SecurityGroup states its severity and kind within its group. |
| Auditor.CheckAccessControls | bit_sidekick/modules/auditor.py:107-119 | The result of the access-control check: one high security finding, with the source's texts. SecurityGroup states its severity and kind within its group. |
| Auditor.CheckNetworkSecurity | bit_sidekick/modules/auditor.py:121-133 | The result of the network-security check: one medium security finding, with the source's texts. SecurityGroup states its severity and kind within its group. |
| Auditor.CheckSecretsManagement | bit_sidekick/modules/auditor.py:135-147 | The result of the secrets-management check: one high security finding, with the source's texts. SecurityGroup states its severity and kind within its group. |
| Auditor.CheckResourceUtilization | bit_sidekick/modules/auditor.py:167-179 | The result of the resource-utilization check: one low optimization finding, with the source's texts. OptimizationGroup states its severity and kind within its group. |
| Auditor.CheckCostOptimization | bit_sidekick/modules/auditor.py:181-193 | The result of the cost-optimization check: one low optimization finding, with the source's texts. OptimizationGroup states its severity and kind within its group. |
| Auditor.CheckPerformance | bit_sidekick/modules/auditor.py:195-207 | The result of the performance check: one low optimization finding, with the source's texts. OptimizationGroup states its severity and kind within its group. |
| Auditor.ComplianceFindings | bit_sidekick/modules/auditor.py:209-229 | The two medium compliance findings, audit logging then backup. ComplianceGroup states them, and ComplianceAudit is proved equal to them. |
| Auditor.SecurityGroup | bit_sidekick/modules/auditor.py:72-147 | The security group is four security findings with severities medium, high, medium, high. |
| Auditor.OptimizationGroup | bit_sidekick/modules/auditor.py:149-207 | The optimization group is three low optimization findings. |
| Auditor.ComplianceGroup | bit_sidekick/modules/auditor.py:209-229 | The compliance group is two medium compliance findings. |
| Auditor.Severities | bit_sidekick/modules/auditor.py:97-227 | A helper that lists each finding's stored severity field, in order (absent stays absent), so that the group lemmas can state the severities the checks write. |
| Auditor.RunChecks | bit_sidekick/modules/auditor.py:84-89 | The check loop gives the concatenation of the checks' findings, in check order. |
| Auditor.SecurityAudit | bit_sidekick/modules/auditor.py:72-89 | Gives the security group. |
| Auditor.OptimizationAudit | bit_sidekick/modules/auditor.py:149-165 | Gives the optimization group. |
| Auditor.ComplianceAudit | bit_sidekick/modules/auditor.py:209-229 | Gives the compliance group. |
| Auditor.SeverityLabel | bit_sidekick/modules/auditor.py:242 | The finding's stored severity, or "low" when it has none. |
| Auditor.WeightSum | bit_sidekick/modules/auditor.py:239-243 | The summed weights of some findings. It is pinned down by WeightSumBound and WeightSumAppend. |
| Auditor.WeightSumBound | bit_sidekick/modules/auditor.py:233-243 | No finding weighs more than 10. |
| Auditor.WeightSumAppend | bit_sidekick/modules/auditor.py:240-243 | Summing weights distributes over concatenation. |
| Auditor.SeverityWeight | bit_sidekick/modules/auditor.py:233-243 | high 10, medium 5, low 2, anything else 0. No finding weighs more than 10, and one without a severity weighs as low (2). |
| Auditor.RiskScore | bit_sidekick/modules/auditor.py:231-245 | The reference definition of the score. RiskScoreBounds and AllGroupsAudit state its properties, and CalculateRiskScore is proved equal to it. |
| Auditor.RiskScoreBounds | bit_sidekick/modules/auditor.py:231-245 | The score lies in 0..100 and is the plain sum below ten findings. It never drops when a finding is added, and a finding without a severity weighs as a low one. |
| Auditor.CalculateRiskScore | bit_sidekick/modules/auditor.py:231-245 | The loops compute the security and compliance weights, capped at 100. |
| Auditor.HighFindings | bit_sidekick/modules/auditor.py:252-253 | Keeps exactly the security findings of high severity. |
| Auditor.Prioritized | bit_sidekick/modules/auditor.py:262-277 | Gives one recommendation per finding, in order, each carrying that finding's recommendation as its action and its message as its reason. |
| Auditor.AuditRecommendations | bit_sidekick/modules/auditor.py:247-279 | The reference definition of the audit's recommendation list. RecommendationsOrder states its order and contents, and GenerateRecommendations is proved equal to it. |
| Auditor.RecommendationsOrder | bit_sidekick/modules/auditor.py:247-279 | High-priority recommendations come first, one per high security finding. The medium optimization ones follow, then the medium compliance ones, each in its finding's order. |
| Auditor.GenerateRecommendations | bit_sidekick/modules/auditor.py:247-279 | The three loops compute that prioritized list. |
| Auditor.AppendEach | bit_sidekick/modules/auditor.py:262-277 | One of the loops that turns every finding of a group into a recommendation appends them in order. |
| Auditor.AllGroupsAudit | bit_sidekick/modules/auditor.py:231-279 | With all groups on, as in the default tree, the score is 40 and there are 7 recommendations, 2 of them high. |
| Auditor.SelfAuditor.Audit | bit_sidekick/modules/auditor.py:24-70 | A missing path gives an error with empty groups, score 0 and no recommendations. Otherwise each group is present iff its flag is truthy, and the score and recommendations follow from the groups. |
| Auditor.SelfAuditor.FlagsOn | bit_sidekick/modules/auditor.py:52-61 | Reads the three `analysis.*_checks` flags from the store. |
| Configurator.EnvironmentFor | bit_sidekick/modules/configurator.py:70-99 | The environment entry, falling back to dev. It is pinned down by Fallback, UnknownEnvironment and TablesAgree. |
| Configurator.ScalingFor | bit_sidekick/modules/configurator.py:101-126 | The scaling entry, falling back to dev. It is pinned down by Fallback, ScalingBounds and TablesAgree. |
| Configurator.MonitoringFor | bit_sidekick/modules/configurator.py:162-187 | The monitoring entry, falling back to dev. It is pinned down by Fallback. |
| Configurator.Fallback | bit_sidekick/modules/configurator.py:70-187 | Every environment other than staging and prod gets the dev entry of all three tables. |
| Configurator.ScalingBounds | bit_sidekick/modules/configurator.py:103-121 | Every scaling entry has 1 ≤ min ≤ max. The clause "enabled iff max exceeds one" only checks the table\'s values; no code ties the two fields. |
| Configurator.TablesAgree | bit_sidekick/modules/configurator.py:70-121 | The environment table's `auto_scaling` agrees with the scaling table's `enabled`. The second clause (single replica iff 7-day retention) only cross-checks the values of two independent tables, which no code links. |
| Configurator.SecurityGroups | bit_sidekick/modules/configurator.py:141-160 | The groups always start with https/443, and have a second http/80 rule exactly for "dev". |
| Configurator.UnknownEnvironment | bit_sidekick/modules/configurator.py:70-160 | An unknown environment gets the dev tables but only one security rule. |
| Configurator.SecurityFor | bit_sidekick/modules/configurator.py:128-139 | All four protections are on for every environment, and only the groups depend on it. |
| Configurator.Types | bit_sidekick/modules/configurator.py:96-187 | Lists each block's `type`, in order. |
| Configurator.Blocks | bit_sidekick/modules/configurator.py:51-65 | The reference definition of the blocks `configure` appends. BlockTypes states their order and DefaultBlocks their number under the default tree, and AutoConfigurator.Configure is proved to produce them. |
| Configurator.BlockTypes | bit_sidekick/modules/configurator.py:51-65 | The block types are environment, auto_scaling when enabled, security, monitoring, in that order. |
| Configurator.DefaultBlocks | bit_sidekick/modules/configurator.py:55 | The default tree has no `automation.auto_configure`, so `configure` gives three blocks. |
| Configurator.AutoConfigurator.Configure | bit_sidekick/modules/configurator.py:24-68 | A missing path gives an error and no blocks. Otherwise the result has the blocks for the environment, and the environment is echoed as given. |
| Configurator.IsOptimization | bit_sidekick/modules/configurator.py:209 | A recommendation is an optimization when its `type` is "optimization"; a missing type is not. AppliedAll keeps exactly these. |
| Configurator.AppliedAll | bit_sidekick/modules/configurator.py:208-215 | Every entry is marked applied, and a recommendation is applied iff its type is "optimization". |
| Configurator.AppliedCount | bit_sidekick/modules/configurator.py:208-217 | Gives one applied entry per optimization recommendation. |
| Configurator.CountLast | bit_sidekick/modules/configurator.py:208-209 | Counting optimization recommendations from the back agrees with counting from the front. |
| Configurator.AppliedIdempotent | bit_sidekick/modules/configurator.py:208-217 | Applying the applied recommendations again gives the same list. |
| Configurator.AutoConfigurator.ApplyOptimizations | bit_sidekick/modules/configurator.py:189-217 | Dry run gives nothing, whatever the input. Otherwise the loop gives the optimization recommendations in input order, each marked applied. |
| Configurator.AutoConfigurator.AutoConfigureOn | bit_sidekick/modules/configurator.py:55 | Reads `automation.auto_configure` as a truth value. |
| Configurator.AutoConfigurator.DryRunOn | bit_sidekick/modules/configurator.py:204 | Reads `automation.dry_run` as a truth value. |

## Left out

- `SidekickConfig.save` and reading the configuration file are file I/O. The constructor takes the parsed document, or None when no path was given or it does not exist.
- YAML and JSON parsing are not modelled. A file's parse outcome (a document, or the failure's message) is an input.
- The error text `Failed to parse file: …` is built from that message as given.
- `os.path.exists`, `isfile` and `isdir` become the `FileSystemEntry` input (or a `pathExists` flag). `os.walk` becomes a given sequence of paths in visit order, and `os.path.join` is left to that input.
- Logging is not modelled.
- `bit_sidekick/agent.py`, `bit_sidekick/cli.py` and the package `__init__` files are not part of this model.
- Dict keys are strings only. Python allows other key types, and a YAML document may use them.
- Floats, dates, timestamps and other YAML scalars outside JSON's types are not modelled. A document holding one is outside the model's inputs, so the falsiness of `encryption: 0.0` is not expressed.
- Config.SidekickConfig.constructor: requires a loaded document to have unique keys at every depth, which every Python dict has.
- Config.SidekickConfig.Set: when the root, or an existing segment other than the last, holds something other than a dict, Python's `set` raises `TypeError` before writing anything. A missing segment and every segment below it are fresh dicts, so a non-dict is only met at the root or along segments that already exist; the last segment may hold anything and is overwritten. A truthy loaded document that is not a dict makes every `set` raise. The model makes this condition (`CanSet`) a precondition rather than modelling the exception.
- Config.SidekickConfig.Set: Python rewrites the nested dicts in place. The model rebuilds the tree as a value, so aliasing of a nested dict shared with another object is not captured.
- A finding's severity is present or absent. A stored None and a non-string severity are not distinguished from absence, and the fixed checks never produce either.
- The model keeps the source check of a recommendation or finding, not its texts. The texts are derived from that check and are the literal strings of the checks.
- Configurator.AutoConfigurator.ApplyOptimizations: recommendations are dicts. A non-dict element, on which Python would raise, is not representable.
- Configurator.AutoConfigurator.Configure: `changes` is always empty in the source and is modelled as such.
