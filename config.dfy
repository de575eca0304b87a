/** The configuration store: a nested dict held in one field, read and
    written through dot-separated key paths such as "analysis.security_checks". */
module Config {
  import opened Values

  // ---------------------------------------------------------------------
  // Key paths

  /** `key.split(".")`: never empty; "a..b" gives ["a", "", "b"]. */
  function Split(key: string): (segs: seq<string>)
    ensures |segs| >= 1
  {
    if key == [] then [""]
    else
      var rest := Split(key[1..]);
      if key[0] == '.' then [""] + rest
      else [[key[0]] + rest[0]] + rest[1..]
  }

  /** `".".join(segs)` */
  function Join(segs: seq<string>): string
    requires |segs| >= 1
  {
    if |segs| == 1 then segs[0] else segs[0] + "." + Join(segs[1..])
  }

  predicate DotFree(s: string) {
    '.' !in s
  }

  /** Joining the segments of a key gives the key back. */
  lemma {:induction false} JoinSplit(key: string)
    ensures Join(Split(key)) == key
  {
    if key != [] {
      JoinSplit(key[1..]);
      var rest := Split(key[1..]);
      if key[0] == '.' {
        assert ([""] + rest)[1..] == rest;
      } else if |rest| > 1 {
        var segs := [[key[0]] + rest[0]] + rest[1..];
        assert segs[1..] == rest[1..];
      }
      assert key == [key[0]] + key[1..];
    }
  }

  /** No segment of a split key contains a dot. */
  lemma {:induction false} SplitDotFree(key: string)
    ensures forall i :: 0 <= i < |Split(key)| ==> DotFree(Split(key)[i])
  {
    if key != [] {
      SplitDotFree(key[1..]);
      var rest := Split(key[1..]);
      if key[0] != '.' {
        assert DotFree(rest[0]);
        assert DotFree([key[0]] + rest[0]);
        var segs := [[key[0]] + rest[0]] + rest[1..];
        forall i | 1 <= i < |segs| ensures DotFree(segs[i]) {
          assert segs[i] == rest[i];
        }
      } else {
        var segs := [""] + rest;
        forall i | 1 <= i < |segs| ensures DotFree(segs[i]) {
          assert segs[i] == rest[i - 1];
        }
      }
    }
  }

  lemma {:induction false} SplitAfterDotFree(a: string, s: string)
    requires DotFree(a)
    ensures Split(a + s) == [a + Split(s)[0]] + Split(s)[1..]
  {
    if a != [] {
      assert a[0] in a;
      assert DotFree(a[1..]) by {
        forall c | c in a[1..] ensures c in a { }
      }
      SplitAfterDotFree(a[1..], s);
      assert (a + s)[0] == a[0] && (a + s)[1..] == a[1..] + s;
      var rest := Split(a[1..] + s);
      assert Split(a + s) == [[a[0]] + rest[0]] + rest[1..];
      assert rest[0] == a[1..] + Split(s)[0] && rest[1..] == Split(s)[1..];
      assert [a[0]] + (a[1..] + Split(s)[0]) == a + Split(s)[0];
    } else {
      assert a + s == s;
      assert a + Split(s)[0] == Split(s)[0];
      assert Split(s) == [Split(s)[0]] + Split(s)[1..];
    }
  }

  /** Splitting the join of dot-free segments gives the segments back. */
  lemma {:induction false} SplitJoin(segs: seq<string>)
    requires |segs| >= 1
    requires forall i :: 0 <= i < |segs| ==> DotFree(segs[i])
    ensures Split(Join(segs)) == segs
  {
    if |segs| == 1 {
      SplitAfterDotFree(segs[0], "");
      assert segs[0] + "" == segs[0];
    } else {
      SplitJoin(segs[1..]);
      var tail := "." + Join(segs[1..]);
      assert Join(segs) == segs[0] + tail;
      SplitAfterDotFree(segs[0], tail);
      assert tail[0] == '.' && tail[1..] == Join(segs[1..]);
      assert Split(tail) == [""] + segs[1..];
      assert segs[0] + "" == segs[0];
      assert segs == [segs[0]] + segs[1..];
    }
  }

  /** The split of a two-segment key such as "automation.dry_run". */
  lemma SplitTwoKey(a: string, b: string, key: string)
    requires DotFree(a) && DotFree(b) && key == a + "." + b
    ensures Split(key) == [a, b]
  {
    SplitJoin([a, b]);
    assert [a, b][1..] == [b];
  }

  // ---------------------------------------------------------------------
  // get

  /** The descent of `get`: at each segment the current value must be a dict
      holding a non-None value under that segment, else the result is the
      default. */
  function GetPath(v: Value, keys: seq<string>, default: Value): Value
    decreases |keys|
  {
    if keys == [] then v
    else match v
      case Dict(es) =>
        var child := Get(es, keys[0]);
        if child == Null then default else GetPath(child, keys[1..], default)
      case _ => default
  }

  /** `config.get(key)` with the default None, for the key whose segments
      are `path`. */
  function Setting(root: Value, path: seq<string>): Value {
    GetPath(root, path, Null)
  }

  /** `if config.get(key):` */
  predicate Enabled(root: Value, path: seq<string>) {
    Truthy(Setting(root, path))
  }

  /** The segments of the keys the components read. */
  const SecurityChecks: seq<string> := ["analysis", "security_checks"]
  const OptimizationChecks: seq<string> := ["analysis", "optimization_checks"]
  const ComplianceChecks: seq<string> := ["analysis", "compliance_checks"]
  const AutoConfigure: seq<string> := ["automation", "auto_configure"]
  const DryRun: seq<string> := ["automation", "dry_run"]

  /** The dotted keys the components read split into those segments. */
  lemma SecurityChecksKey()
    ensures Split("analysis.security_checks") == SecurityChecks
  {
    SplitTwoKey("analysis", "security_checks", "analysis.security_checks");
  }

  lemma OptimizationChecksKey()
    ensures Split("analysis.optimization_checks") == OptimizationChecks
  {
    SplitTwoKey("analysis", "optimization_checks", "analysis.optimization_checks");
  }

  lemma ComplianceChecksKey()
    ensures Split("analysis.compliance_checks") == ComplianceChecks
  {
    SplitTwoKey("analysis", "compliance_checks", "analysis.compliance_checks");
  }

  lemma AutoConfigureKey()
    ensures Split("automation.auto_configure") == AutoConfigure
  {
    SplitTwoKey("automation", "auto_configure", "automation.auto_configure");
  }

  lemma DryRunKey()
    ensures Split("automation.dry_run") == DryRun
  {
    SplitTwoKey("automation", "dry_run", "automation.dry_run");
  }

  /** Once the walk reaches a value that is not a dict before the last
      segment, `get` returns the default. */
  lemma {:induction false} GetStopsAtNonDict(v: Value, keys: seq<string>, j: nat, default: Value)
    requires j < |keys|
    requires GetPath(v, keys[..j], Null) != Null && !GetPath(v, keys[..j], Null).Dict?
    ensures GetPath(v, keys, default) == default
    decreases j
  {
    if j > 0 {
      var child := Get(v.entries, keys[0]);
      assert keys[..j][1..] == keys[1..][..j - 1];
      GetStopsAtNonDict(child, keys[1..], j - 1, default);
    }
  }

  /** Once the walk meets an absent segment, or one holding None, before the
      last segment, `get` returns the default. */
  lemma {:induction false} GetStopsAtNone(v: Value, keys: seq<string>, j: nat, default: Value)
    requires j < |keys|
    requires GetPath(v, keys[..j], Null) == Null
    ensures GetPath(v, keys, default) == default
    decreases j
  {
    if j > 0 && v.Dict? {
      var child := Get(v.entries, keys[0]);
      if child != Null {
        assert keys[..j][1..] == keys[1..][..j - 1];
        GetStopsAtNone(child, keys[1..], j - 1, default);
      }
    }
  }

  /** When the walk reaches a dict at the parent of the last segment, `get`
      gives the default for an absent segment or a stored None, and otherwise
      the stored value unchanged, even a falsy one such as False. */
  lemma {:induction false} GetLastSegment(v: Value, keys: seq<string>, default: Value)
    requires |keys| >= 1
    requires GetPath(v, keys[..|keys| - 1], Null).Dict?
    ensures var x := Get(GetPath(v, keys[..|keys| - 1], Null).entries, keys[|keys| - 1]);
            GetPath(v, keys, default) == if x == Null then default else x
    decreases |keys|
  {
    if |keys| > 1 {
      var child := Get(v.entries, keys[0]);
      assert keys[..|keys| - 1][1..] == keys[1..][..|keys| - 2];
      GetLastSegment(child, keys[1..], default);
    }
  }

  // ---------------------------------------------------------------------
  // set

  /** `set` runs without a TypeError: the root is a dict, and every
      intermediate segment that is already present holds a dict. */
  predicate CanSet(v: Value, keys: seq<string>)
    decreases |keys|
  {
    v.Dict? &&
    (|keys| <= 1 ||
     match Lookup(v.entries, keys[0])
     case None => true
     case Some(child) => CanSet(child, keys[1..]))
  }

  /** The tree after `set`: missing intermediate segments hold new empty
      dicts, and the last segment holds `x`. */
  function SetPath(v: Value, keys: seq<string>, x: Value): Value
    requires |keys| >= 1 && CanSet(v, keys)
    decreases |keys|
  {
    if |keys| == 1 then Dict(Put(v.entries, keys[0], x))
    else
      var child := GetOr(v.entries, keys[0], Dict([]));
      Dict(Put(v.entries, keys[0], SetPath(child, keys[1..], x)))
  }

  /** After `set(k, x)`, `get(k)` is `x` (or the default when `x` is None). */
  lemma {:induction false} SetThenGet(v: Value, keys: seq<string>, x: Value, default: Value)
    requires |keys| >= 1 && CanSet(v, keys)
    ensures GetPath(SetPath(v, keys, x), keys, default) == if x == Null then default else x
    decreases |keys|
  {
    if |keys| > 1 {
      var child := GetOr(v.entries, keys[0], Dict([]));
      SetThenGet(child, keys[1..], x, default);
    }
  }

  /** After `set(k, x)`, every proper prefix of `k` leads to a dict. */
  lemma {:induction false} SetCreatesDicts(v: Value, keys: seq<string>, x: Value, j: nat)
    requires |keys| >= 1 && CanSet(v, keys)
    requires 1 <= j < |keys|
    ensures GetPath(SetPath(v, keys, x), keys[..j], Null).Dict?
    decreases |keys|
  {
    var child := GetOr(v.entries, keys[0], Dict([]));
    assert keys[..j][1..] == keys[1..][..j - 1];
    if j > 1 {
      SetCreatesDicts(child, keys[1..], x, j - 1);
    }
  }

  /** `set(k, x)` leaves `get(k')` unchanged for every path `k'` that is
      neither a prefix nor an extension of `k`. */
  lemma {:induction false} SetFrame(v: Value, keys: seq<string>, x: Value, other: seq<string>, default: Value)
    requires |keys| >= 1 && CanSet(v, keys)
    requires !(other <= keys) && !(keys <= other)
    ensures GetPath(SetPath(v, keys, x), other, default) == GetPath(v, other, default)
    decreases |keys|
  {
    if other[0] != keys[0] {
      SetAside(v, keys, x, other, default);
    } else {
      PrefixTail(other, keys);
      PrefixTail(keys, other);
      var child := GetOr(v.entries, keys[0], Dict([]));
      SetFrame(child, keys[1..], x, other[1..], default);
      SetBelowHead(v, keys, x, other, default);
    }
  }

  /** A path that shares its first segment with `keys` is unchanged by `set`
      when its tail is unchanged by the `set` of the tail below. */
  lemma SetBelowHead(v: Value, keys: seq<string>, x: Value, other: seq<string>, default: Value)
    requires |keys| > 1 && CanSet(v, keys)
    requires |other| > 1 && other[0] == keys[0]
    requires var child := GetOr(v.entries, keys[0], Dict([]));
             GetPath(SetPath(child, keys[1..], x), other[1..], default) == GetPath(child, other[1..], default)
    ensures GetPath(SetPath(v, keys, x), other, default) == GetPath(v, other, default)
  {
    var es, k := v.entries, keys[0];
    var child := GetOr(es, k, Dict([]));
    var s := SetPath(child, keys[1..], x);
    assert SetPath(v, keys, x) == Dict(Put(es, k, s));
    assert Get(Put(es, k, s), k) == s;
    if Lookup(es, k).None? {
      assert GetPath(child, other[1..], default) == default;
    }
  }

  /** A path that leaves `keys` at the first segment is not touched by `set`. */
  lemma SetAside(v: Value, keys: seq<string>, x: Value, other: seq<string>, default: Value)
    requires |keys| >= 1 && CanSet(v, keys)
    requires other != [] && other[0] != keys[0]
    ensures GetPath(SetPath(v, keys, x), other, default) == GetPath(v, other, default)
  {
    var es, k := v.entries, keys[0];
    var s := if |keys| == 1 then x else SetPath(GetOr(es, k, Dict([])), keys[1..], x);
    assert SetPath(v, keys, x) == Dict(Put(es, k, s));
    TopUnchanged(es, k, s, other, default);
  }

  lemma TopUnchanged(es: Entries, k: string, s: Value, other: seq<string>, default: Value)
    requires other != [] && other[0] != k
    ensures GetPath(Dict(Put(es, k, s)), other, default) == GetPath(Dict(es), other, default)
  {
    assert Get(Put(es, k, s), other[0]) == Get(es, other[0]);
  }

  /** Two paths that start alike are prefix-related exactly when their tails are. */
  lemma PrefixTail(p: seq<string>, q: seq<string>)
    requires p != [] && q != [] && p[0] == q[0]
    requires !(p <= q)
    ensures |p| > 1 && (|q| > 1 ==> !(p[1..] <= q[1..]))
  {
  }

  lemma {:induction false} PutTwice(es: Entries, k: string, a: Value, b: Value)
    ensures Put(Put(es, k, a), k, b) == Put(es, k, b)
  {
    if es != [] && es[0].0 != k {
      PutTwice(es[1..], k, a, b);
    }
  }

  lemma {:induction false} LookupWellFormed(es: Entries, k: string)
    requires WellFormed(Dict(es))
    ensures Lookup(es, k).Some? ==> WellFormed(Lookup(es, k).value)
  {
    if es != [] && es[0].0 != k {
      assert WellFormed(Dict(es[1..])) by {
        forall i | 0 <= i < |es[1..]| ensures WellFormed(es[1..][i].1) {
          assert es[1..][i] == es[i + 1];
        }
      }
      LookupWellFormed(es[1..], k);
    } else if es != [] {
      assert WellFormed(es[0].1);
    }
  }

  /** `set` keeps every dict of the tree free of duplicate keys. */
  lemma {:induction false} SetPathWellFormed(v: Value, keys: seq<string>, x: Value)
    requires |keys| >= 1 && CanSet(v, keys)
    requires WellFormed(v) && WellFormed(x)
    ensures WellFormed(SetPath(v, keys, x))
    decreases |keys|
  {
    if |keys| == 1 {
      PutWellFormed(v.entries, keys[0], x);
    } else {
      LookupWellFormed(v.entries, keys[0]);
      var child := GetOr(v.entries, keys[0], Dict([]));
      SetPathWellFormed(child, keys[1..], x);
      PutWellFormed(v.entries, keys[0], SetPath(child, keys[1..], x));
    }
  }

  /** The dicts passed on the way down, rebuilt bottom-up around `bottom`:
      what writing into the nested dicts in place amounts to. */
  function Rebuild(ancestors: seq<Entries>, keys: seq<string>, bottom: Value): Value
    requires |ancestors| == |keys|
    decreases |ancestors|
  {
    if ancestors == [] then bottom
    else
      var n := |ancestors| - 1;
      Rebuild(ancestors[..n], keys[..n], Dict(Put(ancestors[n], keys[n], bottom)))
  }

  /** Inserting an empty dict for a missing first segment does not change
      what `set` produces. */
  lemma GrowStep(es: Entries, keys: seq<string>, x: Value)
    requires |keys| >= 2 && !HasKey(es, keys[0])
    ensures CanSet(Dict(Put(es, keys[0], Dict([]))), keys)
    ensures SetPath(Dict(Put(es, keys[0], Dict([]))), keys, x) == SetPath(Dict(es), keys, x)
  {
    PutTwice(es, keys[0], Dict([]), SetPath(Dict([]), keys[1..], x));
  }

  /** The dict after `set` has made sure that segment `k` is present. */
  function Grown(node: Value, k: string): (r: Value)
    requires node.Dict?
    ensures r.Dict? && HasKey(r.entries, k)
  {
    if HasKey(node.entries, k) then node else Dict(Put(node.entries, k, Dict([])))
  }

  /** The dict reached by the walk down in `set` after `i` segments. */
  function Walk(root: Value, keys: seq<string>, i: nat): (node: Value)
    requires |keys| >= 1 && CanSet(root, keys) && i <= |keys| - 1
    ensures CanSet(node, keys[i..])
    decreases i
  {
    if i == 0 then
      assert keys[0..] == keys;
      root
    else
      var prev := Walk(root, keys, i - 1);
      ChildCanSet(prev, keys[i - 1..]);
      assert keys[i - 1..][1..] == keys[i..];
      Get(Grown(prev, keys[i - 1]).entries, keys[i - 1])
  }

  /** The dicts the walk down in `set` has passed after `i` segments. */
  function Trail(root: Value, keys: seq<string>, i: nat): (ancestors: seq<Entries>)
    requires |keys| >= 1 && CanSet(root, keys) && i <= |keys| - 1
    ensures |ancestors| == i
    decreases i
  {
    if i == 0 then [] else Trail(root, keys, i - 1) + [Grown(Walk(root, keys, i - 1), keys[i - 1]).entries]
  }

  /** The child the walk moves to still admits the rest of the path. */
  lemma ChildCanSet(node: Value, tail: seq<string>)
    requires |tail| >= 2 && CanSet(node, tail)
    ensures CanSet(Get(Grown(node, tail[0]).entries, tail[0]), tail[1..])
  {
    if !HasKey(node.entries, tail[0]) {
      GrowStep(node.entries, tail, Null);
    }
  }

  /** Rebuilding the trail around the `set` of the rest of the path below
      the dict reached gives the tree `set` produces. */
  lemma {:induction false} WalkRebuild(root: Value, keys: seq<string>, x: Value, i: nat)
    requires |keys| >= 1 && CanSet(root, keys) && i <= |keys| - 1
    ensures Rebuild(Trail(root, keys, i), keys[..i], SetPath(Walk(root, keys, i), keys[i..], x)) == SetPath(root, keys, x)
    decreases i
  {
    if i == 0 {
      assert keys[..0] == [] && keys[0..] == keys;
    } else {
      WalkRebuild(root, keys, x, i - 1);
      var prev, trail := Walk(root, keys, i - 1), Trail(root, keys, i - 1);
      var grown := Grown(prev, keys[i - 1]);
      assert Trail(root, keys, i) == trail + [grown.entries];
      assert Walk(root, keys, i) == Get(grown.entries, keys[i - 1]);
      StepDown(trail, keys, prev, x);
    }
  }

  /** One step of the walk down in `set`: the child reached after the
      segment is made present still admits the rest of the path, and the
      tree rebuilt around it is unchanged. */
  lemma StepDown(ancestors: seq<Entries>, keys: seq<string>, node: Value, x: Value)
    requires |ancestors| + 1 < |keys| && CanSet(node, keys[|ancestors|..])
    ensures CanSet(Get(Grown(node, keys[|ancestors|]).entries, keys[|ancestors|]), keys[|ancestors| + 1..])
    ensures Rebuild(ancestors + [Grown(node, keys[|ancestors|]).entries], keys[..|ancestors| + 1],
                    SetPath(Get(Grown(node, keys[|ancestors|]).entries, keys[|ancestors|]), keys[|ancestors| + 1..], x))
         == Rebuild(ancestors, keys[..|ancestors|], SetPath(node, keys[|ancestors|..], x))
  {
    var k := keys[|ancestors|];
    if !HasKey(node.entries, k) {
      assert keys[|ancestors|..][0] == k;
      GrowStep(node.entries, keys[|ancestors|..], x);
    }
    DescendStep(ancestors, keys, Grown(node, k), x);
  }

  /** One step down in `set`: recording the current dict and moving to its
      child leaves the rebuilt tree unchanged. */
  lemma DescendStep(ancestors: seq<Entries>, keys: seq<string>, node: Value, x: Value)
    requires |ancestors| + 1 < |keys|
    requires CanSet(node, keys[|ancestors|..]) && HasKey(node.entries, keys[|ancestors|])
    ensures CanSet(Get(node.entries, keys[|ancestors|]), keys[|ancestors| + 1..])
    ensures Rebuild(ancestors + [node.entries], keys[..|ancestors| + 1],
                    SetPath(Get(node.entries, keys[|ancestors|]), keys[|ancestors| + 1..], x))
         == Rebuild(ancestors, keys[..|ancestors|], SetPath(node, keys[|ancestors|..], x))
  {
    var i := |ancestors|;
    var tail := keys[i..];
    assert tail[0] == keys[i] && tail[1..] == keys[i + 1..];
    var grown := ancestors + [node.entries];
    assert grown[..i] == ancestors && grown[i] == node.entries;
    assert keys[..i + 1][..i] == keys[..i] && keys[..i + 1][i] == keys[i];
  }

  // ---------------------------------------------------------------------
  // Loading

  /** `_default_config`. It has `agent.auto_configure` but no
      `automation.auto_configure`. */
  function DefaultConfig(): Value {
    Dict([
      ("agent", DefaultAgent()),
      ("analysis", DefaultAnalysis()),
      ("automation", DefaultAutomation()),
      ("cloud", DefaultCloud())])
  }

  function DefaultAgent(): Value {
    Dict([
      ("name", Str("Bit-Block Sidekick")),
      ("version", Str("0.1.0")),
      ("domain_awareness", Bool(true)),
      ("auto_configure", Bool(true)),
      ("self_audit", Bool(true))])
  }

  function DefaultAnalysis(): Value {
    Dict([
      ("enabled", Bool(true)),
      ("security_checks", Bool(true)),
      ("optimization_checks", Bool(true)),
      ("compliance_checks", Bool(true))])
  }

  function DefaultAutomation(): Value {
    Dict([
      ("auto_fix", Bool(false)),
      ("require_approval", Bool(true)),
      ("dry_run", Bool(true))])
  }

  function DefaultCloud(): Value {
    Dict([
      ("providers", List([Str("aws"), Str("azure"), Str("gcp")])),
      ("regions", List([]))])
  }

  /** The default tree has no duplicate keys. */
  lemma DefaultConfigWellFormed()
    ensures WellFormed(DefaultConfig())
  {
    DefaultSectionsWellFormed();
    FourEntriesWellFormed(("agent", DefaultAgent()), ("analysis", DefaultAnalysis()),
                          ("automation", DefaultAutomation()), ("cloud", DefaultCloud()));
  }

  lemma FourEntriesWellFormed(a: (string, Value), b: (string, Value), c: (string, Value), d: (string, Value))
    requires a.0 != b.0 && a.0 != c.0 && a.0 != d.0 && b.0 != c.0 && b.0 != d.0 && c.0 != d.0
    requires WellFormed(a.1) && WellFormed(b.1) && WellFormed(c.1) && WellFormed(d.1)
    ensures WellFormed(Dict([a, b, c, d]))
  {
    var es := [a, b, c, d];
    assert [d] == [d] + [] && [c, d] == [c] + [d] && [b, c, d] == [b] + [c, d] && es == [a] + [b, c, d];
    LookupPast([], d, c.0);
    LookupPast([], d, b.0);
    LookupPast([], d, a.0);
    LookupPast([d], c, b.0);
    LookupPast([d], c, a.0);
    LookupPast([c, d], b, a.0);
    UniqueCons(d, []);
    UniqueCons(c, [d]);
    UniqueCons(b, [c, d]);
    UniqueCons(a, [b, c, d]);
    forall i | 0 <= i < |es| ensures WellFormed(es[i].1) {
      assert es[i] == if i == 0 then a else if i == 1 then b else if i == 2 then c else d;
    }
  }

  lemma UniqueCons(e: (string, Value), es: Entries)
    requires UniqueKeys(es) && Lookup(es, e.0) == None
    ensures UniqueKeys([e] + es)
  {
    assert ([e] + es)[1..] == es;
  }

  lemma LookupPast(es: Entries, e: (string, Value), k: string)
    requires e.0 != k
    ensures Lookup([e] + es, k) == Lookup(es, k)
  {
    assert ([e] + es)[1..] == es;
  }

  lemma DefaultSectionsWellFormed()
    ensures WellFormed(DefaultAgent()) && WellFormed(DefaultAnalysis())
    ensures WellFormed(DefaultAutomation()) && WellFormed(DefaultCloud())
  {
    AgentWellFormed();
    AnalysisWellFormed();
    AutomationWellFormed();
    CloudWellFormed();
  }

  lemma AgentWellFormed() ensures WellFormed(DefaultAgent()) {}
  lemma AnalysisWellFormed() ensures WellFormed(DefaultAnalysis()) {}
  lemma AutomationWellFormed() ensures WellFormed(DefaultAutomation()) {}
  lemma CloudWellFormed() ensures WellFormed(DefaultCloud()) {}

  /** `_load_config`: `loaded` is the parsed document when a configuration
      path was given and exists, None otherwise. A falsy document (an empty
      file, null, {}) becomes the empty dict. */
  function InitialConfig(loaded: Option<Value>): Value {
    match loaded
    case None => DefaultConfig()
    case Some(doc) => if Truthy(doc) then doc else Dict([])
  }

  /** The settings of the default tree: the agent identity and flags, all
      analysis checks on, automatic fixing off, dry run on, and no
      `automation.auto_configure` key. */
  lemma DefaultSettings()
    ensures Setting(DefaultConfig(), ["agent", "name"]) == Str("Bit-Block Sidekick")
    ensures Setting(DefaultConfig(), ["agent", "domain_awareness"]) == Bool(true)
    ensures Setting(DefaultConfig(), SecurityChecks) == Bool(true)
    ensures Setting(DefaultConfig(), OptimizationChecks) == Bool(true)
    ensures Setting(DefaultConfig(), ComplianceChecks) == Bool(true)
    ensures Setting(DefaultConfig(), ["automation", "auto_fix"]) == Bool(false)
    ensures Setting(DefaultConfig(), DryRun) == Bool(true)
    ensures Setting(DefaultConfig(), AutoConfigure) == Null
  {
    DefaultAgentSettings();
    DefaultAnalysisSettings();
    DefaultAutomationSettings();
  }

  lemma DefaultAgentSettings()
    ensures Setting(DefaultConfig(), ["agent", "name"]) == Str("Bit-Block Sidekick")
    ensures Setting(DefaultConfig(), ["agent", "domain_awareness"]) == Bool(true)
  {
  }

  lemma DefaultAnalysisSettings()
    ensures Setting(DefaultConfig(), SecurityChecks) == Bool(true)
    ensures Setting(DefaultConfig(), OptimizationChecks) == Bool(true)
    ensures Setting(DefaultConfig(), ComplianceChecks) == Bool(true)
  {
  }

  lemma DefaultAutomationSettings()
    ensures Setting(DefaultConfig(), ["automation", "auto_fix"]) == Bool(false)
    ensures Setting(DefaultConfig(), DryRun) == Bool(true)
    ensures Setting(DefaultConfig(), AutoConfigure) == Null
  {
  }

  /** A key whose first segment the default tree lacks reads as the default
      given, as `get("nonexistent.key", "default")` does. */
  lemma MissingKeyGivesDefault()
    ensures GetPath(DefaultConfig(), Split("nonexistent.key"), Str("default")) == Str("default")
  {
    SplitTwoKey("nonexistent", "key", "nonexistent.key");
    var keys := ["nonexistent", "key"];
    assert keys[..1] == ["nonexistent"];
    NoTopLevelKey("nonexistent");
    GetStopsAtNone(DefaultConfig(), keys, 1, Str("default"));
  }

  lemma NoTopLevelKey(k: string)
    requires k != "agent" && k != "analysis" && k != "automation" && k != "cloud"
    ensures Lookup(DefaultConfig().entries, k) == None
  {
    var a, b, c, d := ("agent", DefaultAgent()), ("analysis", DefaultAnalysis()),
                      ("automation", DefaultAutomation()), ("cloud", DefaultCloud());
    assert [d] == [d] + [] && [c, d] == [c] + [d] && [b, c, d] == [b] + [c, d];
    assert DefaultConfig().entries == [a] + [b, c, d];
    LookupPast([], d, k);
    LookupPast([d], c, k);
    LookupPast([c, d], b, k);
    LookupPast([b, c, d], a, k);
  }

  /** A document that parses to a falsy value loads as the empty dict, from
      which every `get` returns the default. */
  lemma FalsyDocumentLoadsEmpty(doc: Value, key: string, default: Value)
    requires !Truthy(doc)
    ensures InitialConfig(Some(doc)) == Dict([])
    ensures GetPath(InitialConfig(Some(doc)), Split(key), default) == default
  {
  }

  // ---------------------------------------------------------------------
  // The store

  class SidekickConfig {
    var config: Value

    /** The store has unique keys at every depth, so `Lookup`'s "first entry
        wins" agrees with a Python dict's lookup. */
    ghost predicate Valid()
      reads this
    {
      WellFormed(config)
    }

    /** `loaded` is the parsed configuration file, when one was given and exists. */
    constructor (loaded: Option<Value>)
      requires loaded.Some? ==> WellFormed(loaded.value)
      ensures Valid()
      ensures config == InitialConfig(loaded)
    {
      DefaultConfigWellFormed();
      config := InitialConfig(loaded);
    }

    /** `get(key, default)` */
    method Get(key: string, default: Value) returns (r: Value)
      ensures r == GetPath(config, Split(key), default)
    {
      var keys := Split(key);
      var value := config;
      var i := 0;
      while i < |keys|
        invariant 0 <= i <= |keys|
        invariant GetPath(value, keys[i..], default) == GetPath(config, keys, default)
      {
        assert keys[i..][1..] == keys[i + 1..];
        if value.Dict? {
          value := Values.Get(value.entries, keys[i]);
          if value == Null {
            return default;
          }
        } else {
          return default;
        }
        i := i + 1;
      }
      return value;
    }

    /** `set(key, value)`: walks down, inserting an empty dict for each
        missing intermediate segment, then assigns the last segment. The
        nested dicts are values here, so the dicts visited on the way down
        are rebuilt around the changed one. */
    method Set(key: string, value: Value)
      requires Valid() && WellFormed(value)
      requires CanSet(config, Split(key))
      modifies this
      ensures Valid()
      ensures config == SetPath(old(config), Split(key), value)
    {
      var keys := Split(key);
      SetPathWellFormed(config, keys, value);
      config := SetIn(config, keys, value);
    }
  }

  /** The body of `set` on the segments of the key: for every segment but
      the last, an empty dict is inserted when the segment is missing, and
      the walk moves to the child; then the last segment is assigned. The
      dicts passed on the way are kept, and the tree is rebuilt around the
      assigned one. */
  method SetIn(root: Value, keys: seq<string>, x: Value) returns (r: Value)
    requires |keys| >= 1 && CanSet(root, keys)
    ensures r == SetPath(root, keys, x)
  {
    var node := root;
    var ancestors: seq<Entries> := [];
    var i := 0;
    while i < |keys| - 1
      invariant 0 <= i <= |keys| - 1
      invariant node == Walk(root, keys, i) && ancestors == Trail(root, keys, i)
    {
      var k := keys[i];
      ghost var before := node;
      if !HasKey(node.entries, k) {
        node := Dict(Put(node.entries, k, Dict([])));
      }
      assert node == Grown(before, k);
      ancestors := ancestors + [node.entries];
      node := Values.Get(node.entries, k);
      i := i + 1;
    }
    WalkRebuild(root, keys, x, i);
    assert keys[i..] == [keys[i]];
    r := Rebuild(ancestors, keys[..i], Dict(Put(node.entries, keys[i], x)));
  }

  /** `if config.get(key):` — the truth value of a setting, for a key whose
      segments are `path`. */
  method ReadFlag(c: SidekickConfig, key: string, ghost path: seq<string>) returns (on: bool)
    requires Split(key) == path
    ensures on == Enabled(c.config, path)
  {
    var v := c.Get(key, Null);
    on := Truthy(v);
  }
}
