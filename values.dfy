/** The value type every component works on: the shape of a parsed YAML or
    JSON document and of the configuration tree.  A dictionary is a sequence
    of entries because a Python dict iterates in insertion order, and that
    order decides the order of extracted resources. */
module Values {

  datatype Option<+T> = None | Some(value: T)

  datatype Value =
    | Null
    | Bool(b: bool)
    | Int(n: int)
    | Str(s: string)
    | List(items: seq<Value>)
    | Dict(entries: seq<(string, Value)>)

  type Entries = seq<(string, Value)>

  /** Python truthiness: the falsy values are exactly None, False, 0, "",
      [] and {}. */
  predicate Truthy(v: Value)
    ensures !Truthy(v) <==> v in {Null, Bool(false), Int(0), Str(""), List([]), Dict([])}
  {
    match v
    case Null => false
    case Bool(b) => b
    case Int(n) => n != 0
    case Str(s) => s != ""
    case List(xs) => xs != []
    case Dict(es) => es != []
  }

  /** The keys of a dict, in iteration order. */
  function Keys(es: Entries): (ks: seq<string>)
    ensures |ks| == |es|
  {
    if es == [] then [] else [es[0].0] + Keys(es[1..])
  }

  /** The value stored under `k`, if any (the first entry wins). */
  function Lookup(es: Entries, k: string): Option<Value> {
    if es == [] then None
    else if es[0].0 == k then Some(es[0].1)
    else Lookup(es[1..], k)
  }

  /** `k in d` */
  predicate HasKey(es: Entries, k: string) {
    Lookup(es, k).Some?
  }

  /** `d.get(k, default)`: the stored value, even a stored None, or `default`
      when the key is absent. */
  function GetOr(es: Entries, k: string, default: Value): Value {
    match Lookup(es, k)
    case Some(v) => v
    case None => default
  }

  /** `d.get(k)`: the stored value, or None when the key is absent. */
  function Get(es: Entries, k: string): Value {
    GetOr(es, k, Null)
  }

  /** `d[k] = v`: an existing key keeps its position and gets the new value;
      a new key goes to the end. */
  function Put(es: Entries, k: string, v: Value): (r: Entries)
    ensures Lookup(r, k) == Some(v)
    ensures forall k' :: k' != k ==> Lookup(r, k') == Lookup(es, k')
    ensures Keys(r) == if HasKey(es, k) then Keys(es) else Keys(es) + [k]
  {
    if es == [] then [(k, v)]
    else if es[0].0 == k then [(k, v)] + es[1..]
    else [es[0]] + Put(es[1..], k, v)
  }

  /** A Python dict never holds the same key twice. */
  predicate UniqueKeys(es: Entries) {
    es == [] || (!HasKey(es[1..], es[0].0) && UniqueKeys(es[1..]))
  }

  /** Every dict inside `v`, at any depth, has unique keys. */
  predicate WellFormed(v: Value) {
    match v
    case List(xs) => forall i :: 0 <= i < |xs| ==> WellFormed(xs[i])
    case Dict(es) => UniqueKeys(es) && forall i :: 0 <= i < |es| ==> WellFormed(es[i].1)
    case _ => true
  }

  /** Assigning a well-formed value into a well-formed dict keeps it well formed. */
  lemma {:induction false} PutWellFormed(es: Entries, k: string, v: Value)
    requires WellFormed(Dict(es)) && WellFormed(v)
    ensures WellFormed(Dict(Put(es, k, v)))
  {
    if es != [] && es[0].0 != k {
      assert WellFormed(Dict(es[1..])) by {
        forall i | 0 <= i < |es[1..]| ensures WellFormed(es[1..][i].1) {
          assert es[1..][i] == es[i + 1];
        }
      }
      PutWellFormed(es[1..], k, v);
      var r := Put(es, k, v);
      assert r == [es[0]] + Put(es[1..], k, v);
      assert Lookup(Put(es[1..], k, v), es[0].0) == Lookup(es[1..], es[0].0);
      forall i | 0 <= i < |r| ensures WellFormed(r[i].1) {
        if i > 0 { assert r[i] == Put(es[1..], k, v)[i - 1]; }
      }
    } else if es != [] {
      var r := Put(es, k, v);
      forall i | 0 <= i < |r| ensures WellFormed(r[i].1) {
        if i > 0 { assert r[i] == es[i]; }
      }
    }
  }

  /** Where an element of a three-way concatenation comes from. */
  lemma ThreeParts<T>(a: seq<T>, b: seq<T>, c: seq<T>, j: int)
    requires 0 <= j < |a| + |b| + |c|
    ensures j < |a| ==> (a + b + c)[j] == a[j]
    ensures |a| <= j < |a| + |b| ==> (a + b + c)[j] == b[j - |a|]
    ensures |a| + |b| <= j ==> (a + b + c)[j] == c[j - |a| - |b|]
  {
  }
}
