/** The key/value trees the orchestrator reads and writes: parsed results
    descriptors, experiment descriptors, request resources and metadata
    blocks. A mapping keeps its entries in insertion order, as a Python
    dict does. The Python operators the source applies to them (`in`,
    subscripting by a string key, truthiness, dict update) are modelled
    here, including the ways they raise. */
module Values {
  import opened Base

  datatype Value =
    | Null
    | Bool(b: bool)
    | Int(i: int)
    | Str(s: string)
    | List(items: seq<Value>)
    | Dict(entries: seq<(string, Value)>)

  type Entries = seq<(string, Value)>

  predicate HasKey(es: Entries, k: string) {
    exists i :: 0 <= i < |es| && es[i].0 == k
  }

  /** The keys of a mapping have no duplicates, as in every Python dict. */
  predicate DistinctKeys(es: Entries) {
    forall i, j :: 0 <= i < j < |es| ==> es[i].0 != es[j].0
  }

  /** Position of the first entry under key `k`. */
  function KeyIndex(es: Entries, k: string): (i: nat)
    requires HasKey(es, k)
    ensures i < |es| && es[i].0 == k
    ensures forall j :: 0 <= j < i ==> es[j].0 != k
  {
    if es[0].0 == k then 0
    else
      assert exists i :: 1 <= i < |es| && es[i].0 == k;
      assert HasKey(es[1..], k) by {
        var i :| 1 <= i < |es| && es[i].0 == k;
        assert es[1..][i - 1].0 == k;
      }
      1 + KeyIndex(es[1..], k)
  }

  function Lookup(es: Entries, k: string): Option<Value> {
    if HasKey(es, k) then Some(es[KeyIndex(es, k)].1) else None
  }

  /** Python `k in s` for two strings: `k` occurs in `s` at some position. */
  predicate IsSubstring(k: string, s: string)
    decreases |s|
  {
    k <= s || (s != [] && IsSubstring(k, s[1..]))
  }

  /** Python `k in v` for a string `k`: key membership for a dict, element
      membership for a list, substring test for a string; anything else
      raises TypeError (None). */
  function Contains(v: Value, k: string): (r: Option<bool>)
    ensures v.Dict? ==> r == Some(HasKey(v.entries, k))
    ensures (v.Null? || v.Bool? || v.Int?) <==> r.None?
  {
    match v
    case Dict(es) => Some(HasKey(es, k))
    case List(items) => Some(Str(k) in items)
    case Str(s) => Some(IsSubstring(k, s))
    case _ => None
  }

  /** Python `v[k]` for a string `k`: KeyError when a dict lacks the key,
      TypeError for every other kind of value. */
  function Index(v: Value, k: string): (r: Result<Value>)
    ensures r.Ok? <==> v.Dict? && HasKey(v.entries, k)
    ensures r.Ok? ==> Lookup(v.entries, k) == Some(r.value)
    ensures v.Dict? && !HasKey(v.entries, k) ==> r == Err(KeyMissing(k))
  {
    if v.Dict? && HasKey(v.entries, k) then Ok(v.entries[KeyIndex(v.entries, k)].1)
    else if v.Dict? then Err(KeyMissing(k))
    else Err(TypeMismatch)
  }

  /** Python truthiness. */
  predicate Truthy(v: Value) {
    match v
    case Null => false
    case Bool(b) => b
    case Int(i) => i != 0
    case Str(s) => s != ""
    case List(items) => items != []
    case Dict(es) => es != []
  }

  /** Python `{**d, k: v}` (and `d[k] = v`): the first entry under `k` takes
      the new value in place, or the pair is appended when `k` is absent. */
  function Put(es: Entries, k: string, v: Value): (r: Entries)
    ensures |r| == if HasKey(es, k) then |es| else |es| + 1
    ensures forall i :: 0 <= i < |es| ==> r[i].0 == es[i].0
    ensures forall i :: 0 <= i < |es| && es[i].0 != k ==> r[i] == es[i]
  {
    if HasKey(es, k) then es[KeyIndex(es, k) := (k, v)] else es + [(k, v)]
  }

  /** After an update the key holds the new value, every other key keeps its
      value, and no key is invented or lost. */
  lemma PutLookup(es: Entries, k: string, v: Value)
    ensures Lookup(Put(es, k, v), k) == Some(v)
    ensures forall k' :: k' != k ==> Lookup(Put(es, k, v), k') == Lookup(es, k')
    ensures forall k' :: HasKey(Put(es, k, v), k') <==> HasKey(es, k') || k' == k
    ensures DistinctKeys(es) ==> DistinctKeys(Put(es, k, v))
  {
    var r := Put(es, k, v);
    forall k' ensures HasKey(r, k') <==> HasKey(es, k') || k' == k {
      if HasKey(es, k') {
        var i :| 0 <= i < |es| && es[i].0 == k';
        assert r[i].0 == k';
      }
      if k' == k {
        if HasKey(es, k) { assert r[KeyIndex(es, k)].0 == k; } else { assert r[|es|].0 == k; }
      }
      if HasKey(r, k') && k' != k {
        var i :| 0 <= i < |r| && r[i].0 == k';
        assert es[i].0 == k';
      }
    }
    if HasKey(es, k) {
      var j := KeyIndex(es, k);
      assert r[j] == (k, v);
      assert KeyIndex(r, k) == j;
    } else {
      assert HasKey(r, k) by { assert r[|es|].0 == k; }
      assert KeyIndex(r, k) == |es|;
    }
    forall k' | k' != k ensures Lookup(r, k') == Lookup(es, k') {
      if HasKey(es, k') {
        var j := KeyIndex(es, k');
        assert r[j] == es[j];
        assert KeyIndex(r, k') == j;
      }
    }
  }

  /** Appending an entry leaves every key already present as it was, and
      makes the new key visible only if it was absent. */
  lemma LookupSnoc(es: Entries, e: (string, Value), k: string)
    ensures HasKey(es + [e], k) <==> HasKey(es, k) || e.0 == k
    ensures Lookup(es + [e], k) == if HasKey(es, k) then Lookup(es, k) else if e.0 == k then Some(e.1) else None
  {
    var s := es + [e];
    if HasKey(es, k) {
      var i :| 0 <= i < |es| && es[i].0 == k;
      assert s[i].0 == k;
      var j, j' := KeyIndex(s, k), KeyIndex(es, k);
      assert s[j'].0 == k;
    } else if e.0 == k {
      assert s[|es|].0 == k;
      assert KeyIndex(s, k) == |es|;
    }
    if HasKey(s, k) && !HasKey(es, k) {
      var i :| 0 <= i < |s| && s[i].0 == k;
      assert i == |es|;
    }
  }

  /** ASCII lower-casing, the part of Python's `str.lower` that the model
      represents. */
  function LowerChar(c: char): char {
    if 'A' <= c <= 'Z' then (c as int + 32) as char else c
  }

  function Lower(s: string): (r: string)
    ensures |r| == |s|
    ensures forall i :: 0 <= i < |s| ==> r[i] == LowerChar(s[i])
  {
    seq(|s|, i requires 0 <= i < |s| => LowerChar(s[i]))
  }

  lemma LowerIdempotent(s: string)
    ensures Lower(Lower(s)) == Lower(s)
  {
  }
}
