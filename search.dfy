/** Breadth-first key lookup in a key/value tree (`find_dict_key`). The top
    level is compared case-insensitively by default; the recursion into
    nested mappings passes the already-lowered key with case-insensitivity
    switched off, so every deeper level is matched case-sensitively. */
module Search {
  import opened Base
  import opened Values

  /** Line 535: the key equals the search key, or, when case-insensitive,
      its lower-cased form does. */
  predicate KeyMatches(k: string, check: string, caseInsensitive: bool) {
    k == check || (caseInsensitive && Lower(k) == check)
  }

  function CheckKey(key: string, caseInsensitive: bool): string {
    if caseInsensitive then Lower(key) else key
  }

  /** Index of the first top-level entry whose key matches. */
  function FirstMatch(h: Entries, check: string, caseInsensitive: bool): (r: Option<nat>)
    ensures r.None? <==> forall i :: 0 <= i < |h| ==> !KeyMatches(h[i].0, check, caseInsensitive)
    ensures r.Some? ==> r.value < |h| && KeyMatches(h[r.value].0, check, caseInsensitive)
                        && forall j :: 0 <= j < r.value ==> !KeyMatches(h[j].0, check, caseInsensitive)
  {
    if h == [] then None
    else if KeyMatches(h[0].0, check, caseInsensitive) then Some(0)
    else match FirstMatch(h[1..], check, caseInsensitive)
      case None => None
      case Some(i) => Some(i + 1)
  }

  /** The mappings stored as values of `h`, in order: the `dict_checks`
      list the first pass collects. */
  function NestedDicts(h: Entries): (ds: seq<Entries>)
    ensures forall d :: d in ds ==> exists j :: 0 <= j < |h| && h[j].1 == Dict(d)
    ensures forall j :: 0 <= j < |h| && h[j].1.Dict? ==> h[j].1.entries in ds
    decreases |h|
  {
    if h == [] then []
    else
      var init := h[..|h| - 1];
      var ds := NestedDicts(init) + (if h[|h| - 1].1.Dict? then [h[|h| - 1].1.entries] else []);
      assert forall j :: 0 <= j < |init| ==> init[j] == h[j];
      ds
  }

  /** The reference search: the first top-level match, or else the first
      hit among the nested mappings, each searched case-sensitively with the
      already-lowered key. */
  function Find(haystack: Entries, key: string, caseInsensitive: bool): Option<(string, Value)>
    decreases Dict(haystack), 1
  {
    var check := CheckKey(key, caseInsensitive);
    match FirstMatch(haystack, check, caseInsensitive)
    case Some(i) => Some(haystack[i])
    case None => SearchDicts(haystack, NestedDicts(haystack), check)
  }

  predicate NestedIn(h: Entries, ds: seq<Entries>) {
    forall d :: d in ds ==> exists j :: 0 <= j < |h| && h[j].1 == Dict(d)
  }

  function SearchDicts(h: Entries, ds: seq<Entries>, check: string): Option<(string, Value)>
    requires NestedIn(h, ds)
    decreases Dict(h), 0, |ds|
  {
    if ds == [] then None
    else
      assert ds[0] in ds;
      match Find(ds[0], check, false)
      case Some(found) => Some(found)
      case None => SearchDicts(h, ds[1..], check)
  }

  /** `find_dict_key`: the first pass returns a matching top-level entry
      and collects the nested mappings; the second pass recurses into them
      in order. */
  method FindDictKey(haystack: Entries, key: string, caseInsensitive: bool)
    returns (found: Option<(string, Value)>)
    ensures found == Find(haystack, key, caseInsensitive)
    decreases Dict(haystack), 1
  {
    var check := if caseInsensitive then Lower(key) else key;
    var hit, dictChecks := ScanTopLevel(haystack, check, caseInsensitive);
    if hit.Some? {
      return Some(haystack[hit.value]);
    }
    found := SearchCollected(haystack, dictChecks, check);
  }

  /** The first pass over the top-level entries. */
  method ScanTopLevel(haystack: Entries, check: string, caseInsensitive: bool)
    returns (hit: Option<nat>, dictChecks: seq<Entries>)
    ensures hit == FirstMatch(haystack, check, caseInsensitive)
    ensures hit.None? ==> dictChecks == NestedDicts(haystack)
  {
    dictChecks := [];
    var i := 0;
    while i < |haystack|
      invariant 0 <= i <= |haystack|
      invariant forall j :: 0 <= j < i ==> !KeyMatches(haystack[j].0, check, caseInsensitive)
      invariant dictChecks == NestedDicts(haystack[..i])
    {
      assert haystack[..i + 1][..i] == haystack[..i];
      if haystack[i].0 == check || (caseInsensitive && Lower(haystack[i].0) == check) {
        FirstMatchIs(haystack, check, caseInsensitive, i);
        return Some(i), dictChecks;
      }
      if haystack[i].1.Dict? {
        dictChecks := dictChecks + [haystack[i].1.entries];
      }
      i := i + 1;
    }
    assert haystack[..i] == haystack;
    hit := None;
  }

  /** The second pass: the collected mappings in order, stopping at the
      first that yields a hit. */
  method SearchCollected(haystack: Entries, dictChecks: seq<Entries>, check: string)
    returns (found: Option<(string, Value)>)
    requires NestedIn(haystack, dictChecks)
    ensures found == SearchDicts(haystack, dictChecks, check)
    decreases Dict(haystack), 0
  {
    var k := 0;
    while k < |dictChecks|
      invariant 0 <= k <= |dictChecks|
      invariant NestedIn(haystack, dictChecks[k..])
      invariant SearchDicts(haystack, dictChecks, check) == SearchDicts(haystack, dictChecks[k..], check)
    {
      assert dictChecks[k..][0] == dictChecks[k] && dictChecks[k..][1..] == dictChecks[k + 1..];
      assert dictChecks[k] in dictChecks[k..];
      found := FindDictKey(dictChecks[k], check, false);
      if found.Some? {
        return;
      }
      k := k + 1;
    }
    found := None;
  }

  lemma FirstMatchIs(h: Entries, check: string, caseInsensitive: bool, i: nat)
    requires i < |h| && KeyMatches(h[i].0, check, caseInsensitive)
    requires forall j :: 0 <= j < i ==> !KeyMatches(h[j].0, check, caseInsensitive)
    ensures FirstMatch(h, check, caseInsensitive) == Some(i)
  {
  }

  /** The reference meaning of "something matches under these rules": a
      top-level key matches, or some nested mapping has a key equal to the
      (lowered) search key at any depth. */
  predicate AnyMatch(h: Entries, check: string, caseInsensitive: bool)
    decreases Dict(h)
  {
    (exists i :: 0 <= i < |h| && KeyMatches(h[i].0, check, caseInsensitive))
    || (exists i :: 0 <= i < |h| && h[i].1.Dict? && AnyMatch(h[i].1.entries, check, false))
  }

  /** The pair `e` is stored somewhere in the tree: at the top level or in
      some nested mapping. */
  predicate Occurs(h: Entries, e: (string, Value))
    decreases Dict(h)
  {
    e in h || exists i :: 0 <= i < |h| && h[i].1.Dict? && Occurs(h[i].1.entries, e)
  }

  /** Breadth-first short-circuit: when a top-level key matches, the first
      such entry is returned and no nested mapping is looked at. */
  lemma TopLevelFirst(h: Entries, key: string, caseInsensitive: bool, i: nat)
    requires i < |h| && KeyMatches(h[i].0, CheckKey(key, caseInsensitive), caseInsensitive)
    requires forall j :: 0 <= j < i ==> !KeyMatches(h[j].0, CheckKey(key, caseInsensitive), caseInsensitive)
    ensures Find(h, key, caseInsensitive) == Some(h[i])
  {
    FirstMatchIs(h, CheckKey(key, caseInsensitive), caseInsensitive, i);
  }

  /** Nothing is found exactly when nothing matches under the rules above. */
  lemma {:induction false} FindNoneIff(h: Entries, key: string, caseInsensitive: bool)
    ensures Find(h, key, caseInsensitive).None? <==> !AnyMatch(h, CheckKey(key, caseInsensitive), caseInsensitive)
    decreases Dict(h), 1
  {
    var check := CheckKey(key, caseInsensitive);
    if FirstMatch(h, check, caseInsensitive).None? {
      var ds := NestedDicts(h);
      SearchDictsNoneIff(h, ds, check);
      if exists j :: 0 <= j < |h| && h[j].1.Dict? && AnyMatch(h[j].1.entries, check, false) {
        var j :| 0 <= j < |h| && h[j].1.Dict? && AnyMatch(h[j].1.entries, check, false);
        assert h[j].1.entries in ds;
      }
      if !(forall d :: d in ds ==> !AnyMatch(d, check, false)) {
        var d :| d in ds && AnyMatch(d, check, false);
        var j :| 0 <= j < |h| && h[j].1 == Dict(d);
        assert h[j].1.Dict? && AnyMatch(h[j].1.entries, check, false);
      }
    } else {
      var i := FirstMatch(h, check, caseInsensitive).value;
      assert KeyMatches(h[i].0, check, caseInsensitive);
    }
  }

  lemma {:induction false} SearchDictsNoneIff(h: Entries, ds: seq<Entries>, check: string)
    requires NestedIn(h, ds)
    ensures SearchDicts(h, ds, check).None? <==> forall d :: d in ds ==> !AnyMatch(d, check, false)
    decreases Dict(h), 0, |ds|
  {
    if ds != [] {
      assert ds[0] in ds;
      assert NestedIn(h, ds[1..]) by {
        forall d | d in ds[1..] ensures d in ds { }
      }
      SearchDictsNoneIff(h, ds[1..], check);
      FindNoneIff(ds[0], check, false);
      assert CheckKey(check, false) == check;
      assert forall d :: d in ds <==> d == ds[0] || d in ds[1..] by {
        assert ds == [ds[0]] + ds[1..];
      }
    }
  }

  /** What is returned is stored in the tree, under a key that matched: a
      top-level key under the top-level rule, a deeper key exactly equal
      to the lowered search key. */
  lemma {:induction false} FindSound(h: Entries, key: string, caseInsensitive: bool)
    requires Find(h, key, caseInsensitive).Some?
    ensures var e := Find(h, key, caseInsensitive).value;
            && Occurs(h, e)
            && ((e in h && KeyMatches(e.0, CheckKey(key, caseInsensitive), caseInsensitive))
                || e.0 == CheckKey(key, caseInsensitive))
    decreases Dict(h), 1
  {
    var check := CheckKey(key, caseInsensitive);
    if FirstMatch(h, check, caseInsensitive).None? {
      var ds := NestedDicts(h);
      SearchDictsSound(h, ds, check);
      var e := Find(h, key, caseInsensitive).value;
      var d :| d in ds && Occurs(d, e);
      var j :| 0 <= j < |h| && h[j].1 == Dict(d);
      assert h[j].1.Dict? && Occurs(h[j].1.entries, e);
    }
  }

  lemma {:induction false} SearchDictsSound(h: Entries, ds: seq<Entries>, check: string)
    requires NestedIn(h, ds)
    requires SearchDicts(h, ds, check).Some?
    ensures var e := SearchDicts(h, ds, check).value;
            e.0 == check && exists d :: d in ds && Occurs(d, e)
    decreases Dict(h), 0, |ds|
  {
    var e := SearchDicts(h, ds, check).value;
    assert ds[0] in ds;
    if Find(ds[0], check, false).Some? {
      FindSound(ds[0], check, false);
      assert CheckKey(check, false) == check;
      assert KeyMatches(e.0, check, false) ==> e.0 == check;
    } else {
      assert NestedIn(h, ds[1..]) by {
        forall d | d in ds[1..] ensures d in ds { }
      }
      SearchDictsSound(h, ds[1..], check);
      var d :| d in ds[1..] && Occurs(d, e);
      assert d in ds;
    }
  }

  /** The method and the reference agree on the case-sensitivity switch at
      depth: a differently-cased key is found at the top level but not one
      level down. */
  lemma DeeperLevelsAreCaseSensitive()
    ensures Find([("Password", Str("p"))], "password", true) == Some(("Password", Str("p")))
    ensures Find([("clowder", Dict([("Password", Str("p"))]))], "password", true) == None
  {
    assert Lower("Password") == "password";
    assert Lower("password") == "password";
    assert Lower("clowder") == "clowder";
    var inner: Entries := [("Password", Str("p"))];
    assert "Password" != "password" by { assert "Password"[0] != "password"[0]; }
    assert FirstMatch(inner, "password", false) == None;
    assert NestedDicts(inner) == [];
    var outer: Entries := [("clowder", Dict(inner))];
    assert "clowder" != "password" by { assert "clowder"[0] != "password"[0]; }
    assert FirstMatch(outer, "password", true) == None;
    assert NestedDicts(outer) == [inner] by {
      assert outer[..0] == [];
    }
    assert Find(inner, "password", false) == None;
  }
}
