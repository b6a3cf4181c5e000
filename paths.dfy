/** The POSIX path and string operations the orchestrator uses to derive
    folder names: `os.path.join`, `os.path.basename`, `os.path.splitext`,
    `str.startswith`/`endswith`, and `lstrip`/`rstrip` with a character set. */
module Paths {

  predicate StartsWith(s: string, prefix: string) {
    prefix <= s
  }

  predicate EndsWith(s: string, suffix: string) {
    |suffix| <= |s| && s[|s| - |suffix|..] == suffix
  }

  /** The two separators `lstrip('/\\')` and `rstrip('/\\')` remove. */
  const Seps: set<char> := {'/', '\\'}

  /** Index of the last occurrence of `c` in `s`, or -1 (Python `rfind`). */
  function LastIndex(s: string, c: char): (r: int)
    ensures -1 <= r < |s|
    ensures r >= 0 ==> s[r] == c
    ensures forall j :: r < j < |s| ==> s[j] != c
  {
    if s == [] then -1
    else if s[|s| - 1] == c then |s| - 1
    else LastIndex(s[..|s| - 1], c)
  }

  /** `os.path.join(a, b)` on POSIX: an absolute `b` discards `a`; otherwise
      one `/` is inserted unless `a` is empty or already ends in one. */
  function Join(a: string, b: string): string {
    if StartsWith(b, "/") then b
    else if a == "" || EndsWith(a, "/") then a + b
    else a + "/" + b
  }

  /** `os.path.basename`: everything after the last `/`. */
  function Basename(p: string): (r: string)
    ensures '/' !in r
    ensures EndsWith(p, r)
  {
    p[LastIndex(p, '/') + 1..]
  }

  /** `os.path.splitext` on POSIX: the extension starts at the last `.` of
      the last path component, unless everything before that `.` in the
      component is made of dots (so `.bashrc` has no extension). */
  function SplitExt(p: string): (r: (string, string))
    ensures r.0 + r.1 == p
    ensures r.1 == "" || (r.1[0] == '.' && '/' !in r.1)
  {
    var sep := LastIndex(p, '/');
    var dot := LastIndex(p, '.');
    if dot > sep && exists i :: sep + 1 <= i < dot && p[i] != '.' then
      var ext := p[dot..];
      assert p[..dot] + ext == p;
      assert forall j :: 0 <= j < |ext| ==> ext[j] == p[dot + j];
      (p[..dot], ext)
    else (p, "")
  }

  /** `s.lstrip(chars)`: the longest suffix of `s` that does not start with
      one of `chars`. */
  function LStrip(s: string, chars: set<char>): (r: string)
    ensures |r| <= |s| && r == s[|s| - |r|..]
    ensures r != [] ==> r[0] !in chars
    ensures forall i :: 0 <= i < |s| - |r| ==> s[i] in chars
  {
    if s != [] && s[0] in chars then LStrip(s[1..], chars) else s
  }

  /** `s.rstrip(chars)`: the longest prefix of `s` that does not end with
      one of `chars`. */
  function RStrip(s: string, chars: set<char>): (r: string)
    ensures |r| <= |s| && r == s[..|r|]
    ensures r != [] ==> r[|r| - 1] !in chars
    ensures forall i :: |r| <= i < |s| ==> s[i] in chars
  {
    if s != [] && s[|s| - 1] in chars then RStrip(s[..|s| - 1], chars) else s
  }

  /** Whether a non-empty string is absolute is decided by its first
      character. */
  lemma StartsWithSlash(s: string)
    requires s != ""
    ensures StartsWith(s, "/") <==> s[0] == '/'
  {
    if s[0] == '/' { assert s[..1] == "/"; }
  }

  /** Joining a relative component keeps the base as a prefix and the
      component as a suffix: the result lies inside the base folder. */
  lemma JoinRelative(a: string, b: string)
    requires !StartsWith(b, "/")
    ensures StartsWith(Join(a, b), a)
    ensures EndsWith(Join(a, b), b)
    ensures Join(a, b) == if a == "" || EndsWith(a, "/") then a + b else a + "/" + b
  {
    var j := Join(a, b);
    assert j[|j| - |b|..] == b;
  }

  /** A base ending in `/` is extended by plain concatenation. */
  lemma JoinOntoFolder(a: string, b: string)
    requires a != "" && a[|a| - 1] == '/'
    requires b == "" || b[0] != '/'
    ensures Join(a, b) == a + b
  {
    assert a[|a| - 1..] == "/";
    if b != "" { StartsWithSlash(b); }
  }

  /** Stripping leading separators never eats into a suffix that does not
      itself start with one. */
  lemma LStripKeepsSuffix(s: string, t: string, chars: set<char>)
    requires EndsWith(s, t) && t != "" && t[0] !in chars
    ensures EndsWith(LStrip(s, chars), t)
  {
    var l := LStrip(s, chars);
    var k := |s| - |t|;
    assert s[k] == t[0];
    assert |l| >= |t|;
    assert l == s[|s| - |l|..];
    assert l[|l| - |t|..] == s[k..];
  }

  lemma RStripNothing(s: string, chars: set<char>)
    requires s != "" && s[|s| - 1] !in chars
    ensures RStrip(s, chars) == s
  {
  }

  lemma EndsWithAppend(s: string, t: string, u: string)
    requires EndsWith(s, t)
    ensures EndsWith(s + u, t + u)
  {
    var su := s + u;
    assert su[|su| - |t + u|..] == s[|s| - |t|..] + u;
  }

  lemma {:induction false} LastIndexAbsent(s: string, c: char)
    requires c !in s
    ensures LastIndex(s, c) == -1
  {
    if s != [] {
      assert s[..|s| - 1] + [s[|s| - 1]] == s;
      LastIndexAbsent(s[..|s| - 1], c);
    }
  }

  lemma {:induction false} LastIndexSplit(p: string, c: char, q: string)
    requires c !in q
    ensures LastIndex(p + [c] + q, c) == |p|
  {
    var s := p + [c] + q;
    if q != [] {
      assert s[..|s| - 1] == p + [c] + q[..|q| - 1];
      assert s[|s| - 1] == q[|q| - 1];
      LastIndexSplit(p, c, q[..|q| - 1]);
    }
  }

  /** A file name `root.ext` whose extension has no dot and whose root does
      not start with one splits at that dot; with no `/` it is its own base
      name. */
  lemma SplitPlainFileName(root: string, ext: string)
    requires root != "" && root[0] != '.' && '/' !in root
    requires '.' !in ext && '/' !in ext
    ensures Basename(root + "." + ext) == root + "." + ext
    ensures SplitExt(root + "." + ext) == (root, "." + ext)
  {
    var p := root + ['.'] + ext;
    assert p == root + "." + ext;
    BasenameOfPlainName(p);
    LastIndexSplit(root, '.', ext);
    assert LastIndex(p, '/') == -1 && LastIndex(p, '.') == |root|;
    assert p[0] != '.';
    assert p[..|root|] == root;
    assert p[|root|..] == "." + ext;
  }

  lemma BasenameOfPlainName(p: string)
    requires '/' !in p
    ensures Basename(p) == p
  {
    LastIndexAbsent(p, '/');
  }
}
