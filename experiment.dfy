/** What the orchestrator takes from a step's experiment descriptor after
    the engine has run: every top-level entry rendered as a string (the
    fields a dataset-name template can use), and the Clowder credentials,
    of which only an encrypted form of the password may reach the step's
    metadata (`secure_string` and the reconciliation in `process_message`). */
module Experiment {
  import opened Base
  import opened Values
  import opened Paths
  import opened Environment
  import opened Search

  function DigitChar(d: nat): char
    requires d < 10
  {
    "0123456789"[d]
  }

  /** `str(n)` for a natural number: its decimal digits, most significant
      first, without leading zeros. */
  function Natural(n: nat): (r: string)
    ensures Digits(r)
    ensures r[0] == '0' ==> n == 0
    decreases n
  {
    if n < 10 then [DigitChar(n)]
    else
      var init := Natural(n / 10);
      var r := init + [DigitChar(n % 10)];
      assert r[0] == init[0];
      r
  }

  /** `str(v)`: strings as they are, `None`, `True` and `False` by name,
      integers in decimal; lists and mappings by their Python `repr`, which
      is passed in as `render`. */
  function Text(v: Value, render: Value -> string): (r: string)
    ensures v.Str? ==> r == v.s
    ensures v.Int? && v.i >= 0 ==> Digits(r)
    ensures v.Int? && v.i < 0 ==> |r| > 0 && r[0] == '-' && Digits(r[1..])
  {
    match v
    case Null => "None"
    case Bool(b) => if b then "True" else "False"
    case Int(i) => if i < 0 then "-" + Natural(-i) else Natural(i)
    case Str(s) => s
    case _ => render(v)
  }

  /** The experiment information: each key mapped to its value's text; a
      repeated key keeps the last value, as repeated assignment does. */
  function InfoOf(es: Entries, render: Value -> string): map<string, string>
    decreases |es|
  {
    if es == [] then map[]
    else InfoOf(es[..|es| - 1], render)[es[|es| - 1].0 := Text(es[|es| - 1].1, render)]
  }

  /** The information has exactly the descriptor's keys, each mapped to the
      text of the value the descriptor holds under it. */
  lemma {:induction false} InfoOfSpec(es: Entries, render: Value -> string)
    requires DistinctKeys(es)
    ensures forall k :: k in InfoOf(es, render) <==> HasKey(es, k)
    ensures forall k :: HasKey(es, k) ==> InfoOf(es, render)[k] == Text(Lookup(es, k).value, render)
  {
    if es != [] {
      var init, last := es[..|es| - 1], es[|es| - 1];
      assert es == init + [last];
      assert DistinctKeys(init);
      InfoOfSpec(init, render);
      assert !HasKey(init, last.0);
      forall k ensures (k in InfoOf(es, render) <==> HasKey(es, k))
                    && (HasKey(es, k) ==> InfoOf(es, render)[k] == Text(Lookup(es, k).value, render))
      {
        LookupSnoc(init, last, k);
      }
    }
  }

  /** The loop `experiment_info[key] = str(value)` over the descriptor's
      items. */
  method BuildInfo(es: Entries, render: Value -> string) returns (info: map<string, string>)
    ensures info == InfoOf(es, render)
  {
    info := map[];
    var i := 0;
    while i < |es|
      invariant 0 <= i <= |es|
      invariant info == InfoOf(es[..i], render)
    {
      assert es[..i + 1][..i] == es[..i];
      info := info[es[i].0 := Text(es[i].1, render)];
      i := i + 1;
    }
    assert es[..i] == es;
  }

  /** `secure_string`: the encrypted text behind a marker, or a fixed
      placeholder when encryption is not possible. `encrypt` stands for
      `encrypt_pipeline_string`. */
  function SecureString(plain: Value, encrypt: Value -> Option<string>): (r: string)
    ensures StartsWith(r, "secured:") <==> encrypt(plain).Some?
    ensures encrypt(plain).Some? ==> r[|"secured:"|..] == encrypt(plain).value
    ensures encrypt(plain).None? ==> r == "<removed>"
  {
    match encrypt(plain)
    case Some(e) => "secured:" + e
    case None =>
      assert "<removed>"[0] != "secured:"[0];
      "<removed>"
  }

  /** The credentials found under a `clowder` key and the value the step's
      metadata ends up holding under `password`: each of `space`,
      `username`, `password` that is present overwrites the field in that
      order, the password only in secured form. */
  datatype Credentials = Credentials(clowder: map<string, Value>, passwordField: Option<Value>)

  function Reconcile(es: Entries, encrypt: Value -> Option<string>): Result<Credentials> {
    match Find(es, "clowder", true)
    case None => Ok(Credentials(map[], None))
    case Some(found) =>
      if !found.1.Dict? then Err(TypeMismatch)
      else Ok(CredentialsOf(found.1.entries, encrypt))
  }

  function CredentialsOf(block: Entries, encrypt: Value -> Option<string>): Credentials {
    CredentialsFrom(Find(block, "space", true), Find(block, "username", true), Find(block, "password", true), encrypt)
  }

  /** The record built from what the three look-ups found. */
  function CredentialsFrom(space: Option<(string, Value)>, user: Option<(string, Value)>,
                           pass: Option<(string, Value)>, encrypt: Value -> Option<string>): Credentials
  {
    var info := (if space.Some? then map["space" := space.value.1] else map[])
              + (if user.Some? then map["username" := user.value.1] else map[])
              + (if pass.Some? then map["password" := pass.value.1] else map[]);
    var field := if pass.Some? then Some(Str(SecureString(pass.value.1, encrypt)))
                 else if user.Some? then Some(user.value.1)
                 else if space.Some? then Some(space.value.1)
                 else None;
    Credentials(info, field)
  }

  /** The reconciliation as the source performs it: find the block, look
      the three keys up in it, then assign them one after the other. */
  method ReconcileCredentials(es: Entries, encrypt: Value -> Option<string>) returns (r: Result<Credentials>)
    ensures r == Reconcile(es, encrypt)
  {
    var clowder := FindDictKey(es, "clowder", true);
    if clowder.None? {
      return Ok(Credentials(map[], None));
    }
    if !clowder.value.1.Dict? {
      return Err(TypeMismatch);
    }
    var block := clowder.value.1.entries;
    var space := FindDictKey(block, "space", true);
    var user := FindDictKey(block, "username", true);
    var pass := FindDictKey(block, "password", true);
    var c := AssignCredentials(space, user, pass, encrypt);
    r := Ok(c);
  }

  method AssignCredentials(space: Option<(string, Value)>, user: Option<(string, Value)>,
                           pass: Option<(string, Value)>, encrypt: Value -> Option<string>)
    returns (c: Credentials)
    ensures c == CredentialsFrom(space, user, pass, encrypt)
  {
    var info: map<string, Value> := map[];
    var field: Option<Value> := None;
    if space.Some? {
      info := info["space" := space.value.1];
      field := Some(space.value.1);
    }
    if user.Some? {
      info := info["username" := user.value.1];
      field := Some(user.value.1);
    }
    if pass.Some? {
      info := info["password" := pass.value.1];
      field := Some(Str(SecureString(info["password"], encrypt)));
    }
    c := Credentials(info, field);
  }

  /** The plain password never reaches the step's metadata: whenever one is
      found, the field holds either its encrypted form or the placeholder. */
  lemma PasswordOnlySecured(es: Entries, encrypt: Value -> Option<string>)
    requires Reconcile(es, encrypt).Ok?
    requires "password" in Reconcile(es, encrypt).value.clowder
    ensures var c := Reconcile(es, encrypt).value;
            && c.passwordField.Some? && c.passwordField.value.Str?
            && var s := c.passwordField.value.s;
               (StartsWith(s, "secured:") && s[|"secured:"|..] == encrypt(c.clowder["password"]).value)
               || s == "<removed>"
  {
  }

  /** Without a password, the field falls back to the username, then to the
      space; the credentials record holds what was found and nothing else. */
  lemma FieldFallback(es: Entries, encrypt: Value -> Option<string>)
    requires Reconcile(es, encrypt).Ok?
    ensures var c := Reconcile(es, encrypt).value;
            && (forall k :: k in c.clowder ==> k in {"space", "username", "password"})
            && ("password" !in c.clowder && "username" in c.clowder ==> c.passwordField == Some(c.clowder["username"]))
            && (("password" !in c.clowder && "username" !in c.clowder && "space" in c.clowder)
                ==> c.passwordField == Some(c.clowder["space"]))
            && (c.clowder == map[] <==> c.passwordField.None?)
  {
    var c := Reconcile(es, encrypt).value;
    if Find(es, "clowder", true).Some? {
      var block := Find(es, "clowder", true).value.1.entries;
      if Find(block, "space", true).Some? { assert "space" in c.clowder; }
      if Find(block, "username", true).Some? { assert "username" in c.clowder; }
      if Find(block, "password", true).Some? { assert "password" in c.clowder; }
    }
  }

  /** A descriptor with no `clowder` key at any depth yields no credentials
      and leaves the field alone. */
  lemma NoClowderNoCredentials(es: Entries, encrypt: Value -> Option<string>)
    requires !AnyMatch(es, CheckKey("clowder", true), true)
    ensures Reconcile(es, encrypt) == Ok(Credentials(map[], None))
  {
    FindNoneIff(es, "clowder", true);
  }

  /** Everything the descriptor contributes: the information table and the
      credentials. An empty or false descriptor contributes nothing; any
      other descriptor that is not a mapping makes `.items()` raise. */
  datatype Settings = Settings(info: map<string, string>, credentials: Credentials)

  function ExperimentSettings(md: Value, render: Value -> string, encrypt: Value -> Option<string>): Result<Settings> {
    if !Truthy(md) then Ok(Settings(map[], Credentials(map[], None)))
    else if !md.Dict? then Err(TypeMismatch)
    else match Reconcile(md.entries, encrypt)
      case Err(e) => Err(e)
      case Ok(c) => Ok(Settings(InfoOf(md.entries, render), c))
  }

  method ReadExperiment(md: Value, render: Value -> string, encrypt: Value -> Option<string>)
    returns (r: Result<Settings>)
    ensures r == ExperimentSettings(md, render, encrypt)
  {
    if !Truthy(md) {
      return Ok(Settings(map[], Credentials(map[], None)));
    }
    if !md.Dict? {
      return Err(TypeMismatch);
    }
    var info := BuildInfo(md.entries, render);
    var credentials := ReconcileCredentials(md.entries, encrypt);
    if credentials.Err? {
      return Err(credentials.error);
    }
    r := Ok(Settings(info, credentials.value));
  }
}
