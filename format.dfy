/** Python `str.format(**fields)` restricted to what dataset-name templates
    use: literal text, the escapes `{{` and `}}`, and replacement fields
    that name a keyword argument. */
module Format {
  import opened Base

  /** Index of the first `c` in `s`, if any. */
  function IndexOf(s: string, c: char): (r: Option<nat>)
    ensures r.None? <==> c !in s
    ensures r.Some? ==> r.value < |s| && s[r.value] == c && c !in s[..r.value]
  {
    if s == [] then None
    else if s[0] == c then Some(0)
    else match IndexOf(s[1..], c)
      case None => None
      case Some(i) =>
        assert s[..i + 1] == [s[0]] + s[1..][..i];
        Some(i + 1)
  }

  /** A field name the model resolves by keyword: non-empty, not an
      automatic or positional index, and without a conversion, a format
      specification, attribute access or indexing. */
  predicate IsKeywordName(name: string) {
    && name != []
    && (exists i :: 0 <= i < |name| && !('0' <= name[i] <= '9'))
    && forall i :: 0 <= i < |name| ==> name[i] !in {'{', ':', '!', '.', '['}
  }

  /** A lower-case word is a keyword name. */
  lemma LowerWordIsKeyword(s: string)
    requires s != [] && forall i :: 0 <= i < |s| ==> 'a' <= s[i] <= 'z'
    ensures IsKeywordName(s) && '}' !in s
  {
    assert !('0' <= s[0] <= '9');
  }

  function Prepend(s: string, r: Result<string>): (q: Result<string>)
    ensures q.Ok? <==> r.Ok?
    ensures q.Ok? ==> q.value == s + r.value
    ensures q.Err? ==> q.error == r.error
  {
    match r
    case Ok(rest) => Ok(s + rest)
    case Err(e) => Err(e)
  }

  /** `template.format(**fields)`. A single `}`, an unclosed `{`, and a
      field that is not a keyword name raise ValueError or IndexError
      (FormatError); a keyword missing from `fields` raises KeyError. */
  function FormatWith(template: string, fields: map<string, string>): Result<string>
    decreases |template|
  {
    if template == [] then Ok("")
    else if template[0] == '{' then
      if |template| >= 2 && template[1] == '{' then Prepend("{", FormatWith(template[2..], fields))
      else match IndexOf(template[1..], '}')
        case None => Err(FormatError)
        case Some(j) =>
          var name := template[1..j + 1];
          if !IsKeywordName(name) then Err(FormatError)
          else if name !in fields then Err(KeyMissing(name))
          else Prepend(fields[name], FormatWith(template[j + 2..], fields))
    else if template[0] == '}' then
      if |template| >= 2 && template[1] == '}' then Prepend("}", FormatWith(template[2..], fields))
      else Err(FormatError)
    else Prepend([template[0]], FormatWith(template[1..], fields))
  }

  /** Text without braces comes out unchanged. */
  lemma {:induction false} NoFieldsIdentity(s: string, fields: map<string, string>)
    requires '{' !in s && '}' !in s
    ensures FormatWith(s, fields) == Ok(s)
    decreases |s|
  {
    if s != [] {
      NoFieldsIdentity(s[1..], fields);
      assert s == [s[0]] + s[1..];
    }
  }

  /** Doubling every brace makes a literal: the inverse of formatting. */
  function Escape(s: string): (r: string)
    ensures |r| >= |s|
    decreases |s|
  {
    if s == [] then ""
    else (if s[0] in {'{', '}'} then [s[0], s[0]] else [s[0]]) + Escape(s[1..])
  }

  lemma {:induction false} EscapeRoundTrip(s: string, fields: map<string, string>)
    ensures FormatWith(Escape(s), fields) == Ok(s)
    decreases |s|
  {
    if s != [] {
      EscapeRoundTrip(s[1..], fields);
      var t := Escape(s);
      if s[0] in {'{', '}'} {
        assert t[0] == s[0] && t[1] == s[0] && t[2..] == Escape(s[1..]);
      } else {
        assert t[0] == s[0] && t[1..] == Escape(s[1..]);
      }
      assert s == [s[0]] + s[1..];
    }
  }

  /** Extra keyword arguments never change the outcome: formatting only
      reads the fields the template names. */
  lemma {:induction false} FormatMonotone(template: string, fields: map<string, string>, more: map<string, string>)
    requires forall k :: k in fields ==> k in more && more[k] == fields[k]
    requires FormatWith(template, fields).Ok?
    ensures FormatWith(template, more) == FormatWith(template, fields)
    decreases |template|
  {
    if template != [] {
      if template[0] == '{' && |template| >= 2 && template[1] == '{' {
        FormatMonotone(template[2..], fields, more);
      } else if template[0] == '{' {
        var j := IndexOf(template[1..], '}').value;
        FormatMonotone(template[j + 2..], fields, more);
      } else if template[0] == '}' {
        FormatMonotone(template[2..], fields, more);
      } else {
        FormatMonotone(template[1..], fields, more);
      }
    }
  }

  /** A missing keyword is reported by its own name, and it really is
      missing. */
  lemma {:induction false} MissingKeyIsAbsent(template: string, fields: map<string, string>)
    requires FormatWith(template, fields).Err? && FormatWith(template, fields).error.KeyMissing?
    ensures FormatWith(template, fields).error.key !in fields
    decreases |template|
  {
    if template[0] == '{' && |template| >= 2 && template[1] == '{' {
      MissingKeyIsAbsent(template[2..], fields);
    } else if template[0] == '{' {
      var j := IndexOf(template[1..], '}').value;
      var name := template[1..j + 1];
      if name in fields {
        MissingKeyIsAbsent(template[j + 2..], fields);
      }
    } else if template[0] == '}' {
      MissingKeyIsAbsent(template[2..], fields);
    } else {
      MissingKeyIsAbsent(template[1..], fields);
    }
  }

  /** One field followed by literal text. */
  lemma FieldThenText(name: string, rest: string, fields: map<string, string>)
    requires IsKeywordName(name) && '}' !in name
    ensures FormatWith("{" + name + "}" + rest, fields)
            == if name in fields then Prepend(fields[name], FormatWith(rest, fields)) else Err(KeyMissing(name))
  {
    var t := "{" + name + "}" + rest;
    assert t[0] == '{';
    assert IsKeywordName(name) ==> name[0] != '{';
    assert t[1..] == name + "}" + rest;
    assert (name + "}" + rest)[..|name|] == name;
    assert IndexOf(name + "}" + rest, '}') == Some(|name|) by {
      IndexOfAfter(name, rest, '}');
    }
    assert t[1..|name| + 1] == name;
    assert t[|name| + 2..] == rest;
  }

  lemma {:induction false} IndexOfAfter(s: string, rest: string, c: char)
    requires c !in s
    ensures IndexOf(s + [c] + rest, c) == Some(|s|)
    decreases |s|
  {
    var t := s + [c] + rest;
    if s != [] {
      assert t[1..] == s[1..] + [c] + rest;
      IndexOfAfter(s[1..], rest, c);
    }
  }

  lemma FieldAlone(name: string, fields: map<string, string>)
    requires IsKeywordName(name) && '}' !in name
    ensures FormatWith("{" + name + "}", fields) == if name in fields then Ok(fields[name]) else Err(KeyMissing(name))
  {
    FieldThenText(name, "", fields);
    assert "{" + name + "}" + "" == "{" + name + "}";
    assert FormatWith("", fields) == Ok("");
    if name in fields { assert fields[name] + "" == fields[name]; }
  }

  lemma CharThenText(c: char, rest: string, fields: map<string, string>)
    requires c != '{' && c != '}'
    ensures FormatWith([c] + rest, fields) == Prepend([c], FormatWith(rest, fields))
  {
    assert ([c] + rest)[1..] == rest;
  }

  /** The shape of both dataset-name templates: three fields joined by
      `_`. The first missing field, in template order, is the one reported. */
  lemma ThreeFields(a: string, b: string, c: string, fields: map<string, string>)
    requires IsKeywordName(a) && '}' !in a
    requires IsKeywordName(b) && '}' !in b
    requires IsKeywordName(c) && '}' !in c
    ensures FormatWith("{" + a + "}" + ("_" + ("{" + b + "}" + ("_" + ("{" + c + "}")))), fields)
            == if a !in fields then Err(KeyMissing(a))
               else if b !in fields then Err(KeyMissing(b))
               else if c !in fields then Err(KeyMissing(c))
               else Ok(fields[a] + ("_" + (fields[b] + ("_" + fields[c]))))
  {
    var last := "{" + c + "}";
    var tail := "_" + last;
    var midField := "{" + b + "}" + tail;
    var mid := "_" + midField;
    FieldAlone(c, fields);
    assert FormatWith(tail, fields) == Prepend("_", FormatWith(last, fields)) by {
      assert tail == ['_'] + last;
      CharThenText('_', last, fields);
    }
    assert FormatWith(midField, fields) == if b in fields then Prepend(fields[b], FormatWith(tail, fields)) else Err(KeyMissing(b)) by {
      FieldThenText(b, tail, fields);
    }
    assert FormatWith(mid, fields) == Prepend("_", FormatWith(midField, fields)) by {
      assert mid == ['_'] + midField;
      CharThenText('_', midField, fields);
    }
    FieldThenText(a, mid, fields);
  }
}
