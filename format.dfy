/** `str.format(**values)` on the templates the operator renders: the plugin
    payload templates and the binding secret.

    A replacement field is `{name}`, and the whole text between the braces is
    the name; `{{` and `}}` stand for single braces. Every value is inserted as
    `str(value)`. A lone `}`, a `{` that is never closed, a `{` inside a field,
    and a field with an empty or numeric name (a positional field, with no
    positional arguments to fill it) are formatting errors.
 */
module Format {
  import opened Errors
  import opened Values

  predicate IsBrace(c: char)
  {
    c == '{' || c == '}'
  }

  predicate BraceFree(s: string)
  {
    forall i :: 0 <= i < |s| ==> !IsBrace(s[i])
  }

  /** A name `str.format` reads as a position rather than a keyword. */
  predicate Positional(name: string)
  {
    name == [] || forall i :: 0 <= i < |name| ==> '0' <= name[i] <= '9'
  }

  /** Index of the first brace of `s`, or `|s|` when there is none. */
  function FirstBrace(s: string): (j: nat)
    ensures j <= |s|
    ensures j < |s| ==> IsBrace(s[j])
    ensures BraceFree(s[..j])
  {
    if s == [] || IsBrace(s[0]) then 0
    else
      var j := 1 + FirstBrace(s[1..]);
      assert s[..j] == [s[0]] + s[1..][..j - 1];
      j
  }

  function Prepend(s: string, r: Result<string>): Result<string>
  {
    match r
    case Ok(t) => Ok(s + t)
    case Err(e) => Err(e)
  }

  /** The text of `template` with every field replaced, read left to right: the
      first problem met is the error raised. */
  function Format(template: string, values: map<string, Value>): Result<string>
    decreases |template|
  {
    if template == [] then Ok("")
    else if template[0] == '{' then
      if |template| > 1 && template[1] == '{' then Prepend("{", Format(template[2..], values))
      else
        var rest := template[1..];
        var j := FirstBrace(rest);
        if j == |rest| || rest[j] == '{' || Positional(rest[..j]) then Err(MalformedTemplate)
        else
          var name := rest[..j];
          if name in values then Prepend(PyStr(values[name]), Format(rest[j + 1..], values))
          else Err(KeyMissing(name))
    else if template[0] == '}' then
      if |template| > 1 && template[1] == '}' then Prepend("}", Format(template[2..], values))
      else Err(MalformedTemplate)
    else Prepend([template[0]], Format(template[1..], values))
  }

  /** The names of the fields of `template`, up to the first formatting error. */
  function FieldNames(template: string): set<string>
    decreases |template|
  {
    if template == [] then {}
    else if template[0] == '{' then
      if |template| > 1 && template[1] == '{' then FieldNames(template[2..])
      else
        var rest := template[1..];
        var j := FirstBrace(rest);
        if j == |rest| || rest[j] == '{' || Positional(rest[..j]) then {}
        else {rest[..j]} + FieldNames(rest[j + 1..])
    else if template[0] == '}' then
      if |template| > 1 && template[1] == '}' then FieldNames(template[2..]) else {}
    else FieldNames(template[1..])
  }

  /** Text without braces is its own rendering, whatever the values. */
  lemma {:induction false} FormatBraceFree(s: string, values: map<string, Value>)
    requires BraceFree(s)
    ensures Format(s, values) == Ok(s)
    decreases |s|
  {
    if s != [] {
      BraceFreeTail(s);
      FormatBraceFree(s[1..], values);
      assert [s[0]] + s[1..] == s;
    }
  }

  /** A field preceded by plain text: the text is copied, the field becomes the
      `str` of its value, and rendering goes on after the field; a name without a
      value is a `KeyError`. */
  lemma {:induction false} FormatField(prefix: string, name: string, suffix: string, values: map<string, Value>)
    requires BraceFree(prefix) && BraceFree(name) && !Positional(name)
    ensures Format(prefix + "{" + name + "}" + suffix, values) ==
      if name in values then Prepend(prefix + PyStr(values[name]), Format(suffix, values))
      else Err(KeyMissing(name))
    decreases |prefix|
  {
    var field := "{" + name + "}" + suffix;
    assert prefix + "{" + name + "}" + suffix == prefix + field;
    if prefix == [] {
      assert prefix + field == field;
      FormatFieldFirst(name, suffix, values);
      if name in values {
        assert prefix + PyStr(values[name]) == PyStr(values[name]);
      }
    } else {
      var c, tail := prefix[0], prefix[1..];
      BraceFreeTail(prefix);
      assert prefix + field == [c] + (tail + field);
      assert tail + "{" + name + "}" + suffix == tail + field;
      FormatPlain(c, tail + field, values);
      FormatField(tail, name, suffix, values);
      if name in values {
        PrependPrepend(c, tail, PyStr(values[name]), Format(suffix, values));
        assert [c] + tail == prefix;
      }
    }
  }

  /** Copying a character in front of copied text copies both. */
  lemma PrependPrepend(c: char, t: string, s: string, r: Result<string>)
    ensures Prepend([c], Prepend(t + s, r)) == Prepend([c] + t + s, r)
  {
    if r.Ok? {
      assert [c] + ((t + s) + r.value) == ([c] + t + s) + r.value;
    }
  }

  /** A template that starts with a field. */
  lemma FormatFieldFirst(name: string, suffix: string, values: map<string, Value>)
    requires BraceFree(name) && !Positional(name)
    ensures Format("{" + name + "}" + suffix, values) ==
      if name in values then Prepend(PyStr(values[name]), Format(suffix, values))
      else Err(KeyMissing(name))
  {
    var t := "{" + name + "}" + suffix;
    var rest := t[1..];
    assert rest == name + ("}" + suffix);
    FirstBraceAt(name, "}" + suffix);
    assert rest[..|name|] == name;
    assert rest[|name| + 1..] == suffix;
  }

  /** A character that is not a brace is copied. */
  lemma FormatPlain(c: char, s: string, values: map<string, Value>)
    requires !IsBrace(c)
    ensures Format([c] + s, values) == Prepend([c], Format(s, values))
  {
    assert ([c] + s)[1..] == s;
  }

  lemma BraceFreeTail(s: string)
    requires s != [] && BraceFree(s)
    ensures !IsBrace(s[0]) && BraceFree(s[1..])
  {
    forall i | 0 <= i < |s| - 1 ensures !IsBrace(s[1..][i]) {
      assert s[1..][i] == s[i + 1];
    }
  }

  /** Joining two texts without braces gives a text without braces. */
  lemma BraceFreeConcat(a: string, b: string)
    requires BraceFree(a) && BraceFree(b)
    ensures BraceFree(a + b)
  {
    assert forall i :: |a| <= i < |a + b| ==> (a + b)[i] == b[i - |a|];
  }

  /** The first brace of `a + b`, when `a` has none and `b` starts with one, is
      where `b` starts. */
  lemma {:induction false} FirstBraceAt(a: string, b: string)
    requires BraceFree(a) && b != [] && IsBrace(b[0])
    ensures FirstBrace(a + b) == |a|
    decreases |a|
  {
    if a != [] {
      assert (a + b)[0] == a[0];
      assert (a + b)[1..] == a[1..] + b;
      BraceFreeTail(a);
      FirstBraceAt(a[1..], b);
    } else {
      assert a + b == b;
    }
  }

  /** Only the values of the names the template uses matter: values bound to
      other names, such as declared variables the template never mentions, change
      nothing. */
  lemma {:induction false} FormatUsesOnlyFields(template: string, v1: map<string, Value>, v2: map<string, Value>)
    requires forall n :: n in FieldNames(template) ==> (n in v1 <==> n in v2) && (n in v1 ==> v1[n] == v2[n])
    ensures Format(template, v1) == Format(template, v2)
    decreases |template|
  {
    if template == [] {
    } else if template[0] == '{' {
      if |template| > 1 && template[1] == '{' {
        FormatUsesOnlyFields(template[2..], v1, v2);
      } else {
        var rest := template[1..];
        var j := FirstBrace(rest);
        if !(j == |rest| || rest[j] == '{' || Positional(rest[..j])) {
          FormatUsesOnlyFields(rest[j + 1..], v1, v2);
        }
      }
    } else if template[0] == '}' {
      if |template| > 1 && template[1] == '}' {
        FormatUsesOnlyFields(template[2..], v1, v2);
      }
    } else {
      FormatUsesOnlyFields(template[1..], v1, v2);
    }
  }
}
