/**
 * The part of Python's `str.format` that the prompt templates rely on:
 * `{name}` replaced by the keyword argument of that name, taken literally,
 * and `{{` and `}}` standing for single braces.
 */
module PyFormat {
  import opened Common

  /** The ways `str.format` can raise on the templates it is given. */
  datatype FormatError =
    | MissingKey(name: string)     // KeyError: no keyword argument of that name
    | UnclosedField                // ValueError: a `{` with no `}` after it
    | BraceInField                 // ValueError: a `{` inside a field name
    | SingleCloseBrace             // ValueError: a lone `}`

  function Prepend(s: string, r: Result<string, FormatError>): Result<string, FormatError> {
    match r
    case Ok(v) => Ok(s + v)
    case Err(e) => r
  }

  predicate NoBraces(s: string) {
    '{' !in s && '}' !in s
  }

  /** The index of the first `}` in `s`, or `|s|`. */
  function CloseIndex(s: string): (i: nat)
    ensures i <= |s|
    ensures '}' !in s[..i]
    ensures i < |s| ==> s[i] == '}'
  {
    if |s| == 0 || s[0] == '}' then 0 else 1 + CloseIndex(s[1..])
  }

  /** `template.format(**fields)` for templates whose fields are plain names. */
  function Format(template: string, fields: map<string, string>): Result<string, FormatError>
    decreases |template|
  {
    if |template| == 0 then Ok("")
    else if template[0] == '{' then
      if |template| > 1 && template[1] == '{' then Prepend("{", Format(template[2..], fields))
      else
        var close := CloseIndex(template[1..]);
        if close == |template| - 1 then Err(UnclosedField)
        else
          var name := template[1..1 + close];
          if '{' in name then Err(BraceInField)
          else if name !in fields then Err(MissingKey(name))
          else Prepend(fields[name], Format(template[close + 2..], fields))
    else if template[0] == '}' then
      if |template| > 1 && template[1] == '}' then Prepend("}", Format(template[2..], fields))
      else Err(SingleCloseBrace)
    else Prepend([template[0]], Format(template[1..], fields))
  }

  /** Text without braces is copied through unchanged. */
  lemma {:induction false} FormatLiteral(text: string, rest: string, fields: map<string, string>)
    requires NoBraces(text)
    ensures Format(text + rest, fields) == Prepend(text, Format(rest, fields))
  {
    if |text| > 0 {
      var t := text + rest;
      assert t[0] == text[0] && t[1..] == text[1..] + rest;
      assert t[0] != '{' && t[0] != '}';
      assert NoBraces(text[1..]);
      FormatLiteral(text[1..], rest, fields);
      assert Format(t, fields) == Prepend([text[0]], Prepend(text[1..], Format(rest, fields)));
      PrependTwice([text[0]], text[1..], Format(rest, fields));
      assert [text[0]] + text[1..] == text;
    } else {
      assert text + rest == rest;
      PrependEmpty(Format(rest, fields));
    }
  }

  lemma PrependEmpty(r: Result<string, FormatError>)
    ensures Prepend("", r) == r
  {
    if r.Ok? {
      assert "" + r.value == r.value;
    }
  }

  lemma PrependTwice(s: string, t: string, r: Result<string, FormatError>)
    ensures Prepend(s, Prepend(t, r)) == Prepend(s + t, r)
  {
    if r.Ok? {
      assert s + (t + r.value) == s + t + r.value;
    }
  }

  /** The placeholder `{name}` as it appears in a template. */
  function Field(name: string): string {
    "{" + name + "}"
  }

  /** A placeholder `{name}` is replaced by that argument, taken literally. */
  lemma FormatField(name: string, rest: string, fields: map<string, string>)
    requires NoBraces(name) && name in fields
    ensures Format(Field(name) + rest, fields) == Prepend(fields[name], Format(rest, fields))
  {
    var t := Field(name) + rest;
    assert t[0] == '{' && t[1..] == name + "}" + rest;
    assert CloseIndex(t[1..]) == |name| by {
      CloseAfter(name, rest);
    }
    assert t[1..1 + |name|] == name;
    assert t[|name| + 2..] == rest;
  }

  lemma {:induction false} CloseAfter(name: string, rest: string)
    requires '}' !in name
    ensures CloseIndex(name + "}" + rest) == |name|
  {
    if |name| > 0 {
      assert (name + "}" + rest)[1..] == name[1..] + "}" + rest;
      CloseAfter(name[1..], rest);
    }
  }

  /** Text without braces formats to itself. */
  lemma FormatPlain(text: string, fields: map<string, string>)
    requires NoBraces(text)
    ensures Format(text, fields) == Ok(text)
  {
    FormatLiteral(text, "", fields);
    assert text + "" == text;
    assert Format("", fields) == Ok("");
  }

  /** A template with one placeholder formats to the literal substitution. */
  lemma FormatOneField(a: string, n: string, c: string, fields: map<string, string>)
    requires NoBraces(a) && NoBraces(c) && NoBraces(n) && n in fields
    ensures Format(a + Field(n) + c, fields) == Ok(a + fields[n] + c)
  {
    var v := fields[n];
    assert Format(Field(n) + c, fields) == Ok(v + c) by {
      FormatPlain(c, fields);
      FormatField(n, c, fields);
    }
    assert Format(a + (Field(n) + c), fields) == Ok(a + (v + c)) by {
      FormatLiteral(a, Field(n) + c, fields);
    }
    assert a + Field(n) + c == a + (Field(n) + c);
    assert a + (v + c) == a + v + c;
  }

  /** A template with two placeholders formats to the literal substitution. */
  lemma FormatTwoFields(a: string, n1: string, b: string, n2: string, c: string,
                        fields: map<string, string>)
    requires NoBraces(a) && NoBraces(b) && NoBraces(c) && NoBraces(n1) && NoBraces(n2)
    requires n1 in fields && n2 in fields
    ensures Format(a + Field(n1) + b + Field(n2) + c, fields)
         == Ok(a + fields[n1] + b + fields[n2] + c)
  {
    var v1, v2 := fields[n1], fields[n2];
    var rest := b + Field(n2) + c;
    assert Format(rest, fields) == Ok(b + v2 + c) by {
      FormatOneField(b, n2, c, fields);
    }
    assert Format(Field(n1) + rest, fields) == Ok(v1 + (b + v2 + c)) by {
      FormatField(n1, rest, fields);
    }
    assert Format(a + (Field(n1) + rest), fields) == Ok(a + (v1 + (b + v2 + c))) by {
      FormatLiteral(a, Field(n1) + rest, fields);
    }
    Regroup(a, Field(n1), b, Field(n2), c);
    Regroup(a, v1, b, v2, c);
  }

  lemma Regroup(a: string, b: string, c: string, d: string, e: string)
    ensures a + b + c + d + e == a + (b + (c + d + e))
  {
  }

}
