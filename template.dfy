/** The part of Python's `str.format` and `string.Formatter.parse` that the
    directory connectors use: literal text, the `{{` and `}}` escapes, and
    replacement fields `{name}` whose values are looked up by keyword. */
module Template {
  import opened Wrappers

  /** One element of a parsed template: a literal character, or a
      replacement field with its name and whatever follows the name inside
      the braces (a conversion `!r` or a format spec `:>10`). */
  datatype Piece = Char(c: char) | Field(name: string, rest: string)

  /** Index of the `}` that brings the brace depth from `depth` to zero,
      counting each `{` up and each other `}` down, or -1 when the string
      ends first: how Python finds the end of a replacement field, so that
      a format spec may hold nested fields (`{a:{b}}`). */
  function MatchClose(s: string, depth: nat): (r: int)
    requires depth > 0
    ensures -1 <= r < |s|
    ensures r >= 0 ==> s[r] == '}'
    decreases |s|
  {
    if s == [] then -1
    else if s[0] == '}' && depth == 1 then 0
    else
      var k := MatchClose(s[1..], if s[0] == '{' then depth + 1 else if s[0] == '}' then depth - 1 else depth);
      if k < 0 then -1 else k + 1
  }

  /** Index of the first `!` or `:` in a field's text, or its length: the
      field name is what comes before. */
  function NameEnd(body: string): (r: nat)
    ensures r <= |body|
    ensures forall j :: 0 <= j < r ==> body[j] != '!' && body[j] != ':'
    ensures r < |body| ==> body[r] == '!' || body[r] == ':'
  {
    if body == [] || body[0] == '!' || body[0] == ':' then 0 else NameEnd(body[1..]) + 1
  }

  /** The conversion after a field name is well formed: when the text
      after the name starts with `!`, one conversion character follows,
      then nothing or a `:` and the format spec. */
  predicate ConversionWellFormed(rest: string) {
    rest == [] || rest[0] != '!' || (|rest| >= 2 && (|rest| == 2 || rest[2] == ':'))
  }

  /** `string.Formatter().parse(s)` as Python 2.7 does it, one piece per
      literal character. A lone `}`, a `{` at the very end, a field whose
      braces never balance and a malformed conversion are errors; braces
      nest inside a field, and a field's name is its text up to the first
      `!` or `:`. */
  function Parse(s: string): (r: Result<seq<Piece>, string>)
    decreases |s|
  {
    if s == [] then Ok([])
    else if s[0] == '{' then
      if |s| == 1 then Err("Single '{' encountered in format string")
      else if s[1] == '{' then
        var tail :- Parse(s[2..]);
        Ok([Char('{')] + tail)
      else
        var k := MatchClose(s[1..], 1);
        if k < 0 then Err("unmatched '{' in format")
        else
          var body := s[1..k + 1];
          var n := NameEnd(body);
          if body[n..] == "!" then Err("end of format while looking for conversion specifier")
          else if !ConversionWellFormed(body[n..]) then Err("expected ':' after format specifier")
          else
            var tail :- Parse(s[k + 2..]);
            Ok([Field(body[..n], body[n..])] + tail)
    else if s[0] == '}' then
      if |s| >= 2 && s[1] == '}' then
        var tail :- Parse(s[2..]);
        Ok([Char('}')] + tail)
      else Err("Single '}' encountered in format string")
    else
      var tail :- Parse(s[1..]);
      Ok([Char(s[0])] + tail)
  }

  /** The text of one piece in template syntax. */
  function PrintPiece(p: Piece): string {
    match p
    case Char(c) => if c == '{' then "{{" else if c == '}' then "}}" else [c]
    case Field(name, rest) => "{" + name + rest + "}"
  }

  /** A template written back out: the inverse of `Parse`. */
  function Print(t: seq<Piece>): string {
    if t == [] then "" else PrintPiece(t[0]) + Print(t[1..])
  }

  /** A field that `Print` writes so that `Parse` reads it back: no brace in
      it, no `!` or `:` in its name, and its tail empty or starting with
      one of them, with a well-formed conversion. */
  predicate PrintableField(p: Piece) {
    p.Field? ==>
      '{' !in p.name && '}' !in p.name && '!' !in p.name && ':' !in p.name &&
      '{' !in p.rest && '}' !in p.rest &&
      (p.rest == [] || p.rest[0] == '!' || p.rest[0] == ':') && ConversionWellFormed(p.rest)
  }

  /** The names of the fields that have one, in order, repeats included:
      `[item[1] for item in formatter.parse(fmt) if item[1]]`. */
  function FieldNames(t: seq<Piece>): (r: seq<string>)
    ensures forall i :: 0 <= i < |r| ==> r[i] != ""
    ensures forall i :: 0 <= i < |r| ==> exists j :: 0 <= j < |t| && t[j].Field? && t[j].name == r[i]
    ensures forall j :: 0 <= j < |t| && t[j].Field? && t[j].name != "" ==> t[j].name in r
  {
    if t == [] then []
    else if t[0].Field? && t[0].name != "" then [t[0].name] + FieldNames(t[1..])
    else FieldNames(t[1..])
  }

  /** A field name that Python reads as a position rather than a keyword:
      empty (automatic numbering) or made of decimal digits only. */
  predicate Positional(name: string) {
    forall i :: 0 <= i < |name| ==> '0' <= name[i] <= '9'
  }

  /** `fmt.format(**values)` on a parsed template. A positional field
      (`{}`, `{0}`) cannot be filled by keyword values and raises an
      `IndexError`; a name missing from `values` is a `KeyError`. */
  function Render(t: seq<Piece>, values: map<string, string>): (r: Result<string, string>)
  {
    if t == [] then Ok("")
    else
      var head :- RenderPiece(t[0], values);
      var tail :- Render(t[1..], values);
      Ok(head + tail)
  }

  function RenderPiece(p: Piece, values: map<string, string>): Result<string, string> {
    match p
    case Char(c) => Ok([c])
    case Field(name, _) =>
      if Positional(name) then Err("IndexError: tuple index out of range")
      else if name !in values then Err("KeyError: " + name)
      else Ok(values[name])
  }

  /** Every field of `t` has a keyword name that `values` supplies. */
  predicate Fillable(t: seq<Piece>, values: map<string, string>) {
    forall j :: 0 <= j < |t| && t[j].Field? ==> !Positional(t[j].name) && t[j].name in values
  }

  /** Every field of `t` is a bare name: no conversion or format spec after
      it, and no attribute access or index in it. These are the fields that
      `Render` treats as Python does. */
  predicate PlainFields(t: seq<Piece>) {
    forall j :: 0 <= j < |t| && t[j].Field? ==> t[j].rest == [] && '.' !in t[j].name && '[' !in t[j].name
  }

  /** For a template of bare names, rendering fails exactly when some field
      cannot be filled. */
  lemma {:induction false} RenderSucceedsIff(t: seq<Piece>, values: map<string, string>)
    requires PlainFields(t)
    ensures Render(t, values).Ok? <==> Fillable(t, values)
  {
    if t != [] {
      assert PlainFields(t[1..]) by {
        forall j | 0 <= j < |t[1..]| && t[1..][j].Field?
          ensures t[1..][j].rest == [] && '.' !in t[1..][j].name && '[' !in t[1..][j].name
        {
          assert t[1..][j] == t[j + 1];
        }
      }
      RenderSucceedsIff(t[1..], values);
      assert Fillable(t, values) <==> (t[0].Field? ==> !Positional(t[0].name) && t[0].name in values) && Fillable(t[1..], values) by {
        if Fillable(t[1..], values) && (t[0].Field? ==> !Positional(t[0].name) && t[0].name in values) {
          forall j | 0 <= j < |t| && t[j].Field? ensures !Positional(t[j].name) && t[j].name in values {
            if j > 0 { assert t[j] == t[1..][j - 1]; }
          }
        }
      }
    }
  }

  /** The characters of a template made of literals only. */
  function Chars(s: string): (r: seq<Piece>)
    ensures |r| == |s|
    ensures forall i :: 0 <= i < |s| ==> r[i] == Char(s[i])
  {
    seq(|s|, i requires 0 <= i < |s| => Char(s[i]))
  }

  /** A string with no brace is a template with no field, and it renders to
      itself whatever the values. */
  lemma PlainTextRendersItself(s: string, values: map<string, string>)
    requires '{' !in s && '}' !in s
    ensures Parse(s) == Ok(Chars(s))
    ensures Render(Chars(s), values) == Ok(s)
    ensures FieldNames(Chars(s)) == []
  {
    PlainTextParses(s);
    PlainTextRenders(s, values);
  }

  lemma {:induction false} PlainTextParses(s: string)
    requires '{' !in s && '}' !in s
    ensures Parse(s) == Ok(Chars(s))
    decreases |s|
  {
    if s != [] {
      assert s[0] != '{' && s[0] != '}' by { assert s[0] in s; }
      assert '{' !in s[1..] && '}' !in s[1..];
      PlainTextParses(s[1..]);
      assert Chars(s) == [Char(s[0])] + Chars(s[1..]);
    }
  }

  lemma {:induction false} PlainTextRenders(s: string, values: map<string, string>)
    ensures Render(Chars(s), values) == Ok(s)
    ensures FieldNames(Chars(s)) == []
    decreases |s|
  {
    if s != [] {
      PlainTextRenders(s[1..], values);
      assert Chars(s)[1..] == Chars(s[1..]);
      assert s == [s[0]] + s[1..];
    }
  }

  /** Parsing a printed template gives the template back. */
  lemma {:induction false} ParsePrint(t: seq<Piece>)
    requires forall j :: 0 <= j < |t| ==> PrintableField(t[j])
    ensures Parse(Print(t)) == Ok(t)
  {
    if t != [] {
      var tail := Print(t[1..]);
      assert Parse(tail) == Ok(t[1..]) by {
        assert forall j :: 0 <= j < |t[1..]| ==> PrintableField(t[1..][j]) by {
          assert forall j :: 0 <= j < |t[1..]| ==> t[1..][j] == t[j + 1];
        }
        ParsePrint(t[1..]);
      }
      assert Print(t) == PrintPiece(t[0]) + tail;
      assert t == [t[0]] + t[1..];
      if t[0].Char? {
        ParseCharThen(t[0].c, tail, t[1..]);
      } else {
        assert PrintableField(t[0]);
        ParseFieldThen(t[0].name, t[0].rest, tail, t[1..]);
      }
    }
  }

  lemma ParseCharThen(c: char, tail: string, parsed: seq<Piece>)
    requires Parse(tail) == Ok(parsed)
    ensures Parse(PrintPiece(Char(c)) + tail) == Ok([Char(c)] + parsed)
  {
    var s := PrintPiece(Char(c)) + tail;
    if c == '{' || c == '}' {
      assert s[0] == c && s[1] == c && s[2..] == tail;
    } else {
      assert s[0] == c && s[1..] == tail;
    }
  }

  lemma ParseFieldThen(name: string, rest: string, tail: string, parsed: seq<Piece>)
    requires PrintableField(Field(name, rest))
    requires Parse(tail) == Ok(parsed)
    ensures Parse(PrintPiece(Field(name, rest)) + tail) == Ok([Field(name, rest)] + parsed)
  {
    var s := PrintPiece(Field(name, rest)) + tail;
    var body := name + rest;
    FieldText(name, rest, tail);
    var k := MatchClose(s[1..], 1);
    assert k == |body|;
    assert s[1..k + 1] == body && body[NameEnd(body)..] == rest;
    assert s[k + 2..] == tail;
    ParseFieldStep(s, parsed);
  }

  /** Where the pieces of a printed field sit in the text that follows it. */
  lemma FieldText(name: string, rest: string, tail: string)
    requires PrintableField(Field(name, rest))
    ensures var body := name + rest;
      var s := PrintPiece(Field(name, rest)) + tail;
      |s| >= 2 && s[0] == '{' && s[1] != '{' &&
      MatchClose(s[1..], 1) == |body| && s[1..|body| + 1] == body &&
      s[|body| + 2..] == tail &&
      body[..NameEnd(body)] == name && body[NameEnd(body)..] == rest
  {
    var body := name + rest;
    var s := "{" + body + "}" + tail;
    assert PrintPiece(Field(name, rest)) + tail == s;
    assert '{' !in body && '}' !in body by {
      assert forall j :: 0 <= j < |body| ==> body[j] == if j < |name| then name[j] else rest[j - |name|];
    }
    assert ConversionWellFormed(rest);
    assert s[1] != '{' by {
      if body == [] { assert s[1] == '}'; } else { assert s[1] == body[0]; }
    }
    assert MatchClose(s[1..], 1) == |body| by {
      assert s[1..] == body + "}" + tail;
      MatchCloseAfter(body, tail);
    }
    assert s[1..|body| + 1] == body;
    assert s[|body| + 2..] == tail;
    assert body[..NameEnd(body)] == name && body[NameEnd(body)..] == rest by {
      NameEndOf(name, rest);
      assert body[..|name|] == name && body[|name|..] == rest;
    }
  }

  /** How `Parse` reads a field at the head of a string. */
  lemma ParseFieldStep(s: string, parsed: seq<Piece>)
    requires |s| >= 2 && s[0] == '{' && s[1] != '{'
    requires MatchClose(s[1..], 1) >= 0
    requires var body := s[1..MatchClose(s[1..], 1) + 1];
      ConversionWellFormed(body[NameEnd(body)..])
    requires Parse(s[MatchClose(s[1..], 1) + 2..]) == Ok(parsed)
    ensures var body := s[1..MatchClose(s[1..], 1) + 1];
      Parse(s) == Ok([Field(body[..NameEnd(body)], body[NameEnd(body)..])] + parsed)
  {
    var k := MatchClose(s[1..], 1);
    var body := s[1..k + 1];
    assert s != [] && s[0] == '{' && |s| != 1 && s[1] != '{';
    assert !(k < 0) && body[NameEnd(body)..] != "!";
  }

  /** With no brace before it, the first `}` closes a field. */
  lemma {:induction false} MatchCloseAfter(body: string, tail: string)
    requires '{' !in body && '}' !in body
    ensures MatchClose(body + "}" + tail, 1) == |body|
    decreases |body|
  {
    var s := body + "}" + tail;
    if body == [] {
      assert s[0] == '}';
    } else {
      assert body[0] in body;
      assert s[0] == body[0] && s[1..] == body[1..] + "}" + tail;
      assert '{' !in body[1..] && '}' !in body[1..];
      MatchCloseAfter(body[1..], tail);
    }
  }

  lemma NameEndOf(name: string, rest: string)
    requires '!' !in name && ':' !in name
    requires rest == [] || rest[0] == '!' || rest[0] == ':'
    ensures NameEnd(name + rest) == |name|
  {
    var body := name + rest;
    var n := NameEnd(body);
    assert forall j :: 0 <= j < |name| ==> body[j] == name[j];
    assert rest != [] ==> body[|name|] == rest[0];
  }

  /** Printing distributes over concatenation. */
  lemma {:induction false} PrintAppend(a: seq<Piece>, b: seq<Piece>)
    ensures Print(a + b) == Print(a) + Print(b)
  {
    if a == [] {
      assert a + b == b;
    } else {
      var c := a + b;
      assert c[0] == a[0] && c[1..] == a[1..] + b;
      PrintAppend(a[1..], b);
    }
  }

  /** A brace-free string is printed as itself. */
  lemma {:induction false} PrintChars(s: string)
    requires '{' !in s && '}' !in s
    ensures Print(Chars(s)) == s
  {
    if s != [] {
      assert s[0] in s;
      assert Chars(s)[1..] == Chars(s[1..]);
      PrintChars(s[1..]);
      assert s == [s[0]] + s[1..];
    }
  }

  /** Rendering distributes over concatenation when both parts render. */
  lemma {:induction false} RenderAppend(a: seq<Piece>, b: seq<Piece>, values: map<string, string>)
    requires Render(a, values).Ok? && Render(b, values).Ok?
    ensures Render(a + b, values) == Ok(Render(a, values).value + Render(b, values).value)
  {
    if a != [] {
      assert (a + b)[0] == a[0];
      assert (a + b)[1..] == a[1..] + b;
      var h := RenderPiece(a[0], values).value;
      RenderAppend(a[1..], b, values);
      var ra := Render(a[1..], values).value;
      var rb := Render(b, values).value;
      assert Render(a, values) == Ok(h + ra);
      assert Render(a + b, values) == Ok(h + (ra + rb));
      assert h + (ra + rb) == (h + ra) + rb;
    } else {
      assert a + b == b;
      assert Render(a, values).value == "";
      assert "" + Render(b, values).value == Render(b, values).value;
    }
  }
}
