/** Escaping of values substituted into LDAP search filters
    (`format_ldap_query_string` in user_sync/connector/directory_ldap.py),
    with the decoding of section 3 of RFC 4515 as its inverse. */
module LdapEscape {
  import opened Wrappers
  import opened Template

  /** The characters the connector escapes: the five that section 3 of
      RFC 4515 requires except NUL, and six more. */
  const EscapeChars: string := "*()\\&|<>~!:"

  function HexDigit(d: nat): (r: char)
    requires d < 16
    ensures '0' <= r <= '9' || 'a' <= r <= 'f'
  {
    if d < 10 then ('0' as int + d) as char else ('a' as int + d - 10) as char
  }

  /** Python's `hex(n)` without its `0x` prefix: lower-case, unpadded. */
  function HexDigits(n: nat): (r: string)
    ensures |r| >= 1
    decreases n
  {
    if n < 16 then [HexDigit(n)] else HexDigits(n / 16) + [HexDigit(n % 16)]
  }

  /** The text one character becomes: `hex(ord(c)).replace('0x', '\\')`
      for a special character, the character itself otherwise. */
  function EscapeOne(c: char): string {
    if c in EscapeChars then "\\" + HexDigits(c as int) else [c]
  }

  /** The escaped form of a whole value. */
  function Escaped(v: string): string {
    if v == [] then "" else EscapeOne(v[0]) + Escaped(v[1..])
  }

  /** Escaping distributes over concatenation, so it can be built one
      character at a time from the left. */
  lemma {:induction false} EscapedAppend(a: string, b: string)
    ensures Escaped(a + b) == Escaped(a) + Escaped(b)
  {
    if a == [] {
      assert a + b == b;
    } else {
      assert Escaped(a + b) == EscapeOne(a[0]) + Escaped(a[1..] + b) by {
        assert (a + b)[0] == a[0];
        assert (a + b)[1..] == a[1..] + b;
      }
      EscapedAppend(a[1..], b);
    }
  }

  /** Every special character has a code between 0x10 and 0xff, so its
      escape is a backslash and exactly two hex digits. */
  lemma EscapeOneShape(c: char)
    requires c in EscapeChars
    ensures EscapeOne(c) == ['\\', HexDigit(c as int / 16), HexDigit(c as int % 16)]
  {
    assert c == '*' || c == '(' || c == ')' || c == '\\' || c == '&' || c == '|' ||
      c == '<' || c == '>' || c == '~' || c == '!' || c == ':';
    var n := c as int;
    assert 16 <= n < 256;
    assert HexDigits(n) == HexDigits(n / 16) + [HexDigit(n % 16)];
    assert HexDigits(n / 16) == [HexDigit(n / 16)];
  }

  /** The escape loop of `format_ldap_query_string` for one value. */
  method EscapeValue(v: string) returns (r: string)
    ensures r == Escaped(v)
  {
    r := "";
    var i := 0;
    while i < |v|
      invariant 0 <= i <= |v|
      invariant r == Escaped(v[..i])
    {
      var c := v[i];
      var piece: string;
      if c in EscapeChars {
        piece := "\\" + HexDigits(c as int);
      } else {
        piece := [c];
      }
      EscapedAppend(v[..i], [c]);
      assert v[..i + 1] == v[..i] + [c];
      assert Escaped([c]) == piece;
      r := r + piece;
      i := i + 1;
    }
    assert v[..i] == v;
  }

  /** The number of special characters in `v`. */
  function CountSpecial(v: string): nat {
    if v == [] then 0 else (if v[0] in EscapeChars then 1 else 0) + CountSpecial(v[1..])
  }

  /** Each special character grows the value by two characters. */
  lemma {:induction false} EscapedLength(v: string)
    ensures |Escaped(v)| == |v| + 2 * CountSpecial(v)
  {
    if v != [] {
      EscapedLength(v[1..]);
      if v[0] in EscapeChars {
        EscapeOneShape(v[0]);
      }
    }
  }

  /** A value with no special character passes through unchanged. */
  lemma {:induction false} EscapedPlain(v: string)
    requires forall i :: 0 <= i < |v| ==> v[i] !in EscapeChars
    ensures Escaped(v) == v
  {
    if v != [] {
      EscapedPlain(v[1..]);
      assert v == [v[0]] + v[1..];
    }
  }

  /** Every special character of `s` is a backslash. */
  predicate NoBareMeta(s: string) {
    forall i :: 0 <= i < |s| && s[i] in EscapeChars ==> s[i] == '\\'
  }

  lemma NoBareMetaAppend(x: string, y: string)
    requires NoBareMeta(x) && NoBareMeta(y)
    ensures NoBareMeta(x + y)
  {
    forall i | 0 <= i < |x + y| && (x + y)[i] in EscapeChars ensures (x + y)[i] == '\\' {
      if i >= |x| { assert (x + y)[i] == y[i - |x|]; }
    }
  }

  /** No filter metacharacter other than the escaping backslash survives. */
  lemma {:induction false} EscapedHasNoMeta(v: string)
    ensures NoBareMeta(Escaped(v))
  {
    if v != [] {
      assert NoBareMeta(EscapeOne(v[0])) by {
        if v[0] in EscapeChars {
          EscapeOneShape(v[0]);
        }
      }
      EscapedHasNoMeta(v[1..]);
      NoBareMetaAppend(EscapeOne(v[0]), Escaped(v[1..]));
    }
  }

  /** The value of one hex digit of either case, as section 3 of RFC 4515
      reads it. */
  function HexValue(d: char): (r: Option<nat>)
    ensures r.Some? ==> r.value < 16
  {
    if '0' <= d <= '9' then Some(d as int - '0' as int)
    else if 'a' <= d <= 'f' then Some(d as int - 'a' as int + 10)
    else if 'A' <= d <= 'F' then Some(d as int - 'A' as int + 10)
    else None
  }

  /** The characters section 3 of RFC 4515 forbids unescaped in an
      assertion value: NUL, `(`, `)`, `*` and `\`. */
  predicate MustEscape(c: char) {
    c as int == 0 || c == '(' || c == ')' || c == '*' || c == '\\'
  }

  /** Decoding of an RFC 4515 assertion value: `\XX` stands for the
      character with that code; a forbidden character left bare or a
      backslash without two hex digits makes the value invalid. */
  function Unescape(s: string): (r: Option<string>)
    decreases |s|
  {
    if s == [] then Some("")
    else if s[0] == '\\' then
      if |s| < 3 then None
      else
        var hi :- HexValue(s[1]);
        var lo :- HexValue(s[2]);
        var rest :- Unescape(s[3..]);
        Some([(hi * 16 + lo) as char] + rest)
    else if MustEscape(s[0]) then None
    else
      var rest :- Unescape(s[1..]);
      Some([s[0]] + rest)
  }

  lemma HexDigitValue(d: nat)
    requires d < 16
    ensures HexValue(HexDigit(d)) == Some(d)
  {
  }

  /** Decoding undoes the escaping of any value without NUL. */
  lemma {:induction false} UnescapeEscaped(v: string)
    requires forall i :: 0 <= i < |v| ==> v[i] as int != 0
    ensures Unescape(Escaped(v)) == Some(v)
  {
    if v != [] {
      UnescapeEscaped(v[1..]);
      var c := v[0];
      var s := Escaped(v);
      assert s == EscapeOne(c) + Escaped(v[1..]);
      if c in EscapeChars {
        EscapeOneShape(c);
        HexDigitValue(c as int / 16);
        HexDigitValue(c as int % 16);
        assert s[3..] == Escaped(v[1..]);
      } else {
        assert !MustEscape(c);
        assert s[1..] == Escaped(v[1..]);
      }
      assert v == [c] + v[1..];
    }
  }

  /** NUL is not among the escaped characters, so a value holding one yields
      a filter that section 3 of RFC 4515 does not allow. */
  lemma NulIsLeftBare()
    ensures Escaped([0 as char]) == [0 as char]
    ensures Unescape(Escaped([0 as char])) == None
  {
  }

  /** The keyword arguments after escaping: same keys, escaped values. */
  function EscapedArgs(args: map<string, string>): (r: map<string, string>)
    ensures r.Keys == args.Keys
    ensures forall k :: k in args ==> r[k] == Escaped(args[k])
  {
    map k | k in args :: Escaped(args[k])
  }

  /** The query a template gives with the escaped arguments, or the
      formatting error. */
  function Query(query: string, args: map<string, string>): Result<string, string> {
    var t :- Parse(query);
    Render(t, EscapedArgs(args))
  }

  /** `format_ldap_query_string`: escape every keyword value, then format. */
  method FormatLdapQueryString(query: string, args: map<string, string>) returns (r: Result<string, string>)
    ensures r == Query(query, args)
  {
    var escaped: map<string, string> := map[];
    var todo := args.Keys;
    while todo != {}
      invariant todo <= args.Keys
      invariant escaped.Keys == args.Keys - todo
      invariant forall k :: k in escaped ==> escaped[k] == Escaped(args[k])
      decreases todo
    {
      var k :| k in todo;
      var e := EscapeValue(args[k]);
      escaped := escaped[k := e];
      todo := todo - {k};
    }
    assert escaped == EscapedArgs(args);
    var t := Parse(query);
    if t.Err? {
      return Err(t.error);
    }
    r := Render(t.value, escaped);
  }

  /** The template of a query with one named field between two
      brace-free texts. */
  function OneField(before: string, name: string, after: string): seq<Piece> {
    Chars(before) + [Field(name, "")] + Chars(after)
  }

  lemma PrintSingleField(name: string)
    ensures Print([Field(name, "")]) == "{" + name + "}"
  {
    assert [Field(name, "")][1..] == [];
  }

  lemma PrintOneField(before: string, name: string, after: string)
    requires '{' !in before && '}' !in before && '{' !in after && '}' !in after
    ensures Print(OneField(before, name, after)) == before + ("{" + name + "}") + after
  {
    var f := [Field(name, "")];
    PrintChars(before);
    PrintChars(after);
    PrintAppend(Chars(before), f);
    PrintAppend(Chars(before) + f, Chars(after));
    PrintSingleField(name);
  }

  lemma ParseOneField(before: string, name: string, after: string)
    requires '{' !in before && '}' !in before && '{' !in after && '}' !in after
    requires '{' !in name && '}' !in name && '!' !in name && ':' !in name
    ensures Parse(before + "{" + name + "}" + after) == Ok(OneField(before, name, after))
  {
    var t := OneField(before, name, after);
    assert Print(t) == before + "{" + name + "}" + after by {
      PrintOneField(before, name, after);
      assert before + "{" + name + "}" + after == before + ("{" + name + "}") + after;
    }
    assert forall j | 0 <= j < |t| :: PrintableField(t[j]) by {
      forall j | 0 <= j < |t| ensures PrintableField(t[j]) {
        if j < |before| {
          assert t[j] == Char(before[j]);
        } else if j > |before| {
          assert t[j] == Char(after[j - |before| - 1]);
        } else {
          assert t[j] == Field(name, "");
        }
      }
    }
    ParsePrint(t);
  }

  lemma RenderOneField(before: string, name: string, after: string, values: map<string, string>)
    requires '{' !in before && '}' !in before && '{' !in after && '}' !in after
    requires !Positional(name) && name in values
    ensures Render(OneField(before, name, after), values) == Ok(before + values[name] + after)
  {
    PlainTextRendersItself(before, values);
    PlainTextRendersItself(after, values);
    assert [Field(name, "")][1..] == [];
    assert Render([Field(name, "")], values) == Ok(values[name] + "");
    assert values[name] + "" == values[name];
    RenderAppend(Chars(before), [Field(name, "")], values);
    RenderAppend(Chars(before) + [Field(name, "")], Chars(after), values);
  }

  /** A one-field query substitutes the escaped value between the literal
      text around the field. */
  lemma QueryOneField(before: string, name: string, after: string, value: string)
    requires '{' !in before && '}' !in before && '{' !in after && '}' !in after
    requires !Positional(name) && '{' !in name && '}' !in name && '!' !in name && ':' !in name
    ensures Query(before + "{" + name + "}" + after, map[name := value]) == Ok(before + Escaped(value) + after)
  {
    ParseOneField(before, name, after);
    RenderOneField(before, name, after, EscapedArgs(map[name := value]));
  }
}
