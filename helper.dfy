/** The small string helpers of user_sync/helper.py. */
module Helper {
  import opened Wrappers
  import opened Strings

  /** Python truthiness of an optional string. */
  predicate NonEmpty(s: Option<string>) {
    s.Some? && s.value != ""
  }

  /** `normalize_string`: `None` stays `None`, anything else is stripped and
      lower-cased. */
  function NormalizeString(v: Option<string>): (r: Option<string>)
    ensures r.None? <==> v.None?
    ensures r.Some? ==> |r.value| <= |v.value|
    ensures r.Some? ==> forall i :: 0 <= i < |r.value| ==> !IsUpperAscii(r.value[i])
    ensures r.Some? && r.value != [] ==> !IsSpace(r.value[0]) && !IsSpace(r.value[|r.value| - 1])
  {
    match v
    case None => None
    case Some(s) => Some(Normalize(s))
  }

  /** The normalisation applied to a present string. */
  function Normalize(s: string): string {
    Lower(Strip(s))
  }

  lemma LowerIdempotent(s: string)
    ensures Lower(Lower(s)) == Lower(s)
  {
  }

  /** Normalising twice is normalising once. */
  lemma NormalizeIdempotent(s: string)
    ensures Normalize(Normalize(s)) == Normalize(s)
  {
    var t := Strip(s);
    LowerKeepsSpace(t);
    StripUnchanged(Lower(t));
    LowerIdempotent(t);
  }

  /** `str.rfind(c)` for one character: the last index holding `c`, or -1. */
  function RFind(s: string, c: char): (r: int)
    ensures -1 <= r < |s|
    ensures r >= 0 ==> s[r] == c
    ensures forall j :: r < j < |s| ==> s[j] != c
  {
    if |s| == 0 then -1
    else if s[|s| - 1] == c then |s| - 1
    else RFind(s[..|s| - 1], c)
  }

  /** True when some character of `s[lo..hi]` is not a dot. */
  predicate HasNonDot(s: string, lo: int, hi: int)
    requires 0 <= lo && hi <= |s|
  {
    exists k :: lo <= k < hi && s[k] != '.'
  }

  /** The extension `os.path.splitext` (POSIX) splits off: from the last dot
      after the last slash, provided the file name before that dot is not
      made of dots only; otherwise empty. */
  function Extension(p: string): (r: string)
    ensures r == [] || (r[0] == '.' && EndsWith(p, r))
  {
    var sep := RFind(p, '/');
    var dot := RFind(p, '.');
    if dot > sep && HasNonDot(p, sep + 1, dot) then p[dot..] else ""
  }

  /** `guess_delimiter_from_filename`: a comma for `.csv`; a tab for
      `.tsv` and for everything else alike. */
  function GuessDelimiter(filename: string): char {
    if Normalize(Extension(filename)) == ".csv" then ',' else '\t'
  }

  /** A file name ending in a dot and a suffix free of dots and slashes, after
      a stem that does not end in a dot or slash, has that dotted suffix as its
      extension. */
  lemma ExtensionOfSuffix(stem: string, e: string)
    requires stem != [] && stem[|stem| - 1] != '/' && stem[|stem| - 1] != '.'
    requires '.' !in e && '/' !in e
    ensures Extension(stem + "." + e) == "." + e
  {
    var p := stem + "." + e;
    assert p[|stem|] == '.' && p[|stem| - 1] == stem[|stem| - 1];
    assert forall j :: |stem| < j < |p| ==> p[j] == e[j - |stem| - 1];
    var dot := RFind(p, '.');
    var sep := RFind(p, '/');
    assert dot == |stem|;
    assert sep < |stem| - 1;
    assert HasNonDot(p, sep + 1, dot);
    assert p[dot..] == "." + e;
  }

  /** The delimiter guessed for a name with a plain extension `e` is the
      comma exactly when `e`, without its trailing white space, is `csv` in
      any letter case. */
  lemma GuessDelimiterByExtension(stem: string, e: string)
    requires stem != [] && stem[|stem| - 1] != '/' && stem[|stem| - 1] != '.'
    requires '.' !in e && '/' !in e
    ensures GuessDelimiter(stem + "." + e) == ',' <==> Lower(StripRight(e)) == "csv"
  {
    ExtensionOfSuffix(stem, e);
    NormalizeDotted(e);
  }

  /** Normalising a dot and a suffix keeps the dot, drops the suffix's
      trailing white space and lower-cases the rest; the result is `.csv`
      exactly when that is `csv`. */
  lemma NormalizeDotted(e: string)
    ensures Normalize("." + e) == "." + Lower(StripRight(e))
    ensures Normalize("." + e) == ".csv" <==> Lower(StripRight(e)) == "csv"
  {
    var t := StripRight(e);
    assert Strip("." + e) == "." + t by {
      StripDotted(e);
    }
    LowerDot(t);
    DotCsv(Lower(t));
  }

  lemma DotCsv(x: string)
    ensures "." + x == ".csv" <==> x == "csv"
  {
    if "." + x == ".csv" {
      assert x == ("." + x)[1..];
    }
  }

  lemma StripDotted(e: string)
    ensures Strip("." + e) == "." + StripRight(e)
  {
    assert StripLeft("." + e) == "." + e;
    StripRightAfter('.', e);
  }

  lemma LowerDot(t: string)
    ensures Lower("." + t) == "." + Lower(t)
  {
  }

  /** Right-stripping never reaches past a leading non-blank character. */
  lemma {:induction false} StripRightAfter(c: char, e: string)
    requires !IsSpace(c)
    ensures StripRight([c] + e) == [c] + StripRight(e)
    decreases |e|
  {
    var s := [c] + e;
    if |e| > 0 && IsSpace(e[|e| - 1]) {
      assert s[|s| - 1] == e[|e| - 1];
      assert s[..|s| - 1] == [c] + e[..|e| - 1];
      StripRightAfter(c, e[..|e| - 1]);
    } else {
      assert s[|s| - 1] == if |e| > 0 then e[|e| - 1] else c;
    }
  }

  /** Trailing blanks after the extension do not change the guess: a file
      named `x.csv ` is read with commas, like `x.csv`. */
  lemma GuessIgnoresTrailingBlanks(stem: string, e: string, blanks: string)
    requires stem != [] && stem[|stem| - 1] != '/' && stem[|stem| - 1] != '.'
    requires '.' !in e && '/' !in e
    requires forall i :: 0 <= i < |blanks| ==> IsSpace(blanks[i])
    ensures GuessDelimiter(stem + "." + e + blanks) == GuessDelimiter(stem + "." + e)
  {
    assert '.' !in e + blanks && '/' !in e + blanks by {
      forall i | 0 <= i < |e + blanks| ensures (e + blanks)[i] != '.' && (e + blanks)[i] != '/' {
        if i >= |e| {
          assert IsSpace(blanks[i - |e|]);
        }
      }
    }
    assert stem + "." + e + blanks == stem + "." + (e + blanks);
    StripRightBlanks(e, blanks);
    GuessDelimiterByExtension(stem, e + blanks);
    GuessDelimiterByExtension(stem, e);
  }

  lemma {:induction false} StripRightBlanks(e: string, blanks: string)
    requires forall i :: 0 <= i < |blanks| ==> IsSpace(blanks[i])
    ensures StripRight(e + blanks) == StripRight(e)
    decreases |blanks|
  {
    if blanks != [] {
      var s := e + blanks;
      assert s[|s| - 1] == blanks[|blanks| - 1];
      assert s[..|s| - 1] == e + blanks[..|blanks| - 1];
      StripRightBlanks(e, blanks[..|blanks| - 1]);
    } else {
      assert e + blanks == e;
    }
  }

  /** `n * s`: the string `s` repeated `n` times. */
  function Repeat(s: string, n: nat): (r: string)
    ensures |r| == n * |s|
  {
    if n == 0 then "" else s + Repeat(s, n - 1)
  }

  const LineLeftCount: nat := 10
  const LineWidth: nat := 60

  /** `JobStats.create_divider`: ten dividers, the header, then enough
      dividers to reach the line width, computed with Python 2 floor
      division. An empty divider makes the division fail. */
  function CreateDivider(header: string, divider: string): (r: Option<string>)
    ensures r.None? <==> divider == ""
    ensures r.Some? ==> StartsWith(r.value, Repeat(divider, LineLeftCount))
    ensures r.Some? ==>
      var right := (LineWidth - |header|) / |divider| - LineLeftCount;
      |r.value| == LineLeftCount * |divider| + |header| + (if right < 0 then 0 else right) * |divider|
    ensures r.Some? ==> r.value[LineLeftCount * |divider|..LineLeftCount * |divider| + |header|] == header
    ensures r.Some? ==>
      var right := (LineWidth - |header|) / |divider| - LineLeftCount;
      r.value[LineLeftCount * |divider| + |header|..] == Repeat(divider, if right < 0 then 0 else right)
  {
    if divider == "" then None
    else
      var leftSide := Repeat(divider, LineLeftCount);
      var rightCount := (LineWidth - |header|) / |divider| - LineLeftCount;
      var rightCount' := if rightCount < 0 then 0 else rightCount;
      var line := leftSide + header + Repeat(divider, rightCount');
      assert line[..|leftSide|] == leftSide;
      assert line[|leftSide| + |header|..] == Repeat(divider, rightCount');
      Some(line)
  }

  /** With a one-character divider, a header of at most 50 characters is
      padded to exactly the 60-character line width; a longer one is not
      padded at all. */
  lemma DividerLineWidth(header: string, c: char)
    ensures |header| <= 50 ==> |CreateDivider(header, [c]).value| == LineWidth
    ensures |header| > 50 ==> CreateDivider(header, [c]).value == Repeat([c], LineLeftCount) + header
  {
  }

  /** A value of a directory user as the CSV export sees it. */
  datatype CsvValue = Text(text: string) | List(items: seq<string>)

  /** `_get_csv_header` */
  const CsvHeader: seq<string> := ["firstname", "lastname", "email", "country", "groups", "identity_type", "username", "domain"]

  /** The cell written for `key`: absent stays empty, a list is joined with
      commas. */
  function Cell(user: map<string, CsvValue>, key: string): Option<string> {
    if key !in user then None
    else match user[key]
      case Text(t) => Some(t)
      case List(items) => Some(Join(items, ","))
  }

  /** The row-building loop of `write_dict_to_csv`. */
  method CsvRow(user: map<string, CsvValue>) returns (row: seq<Option<string>>)
    ensures |row| == |CsvHeader|
    ensures forall i :: 0 <= i < |CsvHeader| ==> row[i] == Cell(user, CsvHeader[i])
  {
    row := [];
    var i := 0;
    while i < |CsvHeader|
      invariant 0 <= i <= |CsvHeader|
      invariant |row| == i
      invariant forall k :: 0 <= k < i ==> row[k] == Cell(user, CsvHeader[k])
    {
      var key := CsvHeader[i];
      var value: Option<string>;
      if key !in user {
        value := None;
      } else if user[key].List? {
        value := Some(Join(user[key].items, ","));
      } else {
        value := Some(user[key].text);
      }
      row := row + [value];
      i := i + 1;
    }
  }

  /** The rows of `write_dict_to_csv`: the header, then one row per user. */
  method CsvRows(users: seq<map<string, CsvValue>>) returns (rows: seq<seq<Option<string>>>)
    ensures |rows| == |users| + 1
    ensures rows[0] == seq(|CsvHeader|, i requires 0 <= i < |CsvHeader| => Some(CsvHeader[i]))
    ensures forall u :: 1 <= u < |rows| ==> |rows[u]| == |CsvHeader|
    ensures forall u, i :: 1 <= u < |rows| && 0 <= i < |CsvHeader| ==> rows[u][i] == Cell(users[u - 1], CsvHeader[i])
  {
    rows := [seq(|CsvHeader|, i requires 0 <= i < |CsvHeader| => Some(CsvHeader[i]))];
    var u := 0;
    while u < |users|
      invariant 0 <= u <= |users|
      invariant |rows| == u + 1
      invariant rows[0] == seq(|CsvHeader|, i requires 0 <= i < |CsvHeader| => Some(CsvHeader[i]))
      invariant forall v :: 1 <= v < |rows| ==> |rows[v]| == |CsvHeader|
      invariant forall v, i :: 1 <= v < |rows| && 0 <= i < |CsvHeader| ==> rows[v][i] == Cell(users[v - 1], CsvHeader[i])
    {
      var row := CsvRow(users[u]);
      rows := rows + [row];
      u := u + 1;
    }
  }
}
