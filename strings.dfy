/** The few Python `str` operations the sync tool relies on: `strip`, `lower`,
    `upper`, `find`, `startswith`, `split` and `join`. Case mapping and
    whitespace are those of ASCII. */
module Strings {

  /** Python's `str.isspace` on ASCII: space, tab, newline, carriage return,
      vertical tab and form feed. */
  predicate IsSpace(c: char) {
    c == ' ' || c == '\t' || c == '\n' || c == '\r' || c as int == 11 || c as int == 12
  }

  function StripLeft(s: string): (r: string)
    ensures |r| <= |s| && r == s[|s| - |r|..]
    ensures r != [] ==> !IsSpace(r[0])
    ensures forall i :: 0 <= i < |s| - |r| ==> IsSpace(s[i])
  {
    if |s| > 0 && IsSpace(s[0]) then StripLeft(s[1..]) else s
  }

  function StripRight(s: string): (r: string)
    ensures |r| <= |s| && r == s[..|r|]
    ensures r != [] ==> !IsSpace(r[|r| - 1])
    ensures forall i :: |r| <= i < |s| ==> IsSpace(s[i])
  {
    if |s| > 0 && IsSpace(s[|s| - 1]) then StripRight(s[..|s| - 1]) else s
  }

  /** `s.strip()`: drops leading and trailing whitespace. */
  function Strip(s: string): (r: string)
    ensures r == [] || (!IsSpace(r[0]) && !IsSpace(r[|r| - 1]))
    ensures |r| <= |s|
  {
    StripRight(StripLeft(s))
  }

  /** Stripping leaves a string without surrounding whitespace as it is. */
  lemma StripUnchanged(s: string)
    requires s == [] || (!IsSpace(s[0]) && !IsSpace(s[|s| - 1]))
    ensures Strip(s) == s
  {
    assert StripLeft(s) == s;
  }

  lemma StripIdempotent(s: string)
    ensures Strip(Strip(s)) == Strip(s)
  {
    StripUnchanged(Strip(s));
  }

  predicate IsUpperAscii(c: char) { 'A' <= c <= 'Z' }
  predicate IsLowerAscii(c: char) { 'a' <= c <= 'z' }

  function LowerChar(c: char): char {
    if IsUpperAscii(c) then (c as int + 32) as char else c
  }

  function UpperChar(c: char): char {
    if IsLowerAscii(c) then (c as int - 32) as char else c
  }

  /** `s.lower()` */
  function Lower(s: string): (r: string)
    ensures |r| == |s|
    ensures forall i :: 0 <= i < |s| ==> r[i] == LowerChar(s[i]) && !IsUpperAscii(r[i])
  {
    seq(|s|, i requires 0 <= i < |s| => LowerChar(s[i]))
  }

  /** `s.upper()` */
  function Upper(s: string): (r: string)
    ensures |r| == |s|
    ensures forall i :: 0 <= i < |s| ==> r[i] == UpperChar(s[i]) && !IsLowerAscii(r[i])
  {
    seq(|s|, i requires 0 <= i < |s| => UpperChar(s[i]))
  }

  lemma LowerKeepsSpace(s: string)
    ensures forall i :: 0 <= i < |s| ==> (IsSpace(Lower(s)[i]) <==> IsSpace(s[i]))
  {
  }

  predicate StartsWith(s: string, prefix: string) {
    |prefix| <= |s| && s[..|prefix|] == prefix
  }

  predicate EndsWith(s: string, suffix: string) {
    |suffix| <= |s| && s[|s| - |suffix|..] == suffix
  }

  /** True when `d` occurs in `s` starting at index `i`. */
  predicate OccursAt(s: string, d: string, i: nat) {
    i + |d| <= |s| && s[i..i + |d|] == d
  }

  predicate Contains(s: string, d: string) {
    exists i: nat | i <= |s| :: OccursAt(s, d, i)
  }

  /** `s.find(d)`: the first index at which `d` occurs, or -1. */
  function Find(s: string, d: string): (r: int)
    ensures -1 <= r <= |s|
    ensures r >= 0 ==> OccursAt(s, d, r)
  {
    FindFrom(s, d, 0)
  }

  function FindFrom(s: string, d: string, k: nat): (r: int)
    ensures -1 <= r <= |s|
    ensures r >= 0 ==> k <= r && OccursAt(s, d, r)
    decreases |s| - k
  {
    if k + |d| > |s| then -1
    else if s[k..k + |d|] == d then k
    else FindFrom(s, d, k + 1)
  }

  /** `find` returns the first occurrence, and -1 only when there is none. */
  lemma FindIsFirst(s: string, d: string)
    ensures Find(s, d) >= 0 ==> forall j: nat :: j < Find(s, d) ==> !OccursAt(s, d, j)
    ensures Find(s, d) == -1 <==> !Contains(s, d)
  {
    FindFromIsFirst(s, d, 0);
  }

  lemma {:induction false} FindFromIsFirst(s: string, d: string, k: nat)
    ensures FindFrom(s, d, k) >= 0 ==> forall j: nat :: k <= j < FindFrom(s, d, k) ==> !OccursAt(s, d, j)
    ensures FindFrom(s, d, k) == -1 ==> forall j: nat :: k <= j ==> !OccursAt(s, d, j)
    decreases |s| - k
  {
    if k + |d| <= |s| && s[k..k + |d|] != d {
      FindFromIsFirst(s, d, k + 1);
    }
  }

  /** `s.split(d)` for a non-empty separator: the pieces between the
      occurrences of `d` found scanning left to right. */
  function Split(s: string, d: string): (r: seq<string>)
    requires |d| > 0
    ensures |r| >= 1
    decreases |s|
  {
    var i := Find(s, d);
    if i < 0 then [s] else [s[..i]] + Split(s[i + |d|..], d)
  }

  /** `d.join(parts)` */
  function Join(parts: seq<string>, d: string): string {
    if |parts| == 0 then ""
    else if |parts| == 1 then parts[0]
    else parts[0] + d + Join(parts[1..], d)
  }

  lemma {:induction false} JoinSplit(s: string, d: string)
    requires |d| > 0
    ensures Join(Split(s, d), d) == s
    decreases |s|
  {
    var i := Find(s, d);
    if i >= 0 {
      var rest := s[i + |d|..];
      var tail := Split(rest, d);
      JoinSplit(rest, d);
      assert Split(s, d) == [s[..i]] + tail;
      assert ([s[..i]] + tail)[1..] == tail;
      assert Join([s[..i]] + tail, d) == s[..i] + d + Join(tail, d);
      assert s == s[..i] + d + rest;
    }
  }

  /** A piece with no separator in it, joined in front of `rest`, splits off
      again as the first piece, when the separator is a single character. */
  lemma {:induction false} SplitJoinChar(parts: seq<string>, c: char)
    requires |parts| >= 1
    requires forall k :: 0 <= k < |parts| ==> c !in parts[k]
    ensures Split(Join(parts, [c]), [c]) == parts
  {
    if |parts| == 1 {
      NoCharNoOccurrence(parts[0], c);
      FindIsFirst(parts[0], [c]);
    } else {
      var rest := Join(parts[1..], [c]);
      var s := parts[0] + [c] + rest;
      assert OccursAt(s, [c], |parts[0]|);
      forall j: nat | j < |parts[0]| ensures !OccursAt(s, [c], j) {
        assert s[j] == parts[0][j];
      }
      FindIsFirst(s, [c]);
      assert Find(s, [c]) == |parts[0]|;
      assert s[..|parts[0]|] == parts[0];
      assert s[|parts[0]| + 1..] == rest;
      SplitJoinChar(parts[1..], c);
    }
  }

  lemma NoCharNoOccurrence(s: string, c: char)
    requires c !in s
    ensures !Contains(s, [c])
  {
    forall i: nat | i <= |s| ensures !OccursAt(s, [c], i) {
      if i < |s| {
        assert s[i..i + 1] == [s[i]];
      }
    }
  }
  /** For a single character, `find` gives the index of its first
      occurrence, and -1 exactly when it does not occur. */
  lemma FindChar(s: string, c: char)
    ensures Find(s, [c]) == -1 <==> c !in s
    ensures Find(s, [c]) >= 0 ==> s[Find(s, [c])] == c && c !in s[..Find(s, [c])]
  {
    FindIsFirst(s, [c]);
    var i := Find(s, [c]);
    if c in s {
      var j :| 0 <= j < |s| && s[j] == c;
      assert s[j..j + 1] == [c];
      assert OccursAt(s, [c], j);
    } else {
      NoCharNoOccurrence(s, c);
    }
    if i >= 0 {
      assert s[i..i + 1] == [c];
      forall j | 0 <= j < i ensures s[j] != c {
        assert !OccursAt(s, [c], j);
        assert s[j..j + 1] == [s[j]];
      }
    }
  }

  /** No piece of a split on one character holds that character. */
  lemma {:induction false} SplitCharPieces(s: string, c: char)
    ensures forall k :: 0 <= k < |Split(s, [c])| ==> c !in Split(s, [c])[k]
    decreases |s|
  {
    FindChar(s, c);
    var i := Find(s, [c]);
    if i >= 0 {
      SplitCharPieces(s[i + 1..], c);
    }
  }
}
