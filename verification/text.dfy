/**
 * String helpers with the semantics of the Python `str` methods the source
 * relies on.  Character classes are the ASCII ones: Python's Unicode-aware
 * `lower`, `title`, `isalnum`, `isspace` and the regex class `\w` are
 * approximated by their ASCII restrictions.
 */
module Text {

  predicate IsUpper(c: char) { 'A' <= c <= 'Z' }
  predicate IsLowerLetter(c: char) { 'a' <= c <= 'z' }
  predicate IsLetter(c: char) { IsUpper(c) || IsLowerLetter(c) }
  predicate IsDigit(c: char) { '0' <= c <= '9' }
  predicate IsAlnum(c: char) { IsLetter(c) || IsDigit(c) }

  /** The regex class `\w`, restricted to ASCII. */
  predicate IsWordChar(c: char) { IsAlnum(c) || c == '_' }

  /** Whitespace in the sense of `str.strip()` and `str.split()`, restricted to ASCII. */
  predicate IsSpace(c: char) {
    c == ' ' || c == '\t' || c == '\n' || c == '\r' || c == '\U{0B}' || c == '\U{0C}'
    || ('\U{1C}' <= c <= '\U{1F}')
  }

  /** `str.isalnum()`: non-empty and every character alphanumeric. */
  predicate IsAlnumString(s: string) {
    |s| > 0 && forall i :: 0 <= i < |s| ==> IsAlnum(s[i])
  }

  /** True when `s` has no non-whitespace character, i.e. `not s.strip()`. */
  predicate IsBlank(s: string) {
    forall i :: 0 <= i < |s| ==> IsSpace(s[i])
  }

  function LowerChar(c: char): char {
    if IsUpper(c) then (c as int + 32) as char else c
  }

  function UpperChar(c: char): char {
    if IsLowerLetter(c) then (c as int - 32) as char else c
  }

  /** `str.lower()`. */
  function Lower(s: string): string {
    seq(|s|, i requires 0 <= i < |s| => LowerChar(s[i]))
  }

  lemma LowerIdempotent(s: string)
    ensures Lower(Lower(s)) == Lower(s)
  {
  }

  lemma LowerConcat(a: string, b: string)
    ensures Lower(a + b) == Lower(a) + Lower(b)
  {
  }

  /** `str.startswith` / `str.endswith`. */
  predicate StartsWith(s: string, p: string) {
    |p| <= |s| && s[..|p|] == p
  }

  predicate EndsWith(s: string, p: string) {
    |p| <= |s| && s[|s| - |p|..] == p
  }

  /** The substring test `sub in s`; the empty string is contained in every string. */
  predicate Contains(s: string, sub: string)
    decreases |s|
  {
    StartsWith(s, sub) || (|s| > 0 && Contains(s[1..], sub))
  }

  lemma ContainsSuffix(a: string, s: string, sub: string)
    requires Contains(s, sub)
    ensures Contains(a + s, sub)
    decreases |a|
  {
    if |a| > 0 {
      ContainsSuffix(a[1..], s, sub);
      assert (a + s)[1..] == a[1..] + s;
    } else {
      assert a + s == s;
    }
  }

  lemma ContainsSelf(s: string)
    ensures Contains(s, s)
  {
  }

  lemma {:induction false} ContainsExtend(s: string, b: string, sub: string)
    requires Contains(s, sub)
    ensures Contains(s + b, sub)
    decreases |s|
  {
    if StartsWith(s, sub) {
      assert (s + b)[..|sub|] == s[..|sub|];
    } else {
      ContainsExtend(s[1..], b, sub);
      assert (s + b)[1..] == s[1..] + b;
    }
  }

  /** `str.split(c)` for a one-character separator: always at least one part. */
  function Split(s: string, c: char): (r: seq<string>)
    ensures |r| >= 1
  {
    if s == [] then [""]
    else
      var rest := Split(s[1..], c);
      if s[0] == c then [""] + rest else [[s[0]] + rest[0]] + rest[1..]
  }

  lemma {:induction false} SplitNoSeparator(s: string, c: char)
    requires c !in s
    ensures Split(s, c) == [s]
  {
    if s != [] {
      SplitNoSeparator(s[1..], c);
      assert [s[0]] + s[1..] == s;
    }
  }

  lemma ConcatAssoc<T>(p: seq<T>, q: seq<T>, r: seq<T>)
    ensures p + (q + r) == (p + q) + r
  {
  }

  /** One step of `Split` on a string with a known first character. */
  lemma SplitCons(x: char, s: string, c: char)
    ensures Split([x] + s, c)
         == (if x == c then [""] + Split(s, c)
             else [[x] + Split(s, c)[0]] + Split(s, c)[1..])
  {
    assert ([x] + s)[1..] == s;
  }

  /** Splitting at a separator splits the two sides independently. */
  lemma {:induction false} SplitConcat(a: string, b: string, c: char)
    ensures Split(a + [c] + b, c) == Split(a, c) + Split(b, c)
    decreases |a|, 1
  {
    if a == [] {
      assert a + [c] + b == [c] + b;
      SplitCons(c, b, c);
    } else {
      SplitConcatStep(a[0], a[1..], b, c);
      assert [a[0]] + a[1..] == a;
      assert [a[0]] + (a[1..] + [c] + b) == a + [c] + b;
    }
  }

  lemma {:induction false} SplitConcatStep(x: char, a: string, b: string, c: char)
    ensures Split([x] + (a + [c] + b), c) == Split([x] + a, c) + Split(b, c)
    decreases |a| + 1, 0
  {
    var t := a + [c] + b;
    var ra := Split(a, c);
    var rb := Split(b, c);
    var rt := Split(t, c);
    SplitConcat(a, b, c);
    assert rt == ra + rb;
    SplitCons(x, t, c);
    SplitCons(x, a, c);
    if x != c {
      ExtendFirst([x], ra, rb);
    } else {
      ConcatAssoc([""], ra, rb);
    }
  }

  /** Extending the first part of a list of parts commutes with appending more parts. */
  lemma ExtendFirst(p: string, ra: seq<string>, rb: seq<string>)
    requires |ra| >= 1
    ensures [p + (ra + rb)[0]] + (ra + rb)[1..] == ([p + ra[0]] + ra[1..]) + rb
  {
    assert (ra + rb)[0] == ra[0];
    assert (ra + rb)[1..] == ra[1..] + rb;
  }

  /** No part of a split contains the separator. */
  lemma {:induction false} SplitPartsFree(s: string, c: char)
    ensures forall i :: 0 <= i < |Split(s, c)| ==> c !in Split(s, c)[i]
  {
    if s != [] {
      SplitPartsFree(s[1..], c);
    }
  }

  /** One more part than separators. */
  lemma {:induction false} SplitLength(s: string, c: char)
    ensures |Split(s, c)| == multiset(s)[c] + 1
  {
    if s != [] {
      SplitLength(s[1..], c);
      assert s == [s[0]] + s[1..];
      assert multiset(s) == multiset{s[0]} + multiset(s[1..]);
    }
  }

  /** `sep.join(parts)`. */
  function Join(parts: seq<string>, sep: string): string {
    if |parts| == 0 then ""
    else if |parts| == 1 then parts[0]
    else parts[0] + sep + Join(parts[1..], sep)
  }

  /** Joining the parts of a split gives the string back. */
  lemma {:induction false} JoinSplit(s: string, c: char)
    ensures Join(Split(s, c), [c]) == s
  {
    if s != [] {
      JoinSplit(s[1..], c);
      var rest := Split(s[1..], c);
      if s[0] == c {
        assert Join([""] + rest, [c]) == "" + [c] + Join(rest, [c]);
        assert s == [s[0]] + s[1..];
      } else {
        var r := [[s[0]] + rest[0]] + rest[1..];
        if |rest| == 1 {
          assert Join(r, [c]) == [s[0]] + rest[0];
        } else {
          assert r[1..] == rest[1..];
          assert Join(r, [c]) == [s[0]] + rest[0] + [c] + Join(rest[1..], [c]);
          assert Join(rest, [c]) == rest[0] + [c] + Join(rest[1..], [c]);
        }
        assert s == [s[0]] + s[1..];
      }
    }
  }

  /** Splitting a join of separator-free parts recovers the parts. */
  lemma {:induction false} SplitJoin(parts: seq<string>, c: char)
    requires |parts| >= 1
    requires forall i :: 0 <= i < |parts| ==> c !in parts[i]
    ensures Split(Join(parts, [c]), c) == parts
  {
    if |parts| == 1 {
      SplitNoSeparator(parts[0], c);
    } else {
      SplitJoin(parts[1..], c);
      SplitNoSeparator(parts[0], c);
      SplitConcat(parts[0], Join(parts[1..], [c]), c);
      assert parts[0] + [c] + Join(parts[1..], [c]) == Join(parts, [c]);
      assert [parts[0]] + parts[1..] == parts;
    }
  }

  /** A joined text contains each of its parts. */
  lemma {:induction false} JoinContainsPart(parts: seq<string>, sep: string, i: int, sub: string)
    requires 0 <= i < |parts|
    requires Contains(parts[i], sub)
    ensures Contains(Join(parts, sep), sub)
  {
    if |parts| > 1 {
      var rest := Join(parts[1..], sep);
      assert Join(parts, sep) == parts[0] + (sep + rest);
      if i == 0 {
        ContainsExtend(parts[0], sep + rest, sub);
      } else {
        JoinContainsPart(parts[1..], sep, i - 1, sub);
        ContainsSuffix(parts[0] + sep, rest, sub);
        assert parts[0] + sep + rest == parts[0] + (sep + rest);
      }
    }
  }

  /** Joining with a separator ends with the last part. */
  lemma {:induction false} JoinEndsWith(parts: seq<string>, sep: string)
    requires |parts| >= 1
    ensures EndsWith(Join(parts, sep), parts[|parts| - 1])
  {
    if |parts| > 1 {
      JoinEndsWith(parts[1..], sep);
      var rest := Join(parts[1..], sep);
      var whole := parts[0] + sep + rest;
      assert whole[|whole| - |rest|..] == rest;
      assert parts[1..][|parts| - 2] == parts[|parts| - 1];
    }
  }

  lemma {:induction false} JoinLengthOfSingles(parts: seq<string>, sep: string)
    requires |parts| == 1
    ensures Join(parts, sep) == parts[0]
  {
  }

  /** The last part of `s.split(c)`, i.e. `s.split(c)[-1]`. */
  function LastSegment(s: string, c: char): string {
    var parts := Split(s, c);
    parts[|parts| - 1]
  }

  lemma LastSegmentFree(s: string, c: char)
    ensures c !in LastSegment(s, c)
  {
    SplitPartsFree(s, c);
  }

  lemma LastSegmentNoSeparator(s: string, c: char)
    requires c !in s
    ensures LastSegment(s, c) == s
  {
    SplitNoSeparator(s, c);
  }

  lemma LastSegmentAfter(a: string, b: string, c: char)
    requires c !in b
    ensures LastSegment(a + [c] + b, c) == b
  {
    SplitConcat(a, b, c);
    SplitNoSeparator(b, c);
  }

  /** `str.replace(a, b)` for single characters. */
  function ReplaceChar(s: string, a: char, b: char): string {
    seq(|s|, i requires 0 <= i < |s| => if s[i] == a then b else s[i])
  }

  /** `str.replace(pat, rep)` for a non-empty pattern: left-to-right, non-overlapping. */
  function ReplaceAll(s: string, pat: string, rep: string): string
    requires |pat| > 0
    decreases |s|
  {
    if |s| < |pat| then s
    else if s[..|pat|] == pat then rep + ReplaceAll(s[|pat|..], pat, rep)
    else [s[0]] + ReplaceAll(s[1..], pat, rep)
  }

  lemma ReplaceAllLeading(pat: string, rest: string, rep: string)
    requires |pat| > 0
    ensures ReplaceAll(pat + rest, pat, rep) == rep + ReplaceAll(rest, pat, rep)
  {
    assert (pat + rest)[..|pat|] == pat;
    assert (pat + rest)[|pat|..] == rest;
  }

  /** `str.lstrip()` / `str.rstrip()` / `str.strip()` on whitespace. */
  function StripLeft(s: string): string {
    if s != [] && IsSpace(s[0]) then StripLeft(s[1..]) else s
  }

  function StripRight(s: string): string {
    if s != [] && IsSpace(s[|s| - 1]) then StripRight(s[..|s| - 1]) else s
  }

  function Strip(s: string): string {
    StripRight(StripLeft(s))
  }

  lemma {:induction false} StripLeftBlank(s: string)
    ensures StripLeft(s) == [] <==> IsBlank(s)
    ensures StripLeft(s) == [] || !IsSpace(StripLeft(s)[0])
  {
    if s != [] && IsSpace(s[0]) {
      StripLeftBlank(s[1..]);
      assert IsBlank(s) <==> IsBlank(s[1..]) by {
        if IsBlank(s[1..]) {
          forall i | 0 <= i < |s| ensures IsSpace(s[i]) {
            if i > 0 { assert s[i] == s[1..][i - 1]; }
          }
        }
      }
    }
  }

  lemma {:induction false} StripRightEmpty(s: string)
    requires s == [] || !IsSpace(s[0])
    ensures StripRight(s) == [] <==> s == []
  {
    if s != [] && IsSpace(s[|s| - 1]) {
      assert |s| >= 2;
      var t := s[..|s| - 1];
      assert t[0] == s[0];
      StripRightEmpty(t);
    }
  }

  /** `not s.strip()` holds exactly for whitespace-only strings. */
  lemma StripEmptyIffBlank(s: string)
    ensures Strip(s) == [] <==> IsBlank(s)
  {
    StripLeftBlank(s);
    StripRightEmpty(StripLeft(s));
  }

  lemma {:induction false} StripLeftSkipsSpace(ws: string, s: string)
    requires IsBlank(ws)
    requires s != [] && !IsSpace(s[0])
    ensures StripLeft(ws + s) == s
  {
    if ws != [] {
      assert (ws + s)[1..] == ws[1..] + s;
      StripLeftSkipsSpace(ws[1..], s);
    } else {
      assert ws + s == s;
    }
  }

  lemma {:induction false} StripRightSkipsSpace(s: string, ws: string)
    requires IsBlank(ws)
    requires s != [] && !IsSpace(s[|s| - 1])
    ensures StripRight(s + ws) == s
  {
    if ws != [] {
      assert (s + ws)[..|s + ws| - 1] == s + ws[..|ws| - 1];
      StripRightSkipsSpace(s, ws[..|ws| - 1]);
    } else {
      assert s + ws == s;
    }
  }

  /** A path joined with a name: `directory / name`, without normalisation. */
  function JoinPath(directory: string, name: string): string {
    directory + "/" + name
  }

  /** `str.lstrip(c)` / `str.rstrip(c)` for one character. */
  function StripCharLeft(s: string, c: char): string {
    if s != [] && s[0] == c then StripCharLeft(s[1..], c) else s
  }

  function StripCharRight(s: string, c: char): string {
    if s != [] && s[|s| - 1] == c then StripCharRight(s[..|s| - 1], c) else s
  }

  lemma {:induction false} StripCharLeftSub(s: string, c: char)
    ensures var r := StripCharLeft(s, c);
            |r| <= |s| && r == s[|s| - |r|..] && (r != [] ==> r[0] != c)
  {
    if s != [] && s[0] == c {
      StripCharLeftSub(s[1..], c);
    }
  }

  lemma {:induction false} StripCharRightSub(s: string, c: char)
    ensures var r := StripCharRight(s, c);
            |r| <= |s| && r == s[..|r|] && (r != [] ==> r[|r| - 1] != c)
  {
    if s != [] && s[|s| - 1] == c {
      StripCharRightSub(s[..|s| - 1], c);
    }
  }

  function DigitChar(d: nat): char
    requires d < 10
  {
    "0123456789"[d]
  }

  /** `str(n)` for a natural number. */
  function NatToString(n: nat): (r: string)
    decreases n
  {
    if n < 10 then [DigitChar(n)] else NatToString(n / 10) + [DigitChar(n % 10)]
  }

  /** `str(i)` for an integer. */
  function IntToString(i: int): string {
    if i < 0 then "-" + NatToString(-i) else NatToString(i)
  }

  /** `str.title()`: a letter is upper-cased after a non-letter and lower-cased after a letter. */
  function TitleFrom(s: string, afterLetter: bool): string {
    if s == [] then []
    else
      var c := if afterLetter then LowerChar(s[0]) else UpperChar(s[0]);
      [c] + TitleFrom(s[1..], IsLetter(s[0]))
  }

  function Title(s: string): string {
    TitleFrom(s, false)
  }

  /** `re.split(r"\s", s)`: like `Split` but every whitespace character separates. */
  function SplitSpace(s: string): (r: seq<string>)
    ensures |r| >= 1
  {
    if s == [] then [""]
    else
      var rest := SplitSpace(s[1..]);
      if IsSpace(s[0]) then [""] + rest else [[s[0]] + rest[0]] + rest[1..]
  }

  function NonEmptyParts(parts: seq<string>): seq<string> {
    if parts == [] then []
    else (if parts[0] == "" then [] else [parts[0]]) + NonEmptyParts(parts[1..])
  }

  /** `str.split()` with no argument: whitespace-separated words, empty words dropped. */
  function Words(s: string): seq<string> {
    NonEmptyParts(SplitSpace(s))
  }

  /** Lower-casing cannot introduce a character that is not a lower-case letter. */
  lemma LowerAbsent(s: string, c: char)
    requires !IsLowerLetter(c) && c !in s
    ensures c !in Lower(s)
  {
    forall i | 0 <= i < |s| ensures Lower(s)[i] != c {
      assert s[i] != c;
    }
  }

  /** `s.replace(c, '')`. */
  function RemoveChar(s: string, c: char): (r: string)
    ensures forall x :: x in r <==> x in s && x != c
  {
    if s == [] then []
    else
      var rest := RemoveChar(s[1..], c);
      assert forall x :: x in s <==> x == s[0] || x in s[1..];
      (if s[0] == c then [] else [s[0]]) + rest
  }

  /** The slice `s[:n]`. */
  function Take(s: string, n: nat): (r: string)
    ensures |r| == if n < |s| then n else |s|
    ensures StartsWith(s, r)
  {
    if n < |s| then s[..n] else s
  }
}
