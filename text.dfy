/**
 * String primitives shared by every pass, restricted to ASCII semantics:
 * Python's `\s`, `\w`, `str.strip`, `str.lower`, `str.upper`, `str.count`,
 * `str.splitlines`, `str.split`, `str.join` and cutting at wide whitespace gaps.
 */
module Text {

  datatype Option<T> = None | Some(value: T)

  // ---------------------------------------------------------------------
  // Character classes
  // ---------------------------------------------------------------------

  /** Python's `\s` / `str.isspace` on ASCII: space, \t \n \v \f \r and \x1c-\x1f. */
  predicate IsSpace(c: char) {
    c == ' ' || ('\t' <= c <= '\r') || ('\U{1C}' <= c <= '\U{1F}')
  }

  predicate IsDigit(c: char) { '0' <= c <= '9' }
  predicate IsUpper(c: char) { 'A' <= c <= 'Z' }
  predicate IsLowerChar(c: char) { 'a' <= c <= 'z' }
  predicate IsAlpha(c: char) { IsUpper(c) || IsLowerChar(c) }

  /** Python's `\w` on ASCII. */
  predicate IsWordChar(c: char) { IsAlpha(c) || IsDigit(c) || c == '_' }

  /** The class `[A-Za-z0-9_.-]` of the converters' participant and node names. */
  predicate IsNameChar(c: char) { IsWordChar(c) || c == '.' || c == '-' }

  /** Characters at which `str.splitlines` breaks a line. */
  predicate IsLineBreak(c: char) {
    c == '\n' || c == '\r' || c == '\U{0B}' || c == '\U{0C}' ||
    c == '\U{1C}' || c == '\U{1D}' || c == '\U{1E}' ||
    c == '\U{85}' || c == '\U{2028}' || c == '\U{2029}'
  }

  function LowerChar(c: char): char {
    if IsUpper(c) then (c as int + 32) as char else c
  }

  function UpperChar(c: char): char {
    if IsLowerChar(c) then (c as int - 32) as char else c
  }

  /** `str.lower()` on the ASCII alphabet. */
  function Lower(s: string): (r: string)
    ensures |r| == |s|
    ensures forall i :: 0 <= i < |s| ==> r[i] == LowerChar(s[i])
  {
    if s == [] then [] else [LowerChar(s[0])] + Lower(s[1..])
  }

  /** `str.upper()` on the ASCII alphabet. */
  function Upper(s: string): (r: string)
    ensures |r| == |s|
    ensures forall i :: 0 <= i < |s| ==> r[i] == UpperChar(s[i])
  {
    if s == [] then [] else [UpperChar(s[0])] + Upper(s[1..])
  }

  // ---------------------------------------------------------------------
  // Whitespace stripping
  // ---------------------------------------------------------------------

  predicate AllSpace(s: string) {
    forall i :: 0 <= i < |s| ==> IsSpace(s[i])
  }

  /** `str.lstrip()`. */
  function LStrip(s: string): (r: string)
    ensures |r| <= |s|
    ensures r == [] || !IsSpace(r[0])
  {
    if s == [] || !IsSpace(s[0]) then s else LStrip(s[1..])
  }

  /** `s.lstrip()` drops a whitespace prefix and keeps the rest. */
  lemma {:induction false} LStripSuffix(s: string)
    ensures LStrip(s) == s[|s| - |LStrip(s)|..]
    ensures AllSpace(s[..|s| - |LStrip(s)|])
    decreases |s|
  {
    if s != [] && IsSpace(s[0]) {
      LStripSuffix(s[1..]);
      assert s[1..][..|s| - 1 - |LStrip(s)|] == s[1..|s| - |LStrip(s)|];
    }
  }

  /** Leading whitespace makes no difference to `lstrip`. */
  lemma {:induction false} LStripSpaces(w: string, t: string)
    requires AllSpace(w)
    ensures LStrip(w + t) == LStrip(t)
    decreases |w|
  {
    if w == [] {
      assert w + t == t;
    } else {
      var s := w + t;
      assert s[0] == w[0];
      assert s[1..] == w[1..] + t;
      LStripSpaces(w[1..], t);
    }
  }

  /** `str.rstrip()`. */
  function RStrip(s: string): (r: string)
    ensures |r| <= |s|
    ensures r == [] || !IsSpace(r[|r| - 1])
  {
    if s == [] || !IsSpace(s[|s| - 1]) then s else RStrip(s[..|s| - 1])
  }

  /** `s.rstrip()` drops a whitespace suffix and keeps the rest. */
  lemma {:induction false} RStripPrefix(s: string)
    ensures RStrip(s) == s[..|RStrip(s)|]
    ensures AllSpace(s[|RStrip(s)|..])
    decreases |s|
  {
    if s != [] && IsSpace(s[|s| - 1]) {
      RStripPrefix(s[..|s| - 1]);
      assert s[..|s| - 1][..|RStrip(s)|] == s[..|RStrip(s)|];
      assert s[|RStrip(s)|..] == s[..|s| - 1][|RStrip(s)|..] + [s[|s| - 1]];
    }
  }

  /** Whitespace removed from both ends. */
  function Strip(s: string): (r: string)
    ensures |r| <= |s|
    ensures r == [] || (!IsSpace(r[0]) && !IsSpace(r[|r| - 1]))
  {
    LStripSuffix(RStrip(s));
    LStrip(RStrip(s))
  }

  /** A string with no whitespace at either end is its own `strip()`. */
  lemma StripNoEdges(s: string)
    requires s == [] || (!IsSpace(s[0]) && !IsSpace(s[|s| - 1]))
    ensures Strip(s) == s
  {
  }

  /** A string that does not start with whitespace keeps its first character under `strip()`. */
  lemma StripKeepsHead(s: string)
    requires s != [] && !IsSpace(s[0])
    ensures Strip(s) != [] && Strip(s)[0] == s[0]
  {
    RStripPrefix(s);
    var r := RStrip(s);
    assert r[0] == s[0];
  }

  /** `strip()` is idempotent. */
  lemma StripIdempotent(s: string)
    ensures Strip(Strip(s)) == Strip(s)
  {
    StripNoEdges(Strip(s));
  }

  predicate IsBlank(s: string) { Strip(s) == [] }

  // ---------------------------------------------------------------------
  // Substrings
  // ---------------------------------------------------------------------

  predicate StartsWith(s: string, p: string) {
    |p| <= |s| && s[..|p|] == p
  }

  predicate EndsWith(s: string, p: string) {
    |p| <= |s| && s[|s| - |p|..] == p
  }

  /** Python's `t in s`. */
  predicate Contains(s: string, t: string)
    decreases |s|
  {
    StartsWith(s, t) || (s != [] && Contains(s[1..], t))
  }

  predicate ContainsChar(s: string, c: char) {
    exists i :: 0 <= i < |s| && s[i] == c
  }

  /** Python's substring count: non-overlapping occurrences, scanned left to right. */
  function Count(s: string, t: string): (r: nat)
    requires t != []
    ensures r * |t| <= |s|
    decreases |s|
  {
    if |s| < |t| then 0
    else if StartsWith(s, t) then 1 + Count(s[|t|..], t)
    else Count(s[1..], t)
  }

  lemma {:induction false} CountPositiveIffContains(s: string, t: string)
    requires t != []
    ensures Count(s, t) > 0 <==> Contains(s, t)
    decreases |s|
  {
    if |s| < |t| {
      if Contains(s, t) { NotContainsShort(s, t); }
    } else if !StartsWith(s, t) {
      CountPositiveIffContains(s[1..], t);
    }
  }

  /** An occurrence at index `i` makes `t in s` true. */
  lemma {:induction false} ContainsAt(s: string, t: string, i: nat)
    requires i + |t| <= |s| && s[i..i + |t|] == t
    ensures Contains(s, t)
    decreases i
  {
    if i > 0 {
      assert s[1..][i - 1..i - 1 + |t|] == s[i..i + |t|];
      ContainsAt(s[1..], t, i - 1);
    }
  }

  /** Two adjacent characters make their two-character string occur. */
  lemma ContainsPair(s: string, i: nat, c: char, d: char)
    requires i + 1 < |s| && s[i] == c && s[i + 1] == d
    ensures Contains(s, [c, d])
  {
    assert s[i..i + 2] == [c, d];
    ContainsAt(s, [c, d], i);
  }

  lemma {:induction false} NotContainsShort(s: string, t: string)
    requires |s| < |t|
    ensures !Contains(s, t)
    decreases |s|
  {
    if s != [] { NotContainsShort(s[1..], t); }
  }

  // ---------------------------------------------------------------------
  // Splitting and joining
  // ---------------------------------------------------------------------

  /** `sep.join(parts)`. */
  function Join(parts: seq<string>, sep: string): string
    decreases |parts|
  {
    if parts == [] then []
    else if |parts| == 1 then parts[0]
    else parts[0] + sep + Join(parts[1..], sep)
  }

  /** Index of the first line break in `s`, or `|s|`. */
  function FirstBreak(s: string): (k: nat)
    ensures k <= |s|
    ensures k < |s| ==> IsLineBreak(s[k])
    ensures forall i :: 0 <= i < k ==> !IsLineBreak(s[i])
  {
    if s == [] then 0
    else if IsLineBreak(s[0]) then 0
    else 1 + FirstBreak(s[1..])
  }

  /** `str.splitlines()`: "\r\n" is one boundary, and a final boundary adds no empty line. */
  function SplitLines(s: string): (lines: seq<string>)
    ensures forall i :: 0 <= i < |lines| ==> forall j :: 0 <= j < |lines[i]| ==> !IsLineBreak(lines[i][j])
    decreases |s|
  {
    if s == [] then []
    else
      var k := FirstBreak(s);
      if k == |s| then [s]
      else
        var w := if s[k] == '\r' && k + 1 < |s| && s[k + 1] == '\n' then 2 else 1;
        [s[..k]] + SplitLines(s[k + w..])
  }

  predicate NoLineBreak(s: string) {
    forall i :: 0 <= i < |s| ==> !IsLineBreak(s[i])
  }

  /** A non-empty text without line breaks is one line. */
  lemma SplitLinesOne(b: string)
    requires NoLineBreak(b) && b != []
    ensures SplitLines(b) == [b]
  {
    assert FirstBreak(b) == |b|;
  }

  /** Two lines joined by `\n` split back apart, when the second is not empty. */
  lemma SplitLinesTwo(a: string, b: string)
    requires NoLineBreak(a) && NoLineBreak(b) && b != []
    ensures SplitLines(a + "\n" + b) == [a, b]
  {
    var s := a + "\n" + b;
    assert s[|a|] == '\n';
    assert forall i :: 0 <= i < |a| ==> s[i] == a[i];
    assert FirstBreak(s) == |a|;
    assert s[..|a|] == a;
    assert s[|a| + 1..] == b;
    SplitLinesOne(b);
  }

  /** Splitting at a one-character separator: always one more piece than separators. */
  function SplitOn(s: string, c: char): (r: seq<string>)
    ensures |r| >= 1
    decreases |s|
  {
    if s == [] then [[]]
    else
      var rest := SplitOn(s[1..], c);
      if s[0] == c then [[]] + rest
      else [[s[0]] + rest[0]] + rest[1..]
  }

  lemma {:induction false} SplitOnJoin(s: string, c: char)
    ensures Join(SplitOn(s, c), [c]) == s
    decreases |s|
  {
    if s != [] {
      var rest := SplitOn(s[1..], c);
      SplitOnJoin(s[1..], c);
      if s[0] == c {
        assert SplitOn(s, c) == [[]] + rest;
        assert ([[]] + rest)[1..] == rest;
      } else {
        var r := SplitOn(s, c);
        assert r == [[s[0]] + rest[0]] + rest[1..];
        if |rest| == 1 {
          assert Join(r, [c]) == [s[0]] + rest[0];
        } else {
          assert r[1..] == rest[1..];
          assert Join(rest, [c]) == rest[0] + [c] + Join(rest[1..], [c]);
        }
      }
    }
  }

  /** Length of the maximal whitespace run starting at `p`. */
  function SpaceRun(s: string, p: nat): (n: nat)
    requires p <= |s|
    ensures p + n <= |s|
    ensures forall i :: p <= i < p + n ==> IsSpace(s[i])
    ensures p + n == |s| || !IsSpace(s[p + n])
    decreases |s| - p
  {
    if p == |s| || !IsSpace(s[p]) then 0 else 1 + SpaceRun(s, p + 1)
  }

  /** Length of the run of `c` starting at `p`. */
  function CharRun(s: string, p: nat, c: char): (n: nat)
    requires p <= |s|
    ensures p + n <= |s|
    ensures forall i :: p <= i < p + n ==> s[i] == c
    ensures p + n == |s| || s[p + n] != c
    decreases |s| - p
  {
    if p == |s| || s[p] != c then 0 else 1 + CharRun(s, p + 1, c)
  }

  /** A run of `n` copies of `c` followed by something else has length `n`. */
  lemma {:induction false} CharRunRepeat(c: char, n: nat, rest: string)
    requires rest == [] || rest[0] != c
    ensures CharRun(Repeat(c, n) + rest, 0, c) == n
    decreases n
  {
    if n > 0 {
      CharRunShift(Repeat(c, n) + rest, 0, c);
      assert (Repeat(c, n) + rest)[1..] == Repeat(c, n - 1) + rest;
      CharRunRepeat(c, n - 1, rest);
    }
  }

  /** A run read from `p + 1` is the run read from `p` in the string without its head. */
  lemma {:induction false} CharRunShift(s: string, p: nat, c: char)
    requires p < |s|
    ensures CharRun(s, p + 1, c) == CharRun(s[1..], p, c)
    decreases |s| - p
  {
    if p + 1 < |s| && s[p + 1] == c {
      CharRunShift(s, p + 1, c);
    }
  }

  /** Length of the run of decimal digits starting at `p`. */
  function DigitRun(s: string, p: nat): (n: nat)
    requires p <= |s|
    ensures p + n <= |s|
    ensures forall i :: p <= i < p + n ==> IsDigit(s[i])
    ensures p + n == |s| || !IsDigit(s[p + n])
    decreases |s| - p
  {
    if p == |s| || !IsDigit(s[p]) then 0 else 1 + DigitRun(s, p + 1)
  }

  /** Length of the run of word characters `[A-Za-z0-9_]` starting at `p`. */
  function WordRun(s: string, p: nat): (n: nat)
    requires p <= |s|
    ensures p + n <= |s|
    ensures forall i :: p <= i < p + n ==> IsWordChar(s[i])
    ensures p + n == |s| || !IsWordChar(s[p + n])
    decreases |s| - p
  {
    if p == |s| || !IsWordChar(s[p]) then 0 else 1 + WordRun(s, p + 1)
  }

  /** Length of the run of name characters `[A-Za-z0-9_.-]` starting at `p`. */
  function NameRun(s: string, p: nat): (n: nat)
    requires p <= |s|
    ensures p + n <= |s|
    ensures forall i :: p <= i < p + n ==> IsNameChar(s[i])
    ensures p + n == |s| || !IsNameChar(s[p + n])
    decreases |s| - p
  {
    if p == |s| || !IsNameChar(s[p]) then 0 else 1 + NameRun(s, p + 1)
  }

  /** Length of the run of non-whitespace characters starting at `p`. */
  function NonSpaceRun(s: string, p: nat): (n: nat)
    requires p <= |s|
    ensures p + n <= |s|
    ensures forall i :: p <= i < p + n ==> !IsSpace(s[i])
    ensures p + n == |s| || IsSpace(s[p + n])
    decreases |s| - p
  {
    if p == |s| || IsSpace(s[p]) then 0 else 1 + NonSpaceRun(s, p + 1)
  }

  /** Index of the first `c` at or after `p`, or `|s|`. */
  function FindChar(s: string, c: char, p: nat): (k: nat)
    requires p <= |s|
    ensures p <= k <= |s|
    ensures k < |s| ==> s[k] == c
    ensures forall i :: p <= i < k ==> s[i] != c
    decreases |s| - p
  {
    if p == |s| || s[p] == c then p else FindChar(s, c, p + 1)
  }

  /** The maximal runs of non-whitespace, in order. */
  function WsWords(s: string): (r: seq<string>)
    ensures forall k :: 0 <= k < |r| ==> r[k] != []
    decreases |s|
  {
    var p := SpaceRun(s, 0);
    if p == |s| then []
    else
      var w := NonSpaceRun(s, p);
      [s[p..p + w]] + WsWords(s[p + w..])
  }

  /** Cut at every maximal whitespace run of length two or more. */
  function SplitWide(s: string): (r: seq<string>)
    ensures |r| >= 1
  {
    SplitWideFrom(s, 0, 0)
  }

  function SplitWideFrom(s: string, start: nat, p: nat): (r: seq<string>)
    requires start <= p <= |s|
    ensures |r| >= 1
    decreases |s| - p
  {
    if p == |s| then [s[start..]]
    else if IsSpace(s[p]) && SpaceRun(s, p) >= 2 then
      [s[start..p]] + SplitWideFrom(s, p + SpaceRun(s, p), p + SpaceRun(s, p))
    else SplitWideFrom(s, start, p + 1)
  }

  // ---------------------------------------------------------------------
  // Numbers
  // ---------------------------------------------------------------------

  function DigitChar(d: nat): char
    requires d < 10
  {
    ('0' as int + d) as char
  }

  /** `str(n)` for a natural number. */
  function NatToString(n: nat): (r: string)
    ensures |r| >= 1
    ensures forall i :: 0 <= i < |r| ==> IsDigit(r[i])
  {
    if n < 10 then [DigitChar(n)] else NatToString(n / 10) + [DigitChar(n % 10)]
  }

  /** `n` copies of `c`: a run of one character, or one heading text requested `n` times. */
  function Repeat<T>(c: T, n: nat): (r: seq<T>)
    ensures |r| == n
    ensures forall i :: 0 <= i < n ==> r[i] == c
  {
    if n == 0 then [] else [c] + Repeat(c, n - 1)
  }

  // ---------------------------------------------------------------------
  // Code fences, line by line
  // ---------------------------------------------------------------------

  /** A line that toggles the "inside a code fence" state: it starts with three backticks. */
  predicate IsFenceLine(line: string) {
    |line| >= 3 && line[0] == '`' && line[1] == '`' && line[2] == '`'
  }

  /** Number of fence lines among `lines[..i]`. */
  function FencesBefore(lines: seq<string>, i: nat): nat
    requires i <= |lines|
  {
    if i == 0 then 0
    else FencesBefore(lines, i - 1) + (if IsFenceLine(lines[i - 1]) then 1 else 0)
  }

  /** Line `i` lies inside a fenced block: an odd number of fence lines precede it. */
  predicate InCodeAt(lines: seq<string>, i: nat)
    requires i <= |lines|
  {
    FencesBefore(lines, i) % 2 == 1
  }

  /** Crossing line `i` flips the fence state exactly when line `i` is a fence line. */
  lemma InCodeStep(lines: seq<string>, i: nat)
    requires i < |lines|
    ensures InCodeAt(lines, i + 1) == (if IsFenceLine(lines[i]) then !InCodeAt(lines, i) else InCodeAt(lines, i))
  {
  }

  /** The non-blank lines, in order. */
  function NonBlank(ls: seq<string>): (r: seq<string>)
    ensures forall k :: 0 <= k < |r| ==> !IsBlank(r[k])
    decreases |ls|
  {
    if ls == [] then [] else (if IsBlank(ls[0]) then [] else [ls[0]]) + NonBlank(ls[1..])
  }

  // ---------------------------------------------------------------------
  // Lists without duplicates, in first-seen order
  // ---------------------------------------------------------------------

  /** A name appended unless the list already holds it. */
  function AddName(ps: seq<string>, n: string): (r: seq<string>)
    ensures n in r
  {
    if n in ps then ps else ps + [n]
  }

  /** `AddName` keeps every name and adds only `n`. */
  lemma AddNameMembers(ps: seq<string>, n: string, x: string)
    ensures x in AddName(ps, n) <==> x in ps || x == n
  {
  }

  predicate Distinct(ps: seq<string>) {
    forall a, b :: 0 <= a < b < |ps| ==> ps[a] != ps[b]
  }

  /** Adding a name keeps a list free of duplicates. */
  lemma AddNameDistinct(ps: seq<string>, n: string)
    requires Distinct(ps)
    ensures Distinct(AddName(ps, n))
  {
    if n !in ps {
      var r := ps + [n];
      forall a, b | 0 <= a < b < |r|
        ensures r[a] != r[b]
      {
        if b == |ps| {
          assert r[a] == ps[a];
        }
      }
    }
  }
}
