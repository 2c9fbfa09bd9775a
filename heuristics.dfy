/**
 * The line tests `normalize_headings` uses to decide whether a plain line is
 * an implicit heading (docnexus/features/standard.py:14-36 and 113-132).
 * Every regular expression is written out as a scan over ASCII characters.
 */
module Heuristics {
  import opened Text

  // ---------------------------------------------------------------------
  // _is_title_case, _is_all_caps
  // ---------------------------------------------------------------------

  /** Number of words whose first character is an upper-case letter. */
  function CapWords(words: seq<string>): (n: nat)
    ensures n <= |words|
  {
    if words == [] then 0
    else (if words[0] != [] && IsUpper(words[0][0]) then 1 else 0) + CapWords(words[1..])
  }

  /** `_is_title_case`: 1 to 15 words, at least 60% of them capitalised (`cap/len >= 0.6` as `5*cap >= 3*len`). */
  predicate IsTitleCase(text: string) {
    var words := WsWords(text);
    1 <= |words| <= 15 && 5 * CapWords(words) >= 3 * |words|
  }

  /** `_is_all_caps`: there is a letter, and every letter is upper-case. */
  predicate IsAllCaps(text: string) {
    && (exists i :: 0 <= i < |text| && IsAlpha(text[i]))
    && (forall i :: 0 <= i < |text| ==> !IsLowerChar(text[i]))
  }

  lemma AllCapsHasUpper(text: string)
    requires IsAllCaps(text)
    ensures exists i :: 0 <= i < |text| && IsUpper(text[i])
  {
    var i :| 0 <= i < |text| && IsAlpha(text[i]);
    assert IsUpper(text[i]);
  }

  /** A title-case text has a capitalised word, so a capital letter. */
  lemma {:induction false} CapWordsPositive(words: seq<string>)
    requires CapWords(words) > 0
    ensures exists k :: 0 <= k < |words| && words[k] != [] && IsUpper(words[k][0])
  {
    if words[0] != [] && IsUpper(words[0][0]) {
    } else {
      CapWordsPositive(words[1..]);
      var k :| 0 <= k < |words[1..]| && words[1..][k] != [] && IsUpper(words[1..][k][0]);
      assert words[k + 1] == words[1..][k];
    }
  }

  // ---------------------------------------------------------------------
  // _numeric_heading_level: ^\s*(\d+(?:\.\d+)*|[IVXLCDM]+|[A-Z])(?:[\.)])?\s+
  // ---------------------------------------------------------------------

  predicate IsRoman(c: char) {
    c == 'I' || c == 'V' || c == 'X' || c == 'L' || c == 'C' || c == 'D' || c == 'M'
  }

  function RomanRun(s: string, p: nat): (n: nat)
    requires p <= |s|
    ensures p + n <= |s|
    ensures forall i :: p <= i < p + n ==> IsRoman(s[i])
    ensures p + n == |s| || !IsRoman(s[p + n])
    decreases |s| - p
  {
    if p == |s| || !IsRoman(s[p]) then 0 else 1 + RomanRun(s, p + 1)
  }

  /**
   * The greedy `(?:\.\d+)*` tail of a dotted number that starts at `q`:
   * where it ends and how many dots it holds.
   */
  function DottedTail(s: string, q: nat): (r: (nat, nat))
    requires q <= |s|
    ensures q <= r.0 <= |s|
    ensures r.1 <= r.0 - q
    ensures r.1 == 0 <==> r.0 == q
    decreases |s| - q
  {
    if q + 1 < |s| && s[q] == '.' && IsDigit(s[q + 1]) then
      var d := DigitRun(s, q + 1);
      var t := DottedTail(s, q + 1 + d);
      (t.0, t.1 + 1)
    else (q, 0)
  }

  /** A matched enumerator: the heading level it implies and where the match ends. */
  datatype Enum = Enum(level: nat, end: nat)

  /**
   * The optional `[.)]` and the mandatory `\s+` after the enumerator that ends
   * at `q`. Only the greedy choice can succeed, because neither a digit nor a
   * letter can start the whitespace run.
   */
  function EnumTail(s: string, q: nat, level: nat): (r: Option<Enum>)
    requires q <= |s|
    ensures r.Some? ==> r.value.level == level && q < r.value.end <= |s|
    ensures r.Some? ==> r.value.end == |s| || !IsSpace(s[r.value.end])
  {
    var w := if q < |s| && (s[q] == '.' || s[q] == ')') then q + 1 else q;
    if w < |s| && IsSpace(s[w]) then Some(Enum(level, w + SpaceRun(s, w))) else None
  }

  /** The enumerator at the head of `line`, if any. */
  function Enumerator(line: string): (r: Option<Enum>)
    ensures r.Some? ==> 1 <= r.value.level && r.value.end <= |line|
  {
    var p := SpaceRun(line, 0);
    if p == |line| then None
    else if IsDigit(line[p]) then
      var d := DigitRun(line, p);
      var t := DottedTail(line, p + d);
      EnumTail(line, t.0, t.1 + 1)
    else if IsRoman(line[p]) then EnumTail(line, p + RomanRun(line, p), 1)
    else if IsUpper(line[p]) then EnumTail(line, p + 1, 1)
    else None
  }

  /** `_numeric_heading_level`: the number of dotted groups of a numeric enumerator, 1 for a letter, 0 for none. */
  function NumericLevel(line: string): (n: nat)
    ensures n > 0 <==> Enumerator(line).Some?
  {
    match Enumerator(line)
    case None => 0
    case Some(e) => e.level
  }

  /** The heading text without its enumerator, stripped. */
  function StripEnumerator(line: string): (r: string)
    ensures |r| <= |line|
  {
    match Enumerator(line)
    case None => Strip(line)
    case Some(e) => Strip(line[e.end..])
  }

  // ---------------------------------------------------------------------
  // The line-shape tests of normalize_headings
  // ---------------------------------------------------------------------

  /** `^\s*([*\-+]\s+|\d+[\.)]\s+)`. */
  predicate IsListLike(line: string) {
    var p := SpaceRun(line, 0);
    var d := DigitRun(line, p);
    || (p + 1 < |line| && (line[p] == '*' || line[p] == '-' || line[p] == '+') && IsSpace(line[p + 1]))
    || (d >= 1 && p + d + 1 < |line| && (line[p + d] == '.' || line[p + d] == ')') && IsSpace(line[p + d + 1]))
  }

  /** The line contains `|`, and its first non-whitespace character is `|`. */
  predicate IsTableLike(line: string) {
    var p := SpaceRun(line, 0);
    p < |line| && line[p] == '|'
  }

  predicate IsQuote(line: string) {
    StartsWith(Strip(line), ">")
  }

  /** `^\s*([-*_])\1{2,}\s*$`: three or more of one rule character and nothing else. */
  predicate IsRule(line: string) {
    var t := Strip(line);
    && |t| >= 3
    && (t[0] == '-' || t[0] == '*' || t[0] == '_')
    && forall i :: 0 <= i < |t| ==> t[i] == t[0]
  }

  /**
   * `\[[^\]]+\]\([^\)]+\)` matching at `i`: the first `]` after the `[`
   * closes a non-empty label, an `(` follows at once, and the first `)`
   * after it closes a non-empty target.
   */
  predicate LinkAt(s: string, i: nat)
    requires i < |s|
  {
    var j := FindChar(s, ']', i + 1);
    && s[i] == '['
    && i + 2 <= j
    && j + 1 < |s|
    && s[j + 1] == '('
    && j + 3 <= FindChar(s, ')', j + 2) < |s|
  }

  predicate HasMarkdownLink(s: string) {
    exists i :: 0 <= i < |s| && LinkAt(s, i)
  }

  predicate IsLinkLike(line: string) {
    Contains(line, "http://") || Contains(line, "https://") || HasMarkdownLink(line)
  }

  // ---------------------------------------------------------------------
  // Stop words and auxiliary verbs
  // ---------------------------------------------------------------------

  const STOPWORDS: seq<string> := [
    "the", "a", "an", "and", "or", "but", "if", "then", "than", "because", "as", "of", "at", "by",
    "for", "with", "about", "into", "through", "during", "before", "after", "above", "below", "to",
    "from", "up", "down", "in", "out", "on", "off", "over", "under"
  ]

  const AUX_VERBS: seq<string> := [
    "is", "are", "was", "were", "be", "being", "been", "have", "has", "had", "do", "does", "did",
    "will", "shall", "can", "should", "may", "might", "must"
  ]

  /** Membership in a word list, as Python's `in` on the source's word sets. */
  predicate Listed(w: string, ws: seq<string>) {
    ws != [] && (ws[0] == w || Listed(w, ws[1..]))
  }

  lemma {:induction false} ListedIn(w: string, ws: seq<string>)
    ensures Listed(w, ws) <==> w in ws
  {
    if ws != [] {
      ListedIn(w, ws[1..]);
      assert ws == [ws[0]] + ws[1..];
    }
  }

  predicate IsWordLetter(c: char) { IsAlpha(c) || c == '\'' }

  function LetterRun(s: string, p: nat): (n: nat)
    requires p <= |s|
    ensures p + n <= |s|
    ensures forall i :: p <= i < p + n ==> IsWordLetter(s[i])
    ensures p + n == |s| || !IsWordLetter(s[p + n])
    decreases |s| - p
  {
    if p == |s| || !IsWordLetter(s[p]) then 0 else 1 + LetterRun(s, p + 1)
  }

  /** The maximal runs of ASCII letters and apostrophes, lower-cased. */
  function LetterWords(s: string): (r: seq<string>)
    ensures forall k :: 0 <= k < |r| ==> r[k] != []
    decreases |s|
  {
    if s == [] then []
    else if !IsWordLetter(s[0]) then LetterWords(s[1..])
    else
      var n := LetterRun(s, 0);
      [Lower(s[..n])] + LetterWords(s[n..])
  }

  function StopCount(words: seq<string>): (n: nat)
    ensures n <= |words|
  {
    if words == [] then 0 else (if Listed(words[0], STOPWORDS) then 1 else 0) + StopCount(words[1..])
  }

  /** `stop_ratio <= 0.5`, as `2*stop <= len`. */
  predicate FewStopwords(line: string) {
    var words := LetterWords(line);
    2 * StopCount(words) <= |words|
  }

  predicate HasAuxVerb(line: string) {
    var words := LetterWords(line);
    exists k :: 0 <= k < |words| && Listed(words[k], AUX_VERBS)
  }

  // ---------------------------------------------------------------------
  // The implicit-heading decision
  // ---------------------------------------------------------------------

  predicate PrevBlank(lines: seq<string>, i: nat)
    requires i <= |lines|
  {
    i == 0 || IsBlank(lines[i - 1])
  }

  predicate NextBlank(lines: seq<string>, i: nat) {
    i + 1 >= |lines| || IsBlank(lines[i + 1])
  }

  /** How the line looks on its own: every test of standard.py:115-132 except the blank neighbours. */
  predicate LooksLikeHeading(line: string) {
    var t := Strip(line);
    && !IsListLike(line)
    && !IsTableLike(line)
    && !IsQuote(line)
    && !IsRule(line)
    && !IsLinkLike(line)
    && |t| <= 80
    && !EndsWith(t, ".")
    && (IsTitleCase(t) || IsAllCaps(t) || NumericLevel(line) > 0)
    && FewStopwords(line)
    && !HasAuxVerb(line)
  }

  /** Line `i` is promoted to a heading: blank-surrounded and heading-like. */
  predicate ImplicitHeading(lines: seq<string>, i: nat)
    requires i < |lines|
  {
    PrevBlank(lines, i) && NextBlank(lines, i) && LooksLikeHeading(lines[i])
  }

  /** Level 2, or one deeper than the number of numeric groups, at most 6. */
  function ImplicitLevel(line: string): (level: nat)
    ensures 2 <= level <= 6
    ensures NumericLevel(line) == 0 ==> level == 2
    ensures NumericLevel(line) > 0 ==> level == if NumericLevel(line) >= 5 then 6 else 1 + NumericLevel(line)
  {
    var n := NumericLevel(line);
    if n == 0 then 2 else if 1 + n < 6 then 1 + n else 6
  }
}
