/**
 * `annotate_blocks` (docnexus/features/standard.py:390-433): every fenced
 * code block is preceded by a marker line `<!-- dv:block=KIND -->` that
 * says what the block looks like, so that later converters know which
 * blocks to leave alone and which to try.
 */
module Annotate {
  import opened Text
  import opened Fences
  import SipKnowledge

  /** The five kinds, tried in this order; the first whose test holds wins. */
  datatype BlockKind = CodeOnly | CandidateSip | CandidateTopology | CandidateFlowchart | CodeBlock

  /** The name written into the marker line. */
  function KindName(k: BlockKind): string {
    match k
    case CodeOnly => "code-only"
    case CandidateSip => "candidate-sip"
    case CandidateTopology => "candidate-topology"
    case CandidateFlowchart => "candidate-flowchart"
    case CodeBlock => "code-block"
  }

  /** `<!-- dv:block=KIND -->`. */
  function MarkerTag(k: BlockKind): string {
    "<!-- dv:block=" + KindName(k) + " -->"
  }

  /** The marker and its newline: the line inserted before a block. */
  function MarkerLine(k: BlockKind): string {
    MarkerTag(k) + "\n"
  }

  // ---------------------------------------------------------------------
  // The four tests
  // ---------------------------------------------------------------------

  const CodeTokens: seq<string> := [";", "=", "++", "--", "{", "}", "return ", "for ", "while ", "if ("]

  /** The occurrences of all the tokens of `ts` in `text`, added up. */
  function TokenScore(text: string, ts: seq<string>): nat
    requires forall k :: 0 <= k < |ts| ==> ts[k] != []
    decreases |ts|
  {
    if ts == [] then 0 else Count(text, ts[0]) + TokenScore(text, ts[1..])
  }

  /** `looks_like_program_code`: at least three occurrences of the code tokens. */
  predicate LooksLikeProgramCode(text: string) {
    TokenScore(text, CodeTokens) >= 3
  }

  /** `^(1|2|3|4|5|6)\d\d\b` matched at `i`: a three-digit status code, then no word character. */
  predicate CodeAt(s: string, i: nat) {
    i + 3 <= |s| && '1' <= s[i] <= '6' && IsDigit(s[i + 1]) && IsDigit(s[i + 2])
    && (i + 3 == |s| || !IsWordChar(s[i + 3]))
  }

  /** With MULTILINE, `^` matches at the start and after every `\n`. */
  predicate LineStart(s: string, i: nat) {
    i == 0 || (0 < i <= |s| && s[i - 1] == '\n')
  }

  /** The MULTILINE search for a status code at the start of some line. */
  predicate HasLineCode(s: string) {
    exists i :: 0 <= i < |s| && LineStart(s, i) && CodeAt(s, i)
  }

  /** `has_sip`: two arrows or more, and a SIP method name or a status code at a line start. */
  predicate HasSip(text: string) {
    Count(text, "->") + Count(text, "=>") >= 2
    && (SipKnowledge.HasMethod(text) || HasLineCode(text))
  }

  /** The six box-drawing characters `has_topology` looks for. */
  const BoxChars: seq<char> := ['\U{250C}', '\U{2500}', '\U{2510}', '\U{2502}', '\U{2514}', '\U{2518}']

  predicate HasBoxChar(text: string) {
    exists k :: 0 <= k < |BoxChars| && ContainsChar(text, BoxChars[k])
  }

  /** `has_topology`: an ASCII or box-drawing frame, and no `->` arrow. */
  predicate HasTopology(text: string) {
    (Contains(text, "+---") || HasBoxChar(text)) && !Contains(text, "->")
  }

  // ---------------------------------------------------------------------
  // has_flowchart: re.findall(r"\b[A-Za-z0-9_.-]{2,}\s*->\s*[A-Za-z0-9_.-]{2,}\b", text)
  // ---------------------------------------------------------------------

  /** `\b` at `i`: a word character on exactly one side. */
  predicate Boundary(s: string, i: nat)
    requires i <= |s|
  {
    (i > 0 && IsWordChar(s[i - 1])) != (i < |s| && IsWordChar(s[i]))
  }

  /**
   * Where the `->` starts once the first name, the maximal name run of
   * length `r1` at `p`, has been read. Either whitespace follows the whole
   * run and then `->`; or the run ends in the arrow's own `-`, in which
   * case the regex gives that `-` back and the name is one shorter.
   */
  function ArrowAfter(s: string, p: nat, r1: nat): (r: Option<nat>)
    requires p + r1 <= |s|
    ensures r.Some? ==> p + 2 <= r.value && r.value + 2 <= |s| && s[r.value] == '-' && s[r.value + 1] == '>'
  {
    var w := SpaceRun(s, p + r1);
    if r1 >= 2 && w >= 1 && p + r1 + w + 1 < |s| && s[p + r1 + w] == '-' && s[p + r1 + w + 1] == '>' then Some(p + r1 + w)
    else if r1 >= 3 && p + r1 < |s| && s[p + r1 - 1] == '-' && s[p + r1] == '>' then Some(p + r1 - 1)
    else None
  }

  /** The longest prefix of the name run at `u`, of length 2 to `n`, that ends at a `\b`; 0 when none does. */
  function LastBoundary(s: string, u: nat, n: nat): (b: nat)
    requires u + n <= |s|
    ensures b == 0 || (2 <= b <= n && Boundary(s, u + b))
    decreases n
  {
    if n < 2 then 0 else if Boundary(s, u + n) then n else LastBoundary(s, u, n - 1)
  }

  /** The end of the arrow match tried at `p`, if there is one. */
  function FlowMatchAt(s: string, p: nat): (r: Option<nat>)
    requires p <= |s|
    ensures r.Some? ==> p < r.value <= |s|
  {
    if !Boundary(s, p) then None
    else
      match ArrowAfter(s, p, NameRun(s, p))
      case None => None
      case Some(a) =>
        var u := a + 2 + SpaceRun(s, a + 2);
        var b := LastBoundary(s, u, NameRun(s, u));
        if b == 0 then None else Some(u + b)
  }

  /** The number of non-overlapping arrow matches from `p` on. */
  function FlowMatches(s: string, p: nat): nat
    requires p <= |s|
    decreases |s| - p
  {
    if p == |s| then 0
    else
      match FlowMatchAt(s, p)
      case Some(e) => 1 + FlowMatches(s, e)
      case None => FlowMatches(s, p + 1)
  }

  /** `has_flowchart`: two arrow matches or more. */
  predicate HasFlowchart(text: string) {
    FlowMatches(text, 0) >= 2
  }

  // ---------------------------------------------------------------------
  // Classification and the rewrite
  // ---------------------------------------------------------------------

  /** The marker a block body gets. */
  function Classify(body: string): BlockKind {
    if LooksLikeProgramCode(body) then CodeOnly
    else if HasSip(body) then CandidateSip
    else if HasTopology(body) then CandidateTopology
    else if HasFlowchart(body) then CandidateFlowchart
    else CodeBlock
  }

  /** What a match is replaced by: its marker line, then the match itself. */
  function Rep(md: string, f: Fence): string
    requires f.start + 4 <= f.body <= f.close && End(f) <= |md|
  {
    MarkerLine(Classify(BodyText(md, f))) + MatchText(md, f)
  }

  function Reps(md: string, ms: seq<Fence>): (r: seq<string>)
    requires Tiled(md, ms, 0)
    ensures |r| == |ms|
    ensures forall i :: 0 <= i < |ms| ==> r[i] == Rep(md, ms[i])
  {
    seq(|ms|, i requires 0 <= i < |ms| => Rep(md, ms[i]))
  }

  /** The annotated document. */
  function AnnotateSpec(md: string): string {
    var ms := Matches(md, 0, Tagged);
    Splice(md, ms, Reps(md, ms), 0, 0)
  }

  /** `annotate_blocks`: copy the text between blocks, and write each block behind its marker line. */
  method AnnotateBlocks(md: string) returns (r: string)
    ensures r == AnnotateSpec(md)
  {
    var ms := Matches(md, 0, Tagged);
    ghost var reps := Reps(md, ms);
    var out := "";
    var last: nat := 0;
    var i: nat := 0;
    while i < |ms|
      invariant CursorBefore(md, ms, i, last)
      invariant out + Splice(md, ms, reps, i, last) == AnnotateSpec(md)
      decreases |ms| - i
    {
      var m := ms[i];
      var kind := Classify(BodyText(md, m));
      SpliceStep(md, ms, reps, i, last, out);
      out := out + md[last..m.start] + (MarkerLine(kind) + MatchText(md, m));
      last := End(m);
      i := i + 1;
    }
    r := out + md[last..];
  }

  // ---------------------------------------------------------------------
  // Properties
  // ---------------------------------------------------------------------

  /** The text after its first line; the whole text when there is no newline. */
  function AfterFirstLine(t: string): string {
    var n := FindChar(t, '\n', 0);
    if n == |t| then t else t[n + 1..]
  }

  /** Every replacement with its first line taken off. */
  function Unmarked(reps: seq<string>): (r: seq<string>)
    ensures |r| == |reps|
    ensures forall i :: 0 <= i < |reps| ==> r[i] == AfterFirstLine(reps[i])
  {
    seq(|reps|, i requires 0 <= i < |reps| => AfterFirstLine(reps[i]))
  }

  /** A marker line is one line: its only newline is its last character. */
  lemma MarkerLineOneLine(k: BlockKind)
    ensures |MarkerLine(k)| >= 1 && MarkerLine(k)[|MarkerLine(k)| - 1] == '\n'
    ensures forall i :: 0 <= i < |MarkerLine(k)| - 1 ==> MarkerLine(k)[i] != '\n'
  {
  }

  /** Taking the first line off a marked block gives the block back. */
  lemma AfterMarker(k: BlockKind, t: string)
    ensures AfterFirstLine(MarkerLine(k) + t) == t
  {
    var ml := MarkerLine(k);
    MarkerLineOneLine(k);
    var n := FindChar(ml + t, '\n', 0);
    assert (ml + t)[|ml| - 1] == '\n';
    assert n == |ml| - 1;
    assert (ml + t)[n + 1..] == t;
  }

  /** Deleting the inserted marker lines gives the input back: the rewrite only adds those lines. */
  lemma AnnotateRoundTrip(md: string)
    ensures var ms := Matches(md, 0, Tagged); Splice(md, ms, Unmarked(Reps(md, ms)), 0, 0) == md
  {
    var ms := Matches(md, 0, Tagged);
    var u := Unmarked(Reps(md, ms));
    forall k | 0 <= k < |ms|
      ensures u[k] == MatchText(md, ms[k])
    {
      AfterMarker(Classify(BodyText(md, ms[k])), MatchText(md, ms[k]));
    }
    SpliceIdentity(md, ms, u, 0, 0);
  }

  /** A positive token score means one of the tokens occurs. */
  lemma {:induction false} TokenScorePositive(text: string, ts: seq<string>)
    requires forall k :: 0 <= k < |ts| ==> ts[k] != []
    requires TokenScore(text, ts) > 0
    ensures exists k :: 0 <= k < |ts| && Contains(text, ts[k])
    decreases |ts|
  {
    if Count(text, ts[0]) > 0 {
      CountPositiveIffContains(text, ts[0]);
    } else {
      TokenScorePositive(text, ts[1..]);
      var k :| 0 <= k < |ts[1..]| && Contains(text, ts[1..][k]);
      assert ts[k + 1] == ts[1..][k];
    }
  }

  /** A block marked code-only contains at least one code token. */
  lemma CodeOnlyHasToken(body: string)
    requires LooksLikeProgramCode(body)
    ensures exists k :: 0 <= k < |CodeTokens| && Contains(body, CodeTokens[k])
  {
    CodeTokensNonEmpty();
    TokenScorePositive(body, CodeTokens);
  }

  lemma CodeTokensNonEmpty()
    ensures forall k :: 0 <= k < |CodeTokens| ==> CodeTokens[k] != []
  {
  }

  /** A block marked as a SIP candidate contains an arrow `->` or `=>`. */
  lemma SipCandidateHasArrow(body: string)
    requires HasSip(body)
    ensures Contains(body, "->") || Contains(body, "=>")
  {
    CountPositiveIffContains(body, "->");
    CountPositiveIffContains(body, "=>");
  }

  /** An arrow match contains `->`. */
  lemma FlowMatchAtArrow(s: string, p: nat)
    requires p <= |s| && FlowMatchAt(s, p).Some?
    ensures Contains(s, "->")
  {
    var a := ArrowAfter(s, p, NameRun(s, p)).value;
    ContainsPair(s, a, '-', '>');
  }

  /** Any arrow match from `p` on contains `->`. */
  lemma {:induction false} FlowMatchesHaveArrow(s: string, p: nat)
    requires p <= |s| && FlowMatches(s, p) > 0
    ensures Contains(s, "->")
    decreases |s| - p
  {
    if FlowMatchAt(s, p).Some? {
      FlowMatchAtArrow(s, p);
    } else {
      FlowMatchesHaveArrow(s, p + 1);
    }
  }

  /**
   * A flowchart has arrows and a topology has none, so no body passes
   * both tests and their order in the chain does not matter.
   */
  lemma FlowchartIsNotTopology(body: string)
    requires HasFlowchart(body)
    ensures !HasTopology(body)
  {
    FlowMatchesHaveArrow(body, 0);
  }
}
