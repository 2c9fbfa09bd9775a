/**
 * `build_toc` (docnexus/features/standard.py:186-387): collect the ATX
 * headings outside code fences, give each an explicit `{#id}`, build the
 * numbered heading tree from their cleaned display texts, and splice a
 * placeholder holding the TOC's HTML after the first level-1 heading.
 */
module Toc {
  import opened Text
  import opened Slug
  import opened TocTree
  import opened TocRender
  import Headings

  // ---------------------------------------------------------------------
  // Finding the headings
  // ---------------------------------------------------------------------

  /** A heading the scan found: its level, its stripped text and its line index. */
  datatype Heading = Heading(level: nat, text: string, idx: nat)

  /**
   * `^(#{1,6})\s+(.*)$`: one to six `#` and a whitespace character; the
   * level is the number of `#` and the text what follows, stripped.
   */
  function Atx(line: string): (r: Option<(nat, string)>)
    ensures r.Some? ==> 1 <= r.value.0 <= 6
  {
    var h := CharRun(line, 0, '#');
    if 1 <= h <= 6 && h < |line| && IsSpace(line[h]) then Some((h, Strip(line[h..]))) else None
  }

  /** Line `i` is a heading the scan collects: not a fence line, not inside a fence, and ATX-shaped. */
  predicate IsHeadingAt(lines: seq<string>, i: nat)
    requires i < |lines|
  {
    !IsFenceLine(lines[i]) && !InCodeAt(lines, i) && Atx(lines[i]).Some?
  }

  /** The headings among the first `n` lines, in order. */
  function Scan(lines: seq<string>, n: nat): seq<Heading>
    requires n <= |lines|
  {
    if n == 0 then []
    else
      Scan(lines, n - 1)
        + if IsHeadingAt(lines, n - 1) then
            var a := Atx(lines[n - 1]).value;
            [Heading(a.0, a.1, n - 1)]
          else []
  }

  /** The line index of the first level-1 heading. */
  function FirstH1(hs: seq<Heading>): Option<nat> {
    if hs == [] then None
    else match FirstH1(Init(hs))
      case Some(i) => Some(i)
      case None => if Last(hs).level == 1 then Some(Last(hs).idx) else None
  }

  /** Every heading's line index lies below `n`. */
  predicate InRange(hs: seq<Heading>, n: nat) {
    forall j :: 0 <= j < |hs| ==> hs[j].idx < n
  }

  // ---------------------------------------------------------------------
  // Explicit ids
  // ---------------------------------------------------------------------

  /**
   * "Ensure explicit IDs": each heading line without a final `{#id}` is
   * rewritten as `'#'*level + ' ' + text + ' {#' + slug(text) + '}'`.
   */
  function Anchor(lines: seq<string>, hs: seq<Heading>): (r: seq<string>)
    requires InRange(hs, |lines|)
    ensures |r| == |lines|
  {
    if hs == [] then lines
    else
      var l := Anchor(lines, Init(hs));
      var h := Last(hs);
      if Headings.HasAnchor(l[h.idx]) then l
      else l[h.idx := Headings.Heading(h.level, h.text, Slugify(h.text))]
  }

  // ---------------------------------------------------------------------
  // Display texts
  // ---------------------------------------------------------------------

  /** Number of characters other than `c` immediately before index `e`. */
  function OtherRunBack(s: string, e: nat, c: char): (k: nat)
    requires e <= |s|
    ensures k <= e
    ensures forall i :: e - k <= i < e ==> s[i] != c
    ensures k == e || s[e - k - 1] == c
  {
    if e == 0 || s[e - 1] == c then 0 else 1 + OtherRunBack(s, e - 1, c)
  }

  /** Number of whitespace characters immediately before index `e`. */
  function SpaceRunBack(s: string, e: nat): (k: nat)
    requires e <= |s|
    ensures k <= e
    ensures forall i :: e - k <= i < e ==> IsSpace(s[i])
  {
    if e == 0 || !IsSpace(s[e - 1]) then 0 else 1 + SpaceRunBack(s, e - 1)
  }

  /** The first `{#` at or after `b` that leaves at least one character before index `e`. */
  function FindOpen(s: string, b: nat, e: nat): (r: Option<nat>)
    requires e <= |s|
    ensures r.Some? ==> b <= r.value && r.value + 2 < e && s[r.value] == '{' && s[r.value + 1] == '#'
    decreases e - b
  {
    if b + 2 >= e then None
    else if s[b] == '{' && s[b + 1] == '#' then Some(b)
    else FindOpen(s, b + 1, e)
  }

  /**
   * Where `\s*\{#[^}]+\}\s*$` first matches: the text ends (before any
   * trailing whitespace) with `}`, and the token opens at the first `{#`
   * after the last other `}`; the match takes the whitespace before it.
   */
  function AnchorTail(t: string): (r: Option<nat>)
    ensures r.Some? ==> r.value <= |t|
  {
    var u := RStrip(t);
    RStripPrefix(t);
    if u == [] || u[|u| - 1] != '}' then None
    else
      var z := |u| - 1 - OtherRunBack(u, |u| - 1, '}');
      match FindOpen(u, z, |u| - 1)
      case None => None
      case Some(b) => Some(b - SpaceRunBack(u, b))
  }

  /** A trailing `{#...}` anchor, with the whitespace around it, removed. */
  function DropAnchorTail(t: string): (r: string)
    ensures |r| <= |t|
  {
    match AnchorTail(t)
    case None => t
    case Some(p) => t[..p]
  }

  predicate IsRomanLetter(c: char) {
    c in "IVXLCDMivxlcdm"
  }

  function RomanLetterRun(s: string, p: nat): (n: nat)
    requires p <= |s|
    ensures p + n <= |s|
    decreases |s| - p
  {
    if p == |s| || !IsRomanLetter(s[p]) then 0 else 1 + RomanLetterRun(s, p + 1)
  }

  /** The end of the greedy `(?:\d+\.)*` that starts at `p`. */
  function DotGroups(s: string, p: nat): (e: nat)
    requires p <= |s|
    ensures p <= e <= |s|
    decreases |s| - p
  {
    if p < |s| && IsDigit(s[p]) && p + DigitRun(s, p) < |s| && s[p + DigitRun(s, p)] == '.' then
      DotGroups(s, p + DigitRun(s, p) + 1)
    else p
  }

  /**
   * Where `^\s*(?:\d+\.)+\s*|\s*^[IVXLCDMivxlcdm]+\.\s*|^\s*[A-Z]\.\s*`
   * ends, or 0 when none of its alternatives matches: dotted numbers,
   * a roman numeral with a dot, or one capital letter with a dot.
   */
  function NumberPrefix(d: string): (n: nat)
    ensures n <= |d|
  {
    var w := SpaceRun(d, 0);
    var e := DotGroups(d, w);
    var r := RomanLetterRun(d, 0);
    if e > w then e + SpaceRun(d, e)
    else if r >= 1 && r < |d| && d[r] == '.' then r + 1 + SpaceRun(d, r + 1)
    else if w + 1 < |d| && IsUpper(d[w]) && d[w + 1] == '.' then w + 2 + SpaceRun(d, w + 2)
    else 0
  }

  /** A span `D([^c]+)D` starts at `p`, where `D` is `w` copies of `c`. */
  predicate Opens(s: string, p: nat, c: char, w: nat)
    requires p <= |s|
  {
    CharRun(s, p, c) >= w && FindChar(s, c, p + w) > p + w && CharRun(s, FindChar(s, c, p + w), c) >= w
  }

  /** `re.sub` of `D([^c]+)D` by its group, from index `p` on. */
  function UnwrapFrom(s: string, p: nat, c: char, w: nat): (r: string)
    requires p <= |s|
    decreases |s| - p
  {
    if p == |s| then []
    else if Opens(s, p, c, w) then
      s[p + w..FindChar(s, c, p + w)] + UnwrapFrom(s, FindChar(s, c, p + w) + w, c, w)
    else [s[p]] + UnwrapFrom(s, p + 1, c, w)
  }

  function Unwrap(s: string, c: char, w: nat): string {
    UnwrapFrom(s, 0, c, w)
  }

  /** One markup substitution: spans delimited by `width` copies of `mark` are replaced by their content. */
  datatype Pass = Pass(mark: char, width: nat)

  /** The six substitutions of the display text, in order: `**`, `__`, `*`, `_`, backticks, `~~`. */
  const MarkPasses: seq<Pass> := [Pass('*', 2), Pass('_', 2), Pass('*', 1), Pass('_', 1), Pass('`', 1), Pass('~', 2)]

  /** The substitutions `ps` applied one after the other. */
  function UnwrapAll(s: string, ps: seq<Pass>): string
    decreases |ps|
  {
    if ps == [] then s else UnwrapAll(Unwrap(s, ps[0].mark, ps[0].width), ps[1..])
  }

  /** The markup unwrapping of the display text. */
  function Unmark(s: string): string {
    UnwrapAll(s, MarkPasses)
  }

  /**
   * The display text of a heading: without its anchor, its enumerator and
   * its inline markup, stripped; none when nothing is left once the anchor
   * is gone (a blank heading has no TOC entry).
   */
  function Display(text: string): Option<string> {
    var d := Strip(DropAnchorTail(text));
    if d == [] then None
    else Some(Strip(Unmark(Strip(d[NumberPrefix(d)..]))))
  }

  /** The node's anchor: the id the heading line ends with, or the slug of the display text. */
  function AnchorOf(line: string, display: string): string {
    var t := RStrip(line);
    match Headings.IdSuffix(t)
    case Some(q) => t[q + 2..|t| - 1]
    case None => Slugify(display)
  }

  /** The TOC entries of the headings of the anchored lines, blank headings skipped. */
  function Entries(lines: seq<string>, hs: seq<Heading>): seq<Entry>
    requires InRange(hs, |lines|)
  {
    if hs == [] then []
    else
      var h := Last(hs);
      Entries(lines, Init(hs))
        + match Display(h.text)
          case None => []
          case Some(d) => [Entry(h.level, d, AnchorOf(lines[h.idx], d))]
  }

  // ---------------------------------------------------------------------
  // The numbered tree and the spliced document
  // ---------------------------------------------------------------------

  /** The numbered tree of the entries. */
  function TocTreeOf(es: seq<Entry>): seq<TocNode> {
    BuildPre(es);
    Renumber(Build(es), Nums(es), 0)
  }

  /** The rows around the nested lists. */
  const Opening: seq<string> := [
    "<div class=\"generated-toc\" role=\"navigation\" aria-label=\"Table of contents\">",
    "<div class=\"toc-title\">Contents</div>",
    "<div class=\"toc-list\">"]
  const Closing: seq<string> := ["</div>", "</div>"]

  const PlaceholderStart: string := "<!--TOC_PLACEHOLDER_START-->"
  const PlaceholderEnd: string := "<!--TOC_PLACEHOLDER_END-->"

  /** The TOC's HTML, wrapped in the placeholder markers the renderer later replaces. */
  function Placeholder(g: seq<TocNode>): string {
    PlaceholderStart + Join(Opening + Htmls(Ol(g, 0)) + Closing, "\n") + PlaceholderEnd
  }

  /** Past the blank lines from `p` on. */
  function SkipBlank(lines: seq<string>, p: nat): (k: nat)
    requires p <= |lines|
    ensures p <= k <= |lines|
    decreases |lines| - p
  {
    if p < |lines| && Strip(lines[p]) == [] then SkipBlank(lines, p + 1) else p
  }

  /** Where the TOC goes: past the first level-1 heading and the blank lines after it when that heading is among the first 50 lines, else at the top. */
  function InsertIndex(lines: seq<string>, h1: Option<nat>): (k: nat)
    requires h1.Some? ==> h1.value < |lines|
    ensures k <= |lines|
  {
    if h1.Some? && h1.value < 50 then SkipBlank(lines, h1.value + 1) else 0
  }

  /** The placeholder and a blank line inserted before line `k`. */
  function Splice(ls: seq<string>, k: nat, placeholder: string): seq<string>
    requires k <= |ls|
  {
    ls[..k] + [placeholder, ""] + ls[k..]
  }

  /** The anchored lines with the placeholder line and an empty line spliced in. */
  function Spliced(lines: seq<string>, hs: seq<Heading>): seq<string>
    requires InRange(hs, |lines|)
  {
    FirstH1Sound(hs);
    var ls := Anchor(lines, hs);
    var g := TocTreeOf(Entries(ls, hs));
    Splice(ls, InsertIndex(ls, FirstH1(hs)), Placeholder(g))
  }

  /** `build_toc`: the document unchanged when it has no heading outside fences, else the spliced lines. */
  function BuildTocSpec(md: string): string {
    var lines := SplitLines(md);
    var hs := Scan(lines, |lines|);
    ScanSound(lines, |lines|);
    if hs == [] then md else Join(Spliced(lines, hs), "\n")
  }

  // ---------------------------------------------------------------------
  // Facts about the scan
  // ---------------------------------------------------------------------

  /** The scan finds heading lines only, in increasing line order, with the level and text `Atx` reads. */
  lemma {:induction false} ScanSound(lines: seq<string>, n: nat)
    requires n <= |lines|
    ensures InRange(Scan(lines, n), n)
    ensures forall j :: 0 <= j < |Scan(lines, n)| ==>
      var h := Scan(lines, n)[j];
      IsHeadingAt(lines, h.idx) && Atx(lines[h.idx]) == Some((h.level, h.text))
    ensures forall i, j :: 0 <= i < j < |Scan(lines, n)| ==> Scan(lines, n)[i].idx < Scan(lines, n)[j].idx
  {
    if n > 0 {
      ScanSound(lines, n - 1);
    }
  }

  /** Every heading line among the first `n` is found. */
  lemma {:induction false} ScanComplete(lines: seq<string>, n: nat, i: nat)
    requires i < n <= |lines| && IsHeadingAt(lines, i)
    ensures exists j :: 0 <= j < |Scan(lines, n)| && Scan(lines, n)[j].idx == i
  {
    if i < n - 1 {
      ScanComplete(lines, n - 1, i);
      var j :| 0 <= j < |Scan(lines, n - 1)| && Scan(lines, n - 1)[j].idx == i;
      assert Scan(lines, n)[j] == Scan(lines, n - 1)[j];
    } else {
      assert Scan(lines, n)[|Scan(lines, n - 1)|].idx == i;
    }
  }

  /** The scan finds nothing exactly when no line is a heading outside a fence. */
  lemma ScanEmpty(lines: seq<string>)
    ensures Scan(lines, |lines|) == [] <==> forall i :: 0 <= i < |lines| ==> !IsHeadingAt(lines, i)
  {
    ScanSound(lines, |lines|);
    if Scan(lines, |lines|) != [] {
      assert IsHeadingAt(lines, Scan(lines, |lines|)[0].idx);
    }
    if exists i :: 0 <= i < |lines| && IsHeadingAt(lines, i) {
      var i :| 0 <= i < |lines| && IsHeadingAt(lines, i);
      ScanComplete(lines, |lines|, i);
    }
  }

  /** The first level-1 heading is a level-1 heading, and none before it is. */
  lemma {:induction false} FirstH1Sound(hs: seq<Heading>)
    ensures FirstH1(hs).Some? ==> exists j :: (0 <= j < |hs| && hs[j].idx == FirstH1(hs).value && hs[j].level == 1
      && forall m :: 0 <= m < j ==> hs[m].level != 1)
    ensures FirstH1(hs).None? ==> forall m :: 0 <= m < |hs| ==> hs[m].level != 1
  {
    if hs != [] {
      FirstH1Sound(Init(hs));
      if FirstH1(Init(hs)).Some? {
        var j :| 0 <= j < |Init(hs)| && Init(hs)[j].idx == FirstH1(hs).value && Init(hs)[j].level == 1
          && forall m :: 0 <= m < j ==> Init(hs)[m].level != 1;
        assert hs[j] == Init(hs)[j];
      } else if Last(hs).level == 1 {
        assert hs[|hs| - 1].idx == FirstH1(hs).value;
      }
    }
  }

  // ---------------------------------------------------------------------
  // Facts about the explicit ids and the insertion point
  // ---------------------------------------------------------------------

  predicate Increasing(hs: seq<Heading>) {
    forall i, j :: 0 <= i < j < |hs| ==> hs[i].idx < hs[j].idx
  }

  /** What the id pass writes on a heading line. */
  function Anchored(line: string, h: Heading): string {
    if Headings.HasAnchor(line) then line else Headings.Heading(h.level, h.text, Slugify(h.text))
  }

  /** A line that is no heading's keeps its text through the id pass. */
  lemma {:induction false} AnchorElsewhere(lines: seq<string>, hs: seq<Heading>, i: nat)
    requires InRange(hs, |lines|) && i < |lines|
    requires forall j :: 0 <= j < |hs| ==> hs[j].idx != i
    ensures Anchor(lines, hs)[i] == lines[i]
  {
    if hs != [] {
      assert Last(hs) == hs[|hs| - 1];
      AnchorElsewhere(lines, Init(hs), i);
    }
  }

  /** A heading line without an id gets the canonical line with the slug of its text; one with an id is kept. */
  lemma {:induction false} AnchorAtHeading(lines: seq<string>, hs: seq<Heading>, j: nat)
    requires InRange(hs, |lines|) && Increasing(hs) && j < |hs|
    ensures Anchor(lines, hs)[hs[j].idx] == Anchored(lines[hs[j].idx], hs[j])
  {
    var h := Last(hs);
    if j == |hs| - 1 {
      AnchorElsewhere(lines, Init(hs), h.idx);
    } else {
      assert Init(hs)[j] == hs[j] && hs[j].idx < h.idx;
      AnchorAtHeading(lines, Init(hs), j);
    }
  }

  /** A line the id pass rewrites leads its TOC entry to the slug it was given, when that slug is not empty. */
  lemma AnchorOfRewritten(h: Heading, d: string)
    requires Slugify(h.text) != []
    ensures Headings.HasAnchor(Headings.Heading(h.level, h.text, Slugify(h.text)))
    ensures AnchorOf(Headings.Heading(h.level, h.text, Slugify(h.text)), d) == Slugify(h.text)
  {
    var slug := Slugify(h.text);
    var a := Repeat('#', h.level) + " " + h.text + " ";
    var line := Headings.Heading(h.level, h.text, slug);
    assert line == a + "{#" + slug + "}";
    SlugifyIsSlug(h.text);
    SlugIsId(slug);
    Headings.IdSuffixComplete(a, slug);
    assert RStrip(line) == line;
    assert line[|a| + 2..|line| - 1] == slug;
  }

  /**
   * The TOC goes after the first level-1 heading and the blank lines that
   * follow it when that heading is among the first 50 lines, else first.
   */
  lemma {:induction false} SkipBlankFacts(lines: seq<string>, p: nat)
    requires p <= |lines|
    ensures forall i :: p <= i < SkipBlank(lines, p) ==> Strip(lines[i]) == []
    ensures SkipBlank(lines, p) == |lines| || Strip(lines[SkipBlank(lines, p)]) != []
    decreases |lines| - p
  {
    if p < |lines| && Strip(lines[p]) == [] {
      SkipBlankFacts(lines, p + 1);
    }
  }

  lemma InsertIndexFacts(lines: seq<string>, h1: Option<nat>)
    requires h1.Some? ==> h1.value < |lines|
    ensures h1.None? || h1.value >= 50 ==> InsertIndex(lines, h1) == 0
    ensures h1.Some? && h1.value < 50 ==> var k := InsertIndex(lines, h1);
      && h1.value < k
      && (forall i :: h1.value < i < k ==> Strip(lines[i]) == [])
      && (k == |lines| || Strip(lines[k]) != [])
  {
    if h1.Some? && h1.value < 50 {
      SkipBlankFacts(lines, h1.value + 1);
    }
  }

  // ---------------------------------------------------------------------
  // The source's loops
  // ---------------------------------------------------------------------

  /** The heading scan: toggle the fence state on fence lines, skip lines inside fences, collect ATX lines. */
  method ScanHeadings(lines: seq<string>) returns (hs: seq<Heading>, h1: Option<nat>)
    ensures hs == Scan(lines, |lines|) && h1 == FirstH1(hs)
  {
    hs := [];
    h1 := None;
    var inCode := false;
    for idx := 0 to |lines|
      invariant hs == Scan(lines, idx) && h1 == FirstH1(hs)
      invariant inCode == InCodeAt(lines, idx)
    {
      InCodeStep(lines, idx);
      var line := lines[idx];
      if IsFenceLine(line) {
        inCode := !inCode;
      } else if !inCode {
        var m := Atx(line);
        if m.Some? {
          var h := Heading(m.value.0, m.value.1, idx);
          InitLast(hs, h);
          if m.value.0 == 1 && h1.None? {
            h1 := Some(idx);
          }
          hs := hs + [h];
        }
      }
    }
  }

  /** The id pass, rewriting the heading lines in place. */
  method EnsureIds(lines: seq<string>, hs: seq<Heading>) returns (out: seq<string>)
    requires InRange(hs, |lines|)
    ensures out == Anchor(lines, hs)
  {
    out := lines;
    for i := 0 to |hs|
      invariant out == Anchor(lines, hs[..i])
    {
      var h := hs[i];
      TakeSnoc(hs, i);
      if !Headings.HasAnchor(out[h.idx]) {
        out := out[h.idx := Headings.Heading(h.level, h.text, Slugify(h.text))];
      }
    }
    TakeAll(hs);
  }

  /** The node list of `build_hierarchy_tree`: one entry per heading whose display text is not blank. */
  method TocEntries(lines: seq<string>, hs: seq<Heading>) returns (es: seq<Entry>)
    requires InRange(hs, |lines|)
    ensures es == Entries(lines, hs)
  {
    es := [];
    for i := 0 to |hs|
      invariant es == Entries(lines, hs[..i])
    {
      var h := hs[i];
      TakeSnoc(hs, i);
      var d := Display(h.text);
      if d.Some? {
        es := es + [Entry(h.level, d.value, AnchorOf(lines[h.idx], d.value))];
      }
    }
    TakeAll(hs);
  }

  /** The insertion point: one past the first level-1 heading, then past blank lines, when that heading is near the top. */
  method FindInsertIndex(lines: seq<string>, h1: Option<nat>) returns (k: nat)
    requires h1.Some? ==> h1.value < |lines|
    ensures k == InsertIndex(lines, h1)
  {
    k := 0;
    if h1.Some? && h1.value < 50 {
      k := h1.value + 1;
      while k < |lines| && Strip(lines[k]) == []
        invariant h1.value + 1 <= k <= |lines|
        invariant SkipBlank(lines, k) == SkipBlank(lines, h1.value + 1)
        decreases |lines| - k
      {
        k := k + 1;
      }
    }
  }

  /** The tree, its numbers and its HTML: `build_hierarchy_tree`, `assign_numbers`, `build_nested_toc_items` and the wrapping rows. */
  method TocPlaceholder(es: seq<Entry>) returns (placeholder: string)
    ensures placeholder == Placeholder(TocTreeOf(es))
  {
    var tree := BuildHierarchy(es);
    BuildPre(es);
    BuildPlaced(es);
    AgreesEmpty(es);
    var numbered, _ := AssignNumbers(tree, "", map[], es, Nums(es), 0, None);
    var items := BuildNestedItems(numbered, 0);
    var rows := Opening + items + Closing;
    placeholder := PlaceholderStart + Join(rows, "\n") + PlaceholderEnd;
  }

  /** `build_toc`. */
  method BuildToc(md: string) returns (r: string)
    ensures r == BuildTocSpec(md)
  {
    var lines := SplitLines(md);
    var hs, h1 := ScanHeadings(lines);
    if hs == [] {
      return md;
    }
    ScanSound(lines, |lines|);
    FirstH1Sound(hs);
    var ls := EnsureIds(lines, hs);
    var es := TocEntries(ls, hs);
    var placeholder := TocPlaceholder(es);
    var k := FindInsertIndex(ls, h1);
    r := Join(ls[..k] + [placeholder, ""] + ls[k..], "\n");
    assert ls[..k] + [placeholder, ""] + ls[k..] == Splice(ls, k, placeholder);
  }

  // ---------------------------------------------------------------------
  // What the TOC holds and where it goes
  // ---------------------------------------------------------------------

  /**
   * The TOC lists every entry once, in document order, the `k`-th with
   * the number `Num` gives it; it has one `<li` and one `</li>` line per
   * entry and balanced `<ol`/`</ol>` lines.
   */
  lemma TocContents(es: seq<Entry>)
    ensures ItemEntries(Ol(TocTreeOf(es), 0)) == es
    ensures Size(TocTreeOf(es)) == |es|
    ensures forall k :: 0 <= k < |es| ==> NumberAt(TocTreeOf(es), k) == Num(es, k)
    ensures CountLines(Ol(TocTreeOf(es), 0)).items == CountLines(Ol(TocTreeOf(es), 0)).liCloses == |es|
    ensures CountLines(Ol(TocTreeOf(es), 0)).opens == CountLines(Ol(TocTreeOf(es), 0)).closes
  {
    var b := Build(es);
    var nums := Nums(es);
    var t := TocTreeOf(es);
    BuildPre(es);
    assert t == Renumber(b, nums, 0);
    RenumberFacts(b, nums, 0);
    assert Pre(t) == es;
    OlContents(t, 0);
    forall k | 0 <= k < |es|
      ensures NumberAt(t, k) == Num(es, k)
    {
      RenumberNums(b, es, k);
    }
  }

  /** A document without a heading outside fences comes back unchanged. */
  lemma NoHeadingsUnchanged(md: string)
    requires forall i :: 0 <= i < |SplitLines(md)| ==> !IsHeadingAt(SplitLines(md), i)
    ensures BuildTocSpec(md) == md
  {
    ScanEmpty(SplitLines(md));
  }

  /**
   * The spliced lines: two more than the input, the placeholder and an
   * empty line at the insertion point, every line of the input before
   * them or two places further on.
   */
  lemma SpliceFacts(ls: seq<string>, k: nat, p: string)
    requires k <= |ls|
    ensures var out := Splice(ls, k, p);
      && |out| == |ls| + 2
      && out[k] == p && out[k + 1] == ""
      && (forall i :: 0 <= i < k ==> out[i] == ls[i])
      && (forall i :: k <= i < |ls| ==> out[i + 2] == ls[i])
  {
  }

  /** The numbers of the worked example: levels 1, 2, 2, 3, 2, 1, 2 are numbered 1, 1.1, 1.2, 1.2.1, 1.3, 2, 2.1. */
  lemma NumberingExample(es: seq<Entry>)
    requires |es| == 7
    requires es[0].level == 1 && es[1].level == 2 && es[2].level == 2 && es[3].level == 3
    requires es[4].level == 2 && es[5].level == 1 && es[6].level == 2
    ensures Num(es, 0) == "1" && Num(es, 1) == "1.1" && Num(es, 2) == "1.2" && Num(es, 3) == "1.2.1"
    ensures Num(es, 4) == "1.3" && Num(es, 5) == "2" && Num(es, 6) == "2.1"
  {
    assert NearestLower(es, 0, 1) == None;
    assert CountSince(es, 1, 1) == 1;
    assert NearestLower(es, 1, 2) == Some(0) && CountSince(es, 2, 2) == 1;
    assert NearestLower(es, 2, 2) == Some(0) && CountSince(es, 3, 2) == 2;
    assert NearestLower(es, 3, 3) == Some(2) && CountSince(es, 4, 3) == 1;
    assert NearestLower(es, 4, 2) == Some(0) && CountSince(es, 5, 2) == 3;
    assert CountSince(es, 2, 1) == 1 && CountSince(es, 3, 1) == 1 && CountSince(es, 4, 1) == 1;
    assert CountSince(es, 5, 1) == 1;
    assert NearestLower(es, 5, 1) == None && CountSince(es, 6, 1) == 2;
    assert NearestLower(es, 6, 2) == Some(5) && CountSince(es, 7, 2) == 1;
  }

  // ---------------------------------------------------------------------
  // Facts about the display text
  // ---------------------------------------------------------------------

  /** The characters of `s` from `p` on, without the `c` characters. */
  function WithoutFrom(s: string, p: nat, c: char): (r: string)
    requires p <= |s|
    decreases |s| - p
  {
    if p == |s| then [] else (if s[p] == c then [] else [s[p]]) + WithoutFrom(s, p + 1, c)
  }

  /** `s` without its `c` characters. */
  function Without(s: string, c: char): string {
    WithoutFrom(s, 0, c)
  }

  lemma {:induction false} WithoutShift(a: string, b: string, j: nat, c: char)
    requires j <= |b|
    ensures WithoutFrom(a + b, |a| + j, c) == WithoutFrom(b, j, c)
    decreases |b| - j
  {
    if j < |b| {
      WithoutShift(a, b, j + 1, c);
      assert (a + b)[|a| + j] == b[j];
    }
  }

  lemma {:induction false} WithoutFromAppend(a: string, b: string, i: nat, c: char)
    requires i <= |a|
    ensures WithoutFrom(a + b, i, c) == WithoutFrom(a, i, c) + WithoutFrom(b, 0, c)
    decreases |a| - i
  {
    if i == |a| {
      WithoutShift(a, b, 0, c);
    } else {
      WithoutFromAppend(a, b, i + 1, c);
      assert (a + b)[i] == a[i];
    }
  }

  lemma {:induction false} WithoutFromNone(s: string, i: nat, c: char)
    requires i <= |s| && forall k :: i <= k < |s| ==> s[k] != c
    ensures WithoutFrom(s, i, c) == s[i..]
    decreases |s| - i
  {
    if i < |s| {
      WithoutFromNone(s, i + 1, c);
      assert s[i..] == [s[i]] + s[i + 1..];
    }
  }

  /** A run of delimiters contributes nothing. */
  lemma {:induction false} SkipRun(s: string, p: nat, n: nat, c: char)
    requires p + n <= |s| && forall i :: p <= i < p + n ==> s[i] == c
    ensures WithoutFrom(s, p, c) == WithoutFrom(s, p + n, c)
    decreases n
  {
    if n > 0 {
      SkipRun(s, p + 1, n - 1, c);
    }
  }

  /** A run free of delimiters is kept as it is. */
  lemma KeepRun(s: string, p: nat, e: nat, c: char)
    requires p <= e <= |s| && forall i :: p <= i < e ==> s[i] != c
    ensures WithoutFrom(s, p, c) == s[p..e] + WithoutFrom(s, e, c)
  {
    var a, b := s[..e], s[e..];
    assert s == a + b;
    WithoutFromAppend(a, b, p, c);
    WithoutFromNone(a, p, c);
    WithoutShift(a, b, 0, c);
  }

  /** In the source text, a span opening at `p` contributes what lies between its delimiters. */
  lemma SpanSource(s: string, p: nat, c: char, w: nat)
    requires p <= |s| && Opens(s, p, c, w)
    ensures var e := FindChar(s, c, p + w);
      e + w <= |s| && WithoutFrom(s, p, c) == s[p + w..e] + WithoutFrom(s, e + w, c)
  {
    var e := FindChar(s, c, p + w);
    SkipRun(s, p, w, c);
    KeepRun(s, p + w, e, c);
    SkipRun(s, e, w, c);
  }

  /** Text free of the delimiter, put in front, is kept as it is. */
  lemma KeepFront(m: string, rest: string, c: char)
    requires forall i :: 0 <= i < |m| ==> m[i] != c
    ensures Without(m + rest, c) == m + Without(rest, c)
  {
    WithoutFromAppend(m, rest, 0, c);
    WithoutFromNone(m, 0, c);
    assert m[0..] == m;
  }

  /** An unwrapped span keeps what lies between the delimiters and drops the delimiters. */
  lemma UnwrapSpan(s: string, p: nat, c: char, w: nat, rest: string)
    requires p <= |s| && Opens(s, p, c, w)
    requires Without(rest, c) == WithoutFrom(s, FindChar(s, c, p + w) + w, c)
    ensures Without(s[p + w..FindChar(s, c, p + w)] + rest, c) == WithoutFrom(s, p, c)
  {
    var e := FindChar(s, c, p + w);
    var m := s[p + w..e];
    SpanSource(s, p, c, w);
    assert forall i :: 0 <= i < |m| ==> m[i] != c;
    KeepFront(m, rest, c);
  }

  lemma WithoutCons(x: char, u: string, c: char)
    ensures Without([x] + u, c) == (if x == c then [] else [x]) + Without(u, c)
  {
    WithoutShift([x], u, 0, c);
  }

  /** Unwrapping removes delimiter characters only: every other character stays, in order. */
  lemma {:induction false} UnwrapKeeps(s: string, p: nat, c: char, w: nat)
    requires p <= |s|
    ensures Without(UnwrapFrom(s, p, c, w), c) == WithoutFrom(s, p, c)
    decreases |s| - p, 1
  {
    if p < |s| {
      if Opens(s, p, c, w) {
        UnwrapKeepsOpen(s, p, c, w);
      } else {
        UnwrapKeeps(s, p + 1, c, w);
        WithoutCons(s[p], UnwrapFrom(s, p + 1, c, w), c);
      }
    }
  }

  lemma {:induction false} UnwrapKeepsOpen(s: string, p: nat, c: char, w: nat)
    requires p < |s| && Opens(s, p, c, w)
    ensures Without(UnwrapFrom(s, p, c, w), c) == WithoutFrom(s, p, c)
    decreases |s| - p, 0
  {
    var e := FindChar(s, c, p + w);
    UnwrapKeeps(s, e + w, c, w);
    UnwrapSpan(s, p, c, w, UnwrapFrom(s, e + w, c, w));
  }

  /** Each markup substitution deletes copies of its own delimiter and nothing else. */
  lemma UnwrapOnlyDelimiters(s: string, c: char, w: nat)
    ensures Without(Unwrap(s, c, w), c) == Without(s, c)
  {
    UnwrapKeeps(s, 0, c, w);
  }

  /** Text without the delimiter is left as it is. */
  lemma {:induction false} UnwrapPlain(s: string, p: nat, c: char, w: nat)
    requires p <= |s| && w >= 1 && forall i :: p <= i < |s| ==> s[i] != c
    ensures UnwrapFrom(s, p, c, w) == s[p..]
    decreases |s| - p
  {
    if p < |s| {
      UnwrapPlain(s, p + 1, c, w);
      assert s[p..] == [s[p]] + s[p + 1..];
    }
  }

  /** Text free of every delimiter of `ps` comes through all the substitutions unchanged. */
  lemma {:induction false} UnwrapAllPlain(s: string, ps: seq<Pass>)
    requires forall k :: 0 <= k < |ps| ==> ps[k].width >= 1
    requires forall i, k :: 0 <= i < |s| && 0 <= k < |ps| ==> s[i] != ps[k].mark
    ensures UnwrapAll(s, ps) == s
    decreases |ps|
  {
    if ps != [] {
      UnwrapPlain(s, 0, ps[0].mark, ps[0].width);
      assert s[0..] == s;
      UnwrapAllPlain(s, ps[1..]);
    }
  }

  /** A display text without `*`, `_`, backticks or `~` has no markup to unwrap. */
  lemma UnmarkPlain(s: string)
    requires forall i :: 0 <= i < |s| ==> s[i] != '*' && s[i] != '_' && s[i] != '`' && s[i] != '~'
    ensures Unmark(s) == s
  {
    UnwrapAllPlain(s, MarkPasses);
  }

  lemma {:induction false} OtherRunBackAll(s: string, e: nat, c: char)
    requires e <= |s| && forall i :: 0 <= i < e ==> s[i] != c
    ensures OtherRunBack(s, e, c) == e
  {
  }

  lemma {:induction false} FindOpenSkip(s: string, b: nat, m: nat, e: nat)
    requires b <= m && e <= |s| && m + 2 < e
    requires forall i :: b <= i < m ==> s[i] != '{'
    ensures FindOpen(s, b, e) == FindOpen(s, m, e)
    decreases m - b
  {
    if b < m {
      FindOpenSkip(s, b + 1, m, e);
    }
  }

  /** A text ending in ` {#id}` ends in `}`, with no other `}` before it. */
  lemma OwnAnchorClose(a: string, id: string)
    requires IsId(id)
    requires forall i :: 0 <= i < |a| ==> a[i] != '}'
    ensures var t := a + " {#" + id + "}";
      && RStrip(t) == t && t[|t| - 1] == '}'
      && OtherRunBack(t, |t| - 1, '}') == |t| - 1
  {
    var t := a + " {#" + id + "}";
    assert t[|t| - 1] == '}' && !IsSpace('}');
    assert RStrip(t) == t;
    assert forall i :: 0 <= i < |id| ==> t[|a| + 3 + i] == id[i];
    assert forall i :: 0 <= i < |t| - 1 ==> t[i] != '}';
    OtherRunBackAll(t, |t| - 1, '}');
  }

  /** In a text ending in ` {#id}`, the first `{#` is the anchor's, with one space before it. */
  lemma OwnAnchorOpen(a: string, id: string)
    requires IsId(id)
    requires forall i :: 0 <= i < |a| ==> a[i] != '{'
    requires a == [] || !IsSpace(a[|a| - 1])
    ensures var t := a + " {#" + id + "}";
      && FindOpen(t, 0, |t| - 1) == Some(|a| + 1)
      && SpaceRunBack(t, |a| + 1) == 1
  {
    var t := a + " {#" + id + "}";
    assert forall i :: 0 <= i < |a| + 1 ==> t[i] != '{';
    FindOpenSkip(t, 0, |a| + 1, |t| - 1);
    assert FindOpen(t, |a| + 1, |t| - 1) == Some(|a| + 1);
    assert t[|a|] == ' ';
  }

  /** A heading text ending in its own ` {#id}` shows without it in the TOC. */
  lemma DropOwnAnchor(a: string, id: string)
    requires IsId(id)
    requires forall i :: 0 <= i < |a| ==> a[i] != '{' && a[i] != '}'
    requires a == [] || !IsSpace(a[|a| - 1])
    ensures DropAnchorTail(a + " {#" + id + "}") == a
  {
    var t := a + " {#" + id + "}";
    OwnAnchorClose(a, id);
    OwnAnchorOpen(a, id);
    assert AnchorTail(t) == Some(|a|);
    assert t[..|a|] == a;
  }
}
