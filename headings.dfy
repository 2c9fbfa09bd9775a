/**
 * `normalize_headings` (docnexus/features/standard.py:39-145): every ATX,
 * setext and implicit heading outside code fences becomes a canonical
 * `#… text {#slug}` line.
 */
module Headings {
  import opened Text
  import opened Slug
  import opened Heuristics

  // ---------------------------------------------------------------------
  // Anchors and ATX headings
  // ---------------------------------------------------------------------

  /** Number of anchor-id characters immediately before index `e`. */
  function IdRunBack(t: string, e: nat): (k: nat)
    requires e <= |t|
    ensures k <= e
    ensures forall i :: e - k <= i < e ==> IsIdChar(t[i])
    ensures k == e || !IsIdChar(t[e - k - 1])
  {
    if e == 0 || !IsIdChar(t[e - 1]) then 0 else 1 + IdRunBack(t, e - 1)
  }

  /**
   * `\{#([A-Za-z0-9_-]+)\}$` on `t`: the index of the `{` of a final
   * `{#id}` token. Id characters exclude `{`, `#` and `}`, so the token is
   * found by reading the id backwards from the final `}`.
   */
  function IdSuffix(t: string): (r: Option<nat>)
    ensures r.Some? ==> var q := r.value;
      && q + 4 <= |t|
      && t[q] == '{' && t[q + 1] == '#' && t[|t| - 1] == '}'
      && IsId(t[q + 2..|t| - 1])
  {
    if |t| < 4 || t[|t| - 1] != '}' then None
    else
      var k := IdRunBack(t, |t| - 1);
      if k >= 1 && k + 3 <= |t| && t[|t| - 2 - k] == '#' && t[|t| - 3 - k] == '{' then
        Some(|t| - 3 - k)
      else None
  }

  /** Every way of writing `t` as `a + "{#" + id + "}"` is the one `IdSuffix` finds. */
  lemma IdSuffixComplete(a: string, id: string)
    requires IsId(id)
    ensures IdSuffix(a + "{#" + id + "}") == Some(|a|)
  {
    var t := a + "{#" + id + "}";
    assert forall i :: 0 <= i < |id| ==> t[|a| + 2 + i] == id[i];
    var k := IdRunBack(t, |t| - 1);
    assert t[|a| + 1] == '#' && !IsIdChar('#');
    assert k == |id|;
  }

  /** `t` carries an anchor at its end, once trailing whitespace is ignored. */
  predicate HasAnchor(line: string) {
    IdSuffix(RStrip(line)).Some?
  }

  datatype Atx = Atx(level: nat, text: string, id: Option<string>)

  /**
   * `^(#{1,6})\s+(.*?)(\s*\{#([A-Za-z0-9_-]+)\})?\s*$`: one to six `#`, at
   * least one whitespace character, then the text, optionally followed by a
   * `{#id}` anchor. The text is stripped, as the source does with `.strip()`.
   */
  function ParseAtx(line: string): (r: Option<Atx>)
    ensures r.Some? ==> 1 <= r.value.level <= 6
    ensures r.Some? ==> r.value.level < |line| && forall i :: 0 <= i < r.value.level ==> line[i] == '#'
    ensures r.Some? && r.value.id.Some? ==> IsId(r.value.id.value)
  {
    var h := CharRun(line, 0, '#');
    if h < 1 || h > 6 || h >= |line| || !IsSpace(line[h]) then None
    else
      var t := Strip(line[h..]);
      match IdSuffix(t)
      case None => Some(Atx(h, t, None))
      case Some(q) => Some(Atx(h, Strip(t[..q]), Some(t[q + 2..|t| - 1])))
  }

  /** The canonical heading line the pass writes: `'#'*level + ' ' + text + ' {#slug}'`. */
  function Heading(level: nat, text: string, slug: string): string {
    Repeat('#', level) + " " + text + " {#" + slug + "}"
  }

  lemma StripOfStripped(text: string)
    requires Strip(text) == text
    ensures Strip(text + " ") == text
  {
    if text != [] {
      assert !IsSpace(text[0]) && !IsSpace(text[|text| - 1]);
      assert RStrip(text + " ") == RStrip(text) by {
        assert (text + " ")[..|text + " "| - 1] == text;
      }
    }
  }

  /** What the parser sees after the `#`s of a canonical heading, once stripped. */
  function AnchoredPrefix(text: string): string {
    if text == [] then [] else text + " "
  }

  lemma HeadingTail(level: nat, text: string, slug: string)
    requires Strip(text) == text
    requires IsId(slug)
    ensures |Heading(level, text, slug)| > level
    ensures Strip(Heading(level, text, slug)[level..]) == AnchoredPrefix(text) + "{#" + slug + "}"
  {
    var line := Heading(level, text, slug);
    var t := AnchoredPrefix(text) + "{#" + slug + "}";
    assert |Repeat('#', level)| == level;
    assert t[|t| - 1] == '}';
    if text == [] {
      assert line[level..] == "  " + t;
      LStripSpaces("  ", t);
    } else {
      assert line[level..] == " " + t;
      assert t[0] == text[0];
      LStripSpaces(" ", t);
    }
  }

  lemma AnchoredParts(text: string, slug: string)
    requires Strip(text) == text
    requires IsId(slug)
    ensures var t := AnchoredPrefix(text) + "{#" + slug + "}";
      && IdSuffix(t) == Some(|AnchoredPrefix(text)|)
      && Strip(t[..|AnchoredPrefix(text)|]) == text
      && t[|AnchoredPrefix(text)| + 2..|t| - 1] == slug
  {
    var a := AnchoredPrefix(text);
    var t := a + "{#" + slug + "}";
    IdSuffixComplete(a, slug);
    assert t[..|a|] == a;
    assert t[|a| + 2..|t| - 1] == slug;
    StripOfStripped(text);
  }

  /** A line whose `#` run and stripped tail have the canonical shape parses to its parts. */
  lemma ParseAnchored(line: string, level: nat, text: string, slug: string)
    requires 1 <= level <= 6
    requires Strip(text) == text
    requires IsId(slug)
    requires level < |line| && CharRun(line, 0, '#') == level && line[level] == ' '
    requires Strip(line[level..]) == AnchoredPrefix(text) + "{#" + slug + "}"
    ensures ParseAtx(line) == Some(Atx(level, text, Some(slug)))
  {
    var a := AnchoredPrefix(text);
    var t := a + "{#" + slug + "}";
    AnchoredParts(text, slug);
    assert ParseAtx(line) == Some(Atx(level, Strip(t[..|a|]), Some(t[|a| + 2..|t| - 1])));
  }

  /**
   * A canonical heading reads back as itself: same level, same text, and the
   * slug as its anchor. So a second pass keeps it unchanged.
   */
  lemma HeadingReparses(level: nat, text: string, slug: string)
    requires 1 <= level <= 6
    requires Strip(text) == text
    requires IsId(slug)
    ensures ParseAtx(Heading(level, text, slug)) == Some(Atx(level, text, Some(slug)))
  {
    var line := Heading(level, text, slug);
    assert CharRun(line, 0, '#') == level && line[level] == ' ' by {
      assert line == Repeat('#', level) + (" " + text + " {#" + slug + "}");
      CharRunRepeat('#', level, " " + text + " {#" + slug + "}");
    }
    HeadingTail(level, text, slug);
    ParseAnchored(line, level, text, slug);
  }

  // ---------------------------------------------------------------------
  // Setext underlines
  // ---------------------------------------------------------------------

  /** `^[=]{3,}\s*$`. */
  predicate IsEqualsUnderline(line: string) {
    var k := CharRun(line, 0, '=');
    k >= 3 && AllSpace(line[k..])
  }

  /** `^-{3,}\s*$`. */
  predicate IsDashUnderline(line: string) {
    var k := CharRun(line, 0, '-');
    k >= 3 && AllSpace(line[k..])
  }

  /** Line `i` is the text of a `===` setext heading. */
  predicate SetextEquals(lines: seq<string>, i: nat)
    requires i < |lines|
  {
    i + 1 < |lines| && IsEqualsUnderline(lines[i + 1]) && Strip(lines[i]) != []
  }

  /** Line `i` is the text of a `---` setext heading: not a rule under a blank line, and at most 100 characters. */
  predicate SetextDash(lines: seq<string>, i: nat)
    requires i < |lines|
  {
    && i + 1 < |lines| && IsDashUnderline(lines[i + 1])
    && Strip(lines[i]) != []
    && !PrevBlank(lines, i)
    && |Strip(lines[i])| <= 100
  }

  // ---------------------------------------------------------------------
  // The pre-pass: seed the counter with every ATX heading's slug
  // ---------------------------------------------------------------------

  /** The slug an ATX heading already claims: its anchor, or the slug of its text (possibly empty). */
  function ClaimedSlug(a: Atx): string {
    if a.id.Some? then a.id.value else Slugify(a.text)
  }

  function Max1(n: nat): nat { if n < 1 then 1 else n }

  /** What the pre-pass does with one line outside a fence. */
  function SeedLine(line: string, used: map<string, nat>): map<string, nat> {
    match ParseAtx(line)
    case None => used
    case Some(a) => used[ClaimedSlug(a) := Max1(Used(used, ClaimedSlug(a)))]
  }

  lemma SeedLineGrows(line: string, used: map<string, nat>, key: string)
    ensures Used(SeedLine(line, used), key) >= Used(used, key)
  {
  }

  lemma SeedLineCovers(line: string, used: map<string, nat>)
    requires ParseAtx(line).Some?
    ensures Used(SeedLine(line, used), ClaimedSlug(ParseAtx(line).value)) >= 1
  {
  }

  /** standard.py:51-62 from line `i` on, with the fence state `inCode`. */
  function SeedFrom(lines: seq<string>, i: nat, inCode: bool, used: map<string, nat>): map<string, nat>
    requires i <= |lines|
    decreases |lines| - i
  {
    if i == |lines| then used
    else if IsFenceLine(lines[i]) then SeedFrom(lines, i + 1, !inCode, used)
    else if inCode then SeedFrom(lines, i + 1, inCode, used)
    else SeedFrom(lines, i + 1, inCode, SeedLine(lines[i], used))
  }

  function Seed(lines: seq<string>): map<string, nat> {
    SeedFrom(lines, 0, false, map[])
  }

  /** The pre-pass never lowers a count. */
  lemma {:induction false} SeedGrows(lines: seq<string>, i: nat, inCode: bool, used: map<string, nat>, key: string)
    requires i <= |lines|
    ensures Used(SeedFrom(lines, i, inCode, used), key) >= Used(used, key)
    decreases |lines| - i
  {
    if i < |lines| {
      if IsFenceLine(lines[i]) {
        SeedGrows(lines, i + 1, !inCode, used, key);
      } else if inCode {
        SeedGrows(lines, i + 1, inCode, used, key);
      } else {
        SeedLineGrows(lines[i], used, key);
        SeedGrows(lines, i + 1, inCode, SeedLine(lines[i], used), key);
      }
    }
  }

  lemma SeedCoversHere(lines: seq<string>, i: nat, used: map<string, nat>)
    requires i < |lines|
    requires !IsFenceLine(lines[i]) && ParseAtx(lines[i]).Some?
    ensures Used(SeedFrom(lines, i, false, used), ClaimedSlug(ParseAtx(lines[i]).value)) >= 1
  {
    var key := ClaimedSlug(ParseAtx(lines[i]).value);
    var used' := SeedLine(lines[i], used);
    SeedLineCovers(lines[i], used);
    SeedGrows(lines, i + 1, false, used', key);
  }

  /** Every ATX heading outside a fence has its claimed slug counted at least once before the main pass. */
  lemma {:induction false} SeedCovers(lines: seq<string>, i: nat, inCode: bool, used: map<string, nat>, j: nat)
    requires i <= j < |lines|
    requires inCode == InCodeAt(lines, i)
    requires !IsFenceLine(lines[j]) && !InCodeAt(lines, j) && ParseAtx(lines[j]).Some?
    ensures Used(SeedFrom(lines, i, inCode, used), ClaimedSlug(ParseAtx(lines[j]).value)) >= 1
    decreases |lines| - i
  {
    InCodeStep(lines, i);
    if i == j {
      SeedCoversHere(lines, i, used);
    } else if IsFenceLine(lines[i]) {
      SeedCovers(lines, i + 1, !inCode, used, j);
    } else if inCode {
      SeedCovers(lines, i + 1, inCode, used, j);
    } else {
      SeedCovers(lines, i + 1, inCode, SeedLine(lines[i], used), j);
    }
  }

  /** The pre-pass loop. */
  method CollectSlugs(lines: seq<string>) returns (used: map<string, nat>)
    ensures used == Seed(lines)
  {
    used := map[];
    var inCode := false;
    for i := 0 to |lines|
      invariant SeedFrom(lines, i, inCode, used) == Seed(lines)
    {
      var line := lines[i];
      if IsFenceLine(line) {
        inCode := !inCode;
        continue;
      }
      if inCode {
        continue;
      }
      var m := ParseAtx(line);
      if m.Some? {
        var slug := if m.value.id.Some? then m.value.id.value else Slugify(m.value.text);
        used := used[slug := if slug in used && used[slug] > 1 then used[slug] else 1];
      }
    }
  }

  // ---------------------------------------------------------------------
  // The main pass: how each line is classified
  // ---------------------------------------------------------------------

  /** Which rule turns a line into a heading. */
  datatype Form = AtxForm | SetextEqualsForm | SetextDashForm | ImplicitForm

  /**
   * How the main loop treats a line. A promoted line carries the level and
   * the text of the heading it becomes, and the base slug of that text.
   */
  datatype Kind = Fence | Code | AtxKept | Plain | Promote(form: Form, level: nat, text: string, base: string)

  function Promotion(form: Form, level: nat, text: string): Kind {
    Promote(form, level, text, BaseSlug(text))
  }

  /** Input lines a step consumes: the text and the underline of a setext heading, else one. */
  function Width(k: Kind): (w: nat)
    ensures w == 1 || w == 2
  {
    if k.Promote? && (k.form == SetextEqualsForm || k.form == SetextDashForm) then 2 else 1
  }

  /**
   * The decision standard.py:67-143 takes for line `i` when it is not inside
   * a fence, in the source's order of tests: fence, ATX, `===` setext, `---`
   * setext, implicit heading, plain line.
   */
  function Classify(lines: seq<string>, i: nat): Kind
    requires i < |lines|
  {
    var line := lines[i];
    if IsFenceLine(line) then Fence
    else match ParseAtx(line)
      case Some(a) => if a.id.Some? then AtxKept else Promotion(AtxForm, a.level, a.text)
      case None =>
        if SetextEquals(lines, i) then Promotion(SetextEqualsForm, 1, Strip(line))
        else if SetextDash(lines, i) then Promotion(SetextDashForm, 2, Strip(line))
        else if ImplicitHeading(lines, i) then Promotion(ImplicitForm, ImplicitLevel(line), StripEnumerator(line))
        else Plain
  }

  /** The classification of every line of the document. */
  function Classes(lines: seq<string>): (r: seq<Kind>)
    ensures |r| == |lines|
  {
    seq(|lines|, j requires 0 <= j < |lines| => Classify(lines, j))
  }

  /** The line is an ATX heading that carries an anchor. */
  predicate IsAnchoredAtx(line: string) {
    var m := ParseAtx(line);
    m.Some? && m.value.id.Some?
  }

  predicate IsUnderline(line: string) { IsEqualsUnderline(line) || IsDashUnderline(line) }

  /** A classification marks exactly the fence lines as fences, and nothing as code. */
  predicate FenceOk(lines: seq<string>, i: nat, c: Kind)
    requires i < |lines|
  {
    (c.Fence? <==> IsFenceLine(lines[i])) && !c.Code?
  }

  /** A step over two lines stops on a setext underline, which is never a fence line. */
  predicate WidthOk(lines: seq<string>, i: nat, c: Kind)
    requires i < |lines|
  {
    Width(c) == 2 ==> i + 1 < |lines| && IsUnderline(lines[i + 1]) && !IsFenceLine(lines[i + 1])
  }

  /** Kept ATX lines carry an anchor; promoted lines do not, and become a well-formed heading. */
  predicate HeadingOk(lines: seq<string>, i: nat, c: Kind)
    requires i < |lines|
  {
    && (c.AtxKept? ==> IsAnchoredAtx(lines[i]))
    && (c.Promote? ==> 1 <= c.level <= 6 && Strip(c.text) == c.text && c.base == BaseSlug(c.text) && !IsAnchoredAtx(lines[i]))
  }

  /** A promoted line's base slug is an anchor id. */
  predicate BaseOk(c: Kind) {
    c.Promote? ==> IsId(c.base)
  }

  /** No step runs past the last line. */
  predicate Shaped(cls: seq<Kind>) {
    forall i {:trigger Width(cls[i])} :: 0 <= i < |cls| ==> i + Width(cls[i]) <= |cls|
  }

  /** A classification of the document that keeps its promises at every line. */
  predicate ValidClasses(lines: seq<string>, cls: seq<Kind>) {
    && |cls| == |lines|
    && Shaped(cls)
    && (forall i {:trigger FenceOk(lines, i, cls[i])} :: 0 <= i < |cls| ==> FenceOk(lines, i, cls[i]))
    && (forall i {:trigger WidthOk(lines, i, cls[i])} :: 0 <= i < |cls| ==> WidthOk(lines, i, cls[i]))
    && (forall i {:trigger HeadingOk(lines, i, cls[i])} :: 0 <= i < |cls| ==> HeadingOk(lines, i, cls[i]))
    && (forall i {:trigger BaseOk(cls[i])} :: 0 <= i < |cls| ==> BaseOk(cls[i]))
  }

  /** A setext underline starts with `=` or `-`, so it is no fence line. */
  lemma UnderlineNotFence(line: string)
    requires IsUnderline(line)
    ensures !IsFenceLine(line)
  {
    assert line[0] == '=' || line[0] == '-';
  }

  /** The text `ParseAtx` returns is already stripped. */
  lemma ParseAtxStripped(line: string)
    requires ParseAtx(line).Some?
    ensures Strip(ParseAtx(line).value.text) == ParseAtx(line).value.text
  {
    var h := CharRun(line, 0, '#');
    var t := Strip(line[h..]);
    match IdSuffix(t) {
      case None => StripIdempotent(line[h..]);
      case Some(q) => StripIdempotent(t[..q]);
    }
  }

  /** The text left after removing an enumerator is already stripped. */
  lemma StripEnumeratorStripped(line: string)
    ensures Strip(StripEnumerator(line)) == StripEnumerator(line)
  {
    match Enumerator(line) {
      case None => StripIdempotent(line);
      case Some(e) => StripIdempotent(line[e.end..]);
    }
  }

  /** Every classification keeps its promises. */
  lemma ClassifyOk(lines: seq<string>, i: nat)
    requires i < |lines|
    ensures var c := Classify(lines, i);
      FenceOk(lines, i, c) && WidthOk(lines, i, c) && HeadingOk(lines, i, c) && BaseOk(c) && i + Width(c) <= |lines|
  {
    var line := lines[i];
    if Width(Classify(lines, i)) == 2 {
      UnderlineNotFence(lines[i + 1]);
    }
    if IsFenceLine(line) {
    } else if ParseAtx(line).Some? {
      ParseAtxStripped(line);
    } else if SetextEquals(lines, i) || SetextDash(lines, i) {
      StripIdempotent(line);
    } else {
      StripEnumeratorStripped(line);
    }
  }

  lemma ClassesValid(lines: seq<string>)
    ensures ValidClasses(lines, Classes(lines))
  {
    var cls := Classes(lines);
    forall i | 0 <= i < |lines|
      ensures FenceOk(lines, i, cls[i]) && WidthOk(lines, i, cls[i]) && HeadingOk(lines, i, cls[i]) && BaseOk(cls[i])
      ensures i + Width(cls[i]) <= |cls|
    {
      ClassifyOk(lines, i);
    }
  }

  /** An ATX heading that already has an anchor is kept verbatim. */
  lemma ClassifyKeepsAnchor(lines: seq<string>, i: nat)
    requires i < |lines|
    requires !IsFenceLine(lines[i]) && IsAnchoredAtx(lines[i])
    ensures Classify(lines, i).AtxKept?
  {
  }

  // ---------------------------------------------------------------------
  // The main pass, one step at a time
  // ---------------------------------------------------------------------

  /** Inside a fence every line but a fence line is code. */
  function KindAt(cls: seq<Kind>, i: nat, inCode: bool): Kind
    requires i < |cls|
  {
    if cls[i].Fence? then Fence else if inCode then Code else cls[i]
  }

  /** Input lines the step at line `i` consumes. */
  function WidthAt(cls: seq<Kind>, i: nat, inCode: bool): (w: nat)
    requires Shaped(cls) && i < |cls|
    ensures 1 <= w && i + w <= |cls|
  {
    Width(KindAt(cls, i, inCode))
  }

  /** The fence state after the step at line `i`. */
  function InCodeAfter(cls: seq<Kind>, i: nat, inCode: bool): bool
    requires i < |cls|
  {
    if cls[i].Fence? then !inCode else inCode
  }

  /** The lines the main loop stops at, from line `i` on: one per output line. */
  function Stops(cls: seq<Kind>, i: nat, inCode: bool): (r: seq<nat>)
    requires Shaped(cls) && i <= |cls|
    ensures |r| <= |cls| - i
    decreases |cls| - i
  {
    if i == |cls| then [] else [i] + Stops(cls, i + WidthAt(cls, i, inCode), InCodeAfter(cls, i, inCode))
  }

  /** What the main loop decides at each of its stops from line `i` on. */
  function Kinds(cls: seq<Kind>, i: nat, inCode: bool): (r: seq<Kind>)
    requires Shaped(cls) && i <= |cls|
    ensures |r| == |Stops(cls, i, inCode)|
    decreases |cls| - i
  {
    if i == |cls| then []
    else [KindAt(cls, i, inCode)] + Kinds(cls, i + WidthAt(cls, i, inCode), InCodeAfter(cls, i, inCode))
  }

  /**
   * The slugs the main loop hands out, one per decision (empty for a line
   * it does not promote), threading the counter, and the final counter.
   */
  function Slugs(kinds: seq<Kind>, used: map<string, nat>): (r: (seq<string>, map<string, nat>))
    ensures |r.0| == |kinds|
  {
    if kinds == [] then ([], used)
    else if kinds[0].Promote? then
      var (slug, used') := Bump(used, kinds[0].base);
      var rest := Slugs(kinds[1..], used');
      ([slug] + rest.0, rest.1)
    else
      var rest := Slugs(kinds[1..], used);
      ([""] + rest.0, rest.1)
  }

  /** The line the loop writes for a decision: the canonical heading for a promoted line, else the input line. */
  function OutLine(lines: seq<string>, j: nat, kind: Kind, slug: string): string
    requires j < |lines|
  {
    if kind.Promote? then Heading(kind.level, kind.text, slug) else lines[j]
  }

  predicate InRange(src: seq<nat>, n: nat) {
    forall k :: 0 <= k < |src| ==> src[k] < n
  }

  /** The output lines for decisions, slugs and the stops they were taken at. */
  function Render(lines: seq<string>, kinds: seq<Kind>, slugs: seq<string>, src: seq<nat>): (out: seq<string>)
    requires |kinds| == |slugs| == |src| && InRange(src, |lines|)
    ensures |out| == |src|
  {
    if src == [] then []
    else [OutLine(lines, src[0], kinds[0], slugs[0])] + Render(lines, kinds[1..], slugs[1..], src[1..])
  }

  /** The lines the main pass stops at in the whole document. */
  function MainStops(lines: seq<string>): (src: seq<nat>)
    ensures InRange(src, |lines|)
  {
    ClassesValid(lines);
    StopsInRange(Classes(lines), 0, false);
    Stops(Classes(lines), 0, false)
  }

  /** The decisions of the main pass over the whole document. */
  function MainKinds(lines: seq<string>): (kinds: seq<Kind>)
    ensures |kinds| == |MainStops(lines)|
  {
    ClassesValid(lines);
    Kinds(Classes(lines), 0, false)
  }

  /** The slugs of the main pass, drawn from the counter the pre-pass seeded. */
  function MainSlugs(lines: seq<string>): (slugs: seq<string>)
    ensures |slugs| == |MainKinds(lines)|
  {
    Slugs(MainKinds(lines), Seed(lines)).0
  }

  /** `normalize_headings` on the lines of a document. */
  function NormalizeLines(lines: seq<string>): (out: seq<string>)
    ensures |out| == |MainStops(lines)|
  {
    Render(lines, MainKinds(lines), MainSlugs(lines), MainStops(lines))
  }

  /** `normalize_headings`: split into lines, normalise, join with newlines. */
  function NormalizeHeadings(md: string): string {
    Join(NormalizeLines(SplitLines(md)), "\n")
  }

  // ---------------------------------------------------------------------
  // Where the loop stops
  // ---------------------------------------------------------------------

  /** Every stop is a line from `i` on. */
  lemma {:induction false} StopsInRange(cls: seq<Kind>, i: nat, inCode: bool)
    requires Shaped(cls) && i <= |cls|
    ensures forall k :: 0 <= k < |Stops(cls, i, inCode)| ==> i <= Stops(cls, i, inCode)[k] < |cls|
    decreases |cls| - i
  {
    if i < |cls| {
      var src := Stops(cls, i, inCode);
      var rest := Stops(cls, i + WidthAt(cls, i, inCode), InCodeAfter(cls, i, inCode));
      StopsInRange(cls, i + WidthAt(cls, i, inCode), InCodeAfter(cls, i, inCode));
      forall k | 0 <= k < |src| ensures i <= src[k] < |cls| {
        if k > 0 {
          assert src[k] == rest[k - 1];
        }
      }
    }
  }

  /** The first stop is line `i`, and there is one unless `i` is the end. */
  lemma StopsFirst(cls: seq<Kind>, i: nat, inCode: bool)
    requires Shaped(cls) && i <= |cls|
    ensures var src := Stops(cls, i, inCode);
      (src == [] <==> i == |cls|) && (src != [] ==> src[0] == i)
  {
  }

  /** Each stop is the next line, or the one after when the previous stop's class spans two lines. */
  lemma {:induction false} StopsNext(cls: seq<Kind>, i: nat, inCode: bool, k: nat)
    requires Shaped(cls) && i <= |cls|
    requires k + 1 < |Stops(cls, i, inCode)|
    ensures var src := Stops(cls, i, inCode);
      src[k + 1] == src[k] + 1 || (src[k + 1] == src[k] + 2 && src[k] < |cls| && Width(cls[src[k]]) == 2)
    decreases |cls| - i
  {
    var j := i + WidthAt(cls, i, inCode);
    var src := Stops(cls, i, inCode);
    var rest := Stops(cls, j, InCodeAfter(cls, i, inCode));
    assert src == [i] + rest;
    if k == 0 {
      StopsFirst(cls, j, InCodeAfter(cls, i, inCode));
      assert src[0] == i && src[1] == j;
    } else {
      StopsNext(cls, j, InCodeAfter(cls, i, inCode), k - 1);
      assert src[k] == rest[k - 1] && src[k + 1] == rest[k];
    }
  }

  /** Only the second line of a final two-line class may follow the last stop. */
  lemma {:induction false} StopsLast(cls: seq<Kind>, i: nat, inCode: bool)
    requires Shaped(cls) && i < |cls|
    ensures var src := Stops(cls, i, inCode);
      src != [] && (src[|src| - 1] + 1 == |cls| || (src[|src| - 1] + 2 == |cls| && Width(cls[|cls| - 2]) == 2))
    decreases |cls| - i
  {
    var j := i + WidthAt(cls, i, inCode);
    var rest := Stops(cls, j, InCodeAfter(cls, i, inCode));
    assert Stops(cls, i, inCode) == [i] + rest;
    if j < |cls| {
      StopsLast(cls, j, InCodeAfter(cls, i, inCode));
    } else {
      StopsFirst(cls, j, InCodeAfter(cls, i, inCode));
    }
  }

  /** A two-line step stops on a setext underline. */
  lemma WidthAtUnderline(lines: seq<string>, cls: seq<Kind>, i: nat, inCode: bool)
    requires ValidClasses(lines, cls) && i < |lines|
    ensures WidthAt(cls, i, inCode) == 2 ==> IsUnderline(lines[i + 1])
  {
    assert WidthOk(lines, i, cls[i]);
  }

  /** The fence state after a step is the parity of the fences before the next stop. */
  lemma InCodeAfterStep(lines: seq<string>, cls: seq<Kind>, i: nat, inCode: bool)
    requires ValidClasses(lines, cls) && i < |lines|
    requires inCode == InCodeAt(lines, i)
    ensures InCodeAfter(cls, i, inCode) == InCodeAt(lines, i + WidthAt(cls, i, inCode))
  {
    assert FenceOk(lines, i, cls[i]) && WidthOk(lines, i, cls[i]);
    InCodeStep(lines, i);
    if WidthAt(cls, i, inCode) == 2 {
      InCodeStep(lines, i + 1);
    }
  }

  /** The `k`-th stop is a line, and the loop's fence state there is that line's. */
  lemma {:induction false} StopsInCode(lines: seq<string>, cls: seq<Kind>, i: nat, k: nat)
    requires ValidClasses(lines, cls) && i <= |lines|
    requires k < |Stops(cls, i, InCodeAt(lines, i))|
    ensures var src := Stops(cls, i, InCodeAt(lines, i));
      src[k] < |lines| && InCodeAt(lines, src[k]) == InCodeAtStop(cls, i, InCodeAt(lines, i), k)
    decreases |lines| - i
  {
    var inCode := InCodeAt(lines, i);
    var j := i + WidthAt(cls, i, inCode);
    var next := InCodeAfter(cls, i, inCode);
    var src := Stops(cls, i, inCode);
    assert src == [i] + Stops(cls, j, next);
    if k > 0 {
      InCodeAfterStep(lines, cls, i, inCode);
      assert next == InCodeAt(lines, j);
      StopsInCode(lines, cls, j, k - 1);
      assert src[k] == Stops(cls, j, next)[k - 1];
      assert InCodeAtStop(cls, i, inCode, k) == InCodeAtStop(cls, j, next, k - 1);
    }
  }

  /** The loop's fence state at its `k`-th stop. */
  function InCodeAtStop(cls: seq<Kind>, i: nat, inCode: bool, k: nat): bool
    requires Shaped(cls) && i <= |cls|
    decreases |cls| - i
  {
    if i == |cls| || k == 0 then inCode
    else InCodeAtStop(cls, i + WidthAt(cls, i, inCode), InCodeAfter(cls, i, inCode), k - 1)
  }

  // ---------------------------------------------------------------------
  // What the loop emits
  // ---------------------------------------------------------------------

  /** The `k`-th decision is the class of its stop under the loop's fence state there. */
  lemma {:induction false} KindsAt(cls: seq<Kind>, i: nat, inCode: bool, k: nat)
    requires Shaped(cls) && i <= |cls|
    requires k < |Stops(cls, i, inCode)|
    ensures var src := Stops(cls, i, inCode);
      && src[k] < |cls|
      && Kinds(cls, i, inCode)[k] == KindAt(cls, src[k], InCodeAtStop(cls, i, inCode, k))
    decreases |cls| - i
  {
    var j := i + WidthAt(cls, i, inCode);
    var next := InCodeAfter(cls, i, inCode);
    var src, kinds := Stops(cls, i, inCode), Kinds(cls, i, inCode);
    assert src == [i] + Stops(cls, j, next);
    assert kinds == [KindAt(cls, i, inCode)] + Kinds(cls, j, next);
    if k > 0 {
      KindsAt(cls, j, next, k - 1);
      assert src[k] == Stops(cls, j, next)[k - 1];
      assert kinds[k] == Kinds(cls, j, next)[k - 1];
      assert InCodeAtStop(cls, i, inCode, k) == InCodeAtStop(cls, j, next, k - 1);
    }
  }

  /** Every promoted decision carries a valid anchor id as its base slug. */
  predicate BasesOk(kinds: seq<Kind>) {
    forall k :: 0 <= k < |kinds| ==> BaseOk(kinds[k])
  }

  /** Each decision is a class of the document or a plain fence or code line, so its base slug is valid. */
  lemma KindsBases(cls: seq<Kind>, i: nat, inCode: bool)
    requires Shaped(cls) && i <= |cls|
    requires forall j {:trigger BaseOk(cls[j])} :: 0 <= j < |cls| ==> BaseOk(cls[j])
    ensures BasesOk(Kinds(cls, i, inCode))
  {
    forall k | 0 <= k < |Kinds(cls, i, inCode)| ensures BaseOk(Kinds(cls, i, inCode)[k]) {
      KindsAt(cls, i, inCode, k);
      assert BaseOk(cls[Stops(cls, i, inCode)[k]]);
    }
  }

  /** Every slug the main loop hands out to a promoted line is a valid anchor id. */
  lemma {:induction false} SlugsAt(kinds: seq<Kind>, used: map<string, nat>, k: nat)
    requires BasesOk(kinds) && k < |kinds|
    ensures kinds[k].Promote? ==> IsId(Slugs(kinds, used).0[k])
    decreases k
  {
    var used' := if kinds[0].Promote? then Bump(used, kinds[0].base).1 else used;
    assert Slugs(kinds, used).0[1..] == Slugs(kinds[1..], used').0;
    if k == 0 {
      if kinds[0].Promote? {
        assert BaseOk(kinds[0]);
        SuffixedId(kinds[0].base, Used(used, kinds[0].base) + 1);
      }
    } else {
      assert BasesOk(kinds[1..]) by {
        forall m | 0 <= m < |kinds| - 1 ensures BaseOk(kinds[1..][m]) {
          assert kinds[1..][m] == kinds[m + 1];
        }
      }
      SlugsAt(kinds[1..], used', k - 1);
      assert Slugs(kinds, used).0[k] == Slugs(kinds[1..], used').0[k - 1];
    }
  }

  /** The counter only grows during the main pass. */
  lemma {:induction false} SlugsGrow(kinds: seq<Kind>, used: map<string, nat>, key: string)
    ensures Used(Slugs(kinds, used).1, key) >= Used(used, key)
  {
    if kinds != [] {
      if kinds[0].Promote? {
        SlugsGrow(kinds[1..], Bump(used, kinds[0].base).1, key);
      } else {
        SlugsGrow(kinds[1..], used, key);
      }
    }
  }

  lemma {:induction false} RenderAt(lines: seq<string>, kinds: seq<Kind>, slugs: seq<string>, src: seq<nat>, k: nat)
    requires |kinds| == |slugs| == |src| && InRange(src, |lines|)
    requires k < |src|
    ensures Render(lines, kinds, slugs, src)[k] == OutLine(lines, src[k], kinds[k], slugs[k])
    decreases k
  {
    if k > 0 {
      RenderAt(lines, kinds[1..], slugs[1..], src[1..], k - 1);
    }
  }

  // ---------------------------------------------------------------------
  // The main loop, as the source runs it
  // ---------------------------------------------------------------------

  /** The output the main loop still has to produce from line `i` on, with the counter `used`. */
  function RenderFrom(lines: seq<string>, cls: seq<Kind>, i: nat, inCode: bool, used: map<string, nat>): seq<string>
    requires |cls| == |lines| && Shaped(cls) && i <= |lines|
  {
    StopsInRange(cls, i, inCode);
    var kinds := Kinds(cls, i, inCode);
    Render(lines, kinds, Slugs(kinds, used).0, Stops(cls, i, inCode))
  }

  /**
   * One iteration of the main loop at line `i`: the line it writes, where
   * it continues, the fence state there, and the counter afterwards.
   */
  function Advance(lines: seq<string>, cls: seq<Kind>, i: nat, inCode: bool, used: map<string, nat>): (string, nat, bool, map<string, nat>)
    requires |cls| == |lines| && Shaped(cls) && i < |lines|
  {
    var k := KindAt(cls, i, inCode);
    var (slug, used') := if k.Promote? then Bump(used, k.base) else ("", used);
    (OutLine(lines, i, k, slug), i + WidthAt(cls, i, inCode), InCodeAfter(cls, i, inCode), used')
  }

  /** One iteration writes its line and leaves the rest of the output to the next stop. */
  lemma RenderFromStep(lines: seq<string>, cls: seq<Kind>, i: nat, inCode: bool, used: map<string, nat>)
    requires |cls| == |lines| && Shaped(cls) && i < |lines|
    ensures var a := Advance(lines, cls, i, inCode, used);
      i < a.1 <= |lines| && RenderFrom(lines, cls, i, inCode, used) == [a.0] + RenderFrom(lines, cls, a.1, a.2, a.3)
  {
    var j, next := i + WidthAt(cls, i, inCode), InCodeAfter(cls, i, inCode);
    var kinds := Kinds(cls, i, inCode);
    var src := Stops(cls, i, inCode);
    assert kinds == [KindAt(cls, i, inCode)] + Kinds(cls, j, next);
    assert src == [i] + Stops(cls, j, next);
    assert kinds[1..] == Kinds(cls, j, next) && src[1..] == Stops(cls, j, next);
  }

  /** One iteration in terms of the line's class: fence and code lines pass, a promoted line is rewritten. */
  lemma AdvanceAt(lines: seq<string>, cls: seq<Kind>, i: nat, inCode: bool, used: map<string, nat>)
    requires ValidClasses(lines, cls) && i < |lines|
    ensures IsFenceLine(lines[i]) ==> Advance(lines, cls, i, inCode, used) == (lines[i], i + 1, !inCode, used)
    ensures !IsFenceLine(lines[i]) && (inCode || !cls[i].Promote?) ==>
      Advance(lines, cls, i, inCode, used) == (lines[i], i + 1, inCode, used)
    ensures var c := cls[i];
      !IsFenceLine(lines[i]) && !inCode && c.Promote? ==>
        var (slug, used') := UniqSlug(used, c.text);
        Advance(lines, cls, i, inCode, used) == (Heading(c.level, c.text, slug), i + Width(c), inCode, used')
  {
    var c := cls[i];
    assert FenceOk(lines, i, c);
    if !IsFenceLine(lines[i]) && !inCode && c.Promote? {
      assert HeadingOk(lines, i, c);
    }
  }

  /**
   * The body of the main loop: a fence line toggles the fence state, a line
   * inside a fence is copied, and any other line gets the decision
   * `Classify` takes for it; a promoted line draws its slug from the counter.
   */
  method LoopStep(lines: seq<string>, i: nat, inCode: bool, reg: SlugRegistry, ghost cls: seq<Kind>)
    returns (line': string, i': nat, inCode': bool)
    requires cls == Classes(lines) && ValidClasses(lines, cls) && i < |lines|
    modifies reg
    ensures (line', i', inCode', reg.used) == Advance(lines, cls, i, inCode, old(reg.used))
  {
    AdvanceAt(lines, cls, i, inCode, reg.used);
    var line := lines[i];
    if IsFenceLine(line) {
      return line, i + 1, !inCode;
    }
    if inCode {
      return line, i + 1, inCode;
    }
    var c := Classify(lines, i);
    if c.Promote? {
      var slug := reg.Uniq(c.text);
      return Heading(c.level, c.text, slug), i + Width(c), inCode;
    }
    return line, i + 1, inCode;
  }

  /** The whole output is what the main loop produces from the first line, with the seeded counter. */
  lemma NormalizeLinesFrom(lines: seq<string>)
    ensures ValidClasses(lines, Classes(lines))
    ensures NormalizeLines(lines) == RenderFrom(lines, Classes(lines), 0, false, Seed(lines))
  {
    ClassesValid(lines);
  }

  /** `normalize_headings` on a list of lines: the pre-pass, then the main loop. */
  method NormalizeLoop(lines: seq<string>) returns (out: seq<string>)
    ensures out == NormalizeLines(lines)
  {
    var seed := CollectSlugs(lines);
    NormalizeLinesFrom(lines);
    var reg := new SlugRegistry(seed);
    ghost var cls := Classes(lines);
    var inCode := false;
    var i := 0;
    out := [];
    while i < |lines|
      invariant i <= |lines|
      invariant out + RenderFrom(lines, cls, i, inCode, reg.used) == NormalizeLines(lines)
      decreases |lines| - i
    {
      RenderFromStep(lines, cls, i, inCode, reg.used);
      var line;
      line, i, inCode := LoopStep(lines, i, inCode, reg, cls);
      out := out + [line];
    }
  }

  /** `normalize_headings`: split into lines, run the loops, join with newlines. */
  method Normalize(md: string) returns (r: string)
    ensures r == NormalizeHeadings(md)
  {
    var out := NormalizeLoop(SplitLines(md));
    r := Join(out, "\n");
  }
  // ---------------------------------------------------------------------
  // What `normalize_headings` does to a document
  // ---------------------------------------------------------------------

  /** The stops of the loop under a valid classification cover the lines, skipping only setext underlines. */
  lemma StopsCover(lines: seq<string>, cls: seq<Kind>)
    requires ValidClasses(lines, cls)
    ensures var src := Stops(cls, 0, false);
      && InRange(src, |lines|)
      && (src == [] <==> lines == [])
      && (src != [] ==> src[0] == 0)
      && (forall k :: 0 <= k < |src| - 1 ==>
            src[k + 1] == src[k] + 1 || (src[k + 1] == src[k] + 2 && IsUnderline(lines[src[k] + 1])))
      && (src != [] ==> src[|src| - 1] == |lines| - 1 || (src[|src| - 1] == |lines| - 2 && IsUnderline(lines[|lines| - 1])))
  {
    var src := Stops(cls, 0, false);
    StopsInRange(cls, 0, false);
    StopsFirst(cls, 0, false);
    forall k | 0 <= k < |src| - 1
      ensures src[k + 1] == src[k] + 1 || (src[k + 1] == src[k] + 2 && IsUnderline(lines[src[k] + 1]))
    {
      StopsNext(cls, 0, false, k);
      assert WidthOk(lines, src[k], cls[src[k]]);
    }
    if src != [] {
      StopsLast(cls, 0, false);
      if src[|src| - 1] + 2 == |lines| {
        assert WidthOk(lines, |lines| - 2, cls[|lines| - 2]);
      }
    }
  }

  /**
   * The output has one line per stop of the main loop. The stops start at
   * the first line, advance by one line, or by two over a setext underline,
   * and end at the last line or just before a final underline: every input
   * line is written out or is an underline folded into its heading.
   */
  lemma NormalizeCovers(lines: seq<string>)
    ensures var src := MainStops(lines);
      && |NormalizeLines(lines)| == |src|
      && (src == [] <==> lines == [])
      && (src != [] ==> src[0] == 0)
      && (forall k :: 0 <= k < |src| - 1 ==>
            src[k + 1] == src[k] + 1 || (src[k + 1] == src[k] + 2 && IsUnderline(lines[src[k] + 1])))
      && (src != [] ==> src[|src| - 1] == |lines| - 1 || (src[|src| - 1] == |lines| - 2 && IsUnderline(lines[|lines| - 1])))
  {
    ClassesValid(lines);
    var cls := Classes(lines);
    assert MainStops(lines) == Stops(cls, 0, false);
    StopsCover(lines, cls);
  }

  /** The `k`-th output line of the loop is its decision for the `k`-th stop, under that line's own fence state. */
  lemma RenderAtStop(lines: seq<string>, cls: seq<Kind>, used: map<string, nat>, k: nat)
    requires ValidClasses(lines, cls)
    requires k < |Stops(cls, 0, false)|
    ensures var j := Stops(cls, 0, false)[k];
      var kinds := Kinds(cls, 0, false);
      var slugs := Slugs(kinds, used).0;
      && j < |lines|
      && kinds[k] == KindAt(cls, j, InCodeAt(lines, j))
      && RenderFrom(lines, cls, 0, false, used)[k] == OutLine(lines, j, kinds[k], slugs[k])
      && (kinds[k].Promote? ==> IsId(slugs[k]))
  {
    var kinds := Kinds(cls, 0, false);
    assert InCodeAt(lines, 0) == false;
    KindsAt(cls, 0, false, k);
    StopsInCode(lines, cls, 0, k);
    StopsInRange(cls, 0, false);
    RenderAt(lines, kinds, Slugs(kinds, used).0, Stops(cls, 0, false), k);
    KindsBases(cls, 0, false);
    SlugsAt(kinds, used, k);
  }

  /** Under a valid classification, fence lines and the lines between them are copied. */
  lemma KeepsCodeAt(lines: seq<string>, cls: seq<Kind>, used: map<string, nat>, k: nat)
    requires ValidClasses(lines, cls)
    requires k < |Stops(cls, 0, false)|
    requires var j := Stops(cls, 0, false)[k]; j < |lines| && (IsFenceLine(lines[j]) || InCodeAt(lines, j))
    ensures RenderFrom(lines, cls, 0, false, used)[k] == lines[Stops(cls, 0, false)[k]]
  {
    RenderAtStop(lines, cls, used, k);
    var j := Stops(cls, 0, false)[k];
    assert FenceOk(lines, j, cls[j]);
  }

  /** Fence lines and the lines between them are written out unchanged. */
  lemma NormalizeKeepsCode(lines: seq<string>, k: nat)
    requires k < |MainStops(lines)|
    requires IsFenceLine(lines[MainStops(lines)[k]]) || InCodeAt(lines, MainStops(lines)[k])
    ensures NormalizeLines(lines)[k] == lines[MainStops(lines)[k]]
  {
    NormalizeLinesFrom(lines);
    KeepsCodeAt(lines, Classes(lines), Seed(lines), k);
  }

  /** Under a valid classification, a line is rewritten exactly when its class promotes it outside code. */
  lemma RewritesAt(lines: seq<string>, cls: seq<Kind>, used: map<string, nat>, k: nat)
    requires ValidClasses(lines, cls)
    requires k < |Stops(cls, 0, false)|
    ensures var j := Stops(cls, 0, false)[k];
      var out := RenderFrom(lines, cls, 0, false, used)[k];
      var slug := Slugs(Kinds(cls, 0, false), used).0[k];
      && j < |lines|
      && (out != lines[j] <==> !InCodeAt(lines, j) && cls[j].Promote?)
      && (out != lines[j] ==> IsId(slug) && ParseAtx(out) == Some(Atx(cls[j].level, cls[j].text, Some(slug))))
      && (IsAnchoredAtx(lines[j]) ==> out == lines[j])
  {
    RenderAtStop(lines, cls, used, k);
    var j := Stops(cls, 0, false)[k];
    assert FenceOk(lines, j, cls[j]) && HeadingOk(lines, j, cls[j]);
    var kind := Kinds(cls, 0, false)[k];
    if kind.Promote? {
      HeadingReparses(kind.level, kind.text, Slugs(Kinds(cls, 0, false), used).0[k]);
    }
  }

  /**
   * A line outside code is rewritten exactly when it is classified as a
   * heading to promote, and then it becomes an ATX heading of that level and
   * text with a fresh anchor; ATX headings that already carry an anchor are
   * never rewritten.
   */
  lemma NormalizeRewrites(lines: seq<string>, k: nat)
    requires k < |MainStops(lines)|
    ensures var j := MainStops(lines)[k];
      var out := NormalizeLines(lines)[k];
      var c := Classify(lines, j);
      && (out != lines[j] <==> !InCodeAt(lines, j) && c.Promote?)
      && (out != lines[j] ==>
            IsId(MainSlugs(lines)[k]) && ParseAtx(out) == Some(Atx(c.level, c.text, Some(MainSlugs(lines)[k]))))
      && (IsAnchoredAtx(lines[j]) ==> out == lines[j])
  {
    NormalizeLinesFrom(lines);
    RewritesAt(lines, Classes(lines), Seed(lines), k);
  }

  /** The main pass never lowers a counter the pre-pass seeded. */
  lemma NormalizeCounterGrows(lines: seq<string>, key: string)
    ensures Used(Slugs(MainKinds(lines), Seed(lines)).1, key) >= Used(Seed(lines), key)
  {
    SlugsGrow(MainKinds(lines), Seed(lines), key);
  }

  /**
   * A lone ATX heading without an anchor is numbered `-2`: the pre-pass
   * already claimed its own slug, so the main pass finds the counter at 1.
   * A heading whose text slugifies to nothing gets the fallback `section`.
   */
  lemma SingleHeadingNumbered(line: string, level: nat, text: string)
    requires ParseAtx(line) == Some(Atx(level, text, None))
    ensures NormalizeLines([line]) ==
      [Heading(level, text, if Slugify(text) == [] then "section" else Slugify(text) + "-2")]
  {
    var lines := [line];
    assert line[0] == '#' && !IsFenceLine(line);
    assert Seed(lines) == map[Slugify(text) := 1] by {
      assert SeedFrom(lines, 1, false, SeedLine(line, map[])) == SeedLine(line, map[]);
    }
    NormalizeLinesFrom(lines);
    var cls := Classes(lines);
    var c := Promotion(AtxForm, level, text);
    assert cls[0] == c;
    assert Stops(cls, 0, false) == [0] by {
      assert Stops(cls, 1, InCodeAfter(cls, 0, false)) == [];
    }
    assert Kinds(cls, 0, false) == [c] by {
      assert Kinds(cls, 1, InCodeAfter(cls, 0, false)) == [];
    }
    var base := BaseSlug(text);
    if Slugify(text) == [] {
      assert Used(Seed(lines), base) == 0 by {
        assert base == "section";
      }
    } else {
      SeededBaseNumbering(Seed(lines), text);
    }
    assert Slugs([c], Seed(lines)).0 == [Bump(Seed(lines), base).0];
  }

  // ---------------------------------------------------------------------
  // What `normalize_headings` does not promise
  // ---------------------------------------------------------------------

  /** The pre-pass over an unanchored heading and a heading anchored at its `-2` name counts the bare slug once. */
  lemma CollisionSeed(l1: string, l2: string, text: string)
    requires ParseAtx(l1).Some? && ParseAtx(l1).value.id == None && ParseAtx(l1).value.text == text
    requires ParseAtx(l2).Some? && ParseAtx(l2).value.id == Some(Slugify(text) + "-2")
    ensures Used(Seed([l1, l2]), Slugify(text)) == 1
  {
    var lines := [l1, l2];
    var s := Slugify(text);
    assert l1[0] == '#' && !IsFenceLine(l1);
    assert l2[0] == '#' && !IsFenceLine(l2);
    var m1 := SeedLine(l1, map[]);
    assert m1 == map[s := 1];
    assert s + "-2" != s;
    var m2 := SeedLine(l2, m1);
    assert Used(m2, s) == 1;
    assert SeedFrom(lines, 2, false, m2) == m2;
    assert SeedFrom(lines, 1, false, m1) == SeedFrom(lines, 2, false, m2);
    assert Seed(lines) == SeedFrom(lines, 1, false, m1);
  }

  /** The first line is promoted, the second kept. */
  lemma CollisionClasses(l1: string, l2: string, level: nat, text: string)
    requires ParseAtx(l1) == Some(Atx(level, text, None))
    requires IsAnchoredAtx(l2)
    ensures var cls := Classes([l1, l2]);
      Shaped(cls) && cls[0] == Promotion(AtxForm, level, text) && cls[1] == AtxKept
  {
    assert l1[0] == '#' && !IsFenceLine(l1);
    assert l2[0] == '#' && !IsFenceLine(l2);
    ClassesValid([l1, l2]);
  }

  /** The main pass stops at both lines, promoting the first and keeping the second. */
  lemma CollisionKinds(l1: string, l2: string, level: nat, text: string)
    requires ParseAtx(l1) == Some(Atx(level, text, None))
    requires IsAnchoredAtx(l2)
    ensures var cls := Classes([l1, l2]);
      Shaped(cls) && Stops(cls, 0, false) == [0, 1] && Kinds(cls, 0, false) == [Promotion(AtxForm, level, text), AtxKept]
  {
    CollisionClasses(l1, l2, level, text);
    var cls := Classes([l1, l2]);
    assert Stops(cls, 2, false) == [];
    assert Kinds(cls, 2, false) == [];
  }

  lemma RenderPair(lines: seq<string>, kinds: seq<Kind>, slugs: seq<string>)
    requires |lines| == |kinds| == |slugs| == 2
    ensures Render(lines, kinds, slugs, [0, 1]) == [OutLine(lines, 0, kinds[0], slugs[0]), OutLine(lines, 1, kinds[1], slugs[1])]
  {
    assert [0, 1][1..] == [1];
    assert Render(lines, kinds[1..], slugs[1..], [1]) == [OutLine(lines, 1, kinds[1], slugs[1])];
  }

  /**
   * Anchors are not unique: the pre-pass counts the slug `s` of an
   * unanchored heading once, so the main pass names it `s-2`, even when
   * another heading of the document already carries `{#s-2}`, which the
   * pre-pass counted under its own key.
   */
  lemma AnchorCollision(l1: string, l2: string, level: nat, text: string)
    requires ParseAtx(l1) == Some(Atx(level, text, None)) && Slugify(text) != []
    requires ParseAtx(l2).Some? && ParseAtx(l2).value.id == Some(Slugify(text) + "-2")
    ensures NormalizeLines([l1, l2]) == [Heading(level, text, Slugify(text) + "-2"), l2]
  {
    var lines := [l1, l2];
    var s := Slugify(text);
    CollisionSeed(l1, l2, text);
    CollisionKinds(l1, l2, level, text);
    NormalizeLinesFrom(lines);
    var c := Promotion(AtxForm, level, text);
    SeededBaseNumbering(Seed(lines), text);
    var slugs := Slugs([c, AtxKept], Seed(lines)).0;
    assert slugs[0] == s + "-2";
    RenderPair(lines, [c, AtxKept], slugs);
  }

  lemma ParseHeadingA()
    ensures ParseAtx("# A") == Some(Atx(1, "A", None))
  {
    assert CharRun("# A", 0, '#') == 1;
    assert "# A"[1..] == " A";
    assert RStrip(" A") == " A";
    assert LStrip(" A") == "A";
    assert Strip(" A") == "A";
  }

  lemma CollisionHeadingLines()
    ensures Heading(1, "B", "a-2") == "# B {#a-2}"
    ensures Heading(1, "A", "a-2") == "# A {#a-2}"
  {
    assert Repeat('#', 1) == "#";
  }

  lemma ParseHeadingB()
    ensures ParseAtx("# B {#a-2}") == Some(Atx(1, "B", Some("a-2")))
  {
    CollisionHeadingLines();
    assert Strip("B") == "B";
    assert IsId("a-2");
    HeadingReparses(1, "B", "a-2");
  }

  /** `# A` above `# B {#a-2}`: both output lines carry the anchor `a-2`. */
  lemma AnchorCollisionLines(l1: string, l2: string)
    requires l1 == "# A" && l2 == "# B {#a-2}"
    ensures NormalizeLines([l1, l2]) == ["# A {#a-2}", l2]
  {
    ParseHeadingA();
    ParseHeadingB();
    CollisionHeadingLines();
    SlugifyOfA();
    assert Slugify("A") + "-2" == "a-2";
    AnchorCollision(l1, l2, 1, "A");
  }

  /** The same on the document text. */
  lemma AnchorCollisionText(md: string, l1: string, l2: string)
    requires l1 == "# A" && l2 == "# B {#a-2}" && md == l1 + "\n" + l2
    ensures NormalizeHeadings(md) == "# A {#a-2}" + "\n" + l2
  {
    assert NoLineBreak(l1) && NoLineBreak(l2);
    SplitLinesTwo(l1, l2);
    AnchorCollisionLines(l1, l2);
    assert Join(["# A {#a-2}", l2], "\n") == "# A {#a-2}" + "\n" + Join([l2], "\n");
  }

  /** A lone fence line is copied. */
  lemma FenceAlone(f: string)
    requires IsFenceLine(f)
    ensures NormalizeLines([f]) == [f]
  {
    NormalizeCovers([f]);
    NormalizeKeepsCode([f], 0);
  }

  /** A fence line and a blank line are copied. */
  lemma FenceThenBlank(f: string)
    requires IsFenceLine(f)
    ensures NormalizeLines([f, ""]) == [f, ""]
  {
    var lines := [f, ""];
    NormalizeCovers(lines);
    var src := MainStops(lines);
    assert !IsUnderline("");
    assert |src| == 2 && src[1] == 1;
    assert InCodeAt(lines, 1);
    NormalizeKeepsCode(lines, 0);
    NormalizeKeepsCode(lines, 1);
  }

  /**
   * `normalize_headings` is not idempotent on the text: `splitlines` drops
   * the final line break and `"\n".join` does not put it back, so every
   * pass shortens a document that ends in a blank line.
   */
  lemma TrailingNewlineLost(f: string)
    requires f == "```"
    ensures NormalizeHeadings(f + "\n\n") == f + "\n"
    ensures NormalizeHeadings(f + "\n") == f
  {
    assert SplitLines("") == [];
    assert SplitLines("\n") == [""];
    var s := f + "\n\n";
    assert s[0] == '`' && s[1] == '`' && s[2] == '`' && s[3] == '\n';
    assert FirstBreak(s) == 3;
    assert s[4..] == "\n";
    assert SplitLines(s) == [f, ""];
    var t := f + "\n";
    assert t[0] == '`' && t[1] == '`' && t[2] == '`' && t[3] == '\n';
    assert FirstBreak(t) == 3;
    assert t[4..] == "";
    assert SplitLines(t) == [f];
    FenceAlone(f);
    FenceThenBlank(f);
    assert Join([f, ""], "\n") == f + "\n" + Join([""], "\n");
  }
}
