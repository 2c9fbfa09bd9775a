/**
 * `sanitize_attr_tokens` (docnexus/features/standard.py:148-183): removes
 * stray `{#id}` and `{id}` attribute tokens from ordinary lines, puts the
 * anchor of an ATX heading in the canonical ` {#id}` form, and leaves
 * fenced code and setext pairs alone.
 */
module Sanitize {
  import opened Text
  import opened Slug
  import opened Headings

  // ---------------------------------------------------------------------
  // Attribute tokens: \s*\{#?[A-Za-z0-9_-]+\}
  // ---------------------------------------------------------------------

  /** Number of anchor-id characters from index `p` on. */
  function IdRun(s: string, p: nat): (n: nat)
    requires p <= |s|
    ensures p + n <= |s|
    ensures forall i :: p <= i < p + n ==> IsIdChar(s[i])
    ensures p + n == |s| || !IsIdChar(s[p + n])
    decreases |s| - p
  {
    if p == |s| || !IsIdChar(s[p]) then 0 else 1 + IdRun(s, p + 1)
  }

  /** Where an attribute token starting at `p` ends, if one starts there (whitespace before the brace included). */
  function TokenEnd(s: string, p: nat): (r: Option<nat>)
    requires p <= |s|
    ensures r.Some? ==> p < r.value <= |s|
  {
    var j := p + SpaceRun(s, p);
    if j < |s| && s[j] == '{' then
      var b := if j + 1 < |s| && s[j + 1] == '#' then j + 2 else j + 1;
      var n := IdRun(s, b);
      if n >= 1 && b + n < |s| && s[b + n] == '}' then Some(b + n + 1) else None
    else None
  }

  /** A piece of a scanned line: a character kept, or a token removed. */
  datatype Piece = Kept(c: char) | Token(text: string)

  /** The piece the scan reads at `p`: the token starting there, or the character there. */
  function PieceAt(s: string, p: nat): Piece
    requires p < |s|
  {
    match TokenEnd(s, p)
    case Some(e) => Token(s[p..e])
    case None => Kept(s[p])
  }

  /** Where the scan goes on after the piece at `p`. */
  function Next(s: string, p: nat): (q: nat)
    requires p < |s|
    ensures p < q <= |s|
  {
    match TokenEnd(s, p)
    case Some(e) => e
    case None => p + 1
  }

  /** `re.sub`'s left-to-right scan: a token where one starts, else one character kept. */
  function Scan(s: string, p: nat): seq<Piece>
    requires p <= |s|
    decreases |s| - p
  {
    if p == |s| then [] else [PieceAt(s, p)] + Scan(s, Next(s, p))
  }

  function PieceText(x: Piece): string {
    if x.Kept? then [x.c] else x.text
  }

  function Flatten(ps: seq<Piece>): string {
    if ps == [] then [] else PieceText(ps[0]) + Flatten(ps[1..])
  }

  function KeptText(ps: seq<Piece>): string {
    if ps == [] then [] else (if ps[0].Kept? then [ps[0].c] else []) + KeptText(ps[1..])
  }

  /** Every `{id}` or `{#id}` token, with the whitespace before it, removed. */
  function StripTokens(s: string): string {
    KeptText(Scan(s, 0))
  }

  /** An attribute token: optional whitespace, `{`, an optional `#`, id characters, `}`. */
  predicate IsToken(t: string) {
    var w := SpaceRun(t, 0);
    && w + 2 < |t| && t[w] == '{' && t[|t| - 1] == '}'
    && var b := if t[w + 1] == '#' then w + 2 else w + 1;
      b < |t| - 1 && forall i :: b <= i < |t| - 1 ==> IsIdChar(t[i])
  }

  lemma {:induction false} SpaceRunSlice(s: string, p: nat, e: nat)
    requires p <= e <= |s|
    requires p + SpaceRun(s, p) < e
    ensures SpaceRun(s[p..e], 0) == SpaceRun(s, p)
    decreases |s| - p
  {
    if SpaceRun(s, p) > 0 {
      SpaceRunSlice(s, p + 1, e);
      SpaceRunShift(s[p..e], 1);
      assert s[p..e][1..] == s[p + 1..e];
    }
  }

  lemma {:induction false} SpaceRunShift(t: string, k: nat)
    requires 1 <= k <= |t| && IsSpace(t[0]) && k == 1
    ensures SpaceRun(t, 0) == 1 + SpaceRun(t[1..], 0)
  {
    SpaceRunFrom(t, 1);
  }

  /** Counting spaces from `p` is counting them in the suffix from `p`. */
  lemma {:induction false} SpaceRunFrom(t: string, p: nat)
    requires p <= |t|
    ensures SpaceRun(t, p) == SpaceRun(t[p..], 0)
    decreases |t| - p
  {
    if p < |t| && IsSpace(t[p]) {
      SpaceRunFrom(t, p + 1);
      SpaceRunFrom(t[p..], 1);
      assert t[p..][1..] == t[p + 1..];
    }
  }

  /** The text a token match covers is an attribute token. */
  lemma TokenEndIsToken(s: string, p: nat)
    requires p <= |s| && TokenEnd(s, p).Some?
    ensures IsToken(s[p..TokenEnd(s, p).value])
  {
    var e := TokenEnd(s, p).value;
    var t := s[p..e];
    SpaceRunSlice(s, p, e);
    assert forall i :: 0 <= i < |t| ==> t[i] == s[p + i];
  }

  lemma PieceAtText(s: string, p: nat)
    requires p < |s|
    ensures PieceText(PieceAt(s, p)) == s[p..Next(s, p)]
  {
    if TokenEnd(s, p).None? {
      assert s[p..p + 1] == [s[p]];
    }
  }

  lemma FlattenCons(x: Piece, rest: seq<Piece>)
    ensures Flatten([x] + rest) == PieceText(x) + Flatten(rest)
  {
    assert ([x] + rest)[1..] == rest;
  }

  lemma SliceSplit(s: string, p: nat, q: nat)
    requires p <= q <= |s|
    ensures s[p..] == s[p..q] + s[q..]
  {
  }

  /** Scanning loses nothing: the kept characters and the tokens, in order, are the line. */
  lemma {:induction false} ScanFlatten(s: string, p: nat)
    requires p <= |s|
    ensures Flatten(Scan(s, p)) == s[p..]
    decreases |s| - p
  {
    if p < |s| {
      var q := Next(s, p);
      ScanFlatten(s, q);
      PieceAtText(s, p);
      FlattenCons(PieceAt(s, p), Scan(s, q));
      SliceSplit(s, p, q);
    }
  }

  /** Every removed piece is an attribute token. */
  lemma {:induction false} ScanPieces(s: string, p: nat, k: nat)
    requires p <= |s| && k < |Scan(s, p)|
    ensures Scan(s, p)[k].Token? ==> IsToken(Scan(s, p)[k].text)
    decreases k
  {
    if k == 0 {
      if TokenEnd(s, p).Some? {
        TokenEndIsToken(s, p);
      }
    } else {
      ScanPieces(s, Next(s, p), k - 1);
      assert Scan(s, p)[k] == Scan(s, Next(s, p))[k - 1];
    }
  }

  /** A kept character is one at which no token starts. */
  lemma {:induction false} ScanKept(s: string, p: nat, k: nat)
    requires p <= |s| && k < |Scan(s, p)|
    ensures Scan(s, p)[k].Kept? ==> exists i :: p <= i < |s| && TokenEnd(s, i).None? && Scan(s, p)[k].c == s[i]
    decreases k
  {
    if k == 0 {
      if TokenEnd(s, p).None? {
        assert Scan(s, p)[0] == Kept(s[p]);
      }
    } else {
      ScanKept(s, Next(s, p), k - 1);
      assert Scan(s, p)[k] == Scan(s, Next(s, p))[k - 1];
    }
  }

  /** A line without an opening brace has no token, so it passes unchanged. */
  lemma {:induction false} NoBraceKept(s: string, p: nat)
    requires p <= |s|
    requires forall i :: p <= i < |s| ==> s[i] != '{'
    ensures KeptText(Scan(s, p)) == s[p..]
    decreases |s| - p
  {
    if p < |s| {
      var j := p + SpaceRun(s, p);
      assert j < |s| ==> s[j] != '{';
      assert TokenEnd(s, p).None?;
      NoBraceKept(s, p + 1);
      assert Scan(s, p) == [Kept(s[p])] + Scan(s, p + 1);
      assert s[p..] == [s[p]] + s[p + 1..];
    }
  }

  // ---------------------------------------------------------------------
  // Headings with an anchor, setext underlines
  // ---------------------------------------------------------------------

  /** `^(#{1,6})\s+`: one to six `#` and a whitespace character. */
  predicate AtxPrefix(line: string) {
    var h := CharRun(line, 0, '#');
    1 <= h <= 6 && h < |line| && IsSpace(line[h])
  }

  /**
   * `^(#{1,6})\s+.*\{#[A-Za-z0-9_-]+\}\s*$`: an ATX heading ending in an
   * anchor. The `{` of the anchor necessarily lies after the whitespace.
   */
  predicate IsAnchoredHeading(line: string) {
    AtxPrefix(line) && HasAnchor(line)
  }

  /**
   * The whitespace around the final `{#id}` anchor becomes one space before
   * it, and nothing follows it.
   */
  function CleanHeading(line: string): string
    requires HasAnchor(line)
  {
    RStrip(HeadText(line) + " {#" + AnchorId(line) + "}")
  }

  /** The heading line before its final anchor, trailing whitespace removed. */
  function HeadText(line: string): string
    requires HasAnchor(line)
  {
    var t := RStrip(line);
    RStrip(t[..IdSuffix(t).value])
  }

  /** The id of the final anchor. */
  function AnchorId(line: string): (id: string)
    requires HasAnchor(line)
    ensures IsId(id)
  {
    var t := RStrip(line);
    t[IdSuffix(t).value + 2..|t| - 1]
  }

  /** `^[=-]{3,}\s*$`: three or more of `=` and `-`, in any mix, then whitespace. */
  predicate IsUnderlineRun(line: string) {
    var k := RuleRun(line, 0);
    k >= 3 && AllSpace(line[k..])
  }

  function RuleRun(s: string, p: nat): (n: nat)
    requires p <= |s|
    ensures p + n <= |s|
    ensures forall i :: p <= i < p + n ==> s[i] == '=' || s[i] == '-'
    decreases |s| - p
  {
    if p == |s| || (s[p] != '=' && s[p] != '-') then 0 else 1 + RuleRun(s, p + 1)
  }

  /** The cleaned heading keeps the anchor, preceded by exactly one space, and has no trailing whitespace. */
  lemma CleanHeadingShape(line: string)
    requires HasAnchor(line)
    ensures var r := CleanHeading(line);
      && r == HeadText(line) + " {#" + AnchorId(line) + "}"
      && IdSuffix(r) == Some(|HeadText(line)| + 1)
      && r[|HeadText(line)|] == ' '
      && RStrip(r) == r
  {
    AnchorForm(HeadText(line), AnchorId(line));
  }

  /** Cleaning a cleaned heading changes nothing. */
  lemma CleanHeadingIdempotent(line: string)
    requires HasAnchor(line)
    ensures HasAnchor(CleanHeading(line))
    ensures CleanHeading(CleanHeading(line)) == CleanHeading(line)
  {
    var b := HeadText(line);
    var id := AnchorId(line);
    var r := CleanHeading(line);
    CleanHeadingShape(line);
    assert r[..|b| + 1] == b + " ";
    assert r[|b| + 3..|r| - 1] == id;
    RStripSpace(b);
    assert HeadText(r) == b;
    assert AnchorId(r) == id;
  }

  /** A space appended to a right-stripped text is stripped again. */
  lemma RStripSpace(b: string)
    ensures RStrip(RStrip(b) + " ") == RStrip(b)
  {
    var c := RStrip(b);
    assert (c + " ")[..|c|] == c;
    assert c == [] || !IsSpace(c[|c| - 1]);
  }

  /** ` {#id}` appended to any text is found again as the final anchor. */
  lemma AnchorForm(b: string, id: string)
    requires IsId(id)
    ensures var r := b + " {#" + id + "}";
      IdSuffix(r) == Some(|b| + 1) && r[|b|] == ' ' && RStrip(r) == r
  {
    var r := b + " {#" + id + "}";
    assert r == (b + " ") + "{#" + id + "}";
    IdSuffixComplete(b + " ", id);
    EndsClosed(r);
  }

  lemma EndsClosed(r: string)
    requires r != [] && r[|r| - 1] == '}'
    ensures RStrip(r) == r
  {
    assert !IsSpace('}');
  }

  // ---------------------------------------------------------------------
  // The line loop
  // ---------------------------------------------------------------------

  /** The output for lines `i..`, as the source's loop produces it with fence state `inCode`. */
  function SanitizeFrom(lines: seq<string>, i: nat, inCode: bool): (out: seq<string>)
    requires i <= |lines|
    ensures |out| == |lines| - i
    decreases |lines| - i
  {
    if i == |lines| then []
    else
      var line := lines[i];
      if IsFenceLine(line) then [line] + SanitizeFrom(lines, i + 1, !inCode)
      else if inCode then [line] + SanitizeFrom(lines, i + 1, inCode)
      else if IsAnchoredHeading(line) then [CleanHeading(line)] + SanitizeFrom(lines, i + 1, inCode)
      else if i + 1 < |lines| && IsUnderlineRun(lines[i + 1]) then [line, lines[i + 1]] + SanitizeFrom(lines, i + 2, inCode)
      else [StripTokens(line)] + SanitizeFrom(lines, i + 1, inCode)
  }

  /** `sanitize_attr_tokens` on the lines of a document. */
  function SanitizeLines(lines: seq<string>): (out: seq<string>)
    ensures |out| == |lines|
  {
    SanitizeFrom(lines, 0, false)
  }

  /** `sanitize_attr_tokens`: split into lines, sanitize, join with newlines. */
  function SanitizeAttrTokens(md: string): string {
    Join(SanitizeLines(SplitLines(md)), "\n")
  }

  /**
   * What happens to line `k`, decided from that line, the one after it and
   * the fence state alone: code is copied, an anchored heading is cleaned,
   * a setext text or underline is copied, any other line loses its tokens.
   */
  function LineOut(lines: seq<string>, k: nat): string
    requires k < |lines|
  {
    var line := lines[k];
    if IsFenceLine(line) || InCodeAt(lines, k) then line
    else if IsAnchoredHeading(line) then CleanHeading(line)
    else if IsUnderlineRun(line) || (k + 1 < |lines| && IsUnderlineRun(lines[k + 1])) then line
    else StripTokens(line)
  }

  lemma UnderlineRunPlain(line: string)
    requires IsUnderlineRun(line)
    ensures !IsFenceLine(line) && !IsAnchoredHeading(line)
    ensures StripTokens(line) == line
  {
    assert line[0] == '=' || line[0] == '-';
    var k := RuleRun(line, 0);
    forall i | 0 <= i < |line| ensures line[i] != '{' {
      if i >= k {
        assert line[k..][i - k] == line[i];
      }
    }
    NoBraceKept(line, 0);
  }

  /** Line `i` opens a setext pair the loop copies as a whole. */
  predicate PairAt(lines: seq<string>, i: nat)
    requires i < |lines|
  {
    && !IsFenceLine(lines[i]) && !InCodeAt(lines, i) && !IsAnchoredHeading(lines[i])
    && i + 1 < |lines| && IsUnderlineRun(lines[i + 1])
  }

  /** Outside a setext pair, the loop emits `LineOut` for line `i` and goes on at `i + 1`. */
  lemma SanitizeOne(lines: seq<string>, i: nat)
    requires i < |lines| && !PairAt(lines, i)
    ensures SanitizeFrom(lines, i, InCodeAt(lines, i))
      == [LineOut(lines, i)] + SanitizeFrom(lines, i + 1, InCodeAt(lines, i + 1))
  {
    InCodeStep(lines, i);
    if IsUnderlineRun(lines[i]) {
      UnderlineRunPlain(lines[i]);
    }
  }

  /** A setext pair: the loop emits `LineOut` for both lines and goes on at `i + 2`. */
  lemma SanitizePair(lines: seq<string>, i: nat)
    requires i < |lines| && PairAt(lines, i)
    ensures i + 2 <= |lines|
    ensures SanitizeFrom(lines, i, InCodeAt(lines, i))
      == [LineOut(lines, i), LineOut(lines, i + 1)] + SanitizeFrom(lines, i + 2, InCodeAt(lines, i + 2))
  {
    InCodeStep(lines, i);
    InCodeStep(lines, i + 1);
    UnderlineRunPlain(lines[i + 1]);
  }

  /** The per-line decisions for lines `i..`. */
  function LineOuts(lines: seq<string>, i: nat): (r: seq<string>)
    requires i <= |lines|
    ensures |r| == |lines| - i
    decreases |lines| - i
  {
    if i == |lines| then [] else [LineOut(lines, i)] + LineOuts(lines, i + 1)
  }

  /** The loop's output from line `i` on is the per-line decisions for those lines. */
  lemma {:induction false} SanitizeFromOuts(lines: seq<string>, i: nat)
    requires i <= |lines|
    ensures SanitizeFrom(lines, i, InCodeAt(lines, i)) == LineOuts(lines, i)
    decreases |lines| - i
  {
    if i < |lines| {
      if PairAt(lines, i) {
        SanitizePair(lines, i);
        SanitizeFromOuts(lines, i + 2);
        assert LineOuts(lines, i + 1) == [LineOut(lines, i + 1)] + LineOuts(lines, i + 2);
        assert LineOuts(lines, i) == [LineOut(lines, i), LineOut(lines, i + 1)] + LineOuts(lines, i + 2);
      } else {
        SanitizeOne(lines, i);
        SanitizeFromOuts(lines, i + 1);
      }
    }
  }

  /** Entry `k - i` of the decisions from `i` on is line `k`'s. */
  lemma {:induction false} LineOutsAt(lines: seq<string>, i: nat, k: nat)
    requires i <= k < |lines|
    ensures LineOuts(lines, i)[k - i] == LineOut(lines, k)
    decreases k - i
  {
    if k > i {
      LineOutsAt(lines, i + 1, k);
      IndexPast([LineOut(lines, i)], LineOuts(lines, i + 1), k - i);
    }
  }

  lemma IndexPast<T>(a: seq<T>, b: seq<T>, j: nat)
    requires |a| <= j < |a| + |b|
    ensures (a + b)[j] == b[j - |a|]
  {
  }

  /**
   * The output has as many lines as the input, and each output line is the
   * per-line decision: fenced code verbatim, anchored headings cleaned,
   * setext pairs verbatim, tokens stripped everywhere else.
   */
  lemma SanitizeLinesAt(lines: seq<string>, k: nat)
    requires k < |lines|
    ensures |SanitizeLines(lines)| == |lines|
    ensures SanitizeLines(lines)[k] == LineOut(lines, k)
  {
    SanitizeFromOuts(lines, 0);
    LineOutsAt(lines, 0, k);
  }

  lemma Regroup(out: seq<string>, head: seq<string>, tail: seq<string>)
    ensures (out + head) + tail == out + (head + tail)
  {
  }

  /** The source's while loop. */
  method SanitizeLoop(lines: seq<string>) returns (out: seq<string>)
    ensures out == SanitizeLines(lines)
  {
    out := [];
    var inCode := false;
    var i := 0;
    while i < |lines|
      invariant i <= |lines|
      invariant out + SanitizeFrom(lines, i, inCode) == SanitizeLines(lines)
      decreases |lines| - i
    {
      var line := lines[i];
      if IsFenceLine(line) {
        Regroup(out, [line], SanitizeFrom(lines, i + 1, !inCode));
        inCode := !inCode;
        out := out + [line];
        i := i + 1;
        continue;
      }
      if inCode {
        Regroup(out, [line], SanitizeFrom(lines, i + 1, inCode));
        out := out + [line];
        i := i + 1;
        continue;
      }
      if IsAnchoredHeading(line) {
        Regroup(out, [CleanHeading(line)], SanitizeFrom(lines, i + 1, inCode));
        out := out + [CleanHeading(line)];
        i := i + 1;
        continue;
      }
      if i + 1 < |lines| && IsUnderlineRun(lines[i + 1]) {
        Regroup(out, [line, lines[i + 1]], SanitizeFrom(lines, i + 2, inCode));
        assert out + [line] + [lines[i + 1]] == out + [line, lines[i + 1]];
        out := out + [line];
        i := i + 1;
        out := out + [lines[i]];
        i := i + 1;
        continue;
      }
      Regroup(out, [StripTokens(line)], SanitizeFrom(lines, i + 1, inCode));
      out := out + [StripTokens(line)];
      i := i + 1;
    }
  }

  /** `sanitize_attr_tokens` on the text of a document. */
  method SanitizeText(md: string) returns (r: string)
    ensures r == SanitizeAttrTokens(md)
  {
    var out := SanitizeLoop(SplitLines(md));
    r := Join(out, "\n");
  }
}
