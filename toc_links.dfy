/**
 * Where the links of the TOC that `build_toc` (docnexus/features/standard.py:186-387)
 * writes lead: each entry's anchor is the id its heading line carries
 * in the output document, unless the heading's slug is empty.
 */
module TocLinks {
  import opened Text
  import opened Slug
  import opened Toc
  import opened TocTree
  import Headings

  /** The id a line ends with, trailing whitespace ignored. */
  function LineId(line: string): (r: Option<string>)
    ensures r.Some? ==> IsId(r.value)
    ensures r.Some? <==> Headings.HasAnchor(line)
  {
    var t := RStrip(line);
    match Headings.IdSuffix(t)
    case Some(q) => Some(t[q + 2..|t| - 1])
    case None => None
  }

  /** Every heading with a display text has its entry, built from its own line. */
  lemma {:induction false} EntryOfHeading(lines: seq<string>, hs: seq<Heading>, j: nat)
    requires InRange(hs, |lines|) && j < |hs| && Display(hs[j].text).Some?
    ensures var d := Display(hs[j].text).value;
      Entry(hs[j].level, d, AnchorOf(lines[hs[j].idx], d)) in Entries(lines, hs)
  {
    if j < |hs| - 1 {
      assert Init(hs)[j] == hs[j];
      EntryOfHeading(lines, Init(hs), j);
      EntriesGrow(lines, hs);
    } else {
      EntriesLast(lines, hs);
    }
  }

  /** The entries of the headings before the last are entries of all of them. */
  lemma EntriesGrow(lines: seq<string>, hs: seq<Heading>)
    requires InRange(hs, |lines|) && hs != []
    ensures InRange(Init(hs), |lines|)
    ensures forall e :: e in Entries(lines, Init(hs)) ==> e in Entries(lines, hs)
  {
    var h := Last(hs);
    if Display(h.text).Some? {
      var d := Display(h.text).value;
      assert Entries(lines, hs) == Entries(lines, Init(hs)) + [Entry(h.level, d, AnchorOf(lines[h.idx], d))];
    } else {
      assert Entries(lines, hs) == Entries(lines, Init(hs));
    }
  }

  /** The last heading's entry, when it has a display text, ends the entries. */
  lemma EntriesLast(lines: seq<string>, hs: seq<Heading>)
    requires InRange(hs, |lines|) && hs != [] && Display(Last(hs).text).Some?
    ensures var h := Last(hs); var d := Display(h.text).value;
      Entry(h.level, d, AnchorOf(lines[h.idx], d)) in Entries(lines, hs)
  {
    var h := Last(hs);
    var d := Display(h.text).value;
    assert Entries(lines, hs) == Entries(lines, Init(hs)) + [Entry(h.level, d, AnchorOf(lines[h.idx], d))];
  }

  /** A heading line carries an id after the id pass when it had one or its slug is not empty. */
  lemma HeadingCarriesId(lines: seq<string>, hs: seq<Heading>, j: nat)
    requires InRange(hs, |lines|) && Toc.Increasing(hs) && j < |hs|
    requires Headings.HasAnchor(lines[hs[j].idx]) || Slugify(hs[j].text) != []
    ensures LineId(Anchor(lines, hs)[hs[j].idx]).Some?
  {
    AnchorAtHeading(lines, hs, j);
    if !Headings.HasAnchor(lines[hs[j].idx]) {
      AnchorOfRewritten(hs[j], []);
    }
  }

  /** A line that carries an id leads its entry to that id. */
  lemma AnchorOfLineId(line: string, d: string)
    requires LineId(line).Some?
    ensures AnchorOf(line, d) == LineId(line).value
  {
  }

  /** Splicing the placeholder in loses no line. */
  lemma SpliceKeeps(ls: seq<string>, k: nat, p: string, i: nat)
    requires k <= |ls| && i < |ls|
    ensures ls[i] in Splice(ls, k, p)
  {
    SpliceFacts(ls, k, p);
    var out := Splice(ls, k, p);
    if i < k {
      assert out[i] == ls[i];
    } else {
      assert out[i + 2] == ls[i];
    }
  }

  /** Every line of the anchored document is a line of the output. */
  lemma AnchoredLineKept(lines: seq<string>, hs: seq<Heading>, i: nat)
    requires InRange(hs, |lines|) && i < |lines|
    ensures Anchor(lines, hs)[i] in Spliced(lines, hs)
  {
    FirstH1Sound(hs);
    var ls := Anchor(lines, hs);
    var k := InsertIndex(ls, FirstH1(hs));
    SpliceKeeps(ls, k, Placeholder(TocTreeOf(Entries(ls, hs))), i);
  }

  /**
   * Every TOC link resolves: the heading line of each entry carries an id
   * in the output document, and the entry links to exactly that id. It
   * needs the heading to have had an id already or a non-empty slug.
   */
  lemma TocLinksResolve(lines: seq<string>, hs: seq<Heading>, j: nat)
    requires InRange(hs, |lines|) && Toc.Increasing(hs) && j < |hs|
    requires Display(hs[j].text).Some?
    requires Headings.HasAnchor(lines[hs[j].idx]) || Slugify(hs[j].text) != []
    ensures var ls := Anchor(lines, hs);
      var line := ls[hs[j].idx];
      var d := Display(hs[j].text).value;
      && LineId(line).Some?
      && Entry(hs[j].level, d, LineId(line).value) in Entries(ls, hs)
      && line in Spliced(lines, hs)
  {
    var ls := Anchor(lines, hs);
    var line := ls[hs[j].idx];
    HeadingCarriesId(lines, hs, j);
    AnchorOfLineId(line, Display(hs[j].text).value);
    EntryOfHeading(ls, hs, j);
    AnchoredLineKept(lines, hs, hs[j].idx);
  }

  /**
   * A heading whose slug is empty breaks that promise: `# !!!` is
   * rewritten as `# !!! {#}`, which carries no valid id, and its TOC
   * entry links to the empty anchor.
   */
  lemma EmptySlugLink()
    ensures Slugify("!!!") == []
    ensures Anchored("# !!!", Heading(1, "!!!", 0)) == "# !!! {#}"
    ensures LineId("# !!! {#}") == None
    ensures AnchorOf("# !!! {#}", "!!!") == []
  {
    assert Slugify("!!!") == [];
    assert RStrip("# !!!") == "# !!!";
    assert !Headings.HasAnchor("# !!!");
    assert RStrip("# !!! {#}") == "# !!! {#}";
    assert Headings.IdSuffix("# !!! {#}") == None;
  }
}
