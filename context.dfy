/**
 * `convert_ascii_tables_to_markdown` of docnexus/app.py:279-612: every
 * untagged fenced block is read together with the heading above it and
 * becomes a Mermaid flowchart, a Mermaid sequence diagram or a Markdown
 * table, in that order of preference, or stays as it is.
 */
module Context {
  import opened Text
  import opened Fences
  import opened ContextDetect
  import ContextTopology
  import ContextSip
  import ContextTable

  /** The lines of a block: its body stripped, then split at every newline. */
  function BlockLines(body: string): (r: seq<string>)
    ensures |r| >= 1
  {
    SplitOn(Strip(body), '\n')
  }

  /** `'\n' + converted + '\n'`. */
  function Framed(d: string): string {
    "\n" + d + "\n"
  }

  /** A flowchart when the lines look like a topology and yield two nodes or more. */
  function AutoTopology(lines: seq<string>): Option<string> {
    if DetectTopology(lines) then
      match ContextTopology.TopologyDiagram(lines)
      case Some(d) => Some(Framed(d))
      case None => None
    else None
  }

  /** A sequence diagram, framed. */
  function Ladder(lines: seq<string>): string {
    Framed(ContextSip.SipDiagram(lines))
  }

  /** Priorities 1 and 2: a flowchart when the heading names a topology, a sequence diagram when it names a flow. */
  function Guided(lines: seq<string>, st: bool, ss: bool): Option<string> {
    if st && AutoTopology(lines).Some? then AutoTopology(lines)
    else if ss && DetectSip(lines) then Some(Ladder(lines))
    else None
  }

  /** Priority 3, for a heading that names neither: a flowchart, else a sequence diagram. */
  function Unguided(lines: seq<string>): Option<string> {
    if AutoTopology(lines).Some? then AutoTopology(lines)
    else if DetectSip(lines) then Some(Ladder(lines))
    else None
  }

  /** Priority 4: a Markdown table. */
  function Tabular(lines: seq<string>): Option<string> {
    if DetectSimpleTable(lines) then Some(ContextTable.ConvertTableSpec(lines)) else None
  }

  /**
   * `process_code_block_with_context`: the replacement of a block, or
   * `None` when the block is kept as it is.
   */
  function Convert(lines: seq<string>, heading: string): Option<string> {
    var st := SuggestsTopology(heading);
    var ss := SuggestsSignaling(heading);
    if |lines| < 2 then None
    else if Guided(lines, st, ss).Some? then Guided(lines, st, ss)
    else if !st && !ss && Unguided(lines).Some? then Unguided(lines)
    else Tabular(lines)
  }

  /** The converter keeps the block of a match as it is. */
  predicate Kept(md: string, f: Fence) {
    f.start + 4 <= f.body <= f.close && End(f) <= |md|
    && Convert(BlockLines(BodyText(md, f)), PrecedingHeading(md, f.start)).None?
  }

  /** What a match is replaced by. */
  function Rep(md: string, f: Fence): string
    requires f.start + 4 <= f.body <= f.close && End(f) <= |md|
  {
    match Convert(BlockLines(BodyText(md, f)), PrecedingHeading(md, f.start))
    case Some(r) => r
    case None => MatchText(md, f)
  }

  function Reps(md: string, ms: seq<Fence>): (r: seq<string>)
    requires Tiled(md, ms, 0)
    ensures |r| == |ms|
    ensures forall i :: 0 <= i < |ms| ==> r[i] == Rep(md, ms[i])
  {
    seq(|ms|, i requires 0 <= i < |ms| => Rep(md, ms[i]))
  }

  /** The converted document. */
  function ConvertSpec(md: string): string {
    var ms := Matches(md, 0, Plain);
    Splice(md, ms, Reps(md, ms), 0, 0)
  }

  // ---------------------------------------------------------------------
  // The loops
  // ---------------------------------------------------------------------

  /** The topology branch: the nested converter, framed when it yields a diagram. */
  method TopologyBranch(lines: seq<string>) returns (r: Option<string>)
    requires DetectTopology(lines)
    ensures r == AutoTopology(lines)
  {
    var d := ContextTopology.ConvertTopology(lines);
    r := None;
    if d.Some? {
      r := Some(Framed(d.value));
    }
  }

  /** The signalling branch: the nested converter, framed. */
  method SipBranch(lines: seq<string>) returns (r: string)
    ensures r == Ladder(lines)
  {
    var d := ContextSip.ConvertSip(lines);
    r := Framed(d);
  }

  /** Priorities 1 and 2. */
  method GuidedBranch(lines: seq<string>, st: bool, ss: bool) returns (r: Option<string>)
    ensures r == Guided(lines, st, ss)
  {
    r := None;
    if st && DetectTopology(lines) {
      r := TopologyBranch(lines);
      if r.Some? {
        return;
      }
    }
    if ss && DetectSip(lines) {
      var d := SipBranch(lines);
      r := Some(d);
    }
  }

  /** Priority 3. */
  method UnguidedBranch(lines: seq<string>) returns (r: Option<string>)
    ensures r == Unguided(lines)
  {
    r := None;
    if DetectTopology(lines) {
      r := TopologyBranch(lines);
      if r.Some? {
        return;
      }
    }
    if DetectSip(lines) {
      var d := SipBranch(lines);
      r := Some(d);
    }
  }

  /** Priority 4. */
  method TableBranch(lines: seq<string>) returns (r: Option<string>)
    ensures r == Tabular(lines)
  {
    r := None;
    if DetectSimpleTable(lines) {
      var t := ContextTable.ConvertTable(lines);
      r := Some(t);
    }
  }

  /** `process_code_block_with_context` on a block's lines and heading. */
  method ProcessBlock(lines: seq<string>, heading: string) returns (r: Option<string>)
    ensures r == Convert(lines, heading)
  {
    if |lines| < 2 {
      return None;
    }
    var st := SuggestsTopology(heading);
    var ss := SuggestsSignaling(heading);
    r := GuidedBranch(lines, st, ss);
    if r.Some? {
      return;
    }
    if !st && !ss {
      r := UnguidedBranch(lines);
      if r.Some? {
        return;
      }
    }
    r := TableBranch(lines);
  }

  /** One block of the loop: its heading, then the converted or the original text. */
  method ReplaceBlock(md: string, m: Fence) returns (processed: string)
    requires m.start + 4 <= m.body <= m.close && End(m) <= |md|
    ensures processed == Rep(md, m)
  {
    var heading := PrecedingHeading(md, m.start);
    var c := ProcessBlock(BlockLines(BodyText(md, m)), heading);
    processed := if c.Some? then c.value else MatchText(md, m);
  }

  /** `convert_ascii_tables_to_markdown`: copy the text between blocks, and each block converted or kept. */
  method ConvertAsciiTables(md: string) returns (r: string)
    ensures r == ConvertSpec(md)
  {
    var ms := Matches(md, 0, Plain);
    ghost var reps := Reps(md, ms);
    var out := "";
    var last: nat := 0;
    var i: nat := 0;
    while i < |ms|
      invariant CursorBefore(md, ms, i, last)
      invariant out + Splice(md, ms, reps, i, last) == ConvertSpec(md)
      decreases |ms| - i
    {
      var m := ms[i];
      var processed := ReplaceBlock(md, m);
      SpliceStep(md, ms, reps, i, last, out);
      out := out + md[last..m.start] + processed;
      last := End(m);
      i := i + 1;
    }
    r := out + md[last..];
  }

  // ---------------------------------------------------------------------
  // Properties
  // ---------------------------------------------------------------------

  /** A block of one line is never converted. */
  lemma OneLineKept(body: string, heading: string)
    requires FindChar(Strip(body), '\n', 0) == |Strip(body)|
    ensures Convert(BlockLines(body), heading) == None
  {
    SplitOnSingle(Strip(body));
  }

  /** Without a line break there is one piece. */
  lemma {:induction false} SplitOnSingle(s: string)
    requires FindChar(s, '\n', 0) == |s|
    ensures |SplitOn(s, '\n')| == 1
    decreases |s|
  {
    if s != [] {
      FindCharShift(s);
      SplitOnSingle(s[1..]);
    }
  }

  lemma FindCharShift(s: string)
    requires s != [] && FindChar(s, '\n', 0) == |s|
    ensures s[0] != '\n' && FindChar(s[1..], '\n', 0) == |s[1..]|
  {
    FindCharFrom(s, 1);
  }

  /** Past a position where the whole tail has no line break, dropping the head changes nothing. */
  lemma {:induction false} FindCharFrom(s: string, p: nat)
    requires 1 <= p <= |s| && FindChar(s, '\n', 0) == |s|
    ensures FindChar(s[1..], '\n', p - 1) == |s[1..]|
    decreases |s| - p
  {
    if p < |s| {
      FindCharFrom(s, p + 1);
    }
  }

  /** A heading that names a topology keeps the block from becoming a sequence diagram unless it also names a flow. */
  lemma TopologyHeadingBlocksSip(lines: seq<string>, heading: string)
    requires SuggestsTopology(heading) && !SuggestsSignaling(heading)
    ensures Convert(lines, heading).Some? && |lines| >= 2 && AutoTopology(lines).None? ==>
      DetectSimpleTable(lines) && Convert(lines, heading) == Some(ContextTable.ConvertTableSpec(lines))
  {
  }

  /** A heading that names a topology, over a block that yields a flowchart, gives the flowchart even when the block also looks like a ladder. */
  lemma TopologyFirst(lines: seq<string>, heading: string)
    requires |lines| >= 2 && SuggestsTopology(heading) && AutoTopology(lines).Some?
    ensures Convert(lines, heading) == AutoTopology(lines)
  {
  }

  /** Putting a block's text back when the converter keeps it: a document whose blocks are all kept comes back unchanged. */
  lemma KeptDocument(md: string)
    requires forall f :: f in Matches(md, 0, Plain) ==> Kept(md, f)
    ensures ConvertSpec(md) == md
  {
    var ms := Matches(md, 0, Plain);
    var reps := Reps(md, ms);
    forall k | 0 <= k < |ms|
      ensures reps[k] == MatchText(md, ms[k])
    {
      assert ms[k] in ms;
      KeptBlock(md, ms[k]);
    }
    SpliceIdentity(md, ms, reps, 0, 0);
  }

  /** A block the converter keeps is replaced by its own text. */
  lemma KeptBlock(md: string, f: Fence)
    requires Kept(md, f)
    ensures Rep(md, f) == MatchText(md, f)
  {
  }

  /** A string starts with any of its prefixes. */
  lemma PrefixOf(a: string, b: string)
    ensures StartsWith(a + b, a)
  {
    assert (a + b)[..|a|] == a;
  }

  /** Framed Mermaid lines start the block on a line of their own. */
  lemma MermaidHead(ls: seq<string>)
    requires |ls| >= 2 && ls[0] == "```mermaid"
    ensures StartsWith(Framed(Join(ls, "\n")), "\n```mermaid\n")
  {
    var rest := Join(ls[1..], "\n") + "\n";
    assert Framed(Join(ls, "\n")) == ("\n" + ls[0] + "\n") + rest;
    PrefixOf("\n" + ls[0] + "\n", rest);
  }

  /** Framed table lines start with a table row on a line of its own. */
  lemma TableRowHead(ls: seq<string>)
    requires |ls| >= 2 && StartsWith(ls[0], "| ")
    ensures StartsWith(Framed(Join(ls, "\n")), "\n| ")
  {
    var rest := ls[0][2..] + "\n" + Join(ls[1..], "\n") + "\n";
    assert ls[0] == "| " + ls[0][2..];
    assert Framed(Join(ls, "\n")) == "\n| " + rest;
    PrefixOf("\n| ", rest);
  }

  /** A flowchart block starts a Mermaid block on a line of its own. */
  lemma FlowchartHead(lines: seq<string>)
    requires AutoTopology(lines).Some?
    ensures StartsWith(AutoTopology(lines).value, "\n```mermaid\n")
  {
    var t := ContextTopology.ExtractNodes(Join(lines, "\n"));
    ContextTopology.FlowchartShape(t);
    var ls := ContextTopology.FlowchartLines(t);
    MermaidHead(ls);
    assert AutoTopology(lines).value == Framed(Join(ls, "\n"));
  }

  /** A sequence diagram block starts a Mermaid block on a line of its own. */
  lemma LadderHead(lines: seq<string>)
    ensures StartsWith(Ladder(lines), "\n```mermaid\n")
  {
    var ls := ContextSip.DiagramLines(lines);
    MermaidHead(ls);
    assert Ladder(lines) == Framed(Join(ls, "\n"));
  }

  /** A table block starts a Markdown table row on a line of its own. */
  lemma TableHead(lines: seq<string>)
    requires DetectSimpleTable(lines)
    ensures StartsWith(ContextTable.ConvertTableSpec(lines), "\n| ")
  {
    var rows := TableRows(lines);
    ContextTable.TableShape(rows);
    var ls := ContextTable.TableLines(rows);
    TableRowHead(ls);
    assert ContextTable.ConvertTableSpec(lines) == Framed(Join(ls, "\n"));
  }

  /** A converted block is a Mermaid diagram or a Markdown table, each starting on a line of its own. */
  lemma ConvertedShape(lines: seq<string>, heading: string)
    requires Convert(lines, heading).Some?
    ensures var r := Convert(lines, heading).value;
      StartsWith(r, "\n```mermaid\n") || StartsWith(r, "\n| ")
  {
    var st := SuggestsTopology(heading);
    var ss := SuggestsSignaling(heading);
    if AutoTopology(lines).Some? && (st || !ss) {
      FlowchartHead(lines);
    } else if DetectSip(lines) && (ss || !st) {
      LadderHead(lines);
    } else {
      TableHead(lines);
    }
  }
}
