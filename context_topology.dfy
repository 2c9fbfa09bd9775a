/**
 * The nested `convert_topology_to_mermaid` of docnexus/app.py:340-392:
 * network elements are read from the block with three case-insensitive
 * patterns, and two or more of them become a left-to-right chain of
 * flowchart nodes joined by `TCP/RTP` edges.
 */
module ContextTopology {
  import opened Text

  // ---------------------------------------------------------------------
  // The three patterns, matched at one position
  // ---------------------------------------------------------------------

  /** `lit` at `p`, ignoring the case of ASCII letters. */
  predicate CiAt(s: string, p: nat, lit: string) {
    p + |lit| <= |s| && forall k :: 0 <= k < |lit| ==> LowerChar(s[p + k]) == LowerChar(lit[k])
  }

  /** `\s*\(([^)]+)\)` at `q`: the end of the match, if it matches. */
  function ParenTail(s: string, q: nat): (r: Option<nat>)
    requires q <= |s|
    ensures r.Some? ==> q < r.value <= |s| && s[r.value - 1] == ')'
  {
    var o := q + SpaceRun(s, q);
    if o < |s| && s[o] == '(' then
      var c := FindChar(s, ')', o + 1);
      if c < |s| && c > o + 1 then Some(c + 1) else None
    else None
  }

  /** The alternatives of the second pattern, in the order they are tried. */
  const ElementNames: seq<string> := ["Crestone Router", "Router", "Server", "Gateway", "Proxy"]

  /** The length of the first alternative that occurs at `p`, or 0. The alternatives start with different letters, so at most one can. */
  function ElementAt(s: string, p: nat, k: nat): (n: nat)
    requires k <= |ElementNames|
    ensures n > 0 ==> p + n <= |s|
    decreases |ElementNames| - k
  {
    if k == |ElementNames| then 0
    else if CiAt(s, p, ElementNames[k]) then |ElementNames[k]|
    else ElementAt(s, p, k + 1)
  }

  /** The patterns of `patterns`, in order. */
  datatype Pat = Endpoint | Element | Crestone

  /**
   * Where a match of the pattern that starts at `p` ends, if there is one:
   *  - `(UAC|UAS)\s*\(([^)]+)\)`;
   *  - `(Crestone Router|Router|Server|Gateway|Proxy)\s*(\d+)?\s*\(([^)]+)\)`;
   *  - `(Crestone Router \d+)`.
   * Spaces, digits and `(` are disjoint classes, so the greedy runs are the
   * only way to reach the `(`, and the first `)` ends `[^)]+`.
   */
  function PatAt(s: string, p: nat, pat: Pat): (r: Option<nat>)
    requires p <= |s|
    ensures r.Some? ==> p < r.value <= |s|
  {
    match pat
    case Endpoint =>
      if CiAt(s, p, "UAC") || CiAt(s, p, "UAS") then ParenTail(s, p + 3) else None
    case Element =>
      var n := ElementAt(s, p, 0);
      if n == 0 then None
      else
        var q := p + n + SpaceRun(s, p + n);
        ParenTail(s, q + DigitRun(s, q))
    case Crestone =>
      if CiAt(s, p, "Crestone Router ") then
        var d := DigitRun(s, p + 16);
        if d >= 1 then Some(p + 16 + d) else None
      else None
  }

  /** The case-insensitive matches of a pattern from `p` on, as `(start, end)`, left to right, without overlap. */
  function Finditer(s: string, p: nat, pat: Pat): (r: seq<(nat, nat)>)
    requires p <= |s|
    ensures forall k :: 0 <= k < |r| ==> p <= r[k].0 < r[k].1 <= |s|
    decreases |s| - p
  {
    if p == |s| then []
    else
      match PatAt(s, p, pat)
      case Some(e) => [(p, e)] + Finditer(s, e, pat)
      case None => Finditer(s, p + 1, pat)
  }

  // ---------------------------------------------------------------------
  // Nodes
  // ---------------------------------------------------------------------

  /** The text before the first `c`, or all of it when there is none. */
  function Before(s: string, c: char): string {
    s[..FindChar(s, c, 0)]
  }

  /** What follows the first `c`; the second piece of a split at `c` is `Before(After(s, c), c)`. */
  function After(s: string, c: char): string {
    var k := FindChar(s, c, 0);
    if k < |s| then s[k + 1..] else []
  }

  /** `nodes` and `node_details`. */
  datatype NodeTable = NodeTable(nodes: seq<string>, details: map<string, string>)

  /** The loop body for one match `full`. */
  function AddMatch(t: NodeTable, full: string): NodeTable {
    if ContainsChar(full, '(') then
      var name := Strip(Before(full, '('));
      var detail := Strip(Before(Before(After(full, '('), '('), ')'));
      if name !in t.nodes then NodeTable(t.nodes + [name], t.details[name := detail]) else t
    else if full !in t.nodes && |full| < 50 then NodeTable(t.nodes + [full], t.details)
    else t
  }

  /** The table after the matches `hs` of the text, in order. */
  function AddMatches(t: NodeTable, s: string, hs: seq<(nat, nat)>): NodeTable
    requires forall k :: 0 <= k < |hs| ==> hs[k].0 <= hs[k].1 <= |s|
    decreases |hs|
  {
    if hs == [] then t
    else
      var h := hs[|hs| - 1];
      AddMatch(AddMatches(t, s, hs[..|hs| - 1]), s[h.0..h.1])
  }

  /** The table after the three patterns, one after the other. */
  function ExtractNodes(s: string): NodeTable {
    var t1 := AddMatches(NodeTable([], map[]), s, Finditer(s, 0, Endpoint));
    var t2 := AddMatches(t1, s, Finditer(s, 0, Element));
    AddMatches(t2, s, Finditer(s, 0, Crestone))
  }

  // ---------------------------------------------------------------------
  // The flowchart
  // ---------------------------------------------------------------------

  /** `node` with its details after a `<br/>`, when it has some. */
  function NodeLabel(t: NodeTable, node: string): string {
    if node in t.details then node + "<br/>" + t.details[node] else node
  }

  /** `    N{i}["{label}"]`. */
  function NodeDecl(t: NodeTable, i: nat): string
    requires i < |t.nodes|
  {
    "    N" + NatToString(i) + "[\"" + NodeLabel(t, t.nodes[i]) + "\"]"
  }

  /** `    N{i} -->|TCP/RTP| N{i+1}`. */
  function EdgeLine(i: nat): string {
    "    N" + NatToString(i) + " -->|TCP/RTP| N" + NatToString(i + 1)
  }

  /** The declarations of the first `k` nodes. */
  function NodeDecls(t: NodeTable, k: nat): (r: seq<string>)
    requires k <= |t.nodes|
    ensures |r| == k
    decreases k
  {
    if k == 0 then [] else NodeDecls(t, k - 1) + [NodeDecl(t, k - 1)]
  }

  /** The first `k` edges of the chain. */
  function EdgeLines(k: nat): (r: seq<string>)
    ensures |r| == k
    decreases k
  {
    if k == 0 then [] else EdgeLines(k - 1) + [EdgeLine(k - 1)]
  }

  const ClassDef: string := "    classDef default fill:#e3f2fd,stroke:#1976d2,stroke-width:2px,color:#000"

  /** `mermaid_lines` for a table of `n >= 2` nodes. */
  function FlowchartLines(t: NodeTable): seq<string>
    requires |t.nodes| >= 1
  {
    ["```mermaid", "flowchart LR"] + NodeDecls(t, |t.nodes|) + EdgeLines(|t.nodes| - 1) + [ClassDef, "```"]
  }

  /** The nested `convert_topology_to_mermaid`: `None` below two nodes. */
  function TopologyDiagram(lines: seq<string>): Option<string> {
    var t := ExtractNodes(Join(lines, "\n"));
    if |t.nodes| >= 2 then Some(Join(FlowchartLines(t), "\n")) else None
  }

  // ---------------------------------------------------------------------
  // The loops
  // ---------------------------------------------------------------------

  /** The loop over the matches of one pattern. */
  method AddAllMatches(t0: NodeTable, s: string, hs: seq<(nat, nat)>) returns (t: NodeTable)
    requires forall k :: 0 <= k < |hs| ==> hs[k].0 <= hs[k].1 <= |s|
    ensures t == AddMatches(t0, s, hs)
  {
    t := t0;
    var k: nat := 0;
    while k < |hs|
      invariant k <= |hs|
      invariant t == AddMatches(t0, s, hs[..k])
      decreases |hs| - k
    {
      var full := s[hs[k].0..hs[k].1];
      assert hs[..k + 1][..k] == hs[..k];
      if ContainsChar(full, '(') {
        var name := Strip(Before(full, '('));
        var detail := Strip(Before(Before(After(full, '('), '('), ')'));
        if name !in t.nodes {
          t := NodeTable(t.nodes + [name], t.details[name := detail]);
        }
      } else if full !in t.nodes && |full| < 50 {
        t := NodeTable(t.nodes + [full], t.details);
      }
      k := k + 1;
    }
    assert hs[..k] == hs;
  }

  /** One declaration per node, numbered in order. */
  method DeclareNodes(mer0: seq<string>, t: NodeTable) returns (mer: seq<string>)
    ensures mer == mer0 + NodeDecls(t, |t.nodes|)
  {
    mer := mer0;
    var i: nat := 0;
    while i < |t.nodes|
      invariant i <= |t.nodes|
      invariant mer == mer0 + NodeDecls(t, i)
      decreases |t.nodes| - i
    {
      mer := mer + [NodeDecl(t, i)];
      i := i + 1;
    }
  }

  /** One edge per neighbouring pair of nodes. */
  method ChainEdges(mer0: seq<string>, n: nat) returns (mer: seq<string>)
    ensures mer == mer0 + EdgeLines(if n >= 1 then n - 1 else 0)
  {
    mer := mer0;
    var i: nat := 0;
    while i + 1 < n
      invariant i <= (if n >= 1 then n - 1 else 0)
      invariant mer == mer0 + EdgeLines(i)
      decreases n - i
    {
      mer := mer + [EdgeLine(i)];
      i := i + 1;
    }
  }

  /** The nested `convert_topology_to_mermaid`. */
  method ConvertTopology(lines: seq<string>) returns (r: Option<string>)
    ensures r == TopologyDiagram(lines)
  {
    var text := Join(lines, "\n");
    var t := NodeTable([], map[]);
    t := AddAllMatches(t, text, Finditer(text, 0, Endpoint));
    t := AddAllMatches(t, text, Finditer(text, 0, Element));
    t := AddAllMatches(t, text, Finditer(text, 0, Crestone));
    if |t.nodes| < 2 {
      return None;
    }
    var mer := DeclareNodes(["```mermaid", "flowchart LR"], t);
    mer := ChainEdges(mer, |t.nodes|);
    mer := mer + [ClassDef, "```"];
    r := Some(Join(mer, "\n"));
  }

  // ---------------------------------------------------------------------
  // Properties
  // ---------------------------------------------------------------------

  /** The table's nodes are distinct, and only nodes carry details. */
  predicate WellFormed(t: NodeTable) {
    Distinct(t.nodes) && forall x :: x in t.details ==> x in t.nodes
  }

  lemma AddMatchWellFormed(t: NodeTable, full: string)
    requires WellFormed(t)
    ensures WellFormed(AddMatch(t, full))
    ensures |AddMatch(t, full).nodes| <= |t.nodes| + 1
  {
    var r := AddMatch(t, full);
    if r.nodes != t.nodes {
      var n := r.nodes[|r.nodes| - 1];
      assert r.nodes == t.nodes + [n] && n !in t.nodes;
      AddNameDistinct(t.nodes, n);
      assert AddName(t.nodes, n) == r.nodes;
    }
  }

  lemma {:induction false} AddMatchesWellFormed(t: NodeTable, s: string, hs: seq<(nat, nat)>)
    requires forall k :: 0 <= k < |hs| ==> hs[k].0 <= hs[k].1 <= |s|
    requires WellFormed(t)
    ensures WellFormed(AddMatches(t, s, hs))
    decreases |hs|
  {
    if hs != [] {
      var h := hs[|hs| - 1];
      AddMatchesWellFormed(t, s, hs[..|hs| - 1]);
      AddMatchWellFormed(AddMatches(t, s, hs[..|hs| - 1]), s[h.0..h.1]);
    }
  }

  /** The extracted nodes are distinct, each named once, and details belong to nodes. */
  lemma ExtractWellFormed(s: string)
    ensures WellFormed(ExtractNodes(s))
  {
    var t0 := NodeTable([], map[]);
    var t1 := AddMatches(t0, s, Finditer(s, 0, Endpoint));
    var t2 := AddMatches(t1, s, Finditer(s, 0, Element));
    AddMatchesWellFormed(t0, s, Finditer(s, 0, Endpoint));
    AddMatchesWellFormed(t1, s, Finditer(s, 0, Element));
    AddMatchesWellFormed(t2, s, Finditer(s, 0, Crestone));
  }

  lemma {:induction false} NodeDeclsAt(t: NodeTable, k: nat, i: nat)
    requires i < k <= |t.nodes|
    ensures NodeDecls(t, k)[i] == NodeDecl(t, i)
    decreases k
  {
    if i < k - 1 {
      NodeDeclsAt(t, k - 1, i);
    }
  }

  lemma {:induction false} EdgeLinesAt(k: nat, i: nat)
    requires i < k
    ensures EdgeLines(k)[i] == EdgeLine(i)
    decreases k
  {
    if i < k - 1 {
      EdgeLinesAt(k - 1, i);
    }
  }

  /**
   * A diagram of `n` nodes has the two header lines, one declaration
   * `N{i}` per node in first-seen order, exactly `n - 1` edges, each from
   * `N{i}` to `N{i+1}`, then the style line and the closing fence.
   */
  lemma FlowchartShape(t: NodeTable)
    requires |t.nodes| >= 2
    ensures var ls := FlowchartLines(t); var n := |t.nodes|;
      |ls| == 2 * n + 3
      && ls[0] == "```mermaid" && ls[1] == "flowchart LR"
      && (forall i :: 0 <= i < n ==> ls[2 + i] == NodeDecl(t, i))
      && (forall i :: 0 <= i < n - 1 ==> ls[2 + n + i] == EdgeLine(i))
      && ls[2 * n + 1] == ClassDef && ls[2 * n + 2] == "```"
  {
    var n := |t.nodes|;
    forall i | 0 <= i < n
      ensures FlowchartLines(t)[2 + i] == NodeDecl(t, i)
    {
      NodeDeclsAt(t, n, i);
    }
    forall i | 0 <= i < n - 1
      ensures FlowchartLines(t)[2 + n + i] == EdgeLine(i)
    {
      EdgeLinesAt(n - 1, i);
    }
  }

  /** No diagram exactly when fewer than two distinct elements are found. */
  lemma DiagramNeedsTwoNodes(lines: seq<string>)
    ensures TopologyDiagram(lines).None? <==> |ExtractNodes(Join(lines, "\n")).nodes| < 2
    ensures Distinct(ExtractNodes(Join(lines, "\n")).nodes)
  {
    ExtractWellFormed(Join(lines, "\n"));
  }
}
