/**
 * `detect_network_topology` and `convert_topology_to_mermaid`
 * (omnidoc/features/smart_convert.py:161-180): a document drawn with
 * ASCII frames and without arrows becomes one Mermaid flowchart that
 * lists its words as nodes.
 */
module SmartTopology {
  import opened Text

  /** A frame of `+---`, `|` or `---+`, and no `->` anywhere. */
  predicate DetectNetworkTopology(md: string) {
    (Contains(md, "+---") || Contains(md, "|") || Contains(md, "---+")) && !Contains(md, "->")
  }

  /** A node name: three or more word characters. */
  predicate IsNodeWord(w: string) {
    |w| >= 3 && forall k :: 0 <= k < |w| ==> IsWordChar(w[k])
  }

  /** From `p` on: the maximal runs of ASCII letters, digits and `_` of length three or more. */
  function Words(l: string, p: nat): (r: seq<string>)
    requires p <= |l|
    ensures forall k :: 0 <= k < |r| ==> IsNodeWord(r[k])
    decreases |l| - p
  {
    if p == |l| then []
    else
      var n := WordRun(l, p);
      if n >= 3 then [l[p..p + n]] + Words(l, p + n) else Words(l, p + 1)
  }

  /** Adding every word of a line, first seen first. */
  function AddAll(ps: seq<string>, ws: seq<string>): seq<string>
    decreases |ws|
  {
    if ws == [] then ps else AddAll(AddName(ps, ws[0]), ws[1..])
  }

  /** `AddAll` keeps the names it had and adds exactly the words. */
  lemma {:induction false} AddAllMembers(ps: seq<string>, ws: seq<string>, x: string)
    ensures x in AddAll(ps, ws) <==> x in ps || x in ws
    decreases |ws|
  {
    if ws != [] {
      AddNameMembers(ps, ws[0], x);
      AddAllMembers(AddName(ps, ws[0]), ws[1..], x);
      assert ws == [ws[0]] + ws[1..];
    }
  }

  /** The distinct words of `ls[..k]`. */
  function NodeWords(ls: seq<string>, k: nat): seq<string>
    requires k <= |ls|
  {
    if k == 0 then [] else AddAll(NodeWords(ls, k - 1), Words(ls[k - 1], 0))
  }

  /** At most the first eight of the words. */
  function TopologyNodes(md: string): seq<string> {
    var ls := NonBlank(SplitLines(md));
    var ws := NodeWords(ls, |ls|);
    if |ws| > 8 then ws[..8] else ws
  }

  /** `convert_topology_to_mermaid` on a whole document. */
  function ConvertTopologySpec(md: string): string {
    if !DetectNetworkTopology(md) then md
    else
      Join(["```mermaid", "flowchart LR"] + NodeLines(TopologyNodes(md)) + ["```"], "\n")
  }

  /** One `    n[n]` line per node. */
  function NodeLines(nodes: seq<string>): (r: seq<string>)
    ensures |r| == |nodes|
    ensures forall k :: 0 <= k < |nodes| ==> r[k] == "    " + nodes[k] + "[" + nodes[k] + "]"
  {
    seq(|nodes|, k requires 0 <= k < |nodes| => "    " + nodes[k] + "[" + nodes[k] + "]")
  }

  lemma NodeLinesSnoc(nodes: seq<string>, k: nat)
    requires k < |nodes|
    ensures NodeLines(nodes[..k + 1]) == NodeLines(nodes[..k]) + ["    " + nodes[k] + "[" + nodes[k] + "]"]
  {
  }

  /** Adding the words one at a time is adding them all: the inner loop over one line's words. */
  lemma {:induction false} AddAllSnoc(ps: seq<string>, ws: seq<string>, j: nat)
    requires j < |ws|
    ensures AddAll(ps, ws[..j + 1]) == AddName(AddAll(ps, ws[..j]), ws[j])
    decreases j
  {
    if j == 0 {
      assert ws[..1] == [ws[0]];
      assert ws[..1][1..] == [];
      assert ws[..0] == [];
    } else {
      assert ws[..j + 1][1..] == ws[1..][..j];
      assert ws[..j][1..] == ws[1..][..j - 1];
      assert ws[..j + 1][0] == ws[0] && ws[..j][0] == ws[0];
      AddAllSnoc(AddName(ps, ws[0]), ws[1..], j - 1);
    }
  }

  /** The words of one line added to the node list. */
  method AddWords(ps: seq<string>, ws: seq<string>) returns (r: seq<string>)
    ensures r == AddAll(ps, ws)
  {
    r := ps;
    var j: nat := 0;
    while j < |ws|
      invariant j <= |ws|
      invariant r == AddAll(ps, ws[..j])
      decreases |ws| - j
    {
      AddAllSnoc(ps, ws, j);
      r := AddName(r, ws[j]);
      j := j + 1;
    }
    assert ws[..j] == ws;
  }

  /** The outer loop over the lines: the words of every non-blank line. */
  method CollectNodes(ls: seq<string>) returns (nodes: seq<string>)
    ensures nodes == NodeWords(ls, |ls|)
  {
    nodes := [];
    var k: nat := 0;
    while k < |ls|
      invariant k <= |ls|
      invariant nodes == NodeWords(ls, k)
      decreases |ls| - k
    {
      nodes := AddWords(nodes, Words(ls[k], 0));
      k := k + 1;
    }
  }

  /** `convert_topology_to_mermaid`. */
  method ConvertTopology(md: string) returns (r: string)
    ensures r == ConvertTopologySpec(md)
  {
    if !DetectNetworkTopology(md) {
      return md;
    }
    var ls := NonBlank(SplitLines(md));
    var nodes := CollectNodes(ls);
    if |nodes| > 8 {
      nodes := nodes[..8];
    }
    var mer := ["```mermaid", "flowchart LR"];
    var k: nat := 0;
    while k < |nodes|
      invariant k <= |nodes|
      invariant mer == ["```mermaid", "flowchart LR"] + NodeLines(nodes[..k])
      decreases |nodes| - k
    {
      NodeLinesSnoc(nodes, k);
      mer := mer + ["    " + nodes[k] + "[" + nodes[k] + "]"];
      k := k + 1;
    }
    assert nodes[..k] == nodes;
    r := Join(mer + ["```"], "\n");
  }

  lemma {:induction false} AddAllDistinct(ps: seq<string>, ws: seq<string>)
    requires Distinct(ps)
    ensures Distinct(AddAll(ps, ws))
    decreases |ws|
  {
    if ws != [] {
      AddNameDistinct(ps, ws[0]);
      AddAllDistinct(AddName(ps, ws[0]), ws[1..]);
    }
  }

  /** A word of line `m`. */
  predicate WordOf(ls: seq<string>, m: nat, x: string)
    requires m < |ls|
  {
    x in Words(ls[m], 0)
  }

  /** The collected words are distinct, and are exactly the words of the lines read. */
  lemma {:induction false} NodeWordsExactly(ls: seq<string>, k: nat, x: string)
    requires k <= |ls|
    ensures Distinct(NodeWords(ls, k))
    ensures x in NodeWords(ls, k) <==> exists m :: 0 <= m < k && WordOf(ls, m, x)
  {
    if k > 0 {
      NodeWordsExactly(ls, k - 1, x);
      AddAllDistinct(NodeWords(ls, k - 1), Words(ls[k - 1], 0));
      AddAllMembers(NodeWords(ls, k - 1), Words(ls[k - 1], 0), x);
      if x in NodeWords(ls, k) && x !in NodeWords(ls, k - 1) {
        assert WordOf(ls, k - 1, x);
      }
      if exists m :: 0 <= m < k && WordOf(ls, m, x) {
        var m :| 0 <= m < k && WordOf(ls, m, x);
        if m < k - 1 {
          assert x in NodeWords(ls, k - 1);
        }
      }
    }
  }

  /** The first eight of a list without duplicates: at most eight names, still without duplicates, each from the list. */
  lemma FirstEight(ws: seq<string>, x: string)
    requires Distinct(ws)
    ensures var n := if |ws| > 8 then ws[..8] else ws;
      |n| <= 8 && Distinct(n) && (x in n ==> x in ws)
  {
  }

  /** A word of a line is a node word. */
  lemma WordOfIsNodeWord(ls: seq<string>, m: nat, x: string)
    requires m < |ls| && WordOf(ls, m, x)
    ensures IsNodeWord(x)
  {
    var i :| 0 <= i < |Words(ls[m], 0)| && Words(ls[m], 0)[i] == x;
  }

  /** At most eight nodes, all distinct. */
  lemma TopologyNodesShape(md: string)
    ensures var nodes := TopologyNodes(md); |nodes| <= 8 && Distinct(nodes)
  {
    var ls := NonBlank(SplitLines(md));
    NodeWordsExactly(ls, |ls|, "");
    FirstEight(NodeWords(ls, |ls|), "");
  }

  /** Every node is a word of three or more word characters found in a non-blank line. */
  lemma TopologyNodeIsWord(md: string, x: string)
    requires x in TopologyNodes(md)
    ensures IsNodeWord(x)
    ensures exists m :: 0 <= m < |NonBlank(SplitLines(md))| && WordOf(NonBlank(SplitLines(md)), m, x)
  {
    var ls := NonBlank(SplitLines(md));
    var ws := NodeWords(ls, |ls|);
    NodeWordsExactly(ls, |ls|, x);
    FirstEight(ws, x);
    var m :| 0 <= m < |ls| && WordOf(ls, m, x);
    WordOfIsNodeWord(ls, m, x);
  }
}
