/**
 * The tests the older context-aware converter nested in
 * `convert_ascii_tables_to_markdown` (docnexus/app.py:279-612) runs on a
 * code block before choosing what it becomes: the heading just above the
 * block, the keyword hints in that heading, and the content detectors for
 * a network topology, a SIP signalling flow and a simple table.
 */
module ContextDetect {
  import opened Text
  import opened SipKnowledge

  // ---------------------------------------------------------------------
  // The heading above a block
  // ---------------------------------------------------------------------

  /** The nearest line among `lines[lo..hi]` that starts with `#`, stripped, or `""`. */
  function NearestHash(lines: seq<string>, lo: nat, hi: nat): string
    requires lo <= hi <= |lines|
    decreases hi
  {
    if hi == lo then ""
    else if StartsWith(lines[hi - 1], "#") then Strip(lines[hi - 1])
    else NearestHash(lines, lo, hi - 1)
  }

  /** `get_preceding_heading`: the heading among the last ten newline-separated pieces of the text before the block. */
  function PrecedingHeading(content: string, start: nat): string
    requires start <= |content|
  {
    var lines := SplitOn(content[..start], '\n');
    NearestHash(lines, if |lines| > 10 then |lines| - 10 else 0, |lines|)
  }

  /** A heading is found exactly when a line of the range starts with `#`, and it then starts with `#` itself. */
  lemma {:induction false} NearestHashFound(lines: seq<string>, lo: nat, hi: nat)
    requires lo <= hi <= |lines|
    ensures NearestHash(lines, lo, hi) == [] <==> forall m :: lo <= m < hi ==> !StartsWith(lines[m], "#")
    ensures NearestHash(lines, lo, hi) != [] ==> NearestHash(lines, lo, hi)[0] == '#'
    decreases hi
  {
    if hi > lo {
      var l := lines[hi - 1];
      if StartsWith(l, "#") {
        assert l[0] == '#';
        StripKeepsHead(l);
      } else {
        NearestHashFound(lines, lo, hi - 1);
      }
    }
  }

  /** The heading is the stripped text of the last `#` line among the ten, with none after it. */
  lemma {:induction false} NearestHashIsLast(lines: seq<string>, lo: nat, hi: nat)
    requires lo <= hi <= |lines|
    requires NearestHash(lines, lo, hi) != []
    ensures exists k :: (lo <= k < hi && StartsWith(lines[k], "#") && NearestHash(lines, lo, hi) == Strip(lines[k])
      && forall m :: k < m < hi ==> !StartsWith(lines[m], "#"))
    decreases hi
  {
    if !StartsWith(lines[hi - 1], "#") {
      NearestHashIsLast(lines, lo, hi - 1);
      var k :| lo <= k < hi - 1 && StartsWith(lines[k], "#") && NearestHash(lines, lo, hi - 1) == Strip(lines[k])
        && forall m :: k < m < hi - 1 ==> !StartsWith(lines[m], "#");
      assert forall m :: k < m < hi ==> !StartsWith(lines[m], "#");
    }
  }

  // ---------------------------------------------------------------------
  // Keyword hints
  // ---------------------------------------------------------------------

  const TopologyKeywords: seq<string> := ["topology", "network", "architecture", "setup", "configuration"]

  const FlowKeywords: seq<string> := ["flow", "signaling", "sequence", "call flow", "message flow", "sip"]

  /** `should_convert_topology`. */
  predicate SuggestsTopology(heading: string) {
    AnyIn(Lower(heading), TopologyKeywords)
  }

  /** `should_convert_signaling`. */
  predicate SuggestsSignaling(heading: string) {
    AnyIn(Lower(heading), FlowKeywords)
  }

  // ---------------------------------------------------------------------
  // Network topology
  // ---------------------------------------------------------------------

  const TopologyIndicators: seq<string> := ["UAC", "UAS", "Router", "Server", "Switch", "Gateway", "Proxy"]

  /** The ten box-drawing characters `┌ ─ ┐ │ └ ┘ ├ ┤ ┬ ┴`, each as a one-character string. */
  const BoxChars: seq<string> := [
    "┌", "─", "┐", "│", "└", "┘", "├", "┤", "┬", "┴"
  ]

  /** `\d+\.\d+\.\d+\.\d+` starting at `i`: four digit runs joined by three dots. */
  predicate QuadAt(s: string, i: nat)
    requires i <= |s|
  {
    var a := DigitRun(s, i);
    a >= 1 && i + a < |s| && s[i + a] == '.' &&
    var j := i + a + 1;
    var b := DigitRun(s, j);
    b >= 1 && j + b < |s| && s[j + b] == '.' &&
    var k := j + b + 1;
    var c := DigitRun(s, k);
    c >= 1 && k + c < |s| && s[k + c] == '.' &&
    DigitRun(s, k + c + 1) >= 1
  }

  /** A dotted-quad address, four digit runs joined by dots, occurs somewhere in the text. */
  predicate HasIpAddress(s: string) {
    exists i :: 0 <= i < |s| && QuadAt(s, i)
  }

  /** `detect_network_topology`: five box characters, and two indicator terms or an address. */
  predicate DetectTopology(lines: seq<string>) {
    var text := Join(lines, "\n");
    CountIn(text, BoxChars) >= 5 && (CountIn(text, TopologyIndicators) >= 2 || HasIpAddress(text))
  }

  /** The box characters are ten different characters, and the indicator terms seven different words. */
  lemma ListsDistinct()
    ensures Distinct(BoxChars) && Distinct(TopologyIndicators)
  {
  }

  /**
   * `detect_network_topology` holds exactly when at least five different
   * box characters occur, and at least two different indicator terms or a
   * dotted quad of digit runs.
   */
  lemma DetectTopologyMeans(lines: seq<string>)
    ensures var text := Join(lines, "\n");
      DetectTopology(lines) <==>
        |Present(text, BoxChars)| >= 5 && (|Present(text, TopologyIndicators)| >= 2 || HasIpAddress(text))
  {
    var text := Join(lines, "\n");
    ListsDistinct();
    CountInIsPresent(text, BoxChars);
    CountInIsPresent(text, TopologyIndicators);
  }

  /** `s[lo..hi]` is a non-empty run of digits. */
  predicate DigitsIn(s: string, lo: nat, hi: nat) {
    lo < hi <= |s| && forall t :: lo <= t < hi ==> IsDigit(s[t])
  }

  /**
   * `s[i..e]` is matched by `\d+\.\d+\.\d+\.\d+`, with its three dots at
   * `p`, `q` and `r`.
   */
  predicate QuadParts(s: string, i: nat, p: nat, q: nat, r: nat, e: nat) {
    && p < |s| && q < |s| && r < |s|
    && s[p] == '.' && s[q] == '.' && s[r] == '.'
    && DigitsIn(s, i, p) && DigitsIn(s, p + 1, q) && DigitsIn(s, q + 1, r) && DigitsIn(s, r + 1, e)
  }

  /** A digit run that ends before a non-digit is the run `DigitRun` measures. */
  lemma DigitRunIs(s: string, lo: nat, hi: nat)
    requires DigitsIn(s, lo, hi) && (hi == |s| || !IsDigit(s[hi]))
    ensures DigitRun(s, lo) == hi - lo
  {
  }

  /** A match found at `i` is four digit runs cut by three dots. */
  lemma QuadAtParts(s: string, i: nat)
    requires i <= |s| && QuadAt(s, i)
    ensures var p := i + DigitRun(s, i);
      var q := p + 1 + DigitRun(s, p + 1);
      var r := q + 1 + DigitRun(s, q + 1);
      QuadParts(s, i, p, q, r, r + 1 + DigitRun(s, r + 1))
  {
  }

  /** Four digit runs cut by three dots from `i` on are a match at `i`. */
  lemma PartsQuadAt(s: string, i: nat, p: nat, q: nat, r: nat, e: nat)
    requires i <= |s| && QuadParts(s, i, p, q, r, e)
    ensures QuadAt(s, i)
  {
    DigitRunIs(s, i, p);
    DigitRunIs(s, p + 1, q);
    DigitRunIs(s, q + 1, r);
  }

  /**
   * The search for `\d+\.\d+\.\d+\.\d+` succeeds at `i` exactly when some
   * stretch of the text from `i` on is four digit runs cut by three dots.
   */
  lemma QuadAtMeans(s: string, i: nat)
    requires i <= |s|
    ensures QuadAt(s, i) <==> exists p: nat, q: nat, r: nat, e: nat :: QuadParts(s, i, p, q, r, e)
  {
    if QuadAt(s, i) {
      QuadAtParts(s, i);
    }
    if exists p: nat, q: nat, r: nat, e: nat :: QuadParts(s, i, p, q, r, e) {
      var p: nat, q: nat, r: nat, e: nat :| QuadParts(s, i, p, q, r, e);
      PartsQuadAt(s, i, p, q, r, e);
    }
  }

  /** The text has an address exactly when some stretch of it is four digit runs cut by three dots. */
  lemma HasIpAddressMeans(s: string)
    ensures HasIpAddress(s) <==> exists i: nat, p: nat, q: nat, r: nat, e: nat :: QuadParts(s, i, p, q, r, e)
  {
    if HasIpAddress(s) {
      var i :| 0 <= i < |s| && QuadAt(s, i);
      QuadAtParts(s, i);
    }
    if exists i: nat, p: nat, q: nat, r: nat, e: nat :: QuadParts(s, i, p, q, r, e) {
      var i: nat, p: nat, q: nat, r: nat, e: nat :| QuadParts(s, i, p, q, r, e);
      PartsQuadAt(s, i, p, q, r, e);
    }
  }

  // ---------------------------------------------------------------------
  // SIP signalling
  // ---------------------------------------------------------------------

  /** `──>`, `<──`, `→`, `←`, `────>`, `<────`. */
  const FlowArrows: seq<string> := [
    "──>", "<──", "→", "←", "────>", "<────"
  ]

  /** `┌`, `├`, `└`: the corners of a process note. */
  const NoteChars: seq<string> := ["┌", "├", "└"]

  /** A response counts when `"code desc"` or the code occurs in the text, or the upper-cased reason phrase in the upper-cased text. */
  predicate ResponseSeen(text: string, up: string, r: Response) {
    Contains(text, Label(r)) || Contains(text, r.code) || Contains(up, Upper(r.desc))
  }

  /** The number of responses of `rs` the text shows. */
  function ResponsesSeen(text: string, up: string, rs: seq<Response>): (n: nat)
    ensures n <= |rs|
    decreases |rs|
  {
    if rs == [] then 0 else (if ResponseSeen(text, up, rs[0]) then 1 else 0) + ResponsesSeen(text, up, rs[1..])
  }

  /**
   * `has_timing`: the conditional binds loosest, so an empty block has no
   * timing, and otherwise `T+` in the text or `TIME` in the first line.
   */
  predicate HasTiming(lines: seq<string>, text: string) {
    |lines| > 0 && (Contains(text, "T+") || Contains(lines[0], "TIME"))
  }

  /** `detect_sip_signaling`. */
  predicate DetectSip(lines: seq<string>) {
    var text := Join(lines, "\n");
    var up := Upper(text);
    AnyIn(text, FlowArrows)
    && (HasTiming(lines, text) || AnyIn(text, NoteChars))
    && (CountIn(up, RequestMethods) >= 2 || ResponsesSeen(text, up, ResponseCodes) >= 2)
  }

  /** `ResponsesSeen` counts the responses the text shows. */
  lemma {:induction false} ResponsesSeenPositive(text: string, up: string, rs: seq<Response>)
    ensures ResponsesSeen(text, up, rs) > 0 <==> exists k :: 0 <= k < |rs| && ResponseSeen(text, up, rs[k])
    decreases |rs|
  {
    if rs != [] {
      ResponsesSeenPositive(text, up, rs[1..]);
      if exists k :: 0 <= k < |rs[1..]| && ResponseSeen(text, up, rs[1..][k]) {
        var k :| 0 <= k < |rs[1..]| && ResponseSeen(text, up, rs[1..][k]);
        assert rs[k + 1] == rs[1..][k];
      }
      if exists k :: 0 <= k < |rs| && ResponseSeen(text, up, rs[k]) {
        var k :| 0 <= k < |rs| && ResponseSeen(text, up, rs[k]);
        if k > 0 {
          assert rs[1..][k - 1] == rs[k];
        }
      }
    }
  }

  /** The text shows at least two responses exactly when two different entries of `rs` are shown. */
  lemma {:induction false} ResponsesSeenTwo(text: string, up: string, rs: seq<Response>)
    ensures ResponsesSeen(text, up, rs) >= 2
      <==> exists i, j :: 0 <= i < j < |rs| && ResponseSeen(text, up, rs[i]) && ResponseSeen(text, up, rs[j])
    decreases |rs|
  {
    if rs != [] {
      var tail := rs[1..];
      ResponsesSeenTwo(text, up, tail);
      ResponsesSeenPositive(text, up, tail);
      if ResponsesSeen(text, up, rs) >= 2 {
        if ResponseSeen(text, up, rs[0]) {
          var k :| 0 <= k < |tail| && ResponseSeen(text, up, tail[k]);
          assert rs[k + 1] == tail[k];
        } else {
          var i, j :| 0 <= i < j < |tail| && ResponseSeen(text, up, tail[i]) && ResponseSeen(text, up, tail[j]);
          assert rs[i + 1] == tail[i] && rs[j + 1] == tail[j];
        }
      }
      if exists i, j :: 0 <= i < j < |rs| && ResponseSeen(text, up, rs[i]) && ResponseSeen(text, up, rs[j]) {
        var i, j :| 0 <= i < j < |rs| && ResponseSeen(text, up, rs[i]) && ResponseSeen(text, up, rs[j]);
        assert tail[j - 1] == rs[j];
        if i > 0 {
          assert tail[i - 1] == rs[i];
        }
      }
    }
  }

  /** The three conjuncts of `DetectSip`, for any word lists, read as witnesses. */
  lemma SipWitnesses(lines: seq<string>, text: string, up: string, arrows: seq<string>, notes: seq<string>,
                     methods: seq<string>, codes: seq<Response>)
    requires AnyIn(text, arrows) && (HasTiming(lines, text) || AnyIn(text, notes))
    requires CountIn(up, methods) >= 2 || ResponsesSeen(text, up, codes) >= 2
    ensures exists k :: 0 <= k < |arrows| && Contains(text, arrows[k])
    ensures HasTiming(lines, text) || exists k :: 0 <= k < |notes| && Contains(text, notes[k])
    ensures CountIn(up, methods) >= 2
      || exists i, j :: 0 <= i < j < |codes| && ResponseSeen(text, up, codes[i]) && ResponseSeen(text, up, codes[j])
  {
    AnyInIff(text, arrows);
    AnyInIff(text, notes);
    ResponsesSeenTwo(text, up, codes);
  }

  /**
   * A signalling block has a flow arrow; a timing mark or a note corner;
   * and two request methods or two different responses shown.
   */
  lemma DetectSipNeeds(lines: seq<string>)
    requires DetectSip(lines)
    ensures var text := Join(lines, "\n");
      var up := Upper(text);
      (exists k :: 0 <= k < |FlowArrows| && Contains(text, FlowArrows[k]))
      && (HasTiming(lines, text)
          || exists k :: 0 <= k < |NoteChars| && Contains(text, NoteChars[k]))
      && (CountIn(up, RequestMethods) >= 2
          || exists i, j :: 0 <= i < j < |ResponseCodes|
               && ResponseSeen(text, up, ResponseCodes[i]) && ResponseSeen(text, up, ResponseCodes[j]))
  {
    var text := Join(lines, "\n");
    SipWitnesses(lines, text, Upper(text), FlowArrows, NoteChars, RequestMethods, ResponseCodes);
  }

  // ---------------------------------------------------------------------
  // Simple tables
  // ---------------------------------------------------------------------

  /** The columns of a line: the stripped line cut at every run of two or more whitespace characters. */
  function RowCells(line: string): (r: seq<string>)
    ensures |r| >= 1
  {
    SplitWide(Strip(line))
  }

  /** `potential_table`: the cells of every line that splits into more than one column, in order. */
  function TableRows(lines: seq<string>): (rows: seq<seq<string>>)
    ensures forall k :: 0 <= k < |rows| ==> |rows[k]| > 1
    ensures |rows| <= |lines|
    decreases |lines|
  {
    if lines == [] then []
    else
      var last := lines[|lines| - 1];
      TableRows(lines[..|lines| - 1]) + (if |RowCells(last)| > 1 then [RowCells(last)] else [])
  }

  /** The largest number of cells in a row. */
  function MaxCols(rows: seq<seq<string>>): (m: nat)
    requires rows != []
    ensures forall k :: 0 <= k < |rows| ==> |rows[k]| <= m
    ensures exists k :: 0 <= k < |rows| && |rows[k]| == m
    decreases |rows|
  {
    if |rows| == 1 then |rows[0]|
    else
      var t := MaxCols(rows[1..]);
      assert forall k :: 1 <= k < |rows| ==> rows[k] == rows[1..][k - 1];
      if |rows[0]| >= t then |rows[0]| else t
  }

  /** The smallest number of cells in a row. */
  function MinCols(rows: seq<seq<string>>): (m: nat)
    requires rows != []
    ensures forall k :: 0 <= k < |rows| ==> m <= |rows[k]|
    ensures exists k :: 0 <= k < |rows| && |rows[k]| == m
    decreases |rows|
  {
    if |rows| == 1 then |rows[0]|
    else
      var t := MinCols(rows[1..]);
      assert forall k :: 1 <= k < |rows| ==> rows[k] == rows[1..][k - 1];
      if |rows[0]| <= t then |rows[0]| else t
  }

  /** `detect_simple_table`. */
  predicate DetectSimpleTable(lines: seq<string>) {
    var rows := TableRows(lines);
    |rows| >= 2 && MaxCols(rows) - MinCols(rows) <= 1
  }

  /** A simple table has two rows of several columns, and any two of its rows differ by at most one column. */
  lemma SimpleTableShape(lines: seq<string>)
    ensures DetectSimpleTable(lines) <==>
      var rows := TableRows(lines);
      |rows| >= 2 && forall a, b :: 0 <= a < |rows| && 0 <= b < |rows| ==> |rows[a]| <= |rows[b]| + 1
  {
    var rows := TableRows(lines);
    if |rows| >= 2 {
      var hi :| 0 <= hi < |rows| && |rows[hi]| == MaxCols(rows);
      var lo :| 0 <= lo < |rows| && |rows[lo]| == MinCols(rows);
      if forall a, b :: 0 <= a < |rows| && 0 <= b < |rows| ==> |rows[a]| <= |rows[b]| + 1 {
        assert |rows[hi]| <= |rows[lo]| + 1;
      }
    }
  }
}
