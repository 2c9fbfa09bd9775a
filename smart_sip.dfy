/**
 * `convert_sip_signaling_to_mermaid` (omnidoc/features/smart_convert.py:34-158):
 * a fenced block that reads like a SIP call flow, in a signaling context,
 * becomes a Mermaid sequence diagram; every other block, and the text
 * around the blocks, is copied.
 */
module SmartSip {
  import opened Text
  import opened Fences
  import Annotate
  import SipKnowledge

  /** Info strings of programming languages, whose blocks are never converted. */
  const SkipLangs: seq<string> := [
    "c", "cpp", "c++", "java", "go", "rust", "js", "ts", "javascript", "typescript", "python", "py", "json", "xml"
  ]

  /** Heading words that suggest a call flow. */
  const SipKeywords: seq<string> := ["sip", "signaling", "signal", "sequence", "call flow", "message flow", "flow"]

  /** A line whose stripped text starts with `#`. */
  predicate IsHashLine(line: string) {
    StartsWith(Strip(line), "#")
  }

  /** The nearest hash line among `lines[lo..hi]`, stripped and lower-cased, or `""`. */
  function LastHeading(lines: seq<string>, lo: nat, hi: nat): string
    requires lo <= hi <= |lines|
    decreases hi
  {
    if hi == lo then ""
    else if IsHashLine(lines[hi - 1]) then Lower(Strip(lines[hi - 1]))
    else LastHeading(lines, lo, hi - 1)
  }

  /** No heading is found exactly when no line of the range is a hash line. */
  lemma {:induction false} LastHeadingEmpty(lines: seq<string>, lo: nat, hi: nat)
    requires lo <= hi <= |lines|
    ensures LastHeading(lines, lo, hi) == [] <==> forall m :: lo <= m < hi ==> !IsHashLine(lines[m])
    decreases hi
  {
    if hi > lo {
      if IsHashLine(lines[hi - 1]) {
        assert |Lower(Strip(lines[hi - 1]))| == |Strip(lines[hi - 1])| >= 1;
      } else {
        LastHeadingEmpty(lines, lo, hi - 1);
      }
    }
  }

  /** A heading that is found is the last hash line of the range, stripped and lower-cased. */
  lemma {:induction false} LastHeadingFound(lines: seq<string>, lo: nat, hi: nat)
    requires lo <= hi <= |lines|
    requires LastHeading(lines, lo, hi) != []
    ensures exists k :: (lo <= k < hi && IsHashLine(lines[k]) && LastHeading(lines, lo, hi) == Lower(Strip(lines[k]))
      && forall m :: k < m < hi ==> !IsHashLine(lines[m]))
    decreases hi
  {
    if !IsHashLine(lines[hi - 1]) {
      assert LastHeading(lines, lo, hi) == LastHeading(lines, lo, hi - 1);
      LastHeadingFound(lines, lo, hi - 1);
      var k :| lo <= k < hi - 1 && IsHashLine(lines[k]) && LastHeading(lines, lo, hi - 1) == Lower(Strip(lines[k]))
        && forall m :: k < m < hi - 1 ==> !IsHashLine(lines[m]);
      assert forall m :: k < m < hi ==> !IsHashLine(lines[m]);
    } else {
      var k := hi - 1;
      assert lo <= k < hi && IsHashLine(lines[k]) && LastHeading(lines, lo, hi) == Lower(Strip(lines[k]));
    }
  }

  /** `_heading_before`: the nearest heading among the last 12 lines before `start`. */
  function HeadingBefore(md: string, start: nat): string
    requires start <= |md|
  {
    var lines := SplitLines(md[..start]);
    LastHeading(lines, if |lines| > 12 then |lines| - 12 else 0, |lines|)
  }

  /** `_has_sip_context`. */
  predicate HasSipContext(heading: string) {
    heading != [] && SipKnowledge.AnyIn(heading, SipKeywords)
  }

  /** `RESP_CODE_RE.search(text)`: the pattern has no MULTILINE flag, so only a code at the very start counts. */
  predicate StartsWithCode(text: string) {
    Annotate.CodeAt(text, 0)
  }

  /** `_block_has_sip_markers`. */
  predicate BlockHasSipMarkers(text: string) {
    Count(text, "->") + Count(text, "=>") >= 2
    && (SipKnowledge.HasMethod(text) || StartsWithCode(text))
  }

  /** The 400 characters before `start`. */
  function Window(md: string, start: nat): string
    requires start <= |md|
  {
    md[(if start >= 400 then start - 400 else 0)..start]
  }

  /** `_has_marker`: the marker of kind `k` appears in the window before `start`. */
  predicate HasMarker(md: string, start: nat, k: Annotate.BlockKind)
    requires start <= |md|
  {
    Contains(Window(md, start), Annotate.MarkerTag(k))
  }

  /** Some line names a SIP method or starts with a status code. */
  predicate HasSipMessage(ls: seq<string>) {
    exists k :: 0 <= k < |ls| && (SipKnowledge.HasMethod(ls[k]) || StartsWithCode(ls[k]))
  }

  /** A message line `a -> b: msg`, as `edge_re` reads it. */
  datatype Edge = Edge(src: string, dst: string, msg: string)

  /** `->` or `=>` at `i`. */
  predicate ArrowAt(l: string, i: nat) {
    i + 1 < |l| && (l[i] == '-' || l[i] == '=') && l[i + 1] == '>'
  }

  predicate IsName(s: string) {
    |s| >= 2 && forall k :: 0 <= k < |s| ==> IsNameChar(s[k])
  }

  /**
   * `edge_re` anchored at the line start: spaces, a name, spaces, an
   * arrow, spaces, a name, spaces, an optional colon, spaces, the rest.
   * The first name is the maximal run of name characters, unless that run
   * ends in the `-` of `->`, which the regex gives back to the arrow.
   */
  function EdgeOf(l: string): Option<Edge> {
    var p := SpaceRun(l, 0);
    var r1 := NameRun(l, p);
    var e := p + r1;
    var w := SpaceRun(l, e);
    var arrow: Option<(nat, nat)> :=
      if r1 >= 2 && ArrowAt(l, e + w) then Some((r1, e + w))
      else if r1 >= 3 && e < |l| && l[e - 1] == '-' && l[e] == '>' then Some((r1 - 1, e - 1))
      else None;
    match arrow
    case None => None
    case Some((n1, at)) =>
      var u := at + 2 + SpaceRun(l, at + 2);
      var r2 := NameRun(l, u);
      if r2 < 2 then None
      else
        var v := u + r2 + SpaceRun(l, u + r2);
        var v' := if v < |l| && l[v] == ':' then v + 1 else v;
        var q := v' + SpaceRun(l, v');
        Some(Edge(l[p..p + n1], l[u..u + r2], l[q..]))
  }

  /** Both names of a message line are runs of two or more name characters. */
  lemma EdgeNames(l: string)
    ensures EdgeOf(l).Some? ==> IsName(EdgeOf(l).value.src) && IsName(EdgeOf(l).value.dst)
  {
  }

  /** For every line, the message the edge pattern finds in it, if any. */
  function Edges(ls: seq<string>): (es: seq<Option<Edge>>)
    ensures |es| == |ls|
    ensures forall k :: 0 <= k < |ls| ==> es[k] == EdgeOf(ls[k])
  {
    seq(|ls|, k requires 0 <= k < |ls| => EdgeOf(ls[k]))
  }

  /** The participants after reading `es[..k]`: both names of every message, first seen first. */
  function Participants(es: seq<Option<Edge>>, k: nat): seq<string>
    requires k <= |es|
  {
    if k == 0 then []
    else
      var prev := Participants(es, k - 1);
      match es[k - 1]
      case None => prev
      case Some(e) => AddName(AddName(prev, e.src), e.dst)
  }

  lemma ParticipantsStep(es: seq<Option<Edge>>, k: nat)
    requires k < |es|
    ensures Participants(es, k + 1)
      == if es[k].Some? then AddName(AddName(Participants(es, k), es[k].value.src), es[k].value.dst) else Participants(es, k)
  {
  }

  /** `x` is a name of message `m`. */
  predicate Endpoint(es: seq<Option<Edge>>, m: nat, x: string)
    requires m < |es|
  {
    es[m].Some? && (es[m].value.src == x || es[m].value.dst == x)
  }

  /** Each participant appears once. */
  lemma {:induction false} ParticipantsDistinct(es: seq<Option<Edge>>, k: nat)
    requires k <= |es|
    ensures Distinct(Participants(es, k))
  {
    if k > 0 {
      var prev := Participants(es, k - 1);
      ParticipantsDistinct(es, k - 1);
      match es[k - 1]
      case None =>
      case Some(e) =>
        AddNameDistinct(prev, e.src);
        AddNameDistinct(AddName(prev, e.src), e.dst);
    }
  }

  /** The participants are exactly the names of the messages read so far. */
  lemma {:induction false} ParticipantsExactly(es: seq<Option<Edge>>, k: nat, x: string)
    requires k <= |es|
    ensures x in Participants(es, k) <==> exists m :: 0 <= m < k && Endpoint(es, m, x)
  {
    if k > 0 {
      var prev := Participants(es, k - 1);
      ParticipantsExactly(es, k - 1, x);
      assert x in Participants(es, k) <==> x in prev || Endpoint(es, k - 1, x);
      if x in prev {
        var m :| 0 <= m < k - 1 && Endpoint(es, m, x);
        assert 0 <= m < k && Endpoint(es, m, x);
      }
      if exists m :: 0 <= m < k && Endpoint(es, m, x) {
        var m :| 0 <= m < k && Endpoint(es, m, x);
        if m < k - 1 {
          assert x in prev;
        }
      }
    }
  }

  /** A name added to the list unless it is already there. */
  method AppendNew(ps: seq<string>, n: string) returns (r: seq<string>)
    ensures r == AddName(ps, n)
  {
    r := ps;
    if n !in ps {
      r := ps + [n];
    }
  }

  /** The participants over the lines: both names of each line's message, first seen first. */
  method CollectParticipants(es: seq<Option<Edge>>) returns (ps: seq<string>)
    ensures ps == Participants(es, |es|)
  {
    ps := [];
    var k: nat := 0;
    while k < |es|
      invariant k <= |es|
      invariant ps == Participants(es, k)
      decreases |es| - k
    {
      ParticipantsStep(es, k);
      if es[k].Some? {
        ps := AppendNew(ps, es[k].value.src);
        ps := AppendNew(ps, es[k].value.dst);
      }
      assert ps == Participants(es, k + 1);
      k := k + 1;
    }
  }

  /** One `participant p` line per participant. */
  function ParticipantLines(ps: seq<string>): (r: seq<string>)
    ensures |r| == |ps|
    ensures forall k :: 0 <= k < |ps| ==> r[k] == "participant " + ps[k]
  {
    seq(|ps|, k requires 0 <= k < |ps| => "participant " + ps[k])
  }

  /** `a->>b: msg` for each message among `es[..k]`, in order. */
  function MessageLines(es: seq<Option<Edge>>, k: nat): (r: seq<string>)
    requires k <= |es|
    ensures |r| <= k
  {
    if k == 0 then []
    else
      match es[k - 1]
      case None => MessageLines(es, k - 1)
      case Some(e) => MessageLines(es, k - 1) + [e.src + "->>" + e.dst + ": " + e.msg]
  }

  /** The lines of the Mermaid sequence diagram. */
  function SequenceLines(ps: seq<string>, es: seq<Option<Edge>>): seq<string> {
    ["```mermaid", "sequenceDiagram"] + ParticipantLines(ps) + MessageLines(es, |es|) + ["```"]
  }

  lemma ParticipantLinesSnoc(ps: seq<string>, k: nat)
    requires k < |ps|
    ensures ParticipantLines(ps[..k + 1]) == ParticipantLines(ps[..k]) + ["participant " + ps[k]]
  {
  }

  /** The participant loop: one `participant` line each. */
  method AppendParticipants(mer0: seq<string>, ps: seq<string>) returns (mer: seq<string>)
    ensures mer == mer0 + ParticipantLines(ps)
  {
    mer := mer0;
    var k: nat := 0;
    while k < |ps|
      invariant k <= |ps|
      invariant mer == mer0 + ParticipantLines(ps[..k])
      decreases |ps| - k
    {
      ParticipantLinesSnoc(ps, k);
      mer := mer + ["participant " + ps[k]];
      k := k + 1;
    }
    assert ps[..k] == ps;
  }

  /** The second loop over the lines: one `a->>b: msg` line per message. */
  method AppendMessages(mer0: seq<string>, es: seq<Option<Edge>>) returns (mer: seq<string>)
    ensures mer == mer0 + MessageLines(es, |es|)
  {
    mer := mer0;
    var k: nat := 0;
    while k < |es|
      invariant k <= |es|
      invariant mer == mer0 + MessageLines(es, k)
      decreases |es| - k
    {
      if es[k].Some? {
        var e := es[k].value;
        mer := mer + [e.src + "->>" + e.dst + ": " + e.msg];
      }
      k := k + 1;
    }
  }

  /** The `mer` list the source builds: header, participants, messages, closing fence. */
  method BuildSequence(ps: seq<string>, es: seq<Option<Edge>>) returns (mer: seq<string>)
    ensures mer == SequenceLines(ps, es)
  {
    mer := AppendParticipants(["```mermaid", "sequenceDiagram"], ps);
    mer := AppendMessages(mer, es);
    mer := mer + ["```"];
  }

  /** The diagram of a block body that passed the gates: `None` without a SIP message or with too few or too many participants. */
  function BodyDiagram(body: string): Option<string> {
    var ls := NonBlank(SplitLines(body));
    if !HasSipMessage(ls) then None
    else
      var es := Edges(ls);
      var ps := Participants(es, |es|);
      if 2 <= |ps| <= 8 then Some(Join(SequenceLines(ps, es), "\n")) else None
  }

  /** The diagram a block becomes, or `None` when the block stays as it is. */
  function SipDiagram(md: string, f: Fence): Option<string>
    requires f.start + 4 <= f.body <= f.close && End(f) <= |md|
  {
    var lang := Lower(Strip(LangText(md, f)));
    var body := BodyText(md, f);
    if lang in SkipLangs || HasMarker(md, f.start, Annotate.CodeOnly) then None
    else if !HasMarker(md, f.start, Annotate.CandidateSip) && !HasSipContext(HeadingBefore(md, f.start)) then None
    else if Annotate.LooksLikeProgramCode(body) || !BlockHasSipMarkers(body) then None
    else BodyDiagram(body)
  }

  /** What a match is replaced by: its diagram, or itself. */
  function SipRep(md: string, f: Fence): string
    requires f.start + 4 <= f.body <= f.close && End(f) <= |md|
  {
    match SipDiagram(md, f)
    case Some(d) => d
    case None => MatchText(md, f)
  }

  function SipReps(md: string, ms: seq<Fence>): (r: seq<string>)
    requires Tiled(md, ms, 0)
    ensures |r| == |ms|
    ensures forall i :: 0 <= i < |ms| ==> r[i] == SipRep(md, ms[i])
  {
    seq(|ms|, i requires 0 <= i < |ms| => SipRep(md, ms[i]))
  }

  /** `convert_sip_signaling_to_mermaid` on a whole document. */
  function ConvertSipSpec(md: string): string {
    var ms := Matches(md, 0, Tagged);
    Splice(md, ms, SipReps(md, ms), 0, 0)
  }

  /** The diagram for one block, computed as the source does. */
  method ConvertBlock(md: string, f: Fence) returns (rep: string)
    requires f.start + 4 <= f.body <= f.close && End(f) <= |md|
    ensures rep == SipRep(md, f)
  {
    rep := MatchText(md, f);
    var lang := Lower(Strip(LangText(md, f)));
    var body := BodyText(md, f);
    if lang in SkipLangs || HasMarker(md, f.start, Annotate.CodeOnly) {
      return;
    }
    if !HasMarker(md, f.start, Annotate.CandidateSip) && !HasSipContext(HeadingBefore(md, f.start)) {
      return;
    }
    if Annotate.LooksLikeProgramCode(body) || !BlockHasSipMarkers(body) {
      return;
    }
    var d := BuildDiagram(body);
    if d.Some? {
      rep := d.value;
    }
  }

  /** The part of the loop body after the gates: the message check, the participants and the diagram. */
  method BuildDiagram(body: string) returns (d: Option<string>)
    ensures d == BodyDiagram(body)
  {
    var ls := NonBlank(SplitLines(body));
    if !HasSipMessage(ls) {
      return None;
    }
    var es := Edges(ls);
    var ps := CollectParticipants(es);
    if !(2 <= |ps| <= 8) {
      return None;
    }
    var mer := BuildSequence(ps, es);
    d := Some(Join(mer, "\n"));
  }

  /** `convert_sip_signaling_to_mermaid`: the fence loop. */
  method ConvertSipSignaling(md: string) returns (r: string)
    ensures r == ConvertSipSpec(md)
  {
    var ms := Matches(md, 0, Tagged);
    ghost var reps := SipReps(md, ms);
    var out := "";
    var last: nat := 0;
    var i: nat := 0;
    while i < |ms|
      invariant CursorBefore(md, ms, i, last)
      invariant out + Splice(md, ms, reps, i, last) == ConvertSipSpec(md)
      decreases |ms| - i
    {
      var m := ms[i];
      var rep := ConvertBlock(md, m);
      SpliceStep(md, ms, reps, i, last, out);
      out := out + md[last..m.start] + rep;
      last := End(m);
      i := i + 1;
    }
    r := out + md[last..];
  }

  /** A block the converter accepts passes `has_sip`, so `annotate_blocks` marks it as a SIP candidate. */
  lemma ConvertedWasSipCandidate(md: string, f: Fence)
    requires f.start + 4 <= f.body <= f.close && End(f) <= |md|
    requires SipDiagram(md, f).Some?
    ensures Annotate.Classify(BodyText(md, f)) == Annotate.CandidateSip
  {
    var body := BodyText(md, f);
    if StartsWithCode(body) {
      assert Annotate.LineStart(body, 0) && Annotate.CodeAt(body, 0);
    }
    assert Annotate.HasSip(body);
  }

  /**
   * A block converts only when its language is not skipped, no code-only
   * marker precedes it, a SIP-candidate marker or a signaling heading
   * precedes it, it is not program code, and it has the SIP markers.
   */
  lemma ConvertedPassedGates(md: string, f: Fence)
    requires f.start + 4 <= f.body <= f.close && End(f) <= |md|
    requires SipDiagram(md, f).Some?
    ensures Lower(Strip(LangText(md, f))) !in SkipLangs
    ensures !HasMarker(md, f.start, Annotate.CodeOnly)
    ensures HasMarker(md, f.start, Annotate.CandidateSip) || HasSipContext(HeadingBefore(md, f.start))
    ensures !Annotate.LooksLikeProgramCode(BodyText(md, f)) && BlockHasSipMarkers(BodyText(md, f))
    ensures HasSipMessage(NonBlank(SplitLines(BodyText(md, f))))
  {
  }

  /** When no block converts, the document comes back unchanged. */
  lemma SipIdentity(md: string, ms: seq<Fence>)
    requires ms == Matches(md, 0, Tagged)
    requires forall i :: 0 <= i < |ms| ==> SipDiagram(md, ms[i]).None?
    ensures ConvertSipSpec(md) == md
  {
    var reps := SipReps(md, ms);
    forall k | 0 <= k < |ms|
      ensures reps[k] == MatchText(md, ms[k])
    {
      SipRepUnchanged(md, ms[k]);
    }
    SpliceIdentity(md, ms, reps, 0, 0);
  }

  lemma SipRepUnchanged(md: string, f: Fence)
    requires f.start + 4 <= f.body <= f.close && End(f) <= |md|
    requires SipDiagram(md, f).None?
    ensures SipRep(md, f) == MatchText(md, f)
  {
  }

  /** Every message of `es` joins two names. */
  predicate NamedEdges(es: seq<Option<Edge>>) {
    forall k :: 0 <= k < |es| && es[k].Some? ==> IsName(es[k].value.src) && IsName(es[k].value.dst)
  }

  /** The messages of any lines join two names. */
  lemma EdgesNamed(ls: seq<string>)
    ensures NamedEdges(Edges(ls))
  {
    forall k | 0 <= k < |ls|
      ensures EdgeOf(ls[k]).Some? ==> IsName(EdgeOf(ls[k]).value.src) && IsName(EdgeOf(ls[k]).value.dst)
    {
      EdgeNames(ls[k]);
    }
  }

  /** Participants gathered from named messages are names. */
  lemma ParticipantsNamed(es: seq<Option<Edge>>, k: nat, x: string)
    requires k <= |es| && NamedEdges(es) && x in Participants(es, k)
    ensures IsName(x)
  {
    ParticipantsExactly(es, k, x);
    var m :| 0 <= m < k && Endpoint(es, m, x);
    if es[m].value.src != x {
      assert es[m].value.dst == x;
    }
  }

  /** Every participant is a name of two or more name characters. */
  lemma ParticipantNames(ls: seq<string>, x: string)
    requires x in Participants(Edges(ls), |ls|)
    ensures IsName(x)
  {
    EdgesNamed(ls);
    ParticipantsNamed(Edges(ls), |ls|, x);
  }

  /** A converted block names between two and eight distinct participants, each the name of some message line. */
  lemma DiagramParticipants(md: string, f: Fence)
    requires f.start + 4 <= f.body <= f.close && End(f) <= |md|
    requires SipDiagram(md, f).Some?
    ensures var es := Edges(NonBlank(SplitLines(BodyText(md, f)))); var ps := Participants(es, |es|);
      2 <= |ps| <= 8 && Distinct(ps)
      && SipDiagram(md, f).value == Join(SequenceLines(ps, es), "\n")
  {
    var es := Edges(NonBlank(SplitLines(BodyText(md, f))));
    ParticipantsDistinct(es, |es|);
  }
}
