/**
 * The nested `convert_sip_signaling_to_mermaid` of docnexus/app.py:394-509:
 * a SIP ladder diagram drawn with box characters becomes a Mermaid
 * sequence diagram. The participants come from the first header-like
 * line (at most five, or a default of four), and every later line with a
 * right arrow, a left arrow or a note corner becomes one message or note,
 * named with the SIP knowledge table.
 */
module ContextSip {
  import opened Text
  import opened SipKnowledge
  import ContextDetect

  // ---------------------------------------------------------------------
  // Participants
  // ---------------------------------------------------------------------

  /** A header candidate: its stripped text does not start with `-`, and it does not mention `Time`. */
  predicate HeaderCandidate(line: string) {
    !StartsWith(Strip(line), "-") && !Contains(line, "Time")
  }

  /** The stripped columns that are not blank and do not start with `T+`. */
  function HeaderNames(parts: seq<string>): (r: seq<string>)
    ensures |r| <= |parts|
    ensures forall k :: 0 <= k < |r| ==> r[k] != []
    decreases |parts|
  {
    if parts == [] then []
    else (if Strip(parts[0]) != [] && !StartsWith(parts[0], "T+") then [Strip(parts[0])] else []) + HeaderNames(parts[1..])
  }

  /** A header line: a candidate with three or more columns. */
  predicate IsHeader(line: string) {
    HeaderCandidate(line) && |ContextDetect.RowCells(line)| >= 3
  }

  /** Scanning the first five lines from `i`: the names of the first header line, or `[]`. */
  function HeaderParticipants(lines: seq<string>, i: nat): seq<string>
    decreases 5 - i
  {
    if i >= 5 || i >= |lines| then []
    else if IsHeader(lines[i]) then HeaderNames(ContextDetect.RowCells(lines[i]))
    else HeaderParticipants(lines, i + 1)
  }

  /** From `p` on, every parenthesised part, with the whitespace before it, removed. */
  function RemoveParens(s: string, p: nat): (r: string)
    requires p <= |s|
    ensures |r| <= |s| - p
    decreases |s| - p
  {
    if p == |s| then []
    else
      var o := p + SpaceRun(s, p);
      if o < |s| && s[o] == '(' && FindChar(s, ')', o + 1) < |s| then RemoveParens(s, FindChar(s, ')', o + 1) + 1)
      else [s[p]] + RemoveParens(s, p + 1)
  }

  /** A name kept by the cleaning loop. */
  predicate Kept(clean: string) {
    clean != [] && Lower(clean) != "time"
  }

  /** The cleaning loop over `participants[..k]`: without parenthesised parts, stripped, empty and `time` names dropped. */
  function CleanNames(ps: seq<string>, k: nat): (r: seq<string>)
    requires k <= |ps|
    ensures |r| <= k
    decreases k
  {
    if k == 0 then []
    else
      var c := Strip(RemoveParens(ps[k - 1], 0));
      CleanNames(ps, k - 1) + (if Kept(c) then [c] else [])
  }

  const DefaultParticipants: seq<string> := ["UAC", "Router1", "Router2", "UAS"]

  /** The participants of the diagram: the first five clean names, or the default when fewer than two. */
  function Participants(lines: seq<string>): seq<string> {
    var hs := HeaderParticipants(lines, 0);
    var c := CleanNames(hs, |hs|);
    var capped := if |c| > 5 then c[..5] else c;
    if |capped| < 2 then DefaultParticipants else capped
  }

  /** Every character other than an ASCII letter, digit or `_` replaced by `_`. */
  function SafeName(p: string): (r: string)
    ensures |r| == |p|
    ensures forall i :: 0 <= i < |p| ==> r[i] == (if IsWordChar(p[i]) then p[i] else '_')
    decreases |p|
  {
    if p == [] then [] else [if IsWordChar(p[0]) then p[0] else '_'] + SafeName(p[1..])
  }

  /** `    participant {safe_name} as {p}`. */
  function ParticipantDecl(p: string): string {
    "    participant " + SafeName(p) + " as " + p
  }

  /** The declarations of `ps[..k]`. */
  function ParticipantDecls(ps: seq<string>, k: nat): (r: seq<string>)
    requires k <= |ps|
    ensures |r| == k
    decreases k
  {
    if k == 0 then [] else ParticipantDecls(ps, k - 1) + [ParticipantDecl(ps[k - 1])]
  }

  // ---------------------------------------------------------------------
  // Messages
  // ---------------------------------------------------------------------

  /** A time stamp at the start of the line: `T+`, a digit, then the rest of the word; at least two word characters after `T+`. */
  function TimeOf(line: string): (t: Option<string>)
    ensures t.Some? ==> |t.value| >= 4 && t.value[..2] == "T+" && IsDigit(t.value[2]) && StartsWith(line, t.value)
  {
    if |line| >= 3 && line[0] == 'T' && line[1] == '+' && IsDigit(line[2]) then
      var w := WordRun(line, 2);
      if w >= 2 then Some(line[..2 + w]) else None
    else None
  }

  const RightArrows: seq<string> := ["──>", "───>", "────>", "→"]

  const LeftArrows: seq<string> := ["<──", "<───", "<────", "←"]

  /** `┌`, `├`, `└`. */
  const NoteCorners: seq<string> := ["┌", "├", "└"]

  /** At most the first `n` characters. */
  function Prefix(s: string, n: nat): string {
    if |s| <= n then s else s[..n]
  }

  /** `message` with ` [{current_time}]` when a time has been seen. */
  function Stamp(msg: string, time: Option<string>): string {
    match time
    case Some(t) => msg + " [" + t + "]"
    case None => msg
  }

  /** The first word of `ws` that occurs in `text`; the search stops there. */
  function FirstIn(text: string, ws: seq<string>): Option<string>
    decreases |ws|
  {
    if ws == [] then None
    else if Contains(text, ws[0]) then Some(ws[0])
    else FirstIn(text, ws[1..])
  }

  /** The first response whose `"code desc"` occurs in the line, or whose code occurs in `line[:n]`. */
  function FirstResponse(line: string, n: nat, rs: seq<Response>): Option<Response>
    decreases |rs|
  {
    if rs == [] then None
    else if Contains(line, Label(rs[0])) || Contains(Prefix(line, n), rs[0].code) then Some(rs[0])
    else FirstResponse(line, n, rs[1..])
  }

  /** The first SDP attribute in the line that the message does not already name. */
  function FirstAttr(line: string, msg: string, attrs: seq<string>): Option<string>
    decreases |attrs|
  {
    if attrs == [] then None
    else if Contains(line, attrs[0]) && !Contains(msg, attrs[0]) then Some(attrs[0])
    else FirstAttr(line, msg, attrs[1..])
  }

  /** The message of a right-arrow line: a method, else a response in the first ten characters, else `Message`; then one SDP attribute. */
  function RequestMessage(line: string, time: Option<string>): string {
    var base :=
      match FirstIn(Upper(line), RequestMethods)
      case Some(m) => Stamp(m, time)
      case None =>
        (match FirstResponse(line, 10, ResponseCodes)
         case Some(r) => Stamp(Label(r), time)
         case None => "Message");
    match FirstAttr(line, base, SdpAttributes)
    case Some(a) => base + " (" + a + ")"
    case None => base
  }

  /** The message of a left-arrow line: a response in the first twenty characters, else `200 OK (method)`, else `Response`. */
  function ReplyMessage(line: string, time: Option<string>): string {
    match FirstResponse(line, 20, ResponseCodes)
    case Some(r) => Stamp(Label(r), time)
    case None =>
      (match FirstIn(Upper(line), RequestMethods)
       case Some(m) => "200 OK (" + m + ")"
       case None => "Response")
  }

  /** `[┌├└─]`. */
  predicate IsNoteMark(c: char) {
    c == '┌' || c == '├' || c == '└' || c == '─'
  }

  /** The line without its box-drawing corners and rules. */
  function DropNoteMarks(s: string): (r: string)
    ensures |r| <= |s|
    decreases |s|
  {
    if s == [] then [] else (if IsNoteMark(s[0]) then [] else [s[0]]) + DropNoteMarks(s[1..])
  }

  /** Beyond fifty characters, the first forty-seven followed by `...`. */
  function Shorten(note: string): string {
    if |note| > 50 then note[..47] + "..." else note
  }

  /** What one line of the ladder contributes. */
  datatype Emit = Request(msg: string) | Reply(msg: string) | Note(text: string) | Nothing

  /** The `if` / `elif` / `elif` of the message loop, with the time seen so far. */
  function LineEmit(line: string, time: Option<string>): (e: Emit)
    ensures e.Request? <==> AnyIn(line, RightArrows)
    ensures e.Reply? <==> !AnyIn(line, RightArrows) && AnyIn(line, LeftArrows)
    ensures e.Note? ==> 3 < |e.text| <= 50
  {
    if AnyIn(line, RightArrows) then Request(RequestMessage(line, time))
    else if AnyIn(line, LeftArrows) then Reply(ReplyMessage(line, time))
    else if AnyIn(line, NoteCorners) then
      var note := Strip(DropNoteMarks(line));
      if note != [] && |note| > 3 then Note(Shorten(note)) else Nothing
    else Nothing
  }

  /** The Mermaid line for what a line contributes, given the participants. */
  function Render(ps: seq<string>, e: Emit): Option<string> {
    if |ps| < 2 then None
    else
      match e
      case Request(m) => Some("    " + SafeName(ps[0]) + "->>" + SafeName(ps[1]) + ": " + m)
      case Reply(m) => Some("    " + SafeName(ps[|ps| - 1]) + "-->>" + SafeName(ps[|ps| - 2]) + ": " + m)
      case Note(t) => Some("    Note over " + SafeName(ps[1]) + ": " + t)
      case Nothing => None
  }

  /** `current_time` after a line. */
  function NextTime(line: string, time: Option<string>): Option<string> {
    if TimeOf(line).Some? then TimeOf(line) else time
  }

  /** The loop state after `ls[..k]`: the lines emitted and `current_time`. */
  datatype Flow = Flow(out: seq<string>, time: Option<string>)

  /** One pass of the message loop; a line starting with `---` is skipped before its time is read. */
  function Step(f: Flow, line: string, ps: seq<string>): (g: Flow)
    ensures |g.out| <= |f.out| + 1
  {
    if StartsWith(Strip(line), "---") then f
    else
      var t := NextTime(line, f.time);
      match Render(ps, LineEmit(line, t))
      case Some(l) => Flow(f.out + [l], t)
      case None => Flow(f.out, t)
  }

  /** The message loop over `ls[..k]`. */
  function FlowOf(ls: seq<string>, ps: seq<string>, k: nat): (f: Flow)
    requires k <= |ls|
    ensures |f.out| <= k
    decreases k
  {
    if k == 0 then Flow([], None) else Step(FlowOf(ls, ps, k - 1), ls[k - 1], ps)
  }

  /** The lines after the first two. */
  function Body(lines: seq<string>): seq<string> {
    if |lines| >= 2 then lines[2..] else []
  }

  /** `mermaid_lines`. */
  function DiagramLines(lines: seq<string>): (r: seq<string>)
    ensures |r| <= 3 + |Participants(lines)| + |Body(lines)|
  {
    var ps := Participants(lines);
    var ls := Body(lines);
    ["```mermaid", "sequenceDiagram"] + ParticipantDecls(ps, |ps|) + FlowOf(ls, ps, |ls|).out + ["```"]
  }

  /** The nested `convert_sip_signaling_to_mermaid`. */
  function SipDiagram(lines: seq<string>): string {
    Join(DiagramLines(lines), "\n")
  }

  // ---------------------------------------------------------------------
  // The loops
  // ---------------------------------------------------------------------

  /** The scan of the first five lines, stopping at the first header line. */
  method FindHeader(lines: seq<string>) returns (ps: seq<string>)
    ensures ps == HeaderParticipants(lines, 0)
  {
    ps := [];
    var i: nat := 0;
    while i < 5 && i < |lines|
      invariant HeaderParticipants(lines, i) == HeaderParticipants(lines, 0)
      decreases 5 - i
    {
      if IsHeader(lines[i]) {
        ps := HeaderNames(ContextDetect.RowCells(lines[i]));
        return;
      }
      i := i + 1;
    }
  }

  /** The cleaning loop: each name cleaned, and kept when it is not blank and not `time`. */
  method Clean(ps: seq<string>) returns (c: seq<string>)
    ensures c == CleanNames(ps, |ps|)
  {
    c := [];
    var k: nat := 0;
    while k < |ps|
      invariant k <= |ps|
      invariant c == CleanNames(ps, k)
      decreases |ps| - k
    {
      var cp := Strip(RemoveParens(ps[k], 0));
      if Kept(cp) {
        c := c + [cp];
      }
      k := k + 1;
    }
  }

  /** The participants: header names, cleaned, capped at five, or the default. */
  method ChooseParticipants(lines: seq<string>) returns (ps: seq<string>)
    ensures ps == Participants(lines)
  {
    var header := FindHeader(lines);
    ps := Clean(header);
    if |ps| > 5 {
      ps := ps[..5];
    }
    if |ps| < 2 {
      ps := DefaultParticipants;
    }
  }

  /** One declaration line per participant, in order. */
  method DeclareParticipants(mer0: seq<string>, ps: seq<string>) returns (mer: seq<string>)
    ensures mer == mer0 + ParticipantDecls(ps, |ps|)
  {
    mer := mer0;
    var k: nat := 0;
    while k < |ps|
      invariant k <= |ps|
      invariant mer == mer0 + ParticipantDecls(ps, k)
      decreases |ps| - k
    {
      mer := mer + [ParticipantDecl(ps[k])];
      k := k + 1;
    }
  }

  /** The search for the first word of `ws` in `text`, leaving the loop at the first hit. */
  method FindFirst(text: string, ws: seq<string>) returns (r: Option<string>)
    ensures r == FirstIn(text, ws)
  {
    var k: nat := 0;
    while k < |ws|
      invariant k <= |ws|
      invariant FirstIn(text, ws[k..]) == FirstIn(text, ws)
      decreases |ws| - k
    {
      if Contains(text, ws[k]) {
        return Some(ws[k]);
      }
      assert ws[k..][1..] == ws[k + 1..];
      k := k + 1;
    }
    return None;
  }

  /** The search through the known response codes, in order, leaving the loop at the first one the line shows. */
  method FindResponse(line: string, n: nat) returns (r: Option<Response>)
    ensures r == FirstResponse(line, n, ResponseCodes)
  {
    var rs := ResponseCodes;
    var k: nat := 0;
    while k < |rs|
      invariant k <= |rs|
      invariant FirstResponse(line, n, rs[k..]) == FirstResponse(line, n, rs)
      decreases |rs| - k
    {
      if Contains(line, Label(rs[k])) || Contains(Prefix(line, n), rs[k].code) {
        return Some(rs[k]);
      }
      assert rs[k..][1..] == rs[k + 1..];
      k := k + 1;
    }
    return None;
  }

  /** The search through the SDP attributes: the first one the line names and the message lacks is appended. */
  method FindAttr(line: string, msg: string) returns (r: Option<string>)
    ensures r == FirstAttr(line, msg, SdpAttributes)
  {
    var attrs := SdpAttributes;
    var k: nat := 0;
    while k < |attrs|
      invariant k <= |attrs|
      invariant FirstAttr(line, msg, attrs[k..]) == FirstAttr(line, msg, attrs)
      decreases |attrs| - k
    {
      if Contains(line, attrs[k]) && !Contains(msg, attrs[k]) {
        return Some(attrs[k]);
      }
      assert attrs[k..][1..] == attrs[k + 1..];
      k := k + 1;
    }
    return None;
  }

  /** The right-arrow branch's message. */
  method BuildRequest(line: string, time: Option<string>) returns (message: string)
    ensures message == RequestMessage(line, time)
  {
    message := "Message";
    var m := FindFirst(Upper(line), RequestMethods);
    if m.Some? {
      message := Stamp(m.value, time);
    } else {
      var r := FindResponse(line, 10);
      if r.Some? {
        message := Stamp(Label(r.value), time);
      }
    }
    var a := FindAttr(line, message);
    if a.Some? {
      message := message + " (" + a.value + ")";
    }
  }

  /** The left-arrow branch's message. */
  method BuildReply(line: string, time: Option<string>) returns (message: string)
    ensures message == ReplyMessage(line, time)
  {
    message := "Response";
    var r := FindResponse(line, 20);
    if r.Some? {
      message := Stamp(Label(r.value), time);
    } else {
      var m := FindFirst(Upper(line), RequestMethods);
      if m.Some? {
        message := "200 OK (" + m.value + ")";
      }
    }
  }

  /** One pass of the message loop: the line's contribution, given the time seen so far. */
  method EmitLine(line: string, time: Option<string>) returns (e: Emit)
    ensures e == LineEmit(line, time)
  {
    if AnyIn(line, RightArrows) {
      var m := BuildRequest(line, time);
      e := Request(m);
    } else if AnyIn(line, LeftArrows) {
      var m := BuildReply(line, time);
      e := Reply(m);
    } else if AnyIn(line, NoteCorners) {
      var note := Strip(DropNoteMarks(line));
      if note != [] && |note| > 3 {
        e := Note(Shorten(note));
      } else {
        e := Nothing;
      }
    } else {
      e := Nothing;
    }
  }

  /** One pass of the message loop over the body lines. */
  method StepLine(f: Flow, line: string, ps: seq<string>) returns (g: Flow)
    ensures g == Step(f, line, ps)
  {
    g := f;
    if !StartsWith(Strip(line), "---") {
      var tm := TimeOf(line);
      if tm.Some? {
        g := g.(time := tm);
      }
      var e := EmitLine(line, g.time);
      var l := Render(ps, e);
      if l.Some? {
        g := g.(out := g.out + [l.value]);
      }
    }
  }

  /** The message loop over the body lines, carrying the last time seen. */
  method FlowLoop(mer0: seq<string>, ls: seq<string>, ps: seq<string>) returns (mer: seq<string>)
    ensures mer == mer0 + FlowOf(ls, ps, |ls|).out
  {
    var f := Flow([], None);
    var k: nat := 0;
    while k < |ls|
      invariant k <= |ls|
      invariant f == FlowOf(ls, ps, k)
      decreases |ls| - k
    {
      f := StepLine(f, ls[k], ps);
      k := k + 1;
    }
    mer := mer0 + f.out;
  }

  /** The nested `convert_sip_signaling_to_mermaid`. */
  method ConvertSip(lines: seq<string>) returns (r: string)
    ensures r == SipDiagram(lines)
  {
    var ps := ChooseParticipants(lines);
    var mer := DeclareParticipants(["```mermaid", "sequenceDiagram"], ps);
    mer := FlowLoop(mer, Body(lines), ps);
    mer := mer + ["```"];
    r := Join(mer, "\n");
  }

  // ---------------------------------------------------------------------
  // Properties
  // ---------------------------------------------------------------------

  /** Between two and five participants: the first five clean header names, or the four-party default when there are fewer than two. */
  lemma ParticipantsShape(lines: seq<string>)
    ensures var hs := HeaderParticipants(lines, 0); var c := CleanNames(hs, |hs|); var ps := Participants(lines);
      2 <= |ps| <= 5
      && (|c| < 2 ==> ps == ["UAC", "Router1", "Router2", "UAS"])
      && (|c| >= 2 ==> ps == c[..if |c| > 5 then 5 else |c|])
  {
    var hs := HeaderParticipants(lines, 0);
    var c := CleanNames(hs, |hs|);
    if |c| <= 5 {
      assert c[..|c|] == c;
    }
  }

  /** `FirstIn` finds the first listed word that occurs, and `None` means none does. */
  lemma {:induction false} FirstInSpec(text: string, ws: seq<string>)
    ensures FirstIn(text, ws).Some? ==> FirstIn(text, ws).value in ws && Contains(text, FirstIn(text, ws).value)
    ensures FirstIn(text, ws).None? <==> forall k :: 0 <= k < |ws| ==> !Contains(text, ws[k])
    decreases |ws|
  {
    if ws != [] && !Contains(text, ws[0]) {
      FirstInSpec(text, ws[1..]);
      assert forall k :: 1 <= k < |ws| ==> ws[k] == ws[1..][k - 1];
    }
  }

  /** `FirstResponse` finds a listed response the line shows, and `None` means the line shows none. */
  lemma {:induction false} FirstResponseSpec(line: string, n: nat, rs: seq<Response>)
    ensures FirstResponse(line, n, rs).Some? ==> var r := FirstResponse(line, n, rs).value;
      r in rs && (Contains(line, Label(r)) || Contains(Prefix(line, n), r.code))
    ensures FirstResponse(line, n, rs).None? <==>
      forall k :: 0 <= k < |rs| ==> !Contains(line, Label(rs[k])) && !Contains(Prefix(line, n), rs[k].code)
    decreases |rs|
  {
    if rs != [] && !(Contains(line, Label(rs[0])) || Contains(Prefix(line, n), rs[0].code)) {
      FirstResponseSpec(line, n, rs[1..]);
      assert forall k :: 1 <= k < |rs| ==> rs[k] == rs[1..][k - 1];
    }
  }

  /** A request line names the first method it contains, with the time when one was seen. */
  lemma RequestNamesMethod(line: string, time: Option<string>, m: string)
    requires FirstIn(Upper(line), RequestMethods) == Some(m)
    ensures StartsWith(RequestMessage(line, time), Stamp(m, time))
    ensures m in RequestMethods && Contains(Upper(line), m)
  {
    FirstInSpec(Upper(line), RequestMethods);
  }

  /** A right-arrow line adds exactly one message, from the first participant to the second. */
  lemma StepRequest(f: Flow, line: string, ps: seq<string>)
    requires |ps| >= 2 && !StartsWith(Strip(line), "---") && AnyIn(line, RightArrows)
    ensures var g := Step(f, line, ps);
      && g.out[..|f.out|] == f.out && |g.out| == |f.out| + 1
      && g.out[|f.out|] == "    " + SafeName(ps[0]) + "->>" + SafeName(ps[1]) + ": "
           + RequestMessage(line, NextTime(line, f.time))
  {
    var t := NextTime(line, f.time);
    assert LineEmit(line, t) == Request(RequestMessage(line, t));
    assert (f.out + [Render(ps, LineEmit(line, t)).value])[..|f.out|] == f.out;
  }

  /** A left-arrow line adds exactly one message, from the last participant to the one before it. */
  lemma StepReply(f: Flow, line: string, ps: seq<string>)
    requires |ps| >= 2 && !StartsWith(Strip(line), "---")
    requires !AnyIn(line, RightArrows) && AnyIn(line, LeftArrows)
    ensures var g := Step(f, line, ps);
      && g.out[..|f.out|] == f.out && |g.out| == |f.out| + 1
      && g.out[|f.out|] == "    " + SafeName(ps[|ps| - 1]) + "-->>" + SafeName(ps[|ps| - 2]) + ": "
           + ReplyMessage(line, NextTime(line, f.time))
  {
    var t := NextTime(line, f.time);
    assert LineEmit(line, t) == Reply(ReplyMessage(line, t));
    assert (f.out + [Render(ps, LineEmit(line, t)).value])[..|f.out|] == f.out;
  }

  /** A line starting with `---` adds nothing and keeps the time. */
  lemma StepRule(f: Flow, line: string, ps: seq<string>)
    requires StartsWith(Strip(line), "---")
    ensures Step(f, line, ps) == f
  {
  }

  /** Without an opening parenthesis nothing is removed. */
  lemma {:induction false} RemoveParensPlain(s: string, p: nat)
    requires p <= |s|
    requires forall i :: p <= i < |s| ==> s[i] != '('
    ensures RemoveParens(s, p) == s[p..]
    decreases |s| - p
  {
    if p < |s| {
      RemoveParensPlain(s, p + 1);
      assert s[p..] == [s[p]] + s[p + 1..];
    }
  }
}
