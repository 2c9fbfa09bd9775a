/**
 * Fenced code blocks found with `re.finditer`, and the splice every
 * converter builds around them: the text before a match, something in
 * its place, then on from the match's end.
 *
 * Two patterns occur. `annotate_blocks` and the smart SIP converter
 * (docnexus/features/standard.py:419, omnidoc/features/smart_convert.py:83)
 * use `` ```(?P<lang>[^\n]*)\n(?P<body>.*?)\n``` `` with DOTALL: an info
 * string up to the first newline, then the shortest body followed by a
 * newline and three backticks. The older converter in docnexus/app.py:597
 * uses `` ```\n(.*?)\n``` ``: the same without an info string.
 */
module Fences {
  import opened Text

  /**
   * A match: its text is `s[start..close + 4]`, its body `s[body..close]`;
   * for the tagged pattern the info string is `s[start + 3..body - 1]`.
   */
  datatype Fence = Fence(start: nat, body: nat, close: nat)

  /** Which of the two patterns. */
  datatype Form = Tagged | Plain

  function End(f: Fence): nat {
    f.close + 4
  }

  /** Three backticks at `p`. */
  predicate TicksAt(s: string, p: nat) {
    p + 3 <= |s| && s[p] == '`' && s[p + 1] == '`' && s[p + 2] == '`'
  }

  /** A newline and three backticks at `e`: where a body may stop. */
  predicate CloseAt(s: string, e: nat) {
    e < |s| && s[e] == '\n' && TicksAt(s, e + 1)
  }

  /** The first closing `\n``` ` at or after `b`, or `|s|` when there is none. */
  function FindClose(s: string, b: nat): (e: nat)
    requires b <= |s|
    ensures b <= e <= |s|
    ensures e < |s| ==> CloseAt(s, e)
    ensures forall i :: b <= i < e ==> !CloseAt(s, i)
    decreases |s| - b
  {
    if b == |s| || CloseAt(s, b) then b else FindClose(s, b + 1)
  }

  /** Where the body starts when a match is tried at `p`: past the first newline after the backticks (tagged), or past `` ```\n `` (plain). */
  function BodyStart(s: string, p: nat, form: Form): (r: Option<nat>)
    ensures r.Some? ==> p + 4 <= r.value <= |s| && s[r.value - 1] == '\n'
  {
    if !TicksAt(s, p) then None
    else if form.Plain? then
      (if p + 3 < |s| && s[p + 3] == '\n' then Some(p + 4) else None)
    else
      var q := FindChar(s, '\n', p + 3);
      if q == |s| then None else Some(q + 1)
  }

  /** The match the pattern finds when tried at `p`, if any: the body is as short as possible. */
  function MatchAt(s: string, p: nat, form: Form): (r: Option<Fence>)
    ensures r.Some? ==> r.value.start == p && p + 4 <= r.value.body <= r.value.close && CloseAt(s, r.value.close)
  {
    match BodyStart(s, p, form)
    case None => None
    case Some(b) =>
      var e := FindClose(s, b);
      if e == |s| then None else Some(Fence(p, b, e))
  }

  /** `finditer` from `p`: the leftmost match, then the search goes on at its end. */
  function Matches(s: string, p: nat, form: Form): (r: seq<Fence>)
    requires p <= |s|
    ensures Tiled(s, r, p)
    decreases |s| - p
  {
    if p == |s| then []
    else
      match MatchAt(s, p, form)
      case Some(f) => [f] + Matches(s, End(f), form)
      case None => Matches(s, p + 1, form)
  }

  /** Matches in order, each a well-formed match inside `s`, none overlapping the next, all at or after `p`. */
  ghost predicate Tiled(s: string, fs: seq<Fence>, p: nat) {
    && (forall i :: 0 <= i < |fs| ==> fs[i].start + 4 <= fs[i].body <= fs[i].close && CloseAt(s, fs[i].close))
    && (forall i :: 0 <= i < |fs| - 1 ==> End(fs[i]) <= fs[i + 1].start)
    && (|fs| > 0 ==> p <= fs[0].start)
  }

  /** The whole text of a match. */
  function MatchText(s: string, f: Fence): string
    requires End(f) <= |s| && f.start <= End(f)
  {
    s[f.start..End(f)]
  }

  /** `m.group('body')`. */
  function BodyText(s: string, f: Fence): string
    requires f.body <= f.close <= |s|
  {
    s[f.body..f.close]
  }

  /** `m.group('lang')`: the info string of a tagged match. */
  function LangText(s: string, f: Fence): string
    requires f.start + 4 <= f.body <= |s|
  {
    s[f.start + 3..f.body - 1]
  }

  /** The start of the match, or where the search cursor stands before it. */
  ghost predicate CursorBefore(s: string, fs: seq<Fence>, i: nat, last: nat) {
    i <= |fs| && last <= |s| && (i < |fs| ==> last <= fs[i].start)
  }

  /**
   * The splice the converters build: from `last`, the text up to the
   * `i`-th match, its replacement `reps[i]`, and on from the match's end;
   * after the last match, the rest of the text.
   */
  function Splice(s: string, fs: seq<Fence>, reps: seq<string>, i: nat, last: nat): string
    requires Tiled(s, fs, 0) && |reps| == |fs| && CursorBefore(s, fs, i, last)
    decreases |fs| - i
  {
    if i == |fs| then s[last..]
    else s[last..fs[i].start] + reps[i] + Splice(s, fs, reps, i + 1, End(fs[i]))
  }

  /** Every match's own text, as the replacement that changes nothing. */
  function MatchTexts(s: string, fs: seq<Fence>): (r: seq<string>)
    requires Tiled(s, fs, 0)
    ensures |r| == |fs|
    ensures forall i :: 0 <= i < |fs| ==> r[i] == MatchText(s, fs[i])
  {
    seq(|fs|, i requires 0 <= i < |fs| => MatchText(s, fs[i]))
  }

  /** Putting every match back as it was gives the text back. */
  lemma {:induction false} SpliceIdentity(s: string, fs: seq<Fence>, reps: seq<string>, i: nat, last: nat)
    requires Tiled(s, fs, 0) && |reps| == |fs| && CursorBefore(s, fs, i, last)
    requires forall k :: i <= k < |fs| ==> reps[k] == MatchText(s, fs[k])
    ensures Splice(s, fs, reps, i, last) == s[last..]
    decreases |fs| - i
  {
    if i < |fs| {
      var f := fs[i];
      SpliceIdentity(s, fs, reps, i + 1, End(f));
      SliceJoin(s, last, f.start, End(f));
    }
  }

  lemma SliceJoin(s: string, a: nat, b: nat, c: nat)
    requires a <= b <= c <= |s|
    ensures s[a..b] + s[b..c] + s[c..] == s[a..]
  {
    assert s[a..] == s[a..b] + s[b..c] + s[c..];
  }

  /** One pass of a converter loop: what it appends, and where the rest of the splice starts. */
  lemma SpliceStep(s: string, fs: seq<Fence>, reps: seq<string>, i: nat, last: nat, out: string)
    requires Tiled(s, fs, 0) && |reps| == |fs| && CursorBefore(s, fs, i, last) && i < |fs|
    ensures CursorBefore(s, fs, i + 1, End(fs[i]))
    ensures out + Splice(s, fs, reps, i, last)
      == (out + s[last..fs[i].start] + reps[i]) + Splice(s, fs, reps, i + 1, End(fs[i]))
  {
  }
}
