/**
 * Anchor slugs for headings (docnexus/features/standard.py `_slugify` and the
 * per-document `uniq_slug` counter of `normalize_headings`).
 */
module Slug {
  import opened Text

  /** Characters an anchor id may use: `[A-Za-z0-9_-]`. */
  predicate IsIdChar(c: char) { IsAlpha(c) || IsDigit(c) || c == '_' || c == '-' }

  predicate IsId(s: string) {
    s != [] && forall i :: 0 <= i < |s| ==> IsIdChar(s[i])
  }

  /** Characters that can survive slugification: lower-case letters, digits, `_` and `-`. */
  predicate IsSlugChar(c: char) { IsLowerChar(c) || IsDigit(c) || c == '_' || c == '-' }

  predicate KeptBySlugify(c: char) { IsWordChar(c) || IsSpace(c) || c == '-' }

  predicate NoUpper(s: string) { forall i :: 0 <= i < |s| ==> !IsUpper(s[i]) }
  predicate NoSpace(s: string) { forall i :: 0 <= i < |s| ==> !IsSpace(s[i]) }
  predicate AllKept(s: string) { forall i :: 0 <= i < |s| ==> KeptBySlugify(s[i]) }
  predicate AllSlugChars(s: string) { forall i :: 0 <= i < |s| ==> IsSlugChar(s[i]) }

  predicate NoDoubleDash(s: string) {
    forall i :: 0 <= i < |s| - 1 ==> !(s[i] == '-' && s[i + 1] == '-')
  }

  predicate NoEdgeDash(s: string) {
    s == [] || (s[0] != '-' && s[|s| - 1] != '-')
  }

  /** What `_slugify` promises of its result. */
  predicate IsSlug(s: string) {
    AllSlugChars(s) && NoDoubleDash(s) && NoEdgeDash(s)
  }

  /** The per-character predicates survive taking a slice. */
  lemma Slice(s: string, lo: nat, hi: nat)
    requires lo <= hi <= |s|
    ensures NoUpper(s) ==> NoUpper(s[lo..hi])
    ensures NoSpace(s) ==> NoSpace(s[lo..hi])
    ensures AllKept(s) ==> AllKept(s[lo..hi])
    ensures AllSlugChars(s) ==> AllSlugChars(s[lo..hi])
    ensures NoDoubleDash(s) ==> NoDoubleDash(s[lo..hi])
  {
    var t := s[lo..hi];
    assert forall i :: 0 <= i < |t| ==> t[i] == s[lo + i];
  }

  /** ... and putting one character in front. */
  lemma Cons(c: char, s: string)
    ensures NoUpper([c] + s) <== !IsUpper(c) && NoUpper(s)
    ensures NoSpace([c] + s) <== !IsSpace(c) && NoSpace(s)
    ensures AllKept([c] + s) <== KeptBySlugify(c) && AllKept(s)
    ensures AllSlugChars([c] + s) <== IsSlugChar(c) && AllSlugChars(s)
  {
    var t := [c] + s;
    assert forall i :: 1 <= i < |t| ==> t[i] == s[i - 1];
  }

  // --- the rewriting steps of `_slugify`, in order ---

  /** Drop every character that is not a word character, whitespace or `-`. */
  function KeepSlugChars(s: string): string {
    if s == [] then []
    else if KeptBySlugify(s[0]) then [s[0]] + KeepSlugChars(s[1..])
    else KeepSlugChars(s[1..])
  }

  lemma {:induction false} KeepSlugCharsFacts(s: string)
    ensures AllKept(KeepSlugChars(s))
    ensures NoUpper(s) ==> NoUpper(KeepSlugChars(s))
    ensures AllKept(s) ==> KeepSlugChars(s) == s
    decreases |s|
  {
    if s != [] {
      Slice(s, 1, |s|);
      KeepSlugCharsFacts(s[1..]);
      Cons(s[0], KeepSlugChars(s[1..]));
      if AllKept(s) {
        assert KeptBySlugify(s[0]);
        assert [s[0]] + s[1..] == s;
      }
    }
  }

  /** Every maximal whitespace run becomes one `-`. */
  function SpacesToDash(s: string): string
    decreases |s|
  {
    if s == [] then []
    else if IsSpace(s[0]) then "-" + SpacesToDash(s[SpaceRun(s, 0)..])
    else [s[0]] + SpacesToDash(s[1..])
  }

  lemma {:induction false} SpacesToDashFacts(s: string)
    ensures NoSpace(SpacesToDash(s))
    ensures NoUpper(s) ==> NoUpper(SpacesToDash(s))
    ensures AllKept(s) ==> AllKept(SpacesToDash(s))
    ensures NoSpace(s) ==> SpacesToDash(s) == s
    decreases |s|
  {
    if s != [] {
      if IsSpace(s[0]) {
        var k := SpaceRun(s, 0);
        Slice(s, k, |s|);
        SpacesToDashFacts(s[k..]);
        Cons('-', SpacesToDash(s[k..]));
        assert !NoSpace(s);
      } else {
        Slice(s, 1, |s|);
        SpacesToDashFacts(s[1..]);
        Cons(s[0], SpacesToDash(s[1..]));
        assert [s[0]] + s[1..] == s;
      }
    }
  }

  function DashRun(s: string): (n: nat)
    ensures n <= |s|
    ensures forall i :: 0 <= i < n ==> s[i] == '-'
    ensures n == |s| || s[n] != '-'
  {
    if s == [] || s[0] != '-' then 0 else 1 + DashRun(s[1..])
  }

  /** Every maximal run of dashes becomes one `-`. */
  function CollapseDashes(s: string): string
    decreases |s|
  {
    if s == [] then []
    else if s[0] == '-' then "-" + CollapseDashes(s[DashRun(s)..])
    else [s[0]] + CollapseDashes(s[1..])
  }

  /** Collapsing keeps emptiness and the first character. */
  lemma CollapseDashesHead(s: string)
    ensures (CollapseDashes(s) == []) == (s == [])
    ensures s != [] ==> CollapseDashes(s)[0] == s[0]
  {
  }

  lemma {:induction false} CollapseDashesNoDouble(s: string)
    ensures NoDoubleDash(CollapseDashes(s))
    decreases |s|
  {
    if s != [] {
      var k := if s[0] == '-' then DashRun(s) else 1;
      var rest := CollapseDashes(s[k..]);
      CollapseDashesNoDouble(s[k..]);
      CollapseDashesHead(s[k..]);
      var r := [s[0]] + rest;
      assert CollapseDashes(s) == r;
      forall i | 0 <= i < |r| - 1 ensures !(r[i] == '-' && r[i + 1] == '-') {
        if i > 0 { assert r[i] == rest[i - 1] && r[i + 1] == rest[i]; }
        else if s[0] == '-' { assert r[1] == rest[0] == s[k]; }
      }
    }
  }

  lemma {:induction false} CollapseDashesKeeps(s: string)
    ensures AllSlugChars(s) ==> AllSlugChars(CollapseDashes(s))
    ensures NoSpace(s) ==> NoSpace(CollapseDashes(s))
    decreases |s|
  {
    if s != [] {
      var k := if s[0] == '-' then DashRun(s) else 1;
      Slice(s, k, |s|);
      CollapseDashesKeeps(s[k..]);
      Cons(s[0], CollapseDashes(s[k..]));
    }
  }

  /** Without a `--`, collapsing changes nothing. */
  lemma {:induction false} CollapseDashesId(s: string)
    requires NoDoubleDash(s)
    ensures CollapseDashes(s) == s
    decreases |s|
  {
    if s != [] {
      if s[0] == '-' && |s| > 1 {
        assert !(s[0] == '-' && s[1] == '-');
      }
      assert s[0] == '-' ==> DashRun(s) == 1;
      Slice(s, 1, |s|);
      CollapseDashesId(s[1..]);
      assert [s[0]] + s[1..] == s;
    }
  }

  function DropLeadingDashes(s: string): string {
    if s == [] || s[0] != '-' then s else DropLeadingDashes(s[1..])
  }

  lemma {:induction false} DropLeadingFacts(s: string)
    ensures |DropLeadingDashes(s)| <= |s|
    ensures DropLeadingDashes(s) == s[|s| - |DropLeadingDashes(s)|..]
    ensures DropLeadingDashes(s) == [] || DropLeadingDashes(s)[0] != '-'
    ensures s == [] || s[0] != '-' ==> DropLeadingDashes(s) == s
  {
    if s != [] && s[0] == '-' {
      DropLeadingFacts(s[1..]);
    }
  }

  function DropTrailingDashes(s: string): string {
    if s == [] || s[|s| - 1] != '-' then s else DropTrailingDashes(s[..|s| - 1])
  }

  lemma {:induction false} DropTrailingFacts(s: string)
    ensures |DropTrailingDashes(s)| <= |s|
    ensures DropTrailingDashes(s) == s[..|DropTrailingDashes(s)|]
    ensures DropTrailingDashes(s) == [] || DropTrailingDashes(s)[|DropTrailingDashes(s)| - 1] != '-'
    ensures s == [] || s[|s| - 1] != '-' ==> DropTrailingDashes(s) == s
  {
    if s != [] && s[|s| - 1] == '-' {
      DropTrailingFacts(s[..|s| - 1]);
    }
  }

  /** `s.strip('-')`. */
  function TrimDashes(s: string): string {
    DropTrailingDashes(DropLeadingDashes(s))
  }

  lemma TrimDashesEdges(s: string)
    ensures NoEdgeDash(TrimDashes(s))
  {
    var a := DropLeadingDashes(s);
    DropLeadingFacts(s);
    DropTrailingFacts(a);
    var r := DropTrailingDashes(a);
    if r != [] {
      assert r[0] == a[0];
    }
  }

  lemma TrimDashesKeeps(s: string)
    ensures NoDoubleDash(s) ==> NoDoubleDash(TrimDashes(s))
    ensures AllSlugChars(s) ==> AllSlugChars(TrimDashes(s))
    ensures NoSpace(s) ==> NoSpace(TrimDashes(s))
  {
    var a := DropLeadingDashes(s);
    DropLeadingFacts(s);
    DropTrailingFacts(a);
    var r := DropTrailingDashes(a);
    var lo := |s| - |a|;
    assert r == s[lo..lo + |r|];
    Slice(s, lo, lo + |r|);
  }

  lemma TrimDashesId(s: string)
    requires NoEdgeDash(s)
    ensures TrimDashes(s) == s
  {
    DropLeadingFacts(s);
    DropTrailingFacts(s);
  }

  /** `_slugify`: strip, lower-case, drop punctuation, whitespace runs to `-`, collapse dashes, trim dashes. */
  function Slugify(text: string): string {
    TrimDashes(CollapseDashes(SpacesToDash(KeepSlugChars(Lower(Strip(text))))))
  }

  lemma LowerNoUpper(s: string)
    ensures NoUpper(Lower(s))
  {
  }

  /** The result of `_slugify` has no whitespace, no `--`, no leading or trailing `-`. */
  lemma SlugifyIsSlug(text: string)
    ensures IsSlug(Slugify(text))
    ensures NoSpace(Slugify(text))
  {
    var st := Strip(text);
    LowerNoUpper(st);
    var l := Lower(st);
    var k := KeepSlugChars(l);
    KeepSlugCharsFacts(l);
    var d := SpacesToDash(k);
    SpacesToDashFacts(k);
    assert AllSlugChars(d) by {
      forall i | 0 <= i < |d| ensures IsSlugChar(d[i]) {
        assert !IsUpper(d[i]) && KeptBySlugify(d[i]) && !IsSpace(d[i]);
      }
    }
    var c := CollapseDashes(d);
    CollapseDashesNoDouble(d);
    CollapseDashesKeeps(d);
    TrimDashesEdges(c);
    TrimDashesKeeps(c);
  }

  /** A slug is a fixed point of every step. */
  lemma SlugifyOfSlug(s: string)
    requires IsSlug(s)
    ensures Slugify(s) == s
  {
    assert LStrip(s) == s;
    assert Strip(s) == s;
    assert Lower(s) == s;
    KeepSlugCharsFacts(s);
    SpacesToDashFacts(s);
    CollapseDashesId(s);
    TrimDashesId(s);
  }

  /** `_slugify` is idempotent. */
  lemma SlugifyIdempotent(text: string)
    ensures Slugify(Slugify(text)) == Slugify(text)
  {
    SlugifyIsSlug(text);
    SlugifyOfSlug(Slugify(text));
  }

  // ---------------------------------------------------------------------
  // Slugs numbered per base (distinct bases can still yield the same name)
  // ---------------------------------------------------------------------

  /** The counter key: the slug, or "section" when the slug is empty. */
  function BaseSlug(text: string): (b: string)
    ensures IsId(b)
  {
    var s := Slugify(text);
    SlugifyIsSlug(text);
    SlugIsId(s);
    if s == [] then "section" else s
  }

  lemma SlugIsId(s: string)
    requires IsSlug(s)
    ensures s != [] ==> IsId(s)
  {
  }

  function Used(used: map<string, nat>, key: string): nat {
    if key in used then used[key] else 0
  }

  /** The name handed out for the `k`-th use of `base`: bare the first time, `base-k` after. */
  function Suffixed(base: string, k: nat): string {
    if k == 1 then base else base + "-" + NatToString(k)
  }

  /** A numbered name is still an anchor id, and it extends its base with a dash. */
  lemma SuffixedId(base: string, k: nat)
    requires IsId(base)
    ensures IsId(Suffixed(base, k))
    ensures k != 1 ==> |Suffixed(base, k)| > |base| && Suffixed(base, k)[..|base|] == base && Suffixed(base, k)[|base|] == '-'
  {
    if k != 1 {
      var r := Suffixed(base, k);
      assert forall i :: |base| < i < |r| ==> r[i] == NatToString(k)[i - |base| - 1];
    }
  }

  /** One step of the counter for an already computed base. */
  function Bump(used: map<string, nat>, base: string): (string, map<string, nat>) {
    var count := Used(used, base) + 1;
    (Suffixed(base, count), used[base := count])
  }

  /** `uniq_slug` as a value function: the slug it returns and the counter map afterwards. */
  function UniqSlug(used: map<string, nat>, text: string): (r: (string, map<string, nat>))
    ensures IsId(r.0)
  {
    SuffixedId(BaseSlug(text), Used(used, BaseSlug(text)) + 1);
    Bump(used, BaseSlug(text))
  }

  /** Slugs handed out for a sequence of heading texts, threading the counter map. */
  function UniqSlugs(used: map<string, nat>, texts: seq<string>): (r: seq<string>)
    ensures |r| == |texts|
    decreases |texts|
  {
    if texts == [] then []
    else
      var (s, used') := UniqSlug(used, texts[0]);
      [s] + UniqSlugs(used', texts[1..])
  }

  /** The names handed out for `n` consecutive uses of one base. */
  function Bumps(used: map<string, nat>, base: string, n: nat): (r: seq<string>)
    ensures |r| == n
    decreases n
  {
    if n == 0 then []
    else
      var (s, used') := Bump(used, base);
      [s] + Bumps(used', base, n - 1)
  }

  /** With the counter for `base` at `c`, the j-th of `n` uses gets the `(c+j+1)`-th name. */
  lemma {:induction false} BumpsNumbering(used: map<string, nat>, base: string, n: nat)
    ensures forall j :: 0 <= j < n ==> Bumps(used, base, n)[j] == Suffixed(base, Used(used, base) + j + 1)
    decreases n
  {
    if n > 0 {
      var c := Used(used, base) + 1;
      var used' := used[base := c];
      var r := Bumps(used, base, n);
      var rest := Bumps(used', base, n - 1);
      assert r == [Suffixed(base, c)] + rest;
      BumpsNumbering(used', base, n - 1);
      assert Used(used', base) == c;
      forall j | 0 <= j < n ensures r[j] == Suffixed(base, Used(used, base) + j + 1) {
        if j > 0 { assert r[j] == rest[j - 1]; }
      }
    }
  }

  /** One step of `UniqSlugs` over a non-empty sequence. */
  lemma UniqSlugsCons(used: map<string, nat>, texts: seq<string>)
    requires texts != []
    ensures UniqSlugs(used, texts) == [Bump(used, BaseSlug(texts[0])).0] + UniqSlugs(Bump(used, BaseSlug(texts[0])).1, texts[1..])
  {
  }

  /** Repeating one heading text is repeated use of its base. */
  lemma {:induction false} UniqSlugsRepeated(used: map<string, nat>, text: string, n: nat)
    ensures UniqSlugs(used, Repeat(text, n)) == Bumps(used, BaseSlug(text), n)
    decreases n
  {
    if n > 0 {
      var texts := Repeat(text, n);
      assert texts == [text] + Repeat(text, n - 1);
      assert texts[1..] == Repeat(text, n - 1);
      UniqSlugsCons(used, texts);
      UniqSlugsRepeated(Bump(used, BaseSlug(text)).1, text, n - 1);
    }
  }

  /** First use of a fresh base is bare; the k-th use is `base-k`. */
  lemma FreshBaseNumbering(used: map<string, nat>, text: string, n: nat)
    requires BaseSlug(text) !in used
    ensures var r := UniqSlugs(used, Repeat(text, n));
            (n > 0 ==> r[0] == BaseSlug(text)) &&
            forall k :: 2 <= k <= n ==> r[k - 1] == BaseSlug(text) + "-" + NatToString(k)
  {
    UniqSlugsRepeated(used, text, n);
    BumpsNumbering(used, BaseSlug(text), n);
  }

  /** A base already seeded with 1 (as the pre-pass does for every ATX heading) starts at `-2`. */
  lemma SeededBaseNumbering(used: map<string, nat>, text: string)
    requires Used(used, BaseSlug(text)) == 1
    ensures UniqSlug(used, text).0 == BaseSlug(text) + "-2"
  {
    var base := BaseSlug(text);
    assert UniqSlug(used, text).0 == Suffixed(base, 2);
    assert NatToString(2) == "2";
  }

  /** `A` slugifies to `a`. */
  lemma SlugifyOfA()
    ensures Slugify("A") == "a"
  {
    assert Strip("A") == "A";
    assert Lower("A") == "a";
    assert KeepSlugChars("a") == "a";
    SlugifyOfSlug("a");
  }

  /** `A 2` slugifies to `a-2`. */
  lemma SlugifyOfA2()
    ensures Slugify("A 2") == "a-2"
  {
    assert Strip("A 2") == "A 2";
    assert Lower("A 2") == "a 2";
    assert KeepSlugChars("a 2") == "a 2";
    assert SpacesToDash("a 2") == "a-2";
    SlugifyOfSlug("a-2");
  }

  /** The first `A` gets the bare slug. */
  lemma CollisionStep1()
    ensures UniqSlug(map[], "A") == ("a", map["a" := 1])
  {
    SlugifyOfA();
  }

  /** The second `A` is numbered `-2`. */
  lemma CollisionStep2()
    ensures UniqSlug(map["a" := 1], "A") == ("a-2", map["a" := 2])
  {
    SlugifyOfA();
    assert NatToString(2) == "2";
    assert Suffixed("a", 2) == "a-2";
    assert Used(map["a" := 1], "a") == 1;
    assert map["a" := 1]["a" := 2] == map["a" := 2];
  }

  /** `A 2` has the base `a-2`, which the counter has not seen. */
  lemma CollisionStep3()
    ensures UniqSlug(map["a" := 2], "A 2").0 == "a-2"
  {
    SlugifyOfA2();
    assert "a-2" != "a";
    assert Used(map["a" := 2], "a-2") == 0;
  }

  /**
   * The counter is kept per base, not per name handed out: the second `A`
   * is numbered `a-2`, and the text `A 2` has the base `a-2`, which has not
   * been counted yet, so it is handed `a-2` as well.
   */
  lemma NumberedNameCollides(texts: seq<string>)
    requires texts == ["A", "A", "A 2"]
    ensures UniqSlugs(map[], texts) == ["a", "a-2", "a-2"]
  {
    CollisionStep1();
    CollisionStep2();
    CollisionStep3();
    var t1, t2 := texts[1..], texts[2..];
    assert t1[1..] == t2 && t2[1..] == [];
    assert UniqSlugs(map["a" := 2], t2) == ["a-2"];
    assert UniqSlugs(map["a" := 1], t1) == ["a-2"] + UniqSlugs(map["a" := 2], t2);
    assert UniqSlugs(map[], texts) == ["a"] + UniqSlugs(map["a" := 1], t1);
  }

  /** The mutable counter of `normalize_headings`: a dictionary that `uniq_slug` updates. */
  class SlugRegistry {
    var used: map<string, nat>

    constructor (seed: map<string, nat>)
      ensures used == seed
    {
      used := seed;
    }

    method Uniq(text: string) returns (slug: string)
      modifies this
      ensures (slug, used) == UniqSlug(old(used), text)
      ensures IsId(slug)
    {
      var base := Slugify(text);
      if base == [] {
        base := "section";
      }
      var count := (if base in used then used[base] else 0) + 1;
      used := used[base := count];
      slug := if count == 1 then base else base + "-" + NatToString(count);
    }
  }
}
