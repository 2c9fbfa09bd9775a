/**
 * The recent-workspaces list kept in the configuration
 * (docnexus/app.py:1723-1731): the chosen path moves to the front and the
 * list is cut to five entries.
 */
module Workspaces {
  import opened Text

  /** How many entries the list keeps. */
  const MAX_RECENT: nat := 5

  /** Python's `list.remove(x)` for an `x` in the list: only the first occurrence goes. */
  function RemoveFirst(s: seq<string>, x: string): (r: seq<string>)
    decreases |s|
  {
    if s == [] then []
    else if s[0] == x then s[1..]
    else [s[0]] + RemoveFirst(s[1..], x)
  }

  function Occurrences(s: seq<string>, x: string): nat
    decreases |s|
  {
    if s == [] then 0 else (if s[0] == x then 1 else 0) + Occurrences(s[1..], x)
  }

  function Take(s: seq<string>, n: nat): (r: seq<string>)
    ensures |r| == if |s| < n then |s| else n
  {
    if |s| <= n then s else s[..n]
  }

  /** The update: remove the path if present, insert it at the front, keep the first five. */
  function TouchRecent(recent: seq<string>, path: string): seq<string> {
    Take([path] + (if path in recent then RemoveFirst(recent, path) else recent), MAX_RECENT)
  }

  /** The configuration the update works on: the `recent_workspaces` entry, absent until first set. */
  class Config {
    var recent: Option<seq<string>>

    constructor (recent: Option<seq<string>>)
      ensures this.recent == recent
    {
      this.recent := recent;
    }

    /** The list update of `set_active_workspace`, in the source's steps. */
    method SetActive(path: string)
      modifies this
      ensures recent == Some(TouchRecent(if old(recent).Some? then old(recent).value else [], path))
    {
      if recent.None? {
        recent := Some([]);
      }
      var list := recent.value;
      if path in list {
        list := RemoveFirst(list, path);
      }
      list := [path] + list;
      recent := Some(Take(list, MAX_RECENT));
    }
  }

  lemma {:induction false} RemoveFirstCount(s: seq<string>, x: string)
    requires x in s
    ensures Occurrences(RemoveFirst(s, x), x) + 1 == Occurrences(s, x)
    ensures |RemoveFirst(s, x)| + 1 == |s|
    decreases |s|
  {
    if s[0] != x {
      RemoveFirstCount(s[1..], x);
      assert ([s[0]] + RemoveFirst(s[1..], x))[1..] == RemoveFirst(s[1..], x);
    }
  }

  /** Removing an element keeps every other element, each as often as before. */
  lemma {:induction false} RemoveFirstOthers(s: seq<string>, x: string, y: string)
    requires y != x
    ensures Occurrences(RemoveFirst(s, x), y) == Occurrences(s, y)
    decreases |s|
  {
    if s != [] && s[0] != x {
      RemoveFirstOthers(s[1..], x, y);
      assert ([s[0]] + RemoveFirst(s[1..], x))[1..] == RemoveFirst(s[1..], x);
    }
  }

  lemma {:induction false} OccurrencesIn(s: seq<string>, x: string)
    ensures Occurrences(s, x) > 0 <==> x in s
    decreases |s|
  {
    if s != [] {
      OccurrencesIn(s[1..], x);
      assert s == [s[0]] + s[1..];
    }
  }

  lemma {:induction false} TakeOccurrences(s: seq<string>, n: nat, x: string)
    ensures Occurrences(Take(s, n), x) <= Occurrences(s, x)
    decreases |s|
  {
    if |s| > n {
      if n == 0 {
        assert Take(s, n) == [];
      } else {
        TakeOccurrences(s[1..], n - 1, x);
        assert Take(s, n)[1..] == Take(s[1..], n - 1);
      }
    }
  }

  /**
   * After the update the path is first and the list has at most five
   * entries; when the path was listed at most once before, it is listed
   * exactly once after, and a list without repeats stays without repeats.
   */
  lemma TouchRecentFront(recent: seq<string>, path: string)
    ensures var r := TouchRecent(recent, path);
      && |r| <= MAX_RECENT && r != [] && r[0] == path
      && (Occurrences(recent, path) <= 1 ==> Occurrences(r, path) == 1)
  {
    var rest := if path in recent then RemoveFirst(recent, path) else recent;
    var r := TouchRecent(recent, path);
    assert r[0] == path;
    if Occurrences(recent, path) <= 1 {
      if path in recent {
        RemoveFirstCount(recent, path);
      } else {
        OccurrencesIn(recent, path);
      }
      assert Occurrences(rest, path) == 0;
      TakeOccurrences(rest, MAX_RECENT - 1, path);
      assert r == [path] + Take(rest, MAX_RECENT - 1);
      assert r[1..] == Take(rest, MAX_RECENT - 1);
    }
  }

  /** The other entries keep their order behind the path: the list is the path, then the old list without it, cut. */
  lemma TouchRecentRest(recent: seq<string>, path: string)
    ensures var rest := if path in recent then RemoveFirst(recent, path) else recent;
      TouchRecent(recent, path)[1..] == Take(rest, MAX_RECENT - 1)
  {
    var rest := if path in recent then RemoveFirst(recent, path) else recent;
    assert TouchRecent(recent, path) == [path] + Take(rest, MAX_RECENT - 1);
  }

  /** No entry appears more often after the update than before, except the path, which appears once. */
  lemma TouchRecentNoNewRepeats(recent: seq<string>, path: string, y: string)
    requires y != path
    ensures Occurrences(TouchRecent(recent, path), y) <= Occurrences(recent, y)
  {
    var rest := if path in recent then RemoveFirst(recent, path) else recent;
    if path in recent {
      RemoveFirstOthers(recent, path, y);
    }
    TakeOccurrences(rest, MAX_RECENT - 1, y);
    var r := TouchRecent(recent, path);
    assert r == [path] + Take(rest, MAX_RECENT - 1);
    assert r[1..] == Take(rest, MAX_RECENT - 1);
  }
}
