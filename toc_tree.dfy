/**
 * The table-of-contents tree of `build_toc`
 * (docnexus/features/standard.py:223-356): entries in document order are
 * hung under the nearest preceding entry of a lower level, numbered with
 * per-level counters, and rendered as nested ordered lists.
 *
 * The source builds the tree from dictionaries it mutates through a
 * stack of references. Here the tree is a value; the stack holds the
 * levels of the tree's rightmost path, which are the nodes the reference
 * stack holds, and a node is hung by rebuilding that path.
 */
module TocTree {
  import opened Text

  /** One TOC line before numbering: level, display text, anchor. */
  datatype Entry = Entry(level: nat, text: string, anchor: string)

  /** A node of the tree; `number` is "" until the numbers are assigned. */
  datatype TocNode = TocNode(entry: Entry, number: string, children: seq<TocNode>)

  function Leaf(e: Entry): TocNode {
    TocNode(e, "", [])
  }

  function Last<T>(s: seq<T>): T
    requires s != []
  {
    s[|s| - 1]
  }

  function Init<T>(s: seq<T>): seq<T>
    requires s != []
  {
    s[..|s| - 1]
  }

  lemma {:induction false} InitLast<T>(s: seq<T>, x: T)
    ensures Init(s + [x]) == s && Last(s + [x]) == x
  {
  }

  /** A prefix one longer is the prefix with the next element added. */
  lemma TakeSnoc<T>(s: seq<T>, i: nat)
    requires i < |s|
    ensures s[..i + 1] == s[..i] + [s[i]]
    ensures Init(s[..i + 1]) == s[..i] && Last(s[..i + 1]) == s[i]
  {
    assert s[..i + 1] == s[..i] + [s[i]];
  }

  lemma TakeAll<T>(s: seq<T>)
    ensures s[..|s|] == s
  {
  }

  // ---------------------------------------------------------------------
  // Preorder, sizes and parents (read from the last root backwards)
  // ---------------------------------------------------------------------

  /** The number of nodes of a forest. */
  function Size(f: seq<TocNode>): nat
    decreases f
  {
    if f == [] then 0 else Size(Init(f)) + 1 + Size(Last(f).children)
  }

  /** The entries of a forest in preorder: each node, then its subtree, then its later siblings. */
  function Pre(f: seq<TocNode>): (r: seq<Entry>)
    ensures |r| == Size(f)
    decreases f
  {
    if f == [] then [] else Pre(Init(f)) + [Last(f).entry] + Pre(Last(f).children)
  }

  /**
   * The preorder index of the parent of the `k`-th node in preorder, for a
   * forest whose first node has index `base` and whose roots hang under `par`.
   */
  function ParentOf(f: seq<TocNode>, base: nat, par: Option<nat>, k: nat): Option<nat>
    requires k < Size(f)
    decreases f
  {
    var s := Size(Init(f));
    if k < s then ParentOf(Init(f), base, par, k)
    else if k == s then par
    else ParentOf(Last(f).children, base + s + 1, Some(base + s), k - s - 1)
  }

  // ---------------------------------------------------------------------
  // Building the tree
  // ---------------------------------------------------------------------

  /**
   * Where the stack loop hangs a new entry of level `level`: walking down
   * the rightmost path past every node of a lower level, the last such
   * node, or `par` when the last root is not lower.
   */
  function SpineParent(f: seq<TocNode>, base: nat, par: Option<nat>, level: nat): Option<nat>
    decreases f
  {
    if f == [] || Last(f).entry.level >= level then par
    else
      var b := base + Size(Init(f));
      SpineParent(Last(f).children, b + 1, Some(b), level)
  }

  /** Hang `e` under the deepest node of the rightmost path whose level is lower, or as a new root. */
  function Insert(f: seq<TocNode>, e: Entry): seq<TocNode>
    decreases f
  {
    if f == [] || Last(f).entry.level >= e.level then f + [Leaf(e)]
    else
      var t := Last(f);
      Init(f) + [TocNode(t.entry, t.number, Insert(t.children, e))]
  }

  /** `build_hierarchy_tree`: the entries inserted one by one. */
  function Build(es: seq<Entry>): seq<TocNode>
  {
    if es == [] then [] else Insert(Build(Init(es)), Last(es))
  }

  /** The nearest entry before index `n` whose level is below `level`. */
  function NearestLower(es: seq<Entry>, n: nat, level: nat): (r: Option<nat>)
    requires n <= |es|
    ensures r.Some? ==> r.value < n && es[r.value].level < level
  {
    if n == 0 then None
    else if es[n - 1].level < level then Some(n - 1)
    else NearestLower(es, n - 1, level)
  }

  /** No entry between the one `NearestLower` finds (or the start) and `n` is lower than `level`. */
  lemma {:induction false} NearestLowerGap(es: seq<Entry>, n: nat, level: nat)
    requires n <= |es|
    ensures var r := NearestLower(es, n, level);
      forall m :: (if r.Some? then r.value + 1 else 0) <= m < n ==> es[m].level >= level
  {
    if n > 0 && es[n - 1].level >= level {
      NearestLowerGap(es, n - 1, level);
    }
  }

  lemma {:induction false} InsertPre(f: seq<TocNode>, e: Entry)
    ensures Pre(Insert(f, e)) == Pre(f) + [e]
    decreases f
  {
    if f == [] || Last(f).entry.level >= e.level {
      InitLast(f, Leaf(e));
    } else {
      var t := Last(f);
      var t' := TocNode(t.entry, t.number, Insert(t.children, e));
      InitLast(Init(f), t');
      InsertPre(t.children, e);
    }
  }

  /** The new entry's parent is the one `SpineParent` names, and no other parent changes. */
  lemma {:induction false} InsertParentOf(f: seq<TocNode>, e: Entry, base: nat, par: Option<nat>, k: nat)
    requires k <= Size(f)
    ensures Size(Insert(f, e)) == Size(f) + 1
    ensures ParentOf(Insert(f, e), base, par, k)
      == if k < Size(f) then ParentOf(f, base, par, k) else SpineParent(f, base, par, e.level)
    decreases f
  {
    InsertPre(f, e);
    var g := Insert(f, e);
    if f == [] || Last(f).entry.level >= e.level {
      InsertRootParent(f, e, base, par, k);
    } else {
      var s := Size(Init(f));
      var c := Last(f).children;
      InsertBelowShape(f, e);
      if k > s {
        var k' := k - s - 1;
        InsertParentOf(c, e, base + s + 1, Some(base + s), k');
        ParentPast(g, base, par, k);
        assert ParentOf(g, base, par, k) == ParentOf(Insert(c, e), base + s + 1, Some(base + s), k');
        if k < Size(f) {
          ParentPast(f, base, par, k);
          assert ParentOf(g, base, par, k) == ParentOf(f, base, par, k);
        } else {
          SpineUnfold(f, base, par, e.level);
          assert ParentOf(g, base, par, k) == SpineParent(f, base, par, e.level);
        }
      } else {
        ParentBefore(f, g, base, par, k);
        assert ParentOf(g, base, par, k) == ParentOf(f, base, par, k);
      }
    }
  }

  /** A new root keeps every parent and hangs under `par`, where the spine ends. */
  lemma InsertRootParent(f: seq<TocNode>, e: Entry, base: nat, par: Option<nat>, k: nat)
    requires f == [] || Last(f).entry.level >= e.level
    requires k <= Size(f)
    ensures Size(Insert(f, e)) == Size(f) + 1
    ensures ParentOf(Insert(f, e), base, par, k)
      == if k < Size(f) then ParentOf(f, base, par, k) else SpineParent(f, base, par, e.level)
  {
    InitLast(f, Leaf(e));
  }

  /** Inserting below the last root rebuilds only that root. */
  lemma InsertBelowShape(f: seq<TocNode>, e: Entry)
    requires f != [] && Last(f).entry.level < e.level
    ensures Insert(f, e) != [] && Init(Insert(f, e)) == Init(f)
    ensures Last(Insert(f, e)) == TocNode(Last(f).entry, Last(f).number, Insert(Last(f).children, e))
    ensures Size(f) == Size(Init(f)) + 1 + Size(Last(f).children)
  {
    var t := Last(f);
    InitLast(Init(f), TocNode(t.entry, t.number, Insert(t.children, e)));
  }

  /** Past the last root, a parent is read in the last root's children. */
  lemma ParentPast(f: seq<TocNode>, base: nat, par: Option<nat>, k: nat)
    requires f != [] && Size(Init(f)) < k < Size(f)
    ensures ParentOf(f, base, par, k)
      == ParentOf(Last(f).children, base + Size(Init(f)) + 1, Some(base + Size(Init(f))), k - Size(Init(f)) - 1)
  {
  }

  /** Up to the last root, parents depend only on the earlier roots. */
  lemma ParentBefore(f: seq<TocNode>, g: seq<TocNode>, base: nat, par: Option<nat>, k: nat)
    requires f != [] && g != [] && Init(f) == Init(g) && k <= Size(Init(f))
    requires Size(Init(f)) < Size(f) && Size(Init(g)) < Size(g)
    ensures ParentOf(f, base, par, k) == ParentOf(g, base, par, k)
  {
  }

  /** Below a lower last root, the spine continues in its children. */
  lemma SpineUnfold(f: seq<TocNode>, base: nat, par: Option<nat>, level: nat)
    requires f != [] && Last(f).entry.level < level
    ensures SpineParent(f, base, par, level)
      == SpineParent(Last(f).children, base + Size(Init(f)) + 1, Some(base + Size(Init(f))), level)
  {
  }

  /** After an insertion, a later entry hangs under the new one exactly when the new one is lower. */
  lemma {:induction false} InsertSpine(f: seq<TocNode>, e: Entry, base: nat, par: Option<nat>, level: nat)
    ensures SpineParent(Insert(f, e), base, par, level)
      == if e.level < level then Some(base + Size(f)) else SpineParent(f, base, par, level)
    decreases f
  {
    if f == [] || Last(f).entry.level >= e.level {
      InsertSpineRoot(f, e, base, par, level);
    } else {
      var b := base + Size(Init(f));
      InsertSpine(Last(f).children, e, b + 1, Some(b), level);
      InsertSpineBelow(f, e, base, par, level);
    }
  }

  lemma {:induction false} InsertSpineRoot(f: seq<TocNode>, e: Entry, base: nat, par: Option<nat>, level: nat)
    requires f == [] || Last(f).entry.level >= e.level
    ensures SpineParent(Insert(f, e), base, par, level)
      == if e.level < level then Some(base + Size(f)) else SpineParent(f, base, par, level)
  {
    InitLast(f, Leaf(e));
  }

  lemma {:induction false} InsertSpineBelow(f: seq<TocNode>, e: Entry, base: nat, par: Option<nat>, level: nat)
    requires f != [] && Last(f).entry.level < e.level
    requires var b := base + Size(Init(f));
      SpineParent(Insert(Last(f).children, e), b + 1, Some(b), level)
      == if e.level < level then Some(b + 1 + Size(Last(f).children)) else SpineParent(Last(f).children, b + 1, Some(b), level)
    ensures SpineParent(Insert(f, e), base, par, level)
      == if e.level < level then Some(base + Size(f)) else SpineParent(f, base, par, level)
  {
    var t := Last(f);
    var t' := TocNode(t.entry, t.number, Insert(t.children, e));
    InitLast(Init(f), t');
  }

  lemma {:induction false} BuildPre(es: seq<Entry>)
    ensures Pre(Build(es)) == es
    decreases |es|
  {
    if es != [] {
      BuildPre(Init(es));
      InsertPre(Build(Init(es)), Last(es));
      assert Init(es) + [Last(es)] == es;
    }
  }

  /** Looking back from `n` reads only the entries before `n`. */
  lemma {:induction false} NearestLowerPrefix(es: seq<Entry>, m: nat, n: nat, level: nat)
    requires n <= m <= |es|
    ensures NearestLower(es[..m], n, level) == NearestLower(es, n, level)
    decreases n
  {
    if n > 0 {
      assert es[..m][n - 1] == es[n - 1];
      NearestLowerPrefix(es, m, n - 1, level);
    }
  }

  lemma {:induction false} BuildSpine(es: seq<Entry>, level: nat)
    ensures SpineParent(Build(es), 0, None, level) == NearestLower(es, |es|, level)
    decreases |es|
  {
    if es != [] {
      var n := |es| - 1;
      BuildSpine(Init(es), level);
      BuildPre(Init(es));
      InsertSpine(Build(Init(es)), Last(es), 0, None, level);
      NearestLowerPrefix(es, n, n, level);
    }
  }

  /**
   * Each node of the built tree hangs under the nearest preceding entry
   * with a strictly lower level, and is a root when there is none.
   */
  lemma {:induction false} BuildParents(es: seq<Entry>, i: nat)
    requires i < |es|
    ensures Size(Build(es)) == |es|
    ensures ParentOf(Build(es), 0, None, i) == NearestLower(es, i, es[i].level)
    decreases |es|
  {
    BuildPre(es);
    var n := |es| - 1;
    BuildPre(Init(es));
    InsertParentOf(Build(Init(es)), Last(es), 0, None, i);
    if i < n {
      BuildParents(Init(es), i);
      NearestLowerPrefix(es, n, i, es[i].level);
    } else {
      BuildSpine(Init(es), es[n].level);
      NearestLowerPrefix(es, n, n, es[n].level);
    }
  }

  // ---------------------------------------------------------------------
  // The stack loop
  // ---------------------------------------------------------------------

  /** The levels along the rightmost path: what the source's stack holds. */
  function SpineLevels(f: seq<TocNode>): seq<nat>
    decreases f
  {
    if f == [] then [] else [Last(f).entry.level] + SpineLevels(Last(f).children)
  }

  predicate Increasing(s: seq<nat>) {
    forall i, j :: 0 <= i < j < |s| ==> s[i] < s[j]
  }

  /** The node appended to the children of the `d`-th node of the rightmost path, or a new root when `d` is 0. */
  function InsertAt(f: seq<TocNode>, d: nat, e: Entry): seq<TocNode>
    requires d <= |SpineLevels(f)|
    decreases f
  {
    if d == 0 then f + [Leaf(e)]
    else
      var t := Last(f);
      Init(f) + [TocNode(t.entry, t.number, InsertAt(t.children, d - 1, e))]
  }

  /**
   * Once the stack has been popped down to the levels below `e.level`,
   * hanging `e` under its top is `Insert`, and the stack with `e` pushed
   * is the new rightmost path, still strictly increasing.
   */
  lemma InsertAtInsert(f: seq<TocNode>, e: Entry, d: nat)
    requires Increasing(SpineLevels(f)) && d <= |SpineLevels(f)|
    requires forall j :: 0 <= j < d ==> SpineLevels(f)[j] < e.level
    requires d == |SpineLevels(f)| || SpineLevels(f)[d] >= e.level
    ensures InsertAt(f, d, e) == Insert(f, e)
    ensures SpineLevels(Insert(f, e)) == SpineLevels(f)[..d] + [e.level]
    ensures Increasing(SpineLevels(Insert(f, e)))
  {
    InsertAtEq(f, e, d);
    SpineInsertAt(f, d, e);
    IncreasingSnoc(SpineLevels(f), d, e.level);
  }

  /** Walking down the rightmost path while the levels stay below `e.level` reaches depth `d`. */
  lemma {:induction false} InsertAtEq(f: seq<TocNode>, e: Entry, d: nat)
    requires d <= |SpineLevels(f)|
    requires forall j :: 0 <= j < d ==> SpineLevels(f)[j] < e.level
    requires d == |SpineLevels(f)| || SpineLevels(f)[d] >= e.level
    ensures InsertAt(f, d, e) == Insert(f, e)
    decreases f
  {
    var sp := SpineLevels(f);
    if d == 0 {
      assert f == [] || sp[0] == Last(f).entry.level;
    } else {
      var t := Last(f);
      var sc := SpineLevels(t.children);
      assert sc == sp[1..];
      assert sp[0] == t.entry.level < e.level;
      forall j | 0 <= j < d - 1 ensures sc[j] < e.level {
        assert sc[j] == sp[j + 1];
      }
      InsertAtEq(t.children, e, d - 1);
    }
  }

  /** Hanging a node at depth `d` cuts the rightmost path there and extends it by the new node. */
  lemma {:induction false} SpineInsertAt(f: seq<TocNode>, d: nat, e: Entry)
    requires d <= |SpineLevels(f)|
    ensures SpineLevels(InsertAt(f, d, e)) == SpineLevels(f)[..d] + [e.level]
    decreases f
  {
    var sp := SpineLevels(f);
    if d == 0 {
      InitLast(f, Leaf(e));
    } else {
      var t := Last(f);
      assert SpineLevels(t.children) == sp[1..];
      SpineInsertAt(t.children, d - 1, e);
      var t' := TocNode(t.entry, t.number, InsertAt(t.children, d - 1, e));
      InitLast(Init(f), t');
      SliceCons(sp, d, e.level);
    }
  }

  lemma {:induction false} SliceCons(sp: seq<nat>, d: nat, x: nat)
    requires 0 < d <= |sp|
    ensures [sp[0]] + (sp[1..][..d - 1] + [x]) == sp[..d] + [x]
  {
    assert sp[..d] == [sp[0]] + sp[1..][..d - 1];
  }

  lemma {:induction false} IncreasingSnoc(sp: seq<nat>, d: nat, x: nat)
    requires Increasing(sp) && d <= |sp|
    requires forall j :: 0 <= j < d ==> sp[j] < x
    ensures Increasing(sp[..d] + [x])
  {
  }

  /** One pass of the loop body, once the stack is popped: hang the node and push its level. */
  lemma {:induction false} HangStep(f: seq<TocNode>, e: Entry, stack: seq<nat>)
    requires Increasing(SpineLevels(f))
    requires |stack| <= |SpineLevels(f)| && stack == SpineLevels(f)[..|stack|]
    requires forall j :: |stack| <= j < |SpineLevels(f)| ==> SpineLevels(f)[j] >= e.level
    requires stack == [] || Last(stack) < e.level
    ensures (if stack == [] then f + [Leaf(e)] else InsertAt(f, |stack|, e)) == Insert(f, e)
    ensures stack + [e.level] == SpineLevels(Insert(f, e)) && Increasing(stack + [e.level])
  {
    var sp := SpineLevels(f);
    var d := |stack|;
    forall j | 0 <= j < d ensures sp[j] < e.level {
      assert sp[j] <= sp[d - 1] == stack[d - 1];
    }
    InsertAtInsert(f, e, d);
  }

  /** `build_hierarchy_tree`'s loop: pop the stack down to a lower level, hang the node there, push it. */
  method BuildHierarchy(entries: seq<Entry>) returns (tree: seq<TocNode>)
    ensures tree == Build(entries)
  {
    tree := [];
    var stack: seq<nat> := [];
    for i := 0 to |entries|
      invariant tree == Build(entries[..i])
      invariant stack == SpineLevels(tree) && Increasing(stack)
    {
      var e := entries[i];
      ghost var sp := stack;
      while |stack| > 0 && Last(stack) >= e.level
        invariant |stack| <= |sp| && stack == sp[..|stack|]
        invariant forall j :: |stack| <= j < |sp| ==> sp[j] >= e.level
        decreases |stack|
      {
        stack := Init(stack);
      }
      HangStep(tree, e, stack);
      if |stack| == 0 {
        tree := tree + [Leaf(e)];
      } else {
        tree := InsertAt(tree, |stack|, e);
      }
      stack := stack + [e.level];
      TakeSnoc(entries, i);
    }
    TakeAll(entries);
  }

  // ---------------------------------------------------------------------
  // Numbering
  // ---------------------------------------------------------------------

  /** A counter of `counters`, absent keys reading as 0. */
  function Get(counters: map<nat, nat>, level: nat): nat {
    if level in counters then counters[level] else 0
  }

  /**
   * The nodes of level `level` among the first `n`, counted back to the
   * nearest one of a lower level: what the counter of `level` holds after `n` nodes.
   */
  function CountSince(es: seq<Entry>, n: nat, level: nat): nat
    requires n <= |es|
  {
    if n == 0 then 0
    else if es[n - 1].level < level then 0
    else CountSince(es, n - 1, level) + (if es[n - 1].level == level then 1 else 0)
  }

  /** `counters` is what the nodes before index `n` leave behind. */
  ghost predicate Agrees(counters: map<nat, nat>, es: seq<Entry>, n: nat)
    requires n <= |es|
  {
    forall level: nat {:trigger Get(counters, level)} :: Get(counters, level) == CountSince(es, n, level)
  }

  /**
   * The counter update `assign_numbers` makes for one node: create the
   * node's level's counter at 0 if it is missing, reset every deeper
   * counter, then count the node. Counters that agreed with the entries
   * before `n` agree with the entries up to and including `n`.
   */
  method CountNode(counters: map<nat, nat>, level: nat, ghost es: seq<Entry>, ghost n: nat) returns (r: map<nat, nat>)
    requires n < |es| && es[n].level == level && Agrees(counters, es, n)
    ensures level in r && r[level] == CountSince(es, n + 1, level)
    ensures Agrees(r, es, n + 1)
  {
    r := counters;
    if level !in r {
      r := r[level := 0];
    }
    r := map l | l in r :: if l > level then 0 else r[l];
    r := r[level := r[level] + 1];
    forall l: nat ensures Get(r, l) == CountSince(es, n + 1, l) {
      assert Get(counters, l) == CountSince(es, n, l);
    }
    assert Get(r, level) == CountSince(es, n + 1, level);
  }

  /**
   * The number of the `i`-th entry: its parent's number and a dot, unless it
   * is a root, then its level's counter.
   */
  function Num(es: seq<Entry>, i: nat): (r: string)
    requires i < |es|
    ensures r != []
    decreases i
  {
    var k := NatToString(CountSince(es, i + 1, es[i].level));
    match NearestLower(es, i, es[i].level)
    case None => k
    case Some(j) => Num(es, j) + "." + k
  }
  /** `nums` lists `Num` of every entry. */
  ghost predicate Numbered(es: seq<Entry>, nums: seq<string>) {
    |nums| == |es| && forall i {:trigger Num(es, i)} :: 0 <= i < |es| ==> nums[i] == Num(es, i)
  }

  function Nums(es: seq<Entry>): (r: seq<string>)
    ensures Numbered(es, r)
  {
    seq(|es|, i requires 0 <= i < |es| => Num(es, i))
  }


  /** The number of the `k`-th node in preorder. */
  function NumberAt(f: seq<TocNode>, k: nat): string
    requires k < Size(f)
    decreases f
  {
    var s := Size(Init(f));
    if k < s then NumberAt(Init(f), k)
    else if k == s then Last(f).number
    else NumberAt(Last(f).children, k - s - 1)
  }

  /** `f` with its `k`-th node in preorder numbered `nums[base + k]`. */
  function Renumber(f: seq<TocNode>, nums: seq<string>, base: nat): seq<TocNode>
    requires base + Size(f) <= |nums|
    decreases f
  {
    if f == [] then []
    else
      var s := Size(Init(f));
      var t := Last(f);
      Renumber(Init(f), nums, base) + [TocNode(t.entry, nums[base + s], Renumber(t.children, nums, base + s + 1))]
  }

  /** The entry of the `k`-th node in preorder. */
  function EntryAt(f: seq<TocNode>, k: nat): Entry
    requires k < Size(f)
    decreases f
  {
    var s := Size(Init(f));
    if k < s then EntryAt(Init(f), k)
    else if k == s then Last(f).entry
    else EntryAt(Last(f).children, k - s - 1)
  }

  lemma {:induction false} EntryAtPre(f: seq<TocNode>, k: nat)
    requires k < Size(f)
    ensures EntryAt(f, k) == Pre(f)[k]
    decreases f
  {
    var s := Size(Init(f));
    var t := Last(f);
    assert Pre(f) == Pre(Init(f)) + [t.entry] + Pre(t.children);
    if k < s {
      EntryAtPre(Init(f), k);
    } else if k > s {
      EntryAtPre(t.children, k - s - 1);
    }
  }

  /**
   * `f` sits at preorder positions `base ..` of the entry list `es`, its
   * roots hang under `par`, and every node's parent is the nearest earlier
   * entry of a lower level.
   */
  ghost predicate Placed(f: seq<TocNode>, es: seq<Entry>, base: nat, par: Option<nat>)
  {
    && base + Size(f) <= |es|
    && (par.Some? ==> par.value < base)
    && forall k {:trigger EntryAt(f, k)} {:trigger ParentOf(f, base, par, k)} :: 0 <= k < Size(f) ==>
         EntryAt(f, k) == es[base + k] && ParentOf(f, base, par, k) == NearestLower(es, base + k, es[base + k].level)
  }

  lemma PlacedInit(f: seq<TocNode>, es: seq<Entry>, base: nat, par: Option<nat>)
    requires f != [] && Placed(f, es, base, par)
    ensures Placed(Init(f), es, base, par)
  {
    var s := Size(Init(f));
    forall k | 0 <= k < s
      ensures EntryAt(Init(f), k) == es[base + k]
      ensures ParentOf(Init(f), base, par, k) == NearestLower(es, base + k, es[base + k].level)
    {
      assert EntryAt(f, k) == EntryAt(Init(f), k);
    }
  }

  lemma PlacedLast(f: seq<TocNode>, es: seq<Entry>, base: nat, par: Option<nat>)
    requires f != [] && Placed(f, es, base, par)
    ensures es[base + Size(Init(f))] == Last(f).entry
    ensures NearestLower(es, base + Size(Init(f)), Last(f).entry.level) == par
  {
    var s := Size(Init(f));
    assert EntryAt(f, s) == Last(f).entry;
    assert ParentOf(f, base, par, s) == par;
  }

  lemma PlacedChildren(f: seq<TocNode>, es: seq<Entry>, base: nat, par: Option<nat>)
    requires f != [] && Placed(f, es, base, par)
    ensures Placed(Last(f).children, es, base + Size(Init(f)) + 1, Some(base + Size(Init(f))))
  {
    var s := Size(Init(f));
    var t := Last(f);
    forall k | 0 <= k < Size(t.children)
      ensures EntryAt(t.children, k) == es[base + s + 1 + k]
      ensures ParentOf(t.children, base + s + 1, Some(base + s), k) == NearestLower(es, base + s + 1 + k, es[base + s + 1 + k].level)
    {
      assert EntryAt(f, s + 1 + k) == EntryAt(t.children, k);
      assert ParentOf(f, base, par, s + 1 + k) == ParentOf(t.children, base + s + 1, Some(base + s), k);
    }
  }

  /** The number the source builds for the entry at `n`, from its parent's number and its level's counter, is `Num`. */
  lemma NumStep(es: seq<Entry>, nums: seq<string>, n: nat, par: Option<nat>, pn: string, count: nat)
    requires Numbered(es, nums) && n < |es| && count == CountSince(es, n + 1, es[n].level)
    requires NearestLower(es, n, es[n].level) == par
    requires par.None? ==> pn == ""
    requires par.Some? ==> par.value < n && pn == nums[par.value]
    ensures (if pn != "" then pn + "." + NatToString(count) else NatToString(count)) == nums[n]
  {
    assert nums[n] == Num(es, n);
    if par.Some? {
      assert nums[par.value] == Num(es, par.value);
    }
  }

  lemma {:induction false} NumberAtSnoc(g: seq<TocNode>, node: TocNode, k: nat)
    requires k < Size(g) + 1 + Size(node.children)
    ensures Size(g + [node]) == Size(g) + 1 + Size(node.children)
    ensures NumberAt(g + [node], k) ==
      if k < Size(g) then NumberAt(g, k)
      else if k == Size(g) then node.number
      else NumberAt(node.children, k - Size(g) - 1)
  {
    InitLast(g, node);
  }

  lemma {:induction false} PlacedPrefix(f: seq<TocNode>, es: seq<Entry>, base: nat, par: Option<nat>, i: nat)
    requires Placed(f, es, base, par) && i <= |f|
    ensures Placed(f[..i], es, base, par)
    decreases |f| - i
  {
    if i == |f| {
      TakeAll(f);
    } else {
      PlacedPrefix(f, es, base, par, i + 1);
      TakeSnoc(f, i);
      PlacedInit(f[..i + 1], es, base, par);
    }
  }

  /** What the `i`-th root of a placed forest brings to the loop of `AssignNumbers`. */
  lemma RootFacts(f: seq<TocNode>, es: seq<Entry>, base: nat, par: Option<nat>, i: nat)
    requires Placed(f, es, base, par) && i < |f|
    ensures Size(f[..i + 1]) == Size(f[..i]) + 1 + Size(f[i].children)
    ensures base + Size(f[..i + 1]) <= |es|
    ensures es[base + Size(f[..i])] == f[i].entry
    ensures NearestLower(es, base + Size(f[..i]), f[i].entry.level) == par
    ensures Placed(f[i].children, es, base + Size(f[..i]) + 1, Some(base + Size(f[..i])))
  {
    var pre := f[..i + 1];
    TakeSnoc(f, i);
    PlacedPrefix(f, es, base, par, i + 1);
    PlacedLast(pre, es, base, par);
    PlacedChildren(pre, es, base, par);
  }

  /** Renumbering the first `i + 1` roots: the first `i` renumbered, then the `i`-th root with its number and renumbered children. */
  lemma RenumberSnoc(f: seq<TocNode>, i: nat, nums: seq<string>, base: nat)
    requires i < |f| && base + Size(f[..i + 1]) <= |nums|
    ensures Size(f[..i + 1]) == Size(f[..i]) + 1 + Size(f[i].children)
    ensures Renumber(f[..i + 1], nums, base) == Renumber(f[..i], nums, base)
      + [TocNode(f[i].entry, nums[base + Size(f[..i])], Renumber(f[i].children, nums, base + Size(f[..i]) + 1))]
  {
    TakeSnoc(f, i);
  }

  /**
   * `assign_numbers`: walk the roots in order, numbering each with its
   * subtree. When the forest sits at positions `base ..` of the entry list
   * and `nums` lists the entries' numbers, the numbered forest is `f`
   * renumbered from `nums`, and the counters left behind are those of the
   * entries up to the forest's end.
   */
  method AssignNumbers(f: seq<TocNode>, pn: string, counters: map<nat, nat>, ghost es: seq<Entry>, ghost nums: seq<string>, ghost base: nat, ghost par: Option<nat>)
    returns (g: seq<TocNode>, out: map<nat, nat>)
    requires Placed(f, es, base, par) && Agrees(counters, es, base)
    requires Numbered(es, nums)
    requires par.None? ==> pn == ""
    requires par.Some? ==> pn == nums[par.value]
    ensures base + Size(f) <= |nums| && g == Renumber(f, nums, base)
    ensures Agrees(out, es, base + Size(f))
    decreases f, 1
  {
    g := [];
    out := counters;
    ghost var pos := base;
    for i := 0 to |f|
      invariant pos == base + Size(f[..i]) && pos <= |es| && Agrees(out, es, pos)
      invariant g == Renumber(f[..i], nums, base)
    {
      var node;
      RootFacts(f, es, base, par, i);
      RenumberSnoc(f, i, nums, base);
      node, out := NumberRoot(f[i], pn, out, es, nums, pos, par);
      g := g + [node];
      pos := pos + 1 + Size(f[i].children);
    }
    TakeAll(f);
  }

  /**
   * One pass of `assign_numbers`' loop, for the `i`-th root: reset the
   * deeper counters and count the root at its level, number it from the
   * parent's number, then number its children with the same counters.
   */
  method NumberRoot(t: TocNode, pn: string, counters: map<nat, nat>, ghost es: seq<Entry>, ghost nums: seq<string>, ghost n: nat, ghost par: Option<nat>)
    returns (node: TocNode, out: map<nat, nat>)
    requires n + 1 + Size(t.children) <= |es| && es[n] == t.entry
    requires NearestLower(es, n, t.entry.level) == par && Placed(t.children, es, n + 1, Some(n))
    requires Agrees(counters, es, n) && Numbered(es, nums)
    requires par.None? ==> pn == ""
    requires par.Some? ==> par.value < n && pn == nums[par.value]
    ensures node == TocNode(t.entry, nums[n], Renumber(t.children, nums, n + 1))
    ensures Agrees(out, es, n + 1 + Size(t.children))
    decreases t, 0
  {
    out := CountNode(counters, t.entry.level, es, n);
    var count := out[t.entry.level];
    var num := if pn != "" then pn + "." + NatToString(count) else NatToString(count);
    NumStep(es, nums, n, par, pn, count);
    if t.children != [] {
      var kids;
      kids, out := AssignNumbers(t.children, num, out, es, nums, n + 1, Some(n));
      node := TocNode(t.entry, num, kids);
    } else {
      node := TocNode(t.entry, num, t.children);
    }
  }

  /** Renumbering keeps the size. */
  lemma {:induction false} RenumberSize(f: seq<TocNode>, nums: seq<string>, base: nat)
    requires base + Size(f) <= |nums|
    ensures Size(Renumber(f, nums, base)) == Size(f)
    decreases f
  {
    if f != [] {
      var s := Size(Init(f));
      var t := Last(f);
      RenumberSize(Init(f), nums, base);
      RenumberSize(t.children, nums, base + s + 1);
      InitLast(Renumber(Init(f), nums, base), TocNode(t.entry, nums[base + s], Renumber(t.children, nums, base + s + 1)));
    }
  }

  /** Renumbering keeps the entries, in preorder. */
  lemma {:induction false} RenumberFacts(f: seq<TocNode>, nums: seq<string>, base: nat)
    requires base + Size(f) <= |nums|
    ensures Size(Renumber(f, nums, base)) == Size(f) && Pre(Renumber(f, nums, base)) == Pre(f)
    decreases f
  {
    if f != [] {
      var s := Size(Init(f));
      var t := Last(f);
      var g := Renumber(Init(f), nums, base);
      var node := TocNode(t.entry, nums[base + s], Renumber(t.children, nums, base + s + 1));
      RenumberFacts(Init(f), nums, base);
      RenumberFacts(t.children, nums, base + s + 1);
      InitLast(g, node);
    }
  }

  lemma RenumberShape(f: seq<TocNode>, nums: seq<string>, base: nat)
    requires f != [] && base + Size(f) <= |nums|
    ensures Size(f) == Size(Init(f)) + 1 + Size(Last(f).children)
    ensures Renumber(f, nums, base) == Renumber(Init(f), nums, base)
      + [TocNode(Last(f).entry, nums[base + Size(Init(f))], Renumber(Last(f).children, nums, base + Size(Init(f)) + 1))]
  {
  }

  /** Renumbering gives the `k`-th node in preorder the number `nums[base + k]`. */
  lemma {:induction false} RenumberNumberAt(f: seq<TocNode>, nums: seq<string>, base: nat, k: nat)
    requires base + Size(f) <= |nums| && k < Size(f)
    ensures Size(Renumber(f, nums, base)) == Size(f)
    ensures NumberAt(Renumber(f, nums, base), k) == nums[base + k]
    decreases f
  {
    assert f != [];
    RenumberSize(f, nums, base);
    var s := Size(Init(f));
    var t := Last(f);
    var g := Renumber(Init(f), nums, base);
    var node := TocNode(t.entry, nums[base + s], Renumber(t.children, nums, base + s + 1));
    RenumberShape(f, nums, base);
    RenumberSize(Init(f), nums, base);
    NumberAtSnoc(g, node, k);
    if k < s {
      RenumberNumberAt(Init(f), nums, base, k);
      assert NumberAt(g + [node], k) == NumberAt(g, k);
    } else if k > s {
      RenumberNumberAt(t.children, nums, base + s + 1, k - s - 1);
      assert NumberAt(g + [node], k) == NumberAt(node.children, k - s - 1);
    }
    assert NumberAt(g + [node], k) == nums[base + k];
  }

  /** Renumbering from `Nums` gives every node the number `Num` gives its entry. */
  lemma RenumberNums(f: seq<TocNode>, es: seq<Entry>, k: nat)
    requires Size(f) == |es| && k < |es|
    ensures Size(Renumber(f, Nums(es), 0)) == |es|
    ensures NumberAt(Renumber(f, Nums(es), 0), k) == Num(es, k)
  {
    var nums := Nums(es);
    RenumberNumberAt(f, nums, 0, k);
    assert nums[k] == Num(es, k);
  }

  /** The tree `Build` makes sits at positions `0 ..` of its entries, its roots under no parent. */
  lemma BuildPlaced(es: seq<Entry>)
    ensures Placed(Build(es), es, 0, None)
  {
    BuildPre(es);
    forall k | 0 <= k < Size(Build(es))
      ensures EntryAt(Build(es), k) == es[k]
      ensures ParentOf(Build(es), 0, None, k) == NearestLower(es, k, es[k].level)
    {
      EntryAtPre(Build(es), k);
      BuildParents(es, k);
    }
  }

  /** No entries counted yet: the empty counters agree with the empty prefix. */
  lemma AgreesEmpty(es: seq<Entry>)
    ensures Agrees(map[], es, 0)
  {
    forall level: nat ensures Get(map[], level) == CountSince(es, 0, level) {
    }
  }
}
