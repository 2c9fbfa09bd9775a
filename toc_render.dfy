// The HTML of the generated table of contents: nested ordered lists, one
// list item per node of the numbered tree (docnexus/features/standard.py,
// `build_nested_toc_items`).

module TocRender {
  import opened Text
  import opened TocTree

  // ---------------------------------------------------------------------
  // The lines
  // ---------------------------------------------------------------------

  /** The four kinds of line the builder writes. */
  datatype Line =
    | OlOpen(depth: nat)
    | Item(node: TocNode, depth: nat)
    | LiClose
    | OlClose

  /** Nested items carry their level, top-level ones are sections; either is collapsible when it has children. */
  function ItemClass(t: TocNode, depth: nat): string {
    (if depth > 0 then "toc-item toc-l" + NatToString(t.entry.level) else "toc-item toc-section")
      + (if t.children != [] then " toc-collapsible" else "")
  }

  /** What follows `<li class="` on an item line: the class, the number, the toggle when there are children, and the link. */
  function ItemRest(t: TocNode, depth: nat): string {
    ItemClass(t, depth) + "\"><span class=\"toc-num\">" + t.number + "</span>"
      + "<span class=\"toc-main\">"
      + (if t.children != [] then "<button class=\"toc-toggle\" aria-expanded=\"true\" title=\"Collapse section\"></button>" else "")
      + "<a href=\"#" + t.entry.anchor + "\" class=\"toc-link\">" + t.entry.text + "</a></span>"
  }

  /** The first four characters of a line: the tag it opens or closes. */
  function Tag(l: Line): string {
    match l
    case OlOpen(_) => "<ol "
    case Item(_, _) => "<li "
    case LiClose => "</li"
    case OlClose => "</ol"
  }

  /** The rest of a line after its tag. */
  function Attrs(l: Line): string {
    match l
    case OlOpen(d) => "class=\"toc-ol toc-depth-" + NatToString(d) + "\">"
    case Item(t, d) => "class=\"" + ItemRest(t, d)
    case LiClose => ">"
    case OlClose => ">"
  }

  /** The text of one line. */
  function Html(l: Line): string {
    Tag(l) + Attrs(l)
  }

  /** The text of a sequence of lines. */
  function Htmls(ls: seq<Line>): (r: seq<string>)
    ensures |r| == |ls|
  {
    seq(|ls|, i requires 0 <= i < |ls| => Html(ls[i]))
  }

  lemma HtmlsAppend(a: seq<Line>, b: seq<Line>)
    ensures Htmls(a + b) == Htmls(a) + Htmls(b)
  {
    var l, r := Htmls(a + b), Htmls(a) + Htmls(b);
    forall i | 0 <= i < |l|
      ensures l[i] == r[i]
    {
      if i < |a| {
        assert (a + b)[i] == a[i];
      } else {
        assert (a + b)[i] == b[i - |a|];
      }
    }
  }

  /** `build_nested_toc_items(nodes, depth)`: nothing for no nodes, else one list around the items. */
  function Ol(f: seq<TocNode>, depth: nat): seq<Line>
    decreases f, 1
  {
    if f == [] then [] else [OlOpen(depth)] + Items(f, depth) + [OlClose]
  }

  /** The list items of a forest: each node's item line, its children's list when it has children, and the closing tag. */
  function Items(f: seq<TocNode>, depth: nat): seq<Line>
    decreases f, 0
  {
    if f == [] then []
    else
      var t := Last(f);
      Items(Init(f), depth) + [Item(t, depth)]
        + (if t.children != [] then Ol(t.children, depth + 1) else []) + [LiClose]
  }

  /** The text of one node's lines appended to the lines before it. */
  lemma HtmlsJoin(a: seq<Line>, x: Line, kids: seq<Line>, y: Line)
    ensures Htmls(a + [x] + kids + [y]) == Htmls(a) + [Html(x)] + Htmls(kids) + [Html(y)]
  {
    HtmlsAppend(a + [x] + kids, [y]);
    HtmlsAppend(a + [x], kids);
    HtmlsAppend(a, [x]);
    InitLast([], x);
    InitLast([], y);
  }

  /** The lines of the first `i + 1` nodes: those of the first `i`, then the `i`-th node's. */
  lemma ItemStep(nodes: seq<TocNode>, i: nat, depth: nat)
    requires i < |nodes|
    ensures [OlOpen(depth)] + Items(nodes[..i + 1], depth)
      == [OlOpen(depth)] + Items(nodes[..i], depth) + [Item(nodes[i], depth)]
         + (if nodes[i].children != [] then Ol(nodes[i].children, depth + 1) else []) + [LiClose]
  {
    TakeSnoc(nodes, i);
  }

  /**
   * The source's recursive builder: open the list, then for each node its
   * item line, the children's list when there are children, and `</li>`;
   * then close the list.
   */
  method BuildNestedItems(nodes: seq<TocNode>, depth: nat) returns (result: seq<string>)
    ensures result == Htmls(Ol(nodes, depth))
    decreases nodes
  {
    if nodes == [] {
      return [];
    }
    result := [Html(OlOpen(depth))];
    assert nodes[..0] == [];
    assert result == Htmls([OlOpen(depth)] + Items(nodes[..0], depth));
    for i := 0 to |nodes|
      invariant result == Htmls([OlOpen(depth)] + Items(nodes[..i], depth))
    {
      var node := nodes[i];
      var sub: seq<string> := [];
      if node.children != [] {
        sub := BuildNestedItems(node.children, depth + 1);
      }
      ItemStep(nodes, i, depth);
      HtmlsJoin([OlOpen(depth)] + Items(nodes[..i], depth), Item(node, depth),
        if node.children != [] then Ol(node.children, depth + 1) else [], LiClose);
      result := result + [Html(Item(node, depth))] + sub + [Html(LiClose)];
    }
    TakeAll(nodes);
    HtmlsAppend([OlOpen(depth)] + Items(nodes, depth), [OlClose]);
    result := result + [Html(OlClose)];
  }

  // ---------------------------------------------------------------------
  // What the lines hold
  // ---------------------------------------------------------------------

  /** The entries of the item lines, in order. */
  function ItemEntries(ls: seq<Line>): seq<Entry> {
    if ls == [] then [] else ItemEntries(Init(ls)) + (if Last(ls).Item? then [Last(ls).node.entry] else [])
  }

  /** How many lines of each kind. */
  datatype Tally = Tally(opens: nat, items: nat, liCloses: nat, closes: nat)

  function Add(a: Tally, b: Tally): Tally {
    Tally(a.opens + b.opens, a.items + b.items, a.liCloses + b.liCloses, a.closes + b.closes)
  }

  function Kind(l: Line): Tally {
    match l
    case OlOpen(_) => Tally(1, 0, 0, 0)
    case Item(_, _) => Tally(0, 1, 0, 0)
    case LiClose => Tally(0, 0, 1, 0)
    case OlClose => Tally(0, 0, 0, 1)
  }

  function CountLines(ls: seq<Line>): Tally {
    if ls == [] then Tally(0, 0, 0, 0) else Add(CountLines(Init(ls)), Kind(Last(ls)))
  }

  lemma {:induction false} AppendLines(a: seq<Line>, b: seq<Line>)
    ensures ItemEntries(a + b) == ItemEntries(a) + ItemEntries(b)
    ensures CountLines(a + b) == Add(CountLines(a), CountLines(b))
    decreases |b|
  {
    if b == [] {
      assert a + b == a;
    } else {
      InitLast(a + Init(b), Last(b));
      assert a + b == (a + Init(b)) + [Last(b)];
      AppendLines(a, Init(b));
      InitLast(Init(b), Last(b));
      assert b == Init(b) + [Last(b)];
    }
  }

  lemma Snoc(a: seq<Line>, x: Line)
    ensures ItemEntries(a + [x]) == ItemEntries(a) + if x.Item? then [x.node.entry] else []
    ensures CountLines(a + [x]) == Add(CountLines(a), Kind(x))
  {
    InitLast(a, x);
  }

  lemma Single(x: Line)
    ensures ItemEntries([x]) == if x.Item? then [x.node.entry] else []
    ensures CountLines([x]) == Kind(x)
  {
    InitLast([], x);
    assert [] + [x] == [x];
  }

  lemma EmptyAppend<T>(e: seq<T>)
    ensures [] + e == e && e + [] == e
  {
  }

  /** Wrapping lines in a list adds one `<ol` and one `</ol>` line and no items. */
  lemma Wrap(body: seq<Line>, depth: nat)
    ensures ItemEntries([OlOpen(depth)] + body + [OlClose]) == ItemEntries(body)
    ensures CountLines([OlOpen(depth)] + body + [OlClose]) == Add(Add(Tally(1, 0, 0, 0), CountLines(body)), Tally(0, 0, 0, 1))
  {
    var a := [OlOpen(depth)] + body;
    Snoc(a, OlClose);
    Single(OlOpen(depth));
    AppendLines([OlOpen(depth)], body);
    EmptyAppend(ItemEntries(a));
    EmptyAppend(ItemEntries(body));
  }

  /** One node's lines add its entry, one item line and one `</li>` line to those before. */
  lemma JoinItem(a: seq<Line>, t: TocNode, depth: nat, kids: seq<Line>)
    ensures ItemEntries(a + [Item(t, depth)] + kids + [LiClose]) == ItemEntries(a) + [t.entry] + ItemEntries(kids)
    ensures CountLines(a + [Item(t, depth)] + kids + [LiClose]) == Add(Add(Add(CountLines(a), Tally(0, 1, 0, 0)), CountLines(kids)), Tally(0, 0, 1, 0))
  {
    var b := a + [Item(t, depth)];
    Snoc(a, Item(t, depth));
    AppendLines(b, kids);
    Snoc(b + kids, LiClose);
    EmptyAppend(ItemEntries(b + kids));
  }

  /**
   * The list of a forest shows every node once, in document order, and is
   * well formed: as many `<li` lines as nodes, each closed by a `</li>`,
   * and as many `</ol>` lines as `<ol` lines.
   */
  lemma {:induction false} OlContents(f: seq<TocNode>, depth: nat)
    ensures ItemEntries(Ol(f, depth)) == Pre(f)
    ensures CountLines(Ol(f, depth)).items == CountLines(Ol(f, depth)).liCloses == Size(f)
    ensures CountLines(Ol(f, depth)).opens == CountLines(Ol(f, depth)).closes
    decreases f, 1
  {
    if f != [] {
      ItemsContents(f, depth);
      Wrap(Items(f, depth), depth);
    }
  }

  lemma {:induction false} ItemsContents(f: seq<TocNode>, depth: nat)
    ensures ItemEntries(Items(f, depth)) == Pre(f)
    ensures CountLines(Items(f, depth)).items == CountLines(Items(f, depth)).liCloses == Size(f)
    ensures CountLines(Items(f, depth)).opens == CountLines(Items(f, depth)).closes
    decreases f, 0
  {
    if f != [] {
      var t := Last(f);
      ItemsContents(Init(f), depth);
      if t.children != [] {
        OlContents(t.children, depth + 1);
      }
      JoinItem(Items(Init(f), depth), t, depth, if t.children != [] then Ol(t.children, depth + 1) else []);
    }
  }

  lemma PrefixAppend(a: string, b: string)
    ensures |a| <= |a + b| && (a + b)[..|a|] == a
  {
  }

  /** The second and third characters of the tag tell the four kinds apart. */
  lemma TagChars(l: Line)
    ensures |Tag(l)| == 4
    ensures Tag(l)[1] == '/' <==> l.LiClose? || l.OlClose?
    ensures Tag(l)[1] == 'l' <==> l.Item?
    ensures Tag(l)[1] == 'o' <==> l.OlOpen?
    ensures Tag(l)[2] == 'l' <==> l.LiClose? || l.OlOpen?
  {
  }

  /** What every line's text starts with, and the whole text of the closing lines. */
  lemma HtmlTag(l: Line)
    ensures |Html(l)| >= 4 && Html(l)[..4] == Tag(l)
    ensures Html(l)[1] == Tag(l)[1] && Html(l)[2] == Tag(l)[2]
    ensures l.LiClose? || l.OlClose? ==> Html(l) == Tag(l) + ">"
  {
    PrefixAppend(Tag(l), Attrs(l));
  }

  /** A line is an item exactly when its text starts with `<li `. */
  lemma ItemKind(l: Line)
    ensures l.Item? <==> StartsWith(Html(l), "<li ")
  {
    HtmlTag(l);
    TagChars(l);
  }

  /** A line opens a list exactly when its text starts with `<ol `. */
  lemma OlOpenKind(l: Line)
    ensures l.OlOpen? <==> StartsWith(Html(l), "<ol ")
  {
    HtmlTag(l);
    TagChars(l);
  }

  /** A line closes an item exactly when its text is `</li>`. */
  lemma LiCloseKind(l: Line)
    ensures l.LiClose? <==> Html(l) == "</li>"
  {
    HtmlTag(l);
    TagChars(l);
    var h := Html(l);
    if h == "</li>" {
      assert h[1] == '/' && h[2] == 'l';
    }
  }

  /** A line closes a list exactly when its text is `</ol>`. */
  lemma OlCloseKind(l: Line)
    ensures l.OlClose? <==> Html(l) == "</ol>"
  {
    HtmlTag(l);
    TagChars(l);
    var h := Html(l);
    if h == "</ol>" {
      assert h[1] == '/' && h[2] == 'o';
    }
  }
}
