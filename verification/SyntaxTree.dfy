/** The concrete syntax tree: built in post-order while parsing, kept in pre-order, walked with cursors. */
module SyntaxTree {
  /** CSTNode: size counts the node and all below it. */
  datatype Node = Node(id: nat, size: nat, begin: nat, end: nat)

  datatype Tree = Tree(id: nat, begin: nat, end: nat, kids: seq<Tree>)

  function Size(t: Tree): (n: nat)
    ensures n >= 1
    decreases t, 0
  {
    1 + SizeTo(t.kids, |t.kids|)
  }

  /** How many nodes the first n trees have. */
  function SizeTo(ts: seq<Tree>, n: nat): nat
    requires n <= |ts|
    decreases ts, n
  {
    if n == 0 then 0 else SizeTo(ts, n - 1) + Size(ts[n - 1])
  }

  function Top(t: Tree): Node {
    Node(t.id, Size(t), t.begin, t.end)
  }

  /** Parent before its children. */
  function Pre(t: Tree): (s: seq<Node>)
    ensures |s| == Size(t) && s[0] == Top(t)
    decreases t, 0, 0
  {
    PreFromSize(t.kids, 0);
    [Top(t)] + PreFrom(t.kids, 0)
  }

  function PreFrom(ts: seq<Tree>, k: nat): seq<Node>
    requires k <= |ts|
    decreases ts, 0, |ts| - k
  {
    if k == |ts| then [] else Pre(ts[k]) + PreFrom(ts, k + 1)
  }

  lemma {:induction false} PreFromSize(ts: seq<Tree>, k: nat)
    requires k <= |ts|
    ensures |PreFrom(ts, k)| + SizeTo(ts, k) == SizeTo(ts, |ts|)
    decreases ts, 1, |ts| - k
  {
    if k < |ts| { PreFromSize(ts, k + 1); }
  }

  /** us are the trees of ts from the a-th on. */
  predicate Part(us: seq<Tree>, ts: seq<Tree>, a: nat) {
    |ts| == a + |us| && forall i :: 0 <= i < |us| ==> us[i] == ts[a + i]
  }

  lemma {:induction false} SizePart(us: seq<Tree>, ts: seq<Tree>, a: nat, k: nat)
    requires Part(us, ts, a) && k <= |us|
    ensures SizeTo(ts, a + k) == SizeTo(ts, a) + SizeTo(us, k)
    decreases k
  {
    if k > 0 {
      SizePart(us, ts, a, k - 1);
      assert us[k - 1] == ts[a + (k - 1)];
    }
  }

  lemma {:induction false} SizeSame(us: seq<Tree>, ts: seq<Tree>, k: nat)
    requires k <= |us| && k <= |ts| && forall i :: 0 <= i < k ==> us[i] == ts[i]
    ensures SizeTo(us, k) == SizeTo(ts, k)
    decreases k
  {
    if k > 0 { SizeSame(us, ts, k - 1); }
  }

  // ---------------------------------------------------------------------------- builder

  /** Children before their parent: t is laid out just before position p. */
  predicate Ends(nodes: seq<Node>, p: nat, t: Tree)
    decreases t, 0
  {
    Size(t) <= p <= |nodes| && nodes[p - 1] == Top(t) && EndsTo(nodes, p - 1, t.kids, |t.kids|)
  }

  /** The first n trees are laid out, one after the other, just before position p. */
  predicate EndsTo(nodes: seq<Node>, p: nat, ts: seq<Tree>, n: nat)
    requires n <= |ts|
    decreases ts, n
  {
    && SizeTo(ts, n) <= p <= |nodes|
    && (n == 0 || (Ends(nodes, p, ts[n - 1]) && EndsTo(nodes, p - Size(ts[n - 1]), ts, n - 1)))
  }

  /** The nodes before p decide what is laid out there. */
  lemma {:induction false} EndsSame(nodes: seq<Node>, more: seq<Node>, p: nat, ts: seq<Tree>, n: nat)
    requires n <= |ts| && EndsTo(nodes, p, ts, n) && p <= |more| && forall k :: 0 <= k < p ==> more[k] == nodes[k]
    ensures EndsTo(more, p, ts, n)
    decreases ts, n
  {
    if n > 0 {
      var last := ts[n - 1];
      EndsSame(nodes, more, p - 1, last.kids, |last.kids|);
      EndsSame(nodes, more, p - Size(last), ts, n - 1);
    }
  }

  /** Two layouts of the same nodes are of the same trees. */
  lemma {:induction false} LayoutDecides(nodes: seq<Node>, p: nat, a: seq<Tree>, n: nat, b: seq<Tree>, m: nat)
    requires n <= |a| && m <= |b| && EndsTo(nodes, p, a, n) && EndsTo(nodes, p, b, m) && SizeTo(a, n) == SizeTo(b, m)
    ensures n == m && forall i :: 0 <= i < n ==> a[i] == b[i]
    decreases a, n
  {
    if n > 0 && m > 0 {
      var x, y := a[n - 1], b[m - 1];
      LayoutDecides(nodes, p - 1, x.kids, |x.kids|, y.kids, |y.kids|);
      assert x.kids == y.kids;
      LayoutDecides(nodes, p - Size(x), a, n - 1, b, m - 1);
    }
  }

  /** Of trees laid out together, the last ones are laid out by themselves, and so are the ones before them. */
  lemma {:induction false} EndsPart(nodes: seq<Node>, p: nat, us: seq<Tree>, ts: seq<Tree>, a: nat, k: nat)
    requires Part(us, ts, a) && k <= |us| && EndsTo(nodes, p, ts, a + k)
    ensures EndsTo(nodes, p, us, k) && SizeTo(us, k) <= p && EndsTo(nodes, p - SizeTo(us, k), ts, a)
    decreases k
  {
    if k > 0 {
      assert us[k - 1] == ts[a + (k - 1)];
      EndsPart(nodes, p - Size(us[k - 1]), us, ts, a, k - 1);
    }
  }

  lemma {:induction false} EndsFront(nodes: seq<Node>, p: nat, us: seq<Tree>, ts: seq<Tree>, k: nat)
    requires k <= |us| && k <= |ts| && EndsTo(nodes, p, ts, k) && forall i :: 0 <= i < k ==> us[i] == ts[i]
    ensures EndsTo(nodes, p, us, k)
    decreases k
  {
    SizeSame(us, ts, k);
    if k > 0 { EndsFront(nodes, p - Size(us[k - 1]), us, ts, k - 1); }
  }

  /** Where the text of the last k trees begins. */
  function FirstBegin(ts: seq<Tree>): nat {
    if ts == [] then 0 else ts[0].begin
  }

  function LastEnd(ts: seq<Tree>): nat {
    if ts == [] then 0 else ts[|ts| - 1].end
  }

  function Min(a: nat, b: nat): nat { if b < a then b else a }

  function Max(a: nat, b: nat): nat { if b > a then b else a }

  class Builder {
    var nodes: seq<Node>
    ghost var trees: seq<Tree>

    ghost predicate Valid()
      reads this
    {
      |nodes| == SizeTo(trees, |trees|) && EndsTo(nodes, |nodes|, trees, |trees|)
    }

    constructor ()
      ensures Valid() && trees == []
    {
      nodes, trees := [], [];
    }

    /** The loop of every addNode with children: how many nodes they are, and one more, and where the first begins. */
    method Span(children: nat) returns (size: nat, b: nat)
      requires Valid() && children <= |trees|
      ensures 1 <= size <= 1 + |nodes| && SizeTo(trees, |trees| - children) == |nodes| - size + 1
      ensures b == if children == 0 then 0 else trees[|trees| - children].begin
    {
      b, size := 0, 1;
      var i := children;
      while i > 0
        invariant 0 <= i <= children && 1 <= size <= |nodes| + 1
        invariant var k := |trees| - (children - i);
          EndsTo(nodes, |nodes| - size + 1, trees, k) && |nodes| - size + 1 == SizeTo(trees, k)
        invariant b == if i == 0 && children > 0 then trees[|trees| - children].begin else 0
      {
        assert Ends(nodes, |nodes| - size + 1, trees[|trees| - (children - i) - 1]);
        if i == 1 { b := nodes[|nodes| - size].begin; }
        size := size + nodes[|nodes| - size].size;
        i := i - 1;
      }
    }

    ghost function Grown(id: nat, children: nat, begin: nat, end: nat): seq<Tree>
      requires children <= |trees|
      reads this
    {
      trees[..|trees| - children] + [Tree(id, begin, end, trees[|trees| - children..])]
    }

    method Push(id: nat, children: nat, size: nat, begin: nat, end: nat)
      requires Valid() && children <= |trees| && size <= 1 + |nodes|
      requires SizeTo(trees, |trees| - children) == |nodes| - size + 1
      modifies this
      ensures Valid() && trees == old(Grown(id, children, begin, end))
    {
      ghost var was, before := nodes, trees;
      nodes := nodes + [Node(id, size, begin, end)];
      trees := Grown(id, children, begin, end);
      PushGrows(was, before, |before| - children, id, size, begin, end, before[|before| - children..], nodes, trees);
    }

    method AddLeaf(id: nat, begin: nat, end: nat)
      requires Valid()
      modifies this
      ensures Valid() && trees == old(Grown(id, 0, begin, end))
    {
      assert trees[|trees|..] == [];
      Push(id, 0, 1, begin, end);
    }

    /** The end of the last node, which is the end of the last tree. */
    method Back() returns (e: nat)
      requires Valid()
      ensures e == LastEnd(trees)
    {
      e := if nodes == [] then 0 else nodes[|nodes| - 1].end;
      if trees != [] {
        assert Ends(nodes, |nodes|, trees[|trees| - 1]);
      }
    }

    method AddNode(id: nat, children: nat)
      requires Valid() && children <= |trees|
      modifies this
      ensures Valid() && trees == old(Grown(id, children, FirstBegin(trees[|trees| - children..]), LastEnd(trees)))
    {
      var e := Back();
      var size, b := Span(children);
      Push(id, children, size, b, e);
    }

    method AddNodeFrom(id: nat, begin: nat, children: nat)
      requires Valid() && children <= |trees|
      modifies this
      ensures Valid()
      ensures trees == old(Grown(id, children, Min(FirstBegin(trees[|trees| - children..]), begin), LastEnd(trees)))
    {
      var e := Back();
      var size, b := Span(children);
      if begin < b { b := begin; }
      Push(id, children, size, b, e);
    }

    method AddNodeTo(id: nat, children: nat, end: nat)
      requires Valid() && children <= |trees|
      modifies this
      ensures Valid()
      ensures trees == old(Grown(id, children, FirstBegin(trees[|trees| - children..]), Max(LastEnd(trees), end)))
    {
      var e := Back();
      var size, b := Span(children);
      if end > e { e := end; }
      Push(id, children, size, b, e);
    }

    method AddNodeBetween(id: nat, begin: nat, children: nat, end: nat)
      requires Valid() && children <= |trees|
      modifies this
      ensures Valid()
      ensures trees == old(Grown(id, children,
        if children == 0 then begin else Min(begin, FirstBegin(trees[|trees| - children..])),
        if children == 0 then end else Max(end, LastEnd(trees))))
    {
      var size, b2 := Span(children);
      var b, e := begin, end;
      if children > 0 {
        var e2 := Back();
        if b2 < b { b := b2; }
        if e2 > e { e := e2; }
      }
      Push(id, children, size, b, e);
    }

    method DelNodes(num: nat)
      requires Valid() && num <= |trees|
      modifies this
      ensures Valid() && trees == old(trees[..|trees| - num])
    {
      var size, _ := Span(num);
      ghost var was, before, a := nodes, trees, |trees| - num;
      nodes := nodes[..|nodes| - size + 1];
      trees := trees[..a];
      DelShrinks(was, before, a, before[a..], nodes, trees);
    }
  }

  lemma {:induction false} PushGrows(nodes: seq<Node>, trees: seq<Tree>, a: nat, id: nat, size: nat, begin: nat,
                                     end: nat,
                                     kids: seq<Tree>, nodes': seq<Node>, trees': seq<Tree>)
    requires |nodes| == SizeTo(trees, |trees|) && EndsTo(nodes, |nodes|, trees, |trees|) && Part(kids, trees, a)
    requires SizeTo(trees, a) == |nodes| - size + 1 && nodes' == nodes + [Node(id, size, begin, end)]
    requires |trees'| == a + 1 && trees'[a] == Tree(id, begin, end, kids)
    requires forall i :: 0 <= i < a ==> trees'[i] == trees[i]
    ensures |nodes'| == SizeTo(trees', |trees'|) && EndsTo(nodes', |nodes'|, trees', |trees'|)
  {
    SizePart(kids, trees, a, |kids|);
    EndsPart(nodes, |nodes|, kids, trees, a, |kids|);
    EndsSame(nodes, nodes', |nodes|, kids, |kids|);
    EndsSame(nodes, nodes', |nodes| - SizeTo(kids, |kids|), trees, a);
    EndsFront(nodes', |nodes| - SizeTo(kids, |kids|), trees', trees, a);
    SizeSame(trees', trees, a);
    assert Ends(nodes', |nodes'|, trees'[a]);
  }

  lemma {:induction false} DelShrinks(nodes: seq<Node>, trees: seq<Tree>, a: nat, gone: seq<Tree>, nodes': seq<Node>,
                                      trees': seq<Tree>)
    requires |nodes| == SizeTo(trees, |trees|) && EndsTo(nodes, |nodes|, trees, |trees|) && Part(gone, trees, a)
    requires |nodes'| == SizeTo(trees, a) <= |nodes| && forall i :: 0 <= i < |nodes'| ==> nodes'[i] == nodes[i]
    requires |trees'| == a && forall i :: 0 <= i < a ==> trees'[i] == trees[i]
    ensures |nodes'| == SizeTo(trees', |trees'|) && EndsTo(nodes', |nodes'|, trees', |trees'|)
  {
    SizePart(gone, trees, a, |gone|);
    EndsPart(nodes, |nodes|, gone, trees, a, |gone|);
    EndsSame(nodes, nodes', |nodes'|, trees, a);
    EndsFront(nodes', |nodes'|, trees', trees, a);
    SizeSame(trees', trees, a);
  }

  // ------------------------------------------------------------------------- conversion

  /** What is still to be written: the first n trees of the stack, the top one first. */
  ghost function Pending(stack: seq<Tree>, n: nat): seq<Node>
    requires n <= |stack|
  {
    if n == 0 then [] else Pre(stack[n - 1]) + Pending(stack, n - 1)
  }

  lemma {:induction false} PendingSame(stack: seq<Tree>, stack': seq<Tree>, n: nat)
    requires n <= |stack| && n <= |stack'| && forall i :: 0 <= i < n ==> stack[i] == stack'[i]
    ensures Pending(stack, n) == Pending(stack', n)
  {
    if n > 0 { PendingSame(stack, stack', n - 1); }
  }

  ghost predicate Stacked(nodes: seq<Node>, stack: seq<nat>, trees: seq<Tree>) {
    && |stack| == |trees|
    && forall i :: 0 <= i < |stack| ==> Ends(nodes, stack[i], trees[i])
  }

  /** Some of the children of t are on the stack: those from the k-th on, above what was there. */
  ghost predicate Pushing(nodes: seq<Node>, stack: seq<nat>, trees: seq<Tree>, kids: seq<Tree>, k: nat,
                          below: seq<Node>) {
    k <= |kids| && Stacked(nodes, stack, trees) && Pending(trees, |trees|) == PreFrom(kids, k) + below
  }

  lemma {:induction false} PushingOn(nodes: seq<Node>, stack: seq<nat>, trees: seq<Tree>, kids: seq<Tree>, k: nat,
                                     below: seq<Node>, child: nat)
    requires Pushing(nodes, stack, trees, kids, k, below) && k > 0 && Ends(nodes, child, kids[k - 1])
    ensures Pushing(nodes, stack + [child], trees + [kids[k - 1]], kids, k - 1, below)
  {
    var t, trees' := kids[k - 1], trees + [kids[k - 1]];
    PendingSame(trees', trees, |trees|);
    assert Pre(t) + (PreFrom(kids, k) + below) == (Pre(t) + PreFrom(kids, k)) + below;
  }

  /** The inner loop: a node's children go on the stack, the last one first. */
  method PushKids(nodes: seq<Node>, node: nat, stack0: seq<nat>, ghost t: Tree, ghost trees0: seq<Tree>)
    returns (stack: seq<nat>, ghost trees: seq<Tree>)
    requires Ends(nodes, node, t) && Stacked(nodes, stack0, trees0)
    ensures Stacked(nodes, stack, trees)
    ensures Pending(trees, |trees|) == PreFrom(t.kids, 0) + Pending(trees0, |trees0|)
  {
    stack, trees := stack0, trees0;
    ghost var k, below := |t.kids|, Pending(trees0, |trees0|);
    var lim, child := node - nodes[node - 1].size, node - 1;
    assert PreFrom(t.kids, k) + below == below;
    while child != lim
      invariant 0 <= k <= |t.kids| && lim <= child <= node - 1 && child == lim + SizeTo(t.kids, k)
      invariant EndsTo(nodes, child, t.kids, k)
      invariant Pushing(nodes, stack, trees, t.kids, k, below)
      decreases child
    {
      PushingOn(nodes, stack, trees, t.kids, k, below, child);
      stack, trees, k := stack + [child], trees + [t.kids[k - 1]], k - 1;
      child := child - nodes[child - 1].size;
    }
    assert k == 0;
  }

  lemma {:induction false} PendingTop(trees: seq<Tree>, n: nat, rest: seq<Tree>)
    requires 0 < n == |trees| && |rest| == n - 1 && forall i :: 0 <= i < n - 1 ==> rest[i] == trees[i]
    ensures Pending(trees, n) == [Top(trees[n - 1])] + (PreFrom(trees[n - 1].kids, 0) + Pending(rest, n - 1))
  {
    PendingSame(trees, rest, n - 1);
  }

  /** The constructor of CST: the last tree of the builder in pre-order, its own range widened to the whole file. */
  method Convert(built: seq<Node>, fileSize: nat, ghost trees: seq<Tree>) returns (nodes: seq<Node>)
    requires |built| == SizeTo(trees, |trees|) && EndsTo(built, |built|, trees, |trees|)
    ensures trees == [] ==> nodes == []
    ensures trees != [] ==> nodes == Pre(trees[|trees| - 1].(begin := 0, end := fileSize))
  {
    if built == [] { return []; }
    ghost var top := trees[|trees| - 1];
    nodes := Reorder(built, top);
    nodes := nodes[0 := nodes[0].(begin := 0, end := fileSize)];
  }

  method Reorder(built: seq<Node>, ghost top: Tree) returns (nodes: seq<Node>)
    requires Ends(built, |built|, top)
    ensures nodes == Pre(top)
  {
    nodes := [];
    var stack: seq<nat> := [|built|];
    ghost var pending: seq<Tree> := [top];
    assert Pending(pending, 1) == Pre(top) + Pending(pending, 0);
    while stack != []
      invariant Stacked(built, stack, pending) && nodes + Pending(pending, |pending|) == Pre(top)
      decreases |Pending(pending, |pending|)|
    {
      var node := stack[|stack| - 1];
      ghost var t, rest, was := pending[|pending| - 1], pending[..|pending| - 1], nodes;
      PendingTop(pending, |pending|, rest);
      stack, pending := PushKids(built, node, stack[..|stack| - 1], t, rest);
      nodes := nodes + [built[node - 1]];
      assert nodes + Pending(pending, |pending|) == was + ([Top(t)] + Pending(pending, |pending|));
    }
  }

  // ---------------------------------------------------------------------------- cursors

  /** A finished tree: its nodes in pre-order, where tokens start, and how long the file is. */
  datatype Cst = Cst(nodes: seq<Node>, starts: set<nat>, fileSize: nat)

  datatype Element = Element(node: nat, limit: nat, token: nat, end: nat)

  const NOTHING := Element(0, 0, 0, 0)

  predicate Within(c: Cst, e: Element) { e.node <= e.limit <= |c.nodes| }

  function Root(c: Cst): Element { Element(0, |c.nodes|, 0, c.fileSize) }

  predicate Empty(e: Element) { e.node == e.limit && e.token >= e.end }

  predicate IsNode(c: Cst, e: Element)
    requires Within(c, e)
  {
    e.node != e.limit && e.token >= c.nodes[e.node].begin
  }

  /** The first token start at or after an offset; the end-of-file token starts where the file ends. */
  function NextStart(starts: set<nat>, offset: nat, fileSize: nat): (r: nat)
    ensures offset <= r && (offset <= fileSize ==> r <= fileSize)
    ensures offset <= fileSize ==> (r in starts || r == fileSize) && forall s :: offset <= s < r ==> s !in starts
    decreases fileSize - offset
  {
    if offset >= fileSize || offset in starts then offset else NextStart(starts, offset + 1, fileSize)
  }

  /** The nodes of the subtree fit below the limit, as they do in every tree laid out in pre-order. */
  predicate Steps(c: Cst, e: Element) {
    Within(c, e) && (e.node < e.limit ==> 1 <= c.nodes[e.node].size <= e.limit - e.node)
  }

  function NextSiblingNode(c: Cst, e: Element): Element
    requires Steps(c, e)
  {
    var node := if IsNode(c, e) then e.node + c.nodes[e.node].size else e.node;
    e.(node := node, token := if node == e.limit then e.end else c.nodes[node].begin)
  }

  function NextSiblingElement(c: Cst, e: Element): Element
    requires Steps(c, e)
  {
    if IsNode(c, e) then e.(node := e.node + c.nodes[e.node].size, token := c.nodes[e.node].end)
    else e.(token := NextStart(c.starts, e.token + 1, c.fileSize))
  }

  function FirstChildElement(c: Cst, e: Element): Element
    requires Steps(c, e)
  {
    if IsNode(c, e) then
      var n := c.nodes[e.node];
      Element(e.node + 1, e.node + n.size, n.begin, n.end)
    else
      NOTHING
  }

  function FirstChildNode(c: Cst, e: Element): Element
    requires Steps(c, e)
  {
    if IsNode(c, e) && c.nodes[e.node].size != 1 then
      var n := c.nodes[e.node];
      Element(e.node + 1, e.node + n.size, c.nodes[e.node + 1].begin, n.end)
    else
      NOTHING
  }

  /** Parent before its children: t is laid out from position i. */
  predicate Begins(nodes: seq<Node>, i: nat, t: Tree)
    decreases t, 0
  {
    i + Size(t) <= |nodes| && nodes[i] == Top(t) && BeginsFrom(nodes, i + 1, t.kids, 0)
  }

  predicate BeginsFrom(nodes: seq<Node>, i: nat, ts: seq<Tree>, k: nat)
    requires k <= |ts|
    decreases ts, |ts| - k
  {
    k == |ts| || (Begins(nodes, i, ts[k]) && BeginsFrom(nodes, i + Size(ts[k]), ts, k + 1))
  }

  /** Being a stretch of the nodes, said without slices. */
  predicate Holds(nodes: seq<Node>, i: nat, part: seq<Node>) {
    i + |part| <= |nodes| && forall k :: 0 <= k < |part| ==> nodes[i + k] == part[k]
  }

  lemma {:induction false} HoldsCat(nodes: seq<Node>, i: nat, a: seq<Node>, b: seq<Node>)
    requires Holds(nodes, i, a + b)
    ensures Holds(nodes, i, a) && Holds(nodes, i + |a|, b)
  {
    forall k | 0 <= k < |a| ensures nodes[i + k] == a[k] { assert (a + b)[k] == a[k]; }
    forall k | 0 <= k < |b| ensures nodes[i + |a| + k] == b[k] {
      var j := |a| + k;
      assert (a + b)[j] == b[k] && nodes[i + j] == (a + b)[j];
    }
  }

  lemma {:induction false} PreLaysOut(nodes: seq<Node>, i: nat, t: Tree)
    requires Holds(nodes, i, Pre(t))
    ensures Begins(nodes, i, t)
    decreases t, 0
  {
    HoldsCat(nodes, i, [Top(t)], PreFrom(t.kids, 0));
    assert nodes[i + 0] == [Top(t)][0];
    PreLaysOutFrom(nodes, i + 1, t.kids, 0);
  }

  lemma {:induction false} PreLaysOutFrom(nodes: seq<Node>, i: nat, ts: seq<Tree>, k: nat)
    requires k <= |ts| && Holds(nodes, i, PreFrom(ts, k))
    ensures BeginsFrom(nodes, i, ts, k)
    decreases ts, |ts| - k
  {
    if k < |ts| {
      HoldsCat(nodes, i, Pre(ts[k]), PreFrom(ts, k + 1));
      PreLaysOut(nodes, i, ts[k]);
      PreLaysOutFrom(nodes, i + Size(ts[k]), ts, k + 1);
    }
  }

  /** The k-th of several trees begins where the ones before it end. */
  lemma {:induction false} KthBegins(nodes: seq<Node>, i: nat, ts: seq<Tree>, k: nat)
    requires BeginsFrom(nodes, i, ts, 0) && k <= |ts|
    ensures SizeTo(ts, k) <= SizeTo(ts, |ts|) && BeginsFrom(nodes, i + SizeTo(ts, k), ts, k)
    decreases k
  {
    SizeGrows(ts, k, |ts|);
    if k > 0 { KthBegins(nodes, i, ts, k - 1); }
  }

  lemma {:induction false} SizeGrows(ts: seq<Tree>, k: nat, n: nat)
    requires k <= n <= |ts|
    ensures SizeTo(ts, k) <= SizeTo(ts, n) && (k < n ==> SizeTo(ts, k) < SizeTo(ts, n))
    decreases n
  {
    if k < n { SizeGrows(ts, k, n - 1); }
  }

  /** A cursor over the child nodes of t, laid out from i: k of them behind it. */
  function ChildAt(i: nat, t: Tree, k: nat): Element
    requires k <= |t.kids|
  {
    if t.kids == [] then NOTHING
    else Element(i + 1 + SizeTo(t.kids, k), i + Size(t), if k < |t.kids| then t.kids[k].begin else t.end, t.end)
  }

  /** firstChildNode and nextSiblingNode go over exactly the children, in order, and are empty after the last. */
  lemma {:induction false} ChildrenInOrder(c: Cst, e: Element, t: Tree, k: nat)
    requires Within(c, e) && IsNode(c, e) && Begins(c.nodes, e.node, t) && e.node + Size(t) <= e.limit && k <= |t.kids|
    ensures Steps(c, e) && FirstChildNode(c, e) == ChildAt(e.node, t, 0)
    ensures Empty(ChildAt(e.node, t, k)) <==> k == |t.kids|
    ensures k < |t.kids| ==>
      var x := ChildAt(e.node, t, k);
      && Steps(c, x) && IsNode(c, x) && Begins(c.nodes, x.node, t.kids[k]) && x.node + Size(t.kids[k]) <= x.limit
      && NextSiblingNode(c, x) == ChildAt(e.node, t, k + 1)
  {
    var ts, i := t.kids, e.node + 1;
    if ts != [] {
      KthBegins(c.nodes, i, ts, 0);
      SizeGrows(ts, 0, |ts|);
      assert c.nodes[i] == Top(ts[0]);
    }
    SizeGrows(ts, k, |ts|);
    if k < |ts| {
      KthBegins(c.nodes, i, ts, k);
      SizeGrows(ts, k + 1, |ts|);
      KthBegins(c.nodes, i, ts, k + 1);
    }
  }

  /** The siblings from a cursor on, read back by walking. */
  function ReadSiblings(c: Cst, e: Element): seq<Tree>
    requires Within(c, e)
    decreases e.limit - e.node
  {
    if !Steps(c, e) || !IsNode(c, e) then
      []
    else
      var n, first := c.nodes[e.node], FirstChildNode(c, e);
      [Tree(n.id, n.begin, n.end, ReadSiblings(c, first))] + ReadSiblings(c, NextSiblingNode(c, e))
  }

  /** Walking from the k-th child on finds the children from the k-th on, each with all that is below it. */
  lemma {:induction false} ReadFrom(c: Cst, e: Element, t: Tree, k: nat)
    requires Within(c, e) && IsNode(c, e) && Begins(c.nodes, e.node, t) && e.node + Size(t) <= e.limit && k <= |t.kids|
    ensures Within(c, ChildAt(e.node, t, k)) && Part(ReadSiblings(c, ChildAt(e.node, t, k)), t.kids, k)
    decreases t, |t.kids| - k
  {
    var x := ChildAt(e.node, t, k);
    ChildrenInOrder(c, e, t, k);
    if k < |t.kids| {
      var kid := t.kids[k];
      ChildrenInOrder(c, x, kid, 0);
      ReadFrom(c, x, kid, 0);
      PartWhole(ReadSiblings(c, FirstChildNode(c, x)), kid.kids);
      ReadFrom(c, e, t, k + 1);
      PartCons(kid, ReadSiblings(c, NextSiblingNode(c, x)), t.kids, k);
    }
  }

  lemma {:induction false} PartWhole(us: seq<Tree>, ts: seq<Tree>)
    requires Part(us, ts, 0)
    ensures us == ts
  {
    forall i | 0 <= i < |us| ensures us[i] == ts[i] { assert us[i] == ts[0 + i]; }
  }

  lemma {:induction false} PartCons(t: Tree, us: seq<Tree>, ts: seq<Tree>, k: nat)
    requires k < |ts| && t == ts[k] && Part(us, ts, k + 1)
    ensures Part([t] + us, ts, k)
  {
    forall i | 0 <= i < |us| + 1 ensures ([t] + us)[i] == ts[k + i] {
      if i > 0 { assert us[i - 1] == ts[k + 1 + (i - 1)]; }
    }
  }

  /** What was built is what a walk finds: the last tree, its range widened to the whole file. */
  lemma {:induction false} ReadBack(c: Cst, t: Tree)
    requires c.nodes == Pre(t.(begin := 0, end := c.fileSize))
    ensures ReadSiblings(c, Root(c)) == [t.(begin := 0, end := c.fileSize)]
  {
    var top, e := t.(begin := 0, end := c.fileSize), Root(c);
    PreLaysOut(c.nodes, 0, top);
    ChildrenInOrder(c, e, top, 0);
    ReadFrom(c, e, top, 0);
    PartWhole(ReadSiblings(c, FirstChildNode(c, e)), top.kids);
    assert ReadSiblings(c, NextSiblingNode(c, e)) == [];
  }

  // --------------------------------------------------------------------- nodes and tokens

  /** What a walk over all child elements passes: whole children, and the tokens between them. */
  datatype Piece = Inner(tree: Tree) | Token(from: nat, to: nat)

  function Start(p: Piece): nat { if p.Inner? then p.tree.begin else p.from }

  function Stop(p: Piece): nat { if p.Inner? then p.tree.end else p.to }

  /** The pieces from the k-th child on, when everything before pos has been passed. */
  function Pieces(c: Cst, ts: seq<Tree>, k: nat, pos: nat, end: nat): seq<Piece>
    requires k <= |ts|
    decreases |ts| - k, (if k < |ts| then ts[k].begin else end) - pos
  {
    if k < |ts| && pos >= ts[k].begin then
      [Inner(ts[k])] + Pieces(c, ts, k + 1, ts[k].end, end)
    else if k == |ts| && pos >= end then
      []
    else
      var next := NextStart(c.starts, pos + 1, c.fileSize);
      [Token(pos, next)] + Pieces(c, ts, k, next, end)
  }

  /** The pieces lie end to end and cover the text from pos to end. */
  predicate Tiles(ps: seq<Piece>, pos: nat, end: nat) {
    if ps == [] then pos == end else Start(ps[0]) == pos && Tiles(ps[1..], Stop(ps[0]), end)
  }

  /** The children come one after the other, and every gap begins a token where it ends. */
  predicate InOrder(c: Cst, ts: seq<Tree>, k: nat, pos: nat, end: nat)
    requires k <= |ts|
    decreases |ts| - k
  {
    var next := if k < |ts| then ts[k].begin else end;
    && (pos == next || (pos < next && next in c.starts))
    && (k == |ts| || InOrder(c, ts, k + 1, ts[k].end, end))
  }

  /** A walk over a node's elements covers its text exactly once if and only if its children are in order. */
  lemma {:induction false} TilesIffInOrder(c: Cst, ts: seq<Tree>, k: nat, pos: nat, end: nat)
    requires k <= |ts| && c.fileSize in c.starts && end <= c.fileSize
    requires forall i :: 0 <= i < |ts| ==> ts[i].begin <= c.fileSize
    ensures Tiles(Pieces(c, ts, k, pos, end), pos, end) <==> InOrder(c, ts, k, pos, end)
    decreases |ts| - k, (if k < |ts| then ts[k].begin else end) - pos
  {
    var ps := Pieces(c, ts, k, pos, end);
    if k < |ts| && pos >= ts[k].begin {
      assert ps[1..] == Pieces(c, ts, k + 1, ts[k].end, end);
      TilesIffInOrder(c, ts, k + 1, ts[k].end, end);
    } else if !(k == |ts| && pos >= end) {
      var next := NextStart(c.starts, pos + 1, c.fileSize);
      assert ps[1..] == Pieces(c, ts, k, next, end);
      TilesIffInOrder(c, ts, k, next, end);
    }
  }

  /** The range a node gets when it is added: its children's, widened to the tokens around them. Children in order
      stay in order inside it, provided the ends of the range and the first child begin tokens. */
  lemma {:induction false} WidenedInOrder(c: Cst, kids: seq<Tree>, begin: nat, end: nat)
    requires kids != [] && InOrder(c, kids, 0, FirstBegin(kids), LastEnd(kids))
    requires FirstBegin(kids) in c.starts && end in c.starts
    ensures InOrder(c, kids, 0, Min(begin, FirstBegin(kids)), Max(end, LastEnd(kids)))
  {
    WidenedAfter(c, kids, 1, kids[0].end, end);
  }

  lemma {:induction false} WidenedAfter(c: Cst, kids: seq<Tree>, k: nat, pos: nat, end: nat)
    requires 0 < k <= |kids| && pos == kids[k - 1].end && end in c.starts && InOrder(c, kids, k, pos, LastEnd(kids))
    ensures InOrder(c, kids, k, pos, Max(end, LastEnd(kids)))
    decreases |kids| - k
  {
    if k < |kids| {
      WidenedAfter(c, kids, k + 1, kids[k].end, end);
    }
  }

  /** Whatever the ranges, the walk passes every child once, in order. */
  lemma {:induction false} PassesAll(c: Cst, ts: seq<Tree>, k: nat, pos: nat, end: nat)
    requires k <= |ts|
    ensures Inners(Pieces(c, ts, k, pos, end)) == ts[k..]
    decreases |ts| - k, (if k < |ts| then ts[k].begin else end) - pos
  {
    var ps := Pieces(c, ts, k, pos, end);
    if k < |ts| && pos >= ts[k].begin {
      assert ps[1..] == Pieces(c, ts, k + 1, ts[k].end, end);
      PassesAll(c, ts, k + 1, ts[k].end, end);
      assert ts[k..] == [ts[k]] + ts[k + 1..];
    } else if !(k == |ts| && pos >= end) {
      var next := NextStart(c.starts, pos + 1, c.fileSize);
      assert ps[1..] == Pieces(c, ts, k, next, end);
      PassesAll(c, ts, k, next, end);
    }
  }

  function Inners(ps: seq<Piece>): seq<Tree> {
    if ps == [] then [] else (if ps[0].Inner? then [ps[0].tree] else []) + Inners(ps[1..])
  }

  /** The text an element covers. */
  function Fragment(c: Cst, e: Element): (nat, nat)
    requires Steps(c, e)
  {
    if IsNode(c, e) then (c.nodes[e.node].begin, c.nodes[e.node].end)
    else (e.token, NextStart(c.starts, e.token + 1, c.fileSize))
  }

  /** A cursor over the child elements of t, laid out from i: k children behind it, at pos in the text. */
  function ElementAt(i: nat, t: Tree, k: nat, pos: nat): Element
    requires k <= |t.kids|
  {
    Element(i + 1 + SizeTo(t.kids, k), i + Size(t), pos, t.end)
  }

  ghost predicate Shows(c: Cst, e: Element, p: Piece) {
    && Steps(c, e) && Fragment(c, e) == (Start(p), Stop(p))
    && (p.Inner? <==> IsNode(c, e))
    && (p.Inner? ==> Begins(c.nodes, e.node, p.tree) && e.node + Size(p.tree) <= e.limit)
  }

  /** One step of the walk over child elements. */
  lemma {:induction false} ElementStep(c: Cst, i: nat, t: Tree, k: nat, pos: nat, x: Element, ps: seq<Piece>)
    requires Begins(c.nodes, i, t) && k <= |t.kids| && x == ElementAt(i, t, k, pos)
    requires ps == Pieces(c, t.kids, k, pos, t.end)
    ensures Empty(x) <==> ps == []
    ensures ps != [] ==> Shows(c, x, ps[0])
    ensures ps != [] ==>
      var j := if ps[0].Inner? then k + 1 else k;
      && j <= |t.kids| && NextSiblingElement(c, x) == ElementAt(i, t, j, Stop(ps[0]))
      && ps[1..] == Pieces(c, t.kids, j, Stop(ps[0]), t.end)
  {
    var ts := t.kids;
    SizeGrows(ts, k, |ts|);
    if k < |ts| {
      KthBegins(c.nodes, i + 1, ts, k);
      SizeGrows(ts, k + 1, |ts|);
    }
  }

  class Cursor {
    const c: Cst
    var node: nat
    var limit: nat
    var token: nat
    var end: nat

    function View(): Element
      reads this
    {
      Element(node, limit, token, end)
    }

    constructor (c: Cst, e: Element)
      ensures this.c == c && View() == e
    {
      this.c, node, limit, token, end := c, e.node, e.limit, e.token, e.end;
    }

    method NextNode()
      requires Steps(c, View())
      modifies this
      ensures View() == NextSiblingNode(c, old(View()))
    {
      if IsNode(c, View()) {
        node := node + c.nodes[node].size;
        if node == limit { token := end; } else { token := c.nodes[node].begin; }
      } else {
        if node == limit { token := end; } else { token := c.nodes[node].begin; }
      }
    }

    method NextElement()
      requires Steps(c, View())
      modifies this
      ensures View() == NextSiblingElement(c, old(View()))
    {
      if IsNode(c, View()) {
        var n := c.nodes[node];
        node := node + n.size;
        token := n.end;
      } else {
        token := NextStart(c.starts, token + 1, c.fileSize);
      }
    }
  }

  /** The loop over child nodes: one position for each child, in order. */
  method ChildNodes(c: Cst, e: Element, ghost t: Tree) returns (out: seq<nat>)
    requires Within(c, e) && IsNode(c, e) && Begins(c.nodes, e.node, t) && e.node + Size(t) <= e.limit
    ensures |out| == |t.kids| && forall k :: 0 <= k < |out| ==> Begins(c.nodes, out[k], t.kids[k])
  {
    ChildrenInOrder(c, e, t, 0);
    var x := new Cursor(c, FirstChildNode(c, e));
    out := [];
    while !Empty(x.View())
      invariant x.c == c && |out| <= |t.kids| && x.View() == ChildAt(e.node, t, |out|)
      invariant forall k :: 0 <= k < |out| ==> Begins(c.nodes, out[k], t.kids[k])
      decreases |t.kids| - |out|
    {
      ChildrenInOrder(c, e, t, |out|);
      out := out + [x.node];
      x.NextNode();
    }
    ChildrenInOrder(c, e, t, |out|);
  }

  /** The loop over child elements: one for each piece, in order, covering the same text. */
  method ChildElements(c: Cst, e: Element, ghost t: Tree) returns (out: seq<Element>)
    requires Within(c, e) && IsNode(c, e) && Begins(c.nodes, e.node, t) && e.node + Size(t) <= e.limit
    ensures var ps := Pieces(c, t.kids, 0, t.begin, t.end);
      |out| == |ps| && forall k :: 0 <= k < |out| ==> Shows(c, out[k], ps[k])
  {
    var x := new Cursor(c, FirstChildElement(c, e));
    out := [];
    ghost var k, pos, left := 0, t.begin, Pieces(c, t.kids, 0, t.begin, t.end);
    ghost var ps := left;
    ElementStep(c, e.node, t, k, pos, x.View(), left);
    while !Empty(x.View())
      invariant x.c == c && 0 <= k <= |t.kids| && 0 <= pos && x.View() == ElementAt(e.node, t, k, pos)
      invariant left == Pieces(c, t.kids, k, pos, t.end) && (Empty(x.View()) <==> left == [])
      invariant |out| + |left| == |ps| && left == ps[|out|..]
      invariant forall j :: 0 <= j < |out| ==> Shows(c, out[j], ps[j])
      decreases |left|
    {
      ElementStep(c, e.node, t, k, pos, x.View(), left);
      out := out + [x.View()];
      x.NextElement();
      k, pos, left := if left[0].Inner? then k + 1 else k, Stop(left[0]), left[1..];
      ElementStep(c, e.node, t, k, pos, x.View(), left);
    }
  }
}
