/** The heap around the collector: how large the next space is, the finalizer list, and the
    retry after a collection.
 */
module Heap {
  import opened Collector
  import opened Sequences

  // -------------------------------------------------------------------------- sizing

  /** desired_size: the smaller of a linear and a square-root rule, plus what is asked for.
      root stands for the square root of the live pads times the pivot. */
  function Desired(factor: real, root: real, live: nat, requested: nat): int {
    var linear, sqrt := (factor * live as real).Floor, live + (factor * root).Floor;
    (if linear < sqrt then linear else sqrt) + requested
  }

  /** The size of the target space: enough even if everything survives. */
  function Elements(factor: real, root: real, used: nat, last: nat, requested: nat): int {
    var estimate := Desired(factor, root, last, requested);
    if used + requested < estimate then estimate else used + requested
  }

  /** Where allocation will have to stop. */
  function End(factor: real, root: real, live: nat, requested: nat, elements: int): int {
    var desired := Desired(factor, root, live, requested);
    if desired < elements then desired else elements
  }

  /** The most pads that neither rule exceeds, and what is asked for. */
  lemma {:induction false} DesiredIs(factor: real, root: real, live: nat, requested: nat, n: int)
    ensures n + requested <= Desired(factor, root, live, requested) <==>
      n as real <= factor * live as real && n as real <= live as real + factor * root
  {
    var x, y := factor * live as real, factor * root;
    assert n <= x.Floor <==> n as real <= x;
    assert n - live <= y.Floor <==> (n - live) as real <= y;
  }

  /** The next space is no larger than it must be: for all that is there and all that is wanted, or what the rules
      desire for what survived last time. */
  lemma {:induction false} ElementsIs(factor: real, root: real, used: nat, last: nat, requested: nat, n: int)
    ensures Elements(factor, root, used, last, requested) <= n <==>
      used + requested <= n && Desired(factor, root, last, requested) <= n
  {
  }

  lemma {:induction false} FloorScales(factor: real, n: nat)
    requires factor >= 1.0
    ensures (factor * n as real).Floor >= n
  {
    assert factor * n as real >= 1.0 * n as real;
  }

  lemma {:induction false} FloorPositive(factor: real, root: real)
    requires factor >= 0.0 && root >= 0.0
    ensures (factor * root).Floor >= 0
  {
    assert factor * root >= 0.0;
  }

  predicate Suffices(factor: real, root: real, root': real, used: nat, last: nat, live: nat, requested: nat) {
    End(factor, root', live, requested, Elements(factor, root, used, last, requested)) >= live + requested
  }

  /** What was asked for is free after a collection exactly if the factor is at least one, or nothing survived. */
  lemma {:induction false} EnoughIff(factor: real, root: real, root': real, used: nat, last: nat, live: nat,
                                     requested: nat)
    requires factor >= 0.0 && root >= 0.0 && root' >= 0.0 && live <= used
    ensures Suffices(factor, root, root', used, last, live, requested) <==> factor >= 1.0 || live == 0
  {
    FloorPositive(factor, root');
    if factor >= 1.0 { FloorScales(factor, live); } else if live > 0 { FloorShrinks(factor, live); }
  }

  lemma {:induction false} EndBounds(factor: real, root: real, live: nat, requested: nat, elements: nat)
    requires factor >= 0.0 && root >= 0.0
    ensures 0 <= End(factor, root, live, requested, elements) <= elements
  {
    FloorPositive(factor, root);
    FloorPositive(factor, live as real);
  }

  lemma {:induction false} FloorShrinks(factor: real, n: nat)
    requires 0.0 <= factor < 1.0 && n > 0
    ensures 0 <= (factor * n as real).Floor < n
  {
    assert 0.0 <= factor * n as real < 1.0 * n as real;
  }

  /** A collection that was asked for nothing, with something alive and a factor below one, leaves the end before
      the first free pad. */
  lemma {:induction false} EndBeforeFree(factor: real, root: real, root': real, used: nat, last: nat, live: nat)
    requires 0.0 <= factor < 1.0 && root >= 0.0 && root' >= 0.0 && 0 < live <= used
    ensures 0 <= End(factor, root', live, 0, Elements(factor, root, used, last, 0)) < live
  {
    FloorShrinks(factor, live);
    FloorPositive(factor, root');
  }

  /** `heap_factor` 0.5 in `.wakeroot`: with two pads alive, the end is the second of them. */
  lemma {:induction false} HalfFactor(root: real, root': real)
    requires root >= 0.0 && root' >= 0.0
    ensures End(0.5, root', 2, 0, Elements(0.5, root, 2, 0, 0)) == 1
    ensures !Suffices(0.5, root, root', 2, 0, 2, 0)
  {
    FloorPositive(0.5, root');
    assert (0.5 * 2.0).Floor == 1;
  }

  // ------------------------------------------------------------------------ finalizers

  function Link(l: seq<int>, i: nat): int {
    if i < |l| then l[i] else NULL
  }

  /** The objects on a finalizer list from the i-th on, in order. */
  ghost predicate ChainFrom(h: seq<Cell>, head: int, l: seq<int>, i: nat) {
    && head == Link(l, i)
    && forall j :: i <= j < |l| ==> Head(h, l[j]) && h[l[j]].destroyable && h[l[j]].next == Link(l, j + 1)
  }

  ghost predicate Chain(h: seq<Cell>, head: int, l: seq<int>) {
    ChainFrom(h, head, l, 0)
  }

  /** The dead among the first i. */
  function DeadOf(order: seq<int>, l: seq<int>, i: nat): seq<int>
    requires i <= |l|
  {
    if i == 0 then [] else DeadOf(order, l, i - 1) + if l[i - 1] in order then [] else [l[i - 1]]
  }

  /** Where the survivors among the first i have gone, last first. */
  function KeptOf(h: seq<Cell>, order: seq<int>, l: seq<int>, i: nat): seq<int>
    requires i <= |l| && Listing(h, order)
  {
    if i == 0
      then []
      else (if l[i - 1] in order then [Forward(h, order, l[i - 1])] else []) + KeptOf(h, order, l, i - 1)
  }

  lemma {:induction false} ChainFrame(h: seq<Cell>, h': seq<Cell>, head: int, l: seq<int>)
    requires Chain(h, head, l) && |h'| >= |h| && forall i :: 0 <= i < |l| && Head(h, l[i]) ==> h'[l[i]] == h[l[i]]
    ensures Chain(h', head, l)
  {
  }

  /** A cell whose next is the head of a list heads a longer one. */
  lemma {:induction false} ChainCons(h: seq<Cell>, head: int, l: seq<int>, p: int, l': seq<int>)
    requires Chain(h, head, l) && Head(h, p) && h[p].destroyable && h[p].next == head && l' == [p] + l
    ensures Chain(h, p, l')
  {
    forall j | 0 <= j < |l'| ensures Head(h, l'[j]) && h[l'[j]].destroyable && h[l'[j]].next == Link(l', j + 1) {
      if j > 0 { assert l'[j] == l[j - 1] && Link(l', j + 1) == Link(l, j); }
    }
  }

  lemma {:induction false} KeptIn(h: seq<Cell>, order: seq<int>, l: seq<int>, i: nat, x: int) returns (j: nat)
    requires i <= |l| && Listing(h, order) && x in KeptOf(h, order, l, i)
    ensures j < i && l[j] in order && x == Forward(h, order, l[j])
    decreases i
  {
    if l[i - 1] in order && x == Forward(h, order, l[i - 1]) {
      j := i - 1;
    } else {
      j := KeptIn(h, order, l, i - 1, x);
    }
  }

  lemma {:induction false} KeptDistinct(h: seq<Cell>, order: seq<int>, l: seq<int>, i: nat)
    requires Tidy(h) && Listing(h, order) && Distinct(l) && i <= |l|
    ensures Distinct(KeptOf(h, order, l, i))
    decreases i
  {
    if i > 0 {
      KeptDistinct(h, order, l, i - 1);
      if l[i - 1] in order {
        var rest := KeptOf(h, order, l, i - 1);
        forall k | 0 <= k < |rest| ensures rest[k] != Forward(h, order, l[i - 1]) {
          var j := KeptIn(h, order, l, i - 1, rest[k]);
          ForwardInjective(h, order, l[j], l[i - 1]);
        }
      }
    }
  }

  /** Every dead finalizer is destroyed, once, and no live one is. */
  lemma {:induction false} DeadOnce(order: seq<int>, l: seq<int>, i: nat)
    requires Distinct(l) && i <= |l|
    ensures Distinct(DeadOf(order, l, i)) && forall x :: x in DeadOf(order, l, i) <==> x in l[..i] && x !in order
    decreases i
  {
    if i > 0 {
      DeadOnce(order, l, i - 1);
      assert l[..i] == l[..i - 1] + [l[i - 1]];
    }
  }

  /** Every live finalizer is on the new list. */
  lemma {:induction false} KeptAll(h: seq<Cell>, order: seq<int>, l: seq<int>, i: nat, j: nat)
    requires Listing(h, order) && j < i <= |l| && l[j] in order
    ensures Forward(h, order, l[j]) in KeptOf(h, order, l, i)
    decreases i
  {
    if j < i - 1 { KeptAll(h, order, l, i - 1, j); }
  }

  /** Cells that differ at most in which finalizer comes next. */
  predicate SameButNext(t: seq<Cell>, t': seq<Cell>) {
    |t'| == |t| && forall b :: 0 <= b < |t| ==>
      t'[b] == t[b] || (t[b].Obj? && t'[b].Obj? && t'[b] == t[b].(next := t'[b].next))
  }

  /** The copy of object a, still with a's own next. */
  predicate Awaits(h: seq<Cell>, order: seq<int>, t: seq<Cell>, a: int)
    requires Listing(h, order) && a in order
  {
    var x := Forward(h, order, a);
    Head(h, a) && Head(t, x) && t[x].next == h[a].next && t[x].destroyable == h[a].destroyable
  }

  /** The first i finalizers are dealt with. */
  ghost predicate Sweeping(h: seq<Cell>, order: seq<int>, t0: seq<Cell>, l: seq<int>, i: nat, t: seq<Cell>, obj: int,
                           tail: int, dead: seq<int>) {
    && Tidy(h) && Listing(h, order) && Distinct(l) && i <= |l|
    && ChainFrom(h, obj, l, i) && SameButNext(t0, t) && dead == DeadOf(order, l, i)
    && Chain(t, tail, KeptOf(h, order, l, i))
    && forall j :: i <= j < |l| && l[j] in order ==> Awaits(h, order, t, l[j])
  }

  lemma {:induction false} SweepsDead(h: seq<Cell>, order: seq<int>, t0: seq<Cell>, l: seq<int>, i: nat, t: seq<Cell>,
                                      obj: int, tail: int, dead: seq<int>)
    requires Sweeping(h, order, t0, l, i, t, obj, tail, dead) && i < |l| && l[i] !in order
    ensures Sweeping(h, order, t0, l, i + 1, t, h[obj].next, tail, dead + [obj])
  {
    assert KeptOf(h, order, l, i + 1) == KeptOf(h, order, l, i);
  }

  lemma {:induction false} SweepsKept(h: seq<Cell>, order: seq<int>, t0: seq<Cell>, l: seq<int>, i: nat, t: seq<Cell>,
                                      obj: int, tail: int, dead: seq<int>,
                                      keep: int, t': seq<Cell>)
    requires Sweeping(h, order, t0, l, i, t, obj, tail, dead) && i < |l| && l[i] in order
    requires keep == Forward(h, order, l[i])
    requires Head(t, keep) && t' == t[keep := t[keep].(next := tail)]
    ensures Sweeping(h, order, t0, l, i + 1, t', h[obj].next, keep, dead)
  {
    assert Awaits(h, order, t, l[i]);
    var kept := KeptOf(h, order, l, i);
    forall k | 0 <= k < |kept| && Head(t, kept[k]) ensures t'[kept[k]] == t[kept[k]] {
      var j := KeptIn(h, order, l, i, kept[k]);
      ForwardInjective(h, order, l[j], l[i]);
    }
    ChainFrame(t, t', tail, kept);
    ChainCons(t', tail, kept, keep, [keep] + kept);
    forall j | i + 1 <= j < |l| && l[j] in order ensures Awaits(h, order, t', l[j]) {
      assert Awaits(h, order, t, l[j]);
      ForwardInjective(h, order, l[j], l[i]);
    }
  }

  lemma {:induction false} SweepStarts(h: seq<Cell>, roots: seq<int>, c: Copy, l: seq<int>, head: int)
    requires At(h, roots, c, |c.order|, 0) && Chain(h, head, l) && Distinct(l)
    ensures Sweeping(h, c.order, c.to, l, 0, c.to, head, NULL, [])
  {
    forall j | 0 <= j < |l| && l[j] in c.order ensures Awaits(h, c.order, c.to, l[j]) {
      var k := Find(c.order, l[j]);
      assert Standing(h, roots, c, |c.order|, 0, k);
    }
  }

  /** The finalizer loop of Heap::GC: survivors are relinked, the dead are destroyed. */
  method Finalize(from: array<Cell>, to: array<Cell>, head: int, ghost h: seq<Cell>, ghost c: Copy, ghost l: seq<int>)
    returns (tail: int, dead: seq<int>)
    requires from != to && from[..] == c.from && to[..] == c.to && Listing(h, c.order) && Recorded(h, c)
    requires Sweeping(h, c.order, c.to, l, 0, c.to, head, NULL, [])
    modifies to
    ensures Sweeping(h, c.order, c.to, l, |l|, to[..], NULL, tail, dead)
  {
    var obj := head;
    tail, dead := NULL, [];
    ghost var i := 0;
    while obj != NULL
      invariant from[..] == c.from && Sweeping(h, c.order, c.to, l, i, to[..], obj, tail, dead)
      decreases |l| - i
    {
      assert i < |l| && obj == l[i] && Head(h, obj);
      assert from[obj] == c.from[obj];
      ghost var t := to[..];
      if from[obj].Moved? {
        MovedIff(h, c, obj);
        var keep := from[obj].to;
        assert Awaits(h, c.order, t, obj);
        assert to[keep] == t[keep];
        var next := to[keep].next;
        SweepsKept(h, c.order, c.to, l, i, t, obj, tail, dead, keep, t[keep := t[keep].(next := tail)]);
        to[keep] := to[keep].(next := tail);
        assert to[..] == t[keep := t[keep].(next := tail)];
        tail := keep;
        obj := next;
      } else {
        MovedIff(h, c, obj);
        SweepsDead(h, c.order, c.to, l, i, t, obj, tail, dead);
        dead := dead + [obj];
        obj := from[obj].next;
      }
      i := i + 1;
    }
    SweepEnds(h, c.order, c.to, l, i, to[..], tail, dead);
  }

  lemma {:induction false} SweepEnds(h: seq<Cell>, order: seq<int>, t0: seq<Cell>, l: seq<int>, i: nat, t: seq<Cell>,
                                     tail: int, dead: seq<int>)
    requires Sweeping(h, order, t0, l, i, t, NULL, tail, dead)
    ensures i == |l|
  {
  }

  lemma {:induction false} MovedIff(h: seq<Cell>, c: Copy, p: int)
    requires Listing(h, c.order) && Recorded(h, c) && Head(h, p)
    ensures p < |c.from| && (c.from[p].Moved? <==> p in c.order)
    ensures (p in c.order ==> c.from[p].to == Forward(h, c.order, p))
    ensures p !in c.order ==> c.from[p] == h[p]
  {
  }

  /** Relinking finalizers leaves the graph as it is. */
  lemma {:induction false} RelinkedSame(h: seq<Cell>, roots: seq<int>, order: seq<int>, t: seq<Cell>, roots': seq<int>,
                                        t': seq<Cell>)
    requires Isomorphic(h, roots, order, t, roots') && SameButNext(t, t')
    ensures Isomorphic(h, roots, order, t', roots')
  {
    forall k | 0 <= k < |order| ensures Image(h, order, t', k) { assert Image(h, order, t, k); }
  }

  // ---------------------------------------------------------------------------- spaces

  class Space {
    var size: nat
    var alloc: nat
    var cells: array<Cell>

    ghost predicate Ok()
      reads this
    {
      size <= alloc == cells.Length
    }

    constructor (n: nat)
      ensures Ok() && size == n && fresh(cells)
    {
      size, alloc, cells := n, n, new Cell[n](_ => Pad);
    }

    /** Space::resize: memory is taken or given back only when far from what is needed. */
    method Resize(n: nat)
      requires Ok()
      modifies this
      ensures Ok() && size == n && n <= alloc <= 3 * n
      ensures n <= old(alloc) <= 3 * n ==> cells == old(cells) && alloc == old(alloc)
      ensures !(n <= old(alloc) <= 3 * n) ==> fresh(cells) && 2 * alloc <= 3 * n < 2 * alloc + 2
    {
      if alloc < n || 3 * n < alloc {
        alloc := n + n / 2;
        cells := new Cell[alloc](_ => Pad);
      }
      size := n;
    }
  }

  // ------------------------------------------------------------------------------ heap

  const INITIAL_HEAP_SIZE: nat := 1024

  /** The number of values of an unsigned word. */
  const WORDS: int := 0x1_0000_0000_0000_0000

  /** There is room, or the end is before the first free pad and the difference wraps around. */
  predicate Admits(free: nat, end: nat, n: nat) {
    if free <= end then free + n <= end else n <= WORDS - (free - end)
  }

  class Heap {
    const factor: real
    const root: nat -> real
    var here: Space
    var idle: Space
    var free: nat
    var end: nat
    var last: nat
    var finalize: int
    var roots: array<int>
    ghost var finalizers: seq<int>

    constructor (factor: real, root: nat -> real)
      requires factor >= 0.0 && forall n :: root(n) >= 0.0
      ensures Valid() && fresh(here) && fresh(idle) && fresh(here.cells) && fresh(idle.cells) && fresh(roots)
      ensures free == 0 && finalizers == []
    {
      this.factor, this.root := factor, root;
      here := new Space(INITIAL_HEAP_SIZE);
      idle := new Space(INITIAL_HEAP_SIZE);
      free, end, last, finalize, finalizers := 0, INITIAL_HEAP_SIZE, 0, NULL, [];
      roots := new int[0];
    }

    /** What is in use. */
    ghost function Used(): seq<Cell>
      reads this, here, here.cells
      requires free <= here.cells.Length
    {
      here.cells[..free]
    }

    ghost predicate Valid()
      reads this, here, idle, here.cells, idle.cells, roots
    {
      && factor >= 0.0 && (forall n :: root(n) >= 0.0)
      && here != idle && here.cells != idle.cells && here.Ok() && idle.Ok() && free <= here.size && end <= here.size
      && Tidy(Used()) && (forall i :: 0 <= i < roots.Length ==> Pointer(Used(), roots[i]))
      && Chain(Used(), finalize, finalizers) && Distinct(finalizers)
    }

    /** reserve: whether n more pads are free.  The distance from the first free pad to the end is an unsigned
        word, so an end before the first free pad passes for any amount of room. */
    method Reserve(n: nat) returns (ok: bool)
      ensures ok <==> Admits(free, end, n)
    {
      ok := (if free <= end then end - free else WORDS + end - free) >= n;
    }

    /** claim and construct: a new object after the others; a destroyable one heads the finalizer list. */
    method Construct(size: nat, data: int, fields: seq<int>, destroyable: bool) returns (p: int)
      requires Valid() && 1 <= size && free + size <= end
      requires forall i :: 0 <= i < |fields| ==> Pointer(Used(), fields[i])
      modifies this, here.cells
      ensures Valid() && here == old(here) && idle == old(idle) && here.cells == old(here.cells) && roots == old(roots)
      ensures end == old(end)
      ensures p == old(free) && free == old(free) + size && Used()[..p] == old(Used())
      ensures Used()[p] == Obj(size, data, fields, destroyable, old(finalize))
      ensures finalizers == if destroyable then [p] + old(finalizers) else old(finalizers)
    {
      p := free;
      ghost var h := Used();
      var cell := Obj(size, data, fields, destroyable, finalize);
      Place(here.cells, free, cell);
      free := free + size;
      ConstructTidy(h, cell, Used());
      ChainFrame(h, Used(), finalize, finalizers);
      if destroyable {
        DistinctMore(h, finalize, finalizers, p);
        ChainCons(Used(), finalize, finalizers, p, [p] + finalizers);
        finalize, finalizers := p, [p] + finalizers;
      }
    }

    /** Heap::GC */
    method GC(requested: nat) returns (dead: seq<int>, ghost order: seq<int>)
      requires Valid()
      modifies this, here, idle, here.cells, idle.cells, roots
      ensures Valid() && roots == old(roots)
      ensures free + requested <= end <==> factor >= 1.0 || free == 0
      ensures requested == 0 && factor < 1.0 && free > 0 ==> end < free
      ensures free <= old(free) && last == free && here == old(idle) && idle == old(here)
      ensures here.size == Elements(factor, root(old(last)), old(free), old(last), requested)
      ensures end == End(factor, root(free), free, requested, here.size)
      ensures Collected(old(Used()), old(roots[..]), old(finalizers), order, Used(), roots[..], finalizers, finalize,
                        dead)
    {
      ghost var h, rs := Used(), roots[..];
      var used := free;
      var elements := Elements(factor, root(last), used, last, requested);
      idle.Resize(elements);
      var live, tail;
      live, tail, dead, order := CollectInto(here.cells, used, idle.cells, elements, roots, finalize, finalizers, h,
                                             rs);
      EnoughIff(factor, root(last), root(live), used, last, live, requested);
      if requested == 0 && factor < 1.0 && live > 0 { EndBeforeFree(factor, root(last), root(live), used, last, live); }
      EndBounds(factor, root(live), live, requested, elements);
      Settle(live, tail, End(factor, root(live), live, requested, elements),
             KeptOf(h, order, finalizers, |finalizers|));
    }

    /** The spaces change places. */
    method Settle(live: nat, head: int, limit: nat, ghost l: seq<int>)
      requires factor >= 0.0 && (forall n :: root(n) >= 0.0)
      requires here != idle && here.cells != idle.cells && here.Ok() && idle.Ok()
      requires live <= idle.size && limit <= idle.size
      requires Tidy(idle.cells[..live]) && (forall i :: 0 <= i < roots.Length ==> Pointer(idle.cells[..live], roots[i]))
      requires Chain(idle.cells[..live], head, l) && Distinct(l)
      modifies this
      ensures Valid() && here == old(idle) && idle == old(here) && roots == old(roots)
      ensures free == live == last && end == limit && finalize == head && finalizers == l
    {
      here, idle := idle, here;
      free, last, end, finalize, finalizers := live, live, limit, head, l;
    }

    /** The interpreter's loop: work that asks for n pads and is turned away runs again after a
        collection.  It then finds them exactly if the factor is at least one, or nothing is alive;
        otherwise it is turned away again, or let on without room. */
    method Retry(n: nat) returns (ok: bool, collections: nat)
      requires Valid()
      modifies this, here, idle, here.cells, idle.cells, roots
      ensures Valid() && collections <= 1 && (collections == 0 <==> Admits(old(free), old(end), n))
      ensures collections == 0 ==> ok && free == old(free) && end == old(end)
      ensures collections == 1 ==> (free + n <= end <==> factor >= 1.0 || free == 0)
      ensures ok <==> Admits(free, end, n)
    {
      collections := 0;
      ok := Reserve(n);
      if !ok {
        var dead, order := GC(n);
        collections := 1;
        ok := Reserve(n);
      }
    }
  }

  /** What a collection does: the graph reachable from the roots is copied, the survivors among the
      finalizers are listed again, last first, and the others destroyed in turn. */
  ghost predicate Collected(h: seq<Cell>, roots: seq<int>, l: seq<int>, order: seq<int>,
                            t: seq<Cell>, roots': seq<int>, l': seq<int>, head': int, dead: seq<int>) {
    && Isomorphic(h, roots, order, t, roots') && Tidy(t) && (forall i :: 0 <= i < |roots'| ==> Pointer(t, roots'[i]))
    && l' == KeptOf(h, order, l, |l|) && Chain(t, head', l') && Distinct(l') && dead == DeadOf(order, l, |l|)
  }

  method CollectInto(from: array<Cell>, used: nat, to: array<Cell>, size: nat, roots: array<int>, head: int,
                     ghost l: seq<int>, ghost h: seq<Cell>, ghost rs: seq<int>)
    returns (live: nat, tail: int, dead: seq<int>, ghost order: seq<int>)
    requires from != to && used <= from.Length && used <= size <= to.Length && h == from[..used] && rs == roots[..]
    requires Tidy(h)
    requires (forall i :: 0 <= i < |rs| ==> Pointer(h, rs[i])) && Chain(h, head, l) && Distinct(l)
    modifies from, to, roots
    ensures live <= used && Listing(h, order)
    ensures Collected(h, rs, l, order, to[..live], roots[..], KeptOf(h, order, l, |l|), tail, dead)
  {
    ghost var c;
    live, c := Evacuate(from, used, to, size, roots);
    order := c.order;
    ghost var t := to[..live];
    SweepStarts(h, rs, c, l, head);
    tail, dead := Finalize(from, to, head, h, c, l);
    RelinkedSame(h, rs, order, t, roots[..], to[..live]);
    AfterGC(h, rs, order, to[..live], roots[..], l, to[..], tail);
  }

  lemma {:induction false} AfterGC(h: seq<Cell>, roots: seq<int>, order: seq<int>, t: seq<Cell>, roots': seq<int>,
                                   l: seq<int>, all: seq<Cell>, tail: int)
    requires Tidy(h) && Isomorphic(h, roots, order, t, roots') && Distinct(l) && t <= all
    requires Chain(all, tail, KeptOf(h, order, l, |l|))
    ensures Tidy(t) && (forall i :: 0 <= i < |roots'| ==> Pointer(t, roots'[i]))
    ensures Chain(t, tail, KeptOf(h, order, l, |l|)) && Distinct(KeptOf(h, order, l, |l|))
  {
    CopyTidy(h, roots, order, t, roots');
    forall i | 0 <= i < |roots'| ensures Pointer(t, roots'[i]) { ForwardHead(h, order, t, roots[i]); }
    KeptDistinct(h, order, l, |l|);
    var kept := KeptOf(h, order, l, |l|);
    forall k | 0 <= k < |kept| ensures 0 <= kept[k] < |t| {
      var j := KeptIn(h, order, l, |l|, kept[k]);
      ForwardHead(h, order, t, l[j]);
      assert Image(h, order, t, Find(order, l[j]));
    }
    ChainShort(all, t, tail, kept);
  }

  lemma {:induction false} ChainShort(h: seq<Cell>, t: seq<Cell>, head: int, l: seq<int>)
    requires Chain(h, head, l) && t <= h && forall k :: 0 <= k < |l| ==> 0 <= l[k] < |t|
    ensures Chain(t, head, l)
  {
  }

  lemma {:induction false} ConstructTidy(h: seq<Cell>, cell: Cell, h': seq<Cell>)
    requires Tidy(h) && cell.Obj? && 1 <= cell.size && |h'| == |h| + cell.size && h <= h' && h'[|h|] == cell
    requires (forall b :: |h| < b < |h'| ==> h'[b].Pad?)
    requires forall i :: 0 <= i < |cell.fields| ==> Pointer(h, cell.fields[i])
    ensures Tidy(h')
  {
    forall a | Head(h', a)
      ensures 1 <= h'[a].size && a + h'[a].size <= |h'| && (forall b :: a < b < a + h'[a].size ==> h'[b].Pad?)
      ensures forall i :: 0 <= i < |h'[a].fields| ==> Pointer(h', h'[a].fields[i])
    {
      if a < |h| {
        assert Head(h, a);
        forall i | 0 <= i < |h'[a].fields| ensures Pointer(h', h'[a].fields[i]) { assert Pointer(h, h[a].fields[i]); }
      } else {
        forall i | 0 <= i < |cell.fields| ensures Pointer(h', cell.fields[i]) { assert Pointer(h, cell.fields[i]); }
      }
    }
  }

  lemma {:induction false} DistinctMore(h: seq<Cell>, head: int, l: seq<int>, p: int)
    requires Chain(h, head, l) && Distinct(l) && p >= |h|
    ensures Distinct([p] + l)
  {
    assert forall i :: 0 <= i < |l| ==> l[i] != p;
  }
}
