/** The copying collector: live objects are moved to the other space breadth first, each
    leaving behind a record of where it went.
 */
module Collector {
  /** One pad of a space.  An object starts with its header and covers `size` pads; a pointer is
      the pad its object starts at, or NULL. */
  datatype Cell =
    | Obj(size: nat, data: int, fields: seq<int>, destroyable: bool, next: int)
    | Moved(to: int)
    | Pad

  const NULL: int := -1

  predicate Head(h: seq<Cell>, p: int) {
    0 <= p < |h| && h[p].Obj?
  }

  predicate Pointer(h: seq<Cell>, p: int) {
    p == NULL || Head(h, p)
  }

  /** Objects do not overlap, stay inside the space, and point to objects. */
  ghost predicate Tidy(h: seq<Cell>) {
    forall a :: Head(h, a) ==>
      && 1 <= h[a].size && a + h[a].size <= |h|
      && (forall b :: a < b < a + h[a].size ==> h[b].Pad?)
      && (forall i :: 0 <= i < |h[a].fields| ==> Pointer(h, h[a].fields[i]))
  }

  // ------------------------------------------------------------------- what is live

  ghost predicate ReachedIn(h: seq<Cell>, roots: seq<int>, a: int, k: nat)
    decreases k
  {
    if k == 0 then a in roots && Head(h, a)
    else exists b :: Head(h, b) && ReachedIn(h, roots, b, k - 1) && a in h[b].fields && Head(h, a)
  }

  /** a is reachable from the roots. */
  ghost predicate Live(h: seq<Cell>, roots: seq<int>, a: int) {
    exists k: nat :: ReachedIn(h, roots, a, k)
  }

  lemma {:induction false} LiveField(h: seq<Cell>, roots: seq<int>, b: int, a: int)
    requires Live(h, roots, b) && Head(h, b) && a in h[b].fields && Head(h, a)
    ensures Live(h, roots, a)
  {
    var k: nat :| ReachedIn(h, roots, b, k);
    assert ReachedIn(h, roots, a, k + 1);
  }

  /** A set that has the roots and everything its members point to has all that is live. */
  lemma {:induction false} LiveIn(h: seq<Cell>, roots: seq<int>, s: seq<int>, a: int, k: nat)
    requires ReachedIn(h, roots, a, k)
    requires forall p :: p in roots && p != NULL ==> p in s
    requires forall b, p :: b in s && Head(h, b) && p in h[b].fields && p != NULL ==> p in s
    ensures a in s
    decreases k
  {
    if k > 0 {
      var b :| Head(h, b) && ReachedIn(h, roots, b, k - 1) && a in h[b].fields && Head(h, a);
      LiveIn(h, roots, s, b, k - 1);
    }
  }

  // ------------------------------------------------------------------------ counting pads

  /** Objects of the space, none twice. */
  predicate Listing(h: seq<Cell>, order: seq<int>) {
    && (forall i :: 0 <= i < |order| ==> Head(h, order[i]))
    && (forall i, j :: 0 <= i < j < |order| ==> order[i] != order[j])
  }

  /** The pads the first k of them cover. */
  function Total(h: seq<Cell>, order: seq<int>, k: nat): nat
    requires k <= |order| && forall i :: 0 <= i < |order| ==> Head(h, order[i])
  {
    if k == 0 then 0 else Total(h, order, k - 1) + h[order[k - 1]].size
  }

  ghost function Range(a: int, n: nat): (s: set<int>)
    ensures |s| == n && forall x :: x in s <==> a <= x < a + n
  {
    if n == 0 then {} else Range(a, n - 1) + {a + n - 1}
  }

  ghost function Span(h: seq<Cell>, a: int): set<int>
    requires Head(h, a)
  {
    Range(a, h[a].size)
  }

  /** x lies in one of the first k objects. */
  ghost predicate Covered(h: seq<Cell>, order: seq<int>, k: nat, x: int)
    requires k <= |order| && forall i :: 0 <= i < |order| ==> Head(h, order[i])
  {
    exists i :: 0 <= i < k && x in Span(h, order[i])
  }

  ghost function Spans(h: seq<Cell>, order: seq<int>, k: nat): set<int>
    requires k <= |order| && forall i :: 0 <= i < |order| ==> Head(h, order[i])
  {
    set x | 0 <= x < |h| && Covered(h, order, k, x)
  }

  lemma {:induction false} SpansNext(h: seq<Cell>, order: seq<int>, k: nat)
    requires Tidy(h) && Listing(h, order) && k < |order|
    ensures Spans(h, order, k + 1) == Spans(h, order, k) + Span(h, order[k])
  {
    assert Head(h, order[k]);
    forall x | 0 <= x < |h| ensures Covered(h, order, k + 1, x) <==> Covered(h, order, k, x) || x in Span(h, order[k]) {
      if Covered(h, order, k, x) {
        var i :| 0 <= i < k && x in Span(h, order[i]);
        assert i < k + 1;
      }
    }
  }

  lemma {:induction false} SpansApart(h: seq<Cell>, a: int, b: int, x: int)
    requires Tidy(h) && Head(h, a) && Head(h, b) && a < b
    ensures !(x in Span(h, a) && x in Span(h, b))
  {
    PadsFollow(h, a, b);
  }

  lemma {:induction false} PadsFollow(h: seq<Cell>, a: int, b: int)
    requires Tidy(h) && Head(h, a) && Head(h, b) && a < b
    ensures a + h[a].size <= b
  {
  }

  lemma {:induction false} SpansDisjoint(h: seq<Cell>, order: seq<int>, k: nat)
    requires Tidy(h) && Listing(h, order) && k < |order|
    ensures Spans(h, order, k) !! Span(h, order[k])
  {
    forall x | x in Spans(h, order, k) ensures x !in Span(h, order[k]) {
      var i :| 0 <= i < k && x in Span(h, order[i]);
      if order[i] < order[k] { SpansApart(h, order[i], order[k], x); } else { SpansApart(h, order[k], order[i], x); }
    }
  }

  lemma {:induction false} SpansSize(h: seq<Cell>, order: seq<int>, k: nat)
    requires Tidy(h) && Listing(h, order) && k <= |order|
    ensures |Spans(h, order, k)| == Total(h, order, k)
    decreases k
  {
    if k > 0 {
      var z := k - 1;
      SpansSize(h, order, z);
      SpansDisjoint(h, order, z);
      SpansNext(h, order, z);
      UnionSize(Spans(h, order, z), Span(h, order[z]), Spans(h, order, k));
    } else {
      assert Spans(h, order, 0) == {};
    }
  }

  lemma {:induction false} UnionSize(s: set<int>, t: set<int>, u: set<int>)
    requires s !! t && u == s + t
    ensures |u| == |s| + |t|
  {
  }

  lemma {:induction false} SubsetSize(s: set<int>, t: set<int>)
    requires s <= t
    ensures |s| <= |t|
  {
    assert t == s + (t - s);
    UnionSize(s, t - s, t);
  }

  /** However many objects are moved, they fit where they came from. */
  lemma {:induction false} TotalFits(h: seq<Cell>, order: seq<int>)
    requires Tidy(h) && Listing(h, order)
    ensures Total(h, order, |order|) <= |h|
  {
    SpansSize(h, order, |order|);
    SubsetSize(Spans(h, order, |order|), Range(0, |h|));
  }

  lemma {:induction false} TotalPrefix(h: seq<Cell>, order: seq<int>, order': seq<int>, k: nat)
    requires order <= order' && k <= |order| && forall i :: 0 <= i < |order'| ==> Head(h, order'[i])
    ensures (forall i :: 0 <= i < |order| ==> Head(h, order[i])) && Total(h, order, k) == Total(h, order', k)
    decreases k
  {
    assert forall i :: 0 <= i < |order| ==> order[i] == order'[i];
    if k > 0 { TotalPrefix(h, order, order', k - 1); }
  }

  lemma {:induction false} TotalGrows(h: seq<Cell>, order: seq<int>, j: nat, k: nat)
    requires j <= k <= |order| && Tidy(h) && Listing(h, order)
    ensures Total(h, order, j) + (k - j) <= Total(h, order, k)
    ensures j < k ==> Total(h, order, j) + h[order[j]].size <= Total(h, order, k)
    decreases k
  {
    if j < k {
      TotalGrows(h, order, j, k - 1);
      assert Head(h, order[k - 1]);
    }
  }

  // ------------------------------------------------------------------ a copy under way

  /** Both spaces, now and at first, the size of the target, the objects moved so far in the order
      they were, and the first free pad. */
  datatype Copy = Copy(from: seq<Cell>, to: seq<Cell>, order: seq<int>, free: nat, from0: seq<Cell>, to0: seq<Cell>,
                       size: nat)

  function Find(order: seq<int>, a: int): (i: nat)
    requires a in order
    ensures i < |order| && order[i] == a
  {
    if order[|order| - 1] == a then |order| - 1 else Find(order[..|order| - 1], a)
  }

  /** Where the object a pointer names has gone. */
  function Forward(h: seq<Cell>, order: seq<int>, p: int): int
    requires Listing(h, order) && (p == NULL || p in order)
  {
    if p == NULL then NULL else Total(h, order, Find(order, p))
  }

  /** Moved objects leave a record, the others are as they were. */
  predicate Recorded(h: seq<Cell>, c: Copy)
    requires Listing(h, c.order)
  {
    && h <= c.from0 && |c.from| == |c.from0|
    && forall a :: 0 <= a < |c.from| ==> c.from[a] == if a in c.order then Moved(Forward(h, c.order, a)) else c.from0[a]
  }

  /** The k-th moved object, with its first n pointers redirected. */
  predicate Placed(h: seq<Cell>, c: Copy, k: nat, n: nat)
    requires Listing(h, c.order) && k < |c.order|
  {
    var a, at := h[c.order[k]], Total(h, c.order, k);
    && at < |c.to| && at + a.size <= |c.to| && c.to[at].Obj? && c.to[at] == a.(fields := c.to[at].fields)
    && (forall b :: at < b < at + a.size ==> c.to[b].Pad?)
    && |c.to[at].fields| == |a.fields|
    && (forall i :: 0 <= i < |a.fields| && i < n ==>
          (a.fields[i] == NULL || a.fields[i] in c.order) && c.to[at].fields[i] == Forward(h, c.order, a.fields[i]))
    && (forall i :: n <= i < |a.fields| ==> c.to[at].fields[i] == a.fields[i])
  }

  /** Objects before the k-th are done with, the k-th has n pointers done, the others none. */
  function Done(h: seq<Cell>, order: seq<int>, k: nat, n: nat, j: nat): nat
    requires Listing(h, order) && j < |order|
  {
    if j < k then |h[order[j]].fields| else if j == k then n else 0
  }

  ghost predicate Copying(h: seq<Cell>, roots: seq<int>, c: Copy, k: nat, n: nat) {
    && Tidy(h) && Listing(h, c.order) && c.free == Total(h, c.order, |c.order|) && Recorded(h, c)
    && |h| <= c.size <= |c.to| == |c.to0| && (forall b :: c.size <= b < |c.to| ==> c.to[b] == c.to0[b])
    && AllStanding(h, roots, c, k, n)
  }

  ghost predicate Standing(h: seq<Cell>, roots: seq<int>, c: Copy, k: nat, n: nat, j: nat)
    requires Listing(h, c.order) && j < |c.order|
  {
    Placed(h, c, j, Done(h, c.order, k, n, j)) && Live(h, roots, c.order[j])
  }

  /** c' is c with object p moved as well. */
  predicate MovedOne(h: seq<Cell>, c: Copy, p: int, c': Copy)
    requires Head(h, p)
  {
    && c'.order == c.order + [p] && c'.free == c.free + h[p].size <= c.size <= |c.to| == |c'.to|
    && |c'.from| == |c.from|
    && c'.from0 == c.from0 && c'.to0 == c.to0 && c'.size == c.size
    && (forall a :: 0 <= a < |c.from| ==> c'.from[a] == if a == p then Moved(c.free) else c.from[a])
    && (forall b :: 0 <= b < |c.to| ==>
          c'.to[b] == if b == c.free then h[p] else if c.free < b < c'.free then Pad else c.to[b])
  }

  lemma {:induction false} FindPrefix(h: seq<Cell>, order: seq<int>, order': seq<int>, p: int)
    requires Listing(h, order') && order <= order' && p in order
    ensures Listing(h, order) && p in order' && Find(order', p) == Find(order, p)
    ensures Forward(h, order', p) == Forward(h, order, p)
  {
    assert forall i :: 0 <= i < |order| ==> order[i] == order'[i];
    assert order'[Find(order, p)] == p;
    TotalPrefix(h, order, order', Find(order, p));
  }

  lemma {:induction false} MoreListed(h: seq<Cell>, c: Copy, p: int)
    requires Listing(h, c.order) && Head(h, p) && p !in c.order
    ensures Listing(h, c.order + [p])
  {
  }

  lemma {:induction false} MoveRecorded(h: seq<Cell>, c: Copy, p: int, c': Copy)
    requires Listing(h, c.order) && Listing(h, c'.order) && Head(h, p) && p !in c.order && Recorded(h, c)
    requires c.free == Total(h, c.order, |c.order|) && MovedOne(h, c, p, c')
    ensures Recorded(h, c')
  {
    assert c'.order[|c.order|] == p;
    TotalPrefix(h, c.order, c'.order, |c.order|);
    forall a | 0 <= a < |c'.from|
      ensures c'.from[a] == if a in c'.order then Moved(Forward(h, c'.order, a)) else c'.from0[a]
    {
      if a in c.order { FindPrefix(h, c.order, c'.order, a); }
    }
  }

  lemma {:induction false} MovePlaced(h: seq<Cell>, c: Copy, p: int, c': Copy, j: nat, n: nat)
    requires Tidy(h) && Listing(h, c.order) && Listing(h, c'.order) && Head(h, p) && MovedOne(h, c, p, c')
    requires j < |c.order| && Placed(h, c, j, n) && c.free == Total(h, c.order, |c.order|)
    ensures Placed(h, c', j, n)
  {
    var a, at := h[c.order[j]], Total(h, c.order, j);
    TotalPrefix(h, c.order, c'.order, j);
    TotalGrows(h, c.order, j, |c.order|);
    assert c'.order[j] == c.order[j] && Head(h, c.order[j]);
    forall i | 0 <= i < |a.fields| && i < n && a.fields[i] != NULL
      ensures Forward(h, c'.order, a.fields[i]) == Forward(h, c.order, a.fields[i])
    {
      FindPrefix(h, c.order, c'.order, a.fields[i]);
    }
  }

  lemma {:induction false} MoveNew(h: seq<Cell>, c: Copy, p: int, c': Copy)
    requires Tidy(h) && Listing(h, c.order) && Listing(h, c'.order) && Head(h, p) && MovedOne(h, c, p, c')
    requires c.free == Total(h, c.order, |c.order|)
    ensures Placed(h, c', |c.order|, 0) && c'.free == Total(h, c'.order, |c'.order|)
  {
    TotalPrefix(h, c.order, c'.order, |c.order|);
    assert c'.order[|c.order|] == p;
  }

  lemma {:induction false} MoveStanding(h: seq<Cell>, roots: seq<int>, c: Copy, k: nat, n: nat, p: int, c': Copy,
                                        j: nat)
    requires Tidy(h) && Listing(h, c.order) && Listing(h, c'.order) && Head(h, p) && MovedOne(h, c, p, c')
    requires j < |c.order| && Standing(h, roots, c, k, n, j) && c.free == Total(h, c.order, |c.order|)
    ensures Standing(h, roots, c', k, n, j)
  {
    assert c'.order[j] == c.order[j];
    MovePlaced(h, c, p, c', j, Done(h, c.order, k, n, j));
  }

  lemma {:induction false} MoveStandingNew(h: seq<Cell>, roots: seq<int>, c: Copy, k: nat, n: nat, p: int, c': Copy)
    requires Tidy(h) && Listing(h, c.order) && Listing(h, c'.order) && Head(h, p) && MovedOne(h, c, p, c')
    requires Live(h, roots, p)
    requires c.free == Total(h, c.order, |c.order|) && (k < |c.order| || (k == |c.order| && n == 0))
    ensures Standing(h, roots, c', k, n, |c.order|)
  {
    assert c'.order[|c.order|] == p;
    MoveNew(h, c, p, c');
  }

  lemma {:induction false} MoveStandingAny(h: seq<Cell>, roots: seq<int>, c: Copy, k: nat, n: nat, p: int, c': Copy,
                                           j: nat)
    requires Tidy(h) && Listing(h, c.order) && Listing(h, c'.order) && Head(h, p) && MovedOne(h, c, p, c')
    requires Live(h, roots, p)
    requires c.free == Total(h, c.order, |c.order|) && (k < |c.order| || (k == |c.order| && n == 0))
    requires j < |c'.order| && (j < |c.order| ==> Standing(h, roots, c, k, n, j))
    ensures Standing(h, roots, c', k, n, j)
  {
    if j < |c.order| {
      MoveStanding(h, roots, c, k, n, p, c', j);
    } else {
      MoveStandingNew(h, roots, c, k, n, p, c');
    }
  }

  ghost predicate AllStanding(h: seq<Cell>, roots: seq<int>, c: Copy, k: nat, n: nat)
    requires Listing(h, c.order)
  {
    forall j :: 0 <= j < |c.order| ==> Standing(h, roots, c, k, n, j)
  }

  lemma {:induction false} MoveAllStanding(h: seq<Cell>, roots: seq<int>, c: Copy, k: nat, n: nat, p: int, c': Copy)
    requires Tidy(h) && Listing(h, c.order) && Listing(h, c'.order) && Head(h, p) && MovedOne(h, c, p, c')
    requires Live(h, roots, p)
    requires c.free == Total(h, c.order, |c.order|) && (k < |c.order| || (k == |c.order| && n == 0))
    requires AllStanding(h, roots, c, k, n)
    ensures AllStanding(h, roots, c', k, n)
  {
    forall j | 0 <= j < |c'.order|
      ensures Standing(h, roots, c', k, n, j)
    {
      MoveStandingAny(h, roots, c, k, n, p, c', j);
    }
  }

  /** Moving one more live object keeps the copy in order. */
  lemma {:induction false} MoveKeeps(h: seq<Cell>, roots: seq<int>, c: Copy, k: nat, n: nat, p: int, c': Copy)
    requires Copying(h, roots, c, k, n) && Head(h, p) && p !in c.order && Live(h, roots, p) && MovedOne(h, c, p, c')
    requires k < |c.order| || (k == |c.order| && n == 0)
    ensures Copying(h, roots, c', k, n)
  {
    MoreListed(h, c, p);
    MoveRecorded(h, c, p, c');
    MoveNew(h, c, p, c');
    MoveAllStanding(h, roots, c, k, n, p, c');
  }

  /** There is room for it. */
  lemma {:induction false} MoveFits(h: seq<Cell>, roots: seq<int>, c: Copy, k: nat, n: nat, p: int)
    requires Copying(h, roots, c, k, n) && Head(h, p) && p !in c.order
    ensures c.free + h[p].size <= c.size && 1 <= h[p].size && Listing(h, c.order + [p])
  {
    var order := c.order + [p];
    MoreListed(h, c, p);
    TotalPrefix(h, c.order, order, |c.order|);
    TotalFits(h, order);
    assert order[|c.order|] == p;
  }

  // --------------------------------------------------------------------- the algorithm

  /** The arrays hold the copy. */
  ghost predicate Shows(from: array<Cell>, to: array<Cell>, free: nat, c: Copy)
    reads from, to
  {
    from[..] == c.from && to[..] == c.to && free == c.free
  }

  /** The k-th object is being looked at, its first n pointers done. */
  ghost predicate At(h: seq<Cell>, roots: seq<int>, c: Copy, k: nat, n: nat) {
    Copying(h, roots, c, k, n) && (k < |c.order| || (k == |c.order| && n == 0))
  }

  lemma {:induction false} RecordAt(h: seq<Cell>, roots: seq<int>, c: Copy, k: nat, n: nat, p: int)
    requires At(h, roots, c, k, n) && Head(h, p)
    ensures p < |c.from| && if p in c.order then c.from[p] == Moved(Forward(h, c.order, p)) else c.from[p] == h[p]
  {
  }

  lemma {:induction false} ForwardNew(h: seq<Cell>, c: Copy, p: int, c': Copy)
    requires Listing(h, c.order) && Head(h, p) && p !in c.order && MovedOne(h, c, p, c')
    requires c.free == Total(h, c.order, |c.order|)
    ensures Listing(h, c'.order) && p in c'.order && Forward(h, c'.order, p) == c.free
  {
    MoreListed(h, c, p);
    assert c'.order[|c.order|] == p;
    TotalPrefix(h, c.order, c'.order, |c.order|);
  }

  /** Copies an object into place, pad by pad. */
  method Place(to: array<Cell>, at: nat, cell: Cell)
    requires cell.Obj? && 1 <= cell.size && at + cell.size <= to.Length
    modifies to
    ensures forall b :: 0 <= b < to.Length ==>
      to[b] == if b == at then cell else if at < b < at + cell.size then Pad else old(to[b])
  {
    to[at] := cell;
    for i := 1 to cell.size
      invariant forall b :: 0 <= b < to.Length ==>
        to[b] == if b == at then cell else if at < b < at + i then Pad else old(to[b])
    {
      to[at + i] := Pad;
    }
  }

  /** Moves an object that had not been moved. */
  method CopyObject(from: array<Cell>, to: array<Cell>, p: int, free: nat,
                    ghost h: seq<Cell>, ghost roots: seq<int>, ghost c: Copy, ghost k: nat, ghost n: nat)
    returns (free': nat, ghost c': Copy)
    requires from != to && Shows(from, to, free, c) && At(h, roots, c, k, n) && Head(h, p) && p !in c.order
    requires Live(h, roots, p)
    requires p < from.Length && from[p] == h[p]
    modifies from, to
    ensures Shows(from, to, free', c') && At(h, roots, c', k, n) && MovedOne(h, c, p, c')
  {
    MoveFits(h, roots, c, k, n, p);
    Place(to, free, from[p]);
    free' := free + from[p].size;
    from[p] := Moved(free);
    c' := c.(from := from[..], to := to[..], order := c.order + [p], free := free');
    MoveKeeps(h, roots, c, k, n, p, c');
  }

  /** moveto: where the object a pointer names is now, after moving it if it had not been. */
  method MoveTo(from: array<Cell>, to: array<Cell>, p: int, free: nat,
                ghost h: seq<Cell>, ghost roots: seq<int>, ghost c: Copy, ghost k: nat, ghost n: nat)
    returns (q: int, free': nat, ghost c': Copy)
    requires from != to && Shows(from, to, free, c) && At(h, roots, c, k, n) && Pointer(h, p)
    requires (p != NULL ==> Live(h, roots, p))
    modifies from, to
    ensures Shows(from, to, free', c') && At(h, roots, c', k, n) && Kept(c, c')
    ensures (p == NULL || p in c'.order) && q == Forward(h, c'.order, p)
  {
    if p == NULL { return NULL, free, c; }
    RecordAt(h, roots, c, k, n, p);
    assert from[p] == c.from[p];
    if from[p].Moved? { return from[p].to, free, c; }
    q := free;
    free', c' := CopyObject(from, to, p, free, h, roots, c, k, n);
    ForwardNew(h, c, p, c');
  }

  predicate Same(c: Copy, c': Copy) {
    c'.from0 == c.from0 && c'.to0 == c.to0 && c'.size == c.size
  }

  /** c' only adds to c. */
  ghost predicate Kept(c: Copy, c': Copy) {
    && c.order <= c'.order && |c'.to| == |c.to| && Same(c, c')
    && forall b :: 0 <= b < c.free && b < |c.to| ==> c'.to[b] == c.to[b]
  }

  // ------------------------------------------------------------------------- scanning

  /** c' is c with the n-th pointer of the object at `at` redirected. */
  predicate Redirected(c: Copy, at: nat, n: nat, q: int, c': Copy) {
    && at < |c.to| && c.to[at].Obj? && n < |c.to[at].fields|
    && c' == c.(to := c.to[at := c.to[at].(fields := c.to[at].fields[n := q])])
  }

  lemma {:induction false} OtherPlaced(h: seq<Cell>, c: Copy, j: nat, m: nat, at: nat, n: nat, q: int, c': Copy, k: nat)
    requires Tidy(h) && Listing(h, c.order) && j < |c.order| && k < |c.order| && j != k && at == Total(h, c.order, k)
    requires Placed(h, c, j, m) && Redirected(c, at, n, q, c')
    ensures Placed(h, c', j, m)
  {
    if j < k { TotalGrows(h, c.order, j, k); } else { TotalGrows(h, c.order, k, j); }
    assert Head(h, c.order[j]) && Head(h, c.order[k]);
  }

  lemma {:induction false} ThisPlaced(h: seq<Cell>, c: Copy, k: nat, at: nat, n: nat, q: int, c': Copy)
    requires Tidy(h) && Listing(h, c.order) && k < |c.order| && at == Total(h, c.order, k) && n < |h[c.order[k]].fields|
    requires Placed(h, c, k, n) && Redirected(c, at, n, q, c')
    requires var p := h[c.order[k]].fields[n]; (p == NULL || p in c.order) && q == Forward(h, c.order, p)
    ensures Placed(h, c', k, n + 1)
  {
  }

  lemma {:induction false} RedirectStanding(h: seq<Cell>, roots: seq<int>, c: Copy, k: nat, n: nat, at: nat, q: int,
                                            c': Copy, j: nat)
    requires Tidy(h) && Listing(h, c.order) && k < |c.order| && at == Total(h, c.order, k) && n < |h[c.order[k]].fields|
    requires Placed(h, c, k, n) && Redirected(c, at, n, q, c') && j < |c.order| && Standing(h, roots, c, k, n, j)
    requires var p := h[c.order[k]].fields[n]; (p == NULL || p in c.order) && q == Forward(h, c.order, p)
    ensures Standing(h, roots, c', k, n + 1, j)
  {
    if j == k {
      ThisPlaced(h, c, k, at, n, q, c');
    } else {
      OtherPlaced(h, c, j, Done(h, c.order, k, n, j), at, n, q, c', k);
    }
  }

  lemma {:induction false} RedirectAll(h: seq<Cell>, roots: seq<int>, c: Copy, k: nat, n: nat, m: nat, at: nat, q: int,
                                       c': Copy)
    requires Tidy(h) && Listing(h, c.order) && k < |c.order| && at == Total(h, c.order, k) && n < |h[c.order[k]].fields|
    requires m == n + 1
    requires Placed(h, c, k, n) && Redirected(c, at, n, q, c') && AllStanding(h, roots, c, k, n)
    requires var p := h[c.order[k]].fields[n]; (p == NULL || p in c.order) && q == Forward(h, c.order, p)
    ensures AllStanding(h, roots, c', k, m)
  {
    forall j | 0 <= j < |c'.order| ensures Standing(h, roots, c', k, m, j) {
      assert Standing(h, roots, c, k, n, j);
      RedirectStanding(h, roots, c, k, n, at, q, c', j);
    }
  }

  lemma {:induction false} RedirectInside(h: seq<Cell>, c: Copy, k: nat, at: nat)
    requires Tidy(h) && Listing(h, c.order) && k < |c.order| && at == Total(h, c.order, k) && |h| <= c.size
    ensures at < c.size
  {
    assert Head(h, c.order[k]);
    TotalGrows(h, c.order, k, |c.order|);
    TotalFits(h, c.order);
  }

  lemma {:induction false} RedirectKeeps(h: seq<Cell>, roots: seq<int>, c: Copy, k: nat, n: nat, m: nat, at: nat,
                                         q: int, c': Copy)
    requires At(h, roots, c, k, n) && k < |c.order| && at == Total(h, c.order, k) && n < |h[c.order[k]].fields|
    requires m == n + 1
    requires Redirected(c, at, n, q, c')
    requires var p := h[c.order[k]].fields[n]; (p == NULL || p in c.order) && q == Forward(h, c.order, p)
    ensures At(h, roots, c', k, m)
  {
    assert Standing(h, roots, c, k, n, k);
    RedirectInside(h, c, k, at);
    RedirectAll(h, roots, c, k, n, m, at, q, c');
    RedirectRecorded(h, c, at, n, q, c');
  }

  lemma {:induction false} RedirectRecorded(h: seq<Cell>, c: Copy, at: nat, n: nat, q: int, c': Copy)
    requires Listing(h, c.order) && Recorded(h, c) && Redirected(c, at, n, q, c')
    ensures Recorded(h, c')
  {
  }

  lemma {:induction false} ScanAt(h: seq<Cell>, roots: seq<int>, c: Copy, k: nat, n: nat)
    requires At(h, roots, c, k, n) && k < |c.order|
    ensures var at, a := Total(h, c.order, k), h[c.order[k]];
      && at < |c.to| && c.to[at].Obj? && c.to[at].size == a.size && |c.to[at].fields| == |a.fields|
      && at + a.size <= c.free && 1 <= a.size
      && (forall i :: n <= i < |a.fields| ==> c.to[at].fields[i] == a.fields[i] && Pointer(h, a.fields[i]))
      && (forall i :: 0 <= i < |a.fields| && a.fields[i] != NULL ==> Live(h, roots, a.fields[i]))
  {
    assert Standing(h, roots, c, k, n, k) && Head(h, c.order[k]);
    TotalGrows(h, c.order, k, |c.order|);
    var a := h[c.order[k]];
    forall i | 0 <= i < |a.fields| && a.fields[i] != NULL ensures Live(h, roots, a.fields[i]) {
      assert Pointer(h, a.fields[i]);
      LiveField(h, roots, c.order[k], a.fields[i]);
    }
  }

  lemma {:induction false} NextObject(h: seq<Cell>, roots: seq<int>, c: Copy, k: nat)
    requires k < |c.order| && Listing(h, c.order) && At(h, roots, c, k, |h[c.order[k]].fields|)
    ensures At(h, roots, c, k + 1, 0)
  {
    var next, all := k + 1, |h[c.order[k]].fields|;
    forall j | 0 <= j < |c.order| ensures Standing(h, roots, c, next, 0, j) { assert Standing(h, roots, c, k, all, j); }
  }

  /** descend, for one pointer of the object at `scan`. */
  method DescendField(from: array<Cell>, to: array<Cell>, scan: nat, i: nat, free: nat,
                      ghost h: seq<Cell>, ghost roots: seq<int>, ghost c0: Copy, ghost c: Copy, ghost k: nat,
                      ghost m: nat)
    returns (free': nat, ghost c': Copy)
    requires from != to && Shows(from, to, free, c) && At(h, roots, c, k, i) && Onwards(h, c0, c, k, scan)
    requires i < |h[c0.order[k]].fields| && m == i + 1
    modifies from, to
    ensures Shows(from, to, free', c') && At(h, roots, c', k, m) && Onwards(h, c0, c', k, scan)
    ensures Same(c, c')
  {
    OnwardsAt(h, c0, c, k, scan);
    ScanAt(h, roots, c, k, i);
    assert to[scan] == c.to[scan];
    var q, f, c1 := MoveTo(from, to, to[scan].fields[i], free, h, roots, c, k, i);
    assert c1.order[k] == c.order[k];
    TotalPrefix(h, c.order, c1.order, k);
    assert to[scan] == c1.to[scan];
    c' := c1.(to := c1.to[scan := c1.to[scan].(fields := c1.to[scan].fields[i := q])]);
    RedirectKeeps(h, roots, c1, k, i, m, scan, q, c');
    to[scan] := to[scan].(fields := to[scan].fields[i := q]);
    assert to[..] == c'.to;
    free' := f;
    assert c0.order <= c.order <= c1.order;
  }

  /** More objects have been moved since c0, and the k-th is still at `scan`. */
  predicate Onwards(h: seq<Cell>, c0: Copy, c: Copy, k: nat, scan: nat) {
    Listing(h, c.order) && c0.order <= c.order && k < |c0.order| && scan == Total(h, c.order, k)
  }

  lemma {:induction false} OnwardsAt(h: seq<Cell>, c0: Copy, c: Copy, k: nat, scan: nat)
    requires Onwards(h, c0, c, k, scan)
    ensures k < |c.order| && c.order[k] == c0.order[k]
  {
  }

  /** The first m roots are redirected. */
  predicate RootsMoved(h: seq<Cell>, order: seq<int>, roots: seq<int>, roots': seq<int>, m: nat)
    requires Listing(h, order)
  {
    && |roots'| == |roots|
    && (forall i :: 0 <= i < |roots| && i < m ==> (roots[i] == NULL || roots[i] in order) && roots'[i] == Forward(h,
        order, roots[i]))
    && (forall i :: m <= i < |roots| ==> roots'[i] == roots[i])
  }

  lemma {:induction false} RootsKept(h: seq<Cell>, order: seq<int>, order': seq<int>, roots: seq<int>, roots': seq<int>,
                                     m: nat)
    requires Listing(h, order') && order <= order' && Listing(h, order) && RootsMoved(h, order, roots, roots', m)
    ensures RootsMoved(h, order', roots, roots', m)
  {
    forall i | 0 <= i < |roots| && i < m && roots[i] != NULL
      ensures Forward(h, order', roots[i]) == Forward(h, order, roots[i]) && roots[i] in order'
    {
      FindPrefix(h, order, order', roots[i]);
    }
  }

  /** The copy: the live objects, each once, in a space of their own, with every pointer redirected. */
  ghost predicate Isomorphic(h: seq<Cell>, roots: seq<int>, order: seq<int>, t: seq<Cell>, roots': seq<int>) {
    && Listing(h, order) && (forall a :: a in order <==> Live(h, roots, a))
    && |t| == Total(h, order, |order|) <= |h|
    && (forall k :: 0 <= k < |order| ==> Image(h, order, t, k))
    && RootsMoved(h, order, roots, roots', |roots|)
  }

  /** The k-th object of the copy; which finalizer comes after it is not part of the graph. */
  predicate Image(h: seq<Cell>, order: seq<int>, t: seq<Cell>, k: nat)
    requires Listing(h, order) && k < |order|
  {
    var a, at := h[order[k]], Total(h, order, k);
    && at < |t| && at + a.size <= |t| && t[at].Obj? && t[at] == a.(fields := t[at].fields, next := t[at].next)
    && |t[at].fields| == |a.fields|
    && (forall b :: at < b < at + a.size ==> t[b].Pad?)
    && forall i :: 0 <= i < |a.fields| ==>
         (a.fields[i] == NULL || a.fields[i] in order) && t[at].fields[i] == Forward(h, order, a.fields[i])
  }

  /** Different objects have different copies: sharing is kept, and none is made. */
  lemma {:induction false} ForwardInjective(h: seq<Cell>, order: seq<int>, a: int, b: int)
    requires Tidy(h) && Listing(h, order) && a in order && b in order && a != b
    ensures Forward(h, order, a) != Forward(h, order, b)
  {
    var i, j := Find(order, a), Find(order, b);
    if i < j { TotalGrows(h, order, i, j); } else { TotalGrows(h, order, j, i); }
  }

  /** Every object start in the copy is the image of an object. */
  lemma {:induction false} OnlyImages(h: seq<Cell>, order: seq<int>, t: seq<Cell>, k: nat, x: int)
    requires Tidy(h) && Listing(h, order) && k <= |order| && Head(t, x) && x < Total(h, order, k)
    requires forall j :: 0 <= j < |order| ==> Image(h, order, t, j)
    ensures exists j :: 0 <= j < k && Total(h, order, j) == x
    decreases k
  {
    var at := Total(h, order, k - 1);
    assert Image(h, order, t, k - 1);
    if x < at { OnlyImages(h, order, t, k - 1, x); }
  }

  lemma {:induction false} CopyTidy(h: seq<Cell>, roots: seq<int>, order: seq<int>, t: seq<Cell>, roots': seq<int>)
    requires Tidy(h) && Isomorphic(h, roots, order, t, roots')
    ensures Tidy(t)
  {
    forall x | Head(t, x)
      ensures 1 <= t[x].size && x + t[x].size <= |t| && (forall b :: x < b < x + t[x].size ==> t[b].Pad?)
      ensures forall i :: 0 <= i < |t[x].fields| ==> Pointer(t, t[x].fields[i])
    {
      OnlyImages(h, order, t, |order|, x);
      var j :| 0 <= j < |order| && Total(h, order, j) == x;
      assert Image(h, order, t, j) && Head(h, order[j]);
      forall i | 0 <= i < |t[x].fields| ensures Pointer(t, t[x].fields[i]) {
        ForwardHead(h, order, t, h[order[j]].fields[i]);
      }
    }
  }

  lemma {:induction false} ForwardHead(h: seq<Cell>, order: seq<int>, t: seq<Cell>, p: int)
    requires Listing(h, order) && (p == NULL || p in order) && forall j :: 0 <= j < |order| ==> Image(h, order, t, j)
    ensures Pointer(t, Forward(h, order, p))
  {
    if p != NULL { assert Image(h, order, t, Find(order, p)); }
  }

  lemma {:induction false} AllLiveMoved(h: seq<Cell>, roots: seq<int>, c: Copy, roots': seq<int>)
    requires At(h, roots, c, |c.order|, 0) && RootsMoved(h, c.order, roots, roots', |roots|)
    ensures forall a :: a in c.order <==> Live(h, roots, a)
  {
    forall b, p | b in c.order && Head(h, b) && p in h[b].fields && p != NULL ensures p in c.order {
      var j := Find(c.order, b);
      assert Standing(h, roots, c, |c.order|, 0, j);
      var i :| 0 <= i < |h[b].fields| && h[b].fields[i] == p;
    }
    forall p | p in roots && p != NULL ensures p in c.order {
      var i :| 0 <= i < |roots| && roots[i] == p;
    }
    forall a ensures a in c.order <==> Live(h, roots, a) {
      if a in c.order { assert Standing(h, roots, c, |c.order|, 0, Find(c.order, a)); }
      if Live(h, roots, a) {
        var k: nat :| ReachedIn(h, roots, a, k);
        LiveIn(h, roots, c.order, a, k);
      }
    }
  }

  lemma {:induction false} CopyDone(h: seq<Cell>, roots: seq<int>, c: Copy, roots': seq<int>, t: seq<Cell>)
    requires At(h, roots, c, |c.order|, 0) && RootsMoved(h, c.order, roots, roots', |roots|) && c.free <= |c.to|
    requires t == c.to[..c.free]
    ensures Isomorphic(h, roots, c.order, t, roots')
  {
    AllLiveMoved(h, roots, c, roots');
    TotalFits(h, c.order);
    forall k | 0 <= k < |c.order| ensures Image(h, c.order, t, k) {
      assert Standing(h, roots, c, |c.order|, 0, k);
      ImageAt(h, c, k, t);
    }
  }

  lemma {:induction false} ImageAt(h: seq<Cell>, c: Copy, k: nat, t: seq<Cell>)
    requires Tidy(h) && Listing(h, c.order) && k < |c.order| && Placed(h, c, k, |h[c.order[k]].fields|)
    requires c.free == Total(h, c.order, |c.order|) <= |c.to| && t == c.to[..c.free]
    ensures Image(h, c.order, t, k)
  {
    TotalGrows(h, c.order, k, |c.order|);
    assert Head(h, c.order[k]);
    var at := Total(h, c.order, k);
    assert t[at] == c.to[at];
  }

  // ------------------------------------------------------------------ roots, then scan

  method MoveRoots(from: array<Cell>, to: array<Cell>, roots: array<int>, ghost h: seq<Cell>, ghost rs: seq<int>,
                   ghost c0: Copy)
    returns (free: nat, ghost c: Copy)
    requires from != to && Shows(from, to, 0, c0) && At(h, rs, c0, 0, 0) && roots[..] == rs && c0.order == []
    requires forall i :: 0 <= i < |rs| ==> Pointer(h, rs[i])
    modifies from, to, roots
    ensures Shows(from, to, free, c) && At(h, rs, c, 0, 0) && RootsMoved(h, c.order, rs, roots[..], |rs|)
    ensures Same(c0, c)
  {
    free, c := 0, c0;
    for i := 0 to roots.Length
      invariant roots.Length == |rs| && Shows(from, to, free, c) && At(h, rs, c, 0, 0)
      invariant RootsMoved(h, c.order, rs, roots[..], i)
      invariant Same(c0, c)
    {
      free, c := MoveRoot(from, to, roots, i, free, h, rs, c0, c);
    }
  }

  method MoveRoot(from: array<Cell>, to: array<Cell>, roots: array<int>, i: nat, free0: nat,
                  ghost h: seq<Cell>, ghost rs: seq<int>, ghost c0: Copy, ghost c1: Copy)
    returns (free: nat, ghost c: Copy)
    requires from != to && i < roots.Length == |rs| && Shows(from, to, free0, c1) && At(h, rs, c1, 0, 0)
    requires Pointer(h, rs[i])
    requires RootsMoved(h, c1.order, rs, roots[..], i) && Same(c0, c1)
    modifies from, to, roots
    ensures Shows(from, to, free, c) && At(h, rs, c, 0, 0) && RootsMoved(h, c.order, rs, roots[..], i + 1)
    ensures Same(c0, c)
  {
    ghost var was := roots[..];
    assert roots[i] == was[i] == rs[i];
    assert rs[i] != NULL ==> rs[i] in rs && ReachedIn(h, rs, rs[i], 0);
    var q;
    q, free, c := MoveTo(from, to, roots[i], free0, h, rs, c1, 0, 0);
    roots[i] := q;
    assert roots[..] == was[i := q];
    RootsStep(h, c1.order, c.order, rs, was, i, q, roots[..]);
  }

  lemma {:induction false} RootsStep(h: seq<Cell>, order: seq<int>, order': seq<int>, rs: seq<int>, was: seq<int>,
                                     i: nat, q: int, now: seq<int>)
    requires Listing(h, order) && Listing(h, order') && order <= order' && RootsMoved(h, order, rs, was, i)
    requires i < |rs| && (rs[i] == NULL || rs[i] in order') && q == Forward(h, order', rs[i]) && now == was[i := q]
    ensures RootsMoved(h, order', rs, now, i + 1)
  {
    RootsKept(h, order, order', rs, was, i);
  }

  method DescendFields(from: array<Cell>, to: array<Cell>, scan: nat, count: nat, free0: nat,
                       ghost h: seq<Cell>, ghost rs: seq<int>, ghost c0: Copy, ghost k: nat)
    returns (free: nat, ghost c: Copy)
    requires from != to && Shows(from, to, free0, c0) && At(h, rs, c0, k, 0) && Onwards(h, c0, c0, k, scan)
    requires count == |h[c0.order[k]].fields|
    modifies from, to
    ensures Shows(from, to, free, c) && At(h, rs, c, k, count) && Onwards(h, c0, c, k, scan)
    ensures Same(c0, c)
  {
    free, c := free0, c0;
    for i := 0 to count
      invariant Shows(from, to, free, c) && At(h, rs, c, k, i) && Onwards(h, c0, c, k, scan)
      invariant Same(c0, c)
    {
      free, c := DescendField(from, to, scan, i, free, h, rs, c0, c, k, i + 1);
    }
  }

  /** The first k objects are done with; the next starts at `scan`. */
  ghost predicate Scanning(h: seq<Cell>, roots: seq<int>, c0: Copy, c: Copy, k: nat, scan: nat) {
    At(h, roots, c, k, 0) && c0.order <= c.order && Same(c0, c) && scan == Total(h, c.order, k)
  }

  lemma {:induction false} ScanningOn(h: seq<Cell>, roots: seq<int>, c0: Copy, c: Copy, k: nat, scan: nat, c': Copy,
                                      count: nat, size: nat)
    requires Scanning(h, roots, c0, c, k, scan) && k < |c.order| && count == |h[c.order[k]].fields|
    requires size == h[c.order[k]].size
    requires At(h, roots, c', k, count) && Onwards(h, c, c', k, scan) && Same(c, c')
    ensures Scanning(h, roots, c0, c', k + 1, scan + size) && 0 < size
  {
    OnwardsAt(h, c, c', k, scan);
    assert Head(h, c.order[k]);
    NextObject(h, roots, c', k);
    assert c0.order <= c.order <= c'.order;
  }

  /** descend: redirects the pointers of the object at `scan`; the next object starts at `end`. */
  method Descend(from: array<Cell>, to: array<Cell>, scan: nat, free0: nat,
                 ghost h: seq<Cell>, ghost rs: seq<int>, ghost c0: Copy, ghost c1: Copy, ghost k: nat)
    returns (end: nat, free: nat, ghost c: Copy)
    requires from != to && Shows(from, to, free0, c1) && Scanning(h, rs, c0, c1, k, scan) && k < |c1.order|
    modifies from, to
    ensures Shows(from, to, free, c) && Scanning(h, rs, c0, c, k + 1, end) && scan < end
  {
    ScanAt(h, rs, c1, k, 0);
    assert to[scan] == c1.to[scan];
    var size, count := to[scan].size, |to[scan].fields|;
    free, c := DescendFields(from, to, scan, count, free0, h, rs, c1, k);
    ScanningOn(h, rs, c0, c1, k, scan, c, count, size);
    end := scan + size;
  }

  method Scan(from: array<Cell>, to: array<Cell>, free0: nat, ghost h: seq<Cell>, ghost rs: seq<int>, ghost c0: Copy)
    returns (free: nat, ghost c: Copy)
    requires from != to && Shows(from, to, free0, c0) && At(h, rs, c0, 0, 0)
    modifies from, to
    ensures Shows(from, to, free, c) && At(h, rs, c, |c.order|, 0) && c0.order <= c.order && Same(c0, c)
  {
    free, c := free0, c0;
    var scan := 0;
    ghost var k := 0;
    while scan != free
      invariant Shows(from, to, free, c) && Scanning(h, rs, c0, c, k, scan)
      decreases |h| - scan
    {
      ScanBound(h, rs, c0, c, k, scan);
      scan, free, c := Descend(from, to, scan, free, h, rs, c0, c, k);
      k := k + 1;
    }
    ScanEnds(h, rs, c0, c, k, scan);
  }

  lemma {:induction false} ScanBound(h: seq<Cell>, roots: seq<int>, c0: Copy, c: Copy, k: nat, scan: nat)
    requires Scanning(h, roots, c0, c, k, scan) && scan != c.free
    ensures k < |c.order| && scan < |h|
  {
    TotalFits(h, c.order);
    TotalGrows(h, c.order, k, |c.order|);
  }

  lemma {:induction false} ScanEnds(h: seq<Cell>, roots: seq<int>, c0: Copy, c: Copy, k: nat, scan: nat)
    requires Scanning(h, roots, c0, c, k, scan) && scan == c.free
    ensures k == |c.order|
  {
    TotalGrows(h, c.order, k, |c.order|);
  }

  lemma {:induction false} CopyBegins(h: seq<Cell>, roots: seq<int>, from: seq<Cell>, to: seq<Cell>, size: nat)
    requires Tidy(h) && h <= from && |h| <= size <= |to|
    ensures At(h, roots, Copy(from, to, [], 0, from, to, size), 0, 0)
  {
  }

  /** The move phase of Heap::GC, from the first `used` pads of one space to the first `size` of the other. */
  method Evacuate(from: array<Cell>, used: nat, to: array<Cell>, size: nat, roots: array<int>)
    returns (free: nat, ghost c: Copy)
    requires from != to && used <= from.Length && used <= size <= to.Length && Tidy(from[..used])
    requires forall i :: 0 <= i < roots.Length ==> Pointer(from[..used], roots[i])
    modifies from, to, roots
    ensures Shows(from, to, free, c) && At(old(from[..used]), old(roots[..]), c, |c.order|, 0) && free <= used
    ensures c.from0 == old(from[..]) && c.to0 == old(to[..]) && c.size == size
    ensures Isomorphic(old(from[..used]), old(roots[..]), c.order, to[..free], roots[..])
  {
    ghost var h, rs := from[..used], roots[..];
    CopyBegins(h, rs, from[..], to[..], size);
    c := Copy(from[..], to[..], [], 0, from[..], to[..], size);
    free, c := MoveRoots(from, to, roots, h, rs, c);
    ghost var moved := c;
    free, c := Scan(from, to, free, h, rs, c);
    RootsKept(h, moved.order, c.order, rs, roots[..], |rs|);
    TotalFits(h, c.order);
    CopyDone(h, rs, c, roots[..], to[..free]);
  }
}
