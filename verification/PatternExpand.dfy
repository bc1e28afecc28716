/** expand_patterns as it works: the pattern list is changed in place for every branch of
    a switch, handed on, and changed back.
 */
module PatternExpand {
  import opened Patterns
  import opened Sequences

  datatype Item = Item(ref: Ref, uses: nat)

  class PatternList {
    /** The prototype, whose index is the next free name, and then the patterns. */
    var items: seq<Item>

    constructor (items: seq<Item>)
      ensures this.items == items
    {
      this.items := items;
    }
  }

  function Refs(items: seq<Item>): (r: seq<Ref>)
    ensures |r| == |items| && forall i :: 0 <= i < |items| ==> r[i] == items[i].ref
  {
    seq(|items|, i requires 0 <= i < |items| => items[i].ref)
  }

  predicate DistinctIndices(ps: seq<Ref>) {
    && (forall i :: 0 <= i < |ps| ==> ps[i].index >= 0)
    && (forall i, j :: 0 <= i < j < |ps| ==> ps[i].index != ps[j].index)
  }

  predicate ListOk(items: seq<Ref>) {
    items != [] && items[0].index >= 0 && Ready(items[0].tree, Tail(items)) && DistinctIndices(Tail(items))
  }

  function CompileList(items: seq<Ref>, mode: Mode): Compiled
    requires ListOk(items)
  {
    Compile(items[0].tree, items[0].index, Tail(items), mode)
  }

  /** The i-th item once a tree has been compiled from the list: its uses counted, and the
      prototype's next name moved on. */
  function Counted(items: seq<Item>, t: Tree, next: nat, i: nat): Item
    requires i < |items|
  {
    if i == 0 then Item(items[0].ref.(index := next), items[0].uses + Uses(t, PROTOTYPE))
    else items[i].(uses := items[i].uses + Uses(t, items[i].ref.index))
  }

  /** The same patterns in the same order. */
  predicate Spent(items: seq<Item>, t: Tree, next: nat, items': seq<Item>) {
    |items'| == |items| && forall i :: 0 <= i < |items| ==> items'[i] == Counted(items, t, next, i)
  }

  // ------------------------------------------------------------------- one bucket

  predicate Openable(items: seq<Item>, steps: Steps) {
    && items != [] && items[0].ref.index >= 0
    && (forall i :: 0 <= i < |items| ==> Leads(items[i].ref.tree, steps)) && At(items[0].ref.tree, steps).Any?
  }

  function Opened(p: Item, steps: Steps, sum: Sum, c: nat, kids: seq<Pat>): Item
    requires Leads(p.ref.tree, steps)
  {
    p.(ref := p.ref.(tree := Put(p.ref.tree, steps, Con(At(p.ref.tree, steps).name, sum, c, kids))))
  }

  /** What the i-th item contributes to the bucket of constructor c. */
  function Entry(items: seq<Item>, i: nat, steps: Steps, sum: Sum, c: nat): seq<Item>
    requires i < |items| && Openable(items, steps) && c < |sum.arities|
  {
    var p, first, n := items[i], items[0].ref.index, sum.arities[c];
    var t := At(p.ref.tree, steps);
    if i == 0 then
      var q := Opened(p, steps, sum, c, Names(first, n));
      [q.(ref := q.ref.(index := first + n))]
    else if t.Any? then [Opened(p, steps, sum, c, Wild(n))]
    else if t.cons == c then [p]
    else []
  }

  function Entries(items: seq<Item>, n: nat, steps: Steps, sum: Sum, c: nat): seq<Item>
    requires n <= |items| && Openable(items, steps) && c < |sum.arities|
  {
    if n == 0 then [] else Entries(items, n - 1, steps, sum, c) + Entry(items, n - 1, steps, sum, c)
  }

  /** The patterns among the first n items, which the prototype leads. */
  function Listed(items: seq<Item>, n: nat): (r: seq<Ref>)
    requires 0 < n <= |items|
    ensures |r| == n - 1 && forall i :: 0 <= i < n - 1 ==> r[i] == items[i + 1].ref
  {
    seq(n - 1, i requires 0 <= i < n - 1 => items[i + 1].ref)
  }

  /** The bucket is a prototype and the patterns of the constructor. */
  lemma {:induction false} EntriesAre(items: seq<Item>, n: nat, steps: Steps, sum: Sum, c: nat)
    requires 0 < n <= |items| && Openable(items, steps) && c < |sum.arities|
    ensures var e := Entries(items, n, steps, sum, c);
      e != [] && [e[0]] == Entry(items, 0, steps, sum, c) && Refs(Tail(e)) == Bucket(Listed(items, n), steps, sum, c)
    decreases n
  {
    if n > 1 {
      var k := n - 1;
      EntriesAre(items, k, steps, sum, c);
      EntriesNext(items, k, n, steps, sum, c, Entries(items, k, steps, sum, c), Entry(items, k, steps, sum, c));
    } else {
      var none: seq<Item> := [];
      assert none + Entry(items, 0, steps, sum, c) == Entry(items, 0, steps, sum, c);
    }
  }

  lemma {:induction false} EntriesNext(items: seq<Item>, k: nat, n: nat, steps: Steps, sum: Sum, c: nat, e: seq<Item>,
                                       q: seq<Item>)
    requires 0 < k < |items| && n == k + 1 && Openable(items, steps) && c < |sum.arities| && e != []
    requires q == Entry(items, k, steps, sum, c)
    requires Refs(Tail(e)) == Bucket(Listed(items, k), steps, sum, c)
    ensures Refs(Tail(e + q)) == Bucket(Listed(items, n), steps, sum, c)
  {
    var p := items[k].ref;
    EntryRefs(items, k, steps, sum, c, p, q);
    TailCat(e, q, e + q);
    RefsCat(Tail(e), q, Tail(e + q));
    ListedSnoc(items, k, n, p);
    BucketSnoc(Listed(items, k), p, Listed(items, n), steps, sum, c);
  }

  lemma {:induction false} EntryRefs(items: seq<Item>, k: nat, steps: Steps, sum: Sum, c: nat, p: Ref, q: seq<Item>)
    requires 0 < k < |items| && Openable(items, steps) && c < |sum.arities|
    requires p == items[k].ref && q == Entry(items, k, steps, sum, c)
    ensures Leads(p.tree, steps) && Refs(q) == Chosen(p, steps, sum, c)
  {
  }

  lemma {:induction false} RefsCat(s: seq<Item>, t: seq<Item>, u: seq<Item>)
    requires u == s + t
    ensures Refs(u) == Refs(s) + Refs(t)
  {
  }

  lemma {:induction false} ListedSnoc(items: seq<Item>, k: nat, n: nat, p: Ref)
    requires 0 < k < |items| && n == k + 1 && p == items[k].ref
    ensures Listed(items, n) == Listed(items, k) + [p]
  {
  }

  lemma {:induction false} EntriesPrefix(items: seq<Item>, i: nat, n: nat, steps: Steps, sum: Sum, c: nat)
    requires i <= n <= |items| && Openable(items, steps) && c < |sum.arities|
    ensures Entries(items, i, steps, sum, c) <= Entries(items, n, steps, sum, c)
    decreases n
  {
    if i < n { EntriesPrefix(items, i, n - 1, steps, sum, c); }
  }

  /** An item that was moved out, marked by its index. */
  function Marked(p: Item, steps: Steps, c: nat): Item
    requires Leads(p.ref.tree, steps)
  {
    var t := At(p.ref.tree, steps);
    if t.Any? then p.(ref := p.ref.(index := -1)) else if t.cons == c then p.(ref := p.ref.(index := -2)) else p
  }

  predicate OneType(items: seq<Item>, steps: Steps, sum: Sum)
    requires Openable(items, steps)
  {
    forall i :: 0 <= i < |items| ==> At(items[i].ref.tree, steps).Con? ==> At(items[i].ref.tree, steps).sum == sum
  }

  predicate AllMarked(items: seq<Item>, steps: Steps, c: nat, items': seq<Item>)
    requires Openable(items, steps)
  {
    |items'| == |items| && forall i :: 0 <= i < |items| ==> items'[i] == Marked(items[i], steps, c)
  }

  /** Moves the patterns of constructor c into a bucket, opening the ones that leave it open. */
  method FillBucket(list: PatternList, steps: Steps, sum: Sum, c: nat) returns (ok: bool, bucket: PatternList)
    requires Openable(list.items, steps) && c < |sum.arities|
    modifies list
    ensures fresh(bucket) && |list.items| == |old(list.items)| && (ok <==> OneType(old(list.items), steps, sum))
    ensures ok ==> bucket.items == Entries(old(list.items), |old(list.items)|, steps, sum, c)
    ensures ok ==> AllMarked(old(list.items), steps, c, list.items)
  {
    ghost var items := list.items;
    bucket := new PatternList([]);
    var first := list.items[0].ref.index;
    for i := 0 to |list.items|
      invariant FilledTo(items, steps, sum, c, i, list.items, bucket.items)
    {
      var p := list.items[i];
      var t := At(p.ref.tree, steps);
      if t.Con? && t.sum != sum { return false, bucket; }
      ghost var now, filled := list.items, bucket.items;
      if t.Any? {
        var q := Opened(p, steps, sum, c, if i == 0 then Names(first, sum.arities[c]) else Wild(sum.arities[c]));
        if i == 0 { q := q.(ref := q.ref.(index := first + sum.arities[c])); }
        bucket.items := bucket.items + [q];
        list.items := list.items[i := p.(ref := p.ref.(index := -1))];
      } else if t.cons == c {
        bucket.items := bucket.items + [p];
        list.items := list.items[i := p.(ref := p.ref.(index := -2))];
      }
      FilledNext(items, steps, sum, c, i, now, filled, list.items, bucket.items);
    }
    ok := true;
  }

  /** The first i items are marked, their entries are in the bucket, and all are of one type. */
  predicate FilledTo(items: seq<Item>, steps: Steps, sum: Sum, c: nat, i: nat, now: seq<Item>, filled: seq<Item>)
    requires i <= |items| && Openable(items, steps) && c < |sum.arities|
  {
    && |now| == |items| && filled == Entries(items, i, steps, sum, c)
    && (forall j :: 0 <= j < |items| ==> now[j] == if j < i then Marked(items[j], steps, c) else items[j])
    && (forall j :: 0 <= j < i ==> At(items[j].ref.tree, steps).Con? ==> At(items[j].ref.tree, steps).sum == sum)
  }

  lemma {:induction false} FilledNext(items: seq<Item>, steps: Steps, sum: Sum, c: nat, i: nat,
                                      now: seq<Item>, filled: seq<Item>, now': seq<Item>, filled': seq<Item>)
    requires i < |items| && Openable(items, steps) && c < |sum.arities|
    requires FilledTo(items, steps, sum, c, i, now, filled)
    requires At(items[i].ref.tree, steps).Con? ==> At(items[i].ref.tree, steps).sum == sum
    requires now' == now[i := Marked(items[i], steps, c)] && filled' == filled + Entry(items, i, steps, sum, c)
    ensures FilledTo(items, steps, sum, c, i + 1, now', filled')
  {
  }

  // --------------------------------------------------------------------- and back

  lemma {:induction false} PutPut(p: Pat, steps: Steps, x: Pat, y: Pat)
    requires Leads(p, steps)
    ensures Leads(Put(p, steps, x), steps) && Put(Put(p, steps, x), steps, y) == Put(p, steps, y)
    decreases steps
  {
    if steps.Down? {
      PutPut(p.children[steps.head], steps.tail, x, y);
      assert p.children[steps.head := Put(p.children[steps.head], steps.tail,
                                          x)][steps.head := Put(p.children[steps.head], steps.tail, y)]
          == p.children[steps.head := Put(p.children[steps.head], steps.tail, y)];
    }
  }

  function Closed(p: Item, steps: Steps): Item
    requires Leads(p.ref.tree, steps)
  {
    p.(ref := p.ref.(tree := Put(p.ref.tree, steps, Any(At(p.ref.tree, steps).name))))
  }

  /** Closing a position again gives back the item it was opened in. */
  lemma {:induction false} CloseOpened(p: Item, steps: Steps, sum: Sum, c: nat, kids: seq<Pat>)
    requires Leads(p.ref.tree, steps) && At(p.ref.tree, steps).Any?
    ensures var q := Opened(p, steps, sum, c, kids); Leads(q.ref.tree, steps) && Closed(q, steps) == p
  {
    var x := Con(At(p.ref.tree, steps).name, sum, c, kids);
    PutLeads(p.ref.tree, steps, x);
    PutPut(p.ref.tree, steps, x, At(p.ref.tree, steps));
    PutAt(p.ref.tree, steps);
  }

  /** The entry the i-th item was moved to, once the bucket has been compiled. */
  lemma {:induction false} EntryBack(items: seq<Item>, i: nat, steps: Steps, sum: Sum, c: nat, t: Tree, next: nat,
                                     b: seq<Item>)
    requires i < |items| && Openable(items, steps) && c < |sum.arities|
    requires Spent(Entries(items, |items|, steps, sum, c), t, next, b) && Entry(items, i, steps, sum, c) != []
    ensures var k, e, q := |Entries(items, i, steps, sum, c)|, Entry(items, i, steps, sum, c)[0], Counted(items, t,
                                                                                                          next, i);
      k + 1 == |Entries(items, i + 1, steps, sum, c)| <= |b| && b[k] == q.(ref := q.ref.(tree := e.ref.tree))
  {
    var all, k := Entries(items, |items|, steps, sum, c), |Entries(items, i, steps, sum, c)|;
    EntriesPrefix(items, i + 1, |items|, steps, sum, c);
    if i > 0 {
      EntriesPrefix(items, 1, i, steps, sum, c);
      assert k > 0;
    }
    assert all[k] == Entry(items, i, steps, sum, c)[0];
  }

  /** What comes back for the i-th item is that item, counted. */
  lemma {:induction false} ItemBack(items: seq<Item>, i: nat, steps: Steps, sum: Sum, c: nat, t: Tree, next: nat,
                                    b: seq<Item>)
    requires i < |items| && Openable(items, steps) && c < |sum.arities|
    requires Spent(Entries(items, |items|, steps, sum, c), t, next, b)
    ensures var k, k' := |Entries(items, i, steps, sum, c)|, |Entries(items, i + 1, steps, sum, c)|;
      var m := At(items[i].ref.tree, steps);
      && k <= k' <= |b|
      && (m.Any? ==> k' == k + 1 && Leads(b[k].ref.tree, steps) && Closed(b[k], steps) == Counted(items, t, next, i))
      && (m.Con? && m.cons == c ==> k' == k + 1 && b[k] == Counted(items, t, next, i))
      && (m.Con? && m.cons != c ==> k' == k)
  {
    var m, n := At(items[i].ref.tree, steps), sum.arities[c];
    EntriesPrefix(items, i + 1, |items|, steps, sum, c);
    if Entry(items, i, steps, sum, c) != [] { EntryBack(items, i, steps, sum, c, t, next, b); }
    if m.Any? { CloseOpened(items[i], steps, sum, c, if i == 0 then Names(items[0].ref.index, n) else Wild(n)); }
  }

  /** From the i-th on the items are back, and the bucket holds what the ones before it gave. */
  predicate BackFrom(items: seq<Item>, steps: Steps, sum: Sum, c: nat, t: Tree, next: nat, b: seq<Item>, i: nat,
                     now: seq<Item>, left: seq<Item>)
    requires i <= |items| && Openable(items, steps) && c < |sum.arities|
  {
    && |now| == |items| && |left| == |Entries(items, i, steps, sum, c)| <= |b|
    && (forall j :: 0 <= j < |left| ==> left[j] == b[j])
    && (forall j :: 0 <= j < i ==> now[j] == Marked(items[j], steps, c))
    && (forall j :: i <= j < |items| ==> now[j] == Counted(items, t, next, j))
  }

  /** What the i-th step puts back, and whether the bucket gives it. */
  predicate StepBack(items: seq<Item>, steps: Steps, c: nat, i: nat, now: seq<Item>, left: seq<Item>, now': seq<Item>,
                     left': seq<Item>)
    requires i < |items| == |now|
  {
    if now[i].ref.index == -1 then
      && left != [] && Leads(left[|left| - 1].ref.tree, steps)
      && now' == now[i := Closed(left[|left| - 1], steps)] && |left'| == |left| - 1 && left' <= left
    else if now[i].ref.index == -2 then
      left != [] && now' == now[i := left[|left| - 1]] && |left'| == |left| - 1 && left' <= left
    else
      now' == now && left' == left
  }

  /** The bucket has what the i-th step needs. */
  lemma {:induction false} BackHas(items: seq<Item>, steps: Steps, sum: Sum, c: nat, t: Tree, next: nat, b: seq<Item>,
                                   i: nat, now: seq<Item>, left: seq<Item>)
    requires i < |items| && Openable(items, steps) && c < |sum.arities|
    requires Spent(Entries(items, |items|, steps, sum, c), t, next, b)
    requires BackFrom(items, steps, sum, c, t, next, b, i + 1, now, left) && (i > 0 ==> items[i].ref.index >= 0)
    ensures now[i].ref.index < 0 ==> left != []
    ensures now[i].ref.index == -1 ==> Leads(left[|left| - 1].ref.tree, steps)
  {
    ItemBack(items, i, steps, sum, c, t, next, b);
  }

  lemma {:induction false} BackNext(items: seq<Item>, steps: Steps, sum: Sum, c: nat, t: Tree, next: nat, b: seq<Item>,
                                    i: nat,
                                    now: seq<Item>, left: seq<Item>, now': seq<Item>, left': seq<Item>)
    requires i < |items| && Openable(items, steps) && c < |sum.arities|
    requires Spent(Entries(items, |items|, steps, sum, c), t, next, b)
    requires BackFrom(items, steps, sum, c, t, next, b, i + 1, now, left)
    requires StepBack(items, steps, c, i, now, left, now', left')
    requires i > 0 ==>
      items[i].ref.index >= 0 && (Entry(items, i, steps, sum, c) == [] ==> Uses(t, items[i].ref.index) == 0)
    ensures BackFrom(items, steps, sum, c, t, next, b, i, now', left')
  {
    ItemBack(items, i, steps, sum, c, t, next, b);
  }

  /** Moves the bucket's patterns back, last first, closing the ones that were opened. */
  method Restore(list: PatternList, bucket: PatternList, steps: Steps,
                 ghost items: seq<Item>, ghost sum: Sum, ghost c: nat, ghost t: Tree, ghost next: nat)
    requires list != bucket && Openable(items, steps) && c < |sum.arities| && AllMarked(items, steps, c, list.items)
    requires DistinctIndices(Tail(Refs(items))) && Spent(Entries(items, |items|, steps, sum, c), t, next, bucket.items)
    requires Unreached(items, steps, sum, c, t)
    modifies list, bucket
    ensures Spent(items, t, next, list.items)
  {
    ghost var b := bucket.items;
    for i := |list.items| downto 0
      invariant BackFrom(items, steps, sum, c, t, next, b, i, list.items, bucket.items)
    {
      ghost var now, left := list.items, bucket.items;
      assert i > 0 ==> items[i].ref == Tail(Refs(items))[i - 1];
      BackHas(items, steps, sum, c, t, next, b, i, now, left);
      if list.items[i].ref.index == -1 {
        var p := bucket.items[|bucket.items| - 1];
        bucket.items := bucket.items[..|bucket.items| - 1];
        list.items := list.items[i := Closed(p, steps)];
      } else if list.items[i].ref.index == -2 {
        var p := bucket.items[|bucket.items| - 1];
        bucket.items := bucket.items[..|bucket.items| - 1];
        list.items := list.items[i := p];
      }
      BackNext(items, steps, sum, c, t, next, b, i, now, left, list.items, bucket.items);
    }
  }

  /** The tree of a branch does not use the patterns left out of it. */
  predicate Unreached(items: seq<Item>, steps: Steps, sum: Sum, c: nat, t: Tree)
    requires Openable(items, steps) && c < |sum.arities|
  {
    forall i :: 0 < i < |items| && Entry(items, i, steps, sum, c) == [] ==> Uses(t, items[i].ref.index) == 0
  }

  // -------------------------------------------------------------- the whole expansion

  /** Compiling leaves the patterns themselves as they were. */
  lemma {:induction false} SpentKeeps(items: seq<Item>, t: Tree, next: nat, items': seq<Item>)
    requires items != [] && Spent(items, t, next, items')
    ensures Tail(Refs(items')) == Tail(Refs(items)) && items'[0].ref == items[0].ref.(index := next)
  {
    assert forall i :: 1 <= i < |items| ==> items'[i].ref == items[i].ref;
  }

  lemma {:induction false} SpentTwice(items: seq<Item>, t: Tree, next: nat, items1: seq<Item>, t': Tree, next': nat,
                                      items2: seq<Item>, both: Tree)
    requires Spent(items, t, next, items1) && Spent(items1, t', next', items2)
    requires forall i :: Uses(both, i) == Uses(t, i) + Uses(t', i)
    ensures Spent(items, both, next', items2)
  {
  }

  lemma {:induction false} SwitchUses(t: Tree, c: Case, both: Tree)
    requires t.Switch? && both == t.(cases := t.cases + [c])
    ensures forall i :: Uses(both, i) == Uses(t, i) + Uses(c.body, i)
  {
    forall i ensures Uses(both, i) == Uses(t, i) + Uses(c.body, i) { UsesSnoc(t, c, i); }
  }

  lemma {:induction false} BucketDistinct(ps: seq<Ref>, steps: Steps, sum: Sum, c: nat)
    requires DistinctIndices(ps) && c < |sum.arities| && forall i :: 0 <= i < |ps| ==> Leads(ps[i].tree, steps)
    ensures DistinctIndices(Bucket(ps, steps, sum, c))
    decreases |ps|
  {
    if ps != [] {
      var rest := Tail(ps);
      BucketDistinct(rest, steps, sum, c);
      var b := Bucket(rest, steps, sum, c);
      forall i | 0 <= i < |b| ensures b[i].index != ps[0].index {
        assert Lists(b, b[i].index);
        BucketLists(rest, steps, sum, c, b[i].index);
        var j :| 0 <= j < |rest| && rest[j].index == b[i].index;
      }
    }
  }

  lemma {:induction false} DroppedNotListed(ps: seq<Ref>, steps: Steps, sum: Sum, c: nat, i: nat)
    requires DistinctIndices(ps) && c < |sum.arities| && (forall i :: 0 <= i < |ps| ==> Leads(ps[i].tree, steps))
    requires i < |ps| && Chosen(ps[i], steps, sum, c) == []
    ensures !Lists(Bucket(ps, steps, sum, c), ps[i].index)
    decreases |ps|
  {
    var rest := Tail(ps);
    var b := Bucket(rest, steps, sum, c);
    if i > 0 {
      DroppedNotListed(rest, steps, sum, c, i - 1);
      assert forall j :: 0 <= j < |b| ==> b[j].index != ps[i].index;
    } else {
      HeadApart(ps);
      if Lists(b, ps[0].index) { BucketLists(rest, steps, sum, c, ps[0].index); }
    }
  }

  lemma {:induction false} HeadApart(ps: seq<Ref>)
    requires DistinctIndices(ps) && ps != []
    ensures !Lists(Tail(ps), ps[0].index)
  {
    forall i | 0 <= i < |ps| - 1 ensures Tail(ps)[i].index != ps[0].index { assert Tail(ps)[i] == ps[i + 1]; }
  }

  lemma {:induction false} CasesFail(a: Pat, next: nat, ps: seq<Ref>, mode: Mode, steps: Steps, sum: Sum, c: nat,
                                     n: nat)
    requires Ready(a, ps) && Splits(a, ps, steps, sum) && ps != [] && At(ps[0].tree, steps).Con?
    requires c <= n <= |sum.arities|
    requires !Cases(a, next, ps, mode, steps, sum, c).Built?
    ensures Cases(a, next, ps, mode, steps, sum, n) == Cases(a, next, ps, mode, steps, sum, c)
    decreases n
  {
    if c < n { CasesFail(a, next, ps, mode, steps, sum, c, n - 1); }
  }

  /** The bucket of a list is itself a list ready to be compiled, and lighter. */
  lemma {:induction false} BucketOk(items: seq<Item>, steps: Steps, sum: Sum, c: nat, a: Pat, ps: seq<Ref>)
    requires Openable(items, steps) && c < |sum.arities| && a == items[0].ref.tree && ps == Tail(Refs(items))
    requires Ready(a, ps) && Splits(a, ps, steps, sum) && DistinctIndices(ps) && ps != [] && At(ps[0].tree, steps).Con?
    ensures var e := Refs(Entries(items, |items|, steps, sum, c));
      var first := items[0].ref.index;
      && ListOk(e) && e[0].tree == Refined(a, steps, sum, c, first) && e[0].index == first + sum.arities[c]
      && Tail(e) == Bucket(ps, steps, sum, c) && Weight(e[0].tree, Tail(e)) < Weight(a, ps)
  {
    var b := Entries(items, |items|, steps, sum, c);
    EntriesAre(items, |items|, steps, sum, c);
    assert Listed(items, |items|) == ps;
    assert Tail(Refs(b)) == Refs(Tail(b));
    assert b[0] == Entry(items, 0, steps, sum, c)[0];
    BucketStep(a, ps, steps, sum, c, items[0].ref.index, Refined(a, steps, sum, c, items[0].ref.index),
               Bucket(ps, steps, sum, c));
    BucketDistinct(ps, steps, sum, c);
  }

  /** A position where the patterns can be told apart. */
  predicate Splittable(a: Pat, ps: seq<Ref>, steps: Steps, sum: Sum) {
    Ready(a, ps) && Splits(a, ps, steps, sum) && ps != [] && At(ps[0].tree, steps).Con?
  }

  /** The compiled bucket of constructor c. */
  function Branch(a: Pat, first: nat, ps: seq<Ref>, mode: Mode, steps: Steps, sum: Sum, c: nat): Compiled
    requires Splittable(a, ps, steps, sum) && c < |sum.arities|
  {
    BucketReady(a, ps, steps, sum, c, first);
    Compile(Refined(a, steps, sum, c, first), first + sum.arities[c], Bucket(ps, steps, sum, c), mode)
  }

  lemma {:induction false} BranchNext(a: Pat, next: nat, ps: seq<Ref>, mode: Mode, steps: Steps, sum: Sum, c: nat,
                                      t: Tree, here: nat)
    requires Splittable(a, ps, steps, sum) && c < |sum.arities|
    requires Cases(a, next, ps, mode, steps, sum, c) == Built(t, here)
    ensures Cases(a, next, ps, mode, steps, sum, c + 1) ==
      Extended(Built(t, here), Branch(a, here, ps, mode, steps, sum, c))
  {
    var a', b := Refined(a, steps, sum, c, here), Bucket(ps, steps, sum, c);
    CasesNext(a, next, ps, mode, steps, sum, c + 1, c, Built(t, here), a', here + sum.arities[c], b);
    BranchIs(a, here, ps, mode, steps, sum, c, a', b);
  }

  lemma {:induction false} BranchIs(a: Pat, first: nat, ps: seq<Ref>, mode: Mode, steps: Steps, sum: Sum, c: nat,
                                    a': Pat, b: seq<Ref>)
    requires Splittable(a, ps, steps, sum) && c < |sum.arities|
    requires a' == Refined(a, steps, sum, c, first) && b == Bucket(ps, steps, sum, c) && Ready(a', b)
    ensures Branch(a, first, ps, mode, steps, sum, c) == Compile(a', first + sum.arities[c], b, mode)
  {
  }

  lemma {:induction false} DroppedUnused(items: seq<Item>, steps: Steps, sum: Sum, c: nat, a: Pat, first: nat,
                                         ps: seq<Ref>, mode: Mode, t: Tree)
    requires Openable(items, steps) && c < |sum.arities| && ps == Tail(Refs(items)) && DistinctIndices(ps)
    requires Splittable(a, ps, steps, sum)
    requires var b := Branch(a, first, ps, mode, steps, sum, c); b.Built? && b.tree == t
    ensures Unreached(items, steps, sum, c, t)
  {
    forall i | 0 < i < |items| && Entry(items, i, steps, sum, c) == [] ensures Uses(t, items[i].ref.index) == 0 {
      assert ps[i - 1] == items[i].ref;
      OneDroppedUnused(steps, sum, c, a, first, ps, mode, t, i - 1);
    }
  }

  lemma {:induction false} OneDroppedUnused(steps: Steps, sum: Sum, c: nat, a: Pat, first: nat, ps: seq<Ref>,
                                            mode: Mode, t: Tree, i: nat)
    requires c < |sum.arities| && DistinctIndices(ps) && Splittable(a, ps, steps, sum) && i < |ps|
    requires Chosen(ps[i], steps, sum, c) == []
    requires var b := Branch(a, first, ps, mode, steps, sum, c); b.Built? && b.tree == t
    ensures Uses(t, ps[i].index) == 0
  {
    BucketReady(a, ps, steps, sum, c, first);
    DroppedNotListed(ps, steps, sum, c, i);
    UsesOnlyListed(Refined(a, steps, sum, c, first), first + sum.arities[c], Bucket(ps, steps, sum, c), mode,
                   ps[i].index);
  }

  lemma {:induction false} SplitsIffOneType(items: seq<Item>, steps: Steps, sum: Sum, a: Pat, ps: seq<Ref>)
    requires Openable(items, steps) && a == items[0].ref.tree && ps == Tail(Refs(items))
    ensures OneType(items, steps, sum) <==> Splits(a, ps, steps, sum)
  {
    assert forall i :: 1 <= i < |items| ==> items[i].ref == ps[i - 1];
    assert forall i :: 0 <= i < |ps| ==> ps[i] == items[i + 1].ref;
  }

  /** One branch of a switch: the list is split, compiled and put together again. */
  method ExpandCase(list: PatternList, mode: Mode, steps: Steps, sum: Sum, c: nat, ghost a: Pat, ghost ps: seq<Ref>)
    returns (r: Compiled)
    requires Openable(list.items, steps) && c < |sum.arities| && a == list.items[0].ref.tree
    requires ps == Tail(Refs(list.items))
    requires Ready(a, ps) && DistinctIndices(ps) && ps != [] && Leads(ps[0].tree, steps) && At(ps[0].tree, steps).Con?
    modifies list
    ensures |list.items| == |old(list.items)|
    ensures !Splits(a, ps, steps, sum) ==> r == Clash
    ensures Splits(a, ps, steps, sum) ==> r == Branch(a, old(list.items)[0].ref.index, ps, mode, steps, sum, c)
    ensures r.Built? ==> Splits(a, ps, steps, sum) && Spent(old(list.items), r.tree, r.next, list.items)
    decreases Weight(a, ps), 0
  {
    ghost var items := list.items;
    SplitsIffOneType(items, steps, sum, a, ps);
    var ok, bucket := FillBucket(list, steps, sum, c);
    if !ok { return Clash; }
    BucketOk(items, steps, sum, c, a, ps);
    r := Expand(bucket, mode);
    if r.Built? {
      DroppedUnused(items, steps, sum, c, a, items[0].ref.index, ps, mode, r.tree);
      Restore(list, bucket, steps, items, sum, c, r.tree, r.next);
    }
  }

  method ExpandSwitch(list: PatternList, mode: Mode, steps: Steps, sum: Sum, ghost a: Pat, ghost ps: seq<Ref>)
    returns (r: Compiled)
    requires Openable(list.items, steps) && a == list.items[0].ref.tree && ps == Tail(Refs(list.items))
    requires Ready(a, ps) && DistinctIndices(ps) && ps != [] && Leads(ps[0].tree, steps)
    requires At(ps[0].tree, steps).Con? && At(ps[0].tree, steps).sum == sum
    modifies list
    ensures |list.items| == |old(list.items)|
    ensures !Splits(a, ps, steps, sum) ==> r == Clash
    ensures Splits(a, ps, steps, sum) ==>
      r == Cases(a, old(list.items)[0].ref.index, ps, mode, steps, sum, |sum.arities|)
    ensures r.Built? ==> Spent(old(list.items), r.tree, r.next, list.items)
    decreases Weight(a, ps), 2
  {
    ghost var items, next := list.items, list.items[0].ref.index;
    var tree, here: nat := Switch(At(list.items[0].ref.tree, steps).name, sum, []), list.items[0].ref.index;
    ProperAt(ps[0].tree, steps);
    ProgressStarts(items, a, next, ps, mode, steps, sum);
    for c := 0 to |sum.arities|
      invariant Progress(items, a, next, ps, mode, steps, sum, c, tree, here, list.items)
    {
      r := ExpandNext(list, mode, steps, sum, c, tree, here, items, next, a, ps);
      if !r.Built? { return; }
      tree, here := r.tree, r.next;
    }
    r := Built(tree, here);
  }

  /** One more case. */
  method ExpandNext(list: PatternList, mode: Mode, steps: Steps, sum: Sum, c: nat, tree: Tree, here: nat,
                    ghost items: seq<Item>, ghost next: nat, ghost a: Pat, ghost ps: seq<Ref>) returns (r: Compiled)
    requires Openable(items, steps) && a == items[0].ref.tree && ps == Tail(Refs(items))
    requires Ready(a, ps) && DistinctIndices(ps) && ps != [] && Leads(ps[0].tree, steps)
    requires At(ps[0].tree, steps).Con? && At(ps[0].tree, steps).sum == sum && c < |sum.arities|
    requires Progress(items, a, next, ps, mode, steps, sum, c, tree, here, list.items)
    modifies list
    ensures |list.items| == |items|
    ensures r.Built? ==> Progress(items, a, next, ps, mode, steps, sum, c + 1, r.tree, r.next, list.items)
    ensures !r.Built? && !Splits(a, ps, steps, sum) ==> r == Clash
    ensures !r.Built? && Splits(a, ps, steps, sum) ==> r == Cases(a, next, ps, mode, steps, sum, |sum.arities|)
    decreases Weight(a, ps), 1
  {
    ghost var before := list.items;
    SpentKeeps(items, tree, here, before);
    StillOpenable(items, steps, before);
    r := ExpandCase(list, mode, steps, sum, c, a, ps);
    if r.Built? {
      ProgressOn(items, a, next, ps, mode, steps, sum, c, tree, here, before, r.tree, r.next, list.items);
      r := Built(tree.(cases := tree.cases + [Case(here, r.tree)]), r.next);
    } else if Splits(a, ps, steps, sum) {
      ProgressFails(items, a, next, ps, mode, steps, sum, c, tree, here, before);
    }
  }

  /** The first c cases are built, and the list counts their uses. */
  ghost predicate Progress(items: seq<Item>, a: Pat, next: nat, ps: seq<Ref>, mode: Mode, steps: Steps, sum: Sum,
                           c: nat,
                           tree: Tree, here: nat, items': seq<Item>)
  {
    && |items'| == |items| && tree.Switch? && Spent(items, tree, here, items') && c <= |sum.arities|
    && (Splittable(a, ps, steps, sum) ==> Cases(a, next, ps, mode, steps, sum, c) == Built(tree, here))
    && (c > 0 ==> Splittable(a, ps, steps, sum))
  }

  lemma {:induction false} ProgressStarts(items: seq<Item>, a: Pat, next: nat, ps: seq<Ref>, mode: Mode, steps: Steps,
                                          sum: Sum)
    requires items != [] && items[0].ref.index == next && Leads(a, steps)
    ensures Progress(items, a, next, ps, mode, steps, sum, 0, Switch(At(a, steps).name, sum, []), next, items)
  {
    var tree := Switch(At(a, steps).name, sum, []);
    forall i ensures Uses(tree, i) == 0 { assert CaseUses([], i) == 0; }
  }

  lemma {:induction false} ProgressOn(items: seq<Item>, a: Pat, next: nat, ps: seq<Ref>, mode: Mode, steps: Steps,
                                      sum: Sum, c: nat,
                                      tree: Tree, here: nat, before: seq<Item>, t: Tree, next': nat, after: seq<Item>)
    requires Progress(items, a, next, ps, mode, steps, sum, c, tree, here, before) && c < |sum.arities|
    requires Splittable(a, ps, steps, sum) && Branch(a, here, ps, mode, steps, sum, c) == Built(t, next')
    requires Spent(before, t, next', after)
    ensures Progress(items, a, next, ps, mode, steps, sum, c + 1, tree.(cases := tree.cases + [Case(here, t)]), next',
                     after)
  {
    var both := tree.(cases := tree.cases + [Case(here, t)]);
    BranchNext(a, next, ps, mode, steps, sum, c, tree, here);
    SwitchUses(tree, Case(here, t), both);
    SpentTwice(items, tree, here, before, t, next', after, both);
  }

  lemma {:induction false} ProgressFails(items: seq<Item>, a: Pat, next: nat, ps: seq<Ref>, mode: Mode, steps: Steps,
                                         sum: Sum, c: nat,
                                         tree: Tree, here: nat, before: seq<Item>)
    requires Progress(items, a, next, ps, mode, steps, sum, c, tree, here, before) && c < |sum.arities|
    requires Splittable(a, ps, steps, sum) && !Branch(a, here, ps, mode, steps, sum, c).Built?
    ensures Cases(a, next, ps, mode, steps, sum, |sum.arities|) == Branch(a, here, ps, mode, steps, sum, c)
  {
    BranchNext(a, next, ps, mode, steps, sum, c, tree, here);
    CasesFail(a, next, ps, mode, steps, sum, c + 1, |sum.arities|);
  }

  lemma {:induction false} StillOpenable(items: seq<Item>, steps: Steps, items': seq<Item>)
    requires Openable(items, steps) && |items'| == |items| && items'[0].ref.index >= 0
    requires Tail(Refs(items')) == Tail(Refs(items)) && items'[0].ref.tree == items[0].ref.tree
    ensures Openable(items', steps)
  {
    forall i | 0 <= i < |items'| ensures Leads(items'[i].ref.tree, steps) {
      if i > 0 { assert Tail(Refs(items'))[i - 1] == items'[i].ref && Tail(Refs(items))[i - 1] == items[i].ref; }
    }
  }

  /** expand_patterns: the tree it returns is the compiled one, and the list comes back in shape and order. */
  method Expand(list: PatternList, mode: Mode) returns (r: Compiled)
    requires ListOk(Refs(list.items))
    modifies list
    ensures r == CompileList(Refs(old(list.items)), mode) && |list.items| == |old(list.items)|
    ensures r.Built? ==> Spent(old(list.items), r.tree, r.next, list.items)
    decreases Weight(list.items[0].ref.tree, Tail(Refs(list.items))), 3
  {
    ghost var items, ps := list.items, Tail(Refs(list.items));
    var proto := list.items[0];
    if |list.items| == 1 {
      if mode.IdentityMode? {
        list.items := [proto.(uses := proto.uses + 1)];
        return Built(Identity(proto.ref.tree), proto.ref.index);
      } else if mode.OtherwiseMode? {
        list.items := [proto.(uses := proto.uses + 1)];
        return Built(Else, proto.ref.index);
      } else {
        return Missing(proto.ref.tree);
      }
    }
    var p := list.items[1];
    assert ps[0] == p.ref;
    var path := FindMismatch(proto.ref.tree, p.ref.tree);
    if path.Path? {
      MismatchSplits(proto.ref.tree, ps);
      OpenableFrom(items, path.steps);
      r := ExpandSwitch(list, mode, path.steps, At(p.ref.tree, path.steps).sum, proto.ref.tree, ps);
    } else {
      r := ExpandLeaf(list, mode);
    }
  }

  lemma {:induction false} OpenableFrom(items: seq<Item>, steps: Steps)
    requires items != [] && items[0].ref.index >= 0 && Leads(items[0].ref.tree, steps)
    requires At(items[0].ref.tree, steps).Any?
    requires forall i :: 0 <= i < |Tail(Refs(items))| ==> Leads(Tail(Refs(items))[i].tree, steps)
    ensures Openable(items, steps)
  {
    forall i | 0 <= i < |items| ensures Leads(items[i].ref.tree, steps) {
      if i > 0 { assert Tail(Refs(items))[i - 1] == items[i].ref; }
    }
  }

  /** The first pattern is as detailed as the prototype: it is used here, unless its guard says no. */
  method ExpandLeaf(list: PatternList, mode: Mode) returns (r: Compiled)
    requires ListOk(Refs(list.items)) && |list.items| > 1
    requires FindMismatch(list.items[0].ref.tree, list.items[1].ref.tree).NoPath?
    modifies list
    ensures r == CompileList(Refs(old(list.items)), mode) && |list.items| == |old(list.items)|
    ensures r.Built? ==> Spent(old(list.items), r.tree, r.next, list.items)
    decreases Weight(list.items[0].ref.tree, Tail(Refs(list.items))), 2
  {
    ghost var items, ps := list.items, Tail(Refs(list.items));
    var proto, p := list.items[0], list.items[1];
    assert forall i :: 0 <= i < |ps| ==> ps[i] == items[i + 1].ref;
    var args := Fill(proto.ref.tree, p.ref.tree);
    list.items := list.items[1 := p.(uses := p.uses + 1)];
    if !p.ref.guard {
      r := Built(Leaf(p.ref.index, args), proto.ref.index);
      LeafSpent(items, ps, args, list.items);
    } else {
      var save := list.items[1];
      list.items := WithoutSecond(list.items);
      ghost var rest := list.items;
      assert Tail(Refs(rest)) == Tail(ps);
      var otherwise := Expand(list, mode);
      ghost var spent := list.items;
      list.items := WithSecond(list.items, save);
      if otherwise.Built? {
        r := Built(Guarded(p.ref.index, args, otherwise.tree), otherwise.next);
        GuardedSpent(items, ps, rest, otherwise.tree, otherwise.next, spent, mode, args, list.items);
      } else {
        r := otherwise;
      }
    }
  }

  lemma {:induction false} LeafSpent(items: seq<Item>, ps: seq<Ref>, args: seq<int>, items': seq<Item>)
    requires |items| > 1 && ps == Tail(Refs(items)) && DistinctIndices(ps) && items[0].ref.index >= 0
    requires items' == items[1 := items[1].(uses := items[1].uses + 1)]
    ensures Spent(items, Leaf(items[1].ref.index, args), items[0].ref.index, items')
  {
    var t, next := Leaf(items[1].ref.index, args), items[0].ref.index;
    assert ps[0] == items[1].ref;
    forall i | 0 <= i < |items| ensures items'[i] == Counted(items, t, next, i) {
      if i > 1 { assert items[i].ref == ps[i - 1] && ps[0].index != ps[i - 1].index; }
    }
  }

  lemma {:induction false} GuardedSpent(items: seq<Item>, ps: seq<Ref>, rest: seq<Item>, t: Tree, next: nat,
                                        spent: seq<Item>, mode: Mode, args: seq<int>, items': seq<Item>)
    requires |items| > 1 && ps == Tail(Refs(items)) && DistinctIndices(ps) && items[0].ref.index >= 0
    requires |rest| == |items| - 1
    requires forall i :: 0 <= i < |rest| ==> rest[i] == if i == 0 then items[0] else items[i + 1]
    requires Ready(items[0].ref.tree, Tail(ps))
    requires Compile(items[0].ref.tree, items[0].ref.index, Tail(ps), mode) == Built(t, next)
    requires Spent(rest, t, next, spent) && items' == WithSecond(spent, items[1].(uses := items[1].uses + 1))
    ensures Spent(items, Guarded(items[1].ref.index, args, t), next, items')
  {
    assert forall i :: 0 <= i < |ps| ==> ps[i] == items[i + 1].ref;
    HeadApart(ps);
    UsesOnlyListed(items[0].ref.tree, items[0].ref.index, Tail(ps), mode, items[1].ref.index);
    forall i | 0 <= i < |items| ensures items'[i] == Counted(items, Guarded(items[1].ref.index, args, t), next, i) {
      if i > 1 {
        assert items[i].ref == ps[i - 1] && ps[0] == items[1].ref;
        assert spent[i - 1] == Counted(rest, t, next, i - 1);
      } else if i == 0 {
        assert spent[0] == Counted(rest, t, next, 0);
      }
    }
  }

  // -------------------------------------------------------------------- a whole match

  /** The type of the tuple a match on several arguments takes apart. */
  function Tuple(n: nat): Sum { Sum(0, [n]) }

  /** The prototype of a match on n arguments. */
  function Prototype(n: nat): Pat {
    if n == 1 then Any(0) else Con(-1, Tuple(n), 0, Names(0, n))
  }

  function Scrutinee(vs: seq<Value>): Value {
    if |vs| == 1 then vs[0] else Data(Tuple(|vs|), 0, vs)
  }

  function Args(vs: seq<Value>): map<int, Value> {
    Named(map[], 0, vs)
  }

  lemma {:induction false} PrototypeFits(vs: seq<Value>)
    requires vs != []
    ensures EnvFor(Prototype(|vs|), Scrutinee(vs), Args(vs)) && Below(Prototype(|vs|), |vs|)
  {
    if |vs| == 1 {
      NamedNew(map[], 0, vs, 0);
    } else {
      var p := Prototype(|vs|);
      forall i | 0 <= i < |vs| ensures EnvFor(p.children[i], vs[i], Args(vs)) { NamedNew(map[], 0, vs, i); }
    }
  }

  /** A compiled match, for all arguments of the right types and all guards: the first pattern in source
      order that matches with a true guard gets the values of its variables; if there is none, the
      identity arm rebuilds the scrutinee, and a total match has no such arguments. */
  lemma {:induction false} MatchSelects(ps: seq<Ref>, mode: Mode, vs: seq<Value>, g: Guards)
    requires vs != [] && Ready(Prototype(|vs|), ps) && Compile(Prototype(|vs|), |vs|, ps, mode).Built?
    requires AllFit(Scrutinee(vs), ps)
    ensures Run(Compile(Prototype(|vs|), |vs|, ps, mode).tree, Args(vs), g) == Select(Scrutinee(vs), g, ps, mode)
    ensures mode.Total? ==> Select(Scrutinee(vs), g, ps, mode).Selected?
  {
    PrototypeFits(vs);
    CompileSelects(Prototype(|vs|), |vs|, ps, mode, Scrutinee(vs), Args(vs), g);
  }

  /** A pattern that is never used never matches first. */
  lemma {:induction false} UnusedIsDead(ps: seq<Ref>, mode: Mode, vs: seq<Value>, g: Guards)
    requires vs != [] && Ready(Prototype(|vs|), ps) && Compile(Prototype(|vs|), |vs|, ps, mode).Built?
    requires AllFit(Scrutinee(vs), ps)
    ensures var o := Select(Scrutinee(vs), g, ps, mode);
      !o.Unmatched? && Uses(Compile(Prototype(|vs|), |vs|, ps, mode).tree, UsedBy(o)) > 0
  {
    MatchSelects(ps, mode, vs, g);
    NeverUnmatched(Scrutinee(vs), g, ps, mode);
    UnusedNeverSelected(Compile(Prototype(|vs|), |vs|, ps, mode).tree, Args(vs), g);
  }

  lemma {:induction false} NeverUnmatched(v: Value, g: Guards, ps: seq<Ref>, mode: Mode)
    requires mode.Total? ==> Select(v, g, ps, mode).Selected?
    ensures !Select(v, g, ps, mode).Unmatched?
    decreases |ps|
  {
    if ps != [] && !mode.Total? { NeverUnmatched(v, g, Tail(ps), mode); }
  }

  datatype Match = Match(tree: Tree) | NotExhaustive(shape: Pat) | NotAMember | Impossible(index: int) | NeverFails

  predicate CompilesTo(n: nat, ps: seq<Ref>, mode: Mode, t: Tree) {
    && Ready(Prototype(n), ps)
    && Compile(Prototype(n), n, ps, mode).Built? && Compile(Prototype(n), n, ps, mode).tree == t
  }

  /** The list to expand: the prototype, used once, and the patterns. */
  method MakeItems(n: nat, ps: seq<Ref>) returns (items: seq<Item>)
    requires n > 0
    ensures |items| == |ps| + 1 && items[0] == Item(Ref(Prototype(n), n, false), 1) && Tail(Refs(items)) == ps
    ensures forall j :: 0 <= j < |ps| ==> items[j + 1] == Item(ps[j], 0)
  {
    items := [Item(Ref(Prototype(n), n, false), 1)];
    for i := 0 to |ps|
      invariant |items| == i + 1 && items[0] == Item(Ref(Prototype(n), n, false), 1)
      invariant forall j :: 0 <= j < i ==> items[j + 1] == Item(ps[j], 0)
    {
      items := items + [Item(ps[i], 0)];
    }
    assert forall j :: 0 <= j < |ps| ==> Refs(items)[j + 1] == ps[j];
  }

  /** The second half of rebind_match: compile, then report patterns no value can reach. */
  method CompileMatch(n: nat, ps: seq<Ref>, mode: Mode, refutable: bool) returns (r: Match)
    requires n > 0 && Ready(Prototype(n), ps) && DistinctIndices(ps)
    ensures r.Match? ==> CompilesTo(n, ps, mode, r.tree)
    ensures r.Match? ==>
      (forall i :: 0 <= i < |ps| ==> Uses(r.tree, ps[i].index) > 0) && (refutable ==> Uses(r.tree, PROTOTYPE) > 0)
    ensures r.Impossible? ==> Lists(ps, r.index) && exists t :: CompilesTo(n, ps, mode, t) && Uses(t, r.index) == 0
    ensures r.NeverFails? ==> refutable && exists t :: CompilesTo(n, ps, mode, t) && Uses(t, PROTOTYPE) == 0
    ensures r.NotExhaustive? <==> Compile(Prototype(n), n, ps, mode).Missing?
    ensures r.NotExhaustive? ==> r.shape == Compile(Prototype(n), n, ps, mode).shape
    ensures r.NotAMember? <==> Compile(Prototype(n), n, ps, mode).Clash?
  {
    var items := MakeItems(n, ps);
    var list := new PatternList(items);
    var c := Expand(list, mode);
    if c.Missing? { return NotExhaustive(c.shape); }
    if c.Clash? { return NotAMember; }
    for i := 0 to |list.items|
      invariant forall j :: 0 <= j < i - 1 ==> Uses(c.tree, ps[j].index) > 0
    {
      assert list.items[i] == Counted(items, c.tree, c.next, i);
      if list.items[i].uses == 0 {
        assert i > 0 && ps[i - 1] == items[i].ref && CompilesTo(n, ps, mode, c.tree);
        return Impossible(list.items[i].ref.index);
      }
    }
    assert CompilesTo(n, ps, mode, c.tree);
    if refutable && list.items[0].uses <= 1 { return NeverFails; }
    r := Match(c.tree);
  }
}
