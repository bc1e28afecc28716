/** Layering of mutually dependent definitions: a queue-driven longest-path relaxation, and
    the cycle it extracts when a value would have to be defined in terms of itself.

    The higher a definition's level, the further out it is bound.
 */
module Layering {
  /** A definition: whether it has an expression that is not a function, whether it has none at all,
      and the definitions it uses.  One wiped out after an error has no expression and uses nothing. */
  datatype Def = Def(value: bool, missing: bool, edges: seq<nat>)

  const WIPED: Def := Def(false, true, [])

  function W(d: Def): nat { if d.value then 1 else 0 }

  predicate InScope(defs: seq<Def>) {
    forall v, j :: 0 <= v < |defs| && 0 <= j < |defs[v].edges| ==> defs[v].edges[j] < |defs|
  }

  /** v uses i. */
  predicate UsedBy(defs: seq<Def>, i: nat, v: nat) {
    i < |defs| && v < |defs| && i in defs[v].edges
  }

  /** Levels that let every value use only strictly outer bindings, every function its own level or outer. */
  ghost predicate Solves(defs: seq<Def>, s: seq<nat>) {
    |s| == |defs| && forall i: nat, v: nat :: UsedBy(defs, i, v) ==> s[i] >= s[v] + W(defs[v])
  }

  /** Each definition is used by the next, the last by the first. */
  predicate Cycle(defs: seq<Def>, c: seq<nat>) {
    && c != [] && UsedBy(defs, c[|c| - 1], c[0])
    && forall k :: 0 <= k < |c| - 1 ==> UsedBy(defs, c[k], c[k + 1])
  }

  predicate Illegal(defs: seq<Def>, c: seq<nat>) {
    && Cycle(defs, c)
    && exists k :: 0 <= k < |c| && c[k] < |defs| && defs[c[k]].value
  }

  /** No levels can be right for an illegal cycle. */
  lemma {:induction false} IllegalUnsolvable(defs: seq<Def>, c: seq<nat>, s: seq<nat>)
    requires Illegal(defs, c)
    ensures !Solves(defs, s)
  {
    if Solves(defs, s) {
      var k :| 0 <= k < |c| && c[k] < |defs| && defs[c[k]].value;
      AlongCycle(defs, c, s, 0, k);
      AlongCycle(defs, c, s, k, |c| - 1);
      if k > 0 { assert UsedBy(defs, c[k - 1], c[k]); AlongCycle(defs, c, s, 0, k - 1); }
    }
  }

  lemma {:induction false} AlongCycle(defs: seq<Def>, c: seq<nat>, s: seq<nat>, i: nat, j: nat)
    requires Cycle(defs, c) && Solves(defs, s) && i <= j < |c|
    ensures c[i] < |defs| && c[j] < |defs| && s[c[i]] >= s[c[j]]
    decreases j - i
  {
    if i < j {
      assert UsedBy(defs, c[i], c[i + 1]);
      AlongCycle(defs, c, s, i + 1, j);
    } else if i > 0 {
      assert UsedBy(defs, c[i - 1], c[i]);
    }
  }

  // ------------------------------------------------------------- the relaxation's state

  /** Levels and predecessors so far; stamps tell which were set later. */
  datatype State = State(d: seq<int>, p: seq<int>, stamp: seq<nat>, clock: nat)

  ghost predicate Sane(defs: seq<Def>, st: State) {
    && |st.d| == |st.p| == |st.stamp| == |defs|
    && forall x :: 0 <= x < |defs| ==> Rooted(defs, st, x)
  }

  /** Where the level of x came from.  Following a predecessor that is a function, the level rises,
      or stays and was set earlier. */
  ghost predicate Rooted(defs: seq<Def>, st: State, x: int)
    requires |st.d| == |st.p| == |st.stamp| == |defs| && 0 <= x < |defs|
  {
    && 0 <= st.d[x] <= |defs| && st.stamp[x] < st.clock && -1 <= st.p[x] < |defs|
    && (st.d[x] > 0 ==> st.p[x] != -1)
    && (st.p[x] != -1 ==>
          var v := st.p[x];
          && UsedBy(defs, x, v) && st.d[x] <= st.d[v] + W(defs[v])
          && (!defs[v].value ==> st.d[x] < st.d[v] || (st.d[x] == st.d[v] && st.stamp[v] < st.stamp[x])))
  }

  /** No level is higher than it must be. */
  ghost predicate Least(defs: seq<Def>, d: seq<int>) {
    forall s :: Solves(defs, s) ==> NoHigher(d, s)
  }

  predicate NoHigher(d: seq<int>, s: seq<nat>) {
    |d| == |s| && forall x :: 0 <= x < |d| ==> d[x] <= s[x]
  }

  function Raised(st: State, i: nat, v: nat, level: int): State
    requires i < |st.d| == |st.p| == |st.stamp|
  {
    State(st.d[i := level], st.p[i := v], st.stamp[i := st.clock], st.clock + 1)
  }

  lemma {:induction false} RaiseSane(defs: seq<Def>, st: State, v: nat, i: nat, drv: int)
    requires Sane(defs, st) && UsedBy(defs, i, v) && st.d[i] < drv + W(defs[v]) && 0 <= drv <= st.d[v] && drv < |defs|
    requires st.d[v] == drv || defs[v].value
    ensures Sane(defs, Raised(st, i, v, drv + W(defs[v])))
  {
    var st' := Raised(st, i, v, drv + W(defs[v]));
    forall x | 0 <= x < |defs| ensures Rooted(defs, st', x) {
      assert Rooted(defs, st, x) && Rooted(defs, st, v);
    }
  }

  lemma {:induction false} RaiseLeast(defs: seq<Def>, d: seq<int>, v: nat, i: nat, drv: int)
    requires |d| == |defs| && Least(defs, d) && UsedBy(defs, i, v) && drv <= d[v]
    ensures Least(defs, d[i := drv + W(defs[v])])
  {
    forall s | Solves(defs, s) ensures NoHigher(d[i := drv + W(defs[v])], s) {
      assert NoHigher(d, s);
    }
  }

  // ------------------------------------------------------------- following predecessors

  /** The k-th predecessor of x; -1 once there is none. */
  function Up(p: seq<int>, x: int, k: nat): int {
    if k == 0 then x else
    var y := Up(p, x, k - 1);
    if 0 <= y < |p| then p[y] else -1
  }

  lemma {:induction false} UpAdd(p: seq<int>, x: int, j: nat, k: nat)
    ensures Up(p, x, j + k) == Up(p, Up(p, x, j), k)
    decreases k
  {
    if k > 0 { UpAdd(p, x, j, k - 1); }
  }

  /** From a level of at least n there are n predecessors. */
  lemma {:induction false} ManyUp(defs: seq<Def>, st: State, x: nat, k: nat)
    requires Sane(defs, st) && x < |defs| && st.d[x] >= |defs| && k <= |defs|
    ensures 0 <= Up(st.p, x, k) < |defs| && st.d[Up(st.p, x, k)] >= |defs| - k
    decreases k
  {
    if k > 0 {
      ManyUp(defs, st, x, k - 1);
      assert Rooted(defs, st, Up(st.p, x, k - 1));
    }
  }

  lemma {:induction false} Pigeonhole(s: seq<int>, n: nat) returns (i: nat, j: nat)
    requires |s| > n && forall k :: 0 <= k < |s| ==> 0 <= s[k] < n
    ensures i < j < |s| && s[i] == s[j]
    decreases n
  {
    var z := |s| - 1;
    if k :| 0 <= k < z && s[k] == s[z] {
      i, j := k, z;
    } else {
      // rename the largest value to the last one, which nothing else has
      var t := seq(z, k requires 0 <= k < z => if s[k] == n - 1 then s[z] else s[k]);
      i, j := Pigeonhole(t, n - 1);
    }
  }

  /** After n steps the walk is inside a cycle. */
  lemma {:induction false} CycleReached(defs: seq<Def>, st: State, x: nat) returns (k: nat)
    requires Sane(defs, st) && x < |defs| && st.d[x] >= |defs|
    ensures 0 < k && 0 <= Up(st.p, x, |defs|) < |defs| && Up(st.p, Up(st.p, x, |defs|), k) == Up(st.p, x, |defs|)
  {
    var n := |defs|;
    var walk := seq(n + 1, i requires 0 <= i < n + 1 => Up(st.p, x, i));
    forall i | 0 <= i < n + 1 ensures 0 <= walk[i] < n { ManyUp(defs, st, x, i); }
    var i, j := Pigeonhole(walk, n);
    k := j - i;
    ManyUp(defs, st, x, n);
    UpAdd(st.p, x, i, n - i);
    UpAdd(st.p, x, j, n - i);
    UpAdd(st.p, x, n, k);
    assert j + (n - i) == n + k;
  }

  /** On a cycle, every predecessor is a definition. */
  lemma {:induction false} OnCycle(defs: seq<Def>, st: State, x: nat, k: nat, j: nat)
    requires Sane(defs, st) && x < |defs| && Up(st.p, x, k) == x && j <= k
    ensures 0 <= Up(st.p, x, j) < |defs| && (j < k ==> st.p[Up(st.p, x, j)] != -1)
    decreases k - j
  {
    if j < k {
      OnCycle(defs, st, x, k, j + 1);
      assert Up(st.p, x, j + 1) == if 0 <= Up(st.p, x, j) < |defs| then st.p[Up(st.p, x, j)] else -1;
    }
  }

  lemma {:induction false} FunctionsRise(defs: seq<Def>, st: State, x: nat, k: nat, j: nat)
    requires Sane(defs, st) && x < |defs| && Up(st.p, x, k) == x && 0 < j <= k
    requires forall i: nat :: 1 <= i <= k && 0 <= Up(st.p, x, i) < |defs| ==> !defs[Up(st.p, x, i)].value
    ensures 0 <= Up(st.p, x, j) < |defs|
    ensures var y := Up(st.p, x, j); st.d[x] < st.d[y] || (st.d[x] == st.d[y] && st.stamp[y] < st.stamp[x])
    decreases j
  {
    OnCycle(defs, st, x, k, j);
    OnCycle(defs, st, x, k, j - 1);
    var u := Up(st.p, x, j - 1);
    assert Rooted(defs, st, u);
    assert !defs[Up(st.p, x, j)].value;
    if j > 1 { FunctionsRise(defs, st, x, k, j - 1); }
  }

  /** A cycle of predecessors contains a value. */
  lemma {:induction false} CycleHasValue(defs: seq<Def>, st: State, x: nat, k: nat) returns (j: nat)
    requires Sane(defs, st) && x < |defs| && Up(st.p, x, k) == x && 0 < k
    ensures j < k && 0 <= Up(st.p, x, j) < |defs| && defs[Up(st.p, x, j)].value
  {
    if forall i: nat :: 1 <= i <= k && 0 <= Up(st.p, x, i) < |defs| ==> !defs[Up(st.p, x, i)].value {
      FunctionsRise(defs, st, x, k, k);
    }
    var i: nat :| 1 <= i <= k && 0 <= Up(st.p, x, i) < |defs| && defs[Up(st.p, x, i)].value;
    j := if i == k then 0 else i;
  }

  /** The cycle through x, as the walk lists it. */
  function Walk(p: seq<int>, x: nat, k: nat): (c: seq<int>)
    ensures |c| == k && forall j :: 0 <= j < k ==> c[j] == Up(p, x, j)
  {
    seq(k, j requires 0 <= j < k => Up(p, x, j))
  }

  // -------------------------------------------------------------------- the algorithm

  datatype Relaxed = Relaxed(v: nat, d: int)

  predicate InRange(q: seq<Relaxed>, n: nat) {
    forall j :: 0 <= j < |q| ==> q[j].v < n
  }

  /** The levels of the first k definitions v uses allow v to be at `level`. */
  predicate Allows(defs: seq<Def>, d: seq<int>, v: nat, level: int, k: nat)
    requires |d| == |defs| && v < |defs| && k <= |defs[v].edges| && InScope(defs)
  {
    forall j :: 0 <= j < k ==> d[defs[v].edges[j]] >= level + W(defs[v])
  }

  /** v is done with, or waiting in the queue at its present level. */
  predicate Handled(defs: seq<Def>, d: seq<int>, q: seq<Relaxed>, v: nat)
    requires |d| == |defs| && v < |defs| && InScope(defs)
  {
    Relaxed(v, d[v]) in q || (d[v] < |defs| && Allows(defs, d, v, d[v], |defs[v].edges|))
  }

  /** What the levels have left to rise. */
  function Slack(d: seq<int>, n: nat): int {
    if d == [] then 0 else Slack(d[..|d| - 1], n) + n - d[|d| - 1]
  }

  lemma {:induction false} SlackUpdate(d: seq<int>, n: nat, i: nat, x: int, d': seq<int>)
    requires i < |d| && d' == d[i := x]
    ensures Slack(d', n) == Slack(d, n) - (x - d[i])
    decreases |d|
  {
    var z := |d| - 1;
    if i < z { SlackUpdate(d[..z], n, i, x, d'[..z]); } else { assert d'[..z] == d[..z]; }
  }

  lemma {:induction false} SlackPositive(d: seq<int>, n: nat)
    requires forall i :: 0 <= i < |d| ==> d[i] <= n
    ensures Slack(d, n) >= 0
    decreases |d|
  {
    if d != [] { SlackPositive(d[..|d| - 1], n); }
  }

  lemma {:induction false} SlackSane(defs: seq<Def>, st: State)
    requires Sane(defs, st)
    ensures Slack(st.d, |defs|) >= 0
  {
    forall i | 0 <= i < |defs| ensures st.d[i] <= |defs| { assert Rooted(defs, st, i); }
    SlackPositive(st.d, |defs|);
  }

  /** Raising one level disturbs nobody else. */
  lemma {:induction false} HandledRaise(defs: seq<Def>, d: seq<int>, q: seq<Relaxed>, u: nat, i: nat, level: int,
                                        d': seq<int>, q': seq<Relaxed>)
    requires |d| == |defs| && u < |defs| && i < |defs| && InScope(defs) && level >= d[i] && d' == d[i := level]
    requires q' == q + [Relaxed(i, level)]
    requires Handled(defs, d, q, u)
    ensures Handled(defs, d', q', u)
  {
    if u == i { assert q'[|q|] == Relaxed(i, level); }
  }

  /** Everything the loop keeps. */
  ghost predicate Running(defs: seq<Def>, st: State) {
    InScope(defs) && Sane(defs, st) && Least(defs, st.d)
  }

  /** The first k definitions v uses are high enough for v at level drv. */
  ghost predicate Pushed(defs: seq<Def>, st0: State, q0: seq<Relaxed>, v: nat, drv: int, k: nat, st: State,
                         q: seq<Relaxed>) {
    && Running(defs, st) && InRange(q, |defs|) && v < |defs| && k <= |defs[v].edges|
    && st.d[v] >= drv && (st.d[v] == drv || (defs[v].value && Relaxed(v, st.d[v]) in q))
    && Allows(defs, st.d, v, drv, k)
    && (forall u: nat :: u < |defs| && u != v ==> Handled(defs, st.d, q, u))
    && (Slack(st.d, |defs|) < Slack(st0.d, |defs|) || (st.d == st0.d && q == q0))
  }

  lemma {:induction false} PushedOn(defs: seq<Def>, st0: State, q0: seq<Relaxed>, v: nat, drv: int, k: nat, st: State,
                                    q: seq<Relaxed>,
                                    i: nat, level: int, st': State, q': seq<Relaxed>)
    requires Pushed(defs, st0, q0, v, drv, k, st, q) && 0 <= drv < |defs| && k < |defs[v].edges|
    requires i == defs[v].edges[k] && i < |defs|
    requires level == drv + W(defs[v]) > st.d[i] && st' == Raised(st, i, v, level) && q' == q + [Relaxed(i, level)]
    ensures Pushed(defs, st0, q0, v, drv, k + 1, st', q')
  {
    assert UsedBy(defs, i, v);
    RaiseSane(defs, st, v, i, drv);
    RaiseLeast(defs, st.d, v, i, drv);
    SlackUpdate(st.d, |defs|, i, level, st'.d);
    forall u: nat | u < |defs| && u != v ensures Handled(defs, st'.d, q', u) {
      HandledRaise(defs, st.d, q, u, i, level, st'.d, q');
    }
    assert q'[|q|] == Relaxed(i, level);
  }

  /** The inner loop: v, at level drv, pushes up what it uses. */
  method RelaxEdges(defs: array<Def>, v: nat, drv: int, d: array<int>, p: array<int>, q0: seq<Relaxed>,
                    ghost st0: State)
    returns (q: seq<Relaxed>, ghost st: State)
    requires Running(defs[..], st0) && d != p && d[..] == st0.d && p[..] == st0.p
    requires v < defs.Length && drv == d[v] < defs.Length
    requires InRange(q0, defs.Length) && forall u: nat :: u < defs.Length && u != v ==> Handled(defs[..], st0.d, q0, u)
    modifies d, p
    ensures Running(defs[..], st) && d[..] == st.d && p[..] == st.p
    ensures InRange(q, defs.Length) && forall u: nat :: u < defs.Length ==> Handled(defs[..], st.d, q, u)
    ensures Slack(st.d, defs.Length) < Slack(st0.d, defs.Length) || (st.d == st0.d && q == q0)
  {
    q, st := q0, st0;
    var def := defs[v];
    ghost var ds := defs[..];
    assert Rooted(ds, st0, v);
    for k := 0 to |def.edges|
      invariant Pushed(ds, st0, q0, v, drv, k, st, q) && d[..] == st.d && p[..] == st.p
    {
      var i := def.edges[k];
      assert i == ds[v].edges[k];
      var level := drv + W(def);
      if level > d[i] {
        PushedOn(ds, st0, q0, v, drv, k, st, q, i, level, Raised(st, i, v, level), q + [Relaxed(i, level)]);
        d[i] := level;
        p[i] := v;
        q := q + [Relaxed(i, level)];
        st := Raised(st, i, v, level);
        assert d[..] == st.d && p[..] == st.p;
      }
    }
  }

  /** The queue loop.  It ends when the queue is empty, or at a definition whose level reached the
      number of definitions. */
  method Relax(defs: array<Def>) returns (d: array<int>, p: array<int>, stuck: int, ghost st: State)
    requires InScope(defs[..])
    ensures fresh(d) && fresh(p) && d[..] == st.d && p[..] == st.p && Running(defs[..], st)
    ensures -1 <= stuck < defs.Length && (stuck >= 0 ==> st.d[stuck] >= defs.Length)
    ensures stuck == -1 ==> forall v: nat :: v < defs.Length ==> Handled(defs[..], st.d, [], v)
  {
    var n := defs.Length;
    ghost var ds := defs[..];
    d, p := new int[n](_ => 0), new int[n](_ => -1);
    var q: seq<Relaxed> := [];
    for i := 0 to n
      invariant (forall v :: 0 <= v < i ==> Relaxed(v, 0) in q) && InRange(q, n)
    {
      q := q + [Relaxed(i, 0)];
    }
    st := State(d[..], p[..], seq(n, _ => 0), 1);
    assert forall v :: 0 <= v < n ==> Rooted(ds, st, v);
    SlackSane(ds, st);
    while q != []
      invariant Running(ds, st) && d[..] == st.d && p[..] == st.p && ds == defs[..]
      invariant forall v: nat :: v < n ==> Handled(ds, st.d, q, v)
      invariant Slack(st.d, n) >= 0 && InRange(q, n)
      decreases Slack(st.d, n), |q|
    {
      var rv := q[0];
      ghost var was := q;
      q := q[1..];
      var drv := d[rv.v];
      assert Rooted(ds, st, rv.v);
      forall u: nat | u < n && was[0] != Relaxed(u, st.d[u]) ensures Handled(ds, st.d, q, u) {
        assert Handled(ds, st.d, was, u);
      }
      if rv.d >= drv {
        if drv >= n { return d, p, rv.v, st; }
        q, st := RelaxEdges(defs, rv.v, drv, d, p, q, st);
        SlackSane(ds, st);
      }
    }
    stuck := -1;
  }

  // ------------------------------------------------------------------ cycle extraction

  lemma {:induction false} WalkIllegal(defs: seq<Def>, st: State, x: nat, c: seq<nat>)
    requires Running(defs, st) && x < |defs| && c != [] && Up(st.p, x, |c|) == x
    requires forall j :: 0 <= j < |c| ==> c[j] == Up(st.p, x, j)
    ensures Illegal(defs, c) && forall j :: 0 <= j < |c| ==> c[j] < |defs|
  {
    var k := |c|;
    forall j | 0 <= j < k ensures c[j] < |defs| && Up(st.p, x, j + 1) >= 0 && UsedBy(defs, c[j], Up(st.p, x, j + 1)) {
      OnCycle(defs, st, x, k, j);
      assert Rooted(defs, st, c[j]);
    }
    assert Up(st.p, x, 0) == x;
    forall j | 0 <= j < k - 1 ensures UsedBy(defs, c[j], c[j + 1]) { assert c[j] < |defs|; }
    assert UsedBy(defs, c[k - 1], c[0]);
    var j := CycleHasValue(defs, st, x, k);
    assert defs[c[j]].value;
  }

  /** The definitions in c are wiped out, the others are as they were. */
  predicate Wiped(defs: seq<Def>, c: seq<nat>, defs': seq<Def>) {
    |defs'| == |defs| && forall i: nat :: i < |defs| ==> defs'[i] == if i in c then WIPED else defs[i]
  }

  /** Part of the way round the cycle: c is what has been passed and wiped, i comes next. */
  predicate Going(defs: seq<Def>, p: seq<int>, x: nat, c: seq<nat>, i: int, now: seq<Def>) {
    && i == Up(p, x, |c|) && (forall k :: 0 <= k < |c| ==> c[k] == Up(p, x, k)) && Wiped(defs, c, now)
  }

  lemma {:induction false} GoingOn(defs: seq<Def>, st: State, x: nat, length: nat, c: seq<nat>, i: nat, now: seq<Def>)
    requires Running(defs, st) && x < |defs| && |c| < length && Up(st.p, x, length) == x && i < |defs|
    requires Going(defs, st.p, x, c, i, now)
    ensures 0 <= st.p[i] < |defs| && Going(defs, st.p, x, c + [i], st.p[i], now[i := WIPED])
  {
    OnCycle(defs, st, x, length, |c|);
    OnCycle(defs, st, x, length, |c| + 1);
    WipedMore(defs, c, i, now);
  }

  lemma {:induction false} WipedMore(defs: seq<Def>, c: seq<nat>, x: nat, now: seq<Def>)
    requires Wiped(defs, c, now) && x < |defs|
    ensures Wiped(defs, c + [x], now[x := WIPED])
  {
    forall i: nat | i < |defs| ensures i in c + [x] <==> i in c || i == x {
    }
  }

  /** Follows predecessors from a definition whose level is too high until it is sure to be in the cycle. */
  method FollowBack(p: array<int>, stuck: nat, ghost defs: seq<Def>, ghost st: State) returns (j: int)
    requires Running(defs, st) && p[..] == st.p && p.Length == |defs| && stuck < |defs| && st.d[stuck] >= |defs|
    ensures j == Up(st.p, stuck, |defs|) && 0 <= j < |defs|
  {
    j := stuck;
    for i := 0 to p.Length
      invariant j == Up(st.p, stuck, i) && 0 <= j < |defs|
    {
      ManyUp(defs, st, stuck, i + 1);
      j := p[j];
    }
  }

  /** Finds the cycle and goes round it once, wiping it out. */
  method ExtractCycle(defs: array<Def>, p: array<int>, stuck: nat, ghost st: State) returns (c: seq<nat>)
    requires Running(defs[..], st) && p[..] == st.p && stuck < defs.Length && st.d[stuck] >= defs.Length
    modifies defs
    ensures Illegal(old(defs[..]), c) && Wiped(old(defs[..]), c, defs[..])
  {
    ghost var ds := defs[..];
    var j := FollowBack(p, stuck, ds, st);
    ghost var length := CycleReached(ds, st, stuck);
    c := WipeCycle(defs, p, j, ds, st, length);
    WalkIllegal(ds, st, j, c);
  }

  method WipeCycle(defs: array<Def>, p: array<int>, j: nat, ghost ds: seq<Def>, ghost st: State, ghost length: nat)
    returns (c: seq<nat>)
    requires defs[..] == ds && Running(ds, st) && p[..] == st.p && p.Length == defs.Length && j < |ds|
    requires length > 0 && Up(st.p, j, length) == j
    modifies defs
    ensures c != [] && Up(st.p, j, |c|) == j && (forall k :: 0 <= k < |c| ==> c[k] == Up(st.p, j, k))
    ensures Wiped(ds, c, defs[..])
  {
    var i: int := j;
    c := [];
    while true
      invariant |c| < length && 0 <= i < defs.Length && Going(ds, st.p, j, c, i, defs[..])
      decreases length - |c|
    {
      ghost var now := defs[..];
      GoingOn(ds, st, j, length, c, i, now);
      defs[i] := WIPED;
      assert defs[..] == now[i := WIPED];
      c := c + [i];
      i := p[i];
      if i == j { break; }
    }
  }

  // ------------------------------------------------------------------------ retrying

  function EdgeCount(defs: seq<Def>): nat {
    if defs == [] then 0 else EdgeCount(defs[..|defs| - 1]) + |defs[|defs| - 1].edges|
  }

  lemma {:induction false} WipeFewer(defs: seq<Def>, defs': seq<Def>)
    requires |defs| == |defs'| && forall i :: 0 <= i < |defs| ==> defs'[i] == defs[i] || defs'[i] == WIPED
    ensures EdgeCount(defs') <= EdgeCount(defs)
    ensures (exists i :: 0 <= i < |defs| && defs'[i] != defs[i] && defs[i].edges != []) ==>
      EdgeCount(defs') < EdgeCount(defs)
    decreases |defs|
  {
    if defs != [] { WipeFewer(defs[..|defs| - 1], defs'[..|defs| - 1]); }
  }

  /** A cycle wiped out takes at least one use with it. */
  lemma {:induction false} WipedFewer(defs: seq<Def>, c: seq<nat>, defs': seq<Def>)
    requires Cycle(defs, c) && Wiped(defs, c, defs')
    ensures EdgeCount(defs') < EdgeCount(defs)
  {
    assert c[0] in c && defs[c[0]].edges != [];
    WipeFewer(defs, defs');
  }

  /** Some definitions wiped out, all of them in one of the cycles. */
  predicate Trimmed(defs: seq<Def>, cycles: seq<seq<nat>>, defs': seq<Def>) {
    && |defs'| == |defs|
    && forall i: nat :: i < |defs| ==>
      defs'[i] == defs[i] || (defs'[i] == WIPED && exists k :: 0 <= k < |cycles| && i in cycles[k])
  }

  lemma {:induction false} TrimmedIllegal(defs: seq<Def>, cycles: seq<seq<nat>>, defs': seq<Def>, c: seq<nat>)
    requires Trimmed(defs, cycles, defs') && Illegal(defs', c)
    ensures Illegal(defs, c)
  {
    forall i: nat, v: nat | UsedBy(defs', i, v) ensures UsedBy(defs, i, v) { }
    var k :| 0 <= k < |c| && c[k] < |defs'| && defs'[c[k]].value;
    assert defs[c[k]].value;
  }

  lemma {:induction false} TrimmedMore(defs: seq<Def>, cycles: seq<seq<nat>>, defs': seq<Def>, c: seq<nat>,
                                       defs'': seq<Def>)
    requires Trimmed(defs, cycles, defs') && Wiped(defs', c, defs'')
    ensures Trimmed(defs, cycles + [c], defs'')
  {
    var all := cycles + [c];
    forall i: nat | i < |defs|
      ensures defs''[i] == defs[i] || (defs''[i] == WIPED && exists k :: 0 <= k < |all| && i in all[k])
    {
      if i in c {
        assert i in all[|cycles|];
      } else if defs'[i] != defs[i] {
        var k :| 0 <= k < |cycles| && i in cycles[k];
        assert i in all[k];
      }
    }
  }

  lemma {:induction false} HandledSolves(defs: seq<Def>, st: State) returns (levels: seq<nat>)
    requires Running(defs, st) && forall v: nat :: v < |defs| ==> Handled(defs, st.d, [], v)
    ensures |levels| == |defs| && (forall i :: 0 <= i < |defs| ==> levels[i] == st.d[i] && levels[i] < |defs|)
    ensures Solves(defs, levels) && Least(defs, st.d)
  {
    forall i | 0 <= i < |defs|
      ensures 0 <= st.d[i] < |defs|
    {
      assert Rooted(defs, st, i) && Handled(defs, st.d, [], i);
    }
    levels := seq(|defs|, i requires 0 <= i < |defs| => st.d[i]);
    forall i: nat, v: nat | UsedBy(defs, i, v) ensures levels[i] >= levels[v] + W(defs[v]) {
      assert Handled(defs, st.d, [], v);
    }
  }

  /** The levels are right for the definitions, and as low as can be. */
  ghost predicate LeastLevels(defs: seq<Def>, levels: seq<nat>) {
    && Solves(defs, levels) && (forall i :: 0 <= i < |levels| ==> levels[i] < |defs|)
    && forall s :: Solves(defs, s) ==> NoHigher(levels, s)
  }

  /** The cycles found so far, all illegal to begin with, and what they left of the definitions. */
  ghost predicate Reported(defs: seq<Def>, cycles: seq<seq<nat>>, defs': seq<Def>) {
    Trimmed(defs, cycles, defs') && forall k :: 0 <= k < |cycles| ==> Illegal(defs, cycles[k])
  }

  lemma {:induction false} ReportedMore(defs: seq<Def>, cycles: seq<seq<nat>>, defs': seq<Def>, c: seq<nat>,
                                        defs'': seq<Def>)
    requires Reported(defs, cycles, defs') && InScope(defs') && Illegal(defs', c) && Wiped(defs', c, defs'')
    ensures Reported(defs, cycles + [c], defs'') && InScope(defs'') && EdgeCount(defs'') < EdgeCount(defs')
  {
    TrimmedIllegal(defs, cycles, defs', c);
    TrimmedMore(defs, cycles, defs', c, defs'');
    WipedFewer(defs', c, defs'');
  }

  lemma {:induction false} ReportedAll(defs: seq<Def>, cycles: seq<seq<nat>>, defs': seq<Def>, levels: seq<nat>)
    requires Reported(defs, cycles, defs') && Solves(defs', levels)
    ensures cycles == [] <==> !exists c :: Illegal(defs, c)
  {
    if cycles == [] {
      assert defs' == defs;
      forall c ensures !Illegal(defs, c) { if Illegal(defs, c) { IllegalUnsolvable(defs, c, levels); } }
    } else {
      assert Illegal(defs, cycles[0]);
    }
  }

  /** fracture_binding, up to the levels: relax; on an illegal cycle report it, wipe it out and start over. */
  method Fracture(defs: array<Def>) returns (levels: seq<nat>, cycles: seq<seq<nat>>)
    requires InScope(defs[..])
    modifies defs
    ensures LeastLevels(defs[..], levels) && Reported(old(defs[..]), cycles, defs[..])
    ensures cycles == [] <==> !exists c :: Illegal(old(defs[..]), c)
  {
    ghost var ds := defs[..];
    cycles := [];
    while true
      invariant InScope(defs[..]) && Reported(ds, cycles, defs[..])
      decreases EdgeCount(defs[..])
    {
      var d, p, stuck, st := Relax(defs);
      if stuck == -1 {
        ghost var best := HandledSolves(defs[..], st);
        levels := ToNats(d, best);
        ReportedAll(ds, cycles, defs[..], levels);
        return;
      }
      ghost var before := defs[..];
      var c := ExtractCycle(defs, p, stuck, st);
      ReportedMore(ds, cycles, before, c, defs[..]);
      cycles := cycles + [c];
    }
  }

  method ToNats(d: array<int>, ghost best: seq<nat>) returns (r: seq<nat>)
    requires d[..] == best
    ensures r == best
  {
    r := [];
    for i := 0 to d.Length
      invariant r == best[..i]
    {
      assert d[i] == d[..][i] == best[i];
      r := r + [d[i]];
    }
  }
}
