/** Grouping the functions of one level: Tarjan's strongly connected components. */
module Components {
  import opened Layering
  import opened Sequences

  /** Definitions, their levels, which of them count as functions, and which of those have no expression;
      edges lists what each uses. */
  datatype Graph = Graph(edges: seq<seq<nat>>, level: seq<int>, lambda: seq<bool>, missing: seq<bool>, here: int)

  predicate Formed(g: Graph) {
    && |g.level| == |g.lambda| == |g.missing| == |g.edges|
    && forall v, j :: 0 <= v < |g.edges| && 0 <= j < |g.edges[v]| ==> g.edges[v][j] < |g.edges|
  }

  /** A function of the level being grouped. */
  predicate Node(g: Graph, v: nat) {
    v < |g.edges| && v < |g.level| && v < |g.lambda| && g.level[v] == g.here && g.lambda[v]
  }

  predicate Edge(g: Graph, v: nat, w: nat) {
    Node(g, v) && Node(g, w) && w in g.edges[v]
  }

  ghost predicate Within(g: Graph, x: nat, y: nat, k: nat)
    decreases k
  {
    if k == 0 then x == y else exists z: nat :: Edge(g, x, z) && Within(g, z, y, k - 1)
  }

  /** y can be reached from x through functions of the level. */
  ghost predicate Reach(g: Graph, x: nat, y: nat) {
    exists k: nat :: Within(g, x, y, k)
  }

  lemma {:induction false} ReachSelf(g: Graph, x: nat)
    ensures Reach(g, x, x)
  {
    assert Within(g, x, x, 0);
  }

  lemma {:induction false} ReachEdge(g: Graph, x: nat, y: nat)
    requires Edge(g, x, y)
    ensures Reach(g, x, y)
  {
    assert Within(g, y, y, 0);
    assert Within(g, x, y, 1);
  }

  lemma {:induction false} WithinTrans(g: Graph, x: nat, y: nat, z: nat, j: nat, k: nat)
    requires Within(g, x, y, j) && Within(g, y, z, k)
    ensures Within(g, x, z, j + k)
    decreases j
  {
    if j > 0 {
      var u: nat :| Edge(g, x, u) && Within(g, u, y, j - 1);
      WithinTrans(g, u, y, z, j - 1, k);
    }
  }

  lemma {:induction false} ReachTrans(g: Graph, x: nat, y: nat, z: nat)
    requires Reach(g, x, y) && Reach(g, y, z)
    ensures Reach(g, x, z)
  {
    var j: nat :| Within(g, x, y, j);
    var k: nat :| Within(g, y, z, k);
    WithinTrans(g, x, y, z, j, k);
  }

  /** No edge leads out of c. */
  ghost predicate Shut(g: Graph, c: iset<nat>) {
    forall x: nat, y: nat :: x in c && Edge(g, x, y) ==> y in c
  }

  lemma {:induction false} ReachStays(g: Graph, c: iset<nat>, x: nat, y: nat)
    requires Shut(g, c) && x in c && Reach(g, x, y)
    ensures y in c
  {
    var k: nat :| Within(g, x, y, k);
    WithinStays(g, c, x, y, k);
  }

  lemma {:induction false} WithinStays(g: Graph, c: iset<nat>, x: nat, y: nat, k: nat)
    requires Shut(g, c) && x in c && Within(g, x, y, k)
    ensures y in c
    decreases k
  {
    if k > 0 {
      var z: nat :| Edge(g, x, z) && Within(g, z, y, k - 1);
      WithinStays(g, c, z, y, k - 1);
    }
  }

  // ------------------------------------------------------------------------- the output

  /** The functions listed so far and the group each belongs to. */
  datatype Groups = Groups(fun: seq<nat>, scc: seq<nat>)

  /** Groups are contiguous and in order, their members reach each other, and nothing in them
      uses anything listed later. */
  ghost predicate Grouped(g: Graph, o: Groups) {
    && |o.fun| == |o.scc|
    && (forall i :: 0 <= i < |o.fun| ==> Node(g, o.fun[i]) && o.scc[i] <= i)
    && (forall i, j :: 0 <= i < j < |o.fun| ==> o.fun[i] != o.fun[j] && o.scc[i] <= o.scc[j])
    && (forall i, j :: 0 <= i < |o.fun| && 0 <= j < |o.fun| && o.scc[i] == o.scc[j] ==> Reach(g, o.fun[i], o.fun[j]))
    && (forall i, w: nat :: 0 <= i < |o.fun| && Edge(g, o.fun[i], w) ==> Listed(o, w, o.scc[i]))
  }

  /** w is listed in a group no later than `scc`. */
  predicate Listed(o: Groups, w: nat, scc: nat) {
    |o.fun| == |o.scc| && exists j :: 0 <= j < |o.fun| && o.fun[j] == w && o.scc[j] <= scc
  }

  /** Two functions are in the same group exactly when each reaches the other. */
  lemma {:induction false} GroupsAreComponents(g: Graph, o: Groups, i: nat, j: nat)
    requires Grouped(g, o) && i < |o.fun| && j < |o.fun|
    ensures o.scc[i] == o.scc[j] <==> Reach(g, o.fun[i], o.fun[j]) && Reach(g, o.fun[j], o.fun[i])
  {
    if Reach(g, o.fun[i], o.fun[j]) && Reach(g, o.fun[j], o.fun[i]) {
      NoLater(g, o, i, j);
      NoLater(g, o, j, i);
    }
  }

  lemma {:induction false} ListedStep(g: Graph, o: Groups, x: nat, y: nat, scc: nat)
    requires Grouped(g, o) && Listed(o, x, scc) && Edge(g, x, y)
    ensures Listed(o, y, scc)
  {
    var k :| 0 <= k < |o.fun| && o.fun[k] == x && o.scc[k] <= scc;
    assert Listed(o, y, o.scc[k]);
  }

  lemma {:induction false} ListedOnce(g: Graph, o: Groups, j: nat, scc: nat)
    requires Grouped(g, o) && j < |o.fun| && Listed(o, o.fun[j], scc)
    ensures o.scc[j] <= scc
  {
    var k :| 0 <= k < |o.fun| && o.fun[k] == o.fun[j] && o.scc[k] <= scc;
    assert k == j;
  }

  ghost function UpTo(o: Groups, scc: nat): iset<nat> { iset w: nat | Listed(o, w, scc) }

  /** What a function reaches is in its group or an earlier one. */
  lemma {:induction false} NoLater(g: Graph, o: Groups, i: nat, j: nat)
    requires Grouped(g, o) && i < |o.fun| && j < |o.fun| && Reach(g, o.fun[i], o.fun[j])
    ensures o.scc[j] <= o.scc[i]
  {
    var c := UpTo(o, o.scc[i]);
    forall x: nat, y: nat | x in c && Edge(g, x, y) ensures y in c { ListedStep(g, o, x, y, o.scc[i]); }
    assert Listed(o, o.fun[i], o.scc[i]);
    ReachStays(g, c, o.fun[i], o.fun[j]);
    ListedOnce(g, o, j, o.scc[i]);
  }

  // ------------------------------------------------------------------- the search state

  /** Index, lowlink and stack membership of every definition, the stack, the groups so far, and
      the functions whose visit has not ended (grays). */
  datatype Env = Env(num: seq<int>, low: seq<int>, on: seq<bool>, stack: seq<nat>, out: Groups, clock: int,
                     grays: set<nat>)

  predicate Shaped(g: Graph, e: Env) {
    && Formed(g) && |e.num| == |e.low| == |e.on| == |g.edges| && 0 <= e.clock
    && (forall x: nat :: x < |e.num| ==> (Node(g, x) ==> -1 <= e.num[x] < e.clock) && (e.on[x] <==> x in e.stack))
    && (forall x: nat :: x < |e.num| && !Node(g, x) && g.level[x] == g.here ==> e.num[x] != -1)
  }

  /** Every function is unvisited, on the stack, or listed. */
  ghost predicate Sorted(g: Graph, e: Env)
    requires Shaped(g, e)
  {
    && (forall i :: 0 <= i < |e.stack| ==> Node(g, e.stack[i]) && e.num[e.stack[i]] != -1 && e.stack[i] !in e.out.fun)
    && (forall i, j :: 0 <= i < j < |e.stack| ==> e.num[e.stack[i]] < e.num[e.stack[j]])
    && (forall x: nat :: Node(g, x) ==> (e.num[x] != -1 <==> x in e.stack || x in e.out.fun))
    && (forall x :: x in e.grays ==> x in e.stack)
  }

  /** A function whose visit has ended uses no unvisited one. */
  ghost predicate NoWhite(g: Graph, e: Env)
    requires Shaped(g, e)
  {
    forall x: nat, y: nat :: Edge(g, x, y) && e.num[x] != -1 && x !in e.grays ==> e.num[y] != -1
  }

  /** The stack reaches upwards, and every entry reaches back to a visit that has not ended. */
  ghost predicate Threaded(g: Graph, e: Env) {
    && (forall i, j :: 0 <= i <= j < |e.stack| ==> Reach(g, e.stack[i], e.stack[j]))
    && (forall i :: 0 <= i < |e.stack| ==> Anchored(g, e, i))
  }

  ghost predicate Anchored(g: Graph, e: Env, i: nat)
    requires i < |e.stack|
  {
    exists j :: 0 <= j <= i && e.stack[j] in e.grays && Reach(g, e.stack[i], e.stack[j])
  }

  ghost predicate Wf(g: Graph, e: Env) {
    Shaped(g, e) && Sorted(g, e) && NoWhite(g, e) && Threaded(g, e) && Grouped(g, e.out)
  }

  /** e' continues e. */
  ghost predicate Continues(e: Env, e': Env) {
    && |e'.num| == |e.num| && |e'.low| == |e.low| == |e.num| && e.clock <= e'.clock && e.stack <= e'.stack
    && e.out.fun <= e'.out.fun && e.out.scc <= e'.out.scc
    && forall x :: 0 <= x < |e.num| && e.num[x] != -1 ==> e'.num[x] == e.num[x] && e'.low[x] == e.low[x]
  }

  /** The lowlink of v is the index of a stack entry it reaches. */
  ghost predicate LowReached(g: Graph, e: Env, v: nat)
    requires Shaped(g, e) && Sorted(g, e) && v < |e.low|
  {
    exists i :: 0 <= i < |e.stack| && e.num[e.stack[i]] == e.low[v] && Reach(g, v, e.stack[i])
  }

  /** Edges from the stack, at position `from` and up, into its first `base` entries. */
  ghost predicate Bounded(g: Graph, e: Env, base: nat, from: nat, low: int)
    requires Shaped(g, e) && Sorted(g, e)
  {
    forall i, j :: from <= i < |e.stack| && 0 <= j < base && j < |e.stack| && Edge(g, e.stack[i], e.stack[j]) ==>
      low <= e.num[e.stack[j]]
  }

  ghost predicate Entry(g: Graph, e: Env, v: nat) {
    Wf(g, e) && Node(g, v) && e.num[v] == -1 && forall x :: x in e.grays ==> Reach(g, x, v)
  }

  /** What visiting v does. */
  ghost predicate Exit(g: Graph, e: Env, e': Env, v: nat) {
    && Wf(g, e') && Continues(e, e') && e'.grays == e.grays && v < |e'.num| && e.clock <= e'.num[v]
    && e'.low[v] <= e'.num[v]
    && (LowReached(g, e', v) || e'.low[v] == e'.num[v]) && Bounded(g, e', |e.stack|, |e.stack|, e'.low[v])
  }

  function Begin(e: Env, v: nat): Env
    requires v < |e.num| == |e.low| == |e.on|
  {
    Env(e.num[v := e.clock], e.low[v := e.clock], e.on[v := true], e.stack + [v], e.out, e.clock + 1, e.grays + {v})
  }

  lemma {:induction false} BeginSorted(g: Graph, e: Env, v: nat)
    requires Entry(g, e, v)
    ensures Shaped(g, Begin(e, v)) && Sorted(g, Begin(e, v)) && NoWhite(g, Begin(e, v))
  {
  }

  lemma {:induction false} BeginThreaded(g: Graph, e: Env, v: nat)
    requires Entry(g, e, v)
    ensures Threaded(g, Begin(e, v))
  {
    var e' := Begin(e, v);
    ReachSelf(g, v);
    assert e'.stack[|e.stack|] == v;
    assert Anchored(g, e', |e.stack|);
    forall i | 0 <= i < |e.stack| ensures Reach(g, e.stack[i], v) && Anchored(g, e', i) { BeginAnchored(g, e, v, i); }
    forall i, j | 0 <= i <= j < |e'.stack| ensures Reach(g, e'.stack[i], e'.stack[j]) { }
  }

  lemma {:induction false} BeginAnchored(g: Graph, e: Env, v: nat, i: nat)
    requires Entry(g, e, v) && i < |e.stack|
    ensures Reach(g, e.stack[i], v) && Anchored(g, Begin(e, v), i)
  {
    var e' := Begin(e, v);
    assert Anchored(g, e, i);
    var j :| 0 <= j <= i && e.stack[j] in e.grays && Reach(g, e.stack[i], e.stack[j]);
    ReachTrans(g, e.stack[i], e.stack[j], v);
    assert e'.stack[j] == e.stack[j] && e'.stack[i] == e.stack[i];
  }

  /** v is being visited, since e0. */
  ghost predicate Opened(g: Graph, e0: Env, e: Env, v: nat) {
    && Wf(g, e) && Node(g, v) && v < |e0.num| && e0.num[v] == -1 && Continues(e0, e) && e.num[v] == e0.clock
    && e0.stack + [v] <= e.stack && e.grays == e0.grays + {v} && v !in e0.grays
    && forall x :: x in e0.grays ==> x in e0.stack && Reach(g, x, v)
  }

  ghost predicate LowOk(g: Graph, e0: Env, e: Env, v: nat)
    requires Wf(g, e) && v < |e.low|
  {
    e.low[v] <= e.num[v] && LowReached(g, e, v) && Bounded(g, e, |e0.stack|, |e0.stack| + 1, e.low[v])
  }

  /** Part of the way through the edges of v. */
  ghost predicate Mid(g: Graph, e0: Env, e: Env, v: nat, k: nat) {
    Opened(g, e0, e, v) && LowOk(g, e0, e, v) && k <= |g.edges[v]| && AllSeen(g, e0, e, v, k)
  }

  /** The first k definitions v uses. */
  ghost predicate AllSeen(g: Graph, e0: Env, e: Env, v: nat, k: nat)
    requires v < |g.edges| && k <= |g.edges[v]| && v < |e.low| && |e.num| == |g.edges|
  {
    forall j :: 0 <= j < k && Node(g, g.edges[v][j]) ==> Seen(e0, e, v, g.edges[v][j])
  }

  ghost predicate Seen(e0: Env, e: Env, v: nat, w: nat)
    requires v < |e.low| && w < |e.num|
  {
    e.num[w] != -1 && (w in e0.stack ==> e.low[v] <= e.num[w])
  }

  lemma {:induction false} MidBegins(g: Graph, e: Env, v: nat)
    requires Entry(g, e, v)
    ensures Mid(g, e, Begin(e, v), v, 0)
  {
    BeginSorted(g, e, v);
    BeginThreaded(g, e, v);
    var e' := Begin(e, v);
    ReachSelf(g, v);
    assert e'.stack[|e.stack|] == v;
  }

  function Lower(e: Env, v: nat, n: int): Env
    requires v < |e.low|
  {
    e.(low := e.low[v := if n < e.low[v] then n else e.low[v]])
  }

  lemma {:induction false} LowerWf(g: Graph, e: Env, v: nat, n: int)
    requires Wf(g, e) && v < |e.low|
    ensures Wf(g, Lower(e, v, n))
  {
    var e' := Lower(e, v, n);
    forall i | 0 <= i < |e.stack| ensures Anchored(g, e', i) {
      assert Anchored(g, e, i);
      var j :| 0 <= j <= i && e.stack[j] in e.grays && Reach(g, e.stack[i], e.stack[j]);
    }
  }

  lemma {:induction false} EntryFromMid(g: Graph, e0: Env, e: Env, v: nat, k: nat, w: nat)
    requires Mid(g, e0, e, v, k) && k < |g.edges[v]| && w == g.edges[v][k] && Node(g, w) && e.num[w] == -1
    ensures Entry(g, e, w)
  {
    assert Edge(g, v, w);
    ReachEdge(g, v, w);
    forall x | x in e.grays ensures Reach(g, x, w) {
      if x != v { ReachTrans(g, x, v, w); }
    }
  }

  /** The lowlink stays the index of a stack entry v reaches. */
  lemma {:induction false} LowerReached(g: Graph, e: Env, v: nat, n: int, i: nat)
    requires Wf(g, e) && v < |e.low| && i < |e.stack|
    requires if n < e.low[v] then e.num[e.stack[i]] == n && Reach(g, v, e.stack[i]) else LowReached(g, e, v)
    ensures Wf(g, Lower(e, v, n)) && LowReached(g, Lower(e, v, n), v)
  {
    var e' := Lower(e, v, n);
    LowerWf(g, e, v, n);
    if n < e.low[v] {
      assert e'.num[e'.stack[i]] == e'.low[v];
    } else {
      var j :| 0 <= j < |e.stack| && e.num[e.stack[j]] == e.low[v] && Reach(g, v, e.stack[j]);
      assert e'.num[e'.stack[j]] == e'.low[v];
    }
  }

  lemma {:induction false} LowKept(g: Graph, e: Env, e': Env, v: nat)
    requires Wf(g, e) && Wf(g, e') && Continues(e, e') && v < |e.num| && e.num[v] != -1 && LowReached(g, e, v)
    ensures LowReached(g, e', v)
  {
    var i :| 0 <= i < |e.stack| && e.num[e.stack[i]] == e.low[v] && Reach(g, v, e.stack[i]);
    assert e'.stack[i] == e.stack[i];
  }

  /** v's lowlink, once lowered by what visiting w found. */
  lemma {:induction false} VisitLow(g: Graph, e: Env, e': Env, v: nat, w: nat)
    requires Wf(g, e) && Exit(g, e, e', w) && Edge(g, v, w) && v < |e.num| && e.num[v] != -1 && e.low[v] <= e.num[v]
    requires LowReached(g, e, v)
    ensures LowReached(g, Lower(e', v, e'.low[w]), v)
  {
    LowKept(g, e, e', v);
    var i := LowWitness(g, e', v);
    if e'.low[w] < e'.low[v] {
      assert e'.low[v] < e.clock <= e'.num[w];
      i := LowWitness(g, e', w);
      ReachEdge(g, v, w);
      ReachTrans(g, v, w, e'.stack[i]);
    }
    LowerReached(g, e', v, e'.low[w], i);
  }

  lemma {:induction false} LowWitness(g: Graph, e: Env, v: nat) returns (i: nat)
    requires Wf(g, e) && v < |e.low| && LowReached(g, e, v)
    ensures i < |e.stack| && e.stack[i] < |e.num| && e.num[e.stack[i]] == e.low[v] && Reach(g, v, e.stack[i])
  {
    i :| 0 <= i < |e.stack| && e.num[e.stack[i]] == e.low[v] && Reach(g, v, e.stack[i]);
  }

  lemma {:induction false} BoundedKept(g: Graph, e: Env, e': Env, base: nat, from: nat, low: int, low': int, low'': int)
    requires Wf(g, e) && Wf(g, e') && Continues(e, e') && base <= |e.stack| && Bounded(g, e, base, from, low)
    requires Bounded(g, e', |e.stack|, |e.stack|, low') && low'' <= low && low'' <= low'
    ensures Bounded(g, e', base, from, low'')
  {
    forall i, j | from <= i < |e'.stack| && 0 <= j < base && j < |e'.stack| && Edge(g, e'.stack[i], e'.stack[j])
      ensures low'' <= e'.num[e'.stack[j]]
    {
      assert e'.stack[j] == e.stack[j];
      if i < |e.stack| { assert e'.stack[i] == e.stack[i]; }
    }
  }

  lemma {:induction false} SeenKept(g: Graph, e0: Env, e: Env, e': Env, v: nat, k: nat)
    requires v < |g.edges| && k < |g.edges[v]| && v < |e.low| == |e'.low| && |e.num| == |g.edges| == |e'.num|
    requires e'.low[v] <= e.low[v]
    requires AllSeen(g, e0, e, v, k) && forall x :: 0 <= x < |e.num| && e.num[x] != -1 ==> e'.num[x] == e.num[x]
    requires Node(g, g.edges[v][k]) ==> Seen(e0, e', v, g.edges[v][k])
    ensures AllSeen(g, e0, e', v, k + 1)
  {
    forall j | 0 <= j < k + 1 && Node(g, g.edges[v][j]) ensures Seen(e0, e', v, g.edges[v][j]) {
      if j < k { assert Seen(e0, e, v, g.edges[v][j]); }
    }
  }

  lemma {:induction false} OpenedOn(g: Graph, e0: Env, e: Env, v: nat, e': Env, n: int)
    requires Opened(g, e0, e, v) && Wf(g, e') && Continues(e, e') && e'.grays == e.grays
    ensures Opened(g, e0, Lower(e', v, n), v)
  {
    LowerWf(g, e', v, n);
    assert e0.stack <= e.stack <= e'.stack && e0.out.fun <= e.out.fun <= e'.out.fun
      && e0.out.scc <= e.out.scc <= e'.out.scc;
  }

  lemma {:induction false} BoundedLower(g: Graph, e: Env, v: nat, n: int, base: nat, from: nat, low: int)
    requires Wf(g, e) && v < |e.low| && Wf(g, Lower(e, v, n)) && Bounded(g, e, base, from, low)
    ensures Bounded(g, Lower(e, v, n), base, from, low)
  {
  }

  lemma {:induction false} VisitLowOk(g: Graph, e0: Env, e: Env, v: nat, w: nat, e': Env, r: Env)
    requires Opened(g, e0, e, v) && LowOk(g, e0, e, v) && Edge(g, v, w) && Exit(g, e, e', w)
    requires r == Lower(e', v, e'.low[w]) && Wf(g, r)
    ensures LowOk(g, e0, r, v)
  {
    VisitLow(g, e, e', v, w);
    BoundedKept(g, e, e', |e0.stack|, |e0.stack| + 1, e.low[v], e'.low[w], r.low[v]);
    BoundedLower(g, e', v, e'.low[w], |e0.stack|, |e0.stack| + 1, r.low[v]);
  }

  lemma {:induction false} VisitSeen(g: Graph, e0: Env, e: Env, v: nat, k: nat, w: nat, e': Env, r: Env)
    requires Mid(g, e0, e, v, k) && k < |g.edges[v]| && w == g.edges[v][k] && Node(g, w) && e.num[w] == -1
    requires Continues(e, e') && w < |e'.num| && e'.num[w] != -1 && r == Lower(e', v, e'.low[w])
    ensures AllSeen(g, e0, r, v, k + 1)
  {
    assert w !in e0.stack by { assert w !in e.stack && e0.stack <= e.stack; }
    SeenKept(g, e0, e, r, v, k);
  }

  /** One edge on, over a function that had not been visited. */
  lemma {:induction false} MidVisits(g: Graph, e0: Env, e: Env, v: nat, k: nat, w: nat, e': Env)
    requires Mid(g, e0, e, v, k) && k < |g.edges[v]| && w == g.edges[v][k] && Node(g, w) && e.num[w] == -1
    requires Exit(g, e, e', w)
    ensures Mid(g, e0, Lower(e', v, e'.low[w]), v, k + 1)
  {
    var r := Lower(e', v, e'.low[w]);
    assert Edge(g, v, w);
    OpenedOn(g, e0, e, v, e', e'.low[w]);
    VisitLowOk(g, e0, e, v, w, e', r);
    VisitSeen(g, e0, e, v, k, w, e', r);
  }

  /** One edge on, over a function on the stack. */
  lemma {:induction false} MidMeets(g: Graph, e0: Env, e: Env, v: nat, k: nat, w: nat, i: nat)
    requires Mid(g, e0, e, v, k) && k < |g.edges[v]| && w == g.edges[v][k] && Node(g, w) && i < |e.stack|
    requires e.stack[i] == w
    ensures Mid(g, e0, Lower(e, v, e.num[w]), v, k + 1)
  {
    var n := e.num[w];
    var r := Lower(e, v, n);
    assert Edge(g, v, w);
    ReachEdge(g, v, w);
    OpenedOn(g, e0, e, v, e, n);
    LowerReached(g, e, v, n, i);
    BoundedLess(g, e, |e0.stack|, |e0.stack| + 1, e.low[v], r.low[v]);
    BoundedLower(g, e, v, n, |e0.stack|, |e0.stack| + 1, r.low[v]);
    SeenKept(g, e0, e, r, v, k);
  }

  lemma {:induction false} BoundedLess(g: Graph, e: Env, base: nat, from: nat, low: int, low': int)
    requires Wf(g, e) && Bounded(g, e, base, from, low) && low' <= low
    ensures Bounded(g, e, base, from, low')
  {
  }

  /** One edge on, over anything else. */
  lemma {:induction false} MidSkips(g: Graph, e0: Env, e: Env, v: nat, k: nat)
    requires Mid(g, e0, e, v, k) && k < |g.edges[v]|
    requires Node(g, g.edges[v][k]) ==> e.num[g.edges[v][k]] != -1 && g.edges[v][k] !in e.stack
    ensures Mid(g, e0, e, v, k + 1)
  {
    SeenKept(g, e0, e, e, v, k);
  }

  // ----------------------------------------------------------------- the end of a visit

  /** All edges of v are looked at. */
  lemma {:induction false} AllEdgesSeen(g: Graph, e0: Env, e: Env, v: nat, w: nat)
    requires v < |g.edges| && Mid(g, e0, e, v, |g.edges[v]|) && Edge(g, v, w)
    ensures Seen(e0, e, v, w)
  {
    var j :| 0 <= j < |g.edges[v]| && g.edges[v][j] == w;
  }

  lemma {:induction false} OpenedAt(g: Graph, e0: Env, e: Env, v: nat)
    requires Opened(g, e0, e, v)
    ensures |e0.stack| < |e.stack| && e.stack[|e0.stack|] == v
    ensures forall i :: 0 <= i < |e0.stack| ==> e.stack[i] == e0.stack[i]
  {
    assert e.stack[|e0.stack|] == (e0.stack + [v])[|e0.stack|];
    forall i | 0 <= i < |e0.stack| ensures e.stack[i] == e0.stack[i] { assert e.stack[i] == (e0.stack + [v])[i]; }
  }

  /** v stays on the stack. */
  lemma {:induction false} EndsOnStack(g: Graph, e0: Env, e: Env, v: nat)
    requires v < |g.edges| && Mid(g, e0, e, v, |g.edges[v]|) && e.low[v] < e.num[v]
    ensures Exit(g, e0, e.(grays := e0.grays), v)
  {
    var e' := e.(grays := e0.grays);
    EndsWf(g, e0, e, v, e');
    EndsBounded(g, e0, e, v);
    EndsLow(g, e0, e, v, e');
  }

  lemma {:induction false} EndsWf(g: Graph, e0: Env, e: Env, v: nat, e': Env)
    requires v < |g.edges| && Mid(g, e0, e, v, |g.edges[v]|) && e.low[v] < e.num[v] && e' == e.(grays := e0.grays)
    ensures Wf(g, e') && Continues(e0, e')
  {
    OpenedAt(g, e0, e, v);
    EndsNoWhite(g, e0, e, v, e');
    forall i | 0 <= i < |e.stack| ensures Anchored(g, e', i) { EndsAnchored(g, e0, e, v, i); }
  }

  lemma {:induction false} EndsLow(g: Graph, e0: Env, e: Env, v: nat, e': Env)
    requires v < |g.edges| && Mid(g, e0, e, v, |g.edges[v]|) && e' == e.(grays := e0.grays) && Wf(g, e')
    requires Bounded(g, e, |e0.stack|, |e0.stack|, e.low[v])
    ensures LowReached(g, e', v) && Bounded(g, e', |e0.stack|, |e0.stack|, e'.low[v])
  {
    var i := LowWitness(g, e, v);
    assert e'.stack[i] == e.stack[i];
  }

  lemma {:induction false} EndsNoWhite(g: Graph, e0: Env, e: Env, v: nat, e': Env)
    requires v < |g.edges| && Mid(g, e0, e, v, |g.edges[v]|) && Shaped(g, e') && e'.num == e.num && e'.grays == e0.grays
    ensures NoWhite(g, e')
  {
    forall x: nat, y: nat | Edge(g, x, y) && e'.num[x] != -1 && x !in e'.grays ensures e'.num[y] != -1 {
      if x == v { AllEdgesSeen(g, e0, e, v, y); }
    }
  }

  lemma {:induction false} EndsBounded(g: Graph, e0: Env, e: Env, v: nat)
    requires v < |g.edges| && Mid(g, e0, e, v, |g.edges[v]|)
    ensures Bounded(g, e, |e0.stack|, |e0.stack|, e.low[v])
  {
    var b := |e0.stack|;
    OpenedAt(g, e0, e, v);
    forall i, j | b <= i < |e.stack| && 0 <= j < b && j < |e.stack| && Edge(g, e.stack[i], e.stack[j])
      ensures e.low[v] <= e.num[e.stack[j]]
    {
      if i == b { AllEdgesSeen(g, e0, e, v, e.stack[j]); assert e.stack[j] in e0.stack; }
    }
  }

  /** A stack entry below v among the grays is one of e0's. */
  lemma {:induction false} GrayBelow(g: Graph, e0: Env, e: Env, v: nat, j: nat)
    requires Opened(g, e0, e, v) && j < |e.stack| && e.stack[j] in e.grays
    ensures j < |e0.stack| ==> e.stack[j] in e0.grays
    ensures j >= |e0.stack| ==> j == |e0.stack|
  {
    OpenedAt(g, e0, e, v);
    forall m | 0 <= m < j ensures e.stack[m] != e.stack[j] { assert e.num[e.stack[m]] < e.num[e.stack[j]]; }
  }

  lemma {:induction false} EndsAnchored(g: Graph, e0: Env, e: Env, v: nat, i: nat)
    requires Opened(g, e0, e, v) && LowReached(g, e, v) && e.low[v] < e.num[v] && i < |e.stack|
    ensures Anchored(g, e.(grays := e0.grays), i)
  {
    var e' := e.(grays := e0.grays);
    OpenedAt(g, e0, e, v);
    assert Anchored(g, e, i);
    var j :| 0 <= j <= i && e.stack[j] in e.grays && Reach(g, e.stack[i], e.stack[j]);
    GrayBelow(g, e0, e, v, j);
    if j == |e0.stack| {
      var j' := LowAnchored(g, e0, e, v);
      ReachTrans(g, e.stack[i], v, e.stack[j']);
      assert e'.stack[j'] in e'.grays;
    } else {
      assert e'.stack[j] in e'.grays;
    }
  }

  /** v reaches an older visit that has not ended. */
  lemma {:induction false} LowAnchored(g: Graph, e0: Env, e: Env, v: nat) returns (j: nat)
    requires Opened(g, e0, e, v) && LowReached(g, e, v) && e.low[v] < e.num[v]
    ensures j < |e0.stack| && j < |e.stack| && e.stack[j] in e0.grays && Reach(g, v, e.stack[j])
  {
    OpenedAt(g, e0, e, v);
    var m :| 0 <= m < |e.stack| && e.num[e.stack[m]] == e.low[v] && Reach(g, v, e.stack[m]);
    assert m < |e0.stack|;
    assert Anchored(g, e, m);
    j :| 0 <= j <= m && e.stack[j] in e.grays && Reach(g, e.stack[m], e.stack[j]);
    GrayBelow(g, e0, e, v, j);
    ReachTrans(g, v, e.stack[m], e.stack[j]);
  }

  function Repeated(x: nat, n: nat): (r: seq<nat>)
    ensures |r| == n && forall i :: 0 <= i < n ==> r[i] == x
  {
    seq(n, _ => x)
  }

  function GroupAdded(o: Groups, group: seq<nat>): Groups {
    Groups(o.fun + Reversed(group), o.scc + Repeated(|o.fun|, |group|))
  }

  /** e' is e with the stack popped down to its first b entries, as one group. */
  predicate PoppedTo(e: Env, b: nat, grays: set<nat>, e': Env)
    requires b <= |e.stack|
  {
    && e'.num == e.num && e'.low == e.low && e'.clock == e.clock && e'.stack == e.stack[..b] && e'.grays == grays
    && e'.out == GroupAdded(e.out, e.stack[b..])
    && |e'.on| == |e.on| && forall x: nat :: x < |e.on| ==> (e'.on[x] <==> e.on[x] && x !in e.stack[b..])
  }

  lemma {:induction false} InTop(s: seq<nat>, b: nat, x: nat) returns (i: nat)
    requires b <= |s| && x in s[b..]
    ensures b <= i < |s| && s[i] == x
  {
    var k :| 0 <= k < |s[b..]| && s[b..][k] == x;
    i := b + k;
  }

  lemma {:induction false} TopAt(s: seq<nat>, b: nat, i: nat)
    requires b <= |s| && i < |s|
    ensures b <= i ==> s[i] in s[b..] && s[b..][i - b] == s[i]
  {
  }

  lemma {:induction false} InBottom(s: seq<nat>, b: nat, x: nat)
    requires b <= |s| && x in s && x !in s[b..]
    ensures x in s[..b]
  {
    var k :| 0 <= k < |s| && s[k] == x;
    TopAt(s, b, k);
    assert s[..b][k] == x;
  }

  /** What is popped uses only what is popped or listed already. */
  lemma {:induction false} PoppedUses(g: Graph, e0: Env, e: Env, v: nat, x: nat, y: nat)
    requires v < |g.edges| && Mid(g, e0, e, v, |g.edges[v]|) && e.low[v] == e.num[v] && |e0.stack| <= |e.stack|
    requires x in e.stack[|e0.stack|..] && Edge(g, x, y)
    ensures y in e.stack[|e0.stack|..] || y in e.out.fun
  {
    var b := |e0.stack|;
    OpenedAt(g, e0, e, v);
    var i := InTop(e.stack, b, x);
    PoppedSees(g, e0, e, v, i, y);
    if y !in e.out.fun && y !in e.stack[b..] {
      InBottom(e.stack, b, y);
      var j :| 0 <= j < b && e.stack[..b][j] == y;
      NotBelow(g, e0, e, v, i, j);
    }
  }

  /** Nothing from v on uses what is below v. */
  lemma {:induction false} NotBelow(g: Graph, e0: Env, e: Env, v: nat, i: nat, j: nat)
    requires v < |g.edges| && Mid(g, e0, e, v, |g.edges[v]|) && e.low[v] == e.num[v] && j < |e0.stack| <= i < |e.stack|
    ensures !Edge(g, e.stack[i], e.stack[j])
  {
    OpenedAt(g, e0, e, v);
    EndsBounded(g, e0, e, v);
    assert e.num[e.stack[j]] < e.num[e.stack[|e0.stack|]];
  }

  lemma {:induction false} PoppedSees(g: Graph, e0: Env, e: Env, v: nat, i: nat, y: nat)
    requires v < |g.edges| && Mid(g, e0, e, v, |g.edges[v]|) && |e0.stack| <= i < |e.stack| && Edge(g, e.stack[i], y)
    ensures e.num[y] != -1
  {
    OpenedAt(g, e0, e, v);
    if i == |e0.stack| {
      AllEdgesSeen(g, e0, e, v, y);
    } else if e.stack[i] in e.grays {
      GrayBelow(g, e0, e, v, i);
    }
  }

  /** What is on the stack from position b on, and what is listed. */
  ghost function Topped(e: Env, b: nat): iset<nat>
    requires b <= |e.stack|
  {
    iset x: nat | x in e.stack[b..] || x in e.out.fun
  }

  lemma {:induction false} ListedUses(g: Graph, o: Groups, x: nat, y: nat)
    requires Grouped(g, o) && x in o.fun && Edge(g, x, y)
    ensures y in o.fun
  {
    var k :| 0 <= k < |o.fun| && o.fun[k] == x;
    assert Listed(o, y, o.scc[k]);
  }

  lemma {:induction false} PoppedShut(g: Graph, e0: Env, e: Env, v: nat)
    requires v < |g.edges| && Mid(g, e0, e, v, |g.edges[v]|) && e.low[v] == e.num[v] && |e0.stack| <= |e.stack|
    ensures Shut(g, Topped(e, |e0.stack|))
  {
    var c := Topped(e, |e0.stack|);
    forall x: nat, y: nat | x in c && Edge(g, x, y) ensures y in c {
      if x in e.stack[|e0.stack|..] { PoppedUses(g, e0, e, v, x, y); } else { ListedUses(g, e.out, x, y); }
    }
  }

  /** Everything popped reaches v. */
  lemma {:induction false} PoppedReach(g: Graph, e0: Env, e: Env, v: nat, i: nat)
    requires Opened(g, e0, e, v) && |e0.stack| <= i < |e.stack| && Shut(g, Topped(e, |e0.stack|))
    ensures Reach(g, e.stack[i], v)
  {
    var b := |e0.stack|;
    OpenedAt(g, e0, e, v);
    assert Anchored(g, e, i);
    var j :| 0 <= j <= i && e.stack[j] in e.grays && Reach(g, e.stack[i], e.stack[j]);
    TopAt(e.stack, b, i);
    ReachStays(g, Topped(e, b), e.stack[i], e.stack[j]);
    StackPosition(g, e, b, j);
    GrayBelow(g, e0, e, v, j);
  }

  /** A stack entry is found at its own position only. */
  lemma {:induction false} StackPosition(g: Graph, e: Env, b: nat, j: nat)
    requires Wf(g, e) && b <= |e.stack| && j < |e.stack|
    ensures e.stack[j] in e.stack[b..] ==> b <= j
  {
    if e.stack[j] in e.stack[b..] {
      var k := InTop(e.stack, b, e.stack[j]);
      if j < k { assert false; }
    }
  }

  /** The popped entries make a group. */
  lemma {:induction false} GroupedMore(g: Graph, o: Groups, group: seq<nat>)
    requires Grouped(g, o) && (forall i :: 0 <= i < |group| ==> Node(g, group[i]) && group[i] !in o.fun)
    requires forall i, j :: 0 <= i < j < |group| ==> group[i] != group[j]
    requires forall i, j :: 0 <= i < |group| && 0 <= j < |group| ==> Reach(g, group[i], group[j])
    requires forall i, y: nat :: 0 <= i < |group| && Edge(g, group[i], y) ==> y in group || y in o.fun
    ensures Grouped(g, GroupAdded(o, group))
  {
    var o' := GroupAdded(o, group);
    forall i, j | 0 <= i < |o'.fun| && 0 <= j < |o'.fun| && o'.scc[i] == o'.scc[j]
      ensures Reach(g, o'.fun[i], o'.fun[j])
    {
      GroupedReach(g, o, group, i, j);
    }
    forall i, w: nat | 0 <= i < |o'.fun| && Edge(g, o'.fun[i], w) ensures Listed(o', w, o'.scc[i]) {
      GroupedListed(g, o, group, i, w);
    }
  }

  lemma {:induction false} GroupedReach(g: Graph, o: Groups, group: seq<nat>, i: nat, j: nat)
    requires Grouped(g, o) && i < |o.fun| + |group| && j < |o.fun| + |group|
    requires GroupAdded(o, group).scc[i] == GroupAdded(o, group).scc[j]
    requires forall i, j :: 0 <= i < |group| && 0 <= j < |group| ==> Reach(g, group[i], group[j])
    ensures Reach(g, GroupAdded(o, group).fun[i], GroupAdded(o, group).fun[j])
  {
  }

  lemma {:induction false} GroupedListed(g: Graph, o: Groups, group: seq<nat>, i: nat, w: nat)
    requires Grouped(g, o) && i < |o.fun| + |group| && Edge(g, GroupAdded(o, group).fun[i], w)
    requires forall i, y: nat :: 0 <= i < |group| && Edge(g, group[i], y) ==> y in group || y in o.fun
    ensures Listed(GroupAdded(o, group), w, GroupAdded(o, group).scc[i])
  {
    var o', n, m := GroupAdded(o, group), |o.fun|, |group|;
    if i < n {
      assert Listed(o, w, o.scc[i]);
      var j :| 0 <= j < |o.fun| && o.fun[j] == w && o.scc[j] <= o.scc[i];
      assert o'.fun[j] == w && o'.scc[j] <= o'.scc[i];
    } else {
      assert o'.fun[i] == group[m - 1 - (i - n)];
      ListedMore(o, group, w);
    }
  }

  lemma {:induction false} ListedMore(o: Groups, group: seq<nat>, w: nat)
    requires |o.fun| == |o.scc| && (forall i :: 0 <= i < |o.fun| ==> o.scc[i] <= i) && (w in group || w in o.fun)
    ensures Listed(GroupAdded(o, group), w, |o.fun|)
  {
    var o', n := GroupAdded(o, group), |o.fun|;
    if w in group {
      InReversed(group, w);
      var k :| 0 <= k < |group| && Reversed(group)[k] == w;
      assert o'.fun[n + k] == w && o'.scc[n + k] <= n;
    } else {
      var k :| 0 <= k < |o.fun| && o.fun[k] == w;
      assert o'.fun[k] == w && o'.scc[k] <= n;
    }
  }

  lemma {:induction false} PoppedGroup(g: Graph, e0: Env, e: Env, v: nat, group: seq<nat>)
    requires Opened(g, e0, e, v) && |e0.stack| <= |e.stack| && Shut(g, Topped(e, |e0.stack|))
    requires group == e.stack[|e0.stack|..]
    ensures Grouped(g, GroupAdded(e.out, group))
  {
    var b := |e0.stack|;
    forall i, j | 0 <= i < |group| && 0 <= j < |group|
      ensures Reach(g, group[i], group[j])
    {
      PoppedMutual(g, e0, e, v, b + i, b + j);
    }
    forall i | 0 <= i < |group|
      ensures Node(g, group[i]) && group[i] !in e.out.fun
    {
      assert group[i] == e.stack[b + i];
    }
    forall i, y: nat | 0 <= i < |group| && Edge(g, group[i], y) ensures y in group || y in e.out.fun {
      PoppedStays(g, e, b, group[i], y);
    }
    forall i, j | 0 <= i < j < |group|
      ensures group[i] != group[j]
    {
      assert e.num[e.stack[b + i]] < e.num[e.stack[b + j]];
    }
    GroupedMore(g, e.out, group);
  }

  lemma {:induction false} PoppedStays(g: Graph, e: Env, b: nat, x: nat, y: nat)
    requires b <= |e.stack| && Shut(g, Topped(e, b)) && x in e.stack[b..] && Edge(g, x, y)
    ensures y in e.stack[b..] || y in e.out.fun
  {
    assert x in Topped(e, b);
  }

  lemma {:induction false} PoppedMutual(g: Graph, e0: Env, e: Env, v: nat, i: nat, j: nat)
    requires Opened(g, e0, e, v) && |e0.stack| <= i < |e.stack| && |e0.stack| <= j < |e.stack|
    requires Shut(g, Topped(e, |e0.stack|))
    ensures Reach(g, e.stack[i], e.stack[j])
  {
    OpenedAt(g, e0, e, v);
    PoppedReach(g, e0, e, v, i);
    assert Reach(g, e.stack[|e0.stack|], e.stack[j]);
    ReachTrans(g, e.stack[i], v, e.stack[j]);
  }

  lemma {:induction false} PoppedSorted(g: Graph, e: Env, b: nat, grays: set<nat>, e': Env)
    requires Wf(g, e) && b <= |e.stack| && PoppedTo(e, b, grays, e') && forall x :: x in grays ==> x in e.stack[..b]
    ensures Shaped(g, e') && Sorted(g, e')
  {
    forall x: nat | x < |e.on| ensures e'.on[x] <==> x in e'.stack {
      if x in e.stack && x !in e.stack[b..] { InBottom(e.stack, b, x); }
      if x in e.stack[..b] { BottomNotTop(g, e, b, x); }
    }
    forall i | 0 <= i < b ensures e.stack[i] !in e'.out.fun {
      StackPosition(g, e, b, i);
      InReversed(e.stack[b..], e.stack[i]);
    }
    forall x: nat | Node(g, x) ensures e'.num[x] != -1 <==> x in e'.stack || x in e'.out.fun {
      InReversed(e.stack[b..], x);
      if x in e.stack && x !in e.stack[b..] { InBottom(e.stack, b, x); }
    }
  }

  lemma {:induction false} BottomNotTop(g: Graph, e: Env, b: nat, x: nat)
    requires Wf(g, e) && b <= |e.stack| && x in e.stack[..b]
    ensures x !in e.stack[b..]
  {
    var i :| 0 <= i < b && e.stack[..b][i] == x;
    StackPosition(g, e, b, i);
  }

  lemma {:induction false} PoppedThreaded(g: Graph, e0: Env, e: Env, v: nat, e': Env)
    requires Opened(g, e0, e, v) && |e0.stack| <= |e.stack| && PoppedTo(e, |e0.stack|, e0.grays, e')
    ensures Threaded(g, e')
  {
    forall i | 0 <= i < |e'.stack| ensures Anchored(g, e', i) {
      assert Anchored(g, e, i);
      var j :| 0 <= j <= i && e.stack[j] in e.grays && Reach(g, e.stack[i], e.stack[j]);
      GrayBelow(g, e0, e, v, j);
      assert e'.stack[j] in e'.grays;
    }
  }

  /** v and what is above it on the stack are popped as a group. */
  lemma {:induction false} EndsAsGroup(g: Graph, e0: Env, e: Env, v: nat, e': Env)
    requires v < |g.edges| && Mid(g, e0, e, v, |g.edges[v]|) && e.low[v] == e.num[v] && |e0.stack| <= |e.stack|
    requires PoppedTo(e, |e0.stack|, e0.grays, e')
    ensures Exit(g, e0, e', v)
  {
    OpenedAt(g, e0, e, v);
    assert e.stack[..|e0.stack|] == e0.stack;
    PoppedSorted(g, e, |e0.stack|, e0.grays, e');
    EndsNoWhite(g, e0, e, v, e');
    PoppedThreaded(g, e0, e, v, e');
    PoppedShut(g, e0, e, v);
    PoppedGroup(g, e0, e, v, e.stack[|e0.stack|..]);
  }

  // ---------------------------------------------------------------------- the search

  ghost function Unvisited(num: seq<int>): set<int> {
    set x | 0 <= x < |num| && num[x] == -1
  }

  // --------------------------------------------------- definitions without an expression

  /** Functions first visited between e0 and e are reached from v, and `now` tells whether one without an
      expression was among them, or was met before; v itself is not counted. */
  ghost predicate Tracked(g: Graph, e0: Env, e: Env, v: nat, was: bool, now: bool) {
    && |e.num| == |e0.num| && (forall x: nat :: Fresh(e0, e, x) ==> Reach(g, v, x))
    && (now <==> was || exists x: nat :: Fresh(e0, e, x) && x != v && Absent(g, x))
  }

  predicate Fresh(e0: Env, e: Env, x: nat) {
    x < |e0.num| && x < |e.num| && e0.num[x] == -1 && e.num[x] != -1
  }

  predicate Absent(g: Graph, x: nat) {
    Node(g, x) && x < |g.missing| && g.missing[x]
  }

  lemma {:induction false} TrackBegins(g: Graph, e: Env, v: nat, was: bool)
    requires v < |e.num| == |e.low| == |e.on|
    ensures Tracked(g, e, Begin(e, v), v, was, was)
  {
    ReachSelf(g, v);
  }

  lemma {:induction false} TrackSame(g: Graph, e0: Env, e: Env, e': Env, v: nat, was: bool, now: bool)
    requires Tracked(g, e0, e, v, was, now) && e'.num == e.num
    ensures Tracked(g, e0, e', v, was, now)
  {
    forall x: nat ensures Fresh(e0, e', x) <==> Fresh(e0, e, x) { }
  }

  /** Following an edge to w: whatever is new is w or was new in w's visit. */
  lemma {:induction false} TrackDescends(g: Graph, e0: Env, e: Env, v: nat, w: nat, e': Env, was: bool, before: bool,
                                         now: bool)
    requires Continues(e0, e) && Exit(g, e, e', w) && Edge(g, v, w) && w < |g.missing|
    requires v < |e.num| && e.num[v] != -1 && w < |e.num| && e.num[w] == -1 && 0 <= e.clock
    requires Tracked(g, e0, e, v, was, before) && Tracked(g, e, e', w, before || g.missing[w], now)
    ensures Tracked(g, e0, e', v, was, now)
  {
    forall x: nat ensures Fresh(e0, e', x) <==> Fresh(e0, e, x) || Fresh(e, e', x) { }
    forall x: nat | Fresh(e, e', x) ensures Reach(g, v, x) {
      ReachEdge(g, v, w);
      ReachTrans(g, v, w, x);
    }
    assert Fresh(e, e', w) && w != v && !Fresh(e, e', v);
  }

  class SCCState {
    const g: Graph
    var num: seq<int>
    var low: seq<int>
    var on: seq<bool>
    var stack: seq<nat>
    var fun: seq<nat>
    var scc: seq<nat>
    var clock: int
    /** A definition without an expression was asked whether it is a function; in the source, a null pointer. */
    var broken: bool
    ghost var grays: set<nat>

    ghost function View(): Env
      reads this
    {
      Env(num, low, on, stack, Groups(fun, scc), clock, grays)
    }

    /** Functions start unvisited; values count as visited and are never on the stack. */
    constructor (g: Graph)
      requires Formed(g)
      ensures this.g == g && Wf(g, View()) && fun == [] && stack == [] && grays == {} && !broken
      ensures forall x: nat :: Node(g, x) ==> num[x] == -1
    {
      this.g := g;
      var n := |g.edges|;
      num := seq(n, x requires 0 <= x < n => if Node(g, x) then -1 else 0);
      low := seq(n, _ => 0);
      on := seq(n, _ => false);
      stack, fun, scc, clock, broken, grays := [], [], [], 0, false, {};
    }

    /** SCC */
    method Visit(v: nat, ghost e0: Env) returns (ghost e: Env)
      requires View() == e0 && Entry(g, e0, v)
      modifies this
      ensures View() == e && Exit(g, e0, e, v) && Tracked(g, e0, e, v, old(broken), broken)
      decreases Unvisited(e0.num), 1
    {
      e := Enter(v, e0);
      for k := 0 to |g.edges[v]|
        invariant View() == e && Mid(g, e0, e, v, k) && Tracked(g, e0, e, v, old(broken), broken)
      {
        e := Follow(v, k, e0, e, old(broken));
      }
      ghost var all := e;
      e := Finish(v, e0, e);
      TrackSame(g, e0, all, e, v, old(broken), broken);
    }

    method Enter(v: nat, ghost e0: Env) returns (ghost e: Env)
      requires View() == e0 && Entry(g, e0, v)
      modifies this
      ensures View() == e && Mid(g, e0, e, v, 0) && Tracked(g, e0, e, v, broken, broken) && broken == old(broken)
    {
      num, low := num[v := clock], low[v := clock];
      clock := clock + 1;
      stack := stack + [v];
      on := on[v := true];
      grays := grays + {v};
      e := Begin(e0, v);
      MidBegins(g, e0, v);
      TrackBegins(g, e0, v, broken);
    }

    /** v stays on the stack, or is popped with its group. */
    method Finish(v: nat, ghost e0: Env, ghost e: Env) returns (ghost e': Env)
      requires View() == e && v < |g.edges| && Mid(g, e0, e, v, |g.edges[v]|)
      modifies this
      ensures View() == e' && Exit(g, e0, e', v) && e'.num == e.num && broken == old(broken)
    {
      if low[v] == num[v] {
        PopsAt(g, e0, e, v);
        e' := Pop(v, |e0.stack|, e);
        EndsAsGroup(g, e0, e, v, e'.(grays := e0.grays));
      } else {
        EndsOnStack(g, e0, e, v);
        e' := e;
      }
      grays := e0.grays;
      e' := e'.(grays := e0.grays);
    }

    /** An edge of v to a function not visited yet; v's lowlink is still to be lowered. */
    method Descend(v: nat, k: nat, w: nat, ghost e0: Env, ghost e: Env, ghost was: bool) returns (ghost e': Env)
      requires View() == e && v < |g.edges| && k < |g.edges[v]| && w == g.edges[v][k] && Mid(g, e0, e, v, k)
      requires Node(g, w) && e.num[w] == -1 && w < |g.missing| && Tracked(g, e0, e, v, was, broken)
      modifies this
      ensures View() == e' && v < |e'.low| && w < |e'.low| && Mid(g, e0, Lower(e', v, e'.low[w]), v, k + 1)
      ensures Tracked(g, e0, e', v, was, broken)
      decreases Unvisited(e0.num), 0, 0
    {
      EntryFromMid(g, e0, e, v, k, w);
      StillFewer(e0, e, v);
      ghost var before := broken;
      if g.missing[w] { broken := true; }
      e' := Visit(w, e);
      MidVisits(g, e0, e, v, k, w, e');
      TrackDescends(g, e0, e, v, w, e', was, before, broken);
    }

    method LowerTo(v: nat, n: int)
      requires v < |low|
      modifies this`low
      ensures View() == Lower(old(View()), v, n)
    {
      low := low[v := if n < low[v] then n else low[v]];
    }

    /** An edge of v to a function on the stack. */
    method Meet(v: nat, k: nat, w: nat, ghost e0: Env, ghost e: Env) returns (ghost e': Env)
      requires View() == e && v < |g.edges| && k < |g.edges[v]| && w == g.edges[v][k] && Mid(g, e0, e, v, k) && e.on[w]
      modifies this`low
      ensures View() == e' && Mid(g, e0, e', v, k + 1) && e'.num == e.num
    {
      ghost var i := OnStackNode(g, e, w);
      MidMeets(g, e0, e, v, k, w, i);
      LowerTo(v, num[w]);
      e' := Lower(e, v, e.num[w]);
    }

    /** One edge of v. */
    method Follow(v: nat, k: nat, ghost e0: Env, ghost e: Env, ghost was: bool) returns (ghost e': Env)
      requires View() == e && v < |g.edges| && k < |g.edges[v]| && Mid(g, e0, e, v, k)
      requires Tracked(g, e0, e, v, was, broken)
      modifies this
      ensures View() == e' && Mid(g, e0, e', v, k + 1) && Tracked(g, e0, e', v, was, broken)
      decreases Unvisited(e0.num), 0, 2
    {
      var w := g.edges[v][k];
      if g.level[w] == g.here && num[w] == -1 && g.lambda[w] {
        ghost var e1 := Descend(v, k, w, e0, e, was);
        LowerTo(v, low[w]);
        e' := Lower(e1, v, e1.low[w]);
        TrackSame(g, e0, e1, e', v, was, broken);
      } else if g.level[w] == g.here && on[w] {
        e' := Meet(v, k, w, e0, e);
        TrackSame(g, e0, e, e', v, was, broken);
      } else {
        MidSkips(g, e0, e, v, k);
        e' := e;
      }
    }

    /** Pops down to v, which is at position b of the stack, listing what is popped as one group. */
    method Pop(v: nat, ghost b: nat, ghost e: Env) returns (ghost e': Env)
      requires View() == e && b < |e.stack| && InStack(e)
      requires forall i :: b <= i < |e.stack| ==> (e.stack[i] == v <==> i == b)
      modifies this
      ensures View() == e' && PoppedTo(e, b, e.grays, e') && broken == old(broken)
    {
      PopsNothing(e);
      e' := e;
      var id := |fun|;
      while true
        invariant View() == e' && b < |stack| <= |e.stack| && PoppedTo(e, |e'.stack|, e.grays, e') && id == |e.out.fun|
        invariant broken == old(broken)
        decreases |stack|
      {
        var w := stack[|stack| - 1];
        PopsOne(e, e');
        e' := PopOne(e', id);
        stack := stack[..|stack| - 1];
        on := on[w := false];
        fun := fun + [w];
        scc := scc + [id];
        if w == v { break; }
      }
    }
  }

  predicate InStack(e: Env) {
    forall i :: 0 <= i < |e.stack| ==> e.stack[i] < |e.on|
  }

  lemma {:induction false} OnStackNode(g: Graph, e: Env, w: nat) returns (i: nat)
    requires Wf(g, e) && w < |e.on| && e.on[w]
    ensures Node(g, w) && i < |e.stack| && e.stack[i] == w
  {
    i :| 0 <= i < |e.stack| && e.stack[i] == w;
  }

  function PopOne(e: Env, id: nat): Env
    requires e.stack != [] && e.stack[|e.stack| - 1] < |e.on|
  {
    var w := e.stack[|e.stack| - 1];
    e.(stack := e.stack[..|e.stack| - 1], on := e.on[w := false], out := Groups(e.out.fun + [w], e.out.scc + [id]))
  }

  lemma {:induction false} PopsNothing(e: Env)
    ensures PoppedTo(e, |e.stack|, e.grays, e)
  {
    assert e.stack[..|e.stack|] == e.stack && e.stack[|e.stack|..] == [];
    assert e.out.fun + Reversed([]) == e.out.fun && e.out.scc + Repeated(|e.out.fun|, 0) == e.out.scc;
  }

  lemma {:induction false} GroupGrows(o: Groups, w: nat, group: seq<nat>)
    ensures var p := GroupAdded(o, group); GroupAdded(o, [w] + group) == Groups(p.fun + [w], p.scc + [|o.fun|])
  {
    assert Reversed([w] + group) == Reversed(group) + [w];
    assert Repeated(|o.fun|, |[w] + group|) == Repeated(|o.fun|, |group|) + [|o.fun|];
  }

  lemma {:induction false} PopsOne(e: Env, e1: Env)
    requires InStack(e) && 0 < |e1.stack| <= |e.stack| && PoppedTo(e, |e1.stack|, e.grays, e1)
    ensures e1.stack[|e1.stack| - 1] == e.stack[|e1.stack| - 1] < |e1.on|
    ensures PoppedTo(e, |e1.stack| - 1, e.grays, PopOne(e1, |e.out.fun|))
  {
    var m := |e1.stack|;
    var w := e.stack[m - 1];
    assert e1.stack[m - 1] == w;
    assert e.stack[m - 1..] == [w] + e.stack[m..];
    assert e.stack[..m][..m - 1] == e.stack[..m - 1];
    GroupGrows(e.out, w, e.stack[m..]);
  }

  /** v is found at its own place in the stack. */
  lemma {:induction false} PopsAt(g: Graph, e0: Env, e: Env, v: nat)
    requires Opened(g, e0, e, v)
    ensures InStack(e) && |e0.stack| < |e.stack|
    ensures forall i :: |e0.stack| <= i < |e.stack| ==> (e.stack[i] == v <==> i == |e0.stack|)
  {
    OpenedAt(g, e0, e, v);
    forall i | |e0.stack| < i < |e.stack|
      ensures e.stack[i] != v
    {
      assert e.num[e.stack[|e0.stack|]] < e.num[e.stack[i]];
    }
  }

  lemma {:induction false} StillFewer(e0: Env, e: Env, v: nat)
    requires Continues(e0, e) && v < |e0.num| && e0.num[v] == -1 && e.num[v] != -1
    ensures Unvisited(e.num) < Unvisited(e0.num)
  {
    assert v in Unvisited(e0.num) && v !in Unvisited(e.num);
    forall x | x in Unvisited(e.num) ensures x in Unvisited(e0.num) { }
  }

  // ------------------------------------------------------------------- a whole level

  /** With every visit ended, the stack is empty. */
  lemma {:induction false} StackEmpty(g: Graph, e: Env)
    requires Wf(g, e) && e.grays == {}
    ensures e.stack == []
  {
    assert e.stack != [] ==> Anchored(g, e, 0);
  }

  lemma {:induction false} AllListed(g: Graph, e: Env, j: nat)
    requires Wf(g, e) && e.stack == [] && Node(g, j) && e.num[j] != -1
    ensures j in e.out.fun
  {
  }

  /** The functions among the first j definitions are visited. */
  ghost predicate Swept(g: Graph, e: Env, j: nat) {
    Wf(g, e) && e.grays == {} && VisitedTo(g, e.num, j)
  }

  predicate VisitedTo(g: Graph, num: seq<int>, j: nat) {
    forall x: nat :: x < j && Node(g, x) ==> x < |num| && num[x] != -1
  }

  lemma {:induction false} VisitedOn(g: Graph, num: seq<int>, num': seq<int>, j: nat)
    requires VisitedTo(g, num, j) && |num'| == |num| && forall x :: 0 <= x < |num| && num[x] != -1 ==> num'[x] == num[x]
    requires j < |num'| && num'[j] != -1
    ensures VisitedTo(g, num', j + 1)
  {
  }

  lemma {:induction false} SweptOn(g: Graph, e: Env, j: nat, e': Env)
    requires Swept(g, e, j) && Exit(g, e, e', j)
    ensures Swept(g, e', j + 1)
  {
    VisitedOn(g, e.num, e'.num, j);
  }

  lemma {:induction false} SweptAll(g: Graph, e: Env, o: Groups)
    requires Swept(g, e, |g.edges|) && o == e.out
    ensures Grouped(g, o) && forall x: nat :: Node(g, x) <==> x in o.fun
  {
    StackEmpty(g, e);
    forall x: nat | Node(g, x) ensures x in e.out.fun { AllListed(g, e, x); }
  }

  /** w has no expression, and a function before it reaches it. */
  ghost predicate Stumbles(g: Graph, r: nat, w: nat) {
    r < w && Node(g, r) && Absent(g, w) && Reach(g, r, w)
  }

  /** The search has stumbled exactly if one of the first j functions leads to that; a function visited
      before its turn is reached from one of them. */
  ghost predicate Noted(g: Graph, e: Env, j: nat, broken: bool) {
    && (broken <==> exists r: nat, w: nat :: r < j && Stumbles(g, r, w))
    && forall x: nat :: j <= x < |e.num| && Node(g, x) && e.num[x] != -1 ==> Ahead(g, j, x)
  }

  ghost predicate Ahead(g: Graph, j: nat, x: nat) {
    exists r: nat :: r < j && Node(g, r) && Reach(g, r, x)
  }

  /** Once every visit has ended, what a visited function reaches is visited. */
  lemma {:induction false} VisitedStays(g: Graph, e: Env, x: nat, y: nat)
    requires Wf(g, e) && e.grays == {} && Node(g, x) && e.num[x] != -1 && Reach(g, x, y) && Node(g, y)
    ensures e.num[y] != -1
  {
    var c := iset z: nat | Node(g, z) && e.num[z] != -1;
    ReachStays(g, c, x, y);
  }

  lemma {:induction false} AheadMore(g: Graph, j: nat, x: nat, y: nat)
    requires Ahead(g, j, x) && Reach(g, x, y)
    ensures Ahead(g, j, y)
  {
    var r: nat :| r < j && Node(g, r) && Reach(g, r, x);
    ReachTrans(g, r, x, y);
  }

  lemma {:induction false} AheadStumbles(g: Graph, j: nat, w: nat)
    requires Ahead(g, j, w) && j <= w && Absent(g, w)
    ensures exists r: nat :: r < j && Stumbles(g, r, w)
  {
    var r: nat :| r < j && Node(g, r) && Reach(g, r, w);
    assert Stumbles(g, r, w);
  }

  /** The j-th definition is visited in its turn. */
  lemma {:induction false} NotedVisit(g: Graph, e: Env, j: nat, e': Env, was: bool, now: bool)
    requires Swept(g, e, j) && Noted(g, e, j, was) && Node(g, j) && e.num[j] == -1
    requires Exit(g, e, e', j) && Tracked(g, e, e', j, was, now)
    ensures Noted(g, e', j + 1, now)
  {
    forall x: nat | j + 1 <= x < |e'.num| && Node(g, x) && e'.num[x] != -1 ensures Ahead(g, j + 1, x) {
      if e.num[x] != -1 { assert Ahead(g, j, x); } else { assert Fresh(e, e', x); }
    }
    if now && !was {
      var w: nat :| Fresh(e, e', w) && w != j && Absent(g, w);
      assert Stumbles(g, j, w);
    }
    forall r: nat, w: nat | r < j + 1 && Stumbles(g, r, w) ensures now {
      if r == j {
        VisitedStays(g, e', j, w);
        if e.num[w] == -1 { assert Fresh(e, e', w); } else { AheadStumbles(g, j, w); }
      }
    }
  }

  /** The j-th definition is no function of the level, or was visited before its turn. */
  lemma {:induction false} NotedSkip(g: Graph, e: Env, j: nat, broken: bool)
    requires Swept(g, e, j) && Noted(g, e, j, broken) && j < |e.num| && (Node(g, j) ==> e.num[j] != -1)
    ensures Noted(g, e, j + 1, broken)
  {
    forall x: nat | j + 1 <= x < |e.num| && Node(g, x) && e.num[x] != -1 ensures Ahead(g, j + 1, x) {
      assert Ahead(g, j, x);
    }
    forall r: nat, w: nat | r < j + 1 && Stumbles(g, r, w) ensures broken {
      if r == j {
        AheadMore(g, j, j, w);
        AheadStumbles(g, j, w);
      }
    }
  }

  /** The functions of a level in groups: exactly the functions of the level, contiguous and in order.  The
      search asks a definition without an expression what it is exactly if a function before it reaches it. */
  method GroupLevel(g: Graph) returns (o: Groups, broken: bool)
    requires Formed(g)
    ensures Grouped(g, o) && forall x: nat :: Node(g, x) <==> x in o.fun
    ensures broken <==> exists r: nat, w: nat :: Stumbles(g, r, w)
  {
    var state := new SCCState(g);
    ghost var e := state.View();
    for j := 0 to |g.edges|
      invariant state.g == g && state.View() == e && Turn(g, e, j, state.broken)
    {
      e := GroupNext(state, j, e);
    }
    o, broken := Groups(state.fun, state.scc), state.broken;
    SweptAll(g, e, o);
    NotedAll(g, e, broken);
  }

  /** Up to the j-th definition. */
  ghost predicate Turn(g: Graph, e: Env, j: nat, broken: bool) {
    Swept(g, e, j) && Noted(g, e, j, broken)
  }

  lemma {:induction false} TurnEntry(g: Graph, e: Env, j: nat, broken: bool)
    requires Turn(g, e, j, broken) && Node(g, j) && e.num[j] == -1
    ensures Entry(g, e, j)
  {
  }

  lemma {:induction false} TurnVisited(g: Graph, e: Env, j: nat, e': Env, was: bool, now: bool)
    requires Turn(g, e, j, was) && Node(g, j) && e.num[j] == -1
    requires Exit(g, e, e', j) && Tracked(g, e, e', j, was, now)
    ensures Turn(g, e', j + 1, now)
  {
    SweptOn(g, e, j, e');
    NotedVisit(g, e, j, e', was, now);
  }

  lemma {:induction false} TurnSkipped(g: Graph, e: Env, j: nat, broken: bool)
    requires Turn(g, e, j, broken) && j < |e.num| && (Node(g, j) ==> e.num[j] != -1)
    ensures Turn(g, e, j + 1, broken)
  {
    NotedSkip(g, e, j, broken);
  }

  method GroupNext(state: SCCState, j: nat, ghost e: Env) returns (ghost e': Env)
    requires state.View() == e && j < |state.g.edges| && Turn(state.g, e, j, state.broken)
    modifies state
    ensures state.View() == e' && Turn(state.g, e', j + 1, state.broken)
  {
    var g := state.g;
    if Node(g, j) && state.num[j] == -1 {
      ghost var was := state.broken;
      TurnEntry(g, e, j, was);
      e' := state.Visit(j, e);
      TurnVisited(g, e, j, e', was, state.broken);
    } else {
      e' := e;
      TurnSkipped(g, e, j, state.broken);
    }
  }

  lemma {:induction false} NotedAll(g: Graph, e: Env, broken: bool)
    requires Noted(g, e, |g.edges|, broken)
    ensures broken <==> exists r: nat, w: nat :: Stumbles(g, r, w)
  {
    forall r: nat, w: nat | Stumbles(g, r, w) ensures broken { assert r < |g.edges|; }
  }

  /** One let-binding: the values of a level, and its functions in groups; and whether the search for them
      met a definition without an expression. */
  datatype Binding = Binding(vals: seq<nat>, funs: Groups, broken: bool)

  function GraphAt(defs: seq<Def>, levels: seq<nat>, i: nat): (g: Graph)
    requires |levels| == |defs|
    ensures |g.edges| == |g.level| == |g.lambda| == |g.missing| == |defs| && g.here == i
    ensures forall v :: 0 <= v < |defs| ==>
      && g.edges[v] == defs[v].edges && g.level[v] == levels[v]
      && g.lambda[v] == !defs[v].value && g.missing[v] == defs[v].missing
  {
    Graph(seq(|defs|, v requires 0 <= v < |defs| => defs[v].edges),
          seq(|defs|, v requires 0 <= v < |defs| => levels[v]),
          seq(|defs|, v requires 0 <= v < |defs| => !defs[v].value),
          seq(|defs|, v requires 0 <= v < |defs| => defs[v].missing), i)
  }

  /** The binding of level i: its values in source order and its functions grouped. */
  ghost predicate Bound(defs: seq<Def>, levels: seq<nat>, i: nat, b: Binding)
    requires |levels| == |defs|
  {
    && Grouped(GraphAt(defs, levels, i), b.funs)
    && (b.broken <==> exists r: nat, w: nat :: Stumbles(GraphAt(defs, levels, i), r, w))
    && (forall x: nat :: x in b.funs.fun <==> x < |defs| && levels[x] == i && !defs[x].value)
    && (forall x: nat :: x in b.vals <==> x < |defs| && levels[x] == i && defs[x].value)
    && forall j, k :: 0 <= j < k < |b.vals| ==> b.vals[j] < b.vals[k]
  }

  ghost predicate AllBound(defs: seq<Def>, levels: seq<nat>, bindings: seq<Binding>) {
    |levels| == |defs| && forall i: nat :: i < |bindings| ==> Bound(defs, levels, i, bindings[i])
  }

  /** fracture_binding: levels, and from innermost to outermost the binding of each. */
  method FractureBinding(defs: array<Def>) returns (levels: seq<nat>, bindings: seq<Binding>, cycles: seq<seq<nat>>)
    requires InScope(defs[..])
    modifies defs
    ensures LeastLevels(defs[..], levels) && Reported(old(defs[..]), cycles, defs[..])
    ensures |bindings| == defs.Length && AllBound(defs[..], levels, bindings)
  {
    levels, cycles := Fracture(defs);
    ghost var ds := defs[..];
    bindings := [];
    assert InScope(ds) by { Rescoped(old(defs[..]), cycles, ds); }
    for i := 0 to defs.Length
      invariant defs[..] == ds && |bindings| == i && AllBound(ds, levels, bindings)
    {
      bindings := BindNext(defs[..], levels, bindings);
    }
  }

  method BindLevel(defs: seq<Def>, levels: seq<nat>, i: nat) returns (b: Binding)
    requires |levels| == |defs| && InScope(defs)
    ensures Bound(defs, levels, i, b)
  {
    var g := GraphAt(defs, levels, i);
    var vals := ValuesAt(defs, levels, i);
    var o, broken := GroupLevel(g);
    b := Binding(vals, o, broken);
    LevelBound(defs, levels, i, g, b);
  }

  method BindNext(defs: seq<Def>, levels: seq<nat>, bindings: seq<Binding>) returns (more: seq<Binding>)
    requires InScope(defs) && AllBound(defs, levels, bindings)
    ensures |more| == |bindings| + 1 && AllBound(defs, levels, more)
  {
    var b := BindLevel(defs, levels, |bindings|);
    more := bindings + [b];
    BoundMore(defs, levels, bindings, b, more);
  }

  lemma {:induction false} BoundMore(defs: seq<Def>, levels: seq<nat>, bindings: seq<Binding>, b: Binding,
                                     more: seq<Binding>)
    requires AllBound(defs, levels, bindings) && Bound(defs, levels, |bindings|, b) && more == bindings + [b]
    ensures AllBound(defs, levels, more)
  {
    forall i: nat | i < |more| ensures Bound(defs, levels, i, more[i]) {
      if i < |bindings| { assert more[i] == bindings[i]; } else { assert more[i] == b; }
    }
  }

  lemma {:induction false} LevelBound(defs: seq<Def>, levels: seq<nat>, i: nat, g: Graph, b: Binding)
    requires |levels| == |defs| && g == GraphAt(defs, levels, i) && Grouped(g, b.funs)
    requires forall x: nat :: Node(g, x) <==> x in b.funs.fun
    requires b.broken <==> exists r: nat, w: nat :: Stumbles(g, r, w)
    requires forall x: nat :: x in b.vals <==> x < |defs| && levels[x] == i && defs[x].value
    requires forall j, k :: 0 <= j < k < |b.vals| ==> b.vals[j] < b.vals[k]
    ensures Bound(defs, levels, i, b)
  {
    forall x: nat ensures x in b.funs.fun <==> x < |defs| && levels[x] == i && !defs[x].value {
      assert Node(g, x) <==> x in b.funs.fun;
    }
  }

  lemma {:induction false} Rescoped(defs: seq<Def>, cycles: seq<seq<nat>>, defs': seq<Def>)
    requires InScope(defs) && Trimmed(defs, cycles, defs')
    ensures InScope(defs')
  {
  }

  method ValuesAt(defs: seq<Def>, levels: seq<nat>, i: nat) returns (vals: seq<nat>)
    requires |levels| == |defs|
    ensures forall x: nat :: x in vals <==> x < |defs| && levels[x] == i && defs[x].value
    ensures forall j, k :: 0 <= j < k < |vals| ==> vals[j] < vals[k]
  {
    vals := [];
    for x := 0 to |defs|
      invariant forall y: nat :: y in vals <==> y < x && levels[y] == i && defs[y].value
      invariant forall j, k :: 0 <= j < k < |vals| ==> vals[j] < vals[k]
    {
      if levels[x] == i && defs[x].value {
        forall j | 0 <= j < |vals| ensures vals[j] < x { assert vals[j] in vals; }
        vals := vals + [x];
      }
    }
  }

  /** `def b x = c` and `def c = c`; definitions come in the order of their names. */
  const KNOT: seq<Def> := [Def(false, false, [1]), Def(true, false, [1])]

  /** The cycle is reported and wiped out, and then the search asks what c is. */
  lemma {:induction false} ReportThenStumble(cycles: seq<seq<nat>>, defs: seq<Def>, levels: seq<nat>)
    requires Reported(KNOT, cycles, defs) && LeastLevels(defs, levels)
    ensures cycles != [] && Stumbles(GraphAt(defs, levels, 0), 0, 1)
  {
    KnotUntied(cycles, defs, levels);
    assert Solves(defs, [0, 0]);
    assert NoHigher(levels, [0, 0]);
    var g := GraphAt(defs, levels, 0);
    assert Edge(g, 0, 1);
    ReachEdge(g, 0, 1);
  }

  lemma {:induction false} KnotUntied(cycles: seq<seq<nat>>, defs: seq<Def>, levels: seq<nat>)
    requires Reported(KNOT, cycles, defs) && Solves(defs, levels)
    ensures cycles != [] && defs == [Def(false, false, [1]), WIPED]
  {
    assert defs[1] == KNOT[1] ==> UsedBy(defs, 1, 1);
    NobodyUsesFirst();
    forall k | 0 <= k < |cycles| ensures 0 !in cycles[k] { NotOnCycle(KNOT, cycles[k], 0); }
  }

  lemma {:induction false} NobodyUsesFirst()
    ensures forall v: nat :: !UsedBy(KNOT, 0, v)
  {
    assert KNOT[0].edges == [1] && KNOT[1].edges == [1];
  }

  lemma {:induction false} NotOnCycle(defs: seq<Def>, c: seq<nat>, x: nat)
    requires Cycle(defs, c) && forall v: nat :: !UsedBy(defs, x, v)
    ensures x !in c
  {
    forall k | 0 <= k < |c| ensures c[k] != x {
      if k < |c| - 1 { assert UsedBy(defs, c[k], c[k + 1]); }
    }
  }
}
