/** Common sub-expression elimination.

    A term's key is its shape, with each operand named by frame depth and offset
    (hashes are taken to be injective).  A term whose key is already in the table
    is dropped in favour of the earlier one, unless it is ordered.
 */
module Cse {
  import opened Sequences
  import opened Ssa
  import opened SsaRelation
  import opened TermStreams
  import opened UsageSweep

  datatype Ref = Ref(depth: nat, offset: nat)

  datatype Key =
    | KLit(value: int)
    | KRedux(op: Op, refs: seq<Ref>)
    | KFun(depth: nat, args: nat, size: nat, output: Ref, body: seq<Key>)

  predicate Frames(starts: seq<nat>) {
    starts != [] && starts[0] == 0
  }

  /** hash_arg: the innermost frame starting at or before the index. */
  function HashArg(starts: seq<nat>, x: nat): (r: Ref)
    requires Frames(starts)
    ensures r.depth < |starts| && starts[r.depth] + r.offset == x
    ensures forall d :: r.depth < d < |starts| ==> x < starts[d]
  {
    var z := |starts| - 1;
    if starts[z] <= x then Ref(z, x - starts[z]) else HashArg(starts[..z], x)
  }

  function HashArgs(starts: seq<nat>, args: seq<nat>): (r: seq<Ref>)
    requires Frames(starts)
    ensures |r| == |args| && forall i :: 0 <= i < |args| ==> r[i] == HashArg(starts, args[i])
  {
    seq(|args|, i requires 0 <= i < |args| => HashArg(starts, args[i]))
  }

  /** The key of a finished term at index k, inside the given frames. */
  function KeyTerm(t: Term, k: nat, starts: seq<nat>): Key
    requires !t.Arg? && (starts == [] ==> t.Fun? && k == 0) && (starts != [] ==> Frames(starts))
    decreases t, 1
  {
    match t
    case Lit(_, x) => KLit(x)
    case Redux(_, op, args) => KRedux(op, HashArgs(starts, args))
    case Fun(_, _, terms, output) =>
      var inner := starts + [k];
      KFun(|inner|, CountArgs(terms), |terms|, HashArg(inner, output), BodyKeys(terms, k + 1, inner))
  }

  function BodyKeys(ts: seq<Term>, k: nat, starts: seq<nat>): (r: seq<Key>)
    requires Frames(starts)
    ensures |r| == |ts| - CountArgs(ts)
    decreases ts, 0
  {
    if ts == [] then [] else
    var z := |ts| - 1;
    BodyKeys(ts[..z], k, starts) + if ts[z].Arg? then [] else [KeyTerm(ts[z], k + z, starts)]
  }

  // ----------------------------------------------------------------------- the pass

  datatype Cse = Cse(terms: seq<Term>, map_: seq<int>, end: nat, table: map<Key, nat>, undo: seq<Key>)

  datatype Rewritten = Rewritten(term: Term, key: Key, table: map<Key, nat>)

  /** A term over target indices, its key, and the table with nothing of its inside left in it. */
  function Rewrite(t: Term, map_: seq<int>, end: nat, table: map<Key, nat>, starts: seq<nat>): Rewritten
    requires !t.Arg? && (starts == [] ==> t.Fun? && end == 0) && (starts != [] ==> Frames(starts))
    decreases t, 1
  {
    match t
    case Lit(_, x) => Rewritten(t, KLit(x), table)
    case Redux(_, op, args) =>
      var args' := LookAll(map_, args);
      Rewritten(t.(args := args'), KRedux(op, HashArgs(starts, args')), table)
    case Fun(_, _, terms, output) =>
      var inner := starts + [end];
      var body := CseBody(terms, map_ + [end], end + 1, table, inner);
      var output' := Look(body.map_, output);
      Rewritten(
        t.(terms := body.terms, output := output'),
        KFun(|inner|, CountArgs(terms), |body.terms|, HashArg(inner, output'), body.undo),
        body.table - (set x | x in body.undo))
  }

  /** cse_reduce: keep the term and remember its key, or fall back on an earlier equal one. */
  function Reduced(c: Cse, r: Rewritten, ordered: bool): Cse {
    if r.key in r.table && !ordered then
      Cse(c.terms, c.map_ + [r.table[r.key]], c.end, r.table, c.undo)
    else
      Cse(c.terms + [r.term], c.map_ + [c.end], c.end + 1,
          if r.key in r.table then r.table else r.table[r.key := c.end], c.undo + [r.key])
  }

  function CseBody(ts: seq<Term>, map_: seq<int>, end: nat, table: map<Key, nat>, starts: seq<nat>): (c: Cse)
    requires Frames(starts)
    ensures |c.map_| == |map_| + |ts| && c.end == end + |c.terms|
    decreases ts, 0
  {
    if ts == [] then Cse([], map_, end, table, []) else
    CseStep(CseBody(ts[..|ts| - 1], map_, end, table, starts), ts[|ts| - 1], starts)
  }

  function CseStep(c: Cse, t: Term, starts: seq<nat>): (c': Cse)
    requires Frames(starts)
    ensures |c'.map_| == |c.map_| + 1 && c'.end - |c'.terms| == c.end - |c.terms|
    decreases t, 2
  {
    if t.Arg?
    then c.(terms := c.terms + [t], map_ := c.map_ + [c.end], end := c.end + 1)
    else Reduced(c, Rewrite(t, c.map_, c.end, c.table, starts), t.flags.ordered)
  }

  /** The pass over a whole program: term 0, outside every frame. */
  function CsePass(top: Term): Term
    requires top.Fun?
  {
    Rewrite(top, [], 0, map[], []).term
  }

  // ------------------------------------------------------- what equal keys mean

  /** Parameters lead, in every function. */
  predicate ArgsLead(t: Term)
    decreases t
  {
    t.Fun? ==> Leading(t.terms, CountArgs(t.terms)) && forall i :: 0 <= i < |t.terms| ==> ArgsLead(t.terms[i])
  }

  predicate Leading(ts: seq<Term>, a: nat) {
    forall x :: 0 <= x < |ts| ==> (ts[x].Arg? <==> x < a)
  }

  lemma {:induction false} BodyKeyAt(ts: seq<Term>, k: nat, starts: seq<nat>, a: nat, i: nat)
    requires Frames(starts) && a <= i < |ts| && Leading(ts, a)
    ensures CountArgs(ts) == a && BodyKeys(ts, k, starts)[i - a] == KeyTerm(ts[i], k + i, starts)
    decreases |ts|
  {
    var z := |ts| - 1;
    if i < z {
      BodyKeyAt(ts[..z], k, starts, a, i);
    } else {
      LeadingCount(ts[..z], a);
    }
  }

  lemma {:induction false} LeadingCount(ts: seq<Term>, a: nat)
    requires a <= |ts| && Leading(ts, a)
    ensures CountArgs(ts) == a
  {
    if ts != [] { LeadingCount(ts[..|ts| - 1], if a == |ts| then a - 1 else a); }
  }

  /** Indices below j stay; those from k on move down onto those from j on. */
  function Fold(j: nat, k: nat): nat -> int {
    (i: nat) => if i < j then i else if k <= i then i - k + j else -1
  }

  /** Two chains of frames that agree up to frame d; from there one sits at k, the other at j. */
  predicate Aligned(starts: seq<nat>, starts': seq<nat>, d: nat, k: nat, j: nat) {
    && Frames(starts) && Frames(starts') && |starts| == |starts'| && d < |starts|
    && (forall i :: 0 <= i < d ==> starts[i] == starts'[i])
    && starts'[d] == j && j <= k
    && (forall i :: d <= i < |starts| ==> k <= starts[i] && starts[i] - k == starts'[i] - j)
  }

  lemma {:induction false} RefAligned(starts: seq<nat>, starts': seq<nat>, d: nat, k: nat, j: nat, x: nat, y: nat)
    requires Aligned(starts, starts', d, k, j) && HashArg(starts, x) == HashArg(starts', y)
    ensures Fold(j, k)(x) == y
  {
    var r := HashArg(starts, x);
    if r.depth < d { assert y < starts'[d]; }
  }

  /** Equal keys in aligned frames: the same code, up to where it sits. */
  lemma {:induction false} AlikeFromKeys(t: Term, t': Term, at: nat, at': nat, starts: seq<nat>, starts': seq<nat>,
                                         d: nat, k: nat, j: nat)
    requires !t.Arg? && !t'.Arg? && ArgsLead(t) && ArgsLead(t') && Aligned(starts, starts', d, k, j)
    requires k <= at && at - k == at' - j && KeyTerm(t, at, starts) == KeyTerm(t', at', starts')
    ensures Alike(t, t', Fold(j, k))
    decreases t, 2
  {
    match t
    case Lit(_, _) =>
    case Redux(_, _, args) =>
      forall i | 0 <= i < |args| ensures t'.args[i] == Fold(j, k)(args[i]) {
        assert HashArgs(starts, args)[i] == HashArgs(starts', t'.args)[i];
        RefAligned(starts, starts', d, k, j, args[i], t'.args[i]);
      }
    case Fun(_, _, _, _) =>
      FunAlikeFromKeys(t, t', at, at', starts, starts', d, k, j);
  }

  lemma {:induction false} FunAlikeFromKeys(f: Term, f': Term, at: nat, at': nat, starts: seq<nat>, starts': seq<nat>,
                                            d: nat, k: nat, j: nat)
    requires f.Fun? && f'.Fun? && ArgsLead(f) && ArgsLead(f') && Aligned(starts + [at], starts' + [at'], d, k, j)
    requires (starts == [] ==> at == 0) && (starts' == [] ==> at' == 0)
    requires KeyTerm(f, at, starts) == KeyTerm(f', at', starts')
    ensures Alike(f, f', Fold(j, k))
    decreases f, 1
  {
    var inner, inner' := starts + [at], starts' + [at'];
    assert inner[|starts|] == at && inner'[|starts'|] == at';
    RefAligned(inner, inner', d, k, j, f.output, f'.output);
    forall i | 0 <= i < |f.terms| ensures Alike(f.terms[i], f'.terms[i], Fold(j, k)) {
      BodyAlikeFromKeys(f, f', at, at', inner, inner', d, k, j, i);
    }
  }

  lemma {:induction false} BodyAlikeFromKeys(f: Term, f': Term, at: nat, at': nat, inner: seq<nat>, inner': seq<nat>,
                                             d: nat, k: nat, j: nat, i: nat)
    requires f.Fun? && f'.Fun? && ArgsLead(f) && ArgsLead(f') && Aligned(inner, inner', d, k, j) && k <= at
    requires at - k == at' - j
    requires i < |f.terms| == |f'.terms| && CountArgs(f.terms) == CountArgs(f'.terms)
    requires BodyKeys(f.terms, at + 1, inner) == BodyKeys(f'.terms, at' + 1, inner')
    ensures Alike(f.terms[i], f'.terms[i], Fold(j, k))
    decreases f, 0
  {
    var a := CountArgs(f.terms);
    if i >= a {
      KeysAgree(f.terms, f'.terms, at + 1, at' + 1, inner, inner', a, i);
      AlikeFromKeys(f.terms[i], f'.terms[i], at + 1 + i, at' + 1 + i, inner, inner', d, k, j);
    }
  }

  lemma {:induction false} KeysAgree(ts: seq<Term>, ts': seq<Term>, k: nat, k': nat, starts: seq<nat>,
                                     starts': seq<nat>, a: nat, i: nat)
    requires Frames(starts) && Frames(starts') && BodyKeys(ts, k, starts) == BodyKeys(ts', k', starts')
    requires a <= i < |ts| == |ts'| && Leading(ts, a) && Leading(ts', a)
    ensures !ts[i].Arg? && !ts'[i].Arg? && KeyTerm(ts[i], k + i, starts) == KeyTerm(ts'[i], k' + i, starts')
  {
    BodyKeyAt(ts, k, starts, a, i);
    BodyKeyAt(ts', k', starts', a, i);
  }

  // --------------------------------------------- the key of what the pass emits

  lemma {:induction false} RewriteKey(t: Term, map_: seq<int>, end: nat, table: map<Key, nat>, starts: seq<nat>)
    requires !t.Arg? && (starts == [] ==> t.Fun? && end == 0) && (starts != [] ==> Frames(starts))
    ensures var r := Rewrite(t, map_, end, table, starts);
      !r.term.Arg? && (starts == [] ==> r.term.Fun?) && r.key == KeyTerm(r.term, end, starts) && r.term.Fun? == t.Fun?
    decreases t, 1
  {
    if t.Fun? { BodyKeysOf(t.terms, map_ + [end], end + 1, table, starts + [end]); }
  }

  lemma {:induction false} BodyKeysSnoc(ts: seq<Term>, t: Term, ts': seq<Term>, k: nat, starts: seq<nat>)
    requires Frames(starts) && ts' == ts + [t]
    ensures BodyKeys(ts', k, starts) == BodyKeys(ts, k, starts) + if t.Arg? then [] else [KeyTerm(t, k + |ts|, starts)]
    ensures CountArgs(ts') == CountArgs(ts) + if t.Arg? then 1 else 0
  {
    assert ts'[..|ts|] == ts;
  }

  /** The keys remembered so far are those of the terms kept so far. */
  predicate Recorded(c: Cse, end: nat, args: nat, starts: seq<nat>)
    requires Frames(starts)
  {
    c.end == end + |c.terms| && c.undo == BodyKeys(c.terms, end, starts) && CountArgs(c.terms) == args
  }

  lemma {:induction false} StepRecords(c: Cse, t: Term, end: nat, args: nat, starts: seq<nat>)
    requires Frames(starts) && Recorded(c, end, args, starts)
    requires !t.Arg? ==>
      var r := Rewrite(t, c.map_, c.end, c.table, starts); !r.term.Arg? && r.key == KeyTerm(r.term, c.end, starts)
    ensures Recorded(CseStep(c, t, starts), end, args + if t.Arg? then 1 else 0, starts)
  {
    if t.Arg? {
      BodyKeysSnoc(c.terms, t, c.terms + [t], end, starts);
    } else {
      var r := Rewrite(t, c.map_, c.end, c.table, starts);
      BodyKeysSnoc(c.terms, r.term, c.terms + [r.term], end, starts);
    }
  }

  lemma {:induction false} BodyKeysOf(ts: seq<Term>, map_: seq<int>, end: nat, table: map<Key, nat>, starts: seq<nat>)
    requires Frames(starts)
    ensures Recorded(CseBody(ts, map_, end, table, starts), end, CountArgs(ts), starts)
    decreases ts, 0
  {
    if ts != [] {
      var z := |ts| - 1;
      BodyKeysOf(ts[..z], map_, end, table, starts);
      var c := CseBody(ts[..z], map_, end, table, starts);
      if !ts[z].Arg? { RewriteKey(ts[z], c.map_, c.end, c.table, starts); }
      StepRecords(c, ts[z], end, CountArgs(ts[..z]), starts);
    }
  }

  /** Whatever a function added to the table is gone when it ends. */
  lemma {:induction false} RewriteTable(t: Term, map_: seq<int>, end: nat, table: map<Key, nat>, starts: seq<nat>)
    requires !t.Arg? && (starts == [] ==> t.Fun? && end == 0) && (starts != [] ==> Frames(starts))
    ensures var r := Rewrite(t, map_, end, table, starts);
      forall x <- r.table :: x in table && r.table[x] == table[x]
    decreases t, 1
  {
    if t.Fun? { BodyTable(t.terms, map_ + [end], end + 1, table, starts + [end]); }
  }

  lemma {:induction false} BodyTable(ts: seq<Term>, map_: seq<int>, end: nat, table: map<Key, nat>, starts: seq<nat>)
    requires Frames(starts)
    ensures var c := CseBody(ts, map_, end, table, starts);
      forall x <- c.table :: x in c.undo || (x in table && c.table[x] == table[x])
    decreases ts, 0
  {
    if ts != [] {
      var z := |ts| - 1;
      BodyTable(ts[..z], map_, end, table, starts);
      var c := CseBody(ts[..z], map_, end, table, starts);
      if !ts[z].Arg? { RewriteTable(ts[z], c.map_, c.end, c.table, starts); }
    }
  }

  lemma {:induction false} RewriteLead(t: Term, map_: seq<int>, end: nat, table: map<Key, nat>, starts: seq<nat>)
    requires !t.Arg? && ArgsLead(t) && (starts == [] ==> t.Fun? && end == 0) && (starts != [] ==> Frames(starts))
    ensures ArgsLead(Rewrite(t, map_, end, table, starts).term)
    decreases t, 1
  {
    if t.Fun? {
      var a := CountArgs(t.terms);
      BodyLead(t.terms, a, map_ + [end], end + 1, table, starts + [end]);
      LeadingCount(CseBody(t.terms, map_ + [end], end + 1, table, starts + [end]).terms, a);
    }
  }

  lemma {:induction false} BodyLead(ts: seq<Term>, a: nat, map_: seq<int>, end: nat, table: map<Key, nat>,
                                    starts: seq<nat>)
    requires Frames(starts) && Leading(ts, a) && forall i :: 0 <= i < |ts| ==> ArgsLead(ts[i])
    ensures var c := CseBody(ts, map_, end, table, starts);
      && Leading(c.terms, a) && (if |ts| <= a then |c.terms| == |ts| else a <= |c.terms|)
      && forall i :: 0 <= i < |c.terms| ==> ArgsLead(c.terms[i])
    decreases ts, 0
  {
    if ts != [] {
      var z := |ts| - 1;
      BodyLead(ts[..z], a, map_, end, table, starts);
      var c := CseBody(ts[..z], map_, end, table, starts);
      if !ts[z].Arg? {
        RewriteLead(ts[z], c.map_, c.end, c.table, starts);
        RewriteKey(ts[z], c.map_, c.end, c.table, starts);
      }
    }
  }

  // ----------------------------------------------- what the table entries promise

  predicate RefsIn(refs: seq<Ref>, n: nat) {
    forall i :: 0 <= i < |refs| ==> refs[i].depth < n
  }

  function Resolve(starts: seq<nat>, refs: seq<Ref>): (r: seq<nat>)
    requires RefsIn(refs, |starts|)
    ensures |r| == |refs| && forall i :: 0 <= i < |refs| ==> r[i] == starts[refs[i].depth] + refs[i].offset
  {
    seq(|refs|, i requires 0 <= i < |refs| => starts[refs[i].depth] + refs[i].offset)
  }

  /** The operation gave w once, at some point of some run. */
  ghost predicate Yields(m: Machine, op: Op, vs: seq<Value>, w: Value) {
    exists k: nat, h: History :: Yielded(m, k, op, vs, h, w)
  }

  ghost predicate Yielded(m: Machine, k: nat, op: Op, vs: seq<Value>, h: History, w: Value) {
    var o := EvalOp(Free(m), k, op, vs, h);
    o.Done? && o.value == w
  }

  /** The value at j is what a term of this key evaluates to. */
  ghost predicate Holds(m: Machine, key: Key, j: nat, starts: seq<nat>, env: seq<Value>)
    requires j < |env|
  {
    match key
    case KLit(x) => env[j] == VLit(x)
    case KRedux(op, refs) =>
      && RefsIn(refs, |starts|) && InRange(Resolve(starts, refs), |env|)
      && Yields(m, op, Select(env, Resolve(starts, refs)), env[j])
    case KFun(depth, _, _, _, _) =>
      && 1 <= depth <= |starts| + 1 && (depth == 1 ==> j == 0) && (depth > 1 ==> Frames(starts))
      && FunAt(env[j], env[..j]) && KeyTerm(env[j].fun, j, starts[..depth - 1]) == key
  }

  ghost predicate FunAt(v: Value, env: seq<Value>) {
    v.VClo? && v.fun.Fun? && ArgsLead(v.fun) && v.env == env && v.applied == [] && !v.returned
  }

  ghost predicate TableOk(m: Machine, table: map<Key, nat>, starts: seq<nat>, env: seq<Value>) {
    forall key <- table :: table[key] < |env| && Holds(m, key, table[key], starts, env)
  }

  lemma {:induction false} HoldsMore(m: Machine, key: Key, j: nat, starts: seq<nat>, env: seq<Value>, starts': seq<nat>,
                                     env': seq<Value>)
    requires j < |env| && Holds(m, key, j, starts, env) && starts <= starts' && env <= env'
    ensures Holds(m, key, j, starts', env')
  {
    match key
    case KLit(_) =>
    case KRedux(op, refs) => RefsMore(refs, starts, env, starts', env');
    case KFun(depth, _, _, _, _) =>
      PrefixMore(env, env', j);
      PrefixMore(starts, starts', depth - 1);
  }

  lemma {:induction false} PrefixMore<T>(s: seq<T>, s': seq<T>, n: nat)
    requires n <= |s| && s <= s'
    ensures s'[..n] == s[..n]
  {
  }

  lemma {:induction false} RefsMore(refs: seq<Ref>, starts: seq<nat>, env: seq<Value>, starts': seq<nat>,
                                    env': seq<Value>)
    requires RefsIn(refs, |starts|) && InRange(Resolve(starts, refs), |env|) && starts <= starts' && env <= env'
    ensures Resolve(starts', refs) == Resolve(starts, refs)
    ensures Select(env', Resolve(starts, refs)) == Select(env, Resolve(starts, refs))
  {
  }

  lemma {:induction false} TableMore(m: Machine, table: map<Key, nat>, starts: seq<nat>, env: seq<Value>,
                                     starts': seq<nat>, env': seq<Value>)
    requires TableOk(m, table, starts, env) && starts <= starts' && env <= env'
    ensures TableOk(m, table, starts', env')
  {
    forall key | key in table ensures Holds(m, key, table[key], starts', env') {
      HoldsMore(m, key, table[key], starts, env, starts', env');
    }
  }

  // ------------------------------------------------------- the pass keeps meaning

  predicate AllMapped(map_: seq<int>) {
    forall i :: 0 <= i < |map_| ==> map_[i] >= 0
  }

  lemma {:induction false} MappedArgs(m: Machine, n: nat, args: seq<nat>, map_: seq<int>, env: seq<Value>,
                                      env': seq<Value>)
    requires EnvMapped(m, n, env, env', map_) && AllMapped(map_) && InRange(args, |env|)
    ensures InRange(LookAll(map_, args), |env'|)
    ensures AllRelated(m, n, Select(env, args), Select(env', LookAll(map_, args)))
  {
    forall i | 0 <= i < |args|
      ensures LookAll(map_, args)[i] < |env'| && Related(m, n, env[args[i]], env'[LookAll(map_, args)[i]])
    {
      assert map_[args[i]] >= 0;
    }
  }

  /** An operation free of order gives now what it gave before: its earlier value may stand for this one. */
  lemma {:induction false} MergedOp(m: Machine, n: nat, flags: Flags, op: Op, vs: seq<Value>, ws: seq<Value>, w: Value,
                                    h: History)
    requires m.check.CheckOrder? && !flags.ordered && AllRelated(m, n, vs, ws) && Yields(m, op, ws, w)
    requires Honoured(m, n, flags, op, vs, h) && EvalOp(m, n, op, vs, h).Done?
    ensures var o := EvalOp(m, n, op, vs, h); o.hist == h && Related(m, o.left, o.value, w)
  {
    var o := EvalOp(m, n, op, vs, h);
    assert EvalOp(m, n, op, vs, h) == Done(o.value, h, o.left);
    var k: nat, h1: History :| Yielded(m, k, op, ws, h1, w);
    assert EvalOp(m, n, op, vs, h1) == Done(o.value, h1, o.left);
    var k' := OpCongruent(m, n, op, vs, ws, h1);
    OpMore(Free(m), k, k', op, ws, h1);
    OpMore(Free(m), k', k, op, ws, h1);
  }

  /** Functions merged at one depth are the same code, up to where it sits. */
  lemma {:induction false} MergedAlike(f: Term, g: Term, starts: seq<nat>, k: nat, j: nat)
    requires f.Fun? && g.Fun? && ArgsLead(f) && ArgsLead(g) && j <= k && (starts == [] ==> k == 0)
    requires (starts != [] ==> Frames(starts))
    requires KeyTerm(f, k, starts) == KeyTerm(g, j, starts)
    ensures Alike(f, g, Fold(j, k))
  {
    FunAlikeFromKeys(f, g, k, j, starts, starts, |starts|, k, j);
  }

  lemma {:induction false} FoldEnv(m: Machine, n: nat, env: seq<Value>, j: nat)
    requires j <= |env|
    ensures EnvRelated(m, n, env, env[..j], Fold(j, |env|))
  {
    AllRelatedSelf(m, n, env);
  }

  /** A function with the key of an earlier one: that one's closure may stand for this one's. */
  lemma {:induction false} MergedFun(m: Machine, f: Term, g: Term, starts: seq<nat>, env: seq<Value>, j: nat)
    requires f.Fun? && g.Fun? && ArgsLead(f) && ArgsLead(g) && Frames(starts) && j < |env|
    requires KeyTerm(f, |env|, starts) == KeyTerm(g, j, starts)
    ensures Replaces(Free(m), VClo(f, env, []), VClo(g, env[..j], []))
  {
    MergedAlike(f, g, starts, |env|, j);
    forall n: nat ensures Related(Free(m), n, VClo(f, env, []), VClo(g, env[..j], [])) {
      FoldEnv(Free(m), n, env, j);
      FunAlike(Free(m), n, f, env, [], g, env[..j], [], Fold(j, |env|));
    }
  }

  lemma {:induction false} HeldFun(m: Machine, f: Term, starts: seq<nat>, env: seq<Value>, j: nat)
    requires f.Fun? && Frames(starts) && j < |env| && Holds(m, KeyTerm(f, |env|, starts), j, starts, env)
    ensures FunAt(env[j], env[..j]) && KeyTerm(env[j].fun, j, starts) == KeyTerm(f, |env|, starts)
  {
    assert starts[..|starts|] == starts;
  }

  ghost predicate CseSame(m: Machine, b: BodyOutcome, b': BodyOutcome, c: Cse, starts: seq<nat>)
    requires b.BodyDone?
  {
    BodySame(m, b, b', c.map_) && |b'.env| == c.end && TableOk(m, c.table, starts, b'.env)
  }

  /** What the source body does, the reduced body can do; the table describes its values. */
  ghost predicate CseMatched(m: Machine, n: nat, ts: seq<Term>, c: Cse, starts: seq<nat>, env: seq<Value>,
                             env': seq<Value>, h: History) {
    var b := EvalBody(m, n, ts, env, h);
    b.BodyDone? ==> exists k: nat :: CseSame(m, b, EvalBody(Free(m), k, c.terms, env', h), c, starts)
  }

  /** A term to be emitted: what it is worth, and what its key then promises. */
  ghost predicate Emits(m: Machine, n: nat, t: Term, r: Rewritten, starts: seq<nat>, env: seq<Value>, env': seq<Value>,
                        h: History) {
    && TermMatched(m, n, t, r.term, env, env', h)
    && (forall k: nat,
        v | EvalTerm(Free(m), k, r.term, env', h).Done? && v == EvalTerm(Free(m), k, r.term, env', h).value ::
         Holds(m, r.key, |env'|, starts, env' + [v]))
  }

  /** A term to be dropped: an earlier value may stand for it, and nothing happened. */
  ghost predicate Drops(m: Machine, n: nat, t: Term, j: nat, env: seq<Value>, env': seq<Value>, h: History) {
    var o := EvalTerm(m, n, t, env, h);
    o.Done? ==> j < |env'| && o.hist == h && Related(m, o.left, o.value, env'[j])
  }

  ghost predicate AlwaysDrops(m: Machine, n: nat, t: Term, j: nat, c: Cse, starts: seq<nat>) {
    forall n': nat, e, e', h | n' <= n && |e'| == c.end && EnvMapped(m, n', e, e', c.map_)
      && TableOk(m, c.table, starts, e') ::
      Drops(m, n', t, j, e, e', h)
  }

  ghost predicate AlwaysEmits(m: Machine, n: nat, t: Term, r: Rewritten, c: Cse, starts: seq<nat>) {
    forall n': nat, e, e', h | n' <= n && |e'| == c.end && EnvMapped(m, n', e, e', c.map_)
      && TableOk(m, c.table, starts, e') ::
      Emits(m, n', t, r, starts, e, e', h)
  }

  lemma {:induction false} DropKeeps(m: Machine, n: nat, ts: seq<Term>, t: Term, ts': seq<Term>, c: Cse, r: Rewritten,
                                     c': Cse,
                  starts: seq<nat>, env: seq<Value>, env': seq<Value>, h: History)
    requires ts' == ts + [t] && r.key in r.table && !t.flags.ordered && c' == Reduced(c, r, false)
    requires CseMatched(m, n, ts, c, starts, env, env', h) && AlwaysDrops(m, n, t, r.table[r.key], c, starts)
    requires forall x <- r.table :: x in c.table && r.table[x] == c.table[x]
    ensures CseMatched(m, n, ts', c', starts, env, env', h)
  {
    assert ts'[..|ts|] == ts;
    var b := EvalBody(m, n, ts, env, h);
    if EvalBody(m, n, ts', env, h).BodyDone? {
      var k: nat :| CseSame(m, b, EvalBody(Free(m), k, c.terms, env', h), c, starts);
      var b', o := EvalBody(Free(m), k, c.terms, env', h), EvalTerm(m, b.left, t, b.env, b.hist);
      assert Drops(m, b.left, t, r.table[r.key], b.env, b'.env, b.hist);
      ReduceDrops(m, b, b', o, r.table[r.key], c, c', starts);
      assert CseSame(m, EvalBody(m, n, ts', env, h), b', c', starts);
    }
  }

  lemma {:induction false} EmitKeeps(m: Machine, n: nat, ts: seq<Term>, t: Term, ts': seq<Term>, c: Cse, r: Rewritten,
                                     c': Cse,
                  starts: seq<nat>, env: seq<Value>, env': seq<Value>, h: History)
    requires ts' == ts + [t] && (r.key in r.table ==> t.flags.ordered) && c' == Reduced(c, r, t.flags.ordered)
    requires CseMatched(m, n, ts, c, starts, env, env', h) && AlwaysEmits(m, n, t, r, c, starts)
    requires forall x <- r.table :: x in c.table && r.table[x] == c.table[x]
    ensures CseMatched(m, n, ts', c', starts, env, env', h)
  {
    assert ts'[..|ts|] == ts;
    var b := EvalBody(m, n, ts, env, h);
    if EvalBody(m, n, ts', env, h).BodyDone? {
      var k: nat :| CseSame(m, b, EvalBody(Free(m), k, c.terms, env', h), c, starts);
      var b', o := EvalBody(Free(m), k, c.terms, env', h), EvalTerm(m, b.left, t, b.env, b.hist);
      assert Emits(m, b.left, t, r, starts, b.env, b'.env, b.hist);
      var j: nat :| Same(m, o, EvalTerm(Free(m), j, r.term, b'.env, b.hist));
      var w := EvalTerm(Free(m), j, r.term, b'.env, b.hist).value;
      BodySnoc(Free(m), k, j, c.terms, r.term, env', h);
      ReduceEmits(m, b, b', o, w, r, c, c', starts);
      assert CseSame(m, EvalBody(m, n, ts', env, h), EvalBody(Free(m), k + j, c'.terms, env', h), c', starts);
    }
  }

  lemma {:induction false} ReduceDrops(m: Machine, b: BodyOutcome, b': BodyOutcome, o: Outcome, j: nat, c: Cse, c': Cse,
                                       starts: seq<nat>)
    requires b.BodyDone? && o.Done? && o.left <= b.left && CseSame(m, b, b', c, starts)
    requires j < |b'.env| && Related(m, o.left, o.value, b'.env[j])
    requires c'.map_ == c.map_ + [j] && c'.end == c.end
    requires forall x <- c'.table :: x in c.table && c'.table[x] == c.table[x]
    ensures EnvMapped(m, o.left, b.env + [o.value], b'.env, c'.map_) && TableOk(m, c'.table, starts, b'.env)
  {
    forall i | 0 <= i < |b.env| && c.map_[i] >= 0 ensures Related(m, o.left, b.env[i], b'.env[c.map_[i]]) {
      RelatedDown(m, b.left, o.left, b.env[i], b'.env[c.map_[i]]);
    }
  }

  lemma {:induction false} ReduceEmits(m: Machine, b: BodyOutcome, b': BodyOutcome, o: Outcome, w: Value, r: Rewritten,
                                       c: Cse, c': Cse, starts: seq<nat>)
    requires b.BodyDone? && o.Done? && o.left <= b.left && CseSame(m, b, b', c, starts)
    requires Related(m, o.left, o.value, w) && Holds(m, r.key, |b'.env|, starts, b'.env + [w])
    requires c'.map_ == c.map_ + [c.end]
    requires forall x <- c'.table :: (x == r.key && c'.table[x] == c.end) || (x in c.table && c'.table[x] == c.table[x])
    ensures EnvMapped(m, o.left, b.env + [o.value], b'.env + [w], c'.map_) && TableOk(m, c'.table, starts, b'.env + [w])
  {
    EnvMappedSnoc(m, b.left, o.left, b.env, b'.env, c.map_, o.value, w);
    TableMore(m, c.table, starts, b'.env, starts, b'.env + [w]);
  }

  lemma {:induction false} BodyMapped(ts: seq<Term>, map_: seq<int>, end: nat, table: map<Key, nat>, starts: seq<nat>)
    requires Frames(starts) && AllMapped(map_)
    ensures AllMapped(CseBody(ts, map_, end, table, starts).map_)
    decreases |ts|
  {
    if ts != [] { BodyMapped(ts[..|ts| - 1], map_, end, table, starts); }
  }

  lemma {:induction false} CseArgs(ts: seq<Term>, map_: seq<int>, end: nat, table: map<Key, nat>, starts: seq<nat>)
    requires Frames(starts) && forall i :: 0 <= i < |ts| ==> ts[i].Arg?
    ensures ArgsOnly(CseBody(ts, map_, end, table, starts), ts, map_, end, table)
  {
    if ts != [] {
      var init, t := ts[..|ts| - 1], ts[|ts| - 1];
      CseArgs(init, map_, end, table, starts);
      ArgsNext(CseBody(init, map_, end, table, starts), init, t, ts, map_, end, table, starts);
    }
  }

  /** Parameters are emitted as they are. */
  predicate ArgsOnly(c: Cse, ts: seq<Term>, map_: seq<int>, end: nat, table: map<Key, nat>) {
    && c.terms == ts && c.table == table && c.undo == [] && c.end == end + |ts|
    && |c.map_| == |map_| + |ts| && forall i :: 0 <= i < |c.map_| ==>
      c.map_[i] == if i < |map_| then map_[i] else end + i - |map_|
  }

  lemma {:induction false} ArgsNext(c: Cse, ts: seq<Term>, t: Term, ts': seq<Term>, map_: seq<int>, end: nat,
                                    table: map<Key, nat>, starts: seq<nat>)
    requires Frames(starts) && t.Arg? && ts' == ts + [t] && ArgsOnly(c, ts, map_, end, table)
    ensures ArgsOnly(CseStep(c, t, starts), ts', map_, end, table)
  {
  }

  lemma {:induction false} StepAfter(ts: seq<Term>, c: Cse, t: Term, starts: seq<nat>)
    requires Frames(starts)
    ensures CseStep(c.(terms := ts + c.terms), t, starts) ==
      CseStep(c, t, starts).(terms := ts + CseStep(c, t, starts).terms)
  {
    if t.Arg? {
      assert (ts + c.terms) + [t] == ts + (c.terms + [t]);
    } else {
      var r := Rewrite(t, c.map_, c.end, c.table, starts);
      assert (ts + c.terms) + [r.term] == ts + (c.terms + [r.term]);
    }
  }

  /** The parameters go first, then the rest of the body with the same table. */
  lemma {:induction false} CseSplit(ts: seq<Term>, us: seq<Term>, all: seq<Term>, map_: seq<int>, end: nat,
                                    table: map<Key, nat>, starts: seq<nat>)
    requires Frames(starts) && all == ts + us && forall i :: 0 <= i < |ts| ==> ts[i].Arg?
    ensures var c := CseBody(ts, map_, end, table, starts);
      var u := CseBody(us, c.map_, c.end, table, starts);
      CseBody(all, map_, end, table, starts) == u.(terms := ts + u.terms)
    decreases |us|
  {
    var c := CseBody(ts, map_, end, table, starts);
    if us == [] {
      CseArgs(ts, map_, end, table, starts);
      assert all == ts;
      assert ts + [] == ts;
    } else {
      var z := |us| - 1;
      var init, t := us[..z], us[z];
      var front := ts + init;
      assert us == init + [t] && all == front + [t];
      CseSplit(ts, init, front, map_, end, table, starts);
      CseSnoc(front, t, all, map_, end, table, starts);
      CseSnoc(init, t, us, c.map_, c.end, table, starts);
      StepAfter(ts, CseBody(init, c.map_, c.end, table, starts), t, starts);
    }
  }

  lemma {:induction false} CseSnoc(ts: seq<Term>, t: Term, ts': seq<Term>, map_: seq<int>, end: nat,
                                   table: map<Key, nat>, starts: seq<nat>)
    requires Frames(starts) && ts' == ts + [t]
    ensures CseBody(ts', map_, end, table, starts) == CseStep(CseBody(ts, map_, end, table, starts), t, starts)
  {
    assert ts'[..|ts'| - 1] == ts;
  }

  predicate Chain(starts: seq<nat>, end: nat) {
    if starts == [] then end == 0 else Frames(starts)
  }

  /** Everything a term needs of its surroundings. */
  ghost predicate At(m: Machine, n: nat, map_: seq<int>, table: map<Key, nat>, starts: seq<nat>, env: seq<Value>,
                     env': seq<Value>) {
    && m.check.CheckOrder? && Chain(starts, |env'|)
    && EnvMapped(m, n, env, env', map_) && AllMapped(map_) && TableOk(m, table, starts, env')
  }

  lemma {:induction false} RewriteMatched(m: Machine, n: nat, t: Term, map_: seq<int>, table: map<Key, nat>,
                                          starts: seq<nat>,
                                          env: seq<Value>, env': seq<Value>, h: History)
    requires At(m, n, map_, table, starts, env, env') && Frames(starts) && !t.Arg? && ArgsLead(t)
    ensures TermMatched(m, n, t, Rewrite(t, map_, |env'|, table, starts).term, env, env', h)
    decreases n, t, 2
  {
    var t', o := Rewrite(t, map_, |env'|, table, starts).term, EvalTerm(m, n, t, env, h);
    if o.Done? {
      match t
      case Lit(_, _) => assert Same(m, o, EvalTerm(Free(m), 0, t', env', h));
      case Redux(_, op, args) =>
        MappedArgs(m, n, args, map_, env, env');
        var k := OpCongruent(m, n, op, Select(env, args), Select(env', t'.args), h);
        assert Same(m, o, EvalTerm(Free(m), k, t', env', h));
      case Fun(_, _, _, _) =>
        CseFunRelated(m, n, t, map_, table, starts, env, env');
        assert Same(m, o, EvalTerm(Free(m), 0, t', env', h));
    }
  }

  lemma {:induction false} RewriteEmits(m: Machine, n: nat, t: Term, map_: seq<int>, table: map<Key, nat>,
                                        starts: seq<nat>,
                     env: seq<Value>, env': seq<Value>, h: History)
    requires Frames(starts) && !t.Arg? && ArgsLead(t)
    requires TermMatched(m, n, t, Rewrite(t, map_, |env'|, table, starts).term, env, env', h)
    ensures Emits(m, n, t, Rewrite(t, map_, |env'|, table, starts), starts, env, env', h)
  {
    var r := Rewrite(t, map_, |env'|, table, starts);
    RewriteKey(t, map_, |env'|, table, starts);
    RewriteLead(t, map_, |env'|, table, starts);
    forall k: nat, v | EvalTerm(Free(m), k, r.term, env', h).Done? && v == EvalTerm(Free(m), k, r.term, env', h).value
      ensures Holds(m, r.key, |env'|, starts, env' + [v])
    {
      EmittedHolds(m, k, r.term, starts, env', v, h);
    }
  }

  lemma {:induction false} EmittedHolds(m: Machine, k: nat, t: Term, starts: seq<nat>, env: seq<Value>, v: Value,
                                        h: History)
    requires Frames(starts) && !t.Arg? && ArgsLead(t) && EvalTerm(Free(m), k, t, env, h).Done?
    requires v == EvalTerm(Free(m), k, t, env, h).value
    ensures Holds(m, KeyTerm(t, |env|, starts), |env|, starts, env + [v])
  {
    match t
    case Lit(_, _) =>
    case Redux(_, op, args) =>
      assert Resolve(starts, HashArgs(starts, args)) == args;
      assert Select(env + [v], args) == Select(env, args);
      assert Yielded(m, k, op, Select(env, args), h, v);
    case Fun(_, _, _, _) =>
      assert (env + [v])[..|env|] == env && starts[..|starts|] == starts;
  }

  lemma {:induction false} RewriteDrops(m: Machine, n: nat, t: Term, map_: seq<int>, table: map<Key, nat>,
                                        starts: seq<nat>,
                     env: seq<Value>, env': seq<Value>, h: History)
    requires At(m, n, map_, table, starts, env, env') && Frames(starts) && !t.Arg? && ArgsLead(t) && !t.flags.ordered
    requires var r := Rewrite(t, map_, |env'|, table, starts);
      r.key in r.table && TermMatched(m, n, t, r.term, env, env', h)
    ensures var r := Rewrite(t, map_, |env'|, table, starts); Drops(m, n, t, r.table[r.key], env, env', h)
  {
    var r := Rewrite(t, map_, |env'|, table, starts);
    RewriteTable(t, map_, |env'|, table, starts);
    var o, j := EvalTerm(m, n, t, env, h), r.table[r.key];
    assert j < |env'| && Holds(m, r.key, j, starts, env');
    if o.Done? {
      match t
      case Lit(_, _) =>
      case Redux(flags, op, args) =>
        MappedArgs(m, n, args, map_, env, env');
        assert Resolve(starts, HashArgs(starts, r.term.args)) == r.term.args;
        MergedOp(m, n, flags, op, Select(env, args), Select(env', r.term.args), env'[j], h);
      case Fun(_, _, _, _) =>
        RewriteKey(t, map_, |env'|, table, starts);
        RewriteLead(t, map_, |env'|, table, starts);
        HeldFun(m, r.term, starts, env', j);
        MergedFun(m, r.term, env'[j].fun, starts, env', j);
        RelatedTrans(m, n, VClo(t, env, []), VClo(r.term, env', []), env'[j]);
    }
  }

  lemma {:induction false} CseBodyMatched(m: Machine, n: nat, ts: seq<Term>, map_: seq<int>, table: map<Key, nat>,
                                          starts: seq<nat>,
                                          env: seq<Value>, env': seq<Value>, h: History)
    requires At(m, n, map_, table, starts, env, env') && Frames(starts)
    requires forall i :: 0 <= i < |ts| ==> !ts[i].Arg? && ArgsLead(ts[i])
    ensures CseMatched(m, n, ts, CseBody(ts, map_, |env'|, table, starts), starts, env, env', h)
    decreases n, ts, 3
  {
    var c' := CseBody(ts, map_, |env'|, table, starts);
    if ts == [] {
      assert CseSame(m, EvalBody(m, n, [], env, h), EvalBody(Free(m), 0, [], env', h), c', starts);
    } else {
      var z := |ts| - 1;
      CseBodyMatched(m, n, ts[..z], map_, table, starts, env, env', h);
      BodyMapped(ts[..z], map_, |env'|, table, starts);
      var c := CseBody(ts[..z], map_, |env'|, table, starts);
      assert ts == ts[..z] + [ts[z]] && c' == CseStep(c, ts[z], starts);
      CseNextMatched(m, n, ts[..z], ts[z], ts, c, c', starts, env, env', h);
    }
  }

  lemma {:induction false} CseNextMatched(m: Machine, n: nat, init: seq<Term>, t: Term, ts: seq<Term>, c: Cse, c': Cse,
                                          starts: seq<nat>, env: seq<Value>, env': seq<Value>, h: History)
    requires m.check.CheckOrder? && Frames(starts) && Chain(starts, c.end)
    requires ts == init + [t] && !t.Arg? && ArgsLead(t) && AllMapped(c.map_)
    requires CseMatched(m, n, init, c, starts, env, env', h) && c' == CseStep(c, t, starts)
    ensures CseMatched(m, n, ts, c', starts, env, env', h)
    decreases n, t, 3
  {
    var r := Rewrite(t, c.map_, c.end, c.table, starts);
    RewriteTable(t, c.map_, c.end, c.table, starts);
    if r.key in r.table && !t.flags.ordered {
      forall n': nat, e, e', h' | n' <= n && |e'| == c.end && EnvMapped(m, n', e, e', c.map_)
        && TableOk(m, c.table, starts, e')
        ensures Drops(m, n', t, r.table[r.key], e, e', h')
      {
        RewriteMatched(m, n', t, c.map_, c.table, starts, e, e', h');
        RewriteDrops(m, n', t, c.map_, c.table, starts, e, e', h');
      }
      DropKeeps(m, n, init, t, ts, c, r, c', starts, env, env', h);
    } else {
      forall n': nat, e, e', h' | n' <= n && |e'| == c.end && EnvMapped(m, n', e, e', c.map_)
        && TableOk(m, c.table, starts, e')
        ensures Emits(m, n', t, r, starts, e, e', h')
      {
        RewriteMatched(m, n', t, c.map_, c.table, starts, e, e', h');
        RewriteEmits(m, n', t, c.map_, c.table, starts, e, e', h');
      }
      EmitKeeps(m, n, init, t, ts, c, r, c', starts, env, env', h);
    }
  }

  /** The reduced function may stand for the source function. */
  lemma {:induction false} CseFunRelated(m: Machine, n: nat, f: Term, map_: seq<int>, table: map<Key, nat>,
                                         starts: seq<nat>, env: seq<Value>, env': seq<Value>)
    requires At(m, n, map_, table, starts, env, env') && f.Fun? && ArgsLead(f)
    ensures Related(m, n, VClo(f, env, []), VClo(Rewrite(f, map_, |env'|, table, starts).term, env', []))
    decreases n, f, 1
  {
    var f' := Rewrite(f, map_, |env'|, table, starts).term;
    CseArity(f, map_, |env'|, table, starts);
    forall k: nat, xs, ys, h | k < n && |xs| == Arity(f.terms) && AllRelated(m, k, xs, ys)
      ensures RunMatched(m, k, f, env, xs, f', env', ys, h)
    {
      forall i | 0 <= i < |env| && map_[i] >= 0 ensures Related(m, k, env[i], env'[map_[i]]) {
        RelatedDown(m, n, k, env[i], env'[map_[i]]);
      }
      CseFunRelated(m, k, f, map_, table, starts, env, env');
      CseRunMatched(m, k, f, f', map_, table, starts, env, env', xs, ys, h);
    }
    ClosureRelated(m, n, f, env, [], f', env', []);
  }

  lemma {:induction false} CseArity(f: Term, map_: seq<int>, end: nat, table: map<Key, nat>, starts: seq<nat>)
    requires Chain(starts, end) && f.Fun? && ArgsLead(f)
    ensures var a := CountArgs(f.terms);
      && Arity(f.terms) == a == Arity(Rewrite(f, map_, end, table, starts).term.terms)
      && (forall i :: 0 <= i < a ==> f.terms[i].Arg?)
        && (forall i :: a <= i < |f.terms| ==> !f.terms[i].Arg? && ArgsLead(f.terms[i]))
  {
    var a := CountArgs(f.terms);
    ArityIs(f.terms, a);
    BodyLead(f.terms, a, map_ + [end], end + 1, table, starts + [end]);
    ArityIs(CseBody(f.terms, map_ + [end], end + 1, table, starts + [end]).terms, a);
  }

  lemma {:induction false} CseRunMatched(m: Machine, n: nat, f: Term, f': Term, map_: seq<int>, table: map<Key, nat>,
                                         starts: seq<nat>,
                                         env: seq<Value>, env': seq<Value>, xs: seq<Value>, ys: seq<Value>, h: History)
    requires At(m, n, map_, table, starts, env, env') && f.Fun? && ArgsLead(f)
    requires f' == Rewrite(f, map_, |env'|, table, starts).term
    requires |xs| == Arity(f.terms) && AllRelated(m, n, xs, ys) && Related(m, n, VClo(f, env, []), VClo(f', env', []))
    ensures RunMatched(m, n, f, env, xs, f', env', ys, h)
    decreases n, f, 4
  {
    var a, inner := |xs|, starts + [|env'|];
    var front, rest := f.terms[..a], f.terms[a..];
    CseArity(f, map_, |env'|, table, starts);
    var c := CseBody(front, map_ + [|env'|], |env'| + 1, table, inner);
    CseEntry(m, n, f, f', map_, table, starts, env, env', xs, ys, c);
    var u := CseBody(rest, c.map_, c.end, table, inner);
    Halves(f.terms, a, front, rest);
    RestLead(f, a, rest);
    CseRest(f, f', map_, table, starts, |env'|, inner, front, rest, c, u);
    CseRestMatched(m, n, rest, c, u, table, inner, Entry(f, env, xs), Entry(f', env', ys), h);
    RunFromBody(m, n, f, f', env, env', xs, ys, u.map_, h);
  }

  lemma {:induction false} RestLead(f: Term, a: nat, rest: seq<Term>)
    requires f.Fun? && a <= |f.terms| && rest == f.terms[a..]
    requires forall i :: a <= i < |f.terms| ==> !f.terms[i].Arg? && ArgsLead(f.terms[i])
    ensures forall i :: 0 <= i < |rest| ==> !rest[i].Arg? && ArgsLead(rest[i])
  {
  }

  lemma {:induction false} CseRestMatched(m: Machine, n: nat, rest: seq<Term>, c: Cse, u: Cse, table: map<Key, nat>,
                                          inner: seq<nat>,
                                          e: seq<Value>, e': seq<Value>, h: History)
    requires forall i :: 0 <= i < |rest| ==> !rest[i].Arg? && ArgsLead(rest[i])
    requires Frames(inner) && At(m, n, c.map_, table, inner, e, e') && c.end == |e'|
    requires u == CseBody(rest, c.map_, c.end, table, inner)
    ensures BodyMatched(m, n, rest, u.terms, e, e', u.map_, h)
    decreases n, rest, 4
  {
    CseBodyMatched(m, n, rest, c.map_, table, inner, e, e', h);
    MatchedFromCse(m, n, rest, u, inner, e, e', h);
  }

  /** The reduced function, seen from just after its parameters. */
  lemma {:induction false} CseRest(f: Term, f': Term, map_: seq<int>, table: map<Key, nat>, starts: seq<nat>, end: nat,
                                   inner: seq<nat>,
                                   front: seq<Term>, rest: seq<Term>, c: Cse, u: Cse)
    requires f.Fun? && Chain(starts, end) && f' == Rewrite(f, map_, end, table, starts).term && AllMapped(c.map_)
    requires f.terms == front + rest && forall i :: 0 <= i < |front| ==> f.terms[i].Arg?
    requires inner == starts + [end] && Frames(inner)
    requires c == CseBody(front, map_ + [end], end + 1, table, inner) && u == CseBody(rest, c.map_, c.end, table, inner)
    ensures f'.Fun? && |front| <= |f'.terms| && f'.terms[|front|..] == u.terms && AllMapped(u.map_)
    ensures f'.output == Look(u.map_, f.output)
  {
    assert forall i :: 0 <= i < |front| ==> front[i] == f.terms[i];
    CseSplit(front, rest, f.terms, map_ + [end], end + 1, table, inner);
    CseArgs(front, map_ + [end], end + 1, table, inner);
    BodyMapped(rest, c.map_, c.end, table, inner);
    assert (front + u.terms)[|front|..] == u.terms;
  }

  lemma {:induction false} MatchedFromCse(m: Machine, n: nat, ts: seq<Term>, c: Cse, starts: seq<nat>, env: seq<Value>,
                                          env': seq<Value>, h: History)
    requires CseMatched(m, n, ts, c, starts, env, env', h)
    ensures BodyMatched(m, n, ts, c.terms, env, env', c.map_, h)
  {
    var b := EvalBody(m, n, ts, env, h);
    if b.BodyDone? {
      var k: nat :| CseSame(m, b, EvalBody(Free(m), k, c.terms, env', h), c, starts);
      assert BodySame(m, b, EvalBody(Free(m), k, c.terms, env', h), c.map_);
    }
  }

  lemma {:induction false} CseEntry(m: Machine, n: nat, f: Term, f': Term, map_: seq<int>, table: map<Key, nat>,
                                    starts: seq<nat>,
                 env: seq<Value>, env': seq<Value>, xs: seq<Value>, ys: seq<Value>, c: Cse)
    requires At(m, n, map_, table, starts, env, env') && f.Fun? && |xs| <= |f.terms|
    requires forall i :: 0 <= i < |xs| ==> f.terms[i].Arg?
    requires AllRelated(m, n, xs, ys) && Related(m, n, VClo(f, env, []), VClo(f', env', []))
    requires c == CseBody(f.terms[..|xs|], map_ + [|env'|], |env'| + 1, table, starts + [|env'|])
    ensures At(m, n, c.map_, table, starts + [|env'|], Entry(f, env, xs), Entry(f', env', ys))
    ensures c.end == |Entry(f', env', ys)|
  {
    var e, e', mp := Entry(f, env, xs), Entry(f', env', ys), c.map_;
    CseArgs(f.terms[..|xs|], map_ + [|env'|], |env'| + 1, table, starts + [|env'|]);
    TableMore(m, table, starts, env', starts + [|env'|], e');
    EntryMapped(m, n, f, f', map_, env, env', xs, ys, mp, e, e');
  }

  lemma {:induction false} EntryMapped(m: Machine, n: nat, f: Term, f': Term, map_: seq<int>, env: seq<Value>,
                                       env': seq<Value>,
                                       xs: seq<Value>, ys: seq<Value>, mp: seq<int>, e: seq<Value>, e': seq<Value>)
    requires EnvMapped(m, n, env, env', map_) && AllRelated(m, n, xs, ys)
    requires Related(m, n, VClo(f, env, []), VClo(f', env', []))
    requires e == Entry(f, env, xs) && e' == Entry(f', env', ys) && |mp| == |map_| + 1 + |xs|
    requires forall i :: 0 <= i < |mp| ==>
      mp[i] == if i < |map_| + 1 then (map_ + [|env'|])[i] else |env'| + 1 + i - (|map_| + 1)
    ensures EnvMapped(m, n, e, e', mp)
  {
    forall i | 0 <= i < |e| && mp[i] >= 0 ensures mp[i] < |e'| && Related(m, n, e[i], e'[mp[i]]) {
      if i > |env| { assert Related(m, n, xs[i - |env| - 1], ys[i - |env| - 1]); }
    }
  }

  /** The pass keeps meaning: a run that honours the order flags is a run of the reduced program. */
  lemma {:induction false} CsePreserves(m: Machine, n: nat, top: Term, h: History) returns (k: nat)
    requires m.check.CheckOrder? && top.Fun? && ArgsLead(top) && RunProgram(m, n, top, h).Done?
    ensures Same(m, RunProgram(m, n, top, h), RunProgram(Free(m), k, CsePass(top), h))
  {
    CseFunRelated(m, n, top, [], map[], [], [], []);
    k := ProgramRelated(m, n, top, CsePass(top), h);
  }

  // ---------------------------------------------------------------- in-place form

  class CseState {
    const stream: TermStream
    var table: map<Key, nat>
    var undo: seq<Key>
    var starts: seq<nat>

    constructor ()
      ensures fresh(stream) && stream.scope == [] && stream.map_ == [] && table == map[] && undo == [] && starts == []
    {
      stream := new TermStream();
      table, undo, starts := map[], [], [];
    }

    /** The state, seen from index `base` of the target scope on. */
    ghost function Since(base: nat): Cse
      requires base <= |stream.scope|
      reads this, stream
    {
      Cse(stream.scope[base..], stream.map_, |stream.scope|, table, undo)
    }

    method Reduce(r: Rewritten, ordered: bool)
      requires table == r.table
      modifies this`table, this`undo, stream
      ensures old(stream.scope) <= stream.scope
      ensures Since(|old(stream.scope)|) ==
        Reduced(Cse([], old(stream.map_), |old(stream.scope)|, old(table), old(undo)), r, ordered)
    {
      if r.key in table && !ordered {
        stream.Replace(table[r.key]);
      } else {
        if r.key !in table { table := table[r.key := |stream.scope|]; }
        undo := undo + [r.key];
        var at := stream.Transfer(r.term);
      }
    }

    /** One term of a body. */
    method PassTerm(t: Term)
      requires Frames(starts)
      modifies this, stream
      ensures starts == old(starts) && old(stream.scope) <= stream.scope
      ensures Since(|old(stream.scope)|) ==
        CseStep(Cse([], old(stream.map_), |old(stream.scope)|, old(table), old(undo)), t, starts)
      decreases t, 1
    {
      if t.Arg? {
        var at := stream.Transfer(t);
      } else {
        var r;
        match t {
          case Lit(_, x) => r := Rewritten(t, KLit(x), table);
          case Redux(_, op, args) =>
            var args' := LookAll(stream.map_, args);
            r := Rewritten(t.(args := args'), KRedux(op, HashArgs(starts, args')), table);
          case Fun(_, _, _, _) => r := PassFun(t);
        }
        Reduce(r, t.flags.ordered);
      }
    }

    /** RFun::pass_cse: the body is streamed in its own frame, then popped, and its keys erased. */
    method PassFun(f: Term) returns (r: Rewritten)
      requires f.Fun? && Chain(starts, |stream.scope|)
      modifies this, stream
      ensures starts == old(starts) && undo == old(undo) && stream.scope == old(stream.scope)
      ensures stream.map_ == old(stream.map_)
      ensures r == Rewrite(f, old(stream.map_), |old(stream.scope)|, old(table), starts) && table == r.table
      decreases f, 0
    {
      ghost var outer, c := starts, CseBody(f.terms, stream.map_ + [|stream.scope|], |stream.scope| + 1, table,
                                            starts + [|stream.scope|]);
      RewriteFun(f, stream.map_, |stream.scope|, table, starts, starts + [|stream.scope|], c);
      var before := stream.Begin();
      starts := starts + [before.target];
      var at := stream.Transfer(f);
      var save := undo;
      undo := [];
      var terms, output := PassFrame(f.terms, f.output);
      assert terms == c.terms && output == Look(c.map_, f.output) && undo == c.undo;
      var key := KFun(|starts|, CountArgs(f.terms), |terms|, HashArg(starts, output), undo);
      table := table - (set x | x in undo);
      undo := save;
      var me := stream.End(before);
      starts := starts[..|starts| - 1];
      assert starts == outer;
      r := Rewritten(f.(terms := terms, output := output), key, table);
    }

    /** A body goes through the stream and is popped again, leaving its keys and where its output went. */
    method PassFrame(ts: seq<Term>, x: nat) returns (terms: seq<Term>, output: nat)
      requires Frames(starts) && undo == []
      modifies this, stream
      ensures starts == old(starts) && stream.scope == old(stream.scope) && stream.map_ == old(stream.map_)
      ensures var c := CseBody(ts, stream.map_, |stream.scope|, old(table), starts);
        terms == c.terms && output == Look(c.map_, x) && table == c.table && undo == c.undo
      decreases ts, 1
    {
      var body := stream.Begin();
      PassBody(ts);
      output := Look(stream.map_, x);
      terms := stream.End(body);
    }

    method PassBody(ts: seq<Term>)
      requires Frames(starts) && undo == []
      modifies this, stream
      ensures starts == old(starts) && old(stream.scope) <= stream.scope && old(stream.map_) <= stream.map_
      ensures Since(|old(stream.scope)|) == CseBody(ts, old(stream.map_), |old(stream.scope)|, old(table), starts)
      decreases ts, 0
    {
      ghost var base := |stream.scope|;
      for i := 0 to |ts|
        invariant starts == old(starts) && old(stream.scope) <= stream.scope && old(stream.map_) <= stream.map_
        invariant Since(base) == CseBody(ts[..i], old(stream.map_), base, old(table), starts)
      {
        ghost var c, here := Since(base), |stream.scope|;
        assert ts[..i + 1][..i] == ts[..i];
        PassTerm(ts[i]);
        StepAfter(c.terms, c.(terms := []), ts[i], starts);
        assert c.terms + [] == c.terms;
        assert stream.scope[base..] == c.terms + stream.scope[here..];
        MapGrows(c, ts[i], starts);
      }
      assert ts[..|ts|] == ts;
    }
  }

  lemma {:induction false} RewriteFun(f: Term, map_: seq<int>, end: nat, table: map<Key, nat>, starts: seq<nat>,
                                      inner: seq<nat>, c: Cse)
    requires f.Fun? && Chain(starts, end) && inner == starts + [end]
    requires c == CseBody(f.terms, map_ + [end], end + 1, table, inner)
    ensures Rewrite(f, map_, end, table, starts) ==
      Rewritten(f.(terms := c.terms, output := Look(c.map_, f.output)),
                KFun(|inner|, CountArgs(f.terms), |c.terms|, HashArg(inner, Look(c.map_, f.output)), c.undo),
                c.table - (set x | x in c.undo))
  {
  }

  lemma {:induction false} MapGrows(c: Cse, t: Term, starts: seq<nat>)
    requires Frames(starts)
    ensures c.map_ <= CseStep(c, t, starts).map_
  {
  }

  method RunCse(top: Term) returns (r: Term)
    requires top.Fun?
    ensures r == CsePass(top)
  {
    var p := new CseState();
    var out := p.PassFun(top);
    r := out.term;
  }
}
