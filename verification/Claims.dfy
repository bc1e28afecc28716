/** What the text of a program says about the functions it claims.

    Three readings of a text, each of which makes the runs of one machine runs of another: that every handler and
    target body is a function of one parameter written in sight; that it returns data besides; and that no
    destructure has only one handler.
 */
module Claims {
  import opened Sequences
  import opened Ssa
  import opened Yields

  /** ForClaims: what ends with applications for claims ends with claims.
      ForPlain: what ends with applications for claims ends with plain claims.
      ForMany: what ends with plain claims ends with claims. */
  datatype Aim = ForClaims | ForPlain | ForMany

  function From(aim: Aim, m: Machine): Machine {
    if aim.ForMany? then Plainly(m) else Loosely(m)
  }

  function To(aim: Aim, m: Machine): Machine {
    if aim.ForPlain? then Plainly(m) else Exactly(m)
  }

  // ------------------------------------------------------------------ what is asked

  /** Index x, if in sight, is a function of one parameter, which returns data where that is asked. */
  predicate Written(aim: Aim, all: seq<Term>, ys: seq<Yield>, x: nat) {
    aim.ForMany? || x >= |all| ||
    (all[x].Fun? && Arity(all[x].terms) == 1 && (aim.ForPlain? ==> Known(ys, x) == After(1)))
  }

  predicate Handlers(aim: Aim, all: seq<Term>, ys: seq<Yield>, args: seq<nat>) {
    match aim
    case ForClaims => forall i :: 0 <= i < |args| - 1 ==> Written(aim, all, ys, args[i])
    case ForPlain => |args| == 2 || forall i :: 0 <= i < |args| - 1 ==> Written(aim, all, ys, args[i])
    case ForMany => |args| != 2
  }

  /** t, which all and their yields precede, asks nothing of the functions it claims that they do not have. */
  predicate Meets(aim: Aim, t: Term, all: seq<Term>, ys: seq<Yield>)
    decreases t, 1
  {
    match t
    case Arg(_) => true
    case Lit(_, _) => true
    case Redux(_, op, args) =>
      && (op.Des? ==> Handlers(aim, all, ys, args))
      && (op.Prim? && op.kind.FnArg? && |args| >= 2 ==> Written(aim, all, ys, args[1]))
    case Fun(_, _, terms, _) => BodyMeets(aim, terms, all + [t], ys + [FunYield(t, ys)])
  }

  predicate BodyMeets(aim: Aim, ts: seq<Term>, all: seq<Term>, ys: seq<Yield>)
    decreases ts, 0
  {
    ts == [] ||
    (var z := |ts| - 1;
     BodyMeets(aim, ts[..z], all, ys) && Meets(aim, ts[z], all + ts[..z], BodyYields(ts[..z], ys)))
  }

  /** A program that does so, itself included: the runtime claims it. */
  predicate Whole(aim: Aim, top: Term) {
    && top.Fun? && Meets(aim, top, [], [])
    && (!aim.ForMany? ==> Arity(top.terms) == 1) && (aim.ForPlain? ==> FunYield(top, []) == After(1))
  }

  lemma {:induction false} MeetsSplit(aim: Aim, front: seq<Term>, rest: seq<Term>, ts: seq<Term>, all: seq<Term>,
                                      ys: seq<Yield>)
    requires ts == front + rest && BodyMeets(aim, ts, all, ys)
    ensures BodyMeets(aim, rest, all + front, BodyYields(front, ys))
    decreases |rest|
  {
    if rest != [] {
      var z := |rest| - 1;
      var init := ts[..|ts| - 1];
      assert init == front + rest[..z] && ts[|ts| - 1] == rest[z];
      MeetsSplit(aim, front, rest[..z], init, all, ys);
      YieldsSplit(front, rest[..z], init, ys);
      assert (all + front) + rest[..z] == all + init;
    }
  }

  // ---------------------------------------------------------------- values of a text

  /** v is what t leaves behind. */
  ghost predicate SlotFits(m: Machine, t: Term, y: Yield, v: Value) {
    && (t.Fun? ==> v.VClo? && v.fun == t && v.applied == [] && !v.returned)
    && forall n: nat :: Keeps(m, n, v, y)
  }

  ghost predicate Fits(m: Machine, all: seq<Term>, ys: seq<Yield>, env: seq<Value>) {
    && |all| == |ys| == |env|
    && forall i :: 0 <= i < |env| ==> SlotFits(m, all[i], ys[i], env[i])
  }

  ghost predicate Sits(m: Machine, aim: Aim, t: Term, all: seq<Term>, ys: seq<Yield>, env: seq<Value>) {
    Fits(m, all, ys, env) && Meets(aim, t, all, ys)
  }

  /** Every closure in v is of a function that sits in such a text. */
  ghost predicate Good(m: Machine, aim: Aim, v: Value)
    decreases v
  {
    match v
    case VLit(_) => true
    case VCon(_, fs) => forall i :: 0 <= i < |fs| ==> Good(m, aim, fs[i])
    case VClo(f, env, applied, _) =>
      && f.Fun? && (exists all, ys :: Sits(m, aim, f, all, ys, env))
      && (forall i :: 0 <= i < |env| ==> Good(m, aim, env[i]))
      && (forall i :: 0 <= i < |applied| ==> Good(m, aim, applied[i]))
  }

  ghost predicate AllGood(m: Machine, aim: Aim, vs: seq<Value>) {
    forall i :: 0 <= i < |vs| ==> Good(m, aim, vs[i])
  }

  lemma {:induction false} EmbedGood(m: Machine, aim: Aim, d: Data)
    ensures Good(m, aim, Embed(d))
    decreases d
  {
    if d.DCon? {
      forall i | 0 <= i < |d.fields| ensures Good(m, aim, Embed(d.fields[i])) { EmbedGood(m, aim, d.fields[i]); }
    }
  }

  lemma {:induction false} GoodReturned(m: Machine, aim: Aim, v: Value)
    requires Good(m, aim, v)
    ensures Good(m, aim, Returned(v))
  {
    if v.VClo? { var all, ys :| Sits(m, aim, v.fun, all, ys, v.env); }
  }

  lemma {:induction false} GoodClosure(m: Machine, aim: Aim, f: Term, all: seq<Term>, ys: seq<Yield>, env: seq<Value>,
                                       xs: seq<Value>)
    requires f.Fun? && Sits(m, aim, f, all, ys, env) && AllGood(m, aim, env) && AllGood(m, aim, xs)
    ensures Good(m, aim, VClo(f, env, xs))
  {
  }

  lemma {:induction false} FitsKeep(m: Machine, n: nat, all: seq<Term>, ys: seq<Yield>, env: seq<Value>)
    requires Fits(m, all, ys, env)
    ensures AllKeep(m, n, env, ys)
  {
    forall i | 0 <= i < |env| ensures Keeps(m, n, env[i], ys[i]) { assert SlotFits(m, all[i], ys[i], env[i]); }
  }

  lemma {:induction false} FitsSnoc(m: Machine, all: seq<Term>, ys: seq<Yield>, env: seq<Value>, t: Term, y: Yield,
                                    v: Value, all': seq<Term>, ys': seq<Yield>, env': seq<Value>)
    requires Fits(m, all, ys, env) && SlotFits(m, t, y, v)
    requires all' == all + [t] && ys' == ys + [y] && env' == env + [v]
    ensures Fits(m, all', ys', env')
  {
    forall i | 0 <= i < |env'| ensures SlotFits(m, all'[i], ys'[i], env'[i]) {
      if i < |env| { assert SlotFits(m, all[i], ys[i], env[i]); }
    }
  }

  lemma {:induction false} ClosureFits(m: Machine, f: Term, all: seq<Term>, ys: seq<Yield>, env: seq<Value>)
    requires Simple(m) && f.Fun? && Fits(m, all, ys, env)
    ensures SlotFits(m, f, FunYield(f, ys), VClo(f, env, []))
  {
    forall n: nat ensures Keeps(m, n, VClo(f, env, []), FunYield(f, ys)) {
      FitsKeep(m, n, all, ys, env);
      FunKeeps(m, n, f, env, ys);
    }
  }

  lemma {:induction false} ArgsFit(m: Machine, ts: seq<Term>, all: seq<Term>, ys: seq<Yield>, env: seq<Value>,
                                   xs: seq<Value>)
    requires Fits(m, all, ys, env) && |ts| == |xs| && forall i :: 0 <= i < |ts| ==> ts[i].Arg?
    ensures Fits(m, all + ts, BodyYields(ts, ys), env + xs)
    decreases |ts|
  {
    if ts == [] {
      assert all + ts == all && env + xs == env;
    } else {
      var z := |ts| - 1;
      ArgsFit(m, ts[..z], all, ys, env, xs[..z]);
      assert all + ts == all + ts[..z] + [ts[z]] && env + xs == env + xs[..z] + [xs[z]];
      assert BodyYields(ts, ys) == BodyYields(ts[..z], ys) + [Unknown];
      FitsSnoc(m, all + ts[..z], BodyYields(ts[..z], ys), env + xs[..z], ts[z], Unknown, xs[z], all + ts,
               BodyYields(ts, ys), env + xs);
    }
  }

  // -------------------------------------------------------------- the machines agree

  /** What ends on the one machine ends alike on the other, and hands out nothing but such closures. */
  ghost predicate Agreed(m: Machine, aim: Aim, o: Outcome, p: Outcome) {
    o.Done? ==> p == o && Good(m, aim, o.value)
  }

  lemma {:induction false} ApplyAgrees(m: Machine, aim: Aim, k: nat, f: Value, a: Value, h: History)
    requires Simple(m) && Good(m, aim, f) && Good(m, aim, a)
    ensures Agreed(m, aim, Apply(From(aim, m), k, f, a, h), Apply(To(aim, m), k, f, a, h))
    decreases k, 0, 0
  {
    if Apply(From(aim, m), k, f, a, h).Done? {
      var xs := f.applied + [a];
      var all, ys :| Sits(m, aim, f.fun, all, ys, f.env);
      assert AllGood(m, aim, f.env) && AllGood(m, aim, xs);
      if |xs| == Arity(f.fun.terms) {
        RunAgrees(m, aim, k - 1, f.fun, all, ys, f.env, xs, h);
      } else {
        GoodClosure(m, aim, f.fun, all, ys, f.env, xs);
      }
    }
  }

  lemma {:induction false} RunAgrees(m: Machine, aim: Aim, k: nat, f: Term, all: seq<Term>, ys: seq<Yield>,
                                     env: seq<Value>, xs: seq<Value>, h: History)
    requires Simple(m) && f.Fun? && Sits(m, aim, f, all, ys, env) && AllGood(m, aim, env) && AllGood(m, aim, xs)
    requires |xs| == Arity(f.terms)
    ensures Agreed(m, aim, RunFun(From(aim, m), k, f, env, xs, h), RunFun(To(aim, m), k, f, env, xs, h))
    decreases k, 6, 0
  {
    var v, front, rest := VClo(f, env, []), f.terms[..|xs|], f.terms[|xs|..];
    var all1, ys1, env1 := all + [f], ys + [FunYield(f, ys)], env + [v];
    ClosureFits(m, f, all, ys, env);
    FitsSnoc(m, all, ys, env, f, FunYield(f, ys), v, all1, ys1, env1);
    ArgsFit(m, front, all1, ys1, env1, xs);
    assert f.terms == front + rest;
    MeetsSplit(aim, front, rest, f.terms, all1, ys1);
    GoodClosure(m, aim, f, all, ys, env, []);
    assert AllGood(m, aim, Entry(f, env, xs));
    BodyAgrees(m, aim, k, rest, all1 + front, BodyYields(front, ys1), Entry(f, env, xs), h);
    var b := EvalBody(From(aim, m), k, rest, Entry(f, env, xs), h);
    if b.BodyDone? && f.output < |b.env| { GoodReturned(m, aim, b.env[f.output]); }
  }

  lemma {:induction false} ApplyAllAgrees(m: Machine, aim: Aim, k: nat, f: Value, args: seq<Value>, h: History)
    requires Simple(m) && Good(m, aim, f) && AllGood(m, aim, args)
    ensures Agreed(m, aim, ApplyAll(From(aim, m), k, f, args, h), ApplyAll(To(aim, m), k, f, args, h))
    decreases k, 1, |args|
  {
    if args != [] {
      var init := args[..|args| - 1];
      ApplyAllAgrees(m, aim, k, f, init, h);
      var o := ApplyAll(From(aim, m), k, f, init, h);
      if o.Done? { ApplyAgrees(m, aim, o.left, o.value, args[|args| - 1], o.hist); }
    }
  }

  /** A claim of the function that index x of the text is. */
  lemma {:induction false} ClaimAgrees(m: Machine, aim: Aim, k: nat, all: seq<Term>, ys: seq<Yield>, env: seq<Value>,
                                       x: nat, a: Value, h: History)
    requires Simple(m) && Fits(m, all, ys, env) && AllGood(m, aim, env) && Good(m, aim, a)
    requires x < |env| && Written(aim, all, ys, x)
    ensures Agreed(m, aim, Claim(From(aim, m), k, env[x], a, h), Claim(To(aim, m), k, env[x], a, h))
    decreases k, 1, 0
  {
    var v := env[x];
    assert SlotFits(m, all[x], ys[x], v) && Good(m, aim, v);
    if Claim(From(aim, m), k, v, a, h).Done? {
      ApplyAgrees(m, aim, k, v, a, h);
      if aim.ForPlain? {
        assert Keeps(m, k, v, After(1));
        CallGiven(m, k, v, 1, a, h);
      }
    }
  }

  lemma {:induction false} DesAgrees(m: Machine, aim: Aim, k: nat, all: seq<Term>, ys: seq<Yield>, env: seq<Value>,
                                     args: seq<nat>, h: History)
    requires Simple(m) && Fits(m, all, ys, env) && AllGood(m, aim, env)
    requires InRange(args, |env|) && Handlers(aim, all, ys, args)
    ensures var vs := Select(env, args);
      Agreed(m, aim, EvalOp(From(aim, m), k, Des, vs, h), EvalOp(To(aim, m), k, Des, vs, h))
    decreases k, 2, 0
  {
    var vs := Select(env, args);
    if EvalOp(From(aim, m), k, Des, vs, h).Done? {
      DesIsCall(From(aim, m), k, vs, h);
      var obj := vs[|vs| - 1];
      var x := args[obj.cons.index];
      assert Good(m, aim, obj) && vs[..|vs| - 1][obj.cons.index] == env[x];
      if aim.ForPlain? && |args| == 2 {
        assert Good(m, aim, env[x]);
        ApplyAgrees(m, aim, k, env[x], obj, h);
      } else {
        ClaimAgrees(m, aim, k, all, ys, env, x, obj, h);
      }
    }
  }

  /** More time changes nothing: the value keeps its yield for however long it is looked at. */
  lemma {:induction false} TermFits(m: Machine, aim: Aim, k: nat, t: Term, all: seq<Term>, ys: seq<Yield>,
                                    env: seq<Value>, h: History)
    requires Simple(m) && Fits(m, all, ys, env) && EvalTerm(From(aim, m), k, t, env, h).Done?
    ensures SlotFits(m, t, YieldOf(t, ys), EvalTerm(From(aim, m), k, t, env, h).value)
  {
    var o := EvalTerm(From(aim, m), k, t, env, h);
    assert Loosely(From(aim, m)) == m;
    LooseTerm(From(aim, m), k, t, env, h);
    forall n: nat ensures Keeps(m, n, o.value, YieldOf(t, ys)) {
      TermMore(m, k, n, t, env, h);
      FitsKeep(m, k + n, all, ys, env);
      TermKeeps(m, k + n, t, env, ys, h);
      if YieldOf(t, ys).After? { GivesDown(m, o.left + n, n, o.value, YieldOf(t, ys).args); }
    }
  }

  lemma {:induction false} TermAgrees(m: Machine, aim: Aim, k: nat, t: Term, all: seq<Term>, ys: seq<Yield>,
                                      env: seq<Value>, h: History)
    requires Simple(m) && AllGood(m, aim, env) && Sits(m, aim, t, all, ys, env)
    ensures Agreed(m, aim, EvalTerm(From(aim, m), k, t, env, h), EvalTerm(To(aim, m), k, t, env, h))
    decreases k, 4, 0
  {
    if t.Redux? && InRange(t.args, |env|) {
      OpAgrees(m, aim, k, t.op, t.args, Select(env, t.args), all, ys, env, h);
    } else if t.Fun? {
      GoodClosure(m, aim, t, all, ys, env, []);
    }
  }

  lemma {:induction false} OpAgrees(m: Machine, aim: Aim, k: nat, op: Op, args: seq<nat>, vs: seq<Value>,
                                    all: seq<Term>, ys: seq<Yield>, env: seq<Value>, h: History)
    requires Simple(m) && AllGood(m, aim, env) && Fits(m, all, ys, env) && InRange(args, |env|)
    requires vs == Select(env, args) && (op.Des? ==> Handlers(aim, all, ys, args))
    requires op.Prim? && op.kind.FnArg? && |args| >= 2 ==> Written(aim, all, ys, args[1])
    ensures Agreed(m, aim, EvalOp(From(aim, m), k, op, vs, h), EvalOp(To(aim, m), k, op, vs, h))
    decreases k, 3, 0
  {
    assert AllGood(m, aim, vs);
    match op
    case App => if vs != [] { ApplyAllAgrees(m, aim, k, vs[0], Tail(vs), h); }
    case Prim(name, kind) =>
      if !kind.FnArg? {
        EmbedGood(m, aim, m.run(name, EraseAll(vs), if kind.Pure? then [] else h));
      } else if |vs| >= 2 {
        ClaimAgrees(m, aim, k, all, ys, env, args[1], vs[0], h);
      }
    case Get(_) =>
    case Des => DesAgrees(m, aim, k, all, ys, env, args, h);
    case Con(_) =>
  }

  /** The environment after a body, on either machine. */
  ghost predicate BodyAgreed(m: Machine, aim: Aim, b: BodyOutcome, c: BodyOutcome, all: seq<Term>, ys: seq<Yield>) {
    b.BodyDone? ==> c == b && AllGood(m, aim, b.env) && Fits(m, all, ys, b.env)
  }

  lemma {:induction false} BodyAgrees(m: Machine, aim: Aim, k: nat, ts: seq<Term>, all: seq<Term>, ys: seq<Yield>,
                                      env: seq<Value>, h: History)
    requires Simple(m) && Fits(m, all, ys, env) && AllGood(m, aim, env) && BodyMeets(aim, ts, all, ys)
    ensures BodyAgreed(m, aim, EvalBody(From(aim, m), k, ts, env, h), EvalBody(To(aim, m), k, ts, env, h), all + ts,
                       BodyYields(ts, ys))
    decreases k, 5, |ts|
  {
    if ts == [] {
      assert all + ts == all;
    } else {
      var z := |ts| - 1;
      BodyAgrees(m, aim, k, ts[..z], all, ys, env, h);
      var b := EvalBody(From(aim, m), k, ts[..z], env, h);
      if b.BodyDone? { StepAgrees(m, aim, b, ts[z], all + ts[..z], BodyYields(ts[..z], ys), all + ts); }
    }
  }

  lemma {:induction false} StepAgrees(m: Machine, aim: Aim, b: BodyOutcome, t: Term, all: seq<Term>, ys: seq<Yield>,
                                      all': seq<Term>)
    requires Simple(m) && b.BodyDone? && AllGood(m, aim, b.env) && Sits(m, aim, t, all, ys, b.env) && all' == all + [t]
    ensures var o := EvalTerm(From(aim, m), b.left, t, b.env, b.hist);
      o.Done? ==>
        && EvalTerm(To(aim, m), b.left, t, b.env, b.hist) == o && AllGood(m, aim, b.env + [o.value])
        && Fits(m, all', ys + [YieldOf(t, ys)], b.env + [o.value])
    decreases b.left, 4, 1
  {
    TermAgrees(m, aim, b.left, t, all, ys, b.env, b.hist);
    var o := EvalTerm(From(aim, m), b.left, t, b.env, b.hist);
    if o.Done? {
      TermFits(m, aim, b.left, t, all, ys, b.env, b.hist);
      FitsSnoc(m, all, ys, b.env, t, YieldOf(t, ys), o.value, all', ys + [YieldOf(t, ys)], b.env + [o.value]);
    }
  }

  /** Every run of such a program on the one machine is its run on the other. */
  lemma {:induction false} ProgramAgrees(m: Machine, aim: Aim, n: nat, top: Term, h: History)
    requires Simple(m) && Whole(aim, top) && RunProgram(From(aim, m), n, top, h).Done?
    ensures RunProgram(To(aim, m), n, top, h) == RunProgram(From(aim, m), n, top, h)
  {
    var v := VClo(top, [], []);
    assert Fits(m, [], [], []);
    ClosureFits(m, top, [], [], []);
    GoodClosure(m, aim, top, [], [], [], []);
    assert Fits(m, [top], [FunYield(top, [])], [v]);
    ClaimAgrees(m, aim, n, [top], [FunYield(top, [])], [v], 0, v, h);
  }
}
