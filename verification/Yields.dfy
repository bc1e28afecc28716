/** After how many arguments a value is data, read off the text: a handler that yields data after one returns no
    function.  Calls are followed, to functions in sight; a function is taken to yield data when its curried
    parameters are used up as long as its body bears that out. */
module Yields {
  import opened Sequences
  import opened Ssa

  datatype Yield = Unknown | After(args: nat)

  function Known(ys: seq<Yield>, x: nat): Yield {
    if x < |ys| then ys[x] else Unknown
  }

  /** What is left to come after k arguments. */
  function Less(y: Yield, k: nat): Yield {
    if y.After? && y.args >= k then After(y.args - k) else Unknown
  }

  function OpYield(op: Op, args: seq<nat>, ys: seq<Yield>): Yield {
    match op
    case App => if args == [] then Unknown else Less(Known(ys, args[0]), |args| - 1)
    case Prim(_, kind) => if !kind.FnArg? then After(0) else if |args| < 2 then Unknown else Less(Known(ys, args[1]), 1)
    case Get(_) => Unknown
    case Des =>
      if |args| >= 2 && forall i :: 0 <= i < |args| - 1 ==> Known(ys, args[i]) == Known(ys, args[0])
      then Less(Known(ys, args[0]), 1)
      else Unknown
    case Con(_) => After(0)
  }

  /** ys are the yields of what is in sight of t. */
  function YieldOf(t: Term, ys: seq<Yield>): Yield
    decreases t, 1
  {
    match t
    case Arg(_) => Unknown
    case Lit(_, _) => After(0)
    case Redux(_, op, args) => OpYield(op, args, ys)
    case Fun(_, _, _, _) => FunYield(t, ys)
  }

  function BodyYields(ts: seq<Term>, ys: seq<Yield>): (r: seq<Yield>)
    ensures |r| == |ys| + |ts|
    decreases ts, 0
  {
    if ts == [] then ys else
    var r := BodyYields(ts[..|ts| - 1], ys);
    r + [YieldOf(ts[|ts| - 1], r)]
  }

  /** The parameters of a function and of the functions it returns as written. */
  function Spine(f: Term, k: nat): nat
    requires f.Fun?
    decreases f
  {
    var i := f.output - k - 1;
    Arity(f.terms) + if 0 <= i < |f.terms| && f.terms[i].Fun? then Spine(f.terms[i], f.output) else 0
  }

  /** What a function that calls itself is taken to yield while its body is looked at. */
  function Guess(f: Term, k: nat): Yield
    requires f.Fun?
  {
    if Mentions(f, k) then After(Spine(f, k)) else Unknown
  }

  /** What the function yields if it itself yields `guess`. */
  function Outcomes(f: Term, ys: seq<Yield>, guess: Yield): Yield
    requires f.Fun?
    decreases f, 0, 0
  {
    var out := Known(BodyYields(f.terms, ys + [guess]), f.output);
    if out.After? && Arity(f.terms) > 0 then After(Arity(f.terms) + out.args) else Unknown
  }

  function FunYield(f: Term, ys: seq<Yield>): (y: Yield)
    requires f.Fun?
    ensures y.After? ==> y.args >= Arity(f.terms) > 0
    decreases f, 0, 1
  {
    var guess := Guess(f, |ys|);
    var y := Outcomes(f, ys, guess);
    if guess.Unknown? || guess == y then y else Unknown
  }

  // ----------------------------------------------------------------- what it means

  /** Within n calls, v is data once it has j more arguments. */
  ghost predicate Gives(m: Machine, n: nat, v: Value, j: nat)
    decreases j, 1
  {
    if j == 0 then !v.VClo? else v.VClo? ==> forall k: nat, a: Value, h: History | k < n :: CallGives(m, k, v, a, h, j)
  }

  ghost predicate CallGives(m: Machine, k: nat, v: Value, a: Value, h: History, j: nat)
    requires j > 0
    decreases j, 0
  {
    var o := Apply(m, k + 1, v, a, h);
    o.Done? ==> Gives(m, o.left, o.value, j - 1)
  }

  ghost predicate Keeps(m: Machine, n: nat, v: Value, y: Yield) {
    y.After? ==> Gives(m, n, v, y.args)
  }

  ghost predicate AllKeep(m: Machine, n: nat, env: seq<Value>, ys: seq<Yield>) {
    |env| == |ys| && forall i :: 0 <= i < |env| ==> Keeps(m, n, env[i], ys[i])
  }

  lemma {:induction false} GivesDown(m: Machine, n: nat, k: nat, v: Value, j: nat)
    requires Gives(m, n, v, j) && k <= n
    ensures Gives(m, k, v, j)
  {
  }

  lemma {:induction false} KeepDown(m: Machine, n: nat, k: nat, env: seq<Value>, ys: seq<Yield>)
    requires AllKeep(m, n, env, ys) && k <= n
    ensures AllKeep(m, k, env, ys)
  {
    forall i | 0 <= i < |env| ensures Keeps(m, k, env[i], ys[i]) {
      if ys[i].After? { GivesDown(m, n, k, env[i], ys[i].args); }
    }
  }

  lemma {:induction false} GivesReturned(m: Machine, n: nat, v: Value, j: nat)
    requires Gives(m, n, v, j)
    ensures Gives(m, n, Returned(v), j)
  {
    if v.VClo? && j > 0 {
      forall k: nat, a: Value, h: History | k < n ensures CallGives(m, k, Returned(v), a, h, j) {
        assert CallGives(m, k, v, a, h, j);
        assert Apply(m, k + 1, Returned(v), a, h) == Apply(m, k + 1, v, a, h);
      }
    }
  }

  lemma {:induction false} CallGiven(m: Machine, n: nat, v: Value, j: nat, a: Value, h: History)
    requires Gives(m, n, v, j) && j > 0 && Apply(m, n, v, a, h).Done?
    ensures var o := Apply(m, n, v, a, h); Gives(m, o.left, o.value, j - 1)
  {
    assert CallGives(m, n - 1, v, a, h, j);
  }

  lemma {:induction false} CallsGiven(m: Machine, n: nat, v: Value, j: nat, args: seq<Value>, h: History)
    requires Gives(m, n, v, j) && |args| <= j && ApplyAll(m, n, v, args, h).Done?
    ensures var o := ApplyAll(m, n, v, args, h); Gives(m, o.left, o.value, j - |args|)
    decreases |args|
  {
    if args != [] {
      var init := args[..|args| - 1];
      CallsGiven(m, n, v, j, init, h);
      var o := ApplyAll(m, n, v, init, h);
      CallGiven(m, o.left, o.value, j - |init|, args[|args| - 1], o.hist);
    }
  }

  // -------------------------------------------------------------------- it is so

  ghost predicate Simple(m: Machine) {
    m.check.NoCheck? && m.claims.Loose?
  }

  lemma {:induction false} OpKeeps(m: Machine, n: nat, op: Op, args: seq<nat>, env: seq<Value>, ys: seq<Yield>,
                                   h: History)
    requires Simple(m) && AllKeep(m, n, env, ys) && InRange(args, |env|)
    requires EvalOp(m, n, op, Select(env, args), h).Done?
    ensures var o := EvalOp(m, n, op, Select(env, args), h); Keeps(m, o.left, o.value, OpYield(op, args, ys))
  {
    var vs := Select(env, args);
    match op
    case App =>
      assert Keeps(m, n, vs[0], ys[args[0]]);
      if OpYield(op, args, ys).After? { CallsGiven(m, n, vs[0], ys[args[0]].args, Tail(vs), h); }
    case Prim(name, kind) =>
      if kind.FnArg? {
        assert Keeps(m, n, vs[1], ys[args[1]]) && Claim(m, n, vs[1], vs[0], h).Done?;
        if Less(ys[args[1]], 1).After? { CallGiven(m, n, vs[1], ys[args[1]].args, vs[0], h); }
      }
    case Get(_) =>
    case Des =>
      DesIsCall(m, n, vs, h);
      var obj := vs[|vs| - 1];
      var x := args[obj.cons.index];
      assert Keeps(m, n, env[x], ys[x]);
      if OpYield(op, args, ys).After? {
        assert Known(ys, x) == Known(ys, args[0]);
        CallGiven(m, n, env[x], ys[x].args, obj, h);
      }
    case Con(_) =>
  }

  lemma {:induction false} TermKeeps(m: Machine, n: nat, t: Term, env: seq<Value>, ys: seq<Yield>, h: History)
    requires Simple(m) && AllKeep(m, n, env, ys) && EvalTerm(m, n, t, env, h).Done?
    ensures var o := EvalTerm(m, n, t, env, h); Keeps(m, o.left, o.value, YieldOf(t, ys))
    decreases n, 2, 0
  {
    if t.Redux? { OpKeeps(m, n, t.op, t.args, env, ys, h); }
    if t.Fun? { FunKeeps(m, n, t, env, ys); }
  }

  lemma {:induction false} BodyKeeps(m: Machine, n: nat, ts: seq<Term>, env: seq<Value>, ys: seq<Yield>, h: History)
    requires Simple(m) && AllKeep(m, n, env, ys) && EvalBody(m, n, ts, env, h).BodyDone?
    ensures var b := EvalBody(m, n, ts, env, h); AllKeep(m, b.left, b.env, BodyYields(ts, ys))
    decreases n, 3, |ts|
  {
    if ts != [] {
      var z := |ts| - 1;
      BodyKeeps(m, n, ts[..z], env, ys, h);
      var b, r := EvalBody(m, n, ts[..z], env, h), BodyYields(ts[..z], ys);
      TermKeeps(m, b.left, ts[z], b.env, r, b.hist);
      var o := EvalTerm(m, b.left, ts[z], b.env, b.hist);
      KeepDown(m, b.left, o.left, b.env, r);
    }
  }

  /** A function keeps its word: by its body, and by itself in fewer calls. */
  lemma {:induction false} FunKeeps(m: Machine, n: nat, f: Term, env: seq<Value>, ys: seq<Yield>)
    requires Simple(m) && f.Fun? && AllKeep(m, n, env, ys)
    ensures Keeps(m, n, VClo(f, env, []), FunYield(f, ys))
    decreases n, 1, 0
  {
    if FunYield(f, ys).After? { PartKeeps(m, n, f, env, [], ys); }
  }

  lemma {:induction false} PartKeeps(m: Machine, n: nat, f: Term, env: seq<Value>, vs: seq<Value>, ys: seq<Yield>)
    requires Simple(m) && f.Fun? && AllKeep(m, n, env, ys) && |vs| < Arity(f.terms) && FunYield(f, ys).After?
    ensures Gives(m, n, VClo(f, env, vs), FunYield(f, ys).args - |vs|)
    decreases n, 0, 0
  {
    var v, j := VClo(f, env, vs), FunYield(f, ys).args - |vs|;
    forall k: nat, a: Value, h: History | k < n ensures CallGives(m, k, v, a, h, j) {
      KeepDown(m, n, k, env, ys);
      if |vs + [a]| < Arity(f.terms) {
        PartKeeps(m, k, f, env, vs + [a], ys);
        assert Apply(m, k + 1, v, a, h) == Done(VClo(f, env, vs + [a]), h, k);
      } else if Apply(m, k + 1, v, a, h).Done? {
        RunKeeps(m, k, f, env, vs + [a], ys, h);
        assert Apply(m, k + 1, v, a, h) == RunFun(m, k, f, env, vs + [a], h);
      }
    }
    assert Gives(m, n, v, j);
  }

  lemma {:induction false} RunKeeps(m: Machine, n: nat, f: Term, env: seq<Value>, xs: seq<Value>, ys: seq<Yield>,
                                    h: History)
    requires Simple(m) && f.Fun? && AllKeep(m, n, env, ys) && |xs| == Arity(f.terms) && FunYield(f, ys).After?
    requires RunFun(m, n, f, env, xs, h).Done?
    ensures var o := RunFun(m, n, f, env, xs, h); Gives(m, o.left, o.value, FunYield(f, ys).args - |xs|)
    decreases n, 4, 0
  {
    var own, front, rest := ys + [Guess(f, |ys|)], f.terms[..|xs|], f.terms[|xs|..];
    FunKeeps(m, n, f, env, ys);
    ArgsKeep(m, n, front, env + [VClo(f, env, [])], xs, own);
    assert f.terms == front + rest;
    YieldsSplit(front, rest, f.terms, own);
    BodyKeeps(m, n, rest, Entry(f, env, xs), BodyYields(front, own), h);
    var b := EvalBody(m, n, rest, Entry(f, env, xs), h);
    assert Keeps(m, b.left, b.env[f.output], BodyYields(f.terms, own)[f.output]);
    GivesReturned(m, b.left, b.env[f.output], FunYield(f, ys).args - |xs|);
  }

  lemma {:induction false} ArgsKeep(m: Machine, n: nat, ts: seq<Term>, env: seq<Value>, xs: seq<Value>, ys: seq<Yield>)
    requires AllKeep(m, n, env, ys) && |ts| == |xs| && forall i :: 0 <= i < |ts| ==> ts[i].Arg?
    ensures AllKeep(m, n, env + xs, BodyYields(ts, ys))
    decreases |ts|
  {
    if ts != [] {
      var z := |ts| - 1;
      ArgsKeep(m, n, ts[..z], env, xs[..z], ys);
      assert env + xs == (env + xs[..z]) + [xs[z]];
    } else {
      assert env + xs == env;
    }
  }

  lemma {:induction false} YieldsSplit(front: seq<Term>, rest: seq<Term>, all: seq<Term>, ys: seq<Yield>)
    requires all == front + rest
    ensures BodyYields(all, ys) == BodyYields(rest, BodyYields(front, ys))
    decreases |rest|
  {
    if rest == [] {
      assert all == front;
    } else {
      var z := |rest| - 1;
      assert all[..|all| - 1] == front + rest[..z] && all[|all| - 1] == rest[z];
      YieldsSplit(front, rest[..z], all[..|all| - 1], ys);
    }
  }
}
