/** `target foo x = \y y` and the call `foo 1 2`, as the optimizer sees them once the call of the
    target is written out: the target's body is a function that returns a function.
 */
module TargetExample {
  import opened Ssa
  import opened SsaRelation
  import opened UsageSweep
  import opened TermStreams
  import opened Inline

  const NONE: Flags := Flags(false, false, false, false, false)
  const WORD: Mask := seq(WIDTH, _ => true)

  /** \y y, at index 5 */
  const IDENTITY: Term := Fun(NONE, WORD, [Arg(NONE)], 6)

  /** \_ (\y y), at index 3 */
  const BODY: Term := Fun(NONE, WORD, [Arg(NONE), IDENTITY], 5)

  const TGET: Term := Redux(NONE, Prim("tget", FnArg), [2, 3])

  const REST: seq<Term> := [Lit(NONE, 1), BODY, TGET, Lit(NONE, 2), Redux(NONE, App, [4, 5])]

  const PROGRAM: Term := Fun(NONE, WORD, [Arg(NONE), Lit(NONE, 1), BODY, TGET, Lit(NONE, 2), Redux(NONE, App, [4, 5])],
                             6)

  lemma {:induction false} Arities()
    ensures Arity(PROGRAM.terms) == 1 && PROGRAM.terms[1..] == REST
    ensures Arity(BODY.terms) == 1 && BODY.terms[1..] == [IDENTITY]
    ensures Arity(IDENTITY.terms) == 1 && IDENTITY.terms[1..] == []
  {
    ArityIs(PROGRAM.terms, 1);
    ArityIs(BODY.terms, 1);
    ArityIs(IDENTITY.terms, 1);
  }

  /** One more term. */
  lemma {:induction false} Next(m: Machine, k: nat, ts: seq<Term>, n: nat, env: seq<Value>, h: History, b: BodyOutcome,
                                o: Outcome)
    requires n < |ts| && b == EvalBody(m, k, ts[..n], env, h) && b.BodyDone?
    requires o == EvalTerm(m, b.left, ts[n], b.env, b.hist)
    ensures EvalBody(m, k, ts[..n + 1], env, h) ==
      if o.Done? then BodyDone(b.env + [o.value], o.hist, o.left) else BodyFail
  {
    assert ts[..n + 1][..n] == ts[..n];
  }

  /** The body hands out the identity. */
  lemma {:induction false} BodyHandsOut(m: Machine, k: nat, env: seq<Value>, a: Value, h: History)
    requires m.check.NoCheck? && m.claims.Exact? && |env| == 3
    ensures var e := env + [VClo(BODY, env, [])] + [a];
      Claim(m, k + 1, VClo(BODY, env, []), a, h) == Done(VClo(IDENTITY, e, [], true), h, k)
  {
    Arities();
    var e := Entry(BODY, env, [a]);
    SingleBody(m, k, IDENTITY, e, h);
    var none: seq<Value> := [];
    assert none + [a] == [a];
    assert RunFun(m, k, BODY, env, [a], h) == Done(VClo(IDENTITY, e, [], true), h, k);
  }

  lemma {:induction false} IdentityReturns(m: Machine, k: nat, env: seq<Value>, a: Value, h: History)
    requires |env| == 5 && a.VLit?
    ensures Apply(m, k + 1, VClo(IDENTITY, env, [], true), a, h) == Done(a, h, k)
  {
    Arities();
    var none: seq<Value> := [];
    assert none + [a] == [a];
    assert RunFun(m, k, IDENTITY, env, [a], h) == Done(a, h, k);
  }

  /** Before the pass: `foo 1 2` is 2, on any ordinary machine. */
  lemma {:induction false} RunsBefore(m: Machine, h: History)
    requires m.check.NoCheck? && m.claims.Exact?
    ensures RunProgram(m, 3, PROGRAM, h) == Done(VLit(2), h, 0)
  {
    Arities();
    var top := VClo(PROGRAM, [], []);
    assert Entry(PROGRAM, [], [top]) == [top, top];
    var e := HandsOver(m, [top, top], h);
    assert REST[..5] == REST;
    assert RunFun(m, 2, PROGRAM, [], [top], h) == Done(VLit(2), h, 0);
    var none: seq<Value> := [];
    assert none + [top] == [top];
    assert Apply(m, 3, top, top, h) == RunFun(m, 2, PROGRAM, [], [top], h);
  }

  /** Up to tget, which hands out the identity, and on to its call. */
  lemma {:induction false} HandsOver(m: Machine, env: seq<Value>, h: History) returns (e: seq<Value>)
    requires m.check.NoCheck? && m.claims.Exact? && |env| == 2
    ensures EvalBody(m, 2, REST[..5], env, h) == BodyDone(e, h, 0) && |e| == 7 && e[6] == VLit(2)
  {
    var e3 := env + [VLit(1)];
    var e4 := e3 + [VClo(BODY, e3, [])];
    var e5 := e4 + [VLit(1)];
    var handed := VClo(IDENTITY, e5, [], true);
    UpToTget(m, 2, REST, BODY, env, h);
    BodyHandsOut(m, 1, e3, VLit(1), h);
    assert Select(e4, [2, 3]) == [VLit(1), VClo(BODY, e3, [])];
    Next(m, 2, REST, 2, env, h, BodyDone(e4, h, 2), Done(handed, h, 1));
    Next(m, 2, REST, 3, env, h, BodyDone(e4 + [handed], h, 1), Done(VLit(2), h, 1));
    var e6 := e4 + [handed] + [VLit(2)];
    CallsIdentity(m, e6, e5, handed, h);
    Next(m, 2, REST, 4, env, h, BodyDone(e6, h, 1), Done(VLit(2), h, 0));
    e := e6 + [VLit(2)];
  }

  lemma {:induction false} UpToTget(m: Machine, k: nat, ts: seq<Term>, body: Term, env: seq<Value>, h: History)
    requires |ts| >= 3 && ts[0] == Lit(NONE, 1) && ts[1] == body && body.Fun?
    ensures var e := env + [VLit(1)];
      EvalBody(m, k, ts[..2], env, h) == BodyDone(e + [VClo(body, e, [])], h, k)
  {
    assert ts[..0] == [];
    Next(m, k, ts, 0, env, h, BodyDone(env, h, k), Done(VLit(1), h, k));
    var e3 := env + [VLit(1)];
    Next(m, k, ts, 1, env, h, BodyDone(e3, h, k), Done(VClo(body, e3, []), h, k));
  }

  lemma {:induction false} CallsIdentity(m: Machine, env: seq<Value>, e5: seq<Value>, handed: Value, h: History)
    requires m.check.NoCheck? && |env| == 6 && env[4] == handed == VClo(IDENTITY, e5, [], true) && |e5| == 5
    requires env[5] == VLit(2)
    ensures EvalTerm(m, 1, Redux(NONE, App, [4, 5]), env, h) == Done(VLit(2), h, 0)
  {
    var vs := Select(env, [4, 5]);
    AppIs(m, 1, handed, [VLit(2)], vs, h);
    IdentityReturns(m, 0, e5, VLit(2), h);
    assert [VLit(2)][..0] == [];
    assert ApplyAll(m, 1, handed, [], h) == Done(handed, h, 1);
  }

  // ------------------------------------------------------------------ after the pass

  lemma {:induction false} ProgramFormed()
    ensures Formed(PROGRAM) && Formed(BODY) && Curried(BODY, 3) && FullArity(BODY, 3) == 2
  {
    Arities();
    assert Formed(IDENTITY);
    assert !Mentions(IDENTITY, 5);
    assert !Curried(IDENTITY, 5);
  }

  /** The state once the parameter, the literal, the body and tget have been emitted. */
  lemma {:induction false} Emits(p: Policy, budget: nat, s: State) returns (q: State)
    requires s == State([Open(1), Closed(Arg(NONE))], [0, 1], map[])
    ensures q == InlineBody(p, budget, REST[..3], s) && |q.scope| == 5 && s.scope <= q.scope
    ensures q.scope[2] == Closed(Lit(NONE, 1)) && q.scope[4] == Closed(TGET)
    ensures q.scope[3].Closed? && q.scope[3].term.Fun? && Arity(q.scope[3].term.terms) == 2
  {
    assert REST[..0] == [];
    EmitsNext(p, budget, s, 0, s);
    var s1 := State([Open(1), Closed(Arg(NONE)), Closed(Lit(NONE, 1))], [0, 1, 2], map[1 := 2]);
    assert InlineLit(s, Lit(NONE, 1)) == s1;
    EmitsNext(p, budget, s, 1, s1);
    ProgramFormed();
    FunTidies(p, budget, BODY, s1);
    var s2 := InlineFun(p, budget, BODY, s1);
    assert s2.map_ == [0, 1, 2, 3] && s2.scope == s1.scope + [Closed(Emitted(p, budget, BODY, s1))];
    EmitsNext(p, budget, s, 2, s2);
    assert LookAll(s2.map_, [2, 3]) == [2, 3];
    q := Transfer(s2, TGET);
  }

  lemma {:induction false} EmitsNext(p: Policy, budget: nat, s: State, n: nat, q: State)
    requires n < |REST| && q == InlineBody(p, budget, REST[..n], s)
    ensures InlineBody(p, budget, REST[..n + 1], s) == InlineTerm(p, budget, REST[n], q)
  {
    assert REST[..n + 1][..n] == REST[..n];
  }

  /** After it: the merged body is never filled, whatever is inlined and however long one waits. */
  lemma {:induction false} StuckAfter(p: Policy, budget: nat, m: Machine, k: nat, h: History)
    requires !m.claims.Loose?
    ensures RunProgram(m, k, InlinePass(p, budget, PROGRAM), h).Fail?
  {
    var r := InlinePass(p, budget, PROGRAM);
    var body := Shape(p, budget);
    if RunProgram(m, k, r, h).Done? {
      var top := VClo(r, [], []);
      var none: seq<Value> := [];
      assert none + [top] == [top];
      assert Apply(m, k, top, top, h) == RunFun(m, k - 1, r, [], [top], h);
      ReachesTget(m, k - 1, r.terms[1..], body, Entry(r, [], [top]), h);
      assert false;
    }
  }

  lemma {:induction false} Shape(p: Policy, budget: nat) returns (body: Term)
    ensures var r := InlinePass(p, budget, PROGRAM);
      && r.Fun? && |r.terms| >= 4 && r.terms[1] == Lit(NONE, 1) && r.terms[2] == body && r.terms[3] == TGET
      && body.Fun? && Arity(body.terms) == 2
  {
    var r := InlinePass(p, budget, PROGRAM);
    Arities();
    assert !Curried(PROGRAM, 0) && FullArity(PROGRAM, 0) == 1;
    var s0 := State([Open(1)], [0], map[]);
    assert PROGRAM.terms[..1] == [Arg(NONE)];
    TransferAllIs(s0, [Arg(NONE)]);
    var s := TransferAll(s0, [Arg(NONE)]);
    assert s == State([Open(1), Closed(Arg(NONE))], [0, 1], map[]);
    var q := Emits(p, budget, s);
    body := q.scope[3].term;
    var all := InlineBody(p, budget, REST, s);
    Onwards(p, budget, s, q, all);
    TermsSplit(q.scope, all.scope, 1);
    TermsLength(q.scope, 1);
    ProgramIs(p, budget, s0, s, all);
  }

  lemma {:induction false} ProgramIs(p: Policy, budget: nat, s0: State, s: State, all: State)
    requires s0 == State([Open(1)], [0], map[]) && s == TransferAll(s0, [Arg(NONE)])
    requires all == InlineBody(p, budget, REST, s)
    ensures var r := InlinePass(p, budget, PROGRAM); r.Fun? && r.terms == Terms(all.scope, 1)
  {
    Arities();
    var none: Scope := [];
    var start := State(none, [], map[]);
    assert PROGRAM.terms[..1] == [Arg(NONE)] && !Curried(PROGRAM, 0);
    assert Opened(PROGRAM, start) == s0;
    assert InlineCurried(p, budget, PROGRAM, s0).0 == all;
    assert InlineFun(p, budget, PROGRAM, start).scope == [Closed(Emitted(p, budget, PROGRAM, start))];
  }

  lemma {:induction false} Onwards(p: Policy, budget: nat, s: State, q: State, all: State)
    requires q == InlineBody(p, budget, REST[..3], s) && all == InlineBody(p, budget, REST, s)
    ensures q.scope <= all.scope
  {
    assert REST[..5] == REST;
    var s4 := InlineBody(p, budget, REST[..4], s);
    EmitsNext(p, budget, s, 3, q);
    EmitsNext(p, budget, s, 4, s4);
    TermGrows(p, budget, REST[3], q);
    TermGrows(p, budget, REST[4], s4);
  }

  /** A body that begins so never gets past tget. */
  lemma {:induction false} ReachesTget(m: Machine, k: nat, ts: seq<Term>, body: Term, env: seq<Value>, h: History)
    requires |ts| >= 3 && ts[0] == Lit(NONE, 1) && ts[1] == body && ts[2] == TGET && body.Fun? && Arity(body.terms) == 2
    requires |env| == 2 && !m.claims.Loose?
    ensures EvalBody(m, k, ts, env, h).BodyFail?
  {
    UpToTget(m, k, ts, body, env, h);
    var e3 := env + [VLit(1)];
    var e4 := e3 + [VClo(body, e3, [])];
    var vs := Select(e4, [2, 3]);
    assert vs[1] == VClo(body, e3, []) && !Claimable(m, vs[1]);
    assert EvalOp(m, k, TGET.op, vs, h) == Fail;
    assert EvalTerm(m, k, TGET, e4, h) == Fail;
    Next(m, k, ts, 2, env, h, BodyDone(e4, h, k), Fail);
    StaysFailed(m, k, ts, 3, env, h);
  }

  lemma {:induction false} StaysFailed(m: Machine, k: nat, ts: seq<Term>, n: nat, env: seq<Value>, h: History)
    requires n <= |ts| && EvalBody(m, k, ts[..n], env, h).BodyFail?
    ensures EvalBody(m, k, ts, env, h).BodyFail?
    decreases |ts|
  {
    if n < |ts| {
      var z := |ts| - 1;
      assert ts[..z][..n] == ts[..n];
      StaysFailed(m, k, ts[..z], n, env, h);
    } else {
      assert ts[..n] == ts;
    }
  }
}
