/** What the inliner leaves behind: nothing it could have seen through.

    In the result no destructure takes apart, and no field is taken from, a constructor in sight; a call that gives a
    function in sight all its arguments names that function; and no literal is in sight of an equal one.
 */
module Simplified {
  import opened Sequences
  import opened Ssa
  import opened TermStreams
  import opened UsageSweep
  import opened Inline

  // ------------------------------------------------------------------- what is in sight

  /** The constructor built at index x, if one is. */
  predicate Built(scope: Scope, x: nat) {
    x < |scope| && scope[x].Closed? && scope[x].term.Redux? && scope[x].term.op.Con?
  }

  predicate Function(scope: Scope, x: nat) {
    x < |scope| && (scope[x].Open? || scope[x].term.Fun?)
  }

  function Parameters(scope: Scope, x: nat): nat
    requires Function(scope, x)
  {
    if scope[x].Open? then scope[x].arity else Arity(scope[x].term.terms)
  }

  datatype Applied = Applied(fn: nat, args: nat)

  /** What is applied at index i, through however many applications, and to how many arguments. */
  function Root(scope: Scope, i: nat): (r: Applied)
    ensures r.fn <= i
    decreases i
  {
    if i < |scope| && scope[i].Closed? && IsApp(scope[i].term) && scope[i].term.args[0] < i then
      var r := Root(scope, scope[i].term.args[0]);
      Applied(r.fn, r.args + |scope[i].term.args| - 1)
    else Applied(i, 0)
  }

  /** A call that completes the arguments of a function in sight names the function. */
  predicate Direct(scope: Scope, args: seq<nat>) {
    |args| >= 2 ==>
      var r := Root(scope, args[0]);
      Function(scope, r.fn) && Parameters(scope, r.fn) == r.args + |args| - 1 ==> args[0] == r.fn
  }

  function Finished(ts: seq<Term>): (r: Scope)
    ensures |r| == |ts| && forall i :: 0 <= i < |ts| ==> r[i] == Closed(ts[i])
  {
    seq(|ts|, i requires 0 <= i < |ts| => Closed(ts[i]))
  }

  /** Nothing in t, which stands at the end of scope, could be seen through. */
  predicate Simple(t: Term, scope: Scope)
    decreases t, 1
  {
    match t
    case Arg(_) => true
    case Lit(_, x) => forall i :: 0 <= i < |scope| ==> !IsLit(scope[i], x)
    case Redux(_, op, args) =>
      && (op.App? ==> Direct(scope, args))
      && (op.Get? && |args| == 1 && Built(scope, args[0]) ==> op.index >= |scope[args[0]].term.args|)
      && (op.Des? && |args| >= 1 && Built(scope, args[|args| - 1]) ==>
           scope[args[|args| - 1]].term.op.cons.index >= |args| - 1)
    case Fun(_, _, terms, _) => BodySimple(terms, scope + [Open(Arity(terms))])
  }

  predicate BodySimple(ts: seq<Term>, scope: Scope)
    decreases ts, 0
  {
    ts == [] ||
    (var z := |ts| - 1;
     BodySimple(ts[..z], scope) && Simple(ts[z], scope + Finished(ts[..z])))
  }

  // ------------------------------------------------------------------ through the pass

  predicate AllSimple(scope: Scope) {
    forall i :: 0 <= i < |scope| && scope[i].Closed? ==> Simple(scope[i].term, scope[..i])
  }

  /** The pool has every literal in sight. */
  ghost predicate Pooled(s: State) {
    forall i, x :: 0 <= i < |s.scope| && IsLit(s.scope[i], x) ==> x in s.pool && s.pool[x] == i
  }

  ghost predicate Done(s: State) {
    AllSimple(s.scope) && Pooled(s) && Tidy(s.scope)
  }

  lemma {:induction false} RootIs(scope: Scope, i: nat)
    ensures var r, c := Root(scope, i), Chain(scope, i);
      Function(scope, r.fn) && r.args < Parameters(scope, r.fn) ==>
        Missing(scope, i) == Parameters(scope, r.fn) - r.args && c.fn == r.fn
    decreases i
  {
    if i < |scope| && scope[i].Closed? && IsApp(scope[i].term) && scope[i].term.args[0] < i {
      RootIs(scope, scope[i].term.args[0]);
    }
  }

  lemma {:induction false} ChainEnds(scope: Scope, i: nat)
    requires Missing(scope, i) > 0
    ensures Function(scope, Chain(scope, i).fn)
    decreases i
  {
    if scope[i].Closed? && IsApp(scope[i].term) && scope[i].term.args[0] < i {
      ChainEnds(scope, scope[i].term.args[0]);
    }
  }

  lemma {:induction false} AllSimpleSnoc(scope: Scope, t: Term)
    requires AllSimple(scope) && Simple(t, scope)
    ensures AllSimple(scope + [Closed(t)])
  {
    var scope' := scope + [Closed(t)];
    forall i | 0 <= i < |scope'| && scope'[i].Closed? ensures Simple(scope'[i].term, scope'[..i]) {
      if i < |scope| { assert scope'[..i] == scope[..i]; } else { assert scope'[..i] == scope; }
    }
  }

  lemma {:induction false} TransferDone(s: State, t: Term)
    requires Done(s) && Simple(t, s.scope) && Formed(t) && Plural(t) && !t.Lit?
    ensures Done(Transfer(s, t))
  {
    AllSimpleSnoc(s.scope, t);
  }

  lemma {:induction false} LitDone(s: State, t: Term)
    requires Done(s) && t.Lit?
    ensures Done(InlineLit(s, t))
  {
    var r := InlineLit(s, t);
    if !(t.value in s.pool && s.pool[t.value] < |s.scope| && IsLit(s.scope[s.pool[t.value]], t.value)) {
      assert Simple(t, s.scope);
      AllSimpleSnoc(s.scope, t);
    }
  }

  lemma {:induction false} AppDone(p: Policy, budget: nat, flags: Flags, args: seq<nat>, s: State)
    requires Done(s)
    ensures Done(InlineApp(p, budget, flags, args, s))
    decreases budget, 2, 0, 0
  {
    if |args| <= 1 || Missing(s.scope, args[0]) != |args| - 1 {
      if |args| >= 2 { RootIs(s.scope, args[0]); }
      TransferDone(s, Redux(flags, App, args));
    } else {
      var c := Chain(s.scope, args[0]);
      var all := c.args + Tail(args);
      if budget > 0 && Inlinable(s.scope, c.fn) && p(budget, s.scope, c.fn) {
        var f := s.scope[c.fn].term;
        var s0 := s.(map_ := CallMap(c.fn, all));
        BodyDone(p, budget - 1, f.terms[Arity(f.terms)..], s0);
      } else {
        ChainEnds(s.scope, args[0]);
        assert Root(s.scope, c.fn) == Applied(c.fn, 0);
        TransferDone(s, Redux(flags, App, [c.fn] + all));
      }
    }
  }

  lemma {:induction false} ReduxDone(p: Policy, budget: nat, t: Term, s: State)
    requires Done(s) && t.Redux?
    ensures Done(InlineRedux(p, budget, t, s))
    decreases budget, 3, t, 0
  {
    var args := LookAll(s.map_, t.args);
    match t.op
    case App => AppDone(p, budget, t.flags, args, s);
    case Prim(_, _) => TransferDone(s, t.(args := args));
    case Get(i) =>
      if !(|args| == 1 && IsCon(s.scope, args[0]) && i < |s.scope[args[0]].term.args|) {
        TransferDone(s, t.(args := args));
      }
    case Des =>
      var call := Handler(s.scope, args);
      if call != [] { AppDone(p, budget, t.flags, call, s); } else { TransferDone(s, t.(args := args)); }
    case Con(_) => TransferDone(s, t.(args := args));
  }

  lemma {:induction false} TermDone(p: Policy, budget: nat, t: Term, s: State)
    requires Done(s) && Inner(t)
    ensures Done(InlineTerm(p, budget, t, s))
    decreases budget, 4, t, 2
  {
    match t
    case Lit(_, _) => LitDone(s, t);
    case Redux(_, _, _) => ReduxDone(p, budget, t, s);
    case Fun(_, _, _, _) => FunDone(p, budget, t, s);
  }

  lemma {:induction false} BodyDone(p: Policy, budget: nat, ts: seq<Term>, s: State)
    requires Done(s) && forall i :: 0 <= i < |ts| ==> Inner(ts[i])
    ensures Done(InlineBody(p, budget, ts, s))
    decreases budget, 4, ts, 0
  {
    if ts != [] {
      var z := |ts| - 1;
      BodyDone(p, budget, ts[..z], s);
      TermDone(p, budget, ts[z], InlineBody(p, budget, ts[..z], s));
    }
  }

  lemma {:induction false} ArgsDone(s: State, ts: seq<Term>)
    requires Done(s) && forall i :: 0 <= i < |ts| ==> ts[i].Arg?
    ensures Done(TransferAll(s, ts))
    decreases |ts|
  {
    if ts != [] {
      ArgsDone(s, ts[..|ts| - 1]);
      TransferDone(TransferAll(s, ts[..|ts| - 1]), ts[|ts| - 1]);
    }
  }

  lemma {:induction false} CurriedDone(p: Policy, budget: nat, f: Term, s: State)
    requires f.Fun? && s.map_ != [] && Formed(f) && Done(s)
    ensures Done(InlineCurried(p, budget, f, s).0)
    decreases budget, 4, f, 0
  {
    var a := Arity(f.terms);
    ArityLeads(f.terms);
    ArgsDone(s, f.terms[..a]);
    var args := TransferAll(s, f.terms[..a]);
    if Curried(f, |s.map_| - 1) {
      CurriedDone(p, budget, f.terms[a], args.(map_ := args.map_ + [-1]));
    } else {
      BodyDone(p, budget, f.terms[a..], args);
    }
  }

  lemma {:induction false} OpenedDone(f: Term, s: State)
    requires Done(s) && f.Fun?
    ensures Done(Opened(f, s))
  {
    var r := Opened(f, s);
    forall i | 0 <= i < |r.scope| && r.scope[i].Closed? ensures Simple(r.scope[i].term, r.scope[..i]) {
      assert r.scope[..i] == s.scope[..i];
    }
  }

  lemma {:induction false} FunDone(p: Policy, budget: nat, f: Term, s: State)
    requires Done(s) && f.Fun? && Formed(f)
    ensures Simple(Emitted(p, budget, f, s), s.scope) && Done(InlineFun(p, budget, f, s))
    decreases budget, 4, f, 1
  {
    var o := Opened(f, s);
    OpenedDone(f, s);
    CurriedDone(p, budget, f, o);
    FunTidies(p, budget, f, s);
    CurriedTidies(p, budget, f, o, |o.scope|);
    var q, f' := InlineCurried(p, budget, f, o).0, Emitted(p, budget, f, s);
    TermsAre(q.scope, |o.scope|, FullArity(f, |s.map_|), f'.terms);
    EmittedSimple(q.scope, o.scope, s.scope, f', FullArity(f, |s.map_|));
    FunClosed(s, q, f', InlineFun(p, budget, f, s));
  }

  lemma {:induction false} TermsAre(all: Scope, from: nat, a: nat, ts: seq<Term>)
    requires Leads(all, from, a) && ts == Terms(all, from)
    ensures |all| == from + |ts| && forall i :: 0 <= i < |ts| ==> all[from + i] == Closed(ts[i])
  {
    TermsLength(all, from);
    forall i | 0 <= i < |ts| ensures all[from + i] == Closed(ts[i]) {
      assert ts[(from + i) - from] == all[from + i].term;
    }
  }

  lemma {:induction false} EmittedSimple(all: Scope, inside: Scope, scope: Scope, f': Term, a: nat)
    requires AllSimple(all) && inside == scope + [Open(a)] && inside <= all && f'.Fun? && Arity(f'.terms) == a
    requires |all| == |inside| + |f'.terms|
    requires forall i :: 0 <= i < |f'.terms| ==> all[|inside| + i] == Closed(f'.terms[i])
    ensures Simple(f', scope)
  {
    ScopeAllSimple(all, inside, f'.terms);
  }

  lemma {:induction false} ScopeAllSimple(all: Scope, scope: Scope, ts: seq<Term>)
    requires AllSimple(all) && scope <= all && |all| == |scope| + |ts|
    requires forall i :: 0 <= i < |ts| ==> all[|scope| + i] == Closed(ts[i])
    ensures BodySimple(ts, scope)
  {
    ScopeSimple(all, scope, ts, |ts|);
    assert ts[..|ts|] == ts;
  }

  lemma {:induction false} FunClosed(s: State, q: State, f': Term, r: State)
    requires Done(s) && Done(q) && s.scope <= q.scope && f'.Fun? && Simple(f', s.scope) && Formed(f') && Plural(f')
    requires r == Transfer(s.(pool := q.pool), f')
    ensures Done(r)
  {
    AllSimpleSnoc(s.scope, f');
    forall i, x | 0 <= i < |r.scope| && IsLit(r.scope[i], x) ensures x in r.pool && r.pool[x] == i {
      assert IsLit(q.scope[i], x);
    }
  }

  lemma {:induction false} ScopeSimple(all: Scope, scope: Scope, ts: seq<Term>, n: nat)
    requires AllSimple(all) && scope <= all && |all| == |scope| + |ts| && n <= |ts|
    requires forall i :: 0 <= i < |ts| ==> all[|scope| + i] == Closed(ts[i])
    ensures BodySimple(ts[..n], scope)
    decreases n
  {
    if n > 0 {
      ScopeSimple(all, scope, ts, n - 1);
      assert ts[..n][..n - 1] == ts[..n - 1];
      assert all[..|scope| + n - 1] == scope + Finished(ts[..n - 1]);
    }
  }

  /** Nothing in the result of the pass could still be seen through. */
  lemma {:induction false} ResultSimple(p: Policy, budget: nat, top: Term)
    requires top.Fun? && Formed(top)
    ensures var r := InlinePass(p, budget, top); Simple(r, [])
  {
    FunDone(p, budget, top, State([], [], map[]));
  }

  // ------------------------------------------------------------------------ calls in place

  /** Where the policy says so, a call of a function in sight that only hands on what it is given leaves no code. */
  lemma {:induction false} CallVanishes(p: Policy, budget: nat, flags: Flags, args: seq<nat>, s: State)
    requires |args| >= 2 && budget > 0 && args[0] < |s.scope| && s.scope[args[0]].Closed? && s.scope[args[0]].term.Fun?
    requires var f := s.scope[args[0]].term; Arity(f.terms) == |f.terms| == |args| - 1 && !Mentions(f, args[0])
    requires p(budget, s.scope, args[0])
    ensures var r, f := InlineApp(p, budget, flags, args, s), s.scope[args[0]].term;
      && r.scope == s.scope && |r.map_| == |s.map_| + 1
      && (f.output < args[0] ==> r.map_[|s.map_|] == f.output)
      && (args[0] < f.output < args[0] + |args| ==> r.map_[|s.map_|] == args[f.output - args[0]])
  {
    var f, q := s.scope[args[0]].term, s.(map_ := CallMap(args[0], Tail(args)));
    assert f.terms[Arity(f.terms)..] == [];
    InPlace(p, budget, flags, args, s, q);
    CallMapAt(args[0], args, f.output);
  }

  lemma {:induction false} InPlace(p: Policy, budget: nat, flags: Flags, args: seq<nat>, s: State, q: State)
    requires |args| >= 2 && budget > 0 && args[0] < |s.scope| && s.scope[args[0]].Closed? && s.scope[args[0]].term.Fun?
    requires var f := s.scope[args[0]].term; Arity(f.terms) == |args| - 1 && !Mentions(f, args[0])
    requires p(budget, s.scope, args[0])
    requires var f := s.scope[args[0]].term;
      q == InlineBody(p, budget - 1, f.terms[Arity(f.terms)..], s.(map_ := CallMap(args[0], Tail(args))))
    ensures InlineApp(p, budget, flags, args, s) ==
      State(q.scope, s.map_ + [Look(q.map_, s.scope[args[0]].term.output)], q.pool)
  {
    var none: seq<nat> := [];
    assert Chain(s.scope, args[0]) == Chained(args[0], none) && none + Tail(args) == Tail(args);
  }

  lemma {:induction false} CallMapAt(fn: nat, args: seq<nat>, x: nat)
    requires args != []
    ensures x < fn ==> Look(CallMap(fn, Tail(args)), x) == x
    ensures fn < x < fn + |args| ==> Look(CallMap(fn, Tail(args)), x) == args[x - fn]
  {
  }

  // --------------------------------------------------------------------- curried functions

  /** A function that is nothing but parameters and a function it returns takes that one's parameters too, unless
      that one calls itself. */
  lemma {:induction false} CurriedMerges(p: Policy, budget: nat, f: Term, s: State, a: nat)
    requires Tidy(s.scope) && f.Fun? && Formed(f) && a == Arity(f.terms)
    requires |f.terms| == a + 1 && f.terms[a].Fun? && f.output == |s.map_| + 1 + a && !Mentions(f.terms[a], f.output)
    ensures Arity(Emitted(p, budget, f, s).terms) >= a + Arity(f.terms[a].terms)
  {
    FunTidies(p, budget, f, s);
    CurriedMore(f.terms[a], f.output);
  }

  /** Any other keeps the parameters it has. */
  lemma {:induction false} OthersStay(p: Policy, budget: nat, f: Term, s: State, a: nat)
    requires Tidy(s.scope) && f.Fun? && Formed(f) && a == Arity(f.terms)
    requires |f.terms| != a + 1 || !f.terms[a].Fun? || f.output != |s.map_| + 1 + a || Mentions(f.terms[a], f.output)
    ensures Arity(Emitted(p, budget, f, s).terms) == a
  {
    FunTidies(p, budget, f, s);
  }
}
