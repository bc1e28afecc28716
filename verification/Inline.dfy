/** The inliner: known functions are applied by pointing their parameters at the
    argument indices and re-emitting their bodies; known constructors are taken apart;
    curried functions are merged.
 */
module Inline {
  import opened Sequences
  import opened Ssa
  import opened SsaRelation
  import opened TermStreams
  import opened UsageSweep

  /** A target index: a finished term, or a function whose body is still being emitted. */
  datatype Slot = Closed(term: Term) | Open(arity: nat)

  type Scope = seq<Slot>

  /** Whether a function is inlined, given the budget, the scope and its index.  Size thresholds and use counts decide.
      An inlined function is copied; that one used only once is taken apart instead, leaving a shell that nothing
      refers to, is not modelled. */
  type Policy = (nat, Scope, nat) -> bool

  datatype State = State(scope: Scope, map_: seq<int>, pool: map<int, nat>)

  // ------------------------------------------------------------ partial applications

  predicate IsApp(t: Term) {
    t.Redux? && t.op.App? && |t.args| >= 1
  }

  /** meta_args: how many arguments the value at index i still wants; 0 if not known. */
  function Missing(scope: Scope, i: nat): nat
    decreases i
  {
    if i >= |scope| then 0 else
    match scope[i]
    case Open(arity) => arity
    case Closed(t) =>
      if t.Fun? then Arity(t.terms)
      else if IsApp(t) && t.args[0] < i then
        var n := Missing(scope, t.args[0]);
        if n > |t.args| - 1 then n - (|t.args| - 1) else 0
      else 0
  }

  datatype Chained = Chained(fn: nat, args: seq<nat>)

  /** The function behind a chain of partial applications, and the arguments it has. */
  function Chain(scope: Scope, i: nat): (c: Chained)
    ensures c.fn <= i
    decreases i
  {
    if i < |scope| && scope[i].Closed? && IsApp(scope[i].term) && scope[i].term.args[0] < i && Missing(scope, i) > 0
    then
      var c := Chain(scope, scope[i].term.args[0]);
      Chained(c.fn, c.args + Tail(scope[i].term.args))
    else Chained(i, [])
  }

  // ------------------------------------------------------------------------ the pass

  function Transfer(s: State, t: Term): State {
    State(s.scope + [Closed(t)], s.map_ + [|s.scope|], s.pool)
  }

  function TransferAll(s: State, ts: seq<Term>): (r: State)
    ensures |r.map_| == |s.map_| + |ts|
  {
    if ts == [] then s else Transfer(TransferAll(s, ts[..|ts| - 1]), ts[|ts| - 1])
  }

  function Replace(s: State, at: nat): State {
    s.(map_ := s.map_ + [at])
  }

  function Upto(n: nat): (r: seq<int>)
    ensures |r| == n && forall i :: 0 <= i < n ==> r[i] == i
  {
    seq(n, i => i)
  }

  function AsInts(args: seq<nat>): (r: seq<int>)
    ensures |r| == |args| && forall i :: 0 <= i < |args| ==> r[i] == args[i]
  {
    seq(|args|, i requires 0 <= i < |args| => args[i])
  }

  /** Where a function's names point when its body is emitted in place of a call. */
  function CallMap(fn: nat, args: seq<nat>): seq<int> {
    Upto(fn) + [-1] + AsInts(args)
  }

  function InlineLit(s: State, t: Term): State
    requires t.Lit?
  {
    if t.value in s.pool && s.pool[t.value] < |s.scope| && IsLit(s.scope[s.pool[t.value]], t.value)
    then Replace(s, s.pool[t.value])
    else Transfer(s, t).(pool := s.pool[t.value := |s.scope|])
  }

  predicate IsLit(slot: Slot, x: int) {
    slot.Closed? && slot.term.Lit? && slot.term.value == x
  }

  predicate IsCon(scope: Scope, i: nat) {
    i < |scope| && scope[i].Closed? && scope[i].term.Redux? && scope[i].term.op.Con?
  }

  /** rapp_inline, on arguments that are already target indices. */
  function InlineApp(p: Policy, budget: nat, flags: Flags, args: seq<nat>, s: State): (r: State)
    ensures |r.map_| == |s.map_| + 1
    decreases budget, 2, 0
  {
    if args == [] || |args| == 1 || Missing(s.scope, args[0]) != |args| - 1 then
      Transfer(s, Redux(flags, App, args))
    else
      var c := Chain(s.scope, args[0]);
      var all := c.args + Tail(args);
      if budget > 0 && Inlinable(s.scope, c.fn) && p(budget, s.scope, c.fn) then
        var f := s.scope[c.fn].term;
        var q := InlineBody(p, budget - 1, f.terms[Arity(f.terms)..], s.(map_ := CallMap(c.fn, all)));
        State(q.scope, s.map_ + [Look(q.map_, f.output)], q.pool)
      else
        Transfer(s, Redux(flags, App, [c.fn] + all))
  }

  predicate Inlinable(scope: Scope, fn: nat) {
    fn < |scope| && scope[fn].Closed? && scope[fn].term.Fun? && !Mentions(scope[fn].term, fn)
  }

  /** A destructure known to call one handler, as that call; [] when not known. */
  function Handler(scope: Scope, args: seq<nat>): seq<nat> {
    if |args| < 2 then [] else
    var obj := args[|args| - 1];
    if forall i :: 0 <= i < |args| - 1 ==> args[i] == args[0] then [args[0], obj]
    else if IsCon(scope, obj) && scope[obj].term.op.cons.index < |args| - 1
    then [args[scope[obj].term.op.cons.index], obj]
    else []
  }

  function InlineRedux(p: Policy, budget: nat, t: Term, s: State): (r: State)
    requires t.Redux?
    ensures |r.map_| == |s.map_| + 1
    decreases budget, 3, 0
  {
    var args := LookAll(s.map_, t.args);
    var t' := t.(args := args);
    match t.op
    case App => InlineApp(p, budget, t.flags, args, s)
    case Prim(_, _) => Transfer(s, t')
    case Get(i) =>
      if |args| == 1 && IsCon(s.scope, args[0]) && i < |s.scope[args[0]].term.args|
      then Replace(s, s.scope[args[0]].term.args[i])
      else Transfer(s, t')
    case Des =>
      var call := Handler(s.scope, args);
      if call != [] then InlineApp(p, budget, t.flags, call, s) else Transfer(s, t')
    case Con(_) => Transfer(s, t')
  }

  function InlineTerm(p: Policy, budget: nat, t: Term, s: State): (r: State)
    ensures |r.map_| == |s.map_| + 1
    decreases budget, 4, t, 2
  {
    match t
    case Arg(_) => Transfer(s, t)
    case Lit(_, _) => InlineLit(s, t)
    case Redux(_, _, _) => InlineRedux(p, budget, t, s)
    case Fun(_, _, _, _) => InlineFun(p, budget, t, s)
  }

  /** A curried function: nothing but parameters and a function that does not mention itself, which it returns.
      Mentioning one's own index is what the recursive flag stands for. */
  predicate Curried(f: Term, k: nat) {
    && f.Fun? && |f.terms| == Arity(f.terms) + 1 && f.terms[Arity(f.terms)].Fun?
    && f.output == k + 1 + Arity(f.terms) && !Mentions(f.terms[Arity(f.terms)], k + 1 + Arity(f.terms))
  }

  /** The number of parameters once every curried function is merged with the one it returns. */
  function FullArity(f: Term, k: nat): nat
    requires f.Fun?
    decreases f
  {
    var a := Arity(f.terms);
    if Curried(f, k) then a + FullArity(f.terms[a], k + 1 + a) else a
  }

  function InlineFun(p: Policy, budget: nat, f: Term, s: State): (r: State)
    requires f.Fun?
    ensures |r.map_| == |s.map_| + 1
    decreases budget, 4, f, 1
  {
    var k := |s.map_|;
    var q := InlineCurried(p, budget, f, State(s.scope + [Open(FullArity(f, k))], s.map_ + [|s.scope|], s.pool));
    Transfer(s.(pool := q.0.pool), Fun(f.flags, f.meta, Terms(q.0.scope, |s.scope| + 1), q.1))
  }

  /** The terms of a function and of every function it only returns; and the index of the result. */
  function InlineCurried(p: Policy, budget: nat, f: Term, s: State): (State, nat)
    requires f.Fun? && s.map_ != []
    decreases budget, 4, f, 0
  {
    var a := Arity(f.terms);
    var args := TransferAll(s, f.terms[..a]);
    if Curried(f, |s.map_| - 1) then
      InlineCurried(p, budget, f.terms[a], args.(map_ := args.map_ + [-1]))
    else
      var q := InlineBody(p, budget, f.terms[a..], args);
      (q, Look(q.map_, f.output))
  }

  function Terms(scope: Scope, from: nat): (r: seq<Term>)
  {
    if from >= |scope| then [] else
    Terms(scope[..|scope| - 1], from) + match scope[|scope| - 1] case Closed(t) => [t] case Open(_) => []
  }

  function InlineBody(p: Policy, budget: nat, ts: seq<Term>, s: State): (r: State)
    ensures |r.map_| == |s.map_| + |ts|
    decreases budget, 4, ts, 0
  {
    if ts == [] then s else
    InlineTerm(p, budget, ts[|ts| - 1], InlineBody(p, budget, ts[..|ts| - 1], s))
  }

  function InlinePass(p: Policy, budget: nat, top: Term): Term
    requires top.Fun?
  {
    var s := InlineFun(p, budget, top, State([], [], map[]));
    if s.scope != [] && s.scope[0].Closed? then s.scope[0].term else top
  }

  // --------------------------------------------------------- what the pass appends

  /** s' is s with finished terms appended to the target scope, and entries to the map. */
  predicate Grown(s: State, s': State) {
    && s.scope <= s'.scope && s.map_ <= s'.map_
    && (forall i :: |s.map_| <= i < |s'.map_| ==> s'.map_[i] >= 0)
    && forall i :: |s.scope| <= i < |s'.scope| ==> s'.scope[i].Closed?
  }

  lemma {:induction false} BodyGrows(p: Policy, budget: nat, ts: seq<Term>, s: State)
    ensures Grown(s, InlineBody(p, budget, ts, s))
    decreases budget, 4, ts, 0
  {
    if ts != [] {
      var z := |ts| - 1;
      BodyGrows(p, budget, ts[..z], s);
      TermGrows(p, budget, ts[z], InlineBody(p, budget, ts[..z], s));
    }
  }

  lemma {:induction false} TermGrows(p: Policy, budget: nat, t: Term, s: State)
    ensures Grown(s, InlineTerm(p, budget, t, s))
    decreases budget, 4, t, 2
  {
    if t.Redux? { ReduxGrows(p, budget, t, s); }
  }

  lemma {:induction false} StepGrows(s: State, t: Term, at: nat)
    ensures Grown(s, Transfer(s, t)) && Grown(s, Replace(s, at))
  {
  }

  lemma {:induction false} ReduxGrows(p: Policy, budget: nat, t: Term, s: State)
    requires t.Redux?
    ensures Grown(s, InlineRedux(p, budget, t, s))
    decreases budget, 3, t, 0
  {
    var args := LookAll(s.map_, t.args);
    var call := if t.op.App? then args else Handler(s.scope, args);
    if t.op.App? || (t.op.Des? && call != []) {
      AppGrows(p, budget, t.flags, call, s);
    } else if t.op.Get? && |args| == 1 && IsCon(s.scope, args[0]) && t.op.index < |s.scope[args[0]].term.args| {
      StepGrows(s, t, s.scope[args[0]].term.args[t.op.index]);
    } else {
      StepGrows(s, t.(args := args), 0);
    }
  }

  lemma {:induction false} AppGrows(p: Policy, budget: nat, flags: Flags, args: seq<nat>, s: State)
    ensures Grown(s, InlineApp(p, budget, flags, args, s))
    decreases budget, 2, 0, 0
  {
    if args != [] && budget > 0 {
      var c := Chain(s.scope, args[0]);
      var all := c.args + Tail(args);
      if Inlinable(s.scope, c.fn) {
        var f := s.scope[c.fn].term;
        BodyGrows(p, budget - 1, f.terms[Arity(f.terms)..], s.(map_ := CallMap(c.fn, all)));
      }
    }
  }

  /** The terms appended between two states. */
  function New(s: State, s': State): seq<Term> {
    Terms(s'.scope, |s.scope|)
  }

  lemma {:induction false} TermsSnoc(scope: Scope, t: Term, from: nat)
    requires from <= |scope|
    ensures Terms(scope + [Closed(t)], from) == Terms(scope, from) + [t]
  {
    assert (scope + [Closed(t)])[..|scope|] == scope;
  }

  lemma {:induction false} TermsSplit(scope: Scope, scope': Scope, from: nat)
    requires scope <= scope' && from <= |scope|
    ensures Terms(scope', from) == Terms(scope, from) + Terms(scope', |scope|)
    decreases |scope'|
  {
    if |scope'| == |scope| {
      assert scope' == scope;
      assert Terms(scope, from) + [] == Terms(scope, from);
    } else {
      var init := scope'[..|scope'| - 1];
      TermsSplit(scope, init, from);
      var last := match scope'[|scope'| - 1] case Closed(t) => [t] case Open(_) => [];
      assert (Terms(scope, from) + Terms(init, |scope|)) + last == Terms(scope, from) + (Terms(init, |scope|) + last);
    }
  }

  lemma {:induction false} TermsLength(scope: Scope, from: nat)
    requires from <= |scope| && forall i :: from <= i < |scope| ==> scope[i].Closed?
    ensures |Terms(scope, from)| == |scope| - from
    ensures forall i :: from <= i < |scope| ==> Terms(scope, from)[i - from] == scope[i].term
    decreases |scope|
  {
    if from < |scope| { TermsLength(scope[..|scope| - 1], from); }
  }

  // ------------------------------------------------ what is known of the values

  /** v is the closure f with the arguments vs and `missing` more to come. */
  predicate Partial(v: Value, f: Value, vs: seq<Value>, missing: nat) {
    && f.VClo? && f.fun.Fun? && f.applied == [] && !f.returned
    && v == VClo(f.fun, f.env, vs) && Arity(f.fun.terms) == |vs| + missing
  }

  predicate SlotOk(scope: Scope, i: nat, env: seq<Value>)
    requires i < |scope| && i < |env|
  {
    && (Missing(scope, i) > 0 ==>
         var c := Chain(scope, i);
         InRange(c.args, i) && Partial(env[i], env[c.fn], Select(env, c.args), Missing(scope, i)))
    && (scope[i].Closed? ==> match scope[i].term
         case Arg(_) => true
         case Lit(_, x) => env[i] == VLit(x)
         case Redux(_, op, args) => op.Con? ==> InRange(args, i) && env[i] == VCon(op.cons, Select(env, args))
         case Fun(_, _, _, _) => env[i] == VClo(scope[i].term, env[..i], []))
  }

  predicate ScopeOk(scope: Scope, env: seq<Value>) {
    |scope| == |env| && forall i :: 0 <= i < |scope| ==> SlotOk(scope, i, env)
  }

  lemma {:induction false} ChainPrefix(scope: Scope, scope': Scope, i: nat)
    requires scope <= scope' && i < |scope|
    ensures Missing(scope', i) == Missing(scope, i) && Chain(scope', i) == Chain(scope, i)
    decreases i
  {
    if scope[i].Closed? && IsApp(scope[i].term) && scope[i].term.args[0] < i {
      ChainPrefix(scope, scope', scope[i].term.args[0]);
    }
  }

  lemma {:induction false} SlotMore(scope: Scope, i: nat, env: seq<Value>, scope': Scope, env': seq<Value>)
    requires i < |scope| && i < |env| && SlotOk(scope, i, env) && scope <= scope' && env <= env'
    ensures SlotOk(scope', i, env')
  {
    ChainPrefix(scope, scope', i);
    assert env'[..i] == env[..i];
    var c := Chain(scope, i);
    if Missing(scope, i) > 0 { assert Select(env', c.args) == Select(env, c.args); }
    if scope[i].Closed? && scope[i].term.Redux? && scope[i].term.op.Con? {
      assert Select(env', scope[i].term.args) == Select(env, scope[i].term.args);
    }
  }

  lemma {:induction false} ScopeSnoc(scope: Scope, env: seq<Value>, slot: Slot, v: Value)
    requires ScopeOk(scope, env) && SlotOk(scope + [slot], |scope|, env + [v])
    ensures ScopeOk(scope + [slot], env + [v])
  {
    forall i | 0 <= i < |scope| ensures SlotOk(scope + [slot], i, env + [v]) {
      SlotMore(scope, i, env, scope + [slot], env + [v]);
    }
  }

  lemma {:induction false} ApplyPartly(m: Machine, k: nat, f: Term, env: seq<Value>, vs: seq<Value>, ws: seq<Value>,
                                       h: History)
    requires f.Fun? && |vs| + |ws| < Arity(f.terms)
    ensures ApplyAll(m, k, VClo(f, env, vs), ws, h) == if k >= |ws|
      then Done(VClo(f, env, vs + ws), h, k - |ws|)
      else Fail
    decreases |ws|
  {
    if ws == [] {
      assert vs + ws == vs;
    } else {
      var z := |ws| - 1;
      ApplyPartly(m, k, f, env, vs, ws[..z], h);
      assert (vs + ws[..z]) + [ws[z]] == vs + ws;
    }
  }

  /** The last missing argument runs the body, however the others arrived. */
  lemma {:induction false} ApplyFully(m: Machine, k: nat, f: Term, env: seq<Value>, vs: seq<Value>, ws: seq<Value>,
                                      h: History)
    requires f.Fun? && |vs| + |ws| == Arity(f.terms) && ws != []
    ensures ApplyAll(m, k, VClo(f, env, vs), ws, h) == if k >= |ws|
      then RunFun(m, k - |ws|, f, env, vs + ws, h)
      else Fail
  {
    var z := |ws| - 1;
    ApplyPartly(m, k, f, env, vs, ws[..z], h);
    assert (vs + ws[..z]) + [ws[z]] == vs + ws;
  }

  lemma {:induction false} AppSlotOk(m: Machine, k: nat, flags: Flags, args: seq<nat>, scope: Scope, env: seq<Value>,
                                     h: History)
    requires ScopeOk(scope, env) && EvalTerm(Free(m), k, Redux(flags, App, args), env, h).Done?
    ensures SlotOk(scope + [Closed(Redux(flags, App, args))], |scope|,
                   env + [EvalTerm(Free(m), k, Redux(flags, App, args), env, h).value])
  {
    var t := Redux(flags, App, args);
    var scope', i, v := scope + [Closed(t)], |scope|, EvalTerm(Free(m), k, t, env, h).value;
    var n := Missing(scope', args[0]);
    ChainPrefix(scope, scope', args[0]);
    if Missing(scope', i) > 0 {
      var c := Chain(scope, args[0]);
      assert SlotOk(scope, args[0], env);
      var f, vs, ws := env[c.fn], Select(env, c.args), Select(env, Tail(args));
      assert Tail(Select(env, args)) == ws;
      ApplyPartly(Free(m), k, f.fun, f.env, vs, ws, h);
      assert Chain(scope', i) == Chained(c.fn, c.args + Tail(args));
      assert Select(env + [v], c.args + Tail(args)) == vs + ws;
    }
  }

  lemma {:induction false} FunSlotOk(f: Term, scope: Scope, env: seq<Value>)
    requires f.Fun? && |scope| == |env|
    ensures SlotOk(scope + [Closed(f)], |scope|, env + [VClo(f, env, [])])
  {
    assert (env + [VClo(f, env, [])])[..|env|] == env;
    assert Select(env + [VClo(f, env, [])], []) == [];
  }

  lemma {:induction false} TermSlotOk(m: Machine, k: nat, t: Term, scope: Scope, env: seq<Value>, h: History)
    requires ScopeOk(scope, env) && EvalTerm(Free(m), k, t, env, h).Done?
    ensures SlotOk(scope + [Closed(t)], |scope|, env + [EvalTerm(Free(m), k, t, env, h).value])
  {
    var v := EvalTerm(Free(m), k, t, env, h).value;
    if t.Fun? {
      FunSlotOk(t, scope, env);
    } else if t.Redux? {
      if t.op.App? { AppSlotOk(m, k, t.flags, t.args, scope, env, h); }
      if t.op.Con? { assert Select(env + [v], t.args) == Select(env, t.args); }
    }
  }

  // ------------------------------------------------------ following the source run

  ghost predicate StateSame(m: Machine, left: nat, env: seq<Value>, hist: History, b: BodyOutcome, s: State) {
    b.BodyDone? && b.hist == hist && EnvMapped(m, left, env, b.env, s.map_) && ScopeOk(s.scope, b.env)
  }

  /** What the source term does, the terms appended for it can do. */
  ghost predicate TermFollowed(m: Machine, n: nat, t: Term, s: State, s': State, env: seq<Value>, env': seq<Value>,
                               h: History) {
    var o := EvalTerm(m, n, t, env, h);
    o.Done? ==>
      exists k: nat :: StateSame(m, o.left, env + [o.value], o.hist, EvalBody(Free(m), k, New(s, s'), env', h), s')
  }

  ghost predicate BodyFollowed(m: Machine, n: nat, ts: seq<Term>, s: State, s': State, env: seq<Value>,
                               env': seq<Value>, h: History) {
    var b := EvalBody(m, n, ts, env, h);
    b.BodyDone? ==> exists k: nat :: StateSame(m, b.left, b.env, b.hist, EvalBody(Free(m), k, New(s, s'), env', h), s')
  }

  lemma {:induction false} SingleBody(m: Machine, k: nat, t: Term, env: seq<Value>, h: History)
    requires EvalTerm(m, k, t, env, h).Done?
    ensures var o := EvalTerm(m, k, t, env, h); EvalBody(m, k, [t], env, h) == BodyDone(env + [o.value], o.hist, o.left)
  {
    assert [t][..0] == [];
  }

  lemma {:induction false} TransferFollows(m: Machine, n: nat, t: Term, t': Term, s: State, env: seq<Value>,
                                           env': seq<Value>, h: History)
    requires EnvMapped(m, n, env, env', s.map_) && ScopeOk(s.scope, env') && TermMatched(m, n, t, t', env, env', h)
    ensures TermFollowed(m, n, t, s, Transfer(s, t'), env, env', h)
  {
    var o, s' := EvalTerm(m, n, t, env, h), Transfer(s, t');
    if o.Done? {
      var k: nat :| Same(m, o, EvalTerm(Free(m), k, t', env', h));
      TransferSame(m, n, o, k, t', s, s', env, env', h);
    }
  }

  lemma {:induction false} NewOne(s: State, t: Term)
    ensures New(s, Transfer(s, t)) == [t]
  {
    TermsSnoc(s.scope, t, |s.scope|);
  }

  lemma {:induction false} TransferSame(m: Machine, n: nat, o: Outcome, k: nat, t': Term, s: State, s': State,
                                        env: seq<Value>, env': seq<Value>, h: History)
    requires EnvMapped(m, n, env, env', s.map_) && ScopeOk(s.scope, env') && o.Done? && o.left <= n
    requires Same(m, o, EvalTerm(Free(m), k, t', env', h))
    requires s' == Transfer(s, t')
    ensures StateSame(m, o.left, env + [o.value], o.hist, EvalBody(Free(m), k, New(s, s'), env', h), s')
  {
    var q := EvalTerm(Free(m), k, t', env', h);
    NewOne(s, t');
    SingleBody(Free(m), k, t', env', h);
    TermSlotOk(m, k, t', s.scope, env', h);
    ScopeSnoc(s.scope, env', Closed(t'), q.value);
    EnvMappedSnoc(m, n, o.left, env, env', s.map_, o.value, q.value);
  }

  /** Nothing appended: an index already there holds a value that may stand for the term's. */
  lemma {:induction false} ReplaceFollows(m: Machine, n: nat, t: Term, at: nat, s: State, env: seq<Value>,
                                          env': seq<Value>, h: History)
    requires EnvMapped(m, n, env, env', s.map_) && ScopeOk(s.scope, env')
    requires var o := EvalTerm(m, n, t, env, h); o.Done? ==>
      o.hist == h && at < |env'| && Related(m, o.left, o.value, env'[at])
    ensures TermFollowed(m, n, t, s, Replace(s, at), env, env', h)
  {
    var o, s' := EvalTerm(m, n, t, env, h), Replace(s, at);
    if o.Done? {
      forall i | 0 <= i < |env| && s.map_[i] >= 0 ensures Related(m, o.left, env[i], env'[s.map_[i]]) {
        RelatedDown(m, n, o.left, env[i], env'[s.map_[i]]);
      }
      assert New(s, s') == [];
      assert StateSame(m, o.left, env + [o.value], o.hist, EvalBody(Free(m), 0, [], env', h), s');
    }
  }

  /** Two bodies, one after the other. */
  lemma {:induction false} BodyAppend(m: Machine, k: nat, j: nat, ts: seq<Term>, us: seq<Term>, all: seq<Term>,
                                      env: seq<Value>, h: History)
    requires m.check.NoCheck? && all == ts + us && EvalBody(m, k, ts, env, h).BodyDone?
    requires var b := EvalBody(m, k, ts, env, h); EvalBody(m, j, us, b.env, b.hist).BodyDone?
    ensures var b := EvalBody(m, k, ts, env, h);
      var c := EvalBody(m, j, us, b.env, b.hist);
      EvalBody(m, k + j, all, env, h) == BodyDone(c.env, c.hist, b.left + c.left)
    decreases |us|
  {
    var b := EvalBody(m, k, ts, env, h);
    if us == [] {
      assert all == ts;
      BodyMore(m, k, j, ts, env, h);
    } else {
      var z := |us| - 1;
      var init, t := us[..z], us[z];
      var front := ts + init;
      assert us == init + [t] && all == front + [t];
      var c := EvalBody(m, j, init, b.env, b.hist);
      BodyLast(m, j, us, init, t, b.env, b.hist, c);
      BodyAppend(m, k, j, ts, init, front, env, h);
      AppendStep(m, k + j, j, front, init, us, all, t, b, c, env, h);
    }
  }

  lemma {:induction false} AppendStep(m: Machine, n: nat, j: nat, front: seq<Term>, init: seq<Term>, us: seq<Term>,
                                      all: seq<Term>, t: Term,
                                      b: BodyOutcome, c: BodyOutcome, env: seq<Value>, h: History)
    requires m.check.NoCheck? && us == init + [t] && all == front + [t] && b.BodyDone? && c.BodyDone?
    requires c == EvalBody(m, j, init, b.env, b.hist)
    requires EvalBody(m, n, front, env, h) == BodyDone(c.env, c.hist, b.left + c.left)
    requires EvalTerm(m, c.left, t, c.env, c.hist).Done?
    ensures var d := EvalBody(m, j, us, b.env, b.hist);
      d.BodyDone? && EvalBody(m, n, all, env, h) == BodyDone(d.env, d.hist, b.left + d.left)
  {
    TermMore(m, c.left, b.left, t, c.env, c.hist);
    BodyStep(m, j, us, init, t, b.env, b.hist);
    BodyStep(m, n, all, front, t, env, h);
  }

  lemma {:induction false} BodyStep(m: Machine, n: nat, ts: seq<Term>, init: seq<Term>, t: Term, env: seq<Value>,
                                    h: History)
    requires ts == init + [t] && EvalBody(m, n, init, env, h).BodyDone?
    requires var b := EvalBody(m, n, init, env, h); EvalTerm(m, b.left, t, b.env, b.hist).Done?
    ensures var b := EvalBody(m, n, init, env, h);
      var o := EvalTerm(m, b.left, t, b.env, b.hist);
      EvalBody(m, n, ts, env, h) == BodyDone(b.env + [o.value], o.hist, o.left)
  {
    assert ts[..|ts| - 1] == init;
  }

  lemma {:induction false} FollowedSnoc(m: Machine, n: nat, ts: seq<Term>, t: Term, ts': seq<Term>, s: State, s1: State,
                                        s2: State,
                     env: seq<Value>, env': seq<Value>, h: History)
    requires ts' == ts + [t] && s.scope <= s1.scope <= s2.scope && BodyFollowed(m, n, ts, s, s1, env, env', h)
    requires forall n': nat, e, e', h' | n' <= n && EnvMapped(m, n', e, e', s1.map_) && ScopeOk(s1.scope, e') ::
               TermFollowed(m, n', t, s1, s2, e, e', h')
    ensures BodyFollowed(m, n, ts', s, s2, env, env', h)
  {
    assert ts'[..|ts|] == ts;
    var b := EvalBody(m, n, ts, env, h);
    if EvalBody(m, n, ts', env, h).BodyDone? {
      var k: nat :| StateSame(m, b.left, b.env, b.hist, EvalBody(Free(m), k, New(s, s1), env', h), s1);
      var b', o := EvalBody(Free(m), k, New(s, s1), env', h), EvalTerm(m, b.left, t, b.env, b.hist);
      assert TermFollowed(m, b.left, t, s1, s2, b.env, b'.env, b.hist);
      var j: nat :| StateSame(m, o.left, b.env + [o.value], o.hist, EvalBody(Free(m), j, New(s1, s2), b'.env, b.hist),
                              s2);
      TermsSplit(s1.scope, s2.scope, |s.scope|);
      BodyAppend(Free(m), k, j, New(s, s1), New(s1, s2), New(s, s2), env', h);
      assert StateSame(m, o.left, b.env + [o.value], o.hist, EvalBody(Free(m), k + j, New(s, s2), env', h), s2);
    }
  }

  // ------------------------------------------------------------------ applications

  /** The appended terms arrive at an index whose value may stand for p's. */
  ghost predicate Reaches(m: Machine, p: Outcome, s: State, s': State, b: BodyOutcome)
    requires p.Done?
  {
    && b.BodyDone? && b.hist == p.hist && ScopeOk(s'.scope, b.env)
    && |s'.map_| == |s.map_| + 1 && s.map_ <= s'.map_
    && 0 <= s'.map_[|s.map_|] < |b.env| && Replaces(Free(m), p.value, b.env[s'.map_[|s.map_|]])
  }

  ghost predicate Reached(m: Machine, p: Outcome, s: State, s': State, env: seq<Value>, h: History)
    requires p.Done?
  {
    exists k: nat :: Reaches(m, p, s, s', EvalBody(Free(m), k, New(s, s'), env, h))
  }

  lemma {:induction false} ReachedFollows(m: Machine, n: nat, t: Term, p: Outcome, s: State, s': State, env: seq<Value>,
                                          env': seq<Value>, h: History)
    requires EnvMapped(m, n, env, env', s.map_) && EvalTerm(m, n, t, env, h).Done?
    requires Same(m, EvalTerm(m, n, t, env, h), p) && Reached(m, p, s, s', env', h)
    ensures TermFollowed(m, n, t, s, s', env, env', h)
  {
    var o := EvalTerm(m, n, t, env, h);
    var k: nat :| Reaches(m, p, s, s', EvalBody(Free(m), k, New(s, s'), env', h));
    var b := EvalBody(Free(m), k, New(s, s'), env', h);
    var x := s'.map_[|s.map_|];
    RelatedTrans(m, o.left, o.value, p.value, b.env[x]);
    forall i | 0 <= i < |env| && s.map_[i] >= 0
      ensures s.map_[i] < |b.env| && Related(m, o.left, env[i], b.env[s.map_[i]])
    {
      RelatedDown(m, n, o.left, env[i], env'[s.map_[i]]);
      assert b.env[..|env'|][s.map_[i]] == env'[s.map_[i]];
    }
    assert StateSame(m, o.left, env + [o.value], o.hist, b, s');
  }

  lemma {:induction false} SelfReplaces(m: Machine, v: Value)
    ensures Replaces(m, v, v)
  {
    forall n: nat ensures Related(m, n, v, v) { RelatedSelf(m, n, v); }
  }

  lemma {:induction false} TransferReaches(m: Machine, j: nat, p: Outcome, t: Term, s: State, env: seq<Value>,
                                           h: History)
    requires ScopeOk(s.scope, env) && EvalTerm(Free(m), j, t, env, h).Done?
    requires p.Done? && p.value == EvalTerm(Free(m), j, t, env, h).value
    requires p.hist == EvalTerm(Free(m), j, t, env, h).hist
    ensures Reached(m, p, s, Transfer(s, t), env, h)
  {
    var s' := Transfer(s, t);
    TermsSnoc(s.scope, t, |s.scope|);
    assert New(s, s') == [t];
    SingleBody(Free(m), j, t, env, h);
    TermSlotOk(m, j, t, s.scope, env, h);
    ScopeSnoc(s.scope, env, Closed(t), p.value);
    SelfReplaces(Free(m), p.value);
    assert Reaches(m, p, s, s', EvalBody(Free(m), j, [t], env, h));
  }

  /** A closure may be given its arguments in any two lots. */
  lemma {:induction false} ApplySplit(m: Machine, j: nat, v: Value, f: Value, vs: seq<Value>, ws: seq<Value>,
                                      all: seq<Value>, h: History)
    returns (left: nat, more: nat)
    requires Partial(v, f, vs, |ws|) && ws != [] && all == vs + ws && ApplyAll(m, j, v, ws, h).Done?
    ensures ApplyAll(m, j, v, ws, h) == RunFun(m, left, f.fun, f.env, all, h)
    ensures ApplyAll(m, more, f, all, h) == RunFun(m, left, f.fun, f.env, all, h)
  {
    ApplyFully(m, j, f.fun, f.env, vs, ws, h);
    left, more := j - |ws|, j + |vs|;
    ApplyWhole(m, more, left, f, all, h);
  }

  lemma {:induction false} ApplyWhole(m: Machine, k: nat, left: nat, f: Value, all: seq<Value>, h: History)
    requires f.VClo? && f.fun.Fun? && f.applied == [] && !f.returned
    requires |all| == Arity(f.fun.terms) && all != [] && k == left + |all|
    ensures ApplyAll(m, k, f, all, h) == RunFun(m, left, f.fun, f.env, all, h)
  {
    ApplyFully(m, k, f.fun, f.env, [], all, h);
    assert [] + all == all;
  }

  /** The call a chain of partial applications amounts to. */
  ghost predicate Flattened(m: Machine, j: nat, left: nat, more: nat, args: seq<nat>, fn: nat, all: seq<nat>,
                            env: seq<Value>, h: History)
    requires InRange(args, |env|)
  {
    && fn < |env| && InRange(all, |env|) && env[fn].VClo? && env[fn].fun.Fun? && env[fn].applied == []
    && Arity(env[fn].fun.terms) == |all|
    && EvalOp(Free(m), j, App, Select(env, args), h) ==
      RunFun(Free(m), left, env[fn].fun, env[fn].env, Select(env, all), h)
    && EvalOp(Free(m), more, App, Select(env, [fn] + all), h) ==
      RunFun(Free(m), left, env[fn].fun, env[fn].env, Select(env, all), h)
  }

  lemma {:induction false} AppIs(m: Machine, k: nat, v: Value, vs: seq<Value>, all: seq<Value>, h: History)
    requires all == [v] + vs
    ensures EvalOp(m, k, App, all, h) == ApplyAll(m, k, v, vs, h)
  {
    TailCons(v, vs, all);
  }

  lemma {:induction false} CallSplit(m: Machine, j: nat, v: Value, f: Value, vs: seq<Value>, ws: seq<Value>,
                                     all: seq<Value>,
                  short: seq<Value>, long: seq<Value>, h: History)
    returns (left: nat, more: nat)
    requires Partial(v, f, vs, |ws|) && ws != [] && all == vs + ws && short == [v] + ws && long == [f] + all
    requires EvalOp(m, j, App, short, h).Done?
    ensures EvalOp(m, j, App, short, h) == RunFun(m, left, f.fun, f.env, all, h)
    ensures EvalOp(m, more, App, long, h) == RunFun(m, left, f.fun, f.env, all, h)
  {
    AppIs(m, j, v, ws, short, h);
    left, more := ApplySplit(m, j, v, f, vs, ws, all, h);
    AppIs(m, more, f, all, long, h);
  }

  lemma {:induction false} CallFlattens(m: Machine, j: nat, args: seq<nat>, fn: nat, some: seq<nat>, all: seq<nat>,
                                        env: seq<Value>, h: History)
    returns (left: nat, more: nat)
    requires |args| >= 2 && InRange(args, |env|) && fn < |env| && InRange(some, |env|) && all == some + Tail(args)
    requires Partial(env[args[0]], env[fn], Select(env, some), |args| - 1)
    requires EvalOp(Free(m), j, App, Select(env, args), h).Done?
    ensures Flattened(m, j, left, more, args, fn, all, env, h)
  {
    left, more := CallSplit(Free(m), j, env[args[0]], env[fn], Select(env, some), Select(env, Tail(args)),
                            Select(env, all),
                            Select(env, args), Select(env, [fn] + all), h);
  }

  lemma {:induction false} ChainFlattens(m: Machine, j: nat, args: seq<nat>, c: Chained, all: seq<nat>, scope: Scope,
                                         env: seq<Value>, h: History)
    returns (left: nat, more: nat)
    requires ScopeOk(scope, env) && |args| >= 2 && InRange(args, |env|) && Missing(scope, args[0]) == |args| - 1
    requires c == Chain(scope, args[0]) && all == c.args + Tail(args)
    requires EvalOp(Free(m), j, App, Select(env, args), h).Done?
    ensures Flattened(m, j, left, more, args, c.fn, all, env, h)
  {
    assert SlotOk(scope, args[0], env);
    left, more := CallFlattens(m, j, args, c.fn, c.args, all, env, h);
  }

  /** Every name a term mentions still has a place in the target. */
  predicate Live(t: Term, map_: seq<int>) {
    forall x :: 0 <= x < |map_| && Mentions(t, x) ==> map_[x] >= 0
  }

  predicate AllLive(ts: seq<Term>, map_: seq<int>) {
    forall i :: 0 <= i < |ts| ==> Live(ts[i], map_)
  }

  lemma {:induction false} CallMapOk(m: Machine, n: nat, f: Term, fn: nat, all: seq<nat>, env: seq<Value>)
    requires f.Fun? && fn < |env| && env[fn] == VClo(f, env[..fn], []) && InRange(all, |env|) && !Mentions(f, fn)
    ensures EnvMapped(m, n, Entry(f, env[..fn], Select(env, all)), env, CallMap(fn, all))
    ensures AllLive(f.terms[Arity(f.terms)..], CallMap(fn, all))
  {
    var e, map_ := Entry(f, env[..fn], Select(env, all)), CallMap(fn, all);
    forall i | 0 <= i < |e| && map_[i] >= 0 ensures map_[i] < |env| && Related(m, n, e[i], env[map_[i]]) {
      RelatedSelf(m, n, e[i]);
      if i > fn { assert e[i] == Select(env, all)[i - fn - 1]; }
    }
  }

  // ---------------------------------------------------------------- parameters lead

  /** Every function has a parameter, and parameters come before everything else. */
  predicate Formed(t: Term)
    decreases t
  {
    t.Fun? ==>
      && Arity(t.terms) >= 1
      && forall i :: 0 <= i < |t.terms| ==> Formed(t.terms[i]) && (i >= Arity(t.terms) ==> !t.terms[i].Arg?)
  }

  /** What may follow the parameters of a function. */
  predicate Inner(t: Term) {
    Formed(t) && !t.Arg?
  }

  /** No destructure with one handler: the pass makes it an application. */
  predicate Plural(t: Term)
    decreases t
  {
    match t
    case Arg(_) => true
    case Lit(_, _) => true
    case Redux(_, op, args) => op.Des? ==> |args| != 2
    case Fun(_, _, terms, _) => forall i :: 0 <= i < |terms| ==> Plural(terms[i])
  }

  predicate Tidy(scope: Scope) {
    forall i :: 0 <= i < |scope| && scope[i].Closed? ==> Formed(scope[i].term) && Plural(scope[i].term)
  }

  /** scope' is scope with finished non-parameter terms appended. */
  predicate Tidied(scope: Scope, scope': Scope) {
    scope <= scope' && forall i :: |scope| <= i < |scope'| ==>
         scope'[i].Closed? && Inner(scope'[i].term) && Plural(scope'[i].term)
  }

  lemma {:induction false} BodyTidies(p: Policy, budget: nat, ts: seq<Term>, s: State)
    requires Tidy(s.scope) && forall i :: 0 <= i < |ts| ==> Inner(ts[i])
    ensures Tidied(s.scope, InlineBody(p, budget, ts, s).scope)
    decreases budget, 4, ts, 0
  {
    if ts != [] {
      var z := |ts| - 1;
      BodyTidies(p, budget, ts[..z], s);
      TermTidies(p, budget, ts[z], InlineBody(p, budget, ts[..z], s));
    }
  }

  lemma {:induction false} TermTidies(p: Policy, budget: nat, t: Term, s: State)
    requires Tidy(s.scope) && Inner(t)
    ensures Tidied(s.scope, InlineTerm(p, budget, t, s).scope)
    decreases budget, 4, t, 2
  {
    if t.Redux? { ReduxTidies(p, budget, t, s); }
    if t.Fun? { FunTidies(p, budget, t, s); }
  }

  lemma {:induction false} ReduxTidies(p: Policy, budget: nat, t: Term, s: State)
    requires Tidy(s.scope) && t.Redux?
    ensures Tidied(s.scope, InlineRedux(p, budget, t, s).scope)
    decreases budget, 3, t, 0
  {
    var args := LookAll(s.map_, t.args);
    if t.op.App? {
      AppTidies(p, budget, t.flags, args, s);
    } else if t.op.Des? && Handler(s.scope, args) != [] {
      AppTidies(p, budget, t.flags, Handler(s.scope, args), s);
    }
  }

  lemma {:induction false} AppTidies(p: Policy, budget: nat, flags: Flags, args: seq<nat>, s: State)
    requires Tidy(s.scope)
    ensures Tidied(s.scope, InlineApp(p, budget, flags, args, s).scope)
    decreases budget, 2, 0, 0
  {
    if args != [] && budget > 0 {
      var c := Chain(s.scope, args[0]);
      if Inlinable(s.scope, c.fn) {
        var f := s.scope[c.fn].term;
        BodyTidies(p, budget - 1, f.terms[Arity(f.terms)..], s.(map_ := CallMap(c.fn, c.args + Tail(args))));
      }
    }
  }

  lemma {:induction false} TransferAllIs(s: State, ts: seq<Term>)
    ensures var r := TransferAll(s, ts);
      && r.pool == s.pool && s.scope <= r.scope && |r.scope| == |s.scope| + |ts| && s.map_ <= r.map_
      && (forall i :: |s.scope| <= i < |r.scope| ==> r.scope[i] == Closed(ts[i - |s.scope|]))
      && (forall i :: |s.map_| <= i < |r.map_| ==> r.map_[i] == i - |s.map_| + |s.scope|)
    decreases |ts|
  {
    if ts != [] { TransferAllIs(s, ts[..|ts| - 1]); }
  }

  /** The slots from `from` on: a parameters, then other terms. */
  predicate Leads(scope: Scope, from: nat, a: nat) {
    && from + a <= |scope|
    && forall i :: from <= i < |scope| ==>
         && scope[i].Closed? && Formed(scope[i].term) && Plural(scope[i].term)
         && (scope[i].term.Arg? <==> i < from + a)
  }

  lemma {:induction false} CurriedTidies(p: Policy, budget: nat, f: Term, s: State, from: nat)
    requires f.Fun? && s.map_ != [] && Formed(f) && Tidy(s.scope) && from <= |s.scope|
    requires Leads(s.scope, from, |s.scope| - from)
    ensures var q := InlineCurried(p, budget, f, s).0;
      s.scope <= q.scope && Leads(q.scope, from, |s.scope| - from + FullArity(f, |s.map_| - 1))
    decreases budget, 4, f, 0
  {
    var a := Arity(f.terms);
    var args := TransferAll(s, f.terms[..a]);
    TransferAllIs(s, f.terms[..a]);
    ArityLeads(f.terms);
    if Curried(f, |s.map_| - 1) {
      CurriedTidies(p, budget, f.terms[a], args.(map_ := args.map_ + [-1]), from);
    } else {
      BodyTidies(p, budget, f.terms[a..], args);
    }
  }

  lemma {:induction false} LeadsArity(scope: Scope, from: nat, a: nat)
    requires Leads(scope, from, a)
    ensures |Terms(scope, from)| == |scope| - from && Arity(Terms(scope, from)) == a
    ensures forall i :: 0 <= i < |scope| - from ==> Terms(scope, from)[i] == scope[from + i].term
  {
    TermsLength(scope, from);
    assert forall i :: 0 <= i < |scope| - from ==> Terms(scope, from)[i] == scope[from + i].term;
    ArityIs(Terms(scope, from), a);
  }

  /** What the pass makes of a function, and the state its body is emitted from. */
  function Opened(f: Term, s: State): State
    requires f.Fun?
  {
    State(s.scope + [Open(FullArity(f, |s.map_|))], s.map_ + [|s.scope|], s.pool)
  }

  function Emitted(p: Policy, budget: nat, f: Term, s: State): Term
    requires f.Fun?
  {
    var q := InlineCurried(p, budget, f, Opened(f, s));
    Fun(f.flags, f.meta, Terms(q.0.scope, |s.scope| + 1), q.1)
  }

  lemma {:induction false} FunTidies(p: Policy, budget: nat, f: Term, s: State)
    requires Tidy(s.scope) && f.Fun? && Formed(f)
    ensures var f' := Emitted(p, budget, f, s);
      && Inner(f') && Plural(f') && Arity(f'.terms) == FullArity(f, |s.map_|)
      && Tidied(s.scope, InlineFun(p, budget, f, s).scope)
    decreases budget, 4, f, 1
  {
    var q := InlineCurried(p, budget, f, Opened(f, s)).0;
    CurriedTidies(p, budget, f, Opened(f, s), |s.scope| + 1);
    LeadsArity(q.scope, |s.scope| + 1, FullArity(f, |s.map_|));
  }

  // ------------------------------------------------------------------ the simulation

  ghost predicate Ready(m: Machine, n: nat, s: State, env: seq<Value>, env': seq<Value>) {
    EnvMapped(m, n, env, env', s.map_) && ScopeOk(s.scope, env') && Tidy(s.scope) && !m.claims.Exact?
  }

  /** A call, as the state its body leaves behind when emitted in place. */
  function Called(p: Policy, budget: nat, fn: nat, all: seq<nat>, s: State): State
    requires Inlinable(s.scope, fn)
  {
    var f := s.scope[fn].term;
    var q := InlineBody(p, budget, f.terms[Arity(f.terms)..], s.(map_ := CallMap(fn, all)));
    State(q.scope, s.map_ + [Look(q.map_, f.output)], q.pool)
  }

  lemma {:induction false} CalledAt(p: Policy, budget: nat, fn: nat, all: seq<nat>, s: State)
    requires Inlinable(s.scope, fn) && fn < |s.scope|
    ensures var f := s.scope[fn].term;
      var q := InlineBody(p, budget, f.terms[Arity(f.terms)..], s.(map_ := CallMap(fn, all)));
      f.output < |q.map_| ==> q.map_[f.output] >= 0
  {
    var f := s.scope[fn].term;
    BodyGrows(p, budget, f.terms[Arity(f.terms)..], s.(map_ := CallMap(fn, all)));
  }

  lemma {:induction false} CallRuns(p: Policy, budget: nat, m: Machine, j: nat, fn: nat, all: seq<nat>, s: State,
                                    env: seq<Value>, h: History)
    returns (k: nat)
    requires m.check.NoCheck? && !m.claims.Exact? && ScopeOk(s.scope, env) && Tidy(s.scope) && Inlinable(s.scope, fn)
    requires InRange(all, |env|)
    requires |all| == Arity(s.scope[fn].term.terms)
    requires RunFun(m, j, s.scope[fn].term, env[..fn], Select(env, all), h).Done?
    ensures var o, s' := RunFun(m, j, s.scope[fn].term, env[..fn], Select(env, all), h), Called(p, budget, fn, all, s);
      var b, x := EvalBody(m, k, New(s, s'), env, h), s'.map_[|s.map_|];
      && b.BodyDone? && b.hist == o.hist && ScopeOk(s'.scope, b.env) && 0 <= x < |b.env|
      && Related(m, o.left, o.value, b.env[x])
    decreases budget, 2, 0
  {
    var f := s.scope[fn].term;
    var ts, e, s0 := f.terms[Arity(f.terms)..], Entry(f, env[..fn], Select(env, all)), s.(map_ := CallMap(fn, all));
    var q := InlineBody(p, budget, ts, s0);
    assert SlotOk(s.scope, fn, env);
    assert Free(m) == m && Formed(f);
    CallMapOk(m, j, f, fn, all, env);
    BodyFollows(p, budget, m, j, ts, s0, e, env, h);
    CalledAt(p, budget, fn, all, s);
    var b0 := EvalBody(m, j, ts, e, h);
    k :| StateSame(m, b0.left, b0.env, b0.hist, EvalBody(m, k, New(s0, q), env, h), q);
    var b := EvalBody(m, k, New(s0, q), env, h);
    ReturnedRelated(m, b0.left, b0.env[f.output], b.env[q.map_[f.output]]);
  }

  lemma {:induction false} CallFollows(p: Policy, budget: nat, m: Machine, j: nat, fn: nat, all: seq<nat>, s: State,
                                       env: seq<Value>, h: History)
    requires !m.claims.Exact? && ScopeOk(s.scope, env) && Tidy(s.scope) && Inlinable(s.scope, fn) && InRange(all, |env|)
    requires |all| == Arity(s.scope[fn].term.terms)
    requires RunFun(Free(m), j, s.scope[fn].term, env[..fn], Select(env, all), h).Done?
    ensures Reached(m, RunFun(Free(m), j, s.scope[fn].term, env[..fn], Select(env, all), h), s,
                    Called(p, budget, fn, all, s), env, h)
    decreases budget, 3
  {
    var f, vs, M := s.scope[fn].term, Select(env, all), Free(m);
    var o, s' := RunFun(M, j, f, env[..fn], vs, h), Called(p, budget, fn, all, s);
    var k := CallRuns(p, budget, M, j, fn, all, s, env, h);
    var b, x := EvalBody(M, k, New(s, s'), env, h), s'.map_[|s.map_|];
    forall d: nat ensures Related(M, d, o.value, b.env[x]) {
      CallAlike(p, budget, M, j, d, fn, all, s, s', o, k, b, x, env, h);
    }
    assert Reaches(m, o, s, s', b);
  }

  /** However long the call's value is looked at, the inlined copy's value looks the same. */
  lemma {:induction false} CallAlike(p: Policy, budget: nat, m: Machine, j: nat, d: nat, fn: nat, all: seq<nat>,
                                     s: State, s': State,
                                     o: Outcome, k: nat, b: BodyOutcome, x: int, env: seq<Value>, h: History)
    requires m.check.NoCheck? && !m.claims.Exact? && ScopeOk(s.scope, env) && Tidy(s.scope) && Inlinable(s.scope, fn)
    requires InRange(all, |env|)
    requires |all| == Arity(s.scope[fn].term.terms) && s' == Called(p, budget, fn, all, s)
    requires o == RunFun(m, j, s.scope[fn].term, env[..fn], Select(env, all), h) && o.Done?
    requires b == EvalBody(m, k, New(s, s'), env, h) && b.BodyDone? && x == s'.map_[|s.map_|] && 0 <= x < |b.env|
    ensures Related(m, d, o.value, b.env[x])
    decreases budget, 2, 1
  {
    var f := s.scope[fn].term;
    BodyMore(m, j, d, f.terms[Arity(f.terms)..], Entry(f, env[..fn], Select(env, all)), h);
    var k' := CallRuns(p, budget, m, j + d, fn, all, s, env, h);
    BodyMore(m, k, k', New(s, s'), env, h);
    BodyMore(m, k', k, New(s, s'), env, h);
    RelatedDown(m, o.left + d, d, o.value, b.env[x]);
  }

  /** What an application does, the terms emitted for it can do. */
  lemma {:induction false} AppFollows(p: Policy, budget: nat, m: Machine, j: nat, flags: Flags, args: seq<nat>,
                                      s: State, env: seq<Value>, h: History)
    requires !m.claims.Exact? && ScopeOk(s.scope, env) && Tidy(s.scope) && InRange(args, |env|)
    requires EvalOp(Free(m), j, App, Select(env, args), h).Done?
    ensures Reached(m, EvalOp(Free(m), j, App, Select(env, args), h), s, InlineApp(p, budget, flags, args, s), env, h)
    decreases budget, 0
  {
    var o := EvalOp(Free(m), j, App, Select(env, args), h);
    if |args| == 1 || Missing(s.scope, args[0]) != |args| - 1 {
      TransferReaches(m, j, o, Redux(flags, App, args), s, env, h);
    } else {
      var c := Chain(s.scope, args[0]);
      var all := c.args + Tail(args);
      var left, more := ChainFlattens(m, j, args, c, all, s.scope, env, h);
      if budget > 0 && Inlinable(s.scope, c.fn) && p(budget, s.scope, c.fn) {
        assert SlotOk(s.scope, c.fn, env);
        CallFollows(p, budget - 1, m, left, c.fn, all, s, env, h);
      } else {
        LongCallReaches(m, more, o, flags, c.fn, all, s, env, h);
      }
    }
  }

  lemma {:induction false} LongCallReaches(m: Machine, more: nat, o: Outcome, flags: Flags, fn: nat, all: seq<nat>,
                                           s: State, env: seq<Value>, h: History)
    requires ScopeOk(s.scope, env) && fn < |env| && InRange(all, |env|) && o.Done?
    requires EvalOp(Free(m), more, App, Select(env, [fn] + all), h) == o
    ensures Reached(m, o, s, Transfer(s, Redux(flags, App, [fn] + all)), env, h)
  {
    TransferReaches(m, more, o, Redux(flags, App, [fn] + all), s, env, h);
  }

  lemma {:induction false} ArgsMatched(m: Machine, n: nat, t: Term, s: State, env: seq<Value>, env': seq<Value>)
    requires t.Redux? && EnvMapped(m, n, env, env', s.map_) && Live(t, s.map_) && InRange(t.args, |env|)
    ensures var args := LookAll(s.map_, t.args);
      InRange(args, |env'|) && AllRelated(m, n, Select(env, t.args), Select(env', args))
  {
    var args := LookAll(s.map_, t.args);
    forall i | 0 <= i < |args| ensures args[i] < |env'| && Related(m, n, env[t.args[i]], env'[args[i]]) {
      assert Mentions(t, t.args[i]);
    }
  }

  lemma {:induction false} HandlerCalls(m: Machine, j: nat, args: seq<nat>, scope: Scope, env: seq<Value>, h: History)
    requires ScopeOk(scope, env) && InRange(args, |env|) && Handler(scope, args) != []
    requires EvalOp(m, j, Des, Select(env, args), h).Done?
    ensures var call := Handler(scope, args);
      InRange(call, |env|) && EvalOp(m, j, App, Select(env, call), h) == EvalOp(m, j, Des, Select(env, args), h)
  {
    var vs, call := Select(env, args), Handler(scope, args);
    var obj := vs[|vs| - 1];
    DesIsCall(m, j, vs, h);
    assert SlotOk(scope, args[|args| - 1], env);
    assert args[obj.cons.index] == call[0];
    assert Select(env, call) == [env[call[0]], obj];
    AppIs(m, j, env[call[0]], [obj], Select(env, call), h);
    assert [obj][..0] == [];
  }

  lemma {:induction false} ReduxFollows(p: Policy, budget: nat, m: Machine, n: nat, t: Term, s: State,
                                        env: seq<Value>, env': seq<Value>, h: History)
    requires t.Redux? && Ready(m, n, s, env, env') && Live(t, s.map_)
    ensures TermFollowed(m, n, t, s, InlineRedux(p, budget, t, s), env, env', h)
    decreases budget, 1, n, t, 1
  {
    var o, args := EvalTerm(m, n, t, env, h), LookAll(s.map_, t.args);
    if o.Done? {
      ArgsMatched(m, n, t, s, env, env');
      var ws := Select(env', args);
      var j := OpCongruent(m, n, t.op, Select(env, t.args), ws, h);
      if t.op.App? {
        ReduxAppFollows(p, budget, m, n, t, args, args, j, s, env, env', h);
      } else if t.op.Des? && Handler(s.scope, args) != [] {
        HandlerCalls(Free(m), j, args, s.scope, env', h);
        ReduxAppFollows(p, budget, m, n, t, args, Handler(s.scope, args), j, s, env, env', h);
      } else if t.op.Get? && |args| == 1 && IsCon(s.scope, args[0]) && t.op.index < |s.scope[args[0]].term.args| {
        GetFollows(m, n, t, args, j, s, env, env', h);
      } else {
        assert Same(m, o, EvalTerm(Free(m), j, t.(args := args), env', h));
        TransferFollows(m, n, t, t.(args := args), s, env, env', h);
      }
    }
  }

  /** A term that is, or is known to amount to, the call `call`. */
  lemma {:induction false} ReduxAppFollows(p: Policy, budget: nat, m: Machine, n: nat, t: Term, args: seq<nat>,
                                           call: seq<nat>, j: nat, s: State,
                                           env: seq<Value>, env': seq<Value>, h: History)
    requires t.Redux? && Ready(m, n, s, env, env') && args == LookAll(s.map_, t.args) && InRange(args, |env'|)
    requires InRange(call, |env'|)
    requires EvalTerm(m, n, t, env, h).Done?
    requires Same(m, EvalTerm(m, n, t, env, h), EvalOp(Free(m), j, App, Select(env', call), h))
    requires InlineRedux(p, budget, t, s) == InlineApp(p, budget, t.flags, call, s)
    ensures TermFollowed(m, n, t, s, InlineRedux(p, budget, t, s), env, env', h)
    decreases budget, 1, n, t, 0
  {
    AppFollows(p, budget, m, j, t.flags, call, s, env', h);
    ReachedFollows(m, n, t, EvalOp(Free(m), j, App, Select(env', call), h), s, InlineRedux(p, budget, t, s), env, env',
                   h);
  }

  /** A field of a record built in sight is the term it was built from. */
  lemma {:induction false} GetFollows(m: Machine, n: nat, t: Term, args: seq<nat>, j: nat, s: State, env: seq<Value>,
                                      env': seq<Value>, h: History)
    requires t.Redux? && t.op.Get? && Ready(m, n, s, env, env') && args == LookAll(s.map_, t.args)
    requires InRange(args, |env'|)
    requires EvalTerm(m, n, t, env, h).Done?
    requires Same(m, EvalTerm(m, n, t, env, h), EvalOp(Free(m), j, t.op, Select(env', args), h))
    requires |args| == 1 && IsCon(s.scope, args[0]) && t.op.index < |s.scope[args[0]].term.args|
    ensures TermFollowed(m, n, t, s, Replace(s, s.scope[args[0]].term.args[t.op.index]), env, env', h)
  {
    assert SlotOk(s.scope, args[0], env');
    ReplaceFollows(m, n, t, s.scope[args[0]].term.args[t.op.index], s, env, env', h);
  }

  lemma {:induction false} PoolFree(m: Machine, n: nat, t: Term, s: State, s1: State, s2: State, env: seq<Value>,
                                    env': seq<Value>, h: History)
    requires TermFollowed(m, n, t, s, s1, env, env', h) && s1.scope == s2.scope && s1.map_ == s2.map_
    ensures TermFollowed(m, n, t, s, s2, env, env', h)
  {
    var o := EvalTerm(m, n, t, env, h);
    if o.Done? {
      var k: nat :| StateSame(m, o.left, env + [o.value], o.hist, EvalBody(Free(m), k, New(s, s1), env', h), s1);
      assert StateSame(m, o.left, env + [o.value], o.hist, EvalBody(Free(m), k, New(s, s2), env', h), s2);
    }
  }

  lemma {:induction false} TermFollows(p: Policy, budget: nat, m: Machine, n: nat, t: Term, s: State,
                                       env: seq<Value>, env': seq<Value>, h: History)
    requires Ready(m, n, s, env, env') && Live(t, s.map_) && Inner(t)
    ensures TermFollowed(m, n, t, s, InlineTerm(p, budget, t, s), env, env', h)
    decreases budget, 1, n, t, 2
  {
    var o := EvalTerm(m, n, t, env, h);
    match t {
      case Lit(_, x) =>
        if x in s.pool && s.pool[x] < |s.scope| && IsLit(s.scope[s.pool[x]], x) {
          assert SlotOk(s.scope, s.pool[x], env');
          ReplaceFollows(m, n, t, s.pool[x], s, env, env', h);
        } else {
          assert Same(m, o, EvalTerm(Free(m), 0, t, env', h));
          TransferFollows(m, n, t, t, s, env, env', h);
          PoolFree(m, n, t, s, Transfer(s, t), InlineTerm(p, budget, t, s), env, env', h);
        }
      case Redux(_, _, _) => ReduxFollows(p, budget, m, n, t, s, env, env', h);
      case Fun(_, _, _, _) =>
        var f' := Emitted(p, budget, t, s);
        FunRelated(p, budget, m, n, t, s, env, env');
        assert Same(m, o, EvalTerm(Free(m), 0, f', env', h));
        TransferFollows(m, n, t, f', s, env, env', h);
        assert InlineTerm(p, budget, t, s) == InlineFun(p, budget, t, s);
        PoolFree(m, n, t, s, Transfer(s, f'), InlineTerm(p, budget, t, s), env, env', h);
    }
  }

  lemma {:induction false} BodyReady(p: Policy, budget: nat, ts: seq<Term>, t: Term, s: State)
    requires Tidy(s.scope) && AllLive(ts + [t], s.map_) && forall i :: 0 <= i < |ts| ==> Inner(ts[i])
    ensures var s1 := InlineBody(p, budget, ts, s); s.scope <= s1.scope && Tidy(s1.scope) && Live(t, s1.map_)
  {
    BodyGrows(p, budget, ts, s);
    BodyTidies(p, budget, ts, s);
    assert Live((ts + [t])[|ts|], s.map_);
  }

  /** What a body does, the terms emitted for it can do. */
  lemma {:induction false} BodyFollows(p: Policy, budget: nat, m: Machine, n: nat, ts: seq<Term>, s: State,
                                       env: seq<Value>, env': seq<Value>, h: History)
    requires Ready(m, n, s, env, env') && AllLive(ts, s.map_) && forall i :: 0 <= i < |ts| ==> Inner(ts[i])
    ensures BodyFollowed(m, n, ts, s, InlineBody(p, budget, ts, s), env, env', h)
    decreases budget, 1, n, ts, 3
  {
    if ts == [] {
      assert New(s, s) == [];
      assert StateSame(m, n, env, h, EvalBody(Free(m), 0, [], env', h), s);
    } else {
      var z := |ts| - 1;
      var s1, s2 := InlineBody(p, budget, ts[..z], s), InlineBody(p, budget, ts, s);
      assert ts == ts[..z] + [ts[z]];
      BodyFollows(p, budget, m, n, ts[..z], s, env, env', h);
      BodyReady(p, budget, ts[..z], ts[z], s);
      TermGrows(p, budget, ts[z], s1);
      forall n': nat, e, e', h' | n' <= n && EnvMapped(m, n', e, e', s1.map_) && ScopeOk(s1.scope, e')
        ensures TermFollowed(m, n', ts[z], s1, s2, e, e', h')
      {
        TermFollows(p, budget, m, n', ts[z], s1, e, e', h');
      }
      FollowedSnoc(m, n, ts[..z], ts[z], ts, s, s1, s2, env, env', h);
    }
  }

  // ------------------------------------------------------------------- functions

  /** Part of the way through merging a chain of curried functions into f': g comes next,
      ws0 are the values of the parameters before it. */
  ghost predicate Stage(p: Policy, budget: nat, g: Term, s: State, f': Term, env': seq<Value>, ws0: seq<Value>) {
    && g.Fun? && f'.Fun? && s.map_ != [] && Formed(g) && Live(g, s.map_) && Tidy(s.scope)
    && |s.scope| == |env'| + 1 + |ws0| && Leads(s.scope, |env'| + 1, |ws0|)
    && ScopeOk(s.scope, Entry(f', env', ws0))
    && f'.terms == Terms(InlineCurried(p, budget, g, s).0.scope, |env'| + 1)
    && f'.output == InlineCurried(p, budget, g, s).1
    && (s.map_[|s.map_| - 1] >= 0 ==> s.map_[|s.map_| - 1] == |env'| && ws0 == [])
  }

  lemma {:induction false} ArgsEnter(m: Machine, n: nat, s: State, ts: seq<Term>, env: seq<Value>, env': seq<Value>,
                                     vs: seq<Value>, ws: seq<Value>)
    requires EnvMapped(m, n, env, env', s.map_) && ScopeOk(s.scope, env') && AllRelated(m, n, vs, ws)
    requires |vs| == |ts| && forall i :: 0 <= i < |ts| ==> ts[i].Arg?
    ensures EnvMapped(m, n, env + vs, env' + ws, TransferAll(s, ts).map_)
    ensures ScopeOk(TransferAll(s, ts).scope, env' + ws)
  {
    TransferAllIs(s, ts);
    var r := TransferAll(s, ts);
    forall i | 0 <= i < |r.scope| ensures SlotOk(r.scope, i, env' + ws) {
      if i < |s.scope| { SlotMore(s.scope, i, env', r.scope, env' + ws); }
    }
    forall i | 0 <= i < |r.map_| && r.map_[i] >= 0
      ensures r.map_[i] < |env' + ws| && Related(m, n, (env + vs)[i], (env' + ws)[r.map_[i]])
    {
      if i >= |env| { assert Related(m, n, vs[i - |env|], ws[i - |env|]); }
    }
  }

  lemma {:induction false} StageArity(p: Policy, budget: nat, g: Term, s: State, f': Term, env': seq<Value>,
                                      ws0: seq<Value>)
    requires Stage(p, budget, g, s, f', env', ws0)
    ensures Arity(f'.terms) == |ws0| + FullArity(g, |s.map_| - 1)
  {
    CurriedTidies(p, budget, g, s, |env'| + 1);
    LeadsArity(InlineCurried(p, budget, g, s).0.scope, |env'| + 1, |ws0| + FullArity(g, |s.map_| - 1));
  }

  /** The state once g's own parameters are in place. */
  function Entered(g: Term, s: State): State
    requires g.Fun?
  {
    TransferAll(s, g.terms[..Arity(g.terms)])
  }

  lemma {:induction false} StageEnters(p: Policy, budget: nat, m: Machine, n: nat, g: Term, env: seq<Value>,
                                       vs: seq<Value>,
                                       s: State, f': Term, env': seq<Value>, ws0: seq<Value>, ws: seq<Value>)
    requires !m.claims.Exact?
    requires Stage(p, budget, g, s, f', env', ws0) && |vs| == Arity(g.terms) && AllRelated(m, n, vs, ws)
    requires EnvMapped(m, n, env, Entry(f', env', ws0), s.map_[..|s.map_| - 1])
    ensures var s1 := Entered(g, s);
      && Ready(m, n, s1, Entry(g, env, vs), Entry(f', env', ws0 + ws))
      && s.map_ <= s1.map_ && |s1.map_| == |s.map_| + |vs|
      && (forall i :: |s.map_| <= i < |s1.map_| ==> s1.map_[i] >= 0)
      && |s1.scope| == |env'| + 1 + |ws0 + ws| && Leads(s1.scope, |env'| + 1, |ws0 + ws|)
    decreases budget, 1, n, g, 1
  {
    var E := Entry(f', env', ws0);
    TransferAllIs(s, g.terms[..|vs|]);
    ArityLeads(g.terms);
    if s.map_[|s.map_| - 1] >= 0 {
      StageRelated(p, budget, m, n, g, env, [], s, f', env', [], [], false);
      assert ws0 + [] == ws0;
    }
    var own := env + [VClo(g, env, [])];
    forall i | 0 <= i < |own| && s.map_[i] >= 0 ensures s.map_[i] < |E| && Related(m, n, own[i], E[s.map_[i]]) {
      if i < |env| { assert s.map_[..|s.map_| - 1][i] == s.map_[i]; }
    }
    ArgsEnter(m, n, s, g.terms[..|vs|], env + [VClo(g, env, [])], E, vs, ws);
    assert E + ws == Entry(f', env', ws0 + ws);
  }

  /** The body of the last function of the chain. */
  lemma {:induction false} StageEnds(p: Policy, budget: nat, m: Machine, n: nat, g: Term, env: seq<Value>,
                                     vs: seq<Value>,
                                     s: State, f': Term, env': seq<Value>, ws0: seq<Value>, ws: seq<Value>,
                                     all: seq<Value>, h: History)
    requires !m.claims.Exact?
    requires Stage(p, budget, g, s, f', env', ws0) && |vs| == Arity(g.terms) && AllRelated(m, n, vs, ws)
    requires all == ws0 + ws
    requires EnvMapped(m, n, env, Entry(f', env', ws0), s.map_[..|s.map_| - 1]) && !Curried(g, |s.map_| - 1)
    ensures Arity(f'.terms) == |all| && RunMatched(m, n, g, env, vs, f', env', all, h)
    decreases budget, 1, n, g, 4
  {
    StageArity(p, budget, g, s, f', env', ws0);
    StageEnters(p, budget, m, n, g, env, vs, s, f', env', ws0, ws);
    var ts, s1 := g.terms[Arity(g.terms)..], Entered(g, s);
    var q := InlineBody(p, budget, ts, s1);
    var o := RunFun(m, n, g, env, vs, h);
    if o.Done? {
      BodyFollows(p, budget, m, n, ts, s1, Entry(g, env, vs), Entry(f', env', all), h);
      var b := EvalBody(m, n, ts, Entry(g, env, vs), h);
      var k: nat :| StateSame(m, b.left, b.env, b.hist, EvalBody(Free(m), k, New(s1, q), Entry(f', env', all), h), q);
      OutputLive(p, budget, g, ts, s, s1);
      StageTerms(s1.scope, q.scope, |env'| + 1, f'.terms);
      RunFromState(m, n, g, env, vs, f', env', all, New(s1, q), q, k, h);
    }
  }

  lemma {:induction false} OutputLive(p: Policy, budget: nat, g: Term, ts: seq<Term>, s: State, s1: State)
    requires g.Fun? && Live(g, s.map_) && s.map_ <= s1.map_ && forall i :: |s.map_| <= i < |s1.map_| ==> s1.map_[i] >= 0
    ensures var q := InlineBody(p, budget, ts, s1);
      s1.scope <= q.scope && (g.output < |q.map_| ==> q.map_[g.output] >= 0)
  {
    BodyGrows(p, budget, ts, s1);
    assert Mentions(g, g.output);
  }

  lemma {:induction false} RunFromState(m: Machine, n: nat, g: Term, env: seq<Value>, vs: seq<Value>,
                     f': Term, env': seq<Value>, ws: seq<Value>, ts': seq<Term>, q: State, k: nat, h: History)
    requires g.Fun? && f'.Fun? && Arity(f'.terms) == |ws| && ts' == f'.terms[|ws|..]
    requires RunFun(m, n, g, env, vs, h).Done?
    requires f'.output == Look(q.map_, g.output) && (g.output < |q.map_| ==> q.map_[g.output] >= 0)
    requires var b := EvalBody(m, n, g.terms[Arity(g.terms)..], Entry(g, env, vs), h);
      StateSame(m, b.left, b.env, b.hist, EvalBody(Free(m), k, ts', Entry(f', env', ws), h), q)
    ensures Same(m, RunFun(m, n, g, env, vs, h), RunFun(Free(m), k, f', env', ws, h))
  {
    RunSame(m, n, g, env, vs, f', env', ws, k, h);
  }

  lemma {:induction false} StageTerms(scope: Scope, scope': Scope, from: nat, ts: seq<Term>)
    requires from <= |scope| && scope <= scope' && ts == Terms(scope', from) && Leads(scope, from, |scope| - from)
    ensures |scope| - from <= |ts| && ts[|scope| - from..] == Terms(scope', |scope|)
  {
    TermsSplit(scope, scope', from);
    TermsLength(scope, from);
  }

  /** The next function of the chain takes over. */
  lemma {:induction false} StageGoesOn(p: Policy, budget: nat, m: Machine, n: nat, g: Term, env: seq<Value>,
                                       vs: seq<Value>,
                                       s: State, f': Term, env': seq<Value>, ws0: seq<Value>, ws: seq<Value>,
                                       all: seq<Value>, h: History)
    requires !m.claims.Exact?
    requires Stage(p, budget, g, s, f', env', ws0) && |vs| == Arity(g.terms) && AllRelated(m, n, vs, ws)
    requires all == ws0 + ws
    requires EnvMapped(m, n, env, Entry(f', env', ws0), s.map_[..|s.map_| - 1]) && Curried(g, |s.map_| - 1)
    ensures |all| < Arity(f'.terms) && RunFun(m, n, g, env, vs, h).Done?
    ensures Same(m, RunFun(m, n, g, env, vs, h), Done(VClo(f', env', all), h, 0))
    decreases budget, 1, n, g, 4
  {
    var e, s1, child := Entry(g, env, vs), Entered(g, s), g.terms[|vs|];
    var s2 := s1.(map_ := s1.map_ + [-1]);
    StageArity(p, budget, g, s, f', env', ws0);
    StageEnters(p, budget, m, n, g, env, vs, s, f', env', ws0, ws);
    assert s2.map_[..|s2.map_| - 1] == s1.map_;
    assert g.terms[|vs|..] == [child];
    SingleBody(m, n, child, e, h);
    forall x | 0 <= x < |s2.map_| && Mentions(child, x) ensures s2.map_[x] >= 0 {
      assert Mentions(g, x);
    }
    assert all + [] == all;
    assert Stage(p, budget, child, s2, f', env', all);
    StageRelated(p, budget, m, n, child, e, [], s2, f', env', all, [], true);
  }

  lemma {:induction false} StageCall(p: Policy, budget: nat, m: Machine, k: nat, g: Term, env: seq<Value>,
                                     vs: seq<Value>, a: Value,
                                     s: State, f': Term, env': seq<Value>, ws0: seq<Value>, ws: seq<Value>, b: Value,
                                     returned: bool, h: History)
    requires Stage(p, budget, g, s, f', env', ws0) && |vs| < Arity(g.terms) && AllRelated(m, k, vs + [a], ws + [b])
    requires EnvMapped(m, k, env, Entry(f', env', ws0), s.map_[..|s.map_| - 1])
    requires !m.claims.Exact? && (ws0 == [] || vs != [] || returned)
    ensures CallMatched(m, k, VClo(g, env, vs, returned), a, VClo(f', env', ws0 + ws), b, h)
    decreases budget, 1, k, g, 5
  {
    var xs, ys, all := vs + [a], ws + [b], ws0 + (ws + [b]);
    var w, o := VClo(f', env', ws0 + ws), Apply(m, k + 1, VClo(g, env, vs, returned), a, h);
    assert (ws0 + ws) + [b] == all;
    StageArity(p, budget, g, s, f', env', ws0);
    if |xs| < Arity(g.terms) {
      StageRelated(p, budget, m, k, g, env, xs, s, f', env', ws0, ys, false);
      assert Same(m, o, Apply(Free(m), 1, w, b, h));
    } else if Curried(g, |s.map_| - 1) {
      StageGoesOn(p, budget, m, k, g, env, xs, s, f', env', ws0, ys, all, h);
      assert Same(m, o, Apply(Free(m), 1, w, b, h));
    } else {
      StageEnds(p, budget, m, k, g, env, xs, s, f', env', ws0, ys, all, h);
      if o.Done? {
        var j: nat :| Same(m, RunFun(m, k, g, env, xs, h), RunFun(Free(m), j, f', env', all, h));
        assert Apply(Free(m), j + 1, w, b, h) == RunFun(Free(m), j, f', env', all, h);
      }
    }
  }

  lemma {:induction false} StageRelated(p: Policy, budget: nat, m: Machine, n: nat, g: Term, env: seq<Value>,
                                        vs: seq<Value>,
                                        s: State, f': Term, env': seq<Value>, ws0: seq<Value>, ws: seq<Value>,
                                        returned: bool)
    requires Stage(p, budget, g, s, f', env', ws0) && |vs| < Arity(g.terms) && AllRelated(m, n, vs, ws)
    requires EnvMapped(m, n, env, Entry(f', env', ws0), s.map_[..|s.map_| - 1])
    requires !m.claims.Exact? && (ws0 == [] || vs != [] || returned)
    ensures Related(m, n, VClo(g, env, vs, returned), VClo(f', env', ws0 + ws))
    decreases budget, 1, n, g, 0
  {
    var v, w, map_ := VClo(g, env, vs, returned), VClo(f', env', ws0 + ws), s.map_[..|s.map_| - 1];
    forall k: nat, a, b, h | k < n && Related(m, k, a, b) ensures CallMatched(m, k, v, a, w, b, h) {
      var E := Entry(f', env', ws0);
      forall i | 0 <= i < |env| && map_[i] >= 0 ensures Related(m, k, env[i], E[map_[i]]) {
        RelatedDown(m, n, k, env[i], E[map_[i]]);
      }
      forall i | 0 <= i < |vs + [a]| ensures Related(m, k, (vs + [a])[i], (ws + [b])[i]) {
        if i < |vs| { RelatedDown(m, n, k, vs[i], ws[i]); }
      }
      StageCall(p, budget, m, k, g, env, vs, a, s, f', env', ws0, ws, b, returned, h);
    }
  }

  lemma {:induction false} FunRelated(p: Policy, budget: nat, m: Machine, n: nat, f: Term, s: State, env: seq<Value>,
                                      env': seq<Value>)
    requires f.Fun? && Ready(m, n, s, env, env') && Live(f, s.map_) && Formed(f)
    ensures Related(m, n, VClo(f, env, []), VClo(Emitted(p, budget, f, s), env', []))
    decreases budget, 1, n, f, 1
  {
    var f', s1 := Emitted(p, budget, f, s), Opened(f, s);
    FunTidies(p, budget, f, s);
    var E := Entry(f', env', []);
    assert Select(E, []) == [];
    assert Partial(E[|env'|], E[|env'|], [], FullArity(f, |s.map_|));
    ScopeSnoc(s.scope, env', Open(FullArity(f, |s.map_|)), VClo(f', env', []));
    assert E == env' + [VClo(f', env', [])];
    assert s1.map_[..|s.map_|] == s.map_;
    assert EnvMapped(m, n, env, E, s.map_);
    StageRelated(p, budget, m, n, f, env, [], s1, f', env', [], [], false);
    var none: seq<Value> := [];
    assert none + none == none;
  }

  /** The pass keeps meaning, whatever it is told to inline: every run of the program, with applications for claims or
      with plain claims, is such a run of the inlined program, with the same history and a result that may stand for
      the other. */
  lemma {:induction false} InlinePreserves(p: Policy, budget: nat, m: Machine, n: nat, top: Term, h: History)
    returns (k: nat)
    requires !m.claims.Exact? && top.Fun? && Formed(top) && RunProgram(m, n, top, h).Done?
    ensures Same(m, RunProgram(m, n, top, h), RunProgram(Free(m), k, InlinePass(p, budget, top), h))
    ensures Tangible(Erase(RunProgram(m, n, top, h).value)) ==>
      RunProgram(Free(m), k, InlinePass(p, budget, top), h).value == RunProgram(m, n, top, h).value
  {
    FunRelated(p, budget, m, n, top, State([], [], map[]), [], []);
    k := ProgramRelated(m, n, top, InlinePass(p, budget, top), h);
    var o, q := RunProgram(m, n, top, h), RunProgram(Free(m), k, InlinePass(p, budget, top), h);
    if Tangible(Erase(o.value)) { RelatedData(m, o.left, o.value, q.value); }
  }

  /** The result is a function of the same shape, its parameters still in front and no one-handler destructure left. */
  lemma {:induction false} InlineFormed(p: Policy, budget: nat, top: Term)
    requires top.Fun? && Formed(top)
    ensures var r := InlinePass(p, budget, top);
      Inner(r) && Plural(r) && r.Fun? && Arity(r.terms) == FullArity(top, 0)
  {
    FunTidies(p, budget, top, State([], [], map[]));
  }

  // -------------------------------------------------------- what merging does to claims

  lemma {:induction false} CurriedMore(f: Term, k: nat)
    requires Formed(f) && f.Fun?
    ensures FullArity(f, k) >= Arity(f.terms) >= 1 && (FullArity(f, k) > Arity(f.terms) <==> Curried(f, k))
    decreases f
  {
    if Curried(f, k) { CurriedMore(f.terms[Arity(f.terms)], k + 1 + Arity(f.terms)); }
  }

  /** What a call of f did, as an application or as a plain claim, the same call of the emitted function does.  A
      function that claim_apply may call stays one exactly if it is not curried; a curried one runs before the pass
      and never after it. */
  lemma {:induction false} ClaimKeptIff(p: Policy, budget: nat, m: Machine, n: nat, f: Term, s: State, env: seq<Value>,
                                        env': seq<Value>, a: Value, b: Value, h: History)
    requires f.Fun? && Arity(f.terms) == 1 && Formed(f) && Live(f, s.map_) && Ready(m, n, s, env, env')
    requires Related(m, n, a, b)
    ensures var v, w := VClo(f, env, []), VClo(Emitted(p, budget, f, s), env', []);
      && (Fit(w) <==> !Curried(f, |s.map_|))
      && (Claim(m, n, v, a, h).Done? ==> exists k: nat :: Same(m, Claim(m, n, v, a, h), Claim(Free(m), k, w, b, h)))
      && (Curried(f, |s.map_|) ==> ClaimLost(m, v, w))
  {
    var v, w := VClo(f, env, []), VClo(Emitted(p, budget, f, s), env', []);
    FunTidies(p, budget, f, s);
    CurriedMore(f, |s.map_|);
    FunRelated(p, budget, m, n, f, s, env, env');
    if Claim(m, n, v, a, h).Done? { var k := ClaimCongruent(m, n, v, a, w, b, h); }
    if Curried(f, |s.map_|) { CurriedRuns(m, f, |s.map_|, env); }
  }

  /** Every claim of v by an ordinary machine runs, and no claim of w does. */
  ghost predicate ClaimLost(m: Machine, v: Value, w: Value) {
    && (forall k: nat, a: Value, h: History :: k > 0 ==> Claim(Exactly(Free(m)), k, v, a, h).Done?)
    && (forall k: nat, b: Value, h: History :: Claim(Exactly(Free(m)), k, w, b, h).Fail?)
  }

  lemma {:induction false} CurriedRuns(m: Machine, f: Term, n: nat, env: seq<Value>)
    requires Curried(f, n) && Arity(f.terms) == 1 && |env| == n
    ensures forall k: nat, a: Value, h: History :: k > 0 ==> Claim(Exactly(Free(m)), k, VClo(f, env, []), a, h).Done?
  {
    var M, child := Exactly(Free(m)), f.terms[1];
    assert f.terms[1..] == [child];
    forall k: nat, a: Value, h: History | k > 0 ensures Claim(M, k, VClo(f, env, []), a, h).Done? {
      var none: seq<Value> := [];
      assert none + [a] == [a];
      SingleBody(M, k - 1, child, Entry(f, env, [a]), h);
      assert RunFun(M, k - 1, f, env, [a], h).Done?;
      assert Apply(M, k, VClo(f, env, []), a, h) == RunFun(M, k - 1, f, env, [a], h);
    }
  }

  // ---------------------------------------------------------------- in-place form

  class InlineState {
    var scope: Scope
    var map_: seq<int>
    var pool: map<int, nat>
    const policy: Policy

    constructor (p: Policy)
      ensures scope == [] && map_ == [] && pool == map[] && policy == p
    {
      scope, map_, pool, policy := [], [], map[], p;
    }

    function Snapshot(): State
      reads this
    {
      State(scope, map_, pool)
    }

    method TransferTerm(t: Term)
      modifies this`scope, this`map_
      ensures Snapshot() == Transfer(old(Snapshot()), t)
    {
      scope, map_ := scope + [Closed(t)], map_ + [|scope|];
    }

    method Discard(at: nat)
      modifies this`map_
      ensures Snapshot() == Replace(old(Snapshot()), at)
    {
      map_ := map_ + [at];
    }

    method VisitLit(t: Term)
      requires t.Lit?
      modifies this
      ensures Snapshot() == InlineLit(old(Snapshot()), t)
    {
      var me := |scope|;
      if t.value !in pool {
        pool := pool[t.value := me];
        TransferTerm(t);
      } else {
        var prior := pool[t.value];
        if prior < |scope| && IsLit(scope[prior], t.value) {
          Discard(prior);
        } else {
          pool := pool[t.value := me];
          TransferTerm(t);
        }
      }
    }

    /** Walks a chain of applications to its function, gathering the arguments last first. */
    method Gather(args: seq<nat>) returns (fn: nat, fargs: seq<nat>)
      requires |args| >= 2 && Missing(scope, args[0]) == |args| - 1
      ensures var c := Chain(scope, args[0]); fn == c.fn && fargs == Reversed(c.args + Tail(args))
    {
      var app := args;
      fargs := [];
      ghost var c := Chain(scope, args[0]);
      ghost var tail: seq<nat> := [];
      fn := args[0];
      assert c.args + Tail(args) == c.args + Tail(args) + tail;
      while true
        invariant |app| >= 1 && fn == app[0] && Missing(scope, fn) > 0 && Chain(scope, fn).fn == c.fn
        invariant c.args + Tail(args) == Chain(scope, fn).args + Tail(app) + tail && fargs == Reversed(tail)
        decreases fn
      {
        ghost var before := fargs;
        for i := |app| downto 1
          invariant fargs == before + Reversed(app[i..])
        {
          fargs := fargs + [app[i]];
        }
        tail := Tail(app) + tail;
        if scope[fn].Closed? && scope[fn].term.Redux? && scope[fn].term.op.App? {
          ghost var d := Chain(scope, scope[fn].term.args[0]);
          app := scope[fn].term.args;
          fn := app[0];
          assert c.args + Tail(args) == d.args + Tail(app) + tail;
        } else {
          assert c.args + Tail(args) == tail;
          break;
        }
      }
    }

    /** rapp_inline */
    method VisitApp(budget: nat, flags: Flags, args: seq<nat>)
      modifies this
      ensures Snapshot() == InlineApp(policy, budget, flags, args, old(Snapshot()))
      decreases budget, 2, 0
    {
      if args != [] && |args| != 1 && Missing(scope, args[0]) == |args| - 1 {
        var fn, fargs := Gather(args);
        ghost var all := Chain(scope, args[0]).args + Tail(args);
        if budget > 0 && Inlinable(scope, fn) && policy(budget, scope, fn) {
          CallInPlace(budget - 1, fn, fargs, all);
        } else {
          var flat := Flatten(fn, fargs, all);
          TransferTerm(Redux(flags, App, flat));
        }
      } else {
        TransferTerm(Redux(flags, App, args));
      }
    }

    method Flatten(fn: nat, fargs: seq<nat>, ghost all: seq<nat>) returns (flat: seq<nat>)
      requires fargs == Reversed(all)
      ensures flat == [fn] + all
    {
      flat := [fn];
      for i := |fargs| downto 0
        invariant flat == [fn] + all[..|fargs| - i]
      {
        flat := flat + [fargs[i]];
      }
      assert all[..|fargs|] == all;
    }

    method CallInPlace(budget: nat, fn: nat, fargs: seq<nat>, ghost all: seq<nat>)
      requires Inlinable(scope, fn) && fargs == Reversed(all)
      modifies this
      ensures Snapshot() == Called(policy, budget, fn, all, old(Snapshot()))
      decreases budget, 5
    {
      var n, f, caller := |fargs|, scope[fn].term, map_;
      map_ := Upto(fn) + [-1];
      for i := 0 to n
        invariant scope == old(scope) && pool == old(pool) && map_ == Upto(fn) + [-1] + AsInts(all[..i])
      {
        Discard(fargs[n - 1 - i]);
      }
      assert all[..n] == all;
      VisitBody(budget, f.terms[Arity(f.terms)..]);
      var output := Look(map_, f.output);
      map_ := caller;
      Discard(output);
    }

    method VisitRedux(budget: nat, t: Term)
      requires t.Redux?
      modifies this
      ensures Snapshot() == InlineRedux(policy, budget, t, old(Snapshot()))
      decreases budget, 3, 0
    {
      var args := LookAll(map_, t.args);
      var t' := t.(args := args);
      match t.op {
        case App => VisitApp(budget, t.flags, args);
        case Prim(_, _) => TransferTerm(t');
        case Get(i) =>
          if |args| == 1 && IsCon(scope, args[0]) && i < |scope[args[0]].term.args| {
            Discard(scope[args[0]].term.args[i]);
          } else {
            TransferTerm(t');
          }
        case Des =>
          var call := Handled(args);
          if call != [] { VisitApp(budget, t.flags, call); } else { TransferTerm(t'); }
        case Con(_) => TransferTerm(t');
      }
    }

    /** The test of RDes::pass_inline: one handler for all constructors, or a known constructor. */
    method Handled(args: seq<nat>) returns (call: seq<nat>)
      ensures call == Handler(scope, args)
    {
      if |args| < 2 { return []; }
      var same, obj := true, args[|args| - 1];
      for i := 1 to |args| - 1
        invariant same <==> forall j :: 0 <= j < i ==> args[j] == args[0]
      {
        same := same && args[0] == args[i];
      }
      if same {
        call := [args[0], obj];
      } else if IsCon(scope, obj) && scope[obj].term.op.cons.index < |args| - 1 {
        call := [args[scope[obj].term.op.cons.index], obj];
      } else {
        call := [];
      }
    }

    method VisitTerm(budget: nat, t: Term)
      modifies this
      ensures Snapshot() == InlineTerm(policy, budget, t, old(Snapshot()))
      decreases budget, 4, t, 2
    {
      match t {
        case Arg(_) => TransferTerm(t);
        case Lit(_, _) => VisitLit(t);
        case Redux(_, _, _) => VisitRedux(budget, t);
        case Fun(_, _, _, _) => VisitFun(budget, t);
      }
    }

    /** RFun::pass_inline */
    method VisitFun(budget: nat, f: Term)
      requires f.Fun?
      modifies this
      ensures Snapshot() == InlineFun(policy, budget, f, old(Snapshot()))
      decreases budget, 4, f, 1
    {
      var outer, names := scope, map_;
      scope, map_ := outer + [Open(FullArity(f, |names|))], names + [|outer|];
      ghost var start := Snapshot();
      var g := f;
      while Curried(g, |map_| - 1)
        invariant g.Fun? && map_ != [] && (g == f || g < f)
        invariant InlineCurried(policy, budget, g, Snapshot()) == InlineCurried(policy, budget, f, start)
        decreases g
      {
        EnterArgs(g.terms[..Arity(g.terms)]);
        map_ := map_ + [-1];
        g := g.terms[Arity(g.terms)];
      }
      EnterArgs(g.terms[..Arity(g.terms)]);
      VisitBody(budget, g.terms[Arity(g.terms)..]);
      var f' := Fun(f.flags, f.meta, Terms(scope, |outer| + 1), Look(map_, g.output));
      scope, map_ := outer, names;
      TransferTerm(f');
    }

    method EnterArgs(ts: seq<Term>)
      modifies this
      ensures Snapshot() == TransferAll(old(Snapshot()), ts)
    {
      for i := 0 to |ts|
        invariant Snapshot() == TransferAll(old(Snapshot()), ts[..i])
      {
        assert ts[..i + 1][..i] == ts[..i];
        TransferTerm(ts[i]);
      }
      assert ts[..|ts|] == ts;
    }

    method VisitBody(budget: nat, ts: seq<Term>)
      modifies this
      ensures Snapshot() == InlineBody(policy, budget, ts, old(Snapshot()))
      decreases budget, 4, ts, 0
    {
      for i := 0 to |ts|
        invariant Snapshot() == InlineBody(policy, budget, ts[..i], old(Snapshot()))
      {
        assert ts[..i + 1][..i] == ts[..i];
        VisitTerm(budget, ts[i]);
      }
      assert ts[..|ts|] == ts;
    }
  }

  method PassInline(p: Policy, budget: nat, top: Term) returns (r: Term)
    requires top.Fun?
    ensures r == InlinePass(p, budget, top)
  {
    var pass := new InlineState(p);
    pass.VisitFun(budget, top);
    r := pass.scope[0].term;
  }
}
