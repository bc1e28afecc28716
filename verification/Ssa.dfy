/** The SSA form of the optimizer and a strict evaluator for it.

    A function is a list of terms; a term names earlier terms by flat index.
    The function at index k sees indices 0..k-1 of its surroundings, itself at k,
    and its own terms from k+1 on.  An index is therefore a position in the
    environment, which grows by one value per term.
 */
module Ssa {
  import opened Sequences

  datatype Flags = Flags(recursive: bool, ordered: bool, effect: bool, used: bool, singleton: bool)

  /** The four flag combinations a primitive is registered with. */
  datatype PrimKind = Pure | Ordered | Impure | FnArg

  datatype Kind = Kind(name: string, index: nat)

  datatype Op =
    | App
    | Prim(name: string, kind: PrimKind)
    | Get(index: nat)
    | Des
    | Con(cons: Kind)

  const WIDTH: nat := 64

  /** A machine word, bit 0 first. */
  type Mask = s: seq<bool> | |s| == WIDTH witness seq(WIDTH, _ => true)

  datatype Term =
    | Arg(flags: Flags)
    | Lit(flags: Flags, value: int)
    | Redux(flags: Flags, op: Op, args: seq<nat>)
    | Fun(flags: Flags, meta: Mask, terms: seq<Term>, output: nat)

  /** A closure remembers the arguments it has, and whether a call has returned it. */
  datatype Value =
    | VLit(value: int)
    | VCon(cons: Kind, fields: seq<Value>)
    | VClo(fun: Term, env: seq<Value>, applied: seq<Value>, returned: bool := false)

  /** What a primitive can see of a value: closures are opaque to it. */
  datatype Data = DLit(value: int) | DCon(cons: Kind, fields: seq<Data>) | DClosure

  datatype Event = Event(name: string, args: seq<Data>)

  type History = seq<Event>

  /** Which promise of the flags an evaluation insists on. */
  datatype Check = NoCheck | CheckEffect | CheckOrder

  /** How functions are called that the runtime calls by claim_apply.
      Exact: as the runtime does, which gets stuck on a function that is not fit for it.
      Plain: insisting besides that the function was not returned by a call and returns no function; a destructure
      with one handler is an application here, for the inliner makes it one.
      Loose: by an ordinary application, whatever the function. */
  datatype ClaimMode = Exact | Plain | Loose

  /** The meaning of the primitives, the promise insisted on, and how handlers and target bodies are called. */
  datatype Machine = Machine(run: (string, seq<Data>, History) -> Data, check: Check, claims: ClaimMode)

  datatype Outcome = Done(value: Value, hist: History, left: nat) | Fail

  datatype BodyOutcome = BodyDone(env: seq<Value>, hist: History, left: nat) | BodyFail

  function Free(m: Machine): Machine {
    m.(check := NoCheck)
  }

  /** Where the parameters from i on end. */
  function ArityFrom(terms: seq<Term>, i: nat): (n: nat)
    requires i <= |terms|
    ensures i <= n <= |terms| && (forall k :: i <= k < n ==> terms[k].Arg?) && (n < |terms| ==> !terms[n].Arg?)
    decreases |terms| - i
  {
    if i < |terms| && terms[i].Arg? then ArityFrom(terms, i + 1) else i
  }

  /** RFun::args: the number of leading parameters. */
  function Arity(terms: seq<Term>): (n: nat)
    ensures n <= |terms|
  {
    ArityFrom(terms, 0)
  }

  function Erase(v: Value): Data {
    match v
    case VLit(x) => DLit(x)
    case VCon(k, fs) => DCon(k, EraseAll(fs))
    case VClo(_, _, _, _) => DClosure
  }

  function EraseAll(vs: seq<Value>): (ds: seq<Data>)
    ensures |ds| == |vs|
  {
    if vs == [] then [] else EraseAll(vs[..|vs| - 1]) + [Erase(vs[|vs| - 1])]
  }

  predicate Tangible(d: Data) {
    match d
    case DLit(_) => true
    case DCon(_, fs) => forall f <- fs :: Tangible(f)
    case DClosure => false
  }

  function Embed(d: Data): Value {
    match d
    case DLit(x) => VLit(x)
    case DCon(k, fs) => VCon(k, seq(|fs|, i requires 0 <= i < |fs| => Embed(fs[i])))
    case DClosure => VLit(0)
  }

  predicate InRange(args: seq<nat>, n: nat) {
    forall i :: 0 <= i < |args| ==> args[i] < n
  }

  function Select(env: seq<Value>, args: seq<nat>): (vs: seq<Value>)
    requires InRange(args, |env|)
    ensures |vs| == |args|
    ensures forall i :: 0 <= i < |args| ==> vs[i] == env[args[i]]
  {
    seq(|args|, i requires 0 <= i < |args| => env[args[i]])
  }

  /** x is one of the indices the term refers to, at any depth. */
  predicate Mentions(t: Term, x: nat)
    decreases t
  {
    match t
    case Arg(_) => false
    case Lit(_, _) => false
    case Redux(_, _, args) => x in args
    case Fun(_, _, terms, output) => x == output || exists i :: 0 <= i < |terms| && Mentions(terms[i], x)
  }

  // ---------------------------------------------------------------- evaluation

  /** One more argument for a closure.  The last missing one runs the body, in an
      environment of the captured values, the closure itself and the arguments. */
  ghost function Apply(m: Machine, fuel: nat, f: Value, a: Value, h: History): (o: Outcome)
    ensures o.Done? ==> o.left < fuel
    decreases fuel, 0, 0
  {
    if fuel == 0 || !f.VClo? || !f.fun.Fun? then Fail else
    var arity := Arity(f.fun.terms);
    var applied := f.applied + [a];
    if |applied| == arity
    then RunFun(m, fuel - 1, f.fun, f.env, applied, h)
    else Done(VClo(f.fun, f.env, applied), h, fuel - 1)
  }

  function Returned(v: Value): Value {
    if v.VClo? then v.(returned := true) else v
  }

  /** What runtime.h demands of the callee of claim_apply: one parameter, and no argument yet. */
  predicate Fit(f: Value) {
    f.VClo? && f.fun.Fun? && Arity(f.fun.terms) == 1 && f.applied == []
  }

  predicate Claimable(m: Machine, f: Value) {
    m.claims.Loose? || (Fit(f) && (m.claims.Plain? ==> !f.returned))
  }

  /** claim_apply: the frame gets the one argument and the body is run.  With another number of parameters
      the body would find a slot never filled, with arguments already applied the wrong frames. */
  ghost function Claim(m: Machine, fuel: nat, f: Value, a: Value, h: History): (o: Outcome)
    ensures o.Done? ==> o.left < fuel
    decreases fuel, 1, 0
  {
    if !Claimable(m, f) then Fail else
    var o := Apply(m, fuel, f, a, h);
    if m.claims.Plain? && o.Done? && o.value.VClo? then Fail else o
  }

  /** A destructure calls the handler of its object's constructor. */
  ghost function Handle(m: Machine, fuel: nat, handlers: seq<Value>, obj: Value, h: History): (o: Outcome)
    ensures o.Done? ==> o.left < fuel
    decreases fuel, 1, 1
  {
    if !obj.VCon? || obj.cons.index >= |handlers| then Fail
    else if m.claims.Plain? && |handlers| == 1 then Apply(m, fuel, handlers[0], obj, h)
    else Claim(m, fuel, handlers[obj.cons.index], obj, h)
  }

  /** The body of a function whose parameters are all known. */
  ghost function RunFun(m: Machine, fuel: nat, fun: Term, env: seq<Value>, args: seq<Value>, h: History): (o: Outcome)
    requires fun.Fun?
    ensures o.Done? ==> o.left <= fuel
    decreases fuel, 6, 0
  {
    var b := EvalBody(m, fuel, fun.terms[Arity(fun.terms)..], Entry(fun, env, args), h);
    if b.BodyDone? && fun.output < |b.env|
    then Done(Returned(b.env[fun.output]), b.hist, b.left)
    else Fail
  }

  function Entry(fun: Term, env: seq<Value>, args: seq<Value>): seq<Value> {
    env + [VClo(fun, env, [])] + args
  }

  ghost function ApplyAll(m: Machine, fuel: nat, f: Value, args: seq<Value>, h: History): (o: Outcome)
    ensures o.Done? ==> o.left <= fuel
    decreases fuel, 1, |args|
  {
    if args == [] then Done(f, h, fuel) else
    var o := ApplyAll(m, fuel, f, args[..|args| - 1], h);
    if o.Done? then Apply(m, o.left, o.value, args[|args| - 1], o.hist) else Fail
  }

  ghost function EvalOp(m: Machine, fuel: nat, op: Op, vs: seq<Value>, h: History): (o: Outcome)
    ensures o.Done? ==> o.left <= fuel
    decreases fuel, 2, 0
  {
    match op
    case App =>
      if vs == [] then Fail else ApplyAll(m, fuel, vs[0], Tail(vs), h)
    case Prim(name, kind) =>
      if kind.FnArg? then
        if |vs| < 2 then Fail else Claim(m, fuel, vs[1], vs[0], h)
      else
        var ds := EraseAll(vs);
        var r := m.run(name, ds, if kind.Pure? then [] else h);
        if Tangible(r)
        then Done(Embed(r), if kind.Impure? then h + [Event(name, ds)] else h, fuel)
        else Fail
    case Get(i) =>
      if |vs| == 1 && vs[0].VCon? && i < |vs[0].fields| then Done(vs[0].fields[i], h, fuel) else Fail
    case Des =>
      if vs == [] then Fail else Handle(m, fuel, vs[..|vs| - 1], vs[|vs| - 1], h)
    case Con(k) =>
      Done(VCon(k, vs), h, fuel)
  }

  /** A run that insists on effect flags fails where an unflagged term changes the history;
      one that insists on order flags, where an unflagged term changes it or depends on it. */
  ghost predicate Honoured(m: Machine, fuel: nat, flags: Flags, op: Op, vs: seq<Value>, h: History)
    decreases fuel, 3, 0
  {
    var o := EvalOp(m, fuel, op, vs, h);
    match m.check
    case NoCheck => true
    case CheckEffect => o.Done? && !flags.effect ==> o.hist == h
    case CheckOrder => o.Done? && !flags.ordered ==>
      forall h2: History :: EvalOp(m, fuel, op, vs, h2) == Done(o.value, h2, o.left)
  }

  ghost function EvalTerm(m: Machine, fuel: nat, t: Term, env: seq<Value>, h: History): (o: Outcome)
    ensures o.Done? ==> o.left <= fuel
    decreases fuel, 4, 0
  {
    match t
    case Arg(_) => Fail
    case Lit(_, x) => Done(VLit(x), h, fuel)
    case Fun(_, _, _, _) => Done(VClo(t, env, []), h, fuel)
    case Redux(flags, op, args) =>
      if InRange(args, |env|) then
        var vs := Select(env, args);
        if Honoured(m, fuel, flags, op, vs, h) then EvalOp(m, fuel, op, vs, h) else Fail
      else Fail
  }

  ghost function EvalBody(m: Machine, fuel: nat, ts: seq<Term>, env: seq<Value>, h: History): (b: BodyOutcome)
    ensures b.BodyDone? ==> b.left <= fuel && |b.env| == |env| + |ts| && b.env[..|env|] == env
    decreases fuel, 5, |ts|
  {
    if ts == [] then BodyDone(env, h, fuel) else
    var b := EvalBody(m, fuel, ts[..|ts| - 1], env, h);
    if b.BodyFail? then BodyFail else
    var o := EvalTerm(m, b.left, ts[|ts| - 1], b.env, b.hist);
    if o.Done? then BodyDone(b.env + [o.value], o.hist, o.left) else BodyFail
  }

  /** A program is a function that claim_apply hands its own closure. */
  ghost function RunProgram(m: Machine, fuel: nat, top: Term, h: History): Outcome {
    Claim(m, fuel, VClo(top, [], []), VClo(top, [], []), h)
  }

  /** A destructure that ends is a call of a handler. */
  lemma {:induction false} DesIsCall(m: Machine, n: nat, vs: seq<Value>, h: History)
    requires EvalOp(m, n, Des, vs, h).Done?
    ensures |vs| >= 2 && vs[|vs| - 1].VCon? && vs[|vs| - 1].cons.index < |vs| - 1
    ensures var obj := vs[|vs| - 1]; EvalOp(m, n, Des, vs, h) == Apply(m, n, vs[obj.cons.index], obj, h)
  {
    assert Handle(m, n, vs[..|vs| - 1], vs[|vs| - 1], h).Done?;
  }

  // ------------------------------------------------- more fuel changes nothing

  lemma {:induction false} ApplyMore(m: Machine, k: nat, d: nat, f: Value, a: Value, h: History)
    requires m.check.NoCheck?
    requires Apply(m, k, f, a, h).Done?
    ensures Apply(m, k + d, f, a, h) == Apply(m, k, f, a, h).(left := Apply(m, k, f, a, h).left + d)
    decreases k, 0, 0
  {
    var arity, applied := Arity(f.fun.terms), f.applied + [a];
    if |applied| == arity {
      BodyMore(m, k - 1, d, f.fun.terms[arity..], Entry(f.fun, f.env, applied), h);
    }
  }

  lemma {:induction false} ClaimMore(m: Machine, k: nat, d: nat, f: Value, a: Value, h: History)
    requires m.check.NoCheck?
    requires Claim(m, k, f, a, h).Done?
    ensures Claim(m, k + d, f, a, h) == Claim(m, k, f, a, h).(left := Claim(m, k, f, a, h).left + d)
    decreases k, 1, 0
  {
    ApplyMore(m, k, d, f, a, h);
  }

  lemma {:induction false} ApplyAllMore(m: Machine, k: nat, d: nat, f: Value, args: seq<Value>, h: History)
    requires m.check.NoCheck?
    requires ApplyAll(m, k, f, args, h).Done?
    ensures ApplyAll(m, k + d, f, args, h) == ApplyAll(m, k, f, args, h).(left := ApplyAll(m, k, f, args, h).left + d)
    decreases k, 1, |args|
  {
    if args != [] {
      var init := args[..|args| - 1];
      ApplyAllMore(m, k, d, f, init, h);
      var o := ApplyAll(m, k, f, init, h);
      ApplyMore(m, o.left, d, o.value, args[|args| - 1], o.hist);
    }
  }

  lemma {:induction false} OpMore(m: Machine, k: nat, d: nat, op: Op, vs: seq<Value>, h: History)
    requires m.check.NoCheck?
    requires EvalOp(m, k, op, vs, h).Done?
    ensures EvalOp(m, k + d, op, vs, h) == EvalOp(m, k, op, vs, h).(left := EvalOp(m, k, op, vs, h).left + d)
    decreases k, 2, 0
  {
    match op
    case App => ApplyAllMore(m, k, d, vs[0], Tail(vs), h);
    case Prim(_, kind) => if kind.FnArg? { ClaimMore(m, k, d, vs[1], vs[0], h); }
    case Get(_) =>
    case Des => HandleMore(m, k, d, vs[..|vs| - 1], vs[|vs| - 1], h);
    case Con(_) =>
  }

  lemma {:induction false} HandleMore(m: Machine, k: nat, d: nat, handlers: seq<Value>, obj: Value, h: History)
    requires m.check.NoCheck?
    requires Handle(m, k, handlers, obj, h).Done?
    ensures Handle(m, k + d, handlers, obj, h) ==
      Handle(m, k, handlers, obj, h).(left := Handle(m, k, handlers, obj, h).left + d)
    decreases k, 1, 1
  {
    ApplyMore(m, k, d, handlers[obj.cons.index], obj, h);
  }

  lemma {:induction false} TermMore(m: Machine, k: nat, d: nat, t: Term, env: seq<Value>, h: History)
    requires m.check.NoCheck?
    requires EvalTerm(m, k, t, env, h).Done?
    ensures EvalTerm(m, k + d, t, env, h) == EvalTerm(m, k, t, env, h).(left := EvalTerm(m, k, t, env, h).left + d)
    decreases k, 4, 0
  {
    if t.Redux? { OpMore(m, k, d, t.op, Select(env, t.args), h); }
  }

  lemma {:induction false} BodyMore(m: Machine, k: nat, d: nat, ts: seq<Term>, env: seq<Value>, h: History)
    requires m.check.NoCheck?
    requires EvalBody(m, k, ts, env, h).BodyDone?
    ensures EvalBody(m, k + d, ts, env, h) == EvalBody(m, k, ts, env, h).(left := EvalBody(m, k, ts, env, h).left + d)
    decreases k, 5, |ts|
  {
    if ts != [] {
      var init := ts[..|ts| - 1];
      BodyMore(m, k, d, init, env, h);
      var b := EvalBody(m, k, init, env, h);
      TermMore(m, b.left, d, ts[|ts| - 1], b.env, b.hist);
    }
  }

  /** A body run and a run of one more term make a run of the longer body. */
  lemma {:induction false} BodySnoc(m: Machine, k: nat, j: nat, ts: seq<Term>, t: Term, env: seq<Value>, h: History)
    requires m.check.NoCheck? && EvalBody(m, k, ts, env, h).BodyDone?
    requires var b := EvalBody(m, k, ts, env, h); EvalTerm(m, j, t, b.env, b.hist).Done?
    ensures var b := EvalBody(m, k, ts, env, h);
      var o := EvalTerm(m, j, t, b.env, b.hist);
      EvalBody(m, k + j, ts + [t], env, h) == BodyDone(b.env + [o.value], o.hist, b.left + o.left)
  {
    var b := EvalBody(m, k, ts, env, h);
    BodyMore(m, k, j, ts, env, h);
    TermMore(m, j, b.left, t, b.env, b.hist);
    assert (ts + [t])[..|ts|] == ts;
  }

  // ---------------------------------------------- ordinary applications do what claims do

  function Exactly(m: Machine): Machine {
    m.(claims := Exact)
  }

  function Plainly(m: Machine): Machine {
    m.(claims := Plain)
  }

  function Loosely(m: Machine): Machine {
    m.(claims := Loose)
  }

  /** What ends on a machine that asks something of the functions it claims ends the same way on one that does not. */
  lemma {:induction false} LooseApply(m: Machine, k: nat, f: Value, a: Value, h: History)
    requires m.check.NoCheck? && Apply(m, k, f, a, h).Done?
    ensures Apply(Loosely(m), k, f, a, h) == Apply(m, k, f, a, h)
    decreases k, 0, 0
  {
    var arity, applied := Arity(f.fun.terms), f.applied + [a];
    if |applied| == arity { LooseBody(m, k - 1, f.fun.terms[arity..], Entry(f.fun, f.env, applied), h); }
  }

  lemma {:induction false} LooseClaim(m: Machine, k: nat, f: Value, a: Value, h: History)
    requires m.check.NoCheck? && Claim(m, k, f, a, h).Done?
    ensures Claim(Loosely(m), k, f, a, h) == Claim(m, k, f, a, h)
    decreases k, 1, 0
  {
    LooseApply(m, k, f, a, h);
  }

  lemma {:induction false} LooseApplyAll(m: Machine, k: nat, f: Value, args: seq<Value>, h: History)
    requires m.check.NoCheck? && ApplyAll(m, k, f, args, h).Done?
    ensures ApplyAll(Loosely(m), k, f, args, h) == ApplyAll(m, k, f, args, h)
    decreases k, 1, |args|
  {
    if args != [] {
      var init := args[..|args| - 1];
      LooseApplyAll(m, k, f, init, h);
      var o := ApplyAll(m, k, f, init, h);
      LooseApply(m, o.left, o.value, args[|args| - 1], o.hist);
    }
  }

  lemma {:induction false} LooseHandle(m: Machine, k: nat, handlers: seq<Value>, obj: Value, h: History)
    requires m.check.NoCheck? && Handle(m, k, handlers, obj, h).Done?
    ensures Handle(Loosely(m), k, handlers, obj, h) == Handle(m, k, handlers, obj, h)
    decreases k, 1, 1
  {
    LooseApply(m, k, handlers[obj.cons.index], obj, h);
  }

  lemma {:induction false} LooseTerm(m: Machine, k: nat, t: Term, env: seq<Value>, h: History)
    requires m.check.NoCheck? && EvalTerm(m, k, t, env, h).Done?
    ensures EvalTerm(Loosely(m), k, t, env, h) == EvalTerm(m, k, t, env, h)
    decreases k, 4, 0
  {
    if t.Redux? {
      var vs := Select(env, t.args);
      match t.op
      case App => LooseApplyAll(m, k, vs[0], Tail(vs), h);
      case Prim(_, kind) => if kind.FnArg? { LooseClaim(m, k, vs[1], vs[0], h); }
      case Get(_) =>
      case Des => LooseHandle(m, k, vs[..|vs| - 1], vs[|vs| - 1], h);
      case Con(_) =>
    }
  }

  lemma {:induction false} LooseBody(m: Machine, k: nat, ts: seq<Term>, env: seq<Value>, h: History)
    requires m.check.NoCheck? && EvalBody(m, k, ts, env, h).BodyDone?
    ensures EvalBody(Loosely(m), k, ts, env, h) == EvalBody(m, k, ts, env, h)
    decreases k, 5, |ts|
  {
    if ts != [] {
      var init := ts[..|ts| - 1];
      LooseBody(m, k, init, env, h);
      var b := EvalBody(m, k, init, env, h);
      LooseTerm(m, b.left, ts[|ts| - 1], b.env, b.hist);
    }
  }

  function CountArgs(ts: seq<Term>): (n: nat)
    ensures n <= |ts|
  {
    if ts == [] then 0 else CountArgs(ts[..|ts| - 1]) + if ts[|ts| - 1].Arg? then 1 else 0
  }
}
