/** The purity pass: which terms may be dropped (effect) or merged (order).

    Bit i of a term's word says that applying its value for the i-th time does
    nothing observable; bit 0 speaks of evaluating the term itself.
 */
module Purity {
  import opened Sequences
  import opened Ssa
  import opened SsaRelation

  datatype Pass = EffectPass | OrderPass

  function Fill(bit: bool): (x: Mask)
    ensures forall i :: 0 <= i < WIDTH ==> x[i] == bit
  {
    seq(WIDTH, _ => bit)
  }

  const ONES: Mask := Fill(true)
  const ZERO: Mask := Fill(false)
  const ONE: Mask := Fill(false)[0 := true]

  function Shr(x: Mask): Mask {
    x[1..] + [false]
  }

  function And(x: Mask, y: Mask): Mask {
    seq(WIDTH, i requires 0 <= i < WIDTH => x[i] && y[i])
  }

  function FilterLowest(x: Mask): Mask {
    ONES[0 := x[0]]
  }

  /** (x << args) | ((1 << args) - 1) */
  function UnderLambda(x: Mask, args: nat): Mask {
    seq(WIDTH, i requires 0 <= i < WIDTH => if i < args then true else x[i - args])
  }

  /** RApp: each argument consumes a bit, and any consumed zero stays visible in bit 0. */
  function AppMask(x: Mask, args: nat): Mask {
    if args == 0 then x else
    var acc := AppMask(x, args - 1);
    And(Shr(acc), FilterLowest(acc))
  }

  function AndAll(ms: seq<Mask>): Mask {
    if ms == [] then ONES else And(AndAll(ms[..|ms| - 1]), ms[|ms| - 1])
  }

  predicate Impurity(pass: Pass, kind: PrimKind) {
    kind.Impure? || (pass.OrderPass? && kind.Ordered?)
  }

  function OpMask(pass: Pass, op: Op, ms: seq<Mask>): Mask {
    match op
    case App => if ms == [] then ZERO else AppMask(ms[0][0 := true], |ms| - 1)
    case Prim(_, kind) =>
      if kind.FnArg? then (if |ms| < 2 then ZERO else Shr(ms[1]))
      else if Impurity(pass, kind) then ZERO else ONE
    case Get(_) => ONE
    case Des => if ms == [] then ZERO else Shr(AndAll(ms[..|ms| - 1]))
    case Con(_) => ONE
  }

  function SetFlag(pass: Pass, flags: Flags, value: bool): Flags {
    match pass
    case EffectPass => flags.(effect := value)
    case OrderPass => flags.(ordered := value)
  }

  function PickMasks(scope: seq<Mask>, args: seq<nat>): (ms: seq<Mask>)
    requires InRange(args, |scope|)
    ensures |ms| == |args|
    ensures forall i :: 0 <= i < |args| ==> ms[i] == scope[args[i]]
  {
    seq(|args|, i requires 0 <= i < |args| => scope[args[i]])
  }

  predicate Clean(ms: seq<Mask>, from: nat) {
    forall i :: from <= i < |ms| ==> ms[i][0]
  }

  /** One visit to a term: the term with its flag and scratch words rewritten, and its own word.
      `first` makes a function assume the best of its own recursive uses. */
  function PurityTerm(pass: Pass, first: bool, t: Term, scope: seq<Mask>): (Term, Mask)
    decreases t, 1
  {
    match t
    case Arg(flags) => (Arg(SetFlag(pass, flags, true)), ONE)
    case Lit(_, _) => (t, ONE)
    case Redux(flags, op, args) =>
      var mask := if InRange(args, |scope|) then OpMask(pass, op, PickMasks(scope, args)) else ZERO;
      if op.Get? || op.Con? then (t, mask)
      else (Redux(SetFlag(pass, flags, !mask[0]), op, args), mask)
    case Fun(flags, meta, terms, output) =>
      var body := PurityBody(pass, first, terms, scope + [if first then ONES else meta]);
      var meta' := FunMask(terms, Clean(body.1, |scope| + 1), output, body.1);
      (Fun(flags, meta', body.0, output), meta')
  }

  function FunMask(terms: seq<Term>, clean: bool, output: nat, scope: seq<Mask>): Mask {
    if output < |scope|
    then UnderLambda(And(FilterLowest(ZERO[0 := clean]), scope[output]), CountArgs(terms))
    else ZERO
  }

  function PurityBody(pass: Pass, first: bool, ts: seq<Term>, scope: seq<Mask>): (r: (seq<Term>, seq<Mask>))
    ensures |r.0| == |ts| && |r.1| == |scope| + |ts| && r.1[..|scope|] == scope
    decreases ts, 0
  {
    if ts == [] then ([], scope) else
    var body := PurityBody(pass, first, ts[..|ts| - 1], scope);
    var last := PurityTerm(pass, first, ts[|ts| - 1], body.1);
    (body.0 + [last.0], body.1 + [last.1])
  }

  // ------------------------------------------------------------------ soundness

  /** The flags of t are what one more visit would compute. */
  predicate Settled(pass: Pass, t: Term, scope: seq<Mask>) {
    PurityTerm(pass, false, t, scope).0 == t
  }

  predicate Insists(pass: Pass, m: Machine) {
    match pass
    case EffectPass => m.check.CheckEffect?
    case OrderPass => m.check.CheckOrder?
  }

  /** v keeps the promises of its word for n more calls, and a checked machine agrees
      with an unchecked one about it.  Nothing is assumed of the arguments' own calls. */
  ghost predicate Safe(m: Machine, n: nat, mask: Mask, v: Value)
    decreases n, v
  {
    match v
    case VLit(_) => true
    case VCon(_, fs) => forall i :: 0 <= i < |fs| ==> Safe(m, n, ONE, fs[i])
    case VClo(_, _, _, _) =>
      forall k: nat, a: Value, h: History | k < n && Safe(m, k, ONE, a) :: CallSafe(m, k, mask, v, a, h)
  }

  ghost predicate CallSafe(m: Machine, k: nat, mask: Mask, v: Value, a: Value, h: History)
    decreases k
  {
    var o := Apply(Free(m), k + 1, v, a, h);
    o.Done? ==>
      && Apply(m, k + 1, v, a, h) == o
      && (mask[1] ==> QuietCall(m, k + 1, v, a, h))
      && Safe(m, o.left, Shr(mask), o.value)
  }

  /** Nothing observable happens, in the sense machine m insists on. */
  ghost predicate QuietCall(m: Machine, k: nat, v: Value, a: Value, h: History) {
    var o := Apply(m, k, v, a, h);
    o.Done? && match m.check
      case NoCheck => true
      case CheckEffect => o.hist == h
      case CheckOrder => forall h2: History :: Apply(m, k, v, a, h2) == Done(o.value, h2, o.left)
  }

  ghost predicate QuietOp(m: Machine, k: nat, op: Op, vs: seq<Value>, h: History) {
    var o := EvalOp(m, k, op, vs, h);
    o.Done? && match m.check
      case NoCheck => true
      case CheckEffect => o.hist == h
      case CheckOrder => forall h2: History :: EvalOp(m, k, op, vs, h2) == Done(o.value, h2, o.left)
  }

  ghost predicate QuietCalls(m: Machine, k: nat, v: Value, vs: seq<Value>, h: History) {
    var o := ApplyAll(m, k, v, vs, h);
    o.Done? && match m.check
      case NoCheck => true
      case CheckEffect => o.hist == h
      case CheckOrder => forall h2: History :: ApplyAll(m, k, v, vs, h2) == Done(o.value, h2, o.left)
  }

  ghost predicate QuietTerm(m: Machine, k: nat, t: Term, env: seq<Value>, h: History) {
    var o := EvalTerm(m, k, t, env, h);
    o.Done? && match m.check
      case NoCheck => true
      case CheckEffect => o.hist == h
      case CheckOrder => forall h2: History :: EvalTerm(m, k, t, env, h2) == Done(o.value, h2, o.left)
  }

  ghost predicate QuietBody(m: Machine, k: nat, ts: seq<Term>, env: seq<Value>, h: History) {
    var b := EvalBody(m, k, ts, env, h);
    b.BodyDone? && match m.check
      case NoCheck => true
      case CheckEffect => b.hist == h
      case CheckOrder => forall h2: History :: EvalBody(m, k, ts, env, h2) == BodyDone(b.env, h2, b.left)
  }

  ghost predicate QuietRun(m: Machine, k: nat, f: Term, env: seq<Value>, xs: seq<Value>, h: History)
    requires f.Fun?
  {
    var o := RunFun(m, k, f, env, xs, h);
    o.Done? && match m.check
      case NoCheck => true
      case CheckEffect => o.hist == h
      case CheckOrder => forall h2: History :: RunFun(m, k, f, env, xs, h2) == Done(o.value, h2, o.left)
  }

  ghost predicate EnvSafe(m: Machine, n: nat, scope: seq<Mask>, env: seq<Value>) {
    |scope| == |env| && forall i :: 0 <= i < |env| ==> Safe(m, n, scope[i], env[i])
  }

  lemma {:induction false} SafeWeaken(m: Machine, n: nat, k: nat, mask: Mask, mask': Mask, v: Value)
    requires Safe(m, n, mask, v) && k <= n
    requires forall i :: 1 <= i < WIDTH && mask'[i] ==> mask[i]
    ensures Safe(m, k, mask', v)
    decreases k, v
  {
    match v
    case VLit(_) =>
    case VCon(_, fs) =>
      forall i | 0 <= i < |fs| ensures Safe(m, k, ONE, fs[i]) { SafeWeaken(m, n, k, ONE, ONE, fs[i]); }
    case VClo(_, _, _, _) =>
      forall j: nat, a, h | j < k && Safe(m, j, ONE, a) ensures CallSafe(m, j, mask', v, a, h) {
        assert CallSafe(m, j, mask, v, a, h);
        var o := Apply(Free(m), j + 1, v, a, h);
        if o.Done? { SafeWeaken(m, o.left, o.left, Shr(mask), Shr(mask'), o.value); }
      }
  }

  lemma {:induction false} CallSound(m: Machine, n: nat, mask: Mask, v: Value, maskA: Mask, a: Value, h: History)
    requires Safe(m, n, mask, v) && Safe(m, n, maskA, a) && Apply(Free(m), n, v, a, h).Done?
    ensures var o := Apply(Free(m), n, v, a, h);
      && Apply(m, n, v, a, h) == o
      && (mask[1] ==> QuietCall(m, n, v, a, h))
      && Safe(m, o.left, Shr(mask), o.value)
  {
    SafeWeaken(m, n, n - 1, maskA, ONE, a);
    assert CallSafe(m, n - 1, mask, v, a, h);
  }

  lemma {:induction false} HandleSound(m: Machine, n: nat, mask: Mask, vs: seq<Value>, maskA: Mask, obj: Value,
                                       h: History)
    requires Handle(Free(m), n, vs, obj, h).Done?
    requires Safe(m, n, mask, vs[obj.cons.index]) && Safe(m, n, maskA, obj)
    ensures var o := Handle(Free(m), n, vs, obj, h);
      && Handle(m, n, vs, obj, h) == o
      && (mask[1] && m.check.CheckEffect? ==> o.hist == h)
      && (mask[1] && m.check.CheckOrder? ==>
           forall h2: History :: Handle(m, n, vs, obj, h2) == Done(o.value, h2, o.left))
      && Safe(m, o.left, Shr(mask), o.value)
  {
    CallSound(m, n, mask, vs[obj.cons.index], maskA, obj, h);
  }

  lemma {:induction false} CallsSound(m: Machine, n: nat, mask: Mask, v: Value, ms: seq<Mask>, vs: seq<Value>,
                                      h: History)
    requires Safe(m, n, mask, v) && mask[0] && EnvSafe(m, n, ms, vs) && ApplyAll(Free(m), n, v, vs, h).Done?
    ensures var o := ApplyAll(Free(m), n, v, vs, h);
      && ApplyAll(m, n, v, vs, h) == o
      && (AppMask(mask, |vs|)[0] ==> QuietCalls(m, n, v, vs, h))
      && Safe(m, o.left, AppMask(mask, |vs|), o.value)
    decreases |vs|
  {
    if vs != [] {
      var z := |vs| - 1;
      CallsSound(m, n, mask, v, ms[..z], vs[..z], h);
      var o, acc := ApplyAll(Free(m), n, v, vs[..z], h), AppMask(mask, z);
      SafeWeaken(m, n, o.left, ms[z], ONE, vs[z]);
      CallSound(m, o.left, acc, o.value, ONE, vs[z], o.hist);
      var p := Apply(Free(m), o.left, o.value, vs[z], o.hist);
      SafeWeaken(m, p.left, p.left, Shr(acc), AppMask(mask, |vs|), p.value);
    }
  }

  lemma {:induction false} AndAllAt(ms: seq<Mask>, j: nat, i: nat)
    requires j < |ms| && i < WIDTH && AndAll(ms)[i]
    ensures ms[j][i]
  {
    if j < |ms| - 1 { AndAllAt(ms[..|ms| - 1], j, i); }
  }

  lemma {:induction false} EmbedSafe(m: Machine, n: nat, mask: Mask, d: Data)
    ensures Safe(m, n, mask, Embed(d))
    decreases d
  {
    if d.DCon? {
      forall i | 0 <= i < |d.fields| ensures Safe(m, n, ONE, Embed(d.fields[i])) { EmbedSafe(m, n, ONE, d.fields[i]); }
    }
  }

  lemma {:induction false} OpSound(pass: Pass, m: Machine, n: nat, op: Op, ms: seq<Mask>, vs: seq<Value>, h: History)
    requires Insists(pass, m) && EnvSafe(m, n, ms, vs) && EvalOp(Free(m), n, op, vs, h).Done?
    ensures var o, mask := EvalOp(Free(m), n, op, vs, h), OpMask(pass, op, ms);
      && EvalOp(m, n, op, vs, h) == o
      && (mask[0] ==> QuietOp(m, n, op, vs, h))
      && Safe(m, o.left, mask, o.value)
  {
    var o, mask := EvalOp(Free(m), n, op, vs, h), OpMask(pass, op, ms);
    match op
    case App =>
      SafeWeaken(m, n, n, ms[0], ms[0][0 := true], vs[0]);
      CallsSound(m, n, ms[0][0 := true], vs[0], Tail(ms), Tail(vs), h);
      assert mask[0] ==> QuietCalls(m, n, vs[0], Tail(vs), h);
    case Prim(name, kind) =>
      if kind.FnArg? {
        CallSound(m, n, ms[1], vs[1], ms[0], vs[0], h);
      } else {
        EmbedSafe(m, n, mask, m.run(name, EraseAll(vs), if kind.Pure? then [] else h));
      }
    case Get(i) =>
      assert Safe(m, n, ms[0], vs[0]);
    case Des =>
      var obj := vs[|vs| - 1];
      assert Handle(Free(m), n, vs[..|vs| - 1], obj, h).Done?;
      var j := obj.cons.index;
      var all := AndAll(ms[..|ms| - 1]);
      forall i | 0 <= i < WIDTH && all[i] ensures ms[j][i] { AndAllAt(ms[..|ms| - 1], j, i); }
      SafeWeaken(m, n, n, ms[j], all, vs[j]);
      HandleSound(m, n, all, vs[..|vs| - 1], ms[|ms| - 1], obj, h);
    case Con(_) =>
      forall i | 0 <= i < |vs| ensures Safe(m, n, ONE, vs[i]) { SafeWeaken(m, n, n, ms[i], ONE, vs[i]); }
  }

  lemma {:induction false} ArityArgs(ts: seq<Term>)
    ensures forall i :: 0 <= i < Arity(ts) ==> ts[i].Arg?
    ensures Arity(ts) < |ts| ==> !ts[Arity(ts)].Arg?
  {
  }

  /** A body that runs to its end has no parameter among its terms. */
  lemma {:induction false} RunHasNoArgs(m: Machine, n: nat, ts: seq<Term>, env: seq<Value>, h: History)
    requires EvalBody(m, n, ts, env, h).BodyDone?
    ensures forall i :: 0 <= i < |ts| ==> !ts[i].Arg?
    decreases |ts|
  {
    if ts != [] { RunHasNoArgs(m, n, ts[..|ts| - 1], env, h); }
  }

  lemma {:induction false} CountLeading(ts: seq<Term>, a: nat)
    requires a <= |ts| && (forall i :: 0 <= i < a ==> ts[i].Arg?) && (forall i :: a <= i < |ts| ==> !ts[i].Arg?)
    ensures CountArgs(ts) == a
    decreases |ts|
  {
    if ts != [] {
      var z := |ts| - 1;
      if a == |ts| { CountLeading(ts[..z], z); } else { CountLeading(ts[..z], a); }
    }
  }

  ghost predicate TermKept(m: Machine, n: nat, t: Term, mask: Mask, env: seq<Value>, h: History) {
    var o := EvalTerm(Free(m), n, t, env, h);
    o.Done? ==>
      && EvalTerm(m, n, t, env, h) == o
      && (mask[0] ==> QuietTerm(m, n, t, env, h))
      && Safe(m, o.left, mask, o.value)
  }

  // ---------------------------------------------------------------- honest flags

  predicate Flagged(pass: Pass, flags: Flags) {
    match pass
    case EffectPass => flags.effect
    case OrderPass => flags.ordered
  }

  /** The word of a term, its functions' words read off w, a term of the same shape. */
  function Word(pass: Pass, t: Term, w: Term, scope: seq<Mask>): Mask {
    match t
    case Arg(_) => ONE
    case Lit(_, _) => ONE
    case Redux(_, op, args) => if InRange(args, |scope|) then OpMask(pass, op, PickMasks(scope, args)) else ZERO
    case Fun(_, _, _, _) => if w.Fun? then w.meta else ZERO
  }

  /** The words in scope after the first n terms. */
  function Words(pass: Pass, ts: seq<Term>, ws: seq<Term>, scope: seq<Mask>, n: nat): (r: seq<Mask>)
    requires n <= |ts| == |ws|
    ensures |r| == |scope| + n && forall i :: 0 <= i < |scope| ==> r[i] == scope[i]
    decreases n
  {
    if n == 0 then scope else
    var s := Words(pass, ts, ws, scope, n - 1);
    s + [Word(pass, ts[n - 1], ws[n - 1], s)]
  }

  /** Every term that may be impure is flagged, and no function's word says more than its body keeps. */
  predicate Honest(pass: Pass, t: Term, w: Term, scope: seq<Mask>)
    decreases t, 0
  {
    match t
    case Arg(flags) => Flagged(pass, flags)
    case Lit(_, _) => true
    case Redux(flags, op, args) => Flagged(pass, flags) || op.Get? || op.Con? || Word(pass, t, w, scope)[0]
    case Fun(_, _, terms, output) =>
      && w.Fun? && |w.terms| == |terms| && HonestTo(pass, terms, w.terms, scope + [w.meta], |terms|)
      && var all := Words(pass, terms, w.terms, scope + [w.meta], |terms|);
         MaskLe(w.meta, FunMask(terms, Clean(all, |scope| + 1), output, all))
  }

  predicate HonestTo(pass: Pass, ts: seq<Term>, ws: seq<Term>, scope: seq<Mask>, n: nat)
    requires n <= |ts| == |ws|
    decreases ts, n
  {
    n == 0 || (HonestTo(pass, ts, ws, scope, n - 1) && Honest(pass, ts[n - 1], ws[n - 1],
                                                              Words(pass, ts, ws, scope, n - 1)))
  }

  /** Evaluating an honestly flagged term: the flags are honoured and its word is kept. */
  lemma {:induction false} TermSound(pass: Pass, m: Machine, n: nat, t: Term, w: Term, scope: seq<Mask>,
                                     env: seq<Value>, h: History)
    requires Insists(pass, m) && Honest(pass, t, w, scope) && EnvSafe(m, n, scope, env)
    ensures TermKept(m, n, t, Word(pass, t, w, scope), env, h)
    decreases n, 1, 0
  {
    match t
    case Arg(_) =>
    case Lit(_, _) =>
    case Redux(flags, op, args) =>
      if EvalTerm(Free(m), n, t, env, h).Done? {
        var ms, vs := PickMasks(scope, args), Select(env, args);
        OpSound(pass, m, n, op, ms, vs, h);
        assert Honoured(m, n, flags, op, vs, h);
      }
    case Fun(_, _, _, _) =>
      FunSound(pass, m, n, t, w, scope, env, [], w.meta);
  }

  lemma {:induction false} FunSound(pass: Pass, m: Machine, n: nat, f: Term, w: Term, scope: seq<Mask>, env: seq<Value>,
                                    vs: seq<Value>, mask: Mask)
    requires Insists(pass, m) && f.Fun? && Honest(pass, f, w, scope) && EnvSafe(m, n, scope, env)
    requires forall i :: 0 <= i < |vs| ==> Safe(m, n, ONE, vs[i])
    requires Allows(w.meta, mask, |vs|)
    ensures Safe(m, n, mask, VClo(f, env, vs))
    decreases n, 0, 0
  {
    var v := VClo(f, env, vs);
    forall k: nat, a, h | k < n && Safe(m, k, ONE, a) ensures CallSafe(m, k, mask, v, a, h) {
      var xs := vs + [a];
      forall i | 0 <= i < |env|
        ensures Safe(m, k, scope[i], env[i])
      {
        SafeWeaken(m, n, k, scope[i], scope[i], env[i]);
      }
      forall i | 0 <= i < |xs| ensures Safe(m, k, ONE, xs[i]) {
        if i < |vs| { SafeWeaken(m, n, k, ONE, ONE, vs[i]); }
      }
      FunCallSound(pass, m, k, f, w, scope, env, vs, xs, a, mask, h);
    }
  }

  /** `mask` says no more than a function's own word, shifted past n arguments. */
  predicate Allows(meta: Mask, mask: Mask, n: nat) {
    forall i :: 1 <= i < WIDTH && mask[i] ==> i + n < WIDTH && meta[i + n]
  }

  lemma {:induction false} AllowsNext(meta: Mask, mask: Mask, n: nat)
    requires Allows(meta, mask, n)
    ensures Allows(meta, Shr(mask), n + 1)
  {
    forall i | 1 <= i < WIDTH && Shr(mask)[i] ensures i + n + 1 < WIDTH && meta[i + n + 1] {
      assert mask[i + 1];
    }
  }

  lemma {:induction false} FunCallSound(pass: Pass, m: Machine, k: nat, f: Term, w: Term, scope: seq<Mask>,
                                        env: seq<Value>, vs: seq<Value>, xs: seq<Value>,
                                        a: Value, mask: Mask, h: History)
    requires Insists(pass, m) && f.Fun? && Honest(pass, f, w, scope) && EnvSafe(m, k, scope, env)
    requires xs == vs + [a] && forall i :: 0 <= i < |xs| ==> Safe(m, k, ONE, xs[i])
    requires Allows(w.meta, mask, |vs|)
    ensures CallSafe(m, k, mask, VClo(f, env, vs), a, h)
    decreases k, 4, 0
  {
    if Apply(Free(m), k + 1, VClo(f, env, vs), a, h).Done? {
      if |xs| == Arity(f.terms) {
        var all := Words(pass, f.terms, w.terms, scope + [w.meta], |f.terms|);
        RunReady(pass, m, k, f, w, scope, env, xs, all, h);
        RunKept(m, k, f, w.meta, env, xs, mask, all, |scope| + 1, h);
        FullCallSafe(m, k, mask, f, env, vs, xs, a, h);
      } else {
        AllowsNext(w.meta, mask, |vs|);
        FunSound(pass, m, k, f, w, scope, env, xs, Shr(mask));
        PartCallSafe(m, k, mask, f, env, vs, xs, a, h);
      }
    }
  }

  lemma {:induction false} FullCallSafe(m: Machine, k: nat, mask: Mask, f: Term, env: seq<Value>, vs: seq<Value>,
                                        xs: seq<Value>, a: Value, h: History)
    requires f.Fun? && xs == vs + [a] && |xs| == Arity(f.terms) && RunFun(Free(m), k, f, env, xs, h).Done?
    requires RunSafe(m, k, mask, f, env, xs, h)
    ensures CallSafe(m, k, mask, VClo(f, env, vs), a, h)
  {
  }

  lemma {:induction false} PartCallSafe(m: Machine, k: nat, mask: Mask, f: Term, env: seq<Value>, vs: seq<Value>,
                                        xs: seq<Value>, a: Value, h: History)
    requires f.Fun? && xs == vs + [a] && |xs| != Arity(f.terms) && Safe(m, k, Shr(mask), VClo(f, env, xs))
    ensures CallSafe(m, k, mask, VClo(f, env, vs), a, h)
  {
  }

  /** A whole run of the function keeps what `mask` says of the call. */
  ghost predicate RunSafe(m: Machine, k: nat, mask: Mask, f: Term, env: seq<Value>, xs: seq<Value>, h: History)
    requires f.Fun?
  {
    var o := RunFun(Free(m), k, f, env, xs, h);
    o.Done? ==>
      && RunFun(m, k, f, env, xs, h) == o
      && (mask[1] ==> QuietRun(m, k, f, env, xs, h))
      && Safe(m, o.left, Shr(mask), o.value)
  }

  ghost predicate BodyKept(m: Machine, n: nat, ts: seq<Term>, from: nat, masks: seq<Mask>, env: seq<Value>,
                           h: History) {
    var b := EvalBody(Free(m), n, ts, env, h);
    b.BodyDone? ==>
      && EvalBody(m, n, ts, env, h) == b
      && (Clean(masks, from) ==> QuietBody(m, n, ts, env, h))
      && EnvSafe(m, b.left, masks, b.env)
  }

  lemma {:induction false} QuietBodyRun(m: Machine, k: nat, f: Term, env: seq<Value>, xs: seq<Value>, h: History)
    requires f.Fun? && RunFun(m, k, f, env, xs, h).Done?
    requires QuietBody(m, k, f.terms[Arity(f.terms)..], Entry(f, env, xs), h)
    ensures QuietRun(m, k, f, env, xs, h)
  {
  }

  lemma {:induction false} MaskSays(f: Term, meta: Mask, a: nat, all: seq<Mask>, from: nat)
    requires f.Fun? && f.output < |all| && CountArgs(f.terms) == a
    requires MaskLe(meta, FunMask(f.terms, Clean(all, from), f.output, all))
    ensures WordSays(f, meta, a, all, from)
  {
  }

  /** A function's word, shifted past its a parameters, promises no more than its body keeps. */
  predicate WordSays(f: Term, meta: Mask, a: nat, all: seq<Mask>, from: nat)
    requires f.Fun? && f.output < |all|
  {
    forall i :: a <= i < WIDTH && meta[i] ==> all[f.output][i - a] && (i == a ==> Clean(all, from))
  }

  /** A body about to run is one whose words are kept. */
  lemma {:induction false} RunReady(pass: Pass, m: Machine, k: nat, f: Term, w: Term, scope: seq<Mask>, env: seq<Value>,
                                    xs: seq<Value>, all: seq<Mask>, h: History)
    requires Insists(pass, m) && f.Fun? && Honest(pass, f, w, scope) && EnvSafe(m, k, scope, env)
    requires |xs| == Arity(f.terms) && forall i :: 0 <= i < |xs| ==> Safe(m, k, ONE, xs[i])
    requires RunFun(Free(m), k, f, env, xs, h).Done?
    requires all == Words(pass, f.terms, w.terms, scope + [w.meta], |f.terms|)
    ensures WordSays(f, w.meta, |xs|, all, |scope| + 1)
    ensures BodyKept(m, k, f.terms[|xs|..], |scope| + 1 + |xs|, all, Entry(f, env, xs), h)
    decreases k, 3, 0
  {
    var a, ts, start, rest := Arity(f.terms), f.terms, scope + [w.meta], f.terms[|xs|..];
    RunHasNoArgs(Free(m), k, rest, Entry(f, env, xs), h);
    ArityArgs(ts);
    assert forall i :: a <= i < |ts| ==> ts[i] == rest[i - a];
    CountLeading(ts, a);
    MaskSays(f, w.meta, a, all, |scope| + 1);
    EntrySafe(pass, m, k, f, w, scope, env, xs);
    BodySound(pass, m, k, ts, w.terms, start, a, |ts|, rest, Entry(f, env, xs), h);
  }

  lemma {:induction false} SafeReturned(m: Machine, n: nat, mask: Mask, v: Value)
    requires Safe(m, n, mask, v)
    ensures Safe(m, n, mask, Returned(v))
  {
    if v.VClo? {
      var u := Returned(v);
      forall k: nat, a, h | k < n && Safe(m, k, ONE, a) ensures CallSafe(m, k, mask, u, a, h) {
        var n := k + 1;
        assert CallSafe(m, k, mask, v, a, h);
        assert Apply(m, n, u, a, h) == Apply(m, n, v, a, h) && Apply(Free(m), n, u, a, h) == Apply(Free(m), n, v, a, h);
        forall h2: History ensures Apply(m, n, u, a, h2) == Apply(m, n, v, a, h2) { }
      }
    }
  }

  /** From the body's words to the call's: `mask` says no more than the function's own word, shifted. */
  lemma {:induction false} RunKept(m: Machine, k: nat, f: Term, meta: Mask, env: seq<Value>, xs: seq<Value>, mask: Mask,
                                   all: seq<Mask>, from: nat, h: History)
    requires f.Fun? && |xs| == Arity(f.terms) >= 1 && RunFun(Free(m), k, f, env, xs, h).Done?
    requires from <= from + |xs| <= |all| && f.output < |all|
    requires BodyKept(m, k, f.terms[|xs|..], from + |xs|, all, Entry(f, env, xs), h)
    requires Allows(meta, mask, |xs| - 1) && WordSays(f, meta, |xs|, all, from)
    ensures RunSafe(m, k, mask, f, env, xs, h)
  {
    var b := EvalBody(Free(m), k, f.terms[|xs|..], Entry(f, env, xs), h);
    forall i | 1 <= i < WIDTH && Shr(mask)[i] ensures all[f.output][i] {
      assert mask[i + 1] && meta[i + |xs|];
    }
    SafeWeaken(m, b.left, b.left, all[f.output], Shr(mask), b.env[f.output]);
    SafeReturned(m, b.left, Shr(mask), b.env[f.output]);
    if mask[1] {
      assert meta[|xs|] && Clean(all, from + |xs|);
      QuietBodyRun(m, k, f, env, xs, h);
    }
  }

  lemma {:induction false} EntrySafe(pass: Pass, m: Machine, k: nat, f: Term, w: Term, scope: seq<Mask>,
                                     env: seq<Value>, xs: seq<Value>)
    requires Insists(pass, m) && f.Fun? && Honest(pass, f, w, scope) && EnvSafe(m, k, scope, env)
    requires |xs| == Arity(f.terms) && forall i :: 0 <= i < |xs| ==> Safe(m, k, ONE, xs[i])
    ensures EnvSafe(m, k, Words(pass, f.terms, w.terms, scope + [w.meta], |xs|), Entry(f, env, xs))
    decreases k, 1, 0
  {
    ArityArgs(f.terms);
    ArgWords(pass, f.terms, w.terms, scope + [w.meta], |xs|);
    FunSound(pass, m, k, f, w, scope, env, [], w.meta);
  }

  /** Parameters have the word of something unknown. */
  lemma {:induction false} ArgWords(pass: Pass, ts: seq<Term>, ws: seq<Term>, scope: seq<Mask>, n: nat)
    requires n <= |ts| == |ws| && forall i :: 0 <= i < n ==> ts[i].Arg?
    ensures forall i :: |scope| <= i < |scope| + n ==> Words(pass, ts, ws, scope, n)[i] == ONE
    decreases n
  {
    if n > 0 { ArgWords(pass, ts, ws, scope, n - 1); }
  }

  lemma {:induction false} QuietBodySnoc(m: Machine, n: nat, ts: seq<Term>, t: Term, env: seq<Value>, h: History)
    requires QuietBody(m, n, ts, env, h)
    requires var b := EvalBody(m, n, ts, env, h); QuietTerm(m, b.left, t, b.env, b.hist)
    ensures QuietBody(m, n, ts + [t], env, h)
  {
    assert (ts + [t])[..|ts|] == ts;
  }

  lemma {:induction false} EnvSafeSnoc(m: Machine, n: nat, k: nat, scope: seq<Mask>, env: seq<Value>, mask: Mask,
                                       v: Value)
    requires EnvSafe(m, n, scope, env) && k <= n && Safe(m, k, mask, v)
    ensures EnvSafe(m, k, scope + [mask], env + [v])
  {
    forall i | 0 <= i < |env| ensures Safe(m, k, scope[i], env[i]) { SafeWeaken(m, n, k, scope[i], scope[i], env[i]); }
  }

  lemma {:induction false} BodyKeptSnoc(m: Machine, n: nat, ts: seq<Term>, t: Term, ts': seq<Term>,
                     from: nat, masks: seq<Mask>, mask: Mask, masks': seq<Mask>, env: seq<Value>, h: History)
    requires ts' == ts + [t] && masks' == masks + [mask]
    requires from <= |masks| && BodyKept(m, n, ts, from, masks, env, h)
    requires var b := EvalBody(Free(m), n, ts, env, h);
      b.BodyDone? ==> TermKept(m, b.left, t, mask, b.env, b.hist)
    ensures BodyKept(m, n, ts', from, masks', env, h)
  {
    assert ts'[..|ts|] == ts;
    var b := EvalBody(Free(m), n, ts, env, h);
    if b.BodyDone? {
      var o := EvalTerm(Free(m), b.left, t, b.env, b.hist);
      if o.Done? {
        EnvSafeSnoc(m, b.left, o.left, masks, b.env, mask, o.value);
        CleanSnoc(masks, mask, from);
        if Clean(masks', from) { QuietBodySnoc(m, n, ts, t, env, h); }
      }
    }
  }

  /** The terms from a to n, run with the words of what comes before them. */
  lemma {:induction false} BodySound(pass: Pass, m: Machine, k: nat, ts: seq<Term>, ws: seq<Term>, scope: seq<Mask>,
                                     a: nat, n: nat, part: seq<Term>,
                                     env: seq<Value>, h: History)
    requires Insists(pass, m) && a <= n <= |ts| == |ws| && HonestTo(pass, ts, ws, scope, n)
    requires EnvSafe(m, k, Words(pass, ts, ws, scope, a), env)
    requires |part| == n - a && forall i :: 0 <= i < |part| ==> part[i] == ts[a + i]
    ensures BodyKept(m, k, part, |scope| + a, Words(pass, ts, ws, scope, n), env, h)
    decreases k, 2, n
  {
    if n > a {
      var z := n - 1;
      var init, t, masks := part[..z - a], ts[z], Words(pass, ts, ws, scope, z);
      assert part == init + [t];
      BodySound(pass, m, k, ts, ws, scope, a, z, init, env, h);
      var b := EvalBody(Free(m), k, init, env, h);
      if b.BodyDone? { TermSound(pass, m, b.left, t, ws[z], masks, b.env, b.hist); }
      BodyKeptSnoc(m, k, init, t, part, |scope| + a, masks, Word(pass, t, ws[z], masks), Words(pass, ts, ws, scope, n),
                   env, h);
    }
  }

  /** Every flag of an honestly flagged program is honoured, in every run of it. */
  lemma {:induction false} ProgramSound(pass: Pass, m: Machine, n: nat, top: Term, w: Term, h: History)
    requires Insists(pass, m) && top.Fun? && Honest(pass, top, w, []) && RunProgram(Free(m), n, top, h).Done?
    ensures RunProgram(m, n, top, h) == RunProgram(Free(m), n, top, h)
  {
    var v := VClo(top, [], []);
    FunSound(pass, m, n, top, w, [], [], [], w.meta);
    CallSound(m, n, w.meta, v, w.meta, v, h);
  }

  /** Terms of the same shape with the same flags, as far as the pass is concerned. */
  predicate SameFlags(pass: Pass, t: Term, t': Term)
    decreases t
  {
    match t
    case Arg(flags) => t'.Arg? && Flagged(pass, t'.flags) == Flagged(pass, flags)
    case Lit(_, x) => t'.Lit? && t'.value == x
    case Redux(flags, op, args) => t'.Redux? && t'.op == op && t'.args == args
      && Flagged(pass, t'.flags) == Flagged(pass, flags)
    case Fun(_, _, terms, output) =>
      && t'.Fun? && t'.output == output && |t'.terms| == |terms|
      && forall i :: 0 <= i < |terms| ==> SameFlags(pass, terms[i], t'.terms[i])
  }

  lemma {:induction false} SameFlagsSelf(pass: Pass, t: Term)
    ensures SameFlags(pass, t, t)
    decreases t
  {
    if t.Fun? {
      forall i | 0 <= i < |t.terms| ensures SameFlags(pass, t.terms[i], t.terms[i]) { SameFlagsSelf(pass, t.terms[i]); }
    }
  }

  lemma {:induction false} SameFlagsTrans(pass: Pass, t: Term, t': Term, t'': Term)
    requires SameFlags(pass, t, t') && SameFlags(pass, t', t'')
    ensures SameFlags(pass, t, t'')
    decreases t
  {
    if t.Fun? {
      forall i | 0 <= i < |t.terms| ensures SameFlags(pass, t.terms[i], t''.terms[i]) {
        SameFlagsTrans(pass, t.terms[i], t'.terms[i], t''.terms[i]);
      }
    }
  }

  /** Terms of the same shape whose functions have the same words. */
  predicate SameWords(w: Term, w': Term)
    decreases w
  {
    && (w.Fun? <==> w'.Fun?)
    && (w.Fun? ==>
         && w'.meta == w.meta && |w'.terms| == |w.terms|
         && forall i :: 0 <= i < |w.terms| ==> SameWords(w.terms[i], w'.terms[i]))
  }

  lemma {:induction false} SameWordsSelf(w: Term)
    ensures SameWords(w, w)
    decreases w
  {
    if w.Fun? {
      forall i | 0 <= i < |w.terms| ensures SameWords(w.terms[i], w.terms[i]) { SameWordsSelf(w.terms[i]); }
    }
  }

  /** Honesty is a matter of the flags and the words, whatever else the terms carry. */
  lemma {:induction false} HonestSame(pass: Pass, t: Term, t': Term, w: Term, w': Term, scope: seq<Mask>)
    requires Honest(pass, t, w, scope) && SameFlags(pass, t, t') && SameWords(w, w')
    ensures Honest(pass, t', w', scope) && Word(pass, t', w', scope) == Word(pass, t, w, scope)
    decreases t, 1
  {
    if t.Fun? {
      HonestSameTo(pass, t.terms, t'.terms, w.terms, w'.terms, scope + [w.meta], |t.terms|);
      CountArgsSame(t.terms, t'.terms);
    }
  }

  lemma {:induction false} HonestSameTo(pass: Pass, ts: seq<Term>, ts': seq<Term>, ws: seq<Term>, ws': seq<Term>,
                                        scope: seq<Mask>, n: nat)
    requires n <= |ts| == |ts'| == |ws| == |ws'| && HonestTo(pass, ts, ws, scope, n)
    requires forall i :: 0 <= i < |ts| ==> SameFlags(pass, ts[i], ts'[i]) && SameWords(ws[i], ws'[i])
    ensures HonestTo(pass, ts', ws', scope, n) && Words(pass, ts', ws', scope, n) == Words(pass, ts, ws, scope, n)
    decreases ts, 0, n
  {
    if n > 0 {
      HonestSameTo(pass, ts, ts', ws, ws', scope, n - 1);
      HonestSame(pass, ts[n - 1], ts'[n - 1], ws[n - 1], ws'[n - 1], Words(pass, ts, ws, scope, n - 1));
    }
  }

  /** What comes later changes neither the words so far nor their honesty. */
  lemma {:induction false} HonestPrefix(pass: Pass, ts: seq<Term>, us: seq<Term>, scope: seq<Mask>, n: nat)
    requires n <= |ts| && n <= |us| && forall i :: 0 <= i < n ==> us[i] == ts[i]
    ensures Words(pass, us, us, scope, n) == Words(pass, ts, ts, scope, n)
    ensures HonestTo(pass, us, us, scope, n) <==> HonestTo(pass, ts, ts, scope, n)
    decreases n
  {
    if n > 0 { HonestPrefix(pass, ts, us, scope, n - 1); }
  }

  lemma {:induction false} HonestAt(pass: Pass, ts: seq<Term>, ws: seq<Term>, scope: seq<Mask>, n: nat, i: nat)
    requires i < n <= |ts| == |ws| && HonestTo(pass, ts, ws, scope, n)
    ensures Honest(pass, ts[i], ws[i], Words(pass, ts, ws, scope, i))
    decreases n
  {
    if i < n - 1 { HonestAt(pass, ts, ws, scope, n - 1, i); }
  }

  /** A pass leaves the other pass's flags alone. */
  lemma {:induction false} VisitKeepsOther(pass: Pass, other: Pass, first: bool, t: Term, scope: seq<Mask>)
    requires other != pass
    ensures SameFlags(other, t, PurityTerm(pass, first, t, scope).0)
    decreases t, 1
  {
    if t.Fun? {
      var start := scope + [if first then ONES else t.meta];
      forall i | 0 <= i < |t.terms| ensures SameFlags(other, t.terms[i], PurityBody(pass, first, t.terms, start).0[i]) {
        BodyKeepsOther(pass, other, first, t.terms, start, i);
      }
    }
  }

  lemma {:induction false} BodyKeepsOther(pass: Pass, other: Pass, first: bool, ts: seq<Term>, scope: seq<Mask>, i: nat)
    requires other != pass && i < |ts|
    ensures SameFlags(other, ts[i], PurityBody(pass, first, ts, scope).0[i])
    decreases ts, 0
  {
    var z := |ts| - 1;
    if i < z {
      BodyKeepsOther(pass, other, first, ts[..z], scope, i);
    } else {
      VisitKeepsOther(pass, other, first, ts[z], PurityBody(pass, first, ts[..z], scope).1);
    }
  }

  /** What one more visit would not change is honest, by its own words. */
  lemma {:induction false} SettledHonest(pass: Pass, t: Term, scope: seq<Mask>)
    requires Settled(pass, t, scope)
    ensures Honest(pass, t, t, scope) && Word(pass, t, t, scope) == PurityTerm(pass, false, t, scope).1
    decreases t, 1
  {
    if t.Fun? {
      var start := scope + [t.meta];
      assert PurityBody(pass, false, t.terms, start).0 == t.terms;
      assert t.terms[..|t.terms|] == t.terms;
      SettledBodyHonest(pass, t.terms, start, |t.terms|, t.terms);
    }
  }

  lemma {:induction false} SettledBodyHonest(pass: Pass, ts: seq<Term>, scope: seq<Mask>, n: nat, front: seq<Term>)
    requires n <= |ts| && front == ts[..n] && PurityBody(pass, false, front, scope).0 == front
    ensures HonestTo(pass, ts, ts, scope, n) && Words(pass, ts, ts, scope, n) == PurityBody(pass, false, front, scope).1
    decreases ts, 0, n
  {
    if n > 0 {
      var init, t := front[..n - 1], front[n - 1];
      assert init == ts[..n - 1];
      var b := PurityBody(pass, false, init, scope);
      SettledParts(pass, init, t, front, scope, b);
      SettledBodyHonest(pass, ts, scope, n - 1, init);
      SettledHonest(pass, t, b.1);
    }
  }

  lemma {:induction false} SettledParts(pass: Pass, init: seq<Term>, t: Term, ts: seq<Term>, scope: seq<Mask>,
                                        b: (seq<Term>, seq<Mask>))
    requires ts == init + [t] && b == PurityBody(pass, false, init, scope) && PurityBody(pass, false, ts, scope).0 == ts
    ensures b.0 == init && Settled(pass, t, b.1)
    ensures PurityBody(pass, false, ts, scope).1 == b.1 + [PurityTerm(pass, false, t, b.1).1]
  {
    assert ts[..|ts| - 1] == init;
    var all := b.0 + [PurityTerm(pass, false, t, b.1).0];
    assert all == ts;
    assert all[|init|] == ts[|init|];
    forall i | 0 <= i < |init| ensures b.0[i] == init[i] { assert all[i] == ts[i]; }
  }

  // ------------------------------------------------------------- the fixed point

  predicate MaskLe(x: Mask, y: Mask) {
    forall i :: 0 <= i < WIDTH && x[i] ==> y[i]
  }

  predicate ScopeLe(s: seq<Mask>, s': seq<Mask>) {
    |s| == |s'| && forall i :: 0 <= i < |s| ==> MaskLe(s[i], s'[i])
  }

  /** The same code, with no function's word larger than before. */
  predicate TreeLe(t: Term, t': Term)
    decreases t
  {
    match t
    case Arg(_) => t'.Arg?
    case Lit(_, x) => t'.Lit? && t'.value == x
    case Redux(_, op, args) => t'.Redux? && t'.op == op && t'.args == args
    case Fun(_, meta, terms, output) =>
      && t'.Fun? && t'.output == output && MaskLe(meta, t'.meta) && |terms| == |t'.terms|
      && forall i :: 0 <= i < |terms| ==> TreeLe(terms[i], t'.terms[i])
  }

  /** No function's word differs; `first` takes every earlier word to be all ones. */
  predicate Unmoved(first: bool, t: Term, t': Term)
    decreases t
  {
    t.Fun? ==>
      && t'.Fun? && t'.meta == (if first then ONES else t.meta) && |t.terms| == |t'.terms|
      && forall i :: 0 <= i < |t.terms| ==> Unmoved(first, t.terms[i], t'.terms[i])
  }

  /** The program as the first visit sees it. */
  function Fresh(t: Term): Term
    decreases t
  {
    if t.Fun? then t.(meta := ONES, terms := seq(|t.terms|, i requires 0 <= i < |t.terms| => Fresh(t.terms[i]))) else t
  }

  lemma {:induction false} AppMaskMono(x: Mask, y: Mask, k: nat)
    requires MaskLe(x, y)
    ensures MaskLe(AppMask(x, k), AppMask(y, k))
  {
    if k > 0 { AppMaskMono(x, y, k - 1); }
  }

  lemma {:induction false} AndAllMono(s: seq<Mask>, s': seq<Mask>)
    requires ScopeLe(s, s')
    ensures MaskLe(AndAll(s), AndAll(s'))
  {
    if s != [] { AndAllMono(s[..|s| - 1], s'[..|s| - 1]); }
  }

  lemma {:induction false} OpMaskMono(pass: Pass, op: Op, s: seq<Mask>, s': seq<Mask>)
    requires ScopeLe(s, s')
    ensures MaskLe(OpMask(pass, op, s), OpMask(pass, op, s'))
  {
    match op
    case App => if s != [] { AppMaskMono(s[0][0 := true], s'[0][0 := true], |s| - 1); }
    case Prim(_, _) => if |s| >= 2 { assert MaskLe(s[1], s'[1]); }
    case Get(_) =>
    case Des => if s != [] { AndAllMono(s[..|s| - 1], s'[..|s| - 1]); }
    case Con(_) =>
  }

  lemma {:induction false} CountArgsSame(ts: seq<Term>, ts': seq<Term>)
    requires |ts| == |ts'| && forall i :: 0 <= i < |ts| ==> (ts[i].Arg? <==> ts'[i].Arg?)
    ensures CountArgs(ts) == CountArgs(ts')
  {
    if ts != [] { CountArgsSame(ts[..|ts| - 1], ts'[..|ts| - 1]); }
  }

  /** Smaller words in, smaller words out. */
  lemma {:induction false} PurityMono(pass: Pass, t: Term, t': Term, s: seq<Mask>, s': seq<Mask>)
    requires TreeLe(t, t') && ScopeLe(s, s')
    ensures TreeLe(PurityTerm(pass, false, t, s).0, PurityTerm(pass, false, t', s').0)
    ensures MaskLe(PurityTerm(pass, false, t, s).1, PurityTerm(pass, false, t', s').1)
    decreases t, 1
  {
    match t
    case Arg(_) =>
    case Lit(_, _) =>
    case Redux(_, op, args) =>
      if InRange(args, |s|) { OpMaskMono(pass, op, PickMasks(s, args), PickMasks(s', args)); }
    case Fun(_, meta, terms, output) =>
      var e, e' := s + [meta], s' + [t'.meta];
      BodyMono(pass, terms, t'.terms, e, e');
      CountArgsSame(terms, t'.terms);
      var b, b' := PurityBody(pass, false, terms, e), PurityBody(pass, false, t'.terms, e');
      CleanMono(b.1, b'.1, |s| + 1);
      if output < |b.1| { assert MaskLe(b.1[output], b'.1[output]); }
  }

  lemma {:induction false} CleanMono(ms: seq<Mask>, ms': seq<Mask>, from: nat)
    requires ScopeLe(ms, ms')
    ensures Clean(ms, from) ==> Clean(ms', from)
  {
    if Clean(ms, from) {
      forall i | from <= i < |ms'| ensures ms'[i][0] { assert MaskLe(ms[i], ms'[i]); }
    }
  }

  lemma {:induction false} BodyMono(pass: Pass, ts: seq<Term>, ts': seq<Term>, s: seq<Mask>, s': seq<Mask>)
    requires |ts| == |ts'| && (forall i :: 0 <= i < |ts| ==> TreeLe(ts[i], ts'[i])) && ScopeLe(s, s')
    ensures var b, b' := PurityBody(pass, false, ts, s), PurityBody(pass, false, ts', s');
      ScopeLe(b.1, b'.1) && forall i :: 0 <= i < |ts| ==> TreeLe(b.0[i], b'.0[i])
    decreases ts, 0
  {
    if ts != [] {
      var z := |ts| - 1;
      BodyMono(pass, ts[..z], ts'[..z], s, s');
      PurityMono(pass, ts[z], ts'[z], PurityBody(pass, false, ts[..z], s).1, PurityBody(pass, false, ts'[..z], s').1);
    }
  }

  /** A visit that moved nothing has settled the program. */
  lemma {:induction false} UnmovedSettles(pass: Pass, t: Term, s: seq<Mask>)
    requires Unmoved(false, t, PurityTerm(pass, false, t, s).0)
    ensures Settled(pass, PurityTerm(pass, false, t, s).0, s)
    ensures PurityTerm(pass, false, PurityTerm(pass, false, t, s).0, s).1 == PurityTerm(pass, false, t, s).1
    decreases t, 1
  {
    if t.Fun? {
      var b := PurityBody(pass, false, t.terms, s + [t.meta]);
      UnmovedBody(pass, t.terms, s + [t.meta], b);
      BodyKeepsArgs(pass, false, t.terms, s + [t.meta]);
      CountArgsSame(t.terms, b.0);
    }
  }

  lemma {:induction false} UnmovedBody(pass: Pass, ts: seq<Term>, s: seq<Mask>, b: (seq<Term>, seq<Mask>))
    requires b == PurityBody(pass, false, ts, s)
    requires forall i :: 0 <= i < |ts| ==> Unmoved(false, ts[i], b.0[i])
    ensures PurityBody(pass, false, b.0, s) == b
    decreases ts, 0
  {
    if ts != [] {
      var z := |ts| - 1;
      var c := PurityBody(pass, false, ts[..z], s);
      var last := PurityTerm(pass, false, ts[z], c.1);
      assert b.0[..z] == c.0 && b.0[z] == last.0;
      UnmovedBody(pass, ts[..z], s, c);
      UnmovedSettles(pass, ts[z], c.1);
    }
  }

  lemma {:induction false} BodyKeepsArgs(pass: Pass, first: bool, ts: seq<Term>, s: seq<Mask>)
    ensures forall i :: 0 <= i < |ts| ==> (ts[i].Arg? <==> PurityBody(pass, first, ts, s).0[i].Arg?)
    decreases |ts|
  {
    if ts != [] { BodyKeepsArgs(pass, first, ts[..|ts| - 1], s); }
  }

  lemma {:induction false} FirstIsFresh(pass: Pass, t: Term, s: seq<Mask>)
    ensures PurityTerm(pass, true, t, s) == PurityTerm(pass, false, Fresh(t), s)
    decreases t, 1
  {
    if t.Fun? {
      BodyFirstIsFresh(pass, t.terms, Fresh(t).terms, s + [ONES]);
      CountArgsSame(t.terms, Fresh(t).terms);
    }
  }

  lemma {:induction false} BodyFirstIsFresh(pass: Pass, ts: seq<Term>, ts': seq<Term>, s: seq<Mask>)
    requires |ts'| == |ts| && forall i :: 0 <= i < |ts| ==> ts'[i] == Fresh(ts[i])
    ensures PurityBody(pass, true, ts, s) == PurityBody(pass, false, ts', s)
    decreases ts, 0
  {
    if ts != [] {
      var z := |ts| - 1;
      BodyFirstIsFresh(pass, ts[..z], ts'[..z], s);
      FirstIsFresh(pass, ts[z], PurityBody(pass, true, ts[..z], s).1);
    }
  }

  lemma {:induction false} FreshUnmoved(t: Term, t': Term)
    ensures Unmoved(true, t, t') <==> Unmoved(false, Fresh(t), t')
    decreases t
  {
    if t.Fun? && t'.Fun? && |t.terms| == |t'.terms| {
      forall i | 0 <= i < |t.terms|
        ensures Unmoved(true, t.terms[i], t'.terms[i]) <==> Unmoved(false, Fresh(t.terms[i]), t'.terms[i])
      {
        FreshUnmoved(t.terms[i], t'.terms[i]);
      }
    }
  }

  /** Visits change flags and words, never code. */
  lemma {:induction false} VisitAlike(pass: Pass, first: bool, t: Term, s: seq<Mask>)
    ensures Alike(t, PurityTerm(pass, first, t, s).0, Id)
    decreases t, 1
  {
    if t.Fun? {
      var e := s + [if first then ONES else t.meta];
      var ts := PurityBody(pass, first, t.terms, e).0;
      forall i | 0 <= i < |t.terms| ensures Alike(t.terms[i], ts[i], Id) { BodyVisitAlike(pass, first, t.terms, e, i); }
    }
  }

  lemma {:induction false} BodyVisitAlike(pass: Pass, first: bool, ts: seq<Term>, s: seq<Mask>, i: nat)
    requires i < |ts|
    ensures Alike(ts[i], PurityBody(pass, first, ts, s).0[i], Id)
    decreases ts, 0
  {
    var z := |ts| - 1;
    if i < z {
      BodyVisitAlike(pass, first, ts[..z], s, i);
    } else {
      VisitAlike(pass, first, ts[z], PurityBody(pass, first, ts[..z], s).1);
    }
  }

  lemma {:induction false} AlikeTrans(t: Term, u: Term, v: Term)
    requires Alike(t, u, Id) && Alike(u, v, Id)
    ensures Alike(t, v, Id)
    decreases t
  {
    if t.Fun? {
      forall i | 0 <= i < |t.terms|
        ensures Alike(t.terms[i], v.terms[i], Id)
      {
        AlikeTrans(t.terms[i], u.terms[i], v.terms[i]);
      }
    }
  }

  function Ones(x: seq<bool>): nat {
    if x == [] then 0 else Ones(x[..|x| - 1]) + if x[|x| - 1] then 1 else 0
  }

  /** The bits the visits can still clear. */
  function Bits(t: Term): nat
    decreases t, 1
  {
    if t.Fun? then Ones(t.meta) + BodyBits(t.terms) else 0
  }

  function BodyBits(ts: seq<Term>): nat
    decreases ts, 0
  {
    if ts == [] then 0 else BodyBits(ts[..|ts| - 1]) + Bits(ts[|ts| - 1])
  }

  lemma {:induction false} OnesLe(x: seq<bool>, y: seq<bool>)
    requires |x| == |y| && forall i :: 0 <= i < |x| && x[i] ==> y[i]
    ensures Ones(x) <= Ones(y) && (x != y ==> Ones(x) < Ones(y))
  {
    if x != [] {
      var z := |x| - 1;
      OnesLe(x[..z], y[..z]);
      assert x == x[..z] + [x[z]] && y == y[..z] + [y[z]];
    }
  }

  lemma {:induction false} BitsLe(t: Term, t': Term)
    requires TreeLe(t', t)
    ensures Bits(t') <= Bits(t) && (!Unmoved(false, t, t') ==> Bits(t') < Bits(t))
    decreases t, 1
  {
    if t.Fun? {
      OnesLe(t'.meta, t.meta);
      BodyBitsLe(t.terms, t'.terms);
    }
  }

  lemma {:induction false} BodyBitsLe(ts: seq<Term>, ts': seq<Term>)
    requires |ts| == |ts'| && forall i :: 0 <= i < |ts| ==> TreeLe(ts'[i], ts[i])
    ensures BodyBits(ts') <= BodyBits(ts)
    ensures (exists i :: 0 <= i < |ts| && !Unmoved(false, ts[i], ts'[i])) ==> BodyBits(ts') < BodyBits(ts)
    decreases ts, 0
  {
    if ts != [] {
      var z := |ts| - 1;
      BodyBitsLe(ts[..z], ts'[..z]);
      BitsLe(ts[z], ts'[z]);
      if i :| 0 <= i < |ts| && !Unmoved(false, ts[i], ts'[i]) {
        if i < z { assert !Unmoved(false, ts[..z][i], ts'[..z][i]); }
      }
    }
  }

  lemma {:induction false} FreshTop(t: Term, t': Term)
    requires Alike(t, t', Id)
    ensures TreeLe(t', Fresh(t))
    decreases t
  {
    if t.Redux? {
      assert t'.args == t.args;
    } else if t.Fun? {
      forall i | 0 <= i < |t.terms|
        ensures TreeLe(t'.terms[i], Fresh(t.terms[i]))
      {
        FreshTop(t.terms[i], t'.terms[i]);
      }
    }
  }

  lemma {:induction false} BodyVisitNext(pass: Pass, first: bool, ts: seq<Term>, s: seq<Mask>, i: nat)
    requires i < |ts|
    ensures var b := PurityBody(pass, first, ts[..i], s);
      var last := PurityTerm(pass, first, ts[i], b.1);
      PurityBody(pass, first, ts[..i + 1], s) == (b.0 + [last.0], b.1 + [last.1])
  {
    assert ts[..i + 1][..i] == ts[..i];
  }

  predicate UnmovedTo(first: bool, ts: seq<Term>, ts': seq<Term>, n: nat)
    requires n <= |ts| && n <= |ts'|
  {
    forall j :: 0 <= j < n ==> Unmoved(first, ts[j], ts'[j])
  }

  lemma {:induction false} UnmovedNext(first: bool, ts: seq<Term>, ts': seq<Term>, x: Term)
    requires |ts'| < |ts|
    ensures UnmovedTo(first, ts, ts' + [x], |ts'| + 1) <==>
      UnmovedTo(first, ts, ts', |ts'|) && Unmoved(first, ts[|ts'|], x)
  {
    if UnmovedTo(first, ts, ts' + [x], |ts'| + 1) {
      assert Unmoved(first, ts[|ts'|], (ts' + [x])[|ts'|]);
      forall j | 0 <= j < |ts'| ensures Unmoved(first, ts[j], ts'[j]) { assert ts'[j] == (ts' + [x])[j]; }
    }
  }

  lemma {:induction false} CleanSnoc(ms: seq<Mask>, word: Mask, from: nat)
    requires from <= |ms|
    ensures Clean(ms + [word], from) <==> Clean(ms, from) && word[0]
  {
    if Clean(ms + [word], from) {
      assert (ms + [word])[|ms|][0];
      forall i | from <= i < |ms| ensures ms[i][0] { assert (ms + [word])[i][0]; }
    }
  }

  /** The state of the pass: the words in scope, and whether any function's word moved. */
  class PurityPass {
    const pass: Pass
    var scope: seq<Mask>
    var first: bool
    var fixed: bool

    constructor (pass: Pass)
      ensures this.pass == pass && scope == [] && first && fixed
    {
      this.pass := pass;
      scope := [];
      first := true;
      fixed := true;
    }

    method Visit(t: Term) returns (t': Term, mask: Mask)
      modifies this`scope, this`fixed
      ensures (t', mask) == PurityTerm(pass, first, t, old(scope))
      ensures scope == old(scope)
      ensures fixed == (old(fixed) && Unmoved(first, t, t'))
      decreases t, 1
    {
      match t
      case Arg(flags) => t', mask := Arg(SetFlag(pass, flags, true)), ONE;
      case Lit(_, _) => t', mask := t, ONE;
      case Redux(flags, op, args) =>
        mask := if InRange(args, |scope|) then OpMask(pass, op, PickMasks(scope, args)) else ZERO;
        t' := if op.Get? || op.Con? then t else Redux(SetFlag(pass, flags, !mask[0]), op, args);
      case Fun(_, _, _, _) => t', mask := VisitFun(t);
    }

    method VisitFun(t: Term) returns (t': Term, mask: Mask)
      requires t.Fun?
      modifies this`scope, this`fixed
      ensures (t', mask) == PurityTerm(pass, first, t, old(scope))
      ensures scope == old(scope)
      ensures fixed == (old(fixed) && Unmoved(first, t, t'))
      decreases t, 0
    {
      var size := |scope|;
      var save := if first then ONES else t.meta;
      scope := scope + [save];
      var terms', clean := VisitBody(t.terms);
      mask := FunMask(t.terms, clean, t.output, scope);
      if mask != save { fixed := false; }
      t' := Fun(t.flags, mask, terms', t.output);
      scope := scope[..size];
    }

    /** The terms in order, each pushed on the scope; `clean` if none of them is impure. */
    method VisitBody(ts: seq<Term>) returns (ts': seq<Term>, clean: bool)
      modifies this`scope, this`fixed
      ensures (ts', scope) == PurityBody(pass, first, ts, old(scope))
      ensures clean == Clean(scope, |old(scope)|)
      ensures fixed == (old(fixed) && UnmovedTo(first, ts, ts', |ts|))
      decreases ts
    {
      ts', clean := [], true;
      for i := 0 to |ts|
        invariant (ts', scope) == PurityBody(pass, first, ts[..i], old(scope))
        invariant clean == Clean(scope, |old(scope)|)
        invariant fixed == (old(fixed) && UnmovedTo(first, ts, ts', i))
      {
        var x', word := Visit(ts[i]);
        BodyVisitNext(pass, first, ts, old(scope), i);
        CleanSnoc(scope, word, |old(scope)|);
        UnmovedNext(first, ts, ts', x');
        ts', scope, clean := ts' + [x'], scope + [word], clean && word[0];
      }
      assert ts[..|ts|] == ts;
    }
  }

  /** No words that bear themselves out promise more than those of r. */
  ghost predicate Greatest(pass: Pass, t: Term, r: Term) {
    forall w | TreeLe(w, Fresh(t)) && Upheld(pass, w) :: TreeLe(w, r)
  }

  /** A visit finds no function's word too large. */
  predicate Upheld(pass: Pass, w: Term) {
    TreeLe(w, PurityTerm(pass, false, w, []).0)
  }

  lemma {:induction false} TreeLeTrans(t: Term, u: Term, v: Term)
    requires TreeLe(t, u) && TreeLe(u, v)
    ensures TreeLe(t, v)
    decreases t
  {
    if t.Fun? {
      forall i | 0 <= i < |t.terms| ensures TreeLe(t.terms[i], v.terms[i]) {
        TreeLeTrans(t.terms[i], u.terms[i], v.terms[i]);
      }
    }
  }

  /** What bears itself out stays below, visit by visit. */
  lemma {:induction false} VisitStaysAbove(pass: Pass, t: Term, r: Term, r': Term)
    requires r' == PurityTerm(pass, false, r, []).0
    requires forall w | TreeLe(w, Fresh(t)) && Upheld(pass, w) :: TreeLe(w, r)
    ensures Greatest(pass, t, r')
  {
    forall w | TreeLe(w, Fresh(t)) && Upheld(pass, w) ensures TreeLe(w, r') {
      PurityMono(pass, w, r, [], []);
      TreeLeTrans(w, PurityTerm(pass, false, w, []).0, r');
    }
  }

  /** Visits until no function's word moves.  The result is the same code, settled, and promises as much as can be. */
  method PassPurity(pass: Pass, t: Term) returns (r: Term)
    requires t.Fun?
    ensures Alike(t, r, Id) && Settled(pass, r, []) && OthersKept(pass, t, r) && Greatest(pass, t, r)
  {
    var p := new PurityPass(pass);
    var mask;
    r, mask := p.Visit(t);
    forall other | other != pass ensures SameFlags(other, t, r) { VisitKeepsOther(pass, other, true, t, []); }
    FirstIsFresh(pass, t, []);
    VisitStaysAbove(pass, t, Fresh(t), r);
    FreshUnmoved(t, r);
    VisitAlike(pass, true, t, []);
    FreshTop(t, r);
    p.first := false;
    PurityMono(pass, r, Fresh(t), [], []);
    if p.fixed { UnmovedSettles(pass, Fresh(t), []); }
    r := Settle(p, t, r);
  }

  ghost predicate OthersKept(pass: Pass, t: Term, r: Term) {
    forall other :: other != pass ==> SameFlags(other, t, r)
  }

  lemma {:induction false} OthersStillKept(pass: Pass, t: Term, r: Term, r': Term)
    requires OthersKept(pass, t, r) && r' == PurityTerm(pass, false, r, []).0
    ensures OthersKept(pass, t, r')
  {
    forall other | other != pass ensures SameFlags(other, t, r') {
      VisitKeepsOther(pass, other, false, r, []);
      SameFlagsTrans(other, t, r, r');
    }
  }

  method Settle(p: PurityPass, t: Term, start: Term) returns (r: Term)
    requires OthersKept(p.pass, t, start)
    requires p.scope == [] && !p.first && Alike(t, start, Id) && TreeLe(PurityTerm(p.pass, false, start, []).0, start)
    requires Greatest(p.pass, t, start) && (p.fixed ==> Settled(p.pass, start, []))
    modifies p
    ensures Alike(t, r, Id) && Settled(p.pass, r, []) && OthersKept(p.pass, t, r) && Greatest(p.pass, t, r)
  {
    r := start;
    while !p.fixed
      invariant p.scope == [] && !p.first && OthersKept(p.pass, t, r) && Greatest(p.pass, t, r)
      invariant Alike(t, r, Id) && TreeLe(PurityTerm(p.pass, false, r, []).0, r)
      invariant p.fixed ==> Settled(p.pass, r, [])
      decreases Bits(r), !p.fixed
    {
      p.fixed := true;
      var r', mask := p.Visit(r);
      VisitAlike(p.pass, false, r, []);
      AlikeTrans(t, r, r');
      PurityMono(p.pass, r', r, [], []);
      BitsLe(r, r');
      OthersStillKept(p.pass, t, r, r');
      VisitStaysAbove(p.pass, t, r, r');
      if p.fixed { UnmovedSettles(p.pass, r, []); }
      r := r';
    }
  }

  /** The pass leaves every run as it was, and every flag honoured in it. */
  lemma {:induction false} PassPreserves(pass: Pass, m: Machine, n: nat, t: Term, r: Term, h: History) returns (k: nat)
    requires Insists(pass, m) && t.Fun? && Alike(t, r, Id) && Settled(pass, r, [])
    requires RunProgram(Free(m), n, t, h).Done?
    ensures Same(Free(m), RunProgram(Free(m), n, t, h), RunProgram(m, k, r, h))
  {
    FunAlike(Free(m), n, t, [], [], r, [], [], Id);
    k := ProgramRelated(Free(m), n, t, r, h);
    SettledHonest(pass, r, []);
    ProgramSound(pass, m, k, r, r, h);
  }
}
