/** When one value may stand for another.

    Related(m, n, v, w): anything the rest of a program can do with v, in at most n
    calls on machine m, it can do with w on an unchecked machine, with the same
    history and related results.
 */
module SsaRelation {
  import opened Sequences
  import opened Ssa

  ghost predicate Related(m: Machine, n: nat, v: Value, w: Value)
    decreases n, v, 0
  {
    match v
    case VLit(_) => w == v
    case VCon(k, fs) =>
      && w.VCon? && w.cons == k && |w.fields| == |fs|
      && forall i :: 0 <= i < |fs| ==> Related(m, n, fs[i], w.fields[i])
    case VClo(_, _, _, _) =>
      && w.VClo?
      && forall k: nat, a: Value, b: Value, h: History ::
        k < n && Related(m, k, a, b) ==> CallMatched(m, k, v, a, w, b, h)
  }

  /** What the call v a does in k + 1 calls, the call w b can do too. */
  ghost predicate CallMatched(m: Machine, k: nat, v: Value, a: Value, w: Value, b: Value, h: History)
    decreases k
  {
    var o := Apply(m, k + 1, v, a, h);
    o.Done? ==>
      && (Claimed(m, v, o.value) ==> Claimable(m, w))
      && exists j: nat :: Same(m, o, Apply(Free(m), j, w, b, h))
  }

  /** A call of v that ends with the value x could be made by claim_apply. */
  predicate Claimed(m: Machine, v: Value, x: Value) {
    Claimable(m, v) && !(m.claims.Plain? && x.VClo?)
  }

  /** Outcome p does what outcome o did. */
  ghost predicate Same(m: Machine, o: Outcome, p: Outcome)
    requires o.Done?
    decreases o.left, o.value, 1
  {
    p.Done? && p.hist == o.hist && Related(m, o.left, o.value, p.value)
  }

  ghost predicate AllRelated(m: Machine, n: nat, vs: seq<Value>, ws: seq<Value>) {
    |vs| == |ws| && forall i :: 0 <= i < |vs| ==> Related(m, n, vs[i], ws[i])
  }

  lemma {:induction false} RelatedDown(m: Machine, n: nat, k: nat, v: Value, w: Value)
    requires Related(m, n, v, w) && k <= n
    ensures Related(m, k, v, w)
    decreases v
  {
    match v
    case VLit(_) =>
    case VCon(_, fs) =>
      forall i | 0 <= i < |fs| ensures Related(m, k, fs[i], w.fields[i]) {
        RelatedDown(m, n, k, fs[i], w.fields[i]);
      }
    case VClo(_, _, _, _) =>
  }

  lemma {:induction false} RelatedErase(m: Machine, n: nat, v: Value, w: Value)
    requires Related(m, n, v, w)
    ensures Erase(v) == Erase(w)
    decreases v, 0
  {
    if v.VCon? { RelatedEraseAll(m, n, v.fields, w.fields); }
  }

  lemma {:induction false} RelatedEraseAll(m: Machine, n: nat, vs: seq<Value>, ws: seq<Value>)
    requires AllRelated(m, n, vs, ws)
    ensures EraseAll(vs) == EraseAll(ws)
    decreases vs, 1
  {
    if vs != [] {
      var k := |vs| - 1;
      RelatedEraseAll(m, n, vs[..k], ws[..k]);
      RelatedErase(m, n, vs[k], ws[k]);
    }
  }

  lemma {:induction false} EmbedRelated(m: Machine, n: nat, d: Data)
    ensures Related(m, n, Embed(d), Embed(d))
    decreases d
  {
    if d.DCon? {
      forall i | 0 <= i < |d.fields| ensures Related(m, n, Embed(d.fields[i]), Embed(d.fields[i])) {
        EmbedRelated(m, n, d.fields[i]);
      }
    }
  }

  // ------------------------------------------------ operations respect relatedness

  lemma {:induction false} ApplyCongruent(m: Machine, n: nat, v: Value, a: Value, w: Value, b: Value, h: History)
    returns (k: nat)
    requires Related(m, n, v, w) && Related(m, n, a, b)
    requires Apply(m, n, v, a, h).Done?
    ensures Same(m, Apply(m, n, v, a, h), Apply(Free(m), k, w, b, h))
  {
    RelatedDown(m, n, n - 1, a, b);
    var o := Apply(m, n, v, a, h);
    assert CallMatched(m, n - 1, v, a, w, b, h);
    k :| Same(m, o, Apply(Free(m), k, w, b, h));
  }

  lemma {:induction false} ClaimCongruent(m: Machine, n: nat, v: Value, a: Value, w: Value, b: Value, h: History)
    returns (k: nat)
    requires Related(m, n, v, w) && Related(m, n, a, b)
    requires Claim(m, n, v, a, h).Done?
    ensures Same(m, Claim(m, n, v, a, h), Claim(Free(m), k, w, b, h))
  {
    RelatedDown(m, n, n - 1, a, b);
    assert CallMatched(m, n - 1, v, a, w, b, h);
    k := ApplyCongruent(m, n, v, a, w, b, h);
  }

  /** That a call has returned it only narrows what may be done with a closure. */
  lemma {:induction false} ReturnedRelated(m: Machine, n: nat, v: Value, w: Value)
    requires Related(m, n, v, w)
    ensures Related(m, n, Returned(v), w) && Related(m, n, Returned(v), Returned(w))
  {
    if v.VClo? {
      forall k: nat, a, b, h | k < n && Related(m, k, a, b)
        ensures CallMatched(m, k, Returned(v), a, w, b, h) && CallMatched(m, k, Returned(v), a, Returned(w), b, h)
      {
        ReturnedCall(m, k, v, a, w, b, h);
      }
    }
  }

  lemma {:induction false} ReturnedCall(m: Machine, k: nat, v: Value, a: Value, w: Value, b: Value, h: History)
    requires v.VClo? && w.VClo? && CallMatched(m, k, v, a, w, b, h)
    ensures CallMatched(m, k, Returned(v), a, w, b, h) && CallMatched(m, k, Returned(v), a, Returned(w), b, h)
  {
    var o := Apply(m, k + 1, v, a, h);
    assert Apply(m, k + 1, Returned(v), a, h) == o;
    if o.Done? {
      var j: nat :| Same(m, o, Apply(Free(m), j, w, b, h));
      assert Apply(Free(m), j, Returned(w), b, h) == Apply(Free(m), j, w, b, h);
    }
  }

  lemma {:induction false} ApplyAllSnoc(m: Machine, k: nat, j: nat, f: Value, init: seq<Value>, a: Value,
                                        args: seq<Value>, h: History)
    requires m.check.NoCheck? && args == init + [a] && ApplyAll(m, k, f, init, h).Done?
    requires var p := ApplyAll(m, k, f, init, h); Apply(m, j, p.value, a, p.hist).Done?
    ensures var p := ApplyAll(m, k, f, init, h);
      var q := Apply(m, j, p.value, a, p.hist);
      ApplyAll(m, k + j, f, args, h) == Done(q.value, q.hist, q.left + p.left)
  {
    var p := ApplyAll(m, k, f, init, h);
    ApplyAllMore(m, k, j, f, init, h);
    ApplyMore(m, j, p.left, p.value, a, p.hist);
    assert args[..|init|] == init;
  }

  lemma {:induction false} ApplyAllCongruent(m: Machine, n: nat, v: Value, vs: seq<Value>, w: Value, ws: seq<Value>,
                                             h: History)
    returns (k: nat)
    requires Related(m, n, v, w) && AllRelated(m, n, vs, ws)
    requires ApplyAll(m, n, v, vs, h).Done?
    ensures Same(m, ApplyAll(m, n, v, vs, h), ApplyAll(Free(m), k, w, ws, h))
    decreases |vs|
  {
    if vs == [] {
      k := 0;
    } else {
      var last := |vs| - 1;
      var init, init' := vs[..last], ws[..last];
      var o := ApplyAll(m, n, v, init, h);
      assert ApplyAll(m, n, v, vs, h) == Apply(m, o.left, o.value, vs[last], o.hist);
      var k0 := ApplyAllCongruent(m, n, v, init, w, init', h);
      k := ApplyStep(m, n, o, k0, vs[last], w, init', ws[last], ws, h);
    }
  }

  lemma {:induction false} ApplyStep(m: Machine, n: nat, o: Outcome, k0: nat, a: Value, w: Value, init': seq<Value>,
                                     b: Value, ws: seq<Value>, h: History)
    returns (k: nat)
    requires o.Done? && o.left <= n && Related(m, n, a, b) && ws == init' + [b]
    requires Same(m, o, ApplyAll(Free(m), k0, w, init', h)) && Apply(m, o.left, o.value, a, o.hist).Done?
    ensures Same(m, Apply(m, o.left, o.value, a, o.hist), ApplyAll(Free(m), k, w, ws, h))
  {
    var p := ApplyAll(Free(m), k0, w, init', h);
    RelatedDown(m, n, o.left, a, b);
    var k1 := ApplyCongruent(m, o.left, o.value, a, p.value, b, o.hist);
    k := k0 + k1;
    ApplyAllSnoc(Free(m), k0, k1, w, init', b, ws, h);
  }

  /** Every operation takes related operands to related results. */
  lemma {:induction false} OpCongruent(m: Machine, n: nat, op: Op, vs: seq<Value>, ws: seq<Value>, h: History)
    returns (k: nat)
    requires AllRelated(m, n, vs, ws)
    requires EvalOp(m, n, op, vs, h).Done?
    ensures Same(m, EvalOp(m, n, op, vs, h), EvalOp(Free(m), k, op, ws, h))
  {
    k := 0;
    match op
    case App => k := ApplyAllCongruent(m, n, vs[0], Tail(vs), ws[0], Tail(ws), h);
    case Prim(name, kind) =>
      if kind.FnArg? {
        k := ClaimCongruent(m, n, vs[1], vs[0], ws[1], ws[0], h);
      } else {
        RelatedEraseAll(m, n, vs, ws);
        EmbedRelated(m, n, m.run(name, EraseAll(vs), if kind.Pure? then [] else h));
      }
    case Get(_) =>
    case Des => k := HandleCongruent(m, n, vs[..|vs| - 1], vs[|vs| - 1], ws[..|ws| - 1], ws[|ws| - 1], h);
    case Con(_) =>
  }

  lemma {:induction false} HandleCongruent(m: Machine, n: nat, vs: seq<Value>, obj: Value, ws: seq<Value>, obj': Value,
                                           h: History)
    returns (k: nat)
    requires AllRelated(m, n, vs, ws) && Related(m, n, obj, obj')
    requires Handle(m, n, vs, obj, h).Done?
    ensures Same(m, Handle(m, n, vs, obj, h), Handle(Free(m), k, ws, obj', h))
  {
    var j := obj.cons.index;
    if m.claims.Plain? && |vs| == 1 {
      k := ApplyCongruent(m, n, vs[j], obj, ws[j], obj', h);
    } else {
      k := ClaimCongruent(m, n, vs[j], obj, ws[j], obj', h);
    }
  }

  // ------------------------------------------------ closures, from their bodies

  /** What one function body does in k calls, the other can do too. */
  ghost predicate RunMatched(m: Machine, k: nat, f: Term, env: seq<Value>, vs: seq<Value>,
                             f': Term, env': seq<Value>, ws: seq<Value>, h: History)
    requires f.Fun? && f'.Fun?
  {
    var o := RunFun(m, k, f, env, vs, h);
    o.Done? ==> exists j: nat :: Same(m, o, RunFun(Free(m), j, f', env', ws, h))
  }

  /** Bodies that end with values that may stand for each other are runs that do. */
  lemma {:induction false} RunSame(m: Machine, n: nat, f: Term, env: seq<Value>, vs: seq<Value>,
                                   f': Term, env': seq<Value>, ws: seq<Value>, k: nat, h: History)
    requires f.Fun? && f'.Fun? && RunFun(m, n, f, env, vs, h).Done?
    requires var b, b' := EvalBody(m, n, f.terms[Arity(f.terms)..], Entry(f, env, vs), h),
                          EvalBody(Free(m), k, f'.terms[Arity(f'.terms)..], Entry(f', env', ws), h);
      && b'.BodyDone? && b'.hist == b.hist && f'.output < |b'.env|
      && Related(m, b.left, b.env[f.output], b'.env[f'.output])
    ensures Same(m, RunFun(m, n, f, env, vs, h), RunFun(Free(m), k, f', env', ws, h))
  {
    var b, b' := EvalBody(m, n, f.terms[Arity(f.terms)..], Entry(f, env, vs), h),
                 EvalBody(Free(m), k, f'.terms[Arity(f'.terms)..], Entry(f', env', ws), h);
    ReturnedRelated(m, b.left, b.env[f.output], b'.env[f'.output]);
  }

  lemma {:induction false} ClosureRelated(m: Machine, n: nat, f: Term, env: seq<Value>, vs: seq<Value>,
                                          f': Term, env': seq<Value>, ws: seq<Value>)
    requires f.Fun? && f'.Fun? && Arity(f.terms) == Arity(f'.terms)
    requires AllRelated(m, n, vs, ws)
    requires forall k: nat, xs, ys, h | k < n && |xs| == Arity(f.terms) && AllRelated(m, k, xs, ys) ::
               RunMatched(m, k, f, env, xs, f', env', ys, h)
    ensures Related(m, n, VClo(f, env, vs), VClo(f', env', ws))
    decreases n
  {
    var v, w := VClo(f, env, vs), VClo(f', env', ws);
    forall k: nat, a, b, h | k < n && Related(m, k, a, b) ensures CallMatched(m, k, v, a, w, b, h) {
      var xs, ys := vs + [a], ws + [b];
      forall i | 0 <= i < |xs| ensures Related(m, k, xs[i], ys[i]) {
        if i < |vs| { RelatedDown(m, n, k, vs[i], ws[i]); }
      }
      if |xs| == Arity(f.terms) {
        assert RunMatched(m, k, f, env, xs, f', env', ys, h);
        var o := RunFun(m, k, f, env, xs, h);
        if o.Done? {
          var j: nat :| Same(m, o, RunFun(Free(m), j, f', env', ys, h));
          assert Apply(Free(m), j + 1, w, b, h) == RunFun(Free(m), j, f', env', ys, h);
        }
      } else {
        ClosureRelated(m, k, f, env, xs, f', env', ys);
        assert Same(m, Apply(m, k + 1, v, a, h), Apply(Free(m), 1, w, b, h));
      }
    }
  }

  // --------------------------------------------------------------- renaming

  /** t' is t with every reference x read as r(x); flags and scratch words are free to differ. */
  ghost predicate Alike(t: Term, t': Term, r: nat -> int)
    decreases t
  {
    match t
    case Arg(_) => t'.Arg?
    case Lit(_, x) => t'.Lit? && t'.value == x
    case Redux(_, op, args) =>
      && t'.Redux? && t'.op == op && |t'.args| == |args|
      && forall i :: 0 <= i < |args| ==> t'.args[i] == r(args[i])
    case Fun(_, _, terms, output) =>
      && t'.Fun? && |t'.terms| == |terms| && t'.output == r(output)
      && forall i :: 0 <= i < |terms| ==> Alike(terms[i], t'.terms[i], r)
  }

  function Id(i: nat): int { i }

  ghost predicate EnvRelated(m: Machine, n: nat, env: seq<Value>, env': seq<Value>, r: nat -> int) {
    && (forall i: nat :: i < |env| && 0 <= r(i) ==> r(i) < |env'| && Related(m, n, env[i], env'[r(i)]))
    && (forall i: nat :: |env| <= i ==> r(i) == i - |env| + |env'|)
  }

  lemma {:induction false} EnvDown(m: Machine, n: nat, k: nat, env: seq<Value>, env': seq<Value>, r: nat -> int)
    requires EnvRelated(m, n, env, env', r) && k <= n
    ensures EnvRelated(m, k, env, env', r)
  {
    forall i: nat | i < |env| && 0 <= r(i) ensures Related(m, k, env[i], env'[r(i)]) {
      RelatedDown(m, n, k, env[i], env'[r(i)]);
    }
  }

  lemma {:induction false} EnvSnoc(m: Machine, n: nat, k: nat, env: seq<Value>, env': seq<Value>, r: nat -> int,
                                   v: Value, w: Value)
    requires EnvRelated(m, n, env, env', r) && k <= n && Related(m, k, v, w)
    ensures EnvRelated(m, k, env + [v], env' + [w], r)
  {
    EnvDown(m, n, k, env, env', r);
  }

  lemma {:induction false} EntryRelated(m: Machine, n: nat, f: Term, env: seq<Value>, vs: seq<Value>,
                     f': Term, env': seq<Value>, ws: seq<Value>, r: nat -> int)
    requires EnvRelated(m, n, env, env', r) && AllRelated(m, n, vs, ws)
    requires Related(m, n, VClo(f, env, []), VClo(f', env', []))
    ensures EnvRelated(m, n, Entry(f, env, vs), Entry(f', env', ws), r)
  {
    var e, e' := Entry(f, env, vs), Entry(f', env', ws);
    forall i: nat | i < |e| && 0 <= r(i) ensures r(i) < |e'| && Related(m, n, e[i], e'[r(i)]) {
      if i < |env| {
      } else if i == |env| {
      } else {
        assert Related(m, n, vs[i - |env| - 1], ws[i - |env| - 1]);
      }
    }
  }

  lemma {:induction false} AlikeArity(ts: seq<Term>, ts': seq<Term>, r: nat -> int)
    requires |ts| == |ts'| && forall i :: 0 <= i < |ts| ==> Alike(ts[i], ts'[i], r)
    ensures Arity(ts) == Arity(ts')
  {
    var a, b := Arity(ts), Arity(ts');
    assert a < |ts| ==> (ts[a].Arg? <==> ts'[a].Arg?);
    assert b < |ts| ==> (ts[b].Arg? <==> ts'[b].Arg?);
  }

  /** Re-indexing a term in step with its environment preserves what it computes. */
  lemma {:induction false} TermAlike(m: Machine, n: nat, t: Term, t': Term, r: nat -> int,
                                     env: seq<Value>, env': seq<Value>, h: History) returns (k: nat)
    requires Alike(t, t', r) && EnvRelated(m, n, env, env', r)
    requires EvalTerm(m, n, t, env, h).Done?
    ensures Same(m, EvalTerm(m, n, t, env, h), EvalTerm(Free(m), k, t', env', h))
    decreases n, 1, 0
  {
    k := 0;
    match t
    case Lit(_, _) =>
    case Redux(_, op, args) =>
      k := OpCongruent(m, n, op, Select(env, args), Select(env', t'.args), h);
    case Fun(_, _, _, _) =>
      FunAlike(m, n, t, env, [], t', env', [], r);
  }

  lemma {:induction false} FunAlike(m: Machine, n: nat, f: Term, env: seq<Value>, vs: seq<Value>,
                                    f': Term, env': seq<Value>, ws: seq<Value>, r: nat -> int)
    requires f.Fun? && Alike(f, f', r) && EnvRelated(m, n, env, env', r) && AllRelated(m, n, vs, ws)
    ensures Related(m, n, VClo(f, env, vs), VClo(f', env', ws))
    decreases n, 0, 0
  {
    AlikeArity(f.terms, f'.terms, r);
    var a := Arity(f.terms);
    forall k: nat, xs, ys, h | k < n && |xs| == a && AllRelated(m, k, xs, ys)
      ensures RunMatched(m, k, f, env, xs, f', env', ys, h)
    {
      if RunFun(m, k, f, env, xs, h).Done? {
        var e, e' := Entry(f, env, xs), Entry(f', env', ys);
        EnvDown(m, n, k, env, env', r);
        FunAlike(m, k, f, env, [], f', env', [], r);
        EntryRelated(m, k, f, env, xs, f', env', ys, r);
        var j := BodyAlike(m, k, f.terms[a..], f'.terms[a..], r, e, e', h);
        RunSame(m, k, f, env, xs, f', env', ys, j, h);
        assert Same(m, RunFun(m, k, f, env, xs, h), RunFun(Free(m), j, f', env', ys, h));
      }
    }
    ClosureRelated(m, n, f, env, vs, f', env', ws);
  }

  ghost predicate BodyRelated(m: Machine, b: BodyOutcome, b': BodyOutcome, r: nat -> int)
    requires b.BodyDone?
  {
    b'.BodyDone? && b'.hist == b.hist && EnvRelated(m, b.left, b.env, b'.env, r)
  }

  lemma {:induction false} BodyAlikeSnoc(m: Machine, n: nat, ts: seq<Term>, t: Term, ts1: seq<Term>, ts': seq<Term>,
                                         t': Term, ts1': seq<Term>,
                      r: nat -> int, env: seq<Value>, env': seq<Value>, k0: nat, k1: nat, h: History)
    requires ts1 == ts + [t] && ts1' == ts' + [t'] && EvalBody(m, n, ts1, env, h).BodyDone?
    requires EvalBody(m, n, ts, env, h).BodyDone?
    requires BodyRelated(m, EvalBody(m, n, ts, env, h), EvalBody(Free(m), k0, ts', env', h), r)
    requires var b, b' := EvalBody(m, n, ts, env, h), EvalBody(Free(m), k0, ts', env', h);
      var o := EvalTerm(m, b.left, t, b.env, b.hist);
      o.Done? && Same(m, o, EvalTerm(Free(m), k1, t', b'.env, b'.hist))
    ensures BodyRelated(m, EvalBody(m, n, ts1, env, h), EvalBody(Free(m), k0 + k1, ts1', env', h), r)
  {
    assert ts1[..|ts|] == ts;
    var b, b' := EvalBody(m, n, ts, env, h), EvalBody(Free(m), k0, ts', env', h);
    var o, p := EvalTerm(m, b.left, t, b.env, b.hist), EvalTerm(Free(m), k1, t', b'.env, b'.hist);
    BodySnoc(Free(m), k0, k1, ts', t', env', h);
    EnvSnoc(m, b.left, o.left, b.env, b'.env, r, o.value, p.value);
  }

  lemma {:induction false} BodyAlike(m: Machine, n: nat, ts: seq<Term>, ts': seq<Term>, r: nat -> int,
                                     env: seq<Value>, env': seq<Value>, h: History) returns (k: nat)
    requires |ts| == |ts'| && (forall i :: 0 <= i < |ts| ==> Alike(ts[i], ts'[i], r))
    requires EnvRelated(m, n, env, env', r)
    requires EvalBody(m, n, ts, env, h).BodyDone?
    ensures BodyRelated(m, EvalBody(m, n, ts, env, h), EvalBody(Free(m), k, ts', env', h), r)
    decreases n, 2, |ts|
  {
    if ts == [] {
      k := 0;
    } else {
      var z := |ts| - 1;
      var init, t, init', t' := ts[..z], ts[z], ts'[..z], ts'[z];
      assert ts == init + [t] && ts' == init' + [t'];
      var b := EvalBody(m, n, init, env, h);
      BodyLast(m, n, ts, init, t, env, h, b);
      var k0 := BodyAlike(m, n, init, init', r, env, env', h);
      var b' := EvalBody(Free(m), k0, init', env', h);
      var k1 := TermAlike(m, b.left, t, t', r, b.env, b'.env, b.hist);
      k := k0 + k1;
      BodyAlikeSnoc(m, n, init, t, ts, init', t', ts', r, env, env', k0, k1, h);
    }
  }

  /** A body that ran to its end ran its last term. */
  lemma {:induction false} BodyLast(m: Machine, n: nat, ts: seq<Term>, init: seq<Term>, t: Term, env: seq<Value>,
                                    h: History, b: BodyOutcome)
    requires ts == init + [t] && b == EvalBody(m, n, init, env, h) && EvalBody(m, n, ts, env, h).BodyDone?
    ensures b.BodyDone? && EvalTerm(m, b.left, t, b.env, b.hist).Done?
  {
    assert ts[..|ts| - 1] == init;
  }

  // ------------------------------------------- reflexive, transitive, observable

  lemma {:induction false} AlikeSelf(t: Term)
    ensures Alike(t, t, Id)
    decreases t
  {
    if t.Fun? {
      forall i | 0 <= i < |t.terms| ensures Alike(t.terms[i], t.terms[i], Id) { AlikeSelf(t.terms[i]); }
    }
  }

  lemma {:induction false} RelatedSelf(m: Machine, n: nat, v: Value)
    ensures Related(m, n, v, v)
    decreases v, 1
  {
    match v
    case VLit(_) =>
    case VCon(_, fs) => AllRelatedSelf(m, n, fs);
    case VClo(f, env, vs, _) =>
      if f.Fun? {
        AlikeSelf(f);
        AllRelatedSelf(m, n, env);
        AllRelatedSelf(m, n, vs);
        FunAlike(m, n, f, env, vs, f, env, vs, Id);
        ReturnedRelated(m, n, VClo(f, env, vs), VClo(f, env, vs));
      } else {
        forall k: nat, a, b, h | k < n && Related(m, k, a, b) ensures CallMatched(m, k, v, a, v, b, h) {
        }
      }
  }

  lemma {:induction false} AllRelatedSelf(m: Machine, n: nat, vs: seq<Value>)
    ensures AllRelated(m, n, vs, vs)
    decreases vs, 0
  {
    forall i | 0 <= i < |vs| ensures Related(m, n, vs[i], vs[i]) { RelatedSelf(m, n, vs[i]); }
  }

  /** w may stand for v, for however long a program runs. */
  ghost predicate Replaces(m: Machine, v: Value, w: Value) {
    forall n: nat :: Related(m, n, v, w)
  }

  lemma {:induction false} ReplacedCall(m: Machine, j: nat, v: Value, w: Value, b: Value, h: History) returns (j': nat)
    requires m.check.NoCheck? && Replaces(m, v, w) && Apply(m, j, v, b, h).Done?
    ensures var p, q := Apply(m, j, v, b, h), Apply(m, j', w, b, h);
      q.Done? && q.hist == p.hist && Replaces(m, p.value, q.value)
  {
    assert Free(m) == m;
    RelatedSelf(m, j, b);
    assert Related(m, j, v, w);
    j' := ApplyCongruent(m, j, v, b, w, b, h);
    var p, q := Apply(m, j, v, b, h), Apply(m, j', w, b, h);
    forall n: nat ensures Related(m, n, p.value, q.value) {
      RelatedSelf(m, j + n, b);
      assert Related(m, j + n, v, w);
      ApplyMore(m, j, n, v, b, h);
      var j2 := ApplyCongruent(m, j + n, v, b, w, b, h);
      ApplyMore(m, j', j2, w, b, h);
      ApplyMore(m, j2, j', w, b, h);
      RelatedDown(m, p.left + n, n, p.value, q.value);
    }
  }

  lemma {:induction false} ReplacedClaim(m: Machine, j: nat, v: Value, w: Value, b: Value, h: History)
    requires m.check.NoCheck? && Replaces(m, v, w) && v.VClo? && Apply(m, j, v, b, h).Done?
    ensures Claimed(m, v, Apply(m, j, v, b, h).value) ==> Claimable(m, w)
  {
    RelatedSelf(m, j - 1, b);
    assert Related(m, j, v, w);
    assert CallMatched(m, j - 1, v, b, w, b, h);
  }

  lemma {:induction false} RelatedTrans(m: Machine, n: nat, u: Value, v: Value, w: Value)
    requires Related(m, n, u, v) && Replaces(Free(m), v, w)
    ensures Related(m, n, u, w)
    decreases n, u
  {
    assert Related(Free(m), 0, v, w);
    match u
    case VLit(_) =>
    case VCon(_, fs) =>
      forall i | 0 <= i < |fs| ensures Related(m, n, fs[i], w.fields[i]) {
        forall k: nat ensures Related(Free(m), k, v.fields[i], w.fields[i]) { assert Related(Free(m), k, v, w); }
        RelatedTrans(m, n, fs[i], v.fields[i], w.fields[i]);
      }
    case VClo(_, _, _, _) =>
      forall k: nat, a, b, h | k < n && Related(m, k, a, b) ensures CallMatched(m, k, u, a, w, b, h) {
        assert CallMatched(m, k, u, a, v, b, h);
        var o := Apply(m, k + 1, u, a, h);
        if o.Done? {
          var j: nat :| Same(m, o, Apply(Free(m), j, v, b, h));
          var j' := ReplacedCall(Free(m), j, v, w, b, h);
          var p, q := Apply(Free(m), j, v, b, h), Apply(Free(m), j', w, b, h);
          RelatedTrans(m, o.left, o.value, p.value, q.value);
          ReplacedClaim(Free(m), j, v, w, b, h);
          assert Same(m, o, q);
        }
      }
  }

  /** Related data is equal data. */
  lemma {:induction false} RelatedData(m: Machine, n: nat, v: Value, w: Value)
    requires Related(m, n, v, w) && Tangible(Erase(v))
    ensures v == w
    decreases v
  {
    if v.VCon? {
      forall i | 0 <= i < |v.fields| ensures v.fields[i] == w.fields[i] {
        EraseAt(v.fields, i);
        RelatedData(m, n, v.fields[i], w.fields[i]);
      }
      assert v.fields == w.fields;
    }
  }

  lemma {:induction false} EraseAt(vs: seq<Value>, i: nat)
    requires i < |vs|
    ensures EraseAll(vs)[i] == Erase(vs[i])
  {
    if i < |vs| - 1 { EraseAt(vs[..|vs| - 1], i); }
  }

  /** A program may be replaced by one whose closure may stand for its own. */
  lemma {:induction false} ProgramRelated(m: Machine, n: nat, top: Term, top': Term, h: History) returns (k: nat)
    requires Related(m, n, VClo(top, [], []), VClo(top', [], [])) && RunProgram(m, n, top, h).Done?
    ensures Same(m, RunProgram(m, n, top, h), RunProgram(Free(m), k, top', h))
  {
    k := ClaimCongruent(m, n, VClo(top, [], []), VClo(top, [], []), VClo(top', [], []), VClo(top', [], []), h);
  }
}
