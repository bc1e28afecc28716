/** Liveness by backward reference counting, and removal of the dead terms. */
module UsageSweep {
  import opened Sequences
  import opened Ssa
  import opened SsaRelation
  import opened TermStreams

  // ----------------------------------------------------------------------- usage

  /** redux_usage: one more reference for every argument. */
  function Bump(counts: seq<nat>, args: seq<nat>): (r: seq<nat>)
    ensures |r| == |counts|
    ensures forall x :: 0 <= x < |counts| ==> counts[x] <= r[x] && (x in args ==> 0 < r[x])
  {
    if args == [] then counts else
    var z := |args| - 1;
    var r := Bump(counts, args[..z]);
    assert args == args[..z] + [args[z]];
    if args[z] < |r| then r[args[z] := r[args[z]] + 1] else r
  }

  function Mark(t: Term, count: nat): Term {
    t.(flags := t.flags.(used := Live(t, count), singleton := count == 1))
  }

  predicate Live(t: Term, count: nat) {
    count > 0 || t.flags.effect
  }

  /** What a live term adds to the counts; the last count is its own. */
  function UsageTerm(t: Term, counts: seq<nat>): (r: (Term, seq<nat>))
    ensures |r.1| == |counts| && r.0.flags == t.flags
    decreases t, 1
  {
    match t
    case Arg(_) => (t, counts)
    case Lit(_, _) => (t, counts)
    case Redux(_, _, args) => (t, Bump(counts, args))
    case Fun(_, _, terms, output) =>
      var body := UsageBody(terms, Bump(counts + seq(|terms|, _ => 0), [output]));
      (t.(terms := body.0), body.1)
  }

  /** The terms of a body, last to first: a term is live once something later uses it. */
  function UsageBody(ts: seq<Term>, counts: seq<nat>): (r: (seq<Term>, seq<nat>))
    requires |ts| <= |counts|
    ensures |r.0| == |ts| && |r.1| == |counts| - |ts|
    decreases ts, 0
  {
    if ts == [] then ([], counts) else
    var z, own := |ts| - 1, |counts| - 1;
    var u := if Live(ts[z], counts[own]) then UsageTerm(ts[z], counts) else (ts[z], counts);
    var rest := UsageBody(ts[..z], u.1[..own]);
    (rest.0 + [Mark(u.0, counts[own])], rest.1)
  }

  /** The references a live term at index k makes to indices up to its own. */
  function Uses(t: Term, k: nat): set<nat>
    decreases t, 1
  {
    match t
    case Arg(_) => {}
    case Lit(_, _) => {}
    case Redux(_, _, args) => set x | x in args && x < k
    case Fun(_, _, terms, output) => set x | x in FunUses(terms, output, k) && x <= k
  }

  function FunUses(terms: seq<Term>, output: nat, k: nat): set<nat>
    decreases terms, 1
  {
    BodyUses(terms, k + 1) + {output}
  }

  function BodyUses(ts: seq<Term>, k: nat): set<nat>
    decreases ts, 0
  {
    if ts == [] then {} else
    var z := |ts| - 1;
    BodyUses(ts[..z], k) + if ts[z].flags.used then Uses(ts[z], k + z) else {}
  }

  /** Nothing live refers to anything dead, and parameters and effects are live. */
  predicate Closed(t: Term, k: nat)
    decreases t, 1
  {
    t.Fun? ==>
      && BodyClosed(t.terms, k + 1)
      && forall x <- FunUses(t.terms, t.output, k) :: k < x <= k + |t.terms| ==> t.terms[x - k - 1].flags.used
  }

  predicate BodyClosed(ts: seq<Term>, k: nat)
    decreases ts, 0
  {
    ts != [] ==>
      var z := |ts| - 1;
      && BodyClosed(ts[..z], k)
      && (ts[z].Arg? || ts[z].flags.effect ==> ts[z].flags.used)
      && (ts[z].flags.used ==> Closed(ts[z], k + z))
  }

  /** Parameters lead, and the purity pass has flagged them. */
  predicate ArgsFlagged(t: Term)
    decreases t
  {
    && (t.Arg? ==> t.flags.effect)
    && (t.Fun? ==> forall i :: 0 <= i < |t.terms| ==>
         ArgsFlagged(t.terms[i]) && (t.terms[i].Arg? ==> i < Arity(t.terms)))
  }

  /** counts became counts' by adding, at least, what the live term t at index k uses. */
  predicate TermTallied(t: Term, k: nat, counts: seq<nat>, counts': seq<nat>) {
    && |counts| == |counts'| == k + 1
    && (forall x :: 0 <= x < |counts| ==> counts[x] <= counts'[x])
    && (forall x <- Uses(t, k) :: 0 < counts'[x])
    && Closed(t, k)
  }

  predicate BodyTallied(ts: seq<Term>, k: nat, counts: seq<nat>, counts': seq<nat>) {
    && |counts'| == k && |counts| == k + |ts|
    && (forall x :: 0 <= x < k ==> counts[x] <= counts'[x])
    && (forall x <- BodyUses(ts, k) :: if x < k then 0 < counts'[x] else x < |counts| && ts[x - k].flags.used)
    && (forall x :: k <= x < |counts| && counts[x] > 0 ==> ts[x - k].flags.used)
    && BodyClosed(ts, k)
  }

  lemma {:induction false} UsageTermCloses(t: Term, counts: seq<nat>)
    requires counts != [] && ArgsFlagged(t)
    ensures TermTallied(UsageTerm(t, counts).0, |counts| - 1, counts, UsageTerm(t, counts).1)
    decreases t, 1
  {
    if t.Fun? {
      var c := Bump(counts + seq(|t.terms|, _ => 0), [t.output]);
      assert t.output in [t.output];
      forall x | 0 <= x < |counts| ensures counts[x] <= c[x] {
        assert (counts + seq(|t.terms|, _ => 0))[x] <= c[x];
      }
      UsageBodyCloses(t.terms, c);
      FunTallied(UsageTerm(t, counts).0, counts, c, UsageTerm(t, counts).1);
    }
  }

  lemma {:induction false} FunTallied(f: Term, counts: seq<nat>, c: seq<nat>, counts': seq<nat>)
    requires f.Fun? && counts != [] && BodyTallied(f.terms, |counts|, c, counts')
    requires forall x :: 0 <= x < |counts| ==> counts[x] <= c[x]
    requires f.output < |c| ==> c[f.output] > 0
    ensures TermTallied(f, |counts| - 1, counts, counts')
  {
    var k := |counts| - 1;
    assert k + 1 == |counts| && FunUses(f.terms, f.output, k) == BodyUses(f.terms, |counts|) + {f.output};
    forall x | x in FunUses(f.terms, f.output, k) && k < x <= k + |f.terms| ensures f.terms[x - k - 1].flags.used {
      if x == f.output { assert c[x] > 0; } else { assert x in BodyUses(f.terms, |counts|); }
    }
  }

  lemma {:induction false} MarkTallied(t: Term, count: nat, k: nat, counts: seq<nat>, counts': seq<nat>)
    requires TermTallied(t, k, counts, counts')
    ensures TermTallied(Mark(t, count), k, counts, counts')
  {
    assert Uses(Mark(t, count), k) == Uses(t, k);
  }

  lemma {:induction false} TallySnoc(ts: seq<Term>, t: Term, ts': seq<Term>, k: nat, c: seq<nat>, c1: seq<nat>,
                                     c': seq<nat>)
    requires ts' == ts + [t] && |c| == k + |ts| + 1 && |c1| == |c| && BodyTallied(ts, k, c1[..|c| - 1], c')
    requires t.Arg? || t.flags.effect || c[|c| - 1] > 0 ==> t.flags.used
    requires if t.flags.used then TermTallied(t, |c| - 1, c, c1) else c1 == c
    ensures BodyTallied(ts', k, c, c')
  {
    assert ts'[..|ts|] == ts;
    var own := |c| - 1;
    var below := c1[..own];
    forall x | x in BodyUses(ts', k) ensures if x < k then 0 < c'[x] else x < |c| && ts'[x - k].flags.used {
      if x !in BodyUses(ts, k) {
        assert t.flags.used && x in Uses(t, own) && 0 < c1[x];
        if x < own { assert below[x] > 0; }
      }
    }
    forall x | k <= x < |c| && c[x] > 0 ensures ts'[x - k].flags.used {
      if x < own { assert below[x] > 0; }
    }
  }

  lemma {:induction false} UsageBodyCloses(ts: seq<Term>, counts: seq<nat>)
    requires |ts| <= |counts| && forall i :: 0 <= i < |ts| ==> ArgsFlagged(ts[i])
    ensures BodyTallied(UsageBody(ts, counts).0, |counts| - |ts|, counts, UsageBody(ts, counts).1)
    decreases ts, 0
  {
    if ts != [] {
      var z, own := |ts| - 1, |counts| - 1;
      var live := Live(ts[z], counts[own]);
      var u := if live then UsageTerm(ts[z], counts) else (ts[z], counts);
      if live {
        UsageTermCloses(ts[z], counts);
        MarkTallied(u.0, counts[own], own, counts, u.1);
      }
      UsageBodyCloses(ts[..z], u.1[..own]);
      var rest, t := UsageBody(ts[..z], u.1[..own]), Mark(u.0, counts[own]);
      TallySnoc(rest.0, t, UsageBody(ts, counts).0, |counts| - |ts|, counts, u.1, rest.1);
    }
  }

  // ----------------------------------------------------------------------- sweep

  datatype Swept = Swept(terms: seq<Term>, map_: seq<int>, end: nat)

  /** A live term, already placed last in the map, with the target scope ending at `end`. */
  function SweepTerm(t: Term, map_: seq<int>, end: nat): Term
    decreases t, 1
  {
    match t
    case Arg(_) => t
    case Lit(_, _) => t
    case Redux(_, _, args) => t.(args := LookAll(map_, args))
    case Fun(_, _, terms, output) =>
      var body := SweepBody(terms, map_, end);
      t.(terms := body.terms, output := Look(body.map_, output))
  }

  function SweepBody(ts: seq<Term>, map_: seq<int>, end: nat): (r: Swept)
    ensures |r.map_| == |map_| + |ts| && r.end == end + |r.terms|
    ensures forall i :: 0 <= i < |map_| ==> r.map_[i] == map_[i]
    decreases ts, 0
  {
    if ts == [] then Swept([], map_, end) else
    var z := |ts| - 1;
    var b := SweepBody(ts[..z], map_, end);
    if ts[z].flags.used
    then Swept(b.terms + [SweepTerm(ts[z], b.map_ + [b.end], b.end + 1)], b.map_ + [b.end], b.end + 1)
    else Swept(b.terms, b.map_ + [-1], b.end)
  }

  /** The pass over a whole program, whose function is term 0. */
  function Sweep(top: Term): Term {
    SweepTerm(top, [0], 1)
  }

  ghost predicate EnvMapped(m: Machine, n: nat, env: seq<Value>, env': seq<Value>, map_: seq<int>) {
    |map_| == |env| &&
    forall i :: 0 <= i < |env| && map_[i] >= 0 ==> map_[i] < |env'| && Related(m, n, env[i], env'[map_[i]])
  }

  lemma {:induction false} EnvMappedSnoc(m: Machine, n: nat, k: nat, env: seq<Value>, env': seq<Value>, map_: seq<int>,
                                         v: Value, w: Value)
    requires EnvMapped(m, n, env, env', map_) && k <= n && Related(m, k, v, w)
    ensures EnvMapped(m, k, env + [v], env' + [w], map_ + [|env'|])
    ensures EnvMapped(m, k, env + [v], env', map_ + [-1])
  {
    forall i | 0 <= i < |env| && map_[i] >= 0 ensures Related(m, k, env[i], env'[map_[i]]) {
      RelatedDown(m, n, k, env[i], env'[map_[i]]);
    }
  }

  lemma {:induction false} UsesIn(ts: seq<Term>, k: nat, i: nat)
    requires i < |ts| && ts[i].flags.used
    ensures Uses(ts[i], k + i) <= BodyUses(ts, k)
  {
    if i < |ts| - 1 { UsesIn(ts[..|ts| - 1], k, i); }
  }

  lemma {:induction false} ClosedAt(ts: seq<Term>, k: nat, i: nat)
    requires i < |ts| && BodyClosed(ts, k)
    ensures ts[i].Arg? || ts[i].flags.effect ==> ts[i].flags.used
    ensures ts[i].flags.used ==> Closed(ts[i], k + i)
  {
    if i < |ts| - 1 { ClosedAt(ts[..|ts| - 1], k, i); }
  }

  /** A body index is mapped exactly when its term is live. */
  lemma {:induction false} MappedAt(ts: seq<Term>, map_: seq<int>, end: nat, i: nat)
    requires i < |ts|
    ensures var b := SweepBody(ts, map_, end);
      if ts[i].flags.used then end <= b.map_[|map_| + i] < b.end else b.map_[|map_| + i] == -1
  {
    if i < |ts| - 1 { MappedAt(ts[..|ts| - 1], map_, end, i); }
  }

  lemma {:induction false} SweepNext(ts: seq<Term>, map_: seq<int>, end: nat, z: nat)
    requires z < |ts|
    ensures var b := SweepBody(ts[..z], map_, end);
      SweepBody(ts[..z + 1], map_, end) ==
        if ts[z].flags.used
        then Swept(b.terms + [SweepTerm(ts[z], b.map_ + [b.end], b.end + 1)], b.map_ + [b.end], b.end + 1)
        else Swept(b.terms, b.map_ + [-1], b.end)
  {
    assert ts[..z + 1][..z] == ts[..z];
  }

  lemma {:induction false} SweepArgs(ts: seq<Term>, map_: seq<int>, end: nat)
    requires forall i :: 0 <= i < |ts| ==> ts[i].Arg? && ts[i].flags.used
    ensures var b := SweepBody(ts, map_, end);
      b.terms == ts && forall i :: |map_| <= i < |b.map_| ==> b.map_[i] == end + i - |map_|
  {
    if ts != [] {
      SweepArgs(ts[..|ts| - 1], map_, end);
    }
  }

  lemma {:induction false} SweepHasNoArgs(ts: seq<Term>, map_: seq<int>, end: nat, a: nat, j: nat)
    requires a <= j <= |ts| && forall i :: a <= i < j ==> !ts[i].Arg?
    ensures var b, b' := SweepBody(ts[..a], map_, end), SweepBody(ts[..j], map_, end);
      |b.terms| <= |b'.terms| && b'.terms[..|b.terms|] == b.terms
      && forall i :: |b.terms| <= i < |b'.terms| ==> !b'.terms[i].Arg?
    decreases j
  {
    if j > a {
      SweepHasNoArgs(ts, map_, end, a, j - 1);
      SweepNext(ts, map_, end, j - 1);
    }
  }

  lemma {:induction false} ArityIs(ts: seq<Term>, a: nat)
    requires a <= |ts| && (forall i :: 0 <= i < a ==> ts[i].Arg?) && (a < |ts| ==> !ts[a].Arg?)
    ensures Arity(ts) == a
  {
    assert Arity(ts) < |ts| ==> !ts[Arity(ts)].Arg?;
  }

  lemma {:induction false} ArityLeads(ts: seq<Term>)
    ensures forall i :: 0 <= i < Arity(ts) ==> ts[i].Arg?
  {
  }

  /** Everything a function uses is mapped: outer references by `map_`, inner ones because they are live. */
  predicate Reaches(f: Term, k: nat, map_: seq<int>)
    requires f.Fun?
  {
    && |map_| == k + 1 && Closed(f, k)
    && forall x <- Uses(f, k) :: map_[x] >= 0
  }

  lemma {:induction false} ReachesAt(f: Term, k: nat, map_: seq<int>, end: nat, i: nat)
    requires f.Fun? && Reaches(f, k, map_) && i < |f.terms| && f.terms[i].flags.used
    ensures var b := SweepBody(f.terms[..i], map_, end);
      forall x <- Uses(f.terms[i], k + 1 + i) :: x < |b.map_| ==> b.map_[x] >= 0
  {
    var b := SweepBody(f.terms[..i], map_, end);
    UsesIn(f.terms, k + 1, i);
    forall x | x in Uses(f.terms[i], k + 1 + i) && x < |b.map_| ensures b.map_[x] >= 0 {
      assert x in FunUses(f.terms, f.output, k);
      if x <= k {
        assert x in Uses(f, k);
      } else {
        MappedAt(f.terms[..i], map_, end, x - k - 1);
      }
    }
  }

  // ------------------------------------------------------ sweeping keeps meaning

  ghost predicate TermMatched(m: Machine, n: nat, t: Term, t': Term, env: seq<Value>, env': seq<Value>, h: History) {
    var o := EvalTerm(m, n, t, env, h);
    o.Done? ==> exists k: nat :: Same(m, o, EvalTerm(Free(m), k, t', env', h))
  }

  ghost predicate BodySame(m: Machine, b: BodyOutcome, b': BodyOutcome, map_: seq<int>)
    requires b.BodyDone?
  {
    b'.BodyDone? && b'.hist == b.hist && EnvMapped(m, b.left, b.env, b'.env, map_)
  }

  /** What the source body does, the swept body can do, with values where the map says. */
  ghost predicate BodyMatched(m: Machine, n: nat, ts: seq<Term>, ts': seq<Term>,
                              env: seq<Value>, env': seq<Value>, map_: seq<int>, h: History) {
    var b := EvalBody(m, n, ts, env, h);
    b.BodyDone? ==> exists k: nat :: BodySame(m, b, EvalBody(Free(m), k, ts', env', h), map_)
  }

  lemma {:induction false} MatchedLive(m: Machine, n: nat, ts: seq<Term>, t: Term, u: seq<Term>, ts': seq<Term>,
                                       t': Term, u': seq<Term>,
                    env: seq<Value>, env': seq<Value>, map_: seq<int>, h: History)
    requires u == ts + [t] && u' == ts' + [t'] && BodyMatched(m, n, ts, ts', env, env', map_, h)
    requires forall n': nat, e, e', h' | n' <= n && |e'| == |env'| + |ts'| && EnvMapped(m, n', e, e', map_) ::
               TermMatched(m, n', t, t', e, e', h')
    ensures BodyMatched(m, n, u, u', env, env', map_ + [|env'| + |ts'|], h)
  {
    assert u[..|ts|] == ts;
    var b := EvalBody(m, n, ts, env, h);
    if EvalBody(m, n, u, env, h).BodyDone? {
      var k: nat :| BodySame(m, b, EvalBody(Free(m), k, ts', env', h), map_);
      var b' := EvalBody(Free(m), k, ts', env', h);
      var o := EvalTerm(m, b.left, t, b.env, b.hist);
      assert TermMatched(m, b.left, t, t', b.env, b'.env, b.hist);
      var j: nat :| Same(m, o, EvalTerm(Free(m), j, t', b'.env, b.hist));
      BodySnoc(Free(m), k, j, ts', t', env', h);
      EnvMappedSnoc(m, b.left, o.left, b.env, b'.env, map_, o.value, EvalTerm(Free(m), j, t', b'.env, b.hist).value);
      assert BodySame(m, EvalBody(m, n, u, env, h), EvalBody(Free(m), k + j, u', env', h), map_ + [|env'| + |ts'|]);
    }
  }

  lemma {:induction false} UnflaggedIsQuiet(m: Machine, n: nat, t: Term, env: seq<Value>, h: History)
    requires m.check.CheckEffect? && !t.flags.effect && EvalTerm(m, n, t, env, h).Done?
    ensures EvalTerm(m, n, t, env, h).hist == h
  {
    if t.Redux? { assert Honoured(m, n, t.flags, t.op, Select(env, t.args), h); }
  }

  /** A dead term left no trace: its flags said so, and this run honours them. */
  lemma {:induction false} MatchedDead(m: Machine, n: nat, ts: seq<Term>, t: Term, u: seq<Term>, ts': seq<Term>,
                    env: seq<Value>, env': seq<Value>, map_: seq<int>, h: History)
    requires u == ts + [t] && BodyMatched(m, n, ts, ts', env, env', map_, h)
    requires m.check.CheckEffect? && !t.flags.effect
    ensures BodyMatched(m, n, u, ts', env, env', map_ + [-1], h)
  {
    assert u[..|ts|] == ts;
    var b := EvalBody(m, n, ts, env, h);
    if EvalBody(m, n, u, env, h).BodyDone? {
      var k: nat :| BodySame(m, b, EvalBody(Free(m), k, ts', env', h), map_);
      var b' := EvalBody(Free(m), k, ts', env', h);
      var o := EvalTerm(m, b.left, t, b.env, b.hist);
      UnflaggedIsQuiet(m, b.left, t, b.env, b.hist);
      RelatedSelf(m, o.left, o.value);
      EnvMappedSnoc(m, b.left, o.left, b.env, b'.env, map_, o.value, o.value);
      assert BodySame(m, EvalBody(m, n, u, env, h), b', map_ + [-1]);
    }
  }

  lemma {:induction false} SweepTermMatched(m: Machine, n: nat, t: Term, map_: seq<int>, env: seq<Value>,
                                            env': seq<Value>, h: History)
    requires m.check.CheckEffect? && EnvMapped(m, n, env, env', map_) && ArgsFlagged(t) && Closed(t, |map_|)
    requires forall x <- Uses(t, |map_|) :: x < |map_| ==> map_[x] >= 0
    ensures TermMatched(m, n, t, SweepTerm(t, map_ + [|env'|], |env'| + 1), env, env', h)
    decreases n, t, 2
  {
    var t' := SweepTerm(t, map_ + [|env'|], |env'| + 1);
    var o := EvalTerm(m, n, t, env, h);
    if o.Done? {
      match t
      case Lit(_, _) => assert Same(m, o, EvalTerm(Free(m), 0, t', env', h));
      case Redux(_, op, args) =>
        forall i | 0 <= i < |args| ensures t'.args[i] < |env'| && Related(m, n, env[args[i]], env'[t'.args[i]]) {
          assert args[i] in Uses(t, |map_|);
        }
        var k := OpCongruent(m, n, op, Select(env, args), Select(env', t'.args), h);
        assert Same(m, o, EvalTerm(Free(m), k, t', env', h));
      case Fun(_, _, _, _) =>
        SweepFunRelated(m, n, t, map_ + [|env'|], env, env');
        assert Same(m, o, EvalTerm(Free(m), 0, t', env', h));
    }
  }

  /** The swept function may stand for the source function. */
  lemma {:induction false} SweepFunRelated(m: Machine, n: nat, f: Term, map_: seq<int>, env: seq<Value>,
                                           env': seq<Value>)
    requires m.check.CheckEffect? && f.Fun? && ArgsFlagged(f) && Reaches(f, |env|, map_)
    requires EnvMapped(m, n, env, env', map_[..|env|]) && map_[|env|] == |env'|
    ensures Related(m, n, VClo(f, env, []), VClo(SweepTerm(f, map_, |env'| + 1), env', []))
    decreases n, f, 1
  {
    var f', a := SweepTerm(f, map_, |env'| + 1), Arity(f.terms);
    SweepKeepsArity(f, |env|, map_, |env'| + 1);
    forall k: nat, xs, ys, h | k < n && |xs| == a && AllRelated(m, k, xs, ys)
      ensures RunMatched(m, k, f, env, xs, f', env', ys, h)
    {
      forall i | 0 <= i < |env| && map_[i] >= 0 ensures Related(m, k, env[i], env'[map_[i]]) {
        assert map_[..|env|][i] == map_[i];
        RelatedDown(m, n, k, env[i], env'[map_[i]]);
      }
      SweepFunRelated(m, k, f, map_, env, env');
      SweepRunMatched(m, k, f, map_, env, env', xs, ys, h);
    }
    ClosureRelated(m, n, f, env, [], f', env', []);
  }

  lemma {:induction false} SweepKeepsArity(f: Term, k: nat, map_: seq<int>, end: nat)
    requires f.Fun? && ArgsFlagged(f) && Closed(f, k)
    ensures Arity(SweepBody(f.terms, map_, end).terms) == Arity(f.terms)
    ensures forall i :: 0 <= i < Arity(f.terms) ==> f.terms[i].Arg? && f.terms[i].flags.used
  {
    var ts, a := f.terms, Arity(f.terms);
    ArityLeads(ts);
    forall i | 0 <= i < a ensures ts[i].flags.used { ClosedAt(ts, k + 1, i); }
    SweepArgs(ts[..a], map_, end);
    SweepHasNoArgs(ts, map_, end, a, |ts|);
    assert ts[..|ts|] == ts;
    var b := SweepBody(ts, map_, end);
    forall i | 0 <= i < a ensures b.terms[i].Arg? { assert b.terms[..a][i] == ts[i]; }
    ArityIs(b.terms, a);
  }

  /** Sweeping two runs of terms is sweeping them one after the other. */
  lemma {:induction false} SweepSplit(ts: seq<Term>, us: seq<Term>, all: seq<Term>, map_: seq<int>, end: nat)
    requires all == ts + us
    ensures var s := SweepBody(ts, map_, end);
      var u := SweepBody(us, s.map_, s.end);
      SweepBody(all, map_, end) == Swept(s.terms + u.terms, u.map_, u.end)
    decreases |us|
  {
    if us == [] {
      assert all == ts;
    } else {
      var z := |us| - 1;
      assert all[..|all| - 1] == ts + us[..z] && all[|all| - 1] == us[z];
      SweepSplit(ts, us[..z], all[..|all| - 1], map_, end);
    }
  }

  /** Each live term finds its operands mapped. */
  predicate Ready(ts: seq<Term>, map_: seq<int>, end: nat)
    decreases |ts|
  {
    ts != [] ==>
      var z := |ts| - 1;
      Ready(ts[..z], map_, end) && TermReady(ts[z], SweepBody(ts[..z], map_, end).map_)
  }

  predicate TermReady(t: Term, map_: seq<int>) {
    && ArgsFlagged(t)
    && (t.flags.effect ==> t.flags.used)
    && (t.flags.used ==> Closed(t, |map_|) && forall x <- Uses(t, |map_|) :: x < |map_| ==> map_[x] >= 0)
  }

  lemma {:induction false} BodyReady(f: Term, k: nat, map_: seq<int>, end: nat, front: seq<Term>, part: seq<Term>,
                                     rest: seq<Term>, s: Swept)
    requires f.Fun? && ArgsFlagged(f) && Reaches(f, k, map_) && f.terms == front + part + rest
    requires s == SweepBody(front, map_, end)
    ensures Ready(part, s.map_, s.end)
    decreases |part|
  {
    if part != [] {
      var z := |part| - 1;
      var init, t := part[..z], part[z];
      assert part == init + [t];
      var before, after := front + init, [t] + rest;
      assert f.terms == front + init + after;
      BodyReady(f, k, map_, end, front, init, after, s);
      assert f.terms == before + [t] + rest;
      TermIsReady(f, k, map_, end, before, t, rest);
      SweepSplit(front, init, before, map_, end);
      ReadySnoc(init, t, part, s.map_, s.end);
    }
  }

  lemma {:induction false} TermIsReady(f: Term, k: nat, map_: seq<int>, end: nat, before: seq<Term>, t: Term,
                                       after: seq<Term>)
    requires f.Fun? && ArgsFlagged(f) && Reaches(f, k, map_) && f.terms == before + [t] + after
    ensures TermReady(t, SweepBody(before, map_, end).map_)
  {
    var z := |before|;
    assert f.terms[..z] == before && f.terms[z] == t;
    ClosedAt(f.terms, k + 1, z);
    if t.flags.used { ReachesAt(f, k, map_, end, z); }
  }

  lemma {:induction false} ReadySnoc(ts: seq<Term>, t: Term, ts': seq<Term>, map_: seq<int>, end: nat)
    requires ts' == ts + [t] && Ready(ts, map_, end) && TermReady(t, SweepBody(ts, map_, end).map_)
    ensures Ready(ts', map_, end)
  {
    assert ts'[..|ts|] == ts;
  }

  lemma {:induction false} SweepBodyMatched(m: Machine, n: nat, ts: seq<Term>, map_: seq<int>, env: seq<Value>,
                                            env': seq<Value>, h: History)
    requires m.check.CheckEffect? && Ready(ts, map_, |env'|) && EnvMapped(m, n, env, env', map_)
    ensures BodyMatched(m, n, ts, SweepBody(ts, map_, |env'|).terms, env, env', SweepBody(ts, map_, |env'|).map_, h)
    decreases n, ts, 3
  {
    var s' := SweepBody(ts, map_, |env'|);
    if ts == [] {
      assert BodySame(m, EvalBody(m, n, [], env, h), EvalBody(Free(m), 0, [], env', h), map_);
    } else {
      var z := |ts| - 1;
      var init, t := ts[..z], ts[z];
      assert ts == init + [t];
      SweepBodyMatched(m, n, init, map_, env, env', h);
      var s := SweepBody(init, map_, |env'|);
      SweepNextMatched(m, n, init, t, ts, s, s', env, env', h);
    }
  }

  lemma {:induction false} SweepNextMatched(m: Machine, n: nat, init: seq<Term>, t: Term, ts: seq<Term>, s: Swept,
                                            s': Swept,
                                            env: seq<Value>, env': seq<Value>, h: History)
    requires m.check.CheckEffect? && ts == init + [t] && TermReady(t, s.map_)
    requires s.end == |env'| + |s.terms| && |s.map_| == |env| + |init|
    requires BodyMatched(m, n, init, s.terms, env, env', s.map_, h)
    requires s' == if t.flags.used
      then Swept(s.terms + [SweepTerm(t, s.map_ + [s.end], s.end + 1)], s.map_ + [s.end], s.end + 1)
      else Swept(s.terms, s.map_ + [-1], s.end)
    ensures BodyMatched(m, n, ts, s'.terms, env, env', s'.map_, h)
    decreases n, t, 3
  {
    if t.flags.used {
      var t' := SweepTerm(t, s.map_ + [s.end], s.end + 1);
      forall n': nat, e, e', h' | n' <= n && |e'| == s.end && EnvMapped(m, n', e, e', s.map_)
        ensures TermMatched(m, n', t, t', e, e', h')
      {
        SweepTermMatched(m, n', t, s.map_, e, e', h');
      }
      MatchedLive(m, n, init, t, ts, s.terms, t', s'.terms, env, env', s.map_, h);
    } else {
      MatchedDead(m, n, init, t, ts, s.terms, env, env', s.map_, h);
    }
  }

  lemma {:induction false} SweepRunMatched(m: Machine, n: nat, f: Term, map_: seq<int>, env: seq<Value>,
                                           env': seq<Value>,
                                           xs: seq<Value>, ys: seq<Value>, h: History)
    requires m.check.CheckEffect? && f.Fun? && ArgsFlagged(f) && Reaches(f, |env|, map_)
    requires EnvMapped(m, n, env, env', map_[..|env|]) && map_[|env|] == |env'|
    requires |xs| == Arity(f.terms) && AllRelated(m, n, xs, ys)
    requires Related(m, n, VClo(f, env, []), VClo(SweepTerm(f, map_, |env'| + 1), env', []))
    ensures RunMatched(m, n, f, env, xs, SweepTerm(f, map_, |env'| + 1), env', ys, h)
    decreases n, f, 4
  {
    var f', s := SweepTerm(f, map_, |env'| + 1), SweepBody(f.terms[..|xs|], map_, |env'| + 1);
    SweepKeepsArity(f, |env|, map_, |env'| + 1);
    SweepShape(f, |env|, map_, |env'| + 1, |xs|, s);
    SweepRunBody(m, n, f, f', map_, env, env', xs, ys, s, h);
    RunFromBody(m, n, f, f', env, env', xs, ys, SweepBody(f.terms[|xs|..], s.map_, s.end).map_, h);
  }

  lemma {:induction false} SweepRunBody(m: Machine, n: nat, f: Term, f': Term, map_: seq<int>, env: seq<Value>,
                                        env': seq<Value>,
                                        xs: seq<Value>, ys: seq<Value>, s: Swept, h: History)
    requires m.check.CheckEffect? && f.Fun? && |map_| == |env| + 1
    requires EnvMapped(m, n, env, env', map_[..|env|]) && map_[|env|] == |env'|
    requires |xs| <= |f.terms| && forall i :: 0 <= i < |xs| ==> f.terms[i].Arg? && f.terms[i].flags.used
    requires AllRelated(m, n, xs, ys) && Related(m, n, VClo(f, env, []), VClo(f', env', []))
    requires s == SweepBody(f.terms[..|xs|], map_, |env'| + 1) && s.end == |env'| + 1 + |xs|
    requires Ready(f.terms[|xs|..], s.map_, s.end)
    ensures var u := SweepBody(f.terms[|xs|..], s.map_, s.end);
      BodyMatched(m, n, f.terms[|xs|..], u.terms, Entry(f, env, xs), Entry(f', env', ys), u.map_, h)
    decreases n, f, 3
  {
    SweepEntry(m, n, f, f', map_, env, env', xs, ys);
    SweepBodyMatched(m, n, f.terms[|xs|..], s.map_, Entry(f, env, xs), Entry(f', env', ys), h);
  }

  /** What the sweep makes of a function, seen from just after its parameters. */
  lemma {:induction false} SweepShape(f: Term, k: nat, map_: seq<int>, end: nat, a: nat, s: Swept)
    requires f.Fun? && ArgsFlagged(f) && Reaches(f, k, map_) && a <= |f.terms|
    requires forall i :: 0 <= i < a ==> f.terms[i].Arg? && f.terms[i].flags.used
    requires s == SweepBody(f.terms[..a], map_, end)
    ensures s.end == end + a && Ready(f.terms[a..], s.map_, s.end)
    ensures var u, f' := SweepBody(f.terms[a..], s.map_, s.end), SweepTerm(f, map_, end);
      && a <= |f'.terms| && f'.terms[a..] == u.terms
      && (f.output < |u.map_| ==> u.map_[f.output] >= 0 && f'.output == u.map_[f.output])
  {
    var u := SweepBody(f.terms[a..], s.map_, s.end);
    ArgsFirst(f, k, map_, end, a, f.terms[..a], f.terms[a..], s);
    AfterArgs(f.terms, map_, end, a, s, u);
    if f.output <= k + |f.terms| { OutputMapped(f, k, map_, end); }
    RestOf(s.terms, u.terms, SweepTerm(f, map_, end).terms, a);
  }

  lemma {:induction false} ArgsFirst(f: Term, k: nat, map_: seq<int>, end: nat, a: nat, front: seq<Term>,
                                     rest: seq<Term>, s: Swept)
    requires f.Fun? && ArgsFlagged(f) && Reaches(f, k, map_) && |front| == a && f.terms == front + rest
    requires forall i :: 0 <= i < a ==> front[i].Arg? && front[i].flags.used
    requires s == SweepBody(front, map_, end)
    ensures s.end == end + a && |s.terms| == a && Ready(rest, s.map_, s.end)
  {
    SweepArgs(front, map_, end);
    assert f.terms == front + rest + [];
    BodyReady(f, k, map_, end, front, rest, [], s);
  }

  lemma {:induction false} AfterArgs(ts: seq<Term>, map_: seq<int>, end: nat, a: nat, s: Swept, u: Swept)
    requires a <= |ts| && s == SweepBody(ts[..a], map_, end) && u == SweepBody(ts[a..], s.map_, s.end)
    ensures SweepBody(ts, map_, end) == Swept(s.terms + u.terms, u.map_, u.end)
  {
    assert ts == ts[..a] + ts[a..];
    SweepSplit(ts[..a], ts[a..], ts, map_, end);
  }

  lemma {:induction false} RestOf(front: seq<Term>, rest: seq<Term>, all: seq<Term>, a: nat)
    requires all == front + rest && |front| == a
    ensures all[a..] == rest
  {
  }

  lemma {:induction false} RunFromBody(m: Machine, n: nat, f: Term, f': Term, env: seq<Value>, env': seq<Value>,
                                       xs: seq<Value>, ys: seq<Value>, map_: seq<int>, h: History)
    requires f.Fun? && f'.Fun? && Arity(f.terms) == Arity(f'.terms)
    requires BodyMatched(m, n, f.terms[Arity(f.terms)..], f'.terms[Arity(f.terms)..], Entry(f, env, xs),
                         Entry(f', env', ys), map_, h)
    requires f.output < |map_| ==> map_[f.output] >= 0 && f'.output == map_[f.output]
    ensures RunMatched(m, n, f, env, xs, f', env', ys, h)
  {
    var a := Arity(f.terms);
    var o, b := RunFun(m, n, f, env, xs, h), EvalBody(m, n, f.terms[a..], Entry(f, env, xs), h);
    if o.Done? {
      var k: nat :| BodySame(m, b, EvalBody(Free(m), k, f'.terms[a..], Entry(f', env', ys), h), map_);
      RunSame(m, n, f, env, xs, f', env', ys, k, h);
    }
  }

  lemma {:induction false} OutputMapped(f: Term, k: nat, map_: seq<int>, end: nat)
    requires f.Fun? && Reaches(f, k, map_) && f.output <= k + |f.terms|
    ensures SweepBody(f.terms, map_, end).map_[f.output] >= 0
  {
    assert f.output in FunUses(f.terms, f.output, k);
    if f.output <= k {
      assert f.output in Uses(f, k);
    } else {
      MappedAt(f.terms, map_, end, f.output - k - 1);
    }
  }

  lemma {:induction false} SweepEntry(m: Machine, n: nat, f: Term, f': Term, map_: seq<int>, env: seq<Value>,
                                      env': seq<Value>, xs: seq<Value>, ys: seq<Value>)
    requires f.Fun? && |map_| == |env| + 1 && EnvMapped(m, n, env, env', map_[..|env|]) && map_[|env|] == |env'|
    requires |xs| <= |f.terms| && forall i :: 0 <= i < |xs| ==> f.terms[i].Arg? && f.terms[i].flags.used
    requires AllRelated(m, n, xs, ys) && Related(m, n, VClo(f, env, []), VClo(f', env', []))
    ensures EnvMapped(m, n, Entry(f, env, xs), Entry(f', env', ys), SweepBody(f.terms[..|xs|], map_, |env'| + 1).map_)
  {
    SweepArgs(f.terms[..|xs|], map_, |env'| + 1);
    var e, e', mp := Entry(f, env, xs), Entry(f', env', ys), SweepBody(f.terms[..|xs|], map_, |env'| + 1).map_;
    forall i | 0 <= i < |e| && mp[i] >= 0 ensures mp[i] < |e'| && Related(m, n, e[i], e'[mp[i]]) {
      if i < |env| {
        assert mp[i] == map_[i] == map_[..|env|][i];
      } else if i == |env| {
      } else {
        assert Related(m, n, xs[i - |map_|], ys[i - |map_|]);
      }
    }
  }

  // ------------------------------------------------------------------ the passes

  /** The program itself counts as used once. */
  function Usage(top: Term): Term
    requires top.Fun?
  {
    Mark(UsageTerm(top, [0]).0, 1)
  }

  /** The same code and scratch words; only liveness flags differ. */
  predicate Remarked(t: Term, t': Term)
    decreases t
  {
    && t'.flags == t.flags.(used := t'.flags.used, singleton := t'.flags.singleton)
    && match t
      case Arg(_) => t'.Arg?
      case Lit(_, x) => t'.Lit? && t'.value == x
      case Redux(_, op, args) => t'.Redux? && t'.op == op && t'.args == args
      case Fun(_, meta, terms, output) =>
        && t'.Fun? && t'.meta == meta && t'.output == output && |t'.terms| == |terms|
        && forall i :: 0 <= i < |terms| ==> Remarked(terms[i], t'.terms[i])
  }

  lemma {:induction false} RemarkedSelf(t: Term)
    ensures Remarked(t, t)
    decreases t
  {
    if t.Fun? {
      forall i | 0 <= i < |t.terms| ensures Remarked(t.terms[i], t.terms[i]) { RemarkedSelf(t.terms[i]); }
    }
  }

  lemma {:induction false} UsageRemarks(t: Term, counts: seq<nat>)
    ensures Remarked(t, UsageTerm(t, counts).0)
    decreases t, 1
  {
    if t.Fun? {
      var c := Bump(counts + seq(|t.terms|, _ => 0), [t.output]);
      forall i | 0 <= i < |t.terms|
        ensures Remarked(t.terms[i], UsageBody(t.terms, c).0[i])
      {
        UsageBodyRemarks(t.terms, c, i);
      }
    }
  }

  lemma {:induction false} UsageBodyRemarks(ts: seq<Term>, counts: seq<nat>, i: nat)
    requires |ts| <= |counts| && i < |ts|
    ensures Remarked(ts[i], UsageBody(ts, counts).0[i])
    decreases ts, 0
  {
    var z, own := |ts| - 1, |counts| - 1;
    var u := if Live(ts[z], counts[own]) then UsageTerm(ts[z], counts) else (ts[z], counts);
    if i < z {
      UsageBodyRemarks(ts[..z], u.1[..own], i);
    } else if Live(ts[z], counts[own]) {
      UsageRemarks(ts[z], counts);
    } else {
      RemarkedSelf(ts[z]);
    }
  }

  lemma {:induction false} UsageRemarked(top: Term)
    requires top.Fun?
    ensures Remarked(top, Usage(top))
  {
    UsageRemarks(top, [0]);
  }

  /** Nothing live in the program refers to anything dead. */
  lemma {:induction false} UsageCloses(top: Term)
    requires top.Fun? && ArgsFlagged(top)
    ensures Reaches(Usage(top), 0, [0])
  {
    UsageTermCloses(top, [0]);
    MarkTallied(UsageTerm(top, [0]).0, 1, 0, [0], UsageTerm(top, [0]).1);
  }

  lemma {:induction false} RemarkedArity(ts: seq<Term>, ts': seq<Term>)
    requires |ts| == |ts'| && forall i :: 0 <= i < |ts| ==> Remarked(ts[i], ts'[i])
    ensures Arity(ts) == Arity(ts')
  {
    var a, b := Arity(ts), Arity(ts');
    assert a < |ts| ==> (ts[a].Arg? <==> ts'[a].Arg?);
    assert b < |ts| ==> (ts[b].Arg? <==> ts'[b].Arg?);
  }

  lemma {:induction false} RemarkedFlagged(t: Term, t': Term)
    requires Remarked(t, t') && ArgsFlagged(t)
    ensures ArgsFlagged(t')
    decreases t
  {
    if t.Fun? {
      RemarkedArity(t.terms, t'.terms);
      forall i | 0 <= i < |t.terms| ensures ArgsFlagged(t'.terms[i]) { RemarkedFlagged(t.terms[i], t'.terms[i]); }
    }
  }

  /** Usage then sweep: every run that honours the effect flags is a run of the swept program,
      with the same history and a result that may stand for the original. */
  lemma {:induction false} UsageSweepPreserves(m: Machine, n: nat, top: Term, h: History) returns (k: nat)
    requires m.check.CheckEffect? && top.Fun? && ArgsFlagged(top) && RunProgram(m, n, Usage(top), h).Done?
    ensures Same(m, RunProgram(m, n, Usage(top), h), RunProgram(Free(m), k, Sweep(Usage(top)), h))
  {
    var u := Usage(top);
    UsageCloses(top);
    UsageRemarked(top);
    RemarkedFlagged(top, u);
    SweepFunRelated(m, n, u, [0], [], []);
    k := ProgramRelated(m, n, u, Sweep(u), h);
  }

  /** Every reference of a swept term is to an earlier index of its own scope: none is dangling. */
  predicate Scoped(t: Term, k: nat)
    decreases t, 1
  {
    match t
    case Arg(_) => true
    case Lit(_, _) => true
    case Redux(_, _, args) => InRange(args, k)
    case Fun(_, _, terms, output) => BodyScoped(terms, k + 1) && output < k + 1 + |terms|
  }

  predicate BodyScoped(ts: seq<Term>, k: nat)
    decreases ts, 0
  {
    ts != [] ==> BodyScoped(ts[..|ts| - 1], k) && Scoped(ts[|ts| - 1], k + |ts| - 1)
  }

  predicate Below(map_: seq<int>, end: nat) {
    forall i :: 0 <= i < |map_| ==> map_[i] < end
  }

  lemma {:induction false} SweepScoped(t: Term, map_: seq<int>, end: nat)
    requires TermReady(t, map_) && t.flags.used && Scoped(t, |map_|) && Below(map_, end)
    ensures Scoped(SweepTerm(t, map_ + [end], end + 1), end)
    decreases t, 1
  {
    if t.Redux? {
      forall i | 0 <= i < |t.args| ensures Look(map_ + [end], t.args[i]) < end { assert t.args[i] in Uses(t, |map_|); }
    } else if t.Fun? {
      var map' := map_ + [end];
      assert Reaches(t, |map_|, map');
      assert t.terms == [] + t.terms + [];
      BodyReady(t, |map_|, map', end + 1, [], t.terms, [], SweepBody([], map', end + 1));
      SweepBodyScoped(t.terms, map', end + 1);
      OutputMapped(t, |map_|, map', end + 1);
    }
  }

  lemma {:induction false} SweepBodyScoped(ts: seq<Term>, map_: seq<int>, end: nat)
    requires Ready(ts, map_, end) && BodyScoped(ts, |map_|) && Below(map_, end)
    ensures BodyScoped(SweepBody(ts, map_, end).terms, end)
    ensures Below(SweepBody(ts, map_, end).map_, SweepBody(ts, map_, end).end)
    decreases ts, 0
  {
    if ts != [] {
      var z := |ts| - 1;
      SweepBodyScoped(ts[..z], map_, end);
      var s := SweepBody(ts[..z], map_, end);
      if ts[z].flags.used {
        SweepScoped(ts[z], s.map_, s.end);
        ScopedSnoc(s.terms, SweepTerm(ts[z], s.map_ + [s.end], s.end + 1), SweepBody(ts, map_, end).terms, end);
        BelowMore(s.map_, s.end, s.end, s.end + 1);
      } else {
        BelowMore(s.map_, s.end, -1, s.end);
      }
    }
  }

  lemma {:induction false} ScopedSnoc(ts: seq<Term>, t: Term, ts': seq<Term>, k: nat)
    requires ts' == ts + [t] && BodyScoped(ts, k) && Scoped(t, k + |ts|)
    ensures BodyScoped(ts', k)
  {
    assert ts'[..|ts'| - 1] == ts;
  }

  lemma {:induction false} BelowMore(map_: seq<int>, end: nat, x: int, end': nat)
    requires Below(map_, end) && end <= end' && x < end'
    ensures Below(map_ + [x], end')
  {
  }

  lemma {:induction false} RemarkedScoped(t: Term, t': Term, k: nat)
    requires Remarked(t, t') && Scoped(t, k)
    ensures Scoped(t', k)
    decreases t, 1
  {
    if t.Fun? { RemarkedBodyScoped(t.terms, t'.terms, k + 1); }
  }

  lemma {:induction false} RemarkedBodyScoped(ts: seq<Term>, ts': seq<Term>, k: nat)
    requires |ts| == |ts'| && (forall i :: 0 <= i < |ts| ==> Remarked(ts[i], ts'[i])) && BodyScoped(ts, k)
    ensures BodyScoped(ts', k)
    decreases ts, 0
  {
    if ts != [] {
      var z := |ts| - 1;
      RemarkedBodyScoped(ts[..z], ts'[..z], k);
      RemarkedScoped(ts[z], ts'[z], k + z);
    }
  }

  /** No kept term or output refers to a removed term: references still point to earlier indices. */
  lemma {:induction false} UsageSweepScoped(top: Term)
    requires top.Fun? && ArgsFlagged(top) && Scoped(top, 0)
    ensures Scoped(Sweep(Usage(top)), 0)
  {
    var u := Usage(top);
    UsageCloses(top);
    UsageRemarked(top);
    RemarkedFlagged(top, u);
    RemarkedScoped(top, u, 0);
    assert u.terms == [] + u.terms + [];
    BodyReady(u, 0, [0], 1, [], u.terms, [], SweepBody([], [0], 1));
    SweepBodyScoped(u.terms, [0], 1);
    OutputMapped(u, 0, [0], 1);
  }

  // ---------------------------------------------------------------- in-place form

  class UsagePass {
    var counts: seq<nat>

    constructor ()
      ensures counts == [0]
    {
      counts := [0];
    }

    method PassRedux(args: seq<nat>)
      modifies this
      ensures counts == Bump(old(counts), args)
    {
      for i := 0 to |args|
        invariant counts == Bump(old(counts), args[..i])
      {
        assert args[..i + 1][..i] == args[..i];
        if args[i] < |counts| { counts := counts[args[i] := counts[args[i]] + 1]; }
      }
      assert args[..|args|] == args;
    }

    method PassTerm(t: Term) returns (t': Term)
      modifies this
      ensures (t', counts) == UsageTerm(t, old(counts))
      decreases t, 1
    {
      t' := t;
      if t.Redux? {
        PassRedux(t.args);
      } else if t.Fun? {
        counts := counts + seq(|t.terms|, _ => 0);
        PassRedux([t.output]);
        var terms := PassBody(t.terms);
        t' := t.(terms := terms);
      }
    }

    /** Last to first; each term's own count is popped once it has been visited. */
    method PassBody(ts: seq<Term>) returns (ts': seq<Term>)
      requires |ts| <= |counts|
      modifies this
      ensures (ts', counts) == UsageBody(ts, old(counts))
      decreases ts, 0
    {
      ts' := [];
      var i := |ts|;
      ghost var all := UsageBody(ts, counts);
      assert ts[..i] == ts;
      while i > 0
        invariant 0 <= i <= |ts| && i <= |counts|
        invariant Visited(ts[..i], counts, ts', all)
      {
        ghost var before := counts;
        i := i - 1;
        var own := |counts| - 1;
        var count, t := counts[own], ts[i];
        if Live(t, count) { t := PassTerm(t); }
        ghost var after := counts;
        counts := counts[..own];
        assert ts[..i + 1] == ts[..i] + [ts[i]];
        VisitedNext(ts[..i], ts[i], ts[..i + 1], before, t, after, counts, ts', all);
        ts' := [Mark(t, count)] + ts';
      }
      var none: seq<Term> := [];
      assert ts[..0] == none && none + ts' == ts';
    }
  }

  /** What the walk from the end has still to do, and what it has done, make up the whole. */
  ghost predicate Visited(ts: seq<Term>, counts: seq<nat>, done: seq<Term>, all: (seq<Term>, seq<nat>)) {
    |ts| <= |counts| && all.0 == UsageBody(ts, counts).0 + done && all.1 == UsageBody(ts, counts).1
  }

  lemma {:induction false} VisitedNext(ts: seq<Term>, t: Term, ts1: seq<Term>, counts: seq<nat>, t': Term,
                                       after: seq<nat>, counts': seq<nat>, done: seq<Term>,
                                       all: (seq<Term>, seq<nat>))
    requires ts1 == ts + [t] && Visited(ts1, counts, done, all)
    requires (t', after) == if Live(t, counts[|counts| - 1]) then UsageTerm(t, counts) else (t, counts)
    requires counts' == after[..|counts| - 1]
    ensures Visited(ts, counts', [Mark(t', counts[|counts| - 1])] + done, all)
  {
    var rest, x := UsageBody(ts, counts').0, Mark(t', counts[|counts| - 1]);
    assert ts1[..|ts|] == ts;
    assert UsageBody(ts1, counts).0 == rest + [x];
    assert (rest + [x]) + done == rest + ([x] + done);
  }

  /** RFun::pass_sweep: the body goes through the stream, and comes back without its dead terms. */
  method SweepFun(p: TermStream, f: Term) returns (f': Term)
    requires f.Fun?
    modifies p
    ensures p.scope == old(p.scope) && p.map_ == old(p.map_)
    ensures f' == SweepTerm(f, old(p.map_), |old(p.scope)|)
    decreases f, 1
  {
    var cp := p.Begin();
    ghost var end := |p.scope|;
    for i := 0 to |f.terms|
      invariant end <= |p.scope| && p.scope[..end] == old(p.scope) && |old(p.map_)| <= |p.map_|
      invariant p.map_[..|old(p.map_)|] == old(p.map_)
      invariant SweepBody(f.terms[..i], old(p.map_), end) == Swept(p.scope[end..], p.map_, |p.scope|)
    {
      SweepNext(f.terms, old(p.map_), end, i);
      SweepOne(p, f.terms[i]);
    }
    assert f.terms[..|f.terms|] == f.terms;
    var output := Look(p.map_, f.output);
    var terms := p.End(cp);
    f' := f.(terms := terms, output := output);
  }

  /** A live term goes to the stream with its references renumbered, a dead one is dropped. */
  method SweepOne(p: TermStream, x: Term)
    modifies p
    ensures x.flags.used ==>
      && p.map_ == old(p.map_) + [|old(p.scope)|]
      && p.scope == old(p.scope) + [SweepTerm(x, p.map_, |old(p.scope)| + 1)]
    ensures !x.flags.used ==> p.map_ == old(p.map_) + [-1] && p.scope == old(p.scope)
    decreases x, 2
  {
    if x.flags.used {
      var at := p.Transfer(x);
      if x.Redux? {
        p.scope := p.scope[at := x.(args := LookAll(p.map_, x.args))];
      } else if x.Fun? {
        var x' := SweepFun(p, x);
        p.scope := p.scope[at := x'];
      }
    } else {
      p.Discard();
    }
  }

  method PassUsage(top: Term) returns (r: Term)
    requires top.Fun?
    ensures r == Usage(top)
  {
    var p := new UsagePass();
    r := p.PassTerm(top);
    r := Mark(r, 1);
  }

  method PassSweep(top: Term) returns (r: Term)
    requires top.Fun?
    ensures r == Sweep(top)
  {
    var p := new TermStream();
    var at := p.Transfer(top);
    assert p.map_ == [0];
    r := SweepFun(p, top);
  }
}
