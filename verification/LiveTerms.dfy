/** The usage pass counts exactly: a term is live if an effect or a live term after it makes it so, and for no other
    reason; and the sweep keeps live terms only. */
module LiveTerms {
  import opened Sequences
  import opened Ssa
  import opened TermStreams
  import opened UsageSweep

  /** How often a live term refers to index x, counting only what is live inside it. */
  function Count(t: Term, x: nat): nat
    decreases t, 1
  {
    match t
    case Arg(_) => 0
    case Lit(_, _) => 0
    case Redux(_, _, args) => multiset(args)[x]
    case Fun(_, _, terms, output) => Named(output, x) + Sum(terms, 0, x)
  }

  function Named(output: nat, x: nat): nat {
    if output == x then 1 else 0
  }

  /** The same for the live terms of a body from the j-th on. */
  function Sum(ts: seq<Term>, j: nat, x: nat): nat
    decreases ts, 0
  {
    if j >= |ts| then 0 else
    var z := |ts| - 1;
    Sum(ts[..z], j, x) + if ts[z].flags.used then Count(ts[z], x) else 0
  }

  /** A term of a body is live exactly if it has an effect, is the result, or is referred to by a live term after it;
      and it is alone in being used exactly once if there is one such reference. */
  predicate Counted(t: Term, k: nat)
    decreases t, 1
  {
    t.Fun? ==> BodyCounted(t.terms, k + 1, t.output, |t.terms|)
  }

  predicate BodyCounted(ts: seq<Term>, k: nat, output: nat, n: nat)
    requires n <= |ts|
    decreases ts, 0, n
  {
    n == 0 ||
    (var j := n - 1;
     var c := Named(output, k + j) + Sum(ts, n, k + j);
     && BodyCounted(ts, k, output, j)
     && (ts[j].flags.used <==> c > 0 || ts[j].flags.effect)
     && (ts[j].flags.singleton <==> c == 1)
     && (ts[j].flags.used ==> Counted(ts[j], k + j)))
  }

  lemma {:induction false} BumpCounts(counts: seq<nat>, args: seq<nat>, x: nat)
    requires x < |counts|
    ensures Bump(counts, args)[x] == counts[x] + multiset(args)[x]
    decreases |args|
  {
    if args != [] {
      var z := |args| - 1;
      BumpCounts(counts, args[..z], x);
      assert args == args[..z] + [args[z]];
    }
  }

  lemma {:induction false} SumSnoc(ts: seq<Term>, t: Term, ts': seq<Term>, j: nat, x: nat)
    requires ts' == ts + [t] && j <= |ts|
    ensures Sum(ts', j, x) == Sum(ts, j, x) + if t.flags.used then Count(t, x) else 0
  {
    assert ts'[..|ts|] == ts;
  }

  lemma {:induction false} MarkCounts(t: Term, count: nat, k: nat, x: nat)
    ensures Count(Mark(t, count), x) == Count(t, x) && (Counted(Mark(t, count), k) <==> Counted(t, k))
  {
  }

  lemma {:induction false} TermExact(t: Term, counts: seq<nat>, x: nat)
    requires x < |counts|
    ensures var u := UsageTerm(t, counts); u.1[x] == counts[x] + Count(u.0, x) && Counted(u.0, |counts| - 1)
    decreases t, 1
  {
    if t.Redux? { BumpCounts(counts, t.args, x); }
    if t.Fun? {
      var zeros := counts + seq(|t.terms|, _ => 0);
      var c := Bump(zeros, [t.output]);
      forall y | 0 <= y < |zeros| ensures c[y] == zeros[y] + Named(t.output, y) {
        BumpCounts(zeros, [t.output], y);
        assert multiset([t.output])[y] == Named(t.output, y);
      }
      BodyExact(t.terms, c, x);
      FunExact(t, counts, zeros, c, UsageBody(t.terms, c).0);
    }
  }

  lemma {:induction false} FunExact(t: Term, counts: seq<nat>, zeros: seq<nat>, c: seq<nat>, us: seq<Term>)
    requires t.Fun? && counts != [] && zeros == counts + seq(|t.terms|, _ => 0) && |c| == |zeros|
    requires forall y :: 0 <= y < |zeros| ==> c[y] == zeros[y] + Named(t.output, y)
    requires |us| == |t.terms| && BodyMarked(us, c, |us|)
    ensures BodyCounted(us, |counts|, t.output, |us|)
  {
    MarkedCounted(us, c, |us|, |counts|, t.output);
  }

  /** The first n terms of a body are marked by what its counts and its later terms say. */
  predicate BodyMarked(us: seq<Term>, counts: seq<nat>, n: nat)
    requires n <= |us| <= |counts|
    decreases n
  {
    n == 0 ||
    (var j, k := n - 1, |counts| - |us|;
     var c := counts[k + j] + Sum(us, n, k + j);
     && BodyMarked(us, counts, j)
     && (us[j].flags.used <==> c > 0 || us[j].flags.effect)
     && (us[j].flags.singleton <==> c == 1)
     && (us[j].flags.used ==> Counted(us[j], k + j)))
  }

  lemma {:induction false} MarkedCounted(us: seq<Term>, c: seq<nat>, n: nat, k: nat, output: nat)
    requires n <= |us| && |c| == k + |us| && BodyMarked(us, c, n)
    requires forall y :: k <= y < |c| ==> c[y] == Named(output, y)
    ensures BodyCounted(us, k, output, n)
    decreases n
  {
    if n > 0 { MarkedCounted(us, c, n - 1, k, output); }
  }

  lemma {:induction false} BodyExact(ts: seq<Term>, counts: seq<nat>, x: nat)
    requires |ts| <= |counts|
    ensures var r := UsageBody(ts, counts);
      (x < |r.1| ==> r.1[x] == counts[x] + Sum(r.0, 0, x)) && BodyMarked(r.0, counts, |r.0|)
    decreases ts, 0
  {
    if ts != [] {
      var z, own := |ts| - 1, |counts| - 1;
      var live := Live(ts[z], counts[own]);
      var u := if live then UsageTerm(ts[z], counts) else (ts[z], counts);
      forall y | 0 <= y < |counts| ensures LastTold(u, counts, live, y) {
        if live { TermExact(ts[z], counts, y); }
      }
      assert LastTold(u, counts, live, own);
      BodyExact(ts[..z], u.1[..own], x);
      BodyStep(UsageBody(ts[..z], u.1[..own]), u, counts, live, x);
    }
  }

  predicate LastTold(u: (Term, seq<nat>), counts: seq<nat>, live: bool, y: nat)
    requires |u.1| == |counts| && y < |counts|
  {
    u.1[y] == counts[y] + (if live then Count(u.0, y) else 0) && (live ==> Counted(u.0, |counts| - 1))
  }

  lemma {:induction false} BodyStep(rest: (seq<Term>, seq<nat>), u: (Term, seq<nat>), counts: seq<nat>, live: bool,
                                    x: nat)
    requires counts != [] && |u.1| == |counts| && live == Live(u.0, counts[|counts| - 1])
    requires forall y :: 0 <= y < |counts| ==> LastTold(u, counts, live, y)
    requires |rest.0| + |rest.1| == |counts| - 1 && BodyMarked(rest.0, u.1[..|counts| - 1], |rest.0|)
    requires x < |rest.1| ==> rest.1[x] == u.1[x] + Sum(rest.0, 0, x)
    ensures var us := rest.0 + [Mark(u.0, counts[|counts| - 1])];
      (x < |rest.1| ==> rest.1[x] == counts[x] + Sum(us, 0, x)) && BodyMarked(us, counts, |us|)
  {
    var own := |counts| - 1;
    var t, below := Mark(u.0, counts[own]), u.1[..own];
    SumSnoc(rest.0, t, rest.0 + [t], 0, x);
    assert LastTold(u, counts, live, own);
    forall y | 0 <= y < own ensures below[y] == counts[y] + (if t.flags.used then Count(t, y) else 0) {
      assert LastTold(u, counts, live, y);
      MarkCounts(u.0, counts[own], own, y);
    }
    MarkCounts(u.0, counts[own], own, x);
    if x < |rest.1| { assert LastTold(u, counts, live, x); }
    BodyMarkedSnoc(rest.0, t, rest.0 + [t], u.0, counts, below, |rest.0|);
  }

  lemma {:induction false} BodyMarkedSnoc(us: seq<Term>, t: Term, us': seq<Term>, raw: Term, counts: seq<nat>,
                                          below: seq<nat>, n: nat)
    requires us' == us + [t] && |us'| <= |counts| && |below| == |counts| - 1 && n == |us|
    requires t == Mark(raw, counts[|counts| - 1]) && (t.flags.used ==> Counted(t, |counts| - 1))
    requires forall y :: 0 <= y < |below| ==> below[y] == counts[y] + (if t.flags.used then Count(t, y) else 0)
    requires BodyMarked(us, below, n)
    ensures BodyMarked(us', counts, |us'|)
  {
    MarkedPrefix(us, t, us', counts, below, n);
    assert Sum(us', |us'|, |counts| - 1) == 0;
  }

  lemma {:induction false} MarkedPrefix(us: seq<Term>, t: Term, us': seq<Term>, counts: seq<nat>, below: seq<nat>,
                                        n: nat)
    requires us' == us + [t] && n <= |us| && |us'| <= |counts| && |below| == |counts| - 1
    requires forall y :: 0 <= y < |below| ==> below[y] == counts[y] + (if t.flags.used then Count(t, y) else 0)
    requires BodyMarked(us, below, n)
    ensures BodyMarked(us', counts, n)
    decreases n
  {
    if n > 0 {
      MarkedPrefix(us, t, us', counts, below, n - 1);
      SumSnoc(us, t, us', n, |counts| - |us'| + n - 1);
    }
  }

  /** The pass over a whole program marks exactly what is live, and exactly what is used once. */
  lemma {:induction false} UsageExact(top: Term)
    requires top.Fun?
    ensures Counted(Usage(top), 0) && Usage(top).flags.used
  {
    TermExact(top, [0], 0);
    MarkCounts(UsageTerm(top, [0]).0, 1, 0, 0);
  }

  // ------------------------------------------------------------------------- the sweep

  /** Every term at every depth is marked live. */
  predicate AllLive(t: Term)
    decreases t
  {
    t.Fun? ==> forall i :: 0 <= i < |t.terms| ==> t.terms[i].flags.used && AllLive(t.terms[i])
  }

  lemma {:induction false} SweptLive(t: Term, map_: seq<int>, end: nat)
    ensures AllLive(SweepTerm(t, map_, end)) && SweepTerm(t, map_, end).flags == t.flags
    decreases t, 1
  {
    if t.Fun? { SweptBodyLive(t.terms, map_, end); }
  }

  /** What is left of a body are its live terms, in order, and nothing else. */
  lemma {:induction false} SweptBodyLive(ts: seq<Term>, map_: seq<int>, end: nat)
    ensures KeptFrom(SweepBody(ts, map_, end).terms, ts)
    decreases ts, 0
  {
    if ts != [] {
      var z := |ts| - 1;
      SweptBodyLive(ts[..z], map_, end);
      var b := SweepBody(ts[..z], map_, end);
      if ts[z].flags.used {
        SweptLive(ts[z], b.map_ + [b.end], b.end + 1);
        KeptSnoc(b.terms, ts[..z], ts[z], ts, [SweepTerm(ts[z], b.map_ + [b.end], b.end + 1)]);
      } else {
        KeptSnoc(b.terms, ts[..z], ts[z], ts, []);
        assert b.terms + [] == b.terms;
      }
    }
  }

  predicate KeptFrom(us: seq<Term>, ts: seq<Term>) {
    && (forall i :: 0 <= i < |us| ==> us[i].flags.used && AllLive(us[i]))
    && Flags(us, |us|) == LiveFlags(ts, |ts|)
  }

  lemma {:induction false} KeptSnoc(us: seq<Term>, ts: seq<Term>, t: Term, ts': seq<Term>, last: seq<Term>)
    requires KeptFrom(us, ts) && ts' == ts + [t]
    requires if t.flags.used then |last| == 1 && last[0].flags == t.flags && AllLive(last[0]) else last == []
    ensures KeptFrom(us + last, ts')
  {
    LiveFlagsPrefix(ts', ts, |ts|);
    FlagsPrefix(us + last, us, |us|);
  }

  function Flags(ts: seq<Term>, n: nat): seq<Ssa.Flags>
    requires n <= |ts|
  {
    if n == 0 then [] else Flags(ts, n - 1) + [ts[n - 1].flags]
  }

  function LiveFlags(ts: seq<Term>, n: nat): seq<Ssa.Flags>
    requires n <= |ts|
  {
    if n == 0 then [] else LiveFlags(ts, n - 1) + if ts[n - 1].flags.used then [ts[n - 1].flags] else []
  }

  lemma {:induction false} FlagsPrefix(ts: seq<Term>, ts': seq<Term>, n: nat)
    requires n <= |ts| && n <= |ts'| && forall i :: 0 <= i < n ==> ts[i] == ts'[i]
    ensures Flags(ts, n) == Flags(ts', n)
    decreases n
  {
    if n > 0 { FlagsPrefix(ts, ts', n - 1); }
  }

  lemma {:induction false} LiveFlagsPrefix(ts: seq<Term>, ts': seq<Term>, n: nat)
    requires n <= |ts| && n <= |ts'| && forall i :: 0 <= i < n ==> ts[i] == ts'[i]
    ensures LiveFlags(ts, n) == LiveFlags(ts', n)
    decreases n
  {
    if n > 0 { LiveFlagsPrefix(ts, ts', n - 1); }
  }

  /** After usage and sweep nothing dead is left. */
  lemma {:induction false} NothingDead(top: Term)
    requires top.Fun?
    ensures AllLive(Sweep(Usage(top)))
  {
    SweptLive(Usage(top), [0], 1);
  }
}
