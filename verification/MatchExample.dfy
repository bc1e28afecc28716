/** Two matches as the front end builds them, and why the optimizer loses none of their runs.  Every arm of a match
    is a function of its own, which the handler of its constructor calls.
 */
module MatchExample {
  import opened Ssa
  import opened UsageSweep
  import opened Inline
  import opened Yields
  import opened Claims

  const NONE: Flags := Flags(false, false, false, false, false)
  const WORD: Mask := seq(WIDTH, _ => true)

  // ------------------------------------------------------------ match b { True = 0; False = 1 }

  /** The arms, at indices 5 and 6, and the handlers that call them with the unit, at 7 and 8. */
  const ZERO: Term := Fun(NONE, WORD, [Arg(NONE), Lit(NONE, 0)], 7)
  const ONE: Term := Fun(NONE, WORD, [Arg(NONE), Lit(NONE, 1)], 8)
  const CASE0: Term := Fun(NONE, WORD, [Arg(NONE), Redux(NONE, App, [5, 2])], 9)
  const CASE1: Term := Fun(NONE, WORD, [Arg(NONE), Redux(NONE, App, [6, 2])], 10)

  /** At index 3: the parameter, the two arms, the two handlers, the destructure. */
  const TEST: Term := Fun(NONE, WORD, [Arg(NONE), ZERO, ONE, CASE0, CASE1, Redux(NONE, Des, [7, 8, 4])], 9)

  const TRUE: Term := Redux(NONE, Con(Kind("True", 0)), [])

  const UNIT: Term := Redux(NONE, Con(Kind("Unit", 0)), [])

  const MATCH: Term := Fun(NONE, WORD, [Arg(NONE), UNIT, TEST, TRUE, Redux(NONE, App, [3, 4])], 5)

  // ------------------------------------------------- match r { Runner _ f = f }, with one handler

  /** At index 5: the arm, \f \_ f. */
  const ARM: Term := Fun(NONE, WORD, [Arg(NONE), Fun(NONE, WORD, [Arg(NONE)], 6)], 7)

  /** At index 6: the handler, which hands the arm the second field. */
  const HANDLER: Term := Fun(NONE, WORD, [Arg(NONE), Redux(NONE, Get(0), [7]), Redux(NONE, Get(1), [7]),
                                          Redux(NONE, App, [5, 9]), Redux(NONE, App, [10, 2])], 11)

  /** At index 3. */
  const RUNNER: Term := Fun(NONE, WORD, [Arg(NONE), ARM, HANDLER, Redux(NONE, Des, [6, 4])], 7)

  /** At index 4. */
  const IDENTITY: Term := Fun(NONE, WORD, [Arg(NONE)], 5)

  /** A runner is made and taken apart, and the function in it is called. */
  const RUN: Term := Fun(NONE, WORD, [Arg(NONE), UNIT, RUNNER, IDENTITY, Lit(NONE, 1),
                                      Redux(NONE, Con(Kind("Runner", 0)), [5, 4]), Redux(NONE, App, [3, 6]),
                                      Redux(NONE, App, [7, 5]), Redux(NONE, Prim("print", Impure), [8])], 9)

  // -------------------------------------------------------------------- both qualify

  /** The first n terms of a body have been looked at. */
  ghost predicate Seen(ts: seq<Term>, n: nat, all: seq<Term>, ys: seq<Yield>, r: seq<Yield>) {
    n <= |ts| && r == BodyYields(ts[..n], ys) && BodyMeets(ForPlain, ts[..n], all, ys)
  }

  lemma {:induction false} Start(ts: seq<Term>, all: seq<Term>, ys: seq<Yield>)
    ensures Seen(ts, 0, all, ys, ys)
  {
    assert ts[..0] == [];
  }

  lemma {:induction false} Next(ts: seq<Term>, n: nat, all: seq<Term>, ys: seq<Yield>, r: seq<Yield>, r': seq<Yield>)
    requires Seen(ts, n, all, ys, r) && n < |ts| && Meets(ForPlain, ts[n], all + ts[..n], r)
    requires r' == r + [YieldOf(ts[n], r)]
    ensures Seen(ts, n + 1, all, ys, r')
  {
    assert ts[..n + 1][..n] == ts[..n];
  }

  /** A function of one parameter, from its body: with itself unknown for what it yields, with what it yields for
      what it claims. */
  lemma {:induction false} Shown(f: Term, all: seq<Term>, ys: seq<Yield>, r: seq<Yield>, s: seq<Yield>)
    requires f.Fun? && Arity(f.terms) == 1 && !Mentions(f, |ys|)
    requires Seen(f.terms, |f.terms|, all + [f], ys + [Unknown], r)
    requires Seen(f.terms, |f.terms|, all + [f], ys + [FunYield(f, ys)], s)
    ensures FunYield(f, ys) == if Known(r, f.output).After? then After(1 + Known(r, f.output).args) else Unknown
    ensures Meets(ForPlain, f, all, ys)
  {
    assert f.terms[..|f.terms|] == f.terms;
  }

  /** A parameter and a term that claims nothing and yields data: the next function of a body. */
  lemma {:induction false} NextCase(ts: seq<Term>, n: nat, all: seq<Term>, ys: seq<Yield>, r: seq<Yield>, f: Term,
                                    t: Term)
    requires Seen(ts, n, all, ys, r) && n < |ts| && ts[n] == f
    requires f.Fun? && f.terms == [Arg(NONE), t] && f.output == |r| + 2 && !Mentions(t, |r|)
    requires t.Lit? || (t.Redux? && t.op.App?)
    requires YieldOf(t, r + [Unknown] + [Unknown]) == After(0)
    ensures Seen(ts, n + 1, all, ys, r + [After(1)])
  {
    TwoTerms(f, t, all + ts[..n], r);
    Next(ts, n, all, ys, r, r + [After(1)]);
  }

  lemma {:induction false} TwoTerms(f: Term, t: Term, all: seq<Term>, ys: seq<Yield>)
    requires f.Fun? && f.terms == [Arg(NONE), t] && f.output == |ys| + 2 && !Mentions(t, |ys|)
    requires t.Lit? || (t.Redux? && t.op.App?)
    ensures Meets(ForPlain, f, all, ys)
    ensures var y := YieldOf(t, ys + [Unknown] + [Unknown]);
      FunYield(f, ys) == if y.After? then After(1 + y.args) else Unknown
  {
    ArityIs(f.terms, 1);
    var r := Both(f, t, all, ys, Unknown);
    var s := Both(f, t, all, ys, FunYield(f, ys));
    Shown(f, all, ys, r, s);
  }

  lemma {:induction false} Both(f: Term, t: Term, all: seq<Term>, ys: seq<Yield>, g: Yield) returns (r: seq<Yield>)
    requires f.Fun? && f.terms == [Arg(NONE), t] && (t.Lit? || (t.Redux? && t.op.App?))
    ensures r == ys + [g] + [Unknown] + [YieldOf(t, ys + [g] + [Unknown])]
    ensures Seen(f.terms, 2, all + [f], ys + [g], r)
  {
    var r0 := ys + [g];
    var r1 := r0 + [Unknown];
    r := r1 + [YieldOf(t, r1)];
    Start(f.terms, all + [f], r0);
    Next(f.terms, 0, all + [f], r0, r0, r1);
    Next(f.terms, 1, all + [f], r0, r1, r);
  }

  /** The arms yield data after the unit, so the handlers do after the object, and so does the match. */
  lemma {:induction false} TestBody(all: seq<Term>, ys: seq<Yield>, g: Yield) returns (r: seq<Yield>)
    requires |all| == |ys| == 3
    ensures Seen(TEST.terms, 6, all + [TEST], ys + [g], r) && |r| == 10 && r[9] == After(0)
  {
    var A, r0 := all + [TEST], ys + [g];
    var r3 := TestArms(A, r0);
    var r5 := TestCases(A, r0, r3);
    TestSwitch(A + TEST.terms[..5], r5);
    r := r5 + [After(0)];
    Next(TEST.terms, 5, A, r0, r5, r);
  }

  lemma {:induction false} TestArms(all: seq<Term>, ys: seq<Yield>) returns (r: seq<Yield>)
    requires |all| == |ys| == 4
    ensures Seen(TEST.terms, 3, all, ys, r) && |r| == 7 && r[5] == r[6] == After(1)
  {
    var r1 := ys + [Unknown];
    var r2 := r1 + [After(1)];
    r := r2 + [After(1)];
    Start(TEST.terms, all, ys);
    Next(TEST.terms, 0, all, ys, ys, r1);
    NextCase(TEST.terms, 1, all, ys, r1, ZERO, Lit(NONE, 0));
    NextCase(TEST.terms, 2, all, ys, r2, ONE, Lit(NONE, 1));
  }

  lemma {:induction false} TestCases(all: seq<Term>, ys: seq<Yield>, r3: seq<Yield>) returns (r: seq<Yield>)
    requires |all| == |ys| == 4 && Seen(TEST.terms, 3, all, ys, r3) && |r3| == 7 && r3[5] == r3[6] == After(1)
    ensures Seen(TEST.terms, 5, all, ys, r) && |r| == 9 && r[7] == r[8] == After(1)
  {
    var r4 := r3 + [After(1)];
    r := r4 + [After(1)];
    NextCase(TEST.terms, 3, all, ys, r3, CASE0, Redux(NONE, App, [5, 2]));
    NextCase(TEST.terms, 4, all, ys, r4, CASE1, Redux(NONE, App, [6, 2]));
  }

  lemma {:induction false} TestSwitch(all: seq<Term>, r: seq<Yield>)
    requires |all| == |r| == 9 && all[7] == CASE0 && all[8] == CASE1 && r[7] == r[8] == After(1)
    ensures var t := Redux(NONE, Des, [7, 8, 4]); Meets(ForPlain, t, all, r) && YieldOf(t, r) == After(0)
  {
    ArityIs(CASE0.terms, 1);
    ArityIs(CASE1.terms, 1);
  }

  lemma {:induction false} TwoAre(f: Term, t: Term, x: nat)
    requires f.Fun? && f.terms == [Arg(NONE), t] && (t.Lit? || t.Redux?)
    ensures Formed(f) && (Mentions(f, x) <==> x == f.output || Mentions(t, x))
  {
    ArityIs(f.terms, 1);
    assert f.terms[1] == t;
  }

  lemma {:induction false} TestPart(i: nat, x: nat)
    requires i < |TEST.terms| && (x == 0 || x == 3)
    ensures Formed(TEST.terms[i]) && !Mentions(TEST.terms[i], x) && (i >= 1 ==> !TEST.terms[i].Arg?)
  {
    match i
    case 1 => TwoAre(ZERO, Lit(NONE, 0), x);
    case 2 => TwoAre(ONE, Lit(NONE, 1), x);
    case 3 => TwoAre(CASE0, Redux(NONE, App, [5, 2]), x);
    case 4 => TwoAre(CASE1, Redux(NONE, App, [6, 2]), x);
    case _ =>
  }

  lemma {:induction false} TestIs(x: nat)
    requires x == 0 || x == 3
    ensures Formed(TEST) && !Mentions(TEST, x)
  {
    ArityIs(TEST.terms, 1);
    forall i | 0 <= i < |TEST.terms|
      ensures Formed(TEST.terms[i]) && !Mentions(TEST.terms[i], x) && (i >= 1 ==> !TEST.terms[i].Arg?)
    {
      TestPart(i, x);
    }
  }

  lemma {:induction false} MatchIs()
    ensures Formed(MATCH) && !Mentions(MATCH, 0)
  {
    ArityIs(MATCH.terms, 1);
    TestIs(0);
  }

  lemma {:induction false} MatchBody(g: Yield) returns (r: seq<Yield>)
    ensures Seen(MATCH.terms, 5, [MATCH], [g], r) && |r| == 6 && r[5] == After(0)
  {
    var A, r0 := [MATCH], [g];
    var r1 := r0 + [Unknown];
    var r2 := r1 + [After(0)];
    var r3 := r2 + [After(1)];
    var r4 := r3 + [After(0)];
    r := r4 + [After(0)];
    Start(MATCH.terms, A, r0);
    Next(MATCH.terms, 0, A, r0, r0, r1);
    Next(MATCH.terms, 1, A, r0, r1, r2);
    var all := A + MATCH.terms[..2];
    TestIs(3);
    ArityIs(TEST.terms, 1);
    var s := TestBody(all, r2, Unknown);
    var s' := TestBody(all, r2, FunYield(TEST, r2));
    Shown(TEST, all, r2, s, s');
    Next(MATCH.terms, 2, A, r0, r2, r3);
    Next(MATCH.terms, 3, A, r0, r3, r4);
    Next(MATCH.terms, 4, A, r0, r4, r);
  }

  /** A program that matches a Boolean shows its claims to be plain. */
  lemma {:induction false} MatchQualifies()
    ensures Whole(ForPlain, MATCH) && Formed(MATCH)
  {
    ArityIs(MATCH.terms, 1);
    MatchIs();
    var r := MatchBody(Unknown);
    var s := MatchBody(FunYield(MATCH, []));
    var none: seq<Term>, no: seq<Yield> := [], [];
    assert none + [MATCH] == [MATCH] && no + [Unknown] == [Unknown];
    assert no + [FunYield(MATCH, [])] == [FunYield(MATCH, [])];
    Shown(MATCH, [], [], r, s);
  }

  /** Nothing is claimed but by destructures with one handler. */
  predicate Single(t: Term)
    decreases t
  {
    match t
    case Arg(_) => true
    case Lit(_, _) => true
    case Redux(_, op, args) => (op.Des? ==> |args| == 2) && !(op.Prim? && op.kind.FnArg?)
    case Fun(_, _, terms, _) => forall i :: 0 <= i < |terms| ==> Single(terms[i])
  }

  lemma {:induction false} SingleMeets(t: Term, all: seq<Term>, ys: seq<Yield>)
    requires Single(t)
    ensures Meets(ForPlain, t, all, ys)
    decreases t, 1
  {
    if t.Fun? { SingleBodyMeets(t.terms, all + [t], ys + [FunYield(t, ys)]); }
  }

  lemma {:induction false} SingleBodyMeets(ts: seq<Term>, all: seq<Term>, ys: seq<Yield>)
    requires forall i :: 0 <= i < |ts| ==> Single(ts[i])
    ensures BodyMeets(ForPlain, ts, all, ys)
    decreases ts, 0
  {
    if ts != [] {
      var z := |ts| - 1;
      SingleBodyMeets(ts[..z], all, ys);
      SingleMeets(ts[z], all + ts[..z], BodyYields(ts[..z], ys));
    }
  }

  /** Taking a runner apart, which returns the function in it, is no obstacle. */
  lemma {:induction false} RunnerQualifies()
    ensures Whole(ForPlain, RUN)
  {
    ArityIs(RUN.terms, 1);
    assert Single(ARM) && Single(HANDLER);
    assert Single(RUNNER);
    SingleMeets(RUN, [], []);
    RunNotItself();
    var no: seq<Yield> := [];
    var r := BodyYields(RUN.terms, no + [Unknown]);
    var before := BodyYields(RUN.terms[..8], no + [Unknown]);
    assert r == before + [YieldOf(RUN.terms[8], before)] && r[9] == After(0);
  }

  lemma {:induction false} RunNotItself()
    ensures !Mentions(RUN, 0)
  {
    forall i | 0 <= i < |ARM.terms| ensures !Mentions(ARM.terms[i], 0) { }
    forall i | 0 <= i < |HANDLER.terms| ensures !Mentions(HANDLER.terms[i], 0) { }
    forall i | 0 <= i < |RUNNER.terms| ensures !Mentions(RUNNER.terms[i], 0) { }
    forall i | 0 <= i < |RUN.terms| ensures !Mentions(RUN.terms[i], 0) { }
  }

  // ---------------------------------------------------------------- handlers in sight

  lemma {:induction false} NextFits(ts: seq<Term>, n: nat, all: seq<Term>, ys: seq<Yield>)
    requires n < |ts| && BodyMeets(ForClaims, ts[..n], all, ys)
    requires Meets(ForClaims, ts[n], all + ts[..n], BodyYields(ts[..n], ys))
    ensures BodyMeets(ForClaims, ts[..n + 1], all, ys)
  {
    assert ts[..n + 1][..n] == ts[..n];
  }

  /** Nothing is claimed at all. */
  predicate Claimless(t: Term)
    decreases t
  {
    match t
    case Arg(_) => true
    case Lit(_, _) => true
    case Redux(_, op, _) => !op.Des? && !(op.Prim? && op.kind.FnArg?)
    case Fun(_, _, terms, _) => forall i :: 0 <= i < |terms| ==> Claimless(terms[i])
  }

  lemma {:induction false} ClaimlessMeets(t: Term, all: seq<Term>, ys: seq<Yield>)
    requires Claimless(t)
    ensures Meets(ForClaims, t, all, ys)
    decreases t, 1
  {
    if t.Fun? { ClaimlessBodyMeets(t.terms, |t.terms|, all + [t], ys + [FunYield(t, ys)]); }
  }

  lemma {:induction false} ClaimlessBodyMeets(ts: seq<Term>, n: nat, all: seq<Term>, ys: seq<Yield>)
    requires n <= |ts| && forall i :: 0 <= i < n ==> Claimless(ts[i])
    ensures BodyMeets(ForClaims, ts[..n], all, ys) && (n == |ts| ==> BodyMeets(ForClaims, ts, all, ys))
    decreases ts, 0, n
  {
    if n > 0 {
      ClaimlessBodyMeets(ts, n - 1, all, ys);
      ClaimlessMeets(ts[n - 1], all + ts[..n - 1], BodyYields(ts[..n - 1], ys));
      NextFits(ts, n - 1, all, ys);
    }
    assert ts[..|ts|] == ts;
  }

  lemma {:induction false} TestFits(all: seq<Term>, ys: seq<Yield>)
    requires |all| == 3
    ensures Meets(ForClaims, TEST, all, ys)
  {
    var A, r := all + [TEST], ys + [FunYield(TEST, ys)];
    assert Claimless(ZERO) && Claimless(ONE) && Claimless(CASE0) && Claimless(CASE1);
    ClaimlessBodyMeets(TEST.terms, 5, A, r);
    ArityIs(CASE0.terms, 1);
    ArityIs(CASE1.terms, 1);
    var here := A + TEST.terms[..5];
    assert here[7] == CASE0 && here[8] == CASE1;
    NextFits(TEST.terms, 5, A, r);
    assert TEST.terms[..6] == TEST.terms;
  }

  /** The handlers of the Boolean match are functions of one parameter in sight. */
  lemma {:induction false} MatchFits()
    ensures Whole(ForClaims, MATCH)
  {
    var A, r := [MATCH], [FunYield(MATCH, [])];
    ArityIs(MATCH.terms, 1);
    ClaimlessBodyMeets(MATCH.terms, 2, A, r);
    TestFits(A + MATCH.terms[..2], BodyYields(MATCH.terms[..2], r));
    NextFits(MATCH.terms, 2, A, r);
    NextFits(MATCH.terms, 3, A, r);
    NextFits(MATCH.terms, 4, A, r);
    assert MATCH.terms[..5] == MATCH.terms;
    var none: seq<Term>, no: seq<Yield> := [], [];
    assert none + [MATCH] == A && no + [FunYield(MATCH, [])] == r;
  }
}
