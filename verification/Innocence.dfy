/** Which terms the purity pass must leave unflagged, told by counting calls rather than by words of bits.

    A term is quiet for n calls if neither evaluating it nor calling its value once, twice, up to n times does
    anything observable.  Calls are followed to functions in sight; a function may take itself to be quiet until its
    curried parameters are used up, as long as its body bears that out.
 */
module Innocence {
  import opened Sequences
  import opened Ssa
  import opened SsaRelation
  import opened Purity

  datatype Rest = Restless | Quiet(calls: nat)

  function Known(ys: seq<Rest>, x: nat): Rest {
    if x < |ys| then ys[x] else Restless
  }

  /** What is left after k calls. */
  function Fewer(y: Rest, k: nat): Rest {
    if y.Quiet? && y.calls >= k then Quiet(y.calls - k) else Restless
  }

  function Lesser(x: Rest, y: Rest): Rest {
    if x.Quiet? && y.Quiet? then (if x.calls <= y.calls then x else y) else Restless
  }

  /** The least quiet of the first n. */
  function Least(ys: seq<Rest>, args: seq<nat>, n: nat): Rest
    requires 0 < n <= |args|
  {
    var y := Known(ys, args[n - 1]);
    if n == 1 then y else Lesser(Least(ys, args, n - 1), y)
  }

  function OpRest(pass: Pass, op: Op, args: seq<nat>, ys: seq<Rest>): Rest {
    match op
    case App => if args == [] then Restless else Fewer(Known(ys, args[0]), |args| - 1)
    case Prim(_, kind) =>
      (match kind
       case Pure => Quiet(0)
       case Ordered => if pass.EffectPass? then Quiet(0) else Restless
       case Impure => Restless
       case FnArg => if |args| < 2 then Restless else Fewer(Known(ys, args[1]), 1))
    case Get(_) => Quiet(0)
    case Des => if |args| < 2 then Restless else Fewer(Least(ys, args, |args| - 1), 1)
    case Con(_) => Quiet(0)
  }

  function RestOf(pass: Pass, t: Term, ys: seq<Rest>): Rest
    decreases t, 1
  {
    match t
    case Arg(_) => Quiet(0)
    case Lit(_, _) => Quiet(0)
    case Redux(_, op, args) => if InRange(args, |ys|) then OpRest(pass, op, args, ys) else Restless
    case Fun(_, _, _, _) => FunRest(pass, t, ys)
  }

  function BodyRests(pass: Pass, ts: seq<Term>, ys: seq<Rest>): (r: seq<Rest>)
    ensures |r| == |ys| + |ts| && forall i :: 0 <= i < |ys| ==> r[i] == ys[i]
    decreases ts, 0
  {
    if ts == [] then ys else
    var r := BodyRests(pass, ts[..|ts| - 1], ys);
    r + [RestOf(pass, ts[|ts| - 1], r)]
  }

  /** The parameters of a function and of the functions it returns as written. */
  function Spine(f: Term, k: nat): nat
    requires f.Fun?
    decreases f
  {
    var i := f.output - k - 1;
    CountArgs(f.terms) + if 0 <= i < |f.terms| && f.terms[i].Fun? then Spine(f.terms[i], f.output) else 0
  }

  function Capped(n: nat): Rest {
    Quiet(if n < WIDTH then n else WIDTH - 1)
  }

  /** Calls that only gather arguments are quiet, whatever the body does. */
  function Gathering(f: Term, k: nat): Rest
    requires f.Fun?
  {
    if CountArgs(f.terms) == 0 || f.output > k + |f.terms| then Restless else Capped(CountArgs(f.terms) - 1)
  }

  predicate AllQuiet(ys: seq<Rest>, from: nat) {
    forall i :: from <= i < |ys| ==> ys[i].Quiet?
  }

  /** What the body says of the function if it itself is `self`. */
  function Outcome(pass: Pass, f: Term, ys: seq<Rest>, self: Rest): (y: Rest)
    requires f.Fun?
    ensures y.Quiet? ==> y.calls < WIDTH
    decreases f, 0, 0
  {
    var r := BodyRests(pass, f.terms, ys + [self]);
    if AllQuiet(r, |ys| + 1) && Known(r, f.output).Quiet?
    then Capped(CountArgs(f.terms) + Known(r, f.output).calls)
    else Gathering(f, |ys|)
  }

  predicate AtLeast(x: Rest, y: Rest) {
    y.Quiet? ==> x.Quiet? && x.calls >= y.calls
  }

  /** What a function is taken for inside its own body. */
  function Assumed(pass: Pass, f: Term, ys: seq<Rest>): Rest
    requires f.Fun?
    decreases f, 0, 1
  {
    var guess := Capped(Spine(f, |ys|));
    if AtLeast(Outcome(pass, f, ys, guess), guess) then guess else Gathering(f, |ys|)
  }

  function FunRest(pass: Pass, f: Term, ys: seq<Rest>): (y: Rest)
    requires f.Fun?
    ensures y.Quiet? ==> y.calls < WIDTH
    decreases f, 0, 2
  {
    Outcome(pass, f, ys, Assumed(pass, f, ys))
  }

  lemma {:induction false} AssumedHolds(pass: Pass, f: Term, ys: seq<Rest>)
    requires f.Fun?
    ensures AtLeast(FunRest(pass, f, ys), Assumed(pass, f, ys))
  {
  }

  // ------------------------------------------------------------------- words and counts

  predicate Has(x: Mask, y: Rest) {
    y.Quiet? ==> y.calls < WIDTH && forall i :: 0 <= i <= y.calls ==> x[i]
  }

  predicate AllHave(s: seq<Mask>, ys: seq<Rest>) {
    |s| == |ys| && forall i :: 0 <= i < |s| ==> Has(s[i], ys[i])
  }

  function Low(y: Rest): (x: Mask)
    ensures forall i :: 0 <= i < WIDTH ==> (x[i] <==> y.Quiet? && i <= y.calls)
  {
    seq(WIDTH, i => y.Quiet? && i <= y.calls)
  }

  lemma {:induction false} HasLow(x: Mask, y: Rest)
    requires y.Quiet? ==> y.calls < WIDTH
    ensures Has(x, y) <==> MaskLe(Low(y), x)
  {
  }

  lemma {:induction false} AppHas(x: Mask, n: nat, k: nat)
    requires k <= n < WIDTH && forall i :: 0 <= i <= n ==> x[i]
    ensures forall i :: 0 <= i <= n - k ==> AppMask(x, k)[i]
  {
    if k > 0 { AppHas(x, n, k - 1); }
  }

  lemma {:induction false} LeastHas(s: seq<Mask>, ys: seq<Rest>, args: seq<nat>, n: nat)
    requires AllHave(s, ys) && InRange(args, |s|) && 0 < n <= |args|
    ensures Has(AndAll(PickMasks(s, args)[..n]), Least(ys, args, n))
    decreases n
  {
    var ms := PickMasks(s, args)[..n];
    assert ms == ms[..n - 1] + [s[args[n - 1]]] && Has(s[args[n - 1]], ys[args[n - 1]]);
    assert ms[..n - 1] == PickMasks(s, args)[..n - 1];
    if n > 1 { LeastHas(s, ys, args, n - 1); } else { assert ms[..0] == []; }
  }

  lemma {:induction false} OpHas(pass: Pass, op: Op, args: seq<nat>, s: seq<Mask>, ys: seq<Rest>)
    requires AllHave(s, ys) && InRange(args, |s|)
    ensures Has(OpMask(pass, op, PickMasks(s, args)), OpRest(pass, op, args, ys))
  {
    var ms := PickMasks(s, args);
    match op
    case App =>
      if args != [] {
        var y := ys[args[0]];
        assert Has(ms[0], y);
        if y.Quiet? && y.calls >= |args| - 1 { AppHas(ms[0][0 := true], y.calls, |args| - 1); }
      }
    case Prim(_, kind) => if kind.FnArg? && |args| >= 2 { assert Has(ms[1], ys[args[1]]); }
    case Get(_) =>
    case Des => if |args| >= 2 { LeastHas(s, ys, args, |args| - 1); }
    case Con(_) =>
  }

  lemma {:induction false} FunHas(pass: Pass, f: Term, ys: seq<Rest>, self: Rest, all: seq<Mask>)
    requires f.Fun? && AllHave(all, BodyRests(pass, f.terms, ys + [self]))
    ensures Has(FunMask(f.terms, Clean(all, |ys| + 1), f.output, all), Outcome(pass, f, ys, self))
  {
    var r := BodyRests(pass, f.terms, ys + [self]);
    if AllQuiet(r, |ys| + 1) {
      forall i | |ys| + 1 <= i < |all| ensures all[i][0] { assert Has(all[i], r[i]); }
    }
    if f.output < |all| { assert Has(all[f.output], r[f.output]); }
  }

  // ------------------------------------------------- words that bear themselves out

  /** The program with the words its counts amount to. */
  function Calmed(pass: Pass, t: Term, ys: seq<Rest>): Term
    decreases t, 1
  {
    if t.Fun? then
      t.(meta := Low(FunRest(pass, t, ys)), terms := CalmedBody(pass, t.terms, ys + [Assumed(pass, t, ys)]))
    else t
  }

  function CalmedBody(pass: Pass, ts: seq<Term>, ys: seq<Rest>): (r: seq<Term>)
    ensures |r| == |ts|
    decreases ts, 0
  {
    if ts == [] then [] else
    var z := |ts| - 1;
    CalmedBody(pass, ts[..z], ys) + [Calmed(pass, ts[z], BodyRests(pass, ts[..z], ys))]
  }

  lemma {:induction false} CalmedArgs(pass: Pass, ts: seq<Term>, ys: seq<Rest>)
    ensures CountArgs(CalmedBody(pass, ts, ys)) == CountArgs(ts)
    decreases |ts|
  {
    if ts != [] {
      var z := |ts| - 1;
      CalmedArgs(pass, ts[..z], ys);
      var w := CalmedBody(pass, ts, ys);
      assert w[..z] == CalmedBody(pass, ts[..z], ys);
    }
  }

  lemma {:induction false} HasLess(x: Mask, y: Rest, y': Rest)
    requires Has(x, y) && AtLeast(y, y')
    ensures Has(x, y')
  {
  }

  /** Of w, which is t with other words, a visit finds none too large, and what it makes of w is as quiet as t is. */
  predicate Borne(pass: Pass, t: Term, w: Term, s: seq<Mask>, ys: seq<Rest>) {
    var v := PurityTerm(pass, false, w, s);
    TreeLe(w, v.0) && Has(v.1, RestOf(pass, t, ys))
  }

  lemma {:induction false} CalmUpheld(pass: Pass, t: Term, s: seq<Mask>, ys: seq<Rest>)
    requires AllHave(s, ys)
    ensures Borne(pass, t, Calmed(pass, t, ys), s, ys)
    decreases t, 1
  {
    if t.Fun? { CalmFunUpheld(pass, t, s, ys); } else { CalmOpUpheld(pass, t, s, ys); }
  }

  lemma {:induction false} CalmOpUpheld(pass: Pass, t: Term, s: seq<Mask>, ys: seq<Rest>)
    requires AllHave(s, ys) && !t.Fun?
    ensures Borne(pass, t, t, s, ys)
  {
    if t.Redux? && InRange(t.args, |s|) { OpHas(pass, t.op, t.args, s, ys); }
  }

  lemma {:induction false} CalmFunUpheld(pass: Pass, t: Term, s: seq<Mask>, ys: seq<Rest>)
    requires AllHave(s, ys) && t.Fun?
    ensures Borne(pass, t, Calmed(pass, t, ys), s, ys)
    decreases t, 0
  {
    var y, self := FunRest(pass, t, ys), Assumed(pass, t, ys);
    var meta, ws := Low(y), CalmedBody(pass, t.terms, ys + [self]);
    AssumedHolds(pass, t, ys);
    HasLow(meta, y);
    HasLess(meta, y, self);
    CalmBodyUpheld(pass, t.terms, s + [meta], ys + [self]);
    FunUpheld(pass, t, s, ys, y, self, ws);
  }

  lemma {:induction false} FunUpheld(pass: Pass, t: Term, s: seq<Mask>, ys: seq<Rest>, y: Rest, self: Rest,
                                     ws: seq<Term>)
    requires t.Fun? && |s| == |ys| && y == Outcome(pass, t, ys, self) && y == RestOf(pass, t, ys)
    requires ws == CalmedBody(pass, t.terms, ys + [self])
    requires BodyBorne(pass, t.terms, ws, s + [Low(y)], ys + [self])
    ensures Borne(pass, t, t.(meta := Low(y), terms := ws), s, ys)
  {
    var all := PurityBody(pass, false, ws, s + [Low(y)]).1;
    CalmedArgs(pass, t.terms, ys + [self]);
    FunHas(pass, t, ys, self, all);
    SameMask(t.terms, ws, Clean(all, |s| + 1), t.output, all);
    HasLow(FunMask(ws, Clean(all, |s| + 1), t.output, all), y);
  }

  predicate BodyBorne(pass: Pass, ts: seq<Term>, ws: seq<Term>, s: seq<Mask>, ys: seq<Rest>) {
    var b := PurityBody(pass, false, ws, s);
    AllHave(b.1, BodyRests(pass, ts, ys)) && forall i :: 0 <= i < |ws| ==> TreeLe(ws[i], b.0[i])
  }

  lemma {:induction false} SameMask(ts: seq<Term>, ts': seq<Term>, clean: bool, output: nat, all: seq<Mask>)
    requires CountArgs(ts) == CountArgs(ts')
    ensures FunMask(ts, clean, output, all) == FunMask(ts', clean, output, all)
  {
  }

  lemma {:induction false} CalmBodyUpheld(pass: Pass, ts: seq<Term>, s: seq<Mask>, ys: seq<Rest>)
    requires AllHave(s, ys)
    ensures BodyBorne(pass, ts, CalmedBody(pass, ts, ys), s, ys)
    decreases ts, 0
  {
    if ts != [] {
      var z := |ts| - 1;
      var init, r := CalmedBody(pass, ts[..z], ys), BodyRests(pass, ts[..z], ys);
      CalmBodyUpheld(pass, ts[..z], s, ys);
      var b := PurityBody(pass, false, init, s);
      CalmUpheld(pass, ts[z], b.1, r);
      VisitSnoc(pass, init, Calmed(pass, ts[z], r), CalmedBody(pass, ts, ys), s, b);
    }
  }

  lemma {:induction false} VisitSnoc(pass: Pass, ts: seq<Term>, t: Term, ts': seq<Term>, s: seq<Mask>,
                                     b: (seq<Term>, seq<Mask>))
    requires ts' == ts + [t] && b == PurityBody(pass, false, ts, s)
    ensures var v := PurityTerm(pass, false, t, b.1); PurityBody(pass, false, ts', s) == (b.0 + [v.0], b.1 + [v.1])
  {
    assert ts'[..|ts|] == ts;
  }

  // --------------------------------------------------------------------- the result

  /** No quiet operation is flagged; a primitive is flagged exactly if its kind says so. */
  predicate Unflagged(pass: Pass, t: Term, ys: seq<Rest>)
    decreases t, 1
  {
    match t
    case Arg(_) => true
    case Lit(_, _) => true
    case Redux(flags, op, args) =>
      && (RestOf(pass, t, ys).Quiet? && !op.Get? && !op.Con? ==> !Flagged(pass, flags))
      && (op.Prim? && !op.kind.FnArg? && InRange(args, |ys|) ==>
           (Flagged(pass, flags) <==> op.kind.Impure? || (op.kind.Ordered? && pass.OrderPass?)))
    case Fun(_, _, terms, _) => BodyUnflagged(pass, terms, ys + [Assumed(pass, t, ys)])
  }

  predicate BodyUnflagged(pass: Pass, ts: seq<Term>, ys: seq<Rest>)
    decreases ts, 0
  {
    ts == [] ||
    (var z := |ts| - 1;
     BodyUnflagged(pass, ts[..z], ys) && Unflagged(pass, ts[z], BodyRests(pass, ts[..z], ys)))
  }

  lemma {:induction false} SettledUnflagged(pass: Pass, r: Term, s: seq<Mask>, ys: seq<Rest>)
    requires AllHave(s, ys) && Settled(pass, r, s) && TreeLe(Calmed(pass, r, ys), r)
    ensures Unflagged(pass, r, ys) && Has(PurityTerm(pass, false, r, s).1, RestOf(pass, r, ys))
    decreases r, 1
  {
    if r.Redux? && InRange(r.args, |s|) { OpHas(pass, r.op, r.args, s, ys); }
    if r.Fun? {
      var y, self := FunRest(pass, r, ys), Assumed(pass, r, ys);
      AssumedHolds(pass, r, ys);
      HasLow(r.meta, y);
      HasLess(r.meta, y, self);
      BodySettledUnflagged(pass, r.terms, s + [r.meta], ys + [self]);
    }
  }

  lemma {:induction false} BodySettledUnflagged(pass: Pass, ts: seq<Term>, s: seq<Mask>, ys: seq<Rest>)
    requires AllHave(s, ys) && PurityBody(pass, false, ts, s).0 == ts
    requires WordsBelow(CalmedBody(pass, ts, ys), ts)
    ensures BodyUnflagged(pass, ts, ys)
    ensures AllHave(PurityBody(pass, false, ts, s).1, BodyRests(pass, ts, ys))
    decreases ts, 0
  {
    if ts != [] {
      var z := |ts| - 1;
      var init, t, r := ts[..z], ts[z], BodyRests(pass, ts[..z], ys);
      var b := PurityBody(pass, false, init, s);
      VisitSnoc(pass, init, t, ts, s, b);
      SnocParts(init, t, ts, b.0, PurityTerm(pass, false, t, b.1).0);
      WordsBelowSnoc(CalmedBody(pass, init, ys), Calmed(pass, t, r), CalmedBody(pass, ts, ys), init, t, ts);
      BodySettledUnflagged(pass, init, s, ys);
      SettledUnflagged(pass, t, b.1, r);
    }
  }

  predicate WordsBelow(ws: seq<Term>, ts: seq<Term>) {
    |ws| == |ts| && forall i :: 0 <= i < |ws| ==> TreeLe(ws[i], ts[i])
  }

  lemma {:induction false} WordsBelowSnoc(ws: seq<Term>, w: Term, ws': seq<Term>, ts: seq<Term>, t: Term,
                                          ts': seq<Term>)
    requires ws' == ws + [w] && ts' == ts + [t] && WordsBelow(ws', ts')
    ensures WordsBelow(ws, ts) && TreeLe(w, t)
  {
    assert TreeLe(ws'[|ws|], ts'[|ws|]);
    forall i | 0 <= i < |ws| ensures TreeLe(ws[i], ts[i]) { assert TreeLe(ws'[i], ts'[i]); }
  }

  lemma {:induction false} SnocParts<T>(s: seq<T>, x: T, all: seq<T>, s': seq<T>, x': T)
    requires all == s + [x] && all == s' + [x']
    ensures s == s' && x == x'
  {
    assert s == all[..|all| - 1] && s' == all[..|all| - 1];
    assert all[|all| - 1] == x;
  }

  lemma {:induction false} CalmedLe(pass: Pass, t: Term, r: Term, ys: seq<Rest>)
    requires Alike(t, r, Id)
    ensures TreeLe(Calmed(pass, r, ys), Fresh(t))
    decreases r, 1
  {
    if r.Redux? { assert r.args == t.args; }
    if r.Fun? {
      var inner := ys + [Assumed(pass, r, ys)];
      forall i | 0 <= i < |r.terms| ensures TreeLe(CalmedBody(pass, r.terms, inner)[i], Fresh(t.terms[i])) {
        CalmedAt(pass, r.terms, inner, i);
        CalmedLe(pass, t.terms[i], r.terms[i], BodyRests(pass, r.terms[..i], inner));
      }
    }
  }

  lemma {:induction false} CalmedAt(pass: Pass, ts: seq<Term>, ys: seq<Rest>, i: nat)
    requires i < |ts|
    ensures CalmedBody(pass, ts, ys)[i] == Calmed(pass, ts[i], BodyRests(pass, ts[..i], ys))
    decreases |ts|
  {
    var z := |ts| - 1;
    if i < z {
      CalmedAt(pass, ts[..z], ys, i);
      assert ts[..z][..i] == ts[..i];
    }
  }

  /** The pass flags nothing that is quiet: no pure primitive, no call of a function in sight that holds only quiet
      terms, no destructure whose handlers do. */
  lemma {:induction false} InnocentUnflagged(pass: Pass, t: Term, r: Term)
    requires Alike(t, r, Id) && Settled(pass, r, []) && Greatest(pass, t, r)
    ensures Unflagged(pass, r, [])
  {
    CalmUpheld(pass, r, [], []);
    CalmedLe(pass, t, r, []);
    SettledUnflagged(pass, r, [], []);
  }
}
