/** The scope pass loses nothing: what it makes of a term can be read back, reference by reference. */
module Placement {
  import opened Ssa
  import opened ScopePass

  /** How deep functions are nested in a term. */
  function Nesting(t: Term): nat
    decreases t, 1
  {
    if t.Fun? then 1 + Deepest(t.terms) else 0
  }

  function Deepest(ts: seq<Term>): (n: nat)
    decreases ts, 0
  {
    if ts == [] then 0 else
    var z := |ts| - 1;
    var d, last := Deepest(ts[..z]), Nesting(ts[z]);
    if d < last then last else d
  }

  lemma {:induction false} DeepestAt(ts: seq<Term>, i: nat)
    requires i < |ts|
    ensures Nesting(ts[i]) <= Deepest(ts)
    decreases |ts|
  {
    if i < |ts| - 1 { DeepestAt(ts[..|ts| - 1], i); }
  }

  /** The word names index x: as many frames out as it says, that far into the frame, and not yet in the next one. */
  predicate Denotes(starts: seq<nat>, word: nat, x: nat) {
    var depth, offset := word % 65536, word / 65536;
    && depth < |starts| && x == starts[|starts| - 1 - depth] + offset
    && forall i :: |starts| - depth <= i < |starts| ==> x < starts[i]
  }

  predicate AllDenote(starts: seq<nat>, words: seq<nat>, xs: seq<nat>) {
    |words| == |xs| && forall i :: 0 <= i < |xs| ==> Denotes(starts, words[i], xs[i])
  }

  /** p is t with every reference, at any depth, named from where it stands. */
  predicate ReadsAs(p: Placed, t: Term, at: nat, starts: seq<nat>)
    decreases t, 1
  {
    match t
    case Arg(_) => p.PArg?
    case Lit(_, x) => p.PLit? && p.value == x
    case Redux(_, op, args) => p.PRedux? && p.op == op && AllDenote(starts, p.args, args)
    case Fun(_, _, terms, output) =>
      var inner, g := starts + [at + 1], ScopeFun(t, at);
      && p.PFun? && p.code == g.codes && AllDenote(starts, p.escapes, g.escapes) && Denotes(inner, p.output, output)
      && |p.terms| == |terms| && BodyReads(p.terms, terms, |terms|, at + 1, inner)
  }

  /** The same of the first n terms of a body. */
  predicate BodyReads(ps: seq<Placed>, ts: seq<Term>, n: nat, start: nat, starts: seq<nat>)
    requires n <= |ts| == |ps|
    decreases ts, 0, n
  {
    n == 0 || (BodyReads(ps, ts, n - 1, start, starts) && ReadsAs(ps[n - 1], ts[n - 1], start + n - 1, starts))
  }

  lemma {:induction false} PlaceDenotes(starts: seq<nat>, x: nat)
    requires Frames(starts) && |starts| <= 65536
    ensures Denotes(starts, Place(starts, x), x)
  {
    var d := Depth(starts, x);
    ArgRoundTrip(d, x - starts[|starts| - 1 - d]);
  }

  lemma {:induction false} AllPlaced(starts: seq<nat>, xs: seq<nat>)
    requires Frames(starts) && |starts| <= 65536
    ensures AllDenote(starts, PlaceAll(starts, xs), xs)
  {
    forall i | 0 <= i < |xs| ensures Denotes(starts, PlaceAll(starts, xs)[i], xs[i]) { PlaceDenotes(starts, xs[i]); }
  }

  /** As long as frames are not nested deeper than a word can say, the pass can be undone. */
  lemma {:induction false} PlacedReads(t: Term, at: nat, starts: seq<nat>, p: Placed)
    requires Frames(starts) && |starts| + Nesting(t) <= 65536 && p == PlaceTerm(t, at, starts)
    ensures ReadsAs(p, t, at, starts)
    decreases t, 1
  {
    if t.Redux? { AllPlaced(starts, t.args); }
    if t.Fun? {
      var inner := Nested(starts, at);
      var ps := PlaceTerms(t.terms, at + 1, inner);
      TermsRead(t.terms, |t.terms|, at + 1, inner, ps);
      FunReads(t, at, starts, inner, ps);
    }
  }

  lemma {:induction false} TermsRead(ts: seq<Term>, n: nat, start: nat, starts: seq<nat>, ps: seq<Placed>)
    requires Frames(starts) && |starts| + Deepest(ts) <= 65536 && ps == PlaceTerms(ts, start, starts) && n <= |ts|
    ensures BodyReads(ps, ts, n, start, starts)
    decreases ts, 0, n
  {
    if n > 0 {
      TermsRead(ts, n - 1, start, starts, ps);
      DeepestAt(ts, n - 1);
      PlacedReads(ts[n - 1], start + n - 1, starts, ps[n - 1]);
    }
  }

  lemma {:induction false} FunReads(t: Term, at: nat, starts: seq<nat>, inner: seq<nat>, ps: seq<Placed>)
    requires t.Fun? && Frames(starts) && inner == Nested(starts, at) && |inner| <= 65536
    requires ps == PlaceTerms(t.terms, at + 1, inner)
    requires BodyReads(ps, t.terms, |t.terms|, at + 1, inner)
    ensures ReadsAs(PlaceTerm(t, at, starts), t, at, starts)
  {
    AllPlaced(starts, ScopeFun(t, at).escapes);
    PlaceDenotes(inner, t.output);
  }

  /** So for a whole program. */
  lemma {:induction false} ProgramReads(top: Term)
    requires top.Fun? && Nesting(top) < 65536
    ensures ReadsAs(PlaceTerm(top, 0, [0]), top, 0, [0])
  {
    PlacedReads(top, 0, [0], PlaceTerm(top, 0, [0]));
  }
}
