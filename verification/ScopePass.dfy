/** The scope pass: flat indices become depth and offset, every function lists what it
    captures in order of first capture, and gets a code that depends on nothing else
    of where it sits.
 */
module ScopePass {
  import opened Sequences
  import opened Ssa
  import opened SsaRelation

  // -------------------------------------------------------------- packed references

  const DEPTHS: nat := 65536

  function MakeArg(depth: nat, offset: nat): nat {
    offset * DEPTHS + depth
  }

  function ArgDepth(arg: nat): nat { arg % DEPTHS }

  function ArgOffset(arg: nat): nat { arg / DEPTHS }

  /** Packing loses nothing exactly when the depth fits its sixteen bits. */
  lemma {:induction false} ArgRoundTrip(depth: nat, offset: nat)
    ensures depth < DEPTHS <==> ArgDepth(MakeArg(depth, offset)) == depth && ArgOffset(MakeArg(depth, offset)) == offset
  {
  }

  lemma {:induction false} MakeArgInjective(d: nat, o: nat, d': nat, o': nat)
    requires d < DEPTHS && d' < DEPTHS && MakeArg(d, o) == MakeArg(d', o')
    ensures d == d' && o == o'
  {
    ArgRoundTrip(d, o);
    ArgRoundTrip(d', o');
  }

  // --------------------------------------------------------------------- the codes

  /** A word, or what stands for a hash: of a literal, a name, or a list of codes. */
  datatype Code = Word(n: nat) | Literal(value: int) | Name(op: Op) | Digest(codes: seq<Code>)

  function TypeOf(t: Term): nat {
    match t
    case Arg(_) => 0
    case Lit(_, _) => 1
    case Redux(_, op,
               _) => (match op case App => 2 case Prim(_, _) => 3 case Get(_) => 4 case Des => 5 case Con(_) => 6)
    case Fun(_, _, _, _) => 7
  }

  /** What a frame has gathered so far. */
  datatype Frame = Frame(codes: seq<Code>, escapes: seq<nat>)

  /** The first position of x from i on, or the length. */
  function First(s: seq<nat>, x: nat, i: nat): (r: nat)
    requires i <= |s|
    ensures i <= r <= |s| && (r < |s| ==> s[r] == x) && forall k :: i <= k < r ==> s[k] != x
    decreases |s| - i
  {
    if i == |s| || s[i] == x then i else First(s, x, i + 1)
  }

  function IndexOf(s: seq<nat>, x: nat): nat { First(s, x, 0) }

  function Escaped(escapes: seq<nat>, x: nat): seq<nat> {
    if IndexOf(escapes, x) < |escapes| then escapes else escapes + [x]
  }

  function ScopeRef(fr: Frame, start: nat, x: nat): Frame {
    if x < start then
      Frame(fr.codes + [Word(MakeArg(1, IndexOf(fr.escapes, x)))], Escaped(fr.escapes, x))
    else Frame(fr.codes + [Word(MakeArg(0, x - start))], fr.escapes)
  }

  function ScopeRefs(fr: Frame, start: nat, xs: seq<nat>): Frame {
    if xs == [] then fr else ScopeRef(ScopeRefs(fr, start, xs[..|xs| - 1]), start, xs[|xs| - 1])
  }

  function Push(fr: Frame, codes: seq<Code>): Frame {
    fr.(codes := fr.codes + codes)
  }

  /** What an operation adds after its arguments. */
  function Suffix(op: Op): seq<Code> {
    match op
    case App => []
    case Prim(_, _) => [Name(op)]
    case Get(i) => [Word(i)]
    case Des => []
    case Con(_) => [Name(op)]
  }

  function ScopeTerm(fr: Frame, start: nat, at: nat, t: Term): Frame
    decreases t, 1
  {
    match t
    case Arg(_) => Push(fr, [Word(TypeOf(t))])
    case Lit(_, x) => Push(fr, [Word(TypeOf(t)), Literal(x)])
    case Redux(_, op, args) => Push(ScopeRefs(Push(fr, [Word(TypeOf(t)), Word(|args|)]), start, args), Suffix(op))
    case Fun(_, _, _, _) =>
      var g := ScopeFun(t, at);
      ScopeRefs(Push(fr, [Word(TypeOf(t)), Digest(g.codes)]), start, g.escapes)
  }

  function ScopeTerms(fr: Frame, start: nat, ts: seq<Term>): Frame
    decreases ts, 1
  {
    if ts == [] then fr else
    ScopeTerm(ScopeTerms(fr, start, ts[..|ts| - 1]), start, start + |ts| - 1, ts[|ts| - 1])
  }

  /** The frame of a function at index `at`: its result first, then its terms. */
  function ScopeFun(f: Term, at: nat): Frame
    requires f.Fun?
    decreases f, 0
  {
    ScopeTerms(ScopeRef(Frame([], []), at + 1, f.output), at + 1, f.terms)
  }

  // ------------------------------------------------------------------- what escapes

  /** x is an outer reference of one of the first terms, or of what came before them. */
  ghost predicate EscapesAre(fr: Frame, start: nat, fr': Frame, xs: iset<nat>) {
    && fr.escapes <= fr'.escapes && Distinct(fr'.escapes)
    && forall x :: x in fr'.escapes <==> x in fr.escapes || (x < start && x in xs)
  }

  ghost function Refs(xs: seq<nat>): iset<nat> { iset x | x in xs }

  ghost function Mentioned(ts: seq<Term>): iset<nat> {
    iset x: nat | AnyMentions(ts, x)
  }

  predicate AnyMentions(ts: seq<Term>, x: nat) {
    exists i :: 0 <= i < |ts| && Mentions(ts[i], x)
  }

  lemma {:induction false} RefsEscape(fr: Frame, start: nat, xs: seq<nat>)
    requires Distinct(fr.escapes)
    ensures EscapesAre(fr, start, ScopeRefs(fr, start, xs), Refs(xs))
    decreases |xs|
  {
    if xs != [] {
      var z := |xs| - 1;
      RefsEscape(fr, start, xs[..z]);
      assert xs == xs[..z] + [xs[z]];
    }
  }

  lemma {:induction false} TermEscapes(fr: Frame, start: nat, at: nat, t: Term)
    requires Distinct(fr.escapes) && start <= at
    ensures EscapesAre(fr, start, ScopeTerm(fr, start, at, t), iset x: nat | Mentions(t, x))
    decreases t, 1
  {
    match t {
      case Arg(_) =>
      case Lit(_, _) =>
      case Redux(_, _, args) => RefsEscape(Push(fr, [Word(TypeOf(t)), Word(|args|)]), start, args);
      case Fun(_, _, _, _) =>
        var g := ScopeFun(t, at);
        FunEscapes(t, at);
        RefsEscape(Push(fr, [Word(TypeOf(t)), Digest(g.codes)]), start, g.escapes);
    }
  }

  lemma {:induction false} TermsSnoc(fr: Frame, start: nat, at: nat, ts: seq<Term>, t: Term, us: seq<Term>)
    requires us == ts + [t] && at == start + |ts|
    ensures ScopeTerms(fr, start, us) == ScopeTerm(ScopeTerms(fr, start, ts), start, at, t)
  {
    assert us[..|us| - 1] == ts;
  }

  lemma {:induction false} MentionedSnoc(ts: seq<Term>, t: Term, us: seq<Term>, x: nat)
    requires us == ts + [t]
    ensures AnyMentions(us, x) <==> AnyMentions(ts, x) || Mentions(t, x)
  {
    if AnyMentions(ts, x) {
      var i :| 0 <= i < |ts| && Mentions(ts[i], x);
      assert Mentions(us[i], x);
    }
    if Mentions(t, x) { assert Mentions(us[|ts|], x); }
  }

  lemma {:induction false} TermsEscape(fr: Frame, start: nat, ts: seq<Term>)
    requires Distinct(fr.escapes)
    ensures EscapesAre(fr, start, ScopeTerms(fr, start, ts), Mentioned(ts))
    decreases ts, 2
  {
    if ts != [] {
      var z := |ts| - 1;
      var us := ts[..z];
      var fr1 := ScopeTerms(fr, start, us);
      assert ts == us + [ts[z]];
      var at := start + z;
      TermsSnoc(fr, start, at, us, ts[z], ts);
      TermsEscape(fr, start, us);
      TermEscapes(fr1, start, at, ts[z]);
      forall x: nat ensures x in Mentioned(ts) <==> x in Mentioned(us) || Mentions(ts[z], x) {
        MentionedSnoc(us, ts[z], ts, x);
      }
    }
  }

  /** The escape list: the outer references of the function and of all it contains, each once. */
  lemma {:induction false} FunEscapes(f: Term, at: nat)
    requires f.Fun?
    ensures Distinct(ScopeFun(f, at).escapes)
    ensures forall x: nat :: x in ScopeFun(f, at).escapes <==> x <= at && Mentions(f, x)
    decreases f, 0
  {
    var fr := ScopeRef(Frame([], []), at + 1, f.output);
    TermsEscape(fr, at + 1, f.terms);
    forall x: nat ensures x in ScopeFun(f, at).escapes <==> x <= at && Mentions(f, x) {
      assert x in Mentioned(f.terms) <==> AnyMentions(f.terms, x);
    }
  }

  // ------------------------------------------------------- equal codes, equal functions

  /** The i-th capture on one side becomes the i-th on the other; what lies inside moves along. */
  function Renamed(start: nat, start': nat, e: seq<nat>, e': seq<nat>, x: nat): int {
    if x >= start then x - start + start'
    else if IndexOf(e, x) < |e| && IndexOf(e, x) < |e'| then e'[IndexOf(e, x)]
    else -1
  }

  function Renaming(start: nat, start': nat, e: seq<nat>, e': seq<nat>): nat -> int {
    (x: nat) => Renamed(start, start', e, e', x)
  }

  /** Two frames with the same codes so far, and escapes that lead to e and e'. */
  predicate Synced(fr: Frame, fr': Frame, e: seq<nat>, e': seq<nat>) {
    && fr.codes == fr'.codes && |fr.escapes| == |fr'.escapes| && fr.escapes <= e && fr'.escapes <= e'
    && Distinct(e) && Distinct(e')
  }

  /** Both frames can still come to have the codes `all` and the escapes e, e'. */
  predicate Within(fr: Frame, fr': Frame, e: seq<nat>, e': seq<nat>, all: seq<Code>) {
    fr.codes <= all && fr'.codes <= all && fr.escapes <= e && fr'.escapes <= e'
  }

  lemma {:induction false} PushSync(fr: Frame, fr': Frame, cs: seq<Code>, cs': seq<Code>, e: seq<nat>, e': seq<nat>,
                                    all: seq<Code>)
    requires Synced(fr, fr', e, e') && |cs| == |cs'| && Within(Push(fr, cs), Push(fr', cs'), e, e', all)
    ensures cs == cs' && Synced(Push(fr, cs), Push(fr', cs'), e, e')
  {
    forall i | 0 <= i < |cs| ensures cs[i] == cs'[i] {
      assert all[|fr.codes| + i] == Push(fr, cs).codes[|fr.codes| + i] == Push(fr', cs').codes[|fr.codes| + i];
    }
  }

  lemma {:induction false} RefSync(fr: Frame, fr': Frame, start: nat, start': nat, x: nat, x': nat, e: seq<nat>,
                                   e': seq<nat>, all: seq<Code>)
    requires Synced(fr, fr', e, e') && Within(ScopeRef(fr, start, x), ScopeRef(fr', start', x'), e, e', all)
    ensures Synced(ScopeRef(fr, start, x), ScopeRef(fr', start', x'), e, e') && Renamed(start, start', e, e', x) == x'
  {
    var r, r' := ScopeRef(fr, start, x), ScopeRef(fr', start', x');
    var z := |fr.codes|;
    assert all[z] == r.codes[z] == r'.codes[z];
    MakeArgInjective(if x < start then 1 else 0, if x < start then IndexOf(fr.escapes, x) else x - start,
                     if x' < start' then 1 else 0, if x' < start' then IndexOf(fr'.escapes, x') else x' - start');
    if x < start {
      var i := IndexOf(fr.escapes, x);
      assert r.escapes[i] == x && r'.escapes[i] == x';
      assert e[i] == x && e'[i] == x';
      assert IndexOf(e, x) == i;
    }
  }

  lemma {:induction false} RefsGrow(fr: Frame, start: nat, xs: seq<nat>)
    ensures fr.codes <= ScopeRefs(fr, start, xs).codes && fr.escapes <= ScopeRefs(fr, start, xs).escapes
    decreases |xs|
  {
    if xs != [] { RefsGrow(fr, start, xs[..|xs| - 1]); }
  }

  lemma {:induction false} WithinRef(fr: Frame, fr': Frame, start: nat, start': nat, x: nat, x': nat, e: seq<nat>,
                                     e': seq<nat>, all: seq<Code>)
    requires Within(ScopeRef(fr, start, x), ScopeRef(fr', start', x'), e, e', all)
    ensures Within(fr, fr', e, e', all)
  {
  }

  predicate AllRenamed(start: nat, start': nat, e: seq<nat>, e': seq<nat>, xs: seq<nat>, xs': seq<nat>) {
    |xs| == |xs'| && forall i :: 0 <= i < |xs| ==> Renamed(start, start', e, e', xs[i]) == xs'[i]
  }

  lemma {:induction false} RefsSnoc(fr: Frame, start: nat, ys: seq<nat>, x: nat, xs: seq<nat>)
    requires xs == ys + [x]
    ensures ScopeRefs(fr, start, xs) == ScopeRef(ScopeRefs(fr, start, ys), start, x)
  {
    assert xs[..|ys|] == ys;
  }

  lemma {:induction false} RefsSync(fr: Frame, fr': Frame, start: nat, start': nat, xs: seq<nat>, xs': seq<nat>,
                                    q: Frame, q': Frame, e: seq<nat>, e': seq<nat>, all: seq<Code>)
    requires |xs| == |xs'| && Synced(fr, fr', e, e') && q == ScopeRefs(fr, start, xs)
    requires q' == ScopeRefs(fr', start', xs')
    requires Within(q, q', e, e', all)
    ensures Synced(q, q', e, e') && AllRenamed(start, start', e, e', xs, xs')
    decreases |xs|
  {
    if xs != [] {
      var z := |xs| - 1;
      var ys, ys', x, x' := xs[..z], xs'[..z], xs[z], xs'[z];
      assert xs == ys + [x];
      assert xs' == ys' + [x'];
      RefsSnoc(fr, start, ys, x, xs);
      RefsSnoc(fr', start', ys', x', xs');
      var r, r' := ScopeRefs(fr, start, ys), ScopeRefs(fr', start', ys');
      WithinRef(r, r', start, start', x, x', e, e', all);
      RefsSync(fr, fr', start, start', ys, ys', r, r', e, e', all);
      RefSync(r, r', start, start', x, x', e, e', all);
      RenamedSnoc(start, start', e, e', ys, ys', x, x', xs, xs');
    }
  }

  lemma {:induction false} RenamedSnoc(start: nat, start': nat, e: seq<nat>, e': seq<nat>, ys: seq<nat>, ys': seq<nat>,
                                       x: nat, x': nat, xs: seq<nat>, xs': seq<nat>)
    requires AllRenamed(start, start', e, e', ys, ys') && Renamed(start, start', e, e', x) == x' && xs == ys + [x]
    requires xs' == ys' + [x']
    ensures AllRenamed(start, start', e, e', xs, xs')
  {
  }

  lemma {:induction false} AlikeAgree(t: Term, t': Term, r: nat -> int, r': nat -> int)
    requires Alike(t, t', r) && forall x: nat :: Mentions(t, x) ==> r(x) == r'(x)
    ensures Alike(t, t', r')
    decreases t
  {
    match t {
      case Arg(_) =>
      case Lit(_, _) =>
      case Redux(_, _, args) => forall i | 0 <= i < |args| ensures t'.args[i] ==
        r'(args[i]) { assert Mentions(t, args[i]); }
      case Fun(_, _, terms, output) =>
        assert Mentions(t, output);
        forall i | 0 <= i < |terms| ensures Alike(terms[i], t'.terms[i], r') {
          forall x: nat | Mentions(terms[i], x) ensures r(x) == r'(x) { assert Mentions(t, x); }
          AlikeAgree(terms[i], t'.terms[i], r, r');
        }
    }
  }

  lemma {:induction false} TermGrows(fr: Frame, start: nat, at: nat, t: Term)
    ensures var r := ScopeTerm(fr, start, at, t); fr.codes < r.codes && fr.escapes <= r.escapes
  {
    match t {
      case Arg(_) =>
      case Lit(_, _) =>
      case Redux(_, _, args) => RefsGrow(Push(fr, [Word(TypeOf(t)), Word(|args|)]), start, args);
      case Fun(_, _, _, _) =>
        var g := ScopeFun(t, at);
        RefsGrow(Push(fr, [Word(TypeOf(t)), Digest(g.codes)]), start, g.escapes);
    }
  }

  lemma {:induction false} TermsGrow(fr: Frame, start: nat, us: seq<Term>, vs: seq<Term>, ts: seq<Term>)
    requires ts == us + vs
    ensures var r, r' := ScopeTerms(fr, start, us), ScopeTerms(fr, start, ts);
      r.codes <= r'.codes && r.escapes <= r'.escapes && (r.codes == r'.codes ==> vs == [])
    decreases |vs|
  {
    if vs == [] {
      assert ts == us;
    } else {
      var z := |vs| - 1;
      var init, t := us + vs[..z], vs[z];
      assert ts == init + [t];
      TermsGrow(fr, start, us, vs[..z], init);
      var at := start + |init|;
      TermsSnoc(fr, start, at, init, t, ts);
      TermGrows(ScopeTerms(fr, start, init), start, at, t);
    }
  }

  /** The refs of an operation, behind its type and the number of its arguments. */
  function Heads(fr: Frame, start: nat, t: Term): Frame
    requires t.Redux?
  {
    ScopeRefs(Push(fr, [Word(TypeOf(t)), Word(|t.args|)]), start, t.args)
  }

  lemma {:induction false} HeadsSync(fr: Frame, fr': Frame, start: nat, start': nat, t: Term, t': Term, e: seq<nat>,
                                     e': seq<nat>, all: seq<Code>)
    requires Synced(fr, fr', e, e') && t.Redux? && t'.Redux?
    requires Within(Heads(fr, start, t), Heads(fr', start', t'), e, e', all)
    ensures Synced(Heads(fr, start, t), Heads(fr', start', t'), e, e')
    ensures AllRenamed(start, start', e, e', t.args, t'.args)
  {
    var cs, cs' := [Word(TypeOf(t)), Word(|t.args|)], [Word(TypeOf(t')), Word(|t'.args|)];
    RefsGrow(Push(fr, cs), start, t.args);
    RefsGrow(Push(fr', cs'), start', t'.args);
    PushSync(fr, fr', cs, cs', e, e', all);
    assert cs[1] == cs'[1];
    RefsSync(Push(fr, cs), Push(fr', cs'), start, start', t.args, t'.args, Heads(fr, start, t), Heads(fr', start', t'),
             e, e', all);
  }

  lemma {:induction false} SuffixDecides(op: Op, op': Op, t: Term, t': Term)
    requires t.Redux? && t'.Redux? && op == t.op && op' == t'.op && TypeOf(t) == TypeOf(t') && Suffix(op) == Suffix(op')
    ensures op == op'
  {
    assert Suffix(op) != [] ==> Suffix(op)[0] == Suffix(op')[0];
  }

  lemma {:induction false} ReduxSync(fr: Frame, fr': Frame, start: nat, start': nat, at: nat, at': nat, t: Term,
                                     t': Term,
                  e: seq<nat>, e': seq<nat>, all: seq<Code>)
    requires Synced(fr, fr', e, e') && t.Redux? && t'.Redux? && TypeOf(t) == TypeOf(t')
    requires Within(ScopeTerm(fr, start, at, t), ScopeTerm(fr', start', at', t'), e, e', all)
    ensures Synced(ScopeTerm(fr, start, at, t), ScopeTerm(fr', start', at', t'), e, e')
    ensures Alike(t, t', Renaming(start, start', e, e'))
  {
    var q, q' := Heads(fr, start, t), Heads(fr', start', t');
    assert Within(Push(q, Suffix(t.op)), Push(q', Suffix(t'.op)), e, e', all);
    HeadsSync(fr, fr', start, start', t, t', e, e', all);
    PushSync(q, q', Suffix(t.op), Suffix(t'.op), e, e', all);
    SuffixDecides(t.op, t'.op, t, t');
  }

  lemma {:induction false} TermSync(fr: Frame, fr': Frame, start: nat, start': nat, at: nat, at': nat, t: Term,
                                    t': Term,
                                    q: Frame, q': Frame, e: seq<nat>, e': seq<nat>, all: seq<Code>)
    requires Synced(fr, fr', e, e') && start <= at && start' <= at' && at - start == at' - start'
    requires q == ScopeTerm(fr, start, at, t) && q' == ScopeTerm(fr', start', at', t') && Within(q, q', e, e', all)
    ensures Synced(q, q', e, e') && Alike(t, t', Renaming(start, start', e, e'))
    decreases t, 1
  {
    TypesAgree(fr, fr', start, start', at, at', t, t', all);
    match t {
      case Arg(_) =>
      case Lit(_, x) => PushSync(fr, fr', [Word(1), Literal(x)], [Word(1), Literal(t'.value)], e, e', all);
        assert [Word(1), Literal(x)][1] == [Word(1), Literal(t'.value)][1];
      case Redux(_, _, _) => ReduxSync(fr, fr', start, start', at, at', t, t', e, e', all);
      case Fun(_, _, _, _) =>
        NestedSync(fr, fr', start, start', at, at', t, t', e, e', all);
    }
  }

  lemma {:induction false} NestedSync(fr: Frame, fr': Frame, start: nat, start': nat, at: nat, at': nat, f: Term,
                                      f': Term,
                                      e: seq<nat>, e': seq<nat>, all: seq<Code>)
    requires Synced(fr, fr', e, e') && start <= at && start' <= at' && at - start == at' - start' && f.Fun? && f'.Fun?
    requires Within(ScopeTerm(fr, start, at, f), ScopeTerm(fr', start', at', f'), e, e', all)
    ensures Synced(ScopeTerm(fr, start, at, f), ScopeTerm(fr', start', at', f'), e, e')
    ensures Alike(f, f', Renaming(start, start', e, e'))
    decreases f, 0, 1
  {
    var g, g' := ScopeFun(f, at), ScopeFun(f', at');
    var cs, cs' := [Word(7), Digest(g.codes)], [Word(7), Digest(g'.codes)];
    RefsGrow(Push(fr, cs), start, g.escapes);
    RefsGrow(Push(fr', cs'), start', g'.escapes);
    PushSync(fr, fr', cs, cs', e, e', all);
    assert cs[1] == cs'[1];
    FunSync(f, f', at, at');
    RefsSync(Push(fr, cs), Push(fr', cs'), start, start', g.escapes, g'.escapes, ScopeTerm(fr, start, at, f),
             ScopeTerm(fr', start', at', f'), e, e', all);
    NestedAlike(f, f', at, at', start, start', g.escapes, g'.escapes, e, e');
  }

  lemma {:induction false} TypesAgree(fr: Frame, fr': Frame, start: nat, start': nat, at: nat, at': nat, t: Term,
                                      t': Term, all: seq<Code>)
    requires fr.codes == fr'.codes && ScopeTerm(fr, start, at, t).codes <= all
    requires ScopeTerm(fr', start', at', t').codes <= all
    ensures TypeOf(t) == TypeOf(t')
  {
    TypeFirst(fr, start, at, t);
    TypeFirst(fr', start', at', t');
    assert all[|fr.codes|] == Word(TypeOf(t)) == Word(TypeOf(t'));
  }

  lemma {:induction false} TypeFirst(fr: Frame, start: nat, at: nat, t: Term)
    ensures var r := ScopeTerm(fr, start, at, t); |r.codes| > |fr.codes| && r.codes[|fr.codes|] == Word(TypeOf(t))
  {
    match t {
      case Arg(_) =>
      case Lit(_, _) =>
      case Redux(_, _, args) => RefsGrow(Push(fr, [Word(TypeOf(t)), Word(|args|)]), start, args);
      case Fun(_, _, _, _) =>
        var g := ScopeFun(t, at);
        RefsGrow(Push(fr, [Word(TypeOf(t)), Digest(g.codes)]), start, g.escapes);
    }
  }

  /** What a nested function captures is renamed as its surroundings rename it. */
  lemma {:induction false} NestedAlike(g: Term, g': Term, at: nat, at': nat, start: nat, start': nat,
                    ge: seq<nat>, ge': seq<nat>, e: seq<nat>, e': seq<nat>)
    requires g.Fun? && start <= at && start' <= at' && at - start == at' - start'
    requires ge == ScopeFun(g, at).escapes && |ge| == |ge'| && Alike(g, g', Renaming(at + 1, at' + 1, ge, ge'))
    requires AllRenamed(start, start', e, e', ge, ge')
    ensures Alike(g, g', Renaming(start, start', e, e'))
  {
    FunEscapes(g, at);
    forall x: nat | Mentions(g, x) ensures Renaming(at + 1, at' + 1, ge, ge')(x) == Renaming(start, start', e, e')(x) {
      if x <= at { assert ge[IndexOf(ge, x)] == x; }
    }
    AlikeAgree(g, g', Renaming(at + 1, at' + 1, ge, ge'), Renaming(start, start', e, e'));
  }

  ghost predicate AllAlike(ts: seq<Term>, ts': seq<Term>, r: nat -> int) {
    |ts| == |ts'| && forall i :: 0 <= i < |ts| ==> Alike(ts[i], ts'[i], r)
  }

  lemma {:induction false} AlikeSnoc(us: seq<Term>, us': seq<Term>, t: Term, t': Term, ts: seq<Term>, ts': seq<Term>,
                                     r: nat -> int)
    requires ts == us + [t] && ts' == us' + [t'] && AllAlike(us, us', r) && Alike(t, t', r)
    ensures AllAlike(ts, ts', r)
  {
  }

  lemma {:induction false} AlikeInit(us: seq<Term>, us': seq<Term>, t: Term, t': Term, ts: seq<Term>, ts': seq<Term>,
                                     r: nat -> int)
    requires ts == us + [t] && ts' == us' + [t'] && AllAlike(ts, ts', r)
    ensures AllAlike(us, us', r) && Alike(t, t', r)
  {
    assert ts[|us|] == t && ts'[|us|] == t';
    forall i | 0 <= i < |us| ensures Alike(us[i], us'[i], r) { assert ts[i] == us[i] && ts'[i] == us'[i]; }
  }

  lemma {:induction false} TermsSync(fr: Frame, fr': Frame, start: nat, start': nat, ts: seq<Term>, ts': seq<Term>,
                                     q: Frame, q': Frame, e: seq<nat>, e': seq<nat>, all: seq<Code>)
    requires Synced(fr, fr', e, e') && |ts| == |ts'| && q == ScopeTerms(fr, start, ts)
    requires q' == ScopeTerms(fr', start', ts')
    requires Within(q, q', e, e', all)
    ensures Synced(q, q', e, e') && AllAlike(ts, ts', Renaming(start, start', e, e'))
    decreases ts, 2
  {
    if ts != [] {
      var z := |ts| - 1;
      var us, us', t, t' := ts[..z], ts'[..z], ts[z], ts'[z];
      assert ts == us + [t];
      assert ts' == us' + [t'];
      var at, at' := start + z, start' + z;
      TermsSnoc(fr, start, at, us, t, ts);
      TermsSnoc(fr', start', at', us', t', ts');
      var r, r' := ScopeTerms(fr, start, us), ScopeTerms(fr', start', us');
      WithinTerm(r, r', start, start', at, at', t, t', q, q', e, e', all);
      TermsSync(fr, fr', start, start', us, us', r, r', e, e', all);
      TermSync(r, r', start, start', at, at', t, t', q, q', e, e', all);
      AlikeSnoc(us, us', t, t', ts, ts', Renaming(start, start', e, e'));
    }
  }

  lemma {:induction false} WithinTerm(fr: Frame, fr': Frame, start: nat, start': nat, at: nat, at': nat, t: Term,
                                      t': Term,
                                      q: Frame, q': Frame, e: seq<nat>, e': seq<nat>, all: seq<Code>)
    requires q == ScopeTerm(fr, start, at, t) && q' == ScopeTerm(fr', start', at', t') && Within(q, q', e, e', all)
    ensures Within(fr, fr', e, e', all)
  {
    TermGrows(fr, start, at, t);
    TermGrows(fr', start', at', t');
  }

  /** Functions with the same codes are equal up to what they capture, first capture to first capture. */
  lemma {:induction false} FunSync(f: Term, f': Term, at: nat, at': nat)
    requires f.Fun? && f'.Fun? && ScopeFun(f, at).codes == ScopeFun(f', at').codes
    ensures var e, e' := ScopeFun(f, at).escapes, ScopeFun(f', at').escapes;
      |e| == |e'| && Alike(f, f', Renaming(at + 1, at' + 1, e, e'))
    decreases f, 0, 0
  {
    var all, e, e' := ScopeFun(f, at).codes, ScopeFun(f, at).escapes, ScopeFun(f', at').escapes;
    var start, start' := at + 1, at' + 1;
    var none := Frame([], []);
    var fr, fr' := ScopeRef(none, start, f.output), ScopeRef(none, start', f'.output);
    FunEscapes(f, at);
    FunEscapes(f', at');
    var ts, ts' := f.terms, f'.terms;
    TermsGrow(fr, start, [], ts, ts);
    TermsGrow(fr', start', [], ts', ts');
    RefSync(none, none, start, start', f.output, f'.output, e, e', all);
    var n := if |ts| < |ts'| then |ts| else |ts'|;
    var us, us' := if n == |ts| then ts else ts[..n], ts'[..n];
    FrontIs(ts, n, us);
    FrontIs(ts', n, us');
    var q, q' := ScopeTerms(fr, start, us), ScopeTerms(fr', start', us');
    TermsGrow(fr, start, us, ts[n..], ts);
    TermsGrow(fr', start', us', ts'[n..], ts');
    TermsSync(fr, fr', start, start', us, us', q, q', e, e', all);
    FrontSync(fr, fr', start, start', us, ts[n..], ts, us', ts'[n..], ts', e, e', all);
  }

  lemma {:induction false} FrontIs(ts: seq<Term>, n: nat, us: seq<Term>)
    requires n <= |ts| && (us == ts[..n] || (n == |ts| && us == ts))
    ensures ts == us + ts[n..]
  {
  }

  /** Of two bodies with the same codes neither is longer than the other. */
  lemma {:induction false} FrontSync(fr: Frame, fr': Frame, start: nat, start': nat, us: seq<Term>, vs: seq<Term>,
                                     ts: seq<Term>,
                                     us': seq<Term>, vs': seq<Term>, ts': seq<Term>, e: seq<nat>, e': seq<nat>,
                                     all: seq<Code>)
    requires ts == us + vs && ts' == us' + vs' && |us| == |us'| && (vs == [] || vs' == [])
    requires ScopeTerms(fr, start, ts) == Frame(all, e) && ScopeTerms(fr', start', ts') == Frame(all, e')
    requires Synced(ScopeTerms(fr, start, us), ScopeTerms(fr', start', us'), e, e')
    ensures us == ts && us' == ts' && |e| == |e'|
  {
    TermsGrow(fr, start, us, vs, ts);
    TermsGrow(fr', start', us', vs', ts');
    if vs == [] { assert us == ts; }
    if vs' == [] { assert us' == ts'; }
  }

  // ------------------------------------------------------- equal functions, equal codes

  /** r moves what lies inside the function from start on to start' on, and renames captures one to one. */
  ghost predicate Renames(r: nat -> int, start: nat, start': nat) {
    && (forall x: nat :: x >= start ==> r(x) == x - start + start')
    && (forall x: nat :: x < start ==> r(x) < start')
    && (forall x: nat, y: nat :: x < start && y < start && r(x) >= 0 && r(x) == r(y) ==> x == y)
  }

  /** The same codes, and escapes, all of them outer, renamed by r. */
  ghost predicate Mapped(r: nat -> int, fr: Frame, fr': Frame, start: nat) {
    && fr.codes == fr'.codes && |fr.escapes| == |fr'.escapes|
    && forall i :: 0 <= i < |fr.escapes| ==> fr'.escapes[i] == r(fr.escapes[i]) && fr.escapes[i] < start
  }

  lemma {:induction false} RefMapped(r: nat -> int, fr: Frame, fr': Frame, start: nat, start': nat, x: nat, x': nat)
    requires Renames(r, start, start') && Mapped(r, fr, fr', start) && x' == r(x)
    ensures Mapped(r, ScopeRef(fr, start, x), ScopeRef(fr', start', x'), start)
  {
    if x < start {
      var i, j := IndexOf(fr.escapes, x), IndexOf(fr'.escapes, x');
      if i < |fr.escapes| { assert fr'.escapes[i] == x'; }
      if j < |fr'.escapes| { assert fr.escapes[j] == x; }
      assert i == j;
    }
  }

  lemma {:induction false} RefsMapped(r: nat -> int, fr: Frame, fr': Frame, start: nat, start': nat, xs: seq<nat>,
                                      xs': seq<nat>, q: Frame, q': Frame)
    requires Renames(r, start, start') && Mapped(r, fr, fr', start) && q == ScopeRefs(fr, start, xs)
    requires q' == ScopeRefs(fr', start', xs')
    requires |xs| == |xs'| && forall i :: 0 <= i < |xs| ==> xs'[i] == r(xs[i])
    ensures Mapped(r, q, q', start)
    decreases |xs|
  {
    if xs != [] {
      var z := |xs| - 1;
      var ys, ys', x, x' := xs[..z], xs'[..z], xs[z], xs'[z];
      assert xs == ys + [x] && xs' == ys' + [x'];
      RefsSnoc(fr, start, ys, x, xs);
      RefsSnoc(fr', start', ys', x', xs');
      var p, p' := ScopeRefs(fr, start, ys), ScopeRefs(fr', start', ys');
      RefsMapped(r, fr, fr', start, start', ys, ys', p, p');
      RefMapped(r, p, p', start, start', x, x');
    }
  }

  lemma {:induction false} RenamesInside(r: nat -> int, start: nat, start': nat, from: nat, from': nat)
    requires Renames(r, start, start') && start <= from && from' == from - start + start'
    ensures Renames(r, from, from')
  {
  }

  lemma {:induction false} TermMapped(r: nat -> int, fr: Frame, fr': Frame, start: nat, start': nat, at: nat, at': nat,
                                      t: Term, t': Term, q: Frame, q': Frame)
    requires Renames(r, start, start') && Mapped(r, fr, fr', start) && Alike(t, t', r) && start <= at
    requires at' == at - start + start'
    requires q == ScopeTerm(fr, start, at, t) && q' == ScopeTerm(fr', start', at', t')
    ensures Mapped(r, q, q', start)
    decreases t, 1
  {
    match t {
      case Arg(_) =>
      case Lit(_, _) =>
      case Redux(_, _, args) =>
        var cs := [Word(TypeOf(t)), Word(|args|)];
        RefsMapped(r, Push(fr, cs), Push(fr', cs), start, start', args, t'.args, Heads(fr, start, t),
                   Heads(fr', start', t'));
      case Fun(_, _, _, _) => NestedMapped(r, fr, fr', start, start', at, at', t, t');
    }
  }

  lemma {:induction false} NestedMapped(r: nat -> int, fr: Frame, fr': Frame, start: nat, start': nat, at: nat,
                                        at': nat, f: Term, f': Term)
    requires Renames(r, start, start') && Mapped(r, fr, fr', start) && f.Fun? && Alike(f, f', r) && start <= at
    requires at' == at - start + start'
    ensures Mapped(r, ScopeTerm(fr, start, at, f), ScopeTerm(fr', start', at', f'), start)
    decreases f, 0, 1
  {
    RenamesInside(r, start, start', at + 1, at' + 1);
    FunMapped(r, at, at', f, f');
    var g, g' := ScopeFun(f, at), ScopeFun(f', at');
    var cs := [Word(7), Digest(g.codes)];
    RefsMapped(r, Push(fr, cs), Push(fr', cs), start, start', g.escapes, g'.escapes, ScopeTerm(fr, start, at, f),
               ScopeTerm(fr', start', at', f'));
  }

  lemma {:induction false} TermsMapped(r: nat -> int, fr: Frame, fr': Frame, start: nat, start': nat, ts: seq<Term>,
                                       ts': seq<Term>, q: Frame, q': Frame)
    requires Renames(r, start, start') && Mapped(r, fr, fr', start) && AllAlike(ts, ts', r)
    requires q == ScopeTerms(fr, start, ts) && q' == ScopeTerms(fr', start', ts')
    ensures Mapped(r, q, q', start)
    decreases ts, 2
  {
    if ts != [] {
      var z := |ts| - 1;
      var us, us', t, t' := ts[..z], ts'[..z], ts[z], ts'[z];
      assert ts == us + [t];
      assert ts' == us' + [t'];
      var at, at' := start + z, start' + z;
      TermsSnoc(fr, start, at, us, t, ts);
      TermsSnoc(fr', start', at', us', t', ts');
      AlikeInit(us, us', t, t', ts, ts', r);
      var p, p' := ScopeTerms(fr, start, us), ScopeTerms(fr', start', us');
      TermsMapped(r, fr, fr', start, start', us, us', p, p');
      TermMapped(r, p, p', start, start', at, at', t, t', q, q');
    }
  }

  lemma {:induction false} FunMapped(r: nat -> int, at: nat, at': nat, f: Term, f': Term)
    requires Renames(r, at + 1, at' + 1) && f.Fun? && Alike(f, f', r)
    ensures Mapped(r, ScopeFun(f, at), ScopeFun(f', at'), at + 1)
    decreases f, 0, 0
  {
    var none, start, start' := Frame([], []), at + 1, at' + 1;
    RefMapped(r, none, none, start, start', f.output, f'.output);
    TermsMapped(r, ScopeRef(none, start, f.output), ScopeRef(none, start', f'.output), start, start', f.terms, f'.terms,
                ScopeFun(f, at), ScopeFun(f', at'));
  }

  /** One function, at index `at`, is the other, at index at', with its captures renamed one to one. */
  ghost predicate SameButCaptures(f: Term, at: nat, f': Term, at': nat) {
    exists r: nat -> int :: RenamedBy(r, f, at, f', at')
  }

  ghost predicate RenamedBy(r: nat -> int, f: Term, at: nat, f': Term, at': nat) {
    Renames(r, at + 1, at' + 1) && Alike(f, f', r)
  }

  /** Two functions, wherever they sit, have the same code exactly when they are the same but for captures. */
  lemma {:induction false} CodesDecide(f: Term, at: nat, f': Term, at': nat)
    requires f.Fun? && f'.Fun?
    ensures ScopeFun(f, at).codes == ScopeFun(f', at').codes <==> SameButCaptures(f, at, f', at')
  {
    if ScopeFun(f, at).codes == ScopeFun(f', at').codes {
      var e, e' := ScopeFun(f, at).escapes, ScopeFun(f', at').escapes;
      FunSync(f, f', at, at');
      FunEscapes(f, at);
      FunEscapes(f', at');
      forall i | 0 <= i < |e'| ensures e'[i] <= at' { assert e'[i] in e'; }
      RenamingRenames(at, at', e, e');
      assert RenamedBy(Renaming(at + 1, at' + 1, e, e'), f, at, f', at');
    }
    if SameButCaptures(f, at, f', at') {
      var r: nat -> int :| RenamedBy(r, f, at, f', at');
      FunMapped(r, at, at', f, f');
    }
  }

  lemma {:induction false} RenamingRenames(at: nat, at': nat, e: seq<nat>, e': seq<nat>)
    requires Distinct(e) && Distinct(e') && |e| == |e'| && forall i :: 0 <= i < |e'| ==> e'[i] <= at'
    ensures Renames(Renaming(at + 1, at' + 1, e, e'), at + 1, at' + 1)
  {
    var r := Renaming(at + 1, at' + 1, e, e');
    forall x: nat, y: nat | x <= at && y <= at && r(x) >= 0 && r(x) == r(y) ensures x == y {
      assert e'[IndexOf(e, x)] == e'[IndexOf(e, y)];
    }
  }

  /** Whatever renaming it is, it takes the escapes of one function to those of the other, in order. */
  lemma {:induction false} EscapesFollow(r: nat -> int, f: Term, at: nat, f': Term, at': nat, i: nat)
    requires f.Fun? && RenamedBy(r, f, at, f', at') && i < |ScopeFun(f, at).escapes|
    ensures i < |ScopeFun(f', at').escapes| && ScopeFun(f', at').escapes[i] == r(ScopeFun(f, at).escapes[i])
  {
    FunMapped(r, at, at', f, f');
  }

  // ------------------------------------------------------------------ depth and offset

  /** The starts of the frames around a reference, outermost first. */
  predicate Frames(starts: seq<nat>) {
    |starts| > 0 && starts[0] == 0
  }

  /** How many frames out an index lies, looking from the d-th frame out on. */
  function DepthFrom(starts: seq<nat>, x: nat, d: nat): (r: nat)
    requires Frames(starts) && d < |starts|
    ensures d <= r < |starts| && starts[|starts| - 1 - r] <= x
    ensures forall i :: |starts| - 1 - r < i <= |starts| - 1 - d ==> x < starts[i]
    decreases |starts| - d
  {
    if x >= starts[|starts| - 1 - d] then d else DepthFrom(starts, x, d + 1)
  }

  function Depth(starts: seq<nat>, x: nat): nat
    requires Frames(starts)
  {
    DepthFrom(starts, x, 0)
  }

  function Place(starts: seq<nat>, x: nat): nat
    requires Frames(starts)
  {
    MakeArg(Depth(starts, x), x - starts[|starts| - 1 - Depth(starts, x)])
  }

  function PlaceAll(starts: seq<nat>, xs: seq<nat>): (r: seq<nat>)
    requires Frames(starts)
    ensures |r| == |xs| && forall i :: 0 <= i < |xs| ==> r[i] == Place(starts, xs[i])
  {
    seq(|xs|, i requires 0 <= i < |xs| => Place(starts, xs[i]))
  }

  /** A term whose references are depths and offsets; a function also has its code and its escapes. */
  datatype Placed =
    | PArg
    | PLit(value: int)
    | PRedux(op: Op, args: seq<nat>)
    | PFun(code: seq<Code>, escapes: seq<nat>, terms: seq<Placed>, output: nat)

  /** The frames inside the function at an index. */
  function Nested(starts: seq<nat>, at: nat): (r: seq<nat>)
    requires Frames(starts)
    ensures Frames(r)
  {
    starts + [at + 1]
  }

  function PlaceTerm(t: Term, at: nat, starts: seq<nat>): Placed
    requires Frames(starts)
    decreases t, 0
  {
    match t
    case Arg(_) => PArg
    case Lit(_, x) => PLit(x)
    case Redux(_, op, args) => PRedux(op, PlaceAll(starts, args))
    case Fun(_, _, terms, output) =>
      var g, inner := ScopeFun(t, at), Nested(starts, at);
      PFun(g.codes, PlaceAll(starts, g.escapes), PlaceTerms(terms, at + 1, inner), Place(inner, output))
  }

  function PlaceTerms(ts: seq<Term>, start: nat, starts: seq<nat>): (r: seq<Placed>)
    requires Frames(starts)
    ensures |r| == |ts| && forall i :: 0 <= i < |ts| ==> r[i] == PlaceTerm(ts[i], start + i, starts)
    decreases ts, 1
  {
    seq(|ts|, i requires 0 <= i < |ts| => PlaceTerm(ts[i], start + i, starts))
  }

  // ---------------------------------------------------------------- in-place form

  class PassScope {
    const next: PassScope?
    const start: nat
    ghost const starts: seq<nat>
    var index: nat
    var escapes: seq<nat>
    var codes: seq<Code>

    /** The frames around this one are the ones `starts` names. */
    ghost predicate Linked()
      decreases |starts|
    {
      && |starts| > 0 && starts[|starts| - 1] == start
      && (next == null ==> |starts| == 1 && start == 0)
      && (next != null ==> |next.starts| > 0 && starts == next.starts + [start] && next.Linked())
    }

    lemma {:induction false} LinkedFrames()
      requires Linked()
      ensures Frames(starts)
      decreases |starts|
    {
      if next != null { next.LinkedFrames(); }
    }

    constructor Root()
      ensures Linked() && start == index == 0 && escapes == [] && codes == [] && starts == [0]
    {
      next, start, starts, index, escapes, codes := null, 0, [0], 0, [], [];
    }

    constructor Inside(outer: PassScope)
      requires outer.Linked() && Frames(outer.starts)
      ensures Linked() && start == index == outer.index + 1 && escapes == [] && codes == []
      ensures starts == Nested(outer.starts, outer.index)
    {
      var from := outer.index + 1;
      next, start, starts, index, escapes, codes := outer, from, Nested(outer.starts, outer.index), from, [], [];
    }

    function Snapshot(): Frame
      reads this
    {
      Frame(codes, escapes)
    }

    /** The position of x among the escapes, added if it is new. */
    method Escape(x: nat) returns (i: nat)
      modifies this`escapes
      ensures escapes == Escaped(old(escapes), x) && i == IndexOf(old(escapes), x)
    {
      i := 0;
      while i < |escapes| && escapes[i] != x
        invariant i <= |escapes| && First(escapes, x, 0) == First(escapes, x, i)
      {
        i := i + 1;
      }
      if i == |escapes| { escapes := escapes + [x]; }
    }

    /** The number of frames out to the one that holds x, and x's place in it. */
    method Walk(x: nat) returns (depth: nat, offset: nat)
      requires Linked() && Frames(starts) && x < start
      ensures depth == Depth(starts, x) && offset == x - starts[|starts| - 1 - depth]
    {
      var top := next;
      depth := 1;
      while x < top.start
        invariant top != null && top.Linked() && 1 <= depth < |starts| && top.starts == starts[..|starts| - depth]
        invariant Depth(starts, x) == DepthFrom(starts, x, depth)
        decreases |top.starts|
      {
        depth, top := depth + 1, top.next;
      }
      offset := x - top.start;
    }

    /** scope_arg */
    method Ref(x: nat) returns (r: nat)
      requires Linked() && Frames(starts)
      modifies this`escapes, this`codes
      ensures Snapshot() == ScopeRef(old(Snapshot()), start, x) && r == Place(starts, x)
    {
      if x < start {
        var i := Escape(x);
        var depth, offset := Walk(x);
        codes := codes + [Word(MakeArg(1, i))];
        r := MakeArg(depth, offset);
      } else {
        r := MakeArg(0, x - start);
        codes := codes + [Word(r)];
      }
    }

    method RefAll(xs: seq<nat>) returns (r: seq<nat>)
      requires Linked() && Frames(starts)
      modifies this`escapes, this`codes
      ensures Snapshot() == ScopeRefs(old(Snapshot()), start, xs) && r == PlaceAll(starts, xs)
    {
      r := [];
      ghost var fr := Snapshot();
      ghost var q := fr;
      for i := 0 to |xs|
        invariant Snapshot() == q && RefsTo(fr, q, start, xs, i)
        invariant |r| == i && forall k :: 0 <= k < i ==> r[k] == Place(starts, xs[k])
      {
        RefsToNext(fr, q, start, xs, i);
        q := ScopeRef(q, start, xs[i]);
        var x := Ref(xs[i]);
        r := r + [x];
      }
      assert xs[..|xs|] == xs;
    }

    method VisitTerm(t: Term) returns (r: Placed)
      requires Linked() && Frames(starts)
      modifies this`escapes, this`codes
      ensures Snapshot() == ScopeTerm(old(Snapshot()), start, index, t) && r == PlaceTerm(t, index, starts)
      decreases t, 3
    {
      match t {
        case Arg(_) =>
          codes, r := codes + [Word(TypeOf(t))], PArg;
        case Lit(_, x) =>
          codes, r := codes + [Word(TypeOf(t)), Literal(x)], PLit(x);
        case Redux(_, op, args) =>
          codes := codes + [Word(TypeOf(t)), Word(|args|)];
          var args' := RefAll(args);
          codes, r := codes + Suffix(op), PRedux(op, args');
        case Fun(_, _, _, _) =>
          r := VisitFun(t);
      }
    }

    /** RFun::pass_scope: the function's own frame, then its place in this one. */
    method VisitFun(f: Term) returns (r: Placed)
      requires f.Fun? && Linked() && Frames(starts)
      modifies this`escapes, this`codes
      ensures Snapshot() == ScopeTerm(old(Snapshot()), start, index, f) && r == PlaceTerm(f, index, starts)
      decreases f, 2
    {
      var g, terms, output := VisitFrame(f);
      ghost var head := [Word(TypeOf(f)), Digest(g.codes)];
      codes := codes + [Word(TypeOf(f)), Digest(g.codes)];
      assert Snapshot() == Push(old(Snapshot()), head);
      var escapes' := RefAll(g.escapes);
      r := PFun(g.codes, escapes', terms, output);
    }

    method VisitFrame(f: Term) returns (g: Frame, terms: seq<Placed>, output: nat)
      requires f.Fun? && Linked() && Frames(starts)
      ensures g == ScopeFun(f, index)
      ensures terms == PlaceTerms(f.terms, index + 1, Nested(starts, index))
      ensures output == Place(Nested(starts, index), f.output)
      decreases f, 1
    {
      var frame := new PassScope.Inside(this);
      terms, output := frame.VisitBody(f);
      g := Frame(frame.codes, frame.escapes);
    }

    /** In the function's own new frame: its result first, then its terms. */
    method VisitBody(f: Term) returns (terms: seq<Placed>, output: nat)
      requires f.Fun? && Linked() && Frames(starts) && index == start > 0 && Snapshot() == Frame([], [])
      modifies this
      ensures Snapshot() == ScopeFun(f, start - 1)
      ensures terms == PlaceTerms(f.terms, start, starts) && output == Place(starts, f.output)
      decreases f, 0
    {
      output := Ref(f.output);
      ghost var head := Snapshot();
      terms := VisitTerms(f.terms);
      FrameIs(f, start - 1, head, Snapshot());
    }

    method VisitTerms(ts: seq<Term>) returns (r: seq<Placed>)
      requires Linked() && Frames(starts) && index == start
      modifies this
      ensures Snapshot() == ScopeTerms(old(Snapshot()), start, ts) && r == PlaceTerms(ts, start, starts)
      decreases ts, 1
    {
      r := [];
      ghost var fr := Snapshot();
      ghost var q := fr;
      for i := 0 to |ts|
        invariant index == start + i && Snapshot() == q && TermsTo(fr, q, start, ts, i)
        invariant PlacedTo(r, ts, i, start, starts)
      {
        r, q := VisitNext(ts, i, r, fr, q);
      }
      VisitedAll(r, fr, q, ts, start, starts);
    }

    method VisitNext(ts: seq<Term>, i: nat, r: seq<Placed>, ghost fr: Frame, ghost q: Frame)
      returns (r': seq<Placed>, ghost q': Frame)
      requires Linked() && Frames(starts) && i < |ts| && index == start + i && Snapshot() == q
      requires TermsTo(fr, q, start, ts, i) && PlacedTo(r, ts, i, start, starts)
      modifies this
      ensures index == start + i + 1 && Snapshot() == q' && TermsTo(fr, q', start, ts, i + 1)
      ensures PlacedTo(r', ts, i + 1, start, starts)
      decreases ts, 0
    {
      TermsToNext(fr, q, start, index, ts, i);
      q' := ScopeTerm(q, start, index, ts[i]);
      var t := VisitTerm(ts[i]);
      PlacedNext(r, t, ts, i, start, starts);
      r' := r + [t];
      index := index + 1;
    }
  }

  lemma {:induction false} FrameIs(f: Term, at: nat, head: Frame, g: Frame)
    requires f.Fun? && head == ScopeRef(Frame([], []), at + 1, f.output) && g == ScopeTerms(head, at + 1, f.terms)
    ensures g == ScopeFun(f, at)
  {
  }

  lemma {:induction false} VisitedAll(r: seq<Placed>, fr: Frame, q: Frame, ts: seq<Term>, start: nat, starts: seq<nat>)
    requires Frames(starts) && TermsTo(fr, q, start, ts, |ts|) && PlacedTo(r, ts, |ts|, start, starts)
    ensures q == ScopeTerms(fr, start, ts) && r == PlaceTerms(ts, start, starts)
  {
    assert ts[..|ts|] == ts;
  }

  ghost predicate TermsTo(fr: Frame, q: Frame, start: nat, ts: seq<Term>, n: nat)
    requires n <= |ts|
  {
    q == ScopeTerms(fr, start, ts[..n])
  }

  lemma {:induction false} TermsToNext(fr: Frame, q: Frame, start: nat, at: nat, ts: seq<Term>, n: nat)
    requires n < |ts| && at == start + n && TermsTo(fr, q, start, ts, n)
    ensures TermsTo(fr, ScopeTerm(q, start, at, ts[n]), start, ts, n + 1)
  {
    assert ts[..n + 1] == ts[..n] + [ts[n]];
    TermsSnoc(fr, start, at, ts[..n], ts[n], ts[..n + 1]);
  }

  ghost predicate RefsTo(fr: Frame, q: Frame, start: nat, xs: seq<nat>, n: nat)
    requires n <= |xs|
  {
    q == ScopeRefs(fr, start, xs[..n])
  }

  lemma {:induction false} RefsToNext(fr: Frame, q: Frame, start: nat, xs: seq<nat>, n: nat)
    requires n < |xs| && RefsTo(fr, q, start, xs, n)
    ensures RefsTo(fr, ScopeRef(q, start, xs[n]), start, xs, n + 1)
  {
    assert xs[..n + 1] == xs[..n] + [xs[n]];
    RefsSnoc(fr, start, xs[..n], xs[n], xs[..n + 1]);
  }

  predicate PlacedTo(r: seq<Placed>, ts: seq<Term>, n: nat, start: nat, starts: seq<nat>)
    requires n <= |ts| && Frames(starts)
  {
    |r| == n && forall k :: 0 <= k < n ==> r[k] == PlaceTerm(ts[k], start + k, starts)
  }

  lemma {:induction false} PlacedNext(r: seq<Placed>, t: Placed, ts: seq<Term>, n: nat, start: nat, starts: seq<nat>)
    requires n < |ts| && Frames(starts) && PlacedTo(r, ts, n, start, starts) && t == PlaceTerm(ts[n], start + n, starts)
    ensures PlacedTo(r + [t], ts, n + 1, start, starts)
  {
  }

  method ScopeProgram(top: Term) returns (r: Placed)
    requires top.Fun?
    ensures r == PlaceTerm(top, 0, [0])
  {
    var root := new PassScope.Root();
    r := root.VisitFun(top);
  }
}
