/** The optimizer as a whole: its passes in the order they are run.

    Each pass relies on what earlier ones left behind.  The sweep needs effect
    flags no run contradicts, though the order pass has since overwritten the words
    they came from; merging needs order flags that survived the sweep.
 */
module Optimizer {
  import opened Ssa
  import opened SsaRelation
  import opened Purity
  import opened Yields
  import opened Claims
  import UsageSweep
  import LiveTerms
  import Simplified
  import MergedOnce
  import Inline
  import Cse

  // ------------------------------------------------------------ what is preserved

  /** Outcome p is what anyone can see of outcome o: the same events, and the same value up to closures. */
  ghost predicate Shows(o: Outcome, p: Outcome)
    requires o.Done?
  {
    p.Done? && p.hist == o.hist && Erase(p.value) == Erase(o.value)
  }

  ghost predicate Repeated(m: Machine, n: nat, t: Term, r: Term, h: History) {
    RunProgram(m, n, t, h).Done? ==> exists k: nat :: Shows(RunProgram(m, n, t, h), RunProgram(m, k, r, h))
  }

  /** Whatever the primitives compute, and however functions are claimed, every run of t that ends is matched by a
      run of r. */
  ghost predicate Preserved(t: Term, r: Term) {
    forall m: Machine, n: nat, h: History | m.check.NoCheck? :: Repeated(m, n, t, r, h)
  }

  /** The same, where claims are applications or are insisted to be plain. */
  ghost predicate Kept(t: Term, r: Term) {
    forall m: Machine, n: nat, h: History | m.check.NoCheck? && !m.claims.Exact? :: Repeated(m, n, t, r, h)
  }

  /** What that means for the runtime.  When t ends, r does the same as long as every function it claims is fit, and
      never anything else; and if the claims of t are plain, r ends too. */
  ghost predicate Faithful(m: Machine, n: nat, t: Term, r: Term, h: History) {
    var o := RunProgram(m, n, t, h);
    o.Done? ==>
      && (exists k: nat :: Shows(o, RunProgram(Loosely(m), k, r, h)))
      && (forall k: nat :: RunProgram(m, k, r, h).Done? ==> Shows(o, RunProgram(m, k, r, h)))
      && (RunProgram(Plainly(m), n, t, h).Done? ==> Repeated(m, n, t, r, h))
  }

  lemma {:induction false} PreservedKept(t: Term, r: Term)
    requires Preserved(t, r)
    ensures Kept(t, r)
  {
  }

  lemma {:induction false} KeptTrans(t: Term, u: Term, v: Term)
    requires Kept(t, u) && Kept(u, v)
    ensures Kept(t, v)
  {
    forall m: Machine, n: nat, h: History | m.check.NoCheck? && !m.claims.Exact? ensures Repeated(m, n, t, v, h) {
      assert Repeated(m, n, t, u, h);
      if RunProgram(m, n, t, h).Done? {
        var k: nat :| Shows(RunProgram(m, n, t, h), RunProgram(m, k, u, h));
        assert Repeated(m, k, u, v, h);
      }
    }
  }

  lemma {:induction false} LooseProgram(m: Machine, n: nat, t: Term, h: History)
    requires m.check.NoCheck? && RunProgram(m, n, t, h).Done?
    ensures RunProgram(Loosely(m), n, t, h) == RunProgram(m, n, t, h)
  {
    LooseClaim(m, n, VClo(t, [], []), VClo(t, [], []), h);
  }

  lemma {:induction false} ProgramMore(m: Machine, n: nat, d: nat, t: Term, h: History)
    requires m.check.NoCheck? && RunProgram(m, n, t, h).Done?
    ensures var o, p := RunProgram(m, n, t, h), RunProgram(m, n + d, t, h);
      p.Done? && p.hist == o.hist && p.value == o.value
  {
    ClaimMore(m, n, d, VClo(t, [], []), VClo(t, [], []), h);
  }

  /** The result with applications for claims does what the program did; with claims it does that or nothing. */
  lemma {:induction false} LooseRun(m: Machine, n: nat, t: Term, r: Term, h: History) returns (k: nat)
    requires m.check.NoCheck? && Kept(t, r) && RunProgram(m, n, t, h).Done?
    ensures Shows(RunProgram(m, n, t, h), RunProgram(Loosely(m), k, r, h))
    ensures forall j: nat :: RunProgram(m, j, r, h).Done? ==> Shows(RunProgram(m, n, t, h), RunProgram(m, j, r, h))
  {
    LooseProgram(m, n, t, h);
    assert Repeated(Loosely(m), n, t, r, h);
    k :| Shows(RunProgram(Loosely(m), n, t, h), RunProgram(Loosely(m), k, r, h));
    forall j: nat | RunProgram(m, j, r, h).Done? ensures Shows(RunProgram(m, n, t, h), RunProgram(m, j, r, h)) {
      LooseProgram(m, j, r, h);
      ProgramMore(Loosely(m), j, k, r, h);
      ProgramMore(Loosely(m), k, j, r, h);
    }
  }

  /** A run whose claims are plain is a run of the result. */
  lemma {:induction false} PlainRun(m: Machine, n: nat, t: Term, r: Term, h: History)
    requires m.check.NoCheck? && m.claims.Exact? && Kept(t, r) && r.Fun? && Inline.Plural(r)
    requires RunProgram(m, n, t, h).Done? && RunProgram(Plainly(m), n, t, h).Done?
    ensures Repeated(m, n, t, r, h)
  {
    var M, L := Plainly(m), Loosely(m);
    LooseProgram(m, n, t, h);
    LooseProgram(M, n, t, h);
    assert Loosely(M) == L && Repeated(M, n, t, r, h);
    var k: nat :| Shows(RunProgram(M, n, t, h), RunProgram(M, k, r, h));
    PluralMeets(r, [], []);
    assert From(ForMany, L) == M && To(ForMany, L) == m;
    ProgramAgrees(L, ForMany, k, r, h);
    assert Shows(RunProgram(m, n, t, h), RunProgram(m, k, r, h));
  }

  lemma {:induction false} KeptFaithful(m: Machine, n: nat, t: Term, r: Term, h: History)
    requires m.check.NoCheck? && m.claims.Exact? && Kept(t, r) && r.Fun? && Inline.Plural(r)
    ensures Faithful(m, n, t, r, h)
  {
    if RunProgram(m, n, t, h).Done? {
      var k := LooseRun(m, n, t, r, h);
      if RunProgram(Plainly(m), n, t, h).Done? { PlainRun(m, n, t, r, h); }
    }
  }

  /** A program whose text shows its claims to be plain keeps all its runs. */
  lemma {:induction false} PlainTextPreserved(t: Term, r: Term)
    requires Kept(t, r) && r.Fun? && Inline.Plural(r) && Whole(ForPlain, t)
    ensures Preserved(t, r)
  {
    forall m: Machine, n: nat, h: History | m.check.NoCheck? ensures Repeated(m, n, t, r, h) {
      if m.claims.Exact? && RunProgram(m, n, t, h).Done? {
        var L := Loosely(m);
        LooseProgram(m, n, t, h);
        assert From(ForPlain, L) == L && To(ForPlain, L) == Plainly(m);
        ProgramAgrees(L, ForPlain, n, t, h);
        PlainRun(m, n, t, r, h);
      }
    }
  }

  /** So does one whose result still claims only functions of one parameter. */
  lemma {:induction false} FitResultPreserved(t: Term, r: Term)
    requires Kept(t, r) && Whole(ForClaims, r)
    ensures Preserved(t, r)
  {
    forall m: Machine, n: nat, h: History | m.check.NoCheck? ensures Repeated(m, n, t, r, h) {
      if m.claims.Exact? && RunProgram(m, n, t, h).Done? {
        var L := Loosely(m);
        var k := LooseRun(m, n, t, r, h);
        assert From(ForClaims, L) == L && To(ForClaims, L) == m;
        ProgramAgrees(L, ForClaims, k, r, h);
        assert Shows(RunProgram(m, n, t, h), RunProgram(m, k, r, h));
      }
    }
  }

  lemma {:induction false} PreservedTrans(t: Term, u: Term, v: Term)
    requires Preserved(t, u) && Preserved(u, v)
    ensures Preserved(t, v)
  {
    forall m: Machine, n: nat, h: History | m.check.NoCheck? ensures Repeated(m, n, t, v, h) {
      assert Repeated(m, n, t, u, h);
      if RunProgram(m, n, t, h).Done? {
        var k: nat :| Shows(RunProgram(m, n, t, h), RunProgram(m, k, u, h));
        assert Repeated(m, k, u, v, h);
      }
    }
  }

  lemma {:induction false} SameShows(m: Machine, n: nat, t: Term, r: Term, h: History, o: Outcome, c: Machine, k: nat)
    requires m.check.NoCheck? && o == RunProgram(m, n, t, h) && o.Done?
    requires m == Free(c) && Same(c, o, RunProgram(m, k, r, h))
    ensures Repeated(m, n, t, r, h)
  {
    var p := RunProgram(m, k, r, h);
    RelatedErase(c, o.left, o.value, p.value);
    assert Shows(o, p);
  }

  lemma {:induction false} AlikePreserved(t: Term, r: Term)
    requires t.Fun? && Alike(t, r, Id)
    ensures Preserved(t, r)
  {
    forall m: Machine, n: nat, h: History | m.check.NoCheck? ensures Repeated(m, n, t, r, h) {
      if RunProgram(m, n, t, h).Done? {
        FunAlike(m, n, t, [], [], r, [], [], Id);
        var k := ProgramRelated(m, n, t, r, h);
        SameShows(m, n, t, r, h, RunProgram(m, n, t, h), m, k);
      }
    }
  }

  // --------------------------------------------------- parameters stay in front

  lemma {:induction false} AlikeFormed(t: Term, r: Term)
    requires Alike(t, r, Id) && Inline.Formed(t)
    ensures Inline.Formed(r)
    decreases t
  {
    if t.Fun? {
      AlikeArity(t.terms, r.terms, Id);
      forall i | 0 <= i < |t.terms| ensures Inline.Formed(r.terms[i]) { AlikeFormed(t.terms[i], r.terms[i]); }
    }
  }

  // ----------------------------------------- no destructure with one handler comes back

  lemma {:induction false} PluralMeets(t: Term, all: seq<Term>, ys: seq<Yield>)
    requires Inline.Plural(t)
    ensures Meets(ForMany, t, all, ys)
    decreases t, 1
  {
    if t.Fun? { PluralBodyMeets(t.terms, all + [t], ys + [FunYield(t, ys)]); }
  }

  lemma {:induction false} PluralBodyMeets(ts: seq<Term>, all: seq<Term>, ys: seq<Yield>)
    requires forall i :: 0 <= i < |ts| ==> Inline.Plural(ts[i])
    ensures BodyMeets(ForMany, ts, all, ys)
    decreases ts, 0
  {
    if ts != [] {
      var z := |ts| - 1;
      PluralBodyMeets(ts[..z], all, ys);
      PluralMeets(ts[z], all + ts[..z], BodyYields(ts[..z], ys));
    }
  }

  lemma {:induction false} AlikePlural(t: Term, r: Term)
    requires Alike(t, r, Id) && Inline.Plural(t)
    ensures Inline.Plural(r)
    decreases t
  {
    if t.Fun? {
      forall i | 0 <= i < |t.terms| ensures Inline.Plural(r.terms[i]) { AlikePlural(t.terms[i], r.terms[i]); }
    }
  }

  lemma {:induction false} SweepPlural(t: Term, map_: seq<int>, end: nat)
    requires Inline.Plural(t)
    ensures Inline.Plural(UsageSweep.SweepTerm(t, map_, end))
    decreases t, 1
  {
    if t.Fun? { SweepBodyPlural(t.terms, map_, end); }
  }

  lemma {:induction false} SweepBodyPlural(ts: seq<Term>, map_: seq<int>, end: nat)
    requires forall i :: 0 <= i < |ts| ==> Inline.Plural(ts[i])
    ensures forall t <- UsageSweep.SweepBody(ts, map_, end).terms :: Inline.Plural(t)
    decreases ts, 0
  {
    if ts != [] {
      var z := |ts| - 1;
      SweepBodyPlural(ts[..z], map_, end);
      var b := UsageSweep.SweepBody(ts[..z], map_, end);
      SweepPlural(ts[z], b.map_ + [b.end], b.end + 1);
    }
  }

  lemma {:induction false} RewritePlural(t: Term, map_: seq<int>, end: nat, table: map<Cse.Key, nat>, starts: seq<nat>)
    requires !t.Arg? && Inline.Plural(t)
    requires (starts == [] ==> t.Fun? && end == 0) && (starts != [] ==> Cse.Frames(starts))
    ensures Inline.Plural(Cse.Rewrite(t, map_, end, table, starts).term)
    decreases t, 1
  {
    if t.Fun? { RewriteBodyPlural(t.terms, map_ + [end], end + 1, table, starts + [end]); }
  }

  lemma {:induction false} RewriteBodyPlural(ts: seq<Term>, map_: seq<int>, end: nat, table: map<Cse.Key, nat>,
                                             starts: seq<nat>)
    requires Cse.Frames(starts) && forall i :: 0 <= i < |ts| ==> Inline.Plural(ts[i])
    ensures forall t <- Cse.CseBody(ts, map_, end, table, starts).terms :: Inline.Plural(t)
    decreases ts, 0
  {
    if ts != [] {
      var z := |ts| - 1;
      RewriteBodyPlural(ts[..z], map_, end, table, starts);
      var c := Cse.CseBody(ts[..z], map_, end, table, starts);
      if !ts[z].Arg? { RewritePlural(ts[z], c.map_, c.end, c.table, starts); }
    }
  }

  // ------------------------------------------------------------ flags and parameters

  lemma {:induction false} RemarkedSame(t: Term, r: Term)
    requires UsageSweep.Remarked(t, r)
    ensures Alike(t, r, Id) && SameWords(t, r) && forall pass :: SameFlags(pass, t, r)
    decreases t
  {
    if t.Fun? {
      forall i | 0 <= i < |t.terms|
        ensures Alike(t.terms[i], r.terms[i], Id) && SameWords(t.terms[i], r.terms[i])
        ensures forall pass :: SameFlags(pass, t.terms[i], r.terms[i])
      {
        RemarkedSame(t.terms[i], r.terms[i]);
      }
    }
  }

  lemma {:induction false} FormedLead(t: Term)
    requires Inline.Formed(t)
    ensures Cse.ArgsLead(t)
    decreases t
  {
    if t.Fun? {
      CountLeading(t.terms, Arity(t.terms));
      forall i | 0 <= i < |t.terms| ensures Cse.ArgsLead(t.terms[i]) { FormedLead(t.terms[i]); }
    }
  }

  /** An honestly flagged program has its parameters flagged. */
  lemma {:induction false} HonestFlagged(t: Term, w: Term, scope: seq<Mask>)
    requires Honest(EffectPass, t, w, scope) && Inline.Formed(t)
    ensures UsageSweep.ArgsFlagged(t)
    decreases t
  {
    if t.Fun? {
      var start := scope + [w.meta];
      forall i | 0 <= i < |t.terms| ensures UsageSweep.ArgsFlagged(t.terms[i]) {
        HonestAt(EffectPass, t.terms, w.terms, start, |t.terms|, i);
        HonestFlagged(t.terms[i], w.terms[i], Words(EffectPass, t.terms, w.terms, start, i));
      }
    }
  }

  lemma {:induction false} SweepFormed(f: Term, k: nat, map_: seq<int>, end: nat)
    requires f.Fun? && UsageSweep.ArgsFlagged(f) && UsageSweep.Reaches(f, k, map_) && Inline.Formed(f)
    ensures Inline.Formed(UsageSweep.SweepTerm(f, map_, end))
    decreases f, 1
  {
    UsageSweep.SweepKeepsArity(f, k, map_, end);
    SweepLeads(f.terms, map_, end, Arity(f.terms));
    assert f.terms == [] + f.terms + [];
    UsageSweep.BodyReady(f, k, map_, end, [], f.terms, [], UsageSweep.SweepBody([], map_, end));
    SweepBodyFormed(f.terms, map_, end);
  }

  lemma {:induction false} SweepLeads(ts: seq<Term>, map_: seq<int>, end: nat, a: nat)
    requires a <= |ts| && forall i :: 0 <= i < a ==> ts[i].Arg? && ts[i].flags.used
    requires forall i :: a <= i < |ts| ==> !ts[i].Arg?
    ensures var us := UsageSweep.SweepBody(ts, map_, end).terms; forall i :: a <= i < |us| ==> !us[i].Arg?
  {
    UsageSweep.SweepArgs(ts[..a], map_, end);
    UsageSweep.SweepHasNoArgs(ts, map_, end, a, |ts|);
    assert ts[..|ts|] == ts;
  }

  lemma {:induction false} SweepBodyFormed(ts: seq<Term>, map_: seq<int>, end: nat)
    requires UsageSweep.Ready(ts, map_, end) && forall i :: 0 <= i < |ts| ==> Inline.Formed(ts[i])
    ensures forall t <- UsageSweep.SweepBody(ts, map_, end).terms :: Inline.Formed(t)
    decreases ts, 0
  {
    if ts != [] {
      var z := |ts| - 1;
      SweepBodyFormed(ts[..z], map_, end);
      var b := UsageSweep.SweepBody(ts[..z], map_, end);
      if ts[z].flags.used && ts[z].Fun? { SweepFormed(ts[z], |b.map_|, b.map_ + [b.end], b.end + 1); }
    }
  }

  lemma {:induction false} RewriteFormed(t: Term, map_: seq<int>, end: nat, table: map<Cse.Key, nat>, starts: seq<nat>)
    requires !t.Arg? && Inline.Formed(t)
    requires (starts == [] ==> t.Fun? && end == 0) && (starts != [] ==> Cse.Frames(starts))
    ensures Inline.Formed(Cse.Rewrite(t, map_, end, table, starts).term)
    decreases t, 1
  {
    if t.Fun? {
      var a, inner := Arity(t.terms), starts + [end];
      FormedLead(t);
      CountLeading(t.terms, a);
      Cse.BodyLead(t.terms, a, map_ + [end], end + 1, table, inner);
      RewriteBodyFormed(t.terms, map_ + [end], end + 1, table, inner);
      UsageSweep.ArityIs(Cse.CseBody(t.terms, map_ + [end], end + 1, table, inner).terms, a);
    }
  }

  lemma {:induction false} RewriteBodyFormed(ts: seq<Term>, map_: seq<int>, end: nat, table: map<Cse.Key, nat>,
                                             starts: seq<nat>)
    requires Cse.Frames(starts) && forall i :: 0 <= i < |ts| ==> Inline.Formed(ts[i])
    ensures forall t <- Cse.CseBody(ts, map_, end, table, starts).terms :: Inline.Formed(t)
    decreases ts, 0
  {
    if ts != [] {
      var z := |ts| - 1;
      RewriteBodyFormed(ts[..z], map_, end, table, starts);
      var c := Cse.CseBody(ts[..z], map_, end, table, starts);
      if !ts[z].Arg? { RewriteFormed(ts[z], c.map_, c.end, c.table, starts); }
    }
  }

  // ------------------------------------------- flags stay honest through the sweep

  /** Where an index is kept, its word is no smaller than it was. */
  predicate WordsMapped(s: seq<Mask>, s': seq<Mask>, map_: seq<int>) {
    |map_| == |s| && forall i :: 0 <= i < |s| && map_[i] >= 0 ==> map_[i] < |s'| && MaskLe(s[i], s'[map_[i]])
  }

  lemma {:induction false} SweepReduxHonest(pass: Pass, t: Term, map_: seq<int>, s: seq<Mask>, s': seq<Mask>, t': Term)
    requires t.Redux? && t' == UsageSweep.SweepTerm(t, map_ + [|s'|], |s'| + 1)
    requires UsageSweep.TermReady(t, map_) && t.flags.used && Honest(pass, t, t, s) && WordsMapped(s, s', map_)
    ensures Honest(pass, t', t', s') && MaskLe(Word(pass, t, t, s), Word(pass, t', t', s'))
  {
    if InRange(t.args, |s|) {
      forall i | 0 <= i < |t.args| ensures t'.args[i] < |s'| && MaskLe(s[t.args[i]], s'[t'.args[i]]) {
        assert t.args[i] in UsageSweep.Uses(t, |map_|);
      }
      OpMaskMono(pass, t.op, PickMasks(s, t.args), PickMasks(s', t'.args));
    }
  }

  lemma {:induction false} SweepFunHonest(pass: Pass, f: Term, map_: seq<int>, s: seq<Mask>, s': seq<Mask>, f': Term)
    requires f.Fun? && f' == UsageSweep.SweepTerm(f, map_ + [|s'|], |s'| + 1)
    requires UsageSweep.ArgsFlagged(f) && UsageSweep.Reaches(f, |map_|, map_ + [|s'|])
    requires Honest(pass, f, f, s) && WordsMapped(s, s', map_)
    ensures Honest(pass, f', f', s') && Word(pass, f, f, s) == Word(pass, f', f', s')
    decreases f, 2
  {
    var inner, start, start', end := map_ + [|s'|], s + [f.meta], s' + [f.meta], |s'| + 1;
    assert f.terms == [] + f.terms + [];
    UsageSweep.BodyReady(f, |map_|, inner, end, [], f.terms, [], UsageSweep.SweepBody([], inner, end));
    SweepBodyHonest(pass, f.terms, inner, start, start');
    if f.output <= |map_| + |f.terms| { UsageSweep.OutputMapped(f, |map_|, inner, end); }
  }

  /** The words of a swept body, next to those of the body it came from. */
  predicate BodyHonest(pass: Pass, ts: seq<Term>, b: UsageSweep.Swept, s: seq<Mask>, s': seq<Mask>) {
    && HonestTo(pass, b.terms, b.terms, s', |b.terms|)
    && Followed(Words(pass, ts, ts, s, |ts|), Words(pass, b.terms, b.terms, s', |b.terms|), b.map_, |s|, |s'|)
    && CountArgs(b.terms) == CountArgs(ts)
  }

  predicate Followed(all: seq<Mask>, all': seq<Mask>, map_: seq<int>, from: nat, from': nat) {
    WordsMapped(all, all', map_) && (Clean(all, from) ==> Clean(all', from'))
  }

  lemma {:induction false} FollowedDrop(all: seq<Mask>, all': seq<Mask>, map_: seq<int>, from: nat, from': nat,
                                        x: Mask, u: seq<Mask>)
    requires Followed(all, all', map_, from, from') && from <= |all| && u == all + [x]
    ensures Followed(u, all', map_ + [-1], from, from')
  {
    CleanSnoc(all, x, from);
  }

  lemma {:induction false} FollowedKeep(all: seq<Mask>, all': seq<Mask>, map_: seq<int>, from: nat, from': nat,
                                        x: Mask, x': Mask, u: seq<Mask>, u': seq<Mask>)
    requires Followed(all, all', map_, from, from') && from <= |all| && from' <= |all'|
    requires u == all + [x] && u' == all' + [x'] && MaskLe(x, x')
    ensures Followed(u, u', map_ + [|all'|], from, from')
  {
    CleanSnoc(all, x, from);
    CleanSnoc(all', x', from');
  }

  lemma {:induction false} SweepBodyHonest(pass: Pass, ts: seq<Term>, map_: seq<int>, s: seq<Mask>, s': seq<Mask>)
    requires UsageSweep.Ready(ts, map_, |s'|) && HonestTo(pass, ts, ts, s, |ts|) && WordsMapped(s, s', map_)
    ensures BodyHonest(pass, ts, UsageSweep.SweepBody(ts, map_, |s'|), s, s')
    decreases ts, 1
  {
    if ts != [] {
      var z := |ts| - 1;
      var init, t := ts[..z], ts[z];
      WordsSnoc(pass, init, t, ts, s);
      SweepBodyHonest(pass, init, map_, s, s');
      var b := UsageSweep.SweepBody(init, map_, |s'|);
      SweepNextHonest(pass, ts, init, t, b, s, s', Words(pass, init, init, s, z));
    }
  }

  lemma {:induction false} WordsSnoc(pass: Pass, init: seq<Term>, t: Term, ts: seq<Term>, s: seq<Mask>)
    requires ts == init + [t]
    ensures var all := Words(pass, init, init, s, |init|);
      && Words(pass, ts, ts, s, |ts|) == all + [Word(pass, t, t, all)]
      && (HonestTo(pass, ts, ts, s, |ts|) <==> HonestTo(pass, init, init, s, |init|) && Honest(pass, t, t, all))
    ensures CountArgs(ts) == CountArgs(init) + if t.Arg? then 1 else 0
  {
    HonestPrefix(pass, ts, init, s, |init|);
    assert ts[..|init|] == init;
  }

  lemma {:induction false} SweepNextHonest(pass: Pass, ts: seq<Term>, init: seq<Term>, t: Term, b: UsageSweep.Swept,
                                           s: seq<Mask>, s': seq<Mask>, all: seq<Mask>)
    requires BodyHonest(pass, init, b, s, s') && b.end == |s'| + |b.terms|
    requires CountArgs(ts) == CountArgs(init) + if t.Arg? then 1 else 0
    requires all == Words(pass, init, init, s, |init|) && Words(pass, ts, ts, s, |ts|) == all + [Word(pass, t, t, all)]
    requires UsageSweep.TermReady(t, b.map_) && Honest(pass, t, t, all)
    ensures t.flags.used ==>
      var t' := UsageSweep.SweepTerm(t, b.map_ + [b.end], b.end + 1);
      BodyHonest(pass, ts, UsageSweep.Swept(b.terms + [t'], b.map_ + [b.end], b.end + 1), s, s')
    ensures !t.flags.used ==> BodyHonest(pass, ts, UsageSweep.Swept(b.terms, b.map_ + [-1], b.end), s, s')
    decreases t, 4
  {
    var all', x := Words(pass, b.terms, b.terms, s', |b.terms|), Word(pass, t, t, all);
    if t.flags.used {
      var t' := UsageSweep.SweepTerm(t, b.map_ + [b.end], b.end + 1);
      SweepTermHonest(pass, t, b.map_, all, all', t');
      KeptHonest(pass, b, t', s', all, all', |s|, x, all + [x]);
    } else {
      FollowedDrop(all, all', b.map_, |s|, |s'|, x, all + [x]);
    }
  }

  lemma {:induction false} KeptHonest(pass: Pass, b: UsageSweep.Swept, t': Term, s': seq<Mask>,
                                      all: seq<Mask>, all': seq<Mask>, from: nat, x: Mask, u: seq<Mask>)
    requires HonestTo(pass, b.terms, b.terms, s', |b.terms|) && all' == Words(pass, b.terms, b.terms, s', |b.terms|)
    requires Followed(all, all', b.map_, from, |s'|) && from <= |all| && u == all + [x] && b.end == |all'|
    requires Honest(pass, t', t', all') && MaskLe(x, Word(pass, t', t', all'))
    ensures var terms := b.terms + [t'];
      && HonestTo(pass, terms, terms, s', |terms|)
      && Followed(u, Words(pass, terms, terms, s', |terms|), b.map_ + [b.end], from, |s'|)
      && CountArgs(terms) == CountArgs(b.terms) + if t'.Arg? then 1 else 0
  {
    var x' := Word(pass, t', t', all');
    WordsSnoc(pass, b.terms, t', b.terms + [t'], s');
    FollowedKeep(all, all', b.map_, from, |s'|, x, x', u, all' + [x']);
  }

  lemma {:induction false} SweepTermHonest(pass: Pass, t: Term, map_: seq<int>, s: seq<Mask>, s': seq<Mask>, t': Term)
    requires t' == UsageSweep.SweepTerm(t, map_ + [|s'|], |s'| + 1)
    requires UsageSweep.TermReady(t, map_) && t.flags.used && Honest(pass, t, t, s) && WordsMapped(s, s', map_)
    ensures Honest(pass, t', t', s') && MaskLe(Word(pass, t, t, s), Word(pass, t', t', s'))
    decreases t, 3
  {
    match t
    case Arg(_) =>
    case Lit(_, _) =>
    case Redux(_, _, _) => SweepReduxHonest(pass, t, map_, s, s', t');
    case Fun(_, _, _, _) => SweepFunHonest(pass, t, map_, s, s', t');
  }

  // ------------------------------------------------------------------- the rounds

  /** What usage and sweep leave behind, flags honest for both passes on the way in. */
  lemma {:induction false} Pruned(t: Term, w: Term)
    requires t.Fun? && Inline.Formed(t) && Honest(EffectPass, t, w, []) && Honest(OrderPass, t, t, [])
    ensures var r := UsageSweep.Sweep(UsageSweep.Usage(t));
      Preserved(t, r) && Inline.Formed(r) && Honest(OrderPass, r, r, [])
  {
    var u := UsageSweep.Usage(t);
    var r := UsageSweep.Sweep(u);
    HonestFlagged(t, w, []);
    UsageSweep.UsageCloses(t);
    UsageSweep.UsageRemarked(t);
    RemarkedSame(t, u);
    SameWordsSelf(w);
    HonestSame(EffectPass, t, u, w, w, []);
    HonestSame(OrderPass, t, u, t, u, []);
    AlikeFormed(t, u);
    HonestFlagged(u, w, []);
    AlikePreserved(t, u);
    SweptPreserved(t, u, w, r);
    PreservedTrans(t, u, r);
    SweepFormed(u, 0, [0], 1);
    var none: seq<int> := [];
    assert none + [0] == [0];
    SweepFunHonest(OrderPass, u, [], [], [], r);
  }

  lemma {:induction false} SweptPreserved(t: Term, u: Term, w: Term, r: Term)
    requires t.Fun? && u == UsageSweep.Usage(t) && r == UsageSweep.Sweep(u)
    requires UsageSweep.ArgsFlagged(t) && Honest(EffectPass, u, w, [])
    ensures Preserved(u, r)
  {
    forall m: Machine, n: nat, h: History | m.check.NoCheck? ensures Repeated(m, n, u, r, h) {
      if RunProgram(m, n, u, h).Done? {
        var c := m.(check := CheckEffect);
        ProgramSound(EffectPass, c, n, u, w, h);
        var k := UsageSweep.UsageSweepPreserves(c, n, t, h);
        SameShows(m, n, u, r, h, RunProgram(m, n, u, h), c, k);
      }
    }
  }

  lemma {:induction false} MergedPreserved(t: Term)
    requires t.Fun? && Inline.Formed(t) && Honest(OrderPass, t, t, [])
    ensures Preserved(t, Cse.CsePass(t)) && Inline.Formed(Cse.CsePass(t))
  {
    var r := Cse.CsePass(t);
    FormedLead(t);
    RewriteFormed(t, [], 0, map[], []);
    forall m: Machine, n: nat, h: History | m.check.NoCheck? ensures Repeated(m, n, t, r, h) {
      if RunProgram(m, n, t, h).Done? {
        var c := m.(check := CheckOrder);
        ProgramSound(OrderPass, c, n, t, t, h);
        var k := Cse.CsePreserves(c, n, t, h);
        SameShows(m, n, t, r, h, RunProgram(m, n, t, h), c, k);
      }
    }
  }

  lemma {:induction false} InlinedPreserved(p: Inline.Policy, budget: nat, t: Term)
    requires t.Fun? && Inline.Formed(t)
    ensures var r := Inline.InlinePass(p, budget, t);
      && Kept(t, r) && r.Fun? && Inline.Formed(r) && Inline.Plural(r)
      && (Whole(ForPlain, t) || Whole(ForClaims, r) ==> Preserved(t, r))
  {
    var r := Inline.InlinePass(p, budget, t);
    Inline.InlineFormed(p, budget, t);
    forall m: Machine, n: nat, h: History | m.check.NoCheck? && !m.claims.Exact? ensures Repeated(m, n, t, r, h) {
      if RunProgram(m, n, t, h).Done? {
        var k := Inline.InlinePreserves(p, budget, m, n, t, h);
        SameShows(m, n, t, r, h, RunProgram(m, n, t, h), m, k);
      }
    }
    if Whole(ForPlain, t) { PlainTextPreserved(t, r); }
    if Whole(ForClaims, r) { FitResultPreserved(t, r); }
  }

  /** r is t with the flags of one pass: the same code, and as few flags as its words bear out. */
  ghost predicate Purified(pass: Pass, t: Term, r: Term) {
    Alike(t, r, Id) && Settled(pass, r, []) && Greatest(pass, t, r) && OthersKept(pass, t, r)
  }

  /** Both purity passes, usage and sweep. */
  ghost predicate PrunedTo(t: Term, r: Term) {
    exists effects: Term, orders: Term ::
      && Purified(EffectPass, t, effects) && Purified(OrderPass, effects, orders) && orders.Fun?
      && r == UsageSweep.Sweep(UsageSweep.Usage(orders))
  }

  /** Purity for effects, purity for order, usage, sweep. */
  method Prune(t: Term) returns (r: Term)
    requires t.Fun? && Inline.Formed(t)
    ensures PrunedTo(t, r) && LiveTerms.AllLive(r)
    ensures r.Fun? && Inline.Formed(r) && Preserved(t, r) && Honest(OrderPass, r, r, [])
    ensures Inline.Plural(t) ==> Inline.Plural(r)
  {
    var effects := PassPurity(EffectPass, t);
    var orders := PassPurity(OrderPass, effects);
    AlikePreserved(t, effects);
    AlikeFormed(t, effects);
    AlikePreserved(effects, orders);
    AlikeFormed(effects, orders);
    PreservedTrans(t, effects, orders);
    SettledHonest(EffectPass, effects, []);
    SettledHonest(OrderPass, orders, []);
    SameWordsSelf(effects);
    HonestSame(EffectPass, effects, orders, effects, effects, []);
    r := UsageSweep.PassUsage(orders);
    r := UsageSweep.PassSweep(r);
    Pruned(orders, effects);
    LiveTerms.NothingDead(orders);
    PreservedTrans(t, orders, r);
    assert Purified(EffectPass, t, effects) && Purified(OrderPass, effects, orders);
    if Inline.Plural(t) {
      AlikePlural(t, effects);
      AlikePlural(effects, orders);
      PrunedPlural(orders);
    }
  }

  lemma {:induction false} PrunedPlural(t: Term)
    requires t.Fun? && Inline.Plural(t)
    ensures Inline.Plural(UsageSweep.Sweep(UsageSweep.Usage(t)))
  {
    UsageSweep.UsageRemarked(t);
    RemarkedSame(t, UsageSweep.Usage(t));
    AlikePlural(t, UsageSweep.Usage(t));
    SweepPlural(UsageSweep.Usage(t), [0], 1);
  }

  method InlineCalls(p: Inline.Policy, budget: nat, t: Term) returns (r: Term)
    requires t.Fun? && Inline.Formed(t)
    ensures r == Inline.InlinePass(p, budget, t) && Simplified.Simple(r, [])
    ensures r.Fun? && Inline.Formed(r) && Inline.Plural(r) && Kept(t, r)
  {
    Simplified.ResultSimple(p, budget, t);
    r := Inline.PassInline(p, budget, t);
    InlinedPreserved(p, budget, t);
  }

  method Merge(t: Term) returns (r: Term)
    requires t.Fun? && Inline.Formed(t) && Honest(OrderPass, t, t, [])
    ensures r.Fun? && Inline.Formed(r) && Preserved(t, r) && (Inline.Plural(t) ==> Inline.Plural(r))
    ensures r == Cse.CsePass(t) && (MergedOnce.Sorted(t, [], 0, map[], [], {}, {}) ==> MergedOnce.Once(r, 0, [], {}))
  {
    if MergedOnce.Sorted(t, [], 0, map[], [], {}, {}) { MergedOnce.NothingTwice(t); }
    r := Cse.RunCse(t);
    MergedPreserved(t);
    if Inline.Plural(t) { RewritePlural(t, [], 0, map[], []); }
  }

  method CountUses(t: Term) returns (r: Term)
    requires t.Fun? && Inline.Formed(t)
    ensures r == UsageSweep.Usage(t)
    ensures r.Fun? && Inline.Formed(r) && Preserved(t, r)
  {
    r := UsageSweep.PassUsage(t);
    UsageSweep.UsageRemarked(t);
    RemarkedSame(t, r);
    AlikePreserved(t, r);
    AlikeFormed(t, r);
  }

  const FIRST_THRESHOLD: nat := 20
  const SECOND_THRESHOLD: nat := 50

  /** Inlined to a, pruned to b, merged to r: nothing is left to see through, then nothing dead, then nothing twice. */
  ghost predicate ReducedTo(p: Inline.Policy, budget: nat, t: Term, a: Term, b: Term, r: Term) {
    && t.Fun? && a == Inline.InlinePass(p, budget, t) && PrunedTo(a, b) && b.Fun? && r == Cse.CsePass(b)
    && Simplified.Simple(a, []) && LiveTerms.AllLive(b)
    && (MergedOnce.Sorted(b, [], 0, map[], [], {}, {}) ==> MergedOnce.Once(r, 0, [], {}))
  }

  /** Inlining, pruning and merging under one threshold. */
  method Reduce(p: Inline.Policy, budget: nat, t: Term) returns (r: Term, ghost a: Term, ghost b: Term)
    requires t.Fun? && Inline.Formed(t)
    ensures r.Fun? && Inline.Formed(r) && Inline.Plural(r) && Kept(t, r) && ReducedTo(p, budget, t, a, b, r)
  {
    var inlined := InlineCalls(p, budget, t);
    var pruned := Prune(inlined);
    KeptTrans(t, inlined, pruned);
    r := Merge(pruned);
    KeptTrans(t, pruned, r);
    a, b := inlined, pruned;
  }

  /** The programs on the way. */
  datatype Via = Via(pruned: Term, inlined1: Term, pruned1: Term, merged1: Term, counted: Term, inlined2: Term,
                     pruned2: Term)

  /** From top to r: pruned, reduced, counted, and reduced again. */
  ghost predicate Stages(policy: nat -> Inline.Policy, budget: nat, top: Term, via: Via, r: Term) {
    && PrunedTo(top, via.pruned)
    && ReducedTo(policy(FIRST_THRESHOLD), budget, via.pruned, via.inlined1, via.pruned1, via.merged1)
    && via.merged1.Fun? && via.counted == UsageSweep.Usage(via.merged1)
    && ReducedTo(policy(SECOND_THRESHOLD), budget, via.counted, via.inlined2, via.pruned2, r)
  }

  /** The passes, one after the other. */
  method RunPasses(policy: nat -> Inline.Policy, budget: nat, top: Term) returns (r: Term, ghost via: Via)
    requires top.Fun? && Inline.Formed(top)
    ensures r.Fun? && Inline.Formed(r) && Inline.Plural(r) && Kept(top, r) && Stages(policy, budget, top, via, r)
  {
    var t0 := Prune(top);
    var t3, t1, t2 := Reduce(policy(FIRST_THRESHOLD), budget, t0);
    PreservedKept(top, t0);
    KeptTrans(top, t0, t3);
    var t4 := CountUses(t3);
    PreservedKept(t3, t4);
    KeptTrans(top, t3, t4);
    ghost var t5, t6;
    r, t5, t6 := Reduce(policy(SECOND_THRESHOLD), budget, t4);
    KeptTrans(top, t4, r);
    via := Via(t0, t1, t2, t3, t4, t5, t6);
  }

  /** What the runtime makes of it. */
  ghost predicate Guaranteed(t: Term, r: Term) {
    && (forall m: Machine, n: nat, h: History | m.check.NoCheck? && m.claims.Exact? :: Faithful(m, n, t, r, h))
    && (Whole(ForPlain, t) || Whole(ForClaims, r) ==> Preserved(t, r))
  }

  lemma {:induction false} KeptGuarantees(t: Term, r: Term)
    requires Kept(t, r) && r.Fun? && Inline.Plural(r)
    ensures Guaranteed(t, r)
  {
    forall m: Machine, n: nat, h: History | m.check.NoCheck? && m.claims.Exact? ensures Faithful(m, n, t, r, h) {
      KeptFaithful(m, n, t, r, h);
    }
    if Whole(ForPlain, t) { PlainTextPreserved(t, r); }
    if Whole(ForClaims, r) { FitResultPreserved(t, r); }
  }

  /** Term::optimize.  `policy` says what is inlined under a size threshold.  For any primitives, when a run of the
      program ends, the optimized program with applications for claims does the same: the same events in the same order,
      and the same value.  On the runtime it does that or gets stuck at a claim, and it does that if the claims of the
      program are plain.  It never gets stuck if the text of the program shows its claims to be plain, or that of the
      result that it claims functions of one parameter only. */
  method Optimize(policy: nat -> Inline.Policy, budget: nat, top: Term) returns (r: Term)
    requires top.Fun? && Inline.Formed(top)
    ensures r.Fun? && Inline.Formed(r) && Inline.Plural(r) && Kept(top, r) && Guaranteed(top, r)
    ensures exists via :: Stages(policy, budget, top, via, r)
  {
    ghost var via;
    r, via := RunPasses(policy, budget, top);
    KeptGuarantees(top, r);
  }
}
