/** Common sub-expression elimination merges all it can: what is left of a program has no term twice in one scope. */
module MergedOnce {
  import opened Sequences
  import opened Ssa
  import opened SsaRelation
  import opened Cse

  // ------------------------------------------------------------ the same code, the same key

  lemma {:induction false} RefFolds(starts: seq<nat>, starts': seq<nat>, d: nat, k: nat, j: nat, x: nat, y: nat)
    requires Aligned(starts, starts', d, k, j) && Fold(j, k)(x) == y
    ensures HashArg(starts, x) == HashArg(starts', y)
  {
    var r, r' := HashArg(starts, x), HashArg(starts', y);
    if x < j {
      assert r.depth < d && r'.depth < d;
    } else {
      assert starts[d] == k;
      assert r.depth >= d && r'.depth >= d;
    }
  }

  lemma {:induction false} ArgsFold(starts: seq<nat>, starts': seq<nat>, d: nat, k: nat, j: nat, xs: seq<nat>,
                                    ys: seq<nat>)
    requires Aligned(starts, starts', d, k, j) && |xs| == |ys|
    requires forall i :: 0 <= i < |xs| ==> ys[i] == Fold(j, k)(xs[i])
    ensures HashArgs(starts, xs) == HashArgs(starts', ys)
  {
    forall i | 0 <= i < |xs| ensures HashArg(starts, xs[i]) == HashArg(starts', ys[i]) {
      RefFolds(starts, starts', d, k, j, xs[i], ys[i]);
    }
  }

  /** Two terms that are the same code up to where they sit have the same key: the converse of AlikeFromKeys. */
  lemma {:induction false} KeysFromAlike(t: Term, t': Term, at: nat, at': nat, starts: seq<nat>, starts': seq<nat>,
                                         d: nat, k: nat, j: nat)
    requires !t.Arg? && !t'.Arg? && Aligned(starts, starts', d, k, j) && k <= at && at - k == at' - j
    requires Alike(t, t', Fold(j, k))
    ensures KeyTerm(t, at, starts) == KeyTerm(t', at', starts')
    decreases t, 1
  {
    match t
    case Lit(_, _) =>
    case Redux(_, _, args) =>
      ArgsFold(starts, starts', d, k, j, args, t'.args);
    case Fun(_, _, terms, output) =>
      var inner, inner' := starts + [at], starts' + [at'];
      RefFolds(inner, inner', d, k, j, output, t'.output);
      BodyKeysFromAlike(terms, t'.terms, at + 1, at' + 1, inner, inner', d, k, j);
  }

  lemma {:induction false} BodyKeysFromAlike(ts: seq<Term>, ts': seq<Term>, at: nat, at': nat, starts: seq<nat>,
                                             starts': seq<nat>, d: nat, k: nat, j: nat)
    requires Aligned(starts, starts', d, k, j) && k <= at && at - k == at' - j && |ts| == |ts'|
    requires forall i :: 0 <= i < |ts| ==> Alike(ts[i], ts'[i], Fold(j, k))
    ensures BodyKeys(ts, at, starts) == BodyKeys(ts', at', starts') && CountArgs(ts) == CountArgs(ts')
    decreases ts, 0
  {
    if ts != [] {
      var z := |ts| - 1;
      BodyKeysFromAlike(ts[..z], ts'[..z], at, at', starts, starts', d, k, j);
      if !ts[z].Arg? { KeysFromAlike(ts[z], ts'[z], at + z, at' + z, starts, starts', d, k, j); }
    }
  }

  /** An operation repeated in one frame has the key it had the first time. */
  lemma {:induction false} RepeatedKey(t: Term, t': Term, at: nat, at': nat, starts: seq<nat>)
    requires Frames(starts) && t.Redux? && t'.Redux? && t.op == t'.op && t.args == t'.args
    ensures KeyTerm(t, at, starts) == KeyTerm(t', at', starts)
  {
  }

  // ------------------------------------------------------------------------ nothing twice

  /** The keys of the first n terms of a body that are ordered, or that are not. */
  function Keys(ts: seq<Term>, n: nat, k: nat, starts: seq<nat>, ordered: bool): set<Key>
    requires Frames(starts) && n <= |ts|
  {
    if n == 0 then {} else
    var before := Keys(ts, n - 1, k, starts, ordered);
    if ts[n - 1].Arg? || ts[n - 1].flags.ordered != ordered then before
    else before + {KeyTerm(ts[n - 1], k + n - 1, starts)}
  }

  /** No term that is not ordered has the key of a term before it, in its own body or an enclosing one; `seen` are
      the keys in sight. */
  predicate Once(t: Term, k: nat, starts: seq<nat>, seen: set<Key>)
    requires !t.Arg? && (starts == [] ==> t.Fun? && k == 0) && (starts != [] ==> Frames(starts))
    decreases t, 1
  {
    t.Fun? ==> OnceTo(t.terms, |t.terms|, k + 1, starts + [k], seen)
  }

  predicate OnceTo(ts: seq<Term>, n: nat, k: nat, starts: seq<nat>, seen: set<Key>)
    requires Frames(starts) && n <= |ts|
    decreases ts, 0, n
  {
    n == 0 ||
    (&& OnceTo(ts, n - 1, k, starts, seen)
     && (ts[n - 1].Arg? ||
          var before := seen + Keys(ts, n - 1, k, starts, true) + Keys(ts, n - 1, k, starts, false);
          && (ts[n - 1].flags.ordered || KeyTerm(ts[n - 1], k + n - 1, starts) !in before)
          && Once(ts[n - 1], k + n - 1, starts, before)))
  }

  /** Where the pass meets a term, kept or not, no term in sight has its key and is ordered where it is not, or the
      other way round; o and f are the keys in sight of ordered and other terms. */
  predicate Sorted(t: Term, map_: seq<int>, end: nat, table: map<Key, nat>, starts: seq<nat>, o: set<Key>, f: set<Key>)
    requires !t.Arg? && (starts == [] ==> t.Fun? && end == 0) && (starts != [] ==> Frames(starts))
    decreases t, 1
  {
    && Rewrite(t, map_, end, table, starts).key !in (if t.flags.ordered then f else o)
    && (t.Fun? ==> BodySorted(t.terms, map_ + [end], end + 1, table, starts + [end], o, f))
  }

  predicate BodySorted(ts: seq<Term>, map_: seq<int>, end: nat, table: map<Key, nat>, starts: seq<nat>, o: set<Key>,
                       f: set<Key>)
    requires Frames(starts)
    decreases ts, 0
  {
    ts == [] ||
    (var z := |ts| - 1;
     var c := CseBody(ts[..z], map_, end, table, starts);
     && BodySorted(ts[..z], map_, end, table, starts, o, f)
     && (ts[z].Arg? ||
          Sorted(ts[z], c.map_, c.end, c.table, starts, o + Keys(c.terms, |c.terms|, end, starts, true),
                 f + Keys(c.terms, |c.terms|, end, starts, false))))
  }

  lemma {:induction false} KeysPrefix(ts: seq<Term>, ts': seq<Term>, n: nat, k: nat, starts: seq<nat>, ordered: bool)
    requires Frames(starts) && n <= |ts| && n <= |ts'| && forall i :: 0 <= i < n ==> ts[i] == ts'[i]
    ensures Keys(ts, n, k, starts, ordered) == Keys(ts', n, k, starts, ordered)
    decreases n
  {
    if n > 0 { KeysPrefix(ts, ts', n - 1, k, starts, ordered); }
  }

  lemma {:induction false} OncePrefix(ts: seq<Term>, ts': seq<Term>, n: nat, k: nat, starts: seq<nat>, seen: set<Key>)
    requires Frames(starts) && n <= |ts| && n <= |ts'| && forall i :: 0 <= i < n ==> ts[i] == ts'[i]
    requires OnceTo(ts, n, k, starts, seen)
    ensures OnceTo(ts', n, k, starts, seen)
    decreases n
  {
    if n > 0 {
      OncePrefix(ts, ts', n - 1, k, starts, seen);
      KeysPrefix(ts, ts', n - 1, k, starts, true);
      KeysPrefix(ts, ts', n - 1, k, starts, false);
    }
  }

  /** What a body keeps has no term twice; the table has the keys that are not ordered, and none that the body would
      take out of it again is one seen before. */
  ghost predicate BodyOnce(c: Cse, end: nat, starts: seq<nat>, o: set<Key>, f: set<Key>)
    requires Frames(starts)
  {
    var n := |c.terms|;
    && OnceTo(c.terms, n, end, starts, o + f) && f + Keys(c.terms, n, end, starts, false) <= c.table.Keys
    && forall x :: x in c.undo ==> x !in f
  }

  lemma {:induction false} RewriteOnce(t: Term, map_: seq<int>, end: nat, table: map<Key, nat>, starts: seq<nat>,
                                       o: set<Key>, f: set<Key>)
    requires !t.Arg? && (starts == [] ==> t.Fun? && end == 0) && (starts != [] ==> Frames(starts))
    requires Sorted(t, map_, end, table, starts, o, f) && f <= table.Keys
    ensures var r := Rewrite(t, map_, end, table, starts);
      !r.term.Arg? && (starts == [] ==> r.term.Fun?) && Once(r.term, end, starts, o + f) && f <= r.table.Keys
    decreases t, 1
  {
    if t.Fun? { BodyIsOnce(t.terms, map_ + [end], end + 1, table, starts + [end], o, f); }
  }

  lemma {:induction false} BodyIsOnce(ts: seq<Term>, map_: seq<int>, end: nat, table: map<Key, nat>, starts: seq<nat>,
                                      o: set<Key>, f: set<Key>)
    requires Frames(starts) && BodySorted(ts, map_, end, table, starts, o, f) && f <= table.Keys
    ensures BodyOnce(CseBody(ts, map_, end, table, starts), end, starts, o, f)
    decreases ts, 0
  {
    if ts != [] {
      var z := |ts| - 1;
      BodyIsOnce(ts[..z], map_, end, table, starts, o, f);
      var c := CseBody(ts[..z], map_, end, table, starts);
      if !ts[z].Arg? {
        var n := |c.terms|;
        RewriteOnce(ts[z], c.map_, c.end, c.table, starts, o + Keys(c.terms, n, end, starts, true),
                    f + Keys(c.terms, n, end, starts, false));
        RewriteKey(ts[z], c.map_, c.end, c.table, starts);
      }
      StepOnce(c, ts[z], end, starts, o, f);
    }
  }

  lemma {:induction false} KeysSnoc(ts: seq<Term>, x: Term, ts': seq<Term>, k: nat, starts: seq<nat>, ordered: bool)
    requires Frames(starts) && ts' == ts + [x]
    ensures Keys(ts', |ts'|, k, starts, ordered) == Keys(ts, |ts|, k, starts, ordered) +
      if x.Arg? || x.flags.ordered != ordered then {} else {KeyTerm(x, k + |ts|, starts)}
  {
    KeysPrefix(ts, ts', |ts|, k, starts, ordered);
  }

  lemma {:induction false} OnceSnoc(ts: seq<Term>, x: Term, ts': seq<Term>, k: nat, starts: seq<nat>, seen: set<Key>,
                                    before: set<Key>)
    requires Frames(starts) && ts' == ts + [x] && OnceTo(ts, |ts|, k, starts, seen)
    requires before == seen + Keys(ts, |ts|, k, starts, true) + Keys(ts, |ts|, k, starts, false)
    requires x.Arg? ||
      ((x.flags.ordered || KeyTerm(x, k + |ts|, starts) !in before) && Once(x, k + |ts|, starts, before))
    ensures OnceTo(ts', |ts'|, k, starts, seen)
  {
    OncePrefix(ts, ts', |ts|, k, starts, seen);
    KeysPrefix(ts, ts', |ts|, k, starts, true);
    KeysPrefix(ts, ts', |ts|, k, starts, false);
  }

  lemma {:induction false} StepOnce(c: Cse, t: Term, end: nat, starts: seq<nat>, o: set<Key>, f: set<Key>)
    requires Frames(starts) && c.end == end + |c.terms| && BodyOnce(c, end, starts, o, f)
    requires !t.Arg? ==>
      var n, r := |c.terms|, Rewrite(t, c.map_, c.end, c.table, starts);
      var o', f' := o + Keys(c.terms, n, end, starts, true), f + Keys(c.terms, n, end, starts, false);
      && !r.term.Arg? && r.key == KeyTerm(r.term, c.end, starts) && r.term.flags.ordered == t.flags.ordered
      && r.key !in (if t.flags.ordered then f' else o') && Once(r.term, c.end, starts, o' + f') && f' <= r.table.Keys
    ensures BodyOnce(CseStep(c, t, starts), end, starts, o, f)
  {
    var x := if t.Arg? then t else Rewrite(t, c.map_, c.end, c.table, starts).term;
    if t.Arg? {
      KeysSnoc(c.terms, x, c.terms + [x], end, starts, false);
      OnceSnoc(c.terms, x, c.terms + [x], end, starts, o + f,
               o + f + Keys(c.terms, |c.terms|, end, starts, true) + Keys(c.terms, |c.terms|, end, starts, false));
    } else {
      KeptOnce(c, Rewrite(t, c.map_, c.end, c.table, starts), t.flags.ordered, end, starts, o, f);
    }
  }

  lemma {:induction false} KeptOnce(c: Cse, r: Rewritten, ordered: bool, end: nat, starts: seq<nat>, o: set<Key>,
                                    f: set<Key>)
    requires Frames(starts) && c.end == end + |c.terms| && BodyOnce(c, end, starts, o, f)
    requires var n := |c.terms|;
      var o', f' := o + Keys(c.terms, n, end, starts, true), f + Keys(c.terms, n, end, starts, false);
      && !r.term.Arg? && r.key == KeyTerm(r.term, c.end, starts) && r.term.flags.ordered == ordered
      && r.key !in (if ordered then f' else o') && Once(r.term, c.end, starts, o' + f') && f' <= r.table.Keys
    ensures BodyOnce(Reduced(c, r, ordered), end, starts, o, f)
  {
    if ordered || r.key !in r.table {
      var n, ts := |c.terms|, c.terms + [r.term];
      var o', f' := o + Keys(c.terms, n, end, starts, true), f + Keys(c.terms, n, end, starts, false);
      var before := o + f + Keys(c.terms, n, end, starts, true) + Keys(c.terms, n, end, starts, false);
      assert o' + f' == before;
      OnceSnoc(c.terms, r.term, ts, end, starts, o + f, before);
      KeysSnoc(c.terms, r.term, ts, end, starts, false);
    }
  }

  /** Nothing is left to merge: in the result no term that is not ordered has the key of an earlier one in its scope. */
  lemma {:induction false} NothingTwice(top: Term)
    requires top.Fun? && Sorted(top, [], 0, map[], [], {}, {})
    ensures var r := CsePass(top); r.Fun? && Once(r, 0, [], {})
  {
    RewriteOnce(top, [], 0, map[], [], {}, {});
    var none: set<Key> := {};
    assert none + none == none;
  }

  // ---------------------------------------------------------------- without ordered terms

  /** No term but parameters is ordered. */
  predicate Free(t: Term)
    decreases t
  {
    t.Arg? || (!t.flags.ordered && (t.Fun? ==> forall i :: 0 <= i < |t.terms| ==> Free(t.terms[i])))
  }

  lemma {:induction false} FreeSorted(t: Term, map_: seq<int>, end: nat, table: map<Key, nat>, starts: seq<nat>,
                                      f: set<Key>)
    requires !t.Arg? && (starts == [] ==> t.Fun? && end == 0) && (starts != [] ==> Frames(starts)) && Free(t)
    ensures Sorted(t, map_, end, table, starts, {}, f) && !Rewrite(t, map_, end, table, starts).term.flags.ordered
    decreases t, 1
  {
    if t.Fun? { BodyFreeSorted(t.terms, map_ + [end], end + 1, table, starts + [end], f); }
  }

  lemma {:induction false} BodyFreeSorted(ts: seq<Term>, map_: seq<int>, end: nat, table: map<Key, nat>,
                                          starts: seq<nat>, f: set<Key>)
    requires Frames(starts) && forall i :: 0 <= i < |ts| ==> Free(ts[i])
    ensures BodySorted(ts, map_, end, table, starts, {}, f)
    ensures var c := CseBody(ts, map_, end, table, starts); Keys(c.terms, |c.terms|, end, starts, true) == {}
    decreases ts, 0
  {
    if ts != [] {
      var z := |ts| - 1;
      BodyFreeSorted(ts[..z], map_, end, table, starts, f);
      var c := CseBody(ts[..z], map_, end, table, starts);
      var n := |c.terms|;
      if !ts[z].Arg? {
        FreeSorted(ts[z], c.map_, c.end, c.table, starts, f + Keys(c.terms, n, end, starts, false));
        var none: set<Key> := {};
        assert none + none == none;
        var x := Rewrite(ts[z], c.map_, c.end, c.table, starts).term;
        KeysSnoc(c.terms, x, c.terms + [x], end, starts, true);
      } else {
        KeysSnoc(c.terms, ts[z], c.terms + [ts[z]], end, starts, true);
      }
    }
  }

  /** A program of pure computation has no term twice in a scope when the pass is through with it. */
  lemma {:induction false} PureNothingTwice(top: Term)
    requires top.Fun? && Free(top)
    ensures var r := CsePass(top); r.Fun? && Once(r, 0, [], {})
  {
    FreeSorted(top, [], 0, map[], [], {});
    NothingTwice(top);
  }
}
