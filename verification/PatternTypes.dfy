/** Well-typed patterns over inhabited types: what the compiler reports, and what it does not,
    is then exactly right.
 */
module PatternTypes {
  import opened Sequences
  import opened Patterns
  import opened PatternExpand

  /** Types are numbered; some are sum types, with a type for each field of each constructor.
      `some` is a value of each. */
  datatype Types = Types(sums: map<nat, Sum>, field: (nat, nat, nat) -> nat, some: nat -> Value)

  predicate HasType(ty: Types, v: Value, t: nat)
    decreases v
  {
    if t in ty.sums then
      && v.Data? && v.sum == ty.sums[t] && v.cons < |v.sum.arities| && |v.fields| == v.sum.arities[v.cons]
      && forall i :: 0 <= i < |v.fields| ==> HasType(ty, v.fields[i], ty.field(t, v.cons, i))
    else v.Atom?
  }

  ghost predicate Inhabited(ty: Types) {
    forall t: nat :: HasType(ty, ty.some(t), t)
  }

  predicate Typed(ty: Types, p: Pat, t: nat)
    decreases p
  {
    p.Con? ==>
      && t in ty.sums && p.sum == ty.sums[t] && p.cons < |p.sum.arities| && |p.children| == p.sum.arities[p.cons]
      && forall i :: 0 <= i < |p.children| ==> Typed(ty, p.children[i], ty.field(t, p.cons, i))
  }

  predicate AllTyped(ty: Types, ps: seq<Ref>, t: nat) {
    forall i :: 0 <= i < |ps| ==> Typed(ty, ps[i].tree, t)
  }

  lemma {:induction false} TypedFits(ty: Types, v: Value, p: Pat, t: nat)
    requires HasType(ty, v, t) && Typed(ty, p, t)
    ensures Fits(v, p)
    decreases p
  {
    if p.Con? && v.cons == p.cons {
      forall i | 0 <= i < |p.children| ensures Fits(v.fields[i], p.children[i]) {
        TypedFits(ty, v.fields[i], p.children[i], ty.field(t, p.cons, i));
      }
    }
  }

  lemma {:induction false} AllTypedFit(ty: Types, v: Value, ps: seq<Ref>, t: nat)
    requires HasType(ty, v, t) && AllTyped(ty, ps, t)
    ensures AllFit(v, ps)
  {
    forall i | 0 <= i < |ps| ensures Fits(v, ps[i].tree) { TypedFits(ty, v, ps[i].tree, t); }
  }

  /** A value of the pattern's shape. */
  function Realize(ty: Types, a: Pat, t: nat): Value
    decreases a
  {
    match a
    case Any(_) => ty.some(t)
    case Con(_, sum, cons, children) =>
      Data(sum, cons,
           seq(|children|, i requires 0 <= i < |children| => Realize(ty, children[i], ty.field(t, cons, i))))
  }

  lemma {:induction false} RealizeIs(ty: Types, a: Pat, t: nat)
    requires Inhabited(ty) && Typed(ty, a, t)
    ensures HasType(ty, Realize(ty, a, t), t) && Matches(Realize(ty, a, t), a)
    decreases a
  {
    if a.Con? {
      forall i | 0 <= i < |a.children|
        ensures var v := Realize(ty, a.children[i], ty.field(t, a.cons, i));
          HasType(ty, v, ty.field(t, a.cons, i)) && Matches(v, a.children[i])
      {
        RealizeIs(ty, a.children[i], ty.field(t, a.cons, i));
      }
    }
  }

  // ---------------------------------------------------------------- types and positions

  /** The type of the position. */
  function TypeAt(ty: Types, p: Pat, steps: Steps, t: nat): nat
    requires Leads(p, steps)
    decreases steps
  {
    if steps.Here? then t else TypeAt(ty, p.children[steps.head], steps.tail, ty.field(t, p.cons, steps.head))
  }

  lemma {:induction false} TypedAt(ty: Types, p: Pat, steps: Steps, t: nat)
    requires Typed(ty, p, t) && Leads(p, steps)
    ensures Typed(ty, At(p, steps), TypeAt(ty, p, steps, t))
    decreases steps
  {
    if steps.Down? { TypedAt(ty, p.children[steps.head], steps.tail, ty.field(t, p.cons, steps.head)); }
  }

  lemma {:induction false} TypeAtSame(ty: Types, a: Pat, b: Pat, steps: Steps, t: nat)
    requires Refines(a, b) && Leads(a, steps) && Leads(b, steps)
    ensures TypeAt(ty, a, steps, t) == TypeAt(ty, b, steps, t)
    decreases steps
  {
    if steps.Down? {
      TypeAtSame(ty, a.children[steps.head], b.children[steps.head], steps.tail, ty.field(t, a.cons, steps.head));
    }
  }

  lemma {:induction false} TypedPut(ty: Types, p: Pat, steps: Steps, q: Pat, t: nat)
    requires Typed(ty, p, t) && Leads(p, steps) && Typed(ty, q, TypeAt(ty, p, steps, t))
    ensures Typed(ty, Put(p, steps, q), t)
    decreases steps
  {
    if steps.Down? {
      var i, r := steps.head, Put(p, steps, q);
      TypedPut(ty, p.children[i], steps.tail, q, ty.field(t, p.cons, i));
      assert forall j :: 0 <= j < |p.children| && j != i ==> r.children[j] == p.children[j];
    }
  }

  /** At the mismatch, every pattern expects the type the position has. */
  lemma {:induction false} TypedSplits(ty: Types, a: Pat, ps: seq<Ref>, steps: Steps, sum: Sum, t: nat)
    requires Ready(a, ps) && ps != [] && FindMismatch(a, ps[0].tree) == Path(steps) && AllTyped(ty, ps, t)
    requires Leads(ps[0].tree, steps) && At(ps[0].tree, steps).Con? && sum == At(ps[0].tree, steps).sum
    ensures Splits(a, ps, steps, sum)
    ensures var u := TypeAt(ty, a, steps, t); u in ty.sums && ty.sums[u] == sum
  {
    MismatchSplits(a, ps);
    var u := TypeAt(ty, a, steps, t);
    forall i | 0 <= i < |ps|
      ensures At(ps[i].tree, steps).Con? ==> u in ty.sums && At(ps[i].tree, steps).sum == ty.sums[u]
    {
      TypeAtSame(ty, a, ps[i].tree, steps, t);
      TypedAt(ty, ps[i].tree, steps, t);
    }
    assert At(ps[0].tree, steps).Con?;
  }

  lemma {:induction false} RefinedTyped(ty: Types, a: Pat, steps: Steps, sum: Sum, c: nat, first: nat, t: nat)
    requires Typed(ty, a, t) && Leads(a, steps) && c < |sum.arities|
    requires var u := TypeAt(ty, a, steps, t); u in ty.sums && ty.sums[u] == sum
    ensures Typed(ty, Refined(a, steps, sum, c, first), t)
  {
    TypedPut(ty, a, steps, Con(At(a, steps).name, sum, c, Names(first, sum.arities[c])), t);
  }

  lemma {:induction false} ChosenTyped(ty: Types, a: Pat, p: Ref, steps: Steps, sum: Sum, c: nat, t: nat)
    requires Typed(ty, p.tree, t) && Refines(a, p.tree) && Leads(a, steps) && Leads(p.tree, steps) && c < |sum.arities|
    requires var u := TypeAt(ty, a, steps, t); u in ty.sums && ty.sums[u] == sum
    ensures AllTyped(ty, Chosen(p, steps, sum, c), t)
  {
    TypeAtSame(ty, a, p.tree, steps, t);
    var s := At(p.tree, steps);
    if s.Any? { TypedPut(ty, p.tree, steps, Con(s.name, sum, c, Wild(sum.arities[c])), t); }
  }

  lemma {:induction false} BucketTyped(ty: Types, a: Pat, ps: seq<Ref>, steps: Steps, sum: Sum, c: nat, t: nat)
    requires Ready(a, ps) && Splits(a, ps, steps, sum) && AllTyped(ty, ps, t) && c < |sum.arities|
    requires var u := TypeAt(ty, a, steps, t); u in ty.sums && ty.sums[u] == sum
    ensures AllTyped(ty, Bucket(ps, steps, sum, c), t)
    decreases |ps|
  {
    if ps != [] {
      BucketTyped(ty, a, Tail(ps), steps, sum, c, t);
      ChosenTyped(ty, a, ps[0], steps, sum, c, t);
      BothTyped(ty, Chosen(ps[0], steps, sum, c), Bucket(Tail(ps), steps, sum, c), Bucket(ps, steps, sum, c), t);
    }
  }

  lemma {:induction false} BothTyped(ty: Types, q: seq<Ref>, b: seq<Ref>, all: seq<Ref>, t: nat)
    requires AllTyped(ty, q, t) && AllTyped(ty, b, t) && all == q + b
    ensures AllTyped(ty, all, t)
  {
  }

  /** Into the case of a constructor: everything stays typed. */
  lemma {:induction false} CaseTyped(ty: Types, a: Pat, ps: seq<Ref>, steps: Steps, sum: Sum, c: nat, first: nat,
                                     t: nat)
    requires Ready(a, ps) && Splits(a, ps, steps, sum) && Typed(ty, a, t) && AllTyped(ty, ps, t) && c < |sum.arities|
    requires var u := TypeAt(ty, a, steps, t); u in ty.sums && ty.sums[u] == sum
    ensures Typed(ty, Refined(a, steps, sum, c, first), t) && AllTyped(ty, Bucket(ps, steps, sum, c), t)
  {
    RefinedTyped(ty, a, steps, sum, c, first, t);
    BucketTyped(ty, a, ps, steps, sum, c, t);
  }

  // ------------------------------------------------------------------ missing patterns

  /** Well-typed patterns never clash, and a shape reported missing is a shape of the type. */
  lemma {:induction false} MissingTyped(ty: Types, a: Pat, next: nat, ps: seq<Ref>, mode: Mode, t: nat)
    requires Ready(a, ps) && Typed(ty, a, t) && AllTyped(ty, ps, t)
    ensures var r := Compile(a, next, ps, mode); !r.Clash? && (r.Missing? ==> Typed(ty, r.shape, t))
    decreases Weight(a, ps), 1, 0
  {
    if ps != [] {
      match FindMismatch(a, ps[0].tree) {
        case NoPath => if ps[0].guard { MissingTyped(ty, a, next, Tail(ps), mode, t); }
        case Path(steps) =>
          MismatchSplits(a, ps);
          var sum := At(ps[0].tree, steps).sum;
          TypedSplits(ty, a, ps, steps, sum, t);
          CasesTyped(ty, a, next, ps, mode, steps, sum, |sum.arities|, t);
      }
    }
  }

  lemma {:induction false} CasesTyped(ty: Types, a: Pat, next: nat, ps: seq<Ref>, mode: Mode, steps: Steps, sum: Sum,
                                      n: nat, t: nat)
    requires Ready(a, ps) && Splits(a, ps, steps, sum) && ps != [] && At(ps[0].tree, steps).Con? && n <= |sum.arities|
    requires Typed(ty, a, t) && AllTyped(ty, ps, t)
    requires var u := TypeAt(ty, a, steps, t); u in ty.sums && ty.sums[u] == sum
    ensures var r := Cases(a, next, ps, mode, steps, sum, n); !r.Clash? && (r.Missing? ==> Typed(ty, r.shape, t))
    decreases Weight(a, ps), 0, n
  {
    if n > 0 {
      var c := n - 1;
      CasesTyped(ty, a, next, ps, mode, steps, sum, c, t);
      var r := Cases(a, next, ps, mode, steps, sum, c);
      if r.Built? {
        var a', b, next' := Refined(a, steps, sum, c, r.next), Bucket(ps, steps, sum, c), r.next + sum.arities[c];
        CasesNext(a, next, ps, mode, steps, sum, n, c, r, a', next', b);
        CaseTyped(ty, a, ps, steps, sum, c, r.next, t);
        MissingTyped(ty, a', next', b, mode, t);
      }
    }
  }

  /** What is reported missing is really missing: some value of the type has the shape, and no pattern without a
      guard matches it. */
  lemma {:induction false} MissingHasValue(ty: Types, a: Pat, next: nat, ps: seq<Ref>, mode: Mode, t: nat)
    returns (v: Value)
    requires Ready(a, ps) && Typed(ty, a, t) && AllTyped(ty, ps, t) && Inhabited(ty)
    requires Compile(a, next, ps, mode).Missing?
    ensures HasType(ty, v, t) && Matches(v, Compile(a, next, ps, mode).shape) && Missed(v, ps)
  {
    MissingTyped(ty, a, next, ps, mode, t);
    var shape := Compile(a, next, ps, mode).shape;
    v := Realize(ty, shape, t);
    RealizeIs(ty, shape, t);
    AllTypedFit(ty, v, ps, t);
    MissingIsMissed(a, next, ps, mode, v);
  }

  // --------------------------------------------------------------------- used patterns

  /** Only the guards of one pattern hold. */
  function Only(index: int): Guards {
    (j, _) => j == index
  }

  lemma {:induction false} DetailMatches(a: Pat, b: Pat, v: Value)
    requires Matches(v, a) && Refines(a, b) && FindMismatch(a, b).NoPath?
    ensures Matches(v, b)
    decreases a
  {
    if a.Con? {
      forall i | 0 <= i < |a.children| ensures Matches(v.fields[i], b.children[i]) {
        NoMismatchAt(a.children, b.children, 0, i);
        DetailMatches(a.children[i], b.children[i], v.fields[i]);
      }
    }
  }

  lemma {:induction false} CaseUsesSome(cases: seq<Case>, index: int) returns (c: nat)
    requires CaseUses(cases, index) > 0
    ensures c < |cases| && Uses(cases[c].body, index) > 0
    decreases |cases|
  {
    var z := |cases| - 1;
    if Uses(cases[z].body, index) > 0 { c := z; } else { c := CaseUsesSome(cases[..z], index); }
  }

  /** A pattern with a use is selected for some value of the type, a prototype with one is fallen through to. */
  lemma {:induction false} UsedIsSelected(ty: Types, a: Pat, next: nat, ps: seq<Ref>, mode: Mode, t: nat, index: int)
    returns (v: Value)
    requires Ready(a, ps) && Typed(ty, a, t) && AllTyped(ty, ps, t) && Inhabited(ty)
    requires Compile(a, next, ps, mode).Built? && Uses(Compile(a, next, ps, mode).tree, index) > 0
    ensures HasType(ty, v, t) && Matches(v, a) && UsedBy(Select(v, Only(index), ps, mode)) == index
    decreases Weight(a, ps), 1, 0
  {
    if ps == [] {
      v := Realize(ty, a, t);
      RealizeIs(ty, a, t);
    } else {
      match FindMismatch(a, ps[0].tree) {
        case NoPath =>
          if ps[0].index == index {
            v := Realize(ty, a, t);
            RealizeIs(ty, a, t);
            DetailMatches(a, ps[0].tree, v);
          } else {
            v := UsedIsSelected(ty, a, next, Tail(ps), mode, t, index);
          }
        case Path(steps) =>
          MismatchSplits(a, ps);
          v := CaseIsSelected(ty, a, next, ps, mode, t, index, steps, At(ps[0].tree, steps).sum);
      }
    }
  }

  lemma {:induction false} CaseIsSelected(ty: Types, a: Pat, next: nat, ps: seq<Ref>, mode: Mode, t: nat, index: int,
                                          steps: Steps, sum: Sum) returns (v: Value)
    requires Ready(a, ps) && Typed(ty, a, t) && AllTyped(ty, ps, t) && Inhabited(ty)
    requires ps != [] && FindMismatch(a, ps[0].tree) == Path(steps) && Splits(a, ps, steps, sum)
    requires At(ps[0].tree, steps).Con? && sum == At(ps[0].tree, steps).sum
    requires var r := Cases(a, next, ps, mode, steps, sum, |sum.arities|); r.Built? && Uses(r.tree, index) > 0
    ensures HasType(ty, v, t) && Matches(v, a) && UsedBy(Select(v, Only(index), ps, mode)) == index
    decreases Weight(a, ps), 0, 0
  {
    TypedSplits(ty, a, ps, steps, sum, t);
    var c, first := UsedCase(a, next, ps, mode, steps, sum, index);
    var a', b := Refined(a, steps, sum, c, first), Bucket(ps, steps, sum, c);
    BucketStep(a, ps, steps, sum, c, first, a', b);
    CaseTyped(ty, a, ps, steps, sum, c, first, t);
    v := UsedIsSelected(ty, a', first + sum.arities[c], b, mode, t, index);
    CaseSelected(ty, a, ps, mode, t, index, steps, sum, c, first, v);
  }

  /** A used index is used in a case. */
  lemma {:induction false} UsedCase(a: Pat, next: nat, ps: seq<Ref>, mode: Mode, steps: Steps, sum: Sum, index: int)
    returns (c: nat, first: nat)
    requires Ready(a, ps) && Splits(a, ps, steps, sum) && ps != [] && At(ps[0].tree, steps).Con?
    requires var r := Cases(a, next, ps, mode, steps, sum, |sum.arities|); r.Built? && Uses(r.tree, index) > 0
    ensures c < |sum.arities| && Ready(Refined(a, steps, sum, c, first), Bucket(ps, steps, sum, c))
    ensures var x := Compile(Refined(a, steps, sum, c, first), first + sum.arities[c], Bucket(ps, steps, sum, c), mode);
      x.Built? && Uses(x.tree, index) > 0
  {
    var tree := Cases(a, next, ps, mode, steps, sum, |sum.arities|).tree;
    CasesLength(a, next, ps, mode, steps, sum, |sum.arities|);
    c := CaseUsesSome(tree.cases, index);
    first := CaseIs(a, next, ps, mode, steps, sum, |sum.arities|, c, tree);
  }

  lemma {:induction false} CaseSelected(ty: Types, a: Pat, ps: seq<Ref>, mode: Mode, t: nat, index: int, steps: Steps,
                                        sum: Sum, c: nat, first: nat, v: Value)
    requires Ready(a, ps) && Splits(a, ps, steps, sum) && AllTyped(ty, ps, t) && c < |sum.arities|
    requires HasType(ty, v, t) && Matches(v, Refined(a, steps, sum, c, first))
    ensures Matches(v, a)
    ensures Select(v, Only(index), Bucket(ps, steps, sum, c), mode) == Select(v, Only(index), ps, mode)
  {
    var a' := Refined(a, steps, sum, c, first);
    RefinesRefined(a, steps, sum, c, first);
    RefinesMatches(a, a', v);
    RefinedAt(a, steps, sum, c, first);
    MatchesAt(v, a', steps);
    AllTypedFit(ty, v, ps, t);
    BucketSelects(v, Only(index), a, ps, mode, steps, sum, c);
  }

  // -------------------------------------------------------------------- a whole match

  /** Arguments of a match, their tuple of type t if there are several. */
  ghost predicate ArgsOf(ty: Types, vs: seq<Value>, n: nat, t: nat) {
    |vs| == n && HasType(ty, Scrutinee(vs), t)
  }

  lemma {:induction false} ScrutineeOf(v: Value, n: nat) returns (vs: seq<Value>)
    requires n > 0 && Matches(v, Prototype(n))
    ensures |vs| == n && Scrutinee(vs) == v
  {
    vs := if n == 1 then [v] else v.fields;
  }

  /** A pattern is reported impossible exactly if no arguments of the right types, with whatever guards, get to it;
      and an otherwise arm or a required pattern's failure, exactly if nothing falls through. */
  lemma {:induction false} ReachedIff(ty: Types, n: nat, ps: seq<Ref>, mode: Mode, t: nat, index: int)
    requires n > 0 && Ready(Prototype(n), ps) && Typed(ty, Prototype(n), t) && AllTyped(ty, ps, t) && Inhabited(ty)
    requires Compile(Prototype(n), n, ps, mode).Built?
    ensures Uses(Compile(Prototype(n), n, ps, mode).tree, index) > 0 <==>
      exists vs, g: Guards :: ArgsOf(ty, vs, n, t) && UsedBy(Select(Scrutinee(vs), g, ps, mode)) == index
  {
    if Uses(Compile(Prototype(n), n, ps, mode).tree, index) > 0 {
      var v := UsedIsSelected(ty, Prototype(n), n, ps, mode, t, index);
      var vs := ScrutineeOf(v, n);
      assert ArgsOf(ty, vs, n, t) && UsedBy(Select(Scrutinee(vs), Only(index), ps, mode)) == index;
    }
    forall vs, g: Guards | ArgsOf(ty, vs, n, t) && UsedBy(Select(Scrutinee(vs), g, ps, mode)) == index
      ensures Uses(Compile(Prototype(n), n, ps, mode).tree, index) > 0
    {
      AllTypedFit(ty, Scrutinee(vs), ps, t);
      UnusedIsDead(ps, mode, vs, g);
    }
  }

  /** No guard holds. */
  function Never(): Guards {
    (_, _) => false
  }

  lemma {:induction false} SelectedUnguarded(v: Value, ps: seq<Ref>, mode: Mode)
    requires Select(v, Never(), ps, mode).Selected?
    ensures !Missed(v, ps)
    decreases |ps|
  {
    if Picks(v, Never(), ps[0]) {
      assert Matches(v, ps[0].tree) && !ps[0].guard;
    } else {
      SelectedUnguarded(v, Tail(ps), mode);
      var i :| 0 <= i < |Tail(ps)| && Matches(v, Tail(ps)[i].tree) && !Tail(ps)[i].guard;
      assert ps[i + 1] == Tail(ps)[i];
    }
  }

  /** A match is reported incomplete exactly if some arguments of the right types match no pattern without a guard. */
  lemma {:induction false} IncompleteIff(ty: Types, n: nat, ps: seq<Ref>, t: nat)
    requires n > 0 && Ready(Prototype(n), ps) && Typed(ty, Prototype(n), t) && AllTyped(ty, ps, t) && Inhabited(ty)
    ensures Compile(Prototype(n), n, ps, Total).Missing? <==> exists vs ::
      ArgsOf(ty, vs, n, t) && Missed(Scrutinee(vs), ps)
  {
    var r := Compile(Prototype(n), n, ps, Total);
    MissingTyped(ty, Prototype(n), n, ps, Total, t);
    if r.Missing? {
      var v := MissingHasValue(ty, Prototype(n), n, ps, Total, t);
      MissingRefines(Prototype(n), n, ps, Total);
      RefinesMatches(Prototype(n), r.shape, v);
      var vs := ScrutineeOf(v, n);
      assert ArgsOf(ty, vs, n, t) && Missed(Scrutinee(vs), ps);
    } else {
      forall vs | ArgsOf(ty, vs, n, t) ensures !Missed(Scrutinee(vs), ps) {
        AllTypedFit(ty, Scrutinee(vs), ps, t);
        MatchSelects(ps, Total, vs, Never());
        SelectedUnguarded(Scrutinee(vs), ps, Total);
      }
    }
  }
}
