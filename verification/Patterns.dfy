/** The pattern-match compiler: a list of patterns becomes a decision tree.

    The prototype is what is known of the scrutinee on the current branch.  Every pattern
    still in play has at least its detail.
 */
module Patterns {
  import opened Sequences

  /** A sum type: the number of fields of each of its constructors. */
  datatype Sum = Sum(id: nat, arities: seq<nat>)

  datatype Value = Atom(id: int) | Data(sum: Sum, cons: nat, fields: seq<Value>)

  /** A pattern.  name is -1 where nothing is bound; in a prototype it names the value there. */
  datatype Pat = Any(name: int) | Con(name: int, sum: Sum, cons: nat, children: seq<Pat>)

  /** What happens when no pattern matches. */
  datatype Mode = Total | IdentityMode | OtherwiseMode

  datatype Ref = Ref(tree: Pat, index: int, guard: bool)

  datatype Tree =
    | Switch(name: int, sum: Sum, cases: seq<Case>)
    | Leaf(index: int, args: seq<int>)
    | Guarded(index: int, args: seq<int>, otherwise: Tree)
    | Identity(shape: Pat)
    | Else

  /** One arm of a switch: the fields are named first, first + 1, and so on. */
  datatype Case = Case(first: nat, body: Tree)

  datatype Outcome = Selected(index: int, args: seq<Value>) | Rebuilt(value: Value) | Otherwise | Unmatched

  type Guards = (int, seq<Value>) -> bool

  // ------------------------------------------------------------- what matching means

  predicate Matches(v: Value, p: Pat)
    decreases p
  {
    p.Con? ==>
      && v.Data? && v.sum == p.sum && v.cons == p.cons && |v.fields| == |p.children|
      && forall i :: 0 <= i < |p.children| ==> Matches(v.fields[i], p.children[i])
  }

  /** The values at the variables of a pattern, left to right. */
  function Bound(v: Value, p: Pat): seq<Value>
    decreases p, 0
  {
    if p.name >= 0 then [v]
    else if p.Con? && v.Data? && |v.fields| == |p.children| then BoundAll(v.fields, p.children)
    else []
  }

  function BoundAll(vs: seq<Value>, ps: seq<Pat>): seq<Value>
    requires |vs| == |ps|
    decreases ps, 1
  {
    if ps == [] then [] else BoundAll(vs[..|ps| - 1], ps[..|ps| - 1]) + Bound(vs[|ps| - 1], ps[|ps| - 1])
  }

  predicate Picks(v: Value, g: Guards, p: Ref) {
    Matches(v, p.tree) && (p.guard ==> g(p.index, Bound(v, p.tree)))
  }

  /** The first pattern, in source order, that matches with a true guard. */
  function Select(v: Value, g: Guards, ps: seq<Ref>, mode: Mode): Outcome
    decreases |ps|
  {
    if ps ==
      [] then (match mode case Total => Unmatched case IdentityMode => Rebuilt(v) case OtherwiseMode => Otherwise)
    else if Picks(v, g, ps[0]) then Selected(ps[0].index, Bound(v, ps[0].tree))
    else Select(v, g, Tail(ps), mode)
  }

  /** The value has, wherever the pattern looks, the type the pattern expects. */
  predicate Fits(v: Value, p: Pat)
    decreases p
  {
    p.Con? ==>
      && v.Data? && v.sum == p.sum && v.cons < |v.sum.arities| && |v.fields| == v.sum.arities[v.cons]
      && (v.cons == p.cons && |v.fields| == |p.children| ==> forall i :: 0 <= i < |p.children| ==> Fits(v.fields[i],
                                                                                                        p.children[i]))
  }

  /** Constructors exist and have all their fields. */
  predicate Proper(p: Pat)
    decreases p
  {
    p.Con? ==>
      && p.cons < |p.sum.arities| && |p.children| == p.sum.arities[p.cons]
      && forall i :: 0 <= i < |p.children| ==> Proper(p.children[i])
  }

  // -------------------------------------------------------------- what a tree does

  function Named(env: map<int, Value>, first: nat, fields: seq<Value>): map<int, Value> {
    if fields == [] then env else
    Named(env, first, fields[..|fields| - 1])[first + |fields| - 1 := fields[|fields| - 1]]
  }

  function Values(env: map<int, Value>, args: seq<int>): seq<Value> {
    if args == [] then [] else
    Values(env, args[..|args| - 1]) + (var x := args[|args| - 1]; if x in env then [env[x]] else [])
  }

  /** build_identity, evaluated. */
  function Rebuild(env: map<int, Value>, shape: Pat): Value
    decreases shape
  {
    match shape
    case Any(x) => if x in env then env[x] else Atom(0)
    case Con(_, sum, cons, children) =>
      Data(sum, cons, seq(|children|, i requires 0 <= i < |children| => Rebuild(env, children[i])))
  }

  function Run(t: Tree, env: map<int, Value>, g: Guards): Outcome
    decreases t
  {
    match t
    case Switch(x, sum, cases) =>
      if x in env && env[x].Data? && env[x].sum == sum && env[x].cons < |cases| then
        var c := cases[env[x].cons];
        Run(c.body, Named(env, c.first, env[x].fields), g)
      else Unmatched
    case Leaf(index, args) => Selected(index, Values(env, args))
    case Guarded(index, args, otherwise) =>
      var vs := Values(env, args);
      if g(index, vs) then Selected(index, vs) else Run(otherwise, env, g)
    case Identity(shape) => Rebuilt(Rebuild(env, shape))
    case Else => Otherwise
  }

  // ----------------------------------------------------------------- the compiler

  /** The way down from a node, child by child. */
  datatype Steps = Here | Down(head: nat, tail: Steps)

  datatype Path = NoPath | Path(steps: Steps)

  /** Where the second pattern first has more detail than the prototype. */
  function FindMismatch(a: Pat, b: Pat): Path
    decreases a, 0
  {
    if a.Any? then (if b.Con? then Path(Here) else NoPath)
    else if b.Con? && |b.children| == |a.children| then MismatchFrom(a.children, b.children, 0)
    else NoPath
  }

  function MismatchFrom(a: seq<Pat>, b: seq<Pat>, i: nat): Path
    requires |a| == |b| && i <= |a|
    decreases a, 1, |a| - i
  {
    if i == |a| then NoPath else
    match FindMismatch(a[i], b[i])
    case Path(steps) => Path(Down(i, steps))
    case NoPath => MismatchFrom(a, b, i + 1)
  }

  /** fill_pattern: the prototype's names at the pattern's variables. */
  function Fill(a: Pat, b: Pat): seq<int>
    decreases a, 0
  {
    if b.name >= 0 then [a.name]
    else if a.Con? && b.Con? && |a.children| == |b.children| then FillAll(a.children, b.children)
    else []
  }

  function FillAll(a: seq<Pat>, b: seq<Pat>): seq<int>
    requires |a| == |b|
    decreases a, 1
  {
    if a == [] then [] else FillAll(a[..|a| - 1], b[..|a| - 1]) + Fill(a[|a| - 1], b[|a| - 1])
  }

  predicate Leads(p: Pat, steps: Steps)
    decreases steps
  {
    steps.Here? || (p.Con? && steps.head < |p.children| && Leads(p.children[steps.head], steps.tail))
  }

  function At(p: Pat, steps: Steps): Pat
    requires Leads(p, steps)
    decreases steps
  {
    if steps.Here? then p else At(p.children[steps.head], steps.tail)
  }

  function Put(p: Pat, steps: Steps, q: Pat): (r: Pat)
    requires Leads(p, steps)
    decreases steps
  {
    if steps.Here? then q else
    p.(children := p.children[steps.head := Put(p.children[steps.head], steps.tail, q)])
  }

  function Wild(n: nat): (r: seq<Pat>)
    ensures |r| == n && forall i :: 0 <= i < n ==> r[i] == Any(-1)
  {
    seq(n, _ => Any(-1))
  }

  function Names(first: nat, n: nat): (r: seq<Pat>)
    ensures |r| == n && forall i :: 0 <= i < n ==> r[i] == Any(first + i)
  {
    seq(n, i => Any(first + i))
  }

  /** A pattern in the bucket of constructor c; one that is not is dropped. */
  function Chosen(p: Ref, steps: Steps, sum: Sum, c: nat): seq<Ref>
    requires Leads(p.tree, steps) && c < |sum.arities|
  {
    var t := At(p.tree, steps);
    if t.Any? then [p.(tree := Put(p.tree, steps, Con(t.name, sum, c, Wild(sum.arities[c]))))]
    else if t.cons == c then [p]
    else []
  }

  function Bucket(ps: seq<Ref>, steps: Steps, sum: Sum, c: nat): seq<Ref>
    requires c < |sum.arities| && forall i :: 0 <= i < |ps| ==> Leads(ps[i].tree, steps)
    decreases |ps|
  {
    if ps == [] then [] else Chosen(ps[0], steps, sum, c) + Bucket(Tail(ps), steps, sum, c)
  }

  /** The prototype on the branch of constructor c. */
  function Refined(a: Pat, steps: Steps, sum: Sum, c: nat, first: nat): Pat
    requires Leads(a, steps) && c < |sum.arities|
  {
    Put(a, steps, Con(At(a, steps).name, sum, c, Names(first, sum.arities[c])))
  }

  /** b has at least the detail of a, and no name where a has none. */
  predicate Refines(a: Pat, b: Pat)
    decreases a
  {
    && (b.name >= 0 ==> a.name >= 0)
    && (a.Con? ==>
          && b.Con? && b.sum == a.sum && b.cons == a.cons && |b.children| == |a.children|
          && forall i :: 0 <= i < |a.children| ==> Refines(a.children[i], b.children[i]))
  }

  // --------------------------------------------------------------------- termination

  /** The constructors of a pattern the prototype does not have yet. */
  function Excess(a: Pat, b: Pat): nat
    decreases b, 0
  {
    if b.Any? then 0
    else if a.Any? then 1 + ExcessAll(Wild(|b.children|), b.children)
    else if |a.children| == |b.children| then ExcessAll(a.children, b.children)
    else 0
  }

  function ExcessAll(a: seq<Pat>, b: seq<Pat>): nat
    requires |a| == |b|
    decreases b, 1
  {
    if b == [] then 0 else ExcessAll(a[..|b| - 1], b[..|b| - 1]) + Excess(a[|b| - 1], b[|b| - 1])
  }

  function Weight(a: Pat, ps: seq<Ref>): nat
    decreases |ps|
  {
    if ps == [] then 0 else 1 + Excess(a, ps[0].tree) + Weight(a, Tail(ps))
  }

  lemma {:induction false} ExcessAny(x: int, y: int, b: Pat)
    ensures Excess(Any(x), b) == Excess(Any(y), b)
  {
  }

  lemma {:induction false} ExcessAllAny(a: seq<Pat>, a': seq<Pat>, b: seq<Pat>)
    requires |a| == |a'| == |b| && forall i :: 0 <= i < |a| ==> a[i].Any? && a'[i].Any?
    ensures ExcessAll(a, b) == ExcessAll(a', b)
    decreases |b|
  {
    if b != [] {
      var z := |b| - 1;
      ExcessAllAny(a[..z], a'[..z], b[..z]);
      ExcessAny(a[z].name, a'[z].name, b[z]);
    }
  }

  lemma {:induction false} ExcessAllWild(a: seq<Pat>, b: seq<Pat>)
    requires |a| == |b| && forall i :: 0 <= i < |b| ==> b[i].Any?
    ensures ExcessAll(a, b) == 0
    decreases |b|
  {
    if b != [] { ExcessAllWild(a[..|b| - 1], b[..|b| - 1]); }
  }

  lemma {:induction false} ExcessAllUpdate(a: seq<Pat>, b: seq<Pat>, i: nat, x: Pat, y: Pat, a': seq<Pat>, b': seq<Pat>)
    requires |a| == |b| && i < |a| && a' == a[i := x] && b' == b[i := y]
    ensures ExcessAll(a', b') + Excess(a[i], b[i]) == ExcessAll(a, b) + Excess(x, y)
    decreases |b|
  {
    var z := |b| - 1;
    if i < z {
      ExcessAllUpdate(a[..z], b[..z], i, x, y, a'[..z], b'[..z]);
    } else {
      assert a'[..z] == a[..z] && b'[..z] == b[..z];
    }
  }

  lemma {:induction false} ExcessPut(a: Pat, b: Pat, steps: Steps, x: Pat, y: Pat)
    requires Leads(a, steps) && Leads(b, steps) && Refines(a, b)
    ensures Excess(Put(a, steps, x), Put(b, steps, y)) + Excess(At(a, steps), At(b, steps)) ==
      Excess(a, b) + Excess(x, y)
    decreases steps
  {
    if steps.Down? {
      var i := steps.head;
      ExcessPut(a.children[i], b.children[i], steps.tail, x, y);
      ExcessAllUpdate(a.children, b.children, i, Put(a.children[i], steps.tail, x), Put(b.children[i], steps.tail, y),
                      Put(a, steps, x).children, Put(b, steps, y).children);
    }
  }

  lemma {:induction false} PutAt(p: Pat, steps: Steps)
    requires Leads(p, steps)
    ensures Put(p, steps, At(p, steps)) == p
    decreases steps
  {
    if steps.Down? { PutAt(p.children[steps.head], steps.tail); }
  }

  /** Where a prototype leads, so does any pattern of at least its detail. */
  lemma {:induction false} RefinesLeads(a: Pat, b: Pat, steps: Steps)
    requires Refines(a, b) && Leads(a, steps)
    ensures Leads(b, steps) && Refines(At(a, steps), At(b, steps))
    decreases steps
  {
    if steps.Down? { RefinesLeads(a.children[steps.head], b.children[steps.head], steps.tail); }
  }

  lemma {:induction false} MismatchLeads(a: Pat, b: Pat)
    requires Refines(a, b) && FindMismatch(a, b).Path?
    ensures var steps := FindMismatch(a, b).steps;
      Leads(a, steps) && Leads(b, steps) && At(a, steps).Any? && At(b, steps).Con?
    decreases a, 0
  {
    if a.Con? { MismatchFromLeads(a.children, b.children, 0); }
  }

  lemma {:induction false} MismatchFromLeads(a: seq<Pat>, b: seq<Pat>, i: nat)
    requires |a| == |b| && i <= |a| && MismatchFrom(a, b, i).Path? && forall j :: 0 <= j < |a| ==> Refines(a[j], b[j])
    ensures var steps := MismatchFrom(a, b, i).steps;
      && steps.Down? && steps.head < |a| && Leads(a[steps.head], steps.tail) && Leads(b[steps.head], steps.tail)
      && At(a[steps.head], steps.tail).Any? && At(b[steps.head], steps.tail).Con?
    decreases a, 1, |a| - i
  {
    if FindMismatch(a[i], b[i]).Path? {
      MismatchLeads(a[i], b[i]);
    } else {
      MismatchFromLeads(a, b, i + 1);
    }
  }

  /** Every pattern has the prototype's detail and is well formed. */
  predicate Ready(a: Pat, ps: seq<Ref>) {
    forall i :: 0 <= i < |ps| ==> Refines(a, ps[i].tree) && Proper(ps[i].tree)
  }

  /** The position can be expanded: unknown to the prototype, and of one type for every pattern. */
  predicate Splits(a: Pat, ps: seq<Ref>, steps: Steps, sum: Sum) {
    && Leads(a, steps) && At(a, steps).Any?
    && forall i :: 0 <= i < |ps| ==>
      Leads(ps[i].tree, steps) && (At(ps[i].tree, steps).Con? ==> At(ps[i].tree, steps).sum == sum)
  }

  lemma {:induction false} ChosenExcess(a: Pat, p: Ref, steps: Steps, sum: Sum, c: nat, first: nat)
    requires Leads(a, steps) && At(a, steps).Any? && Refines(a, p.tree) && Proper(p.tree) && c < |sum.arities|
    requires Leads(p.tree, steps) && (At(p.tree, steps).Con? ==> At(p.tree, steps).sum == sum)
    ensures var r, q := Refined(a, steps, sum, c, first), Chosen(p, steps, sum, c);
      q != [] ==> Excess(r, q[0].tree) + (if At(p.tree, steps).Con? then 1 else 0) == Excess(a, p.tree)
  {
    var t, x := At(p.tree, steps), Con(At(a, steps).name, sum, c, Names(first, sum.arities[c]));
    ProperAt(p.tree, steps);
    if t.Any? {
      var y := Con(t.name, sum, c, Wild(sum.arities[c]));
      ExcessPut(a, p.tree, steps, x, y);
      ExcessAllWild(x.children, y.children);
    } else if t.cons == c {
      ExcessPut(a, p.tree, steps, x, t);
      PutAt(p.tree, steps);
      ExcessAllAny(x.children, Wild(|t.children|), t.children);
    }
  }

  lemma {:induction false} ProperAt(p: Pat, steps: Steps)
    requires Proper(p) && Leads(p, steps)
    ensures Proper(At(p, steps))
    decreases steps
  {
    if steps.Down? { ProperAt(p.children[steps.head], steps.tail); }
  }

  lemma {:induction false} BucketLighter(a: Pat, ps: seq<Ref>, steps: Steps, sum: Sum, c: nat, first: nat)
    requires Ready(a, ps) && Splits(a, ps, steps, sum) && c < |sum.arities|
    ensures Weight(Refined(a, steps, sum, c, first), Bucket(ps, steps, sum, c)) <= Weight(a, ps)
    ensures ps != [] && At(ps[0].tree, steps).Con? ==>
      Weight(Refined(a, steps, sum, c, first), Bucket(ps, steps, sum, c)) < Weight(a, ps)
    decreases |ps|
  {
    if ps != [] {
      var q, b := Chosen(ps[0], steps, sum, c), Bucket(Tail(ps), steps, sum, c);
      BucketLighter(a, Tail(ps), steps, sum, c, first);
      ChosenExcess(a, ps[0], steps, sum, c, first);
      if q != [] { WeightCons(Refined(a, steps, sum, c, first), q[0], b, q + b); } else { assert q + b == b; }
    }
  }

  lemma {:induction false} WeightCons(a: Pat, p: Ref, ps: seq<Ref>, ps': seq<Ref>)
    requires ps' == [p] + ps
    ensures Weight(a, ps') == 1 + Excess(a, p.tree) + Weight(a, ps)
  {
    TailCons(p, ps, ps');
  }

  lemma {:induction false} RefinesPut(a: Pat, b: Pat, steps: Steps, x: Pat, y: Pat)
    requires Refines(a, b) && Leads(a, steps) && Leads(b, steps) && Refines(x, y)
    ensures Refines(Put(a, steps, x), Put(b, steps, y))
    decreases steps
  {
    if steps.Down? { RefinesPut(a.children[steps.head], b.children[steps.head], steps.tail, x, y); }
  }

  lemma {:induction false} ProperPut(p: Pat, steps: Steps, q: Pat)
    requires Proper(p) && Leads(p, steps) && Proper(q)
    ensures Proper(Put(p, steps, q))
    decreases steps
  {
    if steps.Down? { ProperPut(p.children[steps.head], steps.tail, q); }
  }

  lemma {:induction false} ChosenReady(a: Pat, p: Ref, steps: Steps, sum: Sum, c: nat, first: nat)
    requires Leads(a, steps) && At(a, steps).Any? && Refines(a, p.tree) && Proper(p.tree) && c < |sum.arities|
    requires Leads(p.tree, steps) && (At(p.tree, steps).Con? ==> At(p.tree, steps).sum == sum)
    ensures Ready(Refined(a, steps, sum, c, first), Chosen(p, steps, sum, c))
  {
    var t, x := At(p.tree, steps), Con(At(a, steps).name, sum, c, Names(first, sum.arities[c]));
    ProperAt(p.tree, steps);
    RefinesLeads(a, p.tree, steps);
    var y := if t.Any? then Con(t.name, sum, c, Wild(sum.arities[c])) else t;
    if t.Any? || t.cons == c {
      RefinesPut(a, p.tree, steps, x, y);
      ProperPut(p.tree, steps, y);
      PutAt(p.tree, steps);
    }
  }

  lemma {:induction false} BucketReady(a: Pat, ps: seq<Ref>, steps: Steps, sum: Sum, c: nat, first: nat)
    requires Ready(a, ps) && Splits(a, ps, steps, sum) && c < |sum.arities|
    ensures Ready(Refined(a, steps, sum, c, first), Bucket(ps, steps, sum, c))
    decreases |ps|
  {
    if ps != [] {
      BucketReady(a, Tail(ps), steps, sum, c, first);
      ChosenReady(a, ps[0], steps, sum, c, first);
    }
  }

  /** Going into a case keeps everything in order and leaves less to do. */
  lemma {:induction false} BucketStep(a: Pat, ps: seq<Ref>, steps: Steps, sum: Sum, c: nat, first: nat, a': Pat,
                                      b: seq<Ref>)
    requires Ready(a, ps) && Splits(a, ps, steps, sum) && ps != [] && At(ps[0].tree, steps).Con? && c < |sum.arities|
    requires a' == Refined(a, steps, sum, c, first) && b == Bucket(ps, steps, sum, c)
    ensures Ready(a', b) && Weight(a', b) < Weight(a, ps)
  {
    BucketLighter(a, ps, steps, sum, c, first);
    BucketReady(a, ps, steps, sum, c, first);
  }

  datatype Compiled = Built(tree: Tree, next: nat) | Missing(shape: Pat) | Clash

  /** The type the first pattern expects at the mismatch is the one every pattern expects there. */
  lemma {:induction false} MismatchSplits(a: Pat, ps: seq<Ref>)
    requires Ready(a, ps) && ps != [] && FindMismatch(a, ps[0].tree).Path?
    ensures var steps := FindMismatch(a, ps[0].tree).steps;
      && Leads(a, steps) && At(a, steps).Any? && Leads(ps[0].tree, steps) && At(ps[0].tree, steps).Con?
      && forall i :: 0 <= i < |ps| ==> Leads(ps[i].tree, steps)
  {
    var steps := FindMismatch(a, ps[0].tree).steps;
    MismatchLeads(a, ps[0].tree);
    forall i | 0 <= i < |ps| ensures Leads(ps[i].tree, steps) { RefinesLeads(a, ps[i].tree, steps); }
  }

  /** expand_patterns: a is the prototype, next the first name not in use. */
  function Compile(a: Pat, next: nat, ps: seq<Ref>, mode: Mode): (r: Compiled)
    requires Ready(a, ps)
    ensures r.Built? ==> next <= r.next
    decreases Weight(a, ps), 1, 0
  {
    if ps == [] then
      match mode
      case Total => Missing(a)
      case IdentityMode => Built(Identity(a), next)
      case OtherwiseMode => Built(Else, next)
    else
      match FindMismatch(a, ps[0].tree)
      case NoPath =>
        var args := Fill(a, ps[0].tree);
        if !ps[0].guard then Built(Leaf(ps[0].index, args), next) else
        var r := Compile(a, next, Tail(ps), mode);
        if r.Built? then Built(Guarded(ps[0].index, args, r.tree), r.next) else r
      case Path(steps) =>
        MismatchSplits(a, ps);
        var sum := At(ps[0].tree, steps).sum;
        if Splits(a, ps, steps, sum) then Cases(a, next, ps, mode, steps, sum, |sum.arities|) else Clash
  }

  /** The switch with its first c cases. */
  function Cases(a: Pat, next: nat, ps: seq<Ref>, mode: Mode, steps: Steps, sum: Sum, c: nat): (r: Compiled)
    requires Ready(a, ps) && Splits(a, ps, steps, sum) && ps != [] && At(ps[0].tree, steps).Con? && c <= |sum.arities|
    ensures r.Built? ==> r.tree.Switch? && next <= r.next
    decreases Weight(a, ps), 0, c
  {
    if c == 0 then Built(Switch(At(a, steps).name, sum, []), next) else
    var r := Cases(a, next, ps, mode, steps, sum, c - 1);
    if !r.Built? then r else
    var a', b := Refined(a, steps, sum, c - 1, r.next), Bucket(ps, steps, sum, c - 1);
    BucketStep(a, ps, steps, sum, c - 1, r.next, a', b);
    var x := Compile(a', r.next + sum.arities[c - 1], b, mode);
    Extended(r, x)
  }

  /** The switch r with one more case, compiled to x. */
  function Extended(r: Compiled, x: Compiled): Compiled
    requires r.Built? && r.tree.Switch?
  {
    if x.Built? then Built(r.tree.(cases := r.tree.cases + [Case(r.next, x.tree)]), x.next) else x
  }

  lemma {:induction false} CasesMore(a: Pat, next: nat, ps: seq<Ref>, mode: Mode, steps: Steps, sum: Sum, n: nat,
                                     c: nat, r: Compiled, a': Pat, next': nat, b: seq<Ref>, x: Compiled)
    requires Ready(a, ps) && Splits(a, ps, steps, sum) && ps != [] && At(ps[0].tree, steps).Con?
    requires 0 < n <= |sum.arities| && c == n - 1
    requires r == Cases(a, next, ps, mode, steps, sum, c) && r.Built?
    requires a' == Refined(a, steps, sum, c, r.next) && next' == r.next + sum.arities[c]
    requires b == Bucket(ps, steps, sum, c) && Ready(a', b) && x == Compile(a', next', b, mode)
    ensures Cases(a, next, ps, mode, steps, sum, n) == Extended(r, x)
  {
  }

  /** One more case, spelled out. */
  lemma {:induction false} CasesNext(a: Pat, next: nat, ps: seq<Ref>, mode: Mode, steps: Steps, sum: Sum, n: nat,
                                     c: nat, r: Compiled,
                                     a': Pat, next': nat, b: seq<Ref>)
    requires Ready(a, ps) && Splits(a, ps, steps, sum) && ps != [] && At(ps[0].tree, steps).Con?
    requires 0 < n <= |sum.arities| && c == n - 1
    requires r == Cases(a, next, ps, mode, steps, sum, c) && r.Built?
    requires a' == Refined(a, steps, sum, c, r.next) && next' == r.next + sum.arities[c]
    requires b == Bucket(ps, steps, sum, c)
    ensures Ready(a', b) && Weight(a', b) < Weight(a, ps)
    ensures Cases(a, next, ps, mode, steps, sum, n) == Extended(r, Compile(a', next', b, mode))
  {
    BucketStep(a, ps, steps, sum, c, r.next, a', b);
    CasesMore(a, next, ps, mode, steps, sum, n, c, r, a', next', b, Compile(a', next', b, mode));
  }

  // ------------------------------------------------------------ patterns and positions

  function Sub(v: Value, steps: Steps): Value
    decreases steps
  {
    if steps.Down? && v.Data? && steps.head < |v.fields| then Sub(v.fields[steps.head], steps.tail) else v
  }

  lemma {:induction false} MatchesPut(v: Value, p: Pat, steps: Steps, q: Pat)
    requires Leads(p, steps) && (Matches(Sub(v, steps), At(p, steps)) <==> Matches(Sub(v, steps), q))
    ensures Matches(v, p) <==> Matches(v, Put(p, steps, q))
    decreases steps
  {
    if steps.Down? && v.Data? && |v.fields| == |p.children| {
      var i, r := steps.head, Put(p, steps, q);
      MatchesPut(v.fields[i], p.children[i], steps.tail, q);
      assert forall j :: 0 <= j < |p.children| && j != i ==> r.children[j] == p.children[j];
    }
  }

  lemma {:induction false} MatchesAt(v: Value, p: Pat, steps: Steps)
    requires Leads(p, steps) && Matches(v, p)
    ensures Matches(Sub(v, steps), At(p, steps))
    decreases steps
  {
    if steps.Down? { MatchesAt(v.fields[steps.head], p.children[steps.head], steps.tail); }
  }

  lemma {:induction false} BoundAllUpdate(vs: seq<Value>, ps: seq<Pat>, i: nat, q: Pat, ps': seq<Pat>)
    requires |vs| == |ps| && i < |ps| && ps' == ps[i := q] && Bound(vs[i], q) == Bound(vs[i], ps[i])
    ensures BoundAll(vs, ps') == BoundAll(vs, ps)
    decreases |ps|
  {
    var z := |ps| - 1;
    if i < z {
      BoundAllUpdate(vs[..z], ps[..z], i, q, ps'[..z]);
    } else {
      assert ps'[..z] == ps[..z];
    }
  }

  lemma {:induction false} BoundPut(v: Value, p: Pat, steps: Steps, q: Pat)
    requires Leads(p, steps) && Bound(Sub(v, steps), At(p, steps)) == Bound(Sub(v, steps), q)
    ensures Bound(v, p) == Bound(v, Put(p, steps, q))
    decreases steps
  {
    if steps.Down? && v.Data? && |v.fields| == |p.children| {
      var i, r := steps.head, Put(p, steps, q);
      BoundPut(v.fields[i], p.children[i], steps.tail, q);
      BoundAllUpdate(v.fields, p.children, i, r.children[i], r.children);
    }
  }

  lemma {:induction false} BoundWild(vs: seq<Value>, ps: seq<Pat>)
    requires |vs| == |ps| && forall i :: 0 <= i < |ps| ==> ps[i] == Any(-1)
    ensures BoundAll(vs, ps) == []
    decreases |ps|
  {
    if ps != [] { BoundWild(vs[..|ps| - 1], ps[..|ps| - 1]); }
  }

  lemma {:induction false} FitsAt(v: Value, a: Pat, p: Pat, steps: Steps)
    requires Fits(v, p) && Matches(v, a) && Refines(a, p) && Leads(a, steps) && Leads(p, steps)
    ensures Fits(Sub(v, steps), At(p, steps))
    decreases steps
  {
    if steps.Down? {
      var i := steps.head;
      FitsAt(v.fields[i], a.children[i], p.children[i], steps.tail);
    }
  }

  lemma {:induction false} FitsPut(v: Value, p: Pat, steps: Steps, q: Pat)
    requires Fits(v, p) && Leads(p, steps) && Fits(Sub(v, steps), q)
    ensures Fits(v, Put(p, steps, q))
    decreases steps
  {
    if steps.Down? && v.cons == p.cons && |v.fields| == |p.children| {
      var i, r := steps.head, Put(p, steps, q);
      FitsPut(v.fields[i], p.children[i], steps.tail, q);
      assert forall j :: 0 <= j < |p.children| && j != i ==> r.children[j] == p.children[j];
    }
  }

  /** A value of the branch's constructor sees the bucket's pattern as it saw the pattern. */
  lemma {:induction false} ChosenAgrees(v: Value, p: Ref, steps: Steps, sum: Sum, c: nat)
    requires Leads(p.tree, steps) && Proper(p.tree) && Fits(v, p.tree) && c < |sum.arities|
    requires At(p.tree, steps).Con? ==> At(p.tree, steps).sum == sum
    requires var u := Sub(v, steps); u.Data? && u.sum == sum && u.cons == c && |u.fields| == sum.arities[c]
    ensures var q := Chosen(p, steps, sum, c);
      if q == [] then !Matches(v, p.tree)
      else q == [q[0]] && q[0] == p.(tree := q[0].tree) && (Matches(v, p.tree) <==> Matches(v, q[0].tree))
           && Bound(v, q[0].tree) == Bound(v, p.tree) && Fits(v, q[0].tree)
  {
    var t, u := At(p.tree, steps), Sub(v, steps);
    if t.Any? {
      var y := Con(t.name, sum, c, Wild(sum.arities[c]));
      MatchesPut(v, p.tree, steps, y);
      BoundWild(u.fields, y.children);
      BoundPut(v, p.tree, steps, y);
      FitsPut(v, p.tree, steps, y);
    } else if t.cons != c {
      if Matches(v, p.tree) { MatchesAt(v, p.tree, steps); }
    }
  }

  predicate AllFit(v: Value, ps: seq<Ref>) {
    forall i :: 0 <= i < |ps| ==> Fits(v, ps[i].tree)
  }

  lemma {:induction false} BucketSnoc(ps: seq<Ref>, p: Ref, ps': seq<Ref>, steps: Steps, sum: Sum, c: nat)
    requires ps' == ps + [p] && c < |sum.arities| && Leads(p.tree, steps)
    requires forall i :: 0 <= i < |ps| ==> Leads(ps[i].tree, steps)
    ensures forall i :: 0 <= i < |ps'| ==> Leads(ps'[i].tree, steps)
    ensures Bucket(ps', steps, sum, c) == Bucket(ps, steps, sum, c) + Chosen(p, steps, sum, c)
    decreases |ps|
  {
    if ps == [] {
      assert Tail(ps') == [];
    } else {
      TailSnoc(ps, p, ps');
      BucketSnoc(Tail(ps), p, Tail(ps'), steps, sum, c);
      Reassociated(Chosen(ps[0], steps, sum, c), Bucket(Tail(ps), steps, sum, c), Chosen(p, steps, sum, c));
    }
  }

  lemma {:induction false} Reassociated(x: seq<Ref>, y: seq<Ref>, z: seq<Ref>)
    ensures (x + y) + z == x + (y + z)
  {
  }

  /** Looking only at the bucket of the value's constructor changes nothing. */
  lemma {:induction false} BucketSelects(v: Value, g: Guards, a: Pat, ps: seq<Ref>, mode: Mode, steps: Steps, sum: Sum,
                                         c: nat)
    requires Ready(a, ps) && Splits(a, ps, steps, sum) && c < |sum.arities| && AllFit(v, ps)
    requires var u := Sub(v, steps); u.Data? && u.sum == sum && u.cons == c && |u.fields| == sum.arities[c]
    ensures Select(v, g, Bucket(ps, steps, sum, c), mode) == Select(v, g, ps, mode)
    ensures AllFit(v, Bucket(ps, steps, sum, c))
    decreases |ps|
  {
    if ps != [] {
      BucketSelects(v, g, a, Tail(ps), mode, steps, sum, c);
      ChosenAgrees(v, ps[0], steps, sum, c);
      var q, b := Chosen(ps[0], steps, sum, c), Bucket(Tail(ps), steps, sum, c);
      SelectStep(v, g, ps[0], q, Tail(ps), b, ps, Bucket(ps, steps, sum, c), mode);
    }
  }

  lemma {:induction false} SelectStep(v: Value, g: Guards, p: Ref, q: seq<Ref>, ps: seq<Ref>, b: seq<Ref>,
                                      ps': seq<Ref>, b': seq<Ref>, mode: Mode)
    requires if q == [] then !Matches(v, p.tree)
             else q == [q[0]] && q[0] == p.(tree := q[0].tree) && (Matches(v, p.tree) <==> Matches(v, q[0].tree))
                  && Bound(v, q[0].tree) == Bound(v, p.tree) && Fits(v, q[0].tree)
    requires ps' == [p] + ps && b' == q + b && Select(v, g, b, mode) == Select(v, g, ps, mode) && AllFit(v, b)
    ensures Select(v, g, b', mode) == Select(v, g, ps', mode) && AllFit(v, b')
  {
    assert Tail(ps') == ps;
    if q != [] { assert Tail(b') == b; } else { assert b' == b; }
  }

  // ----------------------------------------------------------------- names and values

  /** The scrutinee has the prototype's shape, and every name in it stands for the value there. */
  predicate EnvFor(a: Pat, v: Value, env: map<int, Value>)
    decreases a
  {
    && (a.name >= 0 ==> a.name in env && env[a.name] == v) && (a.Any? ==> a.name >= 0)
    && (a.Con? ==>
          && v.Data? && v.sum == a.sum && v.cons == a.cons && |v.fields| == |a.children|
          && forall i :: 0 <= i < |a.children| ==> EnvFor(a.children[i], v.fields[i], env))
  }

  predicate Below(a: Pat, next: nat)
    decreases a
  {
    a.name < next && (a.Con? ==> forall i :: 0 <= i < |a.children| ==> Below(a.children[i], next))
  }

  lemma {:induction false} EnvMatches(a: Pat, v: Value, env: map<int, Value>)
    requires EnvFor(a, v, env)
    ensures Matches(v, a)
    decreases a
  {
    if a.Con? {
      forall i | 0 <= i < |a.children|
        ensures Matches(v.fields[i], a.children[i])
      {
        EnvMatches(a.children[i], v.fields[i], env);
      }
    }
  }

  lemma {:induction false} NamedOld(env: map<int, Value>, first: nat, fields: seq<Value>, x: int)
    requires x in env && x < first
    ensures x in Named(env, first, fields) && Named(env, first, fields)[x] == env[x]
    decreases |fields|
  {
    if fields != [] { NamedOld(env, first, fields[..|fields| - 1], x); }
  }

  lemma {:induction false} NamedNew(env: map<int, Value>, first: nat, fields: seq<Value>, i: nat)
    requires i < |fields|
    ensures first + i in Named(env, first, fields) && Named(env, first, fields)[first + i] == fields[i]
    decreases |fields|
  {
    if i < |fields| - 1 { NamedNew(env, first, fields[..|fields| - 1], i); }
  }

  lemma {:induction false} EnvMore(a: Pat, v: Value, env: map<int, Value>, env': map<int, Value>, next: nat)
    requires EnvFor(a, v, env) && Below(a, next) && forall x :: x in env && x < next ==> x in env' && env'[x] == env[x]
    ensures EnvFor(a, v, env')
    decreases a
  {
    if a.Con? {
      forall i | 0 <= i < |a.children| ensures EnvFor(a.children[i], v.fields[i], env') {
        EnvMore(a.children[i], v.fields[i], env, env', next);
      }
    }
  }

  lemma {:induction false} EnvPut(a: Pat, v: Value, env: map<int, Value>, steps: Steps, x: Pat)
    requires EnvFor(a, v, env) && Leads(a, steps) && EnvFor(x, Sub(v, steps), env)
    ensures EnvFor(Put(a, steps, x), v, env)
    decreases steps
  {
    if steps.Down? {
      var i, r := steps.head, Put(a, steps, x);
      EnvPut(a.children[i], v.fields[i], env, steps.tail, x);
      assert forall j :: 0 <= j < |a.children| && j != i ==> r.children[j] == a.children[j];
    }
  }

  lemma {:induction false} EnvAt(a: Pat, v: Value, env: map<int, Value>, steps: Steps)
    requires EnvFor(a, v, env) && Leads(a, steps)
    ensures EnvFor(At(a, steps), Sub(v, steps), env)
    decreases steps
  {
    if steps.Down? { EnvAt(a.children[steps.head], v.fields[steps.head], env, steps.tail); }
  }

  lemma {:induction false} BelowPut(a: Pat, steps: Steps, x: Pat, next: nat, next': nat)
    requires Below(a, next) && next <= next' && Leads(a, steps) && Below(x, next')
    ensures Below(Put(a, steps, x), next')
    decreases steps, 0
  {
    if steps.Down? {
      var i, r := steps.head, Put(a, steps, x);
      BelowPut(a.children[i], steps.tail, x, next, next');
      forall j | 0 <= j < |r.children| ensures Below(r.children[j], next') {
        if j != i { BelowMore(a.children[j], next, next'); }
      }
    }
  }

  lemma {:induction false} BelowMore(a: Pat, next: nat, next': nat)
    requires Below(a, next) && next <= next'
    ensures Below(a, next')
    decreases a
  {
    if a.Con? {
      forall i | 0 <= i < |a.children| ensures Below(a.children[i], next') { BelowMore(a.children[i], next, next'); }
    }
  }

  lemma {:induction false} BelowAt(a: Pat, steps: Steps, next: nat)
    requires Below(a, next) && Leads(a, steps)
    ensures Below(At(a, steps), next)
    decreases steps
  {
    if steps.Down? { BelowAt(a.children[steps.head], steps.tail, next); }
  }

  /** On the branch of the scrutinee's constructor the refined prototype describes it. */
  lemma {:induction false} BranchEnv(a: Pat, v: Value, env: map<int, Value>, steps: Steps, sum: Sum, next: nat,
                                     first: nat)
    requires EnvFor(a, v, env) && Below(a, next) && next <= first && Leads(a, steps) && At(a, steps).Any?
    requires var u := Sub(v, steps);
      u.Data? && u.sum == sum && u.cons < |sum.arities| && |u.fields| == sum.arities[u.cons]
    ensures var u := Sub(v, steps);
      && EnvFor(Refined(a, steps, sum, u.cons, first), v, Named(env, first, u.fields))
      && Below(Refined(a, steps, sum, u.cons, first), first + |u.fields|)
  {
    var u := Sub(v, steps);
    var env', x := Named(env, first, u.fields), Con(At(a, steps).name, sum, u.cons, Names(first, |u.fields|));
    forall k | k in env && k < first ensures k in env' && env'[k] == env[k] { NamedOld(env, first, u.fields, k); }
    BelowMore(a, next, first);
    EnvMore(a, v, env, env', first);
    EnvAt(a, v, env', steps);
    BelowAt(a, steps, first);
    forall i | 0 <= i < |u.fields|
      ensures EnvFor(x.children[i], u.fields[i], env')
    {
      NamedNew(env, first, u.fields, i);
    }
    EnvPut(a, v, env', steps, x);
    BelowPut(a, steps, x, first, first + |u.fields|);
  }

  lemma {:induction false} ValuesConcat(env: map<int, Value>, xs: seq<int>, ys: seq<int>)
    ensures Values(env, xs + ys) == Values(env, xs) + Values(env, ys)
    decreases |ys|
  {
    if ys == [] {
      assert xs + ys == xs;
    } else {
      var z := |ys| - 1;
      ValuesConcat(env, xs, ys[..z]);
      assert (xs + ys)[..|xs + ys| - 1] == xs + ys[..z];
    }
  }

  lemma {:induction false} NoMismatchAt(a: seq<Pat>, b: seq<Pat>, i: nat, j: nat)
    requires |a| == |b| && i <= j < |a| && MismatchFrom(a, b, i).NoPath?
    ensures FindMismatch(a[j], b[j]).NoPath?
    decreases j - i
  {
    if i < j { NoMismatchAt(a, b, i + 1, j); }
  }

  /** A prototype with a pattern's whole detail: the pattern matches, and is handed its variables' values. */
  lemma {:induction false} FillBinds(a: Pat, b: Pat, v: Value, env: map<int, Value>)
    requires EnvFor(a, v, env) && Refines(a, b) && FindMismatch(a, b).NoPath?
    ensures Matches(v, b) && Values(env, Fill(a, b)) == Bound(v, b)
    decreases a, 0
  {
    if a.Con? {
      forall i | 0 <= i < |a.children| ensures FindMismatch(a.children[i], b.children[i]).NoPath? {
        NoMismatchAt(a.children, b.children, 0, i);
      }
      FillBindsAll(a.children, b.children, v.fields, env);
    }
  }

  lemma {:induction false} FillBindsAll(a: seq<Pat>, b: seq<Pat>, vs: seq<Value>, env: map<int, Value>)
    requires |a| == |b| == |vs|
    requires forall i :: 0 <= i < |a| ==>
      EnvFor(a[i], vs[i], env) && Refines(a[i], b[i]) && FindMismatch(a[i], b[i]).NoPath?
    ensures Values(env, FillAll(a, b)) == BoundAll(vs, b) && forall i :: 0 <= i < |a| ==> Matches(vs[i], b[i])
    decreases a, 1
  {
    if a != [] {
      var z := |a| - 1;
      FillBindsAll(a[..z], b[..z], vs[..z], env);
      FillBinds(a[z], b[z], vs[z], env);
      ValuesConcat(env, FillAll(a[..z], b[..z]), Fill(a[z], b[z]));
    }
  }

  lemma {:induction false} RebuildIs(a: Pat, v: Value, env: map<int, Value>)
    requires EnvFor(a, v, env)
    ensures Rebuild(env, a) == v
    decreases a
  {
    if a.Con? {
      forall i | 0 <= i < |a.children| ensures Rebuild(env, a.children[i]) == v.fields[i] {
        RebuildIs(a.children[i], v.fields[i], env);
      }
      assert Rebuild(env, a).fields == v.fields;
    }
  }

  // ------------------------------------------------------------------ the main result

  /** The body of a case is the compiled bucket of its constructor. */
  predicate IsCase(a: Pat, ps: seq<Ref>, mode: Mode, steps: Steps, sum: Sum, c: nat, first: nat, kase: Case)
    requires Leads(a, steps) && At(a, steps).Any? && c < |sum.arities|
    requires forall i :: 0 <= i < |ps| ==> Leads(ps[i].tree, steps)
  {
    && Ready(Refined(a, steps, sum, c, first), Bucket(ps, steps, sum, c))
    && var x := Compile(Refined(a, steps, sum, c, first), first + sum.arities[c], Bucket(ps, steps, sum, c), mode);
       x.Built? && kase == Case(first, x.tree)
  }

  lemma {:induction false} CaseIs(a: Pat, next: nat, ps: seq<Ref>, mode: Mode, steps: Steps, sum: Sum, n: nat, c: nat,
                                  t: Tree) returns (first: nat)
    requires Ready(a, ps) && Splits(a, ps, steps, sum) && ps != [] && At(ps[0].tree, steps).Con?
    requires c < n <= |sum.arities|
    requires Cases(a, next, ps, mode, steps, sum, n).Built? && t == Cases(a, next, ps, mode, steps, sum, n).tree
    ensures next <= first && t.name == At(a, steps).name && t.sum == sum && |t.cases| == n
    ensures IsCase(a, ps, mode, steps, sum, c, first, t.cases[c])
    decreases n
  {
    var d := n - 1;
    var r, kase := LastCase(a, next, ps, mode, steps, sum, n, d, t);
    CaseAppended(r.tree, t, kase, c);
    if c < d {
      first := CaseIs(a, next, ps, mode, steps, sum, d, c, r.tree);
    } else {
      first := r.next;
    }
  }

  lemma {:induction false} LastCase(a: Pat, next: nat, ps: seq<Ref>, mode: Mode, steps: Steps, sum: Sum, n: nat, c: nat,
                                    t: Tree) returns (r: Compiled, kase: Case)
    requires Ready(a, ps) && Splits(a, ps, steps, sum) && ps != [] && At(ps[0].tree, steps).Con?
    requires 0 < n <= |sum.arities| && c == n - 1
    requires Cases(a, next, ps, mode, steps, sum, n).Built? && t == Cases(a, next, ps, mode, steps, sum, n).tree
    ensures r == Cases(a, next, ps, mode, steps, sum, c) && r.Built?
    ensures t == r.tree.(cases := r.tree.cases + [kase]) && IsCase(a, ps, mode, steps, sum, c, r.next, kase)
    ensures |r.tree.cases| == c && |t.cases| == n && t.name == At(a, steps).name && t.sum == sum && next <= r.next
  {
    r := Cases(a, next, ps, mode, steps, sum, c);
    var a', next', b := Refined(a, steps, sum, c, r.next), r.next + sum.arities[c], Bucket(ps, steps, sum, c);
    CasesNext(a, next, ps, mode, steps, sum, n, c, r, a', next', b);
    CasesLength(a, next, ps, mode, steps, sum, c);
    kase := Case(r.next, Compile(a', next', b, mode).tree);
    CaseHere(a, ps, mode, steps, sum, c, r.next, a', next', b, kase);
  }

  lemma {:induction false} CaseHere(a: Pat, ps: seq<Ref>, mode: Mode, steps: Steps, sum: Sum, c: nat, first: nat,
                                    a': Pat, next': nat, b: seq<Ref>, kase: Case)
    requires Leads(a, steps) && At(a, steps).Any? && c < |sum.arities|
    requires forall i :: 0 <= i < |ps| ==> Leads(ps[i].tree, steps)
    requires a' == Refined(a, steps, sum, c, first) && next' == first + sum.arities[c] && b == Bucket(ps, steps, sum, c)
    requires Ready(a', b) && Compile(a', next', b, mode).Built? && kase == Case(first, Compile(a', next', b, mode).tree)
    ensures IsCase(a, ps, mode, steps, sum, c, first, kase)
  {
  }

  lemma {:induction false} CaseAppended(t: Tree, t': Tree, k: Case, c: nat)
    requires t.Switch? && t' == t.(cases := t.cases + [k]) && c <= |t.cases|
    ensures t'.cases[c] == if c < |t.cases| then t.cases[c] else k
  {
  }

  lemma {:induction false} CasesLength(a: Pat, next: nat, ps: seq<Ref>, mode: Mode, steps: Steps, sum: Sum, n: nat)
    requires Ready(a, ps) && Splits(a, ps, steps, sum) && ps != [] && At(ps[0].tree, steps).Con? && n <= |sum.arities|
    requires Cases(a, next, ps, mode, steps, sum, n).Built?
    ensures var t := Cases(a, next, ps, mode, steps, sum, n).tree;
      |t.cases| == n && t.name == At(a, steps).name && t.sum == sum
    decreases n
  {
    if n > 0 { CasesLength(a, next, ps, mode, steps, sum, n - 1); }
  }

  /** For every value of the right type and every outcome of the guards, the tree does what trying the
      patterns in order does; a total match always selects one. */
  lemma {:induction false} CompileSelects(a: Pat, next: nat, ps: seq<Ref>, mode: Mode, v: Value, env: map<int, Value>,
                                          g: Guards)
    requires Ready(a, ps) && Compile(a, next, ps, mode).Built? && EnvFor(a, v, env) && Below(a, next) && AllFit(v, ps)
    ensures Run(Compile(a, next, ps, mode).tree, env, g) == Select(v, g, ps, mode)
    ensures mode.Total? ==> Select(v, g, ps, mode).Selected?
    decreases Weight(a, ps), 2
  {
    if ps == [] {
      RebuildIs(a, v, env);
    } else {
      match FindMismatch(a, ps[0].tree) {
        case NoPath =>
          FillBinds(a, ps[0].tree, v, env);
          if ps[0].guard {
            CompileSelects(a, next, Tail(ps), mode, v, env, g);
          }
        case Path(steps) =>
          MismatchSplits(a, ps);
          SwitchSelects(a, next, ps, mode, v, env, g, steps, At(ps[0].tree, steps).sum);
      }
    }
  }

  lemma {:induction false} Scrutinized(a: Pat, p: Pat, v: Value, env: map<int, Value>, steps: Steps)
    requires EnvFor(a, v, env) && Refines(a, p) && Fits(v, p) && Leads(a, steps) && Leads(p, steps) && At(a, steps).Any?
    requires At(p, steps).Con?
    ensures var u, sum, x := Sub(v, steps), At(p, steps).sum, At(a, steps).name;
      x in env && env[x] == u && u.Data? && u.sum == sum && u.cons < |sum.arities| && |u.fields| == sum.arities[u.cons]
  {
    EnvMatches(a, v, env);
    FitsAt(v, a, p, steps);
    EnvAt(a, v, env, steps);
  }

  lemma {:induction false} SwitchRuns(t: Tree, env: map<int, Value>, g: Guards, u: Value)
    requires t.Switch? && t.name in env && env[t.name] == u && u.Data? && u.sum == t.sum && u.cons < |t.cases|
    ensures Run(t, env, g) == Run(t.cases[u.cons].body, Named(env, t.cases[u.cons].first, u.fields), g)
  {
  }

  lemma {:induction false} SwitchSelects(a: Pat, next: nat, ps: seq<Ref>, mode: Mode, v: Value, env: map<int, Value>,
                                         g: Guards,
                                         steps: Steps, sum: Sum)
    requires Ready(a, ps) && ps != [] && Splits(a, ps, steps, sum) && At(ps[0].tree, steps).Con?
    requires Cases(a, next, ps, mode, steps, sum, |sum.arities|).Built? && EnvFor(a, v, env) && Below(a, next)
    requires AllFit(v, ps)
    ensures Run(Cases(a, next, ps, mode, steps, sum, |sum.arities|).tree, env, g) == Select(v, g, ps, mode)
    ensures mode.Total? ==> Select(v, g, ps, mode).Selected?
    decreases Weight(a, ps), 1
  {
    Scrutinized(a, ps[0].tree, v, env, steps);
    var u, t := Sub(v, steps), Cases(a, next, ps, mode, steps, sum, |sum.arities|).tree;
    var first := CaseIs(a, next, ps, mode, steps, sum, |sum.arities|, u.cons, t);
    SwitchRuns(t, env, g, u);
    CaseSelects(a, next, ps, mode, v, env, g, steps, sum, u, first, t.cases[u.cons], Named(env, first, u.fields));
  }

  lemma {:induction false} CaseSelects(a: Pat, next: nat, ps: seq<Ref>, mode: Mode, v: Value, env: map<int, Value>,
                                       g: Guards,
                                       steps: Steps, sum: Sum, u: Value, first: nat, kase: Case, env': map<int, Value>)
    requires Ready(a, ps) && ps != [] && Splits(a, ps, steps, sum) && At(ps[0].tree, steps).Con?
    requires EnvFor(a, v, env) && Below(a, next) && next <= first && AllFit(v, ps)
    requires u == Sub(v, steps) && u.Data? && u.sum == sum && u.cons < |sum.arities|
    requires |u.fields| == sum.arities[u.cons]
    requires IsCase(a, ps, mode, steps, sum, u.cons, first, kase) && env' == Named(env, first, u.fields)
    ensures Run(kase.body, env', g) == Select(v, g, ps, mode)
    ensures mode.Total? ==> Select(v, g, ps, mode).Selected?
    decreases Weight(a, ps), 0
  {
    var a', next', b := Refined(a, steps, sum, u.cons, first), first + |u.fields|, Bucket(ps, steps, sum, u.cons);
    CaseEntered(a, next, ps, mode, v, env, g, steps, sum, u, first, a', next', b, env');
    BucketStep(a, ps, steps, sum, u.cons, first, a', b);
    CompileSelects(a', next', b, mode, v, env', g);
  }

  lemma {:induction false} CaseEntered(a: Pat, next: nat, ps: seq<Ref>, mode: Mode, v: Value, env: map<int, Value>,
                                       g: Guards,
                                       steps: Steps, sum: Sum, u: Value, first: nat,
                                       a': Pat, next': nat, b: seq<Ref>, env': map<int, Value>)
    requires Ready(a, ps) && ps != [] && Splits(a, ps, steps, sum) && At(ps[0].tree, steps).Con?
    requires EnvFor(a, v, env) && Below(a, next) && next <= first && AllFit(v, ps)
    requires u == Sub(v, steps) && u.Data? && u.sum == sum && u.cons < |sum.arities|
    requires |u.fields| == sum.arities[u.cons]
    requires a' == Refined(a, steps, sum, u.cons, first) && next' == first + |u.fields|
    requires b == Bucket(ps, steps, sum, u.cons)
    requires env' == Named(env, first, u.fields)
    ensures EnvFor(a', v, env') && Below(a', next') && AllFit(v, b) && Select(v, g, b, mode) == Select(v, g, ps, mode)
  {
    BranchEnv(a, v, env, steps, sum, next, first);
    BucketSelects(v, g, a, ps, mode, steps, sum, u.cons);
  }

  // ------------------------------------------------------------------ missing patterns

  lemma {:induction false} RefinesTrans(a: Pat, b: Pat, c: Pat)
    requires Refines(a, b) && Refines(b, c)
    ensures Refines(a, c)
    decreases a
  {
    if a.Con? {
      forall i | 0 <= i < |a.children| ensures Refines(a.children[i], c.children[i]) {
        RefinesTrans(a.children[i], b.children[i], c.children[i]);
      }
    }
  }

  lemma {:induction false} RefinesMatches(a: Pat, b: Pat, v: Value)
    requires Refines(a, b) && Matches(v, b)
    ensures Matches(v, a)
    decreases a
  {
    if a.Con? {
      forall i | 0 <= i < |a.children| ensures Matches(v.fields[i], a.children[i]) {
        RefinesMatches(a.children[i], b.children[i], v.fields[i]);
      }
    }
  }

  /** No pattern without a guard matches the value. */
  predicate Missed(v: Value, ps: seq<Ref>) {
    forall i :: 0 <= i < |ps| ==> Matches(v, ps[i].tree) ==> ps[i].guard
  }

  lemma {:induction false} MissedConcat(v: Value, b: seq<Ref>, q: seq<Ref>, all: seq<Ref>)
    requires all == b + q
    ensures (Missed(v, all) <==> Missed(v, b) && Missed(v, q)) && (AllFit(v, all) <==> AllFit(v, b) && AllFit(v, q))
  {
    assert forall i :: 0 <= i < |b| ==> all[i] == b[i];
    assert forall i :: 0 <= i < |q| ==> all[|b| + i] == q[i];
  }

  lemma {:induction false} BucketMissed(v: Value, a: Pat, ps: seq<Ref>, steps: Steps, sum: Sum, c: nat)
    requires Ready(a, ps) && Splits(a, ps, steps, sum) && c < |sum.arities| && AllFit(v, ps)
    requires var u := Sub(v, steps); u.Data? && u.sum == sum && u.cons == c && |u.fields| == sum.arities[c]
    ensures AllFit(v, Bucket(ps, steps, sum, c)) && (Missed(v, Bucket(ps, steps, sum, c)) ==> Missed(v, ps))
    decreases |ps|
  {
    if ps != [] {
      var p, rest := ps[0], Tail(ps);
      assert ps == [p] + rest;
      BucketMissed(v, a, rest, steps, sum, c);
      ChosenAgrees(v, p, steps, sum, c);
      MissedConcat(v, Chosen(p, steps, sum, c), Bucket(rest, steps, sum, c), Bucket(ps, steps, sum, c));
      MissedConcat(v, [p], rest, ps);
      ChosenMissed(v, p, Chosen(p, steps, sum, c));
    }
  }

  lemma {:induction false} ChosenMissed(v: Value, p: Ref, q: seq<Ref>)
    requires q == [] ==> !Matches(v, p.tree)
    requires q != [] ==>
      && q == [q[0]] && q[0].guard == p.guard
      && (Matches(v, p.tree) <==> Matches(v, q[0].tree)) && Fits(v, q[0].tree)
    ensures AllFit(v, q) && (Missed(v, q) ==> Missed(v, [p]))
  {
  }

  /** The shape reported missing has the prototype's detail. */
  lemma {:induction false} MissingRefines(a: Pat, next: nat, ps: seq<Ref>, mode: Mode)
    requires Ready(a, ps) && Compile(a, next, ps, mode).Missing?
    ensures Refines(a, Compile(a, next, ps, mode).shape)
    decreases Weight(a, ps), 1, 0
  {
    if ps == [] {
      RefinesSelf(a);
    } else {
      match FindMismatch(a, ps[0].tree) {
        case NoPath => MissingRefines(a, next, Tail(ps), mode);
        case Path(steps) => MismatchSplits(a, ps); MissingCaseRefines(a, next, ps, mode, steps,
                  At(ps[0].tree, steps).sum);
      }
    }
  }

  lemma {:induction false} MissingCaseRefines(a: Pat, next: nat, ps: seq<Ref>, mode: Mode, steps: Steps, sum: Sum)
    requires Ready(a, ps) && Splits(a, ps, steps, sum) && ps != [] && At(ps[0].tree, steps).Con?
    requires Cases(a, next, ps, mode, steps, sum, |sum.arities|).Missing?
    ensures Refines(a, Cases(a, next, ps, mode, steps, sum, |sum.arities|).shape)
    decreases Weight(a, ps), 0, 0
  {
    var x := Cases(a, next, ps, mode, steps, sum, |sum.arities|);
    var c, first := MissingCase(a, next, ps, mode, steps, sum, |sum.arities|, x);
    var a', b := Refined(a, steps, sum, c, first), Bucket(ps, steps, sum, c);
    BucketStep(a, ps, steps, sum, c, first, a', b);
    MissingRefines(a', first + sum.arities[c], b, mode);
    RefinesRefined(a, steps, sum, c, first);
    RefinesTrans(a, a', x.shape);
  }

  lemma {:induction false} RefinesSelf(a: Pat)
    ensures Refines(a, a)
    decreases a
  {
    if a.Con? {
      forall i | 0 <= i < |a.children| ensures Refines(a.children[i], a.children[i]) { RefinesSelf(a.children[i]); }
    }
  }

  lemma {:induction false} RefinesRefined(a: Pat, steps: Steps, sum: Sum, c: nat, first: nat)
    requires Leads(a, steps) && At(a, steps).Any? && c < |sum.arities|
    ensures Refines(a, Refined(a, steps, sum, c, first))
  {
    RefinesSelf(a);
    PutAt(a, steps);
    RefinesPut(a, a, steps, At(a, steps), Con(At(a, steps).name, sum, c, Names(first, sum.arities[c])));
  }

  /** A missing shape comes from the bucket of one constructor. */
  predicate FromCase(a: Pat, ps: seq<Ref>, mode: Mode, steps: Steps, sum: Sum, c: nat, first: nat, r: Compiled)
    requires Leads(a, steps) && At(a, steps).Any? && c < |sum.arities|
    requires forall i :: 0 <= i < |ps| ==> Leads(ps[i].tree, steps)
  {
    && Ready(Refined(a, steps, sum, c, first), Bucket(ps, steps, sum, c))
    && r == Compile(Refined(a, steps, sum, c, first), first + sum.arities[c], Bucket(ps, steps, sum, c), mode)
  }

  lemma {:induction false} MissingCase(a: Pat, next: nat, ps: seq<Ref>, mode: Mode, steps: Steps, sum: Sum, n: nat,
                                       x: Compiled) returns (c: nat, first: nat)
    requires Ready(a, ps) && Splits(a, ps, steps, sum) && ps != [] && At(ps[0].tree, steps).Con? && n <= |sum.arities|
    requires x == Cases(a, next, ps, mode, steps, sum, n) && x.Missing?
    ensures c < n && next <= first && FromCase(a, ps, mode, steps, sum, c, first, x)
    decreases n
  {
    var d := n - 1;
    var r := Cases(a, next, ps, mode, steps, sum, d);
    if r.Built? {
      c, first := d, r.next;
      CasesNext(a, next, ps, mode, steps, sum, n, d, r, Refined(a, steps, sum, d, r.next), r.next + sum.arities[d],
                Bucket(ps, steps, sum, d));
    } else {
      c, first := MissingCase(a, next, ps, mode, steps, sum, d, x);
    }
  }

  /** If a shape is reported missing, no value of that shape matches any unguarded pattern. */
  lemma {:induction false} MissingIsMissed(a: Pat, next: nat, ps: seq<Ref>, mode: Mode, v: Value)
    requires Ready(a, ps) && Compile(a, next, ps, mode).Missing? && Matches(v, Compile(a, next, ps, mode).shape)
    requires AllFit(v, ps)
    ensures mode.Total? && Missed(v, ps)
    decreases Weight(a, ps), 1
  {
    if ps != [] {
      match FindMismatch(a, ps[0].tree) {
        case NoPath =>
          MissingIsMissed(a, next, Tail(ps), mode, v);
          assert ps == [ps[0]] + Tail(ps);
          MissedConcat(v, [ps[0]], Tail(ps), ps);
        case Path(steps) =>
          MismatchSplits(a, ps);
          MissingInCases(a, next, ps, mode, v, steps, At(ps[0].tree, steps).sum);
      }
    }
  }

  lemma {:induction false} MissingInCases(a: Pat, next: nat, ps: seq<Ref>, mode: Mode, v: Value, steps: Steps, sum: Sum)
    requires Ready(a, ps) && ps != [] && Splits(a, ps, steps, sum) && At(ps[0].tree, steps).Con? && AllFit(v, ps)
    requires var r := Cases(a, next, ps, mode, steps, sum, |sum.arities|); r.Missing? && Matches(v, r.shape)
    ensures mode.Total? && Missed(v, ps)
    decreases Weight(a, ps), 0
  {
    var c, first := MissingCase(a, next, ps, mode, steps, sum, |sum.arities|,
                                Cases(a, next, ps, mode, steps, sum, |sum.arities|));
    var a', b := Refined(a, steps, sum, c, first), Bucket(ps, steps, sum, c);
    BucketStep(a, ps, steps, sum, c, first, a', b);
    MissingBranch(a, next, ps, mode, v, steps, sum, c, first);
    MissingIsMissed(a', first + sum.arities[c], b, mode, v);
  }

  lemma {:induction false} MissingBranch(a: Pat, next: nat, ps: seq<Ref>, mode: Mode, v: Value, steps: Steps, sum: Sum,
                                         c: nat, first: nat)
    requires Ready(a, ps) && Splits(a, ps, steps, sum) && c < |sum.arities| && AllFit(v, ps)
    requires Ready(Refined(a, steps, sum, c, first), Bucket(ps, steps, sum, c))
    requires var r := Compile(Refined(a, steps, sum, c, first), first + sum.arities[c], Bucket(ps, steps, sum, c),
                              mode);
      r.Missing? && Matches(v, r.shape)
    ensures AllFit(v, Bucket(ps, steps, sum, c)) && (Missed(v, Bucket(ps, steps, sum, c)) ==> Missed(v, ps))
  {
    var a', b := Refined(a, steps, sum, c, first), Bucket(ps, steps, sum, c);
    MissingRefines(a', first + sum.arities[c], b, mode);
    RefinesMatches(a', Compile(a', first + sum.arities[c], b, mode).shape, v);
    RefinedAt(a, steps, sum, c, first);
    MatchesAt(v, a', steps);
    BucketMissed(v, a, ps, steps, sum, c);
  }

  lemma {:induction false} PutLeads(a: Pat, steps: Steps, x: Pat)
    requires Leads(a, steps)
    ensures Leads(Put(a, steps, x), steps) && At(Put(a, steps, x), steps) == x
    decreases steps
  {
    if steps.Down? { PutLeads(a.children[steps.head], steps.tail, x); }
  }

  lemma {:induction false} RefinedAt(a: Pat, steps: Steps, sum: Sum, c: nat, first: nat)
    requires Leads(a, steps) && c < |sum.arities|
    ensures var r := Refined(a, steps, sum, c, first);
      && Leads(r, steps) && At(r, steps).Con? && At(r, steps).sum == sum
      && At(r, steps).cons == c && |At(r, steps).children| == sum.arities[c]
  {
    PutLeads(a, steps, Con(At(a, steps).name, sum, c, Names(first, sum.arities[c])));
  }

  // -------------------------------------------------------------------- unused patterns

  /** Stands for the prototype, where patterns have their index. */
  const PROTOTYPE: int := -1

  /** How often a tree selects a pattern, or falls through to the prototype: the uses count. */
  function Uses(t: Tree, index: int): nat
    decreases t, 0
  {
    match t
    case Switch(_, _, cases) => CaseUses(cases, index)
    case Leaf(i, _) => if i == index then 1 else 0
    case Guarded(i, _, otherwise) => (if i == index then 1 else 0) + Uses(otherwise, index)
    case Identity(_) => if index == PROTOTYPE then 1 else 0
    case Else => if index == PROTOTYPE then 1 else 0
  }

  function CaseUses(cases: seq<Case>, index: int): nat
    decreases cases, 1
  {
    if cases == [] then 0 else
    var last := cases[|cases| - 1];
    assert last.body < last;
    CaseUses(cases[..|cases| - 1], index) + Uses(last.body, index)
  }

  lemma {:induction false} CaseUsesAt(cases: seq<Case>, index: int, c: nat)
    requires c < |cases|
    ensures Uses(cases[c].body, index) <= CaseUses(cases, index)
    decreases |cases|
  {
    if c < |cases| - 1 { CaseUsesAt(cases[..|cases| - 1], index, c); }
  }

  /** The pattern an outcome uses. */
  function UsedBy(o: Outcome): int {
    if o.Selected? then o.index else PROTOTYPE
  }

  /** A pattern with no uses is never selected; a prototype with none is never fallen through to. */
  lemma {:induction false} UnusedNeverSelected(t: Tree, env: map<int, Value>, g: Guards)
    requires !Run(t, env, g).Unmatched?
    ensures Uses(t, UsedBy(Run(t, env, g))) > 0
    decreases t
  {
    match t {
      case Switch(x, _, cases) =>
        var c := env[x].cons;
        UnusedNeverSelected(cases[c].body, Named(env, cases[c].first, env[x].fields), g);
        CaseUsesAt(cases, UsedBy(Run(t, env, g)), c);
      case Leaf(_, _) =>
      case Guarded(index, args, otherwise) =>
        if !g(index, Values(env, args)) { UnusedNeverSelected(otherwise, env, g); }
      case Identity(_) =>
      case Else =>
    }
  }

  /** A compiled match uses only its own patterns. */
  predicate Lists(ps: seq<Ref>, index: int) {
    exists i :: 0 <= i < |ps| && ps[i].index == index
  }

  lemma {:induction false} BucketLists(ps: seq<Ref>, steps: Steps, sum: Sum, c: nat, index: int)
    requires c < |sum.arities| && (forall i :: 0 <= i < |ps| ==> Leads(ps[i].tree, steps))
    requires Lists(Bucket(ps, steps, sum, c), index)
    ensures Lists(ps, index)
    decreases |ps|
  {
    if ps != [] {
      var q, b := Chosen(ps[0], steps, sum, c), Bucket(Tail(ps), steps, sum, c);
      var all: seq<Ref> := Bucket(ps, steps, sum, c);
      var i :| 0 <= i < |all| && all[i].index == index;
      assert all == q + b;
      if i < |q| {
        assert ps[0].index == index;
      } else {
        assert b[i - |q|].index == index;
        BucketLists(Tail(ps), steps, sum, c, index);
        var j :| 0 <= j < |Tail(ps)| && Tail(ps)[j].index == index;
        assert ps[j + 1].index == index;
      }
    }
  }

  lemma {:induction false} UsesOnlyListed(a: Pat, next: nat, ps: seq<Ref>, mode: Mode, index: int)
    requires Ready(a, ps) && Compile(a, next, ps, mode).Built? && index != PROTOTYPE && !Lists(ps, index)
    ensures Uses(Compile(a, next, ps, mode).tree, index) == 0
    decreases Weight(a, ps), 1, 0
  {
    if ps != [] {
      assert ps[0].index != index;
      match FindMismatch(a, ps[0].tree) {
        case NoPath =>
          if ps[0].guard {
            UsesOnlyListed(a, next, Tail(ps), mode, index);
          }
        case Path(steps) =>
          MismatchSplits(a, ps);
          var sum := At(ps[0].tree, steps).sum;
          CasesUseOnlyListed(a, next, ps, mode, steps, sum, |sum.arities|, index);
      }
    }
  }

  lemma {:induction false} CasesUseOnlyListed(a: Pat, next: nat, ps: seq<Ref>, mode: Mode, steps: Steps, sum: Sum,
                                              n: nat, index: int)
    requires Ready(a, ps) && Splits(a, ps, steps, sum) && ps != [] && At(ps[0].tree, steps).Con? && n <= |sum.arities|
    requires Cases(a, next, ps, mode, steps, sum, n).Built? && index != PROTOTYPE && !Lists(ps, index)
    ensures Uses(Cases(a, next, ps, mode, steps, sum, n).tree, index) == 0
    decreases Weight(a, ps), 0, n
  {
    if n > 0 {
      var c := n - 1;
      var r := Cases(a, next, ps, mode, steps, sum, c);
      var a', b := Refined(a, steps, sum, c, r.next), Bucket(ps, steps, sum, c);
      var next' := r.next + sum.arities[c];
      CasesNext(a, next, ps, mode, steps, sum, n, c, r, a', next', b);
      CasesUseOnlyListed(a, next, ps, mode, steps, sum, c, index);
      if Lists(b, index) { BucketLists(ps, steps, sum, c, index); }
      UsesOnlyListed(a', next', b, mode, index);
      UsesSnoc(r.tree, Case(r.next, Compile(a', next', b, mode).tree), index);
    }
  }

  lemma {:induction false} UsesSnoc(t: Tree, c: Case, index: int)
    requires t.Switch?
    ensures Uses(t.(cases := t.cases + [c]), index) == Uses(t, index) + Uses(c.body, index)
  {
    assert (t.cases + [c])[..|t.cases|] == t.cases;
  }
}
