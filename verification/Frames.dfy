/** Run-time frames: closures that gather arguments frame by frame, the frame a full
    application builds, and the walk that finds a depth and offset in it.
 */
module Frames {
  import opened ScopePass
  import opened Sequences

  datatype Option<V> = None | Some(value: V)

  /** A chain of frames.  A slot is empty until its term has run. */
  datatype Scope<V> = Null | Scope(slots: seq<Option<V>>, next: Scope<V>)

  /** A function of `fargs` parameters and `size` terms, with `applied` arguments in frames
      on top of the scope it was made in. */
  datatype Closure<V> = Closure(fargs: nat, size: nat, applied: nat, scope: Scope<V>)

  datatype Applied<V> = Partial(closure: Closure<V>) | Called(frame: Scope<V>)

  // --------------------------------------------------------------------- looking up

  function Out<V>(it: Scope<V>, depth: nat): Scope<V> {
    if depth == 0 || it.Null? then it else Out(it.next, depth - 1)
  }

  function Slot<V>(it: Scope<V>, offset: nat): Option<V> {
    if it.Scope? && offset < |it.slots| then it.slots[offset] else None
  }

  function Find<V>(it: Scope<V>, arg: nat): Option<V> {
    Slot(Out(it, ArgDepth(arg)), ArgOffset(arg))
  }

  /** InterpretContext::arg */
  method Arg<V>(it: Scope<V>, arg: nat) returns (v: Option<V>)
    ensures v == Find(it, arg)
  {
    var at, depth := it, ArgDepth(arg);
    while depth > 0 && at.Scope?
      invariant Out(at, depth) == Out(it, ArgDepth(arg))
    {
      at, depth := at.next, depth - 1;
    }
    v := Slot(at, ArgOffset(arg));
  }

  /** The frames hold a flat environment.  The whole program's own index, 0, is in no frame. */
  predicate Holds<V(==)>(it: Scope<V>, starts: seq<nat>, env: seq<V>)
    requires ScopePass.Frames(starts)
    decreases |starts|
  {
    var z := |starts| - 1;
    if z == 0 then it.Null? else
    && it.Scope? && starts[z] <= |env|
    && (forall x :: starts[z] <= x < |env| ==> Slot(it, x - starts[z]) == Some(env[x]))
    && Holds(it.next, starts[..z], env[..starts[z]])
  }

  /** The walk finds the binding the flat index named, and only the program itself is not to be found. */
  lemma {:induction false} WalkFinds<V>(it: Scope<V>, starts: seq<nat>, env: seq<V>, x: nat)
    requires ScopePass.Frames(starts) && Holds(it, starts, env) && x < |env| && |starts| <= DEPTHS
    ensures Find(it, Place(starts, x)) == if |starts| > 1 && x >= starts[1] then Some(env[x]) else None
    decreases |starts|
  {
    var d := Depth(starts, x);
    ArgRoundTrip(d, x - starts[|starts| - 1 - d]);
    OutFinds(it, starts, env, x);
  }

  lemma {:induction false} OutFinds<V>(it: Scope<V>, starts: seq<nat>, env: seq<V>, x: nat)
    requires ScopePass.Frames(starts) && Holds(it, starts, env) && x < |env|
    ensures var d := Depth(starts, x);
      Slot(Out(it, d), x - starts[|starts| - 1 - d]) == if |starts| > 1 && x >= starts[1] then Some(env[x]) else None
    decreases |starts|
  {
    var z := |starts| - 1;
    if z > 0 { FirstIsLowest(it, starts, env); }
    if z > 0 && x < starts[z] {
      OutFinds(it.next, starts[..z], env[..starts[z]], x);
    }
  }

  lemma {:induction false} FirstIsLowest<V>(it: Scope<V>, starts: seq<nat>, env: seq<V>)
    requires ScopePass.Frames(starts) && Holds(it, starts, env) && |starts| > 1
    ensures starts[1] <= starts[|starts| - 1]
    decreases |starts|
  {
    var z := |starts| - 1;
    if z > 1 { FirstIsLowest(it.next, starts[..z], env[..starts[z]]); }
  }

  // ---------------------------------------------------------- partial application

  /** The topmost frames hold `pop` arguments between them. */
  predicate Layered<V>(it: Scope<V>, pop: nat) {
    pop == 0 || (it.Scope? && 0 < |it.slots| <= pop && Layered(it.next, pop - |it.slots|))
  }

  /** The scope under those frames. */
  function Captured<V>(it: Scope<V>, pop: nat): Scope<V>
    requires Layered(it, pop)
  {
    if pop == 0 then it else Captured(it.next, pop - |it.slots|)
  }

  /** Their arguments, first applied first. */
  function Prior<V>(it: Scope<V>, pop: nat): (r: seq<Option<V>>)
    requires Layered(it, pop)
    ensures |r| == pop
  {
    if pop == 0 then [] else Prior(it.next, pop - |it.slots|) + it.slots
  }

  function Filled<V>(vs: seq<V>): (r: seq<Option<V>>)
    ensures |r| == |vs| && forall i :: 0 <= i < |vs| ==> r[i] == Some(vs[i])
  {
    seq(|vs|, i requires 0 <= i < |vs| => Some(vs[i]))
  }

  function Empty<V>(n: nat): (r: seq<Option<V>>)
    ensures |r| == n && forall i :: 0 <= i < n ==> r[i] == None
  {
    seq(n, _ => None)
  }

  /** The frame of a call: the arguments, then a slot for every other term. */
  function CallFrame<V>(size: nat, args: seq<Option<V>>, captured: Scope<V>): Scope<V>
    requires |args| <= size
  {
    Scope(args + Empty(size - |args|), captured)
  }

  predicate Sound<V>(clo: Closure<V>) {
    clo.fargs <= clo.size && Layered(clo.scope, clo.applied)
  }

  function Extended<V>(clo: Closure<V>, args: seq<V>): Closure<V> {
    clo.(applied := clo.applied + |args|, scope := Scope(Filled(args), clo.scope))
  }

  function ApplyTo<V>(clo: Closure<V>, args: seq<V>): Applied<V>
    requires Sound(clo)
  {
    if clo.applied + |args| == clo.fargs
    then Called(CallFrame(clo.size, Prior(clo.scope, clo.applied) + Filled(args), Captured(clo.scope, clo.applied)))
    else Partial(Extended(clo, args))
  }

  /** CApp::doit, on arguments already looked up. */
  method Apply<V>(clo: Closure<V>, args: seq<V>) returns (r: Applied<V>)
    requires Sound(clo)
    ensures r == ApplyTo(clo, args)
  {
    var applied, n := clo.applied, |args|;
    if applied + n == clo.fargs {
      var it := Skip(clo.scope, applied);
      var bind := new Option<V>[clo.size](_ => None);
      for i := 0 to n
        invariant forall j :: 0 <= j < clo.size ==>
          bind[j] == if applied <= j < applied + i then Some(args[j - applied]) else None
      {
        bind[applied + i] := Some(args[i]);
      }
      Forward(clo.scope, applied, bind);
      assert bind[..] == Prior(clo.scope, applied) + Filled(args) + Empty(clo.size - clo.fargs);
      r := Called(Scope(bind[..], it));
    } else {
      r := Partial(clo.(applied := applied + n, scope := Scope(Filled(args), clo.scope)));
    }
  }

  /** Skips over the partially applied arguments. */
  method Skip<V>(scope: Scope<V>, applied: nat) returns (it: Scope<V>)
    requires Layered(scope, applied)
    ensures it == Captured(scope, applied)
  {
    it := scope;
    var pop: nat := applied;
    while pop > 0
      invariant Layered(it, pop) && Captured(it, pop) == Captured(scope, applied)
    {
      pop, it := pop - |it.slots|, it.next;
    }
  }

  /** Forwards the partially applied arguments to the front of the new frame. */
  method Forward<V>(scope: Scope<V>, applied: nat, bind: array<Option<V>>)
    requires Layered(scope, applied) && applied <= bind.Length
    modifies bind
    ensures bind[..applied] == Prior(scope, applied) && bind[applied..] == old(bind[applied..])
  {
    var it, pop: nat := scope, applied;
    ghost var prior := Prior(scope, applied);
    while pop > 0
      invariant pop <= applied && Layered(it, pop) && prior[..pop] == Prior(it, pop)
      invariant forall j :: pop <= j < applied ==> bind[j] == prior[j]
      invariant forall j :: applied <= j < bind.Length ==> bind[j] == old(bind[j])
    {
      var size := |it.slots|;
      ghost var was := pop;
      pop := pop - size;
      for i := 0 to size
        invariant forall j :: pop <= j < pop + i ==> bind[j] == it.slots[j - pop]
        invariant forall j :: was <= j < applied ==> bind[j] == prior[j]
        invariant forall j :: applied <= j < bind.Length ==> bind[j] == old(bind[j])
      {
        bind[pop + i] := it.slots[i];
      }
      forall j | pop <= j < was ensures prior[j] == it.slots[j - pop] {
        assert prior[j] == prior[..was][j];
      }
      it := it.next;
    }
  }

  // ------------------------------------------------------------- any split will do

  function Concat<V>(lots: seq<seq<V>>): seq<V> {
    if lots == [] then [] else Concat(lots[..|lots| - 1]) + lots[|lots| - 1]
  }

  /** Arguments given in lots, one application after another. */
  function Feed<V>(clo: Closure<V>, lots: seq<seq<V>>): (r: Applied<V>)
    requires Sound(clo) && forall i :: 0 <= i < |lots| ==> lots[i] != []
    ensures r.Partial? ==> Sound(r.closure) && r.closure.fargs == clo.fargs
    decreases |lots|
  {
    if lots == [] then Partial(clo) else
    match Feed(clo, lots[..|lots| - 1])
    case Partial(c) => ApplyTo(c, lots[|lots| - 1])
    case Called(frame) => Called(frame)
  }

  lemma {:induction false} FeedPartly<V>(clo: Closure<V>, lots: seq<seq<V>>)
    requires Sound(clo) && clo.applied + |Concat(lots)| < clo.fargs && forall i :: 0 <= i < |lots| ==> lots[i] != []
    ensures var r := Feed(clo, lots);
      && r.Partial? && r.closure.size == clo.size && r.closure.fargs == clo.fargs
      && r.closure.applied == clo.applied + |Concat(lots)|
      && Captured(r.closure.scope, r.closure.applied) == Captured(clo.scope, clo.applied)
      && Prior(r.closure.scope, r.closure.applied) == Prior(clo.scope, clo.applied) + Filled(Concat(lots))
    decreases |lots|
  {
    if lots == [] {
      assert Prior(clo.scope, clo.applied) + Filled(Concat(lots)) == Prior(clo.scope, clo.applied);
    } else {
      var z := |lots| - 1;
      FeedPartly(clo, lots[..z]);
      var c := Feed(clo, lots[..z]).closure;
      var p, a := Prior(clo.scope, clo.applied), Filled(Concat(lots[..z]));
      assert (p + a) + Filled(lots[z]) == p + Filled(Concat(lots));
    }
  }

  /** However the arguments are split into lots, the call gets the same frame: the one
      a single application of all of them builds, over the scope the closure was made in. */
  lemma {:induction false} AnySplit<V>(clo: Closure<V>, lots: seq<seq<V>>)
    requires Sound(clo) && clo.applied + |Concat(lots)| == clo.fargs && lots != []
    requires forall i :: 0 <= i < |lots| ==> lots[i] != []
    ensures Feed(clo, lots) == ApplyTo(clo, Concat(lots))
  {
    var z := |lots| - 1;
    var init, last := lots[..z], lots[z];
    assert last != [] && Concat(lots) == Concat(init) + last;
    FeedPartly(clo, init);
    SameFrame(clo, Feed(clo, init).closure, Concat(init), last);
  }

  lemma {:induction false} SameFrame<V>(clo: Closure<V>, c: Closure<V>, init: seq<V>, last: seq<V>)
    requires Sound(clo) && Sound(c) && c.fargs == clo.fargs && c.size == clo.size && c.applied == clo.applied + |init|
    requires Captured(c.scope, c.applied) == Captured(clo.scope, clo.applied)
    requires Prior(c.scope, c.applied) == Prior(clo.scope, clo.applied) + Filled(init)
    requires c.applied + |last| == clo.fargs
    ensures ApplyTo(c, last) == ApplyTo(clo, init + last)
  {
    var p := Prior(clo.scope, clo.applied);
    assert (p + Filled(init)) + Filled(last) == p + Filled(init + last);
  }

  /** An application to no arguments at all would hide the captured scope behind an empty frame. */
  lemma {:induction false} EmptyLotHides<V>(clo: Closure<V>, args: seq<V>)
    requires Sound(clo) && clo.applied == 0
    ensures var e := Extended(clo, args); Sound(e) && (Captured(e.scope, e.applied) == clo.scope <==> args != [])
  {
    CapturedIsInner(Scope(Filled(args), clo.scope), |args|);
  }

  // ------------------------------------------------------- frames and environments

  /** A call's frame holds the environment of the function's body: what was around it, itself, its arguments. */
  lemma {:induction false} CallHolds<V>(captured: Scope<V>, starts: seq<nat>, env: seq<V>, self: V, size: nat,
                                        args: seq<V>)
    requires ScopePass.Frames(starts) && Holds(captured, starts, env + [self]) && |args| <= size
    ensures Holds(CallFrame(size, Filled(args), captured), Nested(starts, |env|), env + [self] + args)
  {
    var e, inner := env + [self] + args, Nested(starts, |env|);
    assert inner[..|starts|] == starts && e[..|env| + 1] == env + [self];
  }

  /** Running the next term fills the next slot. */
  lemma {:induction false} FillHolds<V>(it: Scope<V>, starts: seq<nat>, env: seq<V>, v: V)
    requires ScopePass.Frames(starts) && |starts| > 1 && Holds(it, starts, env)
    requires |env| - starts[|starts| - 1] < |it.slots|
    ensures Holds(it.(slots := it.slots[|env| - starts[|starts| - 1] := Some(v)]), starts, env + [v])
  {
    var s := starts[|starts| - 1];
    assert (env + [v])[..s] == env[..s];
  }

  /** The frame after the first n values of a body have been filled in, from slot `at` on. */
  function FillTo<V>(it: Scope<V>, at: nat, vs: seq<V>, n: nat): (r: Scope<V>)
    requires it.Scope? && n <= |vs| && at + |vs| <= |it.slots|
    ensures r.Scope? && r.next == it.next && |r.slots| == |it.slots|
  {
    if n == 0 then it else
    var r := FillTo(it, at, vs, n - 1);
    r.(slots := r.slots[at + n - 1 := Some(vs[n - 1])])
  }

  /** Running a body term by term keeps the frame in step with the environment. */
  lemma {:induction false} BodyHolds<V>(it: Scope<V>, starts: seq<nat>, env: seq<V>, at: nat, vs: seq<V>, n: nat)
    requires ScopePass.Frames(starts) && |starts| > 1 && Holds(it, starts, env) && it.Scope?
    requires at == |env| - starts[|starts| - 1] && n <= |vs| && at + |vs| <= |it.slots|
    ensures Holds(FillTo(it, at, vs, n), starts, env + vs[..n])
    decreases n
  {
    if n == 0 {
      assert env + vs[..0] == env;
    } else {
      BodyHolds(it, starts, env, at, vs, n - 1);
      FillHolds(FillTo(it, at, vs, n - 1), starts, env + vs[..n - 1], vs[n - 1]);
      assert env + vs[..n - 1] + [vs[n - 1]] == env + vs[..n];
    }
  }

  /** Whatever lots a function's arguments come in, every reference of its body, by depth and offset,
      finds what the flat index names. */
  lemma {:induction false} SplitFinds<V>(clo: Closure<V>, lots: seq<seq<V>>, starts: seq<nat>, env: seq<V>, self: V,
                                         x: nat)
    requires ScopePass.Frames(starts) && |starts| < DEPTHS && Holds(clo.scope, starts, env + [self])
    requires Sound(clo) && clo.applied == 0 && |Concat(lots)| == clo.fargs && lots != []
    requires forall i :: 0 <= i < |lots| ==> lots[i] != []
    requires x <= |env| + clo.fargs
    ensures var r, inner := Feed(clo, lots), Nested(starts, |env|);
      r.Called? && Find(r.frame, Place(inner, x)) == if x >= inner[1]
        then Some((env + [self] + Concat(lots))[x])
        else None
  {
    AnySplit(clo, lots);
    CallHolds(clo.scope, starts, env, self, clo.size, Concat(lots));
    assert Prior(clo.scope, 0) + Filled(Concat(lots)) == Filled(Concat(lots));
    WalkFinds(Feed(clo, lots).frame, Nested(starts, |env|), env + [self] + Concat(lots), x);
  }

  /** And so does every reference once some terms of the body have run: the n-th term finds its arguments,
      what is around the function, and the terms before it. */
  lemma {:induction false} BodyFinds<V>(clo: Closure<V>, lots: seq<seq<V>>, starts: seq<nat>, env: seq<V>, self: V,
                                        vs: seq<V>, n: nat, x: nat)
    requires ScopePass.Frames(starts) && |starts| < DEPTHS && Holds(clo.scope, starts, env + [self])
    requires Sound(clo) && clo.applied == 0 && |Concat(lots)| == clo.fargs && lots != []
    requires forall i :: 0 <= i < |lots| ==> lots[i] != []
    requires n <= |vs| && clo.fargs + |vs| <= clo.size && x <= |env| + clo.fargs + n
    ensures var r, inner := Feed(clo, lots), Nested(starts, |env|);
      && r.Called? && r.frame.Scope? && |r.frame.slots| == clo.size
      && Find(FillTo(r.frame, clo.fargs, vs, n), Place(inner, x)) ==
           if x >= inner[1] then Some((env + [self] + Concat(lots) + vs[..n])[x]) else None
  {
    var args, inner := Concat(lots), Nested(starts, |env|);
    AnySplit(clo, lots);
    CallHolds(clo.scope, starts, env, self, clo.size, args);
    assert Prior(clo.scope, 0) + Filled(args) == Filled(args);
    var frame := Feed(clo, lots).frame;
    BodyHolds(frame, inner, env + [self] + args, clo.fargs, vs, n);
    WalkFinds(FillTo(frame, clo.fargs, vs, n), inner, env + [self] + args + vs[..n], x);
  }

  // ------------------------------------------------------------------ one argument

  /** Runtime::claim_apply: a frame with its first slot filled. */
  function ClaimApply<V>(clo: Closure<V>, v: V): Scope<V>
    requires clo.size > 0
  {
    CallFrame(clo.size, [Some(v)], clo.scope)
  }

  lemma {:induction false} CapturedIsInner<V>(it: Scope<V>, pop: nat)
    requires Layered(it, pop)
    ensures pop > 0 ==> Captured(it, pop) < it
    decreases pop
  {
    if pop > 0 { CapturedIsInner(it.next, pop - |it.slots|); }
  }

  /** It does what an application to one argument does exactly for a function of one parameter
      that has none yet. */
  lemma {:induction false} ClaimApplyIs<V>(clo: Closure<V>, v: V)
    requires Sound(clo) && clo.size > 0
    ensures ApplyTo(clo, [v]) == Called(ClaimApply(clo, v)) <==> clo.fargs == 1 && clo.applied == 0
  {
    assert Filled([v]) == [Some(v)];
    CapturedIsInner(clo.scope, clo.applied);
    if clo.applied == 0 { assert Prior(clo.scope, 0) + Filled([v]) == [Some(v)]; }
  }

  /** Of a function of two parameters it runs the body with the second slot empty, where an application would
      wait for the second argument. */
  lemma {:induction false} ClaimLeavesHole<V>(clo: Closure<V>, v: V)
    requires Sound(clo) && clo.fargs == 2 && clo.applied == 0
    ensures ClaimApply(clo, v).Scope? && |ClaimApply(clo, v).slots| == clo.size && ClaimApply(clo, v).slots[1] == None
    ensures ApplyTo(clo, [v]).Partial?
  {
  }

  // ----------------------------------------------------- what a closure's hash covers

  function FindAll<V>(it: Scope<V>, args: seq<nat>): (r: seq<Option<V>>)
    ensures |r| == |args| && forall i :: 0 <= i < |args| ==> r[i] == Find(it, args[i])
  {
    seq(|args|, i requires 0 <= i < |args| => Find(it, args[i]))
  }

  /** Closure::explore_escape: the arguments so far, last first, then the captures. */
  method Explore<V>(clo: Closure<V>, escapes: seq<nat>) returns (found: seq<Option<V>>)
    requires Layered(clo.scope, clo.applied)
    ensures found == Reversed(Prior(clo.scope, clo.applied)) + FindAll(Captured(clo.scope, clo.applied), escapes)
  {
    found := [];
    var it, i: nat := clo.scope, 0;
    while i < clo.applied
      invariant i <= clo.applied && StillToExplore(clo, it, clo.applied - i, found)
    {
      ghost var before := found;
      for j := |it.slots| downto 0
        invariant found == before + Reversed(it.slots[j..])
      {
        found := found + [it.slots[j]];
      }
      assert it.slots[0..] == it.slots;
      ExploredNext(clo, it, clo.applied - i, before);
      i, it := i + |it.slots|, it.next;
    }
    found := ExploreCaptures(it, escapes, found);
  }

  method ExploreCaptures<V>(it: Scope<V>, escapes: seq<nat>, args: seq<Option<V>>) returns (found: seq<Option<V>>)
    ensures found == args + FindAll(it, escapes)
  {
    found := args;
    for k := 0 to |escapes|
      invariant found == args + FindAll(it, escapes[..k])
    {
      var v := Arg(it, escapes[k]);
      found := found + [v];
    }
    assert escapes[..|escapes|] == escapes;
  }

  /** What has been found, and what the frames from `it` on still hold, make up all the arguments. */
  ghost predicate StillToExplore<V>(clo: Closure<V>, it: Scope<V>, rest: nat, found: seq<Option<V>>)
    requires Layered(clo.scope, clo.applied)
  {
    && Layered(it, rest) && Captured(it, rest) == Captured(clo.scope, clo.applied)
    && found + Reversed(Prior(it, rest)) == Reversed(Prior(clo.scope, clo.applied))
  }

  lemma {:induction false} ExploredNext<V>(clo: Closure<V>, it: Scope<V>, rest: nat, found: seq<Option<V>>)
    requires Layered(clo.scope, clo.applied) && rest > 0 && StillToExplore(clo, it, rest, found)
    ensures |it.slots| <= rest && StillToExplore(clo, it.next, rest - |it.slots|, found + Reversed(it.slots))
  {
    var inner := Prior(it.next, rest - |it.slots|);
    ReversedCat(inner, it.slots);
    assert (found + Reversed(it.slots)) + Reversed(inner) == found + (Reversed(it.slots) + Reversed(inner));
  }

  /** The captures explored are the values of the escapes, whatever has been applied since. */
  lemma {:induction false} EscapesFound<V>(clo: Closure<V>, starts: seq<nat>, env: seq<V>, xs: seq<nat>, i: nat)
    requires ScopePass.Frames(starts) && 1 < |starts| <= DEPTHS && Layered(clo.scope, clo.applied)
    requires Holds(Captured(clo.scope, clo.applied), starts, env)
    requires i < |xs| && starts[1] <= xs[i] < |env|
    ensures FindAll(Captured(clo.scope, clo.applied), PlaceAll(starts, xs))[i] == Some(env[xs[i]])
  {
    WalkFinds(Captured(clo.scope, clo.applied), starts, env, xs[i]);
  }
}
