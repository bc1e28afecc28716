/** Operations on sequences that several modules share. */
module Sequences {
  /** All but the first. */
  function Tail<T>(s: seq<T>): (r: seq<T>)
    requires s != []
    ensures |r| == |s| - 1 && forall i :: 0 <= i < |r| ==> r[i] == s[i + 1]
  {
    seq(|s| - 1, i requires 0 <= i < |s| - 1 => s[i + 1])
  }

  lemma {:induction false} TailSnoc<T>(s: seq<T>, x: T, s': seq<T>)
    requires s != [] && s' == s + [x]
    ensures Tail(s') == Tail(s) + [x]
  {
  }

  lemma {:induction false} TailCons<T>(x: T, s: seq<T>, s': seq<T>)
    requires s' == [x] + s
    ensures Tail(s') == s
  {
  }

  lemma {:induction false} TailCat<T>(s: seq<T>, t: seq<T>, u: seq<T>)
    requires s != [] && u == s + t
    ensures Tail(u) == Tail(s) + t
  {
  }

  /** The second element taken out. */
  function WithoutSecond<T>(s: seq<T>): (r: seq<T>)
    requires |s| > 1
    ensures |r| == |s| - 1 && forall i :: 0 <= i < |r| ==> r[i] == if i == 0 then s[0] else s[i + 1]
  {
    seq(|s| - 1, i requires 0 <= i < |s| - 1 => if i == 0 then s[0] else s[i + 1])
  }

  function WithSecond<T>(s: seq<T>, x: T): (r: seq<T>)
    requires s != []
    ensures |r| == |s| + 1
    ensures forall i :: 0 <= i < |r| ==> r[i] == if i == 0 then s[0] else if i == 1 then x else s[i - 1]
  {
    seq(|s| + 1, i requires 0 <= i < |s| + 1 => if i == 0 then s[0] else if i == 1 then x else s[i - 1])
  }

  function Reversed<T>(s: seq<T>): (r: seq<T>)
    ensures |r| == |s| && forall i :: 0 <= i < |s| ==> r[i] == s[|s| - 1 - i]
  {
    seq(|s|, i requires 0 <= i < |s| => s[|s| - 1 - i])
  }

  lemma {:induction false} InReversed<T>(s: seq<T>, x: T)
    ensures x in s <==> x in Reversed(s)
  {
    if x in s {
      var i :| 0 <= i < |s| && s[i] == x;
      assert Reversed(s)[|s| - 1 - i] == x;
    }
  }

  lemma {:induction false} ReversedCat<T>(a: seq<T>, b: seq<T>)
    ensures Reversed(a + b) == Reversed(b) + Reversed(a)
  {
  }

  predicate Distinct<T(==)>(s: seq<T>) {
    forall i, j :: 0 <= i < j < |s| ==> s[i] != s[j]
  }

  lemma {:induction false} Halves<T>(s: seq<T>, a: nat, front: seq<T>, rest: seq<T>)
    requires a <= |s| && front == s[..a] && rest == s[a..]
    ensures s == front + rest
  {
  }
}
