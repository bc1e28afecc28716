/** The rewriter every pass streams its terms through: a growing target scope and
    the map from source indices to target indices.
 */
module TermStreams {
  import opened Ssa

  const INVALID: nat := 0xFFFF_FFFF_FFFF_FFFF

  /** SourceMap::operator[]: where a source index went; -1 marks a discarded one. */
  function Look(map_: seq<int>, x: nat): nat {
    if x < |map_| && map_[x] >= 0 then map_[x] else INVALID
  }

  function LookAll(map_: seq<int>, args: seq<nat>): (r: seq<nat>)
    ensures |r| == |args| && forall i :: 0 <= i < |args| ==> r[i] == Look(map_, args[i])
  {
    seq(|args|, i requires 0 <= i < |args| => Look(map_, args[i]))
  }

  datatype CheckPoint = CheckPoint(target: nat, source: nat)

  class TermStream {
    var scope: seq<Term>
    var map_: seq<int>

    constructor ()
      ensures scope == [] && map_ == []
    {
      scope, map_ := [], [];
    }

    /** The next source term becomes the next target term. */
    method Transfer(t: Term) returns (at: nat)
      modifies this
      ensures at == |old(scope)| && scope == old(scope) + [t] && map_ == old(map_) + [at]
    {
      at := |scope|;
      scope, map_ := scope + [t], map_ + [at];
    }

    /** The next source term is already in the target, at index `at`. */
    method Replace(at: nat)
      modifies this`map_
      ensures map_ == old(map_) + [at]
    {
      map_ := map_ + [at];
    }

    /** The next source term has no counterpart. */
    method Discard()
      modifies this`map_
      ensures map_ == old(map_) + [-1]
    {
      map_ := map_ + [-1];
    }

    method Begin() returns (cp: CheckPoint)
      ensures cp == CheckPoint(|scope|, |map_|)
    {
      cp := CheckPoint(|scope|, |map_|);
    }

    /** Pops everything since the checkpoint; the popped terms are a finished body. */
    method End(cp: CheckPoint) returns (body: seq<Term>)
      requires cp.target <= |scope| && cp.source <= |map_|
      modifies this
      ensures scope == old(scope)[..cp.target] && map_ == old(map_)[..cp.source]
      ensures body == old(scope)[cp.target..]
    {
      body := scope[cp.target..];
      scope, map_ := scope[..cp.target], map_[..cp.source];
    }
  }
}
