/** Small vocabulary shared by every other module: optional values, bytes and majorities. */
module Basics {

  datatype Option<+T> = None | Some(value: T) {
    /** The contained value, or `default` when there is none. */
    function GetOr(default: T): T {
      match this
      case Some(v) => v
      case None => default
    }
  }

  type Byte = b: nat | b < 256

  /** A node identifier, as configured on the command line. */
  type NodeId = string

  function Min(a: nat, b: nat): nat {
    if a <= b then a else b
  }

  function Max(a: nat, b: nat): nat {
    if a >= b then a else b
  }

  /** A strict majority of `all`. */
  predicate Majority(all: set<NodeId>, some: set<NodeId>) {
    some <= all && 2 * |some| > |all|
  }

  /** Any two majorities of the same cluster share a member. */
  lemma QuorumOverlap(all: set<NodeId>, a: set<NodeId>, b: set<NodeId>) returns (x: NodeId)
    requires Majority(all, a) && Majority(all, b)
    ensures x in a && x in b
  {
    if a * b == {} {
      assert |a + b| == |a| + |b|;
      Subset(a + b, all);
      assert false;
    }
    x :| x in a * b;
  }

  /** A subset is no larger than its superset. */
  lemma {:induction false} Subset<T>(a: set<T>, b: set<T>)
    requires a <= b
    ensures |a| <= |b|
  {
    if a != {} {
      var x :| x in a;
      Subset(a - {x}, b - {x});
    }
  }

  lemma MajorityGrows(all: set<NodeId>, a: set<NodeId>, b: set<NodeId>)
    requires Majority(all, a) && a <= b <= all
    ensures Majority(all, b)
  {
    Subset(a, b);
  }

  /** The elements of a sequence, as a set. */
  function Elements<T>(s: seq<T>): set<T> {
    set x | x in s
  }

  predicate Distinct<T(==)>(s: seq<T>) {
    forall i, j :: 0 <= i < j < |s| ==> s[i] != s[j]
  }
}
