/** Node and time predicates that restrict which links reach the engine,
    and the boolean membership vector built from a list of nodes. */
module Filters {
  import opened Links

  /** `NodeFilter`: a total predicate over node ids. */
  type NodeFilter = nat -> bool
  /** `TimeFilter`: a total predicate over times. */
  type TimeFilter = Time -> bool

  /** `combine`: a link passes when both of its nodes and its time pass. */
  function Combine(l: Link, nf: NodeFilter, tf: TimeFilter): bool
  {
    nf(l.node1) && nf(l.node2) && tf(l.time)
  }

  /** A link passes exactly when its two ends and its time pass, and
      swapping the two ends never changes the verdict. */
  lemma CombineSymmetric(l: Link, nf: NodeFilter, tf: TimeFilter)
    ensures Combine(l, nf, tf) == Combine(Link(l.node2, l.node1, l.time), nf, tf)
    ensures Combine(l, nf, tf) <==> nf(l.node1) && nf(l.node2) && tf(l.time)
  {
  }

  /** The membership vector of `nodes` over the ids `0..size`. */
  function Membership(nodes: seq<nat>, size: nat): (res: seq<bool>)
    ensures |res| == size
    ensures forall i :: 0 <= i < size ==> (res[i] <==> i in nodes)
  {
    seq(size, i => i in nodes)
  }

  /** Repeated ids, and ids at or beyond `size`, leave the vector unchanged. */
  lemma MembershipIgnoresRepeatsAndOutOfRange(nodes: seq<nat>, extra: seq<nat>, size: nat)
    requires forall k :: 0 <= k < |extra| ==> extra[k] in nodes || extra[k] >= size
    ensures Membership(nodes + extra, size) == Membership(nodes, size)
  {
    var a, b := Membership(nodes + extra, size), Membership(nodes, size);
    forall i | 0 <= i < size
      ensures a[i] == b[i]
    {
      if i in extra {
        var k :| 0 <= k < |extra| && extra[k] == i;
      }
    }
  }

  /** `node_filter`: push, for every id of `0..size`, whether `nodes`
      contains it. */
  method NodeFilterOf(nodes: seq<nat>, size: nat) returns (res: seq<bool>)
    ensures res == Membership(nodes, size)
    ensures |res| == size
    ensures forall i :: 0 <= i < size ==> (res[i] <==> i in nodes)
  {
    res := [];
    var i := 0;
    while i < size
      invariant i <= size
      invariant |res| == i
      invariant forall j :: 0 <= j < i ==> (res[j] <==> j in nodes)
    {
      res := res + [i in nodes];
      i := i + 1;
    }
  }
}
