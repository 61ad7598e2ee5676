/** The stack-driven depth-first traversals of `algo.rs`: `dfs`, which
    follows successors, and `connected_component`, which replays a
    traversal over predecessors in the order `dfs` produced. */
module Traversal {
  import opened Links
  import opened Matrices

  // ---------------------------------------------------------------------
  // Sequences of nodes and groups of nodes
  // ---------------------------------------------------------------------

  /** No node is listed twice. */
  predicate Distinct(s: seq<nat>)
  {
    forall i, j :: 0 <= i < j < |s| ==> s[i] != s[j]
  }

  /** The groups laid end to end. */
  function Flatten(groups: seq<seq<nat>>): seq<nat>
  {
    if groups == [] then [] else Flatten(groups[..|groups| - 1]) + groups[|groups| - 1]
  }

  /** A node is in the flattening exactly when some group holds it. */
  lemma {:induction false} FlattenMembership(groups: seq<seq<nat>>, x: nat)
    ensures x in Flatten(groups) <==> exists p :: 0 <= p < |groups| && x in groups[p]
  {
    if groups != [] {
      var prefix := groups[..|groups| - 1];
      FlattenMembership(prefix, x);
      if exists p :: 0 <= p < |prefix| && x in prefix[p] {
        var p :| 0 <= p < |prefix| && x in prefix[p];
        assert groups[p] == prefix[p];
      }
      if exists p :: 0 <= p < |groups| && x in groups[p] {
        var p :| 0 <= p < |groups| && x in groups[p];
        if p < |prefix| {
          assert prefix[p] == groups[p];
        }
      }
    }
  }

  /** Groups whose flattening has no repeat are pairwise disjoint and have
      no repeat inside. */
  lemma {:induction false} FlattenDistinct(groups: seq<seq<nat>>)
    requires Distinct(Flatten(groups))
    ensures forall p :: 0 <= p < |groups| ==> Distinct(groups[p])
    ensures forall p, q, x :: 0 <= p < q < |groups| && x in groups[p] ==> x !in groups[q]
  {
    if groups != [] {
      var prefix := groups[..|groups| - 1];
      var last := groups[|groups| - 1];
      var f := Flatten(prefix);
      assert Flatten(groups) == f + last;
      assert Distinct(f) by {
        forall i, j | 0 <= i < j < |f| ensures f[i] != f[j] {
          assert Flatten(groups)[i] == f[i] && Flatten(groups)[j] == f[j];
        }
      }
      FlattenDistinct(prefix);
      assert Distinct(last) by {
        forall i, j | 0 <= i < j < |last| ensures last[i] != last[j] {
          assert Flatten(groups)[|f| + i] == last[i] && Flatten(groups)[|f| + j] == last[j];
        }
      }
      forall p, q, x | 0 <= p < q < |groups| && x in groups[p]
        ensures x !in groups[q]
      {
        if q == |groups| - 1 {
          assert groups[p] == prefix[p];
          FlattenMembership(prefix, x);
          var i :| 0 <= i < |f| && f[i] == x;
          forall j | 0 <= j < |last|
            ensures last[j] != x
          {
            assert Flatten(groups)[i] == x && Flatten(groups)[|f| + j] == last[j];
          }
        } else {
          assert groups[p] == prefix[p] && groups[q] == prefix[q];
        }
      }
    }
  }

  // ---------------------------------------------------------------------
  // Draining the stack
  // ---------------------------------------------------------------------

  /** The traversal state: one mark per node, and the nodes output so far. */
  datatype Walk = Walk(marks: seq<bool>, out: seq<nat>)

  /** The nodes not yet marked. */
  function Unmarked(marks: seq<bool>): set<nat>
  {
    set i | 0 <= i < |marks| && !marks[i]
  }

  /** Marking an unmarked node shrinks the set of unmarked nodes. */
  lemma MarkShrinks(marks: seq<bool>, v: nat)
    requires v < |marks| && !marks[v]
    ensures Unmarked(marks[v := true]) < Unmarked(marks)
  {
    assert v in Unmarked(marks) && v !in Unmarked(marks[v := true]);
  }

  /** The neighbours followed from `v`: its successors going forward, its
      predecessors going backward. */
  function Neighbours(g: Grid<Time>, v: nat, forward: bool): (r: seq<nat>)
    requires IsSquare(g, |g|) && v < |g|
    ensures forall k :: 0 <= k < |r| ==> r[k] < |g|
  {
    var r := if forward then Successors(g, v) else Predecessors(g, v);
    NeighbourhoodsAreNonZeroEntries(g, v);
    assert forall k :: 0 <= k < |r| ==> r[k] in r;
    r
  }

  /** The inner `while let Some(v) = stack.pop()` loop shared by both
      traversals: pop a node; if it passes the filter and is unmarked, mark
      it, output it and push its neighbours in ascending order (so that the
      largest is explored first). */
  function Drain(g: Grid<Time>, forward: bool, filter: seq<bool>, w: Walk, stack: seq<nat>): (r: Walk)
    requires IsSquare(g, |g|) && |filter| == |g| && |w.marks| == |g|
    requires forall k :: 0 <= k < |stack| ==> stack[k] < |g|
    ensures |r.marks| == |g|
    decreases Unmarked(w.marks), |stack|
  {
    if stack == [] then w
    else
      var v := stack[|stack| - 1];
      var rest := stack[..|stack| - 1];
      if filter[v] && !w.marks[v] then
        MarkShrinks(w.marks, v);
        Drain(g, forward, filter, Walk(w.marks[v := true], w.out + [v]), rest + Neighbours(g, v, forward))
      else
        Drain(g, forward, filter, w, rest)
  }

  /** What draining promises: everything output is new (filtered, unmarked
      before and marked after, and output once); a node is marked
      afterwards exactly when it was before or has been output; and every
      filtered node that was on the stack ends up marked. */
  ghost predicate Drained(g: Grid<Time>, filter: seq<bool>, w: Walk, stack: seq<nat>, r: Walk)
    requires |filter| == |g| && |w.marks| == |g| && |r.marks| == |g|
  {
    && |w.out| <= |r.out| && r.out[..|w.out|] == w.out
    && (forall k :: |w.out| <= k < |r.out| ==>
          r.out[k] < |g| && filter[r.out[k]] && !w.marks[r.out[k]] && r.marks[r.out[k]])
    && (forall i :: 0 <= i < |g| ==> (r.marks[i] <==> w.marks[i] || i in r.out[|w.out|..]))
    && (forall i, j :: |w.out| <= i < j < |r.out| ==> r.out[i] != r.out[j])
    && (forall k :: 0 <= k < |stack| && stack[k] < |g| && filter[stack[k]] ==> r.marks[stack[k]])
  }

  lemma {:induction false} DrainSpec(g: Grid<Time>, forward: bool, filter: seq<bool>, w: Walk, stack: seq<nat>)
    requires IsSquare(g, |g|) && |filter| == |g| && |w.marks| == |g|
    requires forall k :: 0 <= k < |stack| ==> stack[k] < |g|
    ensures Drained(g, filter, w, stack, Drain(g, forward, filter, w, stack))
    decreases Unmarked(w.marks), |stack|
  {
    if stack != [] {
      var v := stack[|stack| - 1];
      var rest := stack[..|stack| - 1];
      var r := Drain(g, forward, filter, w, stack);
      if filter[v] && !w.marks[v] {
        MarkShrinks(w.marks, v);
        var w' := Walk(w.marks[v := true], w.out + [v]);
        var stack' := rest + Neighbours(g, v, forward);
        DrainSpec(g, forward, filter, w', stack');
        assert r == Drain(g, forward, filter, w', stack');
        DrainMarked(g, filter, w, v, r);
        forall k | 0 <= k < |stack| && filter[stack[k]]
          ensures r.marks[stack[k]]
        {
          if k < |rest| {
            assert stack'[k] == stack[k];
          }
        }
      } else {
        DrainSpec(g, forward, filter, w, rest);
        forall k | 0 <= k < |stack| && filter[stack[k]]
          ensures r.marks[stack[k]]
        {
          if k < |rest| {
            assert rest[k] == stack[k];
          }
        }
      }
    }
  }

  /** The step of `DrainSpec` where `v` is marked and output. */
  lemma DrainMarked(g: Grid<Time>, filter: seq<bool>, w: Walk, v: nat, r: Walk)
    requires |filter| == |g| && |w.marks| == |g| && |r.marks| == |g|
    requires v < |g| && filter[v] && !w.marks[v]
    requires var w' := Walk(w.marks[v := true], w.out + [v]);
             && |w'.out| <= |r.out| && r.out[..|w'.out|] == w'.out
             && (forall k :: |w'.out| <= k < |r.out| ==>
                   r.out[k] < |g| && filter[r.out[k]] && !w'.marks[r.out[k]] && r.marks[r.out[k]])
             && (forall i :: 0 <= i < |g| ==> (r.marks[i] <==> w'.marks[i] || i in r.out[|w'.out|..]))
             && (forall i, j :: |w'.out| <= i < j < |r.out| ==> r.out[i] != r.out[j])
    ensures |w.out| <= |r.out| && r.out[..|w.out|] == w.out
    ensures forall k :: |w.out| <= k < |r.out| ==>
              r.out[k] < |g| && filter[r.out[k]] && !w.marks[r.out[k]] && r.marks[r.out[k]]
    ensures forall i :: 0 <= i < |g| ==> (r.marks[i] <==> w.marks[i] || i in r.out[|w.out|..])
    ensures forall i, j :: |w.out| <= i < j < |r.out| ==> r.out[i] != r.out[j]
    ensures r.marks[v]
  {
    var n := |w.out|;
    assert r.out[..n + 1][..n] == r.out[..n];
    assert r.out[n] == v;
    assert r.out[n..] == [v] + r.out[n + 1..];
  }

  /** The inner loop itself, on a local mark vector and output vector. */
  method DrainStack(mat: Matrix<Time>, forward: bool, filter: seq<bool>, marks0: seq<bool>, out0: seq<nat>, stack0: seq<nat>)
    returns (marks: seq<bool>, out: seq<nat>)
    requires mat.Valid() && |filter| == mat.size && |marks0| == mat.size
    requires forall k :: 0 <= k < |stack0| ==> stack0[k] < mat.size
    ensures Walk(marks, out) == Drain(mat.matrix, forward, filter, Walk(marks0, out0), stack0)
  {
    marks, out := marks0, out0;
    var stack: seq<nat> := stack0;
    while stack != []
      invariant |marks| == mat.size
      invariant forall k :: 0 <= k < |stack| ==> stack[k] < mat.size
      invariant Drain(mat.matrix, forward, filter, Walk(marks, out), stack)
             == Drain(mat.matrix, forward, filter, Walk(marks0, out0), stack0)
      decreases Unmarked(marks), |stack|
    {
      var v: nat := stack[|stack| - 1];
      stack := stack[..|stack| - 1];
      if filter[v] && !marks[v] {
        MarkShrinks(marks, v);
        marks := marks[v := true];
        out := out + [v];
        stack := stack + Neighbours(mat.matrix, v, forward);
      }
    }
  }

  /** No node marked. */
  function NoMarks(size: nat): (marks: seq<bool>)
    ensures |marks| == size && forall i :: 0 <= i < size ==> !marks[i]
  {
    seq(size, _ => false)
  }

  /** A fresh mark vector, built by pushing `false` once per node. */
  method Unmarks(size: nat) returns (marks: seq<bool>)
    ensures marks == NoMarks(size)
  {
    marks := [];
    for i := 0 to size
      invariant |marks| == i && forall k :: 0 <= k < i ==> !marks[k]
    {
      marks := marks + [false];
    }
    assert forall k :: 0 <= k < size ==> marks[k] == NoMarks(size)[k];
  }

  // ---------------------------------------------------------------------
  // dfs
  // ---------------------------------------------------------------------

  /** The state of `dfs` after the nodes `order` have been taken as roots. */
  function DfsWalk(g: Grid<Time>, order: seq<nat>, filter: seq<bool>): (w: Walk)
    requires IsSquare(g, |g|) && |filter| == |g|
    requires forall k :: 0 <= k < |order| ==> order[k] < |g|
    ensures |w.marks| == |g|
  {
    if order == [] then Walk(NoMarks(|g|), [])
    else
      var prev := DfsWalk(g, order[..|order| - 1], filter);
      var node := order[|order| - 1];
      if filter[node] && !prev.marks[node] then Drain(g, true, filter, prev, [node])
      else prev
  }

  /** The invariant of `dfs`: a node is marked exactly when it has been
      output, and the output holds filtered nodes, none twice. */
  ghost predicate Visited(g: Grid<Time>, filter: seq<bool>, w: Walk)
    requires |filter| == |g|
  {
    && |w.marks| == |g|
    && (forall i :: 0 <= i < |g| ==> (w.marks[i] <==> i in w.out))
    && (forall k :: 0 <= k < |w.out| ==> w.out[k] < |g| && filter[w.out[k]])
    && Distinct(w.out)
  }

  lemma {:induction false} DfsWalkSpec(g: Grid<Time>, order: seq<nat>, filter: seq<bool>)
    requires IsSquare(g, |g|) && |filter| == |g|
    requires forall k :: 0 <= k < |order| ==> order[k] < |g|
    ensures Visited(g, filter, DfsWalk(g, order, filter))
    ensures forall k :: 0 <= k < |order| && filter[order[k]] ==> DfsWalk(g, order, filter).marks[order[k]]
  {
    if order != [] {
      var prefix := order[..|order| - 1];
      var node := order[|order| - 1];
      DfsWalkSpec(g, prefix, filter);
      var prev := DfsWalk(g, prefix, filter);
      assert forall k :: 0 <= k < |prefix| ==> prefix[k] == order[k];
      if filter[node] && !prev.marks[node] {
        var r := Drain(g, true, filter, prev, [node]);
        DrainSpec(g, true, filter, prev, [node]);
        assert [node][0] == node;
        assert r.out == prev.out + r.out[|prev.out|..];
        forall i, j | 0 <= i < j < |r.out|
          ensures r.out[i] != r.out[j]
        {
          if i < |prev.out| && j >= |prev.out| {
            assert r.out[i] == prev.out[i];
          }
        }
        forall i | 0 <= i < |g|
          ensures r.marks[i] <==> i in r.out
        {
        }
      }
    }
  }

  /** The order in which `dfs` outputs the nodes. */
  function DfsOrder(g: Grid<Time>, order: seq<nat>, filter: seq<bool>): seq<nat>
    requires IsSquare(g, |g|) && |filter| == |g|
    requires forall k :: 0 <= k < |order| ==> order[k] < |g|
  {
    DfsWalk(g, order, filter).out
  }

  /** `dfs` outputs filtered nodes, each at most once, and every filtered
      node of `order`; when `order` lists every node, it outputs exactly the
      filtered nodes. */
  lemma DfsOutputsFilteredNodes(g: Grid<Time>, order: seq<nat>, filter: seq<bool>)
    requires IsSquare(g, |g|) && |filter| == |g|
    requires forall k :: 0 <= k < |order| ==> order[k] < |g|
    ensures var r := DfsOrder(g, order, filter);
            Distinct(r) && (forall k :: 0 <= k < |r| ==> r[k] < |g| && filter[r[k]])
            && (forall k :: 0 <= k < |order| && filter[order[k]] ==> order[k] in r)
    ensures (forall i :: 0 <= i < |g| ==> i in order) ==>
              forall i :: 0 <= i < |g| ==> (i in DfsOrder(g, order, filter) <==> filter[i])
  {
    var r := DfsOrder(g, order, filter);
    DfsWalkSpec(g, order, filter);
    if forall i :: 0 <= i < |g| ==> i in order {
      forall i | 0 <= i < |g| && filter[i]
        ensures i in r
      {
        assert i in order;
        var k :| 0 <= k < |order| && order[k] == i;
      }
    }
  }

  /** `dfs`: the filter must have one entry per node, and every root a
      valid node index. */
  method Dfs(mat: Matrix<Time>, order: seq<nat>, nodefilter: seq<bool>) returns (result: seq<nat>)
    requires mat.Valid() && |nodefilter| == mat.size
    requires forall k :: 0 <= k < |order| ==> order[k] < mat.size
    ensures result == DfsOrder(mat.matrix, order, nodefilter)
  {
    result := [];
    var marks := Unmarks(mat.size);
    assert order[..0] == [];
    for k := 0 to |order|
      invariant Walk(marks, result) == DfsWalk(mat.matrix, order[..k], nodefilter)
    {
      var node := order[k];
      assert order[..k + 1][..k] == order[..k];
      if nodefilter[node] && !marks[node] {
        marks, result := DrainStack(mat, true, nodefilter, marks, result, [node]);
      }
    }
    assert order[..|order|] == order;
  }

  // ---------------------------------------------------------------------
  // connected_component
  // ---------------------------------------------------------------------

  /** The state of `connected_component`: the marks and the groups found. */
  datatype Grouping = Grouping(marks: seq<bool>, groups: seq<seq<nat>>)

  /** The state after the roots `roots` have been taken: each unmarked
      filtered root opens a group, filled by a backward traversal. */
  function GroupWalk(g: Grid<Time>, roots: seq<nat>, filter: seq<bool>): (c: Grouping)
    requires IsSquare(g, |g|) && |filter| == |g|
    requires forall k :: 0 <= k < |roots| ==> roots[k] < |g|
    ensures |c.marks| == |g|
  {
    if roots == [] then Grouping(NoMarks(|g|), [])
    else
      var prefix := roots[..|roots| - 1];
      var node := roots[|roots| - 1];
      var prev := GroupWalk(g, prefix, filter);
      if filter[node] && !prev.marks[node] then
        var w := Drain(g, false, filter, Walk(prev.marks, []), [node]);
        Grouping(w.marks, prev.groups + [w.out])
      else prev
  }

  /** The invariant of `connected_component`: a node is marked exactly when
      some group holds it; groups hold filtered nodes, none twice, and are
      never empty. */
  ghost predicate Grouped(g: Grid<Time>, filter: seq<bool>, c: Grouping)
    requires |filter| == |g|
  {
    && |c.marks| == |g|
    && (forall i :: 0 <= i < |g| ==> (c.marks[i] <==> i in Flatten(c.groups)))
    && (forall k :: 0 <= k < |Flatten(c.groups)| ==> Flatten(c.groups)[k] < |g| && filter[Flatten(c.groups)[k]])
    && Distinct(Flatten(c.groups))
    && (forall p :: 0 <= p < |c.groups| ==> c.groups[p] != [])
  }

  /** Opening a group at an unmarked filtered root keeps the invariant. */
  lemma GroupStep(g: Grid<Time>, filter: seq<bool>, prev: Grouping, node: nat, w: Walk)
    requires IsSquare(g, |g|) && |filter| == |g| && Grouped(g, filter, prev)
    requires node < |g| && filter[node] && !prev.marks[node] && |w.marks| == |g|
    requires Drained(g, filter, Walk(prev.marks, []), [node], w)
    ensures Grouped(g, filter, Grouping(w.marks, prev.groups + [w.out]))
    ensures forall i :: 0 <= i < |g| && prev.marks[i] ==> w.marks[i]
  {
    var c := Grouping(w.marks, prev.groups + [w.out]);
    var f := Flatten(prev.groups);
    assert c.groups[..|c.groups| - 1] == prev.groups;
    assert Flatten(c.groups) == f + w.out;
    assert w.out[0..] == w.out;
    assert [node][0] == node;
    assert w.marks[node];
    forall i | 0 <= i < |g|
      ensures c.marks[i] <==> i in Flatten(c.groups)
    {
    }
    forall i, j | 0 <= i < j < |f + w.out|
      ensures (f + w.out)[i] != (f + w.out)[j]
    {
      if i < |f| && j >= |f| {
        assert f[i] in f;
        assert !prev.marks[w.out[j - |f|]];
      }
    }
  }

  lemma {:induction false} GroupWalkSpec(g: Grid<Time>, roots: seq<nat>, filter: seq<bool>)
    requires IsSquare(g, |g|) && |filter| == |g|
    requires forall k :: 0 <= k < |roots| ==> roots[k] < |g|
    ensures Grouped(g, filter, GroupWalk(g, roots, filter))
    ensures forall k :: 0 <= k < |roots| && filter[roots[k]] ==> GroupWalk(g, roots, filter).marks[roots[k]]
  {
    if roots != [] {
      var prefix := roots[..|roots| - 1];
      var node := roots[|roots| - 1];
      GroupWalkSpec(g, prefix, filter);
      var prev := GroupWalk(g, prefix, filter);
      var c := GroupWalk(g, roots, filter);
      assert forall k :: 0 <= k < |prefix| ==> prefix[k] == roots[k];
      if filter[node] && !prev.marks[node] {
        var w := Drain(g, false, filter, Walk(prev.marks, []), [node]);
        DrainSpec(g, false, filter, Walk(prev.marks, []), [node]);
        GroupStep(g, filter, prev, node, w);
        assert [node][0] == node;
      }
    }
  }

  /** The groups returned by `connected_component`. */
  function ConnectedComponents(g: Grid<Time>, order: seq<nat>, filter: seq<bool>): seq<seq<nat>>
    requires IsSquare(g, |g|) && |filter| == |g|
    requires forall k :: 0 <= k < |order| ==> order[k] < |g|
  {
    var roots := DfsOrder(g, order, filter);
    DfsOutputsFilteredNodes(g, order, filter);
    GroupWalk(g, roots, filter).groups
  }

  /** When `order` lists every node, `connected_component` partitions the
      filtered nodes: every group is non-empty, without repeat, and the
      groups are pairwise disjoint and together hold exactly the filtered
      nodes. */
  lemma ComponentsPartition(g: Grid<Time>, order: seq<nat>, filter: seq<bool>)
    requires IsSquare(g, |g|) && |filter| == |g|
    requires forall k :: 0 <= k < |order| ==> order[k] < |g|
    requires forall i :: 0 <= i < |g| ==> i in order
    ensures var cs := ConnectedComponents(g, order, filter);
            (forall p :: 0 <= p < |cs| ==> cs[p] != [] && Distinct(cs[p]))
            && (forall p, q, x :: 0 <= p < q < |cs| && x in cs[p] ==> x !in cs[q])
            && (forall i :: 0 <= i < |g| ==> (i in Flatten(cs) <==> filter[i]))
            && (forall k :: 0 <= k < |Flatten(cs)| ==> Flatten(cs)[k] < |g|)
            && Distinct(Flatten(cs))
  {
    var roots := DfsOrder(g, order, filter);
    DfsOutputsFilteredNodes(g, order, filter);
    var c := GroupWalk(g, roots, filter);
    GroupWalkSpec(g, roots, filter);
    FlattenDistinct(c.groups);
    forall i | 0 <= i < |g| && filter[i]
      ensures i in Flatten(c.groups)
    {
      assert i in order;
      assert i in roots;
      var k :| 0 <= k < |roots| && roots[k] == i;
    }
  }

  /** `connected_component`: a backward traversal rooted at each node in
      the order `dfs` outputs them. */
  method ConnectedComponent(mat: Matrix<Time>, order: seq<nat>, nodefilter: seq<bool>) returns (result: seq<seq<nat>>)
    requires mat.Valid() && |nodefilter| == mat.size
    requires forall k :: 0 <= k < |order| ==> order[k] < mat.size
    ensures result == ConnectedComponents(mat.matrix, order, nodefilter)
  {
    var dfsorder := Dfs(mat, order, nodefilter);
    DfsOutputsFilteredNodes(mat.matrix, order, nodefilter);
    result := [];
    var marks := Unmarks(mat.size);
    assert dfsorder[..0] == [];
    for k := 0 to |dfsorder|
      invariant Grouping(marks, result) == GroupWalk(mat.matrix, dfsorder[..k], nodefilter)
    {
      var node := dfsorder[k];
      assert dfsorder[..k + 1][..k] == dfsorder[..k];
      if nodefilter[node] && !marks[node] {
        var component: seq<nat>;
        marks, component := DrainStack(mat, false, nodefilter, marks, [], [node]);
        result := result + [component];
      }
    }
    assert dfsorder[..|dfsorder|] == dfsorder;
  }
}
