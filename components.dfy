/** `delta_components`: split the node set, by repeatedly cutting groups
    into the groups `connected_component` returns on the δ-reachability
    graph, into
    groups that are cliques of that graph and groups that cannot be split
    further yet are not cliques. */
module Components {
  import opened Links
  import opened Matrices
  import opened Filters
  import opened Traversal
  import opened Reachability

  // ---------------------------------------------------------------------
  // Groups as multisets
  // ---------------------------------------------------------------------

  /** `(0..size).collect()`. */
  function Range(size: nat): (r: seq<nat>)
    ensures |r| == size && forall i :: 0 <= i < size ==> r[i] == i
  {
    seq(size, i => i)
  }

  /** The closure `|node| filter.contains(&node)`. */
  function Member(group: seq<nat>): nat -> bool
  {
    x => x in group
  }

  /** The time filter that keeps every link. */
  function AnyTime(t: Time): bool { true }

  /** All nodes of all groups, counted with repeats. */
  ghost function Pool(groups: seq<seq<nat>>): multiset<nat>
  {
    multiset(Flatten(groups))
  }

  lemma PoolAppend(groups: seq<seq<nat>>, g: seq<nat>)
    ensures Flatten(groups + [g]) == Flatten(groups) + g
    ensures Pool(groups + [g]) == Pool(groups) + multiset(g)
  {
    assert (groups + [g])[..|groups|] == groups;
  }

  /** The nodes of a prefix of the groups are among the nodes of all. */
  lemma {:induction false} PoolPrefix(groups: seq<seq<nat>>, j: nat)
    requires j <= |groups|
    decreases |groups|
    ensures Pool(groups[..j]) <= Pool(groups)
  {
    if j < |groups| {
      var prefix := groups[..|groups| - 1];
      assert groups[..j] == prefix[..j];
      PoolPrefix(prefix, j);
    } else {
      assert groups[..j] == groups;
    }
  }

  /** In a list without repeats every element occurs once. */
  lemma {:induction false} DistinctMultiplicity(s: seq<nat>, x: nat)
    requires Distinct(s)
    ensures multiset(s)[x] == if x in s then 1 else 0
  {
    if s != [] {
      var t := s[1..];
      assert s == [s[0]] + t;
      assert Distinct(t) by {
        forall i, j | 0 <= i < j < |t| ensures t[i] != t[j] {
          assert t[i] == s[i + 1] && t[j] == s[j + 1];
        }
      }
      DistinctMultiplicity(t, x);
      assert s[0] !in t by {
        forall k | 0 <= k < |t| ensures t[k] != s[0] {
          assert t[k] == s[k + 1];
        }
      }
    }
  }

  /** A list in which no element occurs twice has no repeats. */
  lemma {:induction false} MultiplicityDistinct(s: seq<nat>)
    requires forall x :: multiset(s)[x] <= 1
    ensures Distinct(s)
  {
    if s != [] {
      var t := s[1..];
      assert s == [s[0]] + t;
      assert multiset(s) == multiset{s[0]} + multiset(t);
      forall x ensures multiset(t)[x] <= 1 {
        assert multiset(s)[x] == multiset{s[0]}[x] + multiset(t)[x];
      }
      MultiplicityDistinct(t);
      assert s[0] !in t by {
        assert multiset(s)[s[0]] == 1 + multiset(t)[s[0]];
      }
      forall i, j | 0 <= i < j < |s| ensures s[i] != s[j] {
        if i == 0 {
          assert s[j] == t[j - 1];
        } else {
          assert s[i] == t[i - 1] && s[j] == t[j - 1];
        }
      }
    }
  }

  /** A group whose nodes are among `0..size`, each at most once, has no
      repeat and no node at or beyond `size`. */
  lemma WithinRange(g: seq<nat>, size: nat)
    requires multiset(g) <= multiset(Range(size))
    ensures Distinct(g)
    ensures forall k :: 0 <= k < |g| ==> g[k] < size
  {
    assert Distinct(Range(size));
    forall x ensures multiset(g)[x] <= 1 {
      DistinctMultiplicity(Range(size), x);
    }
    MultiplicityDistinct(g);
    forall k | 0 <= k < |g| ensures g[k] < size {
      assert g[k] in multiset(g);
      assert g[k] in Range(size);
    }
  }

  /** Two lists without repeats holding the same nodes have the same
      multiset. */
  lemma SameNodes(a: seq<nat>, b: seq<nat>)
    requires Distinct(a) && Distinct(b)
    requires forall x :: x in a <==> x in b
    ensures multiset(a) == multiset(b)
  {
    forall x ensures multiset(a)[x] == multiset(b)[x] {
      DistinctMultiplicity(a, x);
      DistinctMultiplicity(b, x);
    }
  }

  /** A sub-multiset is no larger, and one as large is the whole. */
  lemma SubMultisetCard(a: multiset<nat>, b: multiset<nat>)
    requires a <= b
    ensures |a| <= |b|
    ensures |a| == |b| ==> a == b
  {
    var c := b - a;
    assert b == a + c;
    if |a| == |b| {
      assert c == multiset{};
    }
  }

  /** Adding the same nodes to both sides keeps a balance. */
  lemma Rebalance(a: multiset<nat>, b: multiset<nat>, c: multiset<nat>, d: multiset<nat>, m: multiset<nat>)
    requires a + b == c + d
    ensures (a + m) + b == c + (d + m)
    ensures a + (b + m) == c + (d + m)
  {
    forall x ensures ((a + m) + b)[x] == (c + (d + m))[x] {
      assert (a + b)[x] == (c + d)[x];
    }
  }

  /** No group of `groups` is a clique of `g`. */
  ghost predicate NoneClique(g: Grid<Time>, size: nat, groups: seq<seq<nat>>)
    requires IsSquare(g, size)
  {
    forall k :: 0 <= k < |groups| ==> !SubsetClique(g, size, Member(groups[k]))
  }

  /** Every group of `groups` is a clique of `g`. */
  ghost predicate AllCliques(g: Grid<Time>, size: nat, groups: seq<seq<nat>>)
    requires IsSquare(g, size)
  {
    forall k :: 0 <= k < |groups| ==> SubsetClique(g, size, Member(groups[k]))
  }

  lemma AllCliquesAppend(g: Grid<Time>, size: nat, groups: seq<seq<nat>>, group: seq<nat>)
    requires IsSquare(g, size) && AllCliques(g, size, groups) && SubsetClique(g, size, Member(group))
    ensures AllCliques(g, size, groups + [group])
  {
    var r := groups + [group];
    forall k | 0 <= k < |r| ensures SubsetClique(g, size, Member(r[k])) {
      if k < |groups| {
        assert r[k] == groups[k];
      }
    }
  }

  /** Groups with the same nodes are cliques together or not at all. */
  lemma CliqueBySet(g: Grid<Time>, size: nat, a: seq<nat>, b: seq<nat>)
    requires IsSquare(g, size)
    requires multiset(a) == multiset(b)
    ensures SubsetClique(g, size, Member(a)) == SubsetClique(g, size, Member(b))
  {
    forall x ensures Member(a)(x) == Member(b)(x) {
      assert x in a <==> x in multiset(a);
      assert x in b <==> x in multiset(b);
    }
  }

  /** The groups `connected_component` returns for a group (a group
      without repeat, within `0..size`) hold exactly the nodes of the group,
      and none of them is empty. */
  lemma CutsCoverFilter(g: Grid<Time>, size: nat, filter: seq<nat>)
    requires IsSquare(g, size) && multiset(filter) <= multiset(Range(size))
    ensures var cuts := ConnectedComponents(g, Range(size), Membership(filter, size));
            Pool(cuts) == multiset(filter) && forall p :: 0 <= p < |cuts| ==> cuts[p] != []
  {
    var nf := Membership(filter, size);
    var order := Range(size);
    forall i | 0 <= i < size ensures i in order {
      assert order[i] == i;
    }
    var cuts := ConnectedComponents(g, order, nf);
    ComponentsPartition(g, order, nf);
    WithinRange(filter, size);
    var f := Flatten(cuts);
    forall x ensures x in f <==> x in filter {
      if x in f {
        var k :| 0 <= k < |f| && f[k] == x;
      }
      if x in filter {
        var k :| 0 <= k < |filter| && filter[k] == x;
      }
    }
    SameNodes(f, filter);
  }

  // ---------------------------------------------------------------------
  // Termination measure
  // ---------------------------------------------------------------------

  /** The sum of the squared group sizes. */
  function SumSq(groups: seq<seq<nat>>): nat
  {
    if groups == [] then 0
    else
      var g := groups[|groups| - 1];
      SumSq(groups[..|groups| - 1]) + |g| * |g|
  }

  lemma SumSqAppend(groups: seq<seq<nat>>, g: seq<nat>)
    ensures SumSq(groups + [g]) == SumSq(groups) + |g| * |g|
    ensures SumSq(groups) <= SumSq(groups + [g])
  {
    assert (groups + [g])[..|groups|] == groups;
  }

  lemma SumSqPop(groups: seq<seq<nat>>)
    requires groups != []
    ensures SumSq(groups[..|groups| - 1]) <= SumSq(groups)
  {
    var n := |groups[|groups| - 1]|;
    assert 0 <= n * n;
  }

  /** Pushing a group of `l < L` nodes adds at most `(L - 1) * l`. */
  lemma PushBound(s: nat, base: nat, big: nat, done: nat, l: nat)
    requires l < big && s <= base + (big - 1) * done
    ensures s + l * l <= base + (big - 1) * (done + l)
  {
    assert l * l <= (big - 1) * l by {
      assert l <= big - 1;
    }
    assert (big - 1) * (done + l) == (big - 1) * done + (big - 1) * l;
  }

  /** Setting aside a group leaves the bound in force. */
  lemma KeepBound(s: nat, base: nat, big: nat, done: nat, l: nat)
    requires big >= 1 && s <= base + (big - 1) * done
    ensures s <= base + (big - 1) * (done + l)
  {
    assert (big - 1) * (done + l) == (big - 1) * done + (big - 1) * l;
  }

  /** Replacing a group of `L >= 1` nodes by pieces of fewer nodes that
      hold `L` nodes together lowers the measure. */
  lemma SplitLowers(rest: nat, big: nat)
    requires big >= 1
    ensures rest + (big - 1) * big < rest + big * big
  {
  }

  // ---------------------------------------------------------------------
  // Sorting the pieces of a split group
  // ---------------------------------------------------------------------

  /** The two lists the pieces of a split group go to. */
  datatype Piles = Piles(reste: seq<seq<nat>>, stack: seq<seq<nat>>)

  /** One piece: as large as the split group (of `big` nodes), it goes to
      `reste`; smaller, it goes back on the stack. */
  function Place(p: Piles, comp: seq<nat>, big: nat): (r: Piles)
    ensures |r.reste| + |r.stack| == |p.reste| + |p.stack| + 1
  {
    if |comp| == big then Piles(p.reste + [comp], p.stack) else Piles(p.reste, p.stack + [comp])
  }

  /** The pieces `cs`, placed in order. */
  function PlaceAll(p: Piles, cs: seq<seq<nat>>, big: nat): Piles
  {
    if cs == [] then p else Place(PlaceAll(p, cs[..|cs| - 1], big), cs[|cs| - 1], big)
  }

  /** Every piece is kept: the piles gain exactly the nodes of the pieces. */
  lemma {:induction false} PlaceAllPool(p: Piles, cs: seq<seq<nat>>, big: nat)
    ensures var r := PlaceAll(p, cs, big);
            Pool(r.reste) + Pool(r.stack) == Pool(p.reste) + Pool(p.stack) + Pool(cs)
  {
    if cs != [] {
      var prefix, c := cs[..|cs| - 1], cs[|cs| - 1];
      var q := PlaceAll(p, prefix, big);
      PlaceAllPool(p, prefix, big);
      assert cs == prefix + [c];
      PoolAppend(prefix, c);
      PoolAppend(q.reste, c);
      PoolAppend(q.stack, c);
      Rebalance(Pool(q.reste), Pool(q.stack), Pool(p.reste) + Pool(p.stack), Pool(prefix), multiset(c));
    }
  }

  /** Pieces of at most `big` nodes raise the measure of the stack by at
      most `(big - 1)` per node placed. */
  lemma {:induction false} PlaceAllBound(p: Piles, cs: seq<seq<nat>>, big: nat)
    requires big >= 1 && forall k :: 0 <= k < |cs| ==> |cs[k]| <= big
    ensures SumSq(PlaceAll(p, cs, big).stack) <= SumSq(p.stack) + (big - 1) * |Flatten(cs)|
  {
    if cs != [] {
      var prefix, c := cs[..|cs| - 1], cs[|cs| - 1];
      var q := PlaceAll(p, prefix, big);
      PlaceAllBound(p, prefix, big);
      assert cs == prefix + [c];
      PoolAppend(prefix, c);
      if |c| == big {
        KeepBound(SumSq(q.stack), SumSq(p.stack), big, |Flatten(prefix)|, |c|);
      } else {
        PushBound(SumSq(q.stack), SumSq(p.stack), big, |Flatten(prefix)|, |c|);
        SumSqAppend(q.stack, c);
      }
    }
  }

  /** A piece with the nodes of a group that is not a clique is not a
      clique either, so `reste` holds only non-cliques. */
  lemma {:induction false} PlaceAllNonCliques(g: Grid<Time>, size: nat, filter: seq<nat>, p: Piles, cs: seq<seq<nat>>)
    requires IsSquare(g, size) && !SubsetClique(g, size, Member(filter))
    requires forall k :: 0 <= k < |cs| ==> multiset(cs[k]) <= multiset(filter)
    requires NoneClique(g, size, p.reste)
    ensures NoneClique(g, size, PlaceAll(p, cs, |filter|).reste)
  {
    if cs != [] {
      var prefix, c := cs[..|cs| - 1], cs[|cs| - 1];
      var q := PlaceAll(p, prefix, |filter|);
      PlaceAllNonCliques(g, size, filter, p, prefix);
      if |c| == |filter| {
        assert multiset(c) <= multiset(filter);
        SubMultisetCard(multiset(c), multiset(filter));
        CliqueBySet(g, size, c, filter);
        var r := PlaceAll(p, cs, |filter|).reste;
        assert r == q.reste + [c];
        forall k | 0 <= k < |r| ensures !SubsetClique(g, size, Member(r[k])) {
          if k < |q.reste| {
            assert r[k] == q.reste[k];
          }
        }
      }
    }
  }

  /** Each piece holds some of the nodes of all the pieces. */
  lemma PoolMember(cs: seq<seq<nat>>, k: nat)
    requires k < |cs|
    ensures multiset(cs[k]) <= Pool(cs)
  {
    PoolPrefix(cs, k + 1);
    assert cs[..k + 1] == cs[..k] + [cs[k]];
    PoolAppend(cs[..k], cs[k]);
  }

  /** The branch of `delta_components` for a group that is not a clique:
      cut its nodes into the groups `connected_component` returns, then, in the
      `for comp in cuts` loop, keep every piece, send only non-cliques to
      `reste`, and bring the measure below its value with the group still
      on the stack. */
  method SplitGroup(reach: Matrix<Time>, filter: seq<nat>, reste0: seq<seq<nat>>, stack0: seq<seq<nat>>)
    returns (reste: seq<seq<nat>>, stack: seq<seq<nat>>)
    requires reach.Valid() && multiset(filter) <= multiset(Range(reach.size))
    requires !SubsetClique(reach.matrix, reach.size, Member(filter))
    requires NoneClique(reach.matrix, reach.size, reste0)
    ensures Pool(reste) + Pool(stack) == Pool(reste0) + Pool(stack0) + multiset(filter)
    ensures SumSq(stack) < SumSq(stack0) + |filter| * |filter|
    ensures NoneClique(reach.matrix, reach.size, reste)
  {
    ghost var g, size := reach.matrix, reach.size;
    ghost var x, y :| 0 <= x < size && 0 <= y < size && Member(filter)(x) && Member(filter)(y) && g[x][y] == 0;
    WithinRange(filter, size);
    var order := Range(reach.size);
    var nf := NodeFilterOf(filter, reach.size);
    var cuts := ConnectedComponent(reach, order, nf);
    CutsCoverFilter(g, size, filter);
    var big := |filter|;
    reste, stack := reste0, stack0;
    assert cuts[..0] == [];
    for j := 0 to |cuts|
      invariant Piles(reste, stack) == PlaceAll(Piles(reste0, stack0), cuts[..j], big)
    {
      var comp := cuts[j];
      assert cuts[..j + 1][..j] == cuts[..j];
      if |comp| == big {
        reste := reste + [comp];
      } else {
        stack := stack + [comp];
      }
    }
    assert cuts[..|cuts|] == cuts;
    ghost var p0 := Piles(reste0, stack0);
    forall k | 0 <= k < |cuts| ensures multiset(cuts[k]) <= multiset(filter) && |cuts[k]| <= big {
      PoolMember(cuts, k);
      SubMultisetCard(multiset(cuts[k]), multiset(filter));
    }
    PlaceAllPool(p0, cuts, big);
    PlaceAllBound(p0, cuts, big);
    PlaceAllNonCliques(g, size, filter, p0, cuts);
    assert |Flatten(cuts)| == big by {
      assert |multiset(Flatten(cuts))| == |Flatten(cuts)|;
    }
    SplitLowers(SumSq(stack0), big);
  }

  // ---------------------------------------------------------------------
  // delta_components
  // ---------------------------------------------------------------------

  /** All nodes held by the three lists of `delta_components`. */
  ghost function Held(components: seq<seq<nat>>, reste: seq<seq<nat>>, stack: seq<seq<nat>>): multiset<nat>
  {
    Pool(components) + Pool(reste) + Pool(stack)
  }

  /** Popping a group from the stack takes exactly its nodes out. */
  lemma HeldPop(components: seq<seq<nat>>, reste: seq<seq<nat>>, stack: seq<seq<nat>>)
    requires stack != []
    ensures Held(components, reste, stack)
         == Held(components, reste, stack[..|stack| - 1]) + multiset(stack[|stack| - 1])
    ensures multiset(stack[|stack| - 1]) <= Held(components, reste, stack)
  {
    assert stack == stack[..|stack| - 1] + [stack[|stack| - 1]];
    PoolAppend(stack[..|stack| - 1], stack[|stack| - 1]);
  }

  /** A component puts its nodes back. */
  lemma HeldComponent(components: seq<seq<nat>>, reste: seq<seq<nat>>, stack: seq<seq<nat>>, filter: seq<nat>)
    ensures Held(components + [filter], reste, stack) == Held(components, reste, stack) + multiset(filter)
  {
    PoolAppend(components, filter);
  }

  /** Pieces that hold the nodes of the split group put them back. */
  lemma HeldSplit(components: seq<seq<nat>>, reste: seq<seq<nat>>, stack: seq<seq<nat>>,
                  reste': seq<seq<nat>>, stack': seq<seq<nat>>, filter: seq<nat>)
    requires Pool(reste') + Pool(stack') == Pool(reste) + Pool(stack) + multiset(filter)
    ensures Held(components, reste', stack') == Held(components, reste, stack) + multiset(filter)
  {
    var a, b := Held(components, reste', stack'), Held(components, reste, stack) + multiset(filter);
    forall x ensures a[x] == b[x] {
      assert (Pool(reste') + Pool(stack'))[x] == (Pool(reste) + Pool(stack) + multiset(filter))[x];
    }
  }

  /** The graph `delta_components` splits: the δ-reachability graph of the
      whole stream, every node and every time kept. */
  function ReachAll(links: seq<Link>, delta: Time, size: nat): (g: Grid<Time>)
    requires NonIncreasing(links) && InRange(links, size, KeepAll, AnyTime)
    ensures IsSquare(g, size)
  {
    ScanReach(links, delta, size, KeepAll, AnyTime).reach
  }

  /** The loop of `delta_components` over the reachability graph `reach`:
      start from the group of all nodes; a popped group that is a clique of
      the graph is a component; otherwise it is cut into the groups
      `connected_component` returns, a piece as large as the group goes to `reste`, and
      smaller pieces are split again. Every node ends in exactly one group,
      the components are cliques and the groups in `reste` are not. */
  method Decompose(reach: Matrix<Time>) returns (components: seq<seq<nat>>, reste: seq<seq<nat>>)
    requires reach.Valid()
    ensures Pool(components) + Pool(reste) == multiset(Range(reach.size))
    ensures AllCliques(reach.matrix, reach.size, components)
    ensures NoneClique(reach.matrix, reach.size, reste)
  {
    var order := Range(reach.size);
    components, reste := [], [];
    var stack: seq<seq<nat>> := [order];
    PoolAppend([], order);
    while stack != []
      invariant Held(components, reste, stack) == multiset(order)
      invariant AllCliques(reach.matrix, reach.size, components) && NoneClique(reach.matrix, reach.size, reste)
      decreases SumSq(stack), |stack|
    {
      HeldPop(components, reste, stack);
      SumSqPop(stack);
      var filter := stack[|stack| - 1];
      stack := stack[..|stack| - 1];
      var clique := IsSubsetClique(reach, Member(filter));
      if clique {
        HeldComponent(components, reste, stack, filter);
        AllCliquesAppend(reach.matrix, reach.size, components, filter);
        components := components + [filter];
      } else {
        ghost var reste0, stack0 := reste, stack;
        reste, stack := SplitGroup(reach, filter, reste, stack);
        HeldSplit(components, reste0, stack0, reste, stack, filter);
      }
    }
  }

  /** `delta_components`: the δ-reachability graph of the whole stream,
      then its decomposition. */
  method DeltaComponents(links: seq<Link>, size: nat, delta: Time)
    returns (components: seq<seq<nat>>, reste: seq<seq<nat>>)
    requires NonIncreasing(links)
    requires forall k :: 0 <= k < |links| ==> links[k].node1 < size && links[k].node2 < size
    ensures Pool(components) + Pool(reste) == multiset(Range(size))
    ensures AllCliques(ReachAll(links, delta, size), size, components)
    ensures NoneClique(ReachAll(links, delta, size), size, reste)
  {
    var reach := DeltaReachabilityGraph(links, delta, size, KeepAll, AnyTime);
    components, reste := Decompose(reach);
  }
}
