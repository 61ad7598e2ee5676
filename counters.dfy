/** The small statistics passes over a stream: the degree of each node,
    the first and last appearance of each node, and the number of distinct
    nodes and of links. */
module Counters {
  import opened Links
  import opened Matrices
  import opened Traversal

  /** Every end of every link is a node id below `size`. */
  ghost predicate Within(links: seq<Link>, size: nat)
  {
    forall k :: 0 <= k < |links| ==> links[k].node1 < size && links[k].node2 < size
  }

  /** Some link joins `x` and `y`, in either direction. */
  ghost predicate Joined(links: seq<Link>, x: nat, y: nat)
  {
    exists k :: 0 <= k < |links| && Joins(links[k], x, y)
  }

  // ---------------------------------------------------------------------
  // count_degrees
  // ---------------------------------------------------------------------

  /** The state of `count_degrees`: the boolean matrix of pairs already
      counted and the degree vector. */
  datatype DegreeState = DegreeState(linked: Grid<bool>, degrees: seq<nat>)

  /** A pair not yet counted is marked in both directions and each end
      gains one (a self-loop's single node gains two); a pair already
      counted changes nothing. */
  function DegreeScan(links: seq<Link>, size: nat): (s: DegreeState)
    requires Within(links, size)
    ensures IsSquare(s.linked, size) && |s.degrees| == size
  {
    if links == [] then DegreeState(Filled(false, size), seq(size, _ => 0))
    else
      var prev := DegreeScan(links[..|links| - 1], size);
      var l := links[|links| - 1];
      var u, v := l.node1, l.node2;
      if prev.linked[u][v] then prev
      else
        var d1 := prev.degrees[u := prev.degrees[u] + 1];
        DegreeState(Mark(prev.linked, u, v), d1[v := d1[v] + 1])
  }

  /** The two `mat.set` calls: `(u, v)`, then `(v, u)`. */
  function Mark(g: Grid<bool>, u: nat, v: nat): (r: Grid<bool>)
    requires IsSquare(g, |g|) && u < |g| && v < |g|
    ensures IsSquare(r, |g|)
    ensures forall x, y :: 0 <= x < |g| && 0 <= y < |g| ==>
              r[x][y] == ((x == u && y == v) || (x == v && y == u) || g[x][y])
  {
    var g1 := g[u := g[u][v := true]];
    g1[v := g1[v][u := true]]
  }

  /** `count_degrees`. */
  method CountDegrees(links: seq<Link>, size: nat) returns (result: seq<nat>)
    requires Within(links, size)
    ensures result == DegreeScan(links, size).degrees
  {
    result := [];
    for i := 0 to size
      invariant result == seq(i, _ => 0)
    {
      result := result + [0];
    }
    var mat := new Matrix<bool>(false, size);
    assert links[..0] == [];
    for k := 0 to |links|
      invariant mat.Valid() && mat.size == size
      invariant DegreeState(mat.matrix, result) == DegreeScan(links[..k], size)
    {
      var l := links[k];
      assert links[..k + 1][..k] == links[..k];
      if !mat.Get(l.node1, l.node2) {
        mat.Set(l.node1, l.node2, true);
        mat.Set(l.node2, l.node1, true);
        result := result[l.node1 := result[l.node1] + 1];
        result := result[l.node2 := result[l.node2] + 1];
      }
    }
    assert links[..|links|] == links;
  }

  /** `l` joins `x` and `y`, in either direction. */
  predicate Joins(l: Link, x: nat, y: nat)
  {
    (l.node1 == x && l.node2 == y) || (l.node1 == y && l.node2 == x)
  }

  /** A longer stream joins a pair when its prefix does or its last link
      does. */
  lemma JoinedStep(links: seq<Link>, x: nat, y: nat)
    requires links != []
    ensures Joined(links, x, y) <==> Joined(links[..|links| - 1], x, y) || Joins(links[|links| - 1], x, y)
  {
    var prefix := links[..|links| - 1];
    if Joined(prefix, x, y) {
      var k :| 0 <= k < |prefix| && Joins(prefix[k], x, y);
      assert links[k] == prefix[k];
    }
    if Joined(links, x, y) {
      var k :| 0 <= k < |links| && Joins(links[k], x, y);
      if k < |prefix| {
        assert prefix[k] == links[k];
      }
    }
  }

  /** The marked pairs are the pairs some link joins. */
  ghost predicate MarksJoined(g: Grid<bool>, links: seq<Link>, size: nat)
    requires IsSquare(g, size)
  {
    forall x, y :: 0 <= x < size && 0 <= y < size ==> (g[x][y] <==> Joined(links, x, y))
  }

  /** A pair is marked exactly when some link joins it. */
  lemma {:induction false} DegreeLinked(links: seq<Link>, size: nat)
    requires Within(links, size)
    ensures MarksJoined(DegreeScan(links, size).linked, links, size)
  {
    if links != [] {
      var prefix := links[..|links| - 1];
      var l := links[|links| - 1];
      DegreeLinked(prefix, size);
      var g := DegreeScan(links, size).linked;
      var p := DegreeScan(prefix, size).linked;
      forall x, y | 0 <= x < size && 0 <= y < size
        ensures g[x][y] <==> Joined(links, x, y)
      {
        JoinedStep(links, x, y);
        if Joins(l, x, y) {
          JoinedStep(links, l.node1, l.node2);
          JoinedStep(links, l.node2, l.node1);
        }
      }
    }
  }

  /** The nodes other than `n` marked in row `n`. */
  ghost function Partners(g: Grid<bool>, n: nat, size: nat): set<nat>
    requires IsSquare(g, size) && n < size
  {
    set m | 0 <= m < size && m != n && g[n][m]
  }

  /** Marking a new pair `(u, v)` gives `u` the partner `v` and `v` the
      partner `u`, and no other node a new partner. */
  lemma PartnersStep(g: Grid<bool>, size: nat, u: nat, v: nat, n: nat)
    requires IsSquare(g, size) && u < size && v < size && n < size && !g[u][v] && !g[v][u]
    ensures var after := Partners(Mark(g, u, v), n, size);
            |after| == |Partners(g, n, size)| + if u != v && (n == u || n == v) then 1 else 0
  {
    var before := Partners(g, n, size);
    var after := Partners(Mark(g, u, v), n, size);
    if u != v && n == u {
      assert after == before + {v};
    } else if u != v && n == v {
      assert after == before + {u};
    } else {
      assert after == before;
    }
  }

  /** Each degree is the number of partners, plus two for a self-loop. */
  ghost predicate DegreesCounted(s: DegreeState, size: nat)
    requires IsSquare(s.linked, size) && |s.degrees| == size
  {
    forall n :: 0 <= n < size ==>
      s.degrees[n] == |Partners(s.linked, n, size)| + if s.linked[n][n] then 2 else 0
  }

  /** The degree of a node is the number of distinct other nodes it has
      been linked with, plus two when it has a self-loop. */
  lemma {:induction false} DegreeCount(links: seq<Link>, size: nat)
    requires Within(links, size)
    ensures DegreesCounted(DegreeScan(links, size), size)
  {
    if links != [] {
      var prefix := links[..|links| - 1];
      var l := links[|links| - 1];
      var u, v := l.node1, l.node2;
      DegreeCount(prefix, size);
      DegreeLinked(prefix, size);
      var p := DegreeScan(prefix, size);
      var s := DegreeScan(links, size);
      if !p.linked[u][v] {
        forall n | 0 <= n < size
          ensures s.degrees[n] == |Partners(s.linked, n, size)| + if s.linked[n][n] then 2 else 0
        {
          PartnersStep(p.linked, size, u, v, n);
        }
      }
    }
  }

  // ---------------------------------------------------------------------
  // count_first_and_last_apparition
  // ---------------------------------------------------------------------

  /** The state of `count_first_and_last_apparition`: one pair per node
      and the seen flags. */
  datatype ApparitionState = ApparitionState(result: seq<(Time, Time)>, seens: seq<bool>)

  /** An unseen end is first set to `(t, t)`; then both ends take `t` as
      their first component and keep their second. */
  function ApparitionScan(links: seq<Link>, size: nat): (s: ApparitionState)
    requires Within(links, size)
    ensures |s.result| == size && |s.seens| == size
  {
    if links == [] then ApparitionState(seq(size, _ => (0, 0)), seq(size, _ => false))
    else
      var prev := ApparitionScan(links[..|links| - 1], size);
      var l := links[|links| - 1];
      var n1, n2, t := l.node1, l.node2, l.time;
      var r1, s1 := if !prev.seens[n1] then prev.result[n1 := (t, t)] else prev.result,
                    prev.seens[n1 := true];
      var r2, s2 := if !s1[n2] then r1[n2 := (t, t)] else r1, s1[n2 := true];
      var r3 := r2[n1 := (t, r2[n1].1)];
      ApparitionState(r3[n2 := (t, r3[n2].1)], s2)
  }

  /** `count_first_and_last_apparition`. */
  method CountFirstAndLastApparition(links: seq<Link>, size: nat) returns (result: seq<(Time, Time)>)
    requires Within(links, size)
    ensures result == ApparitionScan(links, size).result
  {
    result := [];
    var seens: seq<bool> := [];
    for i := 0 to size
      invariant result == seq(i, _ => (0, 0)) && seens == seq(i, _ => false)
    {
      result := result + [(0, 0)];
      seens := seens + [false];
    }
    assert links[..0] == [];
    for k := 0 to |links|
      invariant ApparitionState(result, seens) == ApparitionScan(links[..k], size)
    {
      var l := links[k];
      assert links[..k + 1][..k] == links[..k];
      var n1, n2 := l.node1, l.node2;
      if !seens[n1] {
        result := result[n1 := (l.time, l.time)];
        seens := seens[n1 := true];
      }
      if !seens[n2] {
        result := result[n2 := (l.time, l.time)];
        seens := seens[n2 := true];
      }
      var (_, last) := result[n1];
      result := result[n1 := (l.time, last)];
      var (_, last2) := result[n2];
      result := result[n2 := (l.time, last2)];
    }
    assert links[..|links|] == links;
  }

  /** The pairs and flags agree with the touching links. */
  ghost predicate ApparitionsMatch(s: ApparitionState, links: seq<Link>, size: nat)
    requires |s.result| == size && |s.seens| == size
  {
    forall n :: 0 <= n < size ==>
      (s.seens[n] <==> EarliestTouch(links, n).Some?)
      && (s.seens[n] ==> LatestTouch(links, n).Some?
                         && s.result[n] == (LatestTouch(links, n).value, EarliestTouch(links, n).value))
      && (!s.seens[n] ==> s.result[n] == (0, 0))
  }

  /** A node is seen exactly when some link touches it; its pair is then
      (time of the latest touching link, time of the earliest one) in
      stream order, and `(0, 0)` otherwise. */
  lemma {:induction false} ApparitionTimes(links: seq<Link>, size: nat)
    requires Within(links, size)
    ensures ApparitionsMatch(ApparitionScan(links, size), links, size)
  {
    if links != [] {
      ApparitionTimes(links[..|links| - 1], size);
    }
  }

  /** In a stream of non-increasing times, the latest touching link has the
      smallest time and the earliest the largest: the pair is
      `(first appearance, last appearance)` in time. */
  lemma {:induction false} TouchBounds(links: seq<Link>, n: nat)
    requires NonIncreasing(links)
    ensures LatestTouch(links, n).Some? <==> EarliestTouch(links, n).Some?
    ensures EarliestTouch(links, n).Some? ==>
              exists k :: 0 <= k < |links| && Touches(links[k], n) && links[k].time == EarliestTouch(links, n).value
    ensures forall k :: 0 <= k < |links| && Touches(links[k], n) ==>
              LatestTouch(links, n).Some? && LatestTouch(links, n).value <= links[k].time <= EarliestTouch(links, n).value
  {
    if links != [] {
      var prefix := links[..|links| - 1];
      var l := links[|links| - 1];
      TouchBounds(prefix, n);
      forall k | 0 <= k < |prefix| ensures links[k] == prefix[k] {}
      if EarliestTouch(prefix, n).Some? {
        var k0 :| 0 <= k0 < |prefix| && Touches(prefix[k0], n) && prefix[k0].time == EarliestTouch(prefix, n).value;
        assert links[k0] == prefix[k0];
      }
    }
  }

  // ---------------------------------------------------------------------
  // count_nodes_and_links
  // ---------------------------------------------------------------------

  /** The `seens` list: each node id in order of first appearance, `node1`
      before `node2`. */
  function SeenNodes(links: seq<Link>): seq<nat>
  {
    if links == [] then []
    else
      var prev := SeenNodes(links[..|links| - 1]);
      var l := links[|links| - 1];
      var s1 := if l.node1 in prev then prev else prev + [l.node1];
      if l.node2 in s1 then s1 else s1 + [l.node2]
  }

  /** The set of node ids appearing in the stream. */
  ghost function Endpoints(links: seq<Link>): set<nat>
  {
    if links == [] then {}
    else Endpoints(links[..|links| - 1]) + {links[|links| - 1].node1, links[|links| - 1].node2}
  }

  /** The `seens` list holds exactly the node ids of the stream. */
  lemma {:induction false} SeenNodesMembers(links: seq<Link>)
    ensures forall x :: x in SeenNodes(links) <==> x in Endpoints(links)
  {
    if links != [] {
      SeenNodesMembers(links[..|links| - 1]);
    }
  }

  /** The `seens` list has no repeat. */
  lemma {:induction false} SeenNodesDistinct(links: seq<Link>)
    ensures Distinct(SeenNodes(links))
  {
    if links != [] {
      SeenNodesDistinct(links[..|links| - 1]);
    }
  }

  /** Adding one element grows a set by one exactly when it is new. */
  lemma AddOne(s: set<nat>, x: nat)
    ensures |s + {x}| == if x in s then |s| else |s| + 1
  {
    if x in s {
      assert s + {x} == s;
    } else {
      assert s * {x} == {};
    }
  }

  /** The `seens` list is as long as the set of node ids is large. */
  lemma {:induction false} SeenNodesCount(links: seq<Link>)
    ensures |SeenNodes(links)| == |Endpoints(links)|
  {
    if links != [] {
      var prefix := links[..|links| - 1];
      var l := links[|links| - 1];
      SeenNodesCount(prefix);
      SeenNodesMembers(prefix);
      var e := Endpoints(prefix);
      var e1 := e + {l.node1};
      AddOne(e, l.node1);
      AddOne(e1, l.node2);
      assert Endpoints(links) == e1 + {l.node2};
    }
  }

  /** `count_nodes_and_links`: the number of distinct node ids and the
      number of links. */
  method CountNodesAndLinks(links: seq<Link>) returns (nodes: nat, count: nat)
    ensures nodes == |Endpoints(links)| && count == |links|
  {
    var seens: seq<nat> := [];
    count := 0;
    assert links[..0] == [];
    for k := 0 to |links|
      invariant seens == SeenNodes(links[..k]) && count == k
    {
      var l := links[k];
      assert links[..k + 1][..k] == links[..k];
      count := count + 1;
      if l.node1 !in seens {
        seens := seens + [l.node1];
      }
      if l.node2 !in seens {
        seens := seens + [l.node2];
      }
    }
    assert links[..|links|] == links;
    SeenNodesCount(links);
    nodes := |seens|;
  }
}
