/** The streaming passes built on the distance tracker: the Δ-reachability
    graph (`delta_reachability_graph`, `maj_reach_graph`) and the
    Δ-connectivity report (`is_delta_connected`). Both feed every link that
    passes the filters to `maj_distance` and act on each change of
    timestamp. */
module Reachability {
  import opened Links
  import opened Matrices
  import opened Filters
  import opened Distance

  /** Every link that passes the filters names nodes of the matrix. */
  ghost predicate InRange(links: seq<Link>, size: nat, nf: NodeFilter, tf: TimeFilter)
  {
    forall k :: 0 <= k < |links| && Combine(links[k], nf, tf) ==> links[k].node1 < size && links[k].node2 < size
  }

  /** The times of the links that pass the filters, in stream order. */
  function FilteredTimes(links: seq<Link>, nf: NodeFilter, tf: TimeFilter): seq<Time>
  {
    if links == [] then []
    else
      var l := links[|links| - 1];
      FilteredTimes(links[..|links| - 1], nf, tf) + (if Combine(l, nf, tf) then [l.time] else [])
  }

  /** The times at which a sequence of times changes value: each element
      that differs from the one before it. */
  function Boundaries(ts: seq<Time>): seq<Time>
  {
    if |ts| <= 1 then []
    else Boundaries(ts[..|ts| - 1]) + (if ts[|ts| - 1] != ts[|ts| - 2] then [ts[|ts| - 1]] else [])
  }

  /** The time of the last link that passes the filters, `MAX` if none. */
  function LastFiltered(links: seq<Link>, nf: NodeFilter, tf: TimeFilter): Time
  {
    var ts := FilteredTimes(links, nf, tf);
    if ts == [] then MAX else ts[|ts| - 1]
  }

  /** A time no larger than any link time is no larger than the last
      filtered time. */
  lemma {:induction false} LastFilteredAbove(links: seq<Link>, nf: NodeFilter, tf: TimeFilter, t: Time)
    requires forall k :: 0 <= k < |links| ==> t <= links[k].time
    ensures t <= LastFiltered(links, nf, tf)
  {
    if links != [] && !Combine(links[|links| - 1], nf, tf) {
      LastFilteredAbove(links[..|links| - 1], nf, tf, t);
    }
  }

  /** The loop state `(dist, p_dist, curr)`, `pcurr` and `first` shared by
      both passes. */
  datatype Sweep = Sweep(tracker: Tracker, pcurr: Time, first: bool)

  function Start(size: nat): (s: Sweep)
    ensures WellFormed(s.tracker, size)
  {
    Sweep(Initial(size), MAX, true)
  }

  /** A filtered link ends a timestamp when it is not the first one and its
      time (the tracked time once `maj_distance` has run) differs from
      `pcurr`. */
  predicate Boundary(s: Sweep, l: Link)
  {
    !s.first && l.time != s.pcurr
  }

  /** The sweep after a filtered link: the tracker steps, and `pcurr`
      follows the tracked time, which is the link's time. */
  function Advance(s: Sweep, l: Link): (r: Sweep)
    requires WellFormed(s.tracker, |s.tracker.dist|)
    requires l.node1 < |s.tracker.dist| && l.node2 < |s.tracker.dist|
    ensures WellFormed(r.tracker, |s.tracker.dist|)
  {
    Sweep(Step(s.tracker, l), l.time, false)
  }

  // ---------------------------------------------------------------------
  // Reachability graph
  // ---------------------------------------------------------------------

  /** The graph after `maj_reach_graph(reach, dist, time, delta)`: an entry
      is cleared when it is 1 and `dist - time` exceeds `delta`. The
      subtraction is on `u64`, so `dist` may not be below `time`. Entries
      only ever go from 1 to 0, so a 0/1 graph stays 0/1. */
  function Refresh(reach: Grid<Time>, dist: Grid<Time>, time: Time, delta: Time): (r: Grid<Time>)
    requires IsSquare(reach, |reach|) && IsSquare(dist, |reach|)
    requires forall i, j :: 0 <= i < |reach| && 0 <= j < |reach| ==> dist[i][j] >= time
    ensures IsSquare(r, |reach|)
    ensures forall i, j :: 0 <= i < |reach| && 0 <= j < |reach| ==>
              r[i][j] == reach[i][j] || (reach[i][j] == 1 && r[i][j] == 0)
    ensures forall i, j :: 0 <= i < |reach| && 0 <= j < |reach| ==>
              (r[i][j] == 0 <==> reach[i][j] == 0 || dist[i][j] - time > delta)
              || (reach[i][j] != 1 && reach[i][j] != 0)
  {
    seq(|reach|, i requires 0 <= i < |reach| =>
      seq(|reach|, j requires 0 <= j < |reach| =>
        if reach[i][j] == 1 && dist[i][j] - time > delta then 0 else reach[i][j]))
  }

  /** The state of `delta_reachability_graph` after a prefix of the stream. */
  datatype ReachState = ReachState(sweep: Sweep, reach: Grid<Time>)

  /** `delta_reachability_graph` as a fold over the stream: the graph starts
      all ones and is refreshed at every change of timestamp. Fed in
      non-increasing time order, the tracker keeps every entry at or above
      the tracked time (so the subtraction in `maj_reach_graph` never
      underflows), and the graph stays 0/1. */
  function ScanReach(links: seq<Link>, delta: Time, size: nat, nf: NodeFilter, tf: TimeFilter): (r: ReachState)
    requires NonIncreasing(links) && InRange(links, size, nf, tf)
    ensures WellFormed(r.sweep.tracker, size) && IsSquare(r.reach, size)
    ensures AboveCurrent(r.sweep.tracker)
    ensures r.sweep.tracker.curr == LastFiltered(links, nf, tf)
    ensures r.sweep.first <==> FilteredTimes(links, nf, tf) == []
    ensures forall i, j :: 0 <= i < size && 0 <= j < size ==> r.reach[i][j] == 0 || r.reach[i][j] == 1
  {
    if links == [] then ReachState(Start(size), Filled(1, size))
    else
      var prefix := links[..|links| - 1];
      var l := links[|links| - 1];
      var prev := ScanReach(prefix, delta, size, nf, tf);
      if !Combine(l, nf, tf) then prev
      else
        LastFilteredAbove(prefix, nf, tf, l.time);
        StepLowers(prev.sweep.tracker, l);
        var sw := Advance(prev.sweep, l);
        if Boundary(prev.sweep, l) then ReachState(sw, Refresh(prev.reach, sw.tracker.dist, l.time, delta))
        else ReachState(sw, prev.reach)
  }

  /** The graph never gains an entry: each link can only clear entries. */
  lemma ReachMonotone(links: seq<Link>, delta: Time, size: nat, nf: NodeFilter, tf: TimeFilter)
    requires NonIncreasing(links) && InRange(links, size, nf, tf) && links != []
    ensures var before := ScanReach(links[..|links| - 1], delta, size, nf, tf).reach;
            var after := ScanReach(links, delta, size, nf, tf).reach;
            forall i, j :: 0 <= i < size && 0 <= j < size ==>
              after[i][j] <= before[i][j] && (after[i][j] == 1 ==> before[i][j] == 1)
  {
  }

  /** Once a filtered link `(x, y, t)` has been processed, the current
      distance from `x` to `y` (and from `y` to `x`) is at most `t`: direct
      contact is never worse than the latest event. */
  lemma {:induction false} DirectContact(links: seq<Link>, delta: Time, size: nat, nf: NodeFilter, tf: TimeFilter, k: nat)
    requires NonIncreasing(links) && InRange(links, size, nf, tf)
    requires k < |links| && Combine(links[k], nf, tf)
    ensures var d := ScanReach(links, delta, size, nf, tf).sweep.tracker.dist;
            d[links[k].node1][links[k].node2] <= links[k].time && d[links[k].node2][links[k].node1] <= links[k].time
  {
    var prefix := links[..|links| - 1];
    var l := links[|links| - 1];
    var prev := ScanReach(prefix, delta, size, nf, tf);
    if k < |links| - 1 {
      DirectContact(prefix, delta, size, nf, tf, k);
      assert prefix[k] == links[k];
      if Combine(l, nf, tf) {
        LastFilteredAbove(prefix, nf, tf, l.time);
        StepLowers(prev.sweep.tracker, l);
      }
    }
  }

  /** `maj_reach_graph`: clear every entry that is 1 and whose distance is
      more than `delta` past `time`. */
  method MajReachGraph(reach: Matrix<Time>, dist: Matrix<Time>, time: Time, delta: Time)
    requires reach.Valid() && dist.Valid() && reach != dist && reach.size == dist.size
    requires forall i, j :: 0 <= i < dist.size && 0 <= j < dist.size ==> dist.matrix[i][j] >= time
    modifies reach
    ensures reach.Valid() && reach.size == old(reach.size)
    ensures reach.matrix == Refresh(old(reach.matrix), dist.matrix, time, delta)
  {
    var n := dist.size;
    for i := 0 to n
      invariant reach.Valid() && reach.size == n
      invariant forall x, y :: 0 <= x < n && 0 <= y < n ==>
                  reach.matrix[x][y] == if x < i then Refresh(old(reach.matrix), dist.matrix, time, delta)[x][y]
                                        else old(reach.matrix)[x][y]
    {
      for j := 0 to n
        invariant reach.Valid() && reach.size == n
        invariant forall x, y :: 0 <= x < n && 0 <= y < n ==>
                    reach.matrix[x][y] == if x < i || (x == i && y < j) then Refresh(old(reach.matrix), dist.matrix, time, delta)[x][y]
                                          else old(reach.matrix)[x][y]
      {
        if reach.Get(i, j) == 1 {
          if dist.Get(i, j) - time > delta {
            reach.Set(i, j, 0);
          }
        }
      }
    }
    GridExtensionality(reach.matrix, Refresh(old(reach.matrix), dist.matrix, time, delta), n);
  }

  /** `delta_reachability_graph`. */
  method DeltaReachabilityGraph(links: seq<Link>, delta: Time, size: nat, nf: NodeFilter, tf: TimeFilter)
    returns (reach: Matrix<Time>)
    requires NonIncreasing(links) && InRange(links, size, nf, tf)
    ensures fresh(reach) && reach.Valid() && reach.size == size
    ensures reach.matrix == ScanReach(links, delta, size, nf, tf).reach
  {
    var dist := new Matrix<Time>(MAX, size);
    var pDist := new Matrix<Time>(MAX, size);
    reach := new Matrix<Time>(1, size);
    var curr: Time := MAX;
    var pcurr: Time := curr;
    var first := true;
    assert links[..0] == [];
    for k := 0 to |links|
      invariant dist.Valid() && pDist.Valid() && reach.Valid()
      invariant dist.size == size && pDist.size == size && reach.size == size
      invariant ReachState(Sweep(Tracker(dist.matrix, pDist.matrix, curr), pcurr, first), reach.matrix)
             == ScanReach(links[..k], delta, size, nf, tf)
    {
      var link := links[k];
      assert links[..k + 1][..k] == links[..k];
      if Combine(link, nf, tf) {
        LastFilteredAbove(links[..k], nf, tf, link.time);
        StepLowers(Tracker(dist.matrix, pDist.matrix, curr), link);
        curr := MajDistance(link, dist, pDist, curr);
        if first {
          pcurr := curr;
          first := false;
        }
        if curr != pcurr {
          pcurr := curr;
          MajReachGraph(reach, dist, link.time, delta);
        }
      }
    }
    assert links[..|links|] == links;
  }

  // ---------------------------------------------------------------------
  // Delta-connectivity report
  // ---------------------------------------------------------------------

  /** The predicate `is_subset_delta_clique(matrix, t, delta, filter)`,
      whose definition is not part of this model. */
  type DeltaCliqueTest = (Grid<Time>, Time, Time, NodeFilter) -> bool

  datatype ConnState = ConnState(sweep: Sweep, results: seq<(Time, bool)>)

  /** `is_delta_connected` as a fold over the stream: at each change of
      timestamp, the verdict of the Δ-clique test on the current matrix at
      the new time is appended. */
  function ScanConn(links: seq<Link>, delta: Time, size: nat, nf: NodeFilter, tf: TimeFilter, deltaClique: DeltaCliqueTest)
    : (r: ConnState)
    requires InRange(links, size, nf, tf)
    ensures WellFormed(r.sweep.tracker, size)
    ensures r.sweep.first <==> FilteredTimes(links, nf, tf) == []
    ensures !r.sweep.first ==> r.sweep.pcurr == LastFiltered(links, nf, tf)
  {
    if links == [] then ConnState(Start(size), [])
    else
      var prefix := links[..|links| - 1];
      var l := links[|links| - 1];
      var prev := ScanConn(prefix, delta, size, nf, tf, deltaClique);
      if !Combine(l, nf, tf) then prev
      else
        var sw := Advance(prev.sweep, l);
        if Boundary(prev.sweep, l) then
          ConnState(sw, prev.results + [(l.time, deltaClique(sw.tracker.dist, l.time, delta, nf))])
        else ConnState(sw, prev.results)
  }

  function TimesOf<T>(results: seq<(Time, T)>): (ts: seq<Time>)
    ensures |ts| == |results| && forall k :: 0 <= k < |results| ==> ts[k] == results[k].0
  {
    seq(|results|, k requires 0 <= k < |results| => results[k].0)
  }

  /** One report per change of timestamp among the filtered links, stamped
      with the new time; the first filtered link opens no report. */
  lemma {:induction false} ConnTimes(links: seq<Link>, delta: Time, size: nat, nf: NodeFilter, tf: TimeFilter, deltaClique: DeltaCliqueTest)
    requires InRange(links, size, nf, tf)
    ensures TimesOf(ScanConn(links, delta, size, nf, tf, deltaClique).results) == Boundaries(FilteredTimes(links, nf, tf))
  {
    if links != [] {
      var prefix := links[..|links| - 1];
      var l := links[|links| - 1];
      ConnTimes(prefix, delta, size, nf, tf, deltaClique);
      var prev := ScanConn(prefix, delta, size, nf, tf, deltaClique);
      var ts := FilteredTimes(prefix, nf, tf);
      if Combine(l, nf, tf) {
        var ts' := ts + [l.time];
        assert FilteredTimes(links, nf, tf) == ts';
        assert ts'[..|ts'| - 1] == ts;
        if ts == [] {
          assert Boundaries(ts') == [];
        } else {
          assert Boundaries(ts') == Boundaries(ts) + (if l.time != ts[|ts| - 1] then [l.time] else []);
          assert prev.sweep.pcurr == ts[|ts| - 1];
        }
        assert TimesOf(prev.results + [(l.time, deltaClique(Advance(prev.sweep, l).tracker.dist, l.time, delta, nf))])
            == TimesOf(prev.results) + [l.time];
      } else {
        assert FilteredTimes(links, nf, tf) == ts;
      }
    }
  }

  /** Times in non-increasing order, or in strictly decreasing order when
      `strict` holds. */
  predicate Sorted(ts: seq<Time>, strict: bool)
  {
    forall i, j :: 0 <= i < j < |ts| ==> ts[j] < ts[i] || (!strict && ts[j] == ts[i])
  }

  /** In a non-increasing stream the filtered times do not increase either. */
  lemma {:induction false} FilteredTimesNonIncreasing(links: seq<Link>, nf: NodeFilter, tf: TimeFilter)
    requires NonIncreasing(links)
    ensures Sorted(FilteredTimes(links, nf, tf), false)
    ensures forall t :: t in FilteredTimes(links, nf, tf) ==> exists k :: 0 <= k < |links| && links[k].time == t
  {
    if links != [] {
      var prefix := links[..|links| - 1];
      FilteredTimesNonIncreasing(prefix, nf, tf);
      var ts := FilteredTimes(prefix, nf, tf);
      var l := links[|links| - 1];
      forall t | t in ts
        ensures l.time <= t && exists k :: 0 <= k < |links| && links[k].time == t
      {
        var k :| 0 <= k < |prefix| && prefix[k].time == t;
        assert links[k] == prefix[k];
      }
      if Combine(l, nf, tf) {
        var ts' := ts + [l.time];
        assert FilteredTimes(links, nf, tf) == ts';
        forall i, j | 0 <= i < j < |ts'|
          ensures ts'[j] <= ts'[i]
        {
          assert ts'[i] == ts[i] && ts[i] in ts;
          if j < |ts| {
            assert ts'[j] == ts[j];
          }
        }
      } else {
        assert FilteredTimes(links, nf, tf) == ts;
      }
    }
  }

  /** The changes of a non-increasing sequence of times strictly decrease,
      and none is below its last element. */
  lemma {:induction false} BoundariesDecrease(ts: seq<Time>)
    requires Sorted(ts, false)
    ensures Sorted(Boundaries(ts), true)
    ensures forall t :: t in Boundaries(ts) ==> t in ts && t >= ts[|ts| - 1]
  {
    if |ts| > 1 {
      var n := |ts|;
      var prefix := ts[..n - 1];
      BoundariesDecrease(prefix);
      var b := Boundaries(prefix);
      var b' := Boundaries(ts);
      assert prefix[n - 2] == ts[n - 2];
      forall t | t in b
        ensures t in ts && t >= ts[n - 2] >= ts[n - 1]
      {
        var k :| 0 <= k < |prefix| && prefix[k] == t;
        assert ts[k] == t;
      }
      if ts[n - 1] != ts[n - 2] {
        assert b' == b + [ts[n - 1]];
        forall i, j | 0 <= i < j < |b'|
          ensures b'[j] < b'[i]
        {
          if j == |b| {
            assert b[i] in b;
          }
        }
      } else {
        assert b' == b;
      }
    }
  }

  /** Fed in non-increasing time order, the connectivity report carries
      strictly decreasing times. */
  lemma ConnTimesDecrease(links: seq<Link>, delta: Time, size: nat, nf: NodeFilter, tf: TimeFilter, deltaClique: DeltaCliqueTest)
    requires NonIncreasing(links) && InRange(links, size, nf, tf)
    ensures var rs := ScanConn(links, delta, size, nf, tf, deltaClique).results;
            forall i, j :: 0 <= i < j < |rs| ==> rs[j].0 < rs[i].0
  {
    ConnTimes(links, delta, size, nf, tf, deltaClique);
    FilteredTimesNonIncreasing(links, nf, tf);
    BoundariesDecrease(FilteredTimes(links, nf, tf));
    var rs := ScanConn(links, delta, size, nf, tf, deltaClique).results;
    assert forall k :: 0 <= k < |rs| ==> rs[k].0 == TimesOf(rs)[k];
  }

  /** `is_delta_connected` (without its console output). */
  method IsDeltaConnected(links: seq<Link>, delta: Time, size: nat, nf: NodeFilter, tf: TimeFilter,
                          deltaClique: DeltaCliqueTest)
    returns (resultat: seq<(Time, bool)>)
    requires InRange(links, size, nf, tf)
    ensures resultat == ScanConn(links, delta, size, nf, tf, deltaClique).results
  {
    resultat := [];
    var dist := new Matrix<Time>(MAX, size);
    var pDist := new Matrix<Time>(MAX, size);
    var curr: Time := MAX;
    var pcurr: Time := curr;
    var first := true;
    assert links[..0] == [];
    for k := 0 to |links|
      invariant dist.Valid() && pDist.Valid() && dist.size == size && pDist.size == size
      invariant ConnState(Sweep(Tracker(dist.matrix, pDist.matrix, curr), pcurr, first), resultat)
             == ScanConn(links[..k], delta, size, nf, tf, deltaClique)
    {
      var link := links[k];
      assert links[..k + 1][..k] == links[..k];
      if Combine(link, nf, tf) {
        curr := MajDistance(link, dist, pDist, curr);
        if first {
          pcurr := curr;
          first := false;
        }
        if curr != pcurr {
          pcurr := curr;
          var res := deltaClique(dist.matrix, pcurr, delta, nf);
          resultat := resultat + [(curr, res)];
        }
      }
    }
    assert links[..|links|] == links;
  }
}
