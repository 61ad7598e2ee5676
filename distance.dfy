/** The distance tracker of `maj_distance`: two `size` × `size` matrices of
    times, the current one `dist` and the snapshot `p_dist` of the previous
    timestamp, plus the tracked timestamp `curr` whose sentinel is `MAX`. */
module Distance {
  import opened Links
  import opened Matrices

  function Min(a: Time, b: Time): (m: Time)
    ensures m <= a && m <= b && (m == a || m == b)
  {
    if a <= b then a else b
  }

  /** The tracker's state as values. */
  datatype Tracker = Tracker(dist: Grid<Time>, pDist: Grid<Time>, curr: Time)

  ghost predicate WellFormed(s: Tracker, size: nat)
  {
    IsSquare(s.dist, size) && IsSquare(s.pDist, size)
  }

  /** The state before the first record: both matrices full of `MAX`. */
  function Initial(size: nat): (s: Tracker)
    ensures WellFormed(s, size)
  {
    Tracker(Filled<Time>(MAX, size), Filled<Time>(MAX, size), MAX)
  }

  /** No entry of the current matrix is below the tracked timestamp (so,
      while `curr` is the sentinel, every entry is `MAX`). */
  ghost predicate AboveCurrent(s: Tracker)
  {
    forall x, y :: 0 <= x < |s.dist| && 0 <= y < |s.dist[x]| ==> s.dist[x][y] >= s.curr
  }

  /** Entry `(x, y)` after the relaxation loop for the record `(u, v, t)`,
      from the current matrix `d` and the snapshot `p`: column `u` of row
      `v` and column `v` of row `u` become `t`; any other column `y` of row
      `v` (of row `u`) is lowered to `p[u][y]` (to `p[v][y]`) when that
      snapshot entry is later than `t`. */
  function RelaxedEntry(d: Grid<Time>, p: Grid<Time>, u: nat, v: nat, t: Time, x: nat, y: nat): Time
    requires IsSquare(d, |d|) && IsSquare(p, |d|) && u < |d| && v < |d| && x < |d| && y < |d|
  {
    if x == v && y == u then t
    else if x == u && y == v then t
    else if y == u || y == v then d[x][y]
    else if x == v && p[u][y] > t then Min(d[x][y], p[u][y])
    else if x == u && p[v][y] > t then Min(d[x][y], p[v][y])
    else d[x][y]
  }

  function Relax(d: Grid<Time>, p: Grid<Time>, u: nat, v: nat, t: Time): (r: Grid<Time>)
    requires IsSquare(d, |d|) && IsSquare(p, |d|) && u < |d| && v < |d|
    ensures IsSquare(r, |d|)
  {
    seq(|d|, x requires 0 <= x < |d| =>
      seq(|d|, y requires 0 <= y < |d| => RelaxedEntry(d, p, u, v, t, x, y)))
  }

  /** The reset at the head of `maj_distance`: on the first record the
      timestamp is taken and the diagonal set to it; on a new timestamp the
      snapshot is taken, then the diagonal is reset and the timestamp
      moves. */
  function Prepare(s: Tracker, t: Time): (r: Tracker)
    requires WellFormed(s, |s.dist|)
    ensures WellFormed(r, |s.dist|) && r.curr == t
  {
    var s1 := if s.curr == MAX then Tracker(Diagonal(s.dist, t), s.pDist, t) else s;
    if s1.curr != t then Tracker(Diagonal(s1.dist, t), s1.dist, t) else s1
  }

  /** One call of `maj_distance` on the record `l`. */
  function Step(s: Tracker, l: Link): (r: Tracker)
    requires WellFormed(s, |s.dist|) && l.node1 < |s.dist| && l.node2 < |s.dist|
    ensures WellFormed(r, |s.dist|)
    ensures r.curr == l.time
    ensures r.dist[l.node2][l.node1] == l.time && r.dist[l.node1][l.node2] == l.time
  {
    var p := Prepare(s, l.time);
    Tracker(Relax(p.dist, p.pDist, l.node1, l.node2, l.time), p.pDist, l.time)
  }

  /** The snapshot is replaced by an exact copy of the current matrix, taken
      before its diagonal is reset, exactly when a tracked timestamp changes;
      otherwise it is untouched. On a change, and on the first record, the
      whole diagonal becomes the new time. */
  lemma StepSnapshot(s: Tracker, l: Link)
    requires WellFormed(s, |s.dist|) && l.node1 < |s.dist| && l.node2 < |s.dist|
    ensures Step(s, l).pDist == if s.curr != MAX && s.curr != l.time then s.dist else s.pDist
    ensures s.curr == MAX || s.curr != l.time ==>
              forall x :: 0 <= x < |s.dist| ==> Step(s, l).dist[x][x] == l.time
  {
    var n := |s.dist|;
    if s.curr == MAX || s.curr != l.time {
      forall x | 0 <= x < n
        ensures Step(s, l).dist[x][x] == l.time
      {
      }
    }
  }

  /** Only rows `u` and `v`, and the diagonal when the timestamp changes,
      are written. */
  lemma StepFrame(s: Tracker, l: Link)
    requires WellFormed(s, |s.dist|) && l.node1 < |s.dist| && l.node2 < |s.dist|
    ensures forall x, y :: 0 <= x < |s.dist| && 0 <= y < |s.dist| && x != l.node1 && x != l.node2 && x != y ==>
              Step(s, l).dist[x][y] == s.dist[x][y]
    ensures s.curr != MAX && s.curr == l.time ==>
              forall x, y :: 0 <= x < |s.dist| && 0 <= y < |s.dist| && x != l.node1 && x != l.node2 ==>
                Step(s, l).dist[x][y] == s.dist[x][y]
  {
  }

  /** Fed in non-increasing time order, the tracker never raises an entry,
      and every entry stays at or above the tracked timestamp, which is the
      time of the record just processed. */
  lemma StepLowers(s: Tracker, l: Link)
    requires WellFormed(s, |s.dist|) && l.node1 < |s.dist| && l.node2 < |s.dist|
    requires AboveCurrent(s) && l.time <= s.curr
    ensures AboveCurrent(Step(s, l))
    ensures forall x, y :: 0 <= x < |s.dist| && 0 <= y < |s.dist| ==>
              l.time <= Step(s, l).dist[x][y] <= s.dist[x][y]
  {
    var n, t := |s.dist|, l.time;
    var s2 := Prepare(s, t);
    assert forall x, y :: 0 <= x < n && 0 <= y < n ==> t <= s2.dist[x][y] <= s.dist[x][y];
    var r := Step(s, l);
    assert r.dist == Relax(s2.dist, s2.pDist, l.node1, l.node2, t);
    forall x, y | 0 <= x < n && 0 <= y < n
      ensures t <= r.dist[x][y] <= s.dist[x][y]
    {
      assert r.dist[x][y] == RelaxedEntry(s2.dist, s2.pDist, l.node1, l.node2, t, x, y);
    }
  }

  /** The column loop of `maj_distance` for one column `i`. */
  method RelaxColumn(dist: Matrix<Time>, pDist: Matrix<Time>, u: nat, v: nat, t: Time, i: nat)
    requires dist.Valid() && pDist.Valid() && dist != pDist && dist.size == pDist.size
    requires u < dist.size && v < dist.size && i < dist.size
    modifies dist
    ensures dist.Valid() && dist.size == old(dist.size)
    ensures forall x, y :: 0 <= x < dist.size && 0 <= y < dist.size ==>
              dist.matrix[x][y] == if y == i then RelaxedEntry(old(dist.matrix), pDist.matrix, u, v, t, x, y)
                                   else old(dist.matrix)[x][y]
  {
    if u == i {
      dist.Set(v, i, t);
    } else if v == i {
      dist.Set(u, i, t);
    } else {
      if pDist.Get(u, i) > t {
        var minRes := Min(dist.Get(v, i), pDist.Get(u, i));
        dist.Set(v, i, minRes);
      }
      if pDist.Get(v, i) > t {
        var minRes := Min(dist.Get(u, i), pDist.Get(v, i));
        dist.Set(u, i, minRes);
      }
    }
  }

  /** `maj_distance`: reset on the first record or a new timestamp, then one
      relaxation pass over the columns. */
  method MajDistance(link: Link, dist: Matrix<Time>, pDist: Matrix<Time>, curr: Time) returns (newCurr: Time)
    requires dist.Valid() && pDist.Valid() && dist != pDist && dist.size == pDist.size
    requires link.node1 < dist.size && link.node2 < dist.size
    modifies dist, pDist
    ensures dist.Valid() && pDist.Valid() && dist.size == old(dist.size) && pDist.size == old(pDist.size)
    ensures Tracker(dist.matrix, pDist.matrix, newCurr)
         == Step(Tracker(old(dist.matrix), old(pDist.matrix), curr), link)
  {
    var u, v, t := link.node1, link.node2, link.time;
    newCurr := curr;
    if newCurr == MAX {
      newCurr := t;
      dist.Diag(t);
    }
    if newCurr != t {
      pDist.Copy(dist);
      dist.Diag(t);
      newCurr := t;
    }
    ghost var d1 := dist.matrix;
    assert Tracker(d1, pDist.matrix, newCurr) == Prepare(Tracker(old(dist.matrix), old(pDist.matrix), curr), t);
    var i := 0;
    while i < dist.size
      modifies dist
      invariant i <= dist.size
      invariant dist.Valid() && dist.size == old(dist.size) && |d1| == dist.size
      invariant forall x, y :: 0 <= x < dist.size && 0 <= y < dist.size ==>
                  dist.matrix[x][y] == if y < i then RelaxedEntry(d1, pDist.matrix, u, v, t, x, y) else d1[x][y]
    {
      RelaxColumn(dist, pDist, u, v, t, i);
      i := i + 1;
    }
    GridExtensionality(dist.matrix, Relax(d1, pDist.matrix, u, v, t), dist.size);
  }
}
