/** The square matrix the engine runs on: `size` rows of `size` entries,
    stored as a vector of row vectors and updated in place. */
module Matrices {
  import opened Links

  /** The contents of a matrix, row by row. */
  type Grid<V> = seq<seq<V>>

  /** `size` rows of `size` entries each. */
  ghost predicate IsSquare<V>(g: Grid<V>, size: nat)
  {
    |g| == size && forall x :: 0 <= x < size ==> |g[x]| == size
  }

  /** Two square grids of one size with the same entries are the same grid. */
  lemma GridExtensionality<V>(a: Grid<V>, b: Grid<V>, size: nat)
    requires IsSquare(a, size) && IsSquare(b, size)
    requires forall x, y :: 0 <= x < size && 0 <= y < size ==> a[x][y] == b[x][y]
    ensures a == b
  {
    forall x | 0 <= x < size
      ensures a[x] == b[x]
    {
      assert forall y :: 0 <= y < size ==> a[x][y] == b[x][y];
    }
  }

  /** The contents of `Matrix::new(elem, size)`. */
  function Filled<V>(elem: V, size: nat): (g: Grid<V>)
    ensures IsSquare(g, size)
    ensures forall x, y :: 0 <= x < size && 0 <= y < size ==> g[x][y] == elem
  {
    seq(size, _ => seq(size, _ => elem))
  }

  /** `Vec::swap_remove(i)` as seen from the vector: the last element is
      moved into slot `i`, then the vector is shortened by one. */
  function SwapRemove<V>(row: seq<V>, i: nat): (r: seq<V>)
    requires i < |row|
    ensures |r| == |row| - 1
  {
    row[i := row[|row| - 1]][..|row| - 1]
  }

  /** Pushing `e` and then swap-removing slot `y` overwrites slot `y` with
      `e`: the way `set` writes one entry. */
  lemma PushSwapRemove<V>(row: seq<V>, y: nat, e: V)
    requires y < |row|
    ensures SwapRemove(row + [e], y) == row[y := e]
  {
  }

  /** The contents after `diag(item)`. */
  function Diagonal<V>(g: Grid<V>, item: V): (r: Grid<V>)
    requires IsSquare(g, |g|)
    ensures IsSquare(r, |g|)
    ensures forall x, y :: 0 <= x < |g| && 0 <= y < |g| ==>
              r[x][y] == if x == y then item else g[x][y]
  {
    seq(|g|, x requires 0 <= x < |g| => g[x][x := item])
  }

  class Matrix<V> {
    var matrix: Grid<V>
    var size: nat

    ghost predicate Valid()
      reads this
    {
      IsSquare(matrix, size)
    }

    /** `Matrix::new(elem, size)`: `size` rows, each built by pushing `elem`
        `size` times. */
    constructor (elem: V, size: nat)
      ensures Valid() && this.size == size
      ensures matrix == Filled(elem, size)
    {
      var mat: Grid<V> := [];
      var r := 0;
      while r < size
        invariant r <= size
        invariant mat == Filled(elem, size)[..r]
      {
        var line: seq<V> := [];
        var c := 0;
        while c < size
          invariant c <= size
          invariant line == seq(c, _ => elem)
        {
          line := line + [elem];
          c := c + 1;
        }
        mat := mat + [line];
        r := r + 1;
      }
      matrix := mat;
      this.size := size;
    }

    /** `get(x, y)`. */
    function Get(x: nat, y: nat): V
      reads this
      requires Valid() && x < size && y < size
    {
      matrix[x][y]
    }

    /** `set(x, y, elem)`: push `elem` on row `x`, then swap-remove slot `y`.
        The source asserts `y < size`; an `x` out of range fails on the row
        index. */
    method Set(x: nat, y: nat, elem: V)
      requires Valid() && x < size && y < size
      modifies this
      ensures Valid() && size == old(size)
      ensures matrix == old(matrix)[x := old(matrix)[x][y := elem]]
      ensures Get(x, y) == elem
      ensures forall i, j :: 0 <= i < size && 0 <= j < size && (i != x || j != y) ==>
                Get(i, j) == old(Get(i, j))
    {
      PushSwapRemove(matrix[x], y, elem);
      matrix := matrix[x := matrix[x] + [elem]];
      matrix := matrix[x := SwapRemove(matrix[x], y)];
    }

    /** `diag(item)`: set every `(x, x)` to `item`. */
    method Diag(item: V)
      requires Valid()
      modifies this
      ensures Valid() && size == old(size)
      ensures matrix == Diagonal(old(matrix), item)
    {
      var x := 0;
      while x < size
        invariant x <= size
        invariant Valid() && size == old(size)
        invariant forall i, j :: 0 <= i < size && 0 <= j < size ==>
                    matrix[i][j] == if i == j && i < x then item else old(matrix)[i][j]
      {
        Set(x, x, item);
        x := x + 1;
      }
      GridExtensionality(matrix, Diagonal(old(matrix), item), size);
    }

    /** `copy(other)`: the sizes must agree (the source asserts it); then
        every entry of `other` is written into this matrix. */
    method Copy(other: Matrix<V>)
      requires Valid() && other.Valid() && other != this
      requires size == other.size
      modifies this
      ensures Valid() && size == old(size)
      ensures matrix == other.matrix
    {
      var x := 0;
      while x < size
        invariant x <= size
        invariant Valid() && size == old(size)
        invariant forall i, j :: 0 <= i < x && 0 <= j < size ==> matrix[i][j] == other.matrix[i][j]
      {
        var y := 0;
        while y < size
          invariant y <= size
          invariant Valid() && size == old(size)
          invariant forall i, j :: 0 <= i < x && 0 <= j < size ==> matrix[i][j] == other.matrix[i][j]
          invariant forall j :: 0 <= j < y ==> matrix[x][j] == other.matrix[x][j]
        {
          Set(x, y, other.Get(x, y));
          y := y + 1;
        }
        x := x + 1;
      }
      GridExtensionality(matrix, other.matrix, size);
    }
  }

  /** The `matrix_set_get_test` of the source: a fresh matrix reads its
      initial element everywhere, and a written cell reads the new value. */
  method SetGetExample()
  {
    var m := new Matrix<nat>(0, 10);
    assert m.Get(0, 0) == 0;
    assert m.Get(9, 9) == 0;
    m.Set(0, 0, 1);
    assert m.Get(0, 0) == 1;
    assert m.Get(9, 9) == 0;
  }

  // ---------------------------------------------------------------------
  // Clique predicates
  // ---------------------------------------------------------------------

  /** No pair `(x, y)` of filtered nodes, `x == y` included, has a zero
      entry. */
  ghost predicate SubsetClique(g: Grid<Time>, size: nat, f: nat -> bool)
    requires IsSquare(g, size)
  {
    forall x, y :: 0 <= x < size && 0 <= y < size && f(x) && f(y) ==> g[x][y] != 0
  }

  /** `is_subset_clique`: scan the rows of filtered nodes and stop at the
      first zero entry between filtered nodes. */
  method IsSubsetClique(m: Matrix<Time>, f: nat -> bool) returns (r: bool)
    requires m.Valid()
    ensures r <==> SubsetClique(m.matrix, m.size, f)
  {
    for x := 0 to m.size
      invariant forall i, j :: 0 <= i < x && 0 <= j < m.size && f(i) && f(j) ==> m.matrix[i][j] != 0
    {
      if f(x) {
        for y := 0 to m.size
          invariant forall j :: 0 <= j < y && f(j) ==> m.matrix[x][j] != 0
        {
          if f(y) && m.Get(x, y) == 0 {
            return false;
          }
        }
      }
    }
    return true;
  }

  /** The filter that keeps every node. */
  function KeepAll(n: nat): bool { true }

  /** `is_clique`: the whole matrix has no zero entry, which is
      `is_subset_clique` under the filter that keeps every node. */
  method IsClique(m: Matrix<Time>) returns (r: bool)
    requires m.Valid()
    ensures r <==> SubsetClique(m.matrix, m.size, KeepAll)
    ensures r <==> forall x, y :: 0 <= x < m.size && 0 <= y < m.size ==> m.matrix[x][y] != 0
  {
    for x := 0 to m.size
      invariant forall i, j :: 0 <= i < x && 0 <= j < m.size ==> m.matrix[i][j] != 0
    {
      for y := 0 to m.size
        invariant forall j :: 0 <= j < y ==> m.matrix[x][j] != 0
      {
        if m.Get(x, y) == 0 {
          assert KeepAll(x) && KeepAll(y);
          return false;
        }
      }
    }
    return true;
  }

  // ---------------------------------------------------------------------
  // Neighbourhoods
  // ---------------------------------------------------------------------

  /** The indices `from..|row|` of non-zero entries, in ascending order. */
  function NonZeroIndices(row: seq<Time>, from: nat): seq<nat>
    requires from <= |row|
    decreases |row| - from
  {
    if from == |row| then []
    else if row[from] != 0 then [from] + NonZeroIndices(row, from + 1)
    else NonZeroIndices(row, from + 1)
  }

  /** Every listed index is at least `from` and has a non-zero entry. */
  lemma {:induction false} NonZeroIndicesSound(row: seq<Time>, from: nat)
    requires from <= |row|
    decreases |row| - from
    ensures forall k :: 0 <= k < |NonZeroIndices(row, from)| ==>
              from <= NonZeroIndices(row, from)[k] < |row| && row[NonZeroIndices(row, from)[k]] != 0
  {
    if from < |row| {
      NonZeroIndicesSound(row, from + 1);
    }
  }

  /** Every index from `from` on with a non-zero entry is listed. */
  lemma {:induction false} NonZeroIndicesComplete(row: seq<Time>, from: nat)
    requires from <= |row|
    decreases |row| - from
    ensures forall j :: from <= j < |row| && row[j] != 0 ==> j in NonZeroIndices(row, from)
  {
    if from < |row| {
      NonZeroIndicesComplete(row, from + 1);
    }
  }

  /** The indices are listed in strictly ascending order. */
  lemma {:induction false} NonZeroIndicesAscending(row: seq<Time>, from: nat)
    requires from <= |row|
    decreases |row| - from
    ensures forall k, k' :: 0 <= k < k' < |NonZeroIndices(row, from)| ==>
              NonZeroIndices(row, from)[k] < NonZeroIndices(row, from)[k']
  {
    if from < |row| {
      NonZeroIndicesAscending(row, from + 1);
      NonZeroIndicesSound(row, from + 1);
    }
  }

  /** The list holds exactly the indices of non-zero entries from `from`
      on, in strictly ascending order. */
  lemma NonZeroIndicesSpec(row: seq<Time>, from: nat)
    requires from <= |row|
    ensures var r := NonZeroIndices(row, from);
            (forall k :: 0 <= k < |r| ==> from <= r[k] < |row| && row[r[k]] != 0)
            && (forall j :: from <= j < |row| && row[j] != 0 ==> j in r)
            && (forall k, k' :: 0 <= k < k' < |r| ==> r[k] < r[k'])
  {
    NonZeroIndicesSound(row, from);
    NonZeroIndicesComplete(row, from);
    NonZeroIndicesAscending(row, from);
  }

  /** Column `v` of a square grid. */
  function Column(g: Grid<Time>, v: nat): (c: seq<Time>)
    requires IsSquare(g, |g|) && v < |g|
    ensures |c| == |g| && forall i :: 0 <= i < |g| ==> c[i] == g[i][v]
  {
    seq(|g|, i requires 0 <= i < |g| => g[i][v])
  }

  /** `successors(v)`: the `j` with a non-zero entry `(v, j)`, ascending. */
  function Successors(g: Grid<Time>, v: nat): seq<nat>
    requires IsSquare(g, |g|) && v < |g|
  {
    NonZeroIndices(g[v], 0)
  }

  /** `predecessors(v)`: the `i` with a non-zero entry `(i, v)`, ascending. */
  function Predecessors(g: Grid<Time>, v: nat): seq<nat>
    requires IsSquare(g, |g|) && v < |g|
  {
    NonZeroIndices(Column(g, v), 0)
  }

  /** The neighbourhoods are exactly the non-zero entries of the row (of the
      column), each listed once, in ascending order. */
  lemma NeighbourhoodsAreNonZeroEntries(g: Grid<Time>, v: nat)
    requires IsSquare(g, |g|) && v < |g|
    ensures forall j: nat :: j in Successors(g, v) <==> j < |g| && g[v][j] != 0
    ensures forall i: nat :: i in Predecessors(g, v) <==> i < |g| && g[i][v] != 0
    ensures forall k, k' :: 0 <= k < k' < |Successors(g, v)| ==> Successors(g, v)[k] < Successors(g, v)[k']
    ensures forall k, k' :: 0 <= k < k' < |Predecessors(g, v)| ==> Predecessors(g, v)[k] < Predecessors(g, v)[k']
  {
    NonZeroIndicesSpec(g[v], 0);
    var c := Column(g, v);
    NonZeroIndicesSpec(c, 0);
    assert forall i: nat :: i in Predecessors(g, v) ==> i < |g| && c[i] != 0;
  }
}
