/** The examples of the documentation of `dfs` and `connected_component`.
    Each traversal is traced pop by pop over any matrix with the example's
    neighbour lists, then instantiated with the example's matrix. */
module TraversalExamples {
  import opened Links
  import opened Matrices
  import opened Traversal

  const G1: Grid<Time> := [[1, 0, 1, 0], [1, 1, 1, 0], [0, 1, 0, 1], [0, 1, 1, 0]]
  const C1: Grid<Time> := [[1, 0, 0, 0], [0, 1, 0, 0], [0, 0, 1, 0], [0, 0, 0, 1]]
  const C2: Grid<Time> := [[1, 1, 0, 1], [1, 1, 0, 0], [0, 0, 1, 1], [0, 0, 1, 1]]
  const C3: Grid<Time> := [[1, 1, 0, 1], [1, 1, 0, 0], [0, 1, 1, 1], [0, 0, 1, 1]]
  function All(): seq<bool> { [true, true, true, true] }
  function NoTwo(): seq<bool> { [true, true, false, true] }

  lemma DfsTrace1Pop0(g: Grid<Time>)
    requires IsSquare(g, 4)
    requires Neighbours(g, 0, true) == [0, 2]
    ensures Drain(g, true, All(), Walk([false, false, false, false], []), [0])
         == Drain(g, true, All(), Walk([true, false, false, false], [0]), [0, 2])
  {
    assert [0][0] == 0;
    assert [0][..0] == [];
    assert [] + [0, 2] == [0, 2];
    assert [false, false, false, false][0 := true] == [true, false, false, false];
    assert [] + [0] == [0];
  }

  lemma DfsTrace1Pop1(g: Grid<Time>)
    requires IsSquare(g, 4)
    requires Neighbours(g, 2, true) == [1, 3]
    ensures Drain(g, true, All(), Walk([true, false, false, false], [0]), [0, 2])
         == Drain(g, true, All(), Walk([true, false, true, false], [0, 2]), [0, 1, 3])
  {
    assert [0, 2][1] == 2;
    assert [0, 2][..1] == [0];
    assert [0] + [1, 3] == [0, 1, 3];
    assert [true, false, false, false][2 := true] == [true, false, true, false];
    assert [0] + [2] == [0, 2];
  }

  lemma DfsTrace1Pop2(g: Grid<Time>)
    requires IsSquare(g, 4)
    requires Neighbours(g, 3, true) == [1, 2]
    ensures Drain(g, true, All(), Walk([true, false, true, false], [0, 2]), [0, 1, 3])
         == Drain(g, true, All(), Walk([true, false, true, true], [0, 2, 3]), [0, 1, 1, 2])
  {
    assert [0, 1, 3][2] == 3;
    assert [0, 1, 3][..2] == [0, 1];
    assert [0, 1] + [1, 2] == [0, 1, 1, 2];
    assert [true, false, true, false][3 := true] == [true, false, true, true];
    assert [0, 2] + [3] == [0, 2, 3];
  }

  lemma DfsTrace1Pop3(g: Grid<Time>)
    requires IsSquare(g, 4)
    ensures Drain(g, true, All(), Walk([true, false, true, true], [0, 2, 3]), [0, 1, 1, 2])
         == Drain(g, true, All(), Walk([true, false, true, true], [0, 2, 3]), [0, 1, 1])
  {
    assert [0, 1, 1, 2][3] == 2;
    assert [0, 1, 1, 2][..3] == [0, 1, 1];
  }

  lemma DfsTrace1Pop4(g: Grid<Time>)
    requires IsSquare(g, 4)
    requires Neighbours(g, 1, true) == [0, 1, 2]
    ensures Drain(g, true, All(), Walk([true, false, true, true], [0, 2, 3]), [0, 1, 1])
         == Drain(g, true, All(), Walk([true, true, true, true], [0, 2, 3, 1]), [0, 1, 0, 1, 2])
  {
    assert [0, 1, 1][2] == 1;
    assert [0, 1, 1][..2] == [0, 1];
    assert [0, 1] + [0, 1, 2] == [0, 1, 0, 1, 2];
    assert [true, false, true, true][1 := true] == [true, true, true, true];
    assert [0, 2, 3] + [1] == [0, 2, 3, 1];
  }

  lemma DfsTrace1Pop5(g: Grid<Time>)
    requires IsSquare(g, 4)
    ensures Drain(g, true, All(), Walk([true, true, true, true], [0, 2, 3, 1]), [0, 1, 0, 1, 2])
         == Drain(g, true, All(), Walk([true, true, true, true], [0, 2, 3, 1]), [0, 1, 0, 1])
  {
    assert [0, 1, 0, 1, 2][4] == 2;
    assert [0, 1, 0, 1, 2][..4] == [0, 1, 0, 1];
  }

  lemma DfsTrace1Pop6(g: Grid<Time>)
    requires IsSquare(g, 4)
    ensures Drain(g, true, All(), Walk([true, true, true, true], [0, 2, 3, 1]), [0, 1, 0, 1])
         == Drain(g, true, All(), Walk([true, true, true, true], [0, 2, 3, 1]), [0, 1, 0])
  {
    assert [0, 1, 0, 1][3] == 1;
    assert [0, 1, 0, 1][..3] == [0, 1, 0];
  }

  lemma DfsTrace1Pop7(g: Grid<Time>)
    requires IsSquare(g, 4)
    ensures Drain(g, true, All(), Walk([true, true, true, true], [0, 2, 3, 1]), [0, 1, 0])
         == Drain(g, true, All(), Walk([true, true, true, true], [0, 2, 3, 1]), [0, 1])
  {
    assert [0, 1, 0][2] == 0;
    assert [0, 1, 0][..2] == [0, 1];
  }

  lemma DfsTrace1Pop8(g: Grid<Time>)
    requires IsSquare(g, 4)
    ensures Drain(g, true, All(), Walk([true, true, true, true], [0, 2, 3, 1]), [0, 1])
         == Drain(g, true, All(), Walk([true, true, true, true], [0, 2, 3, 1]), [0])
  {
    assert [0, 1][1] == 1;
    assert [0, 1][..1] == [0];
  }

  lemma DfsTrace1Pop9(g: Grid<Time>)
    requires IsSquare(g, 4)
    ensures Drain(g, true, All(), Walk([true, true, true, true], [0, 2, 3, 1]), [0])
         == Drain(g, true, All(), Walk([true, true, true, true], [0, 2, 3, 1]), [])
  {
    assert [0][0] == 0;
    assert [0][..0] == [];
  }

  lemma DfsTrace1Run1(g: Grid<Time>)
    requires IsSquare(g, 4)
    requires Neighbours(g, 0, true) == [0, 2]
    requires Neighbours(g, 1, true) == [0, 1, 2]
    requires Neighbours(g, 2, true) == [1, 3]
    requires Neighbours(g, 3, true) == [1, 2]
    ensures Drain(g, true, All(), Walk([false, false, false, false], []), [0]) == Walk([true, true, true, true], [0, 2, 3, 1])
  {
    DfsTrace1Pop0(g);
    DfsTrace1Pop1(g);
    DfsTrace1Pop2(g);
    DfsTrace1Pop3(g);
    DfsTrace1Pop4(g);
    DfsTrace1Pop5(g);
    DfsTrace1Pop6(g);
    DfsTrace1Pop7(g);
    DfsTrace1Pop8(g);
    DfsTrace1Pop9(g);
  }

  lemma DfsTrace1Walk1(g: Grid<Time>)
    requires IsSquare(g, 4)
    requires Neighbours(g, 0, true) == [0, 2]
    requires Neighbours(g, 1, true) == [0, 1, 2]
    requires Neighbours(g, 2, true) == [1, 3]
    requires Neighbours(g, 3, true) == [1, 2]
    ensures DfsWalk(g, [0], All()) == Walk([true, true, true, true], [0, 2, 3, 1])
  {
    assert NoMarks(4) == [false, false, false, false];
    assert [0][..0] == [] && [0][0] == 0;
    DfsTrace1Run1(g);
    assert DfsWalk(g, [0], All()) == Walk([true, true, true, true], [0, 2, 3, 1]);
  }

  lemma DfsTrace1Walk2(g: Grid<Time>)
    requires IsSquare(g, 4)
    requires Neighbours(g, 0, true) == [0, 2]
    requires Neighbours(g, 1, true) == [0, 1, 2]
    requires Neighbours(g, 2, true) == [1, 3]
    requires Neighbours(g, 3, true) == [1, 2]
    ensures DfsWalk(g, [0, 1], All()) == Walk([true, true, true, true], [0, 2, 3, 1])
  {
    DfsTrace1Walk1(g);
    assert [0, 1][..1] == [0] && [0, 1][1] == 1;
    assert DfsWalk(g, [0, 1], All()) == Walk([true, true, true, true], [0, 2, 3, 1]);
  }

  lemma DfsTrace1Walk3(g: Grid<Time>)
    requires IsSquare(g, 4)
    requires Neighbours(g, 0, true) == [0, 2]
    requires Neighbours(g, 1, true) == [0, 1, 2]
    requires Neighbours(g, 2, true) == [1, 3]
    requires Neighbours(g, 3, true) == [1, 2]
    ensures DfsWalk(g, [0, 1, 2], All()) == Walk([true, true, true, true], [0, 2, 3, 1])
  {
    DfsTrace1Walk2(g);
    assert [0, 1, 2][..2] == [0, 1] && [0, 1, 2][2] == 2;
    assert DfsWalk(g, [0, 1, 2], All()) == Walk([true, true, true, true], [0, 2, 3, 1]);
  }

  lemma DfsTrace1Walk4(g: Grid<Time>)
    requires IsSquare(g, 4)
    requires Neighbours(g, 0, true) == [0, 2]
    requires Neighbours(g, 1, true) == [0, 1, 2]
    requires Neighbours(g, 2, true) == [1, 3]
    requires Neighbours(g, 3, true) == [1, 2]
    ensures DfsWalk(g, [0, 1, 2, 3], All()) == Walk([true, true, true, true], [0, 2, 3, 1])
  {
    DfsTrace1Walk3(g);
    assert [0, 1, 2, 3][..3] == [0, 1, 2] && [0, 1, 2, 3][3] == 3;
    assert DfsWalk(g, [0, 1, 2, 3], All()) == Walk([true, true, true, true], [0, 2, 3, 1]);
  }

  /** The first `dfs` example, for any matrix with the same successor lists. */
  lemma DfsTrace1(g: Grid<Time>)
    requires IsSquare(g, 4)
    requires Neighbours(g, 0, true) == [0, 2]
    requires Neighbours(g, 1, true) == [0, 1, 2]
    requires Neighbours(g, 2, true) == [1, 3]
    requires Neighbours(g, 3, true) == [1, 2]
    ensures DfsOrder(g, [0, 1, 2, 3], All()) == [0, 2, 3, 1]
  {
    DfsTrace1Walk4(g);
  }

  lemma DfsTrace2Pop0(g: Grid<Time>)
    requires IsSquare(g, 4)
    requires Neighbours(g, 0, true) == [0, 2]
    ensures Drain(g, true, NoTwo(), Walk([false, false, false, false], []), [0])
         == Drain(g, true, NoTwo(), Walk([true, false, false, false], [0]), [0, 2])
  {
    assert [0][0] == 0;
    assert [0][..0] == [];
    assert [] + [0, 2] == [0, 2];
    assert [false, false, false, false][0 := true] == [true, false, false, false];
    assert [] + [0] == [0];
  }

  lemma DfsTrace2Pop1(g: Grid<Time>)
    requires IsSquare(g, 4)
    ensures Drain(g, true, NoTwo(), Walk([true, false, false, false], [0]), [0, 2])
         == Drain(g, true, NoTwo(), Walk([true, false, false, false], [0]), [0])
  {
    assert [0, 2][1] == 2;
    assert [0, 2][..1] == [0];
  }

  lemma DfsTrace2Pop2(g: Grid<Time>)
    requires IsSquare(g, 4)
    ensures Drain(g, true, NoTwo(), Walk([true, false, false, false], [0]), [0])
         == Drain(g, true, NoTwo(), Walk([true, false, false, false], [0]), [])
  {
    assert [0][0] == 0;
    assert [0][..0] == [];
  }

  lemma DfsTrace2Run2(g: Grid<Time>)
    requires IsSquare(g, 4)
    requires Neighbours(g, 0, true) == [0, 2]
    ensures Drain(g, true, NoTwo(), Walk([false, false, false, false], []), [0]) == Walk([true, false, false, false], [0])
  {
    DfsTrace2Pop0(g);
    DfsTrace2Pop1(g);
    DfsTrace2Pop2(g);
  }

  lemma DfsTrace2Walk1(g: Grid<Time>)
    requires IsSquare(g, 4)
    requires Neighbours(g, 0, true) == [0, 2]
    ensures DfsWalk(g, [0], NoTwo()) == Walk([true, false, false, false], [0])
  {
    assert NoMarks(4) == [false, false, false, false];
    assert [0][..0] == [] && [0][0] == 0;
    DfsTrace2Run2(g);
    assert DfsWalk(g, [0], NoTwo()) == Walk([true, false, false, false], [0]);
  }

  lemma DfsTrace2Pop3(g: Grid<Time>)
    requires IsSquare(g, 4)
    requires Neighbours(g, 1, true) == [0, 1, 2]
    ensures Drain(g, true, NoTwo(), Walk([true, false, false, false], [0]), [1])
         == Drain(g, true, NoTwo(), Walk([true, true, false, false], [0, 1]), [0, 1, 2])
  {
    assert [1][0] == 1;
    assert [1][..0] == [];
    assert [] + [0, 1, 2] == [0, 1, 2];
    assert [true, false, false, false][1 := true] == [true, true, false, false];
    assert [0] + [1] == [0, 1];
  }

  lemma DfsTrace2Pop4(g: Grid<Time>)
    requires IsSquare(g, 4)
    ensures Drain(g, true, NoTwo(), Walk([true, true, false, false], [0, 1]), [0, 1, 2])
         == Drain(g, true, NoTwo(), Walk([true, true, false, false], [0, 1]), [0, 1])
  {
    assert [0, 1, 2][2] == 2;
    assert [0, 1, 2][..2] == [0, 1];
  }

  lemma DfsTrace2Pop5(g: Grid<Time>)
    requires IsSquare(g, 4)
    ensures Drain(g, true, NoTwo(), Walk([true, true, false, false], [0, 1]), [0, 1])
         == Drain(g, true, NoTwo(), Walk([true, true, false, false], [0, 1]), [0])
  {
    assert [0, 1][1] == 1;
    assert [0, 1][..1] == [0];
  }

  lemma DfsTrace2Pop6(g: Grid<Time>)
    requires IsSquare(g, 4)
    ensures Drain(g, true, NoTwo(), Walk([true, true, false, false], [0, 1]), [0])
         == Drain(g, true, NoTwo(), Walk([true, true, false, false], [0, 1]), [])
  {
    assert [0][0] == 0;
    assert [0][..0] == [];
  }

  lemma DfsTrace2Run3(g: Grid<Time>)
    requires IsSquare(g, 4)
    requires Neighbours(g, 1, true) == [0, 1, 2]
    ensures Drain(g, true, NoTwo(), Walk([true, false, false, false], [0]), [1]) == Walk([true, true, false, false], [0, 1])
  {
    DfsTrace2Pop3(g);
    DfsTrace2Pop4(g);
    DfsTrace2Pop5(g);
    DfsTrace2Pop6(g);
  }

  lemma DfsTrace2Walk2(g: Grid<Time>)
    requires IsSquare(g, 4)
    requires Neighbours(g, 0, true) == [0, 2]
    requires Neighbours(g, 1, true) == [0, 1, 2]
    ensures DfsWalk(g, [0, 1], NoTwo()) == Walk([true, true, false, false], [0, 1])
  {
    DfsTrace2Walk1(g);
    assert [0, 1][..1] == [0] && [0, 1][1] == 1;
    DfsTrace2Run3(g);
    assert DfsWalk(g, [0, 1], NoTwo()) == Walk([true, true, false, false], [0, 1]);
  }

  lemma DfsTrace2Walk3(g: Grid<Time>)
    requires IsSquare(g, 4)
    requires Neighbours(g, 0, true) == [0, 2]
    requires Neighbours(g, 1, true) == [0, 1, 2]
    ensures DfsWalk(g, [0, 1, 2], NoTwo()) == Walk([true, true, false, false], [0, 1])
  {
    DfsTrace2Walk2(g);
    assert [0, 1, 2][..2] == [0, 1] && [0, 1, 2][2] == 2;
    assert DfsWalk(g, [0, 1, 2], NoTwo()) == Walk([true, true, false, false], [0, 1]);
  }

  lemma DfsTrace2Pop7(g: Grid<Time>)
    requires IsSquare(g, 4)
    requires Neighbours(g, 3, true) == [1, 2]
    ensures Drain(g, true, NoTwo(), Walk([true, true, false, false], [0, 1]), [3])
         == Drain(g, true, NoTwo(), Walk([true, true, false, true], [0, 1, 3]), [1, 2])
  {
    assert [3][0] == 3;
    assert [3][..0] == [];
    assert [] + [1, 2] == [1, 2];
    assert [true, true, false, false][3 := true] == [true, true, false, true];
    assert [0, 1] + [3] == [0, 1, 3];
  }

  lemma DfsTrace2Pop8(g: Grid<Time>)
    requires IsSquare(g, 4)
    ensures Drain(g, true, NoTwo(), Walk([true, true, false, true], [0, 1, 3]), [1, 2])
         == Drain(g, true, NoTwo(), Walk([true, true, false, true], [0, 1, 3]), [1])
  {
    assert [1, 2][1] == 2;
    assert [1, 2][..1] == [1];
  }

  lemma DfsTrace2Pop9(g: Grid<Time>)
    requires IsSquare(g, 4)
    ensures Drain(g, true, NoTwo(), Walk([true, true, false, true], [0, 1, 3]), [1])
         == Drain(g, true, NoTwo(), Walk([true, true, false, true], [0, 1, 3]), [])
  {
    assert [1][0] == 1;
    assert [1][..0] == [];
  }

  lemma DfsTrace2Run4(g: Grid<Time>)
    requires IsSquare(g, 4)
    requires Neighbours(g, 3, true) == [1, 2]
    ensures Drain(g, true, NoTwo(), Walk([true, true, false, false], [0, 1]), [3]) == Walk([true, true, false, true], [0, 1, 3])
  {
    DfsTrace2Pop7(g);
    DfsTrace2Pop8(g);
    DfsTrace2Pop9(g);
  }

  lemma DfsTrace2Walk4(g: Grid<Time>)
    requires IsSquare(g, 4)
    requires Neighbours(g, 0, true) == [0, 2]
    requires Neighbours(g, 1, true) == [0, 1, 2]
    requires Neighbours(g, 3, true) == [1, 2]
    ensures DfsWalk(g, [0, 1, 2, 3], NoTwo()) == Walk([true, true, false, true], [0, 1, 3])
  {
    DfsTrace2Walk3(g);
    assert [0, 1, 2, 3][..3] == [0, 1, 2] && [0, 1, 2, 3][3] == 3;
    DfsTrace2Run4(g);
    assert DfsWalk(g, [0, 1, 2, 3], NoTwo()) == Walk([true, true, false, true], [0, 1, 3]);
  }

  /** The second `dfs` example: node 2 filtered out. */
  lemma DfsTrace2(g: Grid<Time>)
    requires IsSquare(g, 4)
    requires Neighbours(g, 0, true) == [0, 2]
    requires Neighbours(g, 1, true) == [0, 1, 2]
    requires Neighbours(g, 3, true) == [1, 2]
    ensures DfsOrder(g, [0, 1, 2, 3], NoTwo()) == [0, 1, 3]
  {
    DfsTrace2Walk4(g);
  }

  lemma DfsTrace3Walk1(g: Grid<Time>)
    requires IsSquare(g, 4)
    ensures DfsWalk(g, [2], NoTwo()) == Walk([false, false, false, false], [])
  {
    assert NoMarks(4) == [false, false, false, false];
    assert [2][..0] == [] && [2][0] == 2;
    assert DfsWalk(g, [2], NoTwo()) == Walk([false, false, false, false], []);
  }

  lemma DfsTrace3Pop0(g: Grid<Time>)
    requires IsSquare(g, 4)
    requires Neighbours(g, 1, true) == [0, 1, 2]
    ensures Drain(g, true, NoTwo(), Walk([false, false, false, false], []), [1])
         == Drain(g, true, NoTwo(), Walk([false, true, false, false], [1]), [0, 1, 2])
  {
    assert [1][0] == 1;
    assert [1][..0] == [];
    assert [] + [0, 1, 2] == [0, 1, 2];
    assert [false, false, false, false][1 := true] == [false, true, false, false];
    assert [] + [1] == [1];
  }

  lemma DfsTrace3Pop1(g: Grid<Time>)
    requires IsSquare(g, 4)
    ensures Drain(g, true, NoTwo(), Walk([false, true, false, false], [1]), [0, 1, 2])
         == Drain(g, true, NoTwo(), Walk([false, true, false, false], [1]), [0, 1])
  {
    assert [0, 1, 2][2] == 2;
    assert [0, 1, 2][..2] == [0, 1];
  }

  lemma DfsTrace3Pop2(g: Grid<Time>)
    requires IsSquare(g, 4)
    ensures Drain(g, true, NoTwo(), Walk([false, true, false, false], [1]), [0, 1])
         == Drain(g, true, NoTwo(), Walk([false, true, false, false], [1]), [0])
  {
    assert [0, 1][1] == 1;
    assert [0, 1][..1] == [0];
  }

  lemma DfsTrace3Pop3(g: Grid<Time>)
    requires IsSquare(g, 4)
    requires Neighbours(g, 0, true) == [0, 2]
    ensures Drain(g, true, NoTwo(), Walk([false, true, false, false], [1]), [0])
         == Drain(g, true, NoTwo(), Walk([true, true, false, false], [1, 0]), [0, 2])
  {
    assert [0][0] == 0;
    assert [0][..0] == [];
    assert [] + [0, 2] == [0, 2];
    assert [false, true, false, false][0 := true] == [true, true, false, false];
    assert [1] + [0] == [1, 0];
  }

  lemma DfsTrace3Pop4(g: Grid<Time>)
    requires IsSquare(g, 4)
    ensures Drain(g, true, NoTwo(), Walk([true, true, false, false], [1, 0]), [0, 2])
         == Drain(g, true, NoTwo(), Walk([true, true, false, false], [1, 0]), [0])
  {
    assert [0, 2][1] == 2;
    assert [0, 2][..1] == [0];
  }

  lemma DfsTrace3Pop5(g: Grid<Time>)
    requires IsSquare(g, 4)
    ensures Drain(g, true, NoTwo(), Walk([true, true, false, false], [1, 0]), [0])
         == Drain(g, true, NoTwo(), Walk([true, true, false, false], [1, 0]), [])
  {
    assert [0][0] == 0;
    assert [0][..0] == [];
  }

  lemma DfsTrace3Run5(g: Grid<Time>)
    requires IsSquare(g, 4)
    requires Neighbours(g, 0, true) == [0, 2]
    requires Neighbours(g, 1, true) == [0, 1, 2]
    ensures Drain(g, true, NoTwo(), Walk([false, false, false, false], []), [1]) == Walk([true, true, false, false], [1, 0])
  {
    DfsTrace3Pop0(g);
    DfsTrace3Pop1(g);
    DfsTrace3Pop2(g);
    DfsTrace3Pop3(g);
    DfsTrace3Pop4(g);
    DfsTrace3Pop5(g);
  }

  lemma DfsTrace3Walk2(g: Grid<Time>)
    requires IsSquare(g, 4)
    requires Neighbours(g, 0, true) == [0, 2]
    requires Neighbours(g, 1, true) == [0, 1, 2]
    ensures DfsWalk(g, [2, 1], NoTwo()) == Walk([true, true, false, false], [1, 0])
  {
    DfsTrace3Walk1(g);
    assert [2, 1][..1] == [2] && [2, 1][1] == 1;
    DfsTrace3Run5(g);
    assert DfsWalk(g, [2, 1], NoTwo()) == Walk([true, true, false, false], [1, 0]);
  }

  lemma DfsTrace3Pop6(g: Grid<Time>)
    requires IsSquare(g, 4)
    requires Neighbours(g, 3, true) == [1, 2]
    ensures Drain(g, true, NoTwo(), Walk([true, true, false, false], [1, 0]), [3])
         == Drain(g, true, NoTwo(), Walk([true, true, false, true], [1, 0, 3]), [1, 2])
  {
    assert [3][0] == 3;
    assert [3][..0] == [];
    assert [] + [1, 2] == [1, 2];
    assert [true, true, false, false][3 := true] == [true, true, false, true];
    assert [1, 0] + [3] == [1, 0, 3];
  }

  lemma DfsTrace3Pop7(g: Grid<Time>)
    requires IsSquare(g, 4)
    ensures Drain(g, true, NoTwo(), Walk([true, true, false, true], [1, 0, 3]), [1, 2])
         == Drain(g, true, NoTwo(), Walk([true, true, false, true], [1, 0, 3]), [1])
  {
    assert [1, 2][1] == 2;
    assert [1, 2][..1] == [1];
  }

  lemma DfsTrace3Pop8(g: Grid<Time>)
    requires IsSquare(g, 4)
    ensures Drain(g, true, NoTwo(), Walk([true, true, false, true], [1, 0, 3]), [1])
         == Drain(g, true, NoTwo(), Walk([true, true, false, true], [1, 0, 3]), [])
  {
    assert [1][0] == 1;
    assert [1][..0] == [];
  }

  lemma DfsTrace3Run6(g: Grid<Time>)
    requires IsSquare(g, 4)
    requires Neighbours(g, 3, true) == [1, 2]
    ensures Drain(g, true, NoTwo(), Walk([true, true, false, false], [1, 0]), [3]) == Walk([true, true, false, true], [1, 0, 3])
  {
    DfsTrace3Pop6(g);
    DfsTrace3Pop7(g);
    DfsTrace3Pop8(g);
  }

  lemma DfsTrace3Walk3(g: Grid<Time>)
    requires IsSquare(g, 4)
    requires Neighbours(g, 0, true) == [0, 2]
    requires Neighbours(g, 1, true) == [0, 1, 2]
    requires Neighbours(g, 3, true) == [1, 2]
    ensures DfsWalk(g, [2, 1, 3], NoTwo()) == Walk([true, true, false, true], [1, 0, 3])
  {
    DfsTrace3Walk2(g);
    assert [2, 1, 3][..2] == [2, 1] && [2, 1, 3][2] == 3;
    DfsTrace3Run6(g);
    assert DfsWalk(g, [2, 1, 3], NoTwo()) == Walk([true, true, false, true], [1, 0, 3]);
  }

  lemma DfsTrace3Walk4(g: Grid<Time>)
    requires IsSquare(g, 4)
    requires Neighbours(g, 0, true) == [0, 2]
    requires Neighbours(g, 1, true) == [0, 1, 2]
    requires Neighbours(g, 3, true) == [1, 2]
    ensures DfsWalk(g, [2, 1, 3, 0], NoTwo()) == Walk([true, true, false, true], [1, 0, 3])
  {
    DfsTrace3Walk3(g);
    assert [2, 1, 3, 0][..3] == [2, 1, 3] && [2, 1, 3, 0][3] == 0;
    assert DfsWalk(g, [2, 1, 3, 0], NoTwo()) == Walk([true, true, false, true], [1, 0, 3]);
  }

  /** The third `dfs` example: node 2 filtered out, roots taken in the order 2, 1, 3, 0. */
  lemma DfsTrace3(g: Grid<Time>)
    requires IsSquare(g, 4)
    requires Neighbours(g, 0, true) == [0, 2]
    requires Neighbours(g, 1, true) == [0, 1, 2]
    requires Neighbours(g, 3, true) == [1, 2]
    ensures DfsOrder(g, [2, 1, 3, 0], NoTwo()) == [1, 0, 3]
  {
    DfsTrace3Walk4(g);
  }

  lemma ComponentsTrace1OrderPop0(g: Grid<Time>)
    requires IsSquare(g, 4)
    requires Neighbours(g, 0, true) == [0]
    ensures Drain(g, true, All(), Walk([false, false, false, false], []), [0])
         == Drain(g, true, All(), Walk([true, false, false, false], [0]), [0])
  {
    assert [0][0] == 0;
    assert [0][..0] == [];
    assert [] + [0] == [0];
    assert [false, false, false, false][0 := true] == [true, false, false, false];
    assert [] + [0] == [0];
  }

  lemma ComponentsTrace1OrderPop1(g: Grid<Time>)
    requires IsSquare(g, 4)
    ensures Drain(g, true, All(), Walk([true, false, false, false], [0]), [0])
         == Drain(g, true, All(), Walk([true, false, false, false], [0]), [])
  {
    assert [0][0] == 0;
    assert [0][..0] == [];
  }

  lemma ComponentsTrace1OrderRun7(g: Grid<Time>)
    requires IsSquare(g, 4)
    requires Neighbours(g, 0, true) == [0]
    ensures Drain(g, true, All(), Walk([false, false, false, false], []), [0]) == Walk([true, false, false, false], [0])
  {
    ComponentsTrace1OrderPop0(g);
    ComponentsTrace1OrderPop1(g);
  }

  lemma ComponentsTrace1OrderWalk1(g: Grid<Time>)
    requires IsSquare(g, 4)
    requires Neighbours(g, 0, true) == [0]
    ensures DfsWalk(g, [0], All()) == Walk([true, false, false, false], [0])
  {
    assert NoMarks(4) == [false, false, false, false];
    assert [0][..0] == [] && [0][0] == 0;
    ComponentsTrace1OrderRun7(g);
    assert DfsWalk(g, [0], All()) == Walk([true, false, false, false], [0]);
  }

  lemma ComponentsTrace1OrderPop2(g: Grid<Time>)
    requires IsSquare(g, 4)
    requires Neighbours(g, 1, true) == [1]
    ensures Drain(g, true, All(), Walk([true, false, false, false], [0]), [1])
         == Drain(g, true, All(), Walk([true, true, false, false], [0, 1]), [1])
  {
    assert [1][0] == 1;
    assert [1][..0] == [];
    assert [] + [1] == [1];
    assert [true, false, false, false][1 := true] == [true, true, false, false];
    assert [0] + [1] == [0, 1];
  }

  lemma ComponentsTrace1OrderPop3(g: Grid<Time>)
    requires IsSquare(g, 4)
    ensures Drain(g, true, All(), Walk([true, true, false, false], [0, 1]), [1])
         == Drain(g, true, All(), Walk([true, true, false, false], [0, 1]), [])
  {
    assert [1][0] == 1;
    assert [1][..0] == [];
  }

  lemma ComponentsTrace1OrderRun8(g: Grid<Time>)
    requires IsSquare(g, 4)
    requires Neighbours(g, 1, true) == [1]
    ensures Drain(g, true, All(), Walk([true, false, false, false], [0]), [1]) == Walk([true, true, false, false], [0, 1])
  {
    ComponentsTrace1OrderPop2(g);
    ComponentsTrace1OrderPop3(g);
  }

  lemma ComponentsTrace1OrderWalk2(g: Grid<Time>)
    requires IsSquare(g, 4)
    requires Neighbours(g, 0, true) == [0]
    requires Neighbours(g, 1, true) == [1]
    ensures DfsWalk(g, [0, 1], All()) == Walk([true, true, false, false], [0, 1])
  {
    ComponentsTrace1OrderWalk1(g);
    assert [0, 1][..1] == [0] && [0, 1][1] == 1;
    ComponentsTrace1OrderRun8(g);
    assert DfsWalk(g, [0, 1], All()) == Walk([true, true, false, false], [0, 1]);
  }

  lemma ComponentsTrace1OrderPop4(g: Grid<Time>)
    requires IsSquare(g, 4)
    requires Neighbours(g, 2, true) == [2]
    ensures Drain(g, true, All(), Walk([true, true, false, false], [0, 1]), [2])
         == Drain(g, true, All(), Walk([true, true, true, false], [0, 1, 2]), [2])
  {
    assert [2][0] == 2;
    assert [2][..0] == [];
    assert [] + [2] == [2];
    assert [true, true, false, false][2 := true] == [true, true, true, false];
    assert [0, 1] + [2] == [0, 1, 2];
  }

  lemma ComponentsTrace1OrderPop5(g: Grid<Time>)
    requires IsSquare(g, 4)
    ensures Drain(g, true, All(), Walk([true, true, true, false], [0, 1, 2]), [2])
         == Drain(g, true, All(), Walk([true, true, true, false], [0, 1, 2]), [])
  {
    assert [2][0] == 2;
    assert [2][..0] == [];
  }

  lemma ComponentsTrace1OrderRun9(g: Grid<Time>)
    requires IsSquare(g, 4)
    requires Neighbours(g, 2, true) == [2]
    ensures Drain(g, true, All(), Walk([true, true, false, false], [0, 1]), [2]) == Walk([true, true, true, false], [0, 1, 2])
  {
    ComponentsTrace1OrderPop4(g);
    ComponentsTrace1OrderPop5(g);
  }

  lemma ComponentsTrace1OrderWalk3(g: Grid<Time>)
    requires IsSquare(g, 4)
    requires Neighbours(g, 0, true) == [0]
    requires Neighbours(g, 1, true) == [1]
    requires Neighbours(g, 2, true) == [2]
    ensures DfsWalk(g, [0, 1, 2], All()) == Walk([true, true, true, false], [0, 1, 2])
  {
    ComponentsTrace1OrderWalk2(g);
    assert [0, 1, 2][..2] == [0, 1] && [0, 1, 2][2] == 2;
    ComponentsTrace1OrderRun9(g);
    assert DfsWalk(g, [0, 1, 2], All()) == Walk([true, true, true, false], [0, 1, 2]);
  }

  lemma ComponentsTrace1OrderPop6(g: Grid<Time>)
    requires IsSquare(g, 4)
    requires Neighbours(g, 3, true) == [3]
    ensures Drain(g, true, All(), Walk([true, true, true, false], [0, 1, 2]), [3])
         == Drain(g, true, All(), Walk([true, true, true, true], [0, 1, 2, 3]), [3])
  {
    assert [3][0] == 3;
    assert [3][..0] == [];
    assert [] + [3] == [3];
    assert [true, true, true, false][3 := true] == [true, true, true, true];
    assert [0, 1, 2] + [3] == [0, 1, 2, 3];
  }

  lemma ComponentsTrace1OrderPop7(g: Grid<Time>)
    requires IsSquare(g, 4)
    ensures Drain(g, true, All(), Walk([true, true, true, true], [0, 1, 2, 3]), [3])
         == Drain(g, true, All(), Walk([true, true, true, true], [0, 1, 2, 3]), [])
  {
    assert [3][0] == 3;
    assert [3][..0] == [];
  }

  lemma ComponentsTrace1OrderRun10(g: Grid<Time>)
    requires IsSquare(g, 4)
    requires Neighbours(g, 3, true) == [3]
    ensures Drain(g, true, All(), Walk([true, true, true, false], [0, 1, 2]), [3]) == Walk([true, true, true, true], [0, 1, 2, 3])
  {
    ComponentsTrace1OrderPop6(g);
    ComponentsTrace1OrderPop7(g);
  }

  lemma ComponentsTrace1OrderWalk4(g: Grid<Time>)
    requires IsSquare(g, 4)
    requires Neighbours(g, 0, true) == [0]
    requires Neighbours(g, 1, true) == [1]
    requires Neighbours(g, 2, true) == [2]
    requires Neighbours(g, 3, true) == [3]
    ensures DfsWalk(g, [0, 1, 2, 3], All()) == Walk([true, true, true, true], [0, 1, 2, 3])
  {
    ComponentsTrace1OrderWalk3(g);
    assert [0, 1, 2, 3][..3] == [0, 1, 2] && [0, 1, 2, 3][3] == 3;
    ComponentsTrace1OrderRun10(g);
    assert DfsWalk(g, [0, 1, 2, 3], All()) == Walk([true, true, true, true], [0, 1, 2, 3]);
  }

  /** The `dfs` pass of `ComponentsTrace1`. */
  lemma ComponentsTrace1Order(g: Grid<Time>)
    requires IsSquare(g, 4)
    requires Neighbours(g, 0, true) == [0]
    requires Neighbours(g, 1, true) == [1]
    requires Neighbours(g, 2, true) == [2]
    requires Neighbours(g, 3, true) == [3]
    ensures DfsOrder(g, [0, 1, 2, 3], All()) == [0, 1, 2, 3]
  {
    ComponentsTrace1OrderWalk4(g);
  }

  lemma ComponentsTrace1Pop0(g: Grid<Time>)
    requires IsSquare(g, 4)
    requires Neighbours(g, 0, false) == [0]
    ensures Drain(g, false, All(), Walk([false, false, false, false], []), [0])
         == Drain(g, false, All(), Walk([true, false, false, false], [0]), [0])
  {
    assert [0][0] == 0;
    assert [0][..0] == [];
    assert [] + [0] == [0];
    assert [false, false, false, false][0 := true] == [true, false, false, false];
    assert [] + [0] == [0];
  }

  lemma ComponentsTrace1Pop1(g: Grid<Time>)
    requires IsSquare(g, 4)
    ensures Drain(g, false, All(), Walk([true, false, false, false], [0]), [0])
         == Drain(g, false, All(), Walk([true, false, false, false], [0]), [])
  {
    assert [0][0] == 0;
    assert [0][..0] == [];
  }

  lemma ComponentsTrace1Run11(g: Grid<Time>)
    requires IsSquare(g, 4)
    requires Neighbours(g, 0, false) == [0]
    ensures Drain(g, false, All(), Walk([false, false, false, false], []), [0]) == Walk([true, false, false, false], [0])
  {
    ComponentsTrace1Pop0(g);
    ComponentsTrace1Pop1(g);
  }

  lemma ComponentsTrace1Groups1(g: Grid<Time>)
    requires IsSquare(g, 4)
    requires Neighbours(g, 0, false) == [0]
    ensures GroupWalk(g, [0], All()) == Grouping([true, false, false, false], [[0]])
  {
    assert NoMarks(4) == [false, false, false, false];
    assert [0][..0] == [] && [0][0] == 0;
    ComponentsTrace1Run11(g);
    assert [] + [[0]] == [[0]];
    assert GroupWalk(g, [0], All()) == Grouping([true, false, false, false], [[0]]);
  }

  lemma ComponentsTrace1Pop2(g: Grid<Time>)
    requires IsSquare(g, 4)
    requires Neighbours(g, 1, false) == [1]
    ensures Drain(g, false, All(), Walk([true, false, false, false], []), [1])
         == Drain(g, false, All(), Walk([true, true, false, false], [1]), [1])
  {
    assert [1][0] == 1;
    assert [1][..0] == [];
    assert [] + [1] == [1];
    assert [true, false, false, false][1 := true] == [true, true, false, false];
    assert [] + [1] == [1];
  }

  lemma ComponentsTrace1Pop3(g: Grid<Time>)
    requires IsSquare(g, 4)
    ensures Drain(g, false, All(), Walk([true, true, false, false], [1]), [1])
         == Drain(g, false, All(), Walk([true, true, false, false], [1]), [])
  {
    assert [1][0] == 1;
    assert [1][..0] == [];
  }

  lemma ComponentsTrace1Run12(g: Grid<Time>)
    requires IsSquare(g, 4)
    requires Neighbours(g, 1, false) == [1]
    ensures Drain(g, false, All(), Walk([true, false, false, false], []), [1]) == Walk([true, true, false, false], [1])
  {
    ComponentsTrace1Pop2(g);
    ComponentsTrace1Pop3(g);
  }

  lemma ComponentsTrace1Groups2(g: Grid<Time>)
    requires IsSquare(g, 4)
    requires Neighbours(g, 0, false) == [0]
    requires Neighbours(g, 1, false) == [1]
    ensures GroupWalk(g, [0, 1], All()) == Grouping([true, true, false, false], [[0], [1]])
  {
    ComponentsTrace1Groups1(g);
    assert [0, 1][..1] == [0] && [0, 1][1] == 1;
    ComponentsTrace1Run12(g);
    assert [[0]] + [[1]] == [[0], [1]];
    assert GroupWalk(g, [0, 1], All()) == Grouping([true, true, false, false], [[0], [1]]);
  }

  lemma ComponentsTrace1Pop4(g: Grid<Time>)
    requires IsSquare(g, 4)
    requires Neighbours(g, 2, false) == [2]
    ensures Drain(g, false, All(), Walk([true, true, false, false], []), [2])
         == Drain(g, false, All(), Walk([true, true, true, false], [2]), [2])
  {
    assert [2][0] == 2;
    assert [2][..0] == [];
    assert [] + [2] == [2];
    assert [true, true, false, false][2 := true] == [true, true, true, false];
    assert [] + [2] == [2];
  }

  lemma ComponentsTrace1Pop5(g: Grid<Time>)
    requires IsSquare(g, 4)
    ensures Drain(g, false, All(), Walk([true, true, true, false], [2]), [2])
         == Drain(g, false, All(), Walk([true, true, true, false], [2]), [])
  {
    assert [2][0] == 2;
    assert [2][..0] == [];
  }

  lemma ComponentsTrace1Run13(g: Grid<Time>)
    requires IsSquare(g, 4)
    requires Neighbours(g, 2, false) == [2]
    ensures Drain(g, false, All(), Walk([true, true, false, false], []), [2]) == Walk([true, true, true, false], [2])
  {
    ComponentsTrace1Pop4(g);
    ComponentsTrace1Pop5(g);
  }

  lemma ComponentsTrace1Groups3(g: Grid<Time>)
    requires IsSquare(g, 4)
    requires Neighbours(g, 0, false) == [0]
    requires Neighbours(g, 1, false) == [1]
    requires Neighbours(g, 2, false) == [2]
    ensures GroupWalk(g, [0, 1, 2], All()) == Grouping([true, true, true, false], [[0], [1], [2]])
  {
    ComponentsTrace1Groups2(g);
    assert [0, 1, 2][..2] == [0, 1] && [0, 1, 2][2] == 2;
    ComponentsTrace1Run13(g);
    assert [[0], [1]] + [[2]] == [[0], [1], [2]];
    assert GroupWalk(g, [0, 1, 2], All()) == Grouping([true, true, true, false], [[0], [1], [2]]);
  }

  lemma ComponentsTrace1Pop6(g: Grid<Time>)
    requires IsSquare(g, 4)
    requires Neighbours(g, 3, false) == [3]
    ensures Drain(g, false, All(), Walk([true, true, true, false], []), [3])
         == Drain(g, false, All(), Walk([true, true, true, true], [3]), [3])
  {
    assert [3][0] == 3;
    assert [3][..0] == [];
    assert [] + [3] == [3];
    assert [true, true, true, false][3 := true] == [true, true, true, true];
    assert [] + [3] == [3];
  }

  lemma ComponentsTrace1Pop7(g: Grid<Time>)
    requires IsSquare(g, 4)
    ensures Drain(g, false, All(), Walk([true, true, true, true], [3]), [3])
         == Drain(g, false, All(), Walk([true, true, true, true], [3]), [])
  {
    assert [3][0] == 3;
    assert [3][..0] == [];
  }

  lemma ComponentsTrace1Run14(g: Grid<Time>)
    requires IsSquare(g, 4)
    requires Neighbours(g, 3, false) == [3]
    ensures Drain(g, false, All(), Walk([true, true, true, false], []), [3]) == Walk([true, true, true, true], [3])
  {
    ComponentsTrace1Pop6(g);
    ComponentsTrace1Pop7(g);
  }

  lemma ComponentsTrace1Groups4(g: Grid<Time>)
    requires IsSquare(g, 4)
    requires Neighbours(g, 0, false) == [0]
    requires Neighbours(g, 1, false) == [1]
    requires Neighbours(g, 2, false) == [2]
    requires Neighbours(g, 3, false) == [3]
    ensures GroupWalk(g, [0, 1, 2, 3], All()) == Grouping([true, true, true, true], [[0], [1], [2], [3]])
  {
    ComponentsTrace1Groups3(g);
    assert [0, 1, 2, 3][..3] == [0, 1, 2] && [0, 1, 2, 3][3] == 3;
    ComponentsTrace1Run14(g);
    assert [[0], [1], [2]] + [[3]] == [[0], [1], [2], [3]];
    assert GroupWalk(g, [0, 1, 2, 3], All()) == Grouping([true, true, true, true], [[0], [1], [2], [3]]);
  }

  lemma ComponentsTrace1Groups(g: Grid<Time>)
    requires IsSquare(g, 4)
    requires Neighbours(g, 0, false) == [0]
    requires Neighbours(g, 1, false) == [1]
    requires Neighbours(g, 2, false) == [2]
    requires Neighbours(g, 3, false) == [3]
    ensures GroupWalk(g, [0, 1, 2, 3], All()).groups == [[0], [1], [2], [3]]
  {
    ComponentsTrace1Groups4(g);
  }

  /** The first `connected_component` example, for any matrix with the same neighbour lists. */
  lemma ComponentsTrace1(g: Grid<Time>)
    requires IsSquare(g, 4)
    requires Neighbours(g, 0, true) == [0]
    requires Neighbours(g, 1, true) == [1]
    requires Neighbours(g, 2, true) == [2]
    requires Neighbours(g, 3, true) == [3]
    requires Neighbours(g, 0, false) == [0]
    requires Neighbours(g, 1, false) == [1]
    requires Neighbours(g, 2, false) == [2]
    requires Neighbours(g, 3, false) == [3]
    ensures ConnectedComponents(g, [0, 1, 2, 3], All()) == [[0], [1], [2], [3]]
  {
    ComponentsTrace1Order(g);
    ComponentsTrace1Groups(g);
  }

  lemma ComponentsTrace2OrderPop0(g: Grid<Time>)
    requires IsSquare(g, 4)
    requires Neighbours(g, 0, true) == [0, 1, 3]
    ensures Drain(g, true, All(), Walk([false, false, false, false], []), [0])
         == Drain(g, true, All(), Walk([true, false, false, false], [0]), [0, 1, 3])
  {
    assert [0][0] == 0;
    assert [0][..0] == [];
    assert [] + [0, 1, 3] == [0, 1, 3];
    assert [false, false, false, false][0 := true] == [true, false, false, false];
    assert [] + [0] == [0];
  }

  lemma ComponentsTrace2OrderPop1(g: Grid<Time>)
    requires IsSquare(g, 4)
    requires Neighbours(g, 3, true) == [2, 3]
    ensures Drain(g, true, All(), Walk([true, false, false, false], [0]), [0, 1, 3])
         == Drain(g, true, All(), Walk([true, false, false, true], [0, 3]), [0, 1, 2, 3])
  {
    assert [0, 1, 3][2] == 3;
    assert [0, 1, 3][..2] == [0, 1];
    assert [0, 1] + [2, 3] == [0, 1, 2, 3];
    assert [true, false, false, false][3 := true] == [true, false, false, true];
    assert [0] + [3] == [0, 3];
  }

  lemma ComponentsTrace2OrderPop2(g: Grid<Time>)
    requires IsSquare(g, 4)
    ensures Drain(g, true, All(), Walk([true, false, false, true], [0, 3]), [0, 1, 2, 3])
         == Drain(g, true, All(), Walk([true, false, false, true], [0, 3]), [0, 1, 2])
  {
    assert [0, 1, 2, 3][3] == 3;
    assert [0, 1, 2, 3][..3] == [0, 1, 2];
  }

  lemma ComponentsTrace2OrderPop3(g: Grid<Time>)
    requires IsSquare(g, 4)
    requires Neighbours(g, 2, true) == [2, 3]
    ensures Drain(g, true, All(), Walk([true, false, false, true], [0, 3]), [0, 1, 2])
         == Drain(g, true, All(), Walk([true, false, true, true], [0, 3, 2]), [0, 1, 2, 3])
  {
    assert [0, 1, 2][2] == 2;
    assert [0, 1, 2][..2] == [0, 1];
    assert [0, 1] + [2, 3] == [0, 1, 2, 3];
    assert [true, false, false, true][2 := true] == [true, false, true, true];
    assert [0, 3] + [2] == [0, 3, 2];
  }

  lemma ComponentsTrace2OrderPop4(g: Grid<Time>)
    requires IsSquare(g, 4)
    ensures Drain(g, true, All(), Walk([true, false, true, true], [0, 3, 2]), [0, 1, 2, 3])
         == Drain(g, true, All(), Walk([true, false, true, true], [0, 3, 2]), [0, 1, 2])
  {
    assert [0, 1, 2, 3][3] == 3;
    assert [0, 1, 2, 3][..3] == [0, 1, 2];
  }

  lemma ComponentsTrace2OrderPop5(g: Grid<Time>)
    requires IsSquare(g, 4)
    ensures Drain(g, true, All(), Walk([true, false, true, true], [0, 3, 2]), [0, 1, 2])
         == Drain(g, true, All(), Walk([true, false, true, true], [0, 3, 2]), [0, 1])
  {
    assert [0, 1, 2][2] == 2;
    assert [0, 1, 2][..2] == [0, 1];
  }

  lemma ComponentsTrace2OrderPop6(g: Grid<Time>)
    requires IsSquare(g, 4)
    requires Neighbours(g, 1, true) == [0, 1]
    ensures Drain(g, true, All(), Walk([true, false, true, true], [0, 3, 2]), [0, 1])
         == Drain(g, true, All(), Walk([true, true, true, true], [0, 3, 2, 1]), [0, 0, 1])
  {
    assert [0, 1][1] == 1;
    assert [0, 1][..1] == [0];
    assert [0] + [0, 1] == [0, 0, 1];
    assert [true, false, true, true][1 := true] == [true, true, true, true];
    assert [0, 3, 2] + [1] == [0, 3, 2, 1];
  }

  lemma ComponentsTrace2OrderPop7(g: Grid<Time>)
    requires IsSquare(g, 4)
    ensures Drain(g, true, All(), Walk([true, true, true, true], [0, 3, 2, 1]), [0, 0, 1])
         == Drain(g, true, All(), Walk([true, true, true, true], [0, 3, 2, 1]), [0, 0])
  {
    assert [0, 0, 1][2] == 1;
    assert [0, 0, 1][..2] == [0, 0];
  }

  lemma ComponentsTrace2OrderPop8(g: Grid<Time>)
    requires IsSquare(g, 4)
    ensures Drain(g, true, All(), Walk([true, true, true, true], [0, 3, 2, 1]), [0, 0])
         == Drain(g, true, All(), Walk([true, true, true, true], [0, 3, 2, 1]), [0])
  {
    assert [0, 0][1] == 0;
    assert [0, 0][..1] == [0];
  }

  lemma ComponentsTrace2OrderPop9(g: Grid<Time>)
    requires IsSquare(g, 4)
    ensures Drain(g, true, All(), Walk([true, true, true, true], [0, 3, 2, 1]), [0])
         == Drain(g, true, All(), Walk([true, true, true, true], [0, 3, 2, 1]), [])
  {
    assert [0][0] == 0;
    assert [0][..0] == [];
  }

  lemma ComponentsTrace2OrderRun15(g: Grid<Time>)
    requires IsSquare(g, 4)
    requires Neighbours(g, 0, true) == [0, 1, 3]
    requires Neighbours(g, 1, true) == [0, 1]
    requires Neighbours(g, 2, true) == [2, 3]
    requires Neighbours(g, 3, true) == [2, 3]
    ensures Drain(g, true, All(), Walk([false, false, false, false], []), [0]) == Walk([true, true, true, true], [0, 3, 2, 1])
  {
    ComponentsTrace2OrderPop0(g);
    ComponentsTrace2OrderPop1(g);
    ComponentsTrace2OrderPop2(g);
    ComponentsTrace2OrderPop3(g);
    ComponentsTrace2OrderPop4(g);
    ComponentsTrace2OrderPop5(g);
    ComponentsTrace2OrderPop6(g);
    ComponentsTrace2OrderPop7(g);
    ComponentsTrace2OrderPop8(g);
    ComponentsTrace2OrderPop9(g);
  }

  lemma ComponentsTrace2OrderWalk1(g: Grid<Time>)
    requires IsSquare(g, 4)
    requires Neighbours(g, 0, true) == [0, 1, 3]
    requires Neighbours(g, 1, true) == [0, 1]
    requires Neighbours(g, 2, true) == [2, 3]
    requires Neighbours(g, 3, true) == [2, 3]
    ensures DfsWalk(g, [0], All()) == Walk([true, true, true, true], [0, 3, 2, 1])
  {
    assert NoMarks(4) == [false, false, false, false];
    assert [0][..0] == [] && [0][0] == 0;
    ComponentsTrace2OrderRun15(g);
    assert DfsWalk(g, [0], All()) == Walk([true, true, true, true], [0, 3, 2, 1]);
  }

  lemma ComponentsTrace2OrderWalk2(g: Grid<Time>)
    requires IsSquare(g, 4)
    requires Neighbours(g, 0, true) == [0, 1, 3]
    requires Neighbours(g, 1, true) == [0, 1]
    requires Neighbours(g, 2, true) == [2, 3]
    requires Neighbours(g, 3, true) == [2, 3]
    ensures DfsWalk(g, [0, 1], All()) == Walk([true, true, true, true], [0, 3, 2, 1])
  {
    ComponentsTrace2OrderWalk1(g);
    assert [0, 1][..1] == [0] && [0, 1][1] == 1;
    assert DfsWalk(g, [0, 1], All()) == Walk([true, true, true, true], [0, 3, 2, 1]);
  }

  lemma ComponentsTrace2OrderWalk3(g: Grid<Time>)
    requires IsSquare(g, 4)
    requires Neighbours(g, 0, true) == [0, 1, 3]
    requires Neighbours(g, 1, true) == [0, 1]
    requires Neighbours(g, 2, true) == [2, 3]
    requires Neighbours(g, 3, true) == [2, 3]
    ensures DfsWalk(g, [0, 1, 2], All()) == Walk([true, true, true, true], [0, 3, 2, 1])
  {
    ComponentsTrace2OrderWalk2(g);
    assert [0, 1, 2][..2] == [0, 1] && [0, 1, 2][2] == 2;
    assert DfsWalk(g, [0, 1, 2], All()) == Walk([true, true, true, true], [0, 3, 2, 1]);
  }

  lemma ComponentsTrace2OrderWalk4(g: Grid<Time>)
    requires IsSquare(g, 4)
    requires Neighbours(g, 0, true) == [0, 1, 3]
    requires Neighbours(g, 1, true) == [0, 1]
    requires Neighbours(g, 2, true) == [2, 3]
    requires Neighbours(g, 3, true) == [2, 3]
    ensures DfsWalk(g, [0, 1, 2, 3], All()) == Walk([true, true, true, true], [0, 3, 2, 1])
  {
    ComponentsTrace2OrderWalk3(g);
    assert [0, 1, 2, 3][..3] == [0, 1, 2] && [0, 1, 2, 3][3] == 3;
    assert DfsWalk(g, [0, 1, 2, 3], All()) == Walk([true, true, true, true], [0, 3, 2, 1]);
  }

  /** The `dfs` pass of `ComponentsTrace2`. */
  lemma ComponentsTrace2Order(g: Grid<Time>)
    requires IsSquare(g, 4)
    requires Neighbours(g, 0, true) == [0, 1, 3]
    requires Neighbours(g, 1, true) == [0, 1]
    requires Neighbours(g, 2, true) == [2, 3]
    requires Neighbours(g, 3, true) == [2, 3]
    ensures DfsOrder(g, [0, 1, 2, 3], All()) == [0, 3, 2, 1]
  {
    ComponentsTrace2OrderWalk4(g);
  }

  lemma ComponentsTrace2Pop0(g: Grid<Time>)
    requires IsSquare(g, 4)
    requires Neighbours(g, 0, false) == [0, 1]
    ensures Drain(g, false, All(), Walk([false, false, false, false], []), [0])
         == Drain(g, false, All(), Walk([true, false, false, false], [0]), [0, 1])
  {
    assert [0][0] == 0;
    assert [0][..0] == [];
    assert [] + [0, 1] == [0, 1];
    assert [false, false, false, false][0 := true] == [true, false, false, false];
    assert [] + [0] == [0];
  }

  lemma ComponentsTrace2Pop1(g: Grid<Time>)
    requires IsSquare(g, 4)
    requires Neighbours(g, 1, false) == [0, 1]
    ensures Drain(g, false, All(), Walk([true, false, false, false], [0]), [0, 1])
         == Drain(g, false, All(), Walk([true, true, false, false], [0, 1]), [0, 0, 1])
  {
    assert [0, 1][1] == 1;
    assert [0, 1][..1] == [0];
    assert [0] + [0, 1] == [0, 0, 1];
    assert [true, false, false, false][1 := true] == [true, true, false, false];
    assert [0] + [1] == [0, 1];
  }

  lemma ComponentsTrace2Pop2(g: Grid<Time>)
    requires IsSquare(g, 4)
    ensures Drain(g, false, All(), Walk([true, true, false, false], [0, 1]), [0, 0, 1])
         == Drain(g, false, All(), Walk([true, true, false, false], [0, 1]), [0, 0])
  {
    assert [0, 0, 1][2] == 1;
    assert [0, 0, 1][..2] == [0, 0];
  }

  lemma ComponentsTrace2Pop3(g: Grid<Time>)
    requires IsSquare(g, 4)
    ensures Drain(g, false, All(), Walk([true, true, false, false], [0, 1]), [0, 0])
         == Drain(g, false, All(), Walk([true, true, false, false], [0, 1]), [0])
  {
    assert [0, 0][1] == 0;
    assert [0, 0][..1] == [0];
  }

  lemma ComponentsTrace2Pop4(g: Grid<Time>)
    requires IsSquare(g, 4)
    ensures Drain(g, false, All(), Walk([true, true, false, false], [0, 1]), [0])
         == Drain(g, false, All(), Walk([true, true, false, false], [0, 1]), [])
  {
    assert [0][0] == 0;
    assert [0][..0] == [];
  }

  lemma ComponentsTrace2Run16(g: Grid<Time>)
    requires IsSquare(g, 4)
    requires Neighbours(g, 0, false) == [0, 1]
    requires Neighbours(g, 1, false) == [0, 1]
    ensures Drain(g, false, All(), Walk([false, false, false, false], []), [0]) == Walk([true, true, false, false], [0, 1])
  {
    ComponentsTrace2Pop0(g);
    ComponentsTrace2Pop1(g);
    ComponentsTrace2Pop2(g);
    ComponentsTrace2Pop3(g);
    ComponentsTrace2Pop4(g);
  }

  lemma ComponentsTrace2Groups1(g: Grid<Time>)
    requires IsSquare(g, 4)
    requires Neighbours(g, 0, false) == [0, 1]
    requires Neighbours(g, 1, false) == [0, 1]
    ensures GroupWalk(g, [0], All()) == Grouping([true, true, false, false], [[0, 1]])
  {
    assert NoMarks(4) == [false, false, false, false];
    assert [0][..0] == [] && [0][0] == 0;
    ComponentsTrace2Run16(g);
    assert [] + [[0, 1]] == [[0, 1]];
    assert GroupWalk(g, [0], All()) == Grouping([true, true, false, false], [[0, 1]]);
  }

  lemma ComponentsTrace2Pop5(g: Grid<Time>)
    requires IsSquare(g, 4)
    requires Neighbours(g, 3, false) == [0, 2, 3]
    ensures Drain(g, false, All(), Walk([true, true, false, false], []), [3])
         == Drain(g, false, All(), Walk([true, true, false, true], [3]), [0, 2, 3])
  {
    assert [3][0] == 3;
    assert [3][..0] == [];
    assert [] + [0, 2, 3] == [0, 2, 3];
    assert [true, true, false, false][3 := true] == [true, true, false, true];
    assert [] + [3] == [3];
  }

  lemma ComponentsTrace2Pop6(g: Grid<Time>)
    requires IsSquare(g, 4)
    ensures Drain(g, false, All(), Walk([true, true, false, true], [3]), [0, 2, 3])
         == Drain(g, false, All(), Walk([true, true, false, true], [3]), [0, 2])
  {
    assert [0, 2, 3][2] == 3;
    assert [0, 2, 3][..2] == [0, 2];
  }

  lemma ComponentsTrace2Pop7(g: Grid<Time>)
    requires IsSquare(g, 4)
    requires Neighbours(g, 2, false) == [2, 3]
    ensures Drain(g, false, All(), Walk([true, true, false, true], [3]), [0, 2])
         == Drain(g, false, All(), Walk([true, true, true, true], [3, 2]), [0, 2, 3])
  {
    assert [0, 2][1] == 2;
    assert [0, 2][..1] == [0];
    assert [0] + [2, 3] == [0, 2, 3];
    assert [true, true, false, true][2 := true] == [true, true, true, true];
    assert [3] + [2] == [3, 2];
  }

  lemma ComponentsTrace2Pop8(g: Grid<Time>)
    requires IsSquare(g, 4)
    ensures Drain(g, false, All(), Walk([true, true, true, true], [3, 2]), [0, 2, 3])
         == Drain(g, false, All(), Walk([true, true, true, true], [3, 2]), [0, 2])
  {
    assert [0, 2, 3][2] == 3;
    assert [0, 2, 3][..2] == [0, 2];
  }

  lemma ComponentsTrace2Pop9(g: Grid<Time>)
    requires IsSquare(g, 4)
    ensures Drain(g, false, All(), Walk([true, true, true, true], [3, 2]), [0, 2])
         == Drain(g, false, All(), Walk([true, true, true, true], [3, 2]), [0])
  {
    assert [0, 2][1] == 2;
    assert [0, 2][..1] == [0];
  }

  lemma ComponentsTrace2Pop10(g: Grid<Time>)
    requires IsSquare(g, 4)
    ensures Drain(g, false, All(), Walk([true, true, true, true], [3, 2]), [0])
         == Drain(g, false, All(), Walk([true, true, true, true], [3, 2]), [])
  {
    assert [0][0] == 0;
    assert [0][..0] == [];
  }

  lemma ComponentsTrace2Run17(g: Grid<Time>)
    requires IsSquare(g, 4)
    requires Neighbours(g, 2, false) == [2, 3]
    requires Neighbours(g, 3, false) == [0, 2, 3]
    ensures Drain(g, false, All(), Walk([true, true, false, false], []), [3]) == Walk([true, true, true, true], [3, 2])
  {
    ComponentsTrace2Pop5(g);
    ComponentsTrace2Pop6(g);
    ComponentsTrace2Pop7(g);
    ComponentsTrace2Pop8(g);
    ComponentsTrace2Pop9(g);
    ComponentsTrace2Pop10(g);
  }

  lemma ComponentsTrace2Groups2(g: Grid<Time>)
    requires IsSquare(g, 4)
    requires Neighbours(g, 0, false) == [0, 1]
    requires Neighbours(g, 1, false) == [0, 1]
    requires Neighbours(g, 2, false) == [2, 3]
    requires Neighbours(g, 3, false) == [0, 2, 3]
    ensures GroupWalk(g, [0, 3], All()) == Grouping([true, true, true, true], [[0, 1], [3, 2]])
  {
    ComponentsTrace2Groups1(g);
    assert [0, 3][..1] == [0] && [0, 3][1] == 3;
    ComponentsTrace2Run17(g);
    assert [[0, 1]] + [[3, 2]] == [[0, 1], [3, 2]];
    assert GroupWalk(g, [0, 3], All()) == Grouping([true, true, true, true], [[0, 1], [3, 2]]);
  }

  lemma ComponentsTrace2Groups3(g: Grid<Time>)
    requires IsSquare(g, 4)
    requires Neighbours(g, 0, false) == [0, 1]
    requires Neighbours(g, 1, false) == [0, 1]
    requires Neighbours(g, 2, false) == [2, 3]
    requires Neighbours(g, 3, false) == [0, 2, 3]
    ensures GroupWalk(g, [0, 3, 2], All()) == Grouping([true, true, true, true], [[0, 1], [3, 2]])
  {
    ComponentsTrace2Groups2(g);
    assert [0, 3, 2][..2] == [0, 3] && [0, 3, 2][2] == 2;
    assert GroupWalk(g, [0, 3, 2], All()) == Grouping([true, true, true, true], [[0, 1], [3, 2]]);
  }

  lemma ComponentsTrace2Groups4(g: Grid<Time>)
    requires IsSquare(g, 4)
    requires Neighbours(g, 0, false) == [0, 1]
    requires Neighbours(g, 1, false) == [0, 1]
    requires Neighbours(g, 2, false) == [2, 3]
    requires Neighbours(g, 3, false) == [0, 2, 3]
    ensures GroupWalk(g, [0, 3, 2, 1], All()) == Grouping([true, true, true, true], [[0, 1], [3, 2]])
  {
    ComponentsTrace2Groups3(g);
    assert [0, 3, 2, 1][..3] == [0, 3, 2] && [0, 3, 2, 1][3] == 1;
    assert GroupWalk(g, [0, 3, 2, 1], All()) == Grouping([true, true, true, true], [[0, 1], [3, 2]]);
  }

  lemma ComponentsTrace2Groups(g: Grid<Time>)
    requires IsSquare(g, 4)
    requires Neighbours(g, 0, false) == [0, 1]
    requires Neighbours(g, 1, false) == [0, 1]
    requires Neighbours(g, 2, false) == [2, 3]
    requires Neighbours(g, 3, false) == [0, 2, 3]
    ensures GroupWalk(g, [0, 3, 2, 1], All()).groups == [[0, 1], [3, 2]]
  {
    ComponentsTrace2Groups4(g);
  }

  /** The second `connected_component` example, for any matrix with the same neighbour lists. */
  lemma ComponentsTrace2(g: Grid<Time>)
    requires IsSquare(g, 4)
    requires Neighbours(g, 0, true) == [0, 1, 3]
    requires Neighbours(g, 1, true) == [0, 1]
    requires Neighbours(g, 2, true) == [2, 3]
    requires Neighbours(g, 3, true) == [2, 3]
    requires Neighbours(g, 0, false) == [0, 1]
    requires Neighbours(g, 1, false) == [0, 1]
    requires Neighbours(g, 2, false) == [2, 3]
    requires Neighbours(g, 3, false) == [0, 2, 3]
    ensures ConnectedComponents(g, [0, 1, 2, 3], All()) == [[0, 1], [3, 2]]
  {
    ComponentsTrace2Order(g);
    ComponentsTrace2Groups(g);
  }

  lemma ComponentsTrace3OrderPop0(g: Grid<Time>)
    requires IsSquare(g, 4)
    requires Neighbours(g, 2, true) == [1, 2, 3]
    ensures Drain(g, true, All(), Walk([true, false, false, true], [0, 3]), [0, 1, 2])
         == Drain(g, true, All(), Walk([true, false, true, true], [0, 3, 2]), [0, 1, 1, 2, 3])
  {
    assert [0, 1, 2][2] == 2;
    assert [0, 1, 2][..2] == [0, 1];
    assert [0, 1] + [1, 2, 3] == [0, 1, 1, 2, 3];
    assert [true, false, false, true][2 := true] == [true, false, true, true];
    assert [0, 3] + [2] == [0, 3, 2];
  }

  lemma ComponentsTrace3OrderPop1(g: Grid<Time>)
    requires IsSquare(g, 4)
    ensures Drain(g, true, All(), Walk([true, false, true, true], [0, 3, 2]), [0, 1, 1, 2, 3])
         == Drain(g, true, All(), Walk([true, false, true, true], [0, 3, 2]), [0, 1, 1, 2])
  {
    assert [0, 1, 1, 2, 3][4] == 3;
    assert [0, 1, 1, 2, 3][..4] == [0, 1, 1, 2];
  }

  lemma ComponentsTrace3OrderPop2(g: Grid<Time>)
    requires IsSquare(g, 4)
    ensures Drain(g, true, All(), Walk([true, false, true, true], [0, 3, 2]), [0, 1, 1, 2])
         == Drain(g, true, All(), Walk([true, false, true, true], [0, 3, 2]), [0, 1, 1])
  {
    assert [0, 1, 1, 2][3] == 2;
    assert [0, 1, 1, 2][..3] == [0, 1, 1];
  }

  lemma ComponentsTrace3OrderPop3(g: Grid<Time>)
    requires IsSquare(g, 4)
    requires Neighbours(g, 1, true) == [0, 1]
    ensures Drain(g, true, All(), Walk([true, false, true, true], [0, 3, 2]), [0, 1, 1])
         == Drain(g, true, All(), Walk([true, true, true, true], [0, 3, 2, 1]), [0, 1, 0, 1])
  {
    assert [0, 1, 1][2] == 1;
    assert [0, 1, 1][..2] == [0, 1];
    assert [0, 1] + [0, 1] == [0, 1, 0, 1];
    assert [true, false, true, true][1 := true] == [true, true, true, true];
    assert [0, 3, 2] + [1] == [0, 3, 2, 1];
  }

  lemma ComponentsTrace3OrderPop4(g: Grid<Time>)
    requires IsSquare(g, 4)
    ensures Drain(g, true, All(), Walk([true, true, true, true], [0, 3, 2, 1]), [0, 1, 0, 1])
         == Drain(g, true, All(), Walk([true, true, true, true], [0, 3, 2, 1]), [0, 1, 0])
  {
    assert [0, 1, 0, 1][3] == 1;
    assert [0, 1, 0, 1][..3] == [0, 1, 0];
  }

  lemma ComponentsTrace3OrderPop5(g: Grid<Time>)
    requires IsSquare(g, 4)
    ensures Drain(g, true, All(), Walk([true, true, true, true], [0, 3, 2, 1]), [0, 1, 0])
         == Drain(g, true, All(), Walk([true, true, true, true], [0, 3, 2, 1]), [0, 1])
  {
    assert [0, 1, 0][2] == 0;
    assert [0, 1, 0][..2] == [0, 1];
  }

  lemma ComponentsTrace3OrderPop6(g: Grid<Time>)
    requires IsSquare(g, 4)
    ensures Drain(g, true, All(), Walk([true, true, true, true], [0, 3, 2, 1]), [0, 1])
         == Drain(g, true, All(), Walk([true, true, true, true], [0, 3, 2, 1]), [0])
  {
    assert [0, 1][1] == 1;
    assert [0, 1][..1] == [0];
  }

  lemma ComponentsTrace3OrderRun18(g: Grid<Time>)
    requires IsSquare(g, 4)
    requires Neighbours(g, 0, true) == [0, 1, 3]
    requires Neighbours(g, 1, true) == [0, 1]
    requires Neighbours(g, 2, true) == [1, 2, 3]
    requires Neighbours(g, 3, true) == [2, 3]
    ensures Drain(g, true, All(), Walk([false, false, false, false], []), [0]) == Walk([true, true, true, true], [0, 3, 2, 1])
  {
    ComponentsTrace2OrderPop0(g);
    ComponentsTrace2OrderPop1(g);
    ComponentsTrace2OrderPop2(g);
    ComponentsTrace3OrderPop0(g);
    ComponentsTrace3OrderPop1(g);
    ComponentsTrace3OrderPop2(g);
    ComponentsTrace3OrderPop3(g);
    ComponentsTrace3OrderPop4(g);
    ComponentsTrace3OrderPop5(g);
    ComponentsTrace3OrderPop6(g);
    ComponentsTrace2OrderPop9(g);
  }

  lemma ComponentsTrace3OrderWalk1(g: Grid<Time>)
    requires IsSquare(g, 4)
    requires Neighbours(g, 0, true) == [0, 1, 3]
    requires Neighbours(g, 1, true) == [0, 1]
    requires Neighbours(g, 2, true) == [1, 2, 3]
    requires Neighbours(g, 3, true) == [2, 3]
    ensures DfsWalk(g, [0], All()) == Walk([true, true, true, true], [0, 3, 2, 1])
  {
    assert NoMarks(4) == [false, false, false, false];
    assert [0][..0] == [] && [0][0] == 0;
    ComponentsTrace3OrderRun18(g);
    assert DfsWalk(g, [0], All()) == Walk([true, true, true, true], [0, 3, 2, 1]);
  }

  lemma ComponentsTrace3OrderWalk2(g: Grid<Time>)
    requires IsSquare(g, 4)
    requires Neighbours(g, 0, true) == [0, 1, 3]
    requires Neighbours(g, 1, true) == [0, 1]
    requires Neighbours(g, 2, true) == [1, 2, 3]
    requires Neighbours(g, 3, true) == [2, 3]
    ensures DfsWalk(g, [0, 1], All()) == Walk([true, true, true, true], [0, 3, 2, 1])
  {
    ComponentsTrace3OrderWalk1(g);
    assert [0, 1][..1] == [0] && [0, 1][1] == 1;
    assert DfsWalk(g, [0, 1], All()) == Walk([true, true, true, true], [0, 3, 2, 1]);
  }

  lemma ComponentsTrace3OrderWalk3(g: Grid<Time>)
    requires IsSquare(g, 4)
    requires Neighbours(g, 0, true) == [0, 1, 3]
    requires Neighbours(g, 1, true) == [0, 1]
    requires Neighbours(g, 2, true) == [1, 2, 3]
    requires Neighbours(g, 3, true) == [2, 3]
    ensures DfsWalk(g, [0, 1, 2], All()) == Walk([true, true, true, true], [0, 3, 2, 1])
  {
    ComponentsTrace3OrderWalk2(g);
    assert [0, 1, 2][..2] == [0, 1] && [0, 1, 2][2] == 2;
    assert DfsWalk(g, [0, 1, 2], All()) == Walk([true, true, true, true], [0, 3, 2, 1]);
  }

  lemma ComponentsTrace3OrderWalk4(g: Grid<Time>)
    requires IsSquare(g, 4)
    requires Neighbours(g, 0, true) == [0, 1, 3]
    requires Neighbours(g, 1, true) == [0, 1]
    requires Neighbours(g, 2, true) == [1, 2, 3]
    requires Neighbours(g, 3, true) == [2, 3]
    ensures DfsWalk(g, [0, 1, 2, 3], All()) == Walk([true, true, true, true], [0, 3, 2, 1])
  {
    ComponentsTrace3OrderWalk3(g);
    assert [0, 1, 2, 3][..3] == [0, 1, 2] && [0, 1, 2, 3][3] == 3;
    assert DfsWalk(g, [0, 1, 2, 3], All()) == Walk([true, true, true, true], [0, 3, 2, 1]);
  }

  /** The `dfs` pass of `ComponentsTrace3`. */
  lemma ComponentsTrace3Order(g: Grid<Time>)
    requires IsSquare(g, 4)
    requires Neighbours(g, 0, true) == [0, 1, 3]
    requires Neighbours(g, 1, true) == [0, 1]
    requires Neighbours(g, 2, true) == [1, 2, 3]
    requires Neighbours(g, 3, true) == [2, 3]
    ensures DfsOrder(g, [0, 1, 2, 3], All()) == [0, 3, 2, 1]
  {
    ComponentsTrace3OrderWalk4(g);
  }

  lemma ComponentsTrace3Pop0(g: Grid<Time>)
    requires IsSquare(g, 4)
    requires Neighbours(g, 1, false) == [0, 1, 2]
    ensures Drain(g, false, All(), Walk([true, false, false, false], [0]), [0, 1])
         == Drain(g, false, All(), Walk([true, true, false, false], [0, 1]), [0, 0, 1, 2])
  {
    assert [0, 1][1] == 1;
    assert [0, 1][..1] == [0];
    assert [0] + [0, 1, 2] == [0, 0, 1, 2];
    assert [true, false, false, false][1 := true] == [true, true, false, false];
    assert [0] + [1] == [0, 1];
  }

  lemma ComponentsTrace3Pop1(g: Grid<Time>)
    requires IsSquare(g, 4)
    requires Neighbours(g, 2, false) == [2, 3]
    ensures Drain(g, false, All(), Walk([true, true, false, false], [0, 1]), [0, 0, 1, 2])
         == Drain(g, false, All(), Walk([true, true, true, false], [0, 1, 2]), [0, 0, 1, 2, 3])
  {
    assert [0, 0, 1, 2][3] == 2;
    assert [0, 0, 1, 2][..3] == [0, 0, 1];
    assert [0, 0, 1] + [2, 3] == [0, 0, 1, 2, 3];
    assert [true, true, false, false][2 := true] == [true, true, true, false];
    assert [0, 1] + [2] == [0, 1, 2];
  }

  lemma ComponentsTrace3Pop2(g: Grid<Time>)
    requires IsSquare(g, 4)
    requires Neighbours(g, 3, false) == [0, 2, 3]
    ensures Drain(g, false, All(), Walk([true, true, true, false], [0, 1, 2]), [0, 0, 1, 2, 3])
         == Drain(g, false, All(), Walk([true, true, true, true], [0, 1, 2, 3]), [0, 0, 1, 2, 0, 2, 3])
  {
    assert [0, 0, 1, 2, 3][4] == 3;
    assert [0, 0, 1, 2, 3][..4] == [0, 0, 1, 2];
    assert [0, 0, 1, 2] + [0, 2, 3] == [0, 0, 1, 2, 0, 2, 3];
    assert [true, true, true, false][3 := true] == [true, true, true, true];
    assert [0, 1, 2] + [3] == [0, 1, 2, 3];
  }

  lemma ComponentsTrace3Pop3(g: Grid<Time>)
    requires IsSquare(g, 4)
    ensures Drain(g, false, All(), Walk([true, true, true, true], [0, 1, 2, 3]), [0, 0, 1, 2, 0, 2, 3])
         == Drain(g, false, All(), Walk([true, true, true, true], [0, 1, 2, 3]), [0, 0, 1, 2, 0, 2])
  {
    assert [0, 0, 1, 2, 0, 2, 3][6] == 3;
    assert [0, 0, 1, 2, 0, 2, 3][..6] == [0, 0, 1, 2, 0, 2];
  }

  lemma ComponentsTrace3Pop4(g: Grid<Time>)
    requires IsSquare(g, 4)
    ensures Drain(g, false, All(), Walk([true, true, true, true], [0, 1, 2, 3]), [0, 0, 1, 2, 0, 2])
         == Drain(g, false, All(), Walk([true, true, true, true], [0, 1, 2, 3]), [0, 0, 1, 2, 0])
  {
    assert [0, 0, 1, 2, 0, 2][5] == 2;
    assert [0, 0, 1, 2, 0, 2][..5] == [0, 0, 1, 2, 0];
  }

  lemma ComponentsTrace3Pop5(g: Grid<Time>)
    requires IsSquare(g, 4)
    ensures Drain(g, false, All(), Walk([true, true, true, true], [0, 1, 2, 3]), [0, 0, 1, 2, 0])
         == Drain(g, false, All(), Walk([true, true, true, true], [0, 1, 2, 3]), [0, 0, 1, 2])
  {
    assert [0, 0, 1, 2, 0][4] == 0;
    assert [0, 0, 1, 2, 0][..4] == [0, 0, 1, 2];
  }

  lemma ComponentsTrace3Pop6(g: Grid<Time>)
    requires IsSquare(g, 4)
    ensures Drain(g, false, All(), Walk([true, true, true, true], [0, 1, 2, 3]), [0, 0, 1, 2])
         == Drain(g, false, All(), Walk([true, true, true, true], [0, 1, 2, 3]), [0, 0, 1])
  {
    assert [0, 0, 1, 2][3] == 2;
    assert [0, 0, 1, 2][..3] == [0, 0, 1];
  }

  lemma ComponentsTrace3Pop7(g: Grid<Time>)
    requires IsSquare(g, 4)
    ensures Drain(g, false, All(), Walk([true, true, true, true], [0, 1, 2, 3]), [0, 0, 1])
         == Drain(g, false, All(), Walk([true, true, true, true], [0, 1, 2, 3]), [0, 0])
  {
    assert [0, 0, 1][2] == 1;
    assert [0, 0, 1][..2] == [0, 0];
  }

  lemma ComponentsTrace3Pop8(g: Grid<Time>)
    requires IsSquare(g, 4)
    ensures Drain(g, false, All(), Walk([true, true, true, true], [0, 1, 2, 3]), [0, 0])
         == Drain(g, false, All(), Walk([true, true, true, true], [0, 1, 2, 3]), [0])
  {
    assert [0, 0][1] == 0;
    assert [0, 0][..1] == [0];
  }

  lemma ComponentsTrace3Pop9(g: Grid<Time>)
    requires IsSquare(g, 4)
    ensures Drain(g, false, All(), Walk([true, true, true, true], [0, 1, 2, 3]), [0])
         == Drain(g, false, All(), Walk([true, true, true, true], [0, 1, 2, 3]), [])
  {
    assert [0][0] == 0;
    assert [0][..0] == [];
  }

  lemma ComponentsTrace3Run19(g: Grid<Time>)
    requires IsSquare(g, 4)
    requires Neighbours(g, 0, false) == [0, 1]
    requires Neighbours(g, 1, false) == [0, 1, 2]
    requires Neighbours(g, 2, false) == [2, 3]
    requires Neighbours(g, 3, false) == [0, 2, 3]
    ensures Drain(g, false, All(), Walk([false, false, false, false], []), [0]) == Walk([true, true, true, true], [0, 1, 2, 3])
  {
    ComponentsTrace2Pop0(g);
    ComponentsTrace3Pop0(g);
    ComponentsTrace3Pop1(g);
    ComponentsTrace3Pop2(g);
    ComponentsTrace3Pop3(g);
    ComponentsTrace3Pop4(g);
    ComponentsTrace3Pop5(g);
    ComponentsTrace3Pop6(g);
    ComponentsTrace3Pop7(g);
    ComponentsTrace3Pop8(g);
    ComponentsTrace3Pop9(g);
  }

  lemma ComponentsTrace3Groups1(g: Grid<Time>)
    requires IsSquare(g, 4)
    requires Neighbours(g, 0, false) == [0, 1]
    requires Neighbours(g, 1, false) == [0, 1, 2]
    requires Neighbours(g, 2, false) == [2, 3]
    requires Neighbours(g, 3, false) == [0, 2, 3]
    ensures GroupWalk(g, [0], All()) == Grouping([true, true, true, true], [[0, 1, 2, 3]])
  {
    assert NoMarks(4) == [false, false, false, false];
    assert [0][..0] == [] && [0][0] == 0;
    ComponentsTrace3Run19(g);
    assert [] + [[0, 1, 2, 3]] == [[0, 1, 2, 3]];
    assert GroupWalk(g, [0], All()) == Grouping([true, true, true, true], [[0, 1, 2, 3]]);
  }

  lemma ComponentsTrace3Groups2(g: Grid<Time>)
    requires IsSquare(g, 4)
    requires Neighbours(g, 0, false) == [0, 1]
    requires Neighbours(g, 1, false) == [0, 1, 2]
    requires Neighbours(g, 2, false) == [2, 3]
    requires Neighbours(g, 3, false) == [0, 2, 3]
    ensures GroupWalk(g, [0, 3], All()) == Grouping([true, true, true, true], [[0, 1, 2, 3]])
  {
    ComponentsTrace3Groups1(g);
    assert [0, 3][..1] == [0] && [0, 3][1] == 3;
    assert GroupWalk(g, [0, 3], All()) == Grouping([true, true, true, true], [[0, 1, 2, 3]]);
  }

  lemma ComponentsTrace3Groups3(g: Grid<Time>)
    requires IsSquare(g, 4)
    requires Neighbours(g, 0, false) == [0, 1]
    requires Neighbours(g, 1, false) == [0, 1, 2]
    requires Neighbours(g, 2, false) == [2, 3]
    requires Neighbours(g, 3, false) == [0, 2, 3]
    ensures GroupWalk(g, [0, 3, 2], All()) == Grouping([true, true, true, true], [[0, 1, 2, 3]])
  {
    ComponentsTrace3Groups2(g);
    assert [0, 3, 2][..2] == [0, 3] && [0, 3, 2][2] == 2;
    assert GroupWalk(g, [0, 3, 2], All()) == Grouping([true, true, true, true], [[0, 1, 2, 3]]);
  }

  lemma ComponentsTrace3Groups4(g: Grid<Time>)
    requires IsSquare(g, 4)
    requires Neighbours(g, 0, false) == [0, 1]
    requires Neighbours(g, 1, false) == [0, 1, 2]
    requires Neighbours(g, 2, false) == [2, 3]
    requires Neighbours(g, 3, false) == [0, 2, 3]
    ensures GroupWalk(g, [0, 3, 2, 1], All()) == Grouping([true, true, true, true], [[0, 1, 2, 3]])
  {
    ComponentsTrace3Groups3(g);
    assert [0, 3, 2, 1][..3] == [0, 3, 2] && [0, 3, 2, 1][3] == 1;
    assert GroupWalk(g, [0, 3, 2, 1], All()) == Grouping([true, true, true, true], [[0, 1, 2, 3]]);
  }

  lemma ComponentsTrace3Groups(g: Grid<Time>)
    requires IsSquare(g, 4)
    requires Neighbours(g, 0, false) == [0, 1]
    requires Neighbours(g, 1, false) == [0, 1, 2]
    requires Neighbours(g, 2, false) == [2, 3]
    requires Neighbours(g, 3, false) == [0, 2, 3]
    ensures GroupWalk(g, [0, 3, 2, 1], All()).groups == [[0, 1, 2, 3]]
  {
    ComponentsTrace3Groups4(g);
  }

  /** The third `connected_component` example, for any matrix with the same neighbour lists. */
  lemma ComponentsTrace3(g: Grid<Time>)
    requires IsSquare(g, 4)
    requires Neighbours(g, 0, true) == [0, 1, 3]
    requires Neighbours(g, 1, true) == [0, 1]
    requires Neighbours(g, 2, true) == [1, 2, 3]
    requires Neighbours(g, 3, true) == [2, 3]
    requires Neighbours(g, 0, false) == [0, 1]
    requires Neighbours(g, 1, false) == [0, 1, 2]
    requires Neighbours(g, 2, false) == [2, 3]
    requires Neighbours(g, 3, false) == [0, 2, 3]
    ensures ConnectedComponents(g, [0, 1, 2, 3], All()) == [[0, 1, 2, 3]]
  {
    ComponentsTrace3Order(g);
    ComponentsTrace3Groups(g);
  }

  lemma G1Successors0()
    ensures Neighbours(G1, 0, true) == [0, 2]
  {
  }

  lemma G1Successors1()
    ensures Neighbours(G1, 1, true) == [0, 1, 2]
  {
  }

  lemma G1Successors2()
    ensures Neighbours(G1, 2, true) == [1, 3]
  {
  }

  lemma G1Successors3()
    ensures Neighbours(G1, 3, true) == [1, 2]
  {
  }

  lemma C1Successors0()
    ensures Neighbours(C1, 0, true) == [0]
  {
  }

  lemma C1Successors1()
    ensures Neighbours(C1, 1, true) == [1]
  {
  }

  lemma C1Successors2()
    ensures Neighbours(C1, 2, true) == [2]
  {
  }

  lemma C1Successors3()
    ensures Neighbours(C1, 3, true) == [3]
  {
  }

  lemma C1Predecessors0()
    ensures Neighbours(C1, 0, false) == [0]
  {
  }

  lemma C1Predecessors1()
    ensures Neighbours(C1, 1, false) == [1]
  {
  }

  lemma C1Predecessors2()
    ensures Neighbours(C1, 2, false) == [2]
  {
  }

  lemma C1Predecessors3()
    ensures Neighbours(C1, 3, false) == [3]
  {
  }

  lemma C2Successors0()
    ensures Neighbours(C2, 0, true) == [0, 1, 3]
  {
  }

  lemma C2Successors1()
    ensures Neighbours(C2, 1, true) == [0, 1]
  {
  }

  lemma C2Successors2()
    ensures Neighbours(C2, 2, true) == [2, 3]
  {
  }

  lemma C2Successors3()
    ensures Neighbours(C2, 3, true) == [2, 3]
  {
  }

  lemma C2Predecessors0()
    ensures Neighbours(C2, 0, false) == [0, 1]
  {
  }

  lemma C2Predecessors1()
    ensures Neighbours(C2, 1, false) == [0, 1]
  {
  }

  lemma C2Predecessors2()
    ensures Neighbours(C2, 2, false) == [2, 3]
  {
  }

  lemma C2Predecessors3()
    ensures Neighbours(C2, 3, false) == [0, 2, 3]
  {
  }

  lemma C3Successors0()
    ensures Neighbours(C3, 0, true) == [0, 1, 3]
  {
  }

  lemma C3Successors1()
    ensures Neighbours(C3, 1, true) == [0, 1]
  {
  }

  lemma C3Successors2()
    ensures Neighbours(C3, 2, true) == [1, 2, 3]
  {
  }

  lemma C3Successors3()
    ensures Neighbours(C3, 3, true) == [2, 3]
  {
  }

  lemma C3Predecessors0()
    ensures Neighbours(C3, 0, false) == [0, 1]
  {
  }

  lemma C3Predecessors1()
    ensures Neighbours(C3, 1, false) == [0, 1, 2]
  {
  }

  lemma C3Predecessors2()
    ensures Neighbours(C3, 2, false) == [2, 3]
  {
  }

  lemma C3Predecessors3()
    ensures Neighbours(C3, 3, false) == [0, 2, 3]
  {
  }

  /** The three `dfs` examples of the documentation. */
  lemma DfsExample1()
    ensures DfsOrder(G1, [0, 1, 2, 3], All()) == [0, 2, 3, 1]
  {
    G1Successors0(); G1Successors1(); G1Successors2(); G1Successors3();
    DfsTrace1(G1);
  }

  lemma DfsExample2()
    ensures DfsOrder(G1, [0, 1, 2, 3], NoTwo()) == [0, 1, 3]
  {
    G1Successors0(); G1Successors1(); G1Successors3();
    DfsTrace2(G1);
  }

  lemma DfsExample3()
    ensures DfsOrder(G1, [2, 1, 3, 0], NoTwo()) == [1, 0, 3]
  {
    G1Successors0(); G1Successors1(); G1Successors3();
    DfsTrace3(G1);
  }

  /** The three `connected_component` examples of the documentation. */
  lemma ComponentsExample1()
    ensures ConnectedComponents(C1, [0, 1, 2, 3], All()) == [[0], [1], [2], [3]]
  {
    C1Successors0(); C1Successors1(); C1Successors2(); C1Successors3();
    C1Predecessors0(); C1Predecessors1(); C1Predecessors2(); C1Predecessors3();
    ComponentsTrace1(C1);
  }

  lemma ComponentsExample2()
    ensures ConnectedComponents(C2, [0, 1, 2, 3], All()) == [[0, 1], [3, 2]]
  {
    C2Successors0(); C2Successors1(); C2Successors2(); C2Successors3();
    C2Predecessors0(); C2Predecessors1(); C2Predecessors2(); C2Predecessors3();
    ComponentsTrace2(C2);
  }

  lemma ComponentsExample3()
    ensures ConnectedComponents(C3, [0, 1, 2, 3], All()) == [[0, 1, 2, 3]]
  {
    C3Successors0(); C3Successors1(); C3Successors2(); C3Successors3();
    C3Predecessors0(); C3Predecessors1(); C3Predecessors2(); C3Predecessors3();
    ComponentsTrace3(C3);
  }
}
