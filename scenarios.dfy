/** Concrete positions the rules are checked against. */
module Scenarios {
  import opened Coordinates
  import opened Board
  import opened Moves
  import opened Win

  /** A pawn at the left end of a row whose other cells are empty slides along it: the walk in
      direction (0, 1) collects columns 1, 2, 3 and 4 of that row, and no further. */
  lemma SlideAlongEmptyRow(g: Grid, p: Coords)
    requires IsGrid(g) && IsOnBoard(p) && p.j == 0
    requires forall j :: 1 <= j < Size ==> g[p.i][j] == 0
    ensures Ray(g, Add(p, Coords(0, 1)), Coords(0, 1))
      == [Coords(p.i, 1), Coords(p.i, 2), Coords(p.i, 3), Coords(p.i, 4)]
  {
    var d := Coords(0, 1);
    RayCons(g, Coords(p.i, 1), d);
    RayCons(g, Coords(p.i, 2), d);
    RayCons(g, Coords(p.i, 3), d);
    RayCons(g, Coords(p.i, 4), d);
  }

  /** Because the grid is not filled from the placement, on a fresh grid a pawn may move onto
      any on-board neighbouring cell, including one where another pawn starts. */
  lemma FreshGridNeighbour(p: Coords, d: Coords)
    requires IsOnBoard(p) && IsUnit(d) && IsOnBoard(Add(p, d))
    ensures Add(p, d) in Destinations(EmptyGrid(), p)
  {
    StepAdd(p, d, 0);
    assert ClearPath(EmptyGrid(), p, d, 1);
    DestinationsIff(EmptyGrid(), p, Add(p, d));
  }

  /** Three pawns in a row wins. */
  lemma RowOfThreeWins()
    ensures Wins([Coords(2, 2), Coords(2, 3), Coords(2, 4)])
  {
    var ps := [Coords(2, 2), Coords(2, 3), Coords(2, 4)];
    assert Directions()[4] == Coords(0, 1);
    assert AlignedFrom(ps, ps[0], Directions()[4]);
  }

  /** Two in a row with the third pawn past a gap does not win. */
  lemma GapDoesNotWin(r: int)
    requires 0 <= r < Size
    ensures !Wins([Coords(r, 0), Coords(r, 1), Coords(r, 3)])
  {
  }
}
