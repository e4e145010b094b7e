/** Win detection: three of a player's pawns on consecutive cells of a row, column or diagonal. */
module Win {
  import opened Coordinates

  /** The test has_won makes for one pawn p and one direction d: p + d and p + 2d are both on
      the board and both among the player's pawns ps. */
  predicate AlignedFrom(ps: seq<Coords>, p: Coords, d: Coords)
  {
    var p2 := Add(p, d);
    var p3 := Add(p2, d);
    IsOnBoard(p2) && IsOnBoard(p3) && p2 in ps && p3 in ps
  }

  /** Some pawn and some direction pass the test. */
  predicate Wins(ps: seq<Coords>)
  {
    exists k, n :: 0 <= k < |ps| && 0 <= n < |Directions()| && AlignedFrom(ps, ps[k], Directions()[n])
  }

  /** One direction for each family of lines: rows, columns and the two diagonals. */
  function Axes(): (r: seq<Coords>)
    ensures forall d :: IsUnit(d) ==> d in r || Coords(-d.i, -d.j) in r
  {
    [Coords(0, 1), Coords(1, 0), Coords(1, 1), Coords(1, -1)]
  }

  /** The three consecutive cells c, c + d, c + 2d are all on the board and all among ps. */
  predicate Line(ps: seq<Coords>, c: Coords, d: Coords)
  {
    IsOnBoard(c) && c in ps && AlignedFrom(ps, c, d)
  }

  /** Read backwards, the run p, p + d, p + 2d is the run from p + 2d along -d. */
  lemma ReversedLine(ps: seq<Coords>, p: Coords, d: Coords)
    requires IsOnBoard(p) && p in ps && AlignedFrom(ps, p, d)
    ensures Line(ps, Add(Add(p, d), d), Coords(-d.i, -d.j))
  {
    var c, e := Add(Add(p, d), d), Coords(-d.i, -d.j);
    assert Add(c, e) == Add(p, d) && Add(Add(c, e), e) == p;
  }

  /** A pawn p with p + d and p + 2d among ps gives a line along the axis of d: from p itself
      when d is an axis direction, otherwise from p + 2d walking back along -d. */
  lemma {:induction false} WinsToLine(ps: seq<Coords>)
    requires forall k :: 0 <= k < |ps| ==> IsOnBoard(ps[k])
    requires Wins(ps)
    ensures exists c, n :: 0 <= n < |Axes()| && Line(ps, c, Axes()[n])
  {
    var k, n :| 0 <= k < |ps| && 0 <= n < |Directions()| && AlignedFrom(ps, ps[k], Directions()[n]);
    AlignedToLine(ps, ps[k], Directions()[n]);
  }

  /** One aligned pawn gives a line along one of the four axes. */
  lemma AlignedToLine(ps: seq<Coords>, p: Coords, d: Coords)
    requires IsOnBoard(p) && p in ps && IsUnit(d) && AlignedFrom(ps, p, d)
    ensures exists c, n :: 0 <= n < |Axes()| && Line(ps, c, Axes()[n])
  {
    var axes := Axes();
    if d in axes {
      var a :| 0 <= a < |axes| && axes[a] == d;
      assert Line(ps, p, axes[a]);
    } else {
      ReversedLine(ps, p, d);
      var a :| 0 <= a < |axes| && axes[a] == Coords(-d.i, -d.j);
      assert Line(ps, Add(Add(p, d), d), axes[a]);
    }
  }

  /** A line along an axis starts at one of the pawns and follows one of the eight directions,
      which is what the scan tests. */
  lemma {:induction false} LineToWins(ps: seq<Coords>, c: Coords, a: int)
    requires 0 <= a < |Axes()| && Line(ps, c, Axes()[a])
    ensures Wins(ps)
  {
    var k :| 0 <= k < |ps| && ps[k] == c;
    var d := Axes()[a];
    assert IsUnit(d);
    var n :| 0 <= n < |Directions()| && Directions()[n] == d;
    assert AlignedFrom(ps, ps[k], Directions()[n]);
  }

  /** For pawns on the board, the scan's condition is the rule of the game: some straight run of
      three consecutive cells, along a row, a column or a diagonal, is all the player's. */
  lemma WinsIffLine(ps: seq<Coords>)
    requires forall k :: 0 <= k < |ps| ==> IsOnBoard(ps[k])
    ensures Wins(ps) <==> exists c, n :: 0 <= n < |Axes()| && Line(ps, c, Axes()[n])
  {
    if Wins(ps) {
      WinsToLine(ps);
    }
    if c, a :| 0 <= a < |Axes()| && Line(ps, c, Axes()[a]) {
      LineToWins(ps, c, a);
    }
  }

  /** A winning set of three pawns occupies three different cells, so pawns stacked on one
      cell can never be counted twice towards a win. */
  lemma WinningPawnsDistinct(ps: seq<Coords>)
    requires |ps| == 3 && Wins(ps)
    ensures Distinct(ps)
  {
    var k, n :| 0 <= k < |ps| && 0 <= n < |Directions()| && AlignedFrom(ps, ps[k], Directions()[n]);
    var d := Directions()[n];
    assert IsUnit(d);
    var p := ps[k];
    ThreeValuesFill(ps, p, Add(p, d), Add(Add(p, d), d));
  }

  /** Three different values found in a sequence of length three fill it without repetition. */
  lemma ThreeValuesFill(ps: seq<Coords>, a: Coords, b: Coords, c: Coords)
    requires |ps| == 3 && a in ps && b in ps && c in ps
    requires a != b && b != c && a != c
    ensures Distinct(ps)
  {
    assert ps == [ps[0], ps[1], ps[2]];
  }
}
