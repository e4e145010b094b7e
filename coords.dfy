/** Grid coordinates and direction vectors of the 5x5 Neutreeko board. */
module Coordinates {

  /** The board is Size x Size cells. */
  const Size: int := 5

  /** A cell (row i, column j) or a direction vector; equality is by value. */
  datatype Coords = Coords(i: int, j: int)

  /** Componentwise sum; the result may lie off the board. */
  function Add(a: Coords, b: Coords): Coords
  {
    Coords(a.i + b.i, a.j + b.j)
  }

  predicate IsOnBoard(c: Coords)
  {
    0 <= c.i < Size && 0 <= c.j < Size
  }

  /** A unit step along a row, a column or a diagonal. */
  predicate IsUnit(d: Coords)
  {
    -1 <= d.i <= 1 && -1 <= d.j <= 1 && d != Coords(0, 0)
  }

  /** Strict lexicographic order on (i, j): the order in which the directions are listed. */
  predicate Before(a: Coords, b: Coords)
  {
    a.i < b.i || (a.i == b.i && a.j < b.j)
  }

  /** The eight directions, i from -1 to 1 and, within each i, j from -1 to 1, without (0, 0). */
  function Directions(): (r: seq<Coords>)
    ensures |r| == 8
    ensures forall n :: 0 <= n < |r| ==> IsUnit(r[n])
    ensures forall n, m :: 0 <= n < m < |r| ==> Before(r[n], r[m])
    ensures forall d :: IsUnit(d) ==> d in r
  {
    [Coords(-1, -1), Coords(-1, 0), Coords(-1, 1),
     Coords(0, -1), Coords(0, 1),
     Coords(1, -1), Coords(1, 0), Coords(1, 1)]
  }

  /** No value occurs twice in s. */
  predicate Distinct(s: seq<Coords>)
  {
    forall n, m :: 0 <= n < m < |s| ==> s[n] != s[m]
  }

  /** The listed order has no repetition. */
  lemma DirectionsDistinct()
    ensures Distinct(Directions())
  {
    forall n, m | 0 <= n < m < |Directions()|
      ensures Directions()[n] != Directions()[m]
    {
      assert Before(Directions()[n], Directions()[m]);
    }
  }

  /** The cell k steps from p along d. */
  function Step(p: Coords, d: Coords, k: int): Coords
  {
    Coords(p.i + k * d.i, p.j + k * d.j)
  }

  /** Repeated Add walks the closed form Step. */
  lemma StepAdd(p: Coords, d: Coords, k: int)
    ensures Step(p, d, 1) == Add(p, d)
    ensures Add(Step(p, d, k), d) == Step(p, d, k + 1)
  {
    assert (k + 1) * d.i == k * d.i + d.i;
    assert (k + 1) * d.j == k * d.j + d.j;
  }

  /** Five or more unit steps from a cell always leave the board. */
  lemma FarStepOffBoard(p: Coords, d: Coords, k: int)
    requires IsOnBoard(p) && IsUnit(d) && k >= Size
    ensures !IsOnBoard(Step(p, d, k))
  {
    if d.i == 1 {
      assert Step(p, d, k).i == p.i + k;
    } else if d.i == -1 {
      assert Step(p, d, k).i == p.i - k;
    } else if d.j == 1 {
      assert Step(p, d, k).j == p.j + k;
    } else {
      assert d.j == -1;
      assert Step(p, d, k).j == p.j - k;
    }
  }

  /** Every cell of the board in row-major order, as the placement builds it before shuffling. */
  function AllPositions(): (r: seq<Coords>)
    ensures |r| == Size * Size
    ensures forall c :: c in r <==> IsOnBoard(c)
    ensures Distinct(r)
  {
    var r := seq(Size * Size, n requires 0 <= n < Size * Size => Coords(n / Size, n % Size));
    forall c | IsOnBoard(c) ensures c in r {
      var n := c.i * Size + c.j;
      assert r[n] == c;
    }
    forall n, m | 0 <= n < m < |r| ensures r[n] != r[m] {
      assert n == (n / Size) * Size + n % Size;
      assert m == (m / Size) * Size + m % Size;
    }
    r
  }
}
