/** The 5x5 integer grid (0 empty, 1 or 2 a player) and the initial placement of the pawns. */
module Board {
  import opened Coordinates

  /** A grid snapshot: Size rows of Size integers. */
  type Grid = seq<seq<int>>

  predicate IsGrid(g: Grid)
  {
    |g| == Size && forall r :: 0 <= r < |g| ==> |g[r]| == Size
  }

  /** The value stored in cell p. */
  function At(g: Grid, p: Coords): int
    requires IsGrid(g) && IsOnBoard(p)
  {
    g[p.i][p.j]
  }

  /** The grid a reset starts from: every cell 0. */
  function EmptyGrid(): (g: Grid)
    ensures IsGrid(g)
    ensures forall p :: IsOnBoard(p) ==> At(g, p) == 0
  {
    seq(Size, _ => seq(Size, _ => 0))
  }

  /** A cell is empty when the grid holds 0 there; the pawn lists are not consulted. */
  predicate IsCellEmpty(g: Grid, p: Coords)
    requires IsGrid(g) && IsOnBoard(p)
  {
    At(g, p) == 0
  }

  /** The grid with cell p overwritten by v. */
  function SetCell(g: Grid, p: Coords, v: int): (r: Grid)
    requires IsGrid(g) && IsOnBoard(p)
    ensures IsGrid(r)
    ensures At(r, p) == v
    ensures forall q :: IsOnBoard(q) && q != p ==> At(r, q) == At(g, q)
  {
    g[p.i := g[p.i][p.j := v]]
  }

  /** The grid after a piece of `player` moves from `from` to `to`: `from` is cleared first,
      then `to` is written, so `to` wins when the two coincide. */
  function MoveOnGrid(g: Grid, from: Coords, to: Coords, player: int): (r: Grid)
    requires IsGrid(g) && IsOnBoard(from) && IsOnBoard(to)
    ensures IsGrid(r)
    ensures At(r, to) == player
    ensures from != to ==> At(r, from) == 0
    ensures forall q :: IsOnBoard(q) && q != from && q != to ==> At(r, q) == At(g, q)
  {
    SetCell(SetCell(g, from, 0), to, player)
  }

  /** `shuffled` is a reordering of all 25 cells: what the random shuffle of the placement yields. */
  ghost predicate IsShuffle(shuffled: seq<Coords>)
    ensures IsShuffle(shuffled) ==> |shuffled| == Size * Size
  {
    assert |multiset(shuffled)| == |shuffled|;
    multiset(shuffled) == multiset(AllPositions())
  }

  lemma {:induction false} DistinctMultiplicity(s: seq<Coords>, x: Coords)
    requires Distinct(s)
    ensures multiset(s)[x] <= 1
  {
    if s != [] {
      assert s == [s[0]] + s[1..];
      assert Distinct(s[1..]) by {
        forall n, m | 0 <= n < m < |s[1..]| ensures s[1..][n] != s[1..][m] {
          assert s[1..][n] == s[n + 1] && s[1..][m] == s[m + 1];
        }
      }
      DistinctMultiplicity(s[1..], x);
      if s[0] == x {
        assert x !in s[1..] by {
          forall n | 0 <= n < |s[1..]| ensures s[1..][n] != x {
            assert s[1..][n] == s[n + 1];
          }
        }
      }
      assert multiset(s) == multiset([s[0]]) + multiset(s[1..]);
    }
  }

  /** A reordering of a sequence without repetitions has none either. */
  lemma DistinctPermutation(s: seq<Coords>, t: seq<Coords>)
    requires multiset(s) == multiset(t) && Distinct(t)
    ensures Distinct(s)
  {
    forall n, m | 0 <= n < m < |s| ensures s[n] != s[m] {
      if s[n] == s[m] {
        var x := s[n];
        assert s == s[..n] + [x] + s[n + 1..m] + [x] + s[m + 1..];
        assert multiset(s)[x] >= 2;
        DistinctMultiplicity(t, x);
        assert false;
      }
    }
  }

  /** Initial placement: player 1 gets the first three shuffled cells, player 2 the next three. */
  function GenerateRandomPositions(shuffled: seq<Coords>): (pawns: map<int, seq<Coords>>)
    requires IsShuffle(shuffled)
    ensures pawns.Keys == {1, 2}
    ensures pawns[1] == shuffled[..3] && pawns[2] == shuffled[3..6]
    ensures forall p, k :: p in pawns && 0 <= k < |pawns[p]| ==> IsOnBoard(pawns[p][k])
    ensures Distinct(pawns[1] + pawns[2])
  {
    DistinctPermutation(shuffled, AllPositions());
    assert shuffled[..3] + shuffled[3..6] == shuffled[..6];
    forall k | 0 <= k < |shuffled| ensures IsOnBoard(shuffled[k]) {
      assert shuffled[k] in multiset(shuffled);
    }
    map[1 := shuffled[..3], 2 := shuffled[3..6]]
  }

  /** The grid is never filled from the initial placement, so every starting cell reads as empty. */
  lemma StartingCellsLookEmpty(shuffled: seq<Coords>, p: int, k: int)
    requires IsShuffle(shuffled)
    requires p in GenerateRandomPositions(shuffled) && 0 <= k < 3
    ensures IsCellEmpty(EmptyGrid(), GenerateRandomPositions(shuffled)[p][k])
  {
  }
}
