/** The game state held by the application object and the turn it runs after each move. */
module Game {
  import opened Coordinates
  import opened Board
  import opened Moves
  import opened Win
  import opened History

  /** What a click on a destination leads to. */
  datatype Outcome =
    | Ignored           // the cell is not among the highlighted moves: nothing happens
    | Won(winner: int)  // the mover has three in a row; the game was reset
    | Draw              // the grid snapshot was recorded a third time; the game was reset
    | NextTurn          // the other player is to move

  /** `3 - current_player`: the turn passes from 1 to 2 and from 2 to 1. */
  function NextPlayer(player: int): (r: int)
    requires player == 1 || player == 2
    ensures r == 1 || r == 2
    ensures r != player
  {
    3 - player
  }

  class NeutreekoApp {
    var board: Grid
    var pawns: map<int, seq<Coords>>
    var currentPlayer: int
    var directions: seq<Coords>
    var positionHistory: PositionHistory

    /** The shape of the state, and the one link between grid and pawn lists that every
        modelled operation keeps: a cell the grid marks with a player holds one of that
        player's pawns. The converse does not hold: the grid starts all 0 whatever the
        placement. The unmodelled AI move writes a pawn without touching the grid, so after
        it the link can fail. */
    ghost predicate Valid()
      reads this
    {
      IsGrid(board) &&
      pawns.Keys == {1, 2} && |pawns[1]| == 3 && |pawns[2]| == 3 &&
      (forall p, k :: p in pawns && 0 <= k < |pawns[p]| ==> IsOnBoard(pawns[p][k])) &&
      (forall q :: IsOnBoard(q) && At(board, q) != 0 ==> At(board, q) in pawns && q in pawns[At(board, q)]) &&
      (currentPlayer == 1 || currentPlayer == 2) &&
      directions == Directions()
    }

    /** The state right after reset_game with the placement drawn from `shuffled`. */
    ghost predicate IsResetState(shuffled: seq<Coords>)
      requires IsShuffle(shuffled)
      reads this
    {
      board == EmptyGrid() && pawns == GenerateRandomPositions(shuffled) &&
      currentPlayer == 1 && directions == Directions() && positionHistory == map[]
    }

    constructor (shuffled: seq<Coords>)
      requires IsShuffle(shuffled)
      ensures Valid() && IsResetState(shuffled)
    {
      new;
      ResetGame(shuffled);
    }

    /** An all-0 grid, a fresh placement, player 1 to move, an empty history. */
    method ResetGame(shuffled: seq<Coords>)
      requires IsShuffle(shuffled)
      modifies this
      ensures Valid() && IsResetState(shuffled)
    {
      board := EmptyGrid();
      pawns := GenerateRandomPositions(shuffled);
      currentPlayer := 1;
      directions := Directions();
      positionHistory := map[];
    }

    /** The moves offered for the current player's pawn `pawnIndex`: in each direction, the
        cells walked over while on the board and empty on the grid. */
    method HighlightMoves(pawnIndex: int) returns (validMoves: seq<Coords>)
      requires Valid() && 0 <= pawnIndex < 3
      ensures validMoves == Destinations(board, pawns[currentPlayer][pawnIndex])
      ensures forall m :: m in validMoves <==>
        exists d, k :: IsUnit(d) && 1 <= k && m == Step(pawns[currentPlayer][pawnIndex], d, k) &&
          ClearPath(board, pawns[currentPlayer][pawnIndex], d, k)
      ensures |validMoves| <= 32
    {
      var pawn := pawns[currentPlayer][pawnIndex];
      validMoves := [];
      for n := 0 to |directions|
        invariant validMoves == MovesAlong(board, pawn, directions[..n])
      {
        var direction := directions[n];
        ghost var before := validMoves;
        var newPos := Add(pawn, direction);
        while IsOnBoard(newPos) && IsCellEmpty(board, newPos)
          invariant before + Ray(board, Add(pawn, direction), direction) == validMoves + Ray(board, newPos, direction)
          decreases Remaining(newPos, direction)
        {
          validMoves := validMoves + [newPos];
          newPos := Add(newPos, direction);
        }
        assert directions[..n + 1][..n] == directions[..n];
      }
      assert directions[..|directions|] == directions;
      forall m ensures m in validMoves <==>
        exists d, k :: IsUnit(d) && 1 <= k && m == Step(pawn, d, k) && ClearPath(board, pawn, d, k)
      {
        DestinationsIff(board, pawn, m);
      }
      DestinationsBound(board, pawn);
    }

    /** The board and pawn updates after the animation: the old cell is cleared, the pawn's
        entry becomes `target`, and `target` is set to the current player. */
    method CommitMove(pawnIndex: int, target: Coords)
      requires Valid() && 0 <= pawnIndex < 3 && IsOnBoard(target)
      modifies this`board, this`pawns
      ensures Valid()
      ensures board == MoveOnGrid(old(board), old(pawns)[currentPlayer][pawnIndex], target, currentPlayer)
      ensures pawns == old(pawns)[currentPlayer := old(pawns)[currentPlayer][pawnIndex := target]]
      ensures At(board, target) == currentPlayer
      ensures old(pawns)[currentPlayer][pawnIndex] != target ==> At(board, old(pawns)[currentPlayer][pawnIndex]) == 0
      ensures forall q :: IsOnBoard(q) && q != old(pawns)[currentPlayer][pawnIndex] && q != target ==>
        At(board, q) == At(old(board), q)
      ensures pawns[currentPlayer][pawnIndex] == target
      ensures forall k :: 0 <= k < 3 && k != pawnIndex ==> pawns[currentPlayer][k] == old(pawns)[currentPlayer][k]
      ensures pawns[NextPlayer(currentPlayer)] == old(pawns)[NextPlayer(currentPlayer)]
    {
      var oldPawn := pawns[currentPlayer][pawnIndex];
      board := SetCell(board, oldPawn, 0);
      pawns := pawns[currentPlayer := pawns[currentPlayer][pawnIndex := target]];
      board := SetCell(board, target, currentPlayer);
      forall q | IsOnBoard(q) && At(board, q) != 0
        ensures At(board, q) in pawns && q in pawns[At(board, q)]
      {
        if q != target {
          var p := At(board, q);
          assert p == At(old(board), q) && q != oldPawn;
          var k :| 0 <= k < |old(pawns)[p]| && old(pawns)[p][k] == q;
          assert pawns[p][k] == q;
        } else {
          assert pawns[currentPlayer][pawnIndex] == q;
        }
      }
    }

    /** has_won: some pawn and some direction give two more cells, both on the board and both
        among the player's pawns. The scan stops at the first such pair in pawn-then-direction
        order, whose indices are returned as ghost outputs. */
    method HasWon(player: int) returns (won: bool, ghost at: int, ghost dir: int)
      requires Valid() && (player == 1 || player == 2)
      ensures won == Wins(pawns[player])
      ensures won ==> 0 <= at < 3 && 0 <= dir < 8 && AlignedFrom(pawns[player], pawns[player][at], Directions()[dir])
      ensures won ==> forall k, n {:trigger AlignedFrom(pawns[player], pawns[player][k], Directions()[n])} ::
        0 <= k < 3 && 0 <= n < 8 && (k < at || (k == at && n < dir)) ==>
        !AlignedFrom(pawns[player], pawns[player][k], Directions()[n])
    {
      var ps := pawns[player];
      for k := 0 to |ps|
        invariant forall k', n :: 0 <= k' < k && 0 <= n < |Directions()| ==> !AlignedFrom(ps, ps[k'], Directions()[n])
      {
        var pawn := ps[k];
        for n := 0 to |directions|
          invariant forall n' :: 0 <= n' < n ==> !AlignedFrom(ps, pawn, directions[n'])
        {
          var direction := directions[n];
          var p2 := Add(pawn, direction);
          var p3 := Add(p2, direction);
          if IsOnBoard(p2) && IsOnBoard(p3) && p2 in ps && p3 in ps {
            assert AlignedFrom(ps, ps[k], Directions()[n]);
            return true, k, n;
          }
        }
      }
      return false, 0, 0;
    }

    /** record_position: the count of the current grid goes up by one; a draw is reported when
        it has reached three. */
    method RecordPosition() returns (draw: bool)
      requires Valid()
      modifies this`positionHistory
      ensures Valid()
      ensures positionHistory == Bump(old(positionHistory), board)
      ensures draw <==> Count(positionHistory, board) >= RepetitionLimit
    {
      var positionSignature := board;
      var count := if positionSignature in positionHistory then positionHistory[positionSignature] else 0;
      positionHistory := positionHistory[positionSignature := count + 1];
      draw := positionHistory[positionSignature] >= RepetitionLimit;
    }

    /** A click on `target` while the current player's pawn `pawnIndex` is selected. A target
        that is not a highlighted move is ignored. Otherwise the move is committed; a win is
        checked first, then a threefold repetition, and either one resets the game from the
        placement `shuffled`; if neither, the other player is to move. */
    method MakeMove(pawnIndex: int, target: Coords, shuffled: seq<Coords>) returns (outcome: Outcome)
      requires Valid() && 0 <= pawnIndex < 3 && IsShuffle(shuffled)
      modifies this
      ensures Valid()
      ensures var from := old(pawns)[old(currentPlayer)][pawnIndex];
        target !in Destinations(old(board), from) ==>
          outcome == Ignored && board == old(board) && pawns == old(pawns) &&
          currentPlayer == old(currentPlayer) && positionHistory == old(positionHistory)
      ensures var player := old(currentPlayer);
        var from := old(pawns)[player][pawnIndex];
        target in Destinations(old(board), from) ==>
          var moved := old(pawns)[player := old(pawns)[player][pawnIndex := target]];
          var grid := MoveOnGrid(old(board), from, target, player);
          (Wins(moved[player]) ==>
             outcome == Won(player) && IsResetState(shuffled)) &&
          (!Wins(moved[player]) && Count(old(positionHistory), grid) + 1 >= RepetitionLimit ==>
             outcome == Draw && IsResetState(shuffled)) &&
          (!Wins(moved[player]) && Count(old(positionHistory), grid) + 1 < RepetitionLimit ==>
             outcome == NextTurn && board == grid && pawns == moved &&
             positionHistory == Bump(old(positionHistory), grid) &&
             currentPlayer == NextPlayer(player) && directions == Directions())
    {
      var validMoves := HighlightMoves(pawnIndex);
      if target !in validMoves {
        return Ignored;
      }
      CommitMove(pawnIndex, target);
      var won;
      ghost var at, dir;
      won, at, dir := HasWon(currentPlayer);
      if won {
        outcome := Won(currentPlayer);
        ResetGame(shuffled);
        return;
      }
      var draw := RecordPosition();
      if draw {
        outcome := Draw;
        ResetGame(shuffled);
        return;
      }
      currentPlayer := NextPlayer(currentPlayer);
      outcome := NextTurn;
    }
  }
}
