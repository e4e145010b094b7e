# Neutreeko rules engine in Dafny

This project models the rules engine of a Neutreeko game. Neutreeko is played by two players on a 5x5 board, with three pawns each. It models the non-GUI logic of `NeutreekoApp` in `algorithm6/main.py`:

- the `Coords` value type and the eight directions;
- the 5x5 integer grid (`0` empty, `1` or `2` a player) and each player's list of three pawns;
- the initial placement: shuffle all 25 cells, then give player 1 the first three and player 2 the next three;
- sliding move generation, which walks each direction while the cell is on the board and empty on the grid;
- the board and pawn updates that commit a move;
- win detection: three of the player's pawns on consecutive cells;
- the threefold-repetition counter over grid snapshots;
- the turn sequence after a move: win check first, then the repetition check, then `3 - current_player`.

Layout, one module per file:

- `coords.dfy` (`Coordinates`): `Coords`, `Add`, `IsOnBoard`, the direction list and the list of all cells.
- `board.dfy` (`Board`): the grid, `IsCellEmpty`, cell updates and `GenerateRandomPositions`.
- `moves.dfy` (`Moves`): the sliding walk `Ray` and the destination list `Destinations`, with how they are characterised.
- `win.dfy` (`Win`): the has-won condition `Wins` and its geometry.
- `history.dfy` (`History`): the repetition counter.
- `scenarios.dfy` (`Scenarios`): concrete positions.
- `game.dfy` (`Game`): the class `NeutreekoApp`. Its fields `board`, `pawns`, `currentPlayer`, `directions` and `positionHistory` are updated by methods with `modifies` clauses.

Two behaviours of the code are kept as written:

- The grid starts all 0 and is never filled from the initial placement. So `IsCellEmpty` reports a pawn's starting cell as empty until something moves onto it, and a pawn may slide onto or through another pawn's starting cell. `Board.StartingCellsLookEmpty` and `Scenarios.FreshGridNeighbour` state this. Because of it, the grid and the pawn lists are not fully consistent. The class invariant `Valid()` states the one link that every modelled operation keeps: a cell that the grid marks with a player holds one of that player's pawns. The program itself can lose this link through `ai_move`, which is not modelled. Suppose player 2 makes a human move in "Player vs Player" mode, so the grid marks that cell 2, and the mode is then switched to "Player vs AI". If `ai_move` later moves that pawn, the grid still holds 2 at a cell with no player-2 pawn. The model does not describe states reached that way.
- The code has no terminal Won or Draw state. After a win or a draw, `reset_game` runs at once. So `MakeMove` resets the state and reports the outcome. The code was followed here.

Inputs the source takes from its environment become parameters:

- The shuffle result is the parameter `shuffled`, which must be a permutation of the 25 cells (`IsShuffle`).
- The clicked cell and the selected pawn are the parameters `target` and `pawnIndex`.
- In the source, the highlighted list is captured when the pawn is selected and checked on the next click. Nothing changes the state between the two clicks, so `MakeMove` computes the list itself with `HighlightMoves`.

## Model

| member | source | states |
|---|---|---|
| Coordinates.Coords | algorithm6/main.py:7-18 | Definition: a pair (i, j). Equality is by value, as `__eq__` and `__hash__` give. |
| Coordinates.Add | algorithm6/main.py:11-12 | Definition: the componentwise sum. The result may lie off the board. |
| Coordinates.IsOnBoard | algorithm6/main.py:13-14 | Definition: 0 ≤ i < 5 and 0 ≤ j < 5. |
| Coordinates.Directions | algorithm6/main.py:30 | Exactly 8 vectors, each a nonzero unit step with components in {-1,0,1}. They are listed in increasing (i, j) order, which is the comprehension's order with (0,0) skipped. Every unit step is among them. |
| Coordinates.DirectionsDistinct | algorithm6/main.py:30 | No direction is listed twice. |
| Coordinates.StepAdd | algorithm6/main.py:11-12 | One more `add` of d from step k gives step k+1, and step 1 is one `add`. Step k is p + k·d. |
| Coordinates.FarStepOffBoard | algorithm6/main.py:13-14 | From an on-board cell, 5 or more unit steps in any direction land off the board. |
| Coordinates.AllPositions | algorithm6/main.py:47 | The 25 cells to be shuffled: no repeats, and a cell is in the list iff 0 ≤ i < 5 and 0 ≤ j < 5. |
| Board.EmptyGrid | algorithm6/main.py:27 | The reset grid is 5x5 with every cell 0. |
| Board.IsCellEmpty | algorithm6/main.py:178-179 | Definition: the grid holds 0 at the cell. The pawn lists are not consulted. |
| Board.SetCell | algorithm6/main.py:99 | Writing one grid cell sets that cell and leaves every other cell unchanged. |
| Board.MoveOnGrid | algorithm6/main.py:99-101 | After a commit, the target holds the player. The old cell is 0 unless it is the target. Every other cell is unchanged. |
| Board.DistinctPermutation | algorithm6/main.py:47-48 | A reordering of a list without repeats has no repeats, so the shuffle keeps the 25 cells distinct. |
| Board.GenerateRandomPositions | algorithm6/main.py:46-52 | Player 1 gets the first three shuffled cells and player 2 the next three. All six cells are on the board and pairwise distinct. |
| Board.StartingCellsLookEmpty | algorithm6/main.py:27-28 | On the reset grid, `is_cell_empty` holds at every pawn's starting cell. |
| Moves.Ray | algorithm6/main.py:79-81 | Definition of the inner while loop: starting at a cell, collect it and step on by d while the cell is on the board and empty. |
| Moves.MovesAlong | algorithm6/main.py:77-81 | Definition of the outer loop: the walks of each direction in list order, concatenated. |
| Moves.RayExact | algorithm6/main.py:78-81 | In one direction, the walk collects exactly steps 1..n from the pawn. All of them are on the board and empty. Step n+1, the first one off the board or not empty, is excluded. |
| Moves.RayMember | algorithm6/main.py:78-81 | A cell is on the walk along d iff it is p + k·d for some k ≥ 1 and every step 1..k is on the board and empty. |
| Moves.RayBound | algorithm6/main.py:79-81 | From an on-board pawn, one direction contributes at most 4 cells. |
| Moves.MovesAlongMember | algorithm6/main.py:77 | A cell is collected over a list of directions iff it is on the walk of one of them. |
| Moves.MovesAlongBound | algorithm6/main.py:77-81 | Over n directions, at most 4·n cells are collected. |
| Moves.Destinations | algorithm6/main.py:76-81 | Every destination offered is on the board and holds 0 on the grid. |
| Moves.DestinationsIff | algorithm6/main.py:76-81 | m is a destination iff m = p + k·d for a unit direction d and some k ≥ 1, with every step 1..k on the board and empty. |
| Moves.DestinationsBound | algorithm6/main.py:76-81 | At most 32 destinations are offered. |
| Win.AlignedFrom | algorithm6/main.py:143-148 | Definition of the test for one pawn and one direction: pawn + d and pawn + 2d are both on the board and both among the player's pawns. |
| Win.Wins | algorithm6/main.py:140-151 | Definition of has_won's result: some pawn and some listed direction pass the test. |
| Win.Axes | algorithm6/main.py:142 | Every direction, or its opposite, is one of the four line families: row, column and the two diagonals. |
| Win.WinsIffLine | algorithm6/main.py:140-151 | For on-board pawns, the has_won condition holds iff some run of three consecutive cells along a row, column or diagonal is entirely the player's. |
| Win.WinningPawnsDistinct | algorithm6/main.py:140-151 | A win needs three pawns on three different cells. |
| Win.ThreeValuesFill | algorithm6/main.py:147-148 | Three different cells found among three pawns means no two pawns share a cell. |
| History.Count | algorithm6/main.py:31 | Definition: the recorded count of a snapshot, 0 for one never recorded, as the `defaultdict(int)` gives. |
| History.Bump | algorithm6/main.py:175 | Recording a snapshot raises its count by exactly 1. Every other count is unchanged and no count decreases. |
| History.ReplayCounts | algorithm6/main.py:173-176 | After a series of recordings, each snapshot's count is the number of times it was recorded. |
| History.ThirdOccurrenceDraws | algorithm6/main.py:176 | From an empty history, a recording reports a draw iff the snapshot was recorded at least twice before. The first two occurrences never report one. |
| Scenarios.SlideAlongEmptyRow | algorithm6/main.py:78-81 | A pawn at column 0 with the rest of its row empty slides to columns 1, 2, 3 and 4 of that row in direction (0,1). |
| Scenarios.FreshGridNeighbour | algorithm6/main.py:27 | On the reset grid, every on-board neighbour of a pawn is a destination, even one where another pawn starts. |
| Scenarios.RowOfThreeWins | algorithm6/main.py:140-151 | Pawns at (2,2), (2,3) and (2,4) win. |
| Scenarios.GapDoesNotWin | algorithm6/main.py:140-151 | Pawns at columns 0, 1 and 3 of one row do not win. |
| Game.NextPlayer | algorithm6/main.py:115 | `3 - current_player` maps 1 to 2 and 2 to 1. |
| Game.NeutreekoApp.Valid | algorithm6/main.py:26-31 | Definition of the class invariant: a 5x5 grid, three on-board pawns for each of players 1 and 2, the current player 1 or 2, the eight directions, and every cell the grid marks with a player holding one of that player's pawns. |
| Game.NeutreekoApp.constructor | algorithm6/main.py:21-24 | A new game is in the reset state. |
| Game.NeutreekoApp.ResetGame | algorithm6/main.py:26-31 | After a reset: an all-0 grid, the placement from the shuffle, player 1 to move, the 8 directions and an empty history. |
| Game.NeutreekoApp.HighlightMoves | algorithm6/main.py:74-81 | The returned list is the destination list of the selected pawn. It holds exactly the cells reached by a clear straight slide, and at most 32 of them. |
| Game.NeutreekoApp.CommitMove | algorithm6/main.py:99-101 | The old cell becomes 0, the pawn entry becomes the target and the target cell becomes the current player. Every other cell, pawn entry and the other player's pawns are unchanged. The invariant is kept. |
| Game.NeutreekoApp.HasWon | algorithm6/main.py:140-151 | The result is the has_won condition. When true, the ghost outputs name the first witness in pawn-then-direction order. |
| Game.NeutreekoApp.RecordPosition | algorithm6/main.py:173-176 | The count of the current grid goes up by one, and nothing else changes. The result is true iff the new count is ≥ 3. |
| Game.NeutreekoApp.MakeMove | algorithm6/main.py:90-115 | A target that is not highlighted changes nothing. Otherwise the move is committed. A win resets the game and reports the mover. Failing that, a third repetition resets the game and reports a draw. Failing both, the history is bumped and the turn passes to 3 - player. |

## Left out

- Everything tkinter (canvas drawing, buttons, the mode menu, message boxes, `draw_board`) and the rebinding of click handlers. These are presentation and input plumbing.
- Mapping pixels to cells (`event.x // 100`) and picking the clicked pawn in `handle_click`. The pawn index and the target cell are parameters instead.
- `animate_move` and the `root.after` timers. This includes the pawn update in the last animation frame (`algorithm6/main.py:168`), whose ordering against the deferred commit depends on timers. `MakeMove` runs its steps at once, in source order.
- `random.shuffle`: its result is the parameter `shuffled`.
- `ai_move` and the "Player vs AI" dispatch after the turn switch. They are tangled with drawing and message boxes. `ai_move` writes `self.pawns[2]` without touching the grid. It moves player 2's first pawn that has an adjacent empty on-board cell one step in the first such direction, which breaks the grid-to-pawn link that `Valid()` states when the moved pawn's cell was marked on the grid (see above), so `MakeMove`'s precondition does not cover the states that follow; the statement after its inner loop has no effect on the outcome.
- Out-of-range indices in Python (negative wrap-around, `KeyError`). The source's callers never reach them: `is_cell_empty` is called only after the on-board check, and the player is always 1 or 2.
