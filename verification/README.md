# Checkers engine core, modelled in Dafny

This project models the game core of a checkers (draughts) program: the
board state with its undo history (class `Board`), the move value type
(`move_pos`) and the bot (class `Logic`). The bot:

- finds the moves of one piece and of a whole side, with mandatory capture;
- applies a move to a copy of the grid;
- scores a position by material;
- searches with alpha-beta to a fixed depth;
- rebuilds the best line of moves, including a whole capture chain.

The grid is an 8x8 matrix of codes:

- 0 is an empty cell;
- 1 and 2 are the men of the two sides;
- 3 and 4 are their queens.

A piece's side is the parity of its code.

## Modules

- `Matrices` (matrix.dfy): the grid, cell update, and counts of codes.
- `Moves` (moves.dfy): `move_pos`, its constructors, `==` and `!=`.
- `Rules` (rules.dfy):
  - `make_turn`;
  - the legality of a move;
  - the per-piece `find_turns`, written as "the rest of the loop" functions, one per source loop.
- `MoveShapes` (shapes.dfy): for each generator, the exact set of moves it yields, stated as geometric shapes (a man's jump, a queen's capture past exactly one opponent, ...).
- `SideRules` (sides.dfy): the side-level `find_turns` scan, the mandatory-capture rule it implements, and the shuffle.
- `Search` (search.dfy): `calc_score`, `find_best_turns_rec`, `find_first_best_turn` and the walk of `find_best_turns`, as functions of the grid, the scratch vectors and the random state.
- `Minimax` (minimax.dfy): a reference minimax value. Without pruning (`Optimization` = "O0") the search returns exactly this value, whatever order the shuffle chose.
- `BestLine` (bestline.dfy): the value of each root and chain move under plain minimax. It proves that `find_first_best_turn`, with its strict `score > best_score` update from -1, records the first move of greatest value, so `find_best_turns` starts with that move.
- `BoardState` (board.dfy): class `Board` with fields `mtx`, `historyMtx` and `historyBeatSeries`.
- `Engine` (engine.dfy): class `Logic`.
  - Fields: the scratch state `turns`, `haveBeats`, `nextMove`, `nextBestState`, the random state, and `maxDepth`.
  - Each method is imperative, as in the source, and proved equal to the function that specifies it. The properties proved of those functions therefore hold of the methods.

## Code and documentation disagree

The model follows the code in both places.

- `Board::move_piece(turn, beat_series)` clears the captured cell before the four-coordinate overload checks the move. A move that the overload then refuses has still removed the captured piece. `BoardState.Board.MovePiece` states this.
- In the search, a capture chain that ends does not record a trailing plain move. The line that `find_best_turns` returns is one plain move, or a chain made only of captures (`Engine.Logic.FindBestTurns`).

## Model

| member | source | states |
|---|---|---|
| Moves.PlainMove | Models/Move.h:20-23 | the four-coordinate constructor keeps the endpoints and records no capture (xb = yb = -1) |
| Moves.CaptureMove | Models/Move.h:26-29 | the six-coordinate constructor keeps all six coordinates; it is a capture exactly when xb != -1 |
| Moves.SameIgnoresCapture | Models/Move.h:32-35 | `==` holds exactly when the moves are equal after the captured cell is disregarded |
| Moves.SameIsEquivalence | Models/Move.h:32-41 | `==` is reflexive, symmetric and transitive, and `!=` is its negation |
| Moves.CaptureInvisibleToSame | Models/Move.h:17-35 | a plain move and a capture with the same endpoints are `==`, although they are different values |
| Rules.Promote | Game/Logic.h:68-69 | a man of code 1 reaching row 0, or of code 2 reaching row 7, becomes code + 2; every other piece is unchanged |
| Rules.MakeTurn | Game/Logic.h:60-77 | the resulting grid: source cleared, the (possibly promoted) piece on the destination, the captured cell cleared, every other cell unchanged, all codes still 0..4 |
| Rules.CaptureShrinks | Game/Logic.h:60-77 | a legal capture removes exactly one piece, a legal plain move none, and the destination is occupied afterwards |
| Rules.QueenWalkBlocked | Game/Logic.h:363-369 | the queen's capture scan stops at a piece of its own side and at a second opponent |
| Rules.QueenWalkNext | Game/Logic.h:361-381 | otherwise the scan records the landing past the passed opponent (if any, and not on the opponent's own cell) and goes on with the next cell |
| MoveShapes.ManCapturesExactly | Game/Logic.h:332-349 | the man-capture loops yield exactly the jumps two cells diagonally onto an empty cell over an opponent piece |
| MoveShapes.ManStepsExactly | Game/Logic.h:401-409 | the man-step loop yields exactly the one-cell diagonal steps forward (row - 1 for odd codes, row + 1 for even codes) onto empty cells |
| MoveShapes.QueenCapturesExactly | Game/Logic.h:354-383 | the queen-capture loops yield exactly the landings on an empty cell beyond exactly one opponent on a diagonal, every other cell passed being empty |
| MoveShapes.QueenSlidesExactly | Game/Logic.h:414-425 | the queen-slide loops yield exactly the empty cells of each diagonal up to the first occupied one |
| MoveShapes.PieceTurnsExactly | Game/Logic.h:318-428 | per-piece find_turns: with have_beats set, the list is non-empty and holds exactly the piece's captures; otherwise no capture exists and the list holds exactly its plain moves |
| MoveShapes.PieceTurnsLegal | Game/Logic.h:318-428 | every move found for an occupied cell starts on that cell and is legal, and is a capture exactly when have_beats is set |
| SideRules.SideScanRule | Game/Logic.h:278-306 | the side scan sets have_beats exactly when some piece of the side can capture; the list then holds exactly the side's captures, otherwise exactly its plain moves; every move is legal |
| SideRules.SideFlagRule | Game/Logic.h:282-306 | have_beats_before ends up set exactly when a piece of the side has a capture |
| SideRules.Shuffle | Game/Logic.h:312 | the shuffle returns a permutation of the list |
| SideRules.SideTurns | Game/Logic.h:278-314 | side-level find_turns: the list is a permutation of the scan's list and the flag is the scan's flag |
| SideRules.SideTurnsRule | Game/Logic.h:278-314 | the shuffled list obeys mandatory capture: the flag is set exactly when a capture exists, the list holds exactly the side's captures (or, without one, exactly its plain moves), and every move is legal |
| Search.CalcScore | Game/Logic.h:82-129 | the score is INF exactly when the opponent of side fbc has no pieces, 0 exactly when it has pieces and side fbc has none, and always lies in [0, INF] |
| Search.MaterialRange | Game/Logic.h:86-102 | a side's men and queens sum to 0 exactly when it has no pieces; otherwise its weighted material lies in [1, 1000] |
| Search.ScoreIsRatio | Game/Logic.h:105-129 | when both sides have pieces, the score is the ratio of the two weighted materials and the denominator is at least 1 |
| Search.CaptureNeverLowersScore | Game/Logic.h:82-129 | removing an opponent piece never lowers the score |
| Search.LossNeverRaisesScore | Game/Logic.h:82-129 | removing one of the side's own pieces never raises the score |
| Search.TurnsAt | Game/Logic.h:203-208 | the moves the search generates are legal and obey their flag; with a pinned piece they all start on it and the random state is untouched |
| Search.FirstBest | Game/Logic.h:138-185 | find_first_best_turn grows next_move and next_best_state together, past its own state, and keeps the entries before its state; its score and recorded move are characterised by BestLine.FirstBestValue and BestLine.FirstLoopValue |
| Search.FirstBestInChain | Game/Logic.h:145-148 | inside a capture chain the search ignores the list left by an earlier find_turns |
| Search.WalkIsChain | Game/Logic.h:46-53 | walking linked vectors yields a chain: each capture after the first starts where the previous one landed |
| Search.FirstBestLinked | Game/Logic.h:161-183 | the search keeps the vectors linked (every link points forward from a capture to a move continuing it); in a chain the move recorded at its state is a capture by the pinned piece, and at the root it is one of `turns` |
| Search.BestLineShape | Game/Logic.h:35-55 | the rebuilt line is empty or starts with a root move; it is a single move when the root moves are plain, and a chain of captures when they are captures (which root move it starts with: BestLine.RootBestMove) |
| Minimax.Value | Game/Logic.h:195-260 | the reference minimax value lies in [0, INF] |
| Minimax.BestOrderFree | Game/Logic.h:312 | the best value over a list of moves does not depend on their order, so the shuffle cannot change it |
| Minimax.SearchIsMinimax | Game/Logic.h:195-260 | without pruning, find_best_turns_rec returns the minimax value, whatever the window (alpha, beta) and the random state |
| Minimax.SearchScoreBounds | Game/Logic.h:195-260 | without pruning, every score of the search lies in [0, INF] |
| BoardState.StartPosition | Game/Board.h:286-306 | the opening position cell by cell: code 2 on the dark cells of rows 0-2, code 1 on those of rows 5-7, every other cell empty |
| BoardState.PopCount | Game/Board.h:223-233 | rollback pops max(1, last beat series) snapshots, never the last remaining one |
| BoardState.Board.constructor | Game/Board.h:23 | a fresh board has an empty grid and empty histories |
| BoardState.Board.GetBoard | Game/Board.h:174-177 | get_board returns the grid cell for cell |
| BoardState.Board.AddHistory | Game/Board.h:279-283 | one snapshot of the grid and the series length are pushed |
| BoardState.Board.DropPiece | Game/Board.h:156-160 | exactly the one cell is emptied |
| BoardState.Board.TurnIntoQueen | Game/Board.h:163-171 | succeeds exactly on a man; the man becomes its side's queen and nothing else changes; an empty cell or a queen is refused and leaves the grid as it was |
| BoardState.Board.MovePieceAt | Game/Board.h:127-153 | refuses an occupied destination and an empty source with the source's messages, changing nothing; otherwise the grid becomes make_turn of the plain move, and one history entry is pushed |
| BoardState.Board.MovePiece | Game/Board.h:113-123 | clears the captured cell first (even on a refused move); a completed move leaves the grid equal to make_turn of the move and pushes one history entry |
| BoardState.Board.MakeStartMtx | Game/Board.h:286-306 | the grid becomes the opening position, which is pushed onto the history with series 0 |
| BoardState.Board.Rollback | Game/Board.h:223-239 | both stacks lose exactly PopCount entries and the grid is restored from the remaining top snapshot |
| BoardState.Board.Redraw | Game/Board.h:101-109 | the history is reset to the single opening position, which is also the grid |
| Engine.Logic.constructor | Game/Logic.h:19-31 | the settings are stored, the random state starts from the seed as std::minstd_rand0 seeds itself (modulo 2^31 - 1, with 0 replaced by 1), and the scratch state is empty |
| Engine.Logic.AddManCaptures | Game/Logic.h:332-349 | the man-capture loops append exactly the list of Rules.ManCaptures |
| Engine.Logic.AddQueenWalk | Game/Logic.h:358-381 | the scan along one diagonal appends exactly the list of Rules.QueenWalk |
| Engine.Logic.AddQueenCaptures | Game/Logic.h:354-383 | the queen-capture loops append exactly the list of Rules.QueenCaptures |
| Engine.Logic.AddManSteps | Game/Logic.h:401-409 | the man-step loop appends exactly the list of Rules.ManSteps |
| Engine.Logic.AddQueenSlides | Game/Logic.h:414-425 | the queen-slide loops append exactly the list of Rules.QueenSlides |
| Engine.Logic.FindPieceTurns | Game/Logic.h:318-428 | turns and have_beats become those of Rules.PieceTurns (characterised by MoveShapes.PieceTurnsExactly) |
| Engine.Logic.ShuffleTurns | Game/Logic.h:312 | turns becomes a permutation of itself, namely the one Shuffle draws, and the random state advances accordingly |
| Engine.Logic.ScanBoard | Game/Logic.h:280-306 | the double loop computes the scan's list and flag (characterised by SideRules.SideScanRule) |
| Engine.Logic.FindSideTurns | Game/Logic.h:278-314 | turns, have_beats and the random state become those of SideRules.SideTurns |
| Engine.Logic.FindTurns | Game/Logic.h:264-267 | the public find_turns(color) does so on the board's grid |
| Engine.Logic.FindTurnsAt | Game/Logic.h:270-273 | the public find_turns(x, y) finds the piece's moves on the board's grid |
| Engine.Logic.CountPieces | Game/Logic.h:86-102 | the counting loops compute the men (with potential) and queens of both sides |
| Engine.Logic.CalcScore | Game/Logic.h:82-129 | returns Search.CalcScore, whose contract gives the INF / 0 cases and the range |
| Engine.Logic.FindBestTurnsRec | Game/Logic.h:195-260 | the score and the new random state are those of Search.RecScore, which Minimax.SearchIsMinimax relates to minimax |
| Engine.Logic.RecLoop | Game/Logic.h:229-256 | the alpha-beta loop, with its cut-off, computes Search.LoopScore |
| Engine.Logic.FirstBestTurn | Game/Logic.h:138-185 | score, next_move, next_best_state and the random state are those of Search.FirstBest, whose score is the best child value and whose recorded move is the first best one (BestLine.FirstBestValue, BestLine.FirstLoopValue) |
| Engine.Logic.FirstLoopRun | Game/Logic.h:161-183 | the root/chain loop computes Search.FirstLoop, recording a better move and its continuation state; BestLine.FirstLoopValue proves that this is the first move of greatest value |
| Engine.Logic.FindBestTurns | Game/Logic.h:35-55 | the vectors are those of the root search and are linked; the result is their walk, which is empty or starts with one of `turns`, is a single move when `turns` are plain, and is a chain of captures when they are captures; under O0 it is empty exactly when `turns` is, and it starts with the first of `turns` whose minimax value is greatest |
| BestLine.ChainValue | Game/Logic.h:143-158 | the minimax value of a position in the middle of a capture chain: the best continuation of the chain, or the opponent's value once no capture remains; it lies in [0, INF] |
| BestLine.MoveValue | Game/Logic.h:165-173 | the value of one root or chain move: the chain value after a capture, the opponent's minimax value after a plain move; it lies in [0, INF] |
| BestLine.MoveValues | Game/Logic.h:161-173 | one value per move of the list, each in [0, INF] |
| BestLine.FirstChildValue | Game/Logic.h:165-173 | under O0 the score find_first_best_turn obtains for a move equals that move's minimax value |
| BestLine.FirstBestValue | Game/Logic.h:138-185 | under O0 the score of find_first_best_turn inside a chain is the chain's minimax value |
| BestLine.OutcomeStep | Game/Logic.h:174-179 | one step of the strict `score > best_score` update keeps the loop outcome: the kept score bounds every later value, and the recorded move is the first to reach it |
| BestLine.PickOutcome | Game/Logic.h:174-179 | the strict update, run on the move values from any index, keeps a score at least the starting best that bounds every later value, and leaves in the slot either its old content or the first later move reaching that score |
| BestLine.FirstLoopPick | Game/Logic.h:161-183 | under O0 the search loop's score and recorded move are those of the strict update run on the move values |
| BestLine.FirstLoopValue | Game/Logic.h:161-183 | from any index, the loop ends with a score that is at least the starting best and bounds every remaining value; either nothing better was found and the slot keeps its entry, or the slot holds the first remaining move whose value is that score |
| BestLine.FirstLoopBest | Game/Logic.h:161-183 | on a non-empty list started at -1, the loop's score is the greatest move value and the recorded move is the first move attaining it |
| BestLine.RootBestMove | Game/Logic.h:35-55 | under O0, with no root moves the score is -1 and the line is empty; otherwise the score is the greatest root value and the line starts with the first root move attaining it |
| Engine.Logic.WalkLine | Game/Logic.h:46-53 | the loop collects exactly Search.Walk from state 0 |

## Left out

- Rendering, textures, the window, highlighting, the active cell, `game_results`, `show_final` and `rerender`: I/O. `drop_piece`, `turn_into_queen` and `redraw` are modelled on the grid and the history only.
- `Config` and its JSON file: the `Logic` constructor takes `BotScoringType`, `Optimization` and the seed as parameters.
- Seeding the random engine from the clock is left out, because it depends on the time. The seed is a parameter; with `NoRandom` it is 0, which the engine, like `std::minstd_rand0`, turns into the state 1.
- SideRules.Shuffle: `std::default_random_engine` and `std::shuffle` are modelled as a congruential step (`NextRand`) and a draw-to-front permutation. Only the permutation property is claimed, not the library's exact order.
- Search.CalcScore: doubles are modelled as exact reals, so rounding in the 0.05 steps and in the ratio is not captured.
- Engine.Logic.FindBestTurns: requires that `turns` / `haveBeats` be the legal, flag-consistent list that a preceding `find_turns(color)` leaves. The source relies on its caller for this.
- Engine.Logic.WalkLine: requires that `next_best_state` point forward. Every vector the search builds does (Search.FirstBestLinked); the source relies on that too.
- Engine.Logic.maxDepth: the source declares `int Max_depth` (Game/Logic.h:439) and Game/Game.h:71 copies the configured bot level into it without a check. A negative level would never equal the unsigned `depth` it is compared with (Game/Logic.h:198), so the search would then stop only where the game tree ends. The model's field is a `nat` and leaves that case out; the 32-bit width is not modelled either.
- BoardState.Board.Rollback: requires a non-empty history. On an empty history the source reads past the end of the vector, which is undefined behaviour.
- BoardState.PopCount: the post-decrement of the local counter in `rollback`'s loop condition is modelled by its effect, the number of pops.
- Search.RecScore: the optimisations other than "O0" (alpha-beta cut-offs) are modelled. Equality with minimax is proved only for "O0", because a cut-off returns a bound and not the value.
- The remaining members of `Board` (`highlight_cells`, `set_active`, `clear_active`, `clear_highlight`, `reset_window_size`, `quit`, the destructor) and the classes `Game`, `Hand` and `Config` are not part of this model; they handle input and output.
