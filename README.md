# Tic-Tac-Toe engines, modelled and verified in Dafny

This project models the game logic of a two-player Tic-Tac-Toe program with two front ends.

- **The browser game** (`public/game.js`): a `TicTacToe` object holding
  - a nine-cell board (`''`, `'X'` or `'O'`);
  - the mark to move;
  - whether a game is running;
  - two player records (name, human or computer, symbol).

  It starts games, guards clicks, applies moves, detects wins and draws, and
  plays for a computer player. The computer tries, in order: a winning cell,
  a blocking cell, the centre or a random corner, then a random free cell.
- **The console game** (`tictactoe.py`): a smaller `TicTacToe` board object.
  - It has nine text cells, where `' '` is free, and a recorded winner.
  - It guards moves and tests incrementally for a win around the square just
    played.
  - The computer player picks a random free square.

Layout:

| file | module | contents |
|---|---|---|
| `grid.dfy` | `Grid` | The cell indices 0..8, the eight winning combinations in scan order, and the "indices holding x" query. |
| `web_rules.dfy` | `WebRules` | The browser game's rules as pure definitions, with lemmas about them. `HasWin` and `IsFull` are the win and draw tests, and `Move` is the transition of one move. `Click` is the guarded click. `FirstWinning` is the probe scan, and `ComputerMayPlay` is the computer's rule chain. |
| `web_game.dfy` | `WebGame` | The browser game's object as a Dafny `class` with `board: array<Cell>`. Each method is proved to perform the matching transition of `WebRules` on `Model()`. |
| `web_scenarios.dfy` | `WebScenarios` | The move sequences and strategy boards the game's tests use, checked against the rules. It also holds the two places where the code does not do what a reader of those tests expects. |
| `console_game.dfy` | `ConsoleGame` | The console game's board object as a Dafny `class`, with the computer's pick. |
| `win_agreement.dfy` | `WinCheckAgreement` | After a move on a board with no completed line, the incremental win test of the console game agrees with the browser game's full scan. |

Behaviour the model keeps exactly as the code has it:

- **`makeMove` has no guard of its own.** It writes the current mark even on an occupied cell or after the game ended (`MoveOverwritesOccupiedCell`). Only `handleCellClick` checks that the game is running, the cell is free and the player to move is human. The test "should not allow moves on occupied cells" expects otherwise; the model follows the code.
- **The `||` chain reads 0 as "no move".** In `makeComputerMove`, a winning or blocking cell at index 0 is passed over, and so is a strategic corner 0, which falls through to a random free cell. `WinAtZeroIsPassedOver` shows a board where the computer could win at 0 but blocks at 5 instead, and the game goes on.
- **A computer first player moves at once.** `startNewGame` plays its first move synchronously (in the centre, `ComputerOpening`). Later computer turns are delayed: `MakeMove`, `HandleCellClick` and `MakeComputerMove` return `scheduled`, and the caller then runs `MakeComputerMove` as a separate step. That step re-checks only `gameActive`.
- **A delayed computer move has no generation check.** The delayed call to `makeComputerMove` (public/game.js:111) re-checks only `gameActive` (public/game.js:116), not which game scheduled it. A delayed step fired after a new game was started plays on the new game, if that game is running.

## Model

| member | source | states |
|---|---|---|
| Grid.LineCellsDistinct | public/game.js:11-15 | The three cells of every winning combination are pairwise distinct. |
| Grid.RowLine | public/game.js:12 | Combinations 0, 1 and 2 are the three rows. |
| Grid.ColumnLine | public/game.js:13 | Combinations 3, 4 and 5 are the three columns. |
| Grid.IndicesFrom | tictactoe.py:21 | The indices from `lo` on whose element is `x`: exactly those, in ascending order. |
| Grid.IndicesOf | tictactoe.py:21 | All indices whose element is `x`: exactly those, in ascending order. |
| WebRules.HasWinCases | public/game.js:167-177 | A win is one of the eight combinations, checked one by one, holding three equal non-empty marks. |
| WebRules.HasWinIffFilled | public/game.js:166-179 | A win is exactly a combination filled with X or filled with O. |
| WebRules.Opponent | public/game.js:137 | The flipped turn is always a mark, and for a mark it is the other mark. |
| WebRules.OpponentAlternates | public/game.js:106 | Flipping the turn twice gives it back, so play alternates between X and O. |
| WebRules.Available | public/game.js:119-121 | The free-cell list holds exactly the empty cells, in ascending order, each within the board. |
| WebRules.NotFullHasAvailable | public/game.js:119-127 | A board with an empty cell has a non-empty free-cell list, so the random pick has a cell to choose. |
| WebRules.FullIffNoneAvailable | public/game.js:211-213 | The board is full exactly when the free-cell list is empty. |
| WebRules.FirstWinningFrom | public/game.js:142-150 | Scanning from position `lo`: a cell it returns is the first from `lo` on whose placement wins. It returns None exactly when no cell from `lo` on wins. |
| WebRules.FirstWinningFromStep | public/game.js:143-148 | One probe: the scan answers the probed cell when it wins, otherwise it goes on with the next cell. |
| WebRules.FirstWinning | public/game.js:141-151 | The answer is a listed cell whose placement completes a line. No earlier listed cell does. It is None exactly when no listed cell wins. |
| WebRules.FreeCorners | public/game.js:158 | The filtered corners are exactly the corners in the list, in the order 0, 2, 6, 8. |
| WebRules.MoveOutcome | public/game.js:88-107 | A move writes the current mark at `i` and leaves the other eight cells alone. On a win it ends the game and keeps the turn. Otherwise, on a full board, it ends the game and keeps the turn. Otherwise it passes the turn and leaves `gameActive` as it was. |
| WebRules.MovePreservesConsistent | public/game.js:94-106 | Every move, guarded or not, leaves a running game with no completed line and a free cell. |
| WebRules.MoveOnFreeCellKeepsTurnOrder | public/game.js:89-106 | A move on a free cell of a running game keeps X's count equal to O's, plus one when O is to move. |
| WebRules.ClickIsGuardedMove | public/game.js:77-86 | A click changes nothing if any of these holds: the game is inactive, the index is off the board, the cell is occupied, or a computer is to move. Otherwise it is exactly a move. |
| WebRules.ClickPreservesInvariants | public/game.js:77-86 | Clicks keep the game consistent and keep the turn order. |
| WebRules.ComputerPlaysFreeCell | public/game.js:115-129 | Whatever the random choices, the computer's move is an empty cell of the board. |
| WebRules.ComputerHasAMove | public/game.js:119-127 | While a cell is free, the rule chain always yields some move. |
| WebRules.ComputerTakesWin | public/game.js:124-127 | When the first winning cell is not 0, the computer plays exactly that cell, and it completes a line. |
| WebRules.ComputerBlocks | public/game.js:124-127 | Suppose there is no truthy winning cell but a truthy cell where the opponent would win. Then the computer plays exactly that cell. |
| WebRules.NoWinWithOneMark | public/game.js:166-179 | A board with a single mark has no completed line. |
| WebRules.ComputerOpensInCentre | public/game.js:153-155 | On the empty board, every move the rule chain allows is the centre. |
| WebRules.NewGameIsConsistent | public/game.js:39-41 | A freshly started game has no line and free cells, with X to move. |
| WebRules.NewGameInTurnOrder | public/game.js:39-41 | A freshly started game is in turn order. |
| WebRules.ComputerOpening | public/game.js:59-62 | A computer first player plays the centre, and O is then to move in a running game. |
| WebGame.TicTacToe.constructor | public/game.js:2-7 | New object: empty board, X to move, no game running, player 1 Human/human/X, player 2 Computer/computer/O. |
| WebGame.TicTacToe.CurrentPlayerName | public/game.js:65-67 | The name of the player whose symbol is to move. |
| WebGame.TicTacToe.CurrentPlayerType | public/game.js:69-71 | The kind of the player whose symbol is to move. |
| WebGame.TicTacToe.StartNewGame | public/game.js:38-63 | New empty board, X to move, game running. The new names fall back to "Player 1" and "Player 2" when empty, and the new kinds are recorded. A computer first player has already played the centre, and a delayed turn is due only if player 2 is a computer. |
| WebGame.TicTacToe.HandleCellClick | public/game.js:77-86 | The new state is `Click` of the old state, so a rejected click changes nothing. A delayed computer turn is due exactly when the click was accepted and a computer is now to move in a running game. |
| WebGame.TicTacToe.MakeMove | public/game.js:88-113 | The new state is `Move` of the old state, and the invariant is kept. A delayed computer turn is due exactly when the game runs on and a computer is to move. |
| WebGame.TicTacToe.MakeComputerMove | public/game.js:115-130 | In an inactive game, nothing changes. Otherwise it plays one cell that was empty, chosen as the rule chain allows, and the new state is `Move` at that cell. |
| WebGame.TicTacToe.ChooseMove | public/game.js:123-127 | The chosen cell is one the rule chain allows. The board is as it was. |
| WebGame.TicTacToe.FindWinningMove | public/game.js:132-134 | The first listed cell where the current mark wins. The board is unchanged. |
| WebGame.TicTacToe.FindBlockingMove | public/game.js:136-139 | The first listed cell where the opponent's mark would win. The board is unchanged. |
| WebGame.TicTacToe.FindBestMove | public/game.js:141-151 | The answer of the write-probe-revert loop is `FirstWinning` of the board, and the board is identical on return. |
| WebGame.TicTacToe.FindStrategicMove | public/game.js:153-164 | Returns 4 when it is free. Otherwise, when a corner is free, returns a free corner. Otherwise returns None. |
| WebGame.TicTacToe.CheckWin | public/game.js:166-179 | True exactly when some combination holds three equal non-empty marks. |
| WebGame.TicTacToe.CheckDraw | public/game.js:211-213 | True exactly when no cell is empty, whether or not a line is complete. |
| WebScenarios.QuietMove | public/game.js:94-107 | A move that completes no line and leaves a free cell only passes the turn. |
| WebScenarios.RowGameOpening | public/game.test.js:113-114 | The first two moves of the game 0, 3, 1, 4, 2. |
| WebScenarios.RowGameMiddle | public/game.test.js:115-116 | Its third and fourth moves. |
| WebScenarios.RowGameEnding | public/game.test.js:117-120 | Its last move completes the top row and ends the game. |
| WebScenarios.HorizontalWin | public/game.test.js:109-121 | The game 0, 3, 1, 4, 2 ends with X's top row, X keeping the turn and the game inactive. |
| WebScenarios.DrawGameOpening | public/game.test.js:155-156 | The first two moves of the game 0, 1, 2, 4, 3, 5, 7, 6, 8. |
| WebScenarios.DrawGameSecond | public/game.test.js:155-156 | Its third and fourth moves. |
| WebScenarios.DrawGameMiddle | public/game.test.js:155-156 | Its fifth and sixth moves. |
| WebScenarios.DrawGameLate | public/game.test.js:155-156 | Its seventh and eighth moves. |
| WebScenarios.DrawGameEnding | public/game.test.js:155-159 | Its last move fills the board without a line. |
| WebScenarios.DrawnGame | public/game.test.js:151-160 | The game 0, 1, 2, 4, 3, 5, 7, 6, 8 ends with a full board, no line, and the game inactive. |
| WebScenarios.ColumnGameMiddle | public/game.test.js:129-130 | The third and fourth moves of the game 0, 1, 3, 4, 6. |
| WebScenarios.ColumnGameEnding | public/game.test.js:131-134 | Its last move completes the left column. |
| WebScenarios.VerticalWin | public/game.test.js:123-135 | The game 0, 1, 3, 4, 6 ends with X's left column and the game inactive. |
| WebScenarios.DiagonalGameMiddle | public/game.test.js:143-144 | The third and fourth moves of the game 0, 1, 4, 3, 8. |
| WebScenarios.DiagonalGameEnding | public/game.test.js:145-148 | Its last move completes the main diagonal. |
| WebScenarios.DiagonalWin | public/game.test.js:137-149 | The game 0, 1, 4, 3, 8 ends with X's main diagonal and the game inactive. |
| WebScenarios.MoveOverwritesOccupiedCell | public/game.js:88-89 | A second move on cell 0 replaces X with O, but a click there is rejected. |
| WebScenarios.FirstFree | public/game.js:119-121 | The first empty cell heads the free-cell list. |
| WebScenarios.SecondFree | public/game.js:119-121 | The second empty cell comes next in the free-cell list. |
| WebScenarios.WinningMoveBoard | public/game.test.js:168-181 | On O O . / X X . / X . . the first winning cell is 2 both for O, the mark the test names, and for X, the mark to move in the test's new game. |
| WebScenarios.BlockingMoveBoard | public/game.test.js:183-197 | On X X . / O O . / . . . with O to move, the blocking cell is 2. |
| WebScenarios.SecondProbeWins | public/game.js:142-147 | When the first probe fails and the second wins, the scan answers the second cell. |
| WebScenarios.ZeroBoardWinProbe | public/game.js:132-134 | On . O O / X X . / . X . the winning probe for O answers cell 0. |
| WebScenarios.ZeroBoardBlockProbe | public/game.js:136-139 | On the same board the blocking probe answers cell 5. |
| WebScenarios.ZeroBoardBlockDoesNotWin | public/game.js:166-179 | Playing O at 5 there completes no line. |
| WebScenarios.WinAtZeroIsPassedOver | public/game.js:124-127 | On that board the computer could win at 0 but plays exactly 5, and the game goes on. |
| ConsoleGame.SquareLines | tictactoe.py:36-48 | The row `square // 3` and the column `square % 3` are the only rows and columns through the square. The even squares are exactly those on a diagonal. |
| ConsoleGame.AllAreThree | tictactoe.py:38 | `all` over three spots holds exactly when each spot is the symbol. |
| ConsoleGame.RowIsLine | tictactoe.py:36-38 | The row slice is all `symbol` exactly when that row's combination is. |
| ConsoleGame.ColumnIsLine | tictactoe.py:42-44 | The column list is all `symbol` exactly when that column's combination is. |
| ConsoleGame.TicTacToe.constructor | tictactoe.py:11-13 | Nine free cells and no winner. |
| ConsoleGame.TicTacToe.AvailableMoves | tictactoe.py:20-21 | Exactly the indices of free cells, in ascending order. |
| ConsoleGame.TicTacToe.EmptySquares | tictactoe.py:23-24 | True exactly when some cell is free, that is, when the available moves are non-empty. |
| ConsoleGame.TicTacToe.MakeMove | tictactoe.py:26-32 | Succeeds exactly when the square is free, that is, available. On failure it changes nothing. On success it writes the symbol there only, and records the symbol as winner when `Winner` holds. A recorded winner is never cleared. The played square leaves the available moves. |
| ConsoleGame.TicTacToe.Winner | tictactoe.py:34-56 | True exactly when the square's row or column is all `symbol`, or the square is even and either diagonal is. |
| ConsoleGame.EvenSquareSeesBothDiagonals | tictactoe.py:48-54 | Playing at corner 0 reports the diagonal 2-4-6, which does not pass through 0. |
| ConsoleGame.GetComputerMove | tictactoe.py:58-60 | While a cell is free, the pick is one of the available moves. |
| WinCheckAgreement.Text | tictactoe.py:12 | A cell's text is `' '` exactly for the free cell. |
| WinCheckAgreement.RenderedLine | tictactoe.py:38 | A rendered combination is all `Text(p)` exactly when the board's combination is all `p`. |
| WinCheckAgreement.LineAwayUnchanged | public/game.js:166-179 | Playing a square does not change whether a combination away from it is complete. |
| WinCheckAgreement.ScanWinIsSeen | tictactoe.py:34-56 | On a board with no line before the move, every line the full scan finds after the move is seen by the incremental test. |
| WinCheckAgreement.IncrementalWinIsReal | tictactoe.py:34-56 | Every line the incremental test reports is a completed line of the board. |
| WinCheckAgreement.IncrementalCheckAgrees | tictactoe.py:34-56 | After a move on a board with no completed line, the incremental test and the full eight-line scan give the same answer. |

## Left out

- DOM and presentation in `public/game.js` are not modelled, because they do not change the game state. This covers:
  - the event wiring in `initializeGame` and the status text;
  - the cell text, classes and colours, and the winning-line highlight;
  - the victory overlay with its confetti, and the `DOMContentLoaded` hook.

  `checkWin(false)` and `checkWin()` behave the same on the state, so `CheckWin` has no argument.
- The 700 ms timer is not modelled. A due computer turn is reported as `scheduled`, and the caller runs `MakeComputerMove` as its own step.
- `Math.random` and `random.choice` are modelled as a nondeterministic choice from the list, with a membership postcondition.
- Console input and output in `tictactoe.py` are left out: `print_board`, `play_game`, `main`, the `Player` record, `time.sleep` and the input retry loops.
- Match history, statistics and persistence are left out. They do not appear in the code of the game object.
- Player names and kinds are parameters of `StartNewGame`, not read from form fields. A kind is `Human` or `Computer`; other strings from the select are not modelled.
- Cell indices are integers. The string `data-index` attribute that `handleCellClick` reads is not modelled.
- The browser-game methods require `Valid()`, which holds from the constructor on. It covers a nine-cell board, X and O as the players' symbols, and a running game with a free cell and no completed line. Code that assigns `board` directly, as the tests do, is not modelled.
- WebGame.TicTacToe.FindBestMove: requires every listed cell to be an empty cell of the board, which its only caller guarantees. On an occupied entry the code would clear that cell; this case is not modelled.
- WebGame.TicTacToe.MakeComputerMove: in a running game the free-cell list is never empty (by `Valid()`). So the code's `makeMove(undefined)` on an empty list is not modelled.
- ConsoleGame.TicTacToe.MakeMove: requires `0 <= square < 9`, as the game loop ensures. Python would wrap a negative index and raise on an index past the end; neither is modelled.
- ConsoleGame.TicTacToe.Winner: requires `0 <= square < 9` for the same reason.
- ConsoleGame.GetComputerMove: requires a free cell, which the game loop checks first. On an empty list `random.choice` raises.
- The turn order `TurnOrder` is proved for moves on free cells of a running game (legal play). Direct `makeMove` calls on occupied cells can break it, as `MoveOverwritesOccupiedCell` shows.
- The test file's strategy tests call an `available_moves` method that the browser game object does not have. `WinningMoveBoard` and `BlockingMoveBoard` state what those tests expect of the probe. The winning-move test leaves X to move, so `WinningMoveBoard` states the answer for X as well as for O.
