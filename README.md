# Tic-tac-toe rule engine in Dafny

A model of the rule engine of a SwiftUI tic-tac-toe game, with proofs about it. The engine is the
`TicTacToeViewModel` class (TicTacToe/TicTacToeViewModel.swift) and the `Player`
enum (TicTacToe/Models.swift). It is a small state machine. Its stored state is:

- a nine-cell board of `Player?`, row-major;
- the player to move;
- the winner, if any;
- the indices of the winning line;
- a draw flag.

It has two commands, `resetGame(startingPlayer:)` and `makeMove(at:)`, and one query, `detectWinner()`. The query scans eight fixed lines in
declaration order.

The project has five files:

- `wrappers.dfy` holds `Option`, which stands for Swift's `Optional`.
- `models.dfy` holds `Player`, its `next` (`Next`) and its raw values. It also models the failable
  `init?(rawValue:)` that a `String`-backed enum gets, as `FromRawValue`. That initializer is the
  partner of the raw values.
- `rules.dfy` holds the rules as pure functions over a `GameState` value, which is a snapshot of
  the five stored fields:
  - `Reset`, `Initial`, and `Move` for `makeMove(at:)`;
  - `DetectedLine`, the scan `detectWinner()` performs;
  - `Play`, which makes a sequence of moves.

  It also holds the lemmas that give the functions their meaning: win/draw/turn precedence,
  the first-complete-line characterisation of the scan, the invariants of every reachable state,
  and the turn order.
- `view_model.dfy` holds the class `TicTacToeViewModel`. Its fields are the stored fields of the
  Swift class, plus a ghost field `starter` that records who started the current game; it exists
  only for the proofs, to state the turn order. The methods update the fields in place as the
  source does:
  - `ResetGame` and `MakeMove` are specified by `Reset` and `Move`, and keep `Valid()`. `Valid()`
    is the invariant together with the turn order.
  - `DetectWinner` is the `for` loop with early return, proved equal to `DetectedLine`.
- `scenarios.dfy` holds concrete games proved move by move:
  - the first move;
  - a column win;
  - a full-board draw;
  - a move on a taken cell;
  - moves out of range;
  - a move after the game is won.

A rejected move is a silent no-op in the code: the three `guard … else { return }` lines. The
model states it as "every field unchanged" and has no error values.

## Model

| member | source | states |
|---|---|---|
| Models.Player.Next | TicTacToe/Models.swift:14 | the next player is never the same player (no fixed point) |
| Models.NextValues | TicTacToe/Models.swift:14 | the turn passes from X to O and from O to X |
| Models.NextIsInvolution | TicTacToe/Models.swift:14 | passing the turn twice returns to the same player |
| Models.Player.RawValue | TicTacToe/Models.swift:10-12 | each case's raw value is a one-character string |
| Models.FromRawValue | TicTacToe/Models.swift:10-12 | the synthesized raw-value initializer yields a case only for that case's raw value, and nothing for any string that is neither raw value |
| Models.RawValueRoundTrip | TicTacToe/Models.swift:11-12 | the raw values are exactly "X" and "O" and are distinct; each case is recovered from its raw value |
| Rules.FirstWinningLineSpec | TicTacToe/TicTacToeViewModel.swift:57-65 | the in-order scan finds nothing exactly when no line of the list is all X or all O; otherwise it returns the first such line |
| Rules.DetectedLineSpec | TicTacToe/TicTacToeViewModel.swift:57-65 | `detectWinner()` is non-nil exactly when some winning line is complete; then it returns the first complete line in declaration order, which is one of the eight lines |
| Rules.FilledAll | TicTacToe/TicTacToeViewModel.swift:48 | the count of non-nil cells equals the board size exactly when every cell is marked |
| Rules.AllMarked | TicTacToe/TicTacToeViewModel.swift:59-60 | the `map`/`allSatisfy` test of one player: when a non-empty line is all `p`, its first cell is on the board and holds `p` |
| Rules.LineComplete | TicTacToe/TicTacToeViewModel.swift:60 | the "all X or all O" test: a complete non-empty line has a marked first cell |
| Rules.LineOwnedByFirstCell | TicTacToe/TicTacToeViewModel.swift:59-60 | a non-empty line is complete exactly when its first cell is marked and every cell carries that mark; no line is all X and all O at once |
| Rules.FirstWinningLine | TicTacToe/TicTacToeViewModel.swift:57-65 | the in-order scan over a list of lines returns only a line of that list; its meaning is stated by `Rules.FirstWinningLineSpec` |
| Rules.DetectedLine | TicTacToe/TicTacToeViewModel.swift:57-65 | the scan over the eight fixed lines returns only one of those lines; its meaning is stated by `Rules.DetectedLineSpec` |
| Rules.Filled | TicTacToe/TicTacToeViewModel.swift:48 | the `compactMap` count of marked cells is at most the number of cells; `Rules.FilledAll` says when it reaches it |
| Rules.Reset | TicTacToe/TicTacToeViewModel.swift:25-33 | the reset state has nine empty cells, the given starting player to move, no winner, no indices and no draw |
| Rules.Initial | TicTacToe/TicTacToeViewModel.swift:13-17 | the declared initial field values are the state `resetGame()` gives with its default `.x` |
| Rules.Settle | TicTacToe/TicTacToeViewModel.swift:44-54 | the outcome step keeps the board as the mark left it; which outcome it picks is stated by `Rules.MoveWins`, `Rules.MoveDraws` and `Rules.MovePassesTurn` |
| Rules.Move | TicTacToe/TicTacToeViewModel.swift:35-55 | a move that fails any of the three guards leaves the whole state unchanged; an accepted move marks exactly the chosen cell with the mover, keeps the other eight cells, and keeps nine cells |
| Rules.MoveWins | TicTacToe/TicTacToeViewModel.swift:45-47 | if the placed mark completes a line, the mover becomes the winner, the first complete line is recorded, the turn does not pass, and no draw is set |
| Rules.MoveDraws | TicTacToe/TicTacToeViewModel.swift:48-50 | if no line is complete and the board is now full, the game is a draw with no winner and the turn does not pass |
| Rules.MovePassesTurn | TicTacToe/TicTacToeViewModel.swift:51-53 | otherwise the turn passes to the other player, with no winner and no draw |
| Rules.NewLineBelongsToMover | TicTacToe/TicTacToeViewModel.swift:42-47 | a line completed by placing `p` in an empty cell runs through that cell and is all `p`: only the mover can complete a line |
| Rules.ResetEstablishesInv | TicTacToe/TicTacToeViewModel.swift:25-33 | the reset state satisfies the invariant: no winner, no indices, no draw, no complete line |
| Rules.MovePreservesInv | TicTacToe/TicTacToeViewModel.swift:35-55 | every move keeps the invariant: never both won and drawn; indices non-empty exactly when there is a winner; no complete line while there is no winner; the winner owns every cell of the recorded line, which is a winning line; a draw has a full board |
| Rules.MovePreservesTurnOrder | TicTacToe/TicTacToeViewModel.swift:42-53 | every move keeps the turn order: the starter has as many marks as the opponent or one more, and the current player is the one due to move (or the last mover once the game is over) |
| Rules.TurnOrderParity | TicTacToe/TicTacToeViewModel.swift:53 | under the turn order, while the game runs the starter moves on an even number of marks and the opponent on an odd number |
| Rules.PlayPreservesInv | TicTacToe/TicTacToeViewModel.swift:35-55 | any sequence of moves keeps the invariant and the turn order |
| Rules.ReachableStatesAreValid | TicTacToe/TicTacToeViewModel.swift:25-55 | every state reachable from `resetGame(startingPlayer: p)` by moves satisfies the invariant and the turn order started by `p` |
| Rules.TurnAlternation | TicTacToe/TicTacToeViewModel.swift:25-55 | in every reachable running game, the starter is to move after an even number of marks and the opponent after an odd number |
| Rules.GameOverIsSticky | TicTacToe/TicTacToeViewModel.swift:39 | once the game is won or drawn, no sequence of moves changes any field |
| ViewModel.TicTacToeViewModel.constructor | TicTacToe/TicTacToeViewModel.swift:13-17 | a new view model has the declared values, which equal the reset state for `.x`, and is valid |
| ViewModel.TicTacToeViewModel.ResetGame | TicTacToe/TicTacToeViewModel.swift:25-33 | the board becomes nine empty cells, the starting player is to move, no winner, no indices, no draw; the result is valid |
| ViewModel.TicTacToeViewModel.MakeMove | TicTacToe/TicTacToeViewModel.swift:35-55 | the new fields are `Move` of the old ones; a rejected move changes no field; an accepted move writes the mover into the chosen cell only; validity is kept |
| ViewModel.TicTacToeViewModel.DetectWinner | TicTacToe/TicTacToeViewModel.swift:57-65 | the loop over the lines with early return yields exactly the scan `DetectedLine`, whose meaning is stated by `Rules.DetectedLineSpec` |
| Scenarios.InitialBoard | TicTacToe/TicTacToeViewModel.swift:13-17 | the declared initial state is nine empty cells, X to move, no winner, no indices, no draw |
| Scenarios.FirstMoveTakesCentre | TicTacToe/TicTacToeViewModel.swift:35-55 | from the initial state, X's move on cell 4 marks it and hands the turn to O |
| Scenarios.SameCellTwice | TicTacToe/TicTacToeViewModel.swift:38 | a second move on the same cell is rejected and changes nothing |
| Scenarios.OutOfRangeIgnored | TicTacToe/TicTacToeViewModel.swift:37 | moves on 9 and on -1 change nothing |
| Scenarios.ColumnWin | TicTacToe/TicTacToeViewModel.swift:35-65 | moves 0,1,3,2,6 give X the win on [0,3,6], with X still the current player |
| Scenarios.FullBoardDraw | TicTacToe/TicTacToeViewModel.swift:35-65 | moves 0,1,2,4,3,5,7,6,8 fill the board with no line complete: a draw, no winner, X (who moved last) still current |
| Scenarios.NoMoveAfterWin | TicTacToe/TicTacToeViewModel.swift:39 | after X's column win, a move on the empty centre cell changes nothing |

## Left out

- `withAnimation { … }` around the assignments in `resetGame` is left out. It is presentation only; the assignments inside it are modelled.
- `@Published`, `ObservableObject` and the Combine change notifications are left out. They are framework reactivity with no effect on the game state.
- `Player.color` is left out because it is a SwiftUI `Color`.
- The `Codable` conformance of `Player` is left out. It is library serialization that the game never uses.
- TicTacToe/ContentView.swift is not part of this model. It covers layout, animation state, haptics, alerts and a wall-clock tap debounce. Its move guards repeat those of `makeMove(at:)`.
- Error values for rejected moves are not modelled, because the code has none: a rejected move returns silently, modelled as no change.
- Rules.AllMarked treats an index outside the board as an unmarked cell rather than a crash. The Swift code would trap on such an index. It never arises, because the eight lines are constants within 0…8.
- Swift's fixed-width `Int` is modelled as an unbounded integer. The only arithmetic is the range guard and the mark count, which cannot overflow.
