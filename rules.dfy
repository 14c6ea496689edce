/**
 * The rules of the game as pure functions over a snapshot of the view model's
 * stored fields (TicTacToe/TicTacToeViewModel.swift): the fixed winning lines,
 * winner detection, the effect of a reset and of a move, and the invariants
 * that every reachable state satisfies.
 *
 * The functions say little in their own contracts; what they mean is stated
 * in the lemmas that follow them.
 */
module Rules {
  import opened Wrappers
  import opened Models

  /** Nine cells in row-major order; `None` is an empty cell. */
  type Board = seq<Option<Player>>

  const CellCount: int := 9

  /** Three rows, three columns and two diagonals, in declaration order. */
  const WinningLines: seq<seq<int>> := [
    [0, 1, 2], [3, 4, 5], [6, 7, 8],
    [0, 3, 6], [1, 4, 7], [2, 5, 8],
    [0, 4, 8], [2, 4, 6]
  ]

  // ---------------------------------------------------------------------------
  // Winner detection.
  // ---------------------------------------------------------------------------

  /** Every cell of `line` holds `p` (`line.map { board[$0] }.allSatisfy { $0 == p }`). */
  predicate AllMarked(board: Board, line: seq<int>, p: Player)
    ensures AllMarked(board, line, p) && |line| > 0 ==>
      0 <= line[0] < |board| && board[line[0]] == Some(p)
  {
    forall j :: 0 <= j < |line| ==> 0 <= line[j] < |board| && board[line[j]] == Some(p)
  }

  /** All cells of `line` hold X, or all hold O. */
  predicate LineComplete(board: Board, line: seq<int>)
    ensures LineComplete(board, line) && |line| > 0 ==>
      0 <= line[0] < |board| && board[line[0]].Some?
  {
    AllMarked(board, line, X) || AllMarked(board, line, O)
  }

  /** A non-empty line is complete exactly when its first cell is marked and every
      cell carries that same mark; so a complete line has exactly one owner. */
  lemma LineOwnedByFirstCell(board: Board, line: seq<int>)
    requires |line| > 0
    ensures LineComplete(board, line) <==>
      0 <= line[0] < |board| && board[line[0]].Some? && AllMarked(board, line, board[line[0]].value)
    ensures !(AllMarked(board, line, X) && AllMarked(board, line, O))
  {
    if 0 <= line[0] < |board| && board[line[0]].Some? {
      var p := board[line[0]].value;
      assert p == X || p == O;
    }
  }

  /** The first line of `lines`, in order, that is complete on `board`. */
  function FirstWinningLine(board: Board, lines: seq<seq<int>>): (r: Option<seq<int>>)
    ensures r.Some? ==> r.value in lines
    decreases |lines|
  {
    if |lines| == 0 then None
    else if LineComplete(board, lines[0]) then Some(lines[0])
    else FirstWinningLine(board, lines[1..])
  }

  /** `line` is complete and is the first complete line of `lines`. */
  predicate IsFirstCompleteLine(board: Board, lines: seq<seq<int>>, line: seq<int>)
  {
    exists k :: 0 <= k < |lines| && lines[k] == line && LineComplete(board, lines[k])
      && forall j :: 0 <= j < k ==> !LineComplete(board, lines[j])
  }

  /** The scan reports nothing exactly when no line is complete, and otherwise the first complete one. */
  lemma {:induction false} FirstWinningLineSpec(board: Board, lines: seq<seq<int>>)
    ensures FirstWinningLine(board, lines).None? <==>
      forall k :: 0 <= k < |lines| ==> !LineComplete(board, lines[k])
    ensures FirstWinningLine(board, lines).Some? ==>
      IsFirstCompleteLine(board, lines, FirstWinningLine(board, lines).value)
    decreases |lines|
  {
    if |lines| > 0 && !LineComplete(board, lines[0]) {
      FirstWinningLineSpec(board, lines[1..]);
      assert forall k :: 1 <= k < |lines| ==> lines[k] == lines[1..][k - 1];
      var r := FirstWinningLine(board, lines[1..]);
      if r.Some? {
        var k :| 0 <= k < |lines[1..]| && lines[1..][k] == r.value
          && LineComplete(board, lines[1..][k])
          && forall j :: 0 <= j < k ==> !LineComplete(board, lines[1..][j]);
        assert lines[k + 1] == r.value && LineComplete(board, lines[k + 1]);
        assert forall j :: 0 <= j < k + 1 ==> !LineComplete(board, lines[j]);
      }
    }
  }

  /** The line `detectWinner()` reports for `board`. */
  function DetectedLine(board: Board): (r: Option<seq<int>>)
    ensures r.Some? ==> r.value in WinningLines
  {
    FirstWinningLine(board, WinningLines)
  }

  /** Some winning line is complete on `board`. */
  predicate HasCompleteLine(board: Board)
  {
    exists k :: 0 <= k < |WinningLines| && LineComplete(board, WinningLines[k])
  }

  /** `detectWinner()` returns non-nil exactly when some winning line is all X or
      all O, and then it returns the first such line in declaration order. */
  lemma DetectedLineSpec(board: Board)
    ensures DetectedLine(board).None? <==> !HasCompleteLine(board)
    ensures DetectedLine(board).Some? ==>
      IsFirstCompleteLine(board, WinningLines, DetectedLine(board).value)
    ensures DetectedLine(board).Some? ==> DetectedLine(board).value in WinningLines
  {
    FirstWinningLineSpec(board, WinningLines);
  }

  // ---------------------------------------------------------------------------
  // Counting marks.
  // ---------------------------------------------------------------------------

  /** The number of marked cells (`board.compactMap { $0 }.count`). */
  function Filled(board: Board): (n: nat)
    ensures n <= |board|
    decreases |board|
  {
    if |board| == 0 then 0
    else (if board[0].Some? then 1 else 0) + Filled(board[1..])
  }

  /** Every cell is marked exactly when the marked cells number as many as the cells. */
  lemma {:induction false} FilledAll(board: Board)
    ensures Filled(board) == |board| <==> forall i :: 0 <= i < |board| ==> board[i].Some?
    decreases |board|
  {
    if |board| > 0 {
      FilledAll(board[1..]);
      assert forall i :: 1 <= i < |board| ==> board[i] == board[1..][i - 1];
    }
  }

  /** The number of cells marked by `p`. */
  function Count(board: Board, p: Player): (n: nat)
    ensures n <= |board|
    decreases |board|
  {
    if |board| == 0 then 0
    else (if board[0] == Some(p) then 1 else 0) + Count(board[1..], p)
  }

  /** Marking an empty cell adds one mark for the mover and none for the opponent. */
  lemma {:induction false} CountUpdate(board: Board, index: int, p: Player, q: Player)
    requires 0 <= index < |board| && board[index] == None
    ensures Count(board[index := Some(p)], q) == Count(board, q) + (if p == q then 1 else 0)
    decreases |board|
  {
    if index > 0 {
      assert board[index := Some(p)][1..] == board[1..][index - 1 := Some(p)];
      CountUpdate(board[1..], index - 1, p, q);
    } else {
      assert board[index := Some(p)][1..] == board[1..];
    }
  }

  lemma {:induction false} CountEmpty(board: Board, p: Player)
    requires forall i :: 0 <= i < |board| ==> board[i] == None
    ensures Count(board, p) == 0
    decreases |board|
  {
    if |board| > 0 {
      CountEmpty(board[1..], p);
    }
  }

  /** Every marked cell belongs to exactly one player. */
  lemma {:induction false} FilledIsCountSum(board: Board)
    ensures Filled(board) == Count(board, X) + Count(board, O)
    decreases |board|
  {
    if |board| > 0 {
      FilledIsCountSum(board[1..]);
      match board[0]
      case None =>
      case Some(q) => assert q == X || q == O;
    }
  }

  // ---------------------------------------------------------------------------
  // The stored state and the two commands.
  // ---------------------------------------------------------------------------

  /** A snapshot of the view model's five stored fields. */
  datatype GameState = GameState(
    board: Board,
    currentPlayer: Player,
    winner: Option<Player>,
    winningIndices: seq<int>,
    isDraw: bool)

  /** `Array(repeating: nil, count: 9)`. */
  function EmptyBoard(): (b: Board)
    ensures |b| == CellCount
  {
    seq(CellCount, _ => None)
  }

  /** The values the stored fields are declared with. */
  function Initial(): (s: GameState)
    ensures s == Reset(X)
  {
    GameState(EmptyBoard(), X, None, [], false)
  }

  /** The state `resetGame(startingPlayer:)` leaves behind. */
  function Reset(startingPlayer: Player): (s: GameState)
    ensures |s.board| == CellCount && forall i :: 0 <= i < CellCount ==> s.board[i] == None
    ensures s.currentPlayer == startingPlayer
    ensures s.winner == None && s.winningIndices == [] && !s.isDraw
  {
    GameState(EmptyBoard(), startingPlayer, None, [], false)
  }

  /** A won or drawn game takes no more moves. */
  predicate GameOver(s: GameState)
  {
    s.winner.Some? || s.isDraw
  }

  /** The three guards of `makeMove(at:)`: index in range, cell empty, game not over. */
  predicate Accepts(s: GameState, index: int)
    requires |s.board| == CellCount
  {
    0 <= index < CellCount && s.board[index] == None && !GameOver(s)
  }

  /** The state after `makeMove(at: index)`. */
  function Move(s: GameState, index: int): (r: GameState)
    requires |s.board| == CellCount
    ensures |r.board| == CellCount
    ensures !Accepts(s, index) ==> r == s
    ensures Accepts(s, index) ==> r.board == s.board[index := Some(s.currentPlayer)]
  {
    if !(0 <= index < CellCount) then s
    else if s.board[index] != None then s
    else if !(s.winner == None && !s.isDraw) then s
    else Settle(s, s.board[index := Some(s.currentPlayer)])
  }

  /** What `makeMove(at:)` does once the mark is placed, giving `board`: record a
      win, else a draw on a full board, else pass the turn. */
  function Settle(s: GameState, board: Board): (r: GameState)
    ensures r.board == board
  {
    match DetectedLine(board)
    case Some(line) => s.(board := board, winner := Some(s.currentPlayer), winningIndices := line)
    case None =>
      if Filled(board) == CellCount then s.(board := board, isDraw := true)
      else s.(board := board, currentPlayer := s.currentPlayer.Next())
  }

  // ---------------------------------------------------------------------------
  // What a successful move does, in order of precedence: win, draw, next turn.
  // ---------------------------------------------------------------------------

  /** A move that completes a line wins: the mover becomes the winner, the first
      complete winning line is recorded, and the turn does not pass. */
  lemma MoveWins(s: GameState, index: int)
    requires |s.board| == CellCount && Accepts(s, index)
    requires HasCompleteLine(s.board[index := Some(s.currentPlayer)])
    ensures var r := Move(s, index);
      r.winner == Some(s.currentPlayer) && !r.isDraw && r.currentPlayer == s.currentPlayer
      && r.winningIndices in WinningLines
      && IsFirstCompleteLine(r.board, WinningLines, r.winningIndices)
  {
    DetectedLineSpec(s.board[index := Some(s.currentPlayer)]);
  }

  /** A move that completes no line but fills the board is a draw with no winner. */
  lemma MoveDraws(s: GameState, index: int)
    requires |s.board| == CellCount && Accepts(s, index)
    requires !HasCompleteLine(s.board[index := Some(s.currentPlayer)])
    requires forall i :: 0 <= i < CellCount && i != index ==> s.board[i] != None
    ensures var r := Move(s, index);
      r.isDraw && r.winner == None && r.winningIndices == s.winningIndices
      && r.currentPlayer == s.currentPlayer
  {
    var b := s.board[index := Some(s.currentPlayer)];
    DetectedLineSpec(b);
    FilledAll(b);
  }

  /** Any other successful move hands the turn to the opponent; it is never a self-loop. */
  lemma MovePassesTurn(s: GameState, index: int)
    requires |s.board| == CellCount && Accepts(s, index)
    requires !HasCompleteLine(s.board[index := Some(s.currentPlayer)])
    requires exists i :: 0 <= i < CellCount && i != index && s.board[i] == None
    ensures var r := Move(s, index);
      r.currentPlayer == s.currentPlayer.Next() && r.currentPlayer != s.currentPlayer
      && r.winner == None && !r.isDraw && r.winningIndices == s.winningIndices
  {
    var b := s.board[index := Some(s.currentPlayer)];
    DetectedLineSpec(b);
    var i :| 0 <= i < CellCount && i != index && s.board[i] == None;
    assert b[i] == None;
    FilledAll(b);
  }

  // ---------------------------------------------------------------------------
  // Invariants of every reachable state.
  // ---------------------------------------------------------------------------

  /**
   * A state the view model can be in: nine cells; never both won and drawn;
   * winning indices recorded exactly when there is a winner; while nobody has
   * won, no line is complete; a winner owns every cell of the recorded line,
   * which is one of the eight, and is still the current player; a draw has a
   * full board.
   */
  predicate Inv(s: GameState)
  {
    |s.board| == CellCount
    && !(s.winner.Some? && s.isDraw)
    && (s.winningIndices != [] <==> s.winner.Some?)
    && (s.winner == None ==> !HasCompleteLine(s.board))
    && (s.winner.Some? ==>
          s.winningIndices in WinningLines && AllMarked(s.board, s.winningIndices, s.winner.value)
          && s.currentPlayer == s.winner.value)
    && (s.isDraw ==> Filled(s.board) == CellCount)
  }

  /** A line complete only after `p` marks the empty cell `index` runs through
      that cell and is all `p`: only the mover can complete a line. */
  lemma NewLineBelongsToMover(board: Board, index: int, p: Player, line: seq<int>)
    requires 0 <= index < |board| && board[index] == None
    requires !LineComplete(board, line)
    requires LineComplete(board[index := Some(p)], line)
    ensures AllMarked(board[index := Some(p)], line, p)
    ensures index in line
  {
    var b := board[index := Some(p)];
    var q := if AllMarked(b, line, X) then X else O;
    assert AllMarked(b, line, q);
  }

  lemma ResetEstablishesInv(p: Player)
    ensures Inv(Reset(p))
  {
    var b := EmptyBoard();
    forall k | 0 <= k < |WinningLines|
      ensures !LineComplete(b, WinningLines[k])
    {
      assert b[WinningLines[k][0]] == None;
    }
  }

  /** Every call of `makeMove(at:)` keeps the invariant: a rejected move changes
      nothing and a successful one wins, draws or passes the turn without breaking it. */
  lemma MovePreservesInv(s: GameState, index: int)
    requires Inv(s)
    ensures Inv(Move(s, index))
  {
    if !Accepts(s, index) {
      return;
    }
    var p := s.currentPlayer;
    var b := s.board[index := Some(p)];
    var r := Move(s, index);
    if HasCompleteLine(b) {
      MoveWins(s, index);
      var k :| 0 <= k < |WinningLines| && WinningLines[k] == r.winningIndices
        && LineComplete(b, WinningLines[k]);
      assert !LineComplete(s.board, WinningLines[k]);
      NewLineBelongsToMover(s.board, index, p, WinningLines[k]);
    } else if forall i :: 0 <= i < CellCount && i != index ==> s.board[i] != None {
      MoveDraws(s, index);
      assert forall i :: 0 <= i < |b| ==> b[i].Some?;
      FilledAll(b);
    } else {
      MovePassesTurn(s, index);
    }
  }

  // ---------------------------------------------------------------------------
  // Turn order.
  // ---------------------------------------------------------------------------

  /**
   * The players alternate, `starter` first: `starter` has placed as many marks
   * as the opponent or one more; while the game runs the player to move is the
   * one with fewer marks (`starter` on a tie), and once it is over the current
   * player is the one who moved last.
   */
  predicate TurnOrder(s: GameState, starter: Player)
  {
    var a := Count(s.board, starter);
    var b := Count(s.board, starter.Next());
    (a == b || a == b + 1)
    && (!GameOver(s) ==> s.currentPlayer == (if a == b then starter else starter.Next()))
    && (GameOver(s) ==> s.currentPlayer == (if a == b then starter.Next() else starter))
  }

  lemma ResetStartsTurnOrder(p: Player)
    ensures TurnOrder(Reset(p), p)
  {
    var b := EmptyBoard();
    CountEmpty(b, p);
    CountEmpty(b, p.Next());
  }

  lemma MovePreservesTurnOrder(s: GameState, index: int, starter: Player)
    requires Inv(s) && TurnOrder(s, starter)
    ensures TurnOrder(Move(s, index), starter)
  {
    if Accepts(s, index) {
      var p := s.currentPlayer;
      CountUpdate(s.board, index, p, starter);
      CountUpdate(s.board, index, p, starter.Next());
      NextIsInvolution(starter);
    }
  }

  /** Both invariants survive every call of `makeMove(at:)`. */
  lemma MoveKeepsInvariants(s: GameState, index: int, starter: Player)
    requires Inv(s) && TurnOrder(s, starter)
    ensures Inv(Move(s, index)) && TurnOrder(Move(s, index), starter)
  {
    MovePreservesInv(s, index);
    MovePreservesTurnOrder(s, index, starter);
  }

  /** Turn order as move parity: while the game runs, the starter moves when an
      even number of cells is marked and the opponent when an odd number is. */
  lemma TurnOrderParity(s: GameState, p: Player)
    requires TurnOrder(s, p)
    ensures !GameOver(s) ==> s.currentPlayer == (if Filled(s.board) % 2 == 0 then p else p.Next())
  {
    FilledIsCountSum(s.board);
    assert Filled(s.board) == Count(s.board, p) + Count(s.board, p.Next()) by {
      if p == O { assert p.Next() == X; }
    }
  }

  // ---------------------------------------------------------------------------
  // Sequences of moves.
  // ---------------------------------------------------------------------------

  /** The state after `makeMove(at:)` is called with each index of `moves` in turn. */
  function Play(s: GameState, moves: seq<int>): (r: GameState)
    requires |s.board| == CellCount
    ensures |r.board| == CellCount
    decreases |moves|
  {
    if |moves| == 0 then s else Play(Move(s, moves[0]), moves[1..])
  }

  lemma {:induction false} PlayPreservesInv(s: GameState, moves: seq<int>, starter: Player)
    requires Inv(s) && TurnOrder(s, starter)
    ensures Inv(Play(s, moves)) && TurnOrder(Play(s, moves), starter)
    decreases |moves|
  {
    if |moves| > 0 {
      MoveKeepsInvariants(s, moves[0], starter);
      PlayPreservesInv(Move(s, moves[0]), moves[1..], starter);
    }
  }

  /** Every state reachable from a reset satisfies the invariants. */
  lemma ReachableStatesAreValid(p: Player, moves: seq<int>)
    ensures Inv(Play(Reset(p), moves)) && TurnOrder(Play(Reset(p), moves), p)
  {
    ResetEstablishesInv(p);
    ResetStartsTurnOrder(p);
    PlayPreservesInv(Reset(p), moves, p);
  }

  /** Turn alternation: in a game started by `p` and not yet over, `p` moves when
      an even number of cells is marked and the opponent when an odd number is. */
  lemma TurnAlternation(p: Player, moves: seq<int>)
    ensures var s := Play(Reset(p), moves);
      !GameOver(s) ==> s.currentPlayer == (if Filled(s.board) % 2 == 0 then p else p.Next())
  {
    ReachableStatesAreValid(p, moves);
    TurnOrderParity(Play(Reset(p), moves), p);
  }

  /** Won and drawn games are terminal: no sequence of moves changes them. */
  lemma {:induction false} GameOverIsSticky(s: GameState, moves: seq<int>)
    requires |s.board| == CellCount && GameOver(s)
    ensures Play(s, moves) == s
    decreases |moves|
  {
    if |moves| > 0 {
      GameOverIsSticky(Move(s, moves[0]), moves[1..]);
    }
  }
}
