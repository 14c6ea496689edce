/**
 * The game's view model (TicTacToe/TicTacToeViewModel.swift): the stored
 * fields a view observes, and the commands that update them in place.
 */
module ViewModel {
  import opened Wrappers
  import opened Models
  import opened Rules

  class TicTacToeViewModel {
    var board: Board
    var currentPlayer: Player
    var winner: Option<Player>
    var winningIndices: seq<int>
    var isDraw: bool

    /** The player the current game was started with; it fixes the turn order. */
    ghost var starter: Player

    /** The stored fields as one value. */
    ghost function State(): GameState
      reads this
    {
      GameState(board, currentPlayer, winner, winningIndices, isDraw)
    }

    ghost predicate Valid()
      reads this
    {
      Inv(State()) && TurnOrder(State(), starter)
    }

    /** A fresh view model holds the declared field values: the state `resetGame()` gives. */
    constructor ()
      ensures Valid() && State() == Initial() && starter == X
      ensures State() == Reset(X)
    {
      board := EmptyBoard();
      currentPlayer := X;
      winner := None;
      winningIndices := [];
      isDraw := false;
      starter := X;
      new;
      assert State() == Reset(X);
      ResetEstablishesInv(X);
      ResetStartsTurnOrder(X);
    }

    /** Clears the board and the outcome; `startingPlayer` moves first. */
    method ResetGame(startingPlayer: Player := X)
      modifies this
      ensures Valid() && State() == Reset(startingPlayer) && starter == startingPlayer
      ensures |board| == CellCount && forall i :: 0 <= i < CellCount ==> board[i] == None
      ensures currentPlayer == startingPlayer
      ensures winner == None && winningIndices == [] && !isDraw
    {
      board := EmptyBoard();
      currentPlayer := startingPlayer;
      winner := None;
      winningIndices := [];
      isDraw := false;
      starter := startingPlayer;
      assert State() == Reset(startingPlayer);
      ResetEstablishesInv(startingPlayer);
      ResetStartsTurnOrder(startingPlayer);
    }

    /**
     * Places the current player's mark at `index` unless the index is out of
     * range, the cell is taken or the game is over (then nothing changes); then
     * records a win, or a draw, or passes the turn.
     */
    method MakeMove(index: int)
      requires Valid()
      modifies this
      ensures Valid() && starter == old(starter)
      ensures State() == Move(old(State()), index)
      ensures !Accepts(old(State()), index) ==> unchanged(this)
      ensures Accepts(old(State()), index) ==>
        board == old(board)[index := Some(old(currentPlayer))]
    {
      ghost var before := State();
      if !(index >= 0 && index < CellCount) {
        return;
      }
      if board[index] != None {
        return;
      }
      if !(winner == None && !isDraw) {
        return;
      }
      board := board[index := Some(currentPlayer)];
      var win := DetectWinner();
      if win.Some? {
        winner := Some(currentPlayer);
        winningIndices := win.value;
      } else if Filled(board) == CellCount {
        isDraw := true;
      } else {
        currentPlayer := currentPlayer.Next();
      }
      assert State() == Settle(before, board);
      MoveKeepsInvariants(before, index, starter);
    }

    /** The first winning line, in declaration order, whose cells are all X or all O. */
    method DetectWinner() returns (win: Option<seq<int>>)
      ensures win == DetectedLine(board)
    {
      for k := 0 to |WinningLines|
        invariant DetectedLine(board) == FirstWinningLine(board, WinningLines[k..])
      {
        var line := WinningLines[k];
        if AllMarked(board, line, X) || AllMarked(board, line, O) {
          return Some(line);
        }
        assert WinningLines[k..][1..] == WinningLines[k + 1..];
      }
      return None;
    }
  }
}
