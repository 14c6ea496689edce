/**
 * Concrete games played with `makeMove(at:)` from the declared initial state
 * (TicTacToe/TicTacToeViewModel.swift): a first move, a column win, a
 * full-board draw, and the three kinds of rejected move. Each move of a game
 * is its own lemma; the game lemma strings them together.
 */
module Scenarios {
  import opened Wrappers
  import opened Models
  import opened Rules

  const E: Option<Player> := None
  const x: Option<Player> := Some(X)
  const o: Option<Player> := Some(O)

  /** Some cell of the three-cell `line` is empty or differs from another. */
  predicate LineOpen(board: Board, line: seq<int>)
  {
    |line| == 3 && 0 <= line[0] < |board| && 0 <= line[1] < |board| && 0 <= line[2] < |board|
    && (board[line[0]] == None || board[line[0]] != board[line[1]] || board[line[0]] != board[line[2]])
  }

  /** An open line is not complete. */
  lemma LineOpenNotComplete(board: Board, line: seq<int>)
    requires LineOpen(board, line)
    ensures !LineComplete(board, line)
  {
    assert !AllMarked(board, line, X) && !AllMarked(board, line, O) by {
      if board[line[0]] == None {
      } else if board[line[0]] != board[line[1]] {
      }
    }
  }

  /** Every one of the eight lines is open, written out line by line so that it
      reduces on a literal board. */
  predicate EveryLineOpen(board: Board)
  {
    LineOpen(board, [0, 1, 2]) && LineOpen(board, [3, 4, 5]) && LineOpen(board, [6, 7, 8])
    && LineOpen(board, [0, 3, 6]) && LineOpen(board, [1, 4, 7]) && LineOpen(board, [2, 5, 8])
    && LineOpen(board, [0, 4, 8]) && LineOpen(board, [2, 4, 6])
  }

  lemma EveryLineOpenMeansNoCompleteLine(board: Board)
    requires EveryLineOpen(board)
    ensures !HasCompleteLine(board)
  {
    forall k | 0 <= k < |WinningLines|
      ensures !LineComplete(board, WinningLines[k])
    {
      assert LineOpen(board, WinningLines[k]) by {
        assert k == 0 || k == 1 || k == 2 || k == 3 || k == 4 || k == 5 || k == 6 || k == 7;
      }
      LineOpenNotComplete(board, WinningLines[k]);
    }
  }

  /** Every line of `lines` is open: a check that unfolds on a literal board and list. */
  predicate AllOpen(board: Board, lines: seq<seq<int>>)
    decreases |lines|
  {
    |lines| == 0 || (LineOpen(board, lines[0]) && AllOpen(board, lines[1..]))
  }

  lemma {:induction false} AllOpenMeansNoCompleteLine(board: Board, lines: seq<seq<int>>)
    requires AllOpen(board, lines)
    ensures forall k :: 0 <= k < |lines| ==> !LineComplete(board, lines[k])
    decreases |lines|
  {
    if |lines| > 0 {
      AllOpenMeansNoCompleteLine(board, lines[1..]);
      assert forall k :: 1 <= k < |lines| ==> lines[k] == lines[1..][k - 1];
      LineOpenNotComplete(board, lines[0]);
    }
  }

  /** A move that leaves no complete line and an empty cell `free` passes the turn. */
  lemma PassesTurn(s: GameState, index: int, b: Board, free: int)
    requires |s.board| == CellCount && Accepts(s, index)
    requires s.board[index := Some(s.currentPlayer)] == b
    requires EveryLineOpen(b)
    requires 0 <= free < |b| && b[free] == None
    ensures Move(s, index) == s.(board := b, currentPlayer := s.currentPlayer.Next())
  {
    EveryLineOpenMeansNoCompleteLine(b);
    DetectedLineSpec(b);
    FilledAll(b);
  }

  /** A move that fills the board and leaves no complete line is a draw. */
  lemma Draws(s: GameState, index: int, b: Board)
    requires |s.board| == CellCount && Accepts(s, index)
    requires s.board[index := Some(s.currentPlayer)] == b
    requires EveryLineOpen(b)
    requires forall i :: 0 <= i < |b| ==> b[i] != None
    ensures Move(s, index) == s.(board := b, isDraw := true)
  {
    EveryLineOpenMeansNoCompleteLine(b);
    DetectedLineSpec(b);
    FilledAll(b);
  }

  /** The scan returns line `k` when it is complete and every line before it is not. */
  lemma {:induction false} FirstWinningLineAt(board: Board, lines: seq<seq<int>>, k: int)
    requires 0 <= k < |lines| && LineComplete(board, lines[k])
    requires forall j :: 0 <= j < k ==> !LineComplete(board, lines[j])
    ensures FirstWinningLine(board, lines) == Some(lines[k])
    decreases k
  {
    if k > 0 {
      assert forall j :: 0 <= j < k - 1 ==> lines[1..][j] == lines[j + 1];
      FirstWinningLineAt(board, lines[1..], k - 1);
    }
  }

  /** A move that completes line `k`, all earlier lines being open, wins on line `k`. */
  lemma Wins(s: GameState, index: int, b: Board, k: int, earlier: seq<seq<int>>)
    requires |s.board| == CellCount && Accepts(s, index)
    requires s.board[index := Some(s.currentPlayer)] == b
    requires 0 <= k < |WinningLines| && WinningLines[..k] == earlier && AllOpen(b, earlier)
    requires AllMarked(b, WinningLines[k], s.currentPlayer)
    ensures Move(s, index) ==
      s.(board := b, winner := Some(s.currentPlayer), winningIndices := WinningLines[k])
  {
    AllOpenMeansNoCompleteLine(b, earlier);
    assert forall j :: 0 <= j < k ==> WinningLines[j] == earlier[j];
    assert LineComplete(b, WinningLines[k]) by {
      if s.currentPlayer == X {
      } else {
      }
    }
    FirstWinningLineAt(b, WinningLines, k);
  }

  /** The declared initial board, written out. */
  lemma InitialBoard()
    ensures Initial() == GameState([E, E, E, E, E, E, E, E, E], X, None, [], false)
  {
  }

  /** X moves first; after one move in the centre it is O's turn. */
  lemma FirstMoveTakesCentre()
    ensures Move(Initial(), 4) == GameState([E, E, E, E, x, E, E, E, E], O, None, [], false)
  {
    InitialBoard();
    PassesTurn(Initial(), 4, [E, E, E, E, x, E, E, E, E], 0);
  }

  /** Moving twice on the centre: the second move finds the cell taken and changes nothing. */
  lemma SameCellTwice()
    ensures Play(Initial(), [4, 4]) == Move(Initial(), 4)
  {
    FirstMoveTakesCentre();
    var s := Move(Initial(), 4);
    assert Play(Initial(), [4, 4]) == Play(s, [4]);
    assert Play(s, [4]) == Move(s, 4);
  }

  /** Index 9 is past the last cell: nothing changes. */
  lemma OutOfRangeIgnored()
    ensures Move(Initial(), 9) == Initial()
    ensures Move(Initial(), -1) == Initial()
  {
  }

  /** Both games below open with X on cell 0 and O on cell 1. */
  lemma OpeningMove1()
    ensures Move(GameState([E, E, E, E, E, E, E, E, E], X, None, [], false), 0)
      == GameState([x, E, E, E, E, E, E, E, E], O, None, [], false)
  {
    PassesTurn(GameState([E, E, E, E, E, E, E, E, E], X, None, [], false), 0,
      [x, E, E, E, E, E, E, E, E], 1);
  }

  lemma OpeningMove2()
    ensures Move(GameState([x, E, E, E, E, E, E, E, E], O, None, [], false), 1)
      == GameState([x, o, E, E, E, E, E, E, E], X, None, [], false)
  {
    PassesTurn(GameState([x, E, E, E, E, E, E, E, E], O, None, [], false), 1,
      [x, o, E, E, E, E, E, E, E], 2);
  }

  lemma ColumnWinMove3()
    ensures Move(GameState([x, o, E, E, E, E, E, E, E], X, None, [], false), 3)
      == GameState([x, o, E, x, E, E, E, E, E], O, None, [], false)
  {
    PassesTurn(GameState([x, o, E, E, E, E, E, E, E], X, None, [], false), 3,
      [x, o, E, x, E, E, E, E, E], 2);
  }

  lemma ColumnWinMove4()
    ensures Move(GameState([x, o, E, x, E, E, E, E, E], O, None, [], false), 2)
      == GameState([x, o, o, x, E, E, E, E, E], X, None, [], false)
  {
    PassesTurn(GameState([x, o, E, x, E, E, E, E, E], O, None, [], false), 2,
      [x, o, o, x, E, E, E, E, E], 4);
  }

  lemma ColumnWinMove5()
    ensures Move(GameState([x, o, o, x, E, E, E, E, E], X, None, [], false), 6)
      == GameState([x, o, o, x, E, E, x, E, E], X, Some(X), [0, 3, 6], false)
  {
    Wins(GameState([x, o, o, x, E, E, E, E, E], X, None, [], false), 6,
      [x, o, o, x, E, E, x, E, E], 3, [[0, 1, 2], [3, 4, 5], [6, 7, 8]]);
  }

  /** X takes the left column: X wins on [0, 3, 6] and stays the current player. */
  lemma ColumnWin()
    ensures Play(Initial(), [0, 1, 3, 2, 6])
      == GameState([x, o, o, x, E, E, x, E, E], X, Some(X), [0, 3, 6], false)
  {
    InitialBoard();
    OpeningMove1();
    OpeningMove2();
    ColumnWinMove3();
    ColumnWinMove4();
    ColumnWinMove5();
    assert Play(GameState([E, E, E, E, E, E, E, E, E], X, None, [], false), [0, 1, 3, 2, 6]) == Play(GameState([x, E, E, E, E, E, E, E, E], O, None, [], false), [1, 3, 2, 6]);
    assert Play(GameState([x, E, E, E, E, E, E, E, E], O, None, [], false), [1, 3, 2, 6]) == Play(GameState([x, o, E, E, E, E, E, E, E], X, None, [], false), [3, 2, 6]);
    assert Play(GameState([x, o, E, E, E, E, E, E, E], X, None, [], false), [3, 2, 6]) == Play(GameState([x, o, E, x, E, E, E, E, E], O, None, [], false), [2, 6]);
    assert Play(GameState([x, o, E, x, E, E, E, E, E], O, None, [], false), [2, 6]) == Play(GameState([x, o, o, x, E, E, E, E, E], X, None, [], false), [6]);
    assert Play(GameState([x, o, o, x, E, E, E, E, E], X, None, [], false), [6]) == Play(GameState([x, o, o, x, E, E, x, E, E], X, Some(X), [0, 3, 6], false), []);
  }

  lemma FullBoardDrawMove3()
    ensures Move(GameState([x, o, E, E, E, E, E, E, E], X, None, [], false), 2)
      == GameState([x, o, x, E, E, E, E, E, E], O, None, [], false)
  {
    PassesTurn(GameState([x, o, E, E, E, E, E, E, E], X, None, [], false), 2,
      [x, o, x, E, E, E, E, E, E], 3);
  }

  lemma FullBoardDrawMove4()
    ensures Move(GameState([x, o, x, E, E, E, E, E, E], O, None, [], false), 4)
      == GameState([x, o, x, E, o, E, E, E, E], X, None, [], false)
  {
    PassesTurn(GameState([x, o, x, E, E, E, E, E, E], O, None, [], false), 4,
      [x, o, x, E, o, E, E, E, E], 3);
  }

  lemma FullBoardDrawMove5()
    ensures Move(GameState([x, o, x, E, o, E, E, E, E], X, None, [], false), 3)
      == GameState([x, o, x, x, o, E, E, E, E], O, None, [], false)
  {
    PassesTurn(GameState([x, o, x, E, o, E, E, E, E], X, None, [], false), 3,
      [x, o, x, x, o, E, E, E, E], 5);
  }

  lemma FullBoardDrawMove6()
    ensures Move(GameState([x, o, x, x, o, E, E, E, E], O, None, [], false), 5)
      == GameState([x, o, x, x, o, o, E, E, E], X, None, [], false)
  {
    PassesTurn(GameState([x, o, x, x, o, E, E, E, E], O, None, [], false), 5,
      [x, o, x, x, o, o, E, E, E], 6);
  }

  lemma FullBoardDrawMove7()
    ensures Move(GameState([x, o, x, x, o, o, E, E, E], X, None, [], false), 7)
      == GameState([x, o, x, x, o, o, E, x, E], O, None, [], false)
  {
    PassesTurn(GameState([x, o, x, x, o, o, E, E, E], X, None, [], false), 7,
      [x, o, x, x, o, o, E, x, E], 6);
  }

  lemma FullBoardDrawMove8()
    ensures Move(GameState([x, o, x, x, o, o, E, x, E], O, None, [], false), 6)
      == GameState([x, o, x, x, o, o, o, x, E], X, None, [], false)
  {
    PassesTurn(GameState([x, o, x, x, o, o, E, x, E], O, None, [], false), 6,
      [x, o, x, x, o, o, o, x, E], 8);
  }

  lemma FullBoardDrawMove9()
    ensures Move(GameState([x, o, x, x, o, o, o, x, E], X, None, [], false), 8)
      == GameState([x, o, x, x, o, o, o, x, x], X, None, [], true)
  {
    Draws(GameState([x, o, x, x, o, o, o, x, E], X, None, [], false), 8,
      [x, o, x, x, o, o, o, x, x]);
  }

  /** Nine moves fill the board with no line complete: the game is drawn and X, who moved last, stays current. */
  lemma FullBoardDraw()
    ensures Play(Initial(), [0, 1, 2, 4, 3, 5, 7, 6, 8])
      == GameState([x, o, x, x, o, o, o, x, x], X, None, [], true)
  {
    InitialBoard();
    OpeningMove1();
    OpeningMove2();
    FullBoardDrawMove3();
    FullBoardDrawMove4();
    FullBoardDrawMove5();
    FullBoardDrawMove6();
    FullBoardDrawMove7();
    FullBoardDrawMove8();
    FullBoardDrawMove9();
    assert Play(GameState([E, E, E, E, E, E, E, E, E], X, None, [], false), [0, 1, 2, 4, 3, 5, 7, 6, 8]) == Play(GameState([x, E, E, E, E, E, E, E, E], O, None, [], false), [1, 2, 4, 3, 5, 7, 6, 8]);
    assert Play(GameState([x, E, E, E, E, E, E, E, E], O, None, [], false), [1, 2, 4, 3, 5, 7, 6, 8]) == Play(GameState([x, o, E, E, E, E, E, E, E], X, None, [], false), [2, 4, 3, 5, 7, 6, 8]);
    assert Play(GameState([x, o, E, E, E, E, E, E, E], X, None, [], false), [2, 4, 3, 5, 7, 6, 8]) == Play(GameState([x, o, x, E, E, E, E, E, E], O, None, [], false), [4, 3, 5, 7, 6, 8]);
    assert Play(GameState([x, o, x, E, E, E, E, E, E], O, None, [], false), [4, 3, 5, 7, 6, 8]) == Play(GameState([x, o, x, E, o, E, E, E, E], X, None, [], false), [3, 5, 7, 6, 8]);
    assert Play(GameState([x, o, x, E, o, E, E, E, E], X, None, [], false), [3, 5, 7, 6, 8]) == Play(GameState([x, o, x, x, o, E, E, E, E], O, None, [], false), [5, 7, 6, 8]);
    assert Play(GameState([x, o, x, x, o, E, E, E, E], O, None, [], false), [5, 7, 6, 8]) == Play(GameState([x, o, x, x, o, o, E, E, E], X, None, [], false), [7, 6, 8]);
    assert Play(GameState([x, o, x, x, o, o, E, E, E], X, None, [], false), [7, 6, 8]) == Play(GameState([x, o, x, x, o, o, E, x, E], O, None, [], false), [6, 8]);
    assert Play(GameState([x, o, x, x, o, o, E, x, E], O, None, [], false), [6, 8]) == Play(GameState([x, o, x, x, o, o, o, x, E], X, None, [], false), [8]);
    assert Play(GameState([x, o, x, x, o, o, o, x, E], X, None, [], false), [8]) == Play(GameState([x, o, x, x, o, o, o, x, x], X, None, [], true), []);
  }

  /** Once X has won, a move on an empty cell changes nothing. */
  lemma NoMoveAfterWin()
    ensures Move(Play(Initial(), [0, 1, 3, 2, 6]), 4) == Play(Initial(), [0, 1, 3, 2, 6])
  {
    ColumnWin();
  }
}
