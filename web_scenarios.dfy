/** Concrete games and boards of the browser game, checked against the
    rules: the move sequences and strategy boards the game's own tests use,
    and the two places where the code differs from what a reader of those
    tests would expect. */
module WebScenarios {
  import opened Grid
  import opened WebRules

  /** The state right after a new game starts with a human first player. */
  function Fresh(): (s: State) { State(Blank, X, true) }

  /** A move after which the game goes on: no line, a free cell left. */
  lemma QuietMove(s: State, i: int, t: State)
    requires |s.board| == 9 && 0 <= i < 9
    requires t.board == s.board[i := s.current] && t.current == Opponent(s.current) && t.active == s.active
    requires !LineWon(t.board, 0) && !LineWon(t.board, 1) && !LineWon(t.board, 2) && !LineWon(t.board, 3)
    requires !LineWon(t.board, 4) && !LineWon(t.board, 5) && !LineWon(t.board, 6) && !LineWon(t.board, 7)
    requires exists j | 0 <= j < 9 :: t.board[j] == Empty
    ensures Move(s, i) == t
  {
    HasWinCases(t.board);
  }

  /** The states of the game 0, 3, 1, 4, 2 after each move. */
  const RowGame: seq<State> := [
    State([Empty, Empty, Empty, Empty, Empty, Empty, Empty, Empty, Empty], X, true),
    State([X, Empty, Empty, Empty, Empty, Empty, Empty, Empty, Empty], O, true),
    State([X, Empty, Empty, O, Empty, Empty, Empty, Empty, Empty], X, true),
    State([X, X, Empty, O, Empty, Empty, Empty, Empty, Empty], O, true),
    State([X, X, Empty, O, O, Empty, Empty, Empty, Empty], X, true),
    State([X, X, X, O, O, Empty, Empty, Empty, Empty], X, false)]

  lemma RowGameOpening()
    ensures Move(RowGame[0], 0) == RowGame[1]
    ensures Move(RowGame[1], 3) == RowGame[2]
  {
    QuietMove(RowGame[0], 0, RowGame[1]);
    QuietMove(RowGame[1], 3, RowGame[2]);
  }

  lemma RowGameMiddle()
    ensures Move(RowGame[2], 1) == RowGame[3]
    ensures Move(RowGame[3], 4) == RowGame[4]
  {
    QuietMove(RowGame[2], 1, RowGame[3]);
    QuietMove(RowGame[3], 4, RowGame[4]);
  }

  lemma RowGameEnding()
    ensures Move(RowGame[4], 2) == RowGame[5]
    ensures HasWin(RowGame[5].board)
  {
    assert LineWon(RowGame[5].board, 0);
    assert RowGame[4].board[2 := X] == RowGame[5].board;
  }

  /** X completes the top row with 0, 3, 1, 4, 2: the game ends, X keeps the turn. */
  lemma HorizontalWin()
    ensures Move(Move(Move(Move(Move(Fresh(), 0), 3), 1), 4), 2)
         == State([X, X, X, O, O, Empty, Empty, Empty, Empty], X, false)
    ensures HasWin([X, X, X, O, O, Empty, Empty, Empty, Empty])
  {
    assert Fresh() == RowGame[0];
    RowGameOpening();
    RowGameMiddle();
    RowGameEnding();
  }

  /** The states of the game 0, 1, 2, 4, 3, 5, 7, 6, 8 after each move. */
  const DrawGame: seq<State> := [
    State([Empty, Empty, Empty, Empty, Empty, Empty, Empty, Empty, Empty], X, true),
    State([X, Empty, Empty, Empty, Empty, Empty, Empty, Empty, Empty], O, true),
    State([X, O, Empty, Empty, Empty, Empty, Empty, Empty, Empty], X, true),
    State([X, O, X, Empty, Empty, Empty, Empty, Empty, Empty], O, true),
    State([X, O, X, Empty, O, Empty, Empty, Empty, Empty], X, true),
    State([X, O, X, X, O, Empty, Empty, Empty, Empty], O, true),
    State([X, O, X, X, O, O, Empty, Empty, Empty], X, true),
    State([X, O, X, X, O, O, Empty, X, Empty], O, true),
    State([X, O, X, X, O, O, O, X, Empty], X, true),
    State([X, O, X, X, O, O, O, X, X], X, false)]

  lemma DrawGameOpening()
    ensures Move(DrawGame[0], 0) == DrawGame[1]
    ensures Move(DrawGame[1], 1) == DrawGame[2]
  {
    QuietMove(DrawGame[0], 0, DrawGame[1]);
    QuietMove(DrawGame[1], 1, DrawGame[2]);
  }

  lemma DrawGameSecond()
    ensures Move(DrawGame[2], 2) == DrawGame[3]
    ensures Move(DrawGame[3], 4) == DrawGame[4]
  {
    QuietMove(DrawGame[2], 2, DrawGame[3]);
    QuietMove(DrawGame[3], 4, DrawGame[4]);
  }

  lemma DrawGameMiddle()
    ensures Move(DrawGame[4], 3) == DrawGame[5]
    ensures Move(DrawGame[5], 5) == DrawGame[6]
  {
    QuietMove(DrawGame[4], 3, DrawGame[5]);
    QuietMove(DrawGame[5], 5, DrawGame[6]);
  }

  lemma DrawGameLate()
    ensures Move(DrawGame[6], 7) == DrawGame[7]
    ensures Move(DrawGame[7], 6) == DrawGame[8]
  {
    QuietMove(DrawGame[6], 7, DrawGame[7]);
    QuietMove(DrawGame[7], 6, DrawGame[8]);
  }

  lemma DrawGameEnding()
    ensures Move(DrawGame[8], 8) == DrawGame[9]
    ensures IsFull(DrawGame[9].board) && !HasWin(DrawGame[9].board)
  {
    HasWinCases(DrawGame[9].board);
    assert DrawGame[8].board[8 := X] == DrawGame[9].board;
  }

  /** The drawn game 0, 1, 2, 4, 3, 5, 7, 6, 8 fills the board without a
      line: the game ends with a full board and no winner. */
  lemma DrawnGame()
    ensures Move(Move(Move(Move(Move(Move(Move(Move(Move(Fresh(), 0), 1), 2), 4), 3), 5), 7), 6), 8)
         == State([X, O, X, X, O, O, O, X, X], X, false)
    ensures IsFull([X, O, X, X, O, O, O, X, X]) && !HasWin([X, O, X, X, O, O, O, X, X])
  {
    assert Fresh() == DrawGame[0];
    DrawGameOpening();
    DrawGameSecond();
    DrawGameMiddle();
    DrawGameLate();
    DrawGameEnding();
  }

  /** The states of the game 0, 1, 3, 4, 6 after its second move. */
  const ColumnGame: seq<State> := [
    State([X, O, Empty, Empty, Empty, Empty, Empty, Empty, Empty], X, true),
    State([X, O, Empty, X, Empty, Empty, Empty, Empty, Empty], O, true),
    State([X, O, Empty, X, O, Empty, Empty, Empty, Empty], X, true),
    State([X, O, Empty, X, O, Empty, X, Empty, Empty], X, false)]

  lemma ColumnGameMiddle()
    ensures Move(ColumnGame[0], 3) == ColumnGame[1]
    ensures Move(ColumnGame[1], 4) == ColumnGame[2]
  {
    QuietMove(ColumnGame[0], 3, ColumnGame[1]);
    QuietMove(ColumnGame[1], 4, ColumnGame[2]);
  }

  lemma ColumnGameEnding()
    ensures Move(ColumnGame[2], 6) == ColumnGame[3]
    ensures HasWin(ColumnGame[3].board)
  {
    assert LineWon(ColumnGame[3].board, 3);
    assert ColumnGame[2].board[6 := X] == ColumnGame[3].board;
  }

  /** X completes the left column with 0, 1, 3, 4, 6: the game ends, X keeps the turn. */
  lemma VerticalWin()
    ensures Move(Move(Move(Move(Move(Fresh(), 0), 1), 3), 4), 6)
         == State([X, O, Empty, X, O, Empty, X, Empty, Empty], X, false)
    ensures HasWin([X, O, Empty, X, O, Empty, X, Empty, Empty])
  {
    assert Fresh() == DrawGame[0];
    DrawGameOpening();
    assert DrawGame[2] == ColumnGame[0];
    ColumnGameMiddle();
    ColumnGameEnding();
  }

  /** The states of the game 0, 1, 4, 3, 8 after its second move. */
  const DiagonalGame: seq<State> := [
    State([X, O, Empty, Empty, Empty, Empty, Empty, Empty, Empty], X, true),
    State([X, O, Empty, Empty, X, Empty, Empty, Empty, Empty], O, true),
    State([X, O, Empty, O, X, Empty, Empty, Empty, Empty], X, true),
    State([X, O, Empty, O, X, Empty, Empty, Empty, X], X, false)]

  lemma DiagonalGameMiddle()
    ensures Move(DiagonalGame[0], 4) == DiagonalGame[1]
    ensures Move(DiagonalGame[1], 3) == DiagonalGame[2]
  {
    QuietMove(DiagonalGame[0], 4, DiagonalGame[1]);
    QuietMove(DiagonalGame[1], 3, DiagonalGame[2]);
  }

  lemma DiagonalGameEnding()
    ensures Move(DiagonalGame[2], 8) == DiagonalGame[3]
    ensures HasWin(DiagonalGame[3].board)
  {
    assert LineWon(DiagonalGame[3].board, 6);
    assert DiagonalGame[2].board[8 := X] == DiagonalGame[3].board;
  }

  /** X completes the main diagonal with 0, 1, 4, 3, 8: the game ends, X keeps the turn. */
  lemma DiagonalWin()
    ensures Move(Move(Move(Move(Move(Fresh(), 0), 1), 4), 3), 8)
         == State([X, O, Empty, O, X, Empty, Empty, Empty, X], X, false)
    ensures HasWin([X, O, Empty, O, X, Empty, Empty, Empty, X])
  {
    assert Fresh() == DrawGame[0];
    DrawGameOpening();
    assert DrawGame[2] == DiagonalGame[0];
    DiagonalGameMiddle();
    DiagonalGameEnding();
  }

  /** Moving twice on cell 0 overwrites X with O: the unguarded move does
      not protect occupied cells (only the click handler does). */
  lemma MoveOverwritesOccupiedCell()
    ensures Move(Move(Fresh(), 0), 0).board[0] == O
    ensures Click(Move(Fresh(), 0), Human, 0) == Move(Fresh(), 0)
  {
    var s1 := State([X, Empty, Empty, Empty, Empty, Empty, Empty, Empty, Empty], O, true);
    var s2 := State([O, Empty, Empty, Empty, Empty, Empty, Empty, Empty, Empty], X, true);
    QuietMove(Fresh(), 0, s1);
    QuietMove(s1, 0, s2);
  }

  /** The first free cell heads the list of free cells. */
  lemma {:induction false} FirstFree(b: seq<Cell>, c: int)
    requires 0 <= c < |b| && b[c] == Empty
    requires forall i | 0 <= i < c :: b[i] != Empty
    ensures |Available(b)| > 0 && Available(b)[0] == c
  {
    var avail := Available(b);
    assert c in avail;
    var i :| 0 <= i < |avail| && avail[i] == c;
    assert avail[0] in avail;
    assert avail[0] <= avail[i];
  }

  /** The second free cell comes next in the list of free cells. */
  lemma {:induction false} SecondFree(b: seq<Cell>, c: int, d: int)
    requires 0 <= c < d < |b| && b[c] == Empty && b[d] == Empty
    requires forall i | 0 <= i < d && i != c :: b[i] != Empty
    ensures |Available(b)| > 1 && Available(b)[1] == d
  {
    var avail := Available(b);
    FirstFree(b, c);
    assert d in avail;
    var i :| 0 <= i < |avail| && avail[i] == d;
    assert i != 0;
    assert avail[1] in avail;
    assert avail[0] < avail[1] <= avail[i];
  }

  /** O O . / X X . / X . .: the first winning cell for O, the mark the
      computer plays, is 2.  A new game leaves X to move, and the first
      winning cell for X is 2 as well, through the diagonal 2-4-6. */
  lemma WinningMoveBoard()
    ensures FirstWinning([O, O, Empty, X, X, Empty, X, Empty, Empty],
                         Available([O, O, Empty, X, X, Empty, X, Empty, Empty]), O) == Some(2)
    ensures FirstWinning([O, O, Empty, X, X, Empty, X, Empty, Empty],
                         Available([O, O, Empty, X, X, Empty, X, Empty, Empty]), X) == Some(2)
  {
    FirstFree([O, O, Empty, X, X, Empty, X, Empty, Empty], 2);
    assert LineWon([O, O, Empty, X, X, Empty, X, Empty, Empty][2 := O], 0);
    assert LineWon([O, O, Empty, X, X, Empty, X, Empty, Empty][2 := X], 7);
  }

  /** X X . / O O . / . . . with O to play: the first cell where X would
      complete a line, the blocking move, is 2. */
  lemma BlockingMoveBoard()
    ensures FirstWinning([X, X, Empty, O, O, Empty, Empty, Empty, Empty],
                         Available([X, X, Empty, O, O, Empty, Empty, Empty, Empty]), Opponent(O)) == Some(2)
  {
    FirstFree([X, X, Empty, O, O, Empty, Empty, Empty, Empty], 2);
    assert LineWon([X, X, Empty, O, O, Empty, Empty, Empty, Empty][2 := X], 0);
  }

  /** When the first probe fails and the second wins, the answer is the second entry. */
  lemma {:induction false} SecondProbeWins(b: seq<Cell>, avail: seq<int>, p: Cell)
    requires |b| == 9 && |avail| > 1
    requires forall j | 0 <= j < |avail| :: 0 <= avail[j] < 9
    requires !HasWin(b[avail[0] := p]) && HasWin(b[avail[1] := p])
    ensures FirstWinning(b, avail, p) == Some(avail[1])
  {
    FirstWinningFromStep(b, avail, p, 0);
    FirstWinningFromStep(b, avail, p, 1);
  }

  /** The board . O O / X X . / . X . with O to play. */
  const ZeroBoard: seq<Cell> := [Empty, O, O, X, X, Empty, Empty, X, Empty]

  lemma ZeroBoardWinProbe()
    ensures FirstWinning(ZeroBoard, Available(ZeroBoard), O) == Some(0)
  {
    FirstFree(ZeroBoard, 0);
    assert LineWon(ZeroBoard[0 := O], 0);
  }

  lemma ZeroBoardBlockProbe()
    ensures FirstWinning(ZeroBoard, Available(ZeroBoard), X) == Some(5)
  {
    var avail := Available(ZeroBoard);
    SecondFree(ZeroBoard, 0, 5);
    HasWinCases(ZeroBoard[0 := X]);
    assert LineWon(ZeroBoard[5 := X], 1);
    SecondProbeWins(ZeroBoard, avail, X);
  }

  lemma ZeroBoardBlockDoesNotWin()
    ensures !HasWin(ZeroBoard[5 := O])
  {
    HasWinCases(ZeroBoard[5 := O]);
  }

  /** . O O / X X . / . X . with O to play: O could win at cell 0, but the
      `||` chain reads 0 as "no move", so the computer blocks at 5 instead
      and the game goes on. */
  lemma {:induction false} WinAtZeroIsPassedOver(m: int)
    ensures FirstWinning(ZeroBoard, Available(ZeroBoard), O) == Some(0)
    ensures ComputerMayPlay(ZeroBoard, O, m) <==> m == 5
    ensures !HasWin(ZeroBoard[5 := O])
  {
    ZeroBoardWinProbe();
    ZeroBoardBlockProbe();
    ZeroBoardBlockDoesNotWin();
    assert Opponent(O) == X;
    ComputerBlocks(ZeroBoard, O, m);
  }
}
