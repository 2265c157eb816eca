/** The console game's board object: nine text cells (a single space is a
    free cell), the winner recorded so far, the incremental win test around
    the square just played, and the computer's random pick. */
module ConsoleGame {
  import opened Grid

  /** The text of a free cell. */
  const Space: string := " "

  /** Every spot of `spots` is `symbol` (Python's `all` over a generator). */
  predicate AllAre(spots: seq<string>, symbol: string)
  {
    forall i | 0 <= i < |spots| :: spots[i] == symbol
  }

  /** The row and the column through `square` are the only rows and columns
      holding it, and the even squares are exactly the ones on a diagonal. */
  lemma SquareLines(square: int)
    requires 0 <= square < 9
    ensures OnLine(square / 3, square) && OnLine(3 + square % 3, square)
    ensures forall k | 0 <= k < 6 && OnLine(k, square) :: k == square / 3 || k == 3 + square % 3
    ensures square % 2 == 0 <==> OnLine(6, square) || OnLine(7, square)
  {
    forall k | 0 <= k < 6 && OnLine(k, square) ensures k == square / 3 || k == 3 + square % 3 {
      LineCases(k);
    }
  }

  /** Three spots are all `symbol` exactly when each of them is. */
  lemma AllAreThree(x: string, y: string, z: string, symbol: string)
    ensures AllAre([x, y, z], symbol) <==> x == symbol && y == symbol && z == symbol
  {
    assert [x, y, z][0] == x && [x, y, z][1] == y && [x, y, z][2] == z;
  }

  /** The slice for row `r` is all `symbol` exactly when line `r` is. */
  lemma RowIsLine(b: seq<string>, r: int, symbol: string)
    requires |b| == 9 && 0 <= r < 3
    ensures AllAre(b[r * 3..(r + 1) * 3], symbol) <==> Filled(b, r, symbol)
  {
    var row := b[r * 3..(r + 1) * 3];
    RowLine(r);
    assert row == [b[r * 3], b[r * 3 + 1], b[r * 3 + 2]];
    AllAreThree(b[r * 3], b[r * 3 + 1], b[r * 3 + 2], symbol);
  }

  /** The three cells of column `c` are all `symbol` exactly when line `3 + c` is. */
  lemma ColumnIsLine(b: seq<string>, c: int, symbol: string)
    requires |b| == 9 && 0 <= c < 3
    ensures AllAre([b[c], b[c + 3], b[c + 6]], symbol) <==> Filled(b, 3 + c, symbol)
  {
    ColumnLine(c);
    AllAreThree(b[c], b[c + 3], b[c + 6], symbol);
  }

  class TicTacToe {
    var board: seq<string>
    var currentWinner: Option<string>

    /** A new game: nine free cells, no winner. */
    constructor ()
      ensures board == [Space, Space, Space, Space, Space, Space, Space, Space, Space]
      ensures currentWinner == None
    {
      board := [Space, Space, Space, Space, Space, Space, Space, Space, Space];
      currentWinner := None;
    }

    /** The indices of the free cells, in ascending order. */
    function AvailableMoves(): (r: seq<nat>)
      reads this
      ensures forall i :: i in r <==> 0 <= i < |board| && board[i] == Space
      ensures forall j, k :: 0 <= j < k < |r| ==> r[j] < r[k]
    {
      IndicesOf(board, Space)
    }

    /** Some cell is free. */
    function EmptySquares(): (r: bool)
      reads this
      ensures r <==> exists i | 0 <= i < |board| :: board[i] == Space
      ensures r <==> AvailableMoves() != []
    {
      var avail := AvailableMoves();
      assert avail != [] ==> avail[0] in avail;
      assert forall i | 0 <= i < |board| && board[i] == Space :: i in avail;
      Space in board
    }

    /** Plays `symbol` at `square` if that cell is free and reports whether
        it did.  A played square that completes its row, its column or (for
        an even square) a diagonal records `symbol` as the winner; a winner
        once recorded is never cleared. */
    method MakeMove(square: int, symbol: string) returns (ok: bool)
      requires |board| == 9 && 0 <= square < 9
      modifies this
      ensures ok <==> old(board[square]) == Space
      ensures ok <==> square in old(AvailableMoves())
      ensures !ok ==> board == old(board) && currentWinner == old(currentWinner)
      ensures ok ==> board == old(board)[square := symbol]
      ensures ok ==> currentWinner == (if Winner(square, symbol) then Some(symbol) else old(currentWinner))
      ensures old(currentWinner).Some? ==> currentWinner.Some?
      ensures ok && symbol != Space ==>
        forall i :: i in AvailableMoves() <==> i in old(AvailableMoves()) && i != square
    {
      if board[square] == Space {
        board := board[square := symbol];
        if Winner(square, symbol) {
          currentWinner := Some(symbol);
        }
        return true;
      }
      return false;
    }

    /** The incremental win test after playing `symbol` at `square`: the
        square's row, then its column, then, for an even square, both
        diagonals (including the one an edge-free corner is not on). */
    function Winner(square: int, symbol: string): (r: bool)
      reads this
      requires |board| == 9 && 0 <= square < 9
      ensures r <==>
        (exists k | 0 <= k < 6 :: OnLine(k, square) && Filled(board, k, symbol)) ||
        (square % 2 == 0 && (Filled(board, 6, symbol) || Filled(board, 7, symbol)))
    {
      SquareLines(square);
      var b := board;
      var rowInd := square / 3;
      var row := b[rowInd * 3..(rowInd + 1) * 3];
      RowIsLine(b, rowInd, symbol);
      if AllAre(row, symbol) then
        true
      else
        var colInd := square % 3;
        var column := seq(3, i requires 0 <= i < 3 => b[colInd + i * 3]);
        assert column == [b[colInd], b[colInd + 3], b[colInd + 6]];
        ColumnIsLine(b, colInd, symbol);
        if AllAre(column, symbol) then
          true
        else if square % 2 == 0 then
          assert Lines[6] == (0, 4, 8) && Lines[7] == (2, 4, 6);
          AllAreThree(b[0], b[4], b[8], symbol);
          AllAreThree(b[2], b[4], b[6], symbol);
          var diagonal1 := [b[0], b[4], b[8]];
          if AllAre(diagonal1, symbol) then
            true
          else
            var diagonal2 := [b[2], b[4], b[6]];
            AllAre(diagonal2, symbol)
        else
          false
    }
  }

  /** X O X / O X O / X . . : square 0 is not on the diagonal 2-4-6, but
      the test for an even square looks at both diagonals, so playing X at 0
      reports a winner although no line through 0 is complete.  On boards
      reached by play that diagonal would have ended the game earlier. */
  lemma EvenSquareSeesBothDiagonals(g: TicTacToe)
    requires g.board == ["X", "O", "X", "O", "X", "O", "X", Space, Space]
    ensures g.Winner(0, "X")
    ensures forall k | 0 <= k < |Lines| && OnLine(k, 0) :: !Filled(g.board, k, "X")
  {
    assert Filled(g.board, 7, "X");
    forall k | 0 <= k < |Lines| && OnLine(k, 0) ensures !Filled(g.board, k, "X") {
      LineCases(k);
    }
  }

  /** The computer's move: a random choice among the available moves; the
      game loop only asks while some cell is free. */
  method GetComputerMove(game: TicTacToe) returns (square: int)
    requires game.EmptySquares()
    ensures square in game.AvailableMoves()
    ensures 0 <= square < |game.board| && game.board[square] == Space
  {
    var moves := game.AvailableMoves();
    var k :| 0 <= k < |moves|;
    square := moves[k];
    assert square in moves;
  }
}
