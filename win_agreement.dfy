/** The two games decide a win differently: the browser game scans all
    eight lines, the console game looks only at the lines through the
    square just played (and both diagonals for an even square).  On boards
    reached by play, where no line was complete before the move, the two
    tests agree. */
module WinCheckAgreement {
  import opened Grid
  import opened WebRules
  import ConsoleGame

  /** The console game's text for a cell. */
  function Text(c: Cell): (t: string)
    ensures t == ConsoleGame.Space <==> c == Empty
    ensures |t| == 1
  {
    match c
    case Empty => " "
    case X => "X"
    case O => "O"
  }

  /** The console game's board for a browser-game board. */
  function Render(b: seq<Cell>): (t: seq<string>)
    ensures |t| == |b|
    ensures forall i | 0 <= i < |b| :: t[i] == Text(b[i])
  {
    seq(|b|, i requires 0 <= i < |b| => Text(b[i]))
  }

  /** Distinct cells have distinct texts, so a rendered line is all `Text(p)`
      exactly when the board's line is all `p`. */
  lemma RenderedLine(b: seq<Cell>, k: int, p: Cell)
    requires |b| == 9 && 0 <= k < |Lines|
    ensures Filled(Render(b), k, Text(p)) <==> Filled(b, k, p)
  {
    var t := Render(b);
    assert t[Lines[k].0] == Text(b[Lines[k].0]);
    assert t[Lines[k].1] == Text(b[Lines[k].1]);
    assert t[Lines[k].2] == Text(b[Lines[k].2]);
  }

  /** A line away from the square just played is as complete as before. */
  lemma LineAwayUnchanged(b: seq<Cell>, sq: int, p: Cell, k: int)
    requires |b| == 9 && 0 <= sq < 9 && 0 <= k < |Lines|
    ensures !OnLine(k, sq) ==> (LineWon(b[sq := p], k) <==> LineWon(b, k))
  {
  }

  /** A line completed by the move runs through `sq`, so the incremental
      test sees it. */
  lemma ScanWinIsSeen(g: ConsoleGame.TicTacToe, b: seq<Cell>, sq: int, p: Cell)
    requires |b| == 9 && 0 <= sq < 9 && p != Empty && !HasWin(b)
    requires g.board == Render(b[sq := p])
    ensures HasWin(b[sq := p]) ==> g.Winner(sq, Text(p))
  {
    var b' := b[sq := p];
    if HasWin(b') {
      var k :| 0 <= k < |Lines| && LineWon(b', k);
      LineAwayUnchanged(b, sq, p, k);
      assert OnLine(k, sq);
      assert Filled(b', k, p);
      RenderedLine(b', k, p);
      ConsoleGame.SquareLines(sq);
      if k >= 6 {
        LineCases(k);
      }
    }
  }

  /** Whatever line the incremental test finds is a completed line of the
      board, whether or not it was complete before. */
  lemma IncrementalWinIsReal(g: ConsoleGame.TicTacToe, b: seq<Cell>, sq: int, p: Cell)
    requires |b| == 9 && 0 <= sq < 9 && p != Empty
    requires g.board == Render(b[sq := p])
    ensures g.Winner(sq, Text(p)) ==> HasWin(b[sq := p])
  {
    var b' := b[sq := p];
    var t := Text(p);
    if g.Winner(sq, t) {
      if exists k | 0 <= k < 6 :: OnLine(k, sq) && Filled(g.board, k, t) {
        var k :| 0 <= k < 6 && OnLine(k, sq) && Filled(g.board, k, t);
        RenderedLine(b', k, p);
        assert LineWon(b', k);
      } else if Filled(g.board, 6, t) {
        RenderedLine(b', 6, p);
        assert LineWon(b', 6);
      } else {
        RenderedLine(b', 7, p);
        assert LineWon(b', 7);
      }
    }
  }

  /** After `p` is played at `sq` on a board with no completed line, the
      console game's incremental test on the rendered board says "winner"
      exactly when the browser game's full scan finds a completed line. */
  lemma IncrementalCheckAgrees(g: ConsoleGame.TicTacToe, b: seq<Cell>, sq: int, p: Cell)
    requires |b| == 9 && 0 <= sq < 9 && p != Empty && !HasWin(b)
    requires g.board == Render(b[sq := p])
    ensures g.Winner(sq, Text(p)) <==> HasWin(b[sq := p])
  {
    ScanWinIsSeen(g, b, sq, p);
    IncrementalWinIsReal(g, b, sq, p);
  }
}
