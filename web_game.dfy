/** The browser game's engine object, without its page effects: the board
    array, whose turn it is, whether the game is running, and the two
    player records.  Every state-changing method is tied to the pure
    transition it performs in WebRules through `Model()`. */
module WebGame {
  import opened Grid
  import opened WebRules

  class TicTacToe {
    var board: array<Cell>
    var currentPlayer: Cell
    var gameActive: bool
    var player1: PlayerInfo
    var player2: PlayerInfo

    /** The abstract state the rules talk about. */
    ghost function Model(): State
      reads this, board
    {
      State(board[..], currentPlayer, gameActive)
    }

    /** Nine cells, X for the first player and O for the second, and a
        running game always has a free cell and no completed line. */
    ghost predicate Valid()
      reads this, board
    {
      board.Length == 9 && player1.symbol == X && player2.symbol == O && Consistent(Model())
    }

    /** A new engine: empty board, X to move, no game running, a human
        first player and a computer second player. */
    constructor ()
      ensures Valid() && fresh(board)
      ensures Model() == State(Blank, X, false)
      ensures player1 == PlayerInfo("Human", Human, X)
      ensures player2 == PlayerInfo("Computer", Computer, O)
    {
      board := new Cell[9](_ => Empty);
      currentPlayer := X;
      gameActive := false;
      player1 := PlayerInfo("Human", Human, X);
      player2 := PlayerInfo("Computer", Computer, O);
      new;
      assert board[..] == Blank;
    }

    /** The name of the player whose symbol is to move. */
    function CurrentPlayerName(): (n: string)
      reads this, board
      requires Valid()
      ensures currentPlayer == player1.symbol ==> n == player1.name
      ensures currentPlayer == player2.symbol ==> n == player2.name
    {
      if currentPlayer == X then player1.name else player2.name
    }

    /** The kind of the player whose symbol is to move. */
    function CurrentPlayerType(): (k: Kind)
      reads this, board
      requires Valid()
      ensures currentPlayer == player1.symbol ==> k == player1.kind
      ensures currentPlayer == player2.symbol ==> k == player2.kind
      ensures k == KindToMove(Model(), player1, player2)
    {
      if currentPlayer == X then player1.kind else player2.kind
    }

    /** Starts a game: a new empty board, X to move, the game running, and
        the configured names (an empty name falls back to "Player 1" or
        "Player 2") and kinds.  A computer first player moves at once, and
        on the empty board it takes the centre.  `scheduled` reports that
        the next computer turn is due after the pause. */
    method StartNewGame(name1: string, kind1: Kind, name2: string, kind2: Kind)
      returns (scheduled: bool)
      requires Valid()
      modifies this
      ensures Valid() && fresh(board)
      ensures player1 == PlayerInfo(if name1 == "" then "Player 1" else name1, kind1, X)
      ensures player2 == PlayerInfo(if name2 == "" then "Player 2" else name2, kind2, O)
      ensures kind1 == Human ==> Model() == State(Blank, X, true) && !scheduled
      ensures kind1 == Computer ==>
        Model() == State(Blank[4 := X], O, true) && scheduled == (kind2 == Computer)
    {
      board := new Cell[9](_ => Empty);
      currentPlayer := X;
      gameActive := true;
      player1 := player1.(name := if name1 == "" then "Player 1" else name1, kind := kind1);
      player2 := player2.(name := if name2 == "" then "Player 2" else name2, kind := kind2);
      assert board[..] == Blank;
      NewGameIsConsistent();
      assert Model() == State(Blank, X, true);
      if CurrentPlayerType() == Computer {
        var move;
        move, scheduled := MakeComputerMove();
        ComputerOpening(move.value);
      } else {
        scheduled := false;
      }
    }

    /** A click on cell `index`: ignored unless the game is running, the
        cell is on the board and empty, and the player to move is human;
        otherwise exactly a move. */
    method HandleCellClick(index: int) returns (scheduled: bool)
      requires Valid()
      modifies this, board
      ensures Valid() && board == old(board)
      ensures player1 == old(player1) && player2 == old(player2)
      ensures Model() == Click(old(Model()), old(CurrentPlayerType()), index)
      ensures scheduled == (ClickAccepted(old(Model()), old(CurrentPlayerType()), index)
                            && gameActive && CurrentPlayerType() == Computer)
    {
      if !gameActive || !(0 <= index < 9) || board[index] != Empty || CurrentPlayerType() == Computer {
        return false;
      }
      scheduled := MakeMove(index);
    }

    /** Writes the current mark at `index` with no guard of its own.  A
        completed line or a full board ends the game and keeps the turn;
        otherwise the turn passes, and `scheduled` reports that a computer
        is now to move. */
    method MakeMove(index: int) returns (scheduled: bool)
      requires Valid() && 0 <= index < 9
      modifies this, board
      ensures Valid() && board == old(board)
      ensures player1 == old(player1) && player2 == old(player2)
      ensures Model() == Move(old(Model()), index)
      ensures scheduled == (gameActive && CurrentPlayerType() == Computer)
    {
      MovePreservesConsistent(Model(), index);
      board[index] := currentPlayer;
      var won := CheckWin();
      if won {
        gameActive := false;
        return false;
      }
      if CheckDraw() {
        gameActive := false;
        return false;
      }
      currentPlayer := if currentPlayer == X then O else X;
      scheduled := CurrentPlayerType() == Computer && gameActive;
    }

    /** The computer's turn: nothing when no game is running; otherwise one
        move on a free cell chosen by the rule chain (winning move, blocking
        move, strategic move, random free cell; a rule answering cell 0 is
        passed over). */
    method MakeComputerMove() returns (move: Option<int>, scheduled: bool)
      requires Valid()
      modifies this, board
      ensures Valid() && board == old(board)
      ensures player1 == old(player1) && player2 == old(player2)
      ensures !old(gameActive) ==> move == None && Model() == old(Model())
      ensures old(gameActive) ==> move.Some? && 0 <= move.value < 9 && old(board[move.value]) == Empty
      ensures old(gameActive) ==> ComputerMayPlay(old(board[..]), old(currentPlayer), move.value)
      ensures old(gameActive) ==> Model() == Move(old(Model()), move.value)
      ensures scheduled == (gameActive && CurrentPlayerType() == Computer)
    {
      if !gameActive {
        return None, false;
      }
      ghost var s := Model();
      var avail := Available(board[..]);
      NotFullHasAvailable(board[..]);
      var m := ChooseMove(avail);
      ComputerPlaysFreeCell(s.board, s.current, m);
      scheduled := MakeMove(m);
      move := Some(m);
    }

    /** The `||` chain of the computer's turn over the free cells `avail`:
        the first truthy answer of winning, blocking and strategic move,
        else a random free cell.  Probing leaves the board as it was. */
    method ChooseMove(avail: seq<int>) returns (m: int)
      requires Valid() && avail == Available(board[..]) && |avail| > 0
      modifies board
      ensures board[..] == old(board[..])
      ensures ComputerMayPlay(board[..], currentPlayer, m)
    {
      var win := FindWinningMove(avail);
      if Truthy(win) {
        return win.value;
      }
      var block := FindBlockingMove(avail);
      if Truthy(block) {
        return block.value;
      }
      var strategic := FindStrategicMove(avail);
      if Truthy(strategic) {
        return strategic.value;
      }
      var k :| 0 <= k < |avail|;
      m := avail[k];
    }

    /** The first free cell in `avail` where the current mark completes a line. */
    method FindWinningMove(avail: seq<int>) returns (r: Option<int>)
      requires Valid()
      requires forall j | 0 <= j < |avail| :: 0 <= avail[j] < 9 && board[avail[j]] == Empty
      modifies board
      ensures board[..] == old(board[..])
      ensures r == FirstWinning(board[..], avail, currentPlayer)
    {
      r := FindBestMove(avail, currentPlayer);
    }

    /** The first free cell in `avail` where the opponent's mark would complete a line. */
    method FindBlockingMove(avail: seq<int>) returns (r: Option<int>)
      requires Valid()
      requires forall j | 0 <= j < |avail| :: 0 <= avail[j] < 9 && board[avail[j]] == Empty
      modifies board
      ensures board[..] == old(board[..])
      ensures r == FirstWinning(board[..], avail, Opponent(currentPlayer))
    {
      var opponent := if currentPlayer == X then O else X;
      r := FindBestMove(avail, opponent);
    }

    /** Probes each cell of `avail` in order by writing `player` into the
        board, testing for a win and clearing the cell again; answers the
        first cell that wins.  The board is as it was on return. */
    method FindBestMove(avail: seq<int>, player: Cell) returns (r: Option<int>)
      requires board.Length == 9
      requires forall j | 0 <= j < |avail| :: 0 <= avail[j] < 9 && board[avail[j]] == Empty
      modifies board
      ensures board[..] == old(board[..])
      ensures r == FirstWinning(old(board[..]), avail, player)
    {
      ghost var b := board[..];
      var i := 0;
      while i < |avail|
        invariant 0 <= i <= |avail|
        invariant board[..] == b
        invariant FirstWinningFrom(b, avail, player, 0) == FirstWinningFrom(b, avail, player, i)
      {
        var move := avail[i];
        FirstWinningFromStep(b, avail, player, i);
        board[move] := player;
        assert board[..] == b[move := player];
        var won := CheckWin();
        board[move] := Empty;
        assert board[..] == b;
        if won {
          return Some(move);
        }
        i := i + 1;
      }
      return None;
    }

    /** The centre when it is free, else a random free corner, else None. */
    method FindStrategicMove(avail: seq<int>) returns (r: Option<int>)
      ensures 4 in avail ==> r == Some(4)
      ensures 4 !in avail && (exists c | c in Corners :: c in avail) ==>
        r.Some? && r.value in Corners && r.value in avail
      ensures 4 !in avail && (forall c | c in Corners :: c !in avail) ==> r == None
    {
      if 4 in avail {
        return Some(4);
      }
      var corners := FreeCorners(avail);
      if |corners| > 0 {
        var k :| 0 <= k < |corners|;
        return Some(corners[k]);
      }
      return None;
    }

    /** Scans the eight combinations for three equal, non-empty marks. */
    method CheckWin() returns (won: bool)
      requires board.Length == 9
      ensures won <==> HasWin(board[..])
    {
      var k := 0;
      while k < |Lines|
        invariant 0 <= k <= |Lines|
        invariant forall j | 0 <= j < k :: !LineWon(board[..], j)
      {
        var (a, b, c) := Lines[k];
        if board[a] != Empty && board[a] == board[b] && board[a] == board[c] {
          assert LineWon(board[..], k);
          return true;
        }
        k := k + 1;
      }
      return false;
    }

    /** The board is full: no empty cell is left, whether or not a line is complete. */
    function CheckDraw(): (r: bool)
      reads this, board
      ensures r <==> IsFull(board[..])
      ensures r <==> Available(board[..]) == []
    {
      var full := Empty !in board[..];
      FullIffNoneAvailable(board[..]);
      full
    }
  }
}
