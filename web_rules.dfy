/** The rules of the browser game as pure definitions: the board, the
    win and draw tests, the state transition of one move, the click guard
    and the computer player's priority strategy.  The class in WebGame is
    proved to follow these definitions. */
module WebRules {
  import opened Grid

  /** A board cell: empty (the empty string in the game) or a player's mark. */
  datatype Cell = Empty | X | O

  /** The kind of a player, as chosen in the player setup. */
  datatype Kind = Human | Computer

  /** A player record: display name, kind and fixed symbol. */
  datatype PlayerInfo = PlayerInfo(name: string, kind: Kind, symbol: Cell)

  /** The game state that moves change: the nine cells, whose turn it is,
      and whether the game accepts moves. */
  datatype State = State(board: seq<Cell>, current: Cell, active: bool)

  /** The board of a new game. */
  const Blank: seq<Cell> := [Empty, Empty, Empty, Empty, Empty, Empty, Empty, Empty, Empty]

  /** Line `k` holds three equal, non-empty marks. */
  predicate LineWon(b: seq<Cell>, k: int)
    requires |b| == 9 && 0 <= k < |Lines|
  {
    b[Lines[k].0] != Empty && Filled(b, k, b[Lines[k].0])
  }

  /** Some winning combination is completed. */
  predicate HasWin(b: seq<Cell>)
    requires |b| == 9
  {
    exists k | 0 <= k < |Lines| :: LineWon(b, k)
  }

  /** No cell is empty. */
  predicate IsFull(b: seq<Cell>)
  {
    forall i | 0 <= i < |b| :: b[i] != Empty
  }

  /** `HasWin` written out line by line, for concrete boards. */
  lemma HasWinCases(b: seq<Cell>)
    requires |b| == 9
    ensures HasWin(b) <==>
      LineWon(b, 0) || LineWon(b, 1) || LineWon(b, 2) || LineWon(b, 3) ||
      LineWon(b, 4) || LineWon(b, 5) || LineWon(b, 6) || LineWon(b, 7)
  {
    if HasWin(b) {
      var k :| 0 <= k < |Lines| && LineWon(b, k);
      LineCases(k);
    }
  }

  /** A win is a line filled by one player's mark. */
  lemma HasWinIffFilled(b: seq<Cell>)
    requires |b| == 9
    ensures HasWin(b) <==> exists k | 0 <= k < |Lines| :: Filled(b, k, X) || Filled(b, k, O)
  {
    if HasWin(b) {
      var k :| 0 <= k < |Lines| && LineWon(b, k);
      assert Filled(b, k, X) || Filled(b, k, O);
    }
    if exists k | 0 <= k < |Lines| :: Filled(b, k, X) || Filled(b, k, O) {
      var k :| 0 <= k < |Lines| && (Filled(b, k, X) || Filled(b, k, O));
      assert LineWon(b, k);
    }
  }

  /** The other player's mark, as the turn passes after a move; anything
      but X (the empty cell included) counts as O and is answered with X. */
  function Opponent(p: Cell): (q: Cell)
    ensures q != Empty
    ensures p != Empty ==> q != p
  {
    if p == X then O else X
  }

  /** Passing the turn twice gives it back: play alternates between the two marks. */
  lemma OpponentAlternates(p: Cell)
    requires p != Empty
    ensures Opponent(Opponent(p)) == p
  {
  }

  /** The free cells, in ascending order. */
  function Available(b: seq<Cell>): (r: seq<nat>)
    ensures forall i :: i in r <==> 0 <= i < |b| && b[i] == Empty
    ensures forall j, k :: 0 <= j < k < |r| ==> r[j] < r[k]
    ensures forall j | 0 <= j < |r| :: r[j] < |b| && b[r[j]] == Empty
  {
    var r := IndicesOf(b, Empty);
    assert forall j | 0 <= j < |r| :: r[j] in r;
    r
  }

  /** A board with a free cell has a non-empty list of free cells. */
  lemma NotFullHasAvailable(b: seq<Cell>)
    requires !IsFull(b)
    ensures |Available(b)| > 0
  {
    var i :| 0 <= i < |b| && b[i] == Empty;
    assert i in Available(b);
  }

  /** A board is full exactly when its list of free cells is empty. */
  lemma {:induction false} FullIffNoneAvailable(b: seq<Cell>)
    ensures IsFull(b) <==> Available(b) == []
  {
    if !IsFull(b) {
      NotFullHasAvailable(b);
    }
    if Available(b) != [] {
      var r := Available(b);
      assert b[r[0]] == Empty;
    }
  }

  /** The scan of `avail` from position `lo` on: the first entry whose
      tentative placement of `p` completes a line; None when there is none. */
  function FirstWinningFrom(b: seq<Cell>, avail: seq<int>, p: Cell, lo: nat): (r: Option<int>)
    requires |b| == 9 && lo <= |avail|
    requires forall j | 0 <= j < |avail| :: 0 <= avail[j] < 9
    ensures r.Some? ==> exists i | lo <= i < |avail| ::
      (avail[i] == r.value && HasWin(b[avail[i] := p]) &&
       forall j | lo <= j < i :: !HasWin(b[avail[j] := p]))
    ensures r.None? <==> forall j | lo <= j < |avail| :: !HasWin(b[avail[j] := p])
    decreases |avail| - lo
  {
    if lo == |avail| then None
    else if HasWin(b[avail[lo] := p]) then Some(avail[lo])
    else FirstWinningFrom(b, avail, p, lo + 1)
  }

  /** One probe of the scan: `avail[lo]` when it wins, else the scan from `lo + 1`. */
  lemma {:induction false} FirstWinningFromStep(b: seq<Cell>, avail: seq<int>, p: Cell, lo: nat)
    requires |b| == 9 && lo < |avail|
    requires forall j | 0 <= j < |avail| :: 0 <= avail[j] < 9
    ensures FirstWinningFrom(b, avail, p, lo) ==
      if HasWin(b[avail[lo] := p]) then Some(avail[lo]) else FirstWinningFrom(b, avail, p, lo + 1)
  {
  }

  /** The first entry of `avail`, in list order, whose tentative placement
      of `p` completes a line; None when there is none. */
  function FirstWinning(b: seq<Cell>, avail: seq<int>, p: Cell): (r: Option<int>)
    requires |b| == 9
    requires forall j | 0 <= j < |avail| :: 0 <= avail[j] < 9
    ensures r.Some? ==> r.value in avail && 0 <= r.value < 9 && HasWin(b[r.value := p])
    ensures r.Some? ==> exists i | 0 <= i < |avail| ::
      (avail[i] == r.value && forall j | 0 <= j < i :: !HasWin(b[avail[j] := p]))
    ensures r.None? <==> forall j | 0 <= j < |avail| :: !HasWin(b[avail[j] := p])
  {
    FirstWinningFrom(b, avail, p, 0)
  }

  /** How the game's `||` chain reads a move: null and the cell 0 are both falsy. */
  predicate Truthy(o: Option<int>)
  {
    o.Some? && o.value != 0
  }

  /** The corners, in the order the strategy lists them. */
  const Corners: seq<int> := [0, 2, 6, 8]

  /** The corners that occur in `avail`, in corner order. */
  function FreeCorners(avail: seq<int>): (r: seq<int>)
    ensures forall c :: c in r <==> c in Corners && c in avail
    ensures forall j, k :: 0 <= j < k < |r| ==> r[j] < r[k]
  {
    (if 0 in avail then [0] else []) + (if 2 in avail then [2] else []) +
    (if 6 in avail then [6] else []) + (if 8 in avail then [8] else [])
  }

  /** The rule chain of the computer player on board `b` with mark `p`:
      the first truthy answer of winning move, blocking move, strategic
      move (centre, else a random free corner), else a random free cell.
      `m` is a move the computer may play. */
  ghost predicate ComputerMayPlay(b: seq<Cell>, p: Cell, m: int)
    requires |b| == 9
  {
    var avail := Available(b);
    var win := FirstWinning(b, avail, p);
    var block := FirstWinning(b, avail, Opponent(p));
    if Truthy(win) then m == win.value
    else if Truthy(block) then m == block.value
    else if 4 in avail then m == 4
    else if exists c | c in Corners :: c in avail then
      // a random corner; if it happens to be 0 the chain falls through to a random free cell
      (m != 0 && m in Corners && m in avail) || (0 in avail && m in avail)
    else m in avail
  }

  /** The state transition of one move at `i`, with no guard: write the
      current mark; a win or a full board ends the game, otherwise the turn
      passes. */
  function Move(s: State, i: int): (t: State)
    requires |s.board| == 9 && 0 <= i < 9
  {
    var b := s.board[i := s.current];
    if HasWin(b) then State(b, s.current, false)
    else if IsFull(b) then State(b, s.current, false)
    else State(b, Opponent(s.current), s.active)
  }

  /** A click is accepted only in an active game, on an empty cell of the
      board, when the player to move is not a computer. */
  predicate ClickAccepted(s: State, mover: Kind, i: int)
    requires |s.board| == 9
  {
    s.active && 0 <= i < 9 && s.board[i] == Empty && mover != Computer
  }

  /** The effect of a click on cell `i` while a `mover` is to play. */
  function Click(s: State, mover: Kind, i: int): (t: State)
    requires |s.board| == 9
  {
    if ClickAccepted(s, mover, i) then Move(s, i) else s
  }

  /** The state invariant the game keeps: an active game has neither a
      completed line nor a full board. */
  predicate Consistent(s: State)
  {
    |s.board| == 9 && s.current != Empty && (s.active ==> !HasWin(s.board) && !IsFull(s.board))
  }

  /** Turn order under legal play: while the game is active, X has as many
      marks as O when X is to move, and one more when O is to move. */
  predicate TurnOrder(s: State)
  {
    s.active ==>
      multiset(s.board)[X] == multiset(s.board)[O] + (if s.current == O then 1 else 0)
  }

  /** The kind of the player whose mark is `s.current`. */
  function KindToMove(s: State, p1: PlayerInfo, p2: PlayerInfo): (k: Kind)
  {
    if s.current == X then p1.kind else p2.kind
  }

  /** A move writes the current mark at `i`, leaves the other eight cells
      alone, and then: a win ends the game with the turn kept, a full board
      ends it, otherwise the turn passes to the other mark. */
  lemma MoveOutcome(s: State, i: int)
    requires |s.board| == 9 && 0 <= i < 9
    ensures |Move(s, i).board| == 9 && Move(s, i).board[i] == s.current
    ensures forall j | 0 <= j < 9 && j != i :: Move(s, i).board[j] == s.board[j]
    ensures HasWin(Move(s, i).board) ==> !Move(s, i).active && Move(s, i).current == s.current
    ensures !HasWin(Move(s, i).board) && IsFull(Move(s, i).board) ==>
      !Move(s, i).active && Move(s, i).current == s.current
    ensures !HasWin(Move(s, i).board) && !IsFull(Move(s, i).board) ==>
      Move(s, i).active == s.active && Move(s, i).current == Opponent(s.current)
  {
  }

  /** Every move, guarded or not, keeps the game consistent. */
  lemma MovePreservesConsistent(s: State, i: int)
    requires Consistent(s) && 0 <= i < 9
    ensures Consistent(Move(s, i))
  {
  }

  /** A move on a free cell of an active game keeps the turn order. */
  lemma MoveOnFreeCellKeepsTurnOrder(s: State, i: int)
    requires Consistent(s) && TurnOrder(s) && s.active && 0 <= i < 9 && s.board[i] == Empty
    ensures TurnOrder(Move(s, i))
  {
    var b := s.board[i := s.current];
    assert multiset(b) == multiset(s.board) - multiset{Empty} + multiset{s.current};
  }

  /** A rejected click changes nothing; an accepted one is exactly a move. */
  lemma ClickIsGuardedMove(s: State, mover: Kind, i: int)
    requires |s.board| == 9
    ensures !s.active ==> Click(s, mover, i) == s
    ensures mover == Computer ==> Click(s, mover, i) == s
    ensures (i < 0 || 9 <= i) ==> Click(s, mover, i) == s
    ensures 0 <= i < 9 && s.board[i] != Empty ==> Click(s, mover, i) == s
    ensures s.active && 0 <= i < 9 && s.board[i] == Empty && mover == Human ==>
      Click(s, mover, i) == Move(s, i)
  {
  }

  /** Clicks keep the game consistent and, in a game played by the rules so
      far, keep the turn order. */
  lemma ClickPreservesInvariants(s: State, mover: Kind, i: int)
    requires Consistent(s)
    ensures Consistent(Click(s, mover, i))
    ensures TurnOrder(s) ==> TurnOrder(Click(s, mover, i))
  {
    if ClickAccepted(s, mover, i) {
      MovePreservesConsistent(s, i);
      if TurnOrder(s) { MoveOnFreeCellKeepsTurnOrder(s, i); }
    }
  }

  /** Whatever the random choices, the computer plays a free cell of the board. */
  lemma {:induction false} ComputerPlaysFreeCell(b: seq<Cell>, p: Cell, m: int)
    requires |b| == 9 && !IsFull(b) && ComputerMayPlay(b, p, m)
    ensures 0 <= m < 9 && b[m] == Empty
  {
    var avail := Available(b);
    NotFullHasAvailable(b);
    var win := FirstWinning(b, avail, p);
    var block := FirstWinning(b, avail, Opponent(p));
    if Truthy(win) {
      assert m in avail;
    } else if Truthy(block) {
      assert m in avail;
    } else if 4 in avail {
    } else {
      assert m in avail;
    }
  }

  /** Some move is always open to the computer while a cell is free. */
  lemma {:induction false} ComputerHasAMove(b: seq<Cell>, p: Cell)
    requires |b| == 9 && !IsFull(b)
    ensures exists m :: ComputerMayPlay(b, p, m)
  {
    var avail := Available(b);
    NotFullHasAvailable(b);
    var win := FirstWinning(b, avail, p);
    var block := FirstWinning(b, avail, Opponent(p));
    if Truthy(win) {
      assert ComputerMayPlay(b, p, win.value);
    } else if Truthy(block) {
      assert ComputerMayPlay(b, p, block.value);
    } else if 4 in avail {
      assert ComputerMayPlay(b, p, 4);
    } else {
      assert avail[0] in avail;
      if exists c | c in Corners :: c in avail {
        if 0 in avail {
          assert ComputerMayPlay(b, p, 0);
        } else {
          var c :| c in Corners && c in avail;
          assert ComputerMayPlay(b, p, c);
        }
      } else {
        assert ComputerMayPlay(b, p, avail[0]);
      }
    }
  }

  /** When the first winning cell is not 0, the computer plays exactly that
      cell, and it completes a line. */
  lemma {:induction false} ComputerTakesWin(b: seq<Cell>, p: Cell, m: int)
    requires |b| == 9 && Truthy(FirstWinning(b, Available(b), p))
    ensures ComputerMayPlay(b, p, m) <==> m == FirstWinning(b, Available(b), p).value
    ensures ComputerMayPlay(b, p, m) ==> 0 <= m < 9 && b[m] == Empty && HasWin(b[m := p])
  {
  }

  /** Without a truthy winning cell, the computer plays exactly the first
      truthy cell where the opponent would complete a line, which stops it. */
  lemma {:induction false} ComputerBlocks(b: seq<Cell>, p: Cell, m: int)
    requires |b| == 9
    requires !Truthy(FirstWinning(b, Available(b), p))
    requires Truthy(FirstWinning(b, Available(b), Opponent(p)))
    ensures ComputerMayPlay(b, p, m) <==> m == FirstWinning(b, Available(b), Opponent(p)).value
    ensures ComputerMayPlay(b, p, m) ==> 0 <= m < 9 && b[m] == Empty && HasWin(b[m := Opponent(p)])
  {
  }

  /** A single mark never completes a line. */
  lemma NoWinWithOneMark(i: int, p: Cell)
    requires 0 <= i < 9
    ensures !HasWin(Blank[i := p])
  {
    var b := Blank[i := p];
    forall k | 0 <= k < |Lines| ensures !LineWon(b, k) {
      LineCellsDistinct(k);
    }
  }

  /** On the empty board the computer always opens in the centre. */
  lemma {:induction false} ComputerOpensInCentre(p: Cell, m: int)
    requires ComputerMayPlay(Blank, p, m)
    ensures m == 4
  {
    var avail := Available(Blank);
    assert 4 in avail;
    forall j | j in avail ensures !HasWin(Blank[j := p]) && !HasWin(Blank[j := Opponent(p)]) {
      NoWinWithOneMark(j, p);
      NoWinWithOneMark(j, Opponent(p));
    }
  }

  /** A new game is in turn order: no marks, X to move. */
  lemma NewGameInTurnOrder()
    ensures TurnOrder(State(Blank, X, true))
  {
    assert multiset(Blank)[X] == 0 && multiset(Blank)[O] == 0;
  }

  /** A new game is consistent: no line, free cells, X to move. */
  lemma NewGameIsConsistent()
    ensures Consistent(State(Blank, X, true))
  {
    NoWinWithOneMark(0, Empty);
    assert Blank[0 := Empty] == Blank;
    assert Blank[0] == Empty;
  }

  /** A computer opening a new game as X takes the centre, and O is to move. */
  lemma {:induction false} ComputerOpening(m: int)
    requires ComputerMayPlay(Blank, X, m)
    ensures m == 4 && Move(State(Blank, X, true), m) == State(Blank[4 := X], O, true)
  {
    ComputerOpensInCentre(X, m);
    NoWinWithOneMark(4, X);
    assert Blank[4 := X][0] == Empty;
  }
}
