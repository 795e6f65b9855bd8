/**
 * Tic-tac-toe: the winner search over the eight lines, the move rule, the
 * move history with truncate-and-append, and reviewing earlier positions.
 *
 * The component recomputes `winner` in an effect whenever the board changes
 * while not reviewing; the model runs that effect at the end of each
 * operation that changes the board outside review (`HandleClick`,
 * `ReturnToGame`).
 */
module TicTacToe {
  import opened Common

  datatype Mark = X | O

  /** A square is empty (`null`) or holds a mark. */
  type Square = Option<Mark>

  type Board = seq<Square>

  function EmptyBoard(): (b: Board)
    ensures |b| == 9 && forall i :: 0 <= i < 9 ==> b[i].None?
  {
    seq(9, _ => None)
  }

  /** The eight winning lines, in the order they are searched. */
  const Lines: seq<(nat, nat, nat)> := [
    (0, 1, 2), (3, 4, 5), (6, 7, 8),
    (0, 3, 6), (1, 4, 7), (2, 5, 8),
    (0, 4, 8), (2, 4, 6)
  ]

  /** Line `k` holds three equal marks. */
  predicate LineWins(squares: Board, k: nat)
    requires |squares| == 9 && k < 8
  {
    var (a, b, c) := Lines[k];
    squares[a].Some? && squares[a] == squares[b] && squares[a] == squares[c]
  }

  /** The mark of the first winning line at or after line `k`. */
  function WinnerFrom(squares: Board, k: nat): Option<Mark>
    requires |squares| == 9 && k <= 8
    decreases 8 - k
  {
    if k == 8 then None
    else if LineWins(squares, k) then squares[Lines[k].0]
    else WinnerFrom(squares, k + 1)
  }

  /** The result of `calculateWinner`. */
  function WinnerOf(squares: Board): Option<Mark>
    requires |squares| == 9
  {
    WinnerFrom(squares, 0)
  }

  /**
   * There is a winner exactly when some line wins, and then it is the mark
   * of the first winning line in the search order.
   */
  lemma {:induction false} WinnerFromIsFirstWinningLine(squares: Board, k: nat)
    requires |squares| == 9 && k <= 8
    ensures WinnerFrom(squares, k).None? <==> forall j :: k <= j < 8 ==> !LineWins(squares, j)
    ensures WinnerFrom(squares, k).Some? ==>
      exists j :: k <= j < 8 && LineWins(squares, j) && WinnerFrom(squares, k) == squares[Lines[j].0]
        && forall i :: k <= i < j ==> !LineWins(squares, i)
    decreases 8 - k
  {
    if k < 8 && !LineWins(squares, k) {
      WinnerFromIsFirstWinningLine(squares, k + 1);
    }
  }

  lemma WinnerOfIsFirstWinningLine(squares: Board)
    requires |squares| == 9
    ensures WinnerOf(squares).None? <==> forall j :: 0 <= j < 8 ==> !LineWins(squares, j)
    ensures WinnerOf(squares).Some? ==>
      exists j :: 0 <= j < 8 && LineWins(squares, j) && WinnerOf(squares) == squares[Lines[j].0]
        && forall i :: 0 <= i < j ==> !LineWins(squares, i)
  {
    WinnerFromIsFirstWinningLine(squares, 0);
  }

  /** `calculateWinner`: scan the lines in order and stop at the first winning one. */
  method CalculateWinner(squares: Board) returns (w: Option<Mark>)
    requires |squares| == 9
    ensures w == WinnerOf(squares)
    ensures w.Some? ==> exists k :: 0 <= k < 8 && LineWins(squares, k) && w == squares[Lines[k].0]
  {
    var i := 0;
    while i < |Lines|
      invariant 0 <= i <= 8
      invariant WinnerFrom(squares, i) == WinnerOf(squares)
    {
      var (a, b, c) := Lines[i];
      if squares[a].Some? && squares[a] == squares[b] && squares[a] == squares[c] {
        return squares[a];
      }
      i := i + 1;
    }
    return None;
  }

  /** Every square holds a mark. */
  predicate Full(b: Board) {
    forall i :: 0 <= i < |b| ==> b[i].Some?
  }

  function NextMark(isXNext: bool): Mark {
    if isXNext then X else O
  }

  function Count(b: Board, m: Mark): nat {
    multiset(b)[Some(m)]
  }

  /** X moved first and the marks alternate: X leads by at most one and moves when level. */
  ghost predicate Balanced(b: Board, isXNext: bool) {
    var d := Count(b, X) - Count(b, O);
    (d == 0 || d == 1) && (isXNext <==> d == 0)
  }

  /** `b` is a position reached after exactly `k` alternating moves from the empty board. */
  ghost predicate Fair(b: Board, k: nat) {
    |b| == 9 && Count(b, X) + Count(b, O) == k && Balanced(b, k % 2 == 0)
  }

  /** The empty board is the position after no moves. */
  lemma EmptyBoardIsFair()
    ensures Fair(EmptyBoard(), 0)
  {
    var e := EmptyBoard();
    assert Some(X) !in multiset(e) && Some(O) !in multiset(e);
  }

  /** Placing the mark of the player to move on an empty square keeps the alternation. */
  lemma PlaceKeepsFair(b: Board, i: nat, k: nat)
    requires Fair(b, k) && i < 9 && b[i].None?
    ensures Fair(b[i := Some(NextMark(k % 2 == 0))], k + 1)
  {
    var b' := b[i := Some(NextMark(k % 2 == 0))];
    assert multiset(b') == multiset(b) - multiset{b[i]} + multiset{b'[i]};
  }

  /** Cutting a history of fair positions back to `m` entries and storing the position after `m` moves keeps it fair. */
  lemma CutAndStoreKeepsFair(history: seq<Board>, m: nat, b: Board)
    requires forall k :: 0 <= k < |history| ==> Fair(history[k], k)
    requires m <= |history| && Fair(b, m)
    ensures forall k :: 0 <= k < m + 1 ==> Fair((history[..m] + [b])[k], k)
  {
    var h := history[..m] + [b];
    forall k | 0 <= k < m + 1 ensures Fair(h[k], k) {
      if k < m {
        assert h[k] == history[k];
      }
    }
  }

  datatype Status = Winner(mark: Mark) | Draw | NextPlayer(mark: Mark)

  /** `getStatus`: the winner if there is one, else a draw on a full board, else who moves. */
  function GetStatus(winner: Option<Mark>, board: Board, isXNext: bool): (st: Status)
    ensures st.Winner? <==> winner.Some?
    ensures st.Winner? ==> st.mark == winner.value
    ensures st.Draw? <==> winner.None? && Full(board)
    ensures st.NextPlayer? <==> winner.None? && !Full(board)
    ensures st.NextPlayer? ==> (st.mark == X <==> isXNext)
  {
    if winner.Some? then Winner(winner.value)
    else if Full(board) then Draw
    else NextPlayer(NextMark(isXNext))
  }

  /**
   * In a position reached by alternating moves and without a winner, the
   * status names the player with fewer marks, X when the counts are level.
   */
  lemma StatusNamesPlayerBehind(board: Board, k: nat, isXNext: bool)
    requires Fair(board, k) && (isXNext <==> k % 2 == 0)
    requires GetStatus(None, board, isXNext).NextPlayer?
    ensures var m := GetStatus(None, board, isXNext).mark;
      (m == X <==> Count(board, X) == Count(board, O)) && (m == O <==> Count(board, X) == Count(board, O) + 1)
  {
  }

  class Game {
    var board: Board
    var isXNext: bool
    var winner: Option<Mark>
    var gameHistory: seq<Board>
    var moveNumber: nat
    var isReviewing: bool

    ghost predicate Valid()
      reads this
    {
      && |board| == 9
      && (forall k :: 0 <= k < |gameHistory| ==> |gameHistory[k]| == 9)
      && (isReviewing ==> moveNumber < |gameHistory|)
      && (!isReviewing ==> moveNumber == |gameHistory|)
    }

    /**
     * The game so far is a sequence of alternating moves from the empty
     * board: history entry `k` is the position after `k` moves, the board
     * shown is the position after `moveNumber` moves, and X is to move
     * exactly when `moveNumber` is even.
     */
    ghost predicate Consistent()
      reads this
    {
      && (forall k :: 0 <= k < |gameHistory| ==> Fair(gameHistory[k], k))
      && Fair(board, moveNumber)
      && (isXNext <==> moveNumber % 2 == 0)
    }

    constructor ()
      ensures Valid() && Consistent()
      ensures board == EmptyBoard() && isXNext && winner.None? && gameHistory == [] && moveNumber == 0
      ensures !isReviewing
    {
      board := EmptyBoard();
      isXNext := true;
      winner := None;
      gameHistory := [];
      moveNumber := 0;
      isReviewing := false;
      EmptyBoardIsFair();
    }

    /** The effect that records the winner once a line wins or the board is full. */
    method UpdateWinner()
      requires Valid()
      modifies this`winner
      ensures winner == if WinnerOf(board).Some? || Full(board) then WinnerOf(board) else old(winner)
    {
      var w := CalculateWinner(board);
      var full := forall i :: 0 <= i < 9 ==> board[i].Some?;
      if w.Some? || full {
        winner := w;
      }
    }

    /**
     * `handleClick`: refused while reviewing, after a win or on an occupied
     * square; otherwise the mark of the player to move goes into square `i`,
     * the turn passes, and the position before the move is stored at index
     * `moveNumber` of a history cut back to `moveNumber` entries.
     */
    method HandleClick(i: nat)
      requires Valid() && i < 9
      modifies this
      ensures Valid()
      ensures old(isReviewing || winner.Some? || board[i].Some?) ==>
        && board == old(board) && isXNext == old(isXNext) && winner == old(winner)
        && gameHistory == old(gameHistory) && moveNumber == old(moveNumber) && isReviewing == old(isReviewing)
      ensures !old(isReviewing || winner.Some? || board[i].Some?) ==>
        && board == old(board)[i := Some(NextMark(old(isXNext)))]
        && isXNext == !old(isXNext)
        && gameHistory == old(gameHistory)[..old(moveNumber)] + [old(board)]
        && moveNumber == old(moveNumber) + 1
        && !isReviewing
        && winner == if WinnerOf(board).Some? || Full(board) then WinnerOf(board) else old(winner)
      ensures old(Consistent()) ==> Consistent()
    {
      if isReviewing {
        return;
      }
      if winner.Some? || board[i].Some? {
        return;
      }
      ghost var k := moveNumber;
      var newBoard := board[i := Some(NextMark(isXNext))];
      var newHistory := gameHistory[..moveNumber] + [board];
      if Consistent() {
        PlaceKeepsFair(board, i, k);
        CutAndStoreKeepsFair(gameHistory, moveNumber, board);
      }
      board := newBoard;
      isXNext := !isXNext;
      gameHistory := newHistory;
      moveNumber := moveNumber + 1;
      UpdateWinner();
    }

    /** `resetGame`: the empty board, X to move, no winner, no history, not reviewing. */
    method ResetGame()
      modifies this
      ensures Valid() && Consistent()
      ensures board == EmptyBoard() && isXNext && winner.None? && gameHistory == [] && moveNumber == 0
      ensures !isReviewing
    {
      board := EmptyBoard();
      isXNext := true;
      winner := None;
      gameHistory := [];
      moveNumber := 0;
      isReviewing := false;
      EmptyBoardIsFair();
    }

    /**
     * `jumpTo`: review the position stored at `move` (the empty board for
     * move 0), with X to move exactly when `move` is even.
     */
    method JumpTo(move: nat)
      requires Valid() && move < |gameHistory|
      modifies this
      ensures Valid() && isReviewing
      ensures board == if move == 0 then EmptyBoard() else old(gameHistory[move])
      ensures moveNumber == move && (isXNext <==> move % 2 == 0)
      ensures gameHistory == old(gameHistory) && winner == old(winner)
      ensures old(Consistent()) ==> Consistent()
    {
      isReviewing := true;
      if move == 0 {
        board := EmptyBoard();
        EmptyBoardIsFair();
      } else {
        board := gameHistory[move];
      }
      moveNumber := move;
      isXNext := move % 2 == 0;
    }

    /**
     * The "Return to Game" button: leave review showing the LAST STORED
     * position, which is the position before the latest move, with
     * `moveNumber` set to the history length; the turn is left as the last
     * review set it.
     */
    method ReturnToGame()
      requires Valid() && isReviewing
      modifies this
      ensures Valid() && !isReviewing
      ensures board == old(gameHistory[|gameHistory| - 1]) && moveNumber == |gameHistory|
      ensures gameHistory == old(gameHistory) && isXNext == old(isXNext)
      ensures winner == if WinnerOf(board).Some? || Full(board) then WinnerOf(board) else old(winner)
    {
      isReviewing := false;
      board := gameHistory[|gameHistory| - 1];
      moveNumber := |gameHistory|;
      UpdateWinner();
    }

    function Status(): Status
      reads this
    {
      GetStatus(winner, board, isXNext)
    }
  }

  /**
   * X plays square 0, O plays square 4, the player reviews the start and
   * returns: the board shown is the one before O's move, and X is to move
   * although X already leads by one mark.
   */
  method ReturnToGameScenario() returns (played: Board, returned: Board, xToMove: bool)
    ensures played == EmptyBoard()[0 := Some(X)][4 := Some(O)]
    ensures returned == EmptyBoard()[0 := Some(X)]
    ensures played != returned
    ensures xToMove && Count(returned, X) == Count(returned, O) + 1
  {
    var g := new Game();
    g.HandleClick(0);
    NoWinnerBeforeThreeMarks(g.board);
    g.HandleClick(4);
    played := g.board;
    g.JumpTo(0);
    g.ReturnToGame();
    returned := g.board;
    xToMove := g.isXNext;
    assert played[4] != returned[4];
    var e := EmptyBoard();
    assert multiset(returned) == multiset(e) - multiset{None} + multiset{Some(X)};
    assert Some(X) !in multiset(e) && Some(O) !in multiset(e);
  }

  /** The occurrences of `b[i]` are those before position `i`, the one at `i` and those after it. */
  lemma SplitCount<T>(b: seq<T>, i: nat)
    requires i < |b|
    ensures multiset(b)[b[i]] == multiset(b[..i])[b[i]] + 1 + multiset(b[i + 1..])[b[i]]
  {
    assert b == b[..i] + [b[i]] + b[i + 1..];
  }

  /** Three positions holding the same value put it at least three times in the multiset. */
  lemma ThreeEqualSquares<T>(b: seq<T>, x: nat, y: nat, z: nat)
    requires x < y < z < |b| && b[x] == b[y] == b[z]
    ensures multiset(b)[b[x]] >= 3
  {
    SplitCount(b, z);
    var c := b[..z];
    assert c[y] == b[y] && c[x] == b[x];
    SplitCount(c, y);
    var d := c[..y];
    assert d[x] == b[x];
    SplitCount(d, x);
  }

  /** A winning line puts at least three of the winner's marks on the board. */
  lemma LineWinsCountsThree(b: Board, k: nat)
    requires |b| == 9 && k < 8 && LineWins(b, k)
    ensures Count(b, X) >= 3 || Count(b, O) >= 3
  {
    var (x, y, z) := Lines[k];
    assert b[x].Some? && b[x] == b[y] == b[z];
    ThreeEqualSquares(b, x, y, z);
    if b[x].value == X {
      assert Count(b, X) == multiset(b)[b[x]];
    } else {
      assert Count(b, O) == multiset(b)[b[x]];
    }
  }

  /** A board where neither player has three marks has no winning line. */
  lemma NoWinnerBeforeThreeMarks(b: Board)
    requires |b| == 9 && Count(b, X) < 3 && Count(b, O) < 3
    ensures WinnerOf(b).None?
  {
    WinnerOfIsFirstWinningLine(b);
    forall k | 0 <= k < 8
      ensures !LineWins(b, k)
    {
      if LineWins(b, k) {
        LineWinsCountsThree(b, k);
      }
    }
  }
}
