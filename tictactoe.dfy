/** Tic-Tac-Toe: winner and draw detection over the eight fixed lines, move
    validity, turn alternation and the score record. */
module TicTacToe {

  datatype Mark = X | O

  /** What a square holds; `Empty` is the source's `null`. */
  datatype Square = Empty | Filled(mark: Mark)

  /** The `winner` field: a mark, `'draw'`, or `null`. */
  datatype GameResult = NoResult | Won(mark: Mark) | Drawn

  datatype Status = Playing | Finished

  datatype Scores = Scores(x: nat, o: nat, draws: nat)

  type Board = b: seq<Square> | |b| == 9 witness [Empty, Empty, Empty, Empty, Empty, Empty, Empty, Empty, Empty]

  /** The eight winning combinations, in the order the source lists them. */
  const Lines: seq<(nat, nat, nat)> :=
    [(0, 1, 2), (3, 4, 5), (6, 7, 8), (0, 3, 6), (1, 4, 7), (2, 5, 8), (0, 4, 8), (2, 4, 6)]

  function Other(m: Mark): Mark {
    if m == X then O else X
  }

  function EmptyBoard(): (b: Board)
    ensures forall i :: 0 <= i < 9 ==> b[i] == Empty
  {
    [Empty, Empty, Empty, Empty, Empty, Empty, Empty, Empty, Empty]
  }

  /** Line `k` is complete for `m`: its three squares all hold `m`. */
  predicate LineOf(b: Board, k: nat, m: Mark)
    requires k < |Lines|
  {
    b[Lines[k].0] == Filled(m) && b[Lines[k].1] == Filled(m) && b[Lines[k].2] == Filled(m)
  }

  predicate LineComplete(b: Board, k: nat)
    requires k < |Lines|
  {
    LineOf(b, k, X) || LineOf(b, k, O)
  }

  predicate Full(b: Board) {
    forall i :: 0 <= i < 9 ==> b[i] != Empty
  }

  /** The line test exactly as the source writes it: `board[a]` is non-null and
      equals `board[b]` and `board[c]`. */
  predicate Matches(b: Board, k: nat)
    requires k < |Lines|
  {
    var (i, j, l) := Lines[k];
    b[i] != Empty && b[i] == b[j] && b[i] == b[l]
  }

  /** The source's test is exactly line completeness. */
  lemma MatchesComplete(b: Board, k: nat)
    requires k < |Lines|
    ensures Matches(b, k) <==> LineComplete(b, k)
    ensures Matches(b, k) ==> LineOf(b, k, b[Lines[k].0].mark)
  {
    var (i, j, l) := Lines[k];
    if b[i] != Empty {
      assert LineOf(b, k, b[i].mark) <==> Matches(b, k);
      assert LineOf(b, k, Other(b[i].mark)) ==> b[i] == Filled(Other(b[i].mark));
    }
  }

  /** The search of `checkWinner`, from line `k` on. */
  function WinnerFrom(b: Board, k: nat): (r: Option<Mark>)
    requires k <= |Lines|
    ensures r == None <==> forall j :: k <= j < |Lines| ==> !LineComplete(b, j)
    ensures r.Some? ==> exists j :: k <= j < |Lines| && LineOf(b, j, r.value) &&
                                    forall i :: k <= i < j ==> !LineComplete(b, i)
    decreases |Lines| - k
  {
    if k == |Lines| then None
    else if Matches(b, k) then MatchesComplete(b, k); Some(b[Lines[k].0].mark)
    else MatchesComplete(b, k); WinnerFrom(b, k + 1)
  }

  datatype Option<T> = None | Some(value: T)

  /** `checkWinner`: the mark of the first complete line in list order, if any. */
  function CheckWinner(b: Board): (r: Option<Mark>)
    ensures r == None <==> forall k :: 0 <= k < |Lines| ==> !LineComplete(b, k)
    ensures r.Some? ==> exists k :: 0 <= k < |Lines| && LineOf(b, k, r.value) &&
                                    forall j :: 0 <= j < k ==> !LineComplete(b, j)
  {
    WinnerFrom(b, 0)
  }

  /** `checkDraw`: every square filled and no line complete. */
  function CheckDraw(b: Board): (r: bool)
    ensures r <==> Full(b) && forall k :: 0 <= k < |Lines| ==> !LineComplete(b, k)
  {
    (forall i :: 0 <= i < 9 ==> b[i] != Empty) && CheckWinner(b) == None
  }

  /** The search of `getWinningLine`, from line `k` on. */
  function LineFrom(b: Board, k: nat): (r: seq<nat>)
    requires k <= |Lines|
    ensures r == [] <==> forall j :: k <= j < |Lines| ==> !LineComplete(b, j)
    ensures r != [] ==> exists j :: k <= j < |Lines| && r == [Lines[j].0, Lines[j].1, Lines[j].2] &&
                                    LineComplete(b, j)
    decreases |Lines| - k
  {
    if k == |Lines| then []
    else if Matches(b, k) then MatchesComplete(b, k); [Lines[k].0, Lines[k].1, Lines[k].2]
    else MatchesComplete(b, k); LineFrom(b, k + 1)
  }

  /** `getWinningLine`: empty unless a mark has won; otherwise the indices of a
      complete line, three squares that hold the same mark. */
  function GetWinningLine(b: Board, winner: GameResult): (r: seq<nat>)
    ensures !winner.Won? ==> r == []
    ensures r != [] ==> |r| == 3 && r[0] < 9 && r[1] < 9 && r[2] < 9 &&
                        b[r[0]] != Empty && b[r[0]] == b[r[1]] == b[r[2]]
    ensures winner.Won? && CheckWinner(b).Some? ==> r != []
  {
    if !winner.Won? then [] else LineFrom(b, 0)
  }

  /** Both searches stop at the same line, so the winning line holds the winner's mark. */
  lemma {:induction false} LineFromHoldsWinner(b: Board, k: nat)
    requires k <= |Lines|
    requires WinnerFrom(b, k).Some?
    ensures LineFrom(b, k) != [] && b[LineFrom(b, k)[0]] == Filled(WinnerFrom(b, k).value)
    decreases |Lines| - k
  {
    if !Matches(b, k) {
      LineFromHoldsWinner(b, k + 1);
    }
  }

  lemma WinningLineHoldsWinner(b: Board, m: Mark)
    requires CheckWinner(b) == Some(m)
    ensures var l := GetWinningLine(b, Won(m));
            |l| == 3 && b[l[0]] == b[l[1]] == b[l[2]] == Filled(m)
  {
    LineFromHoldsWinner(b, 0);
  }

  /** A full board either has a winner or is a draw; the two never hold together. */
  lemma DrawExcludesWinner(b: Board)
    ensures CheckDraw(b) ==> CheckWinner(b) == None
    ensures Full(b) ==> CheckDraw(b) || CheckWinner(b).Some?
  {
  }

  function CountOf(b: seq<Square>, m: Mark): (n: nat)
    ensures n <= |b|
  {
    if b == [] then 0 else CountOf(b[..|b| - 1], m) + (if b[|b| - 1] == Filled(m) then 1 else 0)
  }

  /** Placing `m` on an empty square adds one `m` and no other mark. */
  lemma {:induction false} CountAfterPlace(b: seq<Square>, i: nat, m: Mark, n: Mark)
    requires i < |b| && b[i] == Empty
    ensures CountOf(b[i := Filled(m)], n) == CountOf(b, n) + (if n == m then 1 else 0)
    decreases |b|
  {
    var b' := b[i := Filled(m)];
    assert b'[..|b'| - 1] == if i == |b| - 1 then b[..|b| - 1] else b[..|b| - 1][i := Filled(m)];
    if i < |b| - 1 {
      CountAfterPlace(b[..|b| - 1], i, m, n);
    }
  }

  lemma {:induction false} CountEmpty(k: nat, m: Mark)
    ensures CountOf(seq(k, _ => Empty), m) == 0
  {
    if k > 0 {
      assert seq(k, _ => Empty)[..k - 1] == seq(k - 1, _ => Empty);
      CountEmpty(k - 1, m);
    }
  }

  /** The empty board has no winner, is not full and holds no mark. */
  lemma EmptyBoardFresh()
    ensures CheckWinner(EmptyBoard()) == None && !Full(EmptyBoard())
    ensures CountOf(EmptyBoard(), X) == 0 && CountOf(EmptyBoard(), O) == 0
  {
    var e := EmptyBoard();
    CountEmpty(9, X);
    CountEmpty(9, O);
    assert e == seq(9, _ => Empty);
    assert e[0] == Empty;
    forall k | 0 <= k < |Lines| ensures !LineComplete(e, k) {
      assert Lines[k].0 < 9;
      assert e[Lines[k].0] == Empty;
    }
  }

  class Game {
    var board: Board
    var currentPlayer: Mark
    var winner: GameResult
    var status: Status
    var scores: Scores

    /** The game invariant: the result field agrees with the board, the status
        says finished exactly when there is a result, and the marks alternate
        (X moves first; while playing `currentPlayer` is the side to move, once
        finished it is the side that made the last move). */
    ghost predicate Valid()
      reads this
    {
      && (status == Finished <==> winner != NoResult)
      && (winner == NoResult ==> CheckWinner(board) == None && !Full(board))
      && (winner.Won? ==> CheckWinner(board) == Some(winner.mark))
      && (winner == Drawn ==> CheckDraw(board))
      && CountOf(board, X) == CountOf(board, O) +
           (if (status == Playing) == (currentPlayer == O) then 1 else 0)
    }

    constructor (saved: Scores)
      ensures Valid()
      ensures board == EmptyBoard() && currentPlayer == X && winner == NoResult && status == Playing
      ensures scores == saved
    {
      board := EmptyBoard();
      currentPlayer := X;
      winner := NoResult;
      status := Playing;
      scores := saved;
      EmptyBoardFresh();
    }

    /** `handleCellClick`. */
    method HandleCellClick(index: nat)
      requires index < 9
      requires Valid()
      modifies this
      ensures Valid()
      ensures old(board[index] != Empty || winner != NoResult || status == Finished) ==>
                board == old(board) && currentPlayer == old(currentPlayer) && winner == old(winner) &&
                status == old(status) && scores == old(scores)
      ensures old(board[index] == Empty && winner == NoResult && status == Playing) ==>
                && board == old(board)[index := Filled(old(currentPlayer))]
                && (CheckWinner(board).Some? ==>
                      winner == Won(CheckWinner(board).value) && status == Finished &&
                      currentPlayer == old(currentPlayer) &&
                      scores == (if winner.mark == X then old(scores).(x := old(scores).x + 1)
                                 else old(scores).(o := old(scores).o + 1)))
                && (CheckDraw(board) ==>
                      winner == Drawn && status == Finished && currentPlayer == old(currentPlayer) &&
                      scores == old(scores).(draws := old(scores).draws + 1))
                && (CheckWinner(board) == None && !CheckDraw(board) ==>
                      winner == NoResult && status == Playing && scores == old(scores) &&
                      currentPlayer == Other(old(currentPlayer)))
    {
      if board[index] != Empty || winner != NoResult || status == Finished {
        return;
      }
      var newBoard := board[index := Filled(currentPlayer)];
      CountAfterPlace(board, index, currentPlayer, X);
      CountAfterPlace(board, index, currentPlayer, O);
      board := newBoard;

      var newWinner := CheckWinner(newBoard);
      var isDraw := CheckDraw(newBoard);
      if newWinner.Some? || isDraw {
        status := Finished;
        winner := if isDraw then Drawn else Won(newWinner.value);
        if newWinner.Some? {
          if newWinner.value == X {
            scores := scores.(x := scores.x + 1);
          } else {
            scores := scores.(o := scores.o + 1);
          }
        } else {
          scores := scores.(draws := scores.draws + 1);
        }
      } else {
        currentPlayer := if currentPlayer == X then O else X;
      }
    }

    /** `resetGame`: a fresh board with X to move; the scores are kept. */
    method ResetGame()
      modifies this
      ensures Valid()
      ensures board == EmptyBoard() && currentPlayer == X && winner == NoResult && status == Playing
      ensures scores == old(scores)
    {
      board := EmptyBoard();
      currentPlayer := X;
      winner := NoResult;
      status := Playing;
      EmptyBoardFresh();
    }

    /** `resetScores`: all three tallies back to zero; the game is untouched. */
    method ResetScores()
      modifies this`scores
      ensures scores == Scores(0, 0, 0)
    {
      scores := Scores(0, 0, 0);
    }

    /** `getWinningLine` on the current state. */
    method WinningLine() returns (line: seq<nat>)
      requires Valid()
      ensures line == [] <==> !winner.Won?
      ensures winner.Won? ==>
                |line| == 3 && line[0] < 9 && line[1] < 9 && line[2] < 9 &&
                board[line[0]] == board[line[1]] == board[line[2]] == Filled(winner.mark)
    {
      line := GetWinningLine(board, winner);
      if winner.Won? {
        WinningLineHoldsWinner(board, winner.mark);
      }
    }
  }
}
