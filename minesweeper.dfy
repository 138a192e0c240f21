/** Minesweeper on a 10 x 10 board with 15 mines: lazy mine placement on the
    first click that keeps the 3 x 3 block around it clear, neighbour counts,
    reveal with a breadth-first flood fill, flags, and the win check. */
module Minesweeper {

  const Rows: int := 10
  const Cols: int := 10
  const MineCount: int := 15

  datatype Cell = Cell(isMine: bool, isRevealed: bool, isFlagged: bool, neighborMines: int)

  datatype Pos = Pos(r: int, c: int)

  datatype GameState = Playing | Won | Lost

  /** The board is a list of rows, each a list of cells. */
  type Board = seq<seq<Cell>>

  predicate InGrid(p: Pos) {
    0 <= p.r < Rows && 0 <= p.c < Cols
  }

  predicate IsBoard(b: Board) {
    |b| == Rows && forall r :: 0 <= r < Rows ==> |b[r]| == Cols
  }

  function At(b: Board, p: Pos): Cell
    requires IsBoard(b) && InGrid(p)
  {
    b[p.r][p.c]
  }

  /** The board with the cell at `p` replaced. */
  function Put(b: Board, p: Pos, cell: Cell): (b': Board)
    requires IsBoard(b) && InGrid(p)
    ensures IsBoard(b')
    ensures forall q :: InGrid(q) ==> At(b', q) == if q == p then cell else At(b, q)
  {
    b[p.r := b[p.r][p.c := cell]]
  }

  /** Two boards are equal when they agree on every cell. */
  lemma BoardExt(b1: Board, b2: Board)
    requires IsBoard(b1) && IsBoard(b2)
    requires forall q :: InGrid(q) ==> At(b1, q) == At(b2, q)
    ensures b1 == b2
  {
    forall r | 0 <= r < Rows ensures b1[r] == b2[r] {
      forall c | 0 <= c < Cols ensures b1[r][c] == b2[r][c] {
        assert At(b1, Pos(r, c)) == At(b2, Pos(r, c));
      }
    }
  }

  /** Every cell of the grid. */
  ghost function AllPos(): set<Pos> {
    set r, c | 0 <= r < Rows && 0 <= c < Cols :: Pos(r, c)
  }

  lemma AllPosIsGrid(p: Pos)
    ensures p in AllPos() <==> InGrid(p)
  {
    if InGrid(p) {
      assert p == Pos(p.r, p.c);
    }
  }

  ghost function MineSet(b: Board): set<Pos>
    requires IsBoard(b)
  {
    set p | p in AllPos() && InGrid(p) && At(b, p).isMine
  }

  ghost function FlagSet(b: Board): set<Pos>
    requires IsBoard(b)
  {
    set p | p in AllPos() && InGrid(p) && At(b, p).isFlagged
  }

  ghost function UnrevealedSet(b: Board): set<Pos>
    requires IsBoard(b)
  {
    set p | p in AllPos() && InGrid(p) && !At(b, p).isRevealed
  }

  /** Revealed cells that are not mines: the cells the win check counts. */
  ghost function RevealedSafeSet(b: Board): set<Pos>
    requires IsBoard(b)
  {
    set p | p in AllPos() && InGrid(p) && At(b, p).isRevealed && !At(b, p).isMine
  }

  /** The cell is in the 3 x 3 block centred on the first click. */
  predicate InBlock(p: Pos, fr: int, fc: int) {
    -1 <= p.r - fr <= 1 && -1 <= p.c - fc <= 1
  }

  /** Row-major order: `p` comes before the scan position (r, c). */
  predicate Before(p: Pos, r: int, c: int) {
    p.r < r || (p.r == r && p.c < c)
  }

  function Key(p: Pos): int {
    p.r * Cols + p.c
  }

  // ---------------------------------------------------------------------------
  // Neighbour counts

  /** 1 when `q` is on the board and holds a mine. */
  function MineAt(b: Board, q: Pos): nat
    requires IsBoard(b)
  {
    if InGrid(q) && At(b, q).isMine then 1 else 0
  }

  /** 1 when the cell at offset (dr, dc) from `p` is on the board and holds a mine. */
  function Nb(b: Board, p: Pos, dr: int, dc: int): nat
    requires IsBoard(b)
  {
    MineAt(b, Pos(p.r + dr, p.c + dc))
  }

  /** The number of mines among the in-bounds eight neighbours of `p`. */
  function NeighborMines(b: Board, p: Pos): (n: nat)
    requires IsBoard(b)
    ensures n <= 8
  {
    Nb(b, p, -1, -1) + Nb(b, p, -1, 0) + Nb(b, p, -1, 1) +
    Nb(b, p, 0, -1) + Nb(b, p, 0, 1) +
    Nb(b, p, 1, -1) + Nb(b, p, 1, 0) + Nb(b, p, 1, 1)
  }

  /** What the count loop has seen of row offset `dr` after `n` column offsets. */
  function RowCount(b: Board, p: Pos, dr: int, n: nat): nat
    requires IsBoard(b) && n <= 3
  {
    if n == 0 then 0 else RowCount(b, p, dr, n - 1) + Nb(b, p, dr, n - 2)
  }

  /** What the count loop has seen after `m` full rows of offsets. */
  function BlockCount(b: Board, p: Pos, m: nat): nat
    requires IsBoard(b) && m <= 3
  {
    if m == 0 then 0 else BlockCount(b, p, m - 1) + RowCount(b, p, m - 2, 3)
  }

  lemma RowCountFull(b: Board, p: Pos, dr: int)
    requires IsBoard(b)
    ensures RowCount(b, p, dr, 3) == Nb(b, p, dr, -1) + Nb(b, p, dr, 0) + Nb(b, p, dr, 1)
  {
    assert RowCount(b, p, dr, 1) == Nb(b, p, dr, -1);
    assert RowCount(b, p, dr, 2) == RowCount(b, p, dr, 1) + Nb(b, p, dr, 0);
  }

  /** The nine offsets the loop visits count the cell itself besides its
      neighbours. */
  lemma BlockCountIsNeighbors(b: Board, p: Pos)
    requires IsBoard(b)
    ensures BlockCount(b, p, 3) == NeighborMines(b, p) + MineAt(b, p)
  {
    RowCountFull(b, p, -1);
    RowCountFull(b, p, 0);
    RowCountFull(b, p, 1);
    assert Pos(p.r + 0, p.c + 0) == p;
    assert BlockCount(b, p, 1) == RowCount(b, p, -1, 3);
    assert BlockCount(b, p, 2) == BlockCount(b, p, 1) + RowCount(b, p, 0, 3);
  }

  /** The count loop of `placeMines` for one cell: the nine offsets, skipping
      those off the board. For a cell that is not a mine this is its
      neighbour count. */
  method CountNeighborMines(b: Board, p: Pos) returns (count: nat)
    requires IsBoard(b)
    ensures count == NeighborMines(b, p) + MineAt(b, p)
    ensures InGrid(p) && !At(b, p).isMine ==> count == NeighborMines(b, p)
  {
    count := 0;
    var dr := -1;
    while dr <= 1
      invariant -1 <= dr <= 2
      invariant count == BlockCount(b, p, dr + 1)
    {
      var dc := -1;
      while dc <= 1
        invariant -1 <= dc <= 2
        invariant count == BlockCount(b, p, dr + 1) + RowCount(b, p, dr, dc + 1)
      {
        var nr := p.r + dr;
        var nc := p.c + dc;
        if nr >= 0 && nr < Rows && nc >= 0 && nc < Cols && b[nr][nc].isMine {
          count := count + 1;
        }
        dc := dc + 1;
      }
      dr := dr + 1;
    }
    BlockCountIsNeighbors(b, p);
  }

  /** Every cell that is not a mine carries the count of its neighbouring mines. */
  ghost predicate CountsCorrect(b: Board)
    requires IsBoard(b)
  {
    forall p :: InGrid(p) && !At(b, p).isMine ==> At(b, p).neighborMines == NeighborMines(b, p)
  }

  // ---------------------------------------------------------------------------
  // Board construction and mine placement

  function EmptyCell(): Cell {
    Cell(false, false, false, 0)
  }

  /** `createEmptyBoard`. */
  function CreateEmptyBoard(): (b: Board)
    ensures IsBoard(b)
    ensures forall p :: InGrid(p) ==> At(b, p) == EmptyCell()
  {
    seq(Rows, _ => seq(Cols, _ => EmptyCell()))
  }

  /** On the empty board nothing is a mine, flagged or revealed, and every
      count is right. */
  lemma EmptyBoardFacts()
    ensures MineSet(CreateEmptyBoard()) == {} && FlagSet(CreateEmptyBoard()) == {}
    ensures RevealedSafeSet(CreateEmptyBoard()) == {}
    ensures CountsCorrect(CreateEmptyBoard())
  {
    var b := CreateEmptyBoard();
    MineSetMember(b);
  }

  /** Number of k in [0, n) within one of f. */
  function Excluded(f: int, n: int): int {
    var lo := if f - 1 < 0 then 0 else f - 1;
    var hi := if n < f + 2 then n else f + 2;
    if hi > lo then hi - lo else 0
  }

  lemma ExcludedStep(f: int, n: int)
    requires n >= 0
    ensures Excluded(f, n + 1) == Excluded(f, n) + (if -1 <= n - f <= 1 then 1 else 0)
  {
  }

  lemma ExcludedOnBoard(f: int)
    requires 0 <= f < 10
    ensures Excluded(f, 10) == 2 || Excluded(f, 10) == 3
  {
  }

  /** The cells of row `r` left of column `c` outside the block around (fr, fc), left to right. */
  function RowCells(r: int, fr: int, fc: int, c: nat): seq<Pos> {
    if c == 0 then []
    else RowCells(r, fr, fc, c - 1) + (if -1 <= r - fr <= 1 && -1 <= c - 1 - fc <= 1 then [] else [Pos(r, c - 1)])
  }

  lemma {:induction false} RowCellsLength(r: int, fr: int, fc: int, c: nat)
    ensures |RowCells(r, fr, fc, c)| == c - (if -1 <= r - fr <= 1 then Excluded(fc, c) else 0)
  {
    if c > 0 {
      RowCellsLength(r, fr, fc, c - 1);
      ExcludedStep(fc, c - 1);
    }
  }

  lemma {:induction false} RowCellsSound(r: int, fr: int, fc: int, c: nat)
    requires c <= Cols
    ensures forall i :: 0 <= i < |RowCells(r, fr, fc, c)| ==>
              RowCells(r, fr, fc, c)[i].r == r && 0 <= RowCells(r, fr, fc, c)[i].c < c &&
              !InBlock(RowCells(r, fr, fc, c)[i], fr, fc)
    ensures forall i, j :: 0 <= i < j < |RowCells(r, fr, fc, c)| ==>
              RowCells(r, fr, fc, c)[i].c < RowCells(r, fr, fc, c)[j].c
  {
    if c > 0 {
      RowCellsSound(r, fr, fc, c - 1);
      var front := RowCells(r, fr, fc, c - 1);
      var row := RowCells(r, fr, fc, c);
      assert forall i :: 0 <= i < |front| ==> row[i] == front[i];
    }
  }

  lemma {:induction false} RowCellsComplete(r: int, fr: int, fc: int, c: nat)
    ensures forall p: Pos :: p.r == r && 0 <= p.c < c && !InBlock(p, fr, fc) ==> p in RowCells(r, fr, fc, c)
  {
    if c > 0 {
      RowCellsComplete(r, fr, fc, c - 1);
      var front := RowCells(r, fr, fc, c - 1);
      var row := RowCells(r, fr, fc, c);
      assert forall p :: p in front ==> p in row;
      assert forall p: Pos :: p.r == r && p.c == c - 1 ==> p == Pos(r, c - 1);
    }
  }

  /** The candidates of one row: its cells outside the block, left to right. */
  method RowCandidates(r: int, fr: int, fc: int) returns (row: seq<Pos>)
    requires 0 <= r < Rows && InGrid(Pos(fr, fc))
    ensures row == RowCells(r, fr, fc, Cols)
    ensures |row| == Cols - (if -1 <= r - fr <= 1 then Excluded(fc, Cols) else 0)
    ensures forall i :: 0 <= i < |row| ==> row[i].r == r && InGrid(row[i]) && !InBlock(row[i], fr, fc)
    ensures forall i, j :: 0 <= i < j < |row| ==> row[i].c < row[j].c
    ensures forall p :: InGrid(p) && !InBlock(p, fr, fc) && p.r == r ==> p in row
  {
    row := [];
    var c := 0;
    while c < Cols
      invariant 0 <= c <= Cols
      invariant row == RowCells(r, fr, fc, c)
    {
      if -1 <= r - fr <= 1 && -1 <= c - fc <= 1 {
        c := c + 1;
        continue;
      }
      row := row + [Pos(r, c)];
      c := c + 1;
    }
    RowCellsLength(r, fr, fc, Cols);
    RowCellsSound(r, fr, fc, Cols);
    RowCellsComplete(r, fr, fc, Cols);
  }

  /** The cells of the rows above `r` outside the block around (fr, fc), in row-major order. */
  function GridCells(fr: int, fc: int, r: nat): seq<Pos> {
    if r == 0 then [] else GridCells(fr, fc, r - 1) + RowCells(r - 1, fr, fc, Cols)
  }

  lemma {:induction false} GridCellsLength(fr: int, fc: int, r: nat)
    ensures |GridCells(fr, fc, r)| == Cols * r - Excluded(fc, Cols) * Excluded(fr, r)
  {
    if r > 0 {
      GridCellsLength(fr, fc, r - 1);
      RowCellsLength(r - 1, fr, fc, Cols);
      ExcludedStep(fr, r - 1);
      var d := if -1 <= r - 1 - fr <= 1 then 1 else 0;
      MulStep(Excluded(fc, Cols), Excluded(fr, r - 1), d);
    }
  }

  lemma MulStep(e: int, x: int, d: int)
    ensures e * (x + d) == e * x + e * d
  {
  }

  lemma {:induction false} GridCellsSound(fr: int, fc: int, r: nat)
    requires r <= Rows
    ensures forall i :: 0 <= i < |GridCells(fr, fc, r)| ==>
              InGrid(GridCells(fr, fc, r)[i]) && !InBlock(GridCells(fr, fc, r)[i], fr, fc) &&
              GridCells(fr, fc, r)[i].r < r
    ensures forall i, j :: 0 <= i < j < |GridCells(fr, fc, r)| ==>
              Key(GridCells(fr, fc, r)[i]) < Key(GridCells(fr, fc, r)[j])
  {
    if r > 0 {
      GridCellsSound(fr, fc, r - 1);
      RowCellsSound(r - 1, fr, fc, Cols);
      var front, row := GridCells(fr, fc, r - 1), RowCells(r - 1, fr, fc, Cols);
      var ps := GridCells(fr, fc, r);
      assert forall i :: 0 <= i < |front| ==> ps[i] == front[i];
      assert forall i :: |front| <= i < |ps| ==> ps[i] == row[i - |front|];
      forall i, j | 0 <= i < j < |ps| ensures Key(ps[i]) < Key(ps[j]) {
        if j >= |front| && i < |front| {
          assert ps[i] == front[i] && ps[j] == row[j - |front|];
        } else if i >= |front| {
          assert ps[i] == row[i - |front|] && ps[j] == row[j - |front|];
        }
      }
    }
  }

  lemma {:induction false} GridCellsComplete(fr: int, fc: int, r: nat)
    ensures forall p: Pos :: 0 <= p.r < r && 0 <= p.c < Cols && !InBlock(p, fr, fc) ==> p in GridCells(fr, fc, r)
  {
    if r > 0 {
      GridCellsComplete(fr, fc, r - 1);
      RowCellsComplete(r - 1, fr, fc, Cols);
      var front, row := GridCells(fr, fc, r - 1), RowCells(r - 1, fr, fc, Cols);
      assert forall p :: p in front ==> p in front + row;
      assert forall p :: p in row ==> p in front + row;
    }
  }

  /** The candidate list of `placeMines`: every cell outside the first
      click's block, in row-major order. */
  method Candidates(fr: int, fc: int) returns (positions: seq<Pos>)
    requires InGrid(Pos(fr, fc))
    ensures |positions| == Rows * Cols - Excluded(fr, Rows) * Excluded(fc, Cols)
    ensures 91 <= |positions| <= 96
    ensures forall i :: 0 <= i < |positions| ==> InGrid(positions[i]) && !InBlock(positions[i], fr, fc)
    ensures forall i, j :: 0 <= i < j < |positions| ==> Key(positions[i]) < Key(positions[j])
    ensures forall p :: InGrid(p) && !InBlock(p, fr, fc) ==> p in positions
  {
    positions := [];
    var r := 0;
    while r < Rows
      invariant 0 <= r <= Rows
      invariant positions == GridCells(fr, fc, r)
    {
      var row := RowCandidates(r, fr, fc);
      positions := positions + row;
      r := r + 1;
    }
    GridCellsLength(fr, fc, Rows);
    GridCellsSound(fr, fc, Rows);
    GridCellsComplete(fr, fc, Rows);
    ExcludedOnBoard(fr);
    ExcludedOnBoard(fc);
  }

  /** `Math.floor(x * n)` for a random `x` in [0, 1) is an index of a list of length n. */
  lemma FloorIndex(x: real, n: nat)
    requires 0.0 <= x < 1.0 && n > 0
    ensures 0 <= (x * n as real).Floor < n
  {
    assert x * n as real < n as real by {
      assert (n as real) - x * (n as real) == (1.0 - x) * (n as real);
    }
  }

  /** The board differs from the other only in the mine flags of some cells. */
  ghost predicate SameExceptMines(b1: Board, b2: Board)
    requires IsBoard(b1) && IsBoard(b2)
  {
    forall q :: InGrid(q) ==>
      At(b1, q).isRevealed == At(b2, q).isRevealed && At(b1, q).isFlagged == At(b2, q).isFlagged &&
      At(b1, q).neighborMines == At(b2, q).neighborMines
  }

  lemma MineSetMember(b: Board)
    requires IsBoard(b)
    ensures forall q :: q in MineSet(b) <==> InGrid(q) && At(b, q).isMine
  {
    forall q ensures q in MineSet(b) <==> InGrid(q) && At(b, q).isMine {
      AllPosIsGrid(q);
    }
  }

  lemma MineSetAdd(b: Board, p: Pos)
    requires IsBoard(b) && InGrid(p) && !At(b, p).isMine
    ensures var b' := Put(b, p, At(b, p).(isMine := true));
            MineSet(b') == MineSet(b) + {p} && p !in MineSet(b) && |MineSet(b')| == |MineSet(b)| + 1
  {
    AllPosIsGrid(p);
    var b' := Put(b, p, At(b, p).(isMine := true));
    assert MineSet(b') == MineSet(b) + {p};
  }

  /** The cells still to draw from: distinct, on the board, outside the
      block and not yet mines. */
  ghost predicate Pool(b: Board, positions: seq<Pos>, fr: int, fc: int)
    requires IsBoard(b)
  {
    && (forall k :: 0 <= k < |positions| ==>
          InGrid(positions[k]) && !InBlock(positions[k], fr, fc) && !At(b, positions[k]).isMine)
    && (forall k, l :: 0 <= k < l < |positions| ==> positions[k] != positions[l])
  }

  /** Turning one pool cell into a mine and taking it out keeps the pool,
      adds one mine and leaves the block clear. */
  lemma DrawStep(b: Board, positions: seq<Pos>, fr: int, fc: int, i: int)
    requires IsBoard(b) && Pool(b, positions, fr, fc) && 0 <= i < |positions|
    requires forall q :: InGrid(q) && InBlock(q, fr, fc) ==> !At(b, q).isMine
    ensures var p := positions[i];
            var b' := Put(b, p, At(b, p).(isMine := true));
            && Pool(b', positions[..i] + positions[i + 1..], fr, fc)
            && |MineSet(b')| == |MineSet(b)| + 1
            && SameExceptMines(b, b')
            && forall q :: InGrid(q) && InBlock(q, fr, fc) ==> !At(b', q).isMine
  {
    var p := positions[i];
    MineSetAdd(b, p);
    PoolTake(b, positions, fr, fc, i, Put(b, p, At(b, p).(isMine := true)));
  }

  /** Taking pool cell `i` out after it became a mine leaves a pool. */
  lemma PoolTake(b: Board, positions: seq<Pos>, fr: int, fc: int, i: int, b': Board)
    requires IsBoard(b) && Pool(b, positions, fr, fc) && 0 <= i < |positions|
    requires b' == Put(b, positions[i], At(b, positions[i]).(isMine := true))
    ensures Pool(b', positions[..i] + positions[i + 1..], fr, fc)
  {
    var rest := positions[..i] + positions[i + 1..];
    forall k | 0 <= k < |rest| ensures rest[k] == positions[if k < i then k else k + 1] {
    }
  }

  /** The random draw of `placeMines`: fifteen cells taken out of the candidate
      list, each at index `floor(rand[i] * length)`. */
  method DrawMines(b: Board, fr: int, fc: int, rand: seq<real>) returns (b': Board)
    requires IsBoard(b) && InGrid(Pos(fr, fc))
    requires MineSet(b) == {}
    requires |rand| == MineCount && forall i :: 0 <= i < |rand| ==> 0.0 <= rand[i] < 1.0
    ensures IsBoard(b') && SameExceptMines(b, b')
    ensures |MineSet(b')| == MineCount
    ensures forall q :: InGrid(q) && InBlock(q, fr, fc) ==> !At(b', q).isMine
  {
    var positions := Candidates(fr, fc);
    MineSetMember(b);
    assert forall k, l :: 0 <= k < l < |positions| ==> Key(positions[k]) < Key(positions[l]);
    b' := b;
    var i := 0;
    while i < MineCount
      invariant 0 <= i <= MineCount
      invariant IsBoard(b') && SameExceptMines(b, b')
      invariant |positions| >= 91 - i
      invariant Pool(b', positions, fr, fc)
      invariant |MineSet(b')| == i
      invariant forall q :: InGrid(q) && InBlock(q, fr, fc) ==> !At(b', q).isMine
    {
      FloorIndex(rand[i], |positions|);
      var randomIndex := (rand[i] * |positions| as real).Floor;
      var p := positions[randomIndex];
      DrawStep(b', positions, fr, fc, randomIndex);
      b' := Put(b', p, b'[p.r][p.c].(isMine := true));
      positions := positions[..randomIndex] + positions[randomIndex + 1..];
      i := i + 1;
    }
  }

  /** The board differs from the other only in the counts of cells that are
      not mines. */
  ghost predicate SameExceptCounts(b1: Board, b2: Board)
    requires IsBoard(b1) && IsBoard(b2)
  {
    forall q :: InGrid(q) ==>
      At(b1, q).isMine == At(b2, q).isMine && At(b1, q).isRevealed == At(b2, q).isRevealed &&
      At(b1, q).isFlagged == At(b2, q).isFlagged &&
      (At(b1, q).isMine ==> At(b1, q).neighborMines == At(b2, q).neighborMines)
  }

  lemma NeighborMinesSameMines(b1: Board, b2: Board, p: Pos)
    requires IsBoard(b1) && IsBoard(b2)
    requires forall q :: InGrid(q) ==> At(b1, q).isMine == At(b2, q).isMine
    ensures NeighborMines(b1, p) == NeighborMines(b2, p)
  {
    NbSameMines(b1, b2, p, -1, -1);
    NbSameMines(b1, b2, p, -1, 0);
    NbSameMines(b1, b2, p, -1, 1);
    NbSameMines(b1, b2, p, 0, -1);
    NbSameMines(b1, b2, p, 0, 1);
    NbSameMines(b1, b2, p, 1, -1);
    NbSameMines(b1, b2, p, 1, 0);
    NbSameMines(b1, b2, p, 1, 1);
  }

  lemma NbSameMines(b1: Board, b2: Board, p: Pos, dr: int, dc: int)
    requires IsBoard(b1) && IsBoard(b2)
    requires forall q :: InGrid(q) ==> At(b1, q).isMine == At(b2, q).isMine
    ensures Nb(b1, p, dr, dc) == Nb(b2, p, dr, dc)
  {
    var q := Pos(p.r + dr, p.c + dc);
    if InGrid(q) {
      assert At(b1, q).isMine == At(b2, q).isMine;
    }
  }

  lemma MineSetSameMines(b1: Board, b2: Board)
    requires IsBoard(b1) && IsBoard(b2)
    requires forall q :: InGrid(q) ==> At(b1, q).isMine == At(b2, q).isMine
    ensures MineSet(b1) == MineSet(b2)
  {
  }

  /** Writing the count of cell (r, c) moves the scan position one cell on. */
  lemma CountStep(b: Board, b': Board, r: int, c: int, count: nat)
    requires IsBoard(b) && IsBoard(b') && InGrid(Pos(r, c)) && SameExceptCounts(b, b')
    requires !At(b', Pos(r, c)).isMine && count == NeighborMines(b', Pos(r, c))
    requires forall q :: InGrid(q) && !At(b, q).isMine ==>
               At(b', q).neighborMines == if Before(q, r, c) then NeighborMines(b, q) else At(b, q).neighborMines
    ensures var b'' := Put(b', Pos(r, c), At(b', Pos(r, c)).(neighborMines := count));
            && SameExceptCounts(b, b'')
            && forall q :: InGrid(q) && !At(b, q).isMine ==>
                 At(b'', q).neighborMines == if Before(q, r, c + 1) then NeighborMines(b, q) else At(b, q).neighborMines
  {
    NeighborMinesSameMines(b, b', Pos(r, c));
  }

  /** One row of the count pass: the cells of row `r` that are not mines get
      their neighbour counts. */
  method CountRow(b: Board, b0: Board, r: int) returns (b': Board)
    requires IsBoard(b) && IsBoard(b0) && SameExceptCounts(b, b0) && 0 <= r < Rows
    requires forall q :: InGrid(q) && !At(b, q).isMine ==>
               At(b0, q).neighborMines == if q.r < r then NeighborMines(b, q) else At(b, q).neighborMines
    ensures IsBoard(b') && SameExceptCounts(b, b')
    ensures forall q :: InGrid(q) && !At(b, q).isMine ==>
              At(b', q).neighborMines == if q.r < r + 1 then NeighborMines(b, q) else At(b, q).neighborMines
  {
    b' := b0;
    var c := 0;
    while c < Cols
      invariant 0 <= c <= Cols
      invariant IsBoard(b') && SameExceptCounts(b, b')
      invariant forall q :: InGrid(q) && !At(b, q).isMine ==>
                  At(b', q).neighborMines == if Before(q, r, c) then NeighborMines(b, q) else At(b, q).neighborMines
    {
      if !b'[r][c].isMine {
        var count := CountNeighborMines(b', Pos(r, c));
        CountStep(b, b', r, c, count);
        b' := Put(b', Pos(r, c), b'[r][c].(neighborMines := count));
      } else {
        CountSkip(b, b', r, c);
      }
      c := c + 1;
    }
    CountRowDone(b, b', r);
  }

  /** A mine is passed over by the count pass. */
  lemma CountSkip(b: Board, b': Board, r: int, c: int)
    requires IsBoard(b) && IsBoard(b') && InGrid(Pos(r, c)) && SameExceptCounts(b, b') && At(b', Pos(r, c)).isMine
    requires forall q :: InGrid(q) && !At(b, q).isMine ==>
               At(b', q).neighborMines == if Before(q, r, c) then NeighborMines(b, q) else At(b, q).neighborMines
    ensures forall q :: InGrid(q) && !At(b, q).isMine ==>
              At(b', q).neighborMines == if Before(q, r, c + 1) then NeighborMines(b, q) else At(b, q).neighborMines
  {
    forall q | InGrid(q) && !At(b, q).isMine
      ensures At(b', q).neighborMines == if Before(q, r, c + 1) then NeighborMines(b, q) else At(b, q).neighborMines
    {
      assert q != Pos(r, c);
    }
  }

  /** Once its last column is done, the count pass has done every row up to and including `r`. */
  lemma CountRowDone(b: Board, b': Board, r: int)
    requires IsBoard(b) && IsBoard(b')
    requires forall q :: InGrid(q) && !At(b, q).isMine ==>
               At(b', q).neighborMines == if Before(q, r, Cols) then NeighborMines(b, q) else At(b, q).neighborMines
    ensures forall q :: InGrid(q) && !At(b, q).isMine ==>
              At(b', q).neighborMines == if q.r < r + 1 then NeighborMines(b, q) else At(b, q).neighborMines
  {
    forall q | InGrid(q) && !At(b, q).isMine
      ensures At(b', q).neighborMines == if q.r < r + 1 then NeighborMines(b, q) else At(b, q).neighborMines
    {
      assert Before(q, r, Cols) <==> q.r < r + 1;
    }
  }

  /** The count pass of `placeMines`: every cell that is not a mine gets its
      neighbour count, computed on the board as it stands. */
  method ComputeCounts(b: Board) returns (b': Board)
    requires IsBoard(b)
    ensures IsBoard(b') && SameExceptCounts(b, b')
    ensures CountsCorrect(b')
  {
    b' := b;
    var r := 0;
    while r < Rows
      invariant 0 <= r <= Rows
      invariant IsBoard(b') && SameExceptCounts(b, b')
      invariant forall q :: InGrid(q) && !At(b, q).isMine ==>
                  At(b', q).neighborMines == if q.r < r then NeighborMines(b, q) else At(b, q).neighborMines
    {
      b' := CountRow(b, b', r);
      r := r + 1;
    }
    forall p | InGrid(p) && !At(b', p).isMine ensures At(b', p).neighborMines == NeighborMines(b', p) {
      NeighborMinesSameMines(b, b', p);
    }
  }

  /** `placeMines`: fifteen mines outside the block of the first click, then
      the neighbour counts. Reveal and flag marks are left as they were. */
  method PlaceMines(b: Board, firstRow: int, firstCol: int, rand: seq<real>) returns (b': Board)
    requires IsBoard(b) && InGrid(Pos(firstRow, firstCol))
    requires MineSet(b) == {}
    requires |rand| == MineCount && forall i :: 0 <= i < |rand| ==> 0.0 <= rand[i] < 1.0
    ensures IsBoard(b')
    ensures |MineSet(b')| == MineCount
    ensures forall q :: InGrid(q) && InBlock(q, firstRow, firstCol) ==> !At(b', q).isMine
    ensures CountsCorrect(b')
    ensures forall q :: InGrid(q) ==>
              At(b', q).isRevealed == At(b, q).isRevealed && At(b', q).isFlagged == At(b, q).isFlagged
  {
    var mined := DrawMines(b, firstRow, firstCol, rand);
    b' := ComputeCounts(mined);
    MineSetSameMines(mined, b');
  }

  /** The first click always opens a cell without neighbouring mines, so the
      flood fill runs from it. */
  lemma FirstClickIsClear(b: Board, p: Pos)
    requires IsBoard(b) && InGrid(p) && CountsCorrect(b)
    requires forall q :: InGrid(q) && InBlock(q, p.r, p.c) ==> !At(b, q).isMine
    ensures !At(b, p).isMine && At(b, p).neighborMines == 0
  {
    assert InBlock(p, p.r, p.c);
  }

  /** The loop of `revealCell` after a mine is hit: every mine is revealed
      and no other cell changes. */
  method RevealAllMines(b: Board) returns (b': Board)
    requires IsBoard(b)
    ensures IsBoard(b')
    ensures forall q :: InGrid(q) ==>
              At(b', q) == if At(b, q).isMine then At(b, q).(isRevealed := true) else At(b, q)
  {
    b' := b;
    var r := 0;
    while r < Rows
      invariant 0 <= r <= Rows
      invariant IsBoard(b')
      invariant forall q :: InGrid(q) ==>
                  At(b', q) == if q.r < r && At(b, q).isMine then At(b, q).(isRevealed := true) else At(b, q)
    {
      var c := 0;
      while c < Cols
        invariant 0 <= c <= Cols
        invariant IsBoard(b')
        invariant forall q :: InGrid(q) ==>
                    At(b', q) == if Before(q, r, c) && At(b, q).isMine then At(b, q).(isRevealed := true) else At(b, q)
      {
        if b'[r][c].isMine {
          b' := Put(b', Pos(r, c), b'[r][c].(isRevealed := true));
        }
        c := c + 1;
      }
      r := r + 1;
    }
  }

  /** Flags placed on mines: counted by the win check, though not used. */
  ghost function CorrectFlagSet(b: Board): set<Pos>
    requires IsBoard(b)
  {
    set p | p in AllPos() && InGrid(p) && At(b, p).isFlagged && At(b, p).isMine
  }

  ghost function RevealedSafeBefore(b: Board, r: int, c: int): set<Pos>
    requires IsBoard(b)
  {
    set p | p in AllPos() && InGrid(p) && Before(p, r, c) && At(b, p).isRevealed && !At(b, p).isMine
  }

  ghost function CorrectFlagsBefore(b: Board, r: int, c: int): set<Pos>
    requires IsBoard(b)
  {
    set p | p in AllPos() && InGrid(p) && Before(p, r, c) && At(b, p).isFlagged && At(b, p).isMine
  }

  /** Moving the scan position one cell on passes exactly that cell. */
  lemma BeforeStep(r: int, c: int)
    ensures forall x: Pos :: Before(x, r, c + 1) <==> Before(x, r, c) || x == Pos(r, c)
  {
    forall x: Pos ensures Before(x, r, c + 1) <==> Before(x, r, c) || x == Pos(r, c) {
      assert x == Pos(r, c) <==> x.r == r && x.c == c;
    }
  }

  /** Scanning one more cell adds it to the revealed safe cells when it qualifies. */
  lemma ScanStepRevealed(b: Board, r: int, c: int)
    requires IsBoard(b) && InGrid(Pos(r, c))
    ensures var cell := At(b, Pos(r, c));
            |RevealedSafeBefore(b, r, c + 1)| ==
              |RevealedSafeBefore(b, r, c)| + (if cell.isRevealed && !cell.isMine then 1 else 0)
  {
    var p := Pos(r, c);
    AllPosIsGrid(p);
    BeforeStep(r, c);
    var cell := At(b, p);
    if cell.isRevealed && !cell.isMine {
      assert RevealedSafeBefore(b, r, c + 1) == RevealedSafeBefore(b, r, c) + {p};
    } else {
      assert RevealedSafeBefore(b, r, c + 1) == RevealedSafeBefore(b, r, c);
    }
  }

  /** Scanning one more cell adds it to the correct flags when it qualifies. */
  lemma ScanStepFlags(b: Board, r: int, c: int)
    requires IsBoard(b) && InGrid(Pos(r, c))
    ensures var cell := At(b, Pos(r, c));
            |CorrectFlagsBefore(b, r, c + 1)| ==
              |CorrectFlagsBefore(b, r, c)| + (if cell.isFlagged && cell.isMine then 1 else 0)
  {
    var p := Pos(r, c);
    AllPosIsGrid(p);
    BeforeStep(r, c);
    var cell := At(b, p);
    if cell.isFlagged && cell.isMine {
      assert CorrectFlagsBefore(b, r, c + 1) == CorrectFlagsBefore(b, r, c) + {p};
    } else {
      assert CorrectFlagsBefore(b, r, c + 1) == CorrectFlagsBefore(b, r, c);
    }
  }

  lemma ScanRowDone(b: Board, r: int)
    requires IsBoard(b)
    ensures RevealedSafeBefore(b, r, Cols) == RevealedSafeBefore(b, r + 1, 0)
    ensures CorrectFlagsBefore(b, r, Cols) == CorrectFlagsBefore(b, r + 1, 0)
  {
  }

  lemma ScanDone(b: Board)
    requires IsBoard(b)
    ensures RevealedSafeBefore(b, Rows, 0) == RevealedSafeSet(b)
    ensures CorrectFlagsBefore(b, Rows, 0) == CorrectFlagSet(b)
  {
  }

  /** The counting loop of the win check. */
  method WinCounts(b: Board) returns (revealedCount: nat, correctFlags: nat)
    requires IsBoard(b)
    ensures revealedCount == |RevealedSafeSet(b)|
    ensures correctFlags == |CorrectFlagSet(b)|
  {
    revealedCount, correctFlags := 0, 0;
    var r := 0;
    while r < Rows
      invariant 0 <= r <= Rows
      invariant revealedCount == |RevealedSafeBefore(b, r, 0)|
      invariant correctFlags == |CorrectFlagsBefore(b, r, 0)|
    {
      var c := 0;
      while c < Cols
        invariant 0 <= c <= Cols
        invariant revealedCount == |RevealedSafeBefore(b, r, c)|
        invariant correctFlags == |CorrectFlagsBefore(b, r, c)|
      {
        ScanStepRevealed(b, r, c);
        ScanStepFlags(b, r, c);
        var cell := b[r][c];
        if cell.isRevealed && !cell.isMine {
          revealedCount := revealedCount + 1;
        }
        if cell.isFlagged && cell.isMine {
          correctFlags := correctFlags + 1;
        }
        c := c + 1;
      }
      ScanRowDone(b, r);
      r := r + 1;
    }
    ScanDone(b);
  }

  // ---------------------------------------------------------------------------
  // Flood fill

  /** A cell the flood fill will not open: already open, flagged, or a mine. */
  predicate Handled(cell: Cell) {
    cell.isRevealed || cell.isFlagged || cell.isMine
  }

  /** `b2` follows `b1` by opening cells only: nothing else changes, nothing
      is closed again, and every newly clicked cell is a mine-free cell that
      was not flagged. */
  ghost predicate Grows(b1: Board, b2: Board)
    requires IsBoard(b1) && IsBoard(b2)
  {
    forall q :: InGrid(q) ==>
      && At(b2, q).isMine == At(b1, q).isMine
      && At(b2, q).isFlagged == At(b1, q).isFlagged
      && At(b2, q).neighborMines == At(b1, q).neighborMines
      && (At(b1, q).isRevealed ==> At(b2, q).isRevealed)
      && (At(b2, q).isRevealed && !At(b1, q).isRevealed ==> !At(b1, q).isMine && !At(b1, q).isFlagged)
  }

  /** The queue is the tail of everything pushed so far; every pushed cell
      is open, mine-free and without neighbouring mines, and none was pushed
      twice. */
  ghost predicate QueueShape(nb: Board, queue: seq<Pos>, zone: seq<Pos>, start: Pos)
    requires IsBoard(nb)
  {
    && |zone| >= 1 && zone[0] == start
    && |queue| <= |zone| && queue == zone[|zone| - |queue|..]
    && (forall i :: 0 <= i < |zone| ==>
          InGrid(zone[i]) && At(nb, zone[i]).isRevealed && !At(nb, zone[i]).isMine &&
          At(nb, zone[i]).neighborMines == 0)
    && (forall i, j :: 0 <= i < j < |zone| ==> zone[i] != zone[j])
  }

  /** The first `n` pushed cells have every cell of their 3 x 3 block handled. */
  ghost predicate Closed(nb: Board, zone: seq<Pos>, n: int)
    requires IsBoard(nb) && 0 <= n <= |zone|
  {
    forall i, q :: 0 <= i < n && InGrid(q) && InBlock(q, zone[i].r, zone[i].c) ==> Handled(At(nb, q))
  }

  /** Visiting order of the offsets of `q` around `p`, 0 to 8. */
  function OffsetIndex(q: Pos, p: Pos): int {
    3 * (q.r - p.r + 1) + (q.c - p.c + 1)
  }

  /** The first `j` offsets around `cur` are handled. */
  ghost predicate PartClosed(nb: Board, cur: Pos, j: int)
    requires IsBoard(nb)
  {
    forall q :: InGrid(q) && InBlock(q, cur.r, cur.c) && OffsetIndex(q, cur) < j ==> Handled(At(nb, q))
  }

  /** Every cell clicked since `b` lies next to one of the first `n` pushed cells. */
  ghost predicate Explained(b: Board, nb: Board, zone: seq<Pos>, n: int)
    requires IsBoard(b) && IsBoard(nb) && 0 <= n <= |zone|
  {
    forall q :: InGrid(q) && At(nb, q).isRevealed && !At(b, q).isRevealed ==>
      exists i :: 0 <= i < n && InBlock(q, zone[i].r, zone[i].c)
  }

  /** Every cell opened since `b` that has no neighbouring mines was pushed. */
  ghost predicate Pushed(b: Board, nb: Board, zone: seq<Pos>)
    requires IsBoard(b) && IsBoard(nb)
  {
    forall q :: InGrid(q) && At(nb, q).isRevealed && !At(b, q).isRevealed && At(nb, q).neighborMines == 0 ==> q in zone
  }

  /** A way the fill can spread from `start`: each step goes to a cell of the
      3 x 3 block around the one before that was closed, unflagged and safe
      in `b`, and every cell between the start and the last has no
      neighbouring mines. */
  ghost predicate FillPath(b: Board, start: Pos, path: seq<Pos>)
    requires IsBoard(b)
  {
    && |path| >= 1 && path[0] == start
    && (forall i :: 1 <= i < |path| ==>
          InGrid(path[i]) && !Handled(At(b, path[i])) && InBlock(path[i], path[i - 1].r, path[i - 1].c))
    && (forall i :: 1 <= i < |path| - 1 ==> At(b, path[i]).neighborMines == 0)
  }

  /** A fill whose pushed cells are closed and which pushed every zero cell
      it opened reaches the end of every path: that cell is open, and pushed
      when it has no neighbouring mines. */
  lemma {:induction false} FillReaches(b: Board, nb: Board, zone: seq<Pos>, start: Pos, path: seq<Pos>)
    requires IsBoard(b) && IsBoard(nb) && Grows(b, nb)
    requires |zone| >= 1 && zone[0] == start && Closed(nb, zone, |zone|) && Pushed(b, nb, zone)
    requires FillPath(b, start, path) && |path| >= 2
    ensures At(nb, path[|path| - 1]).isRevealed
    ensures At(b, path[|path| - 1]).neighborMines == 0 ==> path[|path| - 1] in zone
    decreases |path|
  {
    var n := |path|;
    var prev, last := path[n - 2], path[n - 1];
    if n > 2 {
      var front := path[..n - 1];
      assert forall i :: 0 <= i < n - 1 ==> front[i] == path[i];
      FillReaches(b, nb, zone, start, front);
      assert front[n - 2] == prev;
    }
    assert prev in zone;
    var k :| 0 <= k < |zone| && zone[k] == prev;
    assert InGrid(last) && InBlock(last, zone[k].r, zone[k].c);
    assert Handled(At(nb, last));
  }

  /** Every pushed cell after the start was closed, unflagged and safe in
      `b`, and lies next to a cell pushed before it. */
  ghost predicate Linked(b: Board, zone: seq<Pos>)
    requires IsBoard(b)
  {
    forall i :: 1 <= i < |zone| ==>
      InGrid(zone[i]) && !Handled(At(b, zone[i])) &&
      exists j :: 0 <= j < i && InBlock(zone[i], zone[j].r, zone[j].c)
  }

  /** The fill can spread from `start` to `q`. */
  ghost predicate Reaches(b: Board, start: Pos, q: Pos)
    requires IsBoard(b)
  {
    exists path :: FillPath(b, start, path) && |path| >= 2 && path[|path| - 1] == q
  }

  /** A path extends by a closed, unflagged safe neighbour of its last cell
      when that cell is the start or has no neighbouring mines. */
  lemma ExtendPath(b: Board, start: Pos, front: seq<Pos>, q: Pos)
    requires IsBoard(b) && FillPath(b, start, front)
    requires InGrid(q) && !Handled(At(b, q)) && InBlock(q, front[|front| - 1].r, front[|front| - 1].c)
    requires |front| >= 2 ==> At(b, front[|front| - 1]).neighborMines == 0
    ensures FillPath(b, start, front + [q]) && (front + [q])[|front|] == q
  {
    var path := front + [q];
    assert forall k :: 0 <= k < |front| ==> path[k] == front[k];
  }

  /** Every pushed cell ends a path the fill can take from the start. */
  lemma {:induction false} ZonePath(b: Board, zone: seq<Pos>, start: Pos, i: int) returns (path: seq<Pos>)
    requires IsBoard(b) && |zone| >= 1 && zone[0] == start && Linked(b, zone)
    requires forall k :: 0 <= k < |zone| ==> InGrid(zone[k]) && At(b, zone[k]).neighborMines == 0
    requires 0 <= i < |zone|
    ensures FillPath(b, start, path) && path[|path| - 1] == zone[i]
    decreases i
  {
    if i == 0 {
      path := [start];
    } else {
      var j :| 0 <= j < i && InBlock(zone[i], zone[j].r, zone[j].c);
      var front := ZonePath(b, zone, start, j);
      ExtendPath(b, start, front, zone[i]);
      path := front + [zone[i]];
    }
  }

  /** A fill whose pushed cells are linked opens only cells it can reach:
      every cell opened since `b` is next to a pushed cell, so it ends a
      path through the pushed cells. */
  lemma FillSound(b: Board, nb: Board, zone: seq<Pos>, start: Pos)
    requires IsBoard(b) && IsBoard(nb) && Grows(b, nb)
    requires |zone| >= 1 && zone[0] == start && Linked(b, zone) && Explained(b, nb, zone, |zone|)
    requires forall k :: 0 <= k < |zone| ==> InGrid(zone[k]) && At(nb, zone[k]).neighborMines == 0
    ensures forall q :: InGrid(q) && At(nb, q).isRevealed && !At(b, q).isRevealed ==> Reaches(b, start, q)
  {
    forall q | InGrid(q) && At(nb, q).isRevealed && !At(b, q).isRevealed ensures Reaches(b, start, q) {
      var i :| 0 <= i < |zone| && InBlock(q, zone[i].r, zone[i].c);
      var front := ZonePath(b, zone, start, i);
      assert !Handled(At(b, q));
      ExtendPath(b, start, front, q);
    }
  }

  /** A finished fill opens exactly the cells it can reach from the start. */
  lemma FillExact(b: Board, nb: Board, zone: seq<Pos>, start: Pos)
    requires IsBoard(b) && IsBoard(nb) && Grows(b, nb)
    requires |zone| >= 1 && zone[0] == start && Linked(b, zone)
    requires forall k :: 0 <= k < |zone| ==> InGrid(zone[k]) && At(nb, zone[k]).neighborMines == 0
    requires Closed(nb, zone, |zone|) && Explained(b, nb, zone, |zone|) && Pushed(b, nb, zone)
    ensures forall path :: FillPath(b, start, path) && |path| >= 2 ==> At(nb, path[|path| - 1]).isRevealed
    ensures forall q :: InGrid(q) && At(nb, q).isRevealed && !At(b, q).isRevealed ==> Reaches(b, start, q)
  {
    forall path | FillPath(b, start, path) && |path| >= 2 ensures At(nb, path[|path| - 1]).isRevealed {
      FillReaches(b, nb, zone, start, path);
    }
    FillSound(b, nb, zone, start);
  }

  /** Visiting offset (dr, dc) of pushed cell `n - 1`, `cur`, keeps the zone
      linked: a pushed neighbour was closed and lies next to `cur`. */
  lemma VisitLinked(b: Board, nb: Board, zone: seq<Pos>, n: int, cur: Pos, dr: int, dc: int, zone': seq<Pos>)
    requires IsBoard(b) && IsBoard(nb) && Grows(b, nb) && Linked(b, zone)
    requires 1 <= n <= |zone| && zone[n - 1] == cur && -1 <= dr <= 1 && -1 <= dc <= 1
    requires var q := Pos(cur.r + dr, cur.c + dc);
             zone' == if InGrid(q) && !Handled(At(nb, q)) && At(nb, q).neighborMines == 0 then zone + [q] else zone
    ensures Linked(b, zone')
  {
    var q := Pos(cur.r + dr, cur.c + dc);
    if InGrid(q) && !Handled(At(nb, q)) && At(nb, q).neighborMines == 0 {
      forall i | 1 <= i < |zone'|
        ensures InGrid(zone'[i]) && !Handled(At(b, zone'[i])) &&
                exists j :: 0 <= j < i && InBlock(zone'[i], zone'[j].r, zone'[j].c)
      {
        if i < |zone| {
          assert zone'[i] == zone[i];
          var j :| 0 <= j < i && InBlock(zone[i], zone[j].r, zone[j].c);
          assert zone'[j] == zone[j];
        } else {
          assert zone'[n - 1] == zone[n - 1];
        }
      }
    }
  }

  lemma UnrevealedRemove(b: Board, p: Pos)
    requires IsBoard(b) && InGrid(p) && !At(b, p).isRevealed
    ensures |UnrevealedSet(Put(b, p, At(b, p).(isRevealed := true)))| == |UnrevealedSet(b)| - 1
  {
    AllPosIsGrid(p);
    var b' := Put(b, p, At(b, p).(isRevealed := true));
    assert UnrevealedSet(b) == UnrevealedSet(b') + {p};
  }

  /** Opening one unhandled cell is a step of `Grows`. */
  lemma OpenGrows(nb: Board, q: Pos)
    requires IsBoard(nb) && InGrid(q) && !Handled(At(nb, q))
    ensures Grows(nb, Put(nb, q, At(nb, q).(isRevealed := true)))
  {
  }

  /** Opening one unhandled cell, and pushing it when its count is zero,
      keeps the queue's shape. */
  lemma OpenQueue(nb: Board, queue: seq<Pos>, zone: seq<Pos>, start: Pos, q: Pos)
    requires IsBoard(nb) && QueueShape(nb, queue, zone, start)
    requires InGrid(q) && !Handled(At(nb, q))
    ensures var nb' := Put(nb, q, At(nb, q).(isRevealed := true));
            var push := At(nb, q).neighborMines == 0;
            QueueShape(nb', if push then queue + [q] else queue, if push then zone + [q] else zone, start)
  {
    var nb' := Put(nb, q, At(nb, q).(isRevealed := true));
    assert forall i :: 0 <= i < |zone| ==> zone[i] != q;
    if At(nb, q).neighborMines == 0 {
      var zone' := zone + [q];
      var queue' := queue + [q];
      assert queue' == zone'[|zone'| - |queue'|..];
      forall i | 0 <= i < |zone'|
        ensures InGrid(zone'[i]) && At(nb', zone'[i]).isRevealed && !At(nb', zone'[i]).isMine &&
                At(nb', zone'[i]).neighborMines == 0
      {
        if i < |zone| {
          assert zone'[i] == zone[i];
        }
      }
    }
  }

  /** Opening a cell next to zone cell `n - 1` keeps the cells open since `b`
      explained. */
  lemma OpenExplained(b: Board, nb: Board, zone: seq<Pos>, n: int, q: Pos, extra: seq<Pos>, nb': Board, zone': seq<Pos>)
    requires IsBoard(b) && IsBoard(nb) && 1 <= n <= |zone| && Explained(b, nb, zone, n)
    requires InGrid(q) && InBlock(q, zone[n - 1].r, zone[n - 1].c)
    requires nb' == Put(nb, q, At(nb, q).(isRevealed := true)) && zone' == zone + extra
    ensures Explained(b, nb', zone', n)
  {
    forall p | InGrid(p) && At(nb', p).isRevealed && !At(b, p).isRevealed
      ensures exists i :: 0 <= i < n && InBlock(p, zone'[i].r, zone'[i].c)
    {
      if p == q {
        assert zone'[n - 1] == zone[n - 1];
      } else {
        var i :| 0 <= i < n && InBlock(p, zone[i].r, zone[i].c);
        assert zone'[i] == zone[i];
      }
    }
  }

  /** Opening one cell, and pushing it when its count is zero, keeps every
      opened zero cell pushed. */
  lemma OpenPushed(b: Board, nb: Board, zone: seq<Pos>, q: Pos, extra: seq<Pos>, nb': Board, zone': seq<Pos>)
    requires IsBoard(b) && IsBoard(nb) && InGrid(q) && Pushed(b, nb, zone)
    requires nb' == Put(nb, q, At(nb, q).(isRevealed := true)) && zone' == zone + extra
    requires At(nb, q).neighborMines == 0 ==> q in extra
    ensures Pushed(b, nb', zone')
  {
    forall p | InGrid(p) && At(nb', p).isRevealed && !At(b, p).isRevealed && At(nb', p).neighborMines == 0
      ensures p in zone'
    {
      if p != q {
        assert p in zone;
      }
    }
  }

  /** Handled cells stay handled, so closed zone cells stay closed. */
  lemma ClosedGrows(nb: Board, nb': Board, zone: seq<Pos>, n: int, extra: seq<Pos>, zone': seq<Pos>)
    requires IsBoard(nb) && IsBoard(nb') && Grows(nb, nb') && 0 <= n <= |zone|
    requires Closed(nb, zone, n) && zone' == zone + extra
    ensures Closed(nb', zone', n)
  {
    forall i, q | 0 <= i < n && InGrid(q) && InBlock(q, zone'[i].r, zone'[i].c) ensures Handled(At(nb', q)) {
      assert zone'[i] == zone[i];
    }
  }

  /** Opening cells never un-handles one. */
  lemma HandledGrows(nb: Board, nb': Board)
    requires IsBoard(nb) && IsBoard(nb') && Grows(nb, nb')
    ensures forall q :: InGrid(q) && Handled(At(nb, q)) ==> Handled(At(nb', q))
  {
  }

  lemma GrowsTrans(b1: Board, b2: Board, b3: Board)
    requires IsBoard(b1) && IsBoard(b2) && IsBoard(b3) && Grows(b1, b2) && Grows(b2, b3)
    ensures Grows(b1, b3)
  {
  }

  /** After the visit of offset (dr, dc) one more offset around `cur` is handled. */
  lemma PartClosedStep(nb: Board, nb': Board, cur: Pos, dr: int, dc: int)
    requires IsBoard(nb) && IsBoard(nb') && Grows(nb, nb') && -1 <= dr <= 1 && -1 <= dc <= 1
    requires PartClosed(nb, cur, 3 * (dr + 1) + (dc + 1))
    requires InGrid(Pos(cur.r + dr, cur.c + dc)) ==> Handled(At(nb', Pos(cur.r + dr, cur.c + dc)))
    ensures PartClosed(nb', cur, 3 * (dr + 1) + (dc + 1) + 1)
  {
    HandledGrows(nb, nb');
    forall q | InGrid(q) && InBlock(q, cur.r, cur.c) && OffsetIndex(q, cur) < 3 * (dr + 1) + (dc + 1) + 1
      ensures Handled(At(nb', q))
    {
      if OffsetIndex(q, cur) == 3 * (dr + 1) + (dc + 1) {
        assert q == Pos(cur.r + dr, cur.c + dc);
      }
    }
  }

  /** The state of the flood fill while it visits the offsets around pushed
      cell `n - 1`, `cur`, having done the first `j`; `measure` bounds the
      termination measure from above. */
  ghost predicate Visiting(b: Board, nb: Board, queue: seq<Pos>, zone: seq<Pos>, start: Pos,
                           n: int, cur: Pos, j: int, measure: int)
  {
    && IsBoard(b) && IsBoard(nb) && Grows(b, nb)
    && QueueShape(nb, queue, zone, start) && 1 <= n == |zone| - |queue| && zone[n - 1] == cur
    && Closed(nb, zone, n - 1) && Explained(b, nb, zone, n) && Pushed(b, nb, zone)
    && PartClosed(nb, cur, j)
    && |UnrevealedSet(nb)| + |queue| < measure
  }

  /** Visiting an offset whose cell is off the board or already handled
      changes nothing and moves on. */
  lemma SkipVisiting(b: Board, nb: Board, queue: seq<Pos>, zone: seq<Pos>, start: Pos,
                     n: int, cur: Pos, dr: int, dc: int, measure: int)
    requires -1 <= dr <= 1 && -1 <= dc <= 1
    requires Visiting(b, nb, queue, zone, start, n, cur, 3 * (dr + 1) + (dc + 1), measure)
    requires var q := Pos(cur.r + dr, cur.c + dc); !(InGrid(q) && !Handled(At(nb, q)))
    ensures Visiting(b, nb, queue, zone, start, n, cur, 3 * (dr + 1) + (dc + 1) + 1, measure)
  {
    PartClosedStep(nb, nb, cur, dr, dc);
  }

  /** Opening the cell at an offset that has neighbouring mines moves on
      without pushing it. */
  lemma OpenVisiting(b: Board, nb: Board, queue: seq<Pos>, zone: seq<Pos>, start: Pos,
                     n: int, cur: Pos, dr: int, dc: int, measure: int, nb': Board)
    requires -1 <= dr <= 1 && -1 <= dc <= 1
    requires Visiting(b, nb, queue, zone, start, n, cur, 3 * (dr + 1) + (dc + 1), measure)
    requires var q := Pos(cur.r + dr, cur.c + dc);
             && InGrid(q) && !Handled(At(nb, q)) && At(nb, q).neighborMines != 0
             && nb' == Put(nb, q, At(nb, q).(isRevealed := true))
    ensures Visiting(b, nb', queue, zone, start, n, cur, 3 * (dr + 1) + (dc + 1) + 1, measure)
  {
    var q := Pos(cur.r + dr, cur.c + dc);
    OpenShape(b, nb, queue, zone, start, n, q, nb', queue, zone);
    OpenExplained(b, nb, zone, n, q, [], nb', zone);
    OpenPushed(b, nb, zone, q, [], nb', zone);
    ClosedGrows(nb, nb', zone, n - 1, [], zone);
    PartClosedStep(nb, nb', cur, dr, dc);
  }

  /** Opening the cell at an offset that has no neighbouring mines pushes it
      and moves on. */
  lemma PushVisiting(b: Board, nb: Board, queue: seq<Pos>, zone: seq<Pos>, start: Pos,
                     n: int, cur: Pos, dr: int, dc: int, measure: int, nb': Board)
    requires -1 <= dr <= 1 && -1 <= dc <= 1
    requires Visiting(b, nb, queue, zone, start, n, cur, 3 * (dr + 1) + (dc + 1), measure)
    requires var q := Pos(cur.r + dr, cur.c + dc);
             && InGrid(q) && !Handled(At(nb, q)) && At(nb, q).neighborMines == 0
             && nb' == Put(nb, q, At(nb, q).(isRevealed := true))
    ensures var q := Pos(cur.r + dr, cur.c + dc);
            Visiting(b, nb', queue + [q], zone + [q], start, n, cur, 3 * (dr + 1) + (dc + 1) + 1, measure)
  {
    var q := Pos(cur.r + dr, cur.c + dc);
    OpenShape(b, nb, queue, zone, start, n, q, nb', queue + [q], zone + [q]);
    OpenExplained(b, nb, zone, n, q, [q], nb', zone + [q]);
    OpenPushed(b, nb, zone, q, [q], nb', zone + [q]);
    ClosedGrows(nb, nb', zone, n - 1, [q], zone + [q]);
    PartClosedStep(nb, nb', cur, dr, dc);
  }

  /** The structural half of `OpenVisiting` and `PushVisiting`: growth, queue shape and the measure. */
  lemma OpenShape(b: Board, nb: Board, queue: seq<Pos>, zone: seq<Pos>, start: Pos, n: int, q: Pos,
                  nb': Board, queue': seq<Pos>, zone': seq<Pos>)
    requires IsBoard(b) && IsBoard(nb) && Grows(b, nb)
    requires QueueShape(nb, queue, zone, start) && 1 <= n == |zone| - |queue|
    requires InGrid(q) && !Handled(At(nb, q))
    requires var push := At(nb, q).neighborMines == 0;
             && nb' == Put(nb, q, At(nb, q).(isRevealed := true))
             && queue' == (if push then queue + [q] else queue)
             && zone' == (if push then zone + [q] else zone)
    ensures IsBoard(nb') && Grows(b, nb') && Grows(nb, nb') && QueueShape(nb', queue', zone', start)
    ensures n == |zone'| - |queue'| && zone'[n - 1] == zone[n - 1]
    ensures |UnrevealedSet(nb')| + |queue'| <= |UnrevealedSet(nb)| + |queue|
  {
    OpenGrows(nb, q);
    GrowsTrans(b, nb, nb');
    OpenQueue(nb, queue, zone, start, q);
    UnrevealedRemove(nb, q);
  }

  /** The body of the two inner loops of the flood fill: open the neighbour
      at offset (dr, dc) if it is on the board, closed, unflagged and not a
      mine, and push it when it has no neighbouring mines. */
  method VisitNeighbor(ghost b: Board, nb: Board, queue: seq<Pos>, ghost zone: seq<Pos>, ghost start: Pos,
                       ghost n: int, cur: Pos, dr: int, dc: int, ghost measure: int)
    returns (nb': Board, queue': seq<Pos>, ghost zone': seq<Pos>)
    requires -1 <= dr <= 1 && -1 <= dc <= 1
    requires Visiting(b, nb, queue, zone, start, n, cur, 3 * (dr + 1) + (dc + 1), measure)
    ensures Visiting(b, nb', queue', zone', start, n, cur, 3 * (dr + 1) + (dc + 1) + 1, measure)
    ensures var q := Pos(cur.r + dr, cur.c + dc);
            if InGrid(q) && !Handled(At(nb, q))
            then nb' == Put(nb, q, At(nb, q).(isRevealed := true)) &&
                 queue' == queue + (if At(nb, q).neighborMines == 0 then [q] else []) &&
                 zone' == zone + (if At(nb, q).neighborMines == 0 then [q] else [])
            else nb' == nb && queue' == queue && zone' == zone
  {
    nb', queue', zone' := nb, queue, zone;
    var nr := cur.r + dr;
    var nc := cur.c + dc;
    if nr >= 0 && nr < Rows && nc >= 0 && nc < Cols {
      var neighbor := nb[nr][nc];
      if !neighbor.isRevealed && !neighbor.isFlagged && !neighbor.isMine {
        nb' := Put(nb, Pos(nr, nc), neighbor.(isRevealed := true));
        if neighbor.neighborMines == 0 {
          queue' := queue + [Pos(nr, nc)];
          zone' := zone + [Pos(nr, nc)];
          PushVisiting(b, nb, queue, zone, start, n, cur, dr, dc, measure, nb');
        } else {
          OpenVisiting(b, nb, queue, zone, start, n, cur, dr, dc, measure, nb');
        }
        return;
      }
    }
    SkipVisiting(b, nb, queue, zone, start, n, cur, dr, dc, measure);
  }

  /** The two inner loops of the flood fill: visit the nine offsets around
      pushed cell `n - 1`, `cur`, after which that cell's block is handled. */
  method VisitBlock(ghost b: Board, nb: Board, queue: seq<Pos>, ghost zone: seq<Pos>, ghost start: Pos,
                    ghost n: int, cur: Pos, ghost measure: int)
    returns (nb': Board, queue': seq<Pos>, ghost zone': seq<Pos>)
    requires Visiting(b, nb, queue, zone, start, n, cur, 0, measure) && Linked(b, zone)
    ensures Visiting(b, nb', queue', zone', start, n, cur, 9, measure) && Linked(b, zone')
    ensures Closed(nb', zone', n)
  {
    nb', queue', zone' := nb, queue, zone;
    var dr := -1;
    while dr <= 1
      invariant -1 <= dr <= 2
      invariant Visiting(b, nb', queue', zone', start, n, cur, 3 * (dr + 1), measure)
      invariant Linked(b, zone')
    {
      var dc := -1;
      while dc <= 1
        invariant -1 <= dc <= 2
        invariant Visiting(b, nb', queue', zone', start, n, cur, 3 * (dr + 1) + (dc + 1), measure)
        invariant Linked(b, zone')
      {
        ghost var nb0, zone0 := nb', zone';
        nb', queue', zone' := VisitNeighbor(b, nb', queue', zone', start, n, cur, dr, dc, measure);
        VisitLinked(b, nb0, zone0, n, cur, dr, dc, zone');
        dc := dc + 1;
      }
      dr := dr + 1;
    }
    BlockClosed(nb', zone', n, cur);
  }

  /** Once all nine offsets around pushed cell `n - 1` are handled, the
      first `n` pushed cells are closed. */
  lemma BlockClosed(nb: Board, zone: seq<Pos>, n: int, cur: Pos)
    requires IsBoard(nb) && 1 <= n <= |zone| && zone[n - 1] == cur
    requires Closed(nb, zone, n - 1) && PartClosed(nb, cur, 9)
    ensures Closed(nb, zone, n)
  {
    forall i, q | 0 <= i < n && InGrid(q) && InBlock(q, zone[i].r, zone[i].c) ensures Handled(At(nb, q)) {
      if i == n - 1 {
        assert OffsetIndex(q, cur) < 9;
      }
    }
  }

  /** The breadth-first flood fill of `revealCell`, from an clicked cell
      without neighbouring mines. It returns, as `zone`, every cell it
      pushed: the start first, each at most once. */
  method FloodFill(b: Board, start: Pos) returns (b': Board, ghost zone: seq<Pos>)
    requires IsBoard(b) && InGrid(start)
    requires At(b, start).isRevealed && !At(b, start).isMine && At(b, start).neighborMines == 0
    ensures IsBoard(b') && Grows(b, b')
    ensures |zone| >= 1 && zone[0] == start && forall i, j :: 0 <= i < j < |zone| ==> zone[i] != zone[j]
    ensures forall i :: 0 <= i < |zone| ==>
              InGrid(zone[i]) && At(b', zone[i]).isRevealed && At(b', zone[i]).neighborMines == 0
    ensures Closed(b', zone, |zone|)
    ensures Explained(b, b', zone, |zone|)
    ensures Pushed(b, b', zone)
    ensures forall path :: FillPath(b, start, path) && |path| >= 2 ==> At(b', path[|path| - 1]).isRevealed
    ensures Linked(b, zone)
    ensures forall q :: InGrid(q) && At(b', q).isRevealed && !At(b, q).isRevealed ==> Reaches(b, start, q)
  {
    b' := b;
    var queue := [start];
    zone := [start];
    while |queue| > 0
      invariant IsBoard(b') && Grows(b, b')
      invariant QueueShape(b', queue, zone, start)
      invariant Closed(b', zone, |zone| - |queue|)
      invariant Explained(b, b', zone, |zone| - |queue|)
      invariant Pushed(b, b', zone) && Linked(b, zone)
      decreases |UnrevealedSet(b')| + |queue|
    {
      ghost var measure := |UnrevealedSet(b')| + |queue|;
      var cur := queue[0];
      queue := queue[1..];
      ghost var n := |zone| - |queue|;
      assert zone[n - 1] == cur;
      b', queue, zone := VisitBlock(b, b', queue, zone, start, n, cur, measure);
    }
    FillExact(b, b', zone, start);
  }

  // ---------------------------------------------------------------------------
  // The component

  /** The two boards agree on mines, flags and counts. */
  ghost predicate SameLayout(b1: Board, b2: Board)
    requires IsBoard(b1) && IsBoard(b2)
  {
    forall q :: InGrid(q) ==>
      At(b1, q).isMine == At(b2, q).isMine && At(b1, q).isFlagged == At(b2, q).isFlagged &&
      At(b1, q).neighborMines == At(b2, q).neighborMines
  }

  /** Boards with the same layout have the same mines, the same flags and
      both carry right counts or neither does. */
  lemma LayoutKeepsCounts(b1: Board, b2: Board)
    requires IsBoard(b1) && IsBoard(b2) && SameLayout(b1, b2)
    ensures MineSet(b1) == MineSet(b2) && FlagSet(b1) == FlagSet(b2)
    ensures CountsCorrect(b1) ==> CountsCorrect(b2)
  {
    forall p | InGrid(p) {
      NeighborMinesSameMines(b1, b2, p);
    }
  }

  lemma FlagSetSameFlags(b1: Board, b2: Board)
    requires IsBoard(b1) && IsBoard(b2)
    requires forall q :: InGrid(q) ==> At(b1, q).isFlagged == At(b2, q).isFlagged
    ensures FlagSet(b1) == FlagSet(b2)
  {
  }

  /** Writing a cell sets that cell's flag and leaves the other flags. */
  lemma FlagSetPut(b: Board, p: Pos, cell: Cell)
    requires IsBoard(b) && InGrid(p)
    ensures FlagSet(Put(b, p, cell)) == if cell.isFlagged then FlagSet(b) + {p} else FlagSet(b) - {p}
  {
    AllPosIsGrid(p);
  }

  /** Flipping one flag adds or removes exactly that cell from the flags. */
  lemma FlagSetToggle(b: Board, p: Pos)
    requires IsBoard(b) && InGrid(p)
    ensures var b' := Put(b, p, At(b, p).(isFlagged := !At(b, p).isFlagged));
            |FlagSet(b')| == |FlagSet(b)| + (if At(b, p).isFlagged then -1 else 1)
  {
    AllPosIsGrid(p);
    FlagSetPut(b, p, At(b, p).(isFlagged := !At(b, p).isFlagged));
    assert p in FlagSet(b) <==> At(b, p).isFlagged;
  }

  /** Toggling a flag leaves the mines, and so every neighbour count, as they were. */
  lemma FlagKeepsCounts(b: Board, p: Pos, b': Board)
    requires IsBoard(b) && InGrid(p) && CountsCorrect(b)
    requires b' == Put(b, p, At(b, p).(isFlagged := !At(b, p).isFlagged))
    ensures IsBoard(b') && CountsCorrect(b') && MineSet(b') == MineSet(b)
  {
    MineSetSameMines(b, b');
    forall q | InGrid(q) ensures NeighborMines(b', q) == NeighborMines(b, q) {
      NeighborMinesSameMines(b, b', q);
    }
  }

  /** What revealing the closed, unflagged cell `p` of `b` leaves: after a
      mine every mine is open and nothing else changes; otherwise only cells
      free of mines and flags are opened, `p` among them, the flood fill runs
      exactly when `p` has no neighbouring mines, and then its zone is closed,
      holds every zero cell it opened, explains every other cell it opened,
      and the cells it opened are exactly those the fill can spread to from
      `p`. */
  ghost predicate Revealed(b: Board, p: Pos, b': Board, hitMine: bool, zone: seq<Pos>)
    requires IsBoard(b) && InGrid(p)
  {
    var cell := At(b, p);
    var clicked := Put(b, p, cell.(isRevealed := true));
    && IsBoard(b') && SameLayout(b, b')
    && hitMine == cell.isMine
    && (cell.isMine ==>
          forall q :: InGrid(q) ==> At(b', q) == if At(b, q).isMine then At(b, q).(isRevealed := true) else At(b, q))
    && (!cell.isMine ==>
          && Grows(b, b') && At(b', p).isRevealed
          && (cell.neighborMines != 0 ==> b' == clicked)
          && (cell.neighborMines == 0 ==>
                && |zone| >= 1 && zone[0] == p && Closed(b', zone, |zone|)
                && Explained(clicked, b', zone, |zone|) && Pushed(clicked, b', zone)
                && (forall path :: FillPath(clicked, p, path) && |path| >= 2 ==> At(b', path[|path| - 1]).isRevealed)
                && forall q :: InGrid(q) && At(b', q).isRevealed && !At(clicked, q).isRevealed ==> Reaches(clicked, p, q)))
  }

  /** The part of `revealCell` after mine placement, for a cell that is
      neither open nor flagged. */
  method Reveal(b: Board, p: Pos) returns (b': Board, hitMine: bool, ghost zone: seq<Pos>)
    requires IsBoard(b) && InGrid(p) && !At(b, p).isRevealed && !At(b, p).isFlagged
    ensures Revealed(b, p, b', hitMine, zone)
  {
    var cell := b[p.r][p.c];
    b' := Put(b, p, cell.(isRevealed := true));
    zone := [];
    if cell.isMine {
      hitMine := true;
      b' := RevealAllMines(b');
      return;
    }
    hitMine := false;
    ghost var clicked := b';
    if cell.neighborMines == 0 {
      b', zone := FloodFill(b', p);
      GrowsTrans(b, clicked, b');
    }
  }

  /** Boards that agree on every cell are equal. */
  lemma BoardsEqual(b1: Board, b2: Board)
    requires IsBoard(b1) && IsBoard(b2)
    requires forall q :: InGrid(q) ==> At(b1, q) == At(b2, q)
    ensures b1 == b2
  {
    forall r | 0 <= r < Rows ensures b1[r] == b2[r] {
      forall c | 0 <= c < Cols ensures b1[r][c] == b2[r][c] {
        assert At(b1, Pos(r, c)) == At(b2, Pos(r, c));
      }
    }
  }

  /** `Revealed` leaves no choice: once the board and the cell are fixed,
      the board after the click and the mine outcome are determined. */
  lemma RevealDetermined(b: Board, p: Pos, b1: Board, hit1: bool, zone1: seq<Pos>, b2: Board, hit2: bool, zone2: seq<Pos>)
    requires IsBoard(b) && InGrid(p)
    requires Revealed(b, p, b1, hit1, zone1) && Revealed(b, p, b2, hit2, zone2)
    ensures b1 == b2 && hit1 == hit2
  {
    var cell := At(b, p);
    var clicked := Put(b, p, cell.(isRevealed := true));
    if !cell.isMine && cell.neighborMines == 0 {
      forall q | InGrid(q)
        ensures At(b1, q).isRevealed <==> At(clicked, q).isRevealed || Reaches(clicked, p, q)
        ensures At(b2, q).isRevealed <==> At(clicked, q).isRevealed || Reaches(clicked, p, q)
      {
        if Reaches(clicked, p, q) {
          var path :| FillPath(clicked, p, path) && |path| >= 2 && path[|path| - 1] == q;
        }
      }
    }
    forall q | InGrid(q) ensures At(b1, q) == At(b2, q) {
    }
    BoardsEqual(b1, b2);
  }

  class Game {
    var board: Board
    var gameState: GameState
    var minesRemaining: int
    var gameStarted: bool
    var firstClick: bool

    /** The game invariant: a 10 x 10 board whose counts are right; no mines
        before the first click and, after it, none or exactly fifteen; and
        the mine counter is fifteen minus the flags on the board. */
    ghost predicate Valid()
      reads this
    {
      && IsBoard(board) && CountsCorrect(board)
      && (firstClick ==> MineSet(board) == {})
      && (MineSet(board) == {} || |MineSet(board)| == MineCount)
      && minesRemaining == MineCount - |FlagSet(board)|
    }

    /** The component after its mount effect has run `initializeGame`. */
    constructor ()
      ensures Valid()
      ensures board == CreateEmptyBoard() && gameState == Playing && minesRemaining == MineCount
      ensures !gameStarted && firstClick
    {
      board := CreateEmptyBoard();
      gameState := Playing;
      minesRemaining := MineCount;
      gameStarted := false;
      firstClick := true;
      new;
      EmptyBoardFacts();
    }

    /** `initializeGame`. */
    method InitializeGame()
      modifies this
      ensures Valid()
      ensures board == CreateEmptyBoard() && gameState == Playing && minesRemaining == MineCount
      ensures !gameStarted && firstClick
    {
      board := CreateEmptyBoard();
      gameState := Playing;
      minesRemaining := MineCount;
      gameStarted := false;
      firstClick := true;
      EmptyBoardFacts();
    }

    /** `toggleFlag` (right click). */
    method ToggleFlag(row: int, col: int)
      requires Valid() && InGrid(Pos(row, col))
      modifies this`board, this`minesRemaining
      ensures Valid()
      ensures var p := Pos(row, col);
              var cell := At(old(board), p);
              if cell.isRevealed then board == old(board) && minesRemaining == old(minesRemaining)
              else board == Put(old(board), p, cell.(isFlagged := !cell.isFlagged)) &&
                   minesRemaining == old(minesRemaining) + (if cell.isFlagged then 1 else -1)
    {
      var cell := board[row][col];
      if cell.isRevealed {
        return;
      }
      var p := Pos(row, col);
      FlagSetToggle(board, p);
      var newBoard := Put(board, p, cell.(isFlagged := !cell.isFlagged));
      FlagKeepsCounts(board, p, newBoard);
      board := newBoard;
      minesRemaining := if !cell.isFlagged then minesRemaining - 1 else minesRemaining + 1;
    }

    /** `revealCell` (left click), with the random numbers of mine placement
        passed in. `placed` is the board after placement (the old board when
        this is not the first click) and `zone` the cells the flood fill
        pushed. The click is not gated on the game state. */
    method RevealCell(row: int, col: int, rand: seq<real>) returns (ghost placed: Board, ghost zone: seq<Pos>)
      requires Valid() && InGrid(Pos(row, col))
      requires firstClick ==> |rand| == MineCount && forall i :: 0 <= i < |rand| ==> 0.0 <= rand[i] < 1.0
      modifies this`board, this`gameState, this`firstClick, this`gameStarted
      ensures Valid()
      ensures !firstClick && gameStarted == (old(gameStarted) || old(firstClick))
      ensures IsBoard(placed)
      ensures old(firstClick) ==>
                && |MineSet(placed)| == MineCount
                && (forall q :: InGrid(q) && InBlock(q, row, col) ==> !At(placed, q).isMine)
                && CountsCorrect(placed)
                && (forall q :: InGrid(q) ==> At(placed, q).isRevealed == At(old(board), q).isRevealed &&
                                               At(placed, q).isFlagged == At(old(board), q).isFlagged)
                && (Handled(At(placed, Pos(row, col))) || At(placed, Pos(row, col)).neighborMines == 0)
      ensures !old(firstClick) ==> placed == old(board)
      ensures var cell := At(placed, Pos(row, col));
              if cell.isRevealed || cell.isFlagged then board == old(board) && gameState == old(gameState)
              else Revealed(placed, Pos(row, col), board, cell.isMine, zone) &&
                   gameState == if cell.isMine then Lost else old(gameState)
    {
      var p := Pos(row, col);
      var newBoard := board;
      if firstClick {
        newBoard := PlaceMines(newBoard, row, col, rand);
        FlagSetSameFlags(board, newBoard);
        FirstClickIsClear(newBoard, p);
        firstClick := false;
        gameStarted := true;
      }
      placed := newBoard;
      var cell := newBoard[row][col];
      if cell.isRevealed || cell.isFlagged {
        zone := [];
        return;
      }
      var hitMine;
      newBoard, hitMine, zone := Reveal(newBoard, p);
      LayoutKeepsCounts(placed, newBoard);
      if hitMine {
        gameState := Lost;
      }
      board := newBoard;
    }

    /** `revealCell` as evidently intended: a click on an open or flagged cell
        is ignored before anything else, so the first click is only used up
        by a click that opens a cell, and after it the board holds fifteen
        mines. */
    method RevealCellIntended(row: int, col: int, rand: seq<real>) returns (ghost placed: Board, ghost zone: seq<Pos>)
      requires Valid() && InGrid(Pos(row, col))
      requires !firstClick ==> |MineSet(board)| == MineCount
      requires firstClick ==> |rand| == MineCount && forall i :: 0 <= i < |rand| ==> 0.0 <= rand[i] < 1.0
      modifies this`board, this`gameState, this`firstClick, this`gameStarted
      ensures Valid()
      ensures !firstClick ==> |MineSet(board)| == MineCount
      ensures old(At(board, Pos(row, col)).isRevealed || At(board, Pos(row, col)).isFlagged) ==>
                board == old(board) && gameState == old(gameState) &&
                firstClick == old(firstClick) && gameStarted == old(gameStarted)
      ensures old(!At(board, Pos(row, col)).isRevealed && !At(board, Pos(row, col)).isFlagged) ==>
                !firstClick
    {
      var cell := board[row][col];
      if cell.isRevealed || cell.isFlagged {
        placed, zone := board, [];
        return;
      }
      placed, zone := RevealCell(row, col, rand);
      LayoutKeepsCounts(placed, board);
    }

    /** The win-check effect, run after every change of the board or of
        `firstClick`: after the first click, 85 revealed safe cells win. */
    method CheckWin()
      requires Valid()
      modifies this`gameState
      ensures gameState ==
                if !firstClick && |RevealedSafeSet(board)| == Rows * Cols - MineCount then Won else old(gameState)
    {
      if firstClick {
        return;
      }
      var revealedCount, correctFlags := WinCounts(board);
      if revealedCount == Rows * Cols - MineCount {
        gameState := Won;
      }
    }
  }

  /** A new game whose corner cell was flagged before any click. */
  method FlaggedCorner() returns (g: Game)
    ensures fresh(g) && g.Valid() && g.firstClick && !g.gameStarted
    ensures At(g.board, Pos(0, 0)).isFlagged && !At(g.board, Pos(0, 0)).isRevealed
  {
    g := new Game();
    assert !At(g.board, Pos(0, 0)).isRevealed && !At(g.board, Pos(0, 0)).isFlagged;
    g.ToggleFlag(0, 0);
  }

  /** The first click on a flagged cell, as written: the mines are placed on a
      copy that is then dropped, yet the first click is used up, so the game
      goes on with no mine on the board. */
  method FlaggedFirstClick(rand: seq<real>) returns (g: Game)
    requires |rand| == MineCount && forall i :: 0 <= i < |rand| ==> 0.0 <= rand[i] < 1.0
    ensures g.Valid() && !g.firstClick && g.gameStarted && MineSet(g.board) == {}
  {
    g := FlaggedCorner();
    var placed, zone := g.RevealCell(0, 0, rand);
  }
}
