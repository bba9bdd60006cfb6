/**
 * Connect Four on a 6 x 7 grid: gravity-drop placement, the local
 * four-direction win count from the placed cell, and the turn / victory /
 * draw transition.
 */
module ConnectFour {
  import opened Arcade

  const ROWS := 6
  const COLS := 7

  /** Player 1 (red) and player 2 (green). */
  datatype Player = Red | Green

  /** A grid cell: empty (null) or holding one player's piece. */
  datatype Cell = Empty | Mark(player: Player)

  /** Row 0 is the top row; row ROWS - 1 is the bottom. */
  type Board = seq<seq<Cell>>

  datatype Move = Move(row: int, col: int)

  function Other(p: Player): (q: Player)
    ensures q != p
  {
    if p == Red then Green else Red
  }

  predicate WellFormed(b: Board)
  {
    |b| == ROWS && forall r :: 0 <= r < ROWS ==> |b[r]| == COLS
  }

  function EmptyBoard(): (b: Board)
    ensures WellFormed(b)
    ensures forall r, c :: 0 <= r < ROWS && 0 <= c < COLS ==> b[r][c] == Empty
  {
    seq(ROWS, _ => seq(COLS, _ => Empty))
  }

  predicate BoardFull(b: Board)
    requires WellFormed(b)
    // a full board leaves no column to drop into
    ensures BoardFull(b) ==> forall c :: 0 <= c < COLS ==> ColumnFull(b, c)
  {
    forall r, c :: 0 <= r < ROWS && 0 <= c < COLS ==> b[r][c] != Empty
  }

  predicate ColumnFull(b: Board, col: int)
    requires WellFormed(b) && 0 <= col < COLS
  {
    forall r :: 0 <= r < ROWS ==> b[r][col] != Empty
  }

  // ---------------------------------------------------------------------
  // Win detection
  // ---------------------------------------------------------------------

  /** The four scan directions (deltaRow, deltaCol): horizontal, vertical and the two diagonals. */
  function Delta(d: nat): (delta: (int, int))
    requires d < 4
    // a non-zero unit step that never points upwards
    ensures 0 <= delta.0 <= 1 && -1 <= delta.1 <= 1 && delta != (0, 0)
  {
    [(0, 1), (1, 0), (1, 1), (1, -1)][d]
  }

  /** The cell (r, c) lies on the grid and holds p's piece. */
  predicate Owns(b: Board, r: int, c: int, p: Player)
    requires WellFormed(b)
  {
    0 <= r < ROWS && 0 <= c < COLS && b[r][c] == Mark(p)
  }

  /** The displacement of `off` steps along direction d, that is (deltaRow * off, deltaCol * off). */
  function Shift(d: nat, off: int): (int, int)
    requires d < 4
  {
    if d == 0 then (0, off) else if d == 1 then (off, 0) else if d == 2 then (off, off) else (off, -off)
  }

  lemma ShiftScalesDelta(d: nat, i: int)
    requires d < 4
    ensures Shift(d, i) == (Delta(d).0 * i, Delta(d).1 * i)
    ensures Shift(d, -i) == (-(Delta(d).0 * i), -(Delta(d).1 * i))
  {
  }

  /** Step k forwards (k) or backwards (-k). */
  function Offset(forward: bool, k: int): int
  {
    if forward then k else -k
  }

  /** The cell at signed offset `off` from (row, col) along direction d holds p's piece. */
  predicate OwnsAt(b: Board, row: int, col: int, p: Player, d: nat, off: int)
    requires WellFormed(b) && d < 4
  {
    Owns(b, row + Shift(d, off).0, col + Shift(d, off).1, p)
  }

  /**
   * The contiguous run of p's pieces starting at step k from (row, col),
   * forwards along d or backwards, scanning no further than step 3.
   */
  function Run(b: Board, row: int, col: int, p: Player, d: nat, forward: bool, k: nat): (n: nat)
    requires WellFormed(b) && d < 4 && 1 <= k <= 4
    ensures n <= 4 - k
    decreases 4 - k
  {
    if k == 4 then 0
    else if OwnsAt(b, row, col, p, d, Offset(forward, k)) then 1 + Run(b, row, col, p, d, forward, k + 1)
    else 0
  }

  /** The placed cell plus the runs on both sides of it along direction d. */
  function LineCount(b: Board, row: int, col: int, p: Player, d: nat): (n: nat)
    requires WellFormed(b) && d < 4
    ensures 1 <= n <= 7
  {
    1 + Run(b, row, col, p, d, true, 1) + Run(b, row, col, p, d, false, 1)
  }

  /** checkWin: some direction counts at least four. */
  predicate Wins(b: Board, row: int, col: int, p: Player)
    requires WellFormed(b)
  {
    exists d :: 0 <= d < 4 && LineCount(b, row, col, p, d) >= 4
  }

  /** Reference definition: four consecutive cells of p along direction d, at offsets -s .. 3 - s. */
  predicate LineAt(b: Board, row: int, col: int, p: Player, d: nat, s: int)
    requires WellFormed(b) && d < 4
  {
    forall off :: -s <= off <= 3 - s ==> OwnsAt(b, row, col, p, d, off)
  }

  /** Reference definition: some four-in-a-row of p passes through (row, col). */
  predicate HasLineThrough(b: Board, row: int, col: int, p: Player)
    requires WellFormed(b)
  {
    exists d, s :: 0 <= d < 4 && 0 <= s < 4 && LineAt(b, row, col, p, d, s)
  }

  /** Every cell a run counts is p's, and the run stops at the first cell that is not. */
  lemma {:induction false} RunCovers(b: Board, row: int, col: int, p: Player, d: nat, forward: bool, k: nat)
    requires WellFormed(b) && d < 4 && 1 <= k <= 4
    ensures forall j :: k <= j < k + Run(b, row, col, p, d, forward, k) ==> OwnsAt(b, row, col, p, d, Offset(forward, j))
    ensures k + Run(b, row, col, p, d, forward, k) < 4 ==>
              !OwnsAt(b, row, col, p, d, Offset(forward, k + Run(b, row, col, p, d, forward, k)))
    decreases 4 - k
  {
    if k < 4 && OwnsAt(b, row, col, p, d, Offset(forward, k)) {
      RunCovers(b, row, col, p, d, forward, k + 1);
    }
  }

  /** A run is at least as long as any stretch of p's pieces that starts at step k. */
  lemma {:induction false} RunAtLeast(b: Board, row: int, col: int, p: Player, d: nat, forward: bool, k: nat, m: nat)
    requires WellFormed(b) && d < 4 && 1 <= k <= m <= 4
    requires forall j :: k <= j < m ==> OwnsAt(b, row, col, p, d, Offset(forward, j))
    ensures Run(b, row, col, p, d, forward, k) >= m - k
    decreases 4 - k
  {
    if k < m {
      assert OwnsAt(b, row, col, p, d, Offset(forward, k));
      RunAtLeast(b, row, col, p, d, forward, k + 1, m);
    }
  }

  /** For an occupied cell, the local count finds four iff a four-in-a-row passes through it. */
  lemma WinsIffLine(b: Board, row: int, col: int, p: Player)
    requires WellFormed(b) && Owns(b, row, col, p)
    ensures Wins(b, row, col, p) <==> HasLineThrough(b, row, col, p)
  {
    if Wins(b, row, col, p) {
      var d :| 0 <= d < 4 && LineCount(b, row, col, p, d) >= 4;
      var fwd: int := Run(b, row, col, p, d, true, 1);
      var bwd: int := Run(b, row, col, p, d, false, 1);
      RunCovers(b, row, col, p, d, true, 1);
      RunCovers(b, row, col, p, d, false, 1);
      forall off | -bwd <= off <= 3 - bwd
        ensures OwnsAt(b, row, col, p, d, off)
      {
        if off < 0 {
          assert 1 <= -off < 1 + bwd;
          assert OwnsAt(b, row, col, p, d, Offset(false, -off));
        } else if off > 0 {
          assert 1 <= off < 1 + fwd;
          assert OwnsAt(b, row, col, p, d, Offset(true, off));
        }
      }
      assert LineAt(b, row, col, p, d, bwd);
    }
    if HasLineThrough(b, row, col, p) {
      var d, s :| 0 <= d < 4 && 0 <= s < 4 && LineAt(b, row, col, p, d, s);
      RunAtLeast(b, row, col, p, d, true, 1, 4 - s);
      forall j | 1 <= j < s + 1
        ensures OwnsAt(b, row, col, p, d, Offset(false, j))
      {
        assert -s <= Offset(false, j) <= 3 - s;
      }
      RunAtLeast(b, row, col, p, d, false, 1, s + 1);
      assert LineCount(b, row, col, p, d) >= 4;
    }
  }

  /** The cell the scan computes at step i is the cell at offset Offset(forward, i). */
  lemma ScannedCell(b: Board, row: int, col: int, p: Player, d: nat, forward: bool, i: int, r: int, c: int)
    requires WellFormed(b) && d < 4
    requires r == if forward then row + Delta(d).0 * i else row - Delta(d).0 * i
    requires c == if forward then col + Delta(d).1 * i else col - Delta(d).1 * i
    ensures (0 <= r < ROWS && 0 <= c < COLS && b[r][c] == Mark(p)) <==> OwnsAt(b, row, col, p, d, Offset(forward, i))
  {
    ShiftScalesDelta(d, i);
  }

  /**
   * One of checkWin's two inner scans: from step 1 to step 3 along direction
   * d (forwards: row + dr * i; backwards: row - dr * i), stopping at the
   * first cell that is off the grid or not the player's.
   */
  method ScanRun(board: Board, row: int, col: int, player: Player, d: nat, forward: bool) returns (n: nat)
    requires WellFormed(board) && d < 4
    ensures n == Run(board, row, col, player, d, forward, 1)
  {
    var (dr, dc) := Delta(d);
    n := 0;
    var i := 1;
    while i < 4
      invariant 1 <= i <= 4 && n == i - 1
      invariant Run(board, row, col, player, d, forward, 1) == n + Run(board, row, col, player, d, forward, i)
    {
      var r := if forward then row + dr * i else row - dr * i;
      var c := if forward then col + dc * i else col - dc * i;
      ScannedCell(board, row, col, player, d, forward, i, r, c);
      if 0 <= r < ROWS && 0 <= c < COLS && board[r][c] == Mark(player) {
        n := n + 1;
      } else {
        break;
      }
      i := i + 1;
    }
  }

  /** checkWin: the four directions in order; true as soon as one counts four. */
  method CheckWin(board: Board, row: int, col: int, player: Player) returns (won: bool)
    requires WellFormed(board)
    ensures won <==> Wins(board, row, col, player)
  {
    for d := 0 to 4
      invariant forall e :: 0 <= e < d ==> LineCount(board, row, col, player, e) < 4
    {
      var count := 1;
      var ahead := ScanRun(board, row, col, player, d, true);
      count := count + ahead;
      var behind := ScanRun(board, row, col, player, d, false);
      count := count + behind;
      if count >= 4 {
        assert LineCount(board, row, col, player, d) >= 4;
        return true;
      }
    }
    return false;
  }

  // ---------------------------------------------------------------------
  // Placement and turn transition
  // ---------------------------------------------------------------------

  /** The highest-index empty row of column col among rows 0 .. n - 1, or -1 if there is none. */
  function LowestEmpty(b: Board, col: int, n: nat): (r: int)
    requires WellFormed(b) && 0 <= col < COLS && n <= ROWS
    ensures -1 <= r < n
    ensures r >= 0 ==> b[r][col] == Empty
    ensures forall r' :: r < r' < n ==> b[r'][col] != Empty
  {
    if n == 0 then -1
    else if b[n - 1][col] == Empty then n - 1
    else LowestEmpty(b, col, n - 1)
  }

  /** The board with p's piece written at (r, c). */
  function Place(b: Board, r: int, c: int, p: Player): (b': Board)
    requires WellFormed(b) && 0 <= r < ROWS && 0 <= c < COLS
    ensures OnlyCellChanged(b, b', r, c, p)
  {
    b[r := b[r][c := Mark(p)]]
  }

  /** Row r is where gravity puts a piece dropped into column col. */
  predicate LandsLowest(b: Board, r: int, col: int)
    requires WellFormed(b) && 0 <= col < COLS
  {
    0 <= r < ROWS && b[r][col] == Empty && forall r' :: r < r' < ROWS ==> b[r'][col] != Empty
  }

  /** b' is b with exactly the cell (r, c) changed, to p's piece. */
  predicate OnlyCellChanged(b: Board, b': Board, r: int, c: int, p: Player)
    requires WellFormed(b)
  {
    && WellFormed(b')
    && 0 <= r < ROWS && 0 <= c < COLS
    && b'[r][c] == Mark(p)
    && forall i, j :: 0 <= i < ROWS && 0 <= j < COLS && (i != r || j != c) ==> b'[i][j] == b[i][j]
  }

  /** The component state: board, currentPlayer, status, winner, lastMove. */
  datatype Snapshot = Snapshot(board: Board, current: Player, status: Status, winner: Option<Player>, lastMove: Option<Move>)

  /** A well-formed board; only the states the game can reach; a winner exactly on VICTORY. */
  predicate Consistent(s: Snapshot)
  {
    && WellFormed(s.board)
    && s.status != Idle
    && (s.status == Victory <==> s.winner.Some?)
  }

  /** initGame */
  function Initial(): (s: Snapshot)
    ensures Consistent(s)
    ensures forall r, c :: 0 <= r < ROWS && 0 <= c < COLS ==> s.board[r][c] == Empty
    ensures s.current == Red && s.status == Playing && s.winner == None && s.lastMove == None
  {
    Snapshot(EmptyBoard(), Red, Playing, None, None)
  }

  /** dropPiece(col) as a transition of the component state. */
  function Drop(s: Snapshot, col: int): (t: Snapshot)
    requires Consistent(s) && 0 <= col < COLS
    ensures Consistent(t)
    // nothing changes outside PLAYING, or when the column is full
    ensures s.status != Playing || ColumnFull(s.board, col) ==> t == s
    // otherwise the piece lands in the lowest empty row and only that cell changes
    ensures s.status == Playing && !ColumnFull(s.board, col) ==>
              && t.lastMove.Some? && t.lastMove.value.col == col
              && LandsLowest(s.board, t.lastMove.value.row, col)
              && OnlyCellChanged(s.board, t.board, t.lastMove.value.row, col, s.current)
    // and exactly one of: victory for the mover, a draw on a full board, the turn passes
    ensures s.status == Playing && !ColumnFull(s.board, col) ==>
              var m := t.lastMove.value;
              || (HasLineThrough(t.board, m.row, m.col, s.current)
                  && t.status == Victory && t.winner == Some(s.current) && t.current == s.current)
              || (!HasLineThrough(t.board, m.row, m.col, s.current) && BoardFull(t.board)
                  && t.status == GameOver && t.winner == None && t.current == s.current)
              || (!HasLineThrough(t.board, m.row, m.col, s.current) && !BoardFull(t.board)
                  && t.status == Playing && t.winner == None && t.current == Other(s.current))
  {
    if s.status != Playing then s
    else
      var r := LowestEmpty(s.board, col, ROWS);
      if r < 0 then s
      else
        var b := Place(s.board, r, col, s.current);
        WinsIffLine(b, r, col, s.current);
        var placed := s.(board := b, lastMove := Some(Move(r, col)));
        if Wins(b, r, col, s.current) then placed.(status := Victory, winner := Some(s.current))
        else if BoardFull(b) then placed.(status := GameOver)
        else placed.(current := Other(s.current))
  }

  /** Once a game has ended, no drop changes it: a confirmed winning line is final. */
  lemma {:induction false} EndedGameIsFrozen(s: Snapshot, cols: seq<int>)
    requires Consistent(s) && s.status != Playing
    requires forall i :: 0 <= i < |cols| ==> 0 <= cols[i] < COLS
    ensures DropAll(s, cols) == s
  {
    if cols != [] {
      EndedGameIsFrozen(s, cols[1..]);
    }
  }

  /** A sequence of drops, one column per click. */
  function DropAll(s: Snapshot, cols: seq<int>): (t: Snapshot)
    requires Consistent(s)
    requires forall i :: 0 <= i < |cols| ==> 0 <= cols[i] < COLS
    ensures Consistent(t)
    decreases |cols|
  {
    if cols == [] then s else DropAll(Drop(s, cols[0]), cols[1..])
  }

  /** The React component, with its state hooks as fields. */
  class Game {
    var board: Board
    var currentPlayer: Player
    var status: Status
    var winner: Option<Player>
    var lastMove: Option<Move>

    function Snap(): Snapshot
      reads this
    {
      Snapshot(board, currentPlayer, status, winner, lastMove)
    }

    ghost predicate Valid()
      reads this
    {
      Consistent(Snap())
    }

    /** Mounting runs initGame. */
    constructor ()
      ensures Valid() && Snap() == Initial()
    {
      board := EmptyBoard();
      currentPlayer := Red;
      status := Playing;
      winner := None;
      lastMove := None;
    }

    /** initGame, also the retry action of the result dialog. */
    method InitGame()
      modifies this
      ensures Valid() && Snap() == Initial()
    {
      board := EmptyBoard();
      currentPlayer := Red;
      status := Playing;
      winner := None;
      lastMove := None;
    }

    /** dropPiece(colIndex): a click on one of the COLS columns. */
    method DropPiece(colIndex: int)
      requires Valid() && 0 <= colIndex < COLS
      modifies this
      ensures Valid() && Snap() == Drop(old(Snap()), colIndex)
    {
      if status != Playing {
        return;
      }

      var newBoard := board;
      var placedRow := -1;

      // find the lowest empty spot, scanning from the bottom row up
      var r := ROWS;
      while r > 0
        invariant 0 <= r <= ROWS
        invariant placedRow == -1 && newBoard == board
        invariant LowestEmpty(board, colIndex, ROWS) == LowestEmpty(board, colIndex, r)
      {
        r := r - 1;
        if newBoard[r][colIndex] == Empty {
          newBoard := Place(newBoard, r, colIndex, currentPlayer);
          placedRow := r;
          break;
        }
      }

      if placedRow == -1 {
        return; // column full
      }

      board := newBoard;
      lastMove := Some(Move(placedRow, colIndex));

      var won := CheckWin(newBoard, placedRow, colIndex, currentPlayer);
      if won {
        status := Victory;
        winner := Some(currentPlayer);
      } else if BoardFull(newBoard) {
        status := GameOver; // draw
      } else {
        currentPlayer := Other(currentPlayer);
      }
    }
  }
}
