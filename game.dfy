/** The board, the moves and the state transition that both agents share.
    A board is the numpy matrix of cell codes, kept as a sequence of rows:
    `board[x][y]` is `board[x, y]`, the first index running over the numpy
    array's first axis. Cell codes: 0 empty, +1/-1 a horse of MAX/MIN,
    +2/-2 the apple of MAX/MIN. */
module Game {

  type Grid = seq<seq<int>>

  /** Number of columns (length of the numpy array's second axis). */
  function Cols(g: Grid): nat {
    if |g| == 0 then 0 else |g[0]|
  }

  predicate IsRect(g: Grid) {
    forall i :: 0 <= i < |g| ==> |g[i]| == Cols(g)
  }

  predicate InGrid(g: Grid, x: int, y: int) {
    0 <= x < |g| && 0 <= y < Cols(g)
  }

  predicate IsCode(c: int) {
    -2 <= c <= 2
  }

  /** A rectangular board whose cells all hold one of the five codes. */
  predicate ValidGrid(g: Grid) {
    IsRect(g) && forall i, j :: 0 <= i < |g| && 0 <= j < |g[i]| ==> IsCode(g[i][j])
  }

  /** numpy's `v in board`. */
  predicate Holds(g: Grid, v: int) {
    exists i, j | 0 <= i < |g| && 0 <= j < |g[i]| :: g[i][j] == v
  }

  datatype State = State(board: Grid, toMove: int, gameOver: bool, movesRemaining: int, points: int)

  predicate WellFormed(s: State) {
    ValidGrid(s.board) && (s.toMove == 1 || s.toMove == -1)
  }

  /** (xStart, yStart, xEnd, yEnd) */
  datatype Move = Move(xStart: int, yStart: int, xEnd: int, yEnd: int)

  type Offset = (int, int)

  /** The offset table of Dark_Knight.py, also used by the distance and
      attack/defence helpers of suncharn_pipithkul.py. */
  const Directions: seq<Offset> := [(1, -2), (2, -1), (2, 1), (1, 2), (-1, 2), (-2, 1), (-2, -1), (-1, -2)]

  predicate IsKnightOffset(d: Offset) {
    ((d.0 == 1 || d.0 == -1) && (d.1 == 2 || d.1 == -2)) ||
    ((d.0 == 2 || d.0 == -2) && (d.1 == 1 || d.1 == -1))
  }

  /** An enumeration of the eight knight offsets, in some order. */
  ghost predicate IsOffsetTable(dirs: seq<Offset>) {
    |dirs| == 8 && forall d :: d in dirs <==> IsKnightOffset(d)
  }

  lemma DirectionsIsOffsetTable()
    ensures IsOffsetTable(Directions)
  {
    forall d: Offset | IsKnightOffset(d) ensures d in Directions {
      if d.0 == 1 && d.1 == -2 { assert d == Directions[0]; }
      else if d.0 == 2 && d.1 == -1 { assert d == Directions[1]; }
      else if d.0 == 2 && d.1 == 1 { assert d == Directions[2]; }
      else if d.0 == 1 && d.1 == 2 { assert d == Directions[3]; }
      else if d.0 == -1 && d.1 == 2 { assert d == Directions[4]; }
      else if d.0 == -2 && d.1 == 1 { assert d == Directions[5]; }
      else if d.0 == -2 && d.1 == -1 { assert d == Directions[6]; }
      else { assert d == Directions[7]; }
    }
  }

  /** A move the side to move may make: it starts on one of its horses,
      jumps by a knight offset, stays on the board and does not land on
      its own horse or its own apple. */
  predicate IsLegalMove(s: State, m: Move) {
    && InGrid(s.board, m.xStart, m.yStart)
    && InGrid(s.board, m.xEnd, m.yEnd)
    && IsRect(s.board)
    && s.board[m.xStart][m.yStart] == s.toMove
    && IsKnightOffset((m.xEnd - m.xStart, m.yEnd - m.yStart))
    && s.board[m.xEnd][m.yEnd] != s.toMove
    && s.board[m.xEnd][m.yEnd] != 2 * s.toMove
  }

  // ---------------------------------------------------------------------
  // Move generation, in the scan order of getMoveOptions in both
  // Dark_Knight.py and suncharn_pipithkul.py: first axis, then second
  // axis, then the offset table.

  /** The move from (x, y) by offset d, if it is in bounds and not onto an
      own piece; the offset test of the generator's inner loop. */
  function Step(s: State, x: int, y: int, d: Offset): seq<Move>
    requires IsRect(s.board)
  {
    var xEnd, yEnd := x + d.0, y + d.1;
    if InGrid(s.board, xEnd, yEnd) && s.board[xEnd][yEnd] != s.toMove && s.board[xEnd][yEnd] != 2 * s.toMove
    then [Move(x, y, xEnd, yEnd)]
    else []
  }

  /** Moves from (x, y) by the first k offsets of `dirs`, in order. */
  function DirMoves(s: State, x: int, y: int, dirs: seq<Offset>, k: nat): seq<Move>
    requires IsRect(s.board) && k <= |dirs|
  {
    if k == 0 then []
    else DirMoves(s, x, y, dirs, k - 1) + Step(s, x, y, dirs[k - 1])
  }

  function SquareMoves(s: State, x: int, y: int, dirs: seq<Offset>): seq<Move>
    requires IsRect(s.board) && InGrid(s.board, x, y)
  {
    if s.board[x][y] == s.toMove then DirMoves(s, x, y, dirs, |dirs|) else []
  }

  /** Moves from the first n squares of row x. */
  function RowMoves(s: State, x: int, n: nat, dirs: seq<Offset>): seq<Move>
    requires IsRect(s.board) && 0 <= x < |s.board| && n <= Cols(s.board)
  {
    if n == 0 then [] else RowMoves(s, x, n - 1, dirs) + SquareMoves(s, x, n - 1, dirs)
  }

  /** Moves from the first n rows. */
  function BoardMoves(s: State, n: nat, dirs: seq<Offset>): seq<Move>
    requires IsRect(s.board) && n <= |s.board|
  {
    if n == 0 then [] else BoardMoves(s, n - 1, dirs) + RowMoves(s, n - 1, Cols(s.board), dirs)
  }

  /** What getMoveOptions returns when it scans with offset table `dirs`. */
  function LegalMoves(s: State, dirs: seq<Offset>): seq<Move>
    requires IsRect(s.board)
  {
    BoardMoves(s, |s.board|, dirs)
  }

  /** getMoveOptions: nested scans appending every legal move. */
  method GetMoveOptions(s: State, dirs: seq<Offset>) returns (moves: seq<Move>)
    requires IsRect(s.board)
    ensures moves == LegalMoves(s, dirs)
  {
    moves := [];
    var x := 0;
    while x < |s.board|
      invariant 0 <= x <= |s.board|
      invariant moves == BoardMoves(s, x, dirs)
    {
      moves := AppendRowMoves(s, x, dirs, moves);
      assert BoardMoves(s, x + 1, dirs) == BoardMoves(s, x, dirs) + RowMoves(s, x, Cols(s.board), dirs);
      x := x + 1;
    }
  }

  /** The middle loop of getMoveOptions: the moves of the pieces on row x. */
  method AppendRowMoves(s: State, x: int, dirs: seq<Offset>, acc: seq<Move>) returns (moves: seq<Move>)
    requires IsRect(s.board) && 0 <= x < |s.board|
    ensures moves == acc + RowMoves(s, x, Cols(s.board), dirs)
  {
    moves := acc;
    var y := 0;
    while y < Cols(s.board)
      invariant 0 <= y <= Cols(s.board)
      invariant moves == acc + RowMoves(s, x, y, dirs)
    {
      ghost var before := moves;
      if s.board[x][y] == s.toMove {
        moves := AppendPieceMoves(s, x, y, dirs, moves);
      }
      assert moves == before + SquareMoves(s, x, y, dirs);
      assert acc + RowMoves(s, x, y + 1, dirs) == (acc + RowMoves(s, x, y, dirs)) + SquareMoves(s, x, y, dirs);
      y := y + 1;
    }
  }

  /** The innermost loop of getMoveOptions: the moves of the piece on (x, y). */
  method AppendPieceMoves(s: State, x: int, y: int, dirs: seq<Offset>, acc: seq<Move>) returns (moves: seq<Move>)
    requires IsRect(s.board)
    ensures moves == acc + DirMoves(s, x, y, dirs, |dirs|)
  {
    moves := acc;
    var k := 0;
    while k < |dirs|
      invariant 0 <= k <= |dirs|
      invariant moves == acc + DirMoves(s, x, y, dirs, k)
    {
      var (dx, dy) := dirs[k];
      var xEnd, yEnd := x + dx, y + dy;
      ghost var before := moves;
      if 0 <= xEnd < |s.board| && 0 <= yEnd < Cols(s.board)
         && !(s.board[xEnd][yEnd] == s.toMove || s.board[xEnd][yEnd] == 2 * s.toMove)
      {
        moves := moves + [Move(x, y, xEnd, yEnd)];
      }
      assert moves == before + Step(s, x, y, dirs[k]);
      assert DirMoves(s, x, y, dirs, k + 1) == DirMoves(s, x, y, dirs, k) + Step(s, x, y, dirs[k]);
      k := k + 1;
    }
  }

  /** The end square of m is on the board and holds neither a horse nor
      the apple of the side to move. */
  predicate FreeTarget(s: State, m: Move)
    requires IsRect(s.board)
  {
    InGrid(s.board, m.xEnd, m.yEnd) && s.board[m.xEnd][m.yEnd] != s.toMove && s.board[m.xEnd][m.yEnd] != 2 * s.toMove
  }

  /** m starts on a horse of the side to move among the first `rows` rows,
      uses an offset of `dirs` and ends on a free target. */
  predicate Generates(s: State, m: Move, rows: int, dirs: seq<Offset>)
    requires IsRect(s.board)
  {
    && 0 <= m.xStart < rows && InGrid(s.board, m.xStart, m.yStart)
    && s.board[m.xStart][m.yStart] == s.toMove
    && (m.xEnd - m.xStart, m.yEnd - m.yStart) in dirs
    && FreeTarget(s, m)
  }

  /** m is a move from (x, y) by one of the first k offsets of `dirs`. */
  predicate DirMember(s: State, x: int, y: int, dirs: seq<Offset>, k: nat, m: Move)
    requires IsRect(s.board) && k <= |dirs|
  {
    m.xStart == x && m.yStart == y && (m.xEnd - x, m.yEnd - y) in dirs[..k] && FreeTarget(s, m)
  }

  /** m is generated from one of the first n squares of row x. */
  predicate RowMember(s: State, x: int, n: int, dirs: seq<Offset>, m: Move)
    requires IsRect(s.board)
  {
    m.xStart == x && m.yStart < n && Generates(s, m, x + 1, dirs)
  }

  lemma DirMovesStep(s: State, x: int, y: int, dirs: seq<Offset>, k: nat, m: Move)
    requires IsRect(s.board) && 0 < k <= |dirs|
    requires m in DirMoves(s, x, y, dirs, k - 1) <==> DirMember(s, x, y, dirs, k - 1, m)
    ensures m in DirMoves(s, x, y, dirs, k) <==> DirMember(s, x, y, dirs, k, m)
  {
    assert dirs[..k] == dirs[..k - 1] + [dirs[k - 1]];
  }

  lemma {:induction false} DirMovesMembers(s: State, x: int, y: int, dirs: seq<Offset>, k: nat, m: Move)
    requires IsRect(s.board) && k <= |dirs|
    ensures m in DirMoves(s, x, y, dirs, k) <==> DirMember(s, x, y, dirs, k, m)
  {
    assert DirMoves(s, x, y, dirs, 0) == [];
    var j := 0;
    while j < k
      invariant 0 <= j <= k
      invariant m in DirMoves(s, x, y, dirs, j) <==> DirMember(s, x, y, dirs, j, m)
    {
      DirMovesStep(s, x, y, dirs, j + 1, m);
      j := j + 1;
    }
  }

  lemma SquareMovesMembers(s: State, x: int, y: int, dirs: seq<Offset>, m: Move)
    requires IsRect(s.board) && InGrid(s.board, x, y)
    ensures m in SquareMoves(s, x, y, dirs) <==> m.xStart == x && m.yStart == y && Generates(s, m, x + 1, dirs)
  {
    DirMovesMembers(s, x, y, dirs, |dirs|, m);
    assert dirs[..|dirs|] == dirs;
  }

  lemma RowMovesStep(s: State, x: int, n: nat, dirs: seq<Offset>, m: Move)
    requires IsRect(s.board) && 0 <= x < |s.board| && 0 < n <= Cols(s.board)
    requires m in RowMoves(s, x, n - 1, dirs) <==> RowMember(s, x, n - 1, dirs, m)
    ensures m in RowMoves(s, x, n, dirs) <==> RowMember(s, x, n, dirs, m)
  {
    SquareMovesMembers(s, x, n - 1, dirs, m);
    assert RowMoves(s, x, n, dirs) == RowMoves(s, x, n - 1, dirs) + SquareMoves(s, x, n - 1, dirs);
  }

  lemma {:induction false} RowMovesMembers(s: State, x: int, n: nat, dirs: seq<Offset>, m: Move)
    requires IsRect(s.board) && 0 <= x < |s.board| && n <= Cols(s.board)
    ensures m in RowMoves(s, x, n, dirs) <==> RowMember(s, x, n, dirs, m)
  {
    assert RowMoves(s, x, 0, dirs) == [];
    var j := 0;
    while j < n
      invariant 0 <= j <= n
      invariant m in RowMoves(s, x, j, dirs) <==> RowMember(s, x, j, dirs, m)
    {
      RowMovesStep(s, x, j + 1, dirs, m);
      j := j + 1;
    }
  }

  lemma BoardMovesStep(s: State, j: nat, dirs: seq<Offset>, m: Move)
    requires IsRect(s.board) && j < |s.board|
    requires m in BoardMoves(s, j, dirs) <==> Generates(s, m, j, dirs)
    ensures m in BoardMoves(s, j + 1, dirs) <==> Generates(s, m, j + 1, dirs)
  {
    RowMovesMembers(s, j, Cols(s.board), dirs, m);
  }

  lemma {:induction false} BoardMovesMembers(s: State, n: nat, dirs: seq<Offset>, m: Move)
    requires IsRect(s.board) && n <= |s.board|
    ensures m in BoardMoves(s, n, dirs) <==> Generates(s, m, n, dirs)
  {
    assert BoardMoves(s, 0, dirs) == [];
    var j := 0;
    while j < n
      invariant 0 <= j <= n
      invariant m in BoardMoves(s, j, dirs) <==> Generates(s, m, j, dirs)
    {
      BoardMovesStep(s, j, dirs, m);
      j := j + 1;
    }
    assert j == n;
  }

  /** Move generation is sound and complete: with any enumeration of the
      eight knight offsets, a move is generated exactly when it is legal. */
  lemma LegalMovesExact(s: State, dirs: seq<Offset>, m: Move)
    requires IsRect(s.board) && IsOffsetTable(dirs)
    ensures m in LegalMoves(s, dirs) <==> IsLegalMove(s, m)
  {
    BoardMovesMembers(s, |s.board|, dirs, m);
  }

  /** Every generated move is legal (the direction of LegalMovesExact the
      search relies on). */
  lemma LegalMovesAreLegal(s: State, dirs: seq<Offset>)
    requires IsRect(s.board) && IsOffsetTable(dirs)
    ensures forall m :: m in LegalMoves(s, dirs) ==> IsLegalMove(s, m)
  {
    forall m | m in LegalMoves(s, dirs) ensures IsLegalMove(s, m) {
      LegalMovesExact(s, dirs, m);
    }
  }

  // ---------------------------------------------------------------------
  // Scan order of the generated moves.

  predicate StartBefore(a: Move, b: Move) {
    a.xStart < b.xStart || (a.xStart == b.xStart && a.yStart <= b.yStart)
  }

  predicate ScanOrdered(ms: seq<Move>) {
    forall i, j :: 0 <= i < j < |ms| ==> StartBefore(ms[i], ms[j])
  }

  lemma RowMovesOrderedStep(s: State, x: int, n: nat, dirs: seq<Offset>)
    requires IsRect(s.board) && 0 <= x < |s.board| && 0 < n <= Cols(s.board)
    requires ScanOrdered(RowMoves(s, x, n - 1, dirs))
    ensures ScanOrdered(RowMoves(s, x, n, dirs))
  {
    var a, b := RowMoves(s, x, n - 1, dirs), SquareMoves(s, x, n - 1, dirs);
    forall i | 0 <= i < |a| ensures a[i].xStart == x && a[i].yStart < n - 1 {
      RowMovesMembers(s, x, n - 1, dirs, a[i]);
    }
    forall i | 0 <= i < |b| ensures b[i].xStart == x && b[i].yStart == n - 1 {
      SquareMovesMembers(s, x, n - 1, dirs, b[i]);
    }
  }

  lemma {:induction false} RowMovesOrdered(s: State, x: int, n: nat, dirs: seq<Offset>)
    requires IsRect(s.board) && 0 <= x < |s.board| && n <= Cols(s.board)
    ensures ScanOrdered(RowMoves(s, x, n, dirs))
  {
    assert RowMoves(s, x, 0, dirs) == [];
    var j := 0;
    while j < n
      invariant 0 <= j <= n
      invariant ScanOrdered(RowMoves(s, x, j, dirs))
    {
      RowMovesOrderedStep(s, x, j + 1, dirs);
      j := j + 1;
    }
  }

  lemma BoardMovesOrderedStep(s: State, n: nat, dirs: seq<Offset>)
    requires IsRect(s.board) && 0 < n <= |s.board|
    requires ScanOrdered(BoardMoves(s, n - 1, dirs))
    ensures ScanOrdered(BoardMoves(s, n, dirs))
  {
    RowMovesOrdered(s, n - 1, Cols(s.board), dirs);
    var a, b := BoardMoves(s, n - 1, dirs), RowMoves(s, n - 1, Cols(s.board), dirs);
    forall i | 0 <= i < |a| ensures a[i].xStart < n - 1 {
      BoardMovesMembers(s, n - 1, dirs, a[i]);
    }
    forall i | 0 <= i < |b| ensures b[i].xStart == n - 1 {
      RowMovesMembers(s, n - 1, Cols(s.board), dirs, b[i]);
    }
  }

  /** getMoveOptions lists moves square by square in scan order: first
      axis, then second axis (within a square, in offset-table order, as
      DirMoves shows). */
  lemma {:induction false} BoardMovesOrdered(s: State, n: nat, dirs: seq<Offset>)
    requires IsRect(s.board) && n <= |s.board|
    ensures ScanOrdered(BoardMoves(s, n, dirs))
  {
    assert BoardMoves(s, 0, dirs) == [];
    var j := 0;
    while j < n
      invariant 0 <= j <= n
      invariant ScanOrdered(BoardMoves(s, j, dirs))
    {
      BoardMovesOrderedStep(s, j + 1, dirs);
      j := j + 1;
    }
  }

  // ---------------------------------------------------------------------
  // State transition.

  /** Board with cell (x, y) set to v. */
  function Place(g: Grid, x: int, y: int, v: int): (r: Grid)
    requires IsRect(g) && InGrid(g, x, y)
    ensures |r| == |g| && IsRect(r) && Cols(r) == Cols(g)
  {
    g[x := g[x][y := v]]
  }

  /** The state makeMove returns: the start square emptied, the mover's
      horse on the end square, the other side to move, one move fewer left;
      over with the mover's win if the opponent's apple was taken or the
      opponent has no horse left, else over with a draw if no move is left. */
  function Successor(s: State, m: Move, victoryPoints: int): State
    requires IsRect(s.board) && InGrid(s.board, m.xStart, m.yStart) && InGrid(s.board, m.xEnd, m.yEnd)
  {
    var board := Place(Place(s.board, m.xStart, m.yStart, 0), m.xEnd, m.yEnd, s.toMove);
    var left := s.movesRemaining - 1;
    if s.board[m.xEnd][m.yEnd] == -2 * s.toMove || !Holds(board, -s.toMove) then
      State(board, -s.toMove, true, left, s.toMove * (victoryPoints + left))
    else if left == 0 then
      State(board, -s.toMove, true, left, 0)
    else
      State(board, -s.toMove, false, left, 0)
  }

  /** numpy's `v in board`, as a scan. */
  method Contains(g: Grid, v: int) returns (found: bool)
    ensures found <==> Holds(g, v)
  {
    found := false;
    var i := 0;
    while i < |g| && !found
      invariant 0 <= i <= |g|
      invariant found <==> exists a, b | 0 <= a < i && 0 <= b < |g[a]| :: g[a][b] == v
    {
      var j := 0;
      while j < |g[i]| && !found
        invariant 0 <= j <= |g[i]|
        invariant found <==> exists b | 0 <= b < j :: g[i][b] == v
      {
        found := g[i][j] == v;
        j := j + 1;
      }
      i := i + 1;
    }
  }

  /** makeMove: copy the board (a sequence is a value, so the parent's
      board cannot change), write the two cells, flip the side, count down
      and detect the end of the game. */
  method MakeMove(s: State, m: Move, victoryPoints: int) returns (next: State)
    requires IsRect(s.board) && InGrid(s.board, m.xStart, m.yStart) && InGrid(s.board, m.xEnd, m.yEnd)
    ensures next == Successor(s, m, victoryPoints)
  {
    var board := s.board;
    board := Place(board, m.xStart, m.yStart, 0);
    board := Place(board, m.xEnd, m.yEnd, s.toMove);
    next := State(board, -s.toMove, false, s.movesRemaining - 1, 0);
    var opponentLeft := Contains(board, -s.toMove);
    if s.board[m.xEnd][m.yEnd] == -2 * s.toMove || !opponentLeft {
      next := next.(gameOver := true, points := s.toMove * (victoryPoints + next.movesRemaining));
    } else if next.movesRemaining == 0 {
      next := next.(gameOver := true);
    }
  }

  /** Only the two squares of the move change. */
  lemma SuccessorBoard(s: State, m: Move, victoryPoints: int)
    requires IsRect(s.board) && InGrid(s.board, m.xStart, m.yStart) && InGrid(s.board, m.xEnd, m.yEnd)
    ensures var t := Successor(s, m, victoryPoints);
      && |t.board| == |s.board| && IsRect(t.board) && Cols(t.board) == Cols(s.board)
      && t.board[m.xEnd][m.yEnd] == s.toMove
      && (m.xStart != m.xEnd || m.yStart != m.yEnd ==> t.board[m.xStart][m.yStart] == 0)
      && forall i, j :: InGrid(s.board, i, j) && (i != m.xStart || j != m.yStart) && (i != m.xEnd || j != m.yEnd)
           ==> t.board[i][j] == s.board[i][j]
  {
  }

  /** The side flips and exactly one move is used up. Taking the opponent's
      apple, or leaving the opponent without a horse, ends the game as the
      mover's win, worth the mover's sign times the victory points plus the
      moves still left; otherwise running out of moves ends it as a draw
      worth 0, and any other move leaves the game running with 0 points. */
  lemma SuccessorCounters(s: State, m: Move, victoryPoints: int)
    requires IsRect(s.board) && InGrid(s.board, m.xStart, m.yStart) && InGrid(s.board, m.xEnd, m.yEnd)
    ensures var t := Successor(s, m, victoryPoints);
      && t.toMove == -s.toMove
      && t.movesRemaining == s.movesRemaining - 1
      && (!t.gameOver ==> t.points == 0 && t.movesRemaining != 0)
      && (t.points != 0 ==> t.gameOver && t.points == s.toMove * (victoryPoints + t.movesRemaining))
      && (t.movesRemaining == 0 ==> t.gameOver)
    ensures var t := Successor(s, m, victoryPoints);
      var win := s.board[m.xEnd][m.yEnd] == -2 * s.toMove || !Holds(t.board, -s.toMove);
      && (win ==> t.gameOver && t.points == s.toMove * (victoryPoints + t.movesRemaining))
      && (!win && t.movesRemaining == 0 ==> t.gameOver && t.points == 0)
      && (!win && t.movesRemaining != 0 ==> !t.gameOver)
  {
  }

  lemma PlaceKeepsCodes(g: Grid, x: int, y: int, v: int)
    requires ValidGrid(g) && InGrid(g, x, y) && IsCode(v)
    ensures ValidGrid(Place(g, x, y, v))
  {
  }

  /** Successors of a well-formed state are well formed, and a successor
      that is not over still has a horse of each side: the mover's is on
      the end square, and the opponent's is why the game is not over. */
  lemma SuccessorWellFormed(s: State, m: Move, victoryPoints: int)
    requires WellFormed(s) && InGrid(s.board, m.xStart, m.yStart) && InGrid(s.board, m.xEnd, m.yEnd)
    ensures var t := Successor(s, m, victoryPoints);
      && WellFormed(t) && |t.board| == |s.board| && Cols(t.board) == Cols(s.board)
      && (!t.gameOver ==> Holds(t.board, 1) && Holds(t.board, -1))
  {
    var t := Successor(s, m, victoryPoints);
    PlaceKeepsCodes(s.board, m.xStart, m.yStart, 0);
    PlaceKeepsCodes(Place(s.board, m.xStart, m.yStart, 0), m.xEnd, m.yEnd, s.toMove);
    assert t.board[m.xEnd][m.yEnd] == s.toMove;
    assert Holds(t.board, s.toMove);
  }

  // ---------------------------------------------------------------------
  // Side symmetry.

  function Negated(g: Grid): (r: Grid)
    ensures |r| == |g|
    ensures forall i :: 0 <= i < |g| ==> |r[i]| == |g[i]|
    ensures forall i, j :: 0 <= i < |g| && 0 <= j < |g[i]| ==> r[i][j] == -g[i][j]
  {
    seq(|g|, i requires 0 <= i < |g| => seq(|g[i]|, j requires 0 <= j < |g[i]| => -g[i][j]))
  }

  /** The same position with the colours swapped. */
  function Mirror(s: State): State {
    State(Negated(s.board), -s.toMove, s.gameOver, s.movesRemaining, -s.points)
  }

  /** t has the board shape of s, and each cell of t holds a piece of the
      side to move in t exactly where s holds one of the side to move in s:
      everything move generation looks at. */
  ghost predicate SameView(s: State, t: State)
    requires IsRect(s.board) && IsRect(t.board)
  {
    && |t.board| == |s.board| && Cols(t.board) == Cols(s.board)
    && forall i, j :: InGrid(s.board, i, j) ==>
         (t.board[i][j] == t.toMove <==> s.board[i][j] == s.toMove) &&
         (t.board[i][j] == 2 * t.toMove <==> s.board[i][j] == 2 * s.toMove)
  }

  lemma SameViewStep(s: State, t: State, x: int, y: int, d: Offset)
    requires IsRect(s.board) && IsRect(t.board) && SameView(s, t)
    ensures Step(t, x, y, d) == Step(s, x, y, d)
  {
    var xEnd, yEnd := x + d.0, y + d.1;
    if InGrid(s.board, xEnd, yEnd) {
      assert (t.board[xEnd][yEnd] == t.toMove <==> s.board[xEnd][yEnd] == s.toMove);
    }
  }

  lemma {:induction false} SameViewDirMoves(s: State, t: State, x: int, y: int, dirs: seq<Offset>, k: nat)
    requires IsRect(s.board) && IsRect(t.board) && SameView(s, t) && k <= |dirs|
    ensures DirMoves(t, x, y, dirs, k) == DirMoves(s, x, y, dirs, k)
  {
    assert DirMoves(t, x, y, dirs, 0) == [] == DirMoves(s, x, y, dirs, 0);
    var j := 0;
    while j < k
      invariant 0 <= j <= k
      invariant DirMoves(t, x, y, dirs, j) == DirMoves(s, x, y, dirs, j)
    {
      SameViewStep(s, t, x, y, dirs[j]);
      j := j + 1;
    }
  }

  lemma SameViewSquareMoves(s: State, t: State, x: int, y: int, dirs: seq<Offset>)
    requires IsRect(s.board) && IsRect(t.board) && SameView(s, t) && InGrid(s.board, x, y)
    ensures InGrid(t.board, x, y) && SquareMoves(t, x, y, dirs) == SquareMoves(s, x, y, dirs)
  {
    SameViewDirMoves(s, t, x, y, dirs, |dirs|);
    assert (t.board[x][y] == t.toMove <==> s.board[x][y] == s.toMove);
  }

  lemma {:induction false} SameViewRowMoves(s: State, t: State, x: int, n: nat, dirs: seq<Offset>)
    requires IsRect(s.board) && IsRect(t.board) && SameView(s, t) && 0 <= x < |s.board| && n <= Cols(s.board)
    ensures RowMoves(t, x, n, dirs) == RowMoves(s, x, n, dirs)
  {
    assert RowMoves(t, x, 0, dirs) == [] == RowMoves(s, x, 0, dirs);
    var j := 0;
    while j < n
      invariant 0 <= j <= n
      invariant RowMoves(t, x, j, dirs) == RowMoves(s, x, j, dirs)
    {
      SameViewSquareMoves(s, t, x, j, dirs);
      j := j + 1;
    }
    assert j == n;
  }

  /** Two states with the same view generate the same moves. */
  lemma {:induction false} SameViewLegalMoves(s: State, t: State, dirs: seq<Offset>)
    requires IsRect(s.board) && IsRect(t.board) && SameView(s, t)
    ensures LegalMoves(t, dirs) == LegalMoves(s, dirs)
  {
    var n := |s.board|;
    assert BoardMoves(t, 0, dirs) == [] == BoardMoves(s, 0, dirs);
    var k := 0;
    while k < n
      invariant 0 <= k <= n
      invariant BoardMoves(t, k, dirs) == BoardMoves(s, k, dirs)
    {
      SameViewRowMoves(s, t, k, Cols(s.board), dirs);
      k := k + 1;
    }
    assert k == n;
  }

  lemma MirrorSameView(s: State)
    requires IsRect(s.board)
    ensures IsRect(Mirror(s).board) && SameView(s, Mirror(s))
  {
  }

  /** Swapping colours and the side to move leaves the move list unchanged. */
  lemma MirrorLegalMoves(s: State, dirs: seq<Offset>)
    requires IsRect(s.board)
    ensures IsRect(Mirror(s).board) && LegalMoves(Mirror(s), dirs) == LegalMoves(s, dirs)
  {
    MirrorSameView(s);
    SameViewLegalMoves(s, Mirror(s), dirs);
  }

  /** Writing a cell and swapping colours commute. */
  lemma NegatedPlace(g: Grid, x: int, y: int, v: int)
    requires IsRect(g) && InGrid(g, x, y)
    ensures IsRect(Negated(g)) && InGrid(Negated(g), x, y)
    ensures Place(Negated(g), x, y, -v) == Negated(Place(g, x, y, v))
  {
    var l, r := Place(Negated(g), x, y, -v), Negated(Place(g, x, y, v));
    forall i | 0 <= i < |g| ensures l[i] == r[i] {
    }
  }

  /** A colour is on the board exactly when its opposite is on the swapped board. */
  lemma HoldsNegated(g: Grid, v: int)
    ensures Holds(Negated(g), -v) <==> Holds(g, v)
  {
    if Holds(g, v) {
      var i, j :| 0 <= i < |g| && 0 <= j < |g[i]| && g[i][j] == v;
      assert Negated(g)[i][j] == -v;
    }
    if Holds(Negated(g), -v) {
      var i, j :| 0 <= i < |Negated(g)| && 0 <= j < |Negated(g)[i]| && Negated(g)[i][j] == -v;
      assert g[i][j] == v;
    }
  }

  /** The transition commutes with swapping colours: the terminal test is
      side-symmetric. */
  lemma MirrorSuccessor(s: State, m: Move, victoryPoints: int)
    requires IsRect(s.board) && InGrid(s.board, m.xStart, m.yStart) && InGrid(s.board, m.xEnd, m.yEnd)
    ensures Successor(Mirror(s), m, victoryPoints) == Mirror(Successor(s, m, victoryPoints))
  {
    var b1 := Place(s.board, m.xStart, m.yStart, 0);
    var b2 := Place(b1, m.xEnd, m.yEnd, s.toMove);
    NegatedPlace(s.board, m.xStart, m.yStart, 0);
    NegatedPlace(b1, m.xEnd, m.yEnd, s.toMove);
    assert Place(Place(Negated(s.board), m.xStart, m.yStart, 0), m.xEnd, m.yEnd, -s.toMove) == Negated(b2);
    HoldsNegated(b2, -s.toMove);
    assert Negated(s.board)[m.xEnd][m.yEnd] == -s.board[m.xEnd][m.yEnd];
  }

  // ---------------------------------------------------------------------
  // Knight neighbours holding a given code, as the attack and defence
  // counters of both agents count them.

  /** (x, y) is a board square holding v. */
  predicate HoldsAt(g: Grid, x: int, y: int, v: int)
    requires IsRect(g)
  {
    InGrid(g, x, y) && g[x][y] == v
  }

  /** How many of the first k offsets of dirs lead from (x, y) to a board
      square holding v. */
  function NeighbourCount(g: Grid, x: int, y: int, v: int, dirs: seq<Offset>, k: nat): (n: nat)
    requires IsRect(g) && k <= |dirs|
    ensures n <= k
  {
    if k == 0 then 0
    else NeighbourCount(g, x, y, v, dirs, k - 1) + (if HoldsAt(g, x + dirs[k - 1].0, y + dirs[k - 1].1, v) then 1 else 0)
  }

  /** Some of the first k offsets leads to v. */
  predicate SomeNeighbourHolds(g: Grid, x: int, y: int, v: int, dirs: seq<Offset>, k: nat)
    requires IsRect(g) && k <= |dirs|
  {
    exists i :: 0 <= i < k && HoldsAt(g, x + dirs[i].0, y + dirs[i].1, v)
  }

  lemma NeighbourCountPositiveStep(g: Grid, x: int, y: int, v: int, dirs: seq<Offset>, k: nat)
    requires IsRect(g) && 0 < k <= |dirs|
    requires NeighbourCount(g, x, y, v, dirs, k - 1) > 0 <==> SomeNeighbourHolds(g, x, y, v, dirs, k - 1)
    ensures NeighbourCount(g, x, y, v, dirs, k) > 0 <==> SomeNeighbourHolds(g, x, y, v, dirs, k)
  {
    if SomeNeighbourHolds(g, x, y, v, dirs, k) && !HoldsAt(g, x + dirs[k - 1].0, y + dirs[k - 1].1, v) {
      var i :| 0 <= i < k && HoldsAt(g, x + dirs[i].0, y + dirs[i].1, v);
      assert i < k - 1;
    }
  }

  /** The count is positive exactly when some counted neighbour holds v. */
  lemma {:induction false} NeighbourCountPositive(g: Grid, x: int, y: int, v: int, dirs: seq<Offset>, k: nat)
    requires IsRect(g) && k <= |dirs|
    ensures NeighbourCount(g, x, y, v, dirs, k) > 0 <==> SomeNeighbourHolds(g, x, y, v, dirs, k)
  {
    var j := 0;
    while j < k
      invariant 0 <= j <= k
      invariant NeighbourCount(g, x, y, v, dirs, j) > 0 <==> SomeNeighbourHolds(g, x, y, v, dirs, j)
    {
      NeighbourCountPositiveStep(g, x, y, v, dirs, j + 1);
      j := j + 1;
    }
  }

  /** A square holds one code at a time: the counts of two different codes
      add up to at most the number of offsets. */
  lemma {:induction false} NeighbourCountsDisjoint(g: Grid, x: int, y: int, v: int, w: int, dirs: seq<Offset>, k: nat)
    requires IsRect(g) && k <= |dirs| && v != w
    ensures NeighbourCount(g, x, y, v, dirs, k) + NeighbourCount(g, x, y, w, dirs, k) <= k
  {
    var j := 0;
    while j < k
      invariant 0 <= j <= k
      invariant NeighbourCount(g, x, y, v, dirs, j) + NeighbourCount(g, x, y, w, dirs, j) <= j
    {
      j := j + 1;
    }
  }

  // ---------------------------------------------------------------------
  // The wall clock. Both agents poll timeOut() while they search; the
  // clock is an oracle whose i-th answer, counting from 0 at the start of
  // getMove, is clock(i).

  datatype Option<T> = None | Some(value: T)

  /** The clock never fires. */
  ghost predicate NeverFires(clock: nat -> bool) {
    forall i :: !clock(i)
  }

  /** The clock fires on every poll. */
  ghost predicate AlwaysFires(clock: nat -> bool) {
    forall i :: clock(i)
  }

  // ---------------------------------------------------------------------
  // Order of the moves generated from one square.

  /** Offset d from (x, y) lands in bounds on a square the mover may enter. */
  predicate OpenStep(s: State, x: int, y: int, d: Offset)
    requires IsRect(s.board)
  {
    InGrid(s.board, x + d.0, y + d.1)
    && s.board[x + d.0][y + d.1] != s.toMove && s.board[x + d.0][y + d.1] != 2 * s.toMove
  }

  /** `ks` names, for each move of `ms`, the index of its offset in `dirs`:
      strictly increasing, below k, each an open offset, and naming every
      open offset below k. */
  ghost predicate InTableOrder(s: State, x: int, y: int, dirs: seq<Offset>, k: nat, ms: seq<Move>, ks: seq<nat>)
    requires IsRect(s.board) && k <= |dirs|
  {
    && |ks| == |ms|
    && (forall i, j :: 0 <= i < j < |ks| ==> ks[i] < ks[j])
    && (forall i :: 0 <= i < |ks| ==>
          ks[i] < k && OpenStep(s, x, y, dirs[ks[i]]) && ms[i] == Move(x, y, x + dirs[ks[i]].0, y + dirs[ks[i]].1))
    && (forall j :: 0 <= j < k && OpenStep(s, x, y, dirs[j]) ==> j in ks)
  }

  /** The moves from the first k offsets are the open ones, in table order. */
  lemma {:induction false} DirMovesInTableOrder(s: State, x: int, y: int, dirs: seq<Offset>, k: nat) returns (ks: seq<nat>)
    requires IsRect(s.board) && k <= |dirs|
    ensures InTableOrder(s, x, y, dirs, k, DirMoves(s, x, y, dirs, k), ks)
  {
    if k > 0 {
      var ks0 := DirMovesInTableOrder(s, x, y, dirs, k - 1);
      var ms0 := DirMoves(s, x, y, dirs, k - 1);
      var d := dirs[k - 1];
      DirMovesUnfold(s, x, y, dirs, k);
      if OpenStep(s, x, y, d) {
        ks := ks0 + [k - 1];
        InTableOrderExtend(s, x, y, dirs, k, ms0, ks0);
      } else {
        ks := ks0;
        InTableOrderSkip(s, x, y, dirs, k, ms0, ks0);
      }
    } else {
      ks := [];
    }
  }

  lemma InTableOrderExtend(s: State, x: int, y: int, dirs: seq<Offset>, k: nat, ms: seq<Move>, ks: seq<nat>)
    requires IsRect(s.board) && 0 < k <= |dirs| && InTableOrder(s, x, y, dirs, k - 1, ms, ks)
    requires OpenStep(s, x, y, dirs[k - 1])
    ensures var d := dirs[k - 1];
      InTableOrder(s, x, y, dirs, k, ms + [Move(x, y, x + d.0, y + d.1)], ks + [k - 1])
  {
  }

  lemma InTableOrderSkip(s: State, x: int, y: int, dirs: seq<Offset>, k: nat, ms: seq<Move>, ks: seq<nat>)
    requires IsRect(s.board) && 0 < k <= |dirs| && InTableOrder(s, x, y, dirs, k - 1, ms, ks)
    requires !OpenStep(s, x, y, dirs[k - 1])
    ensures InTableOrder(s, x, y, dirs, k, ms, ks)
  {
  }

  lemma DirMovesUnfold(s: State, x: int, y: int, dirs: seq<Offset>, k: nat)
    requires IsRect(s.board) && 0 < k <= |dirs|
    ensures var d := dirs[k - 1];
      DirMoves(s, x, y, dirs, k)
      == DirMoves(s, x, y, dirs, k - 1) + (if OpenStep(s, x, y, d) then [Move(x, y, x + d.0, y + d.1)] else [])
  {
  }

  /** Within one square the generated moves follow the offset table: a
      horse's moves are exactly its open offsets, listed in `dirs` order
      (the order in which suncharn's two tables differ); any other square
      yields none. */
  lemma SquareMovesInTableOrder(s: State, x: int, y: int, dirs: seq<Offset>) returns (ks: seq<nat>)
    requires IsRect(s.board) && InGrid(s.board, x, y)
    ensures var ms := SquareMoves(s, x, y, dirs);
      && |ks| == |ms|
      && (forall i, j :: 0 <= i < j < |ks| ==> ks[i] < ks[j])
      && (forall i :: 0 <= i < |ks| ==>
            ks[i] < |dirs| && OpenStep(s, x, y, dirs[ks[i]])
            && ms[i] == Move(x, y, x + dirs[ks[i]].0, y + dirs[ks[i]].1))
      && (forall j :: 0 <= j < |dirs| && s.board[x][y] == s.toMove && OpenStep(s, x, y, dirs[j]) ==> j in ks)
      && (s.board[x][y] != s.toMove ==> ks == [])
  {
    if s.board[x][y] == s.toMove {
      ks := DirMovesInTableOrder(s, x, y, dirs, |dirs|);
    } else {
      ks := [];
    }
  }
}
