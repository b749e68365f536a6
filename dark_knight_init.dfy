/** Dark_Knight.py, initPlayer: the apple-distance tables of both players
    and the positional table posScore derived from them. appleDistance[pl]
    and posScore[pl] are one `array2` each (`dist0`/`dist1`, `pos0`/`pos1`). */
module DarkKnightInit {
  import opened Game
  import opened KnightGraph
  import opened DistanceLabels
  import opened DarkKnightDistance

  /** defenseScore[d]: bonus for a square d moves from the player's own apple. */
  const DefenseScore: seq<int> := [0, 2, 2, 0]
  /** attackScore[d]: bonus for a square d moves from the opponent's apple. */
  const AttackScore: seq<int> := [0, 6, 3, 1]

  function Min(a: int, b: int): int {
    if a < b then a else b
  }

  /** Python list indexing: a negative index counts from the end. */
  function PyIndex(t: seq<int>, i: int): int
    requires -|t| <= i < |t|
  {
    if i < 0 then t[|t| + i] else t[i]
  }

  /** How far (x, y) is from the edges, each axis capped at 2. */
  function Centrality(x: int, y: int, width: int, height: int): (r: int)
    requires 0 <= x < width && 0 <= y < height
    ensures 0 <= r <= 4
    ensures r == 4 <==> 2 <= x < width - 2 && 2 <= y < height - 2
    ensures r == 0 <==> (x == 0 || x == width - 1) && (y == 0 || y == height - 1)
  {
    Min(2, Min(x, width - 1 - x)) + Min(2, Min(y, height - 1 - y))
  }

  /** The board is symmetric for centrality under both reflections. */
  lemma CentralitySymmetric(x: int, y: int, width: int, height: int)
    requires 0 <= x < width && 0 <= y < height
    ensures Centrality(x, y, width, height) == Centrality(width - 1 - x, y, width, height)
    ensures Centrality(x, y, width, height) == Centrality(x, height - 1 - y, width, height)
  {
  }

  /** posScore[pl, x, y] for a square `own` moves from the player's apple
      and `opp` moves from the opponent's (-1: no such apple). */
  function PosScoreEntry(x: int, y: int, width: int, height: int, own: int, opp: int): (r: int)
    requires 0 <= x < width && 0 <= y < height && own >= -1 && opp >= -1
    ensures 0 <= r <= 12
  {
    Centrality(x, y, width, height)
      + (if own < 4 then PyIndex(DefenseScore, own) else 0)
      + (if opp < 4 then PyIndex(AttackScore, opp) else 0)
  }

  /** The bonuses in words: one or two moves from the own apple earn 2;
      one, two or three moves from the opponent's apple earn 6, 3 or 1. */
  lemma PosScoreBonuses(x: int, y: int, width: int, height: int, own: nat, opp: nat)
    requires 0 <= x < width && 0 <= y < height
    ensures PosScoreEntry(x, y, width, height, own, opp) - Centrality(x, y, width, height) ==
      (if own == 1 || own == 2 then 2 else 0) +
      (if opp == 1 then 6 else if opp == 2 then 3 else if opp == 3 then 1 else 0)
  {
  }

  /** With no apple of a side on the board its table stays -1, and Python
      reads defenseScore[-1] and attackScore[-1]: the missing apple counts
      as three moves away. */
  lemma MissingAppleAsThree(x: int, y: int, width: int, height: int, own: int, opp: int)
    requires 0 <= x < width && 0 <= y < height && own >= -1 && opp >= -1
    ensures PosScoreEntry(x, y, width, height, -1, opp) == PosScoreEntry(x, y, width, height, 3, opp)
    ensures PosScoreEntry(x, y, width, height, own, -1) == PosScoreEntry(x, y, width, height, own, 3)
  {
  }

  /** Every entry of a distance table is -1 or a distance. */
  ghost predicate EntriesAtLeastMinusOne(a: array2<int>)
    reads a
  {
    forall x, y :: 0 <= x < a.Length0 && 0 <= y < a.Length1 ==> a[x, y] >= -1
  }

  /** posScore holds PosScoreEntry for both players on every square. */
  ghost predicate PosScoresFilled(dist0: array2<int>, dist1: array2<int>, pos0: array2<int>, pos1: array2<int>, n: int)
    reads dist0, dist1, pos0, pos1
    requires SameShape(dist0, dist1, pos0, pos1)
    requires EntriesAtLeastMinusOne(dist0) && EntriesAtLeastMinusOne(dist1)
  {
    forall x, y :: 0 <= x < n && x < dist0.Length0 && 0 <= y < dist0.Length1 ==>
      pos0[x, y] == PosScoreEntry(x, y, dist0.Length0, dist0.Length1, dist0[x, y], dist1[x, y]) &&
      pos1[x, y] == PosScoreEntry(x, y, dist0.Length0, dist0.Length1, dist1[x, y], dist0[x, y])
  }

  predicate SameShape(dist0: array2<int>, dist1: array2<int>, pos0: array2<int>, pos1: array2<int>) {
    dist1.Length0 == pos0.Length0 == pos1.Length0 == dist0.Length0 &&
    dist1.Length1 == pos0.Length1 == pos1.Length1 == dist0.Length1
  }

  /** The `for y` and `for pl` loops of the posScore pass, for one x. */
  method PosScoreRow(dist0: array2<int>, dist1: array2<int>, pos0: array2<int>, pos1: array2<int>, x: int)
    requires SameShape(dist0, dist1, pos0, pos1) && 0 <= x < dist0.Length0
    requires pos0 != pos1 && pos0 != dist0 && pos0 != dist1 && pos1 != dist0 && pos1 != dist1
    requires EntriesAtLeastMinusOne(dist0) && EntriesAtLeastMinusOne(dist1)
    requires PosScoresFilled(dist0, dist1, pos0, pos1, x)
    modifies pos0, pos1
    ensures PosScoresFilled(dist0, dist1, pos0, pos1, x + 1)
  {
    var width, height := dist0.Length0, dist0.Length1;
    var y := 0;
    while y < height
      invariant 0 <= y <= height
      invariant PosScoresFilled(dist0, dist1, pos0, pos1, x)
      invariant forall j :: 0 <= j < y ==>
        pos0[x, j] == PosScoreEntry(x, j, width, height, dist0[x, j], dist1[x, j]) &&
        pos1[x, j] == PosScoreEntry(x, j, width, height, dist1[x, j], dist0[x, j])
    {
      var centrality := Min(2, Min(x, width - 1 - x)) + Min(2, Min(y, height - 1 - y));
      var own, opp := dist0[x, y], dist1[x, y];
      var score0, score1 := centrality, centrality;
      if own < 4 {
        score0 := score0 + PyIndex(DefenseScore, own);
      }
      if opp < 4 {
        score0 := score0 + PyIndex(AttackScore, opp);
      }
      if opp < 4 {
        score1 := score1 + PyIndex(DefenseScore, opp);
      }
      if own < 4 {
        score1 := score1 + PyIndex(AttackScore, own);
      }
      pos0[x, y], pos1[x, y] := score0, score1;
      y := y + 1;
    }
  }

  /** The posScore pass of initPlayer. */
  method InitPosScore(dist0: array2<int>, dist1: array2<int>, pos0: array2<int>, pos1: array2<int>)
    requires SameShape(dist0, dist1, pos0, pos1)
    requires pos0 != pos1 && pos0 != dist0 && pos0 != dist1 && pos1 != dist0 && pos1 != dist1
    requires EntriesAtLeastMinusOne(dist0) && EntriesAtLeastMinusOne(dist1)
    modifies pos0, pos1
    ensures PosScoresFilled(dist0, dist1, pos0, pos1, dist0.Length0)
  {
    var x := 0;
    while x < dist0.Length0
      invariant 0 <= x <= dist0.Length0
      invariant PosScoresFilled(dist0, dist1, pos0, pos1, x)
    {
      PosScoreRow(dist0, dist1, pos0, pos1, x);
      x := x + 1;
    }
  }

  // ---------------------------------------------------------------------
  // The apple scan of initPlayer.

  /** (i, j) comes before (x, y) in the x-major scan. */
  predicate Before(i: int, j: int, x: int, y: int) {
    i < x || (i == x && j < y)
  }

  /** The board holds at most one apple with this code. */
  ghost predicate OneApple(board: Grid, code: int) {
    IsRect(board) && forall x1, y1, x2, y2 ::
      (InGrid(board, x1, y1) && InGrid(board, x2, y2) && board[x1][y1] == code && board[x2][y2] == code) ==>
      x1 == x2 && y1 == y2
  }

  /** Every board square is knight-reachable from the apple with this code. */
  ghost predicate AppleReachesAll(board: Grid, code: int) {
    IsRect(board) && forall x, y :: InGrid(board, x, y) && board[x][y] == code ==> AllReachable(Dims(|board|, Cols(board)), (x, y))
  }

  /** After scanning the squares before (x, y): the table is the distance
      table of the apple with this code if the scan has met it, and all -1
      otherwise. */
  ghost predicate TableSoFar(dist: array2<int>, board: Grid, code: int, x: int, y: int)
    reads dist
  {
    IsRect(board) && dist.Length0 == |board| && dist.Length1 == Cols(board) &&
    (forall i, j :: InGrid(board, i, j) && Before(i, j, x, y) && board[i][j] == code ==>
      IsDistanceMatrix(dist, DimsOf(dist), (i, j))) &&
    ((forall i, j :: InGrid(board, i, j) && Before(i, j, x, y) ==> board[i][j] != code) ==>
      forall i, j :: 0 <= i < dist.Length0 && 0 <= j < dist.Length1 ==> dist[i, j] == -1)
  }

  /** One square of the scan: `if startState.board[x, y] == code`, fill the
      table from it. */
  method VisitApple(board: Grid, dist: array2<int>, code: int, x: int, y: int)
    requires IsRect(board) && InGrid(board, x, y)
    requires OneApple(board, code) && AppleReachesAll(board, code)
    requires TableSoFar(dist, board, code, x, y)
    modifies dist
    ensures TableSoFar(dist, board, code, x, y + 1)
  {
    if board[x][y] == code {
      forall i, j | 0 <= i < dist.Length0 && 0 <= j < dist.Length1 ensures dist[i, j] == -1 {
        forall i', j' | InGrid(board, i', j') && Before(i', j', x, y) ensures board[i'][j'] != code {
        }
      }
      SetAppleDistance(dist, x, y);
    }
  }

  /** The `for y` loop of the apple scan, for one x. */
  method AppleRow(board: Grid, dist0: array2<int>, dist1: array2<int>, x: int)
    requires IsRect(board) && 0 <= x < |board| && dist0 != dist1
    requires OneApple(board, 2) && AppleReachesAll(board, 2) && OneApple(board, -2) && AppleReachesAll(board, -2)
    requires TableSoFar(dist0, board, 2, x, 0) && TableSoFar(dist1, board, -2, x, 0)
    modifies dist0, dist1
    ensures TableSoFar(dist0, board, 2, x + 1, 0) && TableSoFar(dist1, board, -2, x + 1, 0)
  {
    var y := 0;
    while y < Cols(board)
      invariant 0 <= y <= Cols(board)
      invariant TableSoFar(dist0, board, 2, x, y) && TableSoFar(dist1, board, -2, x, y)
    {
      VisitApple(board, dist0, 2, x, y);
      VisitApple(board, dist1, -2, x, y);
      y := y + 1;
    }
    RowDone(board, dist0, 2, x);
    RowDone(board, dist1, -2, x);
  }

  /** Having scanned all of row x is having scanned everything before row x + 1. */
  lemma RowDone(board: Grid, dist: array2<int>, code: int, x: int)
    requires IsRect(board) && 0 <= x < |board|
    requires TableSoFar(dist, board, code, x, Cols(board))
    ensures TableSoFar(dist, board, code, x + 1, 0)
  {
    assert forall i, j :: InGrid(board, i, j) ==> (Before(i, j, x, Cols(board)) <==> Before(i, j, x + 1, 0));
  }

  /** initPlayer: the distance tables of both apples, then posScore. A
      board with two apples of one colour, or with a square its apple
      cannot reach, is outside what setAppleDistance handles. */
  method InitPlayer(board: Grid) returns (dist0: array2<int>, dist1: array2<int>, pos0: array2<int>, pos1: array2<int>)
    requires IsRect(board)
    requires OneApple(board, 2) && AppleReachesAll(board, 2) && OneApple(board, -2) && AppleReachesAll(board, -2)
    ensures SameShape(dist0, dist1, pos0, pos1) && dist0.Length0 == |board| && dist0.Length1 == Cols(board)
    ensures TableSoFar(dist0, board, 2, |board|, 0) && TableSoFar(dist1, board, -2, |board|, 0)
    ensures EntriesAtLeastMinusOne(dist0) && EntriesAtLeastMinusOne(dist1)
    ensures PosScoresFilled(dist0, dist1, pos0, pos1, |board|)
  {
    var width, height := |board|, Cols(board);
    dist0 := new int[width, height]((i, j) => -1);
    dist1 := new int[width, height]((i, j) => -1);
    pos0 := new int[width, height]((i, j) => 0);
    pos1 := new int[width, height]((i, j) => 0);
    FillAppleTables(board, dist0, dist1);
    TableEntries(board, dist0, 2);
    TableEntries(board, dist1, -2);
    InitPosScore(dist0, dist1, pos0, pos1);
  }

  /** The apple scan of initPlayer: `setAppleDistance(0, x, y)` on the MAX
      apple and `setAppleDistance(1, x, y)` on the MIN apple. */
  method FillAppleTables(board: Grid, dist0: array2<int>, dist1: array2<int>)
    requires IsRect(board) && dist0 != dist1
    requires OneApple(board, 2) && AppleReachesAll(board, 2) && OneApple(board, -2) && AppleReachesAll(board, -2)
    requires TableSoFar(dist0, board, 2, 0, 0) && TableSoFar(dist1, board, -2, 0, 0)
    modifies dist0, dist1
    ensures TableSoFar(dist0, board, 2, |board|, 0) && TableSoFar(dist1, board, -2, |board|, 0)
  {
    var x := 0;
    while x < |board|
      invariant 0 <= x <= |board|
      invariant TableSoFar(dist0, board, 2, x, 0) && TableSoFar(dist1, board, -2, x, 0)
    {
      AppleRow(board, dist0, dist1, x);
      x := x + 1;
    }
  }

  /** A finished table holds -1 or a distance in every entry. */
  lemma TableEntries(board: Grid, dist: array2<int>, code: int)
    requires IsRect(board) && TableSoFar(dist, board, code, |board|, 0)
    ensures EntriesAtLeastMinusOne(dist)
  {
    if exists i, j :: InGrid(board, i, j) && board[i][j] == code {
      var i, j :| InGrid(board, i, j) && board[i][j] == code;
      assert IsDistanceMatrix(dist, DimsOf(dist), (i, j));
      forall x, y | 0 <= x < dist.Length0 && 0 <= y < dist.Length1 ensures dist[x, y] >= -1 {
        assert IsDistanceEntry(DimsOf(dist), (i, j), (x, y), dist[x, y]);
      }
    }
  }
}
