/** Dark_Knight.py, getScore: the static evaluation. It reads the tables
    initPlayer built (appleDistance and posScore), here passed in as
    values. Scores are Python floats because of the protect/horse ratio
    term; they are modelled as exact reals. */
module DarkKnightEval {
  import opened Game

  const PointMultiplier: int := 10
  const PieceValue: int := 20

  /** appleDistance[pl] and posScore[pl], pl = 0 for MAX and 1 for MIN. */
  datatype Tables = Tables(appleDistance: seq<Grid>, posScore: seq<Grid>)

  predicate SameShape(h: Grid, g: Grid) {
    |h| == |g| && IsRect(h) && Cols(h) == Cols(g)
  }

  predicate TablesFit(tabs: Tables, g: Grid) {
    |tabs.appleDistance| == 2 && |tabs.posScore| == 2 &&
    SameShape(tabs.appleDistance[0], g) && SameShape(tabs.appleDistance[1], g) &&
    SameShape(tabs.posScore[0], g) && SameShape(tabs.posScore[1], g)
  }

  /** playerIndex: 0 for MAX (code 1), 1 for MIN (code -1). */
  function SideIndex(code: int): int {
    (1 - code) / 2
  }

  /** The counters getScore keeps, one entry per side (index SideIndex). */
  datatype Tally = Tally(score: real, horses: seq<int>, fighting: seq<int>, troubled: seq<int>,
                         protect: seq<int>, movesUntilWin: seq<int>)

  predicate TallyShape(t: Tally) {
    |t.horses| == 2 && |t.fighting| == 2 && |t.troubled| == 2 && |t.protect| == 2 && |t.movesUntilWin| == 2
  }

  const StartTally: Tally := Tally(0.0, [0, 0], [0, 0], [0, 0], [0, 0], [10000, 10000])

  predicate Ready(s: State, tabs: Tables) {
    WellFormed(s) && TablesFit(tabs, s.board)
  }

  function Min(a: int, b: int): int {
    if a < b then a else b
  }

  /** A horse of the side to move one knight move from the opponent's apple. */
  predicate WinningHorse(s: State, tabs: Tables, x: int, y: int)
    requires Ready(s, tabs)
  {
    InGrid(s.board, x, y) && s.board[x][y] == s.toMove &&
    tabs.appleDistance[1 - SideIndex(s.toMove)][x][y] == 1
  }

  /** What the body of the scan does with square (x, y). */
  function VisitSquare(s: State, tabs: Tables, x: int, y: int, t: Tally): (r: Tally)
    requires Ready(s, tabs) && InGrid(s.board, x, y) && TallyShape(t)
    ensures TallyShape(r)
  {
    var code := s.board[x][y];
    if code != 1 && code != -1 then t
    else
      var pi := SideIndex(code);
      var ptm := SideIndex(s.toMove);
      var defend := NeighbourCount(s.board, x, y, code, Directions, 8);
      var attack := NeighbourCount(s.board, x, y, -code, Directions, 8);
      var muw := WinWatch(s, tabs, x, y, defend, attack, t.movesUntilWin);
      Tally(t.score + (code * tabs.posScore[pi][x][y]) as real,
            t.horses[pi := t.horses[pi] + 1],
            if attack > 0 then t.fighting[pi := t.fighting[pi] + 1] else t.fighting,
            if attack > defend then t.troubled[pi := t.troubled[pi] + 1] else t.troubled,
            t.protect[pi := t.protect[pi] + defend],
            muw)
  }

  /** movesUntilWin after the horse on (x, y), with its defenders and
      attackers counted, has been looked at. */
  function WinWatch(s: State, tabs: Tables, x: int, y: int, defend: int, attack: int, muw: seq<int>): (r: seq<int>)
    requires Ready(s, tabs) && InGrid(s.board, x, y) && (s.board[x][y] == 1 || s.board[x][y] == -1) && |muw| == 2
    ensures |r| == 2
  {
    var code := s.board[x][y];
    var pi, ptm := SideIndex(code), SideIndex(s.toMove);
    if tabs.appleDistance[1 - pi][x][y] != 1 then muw
    else if s.toMove == code then muw[ptm := 1]
    else if defend >= attack then muw[1 - ptm := Min(muw[1 - ptm], 2 * attack + 2)]
    else muw
  }

  /** The tally after the first n squares of row x. */
  function ScanRow(s: State, tabs: Tables, x: int, n: nat, t: Tally): (r: Tally)
    requires Ready(s, tabs) && 0 <= x < |s.board| && n <= Cols(s.board) && TallyShape(t)
    ensures TallyShape(r)
  {
    if n == 0 then t else VisitSquare(s, tabs, x, n - 1, ScanRow(s, tabs, x, n - 1, t))
  }

  /** The tally after the first n rows. */
  function ScanBoard(s: State, tabs: Tables, n: nat): (r: Tally)
    requires Ready(s, tabs) && n <= |s.board|
    ensures TallyShape(r)
  {
    if n == 0 then StartTally else ScanRow(s, tabs, n - 1, Cols(s.board), ScanBoard(s, tabs, n - 1))
  }

  /** The arithmetic after the scan; the ratios need a horse of each side. */
  function Finish(s: State, t: Tally, victoryPoints: int): real
    requires TallyShape(t) && (s.toMove == 1 || s.toMove == -1) && t.horses[0] != 0 && t.horses[1] != 0
  {
    var ptm := SideIndex(s.toMove);
    var h, tr, f, p := t.horses, t.troubled, t.fighting, t.protect;
    var base := t.score + (PieceValue * (h[0] - h[1]) + (tr[1] - tr[0])) as real
                + 4.0 * (p[0] as real / h[0] as real - p[1] as real / h[1] as real);
    var score := if tr[ptm] < tr[1 - ptm] || (tr[1 - ptm] == 1 && f[1 - ptm] == 1)
                 then base + (s.toMove * PieceValue) as real else base;
    var muw :=
      if s.toMove == 1 && h[1] == 1 && tr[1] == 1 then t.movesUntilWin[ptm := 1]
      else if s.toMove == -1 && h[0] == 1 && tr[0] == 1 && s.movesRemaining > 0 then t.movesUntilWin[ptm := 1]
      else t.movesUntilWin;
    if muw[ptm] < 1000 && muw[ptm] <= muw[1 - ptm] then
      (s.toMove * PointMultiplier * (victoryPoints + s.movesRemaining - muw[ptm])) as real
    else if muw[1 - ptm] < muw[ptm] then
      (-s.toMove * PointMultiplier * (victoryPoints + s.movesRemaining - muw[1 - ptm])) as real
    else score
  }

  /** getScore as a function of the state. */
  function Score(s: State, tabs: Tables, victoryPoints: int): real
    requires Ready(s, tabs) && (s.gameOver || (Holds(s.board, 1) && Holds(s.board, -1)))
  {
    if s.gameOver then (PointMultiplier * s.points) as real
    else
      HorsesCounted(s, tabs);
      Finish(s, ScanBoard(s, tabs, |s.board|), victoryPoints)
  }

  // ---------------------------------------------------------------------
  // Reference counts and what the scan gathers.

  function RowCount(r: seq<int>, v: int): nat {
    if |r| == 0 then 0 else RowCount(r[..|r| - 1], v) + (if r[|r| - 1] == v then 1 else 0)
  }

  /** The number of cells of g holding v. */
  function GridCount(g: Grid, v: int): nat {
    if |g| == 0 then 0 else GridCount(g[..|g| - 1], v) + RowCount(g[|g| - 1], v)
  }

  /** Cells holding v among the squares before (x, y) in the x-major scan. */
  function CountBefore(g: Grid, x: int, y: int, v: int): nat
    requires 0 <= x <= |g| && (x < |g| ==> 0 <= y <= |g[x]|)
  {
    GridCount(g[..x], v) + (if x < |g| then RowCount(g[x][..y], v) else 0)
  }

  predicate Before(i: int, j: int, x: int, y: int) {
    i < x || (i == x && j < y)
  }

  /** t is what the scan has gathered before square (x, y): the horse
      counts, and movesUntilWin of the side to move is 1 exactly when one
      of its horses seen so far is next to the opponent's apple, the
      other side's never below 2. */
  ghost predicate Gathered(s: State, tabs: Tables, x: int, y: int, t: Tally)
    requires Ready(s, tabs) && 0 <= x <= |s.board| && (x < |s.board| ==> 0 <= y <= Cols(s.board))
  {
    var ptm := SideIndex(s.toMove);
    TallyShape(t) &&
    t.horses[0] == CountBefore(s.board, x, y, 1) && t.horses[1] == CountBefore(s.board, x, y, -1) &&
    t.movesUntilWin[ptm] == (if SeenWinningHorse(s, tabs, x, y) then 1 else 10000) &&
    t.movesUntilWin[1 - ptm] >= 2
  }

  ghost predicate SeenWinningHorse(s: State, tabs: Tables, x: int, y: int)
    requires Ready(s, tabs)
  {
    exists i, j :: Before(i, j, x, y) && WinningHorse(s, tabs, i, j)
  }

  lemma RowCountStep(r: seq<int>, n: nat, v: int)
    requires n < |r|
    ensures RowCount(r[..n + 1], v) == RowCount(r[..n], v) + (if r[n] == v then 1 else 0)
  {
    assert r[..n + 1][..n] == r[..n];
  }

  lemma VisitStep(s: State, tabs: Tables, x: int, y: int, t: Tally)
    requires Ready(s, tabs) && InGrid(s.board, x, y) && Gathered(s, tabs, x, y, t)
    ensures Gathered(s, tabs, x, y + 1, VisitSquare(s, tabs, x, y, t))
  {
    RowCountStep(s.board[x], y, 1);
    RowCountStep(s.board[x], y, -1);
    SeenStep(s, tabs, x, y);
  }

  lemma SeenStep(s: State, tabs: Tables, x: int, y: int)
    requires Ready(s, tabs) && InGrid(s.board, x, y)
    ensures SeenWinningHorse(s, tabs, x, y + 1) <==> SeenWinningHorse(s, tabs, x, y) || WinningHorse(s, tabs, x, y)
  {
    if SeenWinningHorse(s, tabs, x, y + 1) && !WinningHorse(s, tabs, x, y) {
      var i, j :| Before(i, j, x, y + 1) && WinningHorse(s, tabs, i, j);
      assert Before(i, j, x, y);
    }
  }

  lemma {:induction false} ScanRowGathered(s: State, tabs: Tables, x: int, t: Tally)
    requires Ready(s, tabs) && 0 <= x < |s.board| && Gathered(s, tabs, x, 0, t)
    ensures Gathered(s, tabs, x, Cols(s.board), ScanRow(s, tabs, x, Cols(s.board), t))
  {
    var y := 0;
    while y < Cols(s.board)
      invariant 0 <= y <= Cols(s.board)
      invariant Gathered(s, tabs, x, y, ScanRow(s, tabs, x, y, t))
    {
      VisitStep(s, tabs, x, y, ScanRow(s, tabs, x, y, t));
      y := y + 1;
    }
  }

  lemma RowDone(s: State, tabs: Tables, x: int, t: Tally)
    requires Ready(s, tabs) && 0 <= x < |s.board| && Gathered(s, tabs, x, Cols(s.board), t)
    ensures Gathered(s, tabs, x + 1, 0, t)
  {
    var g := s.board;
    assert g[..x + 1][..x] == g[..x];
    assert g[x][..Cols(g)] == g[x];
    assert x + 1 < |g| ==> g[x + 1][..0] == [];
  }

  /** The scan counts every horse and finds every winning horse. */
  lemma {:induction false} ScanBoardGathered(s: State, tabs: Tables)
    requires Ready(s, tabs)
    ensures Gathered(s, tabs, |s.board|, 0, ScanBoard(s, tabs, |s.board|))
  {
    assert s.board[..0] == [];
    assert !SeenWinningHorse(s, tabs, 0, 0);
    var x := 0;
    while x < |s.board|
      invariant 0 <= x <= |s.board|
      invariant Gathered(s, tabs, x, 0, ScanBoard(s, tabs, x))
    {
      ScanRowGathered(s, tabs, x, ScanBoard(s, tabs, x));
      RowDone(s, tabs, x, ScanRow(s, tabs, x, Cols(s.board), ScanBoard(s, tabs, x)));
      x := x + 1;
    }
  }

  lemma {:induction false} HoldsCounted(g: Grid, v: int)
    requires Holds(g, v)
    ensures GridCount(g, v) > 0
  {
    var i, j :| 0 <= i < |g| && 0 <= j < |g[i]| && g[i][j] == v;
    RowHoldsCounted(g[i], j, v);
    GridCountAtLeastRow(g, i, v);
  }

  lemma {:induction false} RowHoldsCounted(r: seq<int>, j: int, v: int)
    requires 0 <= j < |r| && r[j] == v
    ensures RowCount(r, v) > 0
    decreases |r|
  {
    if j < |r| - 1 {
      RowHoldsCounted(r[..|r| - 1], j, v);
    }
  }

  lemma {:induction false} GridCountAtLeastRow(g: Grid, i: int, v: int)
    requires 0 <= i < |g|
    ensures GridCount(g, v) >= RowCount(g[i], v)
    decreases |g|
  {
    if i < |g| - 1 {
      GridCountAtLeastRow(g[..|g| - 1], i, v);
    }
  }

  /** horseCount[pl] is the number of horses of that side on the board, so
      both are positive when each side has a horse. */
  lemma HorsesCounted(s: State, tabs: Tables)
    requires Ready(s, tabs)
    ensures ScanBoard(s, tabs, |s.board|).horses == [GridCount(s.board, 1), GridCount(s.board, -1)]
    ensures Holds(s.board, 1) ==> ScanBoard(s, tabs, |s.board|).horses[0] > 0
    ensures Holds(s.board, -1) ==> ScanBoard(s, tabs, |s.board|).horses[1] > 0
  {
    ScanBoardGathered(s, tabs);
    assert s.board[..|s.board|] == s.board;
    if Holds(s.board, 1) {
      HoldsCounted(s.board, 1);
    }
    if Holds(s.board, -1) {
      HoldsCounted(s.board, -1);
    }
  }

  /** The forced-win shortcut: when a horse of the side to move is one
      knight move from the opponent's apple, getScore reports a win for the
      side to move one move from now, whatever the material. */
  lemma WinShortcut(s: State, tabs: Tables, victoryPoints: int, x: int, y: int)
    requires Ready(s, tabs) && !s.gameOver && Holds(s.board, 1) && Holds(s.board, -1)
    requires WinningHorse(s, tabs, x, y)
    ensures Score(s, tabs, victoryPoints) ==
      (s.toMove * PointMultiplier * (victoryPoints + s.movesRemaining - 1)) as real
  {
    ScanBoardGathered(s, tabs);
    assert Before(x, y, |s.board|, 0);
    assert SeenWinningHorse(s, tabs, |s.board|, 0);
  }

  /** Conversely, with no horse of the side to move next to the opponent's
      apple the scan leaves its movesUntilWin at 10000. */
  lemma NoShortcutWithoutThreat(s: State, tabs: Tables)
    requires Ready(s, tabs)
    requires forall x, y :: InGrid(s.board, x, y) ==> !WinningHorse(s, tabs, x, y)
    ensures ScanBoard(s, tabs, |s.board|).movesUntilWin[SideIndex(s.toMove)] == 10000
  {
    ScanBoardGathered(s, tabs);
  }

  // ---------------------------------------------------------------------
  // getScore itself.

  /** The `for (dx, dy) in direction` loop of getScore for the horse on
      (x, y): its defenders and attackers. */
  method CountAround(g: Grid, x: int, y: int, code: int) returns (defend: nat, attack: nat)
    requires IsRect(g) && code != 0
    ensures defend == NeighbourCount(g, x, y, code, Directions, 8)
    ensures attack == NeighbourCount(g, x, y, -code, Directions, 8)
  {
    defend, attack := 0, 0;
    var k := 0;
    while k < |Directions|
      invariant 0 <= k <= |Directions|
      invariant defend == NeighbourCount(g, x, y, code, Directions, k)
      invariant attack == NeighbourCount(g, x, y, -code, Directions, k)
    {
      var (dx, dy) := Directions[k];
      var xEnd, yEnd := x + dx, y + dy;
      if 0 <= xEnd < |g| && 0 <= yEnd < Cols(g) {
        if g[xEnd][yEnd] == code {
          defend := defend + 1;
        } else if g[xEnd][yEnd] == -code {
          attack := attack + 1;
        }
      }
      k := k + 1;
    }
  }

  /** The body of the scan for square (x, y). */
  method ScoreSquare(s: State, tabs: Tables, x: int, y: int, t: Tally) returns (t': Tally)
    requires Ready(s, tabs) && InGrid(s.board, x, y) && TallyShape(t)
    ensures t' == VisitSquare(s, tabs, x, y, t)
  {
    t' := t;
    var playerCode := s.board[x][y];
    if playerCode == -1 || playerCode == 1 {
      var playerIndex := (1 - playerCode) / 2;
      t' := t'.(horses := t'.horses[playerIndex := t'.horses[playerIndex] + 1]);
      t' := t'.(score := t'.score + (playerCode * tabs.posScore[playerIndex][x][y]) as real);
      var defendCount, attackCount := CountAround(s.board, x, y, playerCode);
      if attackCount > 0 {
        t' := t'.(fighting := t'.fighting[playerIndex := t'.fighting[playerIndex] + 1]);
      }
      if attackCount > defendCount {
        t' := t'.(troubled := t'.troubled[playerIndex := t'.troubled[playerIndex] + 1]);
      }
      t' := t'.(protect := t'.protect[playerIndex := t'.protect[playerIndex] + defendCount]);
      var movesUntilWin := WatchWin(s, tabs, x, y, defendCount, attackCount, t'.movesUntilWin);
      t' := t'.(movesUntilWin := movesUntilWin);
    }
  }

  /** The `appleDistance[1 - playerIndex, x, y] == 1` branch of the scan. */
  method WatchWin(s: State, tabs: Tables, x: int, y: int, defendCount: int, attackCount: int, muw: seq<int>)
    returns (movesUntilWin: seq<int>)
    requires Ready(s, tabs) && InGrid(s.board, x, y) && (s.board[x][y] == 1 || s.board[x][y] == -1) && |muw| == 2
    ensures movesUntilWin == WinWatch(s, tabs, x, y, defendCount, attackCount, muw)
  {
    movesUntilWin := muw;
    var playerCode := s.board[x][y];
    var playerIndex := (1 - playerCode) / 2;
    var playerToMoveIndex := (1 - s.toMove) / 2;
    if tabs.appleDistance[1 - playerIndex][x][y] == 1 {
      if s.toMove == playerCode {
        movesUntilWin := movesUntilWin[playerToMoveIndex := 1];
      } else if defendCount >= attackCount {
        var other := 1 - playerToMoveIndex;
        movesUntilWin := movesUntilWin[other := Min(movesUntilWin[other], 2 * attackCount + 2)];
      }
    }
  }

  /** getScore: the exact winner's payoff on a finished game, otherwise the
      board scan followed by the material, trouble and ratio terms and the
      forced-win overrides. */
  method GetScore(s: State, tabs: Tables, victoryPoints: int) returns (score: real)
    requires Ready(s, tabs) && (s.gameOver || (Holds(s.board, 1) && Holds(s.board, -1)))
    ensures score == Score(s, tabs, victoryPoints)
    ensures s.gameOver ==> score == (PointMultiplier * s.points) as real
  {
    if s.gameOver {
      return (PointMultiplier * s.points) as real;
    }
    var t := StartTally;
    var x := 0;
    while x < |s.board|
      invariant 0 <= x <= |s.board| && t == ScanBoard(s, tabs, x)
    {
      ghost var rowStart := t;
      var y := 0;
      while y < Cols(s.board)
        invariant 0 <= y <= Cols(s.board) && t == ScanRow(s, tabs, x, y, rowStart)
      {
        t := ScoreSquare(s, tabs, x, y, t);
        y := y + 1;
      }
      x := x + 1;
    }
    HorsesCounted(s, tabs);
    score := FinishScore(s, t, victoryPoints);
  }

  /** Lines after the scan of getScore. */
  method FinishScore(s: State, t: Tally, victoryPoints: int) returns (score: real)
    requires TallyShape(t) && (s.toMove == 1 || s.toMove == -1) && t.horses[0] != 0 && t.horses[1] != 0
    ensures score == Finish(s, t, victoryPoints)
  {
    var ptm := (1 - s.toMove) / 2;
    var horseCount, troubled, fighting, protect := t.horses, t.troubled, t.fighting, t.protect;
    var movesUntilWin := t.movesUntilWin;
    score := t.score + (PieceValue * (horseCount[0] - horseCount[1]) + 1 * (troubled[1] - troubled[0])) as real
             + 4.0 * (protect[0] as real / horseCount[0] as real - protect[1] as real / horseCount[1] as real);
    if troubled[ptm] < troubled[1 - ptm] || (troubled[1 - ptm] == 1 && fighting[1 - ptm] == 1) {
      score := score + (s.toMove * PieceValue) as real;
    }
    if s.toMove == 1 && horseCount[1] == 1 && troubled[1] == 1 {
      movesUntilWin := movesUntilWin[ptm := 1];
    } else if s.toMove == -1 && horseCount[0] == 1 && troubled[0] == 1 && s.movesRemaining > 0 {
      movesUntilWin := movesUntilWin[ptm := 1];
    }
    if movesUntilWin[ptm] < 1000 && movesUntilWin[ptm] <= movesUntilWin[1 - ptm] {
      score := (s.toMove * PointMultiplier * (victoryPoints + s.movesRemaining - movesUntilWin[ptm])) as real;
    } else if movesUntilWin[1 - ptm] < movesUntilWin[ptm] {
      score := (-s.toMove * PointMultiplier * (victoryPoints + s.movesRemaining - movesUntilWin[1 - ptm])) as real;
    }
  }
}
