/** suncharn_pipithkul.py, the static evaluation: material plus a
    piece-square table for the horses of each side, with a shortcut for a
    horse standing on the opponent's corner; and the attack and defence
    counters around fixed danger squares, which getScore no longer adds in.
    The board is indexed by the tables, so it is at most 7 by 6. */
module SuncharnEval {
  import opened Game

  const AppleValue: int := 900
  const HorseValue: int := 20
  /** getScore's answer when a horse stands on the opponent's corner. */
  const WinScore: int := 10000

  /** materialValue: what a cell code is worth to MAX. suncharn_pipithkul.py has no
      answer for other codes. */
  function MaterialValue(piece: int): (v: int)
    requires IsCode(piece)
    ensures v > 0 <==> piece > 0
    ensures v < 0 <==> piece < 0
    ensures piece == 2 || piece == -2 ==> v * piece == 2 * AppleValue
    ensures piece == 1 || piece == -1 ==> v * piece == HorseValue
  {
    if piece == 0 then 0
    else if piece == 2 then AppleValue
    else if piece == -2 then -AppleValue
    else if piece == 1 then HorseValue
    else -HorseValue
  }

  /** A piece of MIN is worth to MIN what the same piece of MAX is worth to
      MAX. */
  lemma MaterialAntisymmetric(piece: int)
    requires IsCode(piece)
    ensures MaterialValue(-piece) == -MaterialValue(piece)
  {
  }

  /** The piece-square table of MAX's horses, row by row. */
  const MaxPieceSquareTable: seq<seq<int>> := [
    [0, 0, 5, 0, 5, 0],
    [0, 0, 0, 0, 0, 0],
    [5, 0, 0, 12, 0, 8],
    [0, 0, 12, 0, 13, 0],
    [5, 12, 0, 0, 20, 13],
    [0, 0, 13, 20, 0, 0],
    [0, 8, 0, 13, 0, 100]
  ]

  const TableRows: nat := 7
  const TableCols: nat := 6

  /** numpy's flip over both axes: the table turned half a turn. */
  function Flip(t: seq<seq<int>>): (f: seq<seq<int>>)
    requires |t| == TableRows && forall r :: 0 <= r < TableRows ==> |t[r]| == TableCols
    ensures |f| == TableRows && forall r :: 0 <= r < TableRows ==> |f[r]| == TableCols
    ensures forall r, c :: 0 <= r < TableRows && 0 <= c < TableCols ==>
      f[r][c] == t[TableRows - 1 - r][TableCols - 1 - c]
  {
    seq(TableRows, r requires 0 <= r < TableRows =>
      seq(TableCols, c requires 0 <= c < TableCols => t[TableRows - 1 - r][TableCols - 1 - c]))
  }

  /** The piece-square table of MIN's horses. */
  function MinPieceSquareTable(): (t: seq<seq<int>>)
    ensures |t| == TableRows && forall r :: 0 <= r < TableRows ==> |t[r]| == TableCols
    ensures forall r, c :: 0 <= r < TableRows && 0 <= c < TableCols ==>
      t[r][c] == MaxPieceSquareTable[TableRows - 1 - r][TableCols - 1 - c]
  {
    Flip(MaxPieceSquareTable)
  }

  /** Each side's table peaks on the opponent's corner: MAX's on the last
      square, MIN's on the first. */
  lemma TablesPeakOnCorners()
    ensures MaxPieceSquareTable[TableRows - 1][TableCols - 1] == 100
    ensures MinPieceSquareTable()[0][0] == 100
    ensures forall r, c :: 0 <= r < TableRows && 0 <= c < TableCols ==>
      MaxPieceSquareTable[r][c] <= 100 && MinPieceSquareTable()[r][c] <= 100
  {
  }

  /** A board of codes that the tables cover, with at least one square. */
  predicate FitsTables(g: Grid) {
    ValidGrid(g) && 1 <= |g| <= TableRows && 1 <= Cols(g) <= TableCols
  }

  // ---------------------------------------------------------------------
  // Sums.

  function Sum(xs: seq<int>): int {
    if xs == [] then 0 else Sum(xs[..|xs| - 1]) + xs[|xs| - 1]
  }

  lemma {:induction false} SumFront(xs: seq<int>)
    requires xs != []
    ensures Sum(xs) == xs[0] + Sum(xs[1..])
    decreases |xs|
  {
    if |xs| > 1 {
      var init := xs[..|xs| - 1];
      SumFront(init);
      assert init[1..] == xs[1..][..|xs[1..]| - 1];
    }
  }

  function Reverse(xs: seq<int>): (r: seq<int>)
    ensures |r| == |xs|
  {
    seq(|xs|, i requires 0 <= i < |xs| => xs[|xs| - 1 - i])
  }

  function Negate(xs: seq<int>): (r: seq<int>)
    ensures |r| == |xs|
  {
    seq(|xs|, i requires 0 <= i < |xs| => -xs[i])
  }

  lemma {:induction false} SumReverse(xs: seq<int>)
    ensures Sum(Reverse(xs)) == Sum(xs)
    decreases |xs|
  {
    if xs != [] {
      var init := xs[..|xs| - 1];
      SumReverse(init);
      var r := Reverse(xs);
      SumFront(r);
      assert r[1..] == Reverse(init);
    }
  }

  lemma {:induction false} SumNegate(xs: seq<int>)
    ensures Sum(Negate(xs)) == -Sum(xs)
    decreases |xs|
  {
    if xs != [] {
      var init := xs[..|xs| - 1];
      SumNegate(init);
      assert Negate(xs)[..|xs| - 1] == Negate(init);
    }
  }

  // ---------------------------------------------------------------------
  // getScore.

  /** The contribution of a cell (r, c) holding `piece`: its material, plus
      MAX's table for a MAX horse, minus MIN's table for a MIN horse. */
  function CellValue(piece: int, r: int, c: int): int
    requires IsCode(piece) && 0 <= r < TableRows && 0 <= c < TableCols
  {
    MaterialValue(piece) +
    (if piece == 1 then MaxPieceSquareTable[r][c] else if piece == -1 then -MinPieceSquareTable()[r][c] else 0)
  }

  /** The contributions of the cells of row r, in column order. */
  function RowValues(g: Grid, r: int): (vs: seq<int>)
    requires FitsTables(g) && 0 <= r < |g|
    ensures |vs| == Cols(g)
  {
    seq(Cols(g), c requires 0 <= c < Cols(g) => CellValue(g[r][c], r, c))
  }

  /** The row totals, in row order. */
  function RowTotals(g: Grid): (ts: seq<int>)
    requires FitsTables(g)
    ensures |ts| == |g|
  {
    seq(|g|, r requires 0 <= r < |g| => Sum(RowValues(g, r)))
  }

  /** getScore: the corner shortcut for the side this agent plays, else the
      sum over the board. */
  function Score(g: Grid, assignedPlayer: int): (score: int)
    requires FitsTables(g)
  {
    if assignedPlayer == 1 && g[|g| - 1][Cols(g) - 1] == 1 then WinScore
    else if assignedPlayer == -1 && g[0][0] == -1 then -WinScore
    else Sum(RowTotals(g))
  }

  /** getScore: the two corner tests, then the scan adding up each cell's
      material and table value. */
  method GetScore(g: Grid, assignedPlayer: int) returns (score: int)
    requires FitsTables(g)
    ensures score == Score(g, assignedPlayer)
  {
    score := 0;
    if assignedPlayer == 1 && g[|g| - 1][Cols(g) - 1] == 1 {
      return WinScore;
    } else if assignedPlayer == -1 && g[0][0] == -1 {
      return -WinScore;
    }
    var row := 0;
    while row < |g|
      invariant 0 <= row <= |g|
      invariant score == Sum(RowTotals(g)[..row])
    {
      ghost var base := score;
      var col := 0;
      while col < Cols(g)
        invariant 0 <= col <= Cols(g)
        invariant score == base + Sum(RowValues(g, row)[..col])
      {
        var piece := g[row][col];
        score := score + MaterialValue(piece);
        if piece == 1 {
          score := score + MaxPieceSquareTable[row][col];
        } else if piece == -1 {
          score := score - MinPieceSquareTable()[row][col];
        }
        assert RowValues(g, row)[..col + 1][..col] == RowValues(g, row)[..col];
        col := col + 1;
      }
      assert RowValues(g, row)[..col] == RowValues(g, row);
      assert RowTotals(g)[..row + 1][..row] == RowTotals(g)[..row];
      row := row + 1;
    }
    assert RowTotals(g)[..row] == RowTotals(g);
  }

  // ---------------------------------------------------------------------
  // The two sides are scored alike.

  /** The board turned half a turn with the pieces changing sides: the
      position as the other player sees it. */
  function Rotated(g: Grid): (h: Grid)
    requires FitsTables(g)
    ensures |h| == |g| && Cols(h) == Cols(g) && FitsTables(h)
  {
    seq(|g|, r requires 0 <= r < |g| =>
      seq(Cols(g), c requires 0 <= c < Cols(g) => -g[|g| - 1 - r][Cols(g) - 1 - c]))
  }

  lemma RotatedCell(g: Grid, r: int, c: int)
    requires FitsTables(g) && |g| == TableRows && Cols(g) == TableCols
    requires 0 <= r < TableRows && 0 <= c < TableCols
    ensures CellValue(Rotated(g)[r][c], r, c) == -CellValue(g[TableRows - 1 - r][TableCols - 1 - c], TableRows - 1 - r, TableCols - 1 - c)
  {
    MaterialAntisymmetric(g[TableRows - 1 - r][TableCols - 1 - c]);
  }

  lemma RotatedRow(g: Grid, r: int)
    requires FitsTables(g) && |g| == TableRows && Cols(g) == TableCols && 0 <= r < TableRows
    ensures RowValues(Rotated(g), r) == Negate(Reverse(RowValues(g, TableRows - 1 - r)))
  {
    forall c | 0 <= c < TableCols
      ensures RowValues(Rotated(g), r)[c] == Negate(Reverse(RowValues(g, TableRows - 1 - r)))[c]
    {
      RotatedCell(g, r, c);
    }
  }

  /** On a full 7 by 6 board, the material and table sum of the position
      seen from the other side is the negated sum: MIN's table is MAX's
      turned half a turn. */
  lemma RotatedTotal(g: Grid)
    requires FitsTables(g) && |g| == TableRows && Cols(g) == TableCols
    ensures Sum(RowTotals(Rotated(g))) == -Sum(RowTotals(g))
  {
    var h := Rotated(g);
    forall r | 0 <= r < TableRows
      ensures RowTotals(h)[r] == Negate(Reverse(RowTotals(g)))[r]
    {
      RotatedRow(g, r);
      var row := RowValues(g, TableRows - 1 - r);
      SumNegate(Reverse(row));
      SumReverse(row);
    }
    assert RowTotals(h) == Negate(Reverse(RowTotals(g)));
    SumNegate(Reverse(RowTotals(g)));
    SumReverse(RowTotals(g));
  }

  /** getScore treats both sides alike: on a full 7 by 6 board, the agent
      playing the other side scores the position seen from the other side
      with the negated score, corner shortcut included. */
  lemma ScoreAntisymmetric(g: Grid, assignedPlayer: int)
    requires FitsTables(g) && |g| == TableRows && Cols(g) == TableCols
    requires assignedPlayer == 1 || assignedPlayer == -1
    ensures Score(Rotated(g), -assignedPlayer) == -Score(g, assignedPlayer)
  {
    RotatedTotal(g);
  }

  // ---------------------------------------------------------------------
  // Attack and defence counters.

  /** numAttackValue: the in-bounds knight neighbours of (row, col) that
      hold a horse of the other side, -player. */
  method NumAttackValue(g: Grid, player: int, row: int, col: int) returns (attackValue: nat)
    requires IsRect(g)
    ensures attackValue == NeighbourCount(g, row, col, -player, Directions, 8)
    ensures attackValue <= 8
  {
    attackValue := 0;
    var k := 0;
    while k < |Directions|
      invariant 0 <= k <= |Directions|
      invariant attackValue == NeighbourCount(g, row, col, -player, Directions, k)
    {
      var (dx, dy) := Directions[k];
      var xEnd, yEnd := row + dx, col + dy;
      if 0 <= xEnd < |g| && 0 <= yEnd < Cols(g) && g[xEnd][yEnd] == -player {
        attackValue := attackValue + 1;
      }
      k := k + 1;
    }
  }

  /** numDefenseValue: the in-bounds knight neighbours of (row, col) that
      hold a horse of player. */
  method NumDefenseValue(g: Grid, player: int, row: int, col: int) returns (defenseValue: nat)
    requires IsRect(g)
    ensures defenseValue == NeighbourCount(g, row, col, player, Directions, 8)
    ensures defenseValue <= 8
  {
    defenseValue := 0;
    var k := 0;
    while k < |Directions|
      invariant 0 <= k <= |Directions|
      invariant defenseValue == NeighbourCount(g, row, col, player, Directions, k)
    {
      var (dx, dy) := Directions[k];
      var xEnd, yEnd := row + dx, col + dy;
      if 0 <= xEnd < |g| && 0 <= yEnd < Cols(g) && g[xEnd][yEnd] == player {
        defenseValue := defenseValue + 1;
      }
      k := k + 1;
    }
  }

  /** The squares a knight captures MAX's apple from, and MIN's. */
  const MaxDangerSquares: seq<(int, int)> := [(2, 1), (1, 2)]
  const MinDangerSquares: seq<(int, int)> := [(5, 3), (4, 4)]

  /** The knight neighbours holding v, added up over `squares`. */
  function DangerCount(g: Grid, squares: seq<(int, int)>, v: int): (n: nat)
    requires IsRect(g)
    ensures n <= 8 * |squares|
  {
    if squares == [] then 0
    else
      var last := squares[|squares| - 1];
      DangerCount(g, squares[..|squares| - 1], v) + NeighbourCount(g, last.0, last.1, v, Directions, 8)
  }

  /** What attackScore adds up: numAttackValue over MIN's danger squares for
      MAX, over MAX's for anyone else. */
  function AttackTotal(g: Grid, player: int): nat
    requires IsRect(g)
  {
    DangerCount(g, if player == 1 then MinDangerSquares else MaxDangerSquares, -player)
  }

  /** What defendScore adds up: numDefenseValue over MAX's danger squares for
      MAX, over MIN's for anyone else. */
  function DefendTotal(g: Grid, player: int): nat
    requires IsRect(g)
  {
    DangerCount(g, if player == 1 then MaxDangerSquares else MinDangerSquares, player)
  }

  /** Since numAttackValue counts the pieces of -player, a side's attack
      score counts the other side's pieces around the other side's danger
      squares: it is the other side's defence score. */
  lemma AttackIsOpponentDefence(g: Grid, player: int)
    requires IsRect(g) && (player == 1 || player == -1)
    ensures AttackTotal(g, player) == DefendTotal(g, -player)
    ensures AttackTotal(g, player) <= 16 && DefendTotal(g, player) <= 16
  {
  }

  /** The loop adding up numAttackValue or numDefenseValue over `squares`. */
  method SumOverSquares(g: Grid, squares: seq<(int, int)>, v: int, attack: bool) returns (score: nat)
    requires IsRect(g)
    ensures score == DangerCount(g, squares, v)
  {
    score := 0;
    var i := 0;
    while i < |squares|
      invariant 0 <= i <= |squares|
      invariant score == DangerCount(g, squares[..i], v)
    {
      var (row, col) := squares[i];
      var n;
      if attack {
        n := NumAttackValue(g, -v, row, col);
      } else {
        n := NumDefenseValue(g, v, row, col);
      }
      assert squares[..i + 1][..i] == squares[..i];
      score := score + n;
      i := i + 1;
    }
    assert squares[..i] == squares;
  }

  /** attackScore: numAttackValue over the other side's danger squares. */
  method AttackScore(g: Grid, player: int) returns (score: nat)
    requires IsRect(g)
    ensures score == AttackTotal(g, player)
  {
    if player == 1 {
      score := SumOverSquares(g, MinDangerSquares, -player, true);
    } else {
      score := SumOverSquares(g, MaxDangerSquares, -player, true);
    }
  }

  /** defendScore: numDefenseValue over the own danger squares. */
  method DefendScore(g: Grid, player: int) returns (score: nat)
    requires IsRect(g)
    ensures score == DefendTotal(g, player)
  {
    if player == 1 {
      score := SumOverSquares(g, MaxDangerSquares, player, false);
    } else {
      score := SumOverSquares(g, MinDangerSquares, player, false);
    }
  }
}
