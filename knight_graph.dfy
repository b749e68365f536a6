/** The knight-move graph of a rows x cols board, and what a knight
    distance is: the definitions the two breadth-first distance tables are
    proved against. */
module KnightGraph {
  import opened Game

  type Square = (int, int)

  datatype Dims = Dims(rows: int, cols: int)

  predicate Inside(d: Dims, q: Square) {
    0 <= q.0 < d.rows && 0 <= q.1 < d.cols
  }

  /** One knight move leads from p to q. */
  predicate IsStep(p: Square, q: Square) {
    IsKnightOffset((q.0 - p.0, q.1 - p.1))
  }

  /** q can be reached from src in at most k knight moves that stay on the board. */
  ghost predicate Reach(d: Dims, src: Square, q: Square, k: nat)
    decreases k
  {
    Inside(d, q) &&
    if k == 0 then q == src
    else Reach(d, src, q, k - 1) || exists p {:trigger IsStep(p, q)} :: Inside(d, p) && IsStep(p, q) && Reach(d, src, p, k - 1)
  }

  /** The knight distance from src to q is k. */
  ghost predicate IsDist(d: Dims, src: Square, q: Square, k: nat) {
    Reach(d, src, q, k) && (k == 0 || !Reach(d, src, q, k - 1))
  }

  ghost predicate Unreachable(d: Dims, src: Square, q: Square) {
    forall k: nat :: !Reach(d, src, q, k)
  }

  lemma {:induction false} ReachMono(d: Dims, src: Square, q: Square, j: nat, k: nat)
    requires j <= k && Reach(d, src, q, j)
    ensures Reach(d, src, q, k)
    decreases k
  {
    if j < k {
      ReachMono(d, src, q, j, k - 1);
    }
  }

  lemma ReachStep(d: Dims, src: Square, p: Square, q: Square, k: nat)
    requires Reach(d, src, p, k) && Inside(d, q) && IsStep(p, q)
    ensures Reach(d, src, q, k + 1)
  {
    assert Inside(d, p);
  }

  /** A distance is the least number of moves that reaches the square. */
  lemma DistLeast(d: Dims, src: Square, q: Square, k: nat, j: nat)
    requires IsDist(d, src, q, k) && Reach(d, src, q, j)
    ensures k <= j
  {
    if j < k {
      ReachMono(d, src, q, j, k - 1);
    }
  }

  /** If q is reachable but not within m moves, some square is at distance
      exactly m + 1: distances have no gaps. */
  lemma {:induction false} Frontier(d: Dims, src: Square, q: Square, big: nat, m: nat) returns (p: Square)
    requires Reach(d, src, q, big) && !Reach(d, src, q, m)
    ensures Reach(d, src, p, m + 1) && !Reach(d, src, p, m)
    decreases big
  {
    if big == 0 {
      ReachMono(d, src, q, 0, m);
      assert false;
    } else if Reach(d, src, q, big - 1) {
      p := Frontier(d, src, q, big - 1, m);
    } else {
      var r :| Inside(d, r) && IsStep(r, q) && Reach(d, src, r, big - 1);
      if Reach(d, src, r, m) {
        ReachStep(d, src, r, q, m);
        p := q;
      } else {
        p := Frontier(d, src, r, big - 1, m);
      }
    }
  }

  /** A square at distance k + 1 is one knight move from a square at
      distance k. */
  lemma DistLayers(d: Dims, src: Square, q: Square, k: nat) returns (p: Square)
    requires IsDist(d, src, q, k + 1)
    ensures Inside(d, p) && IsStep(p, q) && IsDist(d, src, p, k)
  {
    p :| Inside(d, p) && IsStep(p, q) && Reach(d, src, p, k);
  }

  /** A set of squares that holds src and is closed under knight moves
      holds every reachable square. */
  lemma {:induction false} ClosedHoldsReachable(d: Dims, src: Square, s: set<Square>, q: Square, k: nat)
    requires src in s
    requires forall p, r :: p in s && Inside(d, r) && IsStep(p, r) ==> r in s
    requires Reach(d, src, q, k)
    ensures q in s
    decreases k
  {
    if k > 0 {
      if Reach(d, src, q, k - 1) {
        ClosedHoldsReachable(d, src, s, q, k - 1);
      } else {
        var p :| Inside(d, p) && IsStep(p, q) && Reach(d, src, p, k - 1);
        ClosedHoldsReachable(d, src, s, p, k - 1);
      }
    }
  }

  /** The square an offset leads to from p. */
  function Neighbour(p: Square, off: Offset): Square {
    (p.0 + off.0, p.1 + off.1)
  }

  /** Every knight move is one of the entries of an offset table. */
  lemma StepIndex(dirs: seq<Offset>, p: Square, q: Square) returns (i: int)
    requires IsOffsetTable(dirs) && IsStep(p, q)
    ensures 0 <= i < |dirs| && q == Neighbour(p, dirs[i])
  {
    var off := (q.0 - p.0, q.1 - p.1);
    assert off in dirs;
    i :| 0 <= i < |dirs| && dirs[i] == off;
  }

  /** Every entry of an offset table is a knight move. */
  lemma IndexStep(dirs: seq<Offset>, p: Square, i: int)
    requires IsOffsetTable(dirs) && 0 <= i < |dirs|
    ensures IsStep(p, Neighbour(p, dirs[i]))
  {
    assert dirs[i] in dirs;
  }

  // ---------------------------------------------------------------------
  // Counting the squares of the board.

  function Squares(d: Dims): set<Square> {
    set x, y | 0 <= x < d.rows && 0 <= y < d.cols :: (x, y)
  }

  function RowSquares(x: int, n: int): set<Square> {
    set y | 0 <= y < n :: (x, y)
  }

  lemma RowSquaresSplit(x: int, n: nat)
    requires n > 0
    ensures RowSquares(x, n) == RowSquares(x, n - 1) + {(x, n - 1)} && (x, n - 1) !in RowSquares(x, n - 1)
  {
  }

  lemma {:induction false} RowSquaresCount(x: int, n: nat)
    ensures |RowSquares(x, n)| == n
  {
    assert RowSquares(x, 0) == {};
    var j := 0;
    while j < n
      invariant 0 <= j <= n && |RowSquares(x, j)| == j
    {
      RowSquaresSplit(x, j + 1);
      j := j + 1;
    }
  }

  lemma SquaresSplit(rows: nat, cols: nat)
    requires rows > 0
    ensures Squares(Dims(rows, cols)) == Squares(Dims(rows - 1, cols)) + RowSquares(rows - 1, cols)
    ensures Squares(Dims(rows - 1, cols)) !! RowSquares(rows - 1, cols)
  {
    var all, top, last := Squares(Dims(rows, cols)), Squares(Dims(rows - 1, cols)), RowSquares(rows - 1, cols);
    forall q | q in all ensures q in top || q in last {
      if q.0 == rows - 1 {
        assert q == (rows - 1, q.1);
      } else {
        assert q == (q.0, q.1);
      }
    }
  }

  /** A rows x cols board has rows * cols squares. */
  lemma {:induction false} SquaresCount(d: Dims)
    requires d.rows >= 0 && d.cols >= 0
    ensures |Squares(d)| == d.rows * d.cols
  {
    assert Squares(Dims(0, d.cols)) == {};
    var r := 0;
    while r < d.rows
      invariant 0 <= r <= d.rows && |Squares(Dims(r, d.cols))| == r * d.cols
    {
      SquaresSplit(r + 1, d.cols);
      RowSquaresCount(r, d.cols);
      assert (r + 1) * d.cols == r * d.cols + d.cols;
      r := r + 1;
    }
    assert d == Dims(d.rows, d.cols);
  }

  // ---------------------------------------------------------------------
  // The centre of a 3 x 3 board.

  /** On a 3 x 3 board no knight move enters or leaves the centre, so the
      centre is unreachable from every other square. */
  lemma {:induction false} CentreIsolated(src: Square, k: nat)
    requires src != (1, 1)
    ensures !Reach(Dims(3, 3), src, (1, 1), k)
  {
    if k > 0 {
      CentreIsolated(src, k - 1);
      forall p | Inside(Dims(3, 3), p) ensures !IsStep(p, (1, 1)) {
      }
    }
  }
}
