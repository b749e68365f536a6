/** Dark_Knight.py: the apple-distance tables (setAppleDistance), filled
    round by round, one knight-move layer per round. The numpy array
    appleDistance[player] is one `array2` per player, its first index
    running over the board's first axis (boardWidth). */
module DarkKnightDistance {
  import opened Game
  import opened KnightGraph
  import opened DistanceLabels

  /** Every board square can be reached from src by knight moves. */
  ghost predicate AllReachable(d: Dims, src: Square) {
    forall q :: Inside(d, q) ==> exists k: nat :: Reach(d, src, q, k)
  }

  /** Every label is at most k. */
  ghost predicate LabelsAtMost(a: array2<int>, k: int)
    reads a
  {
    forall x, y :: 0 <= x < a.Length0 && 0 <= y < a.Length1 ==> a[x, y] <= k
  }

  /** No knight move leads from a square of `done` to a square of `missing`. */
  ghost predicate ClosedFrom(d: Dims, done: set<Square>, missing: set<Square>) {
    forall p, r :: p in done && Inside(d, r) && IsStep(p, r) ==> r !in missing
  }

  /** Every square at distance c among the first n squares of row x is in done. */
  ghost predicate RowExpanded(d: Dims, src: Square, c: nat, x: int, n: int, done: set<Square>) {
    forall q :: Inside(d, q) && q.0 == x && q.1 < n && IsDist(d, src, q, c) ==> q in done
  }

  /** Every square at distance c in the first n rows is in done. */
  ghost predicate RowsExpanded(d: Dims, src: Square, c: nat, n: int, done: set<Square>) {
    forall q :: Inside(d, q) && q.0 < n && IsDist(d, src, q, c) ==> q in done
  }

  /** The state of setAppleDistance during round c: labels are exact, at
      most c + 1, every square within c moves is labelled, `missing` is the
      set of unlabelled squares and numMissingSquares counts it (up to the
      fixed offset `gap`). */
  ghost predicate RoundState(a: array2<int>, src: Square, c: nat, numMissing: int, gap: int, missing: set<Square>)
    reads a
  {
    LabelsExact(a, src) && LabelledWithin(a, src, c) && LabelsAtMost(a, c + 1) &&
    MissingSet(a, missing) && numMissing - |missing| == gap
  }

  /** The `for (dx, dy) in direction` loop of setAppleDistance: give every
      unlabelled board neighbour of `tile` the label c + 1 and count it off. */
  method ExpandSquare(a: array2<int>, dirs: seq<Offset>, src: Square, tile: Square, c: nat,
                      numMissing: int, ghost missing: set<Square>)
    returns (numMissing': int, ghost missing': set<Square>)
    requires IsOffsetTable(dirs)
    requires Inside(DimsOf(a), tile) && IsDist(DimsOf(a), src, tile, c)
    requires RoundState(a, src, c, numMissing, numMissing - |missing|, missing)
    modifies a
    ensures RoundState(a, src, c, numMissing', numMissing - |missing|, missing') && missing' <= missing
    ensures forall r :: Inside(DimsOf(a), r) && IsStep(tile, r) ==> r !in missing'
  {
    numMissing', missing' := numMissing, missing;
    var k := 0;
    while k < |dirs|
      invariant 0 <= k <= |dirs|
      invariant RoundState(a, src, c, numMissing', numMissing - |missing|, missing') && missing' <= missing
      invariant NeighboursCleared(tile, dirs, k, missing')
    {
      IndexStep(dirs, tile, k);
      ghost var before := missing';
      numMissing', missing' := LabelNeighbour(a, src, tile, dirs[k], c, numMissing', missing');
      NeighboursClearedStep(tile, dirs, k, before, missing');
      k := k + 1;
    }
    forall r | Inside(DimsOf(a), r) && IsStep(tile, r) ensures r !in missing' {
      var i := StepIndex(dirs, tile, r);
      assert NeighboursCleared(tile, dirs, |dirs|, missing');
    }
  }

  /** The neighbours of tile by the first k offsets are all labelled. */
  ghost predicate NeighboursCleared(tile: Square, dirs: seq<Offset>, k: int, missing: set<Square>)
    requires 0 <= k <= |dirs|
  {
    forall i :: 0 <= i < k ==> Neighbour(tile, dirs[i]) !in missing
  }

  lemma NeighboursClearedStep(tile: Square, dirs: seq<Offset>, k: int, before: set<Square>, after: set<Square>)
    requires 0 <= k < |dirs| && NeighboursCleared(tile, dirs, k, before)
    requires after <= before && Neighbour(tile, dirs[k]) !in after
    ensures NeighboursCleared(tile, dirs, k + 1, after)
  {
  }

  /** One offset of the `for (dx, dy) in direction` loop: the square
      (x + dx, y + dy), when it is on the board and still -1, gets the label
      c + 1 and numMissingSquares drops by one. */
  method LabelNeighbour(a: array2<int>, src: Square, tile: Square, off: Offset, c: nat,
                        numMissing: int, ghost missing: set<Square>)
    returns (numMissing': int, ghost missing': set<Square>)
    requires IsDist(DimsOf(a), src, tile, c) && IsStep(tile, Neighbour(tile, off))
    requires RoundState(a, src, c, numMissing, numMissing - |missing|, missing)
    modifies a
    ensures RoundState(a, src, c, numMissing', numMissing - |missing|, missing') && missing' <= missing
    ensures Neighbour(tile, off) !in missing'
  {
    numMissing', missing' := numMissing, missing;
    var (dx, dy) := off;
    var xNew, yNew := tile.0 + dx, tile.1 + dy;
    if 0 <= xNew < a.Length0 && 0 <= yNew < a.Length1 && a[xNew, yNew] == -1 {
      missing' := LabelSquare(a, src, tile, (xNew, yNew), c + 1, missing);
      numMissing' := numMissing - 1;
    }
  }

  /** During round c a square is at distance c exactly when its label is c. */
  lemma LabelIsLayer(a: array2<int>, src: Square, c: nat, q: Square)
    requires Inside(DimsOf(a), q) && LabelsExact(a, src) && LabelledWithin(a, src, c)
    ensures IsDist(DimsOf(a), src, q, c) <==> a[q.0, q.1] == c
  {
    var d := DimsOf(a);
    assert q == (q.0, q.1);
    assert ExactLabel(d, src, q, a[q.0, q.1]);
    if IsDist(d, src, q, c) {
      assert FarIfUnlabelled(d, src, q, a[q.0, q.1], c);
      DistLeast(d, src, q, c, a[q.0, q.1]);
      DistLeast(d, src, q, a[q.0, q.1], c);
    }
  }

  /** One square of a round: `if appleDistance[player, x, y] == currLabel`,
      expand it. */
  method ScanSquare(a: array2<int>, src: Square, c: nat, tile: Square, numMissing: int,
                    ghost missing: set<Square>, ghost done: set<Square>)
    returns (numMissing': int, ghost missing': set<Square>, ghost done': set<Square>)
    requires Inside(DimsOf(a), tile)
    requires RoundState(a, src, c, numMissing, numMissing - |missing|, missing)
    requires ClosedFrom(DimsOf(a), done, missing)
    modifies a
    ensures RoundState(a, src, c, numMissing', numMissing - |missing|, missing') && missing' <= missing
    ensures ClosedFrom(DimsOf(a), done', missing') && done <= done'
    ensures IsDist(DimsOf(a), src, tile, c) ==> tile in done'
  {
    numMissing', missing', done' := numMissing, missing, done;
    LabelIsLayer(a, src, c, tile);
    if a[tile.0, tile.1] == c {
      DirectionsIsOffsetTable();
      numMissing', missing' := ExpandSquare(a, Directions, src, tile, c, numMissing, missing);
      done' := done + {tile};
    }
  }

  lemma RowExpandedStep(d: Dims, src: Square, c: nat, x: int, y: int, done: set<Square>, done': set<Square>)
    requires RowExpanded(d, src, c, x, y, done) && done <= done'
    requires IsDist(d, src, (x, y), c) ==> (x, y) in done'
    ensures RowExpanded(d, src, c, x, y + 1, done')
  {
    forall q | Inside(d, q) && q.0 == x && q.1 < y + 1 && IsDist(d, src, q, c) ensures q in done' {
      if q.1 == y {
        assert q == (x, y);
      }
    }
  }

  /** The `for y` loop of setAppleDistance for one value of x. */
  method ScanRow(a: array2<int>, src: Square, c: nat, x: int, numMissing: int,
                 ghost missing: set<Square>, ghost done: set<Square>)
    returns (numMissing': int, ghost missing': set<Square>, ghost done': set<Square>)
    requires 0 <= x < a.Length0
    requires RoundState(a, src, c, numMissing, numMissing - |missing|, missing)
    requires ClosedFrom(DimsOf(a), done, missing)
    modifies a
    ensures RoundState(a, src, c, numMissing', numMissing - |missing|, missing') && missing' <= missing
    ensures ClosedFrom(DimsOf(a), done', missing') && done <= done'
    ensures RowExpanded(DimsOf(a), src, c, x, a.Length1, done')
  {
    numMissing', missing', done' := numMissing, missing, done;
    var y := 0;
    while y < a.Length1
      invariant 0 <= y <= a.Length1
      invariant RoundState(a, src, c, numMissing', numMissing - |missing|, missing') && missing' <= missing
      invariant ClosedFrom(DimsOf(a), done', missing') && done <= done'
      invariant RowExpanded(DimsOf(a), src, c, x, y, done')
    {
      ghost var before := done';
      numMissing', missing', done' := ScanSquare(a, src, c, (x, y), numMissing', missing', done');
      RowExpandedStep(DimsOf(a), src, c, x, y, before, done');
      y := y + 1;
    }
  }

  /** Once every square at distance c has been expanded, every square within
      c + 1 moves is labelled. */
  lemma RoundComplete(a: array2<int>, src: Square, c: nat, missing: set<Square>, done: set<Square>)
    requires LabelledWithin(a, src, c) && MissingSet(a, missing)
    requires ClosedFrom(DimsOf(a), done, missing) && RowsExpanded(DimsOf(a), src, c, a.Length0, done)
    ensures LabelledWithin(a, src, c + 1)
  {
    var d := DimsOf(a);
    forall x, y | 0 <= x < a.Length0 && 0 <= y < a.Length1
      ensures FarIfUnlabelled(d, src, (x, y), a[x, y], c + 1)
    {
      assert FarIfUnlabelled(d, src, (x, y), a[x, y], c);
      if a[x, y] == -1 && Reach(d, src, (x, y), c + 1) {
        var p := DistLayers(d, src, (x, y), c);
        assert false;
      }
    }
  }

  /** The `for x` loop of setAppleDistance: one round over the whole board,
      expanding every square labelled c. */
  method ScanRound(a: array2<int>, src: Square, c: nat, numMissing: int, ghost missing: set<Square>)
    returns (numMissing': int, ghost missing': set<Square>)
    requires RoundState(a, src, c, numMissing, numMissing - |missing|, missing)
    modifies a
    ensures RoundState(a, src, c + 1, numMissing', numMissing - |missing|, missing') && missing' <= missing
    ensures LabelsAtMost(a, c + 1)
  {
    numMissing', missing' := numMissing, missing;
    ghost var done: set<Square> := {};
    var x := 0;
    while x < a.Length0
      invariant 0 <= x <= a.Length0
      invariant RoundState(a, src, c, numMissing', numMissing - |missing|, missing') && missing' <= missing
      invariant ClosedFrom(DimsOf(a), done, missing')
      invariant RowsExpanded(DimsOf(a), src, c, x, done)
    {
      ghost var before := done;
      numMissing', missing', done := ScanRow(a, src, c, x, numMissing', missing', done);
      assert RowsExpanded(DimsOf(a), src, c, x, before);
      assert RowExpanded(DimsOf(a), src, c, x, a.Length1, done);
      x := x + 1;
    }
    RoundComplete(a, src, c, missing', done);
  }

  /** While a square is unlabelled, the next round labels a new one: some
      unlabelled square lies exactly c + 1 moves from the apple. */
  lemma NextLayerExists(a: array2<int>, src: Square, c: nat, missing: set<Square>) returns (p: Square)
    requires AllReachable(DimsOf(a), src) && missing != {}
    requires LabelsExact(a, src) && LabelledWithin(a, src, c) && LabelsAtMost(a, c) && MissingSet(a, missing)
    ensures p in missing && Reach(DimsOf(a), src, p, c + 1)
  {
    var d := DimsOf(a);
    var q :| q in missing;
    assert FarIfUnlabelled(d, src, (q.0, q.1), a[q.0, q.1], c);
    var k: nat :| Reach(d, src, q, k);
    p := Frontier(d, src, q, k, c);
    assert ExactLabel(d, src, (p.0, p.1), a[p.0, p.1]);
    if a[p.0, p.1] != -1 {
      ReachMono(d, src, p, a[p.0, p.1], c);
      assert false;
    }
  }

  /** After `appleDistance[player, xApple, yApple] = 0` on a table of -1s:
      only the apple is labelled, and the other rows * cols - 1 squares are
      missing. */
  lemma InitialState(a: array2<int>, src: Square, missing: set<Square>)
    requires Inside(DimsOf(a), src) && a[src.0, src.1] == 0
    requires forall x, y :: 0 <= x < a.Length0 && 0 <= y < a.Length1 && (x, y) != src ==> a[x, y] == -1
    requires missing == Squares(DimsOf(a)) - {src} && |Squares(DimsOf(a))| == a.Length0 * a.Length1
    ensures RoundState(a, src, 0, a.Length0 * a.Length1 - 1, 0, missing) && LabelsAtMost(a, 0)
  {
    var d := DimsOf(a);
    assert src in Squares(d);
    forall x, y | 0 <= x < a.Length0 && 0 <= y < a.Length1
      ensures ExactLabel(d, src, (x, y), a[x, y]) && FarIfUnlabelled(d, src, (x, y), a[x, y], 0)
    {
    }
  }

  lemma RemovedShrinks(before: set<Square>, after: set<Square>, p: Square)
    requires after <= before && p in before && p !in after
    ensures |after| < |before|
  {
    SubsetSize(after, before - {p});
  }

  lemma {:induction false} SubsetSize(small: set<Square>, big: set<Square>)
    requires small <= big
    ensures |small| <= |big|
    decreases big
  {
    if big != {} {
      var x :| x in big;
      SubsetSize(small - {x}, big - {x});
    }
  }

  /** setAppleDistance: fill a fresh table of -1s with the knight distance
      of every square from the apple at (xApple, yApple). The rounds stop
      only when every square is labelled, so every square must be reachable
      from the apple (CentreIsolated shows a 3x3 board where one is not). */
  method SetAppleDistance(a: array2<int>, xApple: int, yApple: int)
    requires Inside(DimsOf(a), (xApple, yApple)) && AllReachable(DimsOf(a), (xApple, yApple))
    requires forall x, y :: 0 <= x < a.Length0 && 0 <= y < a.Length1 ==> a[x, y] == -1
    modifies a
    ensures IsDistanceMatrix(a, DimsOf(a), (xApple, yApple))
    ensures forall x, y :: 0 <= x < a.Length0 && 0 <= y < a.Length1 ==> a[x, y] >= 0
  {
    var d := DimsOf(a);
    var src := (xApple, yApple);
    var numMissingSquares := a.Length0 * a.Length1 - 1;
    a[xApple, yApple] := 0;
    var currLabel := -1;
    ghost var missing := Squares(d) - {src};
    SquaresCount(d);
    InitialState(a, src, missing);
    while numMissingSquares > 0
      invariant currLabel >= -1
      invariant RoundState(a, src, currLabel + 1, numMissingSquares, 0, missing)
      invariant LabelsAtMost(a, currLabel + 1)
      decreases |missing|
    {
      currLabel := currLabel + 1;
      ghost var p := NextLayerExists(a, src, currLabel, missing);
      ghost var before := missing;
      numMissingSquares, missing := ScanRound(a, src, currLabel, numMissingSquares, missing);
      assert FarIfUnlabelled(d, src, (p.0, p.1), a[p.0, p.1], currLabel + 1);
      RemovedShrinks(before, missing, p);
    }
    forall x, y | 0 <= x < a.Length0 && 0 <= y < a.Length1
      ensures IsDistanceEntry(d, src, (x, y), a[x, y]) && a[x, y] >= 0
    {
      assert ExactLabel(d, src, (x, y), a[x, y]);
    }
  }

  /** Labels are exact in every round, so a square no knight path reaches
      is never labelled: it stays in `missing`, numMissingSquares stays
      positive and the `while numMissingSquares > 0` loop never ends. */
  lemma UnreachableStaysMissing(a: array2<int>, src: Square, c: nat, numMissing: int, missing: set<Square>, q: Square)
    requires RoundState(a, src, c, numMissing, 0, missing)
    requires Inside(DimsOf(a), q) && Unreachable(DimsOf(a), src, q)
    ensures q in missing && numMissing > 0
  {
    assert ExactLabel(DimsOf(a), src, (q.0, q.1), a[q.0, q.1]);
    if a[q.0, q.1] != -1 {
      assert false;
    }
  }

  /** On a 3 x 3 board with the apple off the centre, setAppleDistance
      never labels the centre, whatever the round. */
  lemma CentreNeverLabelled(a: array2<int>, src: Square, c: nat, numMissing: int, missing: set<Square>)
    requires a.Length0 == 3 && a.Length1 == 3 && src != (1, 1)
    requires RoundState(a, src, c, numMissing, 0, missing)
    ensures (1, 1) in missing && a[1, 1] == -1 && numMissing > 0
  {
    forall k: nat ensures !Reach(DimsOf(a), src, (1, 1), k) {
      CentreIsolated(src, k);
    }
    UnreachableStaysMissing(a, src, c, numMissing, missing, (1, 1));
  }
}
