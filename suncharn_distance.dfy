/** suncharn_pipithkul.py: the knight-distance tables built by
    breadth-first search (initMoveDistance, initMoveDistanceFromAnySpot). */
module SuncharnDistance {
  import opened Game
  import opened KnightGraph
  import opened DistanceLabels

  function Max0(n: int): nat {
    if n < 0 then 0 else n
  }

  /** The `for (dx, dy) in direction` loop of initMoveDistance: label every
      unlabelled board neighbour of `tile` with `layer`; `added` lists them
      in the order they join the queue. */
  method ExpandTile(a: array2<int>, dirs: seq<Offset>, src: Square, tile: Square, layer: int, ghost missing: set<Square>)
    returns (added: seq<Square>, ghost missing': set<Square>)
    requires IsOffsetTable(dirs)
    requires layer >= 1 && Inside(DimsOf(a), tile) && IsDist(DimsOf(a), src, tile, layer - 1)
    requires LabelsExact(a, src) && LabelledWithin(a, src, layer - 1) && MissingSet(a, missing)
    modifies a
    ensures LabelsExact(a, src) && LabelledWithin(a, src, layer - 1) && MissingSet(a, missing') && Expanded(a, tile)
    ensures forall x, y :: 0 <= x < a.Length0 && 0 <= y < a.Length1 && old(a[x, y]) != -1 ==> a[x, y] == old(a[x, y])
    ensures forall i :: 0 <= i < |added| ==> Inside(DimsOf(a), added[i]) && a[added[i].0, added[i].1] == layer
    ensures forall x, y :: 0 <= x < a.Length0 && 0 <= y < a.Length1 && old(a[x, y]) == -1 && a[x, y] != -1 ==> (x, y) in added
    ensures |missing'| == |missing| - |added|
  {
    added := [];
    missing' := missing;
    var k := 0;
    while k < |dirs|
      invariant 0 <= k <= |dirs|
      invariant LabelsExact(a, src) && LabelledWithin(a, src, layer - 1) && MissingSet(a, missing')
      invariant forall x, y :: 0 <= x < a.Length0 && 0 <= y < a.Length1 && old(a[x, y]) != -1 ==> a[x, y] == old(a[x, y])
      invariant forall x, y :: 0 <= x < a.Length0 && 0 <= y < a.Length1 && a[x, y] != old(a[x, y]) ==> a[x, y] == layer
      invariant forall i :: 0 <= i < |added| ==> Inside(DimsOf(a), added[i]) && a[added[i].0, added[i].1] == layer
      invariant forall x, y :: 0 <= x < a.Length0 && 0 <= y < a.Length1 && old(a[x, y]) == -1 && a[x, y] != -1 ==> (x, y) in added
      invariant |missing'| == |missing| - |added|
      invariant forall i :: 0 <= i < k ==> Labelled(a, Neighbour(tile, dirs[i]))
    {
      var (dx, dy) := dirs[k];
      var xEnd, yEnd := tile.0 + dx, tile.1 + dy;
      if 0 <= xEnd < a.Length0 && 0 <= yEnd < a.Length1 && a[xEnd, yEnd] == -1 {
        IndexStep(dirs, tile, k);
        missing' := LabelSquare(a, src, tile, (xEnd, yEnd), layer, missing');
        added := added + [(xEnd, yEnd)];
      }
      assert Labelled(a, (xEnd, yEnd));
      k := k + 1;
    }
    forall r | Inside(DimsOf(a), r) && IsStep(tile, r) ensures a[r.0, r.1] != -1 {
      var i := StepIndex(dirs, tile, r);
      assert Labelled(a, Neighbour(tile, dirs[i]));
    }
  }

  /** Every square of the queue is on the board; the first `pending` of them
      carry label k - 1 and the rest label k. */
  ghost predicate QueueLabels(a: array2<int>, queue: seq<Square>, pending: int, k: int)
    reads a
  {
    forall i :: 0 <= i < |queue| ==>
      Inside(DimsOf(a), queue[i]) && a[queue[i].0, queue[i].1] == (if i < pending then k - 1 else k)
  }

  /** Every board neighbour of a square already processed is processed or queued. */
  ghost predicate DoneClosed(d: Dims, done: set<Square>, queue: seq<Square>) {
    forall p, r :: p in done && Inside(d, r) && IsStep(p, r) ==> r in done || r in queue
  }

  /** Once every square queued carries label k, every square within k moves
      is labelled. */
  lemma NextLayerLabelled(a: array2<int>, src: Square, done: set<Square>, queue: seq<Square>, k: int)
    requires k >= 1 && LabelsExact(a, src) && LabelledWithin(a, src, k - 1)
    requires QueueLabels(a, queue, 0, k)
    requires forall q :: q in done ==> Inside(DimsOf(a), q) && a[q.0, q.1] != -1
    requires DoneClosed(DimsOf(a), done, queue)
    requires forall x, y :: 0 <= x < a.Length0 && 0 <= y < a.Length1 && a[x, y] != -1 ==> (x, y) in done || (x, y) in queue
    ensures LabelledWithin(a, src, k)
  {
    var d := DimsOf(a);
    forall x, y | 0 <= x < a.Length0 && 0 <= y < a.Length1
      ensures FarIfUnlabelled(d, src, (x, y), a[x, y], k)
    {
      if Reach(d, src, (x, y), k) {
        assert FarIfUnlabelled(d, src, (x, y), a[x, y], k - 1);
        if !Reach(d, src, (x, y), k - 1) {
          var p := DistLayers(d, src, (x, y), k - 1);
          assert p == (p.0, p.1);
          assert FarIfUnlabelled(d, src, p, a[p.0, p.1], k - 1);
          assert a[p.0, p.1] != -1;
          if p in queue {
            assert ExactLabel(d, src, p, a[p.0, p.1]);
            DistLeast(d, src, p, k, k - 1);
            assert false;
          }
          assert p in done;
          assert (x, y) in done || (x, y) in queue;
        }
      }
    }
  }

  /** The state of the breadth-first search between two tiles: labels are
      exact, every square within numMove - 1 moves is labelled, the queue
      holds the `pending` squares left of layer numMove - 1 then the start of
      layer numMove, and every labelled square has been processed or is
      queued. */
  ghost predicate SearchState(a: array2<int>, src: Square, queue: seq<Square>, pending: int, numMove: int,
                              done: set<Square>, missing: set<Square>)
    reads a
  {
    Inside(DimsOf(a), src) && a[src.0, src.1] == 0 &&
    LabelsExact(a, src) && MissingSet(a, missing) &&
    numMove >= 1 && LabelledWithin(a, src, numMove - 1) &&
    0 <= pending <= |queue| &&
    QueueLabels(a, queue, pending, numMove) &&
    (forall q :: q in done ==> Inside(DimsOf(a), q) && a[q.0, q.1] != -1) &&
    DoneClosed(DimsOf(a), done, queue) &&
    forall x, y :: 0 <= x < a.Length0 && 0 <= y < a.Length1 && a[x, y] != -1 ==> (x, y) in done || (x, y) in queue
  }

  /** Dequeuing the first tile and enqueuing squares labelled k keeps the
      queue's labels in order. */
  lemma QueueAfterVisit(a: array2<int>, rest: seq<Square>, added: seq<Square>, pending: int, k: int)
    requires QueueLabels(a, rest, pending, k)
    requires 0 <= pending <= |rest|
    requires forall i :: 0 <= i < |added| ==> Inside(DimsOf(a), added[i]) && a[added[i].0, added[i].1] == k
    ensures QueueLabels(a, rest + added, pending, k)
  {
    var q := rest + added;
    forall i | 0 <= i < |q|
      ensures Inside(DimsOf(a), q[i]) && a[q[i].0, q[i].1] == (if i < pending then k - 1 else k)
    {
      if i < |rest| {
        assert q[i] == rest[i];
      } else {
        assert q[i] == added[i - |rest|];
      }
    }
  }

  /** Moving the first queued tile to the processed set, once its neighbours
      are labelled, keeps every labelled square processed or queued and keeps
      the processed set closed. */
  lemma CoverAfterVisit(a: array2<int>, queue: seq<Square>, added: seq<Square>, done: set<Square>)
    requires |queue| > 0 && Expanded(a, queue[0])
    requires DoneClosed(DimsOf(a), done, queue)
    requires forall x, y :: 0 <= x < a.Length0 && 0 <= y < a.Length1 && a[x, y] != -1 ==>
      (x, y) in done || (x, y) in queue || (x, y) in added
    ensures DoneClosed(DimsOf(a), done + {queue[0]}, queue[1..] + added)
    ensures forall x, y :: 0 <= x < a.Length0 && 0 <= y < a.Length1 && a[x, y] != -1 ==>
      (x, y) in done + {queue[0]} || (x, y) in queue[1..] + added
  {
    var tile, q' := queue[0], queue[1..] + added;
    assert queue == [tile] + queue[1..];
    assert forall v :: v in queue ==> v == tile || v in q';
    forall p, r | p in done + {tile} && Inside(DimsOf(a), r) && IsStep(p, r)
      ensures r in done + {tile} || r in q'
    {
      if p == tile {
        assert a[r.0, r.1] != -1;
        assert r == (r.0, r.1);
      }
    }
  }

  /** The body of the `while processingTile` loop of initMoveDistance up to
      the layer switch: take the first queued tile, then label and enqueue
      its unlabelled neighbours. */
  method VisitTile(a: array2<int>, src: Square, queue: seq<Square>, pending: int, numMove: int,
                   ghost done: set<Square>, ghost missing: set<Square>)
    returns (queue': seq<Square>, ghost done': set<Square>, ghost missing': set<Square>)
    requires |queue| > 0 && pending > 0 && SearchState(a, src, queue, pending, numMove, done, missing)
    modifies a
    ensures SearchState(a, src, queue', pending - 1, numMove, done', missing')
    ensures |missing'| <= |missing| && |missing'| + |queue'| + 1 == |missing| + |queue|
  {
    var tile := queue[0];
    assert ExactLabel(DimsOf(a), src, (tile.0, tile.1), a[tile.0, tile.1]);
    var rest := queue[1..];
    assert QueueLabels(a, rest, pending - 1, numMove);
    var added;
    DirectionsIsOffsetTable();
    added, missing' := ExpandTile(a, Directions, src, tile, numMove, missing);
    queue' := rest + added;
    QueueAfterVisit(a, rest, added, pending - 1, numMove);
    CoverAfterVisit(a, queue, added, done);
    done' := done + {tile};
  }

  /** initMoveDistance: breadth-first search from (startX, startY) over the
      knight-move graph; `numMove` is the label of the layer being enqueued
      and `processingAmount` counts what is left of the layer before it. */
  method InitMoveDistance(startX: int, startY: int, boardHeight: int, boardWidth: int) returns (a: array2<int>)
    requires 0 <= startX < boardHeight && 0 <= startY < boardWidth
    ensures fresh(a) && IsDistanceMatrix(a, Dims(boardHeight, boardWidth), (startX, startY))
  {
    var dims := Dims(boardHeight, boardWidth);
    var src := (startX, startY);
    a := new int[boardHeight, boardWidth]((x, y) => -1);
    a[startX, startY] := 0;
    var processingTile: seq<Square> := [src];
    var numMove, processingAmount := 1, 1;
    ghost var missing := set x, y | 0 <= x < boardHeight && 0 <= y < boardWidth && (x, y) != src :: (x, y);
    ghost var done: set<Square> := {};
    assert IsDist(dims, src, src, 0);
    while |processingTile| > 0
      invariant DimsOf(a) == dims
      invariant SearchState(a, src, processingTile, processingAmount, numMove, done, missing)
      invariant |processingTile| > 0 ==> processingAmount > 0
      decreases |missing|, |processingTile|
    {
      processingTile, done, missing := VisitTile(a, src, processingTile, processingAmount, numMove, done, missing);
      processingAmount := processingAmount - 1;
      if processingAmount <= 0 {
        NextLayerLabelled(a, src, done, processingTile, numMove);
        processingAmount := |processingTile|;
        numMove := numMove + 1;
      }
    }
    forall x, y | 0 <= x < boardHeight && 0 <= y < boardWidth
      ensures IsDistanceEntry(dims, src, (x, y), a[x, y])
    {
      assert ExactLabel(dims, src, (x, y), a[x, y]);
      if a[x, y] == -1 {
        forall k: nat ensures !Reach(dims, src, (x, y), k) {
          if Reach(dims, src, (x, y), k) {
            ClosedHoldsReachable(dims, src, done, (x, y), k);
          }
        }
      }
    }
  }

  /** One row of initMoveDistanceFromAnySpot: the distance matrices of the
      start squares (iBoard, 0), ..., (iBoard, boardWidth - 1). */
  method DistanceRow(iBoard: int, boardHeight: int, boardWidth: int) returns (row: seq<array2<int>>)
    requires 0 <= iBoard < boardHeight
    ensures |row| == Max0(boardWidth)
    ensures forall j :: 0 <= j < |row| ==> IsDistanceMatrix(row[j], Dims(boardHeight, boardWidth), (iBoard, j))
  {
    row := [];
    var jBoard := 0;
    while jBoard < boardWidth
      invariant 0 <= jBoard <= Max0(boardWidth) && |row| == jBoard
      invariant forall j :: 0 <= j < jBoard ==> IsDistanceMatrix(row[j], Dims(boardHeight, boardWidth), (iBoard, j))
    {
      var m := InitMoveDistance(iBoard, jBoard, boardHeight, boardWidth);
      row := row + [m];
      jBoard := jBoard + 1;
    }
  }

  /** initMoveDistanceFromAnySpot: the distance matrix of every start square. */
  method InitMoveDistanceFromAnySpot(boardHeight: int, boardWidth: int) returns (moveDistanceFromAnySpot: seq<seq<array2<int>>>)
    ensures |moveDistanceFromAnySpot| == Max0(boardHeight)
    ensures forall i :: 0 <= i < |moveDistanceFromAnySpot| ==> |moveDistanceFromAnySpot[i]| == Max0(boardWidth)
    ensures forall i, j :: 0 <= i < |moveDistanceFromAnySpot| && 0 <= j < |moveDistanceFromAnySpot[i]| ==>
      IsDistanceMatrix(moveDistanceFromAnySpot[i][j], Dims(boardHeight, boardWidth), (i, j))
  {
    moveDistanceFromAnySpot := [];
    var iBoard := 0;
    while iBoard < boardHeight
      invariant 0 <= iBoard <= Max0(boardHeight) && |moveDistanceFromAnySpot| == iBoard
      invariant forall i :: 0 <= i < iBoard ==> |moveDistanceFromAnySpot[i]| == Max0(boardWidth)
      invariant forall i, j :: 0 <= i < iBoard && 0 <= j < |moveDistanceFromAnySpot[i]| ==>
        IsDistanceMatrix(moveDistanceFromAnySpot[i][j], Dims(boardHeight, boardWidth), (i, j))
    {
      var row := DistanceRow(iBoard, boardHeight, boardWidth);
      moveDistanceFromAnySpot := moveDistanceFromAnySpot + [row];
      iBoard := iBoard + 1;
    }
  }
}
