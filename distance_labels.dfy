/** Distance labels kept in a board-sized integer matrix, as both agents'
    breadth-first searches keep them: -1 for "not reached yet", otherwise a
    knight distance from the start square. */
module DistanceLabels {
  import opened Game
  import opened KnightGraph

  /** What a distance-table entry means: -1 for a square no knight path
      reaches, otherwise the length of a shortest knight path. */
  ghost predicate IsDistanceEntry(d: Dims, src: Square, q: Square, v: int) {
    (v == -1 && Unreachable(d, src, q)) || (v >= 0 && IsDist(d, src, q, v))
  }

  /** A board-sized matrix of the knight distances from src. */
  ghost predicate IsDistanceMatrix(m: array2<int>, d: Dims, src: Square)
    reads m
  {
    m.Length0 == d.rows && m.Length1 == d.cols &&
    forall x, y {:trigger IsDistanceEntry(d, src, (x, y), m[x, y])} ::
      0 <= x < d.rows && 0 <= y < d.cols ==> IsDistanceEntry(d, src, (x, y), m[x, y])
  }

  function DimsOf(a: array2<int>): Dims {
    Dims(a.Length0, a.Length1)
  }

  /** A label is -1 (not reached yet) or the exact distance from src. */
  ghost predicate ExactLabel(d: Dims, src: Square, q: Square, v: int) {
    v == -1 || (v >= 0 && IsDist(d, src, q, v))
  }

  /** Every label is -1 or the exact distance from src. */
  ghost predicate LabelsExact(a: array2<int>, src: Square)
    reads a
  {
    forall x, y {:trigger ExactLabel(DimsOf(a), src, (x, y), a[x, y])} :: 0 <= x < a.Length0 && 0 <= y < a.Length1 ==>
      ExactLabel(DimsOf(a), src, (x, y), a[x, y])
  }

  /** A square still labelled -1 is not within k moves of src. */
  ghost predicate FarIfUnlabelled(d: Dims, src: Square, q: Square, v: int, k: nat) {
    v == -1 ==> !Reach(d, src, q, k)
  }

  /** Every square within `k` moves of src is labelled. */
  ghost predicate LabelledWithin(a: array2<int>, src: Square, k: nat)
    reads a
  {
    forall x, y {:trigger FarIfUnlabelled(DimsOf(a), src, (x, y), a[x, y], k)} :: 0 <= x < a.Length0 && 0 <= y < a.Length1 ==>
      FarIfUnlabelled(DimsOf(a), src, (x, y), a[x, y], k)
  }

  /** All board neighbours of q are labelled. */
  ghost predicate Expanded(a: array2<int>, q: Square)
    reads a
  {
    forall r :: Inside(DimsOf(a), r) && IsStep(q, r) ==> a[r.0, r.1] != -1
  }

  /** `missing` is exactly the set of unlabelled squares. */
  ghost predicate MissingSet(a: array2<int>, missing: set<Square>)
    reads a
  {
    (forall q :: q in missing ==> Inside(DimsOf(a), q)) &&
    forall x, y :: 0 <= x < a.Length0 && 0 <= y < a.Length1 ==> (a[x, y] == -1 <==> (x, y) in missing)
  }

  /** q is off the board or already labelled. */
  ghost predicate Labelled(a: array2<int>, q: Square)
    reads a
  {
    Inside(DimsOf(a), q) ==> a[q.0, q.1] != -1
  }


  /** Label the unlabelled board square q, one knight move from a square at
      distance layer - 1, with layer. */
  method LabelSquare(a: array2<int>, src: Square, tile: Square, q: Square, layer: int, ghost missing: set<Square>)
    returns (ghost missing': set<Square>)
    requires layer >= 1 && IsDist(DimsOf(a), src, tile, layer - 1)
    requires Inside(DimsOf(a), q) && IsStep(tile, q) && a[q.0, q.1] == -1
    requires LabelsExact(a, src) && LabelledWithin(a, src, layer - 1) && MissingSet(a, missing)
    modifies a
    ensures a[q.0, q.1] == layer
    ensures forall x, y :: 0 <= x < a.Length0 && 0 <= y < a.Length1 && old(a[x, y]) != -1 ==> a[x, y] == old(a[x, y])
    ensures forall x, y :: 0 <= x < a.Length0 && 0 <= y < a.Length1 && a[x, y] != old(a[x, y]) ==> (x, y) == q
    ensures LabelsExact(a, src) && LabelledWithin(a, src, layer - 1) && MissingSet(a, missing')
    ensures missing' == missing - {q} && |missing'| == |missing| - 1
  {
    ReachStep(DimsOf(a), src, tile, q, layer - 1);
    assert FarIfUnlabelled(DimsOf(a), src, (q.0, q.1), a[q.0, q.1], layer - 1);
    assert IsDist(DimsOf(a), src, q, layer);
    a[q.0, q.1] := layer;
    missing' := missing - {q};
  }
}
