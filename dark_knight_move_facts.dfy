/** What getMove of Dark_Knight.py promises: the move it returns is one of
    the legal moves; a clock that fires at once leaves the default, the
    first move in argsort order, which is a best move one ply deep; and with
    a clock that never fires every iteration picks a move of optimal minimax
    value at its lookAheadDepth, so the returned move is optimal at the
    depth where the deepening stopped. */
module DarkKnightMoveFacts {
  import opened Game
  import opened DarkKnightEval
  import opened IndexSort
  import opened DarkKnightSearch
  import opened DarkKnightMove

  // ---------------------------------------------------------------------
  // The favoured move is always legal.

  /** p names no move or a move from pool. */
  predicate PicksFrom(p: Pick, pool: seq<Move>) {
    p.move.Some? ==> p.move.value in pool
  }

  /** The favoured pick after an iteration is the old one or the
      iteration's; a finished iteration always wins, and a cut-short one
      never lowers the favoured score. */
  lemma AdoptChoice(timedOut: bool, fav: Pick, curr: Pick)
    ensures Adopt(timedOut, fav, curr) == fav || Adopt(timedOut, fav, curr) == curr
    ensures !timedOut ==> Adopt(timedOut, fav, curr) == curr
    ensures timedOut ==> Adopt(timedOut, fav, curr).score >= fav.score
  {
  }

  /** An iteration only picks moves it searches. */
  lemma {:induction false} RoundPicksFrom(toMove: int, moves: seq<Move>, depth: nat, search: RootSearch,
                                          alpha: real, beta: real, best: Pick, clock: nat -> bool, polls: nat,
                                          pool: seq<Move>)
    requires forall m :: m in moves ==> m in pool
    requires PicksFrom(best, pool)
    ensures PicksFrom(Round(toMove, moves, depth, search, alpha, beta, best, clock, polls).pick, pool)
    decreases |moves|
  {
    if moves != [] {
      var (score, n) := search(moves[0], depth, alpha, beta, polls);
      assert moves[0] in moves;
      assert forall m :: m in moves[1..] ==> m in moves;
      if clock(n) {
      } else if toMove == 1 && score > alpha {
        RoundPicksFrom(toMove, moves[1..], depth, search, score, beta, Pick(Some(moves[0]), score), clock, n + 1, pool);
      } else if toMove == -1 && score < beta {
        RoundPicksFrom(toMove, moves[1..], depth, search, alpha, score, Pick(Some(moves[0]), -score), clock, n + 1, pool);
      } else {
        RoundPicksFrom(toMove, moves[1..], depth, search, alpha, beta, best, clock, n + 1, pool);
      }
    }
  }

  /** The deepening loop keeps the favoured move among the root moves. */
  lemma {:induction false} DeepenPicksFrom(toMove: int, moves: seq<Move>, depth: nat, search: RootSearch, fav: Pick,
                                           clock: nat -> bool, polls: nat)
    requires PicksFrom(fav, moves)
    ensures PicksFrom(Deepen(toMove, moves, depth, search, fav, clock, polls).pick, moves)
    decreases MaxLookAhead + 1 - depth
  {
    if depth <= MaxLookAhead {
      var r := Round(toMove, moves, depth, search, -Bound, Bound, Unpicked, clock, polls);
      RoundPicksFrom(toMove, moves, depth, search, -Bound, Bound, Unpicked, clock, polls, moves);
      var fav' := Adopt(clock(r.polls), fav, r.pick);
      AdoptChoice(clock(r.polls), fav, r.pick);
      DeepenStep(toMove, moves, depth, search, fav, clock, polls, r, fav');
      if !clock(r.polls + 1) && Abs(fav'.score) <= VictoryScoreThresh {
        DeepenPicksFrom(toMove, moves, depth + 1, search, fav', clock, r.polls + 2);
      }
    }
  }

  /** getMove returns a legal move of the state, whatever the clock says. */
  lemma ChosenMoveIsLegal(s: State, tabs: Tables, victoryPoints: int, clock: nat -> bool)
    requires Playable(s, tabs) && Moves(s) != []
    ensures var p := ChooseMove(s, tabs, victoryPoints, clock).pick;
      p.move.Some? ==> p.move.value in Moves(s) && IsLegalMove(s, p.move.value)
  {
    var sorted := SortedMoves(s, tabs, victoryPoints);
    assert Moves(s)[0] in sorted;
    DeepenPicksFrom(s.toMove, sorted, MinLookAhead, RootSearchOf(s, tabs, victoryPoints, clock),
                    Pick(Some(sorted[0]), -Bound), clock, 0);
  }

  // ---------------------------------------------------------------------
  // The default move.

  /** The default of getMove, moveList[moveOrder[0]]: the move whose child
      argsort puts first. It is a best move one ply deep. */
  function DefaultMove(s: State, tabs: Tables, victoryPoints: int): (m: Move)
    requires Playable(s, tabs) && Moves(s) != []
    ensures m in Moves(s) && IsLegalMove(s, m)
    ensures BestOnePly(s, tabs, victoryPoints, OnePly(s, tabs, victoryPoints, m))
  {
    MovesLegal(s);
    var moves := Moves(s);
    var scores := ChildScores(s, tabs, victoryPoints, moves);
    ArgSortFirstIsLeast(scores);
    var k0 := ArgSort(scores)[0];
    LeastChildScoreIsBest(s, tabs, victoryPoints, moves, k0);
    assert moves[k0] in moves;
    moves[k0]
  }

  /** When the clock fires at the first poll, the first iteration is cut
      short before it picks anything, its pick is disregarded, and getMove
      returns the default move. */
  lemma TimeoutKeepsDefault(s: State, tabs: Tables, victoryPoints: int, clock: nat -> bool)
    requires Playable(s, tabs) && Moves(s) != [] && AlwaysFires(clock)
    ensures ChooseMove(s, tabs, victoryPoints, clock).pick == Pick(Some(DefaultMove(s, tabs, victoryPoints)), -Bound)
  {
    var sorted := SortedMoves(s, tabs, victoryPoints);
    assert Moves(s)[0] in sorted;
    var search := RootSearchOf(s, tabs, victoryPoints, clock);
    var fav := Pick(Some(sorted[0]), -Bound);
    var r := Round(s.toMove, sorted, MinLookAhead, search, -Bound, Bound, Unpicked, clock, 0);
    var (score, n) := search(sorted[0], MinLookAhead, -Bound, Bound, 0);
    assert clock(n);
    assert r.pick == Unpicked;
    DeepenStep(s.toMove, sorted, MinLookAhead, search, fav, clock, 0, r, fav);
  }

  // ---------------------------------------------------------------------
  // With unlimited time, every iteration picks an optimal move.

  /** Every legal move leads to a child whose minimax value at
      lookAheadDepth d is finite and strictly inside the root window. */
  ghost predicate InsideRootWindow(s: State, tabs: Tables, victoryPoints: int, d: nat)
    requires Playable(s, tabs)
  {
    forall m :: IsLegalMove(s, m) && d >= 1 ==>
      ChildValue(s, tabs, victoryPoints, m, d).Fin? && -Bound < ChildValue(s, tabs, victoryPoints, m, d).v < Bound
  }

  /** p names a move whose child has the minimax value of the state at
      lookAheadDepth d, with that value from the mover's side as score. */
  ghost predicate OptimalAt(s: State, tabs: Tables, victoryPoints: int, p: Pick, d: nat)
    requires Playable(s, tabs) && d >= 1
  {
    var v := Minimax(s, tabs, victoryPoints, d);
    v.Fin? && p.move.Some? && IsLegalMove(s, p.move.value) &&
    ChildValue(s, tabs, victoryPoints, p.move.value, d) == v &&
    p.score == (if s.toMove == 1 then v.v else -v.v)
  }

  // An iteration in the abstract: `value` gives the value of each root move.

  /** acc combined by max with the values of `moves`. */
  function MaxOf(value: Move -> Ext, moves: seq<Move>, acc: Ext): Ext
    decreases |moves|
  {
    if moves == [] then acc else MaxOf(value, moves[1..], ExtMax(acc, value(moves[0])))
  }

  /** acc combined by min with the values of `moves`. */
  function MinOf(value: Move -> Ext, moves: seq<Move>, acc: Ext): Ext
    decreases |moves|
  {
    if moves == [] then acc else MinOf(value, moves[1..], ExtMin(acc, value(moves[0])))
  }

  /** p is the pick of an iteration whose best value for the mover so far
      is `best`: nothing while no move was seen, else a move of that value,
      with the value from the mover's side as score. */
  predicate PicksVal(value: Move -> Ext, toMove: int, p: Pick, best: Ext) {
    if best.Fin? then
      p.move.Some? && value(p.move.value) == best && p.score == (if toMove == 1 then best.v else -best.v)
    else p == Unpicked
  }

  /** On the moves of pool the values are finite and strictly inside the
      root window, and the search meets the alpha-beta contract against them
      for every window inside the root window. */
  ghost predicate Searches(search: RootSearch, value: Move -> Ext, pool: seq<Move>, depth: nat) {
    (forall mv :: mv in pool ==> value(mv).Fin? && -Bound < value(mv).v < Bound) &&
    (forall mv, a, b, n :: mv in pool && -Bound <= a <= b <= Bound ==>
       Bracket(search(mv, depth, a, b, n).0, value(mv), a, b))
  }

  /** A MAX iteration: alpha is the best value seen (or -Bound before any),
      and the pick follows it. */
  lemma {:induction false} RoundMax(moves: seq<Move>, pool: seq<Move>, depth: nat, search: RootSearch,
                                    value: Move -> Ext, clock: nat -> bool, alpha: real, best: Pick, m: Ext, polls: nat)
    requires Searches(search, value, pool, depth) && NeverFires(clock)
    requires forall k :: k in moves ==> k in pool
    requires !m.PosInf? && alpha == (if m.Fin? then m.v else -Bound) && -Bound <= alpha < Bound
    requires PicksVal(value, 1, best, m)
    ensures PicksVal(value, 1, Round(1, moves, depth, search, alpha, Bound, best, clock, polls).pick, MaxOf(value, moves, m))
    decreases |moves|
  {
    if moves != [] {
      var mv := moves[0];
      assert mv in moves;
      assert forall k :: k in moves[1..] ==> k in moves;
      var (c, n) := search(mv, depth, alpha, Bound, polls);
      assert Bracket(c, value(mv), alpha, Bound);
      assert !clock(n);
      if c > alpha {
        RoundMax(moves[1..], pool, depth, search, value, clock, c, Pick(Some(mv), c), ExtMax(m, value(mv)), n + 1);
      } else {
        RoundMax(moves[1..], pool, depth, search, value, clock, alpha, best, ExtMax(m, value(mv)), n + 1);
      }
    }
  }

  /** A MIN iteration: beta is the least value seen (or Bound before any),
      and the pick follows it. */
  lemma {:induction false} RoundMin(moves: seq<Move>, pool: seq<Move>, depth: nat, search: RootSearch,
                                    value: Move -> Ext, clock: nat -> bool, beta: real, best: Pick, m: Ext, polls: nat)
    requires Searches(search, value, pool, depth) && NeverFires(clock)
    requires forall k :: k in moves ==> k in pool
    requires !m.NegInf? && beta == (if m.Fin? then m.v else Bound) && -Bound < beta <= Bound
    requires PicksVal(value, -1, best, m)
    ensures PicksVal(value, -1, Round(-1, moves, depth, search, -Bound, beta, best, clock, polls).pick, MinOf(value, moves, m))
    decreases |moves|
  {
    if moves != [] {
      var mv := moves[0];
      assert mv in moves;
      assert forall k :: k in moves[1..] ==> k in moves;
      var (c, n) := search(mv, depth, -Bound, beta, polls);
      assert Bracket(c, value(mv), -Bound, beta);
      assert !clock(n);
      if c < beta {
        RoundMin(moves[1..], pool, depth, search, value, clock, c, Pick(Some(mv), -c), ExtMin(m, value(mv)), n + 1);
      } else {
        RoundMin(moves[1..], pool, depth, search, value, clock, beta, best, ExtMin(m, value(mv)), n + 1);
      }
    }
  }

  /** With the children's minimax values as `value`, MaxOf and MinOf are
      MaxOver and MinOver. */
  lemma {:induction false} OfIsOver(s: State, tabs: Tables, victoryPoints: int, value: Move -> Ext, moves: seq<Move>,
                                    depth: nat, acc: Ext)
    requires Playable(s, tabs) && AllLegal(s, moves) && depth >= 1
    requires forall mv :: mv in moves ==> value(mv) == ChildValue(s, tabs, victoryPoints, mv, depth)
    ensures MaxOf(value, moves, acc) == MaxOver(s, tabs, victoryPoints, moves, depth, acc)
    ensures MinOf(value, moves, acc) == MinOver(s, tabs, victoryPoints, moves, depth, acc)
    decreases |moves|
  {
    if moves != [] {
      var mv := moves[0];
      assert mv in moves;
      assert forall k :: k in moves[1..] ==> k in moves;
      OfIsOver(s, tabs, victoryPoints, value, moves[1..], depth, ExtMax(acc, value(mv)));
      OfIsOver(s, tabs, victoryPoints, value, moves[1..], depth, ExtMin(acc, value(mv)));
    }
  }

  /** The root child values at lookAheadDepth `depth`. */
  function RootValues(s: State, tabs: Tables, victoryPoints: int, depth: nat): Move -> Ext {
    (mv: Move) =>
      if Playable(s, tabs) && IsLegalMove(s, mv) && depth >= 1 then ChildValue(s, tabs, victoryPoints, mv, depth)
      else NegInf
  }

  /** getMove's root child search meets the alpha-beta contract against the
      root child values. */
  lemma RootSearches(s: State, tabs: Tables, victoryPoints: int, moves: seq<Move>, depth: nat,
                     search: RootSearch, clock: nat -> bool)
    requires Playable(s, tabs) && AllLegal(s, moves) && depth >= MinLookAhead
    requires SearchesRoot(s, tabs, victoryPoints, clock, search) && NeverFires(clock)
    requires InsideRootWindow(s, tabs, victoryPoints, depth)
    ensures Searches(search, RootValues(s, tabs, victoryPoints, depth), moves, depth)
  {
    var value := RootValues(s, tabs, victoryPoints, depth);
    forall mv, a, b, n | mv in moves && -Bound <= a <= b <= Bound
      ensures Bracket(search(mv, depth, a, b, n).0, value(mv), a, b)
    {
      PresortChildSound(s, tabs, victoryPoints, mv, depth, a, b, clock, n);
    }
  }

  /** With a clock that never fires, an iteration over the root moves in
      any order picks a move of optimal minimax value at its depth. */
  lemma RoundOptimal(s: State, tabs: Tables, victoryPoints: int, moves: seq<Move>, depth: nat,
                     search: RootSearch, clock: nat -> bool, polls: nat)
    requires Playable(s, tabs) && !s.gameOver && Moves(s) != []
    requires AllLegal(s, moves) && forall m :: m in moves <==> m in Moves(s)
    requires depth >= MinLookAhead && SearchesRoot(s, tabs, victoryPoints, clock, search) && NeverFires(clock)
    requires InsideRootWindow(s, tabs, victoryPoints, depth)
    ensures OptimalAt(s, tabs, victoryPoints, Round(s.toMove, moves, depth, search, -Bound, Bound, Unpicked, clock, polls).pick, depth)
  {
    MovesLegal(s);
    var value := RootValues(s, tabs, victoryPoints, depth);
    RootSearches(s, tabs, victoryPoints, moves, depth, search, clock);
    OfIsOver(s, tabs, victoryPoints, value, moves, depth, NegInf);
    OfIsOver(s, tabs, victoryPoints, value, moves, depth, PosInf);
    SameMovesSameValue(s, tabs, victoryPoints, moves, Moves(s), depth);
    var m0 := Moves(s)[0];
    assert m0 in moves;
    var p := Round(s.toMove, moves, depth, search, -Bound, Bound, Unpicked, clock, polls).pick;
    if s.toMove == 1 {
      RoundMax(moves, moves, depth, search, value, clock, -Bound, Unpicked, NegInf, polls);
      MaxOverBounds(s, tabs, victoryPoints, moves, depth, NegInf);
    } else {
      RoundMin(moves, moves, depth, search, value, clock, Bound, Unpicked, PosInf, polls);
      MinOverBounds(s, tabs, victoryPoints, moves, depth, PosInf);
    }
  }

  /** The deepening loop stops early only on a decisive score. */
  predicate Settled(p: Pick, d: nat) {
    d == MaxLookAhead || Abs(p.score) > VictoryScoreThresh
  }

  /** p is good at a depth where the deepening may stop. */
  ghost predicate GoodWhereSettled(good: (Pick, nat) -> bool, p: Pick) {
    exists d :: MinLookAhead <= d <= MaxLookAhead && good(p, d) && Settled(p, d)
  }

  /** The iteration at lookAheadDepth d from poll n on picks a good pick. */
  ghost predicate RoundGood(toMove: int, moves: seq<Move>, d: nat, search: RootSearch, clock: nat -> bool, n: nat,
                            good: (Pick, nat) -> bool) {
    good(Round(toMove, moves, d, search, -Bound, Bound, Unpicked, clock, n).pick, d)
  }

  /** The deepening loop in the abstract: when the clock never fires and
      every iteration picks a pick good at its depth, the loop returns a pick
      good at the depth where it stopped. */
  lemma {:induction false} DeepenGood(toMove: int, moves: seq<Move>, depth: nat, search: RootSearch, fav: Pick,
                                      clock: nat -> bool, polls: nat, good: (Pick, nat) -> bool)
    requires NeverFires(clock) && MinLookAhead <= depth
    requires forall d, n :: depth <= d <= MaxLookAhead ==> RoundGood(toMove, moves, d, search, clock, n, good)
    requires depth > MaxLookAhead ==> depth == MaxLookAhead + 1 && good(fav, MaxLookAhead)
    ensures GoodWhereSettled(good, Deepen(toMove, moves, depth, search, fav, clock, polls).pick)
    decreases MaxLookAhead + 1 - depth
  {
    var p := Deepen(toMove, moves, depth, search, fav, clock, polls).pick;
    if depth > MaxLookAhead {
      assert p == fav;
      assert good(p, MaxLookAhead) && Settled(p, MaxLookAhead);
    } else {
      var r := Round(toMove, moves, depth, search, -Bound, Bound, Unpicked, clock, polls);
      assert RoundGood(toMove, moves, depth, search, clock, polls, good);
      var fav' := Adopt(clock(r.polls), fav, r.pick);
      assert fav' == r.pick by {
        assert !clock(r.polls);
      }
      DeepenStep(toMove, moves, depth, search, fav, clock, polls, r, fav');
      assert !clock(r.polls + 1);
      if Abs(fav'.score) > VictoryScoreThresh {
        assert p == fav';
        assert good(p, depth) && Settled(p, depth);
      } else {
        DeepenGood(toMove, moves, depth + 1, search, fav', clock, r.polls + 2, good);
      }
    }
  }

  /** With a clock that never fires, getMove returns a move of optimal
      minimax value at the lookAheadDepth where the deepening stopped:
      MaxLookAhead, or an earlier depth whose score is decisive. */
  lemma ChosenMoveIsOptimal(s: State, tabs: Tables, victoryPoints: int, clock: nat -> bool)
    requires Playable(s, tabs) && !s.gameOver && Moves(s) != [] && NeverFires(clock)
    requires forall d :: MinLookAhead <= d <= MaxLookAhead ==> InsideRootWindow(s, tabs, victoryPoints, d)
    ensures var p := ChooseMove(s, tabs, victoryPoints, clock).pick;
      exists d :: MinLookAhead <= d <= MaxLookAhead && OptimalAt(s, tabs, victoryPoints, p, d) && Settled(p, d)
  {
    var sorted := SortedMoves(s, tabs, victoryPoints);
    assert Moves(s)[0] in sorted;
    var search := RootSearchOf(s, tabs, victoryPoints, clock);
    var good := (p: Pick, d: nat) => Playable(s, tabs) && d >= 1 && OptimalAt(s, tabs, victoryPoints, p, d);
    forall d: nat, n: nat | MinLookAhead <= d <= MaxLookAhead
      ensures RoundGood(s.toMove, sorted, d, search, clock, n, good)
    {
      RoundOptimal(s, tabs, victoryPoints, sorted, d, search, clock, n);
    }
    var p := ChooseMove(s, tabs, victoryPoints, clock).pick;
    DeepenGood(s.toMove, sorted, MinLookAhead, search, Pick(Some(sorted[0]), -Bound), clock, 0, good);
    var d :| MinLookAhead <= d <= MaxLookAhead && good(p, d) && Settled(p, d);
    assert OptimalAt(s, tabs, victoryPoints, p, d);
  }
}
