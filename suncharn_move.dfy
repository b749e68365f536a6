/** suncharn_pipithkul.py, getMove: iterative deepening from lookAheadDepth
    2 to 20 over the moves of getMoveOptions, every root child searched by
    lookAhead with the window (-9e9, 9e9). An iteration's best move is
    adopted only when the clock has not fired by its end, and the deepening
    stops on a timeout or on a score beyond victoryScoreThresh. timeOut() is
    the clock oracle of Game, polled from 0 at the start of the call. */
module SuncharnMove {
  import opened Game
  import opened SuncharnEval
  import opened SuncharnSearch

  /** An absolute score above this is a forced win or loss. */
  const VictoryScoreThresh: int := 1000
  const MinLookAhead: nat := 2
  const MaxLookAhead: nat := 20

  function Abs(x: int): int {
    if x < 0 then -x else x
  }

  /** A favoured move, if any, with its score. */
  datatype Pick = Pick(move: Option<Move>, score: int)

  /** The end of an iteration or of the deepening loop: the pick and the
      poll count. */
  datatype Outcome = Outcome(pick: Pick, polls: nat)

  /** The score of the root child by m at lookAheadDepth `depth`, and the
      poll count after its search. */
  function RootScore(s: State, assignedPlayer: int, victoryPoints: int, m: Move, depth: nat,
                     clock: nat -> bool, polls: nat): (int, nat)
    requires Playable(s) && IsLegalMove(s, m) && depth >= 1
  {
    ChildPlayable(s, m, victoryPoints);
    Search(Successor(s, m, victoryPoints), assignedPlayer, victoryPoints, depth - 1, -Infinity, Infinity, clock, polls)
  }

  /** A root child search: for a move, a lookAheadDepth and the poll count,
      the child's score and the poll count after it. */
  type RootSearch = (Move, nat, nat) -> (int, nat)

  /** `search` is the root child search of getMove on every legal move. */
  ghost predicate SearchesRoot(s: State, assignedPlayer: int, victoryPoints: int, clock: nat -> bool, search: RootSearch)
    requires Playable(s)
  {
    forall m, depth, polls {:trigger search(m, depth, polls), Successor(s, m, victoryPoints)} ::
      IsLegalMove(s, m) && depth >= 1 ==> search(m, depth, polls) == RootScore(s, assignedPlayer, victoryPoints, m, depth, clock, polls)
  }

  /** The root child search of getMove in s (any value off the legal moves). */
  function RootSearchOf(s: State, assignedPlayer: int, victoryPoints: int, clock: nat -> bool): (search: RootSearch)
    ensures Playable(s) ==> SearchesRoot(s, assignedPlayer, victoryPoints, clock, search)
  {
    (m: Move, depth: nat, polls: nat) =>
      if Playable(s) && IsLegalMove(s, m) && depth >= 1
      then RootScore(s, assignedPlayer, victoryPoints, m, depth, clock, polls)
      else (0, polls)
  }

  /** The running best after a root child of score `score` by m: a
      strictly better score (higher for MAX, lower for MIN) takes over. */
  function Improve(toMove: int, best: Pick, m: Move, score: int): (p: Pick)
    ensures p == best || p == Pick(Some(m), score)
    ensures toMove == 1 ==> p.score == Max(best.score, score)
    ensures toMove == -1 ==> p.score == Min(best.score, score)
  {
    if (toMove == 1 && score > best.score) || (toMove == -1 && score < best.score) then Pick(Some(m), score) else best
  }

  /** The inner loop of one deepening iteration, over the root moves from
      `moves` on, with the best move and score so far `best`; the clock is
      polled after each child, a timeout ending the iteration. */
  function Round(toMove: int, moves: seq<Move>, depth: nat, search: RootSearch, best: Pick,
                 clock: nat -> bool, polls: nat): Outcome
    decreases |moves|
  {
    if moves == [] then Outcome(best, polls)
    else
      var (score, n) := search(moves[0], depth, polls);
      var best' := Improve(toMove, best, moves[0], score);
      if clock(n) then Outcome(best', n + 1)
      else Round(toMove, moves[1..], depth, search, best', clock, n + 1)
  }

  /** The deepening loop from lookAheadDepth `depth` on: after each
      iteration one poll decides whether its pick is adopted, and another
      whether to stop, as does a decisive favoured score. */
  function Deepen(toMove: int, moves: seq<Move>, depth: nat, search: RootSearch, fav: Pick,
                  clock: nat -> bool, polls: nat): Outcome
    decreases MaxLookAhead + 1 - depth
  {
    if depth > MaxLookAhead then Outcome(fav, polls)
    else
      var r := Round(toMove, moves, depth, search, Pick(None, Sentinel(toMove)), clock, polls);
      var fav' := if clock(r.polls) then fav else r.pick;
      if clock(r.polls + 1) || Abs(fav'.score) > VictoryScoreThresh then Outcome(fav', r.polls + 2)
      else Deepen(toMove, moves, depth + 1, search, fav', clock, r.polls + 2)
  }

  /** One step of Deepen, once the iteration at `depth` is known. */
  lemma DeepenStep(toMove: int, moves: seq<Move>, depth: nat, search: RootSearch, fav: Pick,
                   clock: nat -> bool, polls: nat, r: Outcome)
    requires depth <= MaxLookAhead
    requires r == Round(toMove, moves, depth, search, Pick(None, Sentinel(toMove)), clock, polls)
    ensures var fav' := if clock(r.polls) then fav else r.pick;
      Deepen(toMove, moves, depth, search, fav, clock, polls) ==
      if clock(r.polls + 1) || Abs(fav'.score) > VictoryScoreThresh then Outcome(fav', r.polls + 2)
      else Deepen(toMove, moves, depth + 1, search, fav', clock, r.polls + 2)
  {
  }

  /** getMove: the first move of getMoveOptions with the sentinel score as
      the default, then the deepening loop from MinLookAhead on. */
  function ChooseMove(s: State, assignedPlayer: int, victoryPoints: int, clock: nat -> bool): Outcome
    requires Playable(s) && Moves(s, assignedPlayer) != []
  {
    var moves := Moves(s, assignedPlayer);
    Deepen(s.toMove, moves, MinLookAhead, RootSearchOf(s, assignedPlayer, victoryPoints, clock),
           Pick(Some(moves[0]), Sentinel(s.toMove)), clock, 0)
  }

  /** getMove: the moves of getMoveOptions, then the deepening loop from
      the first of them. */
  method GetMove(s: State, assignedPlayer: int, victoryPoints: int, clock: nat -> bool) returns (favoredMove: Option<Move>)
    requires Playable(s) && Moves(s, assignedPlayer) != []
    ensures favoredMove == ChooseMove(s, assignedPlayer, victoryPoints, clock).pick.move
  {
    var moveList := MoveOptions(s, assignedPlayer);
    favoredMove := Deepening(s, assignedPlayer, victoryPoints, moveList, clock, RootSearchOf(s, assignedPlayer, victoryPoints, clock));
  }

  /** The iterative deepening loop of getMove over the root moves. */
  method Deepening(s: State, assignedPlayer: int, victoryPoints: int, moveList: seq<Move>, clock: nat -> bool,
                   ghost search: RootSearch) returns (favoredMove: Option<Move>)
    requires Playable(s) && AllLegal(s, moveList) && moveList != []
    requires SearchesRoot(s, assignedPlayer, victoryPoints, clock, search)
    ensures favoredMove == Deepen(s.toMove, moveList, MinLookAhead, search, Pick(Some(moveList[0]), Sentinel(s.toMove)), clock, 0).pick.move
  {
    favoredMove := Some(moveList[0]);
    var favoredMoveScore := Sentinel(s.toMove);
    var polls := 0;
    var lookAheadDepth := MinLookAhead;
    while lookAheadDepth <= MaxLookAhead
      invariant MinLookAhead <= lookAheadDepth <= MaxLookAhead + 1
      invariant Deepen(s.toMove, moveList, lookAheadDepth, search, Pick(favoredMove, favoredMoveScore), clock, polls) ==
                Deepen(s.toMove, moveList, MinLookAhead, search, Pick(Some(moveList[0]), Sentinel(s.toMove)), clock, 0)
      decreases MaxLookAhead + 1 - lookAheadDepth
    {
      var stop;
      favoredMove, favoredMoveScore, polls, stop :=
        DeepenOnce(s, assignedPlayer, victoryPoints, moveList, lookAheadDepth, clock, search, favoredMove, favoredMoveScore, polls);
      if stop {
        break;
      }
      lookAheadDepth := lookAheadDepth + 1;
    }
  }

  /** One pass of the deepening loop at lookAheadDepth: the iteration, the
      poll that decides whether its pick is adopted, and the one that
      decides, with the favoured score, whether to stop. */
  method DeepenOnce(s: State, assignedPlayer: int, victoryPoints: int, moveList: seq<Move>, lookAheadDepth: nat,
                    clock: nat -> bool, ghost search: RootSearch, favoredMove: Option<Move>, favoredMoveScore: int, polls: nat)
    returns (favoredMove': Option<Move>, favoredMoveScore': int, polls': nat, stop: bool)
    requires Playable(s) && AllLegal(s, moveList) && 1 <= lookAheadDepth <= MaxLookAhead
    requires SearchesRoot(s, assignedPlayer, victoryPoints, clock, search)
    ensures var deepen := Deepen(s.toMove, moveList, lookAheadDepth, search, Pick(favoredMove, favoredMoveScore), clock, polls);
      if stop then deepen == Outcome(Pick(favoredMove', favoredMoveScore'), polls')
      else deepen == Deepen(s.toMove, moveList, lookAheadDepth + 1, search, Pick(favoredMove', favoredMoveScore'), clock, polls')
  {
    var currBestMove, currBestScore, n := RunRound(s, assignedPlayer, victoryPoints, moveList, lookAheadDepth, clock, polls, search);
    DeepenStep(s.toMove, moveList, lookAheadDepth, search, Pick(favoredMove, favoredMoveScore), clock, polls,
               Outcome(Pick(currBestMove, currBestScore), n));
    favoredMove', favoredMoveScore' := favoredMove, favoredMoveScore;
    if !clock(n) {
      favoredMove', favoredMoveScore' := currBestMove, currBestScore;
    }
    polls' := n + 2;
    stop := clock(n + 1) || Abs(favoredMoveScore') > VictoryScoreThresh;
  }

  /** makeMove and lookAhead on a root child, one ply shallower than
      lookAheadDepth, in the window (-9e9, 9e9). */
  method SearchRootChild(s: State, assignedPlayer: int, victoryPoints: int, m: Move, lookAheadDepth: nat,
                         clock: nat -> bool, polls: nat, ghost search: RootSearch) returns (score: int, polls': nat)
    requires Playable(s) && IsLegalMove(s, m) && lookAheadDepth >= 1
    requires SearchesRoot(s, assignedPlayer, victoryPoints, clock, search)
    ensures (score, polls') == search(m, lookAheadDepth, polls)
  {
    score, polls' := SearchChild(s, assignedPlayer, victoryPoints, m, lookAheadDepth, -Infinity, Infinity, clock, polls);
  }

  /** The inner loop of getMove for one lookAheadDepth. */
  method RunRound(s: State, assignedPlayer: int, victoryPoints: int, moves: seq<Move>, lookAheadDepth: nat,
                  clock: nat -> bool, polls: nat, ghost search: RootSearch)
    returns (currBestMove: Option<Move>, currBestScore: int, polls': nat)
    requires Playable(s) && AllLegal(s, moves) && lookAheadDepth >= 1
    requires SearchesRoot(s, assignedPlayer, victoryPoints, clock, search)
    ensures Outcome(Pick(currBestMove, currBestScore), polls') ==
            Round(s.toMove, moves, lookAheadDepth, search, Pick(None, Sentinel(s.toMove)), clock, polls)
  {
    currBestMove, currBestScore, polls' := None, Sentinel(s.toMove), polls;
    ghost var result := Round(s.toMove, moves, lookAheadDepth, search, Pick(None, Sentinel(s.toMove)), clock, polls);
    var i := 0;
    while i < |moves|
      invariant 0 <= i <= |moves|
      invariant Round(s.toMove, moves[i..], lookAheadDepth, search, Pick(currBestMove, currBestScore), clock, polls') == result
    {
      var move := moves[i];
      assert moves[i..][0] == move && moves[i..][1..] == moves[i + 1..];
      assert move in moves;
      var score, n := SearchRootChild(s, assignedPlayer, victoryPoints, move, lookAheadDepth, clock, polls', search);
      if (s.toMove == 1 && score > currBestScore) || (s.toMove == -1 && score < currBestScore) {
        currBestMove, currBestScore := Some(move), score;
      }
      polls' := n + 1;
      if clock(n) {
        break;
      }
      i := i + 1;
    }
  }

  // ---------------------------------------------------------------------
  // The favoured move is always legal.

  /** p names no move or a move from pool. */
  predicate PicksFrom(p: Pick, pool: seq<Move>) {
    p.move.Some? ==> p.move.value in pool
  }

  /** An iteration only picks moves it searches. */
  lemma {:induction false} RoundPicksFrom(toMove: int, moves: seq<Move>, depth: nat, search: RootSearch, best: Pick,
                                          clock: nat -> bool, polls: nat, pool: seq<Move>)
    requires (forall m :: m in moves ==> m in pool) && PicksFrom(best, pool)
    ensures PicksFrom(Round(toMove, moves, depth, search, best, clock, polls).pick, pool)
    decreases |moves|
  {
    if moves != [] {
      assert moves[0] in moves;
      assert forall m :: m in moves[1..] ==> m in moves;
      var (score, n) := search(moves[0], depth, polls);
      RoundPicksFrom(toMove, moves[1..], depth, search, Improve(toMove, best, moves[0], score), clock, n + 1, pool);
    }
  }

  /** The deepening loop keeps the favoured move among the root moves. */
  lemma {:induction false} DeepenPicksFrom(toMove: int, moves: seq<Move>, depth: nat, search: RootSearch, fav: Pick,
                                           clock: nat -> bool, polls: nat)
    requires PicksFrom(fav, moves)
    ensures PicksFrom(Deepen(toMove, moves, depth, search, fav, clock, polls).pick, moves)
    decreases MaxLookAhead + 1 - depth
  {
    if depth <= MaxLookAhead {
      var r := Round(toMove, moves, depth, search, Pick(None, Sentinel(toMove)), clock, polls);
      RoundPicksFrom(toMove, moves, depth, search, Pick(None, Sentinel(toMove)), clock, polls, moves);
      var fav' := if clock(r.polls) then fav else r.pick;
      DeepenPicksFrom(toMove, moves, depth + 1, search, fav', clock, r.polls + 2);
    }
  }

  /** getMove returns a legal move of the state, or no move at all, whatever
      the clock says. */
  lemma ChosenMoveIsLegal(s: State, assignedPlayer: int, victoryPoints: int, clock: nat -> bool)
    requires Playable(s) && Moves(s, assignedPlayer) != []
    ensures var p := ChooseMove(s, assignedPlayer, victoryPoints, clock).pick;
      p.move.Some? ==> p.move.value in Moves(s, assignedPlayer) && IsLegalMove(s, p.move.value)
  {
    var moves := Moves(s, assignedPlayer);
    assert moves[0] in moves;
    DeepenPicksFrom(s.toMove, moves, MinLookAhead, RootSearchOf(s, assignedPlayer, victoryPoints, clock),
                    Pick(Some(moves[0]), Sentinel(s.toMove)), clock, 0);
  }

  /** When the clock fires at every poll, the first iteration is cut short
      after its first child, its pick is disregarded, and getMove returns
      moveList[0]. */
  lemma TimeoutKeepsFirstMove(s: State, assignedPlayer: int, victoryPoints: int, clock: nat -> bool)
    requires Playable(s) && Moves(s, assignedPlayer) != [] && AlwaysFires(clock)
    ensures ChooseMove(s, assignedPlayer, victoryPoints, clock).pick.move == Some(Moves(s, assignedPlayer)[0])
  {
    var moves := Moves(s, assignedPlayer);
    var search := RootSearchOf(s, assignedPlayer, victoryPoints, clock);
    var r := Round(s.toMove, moves, MinLookAhead, search, Pick(None, Sentinel(s.toMove)), clock, 0);
    assert clock(r.polls) && clock(r.polls + 1);
  }

  // ---------------------------------------------------------------------
  // With unlimited time, every iteration picks an optimal move.

  /** Every legal move leads to a child whose minimax value at
      lookAheadDepth d lies strictly inside the root window. */
  ghost predicate InsideRootWindow(s: State, assignedPlayer: int, victoryPoints: int, d: nat)
    requires Playable(s)
  {
    forall m :: IsLegalMove(s, m) && d >= 1 ==> -Infinity < ChildValue(s, assignedPlayer, victoryPoints, m, d) < Infinity
  }

  /** p carries v as its score and names a legal move of child value v, or
      no move while v is still the sentinel. */
  ghost predicate PicksValue(s: State, assignedPlayer: int, victoryPoints: int, d: nat, p: Pick, v: int)
    requires Playable(s) && d >= 1
  {
    p.score == v &&
    (p.move.None? ==> v == Sentinel(s.toMove)) &&
    (p.move.Some? ==> IsLegalMove(s, p.move.value) && ChildValue(s, assignedPlayer, victoryPoints, p.move.value, d) == v)
  }

  /** With a clock that never fires, the root child search returns the
      child's minimax value, as long as that lies inside the root window. */
  lemma RootScoreExact(s: State, assignedPlayer: int, victoryPoints: int, m: Move, d: nat, clock: nat -> bool, polls: nat)
    requires Playable(s) && IsLegalMove(s, m) && d >= 1 && NeverFires(clock)
    requires -Infinity < ChildValue(s, assignedPlayer, victoryPoints, m, d) < Infinity
    ensures RootScore(s, assignedPlayer, victoryPoints, m, d, clock, polls).0 == ChildValue(s, assignedPlayer, victoryPoints, m, d)
  {
    ChildPlayable(s, m, victoryPoints);
    SearchSound(Successor(s, m, victoryPoints), assignedPlayer, victoryPoints, d - 1, -Infinity, Infinity, clock, polls);
  }

  /** Improve keeps PicksValue for the running maximum (MAX) or minimum
      (MIN), once a child inside the root window is scored exactly. */
  lemma ImprovePicks(s: State, assignedPlayer: int, victoryPoints: int, d: nat, best: Pick, v: int, m: Move)
    requires Playable(s) && d >= 1 && IsLegalMove(s, m)
    requires -Infinity < ChildValue(s, assignedPlayer, victoryPoints, m, d) < Infinity
    requires PicksValue(s, assignedPlayer, victoryPoints, d, best, v)
    ensures var cv := ChildValue(s, assignedPlayer, victoryPoints, m, d);
      PicksValue(s, assignedPlayer, victoryPoints, d, Improve(s.toMove, best, m, cv), if s.toMove == 1 then Max(v, cv) else Min(v, cv))
  {
  }

  /** The running maximum (MAX) or minimum (MIN) of acc and the values of
      the children by `moves`. */
  ghost function Best(s: State, assignedPlayer: int, victoryPoints: int, moves: seq<Move>, d: nat, acc: int): int
    requires Playable(s) && AllLegal(s, moves) && d >= 1
  {
    if s.toMove == 1 then MaxOver(s, assignedPlayer, victoryPoints, moves, d, acc)
    else MinOver(s, assignedPlayer, victoryPoints, moves, d, acc)
  }

  /** The first child of an iteration, with a clock that never fires: the
      search scores it exactly, the iteration goes on to the next, and the
      pick follows the running best. */
  lemma RoundExactStep(s: State, assignedPlayer: int, victoryPoints: int, moves: seq<Move>, d: nat,
                       search: RootSearch, best: Pick, v: int, clock: nat -> bool, polls: nat)
    returns (best': Pick, v': int, n: nat)
    requires Playable(s) && AllLegal(s, moves) && moves != [] && d >= 1 && NeverFires(clock)
    requires SearchesRoot(s, assignedPlayer, victoryPoints, clock, search)
    requires -Infinity < ChildValue(s, assignedPlayer, victoryPoints, moves[0], d) < Infinity
    requires PicksValue(s, assignedPlayer, victoryPoints, d, best, v)
    ensures Round(s.toMove, moves, d, search, best, clock, polls) == Round(s.toMove, moves[1..], d, search, best', clock, n)
    ensures PicksValue(s, assignedPlayer, victoryPoints, d, best', v')
    ensures Best(s, assignedPlayer, victoryPoints, moves, d, v) == Best(s, assignedPlayer, victoryPoints, moves[1..], d, v')
  {
    var mv := moves[0];
    assert mv in moves;
    var cv := ChildValue(s, assignedPlayer, victoryPoints, mv, d);
    RootScoreExact(s, assignedPlayer, victoryPoints, mv, d, clock, polls);
    var (score, n') := search(mv, d, polls);
    assert score == cv && !clock(n');
    best', n := Improve(s.toMove, best, mv, score), n' + 1;
    ImprovePicks(s, assignedPlayer, victoryPoints, d, best, v, mv);
    v' := if s.toMove == 1 then Max(v, cv) else Min(v, cv);
  }

  /** With a clock that never fires, an iteration follows the running
      maximum (MAX) or minimum (MIN) of the root child values. */
  lemma {:induction false} RoundExact(s: State, assignedPlayer: int, victoryPoints: int, moves: seq<Move>, d: nat,
                                      search: RootSearch, best: Pick, v: int, clock: nat -> bool, polls: nat)
    requires Playable(s) && AllLegal(s, moves) && d >= 1 && NeverFires(clock)
    requires SearchesRoot(s, assignedPlayer, victoryPoints, clock, search)
    requires forall m :: m in moves ==> -Infinity < ChildValue(s, assignedPlayer, victoryPoints, m, d) < Infinity
    requires PicksValue(s, assignedPlayer, victoryPoints, d, best, v)
    ensures PicksValue(s, assignedPlayer, victoryPoints, d, Round(s.toMove, moves, d, search, best, clock, polls).pick,
                       Best(s, assignedPlayer, victoryPoints, moves, d, v))
    decreases |moves|
  {
    if moves != [] {
      assert moves[0] in moves;
      assert forall m :: m in moves[1..] ==> m in moves;
      var best', v', n := RoundExactStep(s, assignedPlayer, victoryPoints, moves, d, search, best, v, clock, polls);
      RoundExact(s, assignedPlayer, victoryPoints, moves[1..], d, search, best', v', clock, n);
    }
  }

  /** p names a legal move whose child has the minimax value of the state
      at lookAheadDepth d, and carries that value as its score. */
  ghost predicate OptimalAt(s: State, assignedPlayer: int, victoryPoints: int, p: Pick, d: nat)
    requires Playable(s) && d >= 1
  {
    var v := Value(s, assignedPlayer, victoryPoints, d);
    p.move.Some? && IsLegalMove(s, p.move.value) &&
    ChildValue(s, assignedPlayer, victoryPoints, p.move.value, d) == v && p.score == v
  }

  /** With a clock that never fires, each iteration picks a move of
      optimal minimax value at its lookAheadDepth. */
  lemma RoundOptimal(s: State, assignedPlayer: int, victoryPoints: int, d: nat, search: RootSearch, clock: nat -> bool, polls: nat)
    requires Playable(s) && !s.gameOver && Moves(s, assignedPlayer) != [] && d >= 1 && NeverFires(clock)
    requires SearchesRoot(s, assignedPlayer, victoryPoints, clock, search)
    requires InsideRootWindow(s, assignedPlayer, victoryPoints, d)
    ensures OptimalAt(s, assignedPlayer, victoryPoints,
                      Round(s.toMove, Moves(s, assignedPlayer), d, search, Pick(None, Sentinel(s.toMove)), clock, polls).pick, d)
  {
    var moves := Moves(s, assignedPlayer);
    RoundExact(s, assignedPlayer, victoryPoints, moves, d, search, Pick(None, Sentinel(s.toMove)), Sentinel(s.toMove), clock, polls);
    OverBounds(s, assignedPlayer, victoryPoints, moves, d, Sentinel(s.toMove));
    assert moves[0] in moves;
  }

  /** The deepening loop stops early only on a decisive score. */
  predicate Settled(p: Pick, d: nat) {
    d == MaxLookAhead || Abs(p.score) > VictoryScoreThresh
  }

  /** With a clock that never fires, the deepening loop from `depth` on
      returns a move optimal at the depth d where it stopped. */
  lemma {:induction false} DeepenOptimal(s: State, assignedPlayer: int, victoryPoints: int, depth: nat, search: RootSearch,
                                         fav: Pick, clock: nat -> bool, polls: nat) returns (d: nat)
    requires Playable(s) && !s.gameOver && Moves(s, assignedPlayer) != [] && NeverFires(clock)
    requires SearchesRoot(s, assignedPlayer, victoryPoints, clock, search)
    requires MinLookAhead <= depth <= MaxLookAhead + 1
    requires forall d :: depth <= d <= MaxLookAhead ==> InsideRootWindow(s, assignedPlayer, victoryPoints, d)
    requires depth > MaxLookAhead ==> OptimalAt(s, assignedPlayer, victoryPoints, fav, MaxLookAhead)
    ensures var p := Deepen(s.toMove, Moves(s, assignedPlayer), depth, search, fav, clock, polls).pick;
      MinLookAhead <= d <= MaxLookAhead && OptimalAt(s, assignedPlayer, victoryPoints, p, d) && Settled(p, d)
    decreases MaxLookAhead + 1 - depth
  {
    var moves := Moves(s, assignedPlayer);
    if depth > MaxLookAhead {
      d := MaxLookAhead;
    } else {
      var r := Round(s.toMove, moves, depth, search, Pick(None, Sentinel(s.toMove)), clock, polls);
      RoundOptimal(s, assignedPlayer, victoryPoints, depth, search, clock, polls);
      assert !clock(r.polls) && !clock(r.polls + 1);
      DeepenStep(s.toMove, moves, depth, search, fav, clock, polls, r);
      if Abs(r.pick.score) > VictoryScoreThresh || depth == MaxLookAhead {
        d := depth;
      } else {
        d := DeepenOptimal(s, assignedPlayer, victoryPoints, depth + 1, search, r.pick, clock, r.polls + 2);
      }
    }
  }

  /** With a clock that never fires, getMove returns a move of optimal
      minimax value at the lookAheadDepth where the deepening stopped:
      MaxLookAhead, or an earlier depth whose score is decisive. */
  lemma ChosenMoveIsOptimal(s: State, assignedPlayer: int, victoryPoints: int, clock: nat -> bool)
    requires Playable(s) && !s.gameOver && Moves(s, assignedPlayer) != [] && NeverFires(clock)
    requires forall d :: MinLookAhead <= d <= MaxLookAhead ==> InsideRootWindow(s, assignedPlayer, victoryPoints, d)
    ensures var p := ChooseMove(s, assignedPlayer, victoryPoints, clock).pick;
      exists d :: MinLookAhead <= d <= MaxLookAhead && OptimalAt(s, assignedPlayer, victoryPoints, p, d) && Settled(p, d)
  {
    var moves := Moves(s, assignedPlayer);
    var d := DeepenOptimal(s, assignedPlayer, victoryPoints, MinLookAhead, RootSearchOf(s, assignedPlayer, victoryPoints, clock),
                           Pick(Some(moves[0]), Sentinel(s.toMove)), clock, 0);
  }
}
