/** Dark_Knight.py, getMove: iterative deepening over lookAheadWithPresort,
    with the root moves in argsort order of their one-ply score. timeOut()
    is the oracle `clock` of DarkKnightSearch, polled from 0 at the start of
    the call. */
module DarkKnightMove {
  import opened Game
  import opened DarkKnightEval
  import opened IndexSort
  import opened DarkKnightSearch

  /** An absolute score above this is a forced win or loss. */
  const VictoryScoreThresh: real := 1000.0
  const MinLookAhead: nat := 3
  const MaxLookAhead: nat := 20
  /** The root window is (-Bound, Bound), 9e9 in Dark_Knight.py. */
  const Bound: real := 9000000000.0

  function Abs(x: real): real {
    if x < 0.0 then -x else x
  }

  /** A search of a root child: from the move, the lookAheadDepth, the
      window (alpha, beta) and the poll count, the child's score and the
      poll count after it. */
  type RootSearch = (Move, nat, real, real, nat) -> (real, nat)

  /** `search` is the root child search of getMove on every legal move. */
  ghost predicate SearchesRoot(s: State, tabs: Tables, victoryPoints: int, clock: nat -> bool, search: RootSearch)
    requires Playable(s, tabs)
  {
    forall m, depth, alpha, beta, polls {:trigger search(m, depth, alpha, beta, polls), Successor(s, m, victoryPoints)} ::
      IsLegalMove(s, m) && depth >= MinLookAhead ==>
      search(m, depth, alpha, beta, polls) == ChildSearch(s, tabs, victoryPoints, m, depth, alpha, beta, clock, polls, true)
  }

  /** The root child search of getMove in s (any value off the legal moves). */
  function RootSearchOf(s: State, tabs: Tables, victoryPoints: int, clock: nat -> bool): (search: RootSearch)
    ensures Playable(s, tabs) ==> SearchesRoot(s, tabs, victoryPoints, clock, search)
  {
    (m: Move, depth: nat, alpha: real, beta: real, polls: nat) =>
      if Playable(s, tabs) && IsLegalMove(s, m) && depth >= MinLookAhead
      then ChildSearch(s, tabs, victoryPoints, m, depth, alpha, beta, clock, polls, true)
      else (0.0, polls)
  }

  /** A favoured move, if any, with its score from the mover's side. */
  datatype Pick = Pick(move: Option<Move>, score: real)

  /** The end of an iteration or of the deepening loop: the pick and the
      poll count. */
  datatype Outcome = Outcome(pick: Pick, polls: nat)

  /** The inner loop of one deepening iteration at lookAheadDepth `depth`,
      over the root moves from `moves` on: each child is searched one ply
      shallower in the current window, the clock is polled after it (a
      timeout ends the iteration), and MAX raises alpha, MIN lowers beta.
      The best move so far and its score from the mover's side are `best`. */
  function Round(toMove: int, moves: seq<Move>, depth: nat, search: RootSearch, alpha: real, beta: real,
                 best: Pick, clock: nat -> bool, polls: nat): Outcome
    decreases |moves|
  {
    if moves == [] then Outcome(best, polls)
    else
      var (score, n) := search(moves[0], depth, alpha, beta, polls);
      if clock(n) then Outcome(best, n + 1)
      else if toMove == 1 && score > alpha then
        Round(toMove, moves[1..], depth, search, score, beta, Pick(Some(moves[0]), score), clock, n + 1)
      else if toMove == -1 && score < beta then
        Round(toMove, moves[1..], depth, search, alpha, score, Pick(Some(moves[0]), -score), clock, n + 1)
      else Round(toMove, moves[1..], depth, search, alpha, beta, best, clock, n + 1)
  }

  /** What the favoured pick becomes after an iteration: the iteration's
      pick, unless the clock cut it short and its score does not newly
      cross +VictoryScoreThresh or -VictoryScoreThresh. */
  function Adopt(timedOut: bool, fav: Pick, curr: Pick): Pick {
    if !timedOut then curr
    else if fav.score < VictoryScoreThresh && curr.score > VictoryScoreThresh then curr
    else if fav.score < -VictoryScoreThresh && curr.score > -VictoryScoreThresh then curr
    else fav
  }

  /** The window and pick each iteration starts from. */
  const Unpicked: Pick := Pick(None, -Bound)

  /** The deepening loop from lookAheadDepth `depth` on. */
  function Deepen(toMove: int, moves: seq<Move>, depth: nat, search: RootSearch, fav: Pick,
                  clock: nat -> bool, polls: nat): Outcome
    decreases MaxLookAhead + 1 - depth
  {
    if depth > MaxLookAhead then Outcome(fav, polls)
    else
      var r := Round(toMove, moves, depth, search, -Bound, Bound, Unpicked, clock, polls);
      var fav' := Adopt(clock(r.polls), fav, r.pick);
      if clock(r.polls + 1) || Abs(fav'.score) > VictoryScoreThresh then Outcome(fav', r.polls + 2)
      else Deepen(toMove, moves, depth + 1, search, fav', clock, r.polls + 2)
  }

  /** One pass of the deepening loop, for the iteration's outcome r and the
      adopted pick fav'. */
  lemma DeepenStep(toMove: int, moves: seq<Move>, depth: nat, search: RootSearch, fav: Pick,
                   clock: nat -> bool, polls: nat, r: Outcome, fav': Pick)
    requires depth <= MaxLookAhead
    requires Round(toMove, moves, depth, search, -Bound, Bound, Unpicked, clock, polls) == r
    requires Adopt(clock(r.polls), fav, r.pick) == fav'
    ensures clock(r.polls + 1) || Abs(fav'.score) > VictoryScoreThresh ==>
      Deepen(toMove, moves, depth, search, fav, clock, polls) == Outcome(fav', r.polls + 2)
    ensures !clock(r.polls + 1) && Abs(fav'.score) <= VictoryScoreThresh ==>
      Deepen(toMove, moves, depth, search, fav, clock, polls) ==
      Deepen(toMove, moves, depth + 1, search, fav', clock, r.polls + 2)
  {
    if clock(r.polls + 1) || Abs(fav'.score) > VictoryScoreThresh {
    } else {
    }
  }

  /** getMove: the default is the first move in argsort order, with score
      -Bound; then the deepening loop from MinLookAhead on. */
  function ChooseMove(s: State, tabs: Tables, victoryPoints: int, clock: nat -> bool): Outcome
    requires Playable(s, tabs) && Moves(s) != []
  {
    var sorted := SortedMoves(s, tabs, victoryPoints);
    assert Moves(s)[0] in sorted;
    Deepen(s.toMove, sorted, MinLookAhead, RootSearchOf(s, tabs, victoryPoints, clock), Pick(Some(sorted[0]), -Bound), clock, 0)
  }

  // ---------------------------------------------------------------------
  // The loops.

  /** getMove: compute the root order once, then deepen until a score is
      decided, the clock fires or MaxLookAhead is done. */
  method GetMove(s: State, tabs: Tables, victoryPoints: int, clock: nat -> bool) returns (favoredMove: Option<Move>)
    requires Playable(s, tabs) && Moves(s) != []
    ensures favoredMove == ChooseMove(s, tabs, victoryPoints, clock).pick.move
  {
    var moveList := GetMoveOptions(s, Directions);
    MovesLegal(s);
    var scoreList := ChildScoreList(s, tabs, victoryPoints, moveList);
    var moveOrder := ArgSort(scoreList);
    var sorted := Reorder(moveList, moveOrder);
    assert sorted == SortedMoves(s, tabs, victoryPoints);
    assert moveList[0] in sorted;
    favoredMove := Deepening(s, tabs, victoryPoints, sorted, Some(moveList[moveOrder[0]]), clock,
                             RootSearchOf(s, tabs, victoryPoints, clock));
  }

  /** The iterative deepening loop of getMove over the root moves in
      argsort order, from the default move. */
  method Deepening(s: State, tabs: Tables, victoryPoints: int, sorted: seq<Move>, default: Option<Move>,
                   clock: nat -> bool, ghost search: RootSearch) returns (favoredMove: Option<Move>)
    requires Playable(s, tabs) && AllLegal(s, sorted)
    requires SearchesRoot(s, tabs, victoryPoints, clock, search)
    ensures favoredMove == Deepen(s.toMove, sorted, MinLookAhead, search, Pick(default, -Bound), clock, 0).pick.move
  {
    favoredMove := default;
    var favoredMoveScore := -Bound;
    var polls := 0;
    var depth := MinLookAhead;
    while depth <= MaxLookAhead
      invariant MinLookAhead <= depth <= MaxLookAhead + 1
      invariant Deepen(s.toMove, sorted, depth, search, Pick(favoredMove, favoredMoveScore), clock, polls) ==
                Deepen(s.toMove, sorted, MinLookAhead, search, Pick(default, -Bound), clock, 0)
      decreases MaxLookAhead + 1 - depth
    {
      var stop;
      favoredMove, favoredMoveScore, polls, stop :=
        DeepenOnce(s, tabs, victoryPoints, sorted, depth, clock, search, favoredMove, favoredMoveScore, polls);
      if stop {
        break;
      }
      depth := depth + 1;
    }
  }

  /** One pass of the deepening loop at lookAheadDepth `depth`: the
      iteration, the poll that decides which pick is kept, and the one
      that decides, with the favoured score, whether to stop. */
  method DeepenOnce(s: State, tabs: Tables, victoryPoints: int, sorted: seq<Move>, depth: nat, clock: nat -> bool,
                    ghost search: RootSearch, favoredMove: Option<Move>, favoredMoveScore: real, polls: nat)
    returns (favoredMove': Option<Move>, favoredMoveScore': real, polls': nat, stop: bool)
    requires Playable(s, tabs) && AllLegal(s, sorted) && MinLookAhead <= depth <= MaxLookAhead
    requires SearchesRoot(s, tabs, victoryPoints, clock, search)
    ensures var deepen := Deepen(s.toMove, sorted, depth, search, Pick(favoredMove, favoredMoveScore), clock, polls);
      if stop then deepen == Outcome(Pick(favoredMove', favoredMoveScore'), polls')
      else deepen == Deepen(s.toMove, sorted, depth + 1, search, Pick(favoredMove', favoredMoveScore'), clock, polls')
  {
    var currBestMove, currBestScore, n := RunRound(s, tabs, victoryPoints, sorted, depth, clock, polls, search);
    ghost var adopted := Adopt(clock(n), Pick(favoredMove, favoredMoveScore), Pick(currBestMove, currBestScore));
    DeepenStep(s.toMove, sorted, depth, search, Pick(favoredMove, favoredMoveScore), clock, polls,
               Outcome(Pick(currBestMove, currBestScore), n), adopted);
    if clock(n) {
      if favoredMoveScore < VictoryScoreThresh && currBestScore > VictoryScoreThresh {
      } else if favoredMoveScore < -VictoryScoreThresh && currBestScore > -VictoryScoreThresh {
      } else {
        currBestMove, currBestScore := favoredMove, favoredMoveScore;
      }
    }
    favoredMove', favoredMoveScore' := currBestMove, currBestScore;
    polls' := n + 2;
    stop := clock(n + 1) || Abs(favoredMoveScore') > VictoryScoreThresh;
  }

  /** makeMove and lookAheadWithPresort on a root child, one ply shallower
      than lookAheadDepth. */
  method SearchRootChild(s: State, tabs: Tables, victoryPoints: int, m: Move, depth: nat, alpha: real, beta: real,
                         clock: nat -> bool, polls: nat, ghost search: RootSearch) returns (score: real, polls': nat)
    requires Playable(s, tabs) && IsLegalMove(s, m) && depth >= MinLookAhead
    requires SearchesRoot(s, tabs, victoryPoints, clock, search)
    ensures (score, polls') == search(m, depth, alpha, beta, polls)
  {
    score, polls' := SearchChild(s, tabs, victoryPoints, m, depth, alpha, beta, clock, polls, true);
  }

  /** The inner loop of getMove for one lookAheadDepth. */
  method RunRound(s: State, tabs: Tables, victoryPoints: int, moves: seq<Move>, depth: nat,
                  clock: nat -> bool, polls: nat, ghost search: RootSearch)
    returns (currBestMove: Option<Move>, currBestScore: real, polls': nat)
    requires Playable(s, tabs) && AllLegal(s, moves) && depth >= MinLookAhead
    requires SearchesRoot(s, tabs, victoryPoints, clock, search)
    ensures Outcome(Pick(currBestMove, currBestScore), polls') ==
            Round(s.toMove, moves, depth, search, -Bound, Bound, Unpicked, clock, polls)
  {
    var alpha, beta := -Bound, Bound;
    currBestMove, currBestScore, polls' := None, alpha, polls;
    ghost var result := Round(s.toMove, moves, depth, search, -Bound, Bound, Unpicked, clock, polls);
    var i := 0;
    while i < |moves|
      invariant 0 <= i <= |moves|
      invariant Round(s.toMove, moves[i..], depth, search, alpha, beta, Pick(currBestMove, currBestScore), clock, polls') == result
    {
      var move := moves[i];
      assert moves[i..][0] == move && moves[i..][1..] == moves[i + 1..];
      var score, n := SearchRootChild(s, tabs, victoryPoints, move, depth, alpha, beta, clock, polls', search);
      polls' := n + 1;
      if clock(n) {
        break;
      }
      if s.toMove == 1 && score > alpha {
        alpha, currBestMove, currBestScore := score, Some(move), score;
      } else if s.toMove == -1 && score < beta {
        beta, currBestMove, currBestScore := score, Some(move), -score;
      }
      i := i + 1;
    }
  }
}
