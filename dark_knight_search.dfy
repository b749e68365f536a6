/** Dark_Knight.py, lookAhead and lookAheadWithPresort: depth-limited
    minimax with alpha-beta pruning, the second one visiting the children
    best-first by their static score. The wall clock behind timeOut() is an
    oracle `clock`: the i-th call of timeOut() answers clock(i), and every
    search threads the number of calls made so far. */
module DarkKnightSearch {
  import opened Game
  import opened DarkKnightEval
  import opened IndexSort

  /** A state getScore can evaluate: well formed, tables of its shape, and
      a horse of each side unless the game is over. */
  predicate Playable(s: State, tabs: Tables) {
    Ready(s, tabs) && (s.gameOver || (Holds(s.board, 1) && Holds(s.board, -1)))
  }

  /** The moves getMoveOptions produces. */
  function Moves(s: State): seq<Move>
    requires IsRect(s.board)
  {
    LegalMoves(s, Directions)
  }

  predicate AllLegal(s: State, moves: seq<Move>) {
    forall m :: m in moves ==> IsLegalMove(s, m)
  }

  lemma MovesLegal(s: State)
    requires IsRect(s.board)
    ensures AllLegal(s, Moves(s))
  {
    DirectionsIsOffsetTable();
    LegalMovesAreLegal(s, Directions);
  }

  /** A legal move from a playable state leads to a playable state. */
  lemma ChildPlayable(s: State, tabs: Tables, victoryPoints: int, m: Move)
    requires Playable(s, tabs) && IsLegalMove(s, m)
    ensures Playable(Successor(s, m, victoryPoints), tabs)
  {
    SuccessorWellFormed(s, m, victoryPoints);
  }

  // ---------------------------------------------------------------------
  // The reference: full-width minimax over extended reals.

  /** A score, or minus/plus infinity for the best of no children. */
  datatype Ext = NegInf | Fin(v: real) | PosInf

  predicate ExtLe(x: Ext, y: Ext) {
    x == NegInf || y == PosInf || (x.Fin? && y.Fin? && x.v <= y.v)
  }

  function ExtMax(x: Ext, y: Ext): Ext {
    if ExtLe(x, y) then y else x
  }

  function ExtMin(x: Ext, y: Ext): Ext {
    if ExtLe(x, y) then x else y
  }

  /** The minimax value of s searched d plies deep. */
  function Minimax(s: State, tabs: Tables, victoryPoints: int, d: nat): Ext
    requires Playable(s, tabs)
    decreases d, 1, 0
  {
    if d == 0 || s.gameOver then Fin(Score(s, tabs, victoryPoints))
    else
      MovesLegal(s);
      if s.toMove == 1 then MaxOver(s, tabs, victoryPoints, Moves(s), d, NegInf)
      else MinOver(s, tabs, victoryPoints, Moves(s), d, PosInf)
  }

  /** acc combined by max with the values of the children by `moves`. */
  function MaxOver(s: State, tabs: Tables, victoryPoints: int, moves: seq<Move>, d: nat, acc: Ext): Ext
    requires Playable(s, tabs) && AllLegal(s, moves) && d >= 1
    decreases d, 0, |moves|
  {
    if moves == [] then acc
    else
      ChildPlayable(s, tabs, victoryPoints, moves[0]);
      var v := Minimax(Successor(s, moves[0], victoryPoints), tabs, victoryPoints, d - 1);
      MaxOver(s, tabs, victoryPoints, moves[1..], d, ExtMax(acc, v))
  }

  function MinOver(s: State, tabs: Tables, victoryPoints: int, moves: seq<Move>, d: nat, acc: Ext): Ext
    requires Playable(s, tabs) && AllLegal(s, moves) && d >= 1
    decreases d, 0, |moves|
  {
    if moves == [] then acc
    else
      ChildPlayable(s, tabs, victoryPoints, moves[0]);
      var v := Minimax(Successor(s, moves[0], victoryPoints), tabs, victoryPoints, d - 1);
      MinOver(s, tabs, victoryPoints, moves[1..], d, ExtMin(acc, v))
  }

  // ---------------------------------------------------------------------
  // lookAhead as a function of the clock.

  /** lookAhead(s, d, alpha, beta) with `polls` calls of timeOut() made
      before it: the score and the number of calls after it. */
  function Search(s: State, tabs: Tables, victoryPoints: int, d: nat, alpha: real, beta: real,
                  clock: nat -> bool, polls: nat): (real, nat)
    requires Playable(s, tabs)
    decreases d, 1, 0
  {
    if d == 0 || s.gameOver then (Score(s, tabs, victoryPoints), polls)
    else if clock(polls) then (0.0, polls + 1)
    else
      MovesLegal(s);
      var (a, b, n) := Scan(s, tabs, victoryPoints, Moves(s), d, alpha, beta, alpha, beta, clock, polls + 1, false);
      (if s.toMove == 1 then a else b, n)
  }

  /** -playerToMove * x, for a side code of 1 or -1. */
  function AgainstMover(toMove: int, x: real): real {
    if toMove == 1 then -x else x
  }

  /** The one-ply score of the child by m from the mover's side, negated so
      that an ascending sort puts the mover's best child first. */
  function ChildScore(s: State, tabs: Tables, victoryPoints: int, m: Move): real
    requires Playable(s, tabs) && IsLegalMove(s, m)
  {
    ChildPlayable(s, tabs, victoryPoints, m);
    AgainstMover(s.toMove, Score(Successor(s, m, victoryPoints), tabs, victoryPoints))
  }

  /** scoreList: ChildScore of every move, in move order. */
  function ChildScores(s: State, tabs: Tables, victoryPoints: int, moves: seq<Move>): seq<real>
    requires Playable(s, tabs) && AllLegal(s, moves)
  {
    seq(|moves|, k requires 0 <= k < |moves| => ChildScore(s, tabs, victoryPoints, moves[k]))
  }

  /** The moves in the order `order` lists their indices. */
  function Reorder(moves: seq<Move>, order: seq<nat>): seq<Move>
    requires InRange(order, |moves|)
  {
    seq(|order|, k requires 0 <= k < |order| => moves[order[k]])
  }

  /** The precondition of lookAheadWithPresort: at depth 1 it reads the
      first entry of the move order, so a state that reaches that line needs
      a move. */
  predicate PresortDefined(s: State, d: nat, clock: nat -> bool, polls: nat)
    requires IsRect(s.board)
  {
    d != 1 || s.gameOver || clock(polls) || Moves(s) != []
  }

  /** lookAheadWithPresort(s, d, alpha, beta) with `polls` calls of
      timeOut() made before it: the score and the number of calls after it. */
  function PresortSearch(s: State, tabs: Tables, victoryPoints: int, d: nat, alpha: real, beta: real,
                         clock: nat -> bool, polls: nat): (real, nat)
    requires Playable(s, tabs) && PresortDefined(s, d, clock, polls)
    decreases d, 1, 0
  {
    if d == 0 || s.gameOver then (Score(s, tabs, victoryPoints), polls)
    else if clock(polls) then (0.0, polls + 1)
    else
      MovesLegal(s);
      if d == 1 then (PresortFirst(s, tabs, victoryPoints), polls + 1)
      else
        var (a, b, n) := Scan(s, tabs, victoryPoints, SortedMoves(s, tabs, victoryPoints), d, alpha, beta, alpha, beta,
                              clock, polls + 1, true);
        (if s.toMove == 1 then a else b, n)
  }

  /** The moves in argsort order of their ChildScore: the same moves as
      getMoveOptions gives, best one-ply child first. */
  function SortedMoves(s: State, tabs: Tables, victoryPoints: int): (sorted: seq<Move>)
    requires Playable(s, tabs)
    ensures AllLegal(s, sorted) && forall m :: m in sorted <==> m in Moves(s)
  {
    MovesLegal(s);
    var moves := Moves(s);
    var scores := ChildScores(s, tabs, victoryPoints, moves);
    ArgSortSorts(scores);
    ReorderLegal(s, moves, ArgSort(scores));
    ReorderSameMoves(moves, ArgSort(scores));
    Reorder(moves, ArgSort(scores))
  }

  /** The depth-1 answer of lookAheadWithPresort: the score of the child
      argsort puts first, from MAX's side again. */
  function PresortFirst(s: State, tabs: Tables, victoryPoints: int): real
    requires Playable(s, tabs) && Moves(s) != []
  {
    MovesLegal(s);
    var scores := ChildScores(s, tabs, victoryPoints, Moves(s));
    AgainstMover(s.toMove, scores[ArgSort(scores)[0]])
  }

  lemma ReorderLegal(s: State, moves: seq<Move>, order: seq<nat>)
    requires AllLegal(s, moves) && InRange(order, |moves|)
    ensures AllLegal(s, Reorder(moves, order))
  {
    var r := Reorder(moves, order);
    forall m | m in r
      ensures IsLegalMove(s, m)
    {
      var k :| 0 <= k < |r| && r[k] == m;
      assert moves[order[k]] in moves;
    }
  }

  /** The score and poll count of the search of the child by m, one ply
      shallower: with lookAheadWithPresort when `presortChild` and the child
      is searched at least two plies deep (the loops ask for it while
      presorting above depth 3, getMove at every lookAheadDepth from 3 on),
      with lookAhead otherwise. */
  function ChildSearch(s: State, tabs: Tables, victoryPoints: int, m: Move, d: nat, a: real, b: real,
                       clock: nat -> bool, polls: nat, presortChild: bool): (real, nat)
    requires Playable(s, tabs) && IsLegalMove(s, m) && d >= 1
    decreases d - 1, 2, 0
  {
    ChildPlayable(s, tabs, victoryPoints, m);
    var child := Successor(s, m, victoryPoints);
    if presortChild && d > 2 then PresortSearch(child, tabs, victoryPoints, d - 1, a, b, clock, polls)
    else Search(child, tabs, victoryPoints, d - 1, a, b, clock, polls)
  }

  /** The loop over the children by `moves` from bounds a and b on: the
      final a, b and poll count. lookAhead loops over getMoveOptions;
      lookAheadWithPresort (`presort`) loops over them in argsort order. */
  function Scan(s: State, tabs: Tables, victoryPoints: int, moves: seq<Move>, d: nat,
                alpha: real, beta: real, a: real, b: real, clock: nat -> bool, polls: nat, presort: bool): (real, real, nat)
    requires Playable(s, tabs) && AllLegal(s, moves) && d >= 1
    decreases d, 0, |moves|
  {
    if moves == [] then (a, b, polls)
    else
      var (score, n) := ChildSearch(s, tabs, victoryPoints, moves[0], d, a, b, clock, polls, presort && d > 3);
      if s.toMove == 1 && score > a then
        if score >= beta then (score, b, n)
        else Scan(s, tabs, victoryPoints, moves[1..], d, alpha, beta, score, b, clock, n, presort)
      else if s.toMove == -1 && score < b then
        if score <= alpha then (a, score, n)
        else Scan(s, tabs, victoryPoints, moves[1..], d, alpha, beta, a, score, clock, n, presort)
      else Scan(s, tabs, victoryPoints, moves[1..], d, alpha, beta, a, b, clock, n, presort)
  }

  /** lookAhead: the leaf, the timeout and the loop over the moves. */
  method LookAhead(s: State, tabs: Tables, victoryPoints: int, depthRemaining: nat, alpha: real, beta: real,
                   clock: nat -> bool, polls: nat) returns (score: real, polls': nat)
    requires Playable(s, tabs)
    ensures (score, polls') == Search(s, tabs, victoryPoints, depthRemaining, alpha, beta, clock, polls)
    ensures depthRemaining == 0 || s.gameOver ==> score == Score(s, tabs, victoryPoints) && polls' == polls
    ensures depthRemaining > 0 && !s.gameOver && clock(polls) ==> score == 0.0
    decreases depthRemaining, 1
  {
    if depthRemaining == 0 || s.gameOver {
      score := GetScore(s, tabs, victoryPoints);
      return score, polls;
    }
    if clock(polls) {
      return 0.0, polls + 1;
    }
    var moves := GetMoveOptions(s, Directions);
    MovesLegal(s);
    var a, b;
    a, b, polls' := ScanMoves(s, tabs, victoryPoints, moves, depthRemaining, alpha, beta, clock, polls + 1, false);
    score := if s.toMove == 1 then a else b;
  }

  /** lookAheadWithPresort: as lookAhead, but the children are scored
      first, a depth-1 search answers with the best of those scores, and
      deeper searches visit the children best-first. */
  method LookAheadWithPresort(s: State, tabs: Tables, victoryPoints: int, depthRemaining: nat, alpha: real, beta: real,
                              clock: nat -> bool, polls: nat) returns (score: real, polls': nat)
    requires Playable(s, tabs) && PresortDefined(s, depthRemaining, clock, polls)
    ensures (score, polls') == PresortSearch(s, tabs, victoryPoints, depthRemaining, alpha, beta, clock, polls)
    ensures depthRemaining == 0 || s.gameOver ==> score == Score(s, tabs, victoryPoints) && polls' == polls
    ensures depthRemaining > 0 && !s.gameOver && clock(polls) ==> score == 0.0
    decreases depthRemaining, 1
  {
    if depthRemaining == 0 || s.gameOver {
      score := GetScore(s, tabs, victoryPoints);
      return score, polls;
    }
    if clock(polls) {
      return 0.0, polls + 1;
    }
    var moves := GetMoveOptions(s, Directions);
    MovesLegal(s);
    var scoreList := ChildScoreList(s, tabs, victoryPoints, moves);
    var moveOrder := ArgSort(scoreList);
    if depthRemaining == 1 {
      return AgainstMover(s.toMove, scoreList[moveOrder[0]]), polls + 1;
    }
    ghost var sorted := SortedMoves(s, tabs, victoryPoints);
    assert Reorder(moves, moveOrder) == sorted;
    var a, b;
    a, b, polls' := ScanMoves(s, tabs, victoryPoints, Reorder(moves, moveOrder), depthRemaining, alpha, beta,
                              clock, polls + 1, true);
    score := if s.toMove == 1 then a else b;
  }

  /** The first loop of lookAheadWithPresort: the negated score of every
      child, from the mover's side. */
  method ChildScoreList(s: State, tabs: Tables, victoryPoints: int, moves: seq<Move>) returns (scoreList: seq<real>)
    requires Playable(s, tabs) && AllLegal(s, moves)
    ensures scoreList == ChildScores(s, tabs, victoryPoints, moves)
  {
    scoreList := [];
    var i := 0;
    while i < |moves|
      invariant 0 <= i <= |moves| && |scoreList| == i
      invariant forall k :: 0 <= k < i ==> scoreList[k] == ChildScore(s, tabs, victoryPoints, moves[k])
    {
      ChildPlayable(s, tabs, victoryPoints, moves[i]);
      var projectedState := MakeMove(s, moves[i], victoryPoints);
      var childScore := GetScore(projectedState, tabs, victoryPoints);
      scoreList := scoreList + [AgainstMover(s.toMove, childScore)];
      i := i + 1;
    }
  }

  /** The loop over `moves` with a, b starting at alpha, beta: each child is
      searched in the window (a, b); MAX raises a and stops once a >= beta,
      MIN lowers b and stops once b <= alpha. */
  method ScanMoves(s: State, tabs: Tables, victoryPoints: int, moves: seq<Move>, depthRemaining: nat,
                   alpha: real, beta: real, clock: nat -> bool, polls: nat, presort: bool)
    returns (a: real, b: real, polls': nat)
    requires Playable(s, tabs) && AllLegal(s, moves) && depthRemaining >= 1
    ensures (a, b, polls') == Scan(s, tabs, victoryPoints, moves, depthRemaining, alpha, beta, alpha, beta, clock, polls, presort)
    decreases depthRemaining, 0
  {
    a, b, polls' := alpha, beta, polls;
    var i := 0;
    while i < |moves|
      invariant 0 <= i <= |moves|
      invariant Scan(s, tabs, victoryPoints, moves[i..], depthRemaining, alpha, beta, a, b, clock, polls', presort) ==
                Scan(s, tabs, victoryPoints, moves, depthRemaining, alpha, beta, alpha, beta, clock, polls, presort)
    {
      assert moves[i..][0] == moves[i] && moves[i..][1..] == moves[i + 1..];
      var childScore;
      childScore, polls' := SearchChild(s, tabs, victoryPoints, moves[i], depthRemaining, a, b, clock, polls', presort && depthRemaining > 3);
      if s.toMove == 1 && childScore > a {
        a := childScore;
        if a >= beta {
          break;
        }
      } else if s.toMove == -1 && childScore < b {
        b := childScore;
        if b <= alpha {
          break;
        }
      }
      i := i + 1;
    }
  }

  /** One pass of a loop body: make the move and search the child one ply
      shallower, with lookAheadWithPresort or with lookAhead. */
  method SearchChild(s: State, tabs: Tables, victoryPoints: int, m: Move, depthRemaining: nat, a: real, b: real,
                     clock: nat -> bool, polls: nat, presortChild: bool) returns (score: real, polls': nat)
    requires Playable(s, tabs) && IsLegalMove(s, m) && depthRemaining >= 1
    ensures (score, polls') == ChildSearch(s, tabs, victoryPoints, m, depthRemaining, a, b, clock, polls, presortChild)
    decreases depthRemaining - 1, 2
  {
    ChildPlayable(s, tabs, victoryPoints, m);
    var projectedState := MakeMove(s, m, victoryPoints);
    if presortChild && depthRemaining > 2 {
      score, polls' := LookAheadWithPresort(projectedState, tabs, victoryPoints, depthRemaining - 1, a, b, clock, polls);
    } else {
      score, polls' := LookAhead(projectedState, tabs, victoryPoints, depthRemaining - 1, a, b, clock, polls);
    }
  }

  // ---------------------------------------------------------------------
  // What lookAhead and lookAheadWithPresort promise.

  /** The loop only raises a and only lowers b. */
  lemma {:induction false} ScanKeepsBounds(s: State, tabs: Tables, victoryPoints: int, moves: seq<Move>, d: nat,
                                           alpha: real, beta: real, a: real, b: real, clock: nat -> bool, polls: nat,
                                           presort: bool)
    requires Playable(s, tabs) && AllLegal(s, moves) && d >= 1
    ensures var (a', b', _) := Scan(s, tabs, victoryPoints, moves, d, alpha, beta, a, b, clock, polls, presort);
      a' >= a && b' <= b
    decreases |moves|
  {
    if moves != [] {
      var (score, n) := ChildSearch(s, tabs, victoryPoints, moves[0], d, a, b, clock, polls, presort && d > 3);
      var a1 := if s.toMove == 1 && score > a then score else a;
      var b1 := if s.toMove == -1 && score < b && !(s.toMove == 1 && score > a) then score else b;
      ScanKeepsBounds(s, tabs, victoryPoints, moves[1..], d, alpha, beta, a1, b1, clock, n, presort);
    }
  }

  /** Whatever the clock says later, a MAX node that does not time out
      returns at least alpha and a MIN node at most beta: the loop starts
      from a, b = alpha, beta. */
  lemma SearchWindow(s: State, tabs: Tables, victoryPoints: int, d: nat, alpha: real, beta: real,
                     clock: nat -> bool, polls: nat)
    requires Playable(s, tabs) && d > 0 && !s.gameOver && !clock(polls)
    ensures s.toMove == 1 ==> Search(s, tabs, victoryPoints, d, alpha, beta, clock, polls).0 >= alpha
    ensures s.toMove == -1 ==> Search(s, tabs, victoryPoints, d, alpha, beta, clock, polls).0 <= beta
  {
    MovesLegal(s);
    ScanKeepsBounds(s, tabs, victoryPoints, Moves(s), d, alpha, beta, alpha, beta, clock, polls + 1, false);
  }

  /** The alpha-beta contract: a result r of a search with window
      (alpha, beta) for a node of true value v is exact when v lies inside
      the window, at most alpha when v is at most alpha, and at least beta
      when v is at least beta. */
  predicate Bracket(r: real, v: Ext, alpha: real, beta: real) {
    (ExtLe(v, Fin(alpha)) ==> r <= alpha) &&
    (ExtLe(Fin(beta), v) ==> r >= beta) &&
    (v.Fin? && alpha < v.v < beta ==> r == v.v)
  }

  /** The state of a MAX loop: a is alpha raised to the best child value
      seen so far (m) and still below beta; or the window is empty and a
      has not moved from alpha. */
  predicate MaxLoop(a: real, m: Ext, alpha: real, beta: real) {
    (a < beta && Fin(a) == ExtMax(Fin(alpha), m)) || (a == alpha && alpha == beta)
  }

  /** The state of a MIN loop, symmetric to MaxLoop. */
  predicate MinLoop(b: real, m: Ext, alpha: real, beta: real) {
    (b > alpha && Fin(b) == ExtMin(Fin(beta), m)) || (b == beta && alpha == beta)
  }

  /** One child of a MAX node: the loop state after it, or the cut-off. */
  lemma MaxStep(a: real, m: Ext, v: Ext, c: real, alpha: real, beta: real)
    requires alpha <= beta && MaxLoop(a, m, alpha, beta) && Bracket(c, v, a, beta)
    ensures c > a && c >= beta ==> ExtLe(Fin(beta), v) && !ExtLe(v, Fin(alpha))
    ensures c > a && c < beta ==> MaxLoop(c, ExtMax(m, v), alpha, beta)
    ensures c <= a ==> MaxLoop(a, ExtMax(m, v), alpha, beta)
  {
  }

  lemma MinStep(b: real, m: Ext, v: Ext, c: real, alpha: real, beta: real)
    requires alpha <= beta && MinLoop(b, m, alpha, beta) && Bracket(c, v, alpha, b)
    ensures c < b && c <= alpha ==> ExtLe(v, Fin(alpha)) && !ExtLe(Fin(beta), v)
    ensures c < b && c > alpha ==> MinLoop(c, ExtMin(m, v), alpha, beta)
    ensures c >= b ==> MinLoop(b, ExtMin(m, v), alpha, beta)
  {
  }

  lemma BracketAbove(c: real, v: Ext, w: Ext, alpha: real, beta: real)
    requires ExtLe(Fin(beta), v) && !ExtLe(v, Fin(alpha)) && ExtLe(v, w) && c >= beta
    ensures Bracket(c, w, alpha, beta)
  {
  }

  lemma BracketBelow(c: real, v: Ext, w: Ext, alpha: real, beta: real)
    requires ExtLe(v, Fin(alpha)) && !ExtLe(Fin(beta), v) && ExtLe(w, v) && c <= alpha
    ensures Bracket(c, w, alpha, beta)
  {
  }

  lemma LoopEnd(a: real, m: Ext, alpha: real, beta: real)
    requires alpha <= beta
    ensures MaxLoop(a, m, alpha, beta) ==> Bracket(a, m, alpha, beta)
    ensures MinLoop(a, m, alpha, beta) ==> Bracket(a, m, alpha, beta)
  {
  }

  /** The minimax value of the child by m, searched d - 1 plies deep. */
  function ChildValue(s: State, tabs: Tables, victoryPoints: int, m: Move, d: nat): Ext
    requires Playable(s, tabs) && IsLegalMove(s, m) && d >= 1
  {
    ChildPlayable(s, tabs, victoryPoints, m);
    Minimax(Successor(s, m, victoryPoints), tabs, victoryPoints, d - 1)
  }

  /** MaxOver is the largest of acc and the children's values. */
  lemma {:induction false} MaxOverBounds(s: State, tabs: Tables, victoryPoints: int, moves: seq<Move>, d: nat, acc: Ext)
    requires Playable(s, tabs) && AllLegal(s, moves) && d >= 1
    ensures var best := MaxOver(s, tabs, victoryPoints, moves, d, acc);
      ExtLe(acc, best) && (forall m :: m in moves ==> ExtLe(ChildValue(s, tabs, victoryPoints, m, d), best)) &&
      (best == acc || exists m :: m in moves && best == ChildValue(s, tabs, victoryPoints, m, d))
    decreases |moves|
  {
    if moves != [] {
      var v := ChildValue(s, tabs, victoryPoints, moves[0], d);
      MaxOverBounds(s, tabs, victoryPoints, moves[1..], d, ExtMax(acc, v));
      assert forall m :: m in moves ==> m == moves[0] || m in moves[1..];
    }
  }

  /** MinOver is the smallest of acc and the children's values. */
  lemma {:induction false} MinOverBounds(s: State, tabs: Tables, victoryPoints: int, moves: seq<Move>, d: nat, acc: Ext)
    requires Playable(s, tabs) && AllLegal(s, moves) && d >= 1
    ensures var best := MinOver(s, tabs, victoryPoints, moves, d, acc);
      ExtLe(best, acc) && (forall m :: m in moves ==> ExtLe(best, ChildValue(s, tabs, victoryPoints, m, d))) &&
      (best == acc || exists m :: m in moves && best == ChildValue(s, tabs, victoryPoints, m, d))
    decreases |moves|
  {
    if moves != [] {
      var v := ChildValue(s, tabs, victoryPoints, moves[0], d);
      MinOverBounds(s, tabs, victoryPoints, moves[1..], d, ExtMin(acc, v));
      assert forall m :: m in moves ==> m == moves[0] || m in moves[1..];
    }
  }

  /** The minimax value does not depend on the order of the children. */
  lemma SameMovesSameValue(s: State, tabs: Tables, victoryPoints: int, ms: seq<Move>, ns: seq<Move>, d: nat)
    requires Playable(s, tabs) && AllLegal(s, ms) && AllLegal(s, ns) && d >= 1
    requires forall m :: m in ms <==> m in ns
    ensures MaxOver(s, tabs, victoryPoints, ms, d, NegInf) == MaxOver(s, tabs, victoryPoints, ns, d, NegInf)
    ensures MinOver(s, tabs, victoryPoints, ms, d, PosInf) == MinOver(s, tabs, victoryPoints, ns, d, PosInf)
  {
    MaxOverBounds(s, tabs, victoryPoints, ms, d, NegInf);
    MaxOverBounds(s, tabs, victoryPoints, ns, d, NegInf);
    MinOverBounds(s, tabs, victoryPoints, ms, d, PosInf);
    MinOverBounds(s, tabs, victoryPoints, ns, d, PosInf);
  }

  /** Reordering by a permutation keeps exactly the same moves. */
  lemma ReorderSameMoves(moves: seq<Move>, order: seq<nat>)
    requires IsPermutation(order, |moves|) && InRange(order, |moves|)
    ensures forall m :: m in Reorder(moves, order) <==> m in moves
  {
    var r := Reorder(moves, order);
    forall m | m in moves
      ensures m in r
    {
      var i :| 0 <= i < |moves| && moves[i] == m;
      PermutationCovers(order, |moves|, i);
      var k :| 0 <= k < |order| && order[k] == i;
      assert r[k] == m;
    }
  }

  /** The child search of the loops meets the alpha-beta contract. */
  lemma {:induction false} ChildSound(s: State, tabs: Tables, victoryPoints: int, m: Move, d: nat, alpha: real, beta: real,
                                      clock: nat -> bool, polls: nat, presort: bool)
    requires Playable(s, tabs) && IsLegalMove(s, m) && d >= 1 && alpha <= beta && NeverFires(clock)
    ensures Bracket(ChildSearch(s, tabs, victoryPoints, m, d, alpha, beta, clock, polls, presort && d > 3).0,
                    ChildValue(s, tabs, victoryPoints, m, d), alpha, beta)
    decreases d - 1, 2, 0
  {
    ChildPlayable(s, tabs, victoryPoints, m);
    var child := Successor(s, m, victoryPoints);
    if presort && d > 3 {
      PresortSound(child, tabs, victoryPoints, d - 1, alpha, beta, clock, polls);
    } else {
      AlphaBetaSound(child, tabs, victoryPoints, d - 1, alpha, beta, clock, polls);
    }
  }

  /** The child search getMove runs at the root, lookAheadWithPresort one
      ply shallower than a lookAheadDepth of at least 3, meets the
      alpha-beta contract. */
  lemma PresortChildSound(s: State, tabs: Tables, victoryPoints: int, m: Move, d: nat, alpha: real, beta: real,
                          clock: nat -> bool, polls: nat)
    requires Playable(s, tabs) && IsLegalMove(s, m) && d > 2 && alpha <= beta && NeverFires(clock)
    ensures Bracket(ChildSearch(s, tabs, victoryPoints, m, d, alpha, beta, clock, polls, true).0,
                    ChildValue(s, tabs, victoryPoints, m, d), alpha, beta)
  {
    ChildPlayable(s, tabs, victoryPoints, m);
    PresortSound(Successor(s, m, victoryPoints), tabs, victoryPoints, d - 1, alpha, beta, clock, polls);
  }

  /** With a clock that never fires, lookAhead meets the alpha-beta
      contract against full-width minimax, for every window. */
  lemma {:induction false} AlphaBetaSound(s: State, tabs: Tables, victoryPoints: int, d: nat, alpha: real, beta: real,
                                          clock: nat -> bool, polls: nat)
    requires Playable(s, tabs) && alpha <= beta && NeverFires(clock)
    ensures Bracket(Search(s, tabs, victoryPoints, d, alpha, beta, clock, polls).0, Minimax(s, tabs, victoryPoints, d), alpha, beta)
    decreases d, 1, 0
  {
    if d > 0 && !s.gameOver {
      MovesLegal(s);
      if s.toMove == 1 {
        ScanMax(s, tabs, victoryPoints, Moves(s), d, alpha, beta, alpha, NegInf, clock, polls + 1, false);
      } else {
        ScanMin(s, tabs, victoryPoints, Moves(s), d, alpha, beta, beta, PosInf, clock, polls + 1, false);
      }
    }
  }

  /** Inside its window, lookAhead returns the exact minimax value. */
  lemma AlphaBetaExact(s: State, tabs: Tables, victoryPoints: int, d: nat, alpha: real, beta: real,
                       clock: nat -> bool, polls: nat)
    requires Playable(s, tabs) && NeverFires(clock)
    requires Minimax(s, tabs, victoryPoints, d).Fin? && alpha < Minimax(s, tabs, victoryPoints, d).v < beta
    ensures Fin(Search(s, tabs, victoryPoints, d, alpha, beta, clock, polls).0) == Minimax(s, tabs, victoryPoints, d)
  {
    AlphaBetaSound(s, tabs, victoryPoints, d, alpha, beta, clock, polls);
  }

  /** The score of the child by m, as getScore gives it. */
  function OnePly(s: State, tabs: Tables, victoryPoints: int, m: Move): real
    requires Playable(s, tabs) && IsLegalMove(s, m)
  {
    ChildPlayable(s, tabs, victoryPoints, m);
    Score(Successor(s, m, victoryPoints), tabs, victoryPoints)
  }

  /** r is the best one-ply score for the mover: no child scores more
      for MAX or less for MIN, and some child scores r. */
  predicate BestOnePly(s: State, tabs: Tables, victoryPoints: int, r: real)
    requires Playable(s, tabs)
  {
    MovesLegal(s);
    (s.toMove == 1 ==> forall m :: m in Moves(s) ==> OnePly(s, tabs, victoryPoints, m) <= r) &&
    (s.toMove == -1 ==> forall m :: m in Moves(s) ==> OnePly(s, tabs, victoryPoints, m) >= r) &&
    (exists m :: m in Moves(s) && OnePly(s, tabs, victoryPoints, m) == r)
  }

  /** The move with the least negated score is the mover's best child. */
  lemma LeastChildScoreIsBest(s: State, tabs: Tables, victoryPoints: int, moves: seq<Move>, k0: nat)
    requires Playable(s, tabs) && AllLegal(s, moves) && k0 < |moves|
    requires forall k :: 0 <= k < |moves| ==>
      ChildScores(s, tabs, victoryPoints, moves)[k0] <= ChildScores(s, tabs, victoryPoints, moves)[k]
    ensures AgainstMover(s.toMove, ChildScores(s, tabs, victoryPoints, moves)[k0]) == OnePly(s, tabs, victoryPoints, moves[k0])
    ensures s.toMove == 1 ==> forall m :: m in moves ==> OnePly(s, tabs, victoryPoints, m) <= OnePly(s, tabs, victoryPoints, moves[k0])
    ensures s.toMove == -1 ==> forall m :: m in moves ==> OnePly(s, tabs, victoryPoints, m) >= OnePly(s, tabs, victoryPoints, moves[k0])
  {
    var scores := ChildScores(s, tabs, victoryPoints, moves);
    forall m | m in moves
      ensures s.toMove == 1 ==> OnePly(s, tabs, victoryPoints, m) <= OnePly(s, tabs, victoryPoints, moves[k0])
      ensures s.toMove == -1 ==> OnePly(s, tabs, victoryPoints, m) >= OnePly(s, tabs, victoryPoints, moves[k0])
    {
      var k :| 0 <= k < |moves| && moves[k] == m;
      assert scores[k0] <= scores[k];
    }
  }

  /** A best one-ply score is the depth-1 minimax value. */
  lemma BestOnePlyIsMinimax(s: State, tabs: Tables, victoryPoints: int, r: real)
    requires Playable(s, tabs) && !s.gameOver && BestOnePly(s, tabs, victoryPoints, r)
    ensures Minimax(s, tabs, victoryPoints, 1) == Fin(r)
  {
    MovesLegal(s);
    var moves := Moves(s);
    forall m | m in moves
      ensures ChildValue(s, tabs, victoryPoints, m, 1) == Fin(OnePly(s, tabs, victoryPoints, m))
    {
    }
    if s.toMove == 1 {
      MaxOverBounds(s, tabs, victoryPoints, moves, 1, NegInf);
    } else {
      MinOverBounds(s, tabs, victoryPoints, moves, 1, PosInf);
    }
  }

  /** At depth 1, lookAheadWithPresort answers with PresortFirst. */
  lemma PresortDepthOne(s: State, tabs: Tables, victoryPoints: int, alpha: real, beta: real,
                        clock: nat -> bool, polls: nat)
    requires Playable(s, tabs) && !s.gameOver && !clock(polls) && Moves(s) != []
    ensures PresortSearch(s, tabs, victoryPoints, 1, alpha, beta, clock, polls).0 == PresortFirst(s, tabs, victoryPoints)
  {
  }

  /** PresortFirst is the best one-ply score, which is the depth-1 minimax
      value. */
  lemma PresortFirstIsBest(s: State, tabs: Tables, victoryPoints: int)
    requires Playable(s, tabs) && !s.gameOver && Moves(s) != []
    ensures BestOnePly(s, tabs, victoryPoints, PresortFirst(s, tabs, victoryPoints))
    ensures Minimax(s, tabs, victoryPoints, 1) == Fin(PresortFirst(s, tabs, victoryPoints))
  {
    MovesLegal(s);
    var moves := Moves(s);
    var scores := ChildScores(s, tabs, victoryPoints, moves);
    var k0 := ArgSort(scores)[0];
    var r := PresortFirst(s, tabs, victoryPoints);
    assert r == AgainstMover(s.toMove, scores[k0]);
    ArgSortFirstIsLeast(scores);
    LeastChildScoreIsBest(s, tabs, victoryPoints, moves, k0);
    assert moves[k0] in moves;
    BestOnePlyIsMinimax(s, tabs, victoryPoints, r);
  }

  /** With a clock that never fires, lookAheadWithPresort meets the same
      alpha-beta contract as lookAhead: the order of the children does not
      change the minimax value. */
  lemma {:induction false} PresortSound(s: State, tabs: Tables, victoryPoints: int, d: nat, alpha: real, beta: real,
                                        clock: nat -> bool, polls: nat)
    requires Playable(s, tabs) && PresortDefined(s, d, clock, polls) && alpha <= beta && NeverFires(clock)
    ensures Bracket(PresortSearch(s, tabs, victoryPoints, d, alpha, beta, clock, polls).0,
                    Minimax(s, tabs, victoryPoints, d), alpha, beta)
    decreases d, 1, 0
  {
    if d == 1 && !s.gameOver {
      PresortDepthOne(s, tabs, victoryPoints, alpha, beta, clock, polls);
      PresortFirstIsBest(s, tabs, victoryPoints);
    } else if d > 1 && !s.gameOver {
      MovesLegal(s);
      var sorted := SortedMoves(s, tabs, victoryPoints);
      SameMovesSameValue(s, tabs, victoryPoints, sorted, Moves(s), d);
      if s.toMove == 1 {
        ScanMax(s, tabs, victoryPoints, sorted, d, alpha, beta, alpha, NegInf, clock, polls + 1, true);
      } else {
        ScanMin(s, tabs, victoryPoints, sorted, d, alpha, beta, beta, PosInf, clock, polls + 1, true);
      }
    }
  }

  lemma {:induction false} ScanMax(s: State, tabs: Tables, victoryPoints: int, moves: seq<Move>, d: nat,
                                   alpha: real, beta: real, a: real, m: Ext, clock: nat -> bool, polls: nat, presort: bool)
    requires Playable(s, tabs) && AllLegal(s, moves) && d >= 1 && s.toMove == 1
    requires alpha <= beta && NeverFires(clock) && MaxLoop(a, m, alpha, beta)
    ensures Bracket(Scan(s, tabs, victoryPoints, moves, d, alpha, beta, a, beta, clock, polls, presort).0,
                    MaxOver(s, tabs, victoryPoints, moves, d, m), alpha, beta)
    decreases d, 0, |moves|
  {
    if moves == [] {
      LoopEnd(a, m, alpha, beta);
    } else {
      var v := ChildValue(s, tabs, victoryPoints, moves[0], d);
      var (c, n) := ChildSearch(s, tabs, victoryPoints, moves[0], d, a, beta, clock, polls, presort && d > 3);
      ChildSound(s, tabs, victoryPoints, moves[0], d, a, beta, clock, polls, presort);
      MaxStep(a, m, v, c, alpha, beta);
      if c > a && c >= beta {
        MaxOverBounds(s, tabs, victoryPoints, moves[1..], d, ExtMax(m, v));
        BracketAbove(c, v, MaxOver(s, tabs, victoryPoints, moves, d, m), alpha, beta);
      } else if c > a {
        ScanMax(s, tabs, victoryPoints, moves[1..], d, alpha, beta, c, ExtMax(m, v), clock, n, presort);
      } else {
        ScanMax(s, tabs, victoryPoints, moves[1..], d, alpha, beta, a, ExtMax(m, v), clock, n, presort);
      }
    }
  }

  lemma {:induction false} ScanMin(s: State, tabs: Tables, victoryPoints: int, moves: seq<Move>, d: nat,
                                   alpha: real, beta: real, b: real, m: Ext, clock: nat -> bool, polls: nat, presort: bool)
    requires Playable(s, tabs) && AllLegal(s, moves) && d >= 1 && s.toMove == -1
    requires alpha <= beta && NeverFires(clock) && MinLoop(b, m, alpha, beta)
    ensures Bracket(Scan(s, tabs, victoryPoints, moves, d, alpha, beta, alpha, b, clock, polls, presort).1,
                    MinOver(s, tabs, victoryPoints, moves, d, m), alpha, beta)
    decreases d, 0, |moves|
  {
    if moves == [] {
      LoopEnd(b, m, alpha, beta);
    } else {
      var v := ChildValue(s, tabs, victoryPoints, moves[0], d);
      var (c, n) := ChildSearch(s, tabs, victoryPoints, moves[0], d, alpha, b, clock, polls, presort && d > 3);
      ChildSound(s, tabs, victoryPoints, moves[0], d, alpha, b, clock, polls, presort);
      MinStep(b, m, v, c, alpha, beta);
      if c < b && c <= alpha {
        MinOverBounds(s, tabs, victoryPoints, moves[1..], d, ExtMin(m, v));
        BracketBelow(c, v, MinOver(s, tabs, victoryPoints, moves, d, m), alpha, beta);
      } else if c < b {
        ScanMin(s, tabs, victoryPoints, moves[1..], d, alpha, beta, c, ExtMin(m, v), clock, n, presort);
      } else {
        ScanMin(s, tabs, victoryPoints, moves[1..], d, alpha, beta, b, ExtMin(m, v), clock, n, presort);
      }
    }
  }
}
