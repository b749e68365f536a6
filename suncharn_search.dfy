/** suncharn_pipithkul.py, getMoveOptions and lookAhead: move generation
    with an offset table that depends on the side the agent plays, and
    depth-limited minimax with alpha-beta pruning over integer scores. A
    node without moves scores the sentinel -9e9 * playerToMove. timeOut()
    is the clock oracle of Game: every search threads the number of polls
    made so far. */
module SuncharnSearch {
  import opened Game
  import opened SuncharnEval

  // ---------------------------------------------------------------------
  // getMoveOptions.

  /** The offset table of MAX's agent: rightward jumps first. */
  const RightFirst: seq<Offset> := [(1, 2), (2, 1), (-1, 2), (-2, 1), (-1, -2), (-2, -1), (1, -2), (2, -1)]
  /** The offset table of MIN's agent: leftward jumps first. */
  const LeftFirst: seq<Offset> := [(-1, -2), (-2, -1), (1, -2), (2, -1), (1, 2), (2, 1), (-1, 2), (-2, 1)]

  /** The table getMoveOptions scans with, for the side the agent plays. */
  function MoveDirections(assignedPlayer: int): seq<Offset> {
    if assignedPlayer == -1 then LeftFirst else RightFirst
  }

  /** Both tables list each knight offset once; MIN's table is MAX's with
      every jump turned around. */
  lemma MoveDirectionsIsOffsetTable(assignedPlayer: int)
    ensures IsOffsetTable(MoveDirections(assignedPlayer))
    ensures forall i :: 0 <= i < 8 ==> LeftFirst[i] == (-RightFirst[i].0, -RightFirst[i].1)
  {
    var dirs := MoveDirections(assignedPlayer);
    forall d: Offset | IsKnightOffset(d) ensures d in dirs {
      if d.0 == 1 && d.1 == 2 { assert d == RightFirst[0] == LeftFirst[4]; }
      else if d.0 == 2 && d.1 == 1 { assert d == RightFirst[1] == LeftFirst[5]; }
      else if d.0 == -1 && d.1 == 2 { assert d == RightFirst[2] == LeftFirst[6]; }
      else if d.0 == -2 && d.1 == 1 { assert d == RightFirst[3] == LeftFirst[7]; }
      else if d.0 == -1 && d.1 == -2 { assert d == RightFirst[4] == LeftFirst[0]; }
      else if d.0 == -2 && d.1 == -1 { assert d == RightFirst[5] == LeftFirst[1]; }
      else if d.0 == 1 && d.1 == -2 { assert d == RightFirst[6] == LeftFirst[2]; }
      else { assert d == RightFirst[7] == LeftFirst[3]; }
    }
  }

  /** The moves getMoveOptions produces for the agent of assignedPlayer;
      each is legal. */
  function Moves(s: State, assignedPlayer: int): (moves: seq<Move>)
    requires IsRect(s.board)
    ensures AllLegal(s, moves)
  {
    MoveDirectionsIsOffsetTable(assignedPlayer);
    LegalMovesAreLegal(s, MoveDirections(assignedPlayer));
    LegalMoves(s, MoveDirections(assignedPlayer))
  }

  predicate AllLegal(s: State, moves: seq<Move>) {
    forall m :: m in moves ==> IsLegalMove(s, m)
  }

  /** getMoveOptions: pick the offset table, then scan the board. */
  method MoveOptions(s: State, assignedPlayer: int) returns (moves: seq<Move>)
    requires IsRect(s.board)
    ensures moves == Moves(s, assignedPlayer)
  {
    var direction := RightFirst;
    if assignedPlayer == -1 {
      direction := LeftFirst;
    }
    moves := GetMoveOptions(s, direction);
  }

  /** Whichever side the agent plays, getMoveOptions lists exactly the
      legal moves, square by square in scan order. */
  lemma MovesExact(s: State, assignedPlayer: int)
    requires IsRect(s.board)
    ensures forall m :: m in Moves(s, assignedPlayer) <==> IsLegalMove(s, m)
    ensures ScanOrdered(Moves(s, assignedPlayer))
  {
    var direction := MoveDirections(assignedPlayer);
    MoveDirectionsIsOffsetTable(assignedPlayer);
    forall m ensures m in Moves(s, assignedPlayer) <==> IsLegalMove(s, m) {
      LegalMovesExact(s, direction, m);
    }
    BoardMovesOrdered(s, |s.board|, direction);
  }

  // ---------------------------------------------------------------------
  // The reference: full-width minimax.

  /** A state getScore can evaluate: well formed and covered by the
      piece-square tables. */
  predicate Playable(s: State) {
    WellFormed(s) && FitsTables(s.board)
  }

  lemma ChildPlayable(s: State, m: Move, victoryPoints: int)
    requires Playable(s) && IsLegalMove(s, m)
    ensures Playable(Successor(s, m, victoryPoints))
  {
    SuccessorWellFormed(s, m, victoryPoints);
  }

  /** 9e9: the bound of getMove's root window and of the sentinel. */
  const Infinity: int := 9000000000

  /** What a node scores before any child: -9e9 for MAX and 9e9 for MIN,
      the worst score for the side to move. */
  function Sentinel(toMove: int): int {
    if toMove == -1 then Infinity else -Infinity
  }

  /** For either side, the sentinel is -9e9 * playerToMove. */
  lemma SentinelIsScaled(toMove: int)
    requires toMove == 1 || toMove == -1
    ensures Sentinel(toMove) == -Infinity * toMove
    ensures Sentinel(-toMove) == -Sentinel(toMove)
  {
  }

  function Max(a: int, b: int): int {
    if a >= b then a else b
  }

  function Min(a: int, b: int): int {
    if a <= b then a else b
  }

  /** The minimax value of s searched d plies deep, a node without moves
      scoring the sentinel. */
  function Value(s: State, assignedPlayer: int, victoryPoints: int, d: nat): int
    requires Playable(s)
    decreases d, 1, 0
  {
    if d == 0 || s.gameOver then Score(s.board, assignedPlayer)
    else if s.toMove == 1 then MaxOver(s, assignedPlayer, victoryPoints, Moves(s, assignedPlayer), d, Sentinel(1))
    else MinOver(s, assignedPlayer, victoryPoints, Moves(s, assignedPlayer), d, Sentinel(-1))
  }

  /** The value of the child by m, one ply shallower. */
  function ChildValue(s: State, assignedPlayer: int, victoryPoints: int, m: Move, d: nat): int
    requires Playable(s) && IsLegalMove(s, m) && d >= 1
    decreases d - 1, 2, 0
  {
    ChildPlayable(s, m, victoryPoints);
    Value(Successor(s, m, victoryPoints), assignedPlayer, victoryPoints, d - 1)
  }

  /** acc combined by max with the values of the children by `moves`. */
  function MaxOver(s: State, assignedPlayer: int, victoryPoints: int, moves: seq<Move>, d: nat, acc: int): int
    requires Playable(s) && AllLegal(s, moves) && d >= 1
    decreases d, 0, |moves|
  {
    if moves == [] then acc
    else MaxOver(s, assignedPlayer, victoryPoints, moves[1..], d,
                 Max(acc, ChildValue(s, assignedPlayer, victoryPoints, moves[0], d)))
  }

  /** acc combined by min with the values of the children by `moves`. */
  function MinOver(s: State, assignedPlayer: int, victoryPoints: int, moves: seq<Move>, d: nat, acc: int): int
    requires Playable(s) && AllLegal(s, moves) && d >= 1
    decreases d, 0, |moves|
  {
    if moves == [] then acc
    else MinOver(s, assignedPlayer, victoryPoints, moves[1..], d,
                 Min(acc, ChildValue(s, assignedPlayer, victoryPoints, moves[0], d)))
  }

  /** MaxOver is at least its start and every value it takes in; MinOver at
      most. */
  lemma {:induction false} OverBounds(s: State, assignedPlayer: int, victoryPoints: int, moves: seq<Move>, d: nat, acc: int)
    requires Playable(s) && AllLegal(s, moves) && d >= 1
    ensures MaxOver(s, assignedPlayer, victoryPoints, moves, d, acc) >= acc
    ensures MinOver(s, assignedPlayer, victoryPoints, moves, d, acc) <= acc
    ensures forall m :: m in moves ==>
      MaxOver(s, assignedPlayer, victoryPoints, moves, d, acc) >= ChildValue(s, assignedPlayer, victoryPoints, m, d) &&
      MinOver(s, assignedPlayer, victoryPoints, moves, d, acc) <= ChildValue(s, assignedPlayer, victoryPoints, m, d)
    decreases |moves|
  {
    if moves != [] {
      var v := ChildValue(s, assignedPlayer, victoryPoints, moves[0], d);
      assert forall m :: m in moves[1..] ==> m in moves;
      OverBounds(s, assignedPlayer, victoryPoints, moves[1..], d, Max(acc, v));
      OverBounds(s, assignedPlayer, victoryPoints, moves[1..], d, Min(acc, v));
      assert forall m :: m in moves ==> m == moves[0] || m in moves[1..];
    }
  }

  // ---------------------------------------------------------------------
  // lookAhead as a function of the clock.

  /** lookAhead(s, d, alpha, beta) with `polls` calls of timeOut() made
      before it: the score and the number of calls after it. */
  function Search(s: State, assignedPlayer: int, victoryPoints: int, d: nat, alpha: int, beta: int,
                  clock: nat -> bool, polls: nat): (int, nat)
    requires Playable(s)
    decreases d, 1, 0
  {
    if d == 0 || s.gameOver then (Score(s.board, assignedPlayer), polls)
    else if clock(polls) then (0, polls + 1)
    else
      Scan(s, assignedPlayer, victoryPoints, Moves(s, assignedPlayer), d, alpha, beta, Sentinel(s.toMove), clock, polls + 1)
  }

  /** The loop of lookAhead over the children by `moves`, with the current
      alpha, beta and bestScore: the final bestScore and poll count. Each
      child is searched in the current window; a better score becomes
      bestScore; MAX raises alpha to it, MIN lowers beta to it; the loop
      stops once beta <= alpha. */
  function Scan(s: State, assignedPlayer: int, victoryPoints: int, moves: seq<Move>, d: nat,
                alpha: int, beta: int, best: int, clock: nat -> bool, polls: nat): (int, nat)
    requires Playable(s) && AllLegal(s, moves) && d >= 1
    decreases d, 0, |moves|
  {
    if moves == [] then (best, polls)
    else
      ChildPlayable(s, moves[0], victoryPoints);
      var (score, n) := Search(Successor(s, moves[0], victoryPoints), assignedPlayer, victoryPoints, d - 1,
                               alpha, beta, clock, polls);
      var best' := if (s.toMove == 1 && score > best) || (s.toMove == -1 && score < best) then score else best;
      var alpha' := if s.toMove == 1 then Max(alpha, best') else alpha;
      var beta' := if s.toMove == 1 then beta else Min(beta, best');
      if beta' <= alpha' then (best', n)
      else Scan(s, assignedPlayer, victoryPoints, moves[1..], d, alpha', beta', best', clock, n)
  }

  /** lookAhead: the leaf, the timeout, and the loop over getMoveOptions. */
  method LookAhead(s: State, assignedPlayer: int, victoryPoints: int, depthRemaining: nat, alpha: int, beta: int,
                   clock: nat -> bool, polls: nat) returns (score: int, polls': nat)
    requires Playable(s)
    ensures (score, polls') == Search(s, assignedPlayer, victoryPoints, depthRemaining, alpha, beta, clock, polls)
    ensures depthRemaining == 0 || s.gameOver ==> score == Score(s.board, assignedPlayer) && polls' == polls
    ensures depthRemaining > 0 && !s.gameOver && clock(polls) ==> score == 0
    ensures depthRemaining > 0 && !s.gameOver && !clock(polls) && Moves(s, assignedPlayer) == [] ==>
      score == Sentinel(s.toMove)
    decreases depthRemaining, 1, 0
  {
    if depthRemaining == 0 || s.gameOver {
      score := GetScore(s.board, assignedPlayer);
      return score, polls;
    }
    if clock(polls) {
      return 0, polls + 1;
    }
    var bestScore := Sentinel(s.toMove);
    var moves := MoveOptions(s, assignedPlayer);
    ghost var result := Scan(s, assignedPlayer, victoryPoints, moves, depthRemaining, alpha, beta, bestScore, clock, polls + 1);
    var a, b := alpha, beta;
    polls' := polls + 1;
    var i := 0;
    while i < |moves|
      invariant 0 <= i <= |moves| && AllLegal(s, moves[i..])
      invariant Scan(s, assignedPlayer, victoryPoints, moves[i..], depthRemaining, a, b, bestScore, clock, polls') == result
    {
      assert moves[i..][0] == moves[i] && moves[i..][1..] == moves[i + 1..];
      var cutoff;
      bestScore, a, b, polls', cutoff :=
        ScanOnce(s, assignedPlayer, victoryPoints, moves[i..], depthRemaining, a, b, bestScore, clock, polls');
      if cutoff {
        break;
      }
      i := i + 1;
    }
    score := bestScore;
  }

  /** One pass of lookAhead's loop on the first of `moves`: search the
      child, take a better score as bestScore, move alpha (MAX) or beta
      (MIN) to it, and report whether the window has closed. */
  method ScanOnce(s: State, assignedPlayer: int, victoryPoints: int, moves: seq<Move>, depthRemaining: nat,
                  alpha: int, beta: int, bestScore: int, clock: nat -> bool, polls: nat)
    returns (bestScore': int, alpha': int, beta': int, polls': nat, cutoff: bool)
    requires Playable(s) && AllLegal(s, moves) && moves != [] && depthRemaining >= 1
    ensures var scan := Scan(s, assignedPlayer, victoryPoints, moves, depthRemaining, alpha, beta, bestScore, clock, polls);
      if cutoff then scan == (bestScore', polls')
      else scan == Scan(s, assignedPlayer, victoryPoints, moves[1..], depthRemaining, alpha', beta', bestScore', clock, polls')
    decreases depthRemaining, 0, 1
  {
    var move := moves[0];
    assert move in moves;
    var childScore, n := SearchChild(s, assignedPlayer, victoryPoints, move, depthRemaining, alpha, beta, clock, polls);
    ScanStep(s, assignedPlayer, victoryPoints, moves, depthRemaining, alpha, beta, bestScore, clock, polls, childScore, n);
    polls' := n;
    bestScore', alpha', beta' := bestScore, alpha, beta;
    if (s.toMove == 1 && childScore > bestScore) || (s.toMove == -1 && childScore < bestScore) {
      bestScore' := childScore;
    }
    if s.toMove == 1 {
      alpha' := Max(alpha, bestScore');
    } else {
      beta' := Min(beta, bestScore');
    }
    cutoff := beta' <= alpha';
  }

  /** The search of a child in lookAhead's loop: make the move and look
      one ply less deep. */
  method SearchChild(s: State, assignedPlayer: int, victoryPoints: int, m: Move, depthRemaining: nat, alpha: int, beta: int,
                     clock: nat -> bool, polls: nat) returns (score: int, polls': nat)
    requires Playable(s) && IsLegalMove(s, m) && depthRemaining >= 1
    ensures Playable(Successor(s, m, victoryPoints))
    ensures (score, polls') ==
      Search(Successor(s, m, victoryPoints), assignedPlayer, victoryPoints, depthRemaining - 1, alpha, beta, clock, polls)
    decreases depthRemaining, 0, 0
  {
    ChildPlayable(s, m, victoryPoints);
    var projectedState := MakeMove(s, m, victoryPoints);
    score, polls' := LookAhead(projectedState, assignedPlayer, victoryPoints, depthRemaining - 1, alpha, beta, clock, polls);
  }

  /** One pass of lookAhead's loop, for the first child's score and poll
      count. */
  lemma ScanStep(s: State, assignedPlayer: int, victoryPoints: int, moves: seq<Move>, d: nat,
                 alpha: int, beta: int, best: int, clock: nat -> bool, polls: nat, score: int, n: nat)
    requires Playable(s) && AllLegal(s, moves) && moves != [] && d >= 1 && IsLegalMove(s, moves[0])
    requires Playable(Successor(s, moves[0], victoryPoints))
    requires (score, n) == Search(Successor(s, moves[0], victoryPoints), assignedPlayer, victoryPoints, d - 1,
                                  alpha, beta, clock, polls)
    ensures var best' := if (s.toMove == 1 && score > best) || (s.toMove == -1 && score < best) then score else best;
      var alpha' := if s.toMove == 1 then Max(alpha, best') else alpha;
      var beta' := if s.toMove == 1 then beta else Min(beta, best');
      Scan(s, assignedPlayer, victoryPoints, moves, d, alpha, beta, best, clock, polls) ==
      if beta' <= alpha' then (best', n)
      else Scan(s, assignedPlayer, victoryPoints, moves[1..], d, alpha', beta', best', clock, n)
  {
  }

  // ---------------------------------------------------------------------
  // What lookAhead promises.

  /** The alpha-beta contract: a result r of a search with window
      (alpha, beta) for a node of value v is exact when v lies inside the
      window, at most alpha when v is at most alpha, and at least beta when
      v is at least beta. */
  predicate Bracket(r: int, v: int, alpha: int, beta: int) {
    (v <= alpha ==> r <= alpha) && (v >= beta ==> r >= beta) && (alpha < v < beta ==> r == v)
  }

  /** The state of a MAX loop that has not cut off, with m the best of the
      sentinel and the values of the children seen: bestScore is m, or both
      are at most the original alpha; the current alpha a is alpha raised to
      bestScore (before the first child, alpha itself) and below beta. */
  predicate MaxLoop(alpha: int, beta: int, a: int, best: int, m: int) {
    a < beta && (a == Max(alpha, best) || (a == alpha && best == m)) &&
    (best == m || (best <= alpha && m <= alpha))
  }

  /** The state of a MIN loop, symmetric to MaxLoop. */
  predicate MinLoop(alpha: int, beta: int, b: int, best: int, m: int) {
    b > alpha && (b == Min(beta, best) || (b == beta && best == m)) &&
    (best == m || (best >= beta && m >= beta))
  }

  /** One child of a MAX node, of value v, whose search answered c: a cut
      off happens only above beta, and otherwise the loop state carries on. */
  lemma MaxStep(alpha: int, beta: int, a: int, best: int, m: int, v: int, c: int)
    requires alpha < beta && MaxLoop(alpha, beta, a, best, m) && Bracket(c, v, a, beta)
    ensures var best' := if c > best then c else best;
      (Max(a, best') >= beta ==> best' >= beta && Max(m, v) >= beta) &&
      (Max(a, best') < beta ==> MaxLoop(alpha, beta, Max(a, best'), best', Max(m, v)))
  {
  }

  lemma MinStep(alpha: int, beta: int, b: int, best: int, m: int, v: int, c: int)
    requires alpha < beta && MinLoop(alpha, beta, b, best, m) && Bracket(c, v, alpha, b)
    ensures var best' := if c < best then c else best;
      (Min(b, best') <= alpha ==> best' <= alpha && Min(m, v) <= alpha) &&
      (Min(b, best') > alpha ==> MinLoop(alpha, beta, Min(b, best'), best', Min(m, v)))
  {
  }

  /** The first child of a MAX loop, with a clock that never fires: either
      the loop cuts off there, at a bestScore of at least beta, or it goes
      on to the rest with a new loop state. */
  lemma ScanMaxStep(s: State, assignedPlayer: int, victoryPoints: int, moves: seq<Move>, d: nat,
                    alpha: int, beta: int, a: int, best: int, m: int, clock: nat -> bool, polls: nat)
    returns (cut: bool, a': int, best': int, m': int, n: nat)
    requires Playable(s) && s.toMove == 1 && AllLegal(s, moves) && moves != [] && d >= 1 && NeverFires(clock)
    requires alpha < beta && MaxLoop(alpha, beta, a, best, m)
    ensures AllLegal(s, moves[1..])
    ensures MaxOver(s, assignedPlayer, victoryPoints, moves, d, m) == MaxOver(s, assignedPlayer, victoryPoints, moves[1..], d, m')
    ensures cut ==> Scan(s, assignedPlayer, victoryPoints, moves, d, a, beta, best, clock, polls).0 == best' &&
                    best' >= beta && m' >= beta
    ensures !cut ==> MaxLoop(alpha, beta, a', best', m')
    ensures !cut ==>
      Scan(s, assignedPlayer, victoryPoints, moves, d, a, beta, best, clock, polls) ==
      Scan(s, assignedPlayer, victoryPoints, moves[1..], d, a', beta, best', clock, n)
    decreases d, 0, |moves|, 0
  {
    var mv := moves[0];
    ChildPlayable(s, mv, victoryPoints);
    var child := Successor(s, mv, victoryPoints);
    var c;
    c, n := Search(child, assignedPlayer, victoryPoints, d - 1, a, beta, clock, polls).0,
            Search(child, assignedPlayer, victoryPoints, d - 1, a, beta, clock, polls).1;
    var v := ChildValue(s, assignedPlayer, victoryPoints, mv, d);
    SearchSound(child, assignedPlayer, victoryPoints, d - 1, a, beta, clock, polls);
    MaxStep(alpha, beta, a, best, m, v, c);
    ScanStep(s, assignedPlayer, victoryPoints, moves, d, a, beta, best, clock, polls, c, n);
    best' := if c > best then c else best;
    a', m' := Max(a, best'), Max(m, v);
    cut := a' >= beta;
    assert AllLegal(s, moves[1..]) by {
      assert forall k :: k in moves[1..] ==> k in moves;
    }
  }

  /** The MAX loop meets the alpha-beta contract against MaxOver. */
  lemma {:induction false} ScanMax(s: State, assignedPlayer: int, victoryPoints: int, moves: seq<Move>, d: nat,
                                   alpha: int, beta: int, a: int, best: int, m: int, clock: nat -> bool, polls: nat)
    requires Playable(s) && s.toMove == 1 && AllLegal(s, moves) && d >= 1 && NeverFires(clock)
    requires alpha < beta && MaxLoop(alpha, beta, a, best, m)
    ensures Bracket(Scan(s, assignedPlayer, victoryPoints, moves, d, a, beta, best, clock, polls).0,
                    MaxOver(s, assignedPlayer, victoryPoints, moves, d, m), alpha, beta)
    decreases d, 0, |moves|, 1
  {
    if moves != [] {
      var cut, a', best', m', n := ScanMaxStep(s, assignedPlayer, victoryPoints, moves, d, alpha, beta, a, best, m, clock, polls);
      if cut {
        OverBounds(s, assignedPlayer, victoryPoints, moves[1..], d, m');
      } else {
        ScanMax(s, assignedPlayer, victoryPoints, moves[1..], d, alpha, beta, a', best', m', clock, n);
      }
    }
  }

  /** The first child of a MIN loop, symmetric to ScanMaxStep. */
  lemma ScanMinStep(s: State, assignedPlayer: int, victoryPoints: int, moves: seq<Move>, d: nat,
                    alpha: int, beta: int, b: int, best: int, m: int, clock: nat -> bool, polls: nat)
    returns (cut: bool, b': int, best': int, m': int, n: nat)
    requires Playable(s) && s.toMove == -1 && AllLegal(s, moves) && moves != [] && d >= 1 && NeverFires(clock)
    requires alpha < beta && MinLoop(alpha, beta, b, best, m)
    ensures AllLegal(s, moves[1..])
    ensures MinOver(s, assignedPlayer, victoryPoints, moves, d, m) == MinOver(s, assignedPlayer, victoryPoints, moves[1..], d, m')
    ensures cut ==> Scan(s, assignedPlayer, victoryPoints, moves, d, alpha, b, best, clock, polls).0 == best' &&
                    best' <= alpha && m' <= alpha
    ensures !cut ==> MinLoop(alpha, beta, b', best', m')
    ensures !cut ==>
      Scan(s, assignedPlayer, victoryPoints, moves, d, alpha, b, best, clock, polls) ==
      Scan(s, assignedPlayer, victoryPoints, moves[1..], d, alpha, b', best', clock, n)
    decreases d, 0, |moves|, 0
  {
    var mv := moves[0];
    ChildPlayable(s, mv, victoryPoints);
    var child := Successor(s, mv, victoryPoints);
    var c;
    c, n := Search(child, assignedPlayer, victoryPoints, d - 1, alpha, b, clock, polls).0,
            Search(child, assignedPlayer, victoryPoints, d - 1, alpha, b, clock, polls).1;
    var v := ChildValue(s, assignedPlayer, victoryPoints, mv, d);
    SearchSound(child, assignedPlayer, victoryPoints, d - 1, alpha, b, clock, polls);
    MinStep(alpha, beta, b, best, m, v, c);
    ScanStep(s, assignedPlayer, victoryPoints, moves, d, alpha, b, best, clock, polls, c, n);
    best' := if c < best then c else best;
    b', m' := Min(b, best'), Min(m, v);
    cut := b' <= alpha;
    assert AllLegal(s, moves[1..]) by {
      assert forall k :: k in moves[1..] ==> k in moves;
    }
  }

  /** The MIN loop meets the alpha-beta contract against MinOver. */
  lemma {:induction false} ScanMin(s: State, assignedPlayer: int, victoryPoints: int, moves: seq<Move>, d: nat,
                                   alpha: int, beta: int, b: int, best: int, m: int, clock: nat -> bool, polls: nat)
    requires Playable(s) && s.toMove == -1 && AllLegal(s, moves) && d >= 1 && NeverFires(clock)
    requires alpha < beta && MinLoop(alpha, beta, b, best, m)
    ensures Bracket(Scan(s, assignedPlayer, victoryPoints, moves, d, alpha, b, best, clock, polls).0,
                    MinOver(s, assignedPlayer, victoryPoints, moves, d, m), alpha, beta)
    decreases d, 0, |moves|, 1
  {
    if moves != [] {
      var cut, b', best', m', n := ScanMinStep(s, assignedPlayer, victoryPoints, moves, d, alpha, beta, b, best, m, clock, polls);
      if cut {
        OverBounds(s, assignedPlayer, victoryPoints, moves[1..], d, m');
      } else {
        ScanMin(s, assignedPlayer, victoryPoints, moves[1..], d, alpha, beta, b', best', m', clock, n);
      }
    }
  }

  /** lookAhead is sound: with a clock that never fires and a non-empty
      window, its score meets the alpha-beta contract against the minimax
      value. In particular, a value strictly inside the window is found
      exactly. */
  lemma {:induction false} SearchSound(s: State, assignedPlayer: int, victoryPoints: int, d: nat, alpha: int, beta: int,
                                       clock: nat -> bool, polls: nat)
    requires Playable(s) && alpha < beta && NeverFires(clock)
    ensures Bracket(Search(s, assignedPlayer, victoryPoints, d, alpha, beta, clock, polls).0,
                    Value(s, assignedPlayer, victoryPoints, d), alpha, beta)
    decreases d, 1, 0, 0
  {
    if d > 0 && !s.gameOver {
      assert !clock(polls);
      var moves := Moves(s, assignedPlayer);
      if s.toMove == 1 {
        ScanMax(s, assignedPlayer, victoryPoints, moves, d, alpha, beta, alpha, Sentinel(1), Sentinel(1), clock, polls + 1);
      } else {
        ScanMin(s, assignedPlayer, victoryPoints, moves, d, alpha, beta, beta, Sentinel(-1), Sentinel(-1), clock, polls + 1);
      }
    }
  }
}
