# Knight-capture agents, modelled and verified in Dafny

Two agents for a small knight-move capture game, `Dark_Knight.py` and
`suncharn_pipithkul.py`. The board is a grid of integer codes:
- `1` and `-1` are the horses of MAX and MIN;
- `2` and `-2` are their apples;
- `0` is an empty square.

A horse jumps like a chess knight. A side wins when it captures the other
side's apple or its last horse. The game is drawn when the move counter runs
out.

Each agent does four things:
- generates the legal moves;
- applies a move to a copy of the board;
- scores positions statically;
- picks a move by iterative-deepening minimax with alpha-beta pruning, under a wall-clock limit.

The model follows both files operation by operation.

- `Game` is shared by both agents. It covers:
  - the board, the move and the state;
  - move generation (`getMoveOptions`), proved to list exactly the legal moves, in scan order;
  - the transition (`makeMove`), proved to change only the start and end squares and to apply the win/draw rule;
  - a colour-swap symmetry of both operations;
  - the knight-neighbour counts.
- `KnightGraph` defines knight reachability and shortest knight distance on a board.
- `DistanceLabels` holds the label predicates that both distance builders share.
- `DarkKnightDistance` is `setAppleDistance`, the layer-by-layer labelling sweep, written over an `array2`.
- `DarkKnightInit` is the table set-up of `initPlayer` (`appleDistance`, `posScore`).
- `DarkKnightEval` is `getScore`, a loop over the board proved equal to a reference fold, plus the forced-win shortcuts.
- `IndexSort` is the argument sort used for move ordering.
- `DarkKnightSearch` is `lookAhead` and `lookAheadWithPresort`, proved against full-width minimax.
- `DarkKnightMove` and `DarkKnightMoveFacts` are the `getMove` deepening loop and what it guarantees.
- `SuncharnDistance` is the queue-based breadth-first search `initMoveDistance` and the all-squares table.
- `SuncharnEval` covers `materialValue`, `getScore` with the piece-square tables, and the attack/defence counts.
- `SuncharnSearch` and `SuncharnMove` are `lookAhead` and `getMove` of the second agent.

How the wall clock is modelled:
- `timeOut()` is an oracle `clock: nat -> bool`. The i-th call answers `clock(i)`.
- Every search threads the number of calls made so far, so a search is a deterministic function of the oracle.
- `NeverFires` and `AlwaysFires` are the clocks of unlimited and of no thinking time.

How the globals are modelled:
- The module-level settings `victoryPoints`, `assignedPlayer` and the tables built by `initPlayer` are parameters.
- Board dimensions are read from the board itself.

## Model

| member | source | states |
|---|---|---|
| Game.DirectionsIsOffsetTable | Dark_Knight.py:33 | The eight offsets of `direction` are exactly the eight knight offsets. |
| Game.GetMoveOptions | Dark_Knight.py:36-45 | The nested scan returns exactly `LegalMoves`: for each square in first-axis, then second-axis order, and for each offset in table order, the in-bounds jump from a mover's horse onto a square without the mover's horse or apple. |
| Game.LegalMovesExact | Dark_Knight.py:40-44 | A move is generated if and only if it is legal: it starts on a mover's horse, its displacement is a knight offset, it lands in bounds, and the target is not the mover's own horse or apple. |
| Game.LegalMovesAreLegal | Dark_Knight.py:40-44 | Every generated move is legal. |
| Game.BoardMovesMembers | Dark_Knight.py:38-44 | Membership in the moves of the first n rows is exactly "generated from a start square in those rows". |
| Game.BoardMovesOrdered | Dark_Knight.py:38-39 | Generated moves come in scan order of their start squares. |
| Game.DirMovesInTableOrder | Dark_Knight.py:41-44 | The moves from the first k offsets are exactly the open ones, each named by a strictly increasing offset index. |
| Game.SquareMovesInTableOrder | suncharn_pipithkul.py:66-71 | Within one square, a horse's moves are exactly its in-bounds offsets onto squares without the mover's own horse or apple, listed in the order of the offset table. This is the order in which the right-first and left-first tables differ. A square without the mover's horse yields no moves. |
| Game.Contains | Dark_Knight.py:59 | The `in` test on the board is true exactly when some cell holds the code. |
| Game.MakeMove | Dark_Knight.py:48-65 | Copying the board and writing two cells gives `Successor`. The input state is a value and is not changed. |
| Game.SuccessorBoard | Dark_Knight.py:51-53 | The successor board has the same shape. The end square holds the mover, the start square is 0 when it differs from the end, and every other cell is unchanged. |
| Game.SuccessorCounters | Dark_Knight.py:54-63 | The side flips and `movesRemaining` drops by 1. Capturing the opponent's apple, or leaving the opponent without a horse, ends the game with `mover * (victoryPoints + movesRemaining)` points. Otherwise a move that leaves no moves ends the game as a draw with 0 points, and any other move leaves the game running with 0 points. |
| Game.SuccessorWellFormed | Dark_Knight.py:48-65 | A legal transition keeps the board well formed. If the successor is not over, both sides still have a horse. |
| Game.MirrorSuccessor | suncharn_pipithkul.py:76-94 | Swapping colours commutes with `makeMove`. |
| Game.MirrorLegalMoves | suncharn_pipithkul.py:64-73 | The colour-swapped position has the same legal-move list. |
| Game.NeighbourCount | suncharn_pipithkul.py:170-174 | The count of in-bounds knight neighbours holding a code is at most the number of offsets examined. |
| Game.NeighbourCountPositive | Dark_Knight.py:91-100 | The neighbour count is positive if and only if some in-bounds knight neighbour holds the code. This is the `attackCount > 0` test. |
| Game.NeighbourCountsDisjoint | Dark_Knight.py:91-97 | `defendCount + attackCount` is at most 8. |
| KnightGraph.DistLeast | Dark_Knight.py:212-221 | A shortest knight distance is at most the length of any knight path to the square. |
| KnightGraph.DistLayers | Dark_Knight.py:216-220 | A square at distance k+1 has a knight neighbour at distance k. |
| KnightGraph.ClosedHoldsReachable | Dark_Knight.py:212-221 | Any set that holds the start and is closed under knight moves holds every reachable square. |
| KnightGraph.SquaresCount | Dark_Knight.py:208 | A board has width times height squares, the count that `numMissingSquares` starts from. |
| KnightGraph.CentreIsolated | Dark_Knight.py:212 | On a 3x3 board no knight path reaches the centre from another square. |
| DistanceLabels.LabelSquare | suncharn_pipithkul.py:258-260 | Labelling an unlabelled neighbour of a layer-(k-1) square with k writes only that cell. It keeps every label exact and removes one square from the unlabelled set. |
| DarkKnightDistance.SetAppleDistance | Dark_Knight.py:206-221 | When every square is reachable from the apple, the sweep terminates. Every entry is then the exact knight distance from the apple: 0 at the apple, never -1. |
| DarkKnightDistance.ScanRound | Dark_Knight.py:213-221 | One pass of the while loop keeps every label exact and labels every square within one more move. `numMissingSquares` stays the number of unlabelled squares. |
| DarkKnightDistance.ScanRow | Dark_Knight.py:214-221 | One value of x expands every square of that row labelled with the current layer. |
| DarkKnightDistance.ScanSquare | Dark_Knight.py:216-221 | A square labelled with the current layer has all its knight neighbours labelled afterwards. |
| DarkKnightDistance.ExpandSquare | Dark_Knight.py:217-221 | Expanding a square labels all its in-bounds knight neighbours, keeping the labels exact. |
| DarkKnightDistance.LabelNeighbour | Dark_Knight.py:218-221 | One offset labels its target square if it was unlabelled, and decrements the missing count. |
| DarkKnightDistance.LabelIsLayer | Dark_Knight.py:216 | Once all squares within c moves are labelled, a square is labelled c if and only if its distance is c. |
| DarkKnightDistance.NextLayerExists | Dark_Knight.py:212-213 | While squares are missing and all are reachable, some missing square is at distance c+1. So every pass makes progress. |
| DarkKnightDistance.UnreachableStaysMissing | Dark_Knight.py:212 | A square not reachable from the apple is never labelled, so `numMissingSquares` never reaches 0. |
| DarkKnightDistance.CentreNeverLabelled | Dark_Knight.py:212-221 | On a 3x3 board with the apple off the centre, the centre stays -1 and the loop never ends. |
| DarkKnightInit.Centrality | Dark_Knight.py:244-246 | Centrality lies in 0..4. It is 4 exactly two or more squares from every edge, and 0 exactly on the corners. |
| DarkKnightInit.CentralitySymmetric | Dark_Knight.py:244-246 | Centrality is symmetric under reflection of either axis. |
| DarkKnightInit.PosScoreEntry | Dark_Knight.py:247-252 | A `posScore` entry lies in 0..12. |
| DarkKnightInit.PosScoreBonuses | Dark_Knight.py:248-252 | An entry is the centrality plus the own-apple bonus (2 at distance 1 or 2) plus the enemy-apple bonus (6, 3, 1 at distance 1, 2, 3). |
| DarkKnightInit.MissingAppleAsThree | Dark_Knight.py:249-252 | A distance of -1 indexes the last entry of `defenseScore` and of `attackScore` (Python negative indexing), so it scores as distance 3. |
| DarkKnightInit.InitPosScore | Dark_Knight.py:242-252 | The nested loop fills both `posScore` tables entirely with `PosScoreEntry` of the square and the two apple distances. |
| DarkKnightInit.PosScoreRow | Dark_Knight.py:243-252 | One value of x fills that row of both tables and keeps the earlier rows. |
| DarkKnightInit.FillAppleTables | Dark_Knight.py:235-240 | The scan fills `appleDistance` for MAX's apple into the first table and for MIN's apple into the second. |
| DarkKnightInit.AppleRow | Dark_Knight.py:236-240 | One row of the apple scan keeps both tables consistent with the squares seen. |
| DarkKnightInit.VisitApple | Dark_Knight.py:237-240 | Visiting an apple's square runs the distance sweep for that apple. Any other square leaves the table alone. |
| DarkKnightInit.TableEntries | Dark_Knight.py:230-240 | Every entry of a filled apple table is at least -1. |
| DarkKnightInit.InitPlayer | Dark_Knight.py:224-252 | Both distance tables are the knight distances from the two apples, and both `posScore` tables are filled. All four tables have the board's shape. |
| DarkKnightEval.GetScore | Dark_Knight.py:70-126 | The loop returns the reference score. On a finished game it is `pointMultiplier * points`. |
| DarkKnightEval.ScoreSquare | Dark_Knight.py:84-110 | Visiting one square updates the counters as the reference fold does. |
| DarkKnightEval.CountAround | Dark_Knight.py:91-97 | `defendCount` and `attackCount` are the numbers of in-bounds knight neighbours holding own and opposing horses. |
| DarkKnightEval.WatchWin | Dark_Knight.py:106-110 | The `movesUntilWin` update for a horse one move from the opposing apple agrees with the reference. |
| DarkKnightEval.FinishScore | Dark_Knight.py:112-126 | The closing arithmetic, with the capture bonus and the forced-win overrides, agrees with the reference. |
| DarkKnightEval.ScanBoardGathered | Dark_Knight.py:82-110 | After the board scan, the tallies are the counts over the whole board. |
| DarkKnightEval.HorsesCounted | Dark_Knight.py:87 | `horseCount` is the number of horses of each side, and it is positive for a side with a horse. So the divisions at line 112 are defined. |
| DarkKnightEval.WinShortcut | Dark_Knight.py:106-122 | If the side to move has a horse one knight move from the opposing apple, the score is `playerToMove * pointMultiplier * (victoryPoints + movesRemaining - 1)`. |
| DarkKnightEval.NoShortcutWithoutThreat | Dark_Knight.py:80-110 | If no horse of the side to move is one move from the opposing apple, the scan leaves that side's `movesUntilWin` at 10000. |
| IndexSort.ArgSort | Dark_Knight.py:279 | The index order has one entry per score, each in range. |
| IndexSort.ArgSortSorts | Dark_Knight.py:183 | The index order is a permutation of 0..n-1 that lists the scores in ascending order. |
| IndexSort.ArgSortFirstIsLeast | Dark_Knight.py:184-185 | The first index names a least score. |
| DarkKnightSearch.ChildPlayable | Dark_Knight.py:145-147 | A legal move from a state getScore can evaluate leads to such a state. |
| DarkKnightSearch.LookAhead | Dark_Knight.py:134-160 | The loop returns `Search`. At depth 0 or in a finished game it returns getScore without polling. On a timeout it returns 0. |
| DarkKnightSearch.LookAheadWithPresort | Dark_Knight.py:163-204 | The same, against `PresortSearch`. |
| DarkKnightSearch.SortedMoves | Dark_Knight.py:173-183 | The presorted move list holds exactly the legal moves. |
| DarkKnightSearch.ChildScoreList | Dark_Knight.py:177-181 | `scoreList` holds each child's getScore negated for MAX, in move order. |
| DarkKnightSearch.ScanMoves | Dark_Knight.py:187-204 | The child loop, with its cutoffs, returns the reference `Scan`. |
| DarkKnightSearch.SearchChild | Dark_Knight.py:188-191 | A child is searched with presort when more than 3 plies remain, and plain otherwise. |
| DarkKnightSearch.ScanKeepsBounds | Dark_Knight.py:143-156 | The loop only raises `a` and only lowers `b`. |
| DarkKnightSearch.SearchWindow | Dark_Knight.py:143-160 | Without a timeout, a MAX node returns at least alpha and a MIN node at most beta. |
| DarkKnightSearch.AlphaBetaSound | Dark_Knight.py:134-160 | With a clock that never fires, lookAhead meets the alpha-beta contract against full-width minimax. The result is exact inside the window, at most alpha when the value is, and at least beta when the value is. |
| DarkKnightSearch.AlphaBetaExact | Dark_Knight.py:134-160 | A value strictly inside the window is returned exactly. |
| DarkKnightSearch.PresortSound | Dark_Knight.py:163-204 | lookAheadWithPresort meets the same contract against the same minimax, whatever the move order. |
| DarkKnightSearch.ChildSound | Dark_Knight.py:147 | A child search, presorted or not, meets the contract against the child's minimax value. |
| DarkKnightSearch.PresortChildSound | Dark_Knight.py:189 | A presorted child search meets the contract. |
| DarkKnightSearch.ScanMax | Dark_Knight.py:149-152 | The MAX loop, cutoff included, brackets the maximum child value. |
| DarkKnightSearch.ScanMin | Dark_Knight.py:153-156 | The MIN loop, cutoff included, brackets the minimum child value. |
| DarkKnightSearch.MaxStep | Dark_Knight.py:149-152 | One MAX iteration either cuts off with a value of at least beta, or keeps `a` equal to alpha raised to the best child so far. |
| DarkKnightSearch.MinStep | Dark_Knight.py:153-156 | The symmetric MIN iteration. |
| DarkKnightSearch.MaxOverBounds | Dark_Knight.py:149-150 | The running maximum bounds every child value and is attained. |
| DarkKnightSearch.MinOverBounds | Dark_Knight.py:153-154 | The running minimum bounds every child value and is attained. |
| DarkKnightSearch.SameMovesSameValue | Dark_Knight.py:183-187 | Visiting the same moves in another order gives the same minimax value. |
| DarkKnightSearch.ReorderSameMoves | Dark_Knight.py:187 | Listing the moves in a permutation's order keeps the same moves. |
| DarkKnightSearch.PresortDepthOne | Dark_Knight.py:184-185 | At depth 1, lookAheadWithPresort returns the first child score in sorted order, negated back for MAX. |
| DarkKnightSearch.PresortFirstIsBest | Dark_Knight.py:180-185 | That score is the best one-ply getScore for the mover, and it equals the depth-1 minimax value. |
| DarkKnightSearch.LeastChildScoreIsBest | Dark_Knight.py:180-185 | The least negated score names the mover's best child. |
| DarkKnightSearch.BestOnePlyIsMinimax | Dark_Knight.py:180-185 | The best one-ply score is the depth-1 minimax value. |
| DarkKnightMove.RootSearchOf | Dark_Knight.py:296 | The root child search is a presorted search of the projected state, one ply shallower. |
| DarkKnightMove.SearchRootChild | Dark_Knight.py:296 | Searching a root child returns what the root search gives. |
| DarkKnightMove.RunRound | Dark_Knight.py:286-304 | One deepening iteration returns the reference `Round`. It starts from the window (-9e9, 9e9) and no move. A timeout ends it before the score is used. MAX raises alpha and MIN lowers beta on improvement. |
| DarkKnightMove.DeepenStep | Dark_Knight.py:306-323 | After an iteration, the loop stops on a timeout or on a score magnitude above `victoryScoreThresh`, and goes one depth deeper otherwise. |
| DarkKnightMove.DeepenOnce | Dark_Knight.py:286-323 | One pass of the deepening loop advances the reference `Deepen` or returns its result. |
| DarkKnightMove.Deepening | Dark_Knight.py:285-323 | The deepening loop from depth 3 returns the move of the reference `Deepen`. |
| DarkKnightMove.GetMove | Dark_Knight.py:262-325 | getMove returns the move of `ChooseMove`: the first move in argsort order as default, then deepening from depth 3 to 20. |
| DarkKnightMoveFacts.AdoptChoice | Dark_Knight.py:306-315 | A finished iteration's pick is always adopted. A timed-out iteration's pick is adopted only when its score newly crosses the victory threshold, so the adopted score never drops below the favoured one. |
| DarkKnightMoveFacts.RoundPicksFrom | Dark_Knight.py:294-304 | An iteration picks nothing or one of the root moves. |
| DarkKnightMoveFacts.DeepenPicksFrom | Dark_Knight.py:285-323 | The deepening loop picks nothing or one of the root moves. |
| DarkKnightMoveFacts.ChosenMoveIsLegal | Dark_Knight.py:262-325 | A move getMove returns is a legal move of the state. |
| DarkKnightMoveFacts.DefaultMove | Dark_Knight.py:271-281 | The default move is legal, and its child has the best one-ply getScore for the mover. |
| DarkKnightMoveFacts.TimeoutKeepsDefault | Dark_Knight.py:281-313 | If the clock has always run out, getMove returns the default move with score -9e9. |
| DarkKnightMoveFacts.RoundMax | Dark_Knight.py:301-302 | Over values inside the window, the MAX iteration picks a move of maximal value. |
| DarkKnightMoveFacts.RoundMin | Dark_Knight.py:303-304 | Over values inside the window, the MIN iteration picks a move of minimal value, scored from MIN's side. |
| DarkKnightMoveFacts.OfIsOver | Dark_Knight.py:294-296 | The running best over the root values is the minimax combination of the children. |
| DarkKnightMoveFacts.RootSearches | Dark_Knight.py:296 | The root search meets the alpha-beta contract against each child's minimax value. |
| DarkKnightMoveFacts.RoundOptimal | Dark_Knight.py:285-304 | With unlimited time, each iteration picks a legal move whose child has the root's minimax value at that depth. |
| DarkKnightMoveFacts.DeepenGood | Dark_Knight.py:285-323 | The deepening loop returns a pick that is good at a depth where it was allowed to stop. |
| DarkKnightMoveFacts.ChosenMoveIsOptimal | Dark_Knight.py:262-325 | With unlimited time, getMove returns a legal move that is minimax-optimal at some depth in 3..20, and that depth is 20 unless the score is decisive. |
| SuncharnDistance.ExpandTile | suncharn_pipithkul.py:256-260 | Expanding a dequeued tile labels its unlabelled in-bounds knight neighbours with the next layer and reports them for the queue. Earlier labels are unchanged. |
| SuncharnDistance.VisitTile | suncharn_pipithkul.py:251-265 | One pass of the while loop keeps the search invariant. The unlabelled set shrinks by what it enqueues, which bounds the loop. |
| SuncharnDistance.NextLayerLabelled | suncharn_pipithkul.py:262-265 | When a layer's tiles are all dequeued, every square within one more move is labelled. |
| SuncharnDistance.InitMoveDistance | suncharn_pipithkul.py:241-267 | The search terminates with the start 0, every reachable square at its shortest knight distance, and every unreachable square -1. |
| SuncharnDistance.DistanceRow | suncharn_pipithkul.py:275-276 | One row of the table holds the distance matrix of each start square in it. |
| SuncharnDistance.InitMoveDistanceFromAnySpot | suncharn_pipithkul.py:269-276 | The table holds, for every start square, its distance matrix. |
| SuncharnEval.MaterialValue | suncharn_pipithkul.py:125-135 | A code's value has its sign. Apples are worth `appleValue` (900) and horses `horseValue` (20). |
| SuncharnEval.MaterialAntisymmetric | suncharn_pipithkul.py:125-135 | `materialValue(-p) == -materialValue(p)`. |
| SuncharnEval.MinPieceSquareTable | suncharn_pipithkul.py:49 | MIN's table is MAX's rotated by 180 degrees. |
| SuncharnEval.TablesPeakOnCorners | suncharn_pipithkul.py:38-49 | Each table peaks at 100 on the opposing corner square, and no entry exceeds 100. |
| SuncharnEval.GetScore | suncharn_pipithkul.py:101-123 | The loop returns the reference score: ±10000 on a horse in the target corner for the assigned side, otherwise material plus the table values. |
| SuncharnEval.RotatedTotal | suncharn_pipithkul.py:111-117 | On a full 7x6 board, the board sum of the rotated, colour-swapped board is the negation. |
| SuncharnEval.ScoreAntisymmetric | suncharn_pipithkul.py:101-123 | On a full 7x6 board of codes, rotating the board, swapping colours and flipping the assigned side (1 or -1) negates the score. |
| SuncharnEval.NumAttackValue | suncharn_pipithkul.py:166-174 | The number of in-bounds knight neighbours holding `-player`, in 0..8. |
| SuncharnEval.NumDefenseValue | suncharn_pipithkul.py:176-184 | The number of in-bounds knight neighbours holding `player`, in 0..8. |
| SuncharnEval.DangerCount | suncharn_pipithkul.py:140-146 | A sum of neighbour counts over k danger squares is at most 8k. |
| SuncharnEval.SumOverSquares | suncharn_pipithkul.py:140-146 | The loop over a danger-square list returns `DangerCount`. |
| SuncharnEval.AttackScore | suncharn_pipithkul.py:137-149 | The attack score is the opposing pieces around the opponent's danger squares. |
| SuncharnEval.DefendScore | suncharn_pipithkul.py:151-163 | The defence score is the own pieces around the own danger squares. |
| SuncharnEval.AttackIsOpponentDefence | suncharn_pipithkul.py:137-163 | A side's attack score equals the other side's defence score, and both are at most 16. |
| SuncharnSearch.MoveDirectionsIsOffsetTable | suncharn_pipithkul.py:59-61 | Both offset tables enumerate the knight offsets, and the left-first table is the right-first one negated. |
| SuncharnSearch.Moves | suncharn_pipithkul.py:57-73 | Every generated move is legal. |
| SuncharnSearch.MoveOptions | suncharn_pipithkul.py:57-73 | The scan returns `Moves`, with the offsets right-first for MAX's agent and left-first for MIN's agent. The table is chosen by `assignedPlayer`, the side the agent plays, at every node, not by the side to move. |
| SuncharnSearch.MovesExact | suncharn_pipithkul.py:64-73 | A move is generated if and only if it is legal, in row-then-column order of the start squares. |
| SuncharnSearch.ChildPlayable | suncharn_pipithkul.py:213 | A legal move keeps the state searchable. |
| SuncharnSearch.SentinelIsScaled | suncharn_pipithkul.py:210 | The sentinel is `-9e9 * playerToMove`, and the two sides' sentinels are opposite. |
| SuncharnSearch.OverBounds | suncharn_pipithkul.py:216-217 | The running max is at least its start and every child value. The running min is at most. |
| SuncharnSearch.LookAhead | suncharn_pipithkul.py:203-228 | The loop returns `Search`. At depth 0 or in a finished game it returns getScore. On a timeout it returns 0. With no moves it returns the sentinel. |
| SuncharnSearch.ScanOnce | suncharn_pipithkul.py:212-226 | One child of the loop either cuts off with the reference result, or continues the reference `Scan` with the updated alpha, beta and bestScore. |
| SuncharnSearch.SearchChild | suncharn_pipithkul.py:213-214 | A child is searched one ply shallower in the current window. |
| SuncharnSearch.ScanStep | suncharn_pipithkul.py:212-226 | One step of the reference loop: update bestScore, alpha or beta, and stop once `beta <= alpha`. |
| SuncharnSearch.MaxStep | suncharn_pipithkul.py:216-226 | One MAX iteration either cuts off at a value of at least beta, or keeps the loop invariant. |
| SuncharnSearch.MinStep | suncharn_pipithkul.py:216-226 | One MIN iteration either cuts off at a value of at most alpha, or keeps the loop invariant. |
| SuncharnSearch.ScanMaxStep | suncharn_pipithkul.py:212-226 | One MAX child with unlimited time either cuts off at a bestScore of at least beta, above every remaining value, or continues the loop with its invariant kept. |
| SuncharnSearch.ScanMinStep | suncharn_pipithkul.py:212-226 | One MIN child with unlimited time either cuts off at a bestScore of at most alpha, or continues the loop with its invariant kept. |
| SuncharnSearch.ScanMax | suncharn_pipithkul.py:212-226 | The MAX loop brackets the maximum of the sentinel and the child values. |
| SuncharnSearch.ScanMin | suncharn_pipithkul.py:212-226 | The MIN loop brackets the minimum of the sentinel and the child values. |
| SuncharnSearch.SearchSound | suncharn_pipithkul.py:203-228 | With a clock that never fires and alpha < beta, lookAhead meets the alpha-beta contract against full-width minimax, where a node without moves scores the sentinel. |
| SuncharnMove.RootSearchOf | suncharn_pipithkul.py:298-300 | The root child search is lookAhead of the projected state, one ply shallower, in the window (-9e9, 9e9). |
| SuncharnMove.SearchRootChild | suncharn_pipithkul.py:298-300 | Searching a root child returns what the root search gives. |
| SuncharnMove.Improve | suncharn_pipithkul.py:302-304 | The pick is kept or replaced by the new move. Its score becomes the max (MAX) or min (MIN) of the two. |
| SuncharnMove.RunRound | suncharn_pipithkul.py:293-307 | One deepening iteration returns the reference `Round`. It starts from no move and the sentinel, updates before polling the clock, and stops after the child at which the clock fires. |
| SuncharnMove.DeepenStep | suncharn_pipithkul.py:309-321 | After an iteration, its pick is adopted only if the clock has not fired. The loop stops on a timeout or on a score magnitude above 1000. |
| SuncharnMove.DeepenOnce | suncharn_pipithkul.py:293-321 | One pass of the deepening loop advances the reference `Deepen` or returns its result. |
| SuncharnMove.Deepening | suncharn_pipithkul.py:288-321 | The deepening loop from depth 2 returns the move of the reference `Deepen`, with `moveList[0]` as default. |
| SuncharnMove.GetMove | suncharn_pipithkul.py:284-323 | getMove returns the move of `ChooseMove`. |
| SuncharnMove.RoundPicksFrom | suncharn_pipithkul.py:297-307 | An iteration picks nothing or one of the root moves. |
| SuncharnMove.DeepenPicksFrom | suncharn_pipithkul.py:292-321 | The deepening loop picks nothing or one of the root moves. |
| SuncharnMove.ChosenMoveIsLegal | suncharn_pipithkul.py:284-323 | A move getMove returns is a legal move of the state. |
| SuncharnMove.TimeoutKeepsFirstMove | suncharn_pipithkul.py:288-317 | If the clock has always run out, getMove returns `moveList[0]`. |
| SuncharnMove.RootScoreExact | suncharn_pipithkul.py:299-300 | With unlimited time, a root child search returns the child's minimax value when it lies inside (-9e9, 9e9). |
| SuncharnMove.ImprovePicks | suncharn_pipithkul.py:302-304 | An update keeps the pick naming a move of the running best value. |
| SuncharnMove.RoundExactStep | suncharn_pipithkul.py:297-307 | One root child, with unlimited time, is scored exactly and advances the running best. |
| SuncharnMove.RoundExact | suncharn_pipithkul.py:297-307 | With unlimited time, an iteration's pick carries the best child value and names a move of that value. |
| SuncharnMove.RoundOptimal | suncharn_pipithkul.py:292-307 | With unlimited time, each iteration picks a legal move whose child has the root's minimax value at that depth. |
| SuncharnMove.DeepenOptimal | suncharn_pipithkul.py:292-321 | The deepening loop stops at a depth where its pick is optimal, and that depth is 20 unless the score is decisive. |
| SuncharnMove.ChosenMoveIsOptimal | suncharn_pipithkul.py:284-323 | With unlimited time, getMove returns a legal move that is minimax-optimal at some depth in 2..20, and that depth is 20 unless the score is decisive. |

## Left out

- The wall clock (`datetime.now()` in `timeOut`) is an oracle over the number of `timeOut()` calls. Real elapsed time, and its dependence on how long each step takes, is not modelled.
- Console output in both `getMove` functions is not modelled. Neither are the `evalCount`/`leafCount` counters, which nothing reads, or the empty `exitPlayer`.
- Python floats: Dark_Knight scores are Dafny `real`, which is exact. So the `4.0 * protectCount / horseCount` term may differ from float rounding, and float ties may compare differently.
- IndexSort.ArgSort is a deterministic stable insertion sort, whereas numpy's default `argsort` is not stable. Only "a permutation listing the scores in ascending order" is relied on. The minimax value is proved independent of the move order (`SameMovesSameValue`). The search results agree with that value only inside the window (`AlphaBetaSound`, `PresortSound`) and only under `NeverFires`. Which of several equally scored root moves getMove returns may differ.
- Global state: `victoryPoints`, `assignedPlayer`, the board size and the tables are parameters. Module-level mutation in `initPlayer` is not modelled.
- DarkKnightInit.InitPlayer requires at most one apple per side, and every square reachable from each apple. A side with no apple keeps its table at -1 (`MissingAppleAsThree`). With a second apple of the same side, the first sweep has already labelled every square, so the second sweep at Dark_Knight.py:235-240 finds no -1 square. `numMissingSquares` then stays at `W*H-1` and the loop at Dark_Knight.py:212-221 does not terminate. With an unreachable square the sweep does not terminate, which `UnreachableStaysMissing` and `CentreNeverLabelled` show.
- DarkKnightEval.GetScore requires a horse of each side on an unfinished board, because the source divides by both horse counts there.
- DarkKnightSearch.LookAheadWithPresort requires a move at depth 1, because the source indexes `moveOrder[0]` there.
- DarkKnightMove.GetMove requires at least one legal move. With none, Dark_Knight.py:281 indexes `moveList[moveOrder[0]]` and raises an IndexError, which the model does not represent.
- SuncharnMove.GetMove requires at least one legal move. With none, suncharn_pipithkul.py:289 indexes `moveList[0]` and raises an IndexError, which the model does not represent.
- Both getMove functions can end an iteration with no move, and the model keeps this as `Option<Move>`:
  - Dark_Knight, when every root child scores at most -9e9. Dark_Knight.py:316 then adopts `None`, and the progress line at Dark_Knight.py:318-320 formats `favoredMove[0]`, which raises a TypeError, so the source never returns. The model leaves that print out and returns `None` in its place;
  - suncharn, when a completed iteration finds no child better than the sentinel. Its print is commented out, and the source returns `None`.

  The legality lemmas speak of a returned `Some` move.
- DarkKnightMoveFacts.ChosenMoveIsOptimal and SuncharnMove.ChosenMoveIsOptimal assume every root child value lies strictly inside (-9e9, 9e9). Outside that window, the root search's result is only bounded, not exact.
- The root search functions (`RootSearchOf` in both agents) answer 0 off the legal moves. They are only applied to legal moves.
- `attackScore` and `defendScore` are modelled and proved, but they are not added into suncharn's getScore, because those lines are commented out in the source. The semi-danger squares are commented out too and are left out.
- `Sentinel` is written without the multiplication `-9e9 * playerToMove`. It agrees with it for the side codes 1 and -1 (`SentinelIsScaled`), which are the only values the search sees.
- Each call of `timeOut()` is an independent answer of the oracle. That a real clock, once past the limit, stays past it is not built in. The timeout lemmas use the two extremes: `AlwaysFires` for no thinking time and `NeverFires` for unlimited time.
