# Nine Men's Morris: the rules, the AI opponent and the game loop

This project models a console game of Nine Men's Morris: a human ('1')
against an AI ('2') of difficulty 1 to 5. The model covers three parts.

- **Board and rules** (`helper.py`). These are the 24 points, the adjacency
  table and the 16 three-point lines ("mills"). On top of them sit the
  mill test, piece counting, the mobility test and the removal rule: a
  piece outside its owner's mills may be taken, and when every piece is in
  a mill, any piece may be taken.
- **The AI** (`ai.py`, class `MorrisAI`). It builds candidate lists of
  empty points, adjacent moves and flights. It tests whether a point would
  complete a line for the AI or block one of the human's. It scores a
  point, a board, a candidate placement, a move, a flight and a removal.
  At level 1 each decision is a random choice. At level 2 placements and
  adjacent moves take the first candidate that completes an AI line, else
  the first that blocks a human line, else a random one. At the scoring
  levels each decision routine scans its candidates once and keeps the
  first with the highest score, except that a best placement or removal on
  point 0 falls back to a random choice. Scoring works by writing candidate
  moves onto the shared board and then restoring it.
- **The game loop** (`main.py`, `play_game`). Each round checks for a win,
  chooses the phase (placing, moving or flying), reads the human's move or
  asks the AI for one, writes it, performs the removal a new mill earns,
  and passes the turn.

Layout:

- `Board.dfy`: points, cells, boards, moves, the adjacency table and the
  lines, plus lemmas about their shape.
- `Rules.dfy`: `check_mill`, `count_pieces`, `can_move` and the removal
  rule.
- `AiEval.dfy`: the AI's candidate lists, tests and scores as functions,
  plus the generic first-maximum scan and the lemmas about all of them.
- `Ai.dfy`: class `MorrisAI`. Its methods run the source's loops over an
  `array<Cell>` that they temporarily write and then restore. The methods
  that build a candidate list or compute a score are proved equal to the
  matching function in `AiEval.dfy`. The methods that pick a candidate are
  proved to restore the board and to return a candidate the level allows:
  the one the level 2 rule (`Level2Pick`) names, the first maximum of the
  scores (`IsFirstMax`), or, where the code picks at random, any legal
  candidate. The predicates `PlacingChoice`, `MovingChoice`, `FlyingChoice`
  and `RemovalChoice` collect these rules per decision.
- `PlayGame.dfy`: class `Game`, the state `play_game` keeps between rounds,
  with one method per step of a round and `PlayRound` for a whole round.

Some behaviours of the code are modelled as written, although they read
like slips:

- The scans return `best or random.choice(...)`. Python treats point 0 as
  false, so when the best candidate is point 0 the placing and removal
  routines fall back to a random candidate. Moves and flights are pairs,
  which are never false, so their scans are not affected.
- The level 2 moving rule tests the destination on the board before the
  move, so the piece that leaves still counts toward the line
  (`Level2CountsTheLeavingPiece` exhibits such a board).
- At the start of a round the win check looks at the player who has just
  moved, not the player about to move. It uses the phase left over from
  the previous round.
- The phase test at `main.py:59` is `player1_placed < 9 or
  player2_placed < 9`, so both players stay in the placing phase until
  each has placed nine pieces, whoever is to move.

Some behaviours differ from what the code's own names and comments
suggest; the model follows what the code does:

- The level 4+ removal score at `ai.py:319-324` is commented as counting
  the moves the opponent loses, but `moves_before` is measured with the
  piece lifted and `moves_after` with it back in place. The score adds
  twice (the count with the piece minus the count without it).
- The guard `if target is not None` at `main.py:150` suggests a missing
  target is skipped, but `choose_piece_to_remove` never returns `None`:
  with no human piece, `random.choice` of the empty list raises
  (`ai.py:291` and `ai.py:330`), and `PlayRound` reports `Crashed`.

## Model

| member | source | states |
|---|---|---|
| Board.ConnectionsSymmetric | helper.py:4-13 | no point is its own neighbour; `j` is a neighbour of `i` exactly when `i` is a neighbour of `j` |
| Board.ConnectionsAtMostFour | helper.py:4-13 | no point has more than four neighbours |
| Board.MillsArePaths | helper.py:16-23 | each line runs along two edges of the adjacency table through three distinct points |
| Board.TwoMillsPerPoint | helper.py:16-23 | every point lies on exactly two of the 16 lines |
| Board.HoldingMeans | ai.py:10-16 | the list comprehension over `range(24)` holds exactly the points with the given occupant |
| Board.HoldingAscending | ai.py:10-16 | that list is strictly ascending |
| Rules.MillFromMeans | helper.py:56-60 | the scan from line `m` on succeeds exactly when some later line through `pos` is wholly `player`'s |
| Rules.CheckMillMeans | helper.py:56-60 | `check_mill` holds exactly when some line through `pos` is wholly `player`'s, and then `pos` holds `player` |
| Rules.CountPieces | helper.py:62-63 | the count is the length of the list of points holding the occupant, at most 24 |
| Rules.CountsCoverBoard | helper.py:62-63 | the counts of '1', '2' and empty add up to 24 |
| Rules.CountAfterWrite | helper.py:62-63 | writing `x` on a point raises the count of `x` by one and lowers the count of what was there by one |
| Rules.CountNone | helper.py:62-63 | a board where no point holds `c` counts zero `c` |
| Rules.SomeEmpty | helper.py:71-73 | true exactly when one of the listed neighbours is empty |
| Rules.MobileFromMeans | helper.py:69-74 | the scan from point `i` on succeeds exactly when a piece of `player` there has an empty neighbour |
| Rules.CanMoveMeans | helper.py:65-74 | with three pieces, `can_move` holds exactly when some point is empty; otherwise exactly when some piece has an empty neighbour |
| Rules.UnmilledMeans | helper.py:83-86 | the first list holds exactly the opponent's pieces that stand in none of the opponent's lines |
| Rules.RemovableMeans | helper.py:79-91 | the removable list holds only opponent pieces. It holds exactly the unmilled ones when there are any, and otherwise all of them. It is empty exactly when the opponent has no piece |
| Rules.RemovablePieces | helper.py:80-91 | the loop builds the removable list of the rule above |
| Rules.RemoveOpponentPiece | helper.py:76-108 | with no opponent piece the board is unchanged; otherwise the chosen removable opponent piece, and only it, becomes empty |
| AiEval.ValidPositionsMeans | ai.py:10-12 | the empty-point list holds exactly the empty points, as many as the count of empty points |
| AiEval.PlayerPieces | ai.py:14-16 | the piece list is as long as `count_pieces` |
| AiEval.PlayerPiecesMeans | ai.py:14-16 | the piece list holds exactly the points of that player |
| AiEval.ListsAscending | ai.py:10-16 | both lists are scanned in ascending point order |
| AiEval.StepsFromMeans | ai.py:24-26 | the inner loop yields exactly the pairs from the piece to an empty listed neighbour |
| AiEval.MovesFromMeans | ai.py:18-27 | the nested loops yield exactly the pairs from a listed piece to an empty neighbour |
| AiEval.ValidMovesMeans | ai.py:18-27 | `get_valid_moves` lists exactly the moves of a player's piece to an empty adjacent point |
| AiEval.RowMeans | ai.py:36-37 | one piece paired with every empty point, one pair per empty point |
| AiEval.FlightsFromMeans | ai.py:35-37 | the nested loops pair exactly the listed pieces with the listed empty points |
| AiEval.FlightsFromLength | ai.py:35-37 | there are (pieces × empty points) flights |
| AiEval.ValidFlightsMeans | ai.py:29-38 | `get_valid_flights` lists exactly the (own piece, empty point) pairs; its length is pieces × empty points |
| AiEval.CanMoveMatchesGenerators | helper.py:65-74 | `can_move` is true exactly when the AI's generator for that phase (flights with three pieces, adjacent moves otherwise) is non-empty |
| AiEval.PotentialMillMeans | ai.py:40-50 | a point would complete a line for `player` exactly when some line through it has its other two points held by `player` |
| AiEval.CheckBlockMillMeans | ai.py:52-62 | a point blocks exactly when some line through it has its other two points held by the opponent |
| AiEval.PositionBonus | ai.py:68-76 | the centre and corner bonus is at most 2, or 3 on point 16, which is in both lists |
| AiEval.MillPotential | ai.py:78-85 | no more lines count than pass through the point |
| AiEval.EvaluatePosition | ai.py:64-88 | a point's value is at most 4, or 5 on point 16 |
| AiEval.BoardScore | ai.py:90-103 | the board score is ten times the piece lead plus between 0 and 5 per AI piece |
| AiEval.ScanStep | ai.py:163-165 | a strict `>` comparison keeps the first maximum of the scores seen so far |
| AiEval.ScanDone | ai.py:139-165 | a finished scan over a non-empty list has found the first index with the largest score |
| AiEval.PlacingScore | ai.py:143-161 | a placing score is at least -240 (above the scan's start of -1000) |
| AiEval.FirstFive | ai.py:228 | the slice `[:5]` is the prefix of the moves of length five, or the whole list when it is shorter |
| AiEval.Threat | ai.py:224-235 | the threat term lies between -30 per examined reply and 0 |
| AiEval.MovedScore | ai.py:205-235 | a move's score, judged on the board with the move made, is at least -400 |
| AiEval.MoveScore | ai.py:198-239 | a move's score is at least -400 |
| AiEval.FlightScore | ai.py:261-278 | a flight's score is at least -240 |
| AiEval.MillsBroken | ai.py:305-311 | no more lines are counted than pass through the piece |
| AiEval.MillsBrokenMeans | ai.py:305-311 | some line is counted exactly when a line through the piece has its other points held by the opponent |
| AiEval.MillsBrokenIsCheckMill | ai.py:305-311 | for an opponent piece, a line counts as broken exactly when the piece stands in one of the opponent's mills, as `check_mill` decides |
| AiEval.RemovalScore | ai.py:302-324 | a removal score is at least -192 |
| AiEval.Level3PlacingPrefersMill | ai.py:142-165 | at level 3, if some empty point completes a line, the chosen point completes one |
| AiEval.Level3MovingPrefersMill | ai.py:198-243 | at level 3, if some move completes a line on the moved board, the chosen move completes one |
| AiEval.FlyingPrefersMill | ai.py:257-283 | below level 4, if some flight completes a line, the chosen flight completes one |
| AiEval.RemovalPrefersMilledPiece | ai.py:298-328 | below level 4, if some opposing piece stands in a mill, the chosen piece stands in one |
| Ai.Level3BestPlacementCanBePointZero | ai.py:137-167 | with the AI's pieces on 1 and 2 only, point 0 is the first empty point, the only one completing a line and the first maximum of the level 3 placing scores, so `best_pos or random.choice(...)` falls back to a random point |
| Ai.PointZeroFirstMax | ai.py:137-165 | the same facts on any board whose only pieces are the AI's on 1 and 2 |
| Ai.OnlyPointZeroCompletes | ai.py:40-62 | on such a board no point other than 0 completes an AI line or blocks a human one |
| Ai.Level2CountsTheLeavingPiece | ai.py:180-184 | with pieces on 1 and 2, the step 1 -> 0 is a legal move that passes the level 2 mill test, yet completes no line |
| Ai.MorrisAI.constructor | ai.py:5-8 | the AI plays '2' against '1' at the given difficulty on the shared board |
| Ai.MorrisAI.GetValidMoves | ai.py:18-27 | the loops return exactly the list `ValidMovesMeans` characterises |
| Ai.MorrisAI.StepsOf | ai.py:24-26 | the inner loop returns the steps of one piece to its empty neighbours |
| Ai.MorrisAI.GetValidFlights | ai.py:29-38 | the loops return exactly the list `ValidFlightsMeans` characterises |
| Ai.MorrisAI.MinimaxEvaluateBoard | ai.py:90-103 | the loop returns the board score that `BoardScore` bounds |
| Ai.MorrisAI.ScorePlacingCandidate | ai.py:143-161 | trying a placement out leaves the board as it was and yields that point's placing score |
| Ai.MorrisAI.PickLevel2Placement | ai.py:122-135 | the level 2 choice is the first point completing an AI line; failing that, the first blocking one; failing both, any empty point |
| Ai.MorrisAI.BestPlacement | ai.py:137-165 | the scan restores the board and returns the empty point at the first maximum of the placing scores |
| Ai.MorrisAI.MakePlacingMove | ai.py:114-167 | the board is restored and the result is an empty point for every level from 1; level 2 picks by the level 2 rule; level 3+ picks the first maximum of the placing scores unless that is point 0 (`PlacingChoice`); below level 1 there is no move |
| Ai.MorrisAI.OpponentThreat | ai.py:224-235 | trying the human's first five replies restores the board and yields -30 for each that completes a human line |
| Ai.MorrisAI.ScoreMovingCandidate | ai.py:198-239 | trying a move out restores the board and yields that move's score |
| Ai.MorrisAI.ScoreMovedBoard | ai.py:205-235 | on the moved board, the terms of the move's score are summed and the board is left as found |
| Ai.MorrisAI.PickLevel2Move | ai.py:180-191 | the level 2 move is the first whose destination completes an AI line on the unmoved board; failing that, the first that blocks; failing both, any move |
| Ai.MorrisAI.FirstCompleting | ai.py:182-184 | returns the first destination that completes an AI line, or -1 when none does |
| Ai.MorrisAI.FirstBlocking | ai.py:187-189 | returns the first destination that blocks a human line, or -1 when none does |
| Ai.MorrisAI.BestMove | ai.py:193-243 | the scan restores the board and returns the move at the first maximum of the move scores |
| Ai.MorrisAI.MakeMovingMove | ai.py:169-245 | the board is restored; there is no move exactly when there is no legal adjacent move or the level is below 1; any move returned is legal, chosen at level 2 by the level 2 rule on the destinations and from level 3 by the first maximum of the move scores (`MovingChoice`) |
| Ai.MorrisAI.ScoreFlightCandidate | ai.py:261-278 | trying a flight out restores the board and yields its score |
| Ai.MorrisAI.BestFlight | ai.py:257-283 | the scan restores the board and returns the flight at the first maximum of the flight scores |
| Ai.MorrisAI.MakeFlyingMove | ai.py:247-284 | the board is restored; there is no flight exactly when none is legal; any flight returned is legal, and from level 2 on it is the first maximum of the flight scores (`FlyingChoice`) |
| Ai.MorrisAI.ScoreRemovalCandidate | ai.py:301-324 | trying a removal out restores the board and yields that piece's removal score |
| Ai.MorrisAI.CountBrokenMills | ai.py:305-310 | the loop counts the lines through the lifted piece whose other points the human holds |
| Ai.MorrisAI.BestRemoval | ai.py:298-328 | the scan restores the board and returns the human piece at the first maximum of the removal scores |
| Ai.MorrisAI.ChoosePieceToRemove | ai.py:286-330 | the board is restored and a human piece is returned; from level 2 on it is the first maximum of the removal scores unless that piece is on point 0 (`RemovalChoice`) |
| Ai.MorrisAI.MakeMove | ai.py:105-112 | dispatches on the phase: a placement on an empty point, a legal adjacent move or a legal flight; no placement exactly when the level is below 1, no adjacent move exactly when there is none or the level is below 1, no flight exactly when there is none; each chosen as that phase's routine promises (`PlacingChoice`, `MovingChoice`, `FlyingChoice`) |
| PlayGame.PhaseMatchesCanMove | main.py:59-64 | past placing, the chosen phase names the generator whose emptiness `can_move` decides |
| PlayGame.PlacementMatchesValidPositions | main.py:82 | the human may place exactly on the AI's placing candidates |
| PlayGame.RelocationMatchesGenerators | main.py:111-114 | the human's move test accepts exactly the AI's adjacent moves (moving) or flights (flying) |
| PlayGame.AfterRemovalCounts | main.py:86-88 | a new line costs the opponent exactly one piece when they have one, and leaves the mover's count alone |
| PlayGame.PlaceCounts | main.py:82-84 | a placement adds one piece of the mover and leaves the other count alone |
| PlayGame.RelocateCounts | main.py:114-116 | a relocation changes neither count |
| PlayGame.GameOverMeans | main.py:47-56 | the game ends past placing when the player who just moved has fewer than three pieces, or (with three) no point is empty, or (otherwise) none of their pieces has an empty neighbour |
| PlayGame.EmptyPointExists | main.py:135-139 | while fewer than 24 pieces stand on the board, the AI's placing candidates are not empty |
| PlayGame.AiTurnCounts | main.py:135-171 | the AI's turn never adds a human piece, and adds an AI piece only by placing |
| PlayGame.Game.constructor | main.py:12-39 | a new game: empty board, nothing placed, the human to move, in the placing phase |
| PlayGame.Game.CheckWin | main.py:47-56 | the win check returns `GameOver` of the current state |
| PlayGame.Game.SelectPhase | main.py:58-64 | the phase becomes `PhaseOf` of the current state |
| PlayGame.Game.HumanPlace | main.py:80-89 | the placement is written, the placed counter rises, and a new line removes the chosen piece |
| PlayGame.Game.HumanRelocate | main.py:105-121 | the move is written, and a new line removes the chosen piece |
| PlayGame.Game.HumanTurn | main.py:66-129 | the human's turn yields `HumanTurnResult`; a placement adds one '1' piece; no '2' piece is ever added |
| PlayGame.Game.AiPlay | main.py:135-163 | the AI's move for the phase, chosen as its level dictates, is written on the board; a placement raises the AI's placed counter |
| PlayGame.Game.AiTurn | main.py:131-171 | the AI's move is legal for the phase and chosen as its level dictates; the board gets the move and, on a new line, the removal of the human piece the AI's removal rule picks; it crashes exactly when a line forms and the human has no piece, leaving the board with the move made |
| PlayGame.Game.SwitchPlayer | main.py:174 | the turn passes to the other player |
| PlayGame.Game.PlayRound | main.py:43-174 | a round ends the game exactly when the win check succeeds, naming the current player and changing nothing; it crashes exactly when the AI is to move, the win check fails, and the AI's move completes a line while the human has no piece, leaving the board with the AI's move made; otherwise it keeps the state consistent, switches player, records the phase it chose and raises the mover's placed counter exactly when placing; the human's round yields `HumanTurnResult`, the AI's round returns the AI's move and removal, chosen as its level dictates, and the board after them |

## Left out

- Printing the board and the prompts (`print_board`, `print_position_guide`, the messages of `play_game` and `remove_opponent_piece`) is output only and is not modelled.
- The human's input loops (retrying on text that is not a number, on `help`, or on an illegal position) are not modelled. A round takes the human's accepted move and removal choice as parameters, and their validity is a precondition.
- A human with no legal move is stuck in the input loop for ever. The model's precondition excludes this round instead.
- The difficulty prompt is not modelled: the `Game` constructor takes an accepted difficulty (1 to 5).
- `random.choice` is modelled as an arbitrary choice (`:|`). The uniform distribution is not modelled.
- The default `difficulty=1` of `MorrisAI.__init__` is left out: `Ai.MorrisAI.constructor` takes the level explicitly, as the game always passes one.
- The unused `pieces_left` argument of `make_move` is left out, and the phase is an enumeration rather than a string.
- The board is one array shared by the game and the AI, standing in for the module-level list that both files import.
- Ai.MorrisAI.MakePlacingMove: requires an empty point on the board. On a full board `random.choice` of the empty list raises an error at every level from 1, and the game never asks for a placement then (`EmptyPointExists`, used by `AiPlay`), so that error path is not modelled.
- Ai.MorrisAI.MakePlacingMove: at level 1 the contract says only that the point is empty. At level 3+ it says nothing about which point is returned when the best is point 0, because `best_pos or random.choice(...)` then picks at random.
- Ai.MorrisAI.ChoosePieceToRemove: at level 1 the contract says only that a human piece is chosen. From level 2 on it says nothing about the choice when the best is point 0, for the same reason.
- Ai.MorrisAI.MakeMovingMove: at level 1 the contract says only that the move is legal, since the choice is random.
- Ai.MorrisAI.MakeFlyingMove: at level 1 the contract says only that the flight is legal, since the choice is random.
- PlayGame.Game.AiTurn: on a crash the contract states the board with the move made but nothing after it. The program stops there with an error.
- PlayGame.Game.PlayRound: on a crash it states the board with the AI's move made and the phase, but not the counters or the turn, since the program has stopped.
- Integer widths do not matter: every score stays far inside machine ranges, and Python's integers are unbounded anyway.
