/**
 * The AI opponent (`MorrisAI`). Its decisions try candidates out on the
 * shared board itself, writing and then restoring points; every method
 * here returns the board exactly as it found it. Ties between equal scores
 * go to the candidate met first, because the scans keep a candidate only
 * when its score is strictly greater than the best so far (initially -1000).
 */
module Ai {
  import opened Board
  import opened Rules
  import opened AiEval

  /** The destination of every move of `ms`, in order. */
  function Destinations(ms: seq<(Pos, Pos)>): (r: seq<Pos>)
    ensures |r| == |ms| && forall i :: 0 <= i < |ms| ==> r[i] == ms[i].1
  {
    seq(|ms|, i requires 0 <= i < |ms| => ms[i].1)
  }

  /**
   * The level 2 rule, over candidate destinations in scan order: the first
   * that completes a line of `me`; failing that, the first that blocks a
   * line of the opponent; failing both, any candidate.
   */
  predicate Level2Pick(s: Board, targets: seq<Pos>, k: int, me: Cell) {
    && 0 <= k < |targets|
    && if exists j :: 0 <= j < |targets| && PotentialMill(s, targets[j], me) then
         PotentialMill(s, targets[k], me) && forall j :: 0 <= j < k ==> !PotentialMill(s, targets[j], me)
       else if exists j :: 0 <= j < |targets| && CheckBlockMill(s, targets[j], me) then
         CheckBlockMill(s, targets[k], me) && forall j :: 0 <= j < k ==> !CheckBlockMill(s, targets[j], me)
       else
         true
  }

  /**
   * The choice `make_placing_move` makes: at level 2 the point `Level2Pick`
   * allows; from level 3 on the first best-scoring point, unless that is
   * point 0, which is falsy and gives way to a random point.
   */
  ghost predicate PlacingChoice(s: Board, difficulty: int, me: Cell, pos: Pos) {
    && (difficulty == 2 ==> exists k :: Level2Pick(s, ValidPositions(s), k, me) && pos == ValidPositions(s)[k])
    && (difficulty >= 3 ==>
          exists k :: IsFirstMax(PlacingScores(s, me, difficulty), k) && (ValidPositions(s)[k] != 0 ==> pos == ValidPositions(s)[k]))
  }

  /** The choice `make_moving_move` makes: the level 2 rule at level 2, the first best-scoring move from level 3 on. */
  ghost predicate MovingChoice(s: Board, difficulty: int, me: Cell, mv: (Pos, Pos)) {
    && (difficulty == 2 ==> exists k :: Level2Pick(s, Destinations(ValidMoves(s, me)), k, me) && mv == ValidMoves(s, me)[k])
    && (difficulty >= 3 ==> exists k :: IsFirstMax(MoveScores(s, me, difficulty), k) && mv == ValidMoves(s, me)[k])
  }

  /** The choice `make_flying_move` makes: the first best-scoring flight at every level but 1. */
  ghost predicate FlyingChoice(s: Board, difficulty: int, me: Cell, mv: (Pos, Pos)) {
    difficulty != 1 ==> exists k :: IsFirstMax(FlightScores(s, me, difficulty), k) && mv == ValidFlights(s, me)[k]
  }

  /**
   * The choice `choose_piece_to_remove` makes: at every level but 1 the
   * first best-scoring opposing piece, unless that is on point 0.
   */
  ghost predicate RemovalChoice(s: Board, difficulty: int, me: Cell, target: Pos) {
    difficulty != 1 ==>
      exists k :: IsFirstMax(RemovalScores(s, me, difficulty), k)
        && (PlayerPieces(s, Other(me))[k] != 0 ==> target == PlayerPieces(s, Other(me))[k])
  }

  /**
   * The level 2 moving rule judges a destination on the board before the
   * move, so the piece that leaves still counts: with pieces on 1 and 2,
   * the step 1 -> 0 passes the first scan yet completes no line.
   */
  lemma Level2CountsTheLeavingPiece()
    ensures var s: Board := seq(24, i => if i == 1 || i == 2 then P2 else Empty);
      && (1, 0) in ValidMoves(s, P2)
      && PotentialMill(s, 0, P2)
      && !CheckMill(Apply(s, Relocate(1, 0), P2), 0, P2)
  {
    var s: Board := seq(24, i => if i == 1 || i == 2 then P2 else Empty);
    ValidMovesMeans(s, P2);
    CheckMillMeans(s[0 := P2], 0, P2);
    assert Mills(0).OwnedBy(s[0 := P2], P2);
    var a := Apply(s, Relocate(1, 0), P2);
    assert forall i :: 0 <= i < 24 && a[i] == P2 ==> i == 0 || i == 2;
    MillsArePaths();
    ConnectionsSymmetric();
    forall k | 0 <= k < NumMills
      ensures !Mills(k).OwnedBy(a, P2)
    {
      var line := Mills(k);
      assert line.a != line.b && line.b != line.c && line.a != line.c;
    }
    CheckMillMeans(a, 0, P2);
  }

  /**
   * With pieces on 1 and 2, point 0 is the only point that completes a line
   * and the first maximum of the level 3 placing scores; being falsy, it
   * sends `make_placing_move` to a random point instead.
   */
  lemma Level3BestPlacementCanBePointZero()
    ensures var s: Board := seq(24, i => if i == 1 || i == 2 then P2 else Empty);
      && ValidPositions(s) != [] && ValidPositions(s)[0] == 0
      && IsFirstMax(PlacingScores(s, P2, 3), 0)
      && PotentialMill(s, 0, P2)
      && forall j :: 0 < j < |ValidPositions(s)| ==> !PotentialMill(s, ValidPositions(s)[j], P2)
  {
    var s: Board := seq(24, i => if i == 1 || i == 2 then P2 else Empty);
    assert forall i :: 0 <= i < 24 ==> (s[i] == P2 <==> i == 1 || i == 2) && s[i] != P1;
    PointZeroFirstMax(s);
  }

  /** The same on any board whose only pieces are the AI's on 1 and 2. */
  lemma PointZeroFirstMax(s: Board)
    requires forall i :: 0 <= i < 24 ==> (s[i] == P2 <==> i == 1 || i == 2) && s[i] != P1
    ensures ValidPositions(s) != [] && ValidPositions(s)[0] == 0
    ensures IsFirstMax(PlacingScores(s, P2, 3), 0)
    ensures PotentialMill(s, 0, P2)
    ensures forall j :: 0 < j < |ValidPositions(s)| ==> !PotentialMill(s, ValidPositions(s)[j], P2)
  {
    var vp := ValidPositions(s);
    ValidPositionsMeans(s);
    ListsAscending(s, P2);
    assert 0 in vp;
    var z :| 0 <= z < |vp| && vp[z] == 0;
    assert vp[0] <= vp[z];
    PotentialMillMeans(s, 0, P2);
    assert Mills(0).Has(0) && Mills(0).OwnedExcept(s, 0, P2);
    var scores := PlacingScores(s, P2, 3);
    assert scores[0] >= 100;
    forall j | 0 < j < |scores|
      ensures scores[j] <= 25 && !PotentialMill(s, vp[j], P2)
    {
      assert vp[0] < vp[j];
      OnlyPointZeroCompletes(s, vp[j]);
    }
  }

  /** Line `k` has three distinct points, and line 0 is the only line through both 1 and 2. */
  lemma LineFacts(k: nat)
    requires k < NumMills
    ensures Mills(k).a != Mills(k).b && Mills(k).b != Mills(k).c && Mills(k).a != Mills(k).c
    ensures Mills(k).Has(1) && Mills(k).Has(2) ==> Mills(k) == Mill(0, 1, 2)
  {
  }

  /** On a board holding only the AI's pieces on 1 and 2, no point but 0 completes or blocks a line. */
  lemma OnlyPointZeroCompletes(s: Board, p: Pos)
    requires forall i :: 0 <= i < 24 ==> (s[i] == P2 <==> i == 1 || i == 2) && s[i] != P1
    requires p != 0
    ensures !PotentialMill(s, p, P2) && !CheckBlockMill(s, p, P2)
  {
    forall k | 0 <= k < NumMills
      ensures !Mills(k).OwnedExcept(s, p, P2) && !Mills(k).OwnedExcept(s, p, P1)
    {
      var line := Mills(k);
      LineFacts(k);
      assert s[line.a] != P1 && s[line.b] != P1;
      if line.Has(1) && line.Has(2) {
        assert s[0] == Empty;
      } else {
        assert s[line.a] == P2 ==> line.a == 1 || line.a == 2;
        assert s[line.b] == P2 ==> line.b == 1 || line.b == 2;
        assert s[line.c] == P2 ==> line.c == 1 || line.c == 2;
      }
    }
    PotentialMillMeans(s, p, P2);
    CheckBlockMillMeans(s, p, P2);
  }

  class MorrisAI {
    const difficulty: int
    const player: Cell := P2
    const opponent: Cell := P1
    /** The game's one board, which the AI reads and temporarily writes. */
    const board: array<Cell>

    predicate Valid() {
      board.Length == 24
    }

    constructor (difficulty: int, board: array<Cell>)
      requires board.Length == 24
      ensures Valid() && this.difficulty == difficulty && this.board == board
    {
      this.difficulty := difficulty;
      this.board := board;
    }

    /** `get_valid_moves`: the list built by the nested scan over pieces and neighbours. */
    method GetValidMoves(p: Cell) returns (moves: seq<(Pos, Pos)>)
      requires Valid()
      ensures moves == ValidMoves(board[..], p)
    {
      ghost var s := board[..];
      var pieces := PlayerPieces(board[..], p);
      moves := [];
      for i := 0 to |pieces|
        invariant moves == MovesFrom(s, pieces[..i])
      {
        var piece := pieces[i];
        var steps := StepsOf(piece);
        moves := moves + steps;
        MovesFromNext(s, pieces, i);
      }
      assert pieces[..|pieces|] == pieces;
    }

    /** The inner loop of `get_valid_moves`: the moves of the piece on `piece` to its empty neighbours. */
    method StepsOf(piece: Pos) returns (steps: seq<(Pos, Pos)>)
      requires Valid()
      ensures steps == StepsFrom(board[..], piece, Connections(piece))
    {
      var nbrs := Connections(piece);
      steps := [];
      for j := 0 to |nbrs|
        invariant steps == StepsFrom(board[..], piece, nbrs[..j])
      {
        var adjacent := nbrs[j];
        if board[adjacent] == Empty {
          steps := steps + [(piece, adjacent)];
        }
        assert nbrs[..j + 1][..j] == nbrs[..j];
      }
      assert nbrs[..|nbrs|] == nbrs;
    }

    /** `get_valid_flights`: every own piece paired with every empty point. */
    method GetValidFlights(p: Cell) returns (moves: seq<(Pos, Pos)>)
      requires Valid()
      ensures moves == ValidFlights(board[..], p)
    {
      var pieces := PlayerPieces(board[..], p);
      var empty := ValidPositions(board[..]);
      moves := [];
      for i := 0 to |pieces|
        invariant moves == FlightsFrom(pieces[..i], empty)
      {
        var piece := pieces[i];
        for j := 0 to |empty|
          invariant moves == FlightsFrom(pieces[..i], empty) + Row(piece, empty[..j])
        {
          moves := moves + [(piece, empty[j])];
          assert empty[..j + 1][..j] == empty[..j];
        }
        assert empty[..|empty|] == empty;
        assert pieces[..i + 1][..i] == pieces[..i];
      }
      assert pieces[..|pieces|] == pieces;
    }

    /** `minimax_evaluate_board`: piece advantage times ten plus the evaluation of every own point. */
    method MinimaxEvaluateBoard() returns (score: int)
      requires Valid()
      ensures score == BoardScore(board[..], player)
    {
      var aiPieces := CountPieces(board[..], player);
      var opponentPieces := CountPieces(board[..], opponent);
      score := (aiPieces - opponentPieces) * 10;
      var aiPositions := PlayerPieces(board[..], player);
      for i := 0 to |aiPositions|
        invariant score == (aiPieces - opponentPieces) * 10 + SumEvaluations(board[..], aiPositions[..i], player)
      {
        score := score + EvaluatePosition(board[..], aiPositions[i], player);
        assert aiPositions[..i + 1][..i] == aiPositions[..i];
      }
      assert aiPositions[..|aiPositions|] == aiPositions;
    }

    /** The level 3+ placing score of one empty point (the body of the scan in `make_placing_move`). */
    method ScorePlacingCandidate(p: Pos) returns (score: int)
      requires Valid()
      requires board[p] == Empty
      modifies board
      ensures board[..] == old(board[..])
      ensures score == PlacingScore(old(board[..]), p, player, difficulty)
    {
      ghost var s := board[..];
      score := 0;
      if PotentialMill(board[..], p, player) {
        score := score + 100;
      }
      if CheckBlockMill(board[..], p, player) {
        score := score + 50;
      }
      score := score + EvaluatePosition(board[..], p, player) * 5;
      if difficulty >= 4 {
        board[p] := player;
        assert board[..] == s[p := player];
        var lookahead := MinimaxEvaluateBoard();
        score := score + lookahead;
        board[p] := Empty;
        assert board[..] == s;
      }
    }

    /** The level 2 placing rule of `make_placing_move`: two scans, then a random empty point. */
    method PickLevel2Placement(validPositions: seq<Pos>) returns (pos: Pos)
      requires Valid()
      requires validPositions != []
      ensures exists k :: Level2Pick(board[..], validPositions, k, player) && pos == validPositions[k]
    {
      for i := 0 to |validPositions|
        invariant forall j :: 0 <= j < i ==> !PotentialMill(board[..], validPositions[j], player)
      {
        if PotentialMill(board[..], validPositions[i], player) {
          assert Level2Pick(board[..], validPositions, i, player);
          return validPositions[i];
        }
      }
      for i := 0 to |validPositions|
        invariant forall j :: 0 <= j < i ==> !CheckBlockMill(board[..], validPositions[j], player)
      {
        if CheckBlockMill(board[..], validPositions[i], player) {
          assert Level2Pick(board[..], validPositions, i, player);
          return validPositions[i];
        }
      }
      var k :| 0 <= k < |validPositions|;
      assert Level2Pick(board[..], validPositions, k, player);
      pos := validPositions[k];
    }

    /** The level 3+ scan of `make_placing_move`: the first empty point with the highest score. */
    method BestPlacement(validPositions: seq<Pos>) returns (best: Pos)
      requires Valid()
      requires validPositions == ValidPositions(board[..]) && validPositions != []
      modifies board
      ensures board[..] == old(board[..])
      ensures old(board[best]) == Empty
      ensures exists k :: IsFirstMax(PlacingScores(old(board[..]), player, difficulty), k) && best == validPositions[k]
    {
      ghost var s := board[..];
      ghost var scores := PlacingScores(s, player, difficulty);
      var bestPos: Option<Pos> := None;
      var bestScore := -1000;
      ghost var bi := 0;
      for i := 0 to |validPositions|
        invariant board[..] == s
        invariant ScanState(scores, i, bi, bestScore)
        invariant i > 0 ==> bestPos == Some(validPositions[bi])
      {
        var p := validPositions[i];
        ValidPositionAt(s, i);
        var score := ScorePlacingCandidate(p);
        assert score == scores[i];
        ScanStep(scores, i, bi, bestScore);
        if score > bestScore {
          bestScore := score;
          bestPos := Some(p);
          bi := i;
        }
      }
      ScanDone(scores, bi, bestScore);
      ValidPositionAt(s, bi);
      best := bestPos.value;
    }

    /**
     * `make_placing_move`. Level 1 picks any empty point; level 2 follows
     * `Level2Pick`; level 3 and up take the first best-scoring point, except
     * that a best point 0 is falsy and falls back to any empty point. Below
     * level 1 no branch applies and nothing is returned.
     */
    method MakePlacingMove() returns (pos: Option<Pos>)
      requires Valid()
      requires Empty in board[..]
      modifies board
      ensures board[..] == old(board[..])
      ensures pos.None? <==> difficulty < 1
      ensures pos.Some? ==> old(board[pos.value]) == Empty
      ensures pos.Some? ==> PlacingChoice(old(board[..]), difficulty, player, pos.value)
    {
      ghost var s := board[..];
      var validPositions := ValidPositions(board[..]);
      ValidPositionsMeans(s);
      assert validPositions != [] by {
        var e :| 0 <= e < 24 && s[e] == Empty;
        assert e in validPositions;
      }
      if difficulty == 1 {
        var k :| 0 <= k < |validPositions|;
        assert validPositions[k] in validPositions;
        pos := Some(validPositions[k]);
      } else if difficulty == 2 {
        var p := PickLevel2Placement(validPositions);
        ghost var k :| Level2Pick(s, validPositions, k, player) && p == validPositions[k];
        ValidPositionAt(s, k);
        pos := Some(p);
      } else if difficulty >= 3 {
        var best := BestPlacement(validPositions);
        if best != 0 {
          pos := Some(best);
        } else {
          var k :| 0 <= k < |validPositions|;
          assert validPositions[k] in validPositions;
          pos := Some(validPositions[k]);
        }
      } else {
        pos := None;
      }
    }

    /** The level 5 look at the opponent's replies: -30 for each of their first five moves that would complete a line. */
    method OpponentThreat() returns (threat: int)
      requires Valid()
      modifies board
      ensures board[..] == old(board[..])
      ensures threat == Threat(old(board[..]), FirstFive(ValidMoves(old(board[..]), opponent)), player)
    {
      ghost var s := board[..];
      var opponentMoves := GetValidMoves(opponent);
      var firstFive := FirstFive(opponentMoves);
      threat := 0;
      for i := 0 to |firstFive|
        invariant board[..] == s
        invariant threat == Threat(s, firstFive[..i], player)
      {
        var (oppFrom, oppTo) := firstFive[i];
        assert firstFive[i] == opponentMoves[i];
        ValidMoveAt(s, opponent, i);
        board[oppFrom] := Empty;
        board[oppTo] := opponent;
        assert board[..] == s[oppFrom := Empty][oppTo := opponent];
        if PotentialMill(board[..], oppTo, opponent) {
          threat := threat - 30;
        }
        board[oppFrom] := opponent;
        board[oppTo] := Empty;
        assert board[..] == s;
        assert firstFive[..i + 1][..i] == firstFive[..i];
      }
      assert firstFive[..|firstFive|] == firstFive;
    }

    /** The level 3+ score of one adjacent move, tried out on the board (the body of the scan in `make_moving_move`). */
    method ScoreMovingCandidate(fromPos: Pos, toPos: Pos) returns (score: int)
      requires Valid()
      requires board[fromPos] == player && board[toPos] == Empty
      modifies board
      ensures board[..] == old(board[..])
      ensures score == MoveScore(old(board[..]), fromPos, toPos, player, difficulty)
    {
      ghost var s := board[..];
      board[fromPos] := Empty;
      board[toPos] := player;
      assert board[..] == s[fromPos := Empty][toPos := player];
      score := ScoreMovedBoard(fromPos, toPos);
      board[toPos] := Empty;
      board[fromPos] := player;
      assert board[..] == s;
    }

    /** The scoring of `make_moving_move`'s scan, on the board with the move from `fromPos` to `toPos` already made. */
    method ScoreMovedBoard(fromPos: Pos, toPos: Pos) returns (score: int)
      requires Valid()
      requires board[fromPos] == Empty && board[toPos] == player
      modifies board
      ensures board[..] == old(board[..])
      ensures score == MovedScore(old(board[..]), fromPos, toPos, player, difficulty)
    {
      ghost var after := board[..];
      score := 0;
      if PotentialMill(board[..], toPos, player) {
        score := score + 100;
      }
      board[toPos] := Empty;
      assert board[..] == after[toPos := Empty];
      if CheckBlockMill(board[..], toPos, player) {
        score := score + 50;
      }
      board[toPos] := player;
      assert board[..] == after;
      score := score + EvaluatePosition(board[..], toPos, player) * 3;
      score := score - EvaluatePosition(board[..], fromPos, player) * 2;
      if difficulty >= 4 {
        var lookahead := MinimaxEvaluateBoard();
        score := score + lookahead;
      }
      if difficulty == 5 {
        var threat := OpponentThreat();
        score := score + threat;
      }
    }

    /** The level 2 moving rule of `make_moving_move`, judged on the board before the move: two scans, then a random move. */
    method PickLevel2Move(validMoves: seq<(Pos, Pos)>) returns (move: (Pos, Pos))
      requires Valid()
      requires validMoves != []
      ensures exists k :: Level2Pick(board[..], Destinations(validMoves), k, player) && move == validMoves[k]
    {
      var targets := Destinations(validMoves);
      var k := FirstCompleting(targets);
      if k < 0 {
        k := FirstBlocking(targets);
        if k < 0 {
          k :| 0 <= k < |validMoves|;
        }
      }
      assert Level2Pick(board[..], targets, k, player);
      move := validMoves[k];
    }

    /** The first scan of the level 2 moving rule: the first destination that completes a line of the AI, or -1. */
    method FirstCompleting(targets: seq<Pos>) returns (k: int)
      requires Valid()
      ensures -1 <= k < |targets|
      ensures k >= 0 ==> PotentialMill(board[..], targets[k], player)
      ensures forall j :: 0 <= j < |targets| && (k < 0 || j < k) ==> !PotentialMill(board[..], targets[j], player)
    {
      for i := 0 to |targets|
        invariant forall j :: 0 <= j < i ==> !PotentialMill(board[..], targets[j], player)
      {
        if PotentialMill(board[..], targets[i], player) {
          return i;
        }
      }
      k := -1;
    }

    /** The second scan of the level 2 moving rule: the first destination that blocks a line of the opponent, or -1. */
    method FirstBlocking(targets: seq<Pos>) returns (k: int)
      requires Valid()
      ensures -1 <= k < |targets|
      ensures k >= 0 ==> CheckBlockMill(board[..], targets[k], player)
      ensures forall j :: 0 <= j < |targets| && (k < 0 || j < k) ==> !CheckBlockMill(board[..], targets[j], player)
    {
      for i := 0 to |targets|
        invariant forall j :: 0 <= j < i ==> !CheckBlockMill(board[..], targets[j], player)
      {
        if CheckBlockMill(board[..], targets[i], player) {
          return i;
        }
      }
      k := -1;
    }

    /** The level 3+ scan of `make_moving_move`: the first adjacent move with the highest score. */
    method BestMove(validMoves: seq<(Pos, Pos)>) returns (move: (Pos, Pos))
      requires Valid()
      requires validMoves == ValidMoves(board[..], player) && validMoves != []
      modifies board
      ensures board[..] == old(board[..])
      ensures exists k :: IsFirstMax(MoveScores(old(board[..]), player, difficulty), k) && move == validMoves[k]
    {
      ghost var s := board[..];
      ghost var scores := MoveScores(s, player, difficulty);
      var bestMove: Option<(Pos, Pos)> := None;
      var bestScore := -1000;
      ghost var bi := 0;
      for i := 0 to |validMoves|
        invariant board[..] == s
        invariant ScanState(scores, i, bi, bestScore)
        invariant i > 0 ==> bestMove == Some(validMoves[bi])
      {
        var (fromPos, toPos) := validMoves[i];
        ValidMoveAt(s, player, i);
        var score := ScoreMovingCandidate(fromPos, toPos);
        assert score == scores[i];
        ScanStep(scores, i, bi, bestScore);
        if score > bestScore {
          bestScore := score;
          bestMove := Some((fromPos, toPos));
          bi := i;
        }
      }
      ScanDone(scores, bi, bestScore);
      move := bestMove.value;
    }

    /**
     * `make_moving_move`. No adjacent move (or a level below 1) gives None;
     * level 1 picks any move, level 2 follows `Level2Pick` on the board as it
     * stands, level 3 and up take the first best-scoring move.
     */
    method MakeMovingMove() returns (move: Option<(Pos, Pos)>)
      requires Valid()
      modifies board
      ensures board[..] == old(board[..])
      ensures move.None? <==> ValidMoves(old(board[..]), player) == [] || difficulty < 1
      ensures move.Some? ==> move.value in ValidMoves(old(board[..]), player)
      ensures move.Some? ==> MovingChoice(old(board[..]), difficulty, player, move.value)
    {
      var validMoves := GetValidMoves(player);
      if validMoves == [] {
        return None;
      }
      if difficulty == 1 {
        var k :| 0 <= k < |validMoves|;
        move := Some(validMoves[k]);
      } else if difficulty == 2 {
        var mv := PickLevel2Move(validMoves);
        move := Some(mv);
      } else if difficulty >= 3 {
        var mv := BestMove(validMoves);
        move := Some(mv);
      } else {
        move := None;
      }
    }

    /** The level 2+ score of one flight, tried out on the board (the body of the scan in `make_flying_move`). */
    method ScoreFlightCandidate(fromPos: Pos, toPos: Pos) returns (score: int)
      requires Valid()
      requires board[fromPos] == player && board[toPos] == Empty
      modifies board
      ensures board[..] == old(board[..])
      ensures score == FlightScore(old(board[..]), fromPos, toPos, player, difficulty)
    {
      ghost var s := board[..];
      score := 0;
      board[fromPos] := Empty;
      board[toPos] := player;
      assert board[..] == s[fromPos := Empty][toPos := player];
      if PotentialMill(board[..], toPos, player) {
        score := score + 100;
      }
      score := score + EvaluatePosition(board[..], toPos, player) * 2;
      if difficulty >= 4 {
        var lookahead := MinimaxEvaluateBoard();
        score := score + lookahead;
      }
      board[toPos] := Empty;
      board[fromPos] := player;
      assert board[..] == s;
    }

    /** The scan of `make_flying_move`: the first flight with the highest score. */
    method BestFlight(validMoves: seq<(Pos, Pos)>) returns (move: (Pos, Pos))
      requires Valid()
      requires validMoves == ValidFlights(board[..], player) && validMoves != []
      modifies board
      ensures board[..] == old(board[..])
      ensures exists k :: IsFirstMax(FlightScores(old(board[..]), player, difficulty), k) && move == validMoves[k]
    {
      ghost var s := board[..];
      ghost var scores := FlightScores(s, player, difficulty);
      var bestMove: Option<(Pos, Pos)> := None;
      var bestScore := -1000;
      ghost var bi := 0;
      for i := 0 to |validMoves|
        invariant board[..] == s
        invariant ScanState(scores, i, bi, bestScore)
        invariant i > 0 ==> bestMove == Some(validMoves[bi])
      {
        var (fromPos, toPos) := validMoves[i];
        ValidFlightAt(s, player, i);
        var score := ScoreFlightCandidate(fromPos, toPos);
        assert score == scores[i];
        ScanStep(scores, i, bi, bestScore);
        if score > bestScore {
          bestScore := score;
          bestMove := Some((fromPos, toPos));
          bi := i;
        }
      }
      ScanDone(scores, bi, bestScore);
      move := bestMove.value;
    }

    /**
     * `make_flying_move`. No flight gives None; level 1 picks any flight,
     * every other level takes the first best-scoring flight.
     */
    method MakeFlyingMove() returns (move: Option<(Pos, Pos)>)
      requires Valid()
      modifies board
      ensures board[..] == old(board[..])
      ensures move.None? <==> ValidFlights(old(board[..]), player) == []
      ensures move.Some? ==> move.value in ValidFlights(old(board[..]), player)
      ensures move.Some? ==> FlyingChoice(old(board[..]), difficulty, player, move.value)
    {
      var validMoves := GetValidFlights(player);
      if validMoves == [] {
        return None;
      }
      if difficulty == 1 {
        var k :| 0 <= k < |validMoves|;
        return Some(validMoves[k]);
      }
      var mv := BestFlight(validMoves);
      move := Some(mv);
    }

    /** The level 2+ score of removing one opposing piece, tried out on the board (the body of the scan in `choose_piece_to_remove`). */
    method ScoreRemovalCandidate(piece: Pos) returns (score: int)
      requires Valid()
      requires board[piece] == opponent
      modifies board
      ensures board[..] == old(board[..])
      ensures score == RemovalScore(old(board[..]), piece, player, difficulty)
    {
      ghost var s := board[..];
      score := 0;
      board[piece] := Empty;
      var millsBroken := CountBrokenMills(piece);
      board[piece] := opponent;
      assert board[..] == s;
      score := score + millsBroken * 50;
      score := score + EvaluatePosition(board[..], piece, player) * 3;
      if difficulty >= 4 {
        board[piece] := Empty;
        var movesBefore := GetValidMoves(opponent);
        board[piece] := opponent;
        assert board[..] == s;
        var movesAfter := GetValidMoves(opponent);
        score := score + (|movesAfter| - |movesBefore|) * 2;
      }
    }

    /** The mill count of `choose_piece_to_remove`, on the board with `piece` already lifted. */
    method CountBrokenMills(piece: Pos) returns (millsBroken: nat)
      requires Valid()
      ensures millsBroken == MillsBroken(board[..], piece, opponent, NumMills)
    {
      millsBroken := 0;
      for m := 0 to NumMills
        invariant millsBroken == MillsBroken(board[..], piece, opponent, m)
      {
        var mill := Mills(m);
        if mill.Has(piece) && mill.OwnedExcept(board[..], piece, opponent) {
          millsBroken := millsBroken + 1;
        }
      }
    }

    /** The level 2+ scan of `choose_piece_to_remove`: the first opposing piece with the highest score. */
    method BestRemoval(opponentPieces: seq<Pos>) returns (target: Pos)
      requires Valid()
      requires opponentPieces == PlayerPieces(board[..], opponent) && opponentPieces != []
      modifies board
      ensures board[..] == old(board[..])
      ensures old(board[target]) == opponent
      ensures exists k :: IsFirstMax(RemovalScores(old(board[..]), player, difficulty), k) && target == opponentPieces[k]
    {
      ghost var s := board[..];
      ghost var scores := RemovalScores(s, player, difficulty);
      var bestTarget: Option<Pos> := None;
      var bestScore := -1000;
      ghost var bi := 0;
      for i := 0 to |opponentPieces|
        invariant board[..] == s
        invariant ScanState(scores, i, bi, bestScore)
        invariant i > 0 ==> bestTarget == Some(opponentPieces[bi])
      {
        var piece := opponentPieces[i];
        PlayerPieceAt(s, opponent, i);
        var score := ScoreRemovalCandidate(piece);
        assert score == scores[i];
        ScanStep(scores, i, bi, bestScore);
        if score > bestScore {
          bestScore := score;
          bestTarget := Some(piece);
          bi := i;
        }
      }
      ScanDone(scores, bi, bestScore);
      PlayerPieceAt(s, opponent, bi);
      target := bestTarget.value;
    }

    /**
     * `choose_piece_to_remove`: any opposing piece at level 1; otherwise the
     * first best-scoring one, except that a best point 0 is falsy and falls
     * back to any opposing piece. Mill protection is not applied.
     */
    method ChoosePieceToRemove() returns (target: Pos)
      requires Valid()
      requires opponent in board[..]
      modifies board
      ensures board[..] == old(board[..])
      ensures old(board[target]) == opponent
      ensures RemovalChoice(old(board[..]), difficulty, player, target)
    {
      ghost var s := board[..];
      var opponentPieces := PlayerPieces(board[..], opponent);
      PlayerPiecesMeans(s, opponent);
      assert opponentPieces != [] by {
        var e :| 0 <= e < 24 && s[e] == opponent;
        assert e in opponentPieces;
      }
      if difficulty == 1 {
        var k :| 0 <= k < |opponentPieces|;
        assert opponentPieces[k] in opponentPieces;
        return opponentPieces[k];
      }
      var best := BestRemoval(opponentPieces);
      if best != 0 {
        target := best;
      } else {
        var k :| 0 <= k < |opponentPieces|;
        assert opponentPieces[k] in opponentPieces;
        target := opponentPieces[k];
      }
    }

    /** `make_move`, with the phase as an enumeration instead of a string. */
    method MakeMove(phase: Phase) returns (m: Option<Move>)
      requires Valid()
      requires phase == Placing ==> Empty in board[..]
      modifies board
      ensures board[..] == old(board[..])
      ensures m.Some? ==> (m.value.Place? <==> phase == Placing)
      ensures m.Some? && m.value.Place? ==> old(board[m.value.pos]) == Empty
      ensures phase == Placing ==> (m.None? <==> difficulty < 1)
      ensures phase == Moving ==> (m.None? <==> ValidMoves(old(board[..]), player) == [] || difficulty < 1)
      ensures phase == Moving && m.Some? ==> (m.value.from, m.value.to) in ValidMoves(old(board[..]), player)
      ensures phase == Flying ==> (m.None? <==> ValidFlights(old(board[..]), player) == [])
      ensures phase == Flying && m.Some? ==> (m.value.from, m.value.to) in ValidFlights(old(board[..]), player)
      ensures phase == Placing && m.Some? ==> PlacingChoice(old(board[..]), difficulty, player, m.value.pos)
      ensures phase == Moving && m.Some? ==> MovingChoice(old(board[..]), difficulty, player, (m.value.from, m.value.to))
      ensures phase == Flying && m.Some? ==> FlyingChoice(old(board[..]), difficulty, player, (m.value.from, m.value.to))
    {
      match phase
      case Placing =>
        var pos := MakePlacingMove();
        m := if pos.Some? then Some(Place(pos.value)) else None;
      case Moving =>
        var mv := MakeMovingMove();
        m := if mv.Some? then Some(Relocate(mv.value.0, mv.value.1)) else None;
      case Flying =>
        var mv := MakeFlyingMove();
        m := if mv.Some? then Some(Relocate(mv.value.0, mv.value.1)) else None;
    }
  }
}
