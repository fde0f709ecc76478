/**
 * The read-only side of the AI opponent: its candidate lists, its
 * hypothetical mill checks, its position and board scores, and the score
 * every decision level gives one candidate. The decision methods in module
 * Ai are proved against these functions.
 */
module AiEval {
  import opened Board
  import opened Rules

  /** `get_valid_positions`: the empty points, ascending. */
  function ValidPositions(s: Board): seq<Pos> {
    Holding(s, Empty, 24)
  }

  lemma ValidPositionsMeans(s: Board)
    ensures forall i :: i in ValidPositions(s) <==> 0 <= i < 24 && s[i] == Empty
    ensures |ValidPositions(s)| == CountPieces(s, Empty)
  {
    HoldingMeans(s, Empty, 24);
  }

  /** `get_player_pieces`: the points holding `player`, ascending. */
  function PlayerPieces(s: Board, player: Cell): (r: seq<Pos>)
    ensures |r| == CountPieces(s, player)
  {
    Holding(s, player, 24)
  }

  lemma PlayerPiecesMeans(s: Board, player: Cell)
    ensures forall i :: i in PlayerPieces(s, player) <==> 0 <= i < 24 && s[i] == player
  {
    HoldingMeans(s, player, 24);
  }

  /** One entry of `get_valid_positions`, for loops that visit them in turn. */
  lemma ValidPositionAt(s: Board, i: int)
    requires 0 <= i < |ValidPositions(s)|
    ensures s[ValidPositions(s)[i]] == Empty
  {
    ValidPositionsMeans(s);
    assert ValidPositions(s)[i] in ValidPositions(s);
  }

  /** One entry of `get_player_pieces`. */
  lemma PlayerPieceAt(s: Board, player: Cell, i: int)
    requires 0 <= i < |PlayerPieces(s, player)|
    ensures s[PlayerPieces(s, player)[i]] == player
  {
    PlayerPiecesMeans(s, player);
    assert PlayerPieces(s, player)[i] in PlayerPieces(s, player);
  }

  /** Both candidate lists are scanned in ascending point order. */
  lemma ListsAscending(s: Board, player: Cell)
    ensures forall j, k :: 0 <= j < k < |ValidPositions(s)| ==> ValidPositions(s)[j] < ValidPositions(s)[k]
    ensures forall j, k :: 0 <= j < k < |PlayerPieces(s, player)| ==> PlayerPieces(s, player)[j] < PlayerPieces(s, player)[k]
  {
    HoldingAscending(s, Empty, 24);
    HoldingAscending(s, player, 24);
  }

  /** The steps from `f` to the empty points among `nbrs`, in the order of `nbrs`. */
  function StepsFrom(s: Board, f: Pos, nbrs: seq<Pos>): (r: seq<(Pos, Pos)>)
    ensures |r| <= |nbrs|
  {
    if nbrs == [] then []
    else
      var t := nbrs[|nbrs| - 1];
      StepsFrom(s, f, nbrs[..|nbrs| - 1]) + (if s[t] == Empty then [(f, t)] else [])
  }

  lemma {:induction false} StepsFromMeans(s: Board, f: Pos, nbrs: seq<Pos>)
    ensures forall m :: m in StepsFrom(s, f, nbrs) <==> m.0 == f && m.1 in nbrs && s[m.1] == Empty
  {
    if nbrs != [] {
      var prev := nbrs[..|nbrs| - 1];
      StepsFromMeans(s, f, prev);
      assert forall t :: t in nbrs <==> t in prev || t == nbrs[|nbrs| - 1];
    }
  }

  /** The adjacent steps of every piece in `pieces`, piece by piece. */
  function MovesFrom(s: Board, pieces: seq<Pos>): (r: seq<(Pos, Pos)>)
    ensures |r| <= 4 * |pieces|
  {
    if pieces == [] then []
    else
      var f := pieces[|pieces| - 1];
      ConnectionsAtMostFour(f);
      MovesFrom(s, pieces[..|pieces| - 1]) + StepsFrom(s, f, Connections(f))
  }

  /** The moves of `pieces[..i + 1]` extend those of `pieces[..i]` by the steps of `pieces[i]`. */
  lemma MovesFromNext(s: Board, pieces: seq<Pos>, i: int)
    requires 0 <= i < |pieces|
    ensures MovesFrom(s, pieces[..i + 1]) == MovesFrom(s, pieces[..i]) + StepsFrom(s, pieces[i], Connections(pieces[i]))
  {
    assert pieces[..i + 1][..i] == pieces[..i];
  }

  lemma {:induction false} MovesFromMeans(s: Board, pieces: seq<Pos>)
    ensures forall m :: m in MovesFrom(s, pieces) <==> m.0 in pieces && m.1 in Connections(m.0) && s[m.1] == Empty
  {
    if pieces != [] {
      var prev := pieces[..|pieces| - 1];
      var f := pieces[|pieces| - 1];
      MovesFromMeans(s, prev);
      StepsFromMeans(s, f, Connections(f));
      assert forall g :: g in pieces <==> g in prev || g == f;
    }
  }

  /**
   * The list `get_valid_moves` builds: every (own piece, empty neighbour)
   * pair, pieces ascending and neighbours in table order.
   */
  function ValidMoves(s: Board, player: Cell): (r: seq<(Pos, Pos)>)
    ensures |r| <= 96
  {
    MovesFrom(s, PlayerPieces(s, player))
  }

  /** A move is listed iff it takes a piece of `player` to an empty neighbouring point. */
  lemma ValidMovesMeans(s: Board, player: Cell)
    ensures forall f: Pos, t: Pos :: (f, t) in ValidMoves(s, player) <==> s[f] == player && t in Connections(f) && s[t] == Empty
    ensures forall m :: m in ValidMoves(s, player) ==> s[m.0] == player && m.1 in Connections(m.0) && s[m.1] == Empty
  {
    MovesFromMeans(s, PlayerPieces(s, player));
    PlayerPiecesMeans(s, player);
  }

  /** `f` paired with every point of `empties`, in order. */
  function Row(f: Pos, empties: seq<Pos>): seq<(Pos, Pos)> {
    if empties == [] then [] else Row(f, empties[..|empties| - 1]) + [(f, empties[|empties| - 1])]
  }

  lemma {:induction false} RowMeans(f: Pos, empties: seq<Pos>)
    ensures |Row(f, empties)| == |empties|
    ensures forall m :: m in Row(f, empties) <==> m.0 == f && m.1 in empties
  {
    if empties != [] {
      var prev := empties[..|empties| - 1];
      RowMeans(f, prev);
      assert forall t :: t in empties <==> t in prev || t == empties[|empties| - 1];
    }
  }

  /** Every piece of `pieces` paired with every point of `empties`, piece by piece. */
  function FlightsFrom(pieces: seq<Pos>, empties: seq<Pos>): seq<(Pos, Pos)> {
    if pieces == [] then []
    else FlightsFrom(pieces[..|pieces| - 1], empties) + Row(pieces[|pieces| - 1], empties)
  }

  lemma {:induction false} FlightsFromMeans(pieces: seq<Pos>, empties: seq<Pos>)
    ensures forall m :: m in FlightsFrom(pieces, empties) <==> m.0 in pieces && m.1 in empties
  {
    if pieces != [] {
      var prev := pieces[..|pieces| - 1];
      FlightsFromMeans(prev, empties);
      RowMeans(pieces[|pieces| - 1], empties);
      assert forall f :: f in pieces <==> f in prev || f == pieces[|pieces| - 1];
    }
  }

  lemma {:induction false} FlightsFromLength(pieces: seq<Pos>, empties: seq<Pos>)
    ensures |FlightsFrom(pieces, empties)| == |pieces| * |empties|
  {
    if pieces != [] {
      var prev := pieces[..|pieces| - 1];
      FlightsFromLength(prev, empties);
      RowMeans(pieces[|pieces| - 1], empties);
      calc {
        |FlightsFrom(pieces, empties)|;
        |FlightsFrom(prev, empties)| + |empties|;
        |prev| * |empties| + |empties|;
        (|prev| + 1) * |empties|;
      }
    }
  }

  /** One entry of `get_valid_moves`. */
  lemma ValidMoveAt(s: Board, player: Cell, i: int)
    requires 0 <= i < |ValidMoves(s, player)|
    ensures var m := ValidMoves(s, player)[i]; s[m.0] == player && m.1 in Connections(m.0) && s[m.1] == Empty
  {
    ValidMovesMeans(s, player);
    assert ValidMoves(s, player)[i] in ValidMoves(s, player);
  }

  /** The list `get_valid_flights` builds: every (own piece, empty point) pair. */
  function ValidFlights(s: Board, player: Cell): seq<(Pos, Pos)> {
    FlightsFrom(PlayerPieces(s, player), ValidPositions(s))
  }

  /** A flight is listed iff it takes a piece of `player` to an empty point; one per (piece, empty point) pair. */
  lemma ValidFlightsMeans(s: Board, player: Cell)
    ensures |ValidFlights(s, player)| == CountPieces(s, player) * CountPieces(s, Empty)
    ensures forall f: Pos, t: Pos :: (f, t) in ValidFlights(s, player) <==> s[f] == player && s[t] == Empty
    ensures forall m :: m in ValidFlights(s, player) ==> s[m.0] == player && s[m.1] == Empty
  {
    FlightsFromMeans(PlayerPieces(s, player), ValidPositions(s));
    FlightsFromLength(PlayerPieces(s, player), ValidPositions(s));
    PlayerPiecesMeans(s, player);
    ValidPositionsMeans(s);
  }

  /** One entry of `get_valid_flights`. */
  lemma ValidFlightAt(s: Board, player: Cell, i: int)
    requires 0 <= i < |ValidFlights(s, player)|
    ensures var m := ValidFlights(s, player)[i]; s[m.0] == player && s[m.1] == Empty
  {
    ValidFlightsMeans(s, player);
    assert ValidFlights(s, player)[i] in ValidFlights(s, player);
  }

  /**
   * `can_move` agrees with the generators: a player with three pieces can
   * move iff they have a flight, any other player iff they have an adjacent move.
   */
  lemma CanMoveMatchesGenerators(s: Board, player: Cell)
    ensures CountPieces(s, player) == 3 ==> (CanMove(s, player) <==> ValidFlights(s, player) != [])
    ensures CountPieces(s, player) != 3 ==> (CanMove(s, player) <==> ValidMoves(s, player) != [])
  {
    if CountPieces(s, player) == 3 {
      CanFlyMatchesFlights(s, player);
    } else {
      CanStepMatchesMoves(s, player);
    }
  }

  lemma CanFlyMatchesFlights(s: Board, player: Cell)
    requires CountPieces(s, player) == 3
    ensures CanMove(s, player) <==> ValidFlights(s, player) != []
  {
    CanMoveMeans(s, player);
    ValidFlightsMeans(s, player);
    PlayerPiecesMeans(s, player);
    var pieces := PlayerPieces(s, player);
    assert pieces[0] in pieces;
    if CanMove(s, player) {
      var t: Pos :| s[t] == Empty;
      assert (pieces[0], t) in ValidFlights(s, player);
    }
    if ValidFlights(s, player) != [] {
      var m := ValidFlights(s, player)[0];
      assert m in ValidFlights(s, player);
    }
  }

  lemma CanStepMatchesMoves(s: Board, player: Cell)
    requires CountPieces(s, player) != 3
    ensures CanMove(s, player) <==> ValidMoves(s, player) != []
  {
    CanMoveMeans(s, player);
    ValidMovesMeans(s, player);
    if ValidMoves(s, player) != [] {
      var m := ValidMoves(s, player)[0];
      assert m in ValidMoves(s, player);
    }
    if CanMove(s, player) {
      var f: Pos, t: Pos :| s[f] == player && t in Connections(f) && s[t] == Empty;
      assert (f, t) in ValidMoves(s, player);
    }
  }

  /**
   * `check_potential_mill`: on a copy of the board with `player` on `pos`,
   * is `pos` in a mill? True iff some line through `pos` has its other two
   * points held by `player`.
   */
  function PotentialMill(s: Board, pos: Pos, player: Cell): bool {
    CheckMill(s[pos := player], pos, player)
  }

  /** A point would complete a line for `player` iff some line through it has its other two points held by them. */
  lemma PotentialMillMeans(s: Board, pos: Pos, player: Cell)
    ensures PotentialMill(s, pos, player) <==>
      exists k :: 0 <= k < NumMills && Mills(k).Has(pos) && Mills(k).OwnedExcept(s, pos, player)
  {
    var copy := s[pos := player];
    CheckMillMeans(copy, pos, player);
    assert forall k :: 0 <= k < NumMills && Mills(k).Has(pos) ==>
      (Mills(k).OwnedBy(copy, player) <==> Mills(k).OwnedExcept(s, pos, player));
  }

  /**
   * `check_block_mill`: would the opponent of `me` complete a line by taking
   * `pos`?
   */
  function CheckBlockMill(s: Board, pos: Pos, me: Cell): bool {
    PotentialMill(s, pos, Other(me))
  }

  /** A point blocks iff some line through it has its other two points held by the opponent of `me`. */
  lemma CheckBlockMillMeans(s: Board, pos: Pos, me: Cell)
    ensures CheckBlockMill(s, pos, me) <==>
      exists k :: 0 <= k < NumMills && Mills(k).Has(pos) && Mills(k).OwnedExcept(s, pos, Other(me))
  {
    PotentialMillMeans(s, pos, Other(me));
  }

  /** The fixed part of `evaluate_position`: +2 on the listed centre points, +1 on the listed corners. */
  function PositionBonus(pos: Pos): (r: nat)
    ensures r <= (if pos == 16 then 3 else 2)
  {
    (if pos in [9, 10, 11, 12, 13, 14, 15, 16] then 2 else 0)
    + (if pos in [0, 2, 6, 8, 16, 18, 22, 23] then 1 else 0)
  }

  /** The lines among the first `n` through `pos` that hold an empty point and a piece of `me`. */
  function MillPotential(s: Board, pos: Pos, me: Cell, n: nat): (r: nat)
    requires n <= NumMills
    ensures r <= MillCount(pos, n)
  {
    if n == 0 then 0
    else
      var line := Mills(n - 1);
      MillPotential(s, pos, me, n - 1)
      + (if line.Has(pos) && line.Count(s, Empty) > 0 && line.Count(s, me) > 0 then 1 else 0)
  }

  /** `evaluate_position`: the position bonus plus the promising lines through `pos`; at most 5, reached only at 16. */
  function EvaluatePosition(s: Board, pos: Pos, me: Cell): (r: nat)
    ensures r <= (if pos == 16 then 5 else 4)
  {
    TwoMillsPerPoint();
    PositionBonus(pos) + MillPotential(s, pos, me, NumMills)
  }

  /** The sum of `EvaluatePosition` over `ps`. */
  function SumEvaluations(s: Board, ps: seq<Pos>, me: Cell): (r: int)
    ensures 0 <= r <= 5 * |ps|
  {
    if ps == [] then 0
    else SumEvaluations(s, ps[..|ps| - 1], me) + EvaluatePosition(s, ps[|ps| - 1], me)
  }

  /**
   * The value `minimax_evaluate_board` computes for `me`: ten per piece of
   * advantage plus the evaluation of every point `me` holds.
   */
  function BoardScore(s: Board, me: Cell): (r: int)
    ensures var lead := 10 * (CountPieces(s, me) - CountPieces(s, Other(me)));
      lead <= r <= lead + 5 * CountPieces(s, me)
    ensures r >= -240
  {
    10 * (CountPieces(s, me) - CountPieces(s, Other(me))) + SumEvaluations(s, PlayerPieces(s, me), me)
  }

  /** `k` is the first index holding the largest score: what a strict `>` scan returns. */
  predicate IsFirstMax(scores: seq<int>, k: int) {
    && 0 <= k < |scores|
    && (forall j :: 0 <= j < |scores| ==> scores[j] <= scores[k])
    && (forall j :: 0 <= j < k ==> scores[j] < scores[k])
  }

  /** The state of a strict `>` scan over `scores[..i]` that started from -1000: `bi` is its first maximum. */
  predicate ScanState(scores: seq<int>, i: int, bi: int, best: int) {
    && 0 <= bi <= i <= |scores|
    && (i == 0 ==> best == -1000)
    && (i > 0 ==> bi < i && best == scores[bi])
    && (forall j :: 0 <= j < i ==> scores[j] <= best)
    && (forall j :: 0 <= j < bi ==> scores[j] < best)
  }

  /** One step of the scan: a score above -1000 that beats the best so far replaces it. */
  lemma ScanStep(scores: seq<int>, i: int, bi: int, best: int)
    requires ScanState(scores, i, bi, best) && i < |scores| && scores[i] > -1000
    ensures scores[i] > best ==> ScanState(scores, i + 1, i, scores[i])
    ensures scores[i] <= best ==> ScanState(scores, i + 1, bi, best)
  {
  }

  /** A finished scan over a non-empty list has found the first maximum. */
  lemma ScanDone(scores: seq<int>, bi: int, best: int)
    requires ScanState(scores, |scores|, bi, best) && scores != []
    ensures IsFirstMax(scores, bi)
  {
  }

  /** Level 3+ score of placing `me` on the empty point `pos`. */
  function PlacingScore(s: Board, pos: Pos, me: Cell, difficulty: int): (r: int)
    ensures r >= -240
  {
    (if PotentialMill(s, pos, me) then 100 else 0)
    + (if CheckBlockMill(s, pos, me) then 50 else 0)
    + EvaluatePosition(s, pos, me) * 5
    + (if difficulty >= 4 then BoardScore(s[pos := me], me) else 0)
  }

  /** The level 3+ placing score of every empty point, in scan order. */
  function PlacingScores(s: Board, me: Cell, difficulty: int): (r: seq<int>)
    ensures |r| == |ValidPositions(s)|
    ensures forall i :: 0 <= i < |r| ==> r[i] == PlacingScore(s, ValidPositions(s)[i], me, difficulty)
  {
    var vp := ValidPositions(s);
    seq(|vp|, i requires 0 <= i < |vp| => PlacingScore(s, vp[i], me, difficulty))
  }

  /** The first five entries of a move list (`[:5]`). */
  function FirstFive(ms: seq<(Pos, Pos)>): (r: seq<(Pos, Pos)>)
    ensures |r| == if |ms| < 5 then |ms| else 5
    ensures r == ms[..|r|]
  {
    if |ms| <= 5 then ms else ms[..5]
  }

  /** The level 5 threat penalty: -30 for each of `oms` that would complete a line of the opponent of `me`. */
  function Threat(s: Board, oms: seq<(Pos, Pos)>, me: Cell): (r: int)
    ensures -30 * |oms| <= r <= 0
  {
    if oms == [] then 0
    else
      var (f, t) := oms[|oms| - 1];
      Threat(s, oms[..|oms| - 1], me)
      - (if PotentialMill(s[f := Empty][t := Other(me)], t, Other(me)) then 30 else 0)
  }

  /** Level 3+ score of a move of `me` from `f` to `t`, judged on `after`, the board with the move made. */
  function MovedScore(after: Board, f: Pos, t: Pos, me: Cell, difficulty: int): (r: int)
    ensures r >= -400
  {
    (if PotentialMill(after, t, me) then 100 else 0)
    + (if CheckBlockMill(after[t := Empty], t, me) then 50 else 0)
    + EvaluatePosition(after, t, me) * 3
    - EvaluatePosition(after, f, me) * 2
    + (if difficulty >= 4 then BoardScore(after, me) else 0)
    + (if difficulty == 5 then Threat(after, FirstFive(ValidMoves(after, Other(me))), me) else 0)
  }

  /** Level 3+ score of moving `me` from `f` to `t`. */
  function MoveScore(s: Board, f: Pos, t: Pos, me: Cell, difficulty: int): (r: int)
    ensures r >= -400
  {
    MovedScore(s[f := Empty][t := me], f, t, me, difficulty)
  }

  /** The level 3+ score of every adjacent move of `me`, in scan order. */
  function MoveScores(s: Board, me: Cell, difficulty: int): (r: seq<int>)
    ensures |r| == |ValidMoves(s, me)|
    ensures forall i :: 0 <= i < |r| ==>
      r[i] == MoveScore(s, ValidMoves(s, me)[i].0, ValidMoves(s, me)[i].1, me, difficulty)
  {
    var ms := ValidMoves(s, me);
    seq(|ms|, i requires 0 <= i < |ms| => MoveScore(s, ms[i].0, ms[i].1, me, difficulty))
  }

  /** Level 2+ score of flying `me` from `f` to `t`. */
  function FlightScore(s: Board, f: Pos, t: Pos, me: Cell, difficulty: int): (r: int)
    ensures r >= -240
  {
    var after := s[f := Empty][t := me];
    (if PotentialMill(after, t, me) then 100 else 0)
    + EvaluatePosition(after, t, me) * 2
    + (if difficulty >= 4 then BoardScore(after, me) else 0)
  }

  /** The level 2+ score of every flight of `me`, in scan order. */
  function FlightScores(s: Board, me: Cell, difficulty: int): (r: seq<int>)
    ensures |r| == |ValidFlights(s, me)|
    ensures forall i :: 0 <= i < |r| ==>
      r[i] == FlightScore(s, ValidFlights(s, me)[i].0, ValidFlights(s, me)[i].1, me, difficulty)
  {
    var ms := ValidFlights(s, me);
    seq(|ms|, i requires 0 <= i < |ms| => FlightScore(s, ms[i].0, ms[i].1, me, difficulty))
  }

  /** The lines among the first `n` through `piece` whose other points all hold `opp`. */
  function MillsBroken(s: Board, piece: Pos, opp: Cell, n: nat): (r: nat)
    requires n <= NumMills
    ensures r <= MillCount(piece, n)
  {
    if n == 0 then 0
    else
      var line := Mills(n - 1);
      MillsBroken(s, piece, opp, n - 1) + (if line.Has(piece) && line.OwnedExcept(s, piece, opp) then 1 else 0)
  }

  /** Some line is counted iff a line through `piece` has its other points held by `opp`. */
  lemma {:induction false} MillsBrokenMeans(s: Board, piece: Pos, opp: Cell, n: nat)
    requires n <= NumMills
    ensures MillsBroken(s, piece, opp, n) > 0 <==>
      exists k :: 0 <= k < n && Mills(k).Has(piece) && Mills(k).OwnedExcept(s, piece, opp)
  {
    if n > 0 {
      MillsBrokenMeans(s, piece, opp, n - 1);
    }
  }

  lemma LineBrokenIffOwned(line: Mill, s: Board, piece: Pos, opp: Cell)
    requires s[piece] == opp && line.Has(piece)
    ensures line.OwnedExcept(s[piece := Empty], piece, opp) <==> line.OwnedBy(s, opp)
  {
  }

  /** For a piece of `opp`, a line counted as broken by its removal is exactly a line of `opp` it stands in. */
  lemma MillsBrokenIsCheckMill(s: Board, piece: Pos, opp: Cell)
    requires s[piece] == opp
    ensures MillsBroken(s[piece := Empty], piece, opp, NumMills) > 0 <==> CheckMill(s, piece, opp)
  {
    MillsBrokenMeans(s[piece := Empty], piece, opp, NumMills);
    CheckMillMeans(s, piece, opp);
    if CheckMill(s, piece, opp) {
      var k :| 0 <= k < NumMills && Mills(k).Has(piece) && Mills(k).OwnedBy(s, opp);
      LineBrokenIffOwned(Mills(k), s, piece, opp);
    }
    if MillsBroken(s[piece := Empty], piece, opp, NumMills) > 0 {
      var k :| 0 <= k < NumMills && Mills(k).Has(piece) && Mills(k).OwnedExcept(s[piece := Empty], piece, opp);
      LineBrokenIffOwned(Mills(k), s, piece, opp);
    }
  }

  /** Level 2+ score of removing the opposing piece on `piece`. */
  function RemovalScore(s: Board, piece: Pos, me: Cell, difficulty: int): (r: int)
    ensures r >= -192
  {
    var opp := Other(me);
    TwoMillsPerPoint();
    MillsBroken(s[piece := Empty], piece, opp, NumMills) * 50
    + EvaluatePosition(s, piece, me) * 3
    + (if difficulty >= 4
       then (|ValidMoves(s, opp)| - |ValidMoves(s[piece := Empty], opp)|) * 2
       else 0)
  }

  /** The level 2+ score of every opposing piece, in scan order. */
  function RemovalScores(s: Board, me: Cell, difficulty: int): (r: seq<int>)
    ensures |r| == CountPieces(s, Other(me))
    ensures forall i :: 0 <= i < |r| ==>
      r[i] == RemovalScore(s, PlayerPieces(s, Other(me))[i], me, difficulty)
  {
    var ps := PlayerPieces(s, Other(me));
    seq(|ps|, i requires 0 <= i < |ps| => RemovalScore(s, ps[i], me, difficulty))
  }

  /**
   * At level 3 a placement that completes a line (at least 100) outscores
   * any that does not (at most 50 + 5 * 5), so the first best placement
   * completes a line whenever some placement does.
   */
  lemma Level3PlacingPrefersMill(s: Board, me: Cell, k: int, j: int)
    requires IsFirstMax(PlacingScores(s, me, 3), k)
    requires 0 <= j < |ValidPositions(s)| && PotentialMill(s, ValidPositions(s)[j], me)
    ensures PotentialMill(s, ValidPositions(s)[k], me)
  {
    var scores := PlacingScores(s, me, 3);
    assert scores[j] <= scores[k];
  }

  /**
   * At level 3 a move that completes a line (at least 100 - 2 * 5)
   * outscores any that does not (at most 50 + 3 * 5).
   */
  lemma Level3MovingPrefersMill(s: Board, me: Cell, moves: seq<(Pos, Pos)>, k: int, j: int)
    requires moves == ValidMoves(s, me)
    requires IsFirstMax(MoveScores(s, me, 3), k)
    requires 0 <= j < |moves| && PotentialMill(Apply(s, Relocate(moves[j].0, moves[j].1), me), moves[j].1, me)
    ensures PotentialMill(Apply(s, Relocate(moves[k].0, moves[k].1), me), moves[k].1, me)
  {
    var scores := MoveScores(s, me, 3);
    assert scores[j] <= scores[k];
  }

  /**
   * Below level 4 a flight that completes a line (at least 100) outscores
   * any that does not (at most 2 * 5).
   */
  lemma FlyingPrefersMill(s: Board, me: Cell, difficulty: int, flights: seq<(Pos, Pos)>, k: int, j: int)
    requires difficulty < 4
    requires flights == ValidFlights(s, me)
    requires IsFirstMax(FlightScores(s, me, difficulty), k)
    requires 0 <= j < |flights| && PotentialMill(Apply(s, Relocate(flights[j].0, flights[j].1), me), flights[j].1, me)
    ensures PotentialMill(Apply(s, Relocate(flights[k].0, flights[k].1), me), flights[k].1, me)
  {
    var scores := FlightScores(s, me, difficulty);
    assert scores[j] <= scores[k];
  }

  /**
   * Below level 4 removing a piece that stands in a line of the opponent's
   * (at least 50) outscores removing one that does not (at most 3 * 5): the
   * AI prefers exactly the pieces the removal rule for humans protects.
   */
  lemma RemovalPrefersMilledPiece(s: Board, me: Cell, difficulty: int, pieces: seq<Pos>, k: int, j: int)
    requires difficulty < 4
    requires pieces == PlayerPieces(s, Other(me))
    requires IsFirstMax(RemovalScores(s, me, difficulty), k)
    requires 0 <= j < |pieces| && CheckMill(s, pieces[j], Other(me))
    ensures CheckMill(s, pieces[k], Other(me))
  {
    var scores := RemovalScores(s, me, difficulty);
    PlayerPieceAt(s, Other(me), j);
    PlayerPieceAt(s, Other(me), k);
    MillsBrokenIsCheckMill(s, pieces[j], Other(me));
    MillsBrokenIsCheckMill(s, pieces[k], Other(me));
    assert scores[j] <= scores[k];
  }

}
