/**
 * The game loop of `play_game`: the phase selection, the tests a human's
 * placement or relocation must pass, the win check, the removal a new mill
 * earns, and the alternation of turns. What the human types is a parameter;
 * the prompts that repeat until the input passes become preconditions.
 */
module PlayGame {
  import opened Board
  import opened Rules
  import opened AiEval
  import opened Ai

  /** How a round ends: play goes on, a player has won, or the AI's removal raised an error. */
  datatype Outcome = Continue | Won(winner: Cell) | Crashed

  /** The pieces each player places before moving. */
  const PiecesPerPlayer := 9

  /**
   * The phase of `current`: placing while either player still has pieces
   * to place, flying with exactly three pieces, moving otherwise.
   */
  function PhaseOf(s: Board, p1Placed: int, p2Placed: int, current: Cell): Phase {
    if p1Placed < PiecesPerPlayer || p2Placed < PiecesPerPlayer then Placing
    else if CountPieces(s, current) == 3 then Flying
    else Moving
  }

  /** Past placing, the phase names the candidate list whose emptiness `can_move` decides. */
  lemma PhaseMatchesCanMove(s: Board, p1Placed: int, p2Placed: int, current: Cell)
    requires PhaseOf(s, p1Placed, p2Placed, current) != Placing
    ensures PhaseOf(s, p1Placed, p2Placed, current) == Flying ==> (CanMove(s, current) <==> ValidFlights(s, current) != [])
    ensures PhaseOf(s, p1Placed, p2Placed, current) == Moving ==> (CanMove(s, current) <==> ValidMoves(s, current) != [])
  {
    CanMoveMatchesGenerators(s, current);
  }

  /** The human's placement test: a point in range that is empty. */
  predicate PlacementOk(s: Board, pos: int) {
    0 <= pos <= 23 && s[pos] == Empty
  }

  /** The placements the human may make are exactly the AI's placing candidates. */
  lemma PlacementMatchesValidPositions(s: Board, pos: int)
    ensures PlacementOk(s, pos) <==> pos in ValidPositions(s)
  {
    ValidPositionsMeans(s);
  }

  /**
   * The human's relocation test: both points in range, the first holding
   * `player`, the second empty, and adjacent unless the phase is flying.
   */
  predicate RelocationOk(s: Board, phase: Phase, f: int, t: int, player: Cell) {
    && 0 <= f <= 23 && 0 <= t <= 23
    && s[f] == player && s[t] == Empty
    && (phase == Flying || t in Connections(f))
  }

  /** The relocations the human may make are exactly the AI's candidate moves or flights. */
  lemma RelocationMatchesGenerators(s: Board, f: Pos, t: Pos, player: Cell)
    ensures RelocationOk(s, Moving, f, t, player) <==> (f, t) in ValidMoves(s, player)
    ensures RelocationOk(s, Flying, f, t, player) <==> (f, t) in ValidFlights(s, player)
  {
    ValidMovesMeans(s, player);
    ValidFlightsMeans(s, player);
  }

  /** A human move passes the input loop of its phase. */
  predicate HumanMoveOk(s: Board, phase: Phase, m: Move) {
    match m
    case Place(p) => phase == Placing && PlacementOk(s, p)
    case Relocate(f, t) => phase != Placing && RelocationOk(s, phase, f, t, P1)
  }

  /**
   * The removal prompt accepts `choice`: asked only when `player` has just
   * completed a line through `target` and the opponent has a removable piece.
   */
  predicate RemovalChoiceOk(a: Board, target: Pos, player: Cell, choice: int) {
    CheckMill(a, target, player) && Removable(a, Other(player)) != [] ==> choice in Removable(a, Other(player))
  }

  /** The board after the removal that a line through `target` earns `player`. */
  function AfterRemoval(a: Board, target: Pos, player: Cell, choice: int): Board
    requires RemovalChoiceOk(a, target, player, choice)
  {
    if CheckMill(a, target, player) && Removable(a, Other(player)) != [] then
      RemovableMeans(a, Other(player));
      a[choice := Empty]
    else a
  }

  /**
   * A mill costs the opponent exactly one piece, when they have one, and
   * never costs `player` anything.
   */
  lemma AfterRemovalCounts(a: Board, target: Pos, player: Cell, choice: int)
    requires player != Empty && RemovalChoiceOk(a, target, player, choice)
    ensures CountPieces(AfterRemoval(a, target, player, choice), player) == CountPieces(a, player)
    ensures CountPieces(AfterRemoval(a, target, player, choice), Other(player))
         == CountPieces(a, Other(player)) - (if CheckMill(a, target, player) && CountPieces(a, Other(player)) > 0 then 1 else 0)
  {
    RemovableMeans(a, Other(player));
    if CheckMill(a, target, player) && Removable(a, Other(player)) != [] {
      CountAfterWrite(a, choice, Empty, player);
      CountAfterWrite(a, choice, Empty, Other(player));
    }
  }

  /** Everything the human types in one turn passes the prompts. */
  predicate HumanInputOk(s: Board, phase: Phase, m: Move, choice: int) {
    HumanMoveOk(s, phase, m) && RemovalChoiceOk(Apply(s, m, P1), m.Target(), P1, choice)
  }

  /** The board after the human's turn: the move, then the removal a new mill earns. */
  function HumanTurnResult(s: Board, m: Move, choice: int): Board
    requires RemovalChoiceOk(Apply(s, m, P1), m.Target(), P1, choice)
  {
    AfterRemoval(Apply(s, m, P1), m.Target(), P1, choice)
  }

  /** A placement adds one piece of `player` and leaves the other player's count alone. */
  lemma PlaceCounts(s: Board, p: Pos, player: Cell)
    requires s[p] == Empty && player != Empty
    ensures CountPieces(s[p := player], player) == CountPieces(s, player) + 1
    ensures CountPieces(s[p := player], Other(player)) == CountPieces(s, Other(player))
  {
    CountAfterWrite(s, p, player, player);
    CountAfterWrite(s, p, player, Other(player));
  }

  /** A relocation changes neither player's count. */
  lemma RelocateCounts(s: Board, f: Pos, t: Pos, player: Cell)
    requires s[f] == player && s[t] == Empty && player != Empty
    ensures CountPieces(s[f := Empty][t := player], player) == CountPieces(s, player)
    ensures CountPieces(s[f := Empty][t := player], Other(player)) == CountPieces(s, Other(player))
  {
    CountAfterWrite(s, f, Empty, player);
    CountAfterWrite(s, f, Empty, Other(player));
    CountAfterWrite(s[f := Empty], t, player, player);
    CountAfterWrite(s[f := Empty], t, player, Other(player));
  }

  /**
   * The win check at the head of each round. It is skipped while `phase`,
   * the phase of the previous round, is placing; otherwise the round's
   * player wins when the other player, who has just moved, is down to
   * fewer than three pieces or cannot move.
   */
  predicate GameOver(s: Board, phase: Phase, current: Cell) {
    phase != Placing && (CountPieces(s, Other(current)) < 3 || !CanMove(s, Other(current)))
  }

  /** The win check spelled out: too few pieces, or (with three) no empty point, or (otherwise) no piece with an empty neighbour. */
  lemma GameOverMeans(s: Board, phase: Phase, current: Cell)
    ensures GameOver(s, phase, current) <==>
      && phase != Placing
      && (|| CountPieces(s, Other(current)) < 3
          || (CountPieces(s, Other(current)) == 3 && forall i: Pos :: s[i] != Empty)
          || (CountPieces(s, Other(current)) > 3 &&
              forall f: Pos, t: Pos :: s[f] == Other(current) && t in Connections(f) ==> s[t] != Empty))
  {
    CanMoveMeans(s, Other(current));
  }

  /** While fewer than 24 pieces stand on the board, some point is empty. */
  lemma EmptyPointExists(s: Board)
    requires CountPieces(s, P1) + CountPieces(s, P2) < 24
    ensures Empty in s
  {
    CountsCoverBoard(s);
    ValidPositionsMeans(s);
    var vp := ValidPositions(s);
    assert vp[0] in vp;
  }

  /**
   * The AI's turn never adds a human piece and adds an AI piece only by
   * placing: `after` is `s` with the move `m` made and the human piece on
   * `target` removed.
   */
  lemma AiTurnCounts(s: Board, m: Option<Move>, target: Option<Pos>, after: Board)
    requires m.None? ==> after == s
    requires m.Some? && m.value.Place? ==> s[m.value.pos] == Empty
    requires m.Some? && m.value.Relocate? ==> s[m.value.from] == P2 && s[m.value.to] == Empty
    requires m.Some? ==>
      var a := Apply(s, m.value, P2);
      && (target.Some? ==> a[target.value] == P1 && after == a[target.value := Empty])
      && (target.None? ==> after == a)
    ensures CountPieces(after, P1) <= CountPieces(s, P1)
    ensures CountPieces(after, P2) == CountPieces(s, P2) + (if m.Some? && m.value.Place? then 1 else 0)
  {
    if m.Some? {
      var a := Apply(s, m.value, P2);
      if m.value.Place? {
        PlaceCounts(s, m.value.pos, P2);
      } else {
        RelocateCounts(s, m.value.from, m.value.to, P2);
      }
      if target.Some? {
        CountAfterWrite(a, target.value, Empty, P1);
        CountAfterWrite(a, target.value, Empty, P2);
      }
    }
  }

  /**
   * What the AI's move promises: a placement on an empty point while
   * placing, otherwise a listed move or flight (none exactly when the list
   * is empty), in each phase chosen as the AI's level dictates.
   */
  ghost predicate AiMoveOk(s: Board, phase: Phase, difficulty: int, m: Option<Move>) {
    && (phase == Placing ==> m.Some? && m.value.Place? && s[m.value.pos] == Empty && PlacingChoice(s, difficulty, P2, m.value.pos))
    && (phase == Moving ==> (m.None? <==> ValidMoves(s, P2) == []))
    && (phase == Moving && m.Some? ==>
          m.value.Relocate? && (m.value.from, m.value.to) in ValidMoves(s, P2)
          && MovingChoice(s, difficulty, P2, (m.value.from, m.value.to)))
    && (phase == Flying ==> (m.None? <==> ValidFlights(s, P2) == []))
    && (phase == Flying && m.Some? ==>
          m.value.Relocate? && (m.value.from, m.value.to) in ValidFlights(s, P2)
          && FlyingChoice(s, difficulty, P2, (m.value.from, m.value.to)))
  }

  /**
   * What the AI's removal promises: a human piece is taken exactly when the
   * move completed a line, and it is the piece the AI's removal rule picks
   * on the board after the move.
   */
  ghost predicate AiRemovalOk(s: Board, difficulty: int, m: Option<Move>, target: Option<Pos>) {
    && (m.None? ==> target.None?)
    && (m.Some? ==>
          var a := Apply(s, m.value, P2);
          && (target.Some? <==> CheckMill(a, m.value.Target(), P2))
          && (target.Some? ==> a[target.value] == P1 && RemovalChoice(a, difficulty, P2, target.value)))
  }

  /** The board after the AI's turn: its move `m`, then the removal of the human piece on `target`. */
  function AiTurnResult(s: Board, m: Option<Move>, target: Option<Pos>): Board {
    if m.None? then s
    else if target.Some? then Apply(s, m.value, P2)[target.value := Empty]
    else Apply(s, m.value, P2)
  }

  /** The state `play_game` keeps between rounds, with the AI sharing its board. */
  class Game {
    const board: array<Cell>
    const ai: MorrisAI
    var p1Placed: int
    var p2Placed: int
    var current: Cell
    var phase: Phase

    /**
     * What every round keeps: turns alternate while placing, so the human
     * has placed as many pieces as the AI or one more; no player has more
     * pieces on the board than they have placed.
     */
    predicate Consistent()
      reads this, board
    {
      && board.Length == 24 && ai.board == board && 1 <= ai.difficulty <= 5
      && (current == P1 || current == P2)
      && 0 <= p2Placed <= p1Placed <= p2Placed + 1 && p1Placed <= PiecesPerPlayer
      && ((p1Placed < PiecesPerPlayer || p2Placed < PiecesPerPlayer) ==> (current == P1 <==> p1Placed == p2Placed))
      && CountPieces(board[..], P1) <= p1Placed && CountPieces(board[..], P2) <= p2Placed
    }

    /** A new game against an AI of level `difficulty`: empty board, nothing placed, the human to play. */
    constructor (difficulty: int)
      requires 1 <= difficulty <= 5
      ensures Consistent() && fresh(board) && fresh(ai) && ai.difficulty == difficulty
      ensures board[..] == seq(24, _ => Empty)
      ensures p1Placed == 0 && p2Placed == 0 && current == P1 && phase == Placing
    {
      var b := new Cell[24](_ => Empty);
      board := b;
      ai := new MorrisAI(difficulty, b);
      p1Placed := 0;
      p2Placed := 0;
      current := P1;
      phase := Placing;
      new;
      CountNone(board[..], P1);
      CountNone(board[..], P2);
    }

    /** The win check of a round. */
    method CheckWin() returns (over: bool)
      requires Consistent()
      ensures over == GameOver(board[..], phase, current)
    {
      var opponent := if current == P1 then P2 else P1;
      over := false;
      if phase != Placing {
        if CountPieces(board[..], opponent) < 3 {
          over := true;
        } else if !CanMove(board[..], opponent) {
          over := true;
        }
      }
    }

    /** The phase selection of a round. */
    method SelectPhase()
      requires Consistent()
      modifies this`phase
      ensures phase == PhaseOf(board[..], p1Placed, p2Placed, current)
    {
      if p1Placed < PiecesPerPlayer || p2Placed < PiecesPerPlayer {
        phase := Placing;
      } else if CountPieces(board[..], current) == 3 {
        phase := Flying;
      } else {
        phase := Moving;
      }
    }

    /** The human places on `pos`, then removes `choice` if that completed a line. */
    method HumanPlace(pos: Pos, choice: int)
      requires Consistent() && current == P1 && phase == Placing
      requires PlacementOk(board[..], pos)
      requires RemovalChoiceOk(board[..][pos := P1], pos, P1, choice)
      modifies board, this`p1Placed
      ensures board[..] == AfterRemoval(old(board[..])[pos := P1], pos, P1, choice)
      ensures p1Placed == old(p1Placed) + 1
    {
      board[pos] := current;
      p1Placed := p1Placed + 1;
      if CheckMill(board[..], pos, current) {
        RemovableMeans(board[..], P2);
        RemoveOpponentPiece(board, P2, choice);
      }
    }

    /** The human moves (or, when flying, jumps) from `f` to `t`, then removes `choice` if that completed a line. */
    method HumanRelocate(f: Pos, t: Pos, choice: int)
      requires Consistent() && current == P1 && phase != Placing
      requires RelocationOk(board[..], phase, f, t, P1)
      requires RemovalChoiceOk(board[..][f := Empty][t := P1], t, P1, choice)
      modifies board
      ensures board[..] == AfterRemoval(old(board[..])[f := Empty][t := P1], t, P1, choice)
    {
      board[f] := Empty;
      board[t] := current;
      if CheckMill(board[..], t, current) {
        RemovableMeans(board[..], P2);
        RemoveOpponentPiece(board, P2, choice);
      }
    }

    /** The human's turn: a placement or a relocation, as the phase demands, with the removal a new mill earns. */
    method HumanTurn(m: Move, choice: int)
      requires Consistent() && current == P1
      requires phase == PhaseOf(board[..], p1Placed, p2Placed, P1)
      requires HumanInputOk(board[..], phase, m, choice)
      modifies board, this`p1Placed
      ensures board[..] == HumanTurnResult(old(board[..]), m, choice)
      ensures p1Placed == old(p1Placed) + (if m.Place? then 1 else 0)
      ensures CountPieces(board[..], P1) == CountPieces(old(board[..]), P1) + (if m.Place? then 1 else 0)
      ensures CountPieces(board[..], P2) <= CountPieces(old(board[..]), P2)
    {
      ghost var s := board[..];
      match m
      case Place(p) =>
        HumanPlace(p, choice);
        PlaceCounts(s, p, P1);
        AfterRemovalCounts(s[p := P1], p, P1, choice);
      case Relocate(f, t) =>
        HumanRelocate(f, t, choice);
        RelocateCounts(s, f, t, P1);
        AfterRemovalCounts(s[f := Empty][t := P1], t, P1, choice);
    }

    /** The AI's move, written to the board; a placement counts towards its nine. */
    method AiPlay() returns (m: Option<Move>)
      requires Consistent() && current == P2
      requires phase == PhaseOf(board[..], p1Placed, p2Placed, P2)
      modifies board, this`p2Placed
      ensures AiMoveOk(old(board[..]), phase, ai.difficulty, m)
      ensures m.Some? && m.value.Relocate? ==> old(board[m.value.from]) == P2 && old(board[m.value.to]) == Empty
      ensures p2Placed == old(p2Placed) + (if phase == Placing then 1 else 0)
      ensures board[..] == if m.Some? then Apply(old(board[..]), m.value, P2) else old(board[..])
    {
      if phase == Placing {
        EmptyPointExists(board[..]);
      }
      m := ai.MakeMove(phase);
      ValidMovesMeans(old(board[..]), P2);
      ValidFlightsMeans(old(board[..]), P2);
      if m.None? {
        return;
      }
      var mv := m.value;
      if mv.Place? {
        board[mv.pos] := current;
        p2Placed := p2Placed + 1;
      } else {
        board[mv.from] := Empty;
        board[mv.to] := current;
      }
    }

    /**
     * The AI's turn: its move is written to the board, a placement counts
     * towards its nine, and a completed line removes the human piece the
     * AI chooses. With no human piece left, choosing raises an error.
     */
    method AiTurn() returns (m: Option<Move>, target: Option<Pos>, crashed: bool)
      requires Consistent() && current == P2
      requires phase == PhaseOf(board[..], p1Placed, p2Placed, P2)
      modifies board, this`p2Placed
      ensures AiMoveOk(old(board[..]), phase, ai.difficulty, m)
      ensures p2Placed == old(p2Placed) + (if phase == Placing then 1 else 0)
      ensures crashed <==>
        m.Some? && CheckMill(Apply(old(board[..]), m.value, P2), m.value.Target(), P2) && P1 !in Apply(old(board[..]), m.value, P2)
      ensures crashed ==> m.Some? && board[..] == Apply(old(board[..]), m.value, P2)
      ensures !crashed ==> AiRemovalOk(old(board[..]), ai.difficulty, m, target)
      ensures !crashed ==> board[..] == AiTurnResult(old(board[..]), m, target)
      ensures !crashed ==> CountPieces(board[..], P1) <= CountPieces(old(board[..]), P1)
      ensures !crashed ==> CountPieces(board[..], P2) == CountPieces(old(board[..]), P2) + (if phase == Placing then 1 else 0)
    {
      ghost var s := board[..];
      m := AiPlay();
      target := None;
      crashed := false;
      if m.Some? && CheckMill(board[..], m.value.Target(), P2) {
        if P1 !in board[..] {
          crashed := true;
          return;
        }
        var tg := ai.ChoosePieceToRemove();
        board[tg] := Empty;
        target := Some(tg);
      }
      AiTurnCounts(s, m, target, board[..]);
    }

    /** The turn passes to the other player. */
    method SwitchPlayer()
      requires current == P1 || current == P2
      modifies this`current
      ensures current == Other(old(current)) && Other(current) == old(current)
    {
      current := if current == P1 then P2 else P1;
    }

    /**
     * One round of the loop: the win check, the phase selection, the turn
     * of the player to move, and the switch. `humanMove` and `choice` are
     * what the human types, used only on the human's rounds.
     */
    method PlayRound(humanMove: Move, choice: int) returns (outcome: Outcome, aiMove: Option<Move>, aiTarget: Option<Pos>)
      requires Consistent()
      requires current == P1 && !GameOver(board[..], phase, P1) ==>
        HumanInputOk(board[..], PhaseOf(board[..], p1Placed, p2Placed, P1), humanMove, choice)
      modifies board, this
      ensures outcome.Won? <==> old(GameOver(board[..], phase, current))
      ensures outcome.Won? ==> outcome.winner == old(current) && board[..] == old(board[..]) && unchanged(this)
      ensures outcome.Crashed? <==>
        && old(current) == P2 && !old(GameOver(board[..], phase, current))
        && aiMove.Some?
        && CheckMill(Apply(old(board[..]), aiMove.value, P2), aiMove.value.Target(), P2)
        && P1 !in Apply(old(board[..]), aiMove.value, P2)
      ensures outcome.Crashed? ==>
        && phase == PhaseOf(old(board[..]), old(p1Placed), old(p2Placed), P2)
        && AiMoveOk(old(board[..]), phase, ai.difficulty, aiMove)
        && board[..] == Apply(old(board[..]), aiMove.value, P2)
      ensures old(current) == P1 ==> aiMove.None? && aiTarget.None?
      ensures outcome == Continue ==>
        && Consistent()
        && current == Other(old(current))
        && phase == PhaseOf(old(board[..]), old(p1Placed), old(p2Placed), old(current))
        && p1Placed == old(p1Placed) + (if old(current) == P1 && phase == Placing then 1 else 0)
        && p2Placed == old(p2Placed) + (if old(current) == P2 && phase == Placing then 1 else 0)
      ensures outcome == Continue && old(current) == P1 ==>
        board[..] == HumanTurnResult(old(board[..]), humanMove, choice)
      ensures outcome == Continue && old(current) == P2 ==>
        && AiMoveOk(old(board[..]), phase, ai.difficulty, aiMove)
        && AiRemovalOk(old(board[..]), ai.difficulty, aiMove, aiTarget)
        && board[..] == AiTurnResult(old(board[..]), aiMove, aiTarget)
    {
      aiMove, aiTarget := None, None;
      var over := CheckWin();
      if over {
        return Won(current), None, None;
      }
      SelectPhase();
      outcome := Continue;
      if current == P1 {
        HumanTurn(humanMove, choice);
      } else {
        var crashed;
        aiMove, aiTarget, crashed := AiTurn();
        if crashed {
          return Crashed, aiMove, aiTarget;
        }
      }
      SwitchPlayer();
    }
  }
}
