/**
 * The rule predicates of the game: mill detection, piece counting, the
 * "can this player still move" rule, and the removal that a mill earns.
 */
module Rules {
  import opened Board

  /** Whether a line among `Mills(m..)` passes through `pos` and is wholly `player`'s (the scan of one call). */
  function MillFrom(s: Board, pos: int, player: Cell, m: nat): bool
    requires m <= NumMills
    decreases NumMills - m
  {
    m < NumMills && ((Mills(m).Has(pos) && Mills(m).OwnedBy(s, player)) || MillFrom(s, pos, player, m + 1))
  }

  lemma {:induction false} MillFromMeans(s: Board, pos: int, player: Cell, m: nat)
    requires m <= NumMills
    ensures MillFrom(s, pos, player, m) <==>
      exists k :: m <= k < NumMills && Mills(k).Has(pos) && Mills(k).OwnedBy(s, player)
    decreases NumMills - m
  {
    if m < NumMills {
      MillFromMeans(s, pos, player, m + 1);
    }
  }

  /** `check_mill`: does `pos` lie on a line all three of whose points hold `player`? */
  function CheckMill(s: Board, pos: int, player: Cell): bool {
    MillFrom(s, pos, player, 0)
  }

  /** `check_mill` holds exactly when a line through `pos` is wholly `player`'s; then `pos` itself holds `player`. */
  lemma CheckMillMeans(s: Board, pos: int, player: Cell)
    ensures CheckMill(s, pos, player) <==>
      exists k :: 0 <= k < NumMills && Mills(k).Has(pos) && Mills(k).OwnedBy(s, player)
    ensures CheckMill(s, pos, player) ==> 0 <= pos < 24 && s[pos] == player
  {
    MillFromMeans(s, pos, player, 0);
  }

  /** The number of points among the first `n` that hold `c`. */
  function CountUpTo(s: Board, c: Cell, n: nat): (r: nat)
    requires n <= 24
    ensures r <= n
  {
    if n == 0 then 0 else CountUpTo(s, c, n - 1) + (if s[n - 1] == c then 1 else 0)
  }

  lemma {:induction false} CountUpToIsHolding(s: Board, c: Cell, n: nat)
    requires n <= 24
    ensures CountUpTo(s, c, n) == |Holding(s, c, n)|
  {
    if n > 0 {
      CountUpToIsHolding(s, c, n - 1);
    }
  }

  /** `count_pieces`: the number of points holding `c`. */
  function CountPieces(s: Board, c: Cell): (r: nat)
    ensures r == |Holding(s, c, 24)|
    ensures r <= 24
  {
    CountUpToIsHolding(s, c, 24);
    CountUpTo(s, c, 24)
  }

  /** The three counts cover the board: every point holds exactly one occupant. */
  lemma {:induction false} CountsCoverBoard(s: Board)
    ensures CountPieces(s, P1) + CountPieces(s, P2) + CountPieces(s, Empty) == 24
  {
    CountsCoverPrefix(s, 24);
  }

  lemma {:induction false} CountsCoverPrefix(s: Board, n: nat)
    requires n <= 24
    ensures CountUpTo(s, P1, n) + CountUpTo(s, P2, n) + CountUpTo(s, Empty, n) == n
  {
    if n > 0 {
      CountsCoverPrefix(s, n - 1);
    }
  }

  lemma {:induction false} CountUpToWrite(s: Board, i: Pos, x: Cell, c: Cell, n: nat)
    requires n <= 24
    ensures CountUpTo(s[i := x], c, n) + (if i < n && s[i] == c then 1 else 0)
         == CountUpTo(s, c, n) + (if i < n && x == c then 1 else 0)
  {
    if n > 0 {
      CountUpToWrite(s, i, x, c, n - 1);
    }
  }

  /** Writing `x` on point `i` adds one to the count of `x` and takes one from the count of what was there. */
  lemma CountAfterWrite(s: Board, i: Pos, x: Cell, c: Cell)
    ensures CountPieces(s[i := x], c) + (if s[i] == c then 1 else 0) == CountPieces(s, c) + (if x == c then 1 else 0)
  {
    CountUpToWrite(s, i, x, c, 24);
  }

  /** A board on which no point holds `c` counts no `c`. */
  lemma CountNone(s: Board, c: Cell)
    requires forall i :: 0 <= i < 24 ==> s[i] != c
    ensures CountPieces(s, c) == 0
  {
    CountUpToNone(s, c, 24);
  }

  lemma {:induction false} CountUpToNone(s: Board, c: Cell, n: nat)
    requires n <= 24 && forall i :: 0 <= i < n ==> s[i] != c
    ensures CountUpTo(s, c, n) == 0
  {
    if n > 0 {
      CountUpToNone(s, c, n - 1);
    }
  }

  /** Whether one of `nbrs` is empty. */
  function SomeEmpty(s: Board, nbrs: seq<Pos>): (r: bool)
    ensures r <==> exists j :: j in nbrs && s[j] == Empty
  {
    nbrs != [] && (s[nbrs[0]] == Empty || SomeEmpty(s, nbrs[1..]))
  }

  /** Whether a point in `i..23` holding `player` has an empty neighbour (the scan of `can_move`). */
  function MobileFrom(s: Board, player: Cell, i: nat): bool
    requires i <= 24
    decreases 24 - i
  {
    i < 24 && ((s[i] == player && SomeEmpty(s, Connections(i))) || MobileFrom(s, player, i + 1))
  }

  lemma {:induction false} MobileFromMeans(s: Board, player: Cell, i: nat)
    requires i <= 24
    ensures MobileFrom(s, player, i) <==>
      exists f: Pos, t: Pos :: i <= f && s[f] == player && t in Connections(f) && s[t] == Empty
    decreases 24 - i
  {
    if i < 24 {
      MobileFromMeans(s, player, i + 1);
      if s[i] == player && SomeEmpty(s, Connections(i)) {
        var t :| t in Connections(i) && s[t] == Empty;
        var f: Pos := i;
        assert i <= f && s[f] == player && t in Connections(f) && s[t] == Empty;
      }
    }
  }

  /**
   * `can_move`: with exactly three pieces the player flies, so any empty point
   * will do; otherwise some piece of theirs needs an empty neighbour.
   */
  function CanMove(s: Board, player: Cell): bool {
    if CountPieces(s, player) == 3 then Empty in s else MobileFrom(s, player, 0)
  }

  lemma CanMoveMeans(s: Board, player: Cell)
    ensures CountPieces(s, player) == 3 ==> (CanMove(s, player) <==> exists i: Pos :: s[i] == Empty)
    ensures CountPieces(s, player) != 3 ==>
      (CanMove(s, player) <==> exists f: Pos, t: Pos :: s[f] == player && t in Connections(f) && s[t] == Empty)
  {
    assert Empty in s <==> exists i: Pos :: s[i] == Empty;
    MobileFromMeans(s, player, 0);
  }

  /** The points among the first `n` that hold `opp` and lie on none of `opp`'s mills. */
  function Unmilled(s: Board, opp: Cell, n: nat): seq<Pos>
    requires n <= 24
  {
    if n == 0 then []
    else Unmilled(s, opp, n - 1) + (if s[n - 1] == opp && !CheckMill(s, n - 1, opp) then [n - 1] else [])
  }

  lemma {:induction false} UnmilledMeans(s: Board, opp: Cell, n: nat)
    requires n <= 24
    ensures forall i :: i in Unmilled(s, opp, n) <==> 0 <= i < n && s[i] == opp && !CheckMill(s, i, opp)
  {
    if n > 0 {
      UnmilledMeans(s, opp, n - 1);
    }
  }

  /**
   * The pieces of `opp` that may be removed: those on no mill of theirs, or
   * every piece of theirs when all of them stand in mills.
   */
  function Removable(s: Board, opp: Cell): seq<Pos> {
    var free := Unmilled(s, opp, 24);
    if free != [] then free else Holding(s, opp, 24)
  }

  /**
   * The removal rule: only `opp`'s pieces; the pieces outside mills when
   * there are any, otherwise every piece; nothing only when `opp` has no piece.
   */
  lemma RemovableMeans(s: Board, opp: Cell)
    ensures forall i :: i in Removable(s, opp) ==> 0 <= i < 24 && s[i] == opp
    ensures (exists i: Pos :: s[i] == opp && !CheckMill(s, i, opp)) ==>
      forall i: Pos :: i in Removable(s, opp) <==> s[i] == opp && !CheckMill(s, i, opp)
    ensures (forall i: Pos :: s[i] == opp ==> CheckMill(s, i, opp)) ==>
      forall i: Pos :: i in Removable(s, opp) <==> s[i] == opp
    ensures Removable(s, opp) == [] <==> CountPieces(s, opp) == 0
  {
    var free := Unmilled(s, opp, 24);
    UnmilledMeans(s, opp, 24);
    HoldingMeans(s, opp, 24);
    if free != [] {
      assert free[0] in free;
    }
    var all := Holding(s, opp, 24);
    if all != [] {
      assert all[0] in all;
    }
  }

  /** The scan of `remove_opponent_piece` that collects the removable points. */
  method RemovablePieces(b: array<Cell>, opponent: Cell) returns (removable: seq<Pos>)
    requires b.Length == 24
    ensures removable == Removable(b[..], opponent)
  {
    removable := [];
    var allInMills: seq<Pos> := [];
    for i := 0 to 24
      invariant removable == Unmilled(b[..], opponent, i)
      invariant allInMills == Holding(b[..], opponent, i)
    {
      if b[i] == opponent {
        if !CheckMill(b[..], i, opponent) {
          removable := removable + [i];
        }
        allInMills := allInMills + [i];
      }
    }
    if removable == [] {
      removable := allInMills;
    }
  }

  /**
   * `remove_opponent_piece`: `choice` stands for the point the player names
   * (the prompt repeats until it is removable). With no opposing piece the
   * board is left alone; otherwise exactly the chosen piece is taken off.
   */
  method RemoveOpponentPiece(b: array<Cell>, opponent: Cell, choice: int)
    requires b.Length == 24
    requires Removable(b[..], opponent) != [] ==> choice in Removable(b[..], opponent)
    modifies b
    ensures CountPieces(old(b[..]), opponent) == 0 ==> b[..] == old(b[..])
    ensures CountPieces(old(b[..]), opponent) != 0 ==>
      && choice in Removable(old(b[..]), opponent)
      && old(b[choice]) == opponent
      && b[..] == old(b[..])[choice := Empty]
  {
    RemovableMeans(b[..], opponent);
    var removable := RemovablePieces(b, opponent);
    if removable == [] {
      return;
    }
    b[choice] := Empty;
  }
}
