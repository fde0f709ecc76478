/**
 * The board of Nine Men's Morris: 24 points, the adjacency graph between
 * them and the 16 three-point lines ("mills"), plus the vocabulary shared by
 * the rules, the AI and the game loop.
 */
module Board {

  /** A point of the board, numbered 0..23 as in the position guide. */
  type Pos = x: int | 0 <= x < 24

  /** The occupant of a point: ' ', '1' or '2' in the program. */
  datatype Cell = Empty | P1 | P2

  /** The occupancy of all 24 points. */
  type Board = s: seq<Cell> | |s| == 24 witness seq(24, _ => Empty)

  datatype Option<T> = None | Some(value: T)

  /** The three stages of a player's game; computed each turn, never stored by the rules. */
  datatype Phase = Placing | Moving | Flying

  /** A placement on an empty point, or a relocation of a piece. */
  datatype Move = Place(pos: Pos) | Relocate(from: Pos, to: Pos)
  {
    /** The point the move fills. */
    function Target(): Pos {
      match this
      case Place(p) => p
      case Relocate(_, t) => t
    }
  }

  /** The other player: '2' if `p` is '1', else '1'. */
  function Other(p: Cell): Cell {
    if p == P1 then P2 else P1
  }

  /** The board after `m` has been played by `player` (no validation). */
  function Apply(s: Board, m: Move, player: Cell): Board {
    match m
    case Place(p) => s[p := player]
    case Relocate(f, t) => s[f := Empty][t := player]
  }

  /** The neighbours of every point, in the order the program lists them. */
  function Connections(i: Pos): seq<Pos> {
    match i
    case 0 => [1, 9]
    case 1 => [0, 2, 4]
    case 2 => [1, 14]
    case 3 => [4, 10]
    case 4 => [1, 3, 5, 7]
    case 5 => [4, 13]
    case 6 => [7, 11]
    case 7 => [4, 6, 8]
    case 8 => [7, 12]
    case 9 => [0, 10, 21]
    case 10 => [3, 9, 11, 18]
    case 11 => [6, 10, 15]
    case 12 => [8, 13, 17]
    case 13 => [5, 12, 14, 20]
    case 14 => [2, 13, 23]
    case 15 => [11, 16]
    case 16 => [15, 17, 19]
    case 17 => [12, 16]
    case 18 => [10, 19]
    case 19 => [16, 18, 20, 22]
    case 20 => [13, 19]
    case 21 => [9, 22]
    case 22 => [19, 21, 23]
    case 23 => [14, 22]
  }

  /** A line of three points; owning all three is a mill. */
  datatype Mill = Mill(a: Pos, b: Pos, c: Pos)
  {
    predicate Has(p: int) {
      p == a || p == b || p == c
    }

    predicate OwnedBy(s: Board, player: Cell) {
      s[a] == player && s[b] == player && s[c] == player
    }

    /** The points of the line other than `pos` all hold `player`. */
    predicate OwnedExcept(s: Board, pos: int, player: Cell) {
      (a == pos || s[a] == player) && (b == pos || s[b] == player) && (c == pos || s[c] == player)
    }

    /** How many of the three points hold `x`. */
    function Count(s: Board, x: Cell): nat {
      (if s[a] == x then 1 else 0) + (if s[b] == x then 1 else 0) + (if s[c] == x then 1 else 0)
    }
  }

  /** The number of lines. */
  const NumMills := 16

  /** The 16 lines, indexed in the order the program scans them. */
  function Mills(m: nat): Mill
    requires m < NumMills
  {
    match m
    case 0 => Mill(0, 1, 2)
    case 1 => Mill(3, 4, 5)
    case 2 => Mill(6, 7, 8)
    case 3 => Mill(9, 10, 11)
    case 4 => Mill(12, 13, 14)
    case 5 => Mill(15, 16, 17)
    case 6 => Mill(18, 19, 20)
    case 7 => Mill(21, 22, 23)
    case 8 => Mill(0, 9, 21)
    case 9 => Mill(3, 10, 18)
    case 10 => Mill(6, 11, 15)
    case 11 => Mill(1, 4, 7)
    case 12 => Mill(16, 19, 22)
    case 13 => Mill(8, 12, 17)
    case 14 => Mill(5, 13, 20)
    case 15 => Mill(2, 14, 23)
  }

  /** Splits a proof over the 24 points. */
  lemma PosCases(p: Pos)
    ensures p == 0 || p == 1 || p == 2 || p == 3 || p == 4 || p == 5 || p == 6 || p == 7
         || p == 8 || p == 9 || p == 10 || p == 11 || p == 12 || p == 13 || p == 14 || p == 15
         || p == 16 || p == 17 || p == 18 || p == 19 || p == 20 || p == 21 || p == 22 || p == 23
  {
  }

  /** The adjacency table has no self-loops and is symmetric (points 0..11). */
  lemma ConnectionsSymmetricLow()
    ensures forall i: Pos, j: Pos :: i < 12 ==> i !in Connections(i) && (j in Connections(i) ==> i in Connections(j))
  {
    forall i: Pos | i < 12
      ensures i !in Connections(i) && forall j: Pos :: j in Connections(i) ==> i in Connections(j)
    {
      PosCases(i);
    }
  }

  /** The adjacency table has no self-loops and is symmetric (points 12..23). */
  lemma ConnectionsSymmetricHigh()
    ensures forall i: Pos, j: Pos :: i >= 12 ==> i !in Connections(i) && (j in Connections(i) ==> i in Connections(j))
  {
    forall i: Pos | i >= 12
      ensures i !in Connections(i) && forall j: Pos :: j in Connections(i) ==> i in Connections(j)
    {
      PosCases(i);
    }
  }

  /** The adjacency table has no self-loops and is symmetric: a piece can step back the way it came. */
  lemma ConnectionsSymmetric()
    ensures forall i: Pos :: i !in Connections(i)
    ensures forall i: Pos, j: Pos :: j in Connections(i) <==> i in Connections(j)
  {
    ConnectionsSymmetricLow();
    ConnectionsSymmetricHigh();
  }

  /** No point has more than four neighbours. */
  lemma ConnectionsAtMostFour(i: Pos)
    ensures |Connections(i)| <= 4
  {
    PosCases(i);
  }

  /** The number of lines among the first `n` that pass through `p`. */
  function MillCount(p: int, n: nat): nat
    requires n <= NumMills
  {
    if n == 0 then 0 else MillCount(p, n - 1) + (if Mills(n - 1).Has(p) then 1 else 0)
  }

  /** Every line is a path of two edges through three distinct points. */
  lemma MillsArePaths()
    ensures forall m :: 0 <= m < NumMills ==>
      && Mills(m).b in Connections(Mills(m).a) && Mills(m).c in Connections(Mills(m).b)
      && Mills(m).a != Mills(m).b && Mills(m).b != Mills(m).c && Mills(m).a != Mills(m).c
  {
  }

  /** Points `a`..`a+2` lie on exactly two lines each; eight of these cover the board. */
  lemma TwoMillsPerPointFrom0()
    ensures forall p :: 0 <= p < 3 ==> MillCount(p, NumMills) == 2
  {
    assert MillCount(0, 8) == 1;
    assert MillCount(1, 8) == 1;
    assert MillCount(2, 8) == 1;
  }

  lemma TwoMillsPerPointFrom3()
    ensures forall p :: 3 <= p < 6 ==> MillCount(p, NumMills) == 2
  {
    assert MillCount(3, 8) == 1;
    assert MillCount(4, 8) == 1;
    assert MillCount(5, 8) == 1;
  }

  lemma TwoMillsPerPointFrom6()
    ensures forall p :: 6 <= p < 9 ==> MillCount(p, NumMills) == 2
  {
    assert MillCount(6, 8) == 1;
    assert MillCount(7, 8) == 1;
    assert MillCount(8, 8) == 1;
  }

  lemma TwoMillsPerPointFrom9()
    ensures forall p :: 9 <= p < 12 ==> MillCount(p, NumMills) == 2
  {
    assert MillCount(9, 8) == 1;
    assert MillCount(10, 8) == 1;
    assert MillCount(11, 8) == 1;
  }

  lemma TwoMillsPerPointFrom12()
    ensures forall p :: 12 <= p < 15 ==> MillCount(p, NumMills) == 2
  {
    assert MillCount(12, 8) == 1;
    assert MillCount(13, 8) == 1;
    assert MillCount(14, 8) == 1;
  }

  lemma TwoMillsPerPointFrom15()
    ensures forall p :: 15 <= p < 18 ==> MillCount(p, NumMills) == 2
  {
    assert MillCount(15, 8) == 1;
    assert MillCount(16, 8) == 1;
    assert MillCount(17, 8) == 1;
  }

  lemma TwoMillsPerPointFrom18()
    ensures forall p :: 18 <= p < 21 ==> MillCount(p, NumMills) == 2
  {
    assert MillCount(18, 8) == 1;
    assert MillCount(19, 8) == 1;
    assert MillCount(20, 8) == 1;
  }

  lemma TwoMillsPerPointFrom21()
    ensures forall p :: 21 <= p < 24 ==> MillCount(p, NumMills) == 2
  {
    assert MillCount(21, 8) == 1;
    assert MillCount(22, 8) == 1;
    assert MillCount(23, 8) == 1;
  }

  /** Every point lies on exactly two lines. */
  lemma TwoMillsPerPoint()
    ensures forall p: Pos :: MillCount(p, NumMills) == 2
  {
    TwoMillsPerPointFrom0();
    TwoMillsPerPointFrom3();
    TwoMillsPerPointFrom6();
    TwoMillsPerPointFrom9();
    TwoMillsPerPointFrom12();
    TwoMillsPerPointFrom15();
    TwoMillsPerPointFrom18();
    TwoMillsPerPointFrom21();
  }

  /** The points among the first `n` that hold `c`, in ascending order. */
  function Holding(s: Board, c: Cell, n: nat): (r: seq<Pos>)
    requires n <= 24
    ensures |r| <= n
  {
    if n == 0 then [] else Holding(s, c, n - 1) + (if s[n - 1] == c then [n - 1] else [])
  }

  lemma {:induction false} HoldingMeans(s: Board, c: Cell, n: nat)
    requires n <= 24
    ensures forall i :: i in Holding(s, c, n) <==> 0 <= i < n && s[i] == c
  {
    if n > 0 {
      HoldingMeans(s, c, n - 1);
    }
  }

  lemma {:induction false} HoldingAscending(s: Board, c: Cell, n: nat)
    requires n <= 24
    ensures forall j, k :: 0 <= j < k < |Holding(s, c, n)| ==> Holding(s, c, n)[j] < Holding(s, c, n)[k]
  {
    if n > 0 {
      var prev := Holding(s, c, n - 1);
      HoldingAscending(s, c, n - 1);
      HoldingMeans(s, c, n - 1);
      assert forall j :: 0 <= j < |prev| ==> prev[j] in prev;
    }
  }
}
