/** 0x88 square arithmetic and the movement tables (packages/chess-core/src/board.ts). */
module Geometry {
  import opened ChessTypes

  predicate OnBoard(sq: int) {
    0 <= sq < 128 && sq % 16 < 8
  }

  function RankOf(sq: int): int { sq / 16 }

  function FileOf(sq: int): int { sq % 8 }

  function MakeSquare(file: int, rank: int): int { rank * 16 + file }

  /** Bit `k` of `sq` in two's complement. */
  function Bit(sq: int, k: nat): int
    decreases k
  {
    if k == 0 then sq % 2 else Bit(sq / 2, k - 1)
  }

  lemma HalfOfHalf(sq: int)
    ensures sq / 2 / 2 == sq / 4
  {
  }

  lemma HalfOfQuarter(sq: int)
    ensures sq / 4 / 2 == sq / 8
  {
  }

  lemma BitThree(sq: int)
    ensures Bit(sq, 3) == sq / 8 % 2
  {
    HalfOfHalf(sq);
    HalfOfQuarter(sq);
    assert Bit(sq, 3) == Bit(sq / 2, 2) == Bit(sq / 4, 1) == Bit(sq / 8, 0);
  }

  lemma BitSeven(sq: int)
    ensures Bit(sq, 7) == sq / 128 % 2
  {
    HalfOfHalf(sq);
    HalfOfQuarter(sq);
    assert Bit(sq, 7) == Bit(sq / 2, 6) == Bit(sq / 4, 5) == Bit(sq / 8, 4);
    BitFour(sq / 8);
  }

  lemma BitFour(x: int)
    ensures Bit(x, 4) == x / 16 % 2
  {
    assert Bit(x, 4) == Bit(x / 2, 3);
    BitThree(x / 2);
    assert x / 2 / 8 == x / 16;
  }

  lemma EighthIsEven(sq: int)
    ensures sq / 8 % 2 == 0 <==> sq % 16 < 8
  {
    var t, f := sq / 16, sq % 16;
    if f < 8 {
      assert sq / 8 == 2 * t;
    } else {
      assert sq / 8 == 2 * t + 1;
    }
  }

  /** The single mask test `(sq & 0x88) === 0` decides being on the board for every index that a
      square plus one movement offset can produce. */
  lemma OnBoardIsMask(sq: int)
    requires -128 <= sq < 256
    ensures OnBoard(sq) <==> Bit(sq, 3) == 0 && Bit(sq, 7) == 0
  {
    BitThree(sq);
    BitSeven(sq);
    EighthIsEven(sq);
    assert sq / 128 == if sq < 0 then -1 else if sq < 128 then 0 else 1;
  }

  /** An on-board square is its file and its rank, and nothing else. */
  lemma SquareCoordinates(sq: int)
    requires OnBoard(sq)
    ensures 0 <= FileOf(sq) < 8 && 0 <= RankOf(sq) < 8
    ensures MakeSquare(FileOf(sq), RankOf(sq)) == sq
  {
    assert sq % 16 == sq % 8;
  }

  lemma Sixteenths(sq: int, q: int, r: int)
    requires sq == 16 * q + r && 0 <= r < 16
    ensures sq / 16 == q && sq % 16 == r
  {
    var a, b := sq / 16, sq % 16;
    assert sq == 16 * a + b;
    assert 16 * (q - a) == b - r;
    assert -1 < q - a < 1;
  }

  lemma Eighths(sq: int, q: int, r: int)
    requires sq == 8 * q + r && 0 <= r < 8
    ensures sq % 8 == r
  {
    var a, b := sq / 8, sq % 8;
    assert sq == 8 * a + b;
    assert 8 * (q - a) == b - r;
    assert -1 < q - a < 1;
  }

  lemma CoordinatesSquare(file: int, rank: int)
    requires 0 <= file < 8 && 0 <= rank < 8
    ensures OnBoard(MakeSquare(file, rank))
    ensures FileOf(MakeSquare(file, rank)) == file && RankOf(MakeSquare(file, rank)) == rank
  {
    Sixteenths(MakeSquare(file, rank), rank, file);
    Eighths(MakeSquare(file, rank), 2 * rank, file);
  }

  const KNIGHT_OFFSETS: seq<int> := [33, 31, 18, 14, -33, -31, -18, -14]
  const KING_OFFSETS: seq<int> := [16, -16, 1, -1, 17, 15, -17, -15]
  const ROOK_OFFSETS: seq<int> := [16, -16, 1, -1]
  const BISHOP_OFFSETS: seq<int> := [17, 15, -17, -15]

  function Forward(c: Color): int {
    if c == White then 16 else -16
  }

  function BackRank(c: Color): int {
    if c == White then 0 else 7
  }

  function StartRank(c: Color): int {
    if c == White then 1 else 6
  }

  function PromotionRank(c: Color): int {
    if c == White then 7 else 0
  }

  predicate IsKnightJump(d: int) {
    d == 33 || d == 31 || d == 18 || d == 14 || d == -33 || d == -31 || d == -18 || d == -14
  }

  predicate IsKingStep(d: int) {
    d == 16 || d == -16 || d == 1 || d == -1 || d == 17 || d == 15 || d == -17 || d == -15
  }

  predicate IsRookDir(d: int) {
    d == 16 || d == -16 || d == 1 || d == -1
  }

  predicate IsBishopDir(d: int) {
    d == 17 || d == 15 || d == -17 || d == -15
  }

  /** Both squares may be -1, "no such king". */
  predicate IsAdjacent(a: int, b: int) {
    a != -1 && b != -1 && IsKingStep(b - a)
  }
}
