/** Castling rights as rook files, and how moves end them (packages/chess-core/src/castling.ts). */
module Castling {
  import opened Common
  import opened ChessTypes
  import opened Geometry

  const NO_RIGHTS := CastlingRights(SideRights(NO_ROOK, NO_ROOK), SideRights(NO_ROOK, NO_ROOK))

  function CastledKingSquare(c: Color, side: CastlingSide): int {
    MakeSquare(if side == KSide then 6 else 2, BackRank(c))
  }

  function CastledRookSquare(c: Color, side: CastlingSide): int {
    MakeSquare(if side == KSide then 5 else 3, BackRank(c))
  }

  /** The square of the rook that carries a held right. */
  function RookSquare(c: Color, file: RookFile): int {
    MakeSquare(file, BackRank(c))
  }

  function ClearSide(h: SideRights, file: int): SideRights {
    SideRights(if h.k == file then NO_ROOK else h.k, if h.q == file then NO_ROOK else h.q)
  }

  /** Drop every right whose rook stands on `sq`. */
  function ClearRightsForSquare(r: CastlingRights, sq: int): CastlingRights {
    CastlingRights(
      if RankOf(sq) == BackRank(White) then ClearSide(r.w, FileOf(sq)) else r.w,
      if RankOf(sq) == BackRank(Black) then ClearSide(r.b, FileOf(sq)) else r.b)
  }

  function ClearColorRights(r: CastlingRights, c: Color): CastlingRights {
    if c == White then r.(w := SideRights(NO_ROOK, NO_ROOK)) else r.(b := SideRights(NO_ROOK, NO_ROOK))
  }

  /** Rights after a move: a king move ends its own pair, and touching a carrying rook's square ends that right. */
  function UpdateCastlingRights(r: CastlingRights, m: Move): CastlingRights {
    var r0 := if m.piece.kind == King then ClearColorRights(r, m.piece.color) else r;
    var r1 := ClearRightsForSquare(ClearRightsForSquare(r0, m.from), m.to);
    if m.castleRook.Some? then ClearRightsForSquare(r1, m.castleRook.value) else r1
  }

  /** The two rights of a colour, while both are held, name different rooks. */
  predicate RooksDistinct(s: State) {
    && (s.castling.w.k == NO_ROOK || s.castling.w.k != s.castling.w.q)
    && (s.castling.b.k == NO_ROOK || s.castling.b.k != s.castling.b.q)
  }

  /** Is `sq` one of the squares that end a right when this move is played? */
  predicate Touches(m: Move, sq: int) {
    m.from == sq || m.to == sq || m.castleRook == Some(sq)
  }

  /** A right survives a move exactly when its king did not move and its rook's square was not touched. */
  lemma RightSurvives(r: CastlingRights, m: Move, c: Color, side: CastlingSide)
    requires OnBoard(m.from) && OnBoard(m.to) && (m.castleRook.Some? ==> OnBoard(m.castleRook.value))
    ensures var held := Right(r, c, side);
            Right(UpdateCastlingRights(r, m), c, side) ==
            if held == NO_ROOK || m.piece == Piece(c, King) || Touches(m, RookSquare(c, held)) then NO_ROOK else held
  {
    var r0 := if m.piece.kind == King then ClearColorRights(r, m.piece.color) else r;
    SquareCleared(r0, m.from, c, side);
    SquareCleared(ClearRightsForSquare(r0, m.from), m.to, c, side);
    if m.castleRook.Some? {
      SquareCleared(ClearRightsForSquare(ClearRightsForSquare(r0, m.from), m.to), m.castleRook.value, c, side);
    }
  }

  lemma SquareCleared(r: CastlingRights, sq: int, c: Color, side: CastlingSide)
    requires OnBoard(sq)
    ensures var f := Right(r, c, side);
            Right(ClearRightsForSquare(r, sq), c, side) ==
            if f == NO_ROOK || sq == RookSquare(c, f) then NO_ROOK else f
  {
    SquareCoordinates(sq);
    var f := Right(r, c, side);
    if f != NO_ROOK {
      CoordinatesSquare(f, BackRank(c));
    }
  }
}
