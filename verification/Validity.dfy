/** What makes a position well formed and valid (packages/chess-core/src/position-validator.ts),
    and what a move does to the kings. */
module Validity {
  import opened Common
  import opened ChessTypes
  import opened Geometry
  import opened Attack
  import opened Castling
  import opened MoveGen
  import opened Play

  // ---- the program's validator

  function KingsUpTo(b: Board, c: Color, n: nat): nat
    requires n <= 128
  {
    if n == 0 then 0
    else KingsUpTo(b, c, n - 1) + if OnBoard(n - 1) && Holds(b, n - 1, c, King) then 1 else 0
  }

  function KingCount(b: Board, c: Color): nat {
    KingsUpTo(b, c, |b|)
  }

  function ExpectedKings(v: Variant, c: Color): nat {
    if v == Horde && c == White then 0 else 1
  }

  ghost predicate ChecksFit(b: Board, v: Variant, turn: Color) {
    match v
    case RacingKings => !InCheck(b, v, White) && !InCheck(b, v, Black)
    case Horde => turn == White ==> !InCheck(b, v, Black)
    case _ => !InCheck(b, v, Opposite(turn))
  }

  predicate PocketsFit(v: Variant, p: Pockets) {
    if v == Crazyhouse then King !in p.w && King !in p.b else p.w == [] && p.b == []
  }

  ghost predicate Valid(s: State) {
    && KingCount(s.board, White) == ExpectedKings(s.variant, White)
    && KingCount(s.board, Black) == ExpectedKings(s.variant, Black)
    && (s.variant != Atomic && s.variant != Horde ==>
          !IsAdjacent(KingSquare(s.board, White), KingSquare(s.board, Black)))
    && ChecksFit(s.board, s.variant, s.turn)
    && PocketsFit(s.variant, s.pockets)
  }

  datatype PositionError = KingCounts | AdjacentKings | WrongCheck | BadPocket

  method ValidatePositionSemantics(s: State) returns (r: Result<(), PositionError>)
    ensures r.Ok? <==> Valid(s)
  {
    var whiteKings, blackKings, whiteKingSq, blackKingSq := 0, 0, -1, -1;
    for sq := 0 to |s.board|
      invariant whiteKings == KingsUpTo(s.board, White, sq) && blackKings == KingsUpTo(s.board, Black, sq)
      invariant LastKing(s.board, White, sq, whiteKings, whiteKingSq)
      invariant LastKing(s.board, Black, sq, blackKings, blackKingSq)
    {
      if !OnBoard(sq) {
        continue;
      }
      if s.board[sq] == Some(Piece(White, King)) {
        whiteKings, whiteKingSq := whiteKings + 1, sq;
      } else if s.board[sq] == Some(Piece(Black, King)) {
        blackKings, blackKingSq := blackKings + 1, sq;
      }
    }
    var expectedWhite := if s.variant == Horde then 0 else 1;
    if whiteKings != expectedWhite || blackKings != 1 {
      return Err(KingCounts);
    }
    OneKing(s.board, Black);
    if s.variant != Horde {
      OneKing(s.board, White);
    }
    if s.variant != Atomic && s.variant != Horde && IsAdjacent(whiteKingSq, blackKingSq) {
      return Err(AdjacentKings);
    }
    var white := ComputeInCheck(s.board, s.variant, White);
    var black := ComputeInCheck(s.board, s.variant, Black);
    if s.variant == RacingKings {
      if white || black {
        return Err(WrongCheck);
      }
    } else if s.variant == Horde {
      if s.turn == White && black {
        return Err(WrongCheck);
      }
    } else if (if s.turn == White then black else white) {
      return Err(WrongCheck);
    }
    if s.variant == Crazyhouse {
      if King in s.pockets.w || King in s.pockets.b {
        return Err(BadPocket);
      }
    } else if |s.pockets.w| > 0 || |s.pockets.b| > 0 {
      return Err(BadPocket);
    }
    r := Ok(());
  }

  ghost predicate LastKing(b: Board, c: Color, n: nat, count: nat, sq: int) {
    if count == 0 then sq == -1 else 0 <= sq < n && OnBoard(sq) && Holds(b, sq, c, King)
  }

  // ---- kings without counting

  /** `k` is the one square on which `c` has a king. */
  ghost predicate KingAt(b: Board, c: Color, k: int) {
    OnBoard(k) && Holds(b, k, c, King) && forall t :: OnBoard(t) && Holds(b, t, c, King) ==> t == k
  }

  ghost predicate NoKing(b: Board, c: Color) {
    forall t :: OnBoard(t) ==> !Holds(b, t, c, King)
  }

  lemma {:induction false} CountZero(b: Board, c: Color, n: nat)
    requires n <= 128
    ensures KingsUpTo(b, c, n) == 0 <==> forall t :: 0 <= t < n && OnBoard(t) ==> !Holds(b, t, c, King)
  {
    if n > 0 {
      CountZero(b, c, n - 1);
    }
  }

  lemma {:induction false} CountOne(b: Board, c: Color, n: nat, k: int)
    requires n <= 128 && 0 <= k < n && OnBoard(k) && Holds(b, k, c, King)
    ensures KingsUpTo(b, c, n) == 1 <==> forall t :: 0 <= t < n && OnBoard(t) && Holds(b, t, c, King) ==> t == k
  {
    if k == n - 1 {
      CountZero(b, c, n - 1);
    } else {
      CountOne(b, c, n - 1, k);
      CountZero(b, c, n - 1);
    }
  }

  lemma OneKing(b: Board, c: Color)
    ensures KingCount(b, c) == 1 <==> KingAt(b, c, KingSquare(b, c))
    ensures KingCount(b, c) == 0 <==> NoKing(b, c)
    ensures KingCount(b, c) == 0 <==> KingSquare(b, c) == -1
  {
    CountZero(b, c, |b|);
    var k := KingSquare(b, c);
    if k != -1 {
      CountOne(b, c, |b|, k);
    }
  }

  lemma KingAtIsFound(b: Board, c: Color, k: int)
    requires KingAt(b, c, k)
    ensures KingSquare(b, c) == k && KingCount(b, c) == 1
  {
    OneKing(b, c);
  }

  // ---- well-formedness

  ghost predicate OffBoardEmpty(b: Board) {
    forall sq :: 0 <= sq < 128 && !OnBoard(sq) ==> b[sq].None?
  }

  /** A king on `k` stands on the back rank, on the proper side of its castling rook. */
  predicate KingBeside(c: Color, side: CastlingSide, file: RookFile, k: int) {
    RankOf(k) == BackRank(c) && if side == KSide then FileOf(k) < file else file < FileOf(k)
  }

  /** A held right names an own back-rank rook on the proper side of an own back-rank king. */
  predicate RightInStep(b: Board, c: Color, side: CastlingSide, file: RookFile) {
    file != NO_ROOK ==>
      Holds(b, RookSquare(c, file), c, Rook) && KingSquare(b, c) != -1 && KingBeside(c, side, file, KingSquare(b, c))
  }

  /** In Atomic the rook, or the king, may have been blown away since. */
  predicate RightAtomic(b: Board, c: Color, side: CastlingSide, file: RookFile) {
    file != NO_ROOK ==>
      && (Holds(b, RookSquare(c, file), c, Rook) || b[RookSquare(c, file)].None?)
      && (KingSquare(b, c) != -1 ==> KingBeside(c, side, file, KingSquare(b, c)))
  }

  ghost predicate RightsInStep(s: State) {
    forall c: Color, side: CastlingSide :: RightInStep(s.board, c, side, Right(s.castling, c, side))
  }

  ghost predicate RightsFit(s: State) {
    forall c: Color, side: CastlingSide ::
      if s.variant == Atomic then RightAtomic(s.board, c, side, Right(s.castling, c, side))
      else RightInStep(s.board, c, side, Right(s.castling, c, side))
  }

  /** The en-passant square is empty and the enemy pawn just pushed stands behind it. */
  predicate EpFits(b: Board, turn: Color, ep: int) {
    ep != -1 ==>
      && OnBoard(ep) && RankOf(ep) == (if turn == White then 5 else 2)
      && b[ep].None? && Holds(b, ep - Forward(turn), Opposite(turn), Pawn)
  }

  predicate CountersFit(s: State) {
    && s.halfmoves >= 0 && s.fullmoves >= 1
    && s.checkCount.w >= 0 && s.checkCount.b >= 0
    && (s.variant != ThreeCheck ==> s.checkCount == Counters(0, 0))
  }

  ghost predicate WellFormed(s: State) {
    && OffBoardEmpty(s.board)
    && RightsFit(s)
    && EpFits(s.board, s.turn, s.epSquare)
    && PocketsFit(s.variant, s.pockets)
    && CountersFit(s)
  }

  // ---- what one legal move does to the kings

  lemma MovedCell(s: State, m: Move, t: int)
    requires IsBoardMove(s, m) && !IsCastling(m) && Playable(s, m) && 0 <= t < 128
    ensures MovedBoard(s, m)[t] ==
            if t == m.to then Arriving(s, m)
            else if t == m.from || (m.flags.enPassant && t == m.to - Forward(s.turn)) then None
            else s.board[t]
  {
  }

  /** What an ordinary move captures stood on the square it clears. */
  lemma CapturedStood(s: State, m: Move)
    requires IsBoardMove(s, m) && !IsCastling(m) && EpFits(s.board, s.turn, s.epSquare)
    ensures m.flags.enPassant ==> m.captured == Some(Piece(Opposite(s.turn), Pawn)) && s.board[m.to].None?
    ensures !m.flags.enPassant ==> m.captured == s.board[m.to]
    ensures m.captured.Some? ==> m.captured.value.color == Opposite(s.turn)
    ensures m.promotion.Some? ==> m.promotion.value != King && m.piece.kind == Pawn
    ensures m.castleRook.None?
  {
  }

  /** The square an en-passant capture empties besides the pawn's own. */
  predicate IsVictim(s: State, m: Move, t: int) {
    m.flags.enPassant && t == m.to - Forward(s.turn)
  }

  lemma KingsAfterMoved(s: State, m: Move, c: Color, t: int)
    requires IsBoardMove(s, m) && !IsCastling(m) && Playable(s, m) && 0 <= t < 128
    ensures Holds(MovedBoard(s, m), t, c, King) <==>
            if m.piece == Piece(c, King) && t == m.to then true
            else t != m.from && t != m.to && !IsVictim(s, m, t) && Holds(s.board, t, c, King)
  {
    MovedCell(s, m, t);
  }

  lemma OnlyKingsCastle(s: State, m: Move)
    requires IsBoardMove(s, m) && IsCastling(m)
    ensures m.piece == Piece(s.turn, King) && IsCastle(s, m.from, m)
  {
  }

  lemma CastleFacts(s: State, m: Move)
    requires m.piece.color == s.turn && IsCastle(s, m.from, m)
    ensures var side := CastleSideOf(m); var rook := RookSquare(s.turn, Right(s.castling, s.turn, side));
            && CanCastle(s, m.from, s.turn, side) && m == CastleMove(s, m.from, m.piece, side)
            && OnBoard(rook) && m.castleRook == Some(rook) && m.to == CastledKingSquare(s.turn, side)
            && OnBoard(CastledRookSquare(s.turn, side)) && OnBoard(CastledKingSquare(s.turn, side))
            && RankOf(rook) == RankOf(m.from) == RankOf(m.to) == BackRank(s.turn)
            && RankOf(CastledRookSquare(s.turn, side)) == BackRank(s.turn)
  {
    var side :| CanCastle(s, m.from, m.piece.color, side) && m == CastleMove(s, m.from, m.piece, side);
    assert side == CastleSideOf(m);
    CoordinatesSquare(Right(s.castling, s.turn, side), BackRank(s.turn));
    CoordinatesSquare(if side == KSide then 6 else 2, BackRank(s.turn));
    CoordinatesSquare(if side == KSide then 5 else 3, BackRank(s.turn));
  }

  /** Castling's two destinations are free but for the two castling men. */
  lemma CastleDestinations(s: State, m: Move)
    requires IsBoardMove(s, m) && IsCastling(m)
    ensures var rookTo := CastledRookSquare(s.turn, CastleSideOf(m));
            && m.castleRook.Some?
            && (m.to == m.from || m.to == m.castleRook.value || s.board[m.to].None?)
            && (rookTo == m.from || rookTo == m.castleRook.value || s.board[rookTo].None?)
            && m.from != m.castleRook.value && m.to != rookTo
  {
    OnlyKingsCastle(s, m);
    CastleFacts(s, m);
  }
}
