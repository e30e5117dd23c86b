/** The generating loops themselves, each proved to build the list of module MoveGen
    (packages/chess-core/src/movegen.ts). */
module MoveGenerator {
  import opened Common
  import opened ChessTypes
  import opened Geometry
  import opened Attack
  import opened Castling
  import opened MoveGen

  method GenerateLeaps(b: Board, from: int, p: Piece, offsets: seq<int>) returns (moves: seq<Move>)
    ensures moves == Leaps(b, from, p, offsets)
  {
    moves := [];
    for i := 0 to |offsets|
      invariant moves == Leaps(b, from, p, offsets[..i])
    {
      assert offsets[..i + 1][..i] == offsets[..i];
      var to := from + offsets[i];
      if OnBoard(to) {
        if b[to].None? {
          moves := moves + [Move(from, to, p, None, None, None, None, NORMAL)];
        } else if b[to].value.color == Opposite(p.color) {
          moves := moves + [Move(from, to, p, b[to], None, None, None, NORMAL.(capture := true))];
        }
      }
    }
    assert offsets[..|offsets|] == offsets;
  }

  method GenerateSliding(b: Board, from: int, p: Piece, offsets: seq<int>) returns (moves: seq<Move>)
    requires OnBoard(from) && 0 !in offsets
    ensures moves == Slides(b, from, p, offsets)
  {
    moves := [];
    for i := 0 to |offsets|
      invariant moves == Slides(b, from, p, offsets[..i])
    {
      assert offsets[..i + 1][..i] == offsets[..i];
      var off := offsets[i];
      ghost var before := moves;
      ghost var last := from;
      var to := from + off;
      while OnBoard(to)
        invariant OnBoard(last) && to == last + off
        invariant before + Ray(b, from, p, from, off) == moves + Ray(b, from, p, last, off)
        decreases if off > 0 then 128 - last else last + 1
      {
        if b[to].None? {
          moves := moves + [Move(from, to, p, None, None, None, None, NORMAL)];
        } else {
          if b[to].value.color == Opposite(p.color) {
            moves := moves + [Move(from, to, p, b[to], None, None, None, NORMAL.(capture := true))];
          }
          break;
        }
        last := to;
        to := to + off;
      }
      assert moves == before + Ray(b, from, p, from, off);
    }
    assert offsets[..|offsets|] == offsets;
  }

  method GeneratePromotions(m: Move) returns (moves: seq<Move>)
    ensures moves == Promoted(m, PROMOTIONS)
  {
    moves := [];
    for i := 0 to |PROMOTIONS|
      invariant moves == Promoted(m, PROMOTIONS[..i])
    {
      assert PROMOTIONS[..i + 1][..i] == PROMOTIONS[..i];
      moves := moves + [m.(promotion := Some(PROMOTIONS[i]), flags := m.flags.(promotion := true))];
    }
    assert PROMOTIONS[..|PROMOTIONS|] == PROMOTIONS;
  }

  method GeneratePushes(b: Board, v: Variant, from: int, p: Piece) returns (moves: seq<Move>)
    requires OnBoard(from)
    ensures moves == Pushes(b, v, from, p)
  {
    moves := [];
    var forward := Forward(p.color);
    var one := from + forward;
    if OnBoard(one) && b[one].None? {
      if RankOf(one) == PromotionRank(p.color) {
        moves := GeneratePromotions(Move(from, one, p, None, None, None, None, NORMAL));
      } else {
        moves := [Move(from, one, p, None, None, None, None, NORMAL)];
        if CanDouble(v, p.color, from) {
          var two := from + forward * 2;
          if 0 <= two < 128 && b[two].None? {
            moves := moves + [Move(from, two, p, None, None, None, None, NORMAL.(double := true))];
          }
        }
      }
    }
  }

  method GeneratePawnCapture(b: Board, ep: int, from: int, p: Piece, diag: int) returns (moves: seq<Move>)
    requires OnBoard(from) && (diag == Forward(p.color) - 1 || diag == Forward(p.color) + 1)
    ensures moves == PawnCapture(b, ep, from, p, diag)
  {
    moves := [];
    var to := from + diag;
    if OnBoard(to) {
      if b[to].Some? && b[to].value.color == Opposite(p.color) {
        var m := Move(from, to, p, b[to], None, None, None, NORMAL.(capture := true));
        if RankOf(to) == PromotionRank(p.color) {
          moves := GeneratePromotions(m);
        } else {
          moves := [m];
        }
      } else if to == ep && ep != -1 {
        var capturedSq := to - Forward(p.color);
        moves := [Move(from, to, p, b[capturedSq], None, None, None, NORMAL.(capture := true, enPassant := true))];
      }
    }
  }

  method GeneratePawnMoves(b: Board, v: Variant, ep: int, from: int, p: Piece) returns (moves: seq<Move>)
    requires OnBoard(from)
    ensures moves == PawnMoves(b, v, ep, from, p)
  {
    moves := GeneratePushes(b, v, from, p);
    var left := GeneratePawnCapture(b, ep, from, p, if p.color == White then 15 else -15);
    var right := GeneratePawnCapture(b, ep, from, p, if p.color == White then 17 else -17);
    moves := moves + left + right;
  }

  method CastlingSpanClear(b: Board, kingFrom: int, kingTo: int, rookFrom: int, rookTo: int) returns (clear: bool)
    requires OnBoard(kingFrom) && OnBoard(kingTo) && OnBoard(rookFrom) && OnBoard(rookTo)
    requires RankOf(kingFrom) == RankOf(kingTo) == RankOf(rookFrom) == RankOf(rookTo)
    ensures clear == (SpanClear(b, kingFrom, kingTo, kingFrom, rookFrom) &&
                      SpanClear(b, rookFrom, rookTo, kingFrom, rookFrom))
  {
    clear := OneSpanClear(b, kingFrom, kingTo, kingFrom, rookFrom);
    if clear {
      clear := OneSpanClear(b, rookFrom, rookTo, kingFrom, rookFrom);
    }
  }

  lemma BetweenOnRank(a: int, z: int)
    requires OnBoard(a) && OnBoard(z) && RankOf(a) == RankOf(z)
    ensures 0 <= RankOf(a) < 8 && 0 <= Min(FileOf(a), FileOf(z)) <= Max(FileOf(a), FileOf(z)) < 8
    ensures MakeSquare(Min(FileOf(a), FileOf(z)), RankOf(a)) == Min(a, z)
    ensures MakeSquare(Max(FileOf(a), FileOf(z)), RankOf(a)) == Max(a, z)
  {
    SquareCoordinates(a);
    SquareCoordinates(z);
  }

  method OneSpanClear(b: Board, a: int, z: int, kingFrom: int, rookFrom: int) returns (clear: bool)
    requires OnBoard(a) && OnBoard(z) && RankOf(a) == RankOf(z)
    ensures clear == SpanClear(b, a, z, kingFrom, rookFrom)
  {
    BetweenOnRank(a, z);
    clear := FilesClear(b, RankOf(a), Min(FileOf(a), FileOf(z)), Max(FileOf(a), FileOf(z)), kingFrom, rookFrom);
  }

  /** Walk the files of one rank, skipping the squares the two castling men stand on. */
  method FilesClear(b: Board, rank: int, low: int, high: int, kingFrom: int, rookFrom: int) returns (clear: bool)
    requires 0 <= rank < 8 && 0 <= low <= high < 8
    ensures clear == forall sq :: MakeSquare(low, rank) <= sq <= MakeSquare(high, rank) && 0 <= sq < 128 ==>
                                    sq == kingFrom || sq == rookFrom || b[sq].None?
  {
    for file := low to high + 1
      invariant forall sq :: MakeSquare(low, rank) <= sq < MakeSquare(file, rank) && 0 <= sq < 128 ==>
                               sq == kingFrom || sq == rookFrom || b[sq].None?
    {
      var sq := MakeSquare(file, rank);
      if sq == kingFrom || sq == rookFrom {
        continue;
      }
      if b[sq].Some? {
        return false;
      }
    }
    clear := true;
  }

  method ComputeSafeForKing(b: Board, v: Variant, us: Color, sq: int, shield: int) returns (safe: bool)
    requires OnBoard(sq)
    requires shield == if v == Atomic then KingSquare(b, Opposite(us)) else -1
    ensures safe == SafeForKing(b, v, us, sq)
  {
    safe := true;
    if !IsAdjacent(sq, shield) {
      var hit := IsSquareAttacked(b, sq, Opposite(us));
      safe := !hit;
    }
  }

  method ComputeKingPathSafe(b: Board, v: Variant, us: Color, kingFrom: int, kingTo: int) returns (safe: bool)
    requires OnBoard(kingFrom) && OnBoard(kingTo) && RankOf(kingFrom) == RankOf(kingTo)
    ensures safe == KingPathSafe(b, v, us, kingFrom, kingTo)
  {
    var shield := -1;
    if v == Atomic {
      shield := FindKing(b, Opposite(us));
    }
    safe := WalkKingPath(b, v, us, kingFrom, kingTo, shield);
  }

  lemma OnRank(file: int, rank: int)
    requires 0 <= file < 8 && 0 <= rank < 8
    ensures OnBoard(MakeSquare(file, rank))
  {
    CoordinatesSquare(file, rank);
  }

  method WalkKingPath(b: Board, v: Variant, us: Color, a: int, z: int, shield: int) returns (safe: bool)
    requires OnBoard(a) && OnBoard(z) && RankOf(a) == RankOf(z)
    requires shield == if v == Atomic then KingSquare(b, Opposite(us)) else -1
    ensures safe == KingPathSafe(b, v, us, a, z)
  {
    BetweenOnRank(a, z);
    safe := FilesSafe(b, v, us, RankOf(a), Min(FileOf(a), FileOf(z)), Max(FileOf(a), FileOf(z)), shield);
  }

  method FilesSafe(b: Board, v: Variant, us: Color, rank: int, low: int, high: int, shield: int) returns (safe: bool)
    requires 0 <= rank < 8 && 0 <= low <= high < 8
    requires shield == if v == Atomic then KingSquare(b, Opposite(us)) else -1
    ensures safe == forall sq :: MakeSquare(low, rank) <= sq <= MakeSquare(high, rank) ==> SafeForKing(b, v, us, sq)
  {
    for file := low to high + 1
      invariant forall sq :: MakeSquare(low, rank) <= sq < MakeSquare(file, rank) ==> SafeForKing(b, v, us, sq)
    {
      OnRank(file, rank);
      safe := ComputeSafeForKing(b, v, us, MakeSquare(file, rank), shield);
      if !safe {
        return;
      }
    }
    safe := true;
  }

  method ComputeCastlingSpans(b: Board, from: int, us: Color, side: CastlingSide, rookFile: RookFile)
    returns (clear: bool)
    requires OnBoard(from) && RankOf(from) == BackRank(us) && rookFile != NO_ROOK
    ensures var rook := RookSquare(us, rookFile);
            clear == (SpanClear(b, from, CastledKingSquare(us, side), from, rook) &&
                      SpanClear(b, rook, CastledRookSquare(us, side), from, rook))
  {
    CoordinatesSquare(rookFile, BackRank(us));
    CoordinatesSquare(if side == KSide then 6 else 2, BackRank(us));
    CoordinatesSquare(if side == KSide then 5 else 3, BackRank(us));
    clear := CastlingSpanClear(b, from, CastledKingSquare(us, side), RookSquare(us, rookFile),
                               CastledRookSquare(us, side));
  }

  /** The guards of one side of the castling loop, each a reason to pass on to the next side. */
  method ComputeCastleSetUp(s: State, from: int, us: Color, side: CastlingSide) returns (ok: bool)
    requires OnBoard(from) && s.variant != RacingKings && RankOf(from) == BackRank(us)
    requires s.variant == Chess960 || FileOf(from) == TRADITIONAL_KING_FILE
    ensures ok == CastleSetUp(s, from, us, side)
  {
    var rookFile := Right(s.castling, us, side);
    if rookFile == NO_ROOK {
      return false;
    }
    if s.variant != Chess960 && rookFile != TraditionalRookFile(side) {
      return false;
    }
    if !Holds(s.board, RookSquare(us, rookFile), us, Rook) {
      return false;
    }
    ok := ComputeCastlingSpans(s.board, from, us, side, rookFile);
  }

  method ComputeCanCastle(s: State, from: int, us: Color, side: CastlingSide) returns (ok: bool)
    requires OnBoard(from) && s.variant != RacingKings && RankOf(from) == BackRank(us)
    requires s.variant == Chess960 || FileOf(from) == TRADITIONAL_KING_FILE
    ensures ok == CanCastle(s, from, us, side)
  {
    ok := ComputeCastleSetUp(s, from, us, side);
    if ok {
      CoordinatesSquare(if side == KSide then 6 else 2, BackRank(us));
      ok := ComputeKingPathSafe(s.board, s.variant, us, from, CastledKingSquare(us, side));
    }
  }

  method GenerateCastles(s: State, from: int, p: Piece) returns (moves: seq<Move>)
    requires OnBoard(from)
    ensures moves == Castles(s, from, p)
  {
    moves := [];
    if s.variant == RacingKings {
      return;
    }
    if RankOf(from) != BackRank(p.color) {
      return;
    }
    if s.variant != Chess960 && FileOf(from) != TRADITIONAL_KING_FILE {
      return;
    }
    var sides := [KSide, QSide];
    for i := 0 to 2
      invariant moves == (if i >= 1 && CanCastle(s, from, p.color, KSide) then [CastleMove(s, from, p, KSide)] else [])
                         + (if i < 2 || !CanCastle(s, from, p.color, QSide) then []
                            else [CastleMove(s, from, p, QSide)])
    {
      var ok := ComputeCanCastle(s, from, p.color, sides[i]);
      if ok {
        moves := moves + [CastleMove(s, from, p, sides[i])];
      }
    }
  }

  method GenerateDropsOf(b: Board, us: Color, k: Kind) returns (moves: seq<Move>)
    ensures moves == DropsOf(b, us, k, |b|)
  {
    moves := [];
    for to := 0 to |b|
      invariant moves == DropsOf(b, us, k, to)
    {
      if OnBoard(to) && b[to].None? && !(k == Pawn && (RankOf(to) == 0 || RankOf(to) == 7)) {
        moves := moves + [Move(-1, to, Piece(us, k), None, None, Some(k), None, NORMAL)];
      }
    }
  }

  lemma DropsNext(b: Board, us: Color, pocket: seq<Kind>, i: nat)
    requires i < |pocket|
    ensures forall k :: k in pocket[..i + 1] <==> k in pocket[..i] || k == pocket[i]
    ensures Drops(b, us, pocket[..i + 1]) ==
            Drops(b, us, pocket[..i])
            + if pocket[i] in pocket[..i] || pocket[i] == King then [] else DropsOf(b, us, pocket[i], |b|)
  {
    assert pocket[..i + 1][..i] == pocket[..i] && pocket[..i + 1] == pocket[..i] + [pocket[i]];
  }

  method GenerateDrops(b: Board, us: Color, pocket: seq<Kind>) returns (moves: seq<Move>)
    ensures moves == Drops(b, us, pocket)
  {
    moves := [];
    var seen: set<Kind> := {};
    for i := 0 to |pocket|
      invariant moves == Drops(b, us, pocket[..i])
      invariant forall k :: k in seen <==> k in pocket[..i]
    {
      var k := pocket[i];
      DropsNext(b, us, pocket, i);
      if k in seen {
        continue;
      }
      seen := seen + {k};
      if k == King {
        continue;
      }
      var drops := GenerateDropsOf(b, us, k);
      moves := moves + drops;
    }
    assert pocket[..|pocket|] == pocket;
  }

  method GenerateMovesFrom(s: State, from: int) returns (moves: seq<Move>)
    requires OnBoard(from) && Own(s.board, from, s.turn)
    ensures moves == MovesFrom(s, from)
  {
    var p := s.board[from].value;
    match p.kind {
      case Pawn => moves := GeneratePawnMoves(s.board, s.variant, s.epSquare, from, p);
      case Knight => moves := GenerateLeaps(s.board, from, p, KNIGHT_OFFSETS);
      case King =>
        moves := GenerateLeaps(s.board, from, p, KING_OFFSETS);
        var castles := GenerateCastles(s, from, p);
        moves := moves + castles;
      case Bishop => moves := GenerateSliding(s.board, from, p, BISHOP_OFFSETS);
      case Rook => moves := GenerateSliding(s.board, from, p, ROOK_OFFSETS);
      case Queen => moves := GenerateSliding(s.board, from, p, KING_OFFSETS);
    }
  }

  method GeneratePseudoLegal(s: State) returns (moves: seq<Move>)
    ensures moves == PseudoMoves(s)
  {
    moves := [];
    for from := 0 to |s.board|
      invariant moves == MovesUpTo(s, from)
    {
      if !OnBoard(from) || !Own(s.board, from, s.turn) {
        continue;
      }
      var more := GenerateMovesFrom(s, from);
      moves := moves + more;
    }
    if s.variant == Crazyhouse {
      var drops := GenerateDrops(s.board, s.turn, PocketOf(s.pockets, s.turn));
      moves := moves + drops;
    }
  }
}
