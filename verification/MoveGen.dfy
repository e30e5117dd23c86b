/** Pseudo-legal moves: the list the program builds, in its order, and the rule that says which
    moves are in it (packages/chess-core/src/movegen.ts). */
module MoveGen {
  import opened Common
  import opened ChessTypes
  import opened Geometry
  import opened Attack
  import opened Castling

  const PROMOTIONS: seq<Kind> := [Queen, Rook, Bishop, Knight]

  predicate Own(b: Board, sq: int, us: Color) {
    0 <= sq < 128 && b[sq].Some? && b[sq].value.color == us
  }

  predicate Enemy(b: Board, sq: int, us: Color) {
    0 <= sq < 128 && b[sq].Some? && b[sq].value.color == Opposite(us)
  }

  // ---- the lists, in generation order

  /** The ordinary move of `p` from `from` to `to`, capturing whatever is there. */
  function StepTo(b: Board, from: int, to: int, p: Piece): Move
    requires OnBoard(to)
  {
    Move(from, to, p, b[to], None, None, None, NORMAL.(capture := b[to].Some?))
  }

  function StepMoves(b: Board, from: int, to: int, p: Piece): seq<Move>
    requires OnBoard(to)
  {
    if Own(b, to, p.color) then [] else [StepTo(b, from, to, p)]
  }

  function Leaps(b: Board, from: int, p: Piece, offsets: seq<int>): seq<Move> {
    if offsets == [] then []
    else
      var i := |offsets| - 1;
      var to := from + offsets[i];
      Leaps(b, from, p, offsets[..i]) + if OnBoard(to) then StepMoves(b, from, to, p) else []
  }

  /** The moves of a slider on `from` along `off`, from the square after `a` on. */
  function Ray(b: Board, from: int, p: Piece, a: int, off: int): seq<Move>
    requires OnBoard(a) && off != 0
    decreases if off > 0 then 128 - a else a + 1
  {
    var to := a + off;
    if !OnBoard(to) then []
    else if b[to].None? then [StepTo(b, from, to, p)] + Ray(b, from, p, to, off)
    else StepMoves(b, from, to, p)
  }

  function Slides(b: Board, from: int, p: Piece, offsets: seq<int>): seq<Move>
    requires OnBoard(from) && 0 !in offsets
  {
    if offsets == [] then []
    else
      var i := |offsets| - 1;
      Slides(b, from, p, offsets[..i]) + Ray(b, from, p, from, offsets[i])
  }

  /** One move per promotion piece when `m` lands on the last rank, otherwise `m` alone. */
  function Promoted(m: Move, kinds: seq<Kind>): seq<Move> {
    if kinds == [] then []
    else Promoted(m, kinds[..|kinds| - 1])
         + [m.(promotion := Some(kinds[|kinds| - 1]), flags := m.flags.(promotion := true))]
  }

  function WithPromotion(m: Move): seq<Move> {
    if RankOf(m.to) == PromotionRank(m.piece.color) then Promoted(m, PROMOTIONS) else [m]
  }

  function CanDouble(v: Variant, us: Color, from: int): bool {
    RankOf(from) == StartRank(us) || (v == Horde && us == White && RankOf(from) == 0)
  }

  function Pushes(b: Board, v: Variant, from: int, p: Piece): seq<Move>
    requires OnBoard(from)
  {
    var one := from + Forward(p.color);
    var two := from + 2 * Forward(p.color);
    if !(OnBoard(one) && b[one].None?) then []
    else WithPromotion(Move(from, one, p, None, None, None, None, NORMAL)) +
         if RankOf(one) != PromotionRank(p.color) && CanDouble(v, p.color, from) && 0 <= two < 128 && b[two].None?
         then [Move(from, two, p, None, None, None, None, NORMAL.(double := true))] else []
  }

  function PawnCapture(b: Board, ep: int, from: int, p: Piece, diag: int): seq<Move>
    requires OnBoard(from) && (diag == Forward(p.color) - 1 || diag == Forward(p.color) + 1)
  {
    var to := from + diag;
    if !OnBoard(to) then []
    else if Enemy(b, to, p.color) then
      WithPromotion(Move(from, to, p, b[to], None, None, None, NORMAL.(capture := true)))
    else if to == ep != -1 then
      [Move(from, to, p, b[to - Forward(p.color)], None, None, None, NORMAL.(capture := true, enPassant := true))]
    else []
  }

  function PawnMoves(b: Board, v: Variant, ep: int, from: int, p: Piece): seq<Move>
    requires OnBoard(from)
  {
    Pushes(b, v, from, p)
    + PawnCapture(b, ep, from, p, if p.color == White then 15 else -15)
    + PawnCapture(b, ep, from, p, if p.color == White then 17 else -17)
  }

  const TRADITIONAL_KING_FILE := 4

  function TraditionalRookFile(side: CastlingSide): int {
    if side == KSide then 7 else 0
  }

  function Min(a: int, b: int): int { if a <= b then a else b }

  function Max(a: int, b: int): int { if a <= b then b else a }

  /** Between `a` and `z` inclusive only the two castling men may stand. */
  predicate SpanClear(b: Board, a: int, z: int, kingFrom: int, rookFrom: int) {
    forall sq :: Min(a, z) <= sq <= Max(a, z) && 0 <= sq < 128 ==> sq == kingFrom || sq == rookFrom || b[sq].None?
  }

  /** A square our king may pass over: unattacked, or shielded by the enemy king in Atomic. */
  ghost predicate SafeForKing(b: Board, v: Variant, us: Color, sq: int) {
    (v == Atomic && IsAdjacent(sq, KingSquare(b, Opposite(us)))) || !Attacked(b, sq, Opposite(us))
  }

  /** The king is safe on every square from its origin to its destination inclusive. */
  ghost predicate KingPathSafe(b: Board, v: Variant, us: Color, a: int, z: int) {
    forall sq :: Min(a, z) <= sq <= Max(a, z) ==> SafeForKing(b, v, us, sq)
  }

  /** Everything castling asks for but the safety of the king's path. */
  predicate CastleSetUp(s: State, from: int, us: Color, side: CastlingSide) {
    var file := Right(s.castling, us, side);
    var rookFrom := RookSquare(us, file);
    && s.variant != RacingKings
    && RankOf(from) == BackRank(us)
    && (s.variant == Chess960 || FileOf(from) == TRADITIONAL_KING_FILE)
    && file != NO_ROOK
    && (s.variant == Chess960 || file == TraditionalRookFile(side))
    && Holds(s.board, rookFrom, us, Rook)
    && SpanClear(s.board, from, CastledKingSquare(us, side), from, rookFrom)
    && SpanClear(s.board, rookFrom, CastledRookSquare(us, side), from, rookFrom)
  }

  ghost predicate CanCastle(s: State, from: int, us: Color, side: CastlingSide) {
    CastleSetUp(s, from, us, side) && KingPathSafe(s.board, s.variant, us, from, CastledKingSquare(us, side))
  }

  function CastleMove(s: State, from: int, p: Piece, side: CastlingSide): Move {
    Move(from, CastledKingSquare(p.color, side), p, None, None, None,
         Some(RookSquare(p.color, Right(s.castling, p.color, side))),
         NORMAL.(kingCastle := side == KSide, queenCastle := side == QSide))
  }

  ghost function Castles(s: State, from: int, p: Piece): seq<Move> {
    (if CanCastle(s, from, p.color, KSide) then [CastleMove(s, from, p, KSide)] else [])
    + (if CanCastle(s, from, p.color, QSide) then [CastleMove(s, from, p, QSide)] else [])
  }

  ghost function MovesFrom(s: State, from: int): seq<Move> {
    if !(OnBoard(from) && Own(s.board, from, s.turn)) then []
    else
      var p := s.board[from].value;
      match p.kind
      case Pawn => PawnMoves(s.board, s.variant, s.epSquare, from, p)
      case Knight => Leaps(s.board, from, p, KNIGHT_OFFSETS)
      case King => Leaps(s.board, from, p, KING_OFFSETS) + Castles(s, from, p)
      case Bishop => Slides(s.board, from, p, BISHOP_OFFSETS)
      case Rook => Slides(s.board, from, p, ROOK_OFFSETS)
      case Queen => Slides(s.board, from, p, KING_OFFSETS)
  }

  ghost function MovesUpTo(s: State, n: nat): seq<Move> {
    if n == 0 then [] else MovesUpTo(s, n - 1) + MovesFrom(s, n - 1)
  }

  predicate DropSquare(b: Board, k: Kind, to: int) {
    OnBoard(to) && b[to].None? && (k == Pawn ==> RankOf(to) != 0 && RankOf(to) != 7)
  }

  function DropTo(us: Color, k: Kind, to: int): Move {
    Move(-1, to, Piece(us, k), None, None, Some(k), None, NORMAL)
  }

  function DropsOf(b: Board, us: Color, k: Kind, n: nat): seq<Move>
    requires n <= 128
  {
    if n == 0 then []
    else DropsOf(b, us, k, n - 1) + if DropSquare(b, k, n - 1) then [DropTo(us, k, n - 1)] else []
  }

  /** The drops of the distinct kinds in `pocket`, in first-occurrence order. */
  function Drops(b: Board, us: Color, pocket: seq<Kind>): seq<Move> {
    if pocket == [] then []
    else
      var i := |pocket| - 1;
      Drops(b, us, pocket[..i])
      + if pocket[i] in pocket[..i] || pocket[i] == King then [] else DropsOf(b, us, pocket[i], |b|)
  }

  ghost function PseudoMoves(s: State): seq<Move> {
    MovesUpTo(s, |s.board|)
    + if s.variant == Crazyhouse then Drops(s.board, s.turn, PocketOf(s.pockets, s.turn)) else []
  }

  // ---- the rule

  predicate PromotionFits(m: Move) {
    if RankOf(m.to) == PromotionRank(m.piece.color)
    then m.promotion.Some? && m.promotion.value in {Queen, Rook, Bishop, Knight} && m.flags.promotion
    else m.promotion.None? && !m.flags.promotion
  }

  predicate IsPush(b: Board, from: int, m: Move) {
    && m.to == from + Forward(m.piece.color)
    && OnBoard(m.to) && b[m.to].None?
    && PromotionFits(m)
    && m == Move(from, m.to, m.piece, None, m.promotion, None, None, NORMAL.(promotion := m.promotion.Some?))
  }

  predicate IsDoublePush(b: Board, v: Variant, from: int, m: Move) {
    var one := from + Forward(m.piece.color);
    && OnBoard(one) && b[one].None?
    && m.to == one + Forward(m.piece.color)
    && OnBoard(m.to) && b[m.to].None?
    && CanDouble(v, m.piece.color, from)
    && m == Move(from, m.to, m.piece, None, None, None, None, NORMAL.(double := true))
  }

  predicate IsPawnStrike(from: int, m: Move) {
    OnBoard(m.to) &&
    (m.to - from == Forward(m.piece.color) - 1 || m.to - from == Forward(m.piece.color) + 1)
  }

  predicate IsPawnCapture(b: Board, from: int, m: Move) {
    && IsPawnStrike(from, m)
    && Enemy(b, m.to, m.piece.color)
    && PromotionFits(m)
    && m == Move(from, m.to, m.piece, b[m.to], m.promotion, None, None,
                 NORMAL.(capture := true, promotion := m.promotion.Some?))
  }

  predicate IsEnPassant(b: Board, ep: int, from: int, m: Move) {
    && IsPawnStrike(from, m)
    && !Enemy(b, m.to, m.piece.color)
    && m.to == ep != -1
    && 0 <= m.to - Forward(m.piece.color) < 128
    && m == Move(from, m.to, m.piece, b[m.to - Forward(m.piece.color)], None, None, None,
                 NORMAL.(capture := true, enPassant := true))
  }

  predicate IsPawnMove(b: Board, v: Variant, ep: int, from: int, m: Move) {
    IsPush(b, from, m) || IsDoublePush(b, v, from, m) || IsPawnCapture(b, from, m) || IsEnPassant(b, ep, from, m)
  }

  predicate IsStep(b: Board, from: int, m: Move) {
    OnBoard(m.to) && !Own(b, m.to, m.piece.color) && m == StepTo(b, from, m.to, m.piece)
  }

  ghost predicate IsCastle(s: State, from: int, m: Move) {
    exists side :: CanCastle(s, from, m.piece.color, side) && m == CastleMove(s, from, m.piece, side)
  }

  predicate IsDrop(s: State, m: Move) {
    && s.variant == Crazyhouse
    && m.piece.kind != King && m.piece.kind in PocketOf(s.pockets, s.turn)
    && DropSquare(s.board, m.piece.kind, m.to)
    && m == DropTo(s.turn, m.piece.kind, m.to)
  }

  /** A move of the man standing on `m.from`. */
  ghost predicate IsBoardMove(s: State, m: Move) {
    && OnBoard(m.from) && s.board[m.from] == Some(m.piece) && m.piece.color == s.turn
    && match m.piece.kind
       case Pawn => IsPawnMove(s.board, s.variant, s.epSquare, m.from, m)
       case Knight => IsKnightJump(m.to - m.from) && IsStep(s.board, m.from, m)
       case King => (IsKingStep(m.to - m.from) && IsStep(s.board, m.from, m)) || IsCastle(s, m.from, m)
       case Bishop => ReachesDiagonally(s.board, m.from, m.to) && IsStep(s.board, m.from, m)
       case Rook => ReachesStraight(s.board, m.from, m.to) && IsStep(s.board, m.from, m)
       case Queen => (ReachesDiagonally(s.board, m.from, m.to) || ReachesStraight(s.board, m.from, m.to))
                     && IsStep(s.board, m.from, m)
  }

  ghost predicate IsPseudo(s: State, m: Move) {
    IsBoardMove(s, m) || IsDrop(s, m)
  }

  // ---- the list holds exactly the moves of the rule

  lemma {:induction false} LeapsExact(b: Board, from: int, p: Piece, offsets: seq<int>, m: Move)
    ensures m in Leaps(b, from, p, offsets) <==> m.to - from in offsets && m.piece == p && IsStep(b, from, m)
  {
    if offsets != [] {
      var i := |offsets| - 1;
      LeapsExact(b, from, p, offsets[..i], m);
      assert offsets == offsets[..i] + [offsets[i]];
    }
  }

  lemma {:induction false} RayExact(b: Board, from: int, p: Piece, a: int, off: int, m: Move)
    requires OnBoard(a) && off != 0
    ensures m in Ray(b, from, p, a, off) <==> Reaches(b, a, off, m.to) && m.piece == p && IsStep(b, from, m)
    decreases if off > 0 then 128 - a else a + 1
  {
    var to := a + off;
    if OnBoard(to) && b[to].None? {
      RayExact(b, from, p, to, off, m);
    }
  }

  lemma {:induction false} SlidesExact(b: Board, from: int, p: Piece, offsets: seq<int>, m: Move)
    requires OnBoard(from) && 0 !in offsets
    ensures m in Slides(b, from, p, offsets) <==>
            (exists j :: 0 <= j < |offsets| && Reaches(b, from, offsets[j], m.to)) && m.piece == p && IsStep(b, from, m)
  {
    if offsets != [] {
      var i := |offsets| - 1;
      SlidesExact(b, from, p, offsets[..i], m);
      RayExact(b, from, p, from, offsets[i], m);
      assert forall j :: 0 <= j < i ==> offsets[..i][j] == offsets[j];
    }
  }

  lemma OffsetsAsReach(b: Board, from: int, to: int)
    requires OnBoard(from)
    ensures (exists j :: 0 <= j < |BISHOP_OFFSETS| && Reaches(b, from, BISHOP_OFFSETS[j], to)) <==>
            ReachesDiagonally(b, from, to)
    ensures (exists j :: 0 <= j < |ROOK_OFFSETS| && Reaches(b, from, ROOK_OFFSETS[j], to)) <==>
            ReachesStraight(b, from, to)
    ensures (exists j :: 0 <= j < |KING_OFFSETS| && Reaches(b, from, KING_OFFSETS[j], to)) <==>
            ReachesDiagonally(b, from, to) || ReachesStraight(b, from, to)
  {
    var o := BISHOP_OFFSETS;
    assert o[0] == 17 && o[1] == 15 && o[2] == -17 && o[3] == -15;
    o := ROOK_OFFSETS;
    assert o[0] == 16 && o[1] == -16 && o[2] == 1 && o[3] == -1;
    o := KING_OFFSETS;
    assert o[0] == 16 && o[1] == -16 && o[2] == 1 && o[3] == -1 && o[4] == 17 && o[5] == 15 && o[6] == -17 &&
        o[7] == -15;
  }

  lemma {:induction false} PromotedExact(m: Move, kinds: seq<Kind>, n: Move)
    ensures n in Promoted(m, kinds) <==>
            n.promotion.Some? && n.promotion.value in kinds &&
                n == m.(promotion := n.promotion, flags := m.flags.(promotion := true))
  {
    if kinds != [] {
      var i := |kinds| - 1;
      PromotedExact(m, kinds[..i], n);
      assert kinds == kinds[..i] + [kinds[i]];
    }
  }

  lemma WithPromotionExact(m: Move, n: Move)
    requires m.promotion.None? && !m.flags.promotion
    ensures n in WithPromotion(m) <==>
            n == m.(promotion := n.promotion, flags := m.flags.(promotion := n.promotion.Some?)) && PromotionFits(n)
  {
    PromotedExact(m, PROMOTIONS, n);
  }

  lemma PushesExact(b: Board, v: Variant, from: int, p: Piece, m: Move)
    requires OnBoard(from)
    ensures m in Pushes(b, v, from, p) <==> m.piece == p && (IsPush(b, from, m) || IsDoublePush(b, v, from, m))
  {
    var one := from + Forward(p.color);
    WithPromotionExact(Move(from, one, p, None, None, None, None, NORMAL), m);
  }

  lemma PawnCaptureExact(b: Board, ep: int, from: int, p: Piece, diag: int, m: Move)
    requires OnBoard(from) && (diag == Forward(p.color) - 1 || diag == Forward(p.color) + 1)
    ensures m in PawnCapture(b, ep, from, p, diag) <==>
            m.piece == p && m.to == from + diag && (IsPawnCapture(b, from, m) || IsEnPassant(b, ep, from, m))
  {
    var to := from + diag;
    if OnBoard(to) && Enemy(b, to, p.color) {
      WithPromotionExact(Move(from, to, p, b[to], None, None, None, NORMAL.(capture := true)), m);
    }
  }

  lemma PawnMovesExact(b: Board, v: Variant, ep: int, from: int, p: Piece, m: Move)
    requires OnBoard(from)
    ensures m in PawnMoves(b, v, ep, from, p) <==> m.piece == p && IsPawnMove(b, v, ep, from, m)
  {
    PushesExact(b, v, from, p, m);
    PawnCaptureExact(b, ep, from, p, if p.color == White then 15 else -15, m);
    PawnCaptureExact(b, ep, from, p, if p.color == White then 17 else -17, m);
  }

  lemma CastlesExact(s: State, from: int, p: Piece, m: Move)
    ensures m in Castles(s, from, p) <==> m.piece == p && IsCastle(s, from, m)
  {
  }

  lemma OffsetsAsSteps(d: int)
    ensures d in KNIGHT_OFFSETS <==> IsKnightJump(d)
    ensures d in KING_OFFSETS <==> IsKingStep(d)
  {
  }

  lemma PawnFromExact(s: State, from: int, m: Move)
    requires OnBoard(from) && Own(s.board, from, s.turn) && s.board[from].value.kind == Pawn
    ensures m in MovesFrom(s, from) <==> m.from == from && IsBoardMove(s, m)
  {
    var p := s.board[from].value;
    PawnMovesExact(s.board, s.variant, s.epSquare, from, p, m);
  }

  lemma LeaperFromExact(s: State, from: int, m: Move)
    requires OnBoard(from) && Own(s.board, from, s.turn) && s.board[from].value.kind in {Knight, King}
    ensures m in MovesFrom(s, from) <==> m.from == from && IsBoardMove(s, m)
  {
    var p := s.board[from].value;
    LeapsExact(s.board, from, p, if p.kind == Knight then KNIGHT_OFFSETS else KING_OFFSETS, m);
    OffsetsAsSteps(m.to - from);
    CastlesExact(s, from, p, m);
  }

  lemma SliderFromExact(s: State, from: int, m: Move)
    requires OnBoard(from) && Own(s.board, from, s.turn) && s.board[from].value.kind in {Bishop, Rook, Queen}
    ensures m in MovesFrom(s, from) <==> m.from == from && IsBoardMove(s, m)
  {
    var p := s.board[from].value;
    var offsets := match p.kind case Bishop => BISHOP_OFFSETS case Rook => ROOK_OFFSETS case _ => KING_OFFSETS;
    SlidesExact(s.board, from, p, offsets, m);
    OffsetsAsReach(s.board, from, m.to);
  }

  lemma MovesFromExact(s: State, from: int, m: Move)
    ensures m in MovesFrom(s, from) <==> m.from == from && IsBoardMove(s, m)
  {
    if OnBoard(from) && Own(s.board, from, s.turn) {
      var kind := s.board[from].value.kind;
      if kind == Pawn {
        PawnFromExact(s, from, m);
      } else if kind in {Knight, King} {
        LeaperFromExact(s, from, m);
      } else {
        SliderFromExact(s, from, m);
      }
    }
  }

  lemma {:induction false} MovesUpToExact(s: State, n: nat, m: Move)
    requires n <= 128
    ensures m in MovesUpTo(s, n) <==> 0 <= m.from < n && IsBoardMove(s, m)
  {
    if n > 0 {
      MovesUpToExact(s, n - 1, m);
      MovesFromExact(s, n - 1, m);
    }
  }

  lemma {:induction false} DropsOfExact(b: Board, us: Color, k: Kind, n: nat, m: Move)
    requires n <= 128
    ensures m in DropsOf(b, us, k, n) <==> m.to < n && DropSquare(b, k, m.to) && m == DropTo(us, k, m.to)
  {
    if n > 0 {
      DropsOfExact(b, us, k, n - 1, m);
    }
  }

  lemma InConcat<T>(a: seq<T>, b: seq<T>, x: T)
    ensures x in a + b <==> x in a || x in b
  {
  }

  predicate DropFits(b: Board, us: Color, m: Move) {
    m.piece.kind != King && DropSquare(b, m.piece.kind, m.to) && m == DropTo(us, m.piece.kind, m.to)
  }

  lemma KindDropsExact(b: Board, us: Color, k: Kind, m: Move)
    requires k != King
    ensures m in DropsOf(b, us, k, |b|) <==> m.piece.kind == k && DropFits(b, us, m)
  {
    DropsOfExact(b, us, k, |b|, m);
  }

  lemma {:induction false} DropsExact(b: Board, us: Color, pocket: seq<Kind>, m: Move)
    ensures m in Drops(b, us, pocket) <==> m.piece.kind in pocket && DropFits(b, us, m)
  {
    if pocket != [] {
      var i := |pocket| - 1;
      var k, kinds := pocket[i], pocket[..i];
      InConcat(kinds, [k], m.piece.kind);
      assert pocket == kinds + [k];
      DropsExact(b, us, kinds, m);
      if k !in kinds && k != King {
        KindDropsExact(b, us, k, m);
        InConcat(Drops(b, us, kinds), DropsOf(b, us, k, |b|), m);
      }
    }
  }

  lemma PseudoMovesExact(s: State, m: Move)
    ensures m in PseudoMoves(s) <==> IsPseudo(s, m)
  {
    MovesUpToExact(s, |s.board|, m);
    DropsExact(s.board, s.turn, PocketOf(s.pockets, s.turn), m);
  }

  // ---- the backward attack test agrees with forward generation

  /** A square holding an enemy man is attacked exactly when some generated move captures there. */
  lemma AttackedIffCapturable(s: State, sq: int)
    requires OnBoard(sq) && Enemy(s.board, sq, s.turn)
    ensures Attacked(s.board, sq, s.turn) <==>
            exists m :: m in PseudoMoves(s) && m.to == sq && m.captured == s.board[sq]
  {
    if Attacked(s.board, sq, s.turn) {
      var from :| AttacksFrom(s.board, from, s.turn, sq);
      var m := CaptureFrom(s, sq, from);
      PseudoMovesExact(s, m);
    }
    if m :| m in PseudoMoves(s) && m.to == sq && m.captured == s.board[sq] {
      PseudoMovesExact(s, m);
      assert AttacksFrom(s.board, m.from, s.turn, sq);
    }
  }

  lemma CaptureFrom(s: State, sq: int, from: int) returns (m: Move)
    requires OnBoard(sq) && Enemy(s.board, sq, s.turn) && AttacksFrom(s.board, from, s.turn, sq)
    ensures IsPseudo(s, m) && m.from == from && m.to == sq && m.captured == s.board[sq]
  {
    var p := s.board[from].value;
    if p.kind == Pawn {
      var last := RankOf(sq) == PromotionRank(p.color);
      m := Move(from, sq, p, s.board[sq], if last then Some(Queen) else None, None, None,
                NORMAL.(capture := true, promotion := last));
    } else {
      m := StepTo(s.board, from, sq, p);
    }
  }
}
