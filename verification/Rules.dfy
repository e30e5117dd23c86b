/** The moves of the game in files and ranks (Article 3 of the FIDE Laws of Chess and the variants' own rules),
    and that the program lists exactly those and plays them as the rules say
    (packages/chess-core/src/movegen.ts). */
module Rules {
  import opened Common
  import opened ChessTypes
  import opened Geometry
  import opened Attack
  import opened Castling
  import opened MoveGen
  import opened Play
  import opened Legality
  import opened Validity
  import opened LegalPlay
  import opened Bearing

  predicate ManOf(b: Board, sq: int, c: Color) {
    OnBoard(sq) && b[sq].Some? && b[sq].value.color == c
  }

  const PLAIN := Flags(false, false, false, false, false, false)

  function Home(c: Color): int { if c == White then 0 else 7 }

  // ---- the moves

  /** A pawn that reaches the last rank becomes a queen, rook, bishop or knight, and no other does. */
  predicate Promotes(m: Move) {
    if PlaceOf(m.to).rank == (if m.piece.color == White then 7 else 0)
    then m.promotion in {Some(Queen), Some(Rook), Some(Bishop), Some(Knight)}
    else m.promotion == None
  }

  predicate PieceMove(b: Board, m: Move) {
    && OnBoard(m.to) && !ManOf(b, m.to, m.piece.color) && BearsOn(b, m.piece, PlaceOf(m.from), PlaceOf(m.to))
    && m == Move(m.from, m.to, m.piece, b[m.to], None, None, None, PLAIN.(capture := b[m.to].Some?))
  }

  predicate PawnPush(b: Board, m: Move) {
    && OnBoard(m.to) && b[m.to].None?
    && PlaceOf(m.to) == NextTo(PlaceOf(m.from), 0, Up(m.piece.color))
    && Promotes(m)
    && m == Move(m.from, m.to, m.piece, None, m.promotion, None, None, PLAIN.(promotion := m.promotion.Some?))
  }

  /** From the second rank of one's side, in Horde also from White's first, over an empty square to another. */
  predicate PawnDoublePush(b: Board, v: Variant, m: Move) {
    var p, c := PlaceOf(m.from), m.piece.color;
    && OnBoard(m.to) && b[m.to].None? && EmptyAt(b, NextTo(p, 0, Up(c)))
    && PlaceOf(m.to) == NextTo(p, 0, 2 * Up(c))
    && (p.rank == (if c == White then 1 else 6) || (v == Horde && c == White && p.rank == 0))
    && m == Move(m.from, m.to, m.piece, None, None, None, None, PLAIN.(double := true))
  }

  predicate PawnTakes(b: Board, m: Move) {
    && ManOf(b, m.to, Opposite(m.piece.color)) && BearsOn(b, m.piece, PlaceOf(m.from), PlaceOf(m.to))
    && Promotes(m)
    && m == Move(m.from, m.to, m.piece, b[m.to], m.promotion, None, None,
                 PLAIN.(capture := true, promotion := m.promotion.Some?))
  }

  /** The square a pawn passes by: on the file it goes to and the rank it comes from. */
  function Beside(m: Move): int {
    SquareAt(Place(PlaceOf(m.to).file, PlaceOf(m.from).rank))
  }

  predicate PawnTakesInPassing(b: Board, ep: int, m: Move) {
    && OnBoard(m.from) && OnBoard(m.to) && m.to == ep && !ManOf(b, m.to, Opposite(m.piece.color))
    && BearsOn(b, m.piece, PlaceOf(m.from), PlaceOf(m.to))
    && 0 <= Beside(m) < 128
    && m == Move(m.from, m.to, m.piece, b[Beside(m)], None, None, None, PLAIN.(capture := true, enPassant := true))
  }

  predicate PawnMove(b: Board, v: Variant, ep: int, m: Move) {
    PawnPush(b, m) || PawnDoublePush(b, v, m) || PawnTakes(b, m) || PawnTakesInPassing(b, ep, m)
  }

  function KingGoal(side: CastlingSide): int { if side == KSide then 6 else 2 }

  function RookGoal(side: CastlingSide): int { if side == KSide then 5 else 3 }

  predicate Within(x: int, f: int, y: int) {
    x <= f <= y || y <= f <= x
  }

  /** On this rank, from file `x` to file `y`, only the two castling men stand. */
  predicate ClearBut(b: Board, rank: int, x: int, y: int, king: int, rook: int)
    requires 0 <= rank < 8
  {
    forall f :: 0 <= f < 8 && Within(x, f, y) ==> f == king || f == rook || b[16 * rank + f].None?
  }

  /** The enemy does not bear on the square; in Atomic its king beside the square shields it. */
  ghost predicate SafeSquare(b: Board, v: Variant, us: Color, sq: int) {
    var e := KingSquare(b, Opposite(us));
    !Threatened(b, sq, Opposite(us)) || (v == Atomic && e != -1 && Distance(PlaceOf(sq), PlaceOf(e)) == 1)
  }

  ghost predicate SafeOn(b: Board, v: Variant, us: Color, rank: int, file: int) {
    SafeSquare(b, v, us, 16 * rank + file)
  }

  ghost predicate SafeWay(b: Board, v: Variant, us: Color, rank: int, x: int, y: int) {
    forall f :: 0 <= f < 8 && Within(x, f, y) ==> SafeOn(b, v, us, rank, f)
  }

  /** King and rook stand on their home rank, outside Chess960 on the e-file and in the corner, and both ways are
      free. */
  predicate CastlingStands(s: State, king: Place, p: Piece, side: CastlingSide) {
    var us, rook := s.turn, Right(s.castling, s.turn, side);
    && s.variant != RacingKings && p.kind == King && rook != NO_ROOK && king.rank == Home(us)
    && s.board[16 * Home(us) + rook] == Some(Piece(us, Rook))
    && (s.variant != Chess960 ==> king.file == 4 && rook == if side == KSide then 7 else 0)
    && ClearBut(s.board, Home(us), king.file, KingGoal(side), king.file, rook)
    && ClearBut(s.board, Home(us), rook, RookGoal(side), king.file, rook)
  }

  /** And the king is safe from where it starts to where it stops. */
  ghost predicate CastlesBy(s: State, m: Move, side: CastlingSide) {
    var us, king, rook := s.turn, PlaceOf(m.from), Right(s.castling, s.turn, side);
    && CastlingStands(s, king, m.piece, side)
    && SafeWay(s.board, s.variant, us, Home(us), king.file, KingGoal(side))
    && m == Move(m.from, 16 * Home(us) + KingGoal(side), m.piece, None, None, None, Some(16 * Home(us) + rook),
                 PLAIN.(kingCastle := side == KSide, queenCastle := side == QSide))
  }

  /** A man of the pocket on an empty square; a pawn not on the first or last rank. */
  predicate Dropping(s: State, m: Move) {
    var k := m.piece.kind;
    && s.variant == Crazyhouse && k != King && k in PocketOf(s.pockets, s.turn)
    && OnBoard(m.to) && s.board[m.to].None? && (k == Pawn ==> 1 <= PlaceOf(m.to).rank <= 6)
    && m == Move(-1, m.to, Piece(s.turn, k), None, None, Some(k), None, PLAIN)
  }

  /** A move of the man on `m.from`. */
  ghost predicate BoardMove(s: State, m: Move) {
    && OnBoard(m.from) && s.board[m.from] == Some(m.piece) && m.piece.color == s.turn
    && if m.piece.kind == Pawn then PawnMove(s.board, s.variant, s.epSquare, m)
       else PieceMove(s.board, m) || CastlesBy(s, m, KSide) || CastlesBy(s, m, QSide)
  }

  ghost predicate MoveOfTheGame(s: State, m: Move) {
    BoardMove(s, m) || Dropping(s, m)
  }

  // ---- the generator lists exactly these

  lemma PieceMovesAgree(s: State, m: Move)
    requires OnBoard(m.from) && s.board[m.from] == Some(m.piece) && m.piece.kind != Pawn
    ensures PieceMove(s.board, m) <==> IsStep(s.board, m.from, m) && Bears(s.board, m.from, m.piece, m.to)
  {
    if OnBoard(m.to) {
      BearsByCoordinates(s.board, m.piece, m.from, m.to);
    }
  }

  lemma PawnStepsAgree(b: Board, v: Variant, m: Move)
    requires OnBoard(m.from) && m.piece.kind == Pawn
    ensures PawnPush(b, m) <==> IsPush(b, m.from, m)
    ensures PawnDoublePush(b, v, m) <==> IsDoublePush(b, v, m.from, m)
  {
    PlacesAreSquares(m.from);
    var p := PlaceOf(m.from);
    SquaresAreOnBoard(NextTo(p, 0, Up(m.piece.color)));
    SquaresAreOnBoard(NextTo(p, 0, 2 * Up(m.piece.color)));
    if OnBoard(m.to) {
      PlacesAreSquares(m.to);
    }
  }

  lemma StrikeAgrees(b: Board, m: Move)
    requires OnBoard(m.from) && m.piece.kind == Pawn && OnBoard(m.to)
    ensures IsPawnStrike(m.from, m) <==> BearsOn(b, m.piece, PlaceOf(m.from), PlaceOf(m.to))
    ensures IsPawnStrike(m.from, m) ==> Beside(m) == m.to - Forward(m.piece.color) && 0 <= Beside(m) < 128
  {
    PlacesAreSquares(m.from);
    PlacesAreSquares(m.to);
    BearsByCoordinates(b, m.piece, m.from, m.to);
  }

  lemma PawnStrikesAgree(b: Board, ep: int, m: Move)
    requires OnBoard(m.from) && m.piece.kind == Pawn
    ensures PawnTakes(b, m) <==> IsPawnCapture(b, m.from, m)
    ensures PawnTakesInPassing(b, ep, m) <==> IsEnPassant(b, ep, m.from, m)
  {
    if OnBoard(m.to) {
      StrikeAgrees(b, m);
    }
  }

  lemma ClearAgrees(b: Board, rank: int, x: int, y: int, king: int, rook: int)
    requires 0 <= rank < 8 && 0 <= x < 8 && 0 <= y < 8
    ensures ClearBut(b, rank, x, y, king, rook) <==>
              SpanClear(b, 16 * rank + x, 16 * rank + y, 16 * rank + king, 16 * rank + rook)
  {
    if ClearBut(b, rank, x, y, king, rook) {
      forall sq | Min(16 * rank + x, 16 * rank + y) <= sq <= Max(16 * rank + x, 16 * rank + y) && 0 <= sq < 128
        ensures sq == 16 * rank + king || sq == 16 * rank + rook || b[sq].None?
      {
        assert Within(x, sq - 16 * rank, y) && sq == 16 * rank + (sq - 16 * rank);
      }
    }
  }

  lemma SafeAgrees(b: Board, v: Variant, us: Color, sq: int)
    requires OnBoard(sq)
    ensures SafeSquare(b, v, us, sq) <==> SafeForKing(b, v, us, sq)
  {
    AttackedIsThreatened(b, sq, Opposite(us));
    var e := KingSquare(b, Opposite(us));
    if e != -1 {
      KingsApart(sq, e);
    }
  }

  lemma KingsApart(a: int, c: int)
    requires OnBoard(a) && OnBoard(c)
    ensures IsKingStep(c - a) <==> Distance(PlaceOf(a), PlaceOf(c)) == 1
  {
    PlacesAreSquares(a);
    PlacesAreSquares(c);
    KingDeltas(Files(PlaceOf(a), PlaceOf(c)), Ranks(PlaceOf(a), PlaceOf(c)));
  }

  lemma SafeOnAgrees(b: Board, v: Variant, us: Color, rank: int, f: int)
    requires 0 <= rank < 8 && 0 <= f < 8
    ensures SafeOn(b, v, us, rank, f) <==> SafeForKing(b, v, us, 16 * rank + f)
  {
    SquaresAreOnBoard(Place(f, rank));
    SafeAgrees(b, v, us, 16 * rank + f);
  }

  lemma WayAgrees(b: Board, v: Variant, us: Color, rank: int, x: int, y: int)
    requires 0 <= rank < 8 && 0 <= x < 8 && 0 <= y < 8
    ensures SafeWay(b, v, us, rank, x, y) <==> KingPathSafe(b, v, us, 16 * rank + x, 16 * rank + y)
  {
    if SafeWay(b, v, us, rank, x, y) {
      forall sq | Min(16 * rank + x, 16 * rank + y) <= sq <= Max(16 * rank + x, 16 * rank + y)
        ensures SafeForKing(b, v, us, sq)
      {
        assert Within(x, sq - 16 * rank, y);
        SafeOnAgrees(b, v, us, rank, sq - 16 * rank);
      }
    }
    if KingPathSafe(b, v, us, 16 * rank + x, 16 * rank + y) {
      forall f | 0 <= f < 8 && Within(x, f, y) ensures SafeOn(b, v, us, rank, f) {
        SafeOnAgrees(b, v, us, rank, f);
      }
    }
  }

  lemma SpansAgree(s: State, from: int, side: CastlingSide, file: int)
    requires OnBoard(from) && RankOf(from) == Home(s.turn) && Right(s.castling, s.turn, side) != NO_ROOK
    requires 0 <= file < 8 && from == 16 * Home(s.turn) + file
    ensures var us, rook := s.turn, Right(s.castling, s.turn, side); var rookFrom := RookSquare(us, rook);
            && (ClearBut(s.board, Home(us), file, KingGoal(side), file, rook) <==>
                  SpanClear(s.board, from, CastledKingSquare(us, side), from, rookFrom))
            && (ClearBut(s.board, Home(us), rook, RookGoal(side), file, rook) <==>
                  SpanClear(s.board, rookFrom, CastledRookSquare(us, side), from, rookFrom))
  {
    var us, rook := s.turn, Right(s.castling, s.turn, side);
    ClearAgrees(s.board, Home(us), file, KingGoal(side), file, rook);
    ClearAgrees(s.board, Home(us), rook, RookGoal(side), file, rook);
  }

  lemma StandsAgrees(s: State, from: int, side: CastlingSide)
    requires OnBoard(from)
    ensures CastlingStands(s, PlaceOf(from), Piece(s.turn, King), side) <==> CastleSetUp(s, from, s.turn, side)
  {
    PlacesAreSquares(from);
    if Right(s.castling, s.turn, side) != NO_ROOK && RankOf(from) == Home(s.turn) {
      SpansAgree(s, from, side, FileOf(from));
    }
  }

  lemma WayFromAgrees(s: State, from: int, side: CastlingSide)
    requires OnBoard(from) && RankOf(from) == Home(s.turn)
    ensures SafeWay(s.board, s.variant, s.turn, Home(s.turn), PlaceOf(from).file, KingGoal(side)) <==>
              KingPathSafe(s.board, s.variant, s.turn, from, CastledKingSquare(s.turn, side))
  {
    PlacesAreSquares(from);
    WayAgrees(s.board, s.variant, s.turn, Home(s.turn), PlaceOf(from).file, KingGoal(side));
  }

  lemma CastlingAgrees(s: State, m: Move, side: CastlingSide)
    requires OnBoard(m.from) && m.piece == Piece(s.turn, King)
    ensures CastlesBy(s, m, side) <==>
              CanCastle(s, m.from, s.turn, side) && m == CastleMove(s, m.from, m.piece, side)
  {
    StandsAgrees(s, m.from, side);
    if CastleSetUp(s, m.from, s.turn, side) {
      WayFromAgrees(s, m.from, side);
    }
  }

  lemma KingMovesAgree(s: State, m: Move)
    requires OnBoard(m.from) && s.board[m.from] == Some(m.piece) && m.piece == Piece(s.turn, King)
    ensures BoardMove(s, m) <==> IsBoardMove(s, m)
  {
    PieceMovesAgree(s, m);
    CastlingAgrees(s, m, KSide);
    CastlingAgrees(s, m, QSide);
    assert IsCastle(s, m.from, m) <==> CastlesBy(s, m, KSide) || CastlesBy(s, m, QSide) by {
      if IsCastle(s, m.from, m) {
        var side :| CanCastle(s, m.from, m.piece.color, side) && m == CastleMove(s, m.from, m.piece, side);
        assert side == KSide || side == QSide;
      }
    }
  }

  /** The program lists exactly the moves of the game, whatever the position. */
  lemma GeneratorFollowsTheRules(s: State, m: Move)
    ensures m in PseudoMoves(s) <==> MoveOfTheGame(s, m)
  {
    PseudoMovesExact(s, m);
    if OnBoard(m.from) && s.board[m.from] == Some(m.piece) && m.piece.color == s.turn {
      if m.piece.kind == Pawn {
        PawnStepsAgree(s.board, s.variant, m);
        PawnStrikesAgree(s.board, s.epSquare, m);
      } else if m.piece.kind == King {
        KingMovesAgree(s, m);
      } else {
        PieceMovesAgree(s, m);
      }
    }
    DropsAgree(s, m);
  }

  lemma DropsAgree(s: State, m: Move)
    ensures Dropping(s, m) <==> IsDrop(s, m)
  {
    if OnBoard(m.to) {
      PlacesAreSquares(m.to);
    }
  }

  // ---- what follows for single moves

  /** A double push is listed exactly for an own pawn on its second rank (in Horde also on White's first) with
      two empty squares before it, to the second of them. */
  lemma DoublePushes(s: State, m: Move)
    ensures m in PseudoMoves(s) && m.flags.double <==>
              && OnBoard(m.from) && OnBoard(m.to) && s.board[m.from] == Some(Piece(s.turn, Pawn))
              && (m.from / 16 == (if s.turn == White then 1 else 6)
                  || (s.variant == Horde && s.turn == White && m.from / 16 == 0))
              && m.to == m.from + (if s.turn == White then 32 else -32)
              && s.board[(m.from + m.to) / 2].None? && s.board[m.to].None?
              && m == Move(m.from, m.to, Piece(s.turn, Pawn), None, None, None, None, PLAIN.(double := true))
  {
    GeneratorFollowsTheRules(s, m);
    if OnBoard(m.from) && OnBoard(m.to) {
      TwoRanksOn(m.from, m.to, Up(s.turn));
    }
  }

  lemma TwoRanksOn(from: int, to: int, up: int)
    requires OnBoard(from) && OnBoard(to) && (up == 1 || up == -1)
    ensures PlaceOf(to) == NextTo(PlaceOf(from), 0, 2 * up) <==> to == from + 32 * up
    ensures to == from + 32 * up ==>
              (from + to) / 2 == SquareAt(NextTo(PlaceOf(from), 0, up)) && OnTheBoard(NextTo(PlaceOf(from), 0, up))
  {
    PlacesAreSquares(from);
    PlacesAreSquares(to);
    var p := PlaceOf(from);
    if to == from + 32 * up {
      assert SquareAt(NextTo(p, 0, 2 * up)) == to;
      SquaresAreOnBoard(NextTo(p, 0, 2 * up));
    }
  }

  /** A castle that is listed crosses no square the enemy bears on, from its start to its goal; only beside the
      enemy king is that allowed in Atomic. */
  lemma CastlesOverSafeSquares(s: State, m: Move, sq: int)
    requires m in PseudoMoves(s) && IsCastling(m)
    requires OnBoard(sq) && PlaceOf(sq).rank == Home(s.turn)
    requires Within(PlaceOf(m.from).file, PlaceOf(sq).file, PlaceOf(m.to).file)
    ensures SafeSquare(s.board, s.variant, s.turn, sq)
  {
    GeneratorFollowsTheRules(s, m);
    var side := if m.flags.kingCastle then KSide else QSide;
    assert CastlesBy(s, m, side);
    SquaresAreOnBoard(Place(KingGoal(side), Home(s.turn)));
    PlacesAreSquares(sq);
    assert SafeOn(s.board, s.variant, s.turn, Home(s.turn), PlaceOf(sq).file);
  }

  // ---- which of them are legal

  /** May `us` have left the board like this? */
  ghost predicate KingsAreSafe(v: Variant, b: Board, us: Color) {
    var mine, theirs := KingSquare(b, us), KingSquare(b, Opposite(us));
    match v
    case Atomic =>
      && mine != -1
      && (theirs == -1 || Distance(PlaceOf(mine), PlaceOf(theirs)) == 1 || !Threatened(b, mine, Opposite(us)))
    case RacingKings =>
      (mine != -1 ==> !Threatened(b, mine, Opposite(us))) && (theirs != -1 ==> !Threatened(b, theirs, us))
    case Horde => mine != -1 ==> !Threatened(b, mine, Opposite(us))
    case _ => mine != -1 && !Threatened(b, mine, Opposite(us))
  }

  /** A king the enemy bears on, unless in Atomic the two kings touch. */
  ghost predicate Checked(b: Board, v: Variant, c: Color) {
    var k, e := KingSquare(b, c), KingSquare(b, Opposite(c));
    && k != -1 && Threatened(b, k, Opposite(c))
    && !(v == Atomic && e != -1 && Distance(PlaceOf(k), PlaceOf(e)) == 1)
  }

  lemma InCheckIsChecked(b: Board, v: Variant, c: Color)
    ensures InCheck(b, v, c) <==> Checked(b, v, c)
  {
    var k, e := KingSquare(b, c), KingSquare(b, Opposite(c));
    if k != -1 {
      AttackedIsThreatened(b, k, Opposite(c));
      if e != -1 {
        KingsApart(k, e);
      }
    }
  }

  lemma LeavingAgrees(v: Variant, b: Board, us: Color)
    ensures KingsAreSafe(v, b, us) <==> LegalAfter(v, b, us)
  {
    InCheckIsChecked(b, v, us);
    InCheckIsChecked(b, v, Opposite(us));
    var mine := KingSquare(b, us);
    if mine != -1 {
      AttackedIsThreatened(b, mine, Opposite(us));
    }
  }

  /** The legal moves are those of the game that take no king (Atomic aside) and leave the kings safe. */
  lemma LegalMovesFollowTheRules(s: State, m: Move)
    ensures m in LegalMoves(s) <==>
              && MoveOfTheGame(s, m)
              && (s.variant != Atomic && m.captured.Some? ==> m.captured.value.kind != King)
              && Playable(s, m) && KingsAreSafe(s.variant, BoardAfter(s, m), s.turn)
  {
    LegalMovesExact(s, m);
    PseudoMovesExact(s, m);
    GeneratorFollowsTheRules(s, m);
    if MoveOfTheGame(s, m) {
      PseudoIsPlayable(s, m);
      LeavingAgrees(s.variant, BoardAfter(s, m), s.turn);
    }
  }

  /** The validator accepts a position exactly when each side has its one king (White none in Horde), the kings do
      not touch (Atomic and Horde aside), no side is in a check it may not be in, and the pockets are in order. */
  lemma ValidByTheRules(s: State)
    ensures Valid(s) <==>
              && (if s.variant == Horde then NoKing(s.board, White) else exists k :: KingAt(s.board, White, k))
              && (exists k :: KingAt(s.board, Black, k))
              && (s.variant != Atomic && s.variant != Horde ==>
                    Distance(PlaceOf(KingSquare(s.board, White)), PlaceOf(KingSquare(s.board, Black))) != 1)
              && ((s.variant == Horde && s.turn == Black) || !Checked(s.board, s.variant, Opposite(s.turn)))
              && (s.variant == RacingKings ==> !Checked(s.board, s.variant, s.turn))
              && (if s.variant == Crazyhouse then King !in s.pockets.w + s.pockets.b else s.pockets == Pockets([], []))
  {
    OneKingIsFound(s.board, White);
    OneKingIsFound(s.board, Black);
    InCheckIsChecked(s.board, s.variant, White);
    InCheckIsChecked(s.board, s.variant, Black);
    var w, b := KingSquare(s.board, White), KingSquare(s.board, Black);
    if w != -1 && b != -1 {
      KingsApart(w, b);
    }
    assert King in s.pockets.w + s.pockets.b <==> King in s.pockets.w || King in s.pockets.b;
    assert s.pockets == Pockets([], []) <==> s.pockets.w == [] && s.pockets.b == [];
  }

  lemma OneKingIsFound(b: Board, c: Color)
    ensures KingCount(b, c) == 1 <==> exists k :: KingAt(b, c, k)
    ensures KingCount(b, c) == 0 <==> NoKing(b, c)
    ensures KingCount(b, c) == 1 ==> KingSquare(b, c) != -1
  {
    OneKing(b, c);
    if k :| KingAt(b, c, k) {
      KingAtIsFound(b, c, k);
    }
  }

  // ---- the board they leave

  /** What stands on the square once the men have moved, before any explosion. */
  function Standing(s: State, m: Move, sq: int): Cell
    requires OnBoard(sq)
  {
    if m.flags.kingCastle || m.flags.queenCastle then
      var side := if m.flags.kingCastle then KSide else QSide;
      if sq == 16 * Home(s.turn) + KingGoal(side) then Some(Piece(s.turn, King))
      else if sq == 16 * Home(s.turn) + RookGoal(side) then Some(Piece(s.turn, Rook))
      else if sq == m.from || m.castleRook == Some(sq) then None
      else s.board[sq]
    else if sq == m.to then Some(Piece(s.turn, if m.promotion.Some? then m.promotion.value else m.piece.kind))
    else if sq == m.from || (m.flags.enPassant && sq == Beside(m)) then None
    else s.board[sq]
  }

  /** In Atomic a capture takes away what lands there and every man beside it but pawns. */
  predicate BlownUp(s: State, m: Move, sq: int)
    requires OnBoard(sq)
  {
    && s.variant == Atomic && m.captured.Some?
    && (sq == m.to ||
        (Distance(PlaceOf(m.to), PlaceOf(sq)) == 1
         && Standing(s, m, sq).Some? && Standing(s, m, sq).value.kind != Pawn))
  }

  lemma StandingAfterCastle(s: State, m: Move, sq: int)
    requires IsBoardMove(s, m) && IsCastling(m) && Playable(s, m) && OnBoard(sq)
    ensures CastleBoard(s, m)[sq] == Standing(s, m, sq)
  {
    OnlyKingsCastle(s, m);
    CastleFacts(s, m);
    CastleCell(s, m, sq);
  }

  lemma StandingAfterMove(s: State, m: Move, sq: int)
    requires IsBoardMove(s, m) && !IsCastling(m) && m.drop.None? && OnBoard(m.to) && Playable(s, m) && OnBoard(sq)
    ensures MovedBoard(s, m)[sq] == Standing(s, m, sq)
  {
    MovedCell(s, m, sq);
    OrdinaryPieces(s, m);
  }

  lemma StandingIsPlain(s: State, m: Move, sq: int)
    requires m in PseudoMoves(s) && OnBoard(sq)
    ensures Playable(s, m) && PlainBoard(s, m)[sq] == Standing(s, m, sq)
  {
    PseudoMovesExact(s, m);
    PseudoIsPlayable(s, m);
    if m.drop.Some? {
      DropFacts(s, m);
    } else {
      BoardMoveFacts(s, m);
      if IsCastling(m) {
        StandingAfterCastle(s, m, sq);
      } else {
        StandingAfterMove(s, m, sq);
      }
    }
  }

  lemma OrdinaryPieces(s: State, m: Move)
    requires IsBoardMove(s, m) && !IsCastling(m) && OnBoard(m.to) && Playable(s, m)
    ensures Arriving(s, m) == Some(Piece(s.turn, if m.promotion.Some? then m.promotion.value else m.piece.kind))
    ensures m.flags.enPassant ==> Beside(m) == m.to - Forward(s.turn)
  {
    if m.flags.enPassant {
      StrikeAgrees(s.board, m);
    }
  }

  /** The board after a move of the game, square by square. */
  lemma BoardFollowsTheRules(s: State, m: Move, sq: int)
    requires m in PseudoMoves(s) && OnBoard(sq)
    ensures Playable(s, m)
    ensures BoardAfter(s, m)[sq] == if BlownUp(s, m, sq) then None else Standing(s, m, sq)
  {
    StandingIsPlain(s, m, sq);
    PseudoMovesExact(s, m);
    PseudoIsPlayable(s, m);
    KingsApart(m.to, sq);
    if s.variant == Atomic && m.captured.Some? {
      CapturesAreOrdinary(s, m);
    }
  }

  lemma CapturesAreOrdinary(s: State, m: Move)
    requires IsPseudo(s, m) && m.captured.Some?
    ensures m.drop.None? && !IsCastling(m)
  {
    if m.drop.Some? {
      DropFacts(s, m);
    } else if IsCastling(m) {
      BoardMoveFacts(s, m);
      OnlyKingsCastle(s, m);
      CastleFacts(s, m);
    }
  }
}
