/** Positions the program reads and accepts, from which a legal move leaves a side without its king, or a
    castling right without its rook (packages/chess-core/src/movegen.ts,
    packages/chess-core/src/position-validator.ts). */
module StrayEnPassant {
  import opened Common
  import opened ChessTypes
  import opened Positions
  import opened Geometry
  import opened Attack
  import opened Castling
  import opened CastlingField
  import opened MoveGen
  import opened Play
  import opened Legality
  import opened Validity
  import opened LegalPlay
  import opened Fen
  import opened FenRoundTrip

  /** Horde, Black to move: pawns d4 and e4, Black's king on e3, which the en-passant field names. */
  const STRAY := State(
    Cells(map[51 := Piece(Black, Pawn), 52 := Piece(White, Pawn), 36 := BLACK_KING]),
    Black, NO_RIGHTS, 36, 0, 1, Pockets([], []), Counters(0, 0), Horde)

  const ONTO_E3 := Move(51, 36, Piece(Black, Pawn), Some(Piece(White, Pawn)), None, None, None,
                        NORMAL.(capture := true, enPassant := true))

  lemma StrayIsAccepted()
    ensures Valid(STRAY) && ParseFen(ToFen(STRAY), Horde) == Ok(STRAY)
  {
    StrayIsValid();
    StrayReturns();
    ReadAgain(STRAY);
  }

  lemma StrayIsValid()
    ensures Valid(STRAY)
  {
    KingAtIsFound(STRAY.board, Black, 36);
    OneKing(STRAY.board, White);
  }

  lemma StrayReturns()
    ensures Writable(STRAY) && Returns(STRAY)
  {
    BoardSquaresComeBack(36);
  }

  lemma ReadAgain(s: State)
    requires Writable(s) && Returns(s)
    ensures ParseFen(ToFen(s), s.variant) == Ok(s)
  {
    FenRoundTripExactly(s);
  }

  lemma TakingIsLegal()
    ensures ONTO_E3 in LegalMoves(STRAY)
  {
    assert IsPseudo(STRAY, ONTO_E3) && Playable(STRAY, ONTO_E3);
    var b := BoardAfter(STRAY, ONTO_E3);
    assert NoKing(b, Black);
    OneKing(b, Black);
    LegalMovesExact(STRAY, ONTO_E3);
  }

  /** Legal play need not keep what the validator accepts. */
  lemma KingTakenEnPassant()
    ensures Valid(STRAY) && ParseFen(ToFen(STRAY), Horde) == Ok(STRAY)
    ensures ONTO_E3 in LegalMoves(STRAY) && Playable(STRAY, ONTO_E3)
    ensures !Valid(Apply(STRAY, ONTO_E3)) && !KingExploded(Apply(STRAY, ONTO_E3))
  {
    StrayIsAccepted();
    TakingIsLegal();
    StaysValidExactly(STRAY, ONTO_E3);
  }

  // ---- an en-passant field behind one's own rook

  const WHITE_PAWN := Piece(White, Pawn)
  const WHITE_ROOK := Piece(White, Rook)
  const H_SIDE := CastlingRights(SideRights(7, NO_ROOK), SideRights(NO_ROOK, NO_ROOK))

  function Placed(men: map<int, Piece>, turn: Color, ep: int, half: int, full: int, pocket: seq<Kind>, v: Variant)
    : State
  {
    State(Cells(men), turn, H_SIDE, ep, half, full, Pockets(pocket, []), Counters(0, 0), v)
  }

  /** White to move, with the right to castle on the h-side: king e1, pawn g1, rook h1, and an en-passant
      field that names h2. Black: king e8. */
  function Loose(v: Variant, pocket: seq<Kind>): State {
    Placed(map[4 := WHITE_KING, 6 := WHITE_PAWN, 7 := WHITE_ROOK, 116 := BLACK_KING], White, 23, 0, 1, pocket, v)
  }

  predicate Sampled(v: Variant, pocket: seq<Kind>) {
    if v == Crazyhouse then pocket == [Rook] else v in {Standard, Chess960, KingOfTheHill} && pocket == []
  }

  /** The pawn "takes" on h2 and its own rook leaves h1. */
  const TAKES_OWN_ROOK := Move(6, 23, WHITE_PAWN, Some(WHITE_ROOK), None, None, None,
                               NORMAL.(capture := true, enPassant := true))

  lemma {:induction false} StraightLine(b: Board, a: int, off: int, c: int)
    requires OnBoard(a) && IsRookDir(off) && Reaches(b, a, off, c)
    ensures OnBoard(c) && if off == 16 || off == -16 then c % 16 == a % 16 else c / 16 == a / 16
    decreases if off > 0 then 128 - a else a + 1
  {
    if a + off != c {
      StraightLine(b, a + off, off, c);
    }
  }

  lemma RookBears(b: Board, a: int, c: int)
    requires OnBoard(a) && ReachesStraight(b, a, c)
    ensures c % 16 == a % 16 || c / 16 == a / 16
  {
    if Reaches(b, a, 16, c) { StraightLine(b, a, 16, c); }
    else if Reaches(b, a, -16, c) { StraightLine(b, a, -16, c); }
    else if Reaches(b, a, 1, c) { StraightLine(b, a, 1, c); }
    else { StraightLine(b, a, -1, c); }
  }

  predicate WhiteMan(b: Board, t: int) {
    || (t == 7 && Holds(b, t, White, Rook))
    || (t == 4 && Holds(b, t, White, King))
    || (t in {6, 23} && Holds(b, t, White, Pawn))
  }

  /** White's men here, whatever stands between, do not bear on Black's king. */
  lemma BlackIsSafe(b: Board, k: int)
    requires k in {115, 116}
    requires forall t :: 0 <= t < 128 && b[t].Some? && b[t].value.color == White ==> WhiteMan(b, t)
    ensures !Attacked(b, k, White)
  {
    forall from ensures !AttacksFrom(b, from, White, k) {
      if AttacksFrom(b, from, White, k) && from == 7 {
        RookBears(b, 7, k);
      }
    }
  }

  /** Black's king alone bears on nothing near White's. */
  lemma WhiteIsSafe(b: Board, k: int)
    requires 0 <= k < 16
    requires forall t :: 0 <= t < 128 && b[t].Some? && b[t].value.color == Black ==>
               t in {115, 116} && Holds(b, t, Black, King)
    ensures !Attacked(b, k, Black)
  {
    forall from ensures !AttacksFrom(b, from, Black, k) {
    }
  }

  lemma LooseIsValid(v: Variant, pocket: seq<Kind>)
    requires Sampled(v, pocket)
    ensures Valid(Loose(v, pocket)) && KingSquare(Loose(v, pocket).board, White) == 4
  {
    var b := Loose(v, pocket).board;
    KingAtIsFound(b, White, 4);
    KingAtIsFound(b, Black, 116);
    BlackIsSafe(b, 116);
  }

  lemma LooseRights(v: Variant, pocket: seq<Kind>)
    requires Sampled(v, pocket)
    ensures RightsInStep(Loose(v, pocket))
  {
    var s := Loose(v, pocket);
    LooseIsValid(v, pocket);
    assert RookSquare(White, 7) == 7;
    forall c: Color, side: CastlingSide ensures RightInStep(s.board, c, side, Right(s.castling, c, side)) {
    }
  }

  /** It is read from its own FEN, accepted, and its rights are in step. */
  lemma LooseIsAccepted(v: Variant, pocket: seq<Kind>)
    requires Sampled(v, pocket)
    ensures var s := Loose(v, pocket); Valid(s) && RightsInStep(s) && ParseFen(ToFen(s), v) == Ok(s)
  {
    var s := Loose(v, pocket);
    LooseIsValid(v, pocket);
    LooseRights(v, pocket);
    LooseReturns(s);
    ReadAgain(s);
  }

  lemma LooseReturns(s: State)
    requires RightsInStep(s) && OffBoardEmpty(s.board) && s.epSquare == 23 && s.halfmoves == 0 && s.fullmoves == 1
    requires s.variant != ThreeCheck && s.checkCount == NO_CHECKS
    requires s.variant != Crazyhouse ==> s.pockets == NO_POCKETS
    ensures Writable(s) && Returns(s)
  {
    BoardSquaresComeBack(s.epSquare);
    RightsInStepAreReadable(s);
  }

  lemma TakingOwnRookIsLegal(v: Variant, pocket: seq<Kind>)
    requires Sampled(v, pocket)
    ensures TAKES_OWN_ROOK in LegalMoves(Loose(v, pocket)) && Playable(Loose(v, pocket), TAKES_OWN_ROOK)
    ensures BoardAfter(Loose(v, pocket), TAKES_OWN_ROOK) ==
            Cells(map[4 := WHITE_KING, 23 := WHITE_PAWN, 116 := BLACK_KING])
  {
    var s, m := Loose(v, pocket), TAKES_OWN_ROOK;
    assert IsPseudo(s, m) && Playable(s, m);
    var b := BoardAfter(s, m);
    assert b == Cells(map[4 := WHITE_KING, 23 := WHITE_PAWN, 116 := BLACK_KING]);
    KingAtIsFound(b, White, 4);
    WhiteIsSafe(b, 4);
    LegalMovesExact(s, m);
  }

  lemma RightIsKept()
    ensures UpdateCastlingRights(H_SIDE, TAKES_OWN_ROOK) == H_SIDE
  {
    assert RankOf(6) == 0 && FileOf(6) == 6 && RankOf(23) == 1;
  }

  lemma TakenFrom(v: Variant, pocket: seq<Kind>)
    requires Sampled(v, pocket)
    ensures var s := Loose(v, pocket); var b := Cells(map[4 := WHITE_KING, 23 := WHITE_PAWN, 116 := BLACK_KING]);
            && TAKES_OWN_ROOK in LegalMoves(s) && Playable(s, TAKES_OWN_ROOK)
            && Apply(s, TAKES_OWN_ROOK) ==
               State(b, Black, H_SIDE, -1, 0, 1, PocketsAfter(s, TAKES_OWN_ROOK), Counters(0, 0), v)
  {
    TakingOwnRookIsLegal(v, pocket);
    RightIsKept();
  }

  lemma RooklessRight(t: State)
    requires t.castling == H_SIDE && t.board[7].None?
    ensures !RightInStep(t.board, White, KSide, Right(t.castling, White, KSide))
    ensures !RightsInStep(t) && !AllReadable(t.board, t.castling)
  {
    assert Right(t.castling, White, KSide) == 7 && RookSquare(White, 7) == 7;
    assert !Readable(t.board, White, KSide, Right(t.castling, White, KSide));
  }

  lemma RooklessIsNotReadBack(t: State)
    requires t.castling == H_SIDE && t.board[7].None? && t.epSquare == -1 && t.halfmoves == 0 && t.fullmoves == 1
    ensures Writable(t) && ParseFen(ToFen(t), t.variant) != Ok(t)
  {
    RooklessRight(t);
    NotReturned(t);
  }

  /** In standard chess, Chess960, King of the Hill and Crazyhouse a legal move from such a position leaves a
      right without its rook; the position it leads to is accepted too. */
  lemma RookTakenEnPassant(v: Variant, pocket: seq<Kind>)
    requires Sampled(v, pocket)
    ensures var s := Loose(v, pocket); TAKES_OWN_ROOK in LegalMoves(s) && Playable(s, TAKES_OWN_ROOK)
    ensures var t := Apply(Loose(v, pocket), TAKES_OWN_ROOK); Valid(t) && !RightsInStep(t)
  {
    LooseIsValid(v, pocket);
    TakenFrom(v, pocket);
    StaysValidExactly(Loose(v, pocket), TAKES_OWN_ROOK);
    RooklessRight(Apply(Loose(v, pocket), TAKES_OWN_ROOK));
  }

  /** And it does not come back from its FEN. */
  lemma RooklessRightIsLost(v: Variant, pocket: seq<Kind>)
    requires Sampled(v, pocket)
    ensures Playable(Loose(v, pocket), TAKES_OWN_ROOK)
    ensures var t := Apply(Loose(v, pocket), TAKES_OWN_ROOK); Writable(t) && ParseFen(ToFen(t), t.variant) != Ok(t)
  {
    TakenFrom(v, pocket);
    RooklessIsNotReadBack(Apply(Loose(v, pocket), TAKES_OWN_ROOK));
  }

  // ---- in Crazyhouse the right comes back over a dropped rook

  const S1 := Placed(map[4 := WHITE_KING, 23 := WHITE_PAWN, 116 := BLACK_KING],
                     Black, -1, 0, 1, [Rook, Pawn], Crazyhouse)
  const S2 := Placed(map[4 := WHITE_KING, 23 := WHITE_PAWN, 115 := BLACK_KING],
                     White, -1, 1, 2, [Rook, Pawn], Crazyhouse)
  const S3 := Placed(map[4 := WHITE_KING, 23 := WHITE_PAWN, 7 := WHITE_ROOK, 115 := BLACK_KING],
                     Black, -1, 0, 2, [Pawn], Crazyhouse)
  const S4 := Placed(map[4 := WHITE_KING, 23 := WHITE_PAWN, 7 := WHITE_ROOK, 116 := BLACK_KING],
                     White, -1, 1, 3, [Pawn], Crazyhouse)

  const TO_D8 := Move(116, 115, BLACK_KING, None, None, None, None, NORMAL)
  const ROOK_TO_H1 := Move(-1, 7, WHITE_ROOK, None, None, Some(Rook), None, NORMAL)
  const TO_E8 := Move(115, 116, BLACK_KING, None, None, None, None, NORMAL)
  const CASTLES := Move(4, 6, WHITE_KING, None, None, None, Some(7), NORMAL.(kingCastle := true))

  lemma FirstPlayed(v: Variant, pocket: seq<Kind>)
    requires v == Crazyhouse && pocket == [Rook]
    ensures Plays(Loose(v, pocket), TAKES_OWN_ROOK, S1)
  {
    TakenFrom(v, pocket);
    assert [Rook] + [Pawn] == [Rook, Pawn];
    assert PocketsAfter(Loose(v, pocket), TAKES_OWN_ROOK) == Pockets([Rook, Pawn], []);
  }

  lemma KingStepIsLegal(s: State, m: Move, t: State)
    requires (s == S1 && m == TO_D8 && t == S2) || (s == S3 && m == TO_E8 && t == S4)
    ensures m in LegalMoves(s) && Playable(s, m) && BoardAfter(s, m) == t.board
  {
    assert IsPseudo(s, m) && Playable(s, m);
    assert BoardAfter(s, m) == t.board;
    KingAtIsFound(t.board, Black, m.to);
    BlackIsSafe(t.board, m.to);
    LegalMovesExact(s, m);
  }

  lemma KingPlayed(s: State, m: Move, t: State)
    requires (s == S1 && m == TO_D8 && t == S2) || (s == S3 && m == TO_E8 && t == S4)
    ensures Plays(s, m, t)
  {
    KingStepIsLegal(s, m, t);
    assert UpdateCastlingRights(H_SIDE, m) == H_SIDE;
  }

  lemma RookDropped()
    ensures Plays(S2, ROOK_TO_H1, S3)
  {
    var s, m := S2, ROOK_TO_H1;
    assert IsPseudo(s, m) && Playable(s, m);
    assert BoardAfter(s, m) == S3.board;
    KingAtIsFound(S3.board, White, 4);
    WhiteIsSafe(S3.board, 4);
    LegalMovesExact(s, m);
    assert RemoveFirst([Rook, Pawn], Rook) == [Pawn];
    assert Apply(s, m) == S3;
  }

  lemma CastleSquares()
    ensures RookSquare(White, 7) == 7 && CastledKingSquare(White, KSide) == 6 && CastledRookSquare(White, KSide) == 5
  {
  }

  lemma CastleIsSetUp()
    ensures CastleSetUp(S4, 4, White, KSide)
  {
    CastleSquares();
  }

  lemma CastlingIsOffered()
    ensures CanCastle(S4, 4, White, KSide) && CASTLES == CastleMove(S4, 4, WHITE_KING, KSide)
  {
    CastleSquares();
    CastleIsSetUp();
    forall sq | 4 <= sq <= 6 ensures SafeForKing(S4.board, Crazyhouse, White, sq) {
      WhiteIsSafe(S4.board, sq);
    }
  }

  lemma CastlingIsLegal()
    ensures CASTLES in LegalMoves(S4)
  {
    CastlingIsOffered();
    assert IsCastle(S4, 4, CASTLES);
    assert IsPseudo(S4, CASTLES) && Playable(S4, CASTLES);
    var b := Cells(map[6 := WHITE_KING, 5 := WHITE_ROOK, 23 := WHITE_PAWN, 116 := BLACK_KING]);
    assert CastledRookSquare(White, KSide) == 5;
    assert BoardAfter(S4, CASTLES) == b;
    KingAtIsFound(b, White, 6);
    WhiteIsSafe(b, 6);
    LegalMovesExact(S4, CASTLES);
  }

  lemma GameGoesOn(ss: seq<State>, ms: seq<Move>, m: Move, t: State)
    requires Game(ss, ms) && Plays(ss[|ms|], m, t)
    ensures Game(ss + [t], ms + [m])
  {
    var all, moves := ss + [t], ms + [m];
    forall i | 0 <= i < |moves| ensures Plays(all[i], moves[i], all[i + 1]) {
      if i < |ms| {
        assert Plays(ss[i], ms[i], ss[i + 1]);
      }
    }
  }

  lemma RookLost(v: Variant, pocket: seq<Kind>) returns (ss: seq<State>, ms: seq<Move>)
    requires v == Crazyhouse && pocket == [Rook]
    ensures Game(ss, ms) && |ms| == 1 && ss[0] == Loose(v, pocket) && ss[1] == S1
  {
    FirstPlayed(v, pocket);
    GameGoesOn([Loose(v, pocket)], [], TAKES_OWN_ROOK, S1);
    ss, ms := [Loose(v, pocket)] + [S1], [] + [TAKES_OWN_ROOK];
  }

  lemma KingGoes(ss: seq<State>, ms: seq<Move>, s: State, m: Move, t: State)
    requires (s == S1 && m == TO_D8 && t == S2) || (s == S3 && m == TO_E8 && t == S4)
    requires Game(ss, ms) && ss[|ms|] == s
    ensures Game(ss + [t], ms + [m])
  {
    KingPlayed(s, m, t);
    GameGoesOn(ss, ms, m, t);
  }

  lemma RookReturns(ss: seq<State>, ms: seq<Move>)
    requires Game(ss, ms) && ss[|ms|] == S2
    ensures Game(ss + [S3], ms + [ROOK_TO_H1])
  {
    RookDropped();
    GameGoesOn(ss, ms, ROOK_TO_H1, S3);
  }

  /** A game of legal moves from such a position, in which White loses the rook of its right, drops another
      on its square, and may then castle with that. */
  lemma CastlesWithADroppedRook(v: Variant, pocket: seq<Kind>) returns (ss: seq<State>, ms: seq<Move>)
    requires v == Crazyhouse && pocket == [Rook]
    ensures Game(ss, ms) && |ms| == 4 && ss[0] == Loose(v, pocket) && ms[2] == ROOK_TO_H1
    ensures ss[1] == S1 && !RightsInStep(S1) && ss[4] == S4 && CASTLES in LegalMoves(S4)
  {
    ss, ms := RookLost(v, pocket);
    KingGoes(ss, ms, S1, TO_D8, S2);
    ss, ms := ss + [S2], ms + [TO_D8];
    RookReturns(ss, ms);
    ss, ms := ss + [S3], ms + [ROOK_TO_H1];
    KingGoes(ss, ms, S3, TO_E8, S4);
    ss, ms := ss + [S4], ms + [TO_E8];
    CastlingIsLegal();
    RooklessRight(S1);
  }
}
