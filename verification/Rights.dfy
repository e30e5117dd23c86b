/** When castling rights stay in step with the board, move by move and over whole games
    (packages/chess-core/src/movegen.ts, packages/chess-core/src/castling.ts). */
module Rights {
  import opened Common
  import opened ChessTypes
  import opened Positions
  import opened Geometry
  import opened Attack
  import opened Castling
  import opened MoveGen
  import opened Play
  import opened Legality
  import opened Validity
  import opened LegalPlay

  /** Does a man on `sq` that is no pawn stand in the blast of a capture on `at`? */
  predicate InBlast(at: int, sq: int) {
    sq == at || IsKingStep(sq - at)
  }

  predicate Blasts(s: State, m: Move, sq: int) {
    s.variant == Atomic && m.captured.Some? && InBlast(m.to, sq)
  }

  /** The move takes away the rook or the king of a right without clearing it: by an Atomic blast, or by an
      en-passant capture that names the rook's square or lands on the mover's own king. */
  predicate Strands(s: State, m: Move, c: Color, side: CastlingSide) {
    var rook := RookSquare(c, Right(s.castling, c, side));
    || Blasts(s, m, rook) || Blasts(s, m, KingSquare(s.board, c))
    || IsVictim(s, m, rook) || (TakesOwnKing(s, m) && c == s.turn)
  }

  /** Is the right held, and kept by the move? Its king does not move, and a move on the board does not touch
      its rook's square. */
  predicate KeepsRight(s: State, m: Move, c: Color, side: CastlingSide) {
    var f := Right(s.castling, c, side);
    f != NO_ROOK && m.piece != Piece(c, King) && (m.drop.None? ==> !Touches(m, RookSquare(c, f)))
  }

  lemma RightKept(s: State, m: Move, c: Color, side: CastlingSide)
    requires IsLegal(s, m)
    ensures Right(Apply(s, m).castling, c, side) ==
            if KeepsRight(s, m, c, side) then Right(s.castling, c, side) else NO_ROOK
  {
    PseudoIsPlayable(s, m);
    if m.drop.Some? {
      DropFacts(s, m);
    } else {
      RightSurvives(s.castling, m, c, side);
    }
  }

  /** A man that is no pawn and stands once the move is made is there in the end unless it is in the blast. */
  lemma PieceAfter(s: State, m: Move, sq: int, c: Color, kind: Kind)
    requires IsLegal(s, m) && OnBoard(sq) && kind != Pawn && Holds(PlainBoard(s, m), sq, c, kind)
    ensures Holds(BoardAfter(s, m), sq, c, kind) <==> !Blasts(s, m, sq)
  {
    if m.drop.Some? {
      DropFacts(s, m);
    } else {
      BoardMoveFacts(s, m);
      if IsCastling(m) {
        OnlyKingsCastle(s, m);
        CastleFacts(s, m);
      }
    }
  }

  lemma RookStands(s: State, m: Move, c: Color, file: RookFile)
    requires IsLegal(s, m) && file != NO_ROOK && m.piece != Piece(c, King)
    requires m.drop.None? ==> !Touches(m, RookSquare(c, file))
    requires Holds(s.board, RookSquare(c, file), c, Rook)
    ensures var rook := RookSquare(c, file);
            Holds(BoardAfter(s, m), rook, c, Rook) <==> !Blasts(s, m, rook) && !IsVictim(s, m, rook)
  {
    var rook := RookSquare(c, file);
    CoordinatesSquare(file, BackRank(c));
    if IsVictim(s, m, rook) {
      VictimIsGone(s, m, rook);
    } else {
      RookSquareCell(s, m, c, file);
      PieceAfter(s, m, rook, c, Rook);
    }
  }

  lemma VictimIsGone(s: State, m: Move, sq: int)
    requires IsLegal(s, m) && IsVictim(s, m, sq) && OnBoard(sq)
    ensures BoardAfter(s, m)[sq].None?
  {
    PseudoIsPlayable(s, m);
    if m.drop.Some? {
      DropFacts(s, m);
    } else {
      BoardMoveFacts(s, m);
      MovedCell(s, m, sq);
      AfterExplosion(s, m, sq);
    }
  }

  /** A removed king is in the blast, or is the mover's own. */
  lemma RemovedIsBlasted(s: State, m: Move, c: Color, k: int)
    requires IsLegal(s, m) && KingAt(s.board, c, k) && Removes(s, m, c, k)
    ensures Blasts(s, m, k) || (TakesOwnKing(s, m) && c == s.turn)
  {
    RemovedKing(s, m, c, k);
    KingAtPlain(s, m, c, k);
    if !CapturesKing(m) {
      forall t | OnBoard(t) ensures !Holds(BoardAfter(s, m), t, c, King) {
        AfterExplosion(s, m, t);
      }
      NoKingIsNotLegal(s.variant, BoardAfter(s, m), c);
    }
  }

  lemma KingStands(s: State, m: Move, c: Color, k: int)
    requires IsLegal(s, m) && KingAt(s.board, c, k) && m.piece != Piece(c, King)
    ensures KingSquare(BoardAfter(s, m), c) == if Blasts(s, m, k) || (TakesOwnKing(s, m) && c == s.turn) then -1 else k
  {
    var b' := BoardAfter(s, m);
    KingAfter(s, m, c, k);
    OneKing(b', c);
    if Removes(s, m, c, k) {
      RemovedIsBlasted(s, m, c, k);
      KingGone(s, m, c, k);
    } else {
      KingAtPlain(s, m, c, k);
      PieceAfter(s, m, k, c, King);
      if KingAt(b', c, k) {
        KingAtIsFound(b', c, k);
      }
    }
  }

  lemma KingGone(s: State, m: Move, c: Color, k: int)
    requires IsLegal(s, m) && KingAt(s.board, c, k) && Removes(s, m, c, k)
    ensures NoKing(BoardAfter(s, m), c)
  {
    KingAtPlain(s, m, c, k);
    forall t | OnBoard(t) ensures !Holds(BoardAfter(s, m), t, c, King) {
      AfterExplosion(s, m, t);
    }
  }

  ghost predicate KingsAtMostOne(b: Board) {
    KingCount(b, White) <= 1 && KingCount(b, Black) <= 1
  }

  lemma OnlyKing(b: Board, c: Color)
    requires KingsAtMostOne(b) && KingSquare(b, c) != -1
    ensures KingAt(b, c, KingSquare(b, c))
  {
    OneKing(b, c);
  }

  /** After a legal move of any variant a right that was in step still is, unless the move strands it. */
  lemma RightsInStepExactly(s: State, m: Move, c: Color, side: CastlingSide)
    requires KingsAtMostOne(s.board) && m in LegalMoves(s)
    requires RightInStep(s.board, c, side, Right(s.castling, c, side))
    ensures Playable(s, m)
    ensures RightInStep(BoardAfter(s, m), c, side, Right(Apply(s, m).castling, c, side)) <==>
              !KeepsRight(s, m, c, side) || !Strands(s, m, c, side)
  {
    LegalMovesExact(s, m);
    var f := Right(s.castling, c, side);
    RightKept(s, m, c, side);
    if KeepsRight(s, m, c, side) {
      OnlyKing(s.board, c);
      KingStands(s, m, c, KingSquare(s.board, c));
      RookStands(s, m, c, f);
    }
  }

  // ---- whole games

  lemma KingsStayAtMostOne(s: State, m: Move, c: Color)
    requires m in LegalMoves(s) && KingCount(s.board, c) <= 1
    ensures Playable(s, m) && KingCount(BoardAfter(s, m), c) <= 1
  {
    LegalMovesExact(s, m);
    OneKing(s.board, c);
    if NoKing(s.board, c) {
      NoKingStays(s, m, c);
      OneKing(BoardAfter(s, m), c);
    } else {
      var k := KingSquare(s.board, c);
      KingAfter(s, m, c, k);
      OneKing(BoardAfter(s, m), c);
      if !NoKing(BoardAfter(s, m), c) {
        KingAtIsFound(BoardAfter(s, m), c, KingTo(m, c, k));
      }
    }
  }

  /** The move strands some right that it does not clear. */
  ghost predicate StrandsSome(s: State, m: Move) {
    exists c: Color, side: CastlingSide :: KeepsRight(s, m, c, side) && Strands(s, m, c, side)
  }

  lemma AllRightsExactly(s: State, m: Move)
    requires KingsAtMostOne(s.board) && RightsInStep(s) && m in LegalMoves(s)
    ensures Playable(s, m)
    ensures RightsInStep(Apply(s, m)) <==> !StrandsSome(s, m)
  {
    LegalMovesExact(s, m);
    var t := Apply(s, m);
    forall c: Color, side: CastlingSide
      ensures RightInStep(t.board, c, side, Right(t.castling, c, side)) <==>
                !KeepsRight(s, m, c, side) || !Strands(s, m, c, side)
    {
      assert RightInStep(s.board, c, side, Right(s.castling, c, side));
      RightsInStepExactly(s, m, c, side);
    }
    if StrandsSome(s, m) {
      var c: Color, side: CastlingSide :| KeepsRight(s, m, c, side) && Strands(s, m, c, side);
      assert !RightInStep(t.board, c, side, Right(t.castling, c, side));
    } else {
      forall c: Color, side: CastlingSide ensures RightInStep(t.board, c, side, Right(t.castling, c, side)) {
        assert !KeepsRight(s, m, c, side) || !Strands(s, m, c, side);
      }
    }
  }

  lemma RightsNext(s: State, m: Move, t: State)
    requires KingsAtMostOne(s.board) && Plays(s, m, t)
    ensures KingsAtMostOne(t.board) && t.variant == s.variant
    ensures RightsInStep(s) ==> (RightsInStep(t) <==> !StrandsSome(s, m))
  {
    KingsStayAtMostOne(s, m, White);
    KingsStayAtMostOne(s, m, Black);
    if RightsInStep(s) {
      AllRightsExactly(s, m);
    }
  }

  lemma {:induction false} KingsAlong(ss: seq<State>, ms: seq<Move>, i: nat)
    requires Game(ss, ms) && KingsAtMostOne(ss[0].board) && i < |ss|
    ensures KingsAtMostOne(ss[i].board) && ss[i].variant == ss[0].variant
  {
    if i > 0 {
      KingsAlong(ss, ms, i - 1);
      assert Plays(ss[i - 1], ms[i - 1], ss[i]);
      RightsNext(ss[i - 1], ms[i - 1], ss[i]);
    }
  }

  lemma RightsAt(ss: seq<State>, ms: seq<Move>, i: nat)
    requires Game(ss, ms) && KingsAtMostOne(ss[0].board) && i < |ms| && RightsInStep(ss[i])
    ensures RightsInStep(ss[i + 1]) <==> !StrandsSome(ss[i], ms[i])
  {
    KingsAlong(ss, ms, i);
    assert Plays(ss[i], ms[i], ss[i + 1]);
    RightsNext(ss[i], ms[i], ss[i + 1]);
  }

  ghost predicate NeverStrands(ss: seq<State>, ms: seq<Move>, n: nat)
    requires n <= |ms| < |ss|
  {
    forall i :: 0 <= i < n ==> !StrandsSome(ss[i], ms[i])
  }

  lemma {:induction false} InStepUpTo(ss: seq<State>, ms: seq<Move>, n: nat)
    requires Game(ss, ms) && KingsAtMostOne(ss[0].board) && RightsInStep(ss[0]) && n <= |ms| && NeverStrands(ss, ms, n)
    ensures RightsInStep(ss[n])
  {
    if n > 0 {
      InStepUpTo(ss, ms, n - 1);
      RightsAt(ss, ms, n - 1);
    }
  }

  /** Over every game of every variant rights stay in step throughout exactly when no move strands one. */
  lemma RightsStayInStepExactly(ss: seq<State>, ms: seq<Move>)
    requires Game(ss, ms) && KingsAtMostOne(ss[0].board) && RightsInStep(ss[0])
    ensures (forall i :: 0 <= i < |ss| ==> RightsInStep(ss[i])) <==> NeverStrands(ss, ms, |ms|)
  {
    if NeverStrands(ss, ms, |ms|) {
      forall i | 0 <= i < |ss| ensures RightsInStep(ss[i]) {
        InStepUpTo(ss, ms, i);
      }
    }
    if forall i :: 0 <= i < |ss| ==> RightsInStep(ss[i]) {
      forall i | 0 <= i < |ms| ensures !StrandsSome(ss[i], ms[i]) {
        RightsAt(ss, ms, i);
      }
    }
  }

  /** Outside Atomic only the first move of a game can strand a right: after any move the en-passant
      field fits the board. */
  lemma LaterMovesStrandNone(ss: seq<State>, ms: seq<Move>, i: nat)
    requires Game(ss, ms) && 0 < i < |ms| && ss[i].variant != Atomic && RightsInStep(ss[i])
    ensures !StrandsSome(ss[i], ms[i])
  {
    var s, m := ss[i], ms[i];
    NeverTakes(ss, ms, i);
    FitsAfterFirst(ss, ms, i);
    assert Plays(s, m, ss[i + 1]);
    LegalMovesExact(s, m);
    forall c: Color, side: CastlingSide | KeepsRight(s, m, c, side)
      ensures !Strands(s, m, c, side)
    {
      assert RightInStep(s.board, c, side, Right(s.castling, c, side));
      var rook := RookSquare(c, Right(s.castling, c, side));
      if IsVictim(s, m, rook) {
        VictimIsPawn(s, m, rook);
      }
    }
  }

  lemma FitsAfterFirst(ss: seq<State>, ms: seq<Move>, i: nat)
    requires Game(ss, ms) && 0 < i < |ss|
    ensures EpFits(ss[i].board, ss[i].turn, ss[i].epSquare)
  {
    assert Plays(ss[i - 1], ms[i - 1], ss[i]);
    LegalMovesExact(ss[i - 1], ms[i - 1]);
    EpStaysFit(ss[i - 1], ms[i - 1]);
  }

  lemma {:induction false} InStepFromFirst(ss: seq<State>, ms: seq<Move>, n: nat)
    requires Game(ss, ms) && KingsAtMostOne(ss[0].board) && RightsInStep(ss[0]) && ss[0].variant != Atomic
    requires n < |ss| && (ms != [] ==> !StrandsSome(ss[0], ms[0]))
    ensures RightsInStep(ss[n])
  {
    if n == 1 {
      RightsAt(ss, ms, 0);
    } else if n > 1 {
      InStepFromFirst(ss, ms, n - 1);
      KingsAlong(ss, ms, n - 1);
      LaterMovesStrandNone(ss, ms, n - 1);
      RightsAt(ss, ms, n - 1);
    }
  }

  /** Outside Atomic rights stay in step over a whole game, from any position the validator accepts and
      that has them in step, exactly when the first move strands none. */
  lemma RightsStayInStep(ss: seq<State>, ms: seq<Move>)
    requires Game(ss, ms) && Valid(ss[0]) && RightsInStep(ss[0]) && ss[0].variant != Atomic
    ensures (forall i :: 0 <= i < |ss| ==> RightsInStep(ss[i])) <==> (ms == [] || !StrandsSome(ss[0], ms[0]))
  {
    RightsStayInStepExactly(ss, ms);
    if ms == [] || !StrandsSome(ss[0], ms[0]) {
      forall n | 0 <= n < |ss| ensures RightsInStep(ss[n]) {
        InStepFromFirst(ss, ms, n);
      }
    }
  }

  // ---- what a right out of step can still do

  /** A castle needs its rook and its king where the right says; outside Chess960, where the files are
      fixed, that is being in step. */
  lemma CastleNeedsItsRook(s: State, m: Move)
    requires m in LegalMoves(s) && IsCastling(m) && KingsAtMostOne(s.board)
    ensures var side := CastleSideOf(m); var f := Right(s.castling, s.turn, side);
            && f != NO_ROOK && Holds(s.board, RookSquare(s.turn, f), s.turn, Rook)
            && KingSquare(s.board, s.turn) == m.from && RankOf(m.from) == BackRank(s.turn)
            && (s.variant != Chess960 ==> RightInStep(s.board, s.turn, side, f))
  {
    LegalMovesExact(s, m);
    BoardMoveFacts(s, m);
    OnlyKingsCastle(s, m);
    CastleFacts(s, m);
    OneKing(s.board, s.turn);
  }

  /** Outside Chess960, then, a right that is out of step gives no castle while it is. */
  lemma StrandedRightIsHarmless(s: State, side: CastlingSide, m: Move)
    requires KingsAtMostOne(s.board) && s.variant != Chess960
    requires !RightInStep(s.board, s.turn, side, Right(s.castling, s.turn, side))
    ensures IsCastling(m) && CastleSideOf(m) == side ==> m !in LegalMoves(s)
  {
    if m in LegalMoves(s) && IsCastling(m) && CastleSideOf(m) == side {
      CastleNeedsItsRook(s, m);
    }
  }

  /** A right out of step comes back only by dropping a rook on its square. */
  lemma OnlyADropRevives(s: State, m: Move, c: Color, side: CastlingSide)
    requires m in LegalMoves(s) && KingsAtMostOne(s.board)
    requires !RightInStep(s.board, c, side, Right(s.castling, c, side))
    ensures Playable(s, m)
    ensures var f' := Right(Apply(s, m).castling, c, side);
            f' != NO_ROOK && RightInStep(BoardAfter(s, m), c, side, f') ==>
              m.drop == Some(Rook) && c == s.turn && m.to == RookSquare(c, f')
  {
    LegalMovesExact(s, m);
    var f := Right(s.castling, c, side);
    RightKept(s, m, c, side);
    var f' := Right(Apply(s, m).castling, c, side);
    if f' != NO_ROOK && RightInStep(BoardAfter(s, m), c, side, f') {
      KingWasThere(s, m, c);
      RookWasThere(s, m, c, f);
    }
  }

  lemma KingWasThere(s: State, m: Move, c: Color)
    requires IsLegal(s, m) && KingsAtMostOne(s.board) && m.piece != Piece(c, King)
    requires KingSquare(BoardAfter(s, m), c) != -1
    ensures KingSquare(s.board, c) == KingSquare(BoardAfter(s, m), c)
  {
    OneKing(s.board, c);
    OneKing(BoardAfter(s, m), c);
    if NoKing(s.board, c) {
      NoKingStays(s, m, c);
    } else {
      KingStands(s, m, c, KingSquare(s.board, c));
    }
  }

  lemma RookWasThere(s: State, m: Move, c: Color, file: RookFile)
    requires IsLegal(s, m) && file != NO_ROOK && m.piece != Piece(c, King)
    requires m.drop.None? ==> !Touches(m, RookSquare(c, file))
    requires Holds(BoardAfter(s, m), RookSquare(c, file), c, Rook)
    ensures Holds(s.board, RookSquare(c, file), c, Rook) ||
            (m.drop == Some(Rook) && c == s.turn && m.to == RookSquare(c, file))
  {
    var rook := RookSquare(c, file);
    CoordinatesSquare(file, BackRank(c));
    if m.drop.Some? {
      DropFacts(s, m);
    } else {
      if IsVictim(s, m, rook) {
        VictimIsGone(s, m, rook);
      } else {
        RookSquareCell(s, m, c, file);
        AfterExplosion(s, m, rook);
      }
    }
  }

  // ---- a legal capture that strands a right

  /** White: king e1, rook h1, pawn g2, right to castle with the h-rook. Black: king e8, knight e3, to move. */
  const CORNERED := State(
    Cells(map[4 := WHITE_KING, 7 := Piece(White, Rook), 22 := Piece(White, Pawn), 116 := BLACK_KING,
              36 := Piece(Black, Knight)]),
    Black, CastlingRights(SideRights(7, NO_ROOK), SideRights(NO_ROOK, NO_ROOK)),
    -1, 0, 1, Pockets([], []), Counters(0, 0), Atomic)

  /** The knight takes the pawn on g2; the blast reaches the rook on h1. */
  const TAKES_G2 := Move(36, 22, Piece(Black, Knight), Some(Piece(White, Pawn)), None, None, None,
                         NORMAL.(capture := true))

  lemma CorneredKings()
    ensures KingAt(CORNERED.board, White, 4) && KingAt(CORNERED.board, Black, 116)
    ensures KingSquare(CORNERED.board, White) == 4 && KingSquare(CORNERED.board, Black) == 116
    ensures KingCount(CORNERED.board, White) == 1 && KingCount(CORNERED.board, Black) == 1
  {
    KingAtIsFound(CORNERED.board, White, 4);
    KingAtIsFound(CORNERED.board, Black, 116);
  }

  lemma CorneredNotInCheck()
    ensures !Attacked(CORNERED.board, 4, Black)
  {
    forall from ensures !AttacksFrom(CORNERED.board, from, Black, 4) {
    }
  }

  lemma CorneredRights(c: Color, side: CastlingSide)
    ensures RightInStep(CORNERED.board, c, side, Right(CORNERED.castling, c, side))
    ensures RightAtomic(CORNERED.board, c, side, Right(CORNERED.castling, c, side))
  {
    CorneredKings();
    assert RookSquare(White, 7) == 7;
  }

  lemma CorneredIsFine()
    ensures WellFormed(CORNERED) && Valid(CORNERED) && RightsInStep(CORNERED)
  {
    CorneredKings();
    CorneredNotInCheck();
    forall c: Color, side: CastlingSide
      ensures RightInStep(CORNERED.board, c, side, Right(CORNERED.castling, c, side))
      ensures RightAtomic(CORNERED.board, c, side, Right(CORNERED.castling, c, side))
    {
      CorneredRights(c, side);
    }
    assert OffBoardEmpty(CORNERED.board);
  }

  lemma TakingIsLegal()
    ensures TAKES_G2 in LegalMoves(CORNERED)
  {
    var s, m := CORNERED, TAKES_G2;
    var b := BoardAfter(s, m);
    assert b == Cells(map[4 := WHITE_KING, 116 := BLACK_KING]);
    KingAtIsFound(b, White, 4);
    KingAtIsFound(b, Black, 116);
    forall from ensures !AttacksFrom(b, from, White, 116) {
    }
    assert IsPseudo(s, m);
    LegalMovesExact(s, m);
  }

  /** The blast reaches h1, and nothing on the move clears the right of its rook. */
  lemma TakingStrands()
    ensures KeepsRight(CORNERED, TAKES_G2, White, KSide) && Strands(CORNERED, TAKES_G2, White, KSide)
  {
    assert Right(CORNERED.castling, White, KSide) == 7 && RookSquare(White, 7) == 7;
    assert Blasts(CORNERED, TAKES_G2, 7);
  }

  /** So in Atomic a held right need not name a rook that is still there. */
  lemma RightsFallOutOfStep()
    ensures WellFormed(CORNERED) && Valid(CORNERED) && RightsInStep(CORNERED)
    ensures TAKES_G2 in LegalMoves(CORNERED) && Playable(CORNERED, TAKES_G2) && !RightsInStep(Apply(CORNERED, TAKES_G2))
  {
    CorneredIsFine();
    CorneredKings();
    TakingIsLegal();
    TakingStrands();
    AllRightsExactly(CORNERED, TAKES_G2);
  }
}
