/** Legal play keeps positions well formed and valid, variant by variant
    (packages/chess-core/src/movegen.ts, packages/chess-core/src/position-validator.ts). */
module LegalPlay {
  import opened Common
  import opened ChessTypes
  import opened Geometry
  import opened Attack
  import opened Castling
  import opened MoveGen
  import opened Play
  import opened Legality
  import opened Validity

  // ---- one move, cell by cell

  /** The board after the move and before any Atomic explosion. */
  function PlainBoard(s: State, m: Move): Board
    requires Playable(s, m)
  {
    if m.drop.Some? then DropBoard(s, m) else if IsCastling(m) then CastleBoard(s, m) else MovedBoard(s, m)
  }

  lemma AfterExplosion(s: State, m: Move, t: int)
    requires Playable(s, m) && IsPseudo(s, m) && 0 <= t < 128
    ensures BoardAfter(s, m)[t] == PlainBoard(s, m)[t] || (s.variant == Atomic && BoardAfter(s, m)[t].None?)
  {
  }

  /** A castle writes exactly the two destinations and empties exactly the origins left over. */
  lemma CastleCell(s: State, m: Move, t: int)
    requires Playable(s, m) && IsBoardMove(s, m) && IsCastling(m) && 0 <= t < 128
    ensures CastleBoard(s, m)[t] ==
            if t == m.to then Some(Piece(s.turn, King))
            else if t == CastledRookSquare(s.turn, CastleSideOf(m)) then Some(Piece(s.turn, Rook))
            else if t == m.from || t == m.castleRook.value then None
            else s.board[t]
  {
    CastleDestinations(s, m);
  }

  lemma DropFacts(s: State, m: Move)
    requires IsPseudo(s, m) && m.drop.Some?
    ensures IsDrop(s, m) && OnBoard(m.to) && s.board[m.to].None? && m.piece.kind != King && !IsCastling(m) &&
            m.from == -1
    ensures m.drop == Some(m.piece.kind) && m.piece.color == s.turn && m.captured.None? && m.castleRook.None?
    ensures s.variant == Crazyhouse
  {
  }

  lemma BoardMoveFacts(s: State, m: Move)
    requires IsPseudo(s, m) && m.drop.None?
    ensures IsBoardMove(s, m) && s.board[m.from] == Some(m.piece) && m.piece.color == s.turn && OnBoard(m.from)
  {
  }

  /** Where kings stand after a move: only the moved king is new, and only what stood on `to` or was
      taken en passant is gone. */
  lemma KingCell(s: State, m: Move, c: Color, t: int)
    requires Playable(s, m) && IsPseudo(s, m) && 0 <= t < 128
    ensures Holds(PlainBoard(s, m), t, c, King) <==>
            || (m.piece == Piece(c, King) && t == m.to)
            || (t != m.from && t != m.to && !IsVictim(s, m, t) && Holds(s.board, t, c, King))
  {
    if m.drop.Some? {
      DropFacts(s, m);
    } else {
      BoardMoveFacts(s, m);
      if IsCastling(m) {
        OnlyKingsCastle(s, m);
        CastleFacts(s, m);
        CastleDestinations(s, m);
        CastleCell(s, m, t);
      } else {
        KingsAfterMoved(s, m, c, t);
      }
    }
  }

  /** A move lands on no own man, except a castling king on its own castling men. */
  lemma LandsFree(s: State, m: Move)
    requires Playable(s, m) && IsPseudo(s, m) && EpFits(s.board, s.turn, s.epSquare)
    ensures OnBoard(m.to)
    ensures !IsCastling(m) ==> !Own(s.board, m.to, s.turn)
    ensures !IsCastling(m) && s.board[m.to].Some? ==> m.captured == s.board[m.to]
  {
    PseudoIsPlayable(s, m);
    if m.drop.Some? {
      DropFacts(s, m);
    } else {
      BoardMoveFacts(s, m);
      if !IsCastling(m) {
        CapturedStood(s, m);
      }
    }
  }

  /** The king of `c` after the move, when it is not captured. */
  function KingTo(m: Move, c: Color, k: int): int {
    if m.piece == Piece(c, King) then m.to else k
  }

  /** Does the move put an end to the king of `c` on `k`, before any explosion? */
  predicate Removes(s: State, m: Move, c: Color, k: int) {
    m.piece != Piece(c, King) && (m.to == k || IsVictim(s, m, k))
  }

  lemma KingAtPlain(s: State, m: Move, c: Color, k: int)
    requires Playable(s, m) && IsPseudo(s, m) && KingAt(s.board, c, k)
    ensures if Removes(s, m, c, k) then NoKing(PlainBoard(s, m), c) else KingAt(PlainBoard(s, m), c, KingTo(m, c, k))
  {
    PseudoIsPlayable(s, m);
    var k' := KingTo(m, c, k);
    if m.drop.Some? { DropFacts(s, m); } else { BoardMoveFacts(s, m); }
    forall t | OnBoard(t) && Holds(PlainBoard(s, m), t, c, King)
      ensures t == k' && !Removes(s, m, c, k)
    {
      KingCell(s, m, c, t);
    }
    KingCell(s, m, c, k');
  }

  lemma NoKingStays(s: State, m: Move, c: Color)
    requires Playable(s, m) && IsPseudo(s, m) && NoKing(s.board, c)
    ensures NoKing(BoardAfter(s, m), c)
  {
    forall t | OnBoard(t)
      ensures !Holds(BoardAfter(s, m), t, c, King)
    {
      KingCell(s, m, c, t);
      AfterExplosion(s, m, t);
      if m.drop.Some? { DropFacts(s, m); } else { BoardMoveFacts(s, m); }
    }
  }

  // ---- kings after a legal move

  /** An en-passant field that names the square of the mover's own king lets a pawn land on it, and in
      the two variants whose legality does not ask for a king nothing stops it. */
  predicate TakesOwnKing(s: State, m: Move) {
    s.variant in {Horde, RacingKings} && m.flags.enPassant && Holds(s.board, m.to, s.turn, King)
  }

  lemma FittingEpTakesNoKing(s: State, m: Move)
    requires IsPseudo(s, m) && EpFits(s.board, s.turn, s.epSquare)
    ensures !TakesOwnKing(s, m)
  {
    if m.drop.Some? { DropFacts(s, m); } else { BoardMoveFacts(s, m); }
  }

  /** A king that a legal move removes without an explosion is the enemy's in Atomic, or one's own by
      such an en-passant capture. */
  lemma RemovedKing(s: State, m: Move, c: Color, k: int)
    requires IsPseudo(s, m) && Playable(s, m) && KingAt(s.board, c, k) && Removes(s, m, c, k)
    ensures CapturesKing(m) || (c == s.turn && m.flags.enPassant && m.to == k && m.drop.None? && !IsCastling(m))
  {
    if m.drop.Some? {
      DropFacts(s, m);
    } else {
      BoardMoveFacts(s, m);
      if IsCastling(m) {
        OnlyKingsCastle(s, m);
        CastleFacts(s, m);
        CastleDestinations(s, m);
      }
    }
  }

  lemma NoKingIsNotLegal(v: Variant, b: Board, us: Color)
    requires NoKing(b, us) && LegalAfter(v, b, us)
    ensures v in {Horde, RacingKings}
  {
    OneKing(b, us);
  }

  /** After the move `c` has the one king it had; or, in Atomic only, has just lost it; or has put a
      pawn on it. */
  lemma KingAfter(s: State, m: Move, c: Color, k: int)
    requires IsLegal(s, m) && KingAt(s.board, c, k)
    ensures if TakesOwnKing(s, m) && c == s.turn then NoKing(BoardAfter(s, m), c)
            else KingAt(BoardAfter(s, m), c, KingTo(m, c, k))
                 || (s.variant == Atomic && c != s.turn && NoKing(BoardAfter(s, m), c))
  {
    var b' := BoardAfter(s, m);
    var k' := KingTo(m, c, k);
    PseudoIsPlayable(s, m);
    KingAtPlain(s, m, c, k);
    forall t | OnBoard(t) && Holds(b', t, c, King)
      ensures Holds(PlainBoard(s, m), t, c, King)
    {
      AfterExplosion(s, m, t);
    }
    if Removes(s, m, c, k) {
      RemovedKing(s, m, c, k);
      if c == s.turn {
        NoKingIsNotLegal(s.variant, b', c);
      }
    } else if s.variant == Atomic {
      if c == s.turn && NoKing(b', c) {
        NoKingIsNotLegal(s.variant, b', c);
      }
    }
  }

  // ---- the validator's clauses

  lemma AdjacentKingsAttack(b: Board, c: Color, mine: int, theirs: int)
    requires KingAt(b, c, mine) && KingAt(b, Opposite(c), theirs)
    ensures IsAdjacent(mine, theirs) || IsAdjacent(theirs, mine) ==> Attacked(b, mine, Opposite(c))
  {
    if IsAdjacent(mine, theirs) || IsAdjacent(theirs, mine) {
      assert AttacksFrom(b, theirs, Opposite(c), mine);
    }
  }

  /** What the legality filter says once the kings are known. */
  lemma LegalAfterMeans(v: Variant, b: Board, us: Color, mine: int)
    requires LegalAfter(v, b, us) && KingAt(b, us, mine)
    ensures v != Atomic ==> !Attacked(b, mine, Opposite(us))
    ensures v == Atomic && KingSquare(b, Opposite(us)) != -1 ==> !InCheck(b, v, us)
    ensures v == RacingKings ==> !InCheck(b, v, Opposite(us))
    ensures v != Atomic ==> !InCheck(b, v, us)
  {
    KingAtIsFound(b, us, mine);
  }

  ghost predicate BothKings(b: Board, v: Variant, white: int, black: int) {
    && (if v == Horde then NoKing(b, White) else KingAt(b, White, white))
    && KingAt(b, Black, black)
  }

  lemma ValidKings(s: State)
    requires Valid(s)
    ensures BothKings(s.board, s.variant, KingSquare(s.board, White), KingSquare(s.board, Black))
  {
    OneKing(s.board, White);
    OneKing(s.board, Black);
  }

  /** The board clauses of validity, from the kings and the legality filter. */
  lemma BoardValid(b: Board, v: Variant, us: Color, white: int, black: int)
    requires BothKings(b, v, white, black) && LegalAfter(v, b, us)
    ensures KingCount(b, White) == ExpectedKings(v, White) && KingCount(b, Black) == ExpectedKings(v, Black)
    ensures v != Atomic && v != Horde ==> !IsAdjacent(KingSquare(b, White), KingSquare(b, Black))
    ensures ChecksFit(b, v, Opposite(us))
  {
    OneKing(b, White);
    KingAtIsFound(b, Black, black);
    if v != Horde {
      KingAtIsFound(b, White, white);
    }
    if v != Horde || us == Black {
      LegalAfterMeans(v, b, us, if us == White then white else black);
    }
    if v != Horde {
      AdjacentKingsAttack(b, us, if us == White then white else black, if us == White then black else white);
    }
  }

  // ---- the other fields

  lemma {:induction false} RemoveFirstKeeps(pocket: seq<Kind>, k: Kind, x: Kind)
    ensures x in RemoveFirst(pocket, k) ==> x in pocket
  {
    if pocket != [] && pocket[0] != k {
      RemoveFirstKeeps(pocket[1..], k, x);
    }
  }

  lemma PocketsStayFit(s: State, m: Move)
    requires IsLegal(s, m) && PocketsFit(s.variant, s.pockets)
    ensures PocketsFit(s.variant, PocketsAfter(s, m))
  {
    if m.drop.Some? {
      DropFacts(s, m);
      RemoveFirstKeeps(PocketOf(s.pockets, s.turn), m.drop.value, King);
    }
  }

  lemma OffBoardStaysEmpty(s: State, m: Move)
    requires IsLegal(s, m) && OffBoardEmpty(s.board)
    ensures OffBoardEmpty(BoardAfter(s, m))
  {
    PseudoIsPlayable(s, m);
    forall t | 0 <= t < 128 && !OnBoard(t)
      ensures BoardAfter(s, m)[t].None?
    {
      AfterExplosion(s, m, t);
      if m.drop.None? {
        BoardMoveFacts(s, m);
        if IsCastling(m) {
          OnlyKingsCastle(s, m);
          CastleFacts(s, m);
          CastleCell(s, m, t);
        } else {
          MovedCell(s, m, t);
        }
      }
    }
  }

  lemma DoublePushFacts(s: State, m: Move)
    requires IsPseudo(s, m) && m.flags.double
    ensures m.drop.None? && !IsCastling(m) && m.captured.None? && m.promotion.None? && !m.flags.enPassant
    ensures m.piece == Piece(s.turn, Pawn) && OnBoard(m.from) && s.board[m.from] == Some(m.piece)
    ensures OnBoard(m.from + Forward(s.turn)) && s.board[m.from + Forward(s.turn)].None?
    ensures m.to == m.from + Forward(s.turn) + Forward(s.turn) && OnBoard(m.to)
  {
  }

  /** The en-passant square a double push leaves is empty, with the pushed pawn behind it. */
  lemma EpStaysFit(s: State, m: Move)
    requires IsLegal(s, m)
    ensures EpFits(BoardAfter(s, m), Opposite(s.turn), EpAfter(s, m))
  {
    if EpAfter(s, m) != -1 {
      DoublePushFacts(s, m);
      SquareCoordinates(m.from);
    }
  }

  // ---- castling rights

  lemma RookSquareCell(s: State, m: Move, c: Color, file: RookFile)
    requires IsLegal(s, m) && file != NO_ROOK && m.piece != Piece(c, King) && !IsVictim(s, m, RookSquare(c, file))
    requires m.drop.None? ==> !Touches(m, RookSquare(c, file))
    requires m.drop.Some? ==> Holds(s.board, RookSquare(c, file), c, Rook)
    ensures PlainBoard(s, m)[RookSquare(c, file)] == s.board[RookSquare(c, file)]
  {
    var sq := RookSquare(c, file);
    CoordinatesSquare(file, BackRank(c));
    if m.drop.Some? {
      DropFacts(s, m);
    } else {
      BoardMoveFacts(s, m);
      if IsCastling(m) {
        OnlyKingsCastle(s, m);
        CastleFacts(s, m);
        CastleCell(s, m, sq);
      } else {
        MovedCell(s, m, sq);
      }
    }
  }

  /** What a fitting en-passant field captures is a pawn. */
  lemma VictimIsPawn(s: State, m: Move, t: int)
    requires IsPseudo(s, m) && EpFits(s.board, s.turn, s.epSquare) && IsVictim(s, m, t)
    ensures Holds(s.board, t, Opposite(s.turn), Pawn)
  {
    if m.drop.Some? { DropFacts(s, m); } else { BoardMoveFacts(s, m); }
  }

  lemma RookCellStays(s: State, m: Move, c: Color, file: RookFile)
    requires IsLegal(s, m) && EpFits(s.board, s.turn, s.epSquare) && file != NO_ROOK && m.piece != Piece(c, King)
    requires m.drop.None? ==> !Touches(m, RookSquare(c, file))
    requires Holds(s.board, RookSquare(c, file), c, Rook) || (s.variant == Atomic && s.board[RookSquare(c, file)].None?)
    ensures var rook := RookSquare(c, file); var b' := BoardAfter(s, m);
            b'[rook] == s.board[rook] || (s.variant == Atomic && b'[rook].None?)
  {
    var rook := RookSquare(c, file);
    CoordinatesSquare(file, BackRank(c));
    if IsVictim(s, m, rook) {
      VictimIsPawn(s, m, rook);
    }
    if m.drop.Some? { DropFacts(s, m); }
    RookSquareCell(s, m, c, file);
    AfterExplosion(s, m, rook);
  }

  lemma RightStays(s: State, m: Move, c: Color, side: CastlingSide)
    requires WellFormed(s) && Valid(s) && IsLegal(s, m)
    ensures var f := Right(Apply(s, m).castling, c, side); var b' := BoardAfter(s, m);
            if s.variant == Atomic then RightAtomic(b', c, side, f) else RightInStep(b', c, side, f)
  {
    var f := Right(s.castling, c, side);
    PseudoIsPlayable(s, m);
    if m.drop.Some? {
      DropFacts(s, m);
    } else {
      RightSurvives(s.castling, m, c, side);
    }
    var f' := Right(Apply(s, m).castling, c, side);
    if f' != NO_ROOK {
      assert if s.variant == Atomic then RightAtomic(s.board, c, side, f) else RightInStep(s.board, c, side, f);
      RookCellStays(s, m, c, f);
      OneKing(s.board, c);
      var k := KingSquare(s.board, c);
      KingAfter(s, m, c, k);
      FittingEpTakesNoKing(s, m);
      OneKing(BoardAfter(s, m), c);
      if KingAt(BoardAfter(s, m), c, k) {
        KingAtIsFound(BoardAfter(s, m), c, k);
      }
    }
  }

  // ---- the theorems

  lemma StaysWellFormed(s: State, m: Move)
    requires WellFormed(s) && Valid(s) && m in LegalMoves(s)
    ensures Playable(s, m) && WellFormed(Apply(s, m))
  {
    LegalMovesExact(s, m);
    OffBoardStaysEmpty(s, m);
    EpStaysFit(s, m);
    PocketsStayFit(s, m);
    forall c: Color, side: CastlingSide
      ensures if s.variant == Atomic then RightAtomic(BoardAfter(s, m), c, side, Right(Apply(s, m).castling, c, side))
              else RightInStep(BoardAfter(s, m), c, side, Right(Apply(s, m).castling, c, side))
    {
      RightStays(s, m, c, side);
    }
  }

  /** Has the side to move just lost its king to an explosion? */
  ghost predicate KingExploded(s: State) {
    s.variant == Atomic && NoKing(s.board, s.turn) && KingCount(s.board, Opposite(s.turn)) == 1
  }

  /** The kings after a legal move that takes no own king. */
  lemma KingsStay(s: State, m: Move)
    requires Valid(s) && IsLegal(s, m) && !TakesOwnKing(s, m)
    ensures var white, black := KingSquare(s.board, White), KingSquare(s.board, Black); var b' := BoardAfter(s, m);
            || BothKings(b', s.variant, KingTo(m, White, white), KingTo(m, Black, black))
            || (s.variant == Atomic && NoKing(b', Opposite(s.turn))
                && KingAt(b', s.turn, KingTo(m, s.turn, KingSquare(s.board, s.turn))))
  {
    ValidKings(s);
    KingAfter(s, m, Black, KingSquare(s.board, Black));
    if s.variant == Horde {
      PseudoIsPlayable(s, m);
      NoKingStays(s, m, White);
    } else {
      KingAfter(s, m, White, KingSquare(s.board, White));
    }
  }

  /** A legal move from any position the validator accepts leads to another, or in Atomic to the enemy
      king's explosion, exactly when it does not take the mover's own king en passant. */
  lemma StaysValidExactly(s: State, m: Move)
    requires Valid(s) && m in LegalMoves(s)
    ensures Playable(s, m) && (Valid(Apply(s, m)) || KingExploded(Apply(s, m)) <==> !TakesOwnKing(s, m))
  {
    LegalMovesExact(s, m);
    ValidKings(s);
    PocketsStayFit(s, m);
    var b' := BoardAfter(s, m);
    var white, black := KingSquare(s.board, White), KingSquare(s.board, Black);
    if TakesOwnKing(s, m) {
      var mine := KingSquare(s.board, s.turn);
      assert KingAt(s.board, s.turn, mine);
      KingAfter(s, m, s.turn, mine);
      OneKing(b', s.turn);
    } else {
      KingsStay(s, m);
      if BothKings(b', s.variant, KingTo(m, White, white), KingTo(m, Black, black)) {
        BoardValid(b', s.variant, s.turn, KingTo(m, White, white), KingTo(m, Black, black));
      } else {
        KingAtIsFound(b', s.turn, KingTo(m, s.turn, KingSquare(s.board, s.turn)));
      }
    }
  }

  /** A side whose king has exploded has no legal move: the game ends there. */
  lemma ExplodedIsFinal(s: State, m: Move)
    requires KingExploded(s)
    ensures m !in LegalMoves(s)
  {
    LegalMovesExact(s, m);
    if IsLegal(s, m) {
      NoKingStays(s, m, s.turn);
      OneKing(BoardAfter(s, m), s.turn);
    }
  }

  /** Valid, or the end of an Atomic game whose loser's king has just exploded. */
  ghost predicate ValidAt(ss: seq<State>, i: nat)
    requires i < |ss|
  {
    Valid(ss[i]) || (KingExploded(ss[i]) && i == |ss| - 1)
  }

  lemma ValidNext(ss: seq<State>, ms: seq<Move>, i: nat)
    requires Game(ss, ms) && i + 1 < |ss| && ValidAt(ss, i)
    ensures ValidAt(ss, i + 1) <==> !TakesOwnKing(ss[i], ms[i])
  {
    assert Plays(ss[i], ms[i], ss[i + 1]);
    StaysValidExactly(ss[i], ms[i]);
    if KingExploded(ss[i + 1]) && i + 1 < |ms| {
      assert Plays(ss[i + 1], ms[i + 1], ss[i + 2]);
      ExplodedIsFinal(ss[i + 1], ms[i + 1]);
    }
  }

  /** After the first move the en-passant field fits, and no own king can be taken. */
  lemma NeverTakes(ss: seq<State>, ms: seq<Move>, i: nat)
    requires Game(ss, ms) && 0 < i < |ms|
    ensures !TakesOwnKing(ss[i], ms[i])
  {
    assert Plays(ss[i - 1], ms[i - 1], ss[i]) && Plays(ss[i], ms[i], ss[i + 1]);
    LegalMovesExact(ss[i - 1], ms[i - 1]);
    EpStaysFit(ss[i - 1], ms[i - 1]);
    LegalMovesExact(ss[i], ms[i]);
    FittingEpTakesNoKing(ss[i], ms[i]);
  }

  lemma {:induction false} ValidAlong(ss: seq<State>, ms: seq<Move>, i: nat)
    requires Game(ss, ms) && Valid(ss[0]) && i < |ss|
    requires ms != [] ==> !TakesOwnKing(ss[0], ms[0])
    ensures ValidAt(ss, i)
  {
    if i == 1 {
      ValidNext(ss, ms, 0);
    } else if i > 1 {
      ValidAlong(ss, ms, i - 1);
      NeverTakes(ss, ms, i - 1);
      ValidNext(ss, ms, i - 1);
    }
  }

  /** A game from any position the validator accepts stays valid to its end exactly when its first move
      does not take the mover's own king en passant. */
  lemma GamesStayValid(ss: seq<State>, ms: seq<Move>)
    requires Game(ss, ms) && Valid(ss[0])
    ensures (forall i :: 0 <= i < |ss| ==> ValidAt(ss, i)) <==> (ms == [] || !TakesOwnKing(ss[0], ms[0]))
  {
    if ms == [] || !TakesOwnKing(ss[0], ms[0]) {
      forall i | 0 <= i < |ss| ensures ValidAt(ss, i) {
        ValidAlong(ss, ms, i);
      }
    } else {
      ValidNext(ss, ms, 0);
    }
  }

  lemma PlaysWellFormed(s: State, m: Move, t: State)
    requires WellFormed(s) && Valid(s) && Plays(s, m, t)
    ensures WellFormed(t) && t.variant == s.variant && !TakesOwnKing(s, m)
  {
    LegalMovesExact(s, m);
    FittingEpTakesNoKing(s, m);
    StaysWellFormed(s, m);
  }

  lemma WellFormedNext(ss: seq<State>, ms: seq<Move>, i: nat)
    requires Game(ss, ms) && i + 1 < |ss| && WellFormed(ss[i]) && ValidAt(ss, i)
    ensures WellFormed(ss[i + 1]) && ss[i + 1].variant == ss[i].variant && ValidAt(ss, i + 1)
  {
    assert Plays(ss[i], ms[i], ss[i + 1]);
    PlaysWellFormed(ss[i], ms[i], ss[i + 1]);
    ValidNext(ss, ms, i);
  }

  /** Along every game from a valid well-formed position every position is well formed. */
  lemma {:induction false} GamesStayWellFormed(ss: seq<State>, ms: seq<Move>, i: nat)
    requires Game(ss, ms) && WellFormed(ss[0]) && Valid(ss[0]) && i < |ss|
    ensures WellFormed(ss[i]) && ss[i].variant == ss[0].variant && ValidAt(ss, i)
  {
    if i > 0 {
      GamesStayWellFormed(ss, ms, i - 1);
      WellFormedNext(ss, ms, i - 1);
    }
  }
}
