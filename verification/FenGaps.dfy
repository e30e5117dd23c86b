/** Positions, reached by legal moves or read from a FEN, that do not come back from their own FEN
    (packages/chess-core/src/fen.ts). */
module FenGaps {
  import opened Common
  import opened ChessTypes
  import opened Positions
  import opened Geometry
  import opened Attack
  import opened Castling
  import opened CastlingField
  import opened MoveGen
  import opened Play
  import opened Legality
  import opened Validity
  import opened Rights
  import opened Text
  import opened Fen
  import opened FenRoundTrip

  lemma StrandedRightIsUnreadable(t: State)
    requires t.castling == CORNERED.castling && t.board[7].None?
    ensures !AllReadable(t.board, t.castling)
  {
    assert Right(t.castling, White, KSide) == 7 && RookSquare(White, 7) == 7;
    assert !Readable(t.board, White, KSide, 7);
  }

  lemma AfterTakingG2()
    ensures TAKES_G2 in LegalMoves(CORNERED) && Playable(CORNERED, TAKES_G2)
    ensures var t := Apply(CORNERED, TAKES_G2);
            t.variant == Atomic && Writable(t) && t.castling == CORNERED.castling && t.board[7].None?
  {
    RightsFallOutOfStep();
    assert UpdateCastlingRights(CORNERED.castling, TAKES_G2) == CORNERED.castling;
  }

  lemma UnreadableIsLost(t: State)
    requires Writable(t) && !AllReadable(t.board, t.castling)
    ensures ParseFen(ToFen(t), t.variant) != Ok(t)
  {
    NotReturned(t);
  }

  /** In Atomic the stranded right is written, but no rook bears it out when it is read. */
  lemma StrandedRightIsLost()
    ensures TAKES_G2 in LegalMoves(CORNERED) && Playable(CORNERED, TAKES_G2)
    ensures var t := Apply(CORNERED, TAKES_G2); Writable(t) && ParseFen(ToFen(t), t.variant) != Ok(t)
  {
    AfterTakingG2();
    StrandedRightIsUnreadable(Apply(CORNERED, TAKES_G2));
    UnreadableIsLost(Apply(CORNERED, TAKES_G2));
  }

  /** Three-Check, White to move after three checks: kings e1 and e8, knight b5. */
  const THRICE := State(
    Cells(map[4 := WHITE_KING, 116 := BLACK_KING, 65 := Piece(White, Knight)]),
    White, NO_RIGHTS, -1, 5, 9, Pockets([], []), Counters(3, 0), ThreeCheck)

  /** Knight to d6, with check. */
  const FOURTH_CHECK := Move(65, 83, Piece(White, Knight), None, None, None, None, NORMAL)

  lemma ThriceIsAccepted()
    ensures WellFormed(THRICE) && Valid(THRICE) && ParseFen(ToFen(THRICE), ThreeCheck) == Ok(THRICE)
  {
    var b := THRICE.board;
    KingAtIsFound(b, White, 4);
    KingAtIsFound(b, Black, 116);
    forall from ensures !AttacksFrom(b, from, White, 116) {
    }
    WellFormedRoundTrip(THRICE);
  }

  lemma FourthCheckIsLegal()
    ensures FOURTH_CHECK in LegalMoves(THRICE) && Playable(THRICE, FOURTH_CHECK)
    ensures Apply(THRICE, FOURTH_CHECK).checkCount == Counters(4, 0)
  {
    var s, m := THRICE, FOURTH_CHECK;
    assert IsPseudo(s, m) && Playable(s, m);
    var b := BoardAfter(s, m);
    assert b == Cells(map[4 := WHITE_KING, 116 := BLACK_KING, 83 := Piece(White, Knight)]);
    KingAtIsFound(b, White, 4);
    KingAtIsFound(b, Black, 116);
    forall from ensures !AttacksFrom(b, from, Black, 4) {
    }
    assert AttacksFrom(b, 83, White, 116);
    LegalMovesExact(s, m);
  }

  lemma TooManyChecksAreLost(t: State)
    requires t.variant == ThreeCheck && Writable(t) && !CountsFit(t.checkCount)
    ensures ParseFen(ToFen(t), t.variant).Err?
  {
    ParseOfToFen(t);
  }

  lemma AfterFourthCheck()
    ensures Playable(THRICE, FOURTH_CHECK)
    ensures var t := Apply(THRICE, FOURTH_CHECK); t.variant == ThreeCheck && Writable(t) && !CountsFit(t.checkCount)
  {
    FourthCheckIsLegal();
  }

  /** In Three-Check a legal check after the game was decided makes a count no FEN reads back. */
  lemma FourthCheckIsLost()
    ensures WellFormed(THRICE) && Valid(THRICE) && ParseFen(ToFen(THRICE), ThreeCheck) == Ok(THRICE)
    ensures FOURTH_CHECK in LegalMoves(THRICE) && Playable(THRICE, FOURTH_CHECK)
    ensures var t := Apply(THRICE, FOURTH_CHECK); Writable(t) && ParseFen(ToFen(t), t.variant).Err?
  {
    ThriceIsAccepted();
    FourthCheckIsLegal();
    AfterFourthCheck();
    TooManyChecksAreLost(Apply(THRICE, FOURTH_CHECK));
  }

  // ---- fields the reader takes and the writer cannot give back

  /** A six-field FEN read as Three-Check gives a position with no checks delivered. */
  lemma PlainFenAsThreeCheck(s: State)
    requires Writable(s) && Returns(s) && s.variant == Standard
    ensures ParseFen(ToFen(s), ThreeCheck) == Ok(s.(variant := ThreeCheck))
  {
    FieldsOfFen(s);
    FenFieldsAt(s);
    ClockReadsBack(s.halfmoves, 0);
    ClockReadsBack(s.fullmoves, 1);
    IntTextDigits(s.halfmoves);
    PlusIsAbsent(s.halfmoves);
    PlacementRoundTrip(s);
    TrimmedIsSame(s.board);
    RightsReadBack(s);
    EpReadsBack(s.epSquare);
  }

  lemma PlusIsAbsent(n: int)
    ensures '+' !in IntText(n)
  {
    IntTextIsWord(n);
  }

  /** So a negative halfmove clock is taken in Three-Check, where the writer then puts a counter field beside
      it and the reader refuses the two. */
  lemma NegativeClockIsLost(s: State)
    requires Writable(s) && Returns(s) && s.variant == Standard && s.halfmoves < 0
    ensures var t := s.(variant := ThreeCheck);
            ParseFen(ToFen(s), ThreeCheck) == Ok(t) && (Valid(s) ==> Valid(t)) && ParseFen(ToFen(t), ThreeCheck).Err?
  {
    PlainFenAsThreeCheck(s);
    ParseOfToFen(s.(variant := ThreeCheck));
  }

  /** The text of the position with another word in its en-passant field. */
  function WithEpField(s: State, name: string): string {
    Join(FenWords(s)[3 := name], ' ')
  }

  lemma SameLayout(s: State, name: string)
    ensures |FenWords(s)| >= 4
    ensures ReadCheckLayout(FenWords(s)[3 := name], s.variant) == ReadCheckLayout(FenWords(s), s.variant)
  {
    FenFieldsAt(s);
  }

  lemma EpFieldParts(s: State, name: string)
    requires Writable(s) && LayoutFits(s)
    ensures |FenWords(s)| >= 4
    ensures ParseParts(FenWords(s)[3 := name], s.variant) ==
            Ok(ReadBack(s).(epSquare := if name == "-" then -1 else SquareFromName(name)))
  {
    FenFieldsAt(s);
    PartsReadBack(s);
    SameLayout(s, name);
    var parts, words := FenWords(s)[3 := name], FenWords(s);
    assert parts[0] == words[0] && parts[1] == words[1] && parts[2] == words[2] && parts[3] == name;
  }

  lemma ReturnsIsReadBack(s: State)
    requires Writable(s) && Returns(s)
    ensures LayoutFits(s) && ReadBack(s) == s
  {
    TrimmedIsSame(s.board);
    RightsReadBack(s);
    EpReadsBack(s.epSquare);
  }

  /** Whatever word stands for the en-passant square is read as one. */
  lemma AnyEpIsRead(s: State, name: string)
    requires Writable(s) && Returns(s) && IsWord(name) && name != "-"
    ensures ParseFen(WithEpField(s, name), s.variant) == Ok(s.(epSquare := SquareFromName(name)))
  {
    FieldsAreWords(s);
    FieldsOfJoined(FenWords(s)[3 := name]);
    ReturnsIsReadBack(s);
    EpFieldParts(s, name);
  }

  lemma SquareEight(name: string, ep: int)
    requires |name| == 2 && name[0] == 'i' && name[1] == '1' && ep == SquareFromName(name)
    ensures ep == 8 && IsWord(name) && name != "-"
  {
  }

  lemma EightIsNotWritten(ep: int)
    requires ep == 8
    ensures EpText(ep) == ['a', '1'] && EpWritable(ep) && !EpComesBack(ep)
  {
    SmallUnit('1' as int + RankOf(ep));
  }

  lemma EpIsNotValidated(s: State, ep: int)
    requires Valid(s)
    ensures Valid(s.(epSquare := ep))
  {
  }

  /** The position whose en-passant field is this word is read, accepted if the one without it is, and lost. */
  ghost predicate LostThrough(s: State, name: string) {
    var t := s.(epSquare := SquareFromName(name));
    && ParseFen(WithEpField(s, name), s.variant) == Ok(t) && (Valid(s) ==> Valid(t))
    && ParseFen(ToFen(t), t.variant) != Ok(t)
  }

  /** A word that names a square the writer writes differently is read and accepted, and then lost. */
  lemma ElsewhereIsLost(s: State, name: string)
    requires Writable(s) && Returns(s) && IsWord(name) && name != "-"
    requires EpWritable(SquareFromName(name)) && !EpComesBack(SquareFromName(name))
    ensures LostThrough(s, name)
  {
    var ep := SquareFromName(name);
    AnyEpIsRead(s, name);
    NotReturned(s.(epSquare := ep));
    if Valid(s) {
      EpIsNotValidated(s, ep);
    }
  }

  predicate IsI1(name: string) {
    |name| == 2 && name[0] == 'i' && name[1] == '1'
  }

  /** "i1" is read as the square after h1, which is written as a1. */
  lemma SquareAfterH1(name: string)
    requires IsI1(name)
    ensures IsWord(name) && name != "-"
    ensures var ep := SquareFromName(name); EpText(ep) == ['a', '1'] && EpWritable(ep) && !EpComesBack(ep)
  {
    SquareEight(name, SquareFromName(name));
    EightIsNotWritten(SquareFromName(name));
  }

  /** So a position that names it is read and accepted, and does not come back. */
  lemma EpOffTheBoardIsLost(s: State, name: string)
    requires Writable(s) && Returns(s) && IsI1(name)
    ensures LostThrough(s, name) && EpText(SquareFromName(name)) == ['a', '1']
  {
    SquareAfterH1(name);
    ElsewhereIsLost(s, name);
  }

  /** Kings e1 and e8, White to move. */
  function TwoKings(v: Variant, half: int): State {
    State(Cells(map[4 := WHITE_KING, 116 := BLACK_KING]), White, NO_RIGHTS, -1, half, 1, NO_POCKETS, NO_CHECKS, v)
  }

  lemma TwoKingsReturn(v: Variant, half: int)
    requires v in {Standard, Chess960, Atomic} && ClockFits(half)
    ensures var s := TwoKings(v, half); Writable(s) && Returns(s) && Valid(s)
  {
    var b := TwoKings(v, half).board;
    KingAtIsFound(b, White, 4);
    KingAtIsFound(b, Black, 116);
    forall from ensures !AttacksFrom(b, from, White, 116) {
    }
    BoardSquaresComeBack(-1);
  }
}
