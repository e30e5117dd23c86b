/** What SAN and UCI texts say, letter by letter, and that SAN writes no more of a man's origin than it needs:
    section 8.2.3 of the PGN Specification (packages/chess-core/src/position.ts). */
module Notation {
  import opened Common
  import opened ChessTypes
  import opened Positions
  import opened Geometry
  import opened Attack
  import opened MoveGen
  import opened Play
  import opened Legality
  import opened Validity
  import opened LegalPlay
  import opened Fen
  import opened MoveIdentity
  import opened San
  import opened Bearing
  import opened Rules
  import opened Endings

  // ---- names

  function FileLetter(p: Place): char
    requires 0 <= p.file < 8
  {
    "abcdefgh"[p.file]
  }

  function RankDigit(p: Place): char
    requires 0 <= p.rank < 8
  {
    "12345678"[p.rank]
  }

  function NameOf(p: Place): string
    requires OnTheBoard(p)
  {
    [FileLetter(p), RankDigit(p)]
  }

  function LetterOf(k: Kind): char {
    match k
    case Pawn => 'P' case Knight => 'N' case Bishop => 'B' case Rook => 'R' case Queen => 'Q' case King => 'K'
  }

  lemma NamesAreSpelled(sq: int)
    requires OnBoard(sq)
    ensures OnTheBoard(PlaceOf(sq))
    ensures SquareName(sq) == NameOf(PlaceOf(sq))
    ensures FileName(sq) == FileLetter(PlaceOf(sq)) && RankName(sq) == RankDigit(PlaceOf(sq))
  {
    PlacesAreSquares(sq);
    NamesInRange(sq);
  }

  lemma LettersAreSpelled(k: Kind)
    ensures KindLetter(k) == LetterOf(k)
  {
  }

  // ---- how much of the origin is written

  /** Another legal move takes the same kind of man to the same square; a drop stands on no square, which the
      program reads as beside the h-file, below the first rank. */
  ghost predicate AnotherTo(s: State, m: Move, n: Move) {
    n in LegalMoves(s) && n.to == m.to && n.piece.kind == m.piece.kind && n.from != m.from
  }

  predicate NamedBy(c: char, p: Place) {
    (0 <= p.file < 8 && c == FileLetter(p)) || (0 <= p.rank < 8 && c == RankDigit(p))
  }

  /** Everything written of the origin is true of this place. */
  predicate Fits(origin: string, p: Place) {
    forall i :: 0 <= i < |origin| ==> NamedBy(origin[i], p)
  }

  ghost predicate FitsAnother(s: State, m: Move, origin: string, drops: bool) {
    exists n :: AnotherTo(s, m, n) && (drops || n.drop.None?) && Fits(origin, PlaceOf(n.from))
  }

  /** Nothing, the file, the rank, or both: in the order in which they are to be tried. */
  function Candidate(p: Place, k: nat): string
    requires k < 4 && OnTheBoard(p)
  {
    if k == 0 then "" else if k == 1 then [FileLetter(p)] else if k == 2 then [RankDigit(p)] else NameOf(p)
  }

  /** The first that fits no other move. */
  ghost predicate IsFirstThatTells(s: State, m: Move, origin: string, drops: bool, k: nat)
    requires OnTheBoard(PlaceOf(m.from))
  {
    && k < 4 && origin == Candidate(PlaceOf(m.from), k) && !FitsAnother(s, m, origin, drops)
    && forall j :: 0 <= j < k ==> FitsAnother(s, m, Candidate(PlaceOf(m.from), j), drops)
  }

  lemma FitsFile(p: Place, q: Place)
    requires OnTheBoard(p) && -1 <= q.rank < 8 && 0 <= q.file < 8
    ensures Fits([FileLetter(p)], q) <==> p.file == q.file
  {
    assert [FileLetter(p)][0] == FileLetter(p);
  }

  lemma FitsRank(p: Place, q: Place)
    requires OnTheBoard(p) && -1 <= q.rank < 8 && 0 <= q.file < 8
    ensures Fits([RankDigit(p)], q) <==> p.rank == q.rank
  {
    assert [RankDigit(p)][0] == RankDigit(p);
  }

  lemma FitsBoth(p: Place, q: Place)
    requires OnTheBoard(p) && -1 <= q.rank < 8 && 0 <= q.file < 8
    ensures Fits(NameOf(p), q) <==> p == q
  {
    assert NameOf(p)[0] == FileLetter(p) && NameOf(p)[1] == RankDigit(p);
  }

  /** Where another move comes from: a square of the board or, for a drop, none. */
  lemma AnotherPlace(s: State, m: Move, n: Move)
    requires AnotherTo(s, m, n)
    ensures var q := PlaceOf(n.from);
            && 0 <= q.file < 8 && (if n.drop.Some? then q == Place(7, -1) else 0 <= q.rank < 8)
            && (OnBoard(m.from) ==> q != PlaceOf(m.from))
  {
    ComesFrom(s, n);
    if n.drop.None? {
      PlacesAreSquares(n.from);
      if OnBoard(m.from) {
        PlacesDiffer(m.from, n.from);
      }
    } else {
      NoPlace(n.from);
      if OnBoard(m.from) {
        PlacesAreSquares(m.from);
      }
    }
  }

  lemma PlacesDiffer(a: int, c: int)
    requires OnBoard(a) && OnBoard(c) && a != c
    ensures PlaceOf(a) != PlaceOf(c)
  {
    PlacesAreSquares(a);
    PlacesAreSquares(c);
  }

  lemma NoPlace(from: int)
    requires from == -1
    ensures PlaceOf(from) == Place(7, -1)
  {
  }

  lemma ComesFrom(s: State, n: Move)
    requires n in LegalMoves(s)
    ensures if n.drop.Some? then n.from == -1 else OnBoard(n.from)
  {
    LegalMovesExact(s, n);
    if n.drop.Some? { DropFacts(s, n); } else { BoardMoveFacts(s, n); }
  }

  lemma FittingNothing(s: State, m: Move, drops: bool)
    ensures FitsAnother(s, m, "", drops) <==> exists n :: AnotherTo(s, m, n) && (drops || n.drop.None?)
  {
    if n :| AnotherTo(s, m, n) && (drops || n.drop.None?) {
      assert Fits("", PlaceOf(n.from));
    }
  }

  lemma FittingFile(s: State, m: Move, drops: bool)
    requires OnBoard(m.from)
    ensures OnTheBoard(PlaceOf(m.from))
    ensures FitsAnother(s, m, [FileLetter(PlaceOf(m.from))], drops) <==>
              exists n :: AnotherTo(s, m, n) && (drops || n.drop.None?) && FileOf(n.from) == FileOf(m.from)
  {
    PlacesAreSquares(m.from);
    forall n | AnotherTo(s, m, n)
      ensures Fits([FileLetter(PlaceOf(m.from))], PlaceOf(n.from)) <==> FileOf(n.from) == FileOf(m.from)
    {
      AnotherPlace(s, m, n);
      FitsFile(PlaceOf(m.from), PlaceOf(n.from));
    }
  }

  lemma FittingRank(s: State, m: Move, drops: bool)
    requires OnBoard(m.from)
    ensures OnTheBoard(PlaceOf(m.from))
    ensures FitsAnother(s, m, [RankDigit(PlaceOf(m.from))], drops) <==>
              exists n :: AnotherTo(s, m, n) && (drops || n.drop.None?) && RankOf(n.from) == RankOf(m.from)
  {
    PlacesAreSquares(m.from);
    forall n | AnotherTo(s, m, n)
      ensures Fits([RankDigit(PlaceOf(m.from))], PlaceOf(n.from)) <==> RankOf(n.from) == RankOf(m.from)
    {
      AnotherPlace(s, m, n);
      FitsRank(PlaceOf(m.from), PlaceOf(n.from));
    }
  }

  lemma BothTell(s: State, m: Move, drops: bool)
    requires OnBoard(m.from)
    ensures OnTheBoard(PlaceOf(m.from)) && !FitsAnother(s, m, NameOf(PlaceOf(m.from)), drops)
  {
    PlacesAreSquares(m.from);
    forall n | AnotherTo(s, m, n)
      ensures !Fits(NameOf(PlaceOf(m.from)), PlaceOf(n.from))
    {
      AnotherPlace(s, m, n);
      FitsBoth(PlaceOf(m.from), PlaceOf(n.from));
    }
  }

  lemma RivalsAreAnother(s: State, m: Move)
    requires OnBoard(m.from)
    ensures OnTheBoard(PlaceOf(m.from))
    ensures var p := PlaceOf(m.from);
            && ((exists n :: Rival(s, m, n)) <==> FitsAnother(s, m, "", true))
            && ((exists n :: Rival(s, m, n) && FileOf(n.from) == FileOf(m.from)) <==>
                  FitsAnother(s, m, [FileLetter(p)], true))
            && ((exists n :: Rival(s, m, n) && RankOf(n.from) == RankOf(m.from)) <==>
                  FitsAnother(s, m, [RankDigit(p)], true))
  {
    FittingNothing(s, m, true);
    FittingFile(s, m, true);
    FittingRank(s, m, true);
    assert forall n :: Rival(s, m, n) <==> AnotherTo(s, m, n);
  }

  lemma CandidatesDiffer(p: Place)
    requires OnTheBoard(p)
    ensures forall j, k :: 0 <= j < k < 4 ==> Candidate(p, j) != Candidate(p, k)
  {
  }

  lemma WrittenIs(s: State, m: Move) returns (k: nat)
    requires OnBoard(m.from)
    ensures OnTheBoard(PlaceOf(m.from)) && k < 4 && Disambiguate(s, m) == Candidate(PlaceOf(m.from), k)
    ensures !FitsAnother(s, m, Candidate(PlaceOf(m.from), k), true)
    ensures k > 0 ==> FitsAnother(s, m, Candidate(PlaceOf(m.from), 0), true)
    ensures k > 1 ==> FitsAnother(s, m, Candidate(PlaceOf(m.from), 1), true)
    ensures k > 2 ==> FitsAnother(s, m, Candidate(PlaceOf(m.from), 2), true)
  {
    NamesAreSpelled(m.from);
    RivalsAreAnother(s, m);
    var p := PlaceOf(m.from);
    if !FitsAnother(s, m, "", true) {
      k := 0;
    } else if !FitsAnother(s, m, [FileLetter(p)], true) {
      k := 1;
    } else if !FitsAnother(s, m, [RankDigit(p)], true) {
      k := 2;
    } else {
      k := 3;
      BothTell(s, m, true);
    }
  }

  /** What is written of the origin is the first of nothing, the file, the rank and both that fits no other
      legal move of the same kind of man to the same square. */
  lemma OriginTells(s: State, m: Move) returns (k: nat)
    requires OnBoard(m.from)
    ensures OnTheBoard(PlaceOf(m.from)) && IsFirstThatTells(s, m, Disambiguate(s, m), true, k)
  {
    k := WrittenIs(s, m);
    forall j | 0 <= j < k ensures FitsAnother(s, m, Candidate(PlaceOf(m.from), j), true) {
      assert j == 0 || j == 1 || j == 2;
    }
  }

  // ---- drops count as others

  ghost predicate DroppedThere(s: State, m: Move) {
    exists n :: AnotherTo(s, m, n) && n.drop.Some?
  }

  lemma WithDrops(s: State, m: Move, origin: string)
    requires OnBoard(m.from)
    ensures FitsAnother(s, m, origin, true) <==>
              FitsAnother(s, m, origin, false) || (DroppedThere(s, m) && Fits(origin, Place(7, -1)))
  {
    forall n | AnotherTo(s, m, n) && n.drop.Some? ensures PlaceOf(n.from) == Place(7, -1) {
      AnotherPlace(s, m, n);
    }
  }

  lemma DropFits(p: Place)
    requires OnTheBoard(p)
    ensures Fits("", Place(7, -1)) && (Fits([FileLetter(p)], Place(7, -1)) <==> p.file == 7)
    ensures !Fits([RankDigit(p)], Place(7, -1)) && !Fits(NameOf(p), Place(7, -1))
  {
    FitsFile(p, Place(7, -1));
    FitsRank(p, Place(7, -1));
    FitsBoth(p, Place(7, -1));
  }

  /** A drop is told by its `@` and needs no telling apart. The origin written is the first that tells the move from
      those of the men on the board, as the standard asks, unless a man of the kind can be dropped on the square and
      no other can be moved there, or the man stands on the h-file and no other on it can. */
  lemma OriginIsStandardExactly(s: State, m: Move)
    requires OnBoard(m.from)
    ensures OnTheBoard(PlaceOf(m.from))
    ensures (exists k :: IsFirstThatTells(s, m, Disambiguate(s, m), false, k)) <==>
              || !DroppedThere(s, m)
              || (FitsAnother(s, m, "", false)
                  && (PlaceOf(m.from).file == 7 ==> FitsAnother(s, m, [FileLetter(PlaceOf(m.from))], false)))
  {
    var p := PlaceOf(m.from);
    var k := OriginTells(s, m);
    WithDrops(s, m, "");
    WithDrops(s, m, [FileLetter(p)]);
    WithDrops(s, m, [RankDigit(p)]);
    BothTell(s, m, true);
    BothTell(s, m, false);
    DropFits(p);
    CandidatesDiffer(p);
    StandardCase(s, m, Disambiguate(s, m), k);
  }

  lemma StandardCase(s: State, m: Move, origin: string, k: nat)
    requires OnTheBoard(PlaceOf(m.from)) && IsFirstThatTells(s, m, origin, true, k)
    requires var p := PlaceOf(m.from); forall j :: 0 <= j < 4 ==>
               (FitsAnother(s, m, Candidate(p, j), true) <==>
                  FitsAnother(s, m, Candidate(p, j), false) ||
                  (DroppedThere(s, m) && (j == 0 || (j == 1 && p.file == 7))))
    requires forall i, j :: 0 <= i < j < 4 ==> Candidate(PlaceOf(m.from), i) != Candidate(PlaceOf(m.from), j)
    ensures (exists j :: IsFirstThatTells(s, m, origin, false, j)) <==>
              || !DroppedThere(s, m)
              || (FitsAnother(s, m, Candidate(PlaceOf(m.from), 0), false)
                  && (PlaceOf(m.from).file == 7 ==> FitsAnother(s, m, Candidate(PlaceOf(m.from), 1), false)))
  {
    if j :| IsFirstThatTells(s, m, origin, false, j) {
      assert j == k;
    } else {
      assert !IsFirstThatTells(s, m, origin, false, k);
    }
  }

  // ---- whole texts

  /** '#' for a check without a legal answer, '+' for another check. */
  ghost function MarkOf(t: State): string {
    if !Checked(t.board, t.variant, t.turn) then "" else if CanMove(t) then "+" else "#"
  }

  lemma MarksAreSpelled(s: State, m: Move)
    requires Playable(s, m)
    ensures CheckMark(s, m) == MarkOf(Apply(s, m))
  {
    InCheckIsChecked(Apply(s, m).board, s.variant, Apply(s, m).turn);
    NoMovesLeft(Apply(s, m));
  }

  predicate Castles(m: Move) {
    m.flags.kingCastle || m.flags.queenCastle
  }

  lemma CastlesTo(s: State, m: Move)
    requires m in LegalMoves(s) && Castles(m)
    ensures m.flags.kingCastle <==> PlaceOf(m.to).file == 6
  {
    LegalMovesExact(s, m);
    PseudoMovesExact(s, m);
    GeneratorFollowsTheRules(s, m);
    SquaresAreOnBoard(Place(6, Home(s.turn)));
    SquaresAreOnBoard(Place(2, Home(s.turn)));
  }

  /** A castle by the king's goal, a drop by its letter and square. */
  lemma CastlesAndDropsAreSpelled(s: State, m: Move)
    requires m in LegalMoves(s) && (Castles(m) || m.drop.Some?)
    ensures Notable(s, m) && OnTheBoard(PlaceOf(m.to))
    ensures ToSan(s, m) ==
            (if m.drop.Some? then [LetterOf(m.piece.kind), '@'] + NameOf(PlaceOf(m.to))
             else if PlaceOf(m.to).file == 6 then "O-O" else "O-O-O")
            + MarkOf(Apply(s, m))
  {
    LegalMovesExact(s, m);
    PseudoIsPlayable(s, m);
    NamesAreSpelled(m.to);
    MarksAreSpelled(s, m);
    if m.drop.Some? {
      DropFacts(s, m);
      LettersAreSpelled(m.piece.kind);
      assert [KindLetter(m.drop.value)] + "@" == [LetterOf(m.piece.kind), '@'];
    } else {
      CastlesTo(s, m);
    }
  }

  /** A pawn by its target, with its file when it leaves it, and by what it becomes. */
  lemma PawnsAreSpelled(s: State, m: Move)
    requires m in LegalMoves(s) && m.drop.None? && m.piece.kind == Pawn
    ensures Notable(s, m) && OnTheBoard(PlaceOf(m.from)) && OnTheBoard(PlaceOf(m.to))
    ensures ToSan(s, m) ==
            (if PlaceOf(m.from).file != PlaceOf(m.to).file then [FileLetter(PlaceOf(m.from)), 'x'] else "")
            + NameOf(PlaceOf(m.to))
            + (if m.promotion.Some? then ['=', LetterOf(m.promotion.value)] else "")
            + MarkOf(Apply(s, m))
  {
    LegalMovesExact(s, m);
    PseudoIsPlayable(s, m);
    NamesAreSpelled(m.from);
    NamesAreSpelled(m.to);
    MarksAreSpelled(s, m);
    PawnsTakeSideways(s, m);
    if m.promotion.Some? {
      LettersAreSpelled(m.promotion.value);
      assert "=" + [KindLetter(m.promotion.value)] == ['=', LetterOf(m.promotion.value)];
    }
    assert [FileName(m.from)] + "x" == [FileLetter(PlaceOf(m.from)), 'x'];
  }

  lemma PawnsTakeSideways(s: State, m: Move)
    requires m in LegalMoves(s) && m.drop.None? && m.piece.kind == Pawn
    ensures Strikes(m) <==> PlaceOf(m.from).file != PlaceOf(m.to).file
    ensures !Castles(m)
  {
    LegalMovesExact(s, m);
    PseudoMovesExact(s, m);
    GeneratorFollowsTheRules(s, m);
  }

  /** Any other man by its letter, as little of its origin as tells it, 'x' when it lands on a man, and its target. */
  lemma PiecesAreSpelled(s: State, m: Move) returns (origin: string, k: nat)
    requires m in LegalMoves(s) && m.drop.None? && m.piece.kind != Pawn && !Castles(m)
    ensures Notable(s, m) && OnTheBoard(PlaceOf(m.from)) && OnTheBoard(PlaceOf(m.to))
    ensures IsFirstThatTells(s, m, origin, true, k)
    ensures ToSan(s, m) ==
            [LetterOf(m.piece.kind)] + origin + (if s.board[m.to].Some? then "x" else "") + NameOf(PlaceOf(m.to))
            + MarkOf(Apply(s, m))
  {
    LegalMovesExact(s, m);
    PseudoIsPlayable(s, m);
    BoardMoveFacts(s, m);
    NamesAreSpelled(m.from);
    NamesAreSpelled(m.to);
    MarksAreSpelled(s, m);
    LettersAreSpelled(m.piece.kind);
    PieceCaptures(s, m);
    origin := Disambiguate(s, m);
    k := OriginTells(s, m);
  }

  // ---- UCI

  function SmallLetterOf(k: Kind): char {
    match k
    case Pawn => 'p' case Knight => 'n' case Bishop => 'b' case Rook => 'r' case Queen => 'q' case King => 'k'
  }

  /** Origin and target, in Chess960 the rook's square as a castle's target, and what a pawn becomes; a drop as in
      SAN. */
  lemma UciIsSpelled(s: State, m: Move)
    requires m in LegalMoves(s)
    ensures Notable(s, m) && OnTheBoard(PlaceOf(m.to))
    ensures Castles(m) ==> m.castleRook.Some? && OnTheBoard(PlaceOf(m.castleRook.value))
    ensures m.castleRook.Some? ==> OnBoard(m.castleRook.value)
    ensures m.drop.None? ==> OnTheBoard(PlaceOf(m.from))
    ensures ToUci(s, m) ==
            if m.drop.Some? then [LetterOf(m.piece.kind), '@'] + NameOf(PlaceOf(m.to))
            else NameOf(PlaceOf(m.from))
                 + NameOf(PlaceOf(if Castles(m) && s.variant == Chess960 then m.castleRook.value else m.to))
                 + if m.promotion.Some? then [SmallLetterOf(m.promotion.value)] else ""
  {
    LegalMovesExact(s, m);
    PseudoIsPlayable(s, m);
    NamesAreSpelled(m.to);
    if m.drop.Some? {
      DropFacts(s, m);
      LettersAreSpelled(m.piece.kind);
    } else {
      BoardMoveFacts(s, m);
      NamesAreSpelled(m.from);
      RooksOfCastles(s, m);
      if m.castleRook.Some? {
        NamesAreSpelled(m.castleRook.value);
      }
    }
  }

  lemma RooksOfCastles(s: State, m: Move)
    requires IsBoardMove(s, m)
    ensures Castles(m) <==> m.castleRook.Some?
    ensures Castles(m) ==> m.promotion.None?
  {
    PseudoMovesExact(s, m);
    GeneratorFollowsTheRules(s, m);
  }

  // ---- a file that is written without need

  const WHITE_KNIGHT := Piece(White, Knight)

  /** Crazyhouse, White to move: king e1, knight g1, another in the pocket; Black: king e8. */
  const TWO_KNIGHTS := State(
    Cells(map[4 := WHITE_KING, 6 := WHITE_KNIGHT, 116 := BLACK_KING]),
    White, CastlingRights(SideRights(NO_ROOK, NO_ROOK), SideRights(NO_ROOK, NO_ROOK)), -1, 0, 1,
    Pockets([Knight], []), Counters(0, 0), Crazyhouse)

  const TO_F3 := Move(6, 37, WHITE_KNIGHT, None, None, None, None, NORMAL)

  const DROP_ON_F3 := Move(-1, 37, WHITE_KNIGHT, None, None, Some(Knight), None, NORMAL)

  lemma LeavesKingSafe(b: Board)
    requires b == Cells(map[4 := WHITE_KING, 37 := WHITE_KNIGHT, 116 := BLACK_KING]) ||
             b == Cells(map[4 := WHITE_KING, 6 := WHITE_KNIGHT, 37 := WHITE_KNIGHT, 116 := BLACK_KING])
    ensures KingSquare(b, White) == 4 && !Attacked(b, 4, Black)
  {
    KingAtIsFound(b, White, 4);
    forall from ensures !AttacksFrom(b, from, Black, 4) {
    }
  }

  lemma BothAreLegal()
    ensures TO_F3 in LegalMoves(TWO_KNIGHTS) && DROP_ON_F3 in LegalMoves(TWO_KNIGHTS)
  {
    var s := TWO_KNIGHTS;
    assert IsPseudo(s, TO_F3) && Playable(s, TO_F3);
    assert IsPseudo(s, DROP_ON_F3) && Playable(s, DROP_ON_F3);
    assert BoardAfter(s, TO_F3) == Cells(map[4 := WHITE_KING, 37 := WHITE_KNIGHT, 116 := BLACK_KING]);
    assert BoardAfter(s, DROP_ON_F3) ==
           Cells(map[4 := WHITE_KING, 6 := WHITE_KNIGHT, 37 := WHITE_KNIGHT, 116 := BLACK_KING]);
    LeavesKingSafe(BoardAfter(s, TO_F3));
    LeavesKingSafe(BoardAfter(s, DROP_ON_F3));
    LegalMovesExact(s, TO_F3);
    LegalMovesExact(s, DROP_ON_F3);
  }

  lemma NoOtherOnTheBoard(n: Move)
    requires AnotherTo(TWO_KNIGHTS, TO_F3, n)
    ensures n.drop.Some?
  {
    LegalMovesExact(TWO_KNIGHTS, n);
    if n.drop.None? {
      BoardMoveFacts(TWO_KNIGHTS, n);
    }
  }

  /** The only knight on the board goes to f3, and its file is written because another could be dropped there. */
  lemma NeedlessFile()
    ensures TO_F3 in LegalMoves(TWO_KNIGHTS)
    ensures Disambiguate(TWO_KNIGHTS, TO_F3) == ['g']
    ensures !exists k :: IsFirstThatTells(TWO_KNIGHTS, TO_F3, Disambiguate(TWO_KNIGHTS, TO_F3), false, k)
  {
    BothAreLegal();
    assert Rival(TWO_KNIGHTS, TO_F3, DROP_ON_F3);
    forall n | Rival(TWO_KNIGHTS, TO_F3, n) ensures n.drop.Some? && n.from == -1 {
      NoOtherOnTheBoard(n);
      ComesFrom(TWO_KNIGHTS, n);
    }
    assert AnotherTo(TWO_KNIGHTS, TO_F3, DROP_ON_F3);
    forall n | AnotherTo(TWO_KNIGHTS, TO_F3, n) ensures n.drop.Some? {
      NoOtherOnTheBoard(n);
    }
    OriginIsStandardExactly(TWO_KNIGHTS, TO_F3);
  }
}
