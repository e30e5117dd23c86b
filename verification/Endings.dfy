/** How games end and who wins them, told from the board and the moves
    (packages/chess-core/src/position.ts). */
module Endings {
  import opened Common
  import opened ChessTypes
  import opened Geometry
  import opened Attack
  import opened MoveGen
  import opened Play
  import opened Legality
  import opened Validity
  import opened LegalPlay
  import opened Status
  import opened Bearing
  import opened Rules
  import opened Bookkeeping

  // ---- the variants' own endings

  /** The king stands on d4, e4, d5 or e5. */
  predicate OnTheHill(b: Board, c: Color) {
    var k := KingSquare(b, c);
    k != -1 && 3 <= PlaceOf(k).file <= 4 && 3 <= PlaceOf(k).rank <= 4
  }

  predicate OnTheLastRank(b: Board, c: Color) {
    var k := KingSquare(b, c);
    k != -1 && PlaceOf(k).rank == 7
  }

  /** A king can be moved to the last rank. */
  ghost predicate MayArrive(s: State) {
    exists m :: m in LegalMoves(s) && m.piece.kind == King && PlaceOf(m.to).rank == 7
  }

  predicate NoMen(b: Board, c: Color) {
    forall sq :: 0 <= sq < 128 && OnBoard(sq) && b[sq].Some? ==> b[sq].value.color != c
  }

  /** Has `c` won by the variant's own rule? Where both sides meet it, White is asked first. */
  ghost predicate WonByVariant(s: State, c: Color) {
    match s.variant
    case KingOfTheHill => OnTheHill(s.board, c) && (c == Black ==> !OnTheHill(s.board, White))
    case ThreeCheck => (if c == White then s.checkCount.w else s.checkCount.b) >= 3 &&
                       (c == Black ==> s.checkCount.w < 3)
    case Atomic => if c == Black then KingSquare(s.board, White) == -1
                   else KingSquare(s.board, Black) == -1 && KingSquare(s.board, White) != -1
    case RacingKings => OnTheLastRank(s.board, c) && !OnTheLastRank(s.board, Opposite(c)) &&
                        (c == White && s.turn == Black ==> !MayArrive(s))
    case Horde => c == Black && NoMen(s.board, White)
    case _ => false
  }

  ghost predicate DrawnByVariant(s: State) {
    s.variant == RacingKings && OnTheLastRank(s.board, White) && OnTheLastRank(s.board, Black)
  }

  lemma HillSquares(sq: int)
    requires OnBoard(sq)
    ensures sq in CENTER <==> 3 <= PlaceOf(sq).file <= 4 && 3 <= PlaceOf(sq).rank <= 4
  {
    PlacesAreSquares(sq);
  }

  lemma HillKings(b: Board, c: Color)
    ensures KingSquare(b, c) in CENTER <==> OnTheHill(b, c)
  {
    if KingSquare(b, c) != -1 {
      HillSquares(KingSquare(b, c));
    }
  }

  /** The variant's ending is a win of the side that has met its goal, or the Racing Kings draw. */
  lemma VariantEndings(s: State, c: Color)
    ensures VariantStatus(s) == Some(VariantWin(c)) <==> WonByVariant(s, c)
    ensures VariantStatus(s) == Some(VariantDraw) <==> DrawnByVariant(s)
    ensures VariantStatus(s).Some? ==> VariantStatus(s).value.VariantWin? || VariantStatus(s).value.VariantDraw?
  {
    HillKings(s.board, White);
    HillKings(s.board, Black);
    if s.variant == RacingKings {
      ArrivingIsReaching(s);
    }
  }

  lemma ArrivingIsReaching(s: State)
    ensures MayArrive(s) <==> ReachesGoal(s)
  {
    if MayArrive(s) {
      var m :| m in LegalMoves(s) && m.piece.kind == King && PlaceOf(m.to).rank == 7;
      assert RankOf(m.to) == 7;
    }
    if ReachesGoal(s) {
      var m :| m in LegalMoves(s) && m.piece.kind == King && RankOf(m.to) == 7;
      assert PlaceOf(m.to).rank == 7;
    }
  }

  ghost predicate EndedByVariant(s: State) {
    WonByVariant(s, White) || WonByVariant(s, Black) || DrawnByVariant(s)
  }

  lemma VariantStatusIsEnding(s: State)
    ensures VariantStatus(s).Some? <==> EndedByVariant(s)
  {
    VariantEndings(s, White);
    VariantEndings(s, Black);
    if VariantStatus(s).Some? && VariantStatus(s).value.VariantWin? {
      assert VariantStatus(s).value.winner in {White, Black};
    }
  }

  // ---- every answer, told exactly

  ghost predicate CanMove(s: State) {
    exists m :: m in LegalMoves(s)
  }

  lemma NoMovesLeft(s: State)
    ensures LegalMoves(s) == [] <==> !CanMove(s)
  {
    if LegalMoves(s) != [] {
      assert LegalMoves(s)[0] in LegalMoves(s);
    }
  }

  /** What each answer of the program says about the position. */
  lemma StatusExactly(s: State, c: Color)
    ensures StatusOf(s) == VariantWin(c) <==> WonByVariant(s, c)
    ensures StatusOf(s) == VariantDraw <==> DrawnByVariant(s)
    ensures StatusOf(s) == Checkmate(c) <==>
              c != s.turn && !EndedByVariant(s) && !CanMove(s) && Checked(s.board, s.variant, s.turn)
    ensures StatusOf(s) == Stalemate <==>
              !EndedByVariant(s) && !CanMove(s) && !Checked(s.board, s.variant, s.turn)
    ensures StatusOf(s) == FiftyMove <==>
              !EndedByVariant(s) && CanMove(s) && s.halfmoves >= 100 && s.variant != ThreeCheck
    ensures StatusOf(s) == InsufficientMaterial <==>
              && !EndedByVariant(s) && CanMove(s) && s.halfmoves < 100
              && s.variant in {Standard, Chess960} && DeadMaterial(s.board)
    ensures StatusOf(s) == Ongoing <==>
              && !EndedByVariant(s) && CanMove(s) && (s.halfmoves < 100 || s.variant == ThreeCheck)
              && !(s.variant in {Standard, Chess960} && DeadMaterial(s.board))
  {
    VariantStatusIsEnding(s);
    VariantEndings(s, c);
    NoMovesLeft(s);
    InCheckIsChecked(s.board, s.variant, s.turn);
  }

  /** The squares of everyone but the kings. */
  function Others(b: Board): set<int> {
    set sq | 0 <= sq < 128 && OnBoard(sq) && b[sq].Some? && b[sq].value.kind != King
  }

  predicate OnlyBishopsOn(b: Board, shade: int) {
    forall sq :: sq in Others(b) ==>
      b[sq].value.kind == Bishop && (PlaceOf(sq).file + PlaceOf(sq).rank) % 2 == shade
  }

  /** The material that is called insufficient: bare kings, one knight, or bishops all on squares of one colour. */
  lemma DeadMaterialExactly(b: Board)
    ensures DeadMaterial(b) <==>
              || OnlyBishopsOn(b, 0) || OnlyBishopsOn(b, 1)
              || exists n :: Others(b) == {n} && b[n].value.kind == Knight
  {
    forall sq ensures sq in Others(b) <==> IsMan(b, sq) {
    }
    if n :| Others(b) == {n} && b[n].value.kind == Knight {
      assert n in Others(b);
      assert OnlyKnight(b, n);
    }
    if n :| OnlyKnight(b, n) {
      assert Others(b) == {n};
    }
    forall p | p == 0 || p == 1 ensures OnlyBishops(b, p) <==> OnlyBishopsOn(b, p) {
      BishopsOn(b, p);
    }
  }

  lemma BishopsOn(b: Board, p: int)
    ensures OnlyBishops(b, p) <==> OnlyBishopsOn(b, p)
  {
    forall sq ensures sq in Others(b) <==> IsMan(b, sq) {
    }
    forall sq | OnBoard(sq) ensures Shade(sq) == (PlaceOf(sq).file + PlaceOf(sq).rank) % 2 {
    }
  }

  // ---- who has won after a move

  /** The winner by mate is the side that has just moved; the other is in check and has no legal move. */
  lemma MateIsTheMovers(s: State, m: Move, t: State, c: Color)
    requires Plays(s, m, t)
    ensures StatusOf(t) == Checkmate(c) <==>
              c == s.turn && !EndedByVariant(t) && !CanMove(t) && Checked(t.board, t.variant, Opposite(s.turn))
  {
    StatusExactly(t, c);
  }

  /** In Atomic the side that has moved still has its king, so a king that is gone is the other's. */
  lemma AtomicIsTheMovers(s: State, m: Move, t: State, c: Color)
    requires Plays(s, m, t) && s.variant == Atomic && Valid(s) && StatusOf(t) == VariantWin(c)
    ensures c == s.turn && KingSquare(t.board, c) != -1 && KingSquare(t.board, Opposite(c)) == -1
    ensures m.captured.Some?
  {
    StatusExactly(t, c);
    LegalMovesExact(s, m);
    ValidKings(s);
    KingAfter(s, m, s.turn, KingSquare(s.board, s.turn));
    KingAfter(s, m, Opposite(s.turn), KingSquare(s.board, Opposite(s.turn)));
    OneKing(t.board, s.turn);
    OneKing(t.board, Opposite(s.turn));
    if m.captured.None? {
      NothingTaken(s, m);
    }
  }

  lemma NothingTaken(s: State, m: Move)
    requires IsLegal(s, m) && s.variant == Atomic && m.captured.None? && Valid(s)
    ensures KingSquare(BoardAfter(s, m), Opposite(s.turn)) != -1
  {
    ValidKings(s);
    var c, k := Opposite(s.turn), KingSquare(s.board, Opposite(s.turn));
    assert KingAt(s.board, c, k);
    KingAtPlain(s, m, c, k);
    RemovedKingIsTaken(s, m, c, k);
    OneKing(BoardAfter(s, m), c);
  }

  lemma RemovedKingIsTaken(s: State, m: Move, c: Color, k: int)
    requires IsLegal(s, m) && KingAt(s.board, c, k) && c == Opposite(s.turn) && m.captured.None?
    ensures !Removes(s, m, c, k)
  {
    if Removes(s, m, c, k) {
      RemovedKing(s, m, c, k);
    }
  }

  /** In Three-Check an undecided game is won by the check just given, the mover's third. */
  lemma ThirdCheckIsTheMovers(s: State, m: Move, t: State, c: Color)
    requires Plays(s, m, t) && s.variant == ThreeCheck && !EndedByVariant(s) && StatusOf(t) == VariantWin(c)
    ensures c == s.turn && Checked(t.board, t.variant, Opposite(c))
    ensures (if c == White then t.checkCount.w else t.checkCount.b) == 3
  {
    StatusExactly(t, c);
    InCheckIsChecked(t.board, t.variant, t.turn);
    assert !WonByVariant(s, White) && !WonByVariant(s, Black);
  }

  /** On the hill, too, the winner is the side that has moved, and it has moved its king there. */
  lemma HillIsTheMovers(s: State, m: Move, t: State, c: Color)
    requires Plays(s, m, t) && s.variant == KingOfTheHill && Valid(s) && !EndedByVariant(s)
    requires StatusOf(t) == VariantWin(c)
    ensures c == s.turn && m.piece == Piece(c, King) && OnTheHill(t.board, c)
  {
    StatusExactly(t, c);
    assert !WonByVariant(s, White) && !WonByVariant(s, Black);
    LegalMovesExact(s, m);
    ValidKings(s);
    var k := KingSquare(s.board, c);
    KingAfter(s, m, c, k);
    KingAtIsFound(t.board, c, KingTo(m, c, k));
    if m.piece == Piece(c, King) {
      if m.drop.Some? { DropFacts(s, m); } else { BoardMoveFacts(s, m); }
    }
  }

  /** White's army is never taken by its own move. */
  lemma HordeIsBlacks(s: State, m: Move, t: State, c: Color)
    requires Plays(s, m, t) && s.variant == Horde && StatusOf(t) == VariantWin(c)
    ensures c == Black == s.turn
  {
    StatusExactly(t, c);
    LegalMovesExact(s, m);
    PseudoMovesExact(s, m);
    PseudoIsPlayable(s, m);
    BoardFollowsTheRules(s, m, m.to);
  }

  // ---- Racing Kings: Black has one more move

  lemma StaysOnLastRank(s: State, m: Move, t: State)
    requires Plays(s, m, t) && s.variant == RacingKings && s.turn == Black
    requires KingCount(s.board, White) == 1 && OnTheLastRank(s.board, White)
    ensures OnTheLastRank(t.board, White)
  {
    LegalMovesExact(s, m);
    OneKing(s.board, White);
    var k := KingSquare(s.board, White);
    KingAfter(s, m, White, k);
    if m.drop.Some? { DropFacts(s, m); } else { BoardMoveFacts(s, m); }
    KingAtIsFound(t.board, White, k);
  }

  /** When White's king is on the last rank and Black to move may still follow, the game ends with that move: drawn if
      Black's king arrives, won by White if not. */
  lemma BlackHasOneMove(s: State, m: Move, t: State)
    requires Plays(s, m, t) && s.variant == RacingKings && s.turn == Black && KingCount(s.board, White) == 1
    requires OnTheLastRank(s.board, White)
    ensures StatusOf(t) == if OnTheLastRank(t.board, Black) then VariantDraw else VariantWin(White)
  {
    StaysOnLastRank(s, m, t);
    StatusExactly(t, White);
  }

  // ---- the fifty-move rule over a game

  predicate QuietAt(ss: seq<State>, j: int) {
    0 <= j < |ss| - 1 && !Changed(ss[j].board, ss[j + 1].board)
  }

  /** Nothing has come, gone or been a pawn's move for the last hundred moves. */
  predicate HundredQuietMoves(ss: seq<State>, i: nat) {
    i >= 100 && forall j :: i - 100 <= j < i ==> QuietAt(ss, j)
  }

  lemma {:induction false} LastChange(ss: seq<State>, i: nat) returns (k: nat)
    requires i < |ss|
    ensures k <= i && (k > 0 ==> !QuietAt(ss, k - 1)) && forall j :: k <= j < i ==> QuietAt(ss, j)
  {
    if i == 0 || !QuietAt(ss, i - 1) {
      k := i;
    } else {
      k := LastChange(ss, i - 1);
    }
  }

  /** In a game that begins with its clock at nought, the fifty-move answer is given exactly after a hundred quiet moves
      by either side together, while moves remain and no variant ending has come (never in Three-Check). */
  lemma FiftyMovesExactly(ss: seq<State>, ms: seq<Move>, i: nat)
    requires Game(ss, ms) && i < |ss| && ss[0].halfmoves == 0
    ensures StatusOf(ss[i]) == FiftyMove <==>
              && HundredQuietMoves(ss, i) && CanMove(ss[i]) && !EndedByVariant(ss[i])
              && ss[i].variant != ThreeCheck
  {
    StatusExactly(ss[i], White);
    var k := LastChange(ss, i);
    forall j | k <= j < i ensures !Changed(ss[j].board, ss[j + 1].board) {
      assert QuietAt(ss, j);
    }
    ClockCounts(ss, ms, k, i);
  }
}
