/** Finding the generated move that a move or a UCI string names (packages/chess-core/src/position.ts). */
module MoveIdentity {
  import opened Common
  import opened ChessTypes
  import opened Geometry
  import opened Castling
  import opened MoveGen
  import opened Play
  import opened Legality
  import opened Validity
  import opened LegalPlay
  import opened Text
  import opened CastlingField
  import opened Fen
  import opened FenRoundTrip
  import opened Repetition

  /** The first move of the list that passes the test. */
  function First(ms: seq<Move>, test: Move -> bool): Option<Move> {
    if ms == [] then None else if test(ms[0]) then Some(ms[0]) else First(ms[1..], test)
  }

  lemma {:induction false} FirstPasses(ms: seq<Move>, test: Move -> bool)
    ensures First(ms, test).Some? ==> First(ms, test).value in ms && test(First(ms, test).value)
    ensures First(ms, test).None? <==> forall m :: m in ms ==> !test(m)
  {
    if ms != [] {
      assert ms == [ms[0]] + ms[1..];
      if !test(ms[0]) {
        FirstPasses(ms[1..], test);
      }
    }
  }

  lemma {:induction false} FirstOfConcat(a: seq<Move>, b: seq<Move>, test: Move -> bool)
    ensures First(a + b, test) == if First(a, test).Some? then First(a, test) else First(b, test)
  {
    if a == [] {
      assert a + b == b;
    } else {
      assert (a + b)[1..] == a[1..] + b;
      FirstOfConcat(a[1..], b, test);
    }
  }

  /** If only `m` passes, `m` is what is found. */
  lemma OnlyMatch(ms: seq<Move>, test: Move -> bool, m: Move)
    requires m in ms && test(m) && forall n :: n in ms && test(n) ==> n == m
    ensures First(ms, test) == Some(m)
  {
    FirstPasses(ms, test);
  }

  // ---- a move handed back

  predicate Matches(m: Move, wanted: Move) {
    && m.from == wanted.from && m.to == wanted.to
    && m.promotion == wanted.promotion && m.drop == wanted.drop
    && (wanted.castleRook.Some? ==> m.castleRook == wanted.castleRook)
    && (wanted.flags.kingCastle || wanted.flags.queenCastle ==>
          m.flags.kingCastle == wanted.flags.kingCastle && m.flags.queenCastle == wanted.flags.queenCastle)
  }

  function MatchTest(wanted: Move): Move -> bool {
    m => Matches(m, wanted)
  }

  ghost function MatchLegal(s: State, wanted: Move): Option<Move> {
    First(LegalMoves(s), MatchTest(wanted))
  }

  // ---- UCI

  ghost function ToUci(s: State, m: Move): string
    requires OnBoard(m.to) && (m.drop.None? ==> OnBoard(m.from)) && (m.castleRook.Some? ==> OnBoard(m.castleRook.value))
  {
    if m.drop.Some? then [Upper(KindChar(m.drop.value)), '@'] + SquareName(m.to)
    else if m.castleRook.Some? && s.variant == Chess960 then SquareName(m.from) + SquareName(m.castleRook.value)
    else SquareName(m.from) + SquareName(m.to) + if m.promotion.Some? then [KindChar(m.promotion.value)] else ""
  }

  predicate DropNamed(m: Move, k: Option<Kind>, to: int) {
    k.Some? && m.drop == k && m.to == to
  }

  /** A fifth character names a promotion; without one the move must not promote. */
  predicate PromotionNamed(m: Move, uci: string) {
    if |uci| >= 5 then m.promotion.Some? && m.promotion == KindOfChar(Lower(uci[4])) else m.promotion.None?
  }

  predicate MoveNamed(m: Move, chess960: bool, from: int, to: int, uci: string) {
    !(chess960 && m.castleRook.Some?) && m.from == from && m.to == to && PromotionNamed(m, uci)
  }

  predicate CastleNamed(m: Move, from: int, rook: int) {
    m.from == from && m.castleRook == Some(rook)
  }

  function DropTest(k: Option<Kind>, to: int): Move -> bool {
    m => DropNamed(m, k, to)
  }

  function MoveTest(chess960: bool, from: int, to: int, uci: string): Move -> bool {
    m => MoveNamed(m, chess960, from, to, uci)
  }

  function CastleTest(from: int, rook: int): Move -> bool {
    m => CastleNamed(m, from, rook)
  }

  ghost function ResolveUci(s: State, uci: string): Option<Move> {
    var at := IndexOf(uci, '@');
    if at < |uci| then
      var k := KindOfChar(Lower(uci[0]));
      var to := SquareFromName(Slice(uci, at + 1, at + 3));
      First(LegalMoves(s), DropTest(k, to))
    else
      var from := SquareFromName(Slice(uci, 0, 2));
      var to := SquareFromName(Slice(uci, 2, 4));
      var found := First(LegalMoves(s), MoveTest(s.variant == Chess960, from, to, uci));
      if found.Some? then found
      else if |uci| < 5 && s.variant == Chess960 then First(LegalMoves(s), CastleTest(from, to))
      else None
  }

  // ---- what determines a generated move

  /** Which of its rules produced an ordinary move is decided by where it goes. */
  lemma PawnMoveDetermined(b: Board, v: Variant, ep: int, from: int, m: Move, n: Move)
    requires OnBoard(from) && IsPawnMove(b, v, ep, from, m) && IsPawnMove(b, v, ep, from, n)
    requires m.piece == n.piece && m.to == n.to && m.promotion == n.promotion
    ensures m == n
  {
  }

  lemma OrdinaryDetermined(s: State, m: Move, n: Move)
    requires IsPseudo(s, m) && IsPseudo(s, n) && !IsCastling(m) && !IsCastling(n)
    requires m.from == n.from && m.to == n.to && m.promotion == n.promotion && m.drop == n.drop
    ensures m == n
  {
    if m.drop.Some? {
      DropFacts(s, m);
      DropFacts(s, n);
    } else {
      BoardMoveFacts(s, m);
      BoardMoveFacts(s, n);
      if m.piece.kind == Pawn {
        PawnMoveDetermined(s.board, s.variant, s.epSquare, m.from, m, n);
      }
    }
  }

  lemma CastleDetermined(s: State, m: Move, n: Move)
    requires IsPseudo(s, m) && IsPseudo(s, n) && IsCastling(m) && IsCastling(n) && m.from == n.from
    requires m.to == n.to || (m.castleRook == n.castleRook && RooksDistinct(s))
    ensures m == n
  {
    BoardMoveFacts(s, m);
    BoardMoveFacts(s, n);
    OnlyKingsCastle(s, m);
    OnlyKingsCastle(s, n);
    CastleFacts(s, m);
    CastleFacts(s, n);
    if RooksDistinct(s) {
      RooksDiffer(s, s.turn);
    }
  }

  lemma RooksDiffer(s: State, c: Color)
    requires RooksDistinct(s)
    ensures var k, q := Right(s.castling, c, KSide), Right(s.castling, c, QSide);
            k != NO_ROOK && q != NO_ROOK ==> RookSquare(c, k) != RookSquare(c, q)
  {
  }

  /** Moves only end rights, so different rooks stay different. */
  lemma RooksStayDistinct(s: State, m: Move)
    requires m in LegalMoves(s) && RooksDistinct(s)
    ensures Playable(s, m) && RooksDistinct(Apply(s, m))
  {
    LegalMovesExact(s, m);
    PseudoIsPlayable(s, m);
    if m.drop.None? {
      RightSurvives(s.castling, m, White, KSide);
      RightSurvives(s.castling, m, White, QSide);
      RightSurvives(s.castling, m, Black, KSide);
      RightSurvives(s.castling, m, Black, QSide);
    }
  }

  lemma CastlingIsMarked(s: State, m: Move)
    requires IsPseudo(s, m)
    ensures IsCastling(m) <==> m.castleRook.Some?
    ensures IsCastling(m) <==> m.flags.kingCastle || m.flags.queenCastle
    ensures IsCastling(m) ==> m.promotion.None? && m.drop.None?
  {
    if m.drop.Some? {
      DropFacts(s, m);
    } else {
      BoardMoveFacts(s, m);
      if IsCastling(m) {
        OnlyKingsCastle(s, m);
        CastleFacts(s, m);
      }
    }
  }

  lemma CastleTravels(s: State, m: Move)
    requires IsPseudo(s, m) && IsCastling(m) && s.variant != Chess960
    ensures m.to - m.from == 2 || m.to - m.from == -2
    ensures s.board[m.from] == Some(Piece(s.turn, King)) && m.from != -1
  {
    BoardMoveFacts(s, m);
    OnlyKingsCastle(s, m);
    CastleFacts(s, m);
    SquareCoordinates(m.from);
  }

  /** Outside Chess960 a castle travels further than a king's step; in it, the two can coincide. */
  lemma CastleIsNoStep(s: State, m: Move, n: Move)
    requires IsPseudo(s, m) && IsPseudo(s, n) && IsCastling(m) && !IsCastling(n) && s.variant != Chess960
    ensures !(m.from == n.from && m.to == n.to)
  {
    CastleTravels(s, m);
    if n.drop.Some? {
      DropFacts(s, n);
    } else {
      BoardMoveFacts(s, n);
    }
  }

  // ---- matchLegal returns what it is handed

  /** Among the king's steps the move itself is the only match. */
  lemma FirstOfSteps(s: State, m: Move)
    requires Allowed(s, m) && IsKingStep(m.to - m.from) && IsStep(s.board, m.from, m)
    ensures First(Filtered(s, Leaps(s.board, m.from, m.piece, KING_OFFSETS)), MatchTest(m)) == Some(m)
  {
    var steps := Leaps(s.board, m.from, m.piece, KING_OFFSETS);
    LeapsExact(s.board, m.from, m.piece, KING_OFFSETS, m);
    OffsetsAsSteps(m.to - m.from);
    FilteredExact(s, steps, m);
    forall n | n in Filtered(s, steps) && MatchTest(m)(n)
      ensures n == m
    {
      FilteredExact(s, steps, n);
      LeapsExact(s.board, m.from, m.piece, KING_OFFSETS, n);
    }
    OnlyMatch(Filtered(s, steps), MatchTest(m), m);
  }

  lemma FirstOfKing(s: State, m: Move)
    requires IsLegal(s, m) && m.drop.None? && !IsCastling(m) && m.piece.kind == King
    ensures First(Filtered(s, MovesFrom(s, m.from)), MatchTest(m)) == Some(m)
  {
    BoardMoveFacts(s, m);
    KingStepIsLeap(s, m);
    var steps, castles := Leaps(s.board, m.from, m.piece, KING_OFFSETS), Castles(s, m.from, m.piece);
    assert MovesFrom(s, m.from) == steps + castles;
    FirstOfSteps(s, m);
    FilteredConcat(s, steps, castles);
    FirstOfConcat(Filtered(s, steps), Filtered(s, castles), MatchTest(m));
  }

  lemma FirstOfOthers(s: State, m: Move)
    requires IsLegal(s, m) && m.drop.None? && !IsCastling(m) && m.piece.kind != King
    ensures First(Filtered(s, MovesFrom(s, m.from)), MatchTest(m)) == Some(m)
  {
    var test := MatchTest(m);
    BoardMoveFacts(s, m);
    MovesFromExact(s, m.from, m);
    FilteredExact(s, MovesFrom(s, m.from), m);
    forall n | n in Filtered(s, MovesFrom(s, m.from)) && test(n)
      ensures n == m
    {
      FilteredExact(s, MovesFrom(s, m.from), n);
      MovesFromExact(s, m.from, n);
      if IsCastling(n) {
        OnlyKingsCastle(s, n);
      }
      OrdinaryDetermined(s, m, n);
    }
    OnlyMatch(Filtered(s, MovesFrom(s, m.from)), test, m);
  }

  /** A king's step comes before any castle in the list, so it is the first to match itself. */
  lemma StepBeforeCastle(s: State, m: Move)
    requires IsLegal(s, m) && m.drop.None? && !IsCastling(m)
    ensures First(Filtered(s, MovesFrom(s, m.from)), MatchTest(m)) == Some(m)
  {
    CastlingIsMarked(s, m);
    if m.piece.kind == King {
      FirstOfKing(s, m);
    } else {
      FirstOfOthers(s, m);
    }
  }

  lemma KingStepIsLeap(s: State, m: Move)
    requires IsBoardMove(s, m) && m.piece.kind == King && !IsCastling(m)
    ensures IsKingStep(m.to - m.from) && IsStep(s.board, m.from, m)
  {
    if IsCastle(s, m.from, m) {
      CastleFacts(s, m);
    }
  }

  lemma NoneElsewhere(s: State, from: int, m: Move)
    requires from != m.from
    ensures First(Filtered(s, MovesFrom(s, from)), MatchTest(m)) == None
  {
    var test := MatchTest(m);
    FirstPasses(Filtered(s, MovesFrom(s, from)), test);
    forall n | n in Filtered(s, MovesFrom(s, from))
      ensures !test(n)
    {
      FilteredExact(s, MovesFrom(s, from), n);
      MovesFromExact(s, from, n);
    }
  }

  lemma FoundAt(s: State, m: Move, from: int)
    requires IsLegal(s, m) && m.drop.None? && !IsCastling(m)
    ensures First(Filtered(s, MovesFrom(s, from)), MatchTest(m)) == if from == m.from then Some(m) else None
  {
    if from == m.from {
      StepBeforeCastle(s, m);
    } else {
      NoneElsewhere(s, from, m);
    }
  }

  lemma {:induction false} FoundUpTo(s: State, test: Move -> bool, m: Move, n: nat)
    requires forall i: nat :: First(Filtered(s, MovesFrom(s, i)), test) == if i == m.from then Some(m) else None
    requires m.from >= 0
    ensures First(Filtered(s, MovesUpTo(s, n)), test) == if m.from < n then Some(m) else None
  {
    if n > 0 {
      var before, here := MovesUpTo(s, n - 1), MovesFrom(s, n - 1);
      FoundUpTo(s, test, m, n - 1);
      FilteredConcat(s, before, here);
      FirstOfConcat(Filtered(s, before), Filtered(s, here), test);
    }
  }

  /** A legal move handed back is found again: `matchLegal` is the identity on legal moves. */
  lemma MatchLegalIsIdentity(s: State, m: Move)
    requires m in LegalMoves(s)
    ensures MatchLegal(s, m) == Some(m)
  {
    LegalMovesExact(s, m);
    CastlingIsMarked(s, m);
    var test := MatchTest(m);
    if m.drop.None? && !IsCastling(m) {
      BoardMoveFacts(s, m);
      forall i: nat
        ensures First(Filtered(s, MovesFrom(s, i)), test) == if i == m.from then Some(m) else None
      {
        FoundAt(s, m, i);
      }
      FoundUpTo(s, test, m, |s.board|);
      var drops := if s.variant == Crazyhouse then Drops(s.board, s.turn, PocketOf(s.pockets, s.turn)) else [];
      FilteredConcat(s, MovesUpTo(s, |s.board|), drops);
      FirstOfConcat(Filtered(s, MovesUpTo(s, |s.board|)), Filtered(s, drops), test);
    } else {
      forall n | n in LegalMoves(s) && test(n)
        ensures n == m
      {
        LegalMovesExact(s, n);
        CastlingIsMarked(s, n);
        if m.drop.Some? {
          DropFacts(s, m);
          DropFacts(s, n);
        } else {
          CastleDetermined(s, m, n);
        }
      }
      OnlyMatch(LegalMoves(s), test, m);
    }
  }

  /** The move is what was asked for: origin, target, promotion and drop, and the castling rook and the castling side
      as far as they were given. */
  predicate Agrees(m: Move, wanted: Move) {
    && m.from == wanted.from && m.to == wanted.to && m.promotion == wanted.promotion && m.drop == wanted.drop
    && (wanted.castleRook == None || m.castleRook == wanted.castleRook)
    && ((!wanted.flags.kingCastle && !wanted.flags.queenCastle) ||
        (m.flags.kingCastle == wanted.flags.kingCastle && m.flags.queenCastle == wanted.flags.queenCastle))
  }

  /** Whatever is handed in, a legal move that agrees with it is found, and nothing else; where none does, as for a rook
      and a side that contradict each other, none is. */
  lemma HandedMovesAreMatched(s: State, wanted: Move)
    ensures MatchLegal(s, wanted).Some? ==>
              MatchLegal(s, wanted).value in LegalMoves(s) && Agrees(MatchLegal(s, wanted).value, wanted)
    ensures MatchLegal(s, wanted).None? <==> forall m :: m in LegalMoves(s) ==> !Agrees(m, wanted)
  {
    FirstPasses(LegalMoves(s), MatchTest(wanted));
    forall m ensures MatchTest(wanted)(m) <==> Agrees(m, wanted) {
    }
  }

  /** A castle asked for by its side alone, without its rook, is found. */
  lemma SideAloneCastles(s: State, m: Move)
    requires m in LegalMoves(s) && IsCastling(m)
    ensures MatchLegal(s, m.(castleRook := None)) == Some(m)
  {
    var test := MatchTest(m.(castleRook := None));
    LegalMovesExact(s, m);
    CastlingIsMarked(s, m);
    forall n | n in LegalMoves(s) && test(n)
      ensures n == m
    {
      LegalMovesExact(s, n);
      CastlingIsMarked(s, n);
      CastleDetermined(s, m, n);
    }
    OnlyMatch(LegalMoves(s), test, m);
  }

  // ---- resolveUci inverts toUci

  lemma UciDropText(k: Kind, to: int)
    requires OnBoard(to)
    ensures var uci := [Upper(KindChar(k)), '@'] + SquareName(to);
            IndexOf(uci, '@') == 1 && Slice(uci, 2, 4) == SquareName(to) && KindOfChar(Lower(uci[0])) == Some(k)
  {
    var uci := [Upper(KindChar(k)), '@'] + SquareName(to);
    KindCharRoundTrip(k);
    SquareNameRoundTrip(to);
    assert uci[0] != '@' && uci[..1] == [uci[0]];
    IndexOfIs(uci, '@', 1);
    assert uci[2..4] == SquareName(to);
  }

  lemma UciMoveText(a: int, c: int, tail: string)
    requires OnBoard(a) && OnBoard(c) && '@' !in tail
    ensures var uci := SquareName(a) + SquareName(c) + tail;
            && IndexOf(uci, '@') == |uci| == 4 + |tail| && Slice(uci, 0, 2) == SquareName(a) &&
               Slice(uci, 2, 4) == SquareName(c)
            && (tail != "" ==> uci[4] == tail[0])
  {
    var uci := SquareName(a) + SquareName(c) + tail;
    SquareNameRoundTrip(a);
    SquareNameRoundTrip(c);
    IndexOfAbsent(uci, '@');
    assert uci[0..2] == SquareName(a) && uci[2..4] == SquareName(c);
  }

  lemma UciDrop(s: State, m: Move)
    requires m in LegalMoves(s) && m.drop.Some? && OnBoard(m.to) && m.castleRook.None?
    ensures ResolveUci(s, ToUci(s, m)) == Some(m)
  {
    LegalMovesExact(s, m);
    DropFacts(s, m);
    UciDropText(m.drop.value, m.to);
    SquareNameRoundTrip(m.to);
    var test := DropTest(m.drop, m.to);
    forall n | n in LegalMoves(s) && test(n)
      ensures n == m
    {
      LegalMovesExact(s, n);
      DropFacts(s, n);
    }
    OnlyMatch(LegalMoves(s), test, m);
  }

  lemma UciOrdinary(s: State, m: Move)
    requires m in LegalMoves(s) && m.drop.None? && (IsCastling(m) ==> s.variant != Chess960)
    requires OnBoard(m.from) && OnBoard(m.to) && (m.castleRook.Some? ==> OnBoard(m.castleRook.value))
    ensures ResolveUci(s, ToUci(s, m)) == Some(m)
  {
    LegalMovesExact(s, m);
    CastlingIsMarked(s, m);
    var tail := if m.promotion.Some? then [KindChar(m.promotion.value)] else "";
    if m.promotion.Some? {
      KindCharRoundTrip(m.promotion.value);
    }
    UciMoveText(m.from, m.to, tail);
    SquareNameRoundTrip(m.from);
    SquareNameRoundTrip(m.to);
    var uci := ToUci(s, m);
    var test := MoveTest(s.variant == Chess960, m.from, m.to, uci);
    forall n | n in LegalMoves(s) && test(n)
      ensures n == m
    {
      LegalMovesExact(s, n);
      CastlingIsMarked(s, n);
      if n.drop.Some? { DropFacts(s, n); }
      if IsCastling(m) && IsCastling(n) {
        CastleDetermined(s, m, n);
      } else if IsCastling(m) {
        CastleIsNoStep(s, m, n);
      } else if IsCastling(n) {
        CastleIsNoStep(s, n, m);
      } else {
        OrdinaryDetermined(s, m, n);
      }
    }
    OnlyMatch(LegalMoves(s), test, m);
  }

  lemma UciSquares(a: int, c: int)
    requires OnBoard(a) && OnBoard(c)
    ensures var uci := SquareName(a) + SquareName(c);
            IndexOf(uci, '@') == |uci| == 4 && SquareFromName(Slice(uci, 0, 2)) == a &&
                SquareFromName(Slice(uci, 2, 4)) == c
  {
    UciMoveText(a, c, "");
    assert SquareName(a) + SquareName(c) + "" == SquareName(a) + SquareName(c);
    SquareNameRoundTrip(a);
    SquareNameRoundTrip(c);
  }

  /** The king-takes-rook spelling of two legal castles is the same. */
  ghost predicate SharedRook(s: State) {
    s.variant == Chess960 && exists m, n :: SameSpelling(s, m, n)
  }

  ghost predicate SameSpelling(s: State, m: Move, n: Move) {
    && m in LegalMoves(s) && n in LegalMoves(s) && IsCastling(m) && IsCastling(n) && m != n
    && m.from == n.from && m.castleRook == n.castleRook
  }

  lemma DistinctSharesNoRook(s: State)
    requires RooksDistinct(s)
    ensures !SharedRook(s)
  {
    forall m, n ensures !SameSpelling(s, m, n) {
      if SameSpelling(s, m, n) {
        LegalMovesExact(s, m);
        LegalMovesExact(s, n);
        CastleDetermined(s, m, n);
      }
    }
  }

  /** No ordinary move goes from the king's square to its castling rook. */
  lemma FirstPassSkips(s: State, m: Move, n: Move, uci: string)
    requires m in LegalMoves(s) && IsCastling(m) && n in LegalMoves(s) && m.castleRook.Some?
    ensures !MoveNamed(n, true, m.from, m.castleRook.value, uci)
  {
    LegalMovesExact(s, m);
    BoardMoveFacts(s, m);
    OnlyKingsCastle(s, m);
    CastleFacts(s, m);
    LegalMovesExact(s, n);
    CastlingIsMarked(s, n);
    if n.drop.Some? {
      DropFacts(s, n);
    } else {
      BoardMoveFacts(s, n);
      if n.from == m.from && !IsCastling(n) {
        KingStepIsLeap(s, n);
      }
    }
  }

  lemma SecondPassFinds(s: State, m: Move, n: Move)
    requires m in LegalMoves(s) && IsCastling(m) && n in LegalMoves(s) && s.variant == Chess960 && !SharedRook(s)
    requires m.castleRook.Some? && CastleNamed(n, m.from, m.castleRook.value)
    ensures n == m
  {
    LegalMovesExact(s, n);
    CastlingIsMarked(s, n);
    assert !SameSpelling(s, m, n);
  }

  /** What the two passes find, given the squares the text names. */
  lemma ResolveCastle(s: State, uci: string, m: Move)
    requires s.variant == Chess960 && IndexOf(uci, '@') == |uci| == 4 && m.castleRook.Some?
    requires SquareFromName(Slice(uci, 0, 2)) == m.from && SquareFromName(Slice(uci, 2, 4)) == m.castleRook.value
    requires forall n :: n in LegalMoves(s) ==> !MoveNamed(n, true, m.from, m.castleRook.value, uci)
    requires forall n :: n in LegalMoves(s) && CastleNamed(n, m.from, m.castleRook.value) ==> n == m
    requires m in LegalMoves(s)
    ensures ResolveUci(s, uci) == Some(m)
  {
    var from, to := SquareFromName(Slice(uci, 0, 2)), SquareFromName(Slice(uci, 2, 4));
    FirstPasses(LegalMoves(s), MoveTest(true, from, to, uci));
    OnlyMatch(LegalMoves(s), CastleTest(from, to), m);
  }

  /** In Chess960 the king-takes-rook spelling is left to the second pass, which finds the castle. */
  lemma UciChess960Castle(s: State, m: Move)
    requires m in LegalMoves(s) && IsCastling(m) && s.variant == Chess960 && !SharedRook(s)
    requires OnBoard(m.from) && OnBoard(m.to) && m.castleRook.Some? && OnBoard(m.castleRook.value)
    ensures ResolveUci(s, ToUci(s, m)) == Some(m)
  {
    var uci := ToUci(s, m);
    UciSquares(m.from, m.castleRook.value);
    assert uci == SquareName(m.from) + SquareName(m.castleRook.value) by {
      LegalMovesExact(s, m);
      BoardMoveFacts(s, m);
    }
    forall n | n in LegalMoves(s)
      ensures !MoveNamed(n, true, m.from, m.castleRook.value, uci)
      ensures CastleNamed(n, m.from, m.castleRook.value) ==> n == m
    {
      FirstPassSkips(s, m, n, uci);
      if CastleNamed(n, m.from, m.castleRook.value) {
        SecondPassFinds(s, m, n);
      }
    }
    ResolveCastle(s, uci, m);
  }

  /** The move is written, and its text resolves to it. */
  ghost predicate ComesBack(s: State, m: Move) {
    && OnBoard(m.to) && (m.drop.None? ==> OnBoard(m.from)) && (m.castleRook.Some? ==> OnBoard(m.castleRook.value))
    && ResolveUci(s, ToUci(s, m)) == Some(m)
  }

  /** A legal move of any position comes back from its UCI string, unless two castles share a spelling. */
  lemma UciRoundTrip(s: State, m: Move)
    requires m in LegalMoves(s) && !SharedRook(s)
    ensures ComesBack(s, m)
  {
    LegalMovesExact(s, m);
    PseudoIsPlayable(s, m);
    CastlingIsMarked(s, m);
    if m.drop.Some? {
      DropFacts(s, m);
      UciDrop(s, m);
    } else if IsCastling(m) && s.variant == Chess960 {
      UciChess960Castle(s, m);
    } else {
      UciOrdinary(s, m);
    }
  }

  lemma SharedSpellingIsLost(s: State, m: Move, n: Move)
    requires s.variant == Chess960 && SameSpelling(s, m, n)
    ensures !ComesBack(s, m) || !ComesBack(s, n)
  {
    LegalMovesExact(s, m);
    LegalMovesExact(s, n);
    CastlingIsMarked(s, m);
    CastlingIsMarked(s, n);
  }

  /** Every legal move of a position comes back from its UCI string exactly when no two legal castles
      share a spelling; rights that name different rooks are enough. */
  lemma UciRoundTripExactly(s: State)
    ensures (forall m :: m in LegalMoves(s) ==> ComesBack(s, m)) <==> !SharedRook(s)
    ensures RooksDistinct(s) ==> !SharedRook(s)
  {
    if RooksDistinct(s) {
      DistinctSharesNoRook(s);
    }
    if SharedRook(s) {
      var m, n :| SameSpelling(s, m, n);
      SharedSpellingIsLost(s, m, n);
    } else {
      forall m | m in LegalMoves(s) ensures ComesBack(s, m) {
        UciRoundTrip(s, m);
      }
    }
  }

  /** Over every game from a position whose rights the board bears out, as in every FEN that is read, every
      legal move comes back from its UCI string. */
  lemma {:induction false} UciComesBackAlong(ss: seq<State>, ms: seq<Move>, i: nat)
    requires Game(ss, ms) && AllReadable(ss[0].board, ss[0].castling) && i < |ss|
    ensures RooksDistinct(ss[i]) && forall m :: m in LegalMoves(ss[i]) ==> ComesBack(ss[i], m)
  {
    if i == 0 {
      ReadableIsDistinct(ss[0]);
    } else {
      UciComesBackAlong(ss, ms, i - 1);
      assert Plays(ss[i - 1], ms[i - 1], ss[i]);
      RooksStayDistinct(ss[i - 1], ms[i - 1]);
    }
    UciRoundTripExactly(ss[i]);
  }

  // ---- nothing else is resolved

  /** Two squares and at most the small letter of a man. */
  predicate MoveText(uci: string, a: int, c: int, k: Option<Kind>) {
    OnBoard(a) && OnBoard(c) && uci == SquareName(a) + SquareName(c) + if k.Some? then [KindChar(k.value)] else ""
  }

  ghost predicate WrittenAs(s: State, m: Move, uci: string) {
    && OnBoard(m.to) && (m.drop.None? ==> OnBoard(m.from)) && (m.castleRook.Some? ==> OnBoard(m.castleRook.value))
    && ToUci(s, m) == uci
  }

  predicate DropWritten(uci: string, k: Kind, to: int) {
    OnBoard(to) && uci == [Upper(KindChar(k)), '@'] + SquareName(to)
  }

  lemma ResolvedDrop(s: State, uci: string, k: Kind, to: int, m: Move)
    requires DropWritten(uci, k, to) && ResolveUci(s, uci) == Some(m)
    ensures m in LegalMoves(s) && WrittenAs(s, m, uci)
  {
    UciDropText(k, to);
    SquareNameRoundTrip(to);
    FirstPasses(LegalMoves(s), DropTest(Some(k), to));
    LegalMovesExact(s, m);
    DropFacts(s, m);
  }

  lemma ResolvedMove(s: State, uci: string, a: int, c: int, k: Option<Kind>, m: Move)
    requires MoveText(uci, a, c, k) && ResolveUci(s, uci) == Some(m)
    ensures m in LegalMoves(s) && WrittenAs(s, m, uci)
  {
    var tail := if k.Some? then [KindChar(k.value)] else "";
    if k.Some? {
      KindCharRoundTrip(k.value);
    }
    UciMoveText(a, c, tail);
    SquareNameRoundTrip(a);
    SquareNameRoundTrip(c);
    FirstPasses(LegalMoves(s), MoveTest(s.variant == Chess960, a, c, uci));
    FirstPasses(LegalMoves(s), CastleTest(a, c));
    LegalMovesExact(s, m);
    PseudoIsPlayable(s, m);
    if m.drop.Some? {
      DropFacts(s, m);
    } else {
      CastlingIsMarked(s, m);
      NoPromotingCastle(s, m);
    }
    assert SquareName(a) + SquareName(c) + "" == SquareName(a) + SquareName(c);
  }

  lemma NoPromotingCastle(s: State, m: Move)
    requires m in LegalMoves(s) && m.drop.None?
    ensures m.castleRook.Some? ==> m.promotion.None?
  {
    LegalMovesExact(s, m);
    CastlingIsMarked(s, m);
    if IsCastling(m) {
      BoardMoveFacts(s, m);
      OnlyKingsCastle(s, m);
      CastleFacts(s, m);
    }
  }

  /** A text written as moves or drops are resolves to a legal move only if that move is written so. */
  lemma ResolvedAsWritten(s: State, uci: string, m: Move)
    requires (exists a, c, k :: MoveText(uci, a, c, k)) || (exists k, to :: DropWritten(uci, k, to))
    requires ResolveUci(s, uci) == Some(m)
    ensures m in LegalMoves(s) && WrittenAs(s, m, uci)
  {
    if a, c, k :| MoveText(uci, a, c, k) {
      ResolvedMove(s, uci, a, c, k, m);
    } else {
      var k, to :| DropWritten(uci, k, to);
      ResolvedDrop(s, uci, k, to, m);
    }
  }

  // ---- the loops

  method FindFirst(legal: seq<Move>, test: Move -> bool) returns (found: Option<Move>)
    ensures found == First(legal, test)
  {
    for i := 0 to |legal|
      invariant First(legal, test) == First(legal[i..], test)
    {
      assert legal[i..][1..] == legal[i + 1..];
      if test(legal[i]) {
        return Some(legal[i]);
      }
    }
    found := None;
  }

  method MatchLegalMove(s: State, wanted: Move) returns (found: Option<Move>)
    ensures found == MatchLegal(s, wanted)
  {
    var legal := GenerateLegalMoves(s);
    found := FindFirst(legal, MatchTest(wanted));
  }

  method ResolveUciText(s: State, uci: string) returns (found: Option<Move>)
    ensures found == ResolveUci(s, uci)
  {
    var legal := GenerateLegalMoves(s);
    var at := IndexOf(uci, '@');
    if at < |uci| {
      var to := SquareFromName(Slice(uci, at + 1, at + 3));
      found := FindFirst(legal, DropTest(KindOfChar(Lower(uci[0])), to));
      return;
    }
    var from := SquareFromName(Slice(uci, 0, 2));
    var to := SquareFromName(Slice(uci, 2, 4));
    found := FindFirst(legal, MoveTest(s.variant == Chess960, from, to, uci));
    if found.None? && |uci| < 5 && s.variant == Chess960 {
      found := FindFirst(legal, CastleTest(from, to));
    }
  }
}
