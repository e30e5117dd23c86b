/** The repetition key (packages/chess-core/src/repetition.ts) and what sharing one means: Articles 9.2.2
    and 9.2.3 of the FIDE Laws of Chess. */
module Repetition {
  import opened Common
  import opened ChessTypes
  import opened Geometry
  import opened Castling
  import opened MoveGen
  import opened Play
  import opened Legality
  import opened Validity
  import opened LegalPlay
  import opened Rights
  import opened Text
  import opened CastlingField
  import opened Fen
  import opened FenRoundTrip
  import opened FenCodec

  ghost predicate HasLegalEp(s: State) {
    exists m :: m in LegalMoves(s) && m.flags.enPassant
  }

  /** The en-passant square, when some legal move uses it. */
  ghost function NormalEp(s: State): int {
    if s.epSquare != -1 && HasLegalEp(s) then s.epSquare else -1
  }

  /** An en-passant capture lands on the square named, so a name off the board has none. */
  lemma LegalEpIsOnBoard(s: State)
    requires HasLegalEp(s)
    ensures OnBoard(s.epSquare)
  {
    var m :| m in LegalMoves(s) && m.flags.enPassant;
    LegalMovesExact(s, m);
    if m.drop.None? {
      BoardMoveFacts(s, m);
    }
  }

  lemma FirstOfSplit(s: string, c: char)
    requires s != "" && s[0] != c
    ensures SplitOn(s, c)[0] != "" && SplitOn(s, c)[0][0] == s[0]
  {
  }

  lemma NoSpaces(w: string)
    requires IsWord(w)
    ensures ' ' !in w
  {
  }

  /** The fourth field begins as the writer put it, and is all of it unless a rank off the board is a space. */
  lemma EpFieldOf(name: string, rest: string)
    requires name != "" && name[0] != ' '
    ensures var f := SplitOn(name + [' '] + rest, ' ')[0]; f != "" && f[0] == name[0] && (' ' !in name ==> f == name)
  {
    FirstOfSplit(name + [' '] + rest, ' ');
    if ' ' !in name {
      SplitFirst(name, ' ', rest);
    }
  }

  lemma EpTextStarts(ep: int)
    ensures EpText(ep) != "" && EpText(ep)[0] != ' ' && (EpText(ep)[0] == '-' <==> ep == -1)
    ensures OnBoard(ep) || ep == -1 ==> IsWord(EpText(ep))
  {
    if OnBoard(ep) {
      SquareNameRoundTrip(ep);
    }
  }

  lemma FenSplits(s: State)
    ensures var fields := SplitOn(ToFen(s), ' '); var all := FenFields(s);
            && |fields| >= 4 && fields[0] == all[0] && fields[1] == all[1] && fields[2] == all[2]
            && (if fields[3] != "-" && !HasLegalEp(s) then "-" else fields[3]) == EpText(NormalEp(s))
  {
    var all := FenFields(s);
    FenFieldsAt(s);
    FieldsAreWords(s);
    assert FenWords(s)[0] == all[0] && FenWords(s)[1] == all[1] && FenWords(s)[2] == all[2];
    NoSpaces(all[0]);
    NoSpaces(all[1]);
    NoSpaces(all[2]);
    var rest := Join(all[4..], ' ');
    assert all[3..][0] == all[3] && all[3..][1..] == all[4..];
    assert Join(all[3..], ' ') == all[3] + [' '] + rest;
    SplitPrefix(all, ' ', 3);
    EpTextStarts(s.epSquare);
    EpFieldOf(all[3], rest);
    if s.epSquare == -1 || HasLegalEp(s) {
      if HasLegalEp(s) {
        LegalEpIsOnBoard(s);
      }
      NoSpaces(EpText(s.epSquare));
    }
  }

  function CountersText(c: Counters): string {
    IntText(c.w) + "+" + IntText(c.b)
  }

  ghost function RepetitionKey(s: State): string {
    FenSplits(s);
    var fields := SplitOn(ToFen(s), ' ');
    var ep := if fields[3] != "-" && !HasLegalEp(s) then "-" else fields[3];
    fields[0] + " " + fields[1] + " " + fields[2] + " " + ep
    + if s.variant == ThreeCheck then " " + CountersText(s.checkCount) else ""
  }

  method ComputeRepetitionKey(s: State) returns (key: string)
    ensures key == RepetitionKey(s)
  {
    FenSplits(s);
    var fen := WriteFen(s);
    var fields := SplitOn(fen, ' ');
    var ep := fields[3];
    if ep != "-" {
      var legal := GenerateLegalMoves(s);
      var hasLegalEp := exists i :: 0 <= i < |legal| && legal[i].flags.enPassant;
      if !hasLegalEp {
        ep := "-";
      }
    }
    key := fields[0] + " " + fields[1] + " " + fields[2] + " " + ep;
    if s.variant == ThreeCheck {
      key := key + (" " + CountersText(s.checkCount));
    }
  }

  // ---- what the key holds

  ghost function KeyParts(s: State): seq<string> {
    FourFields(s, NormalEp(s)) + if s.variant == ThreeCheck then [CountersText(s.checkCount)] else []
  }

  lemma JoinFour(a: string, b: string, c: string, d: string)
    ensures Join([a, b, c, d], ' ') == a + " " + b + " " + c + " " + d
  {
    assert [a, b, c, d][1..] == [b, c, d] && [b, c, d][1..] == [c, d] && [c, d][1..] == [d];
    assert Join([c, d], ' ') == c + " " + d;
    assert Join([b, c, d], ' ') == b + " " + (c + " " + d);
  }

  lemma NormalEpText(s: State)
    ensures NormalEp(s) == -1 || OnBoard(NormalEp(s))
    ensures IsWord(EpText(NormalEp(s)))
  {
    if NormalEp(s) != -1 {
      LegalEpIsOnBoard(s);
    }
    EpTextStarts(NormalEp(s));
  }

  function FourFields(s: State, ep: int): seq<string> {
    [PlacementText(s), TurnText(s.turn), FormatCastlingField(s.castling, s.board), EpText(ep)]
  }

  lemma KeyPartsFree(s: State)
    ensures Free(KeyParts(s), ' ')
  {
    FieldsAreWords(s);
    FenFieldsAt(s);
    NormalEpText(s);
    CountersSplit(s.checkCount);
    var four := FourFields(s, NormalEp(s));
    forall i | 0 <= i < 4 ensures ' ' !in four[i] {
      assert i < 3 ==> four[i] == FenWords(s)[i];
      NoSpaces(four[i]);
    }
  }

  function KeyTail(s: State): string {
    if s.variant == ThreeCheck then " " + CountersText(s.checkCount) else ""
  }

  lemma KeyIsConcat(s: State)
    ensures var four := FourFields(s, NormalEp(s));
            RepetitionKey(s) == four[0] + " " + four[1] + " " + four[2] + " " + four[3] + KeyTail(s)
  {
    FenSplits(s);
    FenFieldsAt(s);
  }

  lemma JoinTail(four: seq<string>, tail: string)
    requires four != []
    ensures Join(four + [tail], ' ') == Join(four, ' ') + (" " + tail)
  {
    JoinAppend(four, ' ', tail);
    assert Join(four, ' ') + [' '] + tail == Join(four, ' ') + (" " + tail);
  }

  lemma KeyIsJoin(s: State)
    ensures RepetitionKey(s) == Join(KeyParts(s), ' ')
  {
    KeyIsConcat(s);
    var four := FourFields(s, NormalEp(s));
    JoinFour(four[0], four[1], four[2], four[3]);
    assert four == [four[0], four[1], four[2], four[3]];
    if s.variant == ThreeCheck {
      JoinTail(four, CountersText(s.checkCount));
    } else {
      assert KeyParts(s) == four;
    }
  }

  lemma CountersSplit(c: Counters)
    ensures ' ' !in CountersText(c)
    ensures SplitOn(CountersText(c), '+') == [IntText(c.w), IntText(c.b)]
  {
    IntTextIsWord(c.w);
    IntTextIsWord(c.b);
    IntTextDigits(c.b);
    SplitFirst(IntText(c.w), '+', IntText(c.b));
    assert CountersText(c) == IntText(c.w) + ['+'] + IntText(c.b);
  }

  /** Equal but for the move clocks, for an en-passant square no legal move uses, and for the rights. */
  ghost predicate SameButRights(s: State, t: State) {
    && s.board == t.board && s.turn == t.turn && s.pockets == t.pockets
    && s.checkCount == t.checkCount && s.variant == t.variant && NormalEp(s) == NormalEp(t)
  }

  ghost predicate SamePosition(s: State, t: State) {
    SameButRights(s, t) && s.castling == t.castling
  }

  /** Nothing stands off the board, and pockets and check counts are there only in their variants. */
  ghost predicate Keyed(s: State) {
    && OffBoardEmpty(s.board)
    && (s.variant != Crazyhouse ==> s.pockets == NO_POCKETS)
    && (s.variant != ThreeCheck ==> s.checkCount == NO_CHECKS)
  }

  lemma SamePlacement(s: State, t: State)
    requires Keyed(s) && Keyed(t) && s.variant == t.variant && PlacementText(s) == PlacementText(t)
    ensures s.board == t.board && s.pockets == t.pockets
  {
    PlacementRoundTrip(s);
    PlacementRoundTrip(t);
    TrimmedIsSame(s.board);
    TrimmedIsSame(t.board);
  }

  lemma SameCounters(s: State, t: State)
    requires CountersText(s.checkCount) == CountersText(t.checkCount)
    ensures s.checkCount == t.checkCount
  {
    CountersSplit(s.checkCount);
    CountersSplit(t.checkCount);
    var a, b := SplitOn(CountersText(s.checkCount), '+'), SplitOn(CountersText(t.checkCount), '+');
    assert a[0] == b[0] && a[1] == b[1];
    IntTextInjective(s.checkCount.w, t.checkCount.w);
    IntTextInjective(s.checkCount.b, t.checkCount.b);
  }

  lemma KeyPartsAgree(s: State, t: State)
    requires s.variant == t.variant && RepetitionKey(s) == RepetitionKey(t)
    ensures KeyParts(s) == KeyParts(t)
  {
    KeyIsJoin(s);
    KeyIsJoin(t);
    KeyPartsFree(s);
    KeyPartsFree(t);
    SplitJoin(KeyParts(s), ' ');
    SplitJoin(KeyParts(t), ' ');
  }

  lemma SameEp(ep: int, ep': int)
    requires ep == -1 || OnBoard(ep)
    requires ep' == -1 || OnBoard(ep')
    requires EpText(ep) == EpText(ep')
    ensures ep == ep'
  {
    BoardSquaresComeBack(ep);
    BoardSquaresComeBack(ep');
    EpReadsBack(ep);
    EpReadsBack(ep');
  }

  lemma PartsAgree(s: State, t: State)
    requires s.variant == t.variant && RepetitionKey(s) == RepetitionKey(t)
    ensures PlacementText(s) == PlacementText(t) && s.turn == t.turn && NormalEp(s) == NormalEp(t)
    ensures FormatCastlingField(s.castling, s.board) == FormatCastlingField(t.castling, t.board)
    ensures s.variant == ThreeCheck ==> s.checkCount == t.checkCount
  {
    KeyPartsAgree(s, t);
    var p, q := KeyParts(s), KeyParts(t);
    assert p[0] == q[0] && p[1] == q[1] && p[2] == q[2] && p[3] == q[3];
    NormalEpText(s);
    NormalEpText(t);
    SameEp(NormalEp(s), NormalEp(t));
    if s.variant == ThreeCheck {
      assert p[4] == q[4];
      SameCounters(s, t);
    }
  }

  lemma SameParts(s: State, t: State)
    requires SameButRights(s, t) && FormatCastlingField(s.castling, s.board) == FormatCastlingField(t.castling, t.board)
    ensures RepetitionKey(s) == RepetitionKey(t)
  {
    KeyIsJoin(s);
    KeyIsJoin(t);
  }

  /** Two positions of one variant share a key exactly when they differ at most in rights the castling field
      writes alike. */
  lemma KeysExactly(s: State, t: State)
    requires Keyed(s) && Keyed(t) && s.variant == t.variant
    ensures RepetitionKey(s) == RepetitionKey(t) <==>
            SameButRights(s, t) && RightsAlike(s.board, s.castling, t.castling)
  {
    FieldTellsRights(s.castling, t.castling, s.board);
    if RepetitionKey(s) == RepetitionKey(t) {
      PartsAgree(s, t);
      SamePlacement(s, t);
    } else if SameButRights(s, t) {
      if FormatCastlingField(s.castling, s.board) == FormatCastlingField(t.castling, s.board) {
        SameParts(s, t);
      }
    }
  }

  /** The field tells the rights of the two: the board bears out both, or they are what is left of one set. */
  ghost predicate Told(s: State, t: State) {
    || (AllReadable(s.board, s.castling) && AllReadable(t.board, t.castling))
    || Comparable(s.castling, t.castling)
  }

  /** Then they share a key exactly when they are the same position. */
  lemma KeyEqualIffSame(s: State, t: State)
    requires Keyed(s) && Keyed(t) && s.variant == t.variant && Told(s, t)
    ensures RepetitionKey(s) == RepetitionKey(t) <==> SamePosition(s, t)
  {
    if SamePosition(s, t) {
      SameParts(s, t);
    }
    if RepetitionKey(s) == RepetitionKey(t) {
      PartsAgree(s, t);
      SamePlacement(s, t);
      if Comparable(s.castling, t.castling) {
        ComparableAreTold(s.castling, t.castling, s.board);
      } else {
        CastlingFieldRoundTrip(s.castling, s.board);
        CastlingFieldRoundTrip(t.castling, t.board);
      }
    }
  }

  // ---- legal moves do not see the clocks, nor an idle en-passant square

  /** Equal but for clocks, check counts and the en-passant square. */
  predicate SameButEp(s: State, t: State) {
    && s.board == t.board && s.turn == t.turn && s.castling == t.castling && s.pockets == t.pockets
    && s.variant == t.variant
  }

  lemma AllowedSame(s: State, t: State, m: Move)
    requires SameButEp(s, t)
    ensures Allowed(s, m) == Allowed(t, m)
  {
    assert Playable(s, m) == Playable(t, m);
    if Playable(s, m) {
      assert BoardAfter(s, m) == BoardAfter(t, m);
    }
  }

  lemma {:induction false} FilteredSame(s: State, t: State, ms: seq<Move>)
    requires SameButEp(s, t)
    ensures Filtered(s, ms) == Filtered(t, ms)
  {
    if ms != [] {
      FilteredSame(s, t, ms[..|ms| - 1]);
      AllowedSame(s, t, ms[|ms| - 1]);
    }
  }

  lemma {:induction false} FilteredConcat(s: State, a: seq<Move>, b: seq<Move>)
    ensures Filtered(s, a + b) == Filtered(s, a) + Filtered(s, b)
  {
    if b == [] {
      assert a + b == a;
    } else {
      var i := |b| - 1;
      FilteredConcat(s, a, b[..i]);
      assert (a + b)[..|a + b| - 1] == a + b[..i] && (a + b)[|a + b| - 1] == b[i];
    }
  }

  /** Generation differs only in the en-passant captures, which the filter then drops. */
  lemma CapturesSame(s: State, from: int, p: Piece, ep: int, diag: int)
    requires OnBoard(from) && (diag == Forward(p.color) - 1 || diag == Forward(p.color) + 1)
    requires forall m :: m in PawnCapture(s.board, ep, from, p, diag) && m.flags.enPassant ==> !Allowed(s, m)
    ensures Filtered(s, PawnCapture(s.board, ep, from, p, diag)) == Filtered(s, PawnCapture(s.board, -1, from, p, diag))
  {
    var with, without := PawnCapture(s.board, ep, from, p, diag), PawnCapture(s.board, -1, from, p, diag);
    if with != without {
      assert with == [with[0]] && without == [];
      assert with[0] in with && with[0].flags.enPassant;
      assert with[..0] == [];
    }
  }

  /** No en-passant capture is both generated and allowed. */
  ghost predicate EpIdle(s: State) {
    forall m :: IsPseudo(s, m) && m.flags.enPassant ==> !Allowed(s, m)
  }

  lemma PawnMovesSame(s: State, t: State, from: int, p: Piece)
    requires SameButEp(s, t) && t.epSquare == -1 && EpIdle(s)
    requires OnBoard(from) && s.board[from] == Some(p) && p == Piece(s.turn, Pawn)
    ensures Filtered(s, PawnMoves(s.board, s.variant, s.epSquare, from, p))
            == Filtered(s, PawnMoves(s.board, s.variant, -1, from, p))
  {
    var b, ep := s.board, s.epSquare;
    var left, right := if p.color == White then 15 else -15, if p.color == White then 17 else -17;
    forall m | m in PawnCapture(b, ep, from, p, left) + PawnCapture(b, ep, from, p, right) && m.flags.enPassant
      ensures !Allowed(s, m)
    {
      PawnMovesExact(b, s.variant, ep, from, p, m);
      assert IsBoardMove(s, m);
    }
    CapturesSame(s, from, p, ep, left);
    CapturesSame(s, from, p, ep, right);
    var push := Pushes(b, s.variant, from, p);
    FilteredConcat(s, push + PawnCapture(b, ep, from, p, left), PawnCapture(b, ep, from, p, right));
    FilteredConcat(s, push, PawnCapture(b, ep, from, p, left));
    FilteredConcat(s, push + PawnCapture(b, -1, from, p, left), PawnCapture(b, -1, from, p, right));
    FilteredConcat(s, push, PawnCapture(b, -1, from, p, left));
  }

  lemma MovesFromSame(s: State, t: State, from: int)
    requires SameButEp(s, t)
    requires s.epSquare == t.epSquare || (t.epSquare == -1 && EpIdle(s))
    ensures Filtered(s, MovesFrom(s, from)) == Filtered(s, MovesFrom(t, from))
  {
    if OnBoard(from) && Own(s.board, from, s.turn) {
      var p := s.board[from].value;
      if p.kind == Pawn {
        if s.epSquare != t.epSquare {
          PawnMovesSame(s, t, from, p);
        }
      } else if p.kind == King {
        assert Castles(s, from, p) == Castles(t, from, p);
      }
    }
  }

  lemma {:induction false} MovesUpToSame(s: State, t: State, n: nat)
    requires SameButEp(s, t)
    requires s.epSquare == t.epSquare || (t.epSquare == -1 && EpIdle(s))
    ensures Filtered(s, MovesUpTo(s, n)) == Filtered(s, MovesUpTo(t, n))
  {
    if n > 0 {
      MovesUpToSame(s, t, n - 1);
      MovesFromSame(s, t, n - 1);
      FilteredConcat(s, MovesUpTo(s, n - 1), MovesFrom(s, n - 1));
      FilteredConcat(s, MovesUpTo(t, n - 1), MovesFrom(t, n - 1));
    }
  }

  /** Neither the clocks nor an en-passant square without a legal capture changes the list of legal moves. */
  lemma LegalMovesSame(s: State, t: State)
    requires SameButEp(s, t)
    requires s.epSquare == t.epSquare || (t.epSquare == -1 && !HasLegalEp(s))
    ensures LegalMoves(s) == LegalMoves(t)
  {
    if !HasLegalEp(s) {
      forall m | IsPseudo(s, m) && m.flags.enPassant
        ensures !Allowed(s, m)
      {
        LegalMovesExact(s, m);
      }
    }
    MovesUpToSame(s, t, |s.board|);
    var drops := if s.variant == Crazyhouse then Drops(s.board, s.turn, PocketOf(s.pockets, s.turn)) else [];
    FilteredConcat(s, MovesUpTo(s, |s.board|), drops);
    FilteredConcat(s, MovesUpTo(t, |t.board|), drops);
    FilteredSame(s, t, PseudoMoves(t));
  }

  // ---- the congruence

  lemma SamePositionSameMoves(s: State, t: State)
    requires SamePosition(s, t)
    ensures LegalMoves(s) == LegalMoves(t)
  {
    LegalMovesSame(s, s.(epSquare := NormalEp(s)));
    LegalMovesSame(t, t.(epSquare := NormalEp(t)));
    LegalMovesSame(s.(epSquare := NormalEp(s)), t.(epSquare := NormalEp(t)));
  }

  lemma AfterSame(s: State, t: State, m: Move)
    requires SameButEp(s, t) && s.checkCount == t.checkCount && Playable(s, m) && Playable(t, m)
    ensures BoardAfter(s, m) == BoardAfter(t, m) && PocketsAfter(s, m) == PocketsAfter(t, m)
    ensures ChecksAfter(s, m) == ChecksAfter(t, m) && EpAfter(s, m) == EpAfter(t, m)
  {
  }

  lemma AppliedSame(s: State, t: State, m: Move)
    requires SamePosition(s, t) && m in LegalMoves(s)
    ensures Playable(s, m) && Playable(t, m)
    ensures Apply(t, m) == Apply(s, m).(halfmoves := Apply(t, m).halfmoves, fullmoves := Apply(t, m).fullmoves)
  {
    SamePositionSameMoves(s, t);
    LegalIsPlayable(s, m);
    LegalIsPlayable(t, m);
    AfterSame(s, t, m);
  }

  lemma ClocksAside(s: State, t: State)
    requires t == s.(halfmoves := t.halfmoves, fullmoves := t.fullmoves)
    ensures SamePosition(s, t)
  {
    LegalMovesSame(s, t);
  }

  /** One key, one future: the same legal moves, and after each of them one key again. */
  lemma KeyIsCongruence(s: State, t: State)
    requires Keyed(s) && Keyed(t) && s.variant == t.variant && Told(s, t)
    requires RepetitionKey(s) == RepetitionKey(t)
    ensures LegalMoves(s) == LegalMoves(t)
    ensures forall m :: m in LegalMoves(s) ==>
              Playable(s, m) && Playable(t, m) && RepetitionKey(Apply(s, m)) == RepetitionKey(Apply(t, m))
  {
    KeyEqualIffSame(s, t);
    SamePositionSameMoves(s, t);
    forall m | m in LegalMoves(s)
      ensures Playable(s, m) && Playable(t, m) && RepetitionKey(Apply(s, m)) == RepetitionKey(Apply(t, m))
    {
      AppliedSame(s, t, m);
      ClocksAside(Apply(s, m), Apply(t, m));
      SameParts(Apply(s, m), Apply(t, m));
    }
  }

  // ---- whole games

  lemma GameTail(ss: seq<State>, ms: seq<Move>)
    requires Game(ss, ms) && ms != []
    ensures Plays(ss[0], ms[0], ss[1]) && Game(ss[1..], ms[1..])
  {
    forall i | 0 <= i < |ms[1..]| ensures Plays(ss[1..][i], ms[1..][i], ss[1..][i + 1]) {
      assert Plays(ss[i + 1], ms[i + 1], ss[i + 2]);
    }
  }

  lemma GameCons(s: State, ss: seq<State>, ms: seq<Move>)
    requires ms != [] && Game(ss, ms[1..]) && Plays(s, ms[0], ss[0])
    ensures Game([s] + ss, ms)
  {
    var all := [s] + ss;
    forall i | 0 <= i < |ms| ensures Plays(all[i], ms[i], all[i + 1]) {
      if i > 0 {
        assert Plays(ss[i - 1], ms[1..][i - 1], ss[i]);
      }
    }
  }

  ghost predicate SameAt(ss: seq<State>, tt: seq<State>, i: nat)
    requires i < |ss| && i < |tt|
  {
    SamePosition(ss[i], tt[i]) && LegalMoves(ss[i]) == LegalMoves(tt[i])
  }

  /** Every game from one of two same positions can be played from the other, and stays the same. */
  lemma {:induction false} SamePositionFutures(ss: seq<State>, ms: seq<Move>, t: State) returns (tt: seq<State>)
    requires Game(ss, ms) && SamePosition(ss[0], t)
    ensures Game(tt, ms) && tt[0] == t
    ensures forall i :: 0 <= i < |ss| ==> SameAt(ss, tt, i)
    decreases |ms|
  {
    SamePositionSameMoves(ss[0], t);
    if ms == [] {
      tt := [t];
    } else {
      GameTail(ss, ms);
      AppliedSame(ss[0], t, ms[0]);
      var t1 := Apply(t, ms[0]);
      ClocksAside(ss[1], t1);
      var rest := SamePositionFutures(ss[1..], ms[1..], t1);
      assert Plays(t, ms[0], t1);
      GameCons(t, rest, ms);
      tt := [t] + rest;
      forall i | 0 <= i < |ss| ensures SameAt(ss, tt, i) {
        assert i > 0 ==> SameAt(ss[1..], rest, i - 1);
      }
    }
  }

  /** One key, and the same legal moves. */
  ghost predicate SameKey(s: State, t: State) {
    RepetitionKey(s) == RepetitionKey(t) && LegalMoves(s) == LegalMoves(t)
  }

  /** Equal keys have equal futures: every game from one of the two positions can be played from the
      other, position by position with equal keys and the same legal moves. */
  lemma SameFutures(ss: seq<State>, ms: seq<Move>, t: State) returns (tt: seq<State>)
    requires Game(ss, ms) && Keyed(ss[0]) && Keyed(t) && ss[0].variant == t.variant && Told(ss[0], t)
    requires RepetitionKey(ss[0]) == RepetitionKey(t)
    ensures Game(tt, ms) && tt[0] == t
    ensures forall i :: 0 <= i < |ss| ==> SameKey(ss[i], tt[i])
  {
    KeyEqualIffSame(ss[0], t);
    tt := SamePositionFutures(ss, ms, t);
    forall i | 0 <= i < |ss| ensures SameKey(ss[i], tt[i]) {
      assert SameAt(ss, tt, i);
      SameParts(ss[i], tt[i]);
    }
  }

  // ---- two positions of one game

  /** Every position that is read from a FEN and accepted starts such games. */
  lemma AcceptedIsKeyed(fen: string, s: State)
    requires ParseFen(fen, s.variant) == Ok(s) && Valid(s)
    ensures Keyed(s) && RooksDistinct(s)
  {
    ReadIsTidy(fen, s.variant);
    ReadableIsDistinct(s);
  }

  lemma KeyedNext(s: State, m: Move)
    requires m in LegalMoves(s) && Keyed(s)
    ensures Playable(s, m) && Keyed(Apply(s, m))
  {
    LegalMovesExact(s, m);
    PseudoIsPlayable(s, m);
    OffBoardStaysEmpty(s, m);
    if m.drop.Some? {
      DropFacts(s, m);
    }
  }

  lemma {:induction false} KeyedAlong(ss: seq<State>, ms: seq<Move>, i: nat)
    requires Game(ss, ms) && Keyed(ss[0]) && i < |ss|
    ensures Keyed(ss[i]) && ss[i].variant == ss[0].variant
  {
    if i > 0 {
      KeyedAlong(ss, ms, i - 1);
      assert Plays(ss[i - 1], ms[i - 1], ss[i]);
      KeyedNext(ss[i - 1], ms[i - 1]);
    }
  }

  predicate LeftOf(r: CastlingRights, r0: CastlingRights, c: Color, side: CastlingSide) {
    Right(r, c, side) == NO_ROOK || Right(r, c, side) == Right(r0, c, side)
  }

  lemma RightNext(s: State, m: Move, t: State, c: Color, side: CastlingSide)
    requires Plays(s, m, t)
    ensures LeftOf(t.castling, s.castling, c, side)
  {
    LegalMovesExact(s, m);
    RightKept(s, m, c, side);
  }

  lemma {:induction false} RightAlong(ss: seq<State>, ms: seq<Move>, j: nat, c: Color, side: CastlingSide)
    requires Game(ss, ms) && j < |ss|
    ensures LeftOf(ss[j].castling, ss[0].castling, c, side)
  {
    if j > 0 {
      RightAlong(ss, ms, j - 1, c, side);
      assert Plays(ss[j - 1], ms[j - 1], ss[j]);
      RightNext(ss[j - 1], ms[j - 1], ss[j], c, side);
    }
  }

  /** What a game leaves of a set of rights over different rooks is told by the field. */
  lemma RightsOfAGame(ss: seq<State>, ms: seq<Move>, i: nat, j: nat)
    requires Game(ss, ms) && RooksDistinct(ss[0]) && i < |ss| && j < |ss|
    ensures Comparable(ss[i].castling, ss[j].castling)
  {
    forall c: Color ensures SidesComparable(SideOf(ss[i].castling, c), SideOf(ss[j].castling, c)) {
      RightAlong(ss, ms, i, c, KSide);
      RightAlong(ss, ms, i, c, QSide);
      RightAlong(ss, ms, j, c, KSide);
      RightAlong(ss, ms, j, c, QSide);
      SidesOfAGame(ss[0], ss[i].castling, ss[j].castling, c);
    }
  }

  lemma SidesOfAGame(s: State, r: CastlingRights, r': CastlingRights, c: Color)
    requires RooksDistinct(s)
    requires LeftOf(r, s.castling, c, KSide) && LeftOf(r, s.castling, c, QSide)
    requires LeftOf(r', s.castling, c, KSide) && LeftOf(r', s.castling, c, QSide)
    ensures SidesComparable(SideOf(r, c), SideOf(r', c))
  {
  }

  /** Within any game of any variant, from a start whose rights name different rooks, two positions share a key
      exactly when they are the same position. */
  lemma RepetitionIsExact(ss: seq<State>, ms: seq<Move>, i: nat, j: nat)
    requires Game(ss, ms) && Keyed(ss[0]) && RooksDistinct(ss[0]) && i < |ss| && j < |ss|
    ensures RepetitionKey(ss[i]) == RepetitionKey(ss[j]) <==> SamePosition(ss[i], ss[j])
  {
    KeyedAlong(ss, ms, i);
    KeyedAlong(ss, ms, j);
    RightsOfAGame(ss, ms, i, j);
    KeyEqualIffSame(ss[i], ss[j]);
  }

  /** And a repeated position offers what it offered before: every game from the one can be played from the
      other, with equal keys and the same legal moves all along. */
  lemma RepetitionRepeats(ss: seq<State>, ms: seq<Move>, i: nat, j: nat, us: seq<State>, ns: seq<Move>)
    returns (tt: seq<State>)
    requires Game(ss, ms) && Keyed(ss[0]) && RooksDistinct(ss[0]) && i < |ss| && j < |ss|
    requires RepetitionKey(ss[i]) == RepetitionKey(ss[j]) && Game(us, ns) && us[0] == ss[i]
    ensures Game(tt, ns) && tt[0] == ss[j]
    ensures forall k :: 0 <= k < |us| ==> SameKey(us[k], tt[k])
  {
    KeyedAlong(ss, ms, i);
    KeyedAlong(ss, ms, j);
    RightsOfAGame(ss, ms, i, j);
    tt := SameFutures(us, ns, ss[j]);
  }
}
