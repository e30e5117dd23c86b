/** Insufficient material is a dead position (Article 5.2.2 of the FIDE Laws of Chess): no line of
    legal moves ends in checkmate (packages/chess-core/src/position.ts). */
module DeadPosition {
  import opened Common
  import opened ChessTypes
  import opened Geometry
  import opened Attack
  import opened MoveGen
  import opened Play
  import opened Legality
  import opened Validity
  import opened LegalPlay
  import opened Status

  // ---- shades of squares

  /** How far a step goes in ranks; the rest of it is files. */
  function RankStep(d: int): int {
    (d + 8) / 16
  }

  lemma StepCoordinates(a: int, d: int)
    requires OnBoard(a) && OnBoard(a + d) && -40 <= d <= 40 && -4 < d - 16 * RankStep(d) < 4
    ensures RankOf(a + d) == RankOf(a) + RankStep(d)
    ensures FileOf(a + d) == FileOf(a) + d - 16 * RankStep(d)
  {
    var r, f := a / 16, a % 16;
    var rest := d - 16 * RankStep(d);
    assert a + d == 16 * (r + RankStep(d)) + (f + rest);
    SquareParts(r, f);
    SquareParts(r + RankStep(d), f + rest);
  }

  /** A square given as 16 times one number plus a small other has them for rank and file. */
  lemma SquareParts(r: int, f: int)
    requires OnBoard(16 * r + f) && -4 < f < 12
    ensures 0 <= f < 8 && RankOf(16 * r + f) == r && FileOf(16 * r + f) == f
  {
    var sq := 16 * r + f;
    var q, m := sq / 16, sq % 16;
    assert 16 * (q - r) == f - m && -16 < f - m < 16;
    assert q == r;
    assert sq == 8 * (2 * r) + f;
  }

  lemma Parity(x: int, moved: int)
    ensures moved in {-2, 0, 2} ==> (x + moved) % 2 == x % 2
    ensures moved in {-3, -1, 1, 3} ==> (x + moved) % 2 == 1 - x % 2
  {
  }

  /** How far a step goes, ranks and files together. */
  lemma StepLength(d: int)
    requires IsBishopDir(d) || IsRookDir(d) || IsKnightJump(d)
    ensures -40 <= d <= 40 && -4 < d - 16 * RankStep(d) < 4
    ensures d - 15 * RankStep(d) in if IsBishopDir(d) then {-2, 0, 2} else {-3, -1, 1, 3}
  {
  }

  lemma StepShade(a: int, c: int)
    requires OnBoard(a) && OnBoard(c)
    ensures IsBishopDir(c - a) ==> Shade(c) == Shade(a)
    ensures IsRookDir(c - a) || IsKnightJump(c - a) ==> Shade(c) == 1 - Shade(a)
  {
    var d := c - a;
    if IsBishopDir(d) || IsRookDir(d) || IsKnightJump(d) {
      StepLength(d);
      StepCoordinates(a, d);
      Parity(RankOf(a) + FileOf(a), d - 15 * RankStep(d));
      assert RankOf(c) + FileOf(c) == RankOf(a) + FileOf(a) + (d - 15 * RankStep(d));
    }
  }

  lemma {:induction false} RayShade(b: Board, a: int, off: int, c: int)
    requires OnBoard(a) && IsBishopDir(off) && Reaches(b, a, off, c)
    ensures OnBoard(c) && Shade(c) == Shade(a)
    decreases if off > 0 then 128 - a else a + 1
  {
    StepShade(a, a + off);
    if a + off != c {
      RayShade(b, a + off, off, c);
    }
  }

  lemma BishopShade(b: Board, a: int, c: int)
    requires OnBoard(a) && ReachesDiagonally(b, a, c)
    ensures OnBoard(c) && Shade(c) == Shade(a)
  {
    if Reaches(b, a, 17, c) { RayShade(b, a, 17, c); }
    else if Reaches(b, a, 15, c) { RayShade(b, a, 15, c); }
    else if Reaches(b, a, -17, c) { RayShade(b, a, -17, c); }
    else { RayShade(b, a, -15, c); }
  }

  // ---- material only shrinks

  predicate Ordinary(v: Variant) {
    v == Standard || v == Chess960
  }

  /** With dead material only kings, bishops and a knight move, and none of them castles. */
  lemma DeadMoves(s: State, m: Move)
    requires Ordinary(s.variant) && DeadMaterial(s.board) && IsPseudo(s, m)
    ensures m.drop.None? && IsBoardMove(s, m) && !IsCastling(m) && OnBoard(m.from) && OnBoard(m.to)
    ensures m.piece.kind == King || (IsMan(s.board, m.from) && m.piece.kind in {Bishop, Knight})
    ensures s.board[m.from] == Some(m.piece) && IsStep(s.board, m.from, m)
    ensures m.piece.kind == Bishop ==> ReachesDiagonally(s.board, m.from, m.to)
  {
    if m.drop.Some? { DropFacts(s, m); } else { BoardMoveFacts(s, m); }
    if IsCastling(m) {
      OnlyKingsCastle(s, m);
      CastleFacts(s, m);
      assert IsMan(s.board, m.castleRook.value);
    }
    if m.piece.kind != King {
      assert IsMan(s.board, m.from);
    }
  }

  lemma MenAfter(s: State, m: Move, sq: int)
    requires Ordinary(s.variant) && DeadMaterial(s.board) && IsPseudo(s, m) && Playable(s, m)
    requires IsMan(BoardAfter(s, m), sq)
    ensures if sq == m.to then IsMan(s.board, m.from) && BoardAfter(s, m)[sq] == s.board[m.from]
            else sq != m.from && IsMan(s.board, sq) && BoardAfter(s, m)[sq] == s.board[sq]
  {
    DeadMoves(s, m);
    MovedCell(s, m, sq);
  }

  /** The material closure: a dead position stays dead whatever is played. */
  lemma MaterialStaysDead(s: State, m: Move)
    requires Ordinary(s.variant) && DeadMaterial(s.board) && IsPseudo(s, m)
    ensures Playable(s, m) && DeadMaterial(BoardAfter(s, m))
  {
    PseudoIsPlayable(s, m);
    DeadMoves(s, m);
    var b' := BoardAfter(s, m);
    if n :| OnlyKnight(s.board, n) {
      var n' := if m.from == n then m.to else n;
      forall sq | IsMan(b', sq)
        ensures sq == n' && b'[sq].value.kind == Knight
      {
        MenAfter(s, m, sq);
      }
      assert OnlyKnight(b', n') || OnlyBishops(b', 0);
    } else {
      var p := if OnlyBishops(s.board, 0) then 0 else 1;
      forall sq | IsMan(b', sq)
        ensures b'[sq].value.kind == Bishop && Shade(sq) == p
      {
        MenAfter(s, m, sq);
        if sq == m.to {
          BishopShade(s.board, m.from, m.to);
        }
      }
    }
  }

  // ---- a checked king always has an orthogonal step out

  lemma KingStepDeltas(ranks: int, files: int)
    requires -8 < ranks < 8 && -8 < files < 8
    ensures IsKingStep(16 * ranks + files) <==> -1 <= ranks <= 1 && -1 <= files <= 1 && !(ranks == 0 == files)
  {
  }

  lemma KingStepCoordinates(a: int, c: int)
    requires OnBoard(a) && OnBoard(c)
    ensures IsKingStep(c - a) <==>
            a != c && -1 <= FileOf(c) - FileOf(a) <= 1 && -1 <= RankOf(c) - RankOf(a) <= 1
  {
    SquareCoordinates(a);
    SquareCoordinates(c);
    KingStepDeltas(RankOf(c) - RankOf(a), FileOf(c) - FileOf(a));
  }

  /** A square beside `k`, on its file or rank, that a king on `e` does not cover. */
  lemma Escape(k: int, e: int) returns (t: int)
    requires OnBoard(k) && OnBoard(e) && k != e && !IsKingStep(e - k)
    ensures OnBoard(t) && IsRookDir(t - k) && t != e && !IsKingStep(t - e)
  {
    SquareCoordinates(k);
    SquareCoordinates(e);
    KingStepCoordinates(k, e);
    var f, r := FileOf(k), RankOf(k);
    if -1 <= FileOf(e) - f <= 1 {
      t := MakeSquare(if f < 7 then f + 1 else f - 1, r);
      CoordinatesSquare(if f < 7 then f + 1 else f - 1, r);
    } else {
      t := MakeSquare(f, if r < 7 then r + 1 else r - 1);
      CoordinatesSquare(f, if r < 7 then r + 1 else r - 1);
    }
    KingStepCoordinates(e, t);
  }

  /** A dead-material check is given by a bishop from the king's own shade or by the knight. */
  lemma CheckerIsMinor(b: Board, us: Color, k: int, e: int)
    requires DeadMaterial(b) && KingAt(b, us, k) && KingAt(b, Opposite(us), e) && !IsKingStep(k - e)
    requires Attacked(b, k, Opposite(us))
    ensures OnlyBishops(b, Shade(k)) || exists n :: OnlyKnight(b, n) && IsKnightJump(k - n) && Enemy(b, n, us)
  {
    var from :| AttacksFrom(b, from, Opposite(us), k);
    if b[from].value.kind == King {
      assert Holds(b, from, Opposite(us), King);
    }
    assert IsMan(b, from);
    if n :| OnlyKnight(b, n) {
      assert from == n;
    } else {
      BishopShade(b, from, k);
    }
  }

  lemma NoManBeside(b: Board, k: int, t: int)
    requires OnlyBishops(b, Shade(k)) || exists n :: OnlyKnight(b, n) && IsKnightJump(k - n)
    requires OnBoard(k) && OnBoard(t) && IsRookDir(t - k)
    ensures !IsMan(b, t)
  {
    StepShade(k, t);
    if OnlyBishops(b, Shade(k)) {
      assert IsMan(b, t) ==> Shade(t) == Shade(k);
    } else {
      var n :| OnlyKnight(b, n) && IsKnightJump(k - n);
      assert IsMan(b, t) ==> t == n;
    }
  }

  lemma TwoColors(c: Color, us: Color)
    ensures c == us || c == Opposite(us)
  {
  }

  lemma NoKingBeside(b: Board, us: Color, k: int, e: int, t: int)
    requires KingAt(b, us, k) && KingAt(b, Opposite(us), e)
    requires OnBoard(t) && t != k && t != e
    ensures b[t].Some? ==> IsMan(b, t)
  {
    assert !Holds(b, t, us, King) && !Holds(b, t, Opposite(us), King);
    if b[t].Some? {
      TwoColors(b[t].value.color, us);
      assert b[t] == Some(Piece(b[t].value.color, b[t].value.kind));
    }
  }

  lemma EscapeIsEmpty(b: Board, us: Color, k: int, e: int, t: int)
    requires DeadMaterial(b) && KingAt(b, us, k) && KingAt(b, Opposite(us), e) && !IsKingStep(k - e)
    requires Attacked(b, k, Opposite(us))
    requires OnBoard(t) && IsRookDir(t - k) && t != e
    ensures b[t].None?
  {
    CheckerIsMinor(b, us, k, e);
    NoManBeside(b, k, t);
    NoKingBeside(b, us, k, e, t);
  }

  lemma EscapeIsSafe(b: Board, us: Color, k: int, e: int, t: int)
    requires DeadMaterial(b) && KingAt(b, us, k) && KingAt(b, Opposite(us), e) && !IsKingStep(k - e)
    requires Attacked(b, k, Opposite(us))
    requires OnBoard(t) && IsRookDir(t - k) && t != e && !IsKingStep(t - e)
    ensures var b' := b[k := None][t := Some(Piece(us, King))]; !Attacked(b', t, Opposite(us))
  {
    var b': Board := b[k := None][t := Some(Piece(us, King))];
    CheckerIsMinor(b, us, k, e);
    StepShade(k, t);
    forall from | AttacksFrom(b', from, Opposite(us), t)
      ensures false
    {
      assert b[from] == b'[from];
      if b[from].value.kind == King {
        assert Holds(b, from, Opposite(us), King);
      } else {
        assert IsMan(b, from);
        if OnlyBishops(b, Shade(k)) {
          BishopShade(b', from, t);
        } else {
          StepShade(from, t);
          StepShade(from, k);
        }
      }
    }
  }

  lemma StepOutIsLegal(s: State, k: int, t: int)
    requires Ordinary(s.variant) && KingAt(s.board, s.turn, k) && OnBoard(t) && IsRookDir(t - k) && s.board[t].None?
    requires !Attacked(s.board[k := None][t := Some(Piece(s.turn, King))], t, Opposite(s.turn))
    ensures StepTo(s.board, k, t, Piece(s.turn, King)) in LegalMoves(s)
  {
    var m := StepTo(s.board, k, t, Piece(s.turn, King));
    assert IsPseudo(s, m) && Playable(s, m);
    KingAtPlain(s, m, s.turn, k);
    KingAtIsFound(BoardAfter(s, m), s.turn, t);
    assert BoardAfter(s, m) == s.board[k := None][t := Some(Piece(s.turn, King))];
    LegalMovesExact(s, m);
  }

  /** No valid dead-material position is checkmate. */
  lemma DeadIsNotMate(s: State)
    requires Ordinary(s.variant) && Valid(s) && DeadMaterial(s.board)
    requires InCheck(s.board, s.variant, s.turn)
    ensures LegalMoves(s) != []
  {
    ValidKings(s);
    var us := s.turn;
    var k, e := KingSquare(s.board, us), KingSquare(s.board, Opposite(us));
    var t := Escape(k, e);
    EscapeIsEmpty(s.board, us, k, e, t);
    EscapeIsSafe(s.board, us, k, e, t);
    StepOutIsLegal(s, k, t);
  }

  ghost predicate Doomed(s: State) {
    Ordinary(s.variant) && Valid(s) && DeadMaterial(s.board)
  }

  lemma DoomedStatus(s: State)
    requires Doomed(s)
    ensures StatusOf(s) in {Stalemate, FiftyMove, InsufficientMaterial}
  {
    if InCheck(s.board, s.variant, s.turn) {
      DeadIsNotMate(s);
    }
  }

  lemma DoomedStep(s: State, m: Move, t: State)
    requires Doomed(s) && Plays(s, m, t)
    ensures Doomed(t)
  {
    StaysValidExactly(s, m);
    FilteredExact(s, PseudoMoves(s), m);
    PseudoMovesExact(s, m);
    MaterialStaysDead(s, m);
  }

  lemma {:induction false} DoomedAlong(ss: seq<State>, ms: seq<Move>, i: nat)
    requires Game(ss, ms) && i < |ss| && Doomed(ss[0])
    ensures Doomed(ss[i])
  {
    if i > 0 {
      DoomedAlong(ss, ms, i - 1);
      DoomedStep(ss[i - 1], ms[i - 1], ss[i]);
    }
  }

  /** From any position the validator accepts with insufficient material, no game of any length reaches checkmate, and
      the game is over, undecided, in every position it passes through. */
  lemma DeadForever(ss: seq<State>, ms: seq<Move>, i: nat)
    requires Game(ss, ms) && i < |ss|
    requires Ordinary(ss[0].variant) && Valid(ss[0]) && DeadMaterial(ss[0].board)
    ensures StatusOf(ss[i]) in {Stalemate, FiftyMove, InsufficientMaterial}
  {
    DoomedAlong(ss, ms, i);
    DoomedStatus(ss[i]);
  }
}
