/** Fully legal moves and lines of play (packages/chess-core/src/movegen.ts). */
module Legality {
  import opened ChessTypes
  import opened Geometry
  import opened Attack
  import opened MoveGen
  import opened MoveGenerator
  import opened Play

  /** May `us` have left the board like this? */
  ghost predicate LegalAfter(v: Variant, after: Board, us: Color) {
    match v
    case Atomic =>
      KingSquare(after, us) != -1 &&
      (KingSquare(after, Opposite(us)) == -1 || !InCheck(after, v, us))
    case RacingKings => !InCheck(after, v, us) && !InCheck(after, v, Opposite(us))
    case _ =>
      var k := KingSquare(after, us);
      if k == -1 then v == Horde else !Attacked(after, k, Opposite(us))
  }

  method IsLegalAfter(v: Variant, after: Board, us: Color) returns (r: bool)
    ensures r == LegalAfter(v, after, us)
  {
    var mine := FindKing(after, us);
    if v == Atomic {
      if mine == -1 {
        return false;
      }
      var theirs := FindKing(after, Opposite(us));
      if theirs == -1 {
        return true;
      }
      r := ComputeInCheck(after, v, us);
      return !r;
    }
    if v == RacingKings {
      r := ComputeInCheck(after, v, us);
      if r {
        return false;
      }
      r := ComputeInCheck(after, v, Opposite(us));
      return !r;
    }
    if mine == -1 {
      return v == Horde;
    }
    r := IsSquareAttacked(after, mine, Opposite(us));
    r := !r;
  }

  predicate CapturesKing(m: Move) {
    m.captured.Some? && m.captured.value.kind == King
  }

  /** The filter the program puts on the pseudo-legal list. */
  ghost predicate Allowed(s: State, m: Move) {
    && Playable(s, m)
    && !(s.variant != Atomic && CapturesKing(m))
    && LegalAfter(s.variant, BoardAfter(s, m), s.turn)
  }

  ghost function Filtered(s: State, ms: seq<Move>): seq<Move> {
    if ms == [] then []
    else
      var i := |ms| - 1;
      Filtered(s, ms[..i]) + if Allowed(s, ms[i]) then [ms[i]] else []
  }

  ghost function LegalMoves(s: State): seq<Move> {
    Filtered(s, PseudoMoves(s))
  }

  ghost predicate IsLegal(s: State, m: Move) {
    IsPseudo(s, m) && Allowed(s, m)
  }

  lemma {:induction false} FilteredExact(s: State, ms: seq<Move>, m: Move)
    ensures m in Filtered(s, ms) <==> m in ms && Allowed(s, m)
  {
    if ms != [] {
      var i := |ms| - 1;
      FilteredExact(s, ms[..i], m);
      assert ms == ms[..i] + [ms[i]];
    }
  }

  lemma LegalMovesExact(s: State, m: Move)
    ensures m in LegalMoves(s) <==> IsLegal(s, m)
  {
    FilteredExact(s, PseudoMoves(s), m);
    PseudoMovesExact(s, m);
  }

  lemma PseudoIsPlayable(s: State, m: Move)
    requires IsPseudo(s, m)
    ensures Playable(s, m)
    ensures m.drop.None? ==> OnBoard(m.from)
    ensures OnBoard(m.to)
    ensures m.castleRook.Some? ==> OnBoard(m.castleRook.value)
  {
    if IsBoardMove(s, m) && IsCastle(s, m.from, m) {
      var side :| CanCastle(s, m.from, m.piece.color, side) && m == CastleMove(s, m.from, m.piece, side);
      CoordinatesSquare(Right(s.castling, m.piece.color, side), BackRank(m.piece.color));
      CoordinatesSquare(if side == KSide then 6 else 2, BackRank(m.piece.color));
    }
  }

  method GenerateLegalMoves(s: State) returns (legal: seq<Move>)
    ensures legal == LegalMoves(s)
  {
    var pseudo := GeneratePseudoLegal(s);
    legal := [];
    for i := 0 to |pseudo|
      invariant legal == Filtered(s, pseudo[..i])
    {
      var m := pseudo[i];
      assert pseudo[..i + 1][..i] == pseudo[..i];
      PseudoMovesExact(s, m);
      PseudoIsPlayable(s, m);
      if s.variant != Atomic && m.captured.Some? && m.captured.value.kind == King {
        continue;
      }
      var next := ApplyMove(s, m);
      var ok := IsLegalAfter(s.variant, next.value.board, s.turn);
      if ok {
        legal := legal + [m];
      }
    }
    assert pseudo[..|pseudo|] == pseudo;
  }

  lemma LegalIsPlayable(s: State, m: Move)
    requires m in LegalMoves(s)
    ensures Playable(s, m)
  {
    FilteredExact(s, PseudoMoves(s), m);
  }

  // ---- games

  /** `t` is the position after the generated legal move `m` is played in `s`. */
  ghost predicate Plays(s: State, m: Move, t: State) {
    m in LegalMoves(s) && Playable(s, m) && t == Apply(s, m)
  }

  /** The positions `ss` follow each other by the legal moves `ms`. */
  ghost predicate Game(ss: seq<State>, ms: seq<Move>) {
    |ss| == |ms| + 1 && forall i {:trigger ms[i]} :: 0 <= i < |ms| ==> Plays(ss[i], ms[i], ss[i + 1])
  }
}
