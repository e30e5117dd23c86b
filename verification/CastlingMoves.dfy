/** What a generated castle does to the board, for every overlap of the four squares involved
    (packages/chess-core/src/movegen.ts). */
module CastlingMoves {
  import opened Common
  import opened ChessTypes
  import opened Geometry
  import opened Attack
  import opened Castling
  import opened MoveGen
  import opened Play
  import opened Legality
  import opened Validity
  import opened LegalPlay

  lemma TwoExchanges<T>(m: multiset<T>, m1: multiset<T>, m2: multiset<T>, m3: multiset<T>, m4: multiset<T>, p: T,
                        q: T, z: T)
    requires p in m && m1 == m - multiset{p} + multiset{z}
    requires q in m1 && m2 == m1 - multiset{q} + multiset{z}
    requires z in m2 && m3 == m2 - multiset{z} + multiset{p}
    requires z in m3 && m4 == m3 - multiset{z} + multiset{q}
    ensures m4 == m
  {
  }

  /** Writing `v` where `u` stood exchanges the two. */
  ghost predicate Exchanged<T>(b: seq<T>, c: seq<T>, u: T, v: T) {
    u in multiset(b) && multiset(c) == multiset(b) - multiset{u} + multiset{v}
  }

  lemma WriteExchanges<T>(b: seq<T>, i: int, u: T, v: T)
    requires 0 <= i < |b| && b[i] == u
    ensures Exchanged(b, b[i := v], u, v)
  {
    assert b[i] in b;
  }

  lemma FourWrites<T>(b: seq<T>, b1: seq<T>, b2: seq<T>, b3: seq<T>, b4: seq<T>, p: T, q: T, z: T)
    requires Exchanged(b, b1, p, z) && Exchanged(b1, b2, q, z) && Exchanged(b2, b3, z, p) && Exchanged(b3, b4, z, q)
    ensures multiset(b4) == multiset(b)
  {
    TwoExchanges(multiset(b), multiset(b1), multiset(b2), multiset(b3), multiset(b4), p, q, z);
  }

  /** Lifting two men and setting them down on squares that are then free (`z`) conserves the men. */
  lemma TwoMenMoved<T>(b: seq<T>, i: int, j: int, x: int, y: int, p: T, q: T, z: T)
    requires 0 <= i < |b| && 0 <= j < |b| && 0 <= x < |b| && 0 <= y < |b| && i != j && x != y
    requires b[i] == p && b[j] == q
    requires (x == i || x == j || b[x] == z) && (y == i || y == j || b[y] == z)
    ensures multiset(b[i := z][j := z][x := p][y := q]) == multiset(b)
  {
    var b1 := b[i := z];
    var b2 := b1[j := z];
    var b3 := b2[x := p];
    WriteExchanges(b, i, p, z);
    WriteExchanges(b1, j, q, z);
    WriteExchanges(b2, x, z, p);
    WriteExchanges(b3, y, z, q);
    FourWrites(b, b1, b2, b3, b3[y := q], p, q, z);
  }

  /** Where a generated castle starts and where it goes. */
  lemma CastleEnds(s: State, m: Move)
    requires m in PseudoMoves(s) && IsCastling(m)
    ensures IsBoardMove(s, m) && Playable(s, m) && m.drop.None? && s.board[m.from] == Some(Piece(s.turn, King))
    ensures var side := CastleSideOf(m); var rook := RookSquare(s.turn, Right(s.castling, s.turn, side));
            && m.castleRook == Some(rook) && m.to == CastledKingSquare(s.turn, side)
            && Holds(s.board, rook, s.turn, Rook) && OnBoard(m.to) && OnBoard(CastledRookSquare(s.turn, side))
            && m.to != CastledRookSquare(s.turn, side)
  {
    PseudoMovesExact(s, m);
    PseudoIsPlayable(s, m);
    OnlyKingsCastle(s, m);
    CastleFacts(s, m);
    CastleDestinations(s, m);
  }

  lemma FreeDestinations(s: State, m: Move)
    requires m in PseudoMoves(s) && IsCastling(m)
    ensures m.castleRook.Some?
    ensures var rookFrom, rookTo := m.castleRook.value, CastledRookSquare(s.turn, CastleSideOf(m));
            && m.from != rookFrom && 0 <= m.from < 128 && 0 <= rookFrom < 128
            && (m.to == m.from || m.to == rookFrom || (0 <= m.to < 128 && s.board[m.to].None?))
            && (rookTo == m.from || rookTo == rookFrom || (0 <= rookTo < 128 && s.board[rookTo].None?))
  {
    CastleEnds(s, m);
    CastleDestinations(s, m);
  }

  /** A generated castle moves one king and one rook and creates or destroys nothing. */
  lemma CastleConserves(s: State, m: Move)
    requires m in PseudoMoves(s) && IsCastling(m)
    ensures Playable(s, m)
    ensures multiset(BoardAfter(s, m)) == multiset(s.board)
  {
    CastleEnds(s, m);
    FreeDestinations(s, m);
    TwoMenMoved(s.board, m.from, m.castleRook.value, m.to, CastledRookSquare(s.turn, CastleSideOf(m)),
                Some(Piece(s.turn, King)), Some(Piece(s.turn, Rook)), None);
  }

  /** It relocates exactly the castling king and the rook its right names, and leaves the rest alone. */
  lemma CastleRelocates(s: State, m: Move, t: int)
    requires m in PseudoMoves(s) && IsCastling(m) && 0 <= t < 128
    ensures Playable(s, m)
    ensures var side := CastleSideOf(m); var rookFrom := RookSquare(s.turn, Right(s.castling, s.turn, side));
            var kingTo, rookTo := CastledKingSquare(s.turn, side), CastledRookSquare(s.turn, side);
            && m.castleRook == Some(rookFrom) && m.to == kingTo
            && Holds(s.board, m.from, s.turn, King) && Holds(s.board, rookFrom, s.turn, Rook)
            && Holds(BoardAfter(s, m), kingTo, s.turn, King) && Holds(BoardAfter(s, m), rookTo, s.turn, Rook)
            && (t in {m.from, rookFrom} && t !in {kingTo, rookTo} ==> BoardAfter(s, m)[t].None?)
            && (t !in {m.from, rookFrom, kingTo, rookTo} ==> BoardAfter(s, m)[t] == s.board[t])
  {
    CastleEnds(s, m);
    CastleCell(s, m, m.to);
    CastleCell(s, m, CastledRookSquare(s.turn, CastleSideOf(m)));
    CastleCell(s, m, t);
  }
}
