/** What a move does to the clocks, the en-passant square, the pockets and the counts, told from the boards before
    and after it (packages/chess-core/src/movegen.ts). */
module Bookkeeping {
  import opened Common
  import opened ChessTypes
  import opened Geometry
  import opened Castling
  import opened MoveGen
  import opened Play
  import opened Legality
  import opened Validity
  import opened LegalPlay
  import opened CastlingMoves
  import opened Rules

  // ---- the halfmove clock

  function Men(b: Board): set<int> {
    set sq | 0 <= sq < 128 && OnBoard(sq) && b[sq].Some?
  }

  function Pawns(b: Board): set<int> {
    set sq | 0 <= sq < 128 && OnBoard(sq) && b[sq].Some? && b[sq].value.kind == Pawn
  }

  /** A man has come or gone, or a pawn has. */
  predicate Changed(b: Board, b': Board) {
    |Men(b)| != |Men(b')| || Pawns(b) != Pawns(b')
  }

  lemma DropAddsAMan(s: State, m: Move)
    requires m in PseudoMoves(s) && m.drop.Some?
    ensures Playable(s, m) && Changed(s.board, BoardAfter(s, m))
  {
    PseudoMovesExact(s, m);
    PseudoIsPlayable(s, m);
    DropFacts(s, m);
    assert Men(BoardAfter(s, m)) == Men(s.board) + {m.to};
  }

  /** The square a man of the board leaves stands empty, unless it castles. */
  lemma LeavesItsSquare(s: State, m: Move)
    requires m in PseudoMoves(s) && m.drop.None? && !IsCastling(m)
    ensures Playable(s, m) && IsBoardMove(s, m) && OnBoard(m.from) && OnBoard(m.to) && m.from != m.to
    ensures s.board[m.from] == Some(m.piece) && BoardAfter(s, m)[m.from].None?
  {
    PseudoMovesExact(s, m);
    PseudoIsPlayable(s, m);
    BoardMoveFacts(s, m);
    GoesElsewhere(s, m);
    BoardFollowsTheRules(s, m, m.from);
  }

  lemma GoesElsewhere(s: State, m: Move)
    requires IsBoardMove(s, m) && !IsCastling(m)
    ensures m.from != m.to
  {
    GeneratorFollowsTheRules(s, m);
    PseudoMovesExact(s, m);
  }

  lemma PawnLeaves(s: State, m: Move)
    requires m in PseudoMoves(s) && m.drop.None? && m.piece.kind == Pawn
    ensures Playable(s, m) && Changed(s.board, BoardAfter(s, m))
  {
    PseudoMovesExact(s, m);
    LeavesItsSquare(s, m);
    assert m.from in Pawns(s.board) && m.from !in Pawns(BoardAfter(s, m));
  }

  /** Where a man is taken by another than a pawn, nobody comes and the captor's square falls empty. */
  lemma CaptureTakesAMan(s: State, m: Move)
    requires m in PseudoMoves(s) && m.drop.None? && m.piece.kind != Pawn && m.captured.Some?
    ensures Playable(s, m) && Changed(s.board, BoardAfter(s, m))
  {
    PseudoMovesExact(s, m);
    CapturesAreOrdinary(s, m);
    LeavesItsSquare(s, m);
    var b' := BoardAfter(s, m);
    forall sq | sq in Men(b') ensures sq in Men(s.board) - {m.from} {
      BoardFollowsTheRules(s, m, sq);
    }
    assert m.from in Men(s.board);
    Smaller(Men(b'), Men(s.board) - {m.from});
  }

  lemma Smaller(a: set<int>, b: set<int>)
    requires a <= b
    ensures |a| <= |b|
  {
    assert b == a + (b - a);
  }

  lemma OneManMoved(b: Board, b': Board, from: int, to: int)
    requires OnBoard(from) && OnBoard(to) && from != to && b[from].Some? && b[from].value.kind != Pawn && b[to].None?
    requires forall sq :: OnBoard(sq) ==> b'[sq] == if sq == from then None else if sq == to then b[from] else b[sq]
    ensures !Changed(b, b')
  {
    assert Men(b') == Men(b) - {from} + {to};
    assert from in Men(b) && to !in Men(b);
    assert Pawns(b') == Pawns(b);
  }

  lemma QuietMoveKeeps(s: State, m: Move)
    requires m in PseudoMoves(s) && m.drop.None? && !IsCastling(m) && m.piece.kind != Pawn && m.captured.None?
    ensures Playable(s, m) && !Changed(s.board, BoardAfter(s, m))
  {
    LeavesItsSquare(s, m);
    forall sq | OnBoard(sq)
      ensures BoardAfter(s, m)[sq] == if sq == m.from then None else if sq == m.to then s.board[m.from] else s.board[sq]
    {
      BoardFollowsTheRules(s, m, sq);
    }
    OneManMoved(s.board, BoardAfter(s, m), m.from, m.to);
  }

  lemma BothExchanged(men: set<int>, a: int, b: int, c: int, d: int)
    requires a in men && b in men && a != b && c != d && c !in men - {a, b} && d !in men - {a, b}
    ensures |men - {a, b} + {c, d}| == |men|
  {
    assert |men - {a, b}| == |men| - |{a, b}|;
  }

  /** King and rook go from `k` and `r` to `k'` and `r'`, which they leave or find empty; the rest stays. */
  ghost predicate KingAndRookMoved(b: Board, b': Board, k: int, r: int, k': int, r': int) {
    && OnBoard(k) && OnBoard(r) && OnBoard(k') && OnBoard(r') && k != r && k' != r'
    && b[k].Some? && b[r].Some? && b[k].value.kind != Pawn && b[r].value.kind != Pawn
    && (k' == k || k' == r || b[k'].None?) && (r' == k || r' == r || b[r'].None?)
    && b'[k'] == b[k] && b'[r'] == b[r]
    && forall sq :: OnBoard(sq) && sq != k' && sq != r' ==> b'[sq] == if sq == k || sq == r then None else b[sq]
  }

  lemma MovedAt(b: Board, b': Board, k: int, r: int, k': int, r': int, sq: int)
    requires KingAndRookMoved(b, b', k, r, k', r')
    ensures sq in Men(b') <==> sq in Men(b) - {k, r} + {k', r'}
    ensures sq in Pawns(b') <==> sq in Pawns(b)
  {
    if OnBoard(sq) && sq != k' && sq != r' {
      assert b'[sq] == if sq == k || sq == r then None else b[sq];
    }
  }

  lemma KingAndRookKeep(b: Board, b': Board, k: int, r: int, k': int, r': int)
    requires KingAndRookMoved(b, b', k, r, k', r')
    ensures !Changed(b, b')
  {
    forall sq
      ensures sq in Men(b') <==> sq in Men(b) - {k, r} + {k', r'}
      ensures sq in Pawns(b') <==> sq in Pawns(b)
    {
      MovedAt(b, b', k, r, k', r', sq);
    }
    assert Men(b') == Men(b) - {k, r} + {k', r'};
    BothExchanged(Men(b), k, r, k', r');
    assert Pawns(b') == Pawns(b);
  }

  lemma CastleKeeps(s: State, m: Move)
    requires m in PseudoMoves(s) && IsCastling(m)
    ensures Playable(s, m) && !Changed(s.board, BoardAfter(s, m))
  {
    CastleEnds(s, m);
    CastleDestinations(s, m);
    var rook, rookTo := m.castleRook.value, CastledRookSquare(s.turn, CastleSideOf(m));
    CastleCell(s, m, m.to);
    CastleCell(s, m, rookTo);
    forall sq | OnBoard(sq) && sq != m.to && sq != rookTo
      ensures BoardAfter(s, m)[sq] == if sq == m.from || sq == rook then None else s.board[sq]
    {
      CastleCell(s, m, sq);
    }
    KingAndRookKeep(s.board, BoardAfter(s, m), m.from, rook, m.to, rookTo);
  }

  /** The clock starts again exactly when the number of men or the squares of the pawns have changed. */
  lemma ClockExactly(s: State, m: Move)
    requires m in PseudoMoves(s)
    ensures Playable(s, m)
    ensures Apply(s, m).halfmoves == if Changed(s.board, Apply(s, m).board) then 0 else s.halfmoves + 1
  {
    PseudoMovesExact(s, m);
    if m.drop.Some? {
      DropAddsAMan(s, m);
    } else if IsCastling(m) {
      CastleKeeps(s, m);
    } else if m.piece.kind == Pawn {
      PawnLeaves(s, m);
    } else if m.captured.Some? {
      CaptureTakesAMan(s, m);
    } else {
      QuietMoveKeeps(s, m);
    }
  }

  lemma PlayedClock(s: State, m: Move, t: State)
    requires Plays(s, m, t)
    ensures t.halfmoves == if Changed(s.board, t.board) then 0 else s.halfmoves + 1
  {
    FilteredExact(s, PseudoMoves(s), m);
    ClockExactly(s, m);
  }

  /** Over a game the clock counts the moves since the last change, or adds them all to the clock it began with. */
  lemma {:induction false} ClockCounts(ss: seq<State>, ms: seq<Move>, k: nat, i: nat)
    requires Game(ss, ms) && k <= i < |ss|
    requires k > 0 ==> Changed(ss[k - 1].board, ss[k].board)
    requires forall j :: k <= j < i ==> !Changed(ss[j].board, ss[j + 1].board)
    ensures ss[i].halfmoves == i - k + if k > 0 then 0 else ss[0].halfmoves
  {
    if k < i {
      ClockCounts(ss, ms, k, i - 1);
      assert Plays(ss[i - 1], ms[i - 1], ss[i]);
      PlayedClock(ss[i - 1], ms[i - 1], ss[i]);
    } else if k > 0 {
      assert Plays(ss[k - 1], ms[k - 1], ss[k]);
      PlayedClock(ss[k - 1], ms[k - 1], ss[k]);
    }
  }

  // ---- the en-passant square

  /** It is the cell a pawn of the mover has jumped over from its second rank, and otherwise none. */
  lemma EpIsJumpedOver(s: State, m: Move)
    requires m in PseudoMoves(s)
    ensures Playable(s, m)
    ensures Apply(s, m).epSquare ==
            if m.drop == None && OnBoard(m.from) && s.board[m.from] == Some(Piece(s.turn, Pawn))
               && m.from / 16 == (if s.turn == White then 1 else 6)
               && m.to == m.from + (if s.turn == White then 32 else -32)
            then (m.from + m.to) / 2 else -1
  {
    PseudoMovesExact(s, m);
    PseudoIsPlayable(s, m);
    DoublePushes(s, m);
    if m.drop.Some? {
      DropFacts(s, m);
    } else {
      BoardMoveFacts(s, m);
      if m.piece.kind == Pawn && !m.flags.double {
        TwoRanksIsDouble(s, m);
      }
    }
  }

  lemma TwoRanksIsDouble(s: State, m: Move)
    requires IsBoardMove(s, m) && m.piece.kind == Pawn && !m.flags.double
    ensures m.to - m.from != 32 && m.to - m.from != -32
  {
  }

  // ---- whose turn, and the move number

  lemma {:induction false} MovesAreNumbered(ss: seq<State>, ms: seq<Move>, i: nat)
    requires Game(ss, ms) && i < |ss|
    ensures ss[i].turn == if i % 2 == 0 then ss[0].turn else if ss[0].turn == White then Black else White
    ensures ss[i].fullmoves == ss[0].fullmoves + (if ss[0].turn == White then i / 2 else (i + 1) / 2)
  {
    if i > 0 {
      MovesAreNumbered(ss, ms, i - 1);
      assert Plays(ss[i - 1], ms[i - 1], ss[i]);
    }
  }

  // ---- checks given

  /** How many of the first `n` moves were given by `c` with check. */
  ghost function ChecksGiven(ss: seq<State>, c: Color, n: nat): nat
    requires n < |ss|
  {
    if n == 0 then 0
    else
      ChecksGiven(ss, c, n - 1) +
      if ss[n - 1].turn == c && Checked(ss[n].board, ss[n].variant, ss[n].turn) then 1 else 0
  }

  /** In Three-Check the counts are the checks given, and elsewhere they do not move. */
  lemma {:induction false} ChecksAreCounted(ss: seq<State>, ms: seq<Move>, i: nat)
    requires Game(ss, ms) && i < |ss|
    ensures ss[i].variant == ss[0].variant
    ensures var v, c, c0 := ss[0].variant, ss[i].checkCount, ss[0].checkCount;
            && c.w == c0.w + (if v == ThreeCheck then ChecksGiven(ss, White, i) else 0)
            && c.b == c0.b + (if v == ThreeCheck then ChecksGiven(ss, Black, i) else 0)
  {
    if i > 0 {
      ChecksAreCounted(ss, ms, i - 1);
      assert Plays(ss[i - 1], ms[i - 1], ss[i]);
      InCheckIsChecked(ss[i].board, ss[i].variant, ss[i].turn);
    }
  }
}
