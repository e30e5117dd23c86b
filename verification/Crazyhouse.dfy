/** Crazyhouse: where men go that are taken or dropped, and that none is lost or made
    (packages/chess-core/src/movegen.ts). */
module Crazyhouse {
  import opened Common
  import opened ChessTypes
  import opened Geometry
  import opened Castling
  import opened MoveGen
  import opened Play
  import opened Legality
  import opened Validity
  import opened LegalPlay
  import opened CastlingMoves
  import opened Rights
  import opened Rules

  // ---- one pocket

  /** What an ordinary move takes: the man on its square, or in passing the one beside its start. */
  function TakenBy(s: State, m: Move): Cell {
    if m.drop.Some? || m.flags.kingCastle || m.flags.queenCastle then None
    else if m.flags.enPassant then (if 0 <= Beside(m) < 128 then s.board[Beside(m)] else None)
    else if 0 <= m.to < 128 then s.board[m.to]
    else None
  }

  lemma {:induction false} RemovedOnce(pocket: seq<Kind>, k: Kind)
    requires k in pocket
    ensures multiset(RemoveFirst(pocket, k)) == multiset(pocket) - multiset{k}
  {
    assert pocket == [pocket[0]] + pocket[1..];
    if pocket[0] != k {
      RemovedOnce(pocket[1..], k);
    }
  }

  ghost predicate PocketsFollow(s: State, m: Move, p: Pockets, p': Pockets) {
    var us := s.turn;
    if s.variant != Crazyhouse then p' == p
    else
      && PocketOf(p', Opposite(us)) == PocketOf(p, Opposite(us))
      && if m.drop.Some? then
           && m.drop.value in PocketOf(p, us)
           && multiset(PocketOf(p', us)) == multiset(PocketOf(p, us)) - multiset{m.drop.value}
         else if TakenBy(s, m).Some? then
           PocketOf(p', us) == PocketOf(p, us) + [if m.flags.enPassant then Pawn else TakenBy(s, m).value.kind]
         else p' == p
  }

  /** The mover's pocket loses the man it drops and gains the man it takes, a pawn when it takes in passing; the
      other pocket, and in other variants both, stay as they are. */
  lemma PocketsExactly(s: State, m: Move)
    requires m in LegalMoves(s)
    ensures Playable(s, m)
    ensures PocketsFollow(s, m, s.pockets, Apply(s, m).pockets)
  {
    LegalMovesExact(s, m);
    PseudoIsPlayable(s, m);
    if m.drop.Some? {
      DropFacts(s, m);
      RemovedOnce(PocketOf(s.pockets, s.turn), m.drop.value);
    } else {
      BoardMoveFacts(s, m);
      MovePocketsExactly(s, m);
    }
  }

  lemma MovePocketsExactly(s: State, m: Move)
    requires m in LegalMoves(s) && m.drop.None? && Playable(s, m) && OnBoard(m.to) && IsBoardMove(s, m)
    ensures PocketsFollow(s, m, s.pockets, PocketsAfter(s, m))
  {
    LegalMovesExact(s, m);
    if IsCastling(m) {
      OnlyKingsCastle(s, m);
      CastleFacts(s, m);
    } else {
      TakenIsCaptured(s, m);
    }
  }

  lemma TakenIsCaptured(s: State, m: Move)
    requires IsBoardMove(s, m) && !IsCastling(m) && OnBoard(m.to) && Playable(s, m)
    ensures !m.flags.enPassant ==> m.captured == s.board[m.to]
    ensures m.flags.enPassant ==>
              Beside(m) == m.to - Forward(s.turn) && Beside(m) != m.from && 0 <= Beside(m) < 128 && m.from != m.to
  {
    if m.flags.enPassant {
      StrikeAgrees(s.board, m);
    }
  }

  // ---- men of one kind, on the board and in the pockets

  function One(c: Cell, k: Kind): int {
    if c.Some? && c.value.kind == k then 1 else 0
  }

  /** The men of kind `k` on the first `n` cells. */
  function MenUpTo(b: Board, n: nat, k: Kind): int
    requires n <= |b|
    decreases n, b
  {
    if n == 0 then 0 else MenUpTo(b, n - 1, k) + One(b[n - 1], k)
  }

  function MenOnBoard(b: Board, k: Kind): int {
    MenUpTo(b, |b|, k)
  }

  function Stock(s: State, k: Kind): int {
    MenOnBoard(s.board, k) + InPockets(s.pockets, k)
  }

  lemma {:induction false} WriteCountsUpTo(b: Board, sq: int, c: Cell, k: Kind, n: nat)
    requires 0 <= sq < 128 && n <= 128
    ensures MenUpTo(b[sq := c], n, k) == MenUpTo(b, n, k) + if sq < n then One(c, k) - One(b[sq], k) else 0
  {
    if n > 0 {
      WriteCountsUpTo(b, sq, c, k, n - 1);
    }
  }

  lemma WriteCounts(b: Board, sq: int, c: Cell, k: Kind)
    requires 0 <= sq < 128
    ensures MenOnBoard(b[sq := c], k) == MenOnBoard(b, k) - One(b[sq], k) + One(c, k)
  {
    WriteCountsUpTo(b, sq, c, k, |b|);
  }

  lemma DropCounts(s: State, m: Move, k: Kind)
    requires IsPseudo(s, m) && m.drop.Some? && Playable(s, m)
    ensures Stock(Apply(s, m), k) == Stock(s, k)
  {
    DropFacts(s, m);
    WriteCounts(s.board, m.to, Some(m.piece), k);
    RemovedOnce(PocketOf(s.pockets, s.turn), m.drop.value);
  }

  /** Lifting two men and setting them down on squares then empty. */
  lemma TwoMenCount(b: Board, i: int, j: int, x: int, y: int, p: Cell, q: Cell, k: Kind)
    requires 0 <= i < 128 && 0 <= j < 128 && 0 <= x < 128 && 0 <= y < 128 && i != j && x != y
    requires b[i] == p && b[j] == q
    requires (x == i || x == j || b[x] == None) && (y == i || y == j || b[y] == None)
    ensures MenOnBoard(b[i := None][j := None][x := p][y := q], k) == MenOnBoard(b, k)
  {
    var b1: Board := b[i := None];
    var b2: Board := b1[j := None];
    var b3: Board := b2[x := p];
    WriteCounts(b, i, None, k);
    WriteCounts(b1, j, None, k);
    WriteCounts(b2, x, p, k);
    WriteCounts(b3, y, q, k);
  }

  lemma CastleCounts(s: State, m: Move, k: Kind)
    requires m in PseudoMoves(s) && IsCastling(m)
    ensures Playable(s, m) && Stock(Apply(s, m), k) == Stock(s, k)
  {
    CastleEnds(s, m);
    FreeDestinations(s, m);
    TwoMenCount(s.board, m.from, m.castleRook.value, m.to, CastledRookSquare(s.turn, CastleSideOf(m)),
                Some(Piece(s.turn, King)), Some(Piece(s.turn, Rook)), k);
  }

  lemma MovedCounts(s: State, m: Move, k: Kind)
    requires IsBoardMove(s, m) && m.drop.None? && !IsCastling(m) && OnBoard(m.to) && Playable(s, m)
    requires EpFits(s.board, s.turn, s.epSquare) && m.from != m.to
    ensures MenOnBoard(MovedBoard(s, m), k) ==
            MenOnBoard(s.board, k) - One(Some(m.piece), k) - One(m.captured, k) + One(Arriving(s, m), k)
  {
    CapturedStood(s, m);
    TakenIsCaptured(s, m);
    WriteCounts(s.board, m.from, None, k);
    var b: Board := s.board[m.from := None];
    if m.flags.enPassant {
      WriteCounts(b, Beside(m), None, k);
    }
    WriteCounts(LiftedBoard(s, m), m.to, Arriving(s, m), k);
  }

  function InPockets(p: Pockets, k: Kind): int {
    multiset(p.w)[k] + multiset(p.b)[k]
  }

  lemma OneMoreInPocket(p: Pockets, p': Pockets, us: Color, x: Kind, k: Kind)
    requires PocketOf(p', us) == PocketOf(p, us) + [x] && PocketOf(p', Opposite(us)) == PocketOf(p, Opposite(us))
    ensures InPockets(p', k) == InPockets(p, k) + if x == k then 1 else 0
  {
  }

  lemma PocketTakes(s: State, m: Move)
    requires m in LegalMoves(s) && s.variant == Crazyhouse && m.drop.None? && !IsCastling(m) && IsBoardMove(s, m)
    requires EpFits(s.board, s.turn, s.epSquare) && Playable(s, m) && OnBoard(m.to)
    ensures var us := s.turn; var p, p' := s.pockets, Apply(s, m).pockets;
            if m.captured.None? then p' == p
            else PocketOf(p', us) == PocketOf(p, us) + [m.captured.value.kind] &&
                 PocketOf(p', Opposite(us)) == PocketOf(p, Opposite(us))
  {
    LegalMovesExact(s, m);
    CapturedStood(s, m);
  }

  lemma PocketCounts(s: State, m: Move, k: Kind)
    requires m in LegalMoves(s) && s.variant == Crazyhouse && m.drop.None? && !IsCastling(m) && IsBoardMove(s, m)
    requires EpFits(s.board, s.turn, s.epSquare) && Playable(s, m) && OnBoard(m.to)
    ensures InPockets(Apply(s, m).pockets, k) == InPockets(s.pockets, k) + One(m.captured, k)
  {
    PocketTakes(s, m);
    if m.captured.Some? {
      OneMoreInPocket(s.pockets, Apply(s, m).pockets, s.turn, m.captured.value.kind, k);
    }
  }

  /** A promotion makes a man of the new kind out of a pawn. */
  function Made(m: Move, k: Kind): int {
    (if m.promotion == Some(k) then 1 else 0) - (if m.promotion.Some? && k == Pawn then 1 else 0)
  }

  /** A legal Crazyhouse move loses and makes no man: board and pockets together hold as many of each kind as before,
      but for the pawn that is promoted. */
  lemma KindsConserved(s: State, m: Move, k: Kind)
    requires m in LegalMoves(s) && s.variant == Crazyhouse && EpFits(s.board, s.turn, s.epSquare)
    ensures Playable(s, m)
    ensures Stock(Apply(s, m), k) == Stock(s, k) + Made(m, k)
  {
    LegalMovesExact(s, m);
    PseudoMovesExact(s, m);
    PseudoIsPlayable(s, m);
    if m.drop.Some? {
      DropFacts(s, m);
      DropCounts(s, m, k);
    } else {
      BoardMoveFacts(s, m);
      if IsCastling(m) {
        OnlyKingsCastle(s, m);
        CastleFacts(s, m);
        CastleCounts(s, m, k);
      } else {
        OrdinaryCounts(s, m, k);
      }
    }
  }

  lemma OrdinaryCounts(s: State, m: Move, k: Kind)
    requires m in LegalMoves(s) && s.variant == Crazyhouse && EpFits(s.board, s.turn, s.epSquare)
    requires m.drop.None? && !IsCastling(m) && IsBoardMove(s, m) && Playable(s, m) && OnBoard(m.to)
    ensures Stock(Apply(s, m), k) == Stock(s, k) + Made(m, k)
  {
    LeavesSquare(s, m);
    CapturedStood(s, m);
    MovedCounts(s, m, k);
    PocketCounts(s, m, k);
  }

  lemma LeavesSquare(s: State, m: Move)
    requires IsBoardMove(s, m) && !IsCastling(m)
    ensures m.from != m.to
  {
    GeneratorFollowsTheRules(s, m);
    PseudoMovesExact(s, m);
  }

  // ---- over a game

  lemma {:induction false} VariantStays(ss: seq<State>, ms: seq<Move>, i: nat)
    requires Game(ss, ms) && i < |ss|
    ensures ss[i].variant == ss[0].variant
  {
    if i > 0 {
      VariantStays(ss, ms, i - 1);
      assert Plays(ss[i - 1], ms[i - 1], ss[i]);
    }
  }

  predicate CrazyhouseStart(s: State) {
    s.variant == Crazyhouse && EpFits(s.board, s.turn, s.epSquare)
  }

  lemma StockNext(ss: seq<State>, ms: seq<Move>, i: nat, k: Kind)
    requires Game(ss, ms) && i < |ms| && CrazyhouseStart(ss[0])
    ensures Stock(ss[i + 1], k) == Stock(ss[i], k) + Made(ms[i], k)
  {
    VariantStays(ss, ms, i);
    assert Plays(ss[i], ms[i], ss[i + 1]);
    if i > 0 {
      FitsAfterFirst(ss, ms, i);
    }
    KindsConserved(ss[i], ms[i], k);
  }

  /** Men of each kind made, over the first moves, by promoting pawns. */
  function MadeBy(ms: seq<Move>, n: nat, k: Kind): int
    requires n <= |ms|
  {
    if n == 0 then 0 else MadeBy(ms, n - 1, k) + Made(ms[n - 1], k)
  }

  ghost predicate AddsUp(ss: seq<State>, ms: seq<Move>, i: nat, k: Kind) {
    i < |ss| == |ms| + 1 && Stock(ss[i], k) == Stock(ss[0], k) + MadeBy(ms, i, k)
  }

  lemma AddsUpNext(ss: seq<State>, ms: seq<Move>, i: nat, k: Kind)
    requires AddsUp(ss, ms, i, k) && i < |ms| && Stock(ss[i + 1], k) == Stock(ss[i], k) + Made(ms[i], k)
    ensures AddsUp(ss, ms, i + 1, k)
  {
  }

  lemma GameAddsUp(ss: seq<State>, ms: seq<Move>, i: nat, k: Kind)
    requires Game(ss, ms) && i < |ms| && CrazyhouseStart(ss[0]) && AddsUp(ss, ms, i, k)
    ensures AddsUp(ss, ms, i + 1, k)
  {
    StockNext(ss, ms, i, k);
    AddsUpNext(ss, ms, i, k);
  }

  /** Over any Crazyhouse game the men of each kind, on the board and in the pockets, are those it began with, but
      for the pawns promoted on the way. */
  lemma {:induction false} NoManIsLost(ss: seq<State>, ms: seq<Move>, i: nat, k: Kind)
    requires Game(ss, ms) && i < |ss| && CrazyhouseStart(ss[0])
    ensures AddsUp(ss, ms, i, k)
  {
    if i > 0 {
      NoManIsLost(ss, ms, i - 1, k);
      GameAddsUp(ss, ms, i - 1, k);
    }
  }
}
