/** Applying a move, and full legality (packages/chess-core/src/movegen.ts). */
module Play {
  import opened Common
  import opened ChessTypes
  import opened Geometry
  import opened Attack
  import opened Castling
  import opened MoveGen

  predicate IsCastling(m: Move) {
    m.drop.None? && (m.flags.kingCastle || m.flags.queenCastle)
  }

  /** The squares a move names are board indices; a move handed to `applyMove` is not checked further. */
  predicate Indexed(s: State, m: Move) {
    && 0 <= m.to < 128
    && (m.drop.None? ==> 0 <= m.from < 128)
    && (m.castleRook.Some? ==> 0 <= m.castleRook.value < 128)
    && (m.flags.enPassant ==> 0 <= m.to - Forward(s.turn) < 128)
  }

  /** A castling move must also carry its rook's square. */
  predicate Playable(s: State, m: Move) {
    Indexed(s, m) && (IsCastling(m) ==> m.castleRook.Some?)
  }

  function RemoveFirst(pocket: seq<Kind>, k: Kind): seq<Kind> {
    if pocket == [] then []
    else if pocket[0] == k then pocket[1..]
    else [pocket[0]] + RemoveFirst(pocket[1..], k)
  }

  function WithPocket(p: Pockets, c: Color, pocket: seq<Kind>): Pockets {
    if c == White then p.(w := pocket) else p.(b := pocket)
  }

  /** Atomic: the capture square is emptied, and so is every neighbour that holds no pawn. */
  predicate Exploded(b: Board, at: int, sq: int)
    requires 0 <= sq < 128
  {
    sq == at || (OnBoard(sq) && IsKingStep(sq - at) && b[sq].Some? && b[sq].value.kind != Pawn)
  }

  function Explode(b: Board, at: int): Board {
    seq(128, sq requires 0 <= sq < 128 => if Exploded(b, at, sq) then None else b[sq])
  }

  function DropBoard(s: State, m: Move): Board
    requires 0 <= m.to < 128
  {
    s.board[m.to := Some(m.piece)]
  }

  function CastleSideOf(m: Move): CastlingSide {
    if m.flags.kingCastle then KSide else QSide
  }

  /** Both origins are vacated before either destination is written. */
  function CastleBoard(s: State, m: Move): Board
    requires Playable(s, m) && IsCastling(m)
  {
    s.board[m.from := None][m.castleRook.value := None]
      [m.to := Some(Piece(s.turn, King))]
      [CastledRookSquare(s.turn, CastleSideOf(m)) := Some(Piece(s.turn, Rook))]
  }

  function Arriving(s: State, m: Move): Cell
    requires 0 <= m.from < 128
  {
    if m.promotion.Some? then Some(Piece(s.turn, m.promotion.value)) else s.board[m.from]
  }

  function LiftedBoard(s: State, m: Move): Board
    requires Indexed(s, m) && m.drop.None?
  {
    var b := s.board[m.from := None];
    if m.flags.enPassant then b[m.to - Forward(s.turn) := None] else b
  }

  /** The board after an ordinary move, before any explosion. */
  function MovedBoard(s: State, m: Move): Board
    requires Indexed(s, m) && m.drop.None?
  {
    LiftedBoard(s, m)[m.to := Arriving(s, m)]
  }

  function BoardAfter(s: State, m: Move): Board
    requires Playable(s, m)
  {
    if m.drop.Some? then DropBoard(s, m)
    else if IsCastling(m) then CastleBoard(s, m)
    else if s.variant == Atomic && m.captured.Some? then Explode(MovedBoard(s, m), m.to)
    else MovedBoard(s, m)
  }

  function PocketsAfter(s: State, m: Move): Pockets
    requires Playable(s, m)
  {
    var mine := PocketOf(s.pockets, s.turn);
    if m.drop.Some? then WithPocket(s.pockets, s.turn, RemoveFirst(mine, m.drop.value))
    else if s.variant != Crazyhouse || IsCastling(m) then s.pockets
    else if m.flags.enPassant then
      var captured := s.board[m.from := None][m.to - Forward(s.turn)];
      if captured.Some? then WithPocket(s.pockets, s.turn, mine + [Pawn]) else s.pockets
    else if m.captured.Some? && m.captured.value.kind != King then
      WithPocket(s.pockets, s.turn, mine + [m.captured.value.kind])
    else s.pockets
  }

  function EpAfter(s: State, m: Move): int {
    if m.drop.None? && !IsCastling(m) && m.flags.double && RankOf(m.from) == StartRank(s.turn)
    then m.from + Forward(s.turn) else -1
  }

  function HalfmovesAfter(s: State, m: Move): int {
    if m.drop.Some? || (!IsCastling(m) && (m.piece.kind == Pawn || m.captured.Some?)) then 0 else s.halfmoves + 1
  }

  ghost function ChecksAfter(s: State, m: Move): Counters
    requires Playable(s, m)
  {
    if s.variant == ThreeCheck && InCheck(BoardAfter(s, m), s.variant, Opposite(s.turn)) then
      if s.turn == White then s.checkCount.(w := s.checkCount.w + 1) else s.checkCount.(b := s.checkCount.b + 1)
    else s.checkCount
  }

  ghost function Apply(s: State, m: Move): State
    requires Playable(s, m)
  {
    State(BoardAfter(s, m), Opposite(s.turn),
          if m.drop.Some? then s.castling else UpdateCastlingRights(s.castling, m),
          EpAfter(s, m), HalfmovesAfter(s, m),
          if s.turn == Black then s.fullmoves + 1 else s.fullmoves,
          PocketsAfter(s, m), ChecksAfter(s, m), s.variant)
  }

  // ---- the program's own statements, on an array

  method ExplodeInPlace(board: array<Cell>, at: int)
    requires board.Length == 128 && 0 <= at < 128
    modifies board
    ensures board[..] == Explode(old(board[..]), at)
  {
    ghost var was: Board := board[..];
    board[at] := None;
    for i := 0 to |KING_OFFSETS|
      invariant forall sq :: 0 <= sq < 128 ==>
        board[sq] == if sq == at || (sq - at in KING_OFFSETS[..i] && Exploded(was, at, sq)) then None else was[sq]
    {
      var sq := at + KING_OFFSETS[i];
      assert KING_OFFSETS[..i + 1] == KING_OFFSETS[..i] + [KING_OFFSETS[i]];
      assert IsKingStep(sq - at) by { OffsetsAsSteps(sq - at); }
      if OnBoard(sq) && board[sq].Some? && board[sq].value.kind != Pawn {
        board[sq] := None;
      }
    }
    assert KING_OFFSETS[..8] == KING_OFFSETS;
    forall sq | 0 <= sq < 128
      ensures board[sq] == Explode(was, at)[sq]
    {
      OffsetsAsSteps(sq - at);
    }
  }

  lemma {:induction false} SpliceIsRemoveFirst(pocket: seq<Kind>, k: Kind, i: nat)
    requires i <= |pocket| && k !in pocket[..i] && (i < |pocket| ==> pocket[i] == k)
    ensures RemoveFirst(pocket, k) == if i < |pocket| then pocket[..i] + pocket[i + 1..] else pocket
  {
    if i > 0 {
      assert pocket[0] == pocket[..i][0];
      assert pocket[1..][..i - 1] == pocket[..i][1..];
      SpliceIsRemoveFirst(pocket[1..], k, i - 1);
    }
  }

  method TakeFromPocket(pocket: seq<Kind>, k: Kind) returns (rest: seq<Kind>)
    ensures rest == RemoveFirst(pocket, k)
  {
    var i := 0;
    while i < |pocket| && pocket[i] != k
      invariant i <= |pocket| && k !in pocket[..i]
    {
      i := i + 1;
    }
    SpliceIsRemoveFirst(pocket, k, i);
    rest := if i < |pocket| then pocket[..i] + pocket[i + 1..] else pocket;
  }

  datatype MoveError = MissingCastleRook

  /** The general branch: lift the man, take what it captures, set it down, explode. */
  method MoveInPlace(s: State, m: Move, board: array<Cell>) returns (pockets: Pockets)
    requires Playable(s, m) && m.drop.None? && !IsCastling(m)
    requires board.Length == 128 && board[..] == s.board
    modifies board
    ensures board[..] == BoardAfter(s, m)
    ensures pockets == PocketsAfter(s, m)
  {
    var us := s.turn;
    pockets := s.pockets;
    var movingPiece := board[m.from];
    board[m.from] := None;
    if m.flags.enPassant {
      var capturedSq := m.to - Forward(us);
      var captured := board[capturedSq];
      board[capturedSq] := None;
      if s.variant == Crazyhouse && captured.Some? {
        pockets := WithPocket(pockets, us, PocketOf(pockets, us) + [Pawn]);
      }
    } else if m.captured.Some? {
      if s.variant == Crazyhouse && m.captured.value.kind != King {
        pockets := WithPocket(pockets, us, PocketOf(pockets, us) + [m.captured.value.kind]);
      }
    }
    assert board[..] == LiftedBoard(s, m);
    if m.promotion.Some? {
      board[m.to] := Some(Piece(us, m.promotion.value));
    } else {
      board[m.to] := movingPiece;
    }
    assert board[..] == MovedBoard(s, m);
    if s.variant == Atomic && m.captured.Some? {
      ExplodeInPlace(board, m.to);
    }
  }

  method CastleInPlace(s: State, m: Move, board: array<Cell>)
    requires Playable(s, m) && IsCastling(m)
    requires board.Length == 128 && board[..] == s.board
    modifies board
    ensures board[..] == BoardAfter(s, m)
  {
    var side := if m.flags.kingCastle then KSide else QSide;
    var rookTo := CastledRookSquare(s.turn, side);
    board[m.from] := None;
    board[m.castleRook.value] := None;
    board[m.to] := Some(Piece(s.turn, King));
    board[rookTo] := Some(Piece(s.turn, Rook));
  }

  method DropInPlace(s: State, m: Move, board: array<Cell>) returns (pockets: Pockets)
    requires Playable(s, m) && m.drop.Some?
    requires board.Length == 128 && board[..] == s.board
    modifies board
    ensures board[..] == BoardAfter(s, m)
    ensures pockets == PocketsAfter(s, m)
  {
    board[m.to] := Some(m.piece);
    var rest := TakeFromPocket(PocketOf(s.pockets, s.turn), m.drop.value);
    pockets := WithPocket(s.pockets, s.turn, rest);
  }

  method CountCheck(s: State, m: Move, after: Board) returns (checks: Counters)
    requires Playable(s, m) && after == BoardAfter(s, m)
    ensures checks == ChecksAfter(s, m)
  {
    checks := s.checkCount;
    if s.variant == ThreeCheck {
      var check := ComputeInCheck(after, s.variant, Opposite(s.turn));
      if check {
        checks := if s.turn == White then checks.(w := checks.w + 1) else checks.(b := checks.b + 1);
      }
    }
  }

  method ApplyMove(s: State, m: Move) returns (r: Result<State, MoveError>)
    requires Indexed(s, m)
    ensures r == if IsCastling(m) && m.castleRook.None? then Err(MissingCastleRook) else Ok(Apply(s, m))
  {
    var us := s.turn;
    var them := Opposite(us);
    var board := new Cell[128](i requires 0 <= i < 128 => s.board[i]);
    assert board[..] == s.board;
    var castling, epSquare, halfmoves, pockets, checkCount := s.castling, -1, s.halfmoves, s.pockets, s.checkCount;

    if m.drop.Some? {
      pockets := DropInPlace(s, m, board);
      halfmoves := 0;
    } else if m.flags.kingCastle || m.flags.queenCastle {
      if m.castleRook.None? {
        return Err(MissingCastleRook);
      }
      CastleInPlace(s, m, board);
      halfmoves := s.halfmoves + 1;
      castling := UpdateCastlingRights(s.castling, m);
    } else {
      pockets := MoveInPlace(s, m, board);
      if m.flags.double && RankOf(m.from) == StartRank(us) {
        epSquare := m.from + Forward(us);
      }
      if m.piece.kind == Pawn || m.captured.Some? {
        halfmoves := 0;
      } else {
        halfmoves := s.halfmoves + 1;
      }
      castling := UpdateCastlingRights(s.castling, m);
    }
    ghost var after := BoardAfter(s, m);
    assert board[..] == after;
    checkCount := CountCheck(s, m, board[..]);
    var fullmoves := if us == Black then s.fullmoves + 1 else s.fullmoves;
    r := Ok(State(board[..], them, castling, epSquare, halfmoves, fullmoves, pockets, checkCount, s.variant));
  }
}
