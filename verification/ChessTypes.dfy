/** The values a chess position and a chess move are made of (packages/chess-core/src/types.ts). */
module ChessTypes {
  import opened Common

  datatype Color = White | Black

  datatype Kind = Pawn | Knight | Bishop | Rook | Queen | King

  datatype Piece = Piece(color: Color, kind: Kind)

  datatype Variant =
    | Standard | Chess960 | KingOfTheHill | Atomic
    | Crazyhouse | ThreeCheck | Horde | RacingKings

  /** `K` is toward the h-file, `Q` toward the a-file. */
  datatype CastlingSide = KSide | QSide

  type Cell = Option<Piece>

  /** 0x88 board: index = rank * 16 + file; half of the 128 cells are off the board. */
  type Board = b: seq<Cell> | |b| == 128 witness seq(128, _ => None)

  /** The file of the rook that carries a right, or -1 when the right is gone. */
  type RookFile = f: int | -1 <= f <= 7

  const NO_ROOK: RookFile := -1

  datatype SideRights = SideRights(k: RookFile, q: RookFile)

  datatype CastlingRights = CastlingRights(w: SideRights, b: SideRights)

  datatype Pockets = Pockets(w: seq<Kind>, b: seq<Kind>)

  /** Checks delivered by each side. */
  datatype Counters = Counters(w: int, b: int)

  /** The six bits of a move's flag word. */
  datatype Flags = Flags(capture: bool, double: bool, enPassant: bool,
                         kingCastle: bool, queenCastle: bool, promotion: bool)

  const NORMAL := Flags(false, false, false, false, false, false)

  datatype Move = Move(from: int, to: int, piece: Piece,
                       captured: Option<Piece>, promotion: Option<Kind>, drop: Option<Kind>,
                       castleRook: Option<int>, flags: Flags)

  datatype State = State(board: Board, turn: Color, castling: CastlingRights,
                         epSquare: int, halfmoves: int, fullmoves: int,
                         pockets: Pockets, checkCount: Counters, variant: Variant)

  function Opposite(c: Color): Color {
    if c == White then Black else White
  }

  function SideOf(r: CastlingRights, c: Color): SideRights {
    if c == White then r.w else r.b
  }

  function Right(r: CastlingRights, c: Color, side: CastlingSide): RookFile {
    if side == KSide then SideOf(r, c).k else SideOf(r, c).q
  }

  function PocketOf(p: Pockets, c: Color): seq<Kind> {
    if c == White then p.w else p.b
  }
}
