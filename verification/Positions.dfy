/** Positions written down as the few men on the board. */
module Positions {
  import opened Common
  import opened ChessTypes

  const WHITE_KING := Piece(White, King)
  const BLACK_KING := Piece(Black, King)

  /** The board with these men and no others. */
  function Cells(men: map<int, Piece>): Board {
    seq(128, i => if i in men then Some(men[i]) else None)
  }
}
