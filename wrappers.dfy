/** Kotlin's nullable types (`Piece?`, `Square?`, `PieceType?`) as an explicit option. */
module Wrappers {

  datatype Option<+T> = None | Some(value: T)
}
