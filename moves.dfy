/**
 * Squares and the `Move` value type (domain/model/Move.kt). `Square` itself lives in a
 * file that is not part of this model; it is used as a (row, column) pair of integers.
 */
module Moves {

  import opened Wrappers
  import opened Pieces

  /** A square as a pair of integers; offsets may take it off the 8x8 board. */
  datatype Square = Square(row: int, col: int)

  /** `SpecialMove`: exactly four kinds of move. */
  datatype SpecialMove = NoSpecial | CastlingKingside | CastlingQueenside | EnPassant

  /** `Move`: six immutable fields, compared structurally. */
  datatype Move = Move(
    from: Square,
    to: Square,
    piece: Piece,
    captured: Option<Piece>,
    promotion: Option<PieceType>,
    special: SpecialMove)

  /** `Move(from, to, piece)`: the constructor called with its three defaulted fields left out. */
  function PlainMove(from: Square, to: Square, piece: Piece): (m: Move)
    ensures m.from == from && m.to == to && m.piece == piece
    ensures m.captured == None && m.promotion == None && m.special == NoSpecial
  {
    Move(from, to, piece, None, None, NoSpecial)
  }

  /** Equality of moves compares all six fields, so the same from/to with another capture is another move. */
  lemma MoveEquality(a: Move, b: Move)
    ensures a == b <==>
      a.from == b.from && a.to == b.to && a.piece == b.piece &&
      a.captured == b.captured && a.promotion == b.promotion && a.special == b.special
    ensures a.from == b.from && a.to == b.to && a.captured != b.captured ==> a != b
  {
  }
}
