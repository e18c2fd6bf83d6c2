/**
 * The piece value type of the domain layer: the six kinds, the two sides and the
 * immutable `Piece` record (domain/model/Piece.kt).
 */
module Pieces {

  /** `PieceType`: a closed set of six kinds. */
  datatype PieceType = King | Queen | Rook | Bishop | Knight | Pawn

  /** `PieceColor`: the two sides. */
  datatype PieceColor = White | Black

  /** `Piece`: an identity token, a kind and a side; a value compared field by field. */
  datatype Piece = Piece(id: string, pieceType: PieceType, color: PieceColor)

  const AllPieceTypes: seq<PieceType> := [King, Queen, Rook, Bishop, Knight, Pawn]

  /** Every kind is one of the six listed, and the six are pairwise distinct. */
  lemma PieceTypesAreSix(t: PieceType)
    ensures t in AllPieceTypes
    ensures |AllPieceTypes| == 6
    ensures forall i, j :: 0 <= i < j < 6 ==> AllPieceTypes[i] != AllPieceTypes[j]
  {
  }

  /** A colour is either White or Black, never both. */
  lemma PieceColorsAreTwo(c: PieceColor)
    ensures c == White || c == Black
    ensures White != Black
  {
  }

  /** Structural equality of the `Piece` data class: equal exactly when all three fields are. */
  lemma PieceEquality(a: Piece, b: Piece)
    ensures a == b <==> a.id == b.id && a.pieceType == b.pieceType && a.color == b.color
  {
  }
}
