/** Piece equality and hashing. */
module PieceProperties {
  import opened Model

  lemma EqualsIsReflexive(a: Pawn)
    ensures a.Equals(a)
  {
  }

  lemma EqualsIsSymmetric(a: Pawn, b: Pawn)
    ensures a.Equals(b) <==> b.Equals(a)
  {
  }

  lemma EqualsIsTransitive(a: Pawn, b: Pawn, c: Pawn)
    requires a.Equals(b) && b.Equals(c)
    ensures a.Equals(c)
  {
  }

  /** Equal pieces hash alike: the hash depends only on position and colour. */
  lemma EqualPiecesHashAlike(a: Pawn, b: Pawn)
    requires a.Equals(b)
    ensures a.HashCode() == b.HashCode()
  {
  }
}
