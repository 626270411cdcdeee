/** The board's bookkeeping: the bounds gate, removal of exactly one entry, and membership
    by structural equality. */
module BoardProperties {
  import opened Geometry
  import opened Outcomes
  import opened Model

  /** Every board query and move on a square outside the grid is refused with
      InvalidPosition, before the piece is consulted. */
  lemma OffBoardSquaresAreRefused(board: Board, piece: Pawn, p: Position)
    requires p.x < 1 || p.x > Board.SIZE || p.y < 1 || p.y > Board.SIZE
    ensures board.PieceAtPosition(p) == Err(InvalidPosition)
    ensures board.MoveDecision(piece, p) == Err(InvalidPosition)
  {
  }

  /** The four out-of-bound squares the tests use lie off the grid; its corners lie on it. */
  lemma GridLimits()
    ensures !OnBoard(Position(4, 9)) && !OnBoard(Position(9, 4))
    ensures !OnBoard(Position(0, 4)) && !OnBoard(Position(4, 0))
    ensures OnBoard(Position(1, 1)) && OnBoard(Position(1, 8))
    ensures OnBoard(Position(8, 1)) && OnBoard(Position(8, 8))
  {
  }

  /** Removing the first piece on an occupied square drops exactly that one entry, which
      stands on the square: the list is one shorter, the other pieces stay in order, and
      as a multiset nothing else is lost. */
  lemma RemovalDropsExactlyOneEntry(s: seq<Pawn>, target: Position)
    requires FirstIndexAt(s, target).Some?
    ensures var k := FirstIndexAt(s, target).value;
            var r := RemoveFirstAt(s, target);
            s[k].position == target &&
            |r| == |s| - 1 &&
            (forall j :: 0 <= j < k ==> r[j] == s[j]) &&
            (forall j :: k <= j < |r| ==> r[j] == s[j + 1]) &&
            multiset(r) + multiset{s[k]} == multiset(s)
  {
    var k := FirstIndexAt(s, target).value;
    assert s == s[..k] + [s[k]] + s[k + 1..];
  }

  /** A capture the board accepts has an occupant to remove. */
  lemma CaptureHasAnOccupant(board: Board, pawn: Pawn, target: Position)
    requires board.MoveDecision(pawn, target) == Ok(Capture)
    ensures FirstIndexAt(board.pieces, target).Some?
  {
    ListedMoveFitsItsRule(pawn, board, target);
  }

  /** Membership ignores identity: any piece with the colour and position of a listed one
      is reported as on the board, and a piece on the board is reported as such. */
  lemma MembershipIsStructural(board: Board, listed: Pawn, other: Pawn)
    requires listed in board.pieces
    requires other.position == listed.position && other.color == listed.color
    ensures board.IsPieceOnBoard(listed) && board.IsPieceOnBoard(other)
  {
  }
}
