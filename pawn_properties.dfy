/** What the pawn's destination computation promises, square by square, and how its
    failures and its last-rank guard show up in a move. */
module PawnProperties {
  import opened Geometry
  import opened Outcomes
  import opened Model

  /** The square is a probe that succeeded and found a piece. */
  predicate Occupied(board: Board, p: Position)
    reads board, board.pieces
  {
    board.PieceAtPosition(p).Ok? && board.PieceAtPosition(p).value.Some?
  }

  /** The square is a probe that succeeded and found nothing. */
  predicate Empty(board: Board, p: Position)
    reads board, board.pieces
  {
    board.PieceAtPosition(p) == Ok(None)
  }

  /** The one-ahead square is a destination exactly when the pawn is below rank SIZE, is
      not on its last row, and the square is empty. */
  lemma OneAheadIsDestinationIff(pawn: Pawn, board: Board)
    requires pawn.PossibleMoves(board).Ok?
    ensures pawn.OnePositionAhead() in pawn.PossibleMoves(board).value <==>
              pawn.position.y < Board.SIZE && pawn.NotInTheLastRow() && Empty(board, pawn.OnePositionAhead())
  {
    if pawn.position.y < Board.SIZE {
      var diagonals := pawn.DiagonalMovesIfApply(board);
      assert diagonals.Ok?;
    }
  }

  /** The two-ahead square is a destination exactly when the pawn is below rank SIZE, its
      flag is set, and both squares ahead are empty. */
  lemma TwoAheadIsDestinationIff(pawn: Pawn, board: Board)
    requires pawn.PossibleMoves(board).Ok?
    ensures pawn.TwoPositionAhead() in pawn.PossibleMoves(board).value <==>
              pawn.position.y < Board.SIZE && pawn.isInInitialPosition &&
              Empty(board, pawn.OnePositionAhead()) && Empty(board, pawn.TwoPositionAhead())
  {
    if pawn.position.y < Board.SIZE {
      var diagonals := pawn.DiagonalMovesIfApply(board);
      assert diagonals.Ok?;
    }
  }

  /** A forward diagonal is a destination exactly when it is occupied, whatever the colour
      of the occupant; on file 1 only the right diagonal counts and on file 8 only the left. */
  lemma DiagonalIsDestinationIff(pawn: Pawn, board: Board, d: Position)
    requires pawn.PossibleMoves(board).Ok?
    requires d == pawn.DiagonalToTheLeft() || d == pawn.DiagonalToTheRight()
    ensures d in pawn.PossibleMoves(board).value <==>
              pawn.position.y < Board.SIZE && Occupied(board, d) &&
              (d == pawn.DiagonalToTheLeft() ==> pawn.position.x != 1) &&
              (d == pawn.DiagonalToTheRight() ==> pawn.position.x != 8)
  {
    if pawn.position.y < Board.SIZE {
      var diagonals := pawn.DiagonalMovesIfApply(board);
      assert diagonals.Ok?;
      var left, right := pawn.DiagonalToTheLeft(), pawn.DiagonalToTheRight();
      assert left != right;
      if pawn.position.x != 1 && pawn.position.x != 8 {
        var l := pawn.DiagonalIfOccupied(board, left);
        var r := pawn.DiagonalIfOccupied(board, right);
        assert diagonals.value == l.value + r.value;
      }
    }
  }

  /** Every destination is one of the four squares the pawn looks at. */
  lemma DestinationsAreForwardSquares(pawn: Pawn, board: Board, p: Position)
    requires pawn.PossibleMoves(board).Ok? && p in pawn.PossibleMoves(board).value
    ensures p == pawn.OnePositionAhead() || p == pawn.TwoPositionAhead() ||
            p == pawn.DiagonalToTheLeft() || p == pawn.DiagonalToTheRight()
  {
    ListedMoveFitsItsRule(pawn, board, p);
  }

  /** A pawn at rank SIZE or beyond, of either colour, has no destinations, so every target
      the board accepts is an illegal move. */
  lemma LastRankHasNoDestinations(pawn: Pawn, board: Board, target: Position)
    requires pawn.position.y >= Board.SIZE
    ensures pawn.PossibleMoves(board) == Ok([])
    ensures OnBoard(target) ==> board.MoveDecision(pawn, target) == Err(InvalidMove)
  {
  }

  /** The pawn's own square is never a legal move. */
  lemma CurrentSquareIsIllegal(pawn: Pawn, board: Board)
    ensures board.MoveDecision(pawn, pawn.position).Err?
  {
  }

  /** The squares ahead are probed through the bounds check whether or not they are wanted.
      A white pawn on rank 7, or a black pawn on rank 2 or 1, therefore makes every move
      fail with InvalidPosition, in bounds or not. */
  lemma OffBoardProbeFailsEveryMove(pawn: Pawn, board: Board, target: Position)
    requires (pawn.color == White && pawn.position.y == 7) ||
             (pawn.color == Black && (pawn.position.y == 1 || pawn.position.y == 2))
    ensures pawn.PossibleMoves(board) == Err(InvalidPosition)
    ensures board.MoveDecision(pawn, target) == Err(InvalidPosition)
  {
  }

  /** For a pawn on the board, the destination computation succeeds exactly when no square
      ahead that it probes leaves the board: it fails only for a white pawn on rank 7 and a
      black pawn on rank 2 or 1. */
  lemma DestinationsComputedIff(pawn: Pawn, board: Board)
    requires OnBoard(pawn.position)
    ensures pawn.PossibleMoves(board).Ok? <==>
              !(pawn.color == White && pawn.position.y == 7) &&
              !(pawn.color == Black && (pawn.position.y == 1 || pawn.position.y == 2))
  {
    if (pawn.color == White && pawn.position.y == 7) ||
       (pawn.color == Black && (pawn.position.y == 1 || pawn.position.y == 2)) {
      OffBoardProbeFailsEveryMove(pawn, board, pawn.position);
    }
  }

  /** A pawn that has not moved, away from the edge ranks, with both squares ahead empty,
      may advance one or two ranks. */
  lemma UnmovedPawnHasBothAdvances(pawn: Pawn, board: Board)
    requires OnBoard(pawn.position) && pawn.position.y < Board.SIZE && pawn.isInInitialPosition
    requires !(pawn.color == White && pawn.position.y == 7)
    requires !(pawn.color == Black && (pawn.position.y == 1 || pawn.position.y == 2))
    requires Empty(board, pawn.OnePositionAhead()) && Empty(board, pawn.TwoPositionAhead())
    ensures pawn.PossibleMoves(board).Ok?
    ensures pawn.OnePositionAhead() in pawn.PossibleMoves(board).value
    ensures pawn.TwoPositionAhead() in pawn.PossibleMoves(board).value
  {
    DestinationsComputedIff(pawn, board);
    OneAheadIsDestinationIff(pawn, board);
    TwoAheadIsDestinationIff(pawn, board);
  }

  /** Without the flag there is never a double step. */
  lemma NoDoubleStepWithoutFlag(pawn: Pawn, board: Board)
    requires !pawn.isInInitialPosition
    ensures pawn.PossibleMoves(board).Ok? ==> pawn.TwoPositionAhead() !in pawn.PossibleMoves(board).value
  {
    if pawn.PossibleMoves(board).Ok? {
      TwoAheadIsDestinationIff(pawn, board);
    }
  }

  /** A move the piece accepts is a capture exactly when the target is a forward diagonal,
      and then the target is occupied; an advance goes to an empty square. */
  lemma DecisionMatchesOccupancy(pawn: Pawn, board: Board, target: Position)
    requires pawn.Decision(target, board).Ok?
    ensures pawn.Decision(target, board) == Ok(Capture) <==> pawn.IsTargetPositionInDiagonalToMe(target)
    ensures pawn.Decision(target, board) == Ok(Capture) ==> Occupied(board, target)
    ensures pawn.Decision(target, board) == Ok(Advance) ==> Empty(board, target)
  {
    ListedMoveFitsItsRule(pawn, board, target);
    assert pawn.IsTargetPositionInFrontOfMe(target) || pawn.IsTargetPositionTwoPositionsInFrontOfMe(target) ||
           pawn.IsTargetPositionInDiagonalToMe(target) by {
      DestinationsAreForwardSquares(pawn, board, target);
    }
  }
}
