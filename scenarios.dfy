/** Concrete boards from the pawn's test suite, replayed through `Board.Move`, plus boards
    that show the quirks of the destination rules. For each board a lemma states what the
    board decides about the move; a method then builds fresh pieces and a fresh board, makes
    the move and reports what a caller can observe afterwards. */
module Scenarios {
  import opened Geometry
  import opened Outcomes
  import opened Model

  /** `p` is a pawn of colour `c` on (x, y) whose flag is as its constructor sets it. */
  predicate NewPawn(p: Pawn, c: Color, x: int, y: int)
    reads p
  {
    p.color == c && p.position == Position(x, y) && p.isInInitialPosition == (y == 2 || y == 7)
  }

  // Captures.

  lemma CaptureFromFileOneDecision(pawn: Pawn, victim: Pawn, board: Board)
    requires NewPawn(pawn, White, 1, 2) && NewPawn(victim, Black, 2, 3)
    requires board.pieces == [victim, pawn]
    ensures board.MoveDecision(pawn, Position(2, 3)) == Ok(Capture)
    ensures FirstIndexAt(board.pieces, Position(2, 3)) == Some(0)
  {
  }

  /** A white pawn on (1,2) takes the black pawn on (2,3): the only diagonal on file 1. */
  method WhiteCapturesFromFileOne() returns (outcome: Outcome, landed: Position, capturedOnBoard: bool, left: nat)
    ensures outcome == Done && landed == Position(2, 3) && !capturedOnBoard && left == 1
  {
    var pawn := new Pawn(White, Position(1, 2));
    var victim := new Pawn(Black, Position(2, 3));
    var board := new Board([victim, pawn]);
    CaptureFromFileOneDecision(pawn, victim, board);
    outcome := board.Move(pawn, Position(2, 3));
    landed := pawn.GetPosition();
    capturedOnBoard := board.IsPieceOnBoard(victim);
    left := |board.pieces|;
  }

  lemma CaptureFromFileEightDecision(pawn: Pawn, victim: Pawn, board: Board)
    requires NewPawn(pawn, Black, 8, 7) && NewPawn(victim, White, 7, 6)
    requires board.pieces == [victim, pawn]
    ensures board.MoveDecision(pawn, Position(7, 6)) == Ok(Capture)
    ensures FirstIndexAt(board.pieces, Position(7, 6)) == Some(0)
  {
  }

  /** A black pawn on (8,7) takes the white pawn on (7,6): the only diagonal on file 8. */
  method BlackCapturesFromFileEight() returns (outcome: Outcome, landed: Position, capturedOnBoard: bool)
    ensures outcome == Done && landed == Position(7, 6) && !capturedOnBoard
  {
    var pawn := new Pawn(Black, Position(8, 7));
    var victim := new Pawn(White, Position(7, 6));
    var board := new Board([victim, pawn]);
    CaptureFromFileEightDecision(pawn, victim, board);
    outcome := board.Move(pawn, Position(7, 6));
    landed := pawn.GetPosition();
    capturedOnBoard := board.IsPieceOnBoard(victim);
  }

  lemma CaptureToTheLeftDecision(pawn: Pawn, victim: Pawn, board: Board)
    requires NewPawn(pawn, White, 4, 2) && NewPawn(victim, Black, 3, 3)
    requires board.pieces == [victim, pawn]
    ensures board.MoveDecision(pawn, Position(3, 3)) == Ok(Capture)
    ensures FirstIndexAt(board.pieces, Position(3, 3)) == Some(0)
  {
  }

  /** A white pawn on (4,2) takes to the left, on (3,3). */
  method WhiteCapturesToTheLeft() returns (outcome: Outcome, landed: Position, capturedOnBoard: bool)
    ensures outcome == Done && landed == Position(3, 3) && !capturedOnBoard
  {
    var pawn := new Pawn(White, Position(4, 2));
    var victim := new Pawn(Black, Position(3, 3));
    var board := new Board([victim, pawn]);
    CaptureToTheLeftDecision(pawn, victim, board);
    outcome := board.Move(pawn, Position(3, 3));
    landed := pawn.GetPosition();
    capturedOnBoard := board.IsPieceOnBoard(victim);
  }

  lemma SameColourCaptureDecision(pawn: Pawn, victim: Pawn, board: Board)
    requires NewPawn(pawn, White, 4, 2) && NewPawn(victim, White, 5, 3)
    requires board.pieces == [victim, pawn]
    ensures board.MoveDecision(pawn, Position(5, 3)) == Ok(Capture)
    ensures FirstIndexAt(board.pieces, Position(5, 3)) == Some(0)
  {
  }

  /** Captures do not check the occupant's colour. After a white pawn takes a white pawn,
      structural membership still reports the captured piece as on the board, because the
      capturing pawn now has its colour and position. */
  method SameColourCapture() returns (outcome: Outcome, capturedOnBoard: bool, left: nat)
    ensures outcome == Done && capturedOnBoard && left == 1
  {
    var pawn := new Pawn(White, Position(4, 2));
    var victim := new Pawn(White, Position(5, 3));
    var board := new Board([victim, pawn]);
    SameColourCaptureDecision(pawn, victim, board);
    outcome := board.Move(pawn, Position(5, 3));
    capturedOnBoard := board.IsPieceOnBoard(victim);
    left := |board.pieces|;
  }

  // Advances.

  lemma DoubleStepDecisions(pawn: Pawn, board: Board)
    requires pawn.color == White && pawn.position.x == 2 && board.pieces == [pawn]
    ensures pawn.position.y == 2 && pawn.isInInitialPosition ==>
              board.MoveDecision(pawn, Position(2, 4)) == Ok(Advance)
    ensures pawn.position.y == 4 && !pawn.isInInitialPosition ==>
              board.MoveDecision(pawn, Position(2, 6)) == Err(InvalidMove)
  {
  }

  /** A white pawn on (2,2) advances two ranks, loses its flag, and a later double step
      is an illegal move. */
  method WhiteDoubleStepOnlyOnce() returns (first: Outcome, landed: Position, flag: bool, second: Outcome)
    ensures first == Done && landed == Position(2, 4) && !flag
    ensures second == Fail(InvalidMove)
  {
    var pawn := new Pawn(White, Position(2, 2));
    var board := new Board([pawn]);
    DoubleStepDecisions(pawn, board);
    first := board.Move(pawn, Position(2, 4));
    landed := pawn.GetPosition();
    flag := pawn.isInInitialPosition;
    DoubleStepDecisions(pawn, board);
    second := board.Move(pawn, Position(2, 6));
  }

  lemma BlackAdvanceDecisions(pawn: Pawn, board: Board)
    requires NewPawn(pawn, Black, 2, 7) && board.pieces == [pawn]
    ensures board.MoveDecision(pawn, Position(2, 6)) == Ok(Advance)
    ensures board.MoveDecision(pawn, Position(2, 5)) == Ok(Advance)
  {
  }

  /** A black pawn on (2,7) advances one rank towards rank 1. */
  method BlackSingleStep() returns (outcome: Outcome, landed: Position)
    ensures outcome == Done && landed == Position(2, 6)
  {
    var pawn := new Pawn(Black, Position(2, 7));
    var board := new Board([pawn]);
    BlackAdvanceDecisions(pawn, board);
    outcome := board.Move(pawn, Position(2, 6));
    landed := pawn.GetPosition();
  }

  /** A black pawn on (2,7) advances two ranks towards rank 1. */
  method BlackDoubleStep() returns (outcome: Outcome, landed: Position)
    ensures outcome == Done && landed == Position(2, 5)
  {
    var pawn := new Pawn(Black, Position(2, 7));
    var board := new Board([pawn]);
    BlackAdvanceDecisions(pawn, board);
    outcome := board.Move(pawn, Position(2, 5));
    landed := pawn.GetPosition();
  }

  // Illegal moves.

  lemma BlockedAdvanceDecision(pawn: Pawn, blocker: Pawn, board: Board)
    requires NewPawn(pawn, White, 4, 2) && NewPawn(blocker, Black, 4, 3)
    requires board.pieces == [blocker, pawn]
    ensures board.MoveDecision(pawn, Position(4, 3)) == Err(InvalidMove)
  {
  }

  /** A white pawn on (4,2) blocked by a black pawn on (4,3) cannot advance; nothing moves. */
  method BlockedAdvanceIsIllegal() returns (outcome: Outcome, pawnAt: Position, blockerAt: Position, count: nat)
    ensures outcome == Fail(InvalidMove)
    ensures pawnAt == Position(4, 2) && blockerAt == Position(4, 3) && count == 2
  {
    var pawn := new Pawn(White, Position(4, 2));
    var blocker := new Pawn(Black, Position(4, 3));
    var board := new Board([blocker, pawn]);
    BlockedAdvanceDecision(pawn, blocker, board);
    outcome := board.Move(pawn, Position(4, 3));
    pawnAt := pawn.GetPosition();
    blockerAt := blocker.GetPosition();
    count := |board.pieces|;
  }

  lemma BlockedDoubleStepDecision(pawn: Pawn, blocker: Pawn, board: Board)
    requires NewPawn(pawn, Black, 2, 7) && NewPawn(blocker, White, 2, 5)
    requires board.pieces == [blocker, pawn]
    ensures board.MoveDecision(pawn, Position(2, 5)) == Err(InvalidMove)
  {
  }

  /** A black pawn on (2,7) cannot advance two ranks onto an occupied (2,5). */
  method BlockedDoubleStepIsIllegal() returns (outcome: Outcome)
    ensures outcome == Fail(InvalidMove)
  {
    var pawn := new Pawn(Black, Position(2, 7));
    var blocker := new Pawn(White, Position(2, 5));
    var board := new Board([blocker, pawn]);
    BlockedDoubleStepDecision(pawn, blocker, board);
    outcome := board.Move(pawn, Position(2, 5));
  }

  lemma LonePawnDecisions(pawn: Pawn, board: Board)
    requires pawn.color == White && board.pieces == [pawn]
    ensures NewPawn(pawn, White, 5, 2) ==> board.MoveDecision(pawn, Position(6, 3)) == Err(InvalidMove)
    ensures NewPawn(pawn, White, 3, 2) ==> board.MoveDecision(pawn, Position(3, 2)) == Err(InvalidMove)
    ensures NewPawn(pawn, White, 1, 3) ==> board.MoveDecision(pawn, Position(1, 5)) == Err(InvalidMove)
  {
  }

  /** A white pawn on (5,2) cannot move diagonally onto the vacant (6,3). */
  method VacantDiagonalIsIllegal() returns (outcome: Outcome)
    ensures outcome == Fail(InvalidMove)
  {
    var pawn := new Pawn(White, Position(5, 2));
    var board := new Board([pawn]);
    LonePawnDecisions(pawn, board);
    outcome := board.Move(pawn, Position(6, 3));
  }

  /** Moving to one's own square is an illegal move. */
  method StayingPutIsIllegal() returns (outcome: Outcome)
    ensures outcome == Fail(InvalidMove)
  {
    var pawn := new Pawn(White, Position(3, 2));
    var board := new Board([pawn]);
    LonePawnDecisions(pawn, board);
    outcome := board.Move(pawn, Position(3, 2));
  }

  /** A white pawn created on rank 3 has no flag and cannot advance two ranks. */
  method DoubleStepFromRankThreeIsIllegal() returns (outcome: Outcome)
    ensures outcome == Fail(InvalidMove)
  {
    var pawn := new Pawn(White, Position(1, 3));
    var board := new Board([pawn]);
    LonePawnDecisions(pawn, board);
    outcome := board.Move(pawn, Position(1, 5));
  }

  /** Targets off the grid are refused with InvalidPosition and the pawn stays put. */
  method OutOfBorderTargets() returns (top: Outcome, bottom: Outcome, pawnAt: Position)
    ensures top == Fail(InvalidPosition) && bottom == Fail(InvalidPosition)
    ensures pawnAt == Position(4, 2)
  {
    var pawn := new Pawn(White, Position(4, 2));
    var board := new Board([pawn]);
    top := board.Move(pawn, Position(4, 9));
    bottom := board.Move(pawn, Position(4, 0));
    pawnAt := pawn.GetPosition();
  }

  // Quirks of the destination rules.

  lemma EdgeRankDecisions(pawn: Pawn, board: Board)
    requires board.pieces == [pawn]
    ensures NewPawn(pawn, White, 3, 7) ==> board.MoveDecision(pawn, Position(3, 8)) == Err(InvalidPosition)
    ensures NewPawn(pawn, White, 4, 8) ==> board.MoveDecision(pawn, Position(4, 7)) == Err(InvalidMove)
    ensures NewPawn(pawn, Black, 4, 8) ==> board.MoveDecision(pawn, Position(4, 7)) == Err(InvalidMove)
  {
  }

  /** A white pawn on rank 7 cannot even advance to rank 8: the two-ahead probe leaves the
      board and the move fails with InvalidPosition. */
  method WhiteOnRankSevenIsStuck() returns (outcome: Outcome, pawnAt: Position)
    ensures outcome == Fail(InvalidPosition) && pawnAt == Position(3, 7)
  {
    var pawn := new Pawn(White, Position(3, 7));
    var board := new Board([pawn]);
    EdgeRankDecisions(pawn, board);
    outcome := board.Move(pawn, Position(3, 8));
    pawnAt := pawn.GetPosition();
  }

  /** A white pawn on rank 8 has no destinations; a black pawn on rank 8 is stopped by the
      same guard even though its forward direction is towards rank 1. */
  method RankEightHasNoMoves() returns (white: Outcome, black: Outcome)
    ensures white == Fail(InvalidMove) && black == Fail(InvalidMove)
  {
    var w := new Pawn(White, Position(4, 8));
    var boardW := new Board([w]);
    EdgeRankDecisions(w, boardW);
    white := boardW.Move(w, Position(4, 7));
    var b := new Pawn(Black, Position(4, 8));
    var boardB := new Board([b]);
    EdgeRankDecisions(b, boardB);
    black := boardB.Move(b, Position(4, 7));
  }
}
