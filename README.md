# Pawn move legality on an 8×8 chess board

This project models the one-move primitive of a small chess rules engine.

- A `Board` owns a list of pieces. It is the only bounds gate: it accepts a square only when both of its coordinates lie in 1..8 (`SIZE`).
- A caller asks the board to move a piece to a target. The board checks the target, then hands over to the piece.
- The only kind of piece is the `Pawn`. It works out its destinations from its colour's forward direction: white moves towards higher ranks, black towards lower ones. The destinations are:
  - one square ahead, if it is empty;
  - two squares ahead, if the pawn's "initial position" flag is set and both squares are empty;
  - each forward diagonal, if it is occupied.
- The pawn then rejects any target that is not a destination. On a diagonal target it captures the occupant. Finally it moves to the target and clears its flag.

Failures are values. `Outcome` is `Done` or `Fail(e)`, and `Result<T>` is `Ok(v)` or `Err(e)`. The error `e` is `InvalidPosition`, `InvalidMove` or `NoSuchElement`; the last one is the failure of an `orElseThrow()` on an empty search.

Layout:

- `basics.dfy`: module `Geometry` (`Position`, `Color`, `Forward`) and module `Outcomes` (the error and result types).
- `model.dfy`: module `Model`. It holds the classes `Pawn` and `Board`. Each class has fields updated in place, `reads` clauses on its queries and `modifies` clauses on its moves. The specification functions `PossibleMoves`, `Decision` and `MoveDecision` say what a move amounts to. The methods `Pawn.MoveTo` and `Board.Move` follow the source statement for statement and are proved against those functions.
- `pawn_properties.dfy`, `board_properties.dfy`, `piece_properties.dfy`: lemmas about the destination rules, the board's bookkeeping and piece equality.
- `scenarios.dfy`: boards from the test suite, replayed through `Board.Move`, plus boards that show the quirks below. For each board a lemma states what `MoveDecision` says about the move; the method that builds the board and makes the move relies on it.

How the source is modelled:

- `Piece` is abstract and `Pawn` is its only subclass. Traits are not used, so the class `Pawn` carries the piece's fields too: `position`, the constant `color`, `Equals`, `HashCode`, `SetPosition` and `GetPosition`. The `getClass()` test inside `equals` therefore always succeeds.
- Membership (`isPieceOnBoard`) and removal (`remove(Object)`) use structural equality, as the list methods do. They do not use object identity.
- The moved pawn does not have to be on the board, and the model does not require it.
- The source contains three defensive checks in `moveTo` (Pawn.java:27-30, 31-33 for the removal, 34-36). They can never fire. The model proves this: each one is an `assert false` in a branch shown to be dead, or an `assert` that the call succeeds.

These quirks are modelled as written, not fixed:

- The guard `y >= 8` stops a pawn of either colour.
- The flag is set for rank 2 or rank 7, whatever the colour.
- The squares ahead are probed through the bounds-checked lookup before it is known whether they are needed. As a result, every move fails with `InvalidPosition` for a white pawn on rank 7, or for a black pawn on rank 2 or rank 1.
- A diagonal capture never checks the occupant's colour. When the capturing pawn is itself in the board's list, structural membership still reports a same-colour victim as on the board after the capture.

## Model

| member | source | states |
|---|---|---|
| `Model.Board.constructor` | src/main/java/com/chess/chess/model/Board.java:12-14 | The board's list equals the given list. It is a value, so later changes to the caller's list are not seen. |
| `Model.Board.ValidatePosition` | src/main/java/com/chess/chess/model/Board.java:40-46 | Accepts exactly the squares with 1 ≤ x ≤ 8 and 1 ≤ y ≤ 8. Every other square is `InvalidPosition`. |
| `Model.FirstIndexAt` | src/main/java/com/chess/chess/model/Board.java:23-25 | The stream search finds the index of the first piece standing on the target: all earlier pieces stand elsewhere. If none is found, no piece stands there. |
| `Model.Board.PieceAtPosition` | src/main/java/com/chess/chess/model/Board.java:21-26 | Off-board squares fail with `InvalidPosition`. Otherwise it returns the first listed piece on the target, or none exactly when no listed piece stands there. |
| `Model.IndexOfEqual` | src/main/java/com/chess/chess/model/Board.java:33-37 | The list's equality search (`remove(Object)`, `contains`) finds the first index whose element the argument `equals`, or reports that none does. |
| `Model.RemovalFindsTheFirstMatch` | src/main/java/com/chess/chess/model/Board.java:30-33 | Removing by equality the piece found by the position search deletes that very entry, not an earlier element equal to it. |
| `Model.RemoveAt` | src/main/java/com/chess/chess/model/Board.java:33 | Deleting one entry shortens the list by one and keeps every other piece in order. |
| `Model.Board.RemovePieceAtPosition` | src/main/java/com/chess/chess/model/Board.java:28-34 | Off board: `InvalidPosition`, list unchanged. Empty square: `NoSuchElement`, list unchanged. Occupied square: the first piece on it is removed and nothing else changes. |
| `BoardProperties.RemovalDropsExactlyOneEntry` | src/main/java/com/chess/chess/model/Board.java:28-34 | A removal on an occupied square drops one entry, which stands on that square. The other pieces stay in order, and the multiset loses exactly that piece. |
| `Model.RemoveFirstAt` | src/main/java/com/chess/chess/model/Board.java:30-33 | Removal adds no piece. An empty square leaves the list as it is, an occupied one loses exactly one entry, and every piece standing elsewhere stays. |
| `Model.Board.IsPieceOnBoard` | src/main/java/com/chess/chess/model/Board.java:36-38 | True exactly when some listed piece has the same position and colour as the argument. |
| `BoardProperties.MembershipIsStructural` | src/main/java/com/chess/chess/model/Board.java:36-38 | A listed piece, and any other piece with its colour and position, is reported as on the board. |
| `Model.Board.MoveDecision` | src/main/java/com/chess/chess/model/Board.java:16-19 | An off-board target is `InvalidPosition` before the piece is consulted. A move never fails with `NoSuchElement`. An accepted target is on the board and is not the piece's own square. |
| `Model.Board.Move` | src/main/java/com/chess/chess/model/Board.java:16-19 | On failure: the error is returned, and the piece's position, its flag and the board are unchanged. On success: the piece is on the target, its flag is cleared, and a capture has removed the first piece on the target. |
| `BoardProperties.OffBoardSquaresAreRefused` | src/main/java/com/chess/chess/model/Board.java:17-22 | Any square with x or y outside 1..8 makes both the lookup and the move fail with `InvalidPosition`. |
| `BoardProperties.GridLimits` | src/test/java/com/chess/chess/model/PositionGenerator.java:17-31 | The test suite's squares (4,9), (9,4), (0,4) and (4,0) are off the board. The four corners are on it. |
| `BoardProperties.CaptureHasAnOccupant` | src/main/java/com/chess/chess/model/Pawn.java:31-33 | Every capture the board accepts has a piece on the target to remove. |
| `Model.Pawn.constructor` | src/main/java/com/chess/chess/model/Pawn.java:12-17 | Sets colour and position. The flag is set exactly when the rank is 2 or 7, whatever the colour. |
| `Model.Pawn.SetPosition` | src/main/java/com/chess/chess/model/Piece.java:17-19 | Sets the position and may change nothing else. The colour is a constant. |
| `Model.Pawn.GetPosition` | src/main/java/com/chess/chess/model/Piece.java:21-23 | Returns the current position and changes nothing. |
| `Model.Pawn.Equals` | src/main/java/com/chess/chess/model/Piece.java:26-31 | Equal exactly when the argument is not null and has the same position and colour. The identity shortcut never changes the answer. |
| `PieceProperties.EqualsIsReflexive` | src/main/java/com/chess/chess/model/Piece.java:27 | Every piece equals itself. |
| `PieceProperties.EqualsIsSymmetric` | src/main/java/com/chess/chess/model/Piece.java:26-31 | a equals b exactly when b equals a. |
| `PieceProperties.EqualsIsTransitive` | src/main/java/com/chess/chess/model/Piece.java:26-31 | Equality of pieces is transitive. |
| `Model.Pawn.HashCode` | src/main/java/com/chess/chess/model/Piece.java:33-36 | The hash is computed from the position and the colour alone (the formula is a stand-in, see below). |
| `PieceProperties.EqualPiecesHashAlike` | src/main/java/com/chess/chess/model/Piece.java:33-36 | Equal pieces have equal hash codes, because the hash depends only on position and colour. |
| `Model.Pawn.NotInTheLastRow` | src/main/java/com/chess/chess/model/Pawn.java:129-133 | For a pawn on the board, false exactly when the square ahead would leave the board. |
| `Model.Pawn.OnePositionAhead` | src/main/java/com/chess/chess/model/Pawn.java:119-122 | Same file, one rank up for white and one rank down for black. |
| `Model.Pawn.TwoPositionAhead` | src/main/java/com/chess/chess/model/Pawn.java:124-127 | Same file, twice the one-ahead step in the same direction. |
| `Model.Pawn.DiagonalToTheLeft` | src/main/java/com/chess/chess/model/Pawn.java:109-112 | The rank of the square ahead, one file to the left. |
| `Model.Pawn.DiagonalToTheRight` | src/main/java/com/chess/chess/model/Pawn.java:114-117 | The rank of the square ahead, one file to the right. |
| `Model.Pawn.IsTargetPositionInDiagonalToMe` | src/main/java/com/chess/chess/model/Pawn.java:89-95 | True exactly for the left and right forward diagonals. |
| `Model.Pawn.IsTargetPositionInFrontOfMe` | src/main/java/com/chess/chess/model/Pawn.java:97-101 | True exactly for the square one ahead. |
| `Model.Pawn.IsTargetPositionTwoPositionsInFrontOfMe` | src/main/java/com/chess/chess/model/Pawn.java:103-107 | True exactly for the square two ahead. |
| `Model.Pawn.DiagonalIfOccupied` | src/main/java/com/chess/chess/model/Pawn.java:77-79 | A probed diagonal fails exactly when it is off the board. Otherwise it is listed exactly when it is occupied. |
| `Model.Pawn.DiagonalMovesIfApply` | src/main/java/com/chess/chess/model/Pawn.java:62-86 | Every square it lists is a forward diagonal with a piece on it. |
| `Model.Pawn.PossibleMoves` | src/main/java/com/chess/chess/model/Pawn.java:41-60 | It fails only with `InvalidPosition`. Every destination is on the board and is not the pawn's own square. |
| `Model.Pawn.Decision` | src/main/java/com/chess/chess/model/Pawn.java:20-38 | A move fails only with `InvalidPosition` or `InvalidMove`. An accepted target is on the board and differs from the pawn's square. |
| `Model.ListedMoveFitsItsRule` | src/main/java/com/chess/chess/model/Pawn.java:25-36 | A listed square straight ahead is empty, and a listed diagonal is occupied. So the defensive re-checks in `moveTo` never reject a listed target. |
| `Model.Pawn.MoveTo` | src/main/java/com/chess/chess/model/Pawn.java:19-39 | A target that is not a destination, or a failing destination computation, changes neither the pawn nor the board. A success captures the occupant of a diagonal target (and only then), relocates the pawn and clears its flag. |
| `PawnProperties.OneAheadIsDestinationIff` | src/main/java/com/chess/chess/model/Pawn.java:42-51 | For a pawn whose destination computation succeeds, the square one ahead is a destination exactly when the pawn is below rank 8, not on its last row, and that square is empty. |
| `PawnProperties.TwoAheadIsDestinationIff` | src/main/java/com/chess/chess/model/Pawn.java:53-57 | For a pawn whose destination computation succeeds, the square two ahead is a destination exactly when the pawn is below rank 8, its flag is set, and both squares ahead are empty. |
| `PawnProperties.DiagonalIsDestinationIff` | src/main/java/com/chess/chess/model/Pawn.java:62-86 | For a pawn whose destination computation succeeds, a forward diagonal is a destination exactly when it is occupied, by either colour. On file 1 only the right diagonal counts, and on file 8 only the left. |
| `PawnProperties.DestinationsAreForwardSquares` | src/main/java/com/chess/chess/model/Pawn.java:41-60 | Every destination is one ahead, two ahead, or a forward diagonal. |
| `PawnProperties.LastRankHasNoDestinations` | src/main/java/com/chess/chess/model/Pawn.java:42-44 | A pawn on rank 8 or beyond, of either colour, has no destinations, so every on-board target is an illegal move. |
| `PawnProperties.CurrentSquareIsIllegal` | src/test/java/com/chess/chess/model/PawnMovingTest.java:308-313 | Moving a pawn to its own square always fails. |
| `PawnProperties.OffBoardProbeFailsEveryMove` | src/main/java/com/chess/chess/model/Pawn.java:47-54 | For a white pawn on rank 7, or a black pawn on rank 2 or 1, the destination computation and every move fail with `InvalidPosition`. |
| `PawnProperties.DestinationsComputedIff` | src/main/java/com/chess/chess/model/Pawn.java:41-60 | For a pawn on the board, the destination computation succeeds exactly when it is not a white pawn on rank 7 or a black pawn on rank 2 or 1. |
| `PawnProperties.UnmovedPawnHasBothAdvances` | src/main/java/com/chess/chess/model/Pawn.java:45-57 | A pawn with its flag, below rank 8 and away from the failing ranks, whose two squares ahead are empty, has both advances among its destinations. |
| `PawnProperties.NoDoubleStepWithoutFlag` | src/main/java/com/chess/chess/model/Pawn.java:55-57 | Without the flag the square two ahead is never a destination. |
| `PawnProperties.DecisionMatchesOccupancy` | src/main/java/com/chess/chess/model/Pawn.java:25-37 | An accepted move is a capture exactly when the target is a forward diagonal, and then the target is occupied. A plain advance goes to an empty square. |
| `Scenarios.WhiteCapturesFromFileOne` | src/test/java/com/chess/chess/model/PawnMovingTest.java:157-163 | White (1,2) takes black on (2,3): it lands there, the captured piece is gone, and one piece remains. |
| `Scenarios.BlackCapturesFromFileEight` | src/test/java/com/chess/chess/model/PawnMovingTest.java:181-187 | Black (8,7) takes white on (7,6), and the captured piece is gone. |
| `Scenarios.WhiteCapturesToTheLeft` | src/test/java/com/chess/chess/model/PawnMovingTest.java:197-203 | White (4,2) takes black on (3,3), and the captured piece is gone. |
| `Scenarios.WhiteDoubleStepOnlyOnce` | src/test/java/com/chess/chess/model/PawnMovingTest.java:300-306 | White (2,2) reaches (2,4) and loses its flag. A second double step is then `InvalidMove`. |
| `Scenarios.BlackSingleStep` | src/test/java/com/chess/chess/model/PawnMovingTest.java:97-103 | Black (2,7) reaches (2,6) in one step. |
| `Scenarios.BlackDoubleStep` | src/test/java/com/chess/chess/model/PawnMovingTest.java:105-111 | Black (2,7) reaches (2,5) in two steps. |
| `Scenarios.BlockedAdvanceIsIllegal` | src/test/java/com/chess/chess/model/PawnMovingTest.java:250-256 | White (4,2) blocked on (4,3) gets `InvalidMove`. Both pieces stay on their squares and on the board. |
| `Scenarios.BlockedDoubleStepIsIllegal` | src/test/java/com/chess/chess/model/PawnMovingTest.java:258-265 | Black (2,7) cannot double-step onto an occupied (2,5). |
| `Scenarios.VacantDiagonalIsIllegal` | src/test/java/com/chess/chess/model/PawnMovingTest.java:220-225 | White (5,2) cannot move onto the vacant diagonal (6,3). |
| `Scenarios.StayingPutIsIllegal` | src/test/java/com/chess/chess/model/PawnMovingTest.java:308-313 | White (3,2) moving to (3,2) is `InvalidMove`. |
| `Scenarios.DoubleStepFromRankThreeIsIllegal` | src/test/java/com/chess/chess/model/PawnMovingTest.java:113-119 | White (1,3) has no flag, so moving to (1,5) is `InvalidMove`. |
| `Scenarios.OutOfBorderTargets` | src/test/java/com/chess/chess/model/PawnMovingTest.java:121-147 | The targets (4,9) and (4,0) are `InvalidPosition`, and the pawn stays on (4,2). |
| `Scenarios.WhiteOnRankSevenIsStuck` | src/main/java/com/chess/chess/model/Pawn.java:53-54 | White (3,7) moving to the empty (3,8) fails with `InvalidPosition`, because the two-ahead probe leaves the board. |
| `Scenarios.RankEightHasNoMoves` | src/main/java/com/chess/chess/model/Pawn.java:42-44 | Pawns of both colours on rank 8 get `InvalidMove`. |
| `Scenarios.SameColourCapture` | src/main/java/com/chess/chess/model/Pawn.java:77-82 | White (4,2) takes the white pawn on (5,3). The capturing pawn is in the board's list, so afterwards `isPieceOnBoard` still reports the captured piece: the capturer now has its colour and square. |

## Left out

- `Piece.moveTo` as an abstract method dispatched over piece kinds: the pawn is the only kind, so `Board.Move` calls `Pawn.MoveTo` directly.
- `Model.Pawn.HashCode`: `PieceHash` is a stand-in arithmetic combination of position and colour. The real values of `Objects.hash` and of the record's and enum's own hash codes are not modelled. Only "equal pieces hash alike" is stated.
- `isPieceOnBoard(null)`: the argument is a non-null `Pawn`; the source's answer for a null argument is not modelled.
- The piece list holds no null: `seq<Pawn>` cannot hold one. The source copies whatever list it is given, nulls included, and then `pieceAtPosition` and `removePieceAtPosition` throw a `NullPointerException` on a null entry (Board.java:24, 31).
- Java streams, `Optional` and `ArrayList` are library code. They appear only as the recursive searches `FirstIndexAt` and `IndexOfEqual`, as `Option`, and as sequence deletion.
- The exceptions carry no message. Only their kind is modelled.
- Promotion, en passant, castling, check, turn order and same-colour capture rules are left out, because the source has none of them.
- JUnit parameterisation and AssertJ assertions are left out. A chosen subset of the test cases appears as the scenario methods.
