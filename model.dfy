/** The board and its pieces: occupancy queries, removal, and the pawn's single move.

    `Piece` is abstract in the system and `Pawn` is its only concrete kind, so the class
    `Pawn` below carries both the piece's fields (position, colour, structural equality,
    hash) and the pawn's own flag and movement rules. */
module Model {
  import opened Geometry
  import opened Outcomes

  /** A square the board accepts. */
  predicate OnBoard(p: Position)
  {
    Board.ValidatePosition(p) == Done
  }

  /** What a legal pawn move does besides relocating the pawn. */
  datatype MoveKind = Advance | Capture

  /** Stand-in for `Objects.hash(position, color)`: the same 31-based combination of a
      hash of the position and a hash of the colour. The numeric values of the record's
      and the enum's own hashes are not modelled. */
  function PieceHash(p: Position, c: Color): int
  {
    31 * (31 + (31 * p.x + p.y)) + (if c == White then 0 else 1)
  }

  /** Index of the first piece of `s` that stands on `target`: a stream filter on the
      position followed by `findFirst`. */
  function FirstIndexAt(s: seq<Pawn>, target: Position): (r: Option<nat>)
    reads s
    ensures r.Some? ==> r.value < |s| && s[r.value].position == target
    ensures r.Some? ==> forall j :: 0 <= j < r.value ==> s[j].position != target
    ensures r.None? ==> forall j :: 0 <= j < |s| ==> s[j].position != target
  {
    if |s| == 0 then None
    else if s[0].position == target then Some(0)
    else match FirstIndexAt(s[1..], target)
      case None => None
      case Some(i) => Some(i + 1)
  }

  /** Index of the first element of `s` that `o` is equal to, as the list's `indexOf`,
      `contains` and `remove(Object)` search it: `o.equals(s[i])` for i = 0, 1, ... */
  function IndexOfEqual(s: seq<Pawn>, o: Pawn): (r: Option<nat>)
    reads s, o
    ensures r.Some? ==> r.value < |s| && o.Equals(s[r.value])
    ensures r.Some? ==> forall j :: 0 <= j < r.value ==> !o.Equals(s[j])
    ensures r.None? ==> forall j :: 0 <= j < |s| ==> !o.Equals(s[j])
  {
    if |s| == 0 then None
    else if o.Equals(s[0]) then Some(0)
    else match IndexOfEqual(s[1..], o)
      case None => None
      case Some(i) => Some(i + 1)
  }

  /** `s` without its entry at index `k`; the others keep their order. */
  function RemoveAt(s: seq<Pawn>, k: nat): (r: seq<Pawn>)
    requires k < |s|
    ensures |r| == |s| - 1
    ensures forall j :: 0 <= j < k ==> r[j] == s[j]
    ensures forall j :: k <= j < |r| ==> r[j] == s[j + 1]
  {
    s[..k] + s[k + 1..]
  }

  /** The piece list after removing the first piece standing on `target`, if there is one.
      Nothing is added, an empty square leaves the list alone, an occupied one loses exactly
      one entry, and every piece standing elsewhere stays. */
  function RemoveFirstAt(s: seq<Pawn>, target: Position): (r: seq<Pawn>)
    reads s
    ensures forall q :: q in r ==> q in s
    ensures FirstIndexAt(s, target).None? ==> r == s
    ensures FirstIndexAt(s, target).Some? ==> |r| == |s| - 1
    ensures forall q :: q in s && q.position != target ==> q in r
  {
    match FirstIndexAt(s, target)
    case None => s
    case Some(k) => RemoveAt(s, k)
  }

  class Pawn {
    // The piece's state: a mutable position and a colour fixed at construction.
    var position: Position
    const color: Color
    // The pawn's own state: may it still advance two ranks?
    var isInInitialPosition: bool

    /** The flag is raised for a pawn created on rank 2 or rank 7, whatever its colour. */
    constructor (color: Color, position: Position)
      ensures this.color == color && this.position == position
      ensures isInInitialPosition <==> position.y == 2 || position.y == 7
    {
      this.position := position;
      this.color := color;
      isInInitialPosition := false;
      new;
      if position.y == 2 || position.y == 7 {
        isInInitialPosition := true;
      }
    }

    method SetPosition(p: Position)
      modifies this`position
      ensures position == p
    {
      position := p;
    }

    function GetPosition(): (p: Position)
      reads this
      ensures p == position
    {
      position
    }

    /** Structural equality of pieces. A `null` argument is never equal; the class test
        always succeeds, since every piece here is a pawn. */
    function Equals(o: Pawn?): (r: bool)
      reads this, o
      ensures r <==> o != null && position == o.position && color == o.color
    {
      if this == o then true
      else if o == null then false
      else position == o.position && color == o.color
    }

    /** A hash computed from the position and the colour alone. */
    function HashCode(): (r: int)
      reads this
      ensures r == PieceHash(position, color)
    {
      PieceHash(position, color)
    }

    // The squares a pawn looks at, relative to its forward direction.

    /** The square one rank forward: up for white, down for black, on the same file. */
    function OnePositionAhead(): (r: Position)
      reads this
      ensures r.x == position.x
      ensures color == White ==> r.y == position.y + 1
      ensures color == Black ==> r.y == position.y - 1
    {
      Position(position.x, position.y + Forward(color, 1))
    }

    /** The square two ranks forward on the same file: twice the one-ahead step. */
    function TwoPositionAhead(): (r: Position)
      reads this
      ensures r.x == position.x
      ensures r.y - position.y == 2 * (OnePositionAhead().y - position.y)
    {
      Position(position.x, position.y + Forward(color, 2))
    }

    /** The square one rank forward on the file to the left. */
    function DiagonalToTheLeft(): (r: Position)
      reads this
      ensures r.x == position.x - 1 && r.y == OnePositionAhead().y
    {
      Position(position.x - 1, position.y + Forward(color, 1))
    }

    /** The square one rank forward on the file to the right. */
    function DiagonalToTheRight(): (r: Position)
      reads this
      ensures r.x == position.x + 1 && r.y == OnePositionAhead().y
    {
      Position(position.x + 1, position.y + Forward(color, 1))
    }

    /** False exactly on the last rank in the pawn's forward direction. For a pawn on the
        board that is the rank from which the square ahead leaves the board. */
    function NotInTheLastRow(): (r: bool)
      reads this
      ensures OnBoard(position) ==> (r <==> OnBoard(OnePositionAhead()))
    {
      var inTheLastRow := color == White && Board.SIZE == position.y;
      var inTheLastRow' := inTheLastRow || (color == Black && position.y == 1);
      !inTheLastRow'
    }

    function IsTargetPositionInDiagonalToMe(target: Position): (r: bool)
      reads this
      ensures r <==> target == DiagonalToTheLeft() || target == DiagonalToTheRight()
    {
      var yPosition := if color == Black then -1 else 1;
      target == Position(position.x + 1, position.y + yPosition) ||
      target == Position(position.x - 1, position.y + yPosition)
    }

    function IsTargetPositionInFrontOfMe(target: Position): (r: bool)
      reads this
      ensures r <==> target == OnePositionAhead()
    {
      var yPosition := if color == Black then -1 else 1;
      position.y + yPosition == target.y && position.x == target.x
    }

    function IsTargetPositionTwoPositionsInFrontOfMe(target: Position): (r: bool)
      reads this
      ensures r <==> target == TwoPositionAhead()
    {
      var yPosition := if color == Black then -2 else 2;
      position.y + yPosition == target.y && position.x == target.x
    }

    /** `[d]` when the square `d` is occupied, `[]` when it is empty; the probe goes through
        the board's bounds check and fails with it. */
    function DiagonalIfOccupied(board: Board, d: Position): (r: Result<seq<Position>>)
      reads board, board.pieces
      ensures r.Err? <==> !OnBoard(d)
      ensures r.Ok? ==> forall p :: p in r.value ==> p == d && board.PieceAtPosition(p).Ok? && board.PieceAtPosition(p).value.Some?
      ensures r.Ok? && board.PieceAtPosition(d).value.Some? ==> r.value == [d]
    {
      var found := board.PieceAtPosition(d);
      if found.Err? then Err(found.error)
      else if found.value.Some? then Ok([d])
      else Ok([])
    }

    /** The occupied forward diagonals. On file 1 only the right one is probed, on file 8
        only the left one, elsewhere the left one and then the right one. */
    function DiagonalMovesIfApply(board: Board): (r: Result<seq<Position>>)
      reads this, board, board.pieces
      ensures r.Ok? ==> forall p :: p in r.value ==>
                IsTargetPositionInDiagonalToMe(p) && board.PieceAtPosition(p).Ok? && board.PieceAtPosition(p).value.Some?
    {
      if position.x == 1 then
        DiagonalIfOccupied(board, DiagonalToTheRight())
      else if position.x == 8 then
        DiagonalIfOccupied(board, DiagonalToTheLeft())
      else
        var left := DiagonalIfOccupied(board, DiagonalToTheLeft());
        if left.Err? then left
        else
          var right := DiagonalIfOccupied(board, DiagonalToTheRight());
          if right.Err? then right
          else Ok(left.value + right.value)
    }

    /** The destinations the pawn may move to on `board`, in the order they are collected:
        one ahead, two ahead, then the diagonals. The squares ahead are probed through the
        board's bounds check before it is known whether they are wanted, so a probe that
        leaves the board makes the whole computation fail. */
    function PossibleMoves(board: Board): (r: Result<seq<Position>>)
      reads this, board, board.pieces
      ensures r.Err? ==> r.error == InvalidPosition
      ensures r.Ok? ==> forall p :: p in r.value ==> OnBoard(p) && p != position
    {
      if position.y >= Board.SIZE then Ok([])
      else
        var onePositionAhead := OnePositionAhead();
        var pieceOnePositionAhead := board.PieceAtPosition(onePositionAhead);
        if pieceOnePositionAhead.Err? then Err(pieceOnePositionAhead.error)
        else
          var single := if NotInTheLastRow() && pieceOnePositionAhead.value.None? then [onePositionAhead] else [];
          var twoPositionAhead := TwoPositionAhead();
          var pieceTwoPositionAhead := board.PieceAtPosition(twoPositionAhead);
          if pieceTwoPositionAhead.Err? then Err(pieceTwoPositionAhead.error)
          else
            var double := if isInInitialPosition && pieceOnePositionAhead.value.None? && pieceTwoPositionAhead.value.None?
                          then [twoPositionAhead] else [];
            var diagonals := DiagonalMovesIfApply(board);
            if diagonals.Err? then Err(diagonals.error)
            else Ok(single + double + diagonals.value)
    }

    /** What a move of this pawn to `target` amounts to: the failure of the destination
        computation, an illegal move when `target` is not a destination, and otherwise a
        capture for a diagonal target and a plain advance for a straight one. */
    function Decision(target: Position, board: Board): (r: Result<MoveKind>)
      reads this, board, board.pieces
      ensures r.Err? ==> r.error == InvalidPosition || r.error == InvalidMove
      ensures r.Ok? ==> OnBoard(target) && target != position
    {
      var moves := PossibleMoves(board);
      if moves.Err? then Err(moves.error)
      else if target !in moves.value then Err(InvalidMove)
      else if IsTargetPositionInDiagonalToMe(target) then Ok(Capture)
      else Ok(Advance)
    }

    /** The pawn's move. A failure changes neither the pawn nor the board; a success removes
        the occupant of a diagonal target, relocates the pawn and clears its flag. */
    method MoveTo(target: Position, board: Board) returns (outcome: Outcome)
      modifies this, board
      ensures old(Decision(target, board)).Err? ==>
                outcome == Fail(old(Decision(target, board)).error) &&
                position == old(position) && isInInitialPosition == old(isInInitialPosition) &&
                board.pieces == old(board.pieces)
      ensures old(Decision(target, board)) == Ok(Advance) ==>
                outcome == Done && position == target && !isInInitialPosition &&
                board.pieces == old(board.pieces)
      ensures old(Decision(target, board)) == Ok(Capture) ==>
                outcome == Done && position == target && !isInInitialPosition &&
                board.pieces == old(RemoveFirstAt(board.pieces, target))
    {
      var possibleMoves := PossibleMoves(board);
      if possibleMoves.Err? {
        return Fail(possibleMoves.error);
      }
      if target !in possibleMoves.value {
        return Fail(InvalidMove);
      }
      ListedMoveFitsItsRule(this, board, target);
      // Every listed square went through the same bounds check, so this query succeeds.
      var pieceAtTargetPosition := board.PieceAtPosition(target);
      var isThereAPieceAtTargetPosition := pieceAtTargetPosition.value.Some?;
      if isThereAPieceAtTargetPosition &&
         (IsTargetPositionInFrontOfMe(target) || IsTargetPositionTwoPositionsInFrontOfMe(target)) {
        // A square straight ahead is only listed when it is empty.
        assert false;
      }
      if isThereAPieceAtTargetPosition && IsTargetPositionInDiagonalToMe(target) {
        var removed := board.RemovePieceAtPosition(target);
        assert removed == Done;
      }
      if !isThereAPieceAtTargetPosition && IsTargetPositionInDiagonalToMe(target) {
        // A diagonal square is only listed when it is occupied.
        assert false;
      }
      SetPosition(target);
      isInInitialPosition := false;
      outcome := Done;
    }
  }

  /** Every destination the pawn lists meets the rule it was listed under: a square
      straight ahead is empty, a diagonal one is occupied. */
  lemma ListedMoveFitsItsRule(pawn: Pawn, board: Board, target: Position)
    requires pawn.PossibleMoves(board).Ok? && target in pawn.PossibleMoves(board).value
    ensures target == pawn.OnePositionAhead() || target == pawn.TwoPositionAhead() ==>
              board.PieceAtPosition(target) == Ok(None)
    ensures pawn.IsTargetPositionInDiagonalToMe(target) ==>
              board.PieceAtPosition(target).Ok? && board.PieceAtPosition(target).value.Some?
  {
  }

  class Board {
    static const SIZE: int := 8

    var pieces: seq<Pawn>

    /** The board keeps its own copy of the list: later changes to the caller's list are
        not seen, which a sequence value gives for free. */
    constructor (pieces: seq<Pawn>)
      ensures this.pieces == pieces
    {
      this.pieces := pieces;
    }

    /** Accepts a square exactly when both coordinates lie in 1..SIZE. */
    static function ValidatePosition(p: Position): (r: Outcome)
      ensures r == Done || r == Fail(InvalidPosition)
      ensures r == Done <==> 1 <= p.x <= SIZE && 1 <= p.y <= SIZE
    {
      var withinLimit := p.x >= 1 && p.x <= SIZE;
      var withinLimit' := withinLimit && p.y >= 1 && p.y <= SIZE;
      if withinLimit' then Done else Fail(InvalidPosition)
    }

    /** The first piece, in list order, standing on `target`, or none. */
    function PieceAtPosition(target: Position): (r: Result<Option<Pawn>>)
      reads this, pieces
      ensures r.Err? <==> !OnBoard(target)
      ensures r.Err? ==> r.error == InvalidPosition
      ensures r.Ok? && r.value.Some? ==>
                exists i :: 0 <= i < |pieces| && pieces[i] == r.value.value && pieces[i].position == target &&
                            forall j :: 0 <= j < i ==> pieces[j].position != target
      ensures r.Ok? ==> (r.value.None? <==> forall q :: q in pieces ==> q.position != target)
    {
      if ValidatePosition(target).Fail? then Err(InvalidPosition)
      else match FirstIndexAt(pieces, target)
        case None => Ok(None)
        case Some(i) => Ok(Some(pieces[i]))
    }

    /** Removes the first piece standing on `position`; an empty square is a
        no-such-element failure. */
    method RemovePieceAtPosition(position: Position) returns (outcome: Outcome)
      modifies this
      ensures !OnBoard(position) ==> outcome == Fail(InvalidPosition) && pieces == old(pieces)
      ensures OnBoard(position) && old(PieceAtPosition(position)) == Ok(None) ==>
                outcome == Fail(NoSuchElement) && pieces == old(pieces)
      ensures OnBoard(position) && old(PieceAtPosition(position)).value.Some? ==>
                outcome == Done && pieces == old(RemoveFirstAt(pieces, position))
    {
      outcome := ValidatePosition(position);
      if outcome.Fail? {
        return;
      }
      var found := FirstIndexAt(pieces, position);
      if found.None? {
        return Fail(NoSuchElement);
      }
      var pieceToRemove := pieces[found.value];
      RemovalFindsTheFirstMatch(pieces, position);
      // The list's remove(Object) deletes the first element equal to its argument.
      var index := IndexOfEqual(pieces, pieceToRemove);
      if index.Some? {
        pieces := RemoveAt(pieces, index.value);
      }
    }

    /** Membership by structural equality, as the list's `contains` decides it. */
    function IsPieceOnBoard(piece: Pawn): (r: bool)
      reads this, pieces, piece
      ensures r <==> exists q :: q in pieces && q.position == piece.position && q.color == piece.color
    {
      IndexOfEqual(pieces, piece).Some?
    }

    /** What a move of `piece` to `target` amounts to on this board: the target is checked
        first, then the piece decides. */
    function MoveDecision(piece: Pawn, target: Position): (r: Result<MoveKind>)
      reads this, pieces, piece
      ensures !OnBoard(target) ==> r == Err(InvalidPosition)
      ensures r.Err? ==> r.error != NoSuchElement
      ensures r.Ok? ==> OnBoard(target) && target != piece.position
    {
      if ValidatePosition(target).Fail? then Err(InvalidPosition)
      else piece.Decision(target, this)
    }

    /** Checks the target, then delegates to the piece. The piece need not be on the board. */
    method Move(piece: Pawn, target: Position) returns (outcome: Outcome)
      modifies this, piece
      ensures old(MoveDecision(piece, target)).Err? ==>
                outcome == Fail(old(MoveDecision(piece, target)).error) &&
                piece.position == old(piece.position) &&
                piece.isInInitialPosition == old(piece.isInInitialPosition) &&
                pieces == old(pieces)
      ensures old(MoveDecision(piece, target)) == Ok(Advance) ==>
                outcome == Done && piece.position == target && !piece.isInInitialPosition &&
                pieces == old(pieces)
      ensures old(MoveDecision(piece, target)) == Ok(Capture) ==>
                outcome == Done && piece.position == target && !piece.isInInitialPosition &&
                pieces == old(RemoveFirstAt(pieces, target))
    {
      outcome := ValidatePosition(target);
      if outcome.Fail? {
        return;
      }
      outcome := piece.MoveTo(target, this);
    }
  }

  /** The list's removal by equality, applied to the piece found by the position search,
      deletes that very entry: no earlier entry stands on the same square, so none is
      equal to it. */
  lemma RemovalFindsTheFirstMatch(s: seq<Pawn>, target: Position)
    requires FirstIndexAt(s, target).Some?
    ensures IndexOfEqual(s, s[FirstIndexAt(s, target).value]) == FirstIndexAt(s, target)
  {
    var k := FirstIndexAt(s, target).value;
    assert s[k].Equals(s[k]);
  }
}
