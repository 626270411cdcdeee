/** Coordinates and colours on the chess board. */
module Geometry {

  /** A square as (file, rank); nothing restricts the numbers until a board checks them. */
  datatype Position = Position(x: int, y: int)

  datatype Color = White | Black

  /** Rank offset of a move of `n` ranks in the forward direction of `c`:
      white advances towards higher ranks, black towards lower ones. */
  function Forward(c: Color, n: int): int
  {
    if c == Black then -n else n
  }
}

/** The failures of the board and of a piece's move, and the result types that carry them. */
module Outcomes {

  /** The three exceptions the core can raise. `NoSuchElement` is the one thrown by an
      `orElseThrow()` on an empty search result. */
  datatype Error = InvalidPosition | InvalidMove | NoSuchElement

  datatype Option<T> = None | Some(value: T)

  datatype Result<T> = Ok(value: T) | Err(error: Error)

  /** Outcome of an operation that returns nothing in the source: it completes or throws. */
  datatype Outcome = Done | Fail(error: Error)
}
