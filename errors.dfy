/** Failure values of the rules engine. The source reports failures as Go
    `error` values built from fixed messages or, for broken invariants, by
    panicking; here each kind of failure is a constructor. */
module Errors {

  datatype Error =
    | EmptyDeck                    // "Cannot draw from empty deck"
    | InsufficientLabyrinthCards   // drawHand ran out of cards before a full hand
    | InvalidIndex                 // "Invalid index."
    | AdjacentSymbols              // "Cannot place adjacent symbols."
    | InvalidPermutation           // a prophecy order that is not a rearrangement
    | InvalidPlayerCount           // "Num players must be 1 or 2."

  datatype Result<+T> = Ok(value: T) | Err(error: Error)

  datatype Option<+T> = None | Some(value: T)
}
