/** The exceptions the engine throws, and a result type that carries them. */
module Results {

  /** One constructor per `throw` site kind in the engine. */
  datatype Error =
    | InvalidAmount       // a non-positive bet or deposit, a negative credit
    | InsufficientFunds   // a debit larger than the balance
    | BelowTableMinimum   // a bet under 1
    | AboveTableMaximum   // a bet over 1000
    | EmptyShoe           // a draw with no card left, even after a reshuffle
    | InvalidThreshold    // a reshuffle threshold outside [0, 1]
    | CannotSplit         // a split of a hand that is not a pair

  /** An optional argument; `None` stands for the JS `null` default. */
  datatype Option<+T> = None | Some(value: T)

  datatype Result<+T> = Ok(value: T) | Err(error: Error) {

    predicate IsFailure() {
      Err?
    }

    function PropagateFailure<U>(): Result<U>
      requires Err?
    {
      Err(error)
    }

    function Extract(): T
      requires Ok?
    {
      value
    }
  }
}
