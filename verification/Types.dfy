/** Identifiers, time, the domain errors and the failure-compatible result used by every module. */
module Types {

  /** A UUID; only equality of ids is ever used. */
  type Id = nat

  /** An instant of the backend clock. */
  type Time = int

  datatype Error =
    | InvalidAmount | InsufficientBalance | NegativeBalance | PlayerNotFound | WithdrawalBlocked
    | RoomNotFound | RoomClosed | RoomNotOpen | RoomFull | AlreadyJoined | AlreadyInAnotherRoom
    | NotAMember | NotOwner | NoPlayers | MaxRoundsReached | RoundInProgress | NoActiveRound
    | RoundAlreadySettled | BettingClosed | BettingNotOpen | DuplicateBet | RoundNotFound
    | InvalidDie | InvalidBettingWindow | InvalidRoundNumber | InvalidId
    | EntropyFailed    // the dice roller reported an error
    | ConstraintViolation  // a CHECK or key constraint without a domain error of its own
    | Infrastructure   // the database failed, or the outcome of its commit is unknown
    | EngineStopped | NoLoop | Cancelled | JoinInProgress

  datatype Option<+T> = None | Some(value: T)

  datatype Result<+T> = Success(value: T) | Failure(error: Error) {
    predicate IsFailure() { Failure? }

    function PropagateFailure<U>(): Result<U>
      requires Failure?
    {
      Failure(error)
    }

    function Extract(): T
      requires Success?
    {
      value
    }
  }
}
