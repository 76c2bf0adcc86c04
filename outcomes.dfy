/**
 The outcomes shared by the three voting contracts: the errors they raise,
 the result of an operation, and the pair (result, next state) that a
 state-changing operation produces.
 */
module Outcomes {

  /** One variant per distinct message the contracts throw. */
  datatype Error =
    | RegistrationClosed
    | AlreadyRegistered
    | NotRegistered
    | Unauthorized
    | TooManyOptions
    | BallotNotFound
    | AlreadyVoted

  /** The text of the thrown error for each variant. */
  function Message(e: Error): string
  {
    match e
    case RegistrationClosed => "Registration closed"
    case AlreadyRegistered => "Already registered"
    case NotRegistered => "Not registered"
    case Unauthorized => "Unauthorized"
    case TooManyOptions => "Too many options"
    case BallotNotFound => "Ballot not found"
    case AlreadyVoted => "Already voted"
  }

  /** Distinct variants throw distinct messages, so a caller that matches on
      the message text recovers the variant. */
  lemma MessageInjective(a: Error, b: Error)
    ensures Message(a) == Message(b) <==> a == b
  {
  }

  /** A returned value, or the error a contract function throws instead. */
  datatype Result<T> = Ok(value: T) | Err(error: Error)

  /** A lookup that may find nothing (`undefined` in the source). */
  datatype Option<T> = None | Some(value: T)

  /** What a state-changing operation returns, together with the state it leaves. */
  datatype Step<S, T> = Step(result: Result<T>, next: S)
}
