/** Success or a sentinel error; a failed step leaves the chain's state as it was. */
module Results {

  type Address = string
  type Denom = string

  /** The sentinel errors of the maker, bank, erc20 and gauge modules.  `Panic` stands
      for a Go panic (division by zero, a negative coin, a duplicated denomination). */
  datatype Error =
    | InvalidMessage
    | Unauthorized
    | InsufficientFunds(who: Address)
    | Panic
    | UnknownPrice
    | GridPriceTooLow
    | GridPriceTooHigh
    | BackingParamsInvalid
    | CollateralParamsInvalid
    | BackingCoinDisabled
    | CollateralCoinDisabled
    | BackingCoinAlreadyExists
    | CollateralCoinAlreadyExists
    | BackingCoinNotFound
    | CollateralCoinNotFound
    | InvalidCoins
    | OverSlippage
    | GridSlippage
    | BackingCeiling
    | CollateralCeiling
    | GridCeiling
    | BackingCoinInsufficient
    | CollateralCoinInsufficient
    | IronCoinInsufficient
    | AccountNoCollateral
    | AccountInsufficientCollateral
    | AccountNoDebt
    | NotUndercollateralized
    | TokenPairNotFound
    | TokenPairAlreadyExists
    | InternalTokenPair
    | EvmDenom
    | TooLargeAmount
    | InvalidDepositDenom
    | InvalidAmount
    | TooSmallRewardAmount
    | EvmReverted
    | InvalidMetadata
    | InputOutputMismatch

  datatype Result<+T> = Ok(value: T) | Err(error: Error) {

    predicate IsFailure() {
      Err?
    }

    function PropagateFailure<U>(): Result<U>
      requires Err?
    {
      Err(error)
    }

    function Extract(): T
      requires Ok?
    {
      value
    }
  }

  datatype Option<+T> = None | Some(value: T)

  datatype Check = Pass | Fail(error: Error) {

    predicate IsFailure() {
      Fail?
    }

    function PropagateFailure<U>(): Result<U>
      requires Fail?
    {
      Err(error)
    }
  }

  /** Continue when the condition holds, otherwise fail with the error. */
  function Need(condition: bool, error: Error): (c: Check) {
    if condition then Pass else Fail(error)
  }

  /** A method does what a specification says, and fails as it does. */
  predicate Did<T(==)>(r: Check, after: T, spec: Result<T>) {
    match r
    case Pass => spec == Ok(after)
    case Fail(e) => spec == Err(e)
  }
}
