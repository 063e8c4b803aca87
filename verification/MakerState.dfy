/**
 The maker module's records, its messages and what the messages' stateless validation
 lets through.
 */
module MakerState {
  import opened FixedPoint
  import opened Results
  import opened Bank
  import opened LoanMath

  /** The stablecoin and the volatile coin, in their smallest units. */
  const USM: Denom := "uusm"
  const IRON: Denom := "airon"

  /** Module accounts. */
  const MAKER: Address := "maker"
  const ORACLE: Address := "oracle"

  // --- Records --------------------------------------------------------------------

  datatype BackingParams = BackingParams(
    enabled: bool,
    maxBacking: Option<int>,
    maxGridMint: Option<int>,
    mintFee: Dec,
    burnFee: Dec,
    buybackFee: Dec,
    rebackFee: Dec)

  datatype CollateralParams = CollateralParams(
    enabled: bool,
    maxCollateral: Option<int>,
    maxGridMint: Option<int>,
    terms: Terms,
    mintFee: Dec,
    interestFee: Dec)

  datatype TotalBacking = TotalBacking(gridMinted: int, ironBurned: int)

  datatype PoolBacking = PoolBacking(gridMinted: int, backing: int, ironBurned: int)

  datatype TotalCollateral = TotalCollateral(gridDebt: int, iron: int)

  datatype PoolCollateral = PoolCollateral(collateral: int, gridDebt: int, iron: int)

  datatype AccountCollateral = AccountCollateral(
    collateral: int,
    gridDebt: int,
    iron: int,
    lastInterest: int,
    lastSettlementBlock: int)

  const NO_BACKING := TotalBacking(0, 0)
  const NO_COLLATERAL := TotalCollateral(0, 0)

  /** The module's parameters. */
  datatype Params = Params(
    ratioStep: nat,
    ratioPriceBand: Dec,
    ratioCooldown: int,
    mintPriceBias: Dec,
    burnPriceBias: Dec,
    rebackBonus: Dec,
    commissionFee: Dec)

  predicate Fraction(x: Dec) {
    0 <= x <= ONE
  }

  /** What the parameter subspace accepts. */
  predicate ParamsOk(p: Params) {
    && Fraction(p.ratioStep)
    && 0 < p.ratioPriceBand <= ONE
    && 0 < p.ratioCooldown
    && 0 < p.mintPriceBias <= ONE
    && 0 < p.burnPriceBias <= ONE
    && Fraction(p.rebackBonus)
    && Fraction(p.commissionFee)
  }

  predicate BackingParamsOk(p: BackingParams) {
    Fraction(p.mintFee) && Fraction(p.burnFee) && Fraction(p.buybackFee) && Fraction(p.rebackFee)
  }

  predicate CollateralParamsOk(p: CollateralParams) {
    TermsOk(p.terms) && Fraction(p.mintFee) && Fraction(p.interestFee)
  }

  /** What a step sees of the rest of the chain: oracle prices, module parameters, and
      the accounts that may not receive coins. */
  datatype Env = Env(prices: map<Denom, nat>, params: Params, blocked: set<Address>)

  predicate EnvOk(env: Env) {
    ParamsOk(env.params) && MAKER in env.blocked
  }

  /** The ledger of coins swapped for the stablecoin. */
  datatype BackingBook = BackingBook(
    params: map<Denom, BackingParams>,
    total: Option<TotalBacking>,
    pools: map<Denom, PoolBacking>)
  {
    function Total(): TotalBacking {
      if total.Some? then total.value else NO_BACKING
    }
  }

  /** The ledger of collateral deposited and stablecoins borrowed against it. */
  datatype CollateralBook = CollateralBook(
    params: map<Denom, CollateralParams>,
    total: Option<TotalCollateral>,
    pools: map<Denom, PoolCollateral>,
    accounts: map<(Address, Denom), AccountCollateral>)
  {
    function Total(): TotalCollateral {
      if total.Some? then total.value else NO_COLLATERAL
    }
  }

  datatype State = State(
    bank: Bank,
    height: int,
    ratio: nat,
    ratioBlock: int,
    backing: BackingBook,
    collateral: CollateralBook)

  // --- Messages -------------------------------------------------------------------

  datatype Msg =
    | MintBySwap(sender: Address, to: Option<Address>, backingInMax: Coin, ironInMax: nat, mintOutMin: nat, full: bool)
    | BurnBySwap(sender: Address, to: Option<Address>, burnIn: nat, backingOutMin: Coin, ironOutMin: nat)
    | BuyBacking(sender: Address, to: Option<Address>, ironIn: nat, backingOutMin: Coin)
    | SellBacking(sender: Address, to: Option<Address>, backingIn: Coin, ironOutMin: nat)
    | MintByCollateral(sender: Address, to: Option<Address>, denom: Denom, mintOut: nat)
    | BurnByCollateral(sender: Address, denom: Denom, repayInMax: nat)
    | DepositCollateral(sender: Address, to: Option<Address>, collateralIn: Coin, ironIn: nat)
    | RedeemCollateral(sender: Address, to: Option<Address>, collateralOut: Coin, ironOut: nat)
    | LiquidateCollateral(sender: Address, to: Option<Address>, debtor: Address, seize: Coin, repayInMax: nat)

  /** A message without a receiver pays its sender. */
  function Receiver(m: Msg): Address {
    if m.BurnByCollateral? then m.sender
    else if m.to.Some? then m.to.value
    else m.sender
  }

  /** Stateless validation; a module account has no key, so it signs nothing. */
  predicate ValidateBasic(m: Msg) {
    && m.sender != MAKER
    && match m
       case MintBySwap(_, _, backing, iron, out, full) =>
         out > 0 && (backing.amount > 0 || iron > 0) && (full ==> iron == 0)
       case BurnBySwap(_, _, burnIn, _, _) => burnIn > 0
       case BuyBacking(_, _, ironIn, _) => ironIn > 0
       case SellBacking(_, _, backingIn, _) => backingIn.amount > 0
       case MintByCollateral(_, _, _, mintOut) => mintOut > 0
       case BurnByCollateral(_, _, repay) => repay > 0
       case DepositCollateral(_, _, coll, iron) => coll.amount > 0 || iron > 0
       case RedeemCollateral(_, _, coll, iron) => coll.amount > 0 || iron > 0
       case LiquidateCollateral(_, _, _, seize, repay) => seize.amount > 0 && repay > 0
  }

  // --- Proposals ------------------------------------------------------------------

  /** Proposed or patched parameters: an absent field takes its default or stays. */
  datatype BackingProposal = BackingProposal(
    denom: Denom, enabled: bool,
    maxBacking: Option<int>, maxGridMint: Option<int>,
    mintFee: Option<Dec>, burnFee: Option<Dec>, buybackFee: Option<Dec>, rebackFee: Option<Dec>)

  datatype CollateralProposal = CollateralProposal(
    denom: Denom, enabled: bool,
    maxCollateral: Option<int>, maxGridMint: Option<int>,
    threshold: Option<Dec>, loanToValue: Option<Dec>, basicLoanToValue: Option<Dec>,
    catalyticRatio: Option<Dec>, liquidationFee: Option<Dec>,
    mintFee: Option<Dec>, interestFee: Option<Dec>)

  predicate OptFraction(x: Option<Dec>) {
    x.Some? ==> Fraction(x.value)
  }

  predicate OptNonneg(x: Option<int>) {
    x.Some? ==> x.value >= 0
  }

  predicate BackingProposalBasic(p: BackingProposal) {
    && OptNonneg(p.maxBacking) && OptNonneg(p.maxGridMint)
    && OptFraction(p.mintFee) && OptFraction(p.burnFee)
    && OptFraction(p.buybackFee) && OptFraction(p.rebackFee)
  }

  predicate CollateralProposalBasic(p: CollateralProposal) {
    && OptNonneg(p.maxCollateral) && OptNonneg(p.maxGridMint)
    && OptFraction(p.threshold) && OptFraction(p.loanToValue) && OptFraction(p.basicLoanToValue)
    && OptFraction(p.catalyticRatio) && OptFraction(p.liquidationFee)
    && OptFraction(p.mintFee) && OptFraction(p.interestFee)
  }

  function Or<T>(x: Option<T>, y: T): T {
    if x.Some? then x.value else y
  }
}
