/**
 Everything that changes the maker's state, one action at a time: messages, governance
 proposals, the end of a block, and coins moving elsewhere on the chain.
 */
module MakerChain {
  import opened FixedPoint
  import opened Results
  import opened Bank
  import opened LoanMath
  import opened MakerState
  import opened MakerSpec

  // --- Governance -----------------------------------------------------------------

  /** Missing fees default to zero. */
  function FilledBacking(p: BackingProposal): BackingParams {
    BackingParams(p.enabled, p.maxBacking, p.maxGridMint,
                  Or(p.mintFee, 0), Or(p.burnFee, 0), Or(p.buybackFee, 0), Or(p.rebackFee, 0))
  }

  function FilledCollateral(p: CollateralProposal): CollateralParams {
    CollateralParams(p.enabled, p.maxCollateral, p.maxGridMint,
                     Terms(Or(p.threshold, 70 * ONE / 100), Or(p.loanToValue, 60 * ONE / 100),
                           Or(p.basicLoanToValue, 40 * ONE / 100), Or(p.catalyticRatio, 10 * ONE / 100),
                           Or(p.liquidationFee, 10 * ONE / 100)),
                     Or(p.mintFee, 5 * ONE / 1000), Or(p.interestFee, 1 * ONE / 100))
  }

  /** The reback fee must not exceed the reback bonus. */
  function ValidateBacking(env: Env, p: BackingParams): Check {
    Need(p.rebackFee <= env.params.rebackBonus, BackingParamsInvalid)
  }

  /** The loan limit lies strictly below the liquidation threshold, and the basic limit
      not above the loan limit. */
  function ValidateCollateral(p: CollateralParams): Check {
    Need(p.terms.loanToValue < p.terms.threshold && p.terms.basicLoanToValue <= p.terms.loanToValue,
         CollateralParamsInvalid)
  }

  function RegisterBackingStep(env: Env, s: State, p: BackingProposal): Result<State> {
    var b, params := s.backing, FilledBacking(p);
    :- Need(BackingProposalBasic(p), InvalidMessage);
    :- Need(p.denom !in b.params, BackingCoinAlreadyExists);
    :- Need(s.bank.Supply(p.denom) > 0, InvalidCoins);
    :- ValidateBacking(env, params);
    Ok(s.(backing := BackingBook(b.params[p.denom := params], Some(b.Total()),
                                 b.pools[p.denom := PoolBacking(0, 0, 0)])))
  }

  function RegisterCollateralStep(env: Env, s: State, p: CollateralProposal): Result<State> {
    var b, params := s.collateral, FilledCollateral(p);
    :- Need(CollateralProposalBasic(p), InvalidMessage);
    :- Need(p.denom !in b.params, CollateralCoinAlreadyExists);
    :- Need(s.bank.Supply(p.denom) > 0, InvalidCoins);
    :- ValidateCollateral(params);
    Ok(s.(collateral := b.(params := b.params[p.denom := params],
                           total := Some(b.Total()),
                           pools := b.pools[p.denom := PoolCollateral(0, 0, 0)])))
  }

  /** Patching a limit that was never set writes through a nil pointer. */
  predicate LimitPatchable(stored: Option<int>, patch: Option<int>) {
    patch.Some? ==> stored.Some?
  }

  function PatchedBacking(b: BackingParams, p: BackingProposal): BackingParams {
    BackingParams(p.enabled,
                  if p.maxBacking.Some? then p.maxBacking else b.maxBacking,
                  if p.maxGridMint.Some? then p.maxGridMint else b.maxGridMint,
                  Or(p.mintFee, b.mintFee), Or(p.burnFee, b.burnFee),
                  Or(p.buybackFee, b.buybackFee), Or(p.rebackFee, b.rebackFee))
  }

  function PatchedCollateral(c: CollateralParams, p: CollateralProposal): CollateralParams {
    CollateralParams(p.enabled,
                     if p.maxCollateral.Some? then p.maxCollateral else c.maxCollateral,
                     if p.maxGridMint.Some? then p.maxGridMint else c.maxGridMint,
                     Terms(Or(p.threshold, c.terms.threshold), Or(p.loanToValue, c.terms.loanToValue),
                           Or(p.basicLoanToValue, c.terms.basicLoanToValue),
                           Or(p.catalyticRatio, c.terms.catalyticRatio),
                           Or(p.liquidationFee, c.terms.liquidationFee)),
                     Or(p.mintFee, c.mintFee), Or(p.interestFee, c.interestFee))
  }

  predicate EmptyBackingPatch(b: BackingParams, p: BackingProposal) {
    && b.enabled == p.enabled && p.maxBacking.None? && p.maxGridMint.None?
    && p.mintFee.None? && p.burnFee.None? && p.buybackFee.None? && p.rebackFee.None?
  }

  predicate EmptyCollateralPatch(c: CollateralParams, p: CollateralProposal) {
    && c.enabled == p.enabled && p.maxCollateral.None? && p.maxGridMint.None?
    && p.threshold.None? && p.loanToValue.None? && p.basicLoanToValue.None? && p.catalyticRatio.None?
    && p.liquidationFee.None? && p.mintFee.None? && p.interestFee.None?
  }

  function SetBackingStep(env: Env, s: State, p: BackingProposal): Result<State> {
    var b := s.backing;
    :- Need(BackingProposalBasic(p), InvalidMessage);
    :- Need(p.denom in b.params, BackingCoinNotFound);
    var was := b.params[p.denom];
    :- Need(LimitPatchable(was.maxBacking, p.maxBacking) && LimitPatchable(was.maxGridMint, p.maxGridMint), Panic);
    if EmptyBackingPatch(was, p) then Ok(s) else
      var now := PatchedBacking(was, p);
      :- ValidateBacking(env, now);
      Ok(s.(backing := b.(params := b.params[p.denom := now])))
  }

  function SetCollateralStep(env: Env, s: State, p: CollateralProposal): Result<State> {
    var b := s.collateral;
    :- Need(CollateralProposalBasic(p), InvalidMessage);
    :- Need(p.denom in b.params, CollateralCoinNotFound);
    var was := b.params[p.denom];
    :- Need(LimitPatchable(was.maxCollateral, p.maxCollateral) && LimitPatchable(was.maxGridMint, p.maxGridMint),
            Panic);
    if EmptyCollateralPatch(was, p) then Ok(s) else
      var now := PatchedCollateral(was, p);
      :- ValidateCollateral(now);
      Ok(s.(collateral := b.(params := b.params[p.denom := now])))
  }

  function SetBackingBatch(env: Env, s: State, ps: seq<BackingProposal>): Result<State>
    decreases ps
  {
    if ps == [] then Ok(s) else
      var s1 :- SetBackingStep(env, s, ps[0]);
      SetBackingBatch(env, s1, ps[1..])
  }

  function SetCollateralBatch(env: Env, s: State, ps: seq<CollateralProposal>): Result<State>
    decreases ps
  {
    if ps == [] then Ok(s) else
      var s1 :- SetCollateralStep(env, s, ps[0]);
      SetCollateralBatch(env, s1, ps[1..])
  }

  // --- The end of a block ---------------------------------------------------------

  /** Move the backing ratio one step against the stablecoin's price, at most once per
      cooldown; a missing price panics. */
  function AdjustRatio(env: Env, s: State): Result<State> {
    var p := env.params;
    if s.height - s.ratioBlock < p.ratioCooldown || p.ratioStep == 0 then Ok(s) else
      var band := Mul(ONE, p.ratioPriceBand);
      :- Need(USM in env.prices && 0 <= s.height, Panic);
      var price := env.prices[USM];
      var ratio :=
        if price > ONE + band then Max(s.ratio - p.ratioStep, 0)
        else if price < ONE - band then Min(s.ratio + p.ratioStep, ONE)
        else s.ratio;
      Ok(s.(ratio := ratio, ratioBlock := s.height))
  }

  function EndBlockStep(env: Env, s: State): Result<State> {
    var s1 :- AdjustRatio(env, s);
    Ok(s1.(height := s1.height + 1))
  }

  // --- Actions and runs -----------------------------------------------------------

  datatype Action =
    | Tx(msg: Msg)
    | RegisterBacking(backing: BackingProposal)
    | RegisterCollateral(collateral: CollateralProposal)
    | SetBacking(backings: seq<BackingProposal>)
    | SetCollateral(collaterals: seq<CollateralProposal>)
    | EndBlock
    | Elsewhere(moves: seq<Move>)

  /** Other modules neither touch the maker's account nor mint or burn its two coins. */
  predicate MindsItsBusiness(m: Move) {
    match m
    case Transfer(from, to, _) => from != MAKER && to != MAKER
    case Mint(to, coin) => to != MAKER && coin.denom != USM && coin.denom != IRON
    case Burn(from, coin) => from != MAKER && coin.denom != USM && coin.denom != IRON
  }

  function ElsewhereStep(s: State, moves: seq<Move>): Result<State> {
    var allowed := forall m | m in moves :: MindsItsBusiness(m);
    :- Need(allowed, Unauthorized);
    var bank :- ApplyAll(s.bank, moves);
    Ok(s.(bank := bank))
  }

  ghost function Step(env: Env, s: State, a: Action): Result<State>
  {
    match a
    case Tx(msg) => MsgStep(env, s, msg)
    case RegisterBacking(p) => RegisterBackingStep(env, s, p)
    case RegisterCollateral(p) => RegisterCollateralStep(env, s, p)
    case SetBacking(ps) => SetBackingBatch(env, s, ps)
    case SetCollateral(ps) => SetCollateralBatch(env, s, ps)
    case EndBlock => EndBlockStep(env, s)
    case Elsewhere(moves) => ElsewhereStep(s, moves)
  }

  /** A failed action leaves no trace. */
  ghost function Next(env: Env, s: State, a: Action): State
  {
    var r := Step(env, s, a);
    if r.Ok? then r.value else s
  }
}
