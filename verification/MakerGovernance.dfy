/**
 What governance may do to the maker: register coins with stated defaults and patch their
 parameters field by field, touching nothing else and never leaving invalid terms.
 */
module MakerGovernance {
  import opened FixedPoint
  import opened Results
  import opened LoanMath
  import opened MakerState
  import opened MakerChain
  import opened MakerInvariant
  import opened MakerRuns
  import opened MakerCeilings
  import opened Runs

  /** A field as given, or else its other value. */
  predicate GivenOr<T(==)>(given: Option<T>, other: T, now: T) {
    if given.Some? then now == given.value else now == other
  }

  /** A limit as given, or else as it was. */
  predicate LimitOr(given: Option<int>, other: Option<int>, now: Option<int>) {
    if given.Some? then now == given else now == other
  }

  /** Backing parameters follow a proposal, with other values where it is silent. */
  predicate BackingFollows(p: BackingProposal, other: BackingParams, now: BackingParams) {
    && now.enabled == p.enabled
    && LimitOr(p.maxBacking, other.maxBacking, now.maxBacking)
    && LimitOr(p.maxGridMint, other.maxGridMint, now.maxGridMint)
    && GivenOr(p.mintFee, other.mintFee, now.mintFee) && GivenOr(p.burnFee, other.burnFee, now.burnFee)
    && GivenOr(p.buybackFee, other.buybackFee, now.buybackFee) && GivenOr(p.rebackFee, other.rebackFee, now.rebackFee)
  }

  predicate CollateralFollows(p: CollateralProposal, other: CollateralParams, now: CollateralParams) {
    && now.enabled == p.enabled
    && LimitOr(p.maxCollateral, other.maxCollateral, now.maxCollateral)
    && LimitOr(p.maxGridMint, other.maxGridMint, now.maxGridMint)
    && GivenOr(p.threshold, other.terms.threshold, now.terms.threshold)
    && GivenOr(p.loanToValue, other.terms.loanToValue, now.terms.loanToValue)
    && GivenOr(p.basicLoanToValue, other.terms.basicLoanToValue, now.terms.basicLoanToValue)
    && GivenOr(p.catalyticRatio, other.terms.catalyticRatio, now.terms.catalyticRatio)
    && GivenOr(p.liquidationFee, other.terms.liquidationFee, now.terms.liquidationFee)
    && GivenOr(p.mintFee, other.mintFee, now.mintFee) && GivenOr(p.interestFee, other.interestFee, now.interestFee)
  }

  /** The defaults: no fees on backing; 70% threshold, 60% and 40% loan limits, 10% catalytic
      ratio and liquidation fee, 0.5% mint fee and 1% interest on collateral; no limits. */
  const BACKING_DEFAULTS := BackingParams(false, None, None, 0, 0, 0, 0)
  const COLLATERAL_DEFAULTS := CollateralParams(
    false, None, None,
    Terms(700000000000000000, 600000000000000000, 400000000000000000, 100000000000000000, 100000000000000000),
    5000000000000000, 10000000000000000)

  /** Only the backing ledger changes, and there only what concerns one denomination. */
  predicate OnlyBacking(s: State, s': State, d: Denom) {
    && s' == s.(backing := s'.backing) && s'.backing.Total() == s.backing.Total()
    && d in s'.backing.params && s'.backing.params - {d} == s.backing.params - {d}
    && s'.backing.pools - {d} == s.backing.pools - {d}
  }

  predicate OnlyCollateral(s: State, s': State, d: Denom) {
    && s' == s.(collateral := s'.collateral) && s'.collateral.Total() == s.collateral.Total()
    && s'.collateral.accounts == s.collateral.accounts
    && d in s'.collateral.params && s'.collateral.params - {d} == s.collateral.params - {d}
    && s'.collateral.pools - {d} == s.collateral.pools - {d}
  }

  // --- Registration and patches ---------------------------------------------------

  /** A backing coin as governance leaves it: registered, it has the proposed fields, zero fees
      where none is proposed, and an empty pool; patched, it keeps the fields not given and
      its pool.  No other coin, pool or total changes. */
  lemma BackingGoverned(env: Env, s: State, p: BackingProposal)
    ensures RegisterBackingStep(env, s, p).Ok? ==>
              var s' := RegisterBackingStep(env, s, p).value;
              && p.denom !in s.backing.params && OnlyBacking(s, s', p.denom) && s'.backing.total.Some?
              && BackingFollows(p, BACKING_DEFAULTS, s'.backing.params[p.denom])
              && p.denom in s'.backing.pools && s'.backing.pools[p.denom] == PoolBacking(0, 0, 0)
    ensures SetBackingStep(env, s, p).Ok? ==>
              var s' := SetBackingStep(env, s, p).value;
              && p.denom in s.backing.params && OnlyBacking(s, s', p.denom) && s'.backing.pools == s.backing.pools
              && BackingFollows(p, s.backing.params[p.denom], s'.backing.params[p.denom])
  {
  }

  /** The basic limit is at most the loan limit, which is below the threshold. */
  predicate InOrder(threshold: Dec, loanToValue: Dec, basic: Dec) {
    basic <= loanToValue < threshold
  }

  /** A backing coin is registered exactly if it is new, has a supply, and its reback fee is at
      most the bonus; it is patched exactly if it is known, no limit is set that never was, and
      the fee it ends up with is at most the bonus, or nothing changes. */
  lemma BackingGovernedWhen(env: Env, s: State, p: BackingProposal)
    ensures RegisterBackingStep(env, s, p).Ok? <==>
              && BackingProposalBasic(p) && p.denom !in s.backing.params && 0 < s.bank.Supply(p.denom)
              && Or(p.rebackFee, 0) <= env.params.rebackBonus
    ensures SetBackingStep(env, s, p).Ok? <==>
              && BackingProposalBasic(p) && p.denom in s.backing.params
              && var was := s.backing.params[p.denom];
                 && (p.maxBacking.Some? ==> was.maxBacking.Some?) && (p.maxGridMint.Some? ==> was.maxGridMint.Some?)
                 && (EmptyBackingPatch(was, p) || Or(p.rebackFee, was.rebackFee) <= env.params.rebackBonus)
  {
  }

  /** A collateral coin is registered exactly if it is new, has a supply, and its terms are in
      order; it is patched exactly if it is known, no limit is set that never was, and the terms
      it ends up with are in order, or nothing changes. */
  lemma CollateralGovernedWhen(env: Env, s: State, p: CollateralProposal)
    ensures RegisterCollateralStep(env, s, p).Ok? <==>
              && CollateralProposalBasic(p) && p.denom !in s.collateral.params && 0 < s.bank.Supply(p.denom)
              && InOrder(Or(p.threshold, 70 * ONE / 100), Or(p.loanToValue, 60 * ONE / 100),
                         Or(p.basicLoanToValue, 40 * ONE / 100))
    ensures SetCollateralStep(env, s, p).Ok? <==>
              && CollateralProposalBasic(p) && p.denom in s.collateral.params
              && var was := s.collateral.params[p.denom];
                 && (p.maxCollateral.Some? ==> was.maxCollateral.Some?)
                 && (p.maxGridMint.Some? ==> was.maxGridMint.Some?)
                 && (EmptyCollateralPatch(was, p)
                     || InOrder(Or(p.threshold, was.terms.threshold), Or(p.loanToValue, was.terms.loanToValue),
                                Or(p.basicLoanToValue, was.terms.basicLoanToValue)))
  {
  }

  /** A collateral coin likewise, with its own defaults; and no account changes. */
  lemma CollateralGoverned(env: Env, s: State, p: CollateralProposal)
    ensures RegisterCollateralStep(env, s, p).Ok? ==>
              var s' := RegisterCollateralStep(env, s, p).value;
              && p.denom !in s.collateral.params && OnlyCollateral(s, s', p.denom) && s'.collateral.total.Some?
              && CollateralFollows(p, COLLATERAL_DEFAULTS, s'.collateral.params[p.denom])
              && p.denom in s'.collateral.pools && s'.collateral.pools[p.denom] == PoolCollateral(0, 0, 0)
    ensures SetCollateralStep(env, s, p).Ok? ==>
              var s' := SetCollateralStep(env, s, p).value;
              && p.denom in s.collateral.params && OnlyCollateral(s, s', p.denom)
              && s'.collateral.pools == s.collateral.pools
              && CollateralFollows(p, s.collateral.params[p.denom], s'.collateral.params[p.denom])
  {
    assert COLLATERAL_DEFAULTS.terms.threshold == 70 * ONE / 100 && COLLATERAL_DEFAULTS.mintFee == 5 * ONE / 1000;
  }

  /** Patching twice is patching once. */
  lemma BackingPatchTwice(env: Env, s: State, p: BackingProposal)
    ensures SetBackingStep(env, s, p).Ok? ==>
              SetBackingStep(env, SetBackingStep(env, s, p).value, p) == SetBackingStep(env, s, p)
  {
    if SetBackingStep(env, s, p).Ok? {
      var s' := SetBackingStep(env, s, p).value;
      var now := s'.backing.params[p.denom];
      assert PatchedBacking(now, p) == now;
      assert s'.backing.params[p.denom := now] == s'.backing.params;
    }
  }

  lemma CollateralPatchTwice(env: Env, s: State, p: CollateralProposal)
    ensures SetCollateralStep(env, s, p).Ok? ==>
              SetCollateralStep(env, SetCollateralStep(env, s, p).value, p) == SetCollateralStep(env, s, p)
  {
    if SetCollateralStep(env, s, p).Ok? {
      var s' := SetCollateralStep(env, s, p).value;
      var now := s'.collateral.params[p.denom];
      assert PatchedCollateral(now, p) == now;
      assert s'.collateral.params[p.denom := now] == s'.collateral.params;
    }
  }

  // --- Terms over runs ------------------------------------------------------------

  /** Every collateral coin's loan limit lies below its liquidation threshold, and its basic
      limit not above the loan limit. */
  predicate TermsValid(s: State) {
    forall d | d in s.collateral.params :: ValidateCollateral(s.collateral.params[d]).Pass?
  }

  lemma RegisterValid(env: Env, s: State, p: CollateralProposal)
    requires TermsValid(s)
    ensures RegisterCollateralStep(env, s, p).Ok? ==> TermsValid(RegisterCollateralStep(env, s, p).value)
  {
  }

  lemma PatchValid(env: Env, s: State, p: CollateralProposal)
    requires TermsValid(s)
    ensures SetCollateralStep(env, s, p).Ok? ==> TermsValid(SetCollateralStep(env, s, p).value)
  {
  }

  lemma {:induction false} BatchValid(env: Env, s: State, ps: seq<CollateralProposal>)
    requires TermsValid(s)
    ensures SetCollateralBatch(env, s, ps).Ok? ==> TermsValid(SetCollateralBatch(env, s, ps).value)
    decreases ps
  {
    if ps != [] {
      PatchValid(env, s, ps[0]);
      if SetCollateralStep(env, s, ps[0]).Ok? { BatchValid(env, SetCollateralStep(env, s, ps[0]).value, ps[1..]); }
    }
  }

  lemma OthersKeepTerms(env: Env, s: State, a: Action)
    requires !a.RegisterCollateral? && !a.SetCollateral? && Step(env, s, a).Ok?
    ensures Step(env, s, a).value.collateral.params == s.collateral.params
  {
    match a
    case SetBacking(ps) => SetBackingLeaves(env, s, ps, "");
    case _ =>
  }

  lemma StepValid(s: State, e: Event)
    requires TermsValid(s)
    ensures TermsValid(EventNext(s, e))
  {
    if Step(e.env, s, e.action).Ok? {
      match e.action
      case RegisterCollateral(p) => RegisterValid(e.env, s, p);
      case SetCollateral(ps) => BatchValid(e.env, s, ps);
      case _ => OthersKeepTerms(e.env, s, e.action);
    }
  }

  /** From a fresh chain, in every state of every run, all collateral terms are valid. */
  lemma TermsRun(s: State, run: seq<Event>)
    requires Init(s)
    ensures Always(EventNext, TermsValid, s, run)
  {
    forall s', e | TermsValid(s') && AnyEvent(s', e)
      ensures TermsValid(EventNext(s', e)) <==> AnyEvent(s', e)
    {
      StepValid(s', e);
    }
    RunIff(EventNext, TermsValid, AnyEvent, AnyEvent, s, run);
  }
}
