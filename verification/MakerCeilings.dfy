/**
 The ceilings on what pools hold: on backing, on stablecoins minted by swaps and on
 collateral.  They hold over whole runs, unless governance itself puts one too low.
 */
module MakerCeilings {
  import opened Results
  import opened MakerState
  import opened MakerSpec
  import opened MakerChain
  import opened MakerSafety
  import opened MakerRuns
  import opened Runs

  predicate BackingFits(pool: PoolBacking, maxBacking: Option<int>, maxGridMint: Option<int>) {
    !Exceeds(pool.backing, maxBacking) && !Exceeds(pool.gridMinted, maxGridMint)
  }

  /** No pool is above its ceilings: on the backing held, on the stablecoins minted by
      swaps, and on the collateral deposited. */
  predicate PoolCeilings(s: State) {
    && (forall d | d in s.backing.params && d in s.backing.pools ::
          BackingFits(s.backing.pools[d], s.backing.params[d].maxBacking, s.backing.params[d].maxGridMint))
    && (forall d | d in s.collateral.params && d in s.collateral.pools ::
          !Exceeds(s.collateral.pools[d].collateral, s.collateral.params[d].maxCollateral))
  }

  // --- Messages -------------------------------------------------------------------

  function PoolAfter(pool: PoolBacking, p: Plan): PoolBacking
    requires p.Swap?
  {
    PoolBacking(pool.gridMinted + p.grid, pool.backing + p.backing, pool.ironBurned + p.iron)
  }

  /** A swap leaves its pool within the ceilings. */
  predicate SwapFits(s: State, p: Plan) {
    p.Swap? && p.denom in s.backing.params && p.denom in s.backing.pools ==>
      var params, pool := s.backing.params[p.denom], s.backing.pools[p.denom];
      BackingFits(pool, params.maxBacking, params.maxGridMint) ==>
        BackingFits(PoolAfter(pool, p), params.maxBacking, params.maxGridMint)
  }

  lemma MintBySwapFits(env: Env, s: State, m: Msg)
    requires m.MintBySwap? && MintBySwapPlan(env, s, m).Ok?
    ensures SwapFits(s, MintBySwapPlan(env, s, m).value)
  {
  }

  lemma BurnBySwapFits(env: Env, s: State, m: Msg)
    requires m.BurnBySwap? && BurnBySwapPlan(env, s, m).Ok?
    ensures SwapFits(s, BurnBySwapPlan(env, s, m).value)
  {
  }

  lemma BuyBackingFits(env: Env, s: State, m: Msg)
    requires m.BuyBacking? && BuyBackingPlan(env, s, m).Ok?
    ensures SwapFits(s, BuyBackingPlan(env, s, m).value)
  {
  }

  lemma SellBackingFits(env: Env, s: State, m: Msg)
    requires m.SellBacking? && SellBackingPlan(env, s, m).Ok?
    ensures SwapFits(s, SellBackingPlan(env, s, m).value)
  {
  }

  /** A loan message leaves its pool's collateral within the ceiling. */
  predicate LoanFits(s: State, p: Plan) {
    p.Loan? && p.denom in s.collateral.params && p.denom in s.collateral.pools ==>
      var limit, pool := s.collateral.params[p.denom].maxCollateral, s.collateral.pools[p.denom];
      !Exceeds(pool.collateral, limit) ==> !Exceeds(pool.collateral + p.now.collateral - p.was.collateral, limit)
  }

  lemma DepositFits(env: Env, s: State, m: Msg)
    requires m.DepositCollateral? && DepositCollateralPlan(env, s, m).Ok?
    ensures LoanFits(s, DepositCollateralPlan(env, s, m).value)
  {
  }

  lemma LiquidateFits(env: Env, s: State, m: Msg)
    requires m.LiquidateCollateral? && LiquidatePlan(env, s, m).Ok?
    ensures LoanFits(s, LiquidatePlan(env, s, m).value)
  {
  }

  lemma MsgFits(env: Env, s: State, m: Msg)
    requires MsgPlan(env, s, m).Ok?
    ensures SwapFits(s, MsgPlan(env, s, m).value) && LoanFits(s, MsgPlan(env, s, m).value)
  {
    match m
    case MintBySwap(_, _, _, _, _, _) => MintBySwapFits(env, s, m);
    case BurnBySwap(_, _, _, _, _) => BurnBySwapFits(env, s, m);
    case BuyBacking(_, _, _, _) => BuyBackingFits(env, s, m);
    case SellBacking(_, _, _, _) => SellBackingFits(env, s, m);
    case MintByCollateral(_, _, _, _) => MintShape(env, s, m);
    case BurnByCollateral(_, _, _) => RepayShape(env, s, m);
    case DepositCollateral(_, _, _, _) => DepositFits(env, s, m);
    case RedeemCollateral(_, _, _, _) => RedeemShape(env, s, m);
    case LiquidateCollateral(_, _, _, _, _) => LiquidateFits(env, s, m);
  }

  lemma ExecuteFits(s: State, p: Plan)
    requires PoolCeilings(s) && Bookable(s, p) && SwapFits(s, p) && LoanFits(s, p) && Execute(s, p).Ok?
    ensures PoolCeilings(Execute(s, p).value)
  {
    var s' := Execute(s, p).value;
    if p.Swap? {
      assert s'.backing.pools == s.backing.pools[p.denom := PoolAfter(s.backing.pools[p.denom], p)];
    }
  }

  // --- Patches --------------------------------------------------------------------

  /** What a batch of patches does to one kind of ceiling. */
  type Patches = seq<(Denom, Option<int>)>

  function BackingPatches(ps: seq<BackingProposal>): (r: Patches)
    ensures |r| == |ps|
    ensures ps != [] ==> r[1..] == BackingPatches(ps[1..])
  {
    seq(|ps|, i requires 0 <= i < |ps| => (ps[i].denom, ps[i].maxBacking))
  }

  function GridPatches(ps: seq<BackingProposal>): (r: Patches)
    ensures |r| == |ps|
    ensures ps != [] ==> r[1..] == GridPatches(ps[1..])
  {
    seq(|ps|, i requires 0 <= i < |ps| => (ps[i].denom, ps[i].maxGridMint))
  }

  function CollateralPatches(ps: seq<CollateralProposal>): (r: Patches)
    ensures |r| == |ps|
    ensures ps != [] ==> r[1..] == CollateralPatches(ps[1..])
  {
    seq(|ps|, i requires 0 <= i < |ps| => (ps[i].denom, ps[i].maxCollateral))
  }

  /** The ceiling a batch leaves a coin: the last one it sets, or the one before. */
  function Left(was: Option<int>, patches: Patches, d: Denom): Option<int>
    decreases patches
  {
    if patches == [] then was
    else Left(if patches[0].0 == d && patches[0].1.Some? then patches[0].1 else was, patches[1..], d)
  }

  lemma {:induction false} SetBackingLeaves(env: Env, s: State, ps: seq<BackingProposal>, d: Denom)
    requires SetBackingBatch(env, s, ps).Ok?
    ensures var s' := SetBackingBatch(env, s, ps).value;
            && s'.collateral == s.collateral && s'.backing.pools == s.backing.pools
            && (d in s'.backing.params <==> d in s.backing.params)
            && (d in s.backing.params ==>
                  && s'.backing.params[d].maxBacking == Left(s.backing.params[d].maxBacking, BackingPatches(ps), d)
                  && s'.backing.params[d].maxGridMint == Left(s.backing.params[d].maxGridMint, GridPatches(ps), d))
    decreases ps
  {
    if ps != [] { SetBackingLeaves(env, SetBackingStep(env, s, ps[0]).value, ps[1..], d); }
  }

  lemma {:induction false} SetCollateralLeaves(env: Env, s: State, ps: seq<CollateralProposal>, d: Denom)
    requires SetCollateralBatch(env, s, ps).Ok?
    ensures var s' := SetCollateralBatch(env, s, ps).value;
            && s'.backing == s.backing && s'.collateral.pools == s.collateral.pools
            && (d in s'.collateral.params <==> d in s.collateral.params)
            && (d in s.collateral.params ==>
                  s'.collateral.params[d].maxCollateral == Left(s.collateral.params[d].maxCollateral,
                                                                CollateralPatches(ps), d))
    decreases ps
  {
    if ps != [] { SetCollateralLeaves(env, SetCollateralStep(env, s, ps[0]).value, ps[1..], d); }
  }

  /** The ceilings a batch leaves are not below what the pools hold. */
  predicate BackingPatchesFit(s: State, ps: seq<BackingProposal>) {
    forall d | d in s.backing.params && d in s.backing.pools ::
      BackingFits(s.backing.pools[d], Left(s.backing.params[d].maxBacking, BackingPatches(ps), d),
                  Left(s.backing.params[d].maxGridMint, GridPatches(ps), d))
  }

  predicate CollateralPatchesFit(s: State, ps: seq<CollateralProposal>) {
    forall d | d in s.collateral.params && d in s.collateral.pools ::
      !Exceeds(s.collateral.pools[d].collateral, Left(s.collateral.params[d].maxCollateral, CollateralPatches(ps), d))
  }

  lemma SetBackingIff(env: Env, s: State, ps: seq<BackingProposal>)
    requires PoolCeilings(s)
    ensures SetBackingBatch(env, s, ps).Ok? ==>
              (PoolCeilings(SetBackingBatch(env, s, ps).value) <==> BackingPatchesFit(s, ps))
  {
    if SetBackingBatch(env, s, ps).Ok? {
      SetBackingLeaves(env, s, ps, "");
      forall d | d in s.backing.params
        ensures var s' := SetBackingBatch(env, s, ps).value;
                && d in s'.backing.params
                && s'.backing.params[d].maxBacking == Left(s.backing.params[d].maxBacking, BackingPatches(ps), d)
                && s'.backing.params[d].maxGridMint == Left(s.backing.params[d].maxGridMint, GridPatches(ps), d)
      {
        SetBackingLeaves(env, s, ps, d);
      }
      forall d | d !in s.backing.params
        ensures d !in SetBackingBatch(env, s, ps).value.backing.params
      {
        SetBackingLeaves(env, s, ps, d);
      }
    }
  }

  lemma SetCollateralIff(env: Env, s: State, ps: seq<CollateralProposal>)
    requires PoolCeilings(s)
    ensures SetCollateralBatch(env, s, ps).Ok? ==>
              (PoolCeilings(SetCollateralBatch(env, s, ps).value) <==> CollateralPatchesFit(s, ps))
  {
    if SetCollateralBatch(env, s, ps).Ok? {
      SetCollateralLeaves(env, s, ps, "");
      forall d | d in s.collateral.params
        ensures var s' := SetCollateralBatch(env, s, ps).value;
                && d in s'.collateral.params
                && s'.collateral.params[d].maxCollateral == Left(s.collateral.params[d].maxCollateral,
                                                                 CollateralPatches(ps), d)
      {
        SetCollateralLeaves(env, s, ps, d);
      }
      forall d | d !in s.collateral.params
        ensures d !in SetCollateralBatch(env, s, ps).value.collateral.params
      {
        SetCollateralLeaves(env, s, ps, d);
      }
    }
  }

  // --- Runs -----------------------------------------------------------------------

  ghost function EventNext(s: State, e: Event): State {
    Next(e.env, s, e.action)
  }

  /** A batch of patches that succeeds leaves ceilings the pools fit. */
  ghost predicate PatchesFit(s: State, e: Event) {
    Step(e.env, s, e.action).Ok? ==>
      match e.action
      case SetBacking(ps) => BackingPatchesFit(s, ps)
      case SetCollateral(ps) => CollateralPatchesFit(s, ps)
      case _ => true
  }

  lemma RegistrationFits(env: Env, s: State, a: Action)
    requires PoolCeilings(s) && (a.RegisterBacking? || a.RegisterCollateral?) && Step(env, s, a).Ok?
    ensures PoolCeilings(Step(env, s, a).value)
  {
  }

  lemma PoolStepFits(s: State, e: Event)
    requires PoolCeilings(s)
    ensures PoolCeilings(EventNext(s, e)) <==> PatchesFit(s, e)
  {
    var env := e.env;
    if Step(env, s, e.action).Ok? {
      match e.action
      case Tx(m) =>
        MsgFits(env, s, m);
        ExecuteFits(s, MsgPlan(env, s, m).value);
      case SetBacking(ps) => SetBackingIff(env, s, ps);
      case SetCollateral(ps) => SetCollateralIff(env, s, ps);
      case RegisterBacking(_) => RegistrationFits(env, s, e.action);
      case RegisterCollateral(_) => RegistrationFits(env, s, e.action);
      case _ =>
    }
  }

  ghost predicate AnyEvent(s: State, e: Event) {
    true
  }

  /** Over every run, all pools are within their ceilings in every state if and only if no
      batch of patches leaves a ceiling below what its pool holds. */
  lemma PoolsRunIff(s: State, run: seq<Event>)
    requires PoolCeilings(s)
    ensures Always(EventNext, PoolCeilings, s, run) <==> Each(EventNext, PatchesFit, s, run)
  {
    forall s', e | PoolCeilings(s') && AnyEvent(s', e)
      ensures PoolCeilings(EventNext(s', e)) <==> PatchesFit(s', e)
    {
      PoolStepFits(s', e);
    }
    RunIff(EventNext, PoolCeilings, AnyEvent, PatchesFit, s, run);
  }

  predicate NotLower(stored: Option<int>, patch: Option<int>) {
    patch.Some? ==> stored.Some? && stored.value <= patch.value
  }

  /** No patch of the batch lowers a coin's ceilings. */
  predicate LowersNothing(s: State, e: Event) {
    match e.action
    case SetBacking(ps) =>
      forall p | p in ps && p.denom in s.backing.params ::
        && NotLower(s.backing.params[p.denom].maxBacking, p.maxBacking)
        && NotLower(s.backing.params[p.denom].maxGridMint, p.maxGridMint)
    case SetCollateral(ps) =>
      forall p | p in ps && p.denom in s.collateral.params ::
        && NotLower(s.collateral.params[p.denom].maxCollateral, p.maxCollateral)
        && NotLower(s.collateral.params[p.denom].maxGridMint, p.maxGridMint)
    case _ => true
  }

  lemma {:induction false} LeftNotLower(stored: Option<int>, was: Option<int>, patches: Patches, d: Denom)
    requires forall p | p in patches && p.0 == d :: NotLower(stored, p.1)
    requires was == stored || NotLower(stored, was)
    ensures Left(was, patches, d) == stored || NotLower(stored, Left(was, patches, d))
    decreases patches
  {
    if patches != [] {
      assert patches[0] in patches && forall p | p in patches[1..] :: p in patches;
      LeftNotLower(stored, if patches[0].0 == d && patches[0].1.Some? then patches[0].1 else was, patches[1..], d);
    }
  }

  lemma HigherFits(amount: int, stored: Option<int>, patches: Patches, d: Denom)
    requires !Exceeds(amount, stored) && forall p | p in patches && p.0 == d :: NotLower(stored, p.1)
    ensures !Exceeds(amount, Left(stored, patches, d))
  {
    LeftNotLower(stored, stored, patches, d);
    assert stored.None? ==> Left(stored, patches, d).None?;
  }

  lemma LowersNothingFits(s: State, e: Event)
    requires PoolCeilings(s) && LowersNothing(s, e)
    ensures PatchesFit(s, e)
  {
    match e.action
    case SetBacking(ps) =>
      forall d | d in s.backing.params && d in s.backing.pools
        ensures BackingFits(s.backing.pools[d], Left(s.backing.params[d].maxBacking, BackingPatches(ps), d),
                            Left(s.backing.params[d].maxGridMint, GridPatches(ps), d))
      {
        HigherFits(s.backing.pools[d].backing, s.backing.params[d].maxBacking, BackingPatches(ps), d);
        HigherFits(s.backing.pools[d].gridMinted, s.backing.params[d].maxGridMint, GridPatches(ps), d);
      }
    case SetCollateral(ps) =>
      forall d | d in s.collateral.params && d in s.collateral.pools
        ensures !Exceeds(s.collateral.pools[d].collateral,
                         Left(s.collateral.params[d].maxCollateral, CollateralPatches(ps), d))
      {
        HigherFits(s.collateral.pools[d].collateral, s.collateral.params[d].maxCollateral, CollateralPatches(ps), d);
      }
    case _ =>
  }

  /** In particular, over every run in which no patch lowers a ceiling. */
  lemma PoolsRun(s: State, run: seq<Event>)
    requires PoolCeilings(s) && Each(EventNext, LowersNothing, s, run)
    ensures Always(EventNext, PoolCeilings, s, run)
  {
    forall s', e | PoolCeilings(s') && LowersNothing(s', e)
      ensures PoolCeilings(EventNext(s', e)) <==> AnyEvent(s', e)
    {
      LowersNothingFits(s', e);
      PoolStepFits(s', e);
    }
    RunIff(EventNext, PoolCeilings, LowersNothing, AnyEvent, s, run);
  }
}
