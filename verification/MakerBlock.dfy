/**
 Nobody is liquidated in the block they borrow or withdraw in: a position that passed the
 debt check stays out of reach, whatever else happens in the block at the same prices.
 */
module MakerBlock {
  import opened FixedPoint
  import opened Results
  import opened LoanMath
  import opened MakerState
  import opened MakerSpec
  import opened MakerChain
  import opened MakerInvariant
  import opened MakerSafety
  import opened MakerRuns
  import opened MakerValue

  // --- Out of reach ---------------------------------------------------------------

  /** Settled at this height, and owing nothing or too little to be liquidated. */
  predicate SafeRecord(t: Terms, acc: AccountCollateral, price: nat, height: int) {
    && acc.lastSettlementBlock == height
    && (acc.gridDebt == 0 || !Liquidatable(t, CollateralValue(acc, price), acc.gridDebt))
  }

  /** The position on the books is out of a liquidator's reach at the given prices. */
  ghost predicate OutOfReach(env: Env, s: State, who: Address, denom: Denom) {
    && denom in env.prices && IRON in env.prices && AvailableCollateral(s, denom).Ok?
    && GetCollateral(s, who, denom, false).Ok?
    && var t := s.collateral.params[denom].terms;
       && TermsOk(t) && FullLtv(t) < t.threshold
       && SafeRecord(t, GetCollateral(s, who, denom, false).value, env.prices[denom], s.height)
  }

  /** Less debt on no less collateral is no easier to liquidate. */
  lemma LiquidatableMono(t: Terms, value: Dec, debt: int, value': Dec, debt': int)
    requires TermsOk(t) && value <= value' && debt' <= debt && Liquidatable(t, value', debt')
    ensures Liquidatable(t, value, debt)
  {
    MulOne(debt * ONE);
    MulOne(debt' * ONE);
    MulMono(value, value', t.threshold);
    HalfEvenMono(value * t.threshold, value' * t.threshold, ONE);
  }

  lemma BetterRecord(t: Terms, acc: AccountCollateral, now: AccountCollateral, price: nat, height: int)
    requires TermsOk(t) && SafeRecord(t, acc, price, height) && now.lastSettlementBlock == height
    requires acc.collateral <= now.collateral && 0 <= now.gridDebt <= acc.gridDebt
    ensures SafeRecord(t, now, price, height)
  {
    MulWhole(acc.collateral, price);
    MulWhole(now.collateral, price);
    MulMono(acc.collateral, now.collateral, price);
    if now.gridDebt != 0 && Liquidatable(t, CollateralValue(now, price), now.gridDebt) {
      LiquidatableMono(t, CollateralValue(acc, price), acc.gridDebt, CollateralValue(now, price), now.gridDebt);
    }
  }

  lemma GrantedRecord(t: Terms, acc: AccountCollateral, pc: nat, pi: nat, height: int)
    requires Granted(t, acc, pc, pi, height) && FullLtv(t) < t.threshold
    ensures SafeRecord(t, acc, pc, height)
  {
    GrantedIsSafe(t, acc, pc, pi, height);
  }

  // --- One message ----------------------------------------------------------------

  lemma SettledSame(s: State, who: Address, denom: Denom, allowNew: bool)
    requires AvailableCollateral(s, denom).Ok? && GetCollateral(s, who, denom, false).Ok?
    requires GetCollateral(s, who, denom, false).value.lastSettlementBlock == s.height
    ensures GetCollateral(s, who, denom, allowNew) == GetCollateral(s, who, denom, false)
    ensures Settled(s, who, denom, allowNew) == GetCollateral(s, who, denom, false).value
  {
    SettledAlready(GetCollateral(s, who, denom, false).value, s.height,
                   AvailableCollateral(s, denom).value.interestFee);
  }

  lemma RepayStaysSafe(env: Env, s: State, m: Msg)
    requires CollateralOk(s.collateral, s.height) && m.BurnByCollateral? && OutOfReach(env, s, m.sender, m.denom)
    requires BurnByCollateralPlan(env, s, m).Ok?
    ensures SafeRecord(s.collateral.params[m.denom].terms, BurnByCollateralPlan(env, s, m).value.now,
                       env.prices[m.denom], s.height)
  {
    var acc := GetCollateral(s, m.sender, m.denom, false).value;
    SettledSame(s, m.sender, m.denom, false);
    RepayShape(env, s, m);
    BetterRecord(s.collateral.params[m.denom].terms, acc, Repay(acc, Min(acc.gridDebt, m.repayInMax)),
                 env.prices[m.denom], s.height);
  }

  lemma DepositStaysSafe(env: Env, s: State, m: Msg)
    requires CollateralOk(s.collateral, s.height) && m.DepositCollateral?
    requires OutOfReach(env, s, Receiver(m), m.collateralIn.denom) && DepositCollateralPlan(env, s, m).Ok?
    ensures var denom := m.collateralIn.denom;
            SafeRecord(s.collateral.params[denom].terms, DepositCollateralPlan(env, s, m).value.now, env.prices[denom],
                       s.height)
  {
    var denom := m.collateralIn.denom;
    var acc := GetCollateral(s, Receiver(m), denom, false).value;
    SettledSame(s, Receiver(m), denom, true);
    DepositShape(env, s, m);
    GetCollateralStarts(s, Receiver(m), denom, true);
    BetterRecord(s.collateral.params[denom].terms, acc, DepositCollateralPlan(env, s, m).value.now, env.prices[denom],
                 s.height);
  }

  lemma LiquidateStaysSafe(env: Env, s: State, m: Msg)
    requires m.LiquidateCollateral? && OutOfReach(env, s, m.debtor, m.seize.denom) && LiquidatePlan(env, s, m).Ok?
    ensures var denom := m.seize.denom;
            SafeRecord(s.collateral.params[denom].terms, LiquidatePlan(env, s, m).value.now, env.prices[denom],
                       s.height)
  {
    SettledSame(s, m.debtor, m.seize.denom, false);
    QuoteShape(env, s, m);
    SeizureShape(env, s, m, QuoteLiquidation(env, s, m).value, LiquidatePlan(env, s, m).value);
  }

  lemma MintMakesSafe(env: Env, s: State, m: Msg)
    requires CollateralOk(s.collateral, s.height) && EnvOk(env) && ValidateBasic(m)
    requires m.MintByCollateral? && MintByCollateralPlan(env, s, m).Ok? && m.denom in s.collateral.params
    requires FullLtv(s.collateral.params[m.denom].terms) < s.collateral.params[m.denom].terms.threshold
    ensures m.denom in env.prices && IRON in env.prices && AvailableCollateral(s, m.denom).Ok?
    ensures SafeRecord(s.collateral.params[m.denom].terms, MintByCollateralPlan(env, s, m).value.now,
                       env.prices[m.denom], s.height)
  {
    var p := MintByCollateralPlan(env, s, m).value;
    MintGrants(env, s, m, p);
    GrantedRecord(s.collateral.params[m.denom].terms, p.now, env.prices[m.denom], env.prices[IRON], s.height);
  }

  lemma RedeemMakesSafe(env: Env, s: State, m: Msg)
    requires CollateralOk(s.collateral, s.height) && EnvOk(env) && ValidateBasic(m) && m.RedeemCollateral?
    requires RedeemCollateralPlan(env, s, m).Ok? && m.collateralOut.denom in s.collateral.params
    requires FullLtv(s.collateral.params[m.collateralOut.denom].terms) <
               s.collateral.params[m.collateralOut.denom].terms.threshold
    ensures m.collateralOut.denom in env.prices && IRON in env.prices
              && AvailableCollateral(s, m.collateralOut.denom).Ok?
    ensures SafeRecord(s.collateral.params[m.collateralOut.denom].terms, RedeemCollateralPlan(env, s, m).value.now,
                       env.prices[m.collateralOut.denom], s.height)
  {
    var p := RedeemCollateralPlan(env, s, m).value;
    RedeemGrants(env, s, m, p);
    GrantedRecord(s.collateral.params[p.denom].terms, p.now, env.prices[p.denom], env.prices[IRON], s.height);
  }

  /** A message that books the position again leaves it out of reach. */
  lemma OwnPlanSafe(env: Env, s: State, m: Msg, who: Address, denom: Denom)
    requires CollateralOk(s.collateral, s.height) && EnvOk(env) && ValidateBasic(m) && OutOfReach(env, s, who, denom)
    requires MsgPlan(env, s, m).Ok? && MsgPlan(env, s, m).value.Loan?
    requires MsgPlan(env, s, m).value.who == who && MsgPlan(env, s, m).value.denom == denom
    ensures SafeRecord(s.collateral.params[denom].terms, MsgPlan(env, s, m).value.now, env.prices[denom], s.height)
  {
    PlanOwner(env, s, m);
    match m
    case MintByCollateral(_, _, _, _) => MintMakesSafe(env, s, m);
    case BurnByCollateral(_, _, _) => RepayStaysSafe(env, s, m);
    case DepositCollateral(_, _, _, _) => DepositStaysSafe(env, s, m);
    case RedeemCollateral(_, _, _, _) => RedeemMakesSafe(env, s, m);
    case LiquidateCollateral(_, _, _, _, _) => LiquidateStaysSafe(env, s, m);
    case _ =>
  }

  lemma ExecuteStaysSafe(env: Env, s: State, p: Plan, who: Address, denom: Denom)
    requires OutOfReach(env, s, who, denom) && Bookable(s, p) && Execute(s, p).Ok?
    requires p.Loan? && p.who == who && p.denom == denom ==>
               SafeRecord(s.collateral.params[denom].terms, p.now, env.prices[denom], s.height)
    ensures OutOfReach(env, Execute(s, p).value, who, denom)
  {
  }

  lemma ExecuteMakesSafe(env: Env, s: State, p: Plan)
    requires p.Loan? && Bookable(s, p) && Execute(s, p).Ok? && p.denom in env.prices && IRON in env.prices
    requires AvailableCollateral(s, p.denom).Ok?
    requires var t := s.collateral.params[p.denom].terms;
             TermsOk(t) && FullLtv(t) < t.threshold && SafeRecord(t, p.now, env.prices[p.denom], s.height)
    ensures OutOfReach(env, Execute(s, p).value, p.who, p.denom)
  {
  }

  lemma MsgStaysSafe(env: Env, s: State, m: Msg, who: Address, denom: Denom)
    requires CollateralOk(s.collateral, s.height) && EnvOk(env) && OutOfReach(env, s, who, denom)
    ensures MsgStep(env, s, m).Ok? ==> OutOfReach(env, MsgStep(env, s, m).value, who, denom)
  {
    if MsgStep(env, s, m).Ok? {
      var p := MsgPlan(env, s, m).value;
      if p.Loan? && p.who == who && p.denom == denom { OwnPlanSafe(env, s, m, who, denom); }
      ExecuteStaysSafe(env, s, p, who, denom);
    }
  }

  // --- The rest of the block ------------------------------------------------------

  /** Everything but the end of the block and new terms for the collateral. */
  predicate WithinBlock(a: Action) {
    !a.EndBlock? && !a.SetCollateral?
  }

  ghost function AfterActions(env: Env, s: State, rest: seq<Action>): State
    decreases rest
  {
    if rest == [] then s else AfterActions(env, Next(env, s, rest[0]), rest[1..])
  }

  lemma {:induction false} SetBackingElsewhere(env: Env, s: State, ps: seq<BackingProposal>)
    requires SetBackingBatch(env, s, ps).Ok?
    ensures SetBackingBatch(env, s, ps).value.collateral == s.collateral
    ensures SetBackingBatch(env, s, ps).value.height == s.height
    decreases ps
  {
    if ps != [] { SetBackingElsewhere(env, SetBackingStep(env, s, ps[0]).value, ps[1..]); }
  }

  /** The collateral ledger says the same of a denomination. */
  predicate SameFor(s: State, s': State, denom: Denom) {
    && s'.height == s.height && s'.collateral.accounts == s.collateral.accounts
    && (denom in s.collateral.params ==>
          denom in s'.collateral.params && s'.collateral.params[denom] == s.collateral.params[denom])
    && (s.collateral.total.Some? ==> s'.collateral.total.Some?)
    && (denom in s.collateral.pools ==> denom in s'.collateral.pools)
  }

  lemma SameStaysSafe(env: Env, s: State, s': State, who: Address, denom: Denom)
    requires OutOfReach(env, s, who, denom) && SameFor(s, s', denom)
    ensures OutOfReach(env, s', who, denom)
  {
  }

  lemma OtherActionsSame(env: Env, s: State, a: Action, denom: Denom)
    requires WithinBlock(a) && !a.Tx? && Step(env, s, a).Ok? && denom in s.collateral.params
    ensures SameFor(s, Step(env, s, a).value, denom)
  {
    match a
    case RegisterBacking(p) =>
    case RegisterCollateral(p) =>
    case SetBacking(ps) => SetBackingElsewhere(env, s, ps);
    case Elsewhere(moves) =>
  }

  lemma ActionStaysSafe(env: Env, s: State, a: Action, who: Address, denom: Denom)
    requires CollateralOk(s.collateral, s.height) && EnvOk(env) && OutOfReach(env, s, who, denom) && WithinBlock(a)
    ensures OutOfReach(env, Next(env, s, a), who, denom)
  {
    if a.Tx? {
      MsgStaysSafe(env, s, a.msg, who, denom);
    } else if Step(env, s, a).Ok? {
      OtherActionsSame(env, s, a, denom);
      SameStaysSafe(env, s, Step(env, s, a).value, who, denom);
    }
  }

  lemma {:induction false} BlockStaysSafe(env: Env, s: State, rest: seq<Action>, who: Address, denom: Denom)
    requires Inv(s) && EnvOk(env) && OutOfReach(env, s, who, denom) && forall a | a in rest :: WithinBlock(a)
    ensures OutOfReach(env, AfterActions(env, s, rest), who, denom)
    decreases rest
  {
    if rest != [] {
      assert WithinBlock(rest[0]);
      StepKeeps(env, s, rest[0]);
      ActionStaysSafe(env, s, rest[0], who, denom);
      BlockStaysSafe(env, Next(env, s, rest[0]), rest[1..], who, denom);
    }
  }

  /** A liquidation of the position fails, unless it owes nothing. */
  ghost predicate Shielded(env: Env, s: State, l: Msg)
    requires l.LiquidateCollateral?
  {
    && GetCollateral(s, l.debtor, l.seize.denom, false).Ok?
    && (GetCollateral(s, l.debtor, l.seize.denom, false).value.gridDebt == 0
        || MsgPlan(env, s, l) == Err(NotUndercollateralized))
  }

  lemma OutOfReachShields(env: Env, s: State, l: Msg)
    requires l.LiquidateCollateral? && OutOfReach(env, s, l.debtor, l.seize.denom)
    ensures Shielded(env, s, l)
  {
    SettledSame(s, l.debtor, l.seize.denom, false);
  }

  /** Whoever just borrowed cannot be liquidated at once; and for the rest of the block, at
      those prices, only while owing nothing; as long as the collateral's full limit is
      below its threshold. */
  lemma BorrowerIsSafe(env: Env, s: State, m: Msg, rest: seq<Action>, l: Msg)
    requires Inv(s) && EnvOk(env) && m.MintByCollateral? && m.denom in s.collateral.params
    requires var t := s.collateral.params[m.denom].terms; FullLtv(t) < t.threshold
    requires forall a | a in rest :: WithinBlock(a)
    requires l.LiquidateCollateral? && l.debtor == m.sender && l.seize.denom == m.denom
    ensures MsgStep(env, s, m).Ok? ==> MsgPlan(env, MsgStep(env, s, m).value, l) == Err(NotUndercollateralized)
    ensures MsgStep(env, s, m).Ok? ==> Shielded(env, AfterActions(env, MsgStep(env, s, m).value, rest), l)
  {
    if MsgStep(env, s, m).Ok? {
      var p, s' := MintByCollateralPlan(env, s, m).value, MsgStep(env, s, m).value;
      MintGrants(env, s, m, p);
      GrantedStaysSafe(env, s, p, l);
      MintMakesSafe(env, s, m);
      ExecuteMakesSafe(env, s, p);
      MsgKeeps(env, s, m);
      BlockStaysSafe(env, s', rest, m.sender, m.denom);
      OutOfReachShields(env, AfterActions(env, s', rest), l);
    }
  }

  /** Whoever just withdrew collateral can be liquidated at once only when owing nothing,
      with collateral left whose threshold value rounds to zero; and for the rest of the
      block, at those prices, only while owing nothing. */
  lemma RedeemerIsSafe(env: Env, s: State, m: Msg, rest: seq<Action>, l: Msg)
    requires Inv(s) && EnvOk(env) && m.RedeemCollateral?
    requires m.collateralOut.denom in s.collateral.params && m.collateralOut.denom in env.prices
    requires var t := s.collateral.params[m.collateralOut.denom].terms; FullLtv(t) < t.threshold
    requires forall a | a in rest :: WithinBlock(a)
    requires l.LiquidateCollateral? && l.debtor == m.sender && l.seize.denom == m.collateralOut.denom
    ensures MsgStep(env, s, m).Ok? ==>
              var acc, threshold := GetCollateral(MsgStep(env, s, m).value, m.sender, l.seize.denom, false),
                                    s.collateral.params[l.seize.denom].terms.threshold;
              && acc.Ok?
              && ((MsgPlan(env, MsgStep(env, s, m).value, l) == Err(NotUndercollateralized)) <==>
                    !(acc.value.gridDebt == 0
                      && 2 * (acc.value.collateral * env.prices[l.seize.denom] * threshold) <= ONE))
    ensures MsgStep(env, s, m).Ok? ==> Shielded(env, AfterActions(env, MsgStep(env, s, m).value, rest), l)
  {
    if MsgStep(env, s, m).Ok? {
      var p, s' := RedeemCollateralPlan(env, s, m).value, MsgStep(env, s, m).value;
      RedeemGrants(env, s, m, p);
      LoanStored(s, p);
      GrantedStaysSafe(env, s, p, l);
      RedeemMakesSafe(env, s, m);
      ExecuteMakesSafe(env, s, p);
      MsgKeeps(env, s, m);
      BlockStaysSafe(env, s', rest, m.sender, p.denom);
      OutOfReachShields(env, AfterActions(env, s', rest), l);
    }
  }
}
