/**
 What the messages are worth: no swap creates value beyond its rounding, buying back and
 recapitalising stop at the required backing, a position just granted cannot be
 liquidated, and interest stays within half a micro-coin per settlement of simple interest.
 */
module MakerValue {
  import opened FixedPoint
  import opened Results
  import opened MapSum
  import opened Bank
  import opened SwapMath
  import opened LoanMath
  import opened MakerState
  import opened MakerSpec
  import opened MakerInvariant
  import opened MakerSafety

  // --- Swaps ----------------------------------------------------------------------

  /** A mint respects positive caps, mints (fee included) at most the value of the coins it
      takes plus half the price of the computed leg and a unit in the 18th decimal, and
      takes little more than it mints. */
  predicate FairMint(q: MintQuote, pb: nat, pi: nat, leg: int, backingMax: int, ironMax: int) {
    var value, minted := pb * q.backingIn + pi * q.ironIn, q.mintOut + q.mintFee;
    && 0 <= q.backingIn && 0 <= q.ironIn && 0 <= q.mintOut && 0 <= q.mintFee
    && (backingMax > 0 ==> q.backingIn <= backingMax)
    && (ironMax > 0 ==> q.ironIn <= ironMax)
    && 2 * (minted * ONE) <= 2 * value + leg + 2
    && 2 * ONE * value < 2 * ONE * ((minted + 1) * ONE) + ONE * leg + 2 * leg + 2 * ONE
  }

  lemma MintShapes(env: Env, s: State, backing: Coin, ironMax: nat, full: bool)
    requires QuoteMint(env, s, backing, ironMax, full).Ok?
    ensures backing.denom in env.prices && IRON in env.prices && backing.denom in s.backing.params
    ensures var q := QuoteMint(env, s, backing, ironMax, full).value;
            var pb, pi := env.prices[backing.denom], env.prices[IRON];
            var legs := MintLegs(s.ratio, pb, pi, backing.amount, ironMax, full);
            && legs.Ok? && q.backingIn == legs.value.backingIn && q.ironIn == legs.value.ironIn
            && q.mintOut + q.mintFee == MintTotal(legs.value.usd)
            && q.mintFee == ComputeFee(MintTotal(legs.value.usd), s.backing.params[backing.denom].mintFee)
  {
  }

  lemma MintWorth(env: Env, s: State, backing: Coin, ironMax: nat, full: bool)
    requires BackingOk(s.backing)
    ensures QuoteMint(env, s, backing, ironMax, full).Ok? ==>
              && backing.denom in env.prices && IRON in env.prices
              && FairMint(QuoteMint(env, s, backing, ironMax, full).value, env.prices[backing.denom], env.prices[IRON],
                          ComputedLegPrice(s.ratio, env.prices[backing.denom], env.prices[IRON], backing.amount,
                                           ironMax, full),
                          backing.amount, ironMax)
  {
    if QuoteMint(env, s, backing, ironMax, full).Ok? {
      MintShapes(env, s, backing, ironMax, full);
      var pb, pi := env.prices[backing.denom], env.prices[IRON];
      MintLegsBound(s.ratio, pb, pi, backing.amount, ironMax, full);
      MintLegsTight(s.ratio, pb, pi, backing.amount, ironMax, full);
      var usd := MintLegs(s.ratio, pb, pi, backing.amount, ironMax, full).value.usd;
      MintTotalBound(usd);
      FeeWithin(MintTotal(usd), s.backing.params[backing.denom].mintFee);
    }
  }

  /** A burn pays coins worth at most the stablecoins burned. */
  predicate FairBurn(q: BurnQuote, pb: nat, pi: nat, burnIn: int) {
    && 0 <= q.burnFee <= burnIn && 0 <= q.backingOut && 0 <= q.ironOut
    && pb * q.backingOut + pi * q.ironOut <= (burnIn - q.burnFee) * ONE
  }

  lemma BurnShapes(env: Env, s: State, burnIn: nat, denom: Denom)
    requires QuoteBurn(env, s, burnIn, denom).Ok?
    ensures denom in env.prices && IRON in env.prices && denom in s.backing.params
    ensures var q, fee := QuoteBurn(env, s, burnIn, denom).value, ComputeFee(burnIn, s.backing.params[denom].burnFee);
            q.burnFee == fee && BurnPayout(s.ratio, env.prices[denom], env.prices[IRON], burnIn - fee)
                == Ok(Payout(q.backingOut, q.ironOut))
  {
  }

  lemma BurnWorth(env: Env, s: State, burnIn: nat, denom: Denom)
    requires BackingOk(s.backing)
    ensures QuoteBurn(env, s, burnIn, denom).Ok? ==>
              && denom in env.prices && IRON in env.prices
              && FairBurn(QuoteBurn(env, s, burnIn, denom).value, env.prices[denom], env.prices[IRON], burnIn)
  {
    if QuoteBurn(env, s, burnIn, denom).Ok? {
      BurnShapes(env, s, burnIn, denom);
      var fee := s.backing.params[denom].burnFee;
      FeeWithin(burnIn, fee);
      BurnPayoutBound(s.ratio, env.prices[denom], env.prices[IRON], burnIn - ComputeFee(burnIn, fee));
    }
  }

  /** Minting, and later burning no more than was received, at the same ratio and asset
      prices returns at most the value taken plus the mint's slack. */
  lemma SwapRoundTrip(env: Env, s: State, backing: Coin, ironMax: nat, full: bool, env': Env, s': State, burnIn: nat)
    requires BackingOk(s.backing) && BackingOk(s'.backing) && s.ratio == s'.ratio
    requires backing.denom in env.prices && IRON in env.prices
    requires backing.denom in env'.prices && env'.prices[backing.denom] == env.prices[backing.denom]
    requires IRON in env'.prices && env'.prices[IRON] == env.prices[IRON]
    ensures var pb, pi := env.prices[backing.denom], env.prices[IRON];
            var q, r := QuoteMint(env, s, backing, ironMax, full), QuoteBurn(env', s', burnIn, backing.denom);
            q.Ok? && r.Ok? && burnIn <= q.value.mintOut ==>
              2 * (pb * r.value.backingOut + pi * r.value.ironOut) <= 2 * (pb * q.value.backingIn + pi * q.value.ironIn)
                + ComputedLegPrice(s.ratio, pb, pi, backing.amount, ironMax, full) + 2
  {
    MintWorth(env, s, backing, ironMax, full);
    BurnWorth(env', s', burnIn, backing.denom);
  }

  // --- Buying back and recapitalising ---------------------------------------------

  lemma ValuesPut(env: Env, pools: map<Denom, PoolBacking>, d: Denom, now: PoolBacking)
    requires d in pools && d in env.prices
    ensures BackingValues(env, pools[d := now]) == BackingValues(env, pools)[d := now.backing * env.prices[d]]
  {
    var v, w := BackingValues(env, pools), BackingValues(env, pools[d := now]);
    assert w.Keys == v.Keys;
    forall k | k in w && k != d
      ensures w[k] == v[k]
    {
      assert pools[d := now][k] == pools[k];
    }
  }

  lemma Difference(was: int, delta: int, price: int)
    ensures (was + delta) * price - was * price == delta * price
  {
  }

  lemma ValuePut(env: Env, pools: map<Denom, PoolBacking>, d: Denom, now: PoolBacking, delta: int)
    requires d in pools && d in env.prices && now.backing == pools[d].backing + delta
    ensures Sum(BackingValues(env, pools[d := now])) == Sum(BackingValues(env, pools)) + delta * env.prices[d]
  {
    ValuesPut(env, pools, d, now);
    SumPut(BackingValues(env, pools), d, now.backing * env.prices[d]);
    Difference(pools[d].backing, delta, env.prices[d]);
  }

  lemma ValueNonneg(env: Env, b: BackingBook)
    requires BackingOk(b)
    ensures 0 <= Sum(BackingValues(env, b.pools))
  {
    var v := BackingValues(env, b.pools);
    forall d | d in v
      ensures v[d] >= 0
    {
      MulMono(0, b.pools[d].backing, env.prices[d]);
    }
    SumBound(v);
  }

  /** The truncated total is within one micro-dollar of the value. */
  lemma ExcessMeans(env: Env, s: State)
    requires BackingOk(s.backing) && Excess(env, s).Ok?
    ensures var required := RequiredBacking(s.backing.Total().gridMinted, s.ratio);
            (Excess(env, s).value + required) * ONE <= BackingValue(env, s)
              < (Excess(env, s).value + required + 1) * ONE
  {
    ValueNonneg(env, s.backing);
    DivMod(BackingValue(env, s), ONE);
  }

  /** A swap that succeeds books its plan and nothing else. */
  lemma SwapBooks(env: Env, s: State, p: Plan)
    requires p.Swap? && Bookable(s, p) && Execute(s, p).Ok? && p.denom in env.prices
    ensures var s' := Execute(s, p).value;
            && s'.ratio == s.ratio && s'.backing.total.Some?
            && s'.backing.Total() == TotalBacking(s.backing.Total().gridMinted + p.grid,
                                                  s.backing.Total().ironBurned + p.iron)
            && BackingValue(env, s') == BackingValue(env, s) + p.backing * env.prices[p.denom]
  {
    var book := BookBacking(s.backing, p.denom, p.grid, p.backing, p.iron);
    ValuePut(env, s.backing.pools, p.denom, book.pools[p.denom], p.backing);
  }

  lemma BuyShape(env: Env, s: State, m: Msg)
    requires m.BuyBacking? && BuyBackingPlan(env, s, m).Ok?
    ensures m.backingOutMin.denom in env.prices && IRON in env.prices && Excess(env, s).Ok?
    ensures var denom, p := m.backingOutMin.denom, BuyBackingPlan(env, s, m).value;
            var r := BuyBackOut(m.ironIn, env.prices[denom], env.prices[IRON], Excess(env, s).value);
            r.Ok? && p.Swap? && p.denom == denom && p.grid == 0 && p.backing == -r.value && p.iron == m.ironIn
  {
  }

  lemma BuyArithmetic(before: int, out: int, pb: int, required: int, excess: int)
    requires (excess + required) * ONE <= before
    requires 2 * ONE * (pb * out) <= 2 * ONE * (excess * ONE) + pb
    ensures 2 * ONE * (before + -out * pb) >= 2 * ONE * (required * ONE) - pb
  {
    var paid := pb * out;
    assert -out * pb == -paid;
  }

  /** The backing's value is at least what the minted stablecoins call for, but for half
      a unit in the 18th decimal of a price. */
  ghost predicate Covers(env: Env, s: State, price: nat) {
    2 * ONE * BackingValue(env, s) >= 2 * ONE * (RequiredBacking(s.backing.Total().gridMinted, s.ratio) * ONE) - price
  }

  lemma BuyCovers(env: Env, s: State, m: Msg, p: Plan)
    requires BackingOk(s.backing) && m.BuyBacking? && BuyBackingPlan(env, s, m) == Ok(p)
    ensures p.Swap? && p.grid == 0 && p.denom == m.backingOutMin.denom && p.denom in env.prices
    ensures 2 * ONE * (BackingValue(env, s) + p.backing * env.prices[p.denom])
              >= 2 * ONE * (RequiredBacking(s.backing.Total().gridMinted, s.ratio) * ONE) - env.prices[p.denom]
  {
    BuyShape(env, s, m);
    ExcessMeans(env, s);
    var pb, excess := env.prices[p.denom], Excess(env, s).value;
    BuyBackOutBound(m.ironIn, pb, env.prices[IRON], excess);
    BuyArithmetic(BackingValue(env, s), -p.backing, pb, RequiredBacking(s.backing.Total().gridMinted, s.ratio), excess);
  }

  lemma CoversAfter(env: Env, s: State, p: Plan)
    requires p.Swap? && Bookable(s, p) && Execute(s, p).Ok? && p.denom in env.prices && p.grid == 0
    requires 2 * ONE * (BackingValue(env, s) + p.backing * env.prices[p.denom])
               >= 2 * ONE * (RequiredBacking(s.backing.Total().gridMinted, s.ratio) * ONE) - env.prices[p.denom]
    ensures Covers(env, Execute(s, p).value, env.prices[p.denom])
  {
    SwapBooks(env, s, p);
  }

  /** Buying back leaves at least the required backing. */
  lemma BuyBackingKeepsRequired(env: Env, s: State, m: Msg)
    requires BackingOk(s.backing) && m.BuyBacking?
    ensures MsgStep(env, s, m).Ok? ==>
              m.backingOutMin.denom in env.prices
              && Covers(env, MsgStep(env, s, m).value, env.prices[m.backingOutMin.denom])
  {
    if MsgStep(env, s, m).Ok? {
      var p := BuyBackingPlan(env, s, m).value;
      BuyCovers(env, s, m, p);
      CoversAfter(env, s, p);
    }
  }

  lemma SellShape(env: Env, s: State, m: Msg)
    requires m.SellBacking? && SellBackingPlan(env, s, m).Ok?
    ensures m.backingIn.denom in env.prices && IRON in env.prices && Excess(env, s).Ok?
    ensures var denom, p := m.backingIn.denom, SellBackingPlan(env, s, m).value;
            var r := RebackMint(m.backingIn.amount, env.prices[denom], env.prices[IRON], Excess(env, s).value);
            && r.Ok? && p.Swap? && p.denom == denom && p.grid == 0 && p.backing == m.backingIn.amount
            && p.iron == -(r.value + ComputeFee(r.value, env.params.rebackBonus))
  {
  }

  lemma SellArithmetic(before: int, amount: int, pb: int, pi: int, required: int, excess: int)
    requires before < (excess + required + 1) * ONE
    requires ONE * (pb * amount) < ONE * ((0 - excess) * ONE) + ONE * pi + pi
    ensures ONE * (before + amount * pb) < ONE * (required * ONE) + ONE * ONE + ONE * pi + pi
  {
    var sold := pb * amount;
    assert amount * pb == sold;
  }

  /** Recapitalising overshoots the required backing by less than one micro-dollar plus one
      airon's price and a unit in the 18th decimal of it; and it mints iron only in deficit. */
  lemma SellBackingStopsAtRequired(env: Env, s: State, m: Msg)
    requires BackingOk(s.backing) && ParamsOk(env.params) && m.SellBacking?
    ensures MsgStep(env, s, m).Ok? ==>
              var s' := MsgStep(env, s, m).value;
              && IRON in env.prices && Excess(env, s).Ok?
              && (s'.backing.Total().ironBurned < s.backing.Total().ironBurned ==> Excess(env, s).value < 0)
              && ONE * BackingValue(env, s')
                   < ONE * (RequiredBacking(s'.backing.Total().gridMinted, s'.ratio) * ONE)
                     + ONE * ONE + ONE * env.prices[IRON] + env.prices[IRON]
  {
    if MsgStep(env, s, m).Err? { return; }
    var p := SellBackingPlan(env, s, m).value;
    SellShape(env, s, m);
    SwapBooks(env, s, p);
    ExcessMeans(env, s);
    var pb, pi, excess := env.prices[p.denom], env.prices[IRON], Excess(env, s).value;
    RebackMintBound(p.backing, pb, pi, excess);
    FeeWithin(RebackMint(p.backing, pb, pi, excess).value, env.params.rebackBonus);
    SellArithmetic(BackingValue(env, s), p.backing, pb, pi, RequiredBacking(s.backing.Total().gridMinted, s.ratio),
                   excess);
  }

  /** Without a deficit, a sale is quoted exactly when the coin may be sold within its
      ceiling, the amount earns no iron, and the excess rounds away. */
  lemma SellWithoutDeficit(env: Env, s: State, backing: Coin)
    requires Excess(env, s).Ok? && 0 <= Excess(env, s).value
    requires backing.denom in env.prices && IRON in env.prices && 0 < env.prices[IRON]
    ensures QuoteSell(env, s, backing).Ok? <==>
              && AvailableBacking(s, backing.denom).Ok? && GetBacking(s, backing.denom).Ok?
              && !Exceeds(s.backing.pools[backing.denom].backing + backing.amount,
                          s.backing.params[backing.denom].maxBacking)
              && EarnsNothing(backing.amount, env.prices[backing.denom], env.prices[IRON])
              && 2 * (Excess(env, s).value * ONE * ONE) <= env.prices[IRON]
  {
    RebackWithoutDeficit(backing.amount, env.prices[backing.denom], env.prices[IRON], Excess(env, s).value);
  }

  // --- The loan limit and liquidation ---------------------------------------------

  lemma ValuesNonneg(acc: AccountCollateral, pc: nat, pi: nat)
    requires 0 <= acc.collateral && 0 <= acc.iron
    ensures CollateralValue(acc, pc) == acc.collateral * pc && 0 <= CollateralValue(acc, pc)
    ensures 0 <= IronValue(acc, pi)
  {
    MulWhole(acc.collateral, pc);
    MulWhole(acc.iron, pi);
    MulMono(0, acc.collateral, pc);
    MulMono(0, acc.iron, pi);
  }

  lemma MintChecked(env: Env, s: State, m: Msg)
    requires m.MintByCollateral? && MintByCollateralPlan(env, s, m).Ok?
    ensures m.denom in env.prices && IRON in env.prices && m.denom in s.collateral.params
    ensures var now := MintByCollateralPlan(env, s, m).value.now;
            MintAllows(s.collateral.params[m.denom].terms, CollateralValue(now, env.prices[m.denom]),
                       IronValue(now, env.prices[IRON]), now.gridDebt)
  {
  }

  /** The debt is at most the collateral's value times a limit between the basic and the
      full loan-to-value. */
  predicate WithinLimit(t: Terms, value: Dec, ironValue: Dec, debt: int) {
    value > 0 &&
    var ltv := AvailableLtv(t, value, ironValue);
    && t.basicLoanToValue <= ltv <= FullLtv(t)
    && (LimitHolds(t) ==> ltv <= t.loanToValue)
    && (t.catalyticRatio > 0 ==> 2 * (t.catalyticRatio * (ltv - t.loanToValue)) <= ONE + t.catalyticRatio)
    && 2 * ONE * (debt * ONE) <= 2 * (value * ltv) + ONE
  }

  lemma LimitFacts(t: Terms, value: Dec, ironValue: Dec, debt: int)
    requires TermsOk(t) && value > 0 && 0 <= ironValue && 0 <= debt
    requires MintAllows(t, value, ironValue, debt) || RedeemAllows(t, value, ironValue, debt)
    ensures WithinLimit(t, value, ironValue, debt)
  {
    LtvRange(t, value, ironValue);
    LimitHoldsIff(t);
    if t.catalyticRatio > 0 { LtvOvershoot(t, value, ironValue); }
    DebtWithinLimit(t, value, ironValue, debt);
  }

  /** A position the debt check has just passed, at given prices. */
  predicate Granted(t: Terms, acc: AccountCollateral, pc: nat, pi: nat, height: int) {
    && TermsOk(t) && AccountOk(acc, height) && acc.lastSettlementBlock == height
    && (MintAllows(t, CollateralValue(acc, pc), IronValue(acc, pi), acc.gridDebt)
        || RedeemAllows(t, CollateralValue(acc, pc), IronValue(acc, pi), acc.gridDebt))
  }

  lemma MintedRecord(env: Env, s: State, m: Msg)
    requires CollateralOk(s.collateral, s.height) && ValidateBasic(m)
    requires m.MintByCollateral? && MintByCollateralPlan(env, s, m).Ok?
    ensures var p := MintByCollateralPlan(env, s, m).value;
            && p.Loan? && p.who == m.sender && p.denom == m.denom && AvailableCollateral(s, m.denom).Ok?
            && AccountOk(p.now, s.height) && p.now.lastSettlementBlock == s.height && p.now.gridDebt > 0
  {
    MintShape(env, s, m);
    GetCollateralStarts(s, m.sender, m.denom, false);
  }

  lemma MintGrants(env: Env, s: State, m: Msg, p: Plan)
    requires CollateralOk(s.collateral, s.height) && EnvOk(env) && ValidateBasic(m)
    requires m.MintByCollateral? && MintByCollateralPlan(env, s, m) == Ok(p)
    ensures p.Loan? && p.who == m.sender && p.denom == m.denom && p.now.gridDebt > 0
    ensures m.denom in env.prices && IRON in env.prices && AvailableCollateral(s, m.denom).Ok?
    ensures Granted(s.collateral.params[m.denom].terms, p.now, env.prices[m.denom], env.prices[IRON], s.height)
  {
    MintChecked(env, s, m);
    MintedRecord(env, s, m);
  }

  lemma RedeemChecked(env: Env, s: State, m: Msg)
    requires m.RedeemCollateral? && RedeemCollateralPlan(env, s, m).Ok?
    ensures m.collateralOut.denom in env.prices && IRON in env.prices && m.collateralOut.denom in s.collateral.params
    ensures var now, denom := RedeemCollateralPlan(env, s, m).value.now, m.collateralOut.denom;
            RedeemAllows(s.collateral.params[denom].terms, CollateralValue(now, env.prices[denom]),
                         IronValue(now, env.prices[IRON]), now.gridDebt)
  {
  }

  lemma RedeemGrants(env: Env, s: State, m: Msg, p: Plan)
    requires CollateralOk(s.collateral, s.height) && EnvOk(env) && ValidateBasic(m)
    requires m.RedeemCollateral? && RedeemCollateralPlan(env, s, m) == Ok(p)
    ensures p.Loan? && p.who == m.sender && p.denom == m.collateralOut.denom
    ensures p.denom in env.prices && IRON in env.prices && AvailableCollateral(s, p.denom).Ok?
    ensures Granted(s.collateral.params[p.denom].terms, p.now, env.prices[p.denom], env.prices[IRON], s.height)
  {
    RedeemChecked(env, s, m);
    RedeemShape(env, s, m);
    GetCollateralStarts(s, m.sender, m.collateralOut.denom, false);
  }

  /** A granted position with collateral of any value is within the limit. */
  lemma GrantedWithinLimit(t: Terms, acc: AccountCollateral, pc: nat, pi: nat, height: int)
    requires Granted(t, acc, pc, pi, height)
    ensures acc.collateral * pc > 0 || acc.gridDebt == 0
    ensures acc.collateral * pc > 0 ==> WithinLimit(t, acc.collateral * pc, IronValue(acc, pi), acc.gridDebt)
  {
    ValuesNonneg(acc, pc, pi);
    if acc.collateral * pc > 0 { LimitFacts(t, acc.collateral * pc, IronValue(acc, pi), acc.gridDebt); }
  }

  lemma LoanStored(s: State, p: Plan)
    requires p.Loan? && Bookable(s, p) && Execute(s, p).Ok?
    ensures GetCollateral(Execute(s, p).value, p.who, p.denom, false) == Ok(p.now)
  {
  }

  /** The account on the books is within its limit, unless it is worthless and owes nothing. */
  ghost predicate StoredWithinLimit(env: Env, s: State, who: Address, denom: Denom) {
    && denom in env.prices && IRON in env.prices && denom in s.collateral.params
    && GetCollateral(s, who, denom, false).Ok?
    && var acc := GetCollateral(s, who, denom, false).value;
       var value := acc.collateral * env.prices[denom];
       if value > 0 then WithinLimit(s.collateral.params[denom].terms, value, IronValue(acc, env.prices[IRON]),
                                     acc.gridDebt)
       else acc.gridDebt == 0
  }

  lemma GrantedStored(env: Env, s: State, p: Plan)
    requires p.Loan? && Bookable(s, p) && Execute(s, p).Ok? && p.denom in env.prices && IRON in env.prices
    requires p.denom in s.collateral.params
    requires Granted(s.collateral.params[p.denom].terms, p.now, env.prices[p.denom], env.prices[IRON], s.height)
    ensures StoredWithinLimit(env, Execute(s, p).value, p.who, p.denom)
  {
    LoanStored(s, p);
    GrantedWithinLimit(s.collateral.params[p.denom].terms, p.now, env.prices[p.denom], env.prices[IRON], s.height);
  }

  /** After a successful mint, the account on the books is within its limit. */
  lemma BorrowWithinLimit(env: Env, s: State, m: Msg)
    requires CollateralOk(s.collateral, s.height) && EnvOk(env) && m.MintByCollateral?
    ensures MsgStep(env, s, m).Ok? ==> StoredWithinLimit(env, MsgStep(env, s, m).value, m.sender, m.denom)
  {
    if MsgStep(env, s, m).Ok? {
      var p := MintByCollateralPlan(env, s, m).value;
      MintGrants(env, s, m, p);
      GrantedStored(env, s, p);
    }
  }

  /** After a successful withdrawal too. */
  lemma RedeemWithinLimit(env: Env, s: State, m: Msg)
    requires CollateralOk(s.collateral, s.height) && EnvOk(env) && m.RedeemCollateral?
    ensures MsgStep(env, s, m).Ok? ==> StoredWithinLimit(env, MsgStep(env, s, m).value, m.sender, m.collateralOut.denom)
  {
    if MsgStep(env, s, m).Ok? {
      var p := RedeemCollateralPlan(env, s, m).value;
      RedeemGrants(env, s, m, p);
      GrantedStored(env, s, p);
    }
  }

  /** Settling twice in one block changes nothing. */
  lemma SettledAlready(acc: AccountCollateral, height: int, apr: Dec)
    requires acc.lastSettlementBlock == height
    ensures Settle(acc, height, apr) == acc
  {
  }

  /** What a liquidation of an account just booked tests, in the same block: the booked
      record. */
  lemma LiquidationTest(env: Env, s: State, p: Plan, l: Msg)
    requires p.Loan? && Bookable(s, p) && Execute(s, p).Ok? && p.now.lastSettlementBlock == s.height
    requires l.LiquidateCollateral? && l.debtor == p.who && l.seize.denom == p.denom
    requires p.denom in s.collateral.params && s.collateral.params[p.denom].enabled && p.denom in env.prices
    ensures (MsgPlan(env, Execute(s, p).value, l) == Err(NotUndercollateralized)) <==>
              !Liquidatable(s.collateral.params[p.denom].terms, CollateralValue(p.now, env.prices[p.denom]),
                            p.now.gridDebt)
  {
    SettledAlready(p.now, s.height, s.collateral.params[p.denom].interestFee);
    var s' := Execute(s, p).value;
    assert GetCollateral(s', l.debtor, p.denom, false) == Ok(p.now);
  }

  lemma GrantedIsSafe(t: Terms, acc: AccountCollateral, pc: nat, pi: nat, height: int)
    requires Granted(t, acc, pc, pi, height) && FullLtv(t) < t.threshold
    ensures Liquidatable(t, CollateralValue(acc, pc), acc.gridDebt) <==>
              acc.gridDebt == 0 && 2 * (acc.collateral * pc * t.threshold) <= ONE
  {
    ValuesNonneg(acc, pc, pi);
    AllowedIsSafe(t, CollateralValue(acc, pc), IronValue(acc, pi), acc.gridDebt);
  }

  /** In the block of a successful message, at its prices, the booked position can be
      liquidated only when it owes nothing and its threshold value rounds to zero. */
  lemma GrantedStaysSafe(env: Env, s: State, p: Plan, l: Msg)
    requires p.Loan? && Bookable(s, p) && Execute(s, p).Ok?
    requires AvailableCollateral(s, p.denom).Ok? && p.denom in env.prices && IRON in env.prices
    requires var t := s.collateral.params[p.denom].terms;
             Granted(t, p.now, env.prices[p.denom], env.prices[IRON], s.height) && FullLtv(t) < t.threshold
    requires l.LiquidateCollateral? && l.debtor == p.who && l.seize.denom == p.denom
    ensures (MsgPlan(env, Execute(s, p).value, l) == Err(NotUndercollateralized)) <==>
              !(p.now.gridDebt == 0
                && 2 * (p.now.collateral * env.prices[p.denom] * s.collateral.params[p.denom].terms.threshold) <= ONE)
  {
    GrantedIsSafe(s.collateral.params[p.denom].terms, p.now, env.prices[p.denom], env.prices[IRON], s.height);
    LiquidationTest(env, s, p, l);
  }

  lemma NothingCatalysed(t: Terms, acc: AccountCollateral, pc: nat, pi: nat)
    requires t.catalyticRatio == 0 && 0 <= acc.collateral && 0 <= acc.iron && 0 <= acc.gridDebt
    requires RedeemAllows(t, CollateralValue(acc, pc), IronValue(acc, pi), acc.gridDebt)
    ensures acc.collateral * pc == 0 && acc.gridDebt == 0
  {
    ValuesNonneg(acc, pc, pi);
  }

  /** With a zero catalytic ratio, collateral comes out only when what stays is worthless
      and nothing is owed: any other withdrawal divides by zero. */
  lemma RedeemWithoutCatalysis(env: Env, s: State, m: Msg)
    requires CollateralOk(s.collateral, s.height) && EnvOk(env) && ValidateBasic(m)
    requires m.RedeemCollateral? && m.collateralOut.denom in s.collateral.params
    requires s.collateral.params[m.collateralOut.denom].terms.catalyticRatio == 0
    ensures RedeemCollateralPlan(env, s, m).Ok? ==>
              var p := RedeemCollateralPlan(env, s, m).value;
              p.Loan? && p.denom in env.prices && p.now.collateral * env.prices[p.denom] == 0 && p.now.gridDebt == 0
  {
    if RedeemCollateralPlan(env, s, m).Ok? {
      var p := RedeemCollateralPlan(env, s, m).value;
      RedeemGrants(env, s, m, p);
      RedeemChecked(env, s, m);
      NothingCatalysed(s.collateral.params[p.denom].terms, p.now, env.prices[p.denom], env.prices[IRON]);
    }
  }

  // --- Liquidation ----------------------------------------------------------------

  /** What a liquidation does to a position of given collateral and debt. */
  predicate FairSeizure(fee: Dec, pc: nat, was: AccountCollateral, now: AccountCollateral, q: Liquidation) {
    var seized := was.collateral - now.collateral;
    && q.collateralOut + q.commission == seized && 0 <= q.commission && 0 <= q.collateralOut
    // the liquidator never pays more than the collateral received is worth
    && q.repayIn * ONE <= q.collateralOut * pc
    // the payment reduces the debt, and whatever is over goes back to the debtor
    && 0 <= now.gridDebt && now.gridDebt == was.gridDebt - q.RepayDebt() && q.RepayDebt() <= q.repayIn
    // the debt-to-collateral ratio falls, up to a micro-coin, while the debt is at most (1 - fee) of the value
    && (was.gridDebt * ONE * ONE <= was.collateral * ((ONE - fee) * pc) ==>
          now.gridDebt * was.collateral <= was.gridDebt * now.collateral + was.collateral)
    // and rises beyond that by more than the rounding of one payment
    && (2 * (was.gridDebt * ONE * ONE) * seized > was.collateral * (2 * (seized * ((ONE - fee) * pc)) + ONE) ==>
          now.gridDebt * was.collateral > was.gridDebt * now.collateral)
  }

  /** How a liquidation's amounts come from its terms. */
  predicate Seizes(fee: Dec, rate: Dec, pc: nat, seized: nat, was: AccountCollateral, now: AccountCollateral,
                   q: Liquidation) {
    && 0 <= fee <= ONE && 0 <= rate <= ONE && 0 < seized <= was.collateral && 0 <= was.gridDebt
    && q.settled == was && q.commission == Commission(seized, fee, rate)
    && q.collateralOut == seized - q.commission && q.repayIn == LiquidationPrice(seized, fee, pc)
    && now == Repay(was, q.RepayDebt()).(collateral := was.collateral - seized)
  }

  lemma SeizureIsFair(fee: Dec, rate: Dec, pc: nat, seized: nat, was: AccountCollateral, now: AccountCollateral,
                      q: Liquidation)
    requires Seizes(fee, rate, pc, seized, was, now, q)
    ensures FairSeizure(fee, pc, was, now, q)
  {
    CommissionBound(seized, fee, rate);
    LiquidationPriceBound(seized, fee, pc);
    LiquidatorNeverOverpays(seized, fee, rate, pc);
    if was.gridDebt * ONE * ONE <= was.collateral * ((ONE - fee) * pc) {
      LiquidationDeleverages(was.collateral, was.gridDebt, seized, fee, pc);
    }
    if 2 * (was.gridDebt * ONE * ONE) * seized > was.collateral * (2 * (seized * ((ONE - fee) * pc)) + ONE) {
      LiquidationLeverages(was.collateral, was.gridDebt, seized, fee, pc);
    }
  }

  lemma QuoteShape(env: Env, s: State, m: Msg)
    requires m.LiquidateCollateral? && QuoteLiquidation(env, s, m).Ok?
    ensures m.seize.denom in env.prices && m.seize.denom in s.collateral.params
    ensures var q, fee := QuoteLiquidation(env, s, m).value, s.collateral.params[m.seize.denom].terms.liquidationFee;
            && q.commission == Commission(m.seize.amount, fee, env.params.commissionFee)
            && q.collateralOut == m.seize.amount - q.commission
            && q.repayIn == LiquidationPrice(m.seize.amount, fee, env.prices[m.seize.denom]) <= m.repayInMax
            && Liquidatable(s.collateral.params[m.seize.denom].terms,
                            CollateralValue(q.settled, env.prices[m.seize.denom]), q.settled.gridDebt)
  {
  }

  lemma SeizureShape(env: Env, s: State, m: Msg, q: Liquidation, p: Plan)
    requires m.LiquidateCollateral? && QuoteLiquidation(env, s, m) == Ok(q) && LiquidatePlan(env, s, m) == Ok(p)
    ensures p.Loan? && p.now == Repay(q.settled, q.RepayDebt()).(collateral := q.settled.collateral - m.seize.amount)
  {
  }

  lemma LiquidationSeizes(env: Env, s: State, m: Msg, q: Liquidation, p: Plan)
    requires CollateralOk(s.collateral, s.height) && EnvOk(env) && ValidateBasic(m)
    requires m.LiquidateCollateral? && QuoteLiquidation(env, s, m) == Ok(q) && LiquidatePlan(env, s, m) == Ok(p)
    ensures p.Loan? && m.seize.denom in s.collateral.params && m.seize.denom in env.prices
    ensures Seizes(s.collateral.params[m.seize.denom].terms.liquidationFee, env.params.commissionFee,
                   env.prices[m.seize.denom], m.seize.amount, q.settled, p.now, q)
  {
    SeizureShape(env, s, m, q, p);
    QuoteShape(env, s, m);
    QuoteLiquidationStarts(env, s, m);
    assert CollateralParamsOk(s.collateral.params[m.seize.denom]);
  }

  /** Every liquidation the keeper carries out is fair to both sides. */
  lemma LiquidationIsFair(env: Env, s: State, m: Msg)
    requires CollateralOk(s.collateral, s.height) && EnvOk(env) && ValidateBasic(m) && m.LiquidateCollateral?
    ensures LiquidatePlan(env, s, m).Ok? ==>
              var q, p := QuoteLiquidation(env, s, m), LiquidatePlan(env, s, m).value;
              && q.Ok? && p.Loan? && m.seize.denom in s.collateral.params && m.seize.denom in env.prices
              && FairSeizure(s.collateral.params[m.seize.denom].terms.liquidationFee, env.prices[m.seize.denom],
                             q.value.settled, p.now, q.value)
  {
    if LiquidatePlan(env, s, m).Ok? {
      var q, p := QuoteLiquidation(env, s, m).value, LiquidatePlan(env, s, m).value;
      LiquidationSeizes(env, s, m, q, p);
      SeizureIsFair(s.collateral.params[m.seize.denom].terms.liquidationFee, env.params.commissionFee,
                    env.prices[m.seize.denom], m.seize.amount, q.settled, p.now, q);
    }
  }

  // --- Interest -------------------------------------------------------------------

  /** A position settled at a sequence of heights. */
  function SettleAt(acc: AccountCollateral, heights: seq<int>, apr: Dec): AccountCollateral {
    if heights == [] then acc
    else Settle(SettleAt(acc, heights[..|heights| - 1], apr), heights[|heights| - 1], apr)
  }

  predicate Ascending(from: int, heights: seq<int>) {
    && (forall i | 0 <= i < |heights| :: from <= heights[i])
    && (forall i, j | 0 <= i <= j < |heights| :: heights[i] <= heights[j])
  }

  lemma OneSettlement(acc: AccountCollateral, height: int, apr: Dec)
    requires acc.lastSettlementBlock <= height && 0 <= apr && acc.lastInterest <= acc.gridDebt
    ensures var now, principal := Settle(acc, height, apr), acc.gridDebt - acc.lastInterest;
            var interest, due := now.lastInterest - acc.lastInterest,
                principal * apr * (height - acc.lastSettlementBlock);
            && now == acc.(gridDebt := acc.gridDebt + interest, lastInterest := acc.lastInterest + interest,
                           lastSettlementBlock := height)
            && 0 <= interest
            && 2 * (BLOCKS_PER_YEAR * ONE * interest - due) <= BLOCKS_PER_YEAR * ONE
            && 2 * (due - BLOCKS_PER_YEAR * ONE * interest) <= BLOCKS_PER_YEAR * (ONE + 2)
  {
    InterestError(acc.gridDebt - acc.lastInterest, apr, height - acc.lastSettlementBlock);
  }

  lemma Errors(rate: int, blocks: int, more: int, interest: int, extra: int, k: nat)
    requires 2 * (BLOCKS_PER_YEAR * ONE * interest - rate * blocks) <= k * (BLOCKS_PER_YEAR * ONE)
    requires 2 * (rate * blocks - BLOCKS_PER_YEAR * ONE * interest) <= k * (BLOCKS_PER_YEAR * (ONE + 2))
    requires 2 * (BLOCKS_PER_YEAR * ONE * extra - rate * more) <= BLOCKS_PER_YEAR * ONE
    requires 2 * (rate * more - BLOCKS_PER_YEAR * ONE * extra) <= BLOCKS_PER_YEAR * (ONE + 2)
    ensures 2 * (BLOCKS_PER_YEAR * ONE * (interest + extra) - rate * (blocks + more))
              <= (k + 1) * (BLOCKS_PER_YEAR * ONE)
    ensures 2 * (rate * (blocks + more) - BLOCKS_PER_YEAR * ONE * (interest + extra))
              <= (k + 1) * (BLOCKS_PER_YEAR * (ONE + 2))
  {
    assert rate * (blocks + more) == rate * blocks + rate * more;
  }

  /** However often a position is settled, the interest it accrues is within half a
      micro-coin and a unit in the 18th decimal per settlement of simple interest on an
      untouched principal. */
  lemma {:induction false} InterestIsSimple(acc: AccountCollateral, heights: seq<int>, apr: Dec)
    requires 0 <= apr && acc.lastInterest <= acc.gridDebt && Ascending(acc.lastSettlementBlock, heights)
    ensures var now, principal := SettleAt(acc, heights, apr), acc.gridDebt - acc.lastInterest;
            var interest := now.lastInterest - acc.lastInterest;
            var due := principal * apr * (now.lastSettlementBlock - acc.lastSettlementBlock);
            && now.gridDebt - now.lastInterest == principal
            && now.collateral == acc.collateral && now.iron == acc.iron && 0 <= interest
            && now.lastSettlementBlock == (if heights == [] then acc.lastSettlementBlock else heights[|heights| - 1])
            && 2 * (BLOCKS_PER_YEAR * ONE * interest - due) <= |heights| * (BLOCKS_PER_YEAR * ONE)
            && 2 * (due - BLOCKS_PER_YEAR * ONE * interest) <= |heights| * (BLOCKS_PER_YEAR * (ONE + 2))
    decreases |heights|
  {
    if heights != [] {
      var n := |heights| - 1;
      InterestIsSimple(acc, heights[..n], apr);
      var mid := SettleAt(acc, heights[..n], apr);
      OneSettlement(mid, heights[n], apr);
      var now := Settle(mid, heights[n], apr);
      Errors((acc.gridDebt - acc.lastInterest) * apr, mid.lastSettlementBlock - acc.lastSettlementBlock,
             heights[n] - mid.lastSettlementBlock, mid.lastInterest - acc.lastInterest,
             now.lastInterest - mid.lastInterest, n);
    }
  }
}
