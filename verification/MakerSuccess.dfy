/**
 When a message succeeds: the exact conditions, in quotes, records, balances and accounts
 that may receive.
 */
module MakerSuccess {
  import opened FixedPoint
  import opened Results
  import opened Bank
  import opened SwapMath
  import opened LoanMath
  import opened MakerState
  import opened MakerSpec
  import opened MakerInvariant
  import opened MakerSafety
  import opened MakerSolvency
  import opened MakerValue
  import opened MakerPayments
  import opened MakerQuotes

  // --- Funds ----------------------------------------------------------------------

  /** The account holds two coins at once. */
  predicate Holds(b: Bank, who: Address, x: Coin, y: Coin) {
    && x.amount <= b.Balance(who, x.denom) && y.amount <= b.Balance(who, y.denom)
    && (x.denom == y.denom ==> x.amount + y.amount <= b.Balance(who, x.denom))
  }

  lemma TakeOne(b: Bank, m: Move, who: Address)
    requires Conserved(b) && TakenFrom(m, who)
    ensures Apply(b, m).Ok? <==> m.coin.amount <= b.Balance(who, m.coin.denom)
  {
    BalanceWithinSupply(b, who, m.coin.denom);
  }

  lemma TakeJust(b: Bank, m: Move, who: Address)
    requires Conserved(b) && TakenFrom(m, who)
    ensures ApplyAll(b, [m]).Ok? <==> m.coin.amount <= b.Balance(who, m.coin.denom)
  {
    TakeOne(b, m, who);
    assert [m][1..] == [];
  }

  /** Two moves off an account succeed exactly when it holds both coins. */
  lemma TakeTwo(b: Bank, m: Move, n: Move, who: Address)
    requires Conserved(b) && TakenFrom(m, who) && TakenFrom(n, who) && (m.Transfer? ==> m.to != who)
    ensures ApplyAll(b, [m, n]).Ok? <==> Holds(b, who, m.coin, n.coin)
  {
    TakeOne(b, m, who);
    assert [m, n][1..] == [n];
    if Apply(b, m).Ok? {
      var b1 := Apply(b, m).value;
      ApplyConserves(b, m);
      ApplyExact(b, m, who, n.coin.denom);
      assert Delta(m, who, n.coin.denom) == if m.coin.denom == n.coin.denom then 0 - m.coin.amount else 0;
      TakeJust(b1, n, who);
      assert ApplyAll(b, [m, n]) == ApplyAll(b1, [n]);
    }
  }

  /** There is a plan, its coins can be taken, and its gate lets it pass. */
  ghost predicate Runs(s: State, plan: Result<Plan>) {
    plan.Ok? && ApplyAll(s.bank, plan.value.ins).Ok? && plan.value.gate.Pass?
  }

  /** A message succeeds exactly when it is valid and its plan runs: the maker can always pay. */
  lemma StepWhen(env: Env, s: State, m: Msg)
    requires Inv(s) && EnvOk(env)
    ensures MsgStep(env, s, m).Ok? <==> ValidateBasic(m) && Runs(s, MsgPlan(env, s, m))
  {
    if ValidateBasic(m) { Solvent(env, s, m); }
  }

  /** Coins that make a set: not two amounts of one denomination. */
  predicate MakeSet(x: Denom, amount: int, y: Denom, other: int) {
    x == y ==> amount == 0 || other == 0
  }

  // --- Swaps ----------------------------------------------------------------------

  ghost predicate MintGranted(env: Env, s: State, m: Msg)
    requires m.MintBySwap?
  {
    var quote, b := QuoteMint(env, s, m.backingInMax, m.ironInMax, m.full), m.backingInMax.denom;
    && quote.Ok? && m.mintOutMin <= quote.value.mintOut
    && MakeSet(b, quote.value.backingIn, IRON, quote.value.ironIn)
    && quote.value.backingIn <= s.bank.Balance(m.sender, b) && quote.value.ironIn <= s.bank.Balance(m.sender, IRON)
    && Receiver(m) !in env.blocked
  }

  lemma MintPlanWhen(env: Env, s: State, m: Msg)
    requires BackingOk(s.backing) && m.MintBySwap?
    ensures var quote := QuoteMint(env, s, m.backingInMax, m.ironInMax, m.full);
            MintBySwapPlan(env, s, m).Ok? <==>
              && quote.Ok? && m.mintOutMin <= quote.value.mintOut
              && MakeSet(m.backingInMax.denom, quote.value.backingIn, IRON, quote.value.ironIn)
  {
    MintWorth(env, s, m.backingInMax, m.ironInMax, m.full);
  }

  lemma MintRuns(env: Env, s: State, m: Msg)
    requires Inv(s) && EnvOk(env) && m.MintBySwap? && ValidateBasic(m)
    ensures Runs(s, MintBySwapPlan(env, s, m)) <==> MintGranted(env, s, m)
  {
    MintPlanWhen(env, s, m);
    if MintBySwapPlan(env, s, m).Ok? {
      MintPlanned(env, s, m);
      var p := MintBySwapPlan(env, s, m).value;
      TakeTwo(s.bank, p.ins[0], p.ins[1], m.sender);
    }
  }

  /** MintBySwap succeeds exactly when it is valid and quoted, brings the least asked, takes a set
      of coins its sender has, and pays an account that may receive. */
  lemma MintSucceedsWhen(env: Env, s: State, m: Msg)
    requires Inv(s) && EnvOk(env) && m.MintBySwap?
    ensures MsgStep(env, s, m).Ok? <==> ValidateBasic(m) && MintGranted(env, s, m)
  {
    StepWhen(env, s, m);
    if ValidateBasic(m) { MintRuns(env, s, m); }
  }

  ghost predicate BurnGranted(env: Env, s: State, m: Msg)
    requires m.BurnBySwap?
  {
    var quote, b := QuoteBurn(env, s, m.burnIn, m.backingOutMin.denom), m.backingOutMin.denom;
    && quote.Ok? && m.backingOutMin.amount <= quote.value.backingOut && m.ironOutMin <= quote.value.ironOut
    && MakeSet(b, quote.value.backingOut, IRON, quote.value.ironOut)
    && m.burnIn <= s.bank.Balance(m.sender, USM)
    && Receiver(m) !in env.blocked
  }

  lemma BurnPlanWhen(env: Env, s: State, m: Msg)
    requires BackingOk(s.backing) && m.BurnBySwap?
    ensures var quote := QuoteBurn(env, s, m.burnIn, m.backingOutMin.denom);
            BurnBySwapPlan(env, s, m).Ok? <==>
              quote.Ok? && m.backingOutMin.amount <= quote.value.backingOut && m.ironOutMin <= quote.value.ironOut
  {
    BurnWorth(env, s, m.burnIn, m.backingOutMin.denom);
  }

  lemma BurnGateWhen(env: Env, s: State, m: Msg)
    requires m.BurnBySwap? && BurnBySwapPlan(env, s, m).Ok?
    ensures var q := QuoteBurn(env, s, m.burnIn, m.backingOutMin.denom).value;
            BurnBySwapPlan(env, s, m).value.gate.Pass? <==>
              MakeSet(m.backingOutMin.denom, q.backingOut, IRON, q.ironOut) && Receiver(m) !in env.blocked
  {
  }

  lemma BurnRuns(env: Env, s: State, m: Msg)
    requires Inv(s) && EnvOk(env) && m.BurnBySwap? && ValidateBasic(m)
    ensures Runs(s, BurnBySwapPlan(env, s, m)) <==> BurnGranted(env, s, m)
  {
    BurnPlanWhen(env, s, m);
    if BurnBySwapPlan(env, s, m).Ok? {
      BurnPlanned(env, s, m);
      BurnGateWhen(env, s, m);
      var p := BurnBySwapPlan(env, s, m).value;
      TakeTwo(s.bank, p.ins[0], p.ins[1], m.sender);
    }
  }

  /** BurnBySwap succeeds exactly when it is valid and quoted, brings the least asked as a set of
      coins, its sender has the stablecoins, and the receiver may receive. */
  lemma BurnSucceedsWhen(env: Env, s: State, m: Msg)
    requires Inv(s) && EnvOk(env) && m.BurnBySwap?
    ensures MsgStep(env, s, m).Ok? <==> ValidateBasic(m) && BurnGranted(env, s, m)
  {
    StepWhen(env, s, m);
    if ValidateBasic(m) { BurnRuns(env, s, m); }
  }

  ghost predicate BuyGranted(env: Env, s: State, m: Msg)
    requires m.BuyBacking?
  {
    var quote := QuoteBuy(env, s, m.ironIn, m.backingOutMin.denom);
    && quote.Ok? && m.backingOutMin.amount <= quote.value.backingOut
    && m.ironIn <= s.bank.Balance(m.sender, IRON)
    && Receiver(m) !in env.blocked
  }

  lemma BuyPlanWhen(env: Env, s: State, m: Msg)
    requires BackingOk(s.backing) && m.BuyBacking?
    ensures var quote := QuoteBuy(env, s, m.ironIn, m.backingOutMin.denom);
            BuyBackingPlan(env, s, m).Ok? <==> quote.Ok? && m.backingOutMin.amount <= quote.value.backingOut
  {
    if QuoteBuy(env, s, m.ironIn, m.backingOutMin.denom).Ok? {
      var q, b := QuoteBuy(env, s, m.ironIn, m.backingOutMin.denom).value, m.backingOutMin.denom;
      BuyShapes(env, s, m, q);
      BuyBackOutBound(m.ironIn, env.prices[b], env.prices[IRON], Excess(env, s).value);
      FeeWithin(q.backingOut + q.buybackFee, s.backing.params[b].buybackFee);
    }
  }

  lemma BuyRuns(env: Env, s: State, m: Msg)
    requires Inv(s) && EnvOk(env) && m.BuyBacking? && ValidateBasic(m)
    ensures Runs(s, BuyBackingPlan(env, s, m)) <==> BuyGranted(env, s, m)
  {
    BuyPlanWhen(env, s, m);
    if BuyBackingPlan(env, s, m).Ok? {
      BuyPlanned(env, s, m);
      TakeJust(s.bank, BuyBackingPlan(env, s, m).value.ins[0], m.sender);
    }
  }

  /** BuyBacking succeeds exactly when it is valid and quoted, brings the least asked, its sender
      has the iron, and the receiver may receive. */
  lemma BuySucceedsWhen(env: Env, s: State, m: Msg)
    requires Inv(s) && EnvOk(env) && m.BuyBacking?
    ensures MsgStep(env, s, m).Ok? <==> ValidateBasic(m) && BuyGranted(env, s, m)
  {
    StepWhen(env, s, m);
    if ValidateBasic(m) { BuyRuns(env, s, m); }
  }

  ghost predicate SellGranted(env: Env, s: State, m: Msg)
    requires m.SellBacking?
  {
    var quote := QuoteSell(env, s, m.backingIn);
    && quote.Ok? && m.ironOutMin <= quote.value.ironOut
    && m.backingIn.amount <= s.bank.Balance(m.sender, m.backingIn.denom)
    && Receiver(m) !in env.blocked
  }

  lemma SellPlanWhen(env: Env, s: State, m: Msg)
    requires BackingOk(s.backing) && EnvOk(env) && m.SellBacking?
    ensures var quote := QuoteSell(env, s, m.backingIn);
            SellBackingPlan(env, s, m).Ok? <==> quote.Ok? && m.ironOutMin <= quote.value.ironOut
  {
    if QuoteSell(env, s, m.backingIn).Ok? {
      var q, b := QuoteSell(env, s, m.backingIn).value, m.backingIn.denom;
      SellShapes(env, s, m, q);
      var pb, pi, excess := env.prices[b], env.prices[IRON], Excess(env, s).value;
      RebackMintBound(m.backingIn.amount, pb, pi, excess);
      var iron := RebackMint(m.backingIn.amount, pb, pi, excess).value;
      FeeWithin(iron, s.backing.params[b].rebackFee);
      FeeWithin(iron, env.params.rebackBonus);
    }
  }

  lemma SellRuns(env: Env, s: State, m: Msg)
    requires Inv(s) && EnvOk(env) && m.SellBacking? && ValidateBasic(m)
    ensures Runs(s, SellBackingPlan(env, s, m)) <==> SellGranted(env, s, m)
  {
    SellPlanWhen(env, s, m);
    if SellBackingPlan(env, s, m).Ok? {
      SellPlanned(env, s, m);
      TakeJust(s.bank, SellBackingPlan(env, s, m).value.ins[0], m.sender);
    }
  }

  /** SellBacking succeeds exactly when it is valid and quoted, brings the least asked, its sender
      has the backing, and the receiver may receive. */
  lemma SellSucceedsWhen(env: Env, s: State, m: Msg)
    requires Inv(s) && EnvOk(env) && m.SellBacking?
    ensures MsgStep(env, s, m).Ok? <==> ValidateBasic(m) && SellGranted(env, s, m)
  {
    StepWhen(env, s, m);
    if ValidateBasic(m) { SellRuns(env, s, m); }
  }

  // --- Loans ----------------------------------------------------------------------

  /** A collateral coin that may be used: enabled, with a pool. */
  predicate Lendable(s: State, d: Denom) {
    && d in s.collateral.params && s.collateral.params[d].enabled
    && s.collateral.total.Some? && d in s.collateral.pools
  }

  /** The collateral covers the debt: it has a value, and at the loan-to-value its iron makes
      available, that value is at least the debt. */
  predicate CoversDebt(t: Terms, value: Dec, ironValue: Dec, debt: int) {
    0 < value && debt * ONE <= Mul(value, AvailableLtv(t, value, ironValue))
  }

  lemma RecordOk(s: State, m: Msg, d: Denom, allowNew: bool)
    requires CollateralOk(s.collateral, s.height) && Lendable(s, d)
    requires (Owner(m), d) in s.collateral.accounts || allowNew
    ensures AvailableCollateral(s, d).Ok? && GetCollateral(s, Owner(m), d, allowNew).Ok?
    ensures Before(s, m, d) == Settled(s, Owner(m), d, allowNew) && AccountOk(Before(s, m, d), s.height)
    ensures CollateralParamsOk(s.collateral.params[d])
  {
    BeforeIs(s, m, d, allowNew);
    GetCollateralStarts(s, Owner(m), d, allowNew);
  }

  ghost predicate BorrowGranted(env: Env, s: State, m: Msg)
    requires m.MintByCollateral?
  {
    && BorrowFits(env, s, m) && Receiver(m) !in env.blocked
  }

  ghost predicate BorrowFits(env: Env, s: State, m: Msg)
    requires m.MintByCollateral?
  {
    && Lendable(s, m.denom) && (m.sender, m.denom) in s.collateral.accounts
    && m.denom in env.prices && IRON in env.prices
    && var params, was := s.collateral.params[m.denom], Before(s, m, m.denom);
       var debt := was.gridDebt + m.mintOut + ComputeFee(m.mintOut, params.mintFee);
       && UnderCeiling(s.collateral.pools[m.denom].gridDebt + debt
                       - s.collateral.accounts[(m.sender, m.denom)].gridDebt,
                 params.maxGridMint)
       && CoversDebt(params.terms, was.collateral * env.prices[m.denom], was.iron * env.prices[IRON], debt)
  }

  /** The check of a loan, on the values of a record. */
  lemma LimitMeans(t: Terms, acc: AccountCollateral, pc: nat, pi: nat, debt: int)
    requires TermsOk(t) && 0 <= acc.collateral && 0 <= acc.iron
    ensures MintAllows(t, CollateralValue(acc, pc), IronValue(acc, pi), debt) <==>
              CoversDebt(t, acc.collateral * pc, acc.iron * pi, debt)
    ensures RedeemAllows(t, CollateralValue(acc, pc), IronValue(acc, pi), debt) <==>
              if acc.collateral * pc == 0 then debt <= 0
              else t.catalyticRatio > 0 && CoversDebt(t, acc.collateral * pc, acc.iron * pi, debt)
  {
    ValuesNonneg(acc, pc, pi);
    MulWhole(acc.iron, pi);
    if CollateralValue(acc, pc) > 0 { ChecksAgree(t, CollateralValue(acc, pc), IronValue(acc, pi), debt); }
  }

  lemma BorrowTests(env: Env, s: State, m: Msg, acc: AccountCollateral, was: AccountCollateral, fee: nat)
    requires m.MintByCollateral? && s.collateral.total.Some? && m.denom in s.collateral.pools
    requires m.denom in s.collateral.params && TermsOk(s.collateral.params[m.denom].terms)
    requires m.denom in env.prices && IRON in env.prices && 0 <= was.collateral && 0 <= was.iron
    ensures var params, now := s.collateral.params[m.denom], MintLoan(env, m, acc, was, fee).now;
            && (Exceeds(BookAccount(s.collateral, m.sender, m.denom, acc, now).pools[m.denom].gridDebt,
                        params.maxGridMint)
                <==> !UnderCeiling(s.collateral.pools[m.denom].gridDebt + (was.gridDebt + m.mintOut + fee)
                                   - acc.gridDebt,
                                   params.maxGridMint))
            && (MintAllows(params.terms, CollateralValue(now, env.prices[m.denom]), IronValue(now, env.prices[IRON]),
                           now.gridDebt)
                <==> CoversDebt(params.terms, was.collateral * env.prices[m.denom], was.iron * env.prices[IRON],
                                was.gridDebt + m.mintOut + fee))
  {
    LimitMeans(s.collateral.params[m.denom].terms, was, env.prices[m.denom], env.prices[IRON],
               was.gridDebt + m.mintOut + fee);
  }

  lemma BorrowNeeds(env: Env, s: State, m: Msg, fee: nat)
    requires m.MintByCollateral? && Lendable(s, m.denom) && (m.sender, m.denom) in s.collateral.accounts
    requires m.denom in env.prices && IRON in env.prices
    requires fee == ComputeFee(m.mintOut, s.collateral.params[m.denom].mintFee)
    ensures var params, acc := s.collateral.params[m.denom], s.collateral.accounts[(m.sender, m.denom)];
            var now := MintLoan(env, m, acc, Before(s, m, m.denom), fee).now;
            MintByCollateralPlan(env, s, m).Ok? <==>
              && !Exceeds(BookAccount(s.collateral, m.sender, m.denom, acc, now).pools[m.denom].gridDebt,
                          params.maxGridMint)
              && MintAllows(params.terms, CollateralValue(now, env.prices[m.denom]), IronValue(now, env.prices[IRON]),
                            now.gridDebt)
  {
  }

  lemma BorrowRefused(env: Env, s: State, m: Msg)
    requires m.MintByCollateral? && MintByCollateralPlan(env, s, m).Ok?
    ensures Lendable(s, m.denom) && (m.sender, m.denom) in s.collateral.accounts
    ensures m.denom in env.prices && IRON in env.prices
  {
  }

  lemma BorrowAllowed(env: Env, s: State, m: Msg, was: AccountCollateral, fee: nat)
    requires m.MintByCollateral? && Lendable(s, m.denom) && (m.sender, m.denom) in s.collateral.accounts
    requires m.denom in env.prices && IRON in env.prices && TermsOk(s.collateral.params[m.denom].terms)
    requires fee == ComputeFee(m.mintOut, s.collateral.params[m.denom].mintFee)
    requires was == Before(s, m, m.denom) && 0 <= was.collateral && 0 <= was.iron
    ensures MintByCollateralPlan(env, s, m).Ok? <==> BorrowFits(env, s, m)
  {
    BorrowNeeds(env, s, m, fee);
    BorrowTests(env, s, m, s.collateral.accounts[(m.sender, m.denom)], was, fee);
  }

  /** Everything a borrower's plan needs to be found is there. */
  predicate Borrowable(env: Env, s: State, who: Address, d: Denom) {
    Lendable(s, d) && (who, d) in s.collateral.accounts && d in env.prices && IRON in env.prices
  }

  lemma BorrowerPlanWhen(env: Env, s: State, m: Msg)
    requires CollateralOk(s.collateral, s.height) && m.MintByCollateral? && Borrowable(env, s, m.sender, m.denom)
    ensures MintByCollateralPlan(env, s, m).Ok? <==> BorrowFits(env, s, m)
  {
    RecordOk(s, m, m.denom, false);
    FeeWithin(m.mintOut, s.collateral.params[m.denom].mintFee);
    BorrowAllowed(env, s, m, Before(s, m, m.denom), ComputeFee(m.mintOut, s.collateral.params[m.denom].mintFee));
  }

  lemma BorrowPlanWhen(env: Env, s: State, m: Msg)
    requires CollateralOk(s.collateral, s.height) && m.MintByCollateral?
    ensures MintByCollateralPlan(env, s, m).Ok? <==> BorrowFits(env, s, m)
  {
    if Borrowable(env, s, m.sender, m.denom) {
      BorrowerPlanWhen(env, s, m);
    } else if MintByCollateralPlan(env, s, m).Ok? {
      BorrowRefused(env, s, m);
    }
  }

  lemma BorrowRuns(env: Env, s: State, m: Msg)
    requires Inv(s) && EnvOk(env) && m.MintByCollateral? && ValidateBasic(m)
    ensures Runs(s, MintByCollateralPlan(env, s, m)) <==> BorrowGranted(env, s, m)
  {
    BorrowPlanWhen(env, s, m);
    if MintByCollateralPlan(env, s, m).Ok? { MintShape(env, s, m); }
  }

  /** MintByCollateral succeeds exactly when it is valid, the coin may be used, both prices are
      known, the account has a record, the new debt stays under the coin's ceiling and is
      covered, and the receiver may receive. */
  lemma BorrowSucceedsWhen(env: Env, s: State, m: Msg)
    requires Inv(s) && EnvOk(env) && m.MintByCollateral?
    ensures MsgStep(env, s, m).Ok? <==> ValidateBasic(m) && BorrowGranted(env, s, m)
  {
    StepWhen(env, s, m);
    if ValidateBasic(m) { BorrowRuns(env, s, m); }
  }

  ghost predicate RepayGranted(s: State, m: Msg)
    requires m.BurnByCollateral?
  {
    && Lendable(s, m.denom) && (m.sender, m.denom) in s.collateral.accounts
    && var debt := Before(s, m, m.denom).gridDebt;
       0 < debt && Min(debt, m.repayInMax) <= s.bank.Balance(m.sender, USM)
  }

  lemma RepayPlanWhen(env: Env, s: State, m: Msg)
    requires CollateralOk(s.collateral, s.height) && m.BurnByCollateral?
    ensures BurnByCollateralPlan(env, s, m).Ok? <==>
              && Lendable(s, m.denom) && (m.sender, m.denom) in s.collateral.accounts
              && 0 < Before(s, m, m.denom).gridDebt
  {
    if Lendable(s, m.denom) && (m.sender, m.denom) in s.collateral.accounts { RecordOk(s, m, m.denom, false); }
  }

  lemma RepayFunds(b: Bank, m: Msg, acc: AccountCollateral, was: AccountCollateral)
    requires Conserved(b) && m.BurnByCollateral? && 0 <= was.lastInterest && 0 <= was.gridDebt
    ensures RepayLoan(m, acc, was).gate.Pass?
    ensures ApplyAll(b, RepayLoan(m, acc, was).ins).Ok? <==>
              Min(was.gridDebt, m.repayInMax) <= b.Balance(m.sender, USM)
  {
    var ins := RepayLoan(m, acc, was).ins;
    TakeTwo(b, ins[0], ins[1], m.sender);
  }

  lemma RepayRuns(env: Env, s: State, m: Msg)
    requires Inv(s) && EnvOk(env) && m.BurnByCollateral? && ValidateBasic(m)
    ensures Runs(s, BurnByCollateralPlan(env, s, m)) <==> RepayGranted(s, m)
  {
    RepayPlanWhen(env, s, m);
    if BurnByCollateralPlan(env, s, m).Ok? {
      RepayShape(env, s, m);
      BeforeIs(s, m, m.denom, false);
      RepayFunds(s.bank, m, s.collateral.accounts[(m.sender, m.denom)], Before(s, m, m.denom));
    }
  }

  /** BurnByCollateral succeeds exactly when it is valid, the coin may be used, the account has a
      record with a debt, and its holder the stablecoins to repay. */
  lemma RepaySucceedsWhen(env: Env, s: State, m: Msg)
    requires Inv(s) && EnvOk(env) && m.BurnByCollateral?
    ensures MsgStep(env, s, m).Ok? <==> ValidateBasic(m) && RepayGranted(s, m)
  {
    StepWhen(env, s, m);
    if ValidateBasic(m) { RepayRuns(env, s, m); }
  }

  ghost predicate DepositGranted(s: State, m: Msg)
    requires m.DepositCollateral?
  {
    var c := m.collateralIn;
    && Lendable(s, c.denom) && MakeSet(c.denom, c.amount, IRON, m.ironIn)
    && UnderCeiling(s.collateral.pools[c.denom].collateral + c.amount, s.collateral.params[c.denom].maxCollateral)
    && c.amount <= s.bank.Balance(m.sender, c.denom) && m.ironIn <= s.bank.Balance(m.sender, IRON)
  }

  lemma DepositPlanWhen(env: Env, s: State, m: Msg)
    requires m.DepositCollateral?
    ensures var c := m.collateralIn;
            DepositCollateralPlan(env, s, m).Ok? <==>
              && Lendable(s, c.denom) && MakeSet(c.denom, c.amount, IRON, m.ironIn)
              && UnderCeiling(s.collateral.pools[c.denom].collateral + c.amount,
                              s.collateral.params[c.denom].maxCollateral)
  {
  }

  lemma DepositRuns(env: Env, s: State, m: Msg)
    requires Inv(s) && EnvOk(env) && m.DepositCollateral? && ValidateBasic(m)
    ensures Runs(s, DepositCollateralPlan(env, s, m)) <==> DepositGranted(s, m)
  {
    DepositPlanWhen(env, s, m);
    if DepositCollateralPlan(env, s, m).Ok? {
      DepositShape(env, s, m);
      var p := DepositCollateralPlan(env, s, m).value;
      TakeTwo(s.bank, p.ins[0], p.ins[1], m.sender);
    }
  }

  /** DepositCollateral succeeds exactly when it is valid, the coin may be used, the coins make a
      set their sender has, and the collateral stays under its ceiling. */
  lemma DepositSucceedsWhen(env: Env, s: State, m: Msg)
    requires Inv(s) && EnvOk(env) && m.DepositCollateral?
    ensures MsgStep(env, s, m).Ok? <==> ValidateBasic(m) && DepositGranted(s, m)
  {
    StepWhen(env, s, m);
    if ValidateBasic(m) { DepositRuns(env, s, m); }
  }

  /** The record holds both coins, and what is left of it covers its debt. */
  predicate RedeemLeaves(env: Env, m: Msg, t: Terms, was: AccountCollateral)
    requires m.RedeemCollateral?
  {
    var c := m.collateralOut;
    && c.amount <= was.collateral && m.ironOut <= was.iron && c.denom in env.prices && IRON in env.prices
    && var value := (was.collateral - c.amount) * env.prices[c.denom];
       if value == 0 then was.gridDebt <= 0
       else t.catalyticRatio > 0 && CoversDebt(t, value, (was.iron - m.ironOut) * env.prices[IRON], was.gridDebt)
  }

  ghost predicate RedeemFits(env: Env, s: State, m: Msg)
    requires m.RedeemCollateral?
  {
    var d := m.collateralOut.denom;
    && Lendable(s, d) && (m.sender, d) in s.collateral.accounts
    && RedeemLeaves(env, m, s.collateral.params[d].terms, Before(s, m, d))
  }

  ghost predicate RedeemGranted(env: Env, s: State, m: Msg)
    requires m.RedeemCollateral?
  {
    && RedeemFits(env, s, m)
    && MakeSet(m.collateralOut.denom, m.collateralOut.amount, IRON, m.ironOut)
    && Receiver(m) !in env.blocked
  }

  lemma RedeemAtWhen(env: Env, m: Msg, t: Terms, acc: AccountCollateral, was: AccountCollateral)
    requires m.RedeemCollateral? && TermsOk(t)
    ensures RedeemCollateralAt(env, m, t, acc, was).Ok? <==> RedeemLeaves(env, m, t, was)
  {
    var c := m.collateralOut;
    if c.amount <= was.collateral && m.ironOut <= was.iron && c.denom in env.prices && IRON in env.prices {
      var now := was.(collateral := was.collateral - c.amount, iron := was.iron - m.ironOut);
      LimitMeans(t, now, env.prices[c.denom], env.prices[IRON], was.gridDebt);
      ValuesNonneg(now, env.prices[c.denom], env.prices[IRON]);
    }
  }

  lemma RedeemPlanWhen(env: Env, s: State, m: Msg)
    requires CollateralOk(s.collateral, s.height) && m.RedeemCollateral?
    ensures RedeemCollateralPlan(env, s, m).Ok? <==> RedeemFits(env, s, m)
  {
    var d := m.collateralOut.denom;
    if Lendable(s, d) && (m.sender, d) in s.collateral.accounts {
      RecordOk(s, m, d, false);
      RedeemAtWhen(env, m, s.collateral.params[d].terms, s.collateral.accounts[(m.sender, d)], Before(s, m, d));
    }
  }

  lemma RedeemRuns(env: Env, s: State, m: Msg)
    requires Inv(s) && EnvOk(env) && m.RedeemCollateral? && ValidateBasic(m)
    ensures Runs(s, RedeemCollateralPlan(env, s, m)) <==> RedeemGranted(env, s, m)
  {
    RedeemPlanWhen(env, s, m);
    if RedeemCollateralPlan(env, s, m).Ok? { RedeemShape(env, s, m); }
  }

  /** RedeemCollateral succeeds exactly when it is valid, the coin may be used, both prices are
      known, the account's record holds both coins, what is left covers the debt, the coins make
      a set, and the receiver may receive. */
  lemma RedeemSucceedsWhen(env: Env, s: State, m: Msg)
    requires Inv(s) && EnvOk(env) && m.RedeemCollateral?
    ensures MsgStep(env, s, m).Ok? <==> ValidateBasic(m) && RedeemGranted(env, s, m)
  {
    StepWhen(env, s, m);
    if ValidateBasic(m) { RedeemRuns(env, s, m); }
  }

  ghost predicate SeizureFits(env: Env, s: State, m: Msg)
    requires m.LiquidateCollateral?
  {
    var c := m.seize;
    && Lendable(s, c.denom) && (m.debtor, c.denom) in s.collateral.accounts && c.denom in env.prices
    && var t, was := s.collateral.params[c.denom].terms, Before(s, m, c.denom);
       && Mul(was.collateral * env.prices[c.denom], t.threshold) <= was.gridDebt * ONE
       && c.amount <= was.collateral
       && LiquidationPrice(c.amount, t.liquidationFee, env.prices[c.denom]) <= m.repayInMax
  }

  ghost predicate SeizureGranted(env: Env, s: State, m: Msg)
    requires m.LiquidateCollateral?
  {
    && SeizureFits(env, s, m)
    && var t, was := s.collateral.params[m.seize.denom].terms, Before(s, m, m.seize.denom);
       var price := LiquidationPrice(m.seize.amount, t.liquidationFee, env.prices[m.seize.denom]);
       && price <= s.bank.Balance(m.sender, USM)
       && (was.gridDebt < price ==> m.debtor !in env.blocked)
       && Receiver(m) !in env.blocked
  }

  lemma OverThreshold(t: Terms, acc: AccountCollateral, pc: nat)
    ensures Liquidatable(t, CollateralValue(acc, pc), acc.gridDebt) <==>
              Mul(acc.collateral * pc, t.threshold) <= acc.gridDebt * ONE
  {
    MulWhole(acc.collateral, pc);
    MulWhole(acc.gridDebt, ONE);
  }

  lemma SeizureMeasures(t: Terms, was: AccountCollateral, c: Coin, rate: Dec, pc: nat)
    requires TermsOk(t) && 0 <= rate <= ONE
    ensures 0 <= Commission(c.amount, t.liquidationFee, rate) <= c.amount
    ensures 0 <= LiquidationPrice(c.amount, t.liquidationFee, pc)
    ensures Liquidatable(t, CollateralValue(was, pc), was.gridDebt) <==>
              Mul(was.collateral * pc, t.threshold) <= was.gridDebt * ONE
  {
    SeizurePriced(c, t.liquidationFee, rate, pc);
    OverThreshold(t, was, pc);
  }

  lemma SeizureNeeds(env: Env, s: State, m: Msg)
    requires m.LiquidateCollateral? && Lendable(s, m.seize.denom) && (m.debtor, m.seize.denom) in s.collateral.accounts
    requires m.seize.denom in env.prices
    ensures var c, was, pc := m.seize, Before(s, m, m.seize.denom), env.prices[m.seize.denom];
            var t := s.collateral.params[c.denom].terms;
            var price, commission := LiquidationPrice(c.amount, t.liquidationFee, pc),
                Commission(c.amount, t.liquidationFee, env.params.commissionFee);
            QuoteLiquidation(env, s, m).Ok? <==>
              && Liquidatable(t, CollateralValue(was, pc), was.gridDebt) && c.amount <= was.collateral
              && 0 <= commission <= c.amount && 0 <= price <= m.repayInMax
    ensures QuoteLiquidation(env, s, m).Ok? ==>
              QuoteLiquidation(env, s, m).value.settled == Before(s, m, m.seize.denom)
  {
  }

  lemma SeizureRefused(env: Env, s: State, m: Msg)
    requires m.LiquidateCollateral? && QuoteLiquidation(env, s, m).Ok?
    ensures Lendable(s, m.seize.denom) && (m.debtor, m.seize.denom) in s.collateral.accounts
    ensures m.seize.denom in env.prices
  {
  }

  lemma SeizureQuotedWhen(env: Env, s: State, m: Msg)
    requires CollateralOk(s.collateral, s.height) && EnvOk(env) && m.LiquidateCollateral?
    ensures QuoteLiquidation(env, s, m).Ok? <==> SeizureFits(env, s, m)
    ensures QuoteLiquidation(env, s, m).Ok? ==>
              QuoteLiquidation(env, s, m).value.settled == Before(s, m, m.seize.denom)
  {
    var c := m.seize;
    if Lendable(s, c.denom) && (m.debtor, c.denom) in s.collateral.accounts && c.denom in env.prices {
      assert CollateralParamsOk(s.collateral.params[c.denom]);
      SeizureNeeds(env, s, m);
      SeizureMeasures(s.collateral.params[c.denom].terms, Before(s, m, c.denom), c, env.params.commissionFee,
                      env.prices[c.denom]);
    } else if QuoteLiquidation(env, s, m).Ok? {
      SeizureRefused(env, s, m);
    }
  }

  lemma RepaysSomething(q: Liquidation, height: int)
    requires AccountOk(q.settled, height) && 0 <= q.repayIn
    ensures 0 <= q.RepayDebt() && 0 <= q.RepayInterest()
  {
  }

  lemma SeizurePlanWhen(env: Env, s: State, m: Msg)
    requires CollateralOk(s.collateral, s.height) && EnvOk(env) && m.LiquidateCollateral?
    ensures LiquidatePlan(env, s, m).Ok? <==> SeizureFits(env, s, m)
  {
    SeizureQuotedWhen(env, s, m);
    if SeizureFits(env, s, m) {
      RecordOk(s, m, m.seize.denom, false);
      RepaysSomething(QuoteLiquidation(env, s, m).value, s.height);
    }
  }

  lemma SeizureFunds(b: Bank, env: Env, m: Msg, q: Liquidation)
    requires Conserved(b) && m.LiquidateCollateral?
    requires 0 <= q.RepayDebt() && 0 <= q.collateralOut && 0 <= q.commission
    ensures ApplyAll(b, LiquidationLoan(env, m, q).ins).Ok? <==> q.repayIn <= b.Balance(m.sender, USM)
    ensures LiquidationLoan(env, m, q).gate.Pass? <==>
              (q.settled.gridDebt < q.repayIn ==> m.debtor !in env.blocked) && Receiver(m) !in env.blocked
  {
    var ins := LiquidationLoan(env, m, q).ins;
    TakeTwo(b, ins[0], ins[1], m.sender);
  }

  lemma SeizureRuns(env: Env, s: State, m: Msg)
    requires Inv(s) && EnvOk(env) && m.LiquidateCollateral? && ValidateBasic(m)
    ensures Runs(s, LiquidatePlan(env, s, m)) <==> SeizureGranted(env, s, m)
  {
    SeizurePlanWhen(env, s, m);
    if LiquidatePlan(env, s, m).Ok? {
      LiquidationPlanned(env, s, m);
      QuoteShape(env, s, m);
      SeizureFunds(s.bank, env, m, QuoteLiquidation(env, s, m).value);
    }
  }

  /** LiquidateCollateral succeeds exactly when it is valid, the coin may be used and has a price,
      the debtor's record is at or over its threshold and holds the collateral, the price is
      within the most offered and the sender has it, the receiver may receive, and so may
      the debtor if anything is left for it. */
  lemma SeizureSucceedsWhen(env: Env, s: State, m: Msg)
    requires Inv(s) && EnvOk(env) && m.LiquidateCollateral?
    ensures MsgStep(env, s, m).Ok? <==> ValidateBasic(m) && SeizureGranted(env, s, m)
  {
    StepWhen(env, s, m);
    if ValidateBasic(m) { SeizureRuns(env, s, m); }
  }
}
