/**
 The ceiling on debt against collateral.  Borrowing respects it; interest does not, so it
 holds exactly as long as the interest due fits.  What always fits are the principals.
 */
module MakerDebt {
  import opened FixedPoint
  import opened Results
  import opened SwapMath
  import opened LoanMath
  import opened MapSum
  import opened MakerState
  import opened MakerSpec
  import opened MakerChain
  import opened MakerInvariant
  import opened MakerSafety
  import opened MakerRuns
  import opened MakerCeilings
  import opened Runs

  /** No collateral pool owes more than its ceiling. */
  predicate DebtCeilings(s: State) {
    forall d | d in s.collateral.params && d in s.collateral.pools ::
      !Exceeds(s.collateral.pools[d].gridDebt, s.collateral.params[d].maxGridMint)
  }

  /** No pool is above any of its ceilings. */
  predicate Ceilings(s: State) {
    PoolCeilings(s) && DebtCeilings(s)
  }

  // --- What a message does to a pool's debt ---------------------------------------

  /** The record a message finds for its account, if any. */
  function Position(s: State, m: Msg): AccountCollateral {
    var key := (Owner(m), Or(LoanDenom(m), ""));
    if key in s.collateral.accounts then s.collateral.accounts[key] else AccountCollateral(0, 0, 0, 0, s.height)
  }

  /** The interest a position has run up since it was last settled. */
  function Due(s: State, m: Msg, terms: CollateralParams): int {
    AccruedInterest(Position(s, m), s.height, terms.interestFee)
  }

  /** What a message borrows, its fee included. */
  function Borrowed(m: Msg, terms: CollateralParams): int {
    if m.MintByCollateral? then m.mintOut + ComputeFee(m.mintOut, terms.mintFee) else 0
  }

  /** What a message pays towards a position's debt: what is offered or, in a liquidation,
      the price of the collateral seized, but no more than is owed. */
  function Repaid(env: Env, s: State, m: Msg, terms: CollateralParams): int {
    var owed := Position(s, m).gridDebt + Due(s, m, terms);
    match m
    case BurnByCollateral(_, _, repay) => Min(owed, repay)
    case LiquidateCollateral(_, _, _, seize, _) =>
      if seize.denom in env.prices
      then Min(owed, LiquidationPrice(seize.amount, terms.terms.liquidationFee, env.prices[seize.denom]))
      else 0
    case _ => 0
  }

  /** The interest due, with what is borrowed and less what is repaid, stays within the ceiling. */
  predicate DebtFits(env: Env, s: State, m: Msg) {
    LoanDenom(m).Some? && LoanDenom(m).value in s.collateral.params && LoanDenom(m).value in s.collateral.pools ==>
      var pool, terms := s.collateral.pools[LoanDenom(m).value], s.collateral.params[LoanDenom(m).value];
      !Exceeds(pool.gridDebt + Due(s, m, terms) + Borrowed(m, terms) - Repaid(env, s, m, terms), terms.maxGridMint)
  }

  /** The change a plan books is the interest due, what is borrowed, less what is repaid. */
  predicate BooksDebt(env: Env, s: State, m: Msg, p: Plan) {
    p.Loan? && p.denom in s.collateral.params ==>
      var terms := s.collateral.params[p.denom];
      p.now.gridDebt - p.was.gridDebt == Due(s, m, terms) + Borrowed(m, terms) - Repaid(env, s, m, terms)
  }

  lemma RepayBooks(env: Env, s: State, m: Msg)
    requires m.BurnByCollateral? && BurnByCollateralPlan(env, s, m).Ok?
    ensures BooksDebt(env, s, m, BurnByCollateralPlan(env, s, m).value)
  {
    RepayShape(env, s, m);
  }

  lemma BorrowBooks(env: Env, s: State, m: Msg)
    requires m.MintByCollateral? && MintByCollateralPlan(env, s, m).Ok?
    ensures BooksDebt(env, s, m, MintByCollateralPlan(env, s, m).value)
  {
    MintShape(env, s, m);
  }

  lemma DepositBooks(env: Env, s: State, m: Msg)
    requires m.DepositCollateral? && DepositCollateralPlan(env, s, m).Ok?
    ensures BooksDebt(env, s, m, DepositCollateralPlan(env, s, m).value)
  {
    DepositShape(env, s, m);
  }

  lemma RedeemBooks(env: Env, s: State, m: Msg)
    requires m.RedeemCollateral? && RedeemCollateralPlan(env, s, m).Ok?
    ensures BooksDebt(env, s, m, RedeemCollateralPlan(env, s, m).value)
  {
    RedeemShape(env, s, m);
  }

  lemma LiquidationBooks(env: Env, s: State, m: Msg)
    requires m.LiquidateCollateral? && LiquidatePlan(env, s, m).Ok?
    ensures BooksDebt(env, s, m, LiquidatePlan(env, s, m).value)
  {
  }

  lemma MsgBooks(env: Env, s: State, m: Msg)
    requires MsgPlan(env, s, m).Ok?
    ensures BooksDebt(env, s, m, MsgPlan(env, s, m).value)
  {
    PlanOwner(env, s, m);
    match m
    case MintByCollateral(_, _, _, _) => BorrowBooks(env, s, m);
    case BurnByCollateral(_, _, _) => RepayBooks(env, s, m);
    case DepositCollateral(_, _, _, _) => DepositBooks(env, s, m);
    case RedeemCollateral(_, _, _, _) => RedeemBooks(env, s, m);
    case LiquidateCollateral(_, _, _, _, _) => LiquidationBooks(env, s, m);
    case _ =>
  }

  /** Executing a plan moves its pool's debt, and no other's. */
  lemma ExecuteDebt(s: State, p: Plan)
    requires DebtCeilings(s) && Bookable(s, p) && Execute(s, p).Ok?
    ensures DebtCeilings(Execute(s, p).value) <==>
              (p.Loan? && p.denom in s.collateral.params ==>
                 !Exceeds(s.collateral.pools[p.denom].gridDebt + p.now.gridDebt - p.was.gridDebt,
                          s.collateral.params[p.denom].maxGridMint))
  {
    var s' := Execute(s, p).value;
    if p.Loan? {
      assert forall d | d in s.collateral.pools && d != p.denom :: s'.collateral.pools[d] == s.collateral.pools[d];
    }
  }

  /** A message that succeeds keeps the debt ceiling if and only if the interest due on its
      account, with what it borrows and less what it repays, fits the pool. */
  lemma MsgDebtIff(env: Env, s: State, m: Msg)
    requires DebtCeilings(s)
    ensures MsgStep(env, s, m).Ok? ==> (DebtCeilings(MsgStep(env, s, m).value) <==> DebtFits(env, s, m))
  {
    if MsgStep(env, s, m).Ok? {
      PlanOwner(env, s, m);
      MsgBooks(env, s, m);
      ExecuteDebt(s, MsgPlan(env, s, m).value);
    }
  }

  /** Borrowing always fits: the keeper checks it, interest included. */
  lemma BorrowingFits(env: Env, s: State, m: Msg)
    requires m.MintByCollateral?
    ensures MsgStep(env, s, m).Ok? ==> DebtFits(env, s, m)
  {
    if MsgStep(env, s, m).Ok? { BorrowBooks(env, s, m); }
  }

  // --- Patches --------------------------------------------------------------------

  function DebtPatches(ps: seq<CollateralProposal>): (r: Patches)
    ensures |r| == |ps|
    ensures ps != [] ==> r[1..] == DebtPatches(ps[1..])
  {
    seq(|ps|, i requires 0 <= i < |ps| => (ps[i].denom, ps[i].maxGridMint))
  }

  lemma {:induction false} PatchesLeaveDebt(env: Env, s: State, ps: seq<CollateralProposal>, d: Denom)
    requires SetCollateralBatch(env, s, ps).Ok?
    ensures var s' := SetCollateralBatch(env, s, ps).value;
            && s'.collateral.pools == s.collateral.pools && s'.collateral.accounts == s.collateral.accounts
            && (d in s'.collateral.params <==> d in s.collateral.params)
            && (d in s.collateral.params ==>
                  s'.collateral.params[d].maxGridMint
                    == Left(s.collateral.params[d].maxGridMint, DebtPatches(ps), d))
    decreases ps
  {
    if ps != [] { PatchesLeaveDebt(env, SetCollateralStep(env, s, ps[0]).value, ps[1..], d); }
  }

  /** The ceilings a batch of patches leaves are not below given amounts. */
  ghost predicate AmountsFit(s: State, amounts: Denom -> int, ps: seq<CollateralProposal>) {
    forall d | d in s.collateral.params && d in s.collateral.pools ::
      !Exceeds(amounts(d), Left(s.collateral.params[d].maxGridMint, DebtPatches(ps), d))
  }

  ghost predicate AmountsWithin(s: State, amounts: Denom -> int) {
    forall d | d in s.collateral.params && d in s.collateral.pools ::
      !Exceeds(amounts(d), s.collateral.params[d].maxGridMint)
  }

  lemma PatchesIff(env: Env, s: State, amounts: Denom -> int, ps: seq<CollateralProposal>)
    requires SetCollateralBatch(env, s, ps).Ok?
    ensures AmountsWithin(SetCollateralBatch(env, s, ps).value, amounts) <==> AmountsFit(s, amounts, ps)
  {
    var s' := SetCollateralBatch(env, s, ps).value;
    PatchesLeaveDebt(env, s, ps, "");
    forall d
      ensures d in s'.collateral.params <==> d in s.collateral.params
      ensures d in s.collateral.params ==>
                s'.collateral.params[d].maxGridMint == Left(s.collateral.params[d].maxGridMint, DebtPatches(ps), d)
    {
      PatchesLeaveDebt(env, s, ps, d);
    }
  }

  function Debts(s: State): Denom -> int {
    (d: Denom) => if d in s.collateral.pools then s.collateral.pools[d].gridDebt else 0
  }

  lemma DebtPatchesIff(env: Env, s: State, ps: seq<CollateralProposal>)
    requires SetCollateralBatch(env, s, ps).Ok?
    ensures DebtCeilings(SetCollateralBatch(env, s, ps).value) <==> AmountsFit(s, Debts(s), ps)
  {
    PatchesLeaveDebt(env, s, ps, "");
    PatchesIff(env, s, Debts(s), ps);
  }

  // --- Every action ---------------------------------------------------------------

  /** An action that succeeds leaves every pool's debt within its ceiling: a message by what
      it books, a batch of patches by the ceilings it leaves. */
  ghost predicate EventDebtFits(s: State, e: Event) {
    Step(e.env, s, e.action).Ok? ==>
      match e.action
      case Tx(m) => DebtFits(e.env, s, m)
      case SetCollateral(ps) => AmountsFit(s, Debts(s), ps)
      case _ => true
  }

  lemma OtherDebt(env: Env, s: State, a: Action)
    requires DebtCeilings(s) && !a.Tx? && !a.SetCollateral? && Step(env, s, a).Ok?
    ensures DebtCeilings(Step(env, s, a).value)
  {
    match a
    case SetBacking(ps) => SetBackingLeaves(env, s, ps, "");
    case _ =>
  }

  lemma DebtStepFits(s: State, e: Event)
    requires DebtCeilings(s)
    ensures DebtCeilings(EventNext(s, e)) <==> EventDebtFits(s, e)
  {
    if Step(e.env, s, e.action).Ok? {
      if e.action.Tx? {
        MsgDebtIff(e.env, s, e.action.msg);
      } else if e.action.SetCollateral? {
        DebtPatchesIff(e.env, s, e.action.collaterals);
      } else {
        OtherDebt(e.env, s, e.action);
      }
    }
  }

  ghost predicate Fits(s: State, e: Event) {
    PatchesFit(s, e) && EventDebtFits(s, e)
  }

  /** One action keeps all four ceilings if and only if it is no batch of patches that leaves
      one too low, and no message that settles more interest than fits. */
  lemma StepFits(s: State, e: Event)
    requires Ceilings(s)
    ensures Ceilings(EventNext(s, e)) <==> Fits(s, e)
  {
    PoolStepFits(s, e);
    DebtStepFits(s, e);
  }

  /** Over every run, all four ceilings hold in every state if and only if every action
      fits them when it is reached. */
  lemma CeilingsRunIff(s: State, run: seq<Event>)
    requires Ceilings(s)
    ensures Always(EventNext, Ceilings, s, run) <==> Each(EventNext, Fits, s, run)
  {
    forall s', e | Ceilings(s') && AnyEvent(s', e)
      ensures Ceilings(EventNext(s', e)) <==> Fits(s', e)
    {
      StepFits(s', e);
    }
    RunIff(EventNext, Ceilings, AnyEvent, Fits, s, run);
  }

  // --- Principals -----------------------------------------------------------------

  /** What a pool's accounts have borrowed and not repaid, interest aside. */
  ghost function Principals(s: State): Denom -> int {
    (d: Denom) => AccountSum(s.collateral.accounts, Principal, Some(d))
  }

  ghost predicate PrincipalCeilings(s: State) {
    AmountsWithin(s, Principals(s))
  }

  lemma PrincipalColumn(accounts: Accounts, denoms: set<Denom>, height: int, d: Denom)
    requires AccountsOk(accounts, denoms, height)
    ensures AccountSum(accounts, Principal, Some(d)) <= AccountSum(accounts, Debt, Some(d))
  {
    var principals, debts := AccountColumn(accounts, Principal, Some(d)), AccountColumn(accounts, Debt, Some(d));
    forall k | k in principals
      ensures k in debts && principals[k] <= debts[k]
    {
      assert k in accounts && AccountOk(accounts[k], height);
    }
    assert principals.Keys == debts.Keys;
    SumMono(principals, debts);
  }

  /** The principals are never more than the pool's debt. */
  lemma PrincipalsWithinDebt(b: CollateralBook, height: int, d: Denom)
    requires CollateralOk(b, height) && d in b.pools
    ensures AccountSum(b.accounts, Principal, Some(d)) <= b.pools[d].gridDebt
  {
    assert PoolMatches(b.pools[d], b.accounts, d);
    PrincipalColumn(b.accounts, b.pools.Keys, height, d);
  }

  predicate Lowers(p: Plan) {
    p.Loan? ==> Pick(Principal, p.now) <= Pick(Principal, p.was)
  }

  lemma RepayLoanLowers(m: Msg, acc: AccountCollateral, settled: AccountCollateral)
    requires m.BurnByCollateral? && 0 <= settled.lastInterest <= settled.gridDebt
    requires Pick(Principal, settled) == Pick(Principal, acc)
    ensures Lowers(RepayLoan(m, acc, settled))
  {
  }

  lemma RepayLowers(env: Env, s: State, m: Msg)
    requires CollateralOk(s.collateral, s.height) && m.BurnByCollateral? && BurnByCollateralPlan(env, s, m).Ok?
    ensures Lowers(BurnByCollateralPlan(env, s, m).value)
  {
    RepayShape(env, s, m);
    GetCollateralStarts(s, m.sender, m.denom, false);
    RepayLoanLowers(m, GetCollateral(s, m.sender, m.denom, false).value, Settled(s, m.sender, m.denom, false));
  }

  lemma MovesNoDebt(env: Env, m: Msg, acc: AccountCollateral, settled: AccountCollateral)
    requires Pick(Principal, settled) == Pick(Principal, acc)
    ensures m.DepositCollateral? ==> Lowers(DepositLoan(m, acc, settled))
    ensures m.RedeemCollateral? ==> Lowers(RedeemLoan(env, m, acc, settled))
  {
  }

  lemma DepositLowers(env: Env, s: State, m: Msg)
    requires CollateralOk(s.collateral, s.height) && m.DepositCollateral? && DepositCollateralPlan(env, s, m).Ok?
    ensures Lowers(DepositCollateralPlan(env, s, m).value)
  {
    var d := m.collateralIn.denom;
    DepositShape(env, s, m);
    GetCollateralStarts(s, Receiver(m), d, true);
    MovesNoDebt(env, m, GetCollateral(s, Receiver(m), d, true).value, Settled(s, Receiver(m), d, true));
  }

  lemma RedeemLowers(env: Env, s: State, m: Msg)
    requires CollateralOk(s.collateral, s.height) && m.RedeemCollateral? && RedeemCollateralPlan(env, s, m).Ok?
    ensures Lowers(RedeemCollateralPlan(env, s, m).value)
  {
    var d := m.collateralOut.denom;
    RedeemShape(env, s, m);
    GetCollateralStarts(s, m.sender, d, false);
    MovesNoDebt(env, m, GetCollateral(s, m.sender, d, false).value, Settled(s, m.sender, d, false));
  }

  lemma LiquidationLowers(env: Env, s: State, m: Msg)
    requires CollateralOk(s.collateral, s.height) && m.LiquidateCollateral? && LiquidatePlan(env, s, m).Ok?
    ensures Lowers(LiquidatePlan(env, s, m).value)
  {
    QuoteLiquidationStarts(env, s, m);
  }

  /** Only borrowing adds to a principal. */
  lemma PrincipalFalls(env: Env, s: State, m: Msg)
    requires CollateralOk(s.collateral, s.height) && MsgPlan(env, s, m).Ok? && !m.MintByCollateral?
    ensures Lowers(MsgPlan(env, s, m).value)
  {
    PlanOwner(env, s, m);
    match m
    case BurnByCollateral(_, _, _) => RepayLowers(env, s, m);
    case DepositCollateral(_, _, _, _) => DepositLowers(env, s, m);
    case RedeemCollateral(_, _, _, _) => RedeemLowers(env, s, m);
    case LiquidateCollateral(_, _, _, _, _) => LiquidationLowers(env, s, m);
    case _ =>
  }

  lemma PrincipalBooked(s: State, p: Plan, d: Denom)
    requires p.Loan? && Bookable(s, p) && Recordable(s, p) && Execute(s, p).Ok?
    ensures Principals(Execute(s, p).value)(d)
              == Principals(s)(d) + if d == p.denom then Pick(Principal, p.now) - Pick(Principal, p.was) else 0
  {
    AccountSumPut(s.collateral.accounts, (p.who, p.denom), p.now, Principal, Some(d));
  }

  lemma BorrowingWithin(env: Env, s: State, m: Msg)
    requires m.MintByCollateral? && MsgStep(env, s, m).Ok?
    ensures var b := MsgStep(env, s, m).value.collateral;
            && b.params == s.collateral.params && m.denom in b.params && m.denom in b.pools
            && !Exceeds(b.pools[m.denom].gridDebt, b.params[m.denom].maxGridMint)
            && MsgStep(env, s, m).value.height == s.height
  {
  }

  lemma BorrowPrincipal(env: Env, s: State, m: Msg)
    requires m.MintByCollateral? && MsgStep(env, s, m).Ok?
               && CollateralOk(MsgStep(env, s, m).value.collateral, s.height)
    ensures m.denom in s.collateral.params
    ensures !Exceeds(Principals(MsgStep(env, s, m).value)(m.denom), s.collateral.params[m.denom].maxGridMint)
  {
    BorrowingWithin(env, s, m);
    PrincipalsWithinDebt(MsgStep(env, s, m).value.collateral, s.height, m.denom);
  }

  lemma PlanPrincipal(s: State, p: Plan, d: Denom)
    requires Bookable(s, p) && Recordable(s, p) && Execute(s, p).Ok? && (Lowers(p) || p.denom != d)
    ensures Principals(Execute(s, p).value)(d) <= Principals(s)(d)
  {
    if p.Loan? { PrincipalBooked(s, p, d); }
  }

  lemma MsgPrincipal(env: Env, s: State, m: Msg, d: Denom)
    requires Inv(s) && EnvOk(env) && PrincipalCeilings(s) && MsgStep(env, s, m).Ok?
    requires d in s.collateral.params && d in s.collateral.pools
    ensures !Exceeds(Principals(MsgStep(env, s, m).value)(d), s.collateral.params[d].maxGridMint)
  {
    if m.MintByCollateral? && m.denom == d {
      BorrowingWithin(env, s, m);
      MsgKeeps(env, s, m);
      BorrowPrincipal(env, s, m);
    } else {
      MsgSound(env, s, m);
      PlanOwner(env, s, m);
      if !m.MintByCollateral? { PrincipalFalls(env, s, m); }
      PlanPrincipal(s, MsgPlan(env, s, m).value, d);
    }
  }

  lemma MsgSameTerms(env: Env, s: State, m: Msg)
    requires MsgStep(env, s, m).Ok?
    ensures var b := MsgStep(env, s, m).value.collateral;
            b.params == s.collateral.params && b.pools.Keys == s.collateral.pools.Keys
  {
  }

  lemma MsgPrincipals(env: Env, s: State, m: Msg)
    requires Inv(s) && EnvOk(env) && PrincipalCeilings(s)
    ensures MsgStep(env, s, m).Ok? ==> PrincipalCeilings(MsgStep(env, s, m).value)
  {
    if MsgStep(env, s, m).Ok? {
      var s' := MsgStep(env, s, m).value;
      MsgSameTerms(env, s, m);
      forall d | d in s'.collateral.params && d in s'.collateral.pools
        ensures !Exceeds(Principals(s')(d), s'.collateral.params[d].maxGridMint)
      {
        MsgPrincipal(env, s, m, d);
      }
    }
  }

  /** A new coin has no accounts yet. */
  lemma RegistrationPrincipals(env: Env, s: State, p: CollateralProposal)
    requires Inv(s) && PrincipalCeilings(s) && RegisterCollateralStep(env, s, p).Ok?
    ensures PrincipalCeilings(RegisterCollateralStep(env, s, p).value)
  {
    var s' := RegisterCollateralStep(env, s, p).value;
    EmptyColumn(s.collateral.accounts, s.collateral.pools.Keys, s.height, Principal, p.denom);
    forall d | d in s'.collateral.params && d in s'.collateral.pools
      ensures !Exceeds(Principals(s')(d), s'.collateral.params[d].maxGridMint)
    {
      assert d != p.denom ==> !Exceeds(Principals(s)(d), s.collateral.params[d].maxGridMint);
    }
  }

  lemma PrincipalPatchesIff(env: Env, s: State, ps: seq<CollateralProposal>)
    requires SetCollateralBatch(env, s, ps).Ok?
    ensures PrincipalCeilings(SetCollateralBatch(env, s, ps).value) <==> AmountsFit(s, Principals(s), ps)
  {
    PatchesLeaveDebt(env, s, ps, "");
    PatchesIff(env, s, Principals(s), ps);
    assert AmountsWithin(SetCollateralBatch(env, s, ps).value, Principals(s)) <==>
           PrincipalCeilings(SetCollateralBatch(env, s, ps).value);
  }

  lemma OtherPrincipals(env: Env, s: State, a: Action)
    requires PrincipalCeilings(s) && !a.Tx? && !a.SetCollateral? && !a.RegisterCollateral? && Step(env, s, a).Ok?
    ensures PrincipalCeilings(Step(env, s, a).value)
  {
    match a
    case SetBacking(ps) => SetBackingLeaves(env, s, ps, "");
    case _ =>
  }

  /** A batch of patches that succeeds leaves no ceiling below the principals. */
  ghost predicate PrincipalPatchesFit(s: State, e: Event) {
    e.action.SetCollateral? && Step(e.env, s, e.action).Ok? ==> AmountsFit(s, Principals(s), e.action.collaterals)
  }

  lemma PrincipalStepFits(s: State, e: Event)
    requires Inv(s) && EnvOk(e.env) && PrincipalCeilings(s)
    ensures PrincipalCeilings(EventNext(s, e)) <==> PrincipalPatchesFit(s, e)
  {
    if Step(e.env, s, e.action).Ok? {
      if e.action.Tx? {
        MsgPrincipals(e.env, s, e.action.msg);
      } else if e.action.RegisterCollateral? {
        RegistrationPrincipals(e.env, s, e.action.collateral);
      } else if e.action.SetCollateral? {
        PrincipalPatchesIff(e.env, s, e.action.collaterals);
      } else {
        OtherPrincipals(e.env, s, e.action);
      }
    }
  }

  ghost predicate PrincipalsHold(s: State) {
    Inv(s) && PrincipalCeilings(s)
  }

  ghost predicate SaneEvent(s: State, e: Event) {
    EnvOk(e.env)
  }

  /** Over every run, the principals of every pool are within its ceiling in every state if
      and only if no batch of patches leaves the ceiling below them: no interest, nor any
      other message, ever takes them past it. */
  lemma PrincipalsRunIff(s: State, run: seq<Event>)
    requires Inv(s) && PrincipalCeilings(s) && EventsOk(run)
    ensures Always(EventNext, PrincipalsHold, s, run) <==> Each(EventNext, PrincipalPatchesFit, s, run)
  {
    forall s', e | PrincipalsHold(s') && SaneEvent(s', e)
      ensures PrincipalsHold(EventNext(s', e)) <==> PrincipalPatchesFit(s', e)
    {
      StepKeeps(e.env, s', e.action);
      PrincipalStepFits(s', e);
    }
    assert forall k | 0 <= k < |run| :: run[k] in run;
    RunIff(EventNext, PrincipalsHold, SaneEvent, PrincipalPatchesFit, s, run);
  }

  lemma LowersNothingPrincipals(s: State, e: Event)
    requires PrincipalCeilings(s) && LowersNothing(s, e)
    ensures PrincipalPatchesFit(s, e)
  {
    if e.action.SetCollateral? {
      var ps := e.action.collaterals;
      forall d | d in s.collateral.params && d in s.collateral.pools
        ensures !Exceeds(Principals(s)(d), Left(s.collateral.params[d].maxGridMint, DebtPatches(ps), d))
      {
        HigherFits(Principals(s)(d), s.collateral.params[d].maxGridMint, DebtPatches(ps), d);
      }
    }
  }

  ghost predicate RaisesOnly(s: State, e: Event) {
    EnvOk(e.env) && LowersNothing(s, e)
  }

  lemma PrincipalsRun(s: State, run: seq<Event>)
    requires PrincipalsHold(s) && EventsOk(run) && Each(EventNext, LowersNothing, s, run)
    ensures Always(EventNext, PrincipalsHold, s, run)
  {
    forall s', e | PrincipalsHold(s') && RaisesOnly(s', e)
      ensures PrincipalsHold(EventNext(s', e)) <==> AnyEvent(s', e)
    {
      StepKeeps(e.env, s', e.action);
      LowersNothingPrincipals(s', e);
      PrincipalStepFits(s', e);
    }
    assert forall k | 0 <= k < |run| :: run[k] in run;
    RunIff(EventNext, PrincipalsHold, RaisesOnly, AnyEvent, s, run);
  }

  /** From a fresh chain, over every run in which no patch lowers a ceiling, in every state:
      backing, minted stablecoins and collateral are within their ceilings, and so are the
      principals borrowed against each collateral. */
  lemma CeilingsRun(s: State, run: seq<Event>)
    requires Init(s) && Each(EventNext, LowersNothing, s, run)
    ensures Always(EventNext, PoolCeilings, s, run)
    ensures EventsOk(run) ==> Always(EventNext, PrincipalsHold, s, run)
  {
    InitInv(s);
    PoolsRun(s, run);
    if EventsOk(run) { PrincipalsRun(s, run); }
  }
}
