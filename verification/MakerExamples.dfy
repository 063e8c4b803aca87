/**
 A small chain that shows what the laws leave open: a sale of backing accepted without a
 deficit, a ceiling patched below what its pool holds, and one that interest breaks.
 */
module MakerExamples {
  import opened FixedPoint
  import opened Results
  import opened MapSum
  import opened Bank
  import opened SwapMath
  import opened LoanMath
  import opened MakerState
  import opened MakerSpec
  import opened MakerChain
  import opened MakerInvariant
  import opened MakerCeilings
  import opened MakerDebt

  const ALICE: Address := "alice"
  const DUST: Denom := "udust"

  /** A backing coin priced at 10^-18 dollars, five of which are in its pool. */
  const ENV := Env(map[DUST := 1, IRON := ONE],
                   Params(0, ONE / 100, 1, ONE / 100, ONE / 100, ONE / 100, ONE / 100), {MAKER})
  const TERMS := BackingParams(true, Some(10), None, 0, 0, 0, 0)
  const CHAIN := State(
    Bank(map[(ALICE, DUST) := 1, (MAKER, DUST) := 5], map[DUST := 6]), 1, ONE, 0,
    BackingBook(map[DUST := TERMS], Some(NO_BACKING), map[DUST := PoolBacking(0, 5, 0)]),
    CollateralBook(map[], None, map[], map[]))

  const SALE := SellBacking(ALICE, None, Coin(DUST, 1), 0)

  /** The chain is in balance, with nothing minted to back. */
  lemma NoDeficit()
    ensures EnvOk(ENV) && ParamsOk(ENV.params)
    ensures Excess(ENV, CHAIN) == Ok(0)
  {
    var values := BackingValues(ENV, CHAIN.backing.pools);
    assert values == map[][DUST := 5];
    SumPut(map[], DUST, 5);
    SumEmpty<Denom>();
    MulWhole(0, ONE);
    assert RequiredBacking(0, ONE) == 0;
  }

  lemma SaleQuoted()
    ensures QuoteSell(ENV, CHAIN, SALE.backingIn) == Ok(SellQuote(0, 0))
  {
    NoDeficit();
    MulWhole(1, 1);
    QuoOne(1);
    QuoOne(0);
    assert RebackMint(1, 1, ONE, 0) == Ok(0);
    MulWhole(0, ENV.params.rebackBonus);
    MulWhole(0, 0);
  }

  lemma SalePays(b: Bank)
    requires b.Balance(ALICE, DUST) >= 1
    ensures Flow(b, [Transfer(ALICE, MAKER, Coin(DUST, 1))], Pass,
                 [Mint(ALICE, Coin(IRON, 0)), Mint(ORACLE, Coin(IRON, 0))]).Ok?
  {
    var t, m, n := Transfer(ALICE, MAKER, Coin(DUST, 1)), Mint(ALICE, Coin(IRON, 0)), Mint(ORACLE, Coin(IRON, 0));
    assert [t][1..] == [] && [n][1..] == [] && [m, n][1..] == [n];
    assert Apply(b, t).Ok?;
    var b1 := Apply(b, t).value;
    assert ApplyAll(b, [t]) == Ok(b1);
    var b2 := Apply(b1, m).value;
    assert ApplyAll(b1, [m, n]) == ApplyAll(b2, [n]);
    assert ApplyAll(b2, [n]) == ApplyAll(Apply(b2, n).value, []);
  }

  /** A unit of backing is sold without a deficit, and earns its seller nothing. */
  lemma SaleWithoutDeficit()
    ensures Excess(ENV, CHAIN).Ok? && Excess(ENV, CHAIN).value >= 0
    ensures MsgStep(ENV, CHAIN, SALE).Ok?
    ensures MsgStep(ENV, CHAIN, SALE).value.backing.pools[DUST].backing == 6
  {
    NoDeficit();
    SaleQuoted();
    assert ALICE[0] != MAKER[0];
    SalePays(CHAIN.bank);
  }

  const PATCH := BackingProposal(DUST, true, Some(3), None, None, None, None, None)

  /** A patch below what the pool holds is accepted, and the pool is above its ceiling. */
  lemma CeilingCanBreak()
    ensures PoolCeilings(CHAIN) && Step(ENV, CHAIN, SetBacking([PATCH])).Ok?
    ensures !PoolCeilings(Step(ENV, CHAIN, SetBacking([PATCH])).value)
  {
    assert [PATCH][1..] == [];
    var s' := SetBackingStep(ENV, CHAIN, PATCH).value;
    assert SetBackingBatch(ENV, CHAIN, [PATCH]) == Ok(s');
    assert DUST in s'.backing.params && DUST in s'.backing.pools;
  }

  // --- Interest past the ceiling --------------------------------------------------

  /** A hundred micro-dollars owed for a year at the highest interest, in a pool whose
      ceiling is a hundred. */
  const OWED := AccountCollateral(1000, 100, 0, 0, 0)
  const LOANS := CollateralParams(true, None, Some(100), Terms(ONE / 2, ONE / 4, ONE / 5, ONE / 10, 0), 0, ONE)
  const OWING := State(
    Bank(map[(ALICE, DUST) := 1, (MAKER, DUST) := 1000], map[DUST := 1001]), BLOCKS_PER_YEAR, ONE, 0,
    BackingBook(map[], None, map[]),
    CollateralBook(map[DUST := LOANS], Some(TotalCollateral(100, 0)), map[DUST := PoolCollateral(1000, 100, 0)],
                   map[(ALICE, DUST) := OWED]))

  const TOP_UP := DepositCollateral(ALICE, None, Coin(DUST, 1), 0)

  lemma OneAccount(c: Column, d: Denom)
    ensures AccountSum(OWING.collateral.accounts, c, Some(d)) == if d == DUST then Pick(c, OWED) else 0
  {
    AccountSumPut(map[], (ALICE, DUST), OWED, c, Some(d));
    SumEmpty<(Address, Denom)>();
    assert AccountColumn(map[], c, Some(d)) == map[];
    assert map[][(ALICE, DUST) := OWED] == OWING.collateral.accounts;
  }

  const OWED_POOL := PoolCollateral(1000, 100, 0)

  lemma OwingTerms()
    ensures CollateralParamsOk(LOANS)
  {
  }

  lemma OwingPool()
    ensures PoolsMatch(OWING.collateral.pools, OWING.collateral.accounts)
  {
    OneAccount(Coll, DUST);
    OneAccount(Debt, DUST);
    OneAccount(Iron, DUST);
  }

  lemma OwingBooks()
    ensures CollateralOk(OWING.collateral, OWING.height)
  {
    OwingTerms();
    OwingPool();
    OwingTotals();
  }

  lemma OwingTotals()
    ensures Sum(GridDebts(OWING.collateral.pools)) == 100 && Sum(PoolIrons(OWING.collateral.pools)) == 0
  {
    CollateralSumsPut(map[], DUST, OWED_POOL);
    SumEmpty<Denom>();
    assert GridDebts(map[]) == map[] && PoolIrons(map[]) == map[];
    assert map[][DUST := OWED_POOL] == OWING.collateral.pools;
  }

  lemma YearOfInterest()
    ensures AccruedInterest(OWED, BLOCKS_PER_YEAR, ONE) == 100
  {
    MulWhole(100, ONE);
    assert QuoInt(100 * ONE * BLOCKS_PER_YEAR, BLOCKS_PER_YEAR) == 100 * ONE;
    HalfEvenExact(100, ONE);
  }

  /** A deposit without ceiling on a stored position, in a coin other than the volatile one. */
  lemma DepositPlanned(env: Env, s: State, m: Msg, terms: CollateralParams, acc: AccountCollateral)
    requires m.DepositCollateral? && AvailableCollateral(s, m.collateralIn.denom) == Ok(terms)
    requires GetCollateral(s, Receiver(m), m.collateralIn.denom, true) == Ok(acc)
    requires terms.maxCollateral.None? && m.collateralIn.denom != IRON
    ensures DepositCollateralPlan(env, s, m) == Ok(DepositLoan(m, acc, Settle(acc, s.height, terms.interestFee)))
  {
  }

  lemma TopUpPays(b: Bank)
    requires b.Balance(ALICE, DUST) >= 1
    ensures Flow(b, [Transfer(ALICE, MAKER, Coin(DUST, 1)), Transfer(ALICE, MAKER, Coin(IRON, 0))], Pass, []).Ok?
  {
    var t, u := Transfer(ALICE, MAKER, Coin(DUST, 1)), Transfer(ALICE, MAKER, Coin(IRON, 0));
    assert [t, u][1..] == [u] && [u][1..] == [];
    var b1 := Apply(b, t).value;
    assert ApplyAll(b, [t, u]) == ApplyAll(b1, [u]);
    assert ApplyAll(b1, [u]) == ApplyAll(Apply(b1, u).value, []);
  }

  lemma LoanExecutes(s: State, p: Plan)
    requires p.Loan? && Bookable(s, p) && Flow(s.bank, p.ins, p.gate, p.outs).Ok?
    ensures Execute(s, p).Ok? && p.denom in Execute(s, p).value.collateral.pools
    ensures var b := Execute(s, p).value.collateral;
            && b.pools[p.denom].gridDebt == s.collateral.pools[p.denom].gridDebt + p.now.gridDebt - p.was.gridDebt
            && b.params == s.collateral.params
  {
  }

  /** Such a deposit succeeds when it is paid, and books the interest due. */
  lemma DepositSucceeds(env: Env, s: State, m: Msg, terms: CollateralParams, acc: AccountCollateral, interest: int)
    requires m.DepositCollateral? && ValidateBasic(m) && AvailableCollateral(s, m.collateralIn.denom) == Ok(terms)
    requires GetCollateral(s, Receiver(m), m.collateralIn.denom, true) == Ok(acc)
    requires terms.maxCollateral.None? && m.collateralIn.denom != IRON
    requires AccruedInterest(acc, s.height, terms.interestFee) == interest
    requires Flow(s.bank, [Transfer(m.sender, MAKER, m.collateralIn), Transfer(m.sender, MAKER, Coin(IRON, m.ironIn))],
                  Pass, []).Ok?
    ensures MsgStep(env, s, m).Ok? && m.collateralIn.denom in s.collateral.pools
    ensures var b, d := MsgStep(env, s, m).value.collateral, m.collateralIn.denom;
            && d in b.pools && b.pools[d].gridDebt == s.collateral.pools[d].gridDebt + interest
            && b.params == s.collateral.params
  {
    DepositPlanned(env, s, m, terms, acc);
    LoanExecutes(s, DepositLoan(m, acc, Settle(acc, s.height, terms.interestFee)));
  }

  lemma TopUpSucceeds()
    ensures MsgStep(ENV, OWING, TOP_UP).Ok?
    ensures var b := MsgStep(ENV, OWING, TOP_UP).value.collateral;
            DUST in b.pools && b.pools[DUST].gridDebt == 200 && b.params == OWING.collateral.params
  {
    assert ALICE[0] != MAKER[0] && DUST[0] != IRON[0];
    YearOfInterest();
    TopUpPays(OWING.bank);
    DepositSucceeds(ENV, OWING, TOP_UP, LOANS, OWED, 100);
  }

  lemma OwingFits()
    ensures Ceilings(OWING) && PrincipalCeilings(OWING)
  {
    OneAccount(Principal, DUST);
  }

  /** Adding collateral settles the interest, which takes the pool's debt past its ceiling;
      the principal stays within it. */
  lemma InterestCanBreak()
    ensures CollateralOk(OWING.collateral, OWING.height) && Ceilings(OWING) && PrincipalCeilings(OWING)
    ensures MsgStep(ENV, OWING, TOP_UP).Ok?
    ensures var s' := MsgStep(ENV, OWING, TOP_UP).value;
            && DUST in s'.collateral.pools && s'.collateral.pools[DUST].gridDebt == 200
            && DUST in s'.collateral.params && s'.collateral.params[DUST].maxGridMint == Some(100)
            && !DebtCeilings(s')
  {
    OwingBooks();
    OwingFits();
    TopUpSucceeds();
  }
}
