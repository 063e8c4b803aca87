/**
 What each message, proposal and end of block does to the maker's ledgers and to the
 coins: the quotes, the ledger entries, and the net flow of coins between the parties.

 The flows are stated net: who ends up with what.  The keeper routes every coin through
 the module account; that the routes amount to these flows is proved of the keeper.
 */
module MakerSpec {
  import opened FixedPoint
  import opened Results
  import opened MapSum
  import opened Bank
  import opened SwapMath
  import opened LoanMath
  import opened MakerState

  // --- Lookups --------------------------------------------------------------------

  function Price(env: Env, denom: Denom): Result<nat> {
    if denom in env.prices then Ok(env.prices[denom]) else Err(UnknownPrice)
  }

  function AvailableBacking(s: State, denom: Denom): Result<BackingParams> {
    var params := s.backing.params;
    :- Need(denom in params, BackingCoinNotFound);
    :- Need(params[denom].enabled, BackingCoinDisabled);
    Ok(params[denom])
  }

  function AvailableCollateral(s: State, denom: Denom): Result<CollateralParams> {
    var params := s.collateral.params;
    :- Need(denom in params, CollateralCoinNotFound);
    :- Need(params[denom].enabled, CollateralCoinDisabled);
    Ok(params[denom])
  }

  function GetBacking(s: State, denom: Denom): Result<PoolBacking> {
    var b := s.backing;
    :- Need(b.total.Some? && denom in b.pools, BackingCoinNotFound);
    Ok(b.pools[denom])
  }

  /** The account's record; a deposit may open a new one, settled as of now. */
  function GetCollateral(s: State, who: Address, denom: Denom, allowNew: bool): Result<AccountCollateral> {
    var b := s.collateral;
    :- Need(b.total.Some? && denom in b.pools, CollateralCoinNotFound);
    if (who, denom) in b.accounts then Ok(b.accounts[(who, denom)])
    else if allowNew then Ok(AccountCollateral(0, 0, 0, 0, s.height))
    else Err(AccountNoCollateral)
  }

  predicate Exceeds(amount: int, limit: Option<int>) {
    limit.Some? && amount > limit.value
  }

  // --- Quotes ---------------------------------------------------------------------

  /** The market price must be at least the target plus the mint bias. */
  function CheckMintPrice(env: Env): Result<()> {
    var price :- Price(env, USM);
    :- Need(price >= Mul(ONE, ONE + env.params.mintPriceBias), GridPriceTooLow);
    Ok(())
  }

  /** The market price must be at most the target minus a bias; the keeper reads the
      mint bias for it. */
  function CheckBurnPrice(env: Env): Result<()> {
    var price :- Price(env, USM);
    :- Need(price <= Mul(ONE, ONE - env.params.mintPriceBias), GridPriceTooHigh);
    Ok(())
  }

  datatype MintQuote = MintQuote(backingIn: int, ironIn: int, mintOut: int, mintFee: int)

  function QuoteMint(env: Env, s: State, backing: Coin, ironMax: int, full: bool): Result<MintQuote>
  {
    var _ :- CheckMintPrice(env);
    var params :- AvailableBacking(s, backing.denom);
    var pb :- Price(env, backing.denom);
    var pi :- Price(env, IRON);
    var legs :- MintLegs(s.ratio, pb, pi, backing.amount, ironMax, full);
    var total := MintTotal(legs.usd);
    var pool :- GetBacking(s, backing.denom);
    :- Need(!Exceeds(pool.gridMinted + total, params.maxGridMint), GridCeiling);
    :- Need(!Exceeds(pool.backing + legs.backingIn, params.maxBacking), BackingCeiling);
    var fee := ComputeFee(total, params.mintFee);
    Ok(MintQuote(legs.backingIn, legs.ironIn, total - fee, fee))
  }

  datatype BurnQuote = BurnQuote(backingOut: int, ironOut: int, burnFee: int)

  function QuoteBurn(env: Env, s: State, burnIn: int, denom: Denom): Result<BurnQuote>
  {
    var _ :- CheckBurnPrice(env);
    var params :- AvailableBacking(s, denom);
    var pb :- Price(env, denom);
    var pi :- Price(env, IRON);
    var fee := ComputeFee(burnIn, params.burnFee);
    var pay :- BurnPayout(s.ratio, pb, pi, burnIn - fee);
    var pool :- GetBacking(s, denom);
    :- Need(pay.backingOut <= Min(pool.backing, s.bank.Balance(MAKER, denom)), BackingCoinInsufficient);
    Ok(BurnQuote(pay.backingOut, pay.ironOut, fee))
  }

  /** The value of every pool's backing, by denomination. */
  ghost function BackingValues(env: Env, pools: map<Denom, PoolBacking>): map<Denom, int> {
    map d | d in pools && d in env.prices :: pools[d].backing * env.prices[d]
  }

  ghost function BackingValue(env: Env, s: State): Dec {
    Sum(BackingValues(env, s.backing.pools))
  }

  ghost function TotalBackingInUSD(env: Env, s: State): Result<int> {
    var priced := s.backing.pools.Keys <= env.prices.Keys;
    :- Need(priced, UnknownPrice);
    Ok(TruncateInt(BackingValue(env, s)))
  }

  /** The backing value above what the minted stablecoins call for; negative in deficit. */
  ghost function Excess(env: Env, s: State): Result<int> {
    var total := s.backing.total;
    :- Need(total.Some?, BackingCoinNotFound);
    var value :- TotalBackingInUSD(env, s);
    Ok(value - RequiredBacking(total.value.gridMinted, s.ratio))
  }

  datatype BuyQuote = BuyQuote(backingOut: int, buybackFee: int)

  function QuoteBuyAt(env: Env, s: State, ironIn: int, denom: Denom, excess: Result<int>): Result<BuyQuote> {
    var params :- AvailableBacking(s, denom);
    var pb :- Price(env, denom);
    var pi :- Price(env, IRON);
    var over :- excess;
    var total :- BuyBackOut(ironIn, pb, pi, over);
    var pool :- GetBacking(s, denom);
    :- Need(total <= Min(pool.backing, s.bank.Balance(MAKER, denom)), BackingCoinInsufficient);
    var fee := ComputeFee(total, params.buybackFee);
    Ok(BuyQuote(total - fee, fee))
  }

  ghost function QuoteBuy(env: Env, s: State, ironIn: int, denom: Denom): Result<BuyQuote> {
    QuoteBuyAt(env, s, ironIn, denom, Excess(env, s))
  }

  datatype SellQuote = SellQuote(ironOut: int, rebackFee: int)

  function QuoteSellAt(env: Env, s: State, backing: Coin, excess: Result<int>): Result<SellQuote> {
    var params :- AvailableBacking(s, backing.denom);
    var pb :- Price(env, backing.denom);
    var pi :- Price(env, IRON);
    var pool :- GetBacking(s, backing.denom);
    :- Need(!Exceeds(pool.backing + backing.amount, params.maxBacking), BackingCeiling);
    var over :- excess;
    var ironMint :- RebackMint(backing.amount, pb, pi, over);
    var bonus := ComputeFee(ironMint, env.params.rebackBonus);
    var fee := ComputeFee(ironMint, params.rebackFee);
    Ok(SellQuote(ironMint + bonus - fee, fee))
  }

  ghost function QuoteSell(env: Env, s: State, backing: Coin): Result<SellQuote> {
    QuoteSellAt(env, s, backing, Excess(env, s))
  }

  // --- Ledger entries -------------------------------------------------------------

  /** Book a swap on a backing pool and on the total. */
  function BookBacking(b: BackingBook, denom: Denom, grid: int, backing: int, iron: int): BackingBook
    requires b.total.Some? && denom in b.pools
  {
    var t, p := b.total.value, b.pools[denom];
    b.(total := Some(TotalBacking(t.gridMinted + grid, t.ironBurned + iron)),
       pools := b.pools[denom := PoolBacking(p.gridMinted + grid, p.backing + backing, p.ironBurned + iron)])
  }

  /** Interest accrued by an account since it was last settled. */
  function AccruedInterest(acc: AccountCollateral, height: int, apr: Dec): int {
    if height == acc.lastSettlementBlock then 0
    else InterestOf(acc.gridDebt - acc.lastInterest, apr, height - acc.lastSettlementBlock)
  }

  function Settle(acc: AccountCollateral, height: int, apr: Dec): AccountCollateral {
    var interest := AccruedInterest(acc, height, apr);
    acc.(lastInterest := acc.lastInterest + interest,
         gridDebt := acc.gridDebt + interest,
         lastSettlementBlock := height)
  }

  /** Replace an account's record and carry the difference to its pool and the total. */
  function BookAccount(b: CollateralBook, who: Address, denom: Denom, was: AccountCollateral,
                       now: AccountCollateral): CollateralBook
    requires b.total.Some? && denom in b.pools
  {
    var t, p := b.total.value, b.pools[denom];
    var debt, coll, iron := now.gridDebt - was.gridDebt, now.collateral - was.collateral, now.iron - was.iron;
    b.(total := Some(TotalCollateral(t.gridDebt + debt, t.iron + iron)),
       pools := b.pools[denom := PoolCollateral(p.collateral + coll, p.gridDebt + debt, p.iron + iron)],
       accounts := b.accounts[(who, denom) := now])
  }

  // --- Coin flows -----------------------------------------------------------------

  /** A set of two coins must not name a denomination twice. */
  predicate DistinctCoins(a: Coin, b: Coin) {
    a.amount == 0 || b.amount == 0 || a.denom != b.denom
  }

  function MayReceive(env: Env, who: Address): Check {
    Need(who !in env.blocked, Unauthorized)
  }

  /** Coins come in, a condition is checked, coins go out. */
  function Flow(b: Bank, ins: seq<Move>, gate: Check, outs: seq<Move>): Result<Bank> {
    var b1 :- ApplyAll(b, ins);
    :- gate;
    ApplyAll(b1, outs)
  }

  /** What a message books and pays: an entry in one of the two books, and a flow. */
  datatype Plan =
    | Swap(denom: Denom, grid: int, backing: int, iron: int,
           ins: seq<Move>, gate: Check, outs: seq<Move>)
    | Loan(who: Address, denom: Denom, was: AccountCollateral, now: AccountCollateral, interestBurned: int,
           ins: seq<Move>, gate: Check, outs: seq<Move>)

  predicate Bookable(s: State, p: Plan) {
    if p.Swap? then s.backing.total.Some? && p.denom in s.backing.pools
    else s.collateral.total.Some? && p.denom in s.collateral.pools
  }

  function Execute(s: State, p: Plan): Result<State>
    requires Bookable(s, p)
  {
    var bank :- Flow(s.bank, p.ins, p.gate, p.outs);
    if p.Swap? then Ok(s.(backing := BookBacking(s.backing, p.denom, p.grid, p.backing, p.iron), bank := bank))
    else Ok(s.(collateral := BookAccount(s.collateral, p.who, p.denom, p.was, p.now), bank := bank))
  }

  // --- The nine messages ----------------------------------------------------------

  function MintBySwapPlan(env: Env, s: State, m: Msg): (p: Result<Plan>)
    requires m.MintBySwap?
    ensures p.Ok? ==> Bookable(s, p.value)
  {
    MintBySwapAt(env, s, m, QuoteMint(env, s, m.backingInMax, m.ironInMax, m.full))
  }

  function MintBySwapAt(env: Env, s: State, m: Msg, quote: Result<MintQuote>): (p: Result<Plan>)
    requires m.MintBySwap?
    ensures p.Ok? ==> Bookable(s, p.value)
  {
    var denom := m.backingInMax.denom;
    var q :- quote;
    :- Need(0 <= q.backingIn && 0 <= q.ironIn && 0 <= q.mintOut && 0 <= q.mintFee, Panic);
    :- Need(m.mintOutMin <= q.mintOut, OverSlippage);
    var pool :- GetBacking(s, denom);
    var backing, iron := Coin(denom, q.backingIn), Coin(IRON, q.ironIn);
    :- Need(DistinctCoins(backing, iron), Panic);
    Ok(Swap(denom, q.mintOut + q.mintFee, q.backingIn, q.ironIn,
            [Transfer(m.sender, MAKER, backing), Burn(m.sender, iron)],
            MayReceive(env, Receiver(m)),
            [Mint(Receiver(m), Coin(USM, q.mintOut)), Mint(ORACLE, Coin(USM, q.mintFee))]))
  }

  function BurnBySwapPlan(env: Env, s: State, m: Msg): (p: Result<Plan>)
    requires m.BurnBySwap?
    ensures p.Ok? ==> Bookable(s, p.value)
  {
    BurnBySwapAt(env, s, m, QuoteBurn(env, s, m.burnIn, m.backingOutMin.denom))
  }

  function BurnBySwapAt(env: Env, s: State, m: Msg, quote: Result<BurnQuote>): (p: Result<Plan>)
    requires m.BurnBySwap?
    ensures p.Ok? ==> Bookable(s, p.value)
  {
    var denom := m.backingOutMin.denom;
    var q :- quote;
    :- Need(0 <= q.burnFee <= m.burnIn && 0 <= q.backingOut && 0 <= q.ironOut, Panic);
    :- Need(m.backingOutMin.amount <= q.backingOut, OverSlippage);
    :- Need(m.ironOutMin <= q.ironOut, OverSlippage);
    var pool :- GetBacking(s, denom);
    var burned, backing, iron := m.burnIn - q.burnFee, Coin(denom, q.backingOut), Coin(IRON, q.ironOut);
    var gate := if DistinctCoins(backing, iron) then MayReceive(env, Receiver(m)) else Fail(Panic);
    Ok(Swap(denom, -burned, -q.backingOut, -q.ironOut,
            [Burn(m.sender, Coin(USM, burned)), Transfer(m.sender, ORACLE, Coin(USM, q.burnFee))],
            gate,
            [Transfer(MAKER, Receiver(m), backing), Mint(Receiver(m), iron)]))
  }

  ghost function BuyBackingPlan(env: Env, s: State, m: Msg): (p: Result<Plan>)
    requires m.BuyBacking?
    ensures p.Ok? ==> Bookable(s, p.value)
  {
    BuyBackingAt(env, s, m, QuoteBuy(env, s, m.ironIn, m.backingOutMin.denom))
  }

  function BuyBackingAt(env: Env, s: State, m: Msg, quote: Result<BuyQuote>): (p: Result<Plan>)
    requires m.BuyBacking?
    ensures p.Ok? ==> Bookable(s, p.value)
  {
    var denom := m.backingOutMin.denom;
    var q :- quote;
    :- Need(0 <= q.backingOut && 0 <= q.buybackFee, Panic);
    :- Need(m.backingOutMin.amount <= q.backingOut, OverSlippage);
    var pool :- GetBacking(s, denom);
    Ok(Swap(denom, 0, -(q.backingOut + q.buybackFee), m.ironIn,
            [Burn(m.sender, Coin(IRON, m.ironIn))],
            MayReceive(env, Receiver(m)),
            [Transfer(MAKER, Receiver(m), Coin(denom, q.backingOut)),
             Transfer(MAKER, ORACLE, Coin(denom, q.buybackFee))]))
  }

  ghost function SellBackingPlan(env: Env, s: State, m: Msg): (p: Result<Plan>)
    requires m.SellBacking?
    ensures p.Ok? ==> Bookable(s, p.value)
  {
    SellBackingAt(env, s, m, QuoteSell(env, s, m.backingIn))
  }

  function SellBackingAt(env: Env, s: State, m: Msg, quote: Result<SellQuote>): (p: Result<Plan>)
    requires m.SellBacking?
    ensures p.Ok? ==> Bookable(s, p.value)
  {
    var denom := m.backingIn.denom;
    var q :- quote;
    :- Need(0 <= q.ironOut && 0 <= q.rebackFee, Panic);
    :- Need(m.ironOutMin <= q.ironOut, OverSlippage);
    var pool :- GetBacking(s, denom);
    Ok(Swap(denom, 0, m.backingIn.amount, -(q.ironOut + q.rebackFee),
            [Transfer(m.sender, MAKER, m.backingIn)],
            MayReceive(env, Receiver(m)),
            [Mint(Receiver(m), Coin(IRON, q.ironOut)), Mint(ORACLE, Coin(IRON, q.rebackFee))]))
  }

  /** The value of an account's collateral and of its iron. */
  function CollateralValue(acc: AccountCollateral, price: Dec): Dec {
    Mul(acc.collateral * ONE, price)
  }

  function IronValue(acc: AccountCollateral, price: Dec): Dec {
    Mul(acc.iron * ONE, price)
  }

  function MintLoan(env: Env, m: Msg, acc: AccountCollateral, settled: AccountCollateral, fee: nat): Plan
    requires m.MintByCollateral?
  {
    Loan(m.sender, m.denom, acc, settled.(gridDebt := settled.gridDebt + m.mintOut + fee), 0,
         [], MayReceive(env, Receiver(m)),
         [Mint(Receiver(m), Coin(USM, m.mintOut)), Mint(ORACLE, Coin(USM, fee))])
  }

  function MintByCollateralPlan(env: Env, s: State, m: Msg): (p: Result<Plan>)
    requires m.MintByCollateral?
    ensures p.Ok? ==> Bookable(s, p.value)
  {
    var params :- AvailableCollateral(s, m.denom);
    var pc :- Price(env, m.denom);
    var pi :- Price(env, IRON);
    var acc :- GetCollateral(s, m.sender, m.denom, false);
    var fee := ComputeFee(m.mintOut, params.mintFee);
    :- Need(0 <= fee, Panic);
    var plan := MintLoan(env, m, acc, Settle(acc, s.height, params.interestFee), fee);
    var now := plan.now;
    var book := BookAccount(s.collateral, m.sender, m.denom, acc, now);
    :- Need(!Exceeds(book.pools[m.denom].gridDebt, params.maxGridMint), GridCeiling);
    :- Need(MintAllows(params.terms, CollateralValue(now, pc), IronValue(now, pi), now.gridDebt),
            AccountInsufficientCollateral);
    Ok(plan)
  }

  /** A repayment covers interest first, then principal. */
  function Repay(acc: AccountCollateral, amount: int): AccountCollateral {
    acc.(gridDebt := acc.gridDebt - amount,
         lastInterest := acc.lastInterest - Min(acc.lastInterest, amount))
  }

  function RepayLoan(m: Msg, acc: AccountCollateral, settled: AccountCollateral): Plan
    requires m.BurnByCollateral? && 0 <= settled.lastInterest && 0 <= settled.gridDebt
  {
    var repay := Min(settled.gridDebt, m.repayInMax);
    var interest := Min(settled.lastInterest, repay);
    Loan(m.sender, m.denom, acc, Repay(settled, repay), 0,
         [Burn(m.sender, Coin(USM, repay - interest)), Transfer(m.sender, ORACLE, Coin(USM, interest))],
         Pass, [])
  }

  function BurnByCollateralPlan(env: Env, s: State, m: Msg): (p: Result<Plan>)
    requires m.BurnByCollateral?
    ensures p.Ok? ==> Bookable(s, p.value)
  {
    var params :- AvailableCollateral(s, m.denom);
    var acc :- GetCollateral(s, m.sender, m.denom, false);
    BurnByCollateralAt(m, acc, Settle(acc, s.height, params.interestFee))
  }

  function BurnByCollateralAt(m: Msg, acc: AccountCollateral, settled: AccountCollateral): (p: Result<Plan>)
    requires m.BurnByCollateral?
    ensures p.Ok? ==> p.value.Loan? && p.value.denom == m.denom
  {
    var debt := settled.gridDebt;
    :- Need(debt > 0, AccountNoDebt);
    :- Need(0 <= settled.lastInterest, Panic);
    Ok(RepayLoan(m, acc, settled))
  }

  function DepositLoan(m: Msg, acc: AccountCollateral, settled: AccountCollateral): Plan
    requires m.DepositCollateral?
  {
    Loan(Receiver(m), m.collateralIn.denom, acc,
         settled.(collateral := settled.collateral + m.collateralIn.amount, iron := settled.iron + m.ironIn), 0,
         [Transfer(m.sender, MAKER, m.collateralIn), Transfer(m.sender, MAKER, Coin(IRON, m.ironIn))],
         Pass, [])
  }

  function DepositCollateralPlan(env: Env, s: State, m: Msg): (p: Result<Plan>)
    requires m.DepositCollateral?
    ensures p.Ok? ==> Bookable(s, p.value)
  {
    var denom := m.collateralIn.denom;
    var params :- AvailableCollateral(s, denom);
    var acc :- GetCollateral(s, Receiver(m), denom, true);
    DepositCollateralAt(m, params, s.collateral.pools[denom], acc, Settle(acc, s.height, params.interestFee))
  }

  function DepositCollateralAt(m: Msg, params: CollateralParams, pool: PoolCollateral,
                               acc: AccountCollateral, settled: AccountCollateral): (p: Result<Plan>)
    requires m.DepositCollateral?
    ensures p.Ok? ==> p.value.Loan? && p.value.denom == m.collateralIn.denom
  {
    var plan := DepositLoan(m, acc, settled);
    :- Need(!Exceeds(pool.collateral + plan.now.collateral - acc.collateral, params.maxCollateral), CollateralCeiling);
    :- Need(DistinctCoins(m.collateralIn, Coin(IRON, m.ironIn)), Panic);
    Ok(plan)
  }

  function RedeemLoan(env: Env, m: Msg, acc: AccountCollateral, settled: AccountCollateral): Plan
    requires m.RedeemCollateral?
  {
    var iron := Coin(IRON, m.ironOut);
    Loan(m.sender, m.collateralOut.denom, acc,
         settled.(collateral := settled.collateral - m.collateralOut.amount, iron := settled.iron - m.ironOut), 0,
         [], if DistinctCoins(m.collateralOut, iron) then MayReceive(env, Receiver(m)) else Fail(Panic),
         [Transfer(MAKER, Receiver(m), m.collateralOut), Transfer(MAKER, Receiver(m), iron)])
  }

  function RedeemCollateralPlan(env: Env, s: State, m: Msg): (p: Result<Plan>)
    requires m.RedeemCollateral?
    ensures p.Ok? ==> Bookable(s, p.value)
  {
    var denom := m.collateralOut.denom;
    var params :- AvailableCollateral(s, denom);
    var acc :- GetCollateral(s, m.sender, denom, false);
    RedeemCollateralAt(env, m, params.terms, acc, Settle(acc, s.height, params.interestFee))
  }

  function RedeemCollateralAt(env: Env, m: Msg, terms: Terms, acc: AccountCollateral,
                              settled: AccountCollateral): (p: Result<Plan>)
    requires m.RedeemCollateral?
    ensures p.Ok? ==> p.value.Loan? && p.value.denom == m.collateralOut.denom
  {
    var plan := RedeemLoan(env, m, acc, settled);
    :- Need(m.collateralOut.amount <= settled.collateral && m.ironOut <= settled.iron, Panic);
    :- LimitCheck(env, m.collateralOut.denom, terms, plan.now);
    Ok(plan)
  }

  /** The debt check of a withdrawal; it divides by the catalytic ratio unguarded. */
  function LimitCheck(env: Env, denom: Denom, terms: Terms, acc: AccountCollateral): Check {
    if denom !in env.prices || IRON !in env.prices then Fail(UnknownPrice) else
      var value, iron := CollateralValue(acc, env.prices[denom]), IronValue(acc, env.prices[IRON]);
      if value > 0 && terms.catalyticRatio <= 0 then Fail(Panic)
      else Need(RedeemAllows(terms, value, iron, acc.gridDebt), AccountInsufficientCollateral)
  }

  /** The amounts of a liquidation, once the position is settled and found liquidatable. */
  datatype Liquidation = Liquidation(acc: AccountCollateral, settled: AccountCollateral,
                                     collateralOut: int, commission: int, repayIn: int)
  {
    function RepayDebt(): int {
      Min(settled.gridDebt, repayIn)
    }

    function RepayInterest(): int {
      Min(settled.lastInterest, RepayDebt())
    }
  }

  function QuoteLiquidation(env: Env, s: State, m: Msg): (q: Result<Liquidation>)
    requires m.LiquidateCollateral?
    ensures q.Ok? ==> 0 <= q.value.collateralOut && 0 <= q.value.commission && 0 <= q.value.repayIn
    ensures q.Ok? ==> s.collateral.total.Some? && m.seize.denom in s.collateral.pools
  {
    var params :- AvailableCollateral(s, m.seize.denom);
    var acc :- GetCollateral(s, m.debtor, m.seize.denom, false);
    var settled := Settle(acc, s.height, params.interestFee);
    var pc :- Price(env, m.seize.denom);
    :- Need(Liquidatable(params.terms, CollateralValue(settled, pc), settled.gridDebt), NotUndercollateralized);
    :- Need(m.seize.amount <= settled.collateral, CollateralCoinInsufficient);
    var commission := Commission(m.seize.amount, params.terms.liquidationFee, env.params.commissionFee);
    var repayIn := LiquidationPrice(m.seize.amount, params.terms.liquidationFee, pc);
    :- Need(0 <= commission <= m.seize.amount && 0 <= repayIn, Panic);
    :- Need(repayIn <= m.repayInMax, GridSlippage);
    Ok(Liquidation(acc, settled, m.seize.amount - commission, commission, repayIn))
  }

  function LiquidationLoan(env: Env, m: Msg, q: Liquidation): Plan
    requires m.LiquidateCollateral?
    requires 0 <= q.RepayDebt() && 0 <= q.collateralOut && 0 <= q.commission
  {
    var denom, refund := m.seize.denom, q.repayIn - q.RepayDebt();
    Loan(m.debtor, denom, q.acc,
         Repay(q.settled, q.RepayDebt()).(collateral := q.settled.collateral - m.seize.amount),
         q.RepayInterest(),
         [Burn(m.sender, Coin(USM, q.RepayDebt())), Transfer(m.sender, m.debtor, Coin(USM, refund))],
         if refund > 0 && m.debtor in env.blocked then Fail(Unauthorized) else MayReceive(env, Receiver(m)),
         [Transfer(MAKER, Receiver(m), Coin(denom, q.collateralOut)),
          Transfer(MAKER, ORACLE, Coin(denom, q.commission))])
  }

  function LiquidatePlan(env: Env, s: State, m: Msg): (p: Result<Plan>)
    requires m.LiquidateCollateral?
    ensures p.Ok? ==> Bookable(s, p.value)
  {
    var q :- QuoteLiquidation(env, s, m);
    :- Need(0 <= q.RepayDebt() && 0 <= q.RepayInterest(), Panic);
    Ok(LiquidationLoan(env, m, q))
  }

  ghost function MsgPlan(env: Env, s: State, m: Msg): (p: Result<Plan>)
    ensures p.Ok? ==> Bookable(s, p.value)
  {
    match m
    case MintBySwap(_, _, _, _, _, _) => MintBySwapPlan(env, s, m)
    case BurnBySwap(_, _, _, _, _) => BurnBySwapPlan(env, s, m)
    case BuyBacking(_, _, _, _) => BuyBackingPlan(env, s, m)
    case SellBacking(_, _, _, _) => SellBackingPlan(env, s, m)
    case MintByCollateral(_, _, _, _) => MintByCollateralPlan(env, s, m)
    case BurnByCollateral(_, _, _) => BurnByCollateralPlan(env, s, m)
    case DepositCollateral(_, _, _, _) => DepositCollateralPlan(env, s, m)
    case RedeemCollateral(_, _, _, _) => RedeemCollateralPlan(env, s, m)
    case LiquidateCollateral(_, _, _, _, _) => LiquidatePlan(env, s, m)
  }

  /** One message: validation, the handler's plan, and its execution. */
  ghost function MsgStep(env: Env, s: State, m: Msg): Result<State>
  {
    var plan := MsgPlan(env, s, m);
    :- Need(ValidateBasic(m), InvalidMessage);
    Perform(s, plan)
  }

  /** Execute a plan, if there is one. */
  function Perform(s: State, plan: Result<Plan>): Result<State>
    requires plan.Ok? ==> Bookable(s, plan.value)
  {
    var p :- plan;
    Execute(s, p)
  }
}
