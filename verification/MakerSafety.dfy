/**
 Every action keeps the invariant, and moves the supplies of the two coins exactly as the
 ledgers record.
 */
module MakerSafety {
  import opened Results
  import opened Bank
  import opened SwapMath
  import opened MakerState
  import opened MakerSpec
  import opened MakerInvariant

  // --- The effect of a short flow -------------------------------------------------

  function Shift(moves: seq<Move>, who: Address, d: Denom): int {
    (if |moves| > 0 then Delta(moves[0], who, d) else 0) + (if |moves| > 1 then Delta(moves[1], who, d) else 0)
  }

  function SupplyShift(moves: seq<Move>, d: Denom): int {
    (if |moves| > 0 then SupplyDelta(moves[0], d) else 0) + (if |moves| > 1 then SupplyDelta(moves[1], d) else 0)
  }

  lemma ShortList(moves: seq<Move>, who: Address, d: Denom)
    requires |moves| <= 2
    ensures DeltaAll(moves, who, d) == Shift(moves, who, d)
    ensures SupplyDeltaAll(moves, d) == SupplyShift(moves, d)
  {
    if |moves| == 2 {
      assert moves[1..] == [moves[1]] && moves[1..][1..] == [];
    } else if |moves| == 1 {
      assert moves[1..] == [];
    }
  }

  lemma ShortEffect(b: Bank, moves: seq<Move>, who: Address, d: Denom)
    requires |moves| <= 2 && ApplyAll(b, moves).Ok?
    ensures var b' := ApplyAll(b, moves).value;
            && b'.Balance(who, d) == b.Balance(who, d) + Shift(moves, who, d)
            && b'.Supply(d) == b.Supply(d) + SupplyShift(moves, d)
  {
    ApplyAllExact(b, moves, who, d);
    ShortList(moves, who, d);
  }

  /** A flow of at most two arrows in and two out. */
  lemma FlowEffect(b: Bank, ins: seq<Move>, gate: Check, outs: seq<Move>)
    requires |ins| <= 2 && |outs| <= 2 && Flow(b, ins, gate, outs).Ok?
    ensures gate.Pass?
    ensures var b' := Flow(b, ins, gate, outs).value;
            && (forall who, d :: b'.Balance(who, d) == b.Balance(who, d) + Shift(ins, who, d) + Shift(outs, who, d))
            && (forall d :: b'.Supply(d) == b.Supply(d) + SupplyShift(ins, d) + SupplyShift(outs, d))
            && (Conserved(b) ==> Conserved(b'))
  {
    var b1 := ApplyAll(b, ins).value;
    forall who, d
      ensures var b' := Flow(b, ins, gate, outs).value;
              && b'.Balance(who, d) == b.Balance(who, d) + Shift(ins, who, d) + Shift(outs, who, d)
              && b'.Supply(d) == b.Supply(d) + SupplyShift(ins, d) + SupplyShift(outs, d)
    {
      ShortEffect(b, ins, who, d);
      ShortEffect(b1, outs, who, d);
    }
    forall d
      ensures Flow(b, ins, gate, outs).value.Supply(d) == b.Supply(d) + SupplyShift(ins, d) + SupplyShift(outs, d)
    {
      ShortEffect(b, ins, "", d);
      ShortEffect(b1, outs, "", d);
    }
    if Conserved(b) {
      ApplyAllConserves(b, ins);
      ApplyAllConserves(b1, outs);
    }
  }

  lemma AsFlow(b: Bank, moves: seq<Move>)
    ensures Flow(b, moves, Pass, []) == ApplyAll(b, moves)
  {
  }

  /** The module account gains `coll` of one denomination and `iron` of the volatile coin. */
  ghost predicate Gains(b: Bank, b': Bank, denom: Denom, coll: int, iron: int) {
    forall d :: b'.Balance(MAKER, d) == b.Balance(MAKER, d) + (if d == denom then coll else 0)
        + (if d == IRON then iron else 0)
  }

  /** Reading the module account's gain off the arrows. */
  lemma FlowGains(b: Bank, ins: seq<Move>, gate: Check, outs: seq<Move>, denom: Denom, coll: int, iron: int)
    requires |ins| <= 2 && |outs| <= 2 && Flow(b, ins, gate, outs).Ok?
    requires Conserved(b)
    requires forall d :: Shift(ins, MAKER, d) + Shift(outs, MAKER, d)
                         == (if d == denom then coll else 0) + (if d == IRON then iron else 0)
    ensures Gains(b, Flow(b, ins, gate, outs).value, denom, coll, iron)
    ensures Conserved(Flow(b, ins, gate, outs).value)
  {
    FlowEffect(b, ins, gate, outs);
    var b' := Flow(b, ins, gate, outs).value;
    forall d
      ensures b'.Balance(MAKER, d) == b.Balance(MAKER, d) + (if d == denom then coll else 0)
                + (if d == IRON then iron else 0)
    {
      assert b'.Balance(MAKER, d) == b.Balance(MAKER, d) + Shift(ins, MAKER, d) + Shift(outs, MAKER, d);
    }
  }

  // --- Booking and paying together keep the invariant -----------------------------

  lemma BackingKeeps(s: State, denom: Denom, grid: int, backing: int, iron: int, bank: Bank)
    requires Inv(s) && denom in s.backing.pools
    requires 0 <= s.backing.pools[denom].backing + backing
    requires Gains(s.bank, bank, denom, backing, 0) && Conserved(bank)
    ensures Inv(s.(backing := BookBacking(s.backing, denom, grid, backing, iron), bank := bank))
  {
    BookBackingKeeps(s.backing, denom, grid, backing, iron);
    BackingCustody(s.bank, bank, s.backing, s.collateral, denom, grid, backing, iron);
  }

  lemma BackingCustody(bank: Bank, bank': Bank, b: BackingBook, collateral: CollateralBook,
                       denom: Denom, grid: int, backing: int, iron: int)
    requires Custody(bank, b, collateral) && b.total.Some? && denom in b.pools
    requires Gains(bank, bank', denom, backing, 0)
    ensures Custody(bank', BookBacking(b, denom, grid, backing, iron), collateral)
  {
  }

  lemma AccountCustody(bank: Bank, bank': Bank, backing: BackingBook, b: CollateralBook,
                       who: Address, denom: Denom, was: AccountCollateral, now: AccountCollateral)
    requires Custody(bank, backing, b) && b.total.Some? && denom in b.pools
    requires Gains(bank, bank', denom, now.collateral - was.collateral, now.iron - was.iron)
    ensures Custody(bank', backing, BookAccount(b, who, denom, was, now))
  {
  }

  lemma AccountKeeps(s: State, who: Address, denom: Denom, was: AccountCollateral, now: AccountCollateral, bank: Bank)
    requires Inv(s) && denom in s.collateral.pools
    requires Was(s.collateral, who, denom, was) && AccountOk(now, s.height)
    requires Gains(s.bank, bank, denom, now.collateral - was.collateral, now.iron - was.iron) && Conserved(bank)
    ensures Inv(s.(collateral := BookAccount(s.collateral, who, denom, was, now), bank := bank))
  {
    BookAccountKeeps(s.collateral, s.height, who, denom, was, now);
    AccountCustody(s.bank, bank, s.backing, s.collateral, who, denom, was, now);
  }

  // --- Sound plans ----------------------------------------------------------------

  /** The module account's net flow is the booked change. */
  ghost predicate PaysWhatItBooks(p: Plan) {
    p.gate.Pass? ==>
      forall d :: Shift(p.ins, MAKER, d) + Shift(p.outs, MAKER, d) ==
        if p.Swap? then (if d == p.denom then p.backing else 0)
        else (if d == p.denom then p.now.collateral - p.was.collateral else 0)
             + (if d == IRON then p.now.iron - p.was.iron else 0)
  }

  /** The stablecoin's supply moves with the minted or borrowed amount, and the volatile
      coin's against the burned amount. */
  predicate MintsWhatItBooks(p: Plan) {
    && SupplyShift(p.ins, USM) + SupplyShift(p.outs, USM) ==
         (if p.Swap? then p.grid else Pick(Principal, p.now) - Pick(Principal, p.was) - p.interestBurned)
    && SupplyShift(p.ins, IRON) + SupplyShift(p.outs, IRON) == (if p.Swap? then -p.iron else 0)
  }

  /** The entry starts from the stored record and leaves a well-formed one. */
  predicate Recordable(s: State, p: Plan)
    requires Bookable(s, p)
  {
    if p.Swap? then 0 <= s.backing.pools[p.denom].backing + p.backing
    else Was(s.collateral, p.who, p.denom, p.was) && AccountOk(p.now, s.height)
  }

  predicate Short(p: Plan) {
    |p.ins| <= 2 && |p.outs| <= 2
  }

  ghost predicate Sound(s: State, p: Plan)
    requires Bookable(s, p)
  {
    Short(p) && PaysWhatItBooks(p) && MintsWhatItBooks(p) && Recordable(s, p)
  }

  lemma ExecuteKeeps(s: State, p: Plan)
    requires Inv(s) && Bookable(s, p) && Sound(s, p) && Execute(s, p).Ok?
    ensures Inv(Execute(s, p).value)
  {
    var bank := Flow(s.bank, p.ins, p.gate, p.outs).value;
    if p.Swap? {
      FlowGains(s.bank, p.ins, p.gate, p.outs, p.denom, p.backing, 0);
      BackingKeeps(s, p.denom, p.grid, p.backing, p.iron, bank);
    } else {
      FlowGains(s.bank, p.ins, p.gate, p.outs, p.denom, p.now.collateral - p.was.collateral, p.now.iron - p.was.iron);
      AccountKeeps(s, p.who, p.denom, p.was, p.now, bank);
    }
  }

  /** Stablecoins the ledgers account for: minted by swap, or borrowed and not interest. */
  ghost function Outstanding(s: State): int {
    s.backing.Total().gridMinted + AccountSum(s.collateral.accounts, Principal, None)
  }

  lemma FlowSupply(b: Bank, ins: seq<Move>, gate: Check, outs: seq<Move>, d: Denom)
    requires |ins| <= 2 && |outs| <= 2 && Flow(b, ins, gate, outs).Ok?
    ensures Flow(b, ins, gate, outs).value.Supply(d) == b.Supply(d) + SupplyShift(ins, d) + SupplyShift(outs, d)
  {
    ShortEffect(b, ins, "", d);
    ShortEffect(ApplyAll(b, ins).value, outs, "", d);
  }

  lemma SwapSupply(s: State, p: Plan)
    requires p.Swap? && Bookable(s, p) && Short(p) && MintsWhatItBooks(p) && Execute(s, p).Ok?
    ensures var s' := Execute(s, p).value;
            && s'.bank.Supply(USM) - s.bank.Supply(USM) == Outstanding(s') - Outstanding(s)
            && s'.bank.Supply(IRON) + s'.backing.Total().ironBurned
                 == s.bank.Supply(IRON) + s.backing.Total().ironBurned
  {
    FlowSupply(s.bank, p.ins, p.gate, p.outs, USM);
    FlowSupply(s.bank, p.ins, p.gate, p.outs, IRON);
  }

  lemma LoanSupply(s: State, p: Plan)
    requires p.Loan? && Bookable(s, p) && Short(p) && MintsWhatItBooks(p) && Execute(s, p).Ok?
    requires Was(s.collateral, p.who, p.denom, p.was)
    ensures var s' := Execute(s, p).value;
            && s'.bank.Supply(USM) - s.bank.Supply(USM) == Outstanding(s') - Outstanding(s) - p.interestBurned
            && s'.bank.Supply(IRON) + s'.backing.Total().ironBurned
                 == s.bank.Supply(IRON) + s.backing.Total().ironBurned
  {
    FlowSupply(s.bank, p.ins, p.gate, p.outs, USM);
    FlowSupply(s.bank, p.ins, p.gate, p.outs, IRON);
    PrincipalPut(s.collateral, p.who, p.denom, p.was, p.now);
  }

  lemma PrincipalPut(b: CollateralBook, who: Address, denom: Denom, was: AccountCollateral, now: AccountCollateral)
    requires b.total.Some? && denom in b.pools && Was(b, who, denom, was)
    ensures AccountSum(BookAccount(b, who, denom, was, now).accounts, Principal, None)
              == AccountSum(b.accounts, Principal, None) + Pick(Principal, now) - Pick(Principal, was)
  {
    AccountSumPut(b.accounts, (who, denom), now, Principal, None);
  }

  // --- The nine messages have sound plans -----------------------------------------

  lemma MintBySwapSound(env: Env, s: State, m: Msg)
    requires BackingOk(s.backing) && EnvOk(env) && ValidateBasic(m) && m.MintBySwap?
    requires MintBySwapPlan(env, s, m).Ok?
    ensures Sound(s, MintBySwapPlan(env, s, m).value)
  {
  }

  lemma QuoteBurnFunded(env: Env, s: State, burnIn: int, denom: Denom)
    requires QuoteBurn(env, s, burnIn, denom).Ok?
    ensures denom in s.backing.pools
    ensures QuoteBurn(env, s, burnIn, denom).value.backingOut <= s.backing.pools[denom].backing
  {
  }

  lemma BurnBySwapSound(env: Env, s: State, m: Msg)
    requires BackingOk(s.backing) && EnvOk(env) && ValidateBasic(m) && m.BurnBySwap?
    requires BurnBySwapPlan(env, s, m).Ok?
    ensures Sound(s, BurnBySwapPlan(env, s, m).value)
  {
    QuoteBurnFunded(env, s, m.burnIn, m.backingOutMin.denom);
  }

  lemma QuoteBuyFunded(env: Env, s: State, ironIn: int, denom: Denom)
    requires QuoteBuy(env, s, ironIn, denom).Ok?
    ensures denom in s.backing.pools
    ensures var q := QuoteBuy(env, s, ironIn, denom).value;
            q.backingOut + q.buybackFee <= s.backing.pools[denom].backing
  {
  }

  lemma BuyBackingSound(env: Env, s: State, m: Msg)
    requires BackingOk(s.backing) && EnvOk(env) && ValidateBasic(m) && m.BuyBacking?
    requires BuyBackingPlan(env, s, m).Ok?
    ensures Sound(s, BuyBackingPlan(env, s, m).value)
  {
    QuoteBuyFunded(env, s, m.ironIn, m.backingOutMin.denom);
  }

  lemma SellBackingSound(env: Env, s: State, m: Msg)
    requires BackingOk(s.backing) && EnvOk(env) && ValidateBasic(m) && m.SellBacking?
    requires SellBackingPlan(env, s, m).Ok?
    ensures Sound(s, SellBackingPlan(env, s, m).value)
  {
  }

  predicate Starts(s: State, who: Address, denom: Denom, acc: AccountCollateral, settled: AccountCollateral) {
    && s.collateral.total.Some? && denom in s.collateral.pools
    && Was(s.collateral, who, denom, acc)
    && AccountOk(acc, s.height) && AccountOk(settled, s.height)
    && Pick(Principal, settled) == Pick(Principal, acc)
    && settled.collateral == acc.collateral && settled.iron == acc.iron
  }

  /** The record a message works on, brought up to date. */
  function Settled(s: State, who: Address, denom: Denom, allowNew: bool): AccountCollateral
    requires AvailableCollateral(s, denom).Ok? && GetCollateral(s, who, denom, allowNew).Ok?
  {
    Settle(GetCollateral(s, who, denom, allowNew).value, s.height, AvailableCollateral(s, denom).value.interestFee)
  }

  lemma GetCollateralStarts(s: State, who: Address, denom: Denom, allowNew: bool)
    requires CollateralOk(s.collateral, s.height)
    requires AvailableCollateral(s, denom).Ok? && GetCollateral(s, who, denom, allowNew).Ok?
    ensures Starts(s, who, denom, GetCollateral(s, who, denom, allowNew).value, Settled(s, who, denom, allowNew))
  {
    SettleKeeps(GetCollateral(s, who, denom, allowNew).value, s.height,
                AvailableCollateral(s, denom).value.interestFee);
  }

  lemma MintLoanSound(env: Env, s: State, m: Msg, acc: AccountCollateral, settled: AccountCollateral, fee: nat)
    requires EnvOk(env) && m.MintByCollateral? && Starts(s, m.sender, m.denom, acc, settled)
    ensures Sound(s, MintLoan(env, m, acc, settled, fee))
  {
  }

  lemma MintShape(env: Env, s: State, m: Msg)
    requires m.MintByCollateral? && MintByCollateralPlan(env, s, m).Ok?
    ensures AvailableCollateral(s, m.denom).Ok? && GetCollateral(s, m.sender, m.denom, false).Ok?
    ensures var fee := ComputeFee(m.mintOut, AvailableCollateral(s, m.denom).value.mintFee);
            && 0 <= fee
            && MintByCollateralPlan(env, s, m).value
                 == MintLoan(env, m, GetCollateral(s, m.sender, m.denom, false).value,
                             Settled(s, m.sender, m.denom, false), fee)
  {
  }

  lemma MintByCollateralSound(env: Env, s: State, m: Msg)
    requires CollateralOk(s.collateral, s.height) && EnvOk(env) && ValidateBasic(m) && m.MintByCollateral?
    requires MintByCollateralPlan(env, s, m).Ok?
    ensures Sound(s, MintByCollateralPlan(env, s, m).value)
  {
    MintShape(env, s, m);
    GetCollateralStarts(s, m.sender, m.denom, false);
    MintLoanSound(env, s, m, GetCollateral(s, m.sender, m.denom, false).value, Settled(s, m.sender, m.denom, false),
                  ComputeFee(m.mintOut, AvailableCollateral(s, m.denom).value.mintFee));
  }

  lemma RepayLoanSound(s: State, m: Msg, acc: AccountCollateral, settled: AccountCollateral)
    requires ValidateBasic(m) && m.BurnByCollateral? && Starts(s, m.sender, m.denom, acc, settled)
    ensures Sound(s, RepayLoan(m, acc, settled))
  {
  }

  lemma RepayShape(env: Env, s: State, m: Msg)
    requires m.BurnByCollateral? && BurnByCollateralPlan(env, s, m).Ok?
    ensures AvailableCollateral(s, m.denom).Ok? && GetCollateral(s, m.sender, m.denom, false).Ok?
    ensures var settled := Settled(s, m.sender, m.denom, false);
            && 0 <= settled.lastInterest && 0 <= settled.gridDebt
            && BurnByCollateralPlan(env, s, m).value
                 == RepayLoan(m, GetCollateral(s, m.sender, m.denom, false).value, settled)
  {
  }

  lemma BurnByCollateralSound(env: Env, s: State, m: Msg)
    requires CollateralOk(s.collateral, s.height) && EnvOk(env) && ValidateBasic(m) && m.BurnByCollateral?
    requires BurnByCollateralPlan(env, s, m).Ok?
    ensures Sound(s, BurnByCollateralPlan(env, s, m).value)
  {
    RepayShape(env, s, m);
    GetCollateralStarts(s, m.sender, m.denom, false);
    RepayLoanSound(s, m, GetCollateral(s, m.sender, m.denom, false).value, Settled(s, m.sender, m.denom, false));
  }

  lemma DepositLoanSound(s: State, m: Msg, acc: AccountCollateral, settled: AccountCollateral)
    requires ValidateBasic(m) && m.DepositCollateral? && Starts(s, Receiver(m), m.collateralIn.denom, acc, settled)
    ensures Sound(s, DepositLoan(m, acc, settled))
  {
  }

  lemma DepositShape(env: Env, s: State, m: Msg)
    requires m.DepositCollateral? && DepositCollateralPlan(env, s, m).Ok?
    ensures AvailableCollateral(s, m.collateralIn.denom).Ok?
    ensures GetCollateral(s, Receiver(m), m.collateralIn.denom, true).Ok?
    ensures DepositCollateralPlan(env, s, m).value
              == DepositLoan(m, GetCollateral(s, Receiver(m), m.collateralIn.denom, true).value,
                             Settled(s, Receiver(m), m.collateralIn.denom, true))
  {
  }

  lemma DepositCollateralSound(env: Env, s: State, m: Msg)
    requires CollateralOk(s.collateral, s.height) && EnvOk(env) && ValidateBasic(m) && m.DepositCollateral?
    requires DepositCollateralPlan(env, s, m).Ok?
    ensures Sound(s, DepositCollateralPlan(env, s, m).value)
  {
    DepositShape(env, s, m);
    var denom := m.collateralIn.denom;
    GetCollateralStarts(s, Receiver(m), denom, true);
    DepositLoanSound(s, m, GetCollateral(s, Receiver(m), denom, true).value, Settled(s, Receiver(m), denom, true));
  }

  lemma RedeemLoanSound(env: Env, s: State, m: Msg, acc: AccountCollateral, settled: AccountCollateral)
    requires EnvOk(env) && m.RedeemCollateral? && Starts(s, m.sender, m.collateralOut.denom, acc, settled)
    requires m.collateralOut.amount <= settled.collateral && m.ironOut <= settled.iron
    ensures Sound(s, RedeemLoan(env, m, acc, settled))
  {
  }

  lemma RedeemShape(env: Env, s: State, m: Msg)
    requires m.RedeemCollateral? && RedeemCollateralPlan(env, s, m).Ok?
    ensures AvailableCollateral(s, m.collateralOut.denom).Ok?
    ensures GetCollateral(s, m.sender, m.collateralOut.denom, false).Ok?
    ensures var settled := Settled(s, m.sender, m.collateralOut.denom, false);
            && m.collateralOut.amount <= settled.collateral && m.ironOut <= settled.iron
            && RedeemCollateralPlan(env, s, m).value
                 == RedeemLoan(env, m, GetCollateral(s, m.sender, m.collateralOut.denom, false).value, settled)
  {
  }

  lemma RedeemCollateralSound(env: Env, s: State, m: Msg)
    requires CollateralOk(s.collateral, s.height) && EnvOk(env) && ValidateBasic(m) && m.RedeemCollateral?
    requires RedeemCollateralPlan(env, s, m).Ok?
    ensures Sound(s, RedeemCollateralPlan(env, s, m).value)
  {
    RedeemShape(env, s, m);
    var denom := m.collateralOut.denom;
    GetCollateralStarts(s, m.sender, denom, false);
    RedeemLoanSound(env, s, m, GetCollateral(s, m.sender, denom, false).value, Settled(s, m.sender, denom, false));
  }

  lemma LiquidationLoanSound(env: Env, s: State, m: Msg, q: Liquidation)
    requires EnvOk(env) && ValidateBasic(m) && m.LiquidateCollateral?
    requires Starts(s, m.debtor, m.seize.denom, q.acc, q.settled)
    requires 0 <= q.repayIn && 0 <= q.collateralOut && 0 <= q.commission
    requires q.collateralOut + q.commission == m.seize.amount <= q.settled.collateral
    ensures Sound(s, LiquidationLoan(env, m, q))
  {
  }

  /** What a liquidation quote says about the position it seizes from. */
  lemma QuoteLiquidationStarts(env: Env, s: State, m: Msg)
    requires CollateralOk(s.collateral, s.height) && m.LiquidateCollateral?
    requires QuoteLiquidation(env, s, m).Ok?
    ensures var q := QuoteLiquidation(env, s, m).value;
            && Starts(s, m.debtor, m.seize.denom, q.acc, q.settled)
            && q.collateralOut + q.commission == m.seize.amount <= q.settled.collateral
  {
    GetCollateralStarts(s, m.debtor, m.seize.denom, false);
  }

  lemma LiquidateSound(env: Env, s: State, m: Msg)
    requires CollateralOk(s.collateral, s.height) && EnvOk(env) && ValidateBasic(m) && m.LiquidateCollateral?
    requires LiquidatePlan(env, s, m).Ok?
    ensures Sound(s, LiquidatePlan(env, s, m).value)
  {
    QuoteLiquidationStarts(env, s, m);
    LiquidationLoanSound(env, s, m, QuoteLiquidation(env, s, m).value);
  }

  // --- Every message --------------------------------------------------------------

  lemma MsgSound(env: Env, s: State, m: Msg)
    requires Inv(s) && EnvOk(env) && ValidateBasic(m) && MsgPlan(env, s, m).Ok?
    ensures Sound(s, MsgPlan(env, s, m).value)
  {
    match m
    case MintBySwap(_, _, _, _, _, _) => MintBySwapSound(env, s, m);
    case BurnBySwap(_, _, _, _, _) => BurnBySwapSound(env, s, m);
    case BuyBacking(_, _, _, _) => BuyBackingSound(env, s, m);
    case SellBacking(_, _, _, _) => SellBackingSound(env, s, m);
    case MintByCollateral(_, _, _, _) => MintByCollateralSound(env, s, m);
    case BurnByCollateral(_, _, _) => BurnByCollateralSound(env, s, m);
    case DepositCollateral(_, _, _, _) => DepositCollateralSound(env, s, m);
    case RedeemCollateral(_, _, _, _) => RedeemCollateralSound(env, s, m);
    case LiquidateCollateral(_, _, _, _, _) => LiquidateSound(env, s, m);
  }

  lemma MsgKeeps(env: Env, s: State, m: Msg)
    requires Inv(s) && EnvOk(env)
    ensures MsgStep(env, s, m).Ok? ==> Inv(MsgStep(env, s, m).value)
  {
    if MsgStep(env, s, m).Ok? {
      MsgSound(env, s, m);
      ExecuteKeeps(s, MsgPlan(env, s, m).value);
    }
  }

  // --- Which record a message books -----------------------------------------------

  /** Whose record a loan message books, and in which coin. */
  function Owner(m: Msg): Address {
    if m.DepositCollateral? then Receiver(m) else if m.LiquidateCollateral? then m.debtor else m.sender
  }

  function LoanDenom(m: Msg): Option<Denom> {
    match m
    case MintByCollateral(_, _, denom, _) => Some(denom)
    case BurnByCollateral(_, denom, _) => Some(denom)
    case DepositCollateral(_, _, coin, _) => Some(coin.denom)
    case RedeemCollateral(_, _, coin, _) => Some(coin.denom)
    case LiquidateCollateral(_, _, _, seize, _) => Some(seize.denom)
    case _ => None
  }

  lemma PlanOwner(env: Env, s: State, m: Msg)
    requires MsgPlan(env, s, m).Ok?
    ensures var p := MsgPlan(env, s, m).value;
            && (p.Loan? <==> LoanDenom(m).Some?)
            && (p.Loan? ==> p.who == Owner(m) && LoanDenom(m) == Some(p.denom))
  {
  }
}
