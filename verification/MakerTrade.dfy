/**
 What a message promises its sender, in coins on accounts: it takes no more than the
 sender offered and brings no less than the sender asked.
 */
module MakerTrade {
  import opened FixedPoint
  import opened Results
  import opened MakerState
  import opened MakerSpec
  import opened MakerInvariant
  import opened MakerSafety
  import opened MakerValue

  // --- What is offered and asked --------------------------------------------------

  /** A cap of zero on a leg of a mint stands for no cap. */
  function Cap(amount: nat): Option<nat> {
    if amount > 0 then Some(amount) else None
  }

  function Both(a: Option<nat>, b: Option<nat>): Option<nat> {
    if a.Some? && b.Some? then Some(a.value + b.value) else None
  }

  function Of(here: bool, amount: Option<nat>): Option<nat> {
    if here then amount else Some(0)
  }

  /** The most a message may take from its sender of a denomination. */
  function Offered(m: Msg, d: Denom): Option<nat> {
    match m
    case MintBySwap(_, _, backing, iron, _, _) =>
      Both(Of(d == backing.denom, Cap(backing.amount)), Of(d == IRON, Cap(iron)))
    case BurnBySwap(_, _, burnIn, _, _) => Of(d == USM, Some(burnIn))
    case BuyBacking(_, _, ironIn, _) => Of(d == IRON, Some(ironIn))
    case SellBacking(_, _, backing, _) => Of(d == backing.denom, Some(backing.amount))
    case MintByCollateral(_, _, _, _) => Some(0)
    case BurnByCollateral(_, _, repay) => Of(d == USM, Some(repay))
    case DepositCollateral(_, _, coll, iron) => Both(Of(d == coll.denom, Some(coll.amount)), Of(d == IRON, Some(iron)))
    case RedeemCollateral(_, _, _, _) => Some(0)
    case LiquidateCollateral(_, _, _, _, repay) => Of(d == USM, Some(repay))
  }

  function AmountIf(here: bool, amount: nat): nat {
    if here then amount else 0
  }

  /** The least a message must bring its receiver of a denomination. */
  function Asked(m: Msg, d: Denom): nat {
    match m
    case MintBySwap(_, _, _, _, out, _) => AmountIf(d == USM, out)
    case BurnBySwap(_, _, _, backing, iron) => AmountIf(d == backing.denom, backing.amount) + AmountIf(d == IRON, iron)
    case BuyBacking(_, _, _, backing) => AmountIf(d == backing.denom, backing.amount)
    case SellBacking(_, _, _, iron) => AmountIf(d == IRON, iron)
    case MintByCollateral(_, _, _, out) => AmountIf(d == USM, out)
    case RedeemCollateral(_, _, coll, iron) => AmountIf(d == coll.denom, coll.amount) + AmountIf(d == IRON, iron)
    case _ => 0
  }

  /** A plan's arrows, read for one account and one denomination. */
  predicate Takes(p: Plan, m: Msg, d: Denom) {
    && |p.ins| <= 2 && |p.outs| <= 2
    && 0 <= Shift(p.outs, m.sender, d)
    && (Offered(m, d).Some? ==> 0 - Offered(m, d).value <= Shift(p.ins, m.sender, d))
  }

  predicate Brings(p: Plan, m: Msg, d: Denom) {
    && |p.ins| <= 2 && |p.outs| <= 2
    && (p.gate.Pass? ==> Asked(m, d) <= Shift(p.outs, Receiver(m), d))
    && (Receiver(m) != m.sender || Offered(m, d) == Some(0) ==> 0 <= Shift(p.ins, Receiver(m), d))
  }

  // --- Message by message ---------------------------------------------------------

  /** A mint stays within its caps. */
  lemma MintWithinCaps(env: Env, s: State, m: Msg)
    requires BackingOk(s.backing) && m.MintBySwap? && MintBySwapPlan(env, s, m).Ok?
    ensures var q := QuoteMint(env, s, m.backingInMax, m.ironInMax, m.full);
            && q.Ok? && (m.backingInMax.amount > 0 ==> q.value.backingIn <= m.backingInMax.amount)
            && (m.ironInMax > 0 ==> q.value.ironIn <= m.ironInMax)
  {
    MintWorth(env, s, m.backingInMax, m.ironInMax, m.full);
  }

  lemma MintBySwapTrades(env: Env, s: State, m: Msg, d: Denom)
    requires BackingOk(s.backing) && EnvOk(env) && ValidateBasic(m) && m.MintBySwap? && MintBySwapPlan(env, s, m).Ok?
    ensures Takes(MintBySwapPlan(env, s, m).value, m, d) && Brings(MintBySwapPlan(env, s, m).value, m, d)
  {
    MintWithinCaps(env, s, m);
    MintAtTrades(env, s, m, QuoteMint(env, s, m.backingInMax, m.ironInMax, m.full).value, d);
  }

  lemma MintAtTrades(env: Env, s: State, m: Msg, q: MintQuote, d: Denom)
    requires EnvOk(env) && ValidateBasic(m) && m.MintBySwap? && MintBySwapAt(env, s, m, Ok(q)).Ok?
    requires m.backingInMax.amount > 0 ==> q.backingIn <= m.backingInMax.amount
    requires m.ironInMax > 0 ==> q.ironIn <= m.ironInMax
    ensures Takes(MintBySwapAt(env, s, m, Ok(q)).value, m, d) && Brings(MintBySwapAt(env, s, m, Ok(q)).value, m, d)
  {
  }

  lemma BurnBySwapTrades(env: Env, s: State, m: Msg, d: Denom)
    requires EnvOk(env) && ValidateBasic(m) && m.BurnBySwap? && BurnBySwapPlan(env, s, m).Ok?
    ensures Takes(BurnBySwapPlan(env, s, m).value, m, d) && Brings(BurnBySwapPlan(env, s, m).value, m, d)
  {
  }

  lemma BuyBackingTrades(env: Env, s: State, m: Msg, d: Denom)
    requires EnvOk(env) && ValidateBasic(m) && m.BuyBacking? && BuyBackingPlan(env, s, m).Ok?
    ensures Takes(BuyBackingPlan(env, s, m).value, m, d) && Brings(BuyBackingPlan(env, s, m).value, m, d)
  {
  }

  lemma SellBackingTrades(env: Env, s: State, m: Msg, d: Denom)
    requires EnvOk(env) && ValidateBasic(m) && m.SellBacking? && SellBackingPlan(env, s, m).Ok?
    ensures Takes(SellBackingPlan(env, s, m).value, m, d) && Brings(SellBackingPlan(env, s, m).value, m, d)
  {
  }

  lemma BorrowTrades(env: Env, s: State, m: Msg, d: Denom)
    requires EnvOk(env) && ValidateBasic(m) && m.MintByCollateral? && MintByCollateralPlan(env, s, m).Ok?
    ensures Takes(MintByCollateralPlan(env, s, m).value, m, d) && Brings(MintByCollateralPlan(env, s, m).value, m, d)
  {
    MintShape(env, s, m);
  }

  lemma RepayTrades(env: Env, s: State, m: Msg, d: Denom)
    requires EnvOk(env) && ValidateBasic(m) && m.BurnByCollateral? && BurnByCollateralPlan(env, s, m).Ok?
    ensures Takes(BurnByCollateralPlan(env, s, m).value, m, d) && Brings(BurnByCollateralPlan(env, s, m).value, m, d)
  {
    RepayShape(env, s, m);
  }

  lemma DepositTrades(env: Env, s: State, m: Msg, d: Denom)
    requires EnvOk(env) && ValidateBasic(m) && m.DepositCollateral? && DepositCollateralPlan(env, s, m).Ok?
    ensures Takes(DepositCollateralPlan(env, s, m).value, m, d) && Brings(DepositCollateralPlan(env, s, m).value, m, d)
  {
    DepositShape(env, s, m);
  }

  lemma RedeemTrades(env: Env, s: State, m: Msg, d: Denom)
    requires EnvOk(env) && ValidateBasic(m) && m.RedeemCollateral? && RedeemCollateralPlan(env, s, m).Ok?
    ensures Takes(RedeemCollateralPlan(env, s, m).value, m, d) && Brings(RedeemCollateralPlan(env, s, m).value, m, d)
  {
    RedeemShape(env, s, m);
  }

  lemma LiquidateTrades(env: Env, s: State, m: Msg, d: Denom)
    requires EnvOk(env) && ValidateBasic(m) && m.LiquidateCollateral? && LiquidatePlan(env, s, m).Ok?
    ensures Takes(LiquidatePlan(env, s, m).value, m, d) && Brings(LiquidatePlan(env, s, m).value, m, d)
  {
  }

  lemma PlanTrades(env: Env, s: State, m: Msg, d: Denom)
    requires BackingOk(s.backing) && EnvOk(env) && ValidateBasic(m) && MsgPlan(env, s, m).Ok?
    ensures Takes(MsgPlan(env, s, m).value, m, d) && Brings(MsgPlan(env, s, m).value, m, d)
  {
    match m
    case MintBySwap(_, _, _, _, _, _) => MintBySwapTrades(env, s, m, d);
    case BurnBySwap(_, _, _, _, _) => BurnBySwapTrades(env, s, m, d);
    case BuyBacking(_, _, _, _) => BuyBackingTrades(env, s, m, d);
    case SellBacking(_, _, _, _) => SellBackingTrades(env, s, m, d);
    case LiquidateCollateral(_, _, _, _, _) => LiquidateTrades(env, s, m, d);
    case MintByCollateral(_, _, _, _) => BorrowTrades(env, s, m, d);
    case BurnByCollateral(_, _, _) => RepayTrades(env, s, m, d);
    case DepositCollateral(_, _, _, _) => DepositTrades(env, s, m, d);
    case RedeemCollateral(_, _, _, _) => RedeemTrades(env, s, m, d);
  }

  // --- On the accounts ------------------------------------------------------------

  /** No message takes more from its sender than was offered. */
  lemma SenderIsNotOvercharged(env: Env, s: State, m: Msg, d: Denom)
    requires BackingOk(s.backing) && EnvOk(env)
    ensures MsgStep(env, s, m).Ok? && Offered(m, d).Some? ==>
              s.bank.Balance(m.sender, d) - Offered(m, d).value <= MsgStep(env, s, m).value.bank.Balance(m.sender, d)
  {
    if MsgStep(env, s, m).Ok? {
      var p := MsgPlan(env, s, m).value;
      PlanTrades(env, s, m, d);
      FlowEffect(s.bank, p.ins, p.gate, p.outs);
    }
  }

  /** What a receiver may be paying in the same message: what the sender offered, if it is
      the same account. */
  function PaysIn(m: Msg, d: Denom): Option<nat> {
    if Receiver(m) == m.sender then Offered(m, d) else Some(0)
  }

  /** Every message brings its receiver at least what was asked, less what that account
      itself offered in the same coin. */
  lemma ReceiverIsPaid(env: Env, s: State, m: Msg, d: Denom)
    requires BackingOk(s.backing) && EnvOk(env)
    ensures MsgStep(env, s, m).Ok? && PaysIn(m, d).Some? ==>
              s.bank.Balance(Receiver(m), d) + Asked(m, d) - PaysIn(m, d).value
                <= MsgStep(env, s, m).value.bank.Balance(Receiver(m), d)
  {
    if MsgStep(env, s, m).Ok? {
      var p := MsgPlan(env, s, m).value;
      PlanTrades(env, s, m, d);
      FlowEffect(s.bank, p.ins, p.gate, p.outs);
    }
  }

  /** At no prices can stablecoins be both minted and burned by swaps. */
  lemma MintOrBurn(env: Env, s: State, mint: Msg, s': State, burn: Msg)
    requires EnvOk(env) && mint.MintBySwap? && burn.BurnBySwap?
    ensures !(MsgStep(env, s, mint).Ok? && MsgStep(env, s', burn).Ok?)
  {
    MulWhole(1, ONE + env.params.mintPriceBias);
    MulWhole(1, ONE - env.params.mintPriceBias);
  }
}
