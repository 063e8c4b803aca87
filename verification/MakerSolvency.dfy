/**
 Solvency: whatever the ledgers allow to be paid is on the module account.  A message
 that passes its own checks fails only because its sender lacks the coins it brings or
 because a receiver is not allowed to receive.
 */
module MakerSolvency {
  import opened Results
  import opened Bank
  import opened MakerState
  import opened MakerSpec
  import opened MakerInvariant
  import opened MakerSafety

  predicate TakenFrom(m: Move, who: Address) {
    match m
    case Transfer(from, _, _) => from == who
    case Mint(_, _) => false
    case Burn(from, _) => from == who
  }

  predicate PaysOut(m: Move) {
    match m
    case Transfer(from, to, _) => from == MAKER && to != MAKER
    case Mint(to, _) => to != MAKER
    case Burn(_, _) => false
  }

  /** Coins come in from the sender only, and go out to others only. */
  predicate OneWay(p: Plan, sender: Address) {
    && (forall m | m in p.ins :: TakenFrom(m, sender))
    && (p.gate.Pass? ==> forall m | m in p.outs :: PaysOut(m))
  }

  lemma MintOneWay(env: Env, s: State, m: Msg, quote: Result<MintQuote>)
    requires EnvOk(env) && ValidateBasic(m) && m.MintBySwap? && MintBySwapAt(env, s, m, quote).Ok?
    ensures OneWay(MintBySwapAt(env, s, m, quote).value, m.sender)
  {
  }

  lemma BurnOneWay(env: Env, s: State, m: Msg, quote: Result<BurnQuote>)
    requires EnvOk(env) && ValidateBasic(m) && m.BurnBySwap? && BurnBySwapAt(env, s, m, quote).Ok?
    ensures OneWay(BurnBySwapAt(env, s, m, quote).value, m.sender)
  {
  }

  lemma BuyOneWay(env: Env, s: State, m: Msg, quote: Result<BuyQuote>)
    requires EnvOk(env) && ValidateBasic(m) && m.BuyBacking? && BuyBackingAt(env, s, m, quote).Ok?
    ensures OneWay(BuyBackingAt(env, s, m, quote).value, m.sender)
  {
  }

  lemma SellOneWay(env: Env, s: State, m: Msg, quote: Result<SellQuote>)
    requires EnvOk(env) && ValidateBasic(m) && m.SellBacking? && SellBackingAt(env, s, m, quote).Ok?
    ensures OneWay(SellBackingAt(env, s, m, quote).value, m.sender)
  {
  }

  lemma SwapOneWay(env: Env, s: State, m: Msg)
    requires EnvOk(env) && ValidateBasic(m) && MsgPlan(env, s, m).Ok?
    requires m.MintBySwap? || m.BurnBySwap? || m.BuyBacking? || m.SellBacking?
    ensures OneWay(MsgPlan(env, s, m).value, m.sender)
  {
    match m
    case MintBySwap(_, _, _, _, _, _) => MintOneWay(env, s, m, QuoteMint(env, s, m.backingInMax, m.ironInMax, m.full));
    case BurnBySwap(_, _, _, _, _) => BurnOneWay(env, s, m, QuoteBurn(env, s, m.burnIn, m.backingOutMin.denom));
    case BuyBacking(_, _, _, _) => BuyOneWay(env, s, m, QuoteBuy(env, s, m.ironIn, m.backingOutMin.denom));
    case SellBacking(_, _, _, _) => SellOneWay(env, s, m, QuoteSell(env, s, m.backingIn));
  }

  lemma BorrowOneWay(env: Env, s: State, m: Msg)
    requires EnvOk(env) && ValidateBasic(m) && MsgPlan(env, s, m).Ok?
    requires m.MintByCollateral? || m.BurnByCollateral? || m.DepositCollateral?
    ensures OneWay(MsgPlan(env, s, m).value, m.sender)
  {
  }

  lemma RedeemOneWay(env: Env, s: State, m: Msg)
    requires EnvOk(env) && ValidateBasic(m) && MsgPlan(env, s, m).Ok? && m.RedeemCollateral?
    ensures OneWay(MsgPlan(env, s, m).value, m.sender)
  {
    RedeemShape(env, s, m);
  }

  lemma LiquidateOneWay(env: Env, s: State, m: Msg)
    requires EnvOk(env) && ValidateBasic(m) && MsgPlan(env, s, m).Ok? && m.LiquidateCollateral?
    ensures OneWay(MsgPlan(env, s, m).value, m.sender)
  {
  }

  lemma MsgOneWay(env: Env, s: State, m: Msg)
    requires EnvOk(env) && ValidateBasic(m) && MsgPlan(env, s, m).Ok?
    ensures OneWay(MsgPlan(env, s, m).value, m.sender)
  {
    if m.MintBySwap? || m.BurnBySwap? || m.BuyBacking? || m.SellBacking? {
      SwapOneWay(env, s, m);
    } else if m.RedeemCollateral? {
      RedeemOneWay(env, s, m);
    } else if m.LiquidateCollateral? {
      LiquidateOneWay(env, s, m);
    } else {
      BorrowOneWay(env, s, m);
    }
  }

  /** Taking coins from an account fails only for want of coins on that account. */
  lemma {:induction false} TakingFails(b: Bank, ins: seq<Move>, who: Address)
    requires Conserved(b) && forall m | m in ins :: TakenFrom(m, who)
    ensures ApplyAll(b, ins).Err? ==> ApplyAll(b, ins).error == InsufficientFunds(who)
    decreases ins
  {
    if ins != [] {
      assert TakenFrom(ins[0], who);
      BalanceWithinSupply(b, who, ins[0].coin.denom);
      if Apply(b, ins[0]).Ok? {
        ApplyConserves(b, ins[0]);
        TakingFails(Apply(b, ins[0]).value, ins[1..], who);
      }
    }
  }

  /** Payments out succeed when the module account could make all of them together. */
  lemma {:induction false} PayingSucceeds(b: Bank, outs: seq<Move>)
    requires forall m | m in outs :: PaysOut(m)
    requires forall d :: 0 <= b.Balance(MAKER, d) + DeltaAll(outs, MAKER, d)
    ensures ApplyAll(b, outs).Ok?
    decreases outs
  {
    if outs != [] {
      var m, rest := outs[0], outs[1..];
      assert PaysOut(m);
      PayingDrains(rest, m.coin.denom);
      assert 0 <= b.Balance(MAKER, m.coin.denom) + DeltaAll(outs, MAKER, m.coin.denom);
      var b' := Apply(b, m).value;
      forall d
        ensures 0 <= b'.Balance(MAKER, d) + DeltaAll(rest, MAKER, d)
      {
        ApplyExact(b, m, MAKER, d);
        assert 0 <= b.Balance(MAKER, d) + DeltaAll(outs, MAKER, d);
      }
      PayingSucceeds(b', rest);
    }
  }

  lemma {:induction false} PayingDrains(outs: seq<Move>, d: Denom)
    requires forall m | m in outs :: PaysOut(m)
    ensures DeltaAll(outs, MAKER, d) <= 0
  {
    if outs != [] {
      assert PaysOut(outs[0]);
      PayingDrains(outs[1..], d);
    }
  }

  /** What the ledgers say is owned is never negative. */
  lemma OwnedNonneg(backing: BackingBook, collateral: CollateralBook, height: int, d: Denom)
    requires BackingOk(backing) && CollateralOk(collateral, height)
    ensures 0 <= Owned(backing, collateral, d)
  {
    TotalBound(collateral, height);
    if d in collateral.pools { PoolBound(collateral, height, d); }
  }

  lemma SwapOwned(b: BackingBook, c: CollateralBook, height: int, denom: Denom, grid: int, backing: int, iron: int,
                  d: Denom)
    requires BackingOk(b) && CollateralOk(c, height) && b.total.Some? && denom in b.pools
    requires 0 <= b.pools[denom].backing + backing
    ensures 0 <= Owned(b, c, d) + if d == denom then backing else 0
  {
    BookBackingKeeps(b, denom, grid, backing, iron);
    OwnedNonneg(BookBacking(b, denom, grid, backing, iron), c, height, d);
  }

  lemma LoanOwned(b: BackingBook, c: CollateralBook, height: int, who: Address, denom: Denom, was: AccountCollateral,
                  now: AccountCollateral, d: Denom)
    requires BackingOk(b) && CollateralOk(c, height) && c.total.Some? && denom in c.pools
    requires Was(c, who, denom, was) && AccountOk(now, height)
    ensures 0 <= Owned(b, c, d) + (if d == denom then now.collateral - was.collateral else 0)
                                + (if d == IRON then now.iron - was.iron else 0)
  {
    BookAccountKeeps(c, height, who, denom, was, now);
    OwnedNonneg(b, BookAccount(c, who, denom, was, now), height, d);
  }

  /** The booked ledgers after a sound plan own exactly what the flow leaves. */
  lemma BookedOwned(s: State, p: Plan, d: Denom)
    requires Inv(s) && Bookable(s, p) && Sound(s, p) && p.gate.Pass?
    ensures 0 <= s.bank.Balance(MAKER, d) + Shift(p.ins, MAKER, d) + Shift(p.outs, MAKER, d)
  {
    assert s.bank.Balance(MAKER, d) == Owned(s.backing, s.collateral, d);
    if p.Swap? {
      SwapOwned(s.backing, s.collateral, s.height, p.denom, p.grid, p.backing, p.iron, d);
    } else {
      LoanOwned(s.backing, s.collateral, s.height, p.who, p.denom, p.was, p.now, d);
    }
  }

  lemma OutflowFunded(s: State, p: Plan)
    requires Inv(s) && Bookable(s, p) && Sound(s, p) && p.gate.Pass?
    requires (forall m | m in p.outs :: PaysOut(m)) && ApplyAll(s.bank, p.ins).Ok?
    ensures ApplyAll(ApplyAll(s.bank, p.ins).value, p.outs).Ok?
  {
    var b1 := ApplyAll(s.bank, p.ins).value;
    forall d
      ensures 0 <= b1.Balance(MAKER, d) + DeltaAll(p.outs, MAKER, d)
    {
      BookedOwned(s, p, d);
      ShortEffect(s.bank, p.ins, MAKER, d);
      ShortList(p.outs, MAKER, d);
    }
    PayingSucceeds(b1, p.outs);
  }

  lemma PlanSolvent(s: State, p: Plan, sender: Address)
    requires Inv(s) && Bookable(s, p) && Sound(s, p) && OneWay(p, sender)
    ensures Execute(s, p).Ok? <==> ApplyAll(s.bank, p.ins).Ok? && p.gate.Pass?
    ensures Execute(s, p).Err? ==>
              Execute(s, p).error == if ApplyAll(s.bank, p.ins).Ok? then p.gate.error else InsufficientFunds(sender)
  {
    TakingFails(s.bank, p.ins, sender);
    if ApplyAll(s.bank, p.ins).Ok? && p.gate.Pass? { OutflowFunded(s, p); }
  }

  /** The message pays an account that may not receive coins. */
  predicate PaysBlocked(env: Env, m: Msg) {
    Receiver(m) in env.blocked || (m.LiquidateCollateral? && m.debtor in env.blocked)
  }

  /** The message pays out two coins of one denomination as a set. */
  predicate PaysTwice(m: Msg, p: Plan) {
    && (m.BurnBySwap? || m.RedeemCollateral?)
    && |p.outs| == 2 && p.outs[0].coin.denom == p.outs[1].coin.denom
    && p.outs[0].coin.amount > 0 && p.outs[1].coin.amount > 0
  }

  /** Why a plan's gate fails. */
  predicate GateReason(env: Env, m: Msg, p: Plan) {
    p.gate.Fail? ==> (p.gate.error == Unauthorized && PaysBlocked(env, m)) || (p.gate.error == Panic && PaysTwice(m, p))
  }

  lemma SwapGate(env: Env, s: State, m: Msg)
    requires m.MintBySwap? || m.BurnBySwap? || m.BuyBacking? || m.SellBacking?
    requires MsgPlan(env, s, m).Ok?
    ensures GateReason(env, m, MsgPlan(env, s, m).value)
  {
  }

  lemma RedeemGate(env: Env, s: State, m: Msg)
    requires m.RedeemCollateral? && RedeemCollateralPlan(env, s, m).Ok?
    ensures GateReason(env, m, RedeemCollateralPlan(env, s, m).value)
  {
    RedeemShape(env, s, m);
  }

  lemma GateMeans(env: Env, s: State, m: Msg)
    requires MsgPlan(env, s, m).Ok?
    ensures GateReason(env, m, MsgPlan(env, s, m).value)
  {
    match m
    case MintByCollateral(_, _, _, _) => MintShape(env, s, m);
    case BurnByCollateral(_, _, _) => RepayShape(env, s, m);
    case DepositCollateral(_, _, _, _) => DepositShape(env, s, m);
    case RedeemCollateral(_, _, _, _) => RedeemGate(env, s, m);
    case LiquidateCollateral(_, _, _, _, _) =>
    case _ => SwapGate(env, s, m);
  }

  /** Every payout the ledgers allow is funded: executing a message's plan fails only when
      the sender lacks the coins to bring in, when a receiver may not receive, or when a
      payout names one denomination twice. */
  lemma Solvent(env: Env, s: State, m: Msg)
    requires Inv(s) && EnvOk(env) && ValidateBasic(m)
    ensures MsgPlan(env, s, m).Ok? ==>
              var p := MsgPlan(env, s, m).value;
              && (Execute(s, p).Ok? <==> ApplyAll(s.bank, p.ins).Ok? && p.gate.Pass?)
              && (Execute(s, p).Err? ==>
                    if ApplyAll(s.bank, p.ins).Err? then Execute(s, p).error == InsufficientFunds(m.sender)
                    else || (Execute(s, p).error == Unauthorized && PaysBlocked(env, m))
                         || (Execute(s, p).error == Panic && PaysTwice(m, p)))
  {
    if MsgPlan(env, s, m).Ok? {
      var p := MsgPlan(env, s, m).value;
      MsgSound(env, s, m);
      MsgOneWay(env, s, m);
      PlanSolvent(s, p, m.sender);
      GateMeans(env, s, m);
    }
  }
}
