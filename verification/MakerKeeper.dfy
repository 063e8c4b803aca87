/**
 The maker keeper: its stores, the handlers that read, change and write them back, and the
 bank calls that carry the coins through the module account.  Every handler is proved
 against the specification's step for its message.
 */
module MakerKeeper {
  import opened FixedPoint
  import opened Results
  import opened MapSum
  import opened Bank
  import opened SwapMath
  import opened LoanMath
  import opened MakerState
  import opened MakerSpec
  import opened MakerChain
  import opened MakerInvariant
  import opened MakerSafety
  import opened MakerRoutes

  function Gated(gate: Check, spec: Result<Bank>): Result<Bank> {
    if gate.Fail? then Err(gate.error) else spec
  }

  /** A payout the pool can be debited for. */
  predicate WithinPool(b: BackingBook, denom: Denom, amount: int) {
    denom in b.pools ==> amount <= b.pools[denom].backing
  }

  lemma BurnWithin(env: Env, s: State, burnIn: int, denom: Denom)
    ensures var q := QuoteBurn(env, s, burnIn, denom); q.Ok? ==> WithinPool(s.backing, denom, q.value.backingOut)
  {
  }

  lemma BuyWithin(env: Env, s: State, ironIn: int, denom: Denom, excess: Result<int>)
    ensures var q := QuoteBuyAt(env, s, ironIn, denom, excess);
            q.Ok? ==> WithinPool(s.backing, denom, q.value.backingOut + q.value.buybackFee)
  {
  }

  lemma VisitPool(env: Env, seen: map<Denom, PoolBacking>, d: Denom, pool: PoolBacking)
    requires d !in seen && d in env.prices
    ensures Sum(BackingValues(env, seen[d := pool])) == Sum(BackingValues(env, seen)) + pool.backing * env.prices[d]
  {
    var v := BackingValues(env, seen);
    assert BackingValues(env, seen[d := pool]) == v[d := pool.backing * env.prices[d]];
    SumPut(v, d, pool.backing * env.prices[d]);
  }

  /** Booking a swap and carrying out its flow executes its plan. */
  lemma SwapExecuted(r: Check, s: State, p: Plan, s': State)
    requires p.Swap? && Bookable(s, p) && Did(r, s'.bank, Flow(s.bank, p.ins, p.gate, p.outs))
    requires s' == s.(backing := BookBacking(s.backing, p.denom, p.grid, p.backing, p.iron), bank := s'.bank)
    ensures Did(r, s', Perform(s, Ok(p)))
  {
  }

  /** Booking an account and carrying out the flow executes a loan's plan. */
  lemma LoanExecuted(r: Check, s: State, p: Plan, s': State)
    requires p.Loan? && Bookable(s, p) && Did(r, s'.bank, Flow(s.bank, p.ins, p.gate, p.outs))
    requires s' == s.(collateral := BookAccount(s.collateral, p.who, p.denom, p.was, p.now), bank := s'.bank)
    ensures Did(r, s', Perform(s, Ok(p)))
  {
  }

  /** The pool and the total have taken over an account's change. */
  predicate Carried(b: CollateralBook, denom: Denom, was: AccountCollateral, now: AccountCollateral,
                    pool: PoolCollateral, total: TotalCollateral)
    requires b.total.Some? && denom in b.pools
  {
    var p, t := b.pools[denom], b.total.value;
    && pool == PoolCollateral(p.collateral + now.collateral - was.collateral, p.gridDebt + now.gridDebt - was.gridDebt,
                              p.iron + now.iron - was.iron)
    && total == TotalCollateral(t.gridDebt + now.gridDebt - was.gridDebt, t.iron + now.iron - was.iron)
  }

  /** An account's settled record is within its pool, and the pool within the total. */
  predicate Nested(acc: AccountCollateral, pool: PoolCollateral, total: TotalCollateral) {
    && 0 <= acc.lastInterest <= acc.gridDebt <= pool.gridDebt <= total.gridDebt
    && 0 <= acc.collateral <= pool.collateral
    && 0 <= acc.iron <= pool.iron <= total.iron
  }

  lemma SettledWithin(s: State, who: Address, denom: Denom, pool: PoolCollateral, total: TotalCollateral)
    requires CollateralOk(s.collateral, s.height)
    requires AvailableCollateral(s, denom).Ok? && GetCollateral(s, who, denom, false).Ok?
    requires Carried(s.collateral, denom, GetCollateral(s, who, denom, false).value, Settled(s, who, denom, false),
                     pool, total)
    ensures Nested(Settled(s, who, denom, false), pool, total)
  {
    GetCollateralStarts(s, who, denom, false);
    AccountBound(s.collateral, s.height, (who, denom));
    TotalBound(s.collateral, s.height);
  }

  /** Coins were taken to the module account and part of them burned there. */
  predicate Held(b: Bank, b2: Bank, s: Address, burned: nat, rest: nat) {
    var taken := Apply(b, Transfer(s, MAKER, Coin(USM, burned + rest)));
    taken.Ok? && Apply(taken.value, Burn(MAKER, Coin(USM, burned))) == Ok(b2)
  }

  lemma PassOn(b: Bank, b2: Bank, s: Address, q: Address, burned: nat, rest: nat)
    requires Conserved(b) && s != MAKER && q != MAKER && Held(b, b2, s, burned, rest)
    ensures var ins := ApplyAll(b, [Burn(s, Coin(USM, burned)), Transfer(s, q, Coin(USM, rest))]);
            ins.Ok? && Apply(b2, Transfer(MAKER, q, Coin(USM, rest))) == ins
  {
    ApplyWhen(b, Transfer(s, MAKER, Coin(USM, burned + rest)));
    var b1, b2', b3 := TakeAndPass(b, s, q, USM, burned, rest);
  }

  lemma PassNone(b: Bank, b2: Bank, s: Address, q: Address, burned: nat)
    requires Conserved(b) && s != MAKER && Held(b, b2, s, burned, 0)
    ensures ApplyAll(b, [Burn(s, Coin(USM, burned)), Transfer(s, q, Coin(USM, 0))]) == Ok(b2)
  {
    Pair(b, Burn(s, Coin(USM, burned)), Transfer(s, q, Coin(USM, 0)));
    Through(b, s, Coin(USM, burned));
    Nothing(b2, Transfer(s, q, Coin(USM, 0)));
  }

  lemma QuoteRecords(env: Env, s: State, m: Msg, q: Liquidation)
    requires m.LiquidateCollateral? && QuoteLiquidation(env, s, m) == Ok(q)
    ensures AvailableCollateral(s, m.seize.denom).Ok? && GetCollateral(s, m.debtor, m.seize.denom, false) == Ok(q.acc)
    ensures q.settled == Settled(s, m.debtor, m.seize.denom, false) && m.seize.amount <= q.settled.collateral
  {
  }

  lemma LiquidationPlanned(env: Env, s: State, m: Msg, q: Liquidation)
    requires m.LiquidateCollateral? && ValidateBasic(m) && QuoteLiquidation(env, s, m) == Ok(q)
    requires 0 <= q.settled.lastInterest && 0 <= q.settled.gridDebt
    ensures MsgStep(env, s, m) == Perform(s, Ok(LiquidationLoan(env, m, q)))
  {
  }

  /** Add the interest accrued since the last settlement to all three records. */
  method SettleInterestFee(height: int, acc: AccountCollateral, pool: PoolCollateral, total: TotalCollateral, apr: Dec)
    returns (acc': AccountCollateral, pool': PoolCollateral, total': TotalCollateral)
    ensures acc' == Settle(acc, height, apr)
    ensures pool' == pool.(gridDebt := pool.gridDebt + acc'.gridDebt - acc.gridDebt)
    ensures total' == total.(gridDebt := total.gridDebt + acc'.gridDebt - acc.gridDebt)
  {
    acc', pool', total' := acc, pool, total;
    var period := height - acc.lastSettlementBlock;
    if period == 0 { return; }
    var principal := acc.gridDebt - acc.lastInterest;
    var interest := RoundInt(QuoInt(Mul(principal * ONE, apr) * period, BLOCKS_PER_YEAR));
    acc' := acc'.(lastInterest := acc'.lastInterest + interest);
    acc' := acc'.(gridDebt := acc'.gridDebt + interest);
    pool' := pool'.(gridDebt := pool'.gridDebt + interest);
    total' := total'.(gridDebt := total'.gridDebt + interest);
    acc' := acc'.(lastSettlementBlock := height);
  }

  class Keeper {
    var bank: Bank
    var height: int
    var ratio: nat
    var ratioBlock: int
    var backing: BackingBook
    var collateral: CollateralBook

    function View(): State
      reads this
    {
      State(bank, height, ratio, ratioBlock, backing, collateral)
    }

    constructor (s: State)
      ensures View() == s
    {
      bank, height, ratio, ratioBlock := s.bank, s.height, s.ratio, s.ratioBlock;
      backing, collateral := s.backing, s.collateral;
    }

    // --- Bank calls ---------------------------------------------------------------

    method Send(from: Address, to: Address, coin: Coin) returns (r: Check)
      modifies `bank
      ensures Did(r, bank, Apply(old(bank), Transfer(from, to, coin)))
    {
      SendOne(bank, from, to, coin);
      var sent := SendCoins(bank, from, to, [coin]);
      if sent.Err? { return Fail(sent.error); }
      bank := sent.value;
      r := Pass;
    }

    method SendPair(from: Address, to: Address, c0: Coin, c1: Coin) returns (r: Check)
      modifies `bank
      ensures Did(r, bank, SendCoins(old(bank), from, to, [c0, c1]))
    {
      var sent := SendCoins(bank, from, to, [c0, c1]);
      if sent.Err? { return Fail(sent.error); }
      bank := sent.value;
      r := Pass;
    }

    method MintCoins(coin: Coin)
      modifies `bank
      ensures bank == MintCoin(old(bank), MAKER, coin)
    {
      bank := MintCoin(bank, MAKER, coin);
    }

    method BurnCoins(coin: Coin) returns (r: Check)
      modifies `bank
      ensures Did(r, bank, BurnCoin(old(bank), MAKER, coin))
    {
      var burned := BurnCoin(bank, MAKER, coin);
      if burned.Err? { return Fail(burned.error); }
      bank := burned.value;
      r := Pass;
    }

    // --- Routes -------------------------------------------------------------------

    /** Take two coins and burn the second. */
    method TakeTwo(sender: Address, kept: Coin, burned: Coin) returns (r: Check)
      requires Conserved(bank) && sender != MAKER
      modifies `bank
      ensures Did(r, bank, ApplyAll(old(bank), [Transfer(sender, MAKER, kept), Burn(sender, burned)]))
    {
      TakeAndBurn(bank, sender, kept, burned);
      r := SendPair(sender, MAKER, kept, burned);
      if r.Fail? { return; }
      if burned.amount > 0 {
        r := BurnCoins(burned);
      } else {
        Nothing(bank, Burn(MAKER, burned));
      }
    }

    /** Take a coin and burn it. */
    method TakeOne(sender: Address, coin: Coin) returns (r: Check)
      requires Conserved(bank) && sender != MAKER
      modifies `bank
      ensures Did(r, bank, ApplyAll(old(bank), [Burn(sender, coin)]))
    {
      Through(bank, sender, coin);
      Single(bank, Burn(sender, coin));
      r := Send(sender, MAKER, coin);
      if r.Fail? { return; }
      r := BurnCoins(coin);
    }

    /** Take stablecoins and burn a part of them. */
    method TakeAndBurnPart(sender: Address, burned: nat, rest: nat) returns (r: Check)
      requires Conserved(bank) && sender != MAKER
      modifies `bank
      ensures r.Pass? <==> burned + rest <= old(bank).Balance(sender, USM)
      ensures r.Pass? ==> Held(old(bank), bank, sender, burned, rest)
      ensures r.Fail? ==> r.error == InsufficientFunds(sender)
    {
      ghost var b := bank;
      ApplyWhen(b, Transfer(sender, MAKER, Coin(USM, burned + rest)));
      r := Send(sender, MAKER, Coin(USM, burned + rest));
      if r.Fail? { return; }
      ApplyExact(b, Transfer(sender, MAKER, Coin(USM, burned + rest)), MAKER, USM);
      ApplyWhen(bank, Burn(MAKER, Coin(USM, burned)));
      if burned > 0 {
        r := BurnCoins(Coin(USM, burned));
      } else {
        Nothing(bank, Burn(MAKER, Coin(USM, burned)));
      }
    }

    /** Take stablecoins, burn a part and pass the rest on. */
    method TakeShared(sender: Address, to: Address, burned: nat, passed: nat) returns (r: Check)
      requires Conserved(bank) && sender != MAKER && to != MAKER
      modifies `bank
      ensures Did(r, bank, ApplyAll(old(bank), [Burn(sender, Coin(USM, burned)),
                                                Transfer(sender, to, Coin(USM, passed))]))
    {
      ghost var b := bank;
      TakenTogether(b, sender, to, USM, burned, passed);
      r := TakeAndBurnPart(sender, burned, passed);
      if r.Fail? { return; }
      PassOn(b, bank, sender, to, burned, passed);
      if passed > 0 {
        r := Send(MAKER, to, Coin(USM, passed));
      } else {
        Nothing(bank, Transfer(MAKER, to, Coin(USM, passed)));
      }
    }

    /** Mint a coin; pay most of it to the receiver and the fee to the oracle. */
    method MintAndSend(env: Env, receiver: Address, denom: Denom, out: nat, fee: nat) returns (r: Check)
      requires Conserved(bank) && MAKER in env.blocked
      modifies `bank
      ensures Did(r, bank, Gated(MayReceive(env, receiver),
                                 ApplyAll(old(bank), [Mint(receiver, Coin(denom, out)),
                                                      Mint(ORACLE, Coin(denom, fee))])))
    {
      ghost var b1, b2, b3 := bank, bank, bank;
      if receiver !in env.blocked {
        b1, b2, b3 := MintAndPay(bank, receiver, ORACLE, denom, out, fee);
      }
      MintCoins(Coin(denom, out + fee));
      if receiver in env.blocked { return Fail(Unauthorized); }
      r := Send(MAKER, receiver, Coin(denom, out));
      assert r.Pass? && bank == b2;
      if fee > 0 {
        r := Send(MAKER, ORACLE, Coin(denom, fee));
      } else {
        Nothing(bank, Transfer(MAKER, ORACLE, Coin(denom, fee)));
      }
    }

    /** Pay a coin from custody, part to the receiver and the fee to the oracle. */
    method SendShared(env: Env, receiver: Address, denom: Denom, out: nat, fee: nat) returns (r: Check)
      modifies `bank
      ensures Did(r, bank, Gated(MayReceive(env, receiver),
                                 ApplyAll(old(bank), [Transfer(MAKER, receiver, Coin(denom, out)),
                                                      Transfer(MAKER, ORACLE, Coin(denom, fee))])))
    {
      Pair(bank, Transfer(MAKER, receiver, Coin(denom, out)), Transfer(MAKER, ORACLE, Coin(denom, fee)));
      if receiver in env.blocked { return Fail(Unauthorized); }
      r := Send(MAKER, receiver, Coin(denom, out));
      if r.Fail? { return; }
      r := Send(MAKER, ORACLE, Coin(denom, fee));
    }

    // --- Swaps --------------------------------------------------------------------

    /** Load a backing pool and the total, add to them, and write them back. */
    method AddToBacking(denom: Denom, grid: int, amount: int, iron: int)
      requires backing.total.Some? && denom in backing.pools
      modifies `backing
      ensures backing == BookBacking(old(backing), denom, grid, amount, iron)
    {
      var total, pool := backing.total.value, backing.pools[denom];
      pool := pool.(gridMinted := pool.gridMinted + grid);
      pool := pool.(backing := pool.backing + amount);
      pool := pool.(ironBurned := pool.ironBurned + iron);
      total := total.(gridMinted := total.gridMinted + grid);
      total := total.(ironBurned := total.ironBurned + iron);
      backing := backing.(pools := backing.pools[denom := pool]);
      backing := backing.(total := Some(total));
    }

    method MintBySwap(env: Env, m: Msg) returns (r: Check)
      requires m.MintBySwap? && ValidateBasic(m) && EnvOk(env) && Inv(View())
      modifies `bank, `backing
      ensures Did(r, View(), MsgStep(env, old(View()), m))
    {
      var quote := QuoteMint(env, View(), m.backingInMax, m.ironInMax, m.full);
      r := CarryOutMint(env, m, quote);
    }

    method CheckMint(env: Env, m: Msg, quote: Result<MintQuote>) returns (r: Check)
      requires m.MintBySwap?
      ensures match r
              case Fail(e) => MintBySwapAt(env, View(), m, quote) == Err(e)
              case Pass =>
                && quote.Ok? && MintBySwapAt(env, View(), m, quote).Ok?
                && var q, p := quote.value, MintBySwapAt(env, View(), m, quote).value;
                   && 0 <= q.backingIn && 0 <= q.ironIn && 0 <= q.mintOut && 0 <= q.mintFee
                   && p == Swap(m.backingInMax.denom, q.mintOut + q.mintFee, q.backingIn, q.ironIn, p.ins, p.gate,
                                p.outs)
    {
      var denom := m.backingInMax.denom;
      if quote.Err? { return Fail(quote.error); }
      var q := quote.value;
      if q.backingIn < 0 || q.ironIn < 0 || q.mintOut < 0 || q.mintFee < 0 { return Fail(Panic); }
      if q.mintOut < m.mintOutMin { return Fail(OverSlippage); }
      if backing.total.None? || denom !in backing.pools { return Fail(BackingCoinNotFound); }
      if !DistinctCoins(Coin(denom, q.backingIn), Coin(IRON, q.ironIn)) { return Fail(Panic); }
      r := Pass;
    }

    method CarryOutMint(env: Env, m: Msg, quote: Result<MintQuote>) returns (r: Check)
      requires m.MintBySwap? && m.sender != MAKER && EnvOk(env) && Conserved(bank)
      modifies `bank, `backing
      ensures Did(r, View(), Perform(old(View()), MintBySwapAt(env, old(View()), m, quote)))
    {
      r := CheckMint(env, m, quote);
      if r.Fail? { return; }
      var q := quote.value;
      ghost var s, p := View(), MintBySwapAt(env, View(), m, quote).value;
      AddToBacking(m.backingInMax.denom, q.mintOut + q.mintFee, q.backingIn, q.ironIn);
      r := MoveForMint(env, m.sender, Receiver(m), Coin(m.backingInMax.denom, q.backingIn), Coin(IRON, q.ironIn),
                       q.mintOut, q.mintFee);
      SwapExecuted(r, s, p, View());
    }

    method MoveForMint(env: Env, sender: Address, receiver: Address, backingIn: Coin, ironIn: Coin, out: nat, fee: nat)
      returns (r: Check)
      requires sender != MAKER && EnvOk(env) && Conserved(bank)
      modifies `bank
      ensures Did(r, bank, Flow(old(bank), [Transfer(sender, MAKER, backingIn), Burn(sender, ironIn)],
                                MayReceive(env, receiver),
                                [Mint(receiver, Coin(USM, out)), Mint(ORACLE, Coin(USM, fee))]))
    {
      r := TakeTwo(sender, backingIn, ironIn);
      if r.Fail? { return; }
      ApplyAllConserves(old(bank), [Transfer(sender, MAKER, backingIn), Burn(sender, ironIn)]);
      r := MintAndSend(env, receiver, USM, out, fee);
    }

    method BurnBySwap(env: Env, m: Msg) returns (r: Check)
      requires m.BurnBySwap? && ValidateBasic(m) && EnvOk(env) && Inv(View())
      modifies `bank, `backing
      ensures Did(r, View(), MsgStep(env, old(View()), m))
    {
      var quote := QuoteBurn(env, View(), m.burnIn, m.backingOutMin.denom);
      BurnWithin(env, View(), m.burnIn, m.backingOutMin.denom);
      r := CarryOutBurn(env, m, quote);
    }

    method CheckBurn(env: Env, m: Msg, quote: Result<BurnQuote>) returns (r: Check)
      requires m.BurnBySwap?
      requires quote.Ok? ==> WithinPool(backing, m.backingOutMin.denom, quote.value.backingOut)
      ensures match r
              case Fail(e) => BurnBySwapAt(env, View(), m, quote) == Err(e)
              case Pass =>
                && quote.Ok? && BurnBySwapAt(env, View(), m, quote).Ok?
                && var q, p := quote.value, BurnBySwapAt(env, View(), m, quote).value;
                   && 0 <= q.burnFee <= m.burnIn && 0 <= q.backingOut && 0 <= q.ironOut
                   && p == Swap(m.backingOutMin.denom, -(m.burnIn - q.burnFee), -q.backingOut, -q.ironOut, p.ins,
                                p.gate, p.outs)
    {
      var denom := m.backingOutMin.denom;
      if quote.Err? { return Fail(quote.error); }
      var q := quote.value;
      if q.burnFee < 0 || m.burnIn < q.burnFee || q.backingOut < 0 || q.ironOut < 0 { return Fail(Panic); }
      if q.backingOut < m.backingOutMin.amount { return Fail(OverSlippage); }
      if q.ironOut < m.ironOutMin { return Fail(OverSlippage); }
      if backing.total.None? || denom !in backing.pools { return Fail(BackingCoinNotFound); }
      if backing.pools[denom].backing < q.backingOut { return Fail(Panic); }
      r := Pass;
    }

    method CarryOutBurn(env: Env, m: Msg, quote: Result<BurnQuote>) returns (r: Check)
      requires m.BurnBySwap? && m.sender != MAKER && EnvOk(env) && Conserved(bank)
      requires quote.Ok? ==> WithinPool(backing, m.backingOutMin.denom, quote.value.backingOut)
      modifies `bank, `backing
      ensures Did(r, View(), Perform(old(View()), BurnBySwapAt(env, old(View()), m, quote)))
    {
      r := CheckBurn(env, m, quote);
      if r.Fail? { return; }
      var q := quote.value;
      ghost var p := BurnBySwapAt(env, View(), m, quote).value;
      r := BookAndMoveForBurn(env, m.sender, Receiver(m), m.burnIn - q.burnFee, q.burnFee,
                              Coin(m.backingOutMin.denom, q.backingOut), Coin(IRON, q.ironOut), p);
    }

    method BookAndMoveForBurn(env: Env, sender: Address, receiver: Address, burned: nat, fee: nat, backingOut: Coin,
                              ironOut: Coin,
                              ghost p: Plan)
      returns (r: Check)
      requires sender != MAKER && EnvOk(env) && Conserved(bank)
      requires p == Swap(backingOut.denom, 0 - burned, 0 - backingOut.amount, 0 - ironOut.amount,
                         [Burn(sender, Coin(USM, burned)), Transfer(sender, ORACLE, Coin(USM, fee))],
                         if DistinctCoins(backingOut, ironOut) then MayReceive(env, receiver) else Fail(Panic),
                         [Transfer(MAKER, receiver, backingOut), Mint(receiver, ironOut)])
      requires Bookable(View(), p)
      modifies `bank, `backing
      ensures Did(r, View(), Perform(old(View()), Ok(p)))
    {
      ghost var s := View();
      AddToBacking(backingOut.denom, 0 - burned, 0 - backingOut.amount, 0 - ironOut.amount);
      r := MoveForBurn(env, sender, receiver, burned, fee, backingOut, ironOut);
      SwapExecuted(r, s, p, View());
    }

    method MoveForBurn(env: Env, sender: Address, receiver: Address, burned: nat, fee: nat, backingOut: Coin,
                       ironOut: Coin)
      returns (r: Check)
      requires sender != MAKER && EnvOk(env) && Conserved(bank)
      modifies `bank
      ensures Did(r, bank, Flow(old(bank), [Burn(sender, Coin(USM, burned)), Transfer(sender, ORACLE, Coin(USM, fee))],
                                if DistinctCoins(backingOut, ironOut) then MayReceive(env, receiver) else Fail(Panic),
                                [Transfer(MAKER, receiver, backingOut), Mint(receiver, ironOut)]))
    {
      r := TakeShared(sender, ORACLE, burned, fee);
      if r.Fail? { return; }
      ApplyAllConserves(old(bank), [Burn(sender, Coin(USM, burned)), Transfer(sender, ORACLE, Coin(USM, fee))]);
      ghost var b1 := bank;
      MintCoins(ironOut);
      if !DistinctCoins(backingOut, ironOut) { return Fail(Panic); }
      if receiver in env.blocked { return Fail(Unauthorized); }
      MintBeside(b1, receiver, backingOut, ironOut);
      r := SendPair(MAKER, receiver, backingOut, ironOut);
    }

    /** The value of all pools' backing, whatever the order they are visited in. */
    method TotalBackingInUSD(env: Env) returns (r: Result<int>)
      ensures r == MakerSpec.TotalBackingInUSD(env, View())
    {
      var total: Dec, left := 0, backing.pools.Keys;
      ghost var seen: map<Denom, PoolBacking> := map[];
      SumEmpty<Denom>();
      assert BackingValues(env, seen) == map[];
      while left != {}
        invariant left <= backing.pools.Keys
        invariant seen == map d | d in backing.pools && d !in left :: backing.pools[d]
        invariant seen.Keys <= env.prices.Keys
        invariant total == Sum(BackingValues(env, seen))
        decreases |left|
      {
        var d :| d in left;
        if d !in env.prices { return Err(UnknownPrice); }
        MulWhole(backing.pools[d].backing, env.prices[d]);
        VisitPool(env, seen, d, backing.pools[d]);
        total := total + Mul(backing.pools[d].backing * ONE, env.prices[d]);
        left := left - {d};
        seen := seen[d := backing.pools[d]];
      }
      assert seen == backing.pools;
      r := Ok(TruncateInt(total));
    }

    method ExcessBackingValue(env: Env) returns (r: Result<int>)
      ensures r == Excess(env, View())
    {
      if backing.total.None? { return Err(BackingCoinNotFound); }
      var value := TotalBackingInUSD(env);
      if value.Err? { return Err(value.error); }
      r := Ok(value.value - RequiredBacking(backing.total.value.gridMinted, ratio));
    }

    method BuyBacking(env: Env, m: Msg) returns (r: Check)
      requires m.BuyBacking? && ValidateBasic(m) && EnvOk(env) && Inv(View())
      modifies `bank, `backing
      ensures Did(r, View(), MsgStep(env, old(View()), m))
    {
      var excess := ExcessBackingValue(env);
      var quote := QuoteBuyAt(env, View(), m.ironIn, m.backingOutMin.denom, excess);
      BuyWithin(env, View(), m.ironIn, m.backingOutMin.denom, excess);
      r := CarryOutBuy(env, m, quote);
    }

    method CheckBuy(env: Env, m: Msg, quote: Result<BuyQuote>) returns (r: Check)
      requires m.BuyBacking?
      requires quote.Ok? ==> WithinPool(backing, m.backingOutMin.denom, quote.value.backingOut + quote.value.buybackFee)
      ensures match r
              case Fail(e) => BuyBackingAt(env, View(), m, quote) == Err(e)
              case Pass =>
                && quote.Ok? && BuyBackingAt(env, View(), m, quote).Ok?
                && var q, p := quote.value, BuyBackingAt(env, View(), m, quote).value;
                   && 0 <= q.backingOut && 0 <= q.buybackFee
                   && p == Swap(m.backingOutMin.denom, 0, -(q.backingOut + q.buybackFee), m.ironIn, p.ins, p.gate,
                                p.outs)
    {
      var denom := m.backingOutMin.denom;
      if quote.Err? { return Fail(quote.error); }
      var q := quote.value;
      if q.backingOut < 0 || q.buybackFee < 0 { return Fail(Panic); }
      if q.backingOut < m.backingOutMin.amount { return Fail(OverSlippage); }
      if backing.total.None? || denom !in backing.pools { return Fail(BackingCoinNotFound); }
      if backing.pools[denom].backing < q.backingOut + q.buybackFee { return Fail(Panic); }
      r := Pass;
    }

    method CarryOutBuy(env: Env, m: Msg, quote: Result<BuyQuote>) returns (r: Check)
      requires m.BuyBacking? && m.sender != MAKER && EnvOk(env) && Conserved(bank)
      requires quote.Ok? ==> WithinPool(backing, m.backingOutMin.denom, quote.value.backingOut + quote.value.buybackFee)
      modifies `bank, `backing
      ensures Did(r, View(), Perform(old(View()), BuyBackingAt(env, old(View()), m, quote)))
    {
      r := CheckBuy(env, m, quote);
      if r.Fail? { return; }
      var q := quote.value;
      ghost var s, p := View(), BuyBackingAt(env, View(), m, quote).value;
      AddToBacking(m.backingOutMin.denom, 0, -(q.backingOut + q.buybackFee), m.ironIn);
      r := MoveForBuy(env, m.sender, Receiver(m), m.ironIn, m.backingOutMin.denom, q.backingOut, q.buybackFee);
      SwapExecuted(r, s, p, View());
    }

    method MoveForBuy(env: Env, sender: Address, receiver: Address, ironIn: nat, denom: Denom, out: nat, fee: nat)
      returns (r: Check)
      requires sender != MAKER && Conserved(bank)
      modifies `bank
      ensures Did(r, bank, Flow(old(bank), [Burn(sender, Coin(IRON, ironIn))], MayReceive(env, receiver),
                                [Transfer(MAKER, receiver, Coin(denom, out)),
                                 Transfer(MAKER, ORACLE, Coin(denom, fee))]))
    {
      r := TakeOne(sender, Coin(IRON, ironIn));
      if r.Fail? { return; }
      r := SendShared(env, receiver, denom, out, fee);
    }

    method SellBacking(env: Env, m: Msg) returns (r: Check)
      requires m.SellBacking? && ValidateBasic(m) && EnvOk(env) && Inv(View())
      modifies `bank, `backing
      ensures Did(r, View(), MsgStep(env, old(View()), m))
    {
      var excess := ExcessBackingValue(env);
      var quote := QuoteSellAt(env, View(), m.backingIn, excess);
      r := CarryOutSell(env, m, quote);
    }

    method CheckSell(env: Env, m: Msg, quote: Result<SellQuote>) returns (r: Check)
      requires m.SellBacking?
      ensures match r
              case Fail(e) => SellBackingAt(env, View(), m, quote) == Err(e)
              case Pass =>
                && quote.Ok? && SellBackingAt(env, View(), m, quote).Ok?
                && var q, p := quote.value, SellBackingAt(env, View(), m, quote).value;
                   && 0 <= q.ironOut && 0 <= q.rebackFee
                   && p == Swap(m.backingIn.denom, 0, m.backingIn.amount, -(q.ironOut + q.rebackFee), p.ins, p.gate,
                                p.outs)
    {
      var denom := m.backingIn.denom;
      if quote.Err? { return Fail(quote.error); }
      var q := quote.value;
      if q.ironOut < 0 || q.rebackFee < 0 { return Fail(Panic); }
      if q.ironOut < m.ironOutMin { return Fail(OverSlippage); }
      if backing.total.None? || denom !in backing.pools { return Fail(BackingCoinNotFound); }
      r := Pass;
    }

    method CarryOutSell(env: Env, m: Msg, quote: Result<SellQuote>) returns (r: Check)
      requires m.SellBacking? && m.sender != MAKER && EnvOk(env) && Conserved(bank)
      modifies `bank, `backing
      ensures Did(r, View(), Perform(old(View()), SellBackingAt(env, old(View()), m, quote)))
    {
      r := CheckSell(env, m, quote);
      if r.Fail? { return; }
      var q := quote.value;
      ghost var s, p := View(), SellBackingAt(env, View(), m, quote).value;
      AddToBacking(m.backingIn.denom, 0, m.backingIn.amount, -(q.ironOut + q.rebackFee));
      r := MoveForSell(env, m.sender, Receiver(m), m.backingIn, q.ironOut, q.rebackFee);
      SwapExecuted(r, s, p, View());
    }

    method MoveForSell(env: Env, sender: Address, receiver: Address, backingIn: Coin, out: nat, fee: nat)
      returns (r: Check)
      requires EnvOk(env) && Conserved(bank)
      modifies `bank
      ensures Did(r, bank, Flow(old(bank), [Transfer(sender, MAKER, backingIn)], MayReceive(env, receiver),
                                [Mint(receiver, Coin(IRON, out)), Mint(ORACLE, Coin(IRON, fee))]))
    {
      Single(bank, Transfer(sender, MAKER, backingIn));
      r := Send(sender, MAKER, backingIn);
      if r.Fail? { return; }
      ApplyAllConserves(old(bank), [Transfer(sender, MAKER, backingIn)]);
      r := MintAndSend(env, receiver, IRON, out, fee);
    }

    // --- Loans --------------------------------------------------------------------

    /** Load an account's records and bring its interest up to date. */
    method LoadSettled(who: Address, denom: Denom, allowNew: bool, apr: Dec)
      returns (was: AccountCollateral, acc: AccountCollateral, pool: PoolCollateral, total: TotalCollateral)
      requires GetCollateral(View(), who, denom, allowNew).Ok?
      ensures was == GetCollateral(View(), who, denom, allowNew).value && acc == Settle(was, height, apr)
      ensures Carried(collateral, denom, was, acc, pool, total)
    {
      was := if (who, denom) in collateral.accounts then collateral.accounts[(who, denom)]
             else AccountCollateral(0, 0, 0, 0, height);
      acc, pool, total := SettleInterestFee(height, was, collateral.pools[denom], collateral.total.value, apr);
    }

    /** Write an account, its pool and the total. */
    method SetCollaterals(who: Address, denom: Denom, acc: AccountCollateral, pool: PoolCollateral,
                          total: TotalCollateral,
                          ghost was: AccountCollateral)
      requires collateral.total.Some? && denom in collateral.pools && Carried(collateral, denom, was, acc, pool, total)
      modifies `collateral
      ensures collateral == BookAccount(old(collateral), who, denom, was, acc)
    {
      collateral := collateral.(accounts := collateral.accounts[(who, denom) := acc]);
      collateral := collateral.(pools := collateral.pools[denom := pool]);
      collateral := collateral.(total := Some(total));
    }

    method CalculateMintByCollateral(env: Env, m: Msg)
      returns (r: Check, fee: int, was: AccountCollateral, acc: AccountCollateral, pool: PoolCollateral,
               total: TotalCollateral)
      requires m.MintByCollateral?
      ensures match r
              case Fail(e) => MintByCollateralPlan(env, View(), m) == Err(e)
              case Pass =>
                && 0 <= fee
                && AvailableCollateral(View(), m.denom).Ok?
                && GetCollateral(View(), m.sender, m.denom, false) == Ok(was)
                && MintByCollateralPlan(env, View(), m)
                     == Ok(MintLoan(env, m, was, Settle(was, height,
                                                        AvailableCollateral(View(), m.denom).value.interestFee), fee))
                && acc == MintByCollateralPlan(env, View(), m).value.now
                && Carried(collateral, m.denom, was, acc, pool, total)
    {
      fee := 0;
      was, pool, total := AccountCollateral(0, 0, 0, 0, 0), PoolCollateral(0, 0, 0), NO_COLLATERAL;
      acc := was;
      var found := AvailableCollateral(View(), m.denom);
      if found.Err? { r := Fail(found.error); return; }
      var params := found.value;
      if m.denom !in env.prices || IRON !in env.prices { r := Fail(UnknownPrice); return; }
      var pc, pi := env.prices[m.denom], env.prices[IRON];
      var got := GetCollateral(View(), m.sender, m.denom, false);
      if got.Err? { r := Fail(got.error); return; }
      was, acc, pool, total := LoadSettled(m.sender, m.denom, false, params.interestFee);
      fee := ComputeFee(m.mintOut, params.mintFee);
      if fee < 0 { r := Fail(Panic); return; }
      var mintTotal := m.mintOut + fee;
      acc := acc.(gridDebt := acc.gridDebt + mintTotal);
      pool := pool.(gridDebt := pool.gridDebt + mintTotal);
      total := total.(gridDebt := total.gridDebt + mintTotal);
      if params.maxGridMint.Some? && pool.gridDebt > params.maxGridMint.value { r := Fail(GridCeiling); return; }
      if !MintAllows(params.terms, CollateralValue(acc, pc), IronValue(acc, pi), acc.gridDebt) {
        r := Fail(AccountInsufficientCollateral); return;
      }
      r := Pass;
    }

    method MintByCollateral(env: Env, m: Msg) returns (r: Check)
      requires m.MintByCollateral? && ValidateBasic(m) && EnvOk(env) && Inv(View())
      modifies `bank, `collateral
      ensures Did(r, View(), MsgStep(env, old(View()), m))
    {
      var fee, was, acc, pool, total;
      r, fee, was, acc, pool, total := CalculateMintByCollateral(env, m);
      if r.Fail? { return; }
      r := BookAndLend(env, m.sender, m.denom, was, acc, pool, total, Receiver(m), m.mintOut, fee);
    }

    method BookAndLend(env: Env, who: Address, denom: Denom, ghost was: AccountCollateral,
                       acc: AccountCollateral, pool: PoolCollateral, total: TotalCollateral,
                       receiver: Address, out: nat, fee: nat)
      returns (r: Check)
      requires EnvOk(env) && Conserved(bank) && collateral.total.Some? && denom in collateral.pools
      requires Carried(collateral, denom, was, acc, pool, total)
      modifies `bank, `collateral
      ensures Did(r, View(), Perform(old(View()),
                Ok(Loan(who, denom, was, acc, 0, [], MayReceive(env, receiver),
                        [Mint(receiver, Coin(USM, out)), Mint(ORACLE, Coin(USM, fee))]))))
    {
      ghost var s := View();
      SetCollaterals(who, denom, acc, pool, total, was);
      r := MintAndSend(env, receiver, USM, out, fee);
      LoanExecuted(r, s, Loan(who, denom, was, acc, 0, [], MayReceive(env, receiver),
                              [Mint(receiver, Coin(USM, out)), Mint(ORACLE, Coin(USM, fee))]), View());
    }

    method BurnByCollateral(env: Env, m: Msg) returns (r: Check)
      requires m.BurnByCollateral? && ValidateBasic(m) && EnvOk(env) && Inv(View())
      modifies `bank, `collateral
      ensures Did(r, View(), MsgStep(env, old(View()), m))
    {
      var found := AvailableCollateral(View(), m.denom);
      if found.Err? { return Fail(found.error); }
      var got := GetCollateral(View(), m.sender, m.denom, false);
      if got.Err? { return Fail(got.error); }
      var was, acc, pool, total := LoadSettled(m.sender, m.denom, false, found.value.interestFee);
      SettledWithin(View(), m.sender, m.denom, pool, total);
      r := RepayAndMove(m, was, acc, pool, total);
    }

    method RepayDebt(amount: nat, acc0: AccountCollateral, pool0: PoolCollateral, total0: TotalCollateral)
      returns (r: Check, interest: nat, acc: AccountCollateral, pool: PoolCollateral, total: TotalCollateral)
      requires Nested(acc0, pool0, total0) && amount <= acc0.gridDebt
      ensures r.Pass? && interest == Min(acc0.lastInterest, amount) && acc == Repay(acc0, amount)
      ensures pool == pool0.(gridDebt := pool0.gridDebt - amount)
                && total == total0.(gridDebt := total0.gridDebt - amount)
    {
      interest, acc, pool, total := Min(acc0.lastInterest, amount), acc0, pool0, total0;
      if acc.lastInterest < interest || acc.gridDebt < amount || pool.gridDebt < amount || total.gridDebt < amount {
        r := Fail(Panic);
        return;
      }
      acc := acc.(lastInterest := acc.lastInterest - interest);
      acc := acc.(gridDebt := acc.gridDebt - amount);
      pool := pool.(gridDebt := pool.gridDebt - amount);
      total := total.(gridDebt := total.gridDebt - amount);
      r := Pass;
    }

    method RepayAndMove(m: Msg, ghost was: AccountCollateral, acc0: AccountCollateral, pool0: PoolCollateral,
                        total0: TotalCollateral)
      returns (r: Check)
      requires m.BurnByCollateral? && m.sender != MAKER && Conserved(bank) && collateral.total.Some?
                 && m.denom in collateral.pools
      requires Nested(acc0, pool0, total0) && Carried(collateral, m.denom, was, acc0, pool0, total0)
      modifies `bank, `collateral
      ensures Did(r, View(), Perform(old(View()), BurnByCollateralAt(m, was, acc0)))
    {
      if acc0.gridDebt <= 0 { return Fail(AccountNoDebt); }
      var repayIn: nat := Min(acc0.gridDebt, m.repayInMax);
      var interest, acc, pool, total;
      r, interest, acc, pool, total := RepayDebt(repayIn, acc0, pool0, total0);
      if r.Fail? { return; }
      r := BookAndRepay(m.sender, m.denom, was, acc, pool, total, repayIn - interest, interest);
    }

    method BookAndRepay(who: Address, denom: Denom, ghost was: AccountCollateral,
                        acc: AccountCollateral, pool: PoolCollateral, total: TotalCollateral, burn: nat, interest: nat)
      returns (r: Check)
      requires who != MAKER && Conserved(bank) && collateral.total.Some? && denom in collateral.pools
      requires Carried(collateral, denom, was, acc, pool, total)
      modifies `bank, `collateral
      ensures Did(r, View(), Perform(old(View()),
                Ok(Loan(who, denom, was, acc, 0, [Burn(who, Coin(USM, burn)),
                                                  Transfer(who, ORACLE, Coin(USM, interest))], Pass, []))))
    {
      ghost var s := View();
      SetCollaterals(who, denom, acc, pool, total, was);
      AsFlow(bank, [Burn(who, Coin(USM, burn)), Transfer(who, ORACLE, Coin(USM, interest))]);
      r := TakeShared(who, ORACLE, burn, interest);
      LoanExecuted(r, s, Loan(who, denom, was, acc, 0,
                              [Burn(who, Coin(USM, burn)), Transfer(who, ORACLE, Coin(USM, interest))], Pass, []),
                                  View());
    }

    method DepositCollateral(env: Env, m: Msg) returns (r: Check)
      requires m.DepositCollateral? && ValidateBasic(m) && EnvOk(env) && Inv(View())
      modifies `bank, `collateral
      ensures Did(r, View(), MsgStep(env, old(View()), m))
    {
      var denom, receiver := m.collateralIn.denom, Receiver(m);
      var found := AvailableCollateral(View(), denom);
      if found.Err? { return Fail(found.error); }
      var got := GetCollateral(View(), receiver, denom, true);
      if got.Err? { return Fail(got.error); }
      var was, acc, pool, total := LoadSettled(receiver, denom, true, found.value.interestFee);
      r := DepositAndTake(m, found.value, was, acc, pool, total);
    }

    method DepositAndTake(m: Msg, params: CollateralParams, ghost was: AccountCollateral,
                          acc0: AccountCollateral, pool0: PoolCollateral, total0: TotalCollateral)
      returns (r: Check)
      requires m.DepositCollateral? && m.sender != MAKER
      requires collateral.total.Some? && m.collateralIn.denom in collateral.pools
      requires Carried(collateral, m.collateralIn.denom, was, acc0, pool0, total0)
      modifies `bank, `collateral
      ensures Did(r, View(), Perform(old(View()),
                DepositCollateralAt(m, params, old(collateral).pools[m.collateralIn.denom], was, acc0)))
    {
      var denom, iron := m.collateralIn.denom, Coin(IRON, m.ironIn);
      var acc, pool, total := AddCollateral(denom, was, acc0, pool0, total0, m.collateralIn.amount, m.ironIn);
      if params.maxCollateral.Some? && pool.collateral > params.maxCollateral.value { return Fail(CollateralCeiling); }
      if !DistinctCoins(m.collateralIn, iron) { return Fail(Panic); }
      r := BookAndTake(Receiver(m), denom, was, acc, pool, total, m.sender, m.collateralIn, iron);
    }

    /** Add a deposit to the three records. */
    method AddCollateral(denom: Denom, ghost was: AccountCollateral, acc0: AccountCollateral,
                         pool0: PoolCollateral, total0: TotalCollateral, amount: nat, iron: nat)
      returns (acc: AccountCollateral, pool: PoolCollateral, total: TotalCollateral)
      requires collateral.total.Some? && denom in collateral.pools
                 && Carried(collateral, denom, was, acc0, pool0, total0)
      ensures acc == acc0.(collateral := acc0.collateral + amount, iron := acc0.iron + iron)
      ensures Carried(collateral, denom, was, acc, pool, total)
    {
      acc, pool, total := acc0, pool0, total0;
      acc := acc.(collateral := acc.collateral + amount);
      pool := pool.(collateral := pool.collateral + amount);
      acc := acc.(iron := acc.iron + iron);
      pool := pool.(iron := pool.iron + iron);
      total := total.(iron := total.iron + iron);
    }

    method BookAndTake(who: Address, denom: Denom, ghost was: AccountCollateral,
                       acc: AccountCollateral, pool: PoolCollateral, total: TotalCollateral,
                       sender: Address, c0: Coin, c1: Coin)
      returns (r: Check)
      requires sender != MAKER && collateral.total.Some? && denom in collateral.pools
      requires Carried(collateral, denom, was, acc, pool, total)
      modifies `bank, `collateral
      ensures Did(r, View(), Perform(old(View()),
                Ok(Loan(who, denom, was, acc, 0, [Transfer(sender, MAKER, c0), Transfer(sender, MAKER, c1)], Pass,
                        []))))
    {
      ghost var s := View();
      SetCollaterals(who, denom, acc, pool, total, was);
      SendTwo(bank, sender, MAKER, c0, c1);
      AsFlow(bank, [Transfer(sender, MAKER, c0), Transfer(sender, MAKER, c1)]);
      r := SendPair(sender, MAKER, c0, c1);
      LoanExecuted(r, s, Loan(who, denom, was, acc, 0, [Transfer(sender, MAKER, c0), Transfer(sender, MAKER, c1)], Pass,
                              []), View());
    }

    method RedeemCollateral(env: Env, m: Msg) returns (r: Check)
      requires m.RedeemCollateral? && ValidateBasic(m) && EnvOk(env) && Inv(View())
      modifies `bank, `collateral
      ensures Did(r, View(), MsgStep(env, old(View()), m))
    {
      var denom := m.collateralOut.denom;
      var found := AvailableCollateral(View(), denom);
      if found.Err? { return Fail(found.error); }
      var got := GetCollateral(View(), m.sender, denom, false);
      if got.Err? { return Fail(got.error); }
      var was, acc, pool, total := LoadSettled(m.sender, denom, false, found.value.interestFee);
      SettledWithin(View(), m.sender, denom, pool, total);
      r := RedeemAndMove(env, m, found.value.terms, was, acc, pool, total);
    }

    method RedeemAndMove(env: Env, m: Msg, terms: Terms, ghost was: AccountCollateral,
                         acc0: AccountCollateral, pool0: PoolCollateral, total0: TotalCollateral)
      returns (r: Check)
      requires m.RedeemCollateral? && EnvOk(env) && collateral.total.Some? && m.collateralOut.denom in collateral.pools
      requires Nested(acc0, pool0, total0) && Carried(collateral, m.collateralOut.denom, was, acc0, pool0, total0)
      modifies `bank, `collateral
      ensures Did(r, View(), Perform(old(View()), RedeemCollateralAt(env, m, terms, was, acc0)))
    {
      var acc, pool, total;
      r, acc, pool, total := CheckRedeem(env, m, terms, was, acc0, pool0, total0);
      if r.Fail? { return; }
      r := BookAndPay(env, m.sender, m.collateralOut.denom, was, acc, pool, total,
                      Receiver(m), m.collateralOut, Coin(IRON, m.ironOut));
    }

    method CheckRedeem(env: Env, m: Msg, terms: Terms, ghost was: AccountCollateral,
                       acc0: AccountCollateral, pool0: PoolCollateral, total0: TotalCollateral)
      returns (r: Check, acc: AccountCollateral, pool: PoolCollateral, total: TotalCollateral)
      requires m.RedeemCollateral? && collateral.total.Some? && m.collateralOut.denom in collateral.pools
      requires Nested(acc0, pool0, total0) && Carried(collateral, m.collateralOut.denom, was, acc0, pool0, total0)
      ensures match r
              case Fail(e) => RedeemCollateralAt(env, m, terms, was, acc0) == Err(e)
              case Pass =>
                && RedeemCollateralAt(env, m, terms, was, acc0) == Ok(RedeemLoan(env, m, was, acc0))
                && acc == RedeemLoan(env, m, was, acc0).now
                && Carried(collateral, m.collateralOut.denom, was, acc, pool, total)
    {
      r, acc, pool, total := TakeOut(m.collateralOut.amount, m.ironOut, acc0, pool0, total0);
      if r.Fail? { return; }
      r := LimitCheck(env, m.collateralOut.denom, terms, acc);
    }

    /** Take collateral and iron off the three records; more than the account has panics. */
    method TakeOut(amount: nat, iron: nat, acc0: AccountCollateral, pool0: PoolCollateral, total0: TotalCollateral)
      returns (r: Check, acc: AccountCollateral, pool: PoolCollateral, total: TotalCollateral)
      requires Nested(acc0, pool0, total0)
      ensures r == Need(amount <= acc0.collateral && iron <= acc0.iron, Panic)
      ensures r.Pass? ==> acc == acc0.(collateral := acc0.collateral - amount, iron := acc0.iron - iron)
      ensures r.Pass? ==> pool == pool0.(collateral := pool0.collateral - amount, iron := pool0.iron - iron)
      ensures r.Pass? ==> total == total0.(iron := total0.iron - iron)
    {
      acc, pool, total := acc0, pool0, total0;
      if acc.collateral < amount || pool.collateral < amount { r := Fail(Panic); return; }
      acc := acc.(collateral := acc.collateral - amount);
      pool := pool.(collateral := pool.collateral - amount);
      if acc.iron < iron || pool.iron < iron || total.iron < iron { r := Fail(Panic); return; }
      acc := acc.(iron := acc.iron - iron);
      pool := pool.(iron := pool.iron - iron);
      total := total.(iron := total.iron - iron);
      r := Pass;
    }

    method BookAndPay(env: Env, who: Address, denom: Denom, ghost was: AccountCollateral,
                      acc: AccountCollateral, pool: PoolCollateral, total: TotalCollateral,
                      receiver: Address, c0: Coin, c1: Coin)
      returns (r: Check)
      requires EnvOk(env) && collateral.total.Some? && denom in collateral.pools
      requires Carried(collateral, denom, was, acc, pool, total)
      modifies `bank, `collateral
      ensures Did(r, View(), Perform(old(View()),
                Ok(Loan(who, denom, was, acc, 0, [], if DistinctCoins(c0, c1) then MayReceive(env, receiver)
                        else Fail(Panic),
                        [Transfer(MAKER, receiver, c0), Transfer(MAKER, receiver, c1)]))))
    {
      SetCollaterals(who, denom, acc, pool, total, was);
      if !DistinctCoins(c0, c1) { return Fail(Panic); }
      if receiver in env.blocked { return Fail(Unauthorized); }
      SendTwo(bank, MAKER, receiver, c0, c1);
      r := SendPair(MAKER, receiver, c0, c1);
    }

    // --- Liquidation --------------------------------------------------------------

    method CalculateLiquidation(env: Env, m: Msg)
      returns (r: Check, q: Liquidation, pool: PoolCollateral, total: TotalCollateral)
      requires m.LiquidateCollateral?
      ensures match r
              case Fail(e) => QuoteLiquidation(env, View(), m) == Err(e)
              case Pass =>
                && QuoteLiquidation(env, View(), m) == Ok(q)
                && Carried(collateral, m.seize.denom, q.acc, q.settled, pool, total)
    {
      var none := AccountCollateral(0, 0, 0, 0, 0);
      q, pool, total := Liquidation(none, none, 0, 0, 0), PoolCollateral(0, 0, 0), NO_COLLATERAL;
      var denom, amount := m.seize.denom, m.seize.amount;
      var found := AvailableCollateral(View(), denom);
      if found.Err? { r := Fail(found.error); return; }
      var terms := found.value.terms;
      var got := GetCollateral(View(), m.debtor, denom, false);
      if got.Err? { r := Fail(got.error); return; }
      var was, acc;
      was, acc, pool, total := LoadSettled(m.debtor, denom, false, found.value.interestFee);
      if denom !in env.prices { r := Fail(UnknownPrice); return; }
      var price := env.prices[denom];
      if !Liquidatable(terms, CollateralValue(acc, price), acc.gridDebt) { r := Fail(NotUndercollateralized); return; }
      if amount > acc.collateral { r := Fail(CollateralCoinInsufficient); return; }
      var commission := Commission(amount, terms.liquidationFee, env.params.commissionFee);
      var repayIn := LiquidationPrice(amount, terms.liquidationFee, price);
      if commission < 0 || amount < commission || repayIn < 0 { r := Fail(Panic); return; }
      if m.repayInMax < repayIn { r := Fail(GridSlippage); return; }
      q := Liquidation(was, acc, amount - commission, commission, repayIn);
      r := Pass;
    }

    method LiquidateCollateral(env: Env, m: Msg) returns (r: Check)
      requires m.LiquidateCollateral? && ValidateBasic(m) && EnvOk(env) && Inv(View())
      modifies `bank, `collateral
      ensures Did(r, View(), MsgStep(env, old(View()), m))
    {
      var q, pool, total;
      r, q, pool, total := CalculateLiquidation(env, m);
      if r.Fail? { return; }
      QuoteRecords(env, View(), m, q);
      SettledWithin(View(), m.debtor, m.seize.denom, pool, total);
      LiquidationPlanned(env, View(), m, q);
      r := SeizeAndMove(env, m, q, pool, total);
    }

    method SeizeAndMove(env: Env, m: Msg, q: Liquidation, pool0: PoolCollateral, total0: TotalCollateral)
      returns (r: Check)
      requires m.LiquidateCollateral? && m.sender != MAKER && EnvOk(env) && Conserved(bank)
      requires collateral.total.Some? && m.seize.denom in collateral.pools
      requires 0 <= q.collateralOut && 0 <= q.commission && 0 <= q.repayIn
      requires Nested(q.settled, pool0, total0) && m.seize.amount <= q.settled.collateral
      requires Carried(collateral, m.seize.denom, q.acc, q.settled, pool0, total0)
      modifies `bank, `collateral
      ensures Did(r, View(), Perform(old(View()), Ok(LiquidationLoan(env, m, q))))
    {
      var repayDebt: nat := Min(q.settled.gridDebt, q.repayIn);
      var acc, pool, total;
      r, acc, pool, total := SeizeRecords(m.seize, q, repayDebt, pool0, total0);
      if r.Fail? { return; }
      ghost var s, p := View(), LiquidationLoan(env, m, q);
      SetCollaterals(m.debtor, m.seize.denom, acc, pool, total, q.acc);
      r := MoveForLiquidation(env, m.sender, Receiver(m), m.debtor, repayDebt, q.repayIn - repayDebt,
                              m.seize.denom, q.collateralOut, q.commission);
      LoanExecuted(r, s, p, View());
    }

    /** Take the debt repaid and the collateral seized off the three records. */
    method SeizeRecords(seize: Coin, q: Liquidation, repayDebt: nat, pool0: PoolCollateral, total0: TotalCollateral)
      returns (r: Check, acc: AccountCollateral, pool: PoolCollateral, total: TotalCollateral)
      requires collateral.total.Some? && seize.denom in collateral.pools && repayDebt <= q.settled.gridDebt
      requires Nested(q.settled, pool0, total0) && seize.amount <= q.settled.collateral
      requires Carried(collateral, seize.denom, q.acc, q.settled, pool0, total0)
      ensures r == Pass && acc == Repay(q.settled, repayDebt).(collateral := q.settled.collateral - seize.amount)
      ensures Carried(collateral, seize.denom, q.acc, acc, pool, total)
    {
      var interest;
      r, interest, acc, pool, total := RepayDebt(repayDebt, q.settled, pool0, total0);
      if r.Fail? { return; }
      if pool.collateral < seize.amount { r := Fail(Panic); return; }
      acc := acc.(collateral := acc.collateral - seize.amount);
      pool := pool.(collateral := pool.collateral - seize.amount);
    }

    method MoveForLiquidation(env: Env, sender: Address, receiver: Address, debtor: Address, debt: nat, refund: nat,
                              denom: Denom, out: nat, commission: nat)
      returns (r: Check)
      requires sender != MAKER && EnvOk(env) && Conserved(bank)
      modifies `bank
      ensures Did(r, bank,
                Flow(old(bank), [Burn(sender, Coin(USM, debt)), Transfer(sender, debtor, Coin(USM, refund))],
                     if refund > 0 && debtor in env.blocked then Fail(Unauthorized) else MayReceive(env, receiver),
                     [Transfer(MAKER, receiver, Coin(denom, out)), Transfer(MAKER, ORACLE, Coin(denom, commission))]))
    {
      TakenTogether(bank, sender, debtor, USM, debt, refund);
      r := TakeForDebt(env, sender, debtor, debt, refund);
      if r.Fail? { return; }
      r := SendShared(env, receiver, denom, out, commission);
    }

    /** Take a liquidator's payment, burn the debt it repays and refund the debtor. */
    method TakeForDebt(env: Env, sender: Address, debtor: Address, debt: nat, refund: nat) returns (r: Check)
      requires sender != MAKER && EnvOk(env) && Conserved(bank)
      modifies `bank
      ensures debt + refund > old(bank).Balance(sender, USM) ==> r == Fail(InsufficientFunds(sender))
      ensures debt + refund <= old(bank).Balance(sender, USM) ==>
                r == Need(!(refund > 0 && debtor in env.blocked), Unauthorized)
      ensures r.Pass? ==>
                ApplyAll(old(bank), [Burn(sender, Coin(USM, debt)), Transfer(sender, debtor, Coin(USM, refund))])
                    == Ok(bank)
    {
      ghost var b := bank;
      r := TakeAndBurnPart(sender, debt, refund);
      if r.Fail? { return; }
      r := RefundDebtor(env, b, sender, debtor, debt, refund);
    }

    /** Pass on what a liquidator paid beyond the debt. */
    method RefundDebtor(env: Env, ghost b: Bank, sender: Address, debtor: Address, debt: nat, refund: nat)
      returns (r: Check)
      requires sender != MAKER && EnvOk(env) && Conserved(b) && Held(b, bank, sender, debt, refund)
      modifies `bank
      ensures r == Need(!(refund > 0 && debtor in env.blocked), Unauthorized)
      ensures r.Pass? ==>
                ApplyAll(b, [Burn(sender, Coin(USM, debt)), Transfer(sender, debtor, Coin(USM, refund))]) == Ok(bank)
    {
      if refund == 0 {
        PassNone(b, bank, sender, debtor, debt);
        return Pass;
      }
      if debtor in env.blocked { return Fail(Unauthorized); }
      PassOn(b, bank, sender, debtor, debt, refund);
      r := Send(MAKER, debtor, Coin(USM, refund));
    }

    // --- Transactions -------------------------------------------------------------

    method Handle(env: Env, m: Msg) returns (r: Check)
      requires ValidateBasic(m) && EnvOk(env) && Inv(View())
      modifies `bank, `backing, `collateral
      ensures Did(r, View(), MsgStep(env, old(View()), m))
    {
      match m
      case MintBySwap(_, _, _, _, _, _) => r := MintBySwap(env, m);
      case BurnBySwap(_, _, _, _, _) => r := BurnBySwap(env, m);
      case BuyBacking(_, _, _, _) => r := BuyBacking(env, m);
      case SellBacking(_, _, _, _) => r := SellBacking(env, m);
      case MintByCollateral(_, _, _, _) => r := MintByCollateral(env, m);
      case BurnByCollateral(_, _, _) => r := BurnByCollateral(env, m);
      case DepositCollateral(_, _, _, _) => r := DepositCollateral(env, m);
      case RedeemCollateral(_, _, _, _) => r := RedeemCollateral(env, m);
      case LiquidateCollateral(_, _, _, _, _) => r := LiquidateCollateral(env, m);
    }

    /** Deliver a transaction: validate, handle, and put everything back on failure. */
    method Deliver(env: Env, m: Msg) returns (r: Check)
      requires EnvOk(env) && Inv(View())
      modifies `bank, `backing, `collateral
      ensures View() == Next(env, old(View()), Tx(m))
      ensures r.Pass? <==> MsgStep(env, old(View()), m).Ok?
      ensures Inv(View())
    {
      if !ValidateBasic(m) { return Fail(InvalidMessage); }
      var bank0, backing0, collateral0 := bank, backing, collateral;
      ghost var s := View();
      r := Handle(env, m);
      if r.Fail? {
        bank, backing, collateral := bank0, backing0, collateral0;
      } else {
        MsgKeeps(env, s, m);
      }
    }

    /** The end of a block: adjust the backing ratio, then move on.  A missing stablecoin
        price halts the chain. */
    method EndBlock(env: Env) returns (r: Check)
      modifies `ratio, `ratioBlock, `height
      ensures Did(r, View(), EndBlockStep(env, old(View())))
    {
      r := AdjustBackingRatio(env);
      if r.Fail? { return; }
      height := height + 1;
    }

    method AdjustBackingRatio(env: Env) returns (r: Check)
      modifies `ratio, `ratioBlock
      ensures Did(r, View(), AdjustRatio(env, old(View())))
    {
      var p := env.params;
      if height - ratioBlock < p.ratioCooldown { return Pass; }
      if p.ratioStep == 0 { return Pass; }
      var band := Mul(ONE, p.ratioPriceBand);
      if USM !in env.prices { return Fail(Panic); }
      var price := env.prices[USM];
      if height < 0 { return Fail(Panic); }
      if price > ONE + band {
        ratio := if ratio - p.ratioStep > 0 then ratio - p.ratioStep else 0;
      } else if price < ONE - band {
        ratio := if ratio + p.ratioStep < ONE then ratio + p.ratioStep else ONE;
      }
      ratioBlock := height;
      r := Pass;
    }

    // --- Governance ---------------------------------------------------------------

    method RegisterBackingCoin(env: Env, p: BackingProposal) returns (r: Check)
      modifies `backing
      ensures Did(r, View(), RegisterBackingStep(env, old(View()), p))
    {
      if !BackingProposalBasic(p) { return Fail(InvalidMessage); }
      if p.denom in backing.params { return Fail(BackingCoinAlreadyExists); }
      if bank.Supply(p.denom) == 0 { return Fail(InvalidCoins); }
      var params := FilledBacking(p);
      r := ValidateBacking(env, params);
      if r.Fail? { return; }
      backing := backing.(params := backing.params[p.denom := params]);
      if backing.total.None? { backing := backing.(total := Some(NO_BACKING)); }
      backing := backing.(pools := backing.pools[p.denom := PoolBacking(0, 0, 0)]);
    }

    method RegisterCollateralCoin(env: Env, p: CollateralProposal) returns (r: Check)
      modifies `collateral
      ensures Did(r, View(), RegisterCollateralStep(env, old(View()), p))
    {
      if !CollateralProposalBasic(p) { return Fail(InvalidMessage); }
      if p.denom in collateral.params { return Fail(CollateralCoinAlreadyExists); }
      if bank.Supply(p.denom) == 0 { return Fail(InvalidCoins); }
      var params := FilledCollateral(p);
      r := ValidateCollateral(params);
      if r.Fail? { return; }
      collateral := collateral.(params := collateral.params[p.denom := params]);
      if collateral.total.None? { collateral := collateral.(total := Some(NO_COLLATERAL)); }
      collateral := collateral.(pools := collateral.pools[p.denom := PoolCollateral(0, 0, 0)]);
    }

    method SetBackingParams(env: Env, p: BackingProposal) returns (r: Check)
      modifies `backing
      ensures Did(r, View(), SetBackingStep(env, old(View()), p))
    {
      if !BackingProposalBasic(p) { return Fail(InvalidMessage); }
      if p.denom !in backing.params { return Fail(BackingCoinNotFound); }
      var was := backing.params[p.denom];
      if !LimitPatchable(was.maxBacking, p.maxBacking) ||
          !LimitPatchable(was.maxGridMint, p.maxGridMint) { return Fail(Panic); }
      if EmptyBackingPatch(was, p) { return Pass; }
      var now := PatchedBacking(was, p);
      r := ValidateBacking(env, now);
      if r.Fail? { return; }
      backing := backing.(params := backing.params[p.denom := now]);
    }

    method SetCollateralParams(env: Env, p: CollateralProposal) returns (r: Check)
      modifies `collateral
      ensures Did(r, View(), SetCollateralStep(env, old(View()), p))
    {
      if !CollateralProposalBasic(p) { return Fail(InvalidMessage); }
      if p.denom !in collateral.params { return Fail(CollateralCoinNotFound); }
      var was := collateral.params[p.denom];
      if !LimitPatchable(was.maxCollateral, p.maxCollateral) || !LimitPatchable(was.maxGridMint, p.maxGridMint) {
        return Fail(Panic);
      }
      if EmptyCollateralPatch(was, p) { return Pass; }
      var now := PatchedCollateral(was, p);
      r := ValidateCollateral(now);
      if r.Fail? { return; }
      collateral := collateral.(params := collateral.params[p.denom := now]);
    }

    method BatchSetBackingParams(env: Env, ps: seq<BackingProposal>) returns (r: Check)
      modifies `backing
      ensures Did(r, View(), SetBackingBatch(env, old(View()), ps))
    {
      var i := 0;
      while i < |ps|
        invariant 0 <= i <= |ps|
        invariant SetBackingBatch(env, View(), ps[i..]) == SetBackingBatch(env, old(View()), ps)
      {
        assert ps[i..][1..] == ps[i + 1..];
        r := SetBackingParams(env, ps[i]);
        if r.Fail? { return; }
        i := i + 1;
      }
      r := Pass;
    }

    method BatchSetCollateralParams(env: Env, ps: seq<CollateralProposal>) returns (r: Check)
      modifies `collateral
      ensures Did(r, View(), SetCollateralBatch(env, old(View()), ps))
    {
      var i := 0;
      while i < |ps|
        invariant 0 <= i <= |ps|
        invariant SetCollateralBatch(env, View(), ps[i..]) == SetCollateralBatch(env, old(View()), ps)
      {
        assert ps[i..][1..] == ps[i + 1..];
        r := SetCollateralParams(env, ps[i]);
        if r.Fail? { return; }
        i := i + 1;
      }
      r := Pass;
    }
  }
}
