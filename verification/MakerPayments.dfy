/**
 Who ends up with what: after each message, every balance of every account, in terms of the
 amounts the ledgers book and the fees the parameters set.
 */
module MakerPayments {
  import opened FixedPoint
  import opened Results
  import opened Bank
  import opened SwapMath
  import opened LoanMath
  import opened MakerState
  import opened MakerSpec
  import opened MakerInvariant
  import opened MakerSafety
  import opened MakerValue

  function When(here: bool, amount: int): int {
    if here then amount else 0
  }

  /** What an account gained of a coin. */
  function Gained(s: State, s': State, who: Address, d: Denom): int {
    s'.bank.Balance(who, d) - s.bank.Balance(who, d)
  }

  /** A plan's arrows are what accounts gain. */
  ghost predicate Flows(s: State, s': State, p: Plan) {
    forall who, d :: Gained(s, s', who, d) == Shift(p.ins, who, d) + Shift(p.outs, who, d)
  }

  lemma ExecuteFlows(s: State, p: Plan, s': State)
    requires Bookable(s, p) && Short(p) && Execute(s, p) == Ok(s')
    ensures Flows(s, s', p)
  {
    FlowEffect(s.bank, p.ins, p.gate, p.outs);
  }

  /** A message that succeeds executes its plan. */
  lemma StepExecutes(env: Env, s: State, m: Msg)
    requires MsgStep(env, s, m).Ok?
    ensures MsgPlan(env, s, m).Ok? && Execute(s, MsgPlan(env, s, m).value) == MsgStep(env, s, m)
  {
  }

  // --- Swaps ----------------------------------------------------------------------

  /** What a swap booked on its pool. */
  datatype Booked = Booked(grid: int, backing: int, iron: int)

  function PoolChange(s: State, s': State, d: Denom): Booked
    requires d in s.backing.pools && d in s'.backing.pools
  {
    var p, p' := s.backing.pools[d], s'.backing.pools[d];
    Booked(p'.gridMinted - p.gridMinted, p'.backing - p.backing, p'.ironBurned - p.ironBurned)
  }

  /** What executing a swap's plan does. */
  ghost predicate Swapped(s: State, s': State, p: Plan) {
    && p.Swap? && p.denom in s.backing.pools && p.denom in s'.backing.pools
    && PoolChange(s, s', p.denom) == Booked(p.grid, p.backing, p.iron) && Flows(s, s', p)
  }

  lemma ExecuteSwaps(s: State, p: Plan, s': State)
    requires p.Swap? && Bookable(s, p) && Short(p) && Execute(s, p) == Ok(s')
    ensures Swapped(s, s', p)
  {
    ExecuteFlows(s, p, s');
  }

  /** The coins a mint took for a whole amount of stablecoins: backing alone, iron alone, or each
      for its share of the value. */
  ghost predicate TakesShares(ratio: Dec, pb: nat, pi: nat, m: Msg, c: Booked)
    requires m.MintBySwap?
  {
    if ratio >= ONE || m.full then c.backing == m.backingInMax.amount && c.iron == 0
    else if ratio == 0 then c.backing == 0 && c.iron == m.ironInMax
    else
      && (c.backing == m.backingInMax.amount || c.iron == m.ironInMax)
      && exists usd: Dec :: c.grid * ONE <= usd < (c.grid + 1) * ONE
                            && NearShare(pb, c.backing, ratio, usd) && NearShare(pi, c.iron, ONE - ratio, usd)
  }

  /** The sender gave the coins booked, the receiver got the stablecoins booked less the fee, and
      the oracle the fee. */
  ghost predicate MintMoves(s: State, m: Msg, s': State, c: Booked, fee: int)
    requires m.MintBySwap?
  {
    forall who, d :: Gained(s, s', who, d) ==
      When(who == Receiver(m) && d == USM, c.grid - fee) + When(who == ORACLE && d == USM, fee)
      - When(who == m.sender && d == m.backingInMax.denom, c.backing)
      + When(who == MAKER && d == m.backingInMax.denom, c.backing)
      - When(who == m.sender && d == IRON, c.iron)
  }

  /** The amounts of a mint are fair, and taken in the right shares. */
  ghost predicate MintAmounts(env: Env, s: State, m: Msg, c: Booked, fee: int)
    requires m.MintBySwap?
  {
    var b := m.backingInMax.denom;
    && b in env.prices && IRON in env.prices && b in s.backing.params
    && fee == ComputeFee(c.grid, s.backing.params[b].mintFee)
    && TakesShares(s.ratio, env.prices[b], env.prices[IRON], m, c)
    && FairMint(MintQuote(c.backing, c.iron, c.grid - fee, fee), env.prices[b], env.prices[IRON],
                ComputedLegPrice(s.ratio, env.prices[b], env.prices[IRON], m.backingInMax.amount, m.ironInMax, m.full),
                m.backingInMax.amount, m.ironInMax)
  }

  /** After MintBySwap. */
  ghost predicate MintPaid(env: Env, s: State, m: Msg, s': State)
    requires m.MintBySwap?
  {
    var b := m.backingInMax.denom;
    && b in s.backing.params && b in s.backing.pools && b in s'.backing.pools
    && var c := PoolChange(s, s', b);
       var fee := ComputeFee(c.grid, s.backing.params[b].mintFee);
       MintAmounts(env, s, m, c, fee) && MintMoves(s, m, s', c, fee)
  }

  lemma MintShares(env: Env, s: State, m: Msg, q: MintQuote)
    requires BackingOk(s.backing) && m.MintBySwap?
    requires QuoteMint(env, s, m.backingInMax, m.ironInMax, m.full) == Ok(q)
    ensures m.backingInMax.denom in env.prices && IRON in env.prices
    ensures TakesShares(s.ratio, env.prices[m.backingInMax.denom], env.prices[IRON], m,
                        Booked(q.mintOut + q.mintFee, q.backingIn, q.ironIn))
  {
    MintShapes(env, s, m.backingInMax, m.ironInMax, m.full);
    var pb, pi := env.prices[m.backingInMax.denom], env.prices[IRON];
    MintLegsShares(s.ratio, pb, pi, m.backingInMax.amount, m.ironInMax, m.full);
    MintLegsBound(s.ratio, pb, pi, m.backingInMax.amount, m.ironInMax, m.full);
    var usd := MintLegs(s.ratio, pb, pi, m.backingInMax.amount, m.ironInMax, m.full).value.usd;
    MintTotalBound(usd);
  }

  /** The plan a quote makes. */
  function MintSwap(env: Env, m: Msg, q: MintQuote): Plan
    requires m.MintBySwap? && 0 <= q.backingIn && 0 <= q.ironIn && 0 <= q.mintOut && 0 <= q.mintFee
  {
    var b := m.backingInMax.denom;
    Swap(b, q.mintOut + q.mintFee, q.backingIn, q.ironIn,
         [Transfer(m.sender, MAKER, Coin(b, q.backingIn)), Burn(m.sender, Coin(IRON, q.ironIn))],
         MayReceive(env, Receiver(m)),
         [Mint(Receiver(m), Coin(USM, q.mintOut)), Mint(ORACLE, Coin(USM, q.mintFee))])
  }

  lemma MintPlanned(env: Env, s: State, m: Msg)
    requires m.MintBySwap? && MsgPlan(env, s, m).Ok?
    ensures QuoteMint(env, s, m.backingInMax, m.ironInMax, m.full).Ok?
    ensures var q := QuoteMint(env, s, m.backingInMax, m.ironInMax, m.full).value;
            && 0 <= q.backingIn && 0 <= q.ironIn && 0 <= q.mintOut && 0 <= q.mintFee
            && MsgPlan(env, s, m).value == MintSwap(env, m, q)
  {
  }

  lemma MintMoved(env: Env, s: State, m: Msg, q: MintQuote, s': State)
    requires m.MintBySwap? && 0 <= q.backingIn && 0 <= q.ironIn && 0 <= q.mintOut && 0 <= q.mintFee
    requires Flows(s, s', MintSwap(env, m, q))
    ensures MintMoves(s, m, s', Booked(q.mintOut + q.mintFee, q.backingIn, q.ironIn), q.mintFee)
  {
  }

  lemma MintQuoted(env: Env, s: State, m: Msg, q: MintQuote)
    requires BackingOk(s.backing) && m.MintBySwap?
    requires QuoteMint(env, s, m.backingInMax, m.ironInMax, m.full) == Ok(q)
    ensures MintAmounts(env, s, m, Booked(q.mintOut + q.mintFee, q.backingIn, q.ironIn), q.mintFee)
  {
    MintShapes(env, s, m.backingInMax, m.ironInMax, m.full);
    MintWorth(env, s, m.backingInMax, m.ironInMax, m.full);
    MintShares(env, s, m, q);
  }

  lemma MintPaysAt(env: Env, s: State, m: Msg, q: MintQuote, s': State)
    requires m.MintBySwap? && 0 <= q.backingIn && 0 <= q.ironIn && 0 <= q.mintOut && 0 <= q.mintFee
    requires MintAmounts(env, s, m, Booked(q.mintOut + q.mintFee, q.backingIn, q.ironIn), q.mintFee)
    requires Swapped(s, s', MintSwap(env, m, q))
    ensures MintPaid(env, s, m, s')
  {
    MintMoved(env, s, m, q, s');
  }

  lemma MintPays(env: Env, s: State, m: Msg)
    requires BackingOk(s.backing) && m.MintBySwap?
    ensures MsgStep(env, s, m).Ok? ==> MintPaid(env, s, m, MsgStep(env, s, m).value)
  {
    if MsgStep(env, s, m).Ok? {
      StepExecutes(env, s, m);
      MintPlanned(env, s, m);
      var q, s' := QuoteMint(env, s, m.backingInMax, m.ironInMax, m.full).value, MsgStep(env, s, m).value;
      MintQuoted(env, s, m, q);
      ExecuteSwaps(s, MintSwap(env, m, q), s');
      MintPaysAt(env, s, m, q, s');
    }
  }

  /** The sender gave the whole amount, of which the fee went to the oracle; the receiver got the
      coins booked. */
  ghost predicate BurnMoves(s: State, m: Msg, s': State, c: Booked, fee: int)
    requires m.BurnBySwap?
  {
    forall who, d :: Gained(s, s', who, d) ==
      When(who == ORACLE && d == USM, fee) - When(who == m.sender && d == USM, m.burnIn)
      + When(who == Receiver(m) && d == m.backingOutMin.denom, -c.backing)
      - When(who == MAKER && d == m.backingOutMin.denom, -c.backing)
      + When(who == Receiver(m) && d == IRON, -c.iron)
  }

  /** The most whole units a value buys. */
  predicate BuysMost(price: int, units: int, value: int) {
    price * units <= value < price * (units + 1)
  }

  /** Of each coin, the most its share of the burn buys. */
  predicate BurnAmounts(env: Env, s: State, m: Msg, c: Booked, fee: int)
    requires m.BurnBySwap?
  {
    var b := m.backingOutMin.denom;
    && b in env.prices && IRON in env.prices && b in s.backing.params
    && fee == ComputeFee(m.burnIn, s.backing.params[b].burnFee) && c.grid == fee - m.burnIn
    && BurnShares(Min(s.ratio, ONE), env.prices[b], env.prices[IRON], m.burnIn - fee, 0 - c.backing, 0 - c.iron)
  }

  predicate BurnShares(share: Dec, pb: nat, pi: nat, burned: int, backing: int, iron: int) {
    && (if share > 0 then BuysMost(pb, backing, burned * share) else backing == 0)
    && (if share < ONE then BuysMost(pi, iron, burned * (ONE - share)) else iron == 0)
  }

  /** After BurnBySwap. */
  ghost predicate BurnPaid(env: Env, s: State, m: Msg, s': State)
    requires m.BurnBySwap?
  {
    var b := m.backingOutMin.denom;
    && b in s.backing.params && b in s.backing.pools && b in s'.backing.pools
    && var c, fee := PoolChange(s, s', b), ComputeFee(m.burnIn, s.backing.params[b].burnFee);
       BurnAmounts(env, s, m, c, fee) && BurnMoves(s, m, s', c, fee)
  }

  function BurnSwap(m: Msg, q: BurnQuote, gate: Check): Plan
    requires m.BurnBySwap? && 0 <= q.burnFee <= m.burnIn && 0 <= q.backingOut && 0 <= q.ironOut
  {
    var b := m.backingOutMin.denom;
    Swap(b, -(m.burnIn - q.burnFee), -q.backingOut, -q.ironOut,
         [Burn(m.sender, Coin(USM, m.burnIn - q.burnFee)), Transfer(m.sender, ORACLE, Coin(USM, q.burnFee))],
         gate,
         [Transfer(MAKER, Receiver(m), Coin(b, q.backingOut)), Mint(Receiver(m), Coin(IRON, q.ironOut))])
  }

  lemma BurnPlanned(env: Env, s: State, m: Msg)
    requires m.BurnBySwap? && MsgPlan(env, s, m).Ok?
    ensures QuoteBurn(env, s, m.burnIn, m.backingOutMin.denom).Ok?
    ensures var q := QuoteBurn(env, s, m.burnIn, m.backingOutMin.denom).value;
            && 0 <= q.burnFee <= m.burnIn && 0 <= q.backingOut && 0 <= q.ironOut
            && MsgPlan(env, s, m).value == BurnSwap(m, q, MsgPlan(env, s, m).value.gate)
  {
  }

  lemma BurnMoved(s: State, m: Msg, q: BurnQuote, gate: Check, s': State)
    requires m.BurnBySwap? && 0 <= q.burnFee <= m.burnIn && 0 <= q.backingOut && 0 <= q.ironOut
    requires Flows(s, s', BurnSwap(m, q, gate))
    ensures BurnMoves(s, m, s', Booked(q.burnFee - m.burnIn, -q.backingOut, -q.ironOut), q.burnFee)
  {
  }

  lemma BurnShare(ratio: Dec, pb: nat, pi: nat, burned: nat, p: Payout)
    requires 0 <= ratio && BurnPayout(ratio, pb, pi, burned) == Ok(p)
    ensures BurnShares(Min(ratio, ONE), pb, pi, burned, p.backingOut, p.ironOut)
  {
    BurnPayoutExact(ratio, pb, pi, burned);
  }

  lemma BurnShared(env: Env, s: State, m: Msg, q: BurnQuote)
    requires m.BurnBySwap? && m.backingOutMin.denom in s.backing.params
    requires m.backingOutMin.denom in env.prices && IRON in env.prices
    requires q.burnFee == ComputeFee(m.burnIn, s.backing.params[m.backingOutMin.denom].burnFee)
    requires BurnShares(Min(s.ratio, ONE), env.prices[m.backingOutMin.denom], env.prices[IRON], m.burnIn - q.burnFee,
                        q.backingOut, q.ironOut)
    ensures BurnAmounts(env, s, m, Booked(q.burnFee - m.burnIn, -q.backingOut, -q.ironOut), q.burnFee)
  {
  }

  lemma BurnQuoted(env: Env, s: State, m: Msg, q: BurnQuote)
    requires BackingOk(s.backing) && m.BurnBySwap?
    requires QuoteBurn(env, s, m.burnIn, m.backingOutMin.denom) == Ok(q)
    ensures BurnAmounts(env, s, m, Booked(q.burnFee - m.burnIn, -q.backingOut, -q.ironOut), q.burnFee)
  {
    var b := m.backingOutMin.denom;
    BurnShapes(env, s, m.burnIn, b);
    FeeWithin(m.burnIn, s.backing.params[b].burnFee);
    BurnShare(s.ratio, env.prices[b], env.prices[IRON], m.burnIn - q.burnFee, Payout(q.backingOut, q.ironOut));
    BurnShared(env, s, m, q);
  }

  lemma BurnPaysAt(env: Env, s: State, m: Msg, q: BurnQuote, gate: Check, s': State)
    requires m.BurnBySwap? && 0 <= q.burnFee <= m.burnIn && 0 <= q.backingOut && 0 <= q.ironOut
    requires BurnAmounts(env, s, m, Booked(q.burnFee - m.burnIn, -q.backingOut, -q.ironOut), q.burnFee)
    requires Swapped(s, s', BurnSwap(m, q, gate))
    ensures BurnPaid(env, s, m, s')
  {
    BurnMoved(s, m, q, gate, s');
  }

  lemma BurnPays(env: Env, s: State, m: Msg)
    requires BackingOk(s.backing) && m.BurnBySwap?
    ensures MsgStep(env, s, m).Ok? ==> BurnPaid(env, s, m, MsgStep(env, s, m).value)
  {
    if MsgStep(env, s, m).Ok? {
      StepExecutes(env, s, m);
      BurnPlanned(env, s, m);
      var q, p := QuoteBurn(env, s, m.burnIn, m.backingOutMin.denom).value, MsgPlan(env, s, m).value;
      var s' := MsgStep(env, s, m).value;
      BurnQuoted(env, s, m, q);
      ExecuteSwaps(s, p, s');
      BurnPaysAt(env, s, m, q, p.gate, s');
    }
  }

  /** The sender gave the iron; the backing booked went to the receiver, but for the fee to the
      oracle. */
  ghost predicate BuyMoves(s: State, m: Msg, s': State, total: int, fee: int)
    requires m.BuyBacking?
  {
    forall who, d :: Gained(s, s', who, d) ==
      When(who == Receiver(m) && d == m.backingOutMin.denom, total - fee)
      + When(who == ORACLE && d == m.backingOutMin.denom, fee)
      - When(who == MAKER && d == m.backingOutMin.denom, total)
      - When(who == m.sender && d == IRON, m.ironIn)
  }

  /** The backing the iron buys, in whole units and within the excess. */
  ghost predicate Buys(env: Env, s: State, m: Msg, total: int)
    requires m.BuyBacking?
  {
    var b := m.backingOutMin.denom;
    && b in env.prices && IRON in env.prices && Excess(env, s).Ok?
    && var pb, pi := env.prices[b], env.prices[IRON];
       && 2 * ONE * (pb * total) <= 2 * ONE * (pi * m.ironIn) + pb && pi * m.ironIn < pb * (total + 1)
       && pi * m.ironIn <= Excess(env, s).value * ONE
  }

  /** After BuyBacking. */
  ghost predicate BuyPaid(env: Env, s: State, m: Msg, s': State)
    requires m.BuyBacking?
  {
    var b := m.backingOutMin.denom;
    && b in s.backing.params && b in s.backing.pools && b in s'.backing.pools
    && var total := -PoolChange(s, s', b).backing;
       && PoolChange(s, s', b) == Booked(0, -total, m.ironIn) && Buys(env, s, m, total)
       && BuyMoves(s, m, s', total, ComputeFee(total, s.backing.params[b].buybackFee))
  }

  function BuySwap(env: Env, m: Msg, q: BuyQuote): Plan
    requires m.BuyBacking? && 0 <= q.backingOut && 0 <= q.buybackFee
  {
    var b := m.backingOutMin.denom;
    Swap(b, 0, -(q.backingOut + q.buybackFee), m.ironIn,
         [Burn(m.sender, Coin(IRON, m.ironIn))], MayReceive(env, Receiver(m)),
         [Transfer(MAKER, Receiver(m), Coin(b, q.backingOut)), Transfer(MAKER, ORACLE, Coin(b, q.buybackFee))])
  }

  lemma BuyPlanned(env: Env, s: State, m: Msg)
    requires m.BuyBacking? && MsgPlan(env, s, m).Ok?
    ensures QuoteBuy(env, s, m.ironIn, m.backingOutMin.denom).Ok?
    ensures var q := QuoteBuy(env, s, m.ironIn, m.backingOutMin.denom).value;
            && 0 <= q.backingOut && 0 <= q.buybackFee && MsgPlan(env, s, m).value == BuySwap(env, m, q)
  {
  }

  lemma BuyMoved(env: Env, s: State, m: Msg, q: BuyQuote, s': State)
    requires m.BuyBacking? && 0 <= q.backingOut && 0 <= q.buybackFee
    requires Flows(s, s', BuySwap(env, m, q))
    ensures BuyMoves(s, m, s', q.backingOut + q.buybackFee, q.buybackFee)
  {
  }

  lemma BuyShapes(env: Env, s: State, m: Msg, q: BuyQuote)
    requires m.BuyBacking? && QuoteBuy(env, s, m.ironIn, m.backingOutMin.denom) == Ok(q)
    ensures m.backingOutMin.denom in env.prices && IRON in env.prices && Excess(env, s).Ok?
    ensures BuyBackOut(m.ironIn, env.prices[m.backingOutMin.denom], env.prices[IRON], Excess(env, s).value)
              == Ok(q.backingOut + q.buybackFee)
    ensures m.backingOutMin.denom in s.backing.params
    ensures q.buybackFee == ComputeFee(q.backingOut + q.buybackFee, s.backing.params[m.backingOutMin.denom].buybackFee)
  {
  }

  lemma BuyQuoted(env: Env, s: State, m: Msg, q: BuyQuote)
    requires m.BuyBacking? && QuoteBuy(env, s, m.ironIn, m.backingOutMin.denom) == Ok(q)
    ensures Buys(env, s, m, q.backingOut + q.buybackFee)
  {
    BuyShapes(env, s, m, q);
    BuyBackOutBound(m.ironIn, env.prices[m.backingOutMin.denom], env.prices[IRON], Excess(env, s).value);
  }

  lemma BuyPaysAt(env: Env, s: State, m: Msg, q: BuyQuote, s': State)
    requires m.BuyBacking? && 0 <= q.backingOut && 0 <= q.buybackFee && m.backingOutMin.denom in s.backing.params
    requires q.buybackFee == ComputeFee(q.backingOut + q.buybackFee, s.backing.params[m.backingOutMin.denom].buybackFee)
    requires Buys(env, s, m, q.backingOut + q.buybackFee)
    requires Swapped(s, s', BuySwap(env, m, q))
    ensures BuyPaid(env, s, m, s')
  {
    BuyMoved(env, s, m, q, s');
  }

  lemma BuyPays(env: Env, s: State, m: Msg)
    requires m.BuyBacking?
    ensures MsgStep(env, s, m).Ok? ==> BuyPaid(env, s, m, MsgStep(env, s, m).value)
  {
    if MsgStep(env, s, m).Ok? {
      StepExecutes(env, s, m);
      BuyPlanned(env, s, m);
      var q, s' := QuoteBuy(env, s, m.ironIn, m.backingOutMin.denom).value, MsgStep(env, s, m).value;
      BuyShapes(env, s, m, q);
      BuyQuoted(env, s, m, q);
      ExecuteSwaps(s, BuySwap(env, m, q), s');
      BuyPaysAt(env, s, m, q, s');
    }
  }

  /** The iron some backing earns: what its value buys in whole units, and none without a deficit. */
  predicate Earns(pb: nat, pi: nat, amount: nat, excess: int, earned: int) {
    && 0 <= earned && (earned > 0 ==> excess < 0)
    && 2 * ONE * (pi * earned) <= 2 * ONE * (pb * amount) + pi && pb * amount < pi * (earned + 1)
  }

  /** The sender gave the backing; iron went to the receiver, and the fee to the oracle. */
  ghost predicate SellMoves(s: State, m: Msg, s': State, out: int, fee: int)
    requires m.SellBacking?
  {
    forall who, d :: Gained(s, s', who, d) ==
      When(who == Receiver(m) && d == IRON, out) + When(who == ORACLE && d == IRON, fee)
      - When(who == m.sender && d == m.backingIn.denom, m.backingIn.amount)
      + When(who == MAKER && d == m.backingIn.denom, m.backingIn.amount)
  }

  /** With what the backing earns: the receiver gets it with the bonus and less the fee. */
  ghost predicate Sold(env: Env, s: State, m: Msg, s': State, earned: int)
    requires m.SellBacking?
  {
    var b := m.backingIn.denom;
    && b in env.prices && IRON in env.prices && b in s.backing.params && b in s.backing.pools && b in s'.backing.pools
    && Excess(env, s).Ok?
    && Earns(env.prices[b], env.prices[IRON], m.backingIn.amount, Excess(env, s).value, earned)
    && var bonus, fee := ComputeFee(earned, env.params.rebackBonus), ComputeFee(earned, s.backing.params[b].rebackFee);
       && PoolChange(s, s', b) == Booked(0, m.backingIn.amount, -(earned + bonus))
       && SellMoves(s, m, s', earned + bonus - fee, fee)
  }

  /** After SellBacking. */
  ghost predicate SellPaid(env: Env, s: State, m: Msg, s': State)
    requires m.SellBacking?
  {
    exists earned: int :: Sold(env, s, m, s', earned)
  }

  function SellSwap(env: Env, m: Msg, q: SellQuote): Plan
    requires m.SellBacking? && 0 <= q.ironOut && 0 <= q.rebackFee
  {
    Swap(m.backingIn.denom, 0, m.backingIn.amount, -(q.ironOut + q.rebackFee),
         [Transfer(m.sender, MAKER, m.backingIn)], MayReceive(env, Receiver(m)),
         [Mint(Receiver(m), Coin(IRON, q.ironOut)), Mint(ORACLE, Coin(IRON, q.rebackFee))])
  }

  lemma SellPlanned(env: Env, s: State, m: Msg)
    requires m.SellBacking? && MsgPlan(env, s, m).Ok?
    ensures QuoteSell(env, s, m.backingIn).Ok?
    ensures var q := QuoteSell(env, s, m.backingIn).value;
            0 <= q.ironOut && 0 <= q.rebackFee && MsgPlan(env, s, m).value == SellSwap(env, m, q)
  {
  }

  lemma SellMoved(env: Env, s: State, m: Msg, q: SellQuote, s': State)
    requires m.SellBacking? && 0 <= q.ironOut && 0 <= q.rebackFee
    requires Flows(s, s', SellSwap(env, m, q))
    ensures SellMoves(s, m, s', q.ironOut, q.rebackFee)
  {
  }

  lemma SellShapes(env: Env, s: State, m: Msg, q: SellQuote)
    requires m.SellBacking? && QuoteSell(env, s, m.backingIn) == Ok(q)
    ensures m.backingIn.denom in env.prices && IRON in env.prices && Excess(env, s).Ok?
    ensures m.backingIn.denom in s.backing.params
    ensures var r := RebackMint(m.backingIn.amount, env.prices[m.backingIn.denom], env.prices[IRON],
                                Excess(env, s).value);
            && r.Ok? && q.rebackFee == ComputeFee(r.value, s.backing.params[m.backingIn.denom].rebackFee)
            && q.ironOut == r.value + ComputeFee(r.value, env.params.rebackBonus) - q.rebackFee
  {
  }

  lemma SellEarns(pb: nat, pi: nat, amount: nat, excess: int)
    requires RebackMint(amount, pb, pi, excess).Ok?
    ensures Earns(pb, pi, amount, excess, RebackMint(amount, pb, pi, excess).value)
  {
    RebackMintBound(amount, pb, pi, excess);
    RebackMintExact(amount, pb, pi, excess);
  }

  lemma SellPaysAt(env: Env, s: State, m: Msg, q: SellQuote, s': State)
    requires m.SellBacking? && QuoteSell(env, s, m.backingIn) == Ok(q) && 0 <= q.ironOut && 0 <= q.rebackFee
    requires Bookable(s, SellSwap(env, m, q)) && Execute(s, SellSwap(env, m, q)) == Ok(s')
    ensures SellPaid(env, s, m, s')
  {
    var b := m.backingIn.denom;
    ExecuteSwaps(s, SellSwap(env, m, q), s');
    SellMoved(env, s, m, q, s');
    SellShapes(env, s, m, q);
    var excess := Excess(env, s).value;
    SellEarns(env.prices[b], env.prices[IRON], m.backingIn.amount, excess);
    assert Sold(env, s, m, s', RebackMint(m.backingIn.amount, env.prices[b], env.prices[IRON], excess).value);
  }

  lemma SellPays(env: Env, s: State, m: Msg)
    requires m.SellBacking?
    ensures MsgStep(env, s, m).Ok? ==> SellPaid(env, s, m, MsgStep(env, s, m).value)
  {
    if MsgStep(env, s, m).Ok? {
      StepExecutes(env, s, m);
      SellPlanned(env, s, m);
      SellPaysAt(env, s, m, QuoteSell(env, s, m.backingIn).value, MsgStep(env, s, m).value);
    }
  }

  // --- Loans ----------------------------------------------------------------------

  /** The record a loan message works on: the stored one, or a new one, with its interest settled. */
  function Before(s: State, m: Msg, d: Denom): AccountCollateral
    requires d in s.collateral.params
  {
    var key := (Owner(m), d);
    var acc := if key in s.collateral.accounts then s.collateral.accounts[key]
        else AccountCollateral(0, 0, 0, 0, s.height);
    Settle(acc, s.height, s.collateral.params[d].interestFee)
  }

  /** One account's record is replaced, and no other. */
  predicate Records(s: State, s': State, who: Address, d: Denom, now: AccountCollateral) {
    s'.collateral.accounts == s.collateral.accounts[(who, d) := now]
  }

  /** What executing a loan's plan does. */
  ghost predicate Done(s: State, s': State, p: Plan) {
    p.Loan? && Records(s, s', p.who, p.denom, p.now) && Flows(s, s', p)
  }

  lemma ExecuteDoes(s: State, p: Plan, s': State)
    requires p.Loan? && Bookable(s, p) && Short(p) && Execute(s, p) == Ok(s')
    ensures Done(s, s', p)
  {
    ExecuteFlows(s, p, s');
  }

  lemma BeforeIs(s: State, m: Msg, d: Denom, allowNew: bool)
    requires AvailableCollateral(s, d).Ok? && GetCollateral(s, Owner(m), d, allowNew).Ok?
    ensures d in s.collateral.params && Settled(s, Owner(m), d, allowNew) == Before(s, m, d)
  {
  }

  /** After MintByCollateral: the receiver got what was asked and the oracle the fee, both owed. */
  ghost predicate BorrowPaid(s: State, m: Msg, s': State)
    requires m.MintByCollateral?
  {
    && m.denom in s.collateral.params
    && var fee, was := ComputeFee(m.mintOut, s.collateral.params[m.denom].mintFee), Before(s, m, m.denom);
       && Records(s, s', m.sender, m.denom, was.(gridDebt := was.gridDebt + m.mintOut + fee))
       && forall who, d :: Gained(s, s', who, d) ==
            When(who == Receiver(m) && d == USM, m.mintOut) + When(who == ORACLE && d == USM, fee)
  }

  lemma BorrowPaysAt(env: Env, s: State, m: Msg, acc: AccountCollateral, fee: nat, s': State)
    requires m.MintByCollateral? && m.denom in s.collateral.params
    requires fee == ComputeFee(m.mintOut, s.collateral.params[m.denom].mintFee)
    requires Done(s, s', MintLoan(env, m, acc, Before(s, m, m.denom), fee))
    ensures BorrowPaid(s, m, s')
  {
  }

  lemma BorrowPays(env: Env, s: State, m: Msg)
    requires m.MintByCollateral?
    ensures MsgStep(env, s, m).Ok? ==> BorrowPaid(s, m, MsgStep(env, s, m).value)
  {
    if MsgStep(env, s, m).Ok? {
      StepExecutes(env, s, m);
      MintShape(env, s, m);
      BeforeIs(s, m, m.denom, false);
      ExecuteDoes(s, MsgPlan(env, s, m).value, MsgStep(env, s, m).value);
      BorrowPaysAt(env, s, m, GetCollateral(s, m.sender, m.denom, false).value,
                   ComputeFee(m.mintOut, s.collateral.params[m.denom].mintFee), MsgStep(env, s, m).value);
    }
  }

  /** After BurnByCollateral: the sender gave what was offered, at most what is owed; the part that
      is interest went to the oracle. */
  ghost predicate RepayPaid(s: State, m: Msg, s': State)
    requires m.BurnByCollateral?
  {
    && m.denom in s.collateral.params
    && var was := Before(s, m, m.denom);
       var repay := Min(was.gridDebt, m.repayInMax);
       var interest := Min(was.lastInterest, repay);
       && Records(s, s', m.sender, m.denom,
                  was.(gridDebt := was.gridDebt - repay, lastInterest := was.lastInterest - interest))
       && forall who, d :: Gained(s, s', who, d) ==
            When(who == ORACLE && d == USM, interest) - When(who == m.sender && d == USM, repay)
  }

  lemma RepayPaysAt(s: State, m: Msg, acc: AccountCollateral, s': State)
    requires m.BurnByCollateral? && m.denom in s.collateral.params
    requires 0 <= Before(s, m, m.denom).lastInterest && 0 <= Before(s, m, m.denom).gridDebt
    requires Done(s, s', RepayLoan(m, acc, Before(s, m, m.denom)))
    ensures RepayPaid(s, m, s')
  {
  }

  lemma RepayPays(env: Env, s: State, m: Msg)
    requires m.BurnByCollateral?
    ensures MsgStep(env, s, m).Ok? ==> RepayPaid(s, m, MsgStep(env, s, m).value)
  {
    if MsgStep(env, s, m).Ok? {
      StepExecutes(env, s, m);
      RepayShape(env, s, m);
      BeforeIs(s, m, m.denom, false);
      ExecuteDoes(s, MsgPlan(env, s, m).value, MsgStep(env, s, m).value);
      RepayPaysAt(s, m, GetCollateral(s, m.sender, m.denom, false).value, MsgStep(env, s, m).value);
    }
  }

  /** After DepositCollateral: the sender gave both coins, on the receiver's record. */
  ghost predicate DepositPaid(s: State, m: Msg, s': State)
    requires m.DepositCollateral?
  {
    var c := m.collateralIn;
    && c.denom in s.collateral.params
    && var was := Before(s, m, c.denom);
       && Records(s, s', Receiver(m), c.denom,
                  was.(collateral := was.collateral + c.amount, iron := was.iron + m.ironIn))
       && forall who, d :: Gained(s, s', who, d) ==
            When(who == MAKER && d == c.denom, c.amount) - When(who == m.sender && d == c.denom, c.amount)
            + When(who == MAKER && d == IRON, m.ironIn) - When(who == m.sender && d == IRON, m.ironIn)
  }

  lemma DepositPaysAt(s: State, m: Msg, acc: AccountCollateral, s': State)
    requires m.DepositCollateral? && m.collateralIn.denom in s.collateral.params
    requires Done(s, s', DepositLoan(m, acc, Before(s, m, m.collateralIn.denom)))
    ensures DepositPaid(s, m, s')
  {
  }

  lemma DepositPays(env: Env, s: State, m: Msg)
    requires m.DepositCollateral?
    ensures MsgStep(env, s, m).Ok? ==> DepositPaid(s, m, MsgStep(env, s, m).value)
  {
    if MsgStep(env, s, m).Ok? {
      StepExecutes(env, s, m);
      DepositShape(env, s, m);
      BeforeIs(s, m, m.collateralIn.denom, true);
      ExecuteDoes(s, MsgPlan(env, s, m).value, MsgStep(env, s, m).value);
      DepositPaysAt(s, m, GetCollateral(s, Receiver(m), m.collateralIn.denom, true).value, MsgStep(env, s, m).value);
    }
  }

  /** After RedeemCollateral: the receiver got both coins, off the sender's record. */
  ghost predicate RedeemPaid(s: State, m: Msg, s': State)
    requires m.RedeemCollateral?
  {
    var c := m.collateralOut;
    && c.denom in s.collateral.params
    && var was := Before(s, m, c.denom);
       && Records(s, s', m.sender, c.denom,
                  was.(collateral := was.collateral - c.amount, iron := was.iron - m.ironOut))
       && forall who, d :: Gained(s, s', who, d) ==
            When(who == Receiver(m) && d == c.denom, c.amount) - When(who == MAKER && d == c.denom, c.amount)
            + When(who == Receiver(m) && d == IRON, m.ironOut) - When(who == MAKER && d == IRON, m.ironOut)
  }

  lemma RedeemPaysAt(env: Env, s: State, m: Msg, acc: AccountCollateral, s': State)
    requires m.RedeemCollateral? && m.collateralOut.denom in s.collateral.params
    requires Done(s, s', RedeemLoan(env, m, acc, Before(s, m, m.collateralOut.denom)))
    ensures RedeemPaid(s, m, s')
  {
  }

  lemma RedeemPays(env: Env, s: State, m: Msg)
    requires m.RedeemCollateral?
    ensures MsgStep(env, s, m).Ok? ==> RedeemPaid(s, m, MsgStep(env, s, m).value)
  {
    if MsgStep(env, s, m).Ok? {
      StepExecutes(env, s, m);
      RedeemShape(env, s, m);
      BeforeIs(s, m, m.collateralOut.denom, false);
      ExecuteDoes(s, MsgPlan(env, s, m).value, MsgStep(env, s, m).value);
      RedeemPaysAt(env, s, m, GetCollateral(s, m.sender, m.collateralOut.denom, false).value, MsgStep(env, s, m).value);
    }
  }

  /** The price of seized collateral: its value less the liquidation fee, in whole micro-dollars. */
  predicate PricedAt(seized: nat, fee: Dec, pc: nat, repayIn: int) {
    var net := seized * ((ONE - fee) * pc);
    0 <= repayIn && 2 * ONE * (repayIn * ONE) <= 2 * net + ONE && net < (repayIn + 1) * ONE * ONE
  }

  /** The commission on it: the oracle's share of the liquidation fee, in whole units. */
  predicate CommissionedAt(seized: nat, fee: Dec, rate: Dec, commission: int) {
    var exact := seized * fee * rate;
    0 <= commission <= seized && 2 * ONE * (commission * ONE) <= 2 * exact + ONE && exact < (commission + 1) * ONE * ONE
  }

  /** After LiquidateCollateral: the sender paid the price of the seizure; the debt took of it what
      was owed, and the debtor got the rest; the collateral seized went to the receiver, but
      for the commission to the oracle. */
  ghost predicate LiquidationPaid(env: Env, s: State, m: Msg, s': State)
    requires m.LiquidateCollateral?
  {
    var c := m.seize;
    && c.denom in s.collateral.params && c.denom in env.prices
    && exists repayIn: int, commission: int ::
         && PricedAt(c.amount, s.collateral.params[c.denom].terms.liquidationFee, env.prices[c.denom], repayIn)
         && CommissionedAt(c.amount, s.collateral.params[c.denom].terms.liquidationFee, env.params.commissionFee,
                           commission)
         && Seized(s, m, s', repayIn, commission)
  }

  /** The payment went to the debt and the debtor, the collateral to the receiver and the oracle. */
  ghost predicate SeizureMoves(s: State, m: Msg, s': State, repayIn: int, debt: int, commission: int)
    requires m.LiquidateCollateral?
  {
    forall who, d :: Gained(s, s', who, d) ==
      When(who == m.debtor && d == USM, repayIn - debt) - When(who == m.sender && d == USM, repayIn)
      + When(who == Receiver(m) && d == m.seize.denom, m.seize.amount - commission)
      + When(who == ORACLE && d == m.seize.denom, commission)
      - When(who == MAKER && d == m.seize.denom, m.seize.amount)
  }

  ghost predicate Seized(s: State, m: Msg, s': State, repayIn: int, commission: int)
    requires m.LiquidateCollateral? && m.seize.denom in s.collateral.params
  {
    var c, was := m.seize, Before(s, m, m.seize.denom);
    var debt := Min(was.gridDebt, repayIn);
    && Records(s, s', m.debtor, c.denom,
               was.(collateral := was.collateral - c.amount, gridDebt := was.gridDebt - debt,
                    lastInterest := was.lastInterest - Min(was.lastInterest, debt)))
    && SeizureMoves(s, m, s', repayIn, debt, commission)
  }

  lemma LiquidationPlanned(env: Env, s: State, m: Msg)
    requires m.LiquidateCollateral? && MsgPlan(env, s, m).Ok?
    ensures QuoteLiquidation(env, s, m).Ok?
    ensures var q := QuoteLiquidation(env, s, m).value;
            && 0 <= q.RepayDebt() && 0 <= q.collateralOut && 0 <= q.commission
            && MsgPlan(env, s, m).value == LiquidationLoan(env, m, q)
            && m.seize.denom in s.collateral.params && q.settled == Before(s, m, m.seize.denom)
  {
  }

  lemma LiquidationMoved(env: Env, s: State, m: Msg, q: Liquidation, s': State)
    requires m.LiquidateCollateral? && 0 <= q.RepayDebt() && 0 <= q.collateralOut && 0 <= q.commission
    requires q.collateralOut + q.commission == m.seize.amount
    requires Flows(s, s', LiquidationLoan(env, m, q))
    ensures SeizureMoves(s, m, s', q.repayIn, q.RepayDebt(), q.commission)
  {
    var p := LiquidationLoan(env, m, q);
    forall who, d
      ensures Shift(p.ins, who, d)
                == When(who == m.debtor && d == USM, q.repayIn - q.RepayDebt())
                    - When(who == m.sender && d == USM, q.repayIn)
      ensures Shift(p.outs, who, d)
                == When(who == Receiver(m) && d == m.seize.denom, q.collateralOut)
                   + When(who == ORACLE && d == m.seize.denom, q.commission)
                   - When(who == MAKER && d == m.seize.denom, m.seize.amount)
    {
    }
  }

  lemma LiquidationSeized(env: Env, s: State, m: Msg, q: Liquidation, s': State)
    requires m.LiquidateCollateral? && 0 <= q.RepayDebt() && 0 <= q.collateralOut && 0 <= q.commission
    requires m.seize.denom in s.collateral.params && q.settled == Before(s, m, m.seize.denom)
    requires q.collateralOut + q.commission == m.seize.amount
    requires Done(s, s', LiquidationLoan(env, m, q))
    ensures Seized(s, m, s', q.repayIn, q.commission)
  {
    LiquidationMoved(env, s, m, q, s');
  }

  lemma SeizurePriced(c: Coin, fee: Dec, rate: Dec, pc: nat)
    requires 0 <= fee <= ONE && 0 <= rate <= ONE
    ensures PricedAt(c.amount, fee, pc, LiquidationPrice(c.amount, fee, pc))
    ensures CommissionedAt(c.amount, fee, rate, Commission(c.amount, fee, rate))
  {
    LiquidationPriceBound(c.amount, fee, pc);
    CommissionBound(c.amount, fee, rate);
  }

  lemma LiquidationQuoted(env: Env, s: State, m: Msg, q: Liquidation)
    requires CollateralOk(s.collateral, s.height) && EnvOk(env) && m.LiquidateCollateral?
    requires QuoteLiquidation(env, s, m) == Ok(q)
    ensures m.seize.denom in s.collateral.params && m.seize.denom in env.prices
    ensures q.collateralOut + q.commission == m.seize.amount
    ensures var fee := s.collateral.params[m.seize.denom].terms.liquidationFee;
            && PricedAt(m.seize.amount, fee, env.prices[m.seize.denom], q.repayIn)
            && CommissionedAt(m.seize.amount, fee, env.params.commissionFee, q.commission)
  {
    var c := m.seize;
    QuoteShape(env, s, m);
    assert CollateralParamsOk(s.collateral.params[c.denom]);
    SeizurePriced(c, s.collateral.params[c.denom].terms.liquidationFee, env.params.commissionFee, env.prices[c.denom]);
  }

  lemma LiquidationPays(env: Env, s: State, m: Msg)
    requires CollateralOk(s.collateral, s.height) && EnvOk(env) && m.LiquidateCollateral?
    ensures MsgStep(env, s, m).Ok? ==> LiquidationPaid(env, s, m, MsgStep(env, s, m).value)
  {
    if MsgStep(env, s, m).Ok? {
      StepExecutes(env, s, m);
      LiquidationPlanned(env, s, m);
      var q, s' := QuoteLiquidation(env, s, m).value, MsgStep(env, s, m).value;
      LiquidationQuoted(env, s, m, q);
      ExecuteDoes(s, LiquidationLoan(env, m, q), s');
      LiquidationSeized(env, s, m, q, s');
    }
  }

  /** The four payments of a liquidation between different accounts. */
  predicate Settles(s: State, m: Msg, s': State, repayIn: int, commission: int)
    requires m.LiquidateCollateral? && m.seize.denom in s.collateral.params
  {
    && Gained(s, s', m.sender, USM) == 0 - repayIn
    && Gained(s, s', m.debtor, USM) == Max(0, repayIn - Before(s, m, m.seize.denom).gridDebt)
    && Gained(s, s', Receiver(m), m.seize.denom) == m.seize.amount - commission
    && Gained(s, s', ORACLE, m.seize.denom) == commission
  }

  predicate Strangers(m: Msg)
    requires m.LiquidateCollateral?
  {
    && m.sender != m.debtor && m.sender !in {ORACLE, MAKER} && m.debtor !in {ORACLE, MAKER}
    && Receiver(m) !in {m.debtor, ORACLE, MAKER}
    && (Receiver(m) == m.sender ==> m.seize.denom != USM)
  }

  lemma SeizureSettles(s: State, m: Msg, s': State, repayIn: int, commission: int)
    requires m.LiquidateCollateral? && m.seize.denom in s.collateral.params && Strangers(m)
    requires Seized(s, m, s', repayIn, commission)
    ensures Settles(s, m, s', repayIn, commission)
  {
  }

  /** Between different accounts: the sender pays the price of the seizure, the debtor gets what
      is left of it after the debt, the receiver the collateral less the commission, and the
      oracle the commission. */
  lemma LiquidationSettles(env: Env, s: State, m: Msg)
    requires CollateralOk(s.collateral, s.height) && EnvOk(env) && m.LiquidateCollateral? && Strangers(m)
    ensures MsgStep(env, s, m).Ok? ==>
              && m.seize.denom in s.collateral.params && m.seize.denom in env.prices
              && var fee := s.collateral.params[m.seize.denom].terms.liquidationFee;
                 exists repayIn: int, commission: int ::
                   && PricedAt(m.seize.amount, fee, env.prices[m.seize.denom], repayIn)
                   && CommissionedAt(m.seize.amount, fee, env.params.commissionFee, commission)
                   && Settles(s, m, MsgStep(env, s, m).value, repayIn, commission)
  {
    LiquidationPays(env, s, m);
    if MsgStep(env, s, m).Ok? {
      var s' := MsgStep(env, s, m).value;
      var fee := s.collateral.params[m.seize.denom].terms.liquidationFee;
      var repayIn: int, commission: int :|
        && PricedAt(m.seize.amount, fee, env.prices[m.seize.denom], repayIn)
        && CommissionedAt(m.seize.amount, fee, env.params.commissionFee, commission)
        && Seized(s, m, s', repayIn, commission);
      SeizureSettles(s, m, s', repayIn, commission);
    }
  }
}
