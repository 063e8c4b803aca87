/**
 When a swap is quoted: the exact conditions, in prices, pools and ceilings.
 */
module MakerQuotes {
  import opened FixedPoint
  import opened Results
  import opened Bank
  import opened SwapMath
  import opened MakerState
  import opened MakerSpec
  import opened MakerInvariant

  // --- The peg --------------------------------------------------------------------

  /** Stablecoins are worth enough above their target to mint more. */
  predicate AbovePeg(env: Env) {
    USM in env.prices && ONE + env.params.mintPriceBias <= env.prices[USM]
  }

  /** Stablecoins are worth so little below their target that they may be burned. */
  predicate BelowPeg(env: Env) {
    USM in env.prices && env.prices[USM] <= ONE - env.params.mintPriceBias
  }

  lemma PegChecks(env: Env)
    ensures CheckMintPrice(env).Ok? <==> AbovePeg(env)
    ensures CheckBurnPrice(env).Ok? <==> BelowPeg(env)
  {
    MulWhole(1, ONE + env.params.mintPriceBias);
    MulWhole(1, ONE - env.params.mintPriceBias);
  }

  /** Swaps mint only above the peg. */
  lemma MintsAbovePeg(env: Env, s: State, m: Msg)
    requires m.MintBySwap?
    ensures MsgStep(env, s, m).Ok? ==> USM in env.prices && ONE + env.params.mintPriceBias <= env.prices[USM]
  {
    PegChecks(env);
  }

  /** Swaps burn only below the peg. */
  lemma BurnsBelowPeg(env: Env, s: State, m: Msg)
    requires m.BurnBySwap?
    ensures MsgStep(env, s, m).Ok? ==> USM in env.prices && env.prices[USM] <= ONE - env.params.mintPriceBias
  {
    PegChecks(env);
  }

  // --- The quotes -----------------------------------------------------------------

  /** A backing coin that may be swapped: enabled, with a pool, and priced along with iron. */
  predicate Tradable(env: Env, s: State, d: Denom) {
    && d in s.backing.params && s.backing.params[d].enabled
    && s.backing.total.Some? && d in s.backing.pools
    && d in env.prices && IRON in env.prices
  }

  predicate UnderCeiling(amount: int, limit: Option<int>) {
    limit.Some? ==> amount <= limit.value
  }

  /** What the maker can pay out of a pool. */
  function Payable(s: State, d: Denom): int
    requires d in s.backing.pools
  {
    Min(s.backing.pools[d].backing, s.bank.Balance(MAKER, d))
  }

  /** The value the coins offered cover: the least that any of them covers for its share. */
  function Covered(ratio: Dec, pb: Dec, pi: Dec, backingMax: int, ironMax: int, full: bool): Dec {
    if ratio >= ONE || full then pb * backingMax
    else if ratio <= 0 then pi * ironMax
    else if backingMax <= 0 then Quo(pi * ironMax, ONE - ratio)
    else if ironMax == 0 then Quo(pb * backingMax, ratio)
    else Min(Quo(pb * backingMax, ratio), Quo(pi * ironMax, ONE - ratio))
  }

  /** The coin whose amount is left to the maker, if any, has a price to divide by. */
  predicate Computable(ratio: Dec, pb: Dec, pi: Dec, backingMax: int, ironMax: int, full: bool) {
    0 < ratio < ONE && !full ==> 0 < ComputedLegPrice(ratio, pb, pi, backingMax, ironMax, full)
  }

  lemma LegsWhen(ratio: Dec, pb: Dec, pi: Dec, backingMax: int, ironMax: int, full: bool)
    requires 0 <= ratio
    ensures MintLegs(ratio, pb, pi, backingMax, ironMax, full).Ok? <==>
              Computable(ratio, pb, pi, backingMax, ironMax, full)
    ensures MintLegs(ratio, pb, pi, backingMax, ironMax, full).Ok? ==>
              MintLegs(ratio, pb, pi, backingMax, ironMax, full).value.usd
                == Covered(ratio, pb, pi, backingMax, ironMax, full)
  {
  }

  /** Room under both ceilings for the whole stablecoins a value is worth, and for the backing. */
  predicate MintFits(s: State, d: Denom, usd: Dec, backingIn: int)
    requires d in s.backing.params && d in s.backing.pools
  {
    var p, pool := s.backing.params[d], s.backing.pools[d];
    && (p.maxGridMint.Some? ==> usd < (p.maxGridMint.value - pool.gridMinted + 1) * ONE)
    && UnderCeiling(pool.backing + backingIn, p.maxBacking)
  }

  /** A mint is quoted exactly above the peg, for a coin that may be swapped, at prices that can
      be divided by, when neither the stablecoins nor the backing pass their ceilings. */
  lemma MintQuotedWhen(env: Env, s: State, backing: Coin, ironMax: nat, full: bool)
    ensures QuoteMint(env, s, backing, ironMax, full).Ok? <==>
              && AbovePeg(env) && Tradable(env, s, backing.denom)
              && var pb, pi := env.prices[backing.denom], env.prices[IRON];
                 && Computable(s.ratio, pb, pi, backing.amount, ironMax, full)
                 && MintFits(s, backing.denom, Covered(s.ratio, pb, pi, backing.amount, ironMax, full),
                             MintLegs(s.ratio, pb, pi, backing.amount, ironMax, full).value.backingIn)
  {
    PegChecks(env);
    if Tradable(env, s, backing.denom) {
      var pb, pi := env.prices[backing.denom], env.prices[IRON];
      LegsWhen(s.ratio, pb, pi, backing.amount, ironMax, full);
      if Computable(s.ratio, pb, pi, backing.amount, ironMax, full) {
        MintLegsBound(s.ratio, pb, pi, backing.amount, ironMax, full);
        MintTotalBound(Covered(s.ratio, pb, pi, backing.amount, ironMax, full));
      }
    }
  }

  /** A burn is quoted exactly below the peg, for a coin that may be swapped, at prices that can
      be divided by, when the maker can pay the backing its share of the burn buys. */
  lemma BurnQuotedWhen(env: Env, s: State, burnIn: nat, d: Denom)
    requires BackingOk(s.backing)
    ensures QuoteBurn(env, s, burnIn, d).Ok? <==>
              && BelowPeg(env) && Tradable(env, s, d)
              && (0 < s.ratio ==> 0 < env.prices[d]) && (s.ratio < ONE ==> 0 < env.prices[IRON])
              && (0 < s.ratio ==>
                    (burnIn - ComputeFee(burnIn, s.backing.params[d].burnFee)) * Min(s.ratio, ONE)
                      < env.prices[d] * (Payable(s, d) + 1))
  {
    PegChecks(env);
    if Tradable(env, s, d) {
      var fee := ComputeFee(burnIn, s.backing.params[d].burnFee);
      FeeWithin(burnIn, s.backing.params[d].burnFee);
      PayoutWhen(s.ratio, env.prices[d], env.prices[IRON], burnIn - fee, Payable(s, d));
    }
  }

  lemma PayoutWhen(ratio: Dec, pb: Dec, pi: Dec, burned: int, limit: int)
    requires 0 <= ratio && 0 <= pb && 0 <= pi && 0 <= burned && 0 <= limit
    ensures BurnPayout(ratio, pb, pi, burned).Ok? <==> (0 < ratio ==> 0 < pb) && (ratio < ONE ==> 0 < pi)
    ensures BurnPayout(ratio, pb, pi, burned).Ok? ==>
              (BurnPayout(ratio, pb, pi, burned).value.backingOut <= limit <==>
                 (0 < ratio ==> burned * Min(ratio, ONE) < pb * (limit + 1)))
  {
    var pay := BurnPayout(ratio, pb, pi, burned);
    if pay.Ok? {
      BurnPayoutExact(ratio, pb, pi, burned);
      if 0 < ratio {
        FloorWithin(burned * Min(ratio, ONE), pb, pay.value.backingOut, limit);
      }
    }
  }

  /** A whole number of units is within a limit when what it was cut from is below one more. */
  lemma FloorWithin(x: int, price: int, units: int, limit: int)
    requires 0 < price && price * units <= x < price * (units + 1)
    ensures units <= limit <==> x < price * (limit + 1)
  {
    if units <= limit {
      MulMono(units + 1, limit + 1, price);
    } else {
      MulMono(limit + 1, units, price);
    }
  }

  /** A buyback is quoted exactly when the iron is worth no more than the excess backing and the
      maker can pay what it buys. */
  lemma BuyQuotedWhen(env: Env, s: State, ironIn: nat, d: Denom)
    ensures QuoteBuy(env, s, ironIn, d).Ok? <==>
              && Tradable(env, s, d) && Excess(env, s).Ok?
              && env.prices[IRON] * ironIn <= Excess(env, s).value * ONE
              && 0 < env.prices[d]
              && Quo(env.prices[IRON] * ironIn, env.prices[d]) < (Payable(s, d) + 1) * ONE
  {
    if Tradable(env, s, d) {
      var pb, pi := env.prices[d], env.prices[IRON];
      MulWhole(ironIn, pi);
      assert ironIn * pi == pi * ironIn;
      if 0 < pb {
        WholeWithin(pi * ironIn, pb, Payable(s, d));
      }
    }
  }

  lemma WholeWithin(value: Dec, price: Dec, limit: int)
    requires 0 <= value && 0 < price
    ensures TruncateInt(Quo(value, price)) <= limit <==> Quo(value, price) < (limit + 1) * ONE
  {
    var q := Quo(value, price);
    HalfEvenNonneg(value * ONE, price);
    DivMod(q, ONE);
    FloorWithin(q, ONE, q / ONE, limit);
  }

  /** A sale is quoted exactly when the backing fits under its ceiling and the iron it earns is
      worth no more than the deficit. */
  lemma SellQuotedWhen(env: Env, s: State, backing: Coin)
    ensures QuoteSell(env, s, backing).Ok? <==>
              && Tradable(env, s, backing.denom) && Excess(env, s).Ok?
              && UnderCeiling(s.backing.pools[backing.denom].backing + backing.amount,
                        s.backing.params[backing.denom].maxBacking)
              && 0 < env.prices[IRON]
              && Quo(env.prices[backing.denom] * backing.amount, env.prices[IRON]) / ONE * ONE
                   <= Quo(0 - Excess(env, s).value * ONE, env.prices[IRON])
  {
    if Tradable(env, s, backing.denom) {
      var pb, pi := env.prices[backing.denom], env.prices[IRON];
      MulWhole(backing.amount, pb);
      assert backing.amount * pb == pb * backing.amount;
      if 0 < pi {
        HalfEvenNonneg(pb * backing.amount * ONE, pi);
      }
    }
  }
}
