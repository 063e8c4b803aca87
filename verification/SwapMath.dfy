/**
 The arithmetic of swapping between the stablecoin and its backing: minting, burning,
 buying back and recapitalising, with the value bounds that survive the rounding.

 Prices are decimals per smallest unit; a value is a decimal amount of micro-dollars.
 */
module SwapMath {
  import opened FixedPoint
  import opened Results

  /** The fee on an amount, rounded half to even. */
  function ComputeFee(amount: int, rate: Dec): int {
    RoundInt(Mul(amount * ONE, rate))
  }

  /** A rate in [0, 1] never charges more than the amount. */
  lemma FeeWithin(amount: int, rate: Dec)
    requires 0 <= amount && 0 <= rate <= ONE
    ensures 0 <= ComputeFee(amount, rate) <= amount
  {
    MulWhole(amount, rate);
    MulMono(rate, ONE, amount);
    HalfEvenMono(amount * rate, amount * ONE, ONE);
    HalfEvenExact(amount, ONE);
    HalfEvenNonneg(amount * rate, ONE);
  }

  /** The fee is the nearest whole amount to the exact one. */
  lemma FeeNearest(amount: int, rate: Dec)
    ensures -ONE <= 2 * (ONE * ComputeFee(amount, rate) - amount * rate) <= ONE
  {
    MulWhole(amount, rate);
  }

  // --- Minting --------------------------------------------------------------------

  /** What a mint takes, and the dollar value it mints. */
  datatype Legs = Legs(backingIn: int, ironIn: int, usd: Dec)

  /** In the fractional branch: does the backing cap decide the size of the mint? */
  predicate BackingDecides(ratio: Dec, pb: Dec, pi: Dec, backingMax: int, ironMax: int)
    requires 0 < ratio < ONE
  {
    backingMax > 0 && (ironMax == 0 || Quo(pb * backingMax, ratio) <= Quo(pi * ironMax, ONE - ratio))
  }

  /** A cap of zero means the caller set none. */
  function Capped(amount: int, cap: int): int {
    if cap > 0 && cap < amount then cap else amount
  }

  /** The whole units that cover a value at a price. */
  function UnitsUp(usd: Dec, price: Dec): int
    requires price > 0
  {
    RoundInt(QuoRoundUp(usd, price))
  }

  predicate SwapInputs(ratio: Dec, pb: Dec, pi: Dec, backingMax: int, ironMax: int) {
    0 <= ratio && 0 <= pb && 0 <= pi && 0 <= backingMax && 0 <= ironMax
  }

  /** The amounts a mint takes; dividing by a zero price panics. */
  function MintLegs(ratio: Dec, pb: Dec, pi: Dec, backingMax: int, ironMax: int, full: bool): Result<Legs>
    requires 0 <= ratio
  {
    if ratio >= ONE || full then
      Ok(Legs(backingMax, 0, pb * backingMax))
    else if ratio == 0 then
      Ok(Legs(0, ironMax, pi * ironMax))
    else if BackingDecides(ratio, pb, pi, backingMax, ironMax) then
      var usd := Quo(pb * backingMax, ratio);
      :- Need(pi > 0, Panic);
      Ok(Legs(backingMax, Capped(UnitsUp(Mul(usd, ONE - ratio), pi), ironMax), usd))
    else
      var usd := Quo(pi * ironMax, ONE - ratio);
      :- Need(pb > 0, Panic);
      Ok(Legs(Capped(UnitsUp(Mul(usd, ratio), pb), backingMax), ironMax, usd))
  }

  /** The price of the one leg that is computed rather than given by the caller. */
  function ComputedLegPrice(ratio: Dec, pb: Dec, pi: Dec, backingMax: int, ironMax: int, full: bool): Dec {
    if ratio >= ONE || full || ratio <= 0 then 0
    else if BackingDecides(ratio, pb, pi, backingMax, ironMax) then pi
    else pb
  }

  /** Rounding to whole units loses at most half a unit's price. */
  lemma UnitsUpCover(usd: Dec, price: Dec)
    requires usd >= 0 && price > 0
    ensures UnitsUp(usd, price) >= 0
    ensures 2 * usd <= 2 * (price * UnitsUp(usd, price)) + price
  {
    var q := QuoRoundUp(usd, price);
    DivMod(usd * ONE + price - 1, price);
    DivNonneg(usd * ONE + price - 1, price);
    HalfEvenNonneg(q, ONE);
    CoverArith(usd, price, q, UnitsUp(usd, price));
  }

  lemma CoverArith(usd: int, price: int, q: int, i: int)
    requires price > 0
    requires usd * ONE <= price * q
    requires 2 * q - ONE <= 2 * ONE * i
    ensures 2 * usd <= 2 * (price * i) + price
  {
    MulMono(2 * q - ONE, 2 * ONE * i, price);
    assert price * (2 * q - ONE) == 2 * (price * q) - ONE * price;
    assert price * (2 * ONE * i) == ONE * (2 * (price * i));
  }

  lemma DivNonneg(n: int, d: int)
    requires n >= 0 && d > 0
    ensures n / d >= 0
  {
  }

  /** And takes at most half a unit's price, and a unit in the 18th decimal of it, more than
      the value. */
  lemma UnitsUpTight(usd: Dec, price: Dec)
    requires usd >= 0 && price > 0
    ensures 2 * ONE * (price * UnitsUp(usd, price)) <= 2 * ONE * usd + ONE * price + 2 * price
  {
    var q := QuoRoundUp(usd, price);
    DivMod(usd * ONE + price - 1, price);
    TightArith(usd, price, q, UnitsUp(usd, price));
  }

  lemma TightArith(usd: int, price: int, q: int, i: int)
    requires price > 0
    requires price * q <= usd * ONE + price - 1
    requires 2 * ONE * i <= 2 * q + ONE
    ensures 2 * ONE * (price * i) <= 2 * ONE * usd + ONE * price + 2 * price
  {
    MulMono(2 * ONE * i, 2 * q + ONE, price);
    assert price * (2 * ONE * i) == 2 * ONE * (price * i);
    assert price * (2 * q + ONE) == 2 * (price * q) + ONE * price;
  }

  /** The mint one coin supports, given the coin's value and its share of the mint. */
  lemma ShareRounding(given: Dec, weight: Dec)
    requires 0 <= given && 0 < weight < ONE
    ensures var usd := Quo(given, weight);
            0 <= usd && -weight <= 2 * (weight * usd - given * ONE) <= weight
  {
    HalfEvenNonneg(given * ONE, weight);
  }

  lemma RestRounding(usd: Dec, weight: Dec)
    requires 0 <= usd && 0 < weight < ONE
    ensures 0 <= Mul(usd, ONE - weight)
    ensures -ONE <= 2 * (ONE * Mul(usd, ONE - weight) - (ONE * usd - weight * usd)) <= ONE
  {
    assert usd * (ONE - weight) == ONE * usd - weight * usd;
    MulMono(0, usd, ONE - weight);
    HalfEvenNonneg(usd * (ONE - weight), ONE);
  }

  /** One coin decides, the other's leg is rounded up to whole units. */
  lemma DecidedMintBound(given: Dec, weight: Dec, price: Dec)
    requires 0 <= given && 0 < weight < ONE && price > 0
    ensures var usd := Quo(given, weight);
            && 0 <= usd
            && 0 <= UnitsUp(Mul(usd, ONE - weight), price)
            && 2 * usd <= 2 * (given + price * UnitsUp(Mul(usd, ONE - weight), price)) + price + 2
  {
    ShareRounding(given, weight);
    var usd := Quo(given, weight);
    RestRounding(usd, weight);
    UnitsUpCover(Mul(usd, ONE - weight), price);
  }

  /** The coins taken are worth little more than the mint. */
  lemma DecidedMintTight(given: Dec, weight: Dec, price: Dec)
    requires 0 <= given && 0 < weight < ONE && price > 0
    ensures var usd := Quo(given, weight);
            2 * ONE * (given + price * UnitsUp(Mul(usd, ONE - weight), price)) <= 2 * ONE * usd + ONE * price
                + 2 * price + 2 * ONE
  {
    ShareRounding(given, weight);
    var usd := Quo(given, weight);
    RestRounding(usd, weight);
    UnitsUpTight(Mul(usd, ONE - weight), price);
  }

  /** Both caps given: the smaller mint is covered by both caps together. */
  lemma CappedMintBound(given: Dec, other: Dec, weight: Dec)
    requires 0 <= given && 0 <= other && 0 < weight < ONE
    requires Quo(given, weight) <= Quo(other, ONE - weight)
    ensures Quo(given, weight) <= given + other + 1
  {
    ShareRounding(given, weight);
    ShareRounding(other, ONE - weight);
    var u, w := Quo(given, weight), Quo(other, ONE - weight);
    SharesAdd(u, w, weight, given, other);
  }

  lemma SharesAdd(u: int, w: int, weight: int, given: int, other: int)
    requires 0 < weight < ONE && u <= w
    requires 2 * (weight * u) <= 2 * (given * ONE) + weight
    requires 2 * ((ONE - weight) * w) <= 2 * (other * ONE) + (ONE - weight)
    ensures u <= given + other + 1
  {
    MulMono(u, w, ONE - weight);
    assert (ONE - weight) * u == ONE * u - weight * u;
  }

  /** A positive cap is never exceeded, and the value minted is at most the value taken
      plus half the price of the computed leg plus one unit in the 18th decimal. */
  lemma MintLegsBound(ratio: Dec, pb: Dec, pi: Dec, backingMax: int, ironMax: int, full: bool)
    requires SwapInputs(ratio, pb, pi, backingMax, ironMax)
    requires MintLegs(ratio, pb, pi, backingMax, ironMax, full).Ok?
    ensures var legs := MintLegs(ratio, pb, pi, backingMax, ironMax, full).value;
            && 0 <= legs.backingIn && 0 <= legs.ironIn && 0 <= legs.usd
            && (backingMax > 0 ==> legs.backingIn <= backingMax)
            && (ironMax > 0 ==> legs.ironIn <= ironMax)
            && 2 * legs.usd <= 2 * (pb * legs.backingIn + pi * legs.ironIn)
                               + ComputedLegPrice(ratio, pb, pi, backingMax, ironMax, full) + 2
  {
    MulMono(0, pb, backingMax);
    MulMono(0, pi, ironMax);
    if ratio >= ONE || full || ratio == 0 {
      return;
    }
    var legs := MintLegs(ratio, pb, pi, backingMax, ironMax, full).value;
    if BackingDecides(ratio, pb, pi, backingMax, ironMax) {
      DecidedMintBound(pb * backingMax, ratio, pi);
      if ironMax > 0 { CappedMintBound(pb * backingMax, pi * ironMax, ratio); }
    } else {
      assert ONE - (ONE - ratio) == ratio;
      DecidedMintBound(pi * ironMax, ONE - ratio, pb);
      if backingMax > 0 { CappedMintBound(pi * ironMax, pb * backingMax, ONE - ratio); }
    }
  }

  /** The other way round: the coins taken are worth at most the value minted for, plus half
      the price of the computed leg, a unit in the 18th decimal of it and one more unit. */
  lemma MintLegsTight(ratio: Dec, pb: Dec, pi: Dec, backingMax: int, ironMax: int, full: bool)
    requires SwapInputs(ratio, pb, pi, backingMax, ironMax)
    requires MintLegs(ratio, pb, pi, backingMax, ironMax, full).Ok?
    ensures var legs := MintLegs(ratio, pb, pi, backingMax, ironMax, full).value;
            var leg := ComputedLegPrice(ratio, pb, pi, backingMax, ironMax, full);
            2 * ONE * (pb * legs.backingIn + pi * legs.ironIn) <= 2 * ONE * legs.usd + ONE * leg + 2 * leg + 2 * ONE
  {
    if ratio >= ONE || full || ratio == 0 {
      return;
    }
    var legs := MintLegs(ratio, pb, pi, backingMax, ironMax, full).value;
    MulMono(0, pb, backingMax);
    MulMono(0, pi, ironMax);
    if BackingDecides(ratio, pb, pi, backingMax, ironMax) {
      DecidedMintTight(pb * backingMax, ratio, pi);
      MulMono(legs.ironIn, UnitsUp(Mul(legs.usd, ONE - ratio), pi), pi);
    } else {
      assert ONE - (ONE - ratio) == ratio;
      DecidedMintTight(pi * ironMax, ONE - ratio, pb);
      MulMono(legs.backingIn, UnitsUp(Mul(legs.usd, ratio), pb), pb);
    }
  }

  /** An amount of a coin is worth a share of a value, up to half the coin's price and a unit in the
      18th decimal of either. */
  predicate NearShare(price: Dec, amount: int, share: Dec, usd: Dec) {
    && 2 * (share * usd - ONE * (price * amount)) <= ONE * price + ONE
    && 2 * (ONE * (price * amount) - share * usd) <= ONE * price + 2 * price + ONE
  }

  lemma GivenShare(price: Dec, amount: int, share: Dec)
    requires 0 <= price && 0 < share < ONE && 0 <= amount
    ensures NearShare(price, amount, share, Quo(price * amount, share))
  {
    MulMono(0, price, amount);
    ShareRounding(price * amount, share);
    assert (price * amount) * ONE == ONE * (price * amount);
  }

  lemma ComputedShare(price: Dec, share: Dec, usd: Dec)
    requires 0 < price && 0 < share < ONE && 0 <= usd
    ensures NearShare(price, UnitsUp(Mul(usd, share), price), share, usd)
  {
    RestRounding(usd, ONE - share);
    assert ONE - (ONE - share) == share;
    UnitsUpCover(Mul(usd, share), price);
    UnitsUpTight(Mul(usd, share), price);
    assert ONE * usd - (ONE - share) * usd == share * usd;
  }

  /** A cap below the computed amount still covers the share, when its own mint is no smaller. */
  lemma CappedShare(price: Dec, cap: int, share: Dec, usd: Dec)
    requires 0 < price && 0 < share < ONE && 0 <= usd && 0 < cap
    requires usd <= Quo(price * cap, share)
    ensures NearShare(price, Capped(UnitsUp(Mul(usd, share), price), cap), share, usd)
  {
    var units := UnitsUp(Mul(usd, share), price);
    ComputedShare(price, share, usd);
    if cap < units {
      MulMono(0, price, cap);
      ShareRounding(price * cap, share);
      CapArithmetic(price, cap, units, share, usd, Quo(price * cap, share));
    }
  }

  lemma CapArithmetic(price: int, cap: int, units: int, share: int, usd: int, most: int)
    requires 0 < price && 0 < share < ONE && cap < units && usd <= most
    requires 2 * (share * most - price * cap * ONE) <= share
    requires NearShare(price, units, share, usd)
    ensures NearShare(price, cap, share, usd)
  {
    MulMono(usd, most, share);
    MulMono(cap, units, price);
    assert price * cap * ONE == ONE * (price * cap);
  }

  /** Which coins a mint takes: backing alone when fully backed or so chosen, iron alone at ratio
      zero, and otherwise backing for the ratio's share of the value and iron for the rest. */
  lemma MintLegsShares(ratio: Dec, pb: Dec, pi: Dec, backingMax: int, ironMax: int, full: bool)
    requires SwapInputs(ratio, pb, pi, backingMax, ironMax)
    requires MintLegs(ratio, pb, pi, backingMax, ironMax, full).Ok?
    ensures var legs := MintLegs(ratio, pb, pi, backingMax, ironMax, full).value;
            if ratio >= ONE || full then legs == Legs(backingMax, 0, pb * backingMax)
            else if ratio == 0 then legs == Legs(0, ironMax, pi * ironMax)
            else
              && (legs.backingIn == backingMax || legs.ironIn == ironMax)
              && NearShare(pb, legs.backingIn, ratio, legs.usd) && NearShare(pi, legs.ironIn, ONE - ratio, legs.usd)
  {
    if ratio >= ONE || full || ratio == 0 {
      return;
    }
    MulMono(0, pb, backingMax);
    MulMono(0, pi, ironMax);
    if BackingDecides(ratio, pb, pi, backingMax, ironMax) {
      var usd := Quo(pb * backingMax, ratio);
      ShareRounding(pb * backingMax, ratio);
      GivenShare(pb, backingMax, ratio);
      ComputedShare(pi, ONE - ratio, usd);
      if ironMax > 0 { CappedShare(pi, ironMax, ONE - ratio, usd); }
    } else {
      var usd := Quo(pi * ironMax, ONE - ratio);
      ShareRounding(pi * ironMax, ONE - ratio);
      GivenShare(pi, ironMax, ONE - ratio);
      ComputedShare(pb, ratio, usd);
      if backingMax > 0 { CappedShare(pb, backingMax, ratio, usd); }
    }
  }

  /** The whole stablecoins minted for a value. */
  function MintTotal(usd: Dec): int {
    TruncateInt(Quo(usd, ONE))
  }

  lemma MintTotalBound(usd: Dec)
    requires usd >= 0
    ensures 0 <= MintTotal(usd) && MintTotal(usd) * ONE <= usd < (MintTotal(usd) + 1) * ONE
  {
    QuoOne(usd);
    DivMod(usd, ONE);
  }

  // --- Burning --------------------------------------------------------------------

  datatype Payout = Payout(backingOut: int, ironOut: int)

  /** The whole units a value buys. */
  function UnitsDown(usd: Dec, price: Dec): int
    requires price > 0
  {
    TruncateInt(QuoTruncate(usd, price))
  }

  lemma UnitsDownBound(usd: Dec, price: Dec)
    requires usd >= 0 && price > 0
    ensures UnitsDown(usd, price) >= 0
    ensures price * UnitsDown(usd, price) <= usd < price * (UnitsDown(usd, price) + 1)
  {
    var q := QuoTruncate(usd, price);
    DivMod(usd * ONE, price);
    DivNonneg(usd * ONE, price);
    DivMod(q, ONE);
    DownArith(usd, price, q, UnitsDown(usd, price));
  }

  lemma DownArith(usd: int, price: int, q: int, u: int)
    requires price > 0 && ONE * u <= q < ONE * u + ONE
    requires price * q <= usd * ONE < price * q + price
    ensures price * u <= usd < price * (u + 1)
  {
    MulMono(ONE * u, q, price);
    MulMono(q + 1, ONE * u + ONE, price);
    assert price * (ONE * u) == ONE * (price * u);
    assert price * (ONE * u + ONE) == ONE * (price * (u + 1));
  }

  /** What burning an amount (fee already taken off) pays. */
  function BurnPayout(ratio: Dec, pb: Dec, pi: Dec, burnActual: int): Result<Payout>
    requires 0 <= ratio
  {
    var usd := Mul(burnActual * ONE, ONE);
    if ratio >= ONE then
      :- Need(pb > 0, Panic);
      Ok(Payout(UnitsDown(usd, pb), 0))
    else if ratio == 0 then
      :- Need(pi > 0, Panic);
      Ok(Payout(0, UnitsDown(usd, pi)))
    else
      :- Need(pb > 0 && pi > 0, Panic);
      Ok(Payout(UnitsDown(Mul(usd, ratio), pb), UnitsDown(Mul(usd, ONE - ratio), pi)))
  }

  /** Each coin paid is what its share of the burn buys, in whole units. */
  lemma BurnPayoutExact(ratio: Dec, pb: Dec, pi: Dec, burnActual: int)
    requires 0 <= ratio && 0 <= pb && 0 <= pi && 0 <= burnActual
    requires BurnPayout(ratio, pb, pi, burnActual).Ok?
    ensures var p, share := BurnPayout(ratio, pb, pi, burnActual).value, Min(ratio, ONE);
            && (if share > 0 then pb * p.backingOut <= burnActual * share < pb * (p.backingOut + 1)
                else p.backingOut == 0)
            && (if share < ONE then pi * p.ironOut <= burnActual * (ONE - share) < pi * (p.ironOut + 1)
                else p.ironOut == 0)
  {
    MulWhole(burnActual, ONE);
    MulWhole(burnActual, ratio);
    MulWhole(burnActual, ONE - ratio);
    MulMono(0, burnActual, ratio);
    if ratio >= ONE {
      UnitsDownBound(burnActual * ONE, pb);
    } else if ratio == 0 {
      UnitsDownBound(burnActual * ONE, pi);
    } else {
      MulMono(0, burnActual, ONE - ratio);
      UnitsDownBound(burnActual * ratio, pb);
      UnitsDownBound(burnActual * (ONE - ratio), pi);
    }
  }

  /** Burning pays coins worth at most what is burned. */
  lemma BurnPayoutBound(ratio: Dec, pb: Dec, pi: Dec, burnActual: int)
    requires 0 <= ratio && 0 <= pb && 0 <= pi && 0 <= burnActual
    requires BurnPayout(ratio, pb, pi, burnActual).Ok?
    ensures var p := BurnPayout(ratio, pb, pi, burnActual).value;
            && 0 <= p.backingOut && 0 <= p.ironOut
            && pb * p.backingOut + pi * p.ironOut <= burnActual * ONE
  {
    MulWhole(burnActual, ONE);
    var usd := burnActual * ONE;
    MulWhole(burnActual, ratio);
    MulWhole(burnActual, ONE - ratio);
    assert burnActual * ratio + burnActual * (ONE - ratio) == usd;
    if ratio >= ONE {
      UnitsDownBound(usd, pb);
    } else if ratio == 0 {
      UnitsDownBound(usd, pi);
    } else {
      MulMono(0, burnActual, ratio);
      MulMono(0, burnActual, ONE - ratio);
      UnitsDownBound(burnActual * ratio, pb);
      UnitsDownBound(burnActual * (ONE - ratio), pi);
    }
  }

  // --- Buying back and recapitalising ---------------------------------------------

  /** The backing the minted stablecoins call for, in whole micro-dollars. */
  function RequiredBacking(gridMinted: int, ratio: Dec): int {
    Max(TruncateInt(Ceil(Mul(gridMinted * ONE, ratio))), 0)
  }

  /** The least whole value that backs the given share of the minted stablecoins. */
  lemma RequiredBackingLeast(gridMinted: int, ratio: Dec)
    requires 0 <= ratio
    ensures var v := RequiredBacking(gridMinted, ratio);
            if gridMinted >= 0 then (v - 1) * ONE < gridMinted * ratio <= v * ONE else v == 0
  {
    MulWhole(gridMinted, ratio);
    if gridMinted >= 0 { MulMono(0, gridMinted, ratio); } else { MulMono(gridMinted, 0, ratio); }
    DivMod(-(gridMinted * ratio), ONE);
  }

  /** The backing sold for an amount of iron; `excess` is in whole micro-dollars. */
  function BuyBackOut(ironIn: int, pb: Dec, pi: Dec, excess: int): Result<int>
  {
    var value := Mul(ironIn * ONE, pi);
    :- Need(value <= excess * ONE, BackingCoinInsufficient);
    :- Need(pb > 0, Panic);
    Ok(TruncateInt(Quo(value, pb)))
  }

  /** The backing bought out is worth at most the excess, up to half a unit in the 18th
      decimal of the backing's price. */
  lemma BuyBackOutBound(ironIn: int, pb: Dec, pi: Dec, excess: int)
    requires 0 <= ironIn && 0 <= pb && 0 <= pi
    requires BuyBackOut(ironIn, pb, pi, excess).Ok?
    ensures var out := BuyBackOut(ironIn, pb, pi, excess).value;
            && 0 <= out
            && 2 * ONE * (pb * out) <= 2 * ONE * (pi * ironIn) + pb
            && pi * ironIn < pb * (out + 1)
            && pi * ironIn <= excess * ONE
  {
    MulWhole(ironIn, pi);
    MulMono(0, ironIn, pi);
    var value := ironIn * pi;
    var q := Quo(value, pb);
    HalfEvenNonneg(value * ONE, pb);
    DivMod(q, ONE);
    BuyBackArith(value, pb, q, q / ONE);
  }

  lemma BuyBackArith(value: int, pb: int, q: int, out: int)
    requires pb > 0 && ONE * out <= q < ONE * out + ONE
    requires -pb <= 2 * (pb * q - value * ONE) <= pb
    ensures 2 * ONE * (pb * out) <= 2 * ONE * value + pb
    ensures value < pb * (out + 1)
  {
    MulMono(ONE * out, q, pb);
    MulMono(q + 1, ONE * out + ONE, pb);
    assert pb * (ONE * out) == ONE * (pb * out);
    assert pb * (ONE * out + ONE) == ONE * (pb * (out + 1));
  }

  /** The iron minted for an amount of backing, before bonus and fee. */
  function RebackMint(backingIn: int, pb: Dec, pi: Dec, excess: int): Result<int>
  {
    var value := Mul(backingIn * ONE, pb);
    :- Need(pi > 0, Panic);
    var available := Quo((0 - excess) * ONE, pi);
    var ironMint := TruncateInt(Quo(value, pi));
    :- Need(ironMint * ONE <= available, IronCoinInsufficient);
    Ok(ironMint)
  }

  /** Recapitalising raises the backing by less than the deficit plus one airon's price
      and a unit in the 18th decimal of it; any iron minted proves a deficit. */
  lemma RebackMintBound(backingIn: int, pb: Dec, pi: Dec, excess: int)
    requires 0 <= backingIn && 0 <= pb && 0 <= pi
    requires RebackMint(backingIn, pb, pi, excess).Ok?
    ensures var ironMint := RebackMint(backingIn, pb, pi, excess).value;
            && 0 <= ironMint
            && (ironMint > 0 ==> excess < 0)
            && ONE * (pb * backingIn) < ONE * ((0 - excess) * ONE) + ONE * pi + pi
  {
    MulWhole(backingIn, pb);
    MulMono(0, backingIn, pb);
    var x := backingIn * pb;
    var q := Quo(x, pi);
    HalfEvenNonneg(x * ONE, pi);
    DivMod(q, ONE);
    var ironMint := q / ONE;
    var available := Quo((0 - excess) * ONE, pi);
    RebackValue(x, q, ironMint, available, 0 - excess, pi);
    if ironMint > 0 && excess >= 0 {
      HalfEvenMono((0 - excess) * ONE * ONE, 0, pi);
      HalfEvenExact(0, pi);
    }
  }

  lemma RebackValue(x: int, q: int, ironMint: int, available: int, missing: int, pi: int)
    requires pi > 0
    requires -pi <= 2 * (pi * q - x * ONE)
    requires q < (ironMint + 1) * ONE
    requires ironMint * ONE <= available
    requires 2 * (pi * available - missing * ONE * ONE) <= pi
    ensures ONE * x < ONE * (missing * ONE) + ONE * pi + pi
  {
    MulMono(q + 1, (ironMint + 1) * ONE, pi);
    assert pi * ((ironMint + 1) * ONE) == ONE * (pi * ironMint) + ONE * pi;
    assert pi * (q + 1) == pi * q + pi;
    MulMono(ironMint * ONE, available, pi);
    assert pi * (ironMint * ONE) == ONE * (pi * ironMint);
  }

  /** When an amount of backing is worth too little to earn any iron: its value stays below
      one unit by more than half a unit in the 18th decimal. */
  predicate EarnsNothing(backingIn: int, pb: Dec, pi: Dec) {
    2 * ONE * (backingIn * pb) < (2 * ONE - 1) * pi
  }

  lemma EarnsNothingIff(backingIn: int, pb: Dec, pi: Dec)
    requires 0 <= backingIn && 0 <= pb && 0 < pi
    ensures TruncateInt(Quo(backingIn * pb, pi)) == 0 <==> EarnsNothing(backingIn, pb, pi)
  {
    MulMono(0, backingIn, pb);
    var x := backingIn * pb;
    HalfEvenNonneg(x * ONE, pi);
    HalfEvenAtMost(x * ONE, pi, ONE - 1);
    DivMod(Quo(x, pi), ONE);
  }

  /** Recapitalising is accepted without a deficit exactly when the backing earns no iron
      and the excess rounds away. */
  lemma RebackWithoutDeficit(backingIn: int, pb: Dec, pi: Dec, excess: int)
    requires 0 <= backingIn && 0 <= pb && 0 < pi && 0 <= excess
    ensures RebackMint(backingIn, pb, pi, excess).Ok? <==>
              EarnsNothing(backingIn, pb, pi) && 2 * (excess * ONE * ONE) <= pi
  {
    MulWhole(backingIn, pb);
    EarnsNothingIff(backingIn, pb, pi);
    MulMono(0, backingIn, pb);
    HalfEvenNonneg(backingIn * pb * ONE, pi);
    var available := Quo((0 - excess) * ONE, pi);
    HalfEvenMono((0 - excess) * ONE * ONE, 0, pi);
    HalfEvenExact(0, pi);
    if 2 * (excess * ONE * ONE) <= pi {
      HalfEvenUnique((0 - excess) * ONE * ONE, pi, 0);
    } else {
      assert available == 0 ==> pi * available == 0;
    }
  }

  /** The iron earned is what the backing's value buys, in whole units. */
  lemma RebackMintExact(backingIn: int, pb: Dec, pi: Dec, excess: int)
    requires 0 <= backingIn && 0 <= pb && 0 <= pi && RebackMint(backingIn, pb, pi, excess).Ok?
    ensures var iron := RebackMint(backingIn, pb, pi, excess).value;
            2 * ONE * (pi * iron) <= 2 * ONE * (pb * backingIn) + pi && pb * backingIn < pi * (iron + 1)
  {
    MulWhole(backingIn, pb);
    MulMono(0, backingIn, pb);
    var value := backingIn * pb;
    var q := Quo(value, pi);
    HalfEvenNonneg(value * ONE, pi);
    DivMod(q, ONE);
    BuyBackArith(value, pi, q, q / ONE);
  }
}
