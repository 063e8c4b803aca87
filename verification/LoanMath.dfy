/**
 The arithmetic of collateralised debt: the loan limit and its catalytic bonus, the
 liquidation test and its payments, and the interest that accrues between settlements.
 */
module LoanMath {
  import opened FixedPoint

  /** The risk parameters of a collateral that bound a loan. */
  datatype Terms = Terms(
    threshold: Dec,      // debt-to-value at which a position may be liquidated
    loanToValue: Dec,    // the most that may be borrowed, with full catalysis
    basicLoanToValue: Dec,
    catalyticRatio: Dec, // iron-to-collateral value that gives full catalysis
    liquidationFee: Dec)

  /** What proposal validation enforces on the terms. */
  predicate TermsOk(t: Terms) {
    && 0 <= t.basicLoanToValue <= t.loanToValue < t.threshold <= ONE
    && 0 <= t.catalyticRatio <= ONE
    && 0 <= t.liquidationFee <= ONE
  }

  // --- The loan limit -------------------------------------------------------------

  /** How much of the catalytic ratio the deposited iron reaches. */
  function Catalysis(t: Terms, value: Dec, ironValue: Dec): Dec
    requires value > 0
  {
    Min(Quo(ironValue, value), t.catalyticRatio)
  }

  function AvailableLtv(t: Terms, value: Dec, ironValue: Dec): Dec
    requires value > 0
  {
    t.basicLoanToValue +
    if t.catalyticRatio > 0
    then Quo(Mul(Catalysis(t, value, ironValue), t.loanToValue - t.basicLoanToValue), t.catalyticRatio)
    else 0
  }

  lemma MulRange(a: Dec, b: Dec, c: Dec)
    requires 0 <= a <= b && 0 <= c
    ensures 0 <= Mul(a, c) <= Mul(b, c)
  {
    MulMono(0, a, c);
    MulMono(a, b, c);
    HalfEvenNonneg(a * c, ONE);
    HalfEvenMono(a * c, b * c, ONE);
  }

  lemma QuoRange(a: Dec, b: Dec, d: Dec)
    requires 0 <= a <= b && 0 < d
    ensures 0 <= Quo(a, d) <= Quo(b, d)
  {
    HalfEvenNonneg(a * ONE, d);
    HalfEvenMono(a * ONE, b * ONE, d);
  }

  /** The limit lies between the basic one and the one at full catalysis. */
  lemma LtvRange(t: Terms, value: Dec, ironValue: Dec)
    requires TermsOk(t) && value > 0 && ironValue >= 0
    ensures t.basicLoanToValue <= AvailableLtv(t, value, ironValue)
    ensures t.catalyticRatio > 0 ==>
              AvailableLtv(t, value, ironValue) <= t.basicLoanToValue
                + Quo(Mul(t.catalyticRatio, t.loanToValue - t.basicLoanToValue), t.catalyticRatio)
    ensures t.catalyticRatio == 0 ==> AvailableLtv(t, value, ironValue) == t.basicLoanToValue
  {
    if t.catalyticRatio > 0 {
      var d := t.loanToValue - t.basicLoanToValue;
      HalfEvenNonneg(ironValue * ONE, value);
      MulRange(Catalysis(t, value, ironValue), t.catalyticRatio, d);
      QuoRange(Mul(Catalysis(t, value, ironValue), d), Mul(t.catalyticRatio, d), t.catalyticRatio);
    }
  }

  /** The bonus over the basic limit is the catalysed share of the gap, up to rounding. */
  lemma LtvProportional(t: Terms, value: Dec, ironValue: Dec)
    requires TermsOk(t) && value > 0 && ironValue >= 0 && t.catalyticRatio > 0
    ensures var c, r := t.catalyticRatio, Catalysis(t, value, ironValue);
            && 0 <= r <= c && (r < c ==> -value <= 2 * (value * r - ironValue * ONE) <= value)
            && -(ONE + c) <= 2 * (c * (AvailableLtv(t, value, ironValue) - t.basicLoanToValue)
                                  - r * (t.loanToValue - t.basicLoanToValue)) <= ONE + c
  {
    HalfEvenNonneg(ironValue * ONE, value);
  }

  /** Rounding lifts the limit above the configured one by at most
      (1/(2 * catalytic ratio) + 1/2) units in the 18th decimal. */
  lemma LtvOvershoot(t: Terms, value: Dec, ironValue: Dec)
    requires TermsOk(t) && value > 0 && ironValue >= 0 && t.catalyticRatio > 0
    ensures 2 * (t.catalyticRatio * (AvailableLtv(t, value, ironValue) - t.loanToValue)) <= ONE + t.catalyticRatio
  {
    LtvRange(t, value, ironValue);
    var c, d := t.catalyticRatio, t.loanToValue - t.basicLoanToValue;
    var full := Quo(Mul(c, d), c);
    Overshoot(c, d, Mul(c, d), full, AvailableLtv(t, value, ironValue) - t.loanToValue);
  }

  lemma Overshoot(c: int, d: int, product: int, full: int, over: int)
    requires c > 0 && over <= full - d
    requires 2 * (ONE * product - c * d) <= ONE
    requires 2 * (c * full - product * ONE) <= c
    ensures 2 * (c * over) <= ONE + c
  {
    MulMono(over, full - d, c);
    assert c * (full - d) == c * full - c * d;
  }

  /** The parameters' own check: the product at full catalysis does not round the limit up. */
  predicate LimitHolds(t: Terms) {
    var c, d := t.catalyticRatio, t.loanToValue - t.basicLoanToValue;
    c > 0 ==>
      && 2 * (Mul(c, d) * ONE) <= 2 * (c * d) + c
      && (2 * (Mul(c, d) * ONE) == 2 * (c * d) + c ==> d % 2 == 0)
  }

  lemma FullCatalysis(t: Terms)
    requires TermsOk(t) && t.catalyticRatio > 0
    ensures LimitHolds(t) <==>
              Quo(Mul(t.catalyticRatio, t.loanToValue - t.basicLoanToValue), t.catalyticRatio)
                <= t.loanToValue - t.basicLoanToValue
  {
    var c, d := t.catalyticRatio, t.loanToValue - t.basicLoanToValue;
    HalfEvenAtMost(Mul(c, d) * ONE, c, d);
  }

  /** No account can ever borrow past the configured limit if and only if the parameters
      pass the check: a condition governance can evaluate at registration. */
  lemma LimitHoldsIff(t: Terms)
    requires TermsOk(t)
    ensures LimitHolds(t) <==>
              forall value: Dec, ironValue: Dec | value > 0 && ironValue >= 0 ::
                AvailableLtv(t, value, ironValue) <= t.loanToValue
  {
    if LimitHolds(t) {
      forall value: Dec, ironValue: Dec | value > 0 && ironValue >= 0
        ensures AvailableLtv(t, value, ironValue) <= t.loanToValue
      {
        LtvRange(t, value, ironValue);
        if t.catalyticRatio > 0 { FullCatalysis(t); }
      }
    } else {
      FullCatalysis(t);
      QuoOne(t.catalyticRatio);
      assert AvailableLtv(t, ONE, t.catalyticRatio) > t.loanToValue;
    }
  }

  /** The check passes whenever ratio * (limit - basic limit) fits 18 decimals. */
  lemma ExactProductHolds(t: Terms)
    requires TermsOk(t)
    requires (t.catalyticRatio * (t.loanToValue - t.basicLoanToValue)) % ONE == 0
    ensures LimitHolds(t)
  {
    var c, d := t.catalyticRatio, t.loanToValue - t.basicLoanToValue;
    DivMod(c * d, ONE);
    HalfEvenExact(c * d / ONE, ONE);
  }

  /** Registered parameters that fail the check: with a catalytic ratio of one unit in the
      18th decimal, a position may borrow 1.4 times the value of its collateral. */
  lemma LimitCanFail()
    ensures var t := Terms(96 * ONE / 100, 95 * ONE / 100, 40 * ONE / 100, 1, ONE / 10);
            TermsOk(t) && !LimitHolds(t) && AvailableLtv(t, ONE, 1) == 140 * ONE / 100
  {
    var t := Terms(96 * ONE / 100, 95 * ONE / 100, 40 * ONE / 100, 1, ONE / 10);
    QuoOne(1);
    HalfEvenUnique(55 * ONE / 100, ONE, 1);
    HalfEvenExact(ONE, 1);
  }

  // --- The debt checks ------------------------------------------------------------

  /** The check of MintByCollateral: the debt fits the truncated limit. */
  predicate MintAllows(t: Terms, value: Dec, ironValue: Dec, debt: int) {
    value > 0 && debt <= TruncateInt(Quo(Mul(value, AvailableLtv(t, value, ironValue)), ONE))
  }

  /** The check of RedeemCollateral: dividing by a zero catalytic ratio panics, so a
      position with value left passes only when the ratio is positive. */
  predicate RedeemAllows(t: Terms, value: Dec, ironValue: Dec, debt: int) {
    if value <= 0 then debt <= 0
    else t.catalyticRatio > 0 && Mul(debt * ONE, ONE) <= Mul(value, AvailableLtv(t, value, ironValue))
  }

  /** The test of LiquidateCollateral. */
  predicate Liquidatable(t: Terms, value: Dec, debt: int) {
    Mul(debt * ONE, ONE) >= Mul(value, t.threshold)
  }

  /** The two checks agree wherever both are defined: the debt fits the rounded limit. */
  lemma ChecksAgree(t: Terms, value: Dec, ironValue: Dec, debt: int)
    requires TermsOk(t) && value > 0 && ironValue >= 0
    ensures MintAllows(t, value, ironValue, debt) <==> debt * ONE <= Mul(value, AvailableLtv(t, value, ironValue))
    ensures t.catalyticRatio > 0 ==>
              (MintAllows(t, value, ironValue, debt) <==> RedeemAllows(t, value, ironValue, debt))
  {
    LtvRange(t, value, ironValue);
    var ltv := AvailableLtv(t, value, ironValue);
    MulMono(0, value, ltv);
    HalfEvenNonneg(value * ltv, ONE);
    var m := Mul(value, ltv);
    QuoOne(m);
    DivMod(m, ONE);
    MulOne(debt * ONE);
  }

  /** Both checks bound the debt by the rounded limit. */
  lemma DebtWithinLimit(t: Terms, value: Dec, ironValue: Dec, debt: int)
    requires TermsOk(t) && value > 0 && ironValue >= 0 && debt >= 0
    requires MintAllows(t, value, ironValue, debt) || RedeemAllows(t, value, ironValue, debt)
    ensures debt * ONE <= Mul(value, AvailableLtv(t, value, ironValue))
    ensures 2 * ONE * (debt * ONE) <= 2 * (value * AvailableLtv(t, value, ironValue)) + ONE
  {
    LtvRange(t, value, ironValue);
    var ltv := AvailableLtv(t, value, ironValue);
    var m := Mul(value, ltv);
    MulMono(0, value, ltv);
    HalfEvenNonneg(value * ltv, ONE);
    QuoOne(m);
    DivMod(m, ONE);
    MulOne(debt * ONE);
  }

  /** A position within the configured limit and carrying debt is worth more than one
      micro-dollar, which is what separates it from the liquidation threshold. */
  lemma DebtMeansValue(t: Terms, value: Dec, ltv: Dec, debt: int)
    requires TermsOk(t) && 0 <= ltv < t.threshold && value > 0 && debt > 0
    requires debt * ONE <= Mul(value, ltv)
    ensures value > ONE
  {
    MulMono(ltv, ONE - 1, value);
    assert value * (ONE - 1) == ONE * value - value;
  }

  lemma ThresholdAbove(t: Terms, value: Dec, ltv: Dec)
    requires TermsOk(t) && 0 <= ltv < t.threshold && value > ONE
    ensures Mul(value, ltv) < Mul(value, t.threshold)
  {
    MulMono(ltv + 1, t.threshold, value);
    assert value * (ltv + 1) == value * ltv + value;
  }

  lemma DebtFree(t: Terms, value: Dec)
    requires TermsOk(t) && value >= 0
    ensures Liquidatable(t, value, 0) <==> 2 * (value * t.threshold) <= ONE
  {
    MulOne(0);
    MulMono(0, value, t.threshold);
    HalfEvenNonneg(value * t.threshold, ONE);
    if 2 * (value * t.threshold) <= ONE { HalfEvenUnique(value * t.threshold, ONE, 0); }
  }

  /** The limit at full catalysis, as the arithmetic rounds it. */
  function FullLtv(t: Terms): Dec {
    t.basicLoanToValue +
    if t.catalyticRatio > 0
    then Quo(Mul(t.catalyticRatio, t.loanToValue - t.basicLoanToValue), t.catalyticRatio)
    else 0
  }

  /** A position that was just allowed its debt cannot be liquidated at the same prices,
      unless it owes nothing and is worth so little that its threshold value rounds to zero. */
  lemma AllowedIsSafe(t: Terms, value: Dec, ironValue: Dec, debt: int)
    requires TermsOk(t) && FullLtv(t) < t.threshold && value >= 0 && ironValue >= 0 && debt >= 0
    requires MintAllows(t, value, ironValue, debt) || RedeemAllows(t, value, ironValue, debt)
    ensures Liquidatable(t, value, debt) <==> debt == 0 && 2 * (value * t.threshold) <= ONE
  {
    if debt == 0 {
      DebtFree(t, value);
    } else {
      LtvRange(t, value, ironValue);
      DebtWithinLimit(t, value, ironValue, debt);
      MulOne(debt * ONE);
      var ltv := AvailableLtv(t, value, ironValue);
      DebtMeansValue(t, value, ltv, debt);
      ThresholdAbove(t, value, ltv);
    }
  }

  /** When rounding lifts the full limit to the threshold, some position can be opened and
      liquidated at once: one borrowing the full limit against 10^18 micro-dollars. */
  lemma UnsafePosition(t: Terms)
    requires TermsOk(t) && FullLtv(t) >= t.threshold
    ensures var value, iron, debt := ONE * ONE, t.catalyticRatio * ONE, FullLtv(t);
            debt > 0 && MintAllows(t, value, iron, debt) && Liquidatable(t, value, debt)
  {
    var c, ltv := t.catalyticRatio, FullLtv(t);
    HalfEvenUnique(c * ONE * ONE, ONE * ONE, c);
    assert AvailableLtv(t, ONE * ONE, c * ONE) == ltv;
    MulWhole(ONE, ltv);
    MulWhole(ONE, t.threshold);
    QuoOne(ONE * ltv);
    HalfEvenExact(ltv, ONE);
    MulOne(ltv * ONE);
  }

  /** No position can be opened and liquidated at the same prices if and only if the
      parameters keep the full limit below the threshold: a condition governance can
      evaluate at registration. */
  lemma SafeIff(t: Terms)
    requires TermsOk(t)
    ensures FullLtv(t) < t.threshold <==>
              forall value: Dec, ironValue: Dec, debt: int | value >= 0 && ironValue >= 0 && debt > 0 ::
                MintAllows(t, value, ironValue, debt) ==> !Liquidatable(t, value, debt)
  {
    if FullLtv(t) < t.threshold {
      forall value: Dec, ironValue: Dec, debt: int
        | value >= 0 && ironValue >= 0 && debt > 0 && MintAllows(t, value, ironValue, debt)
        ensures !Liquidatable(t, value, debt)
      {
        AllowedIsSafe(t, value, ironValue, debt);
      }
    } else {
      UnsafePosition(t);
    }
  }

  /** Parameters that fail the check let a position be liquidated in the block it was
      opened: a debt of 13 micro-dollars on collateral worth 10. */
  lemma AllowedCanBeUnsafe()
    ensures var t := Terms(96 * ONE / 100, 95 * ONE / 100, 40 * ONE / 100, 1, ONE / 10);
            TermsOk(t) && MintAllows(t, 10 * ONE, 10, 13) && Liquidatable(t, 10 * ONE, 13)
  {
    var t := Terms(96 * ONE / 100, 95 * ONE / 100, 40 * ONE / 100, 1, ONE / 10);
    HalfEvenUnique(10 * ONE, 10 * ONE, 1);
    HalfEvenUnique(55 * ONE / 100, ONE, 1);
    HalfEvenExact(ONE, 1);
    assert AvailableLtv(t, 10 * ONE, 10) == 140 * ONE / 100;
    MulWhole(10, 140 * ONE / 100);
    QuoOne(14 * ONE);
    MulWhole(10, t.threshold);
    MulOne(13 * ONE);
  }

  // --- Liquidation ----------------------------------------------------------------

  /** The protocol's cut of the seized collateral. */
  function Commission(seized: int, liquidationFee: Dec, commissionRate: Dec): int {
    TruncateInt(Mul(Mul(seized * ONE, liquidationFee), commissionRate))
  }

  /** What the liquidator pays for the seized collateral. */
  function LiquidationPrice(seized: int, liquidationFee: Dec, price: Dec): int {
    TruncateInt(Quo(Mul(seized * ONE - Mul(seized * ONE, liquidationFee), price), ONE))
  }

  lemma CommissionBound(seized: int, liquidationFee: Dec, commissionRate: Dec)
    requires 0 <= seized && 0 <= liquidationFee <= ONE && 0 <= commissionRate <= ONE
    ensures 0 <= Commission(seized, liquidationFee, commissionRate) <= seized
    ensures Commission(seized, liquidationFee, commissionRate) * ONE <= seized * liquidationFee
    ensures var c, exact := Commission(seized, liquidationFee, commissionRate),
              seized * liquidationFee * commissionRate;
            2 * ONE * (c * ONE) <= 2 * exact + ONE && exact < (c + 1) * ONE * ONE
  {
    MulWhole(seized, liquidationFee);
    var fee := seized * liquidationFee;
    MulMono(0, seized, liquidationFee);
    MulMono(liquidationFee, ONE, seized);
    MulMono(0, fee, commissionRate);
    MulMono(commissionRate, ONE, fee);
    HalfEvenNonneg(fee * commissionRate, ONE);
    HalfEvenMono(fee * commissionRate, fee * ONE, ONE);
    HalfEvenExact(fee, ONE);
    DivMod(Mul(fee, commissionRate), ONE);
  }

  lemma Associate(a: int, b: int, c: int)
    ensures a * b * c == a * (b * c)
  {
  }

  lemma LiquidationPriceBound(seized: int, liquidationFee: Dec, price: Dec)
    requires 0 <= seized && 0 <= liquidationFee <= ONE && 0 <= price
    ensures var pay := LiquidationPrice(seized, liquidationFee, price);
            var net := seized * ((ONE - liquidationFee) * price);
            && 0 <= pay
            && 2 * ONE * (pay * ONE) <= 2 * net + ONE
            && net < (pay + 1) * ONE * ONE
  {
    MulWhole(seized, liquidationFee);
    assert seized * ONE - seized * liquidationFee == seized * (ONE - liquidationFee);
    var share := seized * (ONE - liquidationFee);
    MulMono(0, seized, ONE - liquidationFee);
    MulMono(0, share, price);
    Associate(seized, ONE - liquidationFee, price);
    var m := Mul(share, price);
    HalfEvenNonneg(share * price, ONE);
    QuoOne(m);
    DivMod(m, ONE);
  }

  /** The liquidator never pays more than the oracle value of the collateral received. */
  lemma LiquidatorNeverOverpays(seized: int, liquidationFee: Dec, commissionRate: Dec, price: Dec)
    requires 0 <= seized && 0 <= liquidationFee <= ONE && 0 <= commissionRate <= ONE && 0 <= price
    ensures LiquidationPrice(seized, liquidationFee, price) * ONE
              <= (seized - Commission(seized, liquidationFee, commissionRate)) * price
  {
    CommissionBound(seized, liquidationFee, commissionRate);
    LiquidationPriceBound(seized, liquidationFee, price);
    Overpay(seized, liquidationFee, price, Commission(seized, liquidationFee, commissionRate),
            LiquidationPrice(seized, liquidationFee, price));
  }

  lemma Overpay(seized: int, fee: int, price: int, c: int, pay: int)
    requires 0 <= price && c * ONE <= seized * fee
    requires 2 * ONE * (pay * ONE) <= 2 * (seized * ((ONE - fee) * price)) + ONE
    ensures pay * ONE <= (seized - c) * price
  {
    MulMono(c * ONE, seized * fee, price);
    assert c * ONE * price == ONE * (c * price);
    Associate(seized, ONE - fee, price);
    assert seized * (ONE - fee) == ONE * seized - seized * fee;
    assert (ONE * seized - seized * fee) * price == ONE * (seized * price) - seized * fee * price;
    assert (seized - c) * price == seized * price - c * price;
  }

  /** Seizing collateral from a position whose debt is at most (1 - fee) of its value does
      not raise its debt-to-collateral ratio by more than one micro-coin of debt. */
  lemma LiquidationDeleverages(collateral: int, debt: int, seized: int, liquidationFee: Dec, price: Dec)
    requires 0 < seized <= collateral && 0 <= debt
    requires 0 <= liquidationFee <= ONE && 0 <= price
    requires debt * ONE * ONE <= collateral * ((ONE - liquidationFee) * price)
    ensures var left := debt - Min(debt, LiquidationPrice(seized, liquidationFee, price));
            left * collateral <= debt * (collateral - seized) + collateral
  {
    LiquidationPriceBound(seized, liquidationFee, price);
    var pay := LiquidationPrice(seized, liquidationFee, price);
    Deleverage(collateral, debt, seized, (ONE - liquidationFee) * price, pay);
    MulMono(0, debt, collateral - seized);
  }

  lemma Deleverage(collateral: int, debt: int, seized: int, k: int, pay: int)
    requires 0 < seized <= collateral && 0 <= debt
    requires debt * ONE * ONE <= collateral * k
    requires seized * k < (pay + 1) * ONE * ONE
    ensures (debt - pay) * collateral <= debt * (collateral - seized) + collateral
  {
    MulMono(debt * ONE * ONE, collateral * k, seized);
    MulMono(seized * k, (pay + 1) * ONE * ONE, collateral);
    assert debt * ONE * ONE * seized == ONE * ONE * (debt * seized);
    assert collateral * k * seized == collateral * (seized * k);
    assert collateral * ((pay + 1) * ONE * ONE) == ONE * ONE * (pay * collateral + collateral);
    assert (debt - pay) * collateral == debt * collateral - pay * collateral;
    assert debt * (collateral - seized) == debt * collateral - debt * seized;
  }

  /** Past that point, by more than the rounding of one payment, liquidation makes the
      position worse. */
  lemma LiquidationLeverages(collateral: int, debt: int, seized: int, liquidationFee: Dec, price: Dec)
    requires 0 < seized <= collateral && 0 <= debt
    requires 0 <= liquidationFee <= ONE && 0 <= price
    requires 2 * (debt * ONE * ONE) * seized > collateral * (2 * (seized * ((ONE - liquidationFee) * price)) + ONE)
    ensures var left := debt - Min(debt, LiquidationPrice(seized, liquidationFee, price));
            left * collateral > debt * (collateral - seized)
  {
    LiquidationPriceBound(seized, liquidationFee, price);
    Leverage(collateral, debt, seized, seized * ((ONE - liquidationFee) * price),
             LiquidationPrice(seized, liquidationFee, price));
  }

  lemma Leverage(collateral: int, debt: int, seized: int, net: int, pay: int)
    requires 0 < seized <= collateral && 0 <= debt
    requires 2 * (debt * ONE * ONE) * seized > collateral * (2 * net + ONE)
    requires 2 * ONE * (pay * ONE) <= 2 * net + ONE
    ensures pay < debt && (debt - pay) * collateral > debt * (collateral - seized)
  {
    MulMono(2 * ONE * (pay * ONE), 2 * net + ONE, collateral);
    assert collateral * (2 * ONE * (pay * ONE)) == 2 * ONE * ONE * (pay * collateral);
    assert 2 * (debt * ONE * ONE) * seized == 2 * ONE * ONE * (debt * seized);
    if debt <= pay { MulMono(debt, pay, collateral); MulMono(seized, collateral, debt); }
    assert (debt - pay) * collateral == debt * collateral - pay * collateral;
    assert debt * (collateral - seized) == debt * collateral - debt * seized;
  }

  // --- Interest -------------------------------------------------------------------

  const BLOCKS_PER_YEAR: int := 10 * 60 * 24 * 365

  /** Simple interest on the principal for a number of blocks, in whole micro-coins. */
  function InterestOf(principal: int, apr: Dec, blocks: int): int {
    RoundInt(QuoInt(Mul(principal * ONE, apr) * blocks, BLOCKS_PER_YEAR))
  }

  lemma InterestError(principal: int, apr: Dec, blocks: int)
    requires 0 <= principal && 0 <= apr && 0 <= blocks
    ensures var i := InterestOf(principal, apr, blocks);
            && 0 <= i
            && 2 * (BLOCKS_PER_YEAR * ONE * i - principal * apr * blocks) <= BLOCKS_PER_YEAR * ONE
            && 2 * (principal * apr * blocks - BLOCKS_PER_YEAR * ONE * i) <= BLOCKS_PER_YEAR * (ONE + 2)
  {
    MulWhole(principal, apr);
    MulMono(0, principal, apr);
    var x := principal * apr * blocks;
    MulMono(0, principal * apr, blocks);
    DivMod(x, BLOCKS_PER_YEAR);
    HalfEvenNonneg(x / BLOCKS_PER_YEAR, ONE);
  }
}
