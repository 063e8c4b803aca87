/**
 The backing ratio over whole runs: where it can go, and how fast.
 */
module MakerRatio {
  import opened FixedPoint
  import opened Results
  import opened MakerState
  import opened MakerChain
  import opened MakerRuns

  /** The event ends a block in which the ratio is up for adjustment. */
  ghost predicate Adjusts(s: State, e: Event) {
    && e.action.EndBlock? && EndBlockStep(e.env, s).Ok?
    && s.height - s.ratioBlock >= e.env.params.ratioCooldown && e.env.params.ratioStep != 0
  }

  /** The heights at which a run adjusts the ratio. */
  ghost function Adjustments(s: State, run: seq<Event>): seq<int>
    decreases run
  {
    if run == [] then [] else
      (if Adjusts(s, run[0]) then [s.height] else [])
        + Adjustments(Next(run[0].env, s, run[0].action), run[1..])
  }

  predicate Governed(run: seq<Event>, p: Params) {
    ParamsOk(p) && forall e | e in run :: e.env.params == p
  }

  /** The ratio has moved by at most so much, either way. */
  predicate Drift(from: int, to: int, most: int) {
    from - most <= to <= from + most
  }

  /** Proposals leave the clock and the ratio alone. */
  lemma {:induction false} BatchClock(env: Env, s: State, ps: seq<BackingProposal>)
    ensures var r := SetBackingBatch(env, s, ps);
            r.Ok? ==> r.value.ratio == s.ratio && r.value.ratioBlock == s.ratioBlock && r.value.height == s.height
    decreases ps
  {
    if ps != [] && SetBackingStep(env, s, ps[0]).Ok? { BatchClock(env, SetBackingStep(env, s, ps[0]).value, ps[1..]); }
  }

  lemma {:induction false} CollateralBatchClock(env: Env, s: State, ps: seq<CollateralProposal>)
    ensures var r := SetCollateralBatch(env, s, ps);
            r.Ok? ==> r.value.ratio == s.ratio && r.value.ratioBlock == s.ratioBlock && r.value.height == s.height
    decreases ps
  {
    if ps != [] && SetCollateralStep(env, s, ps[0]).Ok? {
      CollateralBatchClock(env, SetCollateralStep(env, s, ps[0]).value, ps[1..]);
    }
  }

  /** Only an adjustment moves the ratio, by at most a step, and only the end of a block
      moves the clock. */
  lemma StepClock(s: State, e: Event)
    requires ParamsOk(e.env.params) && s.ratio <= ONE
    ensures var s', step := Next(e.env, s, e.action), e.env.params.ratioStep;
            && s'.ratio <= ONE && s.height <= s'.height <= s.height + 1
            && (Adjusts(s, e) ==> Drift(s.ratio, s'.ratio, step) && s'.ratioBlock == s.height < s'.height)
            && (!Adjusts(s, e) ==> s'.ratio == s.ratio && s'.ratioBlock == s.ratioBlock)
  {
    match e.action
    case SetBacking(ps) => BatchClock(e.env, s, ps);
    case SetCollateral(ps) => CollateralBatchClock(e.env, s, ps);
    case _ =>
  }

  predicate Apart(after: int, heights: seq<int>, cooldown: int) {
    && (heights != [] ==> after + cooldown <= heights[0])
    && (forall i | 0 < i < |heights| :: heights[i - 1] + cooldown <= heights[i])
  }

  predicate Inside(low: int, high: int, heights: seq<int>) {
    forall i | 0 <= i < |heights| :: low <= heights[i] < high
  }

  lemma OneMore(height: int, rest: seq<int>, before: int, low: int, high: int, cooldown: int)
    requires before + cooldown <= height < low <= high
    requires Apart(height, rest, cooldown) && Inside(low, high, rest)
    ensures Apart(before, [height] + rest, cooldown) && Inside(height, high, [height] + rest)
  {
    var all := [height] + rest;
    forall i | 0 < i < |all|
      ensures all[i - 1] + cooldown <= all[i]
    {
      assert all[i] == rest[i - 1];
      assert i > 1 ==> all[i - 1] == rest[i - 2];
    }
  }

  lemma DriftMore(a: int, b: int, c: int, count: nat, step: nat)
    requires Drift(a, b, step) && Drift(b, c, count * step)
    ensures Drift(a, c, (count + 1) * step)
  {
  }

  /** What a run's adjustments look like: a cooldown apart, within the run's blocks, each
      moving the ratio by at most a step. */
  predicate Steady(s: State, s': State, heights: seq<int>, p: Params) {
    && s'.ratio <= ONE && s.height <= s'.height
    && Apart(s.ratioBlock, heights, p.ratioCooldown)
    && Inside(s.height, s'.height, heights)
    && Drift(s.ratio, s'.ratio, |heights| * p.ratioStep)
  }

  lemma SteadyMore(s: State, e: Event, s': State, rest: seq<int>)
    requires ParamsOk(e.env.params) && s.ratio <= ONE
    requires Steady(Next(e.env, s, e.action), s', rest, e.env.params)
    ensures Steady(s, s', (if Adjusts(s, e) then [s.height] else []) + rest, e.env.params)
  {
    var s1, p := Next(e.env, s, e.action), e.env.params;
    StepClock(s, e);
    if Adjusts(s, e) {
      OneMore(s.height, rest, s.ratioBlock, s1.height, s'.height, p.ratioCooldown);
      DriftMore(s.ratio, s1.ratio, s'.ratio, |rest|, p.ratioStep);
    } else {
      assert [] + rest == rest;
    }
  }

  /** Over any run, adjustments are a cooldown apart, each moves the ratio by at most a
      step, and the ratio stays a fraction. */
  lemma {:induction false} AdjustmentsApart(s: State, run: seq<Event>, p: Params)
    requires Governed(run, p) && s.ratio <= ONE
    ensures Steady(s, After(s, run), Adjustments(s, run), p)
    decreases run
  {
    if run != [] {
      StepClock(s, run[0]);
      var s1 := Next(run[0].env, s, run[0].action);
      AdjustmentsApart(s1, run[1..], p);
      SteadyMore(s, run[0], After(s1, run[1..]), Adjustments(s1, run[1..]));
    }
  }

  lemma {:induction false} Spread(after: int, heights: seq<int>, cooldown: int)
    requires Apart(after, heights, cooldown) && heights != []
    ensures (|heights| - 1) * cooldown <= heights[|heights| - 1] - heights[0]
    decreases |heights|
  {
    if |heights| > 1 {
      Spread(after, heights[..|heights| - 1], cooldown);
    }
  }

  lemma CountBound(count: int, cooldown: int, blocks: int)
    requires cooldown > 0 && blocks > 0 && (count - 1) * cooldown <= blocks - 1
    ensures count <= 1 + (blocks - 1) / cooldown
  {
    DivMod(blocks - 1, cooldown);
    var q := (blocks - 1) / cooldown;
    if count - 1 > q { MulMono(q + 1, count - 1, cooldown); }
  }

  /** How many adjustments fit in n blocks. */
  function MostAdjustments(n: nat, cooldown: int): int
    requires cooldown > 0
  {
    if n == 0 then 0 else 1 + (n - 1) / cooldown
  }

  lemma AdjustmentCount(after: int, low: int, high: int, heights: seq<int>, cooldown: int)
    requires cooldown > 0 && low <= high && Apart(after, heights, cooldown) && Inside(low, high, heights)
    ensures |heights| <= MostAdjustments(high - low, cooldown)
  {
    if heights != [] {
      Spread(after, heights, cooldown);
      assert low <= heights[0] < high;
      CountBound(|heights|, cooldown, high - low);
    } else if high > low {
      DivMod(high - low - 1, cooldown);
      CountBound(0, cooldown, high - low);
    }
  }

  lemma DriftWider(from: int, to: int, count: nat, most: int, step: nat)
    requires Drift(from, to, count * step) && count <= most
    ensures Drift(from, to, most * step)
  {
    MulMono(count, most, step);
  }

  /** Over n blocks the ratio moves by at most one step, and one more per full cooldown. */
  lemma RatioDrift(s: State, run: seq<Event>, p: Params)
    requires Governed(run, p) && s.ratio <= ONE
    ensures After(s, run).ratio <= ONE && s.height <= After(s, run).height
    ensures Drift(s.ratio, After(s, run).ratio,
                  MostAdjustments(After(s, run).height - s.height, p.ratioCooldown) * p.ratioStep)
  {
    AdjustmentsApart(s, run, p);
    var s', heights := After(s, run), Adjustments(s, run);
    AdjustmentCount(s.ratioBlock, s.height, s'.height, heights, p.ratioCooldown);
    DriftWider(s.ratio, s'.ratio, |heights|, MostAdjustments(s'.height - s.height, p.ratioCooldown), p.ratioStep);
  }

  /** The stablecoin trades above the band at every adjustment of the run. */
  ghost predicate AboveBand(s: State, run: seq<Event>)
    decreases run
  {
    run != [] ==>
      && (Adjusts(s, run[0]) ==> High(run[0].env))
      && AboveBand(Next(run[0].env, s, run[0].action), run[1..])
  }

  predicate High(env: Env) {
    USM in env.prices && env.prices[USM] > ONE + env.params.ratioPriceBand
  }

  lemma FallsOnce(s: State, e: Event)
    requires ParamsOk(e.env.params) && s.ratio <= ONE && (Adjusts(s, e) ==> High(e.env))
    ensures Next(e.env, s, e.action).ratio
              == if Adjusts(s, e) then Max(s.ratio - e.env.params.ratioStep, 0) else s.ratio
  {
    StepClock(s, e);
    MulWhole(1, e.env.params.ratioPriceBand);
  }

  lemma FallMore(ratio: nat, step: nat, count: nat)
    ensures Max(Max(ratio - step, 0) - count * step, 0) == Max(ratio - (count + 1) * step, 0)
  {
    MulMono(0, count, step);
  }

  /** While the price stays above the band, k adjustments take the ratio down by exactly
      k steps, or to zero. */
  lemma {:induction false} RatioFalls(s: State, run: seq<Event>, p: Params)
    requires Governed(run, p) && s.ratio <= ONE && AboveBand(s, run)
    ensures After(s, run).ratio == Max(s.ratio - |Adjustments(s, run)| * p.ratioStep, 0)
    decreases run
  {
    if run != [] {
      var s1 := Next(run[0].env, s, run[0].action);
      StepClock(s, run[0]);
      FallsOnce(s, run[0]);
      RatioFalls(s1, run[1..], p);
      FallMore(s.ratio, p.ratioStep, |Adjustments(s1, run[1..])|);
    }
  }

  /** The stablecoin trades below the band at every adjustment of the run. */
  ghost predicate BelowBand(s: State, run: seq<Event>)
    decreases run
  {
    run != [] ==>
      && (Adjusts(s, run[0]) ==> Low(run[0].env))
      && BelowBand(Next(run[0].env, s, run[0].action), run[1..])
  }

  predicate Low(env: Env) {
    USM in env.prices && env.prices[USM] < ONE - env.params.ratioPriceBand
  }

  lemma RisesOnce(s: State, e: Event)
    requires ParamsOk(e.env.params) && s.ratio <= ONE && (Adjusts(s, e) ==> Low(e.env))
    ensures Next(e.env, s, e.action).ratio
              == if Adjusts(s, e) then Min(s.ratio + e.env.params.ratioStep, ONE) else s.ratio
  {
    StepClock(s, e);
    MulWhole(1, e.env.params.ratioPriceBand);
  }

  lemma RiseMore(ratio: nat, step: nat, count: nat)
    ensures Min(Min(ratio + step, ONE) + count * step, ONE) == Min(ratio + (count + 1) * step, ONE)
  {
    MulMono(0, count, step);
  }

  /** While the price stays below the band, k adjustments take the ratio up by exactly k
      steps, or to one. */
  lemma {:induction false} RatioRises(s: State, run: seq<Event>, p: Params)
    requires Governed(run, p) && s.ratio <= ONE && BelowBand(s, run)
    ensures After(s, run).ratio == Min(s.ratio + |Adjustments(s, run)| * p.ratioStep, ONE)
    decreases run
  {
    if run != [] {
      var s1 := Next(run[0].env, s, run[0].action);
      StepClock(s, run[0]);
      RisesOnce(s, run[0]);
      RatioRises(s1, run[1..], p);
      RiseMore(s.ratio, p.ratioStep, |Adjustments(s1, run[1..])|);
    }
  }

  /** The stablecoin trades within the band, its edges included, at every adjustment of the run. */
  ghost predicate InBand(s: State, run: seq<Event>)
    decreases run
  {
    run != [] ==>
      && (Adjusts(s, run[0]) ==> !High(run[0].env) && !Low(run[0].env))
      && InBand(Next(run[0].env, s, run[0].action), run[1..])
  }

  /** The height the clock shows after adjustments at some heights. */
  function Latest(before: int, heights: seq<int>): int {
    if heights == [] then before else heights[|heights| - 1]
  }

  lemma LatestMore(before: int, height: int, rest: seq<int>)
    ensures Latest(before, [height] + rest) == Latest(height, rest)
  {
    assert rest != [] ==> ([height] + rest)[|rest|] == rest[|rest| - 1];
  }

  /** Every adjustment restarts the cooldown, whether or not it moves the ratio. */
  lemma {:induction false} ClockRestarts(s: State, run: seq<Event>, p: Params)
    requires Governed(run, p) && s.ratio <= ONE
    ensures After(s, run).ratioBlock == Latest(s.ratioBlock, Adjustments(s, run))
    decreases run
  {
    if run != [] {
      var s1 := Next(run[0].env, s, run[0].action);
      StepClock(s, run[0]);
      ClockRestarts(s1, run[1..], p);
      LatestMore(s.ratioBlock, s.height, Adjustments(s1, run[1..]));
      assert [] + Adjustments(s1, run[1..]) == Adjustments(s1, run[1..]);
    }
  }

  lemma RestsOnce(s: State, e: Event)
    requires ParamsOk(e.env.params) && s.ratio <= ONE && (Adjusts(s, e) ==> !High(e.env) && !Low(e.env))
    ensures Next(e.env, s, e.action).ratio == s.ratio
  {
    StepClock(s, e);
    MulWhole(1, e.env.params.ratioPriceBand);
  }

  /** While the price stays within the band the ratio stays where it is, and the cooldown still
      restarts at every adjustment. */
  lemma {:induction false} RatioRests(s: State, run: seq<Event>, p: Params)
    requires Governed(run, p) && s.ratio <= ONE && InBand(s, run)
    ensures After(s, run).ratio == s.ratio
    ensures After(s, run).ratioBlock == Latest(s.ratioBlock, Adjustments(s, run))
    decreases run
  {
    ClockRestarts(s, run, p);
    if run != [] {
      StepClock(s, run[0]);
      RestsOnce(s, run[0]);
      RatioRests(Next(run[0].env, s, run[0].action), run[1..], p);
    }
  }

  /** A block ends unless an adjustment is due and the stablecoin has no price. */
  lemma EndsUnlessUnpriced(env: Env, s: State)
    requires 0 <= s.height
    ensures EndBlockStep(env, s).Ok? <==>
              USM in env.prices || s.height - s.ratioBlock < env.params.ratioCooldown || env.params.ratioStep == 0
  {
  }
}
