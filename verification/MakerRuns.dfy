/**
 Safety over whole runs: from a fresh chain, whatever messages, proposals, blocks and
 outside transfers follow in whatever order, the ledgers add up, the module account is
 solvent, and the supplies are what the ledgers account for.
 */
module MakerRuns {
  import opened Results
  import opened MapSum
  import opened Bank
  import opened MakerState
  import opened MakerSpec
  import opened MakerChain
  import opened MakerInvariant
  import opened MakerSafety

  // --- Governance keeps the invariant ---------------------------------------------

  lemma NewBackingPool(b: BackingBook, d: Denom, params: BackingParams)
    requires BackingOk(b) && d !in b.params && BackingParamsOk(params)
    ensures BackingOk(BackingBook(b.params[d := params], Some(b.Total()), b.pools[d := PoolBacking(0, 0, 0)]))
  {
    BackingSumsPut(b.pools, d, PoolBacking(0, 0, 0));
  }

  lemma RegisterBackingKeeps(env: Env, s: State, p: BackingProposal)
    requires Inv(s) && RegisterBackingStep(env, s, p).Ok?
    ensures Inv(RegisterBackingStep(env, s, p).value)
  {
    NewBackingPool(s.backing, p.denom, FilledBacking(p));
    var s' := RegisterBackingStep(env, s, p).value;
    assert Custody(s.bank, s'.backing, s.collateral);
  }

  lemma EmptyColumn(accounts: Accounts, denoms: set<Denom>, height: int, c: Column, d: Denom)
    requires AccountsOk(accounts, denoms, height) && d !in denoms
    ensures AccountSum(accounts, c, Some(d)) == 0
  {
    SumEmpty<(Address, Denom)>();
    assert AccountColumn(accounts, c, Some(d)) == map[];
  }

  lemma FreshPool(pools: map<Denom, PoolCollateral>, accounts: Accounts, height: int, d: Denom)
    requires AccountsOk(accounts, pools.Keys, height) && PoolsMatch(pools, accounts) && d !in pools
    ensures PoolsMatch(pools[d := PoolCollateral(0, 0, 0)], accounts)
    ensures AccountsOk(accounts, pools[d := PoolCollateral(0, 0, 0)].Keys, height)
  {
    EmptyColumn(accounts, pools.Keys, height, Coll, d);
    EmptyColumn(accounts, pools.Keys, height, Debt, d);
    EmptyColumn(accounts, pools.Keys, height, Iron, d);
    assert PoolMatches(PoolCollateral(0, 0, 0), accounts, d);
  }

  /** Registering a collateral: a new pool that no account has touched. */
  function WithCollateral(b: CollateralBook, d: Denom, params: CollateralParams): CollateralBook {
    b.(params := b.params[d := params], total := Some(b.Total()), pools := b.pools[d := PoolCollateral(0, 0, 0)])
  }

  lemma NewCollateralTotals(b: CollateralBook, height: int, d: Denom, params: CollateralParams)
    requires CollateralOk(b, height) && d !in b.params
    ensures var b' := WithCollateral(b, d, params);
            && b'.Total().gridDebt == Sum(GridDebts(b'.pools))
            && b'.Total().iron == Sum(PoolIrons(b'.pools))
  {
    CollateralSumsPut(b.pools, d, PoolCollateral(0, 0, 0));
  }

  lemma NewCollateralPool(b: CollateralBook, height: int, d: Denom, params: CollateralParams)
    requires CollateralOk(b, height) && d !in b.params && CollateralParamsOk(params)
    ensures CollateralOk(WithCollateral(b, d, params), height)
  {
    var b' := WithCollateral(b, d, params);
    NewCollateralTotals(b, height, d, params);
    FreshPool(b.pools, b.accounts, height, d);
    NewCollateralParams(b.params, b'.params, d, params);
    assert AccountsOk(b'.accounts, b'.pools.Keys, height) && PoolsMatch(b'.pools, b'.accounts);
    assert b'.params.Keys == b'.pools.Keys && b'.total.Some?;
  }

  lemma NewCollateralParams(all: map<Denom, CollateralParams>, now: map<Denom, CollateralParams>, d: Denom,
                            params: CollateralParams)
    requires now == all[d := params] && (forall k | k in all :: CollateralParamsOk(all[k]))
               && CollateralParamsOk(params)
    ensures now.Keys == all.Keys + {d} && forall k | k in now :: CollateralParamsOk(now[k])
  {
  }

  lemma RegisterCollateralKeeps(env: Env, s: State, p: CollateralProposal)
    requires Inv(s) && RegisterCollateralStep(env, s, p).Ok?
    ensures Inv(RegisterCollateralStep(env, s, p).value)
  {
    FilledCollateralOk(p);
    NewCollateralPool(s.collateral, s.height, p.denom, FilledCollateral(p));
    NewCollateralCustody(s.bank, s.backing, s.collateral, p.denom, FilledCollateral(p));
  }

  lemma NewCollateralCustody(bank: Bank, backing: BackingBook, b: CollateralBook, d: Denom, params: CollateralParams)
    requires Custody(bank, backing, b) && d !in b.pools
    ensures Custody(bank, backing, WithCollateral(b, d, params))
  {
  }

  lemma FilledCollateralOk(p: CollateralProposal)
    requires CollateralProposalBasic(p) && ValidateCollateral(FilledCollateral(p)).Pass?
    ensures CollateralParamsOk(FilledCollateral(p))
  {
  }

  lemma SetBackingKeeps(env: Env, s: State, p: BackingProposal)
    requires Inv(s) && SetBackingStep(env, s, p).Ok?
    ensures Inv(SetBackingStep(env, s, p).value)
  {
    var s' := SetBackingStep(env, s, p).value;
    assert s'.backing.pools == s.backing.pools && s'.backing.Total() == s.backing.Total();
    assert s'.backing.params.Keys == s.backing.params.Keys;
    assert Custody(s'.bank, s'.backing, s'.collateral);
  }

  lemma PatchedCollateralOk(c: CollateralParams, p: CollateralProposal)
    requires CollateralParamsOk(c) && CollateralProposalBasic(p) && ValidateCollateral(PatchedCollateral(c, p)).Pass?
    ensures CollateralParamsOk(PatchedCollateral(c, p))
  {
  }

  lemma ParamsPut(b: CollateralBook, height: int, d: Denom, params: CollateralParams)
    requires CollateralOk(b, height) && d in b.params && CollateralParamsOk(params)
    ensures CollateralOk(b.(params := b.params[d := params]), height)
  {
    assert b.params[d := params].Keys == b.params.Keys;
  }

  lemma SetCollateralKeeps(env: Env, s: State, p: CollateralProposal)
    requires Inv(s) && SetCollateralStep(env, s, p).Ok?
    ensures Inv(SetCollateralStep(env, s, p).value)
  {
    var was := s.collateral.params[p.denom];
    if !EmptyCollateralPatch(was, p) {
      PatchedCollateralOk(was, p);
      ParamsPut(s.collateral, s.height, p.denom, PatchedCollateral(was, p));
      ParamsCustody(s.bank, s.backing, s.collateral, s.collateral.params[p.denom := PatchedCollateral(was, p)]);
    }
  }

  lemma ParamsCustody(bank: Bank, backing: BackingBook, b: CollateralBook, params: map<Denom, CollateralParams>)
    requires Custody(bank, backing, b)
    ensures Custody(bank, backing, b.(params := params))
  {
  }

  lemma {:induction false} SetBackingBatchKeeps(env: Env, s: State, ps: seq<BackingProposal>)
    requires Inv(s) && SetBackingBatch(env, s, ps).Ok?
    ensures Inv(SetBackingBatch(env, s, ps).value)
    decreases ps
  {
    if ps != [] {
      SetBackingKeeps(env, s, ps[0]);
      SetBackingBatchKeeps(env, SetBackingStep(env, s, ps[0]).value, ps[1..]);
    }
  }

  lemma {:induction false} SetCollateralBatchKeeps(env: Env, s: State, ps: seq<CollateralProposal>)
    requires Inv(s) && SetCollateralBatch(env, s, ps).Ok?
    ensures Inv(SetCollateralBatch(env, s, ps).value)
    decreases ps
  {
    if ps != [] {
      SetCollateralKeeps(env, s, ps[0]);
      SetCollateralBatchKeeps(env, SetCollateralStep(env, s, ps[0]).value, ps[1..]);
    }
  }

  // --- Blocks and the rest of the chain -------------------------------------------

  lemma EndBlockKeeps(env: Env, s: State)
    requires Inv(s) && EnvOk(env) && EndBlockStep(env, s).Ok?
    ensures Inv(EndBlockStep(env, s).value)
  {
    var s' := EndBlockStep(env, s).value;
    assert AccountsOk(s.collateral.accounts, s.collateral.pools.Keys, s'.height);
    assert Custody(s'.bank, s'.backing, s'.collateral);
  }

  lemma {:induction false} ElsewhereNeutral(moves: seq<Move>, d: Denom)
    requires forall m | m in moves :: MindsItsBusiness(m)
    ensures DeltaAll(moves, MAKER, d) == 0
    ensures d == USM || d == IRON ==> SupplyDeltaAll(moves, d) == 0
  {
    if moves != [] {
      assert MindsItsBusiness(moves[0]);
      ElsewhereNeutral(moves[1..], d);
    }
  }

  lemma ElsewhereKeeps(s: State, moves: seq<Move>)
    requires Inv(s) && ElsewhereStep(s, moves).Ok?
    ensures Inv(ElsewhereStep(s, moves).value)
    ensures ElsewhereStep(s, moves).value.bank.Supply(USM) == s.bank.Supply(USM)
    ensures ElsewhereStep(s, moves).value.bank.Supply(IRON) == s.bank.Supply(IRON)
  {
    var bank := ApplyAll(s.bank, moves).value;
    ApplyAllConserves(s.bank, moves);
    forall d
      ensures bank.Balance(MAKER, d) == s.bank.Balance(MAKER, d)
      ensures d == USM || d == IRON ==> bank.Supply(d) == s.bank.Supply(d)
    {
      ElsewhereNeutral(moves, d);
      ApplyAllExact(s.bank, moves, MAKER, d);
    }
    assert Custody(bank, s.backing, s.collateral);
    assert bank.Balance(MAKER, USM) == s.bank.Balance(MAKER, USM);
    assert bank.Balance(MAKER, IRON) == s.bank.Balance(MAKER, IRON);
  }

  // --- Every action, every run ----------------------------------------------------

  lemma RegistrationKeeps(env: Env, s: State, a: Action)
    requires Inv(s) && (a.RegisterBacking? || a.RegisterCollateral?) && Step(env, s, a).Ok?
    ensures Inv(Step(env, s, a).value)
  {
    if a.RegisterBacking? { RegisterBackingKeeps(env, s, a.backing); }
        else { RegisterCollateralKeeps(env, s, a.collateral); }
  }

  lemma PatchKeeps(env: Env, s: State, a: Action)
    requires Inv(s) && EnvOk(env) && (a.SetBacking? || a.SetCollateral?) && Step(env, s, a).Ok?
    ensures Inv(Step(env, s, a).value)
  {
    if a.SetBacking? {
      SetBackingBatchKeeps(env, s, a.backings);
    } else {
      SetCollateralBatchKeeps(env, s, a.collaterals);
    }
  }

  /** Each action keeps the invariant. */
  lemma StepKeeps(env: Env, s: State, a: Action)
    requires Inv(s) && EnvOk(env)
    ensures Step(env, s, a).Ok? ==> Inv(Step(env, s, a).value)
  {
    if a.Tx? {
      MsgKeeps(env, s, a.msg);
    } else if Step(env, s, a).Ok? {
      if a.RegisterBacking? || a.RegisterCollateral? {
        RegistrationKeeps(env, s, a);
      } else if a.SetBacking? || a.SetCollateral? {
        PatchKeeps(env, s, a);
      } else if a.EndBlock? {
        EndBlockKeeps(env, s);
      } else {
        ElsewhereKeeps(s, a.moves);
      }
    }
  }

  /** An action together with what it sees of the chain. */
  datatype Event = Event(env: Env, action: Action)

  predicate EventsOk(run: seq<Event>) {
    forall e | e in run :: EnvOk(e.env)
  }

  ghost function After(s: State, run: seq<Event>): State
    decreases run
  {
    if run == [] then s else After(Next(run[0].env, s, run[0].action), run[1..])
  }

  /** From a fresh chain, every run keeps the invariant: accounts add up to pools and pools
      to totals, the module account holds exactly what the ledgers say, and all coins are
      accounted for. */
  lemma {:induction false} RunKeeps(s: State, run: seq<Event>)
    requires Inv(s) && EventsOk(run)
    ensures Inv(After(s, run))
    decreases run
  {
    if run != [] {
      assert EnvOk(run[0].env);
      StepKeeps(run[0].env, s, run[0].action);
      RunKeeps(Next(run[0].env, s, run[0].action), run[1..]);
    }
  }

  lemma FreshRunKeeps(s: State, run: seq<Event>)
    requires Init(s) && EventsOk(run)
    ensures Inv(After(s, run))
  {
    InitInv(s);
    RunKeeps(s, run);
  }

  // --- Supply ---------------------------------------------------------------------

  /** The interest a successful liquidation repays, which it burns with the principal. */
  ghost function LiquidatedInterest(env: Env, s: State, a: Action): int {
    if a.Tx? && a.msg.LiquidateCollateral? && Step(env, s, a).Ok?
    then QuoteLiquidation(env, s, a.msg).value.RepayInterest()
    else 0
  }

  ghost function LiquidatedInterests(s: State, run: seq<Event>): int
    decreases run
  {
    if run == [] then 0 else
      LiquidatedInterest(run[0].env, s, run[0].action)
        + LiquidatedInterests(Next(run[0].env, s, run[0].action), run[1..])
  }

  /** The volatile coin's supply together with what has been burned of it. */
  ghost function IronEver(s: State): int {
    s.bank.Supply(IRON) + s.backing.Total().ironBurned
  }

  /** The supplies moved as the ledgers did, but for the interest burned. */
  ghost predicate SupplyFollows(s: State, s': State, burned: int) {
    && s'.bank.Supply(USM) - s.bank.Supply(USM) == Outstanding(s') - Outstanding(s) - burned
    && IronEver(s') == IronEver(s)
  }

  function Burned(p: Plan): int {
    if p.Loan? then p.interestBurned else 0
  }

  lemma PlanSupply(s: State, p: Plan)
    requires Bookable(s, p) && Sound(s, p) && Execute(s, p).Ok?
    ensures SupplyFollows(s, Execute(s, p).value, Burned(p))
  {
    if p.Swap? { SwapSupply(s, p); } else { LoanSupply(s, p); }
  }

  lemma PlanInterest(env: Env, s: State, m: Msg)
    requires MsgPlan(env, s, m).Ok?
    ensures var p := MsgPlan(env, s, m).value;
            Burned(p) == if m.LiquidateCollateral? then QuoteLiquidation(env, s, m).value.RepayInterest() else 0
  {
  }

  lemma MsgInterest(env: Env, s: State, m: Msg)
    requires MsgStep(env, s, m).Ok?
    ensures LiquidatedInterest(env, s, Tx(m)) == Burned(MsgPlan(env, s, m).value)
  {
    PlanInterest(env, s, m);
  }

  lemma MsgSupply(env: Env, s: State, m: Msg)
    requires Inv(s) && EnvOk(env) && MsgStep(env, s, m).Ok?
    ensures SupplyFollows(s, MsgStep(env, s, m).value, LiquidatedInterest(env, s, Tx(m)))
  {
    MsgSound(env, s, m);
    MsgInterest(env, s, m);
    PlanSupply(s, MsgPlan(env, s, m).value);
  }

  /** The two supplies and what the ledgers account for are the same. */
  lemma SameSupply(s: State, s': State)
    requires s'.bank == s.bank && s'.backing.Total() == s.backing.Total()
    requires s'.collateral.accounts == s.collateral.accounts
    ensures SupplyFollows(s, s', 0)
  {
  }

  lemma PatchSupply(env: Env, s: State, a: Action)
    requires (a.SetBacking? || a.SetCollateral?) && Step(env, s, a).Ok?
    ensures SupplyFollows(s, Step(env, s, a).value, 0)
  {
    if a.SetBacking? { SetBackingSupply(env, s, a.backings); } else { SetCollateralSupply(env, s, a.collaterals); }
    SameSupply(s, Step(env, s, a).value);
  }

  lemma OtherSupply(env: Env, s: State, a: Action)
    requires (a.RegisterBacking? || a.RegisterCollateral? || a.EndBlock?) && Step(env, s, a).Ok?
    ensures SupplyFollows(s, Step(env, s, a).value, 0)
  {
    SameSupply(s, Step(env, s, a).value);
  }

  lemma ElsewhereSupply(env: Env, s: State, moves: seq<Move>)
    requires Inv(s) && ElsewhereStep(s, moves).Ok?
    ensures SupplyFollows(s, ElsewhereStep(s, moves).value, 0)
  {
    ElsewhereKeeps(s, moves);
  }

  lemma StepSupply(env: Env, s: State, a: Action)
    requires Inv(s) && EnvOk(env) && Step(env, s, a).Ok?
    ensures SupplyFollows(s, Step(env, s, a).value, LiquidatedInterest(env, s, a))
  {
    if a.Tx? {
      MsgSupply(env, s, a.msg);
    } else if a.Elsewhere? {
      ElsewhereSupply(env, s, a.moves);
    } else if a.SetBacking? || a.SetCollateral? {
      PatchSupply(env, s, a);
    } else {
      OtherSupply(env, s, a);
    }
  }

  lemma {:induction false} SetBackingSupply(env: Env, s: State, ps: seq<BackingProposal>)
    requires SetBackingBatch(env, s, ps).Ok?
    ensures var s' := SetBackingBatch(env, s, ps).value;
            s'.bank == s.bank && s'.backing.Total() == s.backing.Total() && s'.collateral == s.collateral
    decreases ps
  {
    if ps != [] { SetBackingSupply(env, SetBackingStep(env, s, ps[0]).value, ps[1..]); }
  }

  lemma {:induction false} SetCollateralSupply(env: Env, s: State, ps: seq<CollateralProposal>)
    requires SetCollateralBatch(env, s, ps).Ok?
    ensures var s' := SetCollateralBatch(env, s, ps).value;
            s'.bank == s.bank && s'.backing == s.backing && s'.collateral.accounts == s.collateral.accounts
    decreases ps
  {
    if ps != [] { SetCollateralSupply(env, SetCollateralStep(env, s, ps[0]).value, ps[1..]); }
  }

  /** Over every run the stablecoin's supply grows by what the ledgers newly account for,
      less the interest repaid through liquidations; and the volatile coin's supply plus
      the amount burned never changes. */
  lemma {:induction false} RunSupply(s: State, run: seq<Event>)
    requires Inv(s) && EventsOk(run)
    ensures SupplyFollows(s, After(s, run), LiquidatedInterests(s, run))
    decreases run
  {
    if run != [] {
      var e := run[0];
      assert EnvOk(e.env);
      if Step(e.env, s, e.action).Ok? {
        StepKeeps(e.env, s, e.action);
        StepSupply(e.env, s, e.action);
      }
      RunSupply(Next(e.env, s, e.action), run[1..]);
    }
  }

  /** Started fresh, the supply is the initial one plus what the ledgers account for. */
  lemma FreshRunSupply(s: State, run: seq<Event>)
    requires Init(s) && EventsOk(run)
    ensures var s' := After(s, run);
            && s'.bank.Supply(USM) == s.bank.Supply(USM) + s'.backing.Total().gridMinted
                 + AccountSum(s'.collateral.accounts, Principal, None) - LiquidatedInterests(s, run)
            && s'.bank.Supply(IRON) == s.bank.Supply(IRON) - s'.backing.Total().ironBurned
  {
    InitInv(s);
    RunSupply(s, run);
    SumEmpty<(Address, Denom)>();
    assert AccountColumn(s.collateral.accounts, Principal, None) == map[];
  }
}
