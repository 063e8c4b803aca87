/**
 What every action keeps: the ledgers add up from accounts to pools to totals, the module
 account holds exactly what the ledgers say, and every coin is on some account.
 */
module MakerInvariant {
  import opened FixedPoint
  import opened Results
  import opened MapSum
  import opened Bank
  import opened LoanMath
  import opened MakerState
  import opened MakerSpec

  // --- Column sums ----------------------------------------------------------------

  datatype Column = Coll | Debt | Iron | Principal

  function Pick(c: Column, a: AccountCollateral): int {
    match c
    case Coll => a.collateral
    case Debt => a.gridDebt
    case Iron => a.iron
    case Principal => a.gridDebt - a.lastInterest
  }

  predicate Selected(k: (Address, Denom), only: Option<Denom>) {
    only.Some? ==> k.1 == only.value
  }

  type Accounts = map<(Address, Denom), AccountCollateral>

  ghost function AccountColumn(accounts: Accounts, c: Column, only: Option<Denom>): map<(Address, Denom), int> {
    map k | k in accounts && Selected(k, only) :: Pick(c, accounts[k])
  }

  /** The sum of a column over the accounts of one denomination, or of all. */
  ghost function AccountSum(accounts: Accounts, c: Column, only: Option<Denom>): int {
    Sum(AccountColumn(accounts, c, only))
  }

  lemma AccountSumPut(accounts: Accounts, k: (Address, Denom), now: AccountCollateral, c: Column, only: Option<Denom>)
    ensures AccountSum(accounts[k := now], c, only) == AccountSum(accounts, c, only) +
              if !Selected(k, only) then 0
              else Pick(c, now) - if k in accounts then Pick(c, accounts[k]) else 0
  {
    var col := AccountColumn(accounts, c, only);
    var col' := AccountColumn(accounts[k := now], c, only);
    if Selected(k, only) {
      assert col' == col[k := Pick(c, now)];
      SumPut(col, k, Pick(c, now));
    } else {
      assert col' == col;
    }
  }

  /** The columns of the pool ledgers that add up to the totals. */
  ghost function GridMinted(pools: map<Denom, PoolBacking>): map<Denom, int> {
    map d | d in pools :: pools[d].gridMinted
  }

  ghost function IronBurned(pools: map<Denom, PoolBacking>): map<Denom, int> {
    map d | d in pools :: pools[d].ironBurned
  }

  ghost function GridDebts(pools: map<Denom, PoolCollateral>): map<Denom, int> {
    map d | d in pools :: pools[d].gridDebt
  }

  ghost function PoolIrons(pools: map<Denom, PoolCollateral>): map<Denom, int> {
    map d | d in pools :: pools[d].iron
  }

  lemma BackingSumsPut(pools: map<Denom, PoolBacking>, d: Denom, now: PoolBacking)
    ensures var was := if d in pools then pools[d] else PoolBacking(0, 0, 0);
            && Sum(GridMinted(pools[d := now])) == Sum(GridMinted(pools)) + now.gridMinted - was.gridMinted
            && Sum(IronBurned(pools[d := now])) == Sum(IronBurned(pools)) + now.ironBurned - was.ironBurned
  {
    assert GridMinted(pools[d := now]) == GridMinted(pools)[d := now.gridMinted];
    assert IronBurned(pools[d := now]) == IronBurned(pools)[d := now.ironBurned];
    SumPut(GridMinted(pools), d, now.gridMinted);
    SumPut(IronBurned(pools), d, now.ironBurned);
  }

  lemma CollateralSumsPut(pools: map<Denom, PoolCollateral>, d: Denom, now: PoolCollateral)
    ensures var was := if d in pools then pools[d] else PoolCollateral(0, 0, 0);
            && Sum(GridDebts(pools[d := now])) == Sum(GridDebts(pools)) + now.gridDebt - was.gridDebt
            && Sum(PoolIrons(pools[d := now])) == Sum(PoolIrons(pools)) + now.iron - was.iron
  {
    assert GridDebts(pools[d := now]) == GridDebts(pools)[d := now.gridDebt];
    assert PoolIrons(pools[d := now]) == PoolIrons(pools)[d := now.iron];
    SumPut(GridDebts(pools), d, now.gridDebt);
    SumPut(PoolIrons(pools), d, now.iron);
  }

  // --- The invariant --------------------------------------------------------------

  predicate AccountOk(a: AccountCollateral, height: int) {
    && 0 <= a.collateral && 0 <= a.iron
    && 0 <= a.lastInterest <= a.gridDebt
    && a.lastSettlementBlock <= height
  }

  predicate AccountsOk(accounts: Accounts, denoms: set<Denom>, height: int) {
    forall k | k in accounts :: k.1 in denoms && AccountOk(accounts[k], height)
  }

  ghost predicate PoolsMatch(pools: map<Denom, PoolCollateral>, accounts: Accounts) {
    forall d | d in pools :: PoolMatches(pools[d], accounts, d)
  }

  /** The backing ledger: pools add up to the total. */
  ghost predicate BackingOk(b: BackingBook) {
    && b.params.Keys == b.pools.Keys
    && (b.pools != map[] ==> b.total.Some?)
    && (forall d | d in b.pools :: 0 <= b.pools[d].backing)
    && b.Total().gridMinted == Sum(GridMinted(b.pools))
    && b.Total().ironBurned == Sum(IronBurned(b.pools))
    && (forall d | d in b.params :: BackingParamsOk(b.params[d]))
  }

  /** One collateral pool is the sum of its accounts. */
  ghost predicate PoolMatches(p: PoolCollateral, accounts: Accounts, d: Denom) {
    && p.collateral == AccountSum(accounts, Coll, Some(d))
    && p.gridDebt == AccountSum(accounts, Debt, Some(d))
    && p.iron == AccountSum(accounts, Iron, Some(d))
  }

  /** The collateral ledger: accounts add up to pools, pools to the total. */
  ghost predicate CollateralOk(b: CollateralBook, height: int) {
    && b.params.Keys == b.pools.Keys
    && (b.pools != map[] ==> b.total.Some?)
    && AccountsOk(b.accounts, b.pools.Keys, height)
    && PoolsMatch(b.pools, b.accounts)
    && b.Total().gridDebt == Sum(GridDebts(b.pools))
    && b.Total().iron == Sum(PoolIrons(b.pools))
    && (forall d | d in b.params :: CollateralParamsOk(b.params[d]))
  }

  /** What the ledgers say the module account holds of a denomination. */
  function Owned(backing: BackingBook, collateral: CollateralBook, d: Denom): int {
    (if d in backing.pools then backing.pools[d].backing else 0) +
    (if d in collateral.pools then collateral.pools[d].collateral else 0) +
    (if d == IRON then collateral.Total().iron else 0)
  }

  /** Custody: the module account holds exactly what the ledgers say. */
  ghost predicate Custody(bank: Bank, backing: BackingBook, collateral: CollateralBook) {
    forall d :: bank.Balance(MAKER, d) == Owned(backing, collateral, d)
  }

  ghost predicate Inv(s: State) {
    && BackingOk(s.backing)
    && CollateralOk(s.collateral, s.height)
    && Fraction(s.ratio)
    && Custody(s.bank, s.backing, s.collateral)
    && Conserved(s.bank)
  }

  /** A chain before any registration, with nothing on the module account. */
  ghost predicate Init(s: State) {
    && s.backing == BackingBook(map[], None, map[])
    && s.collateral == CollateralBook(map[], None, map[], map[])
    && Fraction(s.ratio)
    && (forall d :: s.bank.Balance(MAKER, d) == 0)
    && Conserved(s.bank)
  }

  lemma InitInv(s: State)
    requires Init(s)
    ensures Inv(s)
  {
    SumEmpty<Denom>();
    assert GridMinted(map[]) == map[] && IronBurned(map[]) == map[];
    assert GridDebts(map[]) == map[] && PoolIrons(map[]) == map[];
  }

  // --- Booking keeps the ledgers --------------------------------------------------

  lemma BookBackingKeeps(b: BackingBook, denom: Denom, grid: int, backing: int, iron: int)
    requires BackingOk(b) && denom in b.pools
    requires 0 <= b.pools[denom].backing + backing
    ensures BackingOk(BookBacking(b, denom, grid, backing, iron))
  {
    BackingSumsPut(b.pools, denom, BookBacking(b, denom, grid, backing, iron).pools[denom]);
  }

  /** The record a booking starts from: the stored one, or a fresh one. */
  predicate Was(b: CollateralBook, who: Address, denom: Denom, was: AccountCollateral) {
    if (who, denom) in b.accounts then was == b.accounts[(who, denom)]
    else was.collateral == was.gridDebt == was.iron == was.lastInterest == 0
  }

  lemma BookAccountTotals(b: CollateralBook, height: int, who: Address, denom: Denom, was: AccountCollateral,
                          now: AccountCollateral)
    requires CollateralOk(b, height) && denom in b.pools
    ensures var b' := BookAccount(b, who, denom, was, now);
            && b'.Total().gridDebt == Sum(GridDebts(b'.pools))
            && b'.Total().iron == Sum(PoolIrons(b'.pools))
  {
    CollateralSumsPut(b.pools, denom, BookAccount(b, who, denom, was, now).pools[denom]);
  }

  lemma BookAccountPools(b: CollateralBook, height: int, who: Address, denom: Denom, was: AccountCollateral,
                         now: AccountCollateral)
    requires CollateralOk(b, height) && denom in b.pools
    requires Was(b, who, denom, was) && AccountOk(now, height)
    ensures var b' := BookAccount(b, who, denom, was, now);
            && AccountsOk(b'.accounts, b.pools.Keys, height)
            && PoolsMatch(b'.pools, b'.accounts)
  {
    PoolsMatchPut(b.pools, b.accounts, (who, denom), was, now, BookAccount(b, who, denom, was, now).pools[denom]);
    AccountsOkPut(b.accounts, b.pools.Keys, height, (who, denom), now);
  }

  lemma BookAccountKeeps(b: CollateralBook, height: int, who: Address, denom: Denom, was: AccountCollateral,
                         now: AccountCollateral)
    requires CollateralOk(b, height) && denom in b.pools
    requires Was(b, who, denom, was) && AccountOk(now, height)
    ensures CollateralOk(BookAccount(b, who, denom, was, now), height)
  {
    BookAccountTotals(b, height, who, denom, was, now);
    BookAccountPools(b, height, who, denom, was, now);
    assert BookAccount(b, who, denom, was, now).pools.Keys == b.pools.Keys;
  }

  lemma AccountsOkPut(accounts: Accounts, denoms: set<Denom>, height: int, k: (Address, Denom), now: AccountCollateral)
    requires AccountsOk(accounts, denoms, height) && k.1 in denoms && AccountOk(now, height)
    ensures AccountsOk(accounts[k := now], denoms, height)
  {
  }

  lemma PoolsMatchPut(pools: map<Denom, PoolCollateral>, accounts: Accounts, k: (Address, Denom),
                      was: AccountCollateral, now: AccountCollateral, pool: PoolCollateral)
    requires PoolsMatch(pools, accounts) && k.1 in pools
    requires if k in accounts then was == accounts[k] else was.collateral == was.gridDebt == was.iron == 0
    requires pool.collateral == pools[k.1].collateral + now.collateral - was.collateral
    requires pool.gridDebt == pools[k.1].gridDebt + now.gridDebt - was.gridDebt
    requires pool.iron == pools[k.1].iron + now.iron - was.iron
    ensures PoolsMatch(pools[k.1 := pool], accounts[k := now])
  {
    forall d | d in pools
      ensures PoolMatches(pools[k.1 := pool][d], accounts[k := now], d)
    {
      assert PoolMatches(pools[d], accounts, d);
      AccountSumPut(accounts, k, now, Coll, Some(d));
      AccountSumPut(accounts, k, now, Debt, Some(d));
      AccountSumPut(accounts, k, now, Iron, Some(d));
    }
  }

  /** Settling adds interest to the debt and never changes the principal. */
  lemma SettleKeeps(acc: AccountCollateral, height: int, apr: Dec)
    requires AccountOk(acc, height) && 0 <= apr
    ensures var settled := Settle(acc, height, apr);
            && AccountOk(settled, height)
            && Pick(Principal, settled) == Pick(Principal, acc)
            && settled.gridDebt >= acc.gridDebt
  {
    InterestError(acc.gridDebt - acc.lastInterest, apr, height - acc.lastSettlementBlock);
  }

  /** A column sum is not negative, and at least what each account holds. */
  lemma ColumnBound(accounts: Accounts, denoms: set<Denom>, height: int, c: Column, d: Denom)
    requires AccountsOk(accounts, denoms, height)
    ensures 0 <= AccountSum(accounts, c, Some(d))
  {
    SumBound(AccountColumn(accounts, c, Some(d)));
  }

  lemma CellBound(accounts: Accounts, denoms: set<Denom>, height: int, c: Column, k: (Address, Denom))
    requires AccountsOk(accounts, denoms, height) && k in accounts
    ensures Pick(c, accounts[k]) <= AccountSum(accounts, c, Some(k.1))
  {
    var col := AccountColumn(accounts, c, Some(k.1));
    SumBound(col);
    assert k in col;
  }

  lemma PoolBound(b: CollateralBook, height: int, d: Denom)
    requires CollateralOk(b, height) && d in b.pools
    ensures 0 <= b.pools[d].collateral && 0 <= b.pools[d].gridDebt && 0 <= b.pools[d].iron
  {
    assert PoolMatches(b.pools[d], b.accounts, d);
    ColumnBound(b.accounts, b.pools.Keys, height, Coll, d);
    ColumnBound(b.accounts, b.pools.Keys, height, Debt, d);
    ColumnBound(b.accounts, b.pools.Keys, height, Iron, d);
  }

  lemma CellsWithin(p: PoolCollateral, accounts: Accounts, denoms: set<Denom>, height: int, k: (Address, Denom))
    requires AccountsOk(accounts, denoms, height) && k in accounts && PoolMatches(p, accounts, k.1)
    ensures accounts[k].collateral <= p.collateral && accounts[k].gridDebt <= p.gridDebt && accounts[k].iron <= p.iron
  {
    CellBound(accounts, denoms, height, Coll, k);
    CellBound(accounts, denoms, height, Debt, k);
    CellBound(accounts, denoms, height, Iron, k);
  }

  lemma AccountBound(b: CollateralBook, height: int, k: (Address, Denom))
    requires CollateralOk(b, height) && k in b.accounts
    ensures b.accounts[k].collateral <= b.pools[k.1].collateral
    ensures b.accounts[k].gridDebt <= b.pools[k.1].gridDebt
    ensures b.accounts[k].iron <= b.pools[k.1].iron
  {
    assert k.1 in b.pools && PoolMatches(b.pools[k.1], b.accounts, k.1);
    CellsWithin(b.pools[k.1], b.accounts, b.pools.Keys, height, k);
  }

  /** Each pool is within the total. */
  lemma TotalBound(b: CollateralBook, height: int)
    requires CollateralOk(b, height)
    ensures 0 <= b.Total().gridDebt && 0 <= b.Total().iron
    ensures forall d | d in b.pools :: b.pools[d].gridDebt <= b.Total().gridDebt && b.pools[d].iron <= b.Total().iron
  {
    forall d | d in b.pools
      ensures 0 <= b.pools[d].gridDebt && 0 <= b.pools[d].iron
    {
      PoolBound(b, height, d);
    }
    SumBound(GridDebts(b.pools));
    SumBound(PoolIrons(b.pools));
    forall d | d in b.pools
      ensures b.pools[d].gridDebt <= b.Total().gridDebt && b.pools[d].iron <= b.Total().iron
    {
      assert d in GridDebts(b.pools) && d in PoolIrons(b.pools);
    }
  }
}
