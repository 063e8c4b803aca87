# Verification of a fractional-algorithmic stablecoin chain

This project models the ledgers of a Cosmos SDK chain that issues a stablecoin (`uusm`)
backed partly by other coins and partly by a volatile coin (`airon`), and proves what they
keep over whole runs. Four components are covered.

* **The maker** (`Maker*.dfy`, `SwapMath`, `LoanMath`): nine messages, governance
  registration and the end of a block act on three layers of ledger (account, pool, total)
  and on the bank. `MakerSpec` and `MakerChain` say what each action books and which coins
  it moves on balance; `MakerInvariant`, `MakerSafety`, `MakerRuns` and `MakerSolvency`
  prove conservation, custody, supply and solvency over every run; `MakerValue` proves the
  value bounds through all roundings, the link between the loan limit and liquidation, and
  the interest bound; `MakerBlock` that a position is out of a liquidator's reach for the
  whole block it was granted in; `MakerTrade` what a message promises its sender;
  `MakerQuotes` and `MakerSuccess` exactly when a message succeeds; `MakerPayments` every
  balance and record after it;
  `MakerCeilings`, `MakerDebt` and `MakerGovernance` what ceilings, patches and defaults
  mean over every run; `MakerRatio` bounds the backing ratio over every run. `MakerKeeper`
  is the imperative keeper, whose handlers route every coin through the module account, and
  is proved to do exactly what the specification says.
* **The dual ledger** (`Denoms`, `PairRegistry`, `Dual*.dfy`): every native coin also lives
  in an ERC-20 contract, and bank-side operations act on both.
* **The gauge** (`Gauge*.dfy`): checkpoint histories searched by halving, tickets derived
  from deposits and voting power, and a reward accumulator.
* **The oracle's period end** (`Oracle*.dfy`): ballots, the reference coin, rates, claims
  and misses, independent of map iteration and sort order.

`FixedPoint` models the 18-decimal `sdk.Dec` as an integer scaled by 10^18. `Mul`, `Quo`
and `RoundInt` round half to even; `QuoTruncate`, `QuoInt64` and `TruncateInt` truncate;
`QuoRoundUp` rounds up; `MulInt` and `MulInt64` are exact. `Bank` holds balances and
supplies without zero entries. `MapSum` sums over finite maps. `Runs` says what it takes for
a property to hold after every prefix of a run.

Inputs of the model: oracle prices, module parameters, the set of blocked addresses, block
height and time, voting power, the address a contract deployment gets, what a contract
answers about itself, and the floating-point square root of the oracle's tally. A failed or
panicking action leaves the state as it was; `Panic` stands for a Go panic.

Where code and documentation differ, the model follows the code: `BurnPriceBias` reads the
mint bias (`x/maker/keeper/params.go:45`), liquidation burns the interest part of a
repayment (`x/maker/keeper/msg_server.go:650`), and an update of the reward accumulator
skips the interval between the last two checkpoints (`x/gauge/keeper/base.go:200`).

Properties that do not hold of the code as it stands are settled exactly:

* A position just allowed its debt is safe from liquidation if and only if the collateral's
  limit at full catalysis, as rounded, stays below its threshold
  (`LoanMath.SafeIff`; `LoanMath.AllowedCanBeUnsafe` gives registered parameters that
  fail).
* No account can borrow past the configured loan-to-value if and only if the parameters
  pass `LoanMath.LimitHolds` (`LoanMath.LimitHoldsIff`, `LoanMath.LimitCanFail`).
* Recapitalising is accepted without a deficit exactly when the backing offered is worth
  less than one airon by more than half a unit in the 18th decimal and the excess rounds
  away (`SwapMath.RebackWithoutDeficit`, `MakerValue.SellWithoutDeficit`;
  `MakerExamples.SaleWithoutDeficit` is such a message).
* A transfer keeps bank and contracts equal if and only if it goes back to its sender or
  none of its tokens names the contract of a native coin (`DualMirror.SendKeepsIff`,
  `DualRuns.MirrorCanBreak`); a multi-send if and only if every account takes out the
  tokens naming such a contract that it put in (`DualMirror.MultiSendKeepsIff`,
  `DualRuns.MultiSendCanBreak`).
* Deleting a token pair keeps the registry a bijection if and only if the pair is registered
  or both its names are free (`PairRegistry.RemoveKeepsIff`, `PairRegistry.RemoveCanBreak`).
  In the source only a test calls `DeleteTokenPair`.
* The pools stay within their four ceilings over a run if and only if no batch of patches
  leaves a ceiling below what its pool holds and no message settles more interest than fits
  the ceiling on debt (`MakerDebt.CeilingsRunIff`; `MakerExamples.CeilingCanBreak` and
  `MakerExamples.InterestCanBreak` break one either way). The principals alone never pass it
  (`MakerDebt.PrincipalsRunIff`).
* The oracle's reference rate is positive if and only if the power behind it is at least two
  or nobody abstained on it (`OracleEnd.RatesPositive`, `OracleBallot.AbstentionCanWin`).
* An update of the reward accumulator over two or more checkpoints succeeds if and only if
  the last update is not before the first checkpoint (`GaugeReward.UpdateWhen`). A reward
  deposited before the first checkpoint can fail this, and then fails for good
  (`GaugeStream.RewardCanHalt`, `GaugeStream.HaltedForGood`).

## Model

| member | source | states |
|---|---|---|
| `SwapMath.FeeWithin` | x/maker/keeper/calculate.go:622-628 | a fee at a fractional rate is never negative nor more than the amount |
| `SwapMath.FeeNearest` | x/maker/keeper/calculate.go:622-628 | the fee is within half a unit of the exact one |
| `SwapMath.MintLegsBound` | x/maker/keeper/calculate.go:115-174 | in every branch a positive cap holds and the dollars minted for are at most the value taken plus half the computed leg's price and a unit in the 18th decimal |
| `SwapMath.MintLegsTight` | x/maker/keeper/calculate.go:115-151 | the coins taken are worth at most the value minted for plus half the computed leg's price and its rounding |
| `SwapMath.MintLegsShares` | x/maker/keeper/calculate.go:115-151 | which coins a mint takes: backing alone, iron alone, or of one coin all that is offered and of each what its share of the value comes to, up to rounding |
| `SwapMath.BurnPayoutExact` | x/maker/keeper/calculate.go:297-308 | each coin paid is the most whole units its share of the burn buys |
| `SwapMath.BurnPayoutBound` | x/maker/keeper/calculate.go:291-310 | a burn pays coins worth at most the stablecoins burned |
| `SwapMath.RequiredBackingLeast` | x/maker/keeper/calculate.go:689-693 | the required backing is the least whole value covering the ratio of the minted amount, and zero when more was burned than minted |
| `SwapMath.BuyBackOutBound` | x/maker/keeper/calculate.go:406-416 | the backing bought is what the iron's value buys in whole units, and worth no more than the excess, up to half a unit in the 18th decimal of its price |
| `SwapMath.RebackMintBound` | x/maker/keeper/calculate.go:528-542 | minted iron proves a deficit, and the backing sold is worth less than the deficit plus one airon and its rounding |
| `SwapMath.RebackMintExact` | x/maker/keeper/calculate.go:531-532 | the iron earned is what the backing's value buys, in whole units and up to rounding |
| `SwapMath.EarnsNothingIff` | x/maker/keeper/calculate.go:531-532 | backing earns no iron exactly when its value is below one airon's by more than half a unit in the 18th decimal of it |
| `SwapMath.RebackWithoutDeficit` | x/maker/keeper/calculate.go:528-542 | without a deficit, acceptance holds exactly when the backing is worth too little to earn iron and the excess rounds away |
| `MakerValue.SellWithoutDeficit` | x/maker/keeper/calculate.go:492-546 | without a deficit, a sale is quoted exactly when moreover its coin is enabled and stays within its ceiling |
| `MakerExamples.SaleWithoutDeficit` | x/maker/keeper/msg_server.go:259-308 | a SellBacking message that succeeds in a state without a deficit |
| `LoanMath.LtvRange` | x/maker/keeper/calculate.go:598-610 | the available limit lies between the basic one and the one at full catalysis |
| `LoanMath.LtvProportional` | x/maker/keeper/calculate.go:603-609 | the bonus over the basic limit is the catalysed share of the gap, up to rounding |
| `LoanMath.LtvOvershoot` | x/maker/keeper/calculate.go:605-609 | rounding lifts the limit past the configured one by at most (1/(2 ratio) + 1/2) units in the 18th decimal |
| `LoanMath.LimitHoldsIff` | x/maker/keeper/calculate.go:605-610 | no account ever exceeds the configured loan-to-value if and only if the parameters pass a check on their own product |
| `LoanMath.ExactProductHolds` | x/maker/keeper/calculate.go:605-610 | the check passes whenever ratio times (limit minus basic limit) fits 18 decimals |
| `LoanMath.LimitCanFail` | x/maker/keeper/proposal_handler.go:256-264 | parameters that validation accepts and under which a position may borrow 1.4 times its value |
| `LoanMath.ChecksAgree` | x/maker/keeper/msg_server.go:542-549 | the debt checks of minting and withdrawing agree wherever both are defined |
| `LoanMath.DebtWithinLimit` | x/maker/keeper/calculate.go:611-616 | both debt checks bound the debt by value times the available limit, up to half a unit |
| `LoanMath.AllowedIsSafe` | x/maker/keeper/msg_server.go:608-615 | an allowed position is liquidatable exactly when it owes nothing and its threshold value rounds to zero |
| `LoanMath.UnsafePosition` | x/maker/keeper/msg_server.go:608-615 | when the rounded full limit reaches the threshold, some position can be opened and liquidated at once |
| `LoanMath.SafeIff` | x/maker/keeper/msg_server.go:608-615 | no position can be opened and liquidated at the same prices if and only if the full limit is below the threshold |
| `LoanMath.AllowedCanBeUnsafe` | x/maker/keeper/proposal_handler.go:256-264 | accepted parameters and a position that is liquidatable as soon as it is allowed |
| `LoanMath.CommissionBound` | x/maker/keeper/msg_server.go:617-619 | the commission is the exact share rounded down, within the seized amount and within the liquidation fee |
| `LoanMath.LiquidatorNeverOverpays` | x/maker/keeper/msg_server.go:617-620 | the liquidator pays at most the oracle value of the collateral received |
| `LoanMath.LiquidationDeleverages` | x/maker/keeper/msg_server.go:617-637 | debt at most (1 - fee) of the value: the debt-to-collateral ratio does not rise, up to one micro-coin |
| `LoanMath.LiquidationLeverages` | x/maker/keeper/msg_server.go:617-637 | beyond that, by more than one payment's rounding, it does rise |
| `LoanMath.InterestError` | x/maker/keeper/msg_server.go:742-744 | one settlement is within half a micro-coin and a unit in the 18th decimal of simple interest |
| `Bank.ApplyAllExact` | x/maker/keeper/msg_server.go:57-86 | a flow of coins changes every balance and supply by exactly the sum of its arrows |
| `Bank.ApplyAllConserves` | x/maker/keeper/msg_server.go:57-86 | every flow keeps each supply equal to the sum of all balances |
| `MakerInvariant.BookBackingKeeps` | x/maker/keeper/msg_server.go:47-55 | booking a swap keeps pools adding up to the total |
| `MakerInvariant.BookAccountKeeps` | x/maker/keeper/msg_server.go:407-415 | replacing an account and carrying the difference keeps accounts adding up to pools and pools to totals |
| `MakerInvariant.SettleKeeps` | x/maker/keeper/msg_server.go:735-754 | settling adds interest, keeps 0 <= interest <= debt, and never changes the principal |
| `MakerSafety.MintBySwapSound` | x/maker/keeper/msg_server.go:25-86 | MintBySwap pays, mints and burns exactly what it books |
| `MakerSafety.BurnBySwapSound` | x/maker/keeper/msg_server.go:108-170 | BurnBySwap pays, mints and burns exactly what it books |
| `MakerSafety.BuyBackingSound` | x/maker/keeper/msg_server.go:191-239 | BuyBacking pays and burns exactly what it books |
| `MakerSafety.SellBackingSound` | x/maker/keeper/msg_server.go:259-308 | SellBacking takes and mints exactly what it books |
| `MakerSafety.MintByCollateralSound` | x/maker/keeper/msg_server.go:331-363 | MintByCollateral mints exactly the principal it books |
| `MakerSafety.BurnByCollateralSound` | x/maker/keeper/msg_server.go:382-440 | BurnByCollateral burns the principal repaid and passes the interest on |
| `MakerSafety.DepositCollateralSound` | x/maker/keeper/msg_server.go:458-498 | DepositCollateral takes exactly what it books |
| `MakerSafety.RedeemCollateralSound` | x/maker/keeper/msg_server.go:513-560 | RedeemCollateral pays exactly what it books |
| `MakerSafety.LiquidateSound` | x/maker/keeper/msg_server.go:575-671 | LiquidateCollateral pays what it books and burns principal and interest |
| `MakerSafety.MsgKeeps` | x/maker/keeper/msg_server.go:25-671 | every successful message keeps ledger hierarchy, custody and conservation |
| `MakerRuns.StepKeeps` | x/maker/keeper/proposal_handler.go:10-148 | so do registration, parameter changes, the end of a block and coins moving elsewhere |
| `MakerRuns.RunKeeps` | x/maker/keeper/msg_server.go:401-642 | over every run: accounts sum to pools, pools to totals, and the module account holds exactly backing plus collateral plus iron, of every coin |
| `MakerRuns.FreshRunKeeps` | x/maker/keeper/proposal_handler.go:47-59 | from a chain before any registration, every run keeps all of that |
| `MakerRuns.RunSupply` | x/maker/keeper/msg_server.go:627-653 | over every run: stablecoin supply moves with minted total plus principals less interest burned by liquidations, and iron supply plus iron burned is constant |
| `MakerRuns.FreshRunSupply` | x/maker/keeper/msg_server.go:51-74 | the supply identities from a fresh chain |
| `MakerSolvency.Solvent` | x/maker/keeper/msg_server.go:133-170 | executing a message fails only for want of the sender's coins, for a blocked receiver, or by a panic on a payout naming one denomination twice: every payout the ledgers allow is funded |
| `MakerQuotes.MintsAbovePeg` | x/maker/keeper/calculate.go:630-641 | MintBySwap succeeds only at a market price of at least one plus the mint bias |
| `MakerQuotes.BurnsBelowPeg` | x/maker/keeper/calculate.go:643-654 | BurnBySwap succeeds only at a market price of at most one minus the bias |
| `MakerQuotes.LegsWhen` | x/maker/keeper/calculate.go:115-151 | the value minted for is the least that any offered coin covers for its share, and is found unless the price to divide by is zero |
| `MakerQuotes.MintQuotedWhen` | x/maker/keeper/calculate.go:81-174 | a mint is quoted if and only if the price is above the peg, the coin is enabled, priced and has a pool, the computed coin has a positive price, and stablecoins and backing stay within their ceilings |
| `MakerQuotes.BurnQuotedWhen` | x/maker/keeper/calculate.go:261-325 | a burn is quoted if and only if the price is below the peg, the coin is enabled, priced and has a pool, the coins paid have positive prices, and the backing its share buys is in the pool and on the module account |
| `MakerQuotes.BuyQuotedWhen` | x/maker/keeper/calculate.go:382-434 | a buyback is quoted if and only if the iron is worth at most the excess and the backing it buys is in the pool and on the module account |
| `MakerQuotes.SellQuotedWhen` | x/maker/keeper/calculate.go:492-546 | a sale is quoted if and only if the backing fits its ceiling and the iron earned is at most what the deficit is worth |
| `MakerSuccess.MintSucceedsWhen` | x/maker/keeper/msg_server.go:25-86 | MintBySwap succeeds if and only if it is valid and quoted, brings the least asked, takes a set of coins the sender has, and the receiver may receive |
| `MakerSuccess.BurnSucceedsWhen` | x/maker/keeper/msg_server.go:108-170 | BurnBySwap succeeds if and only if it is valid and quoted, brings the least asked as a set of coins, the sender has the stablecoins, and the receiver may receive |
| `MakerSuccess.BuySucceedsWhen` | x/maker/keeper/msg_server.go:191-239 | BuyBacking succeeds if and only if it is valid and quoted, brings the least asked, the sender has the iron, and the receiver may receive |
| `MakerSuccess.SellSucceedsWhen` | x/maker/keeper/msg_server.go:259-308 | SellBacking succeeds if and only if it is valid and quoted, brings the least asked, the sender has the backing, and the receiver may receive |
| `MakerSuccess.BorrowSucceedsWhen` | x/maker/keeper/msg_server.go:331-363 | MintByCollateral succeeds if and only if the coin is enabled, both prices are known, the sender has a record, the debt stays under its ceiling and is covered at the available limit, and the receiver may receive |
| `MakerSuccess.RepaySucceedsWhen` | x/maker/keeper/msg_server.go:382-440 | BurnByCollateral succeeds if and only if the coin is enabled, the sender's record has a debt, and the sender has the stablecoins to repay |
| `MakerSuccess.DepositSucceedsWhen` | x/maker/keeper/msg_server.go:458-498 | DepositCollateral succeeds if and only if the coin is enabled, the coins make a set the sender has, and the collateral stays under its ceiling |
| `MakerSuccess.RedeemSucceedsWhen` | x/maker/keeper/msg_server.go:513-560 | RedeemCollateral succeeds if and only if the coin is enabled, both prices are known, the record holds the coins, what is left covers the debt, the coins make a set, and the receiver may receive |
| `MakerSuccess.SeizureSucceedsWhen` | x/maker/keeper/msg_server.go:575-671 | LiquidateCollateral succeeds if and only if the coin is enabled and priced, the record is at or over its threshold and holds the collateral, the price is within the most offered and the sender has it, the receiver may receive, and so may the debtor if anything is left for it |
| `MakerPayments.MintPays` | x/maker/keeper/msg_server.go:57-86 | after MintBySwap, for every account and coin: the sender gave the coins booked, the receiver got the stablecoins booked less the fee, the oracle the fee, the maker the backing; the coins are taken in their shares at a fair value |
| `MakerPayments.BurnPays` | x/maker/keeper/msg_server.go:140-170 | after BurnBySwap, for every account and coin: the sender gave all, the oracle got the fee, and the receiver of each coin the most its share of the rest buys |
| `MakerPayments.BuyPays` | x/maker/keeper/msg_server.go:219-239 | after BuyBacking, for every account and coin: the sender gave the iron, and the backing it buys went to the receiver, but for the buyback fee to the oracle |
| `MakerPayments.SellPays` | x/maker/keeper/msg_server.go:283-308 | after SellBacking, for every account and coin: the sender gave the backing, the receiver got the iron it earns and the bonus less the reback fee, and the oracle the fee |
| `MakerPayments.BorrowPays` | x/maker/keeper/msg_server.go:340-363 | after MintByCollateral, for every account and coin: the receiver got the amount, the oracle the fee, and only the sender's record changed, by both as debt |
| `MakerPayments.RepayPays` | x/maker/keeper/msg_server.go:396-440 | after BurnByCollateral, for every account and coin: the sender gave what was offered, at most what is owed, the oracle got the part that is interest, and only the sender's record changed, by both |
| `MakerPayments.DepositPays` | x/maker/keeper/msg_server.go:470-498 | after DepositCollateral, for every account and coin: the sender gave both coins to the maker, and only the receiver's record changed, by both |
| `MakerPayments.RedeemPays` | x/maker/keeper/msg_server.go:528-560 | after RedeemCollateral, for every account and coin: the receiver got both coins from the maker, and only the sender's record changed, by both |
| `MakerPayments.LiquidationPays` | x/maker/keeper/msg_server.go:617-671 | after LiquidateCollateral, for every account and coin: the sender paid the value seized less the liquidation fee, the debt took what was owed and the debtor got the rest, the receiver got the collateral less the commission and the oracle the commission, and only the debtor's record changed |
| `MakerPayments.LiquidationSettles` | x/maker/keeper/msg_server.go:617-671 | between different accounts: the sender's stablecoins fall by the price, the debtor's rise by what it exceeds the debt, the receiver's collateral rises by the seizure less the commission, and the oracle's by the commission |
| `MakerValue.MintWorth` | x/maker/keeper/calculate.go:81-174 | the quote respects positive caps, mints, fee included, at most the value taken plus the slack, and takes little more than it mints |
| `MakerValue.BurnWorth` | x/maker/keeper/calculate.go:261-325 | the quote pays coins worth at most the burn less its fee |
| `MakerValue.SwapRoundTrip` | x/maker/keeper/calculate.go:261-325 | mint then burn at the same ratio and asset prices gains at most the mint's slack |
| `MakerValue.BuyBackingKeepsRequired` | x/maker/keeper/msg_server.go:212-217 | after BuyBacking the backing's value is at least the required value, less half a unit in the 18th decimal of the price |
| `MakerValue.SellBackingStopsAtRequired` | x/maker/keeper/calculate.go:528-546 | SellBacking overshoots the required value by less than a micro-dollar and one airon, and mints iron only in deficit |
| `MakerValue.BorrowWithinLimit` | x/maker/keeper/calculate.go:598-617 | after MintByCollateral the stored debt is within a limit between the basic and the full loan-to-value |
| `MakerValue.RedeemWithinLimit` | x/maker/keeper/msg_server.go:542-549 | the same after RedeemCollateral, unless what is left is worthless and nothing is owed |
| `MakerBlock.BorrowerIsSafe` | x/maker/keeper/msg_server.go:608-615 | a liquidation right after borrowing is rejected; after any further actions of the block at the same prices it is rejected as long as anything is owed |
| `MakerBlock.RedeemerIsSafe` | x/maker/keeper/msg_server.go:608-615 | right after a withdrawal it is rejected exactly unless nothing is owed and the threshold value rounds to zero; after any further actions of the block, as long as anything is owed |
| `MakerBlock.MsgStaysSafe` | x/maker/keeper/msg_server.go:331-671 | no message, by whomever, brings a position that is out of reach into a liquidator's reach at the same prices |
| `MakerValue.RedeemWithoutCatalysis` | x/maker/keeper/msg_server.go:771-774 | with a zero catalytic ratio a withdrawal succeeds only when what stays is worthless and nothing is owed |
| `MakerValue.LiquidationIsFair` | x/maker/keeper/msg_server.go:608-637 | collateral out plus commission equals the collateral seized, no overpayment, and the debt-to-collateral ratio moves as stated |
| `MakerValue.InterestIsSimple` | x/maker/keeper/msg_server.go:735-754 | over any k settlements interest is within k times (half a micro-coin and a unit in the 18th decimal) of simple interest, and the principal is untouched |
| `MakerRatio.AdjustmentsApart` | x/maker/keeper/backing_ratio.go:10-42 | over every run adjustments are a cooldown apart, each at most a step, and the ratio stays in [0, 1] |
| `MakerRatio.RatioDrift` | x/maker/keeper/backing_ratio.go:10-42 | between two heights the ratio moves by at most step times (1 + blocks / cooldown) |
| `MakerRatio.RatioFalls` | x/maker/keeper/backing_ratio.go:28-36 | while the price stays above the band, k adjustments lower the ratio by exactly k steps, or to zero |
| `MakerRatio.RatioRises` | x/maker/keeper/backing_ratio.go:32-36 | while the price stays below the band, k adjustments raise the ratio by exactly k steps, or to one |
| `MakerRatio.RatioRests` | x/maker/keeper/backing_ratio.go:28-41 | while the price stays within the band, its edges included, the ratio stays where it is and every adjustment still restarts the cooldown |
| `MakerRatio.ClockRestarts` | x/maker/keeper/backing_ratio.go:11-41 | over every run the last block recorded is that of the latest adjustment |
| `MakerRatio.EndsUnlessUnpriced` | x/maker/keeper/backing_ratio.go:11-26 | a block ends unless an adjustment is due and the stablecoin has no price |
| `MakerCeilings.PoolsRunIff` | x/maker/keeper/calculate.go:160-170 | over every run the ceilings on backing, swap-minted and deposited amounts hold in every state if and only if no batch of patches leaves one below what its pool holds |
| `MakerDebt.MsgDebtIff` | x/maker/keeper/calculate.go:587-596 | a message that succeeds keeps the ceiling on debt if and only if the pool's debt, with the interest due on the account and what is borrowed, less what is repaid, does not exceed it |
| `MakerDebt.BorrowingFits` | x/maker/keeper/calculate.go:592-596 | borrowing always meets that condition |
| `MakerDebt.StepFits` | x/maker/keeper/calculate.go:587-596 | one action keeps all four ceilings exactly when it is no batch of patches leaving one too low and no message settling more interest than fits |
| `MakerDebt.CeilingsRunIff` | x/maker/keeper/calculate.go:587-596 | over every run all four ceilings hold in every state if and only if every action meets that condition when it is reached |
| `MakerDebt.PrincipalsRunIff` | x/maker/keeper/msg_server.go:735-754 | over every run the principals of each pool are within the ceiling on debt in every state if and only if no batch of patches leaves it below them |
| `MakerDebt.CeilingsRun` | x/maker/keeper/msg_server.go:484-488 | from a fresh chain, over every run in which no patch lowers a ceiling, in every state: backing, swap-minted and deposited amounts are within their ceilings, and the principals within the one on debt |
| `MakerExamples.InterestCanBreak` | x/maker/keeper/msg_server.go:470-488 | a deposit that settles interest and takes a pool at its ceiling on debt to twice that |
| `MakerExamples.CeilingCanBreak` | x/maker/keeper/proposal_handler.go:150-158 | an accepted patch that leaves a pool above its ceiling |
| `MakerTrade.SenderIsNotOvercharged` | x/maker/keeper/msg_server.go:57-61 | no message lowers any balance of its sender by more than was offered |
| `MakerTrade.ReceiverIsPaid` | x/maker/keeper/msg_server.go:36-42 | every message raises each balance of its receiver by at least what was asked, less what that account itself offered in the same coin |
| `MakerTrade.MintOrBurn` | x/maker/keeper/calculate.go:630-654 | at no prices can stablecoins be both minted and burned by swaps |
| `MakerRoutes.TakeAndBurn` | x/maker/keeper/msg_server.go:57-68 | taking two coins to the module account and burning one is burning it off the sender |
| `MakerRoutes.MintAndPay` | x/maker/keeper/msg_server.go:70-86 | minting to the module account and paying two accounts is minting to them |
| `MakerRoutes.TakeAndPass` | x/maker/keeper/msg_server.go:147-161 | taking coins, burning part and passing the rest on is doing both from the sender |
| `MakerRoutes.MintBeside` | x/maker/keeper/msg_server.go:163-170 | minting a coin and paying it with one from custody is minting it to the receiver |
| `MakerKeeper.SettleInterestFee` | x/maker/keeper/msg_server.go:735-754 | updates account, pool and total by the same accrued interest |
| `MakerKeeper.Keeper.TotalBackingInUSD` | x/maker/keeper/calculate.go:705-716 | the loop gives the truncated value of all pools, whatever their order |
| `MakerKeeper.Keeper.ExcessBackingValue` | x/maker/keeper/calculate.go:682-703 | the total less the required backing |
| `MakerKeeper.Keeper.MintBySwap` | x/maker/keeper/msg_server.go:25-106 | does the specification's step, or fails with its error |
| `MakerKeeper.Keeper.BurnBySwap` | x/maker/keeper/msg_server.go:108-189 | does the specification's step, or fails with its error; the pool never goes negative |
| `MakerKeeper.Keeper.BuyBacking` | x/maker/keeper/msg_server.go:191-257 | does the specification's step, or fails with its error; the pool never goes negative |
| `MakerKeeper.Keeper.SellBacking` | x/maker/keeper/msg_server.go:259-329 | does the specification's step, or fails with its error |
| `MakerKeeper.Keeper.CalculateMintByCollateral` | x/maker/keeper/calculate.go:549-620 | yields the records to store and the fee, or the specification's error |
| `MakerKeeper.Keeper.MintByCollateral` | x/maker/keeper/msg_server.go:331-380 | does the specification's step, or fails with its error |
| `MakerKeeper.Keeper.BurnByCollateral` | x/maker/keeper/msg_server.go:382-456 | does the specification's step, or fails with its error; no record goes negative |
| `MakerKeeper.Keeper.DepositCollateral` | x/maker/keeper/msg_server.go:458-511 | does the specification's step, or fails with its error |
| `MakerKeeper.Keeper.RedeemCollateral` | x/maker/keeper/msg_server.go:513-573 | does the specification's step, or fails with its error; pool and total never go negative |
| `MakerKeeper.Keeper.LiquidateCollateral` | x/maker/keeper/msg_server.go:575-689 | does the specification's step, or fails with its error; no record goes negative |
| `MakerKeeper.Keeper.Deliver` | x/maker/keeper/msg_server.go:25-689 | a transaction either does the step or leaves no trace, and keeps the invariant |
| `MakerKeeper.Keeper.AdjustBackingRatio` | x/maker/keeper/backing_ratio.go:10-42 | the ratio and its last block after an adjustment |
| `MakerKeeper.Keeper.EndBlock` | x/maker/abci.go:13-17 | the end of a block adjusts the ratio and moves on |
| `MakerGovernance.BackingGoverned` | x/maker/keeper/proposal_handler.go:10-206 | registered, a backing coin has the proposed fields, zero fees where none is proposed, and an empty pool; patched, it keeps the fields not given; every other coin, pool and total is untouched |
| `MakerGovernance.CollateralGoverned` | x/maker/keeper/proposal_handler.go:74-247 | the same for a collateral coin with the defaults 70%, 60%, 40%, 10%, 10%, 0.5% and 1%; no account is touched |
| `MakerGovernance.BackingGovernedWhen` | x/maker/keeper/proposal_handler.go:10-206 | a backing coin is registered if and only if it is new, has a supply and a reback fee within the bonus; patched if and only if it is known, no limit is set that never was, and the fee it ends up with is within the bonus, or nothing changes |
| `MakerGovernance.CollateralGovernedWhen` | x/maker/keeper/proposal_handler.go:74-264 | the same for a collateral coin, whose limits must lie below its threshold |
| `MakerGovernance.BackingPatchTwice` | x/maker/keeper/proposal_handler.go:170-206 | applying a patch again changes nothing |
| `MakerGovernance.CollateralPatchTwice` | x/maker/keeper/proposal_handler.go:208-247 | applying a patch again changes nothing |
| `MakerGovernance.TermsRun` | x/maker/keeper/proposal_handler.go:256-264 | over every run from a fresh chain, in every state, each loan limit is below its threshold and each basic limit not above the loan limit |
| `MakerKeeper.Keeper.BatchSetBackingParams` | x/maker/keeper/proposal_handler.go:274-281 | applies the patches in order until one fails |
| `MakerKeeper.Keeper.BatchSetCollateralParams` | x/maker/keeper/proposal_handler.go:283-290 | applies the patches in order until one fails |
| `Denoms.CreatedDenomParses` | x/erc20/keeper/bank.go:15-41 | the denomination made for a contract parses back to that contract, however its address is spelled |
| `Denoms.Erc20Means` | x/erc20/keeper/bank.go:15-29 | a denomination is a token's if and only if it is the prefix, a slash and an address, and then names the contract at that address |
| `Denoms.GasMeans` | x/erc20/keeper/bank.go:87-90 | a denomination is skipped as gas if and only if it contains the gas coin's display name |
| `PairRegistry.Bijection` | x/erc20/keeper/token_pairs.go:30-54 | each denomination has one contract and each contract one denomination |
| `PairRegistry.AddKeeps` | x/erc20/keeper/registration.go:46-49 | registering a pair with two free names keeps the three stores a bijection |
| `PairRegistry.RemoveKeepsIff` | x/erc20/keeper/token_pairs.go:64-69 | removing a pair keeps it if and only if the pair is registered or both names are free |
| `PairRegistry.RemoveCanBreak` | x/erc20/keeper/token_pairs.go:64-69 | a removal that breaks it |
| `DualMirror.PaymentsSum` | x/erc20/keeper/bank.go:86-103 | the calls for native coins pay each contract exactly its coin's amount, and no other contract |
| `DualMirror.LegShadows` | x/erc20/keeper/bank.go:78-129 | the contracts' leg moves every mirrored coin as the bank's leg does, and besides exactly the tokens that name its contract |
| `DualMirror.SendGap` | x/bank/keeper/send.go:92-141 | a transfer opens, at either end, a difference between bank and contract of exactly the tokens naming the contract |
| `DualExact.SendMoves` | x/bank/keeper/send.go:92-141 | after a transfer every bank balance has changed by the native coins at the two ends and every contract balance by the tokens naming the contract and the coin it mirrors; other balances, supplies and the registry have not |
| `DualExact.DelegateMoves` | x/bank/keeper/keeper.go:46-66 | the same after a delegation, which has no tokens |
| `DualMirror.SendKeepsIff` | x/bank/keeper/send.go:92-141 | it keeps all balances and supplies equal if and only if it goes back to its sender or no token names the contract of a native coin |
| `DualRuns.MirrorCanBreak` | x/erc20/keeper/bank.go:105-110 | a transfer of such a token that breaks the agreement |
| `DualSuccess.SendWhen` | x/bank/keeper/send.go:92-116 | sending native coins succeeds exactly when the bank's own transfer does |
| `DualMirror.BurnKeeps` | x/bank/keeper/keeper.go:189-199 | burning keeps balances and supplies equal |
| `DualExact.BurnMoves` | x/bank/keeper/keeper.go:189-199 | after a burn every balance of the account and every supply is down by the coins, on both ledgers, and no other balance has changed |
| `DualSuccess.BurnWhen` | x/bank/keeper/keeper.go:189-199 | burning succeeds exactly when the bank's own burn does |
| `DualMirror.RegisterCoinKeeps` | x/erc20/keeper/registration.go:17-52 | registering a coin at a fresh address changes neither ledger and keeps the bijection |
| `DualMirror.MintKeeps` | x/bank/keeper/keeper.go:170-187 | minting, registering coins on the way, keeps balances and supplies equal |
| `DualExact.MintMoves` | x/bank/keeper/keeper.go:170-187 | after a mint every balance of the receiver and every supply is up by the coins, on both ledgers, no other balance has changed, and exactly the coins without a contract have the one deployed for them |
| `DualSuccess.MintWhen` | x/bank/keeper/keeper.go:170-187 | minting native coins succeeds exactly when each but the gas coin is registered or has metadata and a deployment |
| `DualMirror.RegisterErc20Keeps` | x/erc20/keeper/registration.go:90-129 | registering an external token keeps bijection and agreement |
| `DualExact.RegistersWhen` | x/erc20/keeper/registration.go:17-129 | when a coin and when a token can be registered |
| `DualExact.RegisterErc20Adds` | x/erc20/keeper/registration.go:90-129 | a registered token is found by its denomination and by its contract, every other name finds what it found, and no balance changes |
| `DualExact.RegisterCoinAdds` | x/erc20/keeper/registration.go:17-52 | a registered coin is found by its name and by the contract deployed for it, every other name finds what it found, and nothing else changes |
| `DualMirror.InputsLag` | x/bank/keeper/send.go:19-49 | while inputs are taken the ledgers differ by exactly the inputs so far at the bank module's address, and at each account by its tokens naming the contract |
| `DualMirror.OutputsCatchUp` | x/bank/keeper/send.go:51-87 | while outputs are paid those differences shrink by exactly the outputs so far |
| `DualMirror.MultiSendKeepsIff` | x/bank/keeper/send.go:10-90 | a multi-send keeps balances and supplies equal if and only if, for every account and mirrored contract, the tokens naming it among the account's inputs equal those among its outputs |
| `DualExact.MultiSendMoves` | x/bank/keeper/send.go:10-90 | after a multi-send every account has its outputs less its inputs more of every coin and of every contract's tokens, the bank module's address keeps nothing, and no supply has changed |
| `DualRuns.MultiSendCanBreak` | x/bank/keeper/send.go:10-90 | a multi-send of a token naming a native coin's contract that breaks the agreement |
| `DualSuccess.MultiSendWhen` | x/bank/keeper/send.go:10-90 | a multi-send of native coins succeeds exactly when balanced and the bank can take its inputs |
| `DualRuns.RegistryRunIff` | x/erc20/keeper/token_pairs.go:30-69 | over every run of operations, RegisterCoin, RegisterERC20 and DeleteTokenPair among them, the registry is a bijection after every prefix if and only if every deletion is of a removable pair |
| `DualRuns.DeleteKeepsIff` | x/erc20/keeper/token_pairs.go:64-69 | deleting a removable pair keeps the ledgers equal if and only if it was not registered, not a mirrored coin's, or nobody holds the coin |
| `DualRuns.OpKeepsIff` | x/erc20/keeper/invariants.go:18-48 | one operation keeps every native, non-gas coin equal in both ledgers and the registry a bijection if and only if it fails or meets its condition |
| `DualRuns.OpsKeepIff` | x/erc20/keeper/invariants.go:18-48 | over every run both hold after every prefix if and only if every operation that succeeds meets its condition |
| `DualRuns.FreshRunSound` | x/erc20/keeper/invariants.go:18-48 | both run theorems from a chain with nothing on either ledger |
| `DualRuns.SupplyByEitherName` | x/bank/keeper/keeper.go:68-74 | a coin's supply is the same asked by its own name or by its contract's |
| `DualKeeper.Keeper.SplitCoinsByErc20` | x/erc20/keeper/bank.go:67-76 | splits coins into native ones and tokens, losing none of positive amount |
| `DualKeeper.Keeper.Erc20SendCoins` | x/erc20/keeper/bank.go:78-129 | collects all contracts first, then calls them one by one, or fails as specified |
| `DualKeeper.Keeper.SendCoins` | x/bank/keeper/send.go:92-141 | does the transfer on both ledgers, or fails as specified; each balance changes by the coins sent |
| `DualKeeper.Keeper.DelegateCoins` | x/bank/keeper/keeper.go:46-66 | refuses tokens, else moves the coins on both ledgers; each balance changes by the coins moved |
| `DualKeeper.Keeper.MintCoins` | x/bank/keeper/keeper.go:170-187 | mints, registers unregistered coins in a loop, and mints in the contracts; the receiver and the supplies gain exactly the coins, on both ledgers |
| `DualKeeper.Keeper.BurnCoins` | x/bank/keeper/keeper.go:189-199 | burns on both ledgers; the account and the supplies lose exactly the coins |
| `DualKeeper.Keeper.InputOutputCoins` | x/bank/keeper/send.go:10-90 | the two loops over inputs and outputs |
| `DualKeeper.Keeper.RegisterCoin` | x/erc20/keeper/registration.go:17-52 | the guards in order, then the three stores |
| `DualKeeper.Keeper.RegisterErc20` | x/erc20/keeper/registration.go:90-170 | the guards in order, then metadata and the three stores |
| `DualKeeper.Keeper.DeleteTokenPair` | x/erc20/keeper/token_pairs.go:64-69 | deletes from three stores, keeping the bijection exactly when the pair is removable |
| `GaugeHistory.WriteKeeps` | x/gauge/keeper/base.go:352-366 | timestamps strictly increase and the latest entry is the one written |
| `GaugeHistory.FindPriorEpoch` | x/gauge/keeper/base.go:69-120 | the search ends and finds the last epoch not after a time |
| `GaugeHistory.WriteInForce` | x/gauge/keeper/base.go:383-403 | a write is in force from its second on and changes nothing before |
| `GaugePool.DerivedRange` | x/gauge/keeper/base.go:147-170 | tickets lie between two fifths of the deposit, rounded down, and the deposit |
| `GaugePool.DerivedBoost` | x/gauge/keeper/base.go:155-169 | without voting power a deposit counts two fifths; with its share of the power it counts in full, less at most one |
| `GaugePool.DerivedShare` | x/gauge/keeper/base.go:147-170 | at any voting power tickets are two fifths of the deposit plus three fifths of the voting share of all deposits, less than eleven fifths of a ticket below, or the whole deposit if that is less |
| `GaugePool.DeriveKeeps` | x/gauge/keeper/base.go:280-294 | rederiving a user keeps sums and histories, and the tickets written are in range |
| `GaugePool.DeriveChanges` | x/gauge/keeper/base.go:280-294 | rederiving writes down the tickets that deposit and voting power come to, for the user and in total, and changes nothing else; in a bribe it does nothing |
| `GaugePool.DepositKeeps` | x/gauge/keeper/gauge.go:47-73 | a deposit keeps sums, latest checkpoints and the escrow balance |
| `GaugePool.WithdrawKeeps` | x/gauge/keeper/gauge.go:75-105 | so does a withdrawal |
| `GaugePool.DepositChanges` | x/gauge/keeper/gauge.go:47-73 | a deposit moves the coin from owner to escrow, adds it to the user's deposit and the total, and writes down the user's and the total weight: tickets in a gauge, deposits in a bribe |
| `GaugePool.WithdrawChanges` | x/gauge/keeper/gauge.go:75-105 | a withdrawal does the reverse |
| `GaugePool.WithdrawFunded` | x/gauge/keeper/gauge.go:80-98 | a withdrawal succeeds exactly when it is within the deposit: the escrow always holds enough |
| `GaugePool.RunKeeps` | x/gauge/keeper/base.go:280-294 | over every run totals are sums over users, the latest checkpoint is the current total, everyone's tickets lie between two fifths of the deposit, rounded down, and the deposit, and the escrow holds the total deposited and exactly what others brought |
| `GaugePool.EscrowExact` | x/gauge/keeper/gauge.go:47-105 | the escrow holds at least the deposits, with equality if and only if nobody else brought any of their coin |
| `GaugePool.IndexIsReplay` | x/gauge/keeper/base.go:69-120 | over every run the amounts found for a second, in total and per user, are those in force when the operations up to that second are replayed |
| `GaugeReward.SliceBound` | x/gauge/keeper/base.go:172-178 | a slice counts no negative seconds and pays out the rate times its reward seconds, less a remainder below one per ticket |
| `GaugeReward.UpdateExact` | x/gauge/keeper/base.go:180-222 | what an update leaves, over checkpoints and times alone: the accumulator up by the rate times the reward seconds over the tickets of every interval but the last and of the time since the last checkpoint, the update time, and an entry at the end of each of them; a reward that does not run only moves on |
| `GaugeReward.WrittenInForce` | x/gauge/keeper/base.go:204-221 | the reward's history then shows, at any time, the accumulator as of the latest credited slice |
| `GaugeReward.UpdateBound` | x/gauge/keeper/base.go:180-222 | the accumulator rises by exactly the gains of the credited intervals, and those gains times their tickets come to at most the rate times the reward seconds since the last update |
| `GaugeReward.UpdatePaysOut` | x/gauge/keeper/base.go:211-221 | with unchanged tickets an update pays out everything since the last one but for such a remainder |
| `GaugeReward.UpdateAccounts` | x/gauge/keeper/base.go:180-222 | gains times tickets plus the rate times the seconds without tickets and of the skipped last interval make up the rate times all reward seconds, but for less than one per ticket and slice |
| `GaugeReward.UpdateWhen` | x/gauge/keeper/base.go:198-203 | over several checkpoints an update succeeds if and only if the last one is not before the first checkpoint |
| `GaugeStream.StreamConserves` | x/gauge/keeper/base.go:328-347 | a deposit streams itself and what was still owed over a week, less what does not divide by the week, and the pool can pay it |
| `GaugeStream.FundMoves` | x/gauge/keeper/base.go:305-349 | a reward deposit takes its coin from the sender to the escrow, moves no other, and runs for a week from now |
| `GaugeStream.FundStreams` | x/gauge/keeper/base.go:305-349 | it leaves the accumulator and its history brought up to date, the history started at zero if the reward was not running, and a rate of the deposit and what was owed over the week, rounded down |
| `GaugeStream.FundWhen` | x/gauge/keeper/base.go:305-347 | it succeeds if and only if the coin is not the pool's own, the reward can be updated, the sender has the coin, it exceeds what is still owed, and with that makes at least one unit a second and is on the escrow |
| `GaugeStream.DepositBeforeTickets` | x/gauge/keeper/base.go:305-349 | a reward deposited before the first checkpoint keeps its old update time and runs |
| `GaugeStream.TwoCheckpoints` | x/gauge/keeper/base.go:180-203 | two checkpoints later it is halted, unless an update came between them while tickets were in force |
| `GaugeStream.HaltedFails` | x/gauge/keeper/base.go:198-203 | a halted reward can be neither updated nor topped up |
| `GaugeStream.HaltedForGood` | x/gauge/keeper/base.go:180-222 | whatever happens to the pool afterwards, the reward stays unchanged and halted |
| `GaugeStream.RewardCanHalt` | x/gauge/keeper/base.go:305-349 | a deposit and two checkpoints after which every claim and deposit fails |
| `GaugeReward.LastIntervalSkipped` | x/gauge/keeper/base.go:200-220 | an update at the latest checkpoint's second credits nothing for the interval before it and still moves on |
| `GaugeKeeper.Base.WriteUserCheckpoint` | x/gauge/keeper/base.go:352-366 | appends to the user's history or overwrites its latest entry |
| `GaugeKeeper.Base.WriteCheckpoint` | x/gauge/keeper/base.go:383-403 | appends the current total or overwrites the latest entry |
| `GaugeKeeper.Base.DeriveAmountForUser` | x/gauge/keeper/base.go:280-294 | replaces the user's tickets in both totals and histories |
| `GaugeKeeper.Base.TicketsOf` | x/gauge/keeper/base.go:147-170 | computes the tickets of the specification |
| `GaugeKeeper.Base.GaugeDeposit` | x/gauge/keeper/gauge.go:47-73 | does the pool's deposit step, or fails as it does |
| `GaugeKeeper.Base.GaugeWithdraw` | x/gauge/keeper/gauge.go:75-105 | does the pool's withdrawal step, or fails as it does |
| `GaugeKeeper.Base.BribeDeposit` | x/gauge/keeper/bribe.go:29-39 | does the pool's deposit step without coins |
| `GaugeKeeper.Base.BribeWithdraw` | x/gauge/keeper/bribe.go:41-61 | does the pool's withdrawal step without coins, or fails as it does |
| `GaugeKeeper.Base.CalculateRewardPerTicket` | x/gauge/keeper/base.go:172-178 | the increment of a slice, whose unsigned seconds do not underflow |
| `GaugeKeeper.Base.UpdateRewardPerTicket` | x/gauge/keeper/base.go:180-222 | the loop does the specification's update of accumulator and reward history, or fails on a missing checkpoint |
| `GaugeKeeper.Base.DepositReward` | x/gauge/keeper/base.go:305-350 | does the specification's deposit step, or fails with its error |
| `OracleBallot.TotalPermuted` | x/oracle/types/ballot.go:72-79 | sums over a ballot do not depend on the order of its votes |
| `OracleBallot.WeightedMedian` | x/oracle/types/ballot.go:83-97 | the walk finds the least rate that half the power does not exceed |
| `OracleBallot.MedianPermuted` | x/oracle/types/ballot.go:83-107 | which rate that is does not depend on the order of equal votes |
| `OracleBallot.MedianPositive` | x/oracle/types/ballot.go:83-97 | when votes at or below zero carry no power, a median is positive exactly when the power is at least two or nobody abstained |
| `OracleBallot.AbstentionCanWin` | x/oracle/types/ballot.go:83-97 | a ballot of power one whose median is an abstention's zero |
| `OracleTally.TallyPermuted` | x/oracle/tally.go:13-38 | median, wins and weights do not depend on the order of the votes |
| `OracleTally.VoteWins` | x/oracle/tally.go:25-35 | a validator's one vote in a ballot wins exactly if it abstains or its distance from the median is at most half the band times the median, rounded, or at most the deviation; and then with the power it carries |
| `OracleTally.DeviationMeans` | x/oracle/types/ballot.go:110-136 | the deviation is the root of the mean of the squared distances from the median, within one and a half units in the 18th decimal |
| `OracleTally.ToMapPermuted` | x/oracle/types/ballot.go:34-43 | neither does the map of reference votes, when everyone votes once |
| `OracleTally.CrossPermuted` | x/oracle/types/ballot.go:46-69 | nor the cross rates |
| `OraclePeriod.ReferenceUnique` | x/oracle/tally.go:77-82 | greatest power, ties to the first name: at most one ballot is the reference |
| `OraclePeriod.LessMeans` | x/oracle/tally.go:80-82 | a name comes first exactly if the names agree up to some place, where it has ended or has the smaller letter |
| `OraclePeriod.PickReferenceGridb` | x/oracle/tally.go:49-87 | walking in any order yields exactly the surviving ballots and targets and that reference |
| `OracleKeeper.Tally` | x/oracle/tally.go:13-38 | finds the median and adds wins and weights to the claims; when everyone votes once, a vote that abstains or is near the median adds one win and its power, and nothing else changes |
| `OracleKeeper.TallyAll` | x/oracle/abci.go:64-94 | walking in any order sets exactly the reference's rate and those of non-zero cross rate, and the claims' sums |
| `OracleKeeper.OrganizeBallotByDenom` | x/oracle/keeper/ballot.go:12-53 | every ballot holds the votes of validators with a claim, sorted, abstentions without power |
| `OracleStored.BallotMeans` | x/oracle/keeper/ballot.go:16-44 | a ballot holds exactly the rates stored by validators with a claim, each with its claim's power if positive and without power otherwise |
| `OracleStored.BallotBacking` | x/oracle/keeper/ballot.go:20-27 | a ballot's power is the sum of the claims' powers over the validators with a positive stored rate |
| `OracleStored.CastMeans` | x/oracle/types/ballot.go:46-62 | a judged ballot holds, for each validator's stored rate, that rate or its stored reference rate over it; without a positive pair, zero and no power |
| `OracleStored.AnswersWin` | x/oracle/tally.go:25-35 | a validator wins in a judged ballot exactly if its stored rate abstains, cannot be compared, or is near the median |
| `OracleStored.AnswersIff` | x/oracle/tally.go:27-29 | a stored rate at or below zero always answers; a positive one for the reference coin exactly near the median |
| `OracleStored.AnswersAgainst` | x/oracle/tally.go:27-29 | a positive rate with a positive reference rate beside it answers exactly when its cross rate rounds to zero or is near the median of cross rates |
| `OracleKeeper.CountMisses` | x/oracle/abci.go:99-108 | exactly those whose wins differ from the number of targets miss once more |
| `OracleEnd.Oracle.EndPeriod` | x/oracle/abci.go:43-121 | reference, rates, claims, targets and misses after a period end; from stored votes, each claim has won once per coin answered for and its power per coin that pays, and from claims without wins exactly those with no answer for some target that counts miss once more |
| `OracleEnd.PeriodDetermined` | x/oracle/abci.go:43-121 | any two outcomes of a period with the same stored votes agree on reference, targets, rates, claims and misses, with or without a ballot that counts |
| `OracleAgreement.StoredOnce` | x/oracle/keeper/ballot.go:16-44 | stored votes give every validator at most one vote per coin |
| `OracleEnd.MissesExactly` | x/oracle/abci.go:97-108 | a validator's miss counter rises by one exactly when it has a claim and, for some target that counts, no stored rate that abstains, cannot be compared, or is near the median; with or without a reference |
| `OracleEnd.AbstentionsForgiven` | x/oracle/tally.go:27-29 | nobody misses because of a target whose ballot counts and for which it stored a rate at or below zero |
| `OracleEnd.ClaimsExactly` | x/oracle/tally.go:31-35 | a claim has won once for every coin answered for, and weighs its power more for each of them that is a positive rate with a reference |
| `OracleEnd.TargetsExactly` | x/oracle/tally.go:58-74 | a ballot counts if and only if it is of a target, somebody voted, and the power of positive stored rates is not zero and reaches the threshold; a target counts unless its ballot does not |
| `OracleEnd.ReferenceExactly` | x/oracle/tally.go:77-82 | the reference has the most power of positive stored rates among the ballots that count, the first in the alphabet of several |
| `OracleEnd.RatesPositive` | x/oracle/abci.go:59-94 | the reference's rate is positive exactly when its power is at least two or nobody abstained on it; another rate exactly when twice the reference's, in units of the 18th decimal, exceeds its cross rate |

## Left out

- The calculations of a swap from its output (`calculateMintBySwapIn` and the like): queries that repeat the arithmetic of the messages.
- The intermediate 36-digit truncation inside the SDK's own division, and the 256-bit and 64-bit limits of its integers: an overflow there is a panic, which leaves no trace.
- Vesting accounts: locked coins count as spendable, so the model lets an owner spend what the bank would hold back.
- Failures of the contract leg inside the maker's bank calls: the maker is modelled over a single ledger, and what makes the contract leg fail for native coins is proved of the dual ledger: nothing but, when minting, an unregistered coin without metadata or a deployment.
- The EVM itself (gas, nonces, ABI packing, contracts without code, tokens with their own transfer rules) and the EVM hook, which repeats a contract transfer through the bank.
- Address formats other than twenty bytes, and native denominations that are themselves bare hexadecimal addresses: the agreement of the two ledgers is claimed for plain names.
- The digest under which a token pair is filed is taken to be collision-free.
- Gauge claims and fee deposits: updates and deposits of rewards are modelled, but not what a user is paid, and reward coins move through the escrow without touching its deposits.
- The attachment counters of the ve module and the address-to-identifier index of gauge users.
- The oracle's reward distribution, slashing, prevotes and hashes; its standard deviation is modelled up to the floating-point square root, which is an input.
- The active validator set: the claims a period starts with are an input.
- Genesis files, queries, command line, events and telemetry.
- MakerRuns.StepKeeps: coins moving elsewhere on the chain are those that neither touch the module account nor mint or burn the maker's two coins.
