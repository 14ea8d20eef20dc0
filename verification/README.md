# Verification of the clearing house

A Dafny model of the on-chain clearing house of Drift v1, a perpetual-futures exchange on a virtual
constant-product market maker, and of the SDK functions that repeat its arithmetic. The program's
accounting is exact integer arithmetic in which every division rounds; what is proved here is that
the roundings of many functions compose into the properties the exchange relies on, over every run.

`dafny verify dfyconfig.toml` checks the whole project.

## How it is built

- `Numeric`, `State`: the machine integers as ranges of `int`, with every checked operation and cast
  of the program written out as a `Result`; the account records as values; the constants.
- `Curve`, `Twap`, `Trading`, `Funding`, `Instructions`: the program on values. A failing instruction
  returns an error, and a failed transaction changes nothing.
- `ClearingHouse`: the state machine. A `House` holds 64 markets and any number of users; a `Call` is
  one instruction with its inputs; `Run` takes any sequence of calls by any users, each with the
  configuration in force.
- `Accounts`, `FundingController`, `Handlers`: the same instructions in place, on classes with the
  fields of the program's accounts and with its loops. Every method is proved to leave exactly the
  state that the function on values gives, so the theorems about values are theorems about them.
  The methods that only follow the value functions line by line have no row of their own below; the
  loops, the aliasing steps and the whole instructions have.
- What each instruction does, in amounts and prices: `TradeEffects`, `Outcomes`, `Openings`,
  `Charges`, `Listening` (trades), `Refusals` (whom a trade refuses and a liquidation spares),
  `Penalties` (liquidations), `Margins` (margin, deposits, withdrawals), `Repegs`, `Initialising`.
- The theorems: `Rounding`, `Equity`, `RoundTrip`, `ZeroSum` (what the floors of a trade can do),
  `FundingRates`, `Settling`, `FundingBalance`, `Schedule`, `LazyFunding` (funding), `Invariants`,
  `Runs`, `OpenInterest`, `MarketHistory`, `Paths`, `FeePool`, `FeeBooks`, `Closability` (every run),
  `Liquidation`, `Withdrawals`, `SquareRoot`, `Sdk`.
- `Scenarios`: runs from the empty house to the states below in which the program does something one
  would not expect. `Examples`: concrete accounts that meet the premises of the liquidation and
  funding theorems. `FundedTrades`: a trade whose own funding update puts its user under water.

## The main results

1. `Runs.RunSound`: in every state of every run curves are tight, base reserve plus net position is
   the root, the aggregates are the sums over all users, fee pools are above their floors, and no
   user has two open slots in a market. `OpenInterest.OpenInterestCountsPositions` says exactly when
   the open interest is the number of open positions, `Closability.CloseSucceedsIff` exactly when a
   position can be closed.
2. `ZeroSum.MarketIsZeroSum`: over any interleaving of any users' trades from flat to flat, what all
   realise together is what the floors leave. `Equity.NoProfitFromRounding` bounds a single user's
   gain, and `RoundTrip.RoundTripPaysIff` says exactly when opening and closing pays.
   `Rounding.NoSignFlip` and `Equity.ReduceEquity` are what they rest on.
3. `FundingBalance.FundingDoesNotOverpay` and `LazyFunding.LazyIsEager`: funding creates no money
   beyond a unit per payer, and settling late is settling at every update, to a unit an update.
4. `Liquidation.FullLiquidationRealisesMargin` and `Liquidation.PartialLiquidationHelps`.
5. `Paths.TerminalPriceInEveryRun` and `Paths.ClosesCommute`: no trade moves the price a market
   ends at, and the order of closes does not matter.
6. `Openings.OpenPositionDoes` and `Charges.ClosePositionCharges`: what a trade does to its user and
   its market in each of its branches, and what it was checked for;
   `Refusals.RiskyTradeIsNotLiquidatable` and `Refusals.LowerRiskIsNeverRefused` say what the margin
   check is for. `Penalties.FullPenalty` and `PartialPenalty`: what a liquidation takes and who gets it.
7. `Repegs.RepegSucceedsIff`, in prices, and `FeeBooks.BooksBalance`: in every run the fee counters
   are the sums of what was charged, withdrawn, paid in and distributed.
8. `Schedule.UpdatesFromTheHour`, `MarketHistory.OneUpdatePerWindow` and `OracleStaysPositive`,
   `FeePool.FeePoolFloorInEveryRun`, `FundingRates.RatesTempered`, `Twap.MarkTwapContained`,
   `SquareRoot.SquareRootBN`, and the agreement lemmas of `Sdk`.

## What the proofs brought out

- `delete_user` checks the collateral and not the positions. It keeps the aggregates equal to the
  users if and only if the user has no open position (`Runs.DeleteKeepsAggregatesIff`). A long whose
  value floors to zero passes every margin check without collateral, so such a deletion can
  be the fourth call of a run (`Scenarios.DeletionBreaksAggregates`). The run theorems therefore
  assume that a deleted user is flat.
- Opening and closing at once pays a short exactly when the conversion of the notional to reserves
  loses more than a unit: where the quote reserve is the derived one, when notional * 10^10 modulo
  the peg exceeds 10^10 (`RoundTrip.RoundTripPaysIff`, `RoundTrip.PaysShortByRemainder`). That cannot
  happen up to a peg of 10^10 + 1; in a fresh market at 3*10^10 it does (`RoundTrip.HighPegPaysShorts`).
  A long never gains. All equity bounds are stated for every peg, in terms of
  `Slack(peg) = (peg + 10^10 - 2) / 10^10`.
- A repeg that costs more than the pool holds is accepted if and only if no more than one unit of fees
  was ever collected (`FeePool.RepegCharge`): the debit saturates at zero, and the floor is then zero.
  `Scenarios.RepegBeyondPool` reaches such a repeg.
- The initial margin that a trade which raises risk must leave, before its fee, keeps its user out of
  reach of a liquidation (`Refusals.RiskyTradeIsNotLiquidatable`), except for what the funding update at the end of that
  same trade makes him owe: it comes after the check and is settled later. No liquidation succeeds unless
  settling takes from his collateral (`Refusals.RiskyTradeIsSafeUntilSettled`); when it does, one can
  (`FundedTrades.FundedTradeIsLiquidated`).
- `squareRootBN` may return the root plus one, though only when n + 1 is a perfect square: of 3 it
  makes 2 (`SquareRoot.ThreeGivesTwo`). It divides by zero for n = 0.
- An opening trade acquires no base at all if and only if the re-derived base reserve is the old one
  (`OpenInterest.AcquiresNothingIff`). It then counts in the open interest although no position is open
  (`Scenarios.IdleOpeningHappens`), and what it bought stays on the curve (`ZeroSum.Dust`).

## Assumptions

- `Runs.Clean`: a proper partial close fraction (numerator below denominator), and no deletion of a
  user with an open position. Markets have a minimum trade size of at least one, as
  `initialize_market` sets it.
- Inputs of a call, unconstrained: the clock, oracle prices, confidences, validity and divergence,
  whether an oracle blocks an operation, the fees computed by the fee tiers, and what the vaults hold.
- An account that is not there or an index out of range is a failure like any other, and so are a
  division by zero and an oracle account that was not passed.

## Model

| member | source | states |
|---|---|---|
| `Curve.TightBounds` | programs/clearing_house/src/math/amm.rs:211-239 | On a tight curve base*quote never exceeds k = sqrt_k^2 and misses it by less than the larger reserve |
| `Curve.AddLowersOutput` | programs/clearing_house/src/math/amm.rs:211-239 | Adding at least one unit to a reserve of a tight curve never raises the other, although the other is re-derived with a floor |
| `Curve.RemoveRaisesOutput` | programs/clearing_house/src/math/amm.rs:211-239 | Removing from a reserve, short of emptying it, never lowers the other |
| `Curve.SwapShape` | programs/clearing_house/src/math/amm.rs:211-239 | A successful swap ends on a tight pair: the input moved by the amount, the output is floor(k / input), the input positive |
| `Rounding.SwapQuoteKeepsTight` | programs/clearing_house/src/controller/amm.rs:17-48 | Every successful quote swap ends on a tight curve, from any state |
| `Rounding.SwapBaseKeepsTight` | programs/clearing_house/src/controller/amm.rs:50-75 | Every successful base swap ends on a tight curve, from any state |
| `Rounding.RawValueNonnegative` | programs/clearing_house/src/math/amm.rs:241-258 | On a tight curve the reserve change that values a position has the sign the checked subtraction needs |
| `Rounding.ValuingNeverUnderflows` | programs/clearing_house/src/math/position.rs:21-49 | Once the closing swap is possible, valuing a nonzero position fails only where the product with the peg leaves u128 |
| `Rounding.ValueShape` | programs/clearing_house/src/math/position.rs:21-49 | A successful valuation is one floor of the raw reserve change times the peg, the short pnl carrying the extra unit |
| `Rounding.AcquiredSign` | programs/clearing_house/src/controller/amm.rs:17-48 | Buying never acquires negative base and selling never acquires positive base |
| `Shapes.SwapQuoteShape` | programs/clearing_house/src/controller/amm.rs:17-48 | The reserves after a quote swap as floors of k and of the quote amount, and everything the swap leaves alone |
| `Shapes.SwapBaseShape` | programs/clearing_house/src/controller/amm.rs:50-75 | The reserves after a base swap, its value, and everything the swap leaves alone |
| `Twap.AverageBetween` | programs/clearing_house/src/math/amm.rs:192-209 | A weighted average lies between the old average and the new data, floor included |
| `Twap.CappedPositive` | programs/clearing_house/src/math/amm.rs:109-129 | With a positive average the capped oracle price of a positive reading is positive and within a third of the reading of the average, so the sanity check only drops nonpositive readings |
| `Twap.OracleUpdateContained` | programs/clearing_house/src/math/amm.rs:100-190 | An oracle update stays between the old average and the last price plus or minus a thousandth, keeps both positive, and ignores nonpositive readings |
| `Twap.MarkTwapContained` | programs/clearing_house/src/math/amm.rs:57-98 | Over every run of updates, failed ones included, the mark average never leaves a range that holds its start and every price fed to it |
| `Twap.OracleTwapStaysPositive` | programs/clearing_house/src/math/amm.rs:100-139 | Over every run of readings of any sign, a positive oracle average and last price stay positive |
| `Twap.MarkTwapWeighs` | programs/clearing_house/src/math/amm.rs:57-98 | The new mark average is the mean of the price and the old average, weighted by the time since the last update (at least 1) and what is left of the period (at least 1), floored |
| `Twap.OracleTwapWeighs` | programs/clearing_house/src/math/amm.rs:100-190 | The same of the oracle average, with the reading first capped at a third of itself from the average and then at a thousandth from the last price |
| `Shapes.IncreaseShape` | programs/clearing_house/src/controller/position.rs:27-92 | What a nonzero increase does to the market, the position and the open interest, the re-basing of the funding rate included |
| `Shapes.ReduceShape` | programs/clearing_house/src/controller/position.rs:94-173 | What a reduction does to the market, the position and the collateral, the share of the entry notional included |
| `Shapes.CloseShape` | programs/clearing_house/src/controller/position.rs:175-236 | What a close does to the market and the collateral, and that it clears the slot |
| `Rounding.SellingStaysLong` | programs/clearing_house/src/controller/position.rs:116-141 | Selling for less than a long is worth sells strictly less base than it has |
| `Rounding.BuyingStaysShort` | programs/clearing_house/src/controller/position.rs:116-141 | Buying for less than a short is worth never takes it past zero |
| `Rounding.NoSignFlip` | programs/clearing_house/src/lib.rs:579-591 | A guarded reduction leaves a long strictly positive and a short at most zero, so the tests after the update pick the right aggregate and pnl formula |
| `Outcomes.TooSmallIff` | programs/clearing_house/src/controller/amm.rs:17-48 | A quote swap is refused as too small if and only if its amount, in reserves, is below the minimum trade size |
| `Outcomes.RoundingIff` | programs/clearing_house/src/math/amm.rs:499-517 | An amount is taken for a position's value if and only if the difference, in reserves, is below the minimum trade size |
| `Outcomes.ReduceApportions` | programs/clearing_house/src/controller/position.rs:143-170 | What a guarded reduction leaves of the entry notional is the share of the base it leaves, rounded up |
| `Outcomes.TradeReports` | programs/clearing_house/src/lib.rs:544-620 | In every branch of a trade: position and collateral afterwards in prices and amounts; the amount used, the base moved, and that it raises risk exactly if it adds, or reverses into at least what it closed |
| `TradeEffects.TradeEffect` | programs/clearing_house/src/lib.rs:544-620 | A trade changes nothing of the markets but reserves, mark average, aggregates and open interest, and nothing of other slots |
| `Equity.CloseRealisesValuation` | programs/clearing_house/src/controller/position.rs:175-236 | Whenever closing succeeds, valuing just before succeeds, gives the value closed at, and its pnl is what the collateral moves by |
| `Equity.MoreRaw` | programs/clearing_house/src/math/quote_asset.rs:7-25 | The two floors of the conversion lose at most the slack of the peg when a quote amount is added to a value |
| `Equity.LessRaw` | programs/clearing_house/src/math/quote_asset.rs:7-25 | The same when a quote amount is taken off a value |
| `Equity.IncreaseEquity` | programs/clearing_house/src/controller/position.rs:27-92 | An increase of an open position changes its unrealised pnl by at most the slack (one unit up to a peg of 10^10), never in favour of a long |
| `Equity.ReduceMovesValue` | programs/clearing_house/src/controller/position.rs:94-173 | A reduction takes its quote amount off the value of the position, within the slack |
| `Equity.ReduceEquity` | programs/clearing_house/src/controller/position.rs:143-170 | Realised plus unrealised pnl changes by at most the slack in a reduction, however the entry notional is apportioned |
| `Equity.ReduceToFlatEquity` | programs/clearing_house/src/controller/position.rs:143-170 | A short that a reduction leaves flat realises its whole entry notional; the profit beyond the valuation is exactly the value not paid plus one |
| `Equity.OpeningProfit` | programs/clearing_house/src/controller/position.rs:27-92 | A freshly opened position is worth no more than was paid for it: at most 0 for a long, at most slack - 1 for a short |
| `Equity.RunProfit` | programs/clearing_house/src/controller/position.rs:27-173 | Over every run of further increases and guarded reductions total pnl grows by at most one slack for each trade whose rounding can favour the user |
| `Equity.NoProfitFromRounding` | programs/clearing_house/src/controller/position.rs:27-236 | Open, trade n times keeping the position open, close: for every peg, at most one slack per favourable trade plus slack - 1 for a short; up to a peg of 10^10 at most n, hence no profit from open and close alone |
| `RoundTrip.ShortRoundTrip` | programs/clearing_house/src/controller/position.rs:27-236 | What a short earns that is opened and closed at once, exactly, for every tight curve, peg and notional |
| `RoundTrip.RoundTripPaysIff` | programs/clearing_house/src/math/pnl.rs:8-25 | Opening and closing at once pays if and only if it is a short and (TerminalQuote - quote reserve + reserves of the notional) * peg < (notional - 1) * 10^10, which can be told before the trade |
| `RoundTrip.PaysShortByRemainder` | programs/clearing_house/src/math/quote_asset.rs:17-25 | On a fresh curve and after every close that condition is: notional * 10^10 modulo the peg exceeds 10^10 |
| `RoundTrip.NothingPaysAtUsualPegs` | programs/clearing_house/src/math/quote_asset.rs:17-25 | So nothing pays up to a peg of 10^10 + 1, on any tight curve |
| `RoundTrip.HighPegMarketIsFresh` | programs/clearing_house/src/lib.rs:196-279 | The market of the next row is what initialize_market makes at a peg of 3*10^10 |
| `RoundTrip.HighPegPaysShorts` | programs/clearing_house/src/controller/position.rs:27-236 | In it, shorting 30_000_002 and closing at once earns one |
| `ZeroSum.RunConserves` | programs/clearing_house/src/controller/position.rs:27-236 | Over every interleaving of many users' trades in one market, what they have realised and are owed plus what the curve holds moves only by the dust of the floors, both ways |
| `ZeroSum.MarketIsZeroSum` | programs/clearing_house/src/controller/position.rs:27-236 | From a flat market at its root to flat again, all users together realise at most one slack per favourable trade (and what idle openings bought) and lose at most a slack and a unit per other trade |
| `Closability.RetireSucceeds` | programs/clearing_house/src/controller/position.rs:208-233 | In a sound state taking an open position off its market never fails on the aggregates or the open interest |
| `Closability.CloseSucceedsIff` | programs/clearing_house/src/controller/position.rs:175-236 | In a sound state a close succeeds if and only if the base reserve ends positive and the average, the reserves, the value, the entry notional and the collateral are in range |
| `Openings.SeatIs` | programs/clearing_house/src/lib.rs:466-506 | A trade is made on the first open slot of the market or, if there is none, on the first flat one, cleared |
| `Openings.NoSeatIff` | programs/clearing_house/src/lib.rs:466-506 | There is none if and only if every slot is open, in other markets |
| `Openings.LimitIff` | programs/clearing_house/src/lib.rs:765-793 | Where an entry price can be computed, a trade passes its limit if and only if amount and base honour it |
| `Openings.DivergenceIff` | programs/clearing_house/src/lib.rs:714-741 | A trade passes the check if and only if the mark has not left a valid oracle's reach, and one that raises risk outside it brings the mark nearer |
| `Openings.OpenPositionDoes` | programs/clearing_house/src/lib.rs:442-814 | What a successful open_position leaves: the seat's position by the case of the trade, the collateral it realises less the fee, the market's fee counters, every other slot and market untouched; if it raises risk, the initial margin held before the fee, and the mark had not left the oracle |
| `Openings.OpenPositionHonoursLimit` | programs/clearing_house/src/lib.rs:765-793 | In every branch the amount used and the base moved honour the limit price, at most it for a long and at least it for a short |
| `Openings.MarginWithoutFee` | programs/clearing_house/src/math/margin.rs:12-58 | With the fee added back, charges and a funding update leave the margin ratio where the check found it |
| `Refusals.LowerRiskIsNeverRefused` | programs/clearing_house/src/lib.rs:642-653 | A trade that reduces, or reverses into less than it closed, never answers InsufficientCollateral, whatever the margin |
| `Refusals.RiskyTradeIsNotLiquidatable` | programs/clearing_house/src/lib.rs:642-653 | In a sound state, after a trade that raised risk and did not end with a funding update, a liquidation of the user, fee added back, is refused |
| `Refusals.RiskyTradeIsSafeUntilSettled` | programs/clearing_house/src/lib.rs:642-653 | With a funding update or not, no liquidation of him succeeds unless settling him first takes from his collateral |
| `FundedTrades.FundedTradeIsLiquidated` | programs/clearing_house/src/lib.rs:795-811 | That condition is needed: a concrete trade without a fee, at a ratio of 5900 afterwards, whose own funding update lets a full liquidation succeed at once |
| `Refusals.NothingToClose` | programs/clearing_house/src/lib.rs:843-857 | Closing where the user has no open position is refused as such |
| `Refusals.CloseConverges` | programs/clearing_house/src/lib.rs:939-965 | A successful close never takes the mark out of a valid oracle's reach |
| `Charges.ClosePositionCharges` | programs/clearing_house/src/lib.rs:822-1003 | A close pays the profit its valuation predicts and takes the user's fee, each clamped at zero; the market's fee goes to total_fee and, unless funding is updated, to the pool; the slot ends cleared |
| `Charges.FinishOpenCharges` | programs/clearing_house/src/lib.rs:671-811 | The same charges after an opening trade; a funding update then takes at most two thirds of what the pool holds above its floor |
| `Listening.OpenPositionHears` | programs/clearing_house/src/lib.rs:520-542 | The oracle values move by the reading before the trade if it is valid, then by the one after it if funding is updated, and by nothing else |
| `Listening.ClosePositionHears` | programs/clearing_house/src/lib.rs:939-1000 | After a close by the reading after it if valid, and again if funding is updated |
| `FundingRates.FundingPaymentExact` | programs/clearing_house/src/math/funding.rs:170-197 | The two divisions of a payment are one floor of the exact product |
| `FundingRates.PaymentInQuoteExact` | programs/clearing_house/src/math/funding.rs:220-230 | A payment in quote units is one floor of the exact product by 10^21, signed by side and rate |
| `FundingRates.FundingSpendsExcessOnly` | programs/clearing_house/src/math/funding.rs:18-79 | An update takes at most two thirds of what the pool holds above its floor, and changes nothing else of the market |
| `FundingRates.ProfitabilityErrorUnreachable` | programs/clearing_house/src/math/funding.rs:48-62 | InvalidFundingProfitability is never returned, in any state |
| `FundingRates.CappedRateExact` | programs/clearing_house/src/math/funding.rs:116-153 | The capped rate in closed form: the limit plus what payers pay, less the bias of one, over the receiving side |
| `FundingRates.CapBelowRate` | programs/clearing_house/src/math/funding.rs:199-218 | A limit below what the net position would receive caps the receivers at or below the funding rate |
| `FundingRates.RatesTempered` | programs/clearing_house/src/math/funding.rs:18-154 | Each side gets a rate of the sign of the funding rate or zero and no larger; the paying side pays the whole rate |
| `FundingRates.FundingRateClamped` | programs/clearing_house/src/controller/funding.rs:144-166 | The funding rate is within a 33rd of a positive oracle average, scaled and divided by the periods of a day |
| `FundingRates.FundingRateFollowsSpread` | programs/clearing_house/src/controller/funding.rs:144-166 | The rate times the periods of a day is the clamped spread of mark over oracle average with four more decimals, to within the periods, and has its sign |
| `FundingRates.PeriodsOfADay` | programs/clearing_house/src/controller/funding.rs:144-151 | A period of up to an hour makes 24 of a day, a longer one as many as fit |
| `FundingRates.CumulativeRatesMoveBounded` | programs/clearing_house/src/controller/funding.rs:140-184 | One update moves each cumulative rate by at most that bound |
| `FundingRates.ApplyFundingShape` | programs/clearing_house/src/controller/funding.rs:140-184 | Everything an update changes: averages, pool, both cumulative rates by the two rates of the averaged market, the rate and the time |
| `FundingBalance.SingleUserDue` | programs/clearing_house/src/controller/funding.rs:28-86 | Settling a user with one position pays the signed floor of that position alone |
| `Settling.SettlingTracks` | programs/clearing_house/src/controller/funding.rs:45-76 | Settling brings every slot up to the rate of its side of its market |
| `Settling.NothingLeftToSettle` | programs/clearing_house/src/controller/funding.rs:51-76 | Slots that are up to date are paid nothing and left alone |
| `Settling.SettlesEverySlot` | programs/clearing_house/src/controller/funding.rs:37-76 | Settling gives an open slot its side's rate and, if that had moved, the market's last update time, and changes nothing else of any slot |
| `FundingBalance.UsersGain` | programs/clearing_house/src/controller/funding.rs:28-86 | Summed over any number of users: a payer pays less than one unit too little, a receiver receives nothing too much |
| `FundingBalance.CappedPoolBalances` | programs/clearing_house/src/math/funding.rs:81-154 | In the capped branch the users and the pool together gain at most one unit per payer |
| `FundingBalance.PoolBalances` | programs/clearing_house/src/math/funding.rs:18-154 | The same in all three branches |
| `FundingBalance.FundingDoesNotOverpay` | programs/clearing_house/src/controller/funding.rs:28-200 | One update, then the settlement of every user (one position each, able to pay): received minus paid plus the change of the pool is at most the number of payers |
| `Schedule.NextUpdateOnTheHour` | programs/clearing_house/src/controller/funding.rs:107-138 | The next permitted time is a multiple of the period, in a later window, and at least the period less a third away |
| `Schedule.WaitEndsOnTheHour` | programs/clearing_house/src/controller/funding.rs:107-138 | The wait ends exactly on the next multiple of the period, or on the one after it if the last update came more than a third of a period late |
| `Schedule.UpdatesFromTheHour` | programs/clearing_house/src/controller/funding.rs:107-184 | A successful call at or after that time, not blocked, records now; before it, or blocked, it changes nothing |
| `Schedule.UpdatesRecordTime` | programs/clearing_house/src/controller/funding.rs:140-184 | A successful call records its time exactly if it was due and not blocked; the period never changes |
| `Schedule.UpdateOnSchedule` | programs/clearing_house/src/controller/funding.rs:107-184 | A successful update either leaves the clock or moves it to a later window, at least the period less a third on |
| `MarketHistory.NextEvolves` | programs/clearing_house/src/lib.rs:281-1613 | No call of any kind moves a live market's funding clock off its schedule, or makes its positive oracle values nonpositive |
| `MarketHistory.OneUpdatePerWindow` | programs/clearing_house/src/controller/funding.rs:99-184 | Through every run of calls from any state, two update times of a market are equal or in different windows and at least the period less a third apart |
| `MarketHistory.OracleStaysPositive` | programs/clearing_house/src/math/amm.rs:100-190 | Once a live market's last oracle price and average are positive, they are in every state of every run, whatever the oracle reads |
| `Invariants.IncreaseSound` | programs/clearing_house/src/controller/position.rs:38-89 | An increase books its base on the right side, keeps base reserve plus net position, and moves the open interest with the open positions except by one when an opening acquires nothing |
| `Invariants.ReduceSound` | programs/clearing_house/src/controller/position.rs:116-141 | A guarded reduction does the same, with the open interest exact |
| `Invariants.CloseSound` | programs/clearing_house/src/controller/position.rs:208-233 | A close does the same, with the open interest exact, and leaves the slot flat |
| `Invariants.StoreKeepsSound` | programs/clearing_house/src/controller/position.rs:61-89 | A sound trade on one slot of one user keeps the invariant of all markets and all users |
| `Invariants.OpenSlotIsLive` | programs/clearing_house/src/lib.rs:1045-1051 | A market in which some user has an open position is initialized |
| `Runs.TakeSlotSound` | programs/clearing_house/src/lib.rs:466-506 | Finding or clearing a slot leaves every aggregate alone and seats the user alone in the market |
| `Runs.FractionGuards` | programs/clearing_house/src/lib.rs:1133-1137 | A proper fraction of a value that passes the minimum trade size is strictly below the value |
| `Runs.TrimIsGuarded` | programs/clearing_house/src/lib.rs:1130-1153 | Every reduction of a partial liquidation is by less than the value of the position |
| `Runs.TradeKeeps` | programs/clearing_house/src/lib.rs:544-620 | The trade of open_position, in all its branches, keeps the invariant |
| `Runs.OpenPositionKeeps` | programs/clearing_house/src/lib.rs:442-814 | So does the whole of open_position |
| `Runs.ClosePositionKeeps` | programs/clearing_house/src/lib.rs:822-1003 | And close_position |
| `Runs.LiquidateKeeps` | programs/clearing_house/src/lib.rs:1008-1259 | And liquidate, full and partial |
| `Runs.UpdateFundingRateSound` | programs/clearing_house/src/controller/funding.rs:89-200 | A funding update leaves the curve alone and the pool above its floor |
| `Runs.RepegSound` | programs/clearing_house/src/controller/repeg.rs:17-126 | A repeg leaves the curve alone and the pool above its floor |
| `Runs.InitializeSound` | programs/clearing_house/src/lib.rs:196-279 | A fresh market satisfies the invariant, and no user had a position in it |
| `Initialising.InitializeSucceedsIff` | programs/clearing_house/src/lib.rs:196-279 | A market is initialised if and only if the slot is free, the reserves are equal and not zero, and the products fit; then every field of it |
| `Runs.DeleteKeepsAggregatesIff` | programs/clearing_house/src/lib.rs:1556-1565 | Deleting a user keeps the aggregates equal to the users if and only if he has no open position |
| `Scenarios.DeletionBreaksAggregates` | programs/clearing_house/src/lib.rs:1556-1565 | A state reached by a clean run from the empty house in which deleting a user succeeds and breaks the aggregates: his long of one unit is worth nothing, so he needs no collateral |
| `Runs.NextSound` | programs/clearing_house/src/lib.rs:281-1613 | Every call of every kind keeps the invariant, under the conditions of Clean |
| `Runs.RunSound` | programs/clearing_house/src/controller/position.rs:38-233 | In every state of every run: tight curves with base reserve plus net position at sqrt_k, aggregates equal to the sums over users, open interest at least the open positions, pools above their floors, one open slot per market |
| `OpenInterest.AcquiresNothingIff` | programs/clearing_house/src/controller/amm.rs:17-48 | A swap of a nonzero quote amount yields no base if and only if the re-derived base reserve is the old one |
| `OpenInterest.IncreaseDrift` | programs/clearing_house/src/controller/position.rs:38-89 | An increase moves the open interest away from the open positions, by one, if and only if it opens a position with such a swap |
| `OpenInterest.NextMovesGaps` | programs/clearing_house/src/controller/position.rs:38-233 | A call moves the difference between open interest and open positions of a market, by one, if and only if it is a trade there that opens a position without a base, a condition on the state and the call |
| `OpenInterest.OpenInterestCountsPositions` | programs/clearing_house/src/controller/position.rs:38-233 | In every run open interest is the number of open positions plus the number of openings without a base; the two are equal if and only if there was none |
| `Scenarios.IdleOpeningHappens` | programs/clearing_house/src/controller/position.rs:38-89 | A reachable state with an open interest of two and one open position |
| `Paths.TradeKeepsTerminalPrice` | programs/clearing_house/src/math/amm.rs:35-55 | No trade changes the terminal price, or whether computing it fails |
| `Paths.TerminalPriceIsPeg` | programs/clearing_house/src/math/amm.rs:35-55 | A market at its root ends at peg * 10^7, or at the overflow of its initial price |
| `Paths.TerminalPriceInEveryRun` | programs/clearing_house/src/lib.rs:249-262 | In every state of every run, repegs included, every live market would end at its current peg |
| `Paths.CloseAllEnds` | programs/clearing_house/src/controller/position.rs:175-236 | Where any run of closes ends: on the sum of the bases and the floor the curve gives |
| `Paths.ClosesCommute` | programs/clearing_house/src/controller/position.rs:175-236 | Closing the same positions in any two orders that succeed ends on the same two reserves |
| `FeePool.FeePoolFloorInEveryRun` | programs/clearing_house/src/lib.rs:1291-1319 | In every run every market keeps pool >= total_fee/2 >= fees withdrawn |
| `FeePool.RepegCharge` | programs/clearing_house/src/controller/repeg.rs:17-126 | A repeg whose cost is within the pool is charged in full or refused; one beyond it is accepted if and only if total_fee <= 1, and then empties the pool |
| `Scenarios.RepegBeyondPool` | programs/clearing_house/src/controller/repeg.rs:17-126 | A reachable market whose repeg from 3 to 6 passes every check and costs one unit that the pool does not hold |
| `FeePool.RepegCostIsGain` | programs/clearing_house/src/math/repeg.rs:5-19 | The cost of a repeg is what the net position of all users gains by it, less the unit charged to a net short |
| `Repegs.RepegSucceedsIff` | programs/clearing_house/src/controller/repeg.rs:28-126 | A repeg whose numbers can be computed succeeds if and only if it moves the terminal price toward a valid oracle, not into its confidence or past it, with the mark not past the far edge of the band, and the pool can pay; away from the oracle the answer is InvalidRepegDirection |
| `Repegs.RepegMovesTowardOracle` | programs/clearing_house/src/controller/repeg.rs:28-126 | Every repeg that succeeds with a valid oracle has moved the terminal price so |
| `Repegs.RepegMovesPegTowardOracle` | programs/clearing_house/src/controller/repeg.rs:28-126 | In a sound market the same of the peg itself |
| `Scenarios.RepegOnlyTowardOracle` | programs/clearing_house/src/controller/repeg.rs:70-100 | A market at a peg of 3 with its oracle at 1 is repegged to 2 and refused 4 |
| `FeeBooks.BooksBalance` | programs/clearing_house/src/lib.rs:1291-1357 | In every run, clean or not: total_fee is the sum of the fees of the market's trades, total_fee_withdrawn the sum of its withdrawals, and the pool the fees and payments from the insurance fund less what updates and repegs distributed |
| `FeeBooks.WithdrawalsWithinHalf` | programs/clearing_house/src/lib.rs:1297-1319 | In every clean run all withdrawals together are at most half of all fees, and no more was distributed than the rest and the payments in |
| `FeeBooks.WithdrawFeesIff` | programs/clearing_house/src/lib.rs:1297-1319 | A withdrawal succeeds if and only if with it at most half of the fees is withdrawn, and is counted |
| `Liquidation.LiquidateSlotStep` | programs/clearing_house/src/lib.rs:1043-1101 | One step closes a slot at what valuing it says and moves the collateral by that pnl |
| `Liquidation.LiquidateSlotsRealise` | programs/clearing_house/src/lib.rs:1043-1101 | Slot by slot the loop closes what the margin check summed, and never ends with less collateral |
| `Liquidation.FullLiquidationRealisesMargin` | programs/clearing_house/src/math/margin.rs:20-50 | A full liquidation closes exactly base_asset_value, leaves at least total_collateral, equal if no step clamps, and no open slot |
| `Liquidation.TrimIsReduce` | programs/clearing_house/src/lib.rs:1130-1153 | A step of a partial liquidation is one guarded reduction |
| `Liquidation.ReduceLeavesValue` | programs/clearing_house/src/controller/position.rs:94-173 | For every peg, a guarded reduction leaves a position that can be valued |
| `Liquidation.ReduceLeaves` | programs/clearing_house/src/controller/position.rs:94-173 | After it the position, open or flat, can be valued, its value is at most v - Q + 1 and equity fell by at most 1 |
| `Liquidation.TrimmedMargin` | programs/clearing_house/src/math/margin.rs:38-50 | The margin check after such a step and a penalty against the one before |
| `Liquidation.QuarterOutweighsPenalty` | programs/clearing_house/src/lib.rs:84-94 | At the default percentages a quarter of the value outweighs the penalty and both units lost to rounding, from a collateral of five |
| `Penalties.OnlyUndermargined` | programs/clearing_house/src/lib.rs:1031-1067 | Only a user at or below the partial margin ratio is liquidated, and only if no market he is open in has a blocking oracle |
| `Penalties.FullPenalty` | programs/clearing_house/src/lib.rs:1179-1212 | A full liquidation closes every slot and takes full_penalty of what the closes left; the liquidator gets Min(fee, vault) over his share denominator |
| `Penalties.FullPenaltyTakesAll` | programs/clearing_house/src/lib.rs:84-94 | At the defaults that leaves the user nothing, and the liquidator a twentieth |
| `Penalties.PartialPenalty` | programs/clearing_house/src/lib.rs:1179-1224 | A partial one takes partial_penalty of the total collateral before it; the liquidator gets his share of what the vault can pay |
| `Penalties.TrimSlotShare` | programs/clearing_house/src/lib.rs:1124-1153 | Each partial step reduces its slot by the configured share of its value, floored |
| `Penalties.LiquidationPays` | programs/clearing_house/src/lib.rs:1204-1256 | The reward is credited to the liquidator, and no third user changes |
| `Margins.WellMarginedIsRefused` | programs/clearing_house/src/lib.rs:1031-1041 | Above the partial ratio a liquidation is refused |
| `Liquidation.PartialLiquidationHelps` | programs/clearing_house/src/lib.rs:1102-1202 | A successful partial liquidation of one open position never lowers total_collateral / base_asset_value, penalty included |
| `Examples.FullLiquidationHappens` | programs/clearing_house/src/lib.rs:1043-1101 | A concrete user at a margin ratio of 450 whose full liquidation closes the 111 measured and leaves the 5 measured |
| `Examples.PartialLiquidationHappens` | programs/clearing_house/src/lib.rs:1102-1202 | A concrete user at a ratio of 540 whose partial liquidation succeeds |
| `Examples.LongIsLiquid` | programs/clearing_house/src/lib.rs:1102-1153 | He has one open position, in a sound market with a peg of 10^10 |
| `Examples.TrimmedMarginRatio` | programs/clearing_house/src/math/margin.rs:12-58 | And leaves him at a ratio of 714 |
| `Examples.FundingUpdateHappens` | programs/clearing_house/src/controller/funding.rs:89-200 | A concrete capped update and the settlement of a payer and a receiver that meet the premises of FundingDoesNotOverpay |
| `Withdrawals.SettleIsIdempotent` | programs/clearing_house/src/controller/funding.rs:51-76 | Settling twice at the same rates is settling once |
| `Withdrawals.WithdrawnIsNotLiquidatable` | programs/clearing_house/src/lib.rs:346-398 | Right after a successful withdrawal a liquidation is refused, and the withdrawal took what the vaults could pay of an amount within the settled collateral |
| `Margins.RatioMeasures` | programs/clearing_house/src/math/margin.rs:38-58 | The ratio is collateral plus unrealised profit, clamped at zero, in ten-thousandths of the base value, floored; the largest number without a position |
| `Margins.MoreCollateralMoreMargin` | programs/clearing_house/src/math/margin.rs:38-58 | On the same holdings more collateral never means a lower ratio |
| `Margins.DepositCredits` | programs/clearing_house/src/lib.rs:281-344 | A deposit credits the amount before it settles, so a loss is taken from it too; one of nothing is refused |
| `Margins.WithdrawSucceedsIff` | programs/clearing_house/src/lib.rs:346-398 | A settled user is paid if and only if he asks for at most his collateral and keeps the initial margin without it |
| `LazyFunding.PaymentTruncates` | programs/clearing_house/src/math/funding.rs:170-197 | A payment is the exact amount truncated toward zero |
| `LazyFunding.IncreaseRebases` | programs/clearing_house/src/controller/position.rs:38-49 | A settled slot is still settled after an increase, opened or not |
| `LazyFunding.OpenPositionSettles` | programs/clearing_house/src/lib.rs:458-464 | open_position ends with every slot settled to the rates it began with |
| `LazyFunding.ClosePositionSettles` | programs/clearing_house/src/lib.rs:835-841 | close_position too |
| `LazyFunding.LiquidateSettles` | programs/clearing_house/src/lib.rs:1019-1025 | liquidate too |
| `LazyFunding.StepSettles` | programs/clearing_house/src/controller/funding.rs:25-86 | So does every call on a user's own account |
| `LazyFunding.LazyIsEager` | programs/clearing_house/src/controller/funding.rs:25-86 | In every run and for every slot, all it was settled plus what is pending differs from the per-update payments on the base then held by at most one unit an update |
| `SquareRoot.StepAboveRoot` | sdk/src/math/utils.ts:3-29 | No Newton step falls below the floored root |
| `SquareRoot.StepHalves` | sdk/src/math/utils.ts:3-29 | From above the root a step at least halves the distance |
| `SquareRoot.SmallStepArrives` | sdk/src/math/utils.ts:3-29 | The closeness test passes only on the root, or on one above it when n + 1 is a square |
| `SquareRoot.IterateAnswers` | sdk/src/math/utils.ts:3-29 | From any guess, within the steps its distance allows, the iteration ends on the root, or on one above it when n + 1 is a square |
| `SquareRoot.ThreeGivesTwo` | sdk/src/math/utils.ts:3-29 | The root plus one does come out: of 3 the iteration makes 2 |
| `SquareRoot.SquareRootBN` | sdk/src/math/utils.ts:3-29 | The loop computes the iteration, terminates, fails exactly for 0, and for every n below two to the iteration bound returns isqrt(n), or isqrt(n) + 1 only when n + 1 is a perfect square |
| `Sdk.SwapsAgree` | sdk/src/math/amm.ts:48-132 | The SDK's direction and reserves after a quote swap are the program's |
| `Sdk.PricesAgree` | sdk/src/math/amm.ts:21-35 | The SDK's mark price is the program's wherever the program succeeds |
| `Sdk.ValuesAgree` | sdk/src/math/position.ts:22-92 | The SDK's base asset value and pnl are the program's wherever the program succeeds |
| `Sdk.TerminalPricesAgree` | sdk/src/math/amm.ts:222-245 | The SDK's terminal price is the program's |
| `Sdk.GroupingsAgree` | sdk/src/math/position.ts:115-120 | Truncating by 10^13 and 10^4 is truncating by 10^14 and 10^3, negation included |
| `Sdk.FundingPnlAgrees` | sdk/src/math/position.ts:100-123 | The SDK's funding pnl is the program's payment with three decimals fewer, and the same in quote units |
| `Accounts.Increase` | programs/clearing_house/src/controller/position.rs:27-92 | In place: market, market maker and position as the function on values says, and the base acquired |
| `Accounts.Reduce` | programs/clearing_house/src/controller/position.rs:94-173 | In place: market, position and collateral, and the base swapped |
| `Accounts.Close` | programs/clearing_house/src/controller/position.rs:175-236 | In place: market, cleared slot and collateral, and the value and base closed |
| `FundingController.SettleSlots` | programs/clearing_house/src/controller/funding.rs:37-77 | The loop over the slots: every slot settled, and the sum of the payments |
| `FundingController.UpdateFundingRate` | programs/clearing_house/src/controller/funding.rs:89-200 | In place: averages, pool, rates and clock |
| `FundingController.Repeg` | programs/clearing_house/src/controller/repeg.rs:17-126 | In place: peg and pool, with every check of direction, band and floor |
| `Handlers.ChangeIsStore` | programs/clearing_house/src/controller/position.rs:27-236 | Changing one market account and one slot account in place changes exactly that market and that slot of the values loaded |
| `Handlers.CloseAt` | programs/clearing_house/src/lib.rs:1045-1075 | In place: a close of one slot changes that slot, its market and the collateral, and no other account |
| `Handlers.SumMargin` | programs/clearing_house/src/math/margin.rs:20-36 | The loop over the slots returns base value and pnl of the open ones, or the first failure |
| `Handlers.FindSlot` | programs/clearing_house/src/lib.rs:466-470 | The search finds the first open slot of the market, if any |
| `Handlers.FreeSlot` | programs/clearing_house/src/lib.rs:475-482 | The search finds the first flat slot, if any |
| `Handlers.TakeSlot` | programs/clearing_house/src/lib.rs:466-506 | In place: the slot found, or a flat one cleared for the market |
| `Handlers.OpenPosition` | programs/clearing_house/src/lib.rs:442-814 | In place: the whole instruction on markets and user |
| `Handlers.ClosePosition` | programs/clearing_house/src/lib.rs:822-1003 | In place: the whole instruction |
| `Handlers.LiquidateSlots` | programs/clearing_house/src/lib.rs:1044-1101 | The loop of a full liquidation, and the value closed |
| `Handlers.TrimSlots` | programs/clearing_house/src/lib.rs:1103-1176 | The loop of a partial liquidation, and the value closed |
| `Handlers.Liquidate` | programs/clearing_house/src/lib.rs:1008-1259 | In place: the whole instruction, and the liquidator's reward |

## Left out

- Runs.RunSound: does not cover `move_amm_price`, `update_k` and the oracle average resets, because they change the root or the averages outside these invariants (`move_price` can leave base*quote above k).
- Runs.NextSound: does not model `update_market_minimum_trade_size`, because a minimum of zero lets a swap of no reserves through.
- Twap.MarkTwapContained: is about the sequence of updates of one market, with whatever prices they are fed, and not about calls; that a swap or a funding update feeds it the mark price is how `NewMarkTwap` is defined.
- MarketHistory.OracleStaysPositive: `update_amm_oracle_twap` and `reset_amm_oracle_twap`, which overwrite the average, are left out.
- Liquidation.PartialLiquidationHelps: is for one open position, the default percentages, and a peg of at most 10^10, because with more positions or a larger peg more than one unit can be lost.
- FundingBalance.FundingDoesNotOverpay: is for users with at most one open position who can pay, because the clamp of collateral at zero lets a user pay less than he owes.
- ZeroSum.MarketIsZeroSum: is about the pnl of trades on one curve at a fixed peg, so fees, funding, repegs and the clamp of collateral at zero are not in it.
- Scenarios.IdleOpeningHappens: like the other runs of its module, is a run of an exchange that charges no fee, because fees are inputs.
- SquareRoot.SquareRootBN: closeness is its default of one, the only value the SDK passes; `limit` stands for Number.MAX_SAFE_INTEGER, and numbers of more bits than the loop bound get no promise.
- Accounts.Increase: like every method of the in-place layer, promises nothing about fields when it fails, because the runtime then discards every write.
- Handlers.Liquidate: the liquidator is credited with the returned reward by `ClearingHouse.Reward`, and an account lent twice to one instruction is not modelled.
- Refusals.RiskyTradeIsNotLiquidatable: is for trades that do not end with a funding update; `RiskyTradeIsSafeUntilSettled` covers those, up to what settling takes.
- Repegs.RepegSucceedsIff: is for repegs whose prices and cost are in range; those out of range fail with an error of arithmetic or of a cast.
- Fee tiers, referral and discount splits, the withdrawal split between the vaults, cumulative deposits and the deposit limit: sums that only add easy members.
- History accounts, events and record ids.
- Pause flags, signers, account derivation, token transfers, the whitelist and the discount mint.
- Decoding and scaling of oracle accounts and the oracle-mark spread: inputs here.
- SDK subscribers, transactions, wallet, `calculateEntryPrice`, `calculateAdjustKCost`, `calculateRepegCost`, `calculateTargetPriceTrade`, liquidation price and funding estimates.
- The internals of the big integers and of `integer_sqrt` are not part of this model.
