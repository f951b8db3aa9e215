# options-hedge in Dafny

A model of the options-hedge protective-put backtester, with proofs about it.
The backtester holds an equity position and a cash balance, buys puts under a
hedging strategy, walks the market day by day, exercises puts at expiry and
records the portfolio value each day.

What is modelled:

- **Put contracts** (`Instrument`, and its duplicate `OptionsInstruments`).
  Values are intrinsic only: payoff, value on a date, and premium cost.
  The two copies are proved to agree.
- **Portfolio** (`PortfolioModel.Portfolio`). A class with equity, cash,
  the ordered list of held puts, the history ledger and the cumulative
  spread costs. Each of its methods states the whole new state.
- **Market data** (`MarketData`). Daily returns from closes, and VIX
  alignment: reindexed to the trading dates, then forward-filled.
  `get_price` and `get_vix` are lookups that can fail.
- **Simulation loop** (`Simulation.RunSimulation`). Each row runs: update
  equity, run the strategy, exercise, record. The strategy is a closed
  datatype over the strategies of this model, called with the five
  arguments `run_simulation` passes. It also offers the corrected
  fixed-floor strategy from Findings as a strategy of its own.
- **Strategies**:
  - `Strategies`: the premium heuristic, and the quarterly and conditional
    protective-put strategies.
  - `LpStrategies`: the single-put floor hedge.
  - `LadderStrategy`: the VIX-ladder strategy.
  - `FixedFloorStrategy`: the fixed-floor LP strategy.
  - The `params` dict is split in two. Keys a strategy writes become the
    fields of `Strategies.StrategyParams`. Keys it only reads become
    configuration datatypes holding the source's defaults.
- **Optimisers**:
  - `VixLadderLp`: budget, allocation parsing, rung classification and the
    greedy fallback. `VixLadderLpProofs` proves that the greedy plan is an
    optimal point of the ladder LP it stands in for.
  - `FixedFloorLp`: the fixed-floor LP's data and constraints. It proves
    that buying nothing is optimal, because the shortfall slack is free.
- **Early-exercise rules** (`AmericanExercise`).
- **Option pricer** (`OptionPricer`). Quote matching within date, expiry
  and strike tolerances, strike listing, and the synthetic fallback.
- **Repository scripts**:
  - `NotebookCheck`: the notebook-executed check.
  - `KernelEnv`: the kernel-spec environment injector.

**Modelling conventions**

- Money and prices are exact `real`.
- Dates are integer day numbers: `(a - b).days` is `a - b`, and
  `timedelta(days=n)` adds `n`.
- Python exceptions that abort an operation become `Err` values.
- Results from outside the model are parameters:
  - the Gurobi solver's reports;
  - the VIX lookup;
  - `sqrt((expiry - date) / 365)`, as a time factor constrained by
    `Strategies.IsTimeFactor`;
  - the pandas standard deviations;
  - file contents.

**Where the code falls short of its own comments and tests, the model follows
the code.**

- The comments at `src/options_hedge/strategies.py:83-91` describe OTM puts
  as priced by distance and ITM puts as intrinsic plus time value.
  `tests/test_option_pricer.py:73-90` expects in-the-money puts to cost more
  than at-the-money ones, and those more than out-of-the-money ones. The
  formula keeps that order only near the money. For a put deeper than 25% out
  of the money, the `0.4 * distance` term makes it cost more than at the
  money.
  - `Strategies.DeepOtmCostsMoreThanAtm` exhibits this.
  - `Strategies.AtOrInTheMoneyCostsAtLeastNearOtm` proves the ordering where
    it does hold, which covers the test's 3500 / 4000 / 4500 strikes.
- `fixed_floor_lp_strategy` subscripts the solver's result at
  `src/options_hedge/strategies.py:572`. But `solve_fixed_floor_lp` is
  annotated `-> None` and returns `None` at
  `src/options_hedge/fixed_floor_lp.py:50`. See Findings. The simulation
  runs the strategy as written, so with no earlier fixed-floor action it
  raises on the first row and records nothing.
- `run_simulation` calls every strategy with five arguments, the fifth being
  `market` (`src/options_hedge/simulation.py:63-69`; its docstring at line 40
  asks for that signature). But `lp_floor_hedge_strategy` takes four
  (`src/options_hedge/lp_strategies.py:12-17`), so the call raises
  `TypeError` on the first row, after `update_equity` and before anything is
  recorded. `Simulation.ApplyStrategy` returns `WrongArity` for it, and
  `Simulation.RunSimulation` stops on the first row. `LpStrategies.LpFloorHedge`
  models the function as called directly with four arguments.

Because the fixed-floor LP's shortfall slack is not charged in its
objective, an exact solver always reports a total cost of 0. The fixed-floor
strategy, even with the crash corrected, therefore never buys a put
(`FixedFloorStrategy.ExactLpNeverHedges`). Findings lists this with the
penalised objective that makes the shortfall cost something.

The strategies catch only `KeyError` and `AttributeError` around `get_vix`
(`src/options_hedge/strategies.py:134`), but `get_vix` raises `ValueError`.
A failed VIX lookup therefore escapes the strategy and ends the simulation.
The model keeps this behaviour: `Strategies.PricingVix` returns `Err`, and
`Simulation.RunSimulation` stops.

## Model

| member | source | states |
|---|---|---|
| Instrument.Payoff | src/options_hedge/option.py:66-79 | zero when the price is at or above the strike, (strike - price) x quantity below it, nonnegative for a long position |
| Instrument.Value | src/options_hedge/option.py:81-105 | zero on or after expiry, equal to the intrinsic payoff strictly before |
| Instrument.TotalCost | src/options_hedge/option.py:107-115 | the position's premium cost is zero for no contracts or a free premium, and nonnegative for a long position |
| Instrument.TotalCostPerContract | src/options_hedge/option.py:115 | one more contract costs exactly one more premium |
| Instrument.PayoffNonIncreasing | src/options_hedge/option.py:79 | for a long position the payoff never rises when the underlying rises |
| Instrument.PayoffLinearInQuantity | src/options_hedge/option.py:79 | the payoff of n contracts is n times the payoff of one |
| OptionsInstruments.Payoff | src/options_hedge/options_instruments.py:16-17 | zero at or above the strike, (strike - price) x quantity below it |
| OptionsInstruments.Value | src/options_hedge/options_instruments.py:19-22 | zero on or after expiry, the payoff before |
| OptionsInstruments.TotalCost | src/options_hedge/options_instruments.py:24-25 | no contracts cost nothing |
| OptionsInstruments.AgreesWithInstrument | src/options_hedge/options_instruments.py:16-25 | the duplicate class computes the same payoff, value and cost as the one in option.py for every input |
| AmericanExercise.ShouldExerciseNever | src/options_hedge/american_exercise.py:14-38 | never exercises |
| AmericanExercise.ShouldExerciseAtExpiryOnly | src/options_hedge/american_exercise.py:41-68 | exercises exactly on or after expiry with the strike above the price |
| AmericanExercise.ShouldExerciseThreshold | src/options_hedge/american_exercise.py:71-119 | out of the money never exercises; in the money the decision reduces to a comparison of quantity and threshold, because intrinsic-only valuation leaves no time value |
| AmericanExercise.ThresholdHolds | src/options_hedge/american_exercise.py:113-119 | the time-value comparison is equivalent to the quantity comparison, before and after expiry |
| AmericanExercise.ThresholdSingleContract | src/options_hedge/american_exercise.py:108-119 | one contract before expiry with a positive threshold exercises whenever it is in the money |
| AmericanExercise.ShouldExerciseVixRegime | src/options_hedge/american_exercise.py:122-188 | false out of the money or with a nonpositive previous VIX; otherwise true exactly when S/K is below the moneyness threshold and VIX fell by more than the decline; fails only on a zero strike |
| AmericanExercise.ShouldExerciseOptimalBoundary | src/options_hedge/american_exercise.py:191-275 | false out of the money and false with more than the minimum days left; otherwise S/K compared with 0.85 - 0.10 rfr + 0.15 sqrt(T) vol; fails exactly on a zero strike or a negative time inside the window |
| AmericanExercise.ShouldExerciseHybrid | src/options_hedge/american_exercise.py:278-349 | the VIX-regime answer when it is true or fails, else the boundary rule's answer |
| AmericanExercise.Decide | src/options_hedge/portfolio.py:224 | applying a rule as the `exercise_rule` callable: `Never` and any put at or out of the money give false, and only the VIX-regime, boundary and hybrid rules can fail (`check_early_exercise` itself never calls it) |
| AmericanExercise.HybridIsDisjunction | src/options_hedge/american_exercise.py:330-349 | when both rules answer, the hybrid rule is their disjunction |
| PortfolioModel.PurchaseCost | src/options_hedge/portfolio.py:140-145 | a purchase costs premium x quantity x (1 + spread), at least the base premium cost |
| PortfolioModel.PurchaseCostExample | src/options_hedge/portfolio.py:140-145 | one contract at 10 with a 5% spread costs 10.5 cash, of which 0.5 is spread |
| PortfolioModel.Portfolio.constructor | src/options_hedge/portfolio.py:97-109 | all of the initial value in equity, the given cash, no options, no history, no costs |
| PortfolioModel.Portfolio.BuyPut | src/options_hedge/portfolio.py:111-157 | on success exactly one put is appended and cash and costs move by the purchase and spread cost; without margin and with too little cash it fails and changes nothing |
| PortfolioModel.Portfolio.UpdateEquity | src/options_hedge/portfolio.py:159-167 | equity is scaled by 1 + return x beta and nothing else changes |
| PortfolioModel.Portfolio.TotalValue | src/options_hedge/portfolio.py:169-189 | equity + cash + the summed value of the held options; with no options, equity + cash |
| PortfolioModel.Portfolio.ExerciseExpiredOptions | src/options_hedge/portfolio.py:191-218 | the options left are the unexpired ones in order, cash grows by the realized payoff, and the total value grows by exactly that payoff |
| PortfolioModel.Portfolio.CheckEarlyExercise | src/options_hedge/portfolio.py:220-240 | always 0 exercised, nothing changes |
| PortfolioModel.Portfolio.Record | src/options_hedge/portfolio.py:242-252 | exactly one (date, value) row is appended to the history |
| PortfolioModel.UnexpiredMembers | src/options_hedge/portfolio.py:218 | the survivors are exactly the options expiring after the date |
| PortfolioModel.ExpiredMembers | src/options_hedge/portfolio.py:207-215 | the expired list holds exactly the options expiring on or before the date |
| PortfolioModel.WithoutExpiredIsUnexpired | src/options_hedge/portfolio.py:218 | removing every option equal to an expired one leaves exactly the unexpired ones |
| PortfolioModel.ExpiredHoldNoValue | src/options_hedge/portfolio.py:188-189 | dropping expired options leaves the options' value unchanged |
| PortfolioModel.ExerciseIdempotent | src/options_hedge/portfolio.py:207-218 | a second exercise on the same date removes nothing and pays nothing |
| PortfolioModel.RealizedPayoffNonnegative | src/options_hedge/portfolio.py:212-214 | exercising never takes cash away |
| PortfolioModel.OutOfTheMoneyPaysNothing | src/options_hedge/portfolio.py:211-214 | when every expired put is out of the money, exercise pays nothing |
| PortfolioModel.NothingExpiredNoOp | src/options_hedge/portfolio.py:209-218 | with nothing expired, exercise keeps every option and pays nothing |
| PortfolioModel.BoughtOptionAddsItsValue | src/options_hedge/portfolio.py:188 | appending a put adds exactly its value to the options' total |
| MarketData.DailyReturns | src/options_hedge/market.py:96-100 | one return per close, the first one 0 |
| MarketData.ReturnStepsToNextClose | src/options_hedge/market.py:96-100 | each day's return carries the previous close to the current one |
| MarketData.ReturnsRebuildCloses | src/options_hedge/market.py:96-100 | compounding the returns from the first close rebuilds every close |
| MarketData.Reindexed | src/options_hedge/market.py:113 | one entry per trading date, present exactly when the VIX download has that date, with its value |
| MarketData.ForwardFill | src/options_hedge/market.py:113 | forward filling keeps the length |
| MarketData.FilledAtIsLastPresent | src/options_hedge/market.py:113 | a filled entry is the value at the last present position at or before it, and missing exactly when none is present |
| MarketData.FillKeepsPresent | src/options_hedge/market.py:113 | filling never changes a value already present |
| MarketData.LastOnOrBefore | src/options_hedge/market.py:174-177 | the last position dated on or before the date, and none exactly when every date is later |
| MarketData.IndexOf | src/options_hedge/market.py:171 | a position holding the date, and none exactly when the date is not indexed |
| MarketData.Frame | src/options_hedge/market.py:95-100 | one row per trading date carrying its date, close, return and aligned VIX |
| MarketData.NoVix | src/options_hedge/market.py:116-119 | a VIX column with every entry missing |
| MarketData.Market.constructor | src/options_hedge/market.py:80-119 | returns computed from the closes; the VIX is fetched exactly when the download is non-empty, and is then reindexed and forward-filled |
| MarketData.Market.GetPrice | src/options_hedge/market.py:121-140 | fails exactly for a date not in the index, else the close at that date |
| MarketData.Market.GetVixFailsIff | src/options_hedge/market.py:169-176 | get_vix fails exactly when no series was fetched or every trading date is later |
| MarketData.Market.GetVixExactDate | src/options_hedge/market.py:171-172 | on a trading date get_vix reads that date's row |
| MarketData.Market.GetVixReadsLatestOnOrBefore | src/options_hedge/market.py:174-177 | a successful get_vix reads the latest trading date on or before the date |
| MarketData.NewMarket | src/options_hedge/market.py:89-93 | an empty download fails; otherwise a market with one row per date |
| Simulation.ApplyStrategy | src/options_hedge/simulation.py:63-69 | strategies never touch the history; only `vix_ladder_strategy` and the corrected fixed-floor strategy move equity; a raising strategy leaves the holdings as they were; the no-op strategy changes nothing; `lp_floor_hedge_strategy` raises TypeError on the five-argument call and changes nothing; `fixed_floor_lp_strategy` as written changes nothing and raises exactly when a hedge is due |
| Simulation.Day | src/options_hedge/simulation.py:60-75 | a day appends one row holding the total value after that day's exercise, with no option expiring that day left; a raising strategy records nothing; `lp_floor_hedge_strategy` always raises, and so does `fixed_floor_lp_strategy` as written when it has not acted before |
| Simulation.CompoundedStep | src/options_hedge/simulation.py:60 | one day's equity update advances the compounded equity by one row |
| Simulation.CompoundedScales | src/options_hedge/simulation.py:60 | compounded equity is linear in the starting equity |
| Simulation.CompoundedPositive | src/options_hedge/simulation.py:60 | with every daily factor positive, positive equity stays positive |
| Simulation.FollowsAppend | src/options_hedge/simulation.py:75 | recording the next row's date keeps the history one row per market row |
| Simulation.CompoundedRecordedAppend | src/options_hedge/simulation.py:74-75 | recording the next compounded value keeps every recorded value compounded |
| Simulation.RunSimulation | src/options_hedge/simulation.py:29-77 | the history is the prior history and then one row per market row, in row order, until a strategy raises; success means every row was recorded; the last row is the final total value; `lp_floor_hedge_strategy`, and `fixed_floor_lp_strategy` as written with no earlier action, stop the run on the first row with nothing recorded; with no hedging and no options, row t is the initial equity compounded through day t plus the cash |
| Strategies.EstimatePutPremium | src/options_hedge/strategies.py:56-99 | fails exactly on a zero spot or a negative day count; otherwise at least 0.001 and equal to the raw heuristic whenever that reaches the floor |
| Strategies.PremiumNondecreasingInVix | src/options_hedge/strategies.py:82-99 | a higher VIX never lowers the estimate |
| Strategies.AtOrInTheMoneyCostsAtLeastNearOtm | src/options_hedge/strategies.py:86-99 | an at- or in-the-money put costs at least as much as an out-of-the-money one no deeper than 25% |
| Strategies.DeepOtmCostsMoreThanAtm | src/options_hedge/strategies.py:86-99 | a put struck at half the spot is estimated at twice the at-the-money premium |
| Strategies.PricingVix | src/options_hedge/strategies.py:128-135 | the default VIX without a lookup, the quote when there is one, and an escaping error when the lookup raises |
| Strategies.NotDueWithinInterval | src/options_hedge/strategies.py:126 | once a hedge is placed, no day inside the interval is due |
| Strategies.ProtectivePut | src/options_hedge/strategies.py:127-146 | one contract at price x strike ratio, expiring expiry_days later, priced at equity x estimate; fails exactly on a failed lookup, a zero price or negative days |
| Strategies.ProtectivePutPremiumFloor | src/options_hedge/strategies.py:137-143 | a protective put costs at least 0.1% of a positive equity |
| Strategies.Quarterly | src/options_hedge/strategies.py:102-147 | when due, exactly one protective put is bought and last_action becomes the date; otherwise nothing changes |
| Strategies.RowsUpTo | src/options_hedge/strategies.py:172-175 | only rows dated on or before the date, taken from the market |
| Strategies.RowsUpToComplete | src/options_hedge/strategies.py:172-175 | every row dated on or before the date is kept |
| Strategies.RowsUpToPrefix | src/options_hedge/strategies.py:172-175 | on a date-ordered frame, the result is exactly the prefix of rows up to the first one dated after the date |
| Strategies.ConditionalGates | src/options_hedge/strategies.py:176-212 | a short history or a live put means no purchase, whatever the triggers; a purchase needs a trigger |
| Strategies.Conditional | src/options_hedge/strategies.py:150-232 | buys one protective put exactly when the decision holds, and otherwise changes nothing |
| Strategies.EquityToSell | src/options_hedge/strategies.py:390-393 | with cash short, more than the deficit is sold; otherwise nothing |
| Strategies.Rebalance | src/options_hedge/strategies.py:389-411 | funds exactly when cash covers the cost or equity covers the sale; a funded purchase finds enough cash; equity + cash never changes |
| Strategies.Trunc | src/options_hedge/strategies.py:424 | int() truncates toward zero |
| Strategies.AfterPurchases | src/options_hedge/strategies.py:414-434 | after selling and buying, the value falls by what the purchases cost, and they follow the old options |
| Strategies.BuyAll | src/options_hedge/strategies.py:414-434 | every put is appended in order, cash falls by the purchase cost and costs rise by the spread |
| Strategies.SpendCoversPremiums | src/options_hedge/strategies.py:414-434 | the cash paid is at least the premiums, which are nonnegative |
| LadderStrategy.OtmGrid | src/options_hedge/strategies.py:340-346 | level i of the grid is 5% plus i steps |
| LadderStrategy.LevelStep | src/options_hedge/strategies.py:345 | one step of the density reaches the next level |
| LadderStrategy.LevelCount | src/options_hedge/strategies.py:340-346 | at least one level fits |
| LadderStrategy.OtmLevels | src/options_hedge/strategies.py:340-346 | the levels are the grid; the last is at most 60% and the next would exceed it |
| LadderStrategy.GridAppend | src/options_hedge/strategies.py:344-345 | appending the next level extends the grid by one |
| LadderStrategy.CountFits | src/options_hedge/strategies.py:344 | a grid whose last level fits and whose next does not has exactly LevelCount levels |
| LadderStrategy.Chain | src/options_hedge/strategies.py:347-361 | one candidate per level, at price x (1 - level) priced at V0 x estimate; fails exactly on a zero price or negative days |
| LadderStrategy.ChainPremiumsNonnegative | src/options_hedge/strategies.py:353-358 | a chain priced on a nonnegative value has nonnegative premiums |
| LadderStrategy.PurchasesTo | src/options_hedge/strategies.py:414-426 | at most one purchase per chain entry (which ones: PurchasesFromPositiveQuantities) |
| LadderStrategy.PurchasesFromPositiveQuantities | src/options_hedge/strategies.py:414-426 | every purchase is int(q) contracts of a chain entry with positive q, at its strike and premium, and every chain entry with positive q is bought |
| LadderStrategy.SpendWithinTotalCost | src/options_hedge/strategies.py:389-434 | with the spread within the optimiser's rate, the purchases cost at most the optimiser's total cost |
| LadderStrategy.StepWithinCost | src/options_hedge/strategies.py:414-426 | each chain entry adds no more to the spend than to the optimiser's cost |
| LadderStrategy.PurchaseWithinCost | src/options_hedge/strategies.py:420-425 | int(q) contracts cost at most the optimiser's cost for q |
| LadderStrategy.EntryWithinCost | src/options_hedge/strategies.py:420-425 | premium x int(q) x (1 + spread) is at most premium x (1 + rate) x q |
| LadderStrategy.LadderVix | src/options_hedge/strategies.py:281-288 | the vix parameter when given; else exactly the market's quoted VIX, with a failed lookup escaping as that lookup's error and a missing VIX source as NoVixAvailable |
| LadderStrategy.PlanLadder | src/options_hedge/strategies.py:338-380 | a zero price or negative days fails before the optimiser; a plan holds the priced chain and the optimiser's solution for it |
| LadderStrategy.ComputePlan | src/options_hedge/strategies.py:338-380 | the loop-built plan is PlanLadder's, with one quantity per chain entry |
| LadderStrategy.Initialised | src/options_hedge/strategies.py:305-309 | lp_cost and last_lp_hedge become present, existing entries and holdings are kept |
| LadderStrategy.Executed | src/options_hedge/strategies.py:389-448 | when funded, the value falls by the purchase cost, purchases follow the old options, lp_cost grows by the total cost and the date is recorded; otherwise nothing changes |
| LadderStrategy.FundedLadderNeedsNoMargin | src/options_hedge/strategies.py:389-434 | a funded ladder purchase leaves cash nonnegative; a zero cost spends nothing |
| LadderStrategy.ExecuteLadder | src/options_hedge/strategies.py:389-448 | the portfolio and params end as Executed says, and the return value is the total cost or 0.0 |
| LadderStrategy.VixLadder | src/options_hedge/strategies.py:235-448 | a VIX failure changes nothing; otherwise the params are initialised, a plan error escapes, and the purchases follow ExecuteLadder |
| LpStrategies.FloorHedgeProblem | src/options_hedge/lp_strategies.py:25-40 | a problem exists exactly when the scenario payoff is positive and the stressed equity misses the floor |
| LpStrategies.ProtectionPossibleIff | src/options_hedge/lp_strategies.py:26-30 | at a positive price the put pays in the scenario exactly when the strike ratio exceeds 1 + downside |
| LpStrategies.HedgeNeededIff | src/options_hedge/lp_strategies.py:32-40 | for positive equity, a hedge is needed exactly when 1 + downside x beta is below the floor ratio |
| LpStrategies.MinContracts | src/options_hedge/lp_strategies.py:42-55 | the fewest contracts, at least one, that restore the floor |
| LpStrategies.MinContractsIsOptimal | src/options_hedge/lp_strategies.py:45-52 | every feasible count is at least MinContracts and, with a positive premium, costs at least as much |
| LpStrategies.RoundHalfEven | src/options_hedge/lp_strategies.py:57 | round() is the floor or the ceiling, within one half of its argument, and a tie goes to the even neighbour |
| LpStrategies.RoundIntegral | src/options_hedge/lp_strategies.py:57 | rounding an integer gives it back |
| LpStrategies.LpFloorHedge | src/options_hedge/lp_strategies.py:12-64 | no purchase on an early exit or without an optimum above 0.5; otherwise one put of round(n) contracts at the scenario strike, premium equity x put_cost, expiring expiry_days later |
| LpStrategies.ExactSolverBuysMinimum | src/options_hedge/lp_strategies.py:42-64 | with an exact solver the strategy buys MinContracts puts |
| FixedFloorLp.ScenarioValues | src/options_hedge/fixed_floor_lp.py:15 | one value Q(1 + r[s]) per scenario |
| FixedFloorLp.PayoffMatrix | src/options_hedge/fixed_floor_lp.py:18 | every payoff is nonnegative, zero when the strike is at most the scenario value, K - V otherwise |
| FixedFloorLp.Shortfall | src/options_hedge/fixed_floor_lp.py:21-28 | one slack per scenario |
| FixedFloorLp.SolveFixedFloorLp | src/options_hedge/fixed_floor_lp.py:5-50 | returns None on every path |
| FixedFloorLp.SolveFixedFloorLpResult | src/options_hedge/strategies.py:572-663 | the record the strategy reads: optimal exactly for an optimal solve of the right shape, with its positions and their total premium; otherwise cost 0 and floor not met |
| FixedFloorLp.ScenarioLossIffNegativeReturn | src/options_hedge/fixed_floor_lp.py:15 | a scenario ends below today's value exactly when its return is negative |
| FixedFloorLp.FloorBelowValueIffLossAllowed | src/options_hedge/fixed_floor_lp.py:16 | the floor is below today's value exactly when the tolerated loss is positive |
| FixedFloorLp.ObjectiveNonnegative | src/options_hedge/fixed_floor_lp.py:23 | nonnegative premiums and positions cost at least nothing |
| FixedFloorLp.NoPositionsNoProtection | src/options_hedge/fixed_floor_lp.py:27 | holding nothing pays nothing in any scenario |
| FixedFloorLp.NoPositionsNoCost | src/options_hedge/fixed_floor_lp.py:23 | holding nothing costs nothing |
| FixedFloorLp.EveryNonnegativePositionIsFeasible | src/options_hedge/fixed_floor_lp.py:20-29 | any nonnegative positions with their shortfalls satisfy every constraint |
| FixedFloorLp.ShortfallIsLeastSlack | src/options_hedge/fixed_floor_lp.py:21-29 | the shortfall is the least slack making positions feasible |
| FixedFloorLp.BuyingNothingIsOptimal | src/options_hedge/fixed_floor_lp.py:20-31 | buying nothing is feasible, costs 0, and no feasible point costs less |
| FixedFloorLp.OptimalSolveCostsNothing | src/options_hedge/fixed_floor_lp.py:23-31 | an optimal solve reports a total cost of exactly 0 |
| FixedFloorLp.ShortfallBelowUnprotected | src/options_hedge/fixed_floor_lp.py:27-29 | nonnegative protection never raises a scenario's shortfall above the unprotected one |
| FixedFloorLp.ClosingShortfall | src/options_hedge/fixed_floor_lp.py:21-29 | enough of one put to lift a scenario to the floor is feasible, and its shortfalls total at least that scenario's gap less than buying nothing |
| FixedFloorLp.ClosingCost | src/options_hedge/fixed_floor_lp.py:23 | that position costs less than the gap when the put pays more than its premium |
| FixedFloorLp.PenalizedLpHedges | src/options_hedge/fixed_floor_lp.py:20-31 | with the shortfall charged in the objective, that position beats every feasible point that buys nothing |
| FixedFloorLp.FreePositionsAreEmpty | src/options_hedge/fixed_floor_lp.py:20-23 | with positive premiums, positions that cost nothing hold nothing |
| FixedFloorLp.PenalizedOptimumCostsSomething | src/options_hedge/fixed_floor_lp.py:20-31 | with the shortfall charged, an optimum spends a positive amount whenever some put pays more than its premium in a scenario below the floor |
| FixedFloorStrategy.Candidates | src/options_hedge/strategies.py:522-537 | one candidate per strike ratio at price x ratio, premium estimate x Q; fails exactly when there is something to price at a zero price or with negative days |
| FixedFloorStrategy.CandidatePremiumsNonnegative | src/options_hedge/strategies.py:530-537 | premiums are nonnegative on a nonnegative value and positive on a positive one |
| FixedFloorStrategy.FixedFloorAsWritten | src/options_hedge/strategies.py:509-572 | the code as written: skips within the interval, and past it raises on the None solution whenever pricing succeeds |
| FixedFloorStrategy.AsWrittenFailsOnFirstCall | src/options_hedge/strategies.py:560-572 | the first call on the default configuration raises |
| FixedFloorStrategy.FloorPurchasesTo | src/options_hedge/strategies.py:612-628 | at most one purchase per position |
| FixedFloorStrategy.FloorPurchasesExact | src/options_hedge/strategies.py:616-628 | exactly the positions above 0.01 are bought, at int(x) contracts |
| FixedFloorStrategy.PurchaseWithinPremium | src/options_hedge/strategies.py:617-627 | int(x) contracts cost at most (1 + spread) x premium x x |
| FixedFloorStrategy.GrossObjectiveScales | src/options_hedge/fixed_floor_lp.py:23 | adding the spread scales the LP objective by 1 + spread |
| FixedFloorStrategy.FloorStepWithinCost | src/options_hedge/strategies.py:616-628 | each position adds at most its grossed-up premium to the spend |
| FixedFloorStrategy.FloorSpendWithinGross | src/options_hedge/strategies.py:616-628 | the purchases cost at most (1 + spread) times the LP objective |
| FixedFloorStrategy.Acted | src/options_hedge/strategies.py:571-646 | an unusable solve or an unfundable cost skips and changes nothing; otherwise equity is sold, the meaningful positions are bought and the date is recorded |
| FixedFloorStrategy.FixedFloorOutcome | src/options_hedge/strategies.py:451-664 | skips within the interval; errors escape unchanged; only an execution changes the books, and it records the date |
| FixedFloorStrategy.CorrectedOnlyReplacesTheCrash | src/options_hedge/strategies.py:560-572 | the corrected strategy differs from the code only where the code raises on None |
| FixedFloorStrategy.NoRehedgeWithinInterval | src/options_hedge/strategies.py:509-512 | after an execution every call inside the interval skips and changes nothing |
| FixedFloorStrategy.FundedFloorCashBound | src/options_hedge/strategies.py:584-628 | a funded execution overdraws cash by at most the spread on the LP's cost |
| FixedFloorStrategy.ExactLpNeverHedges | src/options_hedge/strategies.py:572-582 | with an exact solver every due call skips or raises, and the books never change |
| FixedFloorStrategy.BuyMeaningful | src/options_hedge/strategies.py:612-628 | every meaningful position is bought in order, and the count is returned |
| FixedFloorStrategy.ExecuteFloor | src/options_hedge/strategies.py:571-664 | report and books end as Acted says |
| FixedFloorStrategy.FixedFloor | src/options_hedge/strategies.py:451-664 | report and books end as FixedFloorOutcome says |
| VixLadderLp.Fractions | src/options_hedge/vix_floor_lp.py:99-107 | succeeds exactly when every tuple has a third field, with one fraction per item |
| VixLadderLp.ParseFractions | src/options_hedge/vix_floor_lp.py:99-107 | the parsing loop computes Fractions |
| VixLadderLp.Costs | src/options_hedge/vix_floor_lp.py:116 | one cost per candidate |
| VixLadderLp.RungFrom | src/options_hedge/vix_floor_lp.py:127-133 | the first rung containing the otm fraction, and none when no rung does |
| VixLadderLp.Labels | src/options_hedge/vix_floor_lp.py:126-133 | one label per candidate |
| VixLadderLp.RungMembersExactly | src/options_hedge/vix_floor_lp.py:127-133 | a rung's members are exactly the candidates labelled with it |
| VixLadderLp.RungsExtend | src/options_hedge/vix_floor_lp.py:128-133 | classifying a candidate appends it to its rung only |
| VixLadderLp.ClassifyRungs | src/options_hedge/vix_floor_lp.py:126-133 | the nested loop builds the rungs of the labels |
| VixLadderLp.CheapestFirstIsEarliestMinimum | src/options_hedge/vix_floor_lp.py:190 | the chosen index has minimum cost and is the earliest of the minima |
| VixLadderLp.SortByCost | src/options_hedge/vix_floor_lp.py:190 | sorting permutes the rung's indices |
| VixLadderLp.SortedHeadIsCheapest | src/options_hedge/vix_floor_lp.py:190-199 | the stable sort's head is the earliest cheapest index |
| VixLadderLp.RungStep | src/options_hedge/vix_floor_lp.py:183-199 | one rung keeps one quantity per candidate |
| VixLadderLp.BuyRung | src/options_hedge/vix_floor_lp.py:188-199 | the inner loop computes RungStep |
| VixLadderLp.GreedyFallback | src/options_hedge/vix_floor_lp.py:180-199 | the outer loop computes GreedyFrom over all four rungs |
| VixLadderLp.SolveVixLadderLp | src/options_hedge/vix_floor_lp.py:40-202 | no options gives ([], 0, 0); a GurobiError from the solver escapes, because only ImportError is caught; otherwise the budget formula, one quantity per option and the total cost as their priced sum |
| VixLadderLpProofs.BudgetExamples | src/options_hedge/vix_floor_lp.py:109-113 | the documented budgets for a 1,000,000 portfolio |
| VixLadderLpProofs.BudgetBetaFloor | src/options_hedge/vix_floor_lp.py:112-113 | a beta below one gets the beta-one budget |
| VixLadderLpProofs.BudgetIncreasingInVix | src/options_hedge/vix_floor_lp.py:111-113 | the budget strictly increases with VIX |
| VixLadderLpProofs.TupleBoundsIgnored | src/options_hedge/vix_floor_lp.py:101-107 | a tuple contributes its third field whatever its bounds; a short tuple is an IndexError |
| VixLadderLpProofs.DefaultFractions | src/options_hedge/vix_floor_lp.py:91-107 | the default allocation parses to 5/15/30/50% |
| VixLadderLpProofs.RungOfExactly | src/options_hedge/vix_floor_lp.py:130-133 | rung k is chosen exactly when the otm fraction lies in its half-open interval |
| VixLadderLpProofs.RungOfNone | src/options_hedge/vix_floor_lp.py:119-133 | no rung exactly below 5% or at 100% and above |
| VixLadderLpProofs.LabelsAreValid | src/options_hedge/vix_floor_lp.py:128-133 | every label is one of the four rungs |
| VixLadderLpProofs.GreedyPlanFrom | src/options_hedge/vix_floor_lp.py:180-199 | the greedy loops compute the rung-by-rung plan |
| VixLadderLpProofs.GreedyBuysCheapestOnly | src/options_hedge/vix_floor_lp.py:188-199 | each funded rung buys only its earliest cheapest member, for exactly the rung budget; all else is 0 |
| VixLadderLpProofs.GreedyQuantityCases | src/options_hedge/vix_floor_lp.py:188-199 | a quantity is a funded rung's budget over its chosen cost, or zero |
| VixLadderLpProofs.GreedySucceeds | src/options_hedge/vix_floor_lp.py:183-199 | with four fractions and no zero cost the fallback never raises |
| VixLadderLpProofs.GreedyNonnegative | src/options_hedge/vix_floor_lp.py:197-198 | with positive costs every quantity is nonnegative |
| VixLadderLpProofs.RungSpendIsClassSpend | src/options_hedge/vix_floor_lp.py:163 | the sum over a rung's index list is the sum over its labelled candidates |
| VixLadderLpProofs.SpendPartition | src/options_hedge/vix_floor_lp.py:201 | the total cost splits into the four rungs' spends and the unclassified spend |
| VixLadderLpProofs.FundedCostNonzero | src/options_hedge/vix_floor_lp.py:197 | a successful run never divided by a zero cost |
| VixLadderLpProofs.GreedyRungSpend | src/options_hedge/vix_floor_lp.py:188-199 | each rung spends its budget if funded and nothing otherwise |
| VixLadderLpProofs.GreedyTotalCost | src/options_hedge/vix_floor_lp.py:201 | the greedy total cost is the sum of the funded rung budgets |
| VixLadderLpProofs.TotalNeedIsBudgetShare | src/options_hedge/vix_floor_lp.py:158-165 | the LP's total minimum spend is the budget times the constrained fractions' sum |
| VixLadderLpProofs.RungLowerBound | src/options_hedge/vix_floor_lp.py:158-165 | a feasible point meets each rung's minimum spend |
| VixLadderLpProofs.FeasibleCostLowerBound | src/options_hedge/vix_floor_lp.py:146-165 | no feasible point costs less than the total minimum spend |
| VixLadderLpProofs.NeedWithinBudget | src/options_hedge/vix_floor_lp.py:151-165 | constrained fractions summing to at most one keep the minimum spend within the budget |
| VixLadderLpProofs.GreedySolvesLadderLp | src/options_hedge/vix_floor_lp.py:140-202 | the greedy fallback is feasible for the ladder LP and costs its lower bound: it is an optimum |
| OptionPricer.OnDate | src/options_hedge/option_pricer.py:183 | exactly the rows quoted on the date |
| OptionPricer.NearExpiry | src/options_hedge/option_pricer.py:189-194 | exactly the rows whose expiry is within the window, bounds included |
| OptionPricer.NearStrike | src/options_hedge/option_pricer.py:200-205 | exactly the rows whose strike is within the tolerance, bounds included |
| OptionPricer.OnDateWithFlag | src/options_hedge/option_pricer.py:256-258 | exactly the rows on the date with the flag |
| OptionPricer.Candidates | src/options_hedge/option_pricer.py:183-205 | exactly the rows matching on date, expiry and strike, with no flag condition |
| OptionPricer.Nearest | src/options_hedge/option_pricer.py:211-213 | the first row with the smallest strike distance |
| OptionPricer.Match | src/options_hedge/option_pricer.py:154-223 | a match exists exactly when some row matches on all three counts (nonzero spot); its value is the mid over spot of the first nearest candidate |
| OptionPricer.ZeroToleranceMeansExactStrike | src/options_hedge/option_pricer.py:200-205 | with zero tolerance only the exact strike matches |
| OptionPricer.StrikeRatios | src/options_hedge/option_pricer.py:276 | one strike-over-spot ratio per row |
| OptionPricer.SortedDistinct | src/options_hedge/option_pricer.py:275-276 | strictly increasing and holding exactly the input's values |
| OptionPricer.FallbackIncreasing | src/options_hedge/option_pricer.py:253 | the fallback strikes are ascending |
| OptionPricer.ListedRows | src/options_hedge/option_pricer.py:256-269 | exactly the rows on the date with the flag and expiry in the window |
| OptionPricer.OfferedRatios | src/options_hedge/option_pricer.py:275-280 | strictly increasing, holding exactly the rows' ratios, capped at 1.05 for puts |
| OptionPricer.RatiosOfRows | src/options_hedge/option_pricer.py:276 | a value is a ratio exactly when some row has it |
| OptionPricer.AvailableStrikes | src/options_hedge/option_pricer.py:251-285 | nonempty and ascending: the offered ratios when there are any, else the fallback list |
| OptionPricer.FirstDate | src/options_hedge/option_pricer.py:303 | the table's earliest date |
| OptionPricer.LastDate | src/options_hedge/option_pricer.py:304 | the table's latest date |
| OptionPricer.OptionPricer.constructor | src/options_hedge/option_pricer.py:79-109 | a given table is used; a failed load falls back to synthetic pricing with no table |
| OptionPricer.OptionPricer.MatchWrdsOption | src/options_hedge/option_pricer.py:179-180 | no table means no match, else the match on the table |
| OptionPricer.OptionPricer.GetPutPremium | src/options_hedge/option_pricer.py:111-152 | the matched premium when WRDS is in use and a quote matches, else the synthetic estimate for the days to expiry |
| OptionPricer.OptionPricer.GetAvailableStrikes | src/options_hedge/option_pricer.py:225-285 | nonempty and ascending; the fallback list without WRDS |
| OptionPricer.OptionPricer.GetStats | src/options_hedge/option_pricer.py:287-307 | mode "WRDS" exactly when WRDS is in use; row count and date range only then |
| OptionPricer.SyntheticPricerUsesEstimate | src/options_hedge/option_pricer.py:145-152 | a pricer without WRDS uses the estimate and the fallback strikes |
| NotebookCheck.CodeCells | scripts/check_notebook_executed.py:30 | exactly the code cells |
| NotebookCheck.WithOutputs | scripts/check_notebook_executed.py:35 | exactly the cells with outputs |
| NotebookCheck.HasExecutedOutputs | scripts/check_notebook_executed.py:15-57 | false for invalid JSON or no cells; true with no code cells; otherwise true exactly when some code cell has outputs |
| NotebookCheck.CheckAll | scripts/check_notebook_executed.py:60-79 | usage error gives 1; every path gets a verdict; 0 exactly when every path exists and passes |
| KernelEnv.SplitAtFirstEq | scripts/inject_kernel_env.py:84 | the key has no '=' and key = value rebuilds the argument |
| KernelEnv.ArgEffect | scripts/inject_kernel_env.py:83-104 | KEY=value sets it, aborting on an empty value; a bare name copies its environment value, aborting if empty, skipped if unset |
| KernelEnv.ParseSnoc | scripts/inject_kernel_env.py:82-104 | parsing one more argument applies it after the others |
| KernelEnv.LaterArgumentWins | scripts/inject_kernel_env.py:91 | a later argument for a key overwrites the earlier value |
| KernelEnv.AbortsIffSomeArgumentEmpty | scripts/inject_kernel_env.py:85-101 | parsing aborts exactly when some argument has an empty value |
| KernelEnv.ParsedKeys | scripts/inject_kernel_env.py:82-104 | the keys are exactly those some argument sets, with no empty value |
| KernelEnv.ParseArgv | scripts/inject_kernel_env.py:70-104 | fewer than two argv entries is a usage error; otherwise the kernel name and the parsed variables or the first abort |
| KernelEnv.KernelSpec.MergeEnv | scripts/inject_kernel_env.py:56-59 | env is created if absent; injected keys take the new values; other keys keep theirs |
| KernelEnv.InjectKernelEnv | scripts/inject_kernel_env.py:70-106 | an abort leaves the spec unchanged; success merges every parsed variable and keeps the rest, so the env's keys are exactly the old keys and the parsed ones |

## Left out

- Floating point: money is exact `real`, so rounding, NaN and infinity are not modelled. This covers:
  - a NaN VIX from a missing aligned value;
  - `float()` of a NumPy scalar;
  - the exact-real `while otm <= max_otm` loop, whose float version can drop or add the last level.
- Square roots: `(days / 365) ** 0.5` and `time_to_expiry_years ** 0.5` are parameters, because Dafny reals have no square root.
- Solvers: the Gurobi solves in `vix_floor_lp.py`, `fixed_floor_lp.py` and `lp_strategies.py` are inputs, so their optimal values are not computed.
  - In `vix_floor_lp.py` only an `ImportError` selects the greedy fallback. A `GurobiError` raised while the model is built escapes (`SolverFailed`). A `GurobiError` raised later, from `optimize`, is not distinguished.
  - `fixed_floor_lp.py` and `lp_strategies.py` import gurobipy at module level, and `strategies.py` imports `fixed_floor_lp`. So a missing gurobipy stops the strategies module from loading at all, and that is outside the model. A `GurobiError` from those two solves is not modelled either.
- I/O:
  - the yfinance downloads;
  - loading the encrypted WRDS table (the constructor takes its outcome as `load`);
  - finding, reading and writing `kernel.json`, including its error exits;
  - reading a notebook file (a file that cannot be opened is not modelled);
  - every `print` and verbose report.
- Statistics: the pandas standard deviations of the conditional strategy and the ladder's sigma are inputs; `analyzer.py` is not part of this model.
- `solve_vix_ladder_lp`'s `sigma`, `T_years` and `alpha` parameters are unused by the source and are left out.
- MarketData.DailyReturns: a zero close, which pct_change turns into an infinite return, is given return 0.
- Strategies.PriceDropTrigger: a zero first close, which the source divides by, never triggers.
- Strategies.Conditional: requires a positive lookback window; the source's `tail(0)` behaviour with a nonpositive one is left out.
- FixedFloorStrategy.Candidates: the strike labels `K{int(ratio*100)}` are positions in a sequence, so two ratios with the same label stay two candidates rather than collapsing in the dict.
- LadderStrategy.PlanLadder: requires that an optimal solver report has one quantity per chain entry, which the real solver guarantees.
- LadderStrategy.PlanLadder, LadderStrategy.VixLadder, LadderStrategy.OtmLevels: require a positive `strike_density`. With a zero or negative one, the source's `while otm <= max_otm: ... otm += strike_density` (`src/options_hedge/strategies.py:344-346`) never ends. That hang is not modelled.
- VixLadderLp.SolveVixLadderLp: requires that an optimal solver report has one quantity per option, which the real solver guarantees.
- LadderStrategy.ExecuteLadder: the `except ValueError: break` around `buy_put` is unreachable, because margin is allowed, so it is not modelled.
- FixedFloorStrategy.BuyMeaningful: the `except ValueError: break` around `buy_put` is unreachable, because margin is allowed, so it is not modelled.
- LadderStrategy.VixLadder: the empty-chain return is unreachable, because at least one level always fits, so it is not modelled.
- OptionPricer.Match: a zero spot, which the source turns into an infinite premium, is treated as no match.
- OptionPricer.AvailableStrikes: a zero spot gives the fallback list, for calls as well as puts.
- NotebookCheck.HasExecutedOutputs: the under-half warning branch returns true like the success branch, so only its result is modelled; the JSON types are reduced to a cell type string and a list of outputs.
- KernelEnv.KernelSpec: the env object is a map from strings to strings; other JSON values in an existing env are not modelled.
- The strategies' handling of a failed VIX lookup is modelled as the source behaves (the `ValueError` escapes), not corrected.

## Findings

| source | as written | input that shows it | evidently intended | confidence | as-written member | corrected member |
|---|---|---|---|---|---|---|
| src/options_hedge/strategies.py:560-572 | `solution["status"]` is read from the result of `solve_fixed_floor_lp`, which returns `None` on every path (src/options_hedge/fixed_floor_lp.py:50), so every call past the hedge interval raises TypeError | the first call with default parameters, no VIX source and any solver status | the solver returns a record with status, total_cost, quantities and floor_met, which the strategy acts on | not executed | FixedFloorStrategy.FixedFloorAsWritten | FixedFloorStrategy.FixedFloorOutcome |
| src/options_hedge/fixed_floor_lp.py:21-31 | the shortfall variables `z` are only bounded below by 0 and do not appear in the objective, so `z` absorbs every gap and buying nothing is optimal; an exact solver reports a total cost of 0 | any scenarios, any floor and any nonnegative premiums | the shortfall is charged in the objective (premium spend plus total shortfall), so a put that pays more than its premium in a scenario below the floor is bought | not executed | FixedFloorLp.BuyingNothingIsOptimal | FixedFloorLp.PenalizedOptimumCostsSomething |
