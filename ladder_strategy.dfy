/**
 * vix_ladder_strategy (src/options_hedge/strategies.py): price a chain of
 * puts from 5% to 60% out of the money with the VIX heuristic, size it with
 * the VIX-ladder optimiser, fund it by selling equity when cash is short,
 * buy every positive quantity and keep a running cost in `params`.
 */
module LadderStrategy {
  import opened Wrappers
  import opened Instrument
  import PortfolioModel
  import VixLadderLp
  import Strategies
  import RealArith

  /** The keys the ladder strategy reads; `vix` overrides the market lookup. */
  datatype LadderConfig = LadderConfig(vix: Option<real>, expiryDays: int, alpha: real, strikeDensity: real,
                                       transactionCostRate: real,
                                       allocations: Option<seq<VixLadderLp.AllocationItem>>)

  const DefaultLadder := LadderConfig(None, 90, 0.05, 0.05, 0.05, None)

  const MinOtm := 0.05
  const MaxOtm := 0.60

  // ------------------------------------------------------------- the strike grid

  /** The i-th out-of-the-money level: 5% plus i steps of `density`. */
  function Level(density: real, i: nat): real
  {
    MinOtm + i as real * density
  }

  /** The first n out-of-the-money levels, `density` apart from 5%. */
  function OtmGrid(density: real, n: nat): (r: seq<real>)
    ensures |r| == n && forall i :: 0 <= i < n ==> r[i] == Level(density, i)
  {
    seq(n, i requires 0 <= i < n => Level(density, i))
  }

  /** One more step of `density` reaches the next level. */
  lemma LevelStep(density: real, n: nat)
    ensures Level(density, n) + density == Level(density, n + 1)
  {
  }

  /** How many levels fit in [5%, 60%]: floor(0.55 / density) + 1. */
  function LevelCount(density: real): (n: nat)
    requires density > 0.0
    ensures n >= 1
  {
    RealArith.MulNonnegative(density, 0.55 / density);
    assert density * (0.55 / density) == 0.55;
    ((0.55 / density).Floor + 1) as nat
  }

  /**
   * The `while otm <= max_otm` loop over exact reals: the levels are the
   * grid from 5%, the last one at most 60% and the next one beyond it.
   */
  method OtmLevels(density: real) returns (levels: seq<real>)
    requires density > 0.0
    ensures levels == OtmGrid(density, LevelCount(density))
    ensures |levels| >= 1
    ensures Level(density, |levels| - 1) <= MaxOtm < Level(density, |levels|)
  {
    levels := [];
    var otm := MinOtm;
    while otm <= MaxOtm
      invariant otm == Level(density, |levels|)
      invariant levels == OtmGrid(density, |levels|)
      invariant |levels| > 0 ==> Level(density, |levels| - 1) <= MaxOtm
      decreases ((MaxOtm - otm) / density).Floor + 1
    {
      ghost var n := |levels|;
      StepDown(MaxOtm - otm, density);
      GridAppend(density, n);
      LevelStep(density, n);
      levels := levels + [otm];
      otm := otm + density;
    }
    CountFits(density, |levels|);
  }

  /** One more step of `density` lowers the remaining number of steps by one. */
  lemma StepDown(x: real, d: real)
    requires d > 0.0
    ensures (x - d) / d == x / d - 1.0
  {
    RealArith.CancelDivision(d, x, x / d);
    RealArith.CancelDivision(d, x - d, (x - d) / d);
    assert d * (x / d - 1.0) == x - d;
    RealArith.CancelFactor(d, (x - d) / d, x / d - 1.0);
  }

  lemma GridAppend(d: real, n: nat)
    ensures OtmGrid(d, n) + [Level(d, n)] == OtmGrid(d, n + 1)
  {
    var a := OtmGrid(d, n) + [Level(d, n)];
    var b := OtmGrid(d, n + 1);
    assert forall i :: 0 <= i < n + 1 ==> a[i] == b[i];
  }

  /** n levels with the last inside and the next outside are exactly LevelCount. */
  lemma CountFits(d: real, n: nat)
    requires d > 0.0 && n >= 1
    requires Level(d, n - 1) <= MaxOtm < Level(d, n)
    ensures n == LevelCount(d)
  {
    var q := 0.55 / d;
    RealArith.CancelDivision(d, 0.55, q);
    assert (n - 1) as real <= q by {
      if (n - 1) as real > q {
        RealArith.MulStrict(d, q, (n - 1) as real);
      }
    }
    assert q < n as real by {
      if q >= n as real {
        RealArith.MulMonotone(d, n as real, q);
      }
    }
  }

  // ------------------------------------------------------------- the option chain

  /** The years to expiry the chain carries: days / 365.25. */
  function ExpiryYears(expiryDays: int): real
  {
    expiryDays as real / 365.25
  }

  /**
   * The priced chain: at level `otm`, strike price * (1 - otm) and premium
   * estimate * V0; the premium estimate fails for every level alike.
   */
  function Chain(levels: seq<real>, price: real, v0: real, vix: real, expiryDays: int, timeFactor: real)
    : (r: Result<seq<VixLadderLp.PutCandidate>, Strategies.PremiumError>)
    requires Strategies.IsTimeFactor(expiryDays, timeFactor)
    ensures |levels| > 0 ==> (r.Err? <==> price == 0.0 || expiryDays < 0)
    ensures r.Ok? ==> |r.value| == |levels|
    ensures r.Ok? ==> forall j :: 0 <= j < |levels| ==>
              r.value[j].strike == price * (1.0 - levels[j])
              && r.value[j].premium
                   == Strategies.EstimatePutPremium(price * (1.0 - levels[j]), price, expiryDays, vix, timeFactor).value * v0
              && r.value[j].expiryYears == ExpiryYears(expiryDays)
  {
    if |levels| == 0 then Ok([])
    else if price == 0.0 then Err(Strategies.ZeroSpot)
    else if expiryDays < 0 then Err(Strategies.NegativeDaysToExpiry)
    else
      Ok(seq(|levels|, j requires 0 <= j < |levels| =>
        var strike := price * (1.0 - levels[j]);
        VixLadderLp.PutCandidate(
          strike,
          Strategies.EstimatePutPremium(strike, price, expiryDays, vix, timeFactor).value * v0,
          ExpiryYears(expiryDays))))
  }

  /** Every premium in a chain priced from a nonnegative portfolio value is nonnegative. */
  lemma ChainPremiumsNonnegative(levels: seq<real>, price: real, v0: real, vix: real, expiryDays: int,
                                 timeFactor: real)
    requires Strategies.IsTimeFactor(expiryDays, timeFactor) && v0 >= 0.0
    requires Chain(levels, price, v0, vix, expiryDays, timeFactor).Ok?
    ensures forall j :: 0 <= j < |levels| ==> Chain(levels, price, v0, vix, expiryDays, timeFactor).value[j].premium >= 0.0
  {
    var chain := Chain(levels, price, v0, vix, expiryDays, timeFactor).value;
    forall j | 0 <= j < |levels|
      ensures chain[j].premium >= 0.0
    {
      var pct := Strategies.EstimatePutPremium(price * (1.0 - levels[j]), price, expiryDays, vix, timeFactor).value;
      RealArith.MulNonnegative(pct, v0);
    }
  }

  // ------------------------------------------------------------- purchases

  /** The puts bought for the first n chain entries: one per positive quantity, int(quantity) contracts. */
  function PurchasesTo(chain: seq<VixLadderLp.PutCandidate>, q: seq<real>, expiry: int, n: nat): (r: seq<Put>)
    requires n <= |chain| && n <= |q|
    ensures |r| <= n
  {
    if n == 0 then []
    else
      PurchasesTo(chain, q, expiry, n - 1)
      + (if q[n - 1] > 0.0
         then [Put(chain[n - 1].strike, chain[n - 1].premium, expiry, Strategies.Trunc(q[n - 1]))]
         else [])
  }

  /** The purchases for a whole chain (entries without a quantity are not bought). */
  function Purchases(chain: seq<VixLadderLp.PutCandidate>, q: seq<real>, expiry: int): seq<Put>
  {
    PurchasesTo(chain, q, expiry, if |chain| <= |q| then |chain| else |q|)
  }

  /**
   * Exactly the positive quantities are bought: each purchase comes from a
   * positive quantity of some chain entry, at that entry's strike and
   * premium, for int(quantity) contracts, and every such entry's put is bought.
   */
  lemma {:induction false} PurchasesFromPositiveQuantities(chain: seq<VixLadderLp.PutCandidate>, q: seq<real>,
                                                           expiry: int, n: nat)
    requires n <= |chain| && n <= |q|
    ensures forall k :: 0 <= k < |PurchasesTo(chain, q, expiry, n)| ==>
              exists j :: 0 <= j < n && q[j] > 0.0
                          && PurchasesTo(chain, q, expiry, n)[k]
                             == Put(chain[j].strike, chain[j].premium, expiry, Strategies.Trunc(q[j]))
    ensures forall j :: 0 <= j < n && q[j] > 0.0 ==>
              Put(chain[j].strike, chain[j].premium, expiry, Strategies.Trunc(q[j])) in PurchasesTo(chain, q, expiry, n)
  {
    if n > 0 {
      PurchasesFromPositiveQuantities(chain, q, expiry, n - 1);
      var init := PurchasesTo(chain, q, expiry, n - 1);
      var all := PurchasesTo(chain, q, expiry, n);
      var last := Put(chain[n - 1].strike, chain[n - 1].premium, expiry, Strategies.Trunc(q[n - 1]));
      assert all == init + (if q[n - 1] > 0.0 then [last] else []);
      forall k | 0 <= k < |all|
        ensures exists j :: 0 <= j < n && q[j] > 0.0
                            && all[k] == Put(chain[j].strike, chain[j].premium, expiry, Strategies.Trunc(q[j]))
      {
        if k < |init| {
          assert all[k] == init[k];
          var j :| 0 <= j < n - 1 && q[j] > 0.0
                   && init[k] == Put(chain[j].strike, chain[j].premium, expiry, Strategies.Trunc(q[j]));
          assert 0 <= j < n;
        } else {
          assert q[n - 1] > 0.0 && all[k] == last;
          assert 0 <= n - 1 < n;
        }
      }
      forall j | 0 <= j < n && q[j] > 0.0
        ensures Put(chain[j].strike, chain[j].premium, expiry, Strategies.Trunc(q[j])) in all
      {
        if j < n - 1 {
          assert Put(chain[j].strike, chain[j].premium, expiry, Strategies.Trunc(q[j])) in init;
        } else {
          assert all[|all| - 1] == last;
        }
      }
      assert all == PurchasesTo(chain, q, expiry, n);
    } else {
      assert PurchasesTo(chain, q, expiry, n) == [];
    }
  }

  /**
   * With nonnegative quantities and premiums and a portfolio spread no
   * larger than the optimiser's transaction-cost rate, the cash the
   * purchases take is at most the total cost the optimiser reported.
   */
  lemma {:induction false} SpendWithinTotalCost(chain: seq<VixLadderLp.PutCandidate>, q: seq<real>, expiry: int,
                                                spread: real, rate: real, n: nat)
    requires n <= |chain| == |q|
    requires 0.0 <= spread <= rate
    requires forall j :: 0 <= j < |chain| ==> chain[j].premium >= 0.0 && q[j] >= 0.0
    ensures Strategies.SpendOf(PurchasesTo(chain, q, expiry, n), spread)
            <= VixLadderLp.DotTo(VixLadderLp.Costs(chain, rate), q, n)
  {
    if n > 0 {
      SpendWithinTotalCost(chain, q, expiry, spread, rate, n - 1);
      StepWithinCost(chain, q, expiry, spread, rate, n);
    }
  }

  /** Entry n - 1 adds no more to the spend than to the optimiser's total cost. */
  lemma StepWithinCost(chain: seq<VixLadderLp.PutCandidate>, q: seq<real>, expiry: int,
                       spread: real, rate: real, n: nat)
    requires 0 < n <= |chain| == |q|
    requires 0.0 <= spread <= rate && chain[n - 1].premium >= 0.0 && q[n - 1] >= 0.0
    ensures Strategies.SpendOf(PurchasesTo(chain, q, expiry, n), spread)
              - Strategies.SpendOf(PurchasesTo(chain, q, expiry, n - 1), spread)
            <= VixLadderLp.DotTo(VixLadderLp.Costs(chain, rate), q, n)
               - VixLadderLp.DotTo(VixLadderLp.Costs(chain, rate), q, n - 1)
  {
    var init := PurchasesTo(chain, q, expiry, n - 1);
    var c := VixLadderLp.Costs(chain, rate);
    var qn := q[n - 1];
    var step := c[n - 1] * qn;
    assert VixLadderLp.DotTo(c, q, n) == VixLadderLp.DotTo(c, q, n - 1) + step;
    if qn > 0.0 {
      var o := Put(chain[n - 1].strike, chain[n - 1].premium, expiry, Strategies.Trunc(qn));
      assert PurchasesTo(chain, q, expiry, n) == init + [o];
      Strategies.SpendOfAppend(init, o, spread);
      PurchaseWithinCost(o, c[n - 1], qn, spread, rate);
      assert Strategies.SpendOf(PurchasesTo(chain, q, expiry, n), spread)
             == Strategies.SpendOf(init, spread) + PortfolioModel.PurchaseCost(o, spread);
    } else {
      assert PurchasesTo(chain, q, expiry, n) == init;
      RealArith.MulNonnegative(c[n - 1], qn);
    }
  }

  /** One purchase of int(q) contracts costs at most the optimiser's cost for q. */
  lemma PurchaseWithinCost(o: Put, cost: real, q: real, spread: real, rate: real)
    requires o.premium >= 0.0 && q > 0.0 && 0.0 <= spread <= rate
    requires o.quantity == Strategies.Trunc(q) && cost == o.premium * (1.0 + rate)
    ensures PortfolioModel.PurchaseCost(o, spread) <= cost * q
  {
    EntryWithinCost(o.premium, q, spread, rate);
  }

  /** One purchase: premium * int(q) * (1 + spread) <= premium * (1 + rate) * q. */
  lemma EntryWithinCost(premium: real, q: real, spread: real, rate: real)
    requires premium >= 0.0 && q > 0.0 && 0.0 <= spread <= rate
    ensures premium * Strategies.Trunc(q) as real * (1.0 + spread) <= premium * (1.0 + rate) * q
  {
    var t := Strategies.Trunc(q) as real;
    RealArith.MulMonotone(premium, t, q);
    RealArith.MulNonnegative(premium, q);
    RealArith.MulMonotone(premium * q, 1.0 + spread, 1.0 + rate);
    RealArith.MulMonotone(1.0 + spread, premium * t, premium * q);
  }

  // ------------------------------------------------------------- the strategy

  /** The VIX the ladder prices with: the `vix` parameter, else get_vix, whose failures all escape. */
  function LadderVix(configured: Option<real>, quote: Strategies.VixQuote): (r: Result<real, Strategies.StrategyError>)
    ensures configured.Some? ==> r == Ok(configured.value)
    ensures configured.None? ==> (r.Ok? <==> quote.Quoted?)
    ensures configured.None? && quote.Quoted? ==> r == Ok(quote.level)
    ensures configured.None? && quote.LookupFailed? ==> r == Err(Strategies.VixLookupFailed(quote.error))
    ensures configured.None? && quote.NoVixSource? ==> r == Err(Strategies.NoVixAvailable)
  {
    if configured.Some? then Ok(configured.value)
    else
      match quote
      case Quoted(v) => Ok(v)
      case LookupFailed(e) => Err(Strategies.VixLookupFailed(e))
      case NoVixSource => Err(Strategies.NoVixAvailable)
  }

  /** The priced chain and the optimiser's answer the purchases follow. */
  datatype LadderPlan = LadderPlan(chain: seq<VixLadderLp.PutCandidate>, solution: VixLadderLp.LadderSolution)

  /**
   * Everything the strategy computes before it touches the portfolio: the
   * chain over the strike grid (a pricing error escapes) and the
   * optimiser's solution for it (its error escapes).
   */
  function PlanLadder(v0: real, price: real, beta: real, vix: real, cfg: LadderConfig, timeFactor: real,
                      solver: VixLadderLp.SolverOutcome): (r: Result<LadderPlan, Strategies.StrategyError>)
    requires cfg.strikeDensity > 0.0 && Strategies.IsTimeFactor(cfg.expiryDays, timeFactor)
    requires solver.SolverOptimal? ==> |solver.x| == LevelCount(cfg.strikeDensity)
    ensures price == 0.0 ==> r == Err(Strategies.PremiumFailed(Strategies.ZeroSpot))
    ensures price != 0.0 && cfg.expiryDays < 0 ==> r == Err(Strategies.PremiumFailed(Strategies.NegativeDaysToExpiry))
    ensures r.Ok? ==>
              |r.value.chain| == LevelCount(cfg.strikeDensity)
              && VixLadderLp.Ladder(r.value.chain, v0, price, beta, vix, cfg.allocations,
                                    cfg.transactionCostRate, solver) == Ok(r.value.solution)
  {
    var chain := Chain(OtmGrid(cfg.strikeDensity, LevelCount(cfg.strikeDensity)), price, v0, vix,
                       cfg.expiryDays, timeFactor);
    if chain.Err? then Err(Strategies.PremiumFailed(chain.error))
    else
      match VixLadderLp.Ladder(chain.value, v0, price, beta, vix, cfg.allocations, cfg.transactionCostRate, solver)
      case Err(e) => Err(Strategies.LadderFailed(e))
      case Ok(solution) => Ok(LadderPlan(chain.value, solution))
  }

  /** Build the strike grid, price the chain and run the optimiser, stopping at the first error. */
  method ComputePlan(v0: real, price: real, beta: real, vix: real, cfg: LadderConfig, timeFactor: real,
                     solver: VixLadderLp.SolverOutcome) returns (r: Result<LadderPlan, Strategies.StrategyError>)
    requires cfg.strikeDensity > 0.0 && Strategies.IsTimeFactor(cfg.expiryDays, timeFactor)
    requires solver.SolverOptimal? ==> |solver.x| == LevelCount(cfg.strikeDensity)
    ensures r == PlanLadder(v0, price, beta, vix, cfg, timeFactor, solver)
    ensures r.Ok? ==> |r.value.solution.quantities| == |r.value.chain|
                      && r.value.solution.totalCost
                         == VixLadderLp.Dot(VixLadderLp.Costs(r.value.chain, cfg.transactionCostRate),
                                            r.value.solution.quantities)
  {
    var levels := OtmLevels(cfg.strikeDensity);
    var chain := Chain(levels, price, v0, vix, cfg.expiryDays, timeFactor);
    if chain.Err? {
      return Err(Strategies.PremiumFailed(chain.error));
    }
    var solved := VixLadderLp.SolveVixLadderLp(chain.value, v0, price, beta, vix, cfg.allocations,
                                               cfg.transactionCostRate, solver);
    if solved.Err? {
      return Err(Strategies.LadderFailed(solved.error));
    }
    return Ok(LadderPlan(chain.value, solved.value));
  }

  /** The purchase goes ahead: nothing to pay, or the cash rule can fund it. */
  predicate LadderFunded(equity: real, cash: real, cost: real)
  {
    cost <= 0.0 || Strategies.CanFund(equity, cash, cost)
  }

  /** The equity the cash rule sells (only a positive cost is funded). */
  function LadderSold(cash: real, cost: real): real
  {
    if cost > 0.0 then Strategies.EquityToSell(cash, cost) else 0.0
  }

  /** What the ladder strategy changes: the portfolio's holdings and the two `params` entries it keeps. */
  datatype Books = Books(holdings: Strategies.Holdings, lpCost: Option<real>, lastLpHedge: Option<Option<int>>)

  function BooksOf(p: PortfolioModel.Portfolio, params: Strategies.StrategyParams): Books
    reads p, params
  {
    Books(Strategies.HoldingsOf(p), params.lpCost, params.lastLpHedge)
  }

  /** `lp_cost` starts at 0.0 and `last_lp_hedge` at None when absent; present entries and the holdings stay. */
  function Initialised(b: Books): (r: Books)
    ensures r.lpCost.Some? && r.lastLpHedge.Some?
    ensures b.lpCost.Some? ==> r.lpCost == b.lpCost
    ensures b.lastLpHedge.Some? ==> r.lastLpHedge == b.lastLpHedge
    ensures r.holdings == b.holdings
  {
    b.(lpCost := if b.lpCost.Some? then b.lpCost else Some(0.0),
       lastLpHedge := if b.lastLpHedge.Some? then b.lastLpHedge else Some(None))
  }

  /**
   * The books after acting on `plan` (ExecuteLadder): when funded, the
   * value falls by what the purchases cost, the purchases follow the old
   * options, `lp_cost` grows by the total cost and the date is recorded;
   * otherwise nothing changes.  The return value is LadderSpent.
   */
  function Executed(b: Books, plan: LadderPlan, date: int, expiryDays: int, spread: real): (r: Books)
    requires b.lpCost.Some?
    ensures var cost := plan.solution.totalCost;
            var bought := Purchases(plan.chain, plan.solution.quantities, date + expiryDays);
            if LadderFunded(b.holdings.equity, b.holdings.cash, cost) then
              Strategies.Value(r.holdings) == Strategies.Value(b.holdings) - Strategies.SpendOf(bought, spread)
              && r.holdings.options == b.holdings.options + bought
              && r.lpCost == Some(b.lpCost.value + cost) && r.lastLpHedge == Some(Some(date))
            else r == b
  {
    var cost := plan.solution.totalCost;
    if LadderFunded(b.holdings.equity, b.holdings.cash, cost) then
      var bought := Purchases(plan.chain, plan.solution.quantities, date + expiryDays);
      Books(Strategies.AfterPurchases(b.holdings, LadderSold(b.holdings.cash, cost), bought, spread),
            Some(b.lpCost.value + cost), Some(Some(date)))
    else b
  }

  /** The strategy's return value for a plan: the total cost when funded, else 0.0. */
  function LadderSpent(b: Books, plan: LadderPlan): real
  {
    if LadderFunded(b.holdings.equity, b.holdings.cash, plan.solution.totalCost) then plan.solution.totalCost
    else 0.0
  }

  /**
   * When the plan's total cost is what its purchases cost the optimiser
   * (nonnegative premiums and quantities, the portfolio's spread within the
   * optimiser's transaction-cost rate), the purchases never need margin: a
   * funded positive cost leaves cash nonnegative, and a zero cost spends
   * nothing.
   */
  lemma FundedLadderNeedsNoMargin(b: Books, plan: LadderPlan, date: int, expiryDays: int, spread: real, rate: real)
    requires b.lpCost.Some? && |plan.chain| == |plan.solution.quantities|
    requires plan.solution.totalCost
             == VixLadderLp.Dot(VixLadderLp.Costs(plan.chain, rate), plan.solution.quantities)
    requires 0.0 <= spread <= rate
    requires forall j :: 0 <= j < |plan.chain| ==> plan.chain[j].premium >= 0.0 && plan.solution.quantities[j] >= 0.0
    ensures plan.solution.totalCost > 0.0 && LadderFunded(b.holdings.equity, b.holdings.cash, plan.solution.totalCost)
            ==> Executed(b, plan, date, expiryDays, spread).holdings.cash >= 0.0
    ensures plan.solution.totalCost <= 0.0 ==>
              Executed(b, plan, date, expiryDays, spread).holdings.cash >= b.holdings.cash
  {
    var q := plan.solution.quantities;
    var cost := plan.solution.totalCost;
    SpendWithinTotalCost(plan.chain, q, date + expiryDays, spread, rate, |plan.chain|);
    assert Strategies.SpendOf(Purchases(plan.chain, q, date + expiryDays), spread) <= cost;
  }

  /**
   * The part of vix_ladder_strategy that changes the portfolio: with a
   * positive total cost apply the cash rule (returning 0.0 when it cannot
   * fund), then buy int(q) puts for every positive q at the chain entry's
   * strike and premium, add the total cost to `lp_cost`, record the date
   * and return the total cost.
   */
  method ExecuteLadder(p: PortfolioModel.Portfolio, params: Strategies.StrategyParams, plan: LadderPlan,
                       date: int, expiryDays: int) returns (spent: real)
    requires params.lpCost.Some?
    modifies p`equityValue, p`cash, p`options, p`totalTransactionCosts, params`lpCost, params`lastLpHedge
    ensures BooksOf(p, params) == Executed(old(BooksOf(p, params)), plan, date, expiryDays, p.optionBidAskSpread)
    ensures spent == LadderSpent(old(BooksOf(p, params)), plan)
  {
    var totalCost := plan.solution.totalCost;
    if totalCost > 0.0 {
      var funded := Strategies.Rebalance(p, totalCost);
      if !funded {
        return 0.0;
      }
    }
    var bought := Purchases(plan.chain, plan.solution.quantities, date + expiryDays);
    Strategies.BuyAll(p, bought);
    params.lpCost := Some(params.lpCost.value + totalCost);
    params.lastLpHedge := Some(Some(date));
    return totalCost;
  }

  /**
   * vix_ladder_strategy.  In order: the VIX (an error changes nothing); the
   * `lp_cost` / `last_lp_hedge` entries initialised when absent; the plan on
   * portfolio value V0 = equity + cash (its error escapes); then the
   * purchases of ExecuteLadder.
   */
  method VixLadder(p: PortfolioModel.Portfolio, params: Strategies.StrategyParams, price: real, date: int,
                   cfg: LadderConfig, quote: Strategies.VixQuote, timeFactor: real,
                   solver: VixLadderLp.SolverOutcome)
    returns (r: Result<real, Strategies.StrategyError>)
    requires cfg.strikeDensity > 0.0 && Strategies.IsTimeFactor(cfg.expiryDays, timeFactor)
    requires solver.SolverOptimal? ==> |solver.x| == LevelCount(cfg.strikeDensity)
    modifies p`equityValue, p`cash, p`options, p`totalTransactionCosts, params`lpCost, params`lastLpHedge
    ensures LadderVix(cfg.vix, quote).Err? ==>
              r == Err(LadderVix(cfg.vix, quote).error) && BooksOf(p, params) == old(BooksOf(p, params))
    ensures LadderVix(cfg.vix, quote).Ok? ==>
              var plan := PlanLadder(Strategies.Value(old(Strategies.HoldingsOf(p))), price, p.beta, LadderVix(cfg.vix, quote).value,
                                     cfg, timeFactor, solver);
              var start := Initialised(old(BooksOf(p, params)));
              if plan.Err? then
                r == Err(plan.error) && BooksOf(p, params) == start
              else
                r == Ok(LadderSpent(start, plan.value))
                && BooksOf(p, params) == Executed(start, plan.value, date, cfg.expiryDays, p.optionBidAskSpread)
  {
    var vixR := LadderVix(cfg.vix, quote);
    if vixR.Err? {
      return Err(vixR.error);
    }
    // The plan reads nothing the initialisation below writes, so it is computed first.
    var plan := ComputePlan(Strategies.Value(Strategies.HoldingsOf(p)), price, p.beta, vixR.value, cfg, timeFactor, solver);
    if params.lpCost.None? {
      params.lpCost := Some(0.0);
    }
    if params.lastLpHedge.None? {
      params.lastLpHedge := Some(None);
    }
    assert BooksOf(p, params) == Initialised(old(BooksOf(p, params)));
    if plan.Err? {
      return Err(plan.error);
    }
    var spent := ExecuteLadder(p, params, plan.value, date, cfg.expiryDays);
    return Ok(spent);
  }
}
