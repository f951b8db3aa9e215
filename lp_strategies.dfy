/**
 * The single-put floor hedge (src/options_hedge/lp_strategies.py): under a
 * downside scenario, buy the fewest puts whose payoff lifts the stressed
 * equity back to the required floor.  The one-variable integer program is
 * solved by an external solver, whose report is an input (`IpOutcome`);
 * its optimum has the closed form `MinContracts`.
 */
module LpStrategies {
  import opened Wrappers
  import Instrument
  import PortfolioModel
  import RealArith

  /** The strategy's parameters (the `params` keys it reads), defaults in `DefaultLpFloorConfig`. */
  datatype LpFloorConfig = LpFloorConfig(floorRatio: real, downsideScenario: real, putCost: real,
                                         strikeRatio: real, expiryDays: int)

  const DefaultLpFloorConfig := LpFloorConfig(0.85, -0.15, 0.01, 0.9, 120)

  /** What the solver reports for n_puts: optimal with a value, or another status. */
  datatype IpOutcome = IpOptimal(n: real) | IpNotOptimal

  /** The integer program the strategy hands to the solver, with the put it would buy. */
  datatype FloorProblem = FloorProblem(equityAfterDrop: real, requiredFloor: real,
                                       payoffPerContract: real, strike: real, premium: real, expiry: int)

  // ------------------------------------------------------------- scenario arithmetic

  /** What one put at the configured strike pays when the price falls by the scenario. */
  function ScenarioPayoff(price: real, cfg: LpFloorConfig): real
  {
    Instrument.Max0(price * cfg.strikeRatio - price * (1.0 + cfg.downsideScenario))
  }

  /** The equity after the scenario drop, scaled by the portfolio's beta. */
  function StressedEquity(equity: real, beta: real, cfg: LpFloorConfig): real
  {
    equity * (1.0 + cfg.downsideScenario * beta)
  }

  /** The equity the portfolio must keep under the scenario. */
  function RequiredFloor(equity: real, cfg: LpFloorConfig): real
  {
    equity * cfg.floorRatio
  }

  /**
   * The scenario arithmetic with both early exits: None when the chosen
   * strike pays nothing in the scenario, or when the stressed equity already
   * meets the floor; otherwise the problem to solve.
   */
  function FloorHedgeProblem(equity: real, beta: real, price: real, date: int, cfg: LpFloorConfig)
    : (r: Option<FloorProblem>)
    ensures r.Some? <==> ScenarioPayoff(price, cfg) > 0.0
                         && StressedEquity(equity, beta, cfg) < RequiredFloor(equity, cfg)
    ensures r.Some? ==> r.value.payoffPerContract == ScenarioPayoff(price, cfg) > 0.0
                        && r.value.equityAfterDrop == StressedEquity(equity, beta, cfg)
                        && r.value.requiredFloor == RequiredFloor(equity, cfg)
                        && r.value.equityAfterDrop < r.value.requiredFloor
                        && r.value.strike == price * cfg.strikeRatio
                        && r.value.premium == equity * cfg.putCost
                        && r.value.expiry == date + cfg.expiryDays
  {
    var payoff := ScenarioPayoff(price, cfg);
    if payoff <= 0.0 then None
    else
      var after := StressedEquity(equity, beta, cfg);
      var floor := RequiredFloor(equity, cfg);
      if after >= floor then None
      else Some(FloorProblem(after, floor, payoff, price * cfg.strikeRatio, equity * cfg.putCost,
                             date + cfg.expiryDays))
  }

  /** At a positive price the scenario pays out exactly when the strike ratio lies above the scenario's price ratio. */
  lemma ProtectionPossibleIff(price: real, cfg: LpFloorConfig)
    requires price > 0.0
    ensures ScenarioPayoff(price, cfg) > 0.0 <==> cfg.strikeRatio > 1.0 + cfg.downsideScenario
  {
    var scenarioPrice := price * (1.0 + cfg.downsideScenario);
    var strike := price * cfg.strikeRatio;
    assert ScenarioPayoff(price, cfg) == Instrument.Max0(strike - scenarioPrice);
    if cfg.strikeRatio > 1.0 + cfg.downsideScenario {
      RealArith.MulStrict(price, 1.0 + cfg.downsideScenario, cfg.strikeRatio);
      assert strike - scenarioPrice > 0.0;
    } else {
      RealArith.MulMonotone(price, cfg.strikeRatio, 1.0 + cfg.downsideScenario);
    }
  }

  /** The stressed equity misses the floor exactly when a drop of `downside * beta` exceeds the allowed loss (positive equity). */
  lemma HedgeNeededIff(equity: real, beta: real, cfg: LpFloorConfig)
    requires equity > 0.0
    ensures StressedEquity(equity, beta, cfg) < RequiredFloor(equity, cfg)
            <==> 1.0 + cfg.downsideScenario * beta < cfg.floorRatio
  {
    var a := 1.0 + cfg.downsideScenario * beta;
    assert StressedEquity(equity, beta, cfg) == equity * a;
    if a < cfg.floorRatio {
      RealArith.MulStrict(equity, a, cfg.floorRatio);
    } else {
      RealArith.MulMonotone(equity, cfg.floorRatio, a);
    }
  }

  // ------------------------------------------------------------- the integer optimum

  /** The smallest integer n with m <= n (ceiling). */
  function Ceiling(m: real): (n: int)
    ensures n as real >= m && (n - 1) as real < m
  {
    if m.Floor as real == m then m.Floor else m.Floor + 1
  }

  /**
   * The fewest contracts n >= 0 with equityAfterDrop + payoff * n >= floor.
   * With a positive premium this is the integer program's unique optimum.
   */
  function MinContracts(p: FloorProblem): (n: int)
    requires p.payoffPerContract > 0.0 && p.equityAfterDrop < p.requiredFloor
    ensures n >= 1
    ensures p.equityAfterDrop + p.payoffPerContract * n as real >= p.requiredFloor
    ensures p.equityAfterDrop + p.payoffPerContract * (n - 1) as real < p.requiredFloor
  {
    var gap := p.requiredFloor - p.equityAfterDrop;
    var n := Ceiling(gap / p.payoffPerContract);
    CoversGap(gap, p.payoffPerContract, n);
    n
  }

  /** Dividing out the payoff: n covers the gap iff n is at least gap / payoff. */
  lemma CoversGap(gap: real, payoff: real, n: int)
    requires payoff > 0.0 && gap > 0.0
    requires n as real >= gap / payoff && (n - 1) as real < gap / payoff
    ensures n >= 1 && payoff * n as real >= gap && payoff * (n - 1) as real < gap
  {
    var m := gap / payoff;
    assert payoff * m == gap;
    RealArith.MulMonotone(payoff, m, n as real);
    RealArith.MulStrict(payoff, (n - 1) as real, m);
  }

  /** Every quantity meeting the floor is at least MinContracts, so with premium > 0 it costs no less. */
  lemma MinContractsIsOptimal(p: FloorProblem, n: int)
    requires p.payoffPerContract > 0.0 && p.equityAfterDrop < p.requiredFloor
    requires n >= 0 && p.equityAfterDrop + p.payoffPerContract * n as real >= p.requiredFloor
    ensures n >= MinContracts(p)
    ensures p.premium > 0.0 ==> p.premium * n as real >= p.premium * MinContracts(p) as real
  {
    var k := MinContracts(p);
    assert n >= k by {
      if n < k {
        RealArith.MulMonotone(p.payoffPerContract, n as real, (k - 1) as real);
      }
    }
    if p.premium > 0.0 {
      RealArith.MulMonotone(p.premium, k as real, n as real);
    }
  }

  // ------------------------------------------------------------- Python's round

  /** Python's round() to an int: nearest integer, ties to the even neighbour. */
  function RoundHalfEven(x: real): (n: int)
    ensures (n as real - x <= 0.5) && (x - n as real <= 0.5)
    ensures n == x.Floor || n == x.Floor + 1
    ensures x - x.Floor as real == 0.5 ==> n % 2 == 0
  {
    var f := x.Floor;
    var d := x - f as real;
    if d < 0.5 then f
    else if d > 0.5 then f + 1
    else if f % 2 == 0 then f else f + 1
  }

  /** Rounding an integral value gives it back. */
  lemma RoundIntegral(n: int)
    ensures RoundHalfEven(n as real) == n
  {
  }

  // ------------------------------------------------------------- the strategy

  /**
   * lp_floor_hedge_strategy: solve for the put count and, when the solver
   * reports an optimum above 0.5, buy round(n) puts at the scenario strike
   * (margin allowed, so the purchase always succeeds).
   */
  method LpFloorHedge(p: PortfolioModel.Portfolio, price: real, date: int, cfg: LpFloorConfig,
                      solver: IpOutcome)
    modifies p`options, p`cash, p`totalTransactionCosts
    ensures var prob := FloorHedgeProblem(old(p.equityValue), p.beta, price, date, cfg);
            if prob.Some? && solver.IpOptimal? && solver.n > 0.5 then
              var o := Instrument.Put(prob.value.strike, prob.value.premium, prob.value.expiry,
                                      RoundHalfEven(solver.n));
              p.options == old(p.options) + [o]
              && p.cash == old(p.cash) - PortfolioModel.PurchaseCost(o, p.optionBidAskSpread)
              && p.totalTransactionCosts
                   == old(p.totalTransactionCosts) + PortfolioModel.SpreadCost(o, p.optionBidAskSpread)
            else
              p.options == old(p.options) && p.cash == old(p.cash)
              && p.totalTransactionCosts == old(p.totalTransactionCosts)
  {
    var prob := FloorHedgeProblem(p.equityValue, p.beta, price, date, cfg);
    if prob.None? {
      return;
    }
    if solver.IpOptimal? && solver.n > 0.5 {
      var quantity := RoundHalfEven(solver.n);
      var ok := p.BuyPut(prob.value.strike, prob.value.premium, prob.value.expiry, quantity, true);
    }
  }

  /**
   * With an exact solver the strategy buys MinContracts puts: at least one,
   * enough to restore the floor under the scenario, and no more than needed.
   */
  lemma ExactSolverBuysMinimum(equity: real, beta: real, price: real, date: int, cfg: LpFloorConfig)
    requires FloorHedgeProblem(equity, beta, price, date, cfg).Some?
    ensures var prob := FloorHedgeProblem(equity, beta, price, date, cfg).value;
            var n := RoundHalfEven(MinContracts(prob) as real);
            MinContracts(prob) as real > 0.5 && n == MinContracts(prob) && n >= 1
            && StressedEquity(equity, beta, cfg) + ScenarioPayoff(price, cfg) * n as real
               >= RequiredFloor(equity, cfg)
  {
    var prob := FloorHedgeProblem(equity, beta, price, date, cfg).value;
    RoundIntegral(MinContracts(prob));
  }
}
