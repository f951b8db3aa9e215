/**
 * The fixed-floor LP strategy (fixed_floor_lp_strategy in
 * src/options_hedge/strategies.py): at most once per hedge interval, price a
 * put at each strike ratio, hand the candidates to the fixed-floor LP, and
 * buy the positions it chooses after the cash rule has found the money.
 *
 * The function as written indexes the result of solve_fixed_floor_lp, which
 * is None, so every call that gets past the interval check raises
 * (FixedFloorAsWritten); the simulation runs this version.  The corrected
 * strategy reads the record the code expects
 * (FixedFloorLp.SolveFixedFloorLpResult) and is FixedFloor, specified by
 * FixedFloorOutcome on snapshots of the state it changes; the simulation
 * offers it as a strategy of its own.
 */
module FixedFloorStrategy {
  import opened Wrappers
  import opened Instrument
  import PortfolioModel
  import Strategies
  import FixedFloorLp
  import RealArith

  /** The `params` keys the strategy reads; the defaults are DefaultFixedFloor. */
  datatype FixedFloorConfig = FixedFloorConfig(floorRatio: real, hedgeInterval: int, expiryDays: int,
                                               scenarioReturns: seq<real>, strikeRatios: seq<real>)

  /** A 20% tolerated loss, quarterly, 90-day puts, crash / mild / up scenarios and four strikes. */
  const DefaultFixedFloor := FixedFloorConfig(0.20, 90, 90, [-0.40, -0.10, 0.10], [0.50, 0.70, 0.90, 1.00])

  /** Positions at or below this many contracts are not bought. */
  const MeaningfulQuantity := 0.01

  datatype SkipReason = WithinInterval | LpNotUsable | InsufficientFunds

  /** The dict the strategy returns: a skip (total cost 0.0), or what was executed. */
  datatype FloorReport = Skipped(reason: SkipReason) | Executed(totalCost: real, optionsPurchased: nat, floorMet: bool)

  // ------------------------------------------------------------- the candidates

  /**
   * The LP's candidates, one per strike ratio: strike price * ratio and
   * premium estimate * Q.  Pricing fails as estimate_put_premium does, and
   * only when there is something to price.
   */
  function Candidates(ratios: seq<real>, price: real, q: real, vix: real, expiryDays: int, timeFactor: real)
    : (r: Result<seq<FixedFloorLp.Candidate>, Strategies.PremiumError>)
    requires Strategies.IsTimeFactor(expiryDays, timeFactor)
    ensures r.Err? <==> |ratios| > 0 && (price == 0.0 || expiryDays < 0)
    ensures r.Err? ==> r.error == (if price == 0.0 then Strategies.ZeroSpot else Strategies.NegativeDaysToExpiry)
    ensures r.Ok? ==> |r.value| == |ratios|
    ensures r.Ok? ==> forall i :: 0 <= i < |ratios| ==>
              r.value[i].strike == price * ratios[i]
              && r.value[i].premium
                 == Strategies.EstimatePutPremium(price * ratios[i], price, expiryDays, vix, timeFactor).value * q
  {
    if |ratios| == 0 then Ok([])
    else if price == 0.0 then Err(Strategies.ZeroSpot)
    else if expiryDays < 0 then Err(Strategies.NegativeDaysToExpiry)
    else
      Ok(seq(|ratios|, i requires 0 <= i < |ratios| =>
        var strike := price * ratios[i];
        FixedFloorLp.Candidate(strike, Strategies.EstimatePutPremium(strike, price, expiryDays, vix, timeFactor).value * q)))
  }

  /** Priced on a nonnegative portfolio value every premium is nonnegative, and on a positive one positive. */
  lemma CandidatePremiumsNonnegative(ratios: seq<real>, price: real, q: real, vix: real, expiryDays: int,
                                     timeFactor: real)
    requires Strategies.IsTimeFactor(expiryDays, timeFactor) && q >= 0.0
    requires Candidates(ratios, price, q, vix, expiryDays, timeFactor).Ok?
    ensures var c := Candidates(ratios, price, q, vix, expiryDays, timeFactor).value;
            forall i :: 0 <= i < |c| ==> c[i].premium >= 0.0 && (q > 0.0 ==> c[i].premium > 0.0)
  {
    var c := Candidates(ratios, price, q, vix, expiryDays, timeFactor).value;
    forall i | 0 <= i < |c|
      ensures c[i].premium >= 0.0 && (q > 0.0 ==> c[i].premium > 0.0)
    {
      var pct := Strategies.EstimatePutPremium(price * ratios[i], price, expiryDays, vix, timeFactor).value;
      RealArith.MulNonnegative(pct, q);
      if q > 0.0 {
        RealArith.MulStrict(q, 0.0, pct);
      }
    }
  }

  // ------------------------------------------------------------- as written

  /**
   * fixed_floor_lp_strategy as written.  Within the interval it skips; past
   * it, the VIX and premium errors escape as in the corrected strategy, and
   * otherwise reading "status" from the None that solve_fixed_floor_lp
   * returns raises TypeError.  So it never buys anything.
   */
  function FixedFloorAsWritten(last: Option<int>, q: real, price: real, date: int, cfg: FixedFloorConfig,
                               quote: Strategies.VixQuote, timeFactor: real, solver: FixedFloorLp.LpOutcome)
    : (r: Result<FloorReport, Strategies.StrategyError>)
    requires Strategies.IsTimeFactor(cfg.expiryDays, timeFactor)
    ensures r.Ok? <==> !Strategies.HedgeDue(last, date, cfg.hedgeInterval)
    ensures r.Ok? ==> r.value == Skipped(WithinInterval)
    ensures Strategies.HedgeDue(last, date, cfg.hedgeInterval) && !quote.LookupFailed?
            && (|cfg.strikeRatios| == 0 || (price != 0.0 && cfg.expiryDays >= 0))
            ==> r == Err(Strategies.SolutionNotSubscriptable)
  {
    if !Strategies.HedgeDue(last, date, cfg.hedgeInterval) then Ok(Skipped(WithinInterval))
    else
      var vix := Strategies.PricingVix(quote);
      if vix.Err? then Err(vix.error)
      else
        var cands := Candidates(cfg.strikeRatios, price, q, vix.value, cfg.expiryDays, timeFactor);
        if cands.Err? then Err(Strategies.PremiumFailed(cands.error))
        else
          var solution := FixedFloorLp.SolveFixedFloorLp(cands.value, q, cfg.scenarioReturns, cfg.floorRatio, solver);
          if solution.None? then Err(Strategies.SolutionNotSubscriptable)
          else assert false; Ok(Skipped(LpNotUsable))
  }

  /** The first call on the default configuration (365-day puts, so the time factor is 1) raises. */
  lemma AsWrittenFailsOnFirstCall()
    ensures FixedFloorAsWritten(None, 100000.0, 400.0, 0, DefaultFixedFloor.(expiryDays := 365),
                                Strategies.NoVixSource, 1.0, FixedFloorLp.LpEnded(2))
            == Err(Strategies.SolutionNotSubscriptable)
  {
  }

  // ------------------------------------------------------------- purchases

  /** The puts bought for the first n positions: int(x) contracts of each position above 0.01, in order. */
  function FloorPurchasesTo(cands: seq<FixedFloorLp.Candidate>, x: seq<real>, expiry: int, n: nat): (r: seq<Put>)
    requires n <= |cands| && n <= |x|
    ensures |r| <= n
  {
    if n == 0 then []
    else
      FloorPurchasesTo(cands, x, expiry, n - 1)
      + (if x[n - 1] > MeaningfulQuantity then [PurchaseFor(cands, x, expiry, n - 1)] else [])
  }

  function FloorPurchases(cands: seq<FixedFloorLp.Candidate>, x: seq<real>, expiry: int): seq<Put>
  {
    FloorPurchasesTo(cands, x, expiry, if |cands| <= |x| then |cands| else |x|)
  }

  /** The put bought for position j. */
  function PurchaseFor(cands: seq<FixedFloorLp.Candidate>, x: seq<real>, expiry: int, j: nat): Put
    requires j < |cands| && j < |x|
  {
    Put(cands[j].strike, cands[j].premium, expiry, Strategies.Trunc(x[j]))
  }

  /**
   * Exactly the meaningful positions are bought: every purchase is the put
   * of some position above 0.01, and every such position's put is bought.
   */
  lemma {:induction false} FloorPurchasesExact(cands: seq<FixedFloorLp.Candidate>, x: seq<real>, expiry: int, n: nat)
    requires n <= |cands| && n <= |x|
    ensures forall k :: 0 <= k < |FloorPurchasesTo(cands, x, expiry, n)| ==>
              exists j :: 0 <= j < n && x[j] > MeaningfulQuantity
                          && FloorPurchasesTo(cands, x, expiry, n)[k] == PurchaseFor(cands, x, expiry, j)
    ensures forall j :: 0 <= j < n && x[j] > MeaningfulQuantity ==>
              PurchaseFor(cands, x, expiry, j) in FloorPurchasesTo(cands, x, expiry, n)
  {
    if n == 0 {
      assert FloorPurchasesTo(cands, x, expiry, n) == [];
    } else {
      FloorPurchasesExact(cands, x, expiry, n - 1);
      var init := FloorPurchasesTo(cands, x, expiry, n - 1);
      var all := FloorPurchasesTo(cands, x, expiry, n);
      var last := PurchaseFor(cands, x, expiry, n - 1);
      assert all == init + (if x[n - 1] > MeaningfulQuantity then [last] else []);
      forall k | 0 <= k < |all|
        ensures exists j :: 0 <= j < n && x[j] > MeaningfulQuantity && all[k] == PurchaseFor(cands, x, expiry, j)
      {
        if k < |init| {
          assert all[k] == init[k];
          var j :| 0 <= j < n - 1 && x[j] > MeaningfulQuantity && init[k] == PurchaseFor(cands, x, expiry, j);
          assert 0 <= j < n;
        } else {
          assert x[n - 1] > MeaningfulQuantity && all[k] == last;
          assert 0 <= n - 1 < n;
        }
      }
      forall j | 0 <= j < n && x[j] > MeaningfulQuantity
        ensures PurchaseFor(cands, x, expiry, j) in all
      {
        if j < n - 1 {
          assert PurchaseFor(cands, x, expiry, j) in init;
        } else {
          assert all[|all| - 1] == last;
        }
      }
    }
  }

  /** A purchase of int(x) contracts costs at most (1 + spread) * premium * x. */
  lemma PurchaseWithinPremium(premium: real, x: real, spread: real)
    requires premium >= 0.0 && x > 0.0 && spread >= 0.0
    ensures premium * Strategies.Trunc(x) as real * (1.0 + spread) <= (1.0 + spread) * (premium * x)
  {
    var t := Strategies.Trunc(x) as real;
    RealArith.MulMonotone(premium, t, x);
    RealArith.MulMonotone(1.0 + spread, premium * t, premium * x);
  }

  /** sum over i < n of (1 + spread) * p[i] * x[i]: the LP's objective with the spread added. */
  function GrossObjectiveTo(cands: seq<FixedFloorLp.Candidate>, x: seq<real>, spread: real, n: nat): real
    requires n <= |cands| && n <= |x|
  {
    if n == 0 then 0.0
    else GrossObjectiveTo(cands, x, spread, n - 1) + (1.0 + spread) * (cands[n - 1].premium * x[n - 1])
  }

  /** Adding the spread to every term scales the objective by 1 + spread. */
  lemma {:induction false} GrossObjectiveScales(cands: seq<FixedFloorLp.Candidate>, x: seq<real>, spread: real, n: nat)
    requires n <= |cands| && n <= |x|
    ensures GrossObjectiveTo(cands, x, spread, n) == (1.0 + spread) * FixedFloorLp.ObjectiveTo(cands, x, n)
  {
    if n > 0 {
      GrossObjectiveScales(cands, x, spread, n - 1);
      RealArith.MulDistributes(1.0 + spread, FixedFloorLp.ObjectiveTo(cands, x, n - 1),
                               cands[n - 1].premium * x[n - 1]);
    }
  }

  /** Position n - 1 adds at most (1 + spread) times its premium to the spend. */
  lemma FloorStepWithinCost(cands: seq<FixedFloorLp.Candidate>, x: seq<real>, expiry: int, spread: real, n: nat)
    requires 0 < n <= |cands| && n <= |x|
    requires spread >= 0.0 && cands[n - 1].premium >= 0.0 && x[n - 1] >= 0.0
    ensures Strategies.SpendOf(FloorPurchasesTo(cands, x, expiry, n), spread)
              - Strategies.SpendOf(FloorPurchasesTo(cands, x, expiry, n - 1), spread)
            <= GrossObjectiveTo(cands, x, spread, n) - GrossObjectiveTo(cands, x, spread, n - 1)
  {
    var init := FloorPurchasesTo(cands, x, expiry, n - 1);
    var step := (1.0 + spread) * (cands[n - 1].premium * x[n - 1]);
    assert GrossObjectiveTo(cands, x, spread, n) == GrossObjectiveTo(cands, x, spread, n - 1) + step;
    if x[n - 1] > MeaningfulQuantity {
      var o := PurchaseFor(cands, x, expiry, n - 1);
      assert FloorPurchasesTo(cands, x, expiry, n) == init + [o];
      Strategies.SpendOfAppend(init, o, spread);
      PurchaseWithinPremium(o.premium, x[n - 1], spread);
    } else {
      assert FloorPurchasesTo(cands, x, expiry, n) == init;
      RealArith.MulNonnegative(cands[n - 1].premium, x[n - 1]);
      RealArith.MulNonnegative(1.0 + spread, cands[n - 1].premium * x[n - 1]);
    }
  }

  /**
   * With nonnegative premiums and positions, the purchases cost at most
   * (1 + spread) times the LP's objective: the LP prices without the
   * spread, and int() only rounds positions down.
   */
  lemma {:induction false} FloorSpendWithinGross(cands: seq<FixedFloorLp.Candidate>, x: seq<real>, expiry: int,
                                                 spread: real, n: nat)
    requires n <= |cands| && n <= |x| && spread >= 0.0
    requires forall j :: 0 <= j < |cands| ==> cands[j].premium >= 0.0
    requires FixedFloorLp.Nonnegative(x)
    ensures Strategies.SpendOf(FloorPurchasesTo(cands, x, expiry, n), spread) <= GrossObjectiveTo(cands, x, spread, n)
  {
    if n > 0 {
      FloorSpendWithinGross(cands, x, expiry, spread, n - 1);
      FloorStepWithinCost(cands, x, expiry, spread, n);
    } else {
      assert FloorPurchasesTo(cands, x, expiry, n) == [];
    }
  }

  // ------------------------------------------------------------- the strategy

  /** What the strategy changes: the portfolio's holdings and `last_fixed_floor_action`. */
  datatype Books = Books(holdings: Strategies.Holdings, lastAction: Option<int>)

  function BooksOf(p: PortfolioModel.Portfolio, params: Strategies.StrategyParams): Books
    reads p, params
  {
    Books(Strategies.HoldingsOf(p), params.lastFixedFloorAction)
  }

  /** The candidates priced on portfolio value q and the solver's record for them. */
  datatype FloorPlan = FloorPlan(candidates: seq<FixedFloorLp.Candidate>, solution: FixedFloorLp.FloorSolution)

  function PlanFloor(q: real, price: real, vix: real, cfg: FixedFloorConfig, timeFactor: real,
                     solver: FixedFloorLp.LpOutcome): Result<FloorPlan, Strategies.PremiumError>
    requires Strategies.IsTimeFactor(cfg.expiryDays, timeFactor)
  {
    var cands := Candidates(cfg.strikeRatios, price, q, vix, cfg.expiryDays, timeFactor);
    if cands.Err? then Err(cands.error)
    else Ok(FloorPlan(cands.value,
                      FixedFloorLp.SolveFixedFloorLpResult(cands.value, q, cfg.scenarioReturns, cfg.floorRatio, solver)))
  }

  /** The solve is acted on: an optimal status and a total cost other than 0. */
  predicate Usable(s: FixedFloorLp.FloorSolution)
  {
    s.optimal && s.totalCost != 0.0
  }

  /**
   * The report and the books after a due hedge acts on `plan`: an unusable
   * solve or an unfundable cost skips and changes nothing; otherwise the
   * cash rule sells equity, the meaningful positions are bought (the value
   * falls by what they cost), and the date is recorded.
   */
  function Acted(b: Books, plan: FloorPlan, date: int, expiryDays: int, spread: real): (r: (FloorReport, Books))
    ensures !Usable(plan.solution) ==> r == (Skipped(LpNotUsable), b)
    ensures Usable(plan.solution) && !Strategies.CanFund(b.holdings.equity, b.holdings.cash, plan.solution.totalCost)
            ==> r == (Skipped(InsufficientFunds), b)
    ensures Usable(plan.solution) && Strategies.CanFund(b.holdings.equity, b.holdings.cash, plan.solution.totalCost)
            ==> var bought := FloorPurchases(plan.candidates, plan.solution.quantities, date + expiryDays);
                r.0 == Executed(plan.solution.totalCost, |bought|, plan.solution.floorMet)
                && r.1.lastAction == Some(date)
                && r.1.holdings.options == b.holdings.options + bought
                && Strategies.Value(r.1.holdings) == Strategies.Value(b.holdings) - Strategies.SpendOf(bought, spread)
                && r.1.holdings.cash
                   == b.holdings.cash + Strategies.EquityToSell(b.holdings.cash, plan.solution.totalCost)
                      - Strategies.SpendOf(bought, spread)
  {
    var cost := plan.solution.totalCost;
    if !Usable(plan.solution) then (Skipped(LpNotUsable), b)
    else if !Strategies.CanFund(b.holdings.equity, b.holdings.cash, cost) then (Skipped(InsufficientFunds), b)
    else
      var bought := FloorPurchases(plan.candidates, plan.solution.quantities, date + expiryDays);
      (Executed(cost, |bought|, plan.solution.floorMet),
       Books(Strategies.AfterPurchases(b.holdings, Strategies.EquityToSell(b.holdings.cash, cost), bought, spread),
             Some(date)))
  }

  /**
   * fixed_floor_lp_strategy with the solve's record: skip within the
   * interval; the VIX and premium errors escape and change nothing; then
   * Acted on the plan priced on Q = equity + cash.  Only an execution
   * changes the books, and it records the date.
   */
  function FixedFloorOutcome(b: Books, price: real, date: int, cfg: FixedFloorConfig, quote: Strategies.VixQuote,
                             timeFactor: real, solver: FixedFloorLp.LpOutcome, spread: real)
    : (r: (Result<FloorReport, Strategies.StrategyError>, Books))
    requires Strategies.IsTimeFactor(cfg.expiryDays, timeFactor)
    ensures !Strategies.HedgeDue(b.lastAction, date, cfg.hedgeInterval) ==> r == (Ok(Skipped(WithinInterval)), b)
    ensures r.0.Err? <==> Strategies.HedgeDue(b.lastAction, date, cfg.hedgeInterval)
                          && (quote.LookupFailed?
                              || (|cfg.strikeRatios| > 0 && (price == 0.0 || cfg.expiryDays < 0)))
    ensures !(r.0.Ok? && r.0.value.Executed?) ==> r.1 == b
    ensures r.0.Ok? && r.0.value.Executed? ==>
              Strategies.HedgeDue(b.lastAction, date, cfg.hedgeInterval) && r.1.lastAction == Some(date)
              && r.0.value.totalCost != 0.0
  {
    if !Strategies.HedgeDue(b.lastAction, date, cfg.hedgeInterval) then (Ok(Skipped(WithinInterval)), b)
    else
      var vix := Strategies.PricingVix(quote);
      if vix.Err? then (Err(vix.error), b)
      else
        var plan := PlanFloor(Strategies.Value(b.holdings), price, vix.value, cfg, timeFactor, solver);
        if plan.Err? then (Err(Strategies.PremiumFailed(plan.error)), b)
        else
          var acted := Acted(b, plan.value, date, cfg.expiryDays, spread);
          (Ok(acted.0), acted.1)
  }

  /**
   * The correction changes nothing but the crash: wherever the code as
   * written raises on the None solution, the corrected strategy returns a
   * report, and everywhere else the two return the same.
   */
  lemma CorrectedOnlyReplacesTheCrash(b: Books, price: real, date: int, cfg: FixedFloorConfig,
                                      quote: Strategies.VixQuote, timeFactor: real,
                                      solver: FixedFloorLp.LpOutcome, spread: real)
    requires Strategies.IsTimeFactor(cfg.expiryDays, timeFactor)
    ensures var asWritten := FixedFloorAsWritten(b.lastAction, Strategies.Value(b.holdings), price, date, cfg,
                                                 quote, timeFactor, solver);
            var corrected := FixedFloorOutcome(b, price, date, cfg, quote, timeFactor, solver, spread).0;
            if asWritten == Err(Strategies.SolutionNotSubscriptable) then corrected.Ok? else corrected == asWritten
  {
  }

  /** After an execution on day d, every call within the interval skips and changes nothing. */
  lemma NoRehedgeWithinInterval(b: Books, price: real, date: int, later: int, cfg: FixedFloorConfig,
                                quote: Strategies.VixQuote, timeFactor: real,
                                solver: FixedFloorLp.LpOutcome, solver2: FixedFloorLp.LpOutcome, spread: real)
    requires Strategies.IsTimeFactor(cfg.expiryDays, timeFactor)
    requires var r := FixedFloorOutcome(b, price, date, cfg, quote, timeFactor, solver, spread);
             r.0.Ok? && r.0.value.Executed?
    requires date <= later < date + cfg.hedgeInterval
    ensures var after := FixedFloorOutcome(b, price, date, cfg, quote, timeFactor, solver, spread).1;
            FixedFloorOutcome(after, price, later, cfg, quote, timeFactor, solver2, spread) == (Ok(Skipped(WithinInterval)), after)
  {
    Strategies.NotDueWithinInterval(date, later, cfg.hedgeInterval);
  }

  /**
   * A funded execution overdraws cash by at most the spread on the LP's
   * cost, whatever positions the solver reports (nonnegative premiums and
   * positions): the cash rule leaves at least the cost in cash and the
   * purchases cost at most (1 + spread) times it.
   */
  lemma FundedFloorCashBound(b: Books, plan: FloorPlan, date: int, expiryDays: int, spread: real)
    requires Usable(plan.solution) && Strategies.CanFund(b.holdings.equity, b.holdings.cash, plan.solution.totalCost)
    requires |plan.solution.quantities| == |plan.candidates|
    requires plan.solution.totalCost == FixedFloorLp.Objective(plan.candidates, plan.solution.quantities)
    requires spread >= 0.0 && FixedFloorLp.Nonnegative(plan.solution.quantities)
    requires forall j :: 0 <= j < |plan.candidates| ==> plan.candidates[j].premium >= 0.0
    ensures Acted(b, plan, date, expiryDays, spread).1.holdings.cash >= 0.0 - spread * plan.solution.totalCost
  {
    var cost := plan.solution.totalCost;
    var cands := plan.candidates;
    var x := plan.solution.quantities;
    var cash := b.holdings.cash;
    var sold := Strategies.EquityToSell(cash, cost);
    var spend := Strategies.SpendOf(FloorPurchases(cands, x, date + expiryDays), spread);
    assert spend <= (1.0 + spread) * cost by {
      FloorSpendWithinGross(cands, x, date + expiryDays, spread, |cands|);
      GrossObjectiveScales(cands, x, spread, |cands|);
    }
    assert Acted(b, plan, date, expiryDays, spread).1.holdings.cash == cash + sold - spend;
    OverdraftWithinSpread(cash + sold, spend, cost, spread);
  }

  /** Funds of at least the cost, less a spend of at most (1 + spread) times it, leave at least -spread * cost. */
  lemma OverdraftWithinSpread(funds: real, spend: real, cost: real, spread: real)
    requires funds >= cost && spend <= (1.0 + spread) * cost
    ensures funds - spend >= 0.0 - spread * cost
  {
    RealArith.MulDistributes(cost, 1.0, spread);
  }

  /** The solver's report is an optimum of the fixed-floor LP for these candidates. */
  ghost predicate ExactOptimum(cands: seq<FixedFloorLp.Candidate>, q: real, scenarioReturns: seq<real>, maxLoss: real,
                         solver: FixedFloorLp.LpOutcome)
  {
    var v := FixedFloorLp.ScenarioValues(q, scenarioReturns);
    var m := FixedFloorLp.PayoffMatrix(cands, v);
    var f := FixedFloorLp.FloorValue(q, maxLoss);
    solver.LpOptimal? && |solver.x| == |cands| && FixedFloorLp.Feasible(v, f, m, solver.x, solver.z)
    && forall x, z :: FixedFloorLp.Feasible(v, f, m, x, z) ==>
         FixedFloorLp.Objective(cands, solver.x) <= FixedFloorLp.Objective(cands, x)
  }

  /**
   * Because the LP charges nothing for the shortfall slack, an exact solver
   * on a nonnegative portfolio value always reports a total cost of 0, so
   * the corrected strategy never buys: every due call skips (or raises) and
   * the books never change.
   */
  lemma ExactLpNeverHedges(b: Books, price: real, date: int, cfg: FixedFloorConfig, quote: Strategies.VixQuote,
                           timeFactor: real, solver: FixedFloorLp.LpOutcome, spread: real)
    requires Strategies.IsTimeFactor(cfg.expiryDays, timeFactor) && Strategies.Value(b.holdings) >= 0.0
    requires quote.Quoted? || quote.NoVixSource?
    requires var c := Candidates(cfg.strikeRatios, price, Strategies.Value(b.holdings),
                                 Strategies.PricingVix(quote).value, cfg.expiryDays, timeFactor);
             c.Ok? ==> ExactOptimum(c.value, Strategies.Value(b.holdings), cfg.scenarioReturns, cfg.floorRatio, solver)
    ensures var r := FixedFloorOutcome(b, price, date, cfg, quote, timeFactor, solver, spread);
            r.1 == b && (r.0.Ok? ==> r.0.value.Skipped?)
  {
    var q := Strategies.Value(b.holdings);
    var vix := Strategies.PricingVix(quote).value;
    var c := Candidates(cfg.strikeRatios, price, q, vix, cfg.expiryDays, timeFactor);
    if Strategies.HedgeDue(b.lastAction, date, cfg.hedgeInterval) && c.Ok? {
      CandidatePremiumsNonnegative(cfg.strikeRatios, price, q, vix, cfg.expiryDays, timeFactor);
      var v := FixedFloorLp.ScenarioValues(q, cfg.scenarioReturns);
      var m := FixedFloorLp.PayoffMatrix(c.value, v);
      var f := FixedFloorLp.FloorValue(q, cfg.floorRatio);
      var zeros := FixedFloorLp.Zeros(|m|);
      FixedFloorLp.EveryNonnegativePositionIsFeasible(v, f, m, zeros);
      FixedFloorLp.OptimalSolveCostsNothing(c.value, q, cfg.scenarioReturns, cfg.floorRatio, solver.x, solver.z);
    }
  }

  // ------------------------------------------------------------- the imperative strategy

  /**
   * The purchase loop: buy int(x) contracts of every position above 0.01
   * (margin allowed, so each purchase goes through) and count them.
   */
  method BuyMeaningful(p: PortfolioModel.Portfolio, cands: seq<FixedFloorLp.Candidate>, x: seq<real>, expiry: int)
    returns (purchased: nat)
    modifies p`options, p`cash, p`totalTransactionCosts
    ensures var bought := FloorPurchases(cands, x, expiry);
            p.options == old(p.options) + bought
            && p.cash == old(p.cash) - Strategies.SpendOf(bought, p.optionBidAskSpread)
            && p.totalTransactionCosts == old(p.totalTransactionCosts) + Strategies.SpreadOf(bought, p.optionBidAskSpread)
            && purchased == |bought|
  {
    var n := if |cands| <= |x| then |cands| else |x|;
    var i := 0;
    purchased := 0;
    ghost var bought: seq<Put> := [];
    while i < n
      invariant 0 <= i <= n && bought == FloorPurchasesTo(cands, x, expiry, i)
      invariant p.options == old(p.options) + bought
      invariant p.cash == old(p.cash) - Strategies.SpendOf(bought, p.optionBidAskSpread)
      invariant p.totalTransactionCosts == old(p.totalTransactionCosts) + Strategies.SpreadOf(bought, p.optionBidAskSpread)
      invariant purchased == |bought|
    {
      if x[i] > MeaningfulQuantity {
        var o := PurchaseFor(cands, x, expiry, i);
        Strategies.SpendOfAppend(bought, o, p.optionBidAskSpread);
        var ok := p.BuyPut(o.strike, o.premium, o.expiry, o.quantity, true);
        purchased := purchased + 1;
        bought := bought + [o];
      }
      i := i + 1;
    }
  }

  /** Act on a due hedge's plan: check the solve, run the cash rule, buy, and record the date. */
  method ExecuteFloor(p: PortfolioModel.Portfolio, params: Strategies.StrategyParams, plan: FloorPlan,
                      date: int, expiryDays: int) returns (report: FloorReport)
    modifies p`equityValue, p`cash, p`options, p`totalTransactionCosts, params`lastFixedFloorAction
    ensures (report, BooksOf(p, params))
            == Acted(old(BooksOf(p, params)), plan, date, expiryDays, p.optionBidAskSpread)
  {
    var totalCost := plan.solution.totalCost;
    if !plan.solution.optimal || totalCost == 0.0 {
      return Skipped(LpNotUsable);
    }
    var funded := Strategies.Rebalance(p, totalCost);
    if !funded {
      return Skipped(InsufficientFunds);
    }
    var purchased := BuyMeaningful(p, plan.candidates, plan.solution.quantities, date + expiryDays);
    params.lastFixedFloorAction := Some(date);
    return Executed(totalCost, purchased, plan.solution.floorMet);
  }

  /** fixed_floor_lp_strategy with the solve's record in place of None: FixedFloorOutcome. */
  method FixedFloor(p: PortfolioModel.Portfolio, params: Strategies.StrategyParams, price: real, date: int,
                    cfg: FixedFloorConfig, quote: Strategies.VixQuote, timeFactor: real,
                    solver: FixedFloorLp.LpOutcome)
    returns (r: Result<FloorReport, Strategies.StrategyError>)
    requires Strategies.IsTimeFactor(cfg.expiryDays, timeFactor)
    modifies p`equityValue, p`cash, p`options, p`totalTransactionCosts, params`lastFixedFloorAction
    ensures (r, BooksOf(p, params))
            == FixedFloorOutcome(old(BooksOf(p, params)), price, date, cfg, quote, timeFactor, solver,
                                 p.optionBidAskSpread)
  {
    if !Strategies.HedgeDue(params.lastFixedFloorAction, date, cfg.hedgeInterval) {
      return Ok(Skipped(WithinInterval));
    }
    var vix := Strategies.PricingVix(quote);
    if vix.Err? {
      return Err(vix.error);
    }
    var plan := PlanFloor(Strategies.Value(Strategies.HoldingsOf(p)), price, vix.value, cfg, timeFactor, solver);
    if plan.Err? {
      return Err(Strategies.PremiumFailed(plan.error));
    }
    var report := ExecuteFloor(p, params, plan.value, date, cfg.expiryDays);
    return Ok(report);
  }
}
