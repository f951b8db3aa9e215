/**
 * The backtest loop (run_simulation in src/options_hedge/simulation.py):
 * for every market row, in order, move the equity by the day's return, run
 * the strategy, exercise what has expired, and record the total value.
 *
 * The strategy function is one of the strategies of this model, chosen by
 * a closed datatype, and is called with the five arguments run_simulation
 * passes.  What a strategy needs from outside the model on a
 * given day (the VIX quote, the square-root time factor, the pandas
 * volatilities, the solver's reports) is supplied per row as DayInputs.
 */
module Simulation {
  import opened Wrappers
  import opened Instrument
  import PortfolioModel
  import MarketData
  import Strategies
  import LpStrategies
  import VixLadderLp
  import LadderStrategy
  import FixedFloorLp
  import FixedFloorStrategy
  import RealArith

  /**
   * The strategy function handed to run_simulation, with its parameters.
   * LpFloor is lp_floor_hedge_strategy, which takes four parameters; FixedFloor
   * is fixed_floor_lp_strategy as written; FixedFloorCorrected is the same
   * strategy reading the solver record it expects.
   */
  datatype Strategy =
    | NoHedge
    | QuarterlyPut(quarterly: Strategies.QuarterlyConfig)
    | ConditionalPut(conditional: Strategies.ConditionalConfig)
    | LpFloor(lpFloor: LpStrategies.LpFloorConfig)
    | Ladder(ladder: LadderStrategy.LadderConfig)
    | FixedFloor(fixedFloor: FixedFloorStrategy.FixedFloorConfig)
    | FixedFloorCorrected(corrected: FixedFloorStrategy.FixedFloorConfig)

  /** One day's inputs from outside the model. */
  datatype DayInputs = DayInputs(vix: Strategies.VixQuote, timeFactor: real, recentVol: real, longTermVol: real,
                                 ladderSolver: VixLadderLp.SolverOutcome,
                                 floorSolver: FixedFloorLp.LpOutcome)

  /** The day's inputs fit the strategy: the time factor is the square root the source computes, and so on. */
  predicate Fits(s: Strategy, d: DayInputs)
  {
    match s
    case NoHedge => true
    case QuarterlyPut(cfg) => Strategies.IsTimeFactor(cfg.expiryDays, d.timeFactor)
    case ConditionalPut(cfg) => cfg.lookbackDays > 0 && Strategies.IsTimeFactor(cfg.expiryDays, d.timeFactor)
    case LpFloor(_) => true
    case Ladder(cfg) =>
      cfg.strikeDensity > 0.0 && Strategies.IsTimeFactor(cfg.expiryDays, d.timeFactor)
      && (d.ladderSolver.SolverOptimal? ==> |d.ladderSolver.x| == LadderStrategy.LevelCount(cfg.strikeDensity))
    case FixedFloor(cfg) => Strategies.IsTimeFactor(cfg.expiryDays, d.timeFactor)
    case FixedFloorCorrected(cfg) => Strategies.IsTimeFactor(cfg.expiryDays, d.timeFactor)
  }

  /**
   * Call the strategy with run_simulation's five arguments.  None when it
   * returns, or the exception it raises.  Strategies never touch the
   * history, only the VIX-ladder and corrected fixed-floor strategies move
   * equity, a raised exception leaves the holdings as they were, and the
   * no-op strategy changes nothing.  lp_floor_hedge_strategy cannot take the
   * fifth argument and raises TypeError; fixed_floor_lp_strategy as written
   * changes nothing and raises whenever a hedge is due.
   */
  method ApplyStrategy(s: Strategy, p: PortfolioModel.Portfolio, params: Strategies.StrategyParams,
                       m: MarketData.Market, price: real, date: int, d: DayInputs)
    returns (failure: Option<Strategies.StrategyError>)
    requires Fits(s, d)
    modifies p`equityValue, p`cash, p`options, p`totalTransactionCosts
    modifies params`lastAction, params`lpCost, params`lastLpHedge, params`lastFixedFloorAction
    ensures failure.Some? ==> Strategies.HoldingsOf(p) == old(Strategies.HoldingsOf(p))
    ensures !(s.Ladder? || s.FixedFloorCorrected?) ==> p.equityValue == old(p.equityValue)
    ensures s.NoHedge? ==> failure.None? && Strategies.HoldingsOf(p) == old(Strategies.HoldingsOf(p))
    ensures s.LpFloor? ==> failure == Some(Strategies.WrongArity) && Strategies.HoldingsOf(p) == old(Strategies.HoldingsOf(p))
    ensures s.FixedFloor? ==>
              Strategies.HoldingsOf(p) == old(Strategies.HoldingsOf(p))
              && params.lastFixedFloorAction == old(params.lastFixedFloorAction)
              && (failure.Some? <==> Strategies.HedgeDue(old(params.lastFixedFloorAction), date, s.fixedFloor.hedgeInterval))
  {
    match s
    case NoHedge =>
      return None;
    case QuarterlyPut(cfg) =>
      var r := Strategies.Quarterly(p, params, price, date, cfg, d.vix, d.timeFactor);
      return if r.Err? then Some(r.error) else None;
    case ConditionalPut(cfg) =>
      var r := Strategies.Conditional(p, m, price, date, cfg, d.recentVol, d.longTermVol, d.vix, d.timeFactor);
      return if r.Err? then Some(r.error) else None;
    case LpFloor(_) =>
      return Some(Strategies.WrongArity);
    case Ladder(cfg) =>
      var r := LadderStrategy.VixLadder(p, params, price, date, cfg, d.vix, d.timeFactor, d.ladderSolver);
      return if r.Err? then Some(r.error) else None;
    case FixedFloor(cfg) =>
      var r := FixedFloorStrategy.FixedFloorAsWritten(params.lastFixedFloorAction, Strategies.Value(Strategies.HoldingsOf(p)),
                                                     price, date, cfg, d.vix, d.timeFactor, d.floorSolver);
      return if r.Err? then Some(r.error) else None;
    case FixedFloorCorrected(cfg) =>
      var r := FixedFloorStrategy.FixedFloor(p, params, price, date, cfg, d.vix, d.timeFactor, d.floorSolver);
      return if r.Err? then Some(r.error) else None;
  }

  /**
   * One market row: update equity, run the strategy, exercise, record.  On
   * success exactly one row is appended, holding the total value after the
   * day's exercise, and no option expiring that day is left; an exception
   * from the strategy records nothing.
   */
  method Day(s: Strategy, p: PortfolioModel.Portfolio, params: Strategies.StrategyParams, m: MarketData.Market,
             row: MarketData.Bar, d: DayInputs) returns (failure: Option<Strategies.StrategyError>)
    requires Fits(s, d)
    modifies p`equityValue, p`cash, p`options, p`totalTransactionCosts, p`history
    modifies params`lastAction, params`lpCost, params`lastLpHedge, params`lastFixedFloorAction
    ensures failure.None? ==> p.history == old(p.history) + [PortfolioModel.HistoryRow(row.date, p.TotalValue(row.close, row.date))]
    ensures failure.None? ==> forall o :: o in p.options ==> o.expiry > row.date
    ensures failure.Some? ==> p.history == old(p.history)
    ensures s.LpFloor? ==> failure == Some(Strategies.WrongArity)
    ensures s.FixedFloor? && old(params.lastFixedFloorAction).None? ==> failure.Some?
    ensures s.NoHedge? && old(p.options) == [] ==>
              failure.None? && p.options == [] && p.cash == old(p.cash)
              && p.equityValue == old(p.equityValue) * (1.0 + row.dailyReturn * p.beta)
              && p.history == old(p.history) + [PortfolioModel.HistoryRow(row.date, p.equityValue + p.cash)]
  {
    p.UpdateEquity(row.dailyReturn);
    failure := ApplyStrategy(s, p, params, m, row.close, row.date, d);
    if failure.Some? {
      return;
    }
    ghost var before := p.options;
    p.ExerciseExpiredOptions(row.close, row.date);
    PortfolioModel.UnexpiredMembers(before, row.date);
    var total := p.TotalValue(row.close, row.date);
    p.Record(row.date, total);
  }

  /** Equity e moved by the first n rows' returns: e times the product of (1 + r_k * beta). */
  function Compounded(rows: seq<MarketData.Bar>, beta: real, e: real, n: nat): real
    requires n <= |rows|
  {
    if n == 0 then e else Compounded(rows, beta, e, n - 1) * (1.0 + rows[n - 1].dailyReturn * beta)
  }

  /** Equity that was Compounded(n) and then grew by day n's factor is Compounded(n + 1). */
  lemma CompoundedStep(rows: seq<MarketData.Bar>, beta: real, e: real, n: nat, before: real, after: real)
    requires n < |rows| && before == Compounded(rows, beta, e, n)
    requires after == before * (1.0 + rows[n].dailyReturn * beta)
    ensures after == Compounded(rows, beta, e, n + 1)
  {
  }

  /** Compounding is linear in the starting equity: e compounds to e times what one unit compounds to. */
  lemma {:induction false} CompoundedScales(rows: seq<MarketData.Bar>, beta: real, e: real, n: nat)
    requires n <= |rows|
    ensures Compounded(rows, beta, e, n) == e * Compounded(rows, beta, 1.0, n)
  {
    if n > 0 {
      CompoundedScales(rows, beta, e, n - 1);
      var f := 1.0 + rows[n - 1].dailyReturn * beta;
      assert Compounded(rows, beta, e, n) == (e * Compounded(rows, beta, 1.0, n - 1)) * f;
      assert (e * Compounded(rows, beta, 1.0, n - 1)) * f == e * (Compounded(rows, beta, 1.0, n - 1) * f);
    }
  }

  /** When every day's factor 1 + r * beta is positive, positive equity stays positive. */
  lemma {:induction false} CompoundedPositive(rows: seq<MarketData.Bar>, beta: real, e: real, n: nat)
    requires n <= |rows| && e > 0.0
    requires forall k :: 0 <= k < n ==> 1.0 + rows[k].dailyReturn * beta > 0.0
    ensures Compounded(rows, beta, e, n) > 0.0
  {
    if n > 0 {
      CompoundedPositive(rows, beta, e, n - 1);
      RealArith.MulStrict(Compounded(rows, beta, e, n - 1), 0.0, 1.0 + rows[n - 1].dailyReturn * beta);
    }
  }

  /** `hist` is `h0` followed by one row for each of the first n market rows, dated as they are. */
  predicate Follows(hist: seq<PortfolioModel.HistoryRow>, h0: seq<PortfolioModel.HistoryRow>,
                    rows: seq<MarketData.Bar>, n: nat)
  {
    n <= |rows| && |hist| == |h0| + n && hist[..|h0|] == h0
    && forall t :: |h0| <= t < |hist| ==> hist[t].date == rows[t - |h0|].date
  }

  lemma FollowsAppend(hist: seq<PortfolioModel.HistoryRow>, h0: seq<PortfolioModel.HistoryRow>,
                      rows: seq<MarketData.Bar>, n: nat, row: PortfolioModel.HistoryRow)
    requires Follows(hist, h0, rows, n) && n < |rows| && row.date == rows[n].date
    ensures Follows(hist + [row], h0, rows, n + 1)
  {
    assert (hist + [row])[..|h0|] == hist[..|h0|];
  }

  /** The row for market row t records e0 compounded over rows 0..t, plus c0, for each of the first n rows. */
  predicate CompoundedRecorded(hist: seq<PortfolioModel.HistoryRow>, h0: seq<PortfolioModel.HistoryRow>,
                           rows: seq<MarketData.Bar>, beta: real, e0: real, c0: real, n: nat)
  {
    n <= |rows| && |hist| == |h0| + n
    && forall t :: |h0| <= t < |hist| ==> hist[t].value == Compounded(rows, beta, e0, t - |h0| + 1) + c0
  }

  lemma CompoundedRecordedAppend(hist: seq<PortfolioModel.HistoryRow>, h0: seq<PortfolioModel.HistoryRow>,
                             rows: seq<MarketData.Bar>, beta: real, e0: real, c0: real, n: nat,
                             row: PortfolioModel.HistoryRow)
    requires CompoundedRecorded(hist, h0, rows, beta, e0, c0, n) && n < |rows|
    requires row.value == Compounded(rows, beta, e0, n + 1) + c0
    ensures CompoundedRecorded(hist + [row], h0, rows, beta, e0, c0, n + 1)
  {
  }

  /**
   * run_simulation.  The history is the prior history followed by one row
   * per market row, in row order, until a strategy raises (the exception
   * escapes with the rows recorded so far).  The last row holds the total
   * value after the last exercise.  With the no-op strategy and no options,
   * the row of day t records the initial equity compounded through day t, plus the cash.
   */
  method RunSimulation(m: MarketData.Market, p: PortfolioModel.Portfolio, s: Strategy,
                       params: Strategies.StrategyParams, inputs: seq<DayInputs>)
    returns (r: Result<seq<PortfolioModel.HistoryRow>, Strategies.StrategyError>)
    requires |inputs| == |m.rows| && forall t :: 0 <= t < |inputs| ==> Fits(s, inputs[t])
    modifies p`equityValue, p`cash, p`options, p`totalTransactionCosts, p`history
    modifies params`lastAction, params`lpCost, params`lastLpHedge, params`lastFixedFloorAction
    ensures |old(p.history)| <= |p.history| <= |old(p.history)| + |m.rows|
    ensures p.history[..|old(p.history)|] == old(p.history)
    ensures forall t :: |old(p.history)| <= t < |p.history| ==> p.history[t].date == m.rows[t - |old(p.history)|].date
    ensures r.Ok? <==> |p.history| == |old(p.history)| + |m.rows|
    ensures r.Ok? ==> r.value == p.history
    ensures r.Ok? && |m.rows| > 0 ==>
              var last := m.rows[|m.rows| - 1];
              p.history[|p.history| - 1].value == p.TotalValue(last.close, last.date)
              && forall o :: o in p.options ==> o.expiry > last.date
    ensures s.LpFloor? && |m.rows| > 0 ==> r == Err(Strategies.WrongArity) && p.history == old(p.history)
    ensures s.FixedFloor? && old(params.lastFixedFloorAction).None? && |m.rows| > 0 ==>
              r.Err? && p.history == old(p.history)
    ensures s.NoHedge? && old(p.options) == [] ==>
              r.Ok? && forall t :: |old(p.history)| <= t < |p.history| ==>
                p.history[t].value
                == Compounded(m.rows, p.beta, old(p.equityValue), t - |old(p.history)| + 1) + old(p.cash)
  {
    ghost var h0 := p.history;
    ghost var e0 := p.equityValue;
    ghost var c0 := p.cash;
    ghost var quiet := s.NoHedge? && p.options == [];
    var i := 0;
    assert p.history[..|h0|] == h0;
    while i < |m.rows|
      invariant 0 <= i <= |m.rows| && Follows(p.history, h0, m.rows, i)
      invariant i > 0 ==> var last := m.rows[i - 1];
                          p.history[|p.history| - 1].value == p.TotalValue(last.close, last.date)
                          && forall o :: o in p.options ==> o.expiry > last.date
      invariant s.LpFloor? || (s.FixedFloor? && old(params.lastFixedFloorAction).None?) ==> i == 0
      invariant i == 0 ==> params.lastFixedFloorAction == old(params.lastFixedFloorAction)
      invariant quiet ==> p.options == [] && p.cash == c0 && p.equityValue == Compounded(m.rows, p.beta, e0, i)
                          && CompoundedRecorded(p.history, h0, m.rows, p.beta, e0, c0, i)
    {
      ghost var before := p.history;
      ghost var equity := p.equityValue;
      var failure := Day(s, p, params, m, m.rows[i], inputs[i]);
      if failure.Some? {
        return Err(failure.value);
      }
      ghost var row := p.history[|p.history| - 1];
      FollowsAppend(before, h0, m.rows, i, row);
      if quiet {
        CompoundedStep(m.rows, p.beta, e0, i, equity, p.equityValue);
        CompoundedRecordedAppend(before, h0, m.rows, p.beta, e0, c0, i, row);
      }
      i := i + 1;
    }
    return Ok(p.history);
  }
}
