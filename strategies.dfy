/**
 * The rule-based hedging strategies (src/options_hedge/strategies.py): the
 * VIX-scaled premium heuristic, the quarterly and the conditional
 * protective-put strategies, and the pieces the optimiser-driven strategies
 * share: cash rebalancing and the purchase of a list of puts.
 *
 * The strategy's `params` dict is split in two: the keys a strategy only
 * reads become a configuration datatype with the source's defaults, and the
 * keys it writes become the fields of `StrategyParams`.  Market lookups
 * arrive as inputs: the VIX quote (`VixQuote`) and, for the conditional
 * strategy, the market's rows and the two volatility estimates.
 */
module Strategies {
  import opened Wrappers
  import opened Instrument
  import PortfolioModel
  import MarketData
  import VixLadderLp
  import RealArith

  const DefaultHedgeIntervalDays := 90
  const DefaultPutCostRatio := 0.01
  const DefaultStrikeRatio := 0.85
  const DefaultVixForPricing := 20.0
  const DefaultExpiryDays := 90
  const DefaultLookbackDays := 20
  const DefaultDropThreshold := -0.05
  const DefaultVolMultiplier := 1.5
  const AnnualTradingDays := 252
  const MinHistoricalDays := 50
  const DefaultOptionQuantity := 1

  /** The exceptions that escape a strategy call. */
  datatype StrategyError =
    | VixLookupFailed(lookupError: MarketData.MarketError)   // get_vix's ValueError is not caught
    | PremiumFailed(premiumError: PremiumError)
    | NoVixAvailable                                   // no get_vix on the market object
    | LadderFailed(ladderError: VixLadderLp.LadderError)  // an exception out of the ladder solve
    | SolutionNotSubscriptable                         // TypeError: indexing the None solution
    | WrongArity                                       // TypeError: a four-parameter strategy called with five arguments

  // ------------------------------------------------------------- premium heuristic

  /** ZeroDivisionError on a zero spot; a negative day count makes the time factor complex and max() raise TypeError. */
  datatype PremiumError = ZeroSpot | NegativeDaysToExpiry

  /** Implied volatility (VIX in percentage points) times the square-root time factor. */
  function VolTime(vix: real, timeFactor: real): real
  {
    vix / 100.0 * timeFactor
  }

  /** The premium fraction before the 0.1% floor: distance x vol x time for an OTM put, intrinsic plus time value otherwise. */
  function RawPremium(strike: real, spot: real, vix: real, timeFactor: real): real
    requires spot != 0.0
  {
    var moneyness := strike / spot;
    if moneyness < 1.0 then (1.0 - moneyness) * VolTime(vix, timeFactor) * 0.4
    else (strike - spot) / spot + VolTime(vix, timeFactor) * 0.1
  }

  /** The square root of days / 365 that the source computes with `** 0.5`, supplied by the caller. */
  predicate IsTimeFactor(daysToExpiry: int, timeFactor: real)
  {
    daysToExpiry >= 0 ==> timeFactor >= 0.0 && timeFactor * timeFactor == daysToExpiry as real / 365.0
  }

  /**
   * estimate_put_premium: the premium as a fraction of notional, floored at
   * 0.001.  Fails exactly on a zero spot or a negative day count.
   */
  function EstimatePutPremium(strike: real, spot: real, daysToExpiry: int, vix: real, timeFactor: real)
    : (r: Result<real, PremiumError>)
    requires IsTimeFactor(daysToExpiry, timeFactor)
    ensures r.Err? <==> spot == 0.0 || daysToExpiry < 0
    ensures r.Ok? ==> r.value >= 0.001
    ensures r.Ok? ==> r.value == 0.001 || r.value == RawPremium(strike, spot, vix, timeFactor)
    ensures r.Ok? && RawPremium(strike, spot, vix, timeFactor) >= 0.001 ==>
              r.value == RawPremium(strike, spot, vix, timeFactor)
  {
    if spot == 0.0 then Err(ZeroSpot)
    else if daysToExpiry < 0 then Err(NegativeDaysToExpiry)
    else
      var p := RawPremium(strike, spot, vix, timeFactor);
      Ok(if p >= 0.001 then p else 0.001)
  }

  /** For a fixed strike, spot and time, a higher VIX never lowers the estimated premium. */
  lemma PremiumNondecreasingInVix(strike: real, spot: real, daysToExpiry: int, timeFactor: real,
                                  vixLow: real, vixHigh: real)
    requires IsTimeFactor(daysToExpiry, timeFactor) && daysToExpiry >= 0 && spot != 0.0
    requires vixLow <= vixHigh
    ensures EstimatePutPremium(strike, spot, daysToExpiry, vixLow, timeFactor).value
            <= EstimatePutPremium(strike, spot, daysToExpiry, vixHigh, timeFactor).value
  {
    RawPremiumNondecreasingInVix(strike, spot, timeFactor, vixLow, vixHigh);
    var low := RawPremium(strike, spot, vixLow, timeFactor);
    var high := RawPremium(strike, spot, vixHigh, timeFactor);
    assert EstimatePutPremium(strike, spot, daysToExpiry, vixLow, timeFactor).value
           == if low >= 0.001 then low else 0.001;
    assert EstimatePutPremium(strike, spot, daysToExpiry, vixHigh, timeFactor).value
           == if high >= 0.001 then high else 0.001;
  }

  /** The unfloored premium: in both branches VIX enters only through a nonnegative multiple of VolTime. */
  lemma RawPremiumNondecreasingInVix(strike: real, spot: real, timeFactor: real, vixLow: real, vixHigh: real)
    requires spot != 0.0 && timeFactor >= 0.0 && vixLow <= vixHigh
    ensures RawPremium(strike, spot, vixLow, timeFactor) <= RawPremium(strike, spot, vixHigh, timeFactor)
  {
    var m := strike / spot;
    var lo := VolTime(vixLow, timeFactor);
    var hi := VolTime(vixHigh, timeFactor);
    RealArith.MulMonotone(timeFactor, vixLow / 100.0, vixHigh / 100.0);
    assert lo <= hi;
    if m < 1.0 {
      RealArith.MulMonotone(1.0 - m, lo, hi);
      assert RawPremium(strike, spot, vixLow, timeFactor) == (1.0 - m) * lo * 0.4;
      assert RawPremium(strike, spot, vixHigh, timeFactor) == (1.0 - m) * hi * 0.4;
    } else {
      assert RawPremium(strike, spot, vixLow, timeFactor) == (strike - spot) / spot + lo * 0.1;
      assert RawPremium(strike, spot, vixHigh, timeFactor) == (strike - spot) / spot + hi * 0.1;
    }
  }

  /**
   * An at-the-money or in-the-money put costs at least as much as an
   * out-of-the-money one no deeper than 25% below spot (positive spot and
   * VIX).  Deeper puts are not covered: see DeepOtmCostsMoreThanAtm.
   */
  lemma AtOrInTheMoneyCostsAtLeastNearOtm(otmStrike: real, itmStrike: real, spot: real, daysToExpiry: int,
                                          vix: real, timeFactor: real)
    requires IsTimeFactor(daysToExpiry, timeFactor) && daysToExpiry >= 0
    requires spot > 0.0 && vix >= 0.0
    requires 0.75 * spot <= otmStrike < spot <= itmStrike
    ensures EstimatePutPremium(otmStrike, spot, daysToExpiry, vix, timeFactor).value
            <= EstimatePutPremium(itmStrike, spot, daysToExpiry, vix, timeFactor).value
  {
    RawAtOrInTheMoneyCostsAtLeastNearOtm(otmStrike, itmStrike, spot, vix, timeFactor);
    var otm := RawPremium(otmStrike, spot, vix, timeFactor);
    var itm := RawPremium(itmStrike, spot, vix, timeFactor);
    assert EstimatePutPremium(otmStrike, spot, daysToExpiry, vix, timeFactor).value
           == if otm >= 0.001 then otm else 0.001;
    assert EstimatePutPremium(itmStrike, spot, daysToExpiry, vix, timeFactor).value
           == if itm >= 0.001 then itm else 0.001;
  }

  /** The unfloored premiums: the OTM one is at most 0.25 x 0.4 = 0.1 of VolTime, the ITM one at least that. */
  lemma RawAtOrInTheMoneyCostsAtLeastNearOtm(otmStrike: real, itmStrike: real, spot: real, vix: real,
                                             timeFactor: real)
    requires timeFactor >= 0.0 && spot > 0.0 && vix >= 0.0
    requires 0.75 * spot <= otmStrike < spot <= itmStrike
    ensures RawPremium(otmStrike, spot, vix, timeFactor) <= RawPremium(itmStrike, spot, vix, timeFactor)
  {
    var m := otmStrike / spot;
    var tv := VolTime(vix, timeFactor);
    RealArith.MulNonnegative(vix / 100.0, timeFactor);
    RatioAtLeast(otmStrike, spot, 0.75);
    RatioBelow(otmStrike, spot, 1.0);
    RealArith.MulMonotone(tv, 1.0 - m, 0.25);
    assert RawPremium(otmStrike, spot, vix, timeFactor) == (1.0 - m) * tv * 0.4;
    RatioAtLeast(itmStrike, spot, 1.0);
    RatioAtLeast(itmStrike - spot, spot, 0.0);
    assert RawPremium(itmStrike, spot, vix, timeFactor) == (itmStrike - spot) / spot + tv * 0.1;
  }

  lemma RatioAtLeast(k: real, spot: real, c: real)
    requires spot > 0.0 && k >= c * spot
    ensures k / spot >= c
  {
    assert k / spot * spot == k;
    if k / spot < c {
      RealArith.MulStrict(spot, k / spot, c);
    }
  }

  lemma RatioBelow(k: real, spot: real, c: real)
    requires spot > 0.0 && k < c * spot
    ensures k / spot < c
  {
    assert k / spot * spot == k;
    if k / spot >= c {
      RealArith.MulMonotone(spot, c, k / spot);
    }
  }

  /**
   * The heuristic does not order premiums by moneyness for deep
   * out-of-the-money puts: a put struck at half the spot is estimated at
   * twice the at-the-money premium (VIX 20, one year).
   */
  lemma DeepOtmCostsMoreThanAtm()
    ensures EstimatePutPremium(50.0, 100.0, 365, 20.0, 1.0) == Ok(0.04)
    ensures EstimatePutPremium(100.0, 100.0, 365, 20.0, 1.0) == Ok(0.02)
  {
    assert RawPremium(50.0, 100.0, 20.0, 1.0) == 0.04;
    assert RawPremium(100.0, 100.0, 20.0, 1.0) == 0.02;
  }

  // ------------------------------------------------------------- VIX for pricing

  /**
   * What `market.get_vix` yields for the pricing VIX: no such method (or a
   * caught KeyError/AttributeError), a quote, or a MarketData error, which
   * the strategies do not catch.
   */
  datatype VixQuote = NoVixSource | Quoted(level: real) | LookupFailed(error: MarketData.MarketError)

  /** The VIX the quarterly, conditional and fixed-floor strategies price with. */
  function PricingVix(q: VixQuote): (r: Result<real, StrategyError>)
    ensures r.Err? <==> q.LookupFailed?
    ensures q.NoVixSource? ==> r == Ok(DefaultVixForPricing)
    ensures q.Quoted? ==> r == Ok(q.level)
  {
    match q
    case NoVixSource => Ok(DefaultVixForPricing)
    case Quoted(v) => Ok(v)
    case LookupFailed(e) => Err(VixLookupFailed(e))
  }

  // ------------------------------------------------------------- the params memory

  /** The `params` entries the strategies write back; None is an absent key. */
  class StrategyParams {
    var lastAction: Option<int>
    var lpCost: Option<real>
    var lastLpHedge: Option<Option<int>>
    var lastFixedFloorAction: Option<int>

    constructor ()
      ensures lastAction.None? && lpCost.None? && lastLpHedge.None? && lastFixedFloorAction.None?
    {
      lastAction := None;
      lpCost := None;
      lastLpHedge := None;
      lastFixedFloorAction := None;
    }
  }

  /** No previous action, or at least `interval` days since it. */
  predicate HedgeDue(last: Option<int>, date: int, interval: int)
  {
    last.None? || date - last.value >= interval
  }

  /** Once a hedge is placed on day d, no later day inside the interval is due. */
  lemma NotDueWithinInterval(d: int, date: int, interval: int)
    requires d <= date < d + interval
    ensures !HedgeDue(Some(d), date, interval)
  {
  }

  // ------------------------------------------------------------- single protective put

  /**
   * The put the quarterly and conditional strategies buy: one contract at
   * `price * strikeRatio`, premium `equity * estimate`, expiring
   * `expiryDays` later; or the error that aborts the purchase.
   */
  function ProtectivePut(equity: real, price: real, date: int, strikeRatio: real, expiryDays: int,
                         vix: VixQuote, timeFactor: real): (r: Result<Put, StrategyError>)
    requires IsTimeFactor(expiryDays, timeFactor)
    ensures r.Err? <==> vix.LookupFailed? || price == 0.0 || expiryDays < 0
    ensures r.Ok? ==> r.value.quantity == DefaultOptionQuantity
                      && r.value.strike == price * strikeRatio
                      && r.value.expiry == date + expiryDays
                      && r.value.premium == equity * EstimatePutPremium(price * strikeRatio, price, expiryDays,
                                                                        PricingVix(vix).value, timeFactor).value
  {
    var strike := price * strikeRatio;
    match PricingVix(vix)
    case Err(e) => Err(e)
    case Ok(v) =>
      match EstimatePutPremium(strike, price, expiryDays, v, timeFactor)
      case Err(e) => Err(PremiumFailed(e))
      case Ok(pct) => Ok(Put(strike, equity * pct, date + expiryDays, DefaultOptionQuantity))
  }

  /** Every protective put costs at least 0.1% of a positive equity per contract. */
  lemma ProtectivePutPremiumFloor(equity: real, price: real, date: int, strikeRatio: real, expiryDays: int,
                                  vix: VixQuote, timeFactor: real)
    requires IsTimeFactor(expiryDays, timeFactor) && equity > 0.0
    requires ProtectivePut(equity, price, date, strikeRatio, expiryDays, vix, timeFactor).Ok?
    ensures ProtectivePut(equity, price, date, strikeRatio, expiryDays, vix, timeFactor).value.premium
            >= equity * 0.001
  {
    var pct := EstimatePutPremium(price * strikeRatio, price, expiryDays, PricingVix(vix).value, timeFactor).value;
    RealArith.MulMonotone(equity, 0.001, pct);
  }

  // ------------------------------------------------------------- quarterly

  /** The keys the quarterly strategy reads, with their defaults in DefaultQuarterly. */
  datatype QuarterlyConfig = QuarterlyConfig(hedgeInterval: int, strikeRatio: real, expiryDays: int)

  const DefaultQuarterly := QuarterlyConfig(DefaultHedgeIntervalDays, DefaultStrikeRatio, DefaultExpiryDays)

  /**
   * quarterly_protective_put_strategy: when a hedge is due, buy one
   * protective put and record the date in `last_action`; otherwise change
   * nothing.  Returns whether a put was bought.
   */
  method Quarterly(p: PortfolioModel.Portfolio, params: StrategyParams, price: real, date: int,
                   cfg: QuarterlyConfig, vix: VixQuote, timeFactor: real)
    returns (r: Result<bool, StrategyError>)
    requires IsTimeFactor(cfg.expiryDays, timeFactor)
    modifies p`options, p`cash, p`totalTransactionCosts, params`lastAction
    ensures var due := HedgeDue(old(params.lastAction), date, cfg.hedgeInterval);
            var put := ProtectivePut(old(p.equityValue), price, date, cfg.strikeRatio, cfg.expiryDays, vix, timeFactor);
            if due && put.Ok? then
              r == Ok(true)
              && p.options == old(p.options) + [put.value]
              && p.cash == old(p.cash) - PortfolioModel.PurchaseCost(put.value, p.optionBidAskSpread)
              && p.totalTransactionCosts
                   == old(p.totalTransactionCosts) + PortfolioModel.SpreadCost(put.value, p.optionBidAskSpread)
              && params.lastAction == Some(date)
            else
              r == (if due then Err(put.error) else Ok(false))
              && p.options == old(p.options) && p.cash == old(p.cash)
              && p.totalTransactionCosts == old(p.totalTransactionCosts)
              && params.lastAction == old(params.lastAction)
  {
    if !HedgeDue(params.lastAction, date, cfg.hedgeInterval) {
      return Ok(false);
    }
    var put := ProtectivePut(p.equityValue, price, date, cfg.strikeRatio, cfg.expiryDays, vix, timeFactor);
    if put.Err? {
      return Err(put.error);
    }
    var ok := p.BuyPut(put.value.strike, put.value.premium, put.value.expiry, put.value.quantity, true);
    params.lastAction := Some(date);
    return Ok(true);
  }

  // ------------------------------------------------------------- conditional

  /** The keys the conditional strategy reads, with their defaults in DefaultConditional. */
  datatype ConditionalConfig = ConditionalConfig(lookbackDays: int, dropThreshold: real, volMultiplier: real,
                                                 strikeRatio: real, expiryDays: int)

  const DefaultConditional := ConditionalConfig(DefaultLookbackDays, DefaultDropThreshold, DefaultVolMultiplier,
                                                DefaultStrikeRatio, DefaultExpiryDays)

  function DateAt(rows: seq<MarketData.Bar>, i: nat): int
    requires i < |rows|
  {
    rows[i].date
  }

  /** The frame's rows are in strictly increasing date order, as a trading-date index is. */
  predicate DatesIncreasing(rows: seq<MarketData.Bar>)
  {
    forall i: nat, j: nat :: i < j < |rows| ==> DateAt(rows, i) < DateAt(rows, j)
  }

  /** `market.data.loc[:date]`: the rows dated on or before `date`, in order (see RowsUpToComplete and RowsUpToPrefix). */
  function RowsUpTo(rows: seq<MarketData.Bar>, date: int): (r: seq<MarketData.Bar>)
    ensures |r| <= |rows|
    ensures forall i :: 0 <= i < |r| ==> r[i].date <= date && r[i] in rows
  {
    if |rows| == 0 then []
    else
      var init := RowsUpTo(rows[..|rows| - 1], date);
      var last := rows[|rows| - 1];
      init + (if last.date <= date then [last] else [])
  }

  /** RowsUpTo keeps every row dated on or before `date`, not just some. */
  lemma {:induction false} RowsUpToComplete(rows: seq<MarketData.Bar>, date: int)
    ensures forall i :: 0 <= i < |rows| && rows[i].date <= date ==> rows[i] in RowsUpTo(rows, date)
  {
    if |rows| > 0 {
      var init := rows[..|rows| - 1];
      var last := rows[|rows| - 1];
      RowsUpToComplete(init, date);
      var r := RowsUpTo(rows, date);
      assert r == RowsUpTo(init, date) + (if last.date <= date then [last] else []);
      forall i | 0 <= i < |rows| && rows[i].date <= date
        ensures rows[i] in r
      {
        if i < |rows| - 1 {
          assert init[i] == rows[i];
        } else {
          assert r[|r| - 1] == last;
        }
      }
    }
  }

  /**
   * On a date-ordered frame RowsUpTo is exactly the prefix of rows up to
   * the first one dated after `date`.
   */
  lemma {:induction false} RowsUpToPrefix(rows: seq<MarketData.Bar>, date: int)
    requires DatesIncreasing(rows)
    ensures var r := RowsUpTo(rows, date);
            r == rows[..|r|] && (|r| < |rows| ==> rows[|r|].date > date)
  {
    if |rows| > 0 {
      var init := rows[..|rows| - 1];
      IncreasingInit(rows);
      RowsUpToPrefix(init, date);
      PrefixStep(rows, RowsUpTo(init, date), date);
    }
  }

  lemma IncreasingInit(rows: seq<MarketData.Bar>)
    requires |rows| > 0 && DatesIncreasing(rows)
    ensures DatesIncreasing(rows[..|rows| - 1])
  {
    var init := rows[..|rows| - 1];
    forall i: nat, j: nat | i < j < |init|
      ensures DateAt(init, i) < DateAt(init, j)
    {
      assert DateAt(rows, i) < DateAt(rows, j);
    }
  }

  /** One step of RowsUpToPrefix: appending the last row (when due) to the prefix of the others. */
  lemma PrefixStep(rows: seq<MarketData.Bar>, ri: seq<MarketData.Bar>, date: int)
    requires |rows| > 0 && DatesIncreasing(rows)
    requires var init := rows[..|rows| - 1];
             |ri| <= |init| && ri == init[..|ri|] && (|ri| < |init| ==> init[|ri|].date > date)
    ensures var last := rows[|rows| - 1];
            var r := ri + (if last.date <= date then [last] else []);
            r == rows[..|r|] && (|r| < |rows| ==> rows[|r|].date > date)
  {
    var init := rows[..|rows| - 1];
    var last := rows[|rows| - 1];
    assert init + [last] == rows;
    assert |ri| < |init| ==> DateAt(rows, |ri|) < DateAt(rows, |rows| - 1);
    if last.date <= date {
      assert ri == init[..|init|] == init;
    } else if |ri| < |init| {
      assert rows[|ri|] == init[|ri|];
    }
  }

  /** Enough history: a full lookback window and at least 50 rows (the 252-row window holds min(n, 252)). */
  predicate EnoughHistory(n: nat, lookbackDays: int)
  {
    n >= lookbackDays && (if n < AnnualTradingDays then n else AnnualTradingDays) >= MinHistoricalDays
  }

  /** The drop over the lookback window, close_last / close_first - 1, reaches the threshold (a zero first close never triggers). */
  predicate PriceDropTrigger(upTo: seq<MarketData.Bar>, cfg: ConditionalConfig)
    requires 0 < cfg.lookbackDays <= |upTo|
  {
    var first := upTo[|upTo| - cfg.lookbackDays].close;
    var last := upTo[|upTo| - 1].close;
    first != 0.0 && last / first - 1.0 <= cfg.dropThreshold
  }

  /** Some held put is still alive after `date`. */
  predicate HasActivePut(options: seq<Put>, date: int)
  {
    exists i :: 0 <= i < |options| && options[i].expiry > date
  }

  /**
   * The conditional strategy's decision: enough history, a price-drop or a
   * volatility-spike trigger, and no put still alive.  The two standard
   * deviations are inputs.
   */
  predicate ConditionalBuys(upTo: seq<MarketData.Bar>, options: seq<Put>, date: int, cfg: ConditionalConfig,
                            recentVol: real, longTermVol: real)
    requires cfg.lookbackDays > 0
  {
    EnoughHistory(|upTo|, cfg.lookbackDays)
    && (PriceDropTrigger(upTo, cfg) || recentVol > cfg.volMultiplier * longTermVol)
    && !HasActivePut(options, date)
  }

  /** Short history, or any put still alive, means no purchase whatever the triggers say. */
  lemma ConditionalGates(upTo: seq<MarketData.Bar>, options: seq<Put>, date: int, cfg: ConditionalConfig,
                         recentVol: real, longTermVol: real)
    requires cfg.lookbackDays > 0
    ensures |upTo| < cfg.lookbackDays || |upTo| < MinHistoricalDays || HasActivePut(options, date) ==>
              !ConditionalBuys(upTo, options, date, cfg, recentVol, longTermVol)
    ensures ConditionalBuys(upTo, options, date, cfg, recentVol, longTermVol) ==>
              forall i :: 0 <= i < |options| ==> options[i].expiry <= date
  {
  }

  /**
   * conditional_hedging_strategy: buy one protective put when the decision
   * holds; otherwise change nothing.  The strategy keeps no memory in params.
   */
  method Conditional(p: PortfolioModel.Portfolio, m: MarketData.Market, price: real, date: int,
                     cfg: ConditionalConfig, recentVol: real, longTermVol: real, vix: VixQuote, timeFactor: real)
    returns (r: Result<bool, StrategyError>)
    requires cfg.lookbackDays > 0 && IsTimeFactor(cfg.expiryDays, timeFactor)
    modifies p`options, p`cash, p`totalTransactionCosts
    ensures var buys := ConditionalBuys(RowsUpTo(m.rows, date), old(p.options), date, cfg, recentVol, longTermVol);
            var put := ProtectivePut(old(p.equityValue), price, date, cfg.strikeRatio, cfg.expiryDays, vix, timeFactor);
            if buys && put.Ok? then
              r == Ok(true)
              && p.options == old(p.options) + [put.value]
              && p.cash == old(p.cash) - PortfolioModel.PurchaseCost(put.value, p.optionBidAskSpread)
              && p.totalTransactionCosts
                   == old(p.totalTransactionCosts) + PortfolioModel.SpreadCost(put.value, p.optionBidAskSpread)
            else
              r == (if buys then Err(put.error) else Ok(false))
              && p.options == old(p.options) && p.cash == old(p.cash)
              && p.totalTransactionCosts == old(p.totalTransactionCosts)
  {
    var upTo := RowsUpTo(m.rows, date);
    if !EnoughHistory(|upTo|, cfg.lookbackDays) {
      return Ok(false);
    }
    var priceDrop := PriceDropTrigger(upTo, cfg);
    var volSpike := recentVol > cfg.volMultiplier * longTermVol;
    var active := HasActivePut(p.options, date);
    if !(priceDrop || volSpike) || active {
      return Ok(false);
    }
    var put := ProtectivePut(p.equityValue, price, date, cfg.strikeRatio, cfg.expiryDays, vix, timeFactor);
    if put.Err? {
      return Err(put.error);
    }
    var ok := p.BuyPut(put.value.strike, put.value.premium, put.value.expiry, put.value.quantity, true);
    return Ok(true);
  }

  // ------------------------------------------------------------- shared by the LP strategies

  /** The equity sold before an LP purchase of `cost`: 1.01 times the cash deficit, or nothing. */
  function EquityToSell(cash: real, cost: real): (r: real)
    ensures cash < cost ==> r > cost - cash > 0.0
    ensures cash >= cost ==> r == 0.0
  {
    if cash < cost then (cost - cash) * 1.01 else 0.0
  }

  /** The purchase may go ahead: cash covers it, or there is enough equity to sell. */
  predicate CanFund(equity: real, cash: real, cost: real)
  {
    cash >= cost || equity >= EquityToSell(cash, cost)
  }

  /**
   * The cash rule before an LP purchase of `cost`: with cash short, sell
   * EquityToSell of equity if there is that much, else skip.  Returns
   * whether the purchase may go ahead; a funded purchase finds enough cash,
   * and equity plus cash never changes.
   */
  method Rebalance(p: PortfolioModel.Portfolio, cost: real) returns (funded: bool)
    modifies p`equityValue, p`cash
    ensures funded <==> CanFund(old(p.equityValue), old(p.cash), cost)
    ensures funded ==> p.equityValue == old(p.equityValue) - EquityToSell(old(p.cash), cost)
                       && p.cash == old(p.cash) + EquityToSell(old(p.cash), cost)
    ensures !funded ==> p.equityValue == old(p.equityValue) && p.cash == old(p.cash)
    ensures funded ==> p.cash >= cost
    ensures p.equityValue + p.cash == old(p.equityValue) + old(p.cash)
  {
    if p.cash < cost {
      var deficit := cost - p.cash;
      var equityToSell := deficit * 1.01;
      if p.equityValue >= equityToSell {
        p.equityValue := p.equityValue - equityToSell;
        p.cash := p.cash + equityToSell;
        return true;
      }
      return false;
    }
    return true;
  }

  /** Python's int() on a real: truncation toward zero. */
  function Trunc(x: real): (n: int)
    ensures x >= 0.0 ==> 0 <= n && n as real <= x < n as real + 1.0
    ensures x < 0.0 ==> x <= n as real <= 0.0 && n as real - 1.0 < x
  {
    if x >= 0.0 then x.Floor else -((-x).Floor)
  }

  /** Cash paid for a list of purchases, spread included. */
  function SpendOf(puts: seq<Put>, spread: real): real
  {
    if |puts| == 0 then 0.0
    else SpendOf(puts[..|puts| - 1], spread) + PortfolioModel.PurchaseCost(puts[|puts| - 1], spread)
  }

  /** Spread paid for a list of purchases. */
  function SpreadOf(puts: seq<Put>, spread: real): real
  {
    if |puts| == 0 then 0.0
    else SpreadOf(puts[..|puts| - 1], spread) + PortfolioModel.SpreadCost(puts[|puts| - 1], spread)
  }

  lemma SpendOfAppend(puts: seq<Put>, o: Put, spread: real)
    ensures SpendOf(puts + [o], spread) == SpendOf(puts, spread) + PortfolioModel.PurchaseCost(o, spread)
    ensures SpreadOf(puts + [o], spread) == SpreadOf(puts, spread) + PortfolioModel.SpreadCost(o, spread)
  {
    assert (puts + [o])[..|puts|] == puts;
  }

  /** The holdings an LP strategy changes: equity, cash, the options held and the spread paid so far. */
  datatype Holdings = Holdings(equity: real, cash: real, options: seq<Put>, transactionCosts: real)

  function HoldingsOf(p: PortfolioModel.Portfolio): Holdings
    reads p
  {
    Holdings(p.equityValue, p.cash, p.options, p.totalTransactionCosts)
  }

  /** The portfolio value the LP strategies size their purchases on: equity + cash. */
  function Value(h: Holdings): real
  {
    h.equity + h.cash
  }

  /**
   * The holdings after moving `sold` from equity to cash and then buying
   * `bought` with margin allowed: the value falls by exactly what the
   * purchases cost, and the purchases are appended after the old options.
   */
  function AfterPurchases(h: Holdings, sold: real, bought: seq<Put>, spread: real): (r: Holdings)
    ensures Value(r) == Value(h) - SpendOf(bought, spread)
    ensures r.equity == h.equity - sold
    ensures r.options == h.options + bought
    ensures r.transactionCosts == h.transactionCosts + SpreadOf(bought, spread)
  {
    Holdings(h.equity - sold, h.cash + sold - SpendOf(bought, spread), h.options + bought,
             h.transactionCosts + SpreadOf(bought, spread))
  }

  /** Buy each put in turn with margin allowed, so every purchase goes through. */
  method BuyAll(p: PortfolioModel.Portfolio, puts: seq<Put>)
    modifies p`options, p`cash, p`totalTransactionCosts
    ensures p.options == old(p.options) + puts
    ensures p.cash == old(p.cash) - SpendOf(puts, p.optionBidAskSpread)
    ensures p.totalTransactionCosts == old(p.totalTransactionCosts) + SpreadOf(puts, p.optionBidAskSpread)
  {
    var i := 0;
    while i < |puts|
      invariant 0 <= i <= |puts|
      invariant p.options == old(p.options) + puts[..i]
      invariant p.cash == old(p.cash) - SpendOf(puts[..i], p.optionBidAskSpread)
      invariant p.totalTransactionCosts == old(p.totalTransactionCosts) + SpreadOf(puts[..i], p.optionBidAskSpread)
    {
      var o := puts[i];
      assert puts[..i + 1] == puts[..i] + [o];
      assert puts[..i + 1][..i] == puts[..i];
      var ok := p.BuyPut(o.strike, o.premium, o.expiry, o.quantity, true);
      i := i + 1;
    }
    assert puts[..i] == puts;
  }

  /** With nonnegative premiums, quantities and spread, buying costs at least the premiums and never earns cash. */
  lemma {:induction false} SpendCoversPremiums(puts: seq<Put>, spread: real)
    requires spread >= 0.0
    requires forall i :: 0 <= i < |puts| ==> puts[i].premium >= 0.0 && puts[i].quantity >= 0
    ensures SpendOf(puts, spread) >= PremiumsOf(puts) >= 0.0
  {
    if |puts| > 0 {
      SpendCoversPremiums(puts[..|puts| - 1], spread);
      var o := puts[|puts| - 1];
      RealArith.MulNonnegative(o.premium, o.quantity as real);
    }
  }

  /** The base premium cost of a list of purchases. */
  function PremiumsOf(puts: seq<Put>): real
  {
    if |puts| == 0 then 0.0 else PremiumsOf(puts[..|puts| - 1]) + TotalCost(puts[|puts| - 1])
  }
}
