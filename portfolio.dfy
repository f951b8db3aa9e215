/**
 * The portfolio (src/options_hedge/portfolio.py): an equity sleeve that
 * moves with beta times the index return, a cash balance, the put
 * positions and the recorded value history.  Dates are day numbers.
 */
module PortfolioModel {
  import opened Instrument
  import opened AmericanExercise

  /** One recorded {Date, Value} entry. */
  datatype HistoryRow = HistoryRow(date: int, value: real)

  /** Sum of the option values, in list order. */
  function OptionsValue(os: seq<Put>, price: real, date: int): real
  {
    if |os| == 0 then 0.0
    else OptionsValue(os[..|os| - 1], price, date) + Value(os[|os| - 1], price, date)
  }

  /** The options still alive on `date`. */
  function Unexpired(os: seq<Put>, date: int): seq<Put>
  {
    if |os| == 0 then []
    else
      var last := os[|os| - 1];
      Unexpired(os[..|os| - 1], date) + (if last.expiry > date then [last] else [])
  }

  /** The options that have reached expiry on `date`, in list order. */
  function Expired(os: seq<Put>, date: int): seq<Put>
  {
    if |os| == 0 then []
    else
      var last := os[|os| - 1];
      Expired(os[..|os| - 1], date) + (if last.expiry <= date then [last] else [])
  }

  /** Cash realized by exercising the expired options: only positive payoffs are paid. */
  function RealizedPayoff(os: seq<Put>, price: real, date: int): real
  {
    if |os| == 0 then 0.0
    else
      var last := os[|os| - 1];
      RealizedPayoff(os[..|os| - 1], price, date)
        + (if last.expiry <= date && Payoff(last, price) > 0.0 then Payoff(last, price) else 0.0)
  }

  /** The elements of `os` not equal to any element of `removed`. */
  function Without(os: seq<Put>, removed: seq<Put>): seq<Put>
  {
    if |os| == 0 then []
    else
      var last := os[|os| - 1];
      Without(os[..|os| - 1], removed) + (if last !in removed then [last] else [])
  }

  /** Cost of a purchase: the base premium cost plus the bid-ask spread on it. */
  function SpreadCost(o: Put, spread: real): real
  {
    TotalCost(o) * spread
  }

  function PurchaseCost(o: Put, spread: real): (r: real)
    ensures r == o.premium * o.quantity as real * (1.0 + spread)
    ensures o.premium >= 0.0 && o.quantity >= 0 && spread >= 0.0 ==> r >= TotalCost(o) >= 0.0
  {
    var base := TotalCost(o);
    assert base * (1.0 + spread) == base + base * spread;
    base + SpreadCost(o, spread)
  }

  class Portfolio {
    const initialValue: real
    const beta: real
    const optionBidAskSpread: real
    const equityTransactionCost: real
    const marginRate: real
    var equityValue: real
    var cash: real
    var options: seq<Put>
    var history: seq<HistoryRow>
    var totalTransactionCosts: real

    /** A new portfolio: all of `initialValue` in equity, no options, no history. */
    constructor (initialValue: real, beta: real, cash: real, optionBidAskSpread: real,
                 equityTransactionCost: real, marginRate: real)
      ensures this.initialValue == initialValue && this.beta == beta
      ensures this.optionBidAskSpread == optionBidAskSpread
      ensures this.equityTransactionCost == equityTransactionCost && this.marginRate == marginRate
      ensures equityValue == initialValue && this.cash == cash
      ensures options == [] && history == [] && totalTransactionCosts == 0.0
    {
      this.initialValue := initialValue;
      this.beta := beta;
      this.optionBidAskSpread := optionBidAskSpread;
      this.equityTransactionCost := equityTransactionCost;
      this.marginRate := marginRate;
      this.equityValue := initialValue;
      this.cash := cash;
      this.options := [];
      this.history := [];
      this.totalTransactionCosts := 0.0;
    }

    /**
     * Buy `quantity` puts paying premium plus spread from cash.  Returns
     * false, changing nothing, where the source raises ValueError: margin
     * not allowed and cash below the total cost.
     */
    method BuyPut(strike: real, premium: real, expiry: int, quantity: int, allowMargin: bool)
      returns (ok: bool)
      modifies this`options, this`cash, this`totalTransactionCosts
      ensures var o := Put(strike, premium, expiry, quantity);
              ok <==> allowMargin || old(cash) >= PurchaseCost(o, optionBidAskSpread)
      ensures var o := Put(strike, premium, expiry, quantity);
              ok ==> options == old(options) + [o]
                     && cash == old(cash) - PurchaseCost(o, optionBidAskSpread)
                     && totalTransactionCosts == old(totalTransactionCosts) + SpreadCost(o, optionBidAskSpread)
      ensures !ok ==> options == old(options) && cash == old(cash)
                      && totalTransactionCosts == old(totalTransactionCosts)
    {
      var opt := Put(strike, premium, expiry, quantity);
      var baseCost := TotalCost(opt);
      var transactionCost := baseCost * optionBidAskSpread;
      var totalCost := baseCost + transactionCost;
      if !allowMargin && cash < totalCost {
        return false;
      }
      options := options + [opt];
      cash := cash - totalCost;
      totalTransactionCosts := totalTransactionCosts + transactionCost;
      ok := true;
    }

    /** Equity moves by beta times the daily index return. */
    method UpdateEquity(dailyReturn: real)
      modifies this`equityValue
      ensures equityValue == old(equityValue) * (1.0 + dailyReturn * beta)
    {
      equityValue := equityValue * (1.0 + dailyReturn * beta);
    }

    /** Equity plus cash plus the value of every held option. */
    function TotalValue(price: real, date: int): (r: real)
      reads this
      ensures r == equityValue + cash + OptionsValue(options, price, date)
      ensures options == [] ==> r == equityValue + cash
    {
      equityValue + cash + OptionsValue(options, price, date)
    }

    /**
     * Pay out every expired in-the-money put and drop every expired put.
     * The portfolio's total value grows by exactly the realized payoff.
     */
    method ExerciseExpiredOptions(price: real, date: int)
      modifies this`cash, this`options
      ensures options == Unexpired(old(options), date)
      ensures cash == old(cash) + RealizedPayoff(old(options), price, date)
      ensures TotalValue(price, date) == old(TotalValue(price, date)) + RealizedPayoff(old(options), price, date)
    {
      var expired: seq<Put> := [];
      var i := 0;
      while i < |options|
        invariant 0 <= i <= |options|
        invariant options == old(options)
        invariant expired == Expired(options[..i], date)
        invariant cash == old(cash) + RealizedPayoff(options[..i], price, date)
      {
        var opt := options[i];
        assert options[..i + 1] == options[..i] + [opt];
        assert options[..i + 1][..i] == options[..i];
        if date >= opt.expiry {
          var payoff := Payoff(opt, price);
          if payoff > 0.0 {
            cash := cash + payoff;
          }
          expired := expired + [opt];
        }
        i := i + 1;
      }
      assert options[..i] == options;
      ExpiredMembers(options, date);
      WithoutExpiredIsUnexpired(options, expired, date);
      ExpiredHoldNoValue(options, price, date);
      options := Without(options, expired);
    }

    /** Early exercise is disabled: whatever the rule, no option is exercised. */
    method CheckEarlyExercise(price: real, date: int, rule: ExerciseRule) returns (exercised: int)
      ensures exercised == 0
    {
      exercised := 0;
    }

    /** Append the day's value to the history. */
    method Record(date: int, totalValue: real)
      modifies this`history
      ensures history == old(history) + [HistoryRow(date, totalValue)]
    {
      history := history + [HistoryRow(date, totalValue)];
    }
  }

  /** Unexpired keeps exactly the options whose expiry is after `date`. */
  lemma {:induction false} UnexpiredMembers(os: seq<Put>, date: int)
    ensures forall o :: o in Unexpired(os, date) <==> o in os && o.expiry > date
  {
    if |os| > 0 {
      var init := os[..|os| - 1];
      UnexpiredMembers(init, date);
      assert os == init + [os[|os| - 1]];
    }
  }

  /** Expired collects exactly the options whose expiry is on or before `date`. */
  lemma {:induction false} ExpiredMembers(os: seq<Put>, date: int)
    ensures forall o :: o in Expired(os, date) <==> o in os && o.expiry <= date
  {
    if |os| > 0 {
      var init := os[..|os| - 1];
      ExpiredMembers(init, date);
      assert os == init + [os[|os| - 1]];
    }
  }

  /**
   * Removing every element equal to an expired one leaves exactly the
   * unexpired ones (equal options share an expiry).
   */
  lemma {:induction false} WithoutExpiredIsUnexpired(os: seq<Put>, removed: seq<Put>, date: int)
    requires forall e :: e in removed ==> e.expiry <= date
    requires forall o :: o in os && o.expiry <= date ==> o in removed
    ensures Without(os, removed) == Unexpired(os, date)
  {
    if |os| > 0 {
      var init := os[..|os| - 1];
      var last := os[|os| - 1];
      assert forall o :: o in init ==> o in os;
      WithoutExpiredIsUnexpired(init, removed, date);
      assert last in os;
      assert last in removed <==> last.expiry <= date;
    }
  }

  /** Expired options are worth nothing, so dropping them keeps the options' value. */
  lemma {:induction false} ExpiredHoldNoValue(os: seq<Put>, price: real, date: int)
    ensures OptionsValue(Unexpired(os, date), price, date) == OptionsValue(os, price, date)
  {
    if |os| > 0 {
      var init := os[..|os| - 1];
      var last := os[|os| - 1];
      ExpiredHoldNoValue(init, price, date);
      assert os == init + [last];
      assert OptionsValue(os, price, date) == OptionsValue(init, price, date) + Value(last, price, date);
      if last.expiry > date {
        BoughtOptionAddsItsValue(Unexpired(init, date), last, price, date);
      } else {
        assert Unexpired(os, date) == Unexpired(init, date);
      }
    }
  }

  /** A second exercise on the same day finds nothing to do. */
  lemma {:induction false} ExerciseIdempotent(os: seq<Put>, price: real, date: int)
    ensures Unexpired(Unexpired(os, date), date) == Unexpired(os, date)
    ensures RealizedPayoff(Unexpired(os, date), price, date) == 0.0
  {
    UnexpiredMembers(os, date);
    NothingExpiredNoOp(Unexpired(os, date), price, date);
  }

  /** Exercising never takes cash away. */
  lemma {:induction false} RealizedPayoffNonnegative(os: seq<Put>, price: real, date: int)
    ensures RealizedPayoff(os, price, date) >= 0.0
  {
    if |os| > 0 {
      RealizedPayoffNonnegative(os[..|os| - 1], price, date);
    }
  }

  /** When every expired put is out of the money, exercising pays nothing. */
  lemma {:induction false} OutOfTheMoneyPaysNothing(os: seq<Put>, price: real, date: int)
    requires forall o :: o in os && o.expiry <= date ==> o.strike <= price
    ensures RealizedPayoff(os, price, date) == 0.0
  {
    if |os| > 0 {
      var init := os[..|os| - 1];
      assert forall o :: o in init ==> o in os;
      OutOfTheMoneyPaysNothing(init, price, date);
    }
  }

  /** With nothing expired, exercising is a no-op. */
  lemma {:induction false} NothingExpiredNoOp(os: seq<Put>, price: real, date: int)
    requires forall o :: o in os ==> o.expiry > date
    ensures Unexpired(os, date) == os
    ensures RealizedPayoff(os, price, date) == 0.0
  {
    if |os| > 0 {
      var init := os[..|os| - 1];
      var last := os[|os| - 1];
      assert forall o :: o in init ==> o in os;
      assert last in os;
      NothingExpiredNoOp(init, price, date);
      assert init + [last] == os;
    }
  }

  /** Buying an option adds its value to the options' total. */
  lemma BoughtOptionAddsItsValue(os: seq<Put>, o: Put, price: real, date: int)
    ensures OptionsValue(os + [o], price, date) == OptionsValue(os, price, date) + Value(o, price, date)
  {
    assert (os + [o])[..|os|] == os;
  }

  /** The documented example: 10 per contract, 5% spread, one contract costs 10.5. */
  lemma PurchaseCostExample()
    ensures PurchaseCost(Put(90.0, 10.0, 30, 1), 0.05) == 10.5
    ensures SpreadCost(Put(90.0, 10.0, 30, 1), 0.05) == 0.5
  {
  }
}
