/**
 * The second copy of the put contract (src/options_hedge/options_instruments.py),
 * kept separate so that its agreement with Instrument is a stated fact.
 */
module OptionsInstruments {
  import Instrument

  datatype Put = Put(strike: real, premium: real, expiry: int, quantity: int)

  function Payoff(o: Put, price: real): (r: real)
    ensures price >= o.strike ==> r == 0.0
    ensures price < o.strike ==> r == (o.strike - price) * o.quantity as real
  {
    (if o.strike - price > 0.0 then o.strike - price else 0.0) * o.quantity as real
  }

  function Value(o: Put, price: real, date: int): (r: real)
    ensures date >= o.expiry ==> r == 0.0
    ensures date < o.expiry ==> r == Payoff(o, price)
  {
    if date >= o.expiry then 0.0
    else (if o.strike - price > 0.0 then o.strike - price else 0.0) * o.quantity as real
  }

  function TotalCost(o: Put): (r: real)
    ensures o.quantity == 0 ==> r == 0.0
  {
    o.premium * o.quantity as real
  }

  /** The same contract seen through the other module. */
  function AsInstrument(o: Put): (r: Instrument.Put)
    ensures r.strike == o.strike && r.premium == o.premium
    ensures r.expiry == o.expiry && r.quantity == o.quantity
  {
    Instrument.Put(o.strike, o.premium, o.expiry, o.quantity)
  }

  /** Both copies compute the same payoff, value and cost for every input. */
  lemma AgreesWithInstrument(o: Put, price: real, date: int)
    ensures Payoff(o, price) == Instrument.Payoff(AsInstrument(o), price)
    ensures Value(o, price, date) == Instrument.Value(AsInstrument(o), price, date)
    ensures TotalCost(o) == Instrument.TotalCost(AsInstrument(o))
  {
  }
}
