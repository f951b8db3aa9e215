/**
 * Put contracts valued at intrinsic value only (src/options_hedge/option.py).
 * Prices and money are exact reals; dates are day numbers.
 */
module Instrument {
  import RealArith

  /** A put contract: strike, premium per contract, expiry day, signed quantity. */
  datatype Put = Put(strike: real, premium: real, expiry: int, quantity: int)

  /** max(x, 0.0). */
  function Max0(x: real): (r: real)
    ensures r >= 0.0 && r >= x
    ensures r == x || r == 0.0
  {
    if x > 0.0 then x else 0.0
  }

  /** Intrinsic payoff of the put at the given underlying price. */
  function Payoff(o: Put, price: real): (r: real)
    ensures price >= o.strike ==> r == 0.0
    ensures price < o.strike ==> r == (o.strike - price) * o.quantity as real
    ensures o.quantity >= 0 ==> r >= 0.0
  {
    Max0(o.strike - price) * o.quantity as real
  }

  /** Value on a date: zero on or after expiry, the intrinsic payoff before. */
  function Value(o: Put, price: real, date: int): (r: real)
    ensures date >= o.expiry ==> r == 0.0
    ensures date < o.expiry ==> r == Payoff(o, price)
  {
    if date >= o.expiry then 0.0 else Max0(o.strike - price) * o.quantity as real
  }

  /** Premium paid for the whole position, before any spread. */
  function TotalCost(o: Put): (r: real)
    ensures o.quantity == 0 || o.premium == 0.0 ==> r == 0.0
    ensures o.premium >= 0.0 && o.quantity >= 0 ==> r >= 0.0
  {
    o.premium * o.quantity as real
  }

  /** One more contract costs exactly one more premium. */
  lemma TotalCostPerContract(o: Put)
    ensures TotalCost(o.(quantity := o.quantity + 1)) == TotalCost(o) + o.premium
  {
  }

  /** For a long position the payoff never rises when the underlying rises. */
  lemma PayoffNonIncreasing(o: Put, lo: real, hi: real)
    requires o.quantity >= 0
    requires lo <= hi
    ensures Payoff(o, hi) <= Payoff(o, lo)
  {
    RealArith.MulMonotone(o.quantity as real, Max0(o.strike - hi), Max0(o.strike - lo));
  }

  /** Payoff scales linearly with the number of contracts. */
  lemma PayoffLinearInQuantity(o: Put, price: real, n: int)
    ensures Payoff(o.(quantity := n), price) == Payoff(o.(quantity := 1), price) * n as real
  {
  }
}
