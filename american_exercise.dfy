/**
 * Early-exercise rules for puts (src/options_hedge/american_exercise.py).
 * A rule that would raise in the source (division by a zero strike, or a
 * comparison with the complex square root of a negative time) returns Err.
 * The square root of the remaining time in years is a parameter.
 */
module AmericanExercise {
  import opened Wrappers
  import opened Instrument

  datatype ExerciseError = ZeroDivision | ComplexComparison

  /** The rules, each carrying only the parameters it reads. */
  datatype ExerciseRule =
    | Never
    | AtExpiryOnly
    | TimeValueThreshold(threshold: real)
    | VixRegimeShift(currentVix: real, prevVix: real, decline: real, moneyness: real)
    | Boundary(volatility: real, riskFreeRate: real, minDaysToExpiry: int, sqrtYears: real)
    | Hybrid(currentVix: real, prevVix: real, decline: real, moneyness: real,
             volatility: real, riskFreeRate: real, minDaysToExpiry: int, sqrtYears: real)

  function Intrinsic(o: Put, price: real): real
  {
    Max0(o.strike - price)
  }

  /** European behaviour: never exercise early. */
  function ShouldExerciseNever(o: Put, price: real, date: int): (r: bool)
    ensures !r
  {
    false
  }

  /** Exercise only on or after expiry and only when in the money. */
  function ShouldExerciseAtExpiryOnly(o: Put, price: real, date: int): (r: bool)
    ensures r <==> date >= o.expiry && o.strike > price
  {
    date >= o.expiry && Intrinsic(o, price) > 0.0
  }

  /** Exercise when the time value (value minus intrinsic) is below threshold x intrinsic. */
  function ShouldExerciseThreshold(o: Put, price: real, date: int, threshold: real): (r: bool)
    ensures price >= o.strike ==> !r
    ensures price < o.strike && date < o.expiry ==> (r <==> (o.quantity - 1) as real < threshold)
    ensures price < o.strike && date >= o.expiry ==> (r <==> threshold > -1.0)
  {
    var intrinsic := Intrinsic(o, price);
    if intrinsic == 0.0 then false
    else
      var timeValue := Value(o, price, date) - intrinsic;
      ThresholdHolds(intrinsic, o.quantity as real, timeValue, threshold, date < o.expiry);
      timeValue < threshold * intrinsic
  }

  /** The algebra behind the threshold rule, for a positive intrinsic value. */
  lemma ThresholdHolds(i: real, q: real, tv: real, t: real, live: bool)
    requires i > 0.0
    requires live ==> tv == i * q - i
    requires !live ==> tv == 0.0 - i
    ensures live ==> (tv < t * i <==> q - 1.0 < t)
    ensures !live ==> (tv < t * i <==> t > -1.0)
  {
    var d := if live then q - 1.0 - t else -1.0 - t;
    assert tv - t * i == d * i;
    SignOfProduct(d, i);
  }

  lemma SignOfProduct(d: real, i: real)
    requires i > 0.0
    ensures d < 0.0 <==> d * i < 0.0
  {
    if d < 0.0 {
      assert (-d) * i > 0.0;
    } else {
      assert d * i >= 0.0;
    }
  }

  /** Exercise a deep in-the-money put when VIX falls sharply from its previous level. */
  function ShouldExerciseVixRegime(o: Put, price: real, date: int, currentVix: real,
                                   prevVix: real, decline: real, moneyness: real): (r: Result<bool, ExerciseError>)
    ensures price >= o.strike ==> r == Ok(false)
    ensures r.Err? <==> price < o.strike && o.strike == 0.0
    ensures o.strike != 0.0 && prevVix <= 0.0 ==> r == Ok(false)
    ensures price < o.strike && o.strike != 0.0 && prevVix > 0.0 ==>
              r == Ok(price / o.strike < moneyness && (currentVix - prevVix) / prevVix < -decline)
  {
    if Intrinsic(o, price) == 0.0 then Ok(false)
    else if o.strike == 0.0 then Err(ZeroDivision)
    else
      var isDeepItm := price / o.strike < moneyness;
      if prevVix <= 0.0 then Ok(false)
      else
        var vixChange := (currentVix - prevVix) / prevVix;
        Ok(isDeepItm && vixChange < -decline)
  }

  /**
   * Exercise near expiry when S/K is below 0.85 - 0.10 rfr + 0.15 sqrt(T) vol;
   * `sqrtYears` stands for sqrt((expiry - date) / 365).
   */
  function ShouldExerciseOptimalBoundary(o: Put, price: real, date: int, volatility: real,
                                         riskFreeRate: real, minDaysToExpiry: int,
                                         sqrtYears: real): (r: Result<bool, ExerciseError>)
    ensures price >= o.strike ==> r == Ok(false)
    ensures o.expiry - date > minDaysToExpiry ==> r == Ok(false)
    ensures r.Err? <==> price < o.strike && o.expiry - date <= minDaysToExpiry &&
                        (o.strike == 0.0 || o.expiry - date < 0)
    ensures price < o.strike && o.strike != 0.0 && 0 <= o.expiry - date <= minDaysToExpiry ==>
              r == Ok(price / o.strike < 0.85 - 0.10 * riskFreeRate + 0.15 * sqrtYears * volatility)
  {
    if Intrinsic(o, price) == 0.0 then Ok(false)
    else
      var daysToExpiry := o.expiry - date;
      if daysToExpiry > minDaysToExpiry then Ok(false)
      else if o.strike == 0.0 then Err(ZeroDivision)
      else if daysToExpiry < 0 then Err(ComplexComparison)
      else
        var critical := (0.85 - 0.10 * riskFreeRate) + 0.15 * sqrtYears * volatility;
        Ok(price / o.strike < critical)
  }

  /** The VIX-regime rule first; the boundary rule only when that one says no. */
  function ShouldExerciseHybrid(o: Put, price: real, date: int, currentVix: real, prevVix: real,
                                decline: real, moneyness: real, volatility: real,
                                riskFreeRate: real, minDaysToExpiry: int,
                                sqrtYears: real): (r: Result<bool, ExerciseError>)
    ensures var v := ShouldExerciseVixRegime(o, price, date, currentVix, prevVix, decline, moneyness);
            (v == Ok(true) ==> r == Ok(true)) &&
            (v == Ok(false) ==> r == ShouldExerciseOptimalBoundary(o, price, date, volatility,
                                                                   riskFreeRate, minDaysToExpiry, sqrtYears)) &&
            (v.Err? ==> r.Err?)
  {
    match ShouldExerciseVixRegime(o, price, date, currentVix, prevVix, decline, moneyness)
    case Err(e) => Err(e)
    case Ok(true) => Ok(true)
    case Ok(false) =>
      ShouldExerciseOptimalBoundary(o, price, date, volatility, riskFreeRate, minDaysToExpiry, sqrtYears)
  }

  /**
   * Applying an exercise rule, the `exercise_rule` callable of the
   * portfolio: only the VIX-regime, boundary and hybrid rules can fail.
   */
  function Decide(rule: ExerciseRule, o: Put, price: real, date: int): (r: Result<bool, ExerciseError>)
    ensures rule.Never? ==> r == Ok(false)
    ensures price >= o.strike ==> r == Ok(false)
    ensures r.Err? ==> rule.VixRegimeShift? || rule.Boundary? || rule.Hybrid?
  {
    match rule
    case Never => Ok(ShouldExerciseNever(o, price, date))
    case AtExpiryOnly => Ok(ShouldExerciseAtExpiryOnly(o, price, date))
    case TimeValueThreshold(t) => Ok(ShouldExerciseThreshold(o, price, date, t))
    case VixRegimeShift(cur, prev, dec, m) => ShouldExerciseVixRegime(o, price, date, cur, prev, dec, m)
    case Boundary(vol, rfr, minDays, sq) =>
      ShouldExerciseOptimalBoundary(o, price, date, vol, rfr, minDays, sq)
    case Hybrid(cur, prev, dec, m, vol, rfr, minDays, sq) =>
      ShouldExerciseHybrid(o, price, date, cur, prev, dec, m, vol, rfr, minDays, sq)
  }

  /** With both sub-rules answering, the hybrid rule is their disjunction. */
  lemma HybridIsDisjunction(o: Put, price: real, date: int, currentVix: real, prevVix: real,
                            decline: real, moneyness: real, volatility: real,
                            riskFreeRate: real, minDaysToExpiry: int, sqrtYears: real,
                            a: bool, b: bool)
    requires ShouldExerciseVixRegime(o, price, date, currentVix, prevVix, decline, moneyness) == Ok(a)
    requires ShouldExerciseOptimalBoundary(o, price, date, volatility, riskFreeRate,
                                           minDaysToExpiry, sqrtYears) == Ok(b)
    ensures ShouldExerciseHybrid(o, price, date, currentVix, prevVix, decline, moneyness,
                                 volatility, riskFreeRate, minDaysToExpiry, sqrtYears) == Ok(a || b)
  {
  }

  /** A single contract before expiry: any positive threshold exercises any in-the-money put. */
  lemma ThresholdSingleContract(o: Put, price: real, date: int, threshold: real)
    requires o.quantity == 1 && date < o.expiry
    requires price < o.strike && threshold > 0.0
    ensures ShouldExerciseThreshold(o, price, date, threshold)
  {
  }
}
