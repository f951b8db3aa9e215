/**
 * The fixed-floor portfolio-insurance LP (src/options_hedge/fixed_floor_lp.py).
 * Candidates i (strike K[i], premium p[i]) and scenarios s (return r[s])
 * give scenario values V[s] = Q(1 + r[s]), a floor F = Q(1 - L) and the
 * payoff matrix Payoff[i][s] = max(0, K[i] - V[s]); the LP
 *
 *   minimise  sum_i p[i] x[i]
 *   s.t.      V[s] + sum_i Payoff[i][s] x[i] + z[s] >= F   for every s
 *             x >= 0, z >= 0
 *
 * charges nothing for the shortfall slack z.  The solver run is an input
 * (`LpOutcome`); the source function itself returns None on every path.
 */
module FixedFloorLp {
  import opened Wrappers
  import Instrument
  import RealArith

  /** A candidate put of the LP: its strike K[i] and premium p[i]. */
  datatype Candidate = Candidate(strike: real, premium: real)

  /** What the external solver reports: an optimal (x, z), or another status code. */
  datatype LpOutcome = LpOptimal(x: seq<real>, z: seq<real>) | LpEnded(status: int)

  /** The record the fixed-floor strategy reads from the solve. */
  datatype FloorSolution = FloorSolution(optimal: bool, totalCost: real, quantities: seq<real>, floorMet: bool)

  // ------------------------------------------------------------- derived inputs

  /** V[s] = Q (1 + r[s]). */
  function ScenarioValues(q: real, scenarioReturns: seq<real>): (v: seq<real>)
    ensures |v| == |scenarioReturns|
  {
    seq(|scenarioReturns|, s requires 0 <= s < |scenarioReturns| => q * (1.0 + scenarioReturns[s]))
  }

  /** F = Q (1 - L). */
  function FloorValue(q: real, maxLoss: real): real
  {
    q * (1.0 - maxLoss)
  }

  /** Payoff[i][s] = max(0, K[i] - V[s]). */
  function PayoffMatrix(cands: seq<Candidate>, v: seq<real>): (m: seq<seq<real>>)
    ensures |m| == |cands| && forall i :: 0 <= i < |m| ==> |m[i]| == |v|
    ensures forall i, s :: 0 <= i < |m| && 0 <= s < |v| ==> m[i][s] >= 0.0
    ensures forall i, s :: 0 <= i < |m| && 0 <= s < |v| && cands[i].strike <= v[s] ==> m[i][s] == 0.0
    ensures forall i, s :: 0 <= i < |m| && 0 <= s < |v| && cands[i].strike > v[s] ==>
              m[i][s] == cands[i].strike - v[s]
  {
    seq(|cands|, i requires 0 <= i < |cands| =>
      seq(|v|, s requires 0 <= s < |v| => Instrument.Max0(cands[i].strike - v[s])))
  }

  /** Rows of m all have |v| entries. */
  predicate Shaped(m: seq<seq<real>>, width: nat)
  {
    forall i :: 0 <= i < |m| ==> |m[i]| == width
  }

  // ------------------------------------------------------------- the LP

  /** sum over i < n of Payoff[i][s] x[i]: what the first n candidates pay in scenario s. */
  function ProtectionTo(m: seq<seq<real>>, x: seq<real>, s: nat, n: nat): real
    requires n <= |m| && n <= |x| && forall i :: 0 <= i < n ==> s < |m[i]|
  {
    if n == 0 then 0.0 else ProtectionTo(m, x, s, n - 1) + m[n - 1][s] * x[n - 1]
  }

  function Protection(m: seq<seq<real>>, x: seq<real>, s: nat): real
    requires |x| == |m| && forall i :: 0 <= i < |m| ==> s < |m[i]|
  {
    ProtectionTo(m, x, s, |m|)
  }

  /** sum over i < n of p[i] x[i]. */
  function ObjectiveTo(cands: seq<Candidate>, x: seq<real>, n: nat): real
    requires n <= |cands| && n <= |x|
  {
    if n == 0 then 0.0 else ObjectiveTo(cands, x, n - 1) + cands[n - 1].premium * x[n - 1]
  }

  /** Total premium of the positions x. */
  function Objective(cands: seq<Candidate>, x: seq<real>): real
    requires |x| == |cands|
  {
    ObjectiveTo(cands, x, |cands|)
  }

  predicate Nonnegative(x: seq<real>)
  {
    forall i :: 0 <= i < |x| ==> x[i] >= 0.0
  }

  /** (x, z) satisfies the bounds and every scenario's downside-protection constraint. */
  predicate Feasible(v: seq<real>, f: real, m: seq<seq<real>>, x: seq<real>, z: seq<real>)
    requires Shaped(m, |v|)
  {
    |x| == |m| && |z| == |v| && Nonnegative(x) && Nonnegative(z)
    && forall s :: 0 <= s < |v| ==> v[s] + Protection(m, x, s) + z[s] >= f
  }

  /** The smallest slack scenario s needs once x is fixed: max(0, F - V[s] - protection). */
  function Shortfall(v: seq<real>, f: real, m: seq<seq<real>>, x: seq<real>): (z: seq<real>)
    requires Shaped(m, |v|) && |x| == |m|
    ensures |z| == |v|
  {
    seq(|v|, s requires 0 <= s < |v| => Instrument.Max0(f - v[s] - Protection(m, x, s)))
  }

  function Zeros(n: nat): (r: seq<real>)
    ensures |r| == n && Nonnegative(r)
  {
    seq(n, i => 0.0)
  }

  // ------------------------------------------------------------- the solve

  /**
   * solve_fixed_floor_lp as written: it builds and solves the LP, prints
   * the result, and returns None whatever the solver reports.
   */
  function SolveFixedFloorLp(cands: seq<Candidate>, q: real, scenarioReturns: seq<real>, maxLoss: real,
                             outcome: LpOutcome): (r: Option<FloorSolution>)
    ensures r.None?
  {
    None
  }

  /**
   * The record the fixed-floor strategy expects back: status, total premium
   * of the solver's positions, the positions, and whether the floor holds in
   * every scenario with the options alone (no shortfall).
   */
  function SolveFixedFloorLpResult(cands: seq<Candidate>, q: real, scenarioReturns: seq<real>, maxLoss: real,
                                   outcome: LpOutcome): (r: FloorSolution)
    ensures r.optimal <==> outcome.LpOptimal? && |outcome.x| == |cands|
    ensures r.optimal ==> r.quantities == outcome.x
                          && r.totalCost == Objective(cands, outcome.x)
                          && (r.floorMet <==>
                                var v := ScenarioValues(q, scenarioReturns);
                                forall s :: 0 <= s < |v| ==>
                                  v[s] + Protection(PayoffMatrix(cands, v), outcome.x, s) >= FloorValue(q, maxLoss))
    ensures !r.optimal ==> r.totalCost == 0.0 && !r.floorMet
  {
    var v := ScenarioValues(q, scenarioReturns);
    if outcome.LpOptimal? && |outcome.x| == |cands| then
      var m := PayoffMatrix(cands, v);
      var f := FloorValue(q, maxLoss);
      FloorSolution(true, Objective(cands, outcome.x), outcome.x,
                    forall s :: 0 <= s < |v| ==> v[s] + Protection(m, outcome.x, s) >= f)
    else
      FloorSolution(false, 0.0, [], false)
  }

  // ------------------------------------------------------------- properties

  /** A scenario ends below today's value exactly when its return is negative. */
  lemma ScenarioLossIffNegativeReturn(q: real, scenarioReturns: seq<real>, s: nat)
    requires q > 0.0 && s < |scenarioReturns|
    ensures ScenarioValues(q, scenarioReturns)[s] < q <==> scenarioReturns[s] < 0.0
  {
    var v := ScenarioValues(q, scenarioReturns);
    assert v[s] == q + q * scenarioReturns[s];
    RealArith.ScaleSign(q, scenarioReturns[s]);
  }

  /** The floor sits below today's value exactly when the tolerated loss is positive. */
  lemma FloorBelowValueIffLossAllowed(q: real, maxLoss: real)
    requires q > 0.0
    ensures FloorValue(q, maxLoss) < q <==> maxLoss > 0.0
  {
    assert FloorValue(q, maxLoss) == q - q * maxLoss;
    RealArith.ScaleSign(q, 0.0 - maxLoss);
  }

  /** Nonnegative premiums make every nonnegative position cost at least nothing. */
  lemma {:induction false} ObjectiveNonnegative(cands: seq<Candidate>, x: seq<real>, n: nat)
    requires n <= |cands| && n <= |x| && Nonnegative(x)
    requires forall i :: 0 <= i < |cands| ==> cands[i].premium >= 0.0
    ensures ObjectiveTo(cands, x, n) >= 0.0
  {
    if n > 0 {
      ObjectiveNonnegative(cands, x, n - 1);
      RealArith.MulNonnegative(cands[n - 1].premium, x[n - 1]);
    }
  }

  /** Holding nothing pays nothing in any scenario. */
  lemma {:induction false} NoPositionsNoProtection(m: seq<seq<real>>, x: seq<real>, s: nat, n: nat)
    requires n <= |m| && n <= |x| && forall i :: 0 <= i < n ==> s < |m[i]|
    requires forall i :: 0 <= i < n ==> x[i] == 0.0
    ensures ProtectionTo(m, x, s, n) == 0.0
  {
    if n > 0 {
      NoPositionsNoProtection(m, x, s, n - 1);
    }
  }

  /** Holding nothing costs nothing. */
  lemma {:induction false} NoPositionsNoCost(cands: seq<Candidate>, x: seq<real>, n: nat)
    requires n <= |cands| && n <= |x|
    requires forall i :: 0 <= i < n ==> x[i] == 0.0
    ensures ObjectiveTo(cands, x, n) == 0.0
  {
    if n > 0 {
      NoPositionsNoCost(cands, x, n - 1);
    }
  }

  /** Any nonnegative positions, completed with their shortfalls, satisfy every constraint. */
  lemma EveryNonnegativePositionIsFeasible(v: seq<real>, f: real, m: seq<seq<real>>, x: seq<real>)
    requires Shaped(m, |v|) && |x| == |m| && Nonnegative(x)
    ensures Feasible(v, f, m, x, Shortfall(v, f, m, x))
  {
    var z := Shortfall(v, f, m, x);
    forall s | 0 <= s < |v|
      ensures v[s] + Protection(m, x, s) + z[s] >= f
    {
      assert z[s] == Instrument.Max0(f - v[s] - Protection(m, x, s));
    }
  }

  /** The shortfall is the least slack that makes x feasible. */
  lemma ShortfallIsLeastSlack(v: seq<real>, f: real, m: seq<seq<real>>, x: seq<real>, z: seq<real>)
    requires Shaped(m, |v|) && Feasible(v, f, m, x, z)
    ensures forall s :: 0 <= s < |v| ==> Shortfall(v, f, m, x)[s] <= z[s]
  {
    var w := Shortfall(v, f, m, x);
    forall s | 0 <= s < |v|
      ensures w[s] <= z[s]
    {
      assert w[s] == Instrument.Max0(f - v[s] - Protection(m, x, s));
    }
  }

  /**
   * Because the slack is free, buying nothing is optimal: it is feasible,
   * costs 0, and with nonnegative premiums no feasible point costs less.
   */
  lemma BuyingNothingIsOptimal(cands: seq<Candidate>, v: seq<real>, f: real, m: seq<seq<real>>)
    requires Shaped(m, |v|) && |m| == |cands|
    requires forall i :: 0 <= i < |cands| ==> cands[i].premium >= 0.0
    ensures Feasible(v, f, m, Zeros(|m|), Shortfall(v, f, m, Zeros(|m|)))
    ensures Objective(cands, Zeros(|m|)) == 0.0
    ensures forall x, z :: Feasible(v, f, m, x, z) ==> Objective(cands, x) >= Objective(cands, Zeros(|m|))
  {
    EveryNonnegativePositionIsFeasible(v, f, m, Zeros(|m|));
    NoPositionsNoCost(cands, Zeros(|m|), |m|);
    forall x, z | Feasible(v, f, m, x, z)
      ensures Objective(cands, x) >= 0.0
    {
      ObjectiveNonnegative(cands, x, |cands|);
    }
  }

  /** Hence an optimal solve with nonnegative premiums reports a total cost of exactly 0. */
  lemma OptimalSolveCostsNothing(cands: seq<Candidate>, q: real, scenarioReturns: seq<real>, maxLoss: real,
                                 x: seq<real>, z: seq<real>)
    requires forall i :: 0 <= i < |cands| ==> cands[i].premium >= 0.0
    requires var v := ScenarioValues(q, scenarioReturns);
             Feasible(v, FloorValue(q, maxLoss), PayoffMatrix(cands, v), x, z)
    requires |x| == |cands| && Objective(cands, x) <= Objective(cands, Zeros(|cands|))
    ensures SolveFixedFloorLpResult(cands, q, scenarioReturns, maxLoss, LpOptimal(x, z)).totalCost == 0.0
  {
    var v := ScenarioValues(q, scenarioReturns);
    var m := PayoffMatrix(cands, v);
    BuyingNothingIsOptimal(cands, v, FloorValue(q, maxLoss), m);
  }

  // ------------------------------------------------------------- the penalised form

  /** sum over k < n of z[k]. */
  function SumTo(z: seq<real>, n: nat): real
    requires n <= |z|
  {
    if n == 0 then 0.0 else SumTo(z, n - 1) + z[n - 1]
  }

  function Total(z: seq<real>): real
  {
    SumTo(z, |z|)
  }

  /**
   * The objective the shortfall slack evidently calls for: premiums plus
   * the total shortfall, so that an uncovered scenario costs as much as the
   * protection it lacks.
   */
  function PenalizedCost(cands: seq<Candidate>, x: seq<real>, z: seq<real>): real
    requires |x| == |cands|
  {
    Objective(cands, x) + Total(z)
  }

  /** (x, z) is feasible and no feasible point has a lower penalised cost. */
  ghost predicate PenalizedOptimum(cands: seq<Candidate>, v: seq<real>, f: real, m: seq<seq<real>>, x: seq<real>, z: seq<real>)
    requires Shaped(m, |v|) && |m| == |cands|
  {
    Feasible(v, f, m, x, z)
    && forall x2, z2 :: Feasible(v, f, m, x2, z2) ==> PenalizedCost(cands, x, z) <= PenalizedCost(cands, x2, z2)
  }

  /** d units of candidate i and nothing else. */
  function Single(n: nat, i: nat, d: real): (x: seq<real>)
    ensures |x| == n && forall j :: 0 <= j < n ==> x[j] == if j == i then d else 0.0
  {
    seq(n, j => if j == i then d else 0.0)
  }

  /** A single position pays its own payoff only. */
  lemma {:induction false} SingleProtection(m: seq<seq<real>>, i: nat, d: real, s: nat, n: nat)
    requires n <= |m| && forall k :: 0 <= k < n ==> s < |m[k]|
    ensures ProtectionTo(m, Single(|m|, i, d), s, n) == if i < n then m[i][s] * d else 0.0
  {
    if n > 0 {
      SingleProtection(m, i, d, s, n - 1);
    }
  }

  /** A single position costs its own premium only. */
  lemma {:induction false} SingleCost(cands: seq<Candidate>, i: nat, d: real, n: nat)
    requires n <= |cands|
    ensures ObjectiveTo(cands, Single(|cands|, i, d), n) == if i < n then cands[i].premium * d else 0.0
  {
    if n > 0 {
      SingleCost(cands, i, d, n - 1);
    }
  }

  /** Pointwise smaller entries give a smaller sum, smaller by at least g when one entry is g below. */
  lemma {:induction false} SumGap(a: seq<real>, b: seq<real>, n: nat, k0: nat, g: real)
    requires n <= |a| == |b| && forall k :: 0 <= k < n ==> a[k] <= b[k]
    requires k0 < |a| && g >= 0.0 && a[k0] + g <= b[k0]
    ensures SumTo(a, n) + (if k0 < n then g else 0.0) <= SumTo(b, n)
  {
    if n > 0 {
      SumGap(a, b, n - 1, k0, g);
    }
  }

  /** A nonnegative protection never raises the shortfall. */
  lemma ShortfallBelowUnprotected(v: seq<real>, f: real, m: seq<seq<real>>, x: seq<real>)
    requires Shaped(m, |v|) && |x| == |m|
    requires forall s :: 0 <= s < |v| ==> Protection(m, x, s) >= 0.0
    ensures forall s :: 0 <= s < |v| ==> Shortfall(v, f, m, x)[s] <= Shortfall(v, f, m, Zeros(|m|))[s]
  {
    forall s | 0 <= s < |v|
      ensures Shortfall(v, f, m, x)[s] <= Shortfall(v, f, m, Zeros(|m|))[s]
    {
      NoPositionsNoProtection(m, Zeros(|m|), s, |m|);
    }
  }

  /** Enough of put i to lift scenario s0 exactly to the floor. */
  function Closing(m: seq<seq<real>>, v: seq<real>, f: real, i: nat, s0: nat): (x: seq<real>)
    requires i < |m| && s0 < |m[i]| && s0 < |v| && m[i][s0] > 0.0
    ensures |x| == |m|
  {
    Single(|m|, i, (f - v[s0]) / m[i][s0])
  }

  /**
   * The closing position is feasible with its shortfalls, and those
   * shortfalls total at least the gap F - V[s0] less than buying nothing.
   */
  lemma ClosingShortfall(v: seq<real>, f: real, m: seq<seq<real>>, i: nat, s0: nat)
    requires Shaped(m, |v|) && forall k, s :: 0 <= k < |m| && 0 <= s < |v| ==> m[k][s] >= 0.0
    requires i < |m| && s0 < |v| && v[s0] < f && m[i][s0] > 0.0
    ensures var x := Closing(m, v, f, i, s0);
            Feasible(v, f, m, x, Shortfall(v, f, m, x))
            && Total(Shortfall(v, f, m, x)) + (f - v[s0]) <= Total(Shortfall(v, f, m, Zeros(|m|)))
  {
    var gap := f - v[s0];
    var d := gap / m[i][s0];
    assert d * m[i][s0] == gap;
    RealArith.MulNonnegative(gap, 1.0 / m[i][s0]);
    var x := Closing(m, v, f, i, s0);
    var zx := Shortfall(v, f, m, x);
    var z00 := Shortfall(v, f, m, Zeros(|m|));
    forall s | 0 <= s < |v|
      ensures Protection(m, x, s) == m[i][s] * d >= 0.0
    {
      SingleProtection(m, i, d, s, |m|);
      RealArith.MulNonnegative(m[i][s], d);
    }
    EveryNonnegativePositionIsFeasible(v, f, m, x);
    ShortfallBelowUnprotected(v, f, m, x);
    NoPositionsNoProtection(m, Zeros(|m|), s0, |m|);
    assert zx[s0] == 0.0 && z00[s0] == gap;
    SumGap(zx, z00, |v|, s0, gap);
  }

  /** The closing position costs less than the gap it closes when the put pays more than its premium. */
  lemma ClosingCost(cands: seq<Candidate>, v: seq<real>, f: real, m: seq<seq<real>>, i: nat, s0: nat)
    requires Shaped(m, |v|) && |m| == |cands|
    requires i < |m| && s0 < |v| && v[s0] < f && 0.0 <= cands[i].premium < m[i][s0]
    ensures Objective(cands, Closing(m, v, f, i, s0)) < f - v[s0]
  {
    var d := (f - v[s0]) / m[i][s0];
    assert d * m[i][s0] == f - v[s0];
    RealArith.MulNonnegative(f - v[s0], 1.0 / m[i][s0]);
    SingleCost(cands, i, d, |cands|);
    RealArith.MulStrict(d, cands[i].premium, m[i][s0]);
  }

  /**
   * Under the penalised objective buying nothing is no longer optimal once
   * some put pays more than its premium in a scenario that misses the
   * floor: just enough of that put to close the scenario's gap beats every
   * feasible point without options.
   */
  lemma PenalizedLpHedges(cands: seq<Candidate>, v: seq<real>, f: real, m: seq<seq<real>>, i: nat, s0: nat)
    requires Shaped(m, |v|) && |m| == |cands|
    requires forall k, s :: 0 <= k < |m| && 0 <= s < |v| ==> m[k][s] >= 0.0
    requires i < |cands| && s0 < |v| && v[s0] < f && 0.0 <= cands[i].premium < m[i][s0]
    ensures var x := Closing(m, v, f, i, s0);
            Feasible(v, f, m, x, Shortfall(v, f, m, x))
            && forall z0 :: Feasible(v, f, m, Zeros(|m|), z0) ==>
                 PenalizedCost(cands, x, Shortfall(v, f, m, x)) < PenalizedCost(cands, Zeros(|m|), z0)
  {
    var zeros := Zeros(|m|);
    ClosingShortfall(v, f, m, i, s0);
    ClosingCost(cands, v, f, m, i, s0);
    NoPositionsNoCost(cands, zeros, |cands|);
    forall z0 | Feasible(v, f, m, zeros, z0)
      ensures Total(Shortfall(v, f, m, zeros)) <= Total(z0)
    {
      ShortfallIsLeastSlack(v, f, m, zeros, z0);
      SumGap(Shortfall(v, f, m, zeros), z0, |v|, 0, 0.0);
    }
  }

  /** With positive premiums, positions that cost nothing hold nothing. */
  lemma {:induction false} FreePositionsAreEmpty(cands: seq<Candidate>, x: seq<real>, n: nat)
    requires n <= |cands| && n <= |x| && Nonnegative(x)
    requires forall k :: 0 <= k < |cands| ==> cands[k].premium > 0.0
    requires ObjectiveTo(cands, x, n) <= 0.0
    ensures forall k :: 0 <= k < n ==> x[k] == 0.0
  {
    if n > 0 {
      ObjectiveNonnegative(cands, x, n - 1);
      RealArith.MulNonnegative(cands[n - 1].premium, x[n - 1]);
      FreePositionsAreEmpty(cands, x, n - 1);
    }
  }

  /**
   * With positive premiums and a put that pays more than its premium in a
   * scenario below the floor, a penalised optimum buys something: the
   * record the strategy reads reports a positive total cost.
   */
  lemma PenalizedOptimumCostsSomething(cands: seq<Candidate>, q: real, scenarioReturns: seq<real>, maxLoss: real,
                                       x: seq<real>, z: seq<real>, i: nat, s0: nat)
    requires forall k :: 0 <= k < |cands| ==> cands[k].premium > 0.0
    requires var v := ScenarioValues(q, scenarioReturns);
             var m := PayoffMatrix(cands, v);
             PenalizedOptimum(cands, v, FloorValue(q, maxLoss), m, x, z)
             && i < |cands| && s0 < |v| && v[s0] < FloorValue(q, maxLoss) && cands[i].premium < m[i][s0]
    ensures SolveFixedFloorLpResult(cands, q, scenarioReturns, maxLoss, LpOptimal(x, z)).totalCost > 0.0
  {
    var v := ScenarioValues(q, scenarioReturns);
    var m := PayoffMatrix(cands, v);
    var f := FloorValue(q, maxLoss);
    ObjectiveNonnegative(cands, x, |cands|);
    if Objective(cands, x) <= 0.0 {
      FreePositionsAreEmpty(cands, x, |cands|);
      assert x == Zeros(|m|);
      PenalizedLpHedges(cands, v, f, m, i, s0);
      assert false;
    }
  }
}
