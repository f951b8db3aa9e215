/**
 * The VIX-responsive ladder optimiser (src/options_hedge/vix_floor_lp.py):
 * a budget that scales with VIX and beta, four fixed out-of-the-money rungs
 * with a minimum spend each, and the greedy fallback used when the external
 * LP solver is unavailable or reports a non-optimal status.  The solver
 * itself is an input (`SolverOutcome`); Python exceptions are `Err`.
 */
module VixLadderLp {
  import opened Wrappers

  datatype PutCandidate = PutCandidate(strike: real, premium: real, expiryYears: real)

  /** A ladder allocation entry: a bare fraction, or a tuple/list whose third field is the fraction. */
  datatype AllocationItem = Fraction(frac: real) | Tuple(fields: seq<real>)

  /** The exceptions that escape solve_vix_ladder_lp; only ImportError is caught around the solver. */
  datatype LadderError = IndexError | ZeroDivision | GurobiError

  /**
   * What the external LP solver does: not importable (caught), raises a
   * GurobiError when the model is built (not caught, e.g. no licence),
   * optimal with values, or another status.
   */
  datatype SolverOutcome = SolverUnavailable | SolverFailed | SolverOptimal(x: seq<real>) | SolverNotOptimal

  /** (quantities, total cost, budget allocated) */
  datatype LadderSolution = LadderSolution(quantities: seq<real>, totalCost: real, budget: real)

  const DefaultAllocations: seq<AllocationItem> :=
    [Tuple([0.05, 0.15, 0.05]), Tuple([0.15, 0.25, 0.15]),
     Tuple([0.25, 0.40, 0.30]), Tuple([0.40, 1.0, 0.50])]

  /** Rung k covers out-of-the-money fractions in [RungLow[k], RungHigh[k]). */
  const RungLow: seq<real> := [0.05, 0.15, 0.25, 0.40]
  const RungHigh: seq<real> := [0.15, 0.25, 0.40, 1.0]

  // ---------------------------------------------------------------- parsing

  function FractionOf(item: AllocationItem): Option<real>
  {
    match item
    case Fraction(f) => Some(f)
    case Tuple(fs) => if |fs| >= 3 then Some(fs[2]) else None
  }

  /** The budget fractions of the allocation list; IndexError on a tuple shorter than three. */
  function Fractions(items: seq<AllocationItem>): (r: Result<seq<real>, LadderError>)
    ensures r.Ok? <==> forall i :: 0 <= i < |items| ==> FractionOf(items[i]).Some?
    ensures r.Err? ==> r.error == IndexError
    ensures r.Ok? ==> |r.value| == |items|
                      && forall i :: 0 <= i < |items| ==> r.value[i] == FractionOf(items[i]).value
  {
    if |items| == 0 then Ok([])
    else
      var init := items[..|items| - 1];
      assert forall i :: 0 <= i < |init| ==> init[i] == items[i];
      match Fractions(init)
      case Err(e) => Err(e)
      case Ok(fs) =>
        match FractionOf(items[|items| - 1])
        case None => Err(IndexError)
        case Some(f) => Ok(fs + [f])
  }

  method ParseFractions(items: seq<AllocationItem>) returns (r: Result<seq<real>, LadderError>)
    ensures r == Fractions(items)
  {
    var fracs: seq<real> := [];
    for i := 0 to |items|
      invariant Fractions(items[..i]) == Ok(fracs)
    {
      assert items[..i + 1][..i] == items[..i];
      match items[i]
      case Tuple(fs) =>
        if |fs| < 3 {
          return Err(IndexError);
        }
        fracs := fracs + [fs[2]];
      case Fraction(f) =>
        fracs := fracs + [f];
    }
    assert items[..|items|] == items;
    r := Ok(fracs);
  }

  // ----------------------------------------------------------------- budget

  function Max(a: real, b: real): real
  {
    if a >= b then a else b
  }

  /** 1% of the portfolio at VIX 20 and beta 1, scaled by vix/20 and by max(1, beta). */
  function Budget(v0: real, vix: real, beta: real): real
  {
    v0 * 0.01 * (vix / 20.0) * Max(1.0, beta)
  }

  /** Per-unit cost of each candidate including transaction costs. */
  function Costs(options: seq<PutCandidate>, transactionCostRate: real): (c: seq<real>)
    ensures |c| == |options|
  {
    seq(|options|, j requires 0 <= j < |options| => options[j].premium * (1.0 + transactionCostRate))
  }

  /** Sum of c[j] * x[j] over j < n. */
  function DotTo(c: seq<real>, x: seq<real>, n: nat): real
    requires n <= |c| && n <= |x|
  {
    if n == 0 then 0.0 else DotTo(c, x, n - 1) + c[n - 1] * x[n - 1]
  }

  function Dot(c: seq<real>, x: seq<real>): real
    requires |c| == |x|
  {
    DotTo(c, x, |c|)
  }

  // ---------------------------------------------------------- classification

  /** The first rung at or after k whose half-open interval contains `otm`. */
  function RungFrom(otm: real, k: nat): (r: Option<nat>)
    requires k <= 4
    decreases 4 - k
    ensures r.Some? ==> k <= r.value < 4 && RungLow[r.value] <= otm < RungHigh[r.value]
    ensures r.None? ==> forall i :: k <= i < 4 ==> !(RungLow[i] <= otm < RungHigh[i])
  {
    if k == 4 then None
    else if RungLow[k] <= otm < RungHigh[k] then Some(k)
    else RungFrom(otm, k + 1)
  }

  function RungOf(otm: real): Option<nat>
  {
    RungFrom(otm, 0)
  }

  function OtmFraction(s0: real, strike: real): real
    requires s0 != 0.0
  {
    (s0 - strike) / s0
  }

  /** The rung of each candidate, None for those outside every rung. */
  function Labels(options: seq<PutCandidate>, s0: real): (labels: seq<Option<nat>>)
    requires s0 != 0.0
    ensures |labels| == |options|
  {
    seq(|options|, j requires 0 <= j < |options| => RungOf(OtmFraction(s0, options[j].strike)))
  }

  /** Indices with label Some(k), ascending. */
  function RungMembers(labels: seq<Option<nat>>, k: nat): (r: seq<nat>)
    ensures forall i :: 0 <= i < |r| ==> r[i] < |labels|
  {
    if |labels| == 0 then []
    else
      RungMembers(labels[..|labels| - 1], k) + (if labels[|labels| - 1] == Some(k) then [|labels| - 1] else [])
  }

  function Rungs(labels: seq<Option<nat>>): (r: seq<seq<nat>>)
    ensures |r| == 4 && IndicesBelow(r, |labels|)
  {
    seq(4, k requires 0 <= k < 4 => RungMembers(labels, k))
  }

  /** Classifying candidate j appends j to its rung's list and leaves the others alone. */
  lemma RungsExtend(labels: seq<Option<nat>>, j: nat)
    requires j < |labels|
    ensures labels[j].Some? && labels[j].value < 4 ==>
              Rungs(labels[..j + 1])
                == Rungs(labels[..j])[labels[j].value := Rungs(labels[..j])[labels[j].value] + [j]]
    ensures labels[j].None? ==> Rungs(labels[..j + 1]) == Rungs(labels[..j])
  {
    var longer := labels[..j + 1];
    assert longer[..j] == labels[..j];
    var before := Rungs(labels[..j]);
    forall k | 0 <= k < 4
      ensures Rungs(longer)[k] == before[k] + (if labels[j] == Some(k) then [j] else [])
    {
      assert RungMembers(longer, k)
             == RungMembers(labels[..j], k) + (if labels[j] == Some(k) then [j] else []);
    }
    if labels[j].Some? && labels[j].value < 4 {
      var v := labels[j].value;
      assert forall k | 0 <= k < 4 :: Rungs(longer)[k] == before[v := before[v] + [j]][k];
    } else if labels[j].None? {
      assert forall k | 0 <= k < 4 :: Rungs(longer)[k] == before[k];
    }
  }

  /** The nested classification loop: each candidate joins the first rung containing its otm fraction. */
  method ClassifyRungs(options: seq<PutCandidate>, s0: real) returns (rungs: seq<seq<nat>>)
    requires s0 != 0.0
    ensures rungs == Rungs(Labels(options, s0))
  {
    ghost var labels := Labels(options, s0);
    rungs := [[], [], [], []];
    assert labels[..0] == [];
    for j := 0 to |options|
      invariant rungs == Rungs(labels[..j])
    {
      var otm := (s0 - options[j].strike) / s0;
      assert labels[j] == RungOf(otm);
      RungsExtend(labels, j);
      var k := 0;
      while k < 4
        invariant 0 <= k <= 4
        invariant RungOf(otm) == RungFrom(otm, k)
        invariant rungs == Rungs(labels[..j])
      {
        if RungLow[k] <= otm < RungHigh[k] {
          rungs := rungs[k := rungs[k] + [j]];
          break;
        }
        k := k + 1;
      }
    }
    assert labels[..|options|] == labels;
  }

  // ------------------------------------------------------------------ greedy

  /** The cheapest index of a non-empty list, the earliest one among equals. */
  function CheapestFirst(idx: seq<nat>, c: seq<real>): (j: nat)
    requires |idx| > 0 && forall i :: 0 <= i < |idx| ==> idx[i] < |c|
    ensures j in idx && j < |c|
  {
    if |idx| == 1 then
      idx[0]
    else
      var rest := CheapestFirst(idx[1..], c);
      if c[idx[0]] <= c[rest] then idx[0] else rest
  }

  /** CheapestFirst picks a minimum-cost index, and the earliest one among the minima. */
  lemma {:induction false} CheapestFirstIsEarliestMinimum(idx: seq<nat>, c: seq<real>)
    requires |idx| > 0 && forall i :: 0 <= i < |idx| ==> idx[i] < |c|
    ensures var j := CheapestFirst(idx, c);
            (forall i :: 0 <= i < |idx| ==> c[j] <= c[idx[i]])
            && exists p :: 0 <= p < |idx| && idx[p] == j && forall i :: 0 <= i < p ==> c[idx[i]] > c[j]
  {
    var j := CheapestFirst(idx, c);
    if |idx| == 1 {
      assert idx[0] == j;
    } else {
      var rest := CheapestFirst(idx[1..], c);
      CheapestFirstIsEarliestMinimum(idx[1..], c);
      if c[idx[0]] <= c[rest] {
        assert idx[0] == j;
        forall i | 0 <= i < |idx| ensures c[j] <= c[idx[i]] {
          if i > 0 {
            assert idx[i] == idx[1..][i - 1];
          }
        }
      } else {
        var p :| 0 <= p < |idx[1..]| && idx[1..][p] == rest && forall i :: 0 <= i < p ==> c[idx[1..][i]] > c[rest];
        assert idx[p + 1] == j;
        forall i | 0 <= i < |idx| ensures c[j] <= c[idx[i]] {
          if i > 0 {
            assert idx[i] == idx[1..][i - 1];
          }
        }
        forall i | 0 <= i < p + 1 ensures c[idx[i]] > c[j] {
          if i > 0 {
            assert idx[i] == idx[1..][i - 1];
          }
        }
      }
    }
  }

  /** Insert j before the first element costing at least as much. */
  function InsertByCost(j: nat, sorted: seq<nat>, c: seq<real>): (r: seq<nat>)
    requires j < |c| && forall i :: 0 <= i < |sorted| ==> sorted[i] < |c|
    ensures |r| == |sorted| + 1 && multiset(r) == multiset(sorted) + multiset{j}
    ensures forall i :: 0 <= i < |r| ==> r[i] < |c|
  {
    if |sorted| == 0 || c[j] <= c[sorted[0]] then [j] + sorted
    else
      assert sorted == [sorted[0]] + sorted[1..];
      [sorted[0]] + InsertByCost(j, sorted[1..], c)
  }

  /** Python's stable `sorted(idx, key=c)`. */
  function SortByCost(idx: seq<nat>, c: seq<real>): (r: seq<nat>)
    requires forall i :: 0 <= i < |idx| ==> idx[i] < |c|
    ensures |r| == |idx| && multiset(r) == multiset(idx)
    ensures forall i :: 0 <= i < |r| ==> r[i] < |c|
  {
    if |idx| == 0 then []
    else
      assert idx == [idx[0]] + idx[1..];
      InsertByCost(idx[0], SortByCost(idx[1..], c), c)
  }

  predicate IndicesBelow(rungs: seq<seq<nat>>, n: nat)
  {
    forall k, i :: 0 <= k < |rungs| && 0 <= i < |rungs[k]| ==> rungs[k][i] < n
  }

  function Zeros(n: nat): (z: seq<real>)
    ensures |z| == n && forall j :: 0 <= j < n ==> z[j] == 0.0
  {
    seq(n, _ => 0.0)
  }

  /**
   * One rung of the greedy fallback: an active rung (members present,
   * fraction positive) with a positive rung budget puts the whole budget on
   * its cheapest member; a zero cost there is a ZeroDivision.
   */
  function RungStep(c: seq<real>, idx: seq<nat>, frac: real, budget: real, x: seq<real>)
    : (r: Result<seq<real>, LadderError>)
    requires |x| == |c| && forall i :: 0 <= i < |idx| ==> idx[i] < |c|
    ensures r.Ok? ==> |r.value| == |c|
  {
    if |idx| == 0 || frac <= 0.0 then Ok(x)
    else
      var rungBudget := budget * frac;
      if rungBudget <= 0.0 then Ok(x)
      else
        var j := CheapestFirst(idx, c);
        if c[j] == 0.0 then Err(ZeroDivision) else Ok(x[j := rungBudget / c[j]])
  }

  /** Rungs k..3 of the greedy fallback from quantities x; a missing fraction is an IndexError. */
  function GreedyFrom(c: seq<real>, rungs: seq<seq<nat>>, fracs: seq<real>, budget: real,
                      k: nat, x: seq<real>): (r: Result<seq<real>, LadderError>)
    requires k <= 4 && |rungs| == 4 && |x| == |c| && IndicesBelow(rungs, |c|)
    ensures r.Ok? ==> |r.value| == |c|
    decreases 4 - k
  {
    if k == 4 then Ok(x)
    else if k >= |fracs| then Err(IndexError)
    else
      match RungStep(c, rungs[k], fracs[k], budget, x)
      case Err(e) => Err(e)
      case Ok(y) => GreedyFrom(c, rungs, fracs, budget, k + 1, y)
  }

  /** The inner loop: walk the rung cheapest first until the rung budget is spent. */
  method BuyRung(c: seq<real>, idx: seq<nat>, frac: real, budget: real, x0: seq<real>)
    returns (r: Result<seq<real>, LadderError>)
    requires |x0| == |c| && forall i :: 0 <= i < |idx| ==> idx[i] < |c|
    ensures r == RungStep(c, idx, frac, budget, x0)
  {
    if |idx| == 0 || frac <= 0.0 {
      return Ok(x0);
    }
    var rungBudget := budget * frac;
    var order := SortByCost(idx, c);
    SortedHeadIsCheapest(idx, c);
    var x := x0;
    var spent := 0.0;
    var i := 0;
    while i < |order|
      invariant 0 <= i <= 1 && i <= |order| && |x| == |c|
      invariant i == 0 ==> spent == 0.0 && x == x0
      invariant i == 1 ==> rungBudget > 0.0 && spent == rungBudget && c[order[0]] != 0.0
                           && x == x0[order[0] := rungBudget / c[order[0]]]
    {
      if spent >= rungBudget {
        break;
      }
      var j := order[i];
      if c[j] == 0.0 {
        return Err(ZeroDivision);
      }
      var quantity := (rungBudget - spent) / c[j];
      x := x[j := quantity];
      spent := spent + c[j] * quantity;
      i := i + 1;
    }
    r := Ok(x);
  }

  /** The outer loop over the four rungs. */
  method GreedyFallback(c: seq<real>, rungs: seq<seq<nat>>, fracs: seq<real>, budget: real)
    returns (r: Result<seq<real>, LadderError>)
    requires |rungs| == 4 && IndicesBelow(rungs, |c|)
    ensures r == GreedyFrom(c, rungs, fracs, budget, 0, Zeros(|c|))
  {
    var x := Zeros(|c|);
    for k := 0 to 4
      invariant |x| == |c|
      invariant GreedyFrom(c, rungs, fracs, budget, 0, Zeros(|c|)) == GreedyFrom(c, rungs, fracs, budget, k, x)
    {
      if k >= |fracs| {
        return Err(IndexError);
      }
      var step := BuyRung(c, rungs[k], fracs[k], budget, x);
      if step.Err? {
        return Err(step.error);
      }
      x := step.value;
    }
    r := Ok(x);
  }

  /** The head of the stable sort is the earliest cheapest index. */
  lemma {:induction false} SortedHeadIsCheapest(idx: seq<nat>, c: seq<real>)
    requires |idx| > 0 && forall i :: 0 <= i < |idx| ==> idx[i] < |c|
    ensures SortByCost(idx, c)[0] == CheapestFirst(idx, c)
  {
    if |idx| > 1 {
      SortedHeadIsCheapest(idx[1..], c);
    }
  }

  // ---------------------------------------------------------------- pipeline

  /** The whole of solve_vix_ladder_lp, in the order the source evaluates it. */
  function Ladder(options: seq<PutCandidate>, v0: real, s0: real, beta: real, vix: real,
                  allocations: Option<seq<AllocationItem>>, transactionCostRate: real,
                  solver: SolverOutcome): Result<LadderSolution, LadderError>
    requires solver.SolverOptimal? ==> |solver.x| == |options|
  {
    if |options| == 0 then Ok(LadderSolution([], 0.0, 0.0))
    else
      var items := if allocations.Some? then allocations.value else DefaultAllocations;
      match Fractions(items)
      case Err(e) => Err(e)
      case Ok(fracs) =>
        var budget := Budget(v0, vix, beta);
        var c := Costs(options, transactionCostRate);
        if s0 == 0.0 then Err(ZeroDivision)
        else if solver.SolverFailed? then Err(GurobiError)
        else if !solver.SolverUnavailable? && |fracs| < 4 then Err(IndexError)
        else if solver.SolverOptimal? then Ok(LadderSolution(solver.x, Dot(c, solver.x), budget))
        else
          var rungs := Rungs(Labels(options, s0));
          match GreedyFrom(c, rungs, fracs, budget, 0, Zeros(|c|))
          case Err(e) => Err(e)
          case Ok(x) => Ok(LadderSolution(x, Dot(c, x), budget))
  }

  method SolveVixLadderLp(options: seq<PutCandidate>, v0: real, s0: real, beta: real, vix: real,
                          allocations: Option<seq<AllocationItem>>, transactionCostRate: real,
                          solver: SolverOutcome) returns (r: Result<LadderSolution, LadderError>)
    requires solver.SolverOptimal? ==> |solver.x| == |options|
    ensures r == Ladder(options, v0, s0, beta, vix, allocations, transactionCostRate, solver)
    ensures |options| == 0 ==> r == Ok(LadderSolution([], 0.0, 0.0))
    ensures |options| > 0 && solver.SolverFailed? ==> r.Err?
    ensures |options| > 0 && solver.SolverFailed? && s0 != 0.0
            && Fractions(if allocations.Some? then allocations.value else DefaultAllocations).Ok? ==>
              r == Err(GurobiError)
    ensures r.Ok? && |options| > 0 ==> r.value.budget == Budget(v0, vix, beta)
                                       && |r.value.quantities| == |options|
                                       && r.value.totalCost
                                            == Dot(Costs(options, transactionCostRate), r.value.quantities)
  {
    if |options| == 0 {
      return Ok(LadderSolution([], 0.0, 0.0));
    }
    var items := if allocations.Some? then allocations.value else DefaultAllocations;
    var parsed := ParseFractions(items);
    if parsed.Err? {
      return Err(parsed.error);
    }
    var fracs := parsed.value;
    var budget := Budget(v0, vix, beta);
    var c := Costs(options, transactionCostRate);
    if s0 == 0.0 {
      return Err(ZeroDivision);
    }
    var rungs := ClassifyRungs(options, s0);
    if solver.SolverFailed? {
      return Err(GurobiError);
    }
    if !solver.SolverUnavailable? {
      if |fracs| < 4 {
        return Err(IndexError);
      }
      if solver.SolverOptimal? {
        return Ok(LadderSolution(solver.x, Dot(c, solver.x), budget));
      }
    }
    var greedy := GreedyFallback(c, rungs, fracs, budget);
    if greedy.Err? {
      return Err(greedy.error);
    }
    r := Ok(LadderSolution(greedy.value, Dot(c, greedy.value), budget));
  }

  /** Every rung member is a valid candidate index, and exactly those labelled with that rung. */
  lemma {:induction false} RungMembersExactly(labels: seq<Option<nat>>, k: nat)
    ensures forall j: nat :: j in RungMembers(labels, k) <==> j < |labels| && labels[j] == Some(k)
  {
    if |labels| > 0 {
      var init := labels[..|labels| - 1];
      RungMembersExactly(init, k);
    }
  }
}
