/**
 * What the VIX-ladder fallback computes: the budget's scaling, rung
 * classification, the exact greedy plan, and that the plan solves the
 * ladder LP it stands in for.
 */
module VixLadderLpProofs {
  import opened Wrappers
  import opened VixLadderLp
  import RealArith

  // ----------------------------------------------------------------- budget

  /** The documented budgets for a 1,000,000 portfolio. */
  lemma BudgetExamples()
    ensures Budget(1000000.0, 20.0, 1.0) == 10000.0
    ensures Budget(1000000.0, 40.0, 1.0) == 20000.0
    ensures Budget(1000000.0, 20.0, 1.5) == 15000.0
  {
  }

  /** A beta below one gets the beta-one budget. */
  lemma BudgetBetaFloor(v0: real, vix: real, beta: real)
    requires beta <= 1.0
    ensures Budget(v0, vix, beta) == Budget(v0, vix, 1.0)
  {
  }

  /** For a positive portfolio value the budget is strictly increasing in VIX. */
  lemma BudgetIncreasingInVix(v0: real, beta: real, low: real, high: real)
    requires v0 > 0.0 && low < high
    ensures Budget(v0, low, beta) < Budget(v0, high, beta)
  {
    var scale := v0 * 0.01 * Max(1.0, beta) / 20.0;
    assert scale > 0.0;
    assert Budget(v0, low, beta) == scale * low;
    assert Budget(v0, high, beta) == scale * high;
    assert scale * (high - low) > 0.0;
  }

  // ---------------------------------------------------------------- parsing

  /** A tuple contributes its third field whatever its bounds; a bare number contributes itself. */
  lemma TupleBoundsIgnored(lo: real, hi: real, f: real)
    ensures Fractions([Tuple([lo, hi, f])]) == Fractions([Fraction(f)]) == Ok([f])
    ensures Fractions([Tuple([lo, hi])]) == Err(IndexError)
  {
    assert [Tuple([lo, hi, f])][..0] == [];
    assert [Fraction(f)][..0] == [];
    assert FractionOf(Tuple([lo, hi, f])) == Some(f);
    assert Fractions([Fraction(f)]) == Ok([] + [f]);
    assert [] + [f] == [f];
    assert [Tuple([lo, hi])][..0] == [];
  }

  lemma DefaultFractions()
    ensures Fractions(DefaultAllocations) == Ok([0.05, 0.15, 0.30, 0.50])
  {
    var r := Fractions(DefaultAllocations);
    assert r.Ok?;
    assert r.value == [0.05, 0.15, 0.30, 0.50];
  }

  // ---------------------------------------------------------- classification

  /** Rung k is chosen exactly when otm lies in its half-open interval; the rungs do not overlap. */
  lemma RungOfExactly(otm: real, k: nat)
    ensures RungOf(otm) == Some(k) <==> k < 4 && RungLow[k] <= otm < RungHigh[k]
  {
  }

  /** Below 5% or at 100% and above out of the money, a candidate belongs to no rung. */
  lemma RungOfNone(otm: real)
    ensures RungOf(otm).None? <==> otm < 0.05 || otm >= 1.0
  {
    if 0.05 <= otm < 1.0 {
      if otm < 0.15 { assert RungLow[0] <= otm < RungHigh[0]; }
      else if otm < 0.25 { assert RungLow[1] <= otm < RungHigh[1]; }
      else if otm < 0.40 { assert RungLow[2] <= otm < RungHigh[2]; }
      else { assert RungLow[3] <= otm < RungHigh[3]; }
    }
  }

  predicate ValidLabels(labels: seq<Option<nat>>)
  {
    forall j :: 0 <= j < |labels| && labels[j].Some? ==> labels[j].value < 4
  }

  lemma LabelsAreValid(options: seq<PutCandidate>, s0: real)
    requires s0 != 0.0
    ensures ValidLabels(Labels(options, s0))
  {
  }

  // ------------------------------------------------------------ greedy plan

  /** Rung k is funded by the greedy fallback. */
  predicate Buys(rungs: seq<seq<nat>>, fracs: seq<real>, budget: real, k: nat)
    requires |rungs| == 4 && k < 4
  {
    k < |fracs| && |rungs[k]| > 0 && fracs[k] > 0.0 && budget * fracs[k] > 0.0
  }

  /**
   * Quantity of candidate j once rungs k..3 have been processed from x:
   * the rung budget over the cost for the cheapest member of a funded rung,
   * x[j] for everyone else.
   */
  function PlanFrom(c: seq<real>, labels: seq<Option<nat>>, fracs: seq<real>, budget: real,
                    k: nat, x: seq<real>, j: nat): real
    requires ValidLabels(labels) && |labels| == |c| && |x| == |c| && j < |c|
  {
    var rungs := Rungs(labels);
    if labels[j].Some? && k <= labels[j].value && Buys(rungs, fracs, budget, labels[j].value)
       && j == CheapestFirst(rungs[labels[j].value], c) && c[j] != 0.0
    then budget * fracs[labels[j].value] / c[j]
    else x[j]
  }

  /** One rung step moves the plan's starting point from k to k + 1. */
  lemma RungStepPlan(c: seq<real>, labels: seq<Option<nat>>, fracs: seq<real>, budget: real,
                     k: nat, x: seq<real>, j: nat)
    requires ValidLabels(labels) && |labels| == |c| && |x| == |c| && k < 4 && k < |fracs| && j < |c|
    requires RungStep(c, Rungs(labels)[k], fracs[k], budget, x).Ok?
    ensures PlanFrom(c, labels, fracs, budget, k + 1, RungStep(c, Rungs(labels)[k], fracs[k], budget, x).value, j)
            == PlanFrom(c, labels, fracs, budget, k, x, j)
  {
    var rungs := Rungs(labels);
    if Buys(rungs, fracs, budget, k) {
      var j0 := CheapestFirst(rungs[k], c);
      RungMembersExactly(labels, k);
      assert labels[j0] == Some(k);
    }
  }

  lemma {:induction false} GreedyPlanFrom(c: seq<real>, labels: seq<Option<nat>>, fracs: seq<real>,
                                          budget: real, k: nat, x: seq<real>)
    requires ValidLabels(labels) && |labels| == |c| && |x| == |c| && k <= 4
    requires GreedyFrom(c, Rungs(labels), fracs, budget, k, x).Ok?
    ensures forall j :: 0 <= j < |c| ==>
              GreedyFrom(c, Rungs(labels), fracs, budget, k, x).value[j]
                == PlanFrom(c, labels, fracs, budget, k, x, j)
    decreases 4 - k
  {
    var rungs := Rungs(labels);
    if k < 4 {
      var y := RungStep(c, rungs[k], fracs[k], budget, x).value;
      assert GreedyFrom(c, rungs, fracs, budget, k, x) == GreedyFrom(c, rungs, fracs, budget, k + 1, y);
      GreedyPlanFrom(c, labels, fracs, budget, k + 1, y);
      forall j | 0 <= j < |c|
        ensures GreedyFrom(c, rungs, fracs, budget, k, x).value[j] == PlanFrom(c, labels, fracs, budget, k, x, j)
      {
        RungStepPlan(c, labels, fracs, budget, k, x, j);
      }
    }
  }

  /** The greedy quantity of candidate j from all-zero quantities. */
  function GreedyQuantity(c: seq<real>, labels: seq<Option<nat>>, fracs: seq<real>, budget: real,
                          j: nat): real
    requires ValidLabels(labels) && |labels| == |c| && j < |c|
  {
    PlanFrom(c, labels, fracs, budget, 0, Zeros(|c|), j)
  }

  /**
   * The greedy fallback buys, in each funded rung, only the earliest
   * cheapest member, for exactly the rung budget; everything else is 0.
   */
  lemma GreedyBuysCheapestOnly(c: seq<real>, labels: seq<Option<nat>>, fracs: seq<real>, budget: real)
    requires ValidLabels(labels) && |labels| == |c|
    requires GreedyFrom(c, Rungs(labels), fracs, budget, 0, Zeros(|c|)).Ok?
    ensures var x := GreedyFrom(c, Rungs(labels), fracs, budget, 0, Zeros(|c|)).value;
            |x| == |c| && forall j :: 0 <= j < |c| ==> x[j] == GreedyQuantity(c, labels, fracs, budget, j)
  {
    GreedyPlanFrom(c, labels, fracs, budget, 0, Zeros(|c|));
  }

  /** The two cases of a greedy quantity: a funded rung's cheapest member, or zero. */
  lemma GreedyQuantityCases(c: seq<real>, labels: seq<Option<nat>>, fracs: seq<real>, budget: real, j: nat)
    requires ValidLabels(labels) && |labels| == |c| && j < |c|
    ensures var q := GreedyQuantity(c, labels, fracs, budget, j);
            var rungs := Rungs(labels);
            if labels[j].Some? && Buys(rungs, fracs, budget, labels[j].value)
               && j == CheapestFirst(rungs[labels[j].value], c) && c[j] != 0.0
            then q == budget * fracs[labels[j].value] / c[j]
            else q == 0.0
  {
  }

  /** With four fractions and no zero cost the fallback never raises. */
  lemma {:induction false} GreedySucceeds(c: seq<real>, rungs: seq<seq<nat>>, fracs: seq<real>,
                                          budget: real, k: nat, x: seq<real>)
    requires k <= 4 && |rungs| == 4 && |x| == |c| && IndicesBelow(rungs, |c|)
    requires |fracs| >= 4 && forall j :: 0 <= j < |c| ==> c[j] != 0.0
    ensures GreedyFrom(c, rungs, fracs, budget, k, x).Ok?
    decreases 4 - k
  {
    if k < 4 {
      var step := RungStep(c, rungs[k], fracs[k], budget, x);
      assert step.Ok?;
      GreedySucceeds(c, rungs, fracs, budget, k + 1, step.value);
    }
  }

  /** With positive costs every greedy quantity is nonnegative. */
  lemma GreedyNonnegative(c: seq<real>, labels: seq<Option<nat>>, fracs: seq<real>, budget: real, j: nat)
    requires ValidLabels(labels) && |labels| == |c| && j < |c|
    requires forall i :: 0 <= i < |c| ==> c[i] > 0.0
    ensures GreedyQuantity(c, labels, fracs, budget, j) >= 0.0
  {
    var rungs := Rungs(labels);
    if labels[j].Some? && Buys(rungs, fracs, budget, labels[j].value)
       && j == CheapestFirst(rungs[labels[j].value], c) && c[j] != 0.0 {
      var rb := budget * fracs[labels[j].value];
      assert rb / c[j] > 0.0;
    }
  }

  // ------------------------------------------------------- spend and the LP

  /** What candidate j costs at quantity x[j]. */
  function Cost(c: seq<real>, x: seq<real>, j: nat): real
    requires j < |c| && j < |x|
  {
    c[j] * x[j]
  }

  /** Sum of c[j] * x[j] over the listed indices: the LP's per-rung spend. */
  function RungSpend(c: seq<real>, x: seq<real>, idx: seq<nat>): real
    requires forall i :: 0 <= i < |idx| ==> idx[i] < |c| && idx[i] < |x|
  {
    if |idx| == 0 then 0.0
    else RungSpend(c, x, idx[..|idx| - 1]) + Cost(c, x, idx[|idx| - 1])
  }

  /** Sum of c[j] * x[j] over j < n labelled with rung k. */
  function ClassSpend(c: seq<real>, x: seq<real>, labels: seq<Option<nat>>, k: nat, n: nat): real
    requires n <= |c| && n <= |x| && n <= |labels|
  {
    if n == 0 then 0.0
    else ClassSpend(c, x, labels, k, n - 1) + (if labels[n - 1] == Some(k) then c[n - 1] * x[n - 1] else 0.0)
  }

  /** Sum of c[j] * x[j] over unclassified j < n. */
  function OutsideSpend(c: seq<real>, x: seq<real>, labels: seq<Option<nat>>, n: nat): real
    requires n <= |c| && n <= |x| && n <= |labels|
  {
    if n == 0 then 0.0
    else OutsideSpend(c, x, labels, n - 1) + (if labels[n - 1].None? then c[n - 1] * x[n - 1] else 0.0)
  }

  /** The LP's constraint on rung k applies: the rung has members and a positive fraction. */
  predicate Active(rungs: seq<seq<nat>>, fracs: seq<real>, k: nat)
    requires |rungs| == 4 && |fracs| >= 4 && k < 4
  {
    |rungs[k]| > 0 && fracs[k] > 0.0
  }

  function ActiveShare(rungs: seq<seq<nat>>, fracs: seq<real>, k: nat): real
    requires |rungs| == 4 && |fracs| >= 4 && k < 4
  {
    if Active(rungs, fracs, k) then fracs[k] else 0.0
  }

  /** Sum of the fractions of the constrained rungs. */
  function ActiveFracSum(rungs: seq<seq<nat>>, fracs: seq<real>): real
    requires |rungs| == 4 && |fracs| >= 4
  {
    ActiveShare(rungs, fracs, 0) + ActiveShare(rungs, fracs, 1)
      + ActiveShare(rungs, fracs, 2) + ActiveShare(rungs, fracs, 3)
  }

  /**
   * The ladder LP: nonnegative quantities, total cost within the budget,
   * and each constrained rung spending at least budget x fraction.
   */
  predicate LadderFeasible(c: seq<real>, x: seq<real>, rungs: seq<seq<nat>>, fracs: seq<real>, budget: real)
    requires |rungs| == 4 && |fracs| >= 4 && |x| == |c| && IndicesBelow(rungs, |c|)
  {
    (forall j :: 0 <= j < |x| ==> x[j] >= 0.0)
    && Dot(c, x) <= budget
    && forall k :: 0 <= k < 4 && Active(rungs, fracs, k) ==> RungSpend(c, x, rungs[k]) >= budget * fracs[k]
  }

  /** The LP's sum over a rung's index list is the sum over the candidates labelled with that rung. */
  lemma {:induction false} RungSpendIsClassSpend(c: seq<real>, x: seq<real>, labels: seq<Option<nat>>,
                                                 k: nat, n: nat)
    requires n <= |labels| && |labels| == |c| == |x|
    ensures RungSpend(c, x, RungMembers(labels[..n], k)) == ClassSpend(c, x, labels, k, n)
  {
    if n > 0 {
      RungSpendIsClassSpend(c, x, labels, k, n - 1);
      var shorter := RungMembers(labels[..n - 1], k);
      assert labels[..n][..n - 1] == labels[..n - 1];
      if labels[n - 1] == Some(k) {
        assert RungMembers(labels[..n], k) == shorter + [n - 1];
        RungSpendSnoc(c, x, shorter, n - 1);
      } else {
        assert RungMembers(labels[..n], k) == shorter;
      }
    }
  }

  /** One more index adds its cost to a rung's spend. */
  lemma RungSpendSnoc(c: seq<real>, x: seq<real>, idx: seq<nat>, j: nat)
    requires forall i :: 0 <= i < |idx| ==> idx[i] < |c| && idx[i] < |x|
    requires j < |c| && j < |x|
    ensures RungSpend(c, x, idx + [j]) == RungSpend(c, x, idx) + Cost(c, x, j)
  {
    var s := idx + [j];
    assert s[..|s| - 1] == idx;
  }

  lemma RungSpendOfRung(c: seq<real>, x: seq<real>, labels: seq<Option<nat>>, k: nat)
    requires |labels| == |c| == |x| && k < 4
    ensures RungSpend(c, x, Rungs(labels)[k]) == ClassSpend(c, x, labels, k, |c|)
  {
    RungSpendIsClassSpend(c, x, labels, k, |c|);
    assert labels[..|c|] == labels;
  }

  /** Every candidate's cost falls in exactly one rung's spend or the unclassified spend. */
  lemma {:induction false} SpendPartition(c: seq<real>, x: seq<real>, labels: seq<Option<nat>>, n: nat)
    requires ValidLabels(labels) && n <= |labels| && |labels| == |c| == |x|
    ensures DotTo(c, x, n) == ClassSpend(c, x, labels, 0, n) + ClassSpend(c, x, labels, 1, n)
                              + ClassSpend(c, x, labels, 2, n) + ClassSpend(c, x, labels, 3, n)
                              + OutsideSpend(c, x, labels, n)
  {
    if n > 0 {
      SpendPartition(c, x, labels, n - 1);
    }
  }

  lemma {:induction false} SpendNonnegative(c: seq<real>, x: seq<real>, labels: seq<Option<nat>>, k: nat, n: nat)
    requires n <= |labels| && |labels| == |c| == |x|
    requires forall j :: 0 <= j < |c| ==> c[j] >= 0.0 && x[j] >= 0.0
    ensures ClassSpend(c, x, labels, k, n) >= 0.0 && OutsideSpend(c, x, labels, n) >= 0.0
  {
    if n > 0 {
      SpendNonnegative(c, x, labels, k, n - 1);
      assert c[n - 1] * x[n - 1] >= 0.0;
    }
  }

  /** A rung whose quantities vanish except at j0 spends c[j0] x[j0] (or nothing). */
  lemma {:induction false} SingleSupport(c: seq<real>, x: seq<real>, labels: seq<Option<nat>>,
                                         k: nat, n: nat, j0: nat)
    requires n <= |labels| && |labels| == |c| == |x|
    requires forall j :: 0 <= j < n && labels[j] == Some(k) && j != j0 ==> x[j] == 0.0
    ensures ClassSpend(c, x, labels, k, n) == if j0 < n && labels[j0] == Some(k) then c[j0] * x[j0] else 0.0
  {
    if n > 0 {
      SingleSupport(c, x, labels, k, n - 1, j0);
    }
  }

  lemma {:induction false} NoOutsideSupport(c: seq<real>, x: seq<real>, labels: seq<Option<nat>>, n: nat)
    requires n <= |labels| && |labels| == |c| == |x|
    requires forall j :: 0 <= j < n && labels[j].None? ==> x[j] == 0.0
    ensures OutsideSpend(c, x, labels, n) == 0.0
  {
    if n > 0 {
      NoOutsideSupport(c, x, labels, n - 1);
    }
  }

  /** A successful run never divided by a zero cost in a funded rung. */
  lemma {:induction false} FundedCostNonzero(c: seq<real>, rungs: seq<seq<nat>>, fracs: seq<real>,
                                             budget: real, k: nat, x: seq<real>, m: nat)
    requires k <= m < 4 && |rungs| == 4 && |x| == |c| && IndicesBelow(rungs, |c|)
    requires GreedyFrom(c, rungs, fracs, budget, k, x).Ok? && Buys(rungs, fracs, budget, m)
    ensures c[CheapestFirst(rungs[m], c)] != 0.0
    decreases m - k
  {
    var step := RungStep(c, rungs[k], fracs[k], budget, x);
    if k < m {
      FundedCostNonzero(c, rungs, fracs, budget, k + 1, step.value, m);
    }
  }

  function Funded(rungs: seq<seq<nat>>, fracs: seq<real>, budget: real, k: nat): real
    requires |rungs| == 4 && k < 4
  {
    if Buys(rungs, fracs, budget, k) then budget * fracs[k] else 0.0
  }

  /** Off its chosen member, a rung's greedy quantities are zero. */
  lemma PlanZeroOffChosen(c: seq<real>, labels: seq<Option<nat>>, fracs: seq<real>, budget: real,
                          x: seq<real>, k: nat, j0: nat)
    requires ValidLabels(labels) && |labels| == |c| == |x| && k < 4
    requires forall j :: 0 <= j < |c| ==> x[j] == GreedyQuantity(c, labels, fracs, budget, j)
    requires j0 == if Buys(Rungs(labels), fracs, budget, k) then CheapestFirst(Rungs(labels)[k], c) else |c|
    ensures forall j :: 0 <= j < |c| && labels[j] == Some(k) && j != j0 ==> x[j] == 0.0
  {
    forall j | 0 <= j < |c| && labels[j] == Some(k) && j != j0
      ensures x[j] == 0.0
    {
      GreedyQuantityCases(c, labels, fracs, budget, j);
    }
  }

  /** The chosen member of a funded rung spends the rung budget. */
  lemma PlanChosenSpends(c: seq<real>, labels: seq<Option<nat>>, fracs: seq<real>, budget: real,
                         x: seq<real>, k: nat, j0: nat)
    requires ValidLabels(labels) && |labels| == |c| == |x| && k < 4
    requires Buys(Rungs(labels), fracs, budget, k) && j0 == CheapestFirst(Rungs(labels)[k], c) && c[j0] != 0.0
    requires x[j0] == GreedyQuantity(c, labels, fracs, budget, j0)
    ensures labels[j0] == Some(k) && c[j0] * x[j0] == budget * fracs[k]
  {
    ChosenInRung(labels, c, k, j0);
    GreedyQuantityChosen(c, labels, fracs, budget, k, j0);
    RealArith.CancelDivision(c[j0], budget * fracs[k], x[j0]);
  }

  /** The member a funded rung buys is labelled with that rung. */
  lemma ChosenInRung(labels: seq<Option<nat>>, c: seq<real>, k: nat, j0: nat)
    requires ValidLabels(labels) && |labels| == |c| && k < 4
    requires |Rungs(labels)[k]| > 0 && j0 == CheapestFirst(Rungs(labels)[k], c)
    ensures j0 < |labels| && labels[j0] == Some(k)
  {
    RungMembersExactly(labels, k);
  }

  /** The greedy quantity of a funded rung's chosen member is its rung budget over its cost. */
  lemma GreedyQuantityChosen(c: seq<real>, labels: seq<Option<nat>>, fracs: seq<real>, budget: real,
                             k: nat, j0: nat)
    requires ValidLabels(labels) && |labels| == |c| && k < 4 && j0 < |c|
    requires labels[j0] == Some(k) && Buys(Rungs(labels), fracs, budget, k)
    requires j0 == CheapestFirst(Rungs(labels)[k], c) && c[j0] != 0.0
    ensures GreedyQuantity(c, labels, fracs, budget, j0) == budget * fracs[k] / c[j0]
  {
    var rungs := Rungs(labels);
    assert labels[j0].Some? && 0 <= labels[j0].value && Buys(rungs, fracs, budget, labels[j0].value)
           && j0 == CheapestFirst(rungs[labels[j0].value], c) && c[j0] != 0.0;
  }


  /** A rung whose only nonzero quantity is its chosen member's spends what that member costs. */
  lemma PlanRungSpend(c: seq<real>, labels: seq<Option<nat>>, fracs: seq<real>, budget: real,
                      x: seq<real>, k: nat, j0: nat)
    requires ValidLabels(labels) && |labels| == |c| == |x| && k < 4
    requires j0 == if Buys(Rungs(labels), fracs, budget, k) then CheapestFirst(Rungs(labels)[k], c) else |c|
    requires forall j :: 0 <= j < |c| && labels[j] == Some(k) && j != j0 ==> x[j] == 0.0
    requires Buys(Rungs(labels), fracs, budget, k) ==>
               labels[j0] == Some(k) && c[j0] * x[j0] == budget * fracs[k]
    ensures RungSpend(c, x, Rungs(labels)[k]) == Funded(Rungs(labels), fracs, budget, k)
  {
    RungSpendOfRung(c, x, labels, k);
    SingleSupport(c, x, labels, k, |c|, j0);
  }

  /** Quantities following the greedy plan spend exactly the funded amount on rung k. */
  lemma PlanSpendsFunded(c: seq<real>, labels: seq<Option<nat>>, fracs: seq<real>, budget: real,
                         x: seq<real>, k: nat)
    requires ValidLabels(labels) && |labels| == |c| == |x| && k < 4
    requires forall j :: 0 <= j < |c| ==> x[j] == GreedyQuantity(c, labels, fracs, budget, j)
    requires Buys(Rungs(labels), fracs, budget, k) ==> c[CheapestFirst(Rungs(labels)[k], c)] != 0.0
    ensures RungSpend(c, x, Rungs(labels)[k]) == Funded(Rungs(labels), fracs, budget, k)
  {
    var rungs := Rungs(labels);
    var j0 := if Buys(rungs, fracs, budget, k) then CheapestFirst(rungs[k], c) else |c|;
    PlanZeroOffChosen(c, labels, fracs, budget, x, k, j0);
    if Buys(rungs, fracs, budget, k) {
      PlanChosenSpends(c, labels, fracs, budget, x, k, j0);
    }
    PlanRungSpend(c, labels, fracs, budget, x, k, j0);
  }

  /** Each rung of the greedy plan spends exactly its rung budget if funded, nothing otherwise. */
  lemma GreedyRungSpend(c: seq<real>, labels: seq<Option<nat>>, fracs: seq<real>, budget: real, k: nat)
    requires ValidLabels(labels) && |labels| == |c| && k < 4
    requires GreedyFrom(c, Rungs(labels), fracs, budget, 0, Zeros(|c|)).Ok?
    ensures var x := GreedyFrom(c, Rungs(labels), fracs, budget, 0, Zeros(|c|)).value;
            RungSpend(c, x, Rungs(labels)[k]) == Funded(Rungs(labels), fracs, budget, k)
  {
    var rungs := Rungs(labels);
    var x := GreedyFrom(c, rungs, fracs, budget, 0, Zeros(|c|)).value;
    GreedyBuysCheapestOnly(c, labels, fracs, budget);
    if Buys(rungs, fracs, budget, k) {
      FundedCostNonzero(c, rungs, fracs, budget, 0, Zeros(|c|), k);
    }
    PlanSpendsFunded(c, labels, fracs, budget, x, k);
  }

  /** The greedy plan's total cost is the sum of the funded rung budgets. */
  lemma GreedyTotalCost(c: seq<real>, labels: seq<Option<nat>>, fracs: seq<real>, budget: real)
    requires ValidLabels(labels) && |labels| == |c|
    requires GreedyFrom(c, Rungs(labels), fracs, budget, 0, Zeros(|c|)).Ok?
    ensures var x := GreedyFrom(c, Rungs(labels), fracs, budget, 0, Zeros(|c|)).value;
            var rungs := Rungs(labels);
            Dot(c, x) == Funded(rungs, fracs, budget, 0) + Funded(rungs, fracs, budget, 1)
                         + Funded(rungs, fracs, budget, 2) + Funded(rungs, fracs, budget, 3)
  {
    var x := GreedyFrom(c, Rungs(labels), fracs, budget, 0, Zeros(|c|)).value;
    GreedyBuysCheapestOnly(c, labels, fracs, budget);
    SpendPartition(c, x, labels, |c|);
    NoOutsideSupport(c, x, labels, |c|);
    GreedyRungSpend(c, labels, fracs, budget, 0);
    GreedyRungSpend(c, labels, fracs, budget, 1);
    GreedyRungSpend(c, labels, fracs, budget, 2);
    GreedyRungSpend(c, labels, fracs, budget, 3);
    RungSpendOfRung(c, x, labels, 0);
    RungSpendOfRung(c, x, labels, 1);
    RungSpendOfRung(c, x, labels, 2);
    RungSpendOfRung(c, x, labels, 3);
  }

  /** The LP's minimum spend on rung k: budget x fraction when constrained, else nothing. */
  function RungNeed(rungs: seq<seq<nat>>, fracs: seq<real>, budget: real, k: nat): real
    requires |rungs| == 4 && |fracs| >= 4 && k < 4
  {
    if Active(rungs, fracs, k) then budget * fracs[k] else 0.0
  }

  function TotalNeed(rungs: seq<seq<nat>>, fracs: seq<real>, budget: real): real
    requires |rungs| == 4 && |fracs| >= 4
  {
    RungNeed(rungs, fracs, budget, 0) + RungNeed(rungs, fracs, budget, 1)
      + RungNeed(rungs, fracs, budget, 2) + RungNeed(rungs, fracs, budget, 3)
  }

  /** The total minimum spend is the budget times the constrained fractions' sum. */
  lemma TotalNeedIsBudgetShare(rungs: seq<seq<nat>>, fracs: seq<real>, budget: real)
    requires |rungs| == 4 && |fracs| >= 4
    ensures TotalNeed(rungs, fracs, budget) == budget * ActiveFracSum(rungs, fracs)
  {
    var a0, a1, a2, a3 := ActiveShare(rungs, fracs, 0), ActiveShare(rungs, fracs, 1),
                          ActiveShare(rungs, fracs, 2), ActiveShare(rungs, fracs, 3);
    assert budget * (a0 + a1 + a2 + a3) == budget * a0 + budget * a1 + budget * a2 + budget * a3;
  }

  /** A feasible point meets rung k's minimum spend, constrained or not. */
  lemma RungLowerBound(c: seq<real>, labels: seq<Option<nat>>, fracs: seq<real>, budget: real,
                       x: seq<real>, k: nat)
    requires ValidLabels(labels) && |labels| == |c| == |x| && |fracs| >= 4 && k < 4
    requires forall j :: 0 <= j < |c| ==> c[j] >= 0.0
    requires LadderFeasible(c, x, Rungs(labels), fracs, budget)
    ensures ClassSpend(c, x, labels, k, |c|) >= RungNeed(Rungs(labels), fracs, budget, k)
  {
    RungSpendOfRung(c, x, labels, k);
    SpendNonnegative(c, x, labels, k, |c|);
  }

  /** Any feasible point of the ladder LP costs at least the total minimum spend. */
  lemma FeasibleCostLowerBound(c: seq<real>, labels: seq<Option<nat>>, fracs: seq<real>, budget: real,
                               x: seq<real>)
    requires ValidLabels(labels) && |labels| == |c| == |x| && |fracs| >= 4
    requires forall j :: 0 <= j < |c| ==> c[j] >= 0.0
    requires LadderFeasible(c, x, Rungs(labels), fracs, budget)
    ensures Dot(c, x) >= TotalNeed(Rungs(labels), fracs, budget)
  {
    SpendPartition(c, x, labels, |c|);
    SpendNonnegative(c, x, labels, 0, |c|);
    RungLowerBound(c, labels, fracs, budget, x, 0);
    RungLowerBound(c, labels, fracs, budget, x, 1);
    RungLowerBound(c, labels, fracs, budget, x, 2);
    RungLowerBound(c, labels, fracs, budget, x, 3);
  }

  /** With a nonnegative budget a rung is funded with exactly its minimum spend. */
  lemma FundedIsNeed(rungs: seq<seq<nat>>, fracs: seq<real>, budget: real, k: nat)
    requires |rungs| == 4 && |fracs| >= 4 && k < 4 && budget >= 0.0
    ensures Funded(rungs, fracs, budget, k) == RungNeed(rungs, fracs, budget, k)
  {
    if Active(rungs, fracs, k) && !Buys(rungs, fracs, budget, k) {
      assert budget * fracs[k] >= 0.0;
    }
  }

  /** Constrained fractions summing to at most one keep the minimum spend within a nonnegative budget. */
  lemma NeedWithinBudget(rungs: seq<seq<nat>>, fracs: seq<real>, budget: real)
    requires |rungs| == 4 && |fracs| >= 4 && budget >= 0.0 && ActiveFracSum(rungs, fracs) <= 1.0
    ensures TotalNeed(rungs, fracs, budget) <= budget
  {
    TotalNeedIsBudgetShare(rungs, fracs, budget);
    RealArith.ScaledAtMost(budget, ActiveFracSum(rungs, fracs));
  }

  /**
   * With a nonnegative budget, positive costs and constrained fractions
   * summing to at most one, the greedy fallback succeeds, is feasible for
   * the ladder LP, and costs exactly the total minimum spend, which
   * FeasibleCostLowerBound shows no feasible point undercuts: it is an
   * optimal solution of the LP it replaces.
   */
  lemma GreedySolvesLadderLp(c: seq<real>, labels: seq<Option<nat>>, fracs: seq<real>, budget: real)
    requires ValidLabels(labels) && |labels| == |c| && |fracs| >= 4 && budget >= 0.0
    requires forall j :: 0 <= j < |c| ==> c[j] > 0.0
    requires ActiveFracSum(Rungs(labels), fracs) <= 1.0
    ensures GreedyFrom(c, Rungs(labels), fracs, budget, 0, Zeros(|c|)).Ok?
    ensures var x := GreedyFrom(c, Rungs(labels), fracs, budget, 0, Zeros(|c|)).value;
            LadderFeasible(c, x, Rungs(labels), fracs, budget)
            && Dot(c, x) == TotalNeed(Rungs(labels), fracs, budget)
  {
    var rungs := Rungs(labels);
    GreedySucceeds(c, rungs, fracs, budget, 0, Zeros(|c|));
    var x := GreedyFrom(c, rungs, fracs, budget, 0, Zeros(|c|)).value;
    GreedyBuysCheapestOnly(c, labels, fracs, budget);
    forall j | 0 <= j < |x|
      ensures x[j] >= 0.0
    {
      GreedyNonnegative(c, labels, fracs, budget, j);
    }
    forall k | 0 <= k < 4
      ensures Funded(rungs, fracs, budget, k) == RungNeed(rungs, fracs, budget, k)
      ensures Active(rungs, fracs, k) ==> RungSpend(c, x, rungs[k]) >= budget * fracs[k]
    {
      GreedyRungSpend(c, labels, fracs, budget, k);
      FundedIsNeed(rungs, fracs, budget, k);
    }
    GreedyTotalCost(c, labels, fracs, budget);
    NeedWithinBudget(rungs, fracs, budget);
  }
}
