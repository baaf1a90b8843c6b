/**
 * Plan fulfilment: fact as a percentage of plan, to one decimal, and 0 when
 * there is no positive plan to divide by. The server rounds with Python's
 * round; the browser's live preview rounds with toFixed.
 */
module Performance {
  import opened Rounding

  /** `round(fact / plan * 100, 1) if plan > 0 else 0` on the server. */
  function PercentOfPlan(fact: real, plan: real): (p: real)
    ensures plan <= 0.0 ==> p == 0.0
    ensures plan > 0.0 ==> -0.05 <= p - fact / plan * 100.0 <= 0.05
    ensures IsTenths(p)
  {
    if plan > 0.0 then PyRound1(fact / plan * 100.0) else 0.0
  }

  /** Meeting the plan exactly is 100 percent. */
  lemma {:induction false} PlanMetIsHundred(plan: real)
    requires plan > 0.0
    ensures PercentOfPlan(plan, plan) == 100.0
  {
    assert plan / plan * 100.0 == 100.0;
    PyRound1OfTenths(100.0);
  }

  /** Meeting or beating the plan is at least 100 percent. */
  lemma {:induction false} PlanBeatenIsAtLeastHundred(fact: real, plan: real)
    requires plan > 0.0 && fact >= plan
    ensures PercentOfPlan(fact, plan) >= 100.0
  {
    PlanMetIsHundred(plan);
    PercentMonotone(plan, fact, plan);
  }

  /** Falling short of the plan is at most 100 percent. */
  lemma {:induction false} PlanMissedIsAtMostHundred(fact: real, plan: real)
    requires plan > 0.0 && fact <= plan
    ensures PercentOfPlan(fact, plan) <= 100.0
  {
    PlanMetIsHundred(plan);
    PercentMonotone(fact, plan, plan);
  }

  /** A non-negative fact never gives a negative percentage. */
  lemma {:induction false} PercentNonNegative(fact: real, plan: real)
    requires fact >= 0.0
    ensures PercentOfPlan(fact, plan) >= 0.0
  {
    if plan > 0.0 {
      RoundingsKeepSign(fact / plan * 100.0);
    }
  }

  /** A larger fact against the same plan never gives a smaller percentage. */
  lemma {:induction false} PercentMonotone(fact1: real, fact2: real, plan: real)
    requires fact1 <= fact2
    ensures PercentOfPlan(fact1, plan) <= PercentOfPlan(fact2, plan)
  {
    if plan > 0.0 {
      assert fact1 / plan <= fact2 / plan;
      PyRound1Monotone(fact1 / plan * 100.0, fact2 / plan * 100.0);
    }
  }

  /** `plan > 0 ? ((fact / plan) * 100).toFixed(1) : 0` in the browser. */
  function CalcPerformance(fact: real, plan: real): (p: real)
    ensures plan <= 0.0 ==> p == 0.0
    ensures plan > 0.0 ==> -0.05 <= p - fact / plan * 100.0 <= 0.05
  {
    if plan > 0.0 then JsToFixed1(fact / plan * 100.0) else 0.0
  }

  /**
   * The preview shows what the server stores, except when the exact
   * percentage lies half way between two tenths; then the two differ by one
   * tenth (fact 1 against plan 400: preview 0.3, stored 0.2).
   */
  lemma {:induction false} PreviewMatchesStored(fact: real, plan: real)
    ensures plan > 0.0 && !IsTie(fact / plan * 1000.0) ==> CalcPerformance(fact, plan) == PercentOfPlan(fact, plan)
    ensures -0.1 <= CalcPerformance(fact, plan) - PercentOfPlan(fact, plan) <= 0.1
  {
    if plan > 0.0 {
      assert fact / plan * 100.0 * 10.0 == fact / plan * 1000.0;
      RoundingsAgreeOffTies(fact / plan * 100.0);
    }
  }

  lemma PreviewDiffersAtQuarterPercent()
    ensures CalcPerformance(1.0, 400.0) == 0.3 && PercentOfPlan(1.0, 400.0) == 0.2
  {
    assert 1.0 / 400.0 * 100.0 == 0.25;
    RoundingsDifferAtQuarter();
  }
}
