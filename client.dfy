/**
 * The browser's own arithmetic around the forms: the field-visit average
 * shown while rating, the reviews payload with its fixed plan and monthly
 * target, the running total of review facts over the history, and the
 * dashboard shown when the summary cannot be loaded.
 */
module Client {
  import opened Wrappers
  import opened Rounding
  import opened Sums
  import opened Goals
  import opened Performance
  import opened Sheets
  import opened Counting
  import opened Dashboard
  import opened Submissions
  import opened EventForm

  // ---------------------------------------------------------------- field visits

  /** The field-visit form's calculateAverage: the five ratings over 5, toFixed(1). */
  function VisitAverage(v: FieldVisit): real {
    JsToFixed1((v.haircutQuality + v.serviceQuality + v.additionalServicesRating
      + v.cosmeticsRating + v.standardsRating) as real / 5.0)
  }

  /** The average the form shows is the overall score the server stores. */
  lemma {:induction false} VisitAverageMatchesOverallScore(v: FieldVisit)
    ensures VisitAverage(v) == OverallScore(v)
    ensures VisitAverage(v) == Sum(Ratings(v)) as real / 5.0
  {
    OverallScoreIsMean(v);
    RatingsSum(v);
    FifthIsTenths(Sum(Ratings(v)));
    JsToFixed1OfTenths(Sum(Ratings(v)) as real / 5.0);
  }

  /** With star ratings in 1..10 the shown average is in [1, 10]. */
  lemma {:induction false} VisitAverageWithinRatings(v: FieldVisit)
    requires ValidFieldVisit(v)
    ensures 1.0 <= VisitAverage(v) <= 10.0
  {
    VisitAverageMatchesOverallScore(v);
    OverallScoreWithinRatings(v);
  }

  // ---------------------------------------------------------------- reviews

  /** The reviews form state; `fact` is what the number input holds. */
  datatype ReviewForm = ReviewForm(week: string, managerName: string, plan: JsValue, fact: JsValue, monthlyTarget: JsValue)

  /** The JSON body sent; a fact that does not parse is NaN, which JSON writes as null. */
  datatype ReviewsPayload = ReviewsPayload(week: string, managerName: string, plan: int, fact: Option<int>, monthlyTarget: int)

  /** `{...review, plan: 13, fact: parseInt(review.fact), monthly_target: 52}`. */
  function ReviewsPayloadOf(form: ReviewForm): ReviewsPayload {
    ReviewsPayload(form.week, form.managerName, 13, ParseIntValue(form.fact), 52)
  }

  /** Whatever the form holds for plan and monthly target, the payload carries 13 and 52. */
  lemma ReviewsPayloadFixesPlan(form: ReviewForm, plan: JsValue, target: JsValue)
    ensures ReviewsPayloadOf(form).plan == 13 && ReviewsPayloadOf(form).monthlyTarget == 52
    ensures ReviewsPayloadOf(form.(plan := plan, monthlyTarget := target)) == ReviewsPayloadOf(form)
  {
  }

  /** The request the server reads from the payload; None when the fact is null and the model rejects it. */
  function RequestOf(p: ReviewsPayload): Option<ReviewsRequest> {
    match p.fact
    case None => None
    case Some(n) => Some(ReviewsRequest(p.week, p.managerName, Some(p.plan), n, Some(p.monthlyTarget)))
  }

  /**
   * A form whose fact reads as a non-negative whole number yields a request
   * the server accepts, and the row it writes records plan 13, the fact, the
   * monthly target 52 and the fact as a percentage of 13.
   */
  lemma {:induction false} SubmittedReviewsRow(form: ReviewForm, timestamp: string, n: int)
    requires ParseIntValue(form.fact) == Some(n) && n >= 0
    ensures RequestOf(ReviewsPayloadOf(form)).Some?
    ensures var r := RequestOf(ReviewsPayloadOf(form)).value;
      ValidReviews(r)
      && ReviewsRow(timestamp, r)[3] == PyInt(13)
      && ReviewsRow(timestamp, r)[4] == PyInt(n)
      && ReviewsRow(timestamp, r)[5] == PyInt(52)
      && ReviewsRow(timestamp, r)[6] == PyFloat(PercentOfPlan(n as real, 13.0))
  {
  }

  /** The history column the total adds up. */
  const FactKey: string := "Факт отзывов"

  /**
   * `item['Факт отзывов'] || 0` as a whole number: a missing or falsy cell
   * counts 0, true counts 1 and a whole-valued float (3.0 arrives as the
   * number 3) counts as that number. None for a cell JavaScript would not add
   * as a whole number (non-empty text, a number with a fractional part).
   */
  function FactOf(item: Record): (fact: Option<int>)
    ensures FactKey in item && item[FactKey].Float? ==>
      (fact.Some? <==> item[FactKey].f == item[FactKey].f.Floor as real)
    ensures fact.Some? && FactKey in item && item[FactKey].Float? ==> fact.value as real == item[FactKey].f
  {
    if FactKey !in item then Some(0)
    else match item[FactKey]
      case Int(i) => Some(i)
      case Bool(b) => Some(if b then 1 else 0)
      case Text(s) => if s == "" then Some(0) else None
      case Float(f) => if f == f.Floor as real then Some(f.Floor) else None
  }

  /** totalReviews: `history.reduce((sum, item) => sum + fact, 0)`. */
  function TotalReviews(history: seq<Record>): (total: Option<int>)
    ensures total.Some? <==> forall i :: 0 <= i < |history| ==> FactOf(history[i]).Some?
    ensures history == [] ==> total == Some(0)
  {
    if history == [] then Some(0)
    else match (TotalReviews(history[..|history| - 1]), FactOf(history[|history| - 1]))
      case (Some(total), Some(fact)) => Some(total + fact)
      case _ => None
  }

  /** A fact cell holding a whole-valued float, as 3.0 arrives from the server, adds its whole number. */
  lemma {:induction false} WholeFloatFactCounts(history: seq<Record>, n: int)
    requires forall i :: 0 <= i < |history| ==> FactOf(history[i]).Some?
    ensures TotalReviews(history + [map[FactKey := Float(n as real)]])
      == Some(TotalReviews(history).value + n)
  {
    var item := map[FactKey := Float(n as real)];
    var all := history + [item];
    assert all[..|all| - 1] == history;
    assert (n as real).Floor == n;
    assert FactOf(item) == Some(n);
  }

  /** The total of two stretches of history is the sum of their totals. */
  lemma {:induction false} TotalReviewsAppend(a: seq<Record>, b: seq<Record>)
    ensures TotalReviews(a + b).Some? <==> TotalReviews(a).Some? && TotalReviews(b).Some?
    ensures TotalReviews(a + b).Some? ==> TotalReviews(a + b).value == TotalReviews(a).value + TotalReviews(b).value
    decreases |b|
  {
    if b == [] {
      assert a + b == a;
    } else {
      var n := |b| - 1;
      assert (a + b)[..|a + b| - 1] == a + b[..n];
      assert (a + b)[|a + b| - 1] == b[n];
      TotalReviewsAppend(a, b[..n]);
    }
  }

  /** The order in which the history arrives does not change the total. */
  lemma {:induction false} TotalReviewsIgnoresOrder(a: seq<Record>, b: seq<Record>)
    ensures TotalReviews(a + b) == TotalReviews(b + a)
  {
    TotalReviewsAppend(a, b);
    TotalReviewsAppend(b, a);
  }

  /** Non-negative facts give a non-negative total. */
  lemma {:induction false} TotalReviewsNonNegative(history: seq<Record>)
    requires forall i :: 0 <= i < |history| ==> FactOf(history[i]).Some? ==> FactOf(history[i]).value >= 0
    ensures TotalReviews(history).Some? ==> TotalReviews(history).value >= 0
  {
    if history != [] {
      TotalReviewsNonNegative(history[..|history| - 1]);
    }
  }

  /** A history of server-written rows, each with an integer fact, totals the sum of those facts. */
  lemma {:induction false} TotalReviewsOfFacts(history: seq<Record>, facts: seq<int>)
    requires |facts| == |history|
    requires forall i :: 0 <= i < |history| ==> FactKey in history[i] && history[i][FactKey] == Int(facts[i])
    ensures TotalReviews(history) == Some(Sum(facts))
  {
    if history != [] {
      var n := |history| - 1;
      TotalReviewsOfFacts(history[..n], facts[..n]);
    }
  }

  // ---------------------------------------------------------------- dashboard fallback

  /** The metrics the fallback dashboard lists. */
  const FallbackMetrics: seq<Metric> := [MorningEvents, FieldVisits, OneOnOne, MasterPlans]

  /** The summary set when loading the dashboard fails. */
  const DashboardFallback: map<string, Entry> := map[
    "morning_events" := Entry(0, ClientBranchGoals["morning_events"], 0.0, "Утренние мероприятия"),
    "field_visits" := Entry(0, ClientBranchGoals["field_visits"], 0.0, "Полевые выходы"),
    "one_on_one" := Entry(0, ClientBranchGoals["one_on_one"], 0.0, "One-on-One"),
    "master_plans" := Entry(0, ClientBranchGoals["master_plans"], 0.0, "Планы мастеров")
  ]

  /**
   * Each metric the fallback lists shows what the server would report for a
   * spreadsheet without worksheets: no records, the table's goal, 0 percent.
   */
  lemma {:induction false} FallbackIsEmptyDashboard(m: Metric, month: string)
    requires m in FallbackMetrics
    ensures Key(m) in DashboardFallback
    ensures DashboardFallback[Key(m)] == FinalEntry(map[], month, m)
    ensures DashboardFallback[Key(m)].current == 0 && DashboardFallback[Key(m)].percentage == 0.0
    ensures Key(m) in BranchGoals && DashboardFallback[Key(m)].goal == BranchGoals[Key(m)]
  {
    GoalIsTableEntry(m);
    assert 0.0 / Goal(m) as real * 100.0 == 0.0;
    PyRound1OfTenths(0.0);
  }

  /** The fallback lists four of the seven metrics: the weekly reports, reviews and new employees are missing. */
  lemma FallbackKeys()
    ensures DashboardFallback.Keys < BranchGoals.Keys
    ensures forall m :: Key(m) in DashboardFallback <==> m in FallbackMetrics
  {
    forall m
      ensures Key(m) in DashboardFallback <==> m in FallbackMetrics
    {
      MetricOfKeyOfMetric(m);
    }
    assert "weekly_reports" !in DashboardFallback;
  }
}
