/**
 * The fixed monthly goals every branch works towards, and the names under
 * which each metric appears: its dictionary key, the worksheet its records
 * live in, its dashboard label and its name in the branch summary sheet.
 */
module Goals {
  import opened Wrappers

  datatype Metric =
    | MorningEvents | FieldVisits | OneOnOne | WeeklyReports
    | MasterPlans | Reviews | NewEmployees

  /** The metrics in the order BRANCH_GOALS lists them. */
  const AllMetrics: seq<Metric> :=
    [MorningEvents, FieldVisits, OneOnOne, WeeklyReports, MasterPlans, Reviews, NewEmployees]

  function Key(m: Metric): string {
    match m
    case MorningEvents => "morning_events"
    case FieldVisits => "field_visits"
    case OneOnOne => "one_on_one"
    case WeeklyReports => "weekly_reports"
    case MasterPlans => "master_plans"
    case Reviews => "reviews"
    case NewEmployees => "new_employees"
  }

  /** The server's BRANCH_GOALS table. */
  const BranchGoals: map<string, int> := map[
    "morning_events" := 16,
    "field_visits" := 4,
    "one_on_one" := 6,
    "weekly_reports" := 4,
    "master_plans" := 10,
    "reviews" := 60,
    "new_employees" := 10
  ]

  /** The browser's copy of BRANCH_GOALS. */
  const ClientBranchGoals: map<string, int> := map[
    "morning_events" := 16,
    "field_visits" := 4,
    "one_on_one" := 6,
    "weekly_reports" := 4,
    "master_plans" := 10,
    "reviews" := 60,
    "new_employees" := 10
  ]

  /** Every metric has an entry in BRANCH_GOALS, and every such goal is positive. */
  lemma {:induction false} GoalIsTableEntry(m: Metric)
    ensures Key(m) in BranchGoals && BranchGoals[Key(m)] > 0
  {
    match m
    case MorningEvents =>
    case FieldVisits =>
    case OneOnOne =>
    case WeeklyReports =>
    case MasterPlans =>
    case Reviews =>
    case NewEmployees =>
  }

  /** The goal of a metric: its entry in BRANCH_GOALS. */
  function Goal(m: Metric): (g: int)
    ensures g > 0
  {
    GoalIsTableEntry(m);
    BranchGoals[Key(m)]
  }

  /** Reading a key back to its metric: the inverse of Key. */
  function MetricOfKey(k: string): (m: Option<Metric>)
    ensures m.Some? ==> Key(m.value) == k
  {
    if k == "morning_events" then Some(MorningEvents)
    else if k == "field_visits" then Some(FieldVisits)
    else if k == "one_on_one" then Some(OneOnOne)
    else if k == "weekly_reports" then Some(WeeklyReports)
    else if k == "master_plans" then Some(MasterPlans)
    else if k == "reviews" then Some(Reviews)
    else if k == "new_employees" then Some(NewEmployees)
    else None
  }

  lemma {:induction false} MetricOfKeyOfMetric(m: Metric)
    ensures MetricOfKey(Key(m)) == Some(m)
  {
    match m
    case MorningEvents =>
    case FieldVisits => assert Key(m)[0] != 'm';
    case OneOnOne => assert Key(m)[0] !in "mfw";
    case WeeklyReports => assert Key(m)[0] !in "mfo";
    case MasterPlans => assert |Key(m)| != 14 && Key(m)[0] !in "fow";
    case Reviews => assert Key(m)[0] !in "mfow";
    case NewEmployees => assert Key(m)[0] !in "mfowr";
  }

  /** Distinct metrics have distinct keys. */
  lemma {:induction false} KeyInjective(a: Metric, b: Metric)
    requires Key(a) == Key(b)
    ensures a == b
  {
    MetricOfKeyOfMetric(a);
    MetricOfKeyOfMetric(b);
  }

  /** Every key of the table names a metric, so the table has no other entries. */
  lemma {:induction false} GoalTableHasOnlyMetrics(k: string)
    requires k in BranchGoals
    ensures MetricOfKey(k).Some?
  {
  }

  /** Server and browser hold the same goals. */
  lemma ClientGoalsMatchServer()
    ensures ClientBranchGoals == BranchGoals
  {
  }

  /** The worksheet whose records are counted for the metric. */
  function SheetTitle(m: Metric): string {
    match m
    case MorningEvents => "Утренние мероприятия"
    case FieldVisits => "Полевые выходы"
    case OneOnOne => "One-on-One"
    case WeeklyReports => "Еженедельные показатели"
    case MasterPlans => "Планы мастеров"
    case Reviews => "Отзывы"
    case NewEmployees => "Адаптация новичков"
  }

  /** The label the dashboard shows. */
  function DashboardLabel(m: Metric): string {
    match m
    case MorningEvents => "Утренние мероприятия"
    case FieldVisits => "Полевые выходы"
    case OneOnOne => "One-on-One"
    case WeeklyReports => "Еженедельные отчёты"
    case MasterPlans => "Планы мастеров"
    case Reviews => "Отзывы"
    case NewEmployees => "Новые сотрудники"
  }

  /** The metric's name in a branch summary row. */
  function SummaryName(m: Metric): string {
    match m
    case MorningEvents => "Утренние мероприятия"
    case FieldVisits => "Полевые выходы"
    case OneOnOne => "One-on-One встречи"
    case WeeklyReports => "Еженедельные отчёты"
    case MasterPlans => "Индивидуальные планы"
    case Reviews => "Отзывы"
    case NewEmployees => "Новые сотрудники"
  }

  /** The order in which the dashboard summary is assembled. */
  const DashboardOrder: seq<Metric> :=
    [MorningEvents, FieldVisits, OneOnOne, MasterPlans, WeeklyReports, Reviews, NewEmployees]

  /** The dashboard covers every metric exactly once. */
  lemma DashboardOrderCoversMetrics(m: Metric)
    ensures m in DashboardOrder && m in AllMetrics
    ensures forall i, j :: 0 <= i < j < |DashboardOrder| ==> DashboardOrder[i] != DashboardOrder[j]
  {
  }
}
