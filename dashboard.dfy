/**
 * The dashboard summary: for each metric, how many records the current month
 * holds, the metric's goal, the percentage of the goal reached and a label.
 * The clock reading is a parameter; the spreadsheet is given as its records
 * by worksheet title.
 */
module Dashboard {
  import opened Calendar
  import opened Text
  import opened Goals
  import opened Counting
  import opened Performance
  import opened Helpers

  datatype Entry = Entry(current: nat, goal: int, percentage: real, caption: string)

  /** The server's own month-name list. */
  const ServerMonthNames: seq<string> :=
    ["Январь", "Февраль", "Март", "Апрель", "Май", "Июнь",
     "Июль", "Август", "Сентябрь", "Октябрь", "Ноябрь", "Декабрь"]

  /** current_month: `now.month` counts from 1; the label equals the browser's getCurrentMonth. */
  function CurrentMonth(now: Date): (text: string)
    requires ValidDate(now)
    ensures text == MonthLabel(now.month, now.year)
    ensures text == GetCurrentMonth(now)
  {
    ServerMonthNames[now.month - 1] + " " + IntString(now.year)
  }

  /** The entry a metric ends with. */
  function FinalEntry(book: map<string, seq<Record>>, month: string, m: Metric): Entry {
    var current := SheetCount(book, SheetTitle(m), month);
    Entry(current, Goal(m), PercentOfPlan(current as real, Goal(m) as real), DashboardLabel(m))
  }

  /** The entry a metric starts with: the count, the goal and the label, percentage 0. */
  function StartEntry(book: map<string, seq<Record>>, month: string, m: Metric): Entry {
    Entry(SheetCount(book, SheetTitle(m), month), Goal(m), 0.0, DashboardLabel(m))
  }

  /** The summary dictionary as first assembled, every percentage still 0. */
  function InitialSummary(book: map<string, seq<Record>>, month: string): map<string, Entry> {
    SevenEntries(
      StartEntry(book, month, MorningEvents), StartEntry(book, month, FieldVisits),
      StartEntry(book, month, OneOnOne), StartEntry(book, month, MasterPlans),
      StartEntry(book, month, WeeklyReports), StartEntry(book, month, Reviews),
      StartEntry(book, month, NewEmployees))
  }

  /** A dictionary with one entry per metric, in BRANCH_GOALS order. */
  function SevenEntries(a: Entry, b: Entry, c: Entry, d: Entry, e: Entry, f: Entry, g: Entry): map<string, Entry> {
    map[
      Key(MorningEvents) := a, Key(FieldVisits) := b, Key(OneOnOne) := c, Key(MasterPlans) := d,
      Key(WeeklyReports) := e, Key(Reviews) := f, Key(NewEmployees) := g
    ]
  }

  /** Such a dictionary has exactly the keys of BRANCH_GOALS, and each metric's key holds its own entry. */
  lemma {:induction false} SevenEntriesAt(a: Entry, b: Entry, c: Entry, d: Entry, e: Entry, f: Entry, g: Entry, m: Metric)
    ensures SevenEntries(a, b, c, d, e, f, g).Keys == BranchGoals.Keys
    ensures Key(m) in SevenEntries(a, b, c, d, e, f, g)
    ensures SevenEntries(a, b, c, d, e, f, g)[Key(m)]
      == match m
         case MorningEvents => a case FieldVisits => b case OneOnOne => c case MasterPlans => d
         case WeeklyReports => e case Reviews => f case NewEmployees => g
  {
    assert SevenEntries(a, b, c, d, e, f, g).Keys == {
      "morning_events", "field_visits", "one_on_one", "master_plans", "weekly_reports", "reviews", "new_employees"
    };
    match m
    case MorningEvents =>
    case FieldVisits =>
    case OneOnOne =>
    case MasterPlans =>
    case WeeklyReports =>
    case Reviews =>
    case NewEmployees =>
  }

  /** The summary as first assembled has exactly the keys of BRANCH_GOALS. */
  lemma {:induction false} InitialSummaryKeys(book: map<string, seq<Record>>, month: string)
    ensures InitialSummary(book, month).Keys == BranchGoals.Keys
  {
    SevenEntriesAt(
      StartEntry(book, month, MorningEvents), StartEntry(book, month, FieldVisits),
      StartEntry(book, month, OneOnOne), StartEntry(book, month, MasterPlans),
      StartEntry(book, month, WeeklyReports), StartEntry(book, month, Reviews),
      StartEntry(book, month, NewEmployees), MorningEvents);
  }

  /** Each metric starts with its count, its goal, its label and percentage 0. */
  lemma {:induction false} InitialSummaryAt(book: map<string, seq<Record>>, month: string, m: Metric)
    ensures Key(m) in InitialSummary(book, month)
    ensures InitialSummary(book, month)[Key(m)] == StartEntry(book, month, m)
  {
    SevenEntriesAt(
      StartEntry(book, month, MorningEvents), StartEntry(book, month, FieldVisits),
      StartEntry(book, month, OneOnOne), StartEntry(book, month, MasterPlans),
      StartEntry(book, month, WeeklyReports), StartEntry(book, month, Reviews),
      StartEntry(book, month, NewEmployees), m);
  }

  /**
   * The dictionary literal of get_dashboard_summary, one count per worksheet;
   * `BRANCH_GOALS[key]` is Goal(m).
   */
  method AssembleSummary(book: map<string, seq<Record>>, month: string) returns (summary: map<string, Entry>)
    ensures summary == InitialSummary(book, month)
  {
    var morning := CountRecordsForMonth(book, SheetTitle(MorningEvents), month);
    var field := CountRecordsForMonth(book, SheetTitle(FieldVisits), month);
    var oneOnOne := CountRecordsForMonth(book, SheetTitle(OneOnOne), month);
    var masterPlans := CountRecordsForMonth(book, SheetTitle(MasterPlans), month);
    var weekly := CountRecordsForMonth(book, SheetTitle(WeeklyReports), month);
    var reviews := CountRecordsForMonth(book, SheetTitle(Reviews), month);
    var newEmployees := CountRecordsForMonth(book, SheetTitle(NewEmployees), month);
    summary := map[
      Key(MorningEvents) := Entry(morning, Goal(MorningEvents), 0.0, DashboardLabel(MorningEvents)),
      Key(FieldVisits) := Entry(field, Goal(FieldVisits), 0.0, DashboardLabel(FieldVisits)),
      Key(OneOnOne) := Entry(oneOnOne, Goal(OneOnOne), 0.0, DashboardLabel(OneOnOne)),
      Key(MasterPlans) := Entry(masterPlans, Goal(MasterPlans), 0.0, DashboardLabel(MasterPlans)),
      Key(WeeklyReports) := Entry(weekly, Goal(WeeklyReports), 0.0, DashboardLabel(WeeklyReports)),
      Key(Reviews) := Entry(reviews, Goal(Reviews), 0.0, DashboardLabel(Reviews)),
      Key(NewEmployees) := Entry(newEmployees, Goal(NewEmployees), 0.0, DashboardLabel(NewEmployees))
    ];
  }

  /** Writing f(m) under Key(m) for each metric m of ms, in order. */
  function Overwrite(base: map<string, Entry>, ms: seq<Metric>, f: Metric -> Entry): map<string, Entry> {
    if ms == [] then base
    else
      var m := ms[|ms| - 1];
      Overwrite(base, ms[..|ms| - 1], f)[Key(m) := f(m)]
  }

  /** After the writes, a metric's key holds f(m) when m was written, and its old entry otherwise. */
  lemma {:induction false} OverwriteAt(base: map<string, Entry>, ms: seq<Metric>, f: Metric -> Entry, m: Metric)
    ensures Key(m) in Overwrite(base, ms, f) <==> Key(m) in base || m in ms
    ensures m in ms ==> Overwrite(base, ms, f)[Key(m)] == f(m)
    ensures m !in ms && Key(m) in base ==> Overwrite(base, ms, f)[Key(m)] == base[Key(m)]
  {
    if ms != [] {
      var init := ms[..|ms| - 1];
      var last := ms[|ms| - 1];
      OverwriteAt(base, init, f, m);
      assert m in ms <==> m in init || m == last;
      if m != last && Key(m) == Key(last) {
        KeyInjective(m, last);
      }
    }
  }

  /** Overwriting only keys already present keeps the key set. */
  lemma {:induction false} OverwriteKeys(base: map<string, Entry>, ms: seq<Metric>, f: Metric -> Entry)
    requires forall m :: m in ms ==> Key(m) in base
    ensures Overwrite(base, ms, f).Keys == base.Keys
  {
    if ms != [] {
      OverwriteKeys(base, ms[..|ms| - 1], f);
    }
  }

  /** The entry the loop gives each metric. */
  function Finals(book: map<string, seq<Record>>, month: string): Metric -> Entry {
    m => FinalEntry(book, month, m)
  }

  /** The summary once the percentage loop has passed over the first i metrics of DashboardOrder. */
  function PartialSummary(book: map<string, seq<Record>>, month: string, i: nat): map<string, Entry>
    requires i <= |DashboardOrder|
  {
    Overwrite(InitialSummary(book, month), DashboardOrder[..i], Finals(book, month))
  }

  /** Once the loop has visited every metric, the keys are those of BRANCH_GOALS and every entry holds its final value. */
  lemma {:induction false} FullSummary(book: map<string, seq<Record>>, month: string)
    ensures PartialSummary(book, month, |DashboardOrder|).Keys == BranchGoals.Keys
    ensures forall m: Metric ::
      Key(m) in PartialSummary(book, month, |DashboardOrder|)
      && PartialSummary(book, month, |DashboardOrder|)[Key(m)] == FinalEntry(book, month, m)
  {
    var init := InitialSummary(book, month);
    var all := DashboardOrder[..|DashboardOrder|];
    assert all == DashboardOrder;
    InitialSummaryKeys(book, month);
    forall m | m in all
      ensures Key(m) in init
    {
      InitialSummaryAt(book, month, m);
    }
    OverwriteKeys(init, all, Finals(book, month));
    forall m: Metric
      ensures Key(m) in PartialSummary(book, month, |DashboardOrder|)
        && PartialSummary(book, month, |DashboardOrder|)[Key(m)] == FinalEntry(book, month, m)
    {
      DashboardOrderCoversMetrics(m);
      OverwriteAt(init, all, Finals(book, month), m);
    }
  }

  /**
   * In a list without repeats, metric i has not been written before step i,
   * and step i writes it on top of the first i writes.
   */
  lemma {:induction false} OverwriteStep(base: map<string, Entry>, ms: seq<Metric>, f: Metric -> Entry, i: nat)
    requires i < |ms| && Key(ms[i]) in base
    requires forall a, b :: 0 <= a < b < |ms| ==> ms[a] != ms[b]
    ensures Key(ms[i]) in Overwrite(base, ms[..i], f)
    ensures Overwrite(base, ms[..i], f)[Key(ms[i])] == base[Key(ms[i])]
    ensures Overwrite(base, ms[..i + 1], f) == Overwrite(base, ms[..i], f)[Key(ms[i]) := f(ms[i])]
  {
    var done := ms[..i];
    assert ms[i] !in done by {
      forall k | 0 <= k < i
        ensures done[k] != ms[i]
      {
        assert ms[k] != ms[i];
      }
    }
    OverwriteAt(base, done, f, ms[i]);
    assert ms[..i + 1][..i] == done;
  }

  /** One step of the loop: the metric at position i still holds its start entry, and writing its final entry gives the next partial summary. */
  lemma {:induction false} PartialSummaryStep(book: map<string, seq<Record>>, month: string, i: nat)
    requires i < |DashboardOrder|
    ensures Key(DashboardOrder[i]) in PartialSummary(book, month, i)
    ensures PartialSummary(book, month, i)[Key(DashboardOrder[i])] == StartEntry(book, month, DashboardOrder[i])
    ensures PartialSummary(book, month, i + 1)
      == PartialSummary(book, month, i)[Key(DashboardOrder[i]) := FinalEntry(book, month, DashboardOrder[i])]
  {
    DashboardOrderCoversMetrics(DashboardOrder[i]);
    InitialSummaryAt(book, month, DashboardOrder[i]);
    OverwriteStep(InitialSummary(book, month), DashboardOrder, Finals(book, month), i);
  }

  /** get_dashboard_summary on a successful run. */
  method DashboardSummary(book: map<string, seq<Record>>, now: Date) returns (summary: map<string, Entry>)
    requires ValidDate(now)
    ensures summary.Keys == BranchGoals.Keys
    ensures forall m: Metric :: Key(m) in summary && summary[Key(m)] == FinalEntry(book, CurrentMonth(now), m)
  {
    var month := CurrentMonth(now);
    summary := AssembleSummary(book, month);
    for i := 0 to |DashboardOrder|
      invariant summary == PartialSummary(book, month, i)
    {
      var m := DashboardOrder[i];
      var key := Key(m);
      PartialSummaryStep(book, month, i);
      if summary[key].goal > 0 {
        var entry := summary[key];
        summary := summary[key := entry.(percentage := PercentOfPlan(entry.current as real, entry.goal as real))];
      }
    }
    FullSummary(book, month);
  }

  /** Each metric's current value is the number of its sheet's records dated in the clock's month. */
  lemma {:induction false} CurrentCountsThisMonth(book: map<string, seq<Record>>, now: Date, m: Metric)
    requires ValidDate(now) && SheetTitle(m) in book
    ensures var records := book[SheetTitle(m)];
      FinalEntry(book, CurrentMonth(now), m).current
        == |set i | 0 <= i < |records| && DatedIn(records[i], now.month, now.year)|
  {
    CountForLabel(book[SheetTitle(m)], now.month, now.year);
  }

  /** Every percentage on the dashboard is current / goal * 100 to one decimal, never negative. */
  lemma {:induction false} PercentagesMatchCounts(book: map<string, seq<Record>>, month: string, m: Metric)
    ensures var e := FinalEntry(book, month, m);
      e.goal > 0 && e.percentage >= 0.0
      && -0.05 <= e.percentage - e.current as real / e.goal as real * 100.0 <= 0.05
      && (e.current >= e.goal ==> e.percentage >= 100.0)
  {
    var e := FinalEntry(book, month, m);
    PercentNonNegative(e.current as real, e.goal as real);
    if e.current >= e.goal {
      PlanBeatenIsAtLeastHundred(e.current as real, e.goal as real);
    }
  }
}
