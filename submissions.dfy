/**
 * The server's submission endpoints: the bounds the request models put on
 * each form, the row each submitted item becomes (one cell per header, the
 * submission timestamp first), the percentages and the field-visit overall
 * score written into those rows, and the insertion of the rows, one by one,
 * at sheet row 2 of the form's worksheet.
 */
module Submissions {
  import opened Wrappers
  import opened Text
  import opened Calendar
  import opened Rounding
  import opened Sums
  import opened Goals
  import opened Performance
  import opened Sheets
  import opened Counting
  import opened Helpers
  import opened Dashboard

  // ---------------------------------------------------------------- clock

  /** A wall-clock reading, as datetime.now() gives it. */
  datatype DateTime = DateTime(date: Date, hour: int, minute: int, second: int)

  predicate ValidDateTime(t: DateTime) {
    ValidDate(t.date) && 1 <= t.date.year <= 9999
    && 0 <= t.hour < 24 && 0 <= t.minute < 60 && 0 <= t.second < 60
  }

  /** The "%Y-%m-%d" part of a timestamp. */
  function DatePart(t: DateTime): string
    requires ValidDateTime(t)
  {
    IntString(t.date.year) + "-" + TwoDigits(t.date.month) + "-" + TwoDigits(t.date.day)
  }

  /** strftime("%Y-%m-%d %H:%M:%S"). */
  function Timestamp(t: DateTime): string
    requires ValidDateTime(t)
  {
    DatePart(t) + " " + TwoDigits(t.hour) + ":" + TwoDigits(t.minute) + ":" + TwoDigits(t.second)
  }

  /** A number from 1000 to 9999 is written with four digits. */
  lemma {:induction false} DecimalStringOfFourDigits(n: nat)
    requires 1000 <= n <= 9999
    ensures |DecimalString(n)| == 4
  {
    var tens, hundreds, thousands := n / 10, n / 100, n / 1000;
    assert tens / 10 == hundreds && hundreds / 10 == thousands;
    assert |DecimalString(thousands)| == 1;
    assert |DecimalString(hundreds)| == 2;
    assert |DecimalString(tens)| == 3;
  }

  /** Two-digit fields hold neither whitespace nor a dash. */
  lemma TwoDigitsPlain(n: nat)
    requires n < 100
    ensures NoSpace(TwoDigits(n)) && '-' !in TwoDigits(n)
  {
    var s := TwoDigits(n);
    assert IsDigit(s[0]) && IsDigit(s[1]);
  }

  /** The first word of a timestamp is its date part. */
  lemma {:induction false} TimestampFirstWord(t: DateTime)
    requires ValidDateTime(t)
    ensures FirstWord(Timestamp(t)) == Some(DatePart(t))
  {
    var ys, ms, ds := IntString(t.date.year), TwoDigits(t.date.month), TwoDigits(t.date.day);
    var word := DatePart(t);
    var rest := TwoDigits(t.hour) + ":" + TwoDigits(t.minute) + ":" + TwoDigits(t.second);
    assert Timestamp(t) == word + [' '] + rest;
    TwoDigitsPlain(t.date.month);
    TwoDigitsPlain(t.date.day);
    IntStringHasNoSpace(t.date.year);
    assert NoSpace("-") by {
      assert !IsSpace('-');
    }
    NoSpaceAppend(ys, "-");
    NoSpaceAppend(ys + "-", ms);
    NoSpaceAppend(ys + "-" + ms, "-");
    NoSpaceAppend(ys + "-" + ms + "-", ds);
    FirstWordOfWordThenSpace(word, ' ', rest);
  }

  /** The date part splits at its dashes into the year, month and day fields. */
  lemma {:induction false} SplitDatePart(t: DateTime)
    requires ValidDateTime(t)
    ensures Split(DatePart(t), '-') == [IntString(t.date.year), TwoDigits(t.date.month), TwoDigits(t.date.day)]
  {
    var ys, ms, ds := IntString(t.date.year), TwoDigits(t.date.month), TwoDigits(t.date.day);
    TwoDigitsPlain(t.date.month);
    TwoDigitsPlain(t.date.day);
    assert '-' !in ys by {
      assert AllDigits(ys);
    }
    assert DatePart(t) == ys + ['-'] + (ms + ['-'] + ds);
    SplitOfJoined(ys, '-', ms + ['-'] + ds);
    SplitOfJoined(ms, '-', ds);
  }

  /** Three dash-separated fields of four, two and two digits naming a valid date are read as that date. */
  lemma {:induction false} ParseYmdOfFields(s: string, ys: string, ms: string, ds: string)
    requires Split(s, '-') == [ys, ms, ds]
    requires |ys| == 4 && AllDigits(ys) && |ms| == 2 && AllDigits(ms) && |ds| == 2 && AllDigits(ds)
    requires 1 <= DigitsValue(ys) && ValidDate(Date(DigitsValue(ys), DigitsValue(ms), DigitsValue(ds)))
    ensures ParseYmd(s) == Some(Date(DigitsValue(ys), DigitsValue(ms), DigitsValue(ds)))
  {
  }

  /** strptime reads the date part of a timestamp from year 1000 on back as the date it was written from. */
  lemma {:induction false} DatePartParses(t: DateTime)
    requires ValidDateTime(t) && 1000 <= t.date.year
    ensures ParseYmd(DatePart(t)) == Some(t.date)
  {
    SplitDatePart(t);
    DecimalStringOfFourDigits(t.date.year);
    DigitsValueOfDecimal(t.date.year);
    ParseYmdOfFields(DatePart(t), IntString(t.date.year), TwoDigits(t.date.month), TwoDigits(t.date.day));
  }

  /**
   * A record whose submission timestamp was written at `now` is read back
   * under the date of `now`, so it counts for the month `now` falls in.
   */
  lemma {:induction false} TimestampCountsInItsMonth(r: Record, now: DateTime)
    requires ValidDateTime(now) && 1000 <= now.date.year
    requires SubmittedKey in r && r[SubmittedKey] == Text(Timestamp(now))
    ensures RecordDay(r) == Some(now.date)
    ensures Counted(r, MonthLabel(now.date.month, now.date.year))
  {
    assert RecordDateField(r) == Text(Timestamp(now));
    TimestampFirstWord(now);
    DatePartParses(now);
  }

  // ---------------------------------------------------------------- request models

  /** MorningEvent: week 1..53, participants 0..100, efficiency 1..5. */
  datatype MorningEvent = MorningEvent(
    week: int, date: string, eventType: string, participants: int, efficiency: int,
    comment: Option<string>)

  predicate ValidMorningEvent(e: MorningEvent) {
    1 <= e.week <= 53 && 0 <= e.participants <= 100 && 1 <= e.efficiency <= 5
  }

  /** FieldVisit: every rating 1..10. */
  datatype FieldVisit = FieldVisit(
    date: string, masterName: string,
    haircutQuality: int, serviceQuality: int,
    additionalServicesComment: string, additionalServicesRating: int,
    cosmeticsComment: string, cosmeticsRating: int,
    standardsComment: string, standardsRating: int,
    errorsComment: string, nextCheckDate: Option<string>)

  /** The five ratings, in the order the overall score adds them. */
  function Ratings(v: FieldVisit): seq<int> {
    [v.haircutQuality, v.serviceQuality, v.additionalServicesRating, v.cosmeticsRating, v.standardsRating]
  }

  predicate ValidFieldVisit(v: FieldVisit) {
    AllWithin(Ratings(v), 1, 10)
  }

  datatype OneOnOneMeeting = OneOnOneMeeting(
    date: string, masterName: string, goal: string, results: string,
    developmentPlan: string, indicator: string, nextMeetingDate: Option<string>)

  /** WeeklyMetrics: every plan and fact at least 0. */
  datatype WeeklyMetrics = WeeklyMetrics(
    period: string,
    averageCheckPlan: real, averageCheckFact: real,
    cosmeticsPlan: real, cosmeticsFact: real,
    additionalServicesPlan: real, additionalServicesFact: real)

  predicate ValidWeeklyMetrics(w: WeeklyMetrics) {
    w.averageCheckPlan >= 0.0 && w.averageCheckFact >= 0.0
    && w.cosmeticsPlan >= 0.0 && w.cosmeticsFact >= 0.0
    && w.additionalServicesPlan >= 0.0 && w.additionalServicesFact >= 0.0
  }

  datatype NewbieAdaptation = NewbieAdaptation(
    startDate: string, name: string, haircutPractice: string, serviceStandards: string,
    hygieneSanitation: string, additionalServices: string, cosmeticsSales: string,
    iclientBasics: string, status: string)

  /** MasterPlan: every plan and fact at least 0; the additional-service counts are whole numbers. */
  datatype MasterPlan = MasterPlan(
    month: string, masterName: string,
    averageCheckPlan: real, averageCheckFact: real,
    additionalServicesPlan: int, additionalServicesFact: int,
    salesPlan: real, salesFact: real,
    salaryPlan: real, salaryFact: real)

  predicate ValidMasterPlan(p: MasterPlan) {
    p.averageCheckPlan >= 0.0 && p.averageCheckFact >= 0.0
    && p.additionalServicesPlan >= 0 && p.additionalServicesFact >= 0
    && p.salesPlan >= 0.0 && p.salesFact >= 0.0
    && p.salaryPlan >= 0.0 && p.salaryFact >= 0.0
  }

  /** Reviews: plan and monthly target may be omitted; then they are 13 and 52. */
  datatype ReviewsRequest = ReviewsRequest(
    week: string, managerName: string, plan: Option<int>, fact: int, monthlyTarget: Option<int>)

  const DefaultReviewPlan: int := 13
  const DefaultMonthlyTarget: int := 52

  function ReviewPlan(r: ReviewsRequest): int {
    r.plan.GetOr(DefaultReviewPlan)
  }

  function MonthlyTarget(r: ReviewsRequest): int {
    r.monthlyTarget.GetOr(DefaultMonthlyTarget)
  }

  predicate ValidReviews(r: ReviewsRequest) {
    ReviewPlan(r) >= 0 && r.fact >= 0 && MonthlyTarget(r) >= 0
  }

  // ---------------------------------------------------------------- cell values

  /** str() of an optional string field: None prints as "None". */
  function StrOf(o: Option<string>): string {
    match o
    case None => "None"
    case Some(s) => s
  }

  /** `str(x) if x else ""` for an optional date. */
  function DateOrBlank(o: Option<string>): string {
    match o
    case None => ""
    case Some(s) => s
  }

  /** `float(round(fact / plan * 100, 1) if plan > 0 else 0)`. */
  function PercentCell(fact: real, plan: real): (c: PyValue)
    ensures c == PyFloat(PercentOfPlan(fact, plan)) && IsTenths(c.f)
    ensures plan <= 0.0 ==> c.f == 0.0
    ensures plan > 0.0 ==> -0.05 <= c.f - fact / plan * 100.0 <= 0.05
    ensures fact >= 0.0 ==> c.f >= 0.0
  {
    if fact >= 0.0 then
      PercentNonNegative(fact, plan);
      PyFloat(PercentOfPlan(fact, plan))
    else PyFloat(PercentOfPlan(fact, plan))
  }

  // ---------------------------------------------------------------- overall score

  /** `round((five ratings added up) / 5, 1)`. */
  function OverallScore(v: FieldVisit): real {
    PyRound1((v.haircutQuality + v.serviceQuality + v.additionalServicesRating
      + v.cosmeticsRating + v.standardsRating) as real / 5.0)
  }

  lemma RatingsSum(v: FieldVisit)
    ensures Sum(Ratings(v)) == v.haircutQuality + v.serviceQuality + v.additionalServicesRating
      + v.cosmeticsRating + v.standardsRating
  {
    var a, b, c, d, e := v.haircutQuality, v.serviceQuality, v.additionalServicesRating,
      v.cosmeticsRating, v.standardsRating;
    assert Sum([a]) == a by {
      assert [a][..0] == [];
    }
    assert Sum([a, b]) == a + b by {
      assert [a, b][..1] == [a];
    }
    assert Sum([a, b, c]) == a + b + c by {
      assert [a, b, c][..2] == [a, b];
    }
    assert Sum([a, b, c, d]) == a + b + c + d by {
      assert [a, b, c, d][..3] == [a, b, c];
    }
    assert Ratings(v)[..4] == [a, b, c, d];
  }

  /** A fifth of a whole number has at most one decimal, so rounding to one decimal changes nothing. */
  lemma {:induction false} FifthIsTenths(n: int)
    ensures IsTenths(n as real / 5.0)
  {
    assert n as real / 5.0 * 10.0 == (2 * n) as real;
  }

  /** The overall score is exactly the mean of the five ratings: the rounding never bites. */
  lemma {:induction false} OverallScoreIsMean(v: FieldVisit)
    ensures OverallScore(v) == Sum(Ratings(v)) as real / 5.0
  {
    RatingsSum(v);
    FifthIsTenths(Sum(Ratings(v)));
    PyRound1OfTenths(Sum(Ratings(v)) as real / 5.0);
  }

  /** With every rating in 1..10 the score is in [1, 10]. */
  lemma {:induction false} OverallScoreWithinRatings(v: FieldVisit)
    ensures ValidFieldVisit(v) ==> 1.0 <= OverallScore(v) <= 10.0
  {
    if ValidFieldVisit(v) {
      OverallScoreIsMean(v);
      SumBounds(Ratings(v), 1, 10);
    }
  }

  /** Five equal ratings r give the score r. */
  lemma {:induction false} OverallScoreOfEqualRatings(v: FieldVisit, r: int)
    requires AllWithin(Ratings(v), r, r)
    ensures OverallScore(v) == r as real
  {
    OverallScoreIsMean(v);
    SumConstant(Ratings(v), r);
  }

  /** Which rating is which does not matter to the score. */
  lemma {:induction false} OverallScoreIgnoresOrder(v: FieldVisit, w: FieldVisit)
    requires multiset(Ratings(v)) == multiset(Ratings(w))
    ensures OverallScore(v) == OverallScore(w)
  {
    OverallScoreIsMean(v);
    OverallScoreIsMean(w);
    SumPermutation(Ratings(v), Ratings(w));
  }

  // ---------------------------------------------------------------- headers and rows

  const MorningHeaders: seq<string> :=
    ["Дата отправки", "Дата", "Неделя", "Тип мероприятия", "Участники", "Эффективность", "Комментарий"]

  const FieldHeaders: seq<string> := [
    "Дата отправки", "Дата", "Имя мастера", "Качество стрижек", "Качество сервиса",
    "Комментарий доп. услуги", "Оценка доп. услуги", "Комментарий косметика",
    "Оценка косметика", "Комментарий стандарты", "Оценка стандарты",
    "Выявленные ошибки", "Общая оценка", "Дата следующей проверки"
  ]

  const OneOnOneHeaders: seq<string> :=
    ["Дата отправки", "Дата встречи", "Имя мастера", "Стояла цель", "Результаты работы",
     "План развития", "Показатель", "Дата следующей встречи"]

  const WeeklyHeaders: seq<string> :=
    ["Дата отправки", "Период", "Средний чек (план)", "Средний чек (факт)", "Косметика (план)",
     "Косметика (факт)", "Доп. услуги (план)", "Доп. услуги (факт)", "Выполнение среднего чека %",
     "Выполнение косметики %", "Выполнение доп. услуг %"]

  const NewbieHeaders: seq<string> :=
    ["Дата отправки", "Дата начала", "Имя новичка", "Практика стрижек", "Стандарты сервиса",
     "Гигиена и санитария", "Доп. услуги", "Продажа косметики", "Основы iClient", "Статус адаптации"]

  const MasterHeaders: seq<string> :=
    ["Дата отправки", "Месяц", "Имя мастера", "Средний чек (план)", "Средний чек (факт)",
     "Доп. услуги кол-во (план)", "Доп. услуги кол-во (факт)", "Объем продаж (план)",
     "Объем продаж (факт)", "Зарплата (план)", "Зарплата (факт)", "Выполнение среднего чека %",
     "Выполнение доп. услуг %", "Выполнение продаж %", "Выполнение зарплаты %"]

  const ReviewsHeaders: seq<string> :=
    ["Дата отправки", "Неделя", "Имя управляющего", "План отзывов", "Факт отзывов",
     "Целевой показатель за месяц", "Выполнение недели %"]

  const SummaryTitle: string := "Сводка"

  const SummaryHeaders: seq<string> :=
    ["Дата отправки", "Филиал", "Управляющий", "Месяц", "Метрика", "Текущее количество",
     "Цель на месяц", "Выполнение %"]

  /** A row fits its header list: one cell per header, the timestamp under "Дата отправки". */
  predicate Fits(row: seq<PyValue>, headers: seq<string>, timestamp: string) {
    |row| == |headers| && |headers| >= 1 && headers[0] == SubmittedKey && row[0] == PyStr(timestamp)
  }

  /** The number a numeric cell value stands for; 0 for anything else. */
  function NumberOf(v: PyValue): real {
    match v
    case PyInt(i) => i as real
    case PyFloat(f) => f
    case _ => 0.0
  }

  /** A one-decimal float cell. */
  predicate TenthsCell(v: PyValue) {
    v.PyFloat? && IsTenths(v.f)
  }

  /** Cell k holds the percentage of plan reached by the fact in cell fact against the plan in cell plan. */
  predicate PercentOfColumns(row: seq<PyValue>, k: nat, fact: nat, plan: nat)
    requires k < |row| && fact < |row| && plan < |row|
  {
    row[k] == PyFloat(PercentOfPlan(NumberOf(row[fact]), NumberOf(row[plan])))
  }

  function MorningRow(timestamp: string, e: MorningEvent): (row: seq<PyValue>)
    ensures Fits(row, MorningHeaders, timestamp)
  {
    [PyStr(timestamp), PyStr(e.date), PyInt(e.week), PyStr(e.eventType),
     PyInt(e.participants), PyInt(e.efficiency), PyStr(StrOf(e.comment))]
  }

  /** The field-visit row; its overall score lies in [1, 10] for a valid visit. */
  function FieldRow(timestamp: string, v: FieldVisit): (row: seq<PyValue>)
    ensures Fits(row, FieldHeaders, timestamp)
    ensures row[12] == PyFloat(Sum(Ratings(v)) as real / 5.0)
    ensures ValidFieldVisit(v) ==> 1.0 <= row[12].f <= 10.0
  {
    OverallScoreIsMean(v);
    OverallScoreWithinRatings(v);
    [PyStr(timestamp), PyStr(v.date), PyStr(v.masterName),
     PyInt(v.haircutQuality), PyInt(v.serviceQuality),
     PyStr(v.additionalServicesComment), PyInt(v.additionalServicesRating),
     PyStr(v.cosmeticsComment), PyInt(v.cosmeticsRating),
     PyStr(v.standardsComment), PyInt(v.standardsRating),
     PyStr(v.errorsComment), PyFloat(OverallScore(v)), PyStr(DateOrBlank(v.nextCheckDate))]
  }

  function OneOnOneRow(timestamp: string, m: OneOnOneMeeting): (row: seq<PyValue>)
    ensures Fits(row, OneOnOneHeaders, timestamp)
  {
    [PyStr(timestamp), PyStr(m.date), PyStr(m.masterName), PyStr(m.goal), PyStr(m.results),
     PyStr(m.developmentPlan), PyStr(m.indicator), PyStr(DateOrBlank(m.nextMeetingDate))]
  }

  /**
   * The weekly row: the plan and fact of the average check, cosmetics and
   * additional services, then each pair's percentage of plan; for valid
   * metrics those percentages are non-negative tenths.
   */
  function WeeklyRow(timestamp: string, w: WeeklyMetrics): (row: seq<PyValue>)
    ensures Fits(row, WeeklyHeaders, timestamp)
    ensures row[2] == PyFloat(w.averageCheckPlan) && row[3] == PyFloat(w.averageCheckFact)
    ensures row[4] == PyFloat(w.cosmeticsPlan) && row[5] == PyFloat(w.cosmeticsFact)
    ensures row[6] == PyFloat(w.additionalServicesPlan) && row[7] == PyFloat(w.additionalServicesFact)
    ensures PercentOfColumns(row, 8, 3, 2) && PercentOfColumns(row, 9, 5, 4) && PercentOfColumns(row, 10, 7, 6)
    ensures TenthsCell(row[8]) && TenthsCell(row[9]) && TenthsCell(row[10])
    ensures ValidWeeklyMetrics(w) ==> row[8].f >= 0.0 && row[9].f >= 0.0 && row[10].f >= 0.0
  {
    [PyStr(timestamp), PyStr(w.period),
     PyFloat(w.averageCheckPlan), PyFloat(w.averageCheckFact),
     PyFloat(w.cosmeticsPlan), PyFloat(w.cosmeticsFact),
     PyFloat(w.additionalServicesPlan), PyFloat(w.additionalServicesFact),
     PercentCell(w.averageCheckFact, w.averageCheckPlan),
     PercentCell(w.cosmeticsFact, w.cosmeticsPlan),
     PercentCell(w.additionalServicesFact, w.additionalServicesPlan)]
  }

  function NewbieRow(timestamp: string, a: NewbieAdaptation): (row: seq<PyValue>)
    ensures Fits(row, NewbieHeaders, timestamp)
  {
    [PyStr(timestamp), PyStr(a.startDate), PyStr(a.name), PyStr(a.haircutPractice),
     PyStr(a.serviceStandards), PyStr(a.hygieneSanitation), PyStr(a.additionalServices),
     PyStr(a.cosmeticsSales), PyStr(a.iclientBasics), PyStr(a.status)]
  }

  /**
   * The master-plan row: the plan and fact of the average check, additional
   * services, sales and salary, then each pair's percentage of plan; for a
   * valid plan those percentages are non-negative tenths.
   */
  function MasterRow(timestamp: string, p: MasterPlan): (row: seq<PyValue>)
    ensures Fits(row, MasterHeaders, timestamp)
    ensures row[3] == PyFloat(p.averageCheckPlan) && row[4] == PyFloat(p.averageCheckFact)
    ensures row[5] == PyInt(p.additionalServicesPlan) && row[6] == PyInt(p.additionalServicesFact)
    ensures row[7] == PyFloat(p.salesPlan) && row[8] == PyFloat(p.salesFact)
    ensures row[9] == PyFloat(p.salaryPlan) && row[10] == PyFloat(p.salaryFact)
    ensures PercentOfColumns(row, 11, 4, 3) && PercentOfColumns(row, 12, 6, 5)
    ensures PercentOfColumns(row, 13, 8, 7) && PercentOfColumns(row, 14, 10, 9)
    ensures TenthsCell(row[11]) && TenthsCell(row[12]) && TenthsCell(row[13]) && TenthsCell(row[14])
    ensures ValidMasterPlan(p) ==> row[11].f >= 0.0 && row[12].f >= 0.0 && row[13].f >= 0.0 && row[14].f >= 0.0
  {
    [PyStr(timestamp), PyStr(p.month), PyStr(p.masterName),
     PyFloat(p.averageCheckPlan), PyFloat(p.averageCheckFact),
     PyInt(p.additionalServicesPlan), PyInt(p.additionalServicesFact),
     PyFloat(p.salesPlan), PyFloat(p.salesFact),
     PyFloat(p.salaryPlan), PyFloat(p.salaryFact),
     PercentCell(p.averageCheckFact, p.averageCheckPlan),
     PercentCell(p.additionalServicesFact as real, p.additionalServicesPlan as real),
     PercentCell(p.salesFact, p.salesPlan),
     PercentCell(p.salaryFact, p.salaryPlan)]
  }

  /**
   * The reviews row; plan and monthly target fall back to 13 and 52 when
   * omitted, and the week's percentage is the fact's percentage of the plan
   * written beside it.
   */
  function ReviewsRow(timestamp: string, r: ReviewsRequest): (row: seq<PyValue>)
    ensures Fits(row, ReviewsHeaders, timestamp)
    ensures row[3] == PyInt(ReviewPlan(r)) && row[4] == PyInt(r.fact)
    ensures row[6] == PyFloat(PercentOfPlan(r.fact as real, ReviewPlan(r) as real))
    ensures PercentOfColumns(row, 6, 4, 3)
    ensures r.plan.None? ==> row[3] == PyInt(13)
    ensures r.monthlyTarget.None? ==> row[5] == PyInt(52)
    ensures row[6].PyFloat? && (ValidReviews(r) ==> row[6].f >= 0.0)
  {
    [PyStr(timestamp), PyStr(r.week), PyStr(r.managerName),
     PyInt(ReviewPlan(r)), PyInt(r.fact), PyInt(MonthlyTarget(r)),
     PercentCell(r.fact as real, ReviewPlan(r) as real)]
  }

  /** One branch-summary row: the metric's count for the month, its goal and the percentage reached. */
  function SummaryRow(timestamp: string, branch: string, manager: string, month: string, m: Metric, current: nat)
    : (row: seq<PyValue>)
    ensures Fits(row, SummaryHeaders, timestamp)
    ensures row[4] == PyStr(SummaryName(m)) && Key(m) in BranchGoals && row[6] == PyInt(BranchGoals[Key(m)])
    ensures row[7].PyFloat? && row[7].f >= 0.0
    ensures -0.05 <= row[7].f - current as real / Goal(m) as real * 100.0 <= 0.05
  {
    GoalIsTableEntry(m);
    [PyStr(timestamp), PyStr(branch), PyStr(manager), PyStr(month), PyStr(SummaryName(m)),
     PyInt(current), PyInt(Goal(m)), PercentCell(current as real, Goal(m) as real)]
  }

  /** The seven counts of the metrics list, in the order of BRANCH_GOALS. */
  function SummaryCounts(records: map<string, seq<Record>>, month: string): (counts: seq<nat>)
    ensures |counts| == |AllMetrics|
  {
    seq(|AllMetrics|, i requires 0 <= i < |AllMetrics| => SheetCount(records, SheetTitle(AllMetrics[i]), month))
  }

  /** The rows of the metrics loop, one per metric, in the order of BRANCH_GOALS. */
  function SummaryRows(timestamp: string, branch: string, manager: string, month: string, counts: seq<nat>)
    : (rows: seq<seq<PyValue>>)
    requires |counts| == |AllMetrics|
    ensures |rows| == |AllMetrics|
  {
    seq(|AllMetrics|, i requires 0 <= i < |AllMetrics| =>
      SummaryRow(timestamp, branch, manager, month, AllMetrics[i], counts[i]))
  }

  /**
   * For the same records and month, the branch summary writes for each metric
   * the count, goal and percentage the dashboard shows for it.
   */
  lemma {:induction false} SummaryAgreesWithDashboard(timestamp: string, branch: string, manager: string,
                                                      month: string, records: map<string, seq<Record>>, i: nat)
    requires i < |AllMetrics|
    ensures var row := SummaryRows(timestamp, branch, manager, month, SummaryCounts(records, month))[i];
      var e := FinalEntry(records, month, AllMetrics[i]);
      row[4] == PyStr(SummaryName(AllMetrics[i]))
      && row[5] == PyInt(e.current) && row[6] == PyInt(e.goal) && row[7] == PyFloat(e.percentage)
  {
  }

  // ---------------------------------------------------------------- writing rows

  /** Each item of a batch turned into its row. */
  function RowsOf<T>(items: seq<T>, build: T -> seq<PyValue>): (rows: seq<seq<PyValue>>)
    ensures |rows| == |items|
    ensures forall i :: 0 <= i < |items| ==> rows[i] == build(items[i])
  {
    seq(|items|, i requires 0 <= i < |items| => build(items[i]))
  }

  function ConvertedRows(rows: seq<seq<PyValue>>): (converted: seq<Row>)
    ensures |converted| == |rows|
    ensures forall i :: 0 <= i < |rows| ==> converted[i] == Converted(rows[i])
  {
    seq(|rows|, i requires 0 <= i < |rows| => Converted(rows[i]))
  }

  /** A worksheet after ensure_sheet_exists and the insertion of a batch of rows. */
  function Submitted(sheets: map<string, seq<Row>>, title: string, headers: seq<string>,
                     rows: seq<seq<PyValue>>): seq<Row>
  {
    var base := WithHeaders(if title in sheets then Some(sheets[title]) else None, headers);
    InsertEachAtRowTwo(base, ConvertedRows(rows))
  }

  /**
   * After a submission the worksheet holds, under its first row, the new rows
   * newest first, each as wide as the header list, and below them every older
   * row unchanged and in order.
   */
  lemma {:induction false} SubmittedLayout(sheets: map<string, seq<Row>>, title: string, headers: seq<string>,
                                           rows: seq<seq<PyValue>>)
    requires forall k :: 0 <= k < |rows| ==> |rows[k]| == |headers|
    ensures var base := WithHeaders(if title in sheets then Some(sheets[title]) else None, headers);
      var after := Submitted(sheets, title, headers, rows);
      |after| == |base| + |rows|
      && after[0] == base[0]
      && after[1 + |rows|..] == base[1..]
      && forall k :: 1 <= k <= |rows| ==> after[k] == Converted(rows[|rows| - k]) && |after[k]| == |headers|
  {
    var base := WithHeaders(if title in sheets then Some(sheets[title]) else None, headers);
    var converted := ConvertedRows(rows);
    InsertEachShape(base, converted);
    var after := base[..1] + Reversed(converted) + base[1..];
    assert after[1 + |rows|..] == base[1..];
    forall k | 1 <= k <= |rows|
      ensures after[k] == Converted(rows[|rows| - k])
    {
      ReversedAt(converted, k - 1);
    }
  }

  /** The loop `for item in items: insert_row_at_top(worksheet, row)`. */
  method InsertEach(book: Spreadsheet, title: string, rows: seq<seq<PyValue>>)
    requires title in book.sheets
    modifies book
    ensures book.sheets == old(book.sheets)[title := InsertEachAtRowTwo(old(book.sheets)[title], ConvertedRows(rows))]
  {
    ghost var before := book.sheets;
    for i := 0 to |rows|
      invariant book.sheets == before[title := InsertEachAtRowTwo(before[title], ConvertedRows(rows[..i]))]
    {
      book.InsertRowAtTop(title, rows[i]);
      assert ConvertedRows(rows[..i + 1])[..i] == ConvertedRows(rows[..i]);
    }
    assert rows[..|rows|] == rows;
  }

  /** Making sure of the worksheet and then inserting the rows one by one is a submission. */
  lemma {:induction false} EnsureThenInsert(before: map<string, seq<Row>>, ensured: map<string, seq<Row>>,
                                            after: map<string, seq<Row>>, title: string, headers: seq<string>,
                                            rows: seq<seq<PyValue>>)
    requires ensured == before[title := WithHeaders(if title in before then Some(before[title]) else None, headers)]
    requires after == ensured[title := InsertEachAtRowTwo(ensured[title], ConvertedRows(rows))]
    ensures after == before[title := Submitted(before, title, headers, rows)]
  {
  }

  /** ensure_sheet_exists, then each row inserted at row 2. */
  method SubmitRows(book: Spreadsheet, title: string, headers: seq<string>, rows: seq<seq<PyValue>>)
    modifies book
    ensures book.sheets == old(book.sheets)[title := Submitted(old(book.sheets), title, headers, rows)]
  {
    book.EnsureSheetExists(title, headers);
    InsertEach(book, title, rows);
  }

  /** submit_morning_events. */
  method SubmitMorningEvents(book: Spreadsheet, now: DateTime, events: seq<MorningEvent>)
    requires ValidDateTime(now)
    requires forall i :: 0 <= i < |events| ==> ValidMorningEvent(events[i])
    modifies book
    ensures book.sheets == old(book.sheets)[SheetTitle(MorningEvents) :=
      Submitted(old(book.sheets), SheetTitle(MorningEvents), MorningHeaders,
                RowsOf(events, e => MorningRow(Timestamp(now), e)))]
  {
    var timestamp := Timestamp(now);
    SubmitRows(book, SheetTitle(MorningEvents), MorningHeaders, RowsOf(events, e => MorningRow(timestamp, e)));
  }

  /** submit_field_visits. */
  method SubmitFieldVisits(book: Spreadsheet, now: DateTime, visits: seq<FieldVisit>)
    requires ValidDateTime(now)
    requires forall i :: 0 <= i < |visits| ==> ValidFieldVisit(visits[i])
    modifies book
    ensures book.sheets == old(book.sheets)[SheetTitle(FieldVisits) :=
      Submitted(old(book.sheets), SheetTitle(FieldVisits), FieldHeaders,
                RowsOf(visits, v => FieldRow(Timestamp(now), v)))]
  {
    var timestamp := Timestamp(now);
    SubmitRows(book, SheetTitle(FieldVisits), FieldHeaders, RowsOf(visits, v => FieldRow(timestamp, v)));
  }

  /** submit_one_on_one. */
  method SubmitOneOnOne(book: Spreadsheet, now: DateTime, meetings: seq<OneOnOneMeeting>)
    requires ValidDateTime(now)
    modifies book
    ensures book.sheets == old(book.sheets)[SheetTitle(OneOnOne) :=
      Submitted(old(book.sheets), SheetTitle(OneOnOne), OneOnOneHeaders,
                RowsOf(meetings, m => OneOnOneRow(Timestamp(now), m)))]
  {
    var timestamp := Timestamp(now);
    SubmitRows(book, SheetTitle(OneOnOne), OneOnOneHeaders, RowsOf(meetings, m => OneOnOneRow(timestamp, m)));
  }

  /** submit_weekly_metrics: a single row. */
  method SubmitWeeklyMetrics(book: Spreadsheet, now: DateTime, metrics: WeeklyMetrics)
    requires ValidDateTime(now) && ValidWeeklyMetrics(metrics)
    modifies book
    ensures book.sheets == old(book.sheets)[SheetTitle(WeeklyReports) :=
      Submitted(old(book.sheets), SheetTitle(WeeklyReports), WeeklyHeaders, [WeeklyRow(Timestamp(now), metrics)])]
  {
    var timestamp := Timestamp(now);
    SubmitRows(book, SheetTitle(WeeklyReports), WeeklyHeaders, [WeeklyRow(timestamp, metrics)]);
  }

  /** submit_newbie_adaptation. */
  method SubmitNewbieAdaptation(book: Spreadsheet, now: DateTime, adaptations: seq<NewbieAdaptation>)
    requires ValidDateTime(now)
    modifies book
    ensures book.sheets == old(book.sheets)[SheetTitle(NewEmployees) :=
      Submitted(old(book.sheets), SheetTitle(NewEmployees), NewbieHeaders,
                RowsOf(adaptations, a => NewbieRow(Timestamp(now), a)))]
  {
    var timestamp := Timestamp(now);
    SubmitRows(book, SheetTitle(NewEmployees), NewbieHeaders, RowsOf(adaptations, a => NewbieRow(timestamp, a)));
  }

  /** submit_master_plans. */
  method SubmitMasterPlans(book: Spreadsheet, now: DateTime, plans: seq<MasterPlan>)
    requires ValidDateTime(now)
    requires forall i :: 0 <= i < |plans| ==> ValidMasterPlan(plans[i])
    modifies book
    ensures book.sheets == old(book.sheets)[SheetTitle(MasterPlans) :=
      Submitted(old(book.sheets), SheetTitle(MasterPlans), MasterHeaders,
                RowsOf(plans, p => MasterRow(Timestamp(now), p)))]
  {
    var timestamp := Timestamp(now);
    SubmitRows(book, SheetTitle(MasterPlans), MasterHeaders, RowsOf(plans, p => MasterRow(timestamp, p)));
  }

  /** submit_reviews: a single row. */
  method SubmitReviews(book: Spreadsheet, now: DateTime, review: ReviewsRequest)
    requires ValidDateTime(now) && ValidReviews(review)
    modifies book
    ensures book.sheets == old(book.sheets)[SheetTitle(Reviews) :=
      Submitted(old(book.sheets), SheetTitle(Reviews), ReviewsHeaders, [ReviewsRow(Timestamp(now), review)])]
  {
    var timestamp := Timestamp(now);
    SubmitRows(book, SheetTitle(Reviews), ReviewsHeaders, [ReviewsRow(timestamp, review)]);
  }

  /** The `metrics` list of submit_branch_summary: one count per worksheet, in the order of BRANCH_GOALS. */
  method CountMetrics(records: map<string, seq<Record>>, month: string) returns (counts: seq<nat>)
    ensures counts == SummaryCounts(records, month)
  {
    var morning := CountRecordsForMonth(records, SheetTitle(MorningEvents), month);
    var field := CountRecordsForMonth(records, SheetTitle(FieldVisits), month);
    var oneOnOne := CountRecordsForMonth(records, SheetTitle(OneOnOne), month);
    var weekly := CountRecordsForMonth(records, SheetTitle(WeeklyReports), month);
    var masterPlans := CountRecordsForMonth(records, SheetTitle(MasterPlans), month);
    var reviews := CountRecordsForMonth(records, SheetTitle(Reviews), month);
    var newEmployees := CountRecordsForMonth(records, SheetTitle(NewEmployees), month);
    counts := [morning, field, oneOnOne, weekly, masterPlans, reviews, newEmployees];
    forall i | 0 <= i < |AllMetrics|
      ensures counts[i] == SummaryCounts(records, month)[i]
    {
      assert counts[i] == SheetCount(records, SheetTitle(AllMetrics[i]), month);
    }
  }

  /**
   * submit_branch_summary. `records` is what each worksheet's records read
   * as when the counts are taken; the seven counts are taken before any
   * summary row is written.
   */
  method SubmitBranchSummary(book: Spreadsheet, now: DateTime, records: map<string, seq<Record>>,
                             branch: string, manager: string, month: string)
    requires ValidDateTime(now)
    modifies book
    ensures book.sheets == old(book.sheets)[SummaryTitle :=
      Submitted(old(book.sheets), SummaryTitle, SummaryHeaders,
                SummaryRows(Timestamp(now), branch, manager, month, SummaryCounts(records, month)))]
  {
    ghost var before := book.sheets;
    book.EnsureSheetExists(SummaryTitle, SummaryHeaders);
    ghost var ensured := book.sheets;
    var timestamp := Timestamp(now);
    var counts := CountMetrics(records, month);
    var rows := SummaryRows(timestamp, branch, manager, month, counts);
    InsertEach(book, SummaryTitle, rows);
    EnsureThenInsert(before, ensured, book.sheets, SummaryTitle, SummaryHeaders, rows);
  }
}
