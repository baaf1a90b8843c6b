/**
 * count_records_for_month: how many records of a worksheet fall in a month
 * given as a label such as "Март 2024". A record's date is its submission
 * timestamp, or its own date when the timestamp is empty; only its first word
 * is read, as YYYY-MM-DD. Records whose date is missing or unreadable are
 * skipped, and a missing worksheet counts 0.
 */
module Counting {
  import opened Wrappers
  import opened Text
  import opened Calendar
  import opened Sheets
  import opened Helpers

  /** A record as get_all_records gives it: header name to cell. */
  type Record = map<string, Cell>

  const SubmittedKey: string := "Дата отправки"
  const DateKey: string := "Дата"

  /** Python truthiness of a cell's value. */
  predicate Truthy(c: Cell) {
    match c
    case Text(s) => s != ""
    case Int(i) => i != 0
    case Float(f) => f != 0.0
    case Bool(b) => b
  }

  /** record.get(key, ''). */
  function Get(r: Record, key: string): Cell {
    if key in r then r[key] else Text("")
  }

  /** `record.get('Дата отправки', '') or record.get('Дата', '')`. */
  function RecordDateField(r: Record): Cell {
    var submitted := Get(r, SubmittedKey);
    if Truthy(submitted) then submitted else Get(r, DateKey)
  }

  /**
   * datetime.strptime(s, "%Y-%m-%d"): exactly four digits of year, one or two
   * of month and of day, and a real calendar date from year 1 on.
   */
  function ParseYmd(s: string): (d: Option<Date>)
    ensures d.Some? ==> ValidDate(d.value) && 1 <= d.value.year <= 9999
  {
    var parts := Split(s, '-');
    if |parts| == 3
       && |parts[0]| == 4 && AllDigits(parts[0])
       && 1 <= |parts[1]| <= 2 && AllDigits(parts[1])
       && 1 <= |parts[2]| <= 2 && AllDigits(parts[2])
    then
      DigitsValueOfFour(parts[0]);
      var d := Date(DigitsValue(parts[0]), DigitsValue(parts[1]), DigitsValue(parts[2]));
      if d.year >= 1 && ValidDate(d) then Some(d) else None
    else None
  }

  /**
   * The date a record is counted under. None where the source skips the record:
   * an empty field, a cell that is not text (`.split` raises), a blank text
   * (`split()[0]` raises), or a first word strptime rejects.
   */
  function RecordDay(r: Record): Option<Date> {
    var c := RecordDateField(r);
    if !Truthy(c) || !c.Text? then None
    else match FirstWord(c.s)
      case None => None
      case Some(word) => ParseYmd(word)
  }

  /** strftime("%B") in the C locale. */
  const EnglishMonthNames: seq<string> :=
    ["January", "February", "March", "April", "May", "June",
     "July", "August", "September", "October", "November", "December"]

  /** The translation table inside count_records_for_month. */
  const MonthsRu: map<string, string> := map[
    "January" := "Январь", "February" := "Февраль", "March" := "Март",
    "April" := "Апрель", "May" := "Май", "June" := "Июнь",
    "July" := "Июль", "August" := "Август", "September" := "Сентябрь",
    "October" := "Октябрь", "November" := "Ноябрь", "December" := "Декабрь"
  ]

  /** `f"{months_ru.get(month_en, month_en)} {year}"` for the words of strftime("%B %Y"). */
  function RecordMonthLabel(d: Date): (text: string)
    requires ValidDate(d)
    ensures text == MonthLabel(d.month, d.year)
  {
    var monthEn := EnglishMonthNames[d.month - 1];
    var monthRu := if monthEn in MonthsRu then MonthsRu[monthEn] else monthEn;
    monthRu + " " + IntString(d.year)
  }

  /** Whether the record adds one to the count for `month`. */
  predicate Counted(r: Record, month: string) {
    match RecordDay(r)
    case None => false
    case Some(d) => RecordMonthLabel(d) == month
  }

  /** A record counts for the month of a label exactly when its date lies in that month of that year. */
  lemma {:induction false} CountedIffSameMonth(r: Record, m: int, y: int)
    requires 1 <= m <= 12
    ensures Counted(r, MonthLabel(m, y)) <==>
      RecordDay(r).Some? && RecordDay(r).value.month == m && RecordDay(r).value.year == y
  {
    if Counted(r, MonthLabel(m, y)) {
      var d := RecordDay(r).value;
      MonthLabelInjective(d.month, d.year, m, y);
    }
  }

  /** A filled-in submission timestamp decides the month, whatever the record's own date says. */
  lemma {:induction false} SubmittedDateTakesPrecedence(r: Record, own: Cell, month: string)
    requires Truthy(Get(r, SubmittedKey))
    ensures Counted(r[DateKey := own], month) == Counted(r, month)
  {
    assert Get(r[DateKey := own], SubmittedKey) == Get(r, SubmittedKey);
  }

  /** With the timestamp empty, the record's own date decides. */
  lemma {:induction false} OwnDateWhenNoTimestamp(r: Record, month: string)
    requires !Truthy(Get(r, SubmittedKey))
    ensures Counted(r, month) == Counted(map[DateKey := Get(r, DateKey)], month)
  {
    assert Get(map[DateKey := Get(r, DateKey)], SubmittedKey) == Text("");
  }

  /** The count over a list of records, record by record. */
  function CountMatching(records: seq<Record>, month: string): (n: nat)
    ensures n <= |records|
  {
    if records == [] then 0
    else CountMatching(records[..|records| - 1], month) + (if Counted(records[|records| - 1], month) then 1 else 0)
  }

  /** Which records count, position by position. */
  function CountedFlags(records: seq<Record>, month: string): (flags: seq<bool>)
    ensures |flags| == |records|
    ensures forall i :: 0 <= i < |records| ==> flags[i] == Counted(records[i], month)
  {
    seq(|records|, i requires 0 <= i < |records| => Counted(records[i], month))
  }

  /** Positions holding true. */
  function TrueIndices(flags: seq<bool>): set<int> {
    set i | 0 <= i < |flags| && flags[i]
  }

  function CountTrue(flags: seq<bool>): nat {
    if flags == [] then 0 else CountTrue(flags[..|flags| - 1]) + (if flags[|flags| - 1] then 1 else 0)
  }

  lemma {:induction false} CountTrueIsCardinality(flags: seq<bool>)
    ensures CountTrue(flags) == |TrueIndices(flags)|
  {
    if flags != [] {
      var n := |flags| - 1;
      var init := flags[..n];
      CountTrueIsCardinality(init);
      var last := if flags[n] then {n} else {};
      assert TrueIndices(flags) == TrueIndices(init) + last;
      assert n !in TrueIndices(init);
    }
  }

  lemma {:induction false} CountMatchingIsCountTrue(records: seq<Record>, month: string)
    ensures CountMatching(records, month) == CountTrue(CountedFlags(records, month))
  {
    if records != [] {
      var n := |records| - 1;
      CountMatchingIsCountTrue(records[..n], month);
      assert CountedFlags(records, month)[..n] == CountedFlags(records[..n], month);
    }
  }

  /**
   * The count is the number of positions whose record counts: the reference
   * definition of the filter loop.
   */
  lemma {:induction false} CountIsNumberOfCounted(records: seq<Record>, month: string)
    ensures CountMatching(records, month) == |set i | 0 <= i < |records| && Counted(records[i], month)|
  {
    var flags := CountedFlags(records, month);
    CountMatchingIsCountTrue(records, month);
    CountTrueIsCardinality(flags);
    assert TrueIndices(flags) == set i | 0 <= i < |records| && Counted(records[i], month);
  }

  /** Counting two lists one after the other adds up. */
  lemma {:induction false} CountConcat(a: seq<Record>, b: seq<Record>, month: string)
    ensures CountMatching(a + b, month) == CountMatching(a, month) + CountMatching(b, month)
    decreases |b|
  {
    if b == [] {
      assert a + b == a;
    } else {
      var n := |b| - 1;
      assert (a + b)[..|a + b| - 1] == a + b[..n];
      CountConcat(a, b[..n], month);
    }
  }

  /** The count for a worksheet title: 0 when there is no such worksheet. */
  function SheetCount(book: map<string, seq<Record>>, title: string, month: string): nat {
    if title in book then CountMatching(book[title], month) else 0
  }

  /** Counting one more record adds one exactly when that record counts. */
  lemma {:induction false} CountMatchingStep(records: seq<Record>, month: string, i: nat)
    requires i < |records|
    ensures CountMatching(records[..i + 1], month)
      == CountMatching(records[..i], month) + if Counted(records[i], month) then 1 else 0
  {
    assert records[..i + 1][..i] == records[..i];
  }

  /** count_records_for_month over a spreadsheet given as its records by sheet title. */
  method CountRecordsForMonth(book: map<string, seq<Record>>, title: string, month: string)
    returns (count: nat)
    ensures count == SheetCount(book, title, month)
    ensures count <= if title in book then |book[title]| else 0
  {
    if title !in book {
      return 0;
    }
    var records := book[title];
    count := 0;
    for i := 0 to |records|
      invariant count == CountMatching(records[..i], month)
    {
      CountMatchingStep(records, month, i);
      var record := records[i];
      var recordDate := RecordDateField(record);
      if Truthy(recordDate) && recordDate.Text? {
        var word := FirstWord(recordDate.s);
        if word.Some? {
          var dateObj := ParseYmd(word.value);
          if dateObj.Some? && RecordMonthLabel(dateObj.value) == month {
            count := count + 1;
          }
        }
      }
    }
    assert records[..|records|] == records;
  }

  /** The record's date lies in month m of year y. */
  predicate DatedIn(r: Record, m: int, y: int) {
    RecordDay(r).Some? && RecordDay(r).value.month == m && RecordDay(r).value.year == y
  }

  /** Counting for a month's label counts exactly the records dated in that month. */
  lemma {:induction false} CountForLabel(records: seq<Record>, m: int, y: int)
    requires 1 <= m <= 12
    ensures CountMatching(records, MonthLabel(m, y)) == |set i | 0 <= i < |records| && DatedIn(records[i], m, y)|
  {
    CountIsNumberOfCounted(records, MonthLabel(m, y));
    forall i | 0 <= i < |records|
      ensures Counted(records[i], MonthLabel(m, y)) == DatedIn(records[i], m, y)
    {
      CountedIffSameMonth(records[i], m, y);
    }
    assert (set i | 0 <= i < |records| && Counted(records[i], MonthLabel(m, y)))
        == (set i | 0 <= i < |records| && DatedIn(records[i], m, y));
  }
}
