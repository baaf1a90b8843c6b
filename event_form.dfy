/**
 * The browser's morning-events form: a list of rows the user adds to,
 * removes from and edits field by field; picking a date fills in the row's
 * week number. On submit each row becomes the payload the server's
 * MorningEvent model reads, with parseInt on the numeric fields and the week
 * falling back to the date's week number.
 */
module EventForm {
  import opened Wrappers
  import opened Text
  import opened Calendar
  import opened IsoWeek
  import opened Helpers

  /** A value held in the form: a string from an input, a number, or NaN. */
  datatype JsValue = Str(s: string) | Num(n: int) | NaN

  /** JavaScript truthiness. */
  predicate JsTruthy(v: JsValue) {
    match v
    case Str(s) => s != ""
    case Num(n) => n != 0
    case NaN => false
  }

  // ---------------------------------------------------------------- parseInt

  /** WhiteSpace and LineTerminator of ECMAScript, the characters parseInt skips. */
  predicate JsIsSpace(c: char) {
    || '\t' <= c <= '\r'
    || c == ' ' || c == '\U{A0}' || c == '\U{1680}'
    || '\U{2000}' <= c <= '\U{200A}'
    || c == '\U{2028}' || c == '\U{2029}' || c == '\U{202F}' || c == '\U{205F}'
    || c == '\U{3000}' || c == '\U{FEFF}'
  }

  function DropJsSpaces(s: string): (r: string)
    ensures |r| <= |s| && r == s[|s| - |r|..]
    ensures r != [] ==> !JsIsSpace(r[0])
  {
    if s != [] && JsIsSpace(s[0]) then DropJsSpaces(s[1..]) else s
  }

  /** A string that does not open with whitespace is left as it is. */
  lemma {:induction false} DropJsSpacesOfNonSpace(s: string)
    requires s != [] && !JsIsSpace(s[0])
    ensures DropJsSpaces(s) == s
  {
  }

  /** The longest run of decimal digits at the start of s. */
  function DigitRun(s: string): (w: string)
    ensures |w| <= |s| && w == s[..|w|] && AllDigits(w)
    ensures |w| < |s| ==> !IsDigit(s[|w|])
  {
    if s != [] && IsDigit(s[0]) then [s[0]] + DigitRun(s[1..]) else []
  }

  predicate IsHexDigit(c: char) {
    IsDigit(c) || 'a' <= c <= 'f' || 'A' <= c <= 'F'
  }

  predicate AllHex(s: string) {
    forall i :: 0 <= i < |s| ==> IsHexDigit(s[i])
  }

  function HexDigitValue(c: char): (n: int)
    requires IsHexDigit(c)
    ensures 0 <= n < 16
  {
    if IsDigit(c) then DigitValue(c)
    else if 'a' <= c <= 'f' then c as int - 'a' as int + 10
    else c as int - 'A' as int + 10
  }

  /** The longest run of hexadecimal digits at the start of s. */
  function HexRun(s: string): (w: string)
    ensures |w| <= |s| && w == s[..|w|] && AllHex(w)
    ensures |w| < |s| ==> !IsHexDigit(s[|w|])
  {
    if s != [] && IsHexDigit(s[0]) then [s[0]] + HexRun(s[1..]) else []
  }

  function HexValue(s: string): nat
    requires AllHex(s)
  {
    if s == [] then 0 else HexValue(s[..|s| - 1]) * 16 + HexDigitValue(s[|s| - 1])
  }

  /** The digits after the sign: hexadecimal after "0x" or "0X", decimal otherwise; None when there are none. */
  function Magnitude(u: string): Option<nat> {
    if |u| >= 2 && u[0] == '0' && (u[1] == 'x' || u[1] == 'X') then
      var h := HexRun(u[2..]);
      if h == [] then None else Some(HexValue(h))
    else
      var w := DigitRun(u);
      if w == [] then None else Some(DigitsValue(w))
  }

  /**
   * parseInt(s) without a radix: leading whitespace and one sign are skipped
   * and the longest run of digits is read; None stands for NaN, when there
   * is no digit to read.
   */
  function ParseInt(s: string): Option<int> {
    var t := DropJsSpaces(s);
    var negative := t != [] && t[0] == '-';
    var u := if t != [] && (t[0] == '-' || t[0] == '+') then t[1..] else t;
    match Magnitude(u)
    case None => None
    case Some(n) => Some(if negative then -(n as int) else n)
  }

  lemma {:induction false} DigitRunOfDigitsThen(w: string, rest: string)
    requires AllDigits(w) && (rest == [] || !IsDigit(rest[0]))
    ensures DigitRun(w + rest) == w
  {
    if w != [] {
      assert (w + rest)[1..] == w[1..] + rest;
      DigitRunOfDigitsThen(w[1..], rest);
      assert w == [w[0]] + w[1..];
    } else {
      assert w + rest == rest;
    }
  }

  /** A run of digits not opening a "0x" prefix is read as decimal, up to the first non-digit. */
  lemma {:induction false} MagnitudeOfDigits(w: string, rest: string)
    requires w != [] && AllDigits(w) && (rest == [] || !IsDigit(rest[0]))
    requires w == "0" && rest != [] ==> rest[0] != 'x' && rest[0] != 'X'
    ensures Magnitude(w + rest) == Some(DigitsValue(w))
  {
    var s := w + rest;
    DigitRunOfDigitsThen(w, rest);
    if |w| == 1 {
      assert |s| >= 2 ==> s[1] == rest[0];
    } else {
      assert s[1] == w[1] && IsDigit(s[1]);
    }
  }

  /** Without whitespace or sign in front, parseInt is the magnitude read from the start. */
  lemma {:induction false} ParseIntOfUnsigned(s: string)
    requires s != [] && IsDigit(s[0])
    ensures Magnitude(s).Some? ==> ParseInt(s) == Some(Magnitude(s).value)
  {
    assert !JsIsSpace(s[0]) && s[0] != '-' && s[0] != '+';
    DropJsSpacesOfNonSpace(s);
  }

  /** After a leading minus sign, parseInt is the negated magnitude read from the rest. */
  lemma {:induction false} ParseIntOfNegative(s: string)
    requires s != [] && s[0] == '-'
    ensures Magnitude(s[1..]).Some? ==> ParseInt(s) == Some(-(Magnitude(s[1..]).value as int))
  {
    assert !JsIsSpace(s[0]);
    DropJsSpacesOfNonSpace(s);
  }

  /** parseInt reads a run of digits up to the first character that is not one. */
  lemma {:induction false} ParseIntReadsLeadingDigits(w: string, rest: string)
    requires w != [] && AllDigits(w) && (rest == [] || !IsDigit(rest[0]))
    requires w == "0" && rest != [] ==> rest[0] != 'x' && rest[0] != 'X'
    ensures ParseInt(w + rest) == Some(DigitsValue(w))
  {
    var s := w + rest;
    assert s[0] == w[0];
    MagnitudeOfDigits(w, rest);
    ParseIntOfUnsigned(s);
  }

  /** parseInt gives back the integer a number prints as: parseInt(String(n)) == n. */
  lemma {:induction false} ParseIntOfIntString(n: int)
    ensures ParseInt(IntString(n)) == Some(n)
  {
    var m := if n >= 0 then n else -n;
    var digits := DecimalString(m);
    DigitsValueOfDecimal(m);
    assert digits + [] == digits;
    if n >= 0 {
      ParseIntReadsLeadingDigits(digits, []);
      assert ParseInt(digits) == Some(m);
    } else {
      var s := IntString(n);
      assert s == "-" + digits;
      assert s[1..] == digits;
      MagnitudeOfDigits(digits, []);
      assert Magnitude(s[1..]) == Some(m);
      ParseIntOfNegative(s);
      assert ParseInt(s) == Some(-m);
    }
  }

  /** parseInt of a form value: a number is printed first, NaN stays NaN. */
  function ParseIntValue(v: JsValue): (r: Option<int>)
    ensures v.Num? ==> r == Some(v.n)
    ensures v.NaN? ==> r.None?
  {
    match v
    case Str(s) => ParseInt(s)
    case Num(n) => ParseIntOfIntString(n); ParseInt(IntString(n))
    case NaN => None
  }

  // ---------------------------------------------------------------- rows

  datatype Field = WeekField | DateField | EventTypeField | ParticipantsField | EfficiencyField | CommentField

  datatype EventRow = EventRow(
    week: JsValue, date: JsValue, eventType: JsValue,
    participants: JsValue, efficiency: JsValue, comment: JsValue)

  /** A new row: everything blank but the efficiency, which starts at 1. */
  const BlankEvent: EventRow := EventRow(Str(""), Str(""), Str(""), Str(""), Num(1), Str(""))

  /** row[field]. */
  function Get(row: EventRow, field: Field): JsValue {
    match field
    case WeekField => row.week
    case DateField => row.date
    case EventTypeField => row.eventType
    case ParticipantsField => row.participants
    case EfficiencyField => row.efficiency
    case CommentField => row.comment
  }

  /** row[field] = value: that field takes the value and no other changes. */
  function Set(row: EventRow, field: Field, value: JsValue): (r: EventRow)
    ensures Get(r, field) == value
    ensures forall f :: f != field ==> Get(r, f) == Get(row, f)
  {
    match field
    case WeekField => row.(week := value)
    case DateField => row.(date := value)
    case EventTypeField => row.(eventType := value)
    case ParticipantsField => row.(participants := value)
    case EfficiencyField => row.(efficiency := value)
    case CommentField => row.(comment := value)
  }

  /** getWeekNumber(value) for what a date input yields; an unreadable date gives NaN. */
  function WeekFromDate(value: JsValue): (w: JsValue)
    ensures w.NaN? || (w.Num? && 1 <= w.n <= 53)
    ensures value.Str? && ParseIsoDate(value.s).Some? ==> w == Num(WeekNumber(ParseIsoDate(value.s).value))
  {
    if value.Str? then
      match ParseIsoDate(value.s)
      case Some(d) => Num(WeekNumber(d))
      case None => NaN
    else NaN
  }

  /**
   * getWeekNumber as the code writes it, with `new Date(y, 0, 1)` reading
   * years 0..99 as 1900 + y, gives the week WeekFromDate gives for every date
   * outside ISO years 0..99; inside them it gives a week below 1, which the
   * server's 1..53 bound on a morning event's week rejects.
   */
  lemma {:induction false} WeekFromDateAsWritten(value: JsValue, d: Date)
    requires value.Str? && ParseIsoDate(value.s) == Some(d)
    ensures !(0 <= IsoYear(d) <= 99) ==> WeekFromDate(value) == Num(WeekNumberAsWritten(d))
    ensures 0 <= IsoYear(d) <= 99 ==> WeekNumberAsWritten(d) < 1 && WeekFromDate(value) == Num(WeekNumber(d))
  {
    if 0 <= IsoYear(d) <= 99 {
      WeekNumberAsWrittenFailsBeforeYear100(d);
    }
  }

  /** The row after updateEvent(index, field, value). */
  function Updated(row: EventRow, field: Field, value: JsValue): (r: EventRow)
    ensures Get(r, field) == value
    ensures field == DateField && JsTruthy(value) ==> r.week == WeekFromDate(value)
    ensures forall f :: f != field && !(f == WeekField && field == DateField && JsTruthy(value)) ==>
      Get(r, f) == Get(row, f)
  {
    var r := Set(row, field, value);
    if field == DateField && JsTruthy(value) then Set(r, WeekField, WeekFromDate(value)) else r
  }

  /** The week cell is blank, NaN, or a week number. */
  predicate WeekWellFormed(w: JsValue) {
    w == Str("") || w.NaN? || (w.Num? && 1 <= w.n <= 53)
  }

  /** A filled-in date always carries its own week number. */
  predicate RowConsistent(row: EventRow) {
    WeekWellFormed(row.week) && (JsTruthy(row.date) ==> row.week == WeekFromDate(row.date))
  }

  /** Editing any field but the (read-only) week keeps the week in step with the date. */
  lemma {:induction false} UpdatedKeepsRowConsistent(row: EventRow, field: Field, value: JsValue)
    requires RowConsistent(row) && field != WeekField
    ensures RowConsistent(Updated(row, field, value))
  {
    var r := Updated(row, field, value);
    if field != DateField {
      assert Get(r, WeekField) == Get(row, WeekField);
      assert Get(r, DateField) == Get(row, DateField);
    } else if !JsTruthy(value) {
      assert Get(r, WeekField) == Get(row, WeekField);
    }
  }

  /** events.filter((_, i) => i !== index). */
  function WithoutIndex(events: seq<EventRow>, index: int): (r: seq<EventRow>)
    ensures |r| <= |events|
  {
    if events == [] then []
    else
      var last := |events| - 1;
      WithoutIndex(events[..last], index) + (if last != index then [events[last]] else [])
  }

  /** Removing deletes exactly the row at the index and keeps the others in order; any other index changes nothing. */
  lemma {:induction false} WithoutIndexRemovesOne(events: seq<EventRow>, index: int)
    ensures 0 <= index < |events| ==> WithoutIndex(events, index) == events[..index] + events[index + 1..]
    ensures !(0 <= index < |events|) ==> WithoutIndex(events, index) == events
  {
    if events != [] {
      var last := |events| - 1;
      var init := events[..last];
      WithoutIndexRemovesOne(init, index);
      if index == last {
        assert events[..index] == init && events[index + 1..] == [];
      } else if 0 <= index < last {
        assert init[..index] == events[..index];
        assert init[index + 1..] + [events[last]] == events[index + 1..];
      } else {
        assert init + [events[last]] == events;
      }
    }
  }

  // ---------------------------------------------------------------- submission

  /** One element of the submitted JSON array; None stands for NaN, which JSON writes as null. */
  datatype EventPayload = EventPayload(
    week: Option<int>, date: JsValue, eventType: JsValue,
    participants: Option<int>, efficiency: Option<int>, comment: JsValue)

  /** getWeekNumber(date) as a JSON number or null. */
  function WeekOfDate(date: JsValue): (w: Option<int>)
    ensures w.Some? ==> 1 <= w.value <= 53
  {
    match WeekFromDate(date)
    case Num(n) => Some(n)
    case _ => None
  }

  /** `parseInt(e.week) || getWeekNumber(e.date)`. */
  function SubmittedWeek(row: EventRow): Option<int> {
    match ParseIntValue(row.week)
    case Some(n) => if n != 0 then Some(n) else WeekOfDate(row.date)
    case None => WeekOfDate(row.date)
  }

  /** The object a row is mapped to on submit. */
  function Payload(row: EventRow): EventPayload {
    EventPayload(
      SubmittedWeek(row), row.date, row.eventType,
      ParseIntValue(row.participants), ParseIntValue(row.efficiency),
      if JsTruthy(row.comment) then row.comment else Str(""))
  }

  function Payloads(events: seq<EventRow>): (p: seq<EventPayload>)
    ensures |p| == |events|
    ensures forall i :: 0 <= i < |events| ==> p[i] == Payload(events[i])
  {
    seq(|events|, i requires 0 <= i < |events| => Payload(events[i]))
  }

  /**
   * In a row kept consistent by the form, the submitted week is the week
   * number of its date whenever the date can be read, a week in 1..53 (the
   * code as written differs for ISO years 0..99, see WeekFromDateAsWritten).
   */
  lemma {:induction false} SubmittedWeekFollowsDate(row: EventRow, d: Date)
    requires RowConsistent(row) && row.date.Str? && ParseIsoDate(row.date.s) == Some(d)
    ensures SubmittedWeek(row) == Some(WeekNumber(d))
    ensures 1 <= WeekNumber(d) <= 53
  {
    assert JsTruthy(row.date) by {
      assert |row.date.s| == 10;
    }
    assert row.week == Num(WeekNumber(d));
  }

  /** A row whose week was never filled in falls back to its date's week, or null. */
  lemma {:induction false} BlankWeekFallsBackToDate(row: EventRow)
    requires row.week == Str("")
    ensures SubmittedWeek(row) == WeekOfDate(row.date)
  {
    assert DropJsSpaces("") == "";
  }

  /**
   * A row whose week and date are still blank, whose efficiency is 1 and
   * whose comment is blank, as a new row is, submits efficiency 1, an empty
   * comment and a null week.
   */
  lemma {:induction false} UntouchedRowPayload(row: EventRow)
    requires row.week == Str("") && row.date == Str("")
    requires row.efficiency == Num(1) && row.comment == Str("")
    ensures Payload(row).efficiency == Some(1)
    ensures Payload(row).comment == Str("")
    ensures Payload(row).week.None?
  {
    BlankWeekFallsBackToDate(row);
    assert |row.date.s| != 10;
    assert ParseIsoDate(row.date.s).None?;
  }

  /** A new row submits the default efficiency 1, an empty comment and a null week. */
  lemma BlankEventPayload()
    ensures Payload(BlankEvent).efficiency == Some(1)
    ensures Payload(BlankEvent).comment == Str("")
    ensures Payload(BlankEvent).week.None?
  {
    UntouchedRowPayload(BlankEvent);
  }

  /** The form's list of rows. */
  class MorningEventsForm {
    var events: seq<EventRow>

    /** Every row's week is in step with its date. */
    predicate Valid()
      reads this
    {
      forall i :: 0 <= i < |events| ==> RowConsistent(events[i])
    }

    constructor ()
      ensures events == [BlankEvent] && Valid()
    {
      events := [BlankEvent];
    }

    /** addEvent: one blank row at the end. */
    method AddEvent()
      requires Valid()
      modifies this
      ensures events == old(events) + [BlankEvent]
      ensures Valid()
    {
      events := events + [BlankEvent];
    }

    /** removeEvent: the row at the index is dropped. */
    method RemoveEvent(index: int)
      requires Valid()
      modifies this
      ensures events == WithoutIndex(old(events), index)
      ensures 0 <= index < |old(events)| ==> events == old(events)[..index] + old(events)[index + 1..]
      ensures Valid()
    {
      WithoutIndexRemovesOne(events, index);
      events := WithoutIndex(events, index);
    }

    /** updateEvent: only the row at the index changes, as Updated says. */
    method UpdateEvent(index: int, field: Field, value: JsValue)
      requires Valid() && 0 <= index < |events|
      modifies this
      ensures events == old(events)[index := Updated(old(events)[index], field, value)]
      ensures field != WeekField ==> Valid()
    {
      var row := Set(events[index], field, value);
      if field == DateField && JsTruthy(value) {
        row := Set(row, WeekField, WeekFromDate(value));
      }
      if field != WeekField {
        UpdatedKeepsRowConsistent(events[index], field, value);
      }
      events := events[index := row];
    }

    /**
     * handleSubmit: the payload sent is every row mapped; when the server
     * accepts it the form starts over with one blank row.
     */
    method Submit(accepted: bool) returns (payload: seq<EventPayload>)
      requires Valid()
      modifies this
      ensures payload == Payloads(old(events))
      ensures events == if accepted then [BlankEvent] else old(events)
      ensures Valid()
    {
      payload := Payloads(events);
      if accepted {
        events := [BlankEvent];
      }
    }
  }
}
