# Barber-shop branch CRM: calendar, percentage, counting and form logic in Dafny

The CRM lets a branch manager record morning events, field visits,
one-on-one meetings, weekly metrics, newbie adaptation, master plans and
reviews. Each record becomes a row on a worksheet of the branch's
spreadsheet. The dashboard counts this month's rows against fixed goals.
This project models the arithmetic, calendar, string and list logic under
those screens, and proves what it promises:

- **ISO week numbers** (`IsoWeek`, on top of the proleptic Gregorian
  `Calendar`).
  - `getWeekNumber` moves a date to the Thursday of its Monday-based week.
  - It then counts weeks from 1 January of that Thursday's year.
- **The plan/fact percentage** (`Performance`, `Rounding`).
  - The percentage is `fact / plan * 100` to one decimal, or 0 when the plan is not positive.
  - The server rounds half-to-even (Python `round`). The browser rounds half away from zero (`toFixed`).
  - Both are modelled on exact reals.
- **The goal table** (`Goals`).
- **The month label "Март 2024"** and the browser helpers (`Helpers`):
  `getCurrentMonth`, `formatDate` and `calculateAverage`.
- **Monthly record counting** (`Counting`): `count_records_for_month`.
- **The dashboard summary** and its percentage loop (`Dashboard`).
- **The server side of each form** (`Submissions`).
  - The request models' bounds, the row each form writes and its header list.
  - The overall field-visit score and the per-row percentages.
  - The branch summary's seven rows.
- **Cell conversion, sheet creation and insertion at sheet row 2**
  (`Sheets`). A spreadsheet is a class whose one field maps worksheet titles
  to rows.
- **The morning-events form** (`EventForm`).
  - Adding, removing and updating rows, with the week derived from the date.
  - JavaScript `parseInt`.
  - The payload mapping on submit.
- **The client's own arithmetic** (`Client`).
  - The field-visit average.
  - The reviews payload with plan 13 and monthly target 52.
  - `totalReviews`.
  - The fallback dashboard.

The clock (`datetime.now()`, `new Date()`) is a parameter. So are the
records a worksheet holds (`get_all_records`), given as a map from worksheet
title to records. Rows are written into a `Sheets.Spreadsheet` object whose
`sheets` field the methods update. Row 0 of each worksheet is the header
row.

Two behaviours of the code that its own texts do not suggest are modelled
as the code has them:
- The submitted morning-event week is `parseInt(week) || getWeekNumber(date)`:
  a non-zero week already in the row is kept, although the date field's
  tooltip (frontend/App.jsx:711) says the week is computed automatically.
- The fallback dashboard (frontend/App.jsx:504-509) lists four of the seven
  metrics of BRANCH_GOALS.

## Model

| member | source | states |
|---|---|---|
| Calendar.AddDays | frontend/src/utils/helpers.js:4 | moving a date by k days (`setDate(getDate() + k)`) gives a valid date exactly k day numbers later, across month and year ends |
| Calendar.DayNumberInjective | frontend/src/utils/helpers.js:4 | different valid dates have different day numbers |
| Calendar.IsoWeekday | frontend/src/utils/helpers.js:4 | the weekday with Sunday's 0 read as 7 is 1..7, Monday 1 and Sunday 7, in step with the day number |
| IsoWeek.ThursdayOf | frontend/src/utils/helpers.js:4 | the shifted day is valid, lies `4 - weekday` days away and so within 3 days of the input |
| IsoWeek.ThursdayOfIsThursday | frontend/src/utils/helpers.js:4 | the shifted day is a Thursday: the Monday of the input's week plus 3 |
| IsoWeek.WeekNumber | frontend/src/utils/helpers.js:1-8 | the week number of every valid date is in 1..53 |
| IsoWeek.SameMondaySameWeek | frontend/src/utils/helpers.js:4-6 | two dates of the same Monday-based week share their Thursday and their week number |
| IsoWeek.RestOfWeekSameNumber | frontend/App.jsx:47-54 | every later day up to Sunday of a date's week has the same week number |
| IsoWeek.WeekNumberOfOffset | frontend/src/utils/helpers.js:5-6 | the week number is the Thursday's day of its year, counted in whole weeks rounded up |
| IsoWeek.DecemberRollsIntoWeekOne | frontend/src/utils/helpers.js:4-6 | a date whose Thursday lies in the next year is 29–31 December and gets week 1 |
| IsoWeek.JanuaryRollsBackToWeek52Or53 | frontend/src/utils/helpers.js:4-6 | a date whose Thursday lies in the previous year is 1–3 January and gets week 52 or 53 |
| IsoWeek.JanuaryFourthIsWeekOne | frontend/src/utils/helpers.js:4-6 | 4 January of every year lies in its own ISO year and gets week 1 |
| IsoWeek.ConsecutiveMondays | frontend/src/utils/helpers.js:4-6 | the Monday seven days after a Monday, in the same ISO year, gets the next week number |
| IsoWeek.WeekNumberCountsFromWeekOne | frontend/src/utils/helpers.js:5-6 | the week number is the count of whole weeks since the Monday of week 1 of the ISO year, plus one (the ISO 8601 definition) |
| IsoWeek.WeekNumberAsWritten | frontend/src/utils/helpers.js:5-6 | the code as written, where `new Date(y, 0, 1)` reads years 0..99 as 1900+y, agrees with the ISO week number outside those years |
| IsoWeek.WeekNumberAsWrittenFailsBeforeYear100 | frontend/App.jsx:51-52 | for every date whose week's Thursday lies in years 0..99 the code as written yields a week below 1, where the ISO number is in 1..53 |
| Rounding.PyRound1 | backend/main.py:539-545 | `round(x, 1)` is a multiple of 0.1 within 0.05 of x |
| Rounding.JsToFixed1 | frontend/App.jsx:1051 | `toFixed(1)` is a multiple of 0.1 within 0.05 of x |
| Rounding.PyRound1Monotone | backend/main.py:628-630 | rounding to one decimal never reverses the order of two values |
| Rounding.JsToFixed1Monotone | frontend/App.jsx:1051 | the browser's rounding never reverses the order of two values |
| Rounding.RoundingsAgreeOffTies | frontend/App.jsx:848-850 | the two roundings agree except on exact hundredths ending in 5, where the browser's is at most 0.1 higher for positive values |
| Rounding.RoundingsDifferAtQuarter | frontend/App.jsx:1051 | at 0.25 the server rounds to 0.2 and the browser to 0.3 |
| Rounding.RoundingsKeepSign | backend/main.py:808 | rounding a non-negative value gives a non-negative value |
| Text.TwoDigits | frontend/src/utils/helpers.js:20-21 | `padStart(2, '0')` of a number below 100 is two digits that read back as the number |
| Text.DigitsValueOfDecimal | frontend/src/utils/helpers.js:22 | the decimal text of a natural number reads back as that number |
| Text.IntStringInjective | backend/main.py:329 | different years print differently |
| Text.FirstWord | backend/main.py:316 | `split()[0]` is a non-empty word without whitespace, or absent for blank text |
| Text.FirstWordOfWordThenSpace | backend/main.py:316 | the first word of "word, space, rest" is the word |
| Text.SplitOfJoined | backend/main.py:316 | splitting "a-rest" at '-' yields a followed by the parts of rest |
| Helpers.MonthOfNameOfMonth | frontend/src/utils/helpers.js:11-14 | each month index 1..12 has its own Russian name, and the name gives the index back |
| Helpers.MonthLabelInjective | frontend/src/utils/helpers.js:10-15 | equal labels "name year" mean equal month and year |
| Helpers.GetCurrentMonth | frontend/App.jsx:57-61 | the label of the clock's month is the month's Russian name, a space and the year |
| Helpers.GetCurrentMonthSameMonth | frontend/src/utils/helpers.js:10-15 | two clock readings get the same label exactly when they fall in the same month of the same year |
| Helpers.ParseIsoDate | frontend/src/utils/helpers.js:19 | a date string that parses is ten characters `YYYY-MM-DD` naming a valid date |
| Helpers.FormatDate | frontend/src/utils/helpers.js:17-24 | empty input gives ""; a parseable date gives its zero-padded day, month and year joined by dots; anything else gives "NaN.NaN.NaN" |
| Helpers.DottedDateFields | frontend/src/utils/helpers.js:20-23 | the formatted text holds the two-digit day, a dot, the two-digit month, a dot and the year, each reading back to its field |
| Helpers.FormatDateRearranges | frontend/src/utils/helpers.js:17-24 | formatting `YYYY-MM-DD` from year 1000 on gives `DD.MM.YYYY` from the same characters |
| Helpers.CalculateAverage | frontend/src/utils/helpers.js:26-29 | the average of a non-empty list is the sum over the count to one decimal; an empty list gives no number |
| Helpers.AverageWithinBounds | frontend/src/utils/helpers.js:26-29 | the average of values between lo and hi lies between lo and hi (up to 0.05, exactly for one-decimal bounds) |
| Helpers.AverageOfEqualValues | frontend/src/utils/helpers.js:26-29 | the average of values all equal to v is v |
| Helpers.AverageOfNothingIsNaN | frontend/src/utils/helpers.js:28 | averaging nothing gives no number (NaN) |
| Goals.Goal | backend/main.py:46-54 | a metric's goal, read from BRANCH_GOALS, is positive |
| Goals.GoalIsTableEntry | backend/main.py:46-54 | every metric has an entry in BRANCH_GOALS, and every entry is positive |
| Goals.MetricOfKeyOfMetric | backend/main.py:46-54 | every metric's key names that metric back |
| Goals.KeyInjective | backend/main.py:46-54 | different metrics have different keys |
| Goals.GoalTableHasOnlyMetrics | backend/main.py:46-54 | every key of BRANCH_GOALS names a metric |
| Goals.ClientGoalsMatchServer | frontend/App.jsx:8-16 | the browser's goal table equals the server's |
| Goals.DashboardOrderCoversMetrics | backend/main.py:473-476 | the percentage loop visits every metric exactly once |
| Performance.PercentOfPlan | backend/main.py:628-630 | 0 when the plan is not positive, else fact / plan * 100 to one decimal |
| Performance.PlanMetIsHundred | backend/main.py:760 | meeting the plan exactly gives 100 |
| Performance.PlanBeatenIsAtLeastHundred | backend/main.py:712-715 | a fact at or above a positive plan gives at least 100 |
| Performance.PlanMissedIsAtMostHundred | backend/main.py:712-715 | a fact at or below a positive plan gives at most 100 |
| Performance.PercentNonNegative | backend/main.py:808 | a non-negative fact gives a non-negative percentage |
| Performance.PercentMonotone | backend/main.py:628-630 | a larger fact never gives a smaller percentage |
| Performance.CalcPerformance | frontend/App.jsx:1051 | the preview is 0 when the plan is not positive, else fact / plan * 100 to one decimal |
| Performance.PreviewMatchesStored | frontend/App.jsx:1051 | the preview equals the stored percentage except on ties, and never differs by more than 0.1 |
| Performance.PreviewDiffersAtQuarterPercent | frontend/App.jsx:1051 | for fact 1 and plan 400 the preview shows 0.3 and the sheet stores 0.2 |
| Sheets.ConvertValue | backend/main.py:278-283 | None becomes "", numbers stay numbers, everything else becomes text |
| Sheets.ConvertValueKeepsValue | backend/main.py:276-283 | converting keeps strings and numbers as they are; None reads back as "" and other objects as their string |
| Sheets.ConvertRow | backend/main.py:276-283 | the converted row has the data's length and converts each cell in place |
| Sheets.HeaderRow | backend/main.py:263 | the header row holds each header as text, in order |
| Sheets.InsertAtRowTwo | backend/main.py:285 | the inserted row lands directly under the header row |
| Sheets.InsertEachShape | backend/main.py:495-505 | inserting a batch one row at a time at row 2 leaves the header first, then the batch in reverse order, then the older rows unchanged |
| Sheets.Spreadsheet.EnsureSheetExists | backend/main.py:255-271 | a missing worksheet or one whose first row is empty or holds only empty text gets the headers; a worksheet with a header row is left alone; no other worksheet changes |
| Sheets.Spreadsheet.InsertRowAtTop | backend/main.py:273-289 | the converted row goes directly under the header row of that worksheet, and nothing else changes |
| Counting.ParseYmd | backend/main.py:316 | a text strptime accepts as `%Y-%m-%d` names a valid date of years 1..9999 |
| Counting.RecordMonthLabel | backend/main.py:317-329 | the English month name translated through the table, then the year, is the Russian month label |
| Counting.CountedIffSameMonth | backend/main.py:313-332 | a record counts for a month's label exactly when its date parses and lies in that month of that year |
| Counting.SubmittedDateTakesPrecedence | backend/main.py:313 | a filled-in submission timestamp decides, whatever the record's own date is |
| Counting.OwnDateWhenNoTimestamp | backend/main.py:313 | with an empty timestamp the record's own date decides |
| Counting.CountMatching | backend/main.py:311-336 | the count never exceeds the number of records |
| Counting.CountIsNumberOfCounted | backend/main.py:311-336 | the count is the number of positions whose record counts |
| Counting.CountConcat | backend/main.py:312-332 | the count over two lists of records is the sum of their counts |
| Counting.CountRecordsForMonth | backend/main.py:303-341 | the loop's count is the number of counted records, at most the number of records, and 0 for a missing worksheet |
| Counting.CountForLabel | backend/main.py:331-332 | counting for a month's label counts exactly the records dated in that month and year |
| Dashboard.CurrentMonth | backend/main.py:424-426 | the server's month label is the browser's getCurrentMonth for the same clock |
| Dashboard.InitialSummaryKeys | backend/main.py:428-470 | the summary as first built has exactly the seven BRANCH_GOALS keys |
| Dashboard.InitialSummaryAt | backend/main.py:428-470 | each metric first holds its month's count, its goal, its label and percentage 0 |
| Dashboard.AssembleSummary | backend/main.py:428-470 | the seven counted entries form the initial summary |
| Dashboard.OverwriteAt | backend/main.py:473-476 | after writing a list of metrics, a written metric holds its new entry and an unwritten one its old entry |
| Dashboard.PartialSummaryStep | backend/main.py:473-476 | when the loop reaches a metric it still holds its start entry, and the step writes its percentage into it alone |
| Dashboard.FullSummary | backend/main.py:473-476 | once the loop has visited every metric, the keys are those of BRANCH_GOALS and each entry holds its percentage |
| Dashboard.DashboardSummary | backend/main.py:417-479 | the summary has exactly the BRANCH_GOALS keys; each entry holds the month's count, the goal, the percentage of the goal and the label |
| Dashboard.CurrentCountsThisMonth | backend/main.py:430-432 | each current value is the number of that worksheet's records dated in the clock's month |
| Dashboard.PercentagesMatchCounts | backend/main.py:474-476 | every goal is positive, and every percentage is current / goal * 100 to one decimal, never negative, and at least 100 once the goal is reached |
| Submissions.TimestampFirstWord | backend/main.py:493 | the first word of the submission timestamp is its date part |
| Submissions.SplitDatePart | backend/main.py:316 | splitting the timestamp's date part at '-' gives the year, the two-digit month and the two-digit day |
| Submissions.DatePartParses | backend/main.py:493 | the date part of a timestamp from year 1000 on parses back to the clock's date |
| Submissions.TimestampCountsInItsMonth | backend/main.py:313-332 | a row stamped at submission counts toward the month it was submitted in |
| Submissions.PercentCell | backend/main.py:628-630 | a per-row percentage cell is a one-decimal float, 0 for a non-positive plan, never negative for a non-negative fact |
| Submissions.OverallScoreIsMean | backend/main.py:539-545 | the overall score is the mean of the five ratings, exactly |
| Submissions.OverallScoreWithinRatings | backend/main.py:96-103 | with all five ratings in 1..10 the overall score is in [1, 10] |
| Submissions.OverallScoreOfEqualRatings | backend/main.py:539-545 | five equal ratings r give overall score r |
| Submissions.OverallScoreIgnoresOrder | backend/main.py:539-545 | permuting the five ratings leaves the score unchanged |
| Submissions.MorningRow | backend/main.py:491-504 | the row has the seven header columns and starts with the timestamp under "Дата отправки" |
| Submissions.FieldRow | backend/main.py:528-562 | the row has the fourteen header columns, and its overall score is the ratings' mean in [1, 10] |
| Submissions.OneOnOneRow | backend/main.py:586-600 | the row has the eight header columns and starts with the timestamp |
| Submissions.WeeklyRow | backend/main.py:624-644 | the row has the eleven header columns; the average-check, cosmetics and additional-services plan and fact sit in cells 2-7, and cells 8, 9 and 10 hold each pair's percentage of plan (fact / plan * 100 to one decimal, 0 for a non-positive plan), one-decimal and non-negative for valid metrics |
| Submissions.NewbieRow | backend/main.py:667-683 | the row has the ten header columns and starts with the timestamp |
| Submissions.MasterRow | backend/main.py:707-733 | the row has the fifteen header columns; the average-check, additional-services, sales and salary plan and fact sit in cells 3-10, and cells 11 to 14 hold each pair's percentage of plan, one-decimal and non-negative for a valid plan |
| Submissions.ReviewsRow | backend/main.py:757-770 | the row has the seven header columns; a missing plan writes 13 and a missing target 52; the week percentage is the fact's percentage of the plan written beside it, a non-negative float for a valid request |
| Submissions.SummaryRow | backend/main.py:808-818 | the row has the eight header columns, the metric's name and goal, and the non-negative percentage of the goal |
| Submissions.SummaryAgreesWithDashboard | backend/main.py:797-819 | the branch summary's count, goal and percentage for each metric are the dashboard's entry for the same month |
| Submissions.SubmittedLayout | backend/main.py:285 | after a submission the worksheet's first row is unchanged, the new rows sit under it in reverse order with one cell per header, and the older rows follow unchanged |
| Submissions.InsertEach | backend/main.py:495-505 | inserting rows one by one at row 2 gives the batch insertion on that worksheet only |
| Submissions.SubmitRows | backend/main.py:492-505 | a submission ensures the worksheet and then inserts its rows |
| Submissions.SubmitMorningEvents | backend/main.py:486-507 | only the morning-events worksheet changes, and it receives one row per event |
| Submissions.SubmitFieldVisits | backend/main.py:523-565 | only the field-visit worksheet changes, and it receives one row per visit |
| Submissions.SubmitOneOnOne | backend/main.py:581-603 | only the one-on-one worksheet changes, and it receives one row per meeting |
| Submissions.SubmitWeeklyMetrics | backend/main.py:619-646 | only the weekly-metrics worksheet changes, and it receives one row |
| Submissions.SubmitNewbieAdaptation | backend/main.py:662-686 | only the adaptation worksheet changes, and it receives one row per newcomer |
| Submissions.SubmitMasterPlans | backend/main.py:702-736 | only the master-plans worksheet changes, and it receives one row per plan |
| Submissions.SubmitReviews | backend/main.py:752-772 | only the reviews worksheet changes, and it receives one row |
| Submissions.CountMetrics | backend/main.py:797-805 | the seven counts are each worksheet's count for the requested month |
| Submissions.SubmitBranchSummary | backend/main.py:788-821 | only the summary worksheet changes, and it receives the seven metric rows for the requested month |
| EventForm.DropJsSpaces | frontend/App.jsx:643 | parseInt skips a prefix of JavaScript whitespace |
| EventForm.DigitRun | frontend/App.jsx:646 | parseInt reads the longest prefix of decimal digits |
| EventForm.ParseIntReadsLeadingDigits | frontend/App.jsx:646-647 | parseInt of digits followed by a non-digit is the digits' value |
| EventForm.ParseIntOfIntString | frontend/App.jsx:643 | parseInt reads back every integer's decimal text |
| EventForm.ParseIntValue | frontend/App.jsx:646-647 | parseInt of a number is the number, and of NaN is NaN |
| EventForm.Set | frontend/App.jsx:626 | assigning one field of a row changes that field only |
| EventForm.WeekFromDate | frontend/App.jsx:629 | the week derived from a date is NaN or 1..53, and is the ISO week of a parseable date |
| EventForm.WeekFromDateAsWritten | frontend/App.jsx:47-54 | the code's own week for a date equals the derived week outside ISO years 0..99, and is below 1 inside them, where the derived week is in 1..53 |
| EventForm.Updated | frontend/App.jsx:624-633 | the field takes the value; a non-empty date also sets the week from that date; every other field is unchanged |
| EventForm.UpdatedKeepsRowConsistent | frontend/App.jsx:628-630 | editing any field but the week keeps the row's week in step with its date |
| EventForm.WithoutIndexRemovesOne | frontend/App.jsx:621 | removing an index in range deletes exactly that row and keeps the others in order; an index out of range changes nothing |
| EventForm.WeekOfDate | frontend/App.jsx:643 | the week of the date is absent or in 1..53 |
| EventForm.Payloads | frontend/App.jsx:642-649 | one payload per row, in order |
| EventForm.SubmittedWeekFollowsDate | frontend/App.jsx:643 | for a row whose week is in step with its date, the submitted week is the ISO week of the date |
| EventForm.BlankWeekFallsBackToDate | frontend/App.jsx:643 | an empty week field falls back to the week of the date |
| EventForm.UntouchedRowPayload | frontend/App.jsx:643-647 | a row with empty date and week, efficiency 1 and no comment submits efficiency 1, an empty comment and no week |
| EventForm.BlankEventPayload | frontend/App.jsx:612 | a blank row submits efficiency 1, an empty comment and no week |
| EventForm.MorningEventsForm.constructor | frontend/App.jsx:612 | the form starts with one blank row |
| EventForm.MorningEventsForm.AddEvent | frontend/App.jsx:616-618 | adding appends one blank row and keeps every row in step |
| EventForm.MorningEventsForm.RemoveEvent | frontend/App.jsx:620-622 | removing deletes exactly the row at the index and keeps the rest in order |
| EventForm.MorningEventsForm.UpdateEvent | frontend/App.jsx:624-633 | only the row at the index changes, as Updated says; rows stay in step unless the week itself is typed |
| EventForm.MorningEventsForm.Submit | frontend/App.jsx:635-654 | the payload maps every row, and an accepted submission resets the form to one blank row |
| Client.VisitAverageMatchesOverallScore | frontend/App.jsx:848-850 | the average the form shows is the overall score the server stores, the exact mean of the ratings |
| Client.VisitAverageWithinRatings | frontend/App.jsx:848-850 | with star ratings 1..10 the shown average is in [1, 10] |
| Client.ReviewsPayloadFixesPlan | frontend/App.jsx:1258 | the payload carries plan 13 and monthly target 52, whatever the form holds |
| Client.SubmittedReviewsRow | frontend/App.jsx:1258 | a whole non-negative fact gives a request the server accepts, and its row records 13, the fact, 52 and the fact's percentage of 13 |
| Client.TotalReviews | frontend/App.jsx:1268 | the history has a whole-number total exactly when every fact cell reads as a whole number, and an empty history totals 0 |
| Client.WholeFloatFactCounts | frontend/App.jsx:1268 | a fact cell holding a whole-valued float adds that whole number to the total |
| Client.TotalReviewsAppend | frontend/App.jsx:1268 | the total over two stretches of history is the sum of their totals |
| Client.TotalReviewsIgnoresOrder | frontend/App.jsx:1268 | the order of the history does not change the total |
| Client.TotalReviewsNonNegative | frontend/App.jsx:1268 | non-negative facts give a non-negative total |
| Client.TotalReviewsOfFacts | frontend/App.jsx:1268 | a history of whole-number facts totals their sum, 0 for an empty history |
| Client.FallbackIsEmptyDashboard | frontend/App.jsx:504-509 | each fallback entry shows current 0, percentage 0 and the goal of BRANCH_GOALS: what the server would report with no records |
| Client.FallbackKeys | frontend/App.jsx:504-509 | the fallback lists exactly four of the seven metrics |

## Left out

- Timezones and daylight saving are left out: JavaScript reads `"YYYY-MM-DD"` as UTC midnight and measures millisecond differences in local time. Dates are plain calendar triples.
- Binary floating point is left out. Ratios, `round` and `toFixed` are exact reals rounded to one decimal, and `toFixed` returns a number rather than a string.
- `strftime("%B %Y")` is read in the C locale, with `%Y` as the unpadded year.
- Submissions.TimestampCountsInItsMonth: requires a year from 1000 on, because below that `%Y` padding is platform-dependent and strptime needs four digits.
- `new Date(s)` is modelled only for `YYYY-MM-DD` text. The other date formats JavaScript accepts leniently give NaN in the model.
- Python's strptime also accepts non-ASCII Unicode digits. The model accepts ASCII digits only.
- The Google Sheets API is not part of this model: opening spreadsheets, `add_worksheet` sizing, `row_values` and `append_row` positioning, and API failures, which raise HTTP 500.
  - `append_row` is modelled as writing after the rows already present.
  - Where Sheets' table detection would put the headers on a worksheet whose first row is blank but whose later rows hold data is not modelled.
- `get_all_records` is not modelled. The records are a parameter, including gspread's own conversion of cell text to numbers.
- `count_records_for_month` returns 0 for any API failure. The model has no failing API, so only a missing worksheet counts 0.
- `get_branch_spreadsheet_id`, branch registration, login, password hashing and token generation are left out: they are I/O, hashing and randomness.
- The HTTP routing, pydantic's rejection of out-of-range requests and the GET history endpoints are left out. The request bounds are predicates that the submit methods require.
- `str()` of non-string values inside rows is left out. Text fields are strings in the model, and an absent `comment` prints as "None".
- Client.FactOf: a history cell with non-empty text or a number with a fractional part gives no total (None). JavaScript would concatenate strings or add fractions there. A whole-valued float such as 3.0 counts as the whole number it is.
- EventForm.MorningEventsForm.UpdateEvent: the row object JavaScript shares between the old and the new list is modelled as a value, not by aliasing.
- EventForm.MorningEventsForm.UpdateEvent: requires an index in range, because out of range the source throws.
- EventForm.MorningEventsForm.UpdateEvent: promises nothing about keeping rows in step when the week field itself is written, which the read-only week input never does.
- EventForm.WeekFromDate: uses the ISO week number, not the code as written. For dates whose ISO year is 0..99 the code stores a week below 1 in the row (EventForm.WeekFromDateAsWritten).
- EventForm.WeekOfDate: its 1..53 bound is that of the ISO week number. For ISO years 0..99 the code as written submits a week below 1.
- EventForm.SubmittedWeekFollowsDate: states the ISO week number, in 1..53. For ISO years 0..99 the code as written submits a week below 1, which the server's `ge=1` bound on a morning event's week rejects.
- The event form's other inputs (participants, efficiency, comment) are kept as JavaScript values. No HTML input constraint is modelled.
- The other forms' add, remove and update handlers and the page rendering are left out. They repeat the morning-events pattern or are UI only.
- localStorage sessions, toasts, icons, `di.py` and the HTTP client are left out: they are browser storage, UI and I/O.

## Findings

| source | as written | input that shows it | evidently intended | confidence | as-written member | corrected member |
|---|---|---|---|---|---|---|
| frontend/src/utils/helpers.js:5 (and frontend/App.jsx:51) | `new Date(d.getFullYear(), 0, 1)` reads years 0..99 as 1900..1999, so the week count is taken from a January 1st about 1900 years later | any date whose week's Thursday falls in years 0..99, e.g. 0050-06-10, gives a week number below 1 | the ISO 8601 week number, 1..53, for every year | not executed | IsoWeek.WeekNumberAsWritten, IsoWeek.WeekNumberAsWrittenFailsBeforeYear100 | IsoWeek.WeekNumber |
