# Tutoring manager: the in-memory logic of its pages

A model of the logic inside a private-tutoring web application written with
React and a hosted Postgres service. The teacher keeps students, their weekly
lessons, payments, a weekly timetable, a library of subjects and resources,
reminders, settings and a profile. Each page mixes markup and remote calls
with a small amount of domain logic. This project models that logic and
proves what it does:

- **Folds.** The dashboard cards, the report series, the student progress,
  the invoice total and the profile statistics are counts and sums over rows.
  A percentage is rounded to the nearest whole number.
- **Lesson status.** A lesson is planned (no status), completed or postponed.
  The dashboard buttons decide which change is offered.
- **Week grids.** Lessons and timetable entries are split into the seven
  days. The timetable cell shows the first matching entry. The time-slot list
  is edited through checkboxes. The timetable export is a table.
- **List editors.** Payments, invoice lines, the lesson entries of the
  student form, subjects, resources and notifications are edited in place.
  The edits prepend, append, remove by index or id, replace by id, or change
  one field.
- **Settings.** The stored settings object is merged with the defaults.
  The switches and choices each change one value. The data export includes
  exactly the flagged tables.
- **Cascades.** Deleting a student deletes its lessons first. Deleting a
  subject removes the files of its resources, then the resource rows, then
  the subject. The steps run in order and stop at the first failure.

The tables live in memory, in the `Store.Database` class for the tables most
pages share, and in `Settings.SettingsTable` for the stored settings. Each
remote call is one step on those fields. Whether a call fails is a boolean
parameter of the step. So are the user's confirmation and the generated ids.
The random file name of an upload and today's date are parameters too.

Money is `real`. Dates are `Calendar.Date(year, month, day)` triples.
`Math.round` of a percentage is exact half-up rounding. A numeric form field
is `Numbers.NumberText`: either text the user typed, read with `parseFloat`
(`Numbers.ParseFloat`), or a number the page filled in.

Modules: `Common` (Option), `Folds` (counts, sums, filters, per-key
buckets), `Text` (lower case, substring search, trimming, white-space runs,
the part after the last separator, string order), `Calendar`, `Numbers`,
`Sorting` (sorting by a string key), `Records` (the shared rows), `Store`,
and one module per page: `Dashboard`, `Reports`, `Invoice`, `StudentReport`,
`Schedule`, `Settings`, `Notifications`, `Payments`, `StudentForm`,
`Students`, `Lessons`, `Profile`.

## Model

| member | source | states |
|---|---|---|
| Records.Without | project/src/pages/Payments.tsx:228 | removing rows by id keeps exactly the rows with another id, each as often as before, and changes nothing when no row has that id |
| Records.UpdateWhere | project/src/pages/Payments.tsx:199 | replacing by id keeps the length, applies the change to each row with that id, and leaves every other row as it was |
| Records.WithoutUnique | project/src/pages/Payments.tsx:228 | when ids are unique, removing row k's id removes exactly position k |
| Records.UpdateUnique | project/src/pages/Payments.tsx:199 | when ids are unique, replacing row k's id changes exactly position k |
| Records.KeepOthers | project/src/components/StudentForm.tsx:128-134 | deleting one student's lessons leaves every other student's lessons, in order |
| Records.DaysOfWeekShape | project/src/components/Dashboard.tsx:45-53 | there are seven distinct day names |
| Folds.Count | project/src/components/Dashboard.tsx:106 | a count is at most the length; it is 0 exactly when no row matches and the length exactly when all match |
| Folds.Filter | project/src/pages/Reports.tsx:211-224 | a filter keeps exactly the matching rows, as a sub-multiset, with as many rows as the count |
| Folds.FilterKey | project/src/components/Dashboard.tsx:255-261 | a day bucket holds exactly the rows with that key |
| Folds.FirstKeys | project/src/pages/Reports.tsx:169-182 | the keys in order of first appearance are distinct and are exactly the keys that occur |
| Folds.RoundedPercent | project/src/components/StudentReportGenerator.tsx:104-108 | `Math.round(100 * part / whole)`: within half a point of the exact percentage, and at most 100 |
| Folds.PercentExtremes | project/src/components/Dashboard.tsx:109-116 | no part gives 0 percent and the whole gives 100 |
| Folds.FindFirst | project/src/pages/Schedule.tsx:269-271 | `find` returns the first matching row, or nothing exactly when no row matches |
| Folds.DropAt | project/src/components/InvoiceGenerator.tsx:55-60 | dropping a valid index shortens by one and shifts the later rows down |
| Folds.SumDropAt | project/src/components/InvoiceGenerator.tsx:55-60 | the sum after dropping a row loses exactly that row's value |
| Folds.SumReplaceAt | project/src/components/InvoiceGenerator.tsx:62-72 | the sum after replacing a row changes by the difference of the two values |
| Text.Lower | project/src/pages/Payments.tsx:251 | `toLowerCase` keeps the length and lowers each character |
| Text.LowerTwice | project/src/pages/Payments.tsx:251 | lowering twice is lowering once |
| Text.Includes | project/src/pages/Payments.tsx:251-252 | `includes` holds exactly when the needle occurs at some position |
| Text.QueryCaseIgnored | project/src/pages/Students.tsx:123-128 | the case of the query does not change a case-insensitive match |
| Text.EmptyQueryMatches | project/src/pages/Payments.tsx:249-257 | the empty query matches every text |
| Text.Trim | project/src/pages/Lessons.tsx:103 | `trim()` is empty exactly for white-space-only text; otherwise it starts and ends with a non-space; white space is the ECMAScript set (ASCII, no-break and Unicode space separators, line and paragraph separators, BOM) |
| Text.TrimStart | project/src/components/StudentForm.tsx:146 | the leading white space `parseFloat` skips, and no more |
| Text.UnderscoreSpaces | project/src/components/InvoiceGenerator.tsx:200 | `replace(/\s+/g, '_')` leaves no white space and changes nothing in text without any |
| Text.UnderscoreRun | project/src/components/InvoiceGenerator.tsx:200 | a whole run of white space between two non-space parts becomes one '_' and the rest is replaced the same way |
| Text.SkipRun | project/src/components/InvoiceGenerator.tsx:200 | the run of white space before a non-space is skipped whole |
| Text.AfterLast | project/src/pages/Profile.tsx:155 | `split('.').pop()` is the longest suffix without a '.', preceded by a '.' when shorter than the name |
| Text.StrLeTotal | project/src/pages/Schedule.tsx:339 | the string order compares any two texts |
| Text.StrLeTrans | project/src/pages/Schedule.tsx:339 | the string order is transitive |
| Sorting.SortBy | project/src/pages/Schedule.tsx:339 | sorting by a text key gives a sorted permutation of the input |
| Sorting.InsertBy | project/src/pages/Schedule.tsx:637 | inserting into a sorted list keeps it sorted and adds exactly that element |
| Calendar.DaysInMonth | project/src/pages/Reports.tsx:132 | a month has 28 to 31 days, February 29 exactly in leap years |
| Calendar.MonthDays | project/src/pages/Reports.tsx:185 | `eachDayOfInterval` over a month lists its days in order |
| Calendar.YearDays | project/src/pages/Reports.tsx:185 | `eachDayOfInterval` over a year lists its days in order |
| Calendar.YearLength | project/src/pages/Reports.tsx:185 | a year has 365 days, or 366 in a leap year |
| Calendar.YearMonths | project/src/pages/Reports.tsx:198 | `eachMonthOfInterval` over a year gives its twelve months from January |
| Calendar.DateKey | project/src/pages/Payments.tsx:67 | `toISOString().split('T')[0]` is ten characters with dashes at 4 and 7 |
| Calendar.DateKeyRoundTrip | project/src/pages/Payments.tsx:241 | reading back the `YYYY-MM-DD` text gives the same day |
| Calendar.DateKeyInjective | project/src/pages/Reports.tsx:188 | two days with the same text are the same day |
| Numbers.ParseFloat | project/src/pages/Payments.tsx:144 | `parseFloat` of blank text is NaN (`None`), and NaN exactly when, after the white space and an optional sign, neither a digit nor a '.' followed by a digit comes |
| Numbers.ParseSigned | project/src/pages/Payments.tsx:144 | an optional sign before the number: NaN exactly when the unsigned part is |
| Numbers.ParseUnsigned | project/src/pages/Payments.tsx:144 | the unsigned number is read exactly when it starts with a digit or with a '.' and a digit |
| Numbers.ParseFromSign | project/src/pages/Payments.tsx:144 | leading white space is skipped and a '-' negates the value the digits read, a '+' keeps it |
| Numbers.UnsignedFraction | project/src/pages/Payments.tsx:144 | digits, a '.', digits and then a non-digit read as the decimal `whole.frac` |
| Numbers.UnsignedWhole | project/src/pages/Payments.tsx:144 | digits followed by neither a digit nor a '.' read as their whole value |
| Numbers.ParseDigits | project/src/components/StudentForm.tsx:146 | `parseFloat` of a run of digits is its decimal value |
| Numbers.DigitRun | project/src/components/StudentForm.tsx:146 | the digits `parseFloat` reads: all digits, stopping at the first non-digit |
| Dashboard.TeacherStudentIds | project/src/components/Dashboard.tsx:71-80 | the ids are exactly those of the teacher's students, one per student |
| Dashboard.SuccessRate | project/src/components/Dashboard.tsx:109-116 | the success rate is within half a point of completed/(active+completed), is at most 100, and is 0 with no lessons |
| Dashboard.SuccessRateExtremes | project/src/components/Dashboard.tsx:109-116 | no completed lessons give 0; only completed lessons give 100 |
| Dashboard.OnePass | project/src/components/Dashboard.tsx:82-107 | querying by student and then by status counts and adds up exactly the planned (completed) lessons of the teacher's students, as one pass over the table would |
| Dashboard.ComputeStats | project/src/components/Dashboard.tsx:69-118 | the five cards: the number of the teacher's students, the number of their planned lessons, the completed payments of their students since the first of the month, the prices (0 when missing) of their completed lessons, and the rounded completed share; the rate is at most 100 and the counts are bounded by the tables |
| Dashboard.CompletingAddsPrice | project/src/components/Dashboard.tsx:184-199 | completing a lesson raises the estimated income by its price exactly when it is a lesson of the teacher's that was not completed, and changes nothing otherwise |
| Dashboard.CompletingEndsActive | project/src/components/Dashboard.tsx:184-199 | completing a lesson lowers the active classes by one exactly when it was a planned lesson of the teacher's |
| Dashboard.DeletingDropsPrice | project/src/components/Dashboard.tsx:160-177 | deleting a lesson lowers the estimated income by its price exactly when it was a completed lesson of the teacher's |
| Folds.CountReplaceAt | project/src/components/Dashboard.tsx:82-92 | replacing one row exchanges its count for the new row's |
| Dashboard.OtherStatusIgnored | project/src/components/Dashboard.tsx:82-92 | a postponed or otherwise-labelled lesson changes no card |
| Dashboard.OtherStatusCountsNothing | project/src/components/Dashboard.tsx:82-92 | such a lesson is neither active nor completed and adds nothing to the estimated income |
| Dashboard.MonthlyIncomeHasNoUpperBound | project/src/components/Dashboard.tsx:95-108 | a completed payment of the teacher's student dated on or after the first of the month adds its amount, however late the date |
| Dashboard.EarlierPaymentIgnored | project/src/components/Dashboard.tsx:95-104 | a payment dated before the first of the month changes nothing |
| Dashboard.NoStudentsNoStats | project/src/components/Dashboard.tsx:79-116 | with no students of the teacher every card is 0 |
| Dashboard.GroupLessonsByDay | project/src/components/Dashboard.tsx:255-261 | the grouping has exactly the seven day keys, each holding exactly that day's lessons in order |
| Dashboard.WeekPartition | project/src/components/Dashboard.tsx:255-261 | the buckets together hold exactly the lessons with a known day; each such lesson is in its bucket; a bucket holds only its day |
| Dashboard.PostponedAtMostOnce | project/src/components/Dashboard.tsx:444-475 | through the offered buttons a lesson is postponed at most once, and never once it has a status |
| Dashboard.CompletedIsFinal | project/src/components/Dashboard.tsx:444-475 | a completed lesson offers only delete |
| Dashboard.CompletionReachable | project/src/components/Dashboard.tsx:444-475 | a planned or postponed lesson can be completed, and a planned one postponed then completed |
| Dashboard.UpdatesTouchOnlyTheirFields | project/src/components/Dashboard.tsx:184-217 | completing writes only the status of that lesson; postponing writes the status, the new date and the reason together |
| Dashboard.PostponeThenComplete | project/src/components/Dashboard.tsx:188-191 | completing a postponed lesson keeps its postponement date and reason |
| Dashboard.VisibleLessons | project/src/components/Dashboard.tsx:124-158 | the week view lists exactly the lessons of the teacher's students, none when there are no students |
| Dashboard.DashboardPage.constructor | project/src/components/Dashboard.tsx:56-67 | no teacher, no lessons and zero cards at first |
| Dashboard.FetchedLessons | project/src/components/Dashboard.tsx:124-158 | a failed student query or no students empties the week view, a failed lesson query keeps it, and otherwise it lists the lessons of the teacher's students |
| Dashboard.FetchedStats | project/src/components/Dashboard.tsx:69-122 | a failed student query keeps the cards; a failed planned-lesson, completed-lesson or monthly-payment query counts as no rows, so a failed completed-lesson query shows estimated income 0 and success rate 0; with no failure the cards are `ComputeStats` |
| Dashboard.DashboardPage.Refresh | project/src/components/Dashboard.tsx:69-158 | with a teacher, the week view and the cards are fetched again, each of the six queries of the two fetches failing or not on its own; without a teacher nothing changes |
| Dashboard.DashboardPage.Init | project/src/components/Dashboard.tsx:234-249 | without a profile nothing changes; otherwise the teacher becomes known and the week view and the cards are fetched |
| Dashboard.DashboardPage.CompleteLesson | project/src/components/Dashboard.tsx:184-204 | without a teacher or on failure nothing is written or fetched; otherwise that lesson's status becomes completed and the week view and the cards are fetched again from the updated table, with the failures of `Refresh` |
| Dashboard.DashboardPage.PostponeLesson | project/src/components/Dashboard.tsx:206-232 | without a teacher or on failure nothing is written or fetched; otherwise that lesson is postponed with its date and reason and the week view and the cards are fetched again, with the failures of `Refresh` |
| Dashboard.DashboardPage.DeleteLesson | project/src/components/Dashboard.tsx:160-182 | a confirmed delete that succeeds removes the rows with that id and, when the teacher is known, fetches the week view and the cards again, with the failures of `Refresh`; otherwise nothing changes |
| Dashboard.NextStatus | project/src/components/Dashboard.tsx:184-217 | every action but delete leaves a lesson, and never with an unset status |
| Dashboard.MarkCompleted | project/src/components/Dashboard.tsx:188-191 | completing sets the status and changes no other field |
| Dashboard.MarkPostponed | project/src/components/Dashboard.tsx:210-217 | postponing sets the status, the new date and the reason, and changes no other field |
| Reports.RangeDaysIncreasing | project/src/pages/Reports.tsx:185 | the days of the range are strictly increasing |
| Reports.RangeDaysExact | project/src/pages/Reports.tsx:131-132 | a day is listed exactly when it is a valid day between the start and end of the month or year |
| Reports.RangeDays | project/src/pages/Reports.tsx:185 | as many valid days as the month has, or 365 or 366 for the year |
| Reports.DailyIncome | project/src/pages/Reports.tsx:185-196 | one point per day of the range, each the sum of that day's completed payments |
| Reports.MonthlyIncome | project/src/pages/Reports.tsx:198-209 | one point per month, each the sum of that month's completed payments |
| Reports.StatusCounts | project/src/pages/Reports.tsx:211-224 | three entries, completed, postponed and planned, in that order |
| Reports.PaymentMethodBreakdown | project/src/pages/Reports.tsx:169-182 | one share per distinct method in order of first appearance, each with the number and the sum of that method's payments of any status |
| Reports.TallyStep | project/src/pages/Reports.tsx:170-176 | one step of the accumulator: a new method is added at the end, a known one has its count and total raised |
| Reports.BreakdownAddsUp | project/src/pages/Reports.tsx:169-182 | the counts of the shares add up to the number of payments and their totals to the sum of the amounts |
| Reports.FetchReport | project/src/pages/Reports.tsx:107-236 | every field of the report: the income totals, the lesson counts, the student counts, the method shares and the three series; a failed payment or lesson query counts as no rows; without a profile or when the student query fails the report stays as it was |
| Reports.FetchedWithinRange | project/src/pages/Reports.tsx:135-141 | every fetched payment lies between the start and end of the selected range |
| Reports.CardShowsRangeTotal | project/src/pages/Reports.tsx:150-166 | the yearly income equals the total, and so does the monthly income when the range is the month |
| Reports.DailySeriesAddsUp | project/src/pages/Reports.tsx:185-196 | the daily points add up to the total income |
| Reports.CompletedDatesInRange | project/src/pages/Reports.tsx:185-196 | each completed fetched payment falls on one of the listed days |
| Reports.MonthlySeriesAddsUp | project/src/pages/Reports.tsx:198-209 | twelve points, January to December, adding up to the yearly income |
| Reports.StatusCountsAddUp | project/src/pages/Reports.tsx:211-233 | the three counts and the lessons of other statuses add up to all lessons; cancelled lessons are among the others |
| Invoice.ApplyEdit | project/src/components/InvoiceGenerator.tsx:62-72 | an edit changes its own field of the line and no other |
| Invoice.InvoiceForm.constructor | project/src/components/InvoiceGenerator.tsx:32-37 | empty names, empty signature, no lines |
| Invoice.InvoiceForm.AddLesson | project/src/components/InvoiceGenerator.tsx:39-53 | appends one blank line of duration 1 and price 0 |
| Invoice.InvoiceForm.RemoveLesson | project/src/components/InvoiceGenerator.tsx:55-60 | removes the line at that index and keeps the rest in order |
| Invoice.InvoiceForm.ChangeLesson | project/src/components/InvoiceGenerator.tsx:62-72 | replaces only the line at that index, with one field changed |
| Invoice.InvoiceTotal | project/src/components/InvoiceGenerator.tsx:74-76 | no lines total 0, and the total is never negative while no price and no duration is |
| Invoice.AddLessonKeepsTotal | project/src/components/InvoiceGenerator.tsx:39-53 | a blank line adds one line and nothing to the total |
| Invoice.RemoveLessonTotal | project/src/components/InvoiceGenerator.tsx:55-60 | removing a line takes away its price times duration; an index out of range changes nothing |
| Invoice.ChangeLessonTotal | project/src/components/InvoiceGenerator.tsx:62-76 | an edit changes the total by the difference of the line totals; editing the date, time or subject keeps it |
| Invoice.InvoiceTable | project/src/components/InvoiceGenerator.tsx:108-147 | a header and one six-cell row per line, each with its date, subject and price times duration |
| Invoice.Generate | project/src/components/InvoiceGenerator.tsx:127-168 | the document carries the title, both names and the signature, a header plus one row per line, and the invoice total, which the last column of the table adds up to |
| Invoice.FileNameShape | project/src/components/InvoiceGenerator.tsx:200 | the name starts with `fatura_`, ends with `.docx`, carries today's date before it and has no white space |
| Invoice.FileNameKeepsPlainName | project/src/components/InvoiceGenerator.tsx:200 | a student name without white space appears unchanged after `fatura_` |
| StudentReport.Progress | project/src/components/StudentReportGenerator.tsx:104-108 | 0 without lessons, otherwise within half a point of the completed share, and at most 100 |
| StudentReport.ProgressExtremes | project/src/components/StudentReportGenerator.tsx:104-108 | all completed gives 100 and none completed gives 0 |
| StudentReport.TotalHours | project/src/components/StudentReportGenerator.tsx:124 | the total hours are the number of lessons |
| StudentReport.StatusLabel | project/src/components/StudentReportGenerator.tsx:274-276 | `Tamamlandı` exactly for completed, `Ertelendi` exactly for postponed, `Planlandı` exactly otherwise |
| StudentReport.CompletedLabelsMatchCount | project/src/components/StudentReportGenerator.tsx:274-276 | the rows labelled completed are as many as the completed lessons |
| StudentReport.FindStudent | project/src/components/StudentReportGenerator.tsx:118 | the selected student with that id, or nothing exactly when no student has it |
| StudentReport.GradeText | project/src/components/StudentReportGenerator.tsx:172 | the grade when one is filled in, a dash otherwise; never empty |
| StudentReport.LocaleDate | project/src/components/StudentReportGenerator.tsx:264 | a text naming an existing day (`YYYY-MM-DD`, alone or before a 'T') prints as `DD.MM.YYYY` of that same day; anything else prints `Invalid Date` |
| StudentReport.StoredTimeIsInvalidDate | project/src/components/StudentReportGenerator.tsx:264 | a start time as the `time` column holds it (`HH:MM:00`) prints `Invalid Date` in the date cell |
| StudentReport.DetailsRow | project/src/components/StudentReportGenerator.tsx:259-281 | three cells: the date cell (`Invalid Date` exactly when the start is not a day), the subject, and the completed label exactly for a completed lesson |
| StudentReport.GenerateReport | project/src/components/StudentReportGenerator.tsx:110-318 | refused exactly without a student or a signature; failed exactly when the student is missing or the document cannot be packed; otherwise the selected student's name and grade, the lesson and completed counts, the progress of those lessons, one hour per lesson, the teacher's name and the signature, the header and one row per lesson in order, and the file name |
| StudentReport.ReportFileName | project/src/components/StudentReportGenerator.tsx:308 | the name is the student's name with its white-space runs as `_`, then `_Rapor_`, then today's date, which reads back as the day, then `.docx`; it has no white space |
| Schedule.DefaultTimeSlotsShape | project/src/pages/Schedule.tsx:44-58 | thirteen hourly slots from `08:00` to `20:00`, in order |
| Schedule.HourSlotOrder | project/src/pages/Schedule.tsx:44-58 | earlier hours give smaller slot texts |
| Schedule.EntryAt | project/src/pages/Schedule.tsx:269-271 | the cell shows the first entry for that day and slot, or nothing exactly when there is none |
| Schedule.CellText | project/src/pages/Schedule.tsx:273-279 | a cell is blank exactly when no entry matches; otherwise it is the name and subject of a matching entry on two lines |
| Schedule.FirstEntryShown | project/src/pages/Schedule.tsx:269-271 | an entry with no earlier entry in its cell is the one shown |
| Schedule.ExportTable | project/src/pages/Schedule.tsx:244-290 | the header `Saat` plus the seven days, then one eight-cell row per slot in list order with each cell's text |
| Schedule.ExportShowsEntry | project/src/pages/Schedule.tsx:258-290 | an entry first in its cell appears in the export at its slot and day as name and subject |
| Schedule.GroupByDay | project/src/pages/Schedule.tsx:337-341 | the grouping has exactly the seven day keys, each holding that day's entries sorted by slot |
| Schedule.DayEntriesExact | project/src/pages/Schedule.tsx:337-341 | a day's list is sorted by slot and holds exactly that day's entries, each as often as in the timetable |
| Schedule.DayEntries | project/src/pages/Schedule.tsx:337-341 | a day's list is sorted by slot and a permutation of that day's bucket |
| Schedule.FilterKeyKeepsCount | project/src/pages/Schedule.tsx:337-341 | filtering by day keeps each entry of that day as often as it occurs |
| Schedule.CheckedSlots | project/src/pages/Schedule.tsx:636-637 | checking a slot adds it once and sorts the list |
| Schedule.UncheckedSlots | project/src/pages/Schedule.tsx:638-639 | unchecking removes every copy of the slot and keeps the others |
| Schedule.CheckThenUncheck | project/src/pages/Schedule.tsx:636-639 | checking then unchecking a new slot gives back the same slots |
| Schedule.FilterDropsOne | project/src/pages/Schedule.tsx:638-639 | the filter takes out exactly the copies of the unchecked slot |
| Schedule.ResetForm | project/src/pages/Schedule.tsx:188-193 | the form is cleared to the first day and the first selected slot, if any |
| Schedule.SchedulePage.constructor | project/src/pages/Schedule.tsx:61-74 | no entries, the default slots, and the form on the first day and slot |
| Schedule.SchedulePage.Init | project/src/pages/Schedule.tsx:80-140 | without a profile nothing changes; otherwise the teacher becomes known, a saved slot list replaces the slots, and the fetched entries replace the list unless the schedule query fails |
| Schedule.SchedulePage.AddLesson | project/src/pages/Schedule.tsx:158-199 | without a teacher or on failure nothing changes; otherwise the new entry is appended and the form reset |
| Schedule.SchedulePage.DeleteLesson | project/src/pages/Schedule.tsx:201-218 | a confirmed delete that succeeds drops the entries with that id; otherwise nothing changes |
| Schedule.SchedulePage.ToggleSlot | project/src/pages/Schedule.tsx:633-641 | the checkbox adds and sorts, or removes the slot |
| Settings.MergeTopLevel | project/src/pages/Settings.tsx:97-99 | a stored top-level key wins as it is, a missing one takes its default |
| Settings.MergeNotificationFlags | project/src/pages/Settings.tsx:100-111 | each notification type and reminder time is the stored one, or the default when none is stored |
| Settings.MapOverride | project/src/pages/Settings.tsx:97-99 | spreading stored keys over the defaults gives the stored map when it has every default key |
| Settings.MergeAgain | project/src/pages/Settings.tsx:96-112 | settings with every default key, down to each notification group, merge to themselves |
| Settings.MergeIdempotent | project/src/pages/Settings.tsx:96-112 | merging merged settings again changes nothing |
| Settings.MergeDefaults | project/src/pages/Settings.tsx:37-70 | the defaults merge to themselves |
| Settings.DefaultsComplete | project/src/pages/Settings.tsx:37-70 | the defaults hold every key of the settings shape |
| Settings.Merge | project/src/pages/Settings.tsx:96-112 | the keys are the default keys and the stored top-level keys; whatever is stored, every default key is there, down to each notification type and reminder time |
| Settings.CompleteReloads | project/src/pages/Settings.tsx:96-112 | settings of that shape, saved and loaded again, come back unchanged |
| Settings.SetComplete | project/src/pages/Settings.tsx:457-466 | writing one value keeps the shape, unless it replaces the notification section, its type group or its timing group as a whole |
| Settings.FlipComplete | project/src/pages/Settings.tsx:413-511 | a switch keeps the shape |
| Settings.ChooseComplete | project/src/pages/Settings.tsx:306-358 | a choice keeps the shape |
| Settings.GetSet | project/src/pages/Settings.tsx:457-466 | reading back the value just written at a path gives it |
| Settings.SetFrame | project/src/pages/Settings.tsx:457-466 | writing one path leaves every path that parts from it unchanged |
| Settings.SetSame | project/src/pages/Settings.tsx:457-466 | writing back the value already there changes nothing |
| Settings.SetSet | project/src/pages/Settings.tsx:457-466 | writing a path twice keeps only the second value |
| Settings.FlipEffect | project/src/pages/Settings.tsx:457-466 | a switch sets its own flag to the opposite truth value and leaves every other setting |
| Settings.FlipTwice | project/src/pages/Settings.tsx:413-419 | pressing a switch twice restores a boolean flag |
| Settings.SwitchPath | project/src/pages/Settings.tsx:413-832 | each switch names a non-empty path |
| Settings.ChoicePath | project/src/pages/Settings.tsx:306-752 | each choice names a non-empty path |
| Settings.ChooseEffect | project/src/pages/Settings.tsx:654-691 | a choice writes its text at its path and leaves every other setting |
| Settings.ToggleSection | project/src/pages/Settings.tsx:231-233 | the open section closes; any other opens |
| Settings.CollectExport | project/src/pages/Settings.tsx:152-189 | without a profile the export stops; otherwise a key is present exactly when its flag is set, and holds `null` exactly when its query fails; the students are the teacher's; the lessons and payments belong to the students read, or to none when no students were read |
| Settings.NoStudentsNothingLinked | project/src/pages/Settings.tsx:179-187 | an empty id list selects no lesson and no payment |
| Settings.ExportLinked | project/src/pages/Settings.tsx:165-189 | exported lessons and payments belong to exported students |
| Settings.ExportFileName | project/src/pages/Settings.tsx:191-222 | `.json` exactly when the format is `json`, `.docx` otherwise |
| Settings.DocxHeadings | project/src/pages/Settings.tsx:204-208 | a heading for each present key (a `null` one included), upper-cased after a line break, each once, in the order students, lessons, payments |
| Settings.SettingsTable.constructor | project/src/pages/Settings.tsx:88-92 | the table holds the given rows |
| Settings.SettingsPage.constructor | project/src/pages/Settings.tsx:76-77 | the defaults with the notifications section open |
| Settings.SettingsPage.Load | project/src/pages/Settings.tsx:83-129 | a stored row is merged with the defaults; a missing row keeps the defaults and stores them; a failure or a null row changes nothing; the shape is kept |
| Settings.SettingsPage.Save | project/src/pages/Settings.tsx:131-150 | the shown settings replace the user's row; with no row nothing is written and success is still reported |
| Settings.SettingsPage.Press | project/src/pages/Settings.tsx:413-832 | the switch flips its flag and keeps the shape |
| Settings.SettingsPage.Pick | project/src/pages/Settings.tsx:306-752 | the choice writes its value and keeps the shape |
| Settings.SettingsPage.Toggle | project/src/pages/Settings.tsx:231-233 | the section toggle |
| Notifications.Latest | project/src/components/NotificationBell.tsx:63-76 | at most ten, all the teacher's and sent, and the first of those in order |
| Notifications.MarkedRead | project/src/components/NotificationBell.tsx:109-111 | same length; the clicked id is read, every other item as it was |
| Notifications.MarkedReadUnread | project/src/components/NotificationBell.tsx:109-111 | marking never adds an unread item, and changes nothing when the id is not unread |
| Notifications.MarkedReadSlices | project/src/components/NotificationBell.tsx:109-111 | marking read works item by item: on the items before and after any position it is the same marking |
| Notifications.DecrementedUnread | project/src/components/NotificationBell.tsx:112 | `Math.max(0, prev - 1)` |
| Notifications.ReadClickMiscounts | project/src/components/NotificationBell.tsx:112 | a click on a read item lowers the badge below the number still unread |
| Notifications.UnreadAfterClick | project/src/components/NotificationBell.tsx:109-112 | the badge after a click is the number still unread, never above the number before |
| Notifications.ClickOnUnread | project/src/components/NotificationBell.tsx:109-112 | on the only item with an unread id the recount is one less |
| Notifications.MessageTellsLeadTime | project/src/components/NotificationBell.tsx:118-127 | two messages for the same student and subject are equal only for the same lead time |
| Notifications.Message | project/src/components/NotificationBell.tsx:118-127 | the message starts with the student's name and ends with the fixed "sonra başlayacak." ending |
| Notifications.NotificationBell.constructor | project/src/components/NotificationBell.tsx:22-24 | no notifications and a zero badge |
| Notifications.NotificationBell.Fetch | project/src/components/NotificationBell.tsx:50-91 | the latest ten, the badge counting the unread, and the sound exactly when one is unread; nothing changes without a profile or on failure |
| Notifications.SoleUnreadDecrements | project/src/components/NotificationBell.tsx:109-112 | when exactly one notification has the clicked id and it is unread, the recount is one less than before |
| Notifications.NotificationBell.MarkAsRead | project/src/components/NotificationBell.tsx:100-116 | on success that id is read and the badge is lowered by one (not below zero); the badge stays right after a click on the sole unread item with that id, and is wrong after a click when nothing unread had that id and the badge was above zero; on failure nothing changes |
| Notifications.NotificationBell.MarkAsReadRecounted | project/src/components/NotificationBell.tsx:109-112 | the corrected click: on success the badge is the number still unread, so the badge is right whatever was clicked |
| Payments.FilteredPayments | project/src/pages/Payments.tsx:249-257 | exactly the payments whose student or description contains the query, ignoring case, with the chosen status |
| Payments.EmptySearchListsAll | project/src/pages/Payments.tsx:249-257 | no query and no status list every payment |
| Payments.StatusFilterExact | project/src/pages/Payments.tsx:255 | a status filter keeps exactly the payments of that status |
| Payments.TotalAmount | project/src/pages/Payments.tsx:259-261 | the total is the sum of the amounts of the completed payments listed |
| Payments.OtherStatusTotalsZero | project/src/pages/Payments.tsx:255-261 | filtering on any other status totals 0 |
| Payments.PendingIgnoresFilters | project/src/pages/Payments.tsx:311 | the pending count is over all payments, at least the number of pending ones listed |
| Payments.PendingCount | project/src/pages/Payments.tsx:311 | the number of pending payments among all payments: 0 exactly when none is pending |
| Payments.AddedPaymentEffect | project/src/pages/Payments.tsx:158 | a prepended payment is listed first when it matches, and adds to the pending count and total as its status says |
| Payments.UpdatedPaymentEffect | project/src/pages/Payments.tsx:199 | with unique ids an update replaces one position and the total changes by the difference |
| Payments.DeletedPaymentEffect | project/src/pages/Payments.tsx:228 | with unique ids a delete removes one position and its amount and pending mark |
| Payments.EditForm | project/src/pages/Payments.tsx:236-247 | the amount as its text, the date as its `YYYY-MM-DD` text, the description or `""` |
| Payments.Request | project/src/pages/Payments.tsx:140-148 | the row sent: `parseFloat` of the amount and the form's other fields; none when the date cannot be read |
| Payments.EditThenSave | project/src/pages/Payments.tsx:236-247 | saving an unchanged edit writes the payment back, with `""` for a missing description |
| Payments.BlankFormHasNoAmount | project/src/pages/Payments.tsx:160-167 | a blank form's amount reads as NaN and its date is today |
| Payments.PaymentsPage.constructor | project/src/pages/Payments.tsx:53-71 | no payments, a blank form, nothing selected, the dialog closed |
| Payments.PaymentsPage.AddPayment | project/src/pages/Payments.tsx:137-173 | on success the saved row is prepended and the form cleared; otherwise nothing changes |
| Payments.PaymentsPage.UpdatePayment | project/src/pages/Payments.tsx:175-215 | with a selection and on success that id is replaced and the form cleared; otherwise nothing changes |
| Payments.PaymentsPage.DeletePayment | project/src/pages/Payments.tsx:217-234 | a confirmed delete that succeeds drops that id; otherwise nothing changes |
| Payments.PaymentsPage.EditPayment | project/src/pages/Payments.tsx:236-247 | selects the payment and loads the form from it |
| StudentForm.TimeSlotsExact | project/src/components/StudentForm.tsx:40 | the seven slots `17:00` to `23:00` |
| StudentForm.ApplyEntryEdit | project/src/components/StudentForm.tsx:179-183 | an edit changes its own field of the entry and no other |
| StudentForm.LoadedTime | project/src/components/StudentForm.tsx:82 | `substring(0, 5)` |
| StudentForm.TimeRoundTrip | project/src/components/StudentForm.tsx:145 | a `HH:MM` time stored and loaded comes back, and so does a stored `HH:MM:00` time |
| StudentForm.TimeSlotsRoundTrip | project/src/components/StudentForm.tsx:40 | every slot survives the round trip |
| StudentForm.NewRows | project/src/components/StudentForm.tsx:140-148 | one row per entry, of that student, planned, with its subject, day and time plus `:00` |
| StudentForm.NewRow | project/src/components/StudentForm.tsx:142-148 | a planned lesson of the student with the entry's subject and day, a start time that loads back as the entry's, and the parsed price |
| StudentForm.LoadEntries | project/src/components/StudentForm.tsx:78-84 | loading fails exactly when some row has no price; otherwise one entry per row |
| StudentForm.LoadEntry | project/src/components/StudentForm.tsx:79-84 | nothing exactly when the row has no price; otherwise the subject and day, a price text that reads back as the stored price, and a time that stores back as a stored `HH:MM:00` |
| StudentForm.SaveThenLoad | project/src/components/StudentForm.tsx:140-148 | saved entries load back as entered when every price parses, and loading fails when one does not |
| StudentForm.ReplaceLessons | project/src/components/StudentForm.tsx:128-151 | after delete then insert, the student's lessons are exactly the new rows and the others' are unchanged |
| StudentForm.InitialFields | project/src/components/StudentForm.tsx:45-51 | the fields of the student being edited, or empty |
| StudentForm.UnchangedFieldsWritten | project/src/components/StudentForm.tsx:108-111 | saving unchanged fields keeps the name and writes `""` for a missing grade |
| StudentForm.WriteFields | project/src/components/StudentForm.tsx:108-111 | the update writes the five form fields and keeps the id and the teacher |
| StudentForm.Editor.constructor | project/src/components/StudentForm.tsx:43-53 | no teacher, the initial fields, no entries |
| StudentForm.Editor.Open | project/src/components/StudentForm.tsx:55-91 | the form stays open exactly when the profile is found and, on an edit, the lesson query succeeds and every lesson has a price; the teacher is set once the profile is found, even when the lesson query fails after it; the entries are the student's lessons read back |
| StudentForm.Editor.AddLesson | project/src/components/StudentForm.tsx:163-173 | appends the blank entry |
| StudentForm.Editor.RemoveLesson | project/src/components/StudentForm.tsx:175-177 | removes the entry at that index |
| StudentForm.Editor.UpdateLesson | project/src/components/StudentForm.tsx:179-183 | replaces only the entry at that index, with one field changed |
| StudentForm.Editor.Submit | project/src/components/StudentForm.tsx:94-161 | refused without a teacher; writes or inserts the student, deletes the old lessons and inserts the new, stopping at the first failure; saved exactly when every step ran |
| Students.NextSort | project/src/pages/Students.tsx:114-121 | the same field flips the direction; another field sorts ascending by it |
| Students.SortTwice | project/src/pages/Students.tsx:114-121 | two presses on the same field restore the state |
| Students.SortParity | project/src/pages/Students.tsx:114-121 | from the initial state, n presses on another field end ascending exactly when n is odd |
| Students.FilteredStudents | project/src/pages/Students.tsx:123-128 | exactly the students whose name, grade, phone or parent name contains the query, ignoring case |
| Students.EmptySearchListsAll | project/src/pages/Students.tsx:123-128 | the empty query lists every student |
| Students.SearchIgnoresCase | project/src/pages/Students.tsx:123-128 | the query's case does not change the list |
| Students.CascadeKeepsLessonsOwned | project/src/pages/Students.tsx:82-100 | deleting the lessons, then the student, never leaves a lesson without its student |
| Students.OwnedAfterStudentDeleted | project/src/pages/Students.tsx:93-100 | deleting a student without lessons leaves none orphaned |
| Students.StudentFirstOrphans | project/src/pages/Students.tsx:82-100 | the other order would orphan a lesson |
| Students.StudentsPage.constructor | project/src/pages/Students.tsx:21-26 | no students, no query, sorted by full name ascending |
| Students.StudentsPage.Sort | project/src/pages/Students.tsx:114-121 | the sort state after a press |
| Students.StudentsPage.Delete | project/src/pages/Students.tsx:67-112 | each outcome by the first failing step; lessons, then the student, are deleted only when the steps before succeeded; the list drops the id only on full success |
| Lessons.FilteredResources | project/src/pages/Lessons.tsx:270-279 | exactly the resources whose title, description or a tag contains the query, ignoring case, in the chosen subject |
| Lessons.EmptySearchListsSubject | project/src/pages/Lessons.tsx:270-279 | the empty query lists the subject's resources, or all |
| Lessons.TagFindsResource | project/src/pages/Lessons.tsx:274 | searching for one of its tags finds a resource |
| Lessons.Cleaned | project/src/pages/Lessons.tsx:103 | the blank entries are dropped and every other kept |
| Lessons.CleanedKeepsOrder | project/src/pages/Lessons.tsx:103 | cleaning keeps the order, is idempotent and drops a lone blank |
| Lessons.SubjectRow | project/src/pages/Lessons.tsx:98-104 | the saved subject has the form's name and its cleaned objectives |
| Lessons.UploadPathExtension | project/src/pages/Lessons.tsx:125-127 | the path is the random name, a '.', and the text after the last '.', or the whole name without one |
| Lessons.UploadPath | project/src/pages/Lessons.tsx:125-127 | the random name, a dot, then a dot-free suffix of the file name |
| Lessons.ResourceRow | project/src/pages/Lessons.tsx:137-146 | the saved resource has the form's subject, the uploaded path and the cleaned tags |
| Lessons.FilesOfPrefix | project/src/pages/Lessons.tsx:233-241 | each further resource adds its file, if it has one |
| Lessons.FilesOfExact | project/src/pages/Lessons.tsx:233-241 | the files of the resources are exactly their non-empty paths |
| Lessons.FirstBroken | project/src/pages/Lessons.tsx:233-241 | the loop stops at the first resource whose file cannot be removed |
| Lessons.CascadeKeepsResourcesOwned | project/src/pages/Lessons.tsx:243-257 | deleting the resources, then the subject, never leaves a resource without its subject |
| Lessons.OwnedAfterSubjectDeleted | project/src/pages/Lessons.tsx:252-257 | deleting a subject without resources leaves none orphaned |
| Lessons.AllFilesRemoved | project/src/pages/Lessons.tsx:233-241 | the loop runs through exactly when no file fails, and then every file is gone |
| Lessons.DeletedSubjectResourcesStillListed | project/src/pages/Lessons.tsx:259-261 | after a subject is deleted its resources are still listed on the page |
| Lessons.LessonsPage.constructor | project/src/pages/Lessons.tsx:42-46 | no subjects, no resources, no query, no subject chosen |
| Lessons.LessonsPage.AddSubject | project/src/pages/Lessons.tsx:95-118 | on success the subject is appended to the table and the page |
| Lessons.LessonsPage.AddResource | project/src/pages/Lessons.tsx:120-165 | the file is uploaded first; on success the row is stored and prepended on the page; a failed insert leaves the uploaded file |
| Lessons.LessonsPage.StoreResource | project/src/pages/Lessons.tsx:129-151 | the upload and insert steps for a known path |
| Lessons.LessonsPage.DeleteResource | project/src/pages/Lessons.tsx:192-220 | the file, then the row, stopping at the first failure; the page drops the id only on success |
| Lessons.LessonsPage.DeleteSubject | project/src/pages/Lessons.tsx:222-268 | the files up to the first failure, then the resource rows if any, then the subject; the page drops the subject only on success and keeps its resources |
| Lessons.LessonsPage.DeleteRows | project/src/pages/Lessons.tsx:243-261 | the resource rows if any, then the subject |
| Lessons.RemoveFiles | project/src/pages/Lessons.tsx:233-241 | every file up to the first failure is removed, and the failing one is reported |
| Profile.CheckAvatar | project/src/pages/Profile.tsx:138-145 | rejected as too large exactly above 5·1024·1024 bytes, as not an image exactly when the type does not start with `image/`, accepted otherwise |
| Profile.AvatarSizeLimit | project/src/pages/Profile.tsx:138-140 | 5242880 bytes pass and 5242881 are too large |
| Profile.Decimal | project/src/pages/Profile.tsx:156 | the decimal text of an id, read back as the id |
| Profile.AvatarPathsDistinct | project/src/pages/Profile.tsx:155-157 | two avatar paths are equal exactly for the same profile and the same extension |
| Profile.AvatarPath | project/src/pages/Profile.tsx:155-157 | inside the `avatars/` folder; the leading digits read back as the profile id, a dot follows, and after it comes the file name's text after its last dot |
| Profile.PathsDistinct | project/src/pages/Profile.tsx:155-157 | folder, decimal id, dot and extension: equal paths mean equal ids and extensions |
| Profile.Ids | project/src/pages/Profile.tsx:79-86 | one id per student, in order |
| Profile.TeacherStats | project/src/pages/Profile.tsx:57-98 | the number of the teacher's students, the number of their lessons and completed lessons, and the sum of their completed payments; a failed student query gives no statistics, and a failed lessons or payments query gives 0 for its part |
| Profile.CompletedAmongLessons | project/src/pages/Profile.tsx:91 | the completed lessons of the students are counted over the lessons read |
| Profile.EarningsAgreeWithPaymentsPage | project/src/pages/Profile.tsx:85-93 | the earnings equal the payments page's total for the same students |
| Profile.EarningsAfterPayment | project/src/pages/Profile.tsx:85-93 | a new payment adds its amount exactly when it is completed and of one of the students |
| Profile.WithFields | project/src/pages/Profile.tsx:108-112 | only the name, phone and subject come from the form |
| Profile.SaveUnchangedForm | project/src/pages/Profile.tsx:108-112 | saving the row's own fields changes nothing, and saving twice is saving once |
| Profile.AfterOldRemoved | project/src/pages/Profile.tsx:148-152 | the old avatar is gone unless removing it failed; no other file is touched |
| Profile.ProfilePage.constructor | project/src/pages/Profile.tsx:40-55 | the profile given and no statistics |
| Profile.ProfilePage.FetchStats | project/src/pages/Profile.tsx:57-98 | the statistics of the teacher, unchanged without one |
| Profile.ProfilePage.UpdateProfile | project/src/pages/Profile.tsx:100-128 | on success the row gets the three fields and the page shows the row; only the profile rows can change |
| Profile.ProfilePage.ChangeAvatar | project/src/pages/Profile.tsx:130-189 | nothing without a file or profile, a rejection that writes nothing, or the remove, upload and update steps in order; only the profile rows and the avatar bucket can change |
| Profile.ProfilePage.StoreAvatar | project/src/pages/Profile.tsx:147-178 | the remove, upload and update steps for a known path; only the profile rows and the avatar bucket can change |
| Profile.ProfilePage.RemoveAvatar | project/src/pages/Profile.tsx:191-225 | nothing without an avatar; the file, then the path, stopping at the first failure; on success the path is null and the file gone; only the profile rows and the avatar bucket can change |

## Left out

- The hosted database, authentication, storage and the client setup. Each remote call is a step on in-memory tables, and whether it fails is a parameter of the step; a failed read counts as no rows where the page reads `data || []`, and keeps what is shown where the page returns early. The signed-in user and the teacher's profile id are parameters.
- Markup, modals, toasts, loading flags, charts, routing and the navigation bar, which compute nothing.
- The polling interval of the notification bell, parallel fetches and the audio element. `Notifications.NotificationBell.Fetch` returns whether the sound plays.
- Rendering of Word documents and JSON files, and saving them. A document is modelled as its header and rows of cell texts.
- Floating-point arithmetic. Money and durations are exact reals, and `Math.round` is exact half-up rounding.
- Time zones and times of day. `new Date()` is a parameter (`today`). A stored date is a day. `toISOString` is the `YYYY-MM-DD` text of the day.
- Number formatting (`toString`, `toLocaleString`). A number the page fills into a form is kept as that number (`Numbers.Printed`).
- Numbers.ParseFloat: reads plain decimals only, without exponents and without `Infinity`.
- Invoice.ApplyEdit: a duration or price is a real. In the source, `parseFloat` of an emptied duration or price field is NaN, which makes that line's amount and the invoice total NaN; NaN is not modelled.
- Ids: the service's UUID strings are modelled as natural numbers. Profile.AvatarPath writes the id as its decimal text.
- Query order: the `order` clauses of the queries (dashboard lessons by start time, notifications by creation time) are not modelled. Rows are taken in table order, and the notification rows are given newest first.
- Sorting.SortBy: a sort by the time-slot key. It does not state that the sort is stable.
- `localeCompare` and the default sort: modelled as code-point order, which agrees with them on the `HH:MM` slot texts.
- Strings: a Dafny `char` is a Unicode scalar value, where a JavaScript string is UTF-16 code units. The two differ only for characters outside the Basic Multilingual Plane, which count as one character here and two in the source.
- Text.Lower: ASCII letters only. No locale-specific case mapping.
- Settings.Merge: spreading a stored value that is not an object (such as a string) contributes no keys. In JavaScript a string would spread its characters.
- Lessons.UploadPath: `Math.random()` is a parameter (`random`). That the random names differ is not modelled.
- Students.StudentsPage.Sort: the page never calls the sort handler, so the sort state does not order the list.
- The `.single()` lookups assume the looked-up id is unique, as a primary key is. Anything else counts as a failed query.
- The local resource list after a subject is deleted: it is left as it was, as the page leaves it (`Lessons.DeletedSubjectResourcesStillListed`).
- `averagePrice` in the student report: it is computed and never used, and it divides by zero without lessons.
- Form validation by the browser (`required` fields). A form is submitted as it stands.
- The download of a resource file and the listing queries that only fill the page, such as the schedule page's student list. The schedule page's insert of the default time slots, whose result the page does not read, changes no modelled state.

## Findings

| source | as written | input that shows it | evidently intended | confidence | as-written member | corrected member |
|---|---|---|---|---|---|---|
| project/src/components/NotificationBell.tsx:112 | every click on a listed notification lowers the unread badge by one (`Math.max(0, prev - 1)`), whether or not it was unread | one unread notification (id 1) and one read (id 2), badge 1; click id 2: the badge shows 0 while id 1 is still unread | the badge counts the notifications still unread after the click | not executed | Notifications.ReadClickMiscounts | Notifications.NotificationBell.MarkAsReadRecounted |
