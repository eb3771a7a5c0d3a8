# Opsgenie alert analytics, modelled in Dafny

This project models the alert aggregator of the Opsgenie analytics plugin, the class
`AnalitycsalertsApi` in `src/analyticsalerts.ts`. The class takes a report context: a range
`[from, to]`, the alerts of that range and the known teams. It turns the context into nine chart
series:

- alerts per hour of day;
- alerts per weekday;
- alerts per ISO week and priority;
- alerts per ISO week, split into business-hours and on-call alerts;
- alerts per weekday, week, month and quarter, with a column per responding team;
- the mean impact duration per week and responding team.

Each view works the same way. It builds zero-filled buckets, counts every alert into the bucket of
its creation instant, lists the buckets and sorts them.

The model has two layers:

- **`Alerts`** gives each view as a function of the context, stated with counts, tallies and
  means. The lemmas about those functions state what the views promise: the number of points,
  their order and their keys, which alerts each counter counts, that the totals add up to the
  number of alerts, that the business and on-call counters split each total, and the means.
- **`Analytics`** holds `AnalyticsAlertsApi`. Its methods are imperative, as the source is. They
  use a mutable bucket table (a `map` for the keyed buckets, an `array` for the hour and weekday
  buckets), a loop over the alerts, an emission loop and an in-place sort. Each method is proved
  to return the Alerts view function it models: AlertsByHour returns HourlyView, AlertsByDay
  DailyView, AlertsByWeekAndSeverity SeverityView, AlertsByWeekAndHours HoursView,
  AlertsByDayAndResponder DayResponderView, AlertsByWeekAndResponder, AlertsByMonthAndResponder
  and AlertsByQuarterAndResponder ResponderView, and ImpactByWeekAndResponder ImpactView.

The other modules:

- `Teams`: responder resolution (`teamName`, `respondingTeam`).
- `Moments`: the moment functions the views call.
- `Periods`: the bucket generation loop that all period views share.
- `Sorting`: `sortByDate` and the comparison sorts of the hour and weekday views.
- `Decimal`: numerals as template literals write them and as `parseInt` reads them.
- `Tallies`: counting over sequences.

Time is a number of minutes since 1970-01-01 00:00 local time. `hour()`, `day()` and
`startOf('isoWeek')` are arithmetic on that number. `isoWeek()`, `year()`, `month()`,
`quarter()`, `add(1, 'month')` and `add(1, 'quarter')` belong to the Gregorian calendar. They are
fields of a `Calendar` value that the period views take as a parameter.

**Missing buckets.** The source counts an alert with `alertsBuckets[key].… += 1`. When the
alert's key was never generated, that line reads a property of `undefined` and throws. The
methods that can throw therefore require `Bucketed`, which says every alert has its bucket. The
severity view requires `SeverityBucketed`, which asks this only for alerts of priority P1 to P5,
because only those touch their bucket. These preconditions can fail on real input:

- The week key is `w${isoWeek()} - ${year()}`, with the calendar year rather than the ISO
  week-year. So the Monday 2024-12-30 has the key `w1 - 2024`, while an alert on 2025-01-02 has
  the key `w1 - 2025`.
- The month and quarter cursors start at `from` itself, not at the start of its month. For
  `from` on 15 January and `to` on 10 February, the cursor visits only 15 January, because
  15 February is after `to`. An alert on 5 February then has no bucket.

`Alerts.WeekBucketed` proves that every alert inside the range has its week bucket under any
calendar that gives all instants of an ISO week the key of their Monday.

The code's keys and week counts are not what their names suggest:

- The week key uses `year()`, not the ISO week-year.
- The month key is `${month() + 1}/${year()}`, with no spaces around the slash.
- A week range yields one point per ISO week only when those weeks have distinct keys.
  `Periods.WeekBucketsPerWeek` states exactly that.

The results are deterministic: every method is proved equal to a function of its arguments. So
calling a view twice on the same context gives the same result.

## Model

| member | source | states |
|---|---|---|
| Teams.TeamName | src/analyticsalerts.ts:14-22 | the name of the first team whose id matches; "Unknown" when no team has that id |
| Teams.TeamResponders | src/analyticsalerts.ts:29 | keeps exactly the team-typed responders, and the first of them is the first team-typed entry of the list |
| Teams.RespondingTeam | src/analyticsalerts.ts:24-36 | "Unknown" when no responder is team-typed; otherwise the team name of the first team-typed responder |
| Teams.RespondingTeamExamples | src/analyticsalerts.ts:24-36 | a user responder before a team responder is skipped; no team responder, or an id no team has, gives "Unknown" |
| Sorting.SortBy | src/analyticsalerts.ts:38-49 | the in-place sort leaves the array ordered by the key and a permutation of its old contents |
| Sorting.SortSeq | src/analyticsalerts.ts:38-49 | sorting a copy of the points gives them in key order, as the same multiset |
| Sorting.SortedPermutationUnique | src/analyticsalerts.ts:38-49 | when the keys of a sequence strictly increase, its only sorted permutation is that sequence; because bucket keys are distinct, the comparator's tie case never matters |
| Decimal.ParseDecimalString | src/analyticsalerts.ts:136-143 | `parseInt` of a bucket's numeral gives back the hour it was written from |
| Decimal.DecimalStringInjective | src/analyticsalerts.ts:126-127 | distinct numbers give distinct record keys, so the hour and weekday buckets do not collide |
| Decimal.SplitAtSeparator | src/analyticsalerts.ts:184 | numeral, separator, rest: two such keys are the same text only when both parts agree |
| Decimal.DecimalString | src/analyticsalerts.ts:126 | `${n}` as a record key: a non-empty string of decimal digits, with no leading zero unless n is 0 |
| Decimal.ParseDecimal | src/analyticsalerts.ts:143 | `parseInt(s, 10)` on a string of digits: the number the digits spell, most significant first |
| Moments.Hour | src/analyticsalerts.ts:133 | `hour()` is between 0 and 23 |
| Moments.WeekDay | src/analyticsalerts.ts:159 | `day()` is between 0 and 6 |
| Moments.StartOfIsoWeek | src/analyticsalerts.ts:179-180 | `startOf('isoWeek')`: midnight of the Monday that opens the ISO week of the instant; its properties are the three lemmas below |
| Moments.DayName | src/analyticsalerts.ts:164 | `format('dddd')` of weekday d: the English name of the day, Sunday for 0 to Saturday for 6 |
| Moments.DayKey | src/analyticsalerts.ts:159 | the weekday bucket key `day()` (the same at line 298), as the object key it becomes: the decimal digit of the weekday, "0" for Sunday to "6" for Saturday |
| Moments.WeekKey | src/analyticsalerts.ts:184 | the week key `w${isoWeek()} - ${year()}`; WeekKeyInjective states when two are equal |
| Moments.MonthKey | src/analyticsalerts.ts:343 | the month key `${month() + 1}/${year()}`; MonthKeyInjective states when two are equal |
| Moments.QuarterKey | src/analyticsalerts.ts:461 | the quarter key `Q${quarter()} - ${year()}`; QuarterKeyInjective states when two are equal |
| Moments.Advance | src/analyticsalerts.ts:197 | the cursor step of a period: `add(1, 'weeks')` is one week of minutes later; `add(1, 'month')` (line 353) and `add(1, 'quarter')` (line 471) are the calendar's month and quarter steps |
| Moments.StartOfIsoWeekIsMonday | src/analyticsalerts.ts:179-180 | `startOf('isoWeek')` is a Monday at midnight, at or before the instant and less than a week before it |
| Moments.StartOfIsoWeekGrid | src/analyticsalerts.ts:179-180 | week starts lie on a one-week grid; taking the start twice changes nothing |
| Moments.StartOfIsoWeekMonotone | src/analyticsalerts.ts:179-183 | a later instant never has an earlier week start |
| Moments.WeekKeyInjective | src/analyticsalerts.ts:184 | two week keys are equal if and only if `isoWeek()` and `year()` both agree |
| Moments.MonthKeyInjective | src/analyticsalerts.ts:343 | two month keys are equal if and only if `month()` and `year()` both agree |
| Moments.QuarterKeyInjective | src/analyticsalerts.ts:461 | two quarter keys are equal if and only if `quarter()` and `year()` both agree |
| Periods.Cursor | src/analyticsalerts.ts:183-197 | the instants the cursor visits: start, then each step after it, while not after end |
| Periods.FirstByKey | src/analyticsalerts.ts:186-195 | the candidate buckets in cursor order, skipping any whose key an earlier kept bucket has |
| Periods.Generated | src/analyticsalerts.ts:179-198 | the buckets the generation loop creates: FirstByKey of the candidates at each cursor instant |
| Periods.GeneratePeriods | src/analyticsalerts.ts:179-198 | the generation loop returns the first bucket of each key over the cursor positions from start to end inclusive |
| Periods.CursorIncreasing | src/analyticsalerts.ts:183-197 | the cursor positions strictly increase and stay within [start, end] |
| Periods.FirstByKeyKeys | src/analyticsalerts.ts:186-195 | `if (!alertsBuckets[key])` keeps distinct keys, one for every key any position has |
| Periods.FirstByKeyEarliest | src/analyticsalerts.ts:186-195 | a repeated key keeps the date of its earliest position |
| Periods.GeneratedInDateOrder | src/analyticsalerts.ts:179-198 | generated buckets have distinct keys and strictly ascending dates; each key is dated by its earliest position |
| Periods.GeneratedCoversCursor | src/analyticsalerts.ts:179-198 | every cursor position's key has a generated bucket |
| Periods.FirstByKeyOfDistinct | src/analyticsalerts.ts:186-195 | with no repeated key, the generation keeps every position |
| Periods.WeekCursor | src/analyticsalerts.ts:183-197 | from a Monday to the Monday n weeks later, the week cursor visits exactly those n + 1 Mondays |
| Periods.WeekSpanGrid | src/analyticsalerts.ts:179-180 | the week start of `to` is the week start of `from` plus a whole, non-negative number of weeks |
| Periods.WeekBucketsPerWeek | src/analyticsalerts.ts:179-198 | the week views visit one Monday per ISO week of the range, and give one bucket per week when their keys are distinct |
| Periods.WeekBucketExists | src/analyticsalerts.ts:179-202 | under a calendar coherent on ISO weeks, every instant of [from, to] has a week bucket |
| Alerts.HourOfDay | src/analyticsalerts.ts:575-577 | the hour an instant `isBusinessHours` compares is its minute of the day divided by 60 |
| Alerts.DefaultBusinessHoursBoundaries | src/analyticsalerts.ts:7-8 | with the default hours 9 to 18, 8:59 and 18:00 are on call and 9:00 and 17:59 are business hours |
| Alerts.InBusinessHours | src/analyticsalerts.ts:575-577 | `isBusinessHours`: the hour of the instant is at least the start hour and before the end hour |
| Alerts.BusinessHoursByMinute | src/analyticsalerts.ts:575-577 | an instant is in business hours if and only if its minute of the day lies in [start · 60, end · 60) |
| Alerts.BusinessHoursDaily | src/analyticsalerts.ts:575-577 | the classification repeats every day: an instant and the same minute a day later agree |
| Alerts.BusinessHoursExtremes | src/analyticsalerts.ts:575-577 | an end not after the start gives no business hours; hours covering 0 to 24 make every instant a business-hours one |
| Alerts.Duration | src/analyticsalerts.ts:541 | the impact duration in minutes: creation instant plus duration is the update instant, non-negative exactly when the update is not earlier |
| Alerts.ProjectSnoc | src/analyticsalerts.ts:130-134 | one more alert appends its projection |
| Alerts.TallyProjectSnoc | src/analyticsalerts.ts:130-134 | one more alert adds one to the tally of its own value and changes no other |
| Alerts.TallyProject | src/analyticsalerts.ts:130-134 | a bucket's tally is the number of alerts that fall in it |
| Alerts.HourlyView | src/analyticsalerts.ts:122-146 | the reference hourly view: for h from 0 to 23, the numeral of h and the number of alerts created in hour h |
| Alerts.HourlyViewPoints | src/analyticsalerts.ts:122-146 | 24 points for hours 0 to 23 in strictly ascending order; each counts the alerts of its hour, zero where there are none |
| Alerts.HourlyViewConservation | src/analyticsalerts.ts:126-134 | the hourly totals add up to the number of alerts |
| Alerts.DayAtMondayFirst | src/analyticsalerts.ts:171 | `(dayNum + 6) % 7` is the position of a weekday in the Monday-first order |
| Alerts.MondayFirst | src/analyticsalerts.ts:171 | the sort key `(dayNum + 6) % 7` of both weekday views (also line 326): Monday is 0 and Sunday is 6 |
| Alerts.DailyView | src/analyticsalerts.ts:148-174 | the reference weekday view: Monday to Sunday, each weekday's name, number and count of alerts |
| Alerts.DailyViewOrder | src/analyticsalerts.ts:162-171 | 7 points from Monday to Sunday in strictly ascending Monday-first order, each named after its weekday |
| Alerts.DailyViewCounts | src/analyticsalerts.ts:152-160 | each weekday point counts the alerts created on that weekday |
| Alerts.DailyViewConservation | src/analyticsalerts.ts:152-160 | the weekday totals add up to the number of alerts |
| Alerts.SpanStart | src/analyticsalerts.ts:179 | the first instant the bucket cursor visits: the start of the ISO week of `from` for weeks, `from` itself for months and quarters (lines 338 and 456) |
| Alerts.SpanEnd | src/analyticsalerts.ts:180 | the last instant the bucket cursor may visit: the start of the ISO week of `to` for weeks, `to` itself for months and quarters (lines 339 and 457) |
| Alerts.Buckets | src/analyticsalerts.ts:179-198 | the zero-filled buckets a period view starts from: those the generation loop creates from SpanStart to SpanEnd with the period's step and key (lines 338-354 and 456-472 for months and quarters) |
| Alerts.Bucketed | src/analyticsalerts.ts:260 | every alert's key is the key of a generated bucket, so `alertsBuckets[key]` is never `undefined` (the same lookup at lines 363, 422, 481 and 545); the hours view, the week, month and quarter responder views and the impact view require it |
| Alerts.BucketsOrdered | src/analyticsalerts.ts:179-198 | a view's buckets have distinct keys and strictly ascending dates |
| Alerts.WeekBucketed | src/analyticsalerts.ts:200-215 | under a calendar coherent on ISO weeks, every alert inside the range has its week bucket, so no week view throws |
| Alerts.BucketConservation | src/analyticsalerts.ts:256-267 | with distinct bucket keys that cover every alert, the bucket counts add up to the number of alerts |
| Alerts.BucketedKeys | src/analyticsalerts.ts:258-260 | under `Bucketed`, every alert's key is a generated key |
| Alerts.SeverityView | src/analyticsalerts.ts:176-232 | the reference severity view: for each generated week bucket, in generation order, its key, date and the tallies of its alerts of priority P1 to P5 |
| Alerts.SeverityViewOrder | src/analyticsalerts.ts:217-229 | one point per week bucket, with its key and date, in strictly ascending date order |
| Alerts.SeverityBucketed | src/analyticsalerts.ts:204-214 | every alert of priority P1 to P5 has its week bucket: only those alerts reach a lookup (line 205 and the four like it), so an alert of another priority may lie outside the range |
| Alerts.CountPriority | src/analyticsalerts.ts:204-214 | an alert of priority P1 to P5 adds one to that counter of its week; any other priority leaves the week as it is |
| Alerts.SeverityPointsAddAlert | src/analyticsalerts.ts:204-214 | one more keyed priority moves only the counter of that priority in that bucket |
| Alerts.SeverityViewAddAlert | src/analyticsalerts.ts:200-215 | one more alert adds one to exactly the counter of its priority in the point of its week; a priority other than P1 to P5 changes nothing |
| Alerts.SeverityKeysDisjoint | src/analyticsalerts.ts:204-214 | the counters of distinct weeks count disjoint sets of alerts |
| Alerts.SeverityCountIsCount | src/analyticsalerts.ts:204-214 | p1 + … + p5 of a week counts its alerts of priority P1 to P5 |
| Alerts.SeverityViewBound | src/analyticsalerts.ts:200-215 | every alert moves at most one counter: all counters of all weeks add up to at most the number of alerts |
| Alerts.HoursView | src/analyticsalerts.ts:234-282 | the reference hours view: for each generated week bucket, its key, date, alerts in business hours, alerts on call and all its alerts |
| Alerts.HoursViewOrder | src/analyticsalerts.ts:269-279 | one point per week bucket, with its key and date, in strictly ascending date order |
| Alerts.HoursPointsSplit | src/analyticsalerts.ts:260-266 | a bucket's total is its business-hours count plus its on-call count |
| Alerts.HoursViewSplit | src/analyticsalerts.ts:256-267 | each week's total is its business-hours alerts plus its on-call alerts |
| Alerts.HoursViewConservation | src/analyticsalerts.ts:256-267 | when every alert has its bucket, the weekly totals add up to the number of alerts |
| Alerts.SumCountsTallies | src/analyticsalerts.ts:318-320 | summing the responder fields of a point sums the bucket's tallies per responder |
| Alerts.ResponderList | src/analyticsalerts.ts:330 | the responders list `Object.keys(respondersMap)` (also lines 389, 448, 508 and 571): the responding teams of the alerts with repeats dropped, in order of first appearance |
| Alerts.ResponderListSpec | src/analyticsalerts.ts:299-301 | `Object.keys(respondersMap)` lists every responding team exactly once, in order of first appearance |
| Alerts.BucketTotalIsSumOfCounts | src/analyticsalerts.ts:303-308 | a bucket's total is the sum of its per-responder counters over the listed responders |
| Alerts.BucketCounts | src/analyticsalerts.ts:303-320 | a bucket counts its alerts; every listed responder has a field holding its number of alerts in the bucket, zero where it has none |
| Alerts.ResponderView | src/analyticsalerts.ts:334-510 | the reference week, month and quarter responder views: for each generated bucket its key, date, alert count and a count per listed team, with the list of responding teams |
| Alerts.ResponderViewPoints | src/analyticsalerts.ts:393-450 | the week, month and quarter views give one point per bucket in strictly ascending date order, with the bucket's alert count and a field per listed team holding that team's count there |
| Alerts.ResponderViewTotals | src/analyticsalerts.ts:415-439 | each point's total is the sum of its responder fields |
| Alerts.ResponderViewConservation | src/analyticsalerts.ts:415-428 | when every alert has its bucket, the totals add up to the number of alerts |
| Alerts.DayResponderView | src/analyticsalerts.ts:284-332 | the reference weekday responder view: Monday to Sunday, each weekday's name, number, alert count and a count per listed team, with the list of responding teams |
| Alerts.DayResponderViewOrder | src/analyticsalerts.ts:311-326 | 7 points from Monday to Sunday in strictly ascending Monday-first order |
| Alerts.DayResponderViewCounts | src/analyticsalerts.ts:296-323 | each weekday point counts that weekday's alerts, its total is the sum of its responder fields, and each listed team has a field holding its count that weekday |
| Alerts.DayResponderViewConservation | src/analyticsalerts.ts:296-309 | the weekday totals add up to the number of alerts |
| Alerts.MeanExamples | src/analyticsalerts.ts:519 | `average` of no durations is 0, of 10 and 30 is 20, of 5 is 5 |
| Alerts.Mean | src/analyticsalerts.ts:519 | `average`: 0 for no durations, otherwise the value that, times the number of durations, gives their sum |
| Alerts.SumBounds | src/analyticsalerts.ts:519 | durations between lo and hi sum to between n·lo and n·hi |
| Alerts.MeanBounds | src/analyticsalerts.ts:519 | the mean of durations between lo and hi lies between lo and hi |
| Alerts.KeyDurations | src/analyticsalerts.ts:550 | a week's `durations` list: the duration of each alert of that week, appended in alert order |
| Alerts.ResponderDurations | src/analyticsalerts.ts:549 | a team's list `responders[responder]` in a week: the duration of each alert of that week with that responding team, appended in alert order |
| Alerts.KeyDurationsExact | src/analyticsalerts.ts:536-551 | a week's durations are exactly those of its alerts: the j-th is the duration of the j-th alert, by position, whose key is the week's, and every such alert has one |
| Alerts.ResponderDurationsExact | src/analyticsalerts.ts:536-551 | a team's durations in a week are exactly those of its alerts there: the j-th is the duration of the j-th alert, by position, whose key is the week's and whose responding team is the team, and every such alert has one |
| Alerts.KeyDurationsCount | src/analyticsalerts.ts:550 | a week has one duration per alert in it |
| Alerts.ResponderDurationsCount | src/analyticsalerts.ts:549 | a team has one duration per alert it responded to in the week |
| Alerts.KeyDurationsFrom | src/analyticsalerts.ts:536-551 | every duration of a week is `updatedAt - createdAt` of one of its alerts |
| Alerts.KeyDurationsSnoc | src/analyticsalerts.ts:550 | one more alert appends its duration to its own week only |
| Alerts.ResponderDurationsSnoc | src/analyticsalerts.ts:549 | one more alert appends its duration to its own week and team only |
| Alerts.ImpactView | src/analyticsalerts.ts:512-573 | the reference impact view: for each generated week bucket its key, date, the mean duration of its alerts and the mean per listed team, with the list of responding teams |
| Alerts.ImpactPointMeans | src/analyticsalerts.ts:553-565 | a point's total is the mean of its week's durations, one per alert, and 0 when there are none; each listed team's field is the mean of its durations there, and 0 when it has none |
| Alerts.ImpactViewOrder | src/analyticsalerts.ts:553-567 | one point per week bucket, with its key and date, in strictly ascending date order |
| Analytics.ResponderFields | src/analyticsalerts.ts:318-320 | `dataPoint[responder] = … \|\| 0`: exactly the listed responders get a field, holding their counter or 0 |
| Analytics.MeanFields | src/analyticsalerts.ts:560-562 | exactly the listed responders get a field, holding the mean of their durations or 0 |
| Analytics.ResponderListStep | src/analyticsalerts.ts:301 | `respondersMap[responder] = true` appends the team when it is new and otherwise leaves the list as it is |
| Analytics.CountIn | src/analyticsalerts.ts:319 | `responders[responder] \|\| 0`: the team's counter in a bucket, 0 while it has none |
| Analytics.CountResponder | src/analyticsalerts.ts:303-308 | counting one alert of a team in a bucket: a counter of 0 is created for a new team, then that counter and the bucket total go up by one and every other counter stays |
| Analytics.TallyStep | src/analyticsalerts.ts:303-308 | counting one alert keeps every bucket's total and per-team counters equal to the tallies of the alerts seen so far |
| Analytics.TallyResponders | src/analyticsalerts.ts:296-309 | after the loop, every bucket holds its tallies over all alerts, and the responder list is in first-appearance order |
| Analytics.RecordDuration | src/analyticsalerts.ts:545-550 | recording one alert in a week: an empty list is created for a new team, then the duration is appended to that team's list and to the week's list, and every other list stays |
| Analytics.RecordStep | src/analyticsalerts.ts:545-550 | recording one alert keeps every bucket's duration lists equal to those of the alerts seen so far |
| Analytics.CollectDurations | src/analyticsalerts.ts:536-551 | after the loop, every bucket holds its durations per week and per team, and the responder list is in first-appearance order |
| Analytics.SeverityStep | src/analyticsalerts.ts:204-214 | counting one alert keeps every bucket's counters equal to the tallies of the alerts seen so far; an unrecognised priority touches no bucket |
| Analytics.CountSeverity | src/analyticsalerts.ts:204-214 | counting one alert in a week bucket: the counter of its priority goes up by one when it is P1 to P5, and nothing changes otherwise |
| Analytics.CountSeverityAgrees | src/analyticsalerts.ts:204-214 | the bucket step CountSeverity and the view step CountPriority move the same counter, and the week's key and date stay |
| Analytics.CountSeverities | src/analyticsalerts.ts:200-215 | after the loop, every week bucket counts its alerts of each priority |
| Analytics.CountShift | src/analyticsalerts.ts:260-266 | counting one alert in a week bucket: the total goes up by one, and so does the business-hours counter when the alert lies in business hours, the on-call counter otherwise |
| Analytics.ShiftStep | src/analyticsalerts.ts:260-266 | counting one alert keeps every bucket's total, business and on-call counters equal to the tallies so far |
| Analytics.CountShifts | src/analyticsalerts.ts:256-267 | after the loop, every week bucket counts its alerts in total, in business hours and on call |
| Analytics.ListSeverities | src/analyticsalerts.ts:217-227 | the emitted points are the severity points of the generated weeks |
| Analytics.ListHours | src/analyticsalerts.ts:269-277 | the emitted points are the hours points of the generated weeks |
| Analytics.ListResponderPoints | src/analyticsalerts.ts:430-442 | the emitted points are the responder points of the generated buckets |
| Analytics.ListImpactPoints | src/analyticsalerts.ts:553-565 | the emitted points are the impact points of the generated weeks |
| Analytics.DayBucketKeys | src/analyticsalerts.ts:289-294 | the weekday buckets are keyed by the numerals 0 to 6 |
| Analytics.ListDayResponderPoints | src/analyticsalerts.ts:311-323 | the emitted points are the weekday responder points, in weekday-number order |
| Analytics.AlertsByPeriodAndResponder | src/analyticsalerts.ts:393-450 | generation, counting, emission and sorting give the responder view of the granularity |
| Analytics.DayResponderSorted | src/analyticsalerts.ts:325-326 | sorting the weekday points Monday-first gives the weekday responder view |
| Analytics.DailySorted | src/analyticsalerts.ts:170-171 | sorting the weekday points Monday-first gives the weekday view |
| Analytics.AnalyticsAlertsApi.constructor | src/analyticsalerts.ts:118-120 | the aggregator keeps the business hours it is given |
| Analytics.AnalyticsAlertsApi.AlertsByHour | src/analyticsalerts.ts:122-146 | returns the hourly view: 24 points in hour order, each counting its hour's alerts |
| Analytics.AnalyticsAlertsApi.AlertsByDay | src/analyticsalerts.ts:148-174 | returns the weekday view, Monday first |
| Analytics.AnalyticsAlertsApi.AlertsByWeekAndSeverity | src/analyticsalerts.ts:176-232 | returns the severity view: one point per generated week, in date order, counting its alerts of each priority |
| Analytics.AnalyticsAlertsApi.AlertsByWeekAndHours | src/analyticsalerts.ts:234-282 | returns the hours view under the aggregator's business hours |
| Analytics.AnalyticsAlertsApi.AlertsByDayAndResponder | src/analyticsalerts.ts:284-332 | returns the weekday responder view and the responder list |
| Analytics.AnalyticsAlertsApi.AlertsByMonthAndResponder | src/analyticsalerts.ts:334-391 | returns the month responder view |
| Analytics.AnalyticsAlertsApi.AlertsByWeekAndResponder | src/analyticsalerts.ts:393-450 | returns the week responder view |
| Analytics.AnalyticsAlertsApi.AlertsByQuarterAndResponder | src/analyticsalerts.ts:452-510 | returns the quarter responder view |
| Analytics.AnalyticsAlertsApi.ImpactByWeekAndResponder | src/analyticsalerts.ts:512-573 | returns the impact view: per week, the mean duration overall and per team |

## Left out

- The moment library is not modelled. Its calendar (ISO week numbers, years, months, quarters, adding a month or a quarter) is a `Calendar` parameter. Time zones and daylight saving time are not modelled: a day is always 1440 minutes and a week 10080.
- `moment(alert.createdAt)`, the parsing of the timestamp: alerts carry their instants as minutes already.
- `diff(…, 'minutes')` truncates seconds: the model has no sub-minute precision, so a duration is `updatedAt - createdAt` exactly.
- Floating point: `average` is a real-number mean, with no rounding.
- `moment()` in `moment().day(day).format('dddd')` reads the clock. Only the weekday name matters, so the model uses a fixed table of English names.
- Object keys: a team name that is integer-like, that clashes with a field name (`total`, `period`, `date`, `dayNum`), or that Object.prototype supplies (`constructor`, `toString`) behaves in ways the model does not reproduce. For the prototype names, `responders[responder]` starts out truthy: the counting views then skip the zero-fill and `+= 1` concatenates onto a string (lines 303-307), and the impact view skips the `[]` and its `.push` throws (lines 545-549). The model treats every team name as an ordinary key: the data point's responder fields are kept in a separate map, and insertion order is followed for all keys.
- `alertanalyticsApiRef` / `createApiRef`, the commented-out `extraProperties` override, the HTTP client, pagination and the UI are outside the aggregator.
- `isBusinessHours` is not a member of the class. It is the predicate `Alerts.InBusinessHours`, which the hours view applies to the aggregator's `businessHours`.
- The three responder views over weeks, months and quarters repeat the same code. The model writes that code once, as `Analytics.AlertsByPeriodAndResponder`, with the granularity as a parameter.
- Buckets do not store their `date`. It is taken from the generated period, which is the same `minDate.clone()` value.
- Analytics.AnalyticsAlertsApi.AlertsByWeekAndHours: the TypeError thrown on an alert without a bucket is modelled as the precondition `Bucketed`, not as an error result.
- Analytics.AnalyticsAlertsApi.AlertsByWeekAndResponder: the TypeError thrown on an alert without a bucket is modelled as the precondition `Bucketed`, not as an error result.
- Analytics.AnalyticsAlertsApi.AlertsByMonthAndResponder: the TypeError thrown on an alert without a bucket is modelled as the precondition `Bucketed`, not as an error result.
- Analytics.AnalyticsAlertsApi.AlertsByQuarterAndResponder: the TypeError thrown on an alert without a bucket is modelled as the precondition `Bucketed`, not as an error result.
- Analytics.AnalyticsAlertsApi.ImpactByWeekAndResponder: the TypeError thrown on an alert without a bucket is modelled as the precondition `Bucketed`, not as an error result.
- Analytics.AnalyticsAlertsApi.AlertsByWeekAndSeverity: the same TypeError, for alerts of priority P1 to P5, is modelled as the precondition `SeverityBucketed`.
- Periods.GeneratePeriods: the cursor step is required to move forward (`Advances`). That is what makes the loop end, and the month and quarter views rely on `add(1, 'month')` and `add(1, 'quarter')` doing so.
