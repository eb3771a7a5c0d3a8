/** The alerts the aggregator reads, its query context, and each of its nine views written as a
    function of the context: the specification the methods of AnalyticsAlertsApi are proved against. */
module Alerts {
  import opened Decimal
  import opened Moments
  import opened Tallies
  import opened Sorting
  import opened Teams
  import opened Periods

  /** An alert as the aggregator reads it; createdAt and updatedAt are instants. */
  datatype Alert = Alert(
    id: string,
    createdAt: int,
    updatedAt: int,
    priority: string,
    responders: seq<ResponderRef>)

  /** The query: the range [from, to], the alerts of that range and the known teams. */
  datatype Context = Context(from: int, to: int, alerts: seq<Alert>, teams: seq<Team>)

  datatype BusinessHours = BusinessHours(start: int, end: int)

  /** DEFAULT_ALERTS_BUSINESS_HOURS_START and DEFAULT_ALERTS_BUSINESS_HOURS_END. */
  const DefaultBusinessHours := BusinessHours(9, 18)

  /** isBusinessHours: the hour the alert started at is at least the start hour and before the
      end hour. */
  predicate InBusinessHours(bh: BusinessHours, t: int) {
    Hour(t) >= bh.start && Hour(t) < bh.end
  }

  lemma HourOfDay(day: int, minute: int)
    requires 0 <= minute < MinutesPerDay
    ensures Hour(day * MinutesPerDay + minute) == minute / MinutesPerHour
  {
    assert (day * MinutesPerDay + minute) % MinutesPerDay == minute;
  }

  /** With the default 9 to 18 business hours, on any day, 8:59 and 18:00 are on call while
      9:00 and 17:59 are business hours. */
  lemma DefaultBusinessHoursBoundaries(day: int)
    ensures !InBusinessHours(DefaultBusinessHours, day * MinutesPerDay + 8 * 60 + 59)
    ensures InBusinessHours(DefaultBusinessHours, day * MinutesPerDay + 9 * 60)
    ensures InBusinessHours(DefaultBusinessHours, day * MinutesPerDay + 17 * 60 + 59)
    ensures !InBusinessHours(DefaultBusinessHours, day * MinutesPerDay + 18 * 60)
  {
    HourOfDay(day, 8 * 60 + 59);
    HourOfDay(day, 9 * 60);
    HourOfDay(day, 17 * 60 + 59);
    HourOfDay(day, 18 * 60);
  }

  /** The reference reading of the business hours: the minute of the day lies in
      [start * 60, end * 60). */
  lemma {:induction false} BusinessHoursByMinute(bh: BusinessHours, t: int)
    ensures InBusinessHours(bh, t) <==>
            bh.start * MinutesPerHour <= t % MinutesPerDay < bh.end * MinutesPerHour
  {
    var m := t % MinutesPerDay;
    var h, r := m / MinutesPerHour, m % MinutesPerHour;
    assert m == MinutesPerHour * h + r && 0 <= r < MinutesPerHour;
    assert Hour(t) == h;
    if h >= bh.start {
      assert MinutesPerHour * h >= MinutesPerHour * bh.start;
    } else {
      assert MinutesPerHour * h <= MinutesPerHour * (bh.start - 1);
    }
    if h < bh.end {
      assert MinutesPerHour * h <= MinutesPerHour * (bh.end - 1);
    } else {
      assert MinutesPerHour * h >= MinutesPerHour * bh.end;
    }
  }

  /** The classification repeats every day: an instant and the same minute a day later agree. */
  lemma BusinessHoursDaily(bh: BusinessHours, t: int)
    ensures InBusinessHours(bh, t + MinutesPerDay) == InBusinessHours(bh, t)
  {
    assert (t + MinutesPerDay) % MinutesPerDay == t % MinutesPerDay;
  }

  /** Business hours whose end is not after their start contain no instant; business hours
      covering 0 to 24 contain every instant. */
  lemma BusinessHoursExtremes(bh: BusinessHours, t: int)
    ensures bh.end <= bh.start ==> !InBusinessHours(bh, t)
    ensures bh.start <= 0 && 24 <= bh.end ==> InBusinessHours(bh, t)
  {
  }

  // Projections of the alert list

  /** The value f gives each alert, in alert order. */
  function Project<X>(alerts: seq<Alert>, f: Alert -> X): (xs: seq<X>)
    ensures |xs| == |alerts|
    ensures forall i :: 0 <= i < |alerts| ==> xs[i] == f(alerts[i])
  {
    if |alerts| == 0 then [] else Project(alerts[..|alerts| - 1], f) + [f(alerts[|alerts| - 1])]
  }

  lemma ProjectSnoc<X>(alerts: seq<Alert>, a: Alert, f: Alert -> X)
    ensures Project(alerts + [a], f) == Project(alerts, f) + [f(a)]
  {
    assert (alerts + [a])[..|alerts|] == alerts;
  }

  /** One more alert adds one to the tally of its own projection and changes no other. */
  lemma TallyProjectSnoc<X>(alerts: seq<Alert>, a: Alert, f: Alert -> X)
    ensures forall x :: Tally(Project(alerts + [a], f), x) == Tally(Project(alerts, f), x) + (if f(a) == x then 1 else 0)
  {
    ProjectSnoc(alerts, a, f);
    forall x
      ensures Tally(Project(alerts + [a], f), x) == Tally(Project(alerts, f), x) + (if f(a) == x then 1 else 0)
    {
      CountSnoc(Project(alerts, f), f(a), {x});
    }
  }

  /** The positions of the alerts that f maps to x. */
  function Matching<X(==)>(alerts: seq<Alert>, f: Alert -> X, x: X): set<int> {
    set i | 0 <= i < |alerts| && f(alerts[i]) == x
  }

  /** A projected tally is the number of alerts that f maps to x. */
  lemma TallyProject<X>(alerts: seq<Alert>, f: Alert -> X, x: X)
    ensures Tally(Project(alerts, f), x) == |Matching(alerts, f, x)|
  {
    var s := Project(alerts, f);
    CountIsCardinality(s, {x});
    forall i
      ensures i in Positions(s, {x}) <==> i in Matching(alerts, f, x)
    {
      if 0 <= i < |s| {
        assert s[i] == f(alerts[i]);
      }
    }
    assert Positions(s, {x}) == Matching(alerts, f, x);
  }

  function HourOf(a: Alert): int {
    Hour(a.createdAt)
  }

  function WeekDayOf(a: Alert): int {
    WeekDay(a.createdAt)
  }

  /** The key of the weekday bucket an alert falls in. */
  function DayKeyOf(a: Alert): string {
    DayKey(a.createdAt)
  }

  /** The key of the period bucket an alert falls in: `w${isoWeek()} - ${year()}` and so on. */
  function PeriodKeyOf(cal: Calendar, g: Granularity): Alert -> string {
    (a: Alert) => KeyOf(cal, g)(a.createdAt)
  }

  /** respondingTeam of an alert. */
  function ResponderOf(teams: seq<Team>): Alert -> string {
    (a: Alert) => RespondingTeam(teams, a.responders)
  }

  /** impactDuration: alertEnd.diff(alertDate, 'minutes'). */
  function Duration(a: Alert): (d: int)
    ensures a.createdAt + d == a.updatedAt
    ensures d >= 0 <==> a.createdAt <= a.updatedAt
  {
    a.updatedAt - a.createdAt
  }

  /** Every alert's bucket key. */
  function Keys(key: Alert -> string, alerts: seq<Alert>): seq<string> {
    Project(alerts, key)
  }

  function KeyPriorityOf(key: Alert -> string): Alert -> (string, string) {
    (a: Alert) => (key(a), a.priority)
  }

  /** Every alert's bucket key with its priority. */
  function KeyedPriorities(key: Alert -> string, alerts: seq<Alert>): seq<(string, string)> {
    Project(alerts, KeyPriorityOf(key))
  }

  function KeyShiftOf(bh: BusinessHours, key: Alert -> string): Alert -> (string, bool) {
    (a: Alert) => (key(a), InBusinessHours(bh, a.createdAt))
  }

  /** Every alert's bucket key with whether it started in business hours. */
  function KeyedShifts(bh: BusinessHours, key: Alert -> string, alerts: seq<Alert>): seq<(string, bool)> {
    Project(alerts, KeyShiftOf(bh, key))
  }

  /** Every alert's responding team. */
  function RespondersOf(teams: seq<Team>, alerts: seq<Alert>): seq<string> {
    Project(alerts, ResponderOf(teams))
  }

  function KeyResponderOf(key: Alert -> string, teams: seq<Team>): Alert -> (string, string) {
    (a: Alert) => (key(a), RespondingTeam(teams, a.responders))
  }

  /** Every alert's bucket key with its responding team. */
  function KeyedResponders(key: Alert -> string, teams: seq<Team>, alerts: seq<Alert>): seq<(string, string)> {
    Project(alerts, KeyResponderOf(key, teams))
  }

  /** `Object.keys(respondersMap)`: the responding teams, each once, in order of first appearance. */
  function ResponderList(teams: seq<Team>, alerts: seq<Alert>): seq<string> {
    Dedup(RespondersOf(teams, alerts))
  }

  /** The durations of the alerts in bucket k, in alert order. */
  function KeyDurations(key: Alert -> string, alerts: seq<Alert>, k: string): seq<int> {
    if |alerts| == 0 then []
    else
      var a := alerts[|alerts| - 1];
      KeyDurations(key, alerts[..|alerts| - 1], k) + (if key(a) == k then [Duration(a)] else [])
  }

  /** The durations of the alerts in bucket k whose responding team is r, in alert order. */
  function ResponderDurations(key: Alert -> string, teams: seq<Team>, alerts: seq<Alert>, k: string, r: string): seq<int> {
    if |alerts| == 0 then []
    else
      var a := alerts[|alerts| - 1];
      ResponderDurations(key, teams, alerts[..|alerts| - 1], k, r) +
        (if key(a) == k && RespondingTeam(teams, a.responders) == r then [Duration(a)] else [])
  }

  // alertsByHour

  datatype HourlyAlerts = HourlyAlerts(hour: string, total: nat)

  function HourNumber(p: HourlyAlerts): int {
    ParseDecimal(p.hour)
  }

  function HourlyTotal(p: HourlyAlerts): int {
    p.total
  }

  /** One point per hour of the day, in hour order, counting the alerts created in that hour. */
  function HourlyView(alerts: seq<Alert>): seq<HourlyAlerts> {
    seq(24, h requires 0 <= h => HourlyAlerts(DecimalString(h), Tally(Project(alerts, HourOf), h)))
  }

  /** There are 24 points, for hours 0 to 23 in ascending order, each counting the alerts
      created in its hour (zero where there are none). */
  lemma HourlyViewPoints(alerts: seq<Alert>)
    ensures |HourlyView(alerts)| == 24
    ensures StrictlyIncreasingBy(HourlyView(alerts), HourNumber)
    ensures forall h :: 0 <= h < 24 ==> HourNumber(HourlyView(alerts)[h]) == h
    ensures forall h :: 0 <= h < 24 ==>
              HourlyView(alerts)[h].total == |Matching(alerts, HourOf, h)|
  {
    var v := HourlyView(alerts);
    forall h | 0 <= h < 24
      ensures HourNumber(v[h]) == h
      ensures v[h].total == |Matching(alerts, HourOf, h)|
    {
      ParseDecimalString(h);
      TallyProject(alerts, HourOf, h);
    }
  }

  /** The hourly totals add up to the number of alerts. */
  lemma HourlyViewConservation(alerts: seq<Alert>)
    ensures SumOf(HourlyView(alerts), HourlyTotal) == |alerts|
  {
    var hours := seq(24, h => h);
    var v := HourlyView(alerts);
    assert forall i :: 0 <= i < 24 ==> HourlyTotal(v[i]) == Tally(Project(alerts, HourOf), hours[i]);
    SumOfTallies(v, HourlyTotal, Project(alerts, HourOf), hours);
    var s := Project(alerts, HourOf);
    forall i | 0 <= i < |s|
      ensures s[i] in hours
    {
      assert hours[s[i]] == s[i];
    }
    Conservation(s, hours);
  }

  // alertsByDay

  datatype DailyAlerts = DailyAlerts(day: string, dayNum: int, total: nat)

  /** The sort key of the weekday views: 0 for Monday to 6 for Sunday. */
  function MondayFirst(dayNum: int): int {
    (dayNum + 6) % 7
  }

  function DailyOrder(p: DailyAlerts): int {
    MondayFirst(p.dayNum)
  }

  function DailyTotal(p: DailyAlerts): int {
    p.total
  }

  /** The weekday shown at position i of a weekday view: Monday (1) first, Sunday (0) last. */
  function DayAt(i: int): int {
    if i == 6 then 0 else i + 1
  }

  lemma DayAtMondayFirst(d: int)
    requires 0 <= d < 7
    ensures DayAt(MondayFirst(d)) == d && 0 <= MondayFirst(d) < 7
  {
    if d == 0 {
      assert MondayFirst(d) == 6;
    } else {
      assert MondayFirst(d) == d - 1;
    }
  }

  function DailyPoint(alerts: seq<Alert>, d: int): DailyAlerts
    requires 0 <= d < 7
  {
    DailyAlerts(DayName(d), d, Tally(Project(alerts, WeekDayOf), d))
  }

  /** One point per weekday, Monday first, counting the alerts created on that weekday. */
  function DailyView(alerts: seq<Alert>): seq<DailyAlerts> {
    seq(7, i requires 0 <= i < 7 => DailyPoint(alerts, DayAt(i)))
  }

  /** There are 7 points, Monday first and Sunday last, in strictly ascending Monday-first order,
      each weekday with its point and each point named after its weekday. */
  lemma DailyViewOrder(alerts: seq<Alert>)
    ensures |DailyView(alerts)| == 7
    ensures DailyView(alerts)[0].day == "Monday" && DailyView(alerts)[6].day == "Sunday"
    ensures StrictlyIncreasingBy(DailyView(alerts), DailyOrder)
    ensures forall d :: 0 <= d < 7 ==> DailyView(alerts)[MondayFirst(d)].dayNum == d
    ensures forall i :: 0 <= i < 7 ==> DailyView(alerts)[i].day == DayNames[DailyView(alerts)[i].dayNum]
  {
    var v := DailyView(alerts);
    forall i | 0 <= i < 7
      ensures DailyOrder(v[i]) == i
    {
      DayAtMondayFirst(DayAt(i));
    }
    forall d | 0 <= d < 7
      ensures v[MondayFirst(d)].dayNum == d
    {
      DayAtMondayFirst(d);
    }
  }

  /** Each weekday point counts the alerts created on its weekday (zero where there are none). */
  lemma DailyViewCounts(alerts: seq<Alert>)
    ensures forall i :: 0 <= i < |DailyView(alerts)| ==>
              DailyView(alerts)[i].total ==
              |Matching(alerts, WeekDayOf, DailyView(alerts)[i].dayNum)|
  {
    var v := DailyView(alerts);
    forall i | 0 <= i < 7
      ensures v[i].total == |Matching(alerts, WeekDayOf, v[i].dayNum)|
    {
      TallyProject(alerts, WeekDayOf, DayAt(i));
    }
  }

  /** The order in which the weekday views list the days. */
  const WeekDaysMondayFirst: seq<int> := [1, 2, 3, 4, 5, 6, 0]

  /** The daily totals add up to the number of alerts. */
  lemma DailyViewConservation(alerts: seq<Alert>)
    ensures SumOf(DailyView(alerts), DailyTotal) == |alerts|
  {
    var v := DailyView(alerts);
    var days := Project(alerts, WeekDayOf);
    forall i | 0 <= i < 7
      ensures DailyTotal(v[i]) == Tally(days, WeekDaysMondayFirst[i])
    {
      assert DayAt(i) == WeekDaysMondayFirst[i];
    }
    SumOfTallies(v, DailyTotal, days, WeekDaysMondayFirst);
    forall i | 0 <= i < |days|
      ensures days[i] in WeekDaysMondayFirst
    {
      var d := days[i];
      assert 0 <= d < 7;
      assert WeekDaysMondayFirst[if d == 0 then 6 else d - 1] == d;
    }
    Conservation(days, WeekDaysMondayFirst);
  }

  // Period buckets

  /** The first instant the bucket cursor visits: the Monday of `from`'s week for the week views,
      `from` itself for the month and quarter views. */
  function SpanStart(g: Granularity, ctx: Context): int {
    if g == Week then StartOfIsoWeek(ctx.from) else ctx.from
  }

  /** The last instant the bucket cursor may visit. */
  function SpanEnd(g: Granularity, ctx: Context): int {
    if g == Week then StartOfIsoWeek(ctx.to) else ctx.to
  }

  /** The zero-filled buckets a view starts from, with their keys and anchor dates. */
  function Buckets(cal: Calendar, g: Granularity, ctx: Context): seq<Period>
    requires Advances(Advance(cal, g))
  {
    Generated(SpanStart(g, ctx), SpanEnd(g, ctx), Advance(cal, g), KeyOf(cal, g))
  }

  /** Every alert falls in a generated bucket. Where one does not, the source's
      `alertsBuckets[key].total += 1` reads a property of `undefined` and throws. */
  ghost predicate Bucketed(cal: Calendar, g: Granularity, ctx: Context) {
    Advances(Advance(cal, g)) &&
    forall i :: 0 <= i < |ctx.alerts| ==> PeriodKeyOf(cal, g)(ctx.alerts[i]) in KeysOf(Buckets(cal, g, ctx))
  }

  /** The buckets have distinct keys and strictly ascending anchor dates. */
  lemma BucketsOrdered(cal: Calendar, g: Granularity, ctx: Context)
    requires Advances(Advance(cal, g))
    ensures Distinct(KeysOf(Buckets(cal, g, ctx)))
    ensures DatesIncreasing(Buckets(cal, g, ctx))
  {
    GeneratedInDateOrder(SpanStart(g, ctx), SpanEnd(g, ctx), Advance(cal, g), KeyOf(cal, g));
  }

  /** Under a calendar that gives every instant of an ISO week the key of its Monday, every alert
      of the range has its week bucket, so none of the week views throws. */
  lemma WeekBucketed(cal: Calendar, ctx: Context)
    requires WeekCoherent(cal)
    requires forall i :: 0 <= i < |ctx.alerts| ==> ctx.from <= ctx.alerts[i].createdAt <= ctx.to
    ensures Bucketed(cal, Week, ctx) && SeverityBucketed(cal, ctx)
  {
    WeekAdvances(cal);
    forall i | 0 <= i < |ctx.alerts|
      ensures PeriodKeyOf(cal, Week)(ctx.alerts[i]) in KeysOf(Buckets(cal, Week, ctx))
    {
      WeekBucketExists(cal, ctx.from, ctx.to, ctx.alerts[i].createdAt);
    }
  }

  /** With distinct bucket keys covering every alert, the per-bucket counts add up to the
      number of alerts. */
  lemma BucketConservation<P>(out: seq<P>, total: P -> int, keys: seq<string>, ks: seq<string>)
    requires Distinct(ks) && |out| == |ks|
    requires forall i :: 0 <= i < |out| ==> total(out[i]) == Tally(keys, ks[i])
    requires forall i :: 0 <= i < |keys| ==> keys[i] in ks
    ensures SumOf(out, total) == |keys|
  {
    SumOfTallies(out, total, keys, ks);
    Conservation(keys, ks);
  }

  lemma BucketedKeys(cal: Calendar, g: Granularity, ctx: Context)
    requires Bucketed(cal, g, ctx)
    ensures forall i :: 0 <= i < |Keys(PeriodKeyOf(cal, g), ctx.alerts)| ==>
              Keys(PeriodKeyOf(cal, g), ctx.alerts)[i] in KeysOf(Buckets(cal, g, ctx))
  {
  }

  // alertsByWeekAndSeverity

  datatype WeeklySeverity = WeeklySeverity(week: string, p1: nat, p2: nat, p3: nat, p4: nat, p5: nat, date: int)

  function SeverityDate(p: WeeklySeverity): int {
    p.date
  }

  /** p1 + p2 + p3 + p4 + p5 of a point. */
  function SeverityCount(p: WeeklySeverity): int {
    p.p1 + p.p2 + p.p3 + p.p4 + p.p5
  }

  function SeverityPoint(kp: seq<(string, string)>, b: Period): WeeklySeverity {
    WeeklySeverity(b.key, Tally(kp, (b.key, "P1")), Tally(kp, (b.key, "P2")), Tally(kp, (b.key, "P3")),
                   Tally(kp, (b.key, "P4")), Tally(kp, (b.key, "P5")), b.date)
  }

  function SeverityPoints(bs: seq<Period>, kp: seq<(string, string)>): seq<WeeklySeverity> {
    seq(|bs|, i requires 0 <= i < |bs| => SeverityPoint(kp, bs[i]))
  }

  /** One point per week bucket, in date order, counting the week's alerts of each priority. */
  function SeverityView(cal: Calendar, ctx: Context): seq<WeeklySeverity> {
    SeverityPoints(Buckets(cal, Week, ctx), KeyedPriorities(PeriodKeyOf(cal, Week), ctx.alerts))
  }

  /** The priorities alertsByWeekAndSeverity counts. */
  predicate IsSeverity(priority: string) {
    priority == "P1" || priority == "P2" || priority == "P3" || priority == "P4" || priority == "P5"
  }

  /** Every alert the severity view counts falls in a generated week bucket. Only those alerts
      touch their bucket, so only they make the source throw when it is missing. */
  ghost predicate SeverityBucketed(cal: Calendar, ctx: Context) {
    forall i :: 0 <= i < |ctx.alerts| && IsSeverity(ctx.alerts[i].priority) ==>
      PeriodKeyOf(cal, Week)(ctx.alerts[i]) in KeysOf(Buckets(cal, Week, ctx))
  }

  /** An alert's effect on its week's counters. */
  function CountPriority(p: WeeklySeverity, priority: string): WeeklySeverity {
    if priority == "P1" then p.(p1 := p.p1 + 1)
    else if priority == "P2" then p.(p2 := p.p2 + 1)
    else if priority == "P3" then p.(p3 := p.p3 + 1)
    else if priority == "P4" then p.(p4 := p.p4 + 1)
    else if priority == "P5" then p.(p5 := p.p5 + 1)
    else p
  }

  /** The points are the week buckets, in strictly ascending date order. */
  lemma SeverityViewOrder(cal: Calendar, ctx: Context)
    ensures |SeverityView(cal, ctx)| == |Buckets(cal, Week, ctx)|
    ensures forall i :: 0 <= i < |SeverityView(cal, ctx)| ==>
              SeverityView(cal, ctx)[i].week == Buckets(cal, Week, ctx)[i].key &&
              SeverityView(cal, ctx)[i].date == Buckets(cal, Week, ctx)[i].date
    ensures StrictlyIncreasingBy(SeverityView(cal, ctx), SeverityDate)
  {
    BucketsOrdered(cal, Week, ctx);
  }

  lemma SeverityPointsAddAlert(bs: seq<Period>, kp: seq<(string, string)>, k: string, q: string)
    ensures var v, w := SeverityPoints(bs, kp), SeverityPoints(bs, kp + [(k, q)]);
            |w| == |v| &&
            forall i :: 0 <= i < |v| ==> w[i] == if bs[i].key == k then CountPriority(v[i], q) else v[i]
  {
    forall k', q'
      ensures Tally(kp + [(k, q)], (k', q')) == Tally(kp, (k', q')) + (if (k, q) == (k', q') then 1 else 0)
    {
      CountSnoc(kp, (k, q), {(k', q')});
    }
  }

  /** One more alert increments exactly the counter of its priority in the point of its week,
      and changes nothing when its priority is not one of P1 to P5. */
  lemma SeverityViewAddAlert(cal: Calendar, ctx: Context, a: Alert)
    ensures var v, w := SeverityView(cal, ctx), SeverityView(cal, ctx.(alerts := ctx.alerts + [a]));
            |w| == |v| &&
            forall i :: 0 <= i < |v| ==>
              w[i] == if v[i].week == PeriodKeyOf(cal, Week)(a) then CountPriority(v[i], a.priority) else v[i]
  {
    var key := PeriodKeyOf(cal, Week);
    ProjectSnoc(ctx.alerts, a, KeyPriorityOf(key));
    var bs := Buckets(cal, Week, ctx);
    assert Buckets(cal, Week, ctx.(alerts := ctx.alerts + [a])) == bs;
    SeverityPointsAddAlert(bs, KeyedPriorities(key, ctx.alerts), key(a), a.priority);
  }

  /** The five counters of a week count its alerts whose priority is one of P1 to P5. */
  function SeverityKeys(k: string): set<(string, string)> {
    {(k, "P1"), (k, "P2"), (k, "P3"), (k, "P4"), (k, "P5")}
  }

  lemma SeverityKeysDisjoint(k1: string, k2: string)
    requires k1 != k2
    ensures SeverityKeys(k1) !! SeverityKeys(k2)
  {
    assert forall x :: x in SeverityKeys(k1) ==> x.0 == k1;
    assert forall x :: x in SeverityKeys(k2) ==> x.0 == k2;
  }

  lemma SeverityCountIsCount(kp: seq<(string, string)>, b: Period)
    ensures SeverityCount(SeverityPoint(kp, b)) == Count(kp, SeverityKeys(b.key))
  {
    var k := b.key;
    CountDisjointUnion(kp, {(k, "P1")}, {(k, "P2")});
    CountDisjointUnion(kp, {(k, "P1"), (k, "P2")}, {(k, "P3")});
    CountDisjointUnion(kp, {(k, "P1"), (k, "P2"), (k, "P3")}, {(k, "P4")});
    CountDisjointUnion(kp, {(k, "P1"), (k, "P2"), (k, "P3"), (k, "P4")}, {(k, "P5")});
  }

  /** Every alert moves at most one counter: all the counters of all the weeks add up to no more
      than the number of alerts. */
  lemma SeverityViewBound(cal: Calendar, ctx: Context)
    ensures SumOf(SeverityView(cal, ctx), SeverityCount) <= |ctx.alerts|
  {
    var v := SeverityView(cal, ctx);
    var bs := Buckets(cal, Week, ctx);
    var kp := KeyedPriorities(PeriodKeyOf(cal, Week), ctx.alerts);
    BucketsOrdered(cal, Week, ctx);
    var sets := seq(|bs|, i requires 0 <= i < |bs| => SeverityKeys(bs[i].key));
    forall i | 0 <= i < |v|
      ensures SeverityCount(v[i]) == Count(kp, sets[i])
    {
      SeverityCountIsCount(kp, bs[i]);
    }
    forall i, j | 0 <= i < j < |sets|
      ensures sets[i] !! sets[j]
    {
      assert KeysOf(bs)[i] != KeysOf(bs)[j];
      SeverityKeysDisjoint(bs[i].key, bs[j].key);
    }
    SumOfDisjointCounts(v, SeverityCount, kp, sets);
  }

  // alertsByWeekAndHours

  datatype WeeklyHours = WeeklyHours(week: string, businessHours: nat, onCallHours: nat, total: nat, date: int)

  function HoursDate(p: WeeklyHours): int {
    p.date
  }

  function HoursTotal(p: WeeklyHours): int {
    p.total
  }

  function HoursPoint(ks: seq<string>, sh: seq<(string, bool)>, b: Period): WeeklyHours {
    WeeklyHours(b.key, Tally(sh, (b.key, true)), Tally(sh, (b.key, false)), Tally(ks, b.key), b.date)
  }

  function HoursPoints(bs: seq<Period>, ks: seq<string>, sh: seq<(string, bool)>): seq<WeeklyHours> {
    seq(|bs|, i requires 0 <= i < |bs| => HoursPoint(ks, sh, bs[i]))
  }

  /** One point per week bucket, in date order, counting the week's alerts and, among them,
      those that started in and out of business hours. */
  function HoursView(bh: BusinessHours, cal: Calendar, ctx: Context): seq<WeeklyHours> {
    var key := PeriodKeyOf(cal, Week);
    HoursPoints(Buckets(cal, Week, ctx), Keys(key, ctx.alerts), KeyedShifts(bh, key, ctx.alerts))
  }

  /** The points are the week buckets, in strictly ascending date order. */
  lemma HoursViewOrder(bh: BusinessHours, cal: Calendar, ctx: Context)
    ensures |HoursView(bh, cal, ctx)| == |Buckets(cal, Week, ctx)|
    ensures forall i :: 0 <= i < |HoursView(bh, cal, ctx)| ==>
              HoursView(bh, cal, ctx)[i].week == Buckets(cal, Week, ctx)[i].key &&
              HoursView(bh, cal, ctx)[i].date == Buckets(cal, Week, ctx)[i].date
    ensures StrictlyIncreasingBy(HoursView(bh, cal, ctx), HoursDate)
  {
    BucketsOrdered(cal, Week, ctx);
  }

  lemma HoursPointsSplit(bs: seq<Period>, sh: seq<(string, bool)>)
    ensures forall i :: 0 <= i < |HoursPoints(bs, Firsts(sh), sh)| ==>
              HoursPoints(bs, Firsts(sh), sh)[i].total ==
              HoursPoints(bs, Firsts(sh), sh)[i].businessHours + HoursPoints(bs, Firsts(sh), sh)[i].onCallHours
  {
    forall i | 0 <= i < |bs|
      ensures Tally(Firsts(sh), bs[i].key) == Tally(sh, (bs[i].key, true)) + Tally(sh, (bs[i].key, false))
    {
      var k := bs[i].key;
      forall j | 0 <= j < |sh|
        ensures sh[j].1 in {true, false}
      {
        if sh[j].1 {
        }
      }
      CountByFirst(sh, k, {true, false});
      assert PairsWith(k, {true, false}) == {(k, true)} + {(k, false)};
      CountDisjointUnion(sh, {(k, true)}, {(k, false)});
    }
  }

  /** Every alert of a week is counted either as a business-hours or as an on-call alert. */
  lemma HoursViewSplit(bh: BusinessHours, cal: Calendar, ctx: Context)
    ensures forall i :: 0 <= i < |HoursView(bh, cal, ctx)| ==>
              HoursView(bh, cal, ctx)[i].total ==
              HoursView(bh, cal, ctx)[i].businessHours + HoursView(bh, cal, ctx)[i].onCallHours
  {
    var key := PeriodKeyOf(cal, Week);
    var sh := KeyedShifts(bh, key, ctx.alerts);
    assert Firsts(sh) == Keys(key, ctx.alerts);
    HoursPointsSplit(Buckets(cal, Week, ctx), sh);
  }

  /** When every alert has its week bucket, the weekly totals add up to the number of alerts. */
  lemma HoursViewConservation(bh: BusinessHours, cal: Calendar, ctx: Context)
    requires Bucketed(cal, Week, ctx)
    ensures SumOf(HoursView(bh, cal, ctx), HoursTotal) == |ctx.alerts|
  {
    var bs := Buckets(cal, Week, ctx);
    var key := PeriodKeyOf(cal, Week);
    var v := HoursView(bh, cal, ctx);
    BucketsOrdered(cal, Week, ctx);
    BucketedKeys(cal, Week, ctx);
    assert forall i :: 0 <= i < |v| ==> HoursTotal(v[i]) == Tally(Keys(key, ctx.alerts), KeysOf(bs)[i]);
    BucketConservation(v, HoursTotal, Keys(key, ctx.alerts), KeysOf(bs));
  }

  // The responder views

  /** A data point of the day, month and quarter responder views; the responder fields of the
      source's data point are kept apart in counts. */
  datatype ResponderPoint = ResponderPoint(period: string, total: nat, date: int, counts: map<string, nat>)

  /** A data point of the weekday responder view. */
  datatype DayResponderPoint = DayResponderPoint(period: string, dayNum: int, total: nat, counts: map<string, nat>)

  /** What a responder view returns: its data points and `Object.keys(respondersMap)`. */
  datatype AlertsByResponders<P> = AlertsByResponders(dataPoints: seq<P>, responders: seq<string>)

  function ResponderTotal(p: ResponderPoint): int {
    p.total
  }

  function ResponderDate(p: ResponderPoint): int {
    p.date
  }

  function DayResponderTotal(p: DayResponderPoint): int {
    p.total
  }

  function DayResponderOrder(p: DayResponderPoint): int {
    MondayFirst(p.dayNum)
  }

  /** The responder fields of the point of bucket k: for each listed responder, its number of
      alerts in the bucket (`alertsBuckets[k].responders[responder] || 0`). */
  function ResponderCounts(kr: seq<(string, string)>, k: string, rs: seq<string>): map<string, nat> {
    map r | r in rs :: Tally(kr, (k, r))
  }

  /** m[rs[0]] + ... + m[rs[|rs| - 1]]. */
  function SumCounts(m: map<string, nat>, rs: seq<string>): int
    requires forall r :: r in rs ==> r in m
  {
    if |rs| == 0 then 0 else m[rs[0]] + SumCounts(m, rs[1..])
  }

  lemma {:induction false} SumCountsTallies(m: map<string, nat>, kr: seq<(string, string)>, k: string, rs: seq<string>)
    requires forall r :: r in rs ==> r in m && m[r] == Tally(kr, (k, r))
    ensures SumCounts(m, rs) == SumTally(kr, PairUp(k, rs))
  {
    if |rs| > 0 {
      SumCountsTallies(m, kr, k, rs[1..]);
    }
  }

  /** The responder list lists each responding team exactly once, in order of first appearance. */
  lemma ResponderListSpec(teams: seq<Team>, alerts: seq<Alert>)
    ensures Distinct(ResponderList(teams, alerts))
    ensures forall r :: r in ResponderList(teams, alerts) <==> r in RespondersOf(teams, alerts)
    ensures forall i, j :: 0 <= i < j < |ResponderList(teams, alerts)| ==>
              IndexOf(RespondersOf(teams, alerts), ResponderList(teams, alerts)[i]) <
              IndexOf(RespondersOf(teams, alerts), ResponderList(teams, alerts)[j])
  {
    DedupSpec(RespondersOf(teams, alerts));
  }

  /** A bucket's total is the sum of its responder fields over the listed responders. */
  lemma BucketTotalIsSumOfCounts(key: Alert -> string, teams: seq<Team>, alerts: seq<Alert>, k: string)
    ensures var rs := ResponderList(teams, alerts);
            Tally(Keys(key, alerts), k) == SumCounts(ResponderCounts(KeyedResponders(key, teams, alerts), k, rs), rs)
  {
    var kr := KeyedResponders(key, teams, alerts);
    var rs := ResponderList(teams, alerts);
    var all := RespondersOf(teams, alerts);
    DedupDistinct(all);
    DedupMembers(all);
    SumCountsTallies(ResponderCounts(kr, k, rs), kr, k, rs);
    forall i | 0 <= i < |kr|
      ensures kr[i].1 in rs
    {
      assert kr[i].1 == all[i];
    }
    SumTallyPairs(kr, k, rs);
    assert Firsts(kr) == Keys(key, alerts);
  }

  /** The bucket's count of alerts and its responder fields, against their reference definitions:
      every listed responder has a field, holding its number of alerts in the bucket (zero where
      it has none there). */
  lemma BucketCounts(key: Alert -> string, teams: seq<Team>, alerts: seq<Alert>, k: string)
    ensures Tally(Keys(key, alerts), k) == |Matching(alerts, key, k)|
    ensures var m := ResponderCounts(KeyedResponders(key, teams, alerts), k, ResponderList(teams, alerts));
            m.Keys == Elements(ResponderList(teams, alerts)) &&
            forall r :: r in m ==> m[r] == |Matching(alerts, KeyResponderOf(key, teams), (k, r))|
  {
    TallyProject(alerts, key, k);
    forall r
      ensures Tally(KeyedResponders(key, teams, alerts), (k, r)) == |Matching(alerts, KeyResponderOf(key, teams), (k, r))|
    {
      TallyProject(alerts, KeyResponderOf(key, teams), (k, r));
    }
  }

  function ResponderPoints(bs: seq<Period>, ks: seq<string>, kr: seq<(string, string)>, rs: seq<string>): seq<ResponderPoint> {
    seq(|bs|, i requires 0 <= i < |bs| =>
      ResponderPoint(bs[i].key, Tally(ks, bs[i].key), bs[i].date, ResponderCounts(kr, bs[i].key, rs)))
  }

  /** The week, month and quarter responder views: one point per bucket, in date order, with the
      bucket's total and a field per responding team. */
  function ResponderView(cal: Calendar, g: Granularity, ctx: Context): AlertsByResponders<ResponderPoint>
    requires Advances(Advance(cal, g))
  {
    var key := PeriodKeyOf(cal, g);
    var rs := ResponderList(ctx.teams, ctx.alerts);
    AlertsByResponders(
      ResponderPoints(Buckets(cal, g, ctx), Keys(key, ctx.alerts), KeyedResponders(key, ctx.teams, ctx.alerts), rs),
      rs)
  }

  /** The points are the buckets, in strictly ascending date order; each counts its bucket's
      alerts and has a field for every listed responder holding that responder's number of alerts
      in the bucket, zero where it has none there. */
  lemma ResponderViewPoints(cal: Calendar, g: Granularity, ctx: Context)
    requires Advances(Advance(cal, g))
    ensures var v := ResponderView(cal, g, ctx);
            var bs := Buckets(cal, g, ctx);
            |v.dataPoints| == |bs| &&
            StrictlyIncreasingBy(v.dataPoints, ResponderDate) &&
            forall i :: 0 <= i < |bs| ==>
              v.dataPoints[i].period == bs[i].key && v.dataPoints[i].date == bs[i].date &&
              v.dataPoints[i].total == |Matching(ctx.alerts, PeriodKeyOf(cal, g), bs[i].key)| &&
              v.dataPoints[i].counts.Keys == Elements(v.responders) &&
              forall r :: r in v.responders ==>
                v.dataPoints[i].counts[r] == |Matching(ctx.alerts, KeyResponderOf(PeriodKeyOf(cal, g), ctx.teams), (bs[i].key, r))|
  {
    var bs := Buckets(cal, g, ctx);
    BucketsOrdered(cal, g, ctx);
    forall i | 0 <= i < |bs|
    {
      BucketCounts(PeriodKeyOf(cal, g), ctx.teams, ctx.alerts, bs[i].key);
    }
  }

  /** Each point's total is the sum of its responder fields. */
  lemma ResponderViewTotals(cal: Calendar, g: Granularity, ctx: Context)
    requires Advances(Advance(cal, g))
    ensures var v := ResponderView(cal, g, ctx);
            forall i :: 0 <= i < |v.dataPoints| ==>
              (forall r :: r in v.responders ==> r in v.dataPoints[i].counts) &&
              v.dataPoints[i].total == SumCounts(v.dataPoints[i].counts, v.responders)
  {
    var bs := Buckets(cal, g, ctx);
    forall i | 0 <= i < |bs|
    {
      BucketTotalIsSumOfCounts(PeriodKeyOf(cal, g), ctx.teams, ctx.alerts, bs[i].key);
    }
  }

  /** When every alert has its bucket, the totals add up to the number of alerts. */
  lemma ResponderViewConservation(cal: Calendar, g: Granularity, ctx: Context)
    requires Bucketed(cal, g, ctx)
    ensures SumOf(ResponderView(cal, g, ctx).dataPoints, ResponderTotal) == |ctx.alerts|
  {
    var bs := Buckets(cal, g, ctx);
    var key := PeriodKeyOf(cal, g);
    var v := ResponderView(cal, g, ctx).dataPoints;
    BucketsOrdered(cal, g, ctx);
    BucketedKeys(cal, g, ctx);
    assert forall i :: 0 <= i < |v| ==> ResponderTotal(v[i]) == Tally(Keys(key, ctx.alerts), KeysOf(bs)[i]);
    BucketConservation(v, ResponderTotal, Keys(key, ctx.alerts), KeysOf(bs));
  }

  /** The key of weekday d's bucket. */
  function DayBucketKey(d: int): string
    requires 0 <= d < 7
  {
    DecimalString(d)
  }

  function DayResponderPointOf(ks: seq<string>, kr: seq<(string, string)>, rs: seq<string>, d: int): DayResponderPoint
    requires 0 <= d < 7
  {
    DayResponderPoint(DayName(d), d, Tally(ks, DayBucketKey(d)), ResponderCounts(kr, DayBucketKey(d), rs))
  }

  /** The weekday responder view: one point per weekday, Monday first. */
  function DayResponderView(ctx: Context): AlertsByResponders<DayResponderPoint> {
    var ks := Keys(DayKeyOf, ctx.alerts);
    var kr := KeyedResponders(DayKeyOf, ctx.teams, ctx.alerts);
    var rs := ResponderList(ctx.teams, ctx.alerts);
    AlertsByResponders(seq(7, i requires 0 <= i < 7 => DayResponderPointOf(ks, kr, rs, DayAt(i))), rs)
  }

  /** There are 7 points, Monday first and Sunday last, in strictly ascending Monday-first order. */
  lemma DayResponderViewOrder(ctx: Context)
    ensures var v := DayResponderView(ctx);
            |v.dataPoints| == 7 &&
            v.dataPoints[0].period == "Monday" && v.dataPoints[6].period == "Sunday" &&
            StrictlyIncreasingBy(v.dataPoints, DayResponderOrder) &&
            forall i :: 0 <= i < 7 ==> v.dataPoints[i].dayNum == DayAt(i)
  {
    var v := DayResponderView(ctx);
    assert forall i :: 0 <= i < 7 ==> DayResponderOrder(v.dataPoints[i]) == i;
  }

  /** Each weekday point counts the alerts of its weekday, its total is the sum of its responder
      fields, and it has a field for every listed responder holding that responder's number of
      alerts on that weekday (zero where it has none). */
  lemma DayResponderViewCounts(ctx: Context)
    ensures var v := DayResponderView(ctx);
            forall i :: 0 <= i < |v.dataPoints| ==>
              v.dataPoints[i].total == |Matching(ctx.alerts, DayKeyOf, DayBucketKey(DayAt(i)))| &&
              v.dataPoints[i].counts.Keys == Elements(v.responders) &&
              v.dataPoints[i].total == SumCounts(v.dataPoints[i].counts, v.responders) &&
              forall r :: r in v.responders ==>
                v.dataPoints[i].counts[r] == |Matching(ctx.alerts, KeyResponderOf(DayKeyOf, ctx.teams), (DayBucketKey(DayAt(i)), r))|
  {
    var v := DayResponderView(ctx);
    forall i | 0 <= i < 7
      ensures v.dataPoints[i].total == |Matching(ctx.alerts, DayKeyOf, DayBucketKey(DayAt(i)))|
      ensures v.dataPoints[i].counts.Keys == Elements(v.responders)
      ensures v.dataPoints[i].total == SumCounts(v.dataPoints[i].counts, v.responders)
      ensures forall r :: r in v.responders ==>
                v.dataPoints[i].counts[r] == |Matching(ctx.alerts, KeyResponderOf(DayKeyOf, ctx.teams), (DayBucketKey(DayAt(i)), r))|
    {
      BucketCounts(DayKeyOf, ctx.teams, ctx.alerts, DayBucketKey(DayAt(i)));
      BucketTotalIsSumOfCounts(DayKeyOf, ctx.teams, ctx.alerts, DayBucketKey(DayAt(i)));
    }
  }

  /** The weekday totals add up to the number of alerts. */
  lemma DayResponderViewConservation(ctx: Context)
    ensures SumOf(DayResponderView(ctx).dataPoints, DayResponderTotal) == |ctx.alerts|
  {
    var v := DayResponderView(ctx).dataPoints;
    var order := seq(7, i requires 0 <= i < 7 => DayBucketKey(DayAt(i)));
    var keys := Keys(DayKeyOf, ctx.alerts);
    forall i, j | 0 <= i < j < 7
      ensures order[i] != order[j]
    {
      DecimalStringInjective(DayAt(i), DayAt(j));
    }
    forall i | 0 <= i < |keys|
      ensures keys[i] in order
    {
      var d := WeekDay(ctx.alerts[i].createdAt);
      assert keys[i] == DayKeyOf(ctx.alerts[i]) == DecimalString(d);
      var j := MondayFirst(d);
      DayAtMondayFirst(d);
      assert order[j] == DayBucketKey(d);
    }
    assert forall i :: 0 <= i < 7 ==> DayResponderTotal(v[i]) == Tally(keys, order[i]);
    BucketConservation(v, DayResponderTotal, keys, order);
  }

  // impactByWeekAndResponder

  /** A data point of the impact view: the mean duration of the week's alerts and, in means, the
      mean duration of each responder's alerts that week. */
  datatype ImpactPoint = ImpactPoint(period: string, total: real, date: int, means: map<string, real>)

  function ImpactDate(p: ImpactPoint): int {
    p.date
  }

  function Sum(ds: seq<int>): int {
    if |ds| == 0 then 0 else Sum(ds[..|ds| - 1]) + ds[|ds| - 1]
  }

  /** average: the arithmetic mean, zero for no durations. */
  function Mean(ds: seq<int>): (m: real)
    ensures |ds| == 0 ==> m == 0.0
    ensures |ds| > 0 ==> m * |ds| as real == Sum(ds) as real
  {
    if |ds| == 0 then 0.0 else Sum(ds) as real / |ds| as real
  }

  lemma MeanExamples()
    ensures Mean([]) == 0.0
    ensures Mean([10, 30]) == 20.0
    ensures Mean([5]) == 5.0
  {
    assert [10, 30][..1] == [10];
    assert [10][..0] == [];
  }

  lemma {:induction false} SumBounds(ds: seq<int>, lo: int, hi: int)
    requires forall i :: 0 <= i < |ds| ==> lo <= ds[i] <= hi
    ensures |ds| * lo <= Sum(ds) <= |ds| * hi
  {
    if |ds| > 0 {
      SumBounds(ds[..|ds| - 1], lo, hi);
    }
  }

  /** The mean of durations between lo and hi lies between lo and hi. */
  lemma MeanBounds(ds: seq<int>, lo: int, hi: int)
    requires |ds| > 0
    requires forall i :: 0 <= i < |ds| ==> lo <= ds[i] <= hi
    ensures lo as real <= Mean(ds) <= hi as real
  {
    SumBounds(ds, lo, hi);
    ScaledBounds(|ds|, lo, Sum(ds), hi);
  }

  lemma ScaledBounds(n: int, lo: int, s: int, hi: int)
    requires n > 0 && n * lo <= s <= n * hi
    ensures lo as real <= s as real / n as real <= hi as real
  {
    assert (n * lo) as real == n as real * lo as real;
    assert (n * hi) as real == n as real * hi as real;
    DivideBounds(n as real, lo as real, s as real, hi as real);
  }

  lemma DivideBounds(n: real, lo: real, s: real, hi: real)
    requires n > 0.0 && n * lo <= s <= n * hi
    ensures lo <= s / n <= hi
  {
    assert (n * lo) / n == lo;
    assert (n * hi) / n == hi;
  }

  /** The durations of the alerts in bucket k: one per alert of the bucket. */
  lemma {:induction false} KeyDurationsCount(key: Alert -> string, alerts: seq<Alert>, k: string)
    ensures |KeyDurations(key, alerts, k)| == Tally(Keys(key, alerts), k)
  {
    if |alerts| > 0 {
      var p := alerts[..|alerts| - 1];
      KeyDurationsCount(key, p, k);
      assert Keys(key, alerts)[..|alerts| - 1] == Keys(key, p);
    }
  }

  /** The durations of responder r's alerts in bucket k: one per such alert. */
  lemma {:induction false} ResponderDurationsCount(key: Alert -> string, teams: seq<Team>, alerts: seq<Alert>, k: string, r: string)
    ensures |ResponderDurations(key, teams, alerts, k, r)| == Tally(KeyedResponders(key, teams, alerts), (k, r))
  {
    if |alerts| > 0 {
      var p := alerts[..|alerts| - 1];
      ResponderDurationsCount(key, teams, p, k, r);
      assert KeyedResponders(key, teams, alerts)[..|alerts| - 1] == KeyedResponders(key, teams, p);
    }
  }

  /** Every duration listed for bucket k is the duration of one of its alerts. */
  lemma {:induction false} KeyDurationsFrom(key: Alert -> string, alerts: seq<Alert>, k: string)
    ensures forall d :: d in KeyDurations(key, alerts, k) ==>
              exists i :: 0 <= i < |alerts| && key(alerts[i]) == k && Duration(alerts[i]) == d
  {
    if |alerts| > 0 {
      var p := alerts[..|alerts| - 1];
      KeyDurationsFrom(key, p, k);
      forall d | d in KeyDurations(key, alerts, k)
        ensures exists i :: 0 <= i < |alerts| && key(alerts[i]) == k && Duration(alerts[i]) == d
      {
        if d in KeyDurations(key, p, k) {
          var i :| 0 <= i < |p| && key(p[i]) == k && Duration(p[i]) == d;
          assert alerts[i] == p[i];
        } else {
          assert key(alerts[|alerts| - 1]) == k && Duration(alerts[|alerts| - 1]) == d;
        }
      }
    }
  }

  /** The positions of the alerts that f maps to x, in ascending order. */
  function MatchingPositions<X(==)>(alerts: seq<Alert>, f: Alert -> X, x: X): seq<int> {
    if |alerts| == 0 then []
    else
      MatchingPositions(alerts[..|alerts| - 1], f, x) + (if f(alerts[|alerts| - 1]) == x then [|alerts| - 1] else [])
  }

  /** The positions are valid and strictly ascending, and they are exactly the alerts f maps to x. */
  lemma {:induction false} MatchingPositionsSpec<X>(alerts: seq<Alert>, f: Alert -> X, x: X)
    ensures forall j :: 0 <= j < |MatchingPositions(alerts, f, x)| ==> 0 <= MatchingPositions(alerts, f, x)[j] < |alerts|
    ensures forall j1, j2 :: 0 <= j1 < j2 < |MatchingPositions(alerts, f, x)| ==>
              MatchingPositions(alerts, f, x)[j1] < MatchingPositions(alerts, f, x)[j2]
    ensures forall i :: i in MatchingPositions(alerts, f, x) <==> i in Matching(alerts, f, x)
  {
    if |alerts| > 0 {
      var n := |alerts| - 1;
      var p := alerts[..n];
      MatchingPositionsSpec(p, f, x);
      var ix, ix' := MatchingPositions(alerts, f, x), MatchingPositions(p, f, x);
      assert ix == ix' + (if f(alerts[n]) == x then [n] else []);
      forall j | 0 <= j < |ix'|
        ensures ix[j] == ix'[j] < n
      {
      }
      forall i
        ensures i in ix <==> i in Matching(alerts, f, x)
      {
        if 0 <= i < n {
          assert alerts[i] == p[i];
          assert i in Matching(alerts, f, x) <==> i in Matching(p, f, x);
        } else if i == n {
          assert i in Matching(alerts, f, x) <==> f(alerts[n]) == x;
          assert i !in ix';
        }
      }
    }
  }

  /** The durations of bucket k are exactly those of its alerts, one per alert, in alert order:
      the j-th is the duration of the j-th alert, counted by position, that lies in the bucket. */
  lemma {:induction false} KeyDurationsExact(key: Alert -> string, alerts: seq<Alert>, k: string)
    ensures var ix, ds := MatchingPositions(alerts, key, k), KeyDurations(key, alerts, k);
            |ds| == |ix| &&
            (forall j :: 0 <= j < |ix| ==> 0 <= ix[j] < |alerts| && ds[j] == Duration(alerts[ix[j]])) &&
            (forall j1, j2 :: 0 <= j1 < j2 < |ix| ==> ix[j1] < ix[j2]) &&
            (forall i :: i in ix <==> i in Matching(alerts, key, k))
  {
    MatchingPositionsSpec(alerts, key, k);
    if |alerts| > 0 {
      var n := |alerts| - 1;
      var p := alerts[..n];
      KeyDurationsExact(key, p, k);
      var ix, ds := MatchingPositions(alerts, key, k), KeyDurations(key, alerts, k);
      var ix', ds' := MatchingPositions(p, key, k), KeyDurations(key, p, k);
      assert ix == ix' + (if key(alerts[n]) == k then [n] else []);
      assert ds == ds' + (if key(alerts[n]) == k then [Duration(alerts[n])] else []);
      forall j | 0 <= j < |ix'|
        ensures ds[j] == Duration(alerts[ix[j]])
      {
        assert ix[j] == ix'[j] && ds[j] == ds'[j] && alerts[ix[j]] == p[ix'[j]];
      }
    }
  }

  /** The positions of the alerts in bucket k whose responding team is r, in ascending order. */
  function ResponderPositions(key: Alert -> string, teams: seq<Team>, alerts: seq<Alert>, k: string, r: string): seq<int> {
    MatchingPositions(alerts, KeyResponderOf(key, teams), (k, r))
  }

  /** The durations of team r in bucket k are exactly those of its alerts there, one per alert, in
      alert order: the j-th is the duration of the j-th alert, counted by position, whose bucket is
      k and whose responding team is r. */
  lemma {:induction false} ResponderDurationsExact(key: Alert -> string, teams: seq<Team>, alerts: seq<Alert>, k: string, r: string)
    ensures var ix, ds := ResponderPositions(key, teams, alerts, k, r), ResponderDurations(key, teams, alerts, k, r);
            |ds| == |ix| &&
            (forall j :: 0 <= j < |ix| ==> 0 <= ix[j] < |alerts| && ds[j] == Duration(alerts[ix[j]])) &&
            (forall j1, j2 :: 0 <= j1 < j2 < |ix| ==> ix[j1] < ix[j2]) &&
            (forall i :: i in ix <==> i in Matching(alerts, KeyResponderOf(key, teams), (k, r)))
  {
    var f := KeyResponderOf(key, teams);
    MatchingPositionsSpec(alerts, f, (k, r));
    if |alerts| > 0 {
      var n := |alerts| - 1;
      var p := alerts[..n];
      ResponderDurationsExact(key, teams, p, k, r);
      var ix, ds := ResponderPositions(key, teams, alerts, k, r), ResponderDurations(key, teams, alerts, k, r);
      var ix', ds' := ResponderPositions(key, teams, p, k, r), ResponderDurations(key, teams, p, k, r);
      var a := alerts[n];
      var hit := f(a) == (k, r);
      assert hit <==> key(a) == k && RespondingTeam(teams, a.responders) == r;
      assert ix == ix' + (if hit then [n] else []);
      assert ds == ds' + (if hit then [Duration(a)] else []);
      forall j | 0 <= j < |ix'|
        ensures ds[j] == Duration(alerts[ix[j]])
      {
        assert ix[j] == ix'[j] && ds[j] == ds'[j] && alerts[ix[j]] == p[ix'[j]];
      }
    }
  }

  lemma KeyDurationsSnoc(key: Alert -> string, alerts: seq<Alert>, a: Alert, k: string)
    ensures KeyDurations(key, alerts + [a], k) == KeyDurations(key, alerts, k) + (if key(a) == k then [Duration(a)] else [])
  {
    assert (alerts + [a])[..|alerts|] == alerts;
  }

  lemma ResponderDurationsSnoc(key: Alert -> string, teams: seq<Team>, alerts: seq<Alert>, a: Alert, k: string, r: string)
    ensures ResponderDurations(key, teams, alerts + [a], k, r) ==
            ResponderDurations(key, teams, alerts, k, r) +
              (if key(a) == k && RespondingTeam(teams, a.responders) == r then [Duration(a)] else [])
  {
    assert (alerts + [a])[..|alerts|] == alerts;
  }

  /** The mean durations of bucket k: of all its alerts, and of each listed responder's. */
  function ImpactPointOf(key: Alert -> string, teams: seq<Team>, alerts: seq<Alert>, rs: seq<string>, b: Period): ImpactPoint {
    ImpactPoint(b.key, Mean(KeyDurations(key, alerts, b.key)), b.date,
                map r | r in rs :: Mean(ResponderDurations(key, teams, alerts, b.key, r)))
  }

  /** One point per week bucket, in date order, with the mean duration of the week's alerts and of
      each responding team's alerts that week. */
  function ImpactPoints(bs: seq<Period>, key: Alert -> string, teams: seq<Team>, alerts: seq<Alert>, rs: seq<string>): seq<ImpactPoint> {
    seq(|bs|, i requires 0 <= i < |bs| => ImpactPointOf(key, teams, alerts, rs, bs[i]))
  }

  function ImpactView(cal: Calendar, ctx: Context): AlertsByResponders<ImpactPoint> {
    var rs := ResponderList(ctx.teams, ctx.alerts);
    AlertsByResponders(ImpactPoints(Buckets(cal, Week, ctx), PeriodKeyOf(cal, Week), ctx.teams, ctx.alerts, rs), rs)
  }

  /** An impact point's total is the mean of the durations of its bucket's alerts, one duration
      per alert, and 0 when the bucket has none; each listed responder has a field holding the mean
      of its alerts' durations in the bucket, one per alert, and 0 when it has none there. */
  lemma ImpactPointMeans(key: Alert -> string, teams: seq<Team>, alerts: seq<Alert>, b: Period)
    ensures var rs := ResponderList(teams, alerts);
            var p, ds := ImpactPointOf(key, teams, alerts, rs, b), KeyDurations(key, alerts, b.key);
            p.total == Mean(ds) &&
            |ds| == |Matching(alerts, key, b.key)| &&
            (|ds| == 0 ==> p.total == 0.0) &&
            p.means.Keys == Elements(rs) &&
            forall r :: r in rs ==>
              var rds := ResponderDurations(key, teams, alerts, b.key, r);
              p.means[r] == Mean(rds) &&
              |rds| == |Matching(alerts, KeyResponderOf(key, teams), (b.key, r))| &&
              (|rds| == 0 ==> p.means[r] == 0.0)
  {
    var k := b.key;
    KeyDurationsCount(key, alerts, k);
    TallyProject(alerts, key, k);
    forall r
      ensures |ResponderDurations(key, teams, alerts, k, r)| == |Matching(alerts, KeyResponderOf(key, teams), (k, r))|
    {
      ResponderDurationsCount(key, teams, alerts, k, r);
      TallyProject(alerts, KeyResponderOf(key, teams), (k, r));
    }
  }

  /** The points are the week buckets, in strictly ascending date order. */
  lemma ImpactViewOrder(cal: Calendar, ctx: Context)
    ensures var v := ImpactView(cal, ctx);
            var bs := Buckets(cal, Week, ctx);
            |v.dataPoints| == |bs| &&
            StrictlyIncreasingBy(v.dataPoints, ImpactDate) &&
            forall i :: 0 <= i < |bs| ==> v.dataPoints[i].period == bs[i].key && v.dataPoints[i].date == bs[i].date
  {
    BucketsOrdered(cal, Week, ctx);
  }
}
