/** The aggregator itself: AnalitycsalertsApi and its nine views. Each view fills a table of
    buckets, one alert at a time, lists the buckets and sorts them; each method is proved to return
    the Alerts view function it models (AlertsByHour: HourlyView, AlertsByDay: DailyView,
    AlertsByWeekAndSeverity: SeverityView, AlertsByWeekAndHours: HoursView,
    AlertsByDayAndResponder: DayResponderView, the week, month and quarter responder views:
    ResponderView, ImpactByWeekAndResponder: ImpactView). */
module Analytics {
  import opened Decimal
  import opened Moments
  import opened Tallies
  import opened Sorting
  import opened Teams
  import opened Periods
  import opened Alerts

  /** The counters of a week bucket of alertsByWeekAndSeverity. */
  datatype SeverityBucket = SeverityBucket(p1: nat, p2: nat, p3: nat, p4: nat, p5: nat)

  /** The counters of a week bucket of alertsByWeekAndHours. */
  datatype HoursBucket = HoursBucket(businessHours: nat, onCallHours: nat, total: nat)

  /** A bucket of the responder views: a counter per responding team seen in it, and its total. */
  datatype ResponderBucket = ResponderBucket(responders: map<string, nat>, total: nat)

  /** A bucket of impactByWeekAndResponder: the durations per responding team, and all of them. */
  datatype ImpactBucket = ImpactBucket(responders: map<string, seq<int>>, durations: seq<int>)

  /** What the severity counters of bucket k hold once the alerts behind kp are counted. */
  function SeverityBucketOf(kp: seq<(string, string)>, k: string): SeverityBucket {
    SeverityBucket(Tally(kp, (k, "P1")), Tally(kp, (k, "P2")), Tally(kp, (k, "P3")),
                   Tally(kp, (k, "P4")), Tally(kp, (k, "P5")))
  }

  /** What the hours counters of bucket k hold once the alerts behind ks and sh are counted. */
  function HoursBucketOf(ks: seq<string>, sh: seq<(string, bool)>, k: string): HoursBucket {
    HoursBucket(Tally(sh, (k, true)), Tally(sh, (k, false)), Tally(ks, k))
  }

  /** The count of r in a bucket of a responder view, 0 while r has no entry. */
  function CountIn(m: map<string, nat>, r: string): nat {
    if r in m then m[r] else 0
  }

  /** The durations recorded for r in a bucket of the impact view, none while r has no entry. */
  function DurationsIn(m: map<string, seq<int>>, r: string): seq<int> {
    if r in m then m[r] else []
  }

  /** The responder fields of a data point: `Object.keys(respondersMap).forEach(responder =>
      dataPoint[responder] = responders[responder] || 0)`. */
  method ResponderFields(m: map<string, nat>, rs: seq<string>) returns (fields: map<string, nat>)
    ensures fields.Keys == Elements(rs)
    ensures forall r :: r in fields ==> fields[r] == CountIn(m, r)
  {
    fields := map[];
    for n := 0 to |rs|
      invariant fields.Keys == Elements(rs[..n])
      invariant forall r :: r in fields ==> fields[r] == CountIn(m, r)
    {
      assert rs[..n + 1] == rs[..n] + [rs[n]];
      fields := fields[rs[n] := CountIn(m, rs[n])];
    }
    assert rs[..|rs|] == rs;
  }

  /** The responder fields of an impact data point: the mean of the responder's durations, and 0
      when it has none in the bucket. */
  method MeanFields(m: map<string, seq<int>>, rs: seq<string>) returns (fields: map<string, real>)
    ensures fields.Keys == Elements(rs)
    ensures forall r :: r in fields ==> fields[r] == Mean(DurationsIn(m, r))
  {
    fields := map[];
    for n := 0 to |rs|
      invariant fields.Keys == Elements(rs[..n])
      invariant forall r :: r in fields ==> fields[r] == Mean(DurationsIn(m, r))
    {
      assert rs[..n + 1] == rs[..n] + [rs[n]];
      var mean := if rs[n] in m then Mean(m[rs[n]]) else 0.0;
      fields := fields[rs[n] := mean];
    }
    assert rs[..|rs|] == rs;
  }

  /** Updating the bucket of an existing key keeps the set of keys. */
  lemma UpdateKeeps<V>(m: map<string, V>, k: string, v: V)
    requires k in m
    ensures m[k := v].Keys == m.Keys
  {
  }

  /** The team of alert i joins respondersMap unless it is already there. */
  lemma ResponderListStep(teams: seq<Team>, alerts: seq<Alert>, i: int)
    requires 0 <= i < |alerts|
    ensures var r, before := RespondingTeam(teams, alerts[i].responders), ResponderList(teams, alerts[..i]);
            ResponderList(teams, alerts[..i + 1]) == if r in before then before else before + [r]
  {
    assert alerts[..i + 1] == alerts[..i] + [alerts[i]];
    ProjectSnoc(alerts[..i], alerts[i], ResponderOf(teams));
    DedupSnoc(RespondersOf(teams, alerts[..i]), RespondingTeam(teams, alerts[i].responders));
  }

  /** One alert counted in its bucket: `if (!responders[r]) responders[r] = 0; responders[r] += 1;
      total += 1`. */
  function CountResponder(b: ResponderBucket, responder: string): ResponderBucket {
    ResponderBucket(b.responders[responder := CountIn(b.responders, responder) + 1], b.total + 1)
  }

  /** The responder buckets count the alerts seen so far, in total and per team. */
  ghost predicate Tallied(key: Alert -> string, teams: seq<Team>, seen: seq<Alert>, buckets: map<string, ResponderBucket>) {
    (forall k :: k in buckets ==> buckets[k].total == Tally(Keys(key, seen), k)) &&
    (forall k, r :: k in buckets ==>
       CountIn(buckets[k].responders, r) == Tally(KeyedResponders(key, teams, seen), (k, r)))
  }

  lemma TallyStep(key: Alert -> string, teams: seq<Team>, alerts: seq<Alert>, i: int, buckets: map<string, ResponderBucket>)
    requires 0 <= i < |alerts| && Tallied(key, teams, alerts[..i], buckets) && key(alerts[i]) in buckets
    ensures var a := alerts[i];
            Tallied(key, teams, alerts[..i + 1],
                    buckets[key(a) := CountResponder(buckets[key(a)], RespondingTeam(teams, a.responders))])
  {
    var a, seen := alerts[i], alerts[..i];
    assert alerts[..i + 1] == seen + [a];
    var k, responder := key(a), RespondingTeam(teams, a.responders);
    var after := buckets[k := CountResponder(buckets[k], responder)];
    TallyProjectSnoc(seen, a, key);
    TallyProjectSnoc(seen, a, KeyResponderOf(key, teams));
    assert KeyResponderOf(key, teams)(a) == (k, responder);
    forall k' | k' in after
      ensures after[k'].total == Tally(Keys(key, seen + [a]), k')
    {
    }
    forall k', r | k' in after
      ensures CountIn(after[k'].responders, r) == Tally(KeyedResponders(key, teams, seen + [a]), (k', r))
    {
    }
  }

  /** The aggregation loop of the responder views: every alert adds one to its bucket's total and
      to its responding team's counter there, and its team joins respondersMap. */
  method TallyResponders(key: Alert -> string, teams: seq<Team>, alerts: seq<Alert>, ks: seq<string>)
    returns (buckets: map<string, ResponderBucket>, responders: seq<string>)
    requires forall i :: 0 <= i < |alerts| ==> key(alerts[i]) in ks
    ensures buckets.Keys == Elements(ks)
    ensures responders == ResponderList(teams, alerts)
    ensures Tallied(key, teams, alerts, buckets)
  {
    buckets := map k | k in Elements(ks) :: ResponderBucket(map[], 0);
    responders := [];
    for i := 0 to |alerts|
      invariant buckets.Keys == Elements(ks)
      invariant responders == ResponderList(teams, alerts[..i])
      invariant Tallied(key, teams, alerts[..i], buckets)
    {
      var alert := alerts[i];
      ResponderListStep(teams, alerts, i);
      TallyStep(key, teams, alerts, i, buckets);
      var k := key(alert);
      var responder := RespondingTeam(teams, alert.responders);
      if responder !in responders {
        responders := responders + [responder];
      }
      UpdateKeeps(buckets, k, CountResponder(buckets[k], responder));
      buckets := buckets[k := CountResponder(buckets[k], responder)];
    }
    assert alerts[..|alerts|] == alerts;
  }

  /** One alert's duration d pushed onto its bucket, under its responding team and onto all of
      the bucket's durations (the team's list starts empty). */
  function RecordDuration(b: ImpactBucket, responder: string, d: int): ImpactBucket {
    ImpactBucket(b.responders[responder := DurationsIn(b.responders, responder) + [d]], b.durations + [d])
  }

  /** The impact buckets hold the durations of the alerts seen so far, per bucket and per team. */
  ghost predicate Recorded(key: Alert -> string, teams: seq<Team>, seen: seq<Alert>, buckets: map<string, ImpactBucket>) {
    (forall k :: k in buckets ==> buckets[k].durations == KeyDurations(key, seen, k)) &&
    (forall k, r :: k in buckets ==>
       DurationsIn(buckets[k].responders, r) == ResponderDurations(key, teams, seen, k, r))
  }

  lemma RecordStep(key: Alert -> string, teams: seq<Team>, alerts: seq<Alert>, i: int, buckets: map<string, ImpactBucket>)
    requires 0 <= i < |alerts| && Recorded(key, teams, alerts[..i], buckets) && key(alerts[i]) in buckets
    ensures var a := alerts[i];
            Recorded(key, teams, alerts[..i + 1],
                     buckets[key(a) := RecordDuration(buckets[key(a)], RespondingTeam(teams, a.responders), Duration(a))])
  {
    var a, seen := alerts[i], alerts[..i];
    assert alerts[..i + 1] == seen + [a];
    var k, responder := key(a), RespondingTeam(teams, a.responders);
    var after := buckets[k := RecordDuration(buckets[k], responder, Duration(a))];
    forall k' | k' in after
      ensures after[k'].durations == KeyDurations(key, seen + [a], k')
    {
      KeyDurationsSnoc(key, seen, a, k');
    }
    forall k', r | k' in after
      ensures DurationsIn(after[k'].responders, r) == ResponderDurations(key, teams, seen + [a], k', r)
    {
      ResponderDurationsSnoc(key, teams, seen, a, k', r);
    }
  }

  /** The aggregation loop of impactByWeekAndResponder: every alert's duration is recorded in its
      bucket and under its responding team there, and its team joins respondersMap. */
  method CollectDurations(key: Alert -> string, teams: seq<Team>, alerts: seq<Alert>, ks: seq<string>)
    returns (buckets: map<string, ImpactBucket>, responders: seq<string>)
    requires forall i :: 0 <= i < |alerts| ==> key(alerts[i]) in ks
    ensures buckets.Keys == Elements(ks)
    ensures responders == ResponderList(teams, alerts)
    ensures Recorded(key, teams, alerts, buckets)
  {
    buckets := map k | k in Elements(ks) :: ImpactBucket(map[], []);
    responders := [];
    for i := 0 to |alerts|
      invariant buckets.Keys == Elements(ks)
      invariant responders == ResponderList(teams, alerts[..i])
      invariant Recorded(key, teams, alerts[..i], buckets)
    {
      var alert := alerts[i];
      ResponderListStep(teams, alerts, i);
      RecordStep(key, teams, alerts, i, buckets);
      var k := key(alert);
      var responder := RespondingTeam(teams, alert.responders);
      var impactDuration := Duration(alert);
      if responder !in responders {
        responders := responders + [responder];
      }
      UpdateKeeps(buckets, k, RecordDuration(buckets[k], responder, impactDuration));
      buckets := buckets[k := RecordDuration(buckets[k], responder, impactDuration)];
    }
    assert alerts[..|alerts|] == alerts;
  }

  /** One alert counted in its week: the counter of its priority goes up by one; an alert of any
      other priority is not counted. */
  function CountSeverity(b: SeverityBucket, priority: string): SeverityBucket {
    if priority == "P1" then b.(p1 := b.p1 + 1)
    else if priority == "P2" then b.(p2 := b.p2 + 1)
    else if priority == "P3" then b.(p3 := b.p3 + 1)
    else if priority == "P4" then b.(p4 := b.p4 + 1)
    else if priority == "P5" then b.(p5 := b.p5 + 1)
    else b
  }

  /** The counters of a week of the severity view, as a bucket. */
  function SeverityCounters(p: WeeklySeverity): SeverityBucket {
    SeverityBucket(p.p1, p.p2, p.p3, p.p4, p.p5)
  }

  /** Counting an alert in a bucket changes its counters exactly as counting it in the view's
      week does, and leaves the week's key and date alone. */
  lemma CountSeverityAgrees(p: WeeklySeverity, priority: string)
    ensures CountSeverity(SeverityCounters(p), priority) == SeverityCounters(CountPriority(p, priority))
    ensures CountPriority(p, priority).week == p.week && CountPriority(p, priority).date == p.date
  {
  }

  /** The severity buckets count the alerts seen so far by priority. */
  ghost predicate SeveritiesCounted(key: Alert -> string, seen: seq<Alert>, buckets: map<string, SeverityBucket>) {
    forall k :: k in buckets ==> buckets[k] == SeverityBucketOf(KeyedPriorities(key, seen), k)
  }

  lemma SeverityStep(key: Alert -> string, alerts: seq<Alert>, i: int, buckets: map<string, SeverityBucket>)
    requires 0 <= i < |alerts| && SeveritiesCounted(key, alerts[..i], buckets)
    requires IsSeverity(alerts[i].priority) ==> key(alerts[i]) in buckets
    ensures var a := alerts[i];
            SeveritiesCounted(key, alerts[..i + 1],
                              if IsSeverity(a.priority) then buckets[key(a) := CountSeverity(buckets[key(a)], a.priority)]
                              else buckets)
  {
    var a := alerts[i];
    assert alerts[..i + 1] == alerts[..i] + [a];
    TallyProjectSnoc(alerts[..i], a, KeyPriorityOf(key));
  }

  /** The aggregation loop of alertsByWeekAndSeverity: every alert adds one to the counter of its
      priority in its week's bucket, and to none when its priority is not one of P1 to P5. */
  method CountSeverities(key: Alert -> string, alerts: seq<Alert>, ks: seq<string>)
    returns (buckets: map<string, SeverityBucket>)
    requires forall i :: 0 <= i < |alerts| && IsSeverity(alerts[i].priority) ==> key(alerts[i]) in ks
    ensures buckets.Keys == Elements(ks)
    ensures SeveritiesCounted(key, alerts, buckets)
  {
    buckets := map k | k in Elements(ks) :: SeverityBucket(0, 0, 0, 0, 0);
    for i := 0 to |alerts|
      invariant buckets.Keys == Elements(ks)
      invariant SeveritiesCounted(key, alerts[..i], buckets)
    {
      var alert := alerts[i];
      SeverityStep(key, alerts, i, buckets);
      var week := key(alert);
      if IsSeverity(alert.priority) {
        UpdateKeeps(buckets, week, CountSeverity(buckets[week], alert.priority));
        buckets := buckets[week := CountSeverity(buckets[week], alert.priority)];
      }
    }
    assert alerts[..|alerts|] == alerts;
  }

  /** One alert counted in its week: the total goes up by one, and so does the business-hours
      counter when it started in business hours and the on-call counter when it did not. */
  function CountShift(b: HoursBucket, inBusinessHours: bool): HoursBucket {
    if inBusinessHours then HoursBucket(b.businessHours + 1, b.onCallHours, b.total + 1)
    else HoursBucket(b.businessHours, b.onCallHours + 1, b.total + 1)
  }

  /** The hours buckets count the alerts seen so far, in total and by shift. */
  ghost predicate ShiftsCounted(bh: BusinessHours, key: Alert -> string, seen: seq<Alert>, buckets: map<string, HoursBucket>) {
    forall k :: k in buckets ==> buckets[k] == HoursBucketOf(Keys(key, seen), KeyedShifts(bh, key, seen), k)
  }

  lemma ShiftStep(bh: BusinessHours, key: Alert -> string, alerts: seq<Alert>, i: int, buckets: map<string, HoursBucket>)
    requires 0 <= i < |alerts| && ShiftsCounted(bh, key, alerts[..i], buckets) && key(alerts[i]) in buckets
    ensures var a := alerts[i];
            ShiftsCounted(bh, key, alerts[..i + 1],
                          buckets[key(a) := CountShift(buckets[key(a)], InBusinessHours(bh, a.createdAt))])
  {
    var a := alerts[i];
    assert alerts[..i + 1] == alerts[..i] + [a];
    TallyProjectSnoc(alerts[..i], a, key);
    TallyProjectSnoc(alerts[..i], a, KeyShiftOf(bh, key));
  }

  /** The aggregation loop of alertsByWeekAndHours: every alert adds one to its week's total and
      to its business-hours or its on-call counter. */
  method CountShifts(bh: BusinessHours, key: Alert -> string, alerts: seq<Alert>, ks: seq<string>)
    returns (buckets: map<string, HoursBucket>)
    requires forall i :: 0 <= i < |alerts| ==> key(alerts[i]) in ks
    ensures buckets.Keys == Elements(ks)
    ensures ShiftsCounted(bh, key, alerts, buckets)
  {
    buckets := map k | k in Elements(ks) :: HoursBucket(0, 0, 0);
    for i := 0 to |alerts|
      invariant buckets.Keys == Elements(ks)
      invariant ShiftsCounted(bh, key, alerts[..i], buckets)
    {
      var alert := alerts[i];
      ShiftStep(bh, key, alerts, i, buckets);
      var week := key(alert);
      UpdateKeeps(buckets, week, CountShift(buckets[week], InBusinessHours(bh, alert.createdAt)));
      buckets := buckets[week := CountShift(buckets[week], InBusinessHours(bh, alert.createdAt))];
    }
    assert alerts[..|alerts|] == alerts;
  }

  /** `Object.keys(alertsBuckets).map(...)` of alertsByWeekAndSeverity: a point per bucket, in the
      order the buckets were created. */
  method ListSeverities(weeks: seq<Period>, buckets: map<string, SeverityBucket>, ghost kp: seq<(string, string)>)
    returns (data: seq<WeeklySeverity>)
    requires buckets.Keys == Elements(KeysOf(weeks))
    requires forall k :: k in buckets ==> buckets[k] == SeverityBucketOf(kp, k)
    ensures data == SeverityPoints(weeks, kp)
  {
    data := [];
    for j := 0 to |weeks|
      invariant |data| == j
      invariant forall m :: 0 <= m < j ==> data[m] == SeverityPoint(kp, weeks[m])
    {
      var week := weeks[j].key;
      assert KeysOf(weeks)[j] == week;
      var b := buckets[week];
      data := data + [WeeklySeverity(week, b.p1, b.p2, b.p3, b.p4, b.p5, weeks[j].date)];
    }
  }

  /** `Object.keys(alertsBuckets).map(...)` of alertsByWeekAndHours. */
  method ListHours(weeks: seq<Period>, buckets: map<string, HoursBucket>, ghost ks: seq<string>, ghost sh: seq<(string, bool)>)
    returns (data: seq<WeeklyHours>)
    requires buckets.Keys == Elements(KeysOf(weeks))
    requires forall k :: k in buckets ==> buckets[k] == HoursBucketOf(ks, sh, k)
    ensures data == HoursPoints(weeks, ks, sh)
  {
    data := [];
    for j := 0 to |weeks|
      invariant |data| == j
      invariant forall m :: 0 <= m < j ==> data[m] == HoursPoint(ks, sh, weeks[m])
    {
      var week := weeks[j].key;
      assert KeysOf(weeks)[j] == week;
      var b := buckets[week];
      data := data + [WeeklyHours(week, b.businessHours, b.onCallHours, b.total, weeks[j].date)];
    }
  }

  /** `Object.keys(alertsBuckets).map(...)` of the week, month and quarter responder views. */
  method ListResponderPoints(ps: seq<Period>, buckets: map<string, ResponderBucket>, responders: seq<string>,
                             ghost ks: seq<string>, ghost kr: seq<(string, string)>)
    returns (data: seq<ResponderPoint>)
    requires buckets.Keys == Elements(KeysOf(ps))
    requires forall k :: k in buckets ==> buckets[k].total == Tally(ks, k)
    requires forall k, r :: k in buckets ==> CountIn(buckets[k].responders, r) == Tally(kr, (k, r))
    ensures data == ResponderPoints(ps, ks, kr, responders)
  {
    data := [];
    for j := 0 to |ps|
      invariant |data| == j
      invariant forall m :: 0 <= m < j ==> data[m] == ResponderPoints(ps, ks, kr, responders)[m]
    {
      var period := ps[j].key;
      assert KeysOf(ps)[j] == period;
      var b := buckets[period];
      var fields := ResponderFields(b.responders, responders);
      assert fields == ResponderCounts(kr, period, responders);
      data := data + [ResponderPoint(period, b.total, ps[j].date, fields)];
    }
  }

  /** `Object.keys(alertsBuckets).map(...)` of impactByWeekAndResponder. */
  method ListImpactPoints(weeks: seq<Period>, buckets: map<string, ImpactBucket>, responders: seq<string>,
                          ghost key: Alert -> string, ghost teams: seq<Team>, ghost alerts: seq<Alert>)
    returns (data: seq<ImpactPoint>)
    requires buckets.Keys == Elements(KeysOf(weeks))
    requires Recorded(key, teams, alerts, buckets)
    ensures data == ImpactPoints(weeks, key, teams, alerts, responders)
  {
    data := [];
    for j := 0 to |weeks|
      invariant |data| == j
      invariant forall m :: 0 <= m < j ==> data[m] == ImpactPoints(weeks, key, teams, alerts, responders)[m]
    {
      var week := weeks[j].key;
      assert KeysOf(weeks)[j] == week;
      var b := buckets[week];
      var fields := MeanFields(b.responders, responders);
      assert fields == ImpactPointOf(key, teams, alerts, responders, weeks[j]).means;
      data := data + [ImpactPoint(week, Mean(b.durations), weeks[j].date, fields)];
    }
  }

  /** The keys "0" to "6" of the weekday buckets. */
  method DayBucketKeys() returns (days: seq<string>)
    ensures |days| == 7 && forall d :: 0 <= d < 7 ==> days[d] == DayBucketKey(d)
  {
    days := [];
    // one key per weekday, "0" for Sunday to "6" for Saturday
    for d := 0 to 7
      invariant |days| == d && forall j :: 0 <= j < d ==> days[j] == DayBucketKey(j)
    {
      days := days + [DecimalString(d)];
    }
  }

  /** `Object.keys(alertsBuckets).map(...)` of alertsByDayAndResponder: "0" to "6", that is Sunday
      first. */
  method ListDayResponderPoints(buckets: map<string, ResponderBucket>, responders: seq<string>,
                                ghost ks: seq<string>, ghost kr: seq<(string, string)>)
    returns (data: seq<DayResponderPoint>)
    requires forall d :: 0 <= d < 7 ==> DayBucketKey(d) in buckets
    requires forall k :: k in buckets ==> buckets[k].total == Tally(ks, k)
    requires forall k, r :: k in buckets ==> CountIn(buckets[k].responders, r) == Tally(kr, (k, r))
    ensures |data| == 7 && forall d :: 0 <= d < 7 ==> data[d] == DayResponderPointOf(ks, kr, responders, d)
  {
    data := [];
    for d := 0 to 7
      invariant |data| == d
      invariant forall j :: 0 <= j < d ==> data[j] == DayResponderPointOf(ks, kr, responders, j)
    {
      var b := buckets[DayBucketKey(d)];
      var fields := ResponderFields(b.responders, responders);
      assert fields == ResponderCounts(kr, DayBucketKey(d), responders);
      data := data + [DayResponderPoint(DayName(d), d, b.total, fields)];
    }
  }

  /** The week, month and quarter responder views, which differ only in the period they bucket by. */
  method AlertsByPeriodAndResponder(cal: Calendar, g: Granularity, ctx: Context)
    returns (result: AlertsByResponders<ResponderPoint>)
    requires Bucketed(cal, g, ctx)
    ensures result == ResponderView(cal, g, ctx)
  {
    var key := PeriodKeyOf(cal, g);
    var ps := GeneratePeriods(SpanStart(g, ctx), SpanEnd(g, ctx), Advance(cal, g), KeyOf(cal, g));
    var alertsBuckets, responders := TallyResponders(key, ctx.teams, ctx.alerts, KeysOf(ps));
    var unsorted := ListResponderPoints(ps, alertsBuckets, responders, Keys(key, ctx.alerts),
                                        KeyedResponders(key, ctx.teams, ctx.alerts));
    var data := SortSeq(unsorted, ResponderDate);
    ResponderViewPoints(cal, g, ctx);
    SortedPermutationUnique(unsorted, data, ResponderDate);
    result := AlertsByResponders(data, responders);
  }

  /** Sorting the weekday responder points, listed Sunday first, Monday first gives the view. */
  lemma DayResponderSorted(ctx: Context, unsorted: seq<DayResponderPoint>, data: seq<DayResponderPoint>)
    requires |unsorted| == 7
    requires forall d :: 0 <= d < 7 ==>
               unsorted[d] == DayResponderPointOf(Keys(DayKeyOf, ctx.alerts), KeyedResponders(DayKeyOf, ctx.teams, ctx.alerts),
                                                  ResponderList(ctx.teams, ctx.alerts), d)
    requires SortedBy(data, DayResponderOrder) && multiset(data) == multiset(unsorted)
    ensures data == DayResponderView(ctx).dataPoints
  {
    var view := DayResponderView(ctx).dataPoints;
    assert view == unsorted[1..] + unsorted[..1];
    assert unsorted == unsorted[..1] + unsorted[1..];
    DayResponderViewOrder(ctx);
    SortedPermutationUnique(view, data, DayResponderOrder);
  }

  /** Sorting the weekday points, listed Sunday first, Monday first gives the daily view. */
  lemma DailySorted(alerts: seq<Alert>, unsorted: seq<DailyAlerts>, data: seq<DailyAlerts>)
    requires |unsorted| == 7 && forall d :: 0 <= d < 7 ==> unsorted[d] == DailyPoint(alerts, d)
    requires SortedBy(data, DailyOrder) && multiset(data) == multiset(unsorted)
    ensures data == DailyView(alerts)
  {
    var view := DailyView(alerts);
    assert view == unsorted[1..] + unsorted[..1];
    assert unsorted == unsorted[..1] + unsorted[1..];
    DailyViewOrder(alerts);
    SortedPermutationUnique(view, data, DailyOrder);
  }

  class AnalyticsAlertsApi {
    const businessHours: BusinessHours

    constructor(businessHours: BusinessHours)
      ensures this.businessHours == businessHours
    {
      this.businessHours := businessHours;
    }

    /** alertsByHour */
    method AlertsByHour(ctx: Context) returns (data: seq<HourlyAlerts>)
      ensures data == HourlyView(ctx.alerts)
    {
      var alertsBuckets := new nat[24];
      // zero-fill the 24 hour counters
      for h := 0 to 24
        invariant forall j :: 0 <= j < h ==> alertsBuckets[j] == 0
      {
        alertsBuckets[h] := 0;
      }
      for i := 0 to |ctx.alerts|
        invariant forall h :: 0 <= h < 24 ==> alertsBuckets[h] == Tally(Project(ctx.alerts[..i], HourOf), h)
      {
        var alert := ctx.alerts[i];
        assert ctx.alerts[..i + 1] == ctx.alerts[..i] + [alert];
        TallyProjectSnoc(ctx.alerts[..i], alert, HourOf);
        var hour := Hour(alert.createdAt);
        alertsBuckets[hour] := alertsBuckets[hour] + 1;
      }
      assert ctx.alerts[..|ctx.alerts|] == ctx.alerts;
      var unsorted := [];
      for h := 0 to 24
        invariant |unsorted| == h
        invariant forall j :: 0 <= j < h ==> unsorted[j] == HourlyView(ctx.alerts)[j]
      {
        unsorted := unsorted + [HourlyAlerts(DecimalString(h), alertsBuckets[h])];
      }
      data := SortSeq(unsorted, HourNumber);
      assert unsorted == HourlyView(ctx.alerts);
      HourlyViewPoints(ctx.alerts);
      SortedPermutationUnique(unsorted, data, HourNumber);
    }

    /** alertsByDay */
    method AlertsByDay(ctx: Context) returns (data: seq<DailyAlerts>)
      ensures data == DailyView(ctx.alerts)
    {
      var alertsBuckets := new nat[7];
      // zero-fill the seven weekday counters
      for d := 0 to 7
        invariant forall j :: 0 <= j < d ==> alertsBuckets[j] == 0
      {
        alertsBuckets[d] := 0;
      }
      for i := 0 to |ctx.alerts|
        invariant forall d :: 0 <= d < 7 ==> alertsBuckets[d] == Tally(Project(ctx.alerts[..i], WeekDayOf), d)
      {
        var alert := ctx.alerts[i];
        assert ctx.alerts[..i + 1] == ctx.alerts[..i] + [alert];
        TallyProjectSnoc(ctx.alerts[..i], alert, WeekDayOf);
        var day := WeekDay(alert.createdAt);
        alertsBuckets[day] := alertsBuckets[day] + 1;
      }
      assert ctx.alerts[..|ctx.alerts|] == ctx.alerts;
      var unsorted := [];
      for d := 0 to 7
        invariant |unsorted| == d
        invariant forall j :: 0 <= j < d ==> unsorted[j] == DailyPoint(ctx.alerts, j)
      {
        unsorted := unsorted + [DailyAlerts(DayName(d), d, alertsBuckets[d])];
      }
      // order the weekdays Monday to Sunday
      data := SortSeq(unsorted, DailyOrder);
      DailySorted(ctx.alerts, unsorted, data);
    }

    /** alertsByWeekAndSeverity */
    method AlertsByWeekAndSeverity(cal: Calendar, ctx: Context) returns (data: seq<WeeklySeverity>)
      requires SeverityBucketed(cal, ctx)
      ensures data == SeverityView(cal, ctx)
    {
      var key := PeriodKeyOf(cal, Week);
      var weeks := GeneratePeriods(StartOfIsoWeek(ctx.from), StartOfIsoWeek(ctx.to), Advance(cal, Week), KeyOf(cal, Week));
      assert weeks == Buckets(cal, Week, ctx);
      var alertsBuckets := CountSeverities(key, ctx.alerts, KeysOf(weeks));
      var unsorted := ListSeverities(weeks, alertsBuckets, KeyedPriorities(key, ctx.alerts));
      data := SortSeq(unsorted, SeverityDate);
      SeverityViewOrder(cal, ctx);
      SortedPermutationUnique(unsorted, data, SeverityDate);
    }

    /** alertsByWeekAndHours */
    method AlertsByWeekAndHours(cal: Calendar, ctx: Context) returns (data: seq<WeeklyHours>)
      requires Bucketed(cal, Week, ctx)
      ensures data == HoursView(businessHours, cal, ctx)
    {
      var key := PeriodKeyOf(cal, Week);
      var weeks := GeneratePeriods(StartOfIsoWeek(ctx.from), StartOfIsoWeek(ctx.to), Advance(cal, Week), KeyOf(cal, Week));
      assert weeks == Buckets(cal, Week, ctx);
      var alertsBuckets := CountShifts(businessHours, key, ctx.alerts, KeysOf(weeks));
      var unsorted := ListHours(weeks, alertsBuckets, Keys(key, ctx.alerts), KeyedShifts(businessHours, key, ctx.alerts));
      data := SortSeq(unsorted, HoursDate);
      HoursViewOrder(businessHours, cal, ctx);
      SortedPermutationUnique(unsorted, data, HoursDate);
    }

    /** alertsByDayAndResponder */
    method AlertsByDayAndResponder(ctx: Context) returns (result: AlertsByResponders<DayResponderPoint>)
      ensures result == DayResponderView(ctx)
    {
      var days := DayBucketKeys();
      forall i | 0 <= i < |ctx.alerts|
        ensures DayKeyOf(ctx.alerts[i]) in days
      {
        assert days[WeekDay(ctx.alerts[i].createdAt)] == DayKeyOf(ctx.alerts[i]);
      }
      var alertsBuckets, responders := TallyResponders(DayKeyOf, ctx.teams, ctx.alerts, days);
      var unsorted := ListDayResponderPoints(alertsBuckets, responders,
                                             Keys(DayKeyOf, ctx.alerts), KeyedResponders(DayKeyOf, ctx.teams, ctx.alerts));
      // order the weekdays Monday to Sunday
      var data := SortSeq(unsorted, DayResponderOrder);
      DayResponderSorted(ctx, unsorted, data);
      result := AlertsByResponders(data, responders);
    }

    /** alertsByWeekAndResponder */
    method AlertsByWeekAndResponder(cal: Calendar, ctx: Context) returns (result: AlertsByResponders<ResponderPoint>)
      requires Bucketed(cal, Week, ctx)
      ensures result == ResponderView(cal, Week, ctx)
    {
      result := AlertsByPeriodAndResponder(cal, Week, ctx);
    }

    /** alertsByMonthAndResponder */
    method AlertsByMonthAndResponder(cal: Calendar, ctx: Context) returns (result: AlertsByResponders<ResponderPoint>)
      requires Bucketed(cal, Month, ctx)
      ensures result == ResponderView(cal, Month, ctx)
    {
      result := AlertsByPeriodAndResponder(cal, Month, ctx);
    }

    /** alertsByQuarterAndResponder */
    method AlertsByQuarterAndResponder(cal: Calendar, ctx: Context) returns (result: AlertsByResponders<ResponderPoint>)
      requires Bucketed(cal, Quarter, ctx)
      ensures result == ResponderView(cal, Quarter, ctx)
    {
      result := AlertsByPeriodAndResponder(cal, Quarter, ctx);
    }

    /** impactByWeekAndResponder */
    method ImpactByWeekAndResponder(cal: Calendar, ctx: Context) returns (result: AlertsByResponders<ImpactPoint>)
      requires Bucketed(cal, Week, ctx)
      ensures result == ImpactView(cal, ctx)
    {
      var key := PeriodKeyOf(cal, Week);
      var weeks := GeneratePeriods(StartOfIsoWeek(ctx.from), StartOfIsoWeek(ctx.to), Advance(cal, Week), KeyOf(cal, Week));
      assert weeks == Buckets(cal, Week, ctx);
      var alertsBuckets, responders := CollectDurations(key, ctx.teams, ctx.alerts, KeysOf(weeks));
      var unsorted := ListImpactPoints(weeks, alertsBuckets, responders, key, ctx.teams, ctx.alerts);
      var data := SortSeq(unsorted, ImpactDate);
      ImpactViewOrder(cal, ctx);
      SortedPermutationUnique(unsorted, data, ImpactDate);
      result := AlertsByResponders(data, responders);
    }
  }
}
