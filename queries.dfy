/**
 * The read-only endpoints: visitor, trip and schedule listings, today's pending
 * schedules, the dashboard counters and the daily report. Each is a filter over one
 * collection, optionally sorted on one string field, and capped by `to_list(1000)`.
 */
module Queries {
  import opened Wrappers
  import opened Records
  import opened Strings
  import opened Seqs
  import opened Sorting

  // ─── Filters shared by the listings, the dashboard and the report ──

  predicate IsOpen(v: Visitor) {
    v.exitTime.None?
  }

  /** `entry_time` matches the regex `^{date}`. */
  function EnteredOn(date: string): Visitor -> bool {
    (v: Visitor) => date <= v.entryTime
  }

  predicate IsTraveling(t: FleetTrip) {
    t.status == EmViagem
  }

  /** `created_at` matches the regex `^{date}`. */
  function StartedOn(date: string): FleetTrip -> bool {
    (t: FleetTrip) => date <= t.createdAt
  }

  /** `visit_date` equals `date`. */
  function ScheduledOn(date: string): Schedule -> bool {
    (s: Schedule) => s.visitDate == date
  }

  predicate IsDueOn(s: Schedule, today: string) {
    s.visitDate == today && s.status == Pending
  }

  function DueOn(today: string): Schedule -> bool {
    (s: Schedule) => IsDueOn(s, today)
  }

  // ─── Finders: the document `update_one`, `delete_one` or `find_one` matches ──

  function OpenWithId(id: string): Visitor -> bool {
    (v: Visitor) => v.id == id && v.exitTime.None?
  }

  /** The visitor the checkout filter `{id, exit_time: None}` matches. */
  function FindOpenVisitor(vs: seq<Visitor>, id: string): Option<nat> {
    FirstIndex(vs, OpenWithId(id))
  }

  function ScheduleWithId(id: string): Schedule -> bool {
    (s: Schedule) => s.id == id
  }

  function FindSchedule(ss: seq<Schedule>, id: string): Option<nat> {
    FirstIndex(ss, ScheduleWithId(id))
  }

  function TripWithId(id: string): FleetTrip -> bool {
    (t: FleetTrip) => t.id == id
  }

  function FindTrip(ts: seq<FleetTrip>, id: string): Option<nat> {
    FirstIndex(ts, TripWithId(id))
  }

  // ─── Visitor listing ────────────────────────────────────────────────

  /** The filter of the visitor listing; an empty `date` and `active == false` add no condition. */
  predicate MatchesVisitorQuery(v: Visitor, date: string, active: bool) {
    (!active || v.exitTime.None?) && (date == "" || date <= v.entryTime)
  }

  function VisitorQuery(date: string, active: bool): Visitor -> bool {
    (v: Visitor) => MatchesVisitorQuery(v, date, active)
  }

  function EntryTimeOf(v: Visitor): string {
    v.entryTime
  }

  /** `find(query).sort("entry_time", -1).to_list(1000)`. */
  function ListVisitors(vs: seq<Visitor>, date: string, active: bool): seq<Visitor> {
    Cap(SortOn(Filter(vs, VisitorQuery(date, active)), EntryTimeOf, true))
  }

  /**
   * The visitor listing holds matching visitors of the store, newest entry first, as many
   * as match up to 1000; only visitors no newer than all listed ones are left out.
   */
  lemma ListVisitorsSpec(vs: seq<Visitor>, date: string, active: bool)
    ensures var r := ListVisitors(vs, date, active);
      && multiset(r) <= multiset(vs)
      && |r| == Min(Count(vs, VisitorQuery(date, active)), MaxList)
      && (forall i :: 0 <= i < |r| ==> r[i] in vs && MatchesVisitorQuery(r[i], date, active))
      && (forall i, j :: 0 <= i < j < |r| ==> StrLe(r[j].entryTime, r[i].entryTime))
      && (forall k :: 0 <= k < |vs| && MatchesVisitorQuery(vs[k], date, active) && vs[k] !in r ==>
            forall i :: 0 <= i < |r| ==> StrLe(vs[k].entryTime, r[i].entryTime))
      && (Count(vs, VisitorQuery(date, active)) <= MaxList ==>
            forall k :: 0 <= k < |vs| && MatchesVisitorQuery(vs[k], date, active) ==> vs[k] in r)
  {
    var r := ListVisitors(vs, date, active);
    SortedListSpec(vs, VisitorQuery(date, active), EntryTimeOf, true);
    forall i, j | 0 <= i < j < |r| ensures StrLe(r[j].entryTime, r[i].entryTime) {
      assert Before(EntryTimeOf, true, r[i], r[j]);
    }
    forall k | 0 <= k < |vs| && MatchesVisitorQuery(vs[k], date, active) && vs[k] !in r
      ensures forall i :: 0 <= i < |r| ==> StrLe(vs[k].entryTime, r[i].entryTime)
    {
      assert VisitorQuery(date, active)(vs[k]);
      assert forall i :: 0 <= i < |r| ==> Before(EntryTimeOf, true, r[i], vs[k]);
    }
  }

  // ─── Fleet listing ──────────────────────────────────────────────────

  predicate MatchesTripQuery(t: FleetTrip, date: string, active: bool) {
    (!active || t.status == EmViagem) && (date == "" || date <= t.createdAt)
  }

  function TripQuery(date: string, active: bool): FleetTrip -> bool {
    (t: FleetTrip) => MatchesTripQuery(t, date, active)
  }

  function CreatedAtOf(t: FleetTrip): string {
    t.createdAt
  }

  /** `find(query).sort("created_at", -1).to_list(1000)`. */
  function ListTrips(ts: seq<FleetTrip>, date: string, active: bool): seq<FleetTrip> {
    Cap(SortOn(Filter(ts, TripQuery(date, active)), CreatedAtOf, true))
  }

  /** The trip listing holds matching trips, newest departure first, up to 1000 of them. */
  lemma ListTripsSpec(ts: seq<FleetTrip>, date: string, active: bool)
    ensures var r := ListTrips(ts, date, active);
      && multiset(r) <= multiset(ts)
      && |r| == Min(Count(ts, TripQuery(date, active)), MaxList)
      && (forall i :: 0 <= i < |r| ==> r[i] in ts && MatchesTripQuery(r[i], date, active))
      && (forall i, j :: 0 <= i < j < |r| ==> StrLe(r[j].createdAt, r[i].createdAt))
      && (forall k :: 0 <= k < |ts| && MatchesTripQuery(ts[k], date, active) && ts[k] !in r ==>
            forall i :: 0 <= i < |r| ==> StrLe(ts[k].createdAt, r[i].createdAt))
      && (Count(ts, TripQuery(date, active)) <= MaxList ==>
            forall k :: 0 <= k < |ts| && MatchesTripQuery(ts[k], date, active) ==> ts[k] in r)
  {
    var r := ListTrips(ts, date, active);
    SortedListSpec(ts, TripQuery(date, active), CreatedAtOf, true);
    forall i, j | 0 <= i < j < |r| ensures StrLe(r[j].createdAt, r[i].createdAt) {
      assert Before(CreatedAtOf, true, r[i], r[j]);
    }
    forall k | 0 <= k < |ts| && MatchesTripQuery(ts[k], date, active) && ts[k] !in r
      ensures forall i :: 0 <= i < |r| ==> StrLe(ts[k].createdAt, r[i].createdAt)
    {
      assert TripQuery(date, active)(ts[k]);
      assert forall i :: 0 <= i < |r| ==> Before(CreatedAtOf, true, r[i], ts[k]);
    }
  }

  // ─── Schedule listings ──────────────────────────────────────────────

  predicate MatchesScheduleQuery(s: Schedule, date: string) {
    date == "" || s.visitDate == date
  }

  function ScheduleQuery(date: string): Schedule -> bool {
    (s: Schedule) => MatchesScheduleQuery(s, date)
  }

  function VisitDateOf(s: Schedule): string {
    s.visitDate
  }

  /** `find(query).sort("visit_date", 1).to_list(1000)`. */
  function ListSchedules(ss: seq<Schedule>, date: string): seq<Schedule> {
    Cap(SortOn(Filter(ss, ScheduleQuery(date)), VisitDateOf, false))
  }

  /** The schedule listing holds matching schedules, earliest visit date first, up to 1000. */
  lemma ListSchedulesSpec(ss: seq<Schedule>, date: string)
    ensures var r := ListSchedules(ss, date);
      && multiset(r) <= multiset(ss)
      && |r| == Min(Count(ss, ScheduleQuery(date)), MaxList)
      && (forall i :: 0 <= i < |r| ==> r[i] in ss && MatchesScheduleQuery(r[i], date))
      && (forall i, j :: 0 <= i < j < |r| ==> StrLe(r[i].visitDate, r[j].visitDate))
      && (forall k :: 0 <= k < |ss| && MatchesScheduleQuery(ss[k], date) && ss[k] !in r ==>
            forall i :: 0 <= i < |r| ==> StrLe(r[i].visitDate, ss[k].visitDate))
      && (Count(ss, ScheduleQuery(date)) <= MaxList ==>
            forall k :: 0 <= k < |ss| && MatchesScheduleQuery(ss[k], date) ==> ss[k] in r)
  {
    var r := ListSchedules(ss, date);
    SortedListSpec(ss, ScheduleQuery(date), VisitDateOf, false);
    forall i, j | 0 <= i < j < |r| ensures StrLe(r[i].visitDate, r[j].visitDate) {
      assert Before(VisitDateOf, false, r[i], r[j]);
    }
    forall k | 0 <= k < |ss| && MatchesScheduleQuery(ss[k], date) && ss[k] !in r
      ensures forall i :: 0 <= i < |r| ==> StrLe(r[i].visitDate, ss[k].visitDate)
    {
      assert ScheduleQuery(date)(ss[k]);
      assert forall i :: 0 <= i < |r| ==> Before(VisitDateOf, false, r[i], ss[k]);
    }
  }

  /** `find({visit_date: today, status: pending}).to_list(1000)`, in store order. */
  function TodaySchedules(ss: seq<Schedule>, today: string): seq<Schedule> {
    Cap(Filter(ss, DueOn(today)))
  }

  /**
   * Today's schedules are exactly the pending schedules dated today, the first 1000 of
   * them in store order when more are due: a completed schedule never appears, whatever
   * its date.
   */
  lemma TodaySchedulesSpec(ss: seq<Schedule>, today: string)
    ensures var r := TodaySchedules(ss, today);
      && |r| == Min(Count(ss, DueOn(today)), MaxList)
      && (forall i :: 0 <= i < |r| ==> r[i] in ss && r[i].visitDate == today && r[i].status == Pending)
      && multiset(r) <= multiset(ss)
      && (exists j :: 0 <= j <= |ss| && r == Filter(ss[..j], DueOn(today)))
      && (Count(ss, DueOn(today)) <= MaxList ==>
            forall k :: 0 <= k < |ss| && ss[k].visitDate == today && ss[k].status == Pending ==> ss[k] in r)
  {
    CappedFilterSpec(ss, DueOn(today));
  }

  // ─── Dashboard ──────────────────────────────────────────────────────

  datatype DashboardStats = DashboardStats(
    activeVisitors: nat,
    todayVisitors: nat,
    todaySchedules: nat,
    activeTrips: nat,
    todayTrips: nat)

  /** The five `count_documents` calls of the dashboard, uncapped. */
  function Dashboard(vs: seq<Visitor>, ss: seq<Schedule>, ts: seq<FleetTrip>, today: string): DashboardStats {
    DashboardStats(
      Count(vs, IsOpen),
      Count(vs, EnteredOn(today)),
      Count(ss, DueOn(today)),
      Count(ts, IsTraveling),
      Count(ts, StartedOn(today)))
  }

  /**
   * Each dashboard counter counts what the matching listing shows: the listing's length
   * is the counter, cut at 1000.
   */
  lemma DashboardAgreesWithListings(vs: seq<Visitor>, ss: seq<Schedule>, ts: seq<FleetTrip>, today: string)
    ensures var st := Dashboard(vs, ss, ts, today);
      && |ListVisitors(vs, "", true)| == Min(st.activeVisitors, MaxList)
      && |ListVisitors(vs, today, false)| == Min(st.todayVisitors, MaxList)
      && |TodaySchedules(ss, today)| == Min(st.todaySchedules, MaxList)
      && |ListTrips(ts, "", true)| == Min(st.activeTrips, MaxList)
      && |ListTrips(ts, today, false)| == Min(st.todayTrips, MaxList)
  {
    ActiveVisitorsCounted(vs);
    TodayVisitorsCounted(vs, today);
    TodaySchedulesSpec(ss, today);
    ActiveTripsCounted(ts);
    TodayTripsCounted(ts, today);
  }

  lemma ActiveVisitorsCounted(vs: seq<Visitor>)
    ensures |ListVisitors(vs, "", true)| == Min(Count(vs, IsOpen), MaxList)
  {
    FilterExt(vs, VisitorQuery("", true), IsOpen);
    assert |SortOn(Filter(vs, VisitorQuery("", true)), EntryTimeOf, true)| == Count(vs, IsOpen);
  }

  lemma TodayVisitorsCounted(vs: seq<Visitor>, today: string)
    ensures |ListVisitors(vs, today, false)| == Min(Count(vs, EnteredOn(today)), MaxList)
  {
    FilterExt(vs, VisitorQuery(today, false), EnteredOn(today));
    assert |SortOn(Filter(vs, VisitorQuery(today, false)), EntryTimeOf, true)| == Count(vs, EnteredOn(today));
  }

  lemma ActiveTripsCounted(ts: seq<FleetTrip>)
    ensures |ListTrips(ts, "", true)| == Min(Count(ts, IsTraveling), MaxList)
  {
    FilterExt(ts, TripQuery("", true), IsTraveling);
    assert |SortOn(Filter(ts, TripQuery("", true)), CreatedAtOf, true)| == Count(ts, IsTraveling);
  }

  lemma TodayTripsCounted(ts: seq<FleetTrip>, today: string)
    ensures |ListTrips(ts, today, false)| == Min(Count(ts, StartedOn(today)), MaxList)
  {
    FilterExt(ts, TripQuery(today, false), StartedOn(today));
    assert |SortOn(Filter(ts, TripQuery(today, false)), CreatedAtOf, true)| == Count(ts, StartedOn(today));
  }

  // ─── Daily report ───────────────────────────────────────────────────

  /** An absent or empty `date` parameter means today. */
  function EffectiveDate(date: string, today: string): string {
    if date == "" then today else date
  }

  /** The visitors of a day, as the report and both exports fetch them. */
  function DayVisitors(vs: seq<Visitor>, date: string): seq<Visitor> {
    Cap(Filter(vs, EnteredOn(date)))
  }

  /** The trips of a day, as the report and both exports fetch them. */
  function DayTrips(ts: seq<FleetTrip>, date: string): seq<FleetTrip> {
    Cap(Filter(ts, StartedOn(date)))
  }

  function DaySchedules(ss: seq<Schedule>, date: string): seq<Schedule> {
    Cap(Filter(ss, ScheduledOn(date)))
  }

  datatype DailyReport = DailyReport(
    date: string,
    visitors: seq<Visitor>,
    fleet: seq<FleetTrip>,
    schedules: seq<Schedule>,
    observation: string,
    porterName: string)

  function BuildReport(vs: seq<Visitor>, ts: seq<FleetTrip>, ss: seq<Schedule>,
                       obs: map<string, Observation>, date: string, today: string): DailyReport
  {
    var d := EffectiveDate(date, today);
    DailyReport(
      d,
      DayVisitors(vs, d),
      DayTrips(ts, d),
      DaySchedules(ss, d),
      if d in obs then obs[d].observation else "",
      if d in obs then obs[d].porterName else "")
  }

  /** The day's visitors are visitors whose entry time starts with the date; all of them up to 1000. */
  lemma DayVisitorsSpec(vs: seq<Visitor>, d: string)
    ensures var r := DayVisitors(vs, d);
      && |r| == Min(Count(vs, EnteredOn(d)), MaxList)
      && multiset(r) <= multiset(vs)
      && (exists j :: 0 <= j <= |vs| && r == Filter(vs[..j], EnteredOn(d)))
      && (forall i :: 0 <= i < |r| ==> r[i] in vs && d <= r[i].entryTime)
      && (Count(vs, EnteredOn(d)) <= MaxList ==> forall k :: 0 <= k < |vs| && d <= vs[k].entryTime ==> vs[k] in r)
  {
    CappedFilterSpec(vs, EnteredOn(d));
  }

  /** The day's trips are trips whose creation time starts with the date; all of them up to 1000. */
  lemma DayTripsSpec(ts: seq<FleetTrip>, d: string)
    ensures var r := DayTrips(ts, d);
      && |r| == Min(Count(ts, StartedOn(d)), MaxList)
      && multiset(r) <= multiset(ts)
      && (exists j :: 0 <= j <= |ts| && r == Filter(ts[..j], StartedOn(d)))
      && (forall i :: 0 <= i < |r| ==> r[i] in ts && d <= r[i].createdAt)
      && (Count(ts, StartedOn(d)) <= MaxList ==> forall k :: 0 <= k < |ts| && d <= ts[k].createdAt ==> ts[k] in r)
  {
    CappedFilterSpec(ts, StartedOn(d));
  }

  /** The day's schedules are schedules dated exactly that day, pending or not; all of them up to 1000. */
  lemma DaySchedulesSpec(ss: seq<Schedule>, d: string)
    ensures var r := DaySchedules(ss, d);
      && |r| == Min(Count(ss, ScheduledOn(d)), MaxList)
      && multiset(r) <= multiset(ss)
      && (exists j :: 0 <= j <= |ss| && r == Filter(ss[..j], ScheduledOn(d)))
      && (forall i :: 0 <= i < |r| ==> r[i] in ss && r[i].visitDate == d)
      && (Count(ss, ScheduledOn(d)) <= MaxList ==> forall k :: 0 <= k < |ss| && ss[k].visitDate == d ==> ss[k] in r)
  {
    CappedFilterSpec(ss, ScheduledOn(d));
  }

  /**
   * The report for a date (today when none is given) lists that day's visitors (entry time
   * starts with the date), trips (creation time starts with it) and schedules (visit date
   * equal to it), each complete when no more than 1000 match, and the day's saved
   * observation and porter, both "" when nothing was saved.
   */
  lemma BuildReportSpec(vs: seq<Visitor>, ts: seq<FleetTrip>, ss: seq<Schedule>,
                        obs: map<string, Observation>, date: string, today: string)
    ensures var r := BuildReport(vs, ts, ss, obs, date, today);
      && r.date == (if date == "" then today else date)
      && |r.visitors| == Min(Count(vs, EnteredOn(r.date)), MaxList)
      && |r.fleet| == Min(Count(ts, StartedOn(r.date)), MaxList)
      && |r.schedules| == Min(Count(ss, ScheduledOn(r.date)), MaxList)
      && multiset(r.visitors) <= multiset(vs)
      && multiset(r.fleet) <= multiset(ts)
      && multiset(r.schedules) <= multiset(ss)
      && (exists j :: 0 <= j <= |vs| && r.visitors == Filter(vs[..j], EnteredOn(r.date)))
      && (exists j :: 0 <= j <= |ts| && r.fleet == Filter(ts[..j], StartedOn(r.date)))
      && (exists j :: 0 <= j <= |ss| && r.schedules == Filter(ss[..j], ScheduledOn(r.date)))
      && (forall i :: 0 <= i < |r.visitors| ==> r.visitors[i] in vs && r.date <= r.visitors[i].entryTime)
      && (forall i :: 0 <= i < |r.fleet| ==> r.fleet[i] in ts && r.date <= r.fleet[i].createdAt)
      && (forall i :: 0 <= i < |r.schedules| ==> r.schedules[i] in ss && r.schedules[i].visitDate == r.date)
      && (Count(vs, EnteredOn(r.date)) <= MaxList ==>
            forall k :: 0 <= k < |vs| && r.date <= vs[k].entryTime ==> vs[k] in r.visitors)
      && (Count(ts, StartedOn(r.date)) <= MaxList ==>
            forall k :: 0 <= k < |ts| && r.date <= ts[k].createdAt ==> ts[k] in r.fleet)
      && (Count(ss, ScheduledOn(r.date)) <= MaxList ==>
            forall k :: 0 <= k < |ss| && ss[k].visitDate == r.date ==> ss[k] in r.schedules)
      && (r.date in obs ==> r.observation == obs[r.date].observation && r.porterName == obs[r.date].porterName)
      && (r.date !in obs ==> r.observation == "" && r.porterName == "")
  {
    var d := EffectiveDate(date, today);
    DayVisitorsSpec(vs, d);
    DayTripsSpec(ts, d);
    DaySchedulesSpec(ss, d);
  }

  /** A day with no records and no saved observation gives an empty report, not an error. */
  lemma {:induction false} EmptyDayReport(vs: seq<Visitor>, ts: seq<FleetTrip>, ss: seq<Schedule>,
                                          obs: map<string, Observation>, date: string, today: string)
    requires var d := EffectiveDate(date, today);
      && (forall k :: 0 <= k < |vs| ==> !(d <= vs[k].entryTime))
      && (forall k :: 0 <= k < |ts| ==> !(d <= ts[k].createdAt))
      && (forall k :: 0 <= k < |ss| ==> ss[k].visitDate != d)
      && d !in obs
    ensures BuildReport(vs, ts, ss, obs, date, today) == DailyReport(EffectiveDate(date, today), [], [], [], "", "")
  {
    var d := EffectiveDate(date, today);
    FilterNone(vs, EnteredOn(d));
    FilterNone(ts, StartedOn(d));
    FilterNone(ss, ScheduledOn(d));
  }

  /**
   * After the observation of a date is saved, the report for that date carries exactly
   * the saved pair, and the report for every other date is what it was.
   */
  lemma ReportAfterSave(vs: seq<Visitor>, ts: seq<FleetTrip>, ss: seq<Schedule>,
                        obs: map<string, Observation>, saved: string, today: string,
                        observation: string, porterName: string, now: string, date: string)
    ensures var obs' := obs[EffectiveDate(saved, today) := Observation(observation, porterName, now)];
      var before, after := BuildReport(vs, ts, ss, obs, date, today), BuildReport(vs, ts, ss, obs', date, today);
      if EffectiveDate(date, today) == EffectiveDate(saved, today) then
        after == before.(observation := observation, porterName := porterName)
      else
        after == before
  {
  }
}
