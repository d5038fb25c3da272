/**
 * What each state-changing endpoint does to the queries: how registration, checkout,
 * completion, deletion and return move the dashboard counters, and why a second
 * checkout or return is refused while a second completion is harmless.
 */
module Lifecycle {
  import opened Wrappers
  import opened Records
  import opened Seqs
  import opened Queries

  // ─── Visitors ───────────────────────────────────────────────────────

  /** Registering an open visitor adds one active visitor, and one for today iff it entered today. */
  lemma RegisterVisitorCounts(vs: seq<Visitor>, v: Visitor, today: string)
    requires v.exitTime.None?
    ensures Count(vs + [v], IsOpen) == Count(vs, IsOpen) + 1
    ensures Count(vs + [v], EnteredOn(today)) == Count(vs, EnteredOn(today)) + Indicator(today <= v.entryTime)
  {
    CountAppend(vs, v, IsOpen);
    CountAppend(vs, v, EnteredOn(today));
  }

  /**
   * Checking out an open visitor removes exactly one active visitor and leaves every
   * date count (so every day's report size) as it was.
   */
  lemma CheckoutCounts(vs: seq<Visitor>, k: nat, exitTime: string, date: string)
    requires k < |vs| && vs[k].exitTime.None?
    ensures Count(vs[k := CloseVisit(vs[k], exitTime)], IsOpen) + 1 == Count(vs, IsOpen)
    ensures Count(vs[k := CloseVisit(vs[k], exitTime)], EnteredOn(date)) == Count(vs, EnteredOn(date))
  {
    CountUpdate(vs, k, CloseVisit(vs[k], exitTime), IsOpen);
    CountUpdate(vs, k, CloseVisit(vs[k], exitTime), EnteredOn(date));
  }

  /**
   * After checkout the closed visit no longer shows in the active listing, and it still
   * shows, with its exit time, in the listing of its entry date when that listing fits.
   */
  lemma CheckoutListings(vs: seq<Visitor>, k: nat, exitTime: string, date: string)
    requires k < |vs| && vs[k].exitTime.None?
    requires date == "" || date <= vs[k].entryTime
    ensures var vs' := vs[k := CloseVisit(vs[k], exitTime)];
      && CloseVisit(vs[k], exitTime) !in ListVisitors(vs', "", true)
      && (Count(vs', VisitorQuery(date, false)) <= MaxList ==>
            CloseVisit(vs[k], exitTime) in ListVisitors(vs', date, false))
  {
    var vs' := vs[k := CloseVisit(vs[k], exitTime)];
    ListVisitorsSpec(vs', "", true);
    ListVisitorsSpec(vs', date, false);
    assert vs'[k] == CloseVisit(vs[k], exitTime);
  }

  /**
   * A second checkout with the same id is refused exactly when no other open visitor
   * carries that id; in particular, with unique ids it is always refused.
   */
  lemma {:induction false} SecondCheckoutRefused(vs: seq<Visitor>, id: string, exitTime: string)
    requires FindOpenVisitor(vs, id).Some?
    ensures var k := FindOpenVisitor(vs, id).value;
      FindOpenVisitor(vs[k := CloseVisit(vs[k], exitTime)], id).None? <==>
        forall j :: 0 <= j < |vs| && j != k && vs[j].id == id ==> vs[j].exitTime.Some?
  {
    var k := FindOpenVisitor(vs, id).value;
    var vs' := vs[k := CloseVisit(vs[k], exitTime)];
    assert !OpenWithId(id)(vs'[k]);
    forall j | 0 <= j < |vs| && j != k ensures OpenWithId(id)(vs'[j]) == (vs[j].id == id && vs[j].exitTime.None?) {
      assert vs'[j] == vs[j];
    }
  }

  // ─── Schedules ──────────────────────────────────────────────────────

  /**
   * Completing a schedule finds the same schedule again, and completing it once more
   * leaves the collection unchanged: completion is idempotent.
   */
  lemma CompleteIdempotent(ss: seq<Schedule>, id: string)
    requires FindSchedule(ss, id).Some?
    ensures var k := FindSchedule(ss, id).value;
      var ss' := ss[k := MarkCompleted(ss[k])];
      && FindSchedule(ss', id) == Some(k)
      && ss'[k := MarkCompleted(ss'[k])] == ss'
  {
    var k := FindSchedule(ss, id).value;
    var ss' := ss[k := MarkCompleted(ss[k])];
    assert ScheduleWithId(id)(ss'[k]);
    forall j | 0 <= j < k ensures !ScheduleWithId(id)(ss'[j]) {
      assert ss'[j] == ss[j];
    }
  }

  /**
   * Completing a schedule lowers today's pending count by one exactly when that schedule
   * was pending for today, and never raises it.
   */
  lemma CompleteTodayCount(ss: seq<Schedule>, k: nat, today: string)
    requires k < |ss|
    ensures Count(ss[k := MarkCompleted(ss[k])], DueOn(today)) + Indicator(IsDueOn(ss[k], today))
            == Count(ss, DueOn(today))
  {
    CountUpdate(ss, k, MarkCompleted(ss[k]), DueOn(today));
  }

  /** A new pending schedule adds one to today's count exactly when it is dated today. */
  lemma CreateScheduleTodayCount(ss: seq<Schedule>, s: Schedule, today: string)
    requires s.status == Pending
    ensures Count(ss + [s], DueOn(today)) == Count(ss, DueOn(today)) + Indicator(s.visitDate == today)
  {
    CountAppend(ss, s, DueOn(today));
  }

  /** Deleting a schedule lowers today's count by what that schedule contributed. */
  lemma DeleteTodayCount(ss: seq<Schedule>, k: nat, today: string)
    requires k < |ss|
    ensures Count(RemoveAt(ss, k), DueOn(today)) + Indicator(IsDueOn(ss[k], today)) == Count(ss, DueOn(today))
  {
    CountRemove(ss, k, DueOn(today));
  }

  // ─── Fleet ──────────────────────────────────────────────────────────

  /** Registering a trip adds one active trip, and one for today iff it was created today. */
  lemma RegisterTripCounts(ts: seq<FleetTrip>, t: FleetTrip, today: string)
    requires t.status == EmViagem
    ensures Count(ts + [t], IsTraveling) == Count(ts, IsTraveling) + 1
    ensures Count(ts + [t], StartedOn(today)) == Count(ts, StartedOn(today)) + Indicator(today <= t.createdAt)
  {
    CountAppend(ts, t, IsTraveling);
    CountAppend(ts, t, StartedOn(today));
  }

  /**
   * Returning a travelling trip closes it consistently, with the distance exactly
   * arrival minus departure (negative when the odometer reads less), removes one active
   * trip and leaves the date counts as they were.
   */
  lemma ReturnCounts(ts: seq<FleetTrip>, k: nat, arrivalKm: real, date: string)
    requires k < |ts| && ts[k].status == EmViagem
    ensures var t := Returned(ts[k], arrivalKm);
      && TripConsistent(t)
      && t.distance == Some(arrivalKm - ts[k].departureKm)
      && Count(ts[k := t], IsTraveling) + 1 == Count(ts, IsTraveling)
      && Count(ts[k := t], StartedOn(date)) == Count(ts, StartedOn(date))
  {
    CountUpdate(ts, k, Returned(ts[k], arrivalKm), IsTraveling);
    CountUpdate(ts, k, Returned(ts[k], arrivalKm), StartedOn(date));
  }

  /** After a return, the same id finds the same trip, now returned: a second return is a 400. */
  lemma SecondReturnRefused(ts: seq<FleetTrip>, id: string, arrivalKm: real)
    requires FindTrip(ts, id).Some?
    ensures var k := FindTrip(ts, id).value;
      var ts' := ts[k := Returned(ts[k], arrivalKm)];
      FindTrip(ts', id) == Some(k) && ts'[k].status != EmViagem
  {
    var k := FindTrip(ts, id).value;
    var ts' := ts[k := Returned(ts[k], arrivalKm)];
    assert TripWithId(id)(ts'[k]);
    forall j | 0 <= j < k ensures !TripWithId(id)(ts'[j]) {
      assert ts'[j] == ts[j];
    }
  }
}
