/**
 * The record store and its state-changing endpoints. The five collections are fields a
 * method reassigns; each method states its whole new state in terms of the old one,
 * which error it raises and when, and that the collections it does not touch are
 * unchanged. Fresh ids (uuid4), the clock and password hashes are parameters.
 */
module Store {
  import opened Wrappers
  import opened Records
  import opened Seqs
  import opened Queries
  import opened Users
  import Lifecycle

  class Gatehouse {
    var visitors: seq<Visitor>
    var schedules: seq<Schedule>
    var trips: seq<FleetTrip>
    var observations: map<string, Observation>
    var users: seq<User>

    /** Every stored trip's status agrees with its kilometre fields. */
    ghost predicate Valid()
      reads this
    {
      forall i :: 0 <= i < |trips| ==> TripConsistent(trips[i])
    }

    constructor ()
      ensures Valid()
      ensures visitors == [] && schedules == [] && trips == [] && observations == map[] && users == []
    {
      visitors, schedules, trips, observations, users := [], [], [], map[], [];
    }

    /** Startup: inserts the default `admin` account unless a user named `admin` exists. */
    method SeedAdmin(id: string, passwordHash: string, now: string)
      modifies this`users
      ensures FindUsername(old(users), "admin").Some? ==> users == old(users)
      ensures FindUsername(old(users), "admin").None? ==>
        users == old(users) + [User(id, "admin", passwordHash, "Administrador", "admin", now)]
    {
      if FindUsername(users, "admin").None? {
        users := users + [User(id, "admin", passwordHash, "Administrador", "admin", now)];
      }
    }

    // ─── Visitors ─────────────────────────────────────────────────────

    /**
     * Registers an entry. The new visitor is open; its entry time is the one supplied
     * when non-empty, else now; omitted plate, company and observation become "".
     */
    method CreateVisitor(req: VisitorCreate, id: string, now: string) returns (v: Visitor)
      modifies this`visitors
      ensures v.id == id && v.name == req.name && v.document == req.document
      ensures v.entryTime == (if Truthy(req.entryTime) then req.entryTime.value else now)
      ensures v.exitTime == None
      ensures v.vehiclePlate == OrEmpty(req.vehiclePlate) && v.company == OrEmpty(req.company)
      ensures v.observation == OrEmpty(req.observation) && v.createdAt == now
      ensures visitors == old(visitors) + [v]
    {
      var entry := if Truthy(req.entryTime) then req.entryTime.value else now;
      v := Visitor(id, req.name, req.document, entry, None, OrEmpty(req.vehiclePlate),
                   OrEmpty(req.company), OrEmpty(req.observation), now);
      visitors := visitors + [v];
    }

    /**
     * Checkout: sets `exitTime` of the first visitor with this id that is still open and
     * changes nothing else; 404 when there is none (unknown id or already checked out).
     */
    method CheckoutVisitor(visitorId: string, now: string) returns (r: Result<string>)
      modifies this`visitors
      ensures FindOpenVisitor(old(visitors), visitorId).None? ==>
        r == Err(NotFound) && visitors == old(visitors)
      ensures FindOpenVisitor(old(visitors), visitorId).Some? ==>
        var k := FindOpenVisitor(old(visitors), visitorId).value;
        r == Ok(now) && visitors == old(visitors)[k := CloseVisit(old(visitors)[k], now)]
    {
      var found := FindOpenVisitor(visitors, visitorId);
      if found.None? {
        return Err(NotFound);
      }
      var k := found.value;
      visitors := visitors[k := CloseVisit(visitors[k], now)];
      r := Ok(now);
    }

    // ─── Schedules ────────────────────────────────────────────────────

    /** Creates a pending schedule; omitted company and notes become "". */
    method CreateSchedule(req: ScheduleCreate, id: string, now: string) returns (s: Schedule)
      modifies this`schedules
      ensures s == Schedule(id, req.visitorName, OrEmpty(req.company), req.visitDate, req.visitTime,
                            OrEmpty(req.notes), Pending, now)
      ensures schedules == old(schedules) + [s]
    {
      s := Schedule(id, req.visitorName, OrEmpty(req.company), req.visitDate, req.visitTime,
                    OrEmpty(req.notes), Pending, now);
      schedules := schedules + [s];
    }

    /** Sets the first schedule with this id to completed, whatever its status; 404 if none. */
    method CompleteSchedule(scheduleId: string) returns (r: Outcome)
      modifies this`schedules
      ensures FindSchedule(old(schedules), scheduleId).None? ==>
        r == Failed(NotFound) && schedules == old(schedules)
      ensures FindSchedule(old(schedules), scheduleId).Some? ==>
        var k := FindSchedule(old(schedules), scheduleId).value;
        r == Done && schedules == old(schedules)[k := MarkCompleted(old(schedules)[k])]
    {
      var found := FindSchedule(schedules, scheduleId);
      if found.None? {
        return Failed(NotFound);
      }
      schedules := schedules[found.value := MarkCompleted(schedules[found.value])];
      r := Done;
    }

    /** Removes the first schedule with this id, whatever its status; 404 if none. */
    method DeleteSchedule(scheduleId: string) returns (r: Outcome)
      modifies this`schedules
      ensures FindSchedule(old(schedules), scheduleId).None? ==>
        r == Failed(NotFound) && schedules == old(schedules)
      ensures FindSchedule(old(schedules), scheduleId).Some? ==>
        r == Done && schedules == RemoveAt(old(schedules), FindSchedule(old(schedules), scheduleId).value)
    {
      var found := FindSchedule(schedules, scheduleId);
      if found.None? {
        return Failed(NotFound);
      }
      schedules := RemoveAt(schedules, found.value);
      r := Done;
    }

    // ─── Fleet ────────────────────────────────────────────────────────

    /** Registers a departure: a travelling trip with no arrival and no distance. */
    method CreateFleetTrip(req: FleetTripCreate, id: string, now: string) returns (t: FleetTrip)
      requires Valid()
      modifies this`trips
      ensures Valid()
      ensures t == FleetTrip(id, req.driverName, req.vehicle, req.departureKm, None, None, EmViagem, now)
      ensures trips == old(trips) + [t]
    {
      t := FleetTrip(id, req.driverName, req.vehicle, req.departureKm, None, None, EmViagem, now);
      trips := trips + [t];
    }

    /**
     * Registers a return on the first trip with this id: 404 if there is none, 400 if it
     * is not travelling, else arrival, distance (arrival minus departure, unrounded) and
     * status `retornado` are set and the distance is returned.
     */
    method ReturnFleetTrip(tripId: string, arrivalKm: real) returns (r: Result<real>)
      requires Valid()
      modifies this`trips
      ensures Valid()
      ensures FindTrip(old(trips), tripId).None? ==> r == Err(NotFound) && trips == old(trips)
      ensures FindTrip(old(trips), tripId).Some? ==>
        var k := FindTrip(old(trips), tripId).value;
        if old(trips)[k].status != EmViagem then
          r == Err(BadRequest) && trips == old(trips)
        else
          r == Ok(arrivalKm - old(trips)[k].departureKm) &&
          trips == old(trips)[k := Returned(old(trips)[k], arrivalKm)]
    {
      var found := FindTrip(trips, tripId);
      if found.None? {
        return Err(NotFound);
      }
      var k := found.value;
      if trips[k].status != EmViagem {
        return Err(BadRequest);
      }
      var distance := arrivalKm - trips[k].departureKm;
      trips := trips[k := Returned(trips[k], arrivalKm)];
      r := Ok(distance);
    }

    // ─── Reports ──────────────────────────────────────────────────────

    /** Upserts the observation of a date (today when none is given); other dates keep theirs. */
    method SaveReportObservation(date: string, today: string, observation: string, porterName: string, now: string)
      modifies this`observations
      ensures observations == old(observations)[EffectiveDate(date, today) := Observation(observation, porterName, now)]
    {
      observations := observations[EffectiveDate(date, today) := Observation(observation, porterName, now)];
    }

    // ─── Users ────────────────────────────────────────────────────────

    /**
     * Creates a user: 403 for a non-admin caller, 400 when the username is taken, else a
     * new user whose role defaults to `porteiro`.
     */
    method CreateUser(caller: Caller, req: UserCreate, passwordHash: string, id: string, now: string)
      returns (r: Result<UserInfo>)
      modifies this`users
      ensures !IsAdmin(caller) ==> r == Err(Forbidden) && users == old(users)
      ensures IsAdmin(caller) && FindUsername(old(users), req.username).Some? ==>
        r == Err(BadRequest) && users == old(users)
      ensures IsAdmin(caller) && FindUsername(old(users), req.username).None? ==>
        var role := req.role.GetOr("porteiro");
        && r == Ok(UserInfo(id, req.username, req.name, role))
        && users == old(users) + [User(id, req.username, passwordHash, req.name, role, now)]
    {
      if !IsAdmin(caller) {
        return Err(Forbidden);
      }
      if FindUsername(users, req.username).Some? {
        return Err(BadRequest);
      }
      var role := req.role.GetOr("porteiro");
      users := users + [User(id, req.username, passwordHash, req.name, role, now)];
      r := Ok(UserInfo(id, req.username, req.name, role));
    }

    /**
     * Updates a user: 403 for a non-admin caller, 400 when no field is given, 404 for an
     * unknown id, else the given fields of the first user with this id are set.
     */
    method UpdateUser(caller: Caller, userId: string, req: UserUpdate, passwordHash: string)
      returns (r: Outcome)
      modifies this`users
      ensures !IsAdmin(caller) ==> r == Failed(Forbidden) && users == old(users)
      ensures IsAdmin(caller) && !HasUpdate(req) ==> r == Failed(BadRequest) && users == old(users)
      ensures IsAdmin(caller) && HasUpdate(req) && FindUser(old(users), userId).None? ==>
        r == Failed(NotFound) && users == old(users)
      ensures IsAdmin(caller) && HasUpdate(req) && FindUser(old(users), userId).Some? ==>
        var k := FindUser(old(users), userId).value;
        r == Done && users == old(users)[k := ApplyUpdate(old(users)[k], req, passwordHash)]
    {
      if !IsAdmin(caller) {
        return Failed(Forbidden);
      }
      if !HasUpdate(req) {
        return Failed(BadRequest);
      }
      var found := FindUser(users, userId);
      if found.None? {
        return Failed(NotFound);
      }
      users := users[found.value := ApplyUpdate(users[found.value], req, passwordHash)];
      r := Done;
    }

    /**
     * Deletes a user: 403 for a non-admin caller, 400 when it is the caller, 404 for an
     * unknown id, else the first user with this id is removed.
     */
    method DeleteUser(caller: Caller, userId: string) returns (r: Outcome)
      modifies this`users
      ensures !IsAdmin(caller) ==> r == Failed(Forbidden) && users == old(users)
      ensures IsAdmin(caller) && caller.userId == userId ==> r == Failed(BadRequest) && users == old(users)
      ensures IsAdmin(caller) && caller.userId != userId && FindUser(old(users), userId).None? ==>
        r == Failed(NotFound) && users == old(users)
      ensures IsAdmin(caller) && caller.userId != userId && FindUser(old(users), userId).Some? ==>
        r == Done && users == RemoveAt(old(users), FindUser(old(users), userId).value)
    {
      if !IsAdmin(caller) {
        return Failed(Forbidden);
      }
      if caller.userId == userId {
        return Failed(BadRequest);
      }
      var found := FindUser(users, userId);
      if found.None? {
        return Failed(NotFound);
      }
      users := RemoveAt(users, found.value);
      r := Done;
    }
  }

  /**
   * Example of a visit on a fresh store: a registered visitor is active; after checkout
   * it is no longer active, and the listing of its entry day still shows it with its
   * exit time. It corresponds to no endpoint; it strings the endpoints' contracts together.
   */
  method VisitorScenario(today: string)
  {
    var g := new Gatehouse();
    var v := g.CreateVisitor(VisitorCreate("Ana", "123", Some(today + "T09:00"), None, None, None), "v1", today + "T09:00");
    assert g.visitors == [v];
    ListVisitorsSpec(g.visitors, "", true);
    assert v in ListVisitors(g.visitors, "", true);
    var r := g.CheckoutVisitor("v1", today + "T17:00");
    assert r == Ok(today + "T17:00");
    assert g.visitors == [CloseVisit(v, today + "T17:00")];
    Lifecycle.CheckoutListings([v], 0, today + "T17:00", today);
    assert CloseVisit(v, today + "T17:00") in ListVisitors(g.visitors, today, false);
    assert |ListVisitors(g.visitors, "", true)| == 0;
  }

  /**
   * Example of a trip on a fresh store: a departure at 1000 km returned at 1050.5 km has
   * distance 50.5 and is returned; a second return is refused with 400. It corresponds to
   * no endpoint.
   */
  method TripScenario(now: string)
  {
    var g := new Gatehouse();
    var t := g.CreateFleetTrip(FleetTripCreate("Joao", "Truck-1", 1000.0), "t1", now);
    var r := g.ReturnFleetTrip("t1", 1050.5);
    assert r == Ok(50.5);
    assert g.trips[0].status == Retornado && g.trips[0].distance == Some(50.5);
    var again := g.ReturnFleetTrip("t1", 1060.0);
    assert again == Err(BadRequest);
  }

  /**
   * Example of a schedule on a fresh store: a pending schedule for today is counted on
   * the dashboard; once completed it is not, and completing it again still succeeds. It
   * corresponds to no endpoint.
   */
  method ScheduleScenario(today: string, now: string)
  {
    var g := new Gatehouse();
    var s := g.CreateSchedule(ScheduleCreate("Ana", None, today, "10:00", None), "s1", now);
    Lifecycle.CreateScheduleTodayCount([], s, today);
    assert Dashboard(g.visitors, g.schedules, g.trips, today).todaySchedules == 1;
    var r := g.CompleteSchedule("s1");
    assert r == Done;
    Lifecycle.CompleteTodayCount([s], 0, today);
    assert Dashboard(g.visitors, g.schedules, g.trips, today).todaySchedules == 0;
    var again := g.CompleteSchedule("s1");
    assert again == Done;
  }
}
