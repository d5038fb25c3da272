/**
 * The documents the gatehouse backend keeps in its collections, the request bodies of its
 * endpoints, and the HTTP errors those endpoints raise.
 */
module Records {
  import opened Wrappers

  /** The HTTP errors the core raises (authentication's 401 is not part of this model). */
  datatype ApiError = NotFound | BadRequest | Forbidden {
    function Code(): nat {
      match this
      case NotFound => 404
      case BadRequest => 400
      case Forbidden => 403
    }
  }

  /** What an endpoint returns: a value, or the HTTP error it raised. */
  datatype Result<+T> = Ok(value: T) | Err(error: ApiError)

  /** What an endpoint that only acknowledges returns. */
  datatype Outcome = Done | Failed(error: ApiError)

  /** Python's `x or ""` on an optional string field. */
  function OrEmpty(o: Option<string>): string {
    o.GetOr("")
  }

  /** Python's truthiness of an optional string: present and non-empty. */
  predicate Truthy(o: Option<string>) {
    o.Some? && o.value != ""
  }

  // ─── Visitors ───────────────────────────────────────────────────────

  /** A visitor document; `exitTime == None` means the visit is still open. */
  datatype Visitor = Visitor(
    id: string,
    name: string,
    document: string,
    entryTime: string,
    exitTime: Option<string>,
    vehiclePlate: string,
    company: string,
    observation: string,
    createdAt: string)

  /** The body of a visitor registration. */
  datatype VisitorCreate = VisitorCreate(
    name: string,
    document: string,
    entryTime: Option<string>,
    vehiclePlate: Option<string>,
    company: Option<string>,
    observation: Option<string>)

  /** Checkout: the only change ever made to a visitor. */
  function CloseVisit(v: Visitor, exitTime: string): Visitor {
    v.(exitTime := Some(exitTime))
  }

  // ─── Schedules ──────────────────────────────────────────────────────

  datatype ScheduleStatus = Pending | Completed

  datatype Schedule = Schedule(
    id: string,
    visitorName: string,
    company: string,
    visitDate: string,
    visitTime: string,
    notes: string,
    status: ScheduleStatus,
    createdAt: string)

  /** The body of a schedule creation. */
  datatype ScheduleCreate = ScheduleCreate(
    visitorName: string,
    company: Option<string>,
    visitDate: string,
    visitTime: string,
    notes: Option<string>)

  /** Completion: `$set status = completed`, whatever the status was. */
  function MarkCompleted(s: Schedule): Schedule {
    s.(status := Completed)
  }

  // ─── Fleet trips ────────────────────────────────────────────────────

  /** The stored status strings `em_viagem` and `retornado`. */
  datatype TripStatus = EmViagem | Retornado

  /** A fleet trip; kilometres are the source's floats, modelled as reals. */
  datatype FleetTrip = FleetTrip(
    id: string,
    driverName: string,
    vehicle: string,
    departureKm: real,
    arrivalKm: Option<real>,
    distance: Option<real>,
    status: TripStatus,
    createdAt: string)

  /** The body of a departure registration. */
  datatype FleetTripCreate = FleetTripCreate(driverName: string, vehicle: string, departureKm: real)

  /** Return registration: arrival, the unrounded difference, and the closed status. */
  function Returned(t: FleetTrip, arrivalKm: real): FleetTrip {
    t.(arrivalKm := Some(arrivalKm), distance := Some(arrivalKm - t.departureKm), status := Retornado)
  }

  /**
   * The relation every stored trip keeps between its status and its kilometre fields:
   * an open trip has neither arrival nor distance, a returned one has both, and its
   * distance is exactly arrival minus departure.
   */
  predicate TripConsistent(t: FleetTrip) {
    match t.status
    case EmViagem => t.arrivalKm.None? && t.distance.None?
    case Retornado => t.arrivalKm.Some? && t.distance == Some(t.arrivalKm.value - t.departureKm)
  }

  // ─── Daily observations ─────────────────────────────────────────────

  /** The document stored per date by the observation upsert. */
  datatype Observation = Observation(observation: string, porterName: string, updatedAt: string)

  // ─── Users ──────────────────────────────────────────────────────────

  /** A user document; `passwordHash` is the bcrypt hash, treated as an opaque string. */
  datatype User = User(
    id: string,
    username: string,
    passwordHash: string,
    name: string,
    role: string,
    createdAt: string)

  /** What the user listing exposes of a user: everything but the password. */
  datatype UserListing = UserListing(id: string, username: string, name: string, role: string, createdAt: string)

  /** What user creation returns. */
  datatype UserInfo = UserInfo(id: string, username: string, name: string, role: string)

  /** The body of a user creation; an omitted role defaults to `porteiro`. */
  datatype UserCreate = UserCreate(username: string, name: string, role: Option<string>)

  /** The body of a user update; every field is optional. */
  datatype UserUpdate = UserUpdate(
    username: Option<string>,
    password: Option<string>,
    name: Option<string>,
    role: Option<string>)

  /** The identity the authentication layer resolved from the caller's token. */
  datatype Caller = Caller(userId: string, role: string)
}
