/**
  Entities and error values shared by the stores, the admission pipeline and
  the listing ranking. Timestamps are integer milliseconds since the epoch,
  rates and prices are whole currency units, coordinates are integers.
 */
module Domain {

  datatype Option<+T> = None | Some(value: T)

  datatype Result<+R, +E> = Success(value: R) | Failure(error: E)

  /** The outcome of a check that either passes or throws. */
  datatype Outcome<+E> = Pass | Fail(error: E)

  /**
    The exceptions the core throws. `NotFound` and `Validation` are the
    application exceptions (404 and 400); `Unexpected` is any other `Error`,
    which the HTTP layer turns into a 500.
   */
  datatype AppError =
    | NotFound(resource: string, id: string)
    | Validation(message: string)
    | Unexpected(message: string)

  /** The HTTP status the error handler answers with. */
  function Status(e: AppError): (code: nat)
    ensures code == 404 <==> e.NotFound?
    ensures code == 400 <==> e.Validation?
    ensures code == 500 <==> e.Unexpected?
  {
    match e
    case NotFound(_, _) => 404
    case Validation(_) => 400
    case Unexpected(_) => 500
  }

  /** A stored record: the key it is stored under and the rest of its fields. */
  datatype Entity<+T> = Entity(id: string, data: T)

  datatype Location = Location(lat: int, lng: int)

  datatype UserRole = HostRole | GuestRole

  datatype UserData = UserData(name: string, email: string, role: UserRole)

  datatype CavanStatus = Available | Reserved | Maintenance

  /** A listing ("cavan"); `likedBy` holds the ids of the users who liked it. */
  datatype CavanData = CavanData(
    name: string,
    hostId: string,
    capacity: nat,
    amenities: seq<string>,
    photos: seq<string>,
    location: Location,
    status: CavanStatus,
    dailyRate: nat,
    likedBy: seq<string>)

  datatype ReservationStatus = Pending | Confirmed | Cancelled | Completed

  /** A booking of listing `caravanId` for the half-open interval [startDate, endDate). */
  datatype ReservationData = ReservationData(
    guestId: string,
    caravanId: string,
    startDate: int,
    endDate: int,
    status: ReservationStatus,
    totalPrice: int,
    createdAt: int)

  type User = Entity<UserData>
  type Cavan = Entity<CavanData>
  type Reservation = Entity<ReservationData>
}
