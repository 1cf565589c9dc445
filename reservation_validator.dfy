/**
  Admission checks for a reservation request, run in a fixed order: the
  guest and the listing exist, the interval is well formed and not in the
  past, and no stored reservation conflicts. The first failure wins. The
  current time is a parameter.
 */
module ReservationValidator {
  import opened Domain
  import opened Repository
  import opened ReservationRepository

  /** What a client asks to book: a guest, a listing and an interval. */
  datatype ReservationRequest = ReservationRequest(guestId: string, caravanId: string, startDate: int, endDate: int)

  const StartNotBeforeEnd := "Start date must be before end date."
  const StartInPast := "Start date cannot be in the past."
  const AlreadyReserved := "The caravan is already reserved for the selected dates."

  /** The guest is looked up first, then the listing. */
  function ValidateEntities(users: map<string, User>, caravans: map<string, Cavan>, guestId: string, caravanId: string)
    : Outcome<AppError>
  {
    if guestId !in users then Fail(NotFound("User", guestId))
    else if caravanId !in caravans then Fail(NotFound("Caravan", caravanId))
    else Pass
  }

  /** Ordering first, then the past; no bound on the length of a stay. */
  function ValidateDates(startDate: int, endDate: int, now: int): Outcome<AppError> {
    if startDate >= endDate then Fail(Validation(StartNotBeforeEnd))
    else if startDate < now then Fail(Validation(StartInPast))
    else Pass
  }

  function ValidateNoConflicts(conflicts: seq<Reservation>): Outcome<AppError> {
    if |conflicts| > 0 then Fail(Validation(AlreadyReserved)) else Pass
  }

  /** The verdict of `validate` against the given stores at time `now`. */
  function ValidationOutcome(users: map<string, User>, caravans: map<string, Cavan>, reservations: seq<Reservation>,
                             request: ReservationRequest, now: int): Outcome<AppError>
  {
    var entities := ValidateEntities(users, caravans, request.guestId, request.caravanId);
    if entities.Fail? then entities
    else
      var dates := ValidateDates(request.startDate, request.endDate, now);
      if dates.Fail? then dates
      else ValidateNoConflicts(Conflicts(reservations, request.caravanId, request.startDate, request.endDate))
  }

  /** No stored reservation of listing `caravanId` overlaps [startDate, endDate). */
  ghost predicate Free(reservations: seq<Reservation>, caravanId: string, startDate: int, endDate: int) {
    forall r :: r in reservations && r.data.caravanId == caravanId ==> !Overlaps(r.data, startDate, endDate)
  }

  /** Validation passes exactly when all three checks pass. */
  lemma ValidationPassesIff(users: map<string, User>, caravans: map<string, Cavan>, reservations: seq<Reservation>,
                            request: ReservationRequest, now: int)
    ensures ValidationOutcome(users, caravans, reservations, request, now) == Pass <==>
      && request.guestId in users
      && request.caravanId in caravans
      && request.startDate < request.endDate
      && now <= request.startDate
      && Free(reservations, request.caravanId, request.startDate, request.endDate)
  {
    var cs := Conflicts(reservations, request.caravanId, request.startDate, request.endDate);
    ConflictsMembership(reservations, request.caravanId, request.startDate, request.endDate);
    if |cs| > 0 {
      assert cs[0] in cs;
    }
  }

  /** Which error each failing request gets: entities before dates before conflicts. */
  lemma ValidationErrors(users: map<string, User>, caravans: map<string, Cavan>, reservations: seq<Reservation>,
                         request: ReservationRequest, now: int)
    ensures var v := ValidationOutcome(users, caravans, reservations, request, now);
      && (request.guestId !in users ==> v == Fail(NotFound("User", request.guestId)))
      && (request.guestId in users && request.caravanId !in caravans ==>
            v == Fail(NotFound("Caravan", request.caravanId)))
      && (request.guestId in users && request.caravanId in caravans && request.startDate >= request.endDate ==>
            v == Fail(Validation(StartNotBeforeEnd)))
      && (request.guestId in users && request.caravanId in caravans && request.startDate < request.endDate &&
          request.startDate < now ==>
            v == Fail(Validation(StartInPast)))
      && (request.guestId in users && request.caravanId in caravans && request.startDate < request.endDate &&
          now <= request.startDate && !Free(reservations, request.caravanId, request.startDate, request.endDate) ==>
            v == Fail(Validation(AlreadyReserved)))
  {
    ConflictsMembership(reservations, request.caravanId, request.startDate, request.endDate);
  }

  /** The validator object, over the three stores it is given. */
  class ReservationValidator {
    const reservationRepo: InMemoryRepository<ReservationData>
    const userRepo: InMemoryRepository<UserData>
    const caravanRepo: InMemoryRepository<CavanData>

    constructor (reservationRepo: InMemoryRepository<ReservationData>, userRepo: InMemoryRepository<UserData>,
                 caravanRepo: InMemoryRepository<CavanData>)
      ensures this.reservationRepo == reservationRepo
      ensures this.userRepo == userRepo
      ensures this.caravanRepo == caravanRepo
    {
      this.reservationRepo := reservationRepo;
      this.userRepo := userRepo;
      this.caravanRepo := caravanRepo;
    }

    /** Runs the checks against the current stores; it reads them and changes nothing. */
    method Validate(request: ReservationRequest, now: int) returns (outcome: Outcome<AppError>)
      requires reservationRepo.Valid() && userRepo.Valid() && caravanRepo.Valid()
      ensures outcome == ValidationOutcome(userRepo.entities, caravanRepo.entities, reservationRepo.Values(), request, now)
    {
      var guest := userRepo.FindById(request.guestId);
      if guest.None? {
        return Fail(NotFound("User", request.guestId));
      }
      var caravan := caravanRepo.FindById(request.caravanId);
      if caravan.None? {
        return Fail(NotFound("Caravan", request.caravanId));
      }
      outcome := ValidateDates(request.startDate, request.endDate, now);
      if outcome.Fail? {
        return;
      }
      var conflicts := FindConflictsByCaravanId(reservationRepo, request.caravanId, request.startDate, request.endDate);
      outcome := ValidateNoConflicts(conflicts);
    }
  }
}
