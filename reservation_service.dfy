/**
  Admission and pricing: validate a request, look the listing up, price the
  stay by whole started days and store a pending reservation. Nothing is
  written unless every check passes.
 */
module ReservationService {
  import opened Domain
  import opened Repository
  import opened ReservationRepository
  import opened ReservationValidator

  const MsPerDay: int := 1000 * 60 * 60 * 24

  /** The length of [startDate, endDate) in days, rounded up (`Math.ceil`). */
  function DurationInDays(startDate: int, endDate: int): (days: int)
    ensures (days - 1) * MsPerDay < endDate - startDate <= days * MsPerDay
  {
    -((startDate - endDate) / MsPerDay)
  }

  /**
    Every started day is billed in full; a stay whose day count is not
    positive is billed one day.
   */
  function CalculatePrice(startDate: int, endDate: int, dailyRate: nat): (price: nat)
    ensures price >= dailyRate
    ensures endDate - startDate <= MsPerDay ==> price == dailyRate
  {
    var days := DurationInDays(startDate, endDate);
    if days <= 0 then dailyRate else days * dailyRate
  }

  /** A stay of more than `days - 1` and at most `days` whole days costs `days` times the rate. */
  lemma PriceBillsStartedDays(startDate: int, endDate: int, dailyRate: nat, days: int)
    requires days >= 1
    requires (days - 1) * MsPerDay < endDate - startDate <= days * MsPerDay
    ensures CalculatePrice(startDate, endDate, dailyRate) == days * dailyRate
  {
    var d := DurationInDays(startDate, endDate);
    assert d == days;
  }

  /** An empty or reversed interval costs exactly one day. */
  lemma PriceOfEmptyInterval(startDate: int, endDate: int, dailyRate: nat)
    requires endDate <= startDate
    ensures CalculatePrice(startDate, endDate, dailyRate) == dailyRate
  {
  }

  lemma MulMonotone(a: int, b: int, c: nat)
    requires a <= b
    ensures a * c <= b * c
  {
  }

  /** For a fixed rate, a longer stay never costs less. */
  lemma PriceMonotoneInDuration(s1: int, e1: int, s2: int, e2: int, dailyRate: nat)
    requires e1 - s1 <= e2 - s2
    ensures CalculatePrice(s1, e1, dailyRate) <= CalculatePrice(s2, e2, dailyRate)
  {
    var d1, d2 := DurationInDays(s1, e1), DurationInDays(s2, e2);
    assert d1 <= d2;
    if d1 > 0 {
      MulMonotone(d1, d2, dailyRate);
    } else if d2 > 0 {
      MulMonotone(1, d2, dailyRate);
    }
  }

  /** For a fixed interval, the price is linear in the rate. */
  lemma PriceLinearInRate(startDate: int, endDate: int, a: nat, b: nat, k: nat)
    ensures CalculatePrice(startDate, endDate, a + b)
         == CalculatePrice(startDate, endDate, a) + CalculatePrice(startDate, endDate, b)
    ensures CalculatePrice(startDate, endDate, k * a) == k * CalculatePrice(startDate, endDate, a)
  {
    var d := DurationInDays(startDate, endDate);
    if d > 0 {
      assert d * (a + b) == d * a + d * b;
      assert d * (k * a) == k * (d * a);
    }
  }

  /** The worked examples at a rate of 100: one day, one day and six hours, five days. */
  lemma PriceExamples()
    ensures CalculatePrice(1760097600000, 1760184000000, 100) == 100
    ensures CalculatePrice(1760097600000, 1760205600000, 100) == 200
    ensures CalculatePrice(1760097600000, 1760529600000, 100) == 500
  {
    PriceBillsStartedDays(1760097600000, 1760205600000, 100, 2);
    PriceBillsStartedDays(1760097600000, 1760529600000, 100, 5);
  }

  class ReservationService {
    const reservationRepo: InMemoryRepository<ReservationData>
    const cavanRepo: InMemoryRepository<CavanData>
    const reservationValidator: ReservationValidator

    constructor (reservationRepo: InMemoryRepository<ReservationData>, cavanRepo: InMemoryRepository<CavanData>,
                 reservationValidator: ReservationValidator)
      ensures this.reservationRepo == reservationRepo
      ensures this.cavanRepo == cavanRepo
      ensures this.reservationValidator == reservationValidator
    {
      this.reservationRepo := reservationRepo;
      this.cavanRepo := cavanRepo;
      this.reservationValidator := reservationValidator;
    }

    /** The validator checks the same reservation and listing stores the service uses, as the server wires them. */
    ghost predicate Wired() {
      && reservationValidator.reservationRepo == reservationRepo
      && reservationValidator.caravanRepo == cavanRepo
    }

    ghost predicate StoresValid()
      reads reservationRepo, cavanRepo, reservationValidator.reservationRepo,
            reservationValidator.userRepo, reservationValidator.caravanRepo
    {
      && reservationRepo.Valid() && cavanRepo.Valid()
      && reservationValidator.reservationRepo.Valid()
      && reservationValidator.userRepo.Valid()
      && reservationValidator.caravanRepo.Valid()
    }

    /** The validator's verdict on `request` against the current stores. */
    ghost function Verdict(request: ReservationRequest, now: int): Outcome<AppError>
      reads reservationValidator.reservationRepo, reservationValidator.userRepo, reservationValidator.caravanRepo
      requires reservationValidator.reservationRepo.Valid()
    {
      ValidationOutcome(reservationValidator.userRepo.entities, reservationValidator.caravanRepo.entities,
                        reservationValidator.reservationRepo.Values(), request, now)
    }

    method CreateReservation(request: ReservationRequest, now: int) returns (result: Result<Reservation, AppError>)
      requires StoresValid()
      modifies reservationRepo
      ensures reservationRepo.Valid()
      ensures old(Verdict(request, now)).Fail? ==>
        result == Failure(old(Verdict(request, now)).error) && unchanged(reservationRepo)
      ensures old(Verdict(request, now)).Pass? && request.caravanId !in old(cavanRepo.entities) ==>
        result == Failure(NotFound("Cavan", request.caravanId)) && unchanged(reservationRepo)
      ensures old(Verdict(request, now)).Pass? && request.caravanId in old(cavanRepo.entities) ==>
        && result.Success?
        && result.value.id !in old(reservationRepo.entities)
        && result.value.data == ReservationData(
             request.guestId, request.caravanId, request.startDate, request.endDate, Pending,
             CalculatePrice(request.startDate, request.endDate, old(cavanRepo.entities)[request.caravanId].data.dailyRate),
             now)
        && reservationRepo.entities == old(reservationRepo.entities)[result.value.id := result.value]
        && reservationRepo.order == old(reservationRepo.order) + [result.value.id]
      ensures Wired() && old(NoDoubleBooking(reservationRepo.entities)) ==> NoDoubleBooking(reservationRepo.entities)
      ensures Wired() ==> (result.Success? <==> old(Verdict(request, now)).Pass?)
    {
      var verdict := reservationValidator.Validate(request, now);
      if verdict.Fail? {
        return Failure(verdict.error);
      }
      var cavan := cavanRepo.FindById(request.caravanId);
      if cavan.None? {
        return Failure(NotFound("Cavan", request.caravanId));
      }
      var totalPrice := CalculatePrice(request.startDate, request.endDate, cavan.value.data.dailyRate);
      var newReservation := ReservationData(
        request.guestId, request.caravanId, request.startDate, request.endDate, Pending, totalPrice, now);
      ghost var before := reservationRepo.entities;
      if Wired() {
        ValidationPassesIff(reservationValidator.userRepo.entities, reservationValidator.caravanRepo.entities,
                            reservationRepo.Values(), request, now);
        reservationRepo.ValuesAreStored();
      }
      var saved := reservationRepo.Save(None, newReservation);
      result := Success(saved);
      if Wired() && NoDoubleBooking(before) {
        AdmissionKeepsNoDoubleBooking(before, saved);
      }
    }
  }

  /**
    Adding a well-formed reservation under a fresh key, when no reservation
    of its listing overlaps it, keeps the store free of double bookings.
   */
  lemma AdmissionKeepsNoDoubleBooking(m: map<string, Reservation>, r: Reservation)
    requires NoDoubleBooking(m)
    requires r.id !in m
    requires forall k :: k in m && m[k].data.caravanId == r.data.caravanId ==>
      !Overlaps(m[k].data, r.data.startDate, r.data.endDate)
    ensures NoDoubleBooking(m[r.id := r])
  {
  }
}

/**
  The admission path with the listing key read under two names, as the
  request object arrives at the service: the validator reads `caravanId`,
  the service's own lookup reads `cavanId`. A key that is not present is
  `None` (`undefined` in the request object) and is never found in a store.
 */
module ReservationKeys {
  import opened Domain
  import opened ReservationRepository
  import opened ReservationValidator
  import opened ReservationService

  /** A request object whose two listing keys may each be missing. */
  datatype LooseRequest = LooseRequest(
    guestId: string,
    cavanId: Option<string>,
    caravanId: Option<string>,
    startDate: int,
    endDate: int)

  /** How a missing key shows in the `NotFoundException` message. */
  const Undefined := "undefined"

  /** The request a caller typed as `ReservationRequest` sends: `caravanId` only. */
  function Typed(request: ReservationRequest): LooseRequest {
    LooseRequest(request.guestId, None, Some(request.caravanId), request.startDate, request.endDate)
  }

  /**
    `createReservation` as written: validation on `caravanId`, then the
    listing looked up again under `cavanId` for its rate.
   */
  function CreateOutcomeAsWritten(users: map<string, User>, cavans: map<string, Cavan>, reservations: seq<Reservation>,
                                  raw: LooseRequest, now: int): Result<ReservationData, AppError>
  {
    if raw.guestId !in users then Failure(NotFound("User", raw.guestId))
    else if raw.caravanId.None? then Failure(NotFound("Caravan", Undefined))
    else
      var verdict := ValidationOutcome(users, cavans, reservations,
        ReservationRequest(raw.guestId, raw.caravanId.value, raw.startDate, raw.endDate), now);
      if verdict.Fail? then Failure(verdict.error)
      else if raw.cavanId.None? then Failure(NotFound("Cavan", Undefined))
      else if raw.cavanId.value !in cavans then Failure(NotFound("Cavan", raw.cavanId.value))
      else Success(ReservationData(raw.guestId, raw.caravanId.value, raw.startDate, raw.endDate, Pending,
                   CalculatePrice(raw.startDate, raw.endDate, cavans[raw.cavanId.value].data.dailyRate), now))
  }

  /** As written, nothing is admitted unless the request carries both keys. */
  lemma AsWrittenNeedsBothKeys(users: map<string, User>, cavans: map<string, Cavan>, reservations: seq<Reservation>,
                               raw: LooseRequest, now: int)
    ensures CreateOutcomeAsWritten(users, cavans, reservations, raw, now).Success? ==>
      raw.cavanId.Some? && raw.caravanId.Some?
  {
  }

  /** A typed request that passes validation is still refused, for a listing "undefined". */
  lemma TypedRequestRefusedAsWritten(users: map<string, User>, cavans: map<string, Cavan>,
                                     reservations: seq<Reservation>, request: ReservationRequest, now: int)
    requires ValidationOutcome(users, cavans, reservations, request, now) == Pass
    ensures CreateOutcomeAsWritten(users, cavans, reservations, Typed(request), now)
      == Failure(NotFound("Cavan", Undefined))
  {
  }

  /** The request the HTTP controller builds (`cavanId` only) fails validation for every known guest. */
  lemma ControllerRequestRefusedAsWritten(users: map<string, User>, cavans: map<string, Cavan>,
                                          reservations: seq<Reservation>, guestId: string, cavanId: string,
                                          startDate: int, endDate: int, now: int)
    requires guestId in users
    ensures CreateOutcomeAsWritten(users, cavans, reservations,
              LooseRequest(guestId, Some(cavanId), None, startDate, endDate), now)
      == Failure(NotFound("Caravan", Undefined))
  {
  }

  /**
    With both keys naming the same listing, the code as written admits
    exactly the requests validation passes, as the single-key admission does.
   */
  lemma SameKeyAdmitsValidated(users: map<string, User>, cavans: map<string, Cavan>, reservations: seq<Reservation>,
                               request: ReservationRequest, now: int)
    ensures var both := LooseRequest(request.guestId, Some(request.caravanId), Some(request.caravanId),
                                     request.startDate, request.endDate);
      CreateOutcomeAsWritten(users, cavans, reservations, both, now).Success? <==>
        ValidationOutcome(users, cavans, reservations, request, now) == Pass
  {
    ValidationPassesIff(users, cavans, reservations, request, now);
  }
}
