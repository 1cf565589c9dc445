# Caravan reservations and listing ranking, modelled in Dafny

This project models the server core of a caravan ("cavan") rental
service: the generic in-memory store, the reservation conflict scan, the
admission validator, reservation pricing and creation, and the listing
service. The listing service ranks listings by price, likes or distance
from an origin, registers listings, toggles likes and deletes listings.
Each piece takes the form of its source:

- The store is a `class` over a `map` and the insertion order of its keys.
  A JavaScript `Map` iterates in insertion order, and an upsert keeps a
  key's position.
- The conflict scan is a `method` whose `for` loop is proved equal to a
  filter function.
- The validator is a set of pure functions plus a read-only method.
- Pricing is a pure function. `createReservation` is a method that writes
  the reservation store.
- The ranking sorts an `array` in place with an insertion sort. That sort
  is proved equal to a functional stable sort, and the stable sort is
  proved sorted, a permutation and stable.
- Likes and deletion are methods over the listing store.

Modelling conventions:

- Timestamps are integer milliseconds. The current time is a parameter
  `now` rather than a clock read.
- Rates are whole currency units (`nat`). Coordinates are integers.
- The distance service is an oracle `(origin, listing) -> Option<nat>`,
  asked once per listing as `getCavans` asks it.
- `randomUUID` is a choice of a non-empty id not yet stored.
- Errors are values:
  - `NotFound` and `Validation` are the application exceptions (404 and 400);
  - `Unexpected` is any other thrown `Error`, which the error handler turns
    into a 500.
- A reservation carries one listing key, `caravanId`. It is used
  throughout the validator, the conflict scan and the corrected service.
  The service as written reads a second key; see "Findings".
- Listings carry `likedBy`, the list the service reads and writes.
  `server/src/models/Cavan.ts` declares a `likes` count instead.

## Model

| member | source | states |
|---|---|---|
| Domain.Status | server/src/index.ts:160-167 | a `NotFound` error answers 404, a `Validation` error 400, anything else 500, each as an if-and-only-if |
| Repository.FreshKeyExists | server/src/repositories/InMemoryRepository.ts:17 | for every finite set of stored keys there is a non-empty id outside it, so a fresh id can always be drawn |
| Repository.Without | server/src/repositories/InMemoryRepository.ts:35-36 | the key order after a delete holds exactly the old keys other than the deleted one, and stays free of duplicates |
| Repository.InMemoryRepository.constructor | server/src/repositories/InMemoryRepository.ts:5 | a new store is empty and valid |
| Repository.InMemoryRepository.Values | server/src/repositories/InMemoryRepository.ts:12-13 | the values in iteration order: one per key, the i-th being the entity stored under the i-th key |
| Repository.InMemoryRepository.ValuesAreStored | server/src/repositories/InMemoryRepository.ts:12-13 | an entity is among the values if and only if it is stored under its own id |
| Repository.InMemoryRepository.FindById | server/src/repositories/InMemoryRepository.ts:7-10 | a stored id gives its entity (carrying that id); an absent id gives `None` (null) |
| Repository.InMemoryRepository.FindAll | server/src/repositories/InMemoryRepository.ts:12-14 | exactly the stored entities, one per key, in insertion order, with no id repeated |
| Repository.InMemoryRepository.Save | server/src/repositories/InMemoryRepository.ts:16-23 | upsert: a non-empty id stores under exactly that id, replacing any entry; a missing or empty id gets a fresh id; only that key changes, and a new key is appended to the iteration order |
| Repository.InMemoryRepository.Update | server/src/repositories/InMemoryRepository.ts:25-33 | an absent id gives `None` and changes nothing; otherwise the patch is merged over the stored fields, the stored id is kept, and only that key changes |
| Repository.InMemoryRepository.Delete | server/src/repositories/InMemoryRepository.ts:35-37 | answers whether the id was present; afterwards the key is absent and every other entry and its order are kept |
| ReservationRepository.ConflictsMembership | server/src/repositories/ReservationRepository.ts:19-33 | a reservation is reported if and only if it is in the scanned list, is on the queried listing and overlaps under the half-open test |
| ReservationRepository.TouchingIsNoConflict | server/src/repositories/ReservationRepository.ts:30 | a candidate starting at an existing end, or ending at an existing start, is not reported |
| ReservationRepository.ConflictsIgnoreStatus | server/src/repositories/ReservationRepository.ts:19-33 | status is not consulted: with every status changed to any value (cancelled and completed included), the same reservations are reported |
| ReservationRepository.FindConflictsByCaravanId | server/src/repositories/ReservationRepository.ts:13-35 | the loop returns every conflicting reservation, not just the first, in storage order; it equals the conflict filter over the stored values, and it changes nothing |
| ReservationRepository.StoredConflicts | server/src/repositories/ReservationRepository.ts:19-33 | a reservation is in the scan's result if and only if it is stored under its id, is on the listing and overlaps |
| ReservationValidator.ValidationPassesIff | server/src/validators/ReservationValidator.ts:19-57 | validation passes if and only if the guest and the listing exist, start < end, start is not before `now`, and no stored reservation of the listing overlaps |
| ReservationValidator.ValidationErrors | server/src/validators/ReservationValidator.ts:19-57 | the error for each failing case, in precedence order: missing guest `NotFound("User")`, missing listing `NotFound("Caravan")`, ill-ordered interval, start in the past, conflict |
| ReservationValidator.ReservationValidator.constructor | server/src/validators/ReservationValidator.ts:13-17 | the validator keeps the three stores it is given |
| ReservationValidator.ReservationValidator.Validate | server/src/validators/ReservationValidator.ts:19-57 | the checks run in order entities, dates, conflicts against the current stores; the outcome is the specified verdict and no store changes |
| ReservationService.DurationInDays | server/src/services/ReservationService.ts:54-56 | the day count is the ceiling of the millisecond duration over 86 400 000: (days-1)·day < duration ≤ days·day |
| ReservationService.CalculatePrice | server/src/services/ReservationService.ts:53-63 | the price is never below one day's rate, and a stay of at most one day costs exactly one day's rate |
| ReservationService.PriceBillsStartedDays | server/src/services/ReservationService.ts:53-63 | a stay longer than d-1 days and at most d days (d ≥ 1) costs d times the rate |
| ReservationService.PriceOfEmptyInterval | server/src/services/ReservationService.ts:58-60 | an empty or reversed interval costs exactly the daily rate |
| ReservationService.PriceMonotoneInDuration | server/src/services/ReservationService.ts:56-62 | at a fixed rate, a longer stay never costs less |
| ReservationService.PriceLinearInRate | server/src/services/ReservationService.ts:62 | for a fixed interval the price is additive and homogeneous in the rate |
| ReservationService.PriceExamples | server/tests/ReservationService.test.ts:83-119 | at rate 100: one day costs 100, one day and six hours 200, five days 500 |
| ReservationService.ReservationService.constructor | server/src/services/ReservationService.ts:9-13 | the service keeps its two stores and its validator |
| ReservationService.ReservationService.CreateReservation | server/src/services/ReservationService.ts:20-48 | a failed validation propagates unchanged and nothing is saved; a listing missing at lookup gives `NotFound("Cavan", id)` and nothing is saved; otherwise exactly one new reservation is stored under a fresh id: pending, priced by `CalculatePrice`, with the request's guest, listing and dates; with the validator wired to the same stores, a request is admitted exactly when it validates and admission keeps the store free of double bookings |
| ReservationService.AdmissionKeepsNoDoubleBooking | server/src/services/ReservationService.ts:20-42 | adding a reservation under a fresh key, when no reservation of its listing overlaps it, keeps the store free of double bookings |
| ReservationKeys.AsWrittenNeedsBothKeys | server/src/services/ReservationService.ts:22-31 | as written, a request is admitted only when it carries both `cavanId` and `caravanId` |
| ReservationKeys.TypedRequestRefusedAsWritten | server/src/services/ReservationService.ts:22-31 | as written, a request of the declared type that passes validation still fails with `NotFound("Cavan", "undefined")` |
| ReservationKeys.ControllerRequestRefusedAsWritten | server/src/index.ts:136-158 | as written, the request the live reservation route builds (as does `server/src/controllers/ReservationController.ts:16-35`) fails validation with `NotFound("Caravan", "undefined")` for every known guest |
| ReservationKeys.SameKeyAdmitsValidated | server/src/services/ReservationService.ts:20-48 | with both keys naming the same listing, the code as written admits exactly the requests that validate |
| ListingSort.LeIsTotalPreorder | server/src/services/CavanService.ts:47-62 | each ranking order is total and transitive |
| ListingSort.StableSortPermutes | server/src/services/CavanService.ts:47-62 | sorting is a permutation of its input |
| ListingSort.StableSortSorted | server/src/services/CavanService.ts:47-62 | sorting yields a sequence ordered by the chosen key |
| ListingSort.StableSortIsStable | server/src/services/CavanService.ts:47-62 | listings with equal keys keep their relative order |
| ListingSort.InsertAt | server/src/services/CavanService.ts:47-62 | moving one element left into the sorted prefix equals inserting it functionally, and the rest of the array is untouched |
| ListingSort.SortedCopy | server/src/services/CavanService.ts:47-62 | sorting an array holding the enriched listings and reading it back gives their stable sort |
| ListingSort.SortInPlace | server/src/services/CavanService.ts:47-62 | the in-place sort leaves exactly the stable sort of the array's old contents |
| CavanService.EnrichShape | server/src/services/CavanService.ts:35-44 | enrichment keeps length and order and pairs each listing with its own distance, which is asked only when there is an origin |
| CavanService.RankPermutes | server/src/services/CavanService.ts:32-62 | every ranking is a permutation of the enriched listings from `findAll`, each with its own distance |
| CavanService.RankByPrice | server/src/services/CavanService.ts:48-49 | ranked by price, the daily rate never decreases |
| CavanService.RankByLikes | server/src/services/CavanService.ts:51-52 | ranked by likes, the number of likes never increases |
| CavanService.RankByDistance | server/src/services/CavanService.ts:54-62 | ranked by distance from an origin, every listing with a distance precedes every listing without one, and distances ascend |
| CavanService.RankWithoutOrigin | server/src/services/CavanService.ts:36-41 | by distance without an origin, the ranking is the `findAll` order, carries no distances, and does not depend on the oracle |
| CavanService.RankIsStable | server/src/services/CavanService.ts:47-62 | when the ranking sorts, listings with equal keys keep their storage order |
| CavanService.NullDistanceExample | server/tests/CavanService.test.ts:93-106 | distances 30 km, unknown and 10 km rank as c3, c1, c2 |
| CavanService.SameDistanceExample | server/src/services/CavanService.ts:40-41 | when every listing gets the same distance, the ranking keeps storage order |
| CavanService.IndexOf | server/src/services/CavanService.ts:113 | -1 exactly when the user is absent, otherwise the first position holding the user |
| CavanService.ToggleCounts | server/src/services/CavanService.ts:113-121 | toggling removes one like of the user when there is one and otherwise adds one; no other user's likes change |
| CavanService.ToggleFlips | server/src/services/CavanService.ts:113-121 | with no duplicate likes, toggling flips the user's membership, keeps every other user's membership and keeps likes unique |
| CavanService.ToggleTwice | server/src/services/CavanService.ts:113-121 | toggling twice gives back exactly the same likes when the user had not liked, and the same likes up to order when the user had liked once |
| CavanService.CavanService.constructor | server/src/services/CavanService.ts:15-20 | the service keeps its listing store and its distance oracle |
| CavanService.CavanService.GetCavans | server/src/services/CavanService.ts:28-67 | the answer is the specified ranking of the stored listings |
| CavanService.CavanService.CreateCavan | server/src/services/CavanService.ts:94-109 | the listing is stored under a fresh id with the given fields, status available and no likes; no other entry changes, and the new id comes last in the iteration order |
| CavanService.CavanService.ToggleLike | server/src/services/CavanService.ts:111-124 | a missing listing fails with a 500 and changes nothing; otherwise the listing is saved back under its id with its likes toggled, and nothing else changes |
| CavanService.CavanService.DeleteCavan | server/src/services/CavanService.ts:134-144 | a missing listing fails with a 500, and a user who is not the host fails with a 500; both change nothing; the host's request deletes the listing and answers true |

## Left out

- `getCavanDetails`, `getLikedCavans` and `getRegisteredCavans` are left out. They call store queries (`findByHostId`, `findLikedBy`, `countCompletedByCavanIds`) that `CavanRepository` and `ReservationRepository` do not define.
- The `userRepo` and `reservationRepo` fields of `CavanService` are left out, because only the operations above use them.
- The distance service is an oracle. This leaves out its network call, its URL building and parsing, and its random fallback distance.
- The order `Array.prototype.sort` gives among listings that all lack a distance is left out. For two missing distances the comparator answers 1 in both directions, so that order depends on the engine. `CavanService.RankIsStable` and `ListingSort.SortInPlace` fix one admissible order, input order, for those ties. `CavanService.RankByDistance` states only the partition and the ascending distances.
- CavanService.CavanService.GetCavans: by distance with no origin, the source returns the listings without a `distance` field. The model returns them paired with `None`, and `CavanService.RankWithoutOrigin` proves that the listings are exactly the `findAll` order.
- CavanService.CavanService.ToggleLike: the object `findById` returns is a shallow copy, so its `likedBy` array is the stored listing's own array. `splice`/`push` therefore change the stored listing, and any copy an earlier `findAll` or `getCavans` handed out, before `save` runs. The model builds the toggled list as a value and saves it. The final store is the same, but the model does not capture that sharing.
- CavanService.CavanService.GetCavans: the default `sortBy` of `distance` and the `default:` branch of the switch are left out. `SortBy` has exactly the three values, and the HTTP route rejects any other value before calling.
- The 404 that `findById(id, 'Cavan')` suggests is left out. `toggleLike`, `deleteCavan` and `getCavanDetails` pass a second argument as if the store threw `NotFound('Cavan', id)`, but the store takes one argument and returns null. A missing listing therefore ends in a `TypeError` and a 500, and the model returns that 500.
- Invalid dates (`NaN` timestamps) are left out. The validator's comparisons are modelled on integers.
- Floating-point rates, prices, distances and coordinates are left out; all are integers. A fractional daily rate or duration is not modelled.
- HTTP routing, request parsing, authentication and the React client are left out.
- Aliasing through shallow copies is left out. The spread copies that `findById`, `findAll` and `save` return are shallow, so their nested arrays (`likedBy`, `amenities`, `photos`) are shared with the stored entity. Entities in the model are values, so the model does not capture a caller changing a stored entity through such an array.
- async/await is modelled as sequential calls. There is no concurrency in this code.

## Notes on the test text

- `server/tests/CavanService.test.ts:77-106` mocks the distance service with a whole list of distances. `getCavans` asks the service once per listing and keeps only the first distance of each answer, so under that mock every listing gets the first distance. `CavanService.SameDistanceExample` shows that the ranking then keeps storage order. `CavanService.NullDistanceExample` shows the order the test expects, for an oracle that gives each listing its own distance.
- The test data in `server/tests/CavanService.test.ts:22-26` declares `likes` counts and no `likedBy` list.

## Findings

| source | as written | input that shows it | evidently intended | confidence | as-written member | corrected member |
|---|---|---|---|---|---|---|
| server/src/services/ReservationService.ts:25-29 | the service looks the listing up under `request.cavanId`, but the declared request type, the validator (server/src/validators/ReservationValidator.ts:20-22) and the stored reservation use `caravanId`; the live route (server/src/index.ts:136-158) and the controller (server/src/controllers/ReservationController.ts:16-35) send only `cavanId` | a request `{guestId: "g", caravanId: "c1", startDate, endDate}` with both stored, a free future interval: validation passes, then the lookup of `undefined` fails with `NotFound("Cavan", "undefined")`; the route's request `{guestId, cavanId: "c1", ...}` fails validation with `NotFound("Caravan", "undefined")` | one listing key, `caravanId`, read by the validator, the lookup and the stored reservation, so that every request that validates is admitted | high (not executed) | ReservationKeys.TypedRequestRefusedAsWritten | ReservationService.ReservationService.CreateReservation |
