/**
  The reservation store's one query: the reservations of a listing whose
  interval overlaps a candidate interval.
 */
module ReservationRepository {
  import opened Domain
  import opened Repository

  /**
    Half-open overlap of the candidate [startDate, endDate) with the stored
    interval of `r`: intervals that only touch at an endpoint do not overlap.
   */
  predicate Overlaps(r: ReservationData, startDate: int, endDate: int) {
    startDate < r.endDate && endDate > r.startDate
  }

  /** `r` is on listing `caravanId` and overlaps the candidate; its status plays no part. */
  predicate Conflicting(r: Reservation, caravanId: string, startDate: int, endDate: int) {
    r.data.caravanId == caravanId && Overlaps(r.data, startDate, endDate)
  }

  /** The conflicting reservations of `all`, in the order of `all`. */
  function Conflicts(all: seq<Reservation>, caravanId: string, startDate: int, endDate: int): seq<Reservation>
  {
    if all == [] then []
    else
      var last := all[|all| - 1];
      Conflicts(all[..|all| - 1], caravanId, startDate, endDate)
        + (if Conflicting(last, caravanId, startDate, endDate) then [last] else [])
  }

  /** A reservation is reported iff it is stored, on the listing, and overlapping. */
  lemma {:induction false} ConflictsMembership(all: seq<Reservation>, caravanId: string, startDate: int, endDate: int)
    ensures forall r :: r in Conflicts(all, caravanId, startDate, endDate) <==>
      r in all && r.data.caravanId == caravanId && startDate < r.data.endDate && endDate > r.data.startDate
  {
    if all != [] {
      ConflictsMembership(all[..|all| - 1], caravanId, startDate, endDate);
      assert all == all[..|all| - 1] + [all[|all| - 1]];
    }
  }

  /** Touching intervals are not conflicts, whichever side they touch on. */
  lemma TouchingIsNoConflict(all: seq<Reservation>, r: Reservation, caravanId: string, startDate: int, endDate: int)
    requires startDate == r.data.endDate || endDate == r.data.startDate
    ensures r !in Conflicts(all, caravanId, startDate, endDate)
  {
    ConflictsMembership(all, caravanId, startDate, endDate);
  }

  /** `all` with every status replaced by `status`. */
  function Restatus(all: seq<Reservation>, status: ReservationStatus): (r: seq<Reservation>)
    ensures |r| == |all|
    ensures forall i :: 0 <= i < |all| ==> r[i] == Entity(all[i].id, all[i].data.(status := status))
  {
    if all == [] then []
    else Restatus(all[..|all| - 1], status) + [Entity(all[|all| - 1].id, all[|all| - 1].data.(status := status))]
  }

  lemma RestatusAppend(a: seq<Reservation>, b: seq<Reservation>, status: ReservationStatus)
    ensures Restatus(a + b, status) == Restatus(a, status) + Restatus(b, status)
  {
  }

  /**
    Status is not consulted: whatever status every stored reservation had
    (cancelled and completed included), the same reservations conflict.
   */
  lemma {:induction false} ConflictsIgnoreStatus(all: seq<Reservation>, status: ReservationStatus, caravanId: string, startDate: int, endDate: int)
    ensures Conflicts(Restatus(all, status), caravanId, startDate, endDate)
         == Restatus(Conflicts(all, caravanId, startDate, endDate), status)
  {
    if all != [] {
      var front, last := all[..|all| - 1], all[|all| - 1];
      var x := Entity(last.id, last.data.(status := status));
      var rs := Restatus(all, status);
      assert rs[..|rs| - 1] == Restatus(front, status) && rs[|rs| - 1] == x;
      var tail := if Conflicting(last, caravanId, startDate, endDate) then [last] else [];
      calc {
        Conflicts(rs, caravanId, startDate, endDate);
        Conflicts(Restatus(front, status), caravanId, startDate, endDate)
          + (if Conflicting(x, caravanId, startDate, endDate) then [x] else []);
        { ConflictsIgnoreStatus(front, status, caravanId, startDate, endDate); }
        Restatus(Conflicts(front, caravanId, startDate, endDate), status) + Restatus(tail, status);
        { RestatusAppend(Conflicts(front, caravanId, startDate, endDate), tail, status); }
        Restatus(Conflicts(all, caravanId, startDate, endDate), status);
      }
    }
  }

  /**
    The conflict scan over the stored reservations, in storage order. It
    returns copies of every conflicting reservation and changes nothing.
   */
  method FindConflictsByCaravanId(repo: InMemoryRepository<ReservationData>, caravanId: string, startDate: int, endDate: int)
    returns (conflicts: seq<Reservation>)
    requires repo.Valid()
    ensures conflicts == Conflicts(repo.Values(), caravanId, startDate, endDate)
    ensures forall r :: r in conflicts <==>
      r.id in repo.entities && repo.entities[r.id] == r && Conflicting(r, caravanId, startDate, endDate)
  {
    ghost var all := repo.Values();
    conflicts := [];
    for i := 0 to |repo.order|
      invariant conflicts == Conflicts(all[..i], caravanId, startDate, endDate)
    {
      var reservation := repo.entities[repo.order[i]];
      ConflictsStep(all, i, caravanId, startDate, endDate);
      if reservation.data.caravanId != caravanId {
        continue;
      }
      var existingStart := reservation.data.startDate;
      var existingEnd := reservation.data.endDate;
      if startDate < existingEnd && endDate > existingStart {
        conflicts := conflicts + [reservation];
      }
    }
    assert all[..|repo.order|] == all;
    StoredConflicts(repo, caravanId, startDate, endDate);
  }

  /** One more reservation scanned: it is reported after the earlier ones exactly when it conflicts. */
  lemma ConflictsStep(all: seq<Reservation>, i: nat, caravanId: string, startDate: int, endDate: int)
    requires i < |all|
    ensures Conflicts(all[..i + 1], caravanId, startDate, endDate)
      == Conflicts(all[..i], caravanId, startDate, endDate)
         + (if Conflicting(all[i], caravanId, startDate, endDate) then [all[i]] else [])
  {
    assert all[..i + 1][..i] == all[..i];
  }

  lemma StoredConflicts(repo: InMemoryRepository<ReservationData>, caravanId: string, startDate: int, endDate: int)
    requires repo.Valid()
    ensures forall r :: r in Conflicts(repo.Values(), caravanId, startDate, endDate) <==>
      r.id in repo.entities && repo.entities[r.id] == r && Conflicting(r, caravanId, startDate, endDate)
  {
    var all := repo.Values();
    ConflictsMembership(all, caravanId, startDate, endDate);
    repo.ValuesAreStored();
    forall r | r in Conflicts(all, caravanId, startDate, endDate)
      ensures r.id in repo.entities && repo.entities[r.id] == r && Conflicting(r, caravanId, startDate, endDate)
    {
      assert r in all;
    }
    forall r: Reservation | r.id in repo.entities && repo.entities[r.id] == r && Conflicting(r, caravanId, startDate, endDate)
      ensures r in Conflicts(all, caravanId, startDate, endDate)
    {
      assert r in all;
    }
  }

  /** The admission invariant: no two reservations of one listing overlap. */
  ghost predicate NoDoubleBooking(m: map<string, Reservation>) {
    forall a, b :: a in m && b in m && a != b && m[a].data.caravanId == m[b].data.caravanId ==>
      !Overlaps(m[a].data, m[b].data.startDate, m[b].data.endDate)
  }
}
