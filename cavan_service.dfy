/**
  The listing service: ranking listings by price, likes or distance from an
  origin, registering a listing, toggling a like, and deleting a listing on
  behalf of its host. The distance service is an oracle given to the
  service when it is built, asked once per listing.
 */
module CavanService {
  import opened Domain
  import opened Repository
  import opened ListingSort

  /** Distance in metres from an origin to a listing, or `None` when the distance service cannot tell. */
  type DistanceOracle = (Location, Cavan) -> Option<nat>

  /** The fields a host supplies when registering a listing. */
  datatype NewCavan = NewCavan(
    name: string,
    dailyRate: nat,
    location: Location,
    hostId: string,
    capacity: nat,
    amenities: seq<string>,
    photos: seq<string>)

  const LikedByOfNull := "Cannot read properties of null (reading 'likedBy')"
  const HostIdOfNull := "Cannot read properties of null (reading 'hostId')"
  const NotTheHost := "User is not authorized to delete this cavan"

  /** The distance the ranking attaches to `c`: asked of the oracle only when there is an origin. */
  function DistanceFor(origin: Option<Location>, distanceOf: DistanceOracle, c: Cavan): Option<nat> {
    if origin.Some? then distanceOf(origin.value, c) else None
  }

  /** Each listing paired with its distance, in the order given. */
  function Enrich(cavans: seq<Cavan>, origin: Option<Location>, distanceOf: DistanceOracle): seq<RankedCavan> {
    if cavans == [] then []
    else Enrich(cavans[..|cavans| - 1], origin, distanceOf)
           + [RankedCavan(cavans[|cavans| - 1], DistanceFor(origin, distanceOf, cavans[|cavans| - 1]))]
  }

  /** The listings of a ranking, without their distances. */
  function Listings(r: seq<RankedCavan>): seq<Cavan> {
    if r == [] then [] else Listings(r[..|r| - 1]) + [r[|r| - 1].cavan]
  }

  /** What `getCavans` answers for the listings `cavans` in storage order. */
  function Rank(cavans: seq<Cavan>, sortBy: SortBy, origin: Option<Location>, distanceOf: DistanceOracle)
    : seq<RankedCavan>
  {
    var enriched := Enrich(cavans, origin, distanceOf);
    if sortBy == ByDistance && origin.None? then enriched else StableSort(sortBy, enriched)
  }

  lemma {:induction false} EnrichShape(cavans: seq<Cavan>, origin: Option<Location>, distanceOf: DistanceOracle)
    ensures |Enrich(cavans, origin, distanceOf)| == |cavans|
    ensures forall i :: 0 <= i < |cavans| ==>
      Enrich(cavans, origin, distanceOf)[i] == RankedCavan(cavans[i], DistanceFor(origin, distanceOf, cavans[i]))
    ensures Listings(Enrich(cavans, origin, distanceOf)) == cavans
  {
    if cavans != [] {
      var front := cavans[..|cavans| - 1];
      EnrichShape(front, origin, distanceOf);
      var e := Enrich(cavans, origin, distanceOf);
      assert e[..|e| - 1] == Enrich(front, origin, distanceOf);
      assert cavans == front + [cavans[|cavans| - 1]];
    }
  }

  /**
    Every ranking is a permutation of the enriched listings: the same
    listings as storage holds, each with its own distance.
   */
  lemma RankPermutes(cavans: seq<Cavan>, sortBy: SortBy, origin: Option<Location>, distanceOf: DistanceOracle)
    ensures multiset(Rank(cavans, sortBy, origin, distanceOf)) == multiset(Enrich(cavans, origin, distanceOf))
    ensures Listings(Enrich(cavans, origin, distanceOf)) == cavans
    ensures forall e :: e in Rank(cavans, sortBy, origin, distanceOf) ==>
      e.cavan in cavans && e.distance == DistanceFor(origin, distanceOf, e.cavan)
  {
    var enriched := Enrich(cavans, origin, distanceOf);
    var ranked := Rank(cavans, sortBy, origin, distanceOf);
    StableSortPermutes(sortBy, enriched);
    EnrichShape(cavans, origin, distanceOf);
    EnrichMembers(cavans, origin, distanceOf);
    forall e | e in ranked
      ensures e in enriched
    {
      assert e in multiset(ranked);
    }
  }

  lemma EnrichMembers(cavans: seq<Cavan>, origin: Option<Location>, distanceOf: DistanceOracle)
    ensures forall e :: e in Enrich(cavans, origin, distanceOf) ==>
      e.cavan in cavans && e.distance == DistanceFor(origin, distanceOf, e.cavan)
  {
    EnrichShape(cavans, origin, distanceOf);
    var enriched := Enrich(cavans, origin, distanceOf);
    forall e | e in enriched
      ensures e.cavan in cavans && e.distance == DistanceFor(origin, distanceOf, e.cavan)
    {
      var i :| 0 <= i < |enriched| && enriched[i] == e;
      assert enriched[i] == RankedCavan(cavans[i], DistanceFor(origin, distanceOf, cavans[i]));
    }
  }

  /** By price: the daily rate never decreases along the ranking. */
  lemma RankByPrice(cavans: seq<Cavan>, origin: Option<Location>, distanceOf: DistanceOracle)
    ensures var r := Rank(cavans, ByPrice, origin, distanceOf);
      forall i, j :: 0 <= i < j < |r| ==> r[i].cavan.data.dailyRate <= r[j].cavan.data.dailyRate
  {
    StableSortSorted(ByPrice, Enrich(cavans, origin, distanceOf));
  }

  /** By likes: the number of likes never increases along the ranking. */
  lemma RankByLikes(cavans: seq<Cavan>, origin: Option<Location>, distanceOf: DistanceOracle)
    ensures var r := Rank(cavans, ByLikes, origin, distanceOf);
      forall i, j :: 0 <= i < j < |r| ==> |r[i].cavan.data.likedBy| >= |r[j].cavan.data.likedBy|
  {
    StableSortSorted(ByLikes, Enrich(cavans, origin, distanceOf));
  }

  /**
    By distance from an origin: every listing with a known distance comes
    before every listing without one, and known distances ascend.
   */
  lemma RankByDistance(cavans: seq<Cavan>, origin: Location, distanceOf: DistanceOracle)
    ensures var r := Rank(cavans, ByDistance, Some(origin), distanceOf);
      forall i, j :: 0 <= i < j < |r| && r[j].distance.Some? ==>
        r[i].distance.Some? && r[i].distance.value <= r[j].distance.value
  {
    StableSortSorted(ByDistance, Enrich(cavans, Some(origin), distanceOf));
  }

  /**
    By distance without an origin: storage order, no distances, and the
    same answer whatever the oracle would have said.
   */
  lemma RankWithoutOrigin(cavans: seq<Cavan>, distanceOf: DistanceOracle, other: DistanceOracle)
    ensures Listings(Rank(cavans, ByDistance, None, distanceOf)) == cavans
    ensures forall e :: e in Rank(cavans, ByDistance, None, distanceOf) ==> e.distance == None
    ensures Rank(cavans, ByDistance, None, distanceOf) == Rank(cavans, ByDistance, None, other)
  {
    EnrichShape(cavans, None, distanceOf);
    EnrichMembers(cavans, None, distanceOf);
    EnrichIgnoresOracle(cavans, distanceOf, other);
  }

  lemma {:induction false} EnrichIgnoresOracle(cavans: seq<Cavan>, distanceOf: DistanceOracle, other: DistanceOracle)
    ensures Enrich(cavans, None, distanceOf) == Enrich(cavans, None, other)
  {
    if cavans != [] {
      EnrichIgnoresOracle(cavans[..|cavans| - 1], distanceOf, other);
    }
  }

  /** Whenever the ranking sorts, listings with equal keys keep their storage order. */
  lemma RankIsStable(cavans: seq<Cavan>, sortBy: SortBy, origin: Option<Location>, distanceOf: DistanceOracle,
                     x: RankedCavan)
    ensures Ties(sortBy, x, Rank(cavans, sortBy, origin, distanceOf)) == Ties(sortBy, x, Enrich(cavans, origin, distanceOf))
  {
    StableSortIsStable(sortBy, x, Enrich(cavans, origin, distanceOf));
  }

  /** A listing of the worked examples: only its id and its rate matter. */
  function SampleCavan(id: string, dailyRate: nat): Cavan {
    Entity(id, CavanData(id, "h1", 2, [], [], Location(37, 127), Available, dailyRate, []))
  }

  /** The distances of the null-distance example: c1 at 30 km, c3 at 10 km, c2 unknown. */
  function ExampleDistance(origin: Location, c: Cavan): Option<nat> {
    if c.id == "c1" then Some(30000) else if c.id == "c3" then Some(10000) else None
  }

  /** Every listing at 30 km, which is what a mock answering a whole list gives each listing. */
  function SameDistance(origin: Location, c: Cavan): Option<nat> {
    Some(30000)
  }

  lemma SortTwo(sortBy: SortBy, a: RankedCavan, b: RankedCavan)
    requires Le(sortBy, a, b)
    ensures StableSort(sortBy, [a, b]) == [a, b]
  {
    assert [a][..0] == [] && StableSort(sortBy, [a]) == [a];
    assert [a, b][..1] == [a];
  }

  lemma SortThree(sortBy: SortBy, a: RankedCavan, b: RankedCavan, c: RankedCavan)
    ensures StableSort(sortBy, [a, b, c]) == Insert(sortBy, StableSort(sortBy, [a, b]), c)
  {
    var s := [a, b, c];
    assert s[..|s| - 1] == [a, b] && s[|s| - 1] == c;
  }

  lemma ListingsThree(a: RankedCavan, b: RankedCavan, c: RankedCavan)
    ensures Listings([a, b, c]) == [a.cavan, b.cavan, c.cavan]
  {
    assert [a][..0] == [] && Listings([a]) == [a.cavan];
    assert [a, b][..1] == [a] && Listings([a, b]) == [a.cavan, b.cavan];
    assert [a, b, c][..2] == [a, b];
  }

  /** The null-distance example: c3 at 10 km, then c1 at 30 km, then c2 with no distance. */
  lemma NullDistanceExample()
    ensures var c1, c2, c3 := SampleCavan("c1", 100), SampleCavan("c2", 150), SampleCavan("c3", 200);
      Listings(Rank([c1, c2, c3], ByDistance, Some(Location(37, 127)), ExampleDistance)) == [c3, c1, c2]
  {
    var c1, c2, c3 := SampleCavan("c1", 100), SampleCavan("c2", 150), SampleCavan("c3", 200);
    var r1, r2, r3 := RankedCavan(c1, Some(30000)), RankedCavan(c2, None), RankedCavan(c3, Some(10000));
    EnrichShape([c1, c2, c3], Some(Location(37, 127)), ExampleDistance);
    assert Enrich([c1, c2, c3], Some(Location(37, 127)), ExampleDistance) == [r1, r2, r3];
    SortTwo(ByDistance, r1, r2);
    SortThree(ByDistance, r1, r2, r3);
    assert [r1, r2][..1] == [r1] && [r1][..0] == [];
    assert Insert(ByDistance, [r1], r3) == [r3, r1];
    assert Insert(ByDistance, [r1, r2], r3) == [r3, r1, r2];
    ListingsThree(r3, r1, r2);
  }

  /** With every distance equal the distance ranking keeps storage order. */
  lemma SameDistanceExample()
    ensures var c1, c2, c3 := SampleCavan("c1", 100), SampleCavan("c2", 150), SampleCavan("c3", 200);
      Listings(Rank([c1, c2, c3], ByDistance, Some(Location(37, 127)), SameDistance)) == [c1, c2, c3]
  {
    var c1, c2, c3 := SampleCavan("c1", 100), SampleCavan("c2", 150), SampleCavan("c3", 200);
    var q1, q2, q3 := RankedCavan(c1, Some(30000)), RankedCavan(c2, Some(30000)), RankedCavan(c3, Some(30000));
    EnrichShape([c1, c2, c3], Some(Location(37, 127)), SameDistance);
    assert Enrich([c1, c2, c3], Some(Location(37, 127)), SameDistance) == [q1, q2, q3];
    SortTwo(ByDistance, q1, q2);
    SortThree(ByDistance, q1, q2, q3);
    assert Insert(ByDistance, [q1, q2], q3) == [q1, q2, q3];
    ListingsThree(q1, q2, q3);
  }

  /** The first position of `x` in `s`, or -1 (`Array.prototype.indexOf`). */
  function IndexOf(s: seq<string>, x: string): (i: int)
    ensures -1 <= i < |s|
    ensures i == -1 <==> x !in s
    ensures i >= 0 ==> s[i] == x && x !in s[..i]
  {
    if s == [] then -1
    else if s[0] == x then 0
    else
      var k := IndexOf(s[1..], x);
      if k == -1 then -1 else k + 1
  }

  /** A like toggled: the first occurrence of `user` removed if there is one, else `user` appended. */
  function Toggle(likedBy: seq<string>, user: string): seq<string> {
    var i := IndexOf(likedBy, user);
    if i > -1 then likedBy[..i] + likedBy[i + 1..] else likedBy + [user]
  }

  /** Toggling takes one like of `user` away or adds one; every other user keeps theirs. */
  lemma ToggleCounts(likedBy: seq<string>, user: string)
    ensures user in likedBy ==> multiset(Toggle(likedBy, user)) == multiset(likedBy) - multiset{user}
    ensures user !in likedBy ==> multiset(Toggle(likedBy, user)) == multiset(likedBy) + multiset{user}
  {
    var i := IndexOf(likedBy, user);
    if i > -1 {
      assert likedBy == likedBy[..i] + [user] + likedBy[i + 1..];
    }
  }

  /** With no duplicate likes, toggling flips membership of `user` only and keeps likes unique. */
  lemma ToggleFlips(likedBy: seq<string>, user: string)
    requires forall v :: multiset(likedBy)[v] <= 1
    ensures forall v :: multiset(Toggle(likedBy, user))[v] <= 1
    ensures user in Toggle(likedBy, user) <==> user !in likedBy
    ensures forall v :: v != user ==> (v in Toggle(likedBy, user) <==> v in likedBy)
  {
    ToggleCounts(likedBy, user);
    var t := Toggle(likedBy, user);
    assert forall v :: v in t <==> multiset(t)[v] > 0;
    assert forall v :: v in likedBy <==> multiset(likedBy)[v] > 0;
  }

  /**
    Toggling twice gives back the same likes: exactly, when `user` had not
    liked; up to order, when `user` had liked once.
   */
  lemma ToggleTwice(likedBy: seq<string>, user: string)
    ensures user !in likedBy ==> Toggle(Toggle(likedBy, user), user) == likedBy
    ensures multiset(likedBy)[user] <= 1 ==> multiset(Toggle(Toggle(likedBy, user), user)) == multiset(likedBy)
  {
    var once := Toggle(likedBy, user);
    if user in likedBy {
      if multiset(likedBy)[user] <= 1 {
        var i := IndexOf(likedBy, user);
        assert likedBy == likedBy[..i] + [user] + likedBy[i + 1..];
        assert once == likedBy[..i] + likedBy[i + 1..];
        assert multiset(once)[user] == 0;
        assert user !in once;
        assert Toggle(once, user) == once + [user];
      }
    } else {
      assert once == likedBy + [user];
      var i := IndexOf(once, user);
      assert i == |likedBy|;
      assert once[..i] == likedBy && once[i + 1..] == [];
    }
  }

  class CavanService {
    const cavanRepo: InMemoryRepository<CavanData>
    const distanceOf: DistanceOracle

    constructor (cavanRepo: InMemoryRepository<CavanData>, distanceOf: DistanceOracle)
      ensures this.cavanRepo == cavanRepo && this.distanceOf == distanceOf
    {
      this.cavanRepo := cavanRepo;
      this.distanceOf := distanceOf;
    }

    /** All listings, enriched with their distance when there is an origin, and sorted. */
    method GetCavans(sortBy: SortBy, origin: Option<Location>) returns (result: seq<RankedCavan>)
      requires cavanRepo.Valid()
      ensures result == Rank(cavanRepo.Values(), sortBy, origin, distanceOf)
    {
      var cavans := cavanRepo.FindAll();
      var cavansWithDistance := Enrich(cavans, origin, distanceOf);
      if sortBy == ByDistance && origin.None? {
        return cavansWithDistance;
      }
      result := SortedCopy(cavansWithDistance, sortBy);
    }

    /** Registers a listing under a fresh id, available and liked by nobody. */
    method CreateCavan(input: NewCavan) returns (created: Cavan)
      requires cavanRepo.Valid()
      modifies cavanRepo
      ensures cavanRepo.Valid()
      ensures created.id !in old(cavanRepo.entities)
      ensures created.data == CavanData(input.name, input.hostId, input.capacity, input.amenities, input.photos,
                                        input.location, Available, input.dailyRate, [])
      ensures cavanRepo.entities == old(cavanRepo.entities)[created.id := created]
      ensures cavanRepo.order == old(cavanRepo.order) + [created.id]
    {
      var newCavan := CavanData(input.name, input.hostId, input.capacity, input.amenities, input.photos,
                                input.location, Available, input.dailyRate, []);
      created := cavanRepo.Save(None, newCavan);
    }

    /** Likes the listing for `userId`, or unlikes it if the user already liked it. */
    method ToggleLike(cavanId: string, userId: string) returns (result: Result<Cavan, AppError>)
      requires cavanRepo.Valid()
      modifies cavanRepo
      ensures cavanRepo.Valid()
      ensures cavanId !in old(cavanRepo.entities) ==>
        result == Failure(Unexpected(LikedByOfNull)) && unchanged(cavanRepo)
      ensures cavanId in old(cavanRepo.entities) ==>
        var before := old(cavanRepo.entities)[cavanId];
        && result == Success(Entity(cavanId, before.data.(likedBy := Toggle(before.data.likedBy, userId))))
        && cavanRepo.entities == old(cavanRepo.entities)[cavanId := result.value]
        && cavanRepo.order == old(cavanRepo.order)
    {
      var found := cavanRepo.FindById(cavanId);
      if found.None? {
        return Failure(Unexpected(LikedByOfNull));
      }
      var cavan := found.value;
      var likedBy := Toggle(cavan.data.likedBy, userId);
      var saved := cavanRepo.Save(Some(cavan.id), cavan.data.(likedBy := likedBy));
      result := Success(saved);
    }

    /** Deletes the listing, but only when `userId` is its host. */
    method DeleteCavan(cavanId: string, userId: string) returns (result: Result<bool, AppError>)
      requires cavanRepo.Valid()
      modifies cavanRepo
      ensures cavanRepo.Valid()
      ensures cavanId !in old(cavanRepo.entities) ==>
        result == Failure(Unexpected(HostIdOfNull)) && unchanged(cavanRepo)
      ensures cavanId in old(cavanRepo.entities) && old(cavanRepo.entities)[cavanId].data.hostId != userId ==>
        result == Failure(Unexpected(NotTheHost)) && unchanged(cavanRepo)
      ensures cavanId in old(cavanRepo.entities) && old(cavanRepo.entities)[cavanId].data.hostId == userId ==>
        && result == Success(true)
        && cavanRepo.entities == old(cavanRepo.entities) - {cavanId}
        && cavanRepo.order == Without(old(cavanRepo.order), cavanId)
    {
      var found := cavanRepo.FindById(cavanId);
      if found.None? {
        return Failure(Unexpected(HostIdOfNull));
      }
      if found.value.data.hostId != userId {
        return Failure(Unexpected(NotTheHost));
      }
      var deleted := cavanRepo.Delete(cavanId);
      result := Success(deleted);
    }
  }
}
