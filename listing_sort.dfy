/**
  The three orders the listing ranking sorts by, and the sort itself.
  `Array.sort` is stable, so the sort is modelled as an in-place stable
  insertion sort, proved equal to the functional `StableSort`; the
  properties of the result are proved about `StableSort`.
 */
module ListingSort {
  import opened Domain

  datatype SortBy = ByDistance | ByLikes | ByPrice

  /** A listing with its distance in metres from the caller's origin, or `None` when unknown. */
  datatype RankedCavan = RankedCavan(cavan: Cavan, distance: Option<nat>)

  /**
    The comparator of each order does not put `a` after `b`: price ascending,
    number of likes descending, and distance ascending with unknown distances
    after all known ones.
   */
  predicate Le(sortBy: SortBy, a: RankedCavan, b: RankedCavan) {
    match sortBy
    case ByPrice => a.cavan.data.dailyRate <= b.cavan.data.dailyRate
    case ByLikes => |b.cavan.data.likedBy| <= |a.cavan.data.likedBy|
    case ByDistance => b.distance.None? || (a.distance.Some? && a.distance.value <= b.distance.value)
  }

  /** Each order is total and transitive, so it is a total preorder. */
  lemma LeIsTotalPreorder(sortBy: SortBy, a: RankedCavan, b: RankedCavan, c: RankedCavan)
    ensures Le(sortBy, a, b) || Le(sortBy, b, a)
    ensures Le(sortBy, a, b) && Le(sortBy, b, c) ==> Le(sortBy, a, c)
  {
  }

  ghost predicate Sorted(sortBy: SortBy, s: seq<RankedCavan>) {
    forall i, j :: 0 <= i < j < |s| ==> Le(sortBy, s[i], s[j])
  }

  /** Inserts `x` into `s` after every element that may stay ahead of it. */
  function Insert(sortBy: SortBy, s: seq<RankedCavan>, x: RankedCavan): seq<RankedCavan> {
    if s == [] || Le(sortBy, s[|s| - 1], x) then s + [x]
    else Insert(sortBy, s[..|s| - 1], x) + [s[|s| - 1]]
  }

  /** Insertion sort: each element in turn is inserted into the sorted prefix before it. */
  function StableSort(sortBy: SortBy, s: seq<RankedCavan>): seq<RankedCavan> {
    if s == [] then []
    else Insert(sortBy, StableSort(sortBy, s[..|s| - 1]), s[|s| - 1])
  }

  lemma {:induction false} InsertPermutes(sortBy: SortBy, s: seq<RankedCavan>, x: RankedCavan)
    ensures multiset(Insert(sortBy, s, x)) == multiset(s) + multiset{x}
  {
    if s != [] && !Le(sortBy, s[|s| - 1], x) {
      InsertPermutes(sortBy, s[..|s| - 1], x);
      assert s == s[..|s| - 1] + [s[|s| - 1]];
    }
  }

  /** The sorted sequence is a permutation of the input. */
  lemma {:induction false} StableSortPermutes(sortBy: SortBy, s: seq<RankedCavan>)
    ensures multiset(StableSort(sortBy, s)) == multiset(s)
  {
    if s != [] {
      StableSortPermutes(sortBy, s[..|s| - 1]);
      InsertPermutes(sortBy, StableSort(sortBy, s[..|s| - 1]), s[|s| - 1]);
      assert s == s[..|s| - 1] + [s[|s| - 1]];
    }
  }

  lemma {:induction false} InsertSorted(sortBy: SortBy, s: seq<RankedCavan>, x: RankedCavan)
    requires Sorted(sortBy, s)
    ensures Sorted(sortBy, Insert(sortBy, s, x))
  {
    if s == [] || Le(sortBy, s[|s| - 1], x) {
      forall i | 0 <= i < |s|
        ensures Le(sortBy, s[i], x)
      {
        LeIsTotalPreorder(sortBy, s[i], s[|s| - 1], x);
      }
    } else {
      var front, last := s[..|s| - 1], s[|s| - 1];
      InsertSorted(sortBy, front, x);
      var t := Insert(sortBy, front, x);
      InsertPermutes(sortBy, front, x);
      forall i | 0 <= i < |t|
        ensures Le(sortBy, t[i], last)
      {
        assert t[i] in multiset(t);
        if t[i] == x {
          LeIsTotalPreorder(sortBy, last, x, last);
        } else {
          assert t[i] in front;
        }
      }
    }
  }

  /** The sorted sequence is in order. */
  lemma {:induction false} StableSortSorted(sortBy: SortBy, s: seq<RankedCavan>)
    ensures Sorted(sortBy, StableSort(sortBy, s))
  {
    if s != [] {
      StableSortSorted(sortBy, s[..|s| - 1]);
      InsertSorted(sortBy, StableSort(sortBy, s[..|s| - 1]), s[|s| - 1]);
    }
  }

  /** `a` and `b` have equal sort keys. */
  predicate Tied(sortBy: SortBy, a: RankedCavan, b: RankedCavan) {
    Le(sortBy, a, b) && Le(sortBy, b, a)
  }

  /** The elements of `s` whose key equals that of `x`, in the order of `s`. */
  function Ties(sortBy: SortBy, x: RankedCavan, s: seq<RankedCavan>): seq<RankedCavan> {
    if s == [] then []
    else Ties(sortBy, x, s[..|s| - 1]) + (if Tied(sortBy, x, s[|s| - 1]) then [s[|s| - 1]] else [])
  }

  lemma {:induction false} TiesAppend(sortBy: SortBy, x: RankedCavan, s: seq<RankedCavan>, t: seq<RankedCavan>)
    ensures Ties(sortBy, x, s + t) == Ties(sortBy, x, s) + Ties(sortBy, x, t)
  {
    if t == [] {
      assert s + t == s;
    } else {
      TiesAppend(sortBy, x, s, t[..|t| - 1]);
      assert (s + t)[..|s + t| - 1] == s + t[..|t| - 1];
    }
  }

  lemma TiesSingleton(sortBy: SortBy, x: RankedCavan, y: RankedCavan)
    ensures Ties(sortBy, x, [y]) == if Tied(sortBy, x, y) then [y] else []
  {
    assert [y][..0] == [];
  }

  lemma {:induction false} InsertTies(sortBy: SortBy, x: RankedCavan, s: seq<RankedCavan>, y: RankedCavan)
    ensures Ties(sortBy, x, Insert(sortBy, s, y)) == Ties(sortBy, x, s) + Ties(sortBy, x, [y])
  {
    if s == [] || Le(sortBy, s[|s| - 1], y) {
      TiesAppend(sortBy, x, s, [y]);
    } else {
      var front, last := s[..|s| - 1], s[|s| - 1];
      assert s == front + [last];
      var ty, tl := Ties(sortBy, x, [y]), Ties(sortBy, x, [last]);
      TiesSingleton(sortBy, x, y);
      TiesSingleton(sortBy, x, last);
      if Tied(sortBy, x, y) && Tied(sortBy, x, last) {
        LeIsTotalPreorder(sortBy, last, x, y);
        assert false;
      }
      assert ty == [] || tl == [];
      calc {
        Ties(sortBy, x, Insert(sortBy, s, y));
        Ties(sortBy, x, Insert(sortBy, front, y) + [last]);
        { TiesAppend(sortBy, x, Insert(sortBy, front, y), [last]); }
        Ties(sortBy, x, Insert(sortBy, front, y)) + tl;
        { InsertTies(sortBy, x, front, y); }
        Ties(sortBy, x, front) + ty + tl;
        Ties(sortBy, x, front) + tl + ty;
        { TiesAppend(sortBy, x, front, [last]); }
        Ties(sortBy, x, s) + ty;
      }
    }
  }

  /** Stability: listings with equal keys keep their relative order. */
  lemma {:induction false} StableSortIsStable(sortBy: SortBy, x: RankedCavan, s: seq<RankedCavan>)
    ensures Ties(sortBy, x, StableSort(sortBy, s)) == Ties(sortBy, x, s)
  {
    if s != [] {
      var front, last := s[..|s| - 1], s[|s| - 1];
      StableSortIsStable(sortBy, x, front);
      InsertTies(sortBy, x, StableSort(sortBy, front), last);
      TiesAppend(sortBy, x, front, [last]);
      assert s == front + [last];
    }
  }

  /**
    Inserting `x` puts it right after position `j` when the element before
    `j` may stay ahead of it and every element from `j` on must come after it.
   */
  lemma {:induction false} InsertSplit(sortBy: SortBy, p: seq<RankedCavan>, j: int, x: RankedCavan)
    requires 0 <= j <= |p|
    requires j == 0 || Le(sortBy, p[j - 1], x)
    requires forall k :: j <= k < |p| ==> !Le(sortBy, p[k], x)
    ensures Insert(sortBy, p, x) == p[..j] + [x] + p[j..]
  {
    if j < |p| {
      var front, last := p[..|p| - 1], p[|p| - 1];
      assert p == front + [last];
      assert !Le(sortBy, last, x);
      assert Insert(sortBy, p, x) == Insert(sortBy, front, x) + [last];
      InsertSplit(sortBy, front, j, x);
      assert p[..j] == front[..j];
      assert p[j..] == front[j..] + [last];
    }
  }

  lemma StableSortStep(sortBy: SortBy, s: seq<RankedCavan>, i: int)
    requires 0 <= i < |s|
    ensures StableSort(sortBy, s[..i + 1]) == Insert(sortBy, StableSort(sortBy, s[..i]), s[i])
  {
    assert s[..i + 1][..i] == s[..i];
  }

  lemma ShiftedView(s: seq<RankedCavan>, prefix: seq<RankedCavan>, x: RankedCavan, i: int, j: int)
    requires 0 <= j <= i == |prefix| < |s|
    requires forall k :: 0 <= k < j ==> s[k] == prefix[k]
    requires s[j] == x
    requires forall k :: j < k <= i ==> s[k] == prefix[k - 1]
    ensures s[..i + 1] == prefix[..j] + [x] + prefix[j..i]
  {
    var inserted := prefix[..j] + [x] + prefix[j..i];
    forall k | 0 <= k <= i
      ensures s[k] == inserted[k]
    {
      if k > j {
        assert inserted[k] == prefix[j..i][k - j - 1];
      }
    }
  }

  /** Moves `a[i]` left past every element of the prefix that must come after it. */
  method InsertAt(a: array<RankedCavan>, i: int, sortBy: SortBy)
    requires 0 <= i < a.Length
    modifies a
    ensures a[..i + 1] == Insert(sortBy, old(a[..i]), old(a[i]))
    ensures a[i + 1..] == old(a[i + 1..])
  {
    ghost var prefix := a[..i];
    var x := a[i];
    var j := i;
    while j > 0 && !Le(sortBy, a[j - 1], x)
      invariant 0 <= j <= i
      invariant forall k :: 0 <= k < j ==> a[k] == prefix[k]
      invariant forall k :: j < k <= i ==> a[k] == prefix[k - 1]
      invariant forall k :: i < k < a.Length ==> a[k] == old(a[k])
      invariant forall k :: j <= k < i ==> !Le(sortBy, prefix[k], x)
    {
      a[j] := a[j - 1];
      j := j - 1;
    }
    a[j] := x;
    InsertSplit(sortBy, prefix, j, x);
    ShiftedView(a[..], prefix, x, i, j);
  }

  /** `Array.sort` on the enriched listings: a stable insertion sort in place. */
  method SortInPlace(a: array<RankedCavan>, sortBy: SortBy)
    modifies a
    ensures a[..] == StableSort(sortBy, old(a[..]))
  {
    ghost var input := a[..];
    for i := 0 to a.Length
      invariant a[..i] == StableSort(sortBy, input[..i])
      invariant a[i..] == input[i..]
    {
      StableSortStep(sortBy, input, i);
      InsertAt(a, i, sortBy);
    }
    assert input[..a.Length] == input;
  }

  /** `Array.prototype.sort` on a fresh array holding `s`: the array sorted in place, read back. */
  method SortedCopy(s: seq<RankedCavan>, sortBy: SortBy) returns (sorted: seq<RankedCavan>)
    ensures sorted == StableSort(sortBy, s)
  {
    var a := new RankedCavan[|s|];
    forall i | 0 <= i < a.Length {
      a[i] := s[i];
    }
    assert a[..] == s;
    SortInPlace(a, sortBy);
    sorted := a[..];
  }
}
