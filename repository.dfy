/**
  The generic in-memory store every other component sits on: a map from id
  to entity with upsert-by-id `Save`, merging `Update`, `Delete`, `FindById`
  and `FindAll`. Like a JavaScript `Map`, it remembers the order in which
  keys were first inserted, and `FindAll` returns the entities in that order.
 */
module Repository {
  import opened Domain

  /** No key occurs twice in `s`. */
  ghost predicate Distinct(s: seq<string>) {
    forall i, j :: 0 <= i < j < |s| ==> s[i] != s[j]
  }

  /** The entities stored under `keys`, in the order of `keys`. */
  function Project<T>(m: map<string, Entity<T>>, keys: seq<string>): (r: seq<Entity<T>>)
    requires forall k :: k in keys ==> k in m
    ensures |r| == |keys|
    ensures forall i :: 0 <= i < |keys| ==> r[i] == m[keys[i]]
  {
    if keys == [] then [] else [m[keys[0]]] + Project(m, keys[1..])
  }

  /** `s` with every occurrence of `k` taken out, the rest in order. */
  function Without(s: seq<string>, k: string): (r: seq<string>)
    ensures forall x :: x in r <==> x in s && x != k
    ensures Distinct(s) ==> Distinct(r)
  {
    if s == [] then []
    else if s[0] == k then Without(s[1..], k)
    else
      var rest := Without(s[1..], k);
      assert Distinct(s) ==> s[0] !in s[1..] && Distinct(s[1..]);
      [s[0]] + rest
  }

  lemma {:induction false} DistinctCardinality(s: seq<string>)
    requires Distinct(s)
    ensures |set x | x in s| == |s|
  {
    if s != [] {
      DistinctCardinality(s[1..]);
      assert (set x | x in s) == {s[0]} + (set x | x in s[1..]);
    }
  }

  /** Every finite set of strings has a bound on the lengths of its members. */
  lemma {:induction false} LengthBound(keys: set<string>) returns (n: nat)
    ensures forall k :: k in keys ==> |k| < n
  {
    if keys == {} {
      n := 0;
    } else {
      var k0 :| k0 in keys;
      var m := LengthBound(keys - {k0});
      n := if m <= |k0| then |k0| + 1 else m;
    }
  }

  /** A fresh identifier always exists: `randomUUID` is modelled as a choice of one. */
  lemma FreshKeyExists(keys: set<string>)
    ensures exists k :: k !in keys && k != ""
  {
    var n := LengthBound(keys);
    var k: string := seq(n + 1, _ => 'u');
    assert k !in keys && k != "";
  }

  /**
    A partial update: the fields it sets are given by `merge`, applied to the
    stored fields. It may also carry an id, which `Update` ignores.
   */
  datatype Patch<!T> = Patch(id: Option<string>, merge: T -> T)

  class InMemoryRepository<T> {
    /** The stored entities by id. */
    var entities: map<string, Entity<T>>
    /** The keys of `entities` in the order they were first inserted. */
    var order: seq<string>

    ghost predicate Valid()
      reads this
    {
      && (forall k :: k in entities ==> entities[k].id == k)
      && "" !in entities
      && Distinct(order)
      && (forall k :: k in order <==> k in entities)
    }

    constructor ()
      ensures Valid() && entities == map[] && order == []
    {
      entities := map[];
      order := [];
    }

    /** The stored entities in iteration order. */
    function Values(): (r: seq<Entity<T>>)
      reads this
      requires Valid()
      ensures |r| == |order|
      ensures forall i :: 0 <= i < |r| ==> r[i] == entities[order[i]]
    {
      Project(entities, order)
    }

    /** An entity is among the values exactly when it is stored under its own id. */
    lemma ValuesAreStored()
      requires Valid()
      ensures forall e :: e in Values() <==> e.id in entities && entities[e.id] == e
    {
      forall e: Entity<T> | e.id in entities && entities[e.id] == e
        ensures e in Values()
      {
        var i :| 0 <= i < |order| && order[i] == e.id;
        assert Values()[i] == e;
      }
    }

    method FindById(id: string) returns (found: Option<Entity<T>>)
      requires Valid()
      ensures id in entities ==> found == Some(entities[id]) && found.value.id == id
      ensures id !in entities ==> found == None
    {
      if id in entities {
        found := Some(entities[id]);
      } else {
        found := None;
      }
    }

    /** Exactly the stored entities, one per key, in insertion order. */
    method FindAll() returns (all: seq<Entity<T>>)
      requires Valid()
      ensures all == Values()
      ensures |all| == |entities|
      ensures forall i :: 0 <= i < |all| ==> all[i].id in entities && entities[all[i].id] == all[i]
      ensures forall k :: k in entities ==> exists i :: 0 <= i < |all| && all[i] == entities[k]
      ensures forall i, j :: 0 <= i < j < |all| ==> all[i].id != all[j].id
    {
      all := Values();
      KeysCardinality();
      ValuesIds();
      ValuesCover();
    }

    /** The i-th value carries the i-th key. */
    lemma ValuesIds()
      requires Valid()
      ensures forall i :: 0 <= i < |Values()| ==> Values()[i].id == order[i]
    {
    }

    /** Every stored entity is among the values. */
    lemma ValuesCover()
      requires Valid()
      ensures forall k :: k in entities ==> exists i :: 0 <= i < |Values()| && Values()[i] == entities[k]
    {
      forall k | k in entities
        ensures exists i :: 0 <= i < |Values()| && Values()[i] == entities[k]
      {
        var i :| 0 <= i < |order| && order[i] == k;
        assert Values()[i] == entities[k];
      }
    }

    lemma KeysCardinality()
      requires Valid()
      ensures |entities| == |order|
    {
      DistinctCardinality(order);
      assert (set x | x in order) == entities.Keys;
    }

    /**
      Upsert. A non-empty id stores the entity under exactly that id,
      replacing whatever was there; a missing or empty id gets a fresh one.
     */
    method Save(id: Option<string>, data: T) returns (saved: Entity<T>)
      requires Valid()
      modifies this
      ensures Valid()
      ensures saved.data == data
      ensures id.Some? && id.value != "" ==> saved.id == id.value
      ensures id.None? || id.value == "" ==> saved.id !in old(entities)
      ensures entities == old(entities)[saved.id := saved]
      ensures order == if saved.id in old(entities) then old(order) else old(order) + [saved.id]
    {
      var key: string;
      if id.Some? && id.value != "" {
        key := id.value;
      } else {
        FreshKeyExists(entities.Keys);
        key :| key !in entities && key != "";
      }
      saved := Entity(key, data);
      if key !in entities {
        order := order + [key];
      }
      entities := entities[key := saved];
    }

    /**
      Merges `patch` over the entity stored under `id`; the stored id is kept
      whatever id the patch carries. An absent id changes nothing.
     */
    method Update(id: string, patch: Patch<T>) returns (updated: Option<Entity<T>>)
      requires Valid()
      modifies this
      ensures Valid()
      ensures id !in old(entities) ==> updated == None && entities == old(entities)
      ensures id in old(entities) ==>
        && updated == Some(Entity(id, patch.merge(old(entities)[id].data)))
        && entities == old(entities)[id := updated.value]
      ensures order == old(order)
    {
      if id !in entities {
        return None;
      }
      var merged := Entity(id, patch.merge(entities[id].data));
      entities := entities[id := merged];
      updated := Some(merged);
    }

    /** Removes the entry for `id`, answering whether there was one. */
    method Delete(id: string) returns (removed: bool)
      requires Valid()
      modifies this
      ensures Valid()
      ensures removed == (id in old(entities))
      ensures entities == old(entities) - {id}
      ensures order == Without(old(order), id)
    {
      removed := id in entities;
      entities := entities - {id};
      order := Without(order, id);
    }
  }
}
