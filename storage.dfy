/**
 * An in-memory model of the storage capability a storage-backed job uses:
 * named collections of records, a point lookup by id (`get`) and an equality
 * scan (`where(field, EQ, value)`).
 */
module Store {
  import opened Values

  /** A record matches `field == value` when it has the field and the field holds the value. */
  predicate Matches(r: Dict, field: string, value: Value) {
    field in r && r[field] == value
  }

  /** The equality scan: the records matching `field == value`, in collection order. */
  function Select(records: seq<Dict>, field: string, value: Value): (rs: seq<Dict>)
    ensures |rs| <= |records|
    ensures forall r :: r in rs ==> r in records && Matches(r, field, value)
    ensures forall r :: r in records && Matches(r, field, value) ==> r in rs
    ensures multiset(rs) <= multiset(records)
  {
    if records == [] then []
    else
      var rest := Select(records[1..], field, value);
      assert records == [records[0]] + records[1..];
      if Matches(records[0], field, value) then [records[0]] + rest else rest
  }

  /** The scan of two stretches of a collection is the scan of the first followed by the scan of the second. */
  lemma {:induction false} SelectAppend(a: seq<Dict>, b: seq<Dict>, field: string, value: Value)
    ensures Select(a + b, field, value) == Select(a, field, value) + Select(b, field, value)
  {
    if a == [] {
      assert a + b == b;
    } else {
      assert (a + b)[0] == a[0];
      assert (a + b)[1..] == a[1..] + b;
      SelectAppend(a[1..], b, field, value);
    }
  }

  /** The point lookup: the first record whose `id` is `key`, or None when there is none (`NotFound`). */
  function Find(records: seq<Dict>, key: Value): (r: Option<Dict>)
    ensures r.None? <==> forall i :: 0 <= i < |records| ==> !Matches(records[i], "id", key)
    ensures r.Some? ==> exists i :: 0 <= i < |records| && records[i] == r.value && Matches(r.value, "id", key)
                                    && forall j :: 0 <= j < i ==> !Matches(records[j], "id", key)
  {
    if records == [] then None
    else if Matches(records[0], "id", key) then Some(records[0])
    else
      var r := Find(records[1..], key);
      assert forall i :: 1 <= i < |records| ==> records[i] == records[1..][i - 1];
      r
  }

  /** The storage backend, a map from collection name to the records stored in it. */
  class Storage {
    var collections: map<string, seq<Dict>>

    constructor (collections: map<string, seq<Dict>>)
      ensures this.collections == collections
    {
      this.collections := collections;
    }

    /** `collection(name)`: the records of the named collection; a collection never written to is empty. */
    function Collection(name: string): (rs: seq<Dict>)
      reads this
      ensures name in collections ==> rs == collections[name]
      ensures name !in collections ==> rs == []
    {
      if name in collections then collections[name] else []
    }

    /** `collection(name).get(key)`: the first record of the collection with id `key`, or None (`NotFound`). */
    function Get(name: string, key: Value): (r: Option<Dict>)
      reads this
      ensures r.None? <==> forall rec :: rec in Collection(name) ==> !Matches(rec, "id", key)
      ensures r.Some? ==> r.value in Collection(name) && Matches(r.value, "id", key)
      ensures r.Some? ==> exists i :: 0 <= i < |Collection(name)| && Collection(name)[i] == r.value
                                      && forall j :: 0 <= j < i ==> !Matches(Collection(name)[j], "id", key)
    {
      Find(Collection(name), key)
    }

    /** `collection(name).where(field, EQ, value)`: the matching records of the collection, in its order. */
    function Where(name: string, field: string, value: Value): (rs: seq<Dict>)
      reads this
      ensures forall r :: r in rs <==> r in Collection(name) && Matches(r, field, value)
      ensures multiset(rs) <= multiset(Collection(name))
      ensures name !in collections ==> rs == []
    {
      Select(Collection(name), field, value)
    }
  }
}
