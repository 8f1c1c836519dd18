/**
 * The in-memory latest-value store: one payload per drone id, overwritten
 * on each put; listing returns the payloads in the order their ids were
 * first put (the iteration order of a Python dict).
 */
module Store {

  /** The payloads of `keys`, in the order of `keys`. */
  function ValuesOf<T>(keys: seq<string>, items: map<string, T>): (r: seq<T>)
    requires forall k :: k in keys ==> k in items
    ensures |r| == |keys|
    ensures forall i :: 0 <= i < |keys| ==> r[i] == items[keys[i]]
  {
    if keys == [] then [] else [items[keys[0]]] + ValuesOf(keys[1..], items)
  }

  /** No id occurs twice. */
  predicate Distinct(keys: seq<string>) {
    forall i, j :: 0 <= i < j < |keys| ==> keys[i] != keys[j]
  }

  /** The shape of the dict: its keys in insertion order, each once, and its entries. */
  ghost predicate WellFormed<T>(keys: seq<string>, items: map<string, T>) {
    Distinct(keys) && (forall k :: k in keys <==> k in items)
  }

  /** How a put changes the key order: a new id goes to the end, an old one stays put. */
  function KeysAfterPut<T>(keys: seq<string>, items: map<string, T>, id: string): seq<string> {
    if id in items then keys else keys + [id]
  }

  class InMemoryTelemetryStore<T> {
    var keys: seq<string>
    var items: map<string, T>

    ghost predicate Valid()
      reads this
    {
      WellFormed(keys, items)
    }

    /** What `get_all_latest` lists. */
    function Latest(): seq<T>
      reads this
      requires Valid()
    {
      ValuesOf(keys, items)
    }

    constructor ()
      ensures Valid()
      ensures items == map[] && keys == []
      ensures Latest() == []
    {
      keys := [];
      items := map[];
    }

    /** `put_latest`: the id now maps to the payload, nothing else changes. */
    method PutLatest(droneId: string, payload: T)
      requires Valid()
      modifies this
      ensures Valid()
      ensures items == old(items)[droneId := payload]
      ensures keys == KeysAfterPut(old(keys), old(items), droneId)
    {
      if droneId !in items {
        keys := keys + [droneId];
      }
      items := items[droneId := payload];
    }

    /** `get_all_latest`: a snapshot of the payloads; the store is not changed. */
    method GetAllLatest() returns (r: seq<T>)
      requires Valid()
      ensures r == Latest()
    {
      r := ValuesOf(keys, items);
    }
  }

  /** Keeping the dict's shape: a put leaves the keys distinct and in step with the entries. */
  lemma PutKeepsWellFormed<T>(keys: seq<string>, items: map<string, T>, id: string, p: T)
    requires WellFormed(keys, items)
    ensures WellFormed(KeysAfterPut(keys, items, id), items[id := p])
  {
  }

  /**
   * After a put the listing holds the new payload exactly where the id sits:
   * in the old position when the id was known (a replacement, so at most one
   * entry per id), at the end otherwise; every other entry is unchanged.
   */
  lemma {:induction false} ListingAfterPut<T>(keys: seq<string>, items: map<string, T>, id: string, p: T)
    requires WellFormed(keys, items)
    ensures id in items ==> exists i :: (0 <= i < |keys| && keys[i] == id
      && ValuesOf(KeysAfterPut(keys, items, id), items[id := p]) == ValuesOf(keys, items)[i := p])
    ensures id !in items ==> ValuesOf(KeysAfterPut(keys, items, id), items[id := p]) == ValuesOf(keys, items) + [p]
    ensures p in ValuesOf(KeysAfterPut(keys, items, id), items[id := p])
  {
    if id in items {
      assert id in keys;
      var i :| 0 <= i < |keys| && keys[i] == id;
      ReplacedAt(keys, items, i, p);
      assert ValuesOf(keys, items[id := p])[i] == p;
    } else {
      AppendedAtEnd(keys, items, id, p);
      assert ValuesOf(keys + [id], items[id := p])[|keys|] == p;
    }
  }

  /** Overwriting the entry of the id at position `i` changes only position `i` of the listing. */
  lemma {:induction false} ReplacedAt<T>(keys: seq<string>, items: map<string, T>, i: nat, p: T)
    requires WellFormed(keys, items) && i < |keys|
    ensures ValuesOf(keys, items[keys[i] := p]) == ValuesOf(keys, items)[i := p]
  {
    var after := ValuesOf(keys, items[keys[i] := p]);
    var before := ValuesOf(keys, items);
    forall j | 0 <= j < |keys| ensures after[j] == before[i := p][j] {
      if j != i {
        assert keys[j] != keys[i];
      }
    }
  }

  /** Putting a new id appends its payload to the listing. */
  lemma {:induction false} AppendedAtEnd<T>(keys: seq<string>, items: map<string, T>, id: string, p: T)
    requires WellFormed(keys, items) && id !in items
    ensures ValuesOf(keys + [id], items[id := p]) == ValuesOf(keys, items) + [p]
  {
    var after := ValuesOf(keys + [id], items[id := p]);
    var before := ValuesOf(keys, items);
    forall j | 0 <= j < |keys| + 1 ensures after[j] == (before + [p])[j] {
      if j < |keys| {
        assert (keys + [id])[j] == keys[j] && keys[j] != id;
      }
    }
  }

  /** The number of ids listed is the number of distinct ids put. */
  lemma {:induction false} ListingSize<T>(keys: seq<string>, items: map<string, T>)
    requires WellFormed(keys, items)
    ensures |ValuesOf(keys, items)| == |items|
  {
    DistinctCard(keys);
    assert (set k | k in keys) == items.Keys;
  }

  lemma {:induction false} DistinctCard(keys: seq<string>)
    requires Distinct(keys)
    ensures |set k | k in keys| == |keys|
  {
    if keys != [] {
      var rest := keys[1..];
      assert Distinct(rest) by {
        forall i, j | 0 <= i < j < |rest| ensures rest[i] != rest[j] {
          assert rest[i] == keys[i + 1] && rest[j] == keys[j + 1];
        }
      }
      DistinctCard(rest);
      assert keys[0] !in rest by {
        forall j | 0 <= j < |rest| ensures rest[j] != keys[0] {
          assert rest[j] == keys[j + 1];
        }
      }
      assert (set k | k in keys) == (set k | k in rest) + {keys[0]};
    }
  }
}
