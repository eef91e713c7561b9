/**
 The abstract contract of the in-memory text-to-text store.

 Both implementations of the store (the Python class in main.py and the Rust
 `memory_*` functions in lib.rs) are modelled as classes whose state is one
 `Mapping`; each of their operations is specified by a function of this module
 applied to the old state, so both refine the same contract. The lemmas below
 state what that contract promises to callers.
 */
module KeyValue {

  type Key = string
  type Value = string

  /** The store's whole state: each present key has exactly one value. */
  type Mapping = map<Key, Value>

  /** A typed absence for lookups (Python `Optional[str]`, Rust `Option<String>`). */
  datatype Option<+T> = None | Some(value: T)

  /** A batch item: one (key, value) pair. */
  type Pair = (Key, Value)

  // ---------------------------------------------------------------------------
  // Operations on the abstract state
  // ---------------------------------------------------------------------------

  /** The value bound to `k`, or `None` when `k` is absent. */
  function Get(m: Mapping, k: Key): Option<Value>
  {
    if k in m then Some(m[k]) else None
  }

  /** Insert-or-overwrite. */
  function Put(m: Mapping, k: Key, v: Value): Mapping
  {
    m[k := v]
  }

  /** Overwrite only a key that is already present; otherwise no change. */
  function Update(m: Mapping, k: Key, v: Value): Mapping
  {
    if k in m then Put(m, k, v) else m
  }

  /** Remove `k` if present; otherwise no change. */
  function Delete(m: Mapping, k: Key): Mapping
  {
    m - {k}
  }

  /** The empty store, which is both the initial state and the state after clearing. */
  function Empty(): Mapping
  {
    map[]
  }

  /** Sequential insert-or-overwrite of `items`, first pair first. */
  function PutAll(m: Mapping, items: seq<Pair>): Mapping
    decreases |items|
  {
    if items == [] then m else PutAll(Put(m, items[0].0, items[0].1), items[1..])
  }

  /** No key occurs twice in `ks`. */
  predicate Distinct(ks: seq<Key>)
  {
    forall i, j :: 0 <= i < j < |ks| ==> ks[i] != ks[j]
  }

  /** `ks` lists every present key of `m` exactly once, in some order. */
  predicate IsKeyListing(ks: seq<Key>, m: Mapping)
  {
    Distinct(ks) && (set k | k in ks) == m.Keys
  }

  /** `i` is the position of the last pair of `items` whose key is `items[i].0`. */
  predicate IsLastOccurrence(items: seq<Pair>, i: int)
  {
    0 <= i < |items| && forall j :: i < j < |items| ==> items[j].0 != items[i].0
  }

  /** The set of keys that occur in `items`. */
  function BatchKeys(items: seq<Pair>): set<Key>
  {
    set p | p in items :: p.0
  }

  // ---------------------------------------------------------------------------
  // Lookup after each operation
  // ---------------------------------------------------------------------------

  /** Lookup agrees with membership: `Some(v)` exactly when `k` is bound to `v`. */
  lemma GetSomeIff(m: Mapping, k: Key, v: Value)
    ensures Get(m, k) == Some(v) <==> (k in m && m[k] == v)
    ensures Get(m, k) == None <==> k !in m
  {
  }

  /** Nothing is present in a new (or cleared) store. */
  lemma EmptyHasNothing(k: Key)
    ensures Get(Empty(), k) == None
    ensures |Empty()| == 0
  {
  }

  /** After `Put(m, k, v)`, `k` reads `v` and every other key reads as before. */
  lemma GetAfterPut(m: Mapping, k: Key, v: Value, k': Key)
    ensures Get(Put(m, k, v), k') == if k' == k then Some(v) else Get(m, k')
  {
  }

  /** `Put` adds `k` to the key set and nothing else. */
  lemma PutKeys(m: Mapping, k: Key, v: Value)
    ensures Put(m, k, v).Keys == m.Keys + {k}
  {
  }

  /** `Update` on an absent key changes nothing; on a present key it sets the value and keeps the key set. */
  lemma UpdateSpec(m: Mapping, k: Key, v: Value, k': Key)
    ensures k !in m ==> Update(m, k, v) == m
    ensures k in m ==> Get(Update(m, k, v), k) == Some(v)
    ensures Update(m, k, v).Keys == m.Keys
    ensures k' != k ==> Get(Update(m, k, v), k') == Get(m, k')
  {
  }

  /** After `Delete(m, k)`, `k` is absent and every other key reads as before. */
  lemma GetAfterDelete(m: Mapping, k: Key, k': Key)
    ensures Get(Delete(m, k), k') == if k' == k then None else Get(m, k')
    ensures k !in m ==> Delete(m, k) == m
  {
  }

  // ---------------------------------------------------------------------------
  // Size
  // ---------------------------------------------------------------------------

  /** Storing grows the size by one exactly when the key was new. */
  lemma PutSize(m: Mapping, k: Key, v: Value)
    ensures |Put(m, k, v)| == if k in m then |m| else |m| + 1
  {
  }

  /** Deleting shrinks the size by one exactly when the key was present. */
  lemma DeleteSize(m: Mapping, k: Key)
    ensures |Delete(m, k)| == if k in m then |m| - 1 else |m|
  {
  }

  /** Updating never changes the size. */
  lemma UpdateSize(m: Mapping, k: Key, v: Value)
    ensures |Update(m, k, v)| == |m|
  {
  }

  // ---------------------------------------------------------------------------
  // Key listings
  // ---------------------------------------------------------------------------

  /** A duplicate-free sequence has as many elements as its set of elements. */
  lemma {:induction false} DistinctCardinality(ks: seq<Key>)
    requires Distinct(ks)
    ensures |set k | k in ks| == |ks|
  {
    if ks != [] {
      var rest := ks[1..];
      assert Distinct(rest) by {
        forall i, j | 0 <= i < j < |rest| ensures rest[i] != rest[j] {
          assert rest[i] == ks[i + 1] && rest[j] == ks[j + 1];
        }
      }
      DistinctCardinality(rest);
      assert ks[0] !in rest by {
        forall i | 0 <= i < |rest| ensures rest[i] != ks[0] {
          assert rest[i] == ks[i + 1];
        }
      }
      assert (set k | k in ks) == (set k | k in rest) + {ks[0]} by {
        assert ks == [ks[0]] + rest;
      }
    }
  }

  /** Any listing of the keys has exactly `size` entries. */
  lemma ListingLengthIsSize(ks: seq<Key>, m: Mapping)
    requires IsKeyListing(ks, m)
    ensures |ks| == |m|
  {
    DistinctCardinality(ks);
  }

  /** Any two listings of the same store are permutations of each other. */
  lemma {:induction false} ListingsArePermutations(ks: seq<Key>, ks': seq<Key>, m: Mapping)
    requires IsKeyListing(ks, m) && IsKeyListing(ks', m)
    ensures multiset(ks) == multiset(ks')
  {
    forall k ensures multiset(ks)[k] == multiset(ks')[k] {
      DistinctMultiplicity(ks, k);
      DistinctMultiplicity(ks', k);
      assert k in ks <==> k in m.Keys;
      assert k in ks' <==> k in m.Keys;
    }
  }

  /** In a duplicate-free sequence every element occurs once and every other key never. */
  lemma {:induction false} DistinctMultiplicity(ks: seq<Key>, k: Key)
    requires Distinct(ks)
    ensures multiset(ks)[k] == if k in ks then 1 else 0
  {
    if ks != [] {
      var rest := ks[1..];
      assert ks == [ks[0]] + rest;
      assert Distinct(rest) by {
        forall i, j | 0 <= i < j < |rest| ensures rest[i] != rest[j] {
          assert rest[i] == ks[i + 1] && rest[j] == ks[j + 1];
        }
      }
      assert ks[0] !in rest by {
        forall i | 0 <= i < |rest| ensures rest[i] != ks[0] {
          assert rest[i] == ks[i + 1];
        }
      }
      DistinctMultiplicity(rest, k);
      assert multiset(ks) == multiset{ks[0]} + multiset(rest);
    }
  }

  // ---------------------------------------------------------------------------
  // Batch insertion
  // ---------------------------------------------------------------------------

  /** Processing one more pair is one more `Put` on the result so far (the loop step of `store_batch`). */
  lemma {:induction false} PutAllSnoc(m: Mapping, items: seq<Pair>, p: Pair)
    ensures PutAll(m, items + [p]) == Put(PutAll(m, items), p.0, p.1)
    decreases |items|
  {
    if items == [] {
      assert items + [p] == [p];
      assert [p][1..] == [];
    } else {
      assert (items + [p])[0] == items[0];
      assert (items + [p])[1..] == items[1..] + [p];
      PutAllSnoc(Put(m, items[0].0, items[0].1), items[1..], p);
    }
  }

  /** A batch splits into any prefix followed by the rest. */
  lemma {:induction false} PutAllAppend(m: Mapping, xs: seq<Pair>, ys: seq<Pair>)
    ensures PutAll(m, xs + ys) == PutAll(PutAll(m, xs), ys)
    decreases |xs|
  {
    if xs == [] {
      assert xs + ys == ys;
    } else {
      assert (xs + ys)[0] == xs[0];
      assert (xs + ys)[1..] == xs[1..] + ys;
      PutAllAppend(Put(m, xs[0].0, xs[0].1), xs[1..], ys);
    }
  }

  /** After a batch, the key set is the old key set plus every key of the batch. */
  lemma {:induction false} PutAllKeys(m: Mapping, items: seq<Pair>)
    ensures PutAll(m, items).Keys == m.Keys + BatchKeys(items)
    decreases |items|
  {
    if items != [] {
      var rest := items[1..];
      PutAllKeys(Put(m, items[0].0, items[0].1), rest);
      assert items == [items[0]] + rest;
      assert BatchKeys(items) == {items[0].0} + BatchKeys(rest);
    }
  }

  /** A key that no pair of the batch mentions keeps its old binding (or stays absent). */
  lemma {:induction false} PutAllUntouched(m: Mapping, items: seq<Pair>, k: Key)
    requires forall j :: 0 <= j < |items| ==> items[j].0 != k
    ensures Get(PutAll(m, items), k) == Get(m, k)
    decreases |items|
  {
    if items != [] {
      PutAllUntouched(Put(m, items[0].0, items[0].1), items[1..], k);
    }
  }

  /** Last write wins: the key of the last pair with that key ends up bound to that pair's value. */
  lemma {:induction false} PutAllLastWins(m: Mapping, items: seq<Pair>, i: int)
    requires IsLastOccurrence(items, i)
    ensures Get(PutAll(m, items), items[i].0) == Some(items[i].1)
    decreases |items|
  {
    var m' := Put(m, items[0].0, items[0].1);
    if i == 0 {
      PutAllUntouched(m', items[1..], items[0].0);
    } else {
      PutAllLastWins(m', items[1..], i - 1);
    }
  }

  /** A batch holds at most as many distinct keys as pairs. */
  lemma {:induction false} BatchKeysBound(items: seq<Pair>)
    ensures |BatchKeys(items)| <= |items|
    decreases |items|
  {
    if items != [] {
      var rest := items[1..];
      BatchKeysBound(rest);
      assert items == [items[0]] + rest;
      assert BatchKeys(items) == {items[0].0} + BatchKeys(rest);
    }
  }

  /** The count `store_batch` returns bounds how much the store can grow: repeated keys in a
      batch are counted in the result but add at most one key each to the store. */
  lemma PutAllSize(m: Mapping, items: seq<Pair>)
    ensures |m| <= |PutAll(m, items)| <= |m| + |items|
  {
    PutAllKeys(m, items);
    BatchKeysBound(items);
    var after := PutAll(m, items);
    assert |after.Keys| <= |m.Keys| + |BatchKeys(items)| by {
      assert after.Keys == m.Keys + (BatchKeys(items) - m.Keys);
    }
    assert |m.Keys| <= |after.Keys| by {
      assert after.Keys == m.Keys + (after.Keys - m.Keys);
    }
  }
}
