/**
 * A JavaScript `Map<number, V>`: a key/value table that iterates its entries
 * in the order their keys were first inserted. Setting an existing key keeps its
 * place; deleting a key removes it from the order.
 */
module OrderedMap {
  import opened Wrappers
  import opened Seqs

  datatype Table<V> = Table(keys: seq<int>, entries: map<int, V>) {

    /** The insertion order lists each key of the table exactly once. */
    ghost predicate Valid() {
      && (forall i, j :: 0 <= i < j < |keys| ==> keys[i] != keys[j])
      && (forall k :: k in entries <==> k in keys)
    }

    /** `map.has(k)` */
    predicate Has(k: int) {
      k in entries
    }

    /** `map.get(k)`: `None` stands for `undefined`. */
    function Get(k: int): (r: Option<V>)
      ensures r.Some? <==> k in entries
      ensures r.Some? ==> r.value == entries[k]
    {
      if k in entries then Some(entries[k]) else None
    }

    /** `map.set(k, v)`: a new key goes to the end of the order, a present one keeps its place. */
    function Set(k: int, v: V): (t: Table<V>)
      ensures Valid() ==> t.Valid()
      ensures t.Get(k) == Some(v)
      ensures forall j :: j != k ==> t.Get(j) == Get(j)
      ensures k !in entries ==> t.keys == keys + [k]
      ensures k in entries ==> t.keys == keys
    {
      if k in entries then Table(keys, entries[k := v]) else Table(keys + [k], entries[k := v])
    }

    /** `map.delete` for every key in `gone`; `Delete(k)` is the one-key case. */
    function DeleteAll(gone: set<int>): (t: Table<V>)
      ensures Valid() ==> t.Valid()
      ensures forall j :: j in gone ==> t.Get(j) == None
      ensures forall j :: j !in gone ==> t.Get(j) == Get(j)
    {
      var t := Table(Filter(keys, NotIn(gone)), entries - gone);
      assert Valid() ==> t.Valid() by {
        if Valid() {
          FilterDistinct(keys, NotIn(gone));
          forall k | k in t.entries ensures k in t.keys {
            var i :| 0 <= i < |keys| && keys[i] == k;
          }
        }
      }
      t
    }

    /** `map.delete(k)` */
    function Delete(k: int): (t: Table<V>)
      ensures Valid() ==> t.Valid()
      ensures t.Get(k) == None
      ensures forall j :: j != k ==> t.Get(j) == Get(j)
    {
      DeleteAll({k})
    }

    /** `Array.from(map.values())`: the values in key insertion order. */
    function Values(): seq<V> {
      ValuesOf(keys, entries)
    }
  }

  /** The predicate "not one of `gone`" on keys. */
  function NotIn(gone: set<int>): int -> bool {
    k => k !in gone
  }

  /** The values stored under `keys`, in the order of `keys`. */
  function ValuesOf<V>(keys: seq<int>, entries: map<int, V>): (r: seq<V>)
    ensures |r| <= |keys|
  {
    if keys == [] then []
    else (if keys[0] in entries then [entries[keys[0]]] else []) + ValuesOf(keys[1..], entries)
  }

  /** Every value comes from a key in `keys`. */
  lemma {:induction false} ValuesOfSound<V>(keys: seq<int>, entries: map<int, V>, v: V)
    requires v in ValuesOf(keys, entries)
    ensures exists k :: k in keys && k in entries && entries[k] == v
  {
    var k0 := keys[0];
    if k0 in entries && entries[k0] == v {
      assert k0 in keys && k0 in entries && entries[k0] == v;
    } else {
      ValuesOfSound(keys[1..], entries, v);
      var k :| k in keys[1..] && k in entries && entries[k] == v;
      assert k in keys;
    }
  }

  /** Every stored value shows up among the values. */
  lemma {:induction false} ValuesOfComplete<V>(keys: seq<int>, entries: map<int, V>, k: int)
    requires k in keys && k in entries
    ensures entries[k] in ValuesOf(keys, entries)
  {
    if keys[0] != k {
      ValuesOfComplete(keys[1..], entries, k);
    }
  }

  /** Each value `Array.from(map.values())` lists is stored under some key, and in a well-formed table every stored value is listed. */
  lemma ValuesStored<V>(t: Table<V>)
    ensures forall v :: v in t.Values() ==> exists k :: k in t.entries && t.entries[k] == v
    ensures t.Valid() ==> forall k :: t.Has(k) ==> t.entries[k] in t.Values()
  {
    forall v | v in t.Values() ensures exists k :: k in t.entries && t.entries[k] == v {
      ValuesOfSound(t.keys, t.entries, v);
    }
    forall k | t.Valid() && t.Has(k) ensures t.entries[k] in t.Values() {
      ValuesOfComplete(t.keys, t.entries, k);
    }
  }

  /** A filter keeps distinct elements distinct. */
  lemma {:induction false} FilterDistinct(s: seq<int>, p: int -> bool)
    requires forall i, j :: 0 <= i < j < |s| ==> s[i] != s[j]
    ensures forall i, j :: 0 <= i < j < |Filter(s, p)| ==> Filter(s, p)[i] != Filter(s, p)[j]
  {
    if s != [] {
      FilterDistinct(s[1..], p);
      var r := Filter(s, p);
      if p(s[0]) {
        assert r == [s[0]] + Filter(s[1..], p);
        forall j | 0 < j < |r| ensures r[0] != r[j] {
          assert r[j] in s[1..];
        }
      }
    }
  }

  /** Appending a key appends its value. */
  lemma {:induction false} ValuesOfAppendKey<V>(keys: seq<int>, entries: map<int, V>, k: int)
    requires k in entries
    ensures ValuesOf(keys + [k], entries) == ValuesOf(keys, entries) + [entries[k]]
  {
    if keys == [] {
      assert ValuesOf([k], entries) == [entries[k]] + ValuesOf([], entries);
    } else {
      var head := if keys[0] in entries then [entries[keys[0]]] else [];
      assert (keys + [k])[0] == keys[0];
      assert (keys + [k])[1..] == keys[1..] + [k];
      assert ValuesOf(keys + [k], entries) == head + ValuesOf(keys[1..] + [k], entries);
      ValuesOfAppendKey(keys[1..], entries, k);
      assert ValuesOf(keys, entries) == head + ValuesOf(keys[1..], entries);
    }
  }

  /** Storing under a key outside `keys` does not change the values under `keys`. */
  lemma {:induction false} ValuesOfOtherKey<V>(keys: seq<int>, entries: map<int, V>, k: int, v: V)
    requires k !in keys
    ensures ValuesOf(keys, entries[k := v]) == ValuesOf(keys, entries)
  {
    if keys != [] {
      ValuesOfOtherKey(keys[1..], entries, k, v);
    }
  }

  /** A table that gains a new key gains its value at the end of `Values()`. */
  lemma ValuesSetNew<V>(t: Table<V>, k: int, v: V)
    requires t.Valid() && !t.Has(k)
    ensures t.Set(k, v).Values() == t.Values() + [v]
  {
    ValuesOfAppendKey(t.keys, t.entries[k := v], k);
    ValuesOfOtherKey(t.keys, t.entries, k, v);
  }

  /**
   * Deleting exactly the keys whose values fail `keep` leaves the values
   * that satisfy `keep`, in their order.
   */
  lemma {:induction false} ValuesOfDeleteWhere<V>(keys: seq<int>, entries: map<int, V>, gone: set<int>, keep: V -> bool)
    requires forall i :: 0 <= i < |keys| ==> keys[i] in entries && (keys[i] in gone <==> !keep(entries[keys[i]]))
    ensures ValuesOf(Filter(keys, NotIn(gone)), entries - gone) == Filter(ValuesOf(keys, entries), keep)
  {
    if keys != [] {
      ValuesOfDeleteWhere(keys[1..], entries, gone, keep);
      var rest := ValuesOf(keys[1..], entries);
      var kept := Filter(keys[1..], NotIn(gone));
      if keys[0] in gone {
        assert Filter(keys, NotIn(gone)) == kept;
      } else {
        assert Filter(keys, NotIn(gone)) == [keys[0]] + kept;
        assert ([keys[0]] + kept)[1..] == kept;
      }
      assert ValuesOf(keys, entries) == [entries[keys[0]]] + rest;
      assert Filter(ValuesOf(keys, entries), keep)
          == (if keep(entries[keys[0]]) then [entries[keys[0]]] else []) + Filter(rest, keep);
    }
  }

  /** Deleting no key changes nothing. */
  lemma DeleteNothing<V>(t: Table<V>)
    ensures t.DeleteAll({}) == t
  {
    FilterKeepsAll(t.keys, NotIn({}));
    assert t.entries - {} == t.entries;
  }

  /** Deleting one set of keys and then another is deleting their union. */
  lemma DeleteAllTwice<V>(t: Table<V>, a: set<int>, b: set<int>)
    ensures t.DeleteAll(a).DeleteAll(b) == t.DeleteAll(a + b)
  {
    FilterFilter(t.keys, NotIn(a), NotIn(b), NotIn(a + b));
    assert (t.entries - a) - b == t.entries - (a + b);
  }
}
