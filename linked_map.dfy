/**
 * An insertion-ordered map (java.util.LinkedHashMap): the keys in the order
 * they were first put, and the current value of each. Putting a key that is
 * already present replaces its value and keeps its place.
 */
module LinkedMaps {
  import opened Wrappers

  datatype LinkedMap<K(==), V> = LinkedMap(keys: seq<K>, values: map<K, V>)

  /** Keys are listed once each, and exactly the keys of the map are listed. */
  ghost predicate Valid<K(!new), V>(m: LinkedMap<K, V>) {
    && (forall i, j :: 0 <= i < j < |m.keys| ==> m.keys[i] != m.keys[j])
    && (forall k :: k in m.values <==> k in m.keys)
  }

  function Empty<K(==), V>(): LinkedMap<K, V> {
    LinkedMap([], map[])
  }

  function Put<K(==), V>(m: LinkedMap<K, V>, k: K, v: V): LinkedMap<K, V> {
    if k in m.values then m.(values := m.values[k := v]) else LinkedMap(m.keys + [k], m.values[k := v])
  }

  /** `LinkedHashMap.get`: None for a missing key. */
  function Lookup<K(==), V>(m: LinkedMap<K, V>, k: K): Option<V> {
    if k in m.values then Some(m.values[k]) else None
  }

  /** The map a sequence of puts builds, starting from the empty map. */
  function PutAll<K(==), V>(entries: seq<(K, V)>): LinkedMap<K, V> {
    if entries == [] then Empty()
    else
      var (k, v) := entries[|entries| - 1];
      Put(PutAll(entries[..|entries| - 1]), k, v)
  }

  function KeysOf<K(==), V>(entries: seq<(K, V)>): (ks: seq<K>)
    ensures |ks| == |entries|
    ensures forall i :: 0 <= i < |entries| ==> ks[i] == entries[i].0
  {
    seq(|entries|, i requires 0 <= i < |entries| => entries[i].0)
  }

  /** The position of the first occurrence. */
  function FirstIndex<K(==)>(xs: seq<K>, k: K): (r: nat)
    requires k in xs
    ensures r < |xs| && xs[r] == k && k !in xs[..r]
  {
    var front := xs[..|xs| - 1];
    if k in front then
      var r := FirstIndex(front, k);
      assert front[..r] == xs[..r];
      r
    else
      assert xs[..|xs| - 1] == front;
      |xs| - 1
  }

  /** The position of the last occurrence. */
  function LastIndex<K(==)>(xs: seq<K>, k: K): (r: nat)
    requires k in xs
    ensures r < |xs| && xs[r] == k
    ensures forall j :: r < j < |xs| ==> xs[j] != k
  {
    if xs[|xs| - 1] == k then |xs| - 1
    else
      assert k in xs[..|xs| - 1] by {
        var i :| 0 <= i < |xs| && xs[i] == k;
        assert xs[..|xs| - 1][i] == k;
      }
      LastIndex(xs[..|xs| - 1], k)
  }

  lemma FirstIndexExtend<K(!new)>(xs: seq<K>, x: K, q: K)
    requires q in xs
    ensures FirstIndex(xs + [x], q) == FirstIndex(xs, q)
  {
    assert (xs + [x])[..|xs|] == xs;
  }

  lemma FirstIndexNew<K(!new)>(xs: seq<K>, x: K)
    requires x !in xs
    ensures FirstIndex(xs + [x], x) == |xs|
  {
    var ys := xs + [x];
    assert ys[..|ys| - 1] == xs;
    assert x !in ys[..|ys| - 1];
  }

  lemma LastIndexExtend<K(!new)>(xs: seq<K>, x: K, q: K)
    requires q in xs && q != x
    ensures LastIndex(xs + [x], q) == LastIndex(xs, q)
  {
    assert (xs + [x])[..|xs|] == xs;
  }

  /** A sequence of puts lists each key once, and exactly the keys that were put. */
  lemma {:induction false} PutAllKeys<K(!new), V>(entries: seq<(K, V)>)
    ensures Valid(PutAll(entries))
    ensures forall k :: k in PutAll(entries).values <==> k in KeysOf(entries)
  {
    if entries != [] {
      var front := entries[..|entries| - 1];
      PutAllKeys(front);
      assert KeysOf(entries) == KeysOf(front) + [entries[|entries| - 1].0];
    }
  }

  /** Each key holds the value of its last put. */
  lemma {:induction false} PutAllValues<K(!new), V>(entries: seq<(K, V)>)
    ensures forall k :: k in PutAll(entries).values ==>
      k in KeysOf(entries) && PutAll(entries).values[k] == entries[LastIndex(KeysOf(entries), k)].1
  {
    PutAllKeys(entries);
    if entries != [] {
      var front := entries[..|entries| - 1];
      var (k, v) := entries[|entries| - 1];
      PutAllValues(front);
      var m := PutAll(entries);
      var fks := KeysOf(front);
      assert KeysOf(entries) == fks + [k];
      forall q | q in m.values
        ensures m.values[q] == entries[LastIndex(KeysOf(entries), q)].1
      {
        if q != k {
          LastIndexExtend(fks, k, q);
        }
      }
    }
  }

  /** `xs` lists keys of `ks`, in the order of each one's first occurrence there. */
  predicate InFirstOrder<K(==)>(xs: seq<K>, ks: seq<K>) {
    forall a, b :: 0 <= a < b < |xs| ==> xs[a] in ks && xs[b] in ks && FirstIndex(ks, xs[a]) < FirstIndex(ks, xs[b])
  }

  /** The keys are listed in the order of their first put. */
  lemma {:induction false} PutAllOrder<K(!new), V>(entries: seq<(K, V)>)
    ensures InFirstOrder(PutAll(entries).keys, KeysOf(entries))
  {
    PutAllKeys(entries);
    if entries != [] {
      var front := entries[..|entries| - 1];
      var (k, v) := entries[|entries| - 1];
      PutAllKeys(front);
      PutAllOrder(front);
      var prev := PutAll(front);
      var m := PutAll(entries);
      var fks := KeysOf(front);
      var ks := KeysOf(entries);
      assert ks == fks + [k];
      forall a, b | 0 <= a < b < |m.keys|
        ensures FirstIndex(ks, m.keys[a]) < FirstIndex(ks, m.keys[b])
      {
        FirstIndexExtend(fks, k, m.keys[a]);
        if b < |prev.keys| {
          FirstIndexExtend(fks, k, m.keys[b]);
        } else {
          FirstIndexNew(fks, k);
        }
      }
    }
  }

  /** With pairwise different keys, the puts list the keys in put order and each key holds its one value. */
  lemma {:induction false} PutAllDistinct<K(!new), V>(entries: seq<(K, V)>)
    requires forall i, j :: 0 <= i < j < |entries| ==> entries[i].0 != entries[j].0
    ensures PutAll(entries).keys == KeysOf(entries)
    ensures forall i :: 0 <= i < |entries| ==> Lookup(PutAll(entries), entries[i].0) == Some(entries[i].1)
  {
    if entries != [] {
      var front := entries[..|entries| - 1];
      var (k, v) := entries[|entries| - 1];
      PutAllDistinct(front);
      PutAllKeys(front);
      assert k !in KeysOf(front) by {
        forall i | 0 <= i < |front|
          ensures KeysOf(front)[i] != k
        {
          assert front[i] == entries[i];
        }
      }
      assert KeysOf(entries) == KeysOf(front) + [k];
    }
  }

  /** Iterating `keySet()` and calling `get` on each key: the entries in key order. */
  function Entries<K(==), V>(m: LinkedMap<K, V>): seq<(K, Option<V>)> {
    seq(|m.keys|, i requires 0 <= i < |m.keys| => (m.keys[i], Lookup(m, m.keys[i])))
  }

  /** Walking the map a run of puts builds: every key put appears, with the value of its last put. */
  lemma EntriesOfPutAllKeys<K(!new), V>(entries: seq<(K, V)>)
    ensures forall k :: k in KeysOf(entries) ==>
      (k, Some(entries[LastIndex(KeysOf(entries), k)].1)) in Entries(PutAll(entries))
  {
    PutAllKeys(entries);
    PutAllValues(entries);
    var m := PutAll(entries);
    var es := Entries(m);
    forall k | k in KeysOf(entries)
      ensures (k, Some(entries[LastIndex(KeysOf(entries), k)].1)) in es
    {
      assert k in m.values;
      assert k in m.keys;
      var i :| 0 <= i < |m.keys| && m.keys[i] == k;
      assert es[i] == (k, Lookup(m, k));
    }
  }

  /** Walking the map a run of puts builds: the keys come in the order of their first put, so each comes once. */
  lemma {:induction false} EntriesOfPutAllOrder<K(!new), V>(entries: seq<(K, V)>)
    ensures InFirstOrder(KeysOf(Entries(PutAll(entries))), KeysOf(entries))
  {
    PutAllOrder(entries);
    var m := PutAll(entries);
    assert KeysOf(Entries(m)) == m.keys;
  }

  /** Walking the map a run of puts builds: each key holds the value of its last put. */
  lemma EntriesOfPutAllValues<K(!new), V>(entries: seq<(K, V)>)
    ensures var es := Entries(PutAll(entries));
      forall i :: 0 <= i < |es| ==>
        es[i].0 in KeysOf(entries) && es[i].1 == Some(entries[LastIndex(KeysOf(entries), es[i].0)].1)
  {
    PutAllKeys(entries);
    PutAllValues(entries);
  }
}
