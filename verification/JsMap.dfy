/** A JavaScript `Map`: values by key, iterated in the order in which keys were first set. */
module JsMap {
  import opened Common

  datatype JsMap<K(==,!new), V> = JsMap(keys: seq<K>, at: map<K, V>) {
    ghost predicate Valid() {
      && (forall k :: k in keys <==> k in at)
      && Distinct(keys)
    }

    predicate Has(k: K) {
      k in at
    }

    function Put(k: K, v: V): JsMap<K, V> {
      JsMap(if k in at then keys else keys + [k], at[k := v])
    }

    function Remove(k: K): JsMap<K, V> {
      JsMap(Others(keys, k), at - {k})
    }
  }

  lemma PutNew<K(!new), V>(m: JsMap<K, V>, k: K, v: V)
    requires m.Valid() && k !in m.at
    ensures m.Put(k, v).Valid() && m.Put(k, v) == JsMap(m.keys + [k], m.at[k := v])
  {
  }

  function Empty<K(!new), V>(): JsMap<K, V> {
    JsMap([], map[])
  }

  lemma EmptyValid<K(!new), V>()
    ensures Empty<K, V>().Valid()
  {
  }

  function Others<K(==,!new)>(keys: seq<K>, k: K): (r: seq<K>)
    ensures forall x :: x in r <==> x in keys && x != k
  {
    if keys == [] then [] else (if keys[0] == k then [] else [keys[0]]) + Others(keys[1..], k)
  }

  lemma {:induction false} OthersDistinct<K(!new)>(keys: seq<K>, k: K)
    requires Distinct(keys)
    ensures Distinct(Others(keys, k))
  {
    if keys != [] {
      assert keys == [keys[0]] + keys[1..];
      DistinctFront(keys[0], keys[1..]);
      OthersDistinct(keys[1..], k);
      DistinctFront(keys[0], Others(keys[1..], k));
    }
  }

  lemma PutValid<K(!new), V>(m: JsMap<K, V>, k: K, v: V)
    requires m.Valid()
    ensures m.Put(k, v).Valid()
  {
  }

  lemma RemoveValid<K(!new), V>(m: JsMap<K, V>, k: K)
    requires m.Valid()
    ensures m.Remove(k).Valid()
  {
    OthersDistinct(m.keys, k);
  }
}
