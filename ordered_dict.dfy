/** Python's insertion-ordered `dict` as an association list: assigning to an
    existing key replaces its value where it stands, a new key goes to the
    end. */
module OrderedDict {
  import opened Wrappers

  type Dict<K, V> = seq<(K, V)>

  function Keys<K, V>(d: Dict<K, V>): seq<K> {
    seq(|d|, i requires 0 <= i < |d| => d[i].0)
  }

  function Values<K, V>(d: Dict<K, V>): seq<V> {
    seq(|d|, i requires 0 <= i < |d| => d[i].1)
  }

  /** `d.get(k)`: the value of the first entry with key `k`. */
  function Lookup<K(==), V>(d: Dict<K, V>, k: K): Option<V> {
    if d == [] then None
    else if d[0].0 == k then Some(d[0].1)
    else Lookup(d[1..], k)
  }

  /** `d[k] = v` */
  function Put<K(==), V>(d: Dict<K, V>, k: K, v: V): Dict<K, V> {
    if d == [] then [(k, v)]
    else if d[0].0 == k then [(k, v)] + d[1..]
    else [d[0]] + Put(d[1..], k, v)
  }

  /** `for k, v in kvs: d[k] = v` */
  function PutAll<K(==), V>(d: Dict<K, V>, kvs: seq<(K, V)>): Dict<K, V>
    decreases |kvs|
  {
    if kvs == [] then d else PutAll(Put(d, kvs[0].0, kvs[0].1), kvs[1..])
  }

  predicate DistinctKeys<K(==), V>(d: Dict<K, V>) {
    forall i, j :: 0 <= i < j < |d| ==> d[i].0 != d[j].0
  }

  /** The elements of `ks` that are not in `seen`, each at its first
      occurrence, in order. */
  function Fresh<K(==)>(ks: seq<K>, seen: seq<K>): seq<K> {
    if ks == [] then []
    else if ks[0] in seen then Fresh(ks[1..], seen)
    else [ks[0]] + Fresh(ks[1..], seen + [ks[0]])
  }

  /** The value of the last entry of `kvs` with key `k`. */
  function LastValue<K(==), V>(kvs: seq<(K, V)>, k: K): Option<V> {
    if kvs == [] then None
    else if kvs[|kvs| - 1].0 == k then Some(kvs[|kvs| - 1].1)
    else LastValue(kvs[..|kvs| - 1], k)
  }

  // ---------------------------------------------------------------------

  lemma {:induction false} PutKeys<K, V>(d: Dict<K, V>, k: K, v: V)
    ensures Keys(Put(d, k, v)) == if k in Keys(d) then Keys(d) else Keys(d) + [k]
  {
    if d != [] && d[0].0 != k {
      PutKeys(d[1..], k, v);
      assert Keys(d) == [d[0].0] + Keys(d[1..]);
      assert Keys(Put(d, k, v)) == [d[0].0] + Keys(Put(d[1..], k, v));
    } else if d != [] {
      assert Keys(d)[0] == k;
      assert Keys(Put(d, k, v)) == Keys(d);
    }
  }

  lemma {:induction false} PutLookup<K, V>(d: Dict<K, V>, k: K, v: V, k': K)
    ensures Lookup(Put(d, k, v), k') == if k' == k then Some(v) else Lookup(d, k')
  {
    if d != [] && d[0].0 != k {
      PutLookup(d[1..], k, v, k');
    }
  }

  /** The keys of a dictionary filled by a loop: the old keys in their old
      places, then each new key where it was first inserted. */
  lemma {:induction false} PutAllKeys<K, V>(d: Dict<K, V>, kvs: seq<(K, V)>)
    ensures Keys(PutAll(d, kvs)) == Keys(d) + Fresh(Keys(kvs), Keys(d))
    decreases |kvs|
  {
    if kvs != [] {
      var (k, v) := kvs[0];
      var d' := Put(d, k, v);
      var ks := Keys(kvs);
      assert ks[0] == k && ks[1..] == Keys(kvs[1..]);
      PutKeys(d, k, v);
      PutAllKeys(d', kvs[1..]);
      if k in Keys(d) {
        assert Fresh(ks, Keys(d)) == Fresh(Keys(kvs[1..]), Keys(d));
      } else {
        var tail := Fresh(Keys(kvs[1..]), Keys(d) + [k]);
        assert Fresh(ks, Keys(d)) == [k] + tail;
        assert Keys(d) + [k] + tail == Keys(d) + ([k] + tail);
      }
    } else {
      assert Keys(kvs) == [];
    }
  }

  /** The value a loop leaves under a key is the one it assigned last. */
  lemma {:induction false} PutAllLookup<K, V>(d: Dict<K, V>, kvs: seq<(K, V)>, k: K)
    ensures Lookup(PutAll(d, kvs), k) == if LastValue(kvs, k).Some? then LastValue(kvs, k) else Lookup(d, k)
    decreases |kvs|
  {
    if kvs != [] {
      var n := |kvs|;
      PutAllSnoc(d, kvs[..n - 1], kvs[n - 1]);
      assert kvs[..n - 1] + [kvs[n - 1]] == kvs;
      PutLookup(PutAll(d, kvs[..n - 1]), kvs[n - 1].0, kvs[n - 1].1, k);
      PutAllLookup(d, kvs[..n - 1], k);
    }
  }

  lemma {:induction false} PutAllSnoc<K, V>(d: Dict<K, V>, kvs: seq<(K, V)>, kv: (K, V))
    ensures PutAll(d, kvs + [kv]) == Put(PutAll(d, kvs), kv.0, kv.1)
    decreases |kvs|
  {
    if kvs == [] {
      assert kvs + [kv] == [kv];
    } else {
      assert (kvs + [kv])[1..] == kvs[1..] + [kv];
      PutAllSnoc(Put(d, kvs[0].0, kvs[0].1), kvs[1..], kv);
    }
  }

  /** `Fresh` lists no key twice and none already seen. */
  lemma {:induction false} FreshDistinct<K>(ks: seq<K>, seen: seq<K>)
    ensures forall i, j :: 0 <= i < j < |Fresh(ks, seen)| ==> Fresh(ks, seen)[i] != Fresh(ks, seen)[j]
    ensures forall x :: x in Fresh(ks, seen) <==> x in ks && x !in seen
  {
    if ks != [] {
      if ks[0] in seen {
        FreshDistinct(ks[1..], seen);
      } else {
        var rest := Fresh(ks[1..], seen + [ks[0]]);
        FreshDistinct(ks[1..], seen + [ks[0]]);
        assert ks[0] !in rest;
        assert Fresh(ks, seen) == [ks[0]] + rest;
        assert forall x :: x in ks <==> x == ks[0] || x in ks[1..];
      }
    }
  }
}
