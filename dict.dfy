/**
 * Python dictionaries keep their keys in insertion order, and assigning
 * to an existing key keeps its position. Code that iterates over a dict
 * depends on that order, so such a dict is its key order plus a map.
 */
module Dict {
  import opened Order

  datatype PyDict<K, V> = PyDict(keys: seq<K>, values: map<K, V>)

  /** The key order lists each key of the map exactly once. */
  predicate Valid<K, V>(d: PyDict<K, V>)
  {
    NoDup(d.keys) && Elems(d.keys) == d.values.Keys
  }

  /** `{}` */
  function Empty<K, V>(): (r: PyDict<K, V>)
    ensures Valid(r)
  {
    PyDict([], map[])
  }

  /** `d[k] = v`: an existing key keeps its place, a new key goes last. */
  function Put<K(!new), V>(d: PyDict<K, V>, k: K, v: V): (r: PyDict<K, V>)
    ensures Valid(d) ==> Valid(r)
    ensures r.values == d.values[k := v]
    ensures k in d.values ==> r.keys == d.keys
    ensures k !in d.values ==> r.keys == d.keys + [k]
  {
    var r := PyDict(if k in d.values then d.keys else d.keys + [k], d.values[k := v]);
    if Valid(d) && k !in d.values then
      assert k !in d.keys;
      assert NoDup(r.keys) by {
        forall i, j | 0 <= i < j < |r.keys| ensures r.keys[i] != r.keys[j] {
          if j == |d.keys| {
            assert r.keys[i] in d.keys;
          } else {
            assert r.keys[i] == d.keys[i] && r.keys[j] == d.keys[j];
          }
        }
      }
      r
    else r
  }

  /** `list(d.values())`, in key order. */
  function ValuesOf<K, V>(d: PyDict<K, V>): (r: seq<V>)
    requires Valid(d)
    ensures |r| == |d.keys|
    ensures forall i :: 0 <= i < |r| ==> r[i] == d.values[d.keys[i]]
  {
    seq(|d.keys|, i requires 0 <= i < |d.keys| && Valid(d) => d.values[d.keys[i]])
  }

  /** `{key(x): x for x in xs}` written as a loop: keys in order of first occurrence, the last element wins. */
  function IndexBy<T, K(!new)>(xs: seq<T>, key: T -> K): (r: PyDict<K, T>)
    ensures Valid(r)
  {
    if xs == [] then Empty()
    else Put(IndexBy(xs[..|xs| - 1], key), key(xs[|xs| - 1]), xs[|xs| - 1])
  }

  /** The index lists its keys in order of first occurrence. */
  lemma {:induction false} IndexByOrder<T, K(!new)>(xs: seq<T>, key: T -> K)
    ensures IndexBy(xs, key).keys == Dedup(Keys(xs, key))
  {
    if xs != [] {
      var init := xs[..|xs| - 1];
      IndexByOrder(init, key);
      assert Keys(xs, key) == Keys(init, key) + [key(xs[|xs| - 1])];
      assert Keys(xs, key)[..|xs| - 1] == Keys(init, key);
    }
  }

  /** A key is in the index iff some element has it. */
  lemma IndexByKeys<T, K(!new)>(xs: seq<T>, key: T -> K, k: K)
    ensures k in IndexBy(xs, key).values <==> exists i :: 0 <= i < |xs| && key(xs[i]) == k
  {
    IndexByOrder(xs, key);
    assert k in IndexBy(xs, key).values <==> k in Keys(xs, key);
  }

  /** Under each key the index holds the LAST element with that key. */
  lemma IndexByLast<T, K(!new)>(xs: seq<T>, key: T -> K, k: K)
    requires k in IndexBy(xs, key).values
    ensures exists i :: (0 <= i < |xs| && IndexBy(xs, key).values[k] == xs[i] && key(xs[i]) == k
      && forall j :: i < j < |xs| ==> key(xs[j]) != k)
  {
    var i := IndexByLastAt(xs, key, k);
  }

  /** The position of the element the index holds under `k`. */
  lemma {:induction false} IndexByLastAt<T, K(!new)>(xs: seq<T>, key: T -> K, k: K) returns (i: nat)
    requires k in IndexBy(xs, key).values
    ensures i < |xs| && IndexBy(xs, key).values[k] == xs[i] && key(xs[i]) == k
    ensures forall j :: i < j < |xs| ==> key(xs[j]) != k
  {
    var init := xs[..|xs| - 1];
    var last := xs[|xs| - 1];
    if key(last) == k {
      i := |xs| - 1;
    } else {
      i := IndexByLastAt(init, key, k);
      assert xs[i] == init[i];
      forall j | i < j < |xs| ensures key(xs[j]) != k {
        if j < |xs| - 1 {
          assert xs[j] == init[j];
        }
      }
    }
  }

  /** One element's keys, each mapped to its value, in order. */
  function PutAll<K(!new), V>(m: PyDict<K, V>, ks: seq<K>, v: V): (r: PyDict<K, V>)
    ensures Valid(m) ==> Valid(r)
    ensures r.values.Keys == m.values.Keys + Elems(ks)
    ensures forall k :: k in r.values ==> (k in ks && r.values[k] == v) || (k !in ks && r.values[k] == m.values[k])
  {
    if ks == [] then m
    else
      var init := ks[..|ks| - 1];
      assert Elems(ks) == Elems(init) + {ks[|ks| - 1]};
      assert forall k :: k in ks <==> k in init || k == ks[|ks| - 1];
      Put(PutAll(m, init, v), ks[|ks| - 1], v)
  }

  /** Storing the keys up to one more is one more `Put`. */
  lemma PutAllPrefix<K(!new), V>(m: PyDict<K, V>, ks: seq<K>, j: nat, v: V)
    requires j < |ks|
    ensures PutAll(m, ks[..j + 1], v) == Put(PutAll(m, ks[..j], v), ks[j], v)
  {
    assert ks[..j + 1][..j] == ks[..j];
  }

  /** A nested loop storing every key of every element: `for x in xs: for k in keysOf(x): d[k] = val(x)`. */
  function FlatIndex<T, K(!new), V>(xs: seq<T>, keysOf: T -> seq<K>, val: T -> V): (r: PyDict<K, V>)
    ensures Valid(r)
  {
    if xs == [] then Empty()
    else PutAll(FlatIndex(xs[..|xs| - 1], keysOf, val), keysOf(xs[|xs| - 1]), val(xs[|xs| - 1]))
  }

  /** One more element of the loop over `xs` stores all of its keys. */
  lemma FlatIndexSnoc<T, K(!new), V>(xs: seq<T>, i: nat, keysOf: T -> seq<K>, val: T -> V)
    requires i < |xs|
    ensures FlatIndex(xs[..i + 1], keysOf, val) == PutAll(FlatIndex(xs[..i], keysOf, val), keysOf(xs[i]), val(xs[i]))
  {
    assert xs[..i + 1][..i] == xs[..i];
  }

  /** One more element of the loop over `xs` stores it under its key. */
  lemma IndexBySnoc<T, K(!new)>(xs: seq<T>, i: nat, key: T -> K)
    requires i < |xs|
    ensures IndexBy(xs[..i + 1], key) == Put(IndexBy(xs[..i], key), key(xs[i]), xs[i])
  {
    assert xs[..i + 1][..i] == xs[..i];
  }

  /** Every key of every element is stored, and each stored value belongs to an element listing that key. */
  lemma {:induction false} FlatIndexSpec<T, K(!new), V>(xs: seq<T>, keysOf: T -> seq<K>, val: T -> V)
    ensures forall i, k :: 0 <= i < |xs| && k in keysOf(xs[i]) ==> k in FlatIndex(xs, keysOf, val).values
    ensures forall k :: k in FlatIndex(xs, keysOf, val).values ==>
      exists i :: 0 <= i < |xs| && k in keysOf(xs[i]) && FlatIndex(xs, keysOf, val).values[k] == val(xs[i])
  {
    if xs != [] {
      var init := xs[..|xs| - 1];
      FlatIndexSpec(init, keysOf, val);
      var m0 := FlatIndex(init, keysOf, val);
      var m := FlatIndex(xs, keysOf, val);
      forall i, k | 0 <= i < |xs| && k in keysOf(xs[i]) ensures k in m.values {
        if i < |init| {
          assert init[i] == xs[i];
        }
      }
      forall k | k in m.values
        ensures exists i :: 0 <= i < |xs| && k in keysOf(xs[i]) && m.values[k] == val(xs[i])
      {
        if k !in keysOf(xs[|xs| - 1]) {
          var i :| 0 <= i < |init| && k in keysOf(init[i]) && m0.values[k] == val(init[i]);
          assert xs[i] == init[i];
        }
      }
    }
  }

  /** Under each key the nested loop leaves the value of the LAST element listing that key. */
  lemma FlatIndexLast<T, K(!new), V>(xs: seq<T>, keysOf: T -> seq<K>, val: T -> V, k: K)
    requires k in FlatIndex(xs, keysOf, val).values
    ensures exists i :: (0 <= i < |xs| && k in keysOf(xs[i]) && FlatIndex(xs, keysOf, val).values[k] == val(xs[i])
      && forall j :: i < j < |xs| ==> k !in keysOf(xs[j]))
  {
    var i := FlatIndexLastAt(xs, keysOf, val, k);
  }

  /** The position of the element whose value the flat index holds under `k`. */
  lemma {:induction false} FlatIndexLastAt<T, K(!new), V>(xs: seq<T>, keysOf: T -> seq<K>, val: T -> V, k: K) returns (i: nat)
    requires k in FlatIndex(xs, keysOf, val).values
    ensures i < |xs| && k in keysOf(xs[i]) && FlatIndex(xs, keysOf, val).values[k] == val(xs[i])
    ensures forall j :: i < j < |xs| ==> k !in keysOf(xs[j])
  {
    var init := xs[..|xs| - 1];
    var last := xs[|xs| - 1];
    if k in keysOf(last) {
      i := |xs| - 1;
    } else {
      i := FlatIndexLastAt(init, keysOf, val, k);
      assert xs[i] == init[i];
      forall j | i < j < |xs| ensures k !in keysOf(xs[j]) {
        if j < |xs| - 1 {
          assert xs[j] == init[j];
        }
      }
    }
  }

}
