/**
 * An insertion-ordered dictionary held as a sequence of records keyed by
 * `key`: assigning a record replaces the record of its key where it
 * stands, or appends it when the key is new (Python's `d[k] = v` on a
 * `dict`, which keeps first-insertion order).
 */
module Assoc {
  import opened Wrappers
  import opened Order

  /** `d[key(s)] = s` */
  function Upsert<T, K(==)>(es: seq<T>, s: T, key: T -> K): (r: seq<T>)
  {
    if es == [] then [s]
    else if key(es[0]) == key(s) then [s] + es[1..]
    else [es[0]] + Upsert(es[1..], s, key)
  }

  /** The dictionary after assigning each of `xs` in turn. */
  function UpsertAll<T, K(==)>(es: seq<T>, xs: seq<T>, key: T -> K): seq<T>
  {
    if xs == [] then es else Upsert(UpsertAll(es, xs[..|xs| - 1], key), xs[|xs| - 1], key)
  }

  /** `d.get(k)`: the first record with key `k`. */
  function Lookup<T, K(==)>(es: seq<T>, k: K, key: T -> K): Option<T>
  {
    if es == [] then None else if key(es[0]) == k then Some(es[0]) else Lookup(es[1..], k, key)
  }

  /** The last record of key `k` in `xs`. */
  function Latest<T, K(==)>(xs: seq<T>, k: K, key: T -> K): Option<T>
  {
    if xs == [] then None
    else if key(xs[|xs| - 1]) == k then Some(xs[|xs| - 1])
    else Latest(xs[..|xs| - 1], k, key)
  }

  /** An assignment changes the entry of its own key only. */
  lemma {:induction false} UpsertLookup<T, K>(es: seq<T>, s: T, k: K, key: T -> K)
    ensures Lookup(Upsert(es, s, key), k, key) == if k == key(s) then Some(s) else Lookup(es, k, key)
  {
    if es != [] && key(es[0]) != key(s) {
      UpsertLookup(es[1..], s, k, key);
    }
  }

  /** An assignment keeps the key order, appending a new key. */
  lemma {:induction false} UpsertKeys<T, K>(es: seq<T>, s: T, key: T -> K)
    ensures Keys(Upsert(es, s, key), key) == if key(s) in Keys(es, key) then Keys(es, key) else Keys(es, key) + [key(s)]
  {
    if es != [] {
      assert Keys(es, key) == [key(es[0])] + Keys(es[1..], key);
      if key(es[0]) != key(s) {
        UpsertKeys(es[1..], s, key);
        assert Keys(Upsert(es, s, key), key) == [key(es[0])] + Keys(Upsert(es[1..], s, key), key);
      } else {
        assert Keys(Upsert(es, s, key), key) == [key(s)] + Keys(es[1..], key);
      }
    }
  }

  /**
   * The dictionary built from records in order holds, for each key, its
   * last record, and lists the keys in the order of their first record.
   */
  lemma {:induction false} UpsertAllSpec<T, K(!new)>(xs: seq<T>, key: T -> K)
    ensures forall k :: Lookup(UpsertAll([], xs, key), k, key) == Latest(xs, k, key)
    ensures Keys(UpsertAll([], xs, key), key) == Dedup(Keys(xs, key))
  {
    if xs != [] {
      var init, last := xs[..|xs| - 1], xs[|xs| - 1];
      UpsertAllSpec(init, key);
      UpsertKeys(UpsertAll([], init, key), last, key);
      forall k ensures Lookup(UpsertAll([], xs, key), k, key) == Latest(xs, k, key) {
        UpsertLookup(UpsertAll([], init, key), last, k, key);
      }
      assert Keys(xs, key)[..|xs| - 1] == Keys(init, key);
      assert key(last) in Keys(init, key) <==> key(last) in Dedup(Keys(init, key));
    }
  }

  /** Assigning `a` and then `b` is assigning `a + b`. */
  lemma {:induction false} UpsertAllConcat<T, K>(es: seq<T>, a: seq<T>, b: seq<T>, key: T -> K)
    ensures UpsertAll(UpsertAll(es, a, key), b, key) == UpsertAll(es, a + b, key)
  {
    if b != [] {
      UpsertAllConcat(es, a, b[..|b| - 1], key);
      assert (a + b)[..|a + b| - 1] == a + b[..|b| - 1];
    } else {
      assert a + b == a;
    }
  }

  /** The last record of `k` in `a + b` is its last in `b`, or else its last in `a`. */
  lemma {:induction false} LatestConcat<T, K>(a: seq<T>, b: seq<T>, k: K, key: T -> K)
    ensures Latest(a + b, k, key) == if Latest(b, k, key).Some? then Latest(b, k, key) else Latest(a, k, key)
  {
    if b != [] {
      LatestConcat(a, b[..|b| - 1], k, key);
      assert (a + b)[..|a + b| - 1] == a + b[..|b| - 1];
    } else {
      assert a + b == a;
    }
  }

  /** The last record of a key is a record of `xs` with that key, after which none has it. */
  lemma {:induction false} LatestSpec<T, K>(xs: seq<T>, k: K, key: T -> K)
    ensures Latest(xs, k, key).None? <==> k !in Keys(xs, key)
    ensures Latest(xs, k, key).Some? ==> exists i :: (0 <= i < |xs| && xs[i] == Latest(xs, k, key).value
      && key(xs[i]) == k && forall j :: i < j < |xs| ==> key(xs[j]) != k)
  {
    if xs != [] {
      var init := xs[..|xs| - 1];
      assert Keys(xs, key) == Keys(init, key) + [key(xs[|xs| - 1])];
      if key(xs[|xs| - 1]) != k {
        LatestSpec(init, k, key);
        if Latest(xs, k, key).Some? {
          var i :| 0 <= i < |init| && init[i] == Latest(init, k, key).value
            && key(init[i]) == k && forall j :: i < j < |init| ==> key(init[j]) != k;
          assert xs[i] == init[i];
        }
      }
    }
  }
}
