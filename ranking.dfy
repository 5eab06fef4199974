/**
 * `Counter(xs)` and `Counter.most_common(n)`: a counter keeps its keys in
 * first-insertion order, and `most_common` ranks the entries with the
 * stable descending sort `Order.SortDesc` and keeps the first `n`. The
 * stability of that sort is proved here.
 */
module Ranking {
  import opened Text
  import opened Order

  /** The elements whose key is `c`. */
  function WithKey<T>(key: T -> real, c: real): T -> bool
  {
    (x: T) => key(x) == c
  }

  /** Filtering a sequence with one element in front. */
  lemma FilterCons<T(!new)>(x: T, s: seq<T>, p: T -> bool)
    ensures Filter([x] + s, p) == (if p(x) then [x] else []) + Filter(s, p)
  {
    assert ([x] + s)[0] == x && ([x] + s)[1..] == s;
  }

  /** Filtering after `x` has moved past a head `h` that the filter rejects whenever it keeps `x`. */
  lemma PassOver<T(!new)>(h: T, x: T, t: seq<T>, rest: seq<T>, p: T -> bool)
    requires Filter(rest, p) == (if p(x) then [x] else []) + Filter(t, p)
    requires p(x) ==> !p(h)
    ensures Filter([h] + rest, p) == (if p(x) then [x] else []) + Filter([h] + t, p)
  {
    FilterCons(h, rest, p);
    FilterCons(h, t, p);
  }

  /** Inserting `x` puts it in front of the equal-keyed elements and leaves their order alone. */
  lemma {:induction false} InsertDescStable<T(!new)>(x: T, s: seq<T>, key: T -> real, c: real)
    requires SortedDesc(s, key)
    ensures Filter(InsertDesc(x, s, key), WithKey(key, c)) ==
      (if key(x) == c then [x] else []) + Filter(s, WithKey(key, c))
  {
    var p := WithKey(key, c);
    if s == [] {
      assert InsertDesc(x, s, key) == [x] + s;
      FilterCons(x, s, p);
    } else if key(x) >= key(s[0]) {
      assert InsertDesc(x, s, key) == [x] + s;
      FilterCons(x, s, p);
    } else {
      assert SortedDesc(s[1..], key);
      InsertDescStable(x, s[1..], key, c);
      assert InsertDesc(x, s, key) == [s[0]] + InsertDesc(x, s[1..], key);
      PassOver(s[0], x, s[1..], InsertDesc(x, s[1..], key), p);
      assert [s[0]] + s[1..] == s;
    }
  }

  /** The sort is stable: the elements of any one key keep their input order. */
  lemma {:induction false} SortDescStable<T(!new)>(xs: seq<T>, key: T -> real, c: real)
    ensures Filter(SortDesc(xs, key), WithKey(key, c)) == Filter(xs, WithKey(key, c))
  {
    if xs != [] {
      SortDescStable(xs[1..], key, c);
      InsertDescStable(xs[0], SortDesc(xs[1..], key), key, c);
      FilterCons(xs[0], xs[1..], WithKey(key, c));
      assert [xs[0]] + xs[1..] == xs;
    }
  }

  /** The count of an entry. */
  function CountOf<K>(): ((K, nat)) -> real
  {
    (e: (K, nat)) => e.1 as real
  }

  /** `most_common(n)` over counter entries in insertion order. */
  function MostCommon<K>(entries: seq<(K, nat)>, n: nat): (r: seq<(K, nat)>)
    ensures |r| <= n && |r| <= |entries|
    ensures n <= |entries| ==> |r| == n
    ensures SortedDesc(r, CountOf())
    ensures forall e :: e in r ==> e in entries
  {
    var sorted := SortDesc(entries, CountOf());
    assert |sorted| == |multiset(sorted)| == |entries|;
    var r := Take(sorted, n);
    assert forall e :: e in r ==> e in multiset(sorted);
    r
  }

  /** The number of times `k` occurs in `xs`. */
  function Occurrences<K(==)>(xs: seq<K>, k: K): (n: nat)
    ensures n <= |xs|
    ensures n > 0 <==> k in xs
  {
    if xs == [] then 0 else (if xs[0] == k then 1 else 0) + Occurrences(xs[1..], k)
  }

  /** The entries of `Counter(xs)`: each distinct element, in first-seen order, with its number of occurrences. */
  function Counted<K(==,!new)>(xs: seq<K>): (r: seq<(K, nat)>)
  {
    var keys := Dedup(xs);
    seq(|keys|, i requires 0 <= i < |keys| => (keys[i], Occurrences(xs, keys[i])))
  }

  /** Every counted entry is an element of `xs` with its true count, and every element is counted once. */
  lemma CountedSpec<K(!new)>(xs: seq<K>)
    ensures forall e :: e in Counted(xs) ==> e.0 in xs && e.1 == Occurrences(xs, e.0) && e.1 > 0
    ensures forall k :: k in xs ==> (k, Occurrences(xs, k)) in Counted(xs)
    ensures forall i, j :: 0 <= i < j < |Counted(xs)| ==> Counted(xs)[i].0 != Counted(xs)[j].0
  {
    var r := Counted(xs);
    var keys := Dedup(xs);
    forall e | e in r ensures e.0 in xs && e.1 == Occurrences(xs, e.0) && e.1 > 0 {
      var i :| 0 <= i < |r| && r[i] == e;
      assert keys[i] in keys;
    }
    forall k | k in xs ensures (k, Occurrences(xs, k)) in r {
      assert k in keys;
      var i :| 0 <= i < |keys| && keys[i] == k;
      assert r[i] == (k, Occurrences(xs, k));
    }
  }
}
