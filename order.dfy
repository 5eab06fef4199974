/**
 * Orderings, sorts and duplicate removal shared by the modules: Python's
 * code-point ordering of strings (`sorted` on `str`), a stable sort by an
 * integer key (`sorted(key=...)`, `Counter.most_common`) and
 * first-occurrence dedup (`dict.fromkeys`, loops over a `seen` set).
 */
module Order {
  import opened Wrappers

  /** Python's `a <= b` on strings: lexicographic by code point. */
  predicate LexLe(a: string, b: string)
  {
    a == [] || (b != [] && (a[0] < b[0] || (a[0] == b[0] && LexLe(a[1..], b[1..]))))
  }

  lemma {:induction false} LexLeTotal(a: string, b: string)
    ensures LexLe(a, b) || LexLe(b, a)
  {
    if a != [] && b != [] && a[0] == b[0] {
      LexLeTotal(a[1..], b[1..]);
    }
  }

  lemma {:induction false} LexLeAntisymmetric(a: string, b: string)
    requires LexLe(a, b) && LexLe(b, a)
    ensures a == b
  {
    if a != [] && b != [] {
      LexLeAntisymmetric(a[1..], b[1..]);
      assert a == [a[0]] + a[1..] && b == [b[0]] + b[1..];
    }
  }

  lemma {:induction false} LexLeTransitive(a: string, b: string, c: string)
    requires LexLe(a, b) && LexLe(b, c)
    ensures LexLe(a, c)
  {
    if a != [] && b != [] && c != [] && a[0] == b[0] && b[0] == c[0] {
      LexLeTransitive(a[1..], b[1..], c[1..]);
    }
  }

  /** Non-decreasing under the string order. */
  predicate SortedStrings(s: seq<string>)
  {
    forall i, j :: 0 <= i < j < |s| ==> LexLe(s[i], s[j])
  }

  /** Strictly increasing: sorted and duplicate-free. */
  predicate StrictlySorted(s: seq<string>)
  {
    SortedStrings(s) && NoDup(s)
  }

  function InsertString(x: string, s: seq<string>): (r: seq<string>)
    requires SortedStrings(s)
    ensures multiset(r) == multiset(s) + multiset{x}
    ensures SortedStrings(r)
  {
    if s == [] then [x]
    else if LexLe(x, s[0]) then
      FirstIsLeast(x, s);
      ConsSorted(x, s);
      [x] + s
    else
      var rest := InsertString(x, s[1..]);
      LexLeTotal(x, s[0]);
      SortedHead(s);
      BelowAllOfMultiset(s[0], x, s[1..], rest);
      ConsSorted(s[0], rest);
      assert s == [s[0]] + s[1..];
      [s[0]] + rest
  }

  /** What is below the head of a sorted sequence is below all of it. */
  lemma FirstIsLeast(x: string, s: seq<string>)
    requires SortedStrings(s) && s != [] && LexLe(x, s[0])
    ensures forall y :: y in s ==> LexLe(x, y)
  {
    forall y | y in s ensures LexLe(x, y) {
      var j :| 0 <= j < |s| && s[j] == y;
      if j > 0 { LexLeTransitive(x, s[0], s[j]); }
    }
  }

  /** The head of a sorted sequence is below the rest. */
  lemma SortedHead(s: seq<string>)
    requires SortedStrings(s) && s != []
    ensures forall y :: y in s[1..] ==> LexLe(s[0], y)
  {
    forall y | y in s[1..] ensures LexLe(s[0], y) {
      var k :| 0 <= k < |s[1..]| && s[1..][k] == y;
      assert s[k + 1] == y;
    }
  }

  /** A lower bound of `t` and of `x` bounds `t` with `x` added. */
  lemma BelowAllOfMultiset(h: string, x: string, t: seq<string>, r: seq<string>)
    requires LexLe(h, x) && forall y :: y in t ==> LexLe(h, y)
    requires multiset(r) == multiset(t) + multiset{x}
    ensures forall y :: y in r ==> LexLe(h, y)
  {
    forall y | y in r ensures LexLe(h, y) {
      assert y in multiset(r);
      if y != x {
        assert y in multiset(t);
      }
    }
  }

  /** A lower bound of a sorted sequence can go in front of it. */
  lemma ConsSorted(x: string, s: seq<string>)
    requires SortedStrings(s) && forall y :: y in s ==> LexLe(x, y)
    ensures SortedStrings([x] + s)
  {
    forall i, j | 0 <= i < j < |[x] + s| ensures LexLe(([x] + s)[i], ([x] + s)[j]) {
      if i == 0 {
        assert ([x] + s)[j] == s[j - 1];
        assert s[j - 1] in s;
      } else {
        assert ([x] + s)[i] == s[i - 1];
        assert ([x] + s)[j] == s[j - 1];
      }
    }
  }

  /** `sorted(xs)` on strings. */
  function SortStrings(xs: seq<string>): (r: seq<string>)
    ensures multiset(r) == multiset(xs)
    ensures SortedStrings(r)
  {
    if xs == [] then []
    else
      assert xs == [xs[0]] + xs[1..];
      InsertString(xs[0], SortStrings(xs[1..]))
  }

  /** Two sorted arrangements of the same strings are the same sequence. */
  lemma {:induction false} SortedUnique(a: seq<string>, b: seq<string>)
    requires SortedStrings(a) && SortedStrings(b)
    requires multiset(a) == multiset(b)
    ensures a == b
    decreases |a|
  {
    if a != [] {
      SortedSameHead(a, b);
      SortedTail(a);
      SortedTail(b);
      TailMultiset(a);
      TailMultiset(b);
      SortedUnique(a[1..], b[1..]);
      HeadTailEqual(a, b);
    }
  }

  lemma SortedTail(a: seq<string>)
    requires SortedStrings(a) && a != []
    ensures SortedStrings(a[1..])
  {
    forall i, j | 0 <= i < j < |a| - 1 ensures LexLe(a[1..][i], a[1..][j]) {
      assert a[1..][i] == a[i + 1] && a[1..][j] == a[j + 1];
    }
  }

  lemma TailMultiset<T>(a: seq<T>)
    requires a != []
    ensures multiset(a[1..]) == multiset(a) - multiset{a[0]}
  {
    assert a == [a[0]] + a[1..];
  }

  /** The last element and the rest of a concatenation with a non-empty right part. */
  lemma ConcatLast<T>(a: seq<T>, b: seq<T>)
    requires b != []
    ensures (a + b)[..|a + b| - 1] == a + b[..|b| - 1]
    ensures (a + b)[|a + b| - 1] == b[|b| - 1]
  {
  }

  lemma HeadTailEqual<T>(a: seq<T>, b: seq<T>)
    requires a != [] && b != [] && a[0] == b[0] && a[1..] == b[1..]
    ensures a == b
  {
    assert a == [a[0]] + a[1..] && b == [b[0]] + b[1..];
  }

  lemma SortedSameHead(a: seq<string>, b: seq<string>)
    requires SortedStrings(a) && SortedStrings(b)
    requires multiset(a) == multiset(b) && a != []
    ensures b != [] && a[0] == b[0]
  {
    assert a[0] in multiset(b);
    var i :| 0 <= i < |b| && b[i] == a[0];
    assert b[0] in multiset(a);
    var j :| 0 <= j < |a| && a[j] == b[0];
    if i != 0 && j != 0 {
      LexLeAntisymmetric(a[0], b[0]);
    }
  }

  /** `sorted` ignores the order of its input. */
  lemma SortStringsOrderFree(a: seq<string>, b: seq<string>)
    requires multiset(a) == multiset(b)
    ensures SortStrings(a) == SortStrings(b)
  {
    SortedUnique(SortStrings(a), SortStrings(b));
  }

  predicate NoDup<T(==)>(s: seq<T>)
  {
    forall i, j :: 0 <= i < j < |s| ==> s[i] != s[j]
  }

  /**
   * First occurrences of `xs`, in order: element i is kept exactly when it
   * does not occur in `xs[..i]`.
   */
  function Dedup<T(==,!new)>(xs: seq<T>): (r: seq<T>)
    ensures NoDup(r)
    ensures forall x :: x in r <==> x in xs
    ensures |r| <= |xs|
  {
    if xs == [] then []
    else
      var init := xs[..|xs| - 1];
      var d := Dedup(init);
      assert forall x :: x in xs <==> x in init || x == xs[|xs| - 1] by {
        assert xs == init + [xs[|xs| - 1]];
      }
      if xs[|xs| - 1] in init then d else d + [xs[|xs| - 1]]
  }

  /** Duplicate-free exactly when every element occurs at most once. */
  lemma {:induction false} NoDupMultiplicity<T(!new)>(s: seq<T>)
    ensures NoDup(s) <==> forall x :: multiset(s)[x] <= 1
  {
    if s != [] {
      var init := s[..|s| - 1];
      var last := s[|s| - 1];
      NoDupMultiplicity(init);
      assert s == init + [last];
      assert multiset(s) == multiset(init) + multiset{last};
      if NoDup(s) {
        assert NoDup(init) by {
          forall i, j | 0 <= i < j < |init| ensures init[i] != init[j] {
            assert s[i] != s[j];
          }
        }
        forall k | 0 <= k < |init| ensures init[k] != last {
          assert s[k] != s[|s| - 1];
        }
      } else {
        var i, j :| 0 <= i < j < |s| && s[i] == s[j];
        if j < |init| {
          assert init[i] == init[j];
          var x :| multiset(init)[x] > 1;
          assert multiset(s)[x] >= multiset(init)[x];
        } else {
          assert init[i] == last;
          assert multiset(init)[last] >= 1;
          assert multiset(s)[last] >= 2;
        }
      }
    }
  }

  /** Permuting a duplicate-free sequence keeps it duplicate-free. */
  lemma NoDupPermutation<T(!new)>(a: seq<T>, b: seq<T>)
    requires NoDup(a) && multiset(a) == multiset(b)
    ensures NoDup(b)
  {
    NoDupMultiplicity(a);
    NoDupMultiplicity(b);
  }

  /** Concatenation regroups freely; stated once so that long sequences need not be compared element by element. */
  lemma AppendAssoc<T>(a: seq<T>, b: seq<T>, c: seq<T>)
    ensures a + (b + c) == (a + b) + c
  {
  }

  /** The elements of a sequence, as a set. */
  function Elems<T>(s: seq<T>): set<T>
  {
    set x | x in s
  }

  /** A duplicate-free sequence has as many elements as its set. */
  lemma {:induction false} NoDupCardinality<T(!new)>(s: seq<T>)
    requires NoDup(s)
    ensures |Elems(s)| == |s|
  {
    if s != [] {
      var init := s[..|s| - 1];
      assert NoDup(init) by {
        forall i, j | 0 <= i < j < |init| ensures init[i] != init[j] {
          assert s[i] != s[j];
        }
      }
      NoDupCardinality(init);
      assert s == init + [s[|s| - 1]];
      forall k | 0 <= k < |init| ensures init[k] != s[|s| - 1] {
        assert s[k] != s[|s| - 1];
      }
      assert Elems(s) == Elems(init) + {s[|s| - 1]};
    }
  }

  /** Python `sorted(set(xs))`: the distinct elements in increasing order. */
  function SortedSet(xs: seq<string>): (r: seq<string>)
    ensures StrictlySorted(r)
    ensures forall x :: x in r <==> x in xs
    ensures |r| == |Elems(xs)|
  {
    var d := Dedup(xs);
    var r := SortStrings(d);
    NoDupPermutation(d, r);
    assert forall x :: x in r <==> x in d by {
      forall x ensures x in r <==> x in d {
        assert x in r <==> x in multiset(r);
      }
    }
    NoDupCardinality(r);
    assert Elems(r) == Elems(xs);
    r
  }

  /** A duplicate-free sequence is its own dedup. */
  lemma {:induction false} DedupNoDup<T(!new)>(xs: seq<T>)
    requires NoDup(xs)
    ensures Dedup(xs) == xs
  {
    if xs != [] {
      var init := xs[..|xs| - 1];
      DedupNoDup(init);
      assert xs == init + [xs[|xs| - 1]];
    }
  }

  /**
   * Dedup by a key: element i is kept exactly when no earlier element has
   * the same key (a loop over a `seen` set of keys).
   */
  function DedupBy<T(==,!new), K(==)>(xs: seq<T>, key: T -> K): (r: seq<T>)
    ensures |r| <= |xs|
    ensures forall y :: y in r ==> y in xs
  {
    if xs == [] then []
    else
      var init := xs[..|xs| - 1];
      var last := xs[|xs| - 1];
      var d := DedupBy(init, key);
      assert forall y :: y in init ==> y in xs;
      if key(last) in Keys(init, key) then d else d + [last]
  }

  /** `xs[i]` is the first element of `xs` with its key. */
  predicate FirstOfKey<T, K(==)>(xs: seq<T>, i: int, key: T -> K)
  {
    0 <= i < |xs| && forall j :: 0 <= j < i ==> key(xs[j]) != key(xs[i])
  }

  /** Every element DedupBy keeps is the first of its key. */
  lemma {:induction false} DedupByFirst<T(!new), K(!new)>(xs: seq<T>, key: T -> K)
    ensures forall y :: y in DedupBy(xs, key) ==> exists i :: FirstOfKey(xs, i, key) && xs[i] == y
  {
    if xs != [] {
      var init := xs[..|xs| - 1];
      var last := xs[|xs| - 1];
      DedupByFirst(init, key);
      forall y | y in DedupBy(xs, key) ensures exists i :: FirstOfKey(xs, i, key) && xs[i] == y {
        if y in DedupBy(init, key) {
          var i :| FirstOfKey(init, i, key) && init[i] == y;
          assert xs[i] == y;
          assert FirstOfKey(xs, i, key);
        } else {
          assert y == last && key(last) !in Keys(init, key);
          forall j | 0 <= j < |xs| - 1 ensures key(xs[j]) != key(xs[|xs| - 1]) {
            assert Keys(init, key)[j] == key(xs[j]);
          }
          assert FirstOfKey(xs, |xs| - 1, key);
        }
      }
    }
  }

  /** The keys of `xs`, in order. */
  function Keys<T, K>(xs: seq<T>, key: T -> K): (r: seq<K>)
    ensures |r| == |xs|
    ensures forall i :: 0 <= i < |xs| ==> r[i] == key(xs[i])
  {
    seq(|xs|, i requires 0 <= i < |xs| => key(xs[i]))
  }

  /** DedupBy leaves no two elements with the same key, and loses no key. */
  lemma {:induction false} DedupByKeys<T(!new), K(!new)>(xs: seq<T>, key: T -> K)
    ensures NoDup(Keys(DedupBy(xs, key), key))
    ensures forall y :: y in xs ==> key(y) in Keys(DedupBy(xs, key), key)
  {
    if xs != [] {
      var init := xs[..|xs| - 1];
      var last := xs[|xs| - 1];
      DedupByKeys(init, key);
      var d := DedupBy(init, key);
      assert xs == init + [last];
      if key(last) in Keys(init, key) {
        var k :| 0 <= k < |init| && Keys(init, key)[k] == key(last);
        assert init[k] in init;
      } else {
        DedupByKeysFresh(init, d, last, key);
        var ks := Keys(d + [last], key);
        assert ks[|d|] == key(last);
        forall y | y in xs ensures key(y) in ks {
          if y in init {
            var k :| 0 <= k < |d| && Keys(d, key)[k] == key(y);
            assert ks[k] == key(y);
          }
        }
      }
    }
  }

  lemma DedupByKeysFresh<T(!new), K(!new)>(init: seq<T>, d: seq<T>, last: T, key: T -> K)
    requires d == DedupBy(init, key)
    requires NoDup(Keys(d, key))
    requires key(last) !in Keys(init, key)
    ensures NoDup(Keys(d + [last], key))
  {
    var ks := Keys(d + [last], key);
    forall i | 0 <= i < |d| ensures ks[i] != ks[|d|] {
      assert d[i] in init;
      var k :| 0 <= k < |init| && init[k] == d[i];
      assert Keys(init, key)[k] == key(d[i]);
    }
  }

  /** Non-increasing by `key`. */
  predicate SortedDesc<T>(s: seq<T>, key: T -> real)
  {
    forall i, j :: 0 <= i < j < |s| ==> key(s[i]) >= key(s[j])
  }

  /** Insert `x` before the first element with a strictly smaller key. */
  function InsertDesc<T>(x: T, s: seq<T>, key: T -> real): (r: seq<T>)
    requires SortedDesc(s, key)
    ensures multiset(r) == multiset(s) + multiset{x}
    ensures SortedDesc(r, key)
  {
    if s == [] then [x]
    else if key(x) >= key(s[0]) then [x] + s
    else
      var rest := InsertDesc(x, s[1..], key);
      InsertDescBehindHead(x, s, rest, key);
      [s[0]] + rest
  }

  /** Putting the head back in front of `x` inserted into the tail keeps the order and the elements. */
  lemma InsertDescBehindHead<T>(x: T, s: seq<T>, rest: seq<T>, key: T -> real)
    requires s != [] && SortedDesc(s, key) && key(x) < key(s[0])
    requires multiset(rest) == multiset(s[1..]) + multiset{x} && SortedDesc(rest, key)
    ensures multiset([s[0]] + rest) == multiset(s) + multiset{x}
    ensures SortedDesc([s[0]] + rest, key)
  {
    forall y | y in rest ensures key(s[0]) >= key(y) {
      assert y in multiset(rest);
      if y != x {
        assert y in multiset(s[1..]);
        var k :| 0 <= k < |s[1..]| && s[1..][k] == y;
        assert s[k + 1] == y;
      }
    }
    assert s == [s[0]] + s[1..];
    var r := [s[0]] + rest;
    forall i, j | 0 <= i < j < |r| ensures key(r[i]) >= key(r[j]) {
      assert r[j] == rest[j - 1];
      if i > 0 {
        assert r[i] == rest[i - 1];
      } else {
        assert rest[j - 1] in rest;
      }
    }
  }

  /**
   * `sorted(xs, key=key, reverse=True)`. Elements with equal keys keep
   * their input order (an earlier element is inserted in front of them).
   */
  function SortDesc<T>(xs: seq<T>, key: T -> real): (r: seq<T>)
    ensures multiset(r) == multiset(xs)
    ensures SortedDesc(r, key)
  {
    if xs == [] then []
    else
      assert xs == [xs[0]] + xs[1..];
      InsertDesc(xs[0], SortDesc(xs[1..], key), key)
  }

  /** `sorted(xs)` on numbers, as a descending sort on the negated value. */
  function SortAsc(xs: seq<real>): (r: seq<real>)
    ensures multiset(r) == multiset(xs)
    ensures |r| == |xs|
    ensures forall i, j :: 0 <= i < j < |r| ==> r[i] <= r[j]
  {
    var r := SortDesc(xs, (x: real) => -x);
    assert forall i, j :: 0 <= i < j < |r| ==> -r[i] >= -r[j];
    assert |r| == |multiset(r)| == |multiset(xs)| == |xs|;
    r
  }

  /** Python `[x for x in xs if p(x)]`. */
  function Filter<T(==,!new)>(xs: seq<T>, p: T -> bool): (r: seq<T>)
    ensures |r| <= |xs|
    ensures forall y :: y in r <==> y in xs && p(y)
  {
    if xs == [] then []
    else
      assert forall y :: y in xs <==> y == xs[0] || y in xs[1..];
      (if p(xs[0]) then [xs[0]] else []) + Filter(xs[1..], p)
  }

  lemma {:induction false} FilterConcat<T(!new)>(a: seq<T>, b: seq<T>, p: T -> bool)
    ensures Filter(a + b, p) == Filter(a, p) + Filter(b, p)
  {
    if a != [] {
      assert (a + b)[0] == a[0];
      assert (a + b)[1..] == a[1..] + b;
      FilterConcat(a[1..], b, p);
    } else {
      assert a + b == b;
    }
  }

  /** Keeping the elements that satisfy `p`, then those that satisfy its negation `q`, permutes `xs`. */
  lemma {:induction false} FilterPartition<T(!new)>(xs: seq<T>, p: T -> bool, q: T -> bool)
    requires forall x :: q(x) == !p(x)
    ensures multiset(Filter(xs, p) + Filter(xs, q)) == multiset(xs)
  {
    if xs != [] {
      var h, t := xs[0], xs[1..];
      FilterPartition(t, p, q);
      assert xs == [h] + t;
      assert Filter(xs, p) == (if p(h) then [h] else []) + Filter(t, p);
      assert Filter(xs, q) == (if q(h) then [h] else []) + Filter(t, q);
      assert multiset(Filter(xs, p) + Filter(xs, q))
          == multiset{h} + multiset(Filter(t, p) + Filter(t, q));
    }
  }

  /** The number of elements of `xs` satisfying `p`. */
  function Count<T>(xs: seq<T>, p: T -> bool): (n: nat)
    ensures n <= |xs|
  {
    if xs == [] then 0 else (if p(xs[0]) then 1 else 0) + Count(xs[1..], p)
  }

  lemma {:induction false} CountFilter<T(!new)>(xs: seq<T>, p: T -> bool)
    ensures Count(xs, p) == |Filter(xs, p)|
  {
    if xs != [] { CountFilter(xs[1..], p); }
  }

  lemma {:induction false} CountConcat<T>(a: seq<T>, b: seq<T>, p: T -> bool)
    ensures Count(a + b, p) == Count(a, p) + Count(b, p)
  {
    if a != [] {
      assert (a + b)[0] == a[0];
      assert (a + b)[1..] == a[1..] + b;
      CountConcat(a[1..], b, p);
    } else {
      assert a + b == b;
    }
  }

  /** The lists one after another. */
  function Flatten<T>(lists: seq<seq<T>>): (r: seq<T>)
    ensures forall l, x :: l in lists && x in l ==> x in r
    ensures forall x :: x in r ==> exists l :: l in lists && x in l
  {
    if lists == [] then []
    else
      var init := lists[..|lists| - 1];
      assert forall l :: l in init ==> l in lists;
      Flatten(init) + lists[|lists| - 1]
  }

  /** Sum of a sequence of naturals. */
  function Sum(xs: seq<nat>): nat
  {
    if xs == [] then 0 else xs[0] + Sum(xs[1..])
  }

  lemma {:induction false} SumConcat(a: seq<nat>, b: seq<nat>)
    ensures Sum(a + b) == Sum(a) + Sum(b)
  {
    if a != [] {
      assert (a + b)[0] == a[0];
      assert (a + b)[1..] == a[1..] + b;
      SumConcat(a[1..], b);
    } else {
      assert a + b == b;
    }
  }

  /** The defined results of `f` on `xs`, in order: a loop that appends what passes its checks. */
  function FilterMap<T, U>(xs: seq<T>, f: T -> Option<U>): (r: seq<U>)
    ensures |r| <= |xs|
  {
    if xs == [] then []
    else
      var init := FilterMap(xs[..|xs| - 1], f);
      match f(xs[|xs| - 1])
      case None => init
      case Some(y) => init + [y]
  }

  /**
   * Keeping the first defined result of each key: no longer than the
   * input, one element per key, no key lost, only defined results, each
   * the first of its key.
   */
  lemma DedupByFilterMap<T, U(!new), K(!new)>(xs: seq<T>, f: T -> Option<U>, key: U -> K)
    ensures var cs := FilterMap(xs, f);
      var r := DedupBy(cs, key);
      && |r| <= |xs|
      && NoDup(Keys(r, key))
      && (forall i :: 0 <= i < |xs| && f(xs[i]).Some? ==> key(f(xs[i]).value) in Keys(r, key))
      && (forall y :: y in r ==> exists i :: 0 <= i < |xs| && f(xs[i]) == Some(y))
      && (forall y :: y in r ==> exists i :: FirstOfKey(cs, i, key) && cs[i] == y)
  {
    var cs := FilterMap(xs, f);
    FilterMapMembers(xs, f);
    DedupByKeys(cs, key);
    DedupByFirst(cs, key);
    forall i | 0 <= i < |xs| && f(xs[i]).Some? ensures f(xs[i]).value in cs {
    }
  }

  /** Appending one item appends its defined result, if any. */
  lemma FilterMapAppend<T, U>(xs: seq<T>, x: T, f: T -> Option<U>)
    ensures FilterMap(xs + [x], f) == if f(x).Some? then FilterMap(xs, f) + [f(x).value] else FilterMap(xs, f)
  {
    assert (xs + [x])[..|xs|] == xs;
  }

  /** Appending one element keeps it iff its key is new. */
  lemma DedupByStep<T(!new), K(!new)>(xs: seq<T>, y: T, key: T -> K)
    ensures DedupBy(xs + [y], key) == if key(y) in Keys(xs, key) then DedupBy(xs, key) else DedupBy(xs, key) + [y]
  {
    assert (xs + [y])[..|xs|] == xs;
  }

  /** Elements with distinct keys are all kept. */
  lemma {:induction false} DedupByUnique<T(!new), K(!new)>(xs: seq<T>, key: T -> K)
    requires NoDup(Keys(xs, key))
    ensures DedupBy(xs, key) == xs
  {
    if xs != [] {
      var init := xs[..|xs| - 1];
      assert Keys(init, key) == Keys(xs, key)[..|xs| - 1];
      DedupByUnique(init, key);
      assert key(xs[|xs| - 1]) !in Keys(init, key) by {
        forall j | 0 <= j < |init| ensures Keys(init, key)[j] != key(xs[|xs| - 1]) {
          assert Keys(xs, key)[j] == Keys(init, key)[j];
        }
      }
      assert xs == init + [xs[|xs| - 1]];
    }
  }

  /** Appending more elements only extends what is kept. */
  lemma {:induction false} DedupByGrows<T(!new), K(!new)>(a: seq<T>, b: seq<T>, key: T -> K)
    ensures DedupBy(a, key) <= DedupBy(a + b, key)
  {
    if b != [] {
      var init := b[..|b| - 1];
      DedupByGrows(a, init, key);
      assert a + b == (a + init) + [b[|b| - 1]];
      DedupByStep(a + init, b[|b| - 1], key);
    } else {
      assert a + b == a;
    }
  }

  /** The keys of an extended sequence, as a set. */
  lemma KeysStep<T, K>(xs: seq<T>, y: T, key: T -> K)
    ensures Keys(xs + [y], key) == Keys(xs, key) + [key(y)]
    ensures Elems(Keys(xs + [y], key)) == Elems(Keys(xs, key)) + {key(y)}
  {
    assert Keys(xs + [y], key) == Keys(xs, key) + [key(y)];
  }

  /** Appending one element adds one to the count iff it satisfies `p`. */
  lemma CountAppend<T>(xs: seq<T>, x: T, p: T -> bool)
    ensures Count(xs + [x], p) == Count(xs, p) + if p(x) then 1 else 0
  {
    CountConcat(xs, [x], p);
    assert [x][1..] == [];
  }

  /** `CountAppend` on the last element of a non-empty sequence. */
  lemma CountLast<T>(xs: seq<T>, p: T -> bool)
    requires xs != []
    ensures Count(xs, p) == Count(xs[..|xs| - 1], p) + if p(xs[|xs| - 1]) then 1 else 0
  {
    CountAppend(xs[..|xs| - 1], xs[|xs| - 1], p);
    assert xs[..|xs| - 1] + [xs[|xs| - 1]] == xs;
  }

  /** `FilterMapAppend` on the last element of a non-empty sequence. */
  lemma FilterMapLast<T, U>(xs: seq<T>, f: T -> Option<U>)
    requires xs != []
    ensures FilterMap(xs, f) == FilterMap(xs[..|xs| - 1], f) + if f(xs[|xs| - 1]).Some? then [f(xs[|xs| - 1]).value] else []
  {
    FilterMapAppend(xs[..|xs| - 1], xs[|xs| - 1], f);
    assert xs[..|xs| - 1] + [xs[|xs| - 1]] == xs;
  }

  /**
   * One step of a loop that keeps the first element of each key, with the
   * set of keys seen so far: an element whose key was seen is skipped,
   * otherwise it is kept and its key recorded.
   */
  lemma DedupBySeenStep<T(!new), K(!new)>(xs: seq<T>, d: seq<T>, seen: set<K>, y: T, key: T -> K)
    requires d == DedupBy(xs, key) && seen == Elems(Keys(xs, key))
    ensures key(y) in seen ==> d == DedupBy(xs + [y], key) && seen == Elems(Keys(xs + [y], key))
    ensures key(y) !in seen ==> d + [y] == DedupBy(xs + [y], key) && seen + {key(y)} == Elems(Keys(xs + [y], key))
  {
    KeysStep(xs, y, key);
    DedupByStep(xs, y, key);
  }

  /**
   * The loop that keeps, in order, the first element of each key among
   * those `keep` holds for, with the set of keys seen so far.
   */
  method DedupFiltered<T(==,!new), K(==,!new)>(xs: seq<T>, keep: T -> bool, key: T -> K) returns (r: seq<T>)
    ensures r == DedupBy(Filter(xs, keep), key)
  {
    var seen: set<K> := {};
    r := [];
    ghost var kept: seq<T> := [];
    var b := 0;
    while b < |xs|
      invariant 0 <= b <= |xs|
      invariant kept == Filter(xs[..b], keep)
      invariant r == DedupBy(kept, key)
      invariant seen == Elems(Keys(kept, key))
    {
      var x := xs[b];
      FilterSnoc(xs, b, keep);
      if keep(x) {
        DedupBySeenStep(kept, r, seen, x, key);
        if key(x) !in seen {
          seen := seen + {key(x)};
          r := r + [x];
        }
        kept := kept + [x];
      }
      b := b + 1;
    }
    assert xs[..|xs|] == xs;
  }

  /** One more element of a prefix: kept by the filter exactly when `p` holds for it. */
  lemma FilterSnoc<T(!new)>(xs: seq<T>, b: nat, p: T -> bool)
    requires b < |xs|
    ensures Filter(xs[..b + 1], p) == Filter(xs[..b], p) + (if p(xs[b]) then [xs[b]] else [])
  {
    PrefixSnoc(xs, b);
    FilterConcat(xs[..b], [xs[b]], p);
    FilterSingle(xs[b], p);
  }

  /** A prefix one longer is the prefix and the next element. */
  lemma PrefixSnoc<T>(xs: seq<T>, b: nat)
    requires b < |xs|
    ensures xs[..b + 1] == xs[..b] + [xs[b]]
  {
  }

  lemma FilterSingle<T(!new)>(x: T, p: T -> bool)
    ensures Filter([x], p) == if p(x) then [x] else []
  {
    assert [x][1..] == [];
  }

  /** The results are exactly the defined values of `f` on `xs`. */
  lemma {:induction false} FilterMapMembers<T, U>(xs: seq<T>, f: T -> Option<U>)
    ensures forall y :: y in FilterMap(xs, f) <==> exists i :: 0 <= i < |xs| && f(xs[i]) == Some(y)
  {
    if xs != [] {
      var init := xs[..|xs| - 1];
      FilterMapMembers(init, f);
      forall y ensures y in FilterMap(xs, f) <==> exists i :: 0 <= i < |xs| && f(xs[i]) == Some(y) {
        if y in FilterMap(init, f) {
          var i :| 0 <= i < |init| && f(init[i]) == Some(y);
          assert xs[i] == init[i];
        }
        if exists i :: 0 <= i < |xs| && f(xs[i]) == Some(y) {
          var i :| 0 <= i < |xs| && f(xs[i]) == Some(y);
          if i < |init| {
            assert init[i] == xs[i];
          }
        }
      }
    }
  }

  /** The first element of `xs` satisfying `p`, if any (a loop that returns on the first hit). */
  function Find<T>(xs: seq<T>, p: T -> bool): (r: Option<T>)
    ensures r.None? <==> forall i :: 0 <= i < |xs| ==> !p(xs[i])
    ensures r.Some? ==> exists i :: 0 <= i < |xs| && xs[i] == r.value && p(xs[i])
                          && forall j :: 0 <= j < i ==> !p(xs[j])
  {
    if xs == [] then None
    else if p(xs[0]) then Some(xs[0])
    else
      var r := Find(xs[1..], p);
      assert forall j :: 1 <= j < |xs| ==> xs[j] == xs[1..][j - 1];
      r
  }

  /** For each item, the first element of `ys` that the item's test accepts. */
  function FindOf<T, U>(ys: seq<U>, p: T -> U -> bool): T -> Option<U>
  {
    (x: T) => Find(ys, p(x))
  }

  /** A loop that records, for each item, the first element of `ys` its test accepts. */
  lemma {:induction false} FilterMapFind<T, U>(xs: seq<T>, ys: seq<U>, p: T -> U -> bool)
    ensures forall y :: y in FilterMap(xs, FindOf(ys, p)) ==> exists k, i :: (0 <= k < |xs| && 0 <= i < |ys| && ys[i] == y
      && p(xs[k])(ys[i]) && forall j :: 0 <= j < i ==> !p(xs[k])(ys[j]))
  {
    if xs != [] {
      var init := xs[..|xs| - 1];
      var last := xs[|xs| - 1];
      FilterMapFind(init, ys, p);
      forall y | y in FilterMap(xs, FindOf(ys, p))
        ensures exists k, i :: (0 <= k < |xs| && 0 <= i < |ys| && ys[i] == y
          && p(xs[k])(ys[i]) && forall j :: 0 <= j < i ==> !p(xs[k])(ys[j]))
      {
        if y in FilterMap(init, FindOf(ys, p)) {
          var k, i :| 0 <= k < |init| && 0 <= i < |ys| && ys[i] == y
            && p(init[k])(ys[i]) && forall j :: 0 <= j < i ==> !p(init[k])(ys[j]);
          assert xs[k] == init[k];
        } else {
          assert Find(ys, p(last)) == Some(y);
          assert xs[|xs| - 1] == last;
        }
      }
    }
  }

  /** Filtering a sequence without duplicates gives one without duplicates. */
  lemma {:induction false} FilterNoDup<T(!new)>(xs: seq<T>, p: T -> bool)
    ensures NoDup(xs) ==> NoDup(Filter(xs, p))
  {
    if xs != [] && NoDup(xs) {
      assert NoDup(xs[1..]) by {
        forall i, j | 0 <= i < j < |xs[1..]| ensures xs[1..][i] != xs[1..][j] {
          assert xs[1..][i] == xs[i + 1] && xs[1..][j] == xs[j + 1];
        }
      }
      FilterNoDup(xs[1..], p);
      var rest := Filter(xs[1..], p);
      if p(xs[0]) {
        assert xs[0] !in xs[1..] by {
          forall k | 0 <= k < |xs[1..]| ensures xs[1..][k] != xs[0] {
            assert xs[1..][k] == xs[k + 1];
          }
        }
        assert xs[0] !in rest;
        var r := [xs[0]] + rest;
        forall i, j | 0 <= i < j < |r| ensures r[i] != r[j] {
          if i == 0 {
            assert r[j] == rest[j - 1];
            assert r[j] in rest;
          } else {
            assert r[i] == rest[i - 1] && r[j] == rest[j - 1];
          }
        }
      }
    }
  }

  /** Python `Counter(key(x) for x in xs)`. */
  function CountBy<T, K>(xs: seq<T>, key: T -> K): (m: map<K, nat>)
  {
    if xs == [] then map[]
    else
      var m := CountBy(xs[1..], key);
      var k := key(xs[0]);
      m[k := (if k in m then m[k] else 0) + 1]
  }

  /** A key is counted iff some element has it, and its count is the number of such elements. */
  lemma {:induction false} CountBySpec<T, K(!new)>(xs: seq<T>, key: T -> K, k: K, hasKey: T -> bool)
    requires forall x :: hasKey(x) == (key(x) == k)
    ensures k in CountBy(xs, key) <==> exists i :: 0 <= i < |xs| && key(xs[i]) == k
    ensures k in CountBy(xs, key) ==> CountBy(xs, key)[k] == Count(xs, hasKey)
    ensures k !in CountBy(xs, key) ==> Count(xs, hasKey) == 0
  {
    if xs != [] {
      CountBySpec(xs[1..], key, k, hasKey);
      if exists i :: 0 <= i < |xs[1..]| && key(xs[1..][i]) == k {
        var i :| 0 <= i < |xs[1..]| && key(xs[1..][i]) == k;
        assert key(xs[i + 1]) == k;
      }
      if exists i :: 0 <= i < |xs| && key(xs[i]) == k {
        var i :| 0 <= i < |xs| && key(xs[i]) == k;
        if i > 0 {
          assert key(xs[1..][i - 1]) == k;
        }
      }
    }
  }

  /** One more occurrence of `k`. */
  function Tally<K>(m: map<K, nat>, k: K): (r: map<K, nat>)
    ensures r.Keys == m.Keys + {k}
    ensures r[k] == (if k in m then m[k] else 0) + 1
    ensures forall j :: j in m && j != k ==> r[j] == m[j]
  {
    m[k := (if k in m then m[k] else 0) + 1]
  }

  /** Counting one more element at the end, as a loop does. */
  lemma {:induction false} CountByAppend<T, K>(xs: seq<T>, x: T, key: T -> K)
    ensures CountBy(xs + [x], key) == Tally(CountBy(xs, key), key(x))
  {
    if xs != [] {
      assert (xs + [x])[1..] == xs[1..] + [x];
      assert (xs + [x])[0] == xs[0];
      CountByAppend(xs[1..], x, key);
    }
  }

  /** The numbers from `k` below `n` that `p` holds for, in increasing order. */
  function Indices(p: nat -> bool, k: nat, n: nat): seq<nat>
    requires k <= n
    decreases n - k
  {
    if k == n then [] else (if p(k) then [k] else []) + Indices(p, k + 1, n)
  }

  /** The indices from `k` on lie in `k..n-1` and satisfy `p`. */
  lemma {:induction false} IndicesSound(p: nat -> bool, k: nat, n: nat)
    requires k <= n
    ensures |Indices(p, k, n)| <= n - k
    ensures forall m :: m in Indices(p, k, n) ==> k <= m < n && p(m)
    decreases n - k
  {
    if k < n {
      IndicesSound(p, k + 1, n);
    }
  }

  /** The indices from `k` on are strictly increasing. */
  lemma {:induction false} IndicesIncreasing(p: nat -> bool, k: nat, n: nat)
    requires k <= n
    ensures forall i, j :: 0 <= i < j < |Indices(p, k, n)| ==> Indices(p, k, n)[i] < Indices(p, k, n)[j]
    decreases n - k
  {
    if k < n {
      IndicesIncreasing(p, k + 1, n);
      IndicesSound(p, k + 1, n);
      var rest := Indices(p, k + 1, n);
      if p(k) {
        var s := Indices(p, k, n);
        assert s == [k] + rest;
        forall i, j | 0 <= i < j < |s| ensures s[i] < s[j] {
          assert s[j] == rest[j - 1] && s[j] in rest;
          if i > 0 {
            assert s[i] == rest[i - 1];
          }
        }
      }
    }
  }

  /** Every number from `k` below `n` that `p` holds for is listed. */
  lemma {:induction false} IndicesComplete(p: nat -> bool, k: nat, n: nat)
    requires k <= n
    ensures forall m :: k <= m < n && p(m) ==> m in Indices(p, k, n)
    decreases n - k
  {
    if k < n {
      IndicesComplete(p, k + 1, n);
    }
  }

  function Min(a: int, b: int): int { if a <= b then a else b }
  function Max(a: int, b: int): int { if a >= b then a else b }
}
