/**
 * The active-learning sampler (src/ml/active_learning_sampler.py): the JD
 * text handed to the encoder, cluster sampling, greedy farthest-point
 * sampling and stratified sampling.
 *
 * The encoder, K-Means and the random generator are oracles: K-Means
 * gives each job its cluster label, and for each cluster the member jobs
 * ordered by distance to the centre; the farthest-point choice and
 * `random.sample` are functions supplied by the caller.
 */
module Sampler {
  import opened Wrappers
  import opened Text
  import opened Order

  // ------------------------------------------------------------------ JD text

  /** A job field that may be missing, a list, or some other value (shown as text). */
  datatype Field = Missing | List(items: seq<string>) | Other(text: string)

  /** The fields `_extract_jd_text` reads; the empty string stands for a falsy value. */
  datatype Job = Job(jdText: string, title: string, skills: Field, description: string, welfare: Field)

  const TextLimit := 1000
  const SkillLimit := 20
  const DescriptionLimit := 500
  const WelfareLimit := 5

  /** A field is truthy when it is a non-empty list or a non-empty other value. */
  predicate Truthy(f: Field)
  {
    match f
    case Missing => false
    case List(items) => items != []
    case Other(text) => text != []
  }

  /** The labelled sections, in the order title, skills, description, welfare. */
  function Sections(job: Job): (r: seq<string>)
    ensures |r| <= 4
    ensures job.title != [] ==> |r| > 0 && r[0] == "岗位: " + job.title
    ensures job.title == [] && !Truthy(job.skills) && job.description == [] && !(job.welfare.List? && job.welfare.items != []) ==> r == []
  {
    (if job.title != [] then ["岗位: " + job.title] else [])
    + (match job.skills
       case List(items) => if items != [] then ["技能: " + Join(Take(items, SkillLimit), ", ")] else []
       case Other(text) => if text != [] then ["技能: " + text] else []
       case Missing => [])
    + (if job.description != [] then ["描述: " + Take(job.description, DescriptionLimit)] else [])
    + (if job.welfare.List? && job.welfare.items != [] then ["福利: " + Join(Take(job.welfare.items, WelfareLimit), ", ")] else [])
  }

  /**
   * `_extract_jd_text`: a non-empty stored JD text cut to 1000 characters,
   * otherwise the sections joined by newlines, cut to 1000 characters.
   */
  function ExtractJdText(job: Job): (r: string)
    ensures |r| <= TextLimit
    ensures job.jdText != [] ==> IsPrefix(r, job.jdText) && (|job.jdText| >= TextLimit ==> |r| == TextLimit)
    ensures job.jdText == [] ==> IsPrefix(r, Join(Sections(job), "\n"))
  {
    if job.jdText != [] then Take(job.jdText, TextLimit)
    else Take(Join(Sections(job), "\n"), TextLimit)
  }

  // ------------------------------------------------------------------ cluster sampling

  /** `min(max(target // 15, 100), len(jobs) // 5)`. */
  function ClusterCount(target: nat, n: nat): (k: nat)
    ensures k <= n / 5
    ensures n / 5 >= 100 && target / 15 <= 100 ==> k == 100
    ensures k == 0 <==> n < 5
  {
    Min(Max(target / 15, 100), n / 5)
  }

  /** Each cluster contributes at most `target // n_clusters + 1` jobs. */
  function PerCluster(target: nat, clusters: nat): nat
    requires clusters > 0
  {
    target / clusters + 1
  }

  /** The jobs of one cluster in the order of the label array. */
  function Members(labels: seq<nat>, c: nat): (r: seq<nat>)
    ensures forall x: nat :: x in r <==> x < |labels| && labels[x] == c
  {
    if labels == [] then []
    else
      var last := |labels| - 1;
      var init := Members(labels[..last], c);
      assert forall x :: 0 <= x < last ==> labels[..last][x] == labels[x];
      if labels[last] == c then init + [last] else init
  }

  /** The jobs cluster `c` offers: its `min(per, |members|)` members nearest the centre. */
  function Picks(labels: seq<nat>, nearest: nat -> seq<nat>, per: nat): nat -> seq<nat>
  {
    Capped(nearest, CapOf(labels, per))
  }

  /** Cluster `c` offers at most `per` jobs, and no more than it has. */
  function CapOf(labels: seq<nat>, per: nat): nat -> nat
  {
    c => Min(per, |Members(labels, c)|)
  }

  /** The first `cap(c)` of each nearest list. */
  function Capped(nearest: nat -> seq<nat>, cap: nat -> nat): nat -> seq<nat>
  {
    c => Take(nearest(c), cap(c))
  }

  /** The offers of clusters `0..c-1`, in cluster order. */
  function Offered(picks: nat -> seq<nat>, c: nat): seq<nat>
  {
    if c == 0 then [] else Offered(picks, c - 1) + picks(c - 1)
  }

  /** The offers of a later cluster only extend those of the earlier ones. */
  lemma {:induction false} OfferedPrefix(picks: nat -> seq<nat>, c: nat, d: nat)
    requires c <= d
    ensures Prefix(Offered(picks, c), Offered(picks, d))
    decreases d
  {
    if c < d {
      OfferedPrefix(picks, c, d - 1);
      assert Offered(picks, d)[..|Offered(picks, d - 1)|] == Offered(picks, d - 1);
    }
  }

  /** `a` is a prefix of `b`. */
  predicate Prefix<T(==)>(a: seq<T>, b: seq<T>)
  {
    |a| <= |b| && b[..|a|] == a
  }

  /** A prefix of `ys` reaching length `m` has the same first `m` elements as `ys`. */
  lemma TakeOfPrefix<T>(xs: seq<T>, ys: seq<T>, m: nat)
    requires Prefix(xs, ys) && |xs| >= m
    ensures Take(xs, m) == Take(ys, m)
  {
    assert xs == ys[..|xs|];
  }

  /**
   * `_cluster_sampling`: no clusters (fewer than five jobs) is an error
   * from K-Means; otherwise the clusters are visited in order, each
   * offering its nearest members one by one, and sampling stops right
   * after the append that reaches the target. The check follows the
   * append, so the result is the first `max(target, 1)` offers.
   */
  method ClusterSample(n: nat, target: nat, labels: seq<nat>, nearest: nat -> seq<nat>)
    returns (r: Outcome<seq<nat>>)
    requires |labels| == n
    ensures r.Failure? <==> ClusterCount(target, n) == 0
    ensures r.Success? ==> (r.value ==
      Take(Offered(Picks(labels, nearest, PerCluster(target, ClusterCount(target, n))), ClusterCount(target, n)), Max(target, 1)))
  {
    var clusters := ClusterCount(target, n);
    if clusters == 0 {
      return Failure;
    }
    var sampled := CollectAfterAppend(Picks(labels, nearest, PerCluster(target, clusters)), clusters, target);
    return Success(sampled);
  }

  /** The sampling loop of `_cluster_sampling`: append, then stop once the target is reached. */
  method CollectAfterAppend(picks: nat -> seq<nat>, clusters: nat, target: nat) returns (sampled: seq<nat>)
    ensures sampled == Take(Offered(picks, clusters), Max(target, 1))
  {
    var m := Max(target, 1);
    sampled := [];
    var done := false;
    var c := 0;
    while c < clusters && !done
      invariant 0 <= c <= clusters
      invariant !done ==> sampled == Offered(picks, c) && |sampled| < m
      invariant done ==> |Offered(picks, c)| >= m && sampled == Take(Offered(picks, c), m)
    {
      var closest := picks(c);
      if |closest| == 0 {
        OfferStep(picks, c, 0);
        c := c + 1;
        continue;
      }
      var k := 0;
      while k < |closest| && !done
        invariant 0 <= k <= |closest|
        invariant !done ==> sampled == Offered(picks, c) + closest[..k] && |sampled| < m
        invariant done ==> |Offered(picks, c) + closest[..k]| >= m && sampled == Take(Offered(picks, c) + closest[..k], m)
      {
        assert closest[..k + 1] == closest[..k] + [closest[k]];
        sampled := sampled + [closest[k]];
        if |sampled| >= target {
          done := true;
        }
        k := k + 1;
      }
      OfferStep(picks, c, k);
      if done {
        TakeOfPrefix(Offered(picks, c) + closest[..k], Offered(picks, c + 1), m);
      }
      c := c + 1;
    }
    if done {
      OfferedPrefix(picks, c, clusters);
      TakeOfPrefix(Offered(picks, c), Offered(picks, clusters), m);
    }
  }

  /** Part of cluster `c`'s offer after the earlier ones is a prefix of the offers up to `c`. */
  lemma OfferStep(picks: nat -> seq<nat>, c: nat, k: nat)
    requires k <= |picks(c)|
    ensures Prefix(Offered(picks, c) + picks(c)[..k], Offered(picks, c + 1))
    ensures k == |picks(c)| ==> Offered(picks, c) + picks(c)[..k] == Offered(picks, c + 1)
  {
    assert Offered(picks, c + 1) == Offered(picks, c) + picks(c);
    assert (Offered(picks, c) + picks(c))[..|Offered(picks, c)| + k] == Offered(picks, c) + picks(c)[..k];
    assert picks(c)[..|picks(c)|] == picks(c);
  }

  /**
   * The same loop with the target checked before each append: the result
   * is the first `target` offers.
   */
  method ClusterSampleChecked(n: nat, target: nat, labels: seq<nat>, nearest: nat -> seq<nat>)
    returns (r: Outcome<seq<nat>>)
    requires |labels| == n
    ensures r.Failure? <==> ClusterCount(target, n) == 0
    ensures r.Success? ==> (r.value ==
      Take(Offered(Picks(labels, nearest, PerCluster(target, ClusterCount(target, n))), ClusterCount(target, n)), target))
  {
    var clusters := ClusterCount(target, n);
    if clusters == 0 {
      return Failure;
    }
    var sampled := CollectChecked(Picks(labels, nearest, PerCluster(target, clusters)), clusters, target);
    return Success(sampled);
  }

  /** The sampling loop with the target checked before each append. */
  method CollectChecked(picks: nat -> seq<nat>, clusters: nat, target: nat) returns (sampled: seq<nat>)
    ensures sampled == Take(Offered(picks, clusters), target)
  {
    sampled := [];
    var c := 0;
    while c < clusters && |sampled| < target
      invariant 0 <= c <= clusters
      invariant |sampled| < target ==> sampled == Offered(picks, c)
      invariant |sampled| >= target ==> (|Offered(picks, c)| >= target && sampled == Take(Offered(picks, c), target))
    {
      var closest := picks(c);
      var k := 0;
      while k < |closest| && |sampled| < target
        invariant 0 <= k <= |closest|
        invariant |sampled| < target ==> sampled == Offered(picks, c) + closest[..k]
        invariant |sampled| >= target ==> (|Offered(picks, c) + closest[..k]| >= target &&
          sampled == Take(Offered(picks, c) + closest[..k], target))
      {
        assert closest[..k + 1] == closest[..k] + [closest[k]];
        sampled := sampled + [closest[k]];
        k := k + 1;
      }
      OfferStep(picks, c, k);
      if |sampled| >= target {
        TakeOfPrefix(Offered(picks, c) + closest[..k], Offered(picks, c + 1), target);
      }
      c := c + 1;
    }
    if |sampled| >= target {
      OfferedPrefix(picks, c, clusters);
      TakeOfPrefix(Offered(picks, c), Offered(picks, clusters), target);
    }
  }

  /** With no jobs in any cluster past the label array, the offers reach every non-empty cluster. */
  lemma {:induction false} OfferedNonEmpty(picks: nat -> seq<nat>, c: nat, d: nat)
    requires c < d && picks(c) != []
    ensures Offered(picks, d) != []
    decreases d
  {
    if c < d - 1 {
      OfferedNonEmpty(picks, c, d - 1);
    }
  }

  /**
   * With a target of 0 and at least five jobs, the loop as written still
   * returns one job: the first cluster's nearest member.
   */
  lemma ZeroTargetSamplesOne(n: nat, labels: seq<nat>, nearest: nat -> seq<nat>)
    requires n >= 5 && |labels| == n
    requires forall x :: 0 <= x < n ==> labels[x] < ClusterCount(0, n)
    requires forall c :: |nearest(c)| == |Members(labels, c)|
    ensures var picks := Picks(labels, nearest, PerCluster(0, ClusterCount(0, n)));
      |Take(Offered(picks, ClusterCount(0, n)), Max(0, 1))| == 1
  {
    var clusters := ClusterCount(0, n);
    var picks := Picks(labels, nearest, PerCluster(0, clusters));
    var c := labels[0];
    assert 0 in Members(labels, c);
    assert |picks(c)| == 1;
    OfferedNonEmpty(picks, c, clusters);
  }

  /** Count of elements satisfying `p` in a sequence none of whose elements satisfies it. */
  lemma {:induction false} CountNone<T>(xs: seq<T>, p: T -> bool)
    requires forall x :: x in xs ==> !p(x)
    ensures Count(xs, p) == 0
  {
    if xs != [] {
      assert forall x :: x in xs[1..] ==> x in xs;
      CountNone(xs[1..], p);
    }
  }

  function InCluster(labels: seq<nat>, c: nat): nat -> bool
  {
    (x: nat) => x < |labels| && labels[x] == c
  }

  /** Every list `picks(e)` holds only members of cluster `e`. */
  ghost predicate OwnMembers(picks: nat -> seq<nat>, labels: seq<nat>)
  {
    forall e: nat, i :: 0 <= i < |picks(e)| ==> picks(e)[i] < |labels| && labels[picks(e)[i]] == e
  }

  /** Only cluster `c`'s offer holds members of `c`. */
  lemma OfferedCount(picks: nat -> seq<nat>, labels: seq<nat>, c: nat, d: nat)
    requires OwnMembers(picks, labels)
    ensures Count(Offered(picks, d), InCluster(labels, c)) == if c < d then Count(picks(c), InCluster(labels, c)) else 0
  {
    forall e: nat | e != c
      ensures Count(picks(e), InCluster(labels, c)) == 0
    {
      OtherOfferNone(picks, labels, c, e);
    }
    OfferedCountOf(picks, InCluster(labels, c), c, d);
  }

  /** When no other list holds an element with `p`, the offers hold exactly list `c`'s. */
  lemma {:induction false} OfferedCountOf(picks: nat -> seq<nat>, p: nat -> bool, c: nat, d: nat)
    requires forall e: nat :: e != c ==> Count(picks(e), p) == 0
    ensures Count(Offered(picks, d), p) == if c < d then Count(picks(c), p) else 0
    decreases d
  {
    if d > 0 {
      OfferedCountOf(picks, p, c, d - 1);
      CountConcat(Offered(picks, d - 1), picks(d - 1), p);
    }
  }

  /** Another cluster's offer holds no member of `c`. */
  lemma OtherOfferNone(picks: nat -> seq<nat>, labels: seq<nat>, c: nat, e: nat)
    requires OwnMembers(picks, labels) && e != c
    ensures Count(picks(e), InCluster(labels, c)) == 0
  {
    forall x | x in picks(e) ensures !InCluster(labels, c)(x) {
      var i :| 0 <= i < |picks(e)| && picks(e)[i] == x;
    }
    CountNone(picks(e), InCluster(labels, c));
  }

  /**
   * When each cluster's pick list holds at most `per` of its own members,
   * any prefix of the offers holds at most `per` jobs of each cluster.
   */
  lemma TakeOfferedBounds(picks: nat -> seq<nat>, labels: seq<nat>, clusters: nat, per: nat, m: nat, c: nat)
    requires OwnMembers(picks, labels)
    requires forall e: nat :: |picks(e)| <= per
    ensures |Take(Offered(picks, clusters), m)| <= m
    ensures Count(Take(Offered(picks, clusters), m), InCluster(labels, c)) <= per
  {
    var all := Offered(picks, clusters);
    var sample := Take(all, m);
    OfferedCount(picks, labels, c, clusters);
    assert all == sample + all[|sample|..];
    CountConcat(sample, all[|sample|..], InCluster(labels, c));
  }

  /** Capping the nearest lists keeps their membership, and a cap below `per` bounds their length. */
  lemma CappedOwnMembers(labels: seq<nat>, nearest: nat -> seq<nat>, cap: nat -> nat, per: nat)
    requires OwnMembers(nearest, labels)
    requires forall e: nat :: cap(e) <= per
    ensures OwnMembers(Capped(nearest, cap), labels)
    ensures forall e: nat :: |Capped(nearest, cap)(e)| <= per
  {
    var picks := Capped(nearest, cap);
    forall e: nat, i | 0 <= i < |picks(e)|
      ensures picks(e)[i] < |labels| && labels[picks(e)[i]] == e
    {
      assert picks(e)[i] == nearest(e)[i];
    }
  }

  /** The pick lists of `Picks` keep the nearest lists' membership and the per-cluster cap. */
  lemma PicksOwnMembers(labels: seq<nat>, nearest: nat -> seq<nat>, per: nat)
    requires OwnMembers(nearest, labels)
    ensures OwnMembers(Picks(labels, nearest, per), labels)
    ensures forall e: nat :: |Picks(labels, nearest, per)(e)| <= per
  {
    var cap := CapOf(labels, per);
    assert forall e: nat :: cap(e) <= per;
    CappedOwnMembers(labels, nearest, cap, per);
    assert Picks(labels, nearest, per) == Capped(nearest, cap);
  }

  lemma TakeMember<T>(s: seq<T>, n: nat, x: T)
    requires x in Take(s, n)
    ensures x in s
  {
    assert Take(s, n) == s[..|Take(s, n)|];
  }

  /**
   * When the nearest lists hold only the cluster's own members, the
   * sample holds at most `target // n_clusters + 1` jobs of each cluster,
   * and at most `max(target, 1)` jobs overall.
   */
  lemma ClusterSampleBounds(n: nat, target: nat, labels: seq<nat>, nearest: nat -> seq<nat>, c: nat)
    requires |labels| == n && ClusterCount(target, n) > 0
    requires OwnMembers(nearest, labels)
    ensures var clusters := ClusterCount(target, n);
      var sample := Take(Offered(Picks(labels, nearest, PerCluster(target, clusters)), clusters), Max(target, 1));
      |sample| <= Max(target, 1) && Count(sample, InCluster(labels, c)) <= PerCluster(target, clusters)
  {
    var clusters := ClusterCount(target, n);
    var per := PerCluster(target, clusters);
    PicksOwnMembers(labels, nearest, per);
    TakeOfferedBounds(Picks(labels, nearest, per), labels, clusters, per, Max(target, 1), c);
  }

  // ------------------------------------------------------------------ diversity sampling

  /**
   * `_diversity_sampling`: an error when there are no jobs; otherwise start
   * from the random first index and add the farthest remaining index
   * `target - 1` times or until none remain.
   */
  method DiversitySample(n: nat, target: nat, first: nat, farthest: (seq<nat>, set<nat>) -> nat)
    returns (r: Outcome<seq<nat>>)
    requires n > 0 ==> first < n
    requires forall s, rem :: rem != {} ==> farthest(s, rem) in rem
    ensures r.Failure? <==> n == 0
    ensures r.Success? ==> (
      && |r.value| == Min(Max(target, 1), n)
      && NoDup(r.value)
      && r.value[0] == first
      && forall i :: i in r.value ==> i < n)
  {
    if n == 0 {
      return Failure;
    }
    var sampled: seq<nat> := [first];
    var remaining: set<nat> := Range(n) - {first};
    var step: nat := 0;
    while step < target - 1 && remaining != {}
      invariant NoDup(sampled) && sampled != [] && sampled[0] == first
      invariant forall i :: i in sampled ==> i < n
      invariant remaining == Range(n) - Elems(sampled)
      invariant |sampled| == 1 + step <= Max(target, 1)
      decreases n - |sampled|
    {
      SampledCard(sampled, n);
      var next := farthest(sampled, remaining);
      sampled := sampled + [next];
      remaining := remaining - {next};
      step := step + 1;
    }
    SampledCard(sampled, n);
    if remaining == {} {
      assert |sampled| == n;
    } else {
      assert |sampled| == Max(target, 1);
    }
    r := Success(sampled);
  }

  /**
   * A duplicate-free list of indices below `n` has at most `n` entries,
   * and exactly `n` once no index is left out.
   */
  lemma SampledCard(sampled: seq<nat>, n: nat)
    requires NoDup(sampled) && forall i :: i in sampled ==> i < n
    ensures |sampled| <= n
    ensures Range(n) - Elems(sampled) == {} ==> |sampled| == n
  {
    NoDupCardinality(sampled);
    SubsetCard(Elems(sampled), n);
    if Range(n) - Elems(sampled) == {} {
      CardMono(Range(n), Elems(sampled));
    }
  }

  /** The indices `0..n-1`. */
  function Range(n: nat): (r: set<nat>)
    ensures forall i: nat :: i in r <==> i < n
    ensures |r| == n
  {
    if n == 0 then {} else Range(n - 1) + {n - 1}
  }

  lemma CardMono(a: set<nat>, b: set<nat>)
    requires a <= b
    ensures |a| <= |b|
  {
    assert b == a + (b - a);
  }

  /** A set of indices below `n` has at most `n` elements. */
  lemma SubsetCard(s: set<nat>, n: nat)
    requires forall i :: i in s ==> i < n
    ensures |s| <= n
  {
    CardMono(s, Range(n));
  }

  // ------------------------------------------------------------------ stratified sampling

  /** `max(1, min(int(|group| / |jobs| * target), |group|))`, with exact arithmetic. */
  function Quota(group: nat, total: nat, target: nat): (q: nat)
    requires 0 < group <= total
    ensures 1 <= q <= group
    ensures group * target / total >= 1 ==> q == Min(group * target / total, group)
  {
    Max(1, Min(group * target / total, group))
  }

  /** The jobs whose key is `k`, in order. */
  function GroupOf<T, K(==)>(jobs: seq<T>, keys: seq<K>, k: K): (r: seq<T>)
    requires |keys| == |jobs|
    ensures |r| <= |jobs|
    ensures k in keys ==> r != []
    ensures k !in keys ==> r == []
  {
    if jobs == [] then []
    else
      var last := |jobs| - 1;
      assert k in keys ==> k in keys[..last] || keys[last] == k by {
        assert keys == keys[..last] + [keys[last]];
      }
      GroupOf(jobs[..last], keys[..last], k) + (if keys[last] == k then [jobs[last]] else [])
  }

  /** What the draws over groups `order[..g]` contribute, in group order. */
  function Drawn<T, K(==)>(jobs: seq<T>, keys: seq<K>, order: seq<K>, target: nat,
                    sample: (seq<T>, nat) -> seq<T>, g: nat): seq<T>
    requires |keys| == |jobs| && g <= |order| && forall k :: k in order ==> k in keys
  {
    if g == 0 then []
    else
      var group := GroupOf(jobs, keys, order[g - 1]);
      Drawn(jobs, keys, order, target, sample, g - 1) + sample(group, Quota(|group|, |jobs|, target))
  }

  /**
   * `stratified_sample`: group the jobs by key in first-seen key order,
   * then draw each group's quota with `random.sample`.
   */
  method Stratified<T, K(==,!new)>(jobs: seq<T>, keys: seq<K>, target: nat, sample: (seq<T>, nat) -> seq<T>)
    returns (sampled: seq<T>, order: seq<K>)
    requires |keys| == |jobs|
    ensures order == Dedup(keys)
    ensures sampled == Drawn(jobs, keys, order, target, sample, |order|)
  {
    var groups;
    groups, order := GroupByKey(jobs, keys);
    sampled := DrawGroups(jobs, keys, groups, order, target, sample);
  }

  /** The drawing loop over the groups in key order. */
  method DrawGroups<T, K(==)>(jobs: seq<T>, keys: seq<K>, groups: map<K, seq<T>>, order: seq<K>,
                              target: nat, sample: (seq<T>, nat) -> seq<T>)
    returns (sampled: seq<T>)
    requires |keys| == |jobs| && forall k :: k in order ==> k in keys
    requires forall k :: k in order ==> k in groups && groups[k] == GroupOf(jobs, keys, k)
    ensures sampled == Drawn(jobs, keys, order, target, sample, |order|)
  {
    sampled := [];
    var g := 0;
    while g < |order|
      invariant 0 <= g <= |order|
      invariant sampled == Drawn(jobs, keys, order, target, sample, g)
    {
      var items := groups[order[g]];
      sampled := sampled + sample(items, Quota(|items|, |jobs|, target));
      g := g + 1;
    }
  }

  /** The `defaultdict(list)` grouping: each key's jobs, and the keys in first-seen order. */
  method GroupByKey<T, K(==,!new)>(jobs: seq<T>, keys: seq<K>) returns (groups: map<K, seq<T>>, order: seq<K>)
    requires |keys| == |jobs|
    ensures order == Dedup(keys)
    ensures forall k :: k in groups <==> k in keys
    ensures forall k :: k in groups ==> groups[k] == GroupOf(jobs, keys, k)
  {
    groups := map[];
    order := [];
    var i := 0;
    while i < |jobs|
      invariant 0 <= i <= |jobs|
      invariant Grouped(jobs[..i], keys[..i], groups, order)
    {
      var k := keys[i];
      GroupedNext(jobs, keys, i, groups, order);
      groups, order := groups[k := if k in groups then groups[k] + [jobs[i]] else [jobs[i]]],
                       if k in groups then order else order + [k];
      i := i + 1;
    }
    assert jobs[..i] == jobs && keys[..i] == keys;
  }

  /** The loop invariant of the grouping: `order` lists the keys seen, `groups` their jobs. */
  ghost predicate Grouped<T, K(!new)>(jobs: seq<T>, keys: seq<K>, groups: map<K, seq<T>>, order: seq<K>)
    requires |keys| == |jobs|
  {
    && order == Dedup(keys)
    && (forall k :: k in groups <==> k in keys)
    && (forall k :: k in groups ==> groups[k] == GroupOf(jobs, keys, k))
  }

  /** The grouping invariant, carried from the first `i` jobs to the first `i + 1`. */
  lemma GroupedNext<T, K(!new)>(jobs: seq<T>, keys: seq<K>, i: nat, groups: map<K, seq<T>>, order: seq<K>)
    requires |keys| == |jobs| && i < |jobs| && Grouped(jobs[..i], keys[..i], groups, order)
    ensures Grouped(jobs[..i + 1], keys[..i + 1],
      groups[keys[i] := if keys[i] in groups then groups[keys[i]] + [jobs[i]] else [jobs[i]]],
      if keys[i] in groups then order else order + [keys[i]])
  {
    SliceSnoc(jobs, i);
    SliceSnoc(keys, i);
    GroupedStep(jobs[..i], keys[..i], groups, order, jobs[i], keys[i]);
  }

  lemma SliceSnoc<T>(s: seq<T>, i: nat)
    requires i < |s|
    ensures s[..i + 1] == s[..i] + [s[i]]
  {
  }

  /** Appending one job to its key's group keeps the grouping invariant. */
  lemma GroupedStep<T, K(!new)>(jobs: seq<T>, keys: seq<K>, groups: map<K, seq<T>>, order: seq<K>, x: T, k: K)
    requires |keys| == |jobs| && Grouped(jobs, keys, groups, order)
    ensures Grouped(jobs + [x], keys + [k],
      groups[k := if k in groups then groups[k] + [x] else [x]],
      if k in groups then order else order + [k])
  {
    DedupSnoc(keys, k);
    GroupsSnoc(jobs, keys, groups, x, k);
  }

  lemma DedupSnoc<K(!new)>(keys: seq<K>, k: K)
    ensures Dedup(keys + [k]) == if k in keys then Dedup(keys) else Dedup(keys) + [k]
  {
    assert (keys + [k])[..|keys|] == keys;
  }

  lemma GroupsSnoc<T, K>(jobs: seq<T>, keys: seq<K>, groups: map<K, seq<T>>, x: T, k: K)
    requires |keys| == |jobs|
    requires forall k :: k in groups <==> k in keys
    requires forall k :: k in groups ==> groups[k] == GroupOf(jobs, keys, k)
    ensures var groups' := groups[k := if k in groups then groups[k] + [x] else [x]];
      && (forall k' :: k' in groups' <==> k' in keys + [k])
      && (forall k' :: k' in groups' ==> groups'[k'] == GroupOf(jobs + [x], keys + [k], k'))
  {
    var jobs', keys' := jobs + [x], keys + [k];
    var groups' := groups[k := if k in groups then groups[k] + [x] else [x]];
    assert jobs'[..|jobs|] == jobs && keys'[..|keys|] == keys;
    forall k' | k' in groups'
      ensures groups'[k'] == GroupOf(jobs', keys', k')
    {
      if k' != k {
        assert groups'[k'] == groups[k'];
      }
    }
  }

  /**
   * When `random.sample` returns exactly the number asked for, the sample
   * holds exactly each group's quota, so between one and all of its jobs.
   */
  lemma {:induction false} DrawnSize<T, K>(jobs: seq<T>, keys: seq<K>, order: seq<K>, target: nat,
                                         sample: (seq<T>, nat) -> seq<T>, g: nat)
    requires |keys| == |jobs| && g <= |order| && forall k :: k in order ==> k in keys
    requires forall xs: seq<T>, q: nat :: q <= |xs| ==> |sample(xs, q)| == q
    ensures g <= |Drawn(jobs, keys, order, target, sample, g)|
    ensures |Drawn(jobs, keys, order, target, sample, g)| == QuotaSum(jobs, keys, order, target, g)
  {
    if g > 0 {
      DrawnSize(jobs, keys, order, target, sample, g - 1);
    }
  }

  /** The sum of the quotas of groups `order[..g]`. */
  function QuotaSum<T, K(==)>(jobs: seq<T>, keys: seq<K>, order: seq<K>, target: nat, g: nat): nat
    requires |keys| == |jobs| && g <= |order| && forall k :: k in order ==> k in keys
  {
    if g == 0 then 0
    else QuotaSum(jobs, keys, order, target, g - 1) + Quota(|GroupOf(jobs, keys, order[g - 1])|, |jobs|, target)
  }
}
