/**
 * The full rebuild of the vector store (scripts/rebuild_vector_db.py):
 * choose the data source (the newest enhanced file, otherwise all cleaned
 * city files together), drop repeated and missing job ids, drop records
 * unfit for indexing, and, when anything is left, empty the collection and
 * load the rest in batches of 64. Reading the directories and the files is
 * outside the model: the enhanced files arrive with their modification
 * times, the cleaned files in the order of their names.
 */
module RebuildVectorDb {
  import opened Wrappers
  import opened Text
  import opened Order
  import opened Ranking
  import opened VectorDb

  /** More skills than this marks a record as dirty. */
  const MaxSkills: nat := 30
  /** A title shorter than this, once stripped, marks a record as dirty. */
  const MinTitleLen: nat := 2
  /** The batch size of the reload. */
  const BatchSize: nat := 64

  /** An enhanced data file: its modification time and its records. */
  datatype DataFile = DataFile(mtime: real, jobs: seq<VJob>)

  function MTime(): DataFile -> real
  {
    (f: DataFile) => f.mtime
  }

  /**
   * `sorted(files, key=mtime, reverse=True)[0]`: a file no other file is
   * newer than.
   */
  function Newest(files: seq<DataFile>): (r: DataFile)
    requires files != []
    ensures r in files
    ensures forall f :: f in files ==> f.mtime <= r.mtime
  {
    var sorted := SortDesc(files, MTime());
    assert |sorted| == |multiset(sorted)| == |files|;
    assert sorted[0] in multiset(files);
    forall f | f in files ensures f.mtime <= sorted[0].mtime {
      assert f in multiset(sorted);
      var j :| 0 <= j < |sorted| && sorted[j] == f;
      assert j == 0 || MTime()(sorted[0]) >= MTime()(sorted[j]);
    }
    sorted[0]
  }

  /** The first element `p` keeps is the first of the sequence to satisfy `p`. */
  lemma {:induction false} FilterHead<T(!new)>(xs: seq<T>, p: T -> bool)
    requires Filter(xs, p) != []
    ensures exists i :: (0 <= i < |xs| && xs[i] == Filter(xs, p)[0] && p(xs[i])
      && forall q :: 0 <= q < i ==> !p(xs[q]))
  {
    if p(xs[0]) {
      assert xs[0] == Filter(xs, p)[0];
    } else {
      FilterHead(xs[1..], p);
      var i :| 0 <= i < |xs[1..]| && xs[1..][i] == Filter(xs[1..], p)[0] && p(xs[1..][i])
        && forall q :: 0 <= q < i ==> !p(xs[1..][q]);
      assert xs[i + 1] == Filter(xs, p)[0];
      forall q | 0 <= q < i + 1 ensures !p(xs[q]) {
        if q > 0 { assert xs[q] == xs[1..][q - 1]; }
      }
    }
  }

  /**
   * The sort is stable, so ties go to glob order: the chosen file is the
   * first of the newest files.
   */
  lemma NewestFirst(files: seq<DataFile>)
    requires files != []
    ensures exists i :: (0 <= i < |files| && files[i] == Newest(files)
      && forall q :: 0 <= q < i ==> files[q].mtime < Newest(files).mtime)
  {
    var sorted := SortDesc(files, MTime());
    var m := Newest(files).mtime;
    var p := WithKey(MTime(), m);
    SortDescStable(files, MTime(), m);
    assert |sorted| == |multiset(sorted)| == |files|;
    FilterCons(sorted[0], sorted[1..], p);
    assert [sorted[0]] + sorted[1..] == sorted;
    assert Filter(files, p)[0] == Newest(files);
    FilterHead(files, p);
    var i :| 0 <= i < |files| && files[i] == Filter(files, p)[0] && p(files[i])
      && forall q :: 0 <= q < i ==> !p(files[q]);
    forall q | 0 <= q < i ensures files[q].mtime < m {
      OlderThanNewest(files, files[q]);
    }
  }

  /** A file of another age than the newest is older. */
  lemma OlderThanNewest(files: seq<DataFile>, f: DataFile)
    requires files != [] && f in files && !WithKey(MTime(), Newest(files).mtime)(f)
    ensures f.mtime < Newest(files).mtime
  {
    assert MTime()(f) == f.mtime;
  }

  /**
   * The records the rebuild starts from: those of the newest enhanced
   * file if there is one, else every cleaned city file's records one
   * after another, else nothing (the run exits).
   */
  function Loaded(enhanced: seq<DataFile>, cleaned: seq<seq<VJob>>): Option<seq<VJob>>
  {
    if enhanced != [] then Some(Newest(enhanced).jobs)
    else if cleaned == [] then None
    else Some(Flatten(cleaned))
  }

  /** The source choice: enhanced data wins; cleaned data is used whole. */
  lemma LoadedSpec(enhanced: seq<DataFile>, cleaned: seq<seq<VJob>>)
    ensures Loaded(enhanced, cleaned).None? <==> enhanced == [] && cleaned == []
    ensures enhanced != [] ==> exists f :: (f in enhanced && Loaded(enhanced, cleaned) == Some(f.jobs)
      && forall g :: g in enhanced ==> g.mtime <= f.mtime)
    ensures enhanced == [] && cleaned != [] ==> forall j :: (j in Loaded(enhanced, cleaned).value
      <==> exists l :: l in cleaned && j in l)
  {
    if enhanced != [] {
      assert Newest(enhanced) in enhanced;
    }
  }

  /** A record fit for indexing: a title of at least two characters once stripped, and at most 30 skills. */
  predicate Indexable(j: VJob)
  {
    |Strip(j.title)| >= MinTitleLen && |j.skills| <= MaxSkills
  }

  /** The records that get indexed: the first record of each non-empty id, then only the fit ones. */
  function Prepared(all: seq<VJob>): seq<VJob>
  {
    Filter(Deduped(all), Indexable)
  }

  /**
   * What gets indexed is fit, comes from the input, has a non-empty id
   * that no other indexed record carries, and includes every first record
   * of an id that is fit.
   */
  lemma PreparedSpec(all: seq<VJob>)
    ensures forall j :: j in Prepared(all) ==> j in all && j.jobId != [] && Indexable(j)
    ensures NoDup(Keys(Prepared(all), JobIdOf))
    ensures forall i :: (0 <= i < |all| && all[i].jobId != [] && Indexable(all[i])
      && (forall q :: 0 <= q < i ==> all[q].jobId != all[i].jobId)) ==> all[i] in Prepared(all)
  {
    DedupedSpec(all);
    KeysFilterNoDup(Deduped(all), JobIdOf, Indexable);
    forall i | 0 <= i < |all| && all[i].jobId != [] && Indexable(all[i])
      && (forall q :: 0 <= q < i ==> all[q].jobId != all[i].jobId)
      ensures all[i] in Prepared(all)
    {
      FirstKept(all, i);
    }
  }

  /** Filtering keeps the keys distinct. */
  lemma {:induction false} KeysFilterNoDup<T(!new), K>(xs: seq<T>, key: T -> K, p: T -> bool)
    requires NoDup(Keys(xs, key))
    ensures NoDup(Keys(Filter(xs, p), key))
  {
    if xs != [] {
      assert Keys(xs[1..], key) == Keys(xs, key)[1..];
      KeysFilterNoDup(xs[1..], key, p);
      var t := Filter(xs[1..], p);
      if p(xs[0]) {
        var r := [xs[0]] + t;
        forall a, b | 0 <= a < b < |r| ensures key(r[a]) != key(r[b]) {
          if a == 0 {
            assert r[b] in xs[1..];
            var q :| 0 <= q < |xs[1..]| && xs[1..][q] == r[b];
            assert Keys(xs, key)[q + 1] == key(r[b]);
          } else {
            assert Keys(t, key)[a - 1] == key(r[a]) && Keys(t, key)[b - 1] == key(r[b]);
          }
        }
      }
    }
  }

  /** How a rebuild ends: no data file, nothing left after the filters, or the store reloaded. */
  datatype RebuildResult =
    | NoDataFiles
    | NothingToIndex(dedupRemoved: nat, filterRemoved: nat)
    | Rebuilt(dedupRemoved: nat, filterRemoved: nat)

  /**
   * `main`: both exits leave the store as it was; otherwise the store is
   * emptied (when it holds anything) and loaded from the prepared records
   * in batches of 64. The removal counts are those of the log.
   */
  method Rebuild(store: VectorStore, enhanced: seq<DataFile>, cleaned: seq<seq<VJob>>, fails: nat -> bool)
    returns (r: RebuildResult)
    modifies store
    ensures Loaded(enhanced, cleaned).None? ==> r == NoDataFiles && store.entries == old(store.entries)
    ensures Loaded(enhanced, cleaned).Some? ==>
      var all := Loaded(enhanced, cleaned).value;
      var kept := Prepared(all);
      && !r.NoDataFiles?
      && r.dedupRemoved == |all| - |Deduped(all)|
      && r.filterRemoved == |Deduped(all)| - |kept|
      && (kept == [] ==> r.NothingToIndex? && store.entries == old(store.entries))
      && (kept != [] ==> r.Rebuilt? && store.entries == Load(map[], kept, 0, BatchSize, fails, EntryOf))
  {
    var all: seq<VJob>;
    if enhanced != [] {
      all := Newest(enhanced).jobs;
    } else {
      if cleaned == [] {
        return NoDataFiles;
      }
      all := [];
      var k := 0;
      while k < |cleaned|
        invariant 0 <= k <= |cleaned|
        invariant all == Flatten(cleaned[..k])
      {
        assert cleaned[..k + 1][..k] == cleaned[..k];
        all := all + cleaned[k];
        k := k + 1;
      }
      assert cleaned[..|cleaned|] == cleaned;
    }
    var deduped := DedupBatch(all);
    var kept := Filter(deduped, Indexable);
    var dedupRemoved := |all| - |deduped|;
    var filterRemoved := |deduped| - |kept|;
    if kept == [] {
      return NothingToIndex(dedupRemoved, filterRemoved);
    }
    if store.Count() > 0 {
      store.Clear();
    }
    assert store.entries == map[];
    store.AddJobs(kept, BatchSize, fails);
    r := Rebuilt(dedupRemoved, filterRemoved);
  }

  /**
   * After a rebuild in which no batch fails, the store holds exactly the
   * ids of the prepared records, each with the entry built from its record.
   */
  lemma RebuiltStore(kept: seq<VJob>, fails: nat -> bool)
    requires forall o :: !fails(o)
    requires forall j :: j in kept ==> j.jobId != []
    ensures forall k :: k in Load(map[], kept, 0, BatchSize, fails, EntryOf) <==> exists j :: j in kept && j.jobId == k
  {
    var m := Load(map[], kept, 0, BatchSize, fails, EntryOf);
    LoadAll(map[], kept, 0, BatchSize, fails, EntryOf);
    LoadFrame(map[], kept, 0, BatchSize, fails, EntryOf);
    forall k | exists j :: j in kept && j.jobId == k ensures k in m {
      var j :| j in kept && j.jobId == k;
      var p :| 0 <= p < |kept| && kept[p] == j;
    }
  }
}
