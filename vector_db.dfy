/**
 * The Chroma-backed vector store of the retrieval layer
 * (src/rag/vector_db.py): the text each job is embedded from, the
 * metadata stored beside it, batch loading with per-batch dedup, and the
 * result-size rule of a search. The embedding model and the collection's
 * nearest-neighbour ranking are outside the model: a search receives the
 * ranking as a parameter, and a batch's encode/upsert failure is an
 * oracle indexed by the batch's start offset.
 */
module VectorDb {
  import opened Wrappers
  import opened Text
  import opened Order
  import opened ApiTypes

  /** A cleaned job record, as `add_jobs` reads it (a missing key is its empty value, a missing salary 0). */
  datatype VJob = VJob(jobId: string, title: string, city: string, company: string,
                       experience: string, education: string, salaryMin: int, salaryMax: int,
                       industry: string, companySize: string, skills: seq<string>, welfare: seq<string>)

  /** The metadata stored with each document; every value is text. */
  datatype Meta = Meta(jobId: string, title: string, city: string, company: string,
                       salaryMin: string, salaryMax: string, experience: string, education: string,
                       industry: string, companySize: string, skillsCount: string, skills: string)

  /** One stored document: the embedded text and its metadata. */
  datatype Entry = Entry(document: string, meta: Meta)

  /** One search hit: id, distance, document and metadata. */
  datatype Hit = Hit(id: string, distance: real, document: string, meta: Meta)

  /** `str(n)` for an integer. */
  function IntToString(n: int): (r: string)
    ensures |r| >= 1
    ensures n < 0 <==> r[0] == '-'
  {
    if n < 0 then "-" + NatToString(-n)
    else
      var s := NatToString(n);
      assert s[0] in s;
      s
  }

  // ------------------------------------------------------------------ document

  /** The skills joined by spaces. */
  function SkillText(job: VJob): string
  {
    Join(job.skills, " ")
  }

  /** The salary part is emitted only when both bounds are set and one of them is positive. */
  predicate SalaryShown(job: VJob)
  {
    job.salaryMin != 0 && job.salaryMax != 0 && (job.salaryMin > 0 || job.salaryMax > 0)
  }

  /** The number of candidate parts of a document. */
  const PartCount: nat := 10

  /**
   * Whether candidate part `k` of the document is emitted: 0 title,
   * 1 labelled skills, 2 the bare skills again, 3 city, 4 experience,
   * 5 education, 6 salary, 7 industry, 8 company, 9 welfare. Part 2 is the
   * only one without a label, so it is the only one the final
   * `filter(None, ...)` can drop.
   */
  predicate Present(job: VJob, k: nat)
  {
    if k == 0 then job.title != []
    else if k == 1 then job.skills != []
    else if k == 2 then job.skills != [] && SkillText(job) != []
    else if k == 3 then job.city != []
    else if k == 4 then job.experience != []
    else if k == 5 then job.education != []
    else if k == 6 then SalaryShown(job)
    else if k == 7 then job.industry != []
    else if k == 8 then job.company != []
    else if k == 9 then job.welfare != []
    else false
  }

  function Label(k: nat): string
  {
    if k == 0 then "岗位：" else if k == 1 then "技能要求：" else if k == 2 then ""
    else if k == 3 then "工作城市：" else if k == 4 then "工作经验：" else if k == 5 then "学历要求："
    else if k == 6 then "薪资范围：" else if k == 7 then "行业：" else if k == 8 then "公司："
    else "福利："
  }

  /** The content of part `k`; welfare is cut to five items. */
  function Body(job: VJob, k: nat): string
  {
    if k == 0 then job.title
    else if k == 1 || k == 2 then SkillText(job)
    else if k == 3 then job.city
    else if k == 4 then job.experience
    else if k == 5 then job.education
    else if k == 6 then IntToString(job.salaryMin) + "-" + IntToString(job.salaryMax) + "K"
    else if k == 7 then job.industry
    else if k == 8 then job.company
    else Join(Take(job.welfare, 5), " ")
  }

  function PresentOf(job: VJob): nat -> bool
  {
    (k: nat) => Present(job, k)
  }

  /** The emitted parts of a job's document, by number. */
  function DocSections(job: VJob): seq<nat>
  {
    Indices(PresentOf(job), 0, PartCount)
  }

  /** The emitted parts, each behind its label. */
  function DocParts(job: VJob): (r: seq<string>)
    ensures |r| == |DocSections(job)|
    ensures forall i :: 0 <= i < |r| ==> r[i] == Label(DocSections(job)[i]) + Body(job, DocSections(job)[i])
  {
    var secs := DocSections(job);
    seq(|secs|, i requires 0 <= i < |secs| => Label(secs[i]) + Body(job, secs[i]))
  }

  /** `_build_document`: the parts joined by ` | `. */
  function Document(job: VJob): string
  {
    Join(DocParts(job), " | ")
  }

  /**
   * Parts come in the fixed order title, skills, skills again, city,
   * experience, education, salary, industry, company, welfare; each at
   * most once and exactly when its field has content.
   */
  lemma DocSectionsSpec(job: VJob)
    ensures var s := DocSections(job);
      && |s| <= PartCount
      && (forall i, j :: 0 <= i < j < |s| ==> s[i] < s[j])
      && (forall m :: 0 <= m < PartCount ==> (m in s <==> Present(job, m)))
  {
    IndicesSound(PresentOf(job), 0, PartCount);
    IndicesIncreasing(PresentOf(job), 0, PartCount);
    IndicesComplete(PresentOf(job), 0, PartCount);
  }

  /** No emitted part is empty, and the welfare part holds at most five items. */
  lemma DocPartsNonEmpty(job: VJob)
    ensures forall p :: p in DocParts(job) ==> p != []
    ensures |Take(job.welfare, 5)| <= 5
  {
    IndicesSound(PresentOf(job), 0, PartCount);
    forall p | p in DocParts(job) ensures p != [] {
      var i :| 0 <= i < |DocParts(job)| && DocParts(job)[i] == p;
      var k := DocSections(job)[i];
      assert k in DocSections(job);
      PartNonEmpty(job, k);
    }
  }

  /** An emitted part is never empty: every part but the bare skills has a label. */
  lemma PartNonEmpty(job: VJob, k: nat)
    requires k < PartCount && Present(job, k)
    ensures Label(k) + Body(job, k) != []
  {
    if k != 2 {
      assert |Label(k)| > 0;
    }
  }

  /** The skill text is repeated: the labelled skills part is immediately followed by the bare one. */
  lemma SkillsTwice(job: VJob)
    requires job.skills != [] && SkillText(job) != []
    ensures exists i :: (0 <= i < |DocParts(job)| - 1
      && DocParts(job)[i] == "技能要求：" + SkillText(job) && DocParts(job)[i + 1] == SkillText(job))
  {
    DocSectionsSpec(job);
    var s := DocSections(job);
    assert 1 in s && 2 in s;
    var i :| 0 <= i < |s| && s[i] == 1;
    var j :| 0 <= j < |s| && s[j] == 2;
    assert i < j;
    assert s[i] < s[i + 1] && s[i + 1] <= s[j];
    assert DocParts(job)[i + 1] == [] + SkillText(job);
  }

  // ------------------------------------------------------------------ metadata

  /** At most this many skills are kept in the metadata's skill string. */
  const MetaSkillLimit: nat := 15

  /** The metadata stored for a job: the first fifteen skills comma-joined, the full count as text. */
  function Metadata(job: VJob): (r: Meta)
    ensures r.jobId == job.jobId && r.title == job.title
    ensures r.skills == Join(Take(job.skills, MetaSkillLimit), ",")
    ensures r.skillsCount == NatToString(|job.skills|)
    ensures r.salaryMin == IntToString(job.salaryMin) && r.salaryMax == IntToString(job.salaryMax)
  {
    Meta(job.jobId, job.title, job.city, job.company, IntToString(job.salaryMin), IntToString(job.salaryMax),
         job.experience, job.education, job.industry, job.companySize, NatToString(|job.skills|),
         if job.skills != [] then Join(Take(job.skills, MetaSkillLimit), ",") else "")
  }

  /** The metadata's skill string splits back into the first fifteen skills when no skill holds a comma. */
  lemma MetadataSkillsSplit(job: VJob)
    requires job.skills != []
    requires forall s :: s in job.skills ==> ',' !in s
    ensures Split(Metadata(job).skills, ',') == Take(job.skills, MetaSkillLimit)
  {
    var t := Take(job.skills, MetaSkillLimit);
    assert forall s :: s in t ==> s in job.skills;
    SplitJoin(t, ',');
  }

  function EntryOf(job: VJob): Entry
  {
    Entry(Document(job), Metadata(job))
  }

  // ------------------------------------------------------------------ batches

  function JobIdOf(job: VJob): string { job.jobId }

  predicate HasId(job: VJob) { job.jobId != [] }

  /** A batch after the in-batch dedup: jobs without an id dropped, then the first job of each id kept. */
  function Deduped(batch: seq<VJob>): seq<VJob>
  {
    DedupBy(Filter(batch, HasId), JobIdOf)
  }

  /** The deduped batch holds no empty id and no repeated id, and loses no id. */
  lemma DedupedSpec(batch: seq<VJob>)
    ensures forall j :: j in Deduped(batch) ==> j in batch && j.jobId != []
    ensures NoDup(Keys(Deduped(batch), JobIdOf))
    ensures forall j :: j in batch && j.jobId != [] ==> j.jobId in Keys(Deduped(batch), JobIdOf)
  {
    DedupByKeys(Filter(batch, HasId), JobIdOf);
  }

  /** The first job of an id in a batch survives the dedup. */
  lemma FirstKept(batch: seq<VJob>, i: nat)
    requires i < |batch| && batch[i].jobId != []
    requires forall p :: 0 <= p < i ==> batch[p].jobId != batch[i].jobId
    ensures batch[i] in Deduped(batch)
  {
    FilterFirstOfKey(batch, i);
    var f := Filter(batch, HasId);
    var u :| FirstOfKey(f, u, JobIdOf) && f[u] == batch[i];
    DedupByKeep(f, u);
  }

  /** The first job of an id is also the first of its id once the jobs without an id are dropped. */
  lemma {:induction false} FilterFirstOfKey(batch: seq<VJob>, i: nat)
    requires i < |batch| && batch[i].jobId != []
    requires forall p :: 0 <= p < i ==> batch[p].jobId != batch[i].jobId
    ensures exists u :: FirstOfKey(Filter(batch, HasId), u, JobIdOf) && Filter(batch, HasId)[u] == batch[i]
    decreases |batch|
  {
    var n := |batch| - 1;
    FilterSnoc(batch, n, HasId);
    assert batch[..n + 1] == batch;
    var f0 := Filter(batch[..n], HasId);
    var f := Filter(batch, HasId);
    if i < n {
      FilterFirstOfKey(batch[..n], i);
      var u :| FirstOfKey(f0, u, JobIdOf) && f0[u] == batch[i];
      assert f[u] == batch[i];
      assert FirstOfKey(f, u, JobIdOf);
    } else {
      assert f[|f0|] == batch[n];
      forall j | 0 <= j < |f0| ensures f[j].jobId != batch[n].jobId {
        assert f[j] == f0[j] && f0[j] in f0;
        var p :| 0 <= p < n && batch[..n][p] == f0[j];
      }
      assert FirstOfKey(f, |f0|, JobIdOf);
    }
  }

  /** The first element of a key is kept by the dedup. */
  lemma {:induction false} DedupByKeep(xs: seq<VJob>, u: nat)
    requires FirstOfKey(xs, u, JobIdOf)
    ensures xs[u] in DedupBy(xs, JobIdOf)
    decreases |xs|
  {
    var n := |xs| - 1;
    var init := xs[..n];
    if u < n {
      assert FirstOfKey(init, u, JobIdOf);
      DedupByKeep(init, u);
    } else {
      forall p | 0 <= p < n ensures Keys(init, JobIdOf)[p] != JobIdOf(xs[n]) {
      }
    }
  }

  /** The collection's `upsert`: each id gets its record, later ones overwriting earlier ones. */
  function UpsertAll<E>(m: map<string, E>, ids: seq<string>, recs: seq<E>): (r: map<string, E>)
    requires |ids| == |recs|
    ensures r.Keys == m.Keys + Elems(ids)
  {
    if ids == [] then m
    else UpsertAll(m, ids[..|ids| - 1], recs[..|recs| - 1])[ids[|ids| - 1] := recs[|recs| - 1]]
  }

  /** Upserting distinct ids stores each id's own record and leaves other ids alone. */
  lemma {:induction false} UpsertAllSpec<E>(m: map<string, E>, ids: seq<string>, recs: seq<E>)
    requires |ids| == |recs| && NoDup(ids)
    ensures forall i :: 0 <= i < |ids| ==> UpsertAll(m, ids, recs)[ids[i]] == recs[i]
    ensures forall k :: k in m && k !in ids ==> UpsertAll(m, ids, recs)[k] == m[k]
  {
    if ids != [] {
      var n := |ids| - 1;
      assert NoDup(ids[..n]) by {
        forall i, j | 0 <= i < j < n ensures ids[..n][i] != ids[..n][j] {
          assert ids[i] != ids[j];
        }
      }
      UpsertAllSpec(m, ids[..n], recs[..n]);
      forall i | 0 <= i < |ids| ensures UpsertAll(m, ids, recs)[ids[i]] == recs[i] {
        if i < n {
          assert ids[i] != ids[n];
          assert ids[..n][i] == ids[i] && recs[..n][i] == recs[i];
        }
      }
      assert forall x :: x in ids[..n] ==> x in ids;
    }
  }

  /** The records built for a list of jobs, one per job. */
  function Records<E>(jobs: seq<VJob>, rec: VJob -> E): (r: seq<E>)
    ensures |r| == |jobs|
    ensures forall i :: 0 <= i < |jobs| ==> r[i] == rec(jobs[i])
  {
    seq(|jobs|, i requires 0 <= i < |jobs| => rec(jobs[i]))
  }

  /** One batch: dedup, then upsert the records `rec` builds, unless encoding or upserting the batch raises. */
  function LoadBatch<E>(m: map<string, E>, batch: seq<VJob>, fails: bool, rec: VJob -> E): map<string, E>
  {
    if fails then m else
    var d := Deduped(batch);
    UpsertAll(m, Keys(d, JobIdOf), Records(d, rec))
  }

  /**
   * `add_jobs` from offset `from` on: the batch `jobs[from..from + size]`
   * (cut at the end of the list), failing when `fails(from)`, then the
   * batches after it.
   */
  function Load<E>(m: map<string, E>, jobs: seq<VJob>, from: nat, size: nat, fails: nat -> bool, rec: VJob -> E): map<string, E>
    requires size > 0
    decreases |jobs| - from
  {
    if from >= |jobs| then m
    else
      var end := Min(from + size, |jobs|);
      Load(LoadBatch(m, jobs[from..end], fails(from), rec), jobs, end, size, fails, rec)
  }

  /** A batch that loads adds exactly its non-empty ids; a failing batch changes nothing. */
  lemma LoadBatchKeys<E>(m: map<string, E>, batch: seq<VJob>, fails: bool, rec: VJob -> E)
    ensures fails ==> LoadBatch(m, batch, fails, rec) == m
    ensures !fails ==> forall k :: (k in LoadBatch(m, batch, fails, rec)
      <==> k in m || (k != [] && exists j :: j in batch && j.jobId == k))
  {
    if !fails {
      var d := Deduped(batch);
      var ids := Keys(d, JobIdOf);
      DedupedSpec(batch);
      forall k | k in ids ensures k != [] && exists j :: j in batch && j.jobId == k {
        var q :| 0 <= q < |ids| && ids[q] == k;
        assert d[q] in d;
      }
    }
  }

  /** A batch that loads stores, for each id in it, the record of the first job with that id. */
  lemma LoadBatchFirst<E>(m: map<string, E>, batch: seq<VJob>, rec: VJob -> E, i: nat)
    requires i < |batch| && batch[i].jobId != []
    requires forall p :: 0 <= p < i ==> batch[p].jobId != batch[i].jobId
    ensures batch[i].jobId in LoadBatch(m, batch, false, rec)
    ensures LoadBatch(m, batch, false, rec)[batch[i].jobId] == rec(batch[i])
  {
    var d := Deduped(batch);
    var ids := Keys(d, JobIdOf);
    DedupedSpec(batch);
    UpsertAllSpec(m, ids, Records(d, rec));
    FirstKept(batch, i);
    var q :| 0 <= q < |d| && d[q] == batch[i];
    assert ids[q] == batch[i].jobId;
  }

  /** A batch leaves alone every entry whose id none of its jobs carries. */
  lemma LoadBatchFrame<E>(m: map<string, E>, batch: seq<VJob>, fails: bool, rec: VJob -> E, k: string)
    requires k in m && forall j :: j in batch ==> j.jobId != k
    ensures k in LoadBatch(m, batch, fails, rec) && LoadBatch(m, batch, fails, rec)[k] == m[k]
  {
    if !fails {
      var d := Deduped(batch);
      var ids := Keys(d, JobIdOf);
      DedupedSpec(batch);
      UpsertAllSpec(m, ids, Records(d, rec));
      assert k !in ids by {
        forall q | 0 <= q < |ids| ensures ids[q] != k {
          assert d[q] in d;
        }
      }
    }
  }

  /** `Load` only adds keys, adds only the ids of the jobs it reads, and leaves every other entry alone. */
  lemma LoadFrame<E>(m: map<string, E>, jobs: seq<VJob>, from: nat, size: nat, fails: nat -> bool, rec: VJob -> E)
    requires size > 0
    ensures m.Keys <= Load(m, jobs, from, size, fails, rec).Keys
    ensures forall k :: k in Load(m, jobs, from, size, fails, rec) ==> k in m || exists p :: from <= p < |jobs| && jobs[p].jobId == k
    ensures forall k :: (k in m && (forall p :: from <= p < |jobs| ==> jobs[p].jobId != k)
      ==> Load(m, jobs, from, size, fails, rec)[k] == m[k])
  {
    LoadGrows(m, jobs, from, size, fails, rec);
    LoadNewKeys(m, jobs, from, size, fails, rec);
    LoadKeeps(m, jobs, from, size, fails, rec);
  }

  lemma {:induction false} LoadGrows<E>(m: map<string, E>, jobs: seq<VJob>, from: nat, size: nat, fails: nat -> bool, rec: VJob -> E)
    requires size > 0
    ensures m.Keys <= Load(m, jobs, from, size, fails, rec).Keys
    decreases |jobs| - from
  {
    if from < |jobs| {
      var end := Min(from + size, |jobs|);
      var batch := jobs[from..end];
      LoadBatchKeys(m, batch, fails(from), rec);
      LoadGrows(LoadBatch(m, batch, fails(from), rec), jobs, end, size, fails, rec);
    }
  }

  lemma {:induction false} LoadNewKeys<E>(m: map<string, E>, jobs: seq<VJob>, from: nat, size: nat, fails: nat -> bool, rec: VJob -> E)
    requires size > 0
    ensures forall k :: k in Load(m, jobs, from, size, fails, rec) ==> k in m || exists p :: from <= p < |jobs| && jobs[p].jobId == k
    decreases |jobs| - from
  {
    if from < |jobs| {
      var end := Min(from + size, |jobs|);
      var batch := jobs[from..end];
      var m' := LoadBatch(m, batch, fails(from), rec);
      LoadBatchKeys(m, batch, fails(from), rec);
      LoadNewKeys(m', jobs, end, size, fails, rec);
      forall k | k in m' && k !in m ensures exists p :: from <= p < |jobs| && jobs[p].jobId == k {
        SliceIdSource(jobs, from, end, k);
      }
    }
  }

  /** An id carried by a job of a slice is carried by a job of the whole from the slice's start on. */
  lemma SliceIdSource(jobs: seq<VJob>, from: nat, end: nat, k: string)
    requires from <= end <= |jobs| && exists j :: j in jobs[from..end] && j.jobId == k
    ensures exists p :: from <= p < |jobs| && jobs[p].jobId == k
  {
    var j :| j in jobs[from..end] && j.jobId == k;
    var q :| 0 <= q < end - from && jobs[from..end][q] == j;
    assert jobs[from + q] == j;
  }

  lemma {:induction false} LoadKeeps<E>(m: map<string, E>, jobs: seq<VJob>, from: nat, size: nat, fails: nat -> bool, rec: VJob -> E)
    requires size > 0
    ensures forall k :: (k in m && (forall p :: from <= p < |jobs| ==> jobs[p].jobId != k)
      ==> k in Load(m, jobs, from, size, fails, rec) && Load(m, jobs, from, size, fails, rec)[k] == m[k])
    decreases |jobs| - from
  {
    if from < |jobs| {
      var end := Min(from + size, |jobs|);
      var batch := jobs[from..end];
      var m' := LoadBatch(m, batch, fails(from), rec);
      LoadKeeps(m', jobs, end, size, fails, rec);
      forall k | k in m && (forall p :: from <= p < |jobs| ==> jobs[p].jobId != k)
        ensures k in Load(m, jobs, from, size, fails, rec) && Load(m, jobs, from, size, fails, rec)[k] == m[k]
      {
        forall j | j in batch ensures j.jobId != k {
          var q :| 0 <= q < |batch| && batch[q] == j;
          assert jobs[from + q] == j;
        }
        LoadBatchFrame(m, batch, fails(from), rec, k);
      }
    }
  }

  /** When no batch fails, every job with an id ends up stored. */
  lemma {:induction false} LoadAll<E>(m: map<string, E>, jobs: seq<VJob>, from: nat, size: nat, fails: nat -> bool, rec: VJob -> E)
    requires size > 0
    requires forall o :: !fails(o)
    ensures forall p :: from <= p < |jobs| && jobs[p].jobId != [] ==> jobs[p].jobId in Load(m, jobs, from, size, fails, rec)
    decreases |jobs| - from
  {
    if from < |jobs| {
      var end := Min(from + size, |jobs|);
      var batch := jobs[from..end];
      var m' := LoadBatch(m, batch, fails(from), rec);
      LoadBatchKeys(m, batch, fails(from), rec);
      LoadAll(m', jobs, end, size, fails, rec);
      LoadFrame(m', jobs, end, size, fails, rec);
      forall p | from <= p < end && jobs[p].jobId != [] ensures jobs[p].jobId in m' {
        assert batch[p - from] == jobs[p];
      }
    }
  }

  /** A single batch that loads stores the record of the first job of each id it holds. */
  lemma OneBatch<E>(m: map<string, E>, jobs: seq<VJob>, size: nat, fails: nat -> bool, rec: VJob -> E, i: nat)
    requires 0 < |jobs| <= size && !fails(0)
    requires i < |jobs| && jobs[i].jobId != []
    requires forall p :: 0 <= p < i ==> jobs[p].jobId != jobs[i].jobId
    ensures jobs[i].jobId in Load(m, jobs, 0, size, fails, rec)
    ensures Load(m, jobs, 0, size, fails, rec)[jobs[i].jobId] == rec(jobs[i])
  {
    assert jobs[0..|jobs|] == jobs;
    LoadBatchFirst(m, jobs, rec, i);
  }

  // ------------------------------------------------------------------ search

  /** Chroma's SQLite back end limits the size of a query's result. */
  const MaxResults: nat := 500

  /** `min(top_k or 500, 500, total)`: an absent or zero `top_k` asks for the maximum. */
  function SearchSize(topK: Option<nat>, total: nat): (n: nat)
    ensures n <= MaxResults && n <= total
    ensures (topK.None? || topK == Some(0)) ==> n == Min(MaxResults, total)
    ensures topK.Some? && topK.value > 0 ==> n == Min(Min(topK.value, MaxResults), total)
    ensures total > 0 ==> n > 0
  {
    var k := if topK.None? || topK.value == 0 then MaxResults else topK.value;
    Min(Min(k, MaxResults), total)
  }

  /** `search_by_skills`: the query text names every skill behind a fixed lead. */
  function SkillQuery(skills: seq<string>): (q: string)
    ensures IsPrefix("需要以下技能: ", q)
    ensures forall s :: s in skills ==> Contains(q, s)
  {
    var lead := "需要以下技能: ";
    var body := Join(skills, ", ");
    JoinContains(skills, ", ");
    forall s | s in skills ensures Contains(lead + body, s) {
      ContainsShift(lead, body, s);
    }
    lead + body
  }

  /** Every part occurs in the joined string. */
  lemma {:induction false} JoinContains(parts: seq<string>, sep: string)
    ensures forall s :: s in parts ==> Contains(Join(parts, sep), s)
    decreases |parts|
  {
    if |parts| == 1 {
      ContainsSelf(parts[0]);
    } else if |parts| > 1 {
      var rest := Join(parts[1..], sep);
      JoinContains(parts[1..], sep);
      ContainsSelf(parts[0]);
      assert Join(parts, sep) == parts[0] + (sep + rest);
      ContainsPrefixPart(parts[0], sep + rest, parts[0]);
      forall s | s in parts[1..] ensures Contains(Join(parts, sep), s) {
        ContainsShift(sep, rest, s);
        ContainsShift(parts[0], sep + rest, s);
      }
    }
  }

  /** What occurs in `a` occurs in `a + b`. */
  lemma ContainsPrefixPart(a: string, b: string, t: string)
    requires Contains(a, t)
    ensures Contains(a + b, t)
  {
    assert (a + b)[0..|a|] == a;
    ContainsSlice(a + b, 0, |a|, t);
  }

  /** What occurs in `b` occurs in `a + b`. */
  lemma ContainsShift(a: string, b: string, t: string)
    requires Contains(b, t)
    ensures Contains(a + b, t)
  {
    assert (a + b)[|a|..|a + b|] == b;
    ContainsSlice(a + b, |a|, |a + b|, t);
  }

  // ------------------------------------------------------------------ store

  /** `VectorDB`: the collection, as the map from id to stored document. */
  class VectorStore {
    var entries: map<string, Entry>

    constructor()
      ensures entries == map[]
    {
      entries := map[];
    }

    /** `clear`: the collection is deleted and created again, empty. */
    method Clear()
      modifies this
      ensures entries == map[]
    {
      entries := map[];
    }

    /** `collection.count()` */
    function Count(): nat
      reads this
    {
      |entries|
    }

    /**
     * `search`: an empty collection gives an empty result; otherwise the
     * first `SearchSize(topK, count)` hits of the collection's ranking.
     */
    function Search(ranked: seq<Hit>, topK: Option<nat>): (r: seq<Hit>)
      reads this
      ensures |r| <= MaxResults && |r| <= Count()
      ensures |r| <= |ranked| && r == ranked[..|r|]
      ensures Count() == 0 ==> r == []
      ensures topK.Some? && topK.value > 0 ==> |r| <= topK.value
      ensures |ranked| >= SearchSize(topK, Count()) ==> |r| == SearchSize(topK, Count())
    {
      if Count() == 0 then [] else Take(ranked, SearchSize(topK, Count()))
    }

    /**
     * `add_jobs`: batches of `size` jobs; in each, the in-batch dedup
     * loop over a `seen` set, the records built job by job, then one
     * upsert, skipped when encoding or upserting the batch raises.
     */
    method AddJobs(jobs: seq<VJob>, size: nat, fails: nat -> bool)
      requires size > 0
      modifies this
      ensures entries == Load(old(entries), jobs, 0, size, fails, EntryOf)
    {
      var i := 0;
      while i < |jobs|
        invariant 0 <= i <= |jobs|
        invariant Load(entries, jobs, i, size, fails, EntryOf) == Load(old(entries), jobs, 0, size, fails, EntryOf)
        decreases |jobs| - i
      {
        var end := if i + size <= |jobs| then i + size else |jobs|;
        var batch := jobs[i..end];
        ghost var before := entries;
        var deduped := DedupBatch(batch);
        var ids, recs := BuildRecords(deduped, EntryOf);
        if !fails(i) {
          entries := UpsertAll(entries, ids, recs);
        }
        assert entries == LoadBatch(before, batch, fails(i), EntryOf);
        i := end;
      }
    }
  }

  /** The in-batch dedup loop: keep a job when its id is non-empty and not yet seen. */
  method DedupBatch(batch: seq<VJob>) returns (deduped: seq<VJob>)
    ensures deduped == Deduped(batch)
  {
    deduped := DedupFiltered(batch, HasId, JobIdOf);
  }

  /**
   * The loop building one id and one record per deduped job; `add_jobs`
   * builds each record from `_build_document` and the metadata dict, that
   * is, `rec` is `EntryOf`.
   */
  method BuildRecords<E>(jobs: seq<VJob>, rec: VJob -> E) returns (ids: seq<string>, recs: seq<E>)
    ensures ids == Keys(jobs, JobIdOf) && recs == Records(jobs, rec)
  {
    ids, recs := [], [];
    var b := 0;
    while b < |jobs|
      invariant 0 <= b <= |jobs|
      invariant |ids| == b && forall t :: 0 <= t < b ==> ids[t] == jobs[t].jobId
      invariant |recs| == b && forall t :: 0 <= t < b ==> recs[t] == rec(jobs[t])
    {
      ids := ids + [jobs[b].jobId];
      recs := recs + [rec(jobs[b])];
      b := b + 1;
    }
  }
}
