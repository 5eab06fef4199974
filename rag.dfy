/**
 * The retrieval-augmented service over the vector store
 * (src/rag/rag_service.py): turning search hits back into job records,
 * the bounded context handed to the summarising model, skill-gap
 * analysis, and similar-job lookup. The chat model is an oracle from
 * prompt to answer (`None` when the call raises); the collection's
 * ranking for a query is an oracle as in `VectorDb`.
 */
module RagService {
  import opened Wrappers
  import opened Text
  import opened Order
  import ApiTypes
  import opened VectorDb

  /** One job of `search_and_summarize`'s `retrieved_jobs`. */
  datatype RetrievedJob = RetrievedJob(jobId: string, title: string, city: string, company: string,
                                       salaryRange: string, experience: string, education: string,
                                       skills: seq<string>, similarity: real, document: string)

  /** The answer of `search_and_summarize`. */
  datatype Summary = Summary(jobs: seq<RetrievedJob>, summary: Option<string>, query: string, count: nat)

  /** One sample job of `skill_gap_analysis`. */
  datatype TargetJob = TargetJob(title: string, city: string, company: string, salaryRange: string)

  /** The answer of `skill_gap_analysis`. */
  datatype GapAnalysis = GapAnalysis(analysis: Option<string>, targetJobs: seq<TargetJob>,
                                     userSkills: seq<string>, target: string)

  /** One entry of `find_similar_jobs`. */
  datatype SimilarJob = SimilarJob(jobId: string, title: string, city: string, similarity: real)

  // ------------------------------------------------------------------ hits

  /** `1 / (1 + max(0, d))`: maps any distance into (0, 1]. */
  function Similarity(d: real): (r: real)
    ensures 0.0 < r <= 1.0
    ensures d <= 0.0 ==> r == 1.0
  {
    var e := if d < 0.0 then 0.0 else d;
    1.0 / (1.0 + e)
  }

  /** A larger distance never gives a larger similarity. */
  lemma SimilarityMonotone(d1: real, d2: real)
    requires d1 <= d2
    ensures Similarity(d2) <= Similarity(d1)
  {
    var e1 := if d1 < 0.0 then 0.0 else d1;
    var e2 := if d2 < 0.0 then 0.0 else d2;
    var a, b := Similarity(d1), Similarity(d2);
    assert a * (1.0 + e1) == 1.0 && b * (1.0 + e2) == 1.0;
    assert b * (1.0 + e1) <= b * (1.0 + e2);
    assert b * (1.0 + e1) <= a * (1.0 + e1);
  }

  function StripPiece(p: string): Option<string>
  {
    var s := Strip(p);
    if s != [] then Some(s) else None
  }

  /** `[s.strip() for s in raw.split(',') if s.strip()] if raw else []` */
  function ParseSkills(raw: string): (r: seq<string>)
    ensures raw == [] ==> r == []
  {
    if raw == [] then [] else FilterMap(Split(raw, ','), StripPiece)
  }

  /** Every parsed skill is non-empty, comma-free and already stripped. */
  lemma ParseSkillsClean(raw: string)
    ensures forall s :: s in ParseSkills(raw) ==> s != [] && ',' !in s && Strip(s) == s
  {
    if raw != [] {
      var pieces := Split(raw, ',');
      FilterMapMembers(pieces, StripPiece);
      forall s | s in ParseSkills(raw) ensures s != [] && ',' !in s && Strip(s) == s {
        var i :| 0 <= i < |pieces| && StripPiece(pieces[i]) == Some(s);
        assert pieces[i] in pieces;
        StripPieceClean(pieces[i]);
      }
    }
  }

  /** A kept piece is non-empty, comma-free and stripped. */
  lemma StripPieceClean(p: string)
    requires ',' !in p
    ensures StripPiece(p).Some? ==> var s := StripPiece(p).value; s != [] && ',' !in s && Strip(s) == s
  {
    StripNoComma(p);
    StripStripped(Strip(p));
  }

  /** Stripping keeps a string comma-free. */
  lemma StripNoComma(p: string)
    requires ',' !in p
    ensures ',' !in Strip(p)
  {
    var s := Strip(p);
    forall k | 0 <= k < |s| ensures s[k] != ',' {
      ContainsChar(p, s, k);
    }
  }

  /** A character of a substring is a character of the string. */
  lemma {:induction false} ContainsChar(p: string, s: string, k: nat)
    requires Contains(p, s) && k < |s|
    ensures s[k] in p
    decreases |p|
  {
    if IsPrefix(s, p) {
      assert p[k] == s[k];
    } else {
      ContainsChar(p[1..], s, k);
    }
  }

  /** A list whose every item is its own defined result passes through `FilterMap` unchanged. */
  lemma {:induction false} FilterMapSelf<T>(xs: seq<T>, f: T -> Option<T>)
    requires forall x :: x in xs ==> f(x) == Some(x)
    ensures FilterMap(xs, f) == xs
  {
    if xs != [] {
      var n := |xs| - 1;
      assert forall x :: x in xs[..n] ==> x in xs;
      FilterMapSelf(xs[..n], f);
      assert xs[n] in xs;
      assert xs[..n] + [xs[n]] == xs;
    }
  }

  /**
   * Parsing the metadata's skill string gives back the first fifteen
   * skills of the job it was built from, when the skills are stripped,
   * non-empty and comma-free.
   */
  lemma ParseMetadataSkills(job: VJob)
    requires job.skills != []
    requires forall s :: s in job.skills ==> s != [] && ',' !in s && Strip(s) == s
    ensures ParseSkills(Metadata(job).skills) == Take(job.skills, MetaSkillLimit)
  {
    var t := Take(job.skills, MetaSkillLimit);
    MetadataSkillsSplit(job);
    assert forall x :: x in t ==> x in job.skills;
    assert t[0] in job.skills;
    JoinNonEmpty(t, ",");
    forall x | x in t ensures StripPiece(x) == Some(x) {
    }
    FilterMapSelf(t, StripPiece);
  }

  /** A join whose first part is non-empty is non-empty. */
  lemma JoinNonEmpty(parts: seq<string>, sep: string)
    requires parts != [] && parts[0] != []
    ensures Join(parts, sep) != []
  {
  }

  /** `salary_range`: `"{min}-{max}K"` from the metadata's text values. */
  function SalaryRange(m: Meta): string
  {
    m.salaryMin + "-" + m.salaryMax + "K"
  }

  /** At most this many characters of a hit's document are returned. */
  const DocumentExcerpt: nat := 800

  /** The job record built from one hit. */
  function Retrieved(h: Hit): (r: RetrievedJob)
    ensures r.jobId == h.meta.jobId && r.skills == ParseSkills(h.meta.skills)
    ensures |r.document| <= DocumentExcerpt && IsPrefix(r.document, h.document)
    ensures 0.0 < r.similarity <= 1.0
  {
    RetrievedJob(h.meta.jobId, h.meta.title, h.meta.city, h.meta.company, SalaryRange(h.meta),
                 h.meta.experience, h.meta.education, ParseSkills(h.meta.skills),
                 Similarity(h.distance), Take(h.document, DocumentExcerpt))
  }

  function RetrievedAll(hits: seq<Hit>): (r: seq<RetrievedJob>)
    ensures |r| == |hits|
    ensures forall i :: 0 <= i < |hits| ==> r[i] == Retrieved(hits[i])
  {
    seq(|hits|, i requires 0 <= i < |hits| => Retrieved(hits[i]))
  }

  // ------------------------------------------------------------------ summary context

  /** At most this many jobs, and this many skills of each, go into the summary context. */
  const ContextJobLimit: nat := 5
  const ContextSkillLimit: nat := 6

  /** `'、'.join(skills[:6]) or '未知'` */
  function ContextSkills(job: RetrievedJob): (r: string)
    ensures r != []
  {
    var j := Join(Take(job.skills, ContextSkillLimit), "、");
    if j == [] then "未知" else j
  }

  /** The context line of the job numbered `n` (from 1). */
  function ContextLine(n: nat, job: RetrievedJob): string
  {
    ApiTypes.NatToString(n) + ". " + job.title + " — " + job.company + "\n"
    + "   城市：" + job.city + "  薪资：" + job.salaryRange + "  经验：" + job.experience + "\n"
    + "   技能要求：" + ContextSkills(job)
  }

  /** The context lines: one per job among the first five, numbered from 1. */
  function ContextLines(jobs: seq<RetrievedJob>): (r: seq<string>)
    ensures |r| == |Take(jobs, ContextJobLimit)| && |r| <= ContextJobLimit
    ensures forall i :: 0 <= i < |r| ==> r[i] == ContextLine(i + 1, jobs[i])
  {
    var shown := Take(jobs, ContextJobLimit);
    seq(|shown|, i requires 0 <= i < |shown| => ContextLine(i + 1, shown[i]))
  }

  /** `_summarize_jobs`' prompt: the query, the job total, the context, the instructions. */
  function SummaryPrompt(query: string, jobs: seq<RetrievedJob>): string
  {
    "用户查询：" + query + "\n\n相关岗位（共 " + ApiTypes.NatToString(|jobs|) + " 个，展示前5个）：\n"
    + Join(ContextLines(jobs), "\n\n")
    + "\n\n请用3-4句话简洁总结：\n1. 该类岗位的核心技能要求\n2. 薪资行情和竞争程度\n3. 给求职者的一句建议\n\n直接输出总结内容，不要序号和标题。"
  }

  /**
   * The skills shown for a job split back into at most six of its skills,
   * its first six, when none holds the separator and the first is
   * non-empty.
   */
  lemma ContextSkillsSplit(job: RetrievedJob)
    requires job.skills != [] && job.skills[0] != []
    requires forall s :: s in job.skills ==> '、' !in s
    ensures Split(ContextSkills(job), '、') == Take(job.skills, ContextSkillLimit)
    ensures |Split(ContextSkills(job), '、')| <= ContextSkillLimit
  {
    var t := Take(job.skills, ContextSkillLimit);
    assert forall x :: x in t ==> x in job.skills;
    JoinNonEmpty(t, "、");
    SplitJoin(t, '、');
  }

  // ------------------------------------------------------------------ operations

  /** `search_and_summarize`: one record per hit, then a summary when there are jobs and an API key. */
  method SearchAndSummarize(store: VectorStore, query: string, ranked: seq<Hit>, topK: nat,
                            hasKey: bool, llm: string -> Option<string>)
    returns (res: Summary)
    ensures res.jobs == RetrievedAll(store.Search(ranked, Some(topK)))
    ensures res.count == |res.jobs| && res.query == query
    ensures |res.jobs| <= MaxResults && (topK > 0 ==> |res.jobs| <= topK)
    ensures res.summary == if res.jobs != [] && hasKey then llm(SummaryPrompt(query, res.jobs)) else None
  {
    var hits := store.Search(ranked, Some(topK));
    var jobs := RetrieveAll(hits);
    var summary: Option<string> := None;
    if jobs != [] && hasKey {
      summary := llm(SummaryPrompt(query, jobs));
    }
    res := Summary(jobs, summary, query, |jobs|);
  }

  /** The loop of `search_and_summarize` building one job record per hit. */
  method RetrieveAll(hits: seq<Hit>) returns (jobs: seq<RetrievedJob>)
    ensures jobs == RetrievedAll(hits)
  {
    jobs := [];
    var i := 0;
    while i < |hits|
      invariant 0 <= i <= |hits|
      invariant |jobs| == i && forall t :: 0 <= t < i ==> jobs[t] == Retrieved(hits[t])
    {
      jobs := jobs + [Retrieved(hits[i])];
      i := i + 1;
    }
  }

  /** `{"city": city} if city else None` */
  function CityFilter(city: Option<string>): (f: Option<string>)
    ensures f.Some? <==> city.Some? && city.value != []
    ensures f.Some? ==> f == city
  {
    if city.Some? && city.value != [] then city else None
  }

  /** The search text of a skill-gap analysis. */
  function GapQuery(target: string): string
  {
    target + " 岗位需要的技能"
  }

  /** `'、'.join(user_skills) if user_skills else '（未提供）'` */
  function UserSkillsText(userSkills: seq<string>): (r: string)
    ensures userSkills == [] ==> r == "（未提供）"
  {
    if userSkills == [] then "（未提供）" else Join(userSkills, "、")
  }

  function GapPrompt(userSkills: seq<string>, target: string): string
  {
    "请分析以下技能差距情况：\n\n用户当前技能：" + UserSkillsText(userSkills) + "\n目标岗位：" + target
    + "\n\n请提供：\n1. 用户已具备的相关技能\n2. 目标岗位通常要求但用户尚缺的技能\n3. 建议的学习优先级（高/中/低）\n4. 简要的学习路径建议\n\n请用简洁、结构化的方式回答。"
  }

  function TargetOf(h: Hit): TargetJob
  {
    TargetJob(h.meta.title, h.meta.city, h.meta.company, SalaryRange(h.meta))
  }

  /** The number of target jobs a gap analysis samples, and the hits it searches for. */
  const GapSampleLimit: nat := 5
  const GapSearchSize: nat := 20

  /**
   * `skill_gap_analysis`: search with the city filter only when a city
   * is given, keep at most five sample jobs, and ask the model only when
   * an API key exists.
   */
  method SkillGapAnalysis(store: VectorStore, userSkills: seq<string>, target: string, city: Option<string>,
                          ranked: (string, Option<string>) -> seq<Hit>, hasKey: bool, llm: string -> Option<string>)
    returns (res: GapAnalysis)
    ensures var hits := store.Search(ranked(GapQuery(target), CityFilter(city)), Some(GapSearchSize));
      && |res.targetJobs| == |Take(hits, GapSampleLimit)| <= GapSampleLimit
      && forall i :: 0 <= i < |res.targetJobs| ==> res.targetJobs[i] == TargetOf(hits[i])
    ensures res.analysis == if hasKey then llm(GapPrompt(userSkills, target)) else None
    ensures res.userSkills == userSkills && res.target == target
  {
    var hits := store.Search(ranked(GapQuery(target), CityFilter(city)), Some(GapSearchSize));
    var jobs := SampleTargets(hits);
    var analysis: Option<string> := None;
    if hasKey {
      analysis := llm(GapPrompt(userSkills, target));
    }
    res := GapAnalysis(analysis, jobs, userSkills, target);
  }

  /** The loop of `skill_gap_analysis` over the first five hits. */
  method SampleTargets(hits: seq<Hit>) returns (jobs: seq<TargetJob>)
    ensures |jobs| == |Take(hits, GapSampleLimit)| <= GapSampleLimit
    ensures forall i :: 0 <= i < |jobs| ==> jobs[i] == TargetOf(hits[i])
  {
    var sample := Take(hits, GapSampleLimit);
    jobs := [];
    var i := 0;
    while i < |sample|
      invariant 0 <= i <= |sample|
      invariant |jobs| == i && forall t :: 0 <= t < i ==> jobs[t] == TargetOf(hits[t])
    {
      jobs := jobs + [TargetOf(sample[i])];
      i := i + 1;
    }
  }

  /** A hit as a similar job, unless it is the original job itself. */
  function SimilarIf(jobId: string): Hit -> Option<SimilarJob>
  {
    (h: Hit) => if h.meta.jobId != jobId then Some(SimilarJob(h.meta.jobId, h.meta.title, h.meta.city, Similarity(h.distance))) else None
  }

  /** The similar jobs among `hits`: every hit but the original, in ranking order. */
  function Similar(hits: seq<Hit>, jobId: string): seq<SimilarJob>
  {
    FilterMap(hits, SimilarIf(jobId))
  }

  /** No similar job is the original, and each comes from a hit. */
  lemma SimilarExcludes(hits: seq<Hit>, jobId: string)
    ensures forall s :: s in Similar(hits, jobId) ==>
      s.jobId != jobId && exists i :: 0 <= i < |hits| && hits[i].meta.jobId == s.jobId
  {
    FilterMapMembers(hits, SimilarIf(jobId));
  }

  /**
   * Asking for one hit more than wanted fills the answer: when the
   * original occurs at most once among `topK + 1` or more hits, `topK`
   * similar jobs remain.
   */
  lemma {:induction false} SimilarFills(hits: seq<Hit>, jobId: string, topK: nat)
    requires |hits| >= topK + 1
    requires forall i, j :: 0 <= i < j < |hits| && hits[i].meta.jobId == jobId ==> hits[j].meta.jobId != jobId
    ensures |Take(Similar(hits, jobId), topK)| == topK
  {
    SimilarDropsAtMostOne(hits, jobId);
  }

  lemma {:induction false} SimilarDropsAtMostOne(hits: seq<Hit>, jobId: string)
    requires forall i, j :: 0 <= i < j < |hits| && hits[i].meta.jobId == jobId ==> hits[j].meta.jobId != jobId
    ensures |Similar(hits, jobId)| + 1 >= |hits|
    ensures (forall i :: 0 <= i < |hits| ==> hits[i].meta.jobId != jobId) ==> |Similar(hits, jobId)| == |hits|
    decreases |hits|
  {
    if hits != [] {
      var n := |hits| - 1;
      var init := hits[..n];
      SimilarDropsAtMostOne(init, jobId);
      if hits[n].meta.jobId == jobId {
        forall i | 0 <= i < n ensures init[i].meta.jobId != jobId {
          assert init[i] == hits[i];
        }
      }
    }
  }

  /**
   * `find_similar_jobs`: a missing original gives no result; otherwise
   * the original's document is the query, `topK + 1` hits are asked for,
   * the original is dropped, and at most `topK` remain.
   */
  method FindSimilarJobs(store: VectorStore, jobId: string, topK: nat, ranked: string -> seq<Hit>)
    returns (r: seq<SimilarJob>)
    ensures jobId !in store.entries ==> r == []
    ensures jobId in store.entries ==>
      r == Take(Similar(store.Search(ranked(store.entries[jobId].document), Some(topK + 1)), jobId), topK)
    ensures |r| <= topK
  {
    if jobId !in store.entries {
      return [];
    }
    var hits := store.Search(ranked(store.entries[jobId].document), Some(topK + 1));
    var similar: seq<SimilarJob> := [];
    var i := 0;
    while i < |hits|
      invariant 0 <= i <= |hits|
      invariant similar == Similar(hits[..i], jobId)
    {
      FilterMapAppend(hits[..i], hits[i], SimilarIf(jobId));
      assert hits[..i + 1] == hits[..i] + [hits[i]];
      var h := hits[i];
      if h.meta.jobId != jobId {
        similar := similar + [SimilarJob(h.meta.jobId, h.meta.title, h.meta.city, Similarity(h.distance))];
      }
      i := i + 1;
    }
    assert hits[..|hits|] == hits;
    r := Take(similar, topK);
  }
}
