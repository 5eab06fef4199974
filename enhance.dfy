/**
 * The large-scale enhancement pipeline (scripts/enhance_with_qwen3.py):
 * the JD text a sampled job is given when it has none, the clamp of the
 * sample size, the selection of the jobs the sample left out, and the
 * union of rule-based and distilled skills for those jobs.
 *
 * The active-learning sampler, the LLM extractor, the rule extractor and
 * the distillation model are oracles passed in as functions; the order in
 * which Python lists a set is one too.
 */
module EnhanceQwen3 {
  import opened Wrappers
  import opened Text
  import opened Order
  import DataCleaner

  /** A job dict as the pipeline sees it: its id (`job.get('job_id')`), its fields, its JD text and its extraction record. */
  datatype Record = Record(jobId: Option<string>, job: DataCleaner.Job, jdText: string, extraction: Option<Extraction>)

  /** The `_extraction_result` of a job handled by the distillation model. */
  datatype Extraction = Extraction(
    ruleSkills: set<string>, distillSkills: set<string>, merged: seq<string>,
    ruleCount: nat, distillCount: nat, mergedCount: nat)

  // ------------------------------------------------------------------ JD text

  /** The lines of `build_jd_text_from_job`, appended in its order. */
  function JdLines(job: DataCleaner.Job): seq<string>
  {
    (if job.title != [] then ["岗位：" + job.title] else [])
    + ((if job.salaryText != [] then ["薪资：" + job.salaryText] else [])
    + ((if job.experience != [] || job.education != [] then ["要求：" + Join(DataCleaner.Requirements(job), "，")] else [])
    + ((if job.skills != [] then ["技能：" + Join(job.skills, "、")] else [])
    + ((if DataCleaner.HasWelfare(job.welfare) then ["福利：" + Join(Take(DataCleaner.WelfareSeq(job.welfare), 5), "、")] else [])
    + (if job.description != [] then ["描述：" + Take(job.description, 500)] else [])))))
  }

  /**
   * `build_jd_text_from_job`: the same text as the cleaner's
   * `_build_jd_text`, which its docstring says it must match.
   */
  function BuildJdTextFromJob(job: DataCleaner.Job): (r: string)
    ensures r == DataCleaner.BuildJdText(job)
  {
    JdLinesAgree(job);
    Join(JdLines(job), "\n")
  }

  /** The labelled lines of a list of section numbers. */
  function Render(job: DataCleaner.Job, secs: seq<nat>): (r: seq<string>)
    ensures |r| == |secs|
    ensures forall i :: 0 <= i < |secs| ==> r[i] == DataCleaner.Label(secs[i]) + DataCleaner.Body(job, secs[i])
  {
    if secs == [] then [] else [DataCleaner.Label(secs[0]) + DataCleaner.Body(job, secs[0])] + Render(job, secs[1..])
  }

  lemma {:induction false} RenderConcat(job: DataCleaner.Job, a: seq<nat>, b: seq<nat>)
    ensures Render(job, a + b) == Render(job, a) + Render(job, b)
  {
    if a != [] {
      assert (a + b)[1..] == a[1..] + b;
      RenderConcat(job, a[1..], b);
    } else {
      assert a + b == b;
    }
  }

  /** The line of section `k`, when it is present. */
  function Line(job: DataCleaner.Job, k: nat): seq<string>
  {
    if DataCleaner.Present(job, k) then [DataCleaner.Label(k) + DataCleaner.Body(job, k)] else []
  }

  /** The sections from `k` on render as the line of `k` followed by the rest. */
  lemma RenderStep(job: DataCleaner.Job, k: nat)
    requires k < 6
    ensures Render(job, DataCleaner.SectionsFrom(job, k)) == Line(job, k) + Render(job, DataCleaner.SectionsFrom(job, k + 1))
  {
    RenderConcat(job, if DataCleaner.Present(job, k) then [k] else [], DataCleaner.SectionsFrom(job, k + 1));
  }

  /** The cleaner's lines are its sections rendered. */
  lemma RenderParts(job: DataCleaner.Job)
    ensures DataCleaner.JdParts(job) == Render(job, DataCleaner.JdSections(job))
  {
  }

  /** The cleaner's lines, section by section. */
  lemma JdPartsLines(job: DataCleaner.Job)
    ensures DataCleaner.JdParts(job) == Line(job, 0) + (Line(job, 1) + (Line(job, 2) + (Line(job, 3) + (Line(job, 4) + Line(job, 5)))))
  {
    RenderParts(job);
    RenderStep(job, 5);
    RenderStep(job, 4);
    RenderStep(job, 3);
    RenderStep(job, 2);
    RenderStep(job, 1);
    RenderStep(job, 0);
    Unnest(Render(job, DataCleaner.SectionsFrom(job, 0)), Render(job, DataCleaner.SectionsFrom(job, 1)),
           Render(job, DataCleaner.SectionsFrom(job, 2)), Render(job, DataCleaner.SectionsFrom(job, 3)),
           Render(job, DataCleaner.SectionsFrom(job, 4)), Render(job, DataCleaner.SectionsFrom(job, 5)),
           Render(job, DataCleaner.SectionsFrom(job, 6)),
           Line(job, 0), Line(job, 1), Line(job, 2), Line(job, 3), Line(job, 4), Line(job, 5));
  }

  /** Six rendering steps ending in nothing, written as one nested concatenation. */
  lemma Unnest(r0: seq<string>, r1: seq<string>, r2: seq<string>, r3: seq<string>, r4: seq<string>, r5: seq<string>, r6: seq<string>,
               l0: seq<string>, l1: seq<string>, l2: seq<string>, l3: seq<string>, l4: seq<string>, l5: seq<string>)
    requires r6 == [] && r5 == l5 + r6 && r4 == l4 + r5 && r3 == l3 + r4 && r2 == l2 + r3 && r1 == l1 + r2 && r0 == l0 + r1
    ensures r0 == l0 + (l1 + (l2 + (l3 + (l4 + l5))))
  {
    assert l5 + r6 == l5;
  }

  /** The script's lines are the cleaner's lines. */
  lemma JdLinesAgree(job: DataCleaner.Job)
    ensures JdLines(job) == DataCleaner.JdParts(job)
  {
    JdPartsLines(job);
    assert (if job.title != [] then ["岗位：" + job.title] else []) == Line(job, 0);
    assert (if job.salaryText != [] then ["薪资：" + job.salaryText] else []) == Line(job, 1);
    assert DataCleaner.Requirements(job) != [] <==> job.experience != [] || job.education != [];
    assert (if job.experience != [] || job.education != [] then ["要求：" + Join(DataCleaner.Requirements(job), "，")] else []) == Line(job, 2);
    assert (if job.skills != [] then ["技能：" + Join(job.skills, "、")] else []) == Line(job, 3);
    assert (if DataCleaner.HasWelfare(job.welfare) then ["福利：" + Join(Take(DataCleaner.WelfareSeq(job.welfare), 5), "、")] else []) == Line(job, 4);
    assert (if job.description != [] then ["描述：" + Take(job.description, 500)] else []) == Line(job, 5);
  }

  // ------------------------------------------------------------------ sample size

  /**
   * A sample count at least the number of jobs is lowered to that number
   * and switches distillation off; otherwise both are kept.
   */
  function ClampSample(sampleCount: int, n: nat, useDistillation: bool): (r: (int, bool))
    ensures sampleCount >= n ==> r == (n, false)
    ensures sampleCount < n ==> r == (sampleCount, useDistillation)
    ensures r.0 <= n && (r.1 ==> r.0 < n)
  {
    if sampleCount >= n then (n, false) else (sampleCount, useDistillation)
  }

  // ------------------------------------------------------------------ JD text of the sample

  /** A job keeps a non-empty JD text; an empty or missing one is built from its fields. */
  function WithJdText(r: Record): (s: Record)
    ensures s.jdText != [] || DataCleaner.BuildJdText(r.job) == []
    ensures r.jdText != [] ==> s == r
    ensures r.jdText == [] ==> s == r.(jdText := DataCleaner.BuildJdText(r.job))
  {
    if r.jdText == [] then r.(jdText := BuildJdTextFromJob(r.job)) else r
  }

  /** The loop that gives every sampled job a JD text, in place. */
  method FillJdText(sampled: seq<Record>) returns (out: seq<Record>)
    ensures |out| == |sampled|
    ensures forall i :: 0 <= i < |out| ==> out[i] == WithJdText(sampled[i])
  {
    out := sampled;
    var i := 0;
    while i < |out|
      invariant 0 <= i <= |out| == |sampled|
      invariant forall j :: 0 <= j < i ==> out[j] == WithJdText(sampled[j])
      invariant forall j :: i <= j < |out| ==> out[j] == sampled[j]
    {
      if out[i].jdText == [] {
        out := out[i := out[i].(jdText := BuildJdTextFromJob(out[i].job))];
      }
      i := i + 1;
    }
  }

  /** Filling is idempotent: a second pass changes nothing. */
  lemma WithJdTextIdempotent(r: Record)
    ensures WithJdText(WithJdText(r)) == WithJdText(r)
  {
  }

  // ------------------------------------------------------------------ remaining jobs

  function IdsOf(jobs: seq<Record>): set<Option<string>>
  {
    set r | r in jobs :: r.jobId
  }

  /** Whether a job's id is not among the sampled ids. */
  function NotSampled(sampled: seq<Record>): Record -> bool
  {
    (x: Record) => x.jobId !in IdsOf(sampled)
  }

  /** `[j for j in jobs if j.get('job_id') not in sampled_job_ids]`, in the jobs' order. */
  function Remaining(jobs: seq<Record>, sampled: seq<Record>): (r: seq<Record>)
    ensures |r| <= |jobs|
    ensures forall x :: x in r <==> x in jobs && x.jobId !in IdsOf(sampled)
  {
    Filter(jobs, NotSampled(sampled))
  }

  /** Whether a job's id is among the sampled ids. */
  function IsSampled(sampled: seq<Record>): Record -> bool
  {
    (x: Record) => x.jobId in IdsOf(sampled)
  }

  /** The remaining jobs and the jobs whose id was sampled together are the input jobs, none lost or repeated. */
  lemma RemainingPartition(jobs: seq<Record>, sampled: seq<Record>)
    ensures multiset(Remaining(jobs, sampled) + Filter(jobs, IsSampled(sampled))) == multiset(jobs)
  {
    FilterPartition(jobs, NotSampled(sampled), IsSampled(sampled));
  }

  /** No sampled job is among the remaining ones. */
  lemma RemainingDisjoint(jobs: seq<Record>, sampled: seq<Record>, x: Record)
    requires x in Remaining(jobs, sampled)
    ensures x !in sampled
  {
  }

  // ------------------------------------------------------------------ skill union

  /**
   * The record of one remaining job after the rule extractor and the
   * distillation model: its skills are `list(rule | distill)`, listed in
   * the order `listing` gives the set.
   */
  function Merged(r: Record, predicted: seq<string>, listing: set<string> -> seq<string>): Record
  {
    var rule := Elems(r.job.skills);
    var distill := Elems(predicted);
    var merged := listing(rule + distill);
    r.(job := r.job.(skills := merged),
       extraction := Some(Extraction(rule, distill, merged, |rule|, |distill|, |merged|)))
  }

  /** The merge loop over the remaining jobs, in place. */
  method MergeRemaining(remaining: seq<Record>, predicted: seq<seq<string>>, listing: set<string> -> seq<string>)
    returns (out: seq<Record>)
    requires |predicted| == |remaining|
    ensures |out| == |remaining|
    ensures forall i :: 0 <= i < |out| ==> out[i] == Merged(remaining[i], predicted[i], listing)
  {
    out := remaining;
    var i := 0;
    while i < |out|
      invariant 0 <= i <= |out| == |remaining|
      invariant forall j :: 0 <= j < i ==> out[j] == Merged(remaining[j], predicted[j], listing)
      invariant forall j :: i <= j < |out| ==> out[j] == remaining[j]
    {
      out := out[i := Merged(out[i], predicted[i], listing)];
      i := i + 1;
    }
  }

  /** Python lists a set once per element, in some order. */
  ghost predicate Lists(listing: set<string> -> seq<string>)
  {
    forall s :: NoDup(listing(s)) && Elems(listing(s)) == s
  }

  /**
   * A merged job's skills are exactly the rule skills and the predicted
   * skills, each once; the merged count lies between the larger of the two
   * counts and their sum.
   */
  lemma MergedSpec(r: Record, predicted: seq<string>, listing: set<string> -> seq<string>)
    requires Lists(listing)
    ensures var m := Merged(r, predicted, listing);
      && m.jobId == r.jobId && m.jdText == r.jdText
      && NoDup(m.job.skills)
      && (forall s :: s in m.job.skills <==> s in r.job.skills || s in predicted)
      && m.extraction.Some?
      && m.extraction.value.ruleCount <= m.extraction.value.mergedCount
      && m.extraction.value.distillCount <= m.extraction.value.mergedCount
      && m.extraction.value.mergedCount <= m.extraction.value.ruleCount + m.extraction.value.distillCount
  {
    var rule := Elems(r.job.skills);
    var distill := Elems(predicted);
    var merged := listing(rule + distill);
    NoDupCardinality(merged);
    assert Elems(merged) == rule + distill;
    forall x ensures x in merged <==> x in r.job.skills || x in predicted {
      assert x in merged <==> x in Elems(merged);
    }
    assert |rule| <= |rule + distill| by { CardLe(rule, rule + distill); }
    assert |distill| <= |rule + distill| by { CardLe(distill, rule + distill); }
    CardUnion(rule, distill);
  }

  lemma CardLe(a: set<string>, b: set<string>)
    requires a <= b
    ensures |a| <= |b|
  {
    assert b == a + (b - a);
  }

  lemma CardUnion(a: set<string>, b: set<string>)
    ensures |a + b| <= |a| + |b|
  {
    assert a + b == a + (b - a);
    CardLe(b - a, b);
  }

  // ------------------------------------------------------------------ the pipeline

  /**
   * `enhance_with_qwen3_distillation` without its timing and printing:
   * clamp the sample count, sample, give the sample JD texts, extract with
   * the LLM; without distillation return that; otherwise merge rule and
   * distilled skills into the jobs the sample left out and append them.
   */
  method Enhance(jobs: seq<Record>, sampleCount: int, useDistillation: bool,
                 sample: (seq<Record>, int) -> seq<Record>,
                 llmExtract: seq<Record> -> seq<Record>,
                 ruleExtract: seq<Record> -> seq<Record>,
                 predict: seq<Record> -> seq<seq<string>>,
                 listing: set<string> -> seq<string>)
    returns (all: seq<Record>)
    requires forall rs :: |predict(rs)| == |rs|
    ensures var (count, distill) := ClampSample(sampleCount, |jobs|, useDistillation);
      var sampled := llmExtract(Filled(sample(jobs, count)));
      !distill ==> all == sampled
    ensures var (count, distill) := ClampSample(sampleCount, |jobs|, useDistillation);
      var sampled := llmExtract(Filled(sample(jobs, count)));
      var remaining := Remaining(jobs, sampled);
      distill ==> all == sampled + (if remaining == [] then [] else MergedAll(ruleExtract(remaining), predict(ruleExtract(remaining)), listing))
  {
    var (count, distill) := ClampSample(sampleCount, |jobs|, useDistillation);
    var sampled := sample(jobs, count);
    sampled := FillJdText(sampled);
    assert sampled == Filled(sample(jobs, count));
    sampled := llmExtract(sampled);
    if !distill {
      return sampled;
    }
    var remaining := Remaining(jobs, sampled);
    if remaining != [] {
      remaining := ruleExtract(remaining);
      var predicted := predict(remaining);
      remaining := MergeRemaining(remaining, predicted, listing);
      assert remaining == MergedAll(ruleExtract(Remaining(jobs, sampled)), predicted, listing);
    }
    all := sampled + remaining;
  }

  /** Every job given its JD text. */
  function Filled(sampled: seq<Record>): (r: seq<Record>)
    ensures |r| == |sampled|
    ensures forall i :: 0 <= i < |r| ==> r[i] == WithJdText(sampled[i])
  {
    seq(|sampled|, i requires 0 <= i < |sampled| => WithJdText(sampled[i]))
  }

  /** Every remaining job merged with its prediction. */
  function MergedAll(remaining: seq<Record>, predicted: seq<seq<string>>, listing: set<string> -> seq<string>): (r: seq<Record>)
    requires |predicted| == |remaining|
    ensures |r| == |remaining|
    ensures forall i :: 0 <= i < |r| ==> r[i] == Merged(remaining[i], predicted[i], listing)
  {
    seq(|remaining|, i requires 0 <= i < |remaining| => Merged(remaining[i], predicted[i], listing))
  }
}
