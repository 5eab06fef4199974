/**
 * The data-quality report (scripts/generate_report.py): the statistics of
 * one data set, its salary range and skill distribution, the summary over
 * the six cities, and the collection loop that fills the report's
 * statistics. Reading the JSON files is an oracle that gives a city's
 * records, or nothing when the file does not exist.
 */
module DataQualityReport {
  import opened Wrappers
  import opened Text
  import opened Order
  import opened Ranking

  /** The fields of a job record the report reads; a missing salary is 0, a missing text field `None`. */
  datatype Job = Job(skills: seq<string>, education: Option<string>, experience: Option<string>,
                     company: Option<string>, salaryMin: real, salaryMax: real)

  datatype SalaryRange = SalaryRange(min: real, max: real, avgMin: real, avgMax: real, medianMin: real, medianMax: real)

  /** What `_analyze_data` returns for a non-empty data set. */
  datatype DataStats = DataStats(
    total: nat, withSkills: nat,
    educationDist: seq<(string, nat)>, experienceDist: seq<(string, nat)>,
    salaryRange: Option<SalaryRange>, topCompanies: seq<(string, nat)>)

  /** What `_analyze_skills` returns. */
  datatype SkillStats = SkillStats(totalSkills: nat, topSkills: seq<(string, nat)>, avgSkillsPerJob: real)

  /** One city's entry: the raw and cleaned statistics (`None` for `{}`) and the skill statistics. */
  datatype CityStats = CityStats(raw: Option<DataStats>, cleaned: Option<DataStats>, skills: Option<SkillStats>)

  datatype Summary = Summary(totalRaw: nat, totalCleaned: nat, retentionRate: real, totalCities: nat,
                             topSkillsOverall: seq<(string, nat)>)

  const Cities: seq<string> := ["北京", "成都", "广州", "杭州", "上海", "深圳"]
  const Unknown: string := "未知"

  /** `j.get(field, '未知')` */
  function OrUnknown(o: Option<string>): string
  {
    if o.Some? then o.value else Unknown
  }

  // ------------------------------------------------------------------ salary range

  /** The pair a job contributes: only `0 < min < max <= 200` counts. */
  function SalaryPair(j: Job): Option<(real, real)>
  {
    if 0.0 < j.salaryMin < j.salaryMax <= 200.0 then Some((j.salaryMin, j.salaryMax)) else None
  }

  function Firsts(ps: seq<(real, real)>): (r: seq<real>)
    ensures |r| == |ps| && forall i :: 0 <= i < |ps| ==> r[i] == ps[i].0
  {
    seq(|ps|, i requires 0 <= i < |ps| => ps[i].0)
  }

  function Seconds(ps: seq<(real, real)>): (r: seq<real>)
    ensures |r| == |ps| && forall i :: 0 <= i < |ps| ==> r[i] == ps[i].1
  {
    seq(|ps|, i requires 0 <= i < |ps| => ps[i].1)
  }

  /** `min(xs)` */
  function MinOf(xs: seq<real>): (m: real)
    requires xs != []
    ensures m in xs && forall x :: x in xs ==> m <= x
  {
    if |xs| == 1 then xs[0]
    else
      var rest := MinOf(xs[1..]);
      assert forall x :: x in xs ==> x == xs[0] || x in xs[1..];
      if xs[0] <= rest then xs[0] else rest
  }

  /** `max(xs)` */
  function MaxOf(xs: seq<real>): (m: real)
    requires xs != []
    ensures m in xs && forall x :: x in xs ==> x <= m
  {
    if |xs| == 1 then xs[0]
    else
      var rest := MaxOf(xs[1..]);
      assert forall x :: x in xs ==> x == xs[0] || x in xs[1..];
      if xs[0] >= rest then xs[0] else rest
  }

  function SumOf(xs: seq<real>): real
  {
    if xs == [] then 0.0 else xs[0] + SumOf(xs[1..])
  }

  /** `sorted(xs)[len(xs) // 2]` */
  function Median(xs: seq<real>): real
    requires xs != []
  {
    SortAsc(xs)[|xs| / 2]
  }

  /** `_get_salary_range`: `None` (the empty dict) when no job has a usable pair. */
  function SalaryRangeOf(data: seq<Job>): Option<SalaryRange>
  {
    var pairs := FilterMap(data, SalaryPair);
    if pairs == [] then None
    else
      var mins, maxs := Firsts(pairs), Seconds(pairs);
      Some(SalaryRange(MinOf(mins), MaxOf(maxs),
                       SumOf(mins) / (|mins| as real), SumOf(maxs) / (|maxs| as real),
                       Median(mins), Median(maxs)))
  }

  /** The range is empty exactly when no job has `0 < min < max <= 200`. */
  lemma SalaryRangeEmpty(data: seq<Job>)
    ensures SalaryRangeOf(data).None? <==> forall j :: j in data ==> SalaryPair(j).None?
  {
    var pairs := FilterMap(data, SalaryPair);
    FilterMapMembers(data, SalaryPair);
    if pairs != [] {
      assert pairs[0] in pairs;
    }
  }

  /** Each kept pair comes from a job. */
  lemma PairSource(data: seq<Job>, p: (real, real)) returns (j: Job)
    requires p in FilterMap(data, SalaryPair)
    ensures j in data && SalaryPair(j) == Some(p) && j.salaryMin == p.0 && j.salaryMax == p.1
  {
    FilterMapMembers(data, SalaryPair);
    var i :| 0 <= i < |data| && SalaryPair(data[i]) == Some(p);
    j := data[i];
  }

  /** Each job's kept pair is among the kept pairs. */
  lemma PairKept(data: seq<Job>, j: Job)
    requires j in data && SalaryPair(j).Some?
    ensures SalaryPair(j).value in FilterMap(data, SalaryPair)
  {
    FilterMapMembers(data, SalaryPair);
    var i :| 0 <= i < |data| && data[i] == j;
  }

  /** A non-empty range has as minimum the minimum of a kept job, and as maximum the maximum of a kept job. */
  lemma SalaryRangeAttained(data: seq<Job>)
    requires SalaryRangeOf(data).Some?
    ensures exists j :: j in data && SalaryPair(j).Some? && j.salaryMin == SalaryRangeOf(data).value.min
    ensures exists j :: j in data && SalaryPair(j).Some? && j.salaryMax == SalaryRangeOf(data).value.max
  {
    var pairs := FilterMap(data, SalaryPair);
    var mins, maxs := Firsts(pairs), Seconds(pairs);
    var i :| 0 <= i < |mins| && mins[i] == MinOf(mins);
    var j := PairSource(data, pairs[i]);
    var k :| 0 <= k < |maxs| && maxs[k] == MaxOf(maxs);
    var j' := PairSource(data, pairs[k]);
  }

  /**
   * No kept job lies outside a non-empty range, and both medians lie
   * between its minimum and its maximum.
   */
  lemma SalaryRangeBounds(data: seq<Job>)
    requires SalaryRangeOf(data).Some?
    ensures var r := SalaryRangeOf(data).value;
      && (forall j :: j in data && SalaryPair(j).Some? ==> r.min <= j.salaryMin && j.salaryMax <= r.max)
      && r.min <= r.medianMin <= r.max && r.min <= r.medianMax <= r.max
  {
    var pairs := FilterMap(data, SalaryPair);
    KeptPairsOrdered(data);
    PairsRange(pairs);
    var r := SalaryRangeOf(data).value;
    assert r.min == MinOf(Firsts(pairs)) && r.max == MaxOf(Seconds(pairs));
    assert r.medianMin == Median(Firsts(pairs)) && r.medianMax == Median(Seconds(pairs));
    forall j | j in data && SalaryPair(j).Some? ensures r.min <= j.salaryMin && j.salaryMax <= r.max {
      PairKept(data, j);
    }
  }

  /** Every kept pair has its minimum below its maximum. */
  lemma KeptPairsOrdered(data: seq<Job>)
    ensures forall p :: p in FilterMap(data, SalaryPair) ==> p.0 < p.1
  {
    forall p | p in FilterMap(data, SalaryPair) ensures p.0 < p.1 {
      var j := PairSource(data, p);
    }
  }

  /** The extremes and medians of the kept pairs, stated over the pairs themselves. */
  lemma PairsRange(pairs: seq<(real, real)>)
    requires pairs != [] && forall p :: p in pairs ==> p.0 < p.1
    ensures var mins, maxs := Firsts(pairs), Seconds(pairs);
      && (forall p :: p in pairs ==> MinOf(mins) <= p.0 && p.1 <= MaxOf(maxs))
      && MinOf(mins) <= Median(mins) <= MaxOf(maxs) && MinOf(mins) <= Median(maxs) <= MaxOf(maxs)
  {
    var mins, maxs := Firsts(pairs), Seconds(pairs);
    forall p | p in pairs ensures MinOf(mins) <= p.0 && p.1 <= MaxOf(maxs) {
      var m :| 0 <= m < |pairs| && pairs[m] == p;
      assert mins[m] in mins && maxs[m] in maxs;
    }
    PairsOrdered(pairs);
    MedianBetween(mins);
    MedianBetween(maxs);
  }

  /** Each kept minimum is below its maximum, so every minimum is below the largest maximum. */
  lemma PairsOrdered(pairs: seq<(real, real)>)
    requires pairs != [] && forall p :: p in pairs ==> p.0 < p.1
    ensures MaxOf(Firsts(pairs)) <= MaxOf(Seconds(pairs)) && MinOf(Firsts(pairs)) <= MinOf(Seconds(pairs))
  {
    var mins, maxs := Firsts(pairs), Seconds(pairs);
    var i :| 0 <= i < |mins| && mins[i] == MaxOf(mins);
    assert pairs[i] in pairs && maxs[i] in maxs;
    var k :| 0 <= k < |maxs| && maxs[k] == MinOf(maxs);
    assert pairs[k] in pairs && mins[k] in mins;
  }

  /** The median is one of the values, so it lies between the minimum and the maximum. */
  lemma MedianBetween(xs: seq<real>)
    requires xs != []
    ensures Median(xs) in xs && MinOf(xs) <= Median(xs) <= MaxOf(xs)
  {
    var s := SortAsc(xs);
    assert s[|xs| / 2] in multiset(s);
  }

  // ------------------------------------------------------------------ one data set

  function Educations(data: seq<Job>): (r: seq<string>)
    ensures |r| == |data|
  {
    seq(|data|, i requires 0 <= i < |data| => OrUnknown(data[i].education))
  }

  function Experiences(data: seq<Job>): (r: seq<string>)
    ensures |r| == |data|
  {
    seq(|data|, i requires 0 <= i < |data| => OrUnknown(data[i].experience))
  }

  function Companies(data: seq<Job>): (r: seq<string>)
    ensures |r| == |data|
    ensures forall i :: 0 <= i < |data| ==> r[i] == OrUnknown(data[i].company)
  {
    seq(|data|, i requires 0 <= i < |data| => OrUnknown(data[i].company))
  }

  function HasSkills(): Job -> bool
  {
    (j: Job) => j.skills != []
  }

  /** `_analyze_data`: `None` (the empty dict) for no data. */
  function AnalyzeData(data: seq<Job>): Option<DataStats>
  {
    if data == [] then None
    else Some(DataStats(|data|, Count(data, HasSkills()),
                        Counted(Educations(data)), Counted(Experiences(data)),
                        SalaryRangeOf(data), MostCommon(Counted(Companies(data)), 10)))
  }

  /**
   * Statistics exist exactly for non-empty data; the jobs with skills are
   * at most all jobs; at most ten companies are listed, by descending job
   * count, each with the number of jobs naming it.
   */
  lemma AnalyzeDataSpec(data: seq<Job>)
    ensures AnalyzeData(data).Some? <==> data != []
    ensures AnalyzeData(data).Some? ==>
      var s := AnalyzeData(data).value;
      && s.total == |data| && s.withSkills <= s.total
      && |s.topCompanies| <= 10
      && SortedDesc(s.topCompanies, CountOf())
      && forall e :: e in s.topCompanies ==> e.0 in Companies(data) && e.1 == Occurrences(Companies(data), e.0)
  {
    if data != [] {
      var t := Counted(Companies(data));
      forall e | e in MostCommon(t, 10)
        ensures e.0 in Companies(data) && e.1 == Occurrences(Companies(data), e.0)
      {
        var i :| 0 <= i < |t| && t[i] == e;
        assert Dedup(Companies(data))[i] in Dedup(Companies(data));
      }
    }
  }

  /** All skills of the jobs, concatenated in job order. */
  function AllSkills(data: seq<Job>): seq<string>
  {
    if data == [] then [] else data[0].skills + AllSkills(data[1..])
  }

  /** `_analyze_skills` */
  function AnalyzeSkills(data: seq<Job>): SkillStats
  {
    var all := AllSkills(data);
    SkillStats(|Counted(all)|, MostCommon(Counted(all), 30),
               if data == [] then 0.0 else (|all| as real) / (|data| as real))
  }

  /** The total is the number of distinct skills; at most 30 are listed; no data gives an average of 0. */
  lemma AnalyzeSkillsSpec(data: seq<Job>)
    ensures AnalyzeSkills(data).totalSkills == |Elems(AllSkills(data))|
    ensures |AnalyzeSkills(data).topSkills| <= 30
    ensures data == [] ==> AnalyzeSkills(data).avgSkillsPerJob == 0.0 && AnalyzeSkills(data).totalSkills == 0
  {
    var all := AllSkills(data);
    NoDupCardinality(Dedup(all));
    assert Elems(Dedup(all)) == Elems(all);
  }

  // ------------------------------------------------------------------ summary

  function TotalOf(s: Option<DataStats>): nat
  {
    if s.Some? then s.value.total else 0
  }

  function RawTotal(cities: seq<CityStats>): nat
  {
    if cities == [] then 0 else TotalOf(cities[0].raw) + RawTotal(cities[1..])
  }

  function CleanedTotal(cities: seq<CityStats>): nat
  {
    if cities == [] then 0 else TotalOf(cities[0].cleaned) + CleanedTotal(cities[1..])
  }

  /** The (skill, count) pairs of every city's top list, in city order. */
  function TopPairs(cities: seq<CityStats>): seq<(string, nat)>
  {
    if cities == [] then []
    else (if cities[0].skills.Some? then cities[0].skills.value.topSkills else []) + TopPairs(cities[1..])
  }

  function Names(pairs: seq<(string, nat)>): (r: seq<string>)
    ensures |r| == |pairs| && forall i :: 0 <= i < |pairs| ==> r[i] == pairs[i].0
  {
    seq(|pairs|, i requires 0 <= i < |pairs| => pairs[i].0)
  }

  /** The sum of the counts paired with `k`. */
  function Weight(pairs: seq<(string, nat)>, k: string): nat
  {
    if pairs == [] then 0 else (if pairs[0].0 == k then pairs[0].1 else 0) + Weight(pairs[1..], k)
  }

  /** The entries of a counter that adds each pair's count to its skill: first-seen order, summed counts. */
  function Weighted(pairs: seq<(string, nat)>): (r: seq<(string, nat)>)
    ensures |r| == |Dedup(Names(pairs))|
    ensures forall i :: 0 <= i < |r| ==> r[i] == (Dedup(Names(pairs))[i], Weight(pairs, Dedup(Names(pairs))[i]))
  {
    var keys := Dedup(Names(pairs));
    seq(|keys|, i requires 0 <= i < |keys| => (keys[i], Weight(pairs, keys[i])))
  }

  /** `_calculate_summary` over the cities' entries in city order. */
  function CalculateSummary(cities: seq<CityStats>): Summary
  {
    var raw, cleaned := RawTotal(cities), CleanedTotal(cities);
    Summary(raw, cleaned, if raw > 0 then (cleaned as real) / (raw as real) else 0.0, |Cities|,
            MostCommon(Weighted(TopPairs(cities)), 50))
  }

  /**
   * The retention rate is 0 when there is no raw data; at most 50 skills
   * are listed overall, each with the sum of its counts in the cities'
   * top lists.
   */
  lemma SummarySpec(cities: seq<CityStats>)
    ensures RawTotal(cities) == 0 ==> CalculateSummary(cities).retentionRate == 0.0
    ensures |CalculateSummary(cities).topSkillsOverall| <= 50
    ensures forall e :: e in CalculateSummary(cities).topSkillsOverall ==>
      e.0 in Names(TopPairs(cities)) && e.1 == Weight(TopPairs(cities), e.0)
  {
    var w := Weighted(TopPairs(cities));
    forall e | e in MostCommon(w, 50)
      ensures e.0 in Names(TopPairs(cities)) && e.1 == Weight(TopPairs(cities), e.0)
    {
      var i :| 0 <= i < |w| && w[i] == e;
      assert Dedup(Names(TopPairs(cities)))[i] in Dedup(Names(TopPairs(cities)));
    }
  }

  // ------------------------------------------------------------------ collection

  /** One city's entry from its raw and cleaned files. */
  function CityEntry(raw: Option<seq<Job>>, cleaned: Option<seq<Job>>): CityStats
  {
    CityStats(if raw.Some? then AnalyzeData(raw.value) else None,
              if cleaned.Some? then AnalyzeData(cleaned.value) else None,
              if cleaned.Some? then Some(AnalyzeSkills(cleaned.value)) else None)
  }

  /** `DataQualityReport`: the per-city statistics and the summary it fills. */
  class Report {
    var stats: map<string, CityStats>
    var summary: Option<Summary>

    constructor()
      ensures stats == map[] && summary == None
    {
      stats := map[];
      summary := None;
    }

    /**
     * `_collect_statistics`: every city gets its entry (a missing file
     * leaves its part empty), then the summary over the cities in order.
     */
    method CollectStatistics(rawFile: string -> Option<seq<Job>>, cleanedFile: string -> Option<seq<Job>>)
      modifies this
      ensures forall c :: c in Cities ==> c in stats && stats[c] == CityEntry(rawFile(c), cleanedFile(c))
      ensures forall c :: c in stats && c !in Cities ==> c in old(stats) && stats[c] == old(stats)[c]
      ensures summary == Some(CalculateSummary(Entries(rawFile, cleanedFile)))
    {
      var i := 0;
      while i < |Cities|
        invariant 0 <= i <= |Cities|
        invariant forall k :: 0 <= k < i ==> Cities[k] in stats && stats[Cities[k]] == CityEntry(rawFile(Cities[k]), cleanedFile(Cities[k]))
        invariant forall c :: c in stats && c !in Cities ==> c in old(stats) && stats[c] == old(stats)[c]
      {
        var city := Cities[i];
        stats := stats[city := CityEntry(rawFile(city), cleanedFile(city))];
        i := i + 1;
      }
      var entries := seq(|Cities|, k requires 0 <= k < |Cities| && Cities[k] in stats reads this => stats[Cities[k]]);
      assert entries == Entries(rawFile, cleanedFile);
      summary := Some(CalculateSummary(entries));
    }
  }

  /** The cities' entries in city order. */
  function Entries(rawFile: string -> Option<seq<Job>>, cleanedFile: string -> Option<seq<Job>>): (r: seq<CityStats>)
    ensures |r| == |Cities|
  {
    seq(|Cities|, k requires 0 <= k < |Cities| => CityEntry(rawFile(Cities[k]), cleanedFile(Cities[k])))
  }
}
