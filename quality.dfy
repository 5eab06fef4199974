/**
 * The data-quality analysis of the raw crawl (scripts/analyze_data_quality.py):
 * for each of the six cities whose raw file exists, every job is checked
 * for empty skills, empty education and experience, and an implausible
 * salary, and counted as valid when it has skills and a plausible salary.
 * Reading a city's file is an oracle that gives its records, or nothing
 * when the file does not exist.
 */
module DataQualityAnalysis {
  import opened Wrappers
  import opened Order

  /** The fields of a raw record the analysis reads; a missing salary is 0. */
  datatype Job = Job(skills: seq<string>, education: Option<string>, experience: Option<string>,
                     salaryMin: real, salaryMax: real)

  const Cities: seq<string> := ["北京", "成都", "广州", "杭州", "上海", "深圳"]

  /** `job.get('skills') and len(...) > 0` */
  predicate HasSkills(j: Job)
  {
    j.skills != []
  }

  /** `not job.get(field) or job.get(field) == ''` */
  predicate Blank(o: Option<string>)
  {
    o.None? || o.value == ""
  }

  /** The salary checks, in the order the script makes them. */
  predicate SalaryValid(j: Job)
  {
    if j.salaryMin <= 0.0 || j.salaryMax <= 0.0 then false
    else if j.salaryMax < j.salaryMin then false
    else if j.salaryMax > 200.0 || j.salaryMin > 150.0 then false
    else true
  }

  /** A salary passes exactly when both bounds are positive, ordered, the maximum at most 200 and the minimum at most 150. */
  lemma SalaryValidIff(j: Job)
    ensures SalaryValid(j) <==>
      0.0 < j.salaryMin && 0.0 < j.salaryMax && j.salaryMin <= j.salaryMax && j.salaryMax <= 200.0 && j.salaryMin <= 150.0
  {
  }

  /** A job is valid when it has skills and a plausible salary. */
  predicate Valid(j: Job)
  {
    HasSkills(j) && SalaryValid(j)
  }

  /** The counters of `total_stats`, also used for one city's counts. */
  datatype Counters = Counters(jobs: nat, emptySkills: nat, emptyEducation: nat, emptyExperience: nat,
                               salaryIssues: nat, valid: nat)

  const Zero := Counters(0, 0, 0, 0, 0, 0)

  function Plus(a: Counters, b: Counters): Counters
  {
    Counters(a.jobs + b.jobs, a.emptySkills + b.emptySkills, a.emptyEducation + b.emptyEducation,
             a.emptyExperience + b.emptyExperience, a.salaryIssues + b.salaryIssues, a.valid + b.valid)
  }

  lemma PlusZero(a: Counters)
    ensures Plus(a, Zero) == a
  {
  }

  /** Adding the counts without the jobs, then the jobs, adds the counts. */
  lemma PlusSplit(a: Counters, b: Counters)
    ensures Plus(a, b.(jobs := 0)).(jobs := a.jobs + b.jobs) == Plus(a, b)
  {
  }

  function Flag(b: bool): nat { if b then 1 else 0 }

  /** What one job adds to the counters. */
  function JobCounters(j: Job): Counters
  {
    Counters(1, Flag(!HasSkills(j)), Flag(Blank(j.education)), Flag(Blank(j.experience)),
             Flag(!SalaryValid(j)), Flag(Valid(j)))
  }

  /** The counters of a city's jobs, accumulated in file order. */
  function Tally(data: seq<Job>): Counters
  {
    if data == [] then Zero else Plus(Tally(data[..|data| - 1]), JobCounters(data[|data| - 1]))
  }

  function NoSkills(): Job -> bool { (j: Job) => !HasSkills(j) }
  function NoEducation(): Job -> bool { (j: Job) => Blank(j.education) }
  function NoExperience(): Job -> bool { (j: Job) => Blank(j.experience) }
  function SalaryIssue(): Job -> bool { (j: Job) => !SalaryValid(j) }
  function IsValid(): Job -> bool { (j: Job) => Valid(j) }

  /** Each counter is the number of jobs with that property. */
  lemma {:induction false} TallyCounts(data: seq<Job>)
    ensures Tally(data) == Counters(|data|, Count(data, NoSkills()), Count(data, NoEducation()),
                                    Count(data, NoExperience()), Count(data, SalaryIssue()), Count(data, IsValid()))
  {
    if data != [] {
      var init, last := data[..|data| - 1], data[|data| - 1];
      TallyCounts(init);
      assert init + [last] == data;
      CountAppend(init, last, NoSkills());
      CountAppend(init, last, NoEducation());
      CountAppend(init, last, NoExperience());
      CountAppend(init, last, SalaryIssue());
      CountAppend(init, last, IsValid());
    }
  }

  /** A valid job has skills and a plausible salary, so valid jobs and either kind of defect together never exceed the jobs. */
  predicate Consistent(c: Counters)
  {
    && c.valid + c.emptySkills <= c.jobs
    && c.valid + c.salaryIssues <= c.jobs
    && c.emptyEducation <= c.jobs && c.emptyExperience <= c.jobs
  }

  lemma {:induction false} TallyConsistent(data: seq<Job>)
    ensures Consistent(Tally(data))
  {
    if data != [] {
      TallyConsistent(data[..|data| - 1]);
    }
  }

  /** One city's entry in `city_stats`. */
  datatype CityStats = CityStats(total: nat, valid: nat, emptySkills: nat, salaryIssues: nat)

  function CityStatsOf(c: Counters): CityStats
  {
    CityStats(c.jobs, c.valid, c.emptySkills, c.salaryIssues)
  }

  /** What the analysis returns. */
  datatype Analysis = Analysis(totals: Counters, cityStats: map<string, CityStats>)

  /** The counters of a city whose file is missing: none. */
  function CityTally(data: Option<seq<Job>>): Counters
  {
    if data.Some? then Tally(data.value) else Zero
  }

  /** The overall counters of the first `n` cities of `cs`, visited in order, missing files skipped. */
  function Overall(cs: seq<string>, n: nat, file: string -> Option<seq<Job>>): Counters
    requires n <= |cs|
  {
    if n == 0 then Zero else Plus(Overall(cs, n - 1, file), CityTally(file(cs[n - 1])))
  }

  /** The per-city entries of those of the first `n` cities whose file exists. */
  function CityMap(cs: seq<string>, n: nat, file: string -> Option<seq<Job>>): map<string, CityStats>
    requires n <= |cs|
  {
    if n == 0 then map[]
    else
      var m := CityMap(cs, n - 1, file);
      var c := cs[n - 1];
      if file(c).Some? then m[c := CityStatsOf(Tally(file(c).value))] else m
  }

  /** A city has an entry exactly when its file exists, and the entry holds that file's counts. */
  lemma {:induction false} CityMapSpec(cs: seq<string>, n: nat, file: string -> Option<seq<Job>>)
    requires n <= |cs|
    ensures forall c :: c in CityMap(cs, n, file) <==> c in cs[..n] && file(c).Some?
    ensures forall c :: c in CityMap(cs, n, file) ==> CityMap(cs, n, file)[c] == CityStatsOf(Tally(file(c).value))
  {
    if n > 0 {
      CityMapSpec(cs, n - 1, file);
      assert cs[..n] == cs[..n - 1] + [cs[n - 1]];
    }
  }

  /** The overall counters keep the same bounds, and every existing file's jobs are among the total. */
  lemma OverallSpec(cs: seq<string>, n: nat, file: string -> Option<seq<Job>>)
    requires n <= |cs|
    ensures Consistent(Overall(cs, n, file))
    ensures forall c :: c in cs[..n] && file(c).Some? ==> |file(c).value| <= Overall(cs, n, file).jobs
  {
    OverallConsistent(cs, n, file);
    OverallIncludes(cs, n, file);
  }

  lemma {:induction false} OverallConsistent(cs: seq<string>, n: nat, file: string -> Option<seq<Job>>)
    requires n <= |cs|
    ensures Consistent(Overall(cs, n, file))
  {
    if n > 0 {
      OverallConsistent(cs, n - 1, file);
      if file(cs[n - 1]).Some? {
        TallyConsistent(file(cs[n - 1]).value);
      }
    }
  }

  lemma OverallIncludes(cs: seq<string>, n: nat, file: string -> Option<seq<Job>>)
    requires n <= |cs|
    ensures forall c :: c in cs[..n] && file(c).Some? ==> |file(c).value| <= Overall(cs, n, file).jobs
  {
    var size, total := FileSize(file), OverallJobs(cs, file);
    forall k | 0 < k <= n ensures total(k) == total(k - 1) + size(cs[k - 1]) {
      OverallJobsStep(cs, k, file);
      assert total(k) == Overall(cs, k, file).jobs && total(k - 1) == Overall(cs, k - 1, file).jobs;
    }
    SumIncludes(cs, n, size, total);
    forall c | c in cs[..n] && file(c).Some? ensures |file(c).value| <= Overall(cs, n, file).jobs {
      assert size(c) <= total(n);
    }
  }

  /** The number of records in a city's file, 0 when it is missing. */
  function FileSize(file: string -> Option<seq<Job>>): string -> nat
  {
    (c: string) => if file(c).Some? then |file(c).value| else 0
  }

  /** The overall job count after the first `k` cities. */
  function OverallJobs(cs: seq<string>, file: string -> Option<seq<Job>>): nat -> nat
  {
    (k: nat) => if k <= |cs| then Overall(cs, k, file).jobs else 0
  }

  /** Adding one city adds exactly the number of records in its file (none when it is missing). */
  lemma OverallJobsStep(cs: seq<string>, n: nat, file: string -> Option<seq<Job>>)
    requires 0 < n <= |cs|
    ensures Overall(cs, n, file).jobs == Overall(cs, n - 1, file).jobs + (if file(cs[n - 1]).Some? then |file(cs[n - 1]).value| else 0)
  {
    if file(cs[n - 1]).Some? {
      TallyJobs(file(cs[n - 1]).value);
    }
  }

  /** A running total that grows by `size` of each element is at least `size` of every element seen. */
  lemma {:induction false} SumIncludes<T>(xs: seq<T>, n: nat, size: T -> nat, total: nat -> nat)
    requires n <= |xs|
    requires forall k :: 0 < k <= n ==> total(k) == total(k - 1) + size(xs[k - 1])
    ensures forall x :: x in xs[..n] ==> size(x) <= total(n)
  {
    if n > 0 {
      SumIncludes(xs, n - 1, size, total);
      forall x | x in xs[..n] ensures size(x) <= total(n) {
        var i :| 0 <= i < n && xs[..n][i] == x;
        if i < n - 1 {
          assert xs[..n - 1][i] == x;
        }
      }
    }
  }

  /** Every city's entry has no more valid jobs, jobs without skills or salary issues than records. */
  lemma CityEntriesBounded(cs: seq<string>, file: string -> Option<seq<Job>>)
    ensures forall c :: c in CityMap(cs, |cs|, file) ==>
      && CityMap(cs, |cs|, file)[c].valid + CityMap(cs, |cs|, file)[c].emptySkills <= CityMap(cs, |cs|, file)[c].total
      && CityMap(cs, |cs|, file)[c].valid + CityMap(cs, |cs|, file)[c].salaryIssues <= CityMap(cs, |cs|, file)[c].total
  {
    CityMapSpec(cs, |cs|, file);
    forall c | c in CityMap(cs, |cs|, file) ensures Consistent(Tally(file(c).value)) {
      TallyConsistent(file(c).value);
    }
  }

  lemma {:induction false} TallyJobs(data: seq<Job>)
    ensures Tally(data).jobs == |data|
  {
    if data != [] {
      TallyJobs(data[..|data| - 1]);
    }
  }

  /** The salary block of the loop body. */
  method CheckSalary(job: Job) returns (salaryValid: bool)
    ensures salaryValid == SalaryValid(job)
  {
    salaryValid := true;
    if job.salaryMin <= 0.0 || job.salaryMax <= 0.0 {
      salaryValid := false;
    } else if job.salaryMax < job.salaryMin {
      salaryValid := false;
    } else if job.salaryMax > 200.0 || job.salaryMin > 150.0 {
      salaryValid := false;
    }
  }

  lemma TallyStep(data: seq<Job>, k: nat)
    requires k < |data|
    ensures Tally(data[..k + 1]) == Plus(Tally(data[..k]), JobCounters(data[k]))
  {
    assert data[..k + 1][..k] == data[..k];
  }

  /** The invariant of the inner loop: the totals and the city's counters hold the first `k` jobs' counts. */
  ghost predicate Scanned(data: seq<Job>, k: nat, totals: Counters, totals': Counters,
                          valid: nat, emptySkills: nat, salaryIssues: nat)
    requires k <= |data|
  {
    var t := Tally(data[..k]);
    totals' == Plus(totals, t.(jobs := 0)) && valid == t.valid && emptySkills == t.emptySkills
    && salaryIssues == t.salaryIssues
  }

  /** Counting job `k` carries the invariant to the first `k + 1` jobs. */
  lemma ScannedStep(data: seq<Job>, k: nat, totals: Counters, t0: Counters, v0: nat, e0: nat, s0: nat,
                    t1: Counters, v1: nat, e1: nat, s1: nat)
    requires k < |data| && Scanned(data, k, totals, t0, v0, e0, s0)
    requires t1 == Plus(t0, JobCounters(data[k]).(jobs := 0))
    requires v1 == v0 + JobCounters(data[k]).valid && e1 == e0 + JobCounters(data[k]).emptySkills
    requires s1 == s0 + JobCounters(data[k]).salaryIssues
    ensures Scanned(data, k + 1, totals, t1, v1, e1, s1)
  {
    TallyStep(data, k);
    PlusJobless(totals, Tally(data[..k]), JobCounters(data[k]));
  }

  /** Adding two counts without their jobs one after the other adds their sum without its jobs. */
  lemma PlusJobless(a: Counters, b: Counters, c: Counters)
    ensures Plus(Plus(a, b.(jobs := 0)), c.(jobs := 0)) == Plus(a, Plus(b, c).(jobs := 0))
  {
  }

  /**
   * The loop body for one job: the totals and the city's counters
   * (valid, empty skills, salary issues) grow by what the job adds.
   */
  method CountJob(job: Job, totals: Counters, valid: nat, emptySkills: nat, salaryIssues: nat)
      returns (totals': Counters, valid': nat, emptySkills': nat, salaryIssues': nat)
    ensures totals' == Plus(totals, JobCounters(job).(jobs := 0))
    ensures valid' == valid + JobCounters(job).valid
    ensures emptySkills' == emptySkills + JobCounters(job).emptySkills
    ensures salaryIssues' == salaryIssues + JobCounters(job).salaryIssues
  {
    totals', valid', emptySkills', salaryIssues' := totals, valid, emptySkills, salaryIssues;
    var hasSkills := job.skills != [];
    if !hasSkills {
      totals' := totals'.(emptySkills := totals'.emptySkills + 1);
      emptySkills' := emptySkills' + 1;
    }
    if Blank(job.education) {
      totals' := totals'.(emptyEducation := totals'.emptyEducation + 1);
    }
    if Blank(job.experience) {
      totals' := totals'.(emptyExperience := totals'.emptyExperience + 1);
    }
    var salaryValid := CheckSalary(job);
    if !salaryValid {
      totals' := totals'.(salaryIssues := totals'.salaryIssues + 1);
      salaryIssues' := salaryIssues' + 1;
    }
    if hasSkills && salaryValid {
      totals' := totals'.(valid := totals'.valid + 1);
      valid' := valid' + 1;
    }
  }

  /** The inner loop over one city's jobs: the totals grow by the city's counts (its job count is added by the caller). */
  method ScanCity(data: seq<Job>, totals: Counters) returns (totals': Counters, city: CityStats)
    ensures totals' == Plus(totals, Tally(data).(jobs := 0))
    ensures city == CityStatsOf(Tally(data))
  {
    var cityCount := |data|;
    var cityValid, cityEmptySkills, citySalaryIssues := 0, 0, 0;
    totals' := totals;
    var k := 0;
    assert data[..0] == [];
    while k < |data|
      invariant 0 <= k <= |data|
      invariant Scanned(data, k, totals, totals', cityValid, cityEmptySkills, citySalaryIssues)
    {
      var t', v', e', s' := CountJob(data[k], totals', cityValid, cityEmptySkills, citySalaryIssues);
      ScannedStep(data, k, totals, totals', cityValid, cityEmptySkills, citySalaryIssues, t', v', e', s');
      totals', cityValid, cityEmptySkills, citySalaryIssues := t', v', e', s';
      k := k + 1;
    }
    assert data[..k] == data;
    TallyJobs(data);
    city := CityStats(cityCount, cityValid, cityEmptySkills, citySalaryIssues);
  }

  /** No existing file among the first `n` cities of `cs` is without records. */
  predicate AllFilled(cs: seq<string>, n: nat, file: string -> Option<seq<Job>>)
    requires n <= |cs|
  {
    n == 0 || (AllFilled(cs, n - 1, file) && file(cs[n - 1]) != Some([]))
  }

  lemma {:induction false} AllFilledIff(cs: seq<string>, n: nat, file: string -> Option<seq<Job>>)
    requires n <= |cs|
    ensures AllFilled(cs, n, file) <==> forall k :: 0 <= k < n ==> file(cs[k]) != Some([])
  {
    if n > 0 {
      AllFilledIff(cs, n - 1, file);
    }
  }

  /**
   * The outer loop over the cities `cs`: it stops at the first existing
   * file without records (where the rate's division by zero fails);
   * otherwise it has accumulated every city's counters and entries.
   */
  method ScanCities(cs: seq<string>, file: string -> Option<seq<Job>>)
      returns (ok: bool, totals: Counters, stats: map<string, CityStats>)
    ensures ok <==> AllFilled(cs, |cs|, file)
    ensures ok ==> totals == Overall(cs, |cs|, file) && stats == CityMap(cs, |cs|, file)
  {
    totals := Zero;
    stats := map[];
    var i := 0;
    while i < |cs|
      invariant 0 <= i <= |cs|
      invariant totals == Overall(cs, i, file)
      invariant stats == CityMap(cs, i, file)
      invariant AllFilled(cs, i, file)
    {
      ok, totals, stats := VisitCity(cs[i], file(cs[i]), totals, stats);
      if !ok {
        AllFilledIff(cs, |cs|, file);
        return;
      }
      i := i + 1;
    }
    ok := true;
  }

  /** One pass of the outer loop: a missing file is skipped, an empty one fails, any other is counted and recorded. */
  method VisitCity(city: string, file: Option<seq<Job>>, totals: Counters, stats: map<string, CityStats>)
      returns (ok: bool, totals': Counters, stats': map<string, CityStats>)
    ensures ok <==> file != Some([])
    ensures ok ==> totals' == Plus(totals, CityTally(file))
    ensures ok ==> stats' == if file.Some? then stats[city := CityStatsOf(Tally(file.value))] else stats
  {
    totals', stats' := totals, stats;
    ok := true;
    if file.Some? {
      var data := file.value;
      var cityStats;
      totals', cityStats := ScanCity(data, totals');
      if |data| == 0 {
        return false, totals', stats';
      }
      TallyJobs(data);
      PlusSplit(totals, Tally(data));
      totals' := totals'.(jobs := totals'.jobs + |data|);
      stats' := stats'[city := cityStats];
    } else {
      PlusZero(totals);
    }
  }

  /**
   * `analyze_data_quality`. It fails (a division by zero) when an existing
   * city file holds no records, and (opening the sample file) when the
   * first city's file is missing; otherwise it returns the overall
   * counters and one entry per existing city file.
   */
  method AnalyzeDataQuality(file: string -> Option<seq<Job>>) returns (r: Outcome<Analysis>)
    ensures r.Success? <==> (forall k :: 0 <= k < |Cities| ==> file(Cities[k]) != Some([])) && file(Cities[0]).Some?
    ensures r.Success? ==> r.value == Analysis(Overall(Cities, |Cities|, file), CityMap(Cities, |Cities|, file))
  {
    var ok, totals, stats := ScanCities(Cities, file);
    AllFilledIff(Cities, |Cities|, file);
    if !ok {
      return Failure;
    }
    OverallSpec(Cities, |Cities|, file);
    assert Cities[..|Cities|] == Cities;
    if totals.jobs == 0 {
      return Failure;
    }
    if file(Cities[0]).None? {
      return Failure;
    }
    r := Success(Analysis(totals, stats));
  }
}
