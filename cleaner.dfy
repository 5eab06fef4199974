/**
 * The job-data cleaner (src/data_processing/data_cleaner.py): the filter
 * stage that accepts or rejects a crawled job and counts the reason, the
 * dedup registry of seen job ids and title/company/city keys, and the
 * field normalisers of the cleaning stage.
 */
module DataCleaner {
  import opened Wrappers
  import opened Text
  import opened Order

  /** A salary field: a number, or anything else (a string, null, a list). */
  datatype Number = Num(value: real) | NotNumber

  /** `welfare` is either one string or a list of strings. */
  datatype WelfareField = WelfareText(text: string) | WelfareList(items: seq<string>)

  /**
   * A crawled job. A missing string field is "", missing lists are empty,
   * a missing salary is `Num(0.0)` (the `.get(.., 0)` default).
   */
  datatype Job = Job(
    jobId: string, title: string, company: string, city: string,
    skills: seq<string>, welfare: WelfareField,
    salaryText: string, salaryMin: Number, salaryMax: Number, salaryMonths: Option<int>,
    experience: string, education: string, description: string,
    extra: ExtraText, salaryNormalized: Option<string>)

  /** The other free-text fields `clean_job` cleans: `job_detail`, `responsibilities`, `requirements`. */
  datatype ExtraText = ExtraText(jobDetail: string, responsibilities: string, requirements: string)

  /** The cleaning configuration. Keyword lists of `None` switch their check off. */
  datatype Config = Config(
    salaryMinThreshold: real, salaryMaxThreshold: real,
    keepEmptySkills: bool, normalizeSkills: bool, normalizeSalary: bool, buildJdText: bool,
    validExperience: Option<seq<string>>, validEducation: Option<seq<string>>)

  /** `get_default_config` */
  const DefaultConfig: Config := Config(1.0, 200.0, false, true, true, true, None, None)

  /** The counters of `self.stats`. */
  datatype Stats = Stats(
    total: nat,
    removedMissingRequired: nat, removedEmptySkills: nat, removedSalaryIssues: nat,
    removedDuplicates: nat, removedInvalidExperience: nat, removedInvalidEducation: nat,
    normalizedSalary: nat, skillsDeduped: nat, skillsDictNormalized: nat, cleaned: nat)

  const ZeroStats: Stats := Stats(0, 0, 0, 0, 0, 0, 0, 0, 0, 0, 0)

  /** Why the filter stage rejected a job, in the order the checks run. */
  datatype Reason = MissingRequired | EmptySkills | SalaryIssue | Duplicate | InvalidExperience | InvalidEducation

  /** All removal counters together. */
  function Removed(s: Stats): nat
  {
    s.removedMissingRequired + s.removedEmptySkills + s.removedSalaryIssues
    + s.removedDuplicates + s.removedInvalidExperience + s.removedInvalidEducation
  }

  /** The stats after a verdict: the reason's counter goes up by one. */
  function Record(s: Stats, verdict: Option<Reason>): Stats
  {
    match verdict
    case None => s
    case Some(MissingRequired) => s.(removedMissingRequired := s.removedMissingRequired + 1)
    case Some(EmptySkills) => s.(removedEmptySkills := s.removedEmptySkills + 1)
    case Some(SalaryIssue) => s.(removedSalaryIssues := s.removedSalaryIssues + 1)
    case Some(Duplicate) => s.(removedDuplicates := s.removedDuplicates + 1)
    case Some(InvalidExperience) => s.(removedInvalidExperience := s.removedInvalidExperience + 1)
    case Some(InvalidEducation) => s.(removedInvalidEducation := s.removedInvalidEducation + 1)
  }

  /**
   * A rejected job raises exactly one removal counter by one, an accepted
   * job none, and no other counter moves.
   */
  lemma RecordCountsOnce(s: Stats, verdict: Option<Reason>)
    ensures Removed(Record(s, verdict)) == Removed(s) + (if verdict.Some? then 1 else 0)
    ensures var t := Record(s, verdict);
      t.total == s.total && t.cleaned == s.cleaned && t.normalizedSalary == s.normalizedSalary
      && t.skillsDeduped == s.skillsDeduped && t.skillsDictNormalized == s.skillsDictNormalized
  {
  }

  // ------------------------------------------------------------ filtering

  /** `_is_valid_salary` */
  predicate ValidSalary(config: Config, lo: Number, hi: Number)
  {
    lo.Num? && hi.Num?
    && lo.value > 0.0 && hi.value > 0.0
    && lo.value <= hi.value
    && !(lo.value < config.salaryMinThreshold || hi.value > config.salaryMaxThreshold)
  }

  /** Under the default configuration a salary is valid iff it is numeric and 1 <= min <= max <= 200 (K per month). */
  lemma DefaultSalaryRange(lo: Number, hi: Number)
    ensures ValidSalary(DefaultConfig, lo, hi)
        <==> lo.Num? && hi.Num? && 1.0 <= lo.value <= hi.value <= 200.0
  {
  }

  /** `_is_valid_field`: no keyword list or an empty value passes; otherwise some keyword must occur. */
  predicate ValidField(value: string, keywords: Option<seq<string>>)
  {
    keywords.None? || value == [] || ContainsAny(value, keywords.value)
  }

  /** `_WHITESPACE_RE.sub('', s)` */
  function RemoveSpaces(s: string): (r: string)
    ensures forall c :: c in r ==> !IsSpace(c)
    ensures |r| <= |s|
  {
    Filter(s, (c: char) => !IsSpace(c))
  }

  /**
   * `_generate_dedup_key` before hashing: title and company without
   * whitespace and lower-cased, the city stripped and lower-cased.
   */
  function DedupKey(job: Job): string
  {
    Lower(RemoveSpaces(job.title)) + "_" + Lower(RemoveSpaces(job.company)) + "_" + Lower(Strip(job.city))
  }

  /** The dedup key ignores whitespace inside the title and company. */
  lemma DedupKeyIgnoresSpaces(job: Job, title: string, company: string)
    requires RemoveSpaces(title) == RemoveSpaces(job.title) && RemoveSpaces(company) == RemoveSpaces(job.company)
    ensures DedupKey(job.(title := title, company := company)) == DedupKey(job)
  {
  }

  /** `_is_unique_job`'s test: neither the job id (when there is one) nor the key was seen. */
  predicate Unique(seen: set<string>, job: Job)
  {
    !(job.jobId != [] && job.jobId in seen) && DedupKey(job) !in seen
  }

  /** `_is_unique_job`'s registration of a unique job. */
  function Register(seen: set<string>, job: Job): set<string>
  {
    (if job.jobId != [] then seen + {job.jobId} else seen) + {DedupKey(job)}
  }

  /** The first failing check of `is_valid_job` before the dedup check, if any. */
  function EarlyVerdict(config: Config, job: Job): Option<Reason>
  {
    if Strip(job.title) == [] || Strip(job.company) == [] then Some(MissingRequired)
    else if !config.keepEmptySkills && job.skills == [] then Some(EmptySkills)
    else if !ValidSalary(config, job.salaryMin, job.salaryMax) then Some(SalaryIssue)
    else None
  }

  /** A verdict before the dedup check is one of the first three reasons. */
  lemma EarlyVerdictReasons(config: Config, job: Job)
    ensures EarlyVerdict(config, job) in {None, Some(MissingRequired), Some(EmptySkills), Some(SalaryIssue)}
  {
  }

  /** The checks `is_valid_job` makes before the dedup check all pass. */
  predicate BeforeDedupOk(config: Config, job: Job)
  {
    EarlyVerdict(config, job).None?
  }

  /** `is_valid_job`: the first failing check, in source order. */
  function Verdict(config: Config, seen: set<string>, job: Job): Option<Reason>
  {
    if !BeforeDedupOk(config, job) then EarlyVerdict(config, job)
    else if !Unique(seen, job) then Some(Duplicate)
    else if !ValidField(job.experience, config.validExperience) then Some(InvalidExperience)
    else if !ValidField(job.education, config.validEducation) then Some(InvalidEducation)
    else None
  }

  /** The seen set after `is_valid_job`: a job is registered once it passes the dedup check. */
  function SeenAfter(config: Config, seen: set<string>, job: Job): set<string>
  {
    if BeforeDedupOk(config, job) && Unique(seen, job) then Register(seen, job) else seen
  }

  /** The verdict of a job that got past the dedup check. */
  predicate PassedDedup(v: Option<Reason>)
  {
    v.None? || v == Some(InvalidExperience) || v == Some(InvalidEducation)
  }

  /**
   * A job is registered exactly when it got past the dedup check, so also
   * when the experience or education check then rejects it; the seen set
   * only grows.
   */
  lemma SeenAfterVerdict(config: Config, seen: set<string>, job: Job)
    ensures SeenAfter(config, seen, job) == if PassedDedup(Verdict(config, seen, job)) then Register(seen, job) else seen
    ensures seen <= SeenAfter(config, seen, job)
  {
    PassedDedupIff(config, seen, job);
    SeenAfterIs(config, seen, job);
    RegisterGrows(seen, job);
  }

  lemma SeenAfterIs(config: Config, seen: set<string>, job: Job)
    ensures SeenAfter(config, seen, job) == if BeforeDedupOk(config, job) && Unique(seen, job) then Register(seen, job) else seen
  {
  }

  lemma RegisterGrows(seen: set<string>, job: Job)
    ensures seen <= Register(seen, job)
  {
  }

  /** A job gets past the dedup check exactly when the earlier checks pass and it is unique. */
  lemma PassedDedupIff(config: Config, seen: set<string>, job: Job)
    ensures PassedDedup(Verdict(config, seen, job)) <==> BeforeDedupOk(config, job) && Unique(seen, job)
  {
    if !BeforeDedupOk(config, job) {
      EarlyVerdictReasons(config, job);
    }
  }

  /**
   * Once a job got past the dedup check, a later job with the same id or
   * the same key that passes the earlier checks is a duplicate, whatever
   * its other fields.
   */
  lemma RepeatIsDuplicate(config: Config, seen: set<string>, a: Job, b: Job)
    requires PassedDedup(Verdict(config, seen, a))
    requires (a.jobId != [] && b.jobId == a.jobId) || DedupKey(b) == DedupKey(a)
    requires BeforeDedupOk(config, b)
    ensures Verdict(config, SeenAfter(config, seen, a), b) == Some(Duplicate)
  {
    SeenAfterVerdict(config, seen, a);
  }

  // ------------------------------------------------------------ normalisers

  /** `_normalize_city`: strip, then drop one trailing 市 when more than two characters remain. */
  function NormalizeCity(city: string): (r: string)
  {
    var s := Strip(city);
    if |s| > 2 && s[|s| - 1] == '市' then s[..|s| - 1] else s
  }

  /** Only a trailing 市 of a name longer than two characters is removed; nothing else changes. */
  lemma NormalizeCitySpec(city: string)
    ensures var s := Strip(city);
      var r := NormalizeCity(city);
      (r == s || (r + "市" == s && |s| > 2))
      && (r != s <==> |s| > 2 && s[|s| - 1] == '市')
  {
  }

  /**
   * A stripped name followed by 市 loses the suffix when the name has at
   * least two characters ("北京市" becomes "北京"), and keeps it when the
   * name is one character ("沙市" stays).
   */
  lemma NormalizeCitySuffix(name: string)
    requires name != [] && !IsSpace(name[0]) && !IsSpace(name[|name| - 1])
    ensures |name| >= 2 ==> NormalizeCity(name + "市") == name
    ensures |name| == 1 ==> NormalizeCity(name + "市") == name + "市"
  {
    var s := name + "市";
    assert !IsSpace(s[|s| - 1]);
    StripStripped(s);
    assert s[..|s| - 1] == name;
  }

  /** One step of `_HTML_TAG_RE = <[^>]+>`: the index of the closing `>` of a tag at the start of `s`. */
  function TagEnd(s: string, j: nat): (r: Option<nat>)
    requires 1 <= j <= |s|
    ensures r.Some? ==> 2 <= r.value < |s| && s[r.value] == '>'
    decreases |s| - j
  {
    if j == |s| then None
    else if s[j] == '>' then (if j >= 2 then Some(j) else None)
    else TagEnd(s, j + 1)
  }

  /** `_HTML_TAG_RE.sub(rep, s)`: each `<`, then at least one non-`>` character, then `>`, becomes `rep`. */
  function SubTags(s: string, rep: string): (r: string)
    ensures '<' !in s ==> r == s
    decreases |s|
  {
    if s == [] then []
    else if s[0] == '<' && TagEnd(s, 1).Some? then rep + SubTags(s[TagEnd(s, 1).value + 1..], rep)
    else
      assert '<' !in s ==> '<' !in s[1..] by {
        assert forall c :: c in s[1..] ==> c in s;
      }
      [s[0]] + SubTags(s[1..], rep)
  }

  /** Tag removal as in `_clean_skills` and `_clean_welfare`. */
  function StripTags(s: string): (r: string)
    ensures |r| <= |s|
    ensures '<' !in s ==> r == s
  {
    StripTagsShorter(s);
    SubTags(s, [])
  }

  /** Removing tags never lengthens a string. */
  lemma {:induction false} StripTagsShorter(s: string)
    ensures |SubTags(s, [])| <= |s|
    decreases |s|
  {
    if s != [] {
      if s[0] == '<' && TagEnd(s, 1).Some? {
        StripTagsShorter(s[TagEnd(s, 1).value + 1..]);
      } else {
        StripTagsShorter(s[1..]);
      }
    }
  }

  /** The scan for `>` stops at the first one. */
  lemma {:induction false} TagEndFinds(s: string, j: nat, k: nat)
    requires 1 <= j <= k < |s| && k >= 2 && s[k] == '>'
    requires forall m :: j <= m < k ==> s[m] != '>'
    ensures TagEnd(s, j) == Some(k)
    decreases k - j
  {
    if j < k {
      TagEndFinds(s, j + 1, k);
    }
  }

  /** A leading tag `<t>`, with `t` non-empty and free of `>`, is replaced and the rest is processed. */
  lemma SubTagsTag(t: string, rest: string, rep: string)
    requires t != [] && '>' !in t
    ensures SubTags("<" + t + ">" + rest, rep) == rep + SubTags(rest, rep)
  {
    var s := "<" + t + ">" + rest;
    var k := |t| + 1;
    assert forall m :: 1 <= m < k ==> s[m] == t[m - 1];
    TagEndFinds(s, 1, k);
    assert s[k + 1..] == rest;
  }

  /** `<` with no `>` after it is kept. */
  lemma SubTagsUnclosed(rest: string, rep: string)
    requires '>' !in rest
    ensures SubTags("<" + rest, rep) == "<" + SubTags(rest, rep)
  {
    var s := "<" + rest;
    TagEndNone(s, 1);
    assert s[1..] == rest;
  }

  lemma {:induction false} TagEndNone(s: string, j: nat)
    requires 1 <= j <= |s|
    requires forall m :: j <= m < |s| ==> s[m] != '>'
    ensures TagEnd(s, j).None?
    decreases |s| - j
  {
    if j < |s| {
      TagEndNone(s, j + 1);
    }
  }

  /** `_WHITESPACE_RE.sub(' ', s)`: every run of whitespace becomes one space. */
  function CollapseSpaces(s: string): (r: string)
    decreases |s|
  {
    if s == [] then []
    else if IsSpace(s[0]) then [' '] + CollapseSpaces(TrimLeft(s[1..]))
    else [s[0]] + CollapseSpaces(s[1..])
  }

  /** The only whitespace is the plain space, and no two whitespace characters are adjacent. */
  predicate SingleSpaced(s: string)
  {
    && (forall i :: 0 <= i < |s| && IsSpace(s[i]) ==> s[i] == ' ')
    && (forall i :: 0 <= i < |s| - 1 ==> !(IsSpace(s[i]) && IsSpace(s[i + 1])))
  }

  lemma {:induction false} CollapseSpacesSpec(s: string)
    ensures SingleSpaced(CollapseSpaces(s))
    ensures CollapseSpaces(s) == [] <==> s == []
    ensures s != [] ==> (IsSpace(CollapseSpaces(s)[0]) <==> IsSpace(s[0]))
    decreases |s|
  {
    if s != [] {
      var r := CollapseSpaces(s);
      var t := if IsSpace(s[0]) then TrimLeft(s[1..]) else s[1..];
      CollapseSpacesSpec(t);
      var rest := CollapseSpaces(t);
      assert r == [r[0]] + rest;
      assert forall i :: 1 <= i < |r| ==> r[i] == rest[i - 1];
      if IsSpace(s[0]) {
        assert t == [] || !IsSpace(t[0]);
      }
    }
  }

  /** `_clean_text`: tags become spaces, whitespace runs one space, and the ends are stripped. */
  function CleanText(s: string): string
  {
    if s == [] then s else Strip(CollapseSpaces(SubTags(s, " ")))
  }

  /** Single spacing survives taking a slice. */
  lemma SingleSpacedSlice(t: string, a: nat, b: nat)
    requires SingleSpaced(t) && a <= b <= |t|
    ensures SingleSpaced(t[a..b])
  {
    var u := t[a..b];
    assert forall i :: 0 <= i < |u| ==> u[i] == t[a + i];
  }

  /** Cleaned text is single-spaced and starts and ends with a non-space. */
  lemma CleanTextSpec(s: string)
    ensures var r := CleanText(s);
      SingleSpaced(r) && (r == [] || (!IsSpace(r[0]) && !IsSpace(r[|r| - 1])))
  {
    if s != [] {
      var c := CollapseSpaces(SubTags(s, " "));
      CollapseSpacesSpec(SubTags(s, " "));
      StripSingleSpaced(c);
    }
  }

  /** Stripping a single-spaced string keeps it single-spaced. */
  lemma StripSingleSpaced(c: string)
    requires SingleSpaced(c)
    ensures SingleSpaced(Strip(c))
  {
    TrimLeftSingleSpaced(c);
    TrimRightSingleSpaced(TrimLeft(c));
  }

  lemma TrimLeftSingleSpaced(c: string)
    requires SingleSpaced(c)
    ensures SingleSpaced(TrimLeft(c))
  {
    var l := TrimLeft(c);
    SingleSpacedSlice(c, |c| - |l|, |c|);
    assert l == c[|c| - |l|..|c|];
  }

  lemma TrimRightSingleSpaced(l: string)
    requires SingleSpaced(l)
    ensures SingleSpaced(TrimRight(l))
  {
    var r := TrimRight(l);
    SingleSpacedSlice(l, 0, |r|);
    assert r == l[0..|r|];
  }

  /** The bracket classes `[(（]` and `[)）]` of `_normalize_company_name`. */
  predicate OpenBracket(c: char) { c == '(' || c == '（' }
  predicate CloseBracket(c: char) { c == ')' || c == '）' }

  /**
   * A bracket opening at `q` closes the string: 1 to 20 characters
   * without a closing bracket, then a closing bracket as the last character.
   */
  predicate TailBracketAt(s: string, q: nat)
  {
    q + 3 <= |s| <= q + 22 && OpenBracket(s[q]) && CloseBracket(s[|s| - 1])
    && forall k :: q < k < |s| - 1 ==> !CloseBracket(s[k])
  }

  /** The leftmost position from `from` on where such a trailing bracket opens. */
  function TailBracketFrom(s: string, from: nat): (r: Option<nat>)
    ensures r.Some? ==> from <= r.value && TailBracketAt(s, r.value)
    ensures r.Some? ==> forall q :: from <= q < r.value ==> !TailBracketAt(s, q)
    ensures r.None? ==> forall q :: from <= q ==> !TailBracketAt(s, q)
    decreases |s| - from
  {
    if from >= |s| then None
    else if TailBracketAt(s, from) then Some(from)
    else TailBracketFrom(s, from + 1)
  }

  /**
   * `_normalize_company_name`: whitespace runs become one space, the ends
   * are stripped, then the leftmost match of the trailing-bracket pattern
   * (with the spaces before it) is removed and the rest stripped again.
   * The string is stripped, so the pattern's `\s*$` can only match at the
   * last character, and its leading `\s*` only adds spaces the second
   * strip removes anyway.
   */
  function NormalizeCompany(company: string): string
  {
    DropTailBracket(Strip(CollapseSpaces(company)))
  }

  /** The removal step on the collapsed, stripped name. */
  function DropTailBracket(s: string): string
  {
    match TailBracketFrom(s, 0)
    case None => s
    case Some(q) => Strip(s[..q])
  }

  /** The removal keeps a single-spaced stripped string single-spaced and stripped. */
  lemma DropTailBracketClean(s: string)
    requires SingleSpaced(s) && (s == [] || (!IsSpace(s[0]) && !IsSpace(s[|s| - 1])))
    ensures var r := DropTailBracket(s);
      SingleSpaced(r) && (r == [] || (!IsSpace(r[0]) && !IsSpace(r[|r| - 1])))
  {
    var found := TailBracketFrom(s, 0);
    if found.Some? {
      SingleSpacedSlice(s, 0, found.value);
      StripSingleSpaced(s[..found.value]);
    }
  }

  /** Without a closing bracket group the removal changes nothing. */
  lemma DropTailBracketNone(s: string)
    requires forall q: nat :: !TailBracketAt(s, q)
    ensures DropTailBracket(s) == s
  {
    assert TailBracketFrom(s, 0).None?;
  }

  /** With a closing bracket group the removal leaves, stripped, what precedes the leftmost one. */
  lemma DropTailBracketLeftmost(s: string, q: nat)
    requires TailBracketAt(s, q)
    ensures exists p: nat :: p <= q && TailBracketAt(s, p) && DropTailBracket(s) == Strip(s[..p])
    ensures |DropTailBracket(s)| < |s|
  {
    var found := TailBracketFrom(s, 0);
    assert found.Some?;
    var p := found.value;
    assert p <= q && TailBracketAt(s, p) && DropTailBracket(s) == Strip(s[..p]);
  }

  /**
   * The company name comes out single-spaced and stripped, and is the
   * collapsed name itself when no bracket group of 1-20 characters closes
   * it (`DropTailBracketLeftmost` says what happens otherwise).
   */
  lemma NormalizeCompanySpec(company: string)
    ensures var r := NormalizeCompany(company);
      SingleSpaced(r) && (r == [] || (!IsSpace(r[0]) && !IsSpace(r[|r| - 1])))
    ensures var s := Strip(CollapseSpaces(company));
      (forall q: nat :: !TailBracketAt(s, q)) ==> NormalizeCompany(company) == s
  {
    var c := CollapseSpaces(company);
    var s := Strip(c);
    assert SingleSpaced(s) by {
      CollapseSpacesSpec(company);
      StripSingleSpaced(c);
    }
    DropTailBracketClean(s);
    if forall q: nat :: !TailBracketAt(s, q) {
      DropTailBracketNone(s);
    }
  }

  /** A string without whitespace is its own collapse. */
  lemma {:induction false} CollapseSpaceFree(s: string)
    requires forall i :: 0 <= i < |s| ==> !IsSpace(s[i])
    ensures CollapseSpaces(s) == s
    decreases |s|
  {
    if s != [] {
      CollapseSpaceFree(s[1..]);
    }
  }

  /**
   * A bracketed location of 1-20 characters after a name is removed, as
   * "XX科技(上海)" becomes "XX科技", provided neither part holds whitespace
   * and the name holds no opening bracket.
   */
  lemma NormalizeCompanyDropsLocation(name: string, loc: string)
    requires forall i :: 0 <= i < |name| ==> !IsSpace(name[i]) && !OpenBracket(name[i])
    requires forall i :: 0 <= i < |loc| ==> !IsSpace(loc[i]) && !CloseBracket(loc[i])
    requires 1 <= |loc| <= 20
    ensures NormalizeCompany(name + "(" + loc + ")") == name
  {
    var s := name + "(" + loc + ")";
    BracketedSpaceFree(name, loc);
    CollapseSpaceFree(s);
    StripStripped(s);
    BracketedTail(name, loc);
    assert s[..|name|] == name;
    StripStripped(name);
  }

  lemma BracketedSpaceFree(name: string, loc: string)
    requires forall i :: 0 <= i < |name| ==> !IsSpace(name[i])
    requires forall i :: 0 <= i < |loc| ==> !IsSpace(loc[i])
    ensures var s := name + "(" + loc + ")"; forall i :: 0 <= i < |s| ==> !IsSpace(s[i])
  {
    var s := name + "(" + loc + ")";
    forall i | 0 <= i < |s| ensures !IsSpace(s[i]) {
      if i < |name| { assert s[i] == name[i]; }
      else if i == |name| { assert s[i] == '('; }
      else if i < |s| - 1 { assert s[i] == loc[i - |name| - 1]; }
      else { assert s[i] == ')'; }
    }
  }

  lemma BracketedTail(name: string, loc: string)
    requires forall i :: 0 <= i < |name| ==> !OpenBracket(name[i])
    requires forall i :: 0 <= i < |loc| ==> !CloseBracket(loc[i])
    requires 1 <= |loc| <= 20
    ensures TailBracketFrom(name + "(" + loc + ")", 0) == Some(|name|)
  {
    var s := name + "(" + loc + ")";
    BracketedAt(name, loc);
    assert forall q :: 0 <= q < |name| ==> s[q] == name[q];
    TailBracketFromFirst(s, |name|);
  }

  /** The location's bracket is a trailing bracket. */
  lemma BracketedAt(name: string, loc: string)
    requires forall i :: 0 <= i < |loc| ==> !CloseBracket(loc[i])
    requires 1 <= |loc| <= 20
    ensures TailBracketAt(name + "(" + loc + ")", |name|)
  {
    var s := name + "(" + loc + ")";
    assert s[|name|] == '(' && s[|s| - 1] == ')';
    forall k | |name| < k < |s| - 1 ensures !CloseBracket(s[k]) {
      assert s[k] == loc[k - |name| - 1];
    }
  }

  /** A trailing bracket with no opening bracket before it is the one the search finds. */
  lemma TailBracketFromFirst(s: string, q: nat)
    requires TailBracketAt(s, q)
    requires forall p :: 0 <= p < q ==> !OpenBracket(s[p])
    ensures TailBracketFrom(s, 0) == Some(q)
  {
    var r := TailBracketFrom(s, 0);
    assert r.Some?;
    assert !(r.value < q);
    assert !(q < r.value);
  }

  /** `"，。！？；：""【】\n\r\t"`: the character class of the rejected-skill pattern, as the adjacent literals concatenate. */
  const BannedChars: set<char> := {'，', '。', '！', '？', '；', '：', '"', '【', '】', '\n', '\r', '\t'}

  /** `INVALID_SKILL_TOKENS` */
  const InvalidSkillTokens: set<string> := {
    "熟悉", "了解", "掌握", "精通", "具备", "能力", "工作",
    "项目", "经验", "开发", "设计", "测试", "管理", "分析",
    "优化", "维护", "以上", "相关", "良好", "较强", "熟练",
    "技术", "系统", "平台", "框架", "工具", "语言"}

  /**
   * What `_clean_skills` filters and normalises with: the banned
   * characters, the generic words, the alias map (lower-cased name to
   * standard name), and whether aliases apply.
   */
  datatype SkillRules = SkillRules(banned: set<char>, invalid: set<string>, alias: map<string, string>, normalize: bool)

  predicate HasBanned(banned: set<char>, s: string)
  {
    exists i :: 0 <= i < |s| && s[i] in banned
  }

  /** A skill survives the filters: non-empty, at most 30 characters, no banned character, not a generic word. */
  predicate PassesFilters(rules: SkillRules, s: string)
  {
    s != [] && |s| <= 30 && !HasBanned(rules.banned, s) && s !in rules.invalid
  }

  /** The alias lookup replaces a skill when its lower-cased form maps to a different, non-empty name. */
  predicate Replaces(rules: SkillRules, s: string)
  {
    rules.normalize && Lower(s) in rules.alias && rules.alias[Lower(s)] != [] && rules.alias[Lower(s)] != s
  }

  /** One raw skill after tag removal, stripping, the filters and alias normalisation. */
  function Candidate(rules: SkillRules, raw: string): (r: Option<string>)
    ensures r.Some? ==> r.value != []
  {
    var s := Strip(StripTags(raw));
    if !PassesFilters(rules, s) then None
    else if Replaces(rules, s) then Some(rules.alias[Lower(s)])
    else Some(s)
  }

  /** Whether cleaning `raw` counted an alias replacement. */
  predicate Normalized(rules: SkillRules, raw: string)
  {
    var s := Strip(StripTags(raw));
    PassesFilters(rules, s) && Replaces(rules, s)
  }

  /** `Candidate` under fixed rules, as a function of the raw skill. */
  function CandidateOf(rules: SkillRules): string -> Option<string>
  {
    (raw: string) => Candidate(rules, raw)
  }

  /** `Normalized` under fixed rules, as a predicate on the raw skill. */
  function NormalizedOf(rules: SkillRules): string -> bool
  {
    (raw: string) => Normalized(rules, raw)
  }

  /** The candidates of a skill list, in order. */
  function Candidates(rules: SkillRules, raws: seq<string>): (r: seq<string>)
    ensures |r| <= |raws|
  {
    FilterMap(raws, CandidateOf(rules))
  }

  /** `_clean_skills`: the candidates, deduplicated case-insensitively keeping the first. */
  function CleanSkills(rules: SkillRules, raws: seq<string>): seq<string>
  {
    DedupBy(Candidates(rules, raws), Lower)
  }

  /** The count returned by `_clean_skills`: replacements, including those of skills later dropped as duplicates. */
  function NormalizedCount(rules: SkillRules, raws: seq<string>): nat
  {
    Count(raws, NormalizedOf(rules))
  }

  /** A candidate passed the filters, or is the alias name a filtered skill was mapped to. */
  lemma CandidateSound(rules: SkillRules, raw: string)
    requires Candidate(rules, raw).Some?
    ensures var c := Candidate(rules, raw).value;
      PassesFilters(rules, c) || c in rules.alias.Values
    ensures Normalized(rules, raw) <==> Candidate(rules, raw).value != Strip(StripTags(raw))
  {
    var t := Strip(StripTags(raw));
    if Replaces(rules, t) {
      assert rules.alias[Lower(t)] in rules.alias.Values;
    }
  }

  /**
   * The cleaned list is no longer than the input, has no two entries equal
   * up to case, loses no accepted skill up to case, holds only accepted
   * skills, and keeps the first of each case-insensitive key.
   */
  lemma CleanSkillsSpec(rules: SkillRules, raws: seq<string>)
    ensures var r := CleanSkills(rules, raws);
      var cs := Candidates(rules, raws);
      && |r| <= |raws|
      && NoDup(Keys(r, Lower))
      && (forall i :: 0 <= i < |raws| && Candidate(rules, raws[i]).Some?
            ==> Lower(Candidate(rules, raws[i]).value) in Keys(r, Lower))
      && (forall s :: s in r ==> exists i :: 0 <= i < |raws| && Candidate(rules, raws[i]) == Some(s))
      && (forall s :: s in r ==> exists i :: FirstOfKey(cs, i, Lower) && cs[i] == s)
  {
    DedupByFilterMap(raws, CandidateOf(rules), Lower);
  }

  /** Every entry of the cleaned list passed the filters, or is an alias name. */
  lemma CleanSkillsFiltered(rules: SkillRules, raws: seq<string>)
    ensures forall s :: s in CleanSkills(rules, raws) ==> s != [] && (PassesFilters(rules, s) || s in rules.alias.Values)
  {
    CleanSkillsSpec(rules, raws);
    forall s | s in CleanSkills(rules, raws)
      ensures s != [] && (PassesFilters(rules, s) || s in rules.alias.Values)
    {
      var i :| 0 <= i < |raws| && Candidate(rules, raws[i]) == Some(s);
      CandidateSound(rules, raws[i]);
    }
  }

  /** The source's rules reject a generic word and a phrase holding a full-width comma. */
  lemma SourceRulesReject(alias: map<string, string>, normalize: bool)
    ensures Candidate(SkillRules(BannedChars, InvalidSkillTokens, alias, normalize), "熟悉") == None
    ensures Candidate(SkillRules(BannedChars, InvalidSkillTokens, alias, normalize), "Java，Go") == None
  {
    RejectsGeneric(alias, normalize);
    RejectsComma(alias, normalize);
  }

  lemma RejectsGeneric(alias: map<string, string>, normalize: bool)
    ensures Candidate(SkillRules(BannedChars, InvalidSkillTokens, alias, normalize), "熟悉") == None
  {
    var a := "熟悉";
    assert StripTags(a) == a;
    assert !IsSpace(a[0]) && !IsSpace(a[|a| - 1]);
    StripStripped(a);
  }

  lemma RejectsComma(alias: map<string, string>, normalize: bool)
    ensures Candidate(SkillRules(BannedChars, InvalidSkillTokens, alias, normalize), "Java，Go") == None
  {
    CommaStripped();
    BannedRejected(SkillRules(BannedChars, InvalidSkillTokens, alias, normalize), "Java，Go", 4);
  }

  lemma CommaStripped()
    ensures Strip(StripTags("Java，Go")) == "Java，Go"
  {
    var b := "Java，Go";
    assert '<' !in b by {
      assert forall i :: 0 <= i < |b| ==> b[i] != '<';
    }
    assert !IsSpace(b[0]) && !IsSpace(b[|b| - 1]);
    StripStripped(b);
  }

  /** A stripped skill holding a banned character has no candidate. */
  lemma BannedRejected(rules: SkillRules, s: string, i: nat)
    requires i < |s| && s[i] in rules.banned && Strip(StripTags(s)) == s
    ensures Candidate(rules, s) == None
  {
    assert !PassesFilters(rules, s);
  }

  /** How many skills cleaning removed. */
  function SkillsDropped(rules: SkillRules, raws: seq<string>): nat
  {
    |raws| - |CleanSkills(rules, raws)|
  }

  /** The counters after step 6 of `clean_job`: the skills it dropped and the aliases it applied are added. */
  function SkillsCounted(s: Stats, rules: SkillRules, raws: seq<string>): Stats
  {
    s.(skillsDeduped := s.skillsDeduped + SkillsDropped(rules, raws),
       skillsDictNormalized := s.skillsDictNormalized + NormalizedCount(rules, raws))
  }

  /** `_clean_welfare`'s list: a non-empty string is one item. */
  function WelfareItems(w: WelfareField): seq<string>
  {
    match w
    case WelfareText(t) => if t == [] then [] else [t]
    case WelfareList(items) => items
  }

  /** One welfare item without tags and stripped, unless nothing is left. */
  function WelfareCandidate(item: string): (r: Option<string>)
    ensures r.Some? ==> r.value != []
  {
    var s := Strip(StripTags(item));
    if s == [] then None else Some(s)
  }

  /** `_clean_welfare`: the non-empty items, deduplicated case-insensitively keeping the first. */
  function CleanWelfare(w: WelfareField): seq<string>
  {
    DedupBy(FilterMap(WelfareItems(w), WelfareCandidate), Lower)
  }

  /**
   * The cleaned welfare list is never longer, has no empty item and no two
   * items equal up to case, keeps the first item of each case-insensitive
   * key, and loses no key.
   */
  lemma CleanWelfareSpec(w: WelfareField)
    ensures var r := CleanWelfare(w);
      var items := WelfareItems(w);
      var cs := FilterMap(items, WelfareCandidate);
      && |r| <= |items|
      && (forall s :: s in r ==> s != [])
      && NoDup(Keys(r, Lower))
      && (forall i :: 0 <= i < |items| && WelfareCandidate(items[i]).Some?
            ==> Lower(WelfareCandidate(items[i]).value) in Keys(r, Lower))
      && (forall s :: s in r ==> exists i :: FirstOfKey(cs, i, Lower) && cs[i] == s)
  {
    DedupByFilterMap(WelfareItems(w), WelfareCandidate, Lower);
  }

  /** A single string is cleaned as a one-item list. */
  lemma WelfareTextIsOneItem(t: string)
    requires t != []
    ensures CleanWelfare(WelfareText(t)) == CleanWelfare(WelfareList([t]))
  {
  }

  // ----------------------------------------------------------------- salary

  predicate IsDigit(c: char)
  {
    '0' <= c <= '9'
  }

  function DigitValue(c: char): nat
    requires IsDigit(c)
  {
    c as nat - '0' as nat
  }

  /** The first index from `i` on that is not whitespace. */
  function SkipSpaces(s: string, i: nat): (r: nat)
    requires i <= |s|
    ensures i <= r <= |s|
    ensures r < |s| ==> !IsSpace(s[r])
    decreases |s| - i
  {
    if i < |s| && IsSpace(s[i]) then SkipSpaces(s, i + 1) else i
  }

  /** `[·・•]\s*(\d{1,2})\s*薪` anchored at `i`. */
  function MonthsAt(s: string, i: nat): (r: Option<nat>)
    requires i < |s|
    ensures r.Some? ==> r.value <= 99
  {
    if s[i] !in {'·', '・', '•'} then None
    else
      var j := SkipSpaces(s, i + 1);
      if j < |s| && IsDigit(s[j]) then
        if j + 1 < |s| && IsDigit(s[j + 1]) then
          var k := SkipSpaces(s, j + 2);
          if k < |s| && s[k] == '薪' then Some(10 * DigitValue(s[j]) + DigitValue(s[j + 1])) else None
        else
          var k := SkipSpaces(s, j + 1);
          if k < |s| && s[k] == '薪' then Some(DigitValue(s[j])) else None
      else None
  }

  /** `_SALARY_MONTHS_RE.search(s)` from index `i`: the leftmost match. */
  function SalaryMonths(s: string, i: nat): (r: Option<nat>)
    requires i <= |s|
    ensures r.Some? ==> r.value <= 99
    ensures r.None? ==> forall k :: i <= k < |s| ==> MonthsAt(s, k).None?
    decreases |s| - i
  {
    if i == |s| then None
    else if MonthsAt(s, i).Some? then MonthsAt(s, i)
    else SalaryMonths(s, i + 1)
  }

  /** A month count found is the one some position from `i` on matches. */
  lemma {:induction false} SalaryMonthsFound(s: string, i: nat)
    requires i <= |s|
    ensures SalaryMonths(s, i).Some? ==> exists k :: i <= k < |s| && MonthsAt(s, k) == SalaryMonths(s, i)
    decreases |s| - i
  {
    if i < |s| && MonthsAt(s, i).None? {
      SalaryMonthsFound(s, i + 1);
    }
  }

  /** The search passes over positions where no match starts. */
  lemma {:induction false} SalaryMonthsSkip(s: string, i: nat, k: nat)
    requires i <= k <= |s|
    requires forall m :: i <= m < k ==> MonthsAt(s, m).None?
    ensures SalaryMonths(s, i) == SalaryMonths(s, k)
    decreases k - i
  {
    if i < k {
      SalaryMonthsStep(s, i);
      SalaryMonthsSkip(s, i + 1, k);
    }
  }

  lemma SalaryMonthsStep(s: string, i: nat)
    requires i < |s| && MonthsAt(s, i).None?
    ensures SalaryMonths(s, i) == SalaryMonths(s, i + 1)
  {
  }

  lemma DigitNotSpace(c: char)
    requires IsDigit(c)
    ensures !IsSpace(c)
  {
  }

  /** A dot, two digits and 薪 at `i` give the two-digit month count ("·16薪" is 16). */
  lemma MonthsAtTwoDigits(s: string, i: nat)
    requires i + 3 < |s| && s[i] == '·' && IsDigit(s[i + 1]) && IsDigit(s[i + 2]) && s[i + 3] == '薪'
    ensures MonthsAt(s, i) == Some(10 * DigitValue(s[i + 1]) + DigitValue(s[i + 2]))
  {
    DigitNotSpace(s[i + 1]);
    assert !IsSpace(s[i + 3]);
  }

  /** Three digits after the dot are no month count: `\d{1,2}` must be followed by 薪. */
  lemma MonthsAtThreeDigits(s: string, i: nat)
    requires i + 3 < |s| && IsDigit(s[i + 1]) && IsDigit(s[i + 2]) && IsDigit(s[i + 3])
    ensures MonthsAt(s, i).None?
  {
    DigitNotSpace(s[i + 1]);
    DigitNotSpace(s[i + 3]);
  }

  /** The first position where a mark matches decides the month count. */
  lemma SalaryMonthsFirst(s: string, i: nat)
    requires i < |s| && MonthsAt(s, i).Some?
    requires forall m :: 0 <= m < i ==> MonthsAt(s, m).None?
    ensures SalaryMonths(s, 0) == MonthsAt(s, i)
  {
    SalaryMonthsSkip(s, 0, i);
  }

  /** The unit conversions of `_process_salary`, in priority order. */
  datatype Conversion = NoConversion | HourlyYuan | DailyYuan | DailyK

  function ConversionOf(config: Config, job: Job): Conversion
    requires job.salaryMin.Num? && job.salaryMax.Num?
  {
    var lo := job.salaryMin.value;
    var hi := job.salaryMax.value;
    if !config.normalizeSalary then NoConversion
    else if Contains(job.salaryText, "元/时") && lo > 1.0 then HourlyYuan
    else if Contains(job.salaryText, "元/天") && lo > 1.0 then DailyYuan
    else if 0.0 < hi < 1.0 && Contains(job.title, "实习") then DailyK
    else NoConversion
  }

  /** What the salary step adds to `normalized_salary`: one when it converts a unit. */
  function Converted(config: Config, job: Job): (n: nat)
    requires job.salaryMin.Num? && job.salaryMax.Num?
    ensures n == 1 <==> ConversionOf(config, job) != NoConversion
    ensures n <= 1
  {
    if ConversionOf(config, job) != NoConversion then 1 else 0
  }

  /** The counters after the salary step: a unit conversion is added to `normalized_salary`. */
  function SalaryCounted(s: Stats, config: Config, job: Job): Stats
    requires job.salaryMin.Num? && job.salaryMax.Num?
  {
    s.(normalizedSalary := s.normalizedSalary + Converted(config, job))
  }

  /** The monthly factor of each conversion: 8 h x 22 days / 1000, 22 days / 1000, 22 days. */
  function Factor(c: Conversion): real
  {
    match c
    case NoConversion => 1.0
    case HourlyYuan => 8.0 * 22.0 / 1000.0
    case DailyYuan => 22.0 / 1000.0
    case DailyK => 22.0
  }

  function Tag(c: Conversion): Option<string>
  {
    match c
    case NoConversion => None
    case HourlyYuan => Some("hourly_yuan_to_monthly_k")
    case DailyYuan => Some("daily_yuan_to_monthly_k")
    case DailyK => Some("daily_k_to_monthly_k")
  }

  /** `_process_salary` without the rounding to two (one) decimals. */
  function ProcessSalary(config: Config, job: Job): (r: Job)
    requires job.salaryMin.Num? && job.salaryMax.Num?
  {
    var months :=
      if job.salaryText != [] && job.salaryMonths.None? && SalaryMonths(job.salaryText, 0).Some?
      then Some(SalaryMonths(job.salaryText, 0).value as int) else job.salaryMonths;
    var c := ConversionOf(config, job);
    var j := job.(salaryMonths := months);
    if c == NoConversion then j
    else j.(salaryMin := Num(job.salaryMin.value * Factor(c)),
            salaryMax := Num(job.salaryMax.value * Factor(c)),
            salaryNormalized := Tag(c))
  }

  /** The month count is only filled in, never overwritten, and only from a `·N薪` mark. */
  lemma ProcessSalaryMonths(config: Config, job: Job)
    requires job.salaryMin.Num? && job.salaryMax.Num?
    ensures job.salaryMonths.Some? ==> ProcessSalary(config, job).salaryMonths == job.salaryMonths
    ensures ProcessSalary(config, job).salaryMonths != job.salaryMonths ==>
      && ProcessSalary(config, job).salaryMonths.Some?
      && SalaryMonths(job.salaryText, 0) == Some(ProcessSalary(config, job).salaryMonths.value as nat)
  {
  }

  /**
   * A conversion scales both bounds by one positive factor, so their
   * order is kept; hourly beats daily beats the intern rule.
   */
  lemma ProcessSalarySpec(config: Config, job: Job)
    requires job.salaryMin.Num? && job.salaryMax.Num?
    ensures var r := ProcessSalary(config, job);
      && r.salaryMin.Num? && r.salaryMax.Num?
      && (job.salaryMin.value <= job.salaryMax.value ==> r.salaryMin.value <= r.salaryMax.value)
      && (r.salaryNormalized != job.salaryNormalized ==> ConversionOf(config, job) != NoConversion)
      && ((Contains(job.salaryText, "元/时") && job.salaryMin.value > 1.0 && config.normalizeSalary)
            ==> r.salaryNormalized == Some("hourly_yuan_to_monthly_k"))
  {
    var c := ConversionOf(config, job);
    if c != NoConversion {
      assert Factor(c) > 0.0;
      if job.salaryMin.value <= job.salaryMax.value {
        MulMonotone(job.salaryMin.value, job.salaryMax.value, Factor(c));
      }
    }
  }

  /** The salary step touches only the four salary fields. */
  lemma ProcessSalaryFrame(config: Config, job: Job)
    requires job.salaryMin.Num? && job.salaryMax.Num?
    ensures var r := ProcessSalary(config, job);
      r.(salaryMonths := job.salaryMonths, salaryMin := job.salaryMin, salaryMax := job.salaryMax,
         salaryNormalized := job.salaryNormalized) == job
  {
  }

  lemma MulMonotone(a: real, b: real, f: real)
    requires a <= b && f > 0.0
    ensures a * f <= b * f
  {
  }

  /** The fields `clean_job` normalises before the salary step. */
  function CleanedFields(rules: SkillRules, job: Job): Job
  {
    WithCleanedText(job, CleanSkills(rules, job.skills))
  }

  /** The company, city, title, text and welfare steps, with the skills already cleaned. */
  function WithCleanedText(job: Job, skills: seq<string>): Job
  {
    job.(company := NormalizeCompany(job.company), city := NormalizeCity(job.city), title := CleanText(job.title),
         description := CleanText(job.description), extra := CleanExtra(job.extra),
         skills := skills, welfare := WelfareList(CleanWelfare(job.welfare)))
  }

  /** `_clean_text` on each of the other text fields. */
  function CleanExtra(e: ExtraText): ExtraText
  {
    ExtraText(CleanText(e.jobDetail), CleanText(e.responsibilities), CleanText(e.requirements))
  }

  // ----------------------------------------------------------------- jd text

  /** The requirement clauses. */
  function Requirements(job: Job): seq<string>
  {
    (if job.experience != [] then ["经验：" + job.experience] else [])
    + (if job.education != [] then ["学历：" + job.education] else [])
  }

  /** Whether the welfare field is truthy. */
  predicate HasWelfare(w: WelfareField)
  {
    match w
    case WelfareText(t) => t != []
    case WelfareList(items) => items != []
  }

  /** The welfare field as a list: a string is wrapped, not split. */
  function WelfareSeq(w: WelfareField): seq<string>
  {
    match w
    case WelfareText(t) => [t]
    case WelfareList(items) => items
  }

  /** Whether section `k` of the JD text (0 title, 1 salary, 2 requirements, 3 skills, 4 welfare, 5 description) is emitted. */
  predicate Present(job: Job, k: nat)
  {
    if k == 0 then job.title != []
    else if k == 1 then job.salaryText != []
    else if k == 2 then Requirements(job) != []
    else if k == 3 then job.skills != []
    else if k == 4 then HasWelfare(job.welfare)
    else if k == 5 then job.description != []
    else false
  }

  /** The label of section `k`. */
  function Label(k: nat): string
  {
    if k == 0 then "岗位：" else if k == 1 then "薪资：" else if k == 2 then "要求："
    else if k == 3 then "技能：" else if k == 4 then "福利：" else "描述："
  }

  /** The content of section `k`: the welfare cut to five items, the description to 500 characters. */
  function Body(job: Job, k: nat): string
  {
    if k == 0 then job.title
    else if k == 1 then job.salaryText
    else if k == 2 then Join(Requirements(job), "，")
    else if k == 3 then Join(job.skills, "、")
    else if k == 4 then Join(Take(WelfareSeq(job.welfare), 5), "、")
    else Take(job.description, 500)
  }

  /** The sections from `k` on that are emitted, by number. */
  function SectionsFrom(job: Job, k: nat): seq<nat>
    requires k <= 6
  {
    Indices((m: nat) => Present(job, m), k, 6)
  }

  /** The emitted sections, by number. */
  function JdSections(job: Job): seq<nat>
  {
    SectionsFrom(job, 0)
  }

  /** The emitted sections are strictly increasing, each one present, and every present one is emitted. */
  lemma SectionsSpec(job: Job)
    ensures var s := JdSections(job);
      && |s| <= 6
      && (forall i, j :: 0 <= i < j < |s| ==> s[i] < s[j])
      && (forall m :: 0 <= m < 6 ==> (m in s <==> Present(job, m)))
  {
    var p := (m: nat) => Present(job, m);
    IndicesSound(p, 0, 6);
    IndicesIncreasing(p, 0, 6);
    IndicesComplete(p, 0, 6);
  }

  /** The text's lines: each emitted section behind its label. */
  function JdParts(job: Job): (r: seq<string>)
    ensures |r| == |JdSections(job)|
    ensures forall i :: 0 <= i < |r| ==> r[i] == Label(JdSections(job)[i]) + Body(job, JdSections(job)[i])
  {
    var secs := JdSections(job);
    seq(|secs|, i requires 0 <= i < |secs| => Label(secs[i]) + Body(job, secs[i]))
  }

  /** `_build_jd_text` */
  function BuildJdText(job: Job): string
  {
    Join(JdParts(job), "\n")
  }

  /**
   * Sections come in the order title, salary, requirements, skills,
   * welfare, description, each at most once and exactly when its field has
   * content; the description is cut to 500 characters and the welfare to
   * five items.
   */
  lemma JdSectionsSpec(job: Job)
    ensures var s := JdSections(job);
      && |s| <= 6
      && (forall i, j :: 0 <= i < j < |s| ==> s[i] < s[j])
      && (forall m :: 0 <= m < 6 ==> (m in s <==> Present(job, m)))
      && |Body(job, 5)| <= 500 && Body(job, 5) == job.description[..|Body(job, 5)|]
      && Body(job, 4) == Join(Take(WelfareSeq(job.welfare), 5), "、") && |Take(WelfareSeq(job.welfare), 5)| <= 5
  {
    SectionsSpec(job);
  }

  /** Splitting the text at newlines gives back the lines, when no field holds a newline. */
  lemma JdTextSplits(job: Job)
    requires forall p :: p in JdParts(job) ==> '\n' !in p
    requires JdParts(job) != []
    ensures Split(BuildJdText(job), '\n') == JdParts(job)
  {
    SplitJoin(JdParts(job), '\n');
  }

  // ------------------------------------------------------------------ cleaner

  /**
   * A left-to-right filter that threads a state: `keep(s, x)` says whether
   * `x` is kept in state `s`, and `next(s, x)` is the state after `x`,
   * whether or not it was kept.
   */
  function Scan<S, T>(keep: (S, T) -> bool, next: (S, T) -> S, s: S, xs: seq<T>): (r: seq<T>)
    ensures |r| <= |xs|
    decreases |xs|
  {
    if xs == [] then []
    else
      var rest := Scan(keep, next, next(s, xs[0]), xs[1..]);
      if keep(s, xs[0]) then [xs[0]] + rest else rest
  }

  /** What holds of every element the filter keeps, in whatever state, holds of every element of its result. */
  lemma {:induction false} ScanKeepsOnly<S, T>(keep: (S, T) -> bool, next: (S, T) -> S, s: S, xs: seq<T>, p: T -> bool)
    requires forall s', x :: keep(s', x) ==> p(x)
    ensures forall k :: 0 <= k < |Scan(keep, next, s, xs)| ==>
      Scan(keep, next, s, xs)[k] in xs && p(Scan(keep, next, s, xs)[k])
    decreases |xs|
  {
    if xs != [] {
      var rest := Scan(keep, next, next(s, xs[0]), xs[1..]);
      ScanKeepsOnly(keep, next, next(s, xs[0]), xs[1..], p);
      forall k | 0 <= k < |rest| ensures rest[k] in xs {
        assert rest[k] in xs[1..];
      }
    }
  }

  /**
   * When the state is a set of keys that only grows, and an element is
   * kept only if its key is not in the set and is in it afterwards, the
   * keys of the kept elements are new and pairwise distinct.
   */
  lemma {:induction false} ScanDistinctKeys<K, T>(keep: (set<K>, T) -> bool, next: (set<K>, T) -> set<K>,
                                                  key: T -> K, s: set<K>, xs: seq<T>)
    requires forall s', x :: s' <= next(s', x)
    requires forall s', x :: keep(s', x) ==> key(x) !in s' && key(x) in next(s', x)
    ensures forall k :: 0 <= k < |Scan(keep, next, s, xs)| ==> key(Scan(keep, next, s, xs)[k]) !in s
    ensures forall a, b :: 0 <= a < b < |Scan(keep, next, s, xs)| ==>
      key(Scan(keep, next, s, xs)[a]) != key(Scan(keep, next, s, xs)[b])
    decreases |xs|
  {
    if xs != [] {
      var s' := next(s, xs[0]);
      var rest := Scan(keep, next, s', xs[1..]);
      ScanDistinctKeys(keep, next, key, s', xs[1..]);
      if keep(s, xs[0]) {
        var r := [xs[0]] + rest;
        forall a, b | 0 <= a < b < |r| ensures key(r[a]) != key(r[b]) {
          assert r[b] == rest[b - 1];
          if a > 0 {
            assert r[a] == rest[a - 1];
          }
        }
      }
    }
  }

  /**
   * The input jobs `clean_dataset` keeps, before cleaning, when filtering
   * starts from the seen set `seen`: a job is kept when its verdict is
   * none, and every job updates the seen set as `is_valid_job` does.
   */
  function Accepted(config: Config, seen: set<string>, jobs: seq<Job>): seq<Job>
  {
    Scan((s, j) => Verdict(config, s, j).None?, (s, j) => SeenAfter(config, s, j), seen, jobs)
  }

  /** `ys` corresponds element by element to `xs` under `rel`. */
  predicate Pointwise<A, B>(xs: seq<A>, ys: seq<B>, rel: (A, B) -> bool)
  {
    |xs| == |ys| && forall k :: 0 <= k < |xs| ==> rel(xs[k], ys[k])
  }

  lemma PointwiseAppend<A, B>(xs: seq<A>, ys: seq<B>, rel: (A, B) -> bool, x: A, y: B)
    requires Pointwise(xs, ys, rel) && rel(x, y)
    ensures Pointwise(xs + [x], ys + [y], rel)
  {
    forall k | 0 <= k < |xs| + 1 ensures rel((xs + [x])[k], (ys + [y])[k]) {
      if k < |xs| {
        assert (xs + [x])[k] == xs[k] && (ys + [y])[k] == ys[k];
      }
    }
  }

  /** A record `clean_job` returns: the cleaned job and, when the config asks for it, its `jd_text`. */
  datatype CleanedJob = CleanedJob(job: Job, jdText: Option<string>)

  /**
   * `c` is what `clean_job` makes of `job`, a job that passed the checks
   * before the dedup check: its cleaned fields, and the JD text built from
   * them exactly when `build_jd_text` is set.
   */
  predicate CleanedFrom(config: Config, rules: SkillRules, job: Job, c: CleanedJob)
  {
    && BeforeDedupOk(config, job)
    && c.job == Cleaned(config, rules, job)
    && c.jdText == if config.buildJdText then Some(BuildJdText(c.job)) else None
  }

  /**
   * The loop invariant of `clean_dataset`: the jobs kept so far, followed
   * by what the filter keeps of the rest from the current seen set, are
   * what it keeps of all the jobs; each kept job has its cleaned form.
   */
  ghost predicate Filtering(config: Config, rules: SkillRules, original: set<string>, jobs: seq<Job>, i: nat,
                            seen: set<string>, kept: seq<Job>, cleaned: seq<CleanedJob>)
    requires i <= |jobs|
  {
    && kept + Accepted(config, seen, jobs[i..]) == Accepted(config, original, jobs)
    && Pointwise(kept, cleaned, (j, c) => CleanedFrom(config, rules, j, c))
  }

  /** Filtering job `i` carries the invariant over it. */
  lemma FilteringStep(config: Config, rules: SkillRules, original: set<string>, jobs: seq<Job>, i: nat,
                      seen: set<string>, kept: seq<Job>, cleaned: seq<CleanedJob>, one: Option<CleanedJob>)
    requires i < |jobs| && Filtering(config, rules, original, jobs, i, seen, kept, cleaned)
    requires one.Some? <==> Verdict(config, seen, jobs[i]).None?
    requires one.Some? ==> CleanedFrom(config, rules, jobs[i], one.value)
    ensures Filtering(config, rules, original, jobs, i + 1, SeenAfter(config, seen, jobs[i]),
      kept + (if one.Some? then [jobs[i]] else []), cleaned + (if one.Some? then [one.value] else []))
  {
    var head := if one.Some? then [jobs[i]] else [];
    AcceptedStep(config, seen, jobs[i..]);
    assert jobs[i..][0] == jobs[i] && jobs[i..][1..] == jobs[i + 1..];
    AppendAssoc(kept, head, Accepted(config, SeenAfter(config, seen, jobs[i]), jobs[i + 1..]));
    if one.Some? {
      PointwiseAppend(kept, cleaned, (j, c) => CleanedFrom(config, rules, j, c), jobs[i], one.value);
    } else {
      assert cleaned + [] == cleaned && kept + [] == kept;
    }
  }

  /** After the last job, the kept jobs are all the filter keeps. */
  lemma FilteringDone(config: Config, rules: SkillRules, original: set<string>, jobs: seq<Job>,
                      seen: set<string>, kept: seq<Job>, cleaned: seq<CleanedJob>)
    requires Filtering(config, rules, original, jobs, |jobs|, seen, kept, cleaned)
    ensures Pointwise(Accepted(config, original, jobs), cleaned, (j, c) => CleanedFrom(config, rules, j, c))
  {
    assert jobs[|jobs|..] == [];
    assert kept + [] == kept;
  }

  /** The first job's verdict decides whether it heads the kept jobs; the rest are filtered from the seen set after it. */
  lemma AcceptedStep(config: Config, seen: set<string>, jobs: seq<Job>)
    requires jobs != []
    ensures Accepted(config, seen, jobs)
      == (if Verdict(config, seen, jobs[0]).None? then [jobs[0]] else [])
         + Accepted(config, SeenAfter(config, seen, jobs[0]), jobs[1..])
  {
  }

  /** A job with no verdict passed the early checks, was new, and is registered afterwards. */
  lemma AcceptedHead(config: Config, seen: set<string>, job: Job)
    requires Verdict(config, seen, job).None?
    ensures BeforeDedupOk(config, job)
    ensures DedupKey(job) !in seen && DedupKey(job) in SeenAfter(config, seen, job)
  {
  }

  /**
   * Every job `clean_dataset` keeps is an input job that passed the checks
   * before the dedup check, and no two of them share a dedup key.
   */
  lemma AcceptedSpec(config: Config, jobs: seq<Job>)
    ensures forall k :: 0 <= k < |Accepted(config, {}, jobs)| ==>
      Accepted(config, {}, jobs)[k] in jobs && BeforeDedupOk(config, Accepted(config, {}, jobs)[k])
    ensures forall a, b :: 0 <= a < b < |Accepted(config, {}, jobs)| ==>
      DedupKey(Accepted(config, {}, jobs)[a]) != DedupKey(Accepted(config, {}, jobs)[b])
  {
    var keep := (s, j) => Verdict(config, s, j).None?;
    var next := (s, j) => SeenAfter(config, s, j);
    forall s', x | keep(s', x) ensures BeforeDedupOk(config, x) && DedupKey(x) !in s' && DedupKey(x) in next(s', x) {
      AcceptedHead(config, s', x);
    }
    forall s', x ensures s' <= next(s', x) {
      SeenAfterVerdict(config, s', x);
    }
    ScanKeepsOnly(keep, next, {}, jobs, j => BeforeDedupOk(config, j));
    ScanDistinctKeys(keep, next, DedupKey, {}, jobs);
  }

  /** `clean_job` on a job that passed the salary check: the field normalisers, then the salary step. */
  function Cleaned(config: Config, rules: SkillRules, job: Job): Job
    requires job.salaryMin.Num? && job.salaryMax.Num?
  {
    ProcessSalary(config, CleanedFields(rules, job))
  }

  /** `JobDataCleaner`: its configuration, alias map, counters and seen set. */
  class JobCleaner {
    const config: Config
    const aliasMap: map<string, string>
    /** The rules `_clean_skills` applies: the module's banned characters and generic words, this cleaner's aliases. */
    const skillRules: SkillRules
    var stats: Stats
    var seenJobs: set<string>

    constructor(config: Config, aliasMap: map<string, string>)
      ensures this.config == config && this.aliasMap == aliasMap
      ensures skillRules == SkillRules(BannedChars, InvalidSkillTokens, aliasMap, config.normalizeSkills)
      ensures stats == ZeroStats && seenJobs == {}
    {
      this.config := config;
      this.aliasMap := aliasMap;
      skillRules := SkillRules(BannedChars, InvalidSkillTokens, aliasMap, config.normalizeSkills);
      stats := ZeroStats;
      seenJobs := {};
    }

    /** `_reset_state` */
    method ResetState()
      modifies this
      ensures stats == ZeroStats && seenJobs == {}
    {
      stats := ZeroStats;
      seenJobs := {};
    }

    /**
     * `is_valid_job`: the verdict, its counter, and the registration of a
     * job that passed the dedup check. The source returns at the first
     * failing check; here that check's reason is kept and counted once.
     */
    method IsValidJob(job: Job) returns (valid: bool)
      modifies this
      ensures valid <==> Verdict(config, old(seenJobs), job).None?
      ensures stats == Record(old(stats), Verdict(config, old(seenJobs), job))
      ensures seenJobs == SeenAfter(config, old(seenJobs), job)
    {
      ghost var seen := seenJobs;
      var verdict := EarlyVerdict(config, job);
      if verdict.None? {
        var unique := IsUniqueJob(job);
        verdict :=
          if !unique then Some(Duplicate)
          else if !ValidField(job.experience, config.validExperience) then Some(InvalidExperience)
          else if !ValidField(job.education, config.validEducation) then Some(InvalidEducation)
          else None;
      }
      assert verdict == Verdict(config, seen, job);
      stats := Record(stats, verdict);
      valid := verdict.None?;
    }

    /** `_is_unique_job` */
    method IsUniqueJob(job: Job) returns (unique: bool)
      modifies this
      ensures unique == Unique(old(seenJobs), job)
      ensures seenJobs == if unique then Register(old(seenJobs), job) else old(seenJobs)
      ensures stats == old(stats)
    {
      if job.jobId != [] && job.jobId in seenJobs {
        return false;
      }
      var key := DedupKey(job);
      if key in seenJobs {
        return false;
      }
      var ids := if job.jobId != [] then seenJobs + {job.jobId} else seenJobs;
      seenJobs := ids + {key};
      return true;
    }

    /** `_clean_skills` with this cleaner's rules. */
    method CleanSkillList(skills: seq<string>) returns (result: seq<string>, count: nat)
      ensures result == CleanSkills(skillRules, skills)
      ensures count == NormalizedCount(skillRules, skills)
    {
      result, count := FirstByLowerCase(skills, CandidateOf(skillRules), NormalizedOf(skillRules));
    }

    /** Step 6 of `clean_job`: the cleaned skills, and the dedup and alias counters. */
    method SkillsStep(skills: seq<string>) returns (cleaned: seq<string>)
      modifies this
      ensures cleaned == CleanSkills(skillRules, skills)
      ensures stats == SkillsCounted(old(stats), skillRules, skills)
      ensures seenJobs == old(seenJobs)
    {
      var n;
      cleaned, n := CleanSkillList(skills);
      stats := stats.(skillsDeduped := stats.skillsDeduped + (|skills| - |cleaned|),
                      skillsDictNormalized := stats.skillsDictNormalized + n);
    }

    /** Steps 1 to 7 of `clean_job`: the text fields, with the skill counters. */
    method FieldsStep(job: Job) returns (j: Job)
      modifies this
      ensures j == CleanedFields(skillRules, job)
      ensures stats == SkillsCounted(old(stats), skillRules, job.skills)
      ensures seenJobs == old(seenJobs)
    {
      var skills := SkillsStep(job.skills);
      j := WithCleanedText(job, skills);
    }

    /** `_process_salary`, which counts a unit conversion in `normalized_salary`. */
    method SalaryStep(job: Job) returns (processed: Job)
      requires job.salaryMin.Num? && job.salaryMax.Num?
      modifies this
      ensures processed == ProcessSalary(config, job)
      ensures stats == SalaryCounted(old(stats), config, job)
      ensures seenJobs == old(seenJobs)
    {
      if ConversionOf(config, job) != NoConversion {
        stats := stats.(normalizedSalary := stats.normalizedSalary + 1);
      }
      processed := ProcessSalary(config, job);
    }

    /**
     * The steps of `clean_job` modelled here: the company, city and the
     * five free-text fields, skills, welfare and salary, with their
     * counters, and the JD text of the result.
     */
    method CleanJob(job: Job) returns (cleaned: Job, jdText: Option<string>)
      requires job.salaryMin.Num? && job.salaryMax.Num?
      modifies this
      ensures cleaned == ProcessSalary(config, CleanedFields(skillRules, job))
      ensures jdText == if config.buildJdText then Some(BuildJdText(cleaned)) else None
      ensures stats == SalaryCounted(SkillsCounted(old(stats), skillRules, job.skills), config, CleanedFields(skillRules, job))
      ensures seenJobs == old(seenJobs)
    {
      var j := FieldsStep(job);
      cleaned := SalaryStep(j);
      jdText := if config.buildJdText then Some(BuildJdText(cleaned)) else None;
    }

    /**
     * One pass of the loop of `clean_dataset`: `is_valid_job`, with its
     * counter and registration, then `clean_job` on a job it accepts.
     */
    method FilterOne(job: Job) returns (kept: Option<CleanedJob>)
      modifies this
      ensures kept.Some? <==> Verdict(config, old(seenJobs), job).None?
      ensures kept.Some? ==> CleanedFrom(config, skillRules, job, kept.value)
      ensures seenJobs == SeenAfter(config, old(seenJobs), job)
      ensures stats.total == old(stats).total
      ensures Removed(stats) == Removed(old(stats)) + if kept.Some? then 0 else 1
    {
      ghost var verdict := Verdict(config, seenJobs, job);
      ghost var before := stats;
      var valid := IsValidJob(job);
      RecordCountsOnce(before, verdict);
      kept := None;
      if valid {
        var c, jdText := CleanJob(job);
        kept := Some(CleanedJob(c, jdText));
      }
    }

    /**
     * The loop of `clean_dataset`: each job through `is_valid_job` and,
     * when accepted, `clean_job`. The result is the cleaned form, with its
     * JD text, of each job the filter keeps from the current seen set, in
     * input order; each other job raises the removal count by one.
     */
    method FilterAll(jobs: seq<Job>) returns (cleaned: seq<CleanedJob>)
      modifies this
      ensures Pointwise(Accepted(config, old(seenJobs), jobs), cleaned, (j, c) => CleanedFrom(config, skillRules, j, c))
      ensures stats.total == old(stats).total
      ensures Removed(stats) + |cleaned| == Removed(old(stats)) + |jobs|
    {
      cleaned := [];
      ghost var kept: seq<Job> := [];
      var i := 0;
      while i < |jobs|
        invariant 0 <= i <= |jobs|
        invariant stats.total == old(stats).total
        invariant Removed(stats) + |cleaned| == Removed(old(stats)) + i
        invariant Filtering(config, skillRules, old(seenJobs), jobs, i, seenJobs, kept, cleaned)
      {
        ghost var seen := seenJobs;
        var one := FilterOne(jobs[i]);
        FilteringStep(config, skillRules, old(seenJobs), jobs, i, seen, kept, cleaned, one);
        if one.Some? {
          cleaned := cleaned + [one.value];
        }
        kept := kept + if one.Some? then [jobs[i]] else [];
        i := i + 1;
      }
      FilteringDone(config, skillRules, old(seenJobs), jobs, seenJobs, kept, cleaned);
    }

    /**
     * `clean_dataset` on the loaded jobs: reset, filter, clean. The result
     * is the cleaned form, with its JD text, of each job the filter keeps,
     * in input order; every other job is counted under exactly one removal
     * reason, and the report is a copy of the counters.
     */
    method CleanDataset(jobs: seq<Job>) returns (cleaned: seq<CleanedJob>, report: Stats)
      modifies this
      ensures Pointwise(Accepted(config, {}, jobs), cleaned, (j, c) => CleanedFrom(config, skillRules, j, c))
      ensures report == stats
      ensures report.total == |jobs| && report.cleaned == |cleaned|
      ensures Removed(report) + report.cleaned == report.total
    {
      ResetState();
      stats := stats.(total := |jobs|);
      cleaned := FilterAll(jobs);
      stats := stats.(cleaned := |cleaned|);
      report := stats;
    }
  }

  /**
   * The loop of `_clean_skills` and `_clean_welfare`: each raw item's
   * candidate is kept unless its lower-cased form is already in `seen`;
   * `count` counts the items `replaced` holds for.
   */
  method FirstByLowerCase(raws: seq<string>, candidate: string -> Option<string>, replaced: string -> bool)
    returns (result: seq<string>, count: nat)
    ensures result == DedupBy(FilterMap(raws, candidate), Lower)
    ensures count == Count(raws, replaced)
  {
    var seen: set<string> := {};
    result, count := [], 0;
    ghost var done: seq<string> := [];
    ghost var cands: seq<string> := [];
    var i := 0;
    while i < |raws|
      invariant 0 <= i <= |raws|
      invariant done == raws[..i]
      invariant cands == FilterMap(done, candidate)
      invariant count == Count(done, replaced)
      invariant result == DedupBy(cands, Lower)
      invariant seen == Elems(Keys(cands, Lower))
    {
      CountAppend(done, raws[i], replaced);
      FilterMapAppend(done, raws[i], candidate);
      assert raws[..i + 1] == done + [raws[i]];
      var c := candidate(raws[i]);
      if replaced(raws[i]) {
        count := count + 1;
      }
      if c.Some? {
        var key := Lower(c.value);
        DedupBySeenStep(cands, result, seen, c.value, Lower);
        if key !in seen {
          seen := seen + {key};
          result := result + [c.value];
        }
        cands := cands + [c.value];
      }
      done := done + [raws[i]];
      i := i + 1;
    }
    assert raws[..i] == raws;
  }

}
