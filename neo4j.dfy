/**
 * The Neo4j importer's bookkeeping: the alias map it normalises skill
 * names with, its counters, the company and skill caches of one import
 * run and the set of unknown skills already reported. The graph itself
 * is an oracle: which company ids and skill names it already holds, and
 * whether a job's transaction commits.
 */
module Neo4jImport {
  import opened Wrappers
  import opened Text
  import opened Order
  import opened Dict
  import opened SkillDictionary
  import opened SkillExtractor

  // ------------------------------------------------------------ alias map

  /** The keys one taxonomy entry contributes: its lower-cased name, then its lower-cased aliases. */
  function AliasKeys(): Skill -> seq<string>
  {
    (s: Skill) => [Lower(s.name)] + LowerAliases()(s)
  }

  /** `_build_alias_map`, or no map at all when the importer has no dictionary. */
  function AliasMapOf(dictionary: Option<seq<Skill>>): map<string, string>
  {
    if dictionary.Some? then FlatIndex(dictionary.value, AliasKeys(), NameOf()).values else map[]
  }

  /**
   * Every entry's lower-cased name and aliases are keys; under each key
   * sits the name of the LAST entry listing it, so later entries win.
   */
  lemma AliasMapSpec(all: seq<Skill>, k: string)
    ensures var m := AliasMapOf(Some(all));
      && (forall i :: 0 <= i < |all| ==> Lower(all[i].name) in m)
      && (k in m <==> exists i :: 0 <= i < |all| && k in AliasKeys()(all[i]))
      && (k in m ==> exists i :: (0 <= i < |all| && k in AliasKeys()(all[i]) && m[k] == all[i].name
            && forall j :: i < j < |all| ==> k !in AliasKeys()(all[j])))
  {
    AliasMapNames(all);
    AliasMapKeys(all, k);
    if k in AliasMapOf(Some(all)) {
      AliasMapLast(all, k);
    }
  }

  lemma AliasMapNames(all: seq<Skill>)
    ensures forall i :: 0 <= i < |all| ==> Lower(all[i].name) in AliasMapOf(Some(all))
  {
    FlatIndexSpec(all, AliasKeys(), NameOf());
    forall i | 0 <= i < |all| ensures Lower(all[i].name) in AliasKeys()(all[i]) {
      assert AliasKeys()(all[i])[0] == Lower(all[i].name);
    }
  }

  lemma AliasMapKeys(all: seq<Skill>, k: string)
    ensures k in AliasMapOf(Some(all)) <==> exists i :: 0 <= i < |all| && k in AliasKeys()(all[i])
  {
    FlatIndexSpec(all, AliasKeys(), NameOf());
  }

  lemma AliasMapLast(all: seq<Skill>, k: string)
    requires k in AliasMapOf(Some(all))
    ensures exists i :: (0 <= i < |all| && k in AliasKeys()(all[i]) && AliasMapOf(Some(all))[k] == all[i].name
      && forall j :: i < j < |all| ==> k !in AliasKeys()(all[j]))
  {
    FlatIndexLast(all, AliasKeys(), NameOf(), k);
    var i :| 0 <= i < |all| && k in AliasKeys()(all[i]) && FlatIndex(all, AliasKeys(), NameOf()).values[k] == NameOf()(all[i])
      && forall j :: i < j < |all| ==> k !in AliasKeys()(all[j]);
    assert NameOf()(all[i]) == all[i].name;
  }

  /** The map is empty exactly when there is no dictionary or it has no entries. */
  lemma AliasMapEmpty(dictionary: Option<seq<Skill>>)
    ensures |AliasMapOf(dictionary)| == 0 <==> dictionary.None? || dictionary.value == []
  {
    if dictionary.Some? && dictionary.value != [] {
      AliasMapSpec(dictionary.value, Lower(dictionary.value[0].name));
      assert Lower(dictionary.value[0].name) in AliasMapOf(dictionary);
    }
  }

  /** `_build_alias_map`: for each entry, its name's key and then each alias key is stored. */
  method BuildAliasMap(all: seq<Skill>) returns (m: map<string, string>)
    ensures m == AliasMapOf(Some(all))
  {
    var d: PyDict<string, string> := Empty();
    var i := 0;
    while i < |all|
      invariant 0 <= i <= |all|
      invariant d == FlatIndex(all[..i], AliasKeys(), NameOf())
    {
      var s := all[i];
      assert all[..i + 1][..i] == all[..i];
      d := PutKeys(d, AliasKeys()(s), s.name);
      i := i + 1;
    }
    assert all[..|all|] == all;
    m := d.values;
  }

  /** Storing one entry's keys in order: `for k in keys: d[k] = v`. */
  method PutKeys(d0: PyDict<string, string>, keys: seq<string>, v: string) returns (d: PyDict<string, string>)
    ensures d == PutAll(d0, keys, v)
  {
    d := d0;
    var j := 0;
    while j < |keys|
      invariant 0 <= j <= |keys|
      invariant d == PutAll(d0, keys[..j], v)
    {
      assert keys[..j + 1][..j] == keys[..j];
      d := Put(d, keys[j], v);
      j := j + 1;
    }
    assert keys[..|keys|] == keys;
  }

  // -------------------------------------------------------- normalisation

  /**
   * `normalize_skill_name`: the identity without a map; otherwise the
   * standard name stored under the lower-cased input, when it is a
   * non-empty one, else the input.
   */
  function Normalize(aliasMap: map<string, string>, name: string): (r: string)
    ensures |aliasMap| == 0 ==> r == name
    ensures r == name || (Lower(name) in aliasMap && r == aliasMap[Lower(name)] && r != [])
  {
    if |aliasMap| == 0 then name
    else if Lower(name) in aliasMap && aliasMap[Lower(name)] != [] then aliasMap[Lower(name)]
    else name
  }

  /** Whether a call bumps `skills_normalized`: a non-empty mapping that differs from the input. */
  predicate Renames(aliasMap: map<string, string>, name: string)
  {
    && |aliasMap| != 0
    && Lower(name) in aliasMap
    && aliasMap[Lower(name)] != []
    && aliasMap[Lower(name)] != name
  }

  /** The counter moves exactly when the name changes. */
  lemma RenamesIff(aliasMap: map<string, string>, name: string)
    ensures Renames(aliasMap, name) <==> Normalize(aliasMap, name) != name
  {
  }

  /** A standard name, with the map built from the dictionary, normalises to the last entry carrying its lower-cased form. */
  lemma NormalizeStandard(all: seq<Skill>, i: nat)
    requires i < |all|
    requires forall j :: i < j < |all| ==> Lower(all[i].name) !in AliasKeys()(all[j])
    requires all[i].name != []
    ensures Normalize(AliasMapOf(Some(all)), all[i].name) == all[i].name
  {
    var m := AliasMapOf(Some(all));
    var k := Lower(all[i].name);
    AliasMapSpec(all, k);
    assert k in AliasKeys()(all[i]);
    var i' :| 0 <= i' < |all| && k in AliasKeys()(all[i']) && m[k] == all[i'].name
      && forall j :: i' < j < |all| ==> k !in AliasKeys()(all[j]);
    assert i' == i;
  }

  // ------------------------------------------------------------- counters

  /** `self.stats`. */
  datatype Stats = Stats(
    skillsCreated: nat, jobsCreated: nat, companiesCreated: nat, requiresCreated: nat,
    relatedToCreated: nat, postedByCreated: nat, skillsNormalized: nat)

  function ZeroStats(): Stats { Stats(0, 0, 0, 0, 0, 0, 0) }

  function Bump(b: bool): nat { if b then 1 else 0 }

  // ------------------------------------------------------------ the graph

  /**
   * What the graph answers: whether a company id or a skill name already
   * has a node, and whether a job's transaction commits.
   */
  datatype Graph = Graph(companyExists: string -> bool, skillExists: string -> bool, commits: ImportJob -> bool)

  /** The fields of a job the importer reads for its bookkeeping; a missing job_id is None. */
  datatype ImportJob = ImportJob(jobId: Option<string>, company: string, skills: seq<string>)

  /** A node id: prefix, then the lower-cased name with spaces turned into underscores. */
  function NodeId(prefix: string, name: string): (r: string)
    ensures |r| == |prefix| + |name| && r[..|prefix|] == prefix
    ensures ' ' !in r[|prefix|..]
  {
    prefix + ReplaceChar(Lower(name), ' ', '_')
  }

  /** Ids for names that differ ignoring case and spaces-versus-underscores are different. */
  lemma NodeIdDistinct(prefix: string, a: string, b: string)
    requires ReplaceChar(Lower(a), ' ', '_') != ReplaceChar(Lower(b), ' ', '_')
    ensures NodeId(prefix, a) != NodeId(prefix, b)
  {
    assert NodeId(prefix, a)[|prefix|..] == ReplaceChar(Lower(a), ' ', '_');
    assert NodeId(prefix, b)[|prefix|..] == ReplaceChar(Lower(b), ' ', '_');
  }

  // ---------------------------------------------------- one skill, one company

  /**
   * What `_get_skill_node` does: whether its normalisation bumped the
   * counter, the reported names and cache it leaves, and the node it
   * returns (the node's skill name).
   */
  datatype SkillLookup = SkillLookup(renamed: bool, warned: set<string>, cache: map<string, string>, node: Option<string>)

  /**
   * `_get_skill_node`: normalise (which may bump the counter); a cached
   * normalised name answers from the cache; a node the graph has is
   * cached under the normalised and the raw name; an unknown raw name is
   * remembered as reported.
   */
  function GetSkill(aliasMap: map<string, string>, warned: set<string>, cache: map<string, string>,
                    name: string, g: Graph): SkillLookup
  {
    var n := Normalize(aliasMap, name);
    var renamed := Renames(aliasMap, name);
    if n in cache then SkillLookup(renamed, warned, cache, Some(cache[n]))
    else if g.skillExists(n) then
      var c := cache[n := n];
      SkillLookup(renamed, warned, if name != n then c[name := n] else c, Some(n))
    else SkillLookup(renamed, warned + {name}, cache, None)
  }

  /** Every cached skill node is one the graph has. */
  predicate SkillCacheSound(cache: map<string, string>, g: Graph)
  {
    forall k :: k in cache ==> g.skillExists(cache[k])
  }

  /**
   * A lookup keeps the cache sound and only grows it and the reported
   * set; a node it returns exists; a name already reported is not
   * reported again; without a node the raw name is reported.
   */
  lemma GetSkillSpec(aliasMap: map<string, string>, warned: set<string>, cache: map<string, string>,
                     name: string, g: Graph)
    requires SkillCacheSound(cache, g)
    ensures var l := GetSkill(aliasMap, warned, cache, name, g);
      && SkillCacheSound(l.cache, g)
      && cache.Keys <= l.cache.Keys
      && (l.node.Some? ==> g.skillExists(l.node.value))
      && (l.node.None? ==> l.warned == warned + {name} && !g.skillExists(Normalize(aliasMap, name)))
      && (l.node.Some? ==> l.warned == warned)
      && (name in warned ==> l.warned == warned)
      && (l.renamed <==> Normalize(aliasMap, name) != name)
  {
    RenamesIff(aliasMap, name);
  }

  /** What `_get_or_create_company` does: whether it created a node, the cache it leaves, the company id it returns. */
  datatype CompanyLookup = CompanyLookup(created: bool, cache: map<string, string>, node: Option<string>)

  /**
   * `_get_or_create_company`: none for a blank name; a cached name
   * answers from the cache; otherwise the id is derived from the name, a
   * node is created (and counted) only when the graph lacks that id, and
   * the name is cached.
   */
  function GetCompany(cache: map<string, string>, company: string, g: Graph): CompanyLookup
  {
    CompanyNamed(cache, Strip(company), g)
  }

  /** The lookup for an already stripped name. */
  function CompanyNamed(cache: map<string, string>, name: string, g: Graph): CompanyLookup
  {
    if name == [] then CompanyLookup(false, cache, None)
    else if name in cache then CompanyLookup(false, cache, Some(cache[name]))
    else
      var id := NodeId("company_", name);
      CompanyLookup(!g.companyExists(id), cache[name := id], Some(id))
  }

  /** Every cached company is keyed by a non-blank stripped name and holds that name's id. */
  predicate CompanyCacheSound(cache: map<string, string>)
  {
    forall k :: k in cache ==> k != [] && cache[k] == NodeId("company_", k)
  }

  /**
   * A company lookup keeps the cache sound and only grows it; the counter
   * moves at most once, and only when the cache gains the name.
   */
  lemma GetCompanySpec(cache: map<string, string>, company: string, g: Graph)
    requires CompanyCacheSound(cache)
    ensures var l := GetCompany(cache, company, g);
      && CompanyCacheSound(l.cache)
      && cache.Keys <= l.cache.Keys
      && (l.node.None? <==> Strip(company) == [])
      && (l.node.Some? ==> Strip(company) in l.cache && l.node.value == NodeId("company_", Strip(company)))
      && (l.created ==> |l.cache.Keys| == |cache.Keys| + 1)
  {
    CompanyNamedSpec(cache, Strip(company), g);
  }

  lemma CompanyNamedSpec(cache: map<string, string>, name: string, g: Graph)
    requires CompanyCacheSound(cache)
    ensures var l := CompanyNamed(cache, name, g);
      && CompanyCacheSound(l.cache)
      && cache.Keys <= l.cache.Keys
      && (l.node.None? <==> name == [])
      && (l.node.Some? ==> name in l.cache && l.node.value == NodeId("company_", name))
      && (l.created ==> |l.cache.Keys| == |cache.Keys| + 1)
  {
    if name != [] && name !in cache {
      CompanyInsertSound(cache, name);
    }
  }

  lemma CompanyInsertSound(cache: map<string, string>, name: string)
    requires CompanyCacheSound(cache) && name != [] && name !in cache
    ensures CompanyCacheSound(cache[name := NodeId("company_", name)])
    ensures |cache[name := NodeId("company_", name)].Keys| == |cache.Keys| + 1
  {
    var c := cache[name := NodeId("company_", name)];
    assert c.Keys == cache.Keys + {name};
    forall k | k in c ensures k != [] && c[k] == NodeId("company_", k) {
      if k != name {
        assert k in cache;
      }
    }
  }

  // --------------------------------------------------------------- a job

  /** Everything one import run changes: counters, reported names, both caches, failures (by job id). */
  datatype Run = Run(stats: Stats, warned: set<string>, companies: map<string, string>, skills: map<string, string>,
                     failed: seq<Option<string>>)

  /** The skill loop of one job: each found node counts one REQUIRES relation. */
  function SkillsLoop(aliasMap: map<string, string>, r: Run, names: seq<string>, g: Graph): Run
  {
    if names == [] then r
    else
      var p := SkillsLoop(aliasMap, r, names[..|names| - 1], g);
      var l := GetSkill(aliasMap, p.warned, p.skills, names[|names| - 1], g);
      p.(stats := p.stats.(skillsNormalized := p.stats.skillsNormalized + Bump(l.renamed),
                           requiresCreated := p.stats.requiresCreated + Bump(l.node.Some?)),
         warned := l.warned, skills := l.cache)
  }

  /**
   * One job of `import_jobs`: a job without id fails before anything
   * happens; otherwise the company, its POSTED_BY relation and the
   * skills are processed, and the job counts as created only if its
   * transaction commits; a failed job is recorded by its id, and what
   * happened before the failure stays counted.
   */
  function ImportOne(aliasMap: map<string, string>, r: Run, job: ImportJob, g: Graph): Run
  {
    if job.jobId.None? then r.(failed := r.failed + [None])
    else Commit(Processed(aliasMap, r, job, g), job, g)
  }

  /** The company and the skills of a job that has an id, inside its transaction. */
  function Processed(aliasMap: map<string, string>, r: Run, job: ImportJob, g: Graph): Run
  {
    var c := GetCompany(r.companies, job.company, g);
    SkillsLoop(aliasMap, r.(stats := AfterCompany(r.stats, c), companies := c.cache), job.skills, g)
  }

  /** The end of the transaction: counted when it commits, recorded as failed otherwise. */
  function Commit(s: Run, job: ImportJob, g: Graph): Run
  {
    if g.commits(job) then s.(stats := s.stats.(jobsCreated := s.stats.jobsCreated + 1))
    else s.(failed := s.failed + [job.jobId])
  }

  /** The counters after a company lookup: a created node and a POSTED_BY relation. */
  function AfterCompany(stats: Stats, c: CompanyLookup): Stats
  {
    stats.(companiesCreated := stats.companiesCreated + Bump(c.created),
           postedByCreated := stats.postedByCreated + Bump(c.node.Some?))
  }

  /** The counters after a company lookup, one counter at a time. */
  lemma AfterCompanyParts(s0: Stats, c: CompanyLookup, s1: Stats, s2: Stats)
    requires s1 == s0.(companiesCreated := s0.companiesCreated + Bump(c.created))
    requires s2 == s1.(postedByCreated := s1.postedByCreated + Bump(c.node.Some?))
    ensures s2 == AfterCompany(s0, c)
  {
  }

  /** `import_jobs` over a list of jobs, from a given state. */
  function ImportAll(aliasMap: map<string, string>, r: Run, jobs: seq<ImportJob>, g: Graph): Run
  {
    if jobs == [] then r
    else ImportOne(aliasMap, ImportAll(aliasMap, r, jobs[..|jobs| - 1], g), jobs[|jobs| - 1], g)
  }

  /** Whether a job ends up created: it has an id and its transaction commits. */
  predicate Created(g: Graph, job: ImportJob)
  {
    job.jobId.Some? && g.commits(job)
  }

  function CreatedOf(g: Graph): ImportJob -> bool { (job: ImportJob) => Created(g, job) }

  /** The failure record of a job that is not created. */
  function FailureOf(g: Graph): ImportJob -> Option<Option<string>>
  {
    (job: ImportJob) => if Created(g, job) then None else Some(job.jobId)
  }

  /** The skill loop touches neither the job counter nor the failures. */
  lemma {:induction false} SkillsLoopKeeps(aliasMap: map<string, string>, r: Run, names: seq<string>, g: Graph)
    ensures var s := SkillsLoop(aliasMap, r, names, g);
      s.stats.jobsCreated == r.stats.jobsCreated && s.failed == r.failed
      && s.stats.companiesCreated == r.stats.companiesCreated && s.companies == r.companies
  {
    if names != [] {
      SkillsLoopKeeps(aliasMap, r, names[..|names| - 1], g);
    }
  }

  /** The run over one more job is one more step. */
  lemma ImportAllStep(aliasMap: map<string, string>, r: Run, jobs: seq<ImportJob>, k: nat, g: Graph)
    requires k < |jobs|
    ensures ImportAll(aliasMap, r, jobs[..k + 1], g) == ImportOne(aliasMap, ImportAll(aliasMap, r, jobs[..k], g), jobs[k], g)
  {
    assert jobs[..k + 1][..k] == jobs[..k];
  }

  /** Running over two lists is running over the second from where the first left off. */
  lemma {:induction false} ImportAllConcat(aliasMap: map<string, string>, r: Run, a: seq<ImportJob>, b: seq<ImportJob>, g: Graph)
    ensures ImportAll(aliasMap, r, a + b, g) == ImportAll(aliasMap, ImportAll(aliasMap, r, a, g), b, g)
  {
    if b == [] {
      assert a + b == a;
    } else {
      ImportAllConcat(aliasMap, r, a, b[..|b| - 1], g);
      ConcatLast(a, b);
    }
  }
  /** The same split, at two positions of one list. */
  lemma ImportAllSplit(aliasMap: map<string, string>, r: Run, jobs: seq<ImportJob>, i: nat, end: nat, g: Graph)
    requires i <= end <= |jobs|
    ensures ImportAll(aliasMap, r, jobs[..end], g) == ImportAll(aliasMap, ImportAll(aliasMap, r, jobs[..i], g), jobs[i..end], g)
  {
    ImportAllConcat(aliasMap, r, jobs[..i], jobs[i..end], g);
    assert jobs[..i] + jobs[i..end] == jobs[..end];
  }


  /** One job moves the job counter by one exactly when it is created, and otherwise records its failure. */
  lemma ImportOneCounts(aliasMap: map<string, string>, p: Run, job: ImportJob, g: Graph)
    ensures var e := ImportOne(aliasMap, p, job, g);
      && e.stats.jobsCreated == p.stats.jobsCreated + Bump(Created(g, job))
      && e.failed == p.failed + (if Created(g, job) then [] else [job.jobId])
  {
    if job.jobId.Some? {
      var c := GetCompany(p.companies, job.company, g);
      SkillsLoopKeeps(aliasMap, p.(stats := AfterCompany(p.stats, c), companies := c.cache), job.skills, g);
      assert Processed(aliasMap, p, job, g).failed == p.failed;
    }
  }

  /**
   * The job counter grows by exactly the jobs that have an id and
   * commit; every other job is recorded as failed, by id and in order,
   * so created plus failed is the number of jobs.
   */
  lemma {:induction false} ImportAllCounts(aliasMap: map<string, string>, r: Run, jobs: seq<ImportJob>, g: Graph)
    ensures var e := ImportAll(aliasMap, r, jobs, g);
      && e.stats.jobsCreated == r.stats.jobsCreated + Count(jobs, CreatedOf(g))
      && e.failed == r.failed + FilterMap(jobs, FailureOf(g))
  {
    if jobs != [] {
      var init := jobs[..|jobs| - 1];
      var job := jobs[|jobs| - 1];
      ImportAllCounts(aliasMap, r, init, g);
      var p := ImportAll(aliasMap, r, init, g);
      ImportOneCounts(aliasMap, p, job, g);
      CountLast(jobs, CreatedOf(g));
      FilterMapLast(jobs, FailureOf(g));
      assert ImportAll(aliasMap, r, jobs, g) == ImportOne(aliasMap, p, job, g);
    }
  }

  /** The number of jobs recorded as failed plus the number created is the number of jobs. */
  lemma {:induction false} CreatedPlusFailed(jobs: seq<ImportJob>, g: Graph)
    ensures Count(jobs, CreatedOf(g)) + |FilterMap(jobs, FailureOf(g))| == |jobs|
  {
    if jobs != [] {
      var init := jobs[..|jobs| - 1];
      CreatedPlusFailed(init, g);
      CountAppend(init, jobs[|jobs| - 1], CreatedOf(g));
      FilterMapAppend(init, jobs[|jobs| - 1], FailureOf(g));
      assert init + [jobs[|jobs| - 1]] == jobs;
    }
  }

  /** The skill loop keeps the skill cache sound and never shrinks the reported set. */
  lemma {:induction false} SkillsLoopSound(aliasMap: map<string, string>, r: Run, names: seq<string>, g: Graph)
    requires SkillCacheSound(r.skills, g)
    ensures var s := SkillsLoop(aliasMap, r, names, g);
      SkillCacheSound(s.skills, g) && r.warned <= s.warned
  {
    if names != [] {
      var p := SkillsLoop(aliasMap, r, names[..|names| - 1], g);
      SkillsLoopSound(aliasMap, r, names[..|names| - 1], g);
      GetSkillSpec(aliasMap, p.warned, p.skills, names[|names| - 1], g);
    }
  }

  /** The caches after one job, and the company counter against the company cache. */
  predicate CachesFollow(r: Run, e: Run, g: Graph)
  {
    && SkillCacheSound(e.skills, g) && CompanyCacheSound(e.companies)
    && r.companies.Keys <= e.companies.Keys
    && r.stats.companiesCreated <= e.stats.companiesCreated
    && e.stats.companiesCreated - r.stats.companiesCreated <= |e.companies.Keys| - |r.companies.Keys|
  }

  lemma ImportOneCaches(aliasMap: map<string, string>, p: Run, job: ImportJob, g: Graph)
    requires SkillCacheSound(p.skills, g) && CompanyCacheSound(p.companies)
    ensures CachesFollow(p, ImportOne(aliasMap, p, job, g), g)
  {
    if job.jobId.Some? {
      ProcessedCaches(aliasMap, p, job, g);
      CommitCaches(p, Processed(aliasMap, p, job, g), job, g);
    } else {
      FailedCaches(p, g);
    }
  }

  /** Committing or failing the transaction leaves the caches and the company counter alone. */
  lemma CommitCaches(p: Run, s: Run, job: ImportJob, g: Graph)
    requires CachesFollow(p, s, g)
    ensures CachesFollow(p, Commit(s, job, g), g)
  {
    var e := Commit(s, job, g);
    assert e.companies == s.companies && e.skills == s.skills && e.stats.companiesCreated == s.stats.companiesCreated;
  }

  /** A job without an id changes nothing but the failures. */
  lemma FailedCaches(p: Run, g: Graph)
    requires SkillCacheSound(p.skills, g) && CompanyCacheSound(p.companies)
    ensures CachesFollow(p, p.(failed := p.failed + [None]), g)
  {
  }

  lemma ProcessedCaches(aliasMap: map<string, string>, p: Run, job: ImportJob, g: Graph)
    requires SkillCacheSound(p.skills, g) && CompanyCacheSound(p.companies)
    ensures CachesFollow(p, Processed(aliasMap, p, job, g), g)
  {
    var c := GetCompany(p.companies, job.company, g);
    var a := p.(stats := AfterCompany(p.stats, c), companies := c.cache);
    AfterCompanyCaches(p, job.company, g);
    SkillsLoopKeeps(aliasMap, a, job.skills, g);
    SkillsLoopSound(aliasMap, a, job.skills, g);
  }

  lemma AfterCompanyCaches(p: Run, company: string, g: Graph)
    requires SkillCacheSound(p.skills, g) && CompanyCacheSound(p.companies)
    ensures var c := GetCompany(p.companies, company, g);
      CachesFollow(p, p.(stats := AfterCompany(p.stats, c), companies := c.cache), g)
  {
    GetCompanySpec(p.companies, company, g);
  }

  /**
   * Over a whole run both caches stay sound, and the company counter
   * grows by at most the number of company names newly cached: each
   * company is created at most once per run.
   */
  lemma {:induction false} ImportAllCaches(aliasMap: map<string, string>, r: Run, jobs: seq<ImportJob>, g: Graph)
    requires SkillCacheSound(r.skills, g) && CompanyCacheSound(r.companies)
    ensures CachesFollow(r, ImportAll(aliasMap, r, jobs, g), g)
  {
    if jobs != [] {
      var init := jobs[..|jobs| - 1];
      ImportAllCaches(aliasMap, r, init, g);
      var p := ImportAll(aliasMap, r, init, g);
      ImportOneCaches(aliasMap, p, jobs[|jobs| - 1], g);
      var e := ImportAll(aliasMap, r, jobs, g);
      assert e == ImportOne(aliasMap, p, jobs[|jobs| - 1], g);
    }
  }

  // ------------------------------------------------------------ the class

  /** `Neo4jImporter`: the alias map is fixed at construction; counters and reported names persist across calls. */
  class Importer {
    const aliasMap: map<string, string>
    var stats: Stats
    var warned: set<string>

    constructor(dictionary: Option<seq<Skill>>)
      ensures aliasMap == AliasMapOf(dictionary)
      ensures stats == ZeroStats() && warned == {}
    {
      var m: map<string, string> := map[];
      if dictionary.Some? {
        m := BuildAliasMap(dictionary.value);
      }
      aliasMap := m;
      stats := ZeroStats();
      warned := {};
    }

    /** `normalize_skill_name`. */
    method NormalizeSkillName(name: string) returns (r: string)
      modifies this
      ensures r == Normalize(aliasMap, name)
      ensures stats == old(stats).(skillsNormalized := old(stats).skillsNormalized + Bump(r != name))
      ensures warned == old(warned)
    {
      RenamesIff(aliasMap, name);
      if |aliasMap| == 0 {
        return name;
      }
      var key := Lower(name);
      if key in aliasMap && aliasMap[key] != [] {
        var normalized := aliasMap[key];
        if normalized != name {
          stats := stats.(skillsNormalized := stats.skillsNormalized + 1);
        }
        return normalized;
      }
      return name;
    }

    /** `import_skills_from_dictionary`: one merged node per entry, keyed by its skill id; returns the running total. */
    method ImportSkills(all: seq<Skill>) returns (ids: seq<string>, total: nat)
      modifies this
      ensures |ids| == |all| && forall i :: 0 <= i < |all| ==> ids[i] == NodeId("skill_", all[i].name)
      ensures stats == old(stats).(skillsCreated := old(stats).skillsCreated + |all|)
      ensures total == stats.skillsCreated && warned == old(warned)
    {
      ids := [];
      var i := 0;
      while i < |all|
        invariant 0 <= i <= |all|
        invariant |ids| == i && forall j :: 0 <= j < i ==> ids[j] == NodeId("skill_", all[j].name)
        invariant stats == old(stats).(skillsCreated := old(stats).skillsCreated + i)
        invariant warned == old(warned)
      {
        ids := ids + [NodeId("skill_", all[i].name)];
        stats := stats.(skillsCreated := stats.skillsCreated + 1);
        i := i + 1;
      }
      total := stats.skillsCreated;
    }

    /** `_get_skill_node`, with the run's skill cache passed in and handed back. */
    method GetSkillNode(name: string, cache: map<string, string>, g: Graph)
      returns (node: Option<string>, cache': map<string, string>)
      modifies this
      ensures var l := GetSkill(aliasMap, old(warned), cache, name, g);
        && warned == l.warned && cache' == l.cache && node == l.node
        && stats == old(stats).(skillsNormalized := old(stats).skillsNormalized + Bump(l.renamed))
    {
      var n := NormalizeSkillName(name);
      cache' := cache;
      if n in cache {
        return Some(cache[n]), cache';
      }
      if g.skillExists(n) {
        cache' := cache'[n := n];
        if name != n {
          cache' := cache'[name := n];
        }
        return Some(n), cache';
      }
      if name !in warned {
        warned := warned + {name};
      }
      return None, cache';
    }

    /** `_get_or_create_company`, with the run's company cache passed in and handed back. */
    method GetOrCreateCompany(company: string, cache: map<string, string>, g: Graph)
      returns (node: Option<string>, cache': map<string, string>)
      modifies this
      ensures stats == old(stats).(companiesCreated := old(stats).companiesCreated + Bump(GetCompany(cache, company, g).created))
      ensures cache' == GetCompany(cache, company, g).cache && node == GetCompany(cache, company, g).node
      ensures warned == old(warned)
    {
      var name := Strip(company);
      cache' := cache;
      if name == [] {
        return None, cache';
      }
      if name in cache {
        return Some(cache[name]), cache';
      }
      var id := NodeId("company_", name);
      if !g.companyExists(id) {
        stats := stats.(companiesCreated := stats.companiesCreated + 1);
      }
      cache' := cache'[name := id];
      return Some(id), cache';
    }

    /** The skill loop of one job, with the run's skill cache passed in and handed back. */
    method SkillsStep(names: seq<string>, companies: map<string, string>, skills: map<string, string>,
                      failed: seq<Option<string>>, g: Graph) returns (skills': map<string, string>)
      modifies this
      ensures Run(stats, warned, companies, skills', failed)
        == SkillsLoop(aliasMap, Run(old(stats), old(warned), companies, skills, failed), names, g)
    {
      skills' := skills;
      ghost var start := Run(stats, warned, companies, skills, failed);
      var k := 0;
      while k < |names|
        invariant 0 <= k <= |names|
        invariant Run(stats, warned, companies, skills', failed) == SkillsLoop(aliasMap, start, names[..k], g)
      {
        assert names[..k + 1][..k] == names[..k];
        var node;
        node, skills' := GetSkillNode(names[k], skills', g);
        if node.Some? {
          stats := stats.(requiresCreated := stats.requiresCreated + 1);
        }
        k := k + 1;
      }
      assert names[..|names|] == names;
    }

    /** The company of one job and its POSTED_BY relation. */
    method CompanyStep(company: string, companies: map<string, string>, g: Graph) returns (companies': map<string, string>)
      modifies this
      ensures stats == AfterCompany(old(stats), GetCompany(companies, company, g))
      ensures companies' == GetCompany(companies, company, g).cache && warned == old(warned)
    {
      ghost var c := GetCompany(companies, company, g);
      ghost var s0 := stats;
      var node;
      node, companies' := GetOrCreateCompany(company, companies, g);
      ghost var s1 := stats;
      if node.Some? {
        PostedBy();
      }
      AfterCompanyParts(s0, c, s1, stats);
    }

    /** The POSTED_BY relation of a job whose company has a node. */
    method PostedBy()
      modifies this
      ensures stats == old(stats).(postedByCreated := old(stats).postedByCreated + 1)
      ensures warned == old(warned)
    {
      stats := stats.(postedByCreated := stats.postedByCreated + 1);
    }

    /** The body of the per-job `try` in `import_jobs`. */
    method ImportJobStep(job: ImportJob, companies: map<string, string>, skills: map<string, string>,
                         failed: seq<Option<string>>, g: Graph)
      returns (companies': map<string, string>, skills': map<string, string>, failed': seq<Option<string>>)
      modifies this
      ensures Run(stats, warned, companies', skills', failed')
        == ImportOne(aliasMap, Run(old(stats), old(warned), companies, skills, failed), job, g)
    {
      companies', skills', failed' := companies, skills, failed;
      if job.jobId.None? {
        failed' := failed' + [None];
        return;
      }
      ghost var r0 := Run(stats, warned, companies, skills, failed);
      ghost var c := GetCompany(companies, job.company, g);
      companies' := CompanyStep(job.company, companies, g);
      ghost var a := Run(stats, warned, companies', skills', failed');
      assert a == r0.(stats := AfterCompany(r0.stats, c), companies := c.cache);
      skills' := SkillsStep(job.skills, companies', skills', failed', g);
      assert Run(stats, warned, companies', skills', failed') == SkillsLoop(aliasMap, a, job.skills, g);
      if g.commits(job) {
        stats := stats.(jobsCreated := stats.jobsCreated + 1);
      } else {
        failed' := failed' + [job.jobId];
      }
    }

    /** One batch of `import_jobs`, each job in its own transaction. */
    method ImportBatch(batch: seq<ImportJob>, companies: map<string, string>, skills: map<string, string>,
                       failed: seq<Option<string>>, g: Graph)
      returns (companies': map<string, string>, skills': map<string, string>, failed': seq<Option<string>>)
      modifies this
      ensures Run(stats, warned, companies', skills', failed')
        == ImportAll(aliasMap, Run(old(stats), old(warned), companies, skills, failed), batch, g)
    {
      companies', skills', failed' := companies, skills, failed;
      ghost var start := Run(stats, warned, companies, skills, failed);
      var b := 0;
      while b < |batch|
        invariant 0 <= b <= |batch|
        invariant Run(stats, warned, companies', skills', failed') == ImportAll(aliasMap, start, batch[..b], g)
      {
        ImportAllStep(aliasMap, start, batch, b, g);
        companies', skills', failed' := ImportJobStep(batch[b], companies', skills', failed', g);
        b := b + 1;
      }
      assert batch[..|batch|] == batch;
    }

    /**
     * `import_jobs`: jobs in batches of `batchSize`, each in its own
     * transaction; returns the running total of created jobs, which
     * includes earlier calls, and the failed job ids.
     */
    method ImportJobs(jobs: seq<ImportJob>, batchSize: nat, g: Graph) returns (total: nat, failed: seq<Option<string>>)
      requires batchSize > 0
      modifies this
      ensures var e := ImportAll(aliasMap, Run(old(stats), old(warned), map[], map[], []), jobs, g);
        stats == e.stats && warned == e.warned && failed == e.failed
      ensures total == stats.jobsCreated
    {
      var companies: map<string, string> := map[];
      var skills: map<string, string> := map[];
      failed := [];
      ghost var start := Run(stats, warned, companies, skills, failed);
      var i := 0;
      while i < |jobs|
        invariant 0 <= i <= |jobs|
        invariant Run(stats, warned, companies, skills, failed) == ImportAll(aliasMap, start, jobs[..i], g)
      {
        var end := if i + batchSize <= |jobs| then i + batchSize else |jobs|;
        ImportAllSplit(aliasMap, start, jobs, i, end, g);
        companies, skills, failed := ImportBatch(jobs[i..end], companies, skills, failed, g);
        i := end;
      }
      assert jobs[..|jobs|] == jobs;
      total := stats.jobsCreated;
    }
  }

  /**
   * One call of `import_jobs` on a fresh importer state: the returned
   * total is the number of jobs with an id whose transaction commits,
   * every other job is recorded as failed, each company is created at
   * most once, and every cached skill node exists in the graph.
   */
  lemma ImportJobsSpec(aliasMap: map<string, string>, stats: Stats, warned: set<string>, jobs: seq<ImportJob>, g: Graph)
    ensures var e := ImportAll(aliasMap, Run(stats, warned, map[], map[], []), jobs, g);
      && e.stats.jobsCreated == stats.jobsCreated + Count(jobs, CreatedOf(g))
      && e.failed == FilterMap(jobs, FailureOf(g))
      && e.stats.jobsCreated - stats.jobsCreated + |e.failed| == |jobs|
      && e.stats.companiesCreated - stats.companiesCreated <= |e.companies.Keys|
      && stats.companiesCreated <= e.stats.companiesCreated
      && SkillCacheSound(e.skills, g) && CompanyCacheSound(e.companies)
  {
    var r := Run(stats, warned, map[], map[], []);
    ImportAllCounts(aliasMap, r, jobs, g);
    CreatedPlusFailed(jobs, g);
    ImportAllCaches(aliasMap, r, jobs, g);
    assert r.failed + FilterMap(jobs, FailureOf(g)) == FilterMap(jobs, FailureOf(g));
  }
}
