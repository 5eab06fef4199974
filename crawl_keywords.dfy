/**
 * The crawler's keyword list (scripts/generate_crawl_keywords.py): from the
 * flattened skill taxonomy, the high-value and the framework skills are
 * united by name, grouped by category, and each category in sorted order
 * contributes its eight hottest names; the twelve job-type keywords close
 * the list. Reading the taxonomy file, the console report and writing the
 * output file are outside the model.
 */
module CrawlKeywords {
  import opened Wrappers
  import opened Text
  import opened Order
  import opened Assoc
  import opened SkillDictionary

  /** A high-value skill has at least this hot score ... */
  const HighValueScore: int := 85
  /** ... and one of these levels. */
  const HighValueLevels: seq<string> := ["核心", "常用"]
  /** The framework categories, whose search results are of high quality. */
  const FrameworkCategories: seq<string> := ["后端框架", "前端技术", "数据库", "云原生与DevOps"]
  /** A framework skill has at least this hot score. */
  const FrameworkScore: int := 70
  /** Names taken per category. */
  const PerCategory: nat := 8
  /** Listings fetched per keyword. */
  const PerKeyword: nat := 300
  const JobTypes: seq<string> := ["Python开发", "Java开发", "前端开发", "后端开发",
                                  "算法工程师", "数据分析", "大数据开发", "测试工程师",
                                  "运维工程师", "全栈工程师", "Go开发", "移动开发"]
  const CrawlCities: seq<string> := ["北京", "上海", "深圳", "杭州", "广州", "成都"]

  predicate HighValue(s: Skill)
  {
    s.hotScore >= HighValueScore && s.level.Some? && s.level.value in HighValueLevels
  }

  predicate Framework(s: Skill)
  {
    s.category in FrameworkCategories && s.hotScore >= FrameworkScore
  }

  function NameOf(s: Skill): string { s.name }

  function CategoryOf(s: Skill): string { s.category }

  function Hot(): Skill -> real
  {
    (s: Skill) => s.hotScore as real
  }

  function InCategory(c: string): Skill -> bool
  {
    (s: Skill) => s.category == c
  }

  /** `{s['name']: s for s in high_value_skills + framework_skills}` */
  function Selection(all: seq<Skill>): seq<Skill>
  {
    UpsertAll([], Filter(all, HighValue) + Filter(all, Framework), NameOf)
  }

  /**
   * The selection holds one skill per name, each high-value or framework;
   * every such name is in it, with its last entry (framework entries come
   * after the high-value ones, so a framework entry wins).
   */
  lemma SelectionSpec(all: seq<Skill>)
    ensures forall s :: s in Selection(all) ==> s in all && (HighValue(s) || Framework(s))
    ensures NoDup(Keys(Selection(all), NameOf))
    ensures forall s :: s in all && (HighValue(s) || Framework(s)) ==> s.name in Keys(Selection(all), NameOf)
    ensures forall n :: (Lookup(Selection(all), n, NameOf)
      == Latest(Filter(all, HighValue) + Filter(all, Framework), n, NameOf))
  {
    var xs := Filter(all, HighValue) + Filter(all, Framework);
    UpsertAllSpec(xs, NameOf);
    UpsertAllMembers([], xs, NameOf);
    forall s | s in all && (HighValue(s) || Framework(s)) ensures s.name in Keys(Selection(all), NameOf) {
      assert s in xs;
      var i :| 0 <= i < |xs| && xs[i] == s;
      assert Keys(xs, NameOf)[i] == s.name;
    }
  }

  /** Every record of the dictionary was assigned into it or was there before. */
  lemma {:induction false} UpsertAllMembers<T, K>(es: seq<T>, xs: seq<T>, key: T -> K)
    ensures forall y :: y in UpsertAll(es, xs, key) ==> y in es || y in xs
  {
    if xs != [] {
      var init := xs[..|xs| - 1];
      UpsertAllMembers(es, init, key);
      UpsertMembers(UpsertAll(es, init, key), xs[|xs| - 1], key);
    }
  }

  /** An assignment adds its record and keeps or drops the others. */
  lemma {:induction false} UpsertMembers<T, K>(es: seq<T>, s: T, key: T -> K)
    ensures forall y :: y in Upsert(es, s, key) ==> y in es || y == s
  {
    if es != [] && key(es[0]) != key(s) {
      UpsertMembers(es[1..], s, key);
    }
  }

  /** `sorted(skills, key=hot_score, reverse=True)[:8]` for the skills of category `c`, in selection order. */
  function Top(sel: seq<Skill>, c: string): seq<Skill>
  {
    Take(SortDesc(Filter(sel, InCategory(c)), Hot()), PerCategory)
  }

  /** A category's top list holds eight of its skills, or all of them when it has fewer, hottest first. */
  lemma TopSpec(sel: seq<Skill>, c: string)
    ensures |Top(sel, c)| == Min(PerCategory, |Filter(sel, InCategory(c))|)
    ensures forall t :: t in Top(sel, c) ==> t in sel && t.category == c
    ensures SortedDesc(Top(sel, c), Hot())
  {
    var members := Filter(sel, InCategory(c));
    var sorted := SortDesc(members, Hot());
    assert |sorted| == |multiset(sorted)| == |members|;
    forall t | t in Top(sel, c) ensures t in sel && t.category == c {
      assert t in multiset(sorted);
    }
  }

  /** No skill of the category left out of its top list is hotter than one taken. */
  lemma TopHottest(sel: seq<Skill>, c: string, m: Skill, t: Skill)
    requires m in sel && m.category == c
    requires m !in Top(sel, c) && t in Top(sel, c)
    ensures t.hotScore >= m.hotScore
  {
    var members := Filter(sel, InCategory(c));
    var sorted := SortDesc(members, Hot());
    var top := Top(sel, c);
    assert m in multiset(sorted);
    var j :| 0 <= j < |sorted| && sorted[j] == m;
    var i :| 0 <= i < |top| && top[i] == t;
    assert forall q :: 0 <= q < |top| ==> sorted[q] != m by {
      forall q | 0 <= q < |top| ensures sorted[q] != m {
        assert top[q] == sorted[q] && top[q] in top;
      }
    }
    assert Hot()(sorted[i]) >= Hot()(sorted[j]);
  }

  /** The names of the category lists for `cats`, one category after another. */
  function CategoryKeywords(sel: seq<Skill>, cats: seq<string>): seq<string>
  {
    if cats == [] then []
    else CategoryKeywords(sel, cats[..|cats| - 1]) + Keys(Top(sel, cats[|cats| - 1]), NameOf)
  }

  /** The categories of the selection, sorted. */
  function Categories(sel: seq<Skill>): (r: seq<string>)
    ensures StrictlySorted(r)
    ensures forall c :: c in r <==> c in Keys(sel, CategoryOf)
  {
    SortedSet(Keys(sel, CategoryOf))
  }

  /** `final_keywords` */
  function AllKeywords(data: Taxonomy): seq<string>
  {
    var sel := Selection(FlattenSkills(data));
    CategoryKeywords(sel, Categories(sel)) + JobTypes
  }

  /** The category part names selected skills of those categories, at most eight per category. */
  lemma {:induction false} CategoryKeywordsSpec(sel: seq<Skill>, cats: seq<string>)
    ensures |CategoryKeywords(sel, cats)| <= PerCategory * |cats|
    ensures forall k :: k in CategoryKeywords(sel, cats) ==>
      exists s :: s in sel && s.name == k && s.category in cats
  {
    if cats != [] {
      var init, c := cats[..|cats| - 1], cats[|cats| - 1];
      CategoryKeywordsSpec(sel, init);
      TopSpec(sel, c);
      var top := Top(sel, c);
      forall k | k in CategoryKeywords(sel, cats) ensures exists s :: s in sel && s.name == k && s.category in cats {
        if k in CategoryKeywords(sel, init) {
          var s :| s in sel && s.name == k && s.category in init;
          assert s.category in cats;
        } else {
          var i :| 0 <= i < |top| && Keys(top, NameOf)[i] == k;
          assert top[i] in top;
        }
      }
    }
  }

  /** The keyword list is the category part followed by the twelve job types, at most eight names per category. */
  lemma AllKeywordsShape(data: Taxonomy)
    ensures var sel := Selection(FlattenSkills(data));
      var all := AllKeywords(data);
      && |all| <= PerCategory * |Categories(sel)| + |JobTypes|
      && |all| >= |JobTypes|
      && all[|all| - |JobTypes|..] == JobTypes
  {
    var sel := Selection(FlattenSkills(data));
    var ck := CategoryKeywords(sel, Categories(sel));
    CategoryKeywordsSpec(sel, Categories(sel));
    assert AllKeywords(data) == ck + JobTypes;
    assert (ck + JobTypes)[|ck|..] == JobTypes;
  }

  /** Every keyword before the job types names a high-value or framework skill of the taxonomy. */
  lemma AllKeywordsNames(data: Taxonomy, i: nat)
    requires i < |AllKeywords(data)| - |JobTypes|
    ensures exists s :: s in FlattenSkills(data) && s.name == AllKeywords(data)[i] && (HighValue(s) || Framework(s))
  {
    var sel := Selection(FlattenSkills(data));
    var ck := CategoryKeywords(sel, Categories(sel));
    assert AllKeywords(data) == ck + JobTypes;
    CategoryKeywordsSpec(sel, Categories(sel));
    SelectionSpec(FlattenSkills(data));
    assert AllKeywords(data)[i] == ck[i];
    assert ck[i] in ck;
    var s :| s in sel && s.name == ck[i] && s.category in Categories(sel);
    assert s in FlattenSkills(data) && (HighValue(s) || Framework(s));
  }

  /** The output file's content. */
  datatype CrawlPlan = CrawlPlan(skillKeywords: seq<string>, jobTypeKeywords: seq<string>, allKeywords: seq<string>,
                                 cities: seq<string>, estimatedTotal: nat, estimatedAfterDedup: nat)

  function NotJobType(): string -> bool
  {
    (k: string) => k !in JobTypes
  }

  /** `final_keywords.append(...)` for each of `xs`. */
  method AppendEach(acc: seq<string>, xs: seq<string>) returns (r: seq<string>)
    ensures r == acc + xs
  {
    r := acc;
    var j := 0;
    while j < |xs|
      invariant 0 <= j <= |xs|
      invariant r == acc + xs[..j]
    {
      assert xs[..j + 1] == xs[..j] + [xs[j]];
      r := r + [xs[j]];
      j := j + 1;
    }
    assert xs[..j] == xs;
  }

  /** `groups` is `keywords_by_category` after the skills `xs`. */
  ghost predicate Grouped(groups: map<string, seq<Skill>>, xs: seq<Skill>)
  {
    && (forall c :: c in groups <==> c in Keys(xs, CategoryOf))
    && (forall c :: c in groups ==> groups[c] == Filter(xs, InCategory(c)))
  }

  /** `keywords_by_category`: each category of the selection with its skills in selection order. */
  method GroupByCategory(sel: seq<Skill>) returns (groups: map<string, seq<Skill>>)
    ensures Grouped(groups, sel)
  {
    groups := map[];
    var i := 0;
    while i < |sel|
      invariant 0 <= i <= |sel|
      invariant Grouped(groups, sel[..i])
    {
      var before := groups;
      groups := AddToGroup(groups, sel[i]);
      GroupStep(sel, i, before, groups);
      i := i + 1;
    }
    assert sel[..i] == sel;
  }

  /** The loop body: open the category's list when it is new, then append the skill. */
  method AddToGroup(groups: map<string, seq<Skill>>, skill: Skill) returns (groups': map<string, seq<Skill>>)
    ensures groups' == groups[skill.category :=
      (if skill.category in groups then groups[skill.category] else []) + [skill]]
  {
    groups' := groups;
    if skill.category !in groups' {
      groups' := groups'[skill.category := []];
    }
    groups' := groups'[skill.category := groups'[skill.category] + [skill]];
  }

  /** One more skill keeps the grouping invariant. */
  lemma GroupStep(sel: seq<Skill>, i: nat, groups: map<string, seq<Skill>>, groups': map<string, seq<Skill>>)
    requires i < |sel| && Grouped(groups, sel[..i])
    requires groups' == groups[sel[i].category :=
      (if sel[i].category in groups then groups[sel[i].category] else []) + [sel[i]]]
    ensures Grouped(groups', sel[..i + 1])
  {
    var xs, x := sel[..i], sel[i];
    assert sel[..i + 1] == xs + [x];
    KeysStep(xs, x, CategoryOf);
    forall c | c in groups' ensures groups'[c] == Filter(xs + [x], InCategory(c)) {
      GroupEntryStep(xs, x, groups, groups', c);
    }
  }

  /** One more skill: the entry of category `c`. */
  lemma GroupEntryStep(xs: seq<Skill>, x: Skill, groups: map<string, seq<Skill>>, groups': map<string, seq<Skill>>, c: string)
    requires Grouped(groups, xs) && c in groups'
    requires groups' == groups[x.category := (if x.category in groups then groups[x.category] else []) + [x]]
    ensures groups'[c] == Filter(xs + [x], InCategory(c))
  {
    FilterConcat(xs, [x], InCategory(c));
    if c == x.category && c !in groups {
      NoneOfCategory(xs, c);
    }
  }

  /** A category no skill of `xs` has keeps none of them. */
  lemma NoneOfCategory(xs: seq<Skill>, c: string)
    requires c !in Keys(xs, CategoryOf)
    ensures Filter(xs, InCategory(c)) == []
  {
  }

  /** The category part of the list: each category's top names, in the order of `cats`. */
  method CategoryPart(sel: seq<Skill>, groups: map<string, seq<Skill>>, cats: seq<string>) returns (names: seq<string>)
    requires Grouped(groups, sel)
    requires forall c :: c in cats ==> c in Keys(sel, CategoryOf)
    ensures names == CategoryKeywords(sel, cats)
  {
    names := [];
    var k := 0;
    while k < |cats|
      invariant 0 <= k <= |cats|
      invariant names == CategoryKeywords(sel, cats[..k])
    {
      var c := cats[k];
      var top := Take(SortDesc(groups[c], Hot()), PerCategory);
      CategoryStep(sel, groups, cats, k);
      names := AppendEach(names, Keys(top, NameOf));
      k := k + 1;
    }
    assert cats[..k] == cats;
  }

  /** One more category for the loop of `CategoryPart`. */
  lemma CategoryStep(sel: seq<Skill>, groups: map<string, seq<Skill>>, cats: seq<string>, k: nat)
    requires Grouped(groups, sel) && k < |cats| && cats[k] in Keys(sel, CategoryOf)
    ensures cats[k] in groups
    ensures CategoryKeywords(sel, cats[..k + 1])
      == CategoryKeywords(sel, cats[..k]) + Keys(Take(SortDesc(groups[cats[k]], Hot()), PerCategory), NameOf)
  {
    assert cats[..k + 1][..k] == cats[..k];
    assert groups[cats[k]] == Filter(sel, InCategory(cats[k]));
  }

  /** `generate_crawl_keywords` */
  method GenerateCrawlKeywords(data: Taxonomy) returns (plan: CrawlPlan)
    ensures plan.allKeywords == AllKeywords(data)
    ensures plan.skillKeywords == Filter(plan.allKeywords, NotJobType())
    ensures plan.jobTypeKeywords == JobTypes && plan.cities == CrawlCities
    ensures plan.estimatedTotal == PerKeyword * |plan.allKeywords|
    ensures plan.estimatedAfterDedup == PerKeyword * |plan.allKeywords| * 3 / 5
  {
    var selected := Selection(FlattenSkills(data));
    var groups := GroupByCategory(selected);
    var final := CategoryPart(selected, groups, Categories(selected));
    final := AppendEach(final, JobTypes);
    plan := CrawlPlan(Filter(final, NotJobType()), JobTypes, final, CrawlCities,
                      PerKeyword * |final|, PerKeyword * |final| * 3 / 5);
  }
}
