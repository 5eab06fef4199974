/**
 * The skill taxonomy: a dictionary from category keys ("01_编程语言") to
 * skill entries, flattened into one list that every query walks in order.
 */
module SkillDictionary {
  import opened Wrappers
  import opened Text
  import opened Order

  /** A taxonomy entry as stored under its category key. */
  datatype RawSkill = RawSkill(name: string, level: Option<string>, aliases: seq<string>, hotScore: int)

  /** A flattened entry: the raw entry plus the category name derived from its key. */
  datatype Skill = Skill(name: string, category: string, level: Option<string>, aliases: seq<string>, hotScore: int)

  /** The taxonomy file's categories, in file order. */
  type Taxonomy = seq<(string, seq<RawSkill>)>

  /** The category name of a key: its second `_`-separated segment, or the whole key without `_`. */
  function CategoryName(key: string): (r: string)
    ensures '_' !in r
    ensures '_' !in key ==> r == key
  {
    if '_' in key then Split(key, '_')[1] else key
  }

  /** With a `_`, the name is what follows the first `_`, up to the next `_` or the end. */
  lemma CategoryNameAfterFirst(key: string)
    requires '_' in key
    ensures exists i :: (0 <= i < |key| && key[i] == '_' && '_' !in key[..i]
      && var r := CategoryName(key);
         IsPrefix(r, key[i + 1..]) && (i + 1 + |r| == |key| || key[i + 1 + |r|] == '_'))
  {
    SplitHead(key, '_');
    var h := Split(key, '_')[0];
    var rest := key[|h| + 1..];
    SplitHead(rest, '_');
    assert CategoryName(key) == Split(rest, '_')[0];
    assert key[..|h|] == h;
    var r := CategoryName(key);
    if |r| < |rest| {
      assert key[|h| + 1 + |r|] == rest[|r|];
    }
  }

  /** `skill_info.copy()` with its category set. */
  function Tagged(list: seq<RawSkill>, category: string): (r: seq<Skill>)
    ensures |r| == |list|
  {
    seq(|list|, i requires 0 <= i < |list| =>
      Skill(list[i].name, category, list[i].level, list[i].aliases, list[i].hotScore))
  }

  /** `flatten_skills`: every category's entries in file order, each tagged with its category name. */
  function FlattenSkills(data: Taxonomy): (r: seq<Skill>)
  {
    if data == [] then []
    else
      var last := data[|data| - 1];
      FlattenSkills(data[..|data| - 1]) + Tagged(last.1, CategoryName(last.0))
  }

  /** The number of entries in each category. */
  function Sizes(data: Taxonomy): (r: seq<nat>)
    ensures |r| == |data|
  {
    seq(|data|, i requires 0 <= i < |data| => |data[i].1|)
  }

  /** One flattened entry per taxonomy entry, and each carries its own category's name. */
  lemma {:induction false} FlattenSkillsSpec(data: Taxonomy)
    ensures |FlattenSkills(data)| == Sum(Sizes(data))
    ensures forall s :: s in FlattenSkills(data) ==>
      exists i, j :: (0 <= i < |data| && 0 <= j < |data[i].1| && s.name == data[i].1[j].name
        && s.category == CategoryName(data[i].0) && s.hotScore == data[i].1[j].hotScore)
  {
    if data != [] {
      var init := data[..|data| - 1];
      var last := data[|data| - 1];
      FlattenSkillsSpec(init);
      assert Sizes(data) == Sizes(init) + [|last.1|];
      SumConcat(Sizes(init), [|last.1|]);
      assert Sum([|last.1|]) == |last.1|;
      forall s | s in FlattenSkills(data)
        ensures exists i, j :: (0 <= i < |data| && 0 <= j < |data[i].1| && s.name == data[i].1[j].name
          && s.category == CategoryName(data[i].0) && s.hotScore == data[i].1[j].hotScore)
      {
        if s in FlattenSkills(init) {
          var i, j :| 0 <= i < |init| && 0 <= j < |init[i].1| && s.name == init[i].1[j].name
            && s.category == CategoryName(init[i].0) && s.hotScore == init[i].1[j].hotScore;
          assert data[i] == init[i];
        } else {
          var t := Tagged(last.1, CategoryName(last.0));
          assert s in t;
          var j :| 0 <= j < |t| && t[j] == s;
          assert data[|data| - 1] == last;
        }
      }
    }
  }

  /** Entry filters, as function values so that every member names the same one. */
  function InCategory(category: string): Skill -> bool { (s: Skill) => s.category == category }
  function AtLevel(level: string): Skill -> bool { (s: Skill) => s.level == Some(level) }
  function HotAtLeast(minScore: int): Skill -> bool { (s: Skill) => s.hotScore >= minScore }
  function SearchHitOf(keyword: string): Skill -> bool { (s: Skill) => SearchHit(keyword, s) }
  function AliasHitOf(text: string): Skill -> bool { (s: Skill) => AliasHit(text, s) }
  function CategoryOf(): Skill -> string { (s: Skill) => s.category }

  /** `get_skills_by_category`: exactly the entries of that category, in order. */
  function ByCategory(all: seq<Skill>, category: string): (r: seq<Skill>)
    ensures forall s :: s in r <==> s in all && s.category == category
    ensures |r| == Count(all, InCategory(category))
  {
    CountFilter(all, InCategory(category));
    Filter(all, InCategory(category))
  }

  /** `get_skills_by_level`: an entry without a level matches no level. */
  function ByLevel(all: seq<Skill>, level: string): (r: seq<Skill>)
    ensures forall s :: s in r <==> s in all && s.level == Some(level)
    ensures |r| == Count(all, AtLevel(level))
  {
    CountFilter(all, AtLevel(level));
    Filter(all, AtLevel(level))
  }

  /** `get_skills_by_hot_score`: the entries at or above `minScore`, hottest first. */
  function ByHotScore(all: seq<Skill>, minScore: int): (r: seq<Skill>)
    ensures forall s :: s in r <==> s in all && s.hotScore >= minScore
    ensures SortedDesc(r, (s: Skill) => s.hotScore as real)
    ensures |r| == Count(all, HotAtLeast(minScore))
  {
    var kept := Filter(all, HotAtLeast(minScore));
    CountFilter(all, HotAtLeast(minScore));
    var r := SortDesc(kept, (s: Skill) => s.hotScore as real);
    assert forall s :: s in r <==> s in multiset(kept);
    assert forall s :: s in kept <==> s in all && s.hotScore >= minScore;
    r
  }

  /** The keyword occurs, ignoring case, in the name or in some alias. */
  predicate SearchHit(keyword: string, s: Skill)
  {
    Contains(Lower(s.name), Lower(keyword))
    || exists a :: a in s.aliases && Contains(Lower(a), Lower(keyword))
  }

  /** `search_skill`: a name hit skips the alias test, so an entry is listed at most once. */
  function SearchSkill(all: seq<Skill>, keyword: string): (r: seq<Skill>)
    ensures forall s :: s in r <==> s in all && SearchHit(keyword, s)
    ensures |r| == Count(all, SearchHitOf(keyword))
    ensures NoDup(all) ==> NoDup(r)
  {
    var r := Filter(all, SearchHitOf(keyword));
    CountFilter(all, SearchHitOf(keyword));
    FilterNoDup(all, SearchHitOf(keyword));
    r
  }

  /** `get_skill_by_name`: the first entry whose name equals `name` ignoring case. */
  function SkillByName(all: seq<Skill>, name: string): (r: Option<Skill>)
    ensures r.None? <==> forall i :: 0 <= i < |all| ==> Lower(all[i].name) != Lower(name)
    ensures r.Some? ==> exists i :: (0 <= i < |all| && all[i] == r.value && Lower(all[i].name) == Lower(name)
      && forall j :: 0 <= j < i ==> Lower(all[j].name) != Lower(name))
  {
    Find(all, (s: Skill) => Lower(s.name) == Lower(name))
  }

  /** The text equals the name or one alias, ignoring case. */
  predicate AliasHit(text: string, s: Skill)
  {
    Lower(s.name) == Lower(text) || exists a :: a in s.aliases && Lower(a) == Lower(text)
  }

  /** `match_skill_by_alias`: exact case-insensitive equality only, never containment. */
  function MatchByAlias(all: seq<Skill>, text: string): (r: seq<Skill>)
    ensures forall s :: s in r <==> s in all && AliasHit(text, s)
    ensures |r| == Count(all, AliasHitOf(text))
  {
    CountFilter(all, AliasHitOf(text));
    Filter(all, AliasHitOf(text))
  }

  /** A match by alias is also a search hit for the same text. */
  lemma AliasHitIsSearchHit(text: string, s: Skill)
    requires AliasHit(text, s)
    ensures SearchHit(text, s)
  {
    if Lower(s.name) == Lower(text) {
      ContainsSelf(Lower(text));
    } else {
      var a :| a in s.aliases && Lower(a) == Lower(text);
      ContainsSelf(Lower(text));
    }
  }

  /** `get_statistics` without the average: entry count, category and level counters, and hot entries. */
  datatype Statistics = Statistics(
    totalSkills: nat, categories: map<string, nat>, levels: map<string, nat>, hotSkillsCount: nat)

  /** The level counted for an entry, `unknown` when it has none. */
  function LevelName(s: Skill): string
  {
    if s.level.Some? then s.level.value else "unknown"
  }

  /** The hot-skill threshold of the statistics. */
  const HotThreshold := 80

  /**
   * `get_statistics`: the average hot score divides by the number of
   * entries, so an empty dictionary raises; that is the failure here.
   */
  function GetStatistics(all: seq<Skill>): (r: Outcome<Statistics>)
    ensures r.Failure? <==> all == []
    ensures r.Success? ==> (r.value.totalSkills == |all|
      && r.value.hotSkillsCount == Count(all, HotAtLeast(HotThreshold)))
  {
    if all == [] then Failure
    else Success(Statistics(|all|, CountBy(all, CategoryOf()),
      CountBy(all, LevelName), Count(all, HotAtLeast(HotThreshold))))
  }

  /** Each category counter holds the number of entries of that category, and only used categories appear. */
  lemma StatisticsCategories(all: seq<Skill>, category: string)
    requires all != []
    ensures var st := GetStatistics(all).value;
      (category in st.categories <==> exists i :: 0 <= i < |all| && all[i].category == category)
      && (category in st.categories ==> st.categories[category] == |ByCategory(all, category)|)
  {
    CountBySpec(all, CategoryOf(), category, InCategory(category));
  }
}
