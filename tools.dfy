/**
 * The agent's tools (src/agent/tools.py): dictionary skill extraction, the
 * graph-then-vector fallback of the direct search and recommendation paths,
 * and the input parsing and set arithmetic of the skill-gap tool. Neo4j and
 * the RAG service are oracles: the rows they return, or `Failure` for an
 * exception.
 */
module AgentTools {
  import opened Wrappers
  import opened Text
  import opened Order
  import opened ApiTypes
  import opened Ranking
  import ApiSearch
  import ApiGap

  /** `_SKILLS_DICT`, as (lower-case key, canonical name) pairs in source order. */
  const SkillsDict: seq<(string, string)> := [
    ("python", "Python"), ("java", "Java"), ("go", "Go"), ("golang", "Go"),
    ("c++", "C++"), ("c#", "C#"), ("rust", "Rust"), ("kotlin", "Kotlin"), ("swift", "Swift"),
    ("vue", "Vue"), ("vue.js", "Vue"), ("react", "React"), ("angular", "Angular"),
    ("node", "Node.js"), ("node.js", "Node.js"), ("nodejs", "Node.js"),
    ("typescript", "TypeScript"), ("ts", "TypeScript"),
    ("javascript", "JavaScript"), ("js", "JavaScript"),
    ("html", "HTML"), ("css", "CSS"), ("sass", "Sass"),
    ("spring", "Spring"), ("spring boot", "Spring Boot"), ("springboot", "Spring Boot"),
    ("django", "Django"), ("flask", "Flask"), ("fastapi", "FastAPI"),
    ("docker", "Docker"), ("k8s", "Kubernetes"), ("kubernetes", "Kubernetes"),
    ("mysql", "MySQL"), ("redis", "Redis"), ("mongodb", "MongoDB"),
    ("postgresql", "PostgreSQL"), ("postgres", "PostgreSQL"),
    ("elasticsearch", "Elasticsearch"), ("kafka", "Kafka"), ("rabbitmq", "RabbitMQ"),
    ("nginx", "Nginx"), ("linux", "Linux"), ("git", "Git"),
    ("aws", "AWS"), ("azure", "Azure"), ("gcp", "GCP"),
    ("tensorflow", "TensorFlow"), ("pytorch", "PyTorch"),
    ("前端", "前端开发"), ("后端", "后端开发"), ("全栈", "全栈开发"),
    ("运维", "运维"), ("算法", "算法"), ("devops", "DevOps")]

  function KeyLength(e: (string, string)): real { |e.0| as real }

  /** `sorted(dict, key=len, reverse=True)`: longest keys first, ties in dictionary order. */
  function LongestFirst(dict: seq<(string, string)>): (r: seq<(string, string)>)
    ensures multiset(r) == multiset(dict)
    ensures SortedDesc(r, KeyLength)
  {
    SortDesc(dict, KeyLength)
  }

  function NameOf(e: (string, string)): string { e.1 }

  /** The canonical names of the entries whose key occurs in `lowered`, in entry order, first occurrences only. */
  function Extracted(entries: seq<(string, string)>, lowered: string): seq<string>
  {
    Dedup(Keys(Filter(entries, (e: (string, string)) => Contains(lowered, e.0)), NameOf))
  }

  /** No name twice, and a name appears exactly when one of its keys occurs. */
  lemma ExtractedMembers(entries: seq<(string, string)>, lowered: string)
    ensures NoDup(Extracted(entries, lowered))
    ensures forall v :: v in Extracted(entries, lowered) <==> exists e :: e in entries && Contains(lowered, e.0) && e.1 == v
  {
    var hits := Filter(entries, (e: (string, string)) => Contains(lowered, e.0));
    var names := Keys(hits, NameOf);
    forall v ensures v in names <==> exists e :: e in entries && Contains(lowered, e.0) && e.1 == v {
      if v in names {
        var i :| 0 <= i < |names| && names[i] == v;
        assert hits[i] in hits;
      }
      if exists e :: e in entries && Contains(lowered, e.0) && e.1 == v {
        var e :| e in entries && Contains(lowered, e.0) && e.1 == v;
        assert e in hits;
        var i :| 0 <= i < |hits| && hits[i] == e;
        assert names[i] == v;
      }
    }
  }

  /** `_extract_skills` over a dictionary: the specification of `ExtractSkills`. */
  function SkillsIn(dict: seq<(string, string)>, text: string): seq<string>
  {
    Extracted(LongestFirst(dict), Lower(text))
  }

  /** A skill is found exactly when one of its dictionary keys occurs in the lower-cased text. */
  lemma SkillsInSpec(dict: seq<(string, string)>, text: string)
    ensures NoDup(SkillsIn(dict, text))
    ensures forall v :: v in SkillsIn(dict, text) <==> exists e :: e in dict && Contains(Lower(text), e.0) && e.1 == v
  {
    var keys := LongestFirst(dict);
    SameElements(keys, dict);
    ExtractedMembers(keys, Lower(text));
  }

  lemma SameElements<T>(a: seq<T>, b: seq<T>)
    requires multiset(a) == multiset(b)
    ensures forall e :: e in a <==> e in b
  {
    forall e ensures e in a <==> e in b {
      assert e in a <==> e in multiset(a);
      assert e in b <==> e in multiset(b);
    }
  }

  /** `entries[q]` is a key that occurs in `lowered` and names `v`. */
  predicate HitAt(entries: seq<(string, string)>, lowered: string, q: int, v: string)
  {
    0 <= q < |entries| && Contains(lowered, entries[q].0) && entries[q].1 == v
  }

  /** Some key before position `q` occurs in `lowered` and names `v`. */
  predicate HitBefore(entries: seq<(string, string)>, lowered: string, q: int, v: string)
  {
    exists p :: 0 <= p < q && HitAt(entries, lowered, p, v)
  }

  /** Every hit of a later name is preceded by a hit of each earlier one. */
  ghost predicate HitsInOrder(entries: seq<(string, string)>, lowered: string)
  {
    forall i, j, q :: 0 <= i < j < |Extracted(entries, lowered)| && HitAt(entries, lowered, q, Extracted(entries, lowered)[j])
      ==> HitBefore(entries, lowered, q, Extracted(entries, lowered)[i])
  }

  /** The names come out in the order of their first hits. */
  lemma {:induction false} ExtractedOrder(entries: seq<(string, string)>, lowered: string)
    ensures HitsInOrder(entries, lowered)
  {
    if entries != [] {
      var init := entries[..|entries| - 1];
      var e := entries[|entries| - 1];
      assert entries == init + [e];
      ExtractedOrder(init, lowered);
      var r := Extracted(entries, lowered);
      forall i, j, q | 0 <= i < j < |r| && HitAt(entries, lowered, q, r[j])
        ensures HitBefore(entries, lowered, q, r[i])
      {
        if q < |init| {
          HitsInOrderOld(init, e, lowered, i, j, q);
        } else {
          HitsInOrderNew(init, e, lowered, i, j);
        }
      }
    } else {
      assert Extracted(entries, lowered) == [];
    }
  }

  /** A hit among the earlier entries keeps its predecessors when one entry is appended. */
  lemma HitsInOrderOld(init: seq<(string, string)>, e: (string, string), lowered: string, i: int, j: int, q: int)
    requires HitsInOrder(init, lowered)
    requires 0 <= i < j < |Extracted(init + [e], lowered)| && q < |init|
    requires HitAt(init + [e], lowered, q, Extracted(init + [e], lowered)[j])
    ensures HitBefore(init + [e], lowered, q, Extracted(init + [e], lowered)[i])
  {
    var f := Extracted(init, lowered);
    var r := Extracted(init + [e], lowered);
    ExtractedStep(init, e, lowered);
    ExtractedMembers(init, lowered);
    assert (init + [e])[q] == init[q] && init[q] in init;
    assert HitAt(init, lowered, q, r[j]);
    assert j < |f| && r[j] == f[j] && r[i] == f[i];
    var p :| 0 <= p < q && HitAt(init, lowered, p, f[i]);
    assert (init + [e])[p] == init[p];
    assert HitAt(init + [e], lowered, p, r[i]);
  }

  /** A hit at the appended entry is preceded by a hit of every name listed before it. */
  lemma HitsInOrderNew(init: seq<(string, string)>, e: (string, string), lowered: string, i: int, j: int)
    requires 0 <= i < j < |Extracted(init + [e], lowered)|
    ensures HitBefore(init + [e], lowered, |init|, Extracted(init + [e], lowered)[i])
  {
    var f := Extracted(init, lowered);
    var r := Extracted(init + [e], lowered);
    ExtractedStep(init, e, lowered);
    ExtractedMembers(init, lowered);
    assert i < |f| && r[i] == f[i] && f[i] in f;
    var h :| h in init && Contains(lowered, h.0) && h.1 == f[i];
    var p :| 0 <= p < |init| && init[p] == h;
    assert (init + [e])[p] == init[p];
    assert HitAt(init + [e], lowered, p, r[i]);
  }

  /**
   * Keys are tried longest first, so the output order follows key length:
   * for any key that finds a later skill, an earlier skill has a key found
   * in the text that is at least as long.
   */
  lemma SkillsInByLength(dict: seq<(string, string)>, text: string)
    ensures forall i, j, e2 :: 0 <= i < j < |SkillsIn(dict, text)| && e2 in dict && Contains(Lower(text), e2.0)
              && e2.1 == SkillsIn(dict, text)[j]
              ==> exists e1 :: e1 in dict && Contains(Lower(text), e1.0) && e1.1 == SkillsIn(dict, text)[i] && |e1.0| >= |e2.0|
  {
    var keys := LongestFirst(dict);
    var lowered := Lower(text);
    var r := SkillsIn(dict, text);
    SameElements(keys, dict);
    ExtractedOrder(keys, lowered);
    assert HitsInOrder(keys, lowered);
    forall i, j, e2 | 0 <= i < j < |r| && e2 in dict && Contains(lowered, e2.0) && e2.1 == r[j]
      ensures exists e1 :: e1 in dict && Contains(lowered, e1.0) && e1.1 == r[i] && |e1.0| >= |e2.0|
    {
      var q :| 0 <= q < |keys| && keys[q] == e2;
      assert HitAt(keys, lowered, q, r[j]);
      assert HitBefore(keys, lowered, q, r[i]);
      var p :| 0 <= p < q && HitAt(keys, lowered, p, r[i]);
      assert KeyLength(keys[p]) >= KeyLength(keys[q]);
      assert keys[p] in keys;
    }
  }

  /** Keys of equal length keep their dictionary order in `LongestFirst`. */
  lemma LongestFirstStable(dict: seq<(string, string)>, n: nat)
    ensures Filter(LongestFirst(dict), WithKey(KeyLength, n as real)) == Filter(dict, WithKey(KeyLength, n as real))
  {
    SortDescStable(dict, KeyLength, n as real);
  }

  /** `_extract_skills` */
  method ExtractSkills(text: string) returns (found: seq<string>)
    ensures found == SkillsIn(SkillsDict, text)
  {
    found := ExtractWith(SkillsDict, text);
  }

  /** `_extract_skills` over any dictionary: the helper `ExtractSkills` runs on the module's dictionary. */
  method ExtractWith(dict: seq<(string, string)>, text: string) returns (found: seq<string>)
    ensures found == SkillsIn(dict, text)
  {
    found := ExtractFrom(LongestFirst(dict), Lower(text));
  }

  /**
   * The loop of `_extract_skills`: walks the entries in order and appends
   * the canonical name of each key that occurs, unless it is already there.
   */
  method ExtractFrom(keys: seq<(string, string)>, lowered: string) returns (found: seq<string>)
    ensures found == Extracted(keys, lowered)
  {
    found := [];
    var i := 0;
    while i < |keys|
      invariant 0 <= i <= |keys|
      invariant found == Extracted(keys[..i], lowered)
    {
      var e := keys[i];
      ExtractedPrefix(keys, i, lowered);
      if Contains(lowered, e.0) && e.1 !in found {
        found := found + [e.1];
      }
      i := i + 1;
    }
    assert keys[..i] == keys;
  }

  /** `ExtractedStep` on a prefix of the entries. */
  lemma ExtractedPrefix(keys: seq<(string, string)>, i: nat, lowered: string)
    requires i < |keys|
    ensures Extracted(keys[..i + 1], lowered)
      == Extracted(keys[..i], lowered)
         + (if Contains(lowered, keys[i].0) && keys[i].1 !in Extracted(keys[..i], lowered) then [keys[i].1] else [])
  {
    assert keys[..i + 1] == keys[..i] + [keys[i]];
    ExtractedStep(keys[..i], keys[i], lowered);
  }

  /** Extending the entries by one appends its name exactly when it matches and is new. */
  lemma ExtractedStep(entries: seq<(string, string)>, e: (string, string), lowered: string)
    ensures Extracted(entries + [e], lowered)
      == Extracted(entries, lowered) + (if Contains(lowered, e.0) && e.1 !in Extracted(entries, lowered) then [e.1] else [])
  {
    var p := (x: (string, string)) => Contains(lowered, x.0);
    FilterConcat(entries, [e], p);
    assert Filter([e], p) == (if p(e) then [e] else []) by {
      assert Filter([e], p) == (if p(e) then [e] else []) + Filter([e][1..], p);
      assert [e][1..] == [];
    }
    var hits := Filter(entries, p);
    var hits2 := Filter(entries + [e], p);
    if p(e) {
      var names := Keys(hits, NameOf);
      assert Keys(hits2, NameOf) == names + [e.1];
      assert (names + [e.1])[..|names|] == names;
      assert e.1 in Dedup(names) <==> e.1 in names;
    } else {
      assert hits2 == hits;
    }
  }

  /** `city.strip() if city and city.strip() else None` */
  function CityValue(city: string): (r: Option<string>)
    ensures r.None? <==> forall i :: 0 <= i < |city| ==> IsSpace(city[i])
    ensures r.Some? ==> r.value == Strip(city) && r.value != ""
  {
    var s := Strip(city);
    StripEmpty(city);
    if s != "" then Some(s) else None
  }

  /** Stripping leaves nothing exactly when the text is all whitespace. */
  lemma StripEmpty(s: string)
    ensures Strip(s) == "" <==> forall i :: 0 <= i < |s| ==> IsSpace(s[i])
  {
    var l := TrimLeft(s);
    if l != [] {
      assert !IsSpace(l[0]);
      assert s[|s| - |l|] == l[0];
      assert TrimRight(l) != [];
    }
  }

  /**
   * The title keywords of the direct search when no skill is recognised:
   * up to three comma/space tokens of two or more characters, else the
   * first fifteen characters of the query; quotes removed.
   */
  function DirectTitleKeywords(query: string): (r: seq<string>)
    ensures 1 <= |r| <= 3
    ensures forall w :: w in r ==> '\'' !in w
    ensures ApiSearch.LongWords(query) == [] ==> r == [RemoveChar(Take(query, 15), '\'')]
    ensures ApiSearch.LongWords(query) != [] ==> r == ApiSearch.MapRemoveQuote(Take(ApiSearch.LongWords(query), 3))
  {
    var raw := Take(ApiSearch.LongWords(query), 3);
    var chosen := if raw == [] then [Take(query, 15)] else raw;
    ApiSearch.MapRemoveQuote(chosen)
  }

  /** The graph query of the direct search. */
  datatype JobQuery =
    | BySkills(skills: seq<string>, city: Option<string>)
    | ByTitle(keywords: seq<string>, city: Option<string>)

  /** A row of the graph query (salary bounds default to 0, experience to ""). */
  datatype GraphJob = GraphJob(title: string, company: string, city: string, smin: nat, smax: nat,
                               exp: string, matched: seq<string>, cnt: nat)

  /** A job retrieved by the RAG service; `similarity` is its similarity already written as a percentage. */
  datatype RagJob = RagJob(title: string, company: string, city: string, salaryRange: string,
                           skills: seq<string>, similarity: string)

  /** The text shown to the user and where it came from ("graph" or "rag"). */
  datatype Reply = Reply(text: string, source: string)

  const GraphMissText: string := "图谱中未找到匹配岗位，可尝试切换到 RAG 语义检索模式。"

  /** The graph is consulted unless the caller forces the vector store or Neo4j is down. */
  predicate GraphConsulted(force: string, neo4jAvailable: bool)
  {
    force != "rag" && neo4jAvailable
  }

  /** The query `search_direct` sends to Neo4j: by recognised skills, else by title keywords. */
  function SearchQueryOf(query: string, city: string, skills: seq<string>): (q: JobQuery)
    ensures q.BySkills? <==> skills != []
    ensures q.city == CityValue(city)
    ensures q.ByTitle? ==> q.keywords == DirectTitleKeywords(query)
  {
    if skills != [] then BySkills(skills, CityValue(city)) else ByTitle(DirectTitleKeywords(query), CityValue(city))
  }

  function SalaryText(j: GraphJob): string
  {
    if j.smax != 0 then NatToString(j.smin) + "-" + NatToString(j.smax) + "K" else "面议"
  }

  function CompanyText(j: GraphJob): string
  {
    if j.company != "" then j.company else "未知公司"
  }

  /** `"、".join(xs[:5])` */
  function FirstFive(xs: seq<string>): string
  {
    Join(Take(xs, 5), "、")
  }

  function SearchGraphLine(i: nat, j: GraphJob): string
  {
    var exp := if j.exp != "" then " | 经验：" + j.exp else "";
    var skills := FirstFive(j.matched);
    NatToString(i) + ". **" + j.title + "**\n"
    + "   🏢 " + CompanyText(j) + " | 📍 " + j.city + " | 💰 " + SalaryText(j) + exp + "\n"
    + "   匹配技能：" + (if skills != "" then skills else "—")
  }

  function RagTail(j: RagJob): string
  {
    var skills := FirstFive(j.skills);
    if skills != "" then "匹配技能：" + skills else "语义相似度：" + j.similarity
  }

  function SearchRagLine(i: nat, j: RagJob): string
  {
    NatToString(i) + ". **" + j.title + "**\n"
    + "   🏢 " + j.company + " | 📍 " + j.city + " | 💰 " + j.salaryRange + "\n"
    + "   " + RagTail(j)
  }

  /** `enumerate(xs, 1)` rendered line by line. */
  function Numbered<T>(xs: seq<T>, line: (nat, T) -> string): (r: seq<string>)
    ensures |r| == |xs|
    ensures forall i :: 0 <= i < |xs| ==> r[i] == line(i + 1, xs[i])
  {
    seq(|xs|, i requires 0 <= i < |xs| => line(i + 1, xs[i]))
  }

  /**
   * `search_direct`. `graphRows` is what the Neo4j query returned (it is
   * only sent when `GraphConsulted`); `ragJobs` what the RAG search returned.
   */
  function SearchDirect(query: string, city: string, force: string, neo4jAvailable: bool,
                        graphRows: Outcome<seq<GraphJob>>, ragJobs: seq<RagJob>): Reply
  {
    var cityVal := CityValue(city);
    var rows := if GraphConsulted(force, neo4jAvailable) then RowsOrEmpty(graphRows) else [];
    if rows != [] then
      var desc := if cityVal.Some? then "（" + cityVal.value + "）" else "（全国）";
      var header := "找到 **" + NatToString(|rows|) + "** 个相关岗位 " + desc + ":\n";
      Reply(Join([header] + Numbered(rows, SearchGraphLine), "\n"), "graph")
    else if force == "graph" then Reply(GraphMissText, "graph")
    else if ragJobs == [] then Reply("未找到与「" + query + "」相关的岗位，请尝试换个关键词。", "rag")
    else
      var desc := if cityVal.Some? then "（" + cityVal.value + "）" else "";
      var header := "找到 **" + NatToString(|ragJobs|) + "** 个相关岗位" + desc + ":\n";
      Reply(Join([header] + Numbered(Take(ragJobs, 8), SearchRagLine), "\n"), "rag")
  }

  /**
   * The source is "graph" exactly when the consulted graph returned rows or
   * the caller forced the graph; a Neo4j exception counts as no rows.
   */
  lemma SearchDirectSource(query: string, city: string, force: string, neo4jAvailable: bool,
                           graphRows: Outcome<seq<GraphJob>>, ragJobs: seq<RagJob>)
    ensures var r := SearchDirect(query, city, force, neo4jAvailable, graphRows, ragJobs);
      var hit := GraphConsulted(force, neo4jAvailable) && graphRows.Success? && graphRows.value != [];
      && (r.source == "graph" <==> hit || force == "graph")
      && (r.source == "rag" <==> !hit && force != "graph")
      && (!hit && force == "graph" ==> r.text == GraphMissText)
  {
  }

  /** The RAG result only matters when the graph gave nothing and was not forced. */
  lemma SearchDirectRagFallbackOnly(query: string, city: string, force: string, neo4jAvailable: bool,
                                    graphRows: Outcome<seq<GraphJob>>, rag1: seq<RagJob>, rag2: seq<RagJob>)
    requires force == "graph" || (GraphConsulted(force, neo4jAvailable) && graphRows.Success? && graphRows.value != [])
    ensures SearchDirect(query, city, force, neo4jAvailable, graphRows, rag1)
         == SearchDirect(query, city, force, neo4jAvailable, graphRows, rag2)
  {
  }

  /** Forcing the vector store ignores whatever the graph would return. */
  lemma SearchDirectForcedRag(query: string, city: string, neo4jAvailable: bool,
                              g1: Outcome<seq<GraphJob>>, g2: Outcome<seq<GraphJob>>, ragJobs: seq<RagJob>)
    ensures SearchDirect(query, city, "rag", neo4jAvailable, g1, ragJobs)
         == SearchDirect(query, city, "rag", neo4jAvailable, g2, ragJobs)
    ensures SearchDirect(query, city, "rag", neo4jAvailable, g1, ragJobs).source == "rag"
  {
  }

  function RecommendGraphLine(i: nat, j: GraphJob): string
  {
    NatToString(i) + ". **" + j.title + "**\n"
    + "   🏢 " + CompanyText(j) + " | 📍 " + j.city + " | 💰 " + SalaryText(j) + "\n"
    + "   命中技能（" + NatToString(j.cnt) + " 个）：" + FirstFive(j.matched)
  }

  function RecommendRagLine(i: nat, j: RagJob): string
  {
    NatToString(i) + ". **" + j.title + "** | 📍 " + j.city + " | 💰 " + j.salaryRange + "\n"
    + "   " + RagTail(j)
  }

  /** `recommend_direct`: like `SearchDirect`, but the graph is skipped when no skills are given. */
  function RecommendDirect(skills: seq<string>, city: string, force: string, neo4jAvailable: bool,
                           graphRows: Outcome<seq<GraphJob>>, ragJobs: seq<RagJob>): Reply
  {
    var cityVal := CityValue(city);
    var rows := if GraphConsulted(force, neo4jAvailable) && skills != [] then RowsOrEmpty(graphRows) else [];
    if rows != [] then
      var desc := if cityVal.Some? then "（" + cityVal.value + "）" else "";
      var header := "基于您的技能（" + Join(skills, ", ") + "），推荐以下岗位" + desc + ":\n";
      Reply(Join([header] + Numbered(rows, RecommendGraphLine), "\n"), "graph")
    else if force == "graph" then Reply(GraphMissText, "graph")
    else if ragJobs == [] then Reply("未找到匹配的岗位推荐。", "rag")
    else
      Reply(Join(["基于您的技能，推荐以下岗位:\n"] + Numbered(Take(ragJobs, 8), RecommendRagLine), "\n"), "rag")
  }

  /** Without skills the graph is never used: the answer is the forced-graph miss or the RAG answer. */
  lemma RecommendDirectNoSkills(city: string, force: string, neo4jAvailable: bool,
                                g1: Outcome<seq<GraphJob>>, g2: Outcome<seq<GraphJob>>, ragJobs: seq<RagJob>)
    ensures RecommendDirect([], city, force, neo4jAvailable, g1, ragJobs)
         == RecommendDirect([], city, force, neo4jAvailable, g2, ragJobs)
    ensures RecommendDirect([], city, force, neo4jAvailable, g1, ragJobs).source == (if force == "graph" then "graph" else "rag")
  {
  }

  /** The source of a recommendation: "graph" exactly on a graph hit or a forced graph. */
  lemma RecommendDirectSource(skills: seq<string>, city: string, force: string, neo4jAvailable: bool,
                              graphRows: Outcome<seq<GraphJob>>, ragJobs: seq<RagJob>)
    ensures var r := RecommendDirect(skills, city, force, neo4jAvailable, graphRows, ragJobs);
      var hit := GraphConsulted(force, neo4jAvailable) && skills != [] && graphRows.Success? && graphRows.value != [];
      && (r.source == "graph" <==> hit || force == "graph")
      && (!hit && force == "graph" ==> r.text == GraphMissText)
      && (!hit && force != "graph" && ragJobs == [] ==> r.text == "未找到匹配的岗位推荐。")
  {
  }

  /** `[s.strip() for s in text.replace('，', ',').split(',') if s.strip()]` */
  function ParseSkillList(text: string): (r: seq<string>)
    ensures forall s :: s in r ==> s != "" && ',' !in s && '，' !in s
  {
    var pieces := Split(ReplaceChar(text, '，', ','), ',');
    var stripped := StripAll(pieces);
    forall s | s in stripped ensures ',' !in s && '，' !in s {
      var i :| 0 <= i < |stripped| && stripped[i] == s;
      assert pieces[i] in pieces;
      StripChars(pieces[i]);
      NoFullwidthComma(text, pieces[i]);
    }
    Filter(stripped, (s: string) => s != "")
  }

  /** Each piece stripped, in order. */
  function StripAll(pieces: seq<string>): (r: seq<string>)
    ensures |r| == |pieces|
    ensures forall i :: 0 <= i < |pieces| ==> r[i] == Strip(pieces[i])
  {
    seq(|pieces|, i requires 0 <= i < |pieces| => Strip(pieces[i]))
  }

  /** Stripping only removes characters. */
  lemma StripChars(s: string)
    ensures forall c :: c in Strip(s) ==> c in s
  {
    forall c | c in Strip(s) ensures c in s {
      var l := TrimLeft(s);
      var r := TrimRight(l);
      assert c in r;
      assert r == l[..|r|];
      assert l == s[|s| - |l|..];
    }
  }

  lemma NoFullwidthComma(text: string, piece: string)
    requires piece in Split(ReplaceChar(text, '，', ','), ',')
    ensures '，' !in piece
  {
    var t := ReplaceChar(text, '，', ',');
    assert '，' !in t by {
      forall i | 0 <= i < |t| ensures t[i] != '，' { }
    }
    SplitChars(t, ',', piece);
  }

  /** Every piece of a split consists of characters of the text. */
  lemma {:induction false} SplitChars(s: string, c: char, piece: string)
    requires piece in Split(s, c)
    ensures forall x :: x in piece ==> x in s
    decreases |s|
  {
    if s != [] {
      var rest := Split(s[1..], c);
      forall x | x in s[1..] ensures x in s { }
      if s[0] == c {
        if piece != [] {
          assert piece in rest;
          SplitChars(s[1..], c, piece);
        }
      } else if piece == [s[0]] + rest[0] {
        assert rest[0] in rest;
        SplitChars(s[1..], c, rest[0]);
      } else {
        assert piece in rest[1..];
        assert piece in rest;
        SplitChars(s[1..], c, piece);
      }
    }
  }

  /** Parsing a comma-joined list of clean skill names gives the list back. */
  lemma ParseJoinedSkills(skills: seq<string>)
    requires skills != []
    requires forall s :: s in skills ==> s != "" && ',' !in s && '，' !in s && Strip(s) == s
    ensures ParseSkillList(Join(skills, ",")) == skills
  {
    var text := Join(skills, ",");
    JoinedNoFullwidth(skills);
    ReplaceAbsent(text, '，', ',');
    SplitJoin(skills, ',');
    assert StripAll(skills) == skills by {
      forall i | 0 <= i < |skills| ensures StripAll(skills)[i] == skills[i] {
        assert skills[i] in skills;
      }
    }
    FilterAll(skills, (s: string) => s != "");
  }

  /** Names without a full-width comma, joined by `,`, have none either. */
  lemma JoinedNoFullwidth(skills: seq<string>)
    requires forall s :: s in skills ==> '，' !in s
    ensures '，' !in Join(skills, ",")
  {
    JoinChars(skills, ",");
  }

  /** Replacing a character that does not occur changes nothing. */
  lemma ReplaceAbsent(text: string, a: char, b: char)
    requires a !in text
    ensures ReplaceChar(text, a, b) == text
  {
    forall i | 0 <= i < |text| ensures ReplaceChar(text, a, b)[i] == text[i] {
      assert text[i] in text;
    }
  }

  /** A joined text holds only characters of its parts and separator. */
  lemma {:induction false} JoinChars(parts: seq<string>, sep: string)
    ensures forall x :: x in Join(parts, sep) ==> x in sep || exists p :: p in parts && x in p
    decreases |parts|
  {
    if |parts| > 1 {
      JoinChars(parts[1..], sep);
      forall x | x in Join(parts, sep) ensures x in sep || exists p :: p in parts && x in p {
        var j := Join(parts[1..], sep);
        assert Join(parts, sep) == parts[0] + sep + j;
        if x in j && x !in sep {
          var p :| p in parts[1..] && x in p;
          assert p in parts;
        } else if x in parts[0] {
          assert parts[0] in parts;
        }
      }
    } else if |parts| == 1 {
      assert parts[0] in parts;
    }
  }

  /** Filtering by a predicate every element meets changes nothing. */
  lemma {:induction false} FilterAll<T(!new)>(xs: seq<T>, p: T -> bool)
    requires forall x :: x in xs ==> p(x)
    ensures Filter(xs, p) == xs
  {
    if xs != [] {
      forall x | x in xs[1..] ensures p(x) { assert x in xs; }
      FilterAll(xs[1..], p);
      assert xs == [xs[0]] + xs[1..];
    }
  }

  /** What the skill-gap tool answers. */
  datatype GapToolResult =
    | GraphGap(target: string, matched: seq<string>, missing: seq<string>, requiredCount: nat,
               listed: seq<string>, suggested: seq<string>)
    | RagGap(target: string, analysis: Row)
    | ToolError

  /** `target_position.replace("'", "")[:30]`: the title keyword of the graph query. */
  function GapKeyword(target: string): (r: string)
    ensures |r| <= 30 && '\'' !in r
  {
    var k := Take(RemoveChar(target, '\''), 30);
    assert forall c :: c in k ==> c in RemoveChar(target, '\'');
    k
  }

  /**
   * `analyze_skill_gap`. `skillRows` are the required skills the graph
   * returned (ranked by frequency), `ragResult` the RAG analysis; either
   * call may raise, which the tool turns into its error text.
   */
  function AnalyzeSkillGap(userSkills: string, target: string, neo4jAvailable: bool,
                           skillRows: Outcome<seq<string>>, ragResult: Outcome<Row>): GapToolResult
  {
    var skills := ParseSkillList(userSkills);
    if neo4jAvailable && skillRows.Failure? then ToolError
    else if neo4jAvailable && skillRows.value != [] then
      var required := skillRows.value;
      var missing := ApiGap.MissingSkills(skills, required);
      GraphGap(target, ApiGap.MatchedSkills(skills, required), missing, |required|, Take(missing, 10), Take(missing, 5))
    else if ragResult.Failure? then ToolError
    else RagGap(Strip(target), ragResult.value)
  }

  /**
   * A graph answer splits the distinct required skills into the sorted
   * matched and missing lists, lists at most ten missing skills and
   * suggests the first five of them.
   */
  lemma AnalyzeSkillGapSpec(userSkills: string, target: string, skillRows: Outcome<seq<string>>, ragResult: Outcome<Row>)
    requires skillRows.Success? && skillRows.value != []
    ensures var r := AnalyzeSkillGap(userSkills, target, true, skillRows, ragResult);
      var user := ParseSkillList(userSkills);
      && r.GraphGap?
      && StrictlySorted(r.matched) && StrictlySorted(r.missing)
      && (forall x :: x in r.matched <==> x in skillRows.value && x in user)
      && (forall x :: x in r.missing <==> x in skillRows.value && x !in user)
      && |r.matched| + |r.missing| == |Elems(skillRows.value)|
      && |r.listed| <= 10 && |r.suggested| <= 5
      && r.suggested == r.missing[..|r.suggested|] && r.listed == r.missing[..|r.listed|]
  {
    ApiGap.MatchSplit(ParseSkillList(userSkills), skillRows.value);
  }
}
