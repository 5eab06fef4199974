/**
 * Cache maintenance of the serving layer (src/api/main.py): the warm-up
 * phases that fill the trend and default graph entries, the background
 * refresh that rewrites them, and the trend and graph endpoints those
 * entries answer for. Query results are parameters; each is either rows or
 * the exception the query raised.
 */
module ApiWarmup {
  import opened Wrappers
  import opened ApiTypes
  import opened ApiCache
  import opened ApiSearch

  const TrendKey: string := "trend"
  const StatsKey: string := "stats"
  const DefaultGraphKey: string := "graph:100:5:200"
  const StatsTtl: int := 300
  const TrendTtl: int := 600
  const GraphTtl: int := 600
  const RefreshInterval: int := 270

  const HotSkills: string := "hot_skills"
  const Categories: string := "category_distribution"
  const Combos: string := "skill_combos"
  const HighSalary: string := "high_salary_skills"
  const CityDistribution: string := "city_distribution"

  /** The five lists of a full trend payload. */
  function TrendKeys(): set<string>
  {
    {HotSkills, Categories, Combos, HighSalary, CityDistribution}
  }

  function FiveListTrend(hot: seq<Row>, cats: seq<Row>, combos: seq<Row>, salary: seq<Row>,
                         cities: seq<Row>): map<string, seq<Row>>
  {
    map[HotSkills := hot, Categories := cats, Combos := combos, HighSalary := salary, CityDistribution := cities]
  }

  // ---------------------------------------------------------------- warm-up

  /** The fast phase: three light queries, empty placeholders for the two heavy lists. */
  function FastTrend(hot: Outcome<seq<Row>>, cats: Outcome<seq<Row>>, cities: Outcome<seq<Row>>): map<string, seq<Row>>
  {
    FiveListTrend(RowsOrEmpty(hot), RowsOrEmpty(cats), [], [], RowsOrEmpty(cities))
  }

  /** The trend lists cached at `now`, or none. */
  function CachedTrend(entries: Entries<Payload>, now: real): map<string, seq<Row>>
  {
    var hit := Lookup(entries, TrendKey, now);
    if hit.Some? && hit.value.TrendPayload? then hit.value.data else map[]
  }

  /**
   * The slow phase's patch of the trend lists: combos and high-salary skills
   * are replaced, the city distribution is replaced only by a non-empty one.
   */
  function SlowTrendPatch(data: map<string, seq<Row>>, combos: Outcome<seq<Row>>, salary: Outcome<seq<Row>>,
                          cities: Outcome<seq<Row>>): map<string, seq<Row>>
  {
    var latest := RowsOrEmpty(cities);
    var kept := if CityDistribution in data then data[CityDistribution] else [];
    data[Combos := RowsOrEmpty(combos)][HighSalary := RowsOrEmpty(salary)]
        [CityDistribution := if latest != [] then latest else kept]
  }

  /**
   * The slow patch touches only its three lists; a non-empty fresh city
   * distribution replaces the old one, an empty one keeps it.
   */
  lemma SlowTrendPatchSpec(data: map<string, seq<Row>>, combos: Outcome<seq<Row>>, salary: Outcome<seq<Row>>,
                           cities: Outcome<seq<Row>>)
    ensures var r := SlowTrendPatch(data, combos, salary, cities);
      && r.Keys == data.Keys + {Combos, HighSalary, CityDistribution}
      && (forall k :: k in data && k != Combos && k != HighSalary && k != CityDistribution ==> r[k] == data[k])
      && (RowsOrEmpty(cities) != [] ==> r[CityDistribution] == cities.value)
      && (RowsOrEmpty(cities) == [] && CityDistribution in data ==> r[CityDistribution] == data[CityDistribution])
  {
  }

  /**
   * After both warm-up phases the trend entry has all five lists, keeps the
   * fast phase's hot skills and categories, and has a city distribution
   * whenever either city query returned rows.
   */
  lemma WarmupTrendComplete(hot: Outcome<seq<Row>>, cats: Outcome<seq<Row>>, fastCities: Outcome<seq<Row>>,
                            combos: Outcome<seq<Row>>, salary: Outcome<seq<Row>>, slowCities: Outcome<seq<Row>>)
    ensures var r := SlowTrendPatch(FastTrend(hot, cats, fastCities), combos, salary, slowCities);
      && r.Keys == TrendKeys()
      && r[HotSkills] == RowsOrEmpty(hot) && r[Categories] == RowsOrEmpty(cats)
      && (RowsOrEmpty(fastCities) != [] || RowsOrEmpty(slowCities) != [] <==> r[CityDistribution] != [])
  {
  }

  /** The fast phase writes the trend entry for ten minutes. */
  method WarmupFastTrend(cache: TtlCache<Payload>, now: real, hot: Outcome<seq<Row>>, cats: Outcome<seq<Row>>,
                         cities: Outcome<seq<Row>>)
    modifies cache
    ensures cache.entries == old(cache.entries)[TrendKey := (TrendPayload(FastTrend(hot, cats, cities)), now + TrendTtl as real)]
  {
    cache.Set(TrendKey, TrendPayload(FastTrend(hot, cats, cities)), TrendTtl, now);
  }

  /** The slow phase's trend step: read the entry (or start empty), patch it, write it back. */
  method WarmupSlowTrend(cache: TtlCache<Payload>, now: real, combos: Outcome<seq<Row>>,
                         salary: Outcome<seq<Row>>, cities: Outcome<seq<Row>>)
    modifies cache
    ensures cache.entries == AfterRead(old(cache.entries), TrendKey, now)
      [TrendKey := (TrendPayload(SlowTrendPatch(CachedTrend(old(cache.entries), now), combos, salary, cities)),
                    now + TrendTtl as real)]
  {
    var existing := cache.Get(TrendKey, now);
    var data := if existing.Some? && existing.value.TrendPayload? then existing.value.data else map[];
    cache.Set(TrendKey, TrendPayload(SlowTrendPatch(data, combos, salary, cities)), TrendTtl, now);
  }

  /**
   * The slow phase's graph step on the cached default graph: with cached
   * nodes that all name a skill, and edge rows, the edges and edge count
   * are replaced; otherwise nothing is written.
   */
  function GraphPatch(entries: Entries<Payload>, now: real, edgeRows: Outcome<seq<Row>>): Option<Payload>
  {
    var hit := Lookup(entries, DefaultGraphKey, now);
    if hit.None? || !hit.value.GraphPayload? then None
    else
      var g := hit.value;
      if g.nodes == [] || (exists i :: 0 <= i < |g.nodes| && "skill" !in g.nodes[i].fields) || edgeRows.Failure? then None
      else Some(g.(edges := edgeRows.value, edgeCount := |edgeRows.value|))
  }

  /** Edges are patched only onto cached nodes, which are kept with their count. */
  lemma GraphPatchSpec(entries: Entries<Payload>, now: real, edgeRows: Outcome<seq<Row>>)
    ensures GraphPatch(entries, now, edgeRows).Some? ==>
      && Lookup(entries, DefaultGraphKey, now).Some?
      && var cached := Lookup(entries, DefaultGraphKey, now).value;
      && var p := GraphPatch(entries, now, edgeRows).value;
      && cached.GraphPayload? && cached.nodes != []
      && p == GraphPayload(cached.nodes, edgeRows.value, cached.nodeCount, |edgeRows.value|)
    ensures Lookup(entries, DefaultGraphKey, now).None? || edgeRows.Failure? ==> GraphPatch(entries, now, edgeRows).None?
  {
  }

  method WarmupSlowGraph(cache: TtlCache<Payload>, now: real, edgeRows: Outcome<seq<Row>>)
    modifies cache
    ensures var p := GraphPatch(old(cache.entries), now, edgeRows);
      cache.entries == if p.Some? then AfterRead(old(cache.entries), DefaultGraphKey, now)[DefaultGraphKey := (p.value, now + GraphTtl as real)]
                       else AfterRead(old(cache.entries), DefaultGraphKey, now)
  {
    var existing := cache.Get(DefaultGraphKey, now);
    if existing.None? || !existing.value.GraphPayload? {
      return;
    }
    var g := existing.value;
    var i := 0;
    while i < |g.nodes|
      invariant 0 <= i <= |g.nodes|
      invariant forall k :: 0 <= k < i ==> "skill" in g.nodes[k].fields
    {
      if "skill" !in g.nodes[i].fields {
        return;
      }
      i := i + 1;
    }
    if g.nodes == [] || edgeRows.Failure? {
      return;
    }
    cache.Set(DefaultGraphKey, g.(edges := edgeRows.value, edgeCount := |edgeRows.value|), GraphTtl, now);
  }

  // ---------------------------------------------------------------- refresh

  /** The answers the refresh loop's queries give on one pass. */
  datatype RefreshInput = RefreshInput(
    ragStats: Outcome<Row>, neo4jStats: Outcome<Row>,
    hot: Outcome<seq<Row>>, cats: Outcome<seq<Row>>, combos: Outcome<seq<Row>>, salary: Outcome<seq<Row>>,
    cities: Outcome<seq<Row>>, nodes: Outcome<seq<Row>>, edges: Outcome<seq<Row>>)

  /** The stats written on a pass, or none when neither service exists or the vector store's stats fail. */
  function RefreshedStats(svc: Services, input: RefreshInput): Option<Payload>
  {
    if !(svc.hasRag || svc.hasNeo4j) || (svc.hasRag && input.ragStats.Failure?) then None
    else
      var s: map<string, Option<Row>> := if svc.hasRag then map["rag" := Some(input.ragStats.value)] else map[];
      var s' := if svc.hasNeo4j then s["neo4j" := if input.neo4jStats.Success? then Some(input.neo4jStats.value) else None] else s;
      Some(StatsPayload(s'))
  }

  /** The trend lists as the refresh writes them: four lists, without the city distribution. */
  function RefreshedTrendAsWritten(input: RefreshInput): map<string, seq<Row>>
  {
    map[HotSkills := RowsOrEmpty(input.hot), Categories := RowsOrEmpty(input.cats),
        Combos := RowsOrEmpty(input.combos), HighSalary := RowsOrEmpty(input.salary)]
  }

  /** The trend lists with the city query the other writers run. */
  function RefreshedTrend(input: RefreshInput): map<string, seq<Row>>
  {
    FiveListTrend(RowsOrEmpty(input.hot), RowsOrEmpty(input.cats), RowsOrEmpty(input.combos),
                  RowsOrEmpty(input.salary), RowsOrEmpty(input.cities))
  }

  function RefreshedGraph(input: RefreshInput): Payload
  {
    var n := RowsOrEmpty(input.nodes);
    var e := RowsOrEmpty(input.edges);
    GraphPayload(n, e, |n|, |e|)
  }

  /** The cache after one pass that writes `trend` as the trend lists. */
  function RefreshEntriesWith(entries: Entries<Payload>, now: real, svc: Services, input: RefreshInput,
                              trend: map<string, seq<Row>>): Entries<Payload>
  {
    var stats := RefreshedStats(svc, input);
    var e1 := if stats.Some? then entries[StatsKey := (stats.value, now + StatsTtl as real)] else entries;
    if !svc.hasNeo4j then e1
    else e1[TrendKey := (TrendPayload(trend), now + TrendTtl as real)]
           [DefaultGraphKey := (RefreshedGraph(input), now + GraphTtl as real)]
  }

  /** The cache after one pass as written: the trend entry holds four lists. */
  function RefreshEntries(entries: Entries<Payload>, now: real, svc: Services, input: RefreshInput): Entries<Payload>
  {
    RefreshEntriesWith(entries, now, svc, input, RefreshedTrendAsWritten(input))
  }

  /** The cache after one pass that also runs the city query. */
  function RefreshEntriesCorrected(entries: Entries<Payload>, now: real, svc: Services, input: RefreshInput): Entries<Payload>
  {
    RefreshEntriesWith(entries, now, svc, input, RefreshedTrend(input))
  }

  /** One pass of the refresh loop, as written. */
  method RefreshOnce(cache: TtlCache<Payload>, now: real, svc: Services, input: RefreshInput)
    modifies cache
    ensures cache.entries == RefreshEntries(old(cache.entries), now, svc, input)
  {
    var stats := RefreshedStats(svc, input);
    if stats.Some? {
      cache.Set(StatsKey, stats.value, StatsTtl, now);
    }
    if svc.hasNeo4j {
      cache.Set(TrendKey, TrendPayload(RefreshedTrendAsWritten(input)), TrendTtl, now);
      cache.Set(DefaultGraphKey, RefreshedGraph(input), GraphTtl, now);
    }
  }

  /** One pass of the refresh loop writing the five-list trend the other writers produce. */
  method RefreshOnceCorrected(cache: TtlCache<Payload>, now: real, svc: Services, input: RefreshInput)
    modifies cache
    ensures cache.entries == RefreshEntriesCorrected(old(cache.entries), now, svc, input)
  {
    var stats := RefreshedStats(svc, input);
    if stats.Some? {
      cache.Set(StatsKey, stats.value, StatsTtl, now);
    }
    if svc.hasNeo4j {
      cache.Set(TrendKey, TrendPayload(RefreshedTrend(input)), TrendTtl, now);
      cache.Set(DefaultGraphKey, RefreshedGraph(input), GraphTtl, now);
    }
  }

  /**
   * As written, once a refresh has run with Neo4j, every trend request
   * until the entry expires is served the four-list payload without a city
   * distribution, whatever the endpoint would compute; and the next pass,
   * 270 s later, comes before that expiry, so it never recomputes.
   */
  lemma RefreshAsWrittenHidesCities(entries: Entries<Payload>, now: real, svc: Services, input: RefreshInput,
                                    computed: Response, t: real)
    requires svc.hasNeo4j && now <= t < now + TrendTtl as real
    ensures var r := Served(RefreshEntries(entries, now, svc, input), TrendKey, t, computed);
      r.Ok? && r.payload.TrendPayload? && CityDistribution !in r.payload.data
    ensures RefreshInterval < TrendTtl
  {
  }

  /** With the city query, a refreshed trend entry has exactly the lists the endpoint computes. */
  lemma RefreshTrendComplete(entries: Entries<Payload>, now: real, svc: Services, input: RefreshInput,
                             computed: Response, t: real)
    requires svc.hasNeo4j && now <= t < now + TrendTtl as real
    ensures var r := Served(RefreshEntriesCorrected(entries, now, svc, input), TrendKey, t, computed);
      r.Ok? && r.payload.TrendPayload? && r.payload.data.Keys == TrendKeys()
      && r.payload.data[CityDistribution] == RowsOrEmpty(input.cities)
  {
  }

  /**
   * Every entry a pass writes is still live when the next pass starts,
   * 270 s later; a pass touches no other key.
   */
  lemma RefreshKeepsEntriesWarm(entries: Entries<Payload>, now: real, svc: Services, input: RefreshInput, k: string)
    requires svc.hasNeo4j
    ensures Lookup(RefreshEntries(entries, now, svc, input), TrendKey, now + RefreshInterval as real).Some?
    ensures Lookup(RefreshEntries(entries, now, svc, input), DefaultGraphKey, now + RefreshInterval as real).Some?
    ensures RefreshedStats(svc, input).Some? ==>
      Lookup(RefreshEntries(entries, now, svc, input), StatsKey, now + RefreshInterval as real).Some?
    ensures k != TrendKey && k != DefaultGraphKey && k != StatsKey ==>
      (k in RefreshEntries(entries, now, svc, input) <==> k in entries)
  {
  }

  // ---------------------------------------------------------------- endpoints

  /** `market_trend` after a miss: five queries, any failure is HTTP 500. */
  function TrendResponse(hot: Outcome<seq<Row>>, cats: Outcome<seq<Row>>, combos: Outcome<seq<Row>>,
                         salary: Outcome<seq<Row>>, cities: Outcome<seq<Row>>): Response
  {
    if hot.Failure? || cats.Failure? || combos.Failure? || salary.Failure? || cities.Failure? then HttpError(500)
    else Ok(TrendPayload(FiveListTrend(hot.value, cats.value, combos.value, salary.value, cities.value)))
  }

  /** A computed trend has the five lists. */
  lemma TrendResponseComplete(hot: Outcome<seq<Row>>, cats: Outcome<seq<Row>>, combos: Outcome<seq<Row>>,
                              salary: Outcome<seq<Row>>, cities: Outcome<seq<Row>>)
    ensures TrendResponse(hot, cats, combos, salary, cities).Ok? <==>
      hot.Success? && cats.Success? && combos.Success? && salary.Success? && cities.Success?
    ensures TrendResponse(hot, cats, combos, salary, cities).Ok? ==>
      TrendResponse(hot, cats, combos, salary, cities).payload.data.Keys == TrendKeys()
  {
  }

  method MarketTrend(cache: TtlCache<Payload>, now: real, svc: Services, hot: Outcome<seq<Row>>,
                     cats: Outcome<seq<Row>>, combos: Outcome<seq<Row>>, salary: Outcome<seq<Row>>,
                     cities: Outcome<seq<Row>>)
    returns (resp: Response)
    modifies cache
    ensures !svc.hasNeo4j ==> resp == HttpError(503) && cache.entries == old(cache.entries)
    ensures svc.hasNeo4j ==>
      var computed := TrendResponse(hot, cats, combos, salary, cities);
      resp == Served(old(cache.entries), TrendKey, now, computed)
      && cache.entries == ServedEntries(old(cache.entries), TrendKey, now, computed, true, TrendTtl)
  {
    if !svc.hasNeo4j {
      return HttpError(503);
    }
    resp := Serve(cache, TrendKey, now, TrendResponse(hot, cats, combos, salary, cities), true, TrendTtl);
  }

  /** `f"graph:{limit}:{min_demand}:{edge_limit}"` */
  function GraphKey(limit: nat, minDemand: nat, edgeLimit: nat): string
  {
    "graph:" + NatToString(limit) + ":" + NatToString(minDemand) + ":" + NatToString(edgeLimit)
  }

  /** The entry the warm-up and the refresh maintain is the one the default request reads. */
  lemma DefaultGraphKeyIsDefaultRequest()
    ensures GraphKey(100, 5, 200) == DefaultGraphKey
  {
    assert NatToString(100) == "100" by {
      assert NatToString(10) == "10";
    }
    assert NatToString(200) == "200" by {
      assert NatToString(20) == "20";
    }
  }

  /** `get_skill_graph` after a miss: a node failure is HTTP 500, an edge failure only empties the edges. */
  function SkillGraphResponse(nodeRows: Outcome<seq<Row>>, edgeRows: Outcome<seq<Row>>): Response
  {
    if nodeRows.Failure? then HttpError(500)
    else
      var edges := RowsOrEmpty(edgeRows);
      Ok(GraphPayload(nodeRows.value, edges, |nodeRows.value|, |edges|))
  }

  lemma SkillGraphEdgeFallback(nodeRows: Outcome<seq<Row>>, edgeRows: Outcome<seq<Row>>)
    ensures SkillGraphResponse(nodeRows, Failure) == SkillGraphResponse(nodeRows, Success([]))
    ensures SkillGraphResponse(nodeRows, edgeRows).Ok? <==> nodeRows.Success?
    ensures SkillGraphResponse(nodeRows, edgeRows).Ok? ==>
      var p := SkillGraphResponse(nodeRows, edgeRows).payload;
      p.nodes == nodeRows.value && p.nodeCount == |p.nodes| && p.edgeCount == |p.edges|
  {
  }

  /** Query-parameter bounds: `1 <= limit <= 500`, `min_demand >= 0`, `0 <= edge_limit <= 5000`. */
  predicate ValidGraphQuery(limit: int, minDemand: int, edgeLimit: int)
  {
    1 <= limit <= 500 && 0 <= minDemand && 0 <= edgeLimit <= 5000
  }

  /** `get_skill_graph`: 422 on bad parameters, 503 without Neo4j, otherwise cache-aside for ten minutes. */
  method SkillGraph(cache: TtlCache<Payload>, now: real, svc: Services, limit: int, minDemand: int, edgeLimit: int,
                    nodeRows: Outcome<seq<Row>>, edgeRows: Outcome<seq<Row>>)
    returns (resp: Response)
    modifies cache
    ensures !ValidGraphQuery(limit, minDemand, edgeLimit) ==> resp == HttpError(422) && cache.entries == old(cache.entries)
    ensures ValidGraphQuery(limit, minDemand, edgeLimit) && !svc.hasNeo4j ==>
      resp == HttpError(503) && cache.entries == old(cache.entries)
    ensures ValidGraphQuery(limit, minDemand, edgeLimit) && svc.hasNeo4j ==>
      var key := GraphKey(limit, minDemand, edgeLimit);
      var computed := SkillGraphResponse(nodeRows, edgeRows);
      resp == Served(old(cache.entries), key, now, computed)
      && cache.entries == ServedEntries(old(cache.entries), key, now, computed, true, GraphTtl)
  {
    if !ValidGraphQuery(limit, minDemand, edgeLimit) {
      return HttpError(422);
    }
    if !svc.hasNeo4j {
      return HttpError(503);
    }
    resp := Serve(cache, GraphKey(limit, minDemand, edgeLimit), now, SkillGraphResponse(nodeRows, edgeRows), true, GraphTtl);
  }
}
