/**
 * The hybrid search (`graph_search`) and recommendation (`graph_recommend`)
 * endpoints of src/api/main.py: effective limits, cache keys, the choice of
 * graph query, when the vector store is consulted, and how graph and vector
 * hits are merged, deduplicated and truncated. Database and vector-store
 * answers are parameters.
 */
module ApiSearch {
  import opened Wrappers
  import opened Text
  import opened Order
  import opened ApiTypes
  import opened ApiCache

  const MaxLimit: nat := 500
  const SearchTtl: int := 180
  const RecommendTtl: int := 180

  /** `min(top_k, 500) if top_k else 500` */
  function EffectiveLimit(topK: Option<nat>): (r: nat)
    ensures 1 <= r <= MaxLimit
    ensures topK.Some? && topK.value >= 1 ==> r == Min(topK.value, MaxLimit)
    ensures topK.None? ==> r == MaxLimit
  {
    if topK.None? || topK.value == 0 then MaxLimit else Min(topK.value, MaxLimit)
  }

  // ---------------------------------------------------------------- cache-aside

  /** What a handler returns given the cache: the live cached payload, else the computed response. */
  function Served(entries: Entries<Payload>, key: string, now: real, computed: Response): Response
  {
    var hit := Lookup(entries, key, now);
    if hit.Some? then Ok(hit.value) else computed
  }

  /** The cache after a handler ran: the read's eviction, then the write of a fresh successful result. */
  function ServedEntries(entries: Entries<Payload>, key: string, now: real, computed: Response,
                         cacheable: bool, ttl: int): Entries<Payload>
  {
    var after := AfterRead(entries, key, now);
    if Lookup(entries, key, now).None? && computed.Ok? && cacheable
    then after[key := (computed.payload, now + ttl as real)]
    else after
  }

  /** `cached = cache_get(key); if cached: return cached; ...; cache_set(key, result, ttl)` */
  method Serve(cache: TtlCache<Payload>, key: string, now: real, computed: Response, cacheable: bool, ttl: int)
    returns (resp: Response)
    modifies cache
    ensures resp == Served(old(cache.entries), key, now, computed)
    ensures cache.entries == ServedEntries(old(cache.entries), key, now, computed, cacheable, ttl)
  {
    var cached := cache.Get(key, now);
    if cached.Some? {
      return Ok(cached.value);
    }
    resp := computed;
    if computed.Ok? && cacheable {
      cache.Set(key, computed.payload, ttl, now);
    }
  }

  /** A live entry is served as is, whatever the handler would compute. */
  lemma ServedHitIgnoresComputation(entries: Entries<Payload>, key: string, now: real, a: Response, b: Response)
    requires Lookup(entries, key, now).Some?
    ensures Served(entries, key, now, a) == Served(entries, key, now, b) == Ok(entries[key].0)
  {
  }

  /** After a miss, the fresh result is served from the cache until its TTL runs out. */
  lemma ServedThenCached(entries: Entries<Payload>, key: string, now: real, computed: Response, ttl: int, t: real)
    requires Lookup(entries, key, now).None? && computed.Ok?
    requires now <= t < now + ttl as real
    ensures Served(ServedEntries(entries, key, now, computed, true, ttl), key, t, computed) == computed
  {
  }

  // ---------------------------------------------------------------- search

  datatype SearchRequest = SearchRequest(query: string, topK: Option<nat>, city: Option<string>, includeVector: bool)

  /** `f"search:{query}:{city}:{_effective_limit}"` */
  function SearchKey(req: SearchRequest): string
  {
    "search:" + req.query + ":" + ShowOption(req.city) + ":" + NatToString(EffectiveLimit(req.topK))
  }

  /** Omitting `top_k` and asking for 500 or more share one cache entry. */
  lemma SearchKeyDefaultIsMaximum(req: SearchRequest, k: nat)
    requires req.topK.None? && k >= MaxLimit
    ensures SearchKey(req) == SearchKey(req.(topK := Some(k)))
  {
  }

  function MapRemoveQuote(ws: seq<string>): (r: seq<string>)
    ensures |r| == |ws|
    ensures forall i :: 0 <= i < |ws| ==> r[i] == RemoveChar(ws[i], '\'')
  {
    seq(|ws|, i requires 0 <= i < |ws| => RemoveChar(ws[i], '\''))
  }

  /** Whitespace tokens of at least two characters, after turning both kinds of comma into spaces. */
  function LongWords(s: string): (r: seq<string>)
    ensures forall w :: w in r ==> |w| >= 2 && ',' !in w && '，' !in w && forall c :: c in w ==> !IsSpace(c)
  {
    var spaced := ReplaceChar(ReplaceChar(s, '，', ' '), ',', ' ');
    var ws := Filter(Words(spaced), (w: string) => |w| >= 2);
    assert forall w :: w in ws ==> ',' !in w && '，' !in w by {
      forall w | w in ws ensures ',' !in w && '，' !in w {
        assert w in Words(spaced);
        WordOfSpacedHasNoComma(s, w);
      }
    }
    ws
  }

  lemma WordOfSpacedHasNoComma(s: string, w: string)
    requires w in Words(ReplaceChar(ReplaceChar(s, '，', ' '), ',', ' '))
    ensures ',' !in w && '，' !in w
  {
    SpacedHasNoComma(s);
    WordsFromText(ReplaceChar(ReplaceChar(s, '，', ' '), ',', ' '), w);
  }

  /** Neither kind of comma survives being turned into a space. */
  lemma SpacedHasNoComma(s: string)
    ensures ',' !in ReplaceChar(ReplaceChar(s, '，', ' '), ',', ' ')
    ensures '，' !in ReplaceChar(ReplaceChar(s, '，', ' '), ',', ' ')
  {
    var spaced := ReplaceChar(ReplaceChar(s, '，', ' '), ',', ' ');
    forall c | c in spaced ensures c != ',' && c != '，' {
      var i :| 0 <= i < |spaced| && spaced[i] == c;
    }
  }

  /** Every character of a word of `s` is a character of `s`. */
  lemma {:induction false} WordsFromText(s: string, w: string)
    requires w in Words(s)
    ensures forall c :: c in w ==> c in s
    decreases |s|
  {
    var t := TrimLeft(s);
    assert t != [];
    var tok := Token(t);
    assert forall c :: c in t ==> c in s;
    if w != tok {
      assert w in Words(t[|tok|..]);
      WordsFromText(t[|tok|..], w);
      assert forall c :: c in t[|tok|..] ==> c in t;
    } else {
      assert forall c :: c in tok ==> c in t;
    }
  }

  /**
   * The title keywords of the fallback graph query: up to five long tokens
   * of the query with quotes removed, or the whole query when it has none.
   */
  function TitleKeywords(query: string): (r: seq<string>)
    ensures 1 <= |r| <= 5
    ensures forall w :: w in r ==> '\'' !in w
    ensures LongWords(query) == [] ==> r == [RemoveChar(query, '\'')]
    ensures LongWords(query) != [] ==> r == MapRemoveQuote(Take(LongWords(query), 5))
  {
    var raw := LongWords(query);
    var chosen := if raw == [] then [query] else raw;
    MapRemoveQuote(Take(chosen, 5))
  }

  /** The graph query a search runs: by matched skills when there are any, else by title keywords. */
  datatype GraphQuery =
    | SkillQuery(skills: seq<string>, city: Option<string>, limit: nat)
    | TitleQuery(keywords: seq<string>, city: Option<string>, limit: nat)

  function PlanGraphQuery(req: SearchRequest, matched: seq<string>): (q: GraphQuery)
    ensures q.SkillQuery? <==> matched != []
    ensures q.limit == EffectiveLimit(req.topK) && q.city == req.city
    ensures q.SkillQuery? ==> q.skills == matched
    ensures q.TitleQuery? ==> q.keywords == TitleKeywords(req.query)
  {
    if matched != [] then SkillQuery(matched, req.city, EffectiveLimit(req.topK))
    else TitleQuery(TitleKeywords(req.query), req.city, EffectiveLimit(req.topK))
  }

  /**
   * The `job_id` of a row. An absent id reads as the empty string, where
   * the source's `r["job_id"]` raises `KeyError`; the graph queries always
   * return the column.
   */
  function JobIdOf(row: Row): string
  {
    if "job_id" in row.fields then row.fields["job_id"] else ""
  }

  /** Rows turned into hits tagged with their source or match type. */
  function AsHits(rows: seq<Row>, tag: string): (r: seq<Hit>)
    ensures |r| == |rows|
    ensures forall i :: 0 <= i < |rows| ==> r[i] == Hit(JobIdOf(rows[i]), rows[i], tag)
  {
    seq(|rows|, i requires 0 <= i < |rows| => Hit(JobIdOf(rows[i]), rows[i], tag))
  }

  function IdSet(hits: seq<Hit>): set<string>
  {
    set h | h in hits :: h.jobId
  }

  /**
   * The vector hits a search appends: a hit is kept when its id is neither
   * in `seen` (the graph ids) nor carried by a hit kept before it.
   */
  function Appended(vector: seq<Hit>, seen: set<string>): seq<Hit>
  {
    if vector == [] then []
    else
      var kept := Appended(vector[..|vector| - 1], seen);
      var last := vector[|vector| - 1];
      if last.jobId in seen || last.jobId in IdSet(kept) then kept else kept + [last]
  }

  /** Graph hits first, all of them and in order, then the new vector hits. */
  function SearchMerged(graph: seq<Hit>, vector: seq<Hit>): seq<Hit>
  {
    graph + Appended(vector, IdSet(graph))
  }

  /** The merge loop of `graph_search`, with its final truncation. */
  method MergeSearchHits(graph: seq<Hit>, vector: seq<Hit>, limit: nat) returns (merged: seq<Hit>)
    ensures merged == Take(SearchMerged(graph, vector), limit)
  {
    var seen := IdSet(graph);
    merged := graph;
    var i := 0;
    while i < |vector|
      invariant 0 <= i <= |vector|
      invariant merged == graph + Appended(vector[..i], IdSet(graph))
      invariant seen == IdSet(graph) + IdSet(Appended(vector[..i], IdSet(graph)))
    {
      var j := vector[i];
      assert vector[..i + 1][..i] == vector[..i];
      ghost var kept := Appended(vector[..i], IdSet(graph));
      if j.jobId !in seen {
        merged := merged + [j];
        seen := seen + {j.jobId};
        assert IdSet(kept + [j]) == IdSet(kept) + {j.jobId};
      }
      i := i + 1;
    }
    assert vector[..|vector|] == vector;
    merged := Take(merged, limit);
  }

  /** The facts about the hits appended from `vector`: new ids, each once, every vector id covered. */
  ghost predicate FreshFrom(out: seq<Hit>, vector: seq<Hit>, seen: set<string>)
  {
    && (forall h :: h in out ==> h in vector && h.jobId !in seen)
    && NoDup(Keys(out, (h: Hit) => h.jobId))
    && (forall h :: h in vector ==> h.jobId in seen || h.jobId in IdSet(out))
  }

  /** One more vector hit keeps the facts, whether it is appended or passed over. */
  lemma FreshFromSnoc(kept: seq<Hit>, init: seq<Hit>, last: Hit, seen: set<string>)
    requires FreshFrom(kept, init, seen)
    ensures FreshFrom(if last.jobId in seen || last.jobId in IdSet(kept) then kept else kept + [last], init + [last], seen)
  {
    if !(last.jobId in seen || last.jobId in IdSet(kept)) {
      var ks := Keys(kept + [last], (h: Hit) => h.jobId);
      assert ks[..|kept|] == Keys(kept, (h: Hit) => h.jobId);
      forall i | 0 <= i < |kept| ensures ks[i] != ks[|kept|] {
        assert kept[i] in kept;
      }
      assert IdSet(kept + [last]) == IdSet(kept) + {last.jobId};
    }
  }

  /** Appended hits are new: their ids avoid `seen` and each other, and every vector id ends up covered. */
  lemma {:induction false} AppendedFresh(vector: seq<Hit>, seen: set<string>)
    ensures forall h :: h in Appended(vector, seen) ==> h in vector && h.jobId !in seen
    ensures NoDup(Keys(Appended(vector, seen), (h: Hit) => h.jobId))
    ensures forall h :: h in vector ==> h.jobId in seen || h.jobId in IdSet(Appended(vector, seen))
  {
    AppendedFreshFrom(vector, seen);
  }

  lemma {:induction false} AppendedFreshFrom(vector: seq<Hit>, seen: set<string>)
    ensures FreshFrom(Appended(vector, seen), vector, seen)
  {
    if vector != [] {
      var init := vector[..|vector| - 1];
      var last := vector[|vector| - 1];
      AppendedFreshFrom(init, seen);
      assert vector == init + [last];
      FreshFromSnoc(Appended(init, seen), init, last, seen);
    }
  }

  /**
   * The search merge keeps every graph hit, in order and with repeated ids
   * intact, then adds only vector hits whose ids are new; no vector id is lost.
   */
  lemma SearchMergedSpec(graph: seq<Hit>, vector: seq<Hit>)
    ensures SearchMerged(graph, vector)[..|graph|] == graph
    ensures forall i :: |graph| <= i < |SearchMerged(graph, vector)| ==>
      SearchMerged(graph, vector)[i] in vector && SearchMerged(graph, vector)[i].jobId !in IdSet(graph)
    ensures forall h :: h in vector ==> h.jobId in IdSet(SearchMerged(graph, vector))
    ensures SearchMerged(graph, []) == graph
  {
    AppendedFresh(vector, IdSet(graph));
    var m := SearchMerged(graph, vector);
    forall i | |graph| <= i < |m|
      ensures m[i] in vector && m[i].jobId !in IdSet(graph)
    {
      assert m[i] == Appended(vector, IdSet(graph))[i - |graph|];
    }
    forall h | h in vector ensures h.jobId in IdSet(m) {
      if h.jobId in IdSet(graph) {
        var g :| g in graph && g.jobId == h.jobId;
        assert g in m;
      } else {
        var a :| a in Appended(vector, IdSet(graph)) && a.jobId == h.jobId;
        assert a in m;
      }
    }
  }

  /** `need_vector`: the vector store is consulted when asked for or when the graph found nothing. */
  predicate NeedVector(req: SearchRequest, graphJobs: seq<Hit>, svc: Services)
  {
    (req.includeVector || graphJobs == []) && svc.hasRag
  }

  /**
   * The body of `graph_search` after the cache miss. `matched` is the skill
   * extractor's answer, `graphRows` the rows of the planned graph query and
   * `vectorRows` the vector store's jobs; a failure of any consulted call
   * becomes HTTP 500.
   */
  function SearchResponse(req: SearchRequest, svc: Services, matched: Outcome<seq<string>>,
                          graphRows: Outcome<seq<Row>>, vectorRows: Outcome<seq<Row>>): Response
  {
    if svc.hasExtractor && matched.Failure? then HttpError(500)
    else
      var skills := if svc.hasExtractor then matched.value else [];
      if svc.hasNeo4j && graphRows.Failure? then HttpError(500)
      else
        var graphJobs := if svc.hasNeo4j then AsHits(graphRows.value, "graph") else [];
        if NeedVector(req, graphJobs, svc) && vectorRows.Failure? then HttpError(500)
        else
          var vectorJobs := if NeedVector(req, graphJobs, svc) then AsHits(vectorRows.value, "vector") else [];
          var merged := Take(SearchMerged(graphJobs, vectorJobs), EffectiveLimit(req.topK));
          Ok(SearchPayload(merged, |merged|, req.query, skills, |graphJobs|, |vectorJobs|))
  }

  /** When the vector store is not needed, its answer (or failure) does not matter. */
  lemma SearchVectorUnused(req: SearchRequest, svc: Services, matched: Outcome<seq<string>>,
                           graphRows: Outcome<seq<Row>>, v1: Outcome<seq<Row>>, v2: Outcome<seq<Row>>)
    requires svc.hasNeo4j && graphRows.Success? && graphRows.value != [] && !req.includeVector
    ensures SearchResponse(req, svc, matched, graphRows, v1) == SearchResponse(req, svc, matched, graphRows, v2)
  {
  }

  /** When it is needed, a failing vector store fails the request. */
  lemma SearchVectorUsed(req: SearchRequest, svc: Services, matched: Outcome<seq<string>>,
                         graphRows: Outcome<seq<Row>>)
    requires svc.hasRag && (svc.hasExtractor ==> matched.Success?) && (svc.hasNeo4j ==> graphRows.Success?)
    requires req.includeVector || !svc.hasNeo4j || graphRows.value == []
    ensures SearchResponse(req, svc, matched, graphRows, Failure) == HttpError(500)
  {
  }

  /** A successful search lists at most the effective limit of jobs, and counts them. */
  lemma SearchResponseBounded(req: SearchRequest, svc: Services, matched: Outcome<seq<string>>,
                              graphRows: Outcome<seq<Row>>, vectorRows: Outcome<seq<Row>>)
    requires SearchResponse(req, svc, matched, graphRows, vectorRows).Ok?
    ensures var p := SearchResponse(req, svc, matched, graphRows, vectorRows).payload;
      p.SearchPayload? && p.count == |p.jobs| <= EffectiveLimit(req.topK)
  {
  }

  /** `graph_search`: 503 without extractor and vector store, otherwise cache-aside with a 180 s TTL. */
  method GraphSearch(cache: TtlCache<Payload>, now: real, req: SearchRequest, svc: Services,
                     matched: Outcome<seq<string>>, graphRows: Outcome<seq<Row>>, vectorRows: Outcome<seq<Row>>)
    returns (resp: Response)
    modifies cache
    ensures !svc.hasExtractor && !svc.hasRag ==> resp == HttpError(503) && cache.entries == old(cache.entries)
    ensures svc.hasExtractor || svc.hasRag ==>
      var computed := SearchResponse(req, svc, matched, graphRows, vectorRows);
      resp == Served(old(cache.entries), SearchKey(req), now, computed)
      && cache.entries == ServedEntries(old(cache.entries), SearchKey(req), now, computed, true, SearchTtl)
  {
    if !svc.hasExtractor && !svc.hasRag {
      return HttpError(503);
    }
    resp := Serve(cache, SearchKey(req), now, SearchResponse(req, svc, matched, graphRows, vectorRows), true, SearchTtl);
  }

  // ---------------------------------------------------------------- recommend

  datatype RecommendRequest = RecommendRequest(userSkills: seq<string>, topK: Option<nat>, city: Option<string>)

  /** `f"recommend:{','.join(sorted(user_skills))}:{city}:{top_k}"` */
  function RecommendKey(req: RecommendRequest): string
  {
    "recommend:" + Join(SortStrings(req.userSkills), ",") + ":" + ShowOption(req.city) + ":" + ShowOptionNat(req.topK)
  }

  /** The order in which the user lists skills does not change the cache entry. */
  lemma RecommendKeyOrderFree(a: RecommendRequest, b: RecommendRequest)
    requires multiset(a.userSkills) == multiset(b.userSkills)
    requires a.city == b.city && a.topK == b.topK
    ensures RecommendKey(a) == RecommendKey(b)
  {
    SortStringsOrderFree(a.userSkills, b.userSkills);
  }

  function HitId(h: Hit): string { h.jobId }

  /** Precise, then expanded, then vector hits, keeping the first hit per job id. */
  function RecommendMerged(precise: seq<Hit>, expanded: seq<Hit>, vector: seq<Hit>): seq<Hit>
  {
    DedupBy(precise + expanded + vector, HitId)
  }

  /** The merge loop of `graph_recommend`, with its final truncation. */
  method MergeRecommendHits(all: seq<Hit>, limit: nat) returns (merged: seq<Hit>)
    ensures merged == Take(DedupBy(all, HitId), limit)
  {
    var seen: set<string> := {};
    merged := [];
    var i := 0;
    while i < |all|
      invariant 0 <= i <= |all|
      invariant merged == DedupBy(all[..i], HitId)
      invariant seen == IdSet(merged)
    {
      var j := all[i];
      MergeStep(all, i, merged, seen);
      if j.jobId !in seen {
        IdSetSnoc(merged, j);
        merged := merged + [j];
        seen := seen + {j.jobId};
      }
      i := i + 1;
    }
    assert all[..|all|] == all;
    merged := Take(merged, limit);
  }

  lemma IdSetSnoc(hits: seq<Hit>, h: Hit)
    ensures IdSet(hits + [h]) == IdSet(hits) + {h.jobId}
  {
  }

  /** One step of the merge loop: a hit is kept exactly when its id was not seen yet. */
  lemma MergeStep(all: seq<Hit>, i: nat, merged: seq<Hit>, seen: set<string>)
    requires i < |all| && merged == DedupBy(all[..i], HitId) && seen == IdSet(merged)
    ensures DedupBy(all[..i + 1], HitId) == if all[i].jobId in seen then merged else merged + [all[i]]
  {
    var j := all[i];
    assert all[..i + 1][..i] == all[..i];
    assert all[..i + 1][i] == j;
    DedupByKeys(all[..i], HitId);
    assert j.jobId in seen <==> j.jobId in Keys(all[..i], HitId) by {
      if j.jobId in Keys(all[..i], HitId) {
        var k :| 0 <= k < i && Keys(all[..i], HitId)[k] == j.jobId;
        assert all[..i][k] in all[..i];
      }
      if j.jobId in seen {
        var h :| h in merged && h.jobId == j.jobId;
        var k :| 0 <= k < i && all[..i][k] == h;
      }
    }
  }

  /** Deduplicating a longer list extends the dedup of its prefix. */
  lemma {:induction false} DedupByExtends(a: seq<Hit>, b: seq<Hit>)
    ensures |DedupBy(a, HitId)| <= |DedupBy(a + b, HitId)|
    ensures DedupBy(a + b, HitId)[..|DedupBy(a, HitId)|] == DedupBy(a, HitId)
    decreases |b|
  {
    if b == [] {
      assert a + b == a;
    } else {
      var b' := b[..|b| - 1];
      DedupByExtends(a, b');
      assert (a + b)[..|a + b| - 1] == a + b';
    }
  }

  /**
   * The recommendation merge: all precise hits with distinct ids come first,
   * unchanged; no two kept hits share an id; every input id is represented.
   */
  lemma RecommendMergedSpec(precise: seq<Hit>, expanded: seq<Hit>, vector: seq<Hit>)
    requires NoDup(Keys(precise, HitId))
    ensures |precise| <= |RecommendMerged(precise, expanded, vector)|
    ensures RecommendMerged(precise, expanded, vector)[..|precise|] == precise
    ensures NoDup(Keys(RecommendMerged(precise, expanded, vector), HitId))
    ensures forall h :: h in precise + expanded + vector ==>
      h.jobId in Keys(RecommendMerged(precise, expanded, vector), HitId)
  {
    DedupByDistinct(precise);
    assert precise + expanded + vector == precise + (expanded + vector);
    DedupByExtends(precise, expanded + vector);
    DedupByKeys(precise + expanded + vector, HitId);
  }

  /** Hits with distinct ids are all kept. */
  lemma {:induction false} DedupByDistinct(xs: seq<Hit>)
    requires NoDup(Keys(xs, HitId))
    ensures DedupBy(xs, HitId) == xs
  {
    if xs != [] {
      var init := xs[..|xs| - 1];
      assert Keys(init, HitId) == Keys(xs, HitId)[..|init|];
      DedupByDistinct(init);
      forall k | 0 <= k < |init| ensures Keys(init, HitId)[k] != HitId(xs[|xs| - 1]) {
        assert Keys(xs, HitId)[k] != Keys(xs, HitId)[|xs| - 1];
      }
      assert xs == init + [xs[|xs| - 1]];
    }
  }

  /**
   * The body of `graph_recommend` after the cache miss. The precise and
   * related-skill queries run only with Neo4j and a non-empty skill list, and
   * a failure of either counts as no rows; the expanded query runs only when
   * related skills were found; the vector store only when there is no precise
   * hit. A failure of the expanded query or of the vector store is HTTP 500.
   */
  function RecommendResponse(req: RecommendRequest, svc: Services, preciseRows: Outcome<seq<Row>>,
                             relatedRows: Outcome<seq<string>>, expandedRows: Outcome<seq<Row>>,
                             vectorRows: Outcome<seq<Row>>): Response
  {
    var graphPass := svc.hasNeo4j && req.userSkills != [];
    var precise := if graphPass then AsHits(RowsOrEmpty(preciseRows), "precise") else [];
    var related := if graphPass then RowsOrEmpty(relatedRows) else [];
    if related != [] && expandedRows.Failure? then HttpError(500)
    else
      var expanded := if related != [] then AsHits(expandedRows.value, "expanded") else [];
      var vectorPass := svc.hasRag && precise == [];
      if vectorPass && vectorRows.Failure? then HttpError(500)
      else
        var vector := if vectorPass then AsHits(vectorRows.value, "vector") else [];
        var merged := Take(RecommendMerged(precise, expanded, vector), EffectiveLimit(req.topK));
        Ok(RecommendPayload(merged, |merged|, |precise|, |expanded|, related))
  }

  /** A failed precise or related-skill query is the same as one that found nothing. */
  lemma RecommendFailureIsEmpty(req: RecommendRequest, svc: Services, relatedRows: Outcome<seq<string>>,
                                expandedRows: Outcome<seq<Row>>, vectorRows: Outcome<seq<Row>>,
                                preciseRows: Outcome<seq<Row>>)
    ensures RecommendResponse(req, svc, Failure, relatedRows, expandedRows, vectorRows)
         == RecommendResponse(req, svc, Success([]), relatedRows, expandedRows, vectorRows)
    ensures RecommendResponse(req, svc, preciseRows, Failure, expandedRows, vectorRows)
         == RecommendResponse(req, svc, preciseRows, Success([]), expandedRows, vectorRows)
  {
  }

  /** With precise hits, the vector store's answer (or failure) does not matter. */
  lemma RecommendVectorOnlyWithoutPrecise(req: RecommendRequest, svc: Services, preciseRows: Outcome<seq<Row>>,
                                          relatedRows: Outcome<seq<string>>, expandedRows: Outcome<seq<Row>>,
                                          v1: Outcome<seq<Row>>, v2: Outcome<seq<Row>>)
    requires svc.hasNeo4j && req.userSkills != [] && preciseRows.Success? && preciseRows.value != []
    ensures RecommendResponse(req, svc, preciseRows, relatedRows, expandedRows, v1)
         == RecommendResponse(req, svc, preciseRows, relatedRows, expandedRows, v2)
  {
  }

  /** A successful recommendation has no two jobs with the same id and at most the effective limit. */
  lemma RecommendResponseDistinct(req: RecommendRequest, svc: Services, preciseRows: Outcome<seq<Row>>,
                                  relatedRows: Outcome<seq<string>>, expandedRows: Outcome<seq<Row>>,
                                  vectorRows: Outcome<seq<Row>>)
    requires RecommendResponse(req, svc, preciseRows, relatedRows, expandedRows, vectorRows).Ok?
    ensures var p := RecommendResponse(req, svc, preciseRows, relatedRows, expandedRows, vectorRows).payload;
      p.RecommendPayload? && p.count == |p.jobs| <= EffectiveLimit(req.topK) && NoDup(Keys(p.jobs, HitId))
  {
    var graphPass := svc.hasNeo4j && req.userSkills != [];
    var precise := if graphPass then AsHits(RowsOrEmpty(preciseRows), "precise") else [];
    var related := if graphPass then RowsOrEmpty(relatedRows) else [];
    var expanded := if related != [] then AsHits(expandedRows.value, "expanded") else [];
    var vectorPass := svc.hasRag && precise == [];
    var vector := if vectorPass then AsHits(vectorRows.value, "vector") else [];
    RecommendTakeDistinct(precise, expanded, vector, EffectiveLimit(req.topK));
  }

  lemma RecommendTakeDistinct(precise: seq<Hit>, expanded: seq<Hit>, vector: seq<Hit>, n: nat)
    ensures NoDup(Keys(Take(RecommendMerged(precise, expanded, vector), n), HitId))
  {
    var all := RecommendMerged(precise, expanded, vector);
    DedupByKeys(precise + expanded + vector, HitId);
    assert Keys(Take(all, n), HitId) == Keys(all, HitId)[..|Take(all, n)|];
  }

  /** `graph_recommend`: 503 without vector store and Neo4j, otherwise cache-aside with a 180 s TTL. */
  method GraphRecommend(cache: TtlCache<Payload>, now: real, req: RecommendRequest, svc: Services,
                        preciseRows: Outcome<seq<Row>>, relatedRows: Outcome<seq<string>>,
                        expandedRows: Outcome<seq<Row>>, vectorRows: Outcome<seq<Row>>)
    returns (resp: Response)
    modifies cache
    ensures !svc.hasRag && !svc.hasNeo4j ==> resp == HttpError(503) && cache.entries == old(cache.entries)
    ensures svc.hasRag || svc.hasNeo4j ==>
      var computed := RecommendResponse(req, svc, preciseRows, relatedRows, expandedRows, vectorRows);
      resp == Served(old(cache.entries), RecommendKey(req), now, computed)
      && cache.entries == ServedEntries(old(cache.entries), RecommendKey(req), now, computed, true, RecommendTtl)
  {
    if !svc.hasRag && !svc.hasNeo4j {
      return HttpError(503);
    }
    var computed := RecommendResponse(req, svc, preciseRows, relatedRows, expandedRows, vectorRows);
    resp := Serve(cache, RecommendKey(req), now, computed, true, RecommendTtl);
  }
}
