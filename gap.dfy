/**
 * The skill-gap endpoint (`graph_gap_analysis` in src/api/main.py): the
 * required skills of a position, matched and missing skills, the match
 * rate, the learning path built from prerequisite rows, the vector-store
 * fallback and the cache key. Neo4j and the vector store are parameters.
 */
module ApiGap {
  import opened Wrappers
  import opened Text
  import opened Order
  import opened ApiTypes
  import opened ApiCache
  import opened ApiSearch

  const GapTtl: int := 300
  const PathLimit: nat := 10

  datatype GapRequest = GapRequest(userSkills: seq<string>, target: string, city: Option<string>)

  // ---------------------------------------------------------------- cache key

  /** The key as written: `f"gap:{target_position}:{user_key}"`, without the city. */
  function GapKeyAsWritten(req: GapRequest): string
  {
    "gap:" + req.target + ":" + Join(SortStrings(req.userSkills), ",")
  }

  /** The key with the city the queries filter by. */
  function GapKey(req: GapRequest): string
  {
    GapKeyAsWritten(req) + ":" + ShowOption(req.city)
  }

  /** As written, two requests that differ only in city share one cache entry. */
  lemma GapKeyAsWrittenIgnoresCity(a: GapRequest, b: GapRequest)
    requires a.target == b.target && multiset(a.userSkills) == multiset(b.userSkills)
    ensures GapKeyAsWritten(a) == GapKeyAsWritten(b)
  {
    SortStringsOrderFree(a.userSkills, b.userSkills);
  }

  /**
   * The consequence: within five minutes of an analysis for Beijing, the
   * same analysis for Shanghai is answered with Beijing's payload.
   */
  lemma GapKeyAsWrittenServesOtherCity(entries: Entries<Payload>, skills: seq<string>, target: string,
                                       beijing: Response, shanghai: Response, now: real, later: real)
    requires beijing.Ok? && now <= later < now + GapTtl as real
    requires Lookup(entries, GapKeyAsWritten(GapRequest(skills, target, Some("北京"))), now).None?
    ensures var first := GapRequest(skills, target, Some("北京"));
      var second := GapRequest(skills, target, Some("上海"));
      var after := ServedEntries(entries, GapKeyAsWritten(first), now, beijing, true, GapTtl);
      Served(after, GapKeyAsWritten(second), later, shanghai) == beijing
  {
    var first := GapRequest(skills, target, Some("北京"));
    var second := GapRequest(skills, target, Some("上海"));
    GapKeyAsWrittenIgnoresCity(first, second);
  }

  /** With the city in the key, the same target and skills share an entry only for the same city. */
  lemma GapKeySeparatesCities(a: GapRequest, b: GapRequest)
    requires a.target == b.target && multiset(a.userSkills) == multiset(b.userSkills)
    ensures GapKey(a) == GapKey(b) <==> ShowOption(a.city) == ShowOption(b.city)
  {
    GapKeyAsWrittenIgnoresCity(a, b);
    var p := GapKeyAsWritten(a) + ":";
    if GapKey(a) == GapKey(b) {
      assert GapKey(a)[|p|..] == ShowOption(a.city);
      assert GapKey(b)[|p|..] == ShowOption(b.city);
    }
  }

  /** The order of the user's skills does not matter to the key. */
  lemma GapKeyOrderFree(a: GapRequest, b: GapRequest)
    requires a.target == b.target && a.city == b.city && multiset(a.userSkills) == multiset(b.userSkills)
    ensures GapKey(a) == GapKey(b)
  {
    GapKeyAsWrittenIgnoresCity(a, b);
  }

  // ---------------------------------------------------------------- matching

  /** `sorted(user_set & required_set)` */
  function MatchedSkills(user: seq<string>, required: seq<string>): seq<string>
  {
    SortedSet(Filter(required, (x: string) => x in user))
  }

  /** `sorted(required_set - user_set)` */
  function MissingSkills(user: seq<string>, required: seq<string>): seq<string>
  {
    SortedSet(Filter(required, (x: string) => x !in user))
  }

  /** `len(matched) / len(required_set)`, or 0 when nothing is required (rounding to 3 places omitted). */
  function MatchRate(user: seq<string>, required: seq<string>): real
  {
    if |Elems(required)| == 0 then 0.0
    else |MatchedSkills(user, required)| as real / |Elems(required)| as real
  }

  /**
   * Matched and missing skills are sorted and duplicate-free, and split the
   * distinct required skills between them: a required skill is matched
   * exactly when the user has it, and missing otherwise.
   */
  lemma MatchSplit(user: seq<string>, required: seq<string>)
    ensures StrictlySorted(MatchedSkills(user, required)) && StrictlySorted(MissingSkills(user, required))
    ensures forall x :: x in MatchedSkills(user, required) <==> x in required && x in user
    ensures forall x :: x in MissingSkills(user, required) <==> x in required && x !in user
    ensures |MatchedSkills(user, required)| + |MissingSkills(user, required)| == |Elems(required)|
  {
    var inUser := Elems(Filter(required, (x: string) => x in user));
    var notInUser := Elems(Filter(required, (x: string) => x !in user));
    assert inUser * notInUser == {};
    assert inUser + notInUser == Elems(required) by {
      forall x ensures x in inUser + notInUser <==> x in Elems(required) {
        assert x in Elems(required) <==> x in required;
      }
    }
  }

  /** The rate lies in [0, 1] and is 1 exactly when nothing required is missing. */
  lemma MatchRateSpec(user: seq<string>, required: seq<string>)
    requires required != []
    ensures 0.0 <= MatchRate(user, required) <= 1.0
    ensures MatchRate(user, required) == 1.0 <==> MissingSkills(user, required) == []
  {
    MatchSplit(user, required);
    assert required[0] in Elems(required);
    Share(|MatchedSkills(user, required)|, |Elems(required)|);
  }

  lemma Share(m: nat, t: nat)
    requires 0 < t && m <= t
    ensures 0.0 <= m as real / t as real <= 1.0
    ensures m as real / t as real == 1.0 <==> m == t
  {
    var mr, tr := m as real, t as real;
    var q := mr / tr;
    assert q * tr == mr;
    assert q >= 0.0;
    if m == t {
      assert q * tr == tr;
      assert !(q < 1.0) && !(q > 1.0);
    } else {
      assert mr < tr;
      assert q < 1.0;
    }
  }

  // ---------------------------------------------------------------- learning path

  /** One row of the prerequisite query; a null prerequisite name is the empty string. */
  datatype PathRow = PathRow(missName: string, prerequisites: seq<string>)

  /** A learning-path entry for a row: owned and needed prerequisites, ready when none is needed. */
  function PathStep(row: PathRow, user: set<string>): (s: Step)
    ensures s.skill == row.missName
    ensures s.ready <==> s.needed == []
    ensures forall p :: p in s.owned <==> p in row.prerequisites && p != "" && p in user
    ensures forall p :: p in s.needed <==> p in row.prerequisites && p != "" && p !in user
  {
    var prereqs := Filter(row.prerequisites, (p: string) => p != "");
    var needed := Filter(prereqs, (p: string) => p !in user);
    Step(row.missName, Filter(prereqs, (p: string) => p in user), needed, needed == [])
  }

  function StepsOf(rows: seq<PathRow>, user: set<string>): (r: seq<Step>)
    ensures |r| == |rows|
    ensures forall i :: 0 <= i < |rows| ==> r[i] == PathStep(rows[i], user)
  {
    seq(|rows|, i requires 0 <= i < |rows| => PathStep(rows[i], user))
  }

  function MissNames(rows: seq<PathRow>): set<string>
  {
    set r | r in rows :: r.missName
  }

  /** Ready entries for the missing skills no row covered, in their order. */
  function DirectSteps(skills: seq<string>, covered: set<string>): seq<Step>
  {
    if skills == [] then []
    else
      var init := DirectSteps(skills[..|skills| - 1], covered);
      var last := skills[|skills| - 1];
      if last in covered then init else init + [Step(last, [], [], true)]
  }

  /** `sort(key=lambda x: not x["ready_to_learn"])`: a stable partition, ready entries first. */
  function ReadyFirst(path: seq<Step>): seq<Step>
  {
    Filter(path, (s: Step) => s.ready) + Filter(path, (s: Step) => !s.ready)
  }

  /** The learning path for the top missing skills, given the prerequisite rows. */
  function LearningPath(rows: seq<PathRow>, topMissing: seq<string>, user: set<string>): seq<Step>
  {
    ReadyFirst(StepsOf(rows, user) + DirectSteps(topMissing, MissNames(rows)))
  }

  /** The two loops of the learning-path step and the final sort. */
  method BuildLearningPath(rows: seq<PathRow>, topMissing: seq<string>, user: set<string>)
    returns (path: seq<Step>)
    ensures path == LearningPath(rows, topMissing, user)
  {
    var built: seq<Step> := [];
    var covered: set<string> := {};
    var i := 0;
    while i < |rows|
      invariant 0 <= i <= |rows|
      invariant built == StepsOf(rows[..i], user)
      invariant covered == MissNames(rows[..i])
    {
      assert rows[..i + 1] == rows[..i] + [rows[i]];
      built := built + [PathStep(rows[i], user)];
      covered := covered + {rows[i].missName};
      i := i + 1;
    }
    assert rows[..|rows|] == rows;
    var k := 0;
    while k < |topMissing|
      invariant 0 <= k <= |topMissing|
      invariant built == StepsOf(rows, user) + DirectSteps(topMissing[..k], covered)
    {
      var skill := topMissing[k];
      assert topMissing[..k + 1][..k] == topMissing[..k];
      if skill !in covered {
        built := built + [Step(skill, [], [], true)];
      }
      k := k + 1;
    }
    assert topMissing[..|topMissing|] == topMissing;
    path := ReadyFirst(built);
  }

  lemma {:induction false} DirectStepsSpec(skills: seq<string>, covered: set<string>)
    ensures forall s :: s in DirectSteps(skills, covered) ==>
      s.ready && s.owned == [] && s.needed == [] && s.skill in skills && s.skill !in covered
    ensures forall x :: x in skills && x !in covered ==>
      exists s :: s in DirectSteps(skills, covered) && s.skill == x
  {
    if skills != [] {
      var init := skills[..|skills| - 1];
      DirectStepsSpec(init, covered);
      assert skills == init + [skills[|skills| - 1]];
      var d := DirectSteps(skills, covered);
      forall x | x in skills && x !in covered
        ensures exists s :: s in d && s.skill == x
      {
        if x in init {
          var s :| s in DirectSteps(init, covered) && s.skill == x;
          assert s in d;
        } else {
          assert d[|d| - 1].skill == x;
        }
      }
    }
  }

  /** Ready entries come first. */
  lemma ReadyFirstOrdered(built: seq<Step>)
    ensures var path := ReadyFirst(built);
      forall i, j :: 0 <= i < j < |path| && path[j].ready ==> path[i].ready
  {
    var path := ReadyFirst(built);
    var ready := Filter(built, (s: Step) => s.ready);
    var rest := Filter(built, (s: Step) => !s.ready);
    forall k | 0 <= k < |path| ensures path[k].ready <==> k < |ready| {
      if k < |ready| {
        assert path[k] == ready[k];
        assert path[k] in ready;
      } else {
        assert path[k] == rest[k - |ready|];
        assert path[k] in rest;
      }
    }
  }

  /** The partition only reorders the entries. */
  lemma ReadyFirstPermutes(built: seq<Step>)
    ensures multiset(ReadyFirst(built)) == multiset(built)
    ensures forall s :: s in ReadyFirst(built) <==> s in built
  {
    FilterPartition(built, (s: Step) => s.ready, (s: Step) => !s.ready);
    forall s ensures s in ReadyFirst(built) <==> s in built {
      assert s in ReadyFirst(built) <==> s in multiset(ReadyFirst(built));
      assert s in built <==> s in multiset(built);
    }
  }

  /**
   * The learning path: ready entries come first and are exactly those
   * needing nothing; owned prerequisites are the user's, needed ones are
   * not; it holds the entry of every row and an entry for every top missing
   * skill; and it only reorders the entries the two loops built.
   */
  lemma LearningPathSpec(rows: seq<PathRow>, topMissing: seq<string>, user: set<string>)
    ensures var path := LearningPath(rows, topMissing, user);
      && (forall i, j :: 0 <= i < j < |path| && path[j].ready ==> path[i].ready)
      && (forall s :: s in path ==> (s.ready <==> s.needed == []))
      && (forall s, p :: s in path && p in s.owned ==> p in user)
      && (forall s, p :: s in path && p in s.needed ==> p !in user)
      && (forall r :: r in rows ==> PathStep(r, user) in path)
      && (forall x :: x in topMissing ==> exists s :: s in path && s.skill == x)
      && multiset(path) == multiset(StepsOf(rows, user) + DirectSteps(topMissing, MissNames(rows)))
  {
    var steps := StepsOf(rows, user);
    var direct := DirectSteps(topMissing, MissNames(rows));
    var built := steps + direct;
    var path := LearningPath(rows, topMissing, user);
    ReadyFirstOrdered(built);
    ReadyFirstPermutes(built);
    DirectStepsSpec(topMissing, MissNames(rows));
    assert forall s :: s in built <==> s in steps || s in direct;
    StepsOfSpec(rows, user);
    forall x | x in topMissing ensures exists s :: s in path && s.skill == x {
      if x in MissNames(rows) {
        var s :| s in steps && s.skill == x;
        assert s in built;
      } else {
        var s :| s in direct && s.skill == x;
        assert s in built;
      }
    }
  }

  /** The entries of the first loop: one per row, ready exactly when nothing is needed. */
  lemma StepsOfSpec(rows: seq<PathRow>, user: set<string>)
    ensures var steps := StepsOf(rows, user);
      && (forall s :: s in steps ==> (s.ready <==> s.needed == []))
      && (forall s, p :: s in steps && p in s.owned ==> p in user)
      && (forall s, p :: s in steps && p in s.needed ==> p !in user)
      && (forall r :: r in rows ==> PathStep(r, user) in steps)
      && (forall x :: x in MissNames(rows) ==> exists s :: s in steps && s.skill == x)
  {
    var steps := StepsOf(rows, user);
    forall s | s in steps ensures s.ready <==> s.needed == [] {
      var i :| 0 <= i < |steps| && steps[i] == s;
    }
    forall s, p | s in steps && p in s.owned ensures p in user {
      var i :| 0 <= i < |steps| && steps[i] == s;
    }
    forall s, p | s in steps && p in s.needed ensures p !in user {
      var i :| 0 <= i < |steps| && steps[i] == s;
    }
    forall r | r in rows ensures PathStep(r, user) in steps {
      var i :| 0 <= i < |rows| && rows[i] == r;
      assert steps[i] == PathStep(r, user);
    }
    forall x | x in MissNames(rows) ensures exists s :: s in steps && s.skill == x {
      var r :| r in rows && r.missName == x;
      var i :| 0 <= i < |rows| && rows[i] == r;
      assert steps[i] in steps;
    }
  }

  // ---------------------------------------------------------------- handler

  /** What the handler decides before it becomes an HTTP answer. */
  datatype GapOutcome =
    | Analysed(payload: Payload)
    | VectorFallback(analysis: Row)
    | NotFound
    | Failed

  /** A handler result and whether it is written to the cache. */
  datatype Computed = Computed(resp: Response, cacheable: bool)

  /** `[r["skill_name"] for r in skill_rows]`, with a failed query counting as no rows. */
  function RequiredSkills(svc: Services, skillRows: Outcome<seq<string>>): seq<string>
  {
    if svc.hasNeo4j then RowsOrEmpty(skillRows) else []
  }

  /**
   * The body of `graph_gap_analysis` after the cache miss. The skill and
   * sample-job queries fail soft; with no required skill the vector store
   * answers (uncached) or there is nothing to report; a failing prerequisite
   * query or vector-store call fails the request.
   */
  function GapAnalyse(req: GapRequest, svc: Services, skillRows: Outcome<seq<string>>,
                      jobRows: Outcome<seq<Row>>, ragResult: Outcome<Row>,
                      pathRows: Outcome<seq<PathRow>>): GapOutcome
  {
    var required := RequiredSkills(svc, skillRows);
    var samples := if svc.hasNeo4j then RowsOrEmpty(jobRows) else [];
    if required == [] then
      if !svc.hasRag then NotFound
      else if ragResult.Failure? then Failed
      else VectorFallback(ragResult.value)
    else
      var user := Elems(req.userSkills);
      var matched := MatchedSkills(req.userSkills, required);
      var missing := MissingSkills(req.userSkills, required);
      var pathQuery := svc.hasNeo4j && missing != [];
      if pathQuery && pathRows.Failure? then Failed
      else
        var path := if pathQuery then LearningPath(pathRows.value, Take(missing, PathLimit), user) else [];
        Analysed(GapPayload(req.target, req.userSkills, required, matched, missing,
                            MatchRate(req.userSkills, required), path, samples))
  }

  /**
   * As written: the 404 for an unknown position is raised inside the
   * `try`, whose `except Exception` turns it into a 500.
   */
  function GapComputedAsWritten(o: GapOutcome): Computed
  {
    match o
    case Analysed(p) => Computed(Ok(p), true)
    case VectorFallback(a) => Computed(Ok(VectorGapPayload(a)), false)
    case NotFound => Computed(HttpError(500), false)
    case Failed => Computed(HttpError(500), false)
  }

  /** With the 404 passed through, as its message intends. */
  function GapComputed(o: GapOutcome): Computed
  {
    match o
    case Analysed(p) => Computed(Ok(p), true)
    case VectorFallback(a) => Computed(Ok(VectorGapPayload(a)), false)
    case NotFound => Computed(HttpError(404), false)
    case Failed => Computed(HttpError(500), false)
  }

  /** With Neo4j up, the vector store down and no job for the position, the client sees a 500. */
  lemma GapNotFoundAsWrittenIs500(req: GapRequest, jobRows: Outcome<seq<Row>>, ragResult: Outcome<Row>,
                                  pathRows: Outcome<seq<PathRow>>)
    ensures GapComputedAsWritten(GapAnalyse(req, Services(true, true, false), Success([]), jobRows, ragResult, pathRows)).resp
         == HttpError(500)
    ensures GapComputed(GapAnalyse(req, Services(true, true, false), Success([]), jobRows, ragResult, pathRows)).resp
         == HttpError(404)
  {
  }

  /** 404 exactly when no required skill was found and there is no vector store to fall back on. */
  lemma GapNotFoundIff(req: GapRequest, svc: Services, skillRows: Outcome<seq<string>>,
                       jobRows: Outcome<seq<Row>>, ragResult: Outcome<Row>, pathRows: Outcome<seq<PathRow>>)
    ensures GapComputed(GapAnalyse(req, svc, skillRows, jobRows, ragResult, pathRows)).resp == HttpError(404)
        <==> RequiredSkills(svc, skillRows) == [] && !svc.hasRag
  {
  }

  /**
   * Only a full analysis is cached; the vector fallback and errors are
   * not, and a successful analysis reports the required skills it split.
   */
  lemma GapCachedOnlyWhenAnalysed(req: GapRequest, svc: Services, skillRows: Outcome<seq<string>>,
                                  jobRows: Outcome<seq<Row>>, ragResult: Outcome<Row>,
                                  pathRows: Outcome<seq<PathRow>>)
    ensures var o := GapAnalyse(req, svc, skillRows, jobRows, ragResult, pathRows);
      GapComputed(o).cacheable <==> o.Analysed?
    ensures var o := GapAnalyse(req, svc, skillRows, jobRows, ragResult, pathRows);
      GapComputedAsWritten(o).cacheable <==> o.Analysed?
    ensures var o := GapAnalyse(req, svc, skillRows, jobRows, ragResult, pathRows);
      o.Analysed? ==>
        && o.payload.GapPayload?
        && o.payload.requiredSkills == RequiredSkills(svc, skillRows) != []
        && |o.payload.matched| + |o.payload.missing| == |Elems(o.payload.requiredSkills)|
  {
    var o := GapAnalyse(req, svc, skillRows, jobRows, ragResult, pathRows);
    var required := RequiredSkills(svc, skillRows);
    if o.Analysed? {
      assert o.payload.matched == MatchedSkills(req.userSkills, required);
      assert o.payload.missing == MissingSkills(req.userSkills, required);
      MatchSplit(req.userSkills, required);
    }
  }

  /**
   * `graph_gap_analysis` as written: 503 without Neo4j and vector store,
   * otherwise cache-aside with a 300 s TTL under the city-free key, an
   * unknown position answered with 500.
   */
  method GraphGapAnalysis(cache: TtlCache<Payload>, now: real, req: GapRequest, svc: Services,
                          skillRows: Outcome<seq<string>>, jobRows: Outcome<seq<Row>>,
                          ragResult: Outcome<Row>, pathRows: Outcome<seq<PathRow>>)
    returns (resp: Response)
    modifies cache
    ensures !svc.hasNeo4j && !svc.hasRag ==> resp == HttpError(503) && cache.entries == old(cache.entries)
    ensures svc.hasNeo4j || svc.hasRag ==>
      var c := GapComputedAsWritten(GapAnalyse(req, svc, skillRows, jobRows, ragResult, pathRows));
      resp == Served(old(cache.entries), GapKeyAsWritten(req), now, c.resp)
      && cache.entries == ServedEntries(old(cache.entries), GapKeyAsWritten(req), now, c.resp, c.cacheable, GapTtl)
  {
    if !svc.hasNeo4j && !svc.hasRag {
      return HttpError(503);
    }
    var c := GapComputedAsWritten(GapAnalyse(req, svc, skillRows, jobRows, ragResult, pathRows));
    resp := Serve(cache, GapKeyAsWritten(req), now, c.resp, c.cacheable, GapTtl);
  }

  /** The endpoint as its messages intend: the city in the key and the 404 passed through. */
  method GraphGapAnalysisCorrected(cache: TtlCache<Payload>, now: real, req: GapRequest, svc: Services,
                                   skillRows: Outcome<seq<string>>, jobRows: Outcome<seq<Row>>,
                                   ragResult: Outcome<Row>, pathRows: Outcome<seq<PathRow>>)
    returns (resp: Response)
    modifies cache
    ensures !svc.hasNeo4j && !svc.hasRag ==> resp == HttpError(503) && cache.entries == old(cache.entries)
    ensures svc.hasNeo4j || svc.hasRag ==>
      var c := GapComputed(GapAnalyse(req, svc, skillRows, jobRows, ragResult, pathRows));
      resp == Served(old(cache.entries), GapKey(req), now, c.resp)
      && cache.entries == ServedEntries(old(cache.entries), GapKey(req), now, c.resp, c.cacheable, GapTtl)
  {
    if !svc.hasNeo4j && !svc.hasRag {
      return HttpError(503);
    }
    var c := GapComputed(GapAnalyse(req, svc, skillRows, jobRows, ragResult, pathRows));
    resp := Serve(cache, GapKey(req), now, c.resp, c.cacheable, GapTtl);
  }
}
