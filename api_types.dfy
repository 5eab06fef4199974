/**
 * Values exchanged by the HTTP endpoints of the serving layer
 * (src/api/main.py): database rows, job hits, response payloads, and the
 * way Python's f-strings render the pieces of a cache key.
 */
module ApiTypes {
  import opened Wrappers

  /** A record returned by Neo4j or Chroma, with each field rendered as text. */
  datatype Row = Row(fields: map<string, string>)

  /** One job in a search or recommendation list; `tag` is its `source` or `match_type`. */
  datatype Hit = Hit(jobId: string, row: Row, tag: string)

  /** One entry of a gap-analysis learning path. */
  datatype Step = Step(skill: string, owned: seq<string>, needed: seq<string>, ready: bool)

  /** Which back-end services started successfully. */
  datatype Services = Services(hasExtractor: bool, hasNeo4j: bool, hasRag: bool)

  datatype Payload =
    | SearchPayload(jobs: seq<Hit>, count: nat, query: string, matchedSkills: seq<string>,
                    graphHits: nat, vectorHits: nat)
    | RecommendPayload(jobs: seq<Hit>, count: nat, preciseCount: nat, expandedCount: nat,
                       relatedSkills: seq<string>)
    | GapPayload(target: string, userSkills: seq<string>, requiredSkills: seq<string>,
                 matched: seq<string>, missing: seq<string>, matchRate: real,
                 learningPath: seq<Step>, sampleJobs: seq<Row>)
    | VectorGapPayload(analysis: Row)
    | TrendPayload(data: map<string, seq<Row>>)
    | GraphPayload(nodes: seq<Row>, edges: seq<Row>, nodeCount: nat, edgeCount: nat)
    | StatsPayload(stats: map<string, Option<Row>>)
    | CategoriesPayload(rows: seq<Row>)

  /** A handler's answer: a JSON payload, or an `HTTPException` with its status code. */
  datatype Response = Ok(payload: Payload) | HttpError(status: int)

  function Digit(d: nat): char
    requires d < 10
  {
    ('0' as int + d) as char
  }

  /** `str(n)` for a natural number. */
  function NatToString(n: nat): (r: string)
    ensures |r| >= 1
    ensures forall c :: c in r ==> '0' <= c <= '9'
  {
    if n < 10 then [Digit(n)] else NatToString(n / 10) + [Digit(n % 10)]
  }

  /** An f-string renders a missing optional value as `None`. */
  function ShowOption(o: Option<string>): string
  {
    if o.None? then "None" else o.value
  }

  /** An f-string rendering of an optional integer. */
  function ShowOptionNat(o: Option<nat>): string
  {
    if o.None? then "None" else NatToString(o.value)
  }
}
