# Job knowledge-graph platform: a verified model of its decision logic

The platform collects job postings from a recruiting site, cleans them,
extracts the skills each posting asks for, and stores the result twice:
as a Neo4j knowledge graph (jobs, skills, companies, cities) and as a
Chroma vector store. A FastAPI service answers search, recommendation,
skill-gap and market-trend requests by combining the two. It keeps a TTL
cache in front of them, warms that cache in two phases at start-up and
refreshes it periodically. A conversational agent sends mechanical
questions straight to the graph and everything else to a language model,
streaming the answer back as Server-Sent Events. A Vue front end renders
the model's Markdown and keeps the session in a Pinia store.

This project models the deterministic part of that system in Dafny and
proves what the code promises about it. The database, model, embedding,
clock and network calls it depends on become parameters (oracles and
outcome values).

- **Serving layer** (`ApiCache`, `ApiSearch`, `ApiGap`, `ApiWarmup`, `ApiTypes`):
  - the TTL cache as a class over a map;
  - the search and recommendation merge loops, with their dedup and truncation rules;
  - gap-analysis set algebra and learning-path ordering;
  - the warm-up patching of cached entries, the refresh loop's pass, and the graph endpoint's edge fallback.
- **Agent** (`AgentRouter`, `Agent`, `AgentTools`):
  - the keyword classifiers and their order;
  - per-session history truncated to eight messages;
  - the Server-Sent Events stream of a turn, framed as in section 9.2 of the WHATWG HTML Living Standard;
  - the direct graph/vector tools and dictionary skill extraction.
- **Cleaning and skills** (`DataCleaner`, `SkillExtractor`, `SkillDictionary`, `HybridSkills`, `Neo4jImport`):
  - the cleaner's counters and dedup state, as a class;
  - the field normalisers;
  - the skill index and lookups;
  - the rule/LLM merge;
  - the importer's alias map, caches and counters, as a class.
- **Retrieval and LLM clients** (`VectorDb`, `RagService`, `Qwen3Client`):
  - batch dedup and metadata in the vector store;
  - document and prompt builders;
  - result shaping;
  - the batch index bookkeeping;
  - the skill filter of the response parser;
  - the client singleton.
- **ML helpers** (`Distillation`, `Sampler`, `EnhanceQwen3`):
  - vocabulary and one-hot encoding;
  - thresholded prediction;
  - the sampling loops and quotas;
  - the enhancement pipeline's selection and merge.
- **Offline scripts** (`CleaningScript`, `RebuildVectorDb`, `UpdateVectorDb`, `CrawlKeywords`, `DataQualityReport`, `DataQualityAnalysis`):
  - the city-file loop and summary merge;
  - rebuild dedup and filter;
  - incremental update;
  - crawl keyword selection;
  - the report statistics;
  - the quality counters.
- **Front end** (`AiPrompt`, `AppStore`):
  - the Markdown line renderer, as a loop over the lines;
  - the inline rules;
  - the five prompt builders;
  - the store with its getters and actions, as a class, with local storage as a second object.

Shared support modules: `Wrappers` (Option and Outcome), `Text` (strip,
split, join, ASCII lower-case, substring search), `Order` (sorting,
dedup, filtering and counting over sequences), `Assoc` (insertion-ordered
maps, like Python dicts), `Dict` and `Ranking` (`Counter.most_common`
as a stable descending sort).

Where the code has a defect (see "## Findings"), the member that models
the operation follows the code as written. Where the defect reaches a
whole operation, a member of the same name ending in `Corrected` models
the evidently intended behaviour beside it.

## Model

| member | source | states |
|---|---|---|
| ApiCache.TtlCache.constructor | src/api/main.py:19 | the API cache starts empty |
| ApiCache.TtlCache.Get | src/api/main.py:21-28 | a read returns the stored value exactly while `now` is before its expiry; an expired entry is deleted and reads as missing |
| ApiCache.TtlCache.Set | src/api/main.py:30-32 | a write replaces the entry of its key with the value and `now + ttl`; every other key is unchanged |
| ApiCache.SetThenLookup | src/api/main.py:21-32 | a value written at `now` is read back exactly until `now + ttl`, and missing afterwards |
| ApiCache.SetOtherKey | src/api/main.py:30-32 | writing one key never changes what another key reads |
| ApiCache.ReadEvictionInvisible | src/api/main.py:25-28 | deleting an expired entry on read changes what no key reads, at that time or later |
| ApiCache.ReadRemovesOnlyExpired | src/api/main.py:23-28 | a read removes at most its own key, and only when that entry has expired |
| ApiSearch.EffectiveLimit | src/api/main.py:810-812 | the effective limit is `min(top_k, 500)` for a positive `top_k` and 500 when it is missing, always between 1 and 500 |
| ApiSearch.Serve | src/api/main.py:813-815 | a handler serves a live cached response as is; on a miss it computes, caches the result when it succeeded, and serves it |
| ApiSearch.ServedHitIgnoresComputation | src/api/main.py:813-815 | with a live entry, what the handler would compute makes no difference |
| ApiSearch.ServedThenCached | src/api/main.py:813-815 | after a miss, the fresh result is served from the cache until its TTL runs out |
| ApiSearch.SearchKeyDefaultIsMaximum | src/api/main.py:810-812 | omitting `top_k` and asking for 500 or more share one cache entry |
| ApiSearch.MapRemoveQuote | src/api/main.py:880 | each keyword loses its single quotes, in order |
| ApiSearch.LongWords | src/api/main.py:876 | the raw keywords are whitespace tokens of at least two characters with no comma of either kind |
| ApiSearch.TitleKeywords | src/api/main.py:876-880 | the title keywords are one to five quote-free words: the first five long tokens, or the whole query when it has none |
| ApiSearch.PlanGraphQuery | src/api/main.py:830-877 | the graph query searches by skill exactly when some skill was matched, with the effective limit and the request's city; otherwise by the title keywords |
| ApiSearch.AsHits | src/api/main.py:911-926 | each graph row becomes one hit carrying its job id and tag, in order |
| ApiSearch.MergeSearchHits | src/api/main.py:942-951 | the merge loop builds the specified merge, truncated to the limit |
| ApiSearch.AppendedFresh | src/api/main.py:942-947 | appended vector hits have ids not seen before and distinct from each other; every vector id ends up covered |
| ApiSearch.SearchMergedSpec | src/api/main.py:942-947 | the merge keeps every graph hit in order, repeated ids included, then only vector hits with new ids; no vector id is lost |
| ApiSearch.SearchVectorUnused | src/api/main.py:930-932 | when graph rows were found and vectors were not asked for, the vector store's answer does not matter |
| ApiSearch.SearchVectorUsed | src/api/main.py:930-935 | when the vector store is needed, its failure fails the request with a 500 |
| ApiSearch.SearchResponseBounded | src/api/main.py:949-961 | a successful search lists at most the effective limit of jobs and reports their number |
| ApiSearch.GraphSearch | src/api/main.py:807-968 | the search answers 503 without extractor and vector store; otherwise it serves the cached or computed response, caching it for 180 s |
| ApiSearch.RecommendKeyOrderFree | src/api/main.py:984-985 | the order in which the user lists skills does not change the cache key |
| ApiSearch.MergeRecommendHits | src/api/main.py:1111-1120 | the merge loop keeps the first hit of each job id, truncated to the limit |
| ApiSearch.DedupByExtends | src/api/main.py:1111-1116 | deduplicating a longer list extends the dedup of its prefix |
| ApiSearch.RecommendMergedSpec | src/api/main.py:1110-1116 | precise hits with distinct ids come first and unchanged; no two kept hits share an id; every input id is represented |
| ApiSearch.DedupByDistinct | src/api/main.py:1111-1116 | hits with distinct ids are all kept |
| ApiSearch.RecommendFailureIsEmpty | src/api/main.py:1038-1043 | a failed precise or related-skill query is the same as one that found nothing |
| ApiSearch.RecommendVectorOnlyWithoutPrecise | src/api/main.py:1098 | with precise hits, the vector store's answer does not matter |
| ApiSearch.RecommendResponseDistinct | src/api/main.py:1110-1131 | a successful recommendation has no two jobs with the same id and at most the effective limit of them |
| ApiSearch.RecommendTakeDistinct | src/api/main.py:1119-1120 | truncating the merge keeps ids distinct |
| ApiSearch.GraphRecommend | src/api/main.py:981-1136 | the recommendation answers 503 without vector store and Neo4j; otherwise it serves the cached or computed response, caching it for 180 s |
| ApiGap.GapKeyAsWrittenIgnoresCity | src/api/main.py:1152-1153 | as written, two gap requests differing only in city share one cache key |
| ApiGap.GapKeyAsWrittenServesOtherCity | src/api/main.py:1152-1156 | as written, within five minutes of an analysis for one city the same analysis for another city is answered with the first city's payload |
| ApiGap.GapKeySeparatesCities | src/api/main.py:1152-1153 | with the city in the key, the same target and skills share an entry only for the same city |
| ApiGap.GapKeyOrderFree | src/api/main.py:1152 | the order of the user's skills does not change the key |
| ApiGap.MatchSplit | src/api/main.py:1216-1219 | matched and missing skills are sorted and duplicate-free; a required skill is matched exactly when the user has it and missing otherwise; together they count the distinct required skills |
| ApiGap.MatchRateSpec | src/api/main.py:1220 | the match rate lies in [0, 1] and is 1 exactly when nothing required is missing |
| ApiGap.PathStep | src/api/main.py:1237-1245 | a learning-path entry splits the non-empty prerequisites into the user's own and the needed ones, and is ready exactly when none is needed |
| ApiGap.StepsOf | src/api/main.py:1236-1246 | each path row becomes its entry, in order |
| ApiGap.BuildLearningPath | src/api/main.py:1223-1257 | the two loops and the final sort build the specified learning path |
| ApiGap.DirectStepsSpec | src/api/main.py:1248-1255 | every top missing skill without a graph row gets a ready entry with no prerequisites, and no other entry is added |
| ApiGap.ReadyFirstOrdered | src/api/main.py:1257 | after the sort, ready entries come first |
| ApiGap.ReadyFirstPermutes | src/api/main.py:1257 | the sort only reorders the entries |
| ApiGap.LearningPathSpec | src/api/main.py:1223-1257 | the learning path lists ready entries first, ready exactly when nothing is needed; owned prerequisites are the user's and needed ones are not; every row and every top missing skill has its entry |
| ApiGap.GapNotFoundAsWrittenIs500 | src/api/main.py:1209-1213 | as written, the 404 raised inside the `try` reaches the client as a 500 |
| ApiGap.GapNotFoundIff | src/api/main.py:1200-1213 | the corrected analysis answers 404 exactly when no required skill was found and there is no vector store |
| ApiGap.GapCachedOnlyWhenAnalysed | src/api/main.py:1200-1273 | only a full analysis is cached; the vector fallback and errors are not; a full analysis reports the required skills it split |
| ApiGap.GraphGapAnalysis | src/api/main.py:1149-1276 | as written: 503 without Neo4j and vector store; otherwise the cached or computed response under the city-free key, an unknown position answering 500, full analyses cached for 300 s |
| ApiGap.GraphGapAnalysisCorrected | src/api/main.py:1149-1276 | corrected: the same flow under a key that includes the city, an unknown position answering 404 |
| ApiWarmup.SlowTrendPatchSpec | src/api/main.py:391-402 | the slow phase touches only its three lists; a non-empty fresh city list replaces the old one and an empty one keeps it |
| ApiWarmup.WarmupTrendComplete | src/api/main.py:309-402 | after both warm-up phases the trend entry has all five lists, keeps the fast phase's hot skills and categories, and has a city list whenever either city query returned rows |
| ApiWarmup.WarmupFastTrend | src/api/main.py:309-318 | the fast phase writes the trend entry for ten minutes |
| ApiWarmup.WarmupSlowTrend | src/api/main.py:391-402 | the slow phase reads the trend entry (or starts empty), patches it and writes it back for ten minutes |
| ApiWarmup.GraphPatchSpec | src/api/main.py:409-421 | edges are patched only onto cached nodes, which are kept, with the edge count updated |
| ApiWarmup.WarmupSlowGraph | src/api/main.py:409-421 | the slow phase rewrites the default graph entry only when it has nodes and the edge query succeeded |
| ApiWarmup.RefreshOnce | src/api/main.py:436-481 | as written: one pass rewrites the stats entry when it was computed, and with Neo4j the four-list trend entry without cities and the default graph entry |
| ApiWarmup.RefreshOnceCorrected | src/api/main.py:436-481 | corrected: the same pass writing the five-list trend entry, cities included |
| ApiWarmup.RefreshAsWrittenHidesCities | src/api/main.py:459-464 | as written, after a refresh every trend request until expiry gets a payload without a city list, and the next refresh comes before that expiry |
| ApiWarmup.RefreshTrendComplete | src/api/main.py:459-464 | with the city query added, a refreshed trend entry has exactly the lists the endpoint computes |
| ApiWarmup.RefreshKeepsEntriesWarm | src/api/main.py:431-482 | every entry a pass writes is still live when the next pass starts 270 s later; no other key changes |
| ApiWarmup.TrendResponseComplete | src/api/main.py:1299-1349 | a computed trend succeeds exactly when all five queries do, and then has the five lists |
| ApiWarmup.MarketTrend | src/api/main.py:1290-1352 | the trend endpoint answers 503 without Neo4j; otherwise it serves the cached or computed response, caching it for ten minutes |
| ApiWarmup.DefaultGraphKeyIsDefaultRequest | src/api/main.py:1377-1391 | the entry the warm-up and the refresh maintain is the one the default graph request reads |
| ApiWarmup.SkillGraphEdgeFallback | src/api/main.py:1420-1436 | a failed edge query counts as no edges; the graph succeeds exactly when the node query does, with its nodes and both counts |
| ApiWarmup.SkillGraph | src/api/main.py:1376-1439 | the graph endpoint rejects out-of-range parameters with 422, answers 503 without Neo4j, and otherwise serves the cached or computed graph, caching it for ten minutes |
| AgentRouter.FirstCity | src/agent/job_agent.py:284 | the city found is the first city in the iteration order that occurs in the text, and none exactly when no city occurs |
| AgentRouter.NoEmptyCity | src/agent/job_agent.py:25-79 | no city in the set is the empty string, so `""` means no city was found |
| AgentRouter.CityOfSpec | src/agent/job_agent.py:284 | the city is `""` exactly when no city occurs in the text, and otherwise a city that occurs |
| AgentRouter.CityOfOrderFree | src/agent/job_agent.py:284 | with at most one city in the text, the set's iteration order does not matter |
| AgentRouter.DetectDirectAction | src/agent/job_agent.py:222-312 | no direct action for long, knowledge or gap-analysis questions or without a job word; a recommendation exactly on a recommend trigger or "I know" with job context; a search exactly on the search, semantic, city and plain-job-title rules; the query is the stripped text |
| AgentRouter.DetectSameCity | src/agent/job_agent.py:284 | the iteration order enters the decision only through the city it finds |
| AgentRouter.DetectCityOrderFree | src/agent/job_agent.py:222-312 | with at most one city in the text, the decision does not depend on the set's iteration order |
| AgentRouter.KnowledgeQuestionNotDirect | src/agent/job_agent.py:232-250 | "Python后端需要哪些技能" (which skills does a Python back end need) is left to the language model |
| AgentRouter.KnowledgeQuestionExcluded | src/agent/job_agent.py:232-250 | that question matches a knowledge pattern |
| AgentRouter.IsSimpleChat | src/agent/job_agent.py:337-373 | small talk is at most 40 characters with no technical keyword; a follow-up or analysis word rules it out; and stripped text of at most 40 characters with none of these words is small talk |
| Agent.Truncated | src/agent/job_agent.py:183-186 | the history keeps its last eight messages at most |
| Agent.WithUserSpec | src/agent/job_agent.py:398-404 | the new user message is kept last, at most eight remain, and they are the latest ones |
| Agent.LastAI | src/agent/job_agent.py:200-205 | the reply is the content of the last AI message, and there is none exactly when no message is from the AI |
| Agent.ChatReplySpec | src/agent/job_agent.py:200-218 | the reply of `chat` is never empty: the last AI message with content, the fixed apology when there is none, the error text on failure |
| Agent.EscapeNewlines | src/agent/job_agent.py:418 | escaping leaves no newline, changes nothing without one, and never shortens the text |
| Agent.UnescapeNewlines | src/agent/job_agent.py:627 | undoing the escape never lengthens the text |
| Agent.UnescapeEscape | src/agent/job_agent.py:418 | undoing the escape restores any text without a backslash (also line 627) |
| Agent.SplitOn | src/agent/job_agent.py:475 | splitting yields at least one piece |
| Agent.NonEmpty | src/agent/job_agent.py:414-416 | the chunks kept are exactly the non-empty ones the model delivered |
| Agent.DataEvents | src/agent/job_agent.py:414-419 | one `data:` event per non-empty chunk, with newlines escaped, in order |
| Agent.Paragraphs | src/agent/job_agent.py:475-477 | the paragraphs sent are non-empty and newline-free |
| Agent.ParagraphEvents | src/agent/job_agent.py:475-478 | one event per paragraph, each closed by a literal backslash-n pair twice |
| Agent.PlainConcat | src/agent/job_agent.py:375-662 | two runs of plain events (source, status, newline-free data) join to a plain run |
| Agent.GraphFoldPlain | src/agent/job_agent.py:551-615 | the events the LangGraph loop emits are plain, and the texts it collects are non-empty |
| Agent.PrefixedWellFormed | src/agent/job_agent.py:375-662 | prefixing plain events keeps a stage body well formed |
| Agent.DataEventsPlain | src/agent/job_agent.py:414-419 | streamed model chunks are plain events |
| Agent.ParagraphEventsPlain | src/agent/job_agent.py:475-478 | direct-path paragraphs are plain events |
| Agent.QuickPathWellFormed | src/agent/job_agent.py:484-523 | the small-talk and planning paths are well formed |
| Agent.GraphPathWellFormed | src/agent/job_agent.py:525-637 | the LangGraph path, with its model fallback, is well formed |
| Agent.LaterStagesWellFormed | src/agent/job_agent.py:484-637 | every stage after the direct path is well formed |
| Agent.StreamBodyWellFormed | src/agent/job_agent.py:392-637 | the whole stream body is well formed whatever the route |
| Agent.ErrorTextOneLine | src/agent/job_agent.py:641 | the error text has no newline, so it is one `data:` line (also line 661) |
| Agent.RunFraming | src/agent/job_agent.py:390-662 | every stream opens with the ping and ends with the one `[DONE]`; between them only source, status and newline-free data events, except an error event, which comes right before `[DONE]` |
| Agent.RunErrorIff | src/agent/job_agent.py:639-662 | the error event is sent exactly when the body raised and the retry raised too or produced no text |
| Agent.RunHistory | src/agent/job_agent.py:422-424 | the session afterwards holds the truncated history and, when an answer was produced, one AI message after it (also lines 479-480, 624-628, 650-652) |
| Agent.StreamHistory | src/agent/job_agent.py:395-404 | a session never holds more than nine messages after a stream and keeps the user's latest one |
| Agent.DirectAnswerPrecedes | src/agent/job_agent.py:434-482 | a direct answer that arrives settles the stream: the model, LangGraph and retry are never consulted, and the answer is stored |
| Agent.DirectFailureFallsThrough | src/agent/job_agent.py:461-483 | a failed or timed-out direct call falls through, leaving only its status line before the later stages |
| Agent.LaterStagesOrder | src/agent/job_agent.py:484-523 | small talk is tried before planning and planning before LangGraph; neither consults the graph |
| Agent.LlmModeAlwaysStores | src/agent/job_agent.py:406-425 | the forced model mode ignores the direct tools and the graph, and stores the answer even when empty |
| Agent.ForcedModesSearch | src/agent/job_agent.py:429-432 | the graph and rag modes always take the direct path as a search with the raw input |
| Agent.RecommendWithoutSkillsSearches | src/agent/job_agent.py:448-460 | a recommendation without recognisable skills falls back to a search with the raw input |
| Agent.JobAgent.constructor | src/agent/job_agent.py:100-153 | the agent starts with no session |
| Agent.JobAgent.Chat | src/agent/job_agent.py:160-218 | `chat` answers with the reply of the LangGraph run, uses recursion limit 3 for follow-ups and 8 otherwise, and stores the run's messages as the session |
| Agent.JobAgent.ResetMemory | src/agent/job_agent.py:664-677 | resetting drops one session, or all of them |
| Agent.JobAgent.ChatStream | src/agent/job_agent.py:375-662 | the stream emits the specified events and stores the specified history for its session only |
| Agent.StreamTurn | src/agent/job_agent.py:392-662 | one streamed turn produces the specified stream |
| Agent.DirectToolCall | src/agent/job_agent.py:442-460 | skills are extracted only for a recommendation, and the call made is the specified one |
| Agent.LastReply | src/agent/job_agent.py:200-208 | the backwards scan finds the specified reply |
| Agent.RunStream | src/agent/job_agent.py:406-662 | the stream after the history update is the specified run |
| Agent.RunLaterStages | src/agent/job_agent.py:484-637 | the later stages emit the specified events |
| Agent.RunGraph | src/agent/job_agent.py:551-615 | the LangGraph event loop emits the specified events and collects the specified texts |
| AgentTools.LongestFirst | src/agent/tools.py:96 | the dictionary keys are tried longest first, as a rearrangement of the keys |
| AgentTools.ExtractedMembers | src/agent/tools.py:93-99 | no skill is listed twice, and a skill is listed exactly when one of its keys occurs in the lower-cased text |
| AgentTools.SkillsInSpec | src/agent/tools.py:91-99 | a skill is found exactly when one of its dictionary keys occurs in the lower-cased text, and none twice |
| AgentTools.ExtractedOrder | src/agent/tools.py:96-98 | the skills come out in the order of their first matching key: every matching key of a later skill comes after a matching key of each earlier one |
| AgentTools.SkillsInByLength | src/agent/tools.py:96 | output order follows key length: for every key found in the text for a later skill, an earlier skill has a key found in the text that is at least as long |
| AgentTools.LongestFirstStable | src/agent/tools.py:96 | keys of equal length keep their dictionary order, as `sorted` is stable |
| AgentTools.ExtractSkills | src/agent/tools.py:91-99 | `_extract_skills` returns `SkillsIn` of the module's dictionary: each skill once, exactly those with a key in the lower-cased text, in the order of their first matching key among the keys sorted longest first (SkillsInSpec, ExtractedOrder, SkillsInByLength) |
| AgentTools.ExtractFrom | src/agent/tools.py:94-99 | the loop appends the name of each matching key, in order, unless it is already listed |
| AgentTools.ExtractedStep | src/agent/tools.py:97-98 | one more key appends its name exactly when the key matches and the name is new |
| AgentTools.CityValue | src/agent/tools.py:105 | the city filter is the stripped city, and none exactly when the city is all whitespace (also line 190) |
| AgentTools.DirectTitleKeywords | src/agent/tools.py:127-129 | one to three quote-free keywords: the first three long tokens, or the first fifteen characters of the query when it has none |
| AgentTools.SearchQueryOf | src/agent/tools.py:108-139 | the graph is queried by the recognised skills when there are some, else by title keywords, with the city filter |
| AgentTools.Numbered | src/agent/tools.py:153 | one line per job, numbered from 1, in order (also lines 216, 176, 238) |
| AgentTools.SearchDirectSource | src/agent/tools.py:101-184 | the search's source is `graph` exactly when the consulted graph returned rows or the graph was forced; a Neo4j exception counts as no rows |
| AgentTools.SearchDirectRagFallbackOnly | src/agent/tools.py:150-172 | the vector store's answer matters only when the graph gave nothing and was not forced |
| AgentTools.SearchDirectForcedRag | src/agent/tools.py:109 | forcing the vector store ignores the graph and reports `rag` (also line 166-184) |
| AgentTools.RecommendDirectNoSkills | src/agent/tools.py:194 | without skills the graph is never used: the answer is the forced-graph miss or the vector answer (also line 227-245) |
| AgentTools.RecommendDirectSource | src/agent/tools.py:186-245 | the recommendation's source is `graph` exactly on a graph hit or a forced graph |
| AgentTools.ParseSkillList | src/agent/tools.py:281 | the parsed skills are non-empty and free of both kinds of comma (also line 296) |
| AgentTools.ParseJoinedSkills | src/agent/tools.py:281 | parsing a comma-joined list of clean skill names gives the list back (also line 296) |
| AgentTools.GapKeyword | src/agent/tools.py:300 | the title keyword has no quote and at most 30 characters |
| AgentTools.AnalyzeSkillGapSpec | src/agent/tools.py:307-322 | a graph answer splits the distinct required skills into sorted matched and missing lists, shows at most ten missing skills and suggests the first five |
| SkillExtractor.BuildSkillIndex | src/nlp/skill_extractor.py:48-71 | the loop builds the name index (lower-cased name to entry) and the alias index (lower-cased alias to standard name), a later entry replacing an earlier key's value |
| SkillExtractor.AddAliases | src/nlp/skill_extractor.py:61-63 | the alias loop of one entry maps each of its lower-cased aliases to the entry's standard name, in order, a later alias overwriting an equal earlier key |
| SkillExtractor.NameValue | src/nlp/skill_extractor.py:53-58 | a name-index value is a taxonomy entry whose lower-cased name is its key |
| SkillExtractor.AliasValue | src/nlp/skill_extractor.py:61-63 | an alias-index value is the name of an entry carrying that alias, and that name is a name-index key |
| SkillExtractor.TokenInContains | src/nlp/skill_extractor.py:197-205 | a token match is always a substring match |
| SkillExtractor.ShortTokenBoundaries | src/nlp/skill_extractor.py:197-205 | "go" inside "golang" and "c" inside "c++" do not match; "go" between Chinese characters does |
| SkillExtractor.ShortTokenBeforeOtherCharacters | src/nlp/skill_extractor.py:290-296 | only ASCII letters, digits, `+` and `#` block a short match, so "c" still matches in "c端" and in "c/c++", whatever the comment beside the rule says |
| SkillExtractor.MatchSkillInTaxonomy | src/nlp/skill_extractor.py:269-309 | a matched entry is an entry of the taxonomy held in the name index |
| SkillExtractor.MatchSkillExactName | src/nlp/skill_extractor.py:279-283 | an exact name wins: the result is the last entry with that lower-cased name |
| SkillExtractor.MatchSkillExactAlias | src/nlp/skill_extractor.py:285-288 | without an exact name, an exact alias gives the entry named by that alias |
| SkillExtractor.MatchSkillNone | src/nlp/skill_extractor.py:269-309 | nothing is matched exactly when no name or alias equals the text or matches it fuzzily either way |
| SkillExtractor.NameValueIndexed | src/nlp/skill_extractor.py:53-58 | a name-index value is held under its own lower-cased name |
| SkillExtractor.DirectMatchSpec | src/nlp/skill_extractor.py:192-218 | direct matches are index entries with distinct names, each found by a name or alias token of the text |
| SkillExtractor.IndexedNamesUnique | src/nlp/skill_extractor.py:53-58 | distinct index entries have distinct names |
| SkillExtractor.WordMatchSpec | src/nlp/skill_extractor.py:220-236 | every word match is an index entry reached from one of the words, at most one per word |
| SkillExtractor.PatternMatchSpec | src/nlp/skill_extractor.py:238-267 | at most one entry per context keyword, each the first in taxonomy order whose name the keyword's pattern finds |
| SkillExtractor.PatternExample | src/nlp/skill_extractor.py:259-261 | "熟悉Python开发" matches Python after 熟悉, ignoring case |
| SkillExtractor.PatternStopsAtLineBreak | src/nlp/skill_extractor.py:259-261 | a line break between keyword and name stops the pattern |
| SkillExtractor.Tag | src/nlp/skill_extractor.py:157-188 | each matched entry is recorded under its own name with the pass's source and confidence |
| SkillExtractor.TagSpec | src/nlp/skill_extractor.py:157-188 | tagged entries carry their entry's name, the pass's source and confidence |
| SkillExtractor.MergePasses | src/nlp/skill_extractor.py:167-188 | skipping names already listed keeps names unique, keeps the first pass whole and lists every later name |
| SkillExtractor.PassesWellTagged | src/nlp/skill_extractor.py:138-190 | every pass records taxonomy entries under their own names with confidence between the base and 1 |
| SkillExtractor.DirectPassUnique | src/nlp/skill_extractor.py:157-164 | the direct pass has unique names |
| SkillExtractor.ExtractFromTextSpec | src/nlp/skill_extractor.py:138-190 | the names extracted from a text are unique, and each is a taxonomy entry under its own name with confidence between the base and 1 |
| SkillExtractor.ExtractFromTextKeeps | src/nlp/skill_extractor.py:157-188 | the direct matches come first at their boosted confidence, and every word or pattern match's name is present |
| SkillExtractor.MergeTextPasses | src/nlp/skill_extractor.py:157-188 | the merge of one text's three passes has the properties of the pass merge |
| SkillExtractor.PatternMatchInTaxonomy | src/nlp/skill_extractor.py:253-264 | pattern matches are taxonomy entries |
| SkillExtractor.Matches | src/nlp/skill_extractor.py:100-101 | each listed skill text is matched in order |
| SkillExtractor.MatchesOnePerName | src/nlp/skill_extractor.py:100-101 | matched entries are taxonomy entries, one per name |
| SkillExtractor.ExplicitPhase | src/nlp/skill_extractor.py:99-110 | each matched skill whose name is new is stored as explicit at confidence 1, keyed by its name |
| SkillExtractor.ExplicitPhaseFrom | src/nlp/skill_extractor.py:99-110 | every stored entry is one of the matches |
| SkillExtractor.ExplicitPhaseCovers | src/nlp/skill_extractor.py:99-110 | every match leaves its entry, explicit at confidence 1 |
| SkillExtractor.Upsert | src/nlp/skill_extractor.py:119-122 | a candidate is stored when its name is new or its confidence strictly higher; the dict stays keyed by name |
| SkillExtractor.UpsertKeys | src/nlp/skill_extractor.py:119-122 | after the upserts the keys are the old keys and the candidates' names |
| SkillExtractor.UpsertMax | src/nlp/skill_extractor.py:119-122 | each stored confidence is at least the old one and at least every candidate's for that name |
| SkillExtractor.UpsertFrom | src/nlp/skill_extractor.py:119-122 | each stored entry is the old one or a candidate |
| SkillExtractor.UpsertKeepsTop | src/nlp/skill_extractor.py:121 | an entry at least as confident as every candidate is never replaced; ties keep the earlier entry |
| SkillExtractor.JobDict | src/nlp/skill_extractor.py:96-134 | the job's dict of extracted skills is keyed by name |
| SkillExtractor.ValuesByName | src/nlp/skill_extractor.py:136 | the dict's values have unique names and are the entries stored under them |
| SkillExtractor.JobExtractionUnique | src/nlp/skill_extractor.py:78-136 | the skills extracted from one job have unique names |
| SkillExtractor.PassesBounded | src/nlp/skill_extractor.py:114-130 | title and JD candidates are taxonomy entries under their own names with confidence between their base (0.9, 0.7) and 1 |
| SkillExtractor.UpsertTwiceKeepsTop | src/nlp/skill_extractor.py:119-134 | two rounds of candidates never exceeding an entry's confidence leave that entry |
| SkillExtractor.UpsertTwiceFrom | src/nlp/skill_extractor.py:119-134 | after two rounds each entry is an original one or a candidate of either round |
| SkillExtractor.JobExtractionExplicit | src/nlp/skill_extractor.py:99-134 | every explicitly matched skill keeps its explicit entry at confidence 1, since ties keep it |
| SkillExtractor.JobExtractionEntries | src/nlp/skill_extractor.py:78-136 | every extracted skill is a taxonomy entry under its own name with confidence between 0.7 and 1, and is explicit or a title or JD candidate |
| SkillExtractor.JobExtractionMax | src/nlp/skill_extractor.py:119-134 | each title or JD candidate's name is present with at least the candidate's confidence |
| SkillExtractor.AverageBounds | src/nlp/skill_extractor.py:375 | the average of values in [lo, hi] lies in [lo, hi] |
| SkillExtractor.AverageHotPositive | src/nlp/skill_extractor.py:370-375 | the average hot score is positive exactly when some extracted skill has a positive score, and then it is at least 1 |
| SkillExtractor.AverageHotAtMost | src/nlp/skill_extractor.py:370-375 | the average is at most any bound on the hot scores |
| SkillExtractor.EnrichCategories | src/nlp/skill_extractor.py:362-368 | a category is counted exactly when some extracted skill has it, and its count is the number of such skills |
| SkillExtractor.Extractor.constructor | src/nlp/skill_extractor.py:22-33 | the extractor builds its index from the flattened taxonomy |
| SkillExtractor.Extractor.ExtractFromJob | src/nlp/skill_extractor.py:78-136 | `extract_from_job` returns the specified extraction: explicit skills, then title candidates, then JD candidates, kept by name |
| SkillExtractor.Extractor.ExtractAndEnrich | src/nlp/skill_extractor.py:341-378 | `extract_and_enrich` returns the extracted skills with their names, category counts and average hot score |
| SkillExtractor.EnrichFields | src/nlp/skill_extractor.py:362-375 | the enrichment loop computes the specified counts and average |
| SkillExtractor.UpsertAll | src/nlp/skill_extractor.py:119-122 | the upsert loop over one candidate list computes the specified dict |
| SkillDictionary.CategoryName | src/graph_builder/skill_dictionary.py:66 | the category name has no `_`, and a key without `_` is its own name |
| SkillDictionary.CategoryNameAfterFirst | src/graph_builder/skill_dictionary.py:66 | with a `_`, the name is what follows the first `_`, up to the next `_` or the end |
| SkillDictionary.Tagged | src/graph_builder/skill_dictionary.py:68-71 | one copied entry per entry of the category |
| SkillDictionary.Sizes | src/graph_builder/skill_dictionary.py:64-71 | one size per category |
| SkillDictionary.FlattenSkillsSpec | src/graph_builder/skill_dictionary.py:47-73 | one flattened entry per taxonomy entry, each keeping its fields and carrying its own category's name |
| SkillDictionary.ByCategory | src/graph_builder/skill_dictionary.py:75-77 | exactly the entries of that category, as many as there are |
| SkillDictionary.ByLevel | src/graph_builder/skill_dictionary.py:79-81 | exactly the entries at that level; an entry without a level matches none |
| SkillDictionary.ByHotScore | src/graph_builder/skill_dictionary.py:83-89 | exactly the entries at or above the score, hottest first |
| SkillDictionary.SearchSkill | src/graph_builder/skill_dictionary.py:91-106 | exactly the entries whose name or an alias contains the keyword, ignoring case, each listed once |
| SkillDictionary.SkillByName | src/graph_builder/skill_dictionary.py:108-113 | the first entry whose name equals the given one ignoring case, and none exactly when no entry does |
| SkillDictionary.MatchByAlias | src/graph_builder/skill_dictionary.py:115-134 | exactly the entries whose name or an alias equals the text ignoring case; never containment |
| SkillDictionary.AliasHitIsSearchHit | src/graph_builder/skill_dictionary.py:91-134 | a match by alias is also a search hit for the same text |
| SkillDictionary.GetStatistics | src/graph_builder/skill_dictionary.py:136-153 | the statistics fail exactly on an empty dictionary (the average divides by zero); otherwise they count the entries and those with hot score at least 80 |
| SkillDictionary.StatisticsCategories | src/graph_builder/skill_dictionary.py:140 | each category counter holds the number of entries of that category, and only used categories appear |
| HybridSkills.SkillExistsGrows | src/nlp/hybrid_skill_extractor.py:249-252 | a name that exists in a list exists in every extension of it |
| HybridSkills.FuzzyMatch | src/nlp/hybrid_skill_extractor.py:254-266 | the first known name that equals, contains or is contained in the input, ignoring case; none exactly when no known name does |
| HybridSkills.FuzzyMatchBlank | src/nlp/hybrid_skill_extractor.py:254-266 | an input that is blank once normalised matches the first known name |
| HybridSkills.RulePhase | src/nlp/hybrid_skill_extractor.py:227-230 | the first loop lists every rule skill in order with the confidence its details give it |
| HybridSkills.Addition | src/nlp/hybrid_skill_extractor.py:234-245 | an LLM skill adds a known name that does not exist yet, at 0.75 or 0.7 |
| HybridSkills.ListedExists | src/nlp/hybrid_skill_extractor.py:249-252 | a listed name exists |
| HybridSkills.AddExtends | src/nlp/hybrid_skill_extractor.py:238-245 | adding a name that does not exist yet extends the merge |
| HybridSkills.LlmStepExtends | src/nlp/hybrid_skill_extractor.py:234-245 | each LLM step extends the merge |
| HybridSkills.ExtendsTrans | src/nlp/hybrid_skill_extractor.py:234-245 | extending twice is extending |
| HybridSkills.LlmPhaseExtends | src/nlp/hybrid_skill_extractor.py:233-245 | the LLM loop extends whatever it starts from |
| HybridSkills.MergeSpec | src/nlp/hybrid_skill_extractor.py:206-247 | the merged list starts with the rule skills in order; every later name is a known skill differing, ignoring case and whitespace, from every earlier one, at 0.75 or 0.7; the confidence dict covers exactly the merged names |
| HybridSkills.MergeRuleConfidence | src/nlp/hybrid_skill_extractor.py:228-231 | each rule skill keeps the confidence its details give it, 0.9 by default |
| HybridSkills.CoveredGrows | src/nlp/hybrid_skill_extractor.py:234-245 | a covered skill stays covered as the list grows |
| HybridSkills.LlmStepPrefix | src/nlp/hybrid_skill_extractor.py:234-245 | an LLM step only appends |
| HybridSkills.LlmStepCovers | src/nlp/hybrid_skill_extractor.py:234-245 | after its step an LLM skill is covered: it exists, or neither it nor a fuzzy match can be added |
| HybridSkills.MergeCovers | src/nlp/hybrid_skill_extractor.py:234-245 | every LLM skill ends up covered by the merged list |
| HybridSkills.MergeSkills | src/nlp/hybrid_skill_extractor.py:206-247 | the two loops of `_merge_skills` compute the specified list and confidence dict |
| HybridSkills.MergeRules | src/nlp/hybrid_skill_extractor.py:227-230 | the first loop lists the rule skills in order, each with its confidence |
| HybridSkills.MergeLlm | src/nlp/hybrid_skill_extractor.py:233-245 | the second loop adds, skill by skill, what the specified LLM step adds |
| HybridSkills.DetailOf | src/nlp/hybrid_skill_extractor.py:153-166 | a merged name's detail carries that name, or is the rule skill's own details |
| HybridSkills.Details | src/nlp/hybrid_skill_extractor.py:152-166 | one detail per merged name, in order |
| HybridSkills.ExtractModelUse | src/nlp/hybrid_skill_extractor.py:133-142 | when the model is not asked the result ignores it and is rule-only; the method is `hybrid` exactly when the model was asked and returned something (also line 172) |
| HybridSkills.ExtractStats | src/nlp/hybrid_skill_extractor.py:173-178 | the merged count is the number of merged names, between the rule count and the rule plus LLM counts; new skills from the model are at most the LLM count |
| HybridSkills.NewCount | src/nlp/hybrid_skill_extractor.py:177 | the skills new from the model are at most the LLM count |
| HybridSkills.ExtractDetailsKnown | src/nlp/hybrid_skill_extractor.py:152-166 | a bare LLM detail names a known skill |
| HybridSkills.DetailsKnown | src/nlp/hybrid_skill_extractor.py:152-166 | details not taken from the rule skills name known skills |
| HybridSkills.MergeLength | src/nlp/hybrid_skill_extractor.py:234-245 | each LLM skill adds at most one name |
| HybridSkills.MergeNoDup | src/nlp/hybrid_skill_extractor.py:206-247 | with duplicate-free rule skills the merged list has no duplicates |
| HybridSkills.DetailNames | src/nlp/hybrid_skill_extractor.py:152-166 | the names a job ends up with are the details' names |
| HybridSkills.DetailNamesMerged | src/nlp/hybrid_skill_extractor.py:152-166 | details carry the merged names, in order |
| HybridSkills.InfoByName | src/nlp/hybrid_skill_extractor.py:130 | the rule index maps each name to an entry with that name |
| HybridSkills.ExtractNames | src/nlp/hybrid_skill_extractor.py:112-179 | with unique rule names, the result's names are unique and start with the rule names |
| HybridSkills.ExtractJobNames | src/nlp/hybrid_skill_extractor.py:112-179 | for a job, whose rule names are unique, the same holds |
| HybridSkills.BatchMergeSpec | src/nlp/hybrid_skill_extractor.py:372-386 | when the merge raises, the fallback keeps exactly the rule skills at 0.9; otherwise the merge sees job i's LLM list, or none past the end |
| Neo4jImport.AliasMapSpec | src/graph_builder/neo4j_importer.py:60-77 | every entry's lower-cased name and aliases are keys, and only those; under each key sits the name of the last entry listing it |
| Neo4jImport.AliasMapLast | src/graph_builder/neo4j_importer.py:67-75 | a key maps to the name of an entry listing it that no later entry lists |
| Neo4jImport.AliasMapEmpty | src/graph_builder/neo4j_importer.py:56-58 | the map is empty exactly when there is no dictionary or it has no entries |
| Neo4jImport.BuildAliasMap | src/graph_builder/neo4j_importer.py:60-77 | the two loops store the specified map |
| Neo4jImport.PutKeys | src/graph_builder/neo4j_importer.py:74-75 | storing an entry's keys in order |
| Neo4jImport.Normalize | src/graph_builder/neo4j_importer.py:79-100 | the input unchanged without a map; otherwise either the input or the non-empty standard name stored under its lower-cased form |
| Neo4jImport.RenamesIff | src/graph_builder/neo4j_importer.py:96-97 | the normalisation counter moves exactly when the name changes |
| Neo4jImport.NormalizeStandard | src/graph_builder/neo4j_importer.py:67-100 | a standard name that no later entry lists normalises to itself |
| Neo4jImport.NodeId | src/graph_builder/neo4j_importer.py:165 | an id is the prefix followed by the name, as long as both, with no space after the prefix (also line 313) |
| Neo4jImport.NodeIdDistinct | src/graph_builder/neo4j_importer.py:165 | names that differ ignoring case and space-versus-underscore get different ids (also line 313) |
| Neo4jImport.GetSkillSpec | src/graph_builder/neo4j_importer.py:341-376 | a skill lookup keeps the cache sound and only grows it; a node it returns exists in the graph; without a node the raw name is reported once and nothing is cached |
| Neo4jImport.GetCompanySpec | src/graph_builder/neo4j_importer.py:302-339 | a company lookup has no node exactly when the stripped name is empty; otherwise the stripped name is cached with the node whose id it gives; the counter moves at most once, only when the node is new |
| Neo4jImport.CompanyNamedSpec | src/graph_builder/neo4j_importer.py:305-339 | the same, for an already stripped name |
| Neo4jImport.SkillsLoopKeeps | src/graph_builder/neo4j_importer.py:233-248 | the skill loop touches neither the job counter, the failures nor the company cache |
| Neo4jImport.ImportAllStep | src/graph_builder/neo4j_importer.py:206-263 | running over one more job is one more step |
| Neo4jImport.ImportAllConcat | src/graph_builder/neo4j_importer.py:206-263 | running over two lists is running over the second from where the first stopped, so batching does not matter |
| Neo4jImport.ImportAllSplit | src/graph_builder/neo4j_importer.py:206-207 | the same split at two positions of one list |
| Neo4jImport.ImportOneCounts | src/graph_builder/neo4j_importer.py:209-263 | one job moves the job counter by one exactly when it commits, and otherwise is recorded as failed by id |
| Neo4jImport.ImportAllCounts | src/graph_builder/neo4j_importer.py:189-275 | the job counter grows by exactly the jobs that commit; every other job is recorded as failed, in order |
| Neo4jImport.CreatedPlusFailed | src/graph_builder/neo4j_importer.py:252-256 | created plus failed is the number of jobs |
| Neo4jImport.SkillsLoopSound | src/graph_builder/neo4j_importer.py:233-248 | the skill loop keeps the skill cache sound and never forgets a reported name |
| Neo4jImport.ImportOneCaches | src/graph_builder/neo4j_importer.py:209-263 | one job keeps both caches sound, and creates a company only when the cache gains it |
| Neo4jImport.ProcessedCaches | src/graph_builder/neo4j_importer.py:213-252 | the same for the body of the transaction |
| Neo4jImport.AfterCompanyCaches | src/graph_builder/neo4j_importer.py:219-230 | the same for the company step |
| Neo4jImport.ImportAllCaches | src/graph_builder/neo4j_importer.py:189-275 | over a run both caches stay sound and each company is created at most once |
| Neo4jImport.Importer.constructor | src/graph_builder/neo4j_importer.py:18-58 | counters at zero, nothing reported, the alias map built from the dictionary |
| Neo4jImport.Importer.NormalizeSkillName | src/graph_builder/neo4j_importer.py:79-100 | the normalised name, and the counter moved exactly when it differs |
| Neo4jImport.Importer.ImportSkills | src/graph_builder/neo4j_importer.py:147-187 | one skill id per entry, the counter grown by the number of entries, the total returned |
| Neo4jImport.Importer.GetSkillNode | src/graph_builder/neo4j_importer.py:341-376 | the lookup specified by GetSkill, with its counter and reported set |
| Neo4jImport.Importer.GetOrCreateCompany | src/graph_builder/neo4j_importer.py:302-339 | the lookup specified by GetCompany, with its counter |
| Neo4jImport.Importer.SkillsStep | src/graph_builder/neo4j_importer.py:233-248 | the skill loop of one job |
| Neo4jImport.Importer.CompanyStep | src/graph_builder/neo4j_importer.py:218-230 | the company of one job and its relation |
| Neo4jImport.Importer.ImportJobStep | src/graph_builder/neo4j_importer.py:209-263 | the body of the per-job `try` |
| Neo4jImport.Importer.ImportBatch | src/graph_builder/neo4j_importer.py:207-263 | one batch |
| Neo4jImport.Importer.ImportJobs | src/graph_builder/neo4j_importer.py:189-275 | the batches run in order from empty caches, and the running total is returned |
| Neo4jImport.ImportJobsSpec | src/graph_builder/neo4j_importer.py:189-275 | one call: the total grows by the jobs that commit, all others are the failures, companies are created at most once, and cached skill nodes exist |
| VectorDb.IntToString | src/rag/vector_db.py:146-147 | `str` of an integer is non-empty and starts with `-` exactly for a negative number |
| VectorDb.PartsFromSound | src/rag/vector_db.py:196-226 | only parts whose field has content are emitted, after the starting one |
| VectorDb.PartsFromIncreasing | src/rag/vector_db.py:196-226 | parts come in the fixed order |
| VectorDb.PartsFromComplete | src/rag/vector_db.py:196-226 | every part whose field has content is emitted |
| VectorDb.DocParts | src/rag/vector_db.py:196-228 | one labelled text per emitted part |
| VectorDb.DocSectionsSpec | src/rag/vector_db.py:176-228 | parts come in the order title, skills, skills again, city, experience, education, salary, industry, company, welfare, each at most once and exactly when its field has content |
| VectorDb.DocPartsNonEmpty | src/rag/vector_db.py:225-228 | no emitted part is empty, and the welfare part takes at most five items |
| VectorDb.PartNonEmpty | src/rag/vector_db.py:198-226 | every emitted part is non-empty |
| VectorDb.SkillsTwice | src/rag/vector_db.py:201-205 | the labelled skills part is immediately followed by the bare skills text |
| VectorDb.Metadata | src/rag/vector_db.py:140-155 | the metadata keeps the id and title, joins the first fifteen skills with commas and holds the full count as text |
| VectorDb.MetadataSkillsSplit | src/rag/vector_db.py:154 | the stored skills split back into the first fifteen when none holds a comma |
| VectorDb.DedupedSpec | src/rag/vector_db.py:124-132 | the deduped batch holds no empty id and no repeated id, and loses no id |
| VectorDb.FirstKept | src/rag/vector_db.py:127-131 | the first job of each id survives |
| VectorDb.UpsertAll | src/rag/vector_db.py:164-169 | the upsert's keys are the old ones plus the ids |
| VectorDb.UpsertAllSpec | src/rag/vector_db.py:164-169 | distinct ids each get their own record, other ids are untouched |
| VectorDb.Records | src/rag/vector_db.py:134-157 | one record per job, built from that job |
| VectorDb.LoadBatchKeys | src/rag/vector_db.py:116-172 | a loading batch adds exactly its non-empty ids; a failing batch changes nothing |
| VectorDb.LoadBatchFirst | src/rag/vector_db.py:124-169 | a loading batch stores each id's first job's record |
| VectorDb.LoadBatchFrame | src/rag/vector_db.py:164-172 | a batch leaves alone every id none of its jobs carries |
| VectorDb.LoadFrame | src/rag/vector_db.py:102-174 | adding jobs only adds keys, only ids of the jobs read, and leaves other entries alone |
| VectorDb.LoadAll | src/rag/vector_db.py:102-174 | when no batch fails every job with an id is stored |
| VectorDb.OneBatch | src/rag/vector_db.py:116-169 | a single loading batch stores each id's first job's record |
| VectorDb.SearchSize | src/rag/vector_db.py:257-261 | at most 500 and at most the total; an absent or zero top_k asks for the maximum; positive for a non-empty collection |
| VectorDb.SkillQuery | src/rag/vector_db.py:289 | the query starts with the fixed lead and mentions every skill |
| VectorDb.JoinContains | src/rag/vector_db.py:289 | every joined part occurs in the join |
| VectorDb.VectorStore.constructor | src/rag/vector_db.py:20-76 | an empty collection |
| VectorDb.VectorStore.Clear | src/rag/vector_db.py:300-313 | the collection is empty afterwards |
| VectorDb.VectorStore.Search | src/rag/vector_db.py:230-270 | a prefix of the ranking of length SearchSize; empty for an empty collection; never more than top_k or 500 |
| VectorDb.VectorStore.AddJobs | src/rag/vector_db.py:102-174 | the collection after the batches is the specified Load |
| VectorDb.DedupBatch | src/rag/vector_db.py:124-132 | the dedup loop over a `seen` set computes Deduped |
| VectorDb.BuildRecords | src/rag/vector_db.py:134-157 | one id and one record per deduped job |
| RagService.Similarity | src/rag/rag_service.py:81-82 | the similarity of any distance lies in (0, 1], and is 1 for a non-positive distance |
| RagService.SimilarityMonotone | src/rag/rag_service.py:81-82 | a larger distance never gives a larger similarity |
| RagService.ParseSkills | src/rag/rag_service.py:85-86 | an empty metadata string gives no skills |
| RagService.ParseSkillsClean | src/rag/rag_service.py:86 | every parsed skill is non-empty, comma-free and stripped |
| RagService.StripPieceClean | src/rag/rag_service.py:86 | a kept piece is non-empty, comma-free and stripped |
| RagService.ParseMetadataSkills | src/rag/rag_service.py:85-86 | parsing the stored skills gives back the job's first fifteen skills when they are stripped, non-empty and comma-free |
| RagService.Retrieved | src/rag/rag_service.py:79-100 | a retrieved job keeps the hit's id, parses its skills, keeps at most the first 800 characters of its document and has a similarity in (0, 1] |
| RagService.RetrievedAll | src/rag/rag_service.py:77-100 | one retrieved job per hit, in order |
| RagService.ContextSkills | src/rag/rag_service.py:132 | the skills shown for a job are never empty |
| RagService.ContextLines | src/rag/rag_service.py:129-139 | one numbered context line per job among the first five |
| RagService.ContextSkillsSplit | src/rag/rag_service.py:132 | the shown skills split back into the job's first six skills |
| RagService.SearchAndSummarize | src/rag/rag_service.py:50-116 | one record per hit of the search, the count is their number, at most top_k and 500, and a summary is asked for exactly when there are jobs and an API key |
| RagService.RetrieveAll | src/rag/rag_service.py:77-100 | the loop builds one record per hit |
| RagService.CityFilter | src/rag/rag_service.py:181 | a filter exactly when a non-empty city is given, and then that city |
| RagService.UserSkillsText | src/rag/rag_service.py:200 | an empty skill list is shown as the placeholder |
| RagService.SkillGapAnalysis | src/rag/rag_service.py:156-224 | the search uses the city filter and 20 results; at most five target jobs, one per hit in order; the model is asked only with an API key; the inputs are echoed |
| RagService.SampleTargets | src/rag/rag_service.py:186-194 | the loop builds one target per hit among the first five |
| RagService.SimilarExcludes | src/rag/rag_service.py:279-287 | no similar job is the original, and each comes from a hit |
| RagService.SimilarFills | src/rag/rag_service.py:276-289 | with top_k + 1 hits, of which at most one is the original, top_k similar jobs remain |
| RagService.SimilarDropsAtMostOne | src/rag/rag_service.py:279-287 | at most one hit is dropped when the original occurs at most once, none when it does not occur |
| RagService.FindSimilarJobs | src/rag/rag_service.py:251-293 | a missing original gives []; otherwise the original's document is searched for top_k + 1 hits, the original is dropped, and at most top_k remain |
| Qwen3Client.KnownSkillsText | src/llm/qwen3_local_client.py:236-237 | no known skills gives the default reference list |
| Qwen3Client.KnownSkillsNamed | src/llm/qwen3_local_client.py:236 | each of the first 50 known skills is named in the reference line |
| Qwen3Client.ExtractionPrompt | src/llm/qwen3_local_client.py:230-254 | the prompt opens with the JD's first 1800 characters in place and is bounded by its parts |
| Qwen3Client.ExtractionPromptParts | src/llm/qwen3_local_client.py:240-252 | the prompt holds the JD excerpt and the reference line, and nothing of the JD past 1800 characters matters |
| Qwen3Client.JsonSkills | src/llm/qwen3_local_client.py:302-313 | the JSON path's result has no duplicates |
| Qwen3Client.JsonSkillsSpec | src/llm/qwen3_local_client.py:302-313 | the JSON path keeps exactly the stripped strings of length 2-49, each once, already stripped |
| Qwen3Client.FallbackSkillsAsWritten | src/llm/qwen3_local_client.py:318-330 | the fallback path as written has no duplicates |
| Qwen3Client.FallbackSkillsAsWrittenSpec | src/llm/qwen3_local_client.py:318-330 | as written, the fallback keeps exactly the stripped forms of quoted strings of length 2-49 before stripping that are not excluded words or numbers; each is stripped and shorter than 50 |
| Qwen3Client.FallbackKeepsBlank | src/llm/qwen3_local_client.py:320 | a quoted string of two blanks passes the length check before stripping and is reported as an empty skill |
| Qwen3Client.FallbackSkills | src/llm/qwen3_local_client.py:318-330 | the corrected fallback has no duplicates |
| Qwen3Client.FallbackSkillsSpec | src/llm/qwen3_local_client.py:318-330 | the corrected fallback keeps exactly the stripped quoted strings of length 2-49 that are not excluded words or numbers |
| Qwen3Client.SkillsOf | src/llm/qwen3_local_client.py:256-333 | as written, with the as-written fallback: the parsed skills have no duplicates, and any other failure gives [] |
| Qwen3Client.SkillsOfClean | src/llm/qwen3_local_client.py:256-333 | as written, reported skills are stripped and shorter than 50; the JSON paths' are at least two long; the fallback drops excluded words and numbers but can report "" |
| Qwen3Client.SkillsOfCorrected | src/llm/qwen3_local_client.py:256-333 | corrected: the parse with the fallback that strips before the length check, without duplicates |
| Qwen3Client.SkillsOfCorrectedClean | src/llm/qwen3_local_client.py:256-333 | corrected: every reported skill is stripped and 2-49 long, and the fallback drops excluded words and numbers |
| Qwen3Client.SkillsOfAgreeOnJson | src/llm/qwen3_local_client.py:302-313 | the as-written and corrected parses differ only on the fallback path |
| Qwen3Client.ExtractOne | src/llm/qwen3_local_client.py:117-146 | a single extraction, with the as-written parse, has no duplicates |
| Qwen3Client.Extracted | src/llm/qwen3_local_client.py:183-221 | an invalid JD gets [], a valid one the single-call result |
| Qwen3Client.BatchExtract | src/llm/qwen3_local_client.py:148-228 | one entry per JD, each what a single call would give, or [] for an invalid JD |
| Qwen3Client.ExtractBy | src/llm/qwen3_local_client.py:182-228 | the driver writes each valid JD's answer back at its own index, whatever the batch size |
| Qwen3Client.ValidPrompts | src/llm/qwen3_local_client.py:182-188 | the valid indices, increasing, exactly the valid JDs, with their prompts |
| Qwen3Client.AnswerAll | src/llm/qwen3_local_client.py:200-217 | every prompt's answer in prompt order, whatever the batch size |
| Qwen3Client.BatchAgreesWithSingle | src/llm/qwen3_local_client.py:117-228 | a valid JD gets the same skills in a batch as alone, each stripped and shorter than 50 characters |
| Qwen3Client.Block | src/llm/qwen3_local_client.py:369-376 | a message has a block exactly when its role is system, user or assistant |
| Qwen3Client.ChatPromptShape | src/llm/qwen3_local_client.py:365-379 | with no messages the prompt is the assistant opening; messages of other roles are dropped; the prompt always ends with the assistant opening |
| Qwen3Client.ChatPromptAppend | src/llm/qwen3_local_client.py:365-379 | one more known-role message adds its block just before the assistant opening |
| Qwen3Client.Client.constructor | src/llm/qwen3_local_client.py:29-115 | the client keeps its model name and length |
| Qwen3Client.Process.constructor | src/llm/qwen3_local_client.py:392 | a process starts without a client |
| Qwen3Client.Process.GetClient | src/llm/qwen3_local_client.py:395-423 | the first call builds the client from its arguments; later calls return that client and ignore theirs |
| Qwen3Client.GetClientTwice | src/llm/qwen3_local_client.py:395-423 | two calls share the client the first built |
| Distillation.TeacherSkills | src/ml/knowledge_distillation.py:144-147 | exactly the skills of the list-valued teacher fields |
| Distillation.Vocabulary | src/ml/knowledge_distillation.py:142-150 | the vocabulary is sorted, duplicate-free and holds exactly the teacher skills |
| Distillation.IndexMap | src/ml/knowledge_distillation.py:153 | the index map's keys are the skills, and each maps to an index holding it |
| Distillation.IndexMapInverse | src/ml/knowledge_distillation.py:150-153 | on the vocabulary the index map inverts the list |
| Distillation.EncodeCity | src/ml/knowledge_distillation.py:505-509 | one entry per known city |
| Distillation.EncodeCityOneHot | src/ml/knowledge_distillation.py:505-509 | entries are 0.0 or 1.0, at most one is 1.0, and there is one exactly for a known city |
| Distillation.FirstContained | src/ml/knowledge_distillation.py:500-502 | the first key occurring in the string, and none exactly when no key occurs |
| Distillation.ParseEducation | src/ml/knowledge_distillation.py:491-503 | the value of the first level, in the map's order, whose name occurs; 0.0 when none does |
| Distillation.FirstDigit | src/ml/knowledge_distillation.py:486 | the position of the first digit, or the end |
| Distillation.DigitRun | src/ml/knowledge_distillation.py:486 | the longest all-digit prefix |
| Distillation.ParseExperience | src/ml/knowledge_distillation.py:483-489 | 0 when the string has no digit |
| Distillation.ParseExperienceRun | src/ml/knowledge_distillation.py:486-488 | the run read starts at the first digit, is all digits, is non-empty and stops at the next non-digit |
| Distillation.ExtractJdText | src/ml/knowledge_distillation.py:468-481 | at most 1000 characters; the stored JD text when the key is present, even empty; otherwise starting with the title |
| Distillation.Emitted | src/ml/knowledge_distillation.py:375-380 | at most one skill per index |
| Distillation.EmittedMembers | src/ml/knowledge_distillation.py:377-379 | a skill is emitted exactly when one of its indices scores at least the threshold |
| Distillation.EmittedSorted | src/ml/knowledge_distillation.py:375-380 | emitted skills follow the vocabulary's order, without duplicates |
| Distillation.PredictedIff | src/ml/knowledge_distillation.py:364-380 | with a positive threshold a skill is predicted exactly when its classifier exists and reaches the threshold |
| Distillation.PredictedWithoutClassifier | src/ml/knowledge_distillation.py:364-380 | with a threshold at or below zero every skill without a classifier is predicted for every job |
| Distillation.DistillationModel.constructor | src/ml/knowledge_distillation.py:34-68 | untrained, with an empty vocabulary and the given classifier type |
| Distillation.DistillationModel.Train | src/ml/knowledge_distillation.py:70-134 | succeeds exactly for a known classifier type; the vocabulary and index map are rebuilt; each skill gets a classifier exactly when at least five training rows carry it (also line 239-337) |
| Distillation.DistillationModel.Multilabel | src/ml/knowledge_distillation.py:228-237 | one entry per vocabulary skill, 1.0 exactly where the skill is in the input |
| Distillation.DistillationModel.Predict | src/ml/knowledge_distillation.py:341-382 | fails exactly when untrained; otherwise one list per job, the vocabulary skills whose score reaches the threshold |
| Distillation.KeptClassifiers | src/ml/knowledge_distillation.py:266-284 | a classifier exactly for the skills with at least five positive rows |
| Distillation.Scores | src/ml/knowledge_distillation.py:364-371 | the score matrix is zero except for the columns of existing classifiers |
| Distillation.RowSkills | src/ml/knowledge_distillation.py:375-380 | one row turned into the skills reaching the threshold |
| Sampler.Sections | src/ml/active_learning_sampler.py:252-270 | at most four sections, the title's first, none when every field is empty |
| Sampler.ExtractJdText | src/ml/active_learning_sampler.py:245-272 | at most 1000 characters; a non-empty JD text cut to 1000; otherwise the joined sections cut to 1000 |
| Sampler.ClusterCount | src/ml/active_learning_sampler.py:143-145 | at most a fifth of the jobs, 100 when that allows and the target is small, and zero exactly with fewer than five jobs |
| Sampler.Members | src/ml/active_learning_sampler.py:166 | exactly the jobs labelled with the cluster |
| Sampler.OfferedPrefix | src/ml/active_learning_sampler.py:164-193 | later clusters only extend the offers |
| Sampler.ClusterSample | src/ml/active_learning_sampler.py:134-197 | fails exactly when there are no clusters; otherwise the first max(target, 1) offers of the clusters' nearest members |
| Sampler.CollectAfterAppend | src/ml/active_learning_sampler.py:161-193 | the loop as written, appending before checking the target, returns the first max(target, 1) offers |
| Sampler.OfferStep | src/ml/active_learning_sampler.py:185-190 | part of a cluster's offer after the earlier ones is a prefix of the offers so far |
| Sampler.ClusterSampleChecked | src/ml/active_learning_sampler.py:161-193 | with the target checked before each append the result is the first target offers |
| Sampler.CollectChecked | src/ml/active_learning_sampler.py:161-193 | the checked loop returns the first target offers |
| Sampler.OfferedNonEmpty | src/ml/active_learning_sampler.py:164-187 | a non-empty cluster's pick is offered |
| Sampler.ZeroTargetSamplesOne | src/ml/active_learning_sampler.py:185-190 | with target 0 and at least five jobs the loop as written still returns one job |
| Sampler.OfferedCount | src/ml/active_learning_sampler.py:164-187 | only a cluster's own offer holds its members |
| Sampler.TakeOfferedBounds | src/ml/active_learning_sampler.py:181-190 | a prefix of the offers holds at most the per-cluster cap of each cluster |
| Sampler.CappedOwnMembers | src/ml/active_learning_sampler.py:181-182 | capping keeps membership and bounds each list |
| Sampler.PicksOwnMembers | src/ml/active_learning_sampler.py:162 | each pick list holds only its cluster's members and at most target // n_clusters + 1 (also line 181-182) |
| Sampler.ClusterSampleBounds | src/ml/active_learning_sampler.py:161-193 | the sample holds at most target // n_clusters + 1 jobs of each cluster and at most max(target, 1) overall |
| Sampler.DiversitySample | src/ml/active_learning_sampler.py:199-243 | fails exactly with no jobs; otherwise min(max(target, 1), n) distinct indices below n, starting with the random first one |
| Sampler.SampledCard | src/ml/active_learning_sampler.py:217-219 | distinct indices below n are at most n, and n once none remains |
| Sampler.Range | src/ml/active_learning_sampler.py:209 | the indices 0 to n-1 |
| Sampler.Quota | src/ml/active_learning_sampler.py:334-335 | between 1 and the group's size, and the proportional share when that is at least one |
| Sampler.GroupOf | src/ml/active_learning_sampler.py:322-325 | a key's group is non-empty exactly when the key occurs |
| Sampler.Stratified | src/ml/active_learning_sampler.py:300-342 | groups in first-seen key order, each drawn by its quota |
| Sampler.DrawGroups | src/ml/active_learning_sampler.py:332-338 | the drawing loop over the groups |
| Sampler.GroupByKey | src/ml/active_learning_sampler.py:322-325 | each key's jobs in order, and the keys in first-seen order |
| Sampler.GroupedStep | src/ml/active_learning_sampler.py:323-325 | one more job keeps the grouping invariant |
| Sampler.GroupsSnoc | src/ml/active_learning_sampler.py:323-325 | appending a job to its key's group keeps every group exact |
| Sampler.DrawnSize | src/ml/active_learning_sampler.py:332-338 | when each draw returns the number asked for, the sample holds exactly each group's quota, at least one per group |
| EnhanceQwen3.BuildJdTextFromJob | scripts/enhance_with_qwen3.py:96-128 | the same text as the cleaner's JD builder |
| EnhanceQwen3.Render | scripts/enhance_with_qwen3.py:98-128 | one labelled line per section |
| EnhanceQwen3.RenderStep | scripts/enhance_with_qwen3.py:98-128 | the sections from one on render as its line then the rest |
| EnhanceQwen3.RenderParts | scripts/enhance_with_qwen3.py:96-128 | the cleaner's lines are its sections rendered |
| EnhanceQwen3.JdPartsLines | scripts/enhance_with_qwen3.py:98-128 | the cleaner's lines, section by section |
| EnhanceQwen3.JdLinesAgree | scripts/enhance_with_qwen3.py:96-128 | the script's lines are the cleaner's lines, section by section and with the same bounds |
| EnhanceQwen3.ClampSample | scripts/enhance_with_qwen3.py:154-157 | a count at least the number of jobs becomes that number and switches distillation off; otherwise both are kept |
| EnhanceQwen3.WithJdText | scripts/enhance_with_qwen3.py:199-201 | a non-empty JD text is kept; an empty or missing one is built from the fields |
| EnhanceQwen3.FillJdText | scripts/enhance_with_qwen3.py:199-201 | the loop fills every sampled job |
| EnhanceQwen3.WithJdTextIdempotent | scripts/enhance_with_qwen3.py:199-201 | filling twice is filling once |
| EnhanceQwen3.Remaining | scripts/enhance_with_qwen3.py:301-302 | exactly the jobs whose id was not sampled, in order |
| EnhanceQwen3.RemainingPartition | scripts/enhance_with_qwen3.py:301-302 | remaining and sampled-id jobs together are the input, none lost or repeated |
| EnhanceQwen3.RemainingDisjoint | scripts/enhance_with_qwen3.py:301-302 | no sampled job remains |
| EnhanceQwen3.MergeRemaining | scripts/enhance_with_qwen3.py:323-340 | the merge loop merges each remaining job with its prediction |
| EnhanceQwen3.MergedSpec | scripts/enhance_with_qwen3.py:323-340 | a merged job's skills are exactly the rule and predicted skills, each once; the merged count lies between the larger count and their sum |
| EnhanceQwen3.Enhance | scripts/enhance_with_qwen3.py:131-345 | clamp, sample, fill, extract; without distillation the extracted sample; otherwise the sample followed by the remaining jobs merged with their predictions |
| EnhanceQwen3.Filled | scripts/enhance_with_qwen3.py:199-201 | every sampled job given its JD text |
| EnhanceQwen3.MergedAll | scripts/enhance_with_qwen3.py:323-340 | every remaining job merged with its prediction |
| DataCleaner.RecordCountsOnce | src/data_processing/data_cleaner.py:223-262 | a rejected job raises exactly one removal counter by one, an accepted job none, and no other counter moves |
| DataCleaner.DefaultSalaryRange | src/data_processing/data_cleaner.py:117-118 | under the default configuration a salary is valid exactly when both bounds are numeric and 1 <= min <= max <= 200 (also line 264-277) |
| DataCleaner.RemoveSpaces | src/data_processing/data_cleaner.py:294-295 | the result has no whitespace and is never longer |
| DataCleaner.DedupKeyIgnoresSpaces | src/data_processing/data_cleaner.py:292-297 | the dedup key ignores whitespace inside the title and company |
| DataCleaner.EarlyVerdictReasons | src/data_processing/data_cleaner.py:225-239 | a rejection before the dedup check is one of the first three reasons |
| DataCleaner.SeenAfterVerdict | src/data_processing/data_cleaner.py:241-260 | a job is registered exactly when it gets past the dedup check, even when a later check rejects it; the seen set only grows (also line 279-290) |
| DataCleaner.RepeatIsDuplicate | src/data_processing/data_cleaner.py:279-290 | after a job passed the dedup check, a later job with the same id or key that passes the first checks is a duplicate |
| DataCleaner.TailBracketFrom | src/data_processing/data_cleaner.py:377 | the leftmost position where an opening bracket starts a 1-20 character group closed by the last character, none exactly when no position qualifies |
| DataCleaner.DropTailBracketClean | src/data_processing/data_cleaner.py:377 | removing the bracket keeps a single-spaced stripped name single-spaced and stripped |
| DataCleaner.DropTailBracketNone | src/data_processing/data_cleaner.py:377 | without a trailing bracket group the name is unchanged |
| DataCleaner.DropTailBracketLeftmost | src/data_processing/data_cleaner.py:377 | when a group qualifies, the leftmost one and everything after it are removed, and the name gets shorter |
| DataCleaner.NormalizeCompanySpec | src/data_processing/data_cleaner.py:372-378 | a normalised company name is single-spaced and stripped, and equals the collapsed name when no bracket group closes it |
| DataCleaner.NormalizeCompanyDropsLocation | src/data_processing/data_cleaner.py:376-377 | a space-free name followed by a bracketed 1-20 character location loses the location, as in "XX科技(上海)" |
| DataCleaner.NormalizeCitySpec | src/data_processing/data_cleaner.py:381-390 | only one trailing 市 of a stripped name longer than two characters is removed, and nothing else changes |
| DataCleaner.NormalizeCitySuffix | src/data_processing/data_cleaner.py:381-390 | a name of two or more characters loses an appended 市; a one-character name keeps it |
| DataCleaner.TagEnd | src/data_processing/data_cleaner.py:30 | a tag's closing `>` lies after at least one character |
| DataCleaner.SubTags | src/data_processing/data_cleaner.py:30 | a string without `<` is unchanged (also line 369) |
| DataCleaner.StripTags | src/data_processing/data_cleaner.py:406 | tag removal never lengthens and leaves a string without `<` unchanged (also line 442) |
| DataCleaner.TagEndFinds | src/data_processing/data_cleaner.py:30 | the scan stops at the first `>` |
| DataCleaner.SubTagsTag | src/data_processing/data_cleaner.py:30 | a leading tag with a non-empty body is replaced and the rest processed |
| DataCleaner.SubTagsUnclosed | src/data_processing/data_cleaner.py:30 | a `<` with no `>` after it is kept |
| DataCleaner.CollapseSpacesSpec | src/data_processing/data_cleaner.py:32 | collapsing leaves single spaces, empty exactly for empty input, and keeps whether it starts with space (also line 370) |
| DataCleaner.CleanTextSpec | src/data_processing/data_cleaner.py:365-370 | cleaned text is single-spaced and starts and ends with a non-space |
| DataCleaner.Candidate | src/data_processing/data_cleaner.py:405-421 | a kept skill is never empty |
| DataCleaner.Candidates | src/data_processing/data_cleaner.py:405-421 | at most one candidate per raw skill |
| DataCleaner.CandidateSound | src/data_processing/data_cleaner.py:405-421 | a candidate passed the filters or is the alias name it was mapped to; it counts as normalised exactly when the alias changed it |
| DataCleaner.CleanSkillsSpec | src/data_processing/data_cleaner.py:392-430 | no longer than the input, no two entries equal ignoring case, no accepted skill lost ignoring case, only accepted skills, the first of each case-insensitive key |
| DataCleaner.CleanSkillsFiltered | src/data_processing/data_cleaner.py:405-421 | every cleaned skill is non-empty and passed the filters or is an alias name |
| DataCleaner.SourceRulesReject | src/data_processing/data_cleaner.py:410-414 | the source's rules reject a generic word and a phrase holding a full-width comma |
| DataCleaner.WelfareCandidate | src/data_processing/data_cleaner.py:442-443 | a kept item is never empty |
| DataCleaner.CleanWelfareSpec | src/data_processing/data_cleaner.py:432-447 | the welfare list is never longer, has no empty item, no two items equal ignoring case, keeps the first of each key and loses no key |
| DataCleaner.WelfareTextIsOneItem | src/data_processing/data_cleaner.py:437-438 | a single string is cleaned as a one-item list |
| DataCleaner.SkipSpaces | src/data_processing/data_cleaner.py:27 | the first non-space position from a start |
| DataCleaner.MonthsAt | src/data_processing/data_cleaner.py:27 | a month count read at a position is at most 99 |
| DataCleaner.SalaryMonths | src/data_processing/data_cleaner.py:27 | no month count only when no position matches, and a count is at most 99 (also line 458) |
| DataCleaner.SalaryMonthsFound | src/data_processing/data_cleaner.py:458 | a month count found is the value of a matching position at or after the start |
| DataCleaner.SalaryMonthsSkip | src/data_processing/data_cleaner.py:458 | the search passes over positions where no match starts |
| DataCleaner.MonthsAtTwoDigits | src/data_processing/data_cleaner.py:27 | `·16薪` reads 16 |
| DataCleaner.MonthsAtThreeDigits | src/data_processing/data_cleaner.py:27 | three digits after the mark are no month count |
| DataCleaner.SalaryMonthsFirst | src/data_processing/data_cleaner.py:458-460 | the first matching position decides |
| DataCleaner.ProcessSalaryFrame | src/data_processing/data_cleaner.py:449-485 | the salary step changes only the month count, the two bounds and the conversion tag |
| DataCleaner.Converted | src/data_processing/data_cleaner.py:463-483 | the conversion counter moves by one exactly when a unit conversion applies |
| DataCleaner.ProcessSalaryMonths | src/data_processing/data_cleaner.py:449-461 | the month count is only filled in, never overwritten, and only from a `·N薪` mark in the salary text |
| DataCleaner.ProcessSalarySpec | src/data_processing/data_cleaner.py:463-485 | a conversion scales both bounds by one positive factor, keeping their order; hourly beats daily beats the internship rule |
| DataCleaner.SectionsFromSound | src/data_processing/data_cleaner.py:508-526 | only present sections are emitted |
| DataCleaner.SectionsFromIncreasing | src/data_processing/data_cleaner.py:508-526 | sections come in order |
| DataCleaner.SectionsFromComplete | src/data_processing/data_cleaner.py:508-526 | every present section is emitted |
| DataCleaner.JdParts | src/data_processing/data_cleaner.py:508-526 | one labelled line per emitted section |
| DataCleaner.JdSectionsSpec | src/data_processing/data_cleaner.py:503-527 | sections come in the order title, salary, requirements, skills, welfare, description, each exactly when present; the description is cut to 500 characters and the welfare to five items |
| DataCleaner.JdTextSplits | src/data_processing/data_cleaner.py:527 | splitting the text at newlines gives the lines back when no field holds a newline |
| DataCleaner.ScanKeepsOnly | src/data_processing/data_cleaner.py:199-203 | a stateful filter keeps only input elements, and only elements its keep test accepts |
| DataCleaner.ScanDistinctKeys | src/data_processing/data_cleaner.py:279-290 | when the state is a growing key set that a kept element's new key joins, kept elements have new, pairwise distinct keys |
| DataCleaner.AcceptedStep | src/data_processing/data_cleaner.py:199-203 | the first job heads the accepted jobs exactly when no check rejects it; the rest are filtered from the seen set after it |
| DataCleaner.AcceptedHead | src/data_processing/data_cleaner.py:241-260 | an accepted job passed the first checks, its key was new, and it is registered afterwards |
| DataCleaner.AcceptedSpec | src/data_processing/data_cleaner.py:188-219 | every job `clean_dataset` keeps is an input job that passed the first checks, and no two kept jobs share a dedup key |
| DataCleaner.JobCleaner.constructor | src/data_processing/data_cleaner.py:84-111 | the configuration and alias map kept, counters at zero, nothing seen |
| DataCleaner.JobCleaner.ResetState | src/data_processing/data_cleaner.py:182-186 | every counter zero and nothing seen |
| DataCleaner.JobCleaner.IsValidJob | src/data_processing/data_cleaner.py:223-262 | valid exactly when no check rejects; the rejecting check's counter moves; a job past the dedup check is registered |
| DataCleaner.JobCleaner.IsUniqueJob | src/data_processing/data_cleaner.py:279-290 | unique exactly when neither id nor key was seen, and then both are registered |
| DataCleaner.JobCleaner.CleanSkillList | src/data_processing/data_cleaner.py:392-430 | the cleaned list and the number of alias replacements |
| DataCleaner.JobCleaner.SkillsStep | src/data_processing/data_cleaner.py:335-339 | the cleaned skills, and the dedup and alias counters grown by the dropped and replaced counts |
| DataCleaner.JobCleaner.SalaryStep | src/data_processing/data_cleaner.py:449-485 | the processed salary, and the conversion counter moved exactly when a conversion applies |
| DataCleaner.JobCleaner.FieldsStep | src/data_processing/data_cleaner.py:317-343 | the company, city, title, text, skill and welfare fields cleaned, with the skill counters moved |
| DataCleaner.JobCleaner.CleanJob | src/data_processing/data_cleaner.py:309-360 | the cleaned fields with the salary processed, the JD text built exactly when configured, and the skill and conversion counters moved |
| DataCleaner.JobCleaner.FilterOne | src/data_processing/data_cleaner.py:199-203 | a job is kept exactly when no check rejects it, and then as `clean_job` leaves it, with its JD text exactly when `build_jd_text` is set; it is registered as `is_valid_job` does, and a rejected job raises the removal count by one |
| DataCleaner.JobCleaner.FilterAll | src/data_processing/data_cleaner.py:198-203 | the jobs kept are exactly those the filter accepts from the current seen set, each in its cleaned form with its JD text (when `build_jd_text` is set) and in input order; every rejected job raises the removal count by one |
| DataCleaner.JobCleaner.CleanDataset | src/data_processing/data_cleaner.py:188-219 | the result is the cleaned form of each accepted job, with its JD text when `build_jd_text` is set, in input order; counters reset, the total is the number of jobs, the cleaned count the number kept, every other job counted under one removal reason; a copy of the counters is returned |
| DataCleaner.FirstByLowerCase | src/data_processing/data_cleaner.py:401-430 | the loop keeps the first candidate of each lower-cased key and counts the replaced items (also line 439-447) |
| CleaningScript.ConfigOverrides | scripts/data_cleaner.py:135-141 | each flag sets its own key and nothing else |
| CleaningScript.CleanCityFileSpec | scripts/data_cleaner.py:48-73 | an existing output is skipped with its count, 0 when unreadable; otherwise the city is cleaned or fails |
| CleaningScript.EmptyMessageProcessed | scripts/data_cleaner.py:155-167 | a cleaner raising with an empty message is counted as processed, with no records |
| CleaningScript.FailedNeverProcessed | scripts/data_cleaner.py:155-167 | with failure marked by the error key's presence, no failed run is processed, whatever its message |
| CleaningScript.Classified | scripts/data_cleaner.py:165-167 | every record is in exactly one of the three lists, both with the source's truthy-error test and with failure as the error's presence |
| CleaningScript.MergeProcessed | scripts/data_cleaner.py:216-218 | the loop assigns each processed record into the dictionary |
| CleaningScript.MergeSpec | scripts/data_cleaner.py:207-222 | a city processed now takes its latest new record, others keep their latest saved record, cities keep first-appearance order |
| CleaningScript.SummarySpec | scripts/data_cleaner.py:221-233 | the retention rate is 0 without raw records and otherwise the cleaned share |
| CleaningScript.RunStatsSpec | scripts/data_cleaner.py:144-162 | without `--force` every file gets a record and exactly those with an output are skipped; with it none is skipped |
| CleaningScript.CleanFiles | scripts/data_cleaner.py:144-162 | the loop's records are the run's records: one per file except a forced file whose old output cannot be removed, a raising cleaner recorded with its message |
| CleaningScript.Summarise | scripts/data_cleaner.py:207-236 | the summary is written exactly when some record counts as processed, holding the saved cities updated by the processed records |
| CleaningScript.CleanAll | scripts/data_cleaner.py:76-242 | as written: every file cleaned in turn; the summary is written exactly when some run counts as processed under the truthy-error test, with the merged records |
| CleaningScript.CleanAllCorrected | scripts/data_cleaner.py:76-242 | corrected: the same run with failure as the error's presence, so no failed run is merged into the summary |
| RebuildVectorDb.Newest | scripts/rebuild_vector_db.py:33 | a file no other file is newer than (also line 38) |
| RebuildVectorDb.NewestFirst | scripts/rebuild_vector_db.py:33 | the stable sort picks the first of the newest files (also line 38) |
| RebuildVectorDb.LoadedSpec | scripts/rebuild_vector_db.py:28-57 | no data exactly when there are no files; the newest enhanced file wins; otherwise all cleaned files' records |
| RebuildVectorDb.PreparedSpec | scripts/rebuild_vector_db.py:61-84 | indexed records are fit, come from the input, have distinct non-empty ids, and include every fit first record of an id |
| RebuildVectorDb.KeysFilterNoDup | scripts/rebuild_vector_db.py:77-81 | filtering keeps the ids distinct |
| RebuildVectorDb.Rebuild | scripts/rebuild_vector_db.py:27-109 | both exits leave the store as it was; otherwise it is emptied and loaded from the prepared records in batches of 64, with the logged removal counts |
| RebuildVectorDb.RebuiltStore | scripts/rebuild_vector_db.py:97-106 | when no batch fails the store holds exactly the prepared ids |
| UpdateVectorDb.LoadDataFromDir | scripts/update_vector_db.py:34-63 | the records of all files, one file after another |
| UpdateVectorDb.ExistingIds | scripts/update_vector_db.py:66-83 | the stored ids, or none when reading raises |
| UpdateVectorDb.FilterNewJobs | scripts/update_vector_db.py:86-115 | records without an id skipped, stored ids counted as duplicates, the others kept in order |
| UpdateVectorDb.SortJob | scripts/update_vector_db.py:100-109 | one loop step: skip, count or keep |
| UpdateVectorDb.FilterNewStep | scripts/update_vector_db.py:100-109 | one more record for the loop |
| UpdateVectorDb.FilterNewJobsPartition | scripts/update_vector_db.py:100-109 | every record is new, a duplicate or without an id, exactly one of these |
| UpdateVectorDb.ConfirmedIff | scripts/update_vector_db.py:151-152 | only a lone y or Y, surrounded by whitespace, confirms (also line 206-207) |
| UpdateVectorDb.DecideSpec | scripts/update_vector_db.py:147-209 | the store changes only when both prompts let it through and something is left to add; in skip mode only new ids are added |
| UpdateVectorDb.UpdateVectorDatabase | scripts/update_vector_db.py:118-217 | the decision, then adding in batches of 50 exactly when it says so; the stored ids are read before the update |
| UpdateVectorDb.SkipKeepsStored | scripts/update_vector_db.py:177-217 | in skip mode the update only adds documents |
| CrawlKeywords.SelectionSpec | scripts/generate_crawl_keywords.py:26-40 | one skill per name, each high-value or framework, every such name present with its last entry |
| CrawlKeywords.TopSpec | scripts/generate_crawl_keywords.py:62 | a category's top list holds min(8, its size) of its skills, hottest first |
| CrawlKeywords.TopHottest | scripts/generate_crawl_keywords.py:62 | no skill left out of the top list is hotter than one taken |
| CrawlKeywords.Categories | scripts/generate_crawl_keywords.py:60 | the selection's categories, sorted |
| CrawlKeywords.CategoryKeywordsSpec | scripts/generate_crawl_keywords.py:60-66 | at most eight names per category, each a selected skill of that category |
| CrawlKeywords.AllKeywordsShape | scripts/generate_crawl_keywords.py:55-79 | the category part followed by the twelve job types |
| CrawlKeywords.AllKeywordsNames | scripts/generate_crawl_keywords.py:16-66 | every keyword before the job types names a high-value or framework skill |
| CrawlKeywords.AppendEach | scripts/generate_crawl_keywords.py:77-79 | appending each element |
| CrawlKeywords.GroupByCategory | scripts/generate_crawl_keywords.py:43-52 | each category with its skills in selection order |
| CrawlKeywords.AddToGroup | scripts/generate_crawl_keywords.py:45-52 | opens a new category's list, then appends |
| CrawlKeywords.GroupStep | scripts/generate_crawl_keywords.py:44-52 | one more skill keeps the grouping |
| CrawlKeywords.CategoryPart | scripts/generate_crawl_keywords.py:60-66 | each category's top names, in category order |
| CrawlKeywords.CategoryStep | scripts/generate_crawl_keywords.py:60-66 | one more category |
| CrawlKeywords.GenerateCrawlKeywords | scripts/generate_crawl_keywords.py:9-108 | the plan: all keywords, the skill part without job types, the job types and cities, 300 per keyword and 60 percent after dedup |
| DataQualityReport.MinOf | scripts/generate_report.py:139 | `min` is an element no larger than any other |
| DataQualityReport.MaxOf | scripts/generate_report.py:140 | `max` is an element no smaller than any other |
| DataQualityReport.SalaryRangeEmpty | scripts/generate_report.py:123-133 | the range is empty exactly when no job has 0 < min < max <= 200 |
| DataQualityReport.PairSource | scripts/generate_report.py:126-130 | each kept pair comes from a job |
| DataQualityReport.PairKept | scripts/generate_report.py:126-130 | each qualifying job's pair is kept |
| DataQualityReport.SalaryRangeAttained | scripts/generate_report.py:135-140 | the range's minimum and maximum are attained by kept jobs |
| DataQualityReport.SalaryRangeBounds | scripts/generate_report.py:123-145 | no kept job lies outside the range, and both medians lie within it |
| DataQualityReport.PairsRange | scripts/generate_report.py:135-145 | the extremes and medians of the kept pairs bound every pair |
| DataQualityReport.PairsOrdered | scripts/generate_report.py:129 | since each minimum is below its maximum, the minima lie below the largest maximum (also line 139-140) |
| DataQualityReport.MedianBetween | scripts/generate_report.py:143-144 | the median is a value between the minimum and the maximum |
| DataQualityReport.Companies | scripts/generate_report.py:102 | one company per job, 未知 for a missing one |
| DataQualityReport.AnalyzeDataSpec | scripts/generate_report.py:91-105 | statistics exist exactly for non-empty data; jobs with skills are at most all jobs; at most ten companies, by descending count, each with its true count |
| DataQualityReport.AnalyzeSkillsSpec | scripts/generate_report.py:107-121 | the total is the number of distinct skills, at most 30 are listed, no data gives average 0 |
| DataQualityReport.Weighted | scripts/generate_report.py:153-158 | the summed counter holds each skill once, first-seen order, with the sum of its counts |
| DataQualityReport.SummarySpec | scripts/generate_report.py:147-166 | the retention rate is 0 without raw data; at most 50 skills, each with the sum of its counts in the cities' top lists |
| DataQualityReport.Report.constructor | scripts/generate_report.py:24-39 | no statistics yet |
| DataQualityReport.Report.CollectStatistics | scripts/generate_report.py:59-89 | every city gets its entry, a missing file leaving its part empty, then the summary over the cities in order |
| DataQualityReport.Entries | scripts/generate_report.py:63-86 | one entry per city |
| DataQualityAnalysis.SalaryValidIff | scripts/analyze_data_quality.py:58-68 | a salary passes exactly when both bounds are positive, ordered, the maximum at most 200 and the minimum at most 150 |
| DataQualityAnalysis.TallyCounts | scripts/analyze_data_quality.py:43-77 | each counter is the number of jobs with that property |
| DataQualityAnalysis.TallyConsistent | scripts/analyze_data_quality.py:43-77 | valid jobs are at most those with skills and those with valid salaries |
| DataQualityAnalysis.CityMapSpec | scripts/analyze_data_quality.py:29-86 | a city has an entry exactly when its file exists, holding that file's counts |
| DataQualityAnalysis.OverallSpec | scripts/analyze_data_quality.py:29-86 | the overall counters are consistent and include every existing file's jobs |
| DataQualityAnalysis.CityEntriesBounded | scripts/analyze_data_quality.py:80-86 | a city's valid jobs, jobs without skills and salary issues stay within its records |
| DataQualityAnalysis.TallyStep | scripts/analyze_data_quality.py:43-77 | one more job adds its counts |
| DataQualityAnalysis.CheckSalary | scripts/analyze_data_quality.py:58-68 | the salary block decides validity |
| DataQualityAnalysis.CountJob | scripts/analyze_data_quality.py:43-77 | the loop body adds one job's counts to the totals and the city |
| DataQualityAnalysis.ScanCity | scripts/analyze_data_quality.py:43-77 | the inner loop adds the city's counts |
| DataQualityAnalysis.AllFilledIff | scripts/analyze_data_quality.py:85 | the run gets past the cities exactly when no existing file is empty |
| DataQualityAnalysis.ScanCities | scripts/analyze_data_quality.py:29-88 | the outer loop stops at the first empty existing file; otherwise it holds every city's counters and entries |
| DataQualityAnalysis.VisitCity | scripts/analyze_data_quality.py:29-88 | a missing file is skipped, an empty one fails, any other is counted and recorded |
| DataQualityAnalysis.AnalyzeDataQuality | scripts/analyze_data_quality.py:12-134 | fails exactly when an existing city file is empty or the sample city's file is missing; otherwise the overall counters and per-city entries |
| Ranking.InsertDescStable | scripts/generate_report.py:102 | inserting puts an element before the equal-keyed ones and keeps their order |
| Ranking.SortDescStable | scripts/generate_report.py:102 | the descending sort is stable: each key's elements keep their input order |
| Ranking.MostCommon | scripts/generate_report.py:102 | at most n entries, exactly n when there are that many, by descending count, all from the counter (also lines 119, 165) |
| Ranking.Occurrences | scripts/generate_report.py:99-102 | a count is positive exactly for an element present |
| Ranking.CountedSpec | scripts/generate_report.py:99-102 | every counted entry is an element with its true count, every element is counted once (also line 115) |
| AiPrompt.JsTrim | frontend/src/utils/aiPrompt.ts:52 | `trim()` gives a slice with no white space at either end, empty exactly for a blank line (also lines 92, 96) |
| AiPrompt.InlineBold | frontend/src/utils/aiPrompt.ts:111-116 | `**x**` becomes bold, not two italic markers, because the bold rule runs first |
| AiPrompt.InlineItalic | frontend/src/utils/aiPrompt.ts:111-116 | `*x*` becomes italic |
| AiPrompt.InlineCode | frontend/src/utils/aiPrompt.ts:111-116 | a back-quoted span becomes inline code |
| AiPrompt.InlinePlain | frontend/src/utils/aiPrompt.ts:111-116 | text without `*` or a back quote passes through unchanged |
| AiPrompt.WrapOne | frontend/src/utils/aiPrompt.ts:113-115 | a single delimited span is replaced by its opening and closing tags |
| AiPrompt.NoDelimiterUnchanged | frontend/src/utils/aiPrompt.ts:113-115 | text in which the delimiter does not occur is copied unchanged |
| AiPrompt.DigitRun | frontend/src/utils/aiPrompt.ts:77-78 | the number of an ordered item is the leading run of digits |
| AiPrompt.DropPrefix | frontend/src/utils/aiPrompt.ts:70 | the marker is removed only when the line starts with it (also lines 72, 74, 85, 89) |
| AiPrompt.SpacerIffBlank | frontend/src/utils/aiPrompt.ts:69-100 | a line becomes a spacer exactly when it is blank |
| AiPrompt.SpaceFirst | frontend/src/utils/aiPrompt.ts:69-91 | a line starting with white space passes none of the heading, list or quote tests |
| AiPrompt.SpacedDashesAreBullet | frontend/src/utils/aiPrompt.ts:84-94 | `- - -` becomes a bullet item, because the bullet test comes before the rule test |
| AiPrompt.DashesAreRule | frontend/src/utils/aiPrompt.ts:92-94 | three dashes, padded with white space or not, become a rule |
| AiPrompt.RowsEnd | frontend/src/utils/aiPrompt.ts:57-62 | the table's rows run up to the first line that is not a pipe line |
| AiPrompt.Cells | frontend/src/utils/aiPrompt.ts:52 | one trimmed cell for each piece between the outer pipes (also line 58) |
| AiPrompt.CellsOfRow | frontend/src/utils/aiPrompt.ts:52 | a row written with a pipe before, between and after its cells gives back those cells, trimmed (also line 58) |
| AiPrompt.OneBlockPerLine | frontend/src/utils/aiPrompt.ts:45-105 | without a table, every line becomes a block of its own |
| AiPrompt.OneFragmentPerLine | frontend/src/utils/aiPrompt.ts:69-100 | every non-table line gives exactly one fragment |
| AiPrompt.TableSpan | frontend/src/utils/aiPrompt.ts:51-66 | a table takes its header, its separator and every following pipe line, and parsing resumes at the first other line |
| AiPrompt.PushCells | frontend/src/utils/aiPrompt.ts:53 | one fragment per cell is appended (also line 59) |
| AiPrompt.RenderHead | frontend/src/utils/aiPrompt.ts:52-54 | the table opening, then the header cells |
| AiPrompt.RenderRow | frontend/src/utils/aiPrompt.ts:58-60 | one body row, its cells inside a table row |
| AiPrompt.RenderTable | frontend/src/utils/aiPrompt.ts:51-66 | the table branch emits the header and the rows up to the first line that is not a pipe line |
| AiPrompt.RenderMarkdown | frontend/src/utils/aiPrompt.ts:39-108 | the loop's output is the fragments of the parsed blocks, joined; empty text gives the empty string |
| AiPrompt.FillShows | frontend/src/utils/aiPrompt.ts:132-152 | every value put into a template shows in the prompt |
| AiPrompt.PromptShows | frontend/src/utils/aiPrompt.ts:18-33 | every prompt starts with the persona and shows each value put into it (also line 132) |
| AiPrompt.JoinBlank | frontend/src/utils/aiPrompt.ts:130-131 | a join with a separator is empty only for no parts or one empty part |
| AiPrompt.ShownListSpec | frontend/src/utils/aiPrompt.ts:130-131 | a list shows each of its first n items, and is the fallback exactly when those join to nothing (also lines 163-164, 204, 237) |
| AiPrompt.LearningPlanShows | frontend/src/utils/aiPrompt.ts:123-153 | the learning-plan prompt starts with the persona and shows the position, the match rate, the first 12 skills of each list, and 暂无 for an empty list |
| AiPrompt.InterpretationShows | frontend/src/utils/aiPrompt.ts:156-189 | the interpretation prompt shows the position, the match rate, the first 8 skills of each list, and 暂无 for an empty list |
| AiPrompt.JobReviewShows | frontend/src/utils/aiPrompt.ts:192-226 | the review prompt shows the job's title, company and city, its first 10 skills or 未知, the description cut to 300 characters, and every user skill or the note asking for skills |
| AiPrompt.MarketDataShows | frontend/src/utils/aiPrompt.ts:238-240 | the market line shows the job count when it is given and not zero, and is the no-data note otherwise |
| AiPrompt.SkillIntroShows | frontend/src/utils/aiPrompt.ts:229-261 | the skill prompt shows the skill, its category, the first 6 related skills or 暂无数据, and the market line |
| AiPrompt.LevelNameSpec | frontend/src/utils/aiPrompt.ts:271 | levels 1 to 5 have their own names, in order; any other level reads 未知 |
| AiPrompt.SkillEntries | frontend/src/utils/aiPrompt.ts:270-272 | one entry per skill, in order |
| AiPrompt.DiagnosisShows | frontend/src/utils/aiPrompt.ts:264-298 | the diagnosis prompt shows every skill with its level name, or 未设置 when there are none, and every expected city |
| AppStore.Merge | frontend/src/stores/app.ts:35-37 | each key the patch gives replaces the old value; the other keys keep theirs |
| AppStore.MergeLaws | frontend/src/stores/app.ts:35-37 | merging twice equals merging once, an empty patch changes nothing, and a full patch replaces everything |
| AppStore.UserNameOf | frontend/src/stores/app.ts:24 | the user name, else the name, else 用户; never empty |
| AppStore.UserIdOf | frontend/src/stores/app.ts:25 | an id exactly when the user has a non-empty one |
| AppStore.Label | frontend/src/stores/app.ts:64 | a node's label is empty exactly when it has no name, skill or id |
| AppStore.Labels | frontend/src/stores/app.ts:63-64 | one label per node, in order |
| AppStore.NonEmpty | frontend/src/stores/app.ts:65 | keeps exactly the non-empty labels |
| AppStore.DedupKeepsSorted | frontend/src/stores/app.ts:67 | dropping later duplicates keeps a sorted list sorted |
| AppStore.SkillList | frontend/src/stores/app.ts:62-67 | the list is strictly increasing and holds exactly the nodes' non-empty labels |
| AppStore.SkillListIsSortedSet | frontend/src/stores/app.ts:62-67 | sorting first and then removing duplicates gives the sorted set of labels |
| AppStore.Store.constructor | frontend/src/stores/app.ts:6-20 | signed out, zero statistics, not loading, dark theme, no skills loaded |
| AppStore.Store.IsLoggedIn | frontend/src/stores/app.ts:23 | signed in exactly when the token is non-empty |
| AppStore.Store.UserName | frontend/src/stores/app.ts:24 | the current user's display name, never empty |
| AppStore.Store.UserId | frontend/src/stores/app.ts:25 | the current user's id, if any |
| AppStore.Store.SetLoading | frontend/src/stores/app.ts:31-33 | only the loading flag changes |
| AppStore.Store.SetSystemStats | frontend/src/stores/app.ts:35-37 | only the keys the patch gives change |
| AppStore.Store.SetTheme | frontend/src/stores/app.ts:39-41 | only the theme changes |
| AppStore.Store.Login | frontend/src/stores/app.ts:43-48 | the token and user are set in the store and in local storage |
| AppStore.Store.Logout | frontend/src/stores/app.ts:50-55 | the token and user are cleared in both; the store reads signed out, 用户 and no id |
| AppStore.Store.PreloadSkills | frontend/src/stores/app.ts:58-73 | once loaded, or when the request fails or returns no nodes, nothing changes; otherwise the list is set to the sorted distinct labels and marked loaded |
| AppStore.Store.RestoreAuth | frontend/src/stores/app.ts:76-83 | with a non-empty stored token, the session comes back from local storage; otherwise nothing changes |
| AppStore.LoginSurvivesReload | frontend/src/stores/app.ts:43-48 | after signing in with a non-empty token, a new store restoring from local storage is signed in with the same token and user (also line 76-83) |
| AppStore.LogoutSurvivesReload | frontend/src/stores/app.ts:50-55 | after signing out, the restored store stays signed out (also line 76-83) |
| AppStore.PreloadOnce | frontend/src/stores/app.ts:58-73 | a second load leaves the list of the first successful one |

## Left out

- Async orchestration is left out: `create_task`, `gather`, `to_thread`, `wait_for` and the sleeping loops. A timeout or an exception is a failure outcome, and the refresh loop is modelled one pass at a time, with the clock as a parameter.
- Thread safety of the API cache is left out. The model is sequential.
- The rows given to the search, recommendation and gap models, and to the agent tools, stand for the answers of the Cypher queries those models plan (ApiSearch.PlanGraphQuery, AgentTools.SearchQueryOf). No contract ties a row to the query: Neo4j is an oracle.
- ApiGap.GapAnalyse returns the sample-job rows as the query gives them. The reshaping at src/api/main.py:1193-1198 into `title`, `city`, `company` and a `salary_range` string `"{min or 0}-{max or 0}K"` is not modelled, since Python's formatting of the numeric salary bounds is not.
- ApiSearch.JobIdOf reads a row without `job_id` as "". The source's `r["job_id"]` (src/api/main.py:913) would raise `KeyError` there. Every graph query in the source returns `j.job_id AS job_id`, so its rows always carry the key.
- Neo4j, Chroma, SentenceTransformer, vLLM, DashScope, LangGraph, jieba, sklearn, LightGBM, XGBoost and KMeans are left out. Each is an oracle function or a row sequence given as a parameter, so the model says nothing about what they return.
- The language model's own reasoning and tool use inside the agent are left out. The agent is a stream oracle.
- Floating point is left out:
  - similarity scores;
  - `round()`;
  - salary unit conversions;
  - averages, percentages and classifier probabilities.
  Where the source branches on a float, the model keeps the branch and the threshold. Elsewhere the value is not modelled, or is a `real` with exact arithmetic.
- MD5 in the cleaner's dedup key is left out. The key is the normalised tuple it hashes, so hash collisions are not modelled. Without the hex digest, a job id equal to another job's `title_company_city` string would collide with that key in the shared seen set, which the 32-character digest in src/data_processing/data_cleaner.py:282-297 makes impossible for ordinary ids.
- `json.loads` and the regular expressions of the LLM response parser are left out. Parsing is an oracle. Only the filter and dedup stage is modelled.
- DataCleaner.JobCleaner.CleanJob does not model three steps of `clean_job`: the `_raw` drop (src/data_processing/data_cleaner.py:313-315), `publish_date` normalisation with `_normalize_date` and its `strptime` parsing (:348-350), and the `_cleaned` and `_cleaned_at` markers (:356-358), which need the clock. The job record has none of these fields.
- Randomness is left out. The first pick of diversity sampling and the draws of stratified sampling are parameters.
- File reading and writing, `input()` prompts, printing, logging, timing, matplotlib and HTML reports are left out. The scripts start from the loaded records and end with the values they would write.
- The crawler, authentication, database CRUD, HTTP wrappers, configuration loading and the front end's axios and router modules are not part of this model.
- `Text.Lower` folds ASCII letters only. Python's `lower()` also folds other letters, so keyword matching on non-ASCII capitals is not modelled.
- JavaScript strings count UTF-16 code units. The model counts characters, so `slice(0, 300)` and similar cuts differ on characters outside the Basic Multilingual Plane.
- `localStorage` and `JSON.stringify`/`JSON.parse` are left out. Local storage is an object holding the token and the user value, and a stored user is read back unchanged.
- AppStore.Label: a node's `id` is modelled as a string. The source also accepts a number there.
- Qwen3Client.BatchExtract requires a positive batch size. In Python, `range` with step 0 raises, and a negative step gives no batches.
- VectorDb.VectorStore.AddJobs requires a positive batch size, for the same reason.
- VectorDb.VectorStore.AddJobs reads a missing `title` as "". In the source `job['title']` (src/rag/vector_db.py:143) is read before the `try` at :160, so a deduplicated job without a title raises `KeyError`, which aborts `add_jobs` and the update that called it, with the earlier batches already stored.
- Neo4jImport.Importer.ImportJobs requires a positive batch size, for the same reason.
- Distillation.PredictedIff assumes a positive threshold. With a threshold of 0 or below, skills without a classifier (score 0.0) are emitted too. A separate lemma states that behaviour.
- SkillDictionary.GetStatistics leaves out the value of the average hot score, a float. The division by zero on an empty dictionary is modelled, as a failure.
- Distillation.FirstDigit and Distillation.ParseExperience test ASCII digits only, and so does the number filter of Qwen3Client.FallbackSkillsAsWritten. Python's `\d` (src/ml/knowledge_distillation.py:486) and `str.isdigit()` (src/llm/qwen3_local_client.py:327) also accept other Unicode digits.
- DataCleaner.MonthsAt reads ASCII digits only. The `\d` of `_SALARY_MONTHS_RE` (src/data_processing/data_cleaner.py:27) also matches other Unicode decimal digits, such as fullwidth ones, and `int()` parses them.
- DataCleaner.SalaryMonths, through DataCleaner.MonthsAt, likewise finds no month count after a mark followed by non-ASCII digits, where the source's pattern at src/data_processing/data_cleaner.py:27 finds one.
- AppStore.SkillList sorts by code point. JavaScript's `.sort()` compares UTF-16 code units, which orders characters outside the Basic Multilingual Plane differently.
- EnhanceQwen3.Enhance leaves out the averages of the skill counts, and with them the `ZeroDivisionError` at scripts/enhance_with_qwen3.py:240-241 when the sample is empty. The model returns normally there.
- `recommend_jobs` of the RAG service is not modelled. Where the agent's tools call it, its answer is an oracle value.

## Findings

| source | as written | input that shows it | evidently intended | confidence | as-written member | corrected member |
|---|---|---|---|---|---|---|
| src/api/main.py:1200-1213 | the 404 for an unknown position is raised inside the `try` whose `except Exception` turns it into a 500 | a target position with no required skill in the graph and no vector store | the client receives 404 | high, not executed | ApiGap.GapNotFoundAsWrittenIs500 | ApiGap.GapNotFoundIff |
| src/api/main.py:459-464 | the refresh loop rewrites the trend entry without `city_distribution`, which the warm-up and the endpoint both provide | any trend request between a refresh and the entry's expiry | the refreshed entry carries the same five lists as the computed one | high, not executed | ApiWarmup.RefreshAsWrittenHidesCities | ApiWarmup.RefreshTrendComplete |
| src/api/main.py:1152-1153 | the gap-analysis cache key leaves out the city, although the analysis filters by it | the same target and skills for two cities within five minutes | one cache entry per city | medium, not executed | ApiGap.GapKeyAsWrittenServesOtherCity | ApiGap.GapKeySeparatesCities |
| src/llm/qwen3_local_client.py:320 | the length check `1 < len(s) < 50` is applied before `strip()` | a response that fails JSON parsing and contains `"  "` | no empty or blank skill is returned | high, not executed | Qwen3Client.FallbackKeepsBlank | Qwen3Client.FallbackSkillsSpec |
| src/ml/active_learning_sampler.py:185-190 | the target is checked after each append, so a target of 0 still yields one job | `target_count = 0` with at least five jobs | no job for a target of 0 | medium, not executed | Sampler.ZeroTargetSamplesOne | Sampler.CollectChecked |
| scripts/data_cleaner.py:155-167 | a failure is recorded as `'error': str(e)`, and an exception whose message is empty makes that value falsy, so the run counts as processed | a city file whose cleaning raises `Exception()` | every failed run is counted as failed | medium, not executed | CleaningScript.EmptyMessageProcessed | CleaningScript.FailedNeverProcessed |
