/**
 * The job agent's conversations (src/agent/job_agent.py): per-session
 * histories cut to the last eight messages, the blocking `chat`, and the
 * event sequence of the streaming `async_chat_stream` with its routes
 * (forced LLM, direct tool path, small talk, planning, LangGraph) and its
 * fallbacks. The LLM, the LangGraph agent and the direct tools are oracles:
 * what they produced before finishing or raising.
 */
module Agent {
  import opened Wrappers
  import opened Text
  import opened Order
  import opened AgentRouter
  import AgentTools

  datatype Msg = Human(content: string) | AI(content: string) | ToolMsg(content: string)

  const MaxHistory: nat := 8

  /** `messages[-8:]` when longer than eight. */
  function Truncated(ms: seq<Msg>): (r: seq<Msg>)
    ensures |r| == Min(|ms|, MaxHistory)
    ensures r == ms[|ms| - |r|..]
  {
    if |ms| > MaxHistory then ms[|ms| - MaxHistory..] else ms
  }

  /** The history after the user's message is appended and the list is cut. */
  function WithUser(history: seq<Msg>, input: string): (r: seq<Msg>)
  {
    Truncated(history + [Human(input)])
  }

  /** The new message is kept, at most eight remain, and they are the latest ones. */
  lemma WithUserSpec(history: seq<Msg>, input: string)
    ensures var r := WithUser(history, input);
      && 1 <= |r| <= MaxHistory
      && r[|r| - 1] == Human(input)
      && r[..|r| - 1] == history[|history| + 1 - |r|..]
      && (|history| < MaxHistory ==> r == history + [Human(input)])
  {
    var ms := history + [Human(input)];
    var r := WithUser(history, input);
    assert r == ms[|ms| - |r|..];
    assert r[..|r| - 1] == ms[|ms| - |r|..|ms| - 1];
    assert ms[..|ms| - 1] == history;
  }

  // ------------------------------------------------------------------ chat

  /** What the blocking LangGraph call did: returned its message list, or raised. */
  datatype Invocation = Invoked(messages: seq<Msg>) | InvokeRaised(error: string)

  /** The content of the last AI message, if there is one. */
  function LastAI(ms: seq<Msg>): (r: Option<string>)
    ensures r.None? <==> forall i :: 0 <= i < |ms| ==> !ms[i].AI?
    ensures r.Some? ==> exists i :: 0 <= i < |ms| && ms[i] == AI(r.value) && forall j :: i < j < |ms| ==> !ms[j].AI?
  {
    if ms == [] then None
    else if ms[|ms| - 1].AI? then Some(ms[|ms| - 1].content)
    else
      var r := LastAI(ms[..|ms| - 1]);
      LastAIOfPrefix(ms, r);
      r
  }

  /** A last message that is not the AI's leaves the answer of the earlier ones. */
  lemma LastAIOfPrefix(ms: seq<Msg>, r: Option<string>)
    requires ms != [] && !ms[|ms| - 1].AI?
    requires var p := ms[..|ms| - 1];
      && (r.None? <==> forall i :: 0 <= i < |p| ==> !p[i].AI?)
      && (r.Some? ==> exists i :: 0 <= i < |p| && p[i] == AI(r.value) && forall j :: i < j < |p| ==> !p[j].AI?)
    ensures r.None? <==> forall i :: 0 <= i < |ms| ==> !ms[i].AI?
    ensures r.Some? ==> exists i :: 0 <= i < |ms| && ms[i] == AI(r.value) && forall j :: i < j < |ms| ==> !ms[j].AI?
  {
    var p := ms[..|ms| - 1];
    if r.Some? {
      var i :| 0 <= i < |p| && p[i] == AI(r.value) && forall j :: i < j < |p| ==> !p[j].AI?;
      assert ms[i] == p[i];
      forall j | i < j < |ms| ensures !ms[j].AI? {
        if j < |p| {
          assert ms[j] == p[j];
        }
      }
    } else {
      forall i | 0 <= i < |ms| ensures !ms[i].AI? {
        if i < |p| {
          assert ms[i] == p[i];
        }
      }
    }
  }

  const NoReply: string := "抱歉，未能生成有效回复。"
  const ErrorPrefix: string := "抱歉，处理出错: "

  /** `chat`'s answer. */
  function ChatReply(inv: Invocation): string
  {
    match inv
    case InvokeRaised(e) => ErrorPrefix + e
    case Invoked(ms) =>
      var last := LastAI(ms);
      if last.None? || last.value == "" then NoReply else last.value
  }

  /** The session's history after `chat`: the graph's messages, or the history with the user message on failure. */
  function ChatHistory(history: seq<Msg>, input: string, inv: Invocation): seq<Msg>
  {
    if inv.Invoked? then inv.messages else WithUser(history, input)
  }

  /**
   * The answer is never empty: the last AI message when it has content,
   * the fixed apology when there is none, the error text on failure.
   */
  lemma ChatReplySpec(inv: Invocation)
    ensures ChatReply(inv) != ""
    ensures inv.InvokeRaised? ==> ChatReply(inv) == ErrorPrefix + inv.error
    ensures inv.Invoked? && (forall i :: 0 <= i < |inv.messages| ==> !inv.messages[i].AI?) ==> ChatReply(inv) == NoReply
    ensures inv.Invoked? && ChatReply(inv) != NoReply ==> AI(ChatReply(inv)) in inv.messages
  {
    if inv.Invoked? && ChatReply(inv) != NoReply {
      var last := LastAI(inv.messages);
      var i :| 0 <= i < |inv.messages| && inv.messages[i] == AI(last.value) && forall j :: i < j < |inv.messages| ==> !inv.messages[j].AI?;
    }
  }

  // ---------------------------------------------------------------- stream

  /** The server-sent events of the stream. */
  datatype Event = Ping | Source(name: string) | Status(text: string) | Data(text: string) | ErrorEvent(text: string) | Done

  /** The text each event is written as. */
  function Render(e: Event): string
  {
    match e
    case Ping => ": ping\n\n"
    case Source(s) => "event: source\ndata: " + s + "\n\n"
    case Status(t) => "event: tool_status\ndata: " + t + "\n\n"
    case Data(t) => "data: " + t + "\n\n"
    case ErrorEvent(t) => "event: error\ndata: " + t + "\n\n"
    case Done => "data: [DONE]\n\n"
  }

  /** `s.replace('\n', '\\n')` */
  function EscapeNewlines(s: string): (r: string)
    ensures '\n' !in r
    ensures '\n' !in s ==> r == s
    ensures |r| >= |s|
  {
    if s == [] then []
    else
      var rest := EscapeNewlines(s[1..]);
      assert '\n' !in s ==> '\n' !in s[1..] by {
        assert forall c :: c in s[1..] ==> c in s;
      }
      (if s[0] == '\n' then "\\n" else [s[0]]) + rest
  }

  /** `s.replace('\\n', '\n')`: every backslash-n pair becomes a newline, left to right. */
  function UnescapeNewlines(s: string): (r: string)
    ensures |r| <= |s|
    decreases |s|
  {
    if |s| >= 2 && s[0] == '\\' && s[1] == 'n' then "\n" + UnescapeNewlines(s[2..])
    else if s == [] then []
    else [s[0]] + UnescapeNewlines(s[1..])
  }

  /** Undoing the escape restores any text that has no backslash. */
  lemma {:induction false} UnescapeEscape(s: string)
    requires '\\' !in s
    ensures UnescapeNewlines(EscapeNewlines(s)) == s
  {
    if s != [] {
      assert '\\' !in s[1..] by {
        assert forall c :: c in s[1..] ==> c in s;
      }
      UnescapeEscape(s[1..]);
      var rest := EscapeNewlines(s[1..]);
      if s[0] == '\n' {
        assert EscapeNewlines(s) == "\\n" + rest;
        assert ("\\n" + rest)[2..] == rest;
      } else {
        assert EscapeNewlines(s) == [s[0]] + rest;
        assert ([s[0]] + rest)[1..] == rest;
      }
      assert s == [s[0]] + s[1..];
    }
  }

  /** `s.split(sep)` for a non-empty separator, scanning left to right. */
  function SplitOn(s: string, sep: string): (r: seq<string>)
    requires sep != []
    ensures |r| >= 1
    decreases |s|
  {
    if |s| < |sep| then [s]
    else if s[..|sep|] == sep then [[]] + SplitOn(s[|sep|..], sep)
    else
      var rest := SplitOn(s[1..], sep);
      [[s[0]] + rest[0]] + rest[1..]
  }

  /** The non-empty chunks an LLM stream delivered (`content or ''`, then `if content`). */
  function NonEmpty(chunks: seq<string>): (r: seq<string>)
    ensures forall c :: c in r <==> c in chunks && c != ""
  {
    Filter(chunks, (c: string) => c != "")
  }

  /** `"".join(chunks)` */
  function Concat(chunks: seq<string>): string
  {
    if chunks == [] then [] else Concat(chunks[..|chunks| - 1]) + chunks[|chunks| - 1]
  }

  /** One `data:` event per non-empty chunk, newlines escaped. */
  function DataEvents(chunks: seq<string>): (r: seq<Event>)
    ensures |r| == |NonEmpty(chunks)|
    ensures forall i :: 0 <= i < |r| ==> r[i] == Data(EscapeNewlines(NonEmpty(chunks)[i]))
  {
    var texts := NonEmpty(chunks);
    seq(|texts|, i requires 0 <= i < |texts| => Data(EscapeNewlines(texts[i])))
  }

  /** The escaped, non-empty paragraphs of a direct-path answer. */
  function Paragraphs(result: string): (r: seq<string>)
    ensures forall p :: p in r ==> p != "" && '\n' !in p
  {
    var parts := SplitOn(result, "\n\n");
    var escaped := seq(|parts|, i requires 0 <= i < |parts| => EscapeNewlines(parts[i]));
    Filter(escaped, (p: string) => p != "")
  }

  /** One event per paragraph, closed by a literal backslash-n pair twice. */
  function ParagraphEvents(result: string): (r: seq<Event>)
    ensures |r| == |Paragraphs(result)|
    ensures forall i :: 0 <= i < |r| ==> r[i] == Data(Paragraphs(result)[i] + "\\n\\n")
  {
    var ps := Paragraphs(result);
    seq(|ps|, i requires 0 <= i < |ps| => Data(ps[i] + "\\n\\n"))
  }

  /** What an LLM stream produced: its chunks, and the exception it ended with, if any. */
  datatype LlmStream = LlmStream(chunks: seq<string>, raised: Option<string>)

  /** A LangGraph `astream_events` event. `ToolEnd.output` is absent when the output is not a string. */
  datatype GraphEvent =
    | ModelStart
    | ToolStart(name: string)
    | ToolEnd(name: string, output: Option<string>)
    | ModelToken(content: string, toolCall: bool)
    | OtherEvent

  datatype GraphStream = GraphStream(events: seq<GraphEvent>, raised: Option<string>)

  /** The events emitted so far, the tool calls seen and the answer tokens collected. */
  datatype Fold = Fold(events: seq<Event>, toolCalls: nat, texts: seq<string>)

  const Integrating: string := "✍️ 正在整合结果..."

  function ToolTip(name: string): string
  {
    if name == "search_jobs" then "🔍 正在检索岗位数据库..."
    else if name == "analyze_skill_gap" then "📊 正在分析技能差距..."
    else if name == "recommend_jobs" then "🎯 正在匹配推荐岗位..."
    else if name == "query_skill_graph" then "🧠 正在查询技能图谱..."
    else "⚙️ 正在处理: " + name + "..."
  }

  /** A search or recommend tool's output names the graph in its first twenty characters, else it came from RAG. */
  function ToolSource(output: Option<string>): string
  {
    if output.Some? && !Contains(Take(output.value, 20), "图谱") then "rag" else "graph"
  }

  /** One LangGraph event. */
  function GraphStep(f: Fold, ev: GraphEvent, followUp: bool): Fold
  {
    match ev
    case ModelStart =>
      var status := if f.toolCalls == 0 then (if followUp then "✍️ 正在组织回答..." else "🤔 AI 正在推理...") else Integrating;
      Fold(f.events + [Status(status)], f.toolCalls, f.texts)
    case ToolStart(name) => Fold(f.events + [Status(ToolTip(name))], f.toolCalls + 1, f.texts)
    case ToolEnd(name, output) =>
      if f.toolCalls == 0 then f
      else if name == "search_jobs" || name == "recommend_jobs" then
        Fold(f.events + [Source(ToolSource(output)), Status(Integrating)], f.toolCalls, f.texts)
      else Fold(f.events + [Status(Integrating)], f.toolCalls, f.texts)
    case ModelToken(content, toolCall) =>
      if content == "" || toolCall then f
      else Fold(f.events + [Data(EscapeNewlines(content))], f.toolCalls, f.texts + [content])
    case OtherEvent => f
  }

  /** The LangGraph events, processed in order. */
  function GraphFold(evs: seq<GraphEvent>, followUp: bool): Fold
  {
    if evs == [] then Fold([], 0, [])
    else GraphStep(GraphFold(evs[..|evs| - 1], followUp), evs[|evs| - 1], followUp)
  }

  /**
   * Every event of a plain segment is a source, status or data event, and
   * no data payload holds a newline: each is a single SSE `data:` line.
   */
  predicate Plain(evs: seq<Event>)
  {
    forall i :: 0 <= i < |evs| ==> (evs[i].Source? || evs[i].Status? || evs[i].Data?) && (evs[i].Data? ==> '\n' !in evs[i].text)
  }

  lemma PlainConcat(a: seq<Event>, b: seq<Event>)
    requires Plain(a) && Plain(b)
    ensures Plain(a + b)
  {
  }

  lemma {:induction false} GraphFoldPlain(evs: seq<GraphEvent>, followUp: bool)
    ensures Plain(GraphFold(evs, followUp).events)
    ensures forall t :: t in GraphFold(evs, followUp).texts ==> t != ""
  {
    if evs != [] {
      GraphFoldPlain(evs[..|evs| - 1], followUp);
    }
  }

  /**
   * Where a stream body stopped: the events it emitted, the session's
   * messages at that point, and the exception that interrupted it (none
   * when it finished with `[DONE]`).
   */
  datatype Partial = Partial(events: seq<Event>, messages: seq<Msg>, raised: Option<string>)

  /** A finished body ends with its single `[DONE]`; an interrupted one has none yet. */
  predicate WellFormed(p: Partial)
  {
    if p.raised.None? then |p.events| >= 1 && p.events[|p.events| - 1] == Done && Plain(p.events[..|p.events| - 1])
    else Plain(p.events)
  }

  /** Put `pre` in front of a body's events. */
  function Prefixed(pre: seq<Event>, p: Partial): Partial
  {
    Partial(pre + p.events, p.messages, p.raised)
  }

  lemma PrefixedWellFormed(pre: seq<Event>, p: Partial)
    requires Plain(pre) && WellFormed(p)
    ensures WellFormed(Prefixed(pre, p))
  {
    var q := Prefixed(pre, p);
    if p.raised.None? {
      assert q.events[..|q.events| - 1] == pre + p.events[..|p.events| - 1];
    }
  }

  lemma DataEventsPlain(chunks: seq<string>)
    ensures Plain(DataEvents(chunks))
  {
  }

  /** mode "llm": stream the model's answer and always store it, even when empty. */
  function LlmModePath(messages: seq<Msg>, llm: LlmStream): Partial
  {
    var evs := [Source("llm"), Status("💬 智聘助手回复中...")] + DataEvents(llm.chunks);
    if llm.raised.Some? then Partial(evs, messages, llm.raised)
    else Partial(evs + [Status(""), Done], messages + [AI(Concat(NonEmpty(llm.chunks)))], None)
  }

  /** The small-talk and planning shortcuts: stream the model's answer, store it only when non-empty. */
  function QuickPath(messages: seq<Msg>, llm: LlmStream, status: string): Partial
  {
    var evs := [Source("llm"), Status(status)] + DataEvents(llm.chunks);
    var texts := NonEmpty(llm.chunks);
    if llm.raised.Some? then Partial(evs, messages, llm.raised)
    else Partial(evs + [Done], if texts != [] then messages + [AI(Concat(texts))] else messages, None)
  }

  /**
   * The LangGraph route. When the graph produced no answer tokens the
   * model is asked directly; the stored answer has backslash-n pairs
   * turned into newlines.
   */
  function GraphPath(followUp: bool, messages: seq<Msg>, graph: GraphStream, llm: LlmStream): Partial
  {
    var head := [Source("llm"), Status(if followUp then "📊 正在分析历史岗位数据..." else "🧠 AI 深度分析中...")];
    var f := GraphFold(graph.events, followUp);
    var evs := head + f.events;
    if graph.raised.Some? then Partial(evs, messages, graph.raised)
    else if f.texts != [] then Partial(evs + [Done], messages + [AI(UnescapeNewlines(Concat(f.texts)))], None)
    else
      var fb := evs + [Status("💬 整理回复中...")] + DataEvents(llm.chunks);
      var texts := NonEmpty(llm.chunks);
      if llm.raised.Some? then Partial(fb, messages, llm.raised)
      else Partial(fb + [Done], if texts != [] then messages + [AI(UnescapeNewlines(Concat(texts)))] else messages, None)
  }

  /** What the router decided about a message before any model is consulted. */
  datatype Route = Route(llmMode: bool, action: Action, city: string, force: string,
                         simple: bool, planning: bool, followUp: bool)

  /** The direct action and city: forced to a search in the graph and rag modes, detected otherwise. */
  function DirectIntent(input: string, mode: string, order: seq<string>): (Action, string)
  {
    if mode == "graph" || mode == "rag" then (Search, CityOf(order, input))
    else
      var d := DetectDirectAction(input, order);
      (d.action, d.city)
  }

  function ForceSource(mode: string): string
  {
    if mode == "graph" || mode == "rag" then mode else "auto"
  }

  /** The router's decisions for a message, with the length of the truncated history. */
  function Classify(input: string, mode: string, order: seq<string>, historyLength: nat): Route
  {
    var (action, city) := DirectIntent(input, mode, order);
    Route(mode == "llm", action, city, ForceSource(mode),
          IsSimpleChat(input), IsPlanningQuery(input), IsFollowUp(input, historyLength))
  }

  /** The stages after the direct path: small talk, then planning, then LangGraph. */
  function LaterStages(route: Route, messages: seq<Msg>, graph: GraphStream, llm: LlmStream): Partial
  {
    if route.simple then QuickPath(messages, llm, "💬 智聘助手回复中...")
    else if route.planning then QuickPath(messages, llm, "📝 AI 规划方案生成中...")
    else GraphPath(route.followUp, messages, graph, llm)
  }

  /** The direct tool call the stream makes. */
  datatype ToolCall =
    | SearchCall(query: string, city: string, force: string)
    | RecommendCall(skills: seq<string>, city: string, force: string)

  /**
   * A search passes the raw input; a recommendation passes the skills found
   * in it, and becomes a search when there are none.
   */
  function DirectCall(route: Route, input: string, skills: seq<string>): Option<ToolCall>
  {
    if route.llmMode || route.action == NoAction then None
    else if route.action == Search || skills == [] then Some(SearchCall(input, route.city, route.force))
    else Some(RecommendCall(skills, route.city, route.force))
  }

  function DirectTip(action: Action): string
  {
    if action == Search then "⚡ 正在检索岗位数据库..." else "🎯 正在匹配推荐岗位..."
  }

  /** The direct path's events when the tool answered: its source, then one event per paragraph. */
  function DirectAnswer(action: Action, reply: AgentTools.Reply): seq<Event>
  {
    [Status(DirectTip(action)), Source(reply.source), Status("")] + ParagraphEvents(reply.text) + [Done]
  }

  /**
   * The body of `async_chat_stream` after the ping, from the truncated
   * history. `direct` is the direct tool's reply, absent after a timeout
   * or an exception.
   */
  function StreamBody(route: Route, messages: seq<Msg>, direct: Option<AgentTools.Reply>,
                      llm: LlmStream, graph: GraphStream): Partial
  {
    if route.llmMode then LlmModePath(messages, llm)
    else if route.action == NoAction then LaterStages(route, messages, graph, llm)
    else if direct.Some? then Partial(DirectAnswer(route.action, direct.value), messages + [AI(direct.value.text)], None)
    else Prefixed([Status(DirectTip(route.action))], LaterStages(route, messages, graph, llm))
  }

  /** The stream's events and the session's history afterwards. */
  datatype StreamResult = StreamResult(events: seq<Event>, messages: seq<Msg>)

  const Retrying: string := "💬 重新生成回复..."

  /** The `except` branch: retry with the model, else report the error with its newlines flattened. */
  function Recover(p: Partial, retry: LlmStream): StreamResult
    requires p.raised.Some?
  {
    var evs := p.events + [Status(Retrying)] + DataEvents(retry.chunks);
    var texts := NonEmpty(retry.chunks);
    if retry.raised.None? && texts != [] then StreamResult(evs + [Done], p.messages + [AI(Concat(texts))])
    else StreamResult(evs + [ErrorEvent(ErrorPrefix + ReplaceChar(p.raised.value, '\n', ' ')), Done], p.messages)
  }

  /** The ping, then the body, recovered when it raised. */
  function Run(route: Route, messages: seq<Msg>, direct: Option<AgentTools.Reply>,
               llm: LlmStream, graph: GraphStream, retry: LlmStream): StreamResult
  {
    Finish(StreamBody(route, messages, direct, llm, graph), retry)
  }

  /** The ping, then a body's events, recovered when it raised. */
  function Finish(body: Partial, retry: LlmStream): StreamResult
  {
    var r := if body.raised.None? then StreamResult(body.events, body.messages) else Recover(body, retry);
    StreamResult([Ping] + r.events, r.messages)
  }

  /** `async_chat_stream` on a session whose history was `history`. */
  function Stream(history: seq<Msg>, input: string, mode: string, order: seq<string>,
                  direct: Option<AgentTools.Reply>, llm: LlmStream, graph: GraphStream, retry: LlmStream): StreamResult
  {
    var messages := WithUser(history, input);
    Run(Classify(input, mode, order, |messages|), messages, direct, llm, graph, retry)
  }

  lemma ParagraphEventsPlain(result: string)
    ensures Plain(ParagraphEvents(result))
  {
    var ps := Paragraphs(result);
    forall i | 0 <= i < |ps| ensures '\n' !in ps[i] + "\\n\\n" {
      assert ps[i] in ps;
    }
  }

  lemma QuickPathWellFormed(messages: seq<Msg>, llm: LlmStream, status: string)
    ensures WellFormed(QuickPath(messages, llm, status))
  {
    var head := [Source("llm"), Status(status)];
    var evs := head + DataEvents(llm.chunks);
    DataEventsPlain(llm.chunks);
    PlainConcat(head, DataEvents(llm.chunks));
    if llm.raised.None? {
      assert (evs + [Done])[..|evs|] == evs;
    }
  }

  lemma GraphPathWellFormed(followUp: bool, messages: seq<Msg>, graph: GraphStream, llm: LlmStream)
    ensures WellFormed(GraphPath(followUp, messages, graph, llm))
  {
    GraphFoldPlain(graph.events, followUp);
    DataEventsPlain(llm.chunks);
    var head := [Source("llm"), Status(if followUp then "📊 正在分析历史岗位数据..." else "🧠 AI 深度分析中...")];
    var f := GraphFold(graph.events, followUp);
    var evs := head + f.events;
    PlainConcat(head, f.events);
    var fb := evs + [Status("💬 整理回复中...")] + DataEvents(llm.chunks);
    PlainConcat(evs, [Status("💬 整理回复中...")]);
    PlainConcat(evs + [Status("💬 整理回复中...")], DataEvents(llm.chunks));
    assert (evs + [Done])[..|evs|] == evs;
    assert (fb + [Done])[..|fb|] == fb;
  }

  lemma LaterStagesWellFormed(route: Route, messages: seq<Msg>, graph: GraphStream, llm: LlmStream)
    ensures WellFormed(LaterStages(route, messages, graph, llm))
  {
    QuickPathWellFormed(messages, llm, "💬 智聘助手回复中...");
    QuickPathWellFormed(messages, llm, "📝 AI 规划方案生成中...");
    GraphPathWellFormed(route.followUp, messages, graph, llm);
  }

  lemma StreamBodyWellFormed(route: Route, messages: seq<Msg>, direct: Option<AgentTools.Reply>,
                             llm: LlmStream, graph: GraphStream)
    ensures WellFormed(StreamBody(route, messages, direct, llm, graph))
  {
    if route.llmMode {
      LlmModeWellFormed(messages, llm);
    } else if route.action == NoAction {
      LaterStagesWellFormed(route, messages, graph, llm);
    } else if direct.Some? {
      DirectAnswerWellFormed(route.action, direct.value, messages);
    } else {
      LaterStagesWellFormed(route, messages, graph, llm);
      PrefixedWellFormed([Status(DirectTip(route.action))], LaterStages(route, messages, graph, llm));
    }
  }

  lemma LlmModeWellFormed(messages: seq<Msg>, llm: LlmStream)
    ensures WellFormed(LlmModePath(messages, llm))
  {
    var head := [Source("llm"), Status("💬 智聘助手回复中...")];
    var evs := head + DataEvents(llm.chunks);
    DataEventsPlain(llm.chunks);
    PlainConcat(head, DataEvents(llm.chunks));
    if llm.raised.None? {
      PlainConcat(evs, [Status("")]);
      assert (evs + [Status(""), Done])[..|evs| + 1] == evs + [Status("")];
    }
  }

  lemma DirectAnswerWellFormed(action: Action, r: AgentTools.Reply, messages: seq<Msg>)
    ensures WellFormed(Partial(DirectAnswer(action, r), messages + [AI(r.text)], None))
  {
    var pre := [Status(DirectTip(action)), Source(r.source), Status("")];
    ParagraphEventsPlain(r.text);
    PlainConcat(pre, ParagraphEvents(r.text));
    assert DirectAnswer(action, r)[..|pre| + |ParagraphEvents(r.text)|] == pre + ParagraphEvents(r.text);
  }

  /** The error text has no newline, so it is one SSE `data:` line. */
  lemma ErrorTextOneLine(e: string)
    ensures '\n' !in ErrorPrefix + ReplaceChar(e, '\n', ' ')
  {
    var rc := ReplaceChar(e, '\n', ' ');
    var err := ErrorPrefix + rc;
    assert forall i :: 0 <= i < |rc| ==> rc[i] != '\n';
    assert forall i :: 0 <= i < |ErrorPrefix| ==> ErrorPrefix[i] != '\n';
    assert forall i :: 0 <= i < |err| ==> err[i] != '\n';
  }

  /**
   * The framing of a stream: it opens with the ping, ends with the one
   * `[DONE]`, and between them has only source, status and newline-free
   * data events, except for the error event, which when present comes
   * right before `[DONE]`.
   */
  predicate Framed(e: seq<Event>)
  {
    && |e| >= 2 && e[0] == Ping && e[|e| - 1] == Done
    && (Plain(e[1..|e| - 1]) || (e[|e| - 2].ErrorEvent? && '\n' !in e[|e| - 2].text && Plain(e[1..|e| - 2])))
  }

  /** Every stream is framed, whatever the route and the oracles. */
  lemma RunFraming(route: Route, messages: seq<Msg>, direct: Option<AgentTools.Reply>,
                   llm: LlmStream, graph: GraphStream, retry: LlmStream)
    ensures Framed(Run(route, messages, direct, llm, graph, retry).events)
  {
    var body := StreamBody(route, messages, direct, llm, graph);
    StreamBodyWellFormed(route, messages, direct, llm, graph);
    FinishFraming(body, retry);
  }

  /** The framing of a well-formed body once the ping and the recovery are added. */
  lemma FinishFraming(body: Partial, retry: LlmStream)
    requires WellFormed(body)
    ensures Framed(Finish(body, retry).events)
  {
    if body.raised.None? {
      var e := Finish(body, retry).events;
      assert e == [Ping] + body.events;
      assert e[1..|e| - 1] == body.events[..|body.events| - 1];
    } else {
      RecoverFraming(body, retry);
    }
  }

  /** The recovery of a body that raised, behind the ping. */
  lemma RecoverFraming(body: Partial, retry: LlmStream)
    requires body.raised.Some? && Plain(body.events)
    ensures Framed([Ping] + Recover(body, retry).events)
  {
    var e := [Ping] + Recover(body, retry).events;
    var evs := body.events + [Status(Retrying)] + DataEvents(retry.chunks);
    DataEventsPlain(retry.chunks);
    PlainConcat(body.events, [Status(Retrying)]);
    PlainConcat(body.events + [Status(Retrying)], DataEvents(retry.chunks));
    if retry.raised.None? && NonEmpty(retry.chunks) != [] {
      assert e == [Ping] + evs + [Done];
      assert e[1..|e| - 1] == evs;
    } else {
      var err := ErrorPrefix + ReplaceChar(body.raised.value, '\n', ' ');
      ErrorTextOneLine(body.raised.value);
      assert e == [Ping] + evs + [ErrorEvent(err), Done];
      assert e[1..|e| - 2] == evs;
    }
  }

  /**
   * The error event is sent exactly when the body raised and the retry
   * either raised too or produced no text.
   */
  lemma RunErrorIff(route: Route, messages: seq<Msg>, direct: Option<AgentTools.Reply>,
                    llm: LlmStream, graph: GraphStream, retry: LlmStream)
    ensures var e := Run(route, messages, direct, llm, graph, retry).events;
      (exists i :: 0 <= i < |e| && e[i].ErrorEvent?)
        <==> StreamBody(route, messages, direct, llm, graph).raised.Some?
             && (retry.raised.Some? || NonEmpty(retry.chunks) == [])
  {
    StreamBodyWellFormed(route, messages, direct, llm, graph);
    FinishErrorIff(StreamBody(route, messages, direct, llm, graph), retry);
  }

  /** A well-formed body ends in an error event exactly when it raised and the retry gave nothing. */
  lemma FinishErrorIff(body: Partial, retry: LlmStream)
    requires WellFormed(body)
    ensures var e := Finish(body, retry).events;
      (exists i :: 0 <= i < |e| && e[i].ErrorEvent?)
        <==> body.raised.Some? && (retry.raised.Some? || NonEmpty(retry.chunks) == [])
  {
    var e := Finish(body, retry).events;
    if body.raised.None? {
      assert e == [Ping] + body.events;
      forall i | 0 <= i < |e| ensures !e[i].ErrorEvent? {
        if 1 <= i < |e| - 1 {
          assert e[i] == body.events[..|body.events| - 1][i - 1];
        }
      }
    } else if retry.raised.None? && NonEmpty(retry.chunks) != [] {
      var evs := body.events + [Status(Retrying)] + DataEvents(retry.chunks);
      DataEventsPlain(retry.chunks);
      PlainConcat(body.events, [Status(Retrying)]);
      PlainConcat(body.events + [Status(Retrying)], DataEvents(retry.chunks));
      assert e == [Ping] + evs + [Done];
      forall i | 0 <= i < |e| ensures !e[i].ErrorEvent? {
        if 1 <= i < |e| - 1 {
          assert e[i] == evs[i - 1];
        }
      }
    } else {
      assert e[|e| - 2].ErrorEvent?;
    }
  }

  /**
   * The session afterwards holds the truncated history and, when an
   * answer was produced, one AI message after it.
   */
  lemma RunHistory(route: Route, messages: seq<Msg>, direct: Option<AgentTools.Reply>,
                   llm: LlmStream, graph: GraphStream, retry: LlmStream)
    ensures var h := Run(route, messages, direct, llm, graph, retry).messages;
      h == messages || (|h| == |messages| + 1 && h[..|messages|] == messages && h[|messages|].AI?)
  {
    var body := StreamBody(route, messages, direct, llm, graph);
    BodyHistory(route, messages, direct, llm, graph);
    if body.raised.Some? {
      assert (messages + [AI(Concat(NonEmpty(retry.chunks)))])[..|messages|] == messages;
    }
  }

  /** `h` is `messages`, or `messages` and one AI message. */
  predicate AtMostOneAnswer(h: seq<Msg>, messages: seq<Msg>)
  {
    h == messages || (|h| == |messages| + 1 && h[..|messages|] == messages && h[|messages|].AI?)
  }

  /** A body adds at most one AI message, and none when it raised. */
  lemma BodyHistory(route: Route, messages: seq<Msg>, direct: Option<AgentTools.Reply>,
                    llm: LlmStream, graph: GraphStream)
    ensures var p := StreamBody(route, messages, direct, llm, graph);
      AtMostOneAnswer(p.messages, messages) && (p.raised.Some? ==> p.messages == messages)
  {
    if route.llmMode {
      assert (messages + [AI(Concat(NonEmpty(llm.chunks)))])[..|messages|] == messages;
    } else if route.action != NoAction && direct.Some? {
      assert (messages + [AI(direct.value.text)])[..|messages|] == messages;
    } else {
      LaterStagesHistory(route, messages, graph, llm);
    }
  }

  lemma LaterStagesHistory(route: Route, messages: seq<Msg>, graph: GraphStream, llm: LlmStream)
    ensures var p := LaterStages(route, messages, graph, llm);
      AtMostOneAnswer(p.messages, messages) && (p.raised.Some? ==> p.messages == messages)
  {
    QuickPathHistory(messages, llm, "💬 智聘助手回复中...");
    QuickPathHistory(messages, llm, "📝 AI 规划方案生成中...");
    GraphPathHistory(route.followUp, messages, graph, llm);
  }

  /** Appending one AI message is at most one answer. */
  lemma OneAnswer(messages: seq<Msg>, text: string)
    ensures AtMostOneAnswer(messages + [AI(text)], messages)
  {
    assert (messages + [AI(text)])[..|messages|] == messages;
  }

  lemma QuickPathHistory(messages: seq<Msg>, llm: LlmStream, status: string)
    ensures var p := QuickPath(messages, llm, status);
      AtMostOneAnswer(p.messages, messages) && (p.raised.Some? ==> p.messages == messages)
  {
    OneAnswer(messages, Concat(NonEmpty(llm.chunks)));
  }

  lemma GraphPathHistory(followUp: bool, messages: seq<Msg>, graph: GraphStream, llm: LlmStream)
    ensures var p := GraphPath(followUp, messages, graph, llm);
      AtMostOneAnswer(p.messages, messages) && (p.raised.Some? ==> p.messages == messages)
  {
    OneAnswer(messages, UnescapeNewlines(Concat(NonEmpty(llm.chunks))));
    OneAnswer(messages, UnescapeNewlines(Concat(GraphFold(graph.events, followUp).texts)));
  }

  /** So a session never holds more than nine messages, and keeps the user's latest one. */
  lemma StreamHistory(history: seq<Msg>, input: string, mode: string, order: seq<string>,
                      direct: Option<AgentTools.Reply>, llm: LlmStream, graph: GraphStream, retry: LlmStream)
    ensures var h := Stream(history, input, mode, order, direct, llm, graph, retry).messages;
      |h| <= MaxHistory + 1 && Human(input) in h
  {
    var m := WithUser(history, input);
    WithUserSpec(history, input);
    RunKeepsLast(Classify(input, mode, order, |m|), m, direct, llm, graph, retry);
  }

  /** A stream keeps the session's last message and adds at most one. */
  lemma RunKeepsLast(route: Route, m: seq<Msg>, direct: Option<AgentTools.Reply>,
                     llm: LlmStream, graph: GraphStream, retry: LlmStream)
    requires m != []
    ensures var h := Run(route, m, direct, llm, graph, retry).messages;
      |h| <= |m| + 1 && m[|m| - 1] in h
  {
    RunHistory(route, m, direct, llm, graph, retry);
    var h := Run(route, m, direct, llm, graph, retry).messages;
    assert h[|m| - 1] == m[|m| - 1] by {
      if h != m {
        assert h[..|m|] == m;
      }
    }
  }

  /**
   * A direct answer that arrives settles the stream: the LLM, LangGraph
   * and retry oracles are never consulted, and the answer is stored.
   */
  lemma DirectAnswerPrecedes(route: Route, messages: seq<Msg>, reply: AgentTools.Reply,
                             llm1: LlmStream, graph1: GraphStream, retry1: LlmStream,
                             llm2: LlmStream, graph2: GraphStream, retry2: LlmStream)
    requires !route.llmMode && route.action != NoAction
    ensures Run(route, messages, Some(reply), llm1, graph1, retry1) == Run(route, messages, Some(reply), llm2, graph2, retry2)
    ensures var r := Run(route, messages, Some(reply), llm1, graph1, retry1);
      r.events[1] == Status(DirectTip(route.action)) && r.events[2] == Source(reply.source)
      && r.messages == messages + [AI(reply.text)]
  {
  }

  /** A failed or timed-out direct call falls through: only its status line precedes the later stages. */
  lemma DirectFailureFallsThrough(route: Route, messages: seq<Msg>, llm: LlmStream, graph: GraphStream)
    requires !route.llmMode && route.action != NoAction
    ensures StreamBody(route, messages, None, llm, graph)
         == Prefixed([Status(DirectTip(route.action))], LaterStages(route, messages, graph, llm))
  {
  }

  /**
   * Small talk is tried before planning, and planning before LangGraph: a
   * message that is both gets the small-talk status, and neither consults
   * the graph.
   */
  lemma LaterStagesOrder(route: Route, messages: seq<Msg>, g1: GraphStream, g2: GraphStream, llm: LlmStream)
    requires route.simple || route.planning
    ensures LaterStages(route, messages, g1, llm) == LaterStages(route, messages, g2, llm)
    ensures LaterStages(route, messages, g1, llm).events[1]
         == Status(if route.simple then "💬 智聘助手回复中..." else "📝 AI 规划方案生成中...")
  {
  }

  /** Forced LLM mode ignores the direct tools and the graph, and stores the answer even when empty. */
  lemma LlmModeAlwaysStores(route: Route, messages: seq<Msg>, direct: Option<AgentTools.Reply>,
                            llm: LlmStream, graph: GraphStream, retry: LlmStream)
    requires route.llmMode && llm.raised.None?
    ensures Run(route, messages, direct, llm, graph, retry) == Run(route, messages, None, llm, GraphStream([], None), retry)
    ensures Run(route, messages, direct, llm, graph, retry).messages == messages + [AI(Concat(NonEmpty(llm.chunks)))]
  {
  }

  /** The graph and rag modes always take the direct path as a search, with the raw input. */
  lemma ForcedModesSearch(input: string, mode: string, order: seq<string>, historyLength: nat, skills: seq<string>)
    requires mode == "graph" || mode == "rag"
    ensures var route := Classify(input, mode, order, historyLength);
      DirectCall(route, input, skills) == Some(SearchCall(input, CityOf(order, input), mode))
  {
  }

  /** A recommendation without recognisable skills falls back to a search with the raw input. */
  lemma RecommendWithoutSkillsSearches(route: Route, input: string)
    requires !route.llmMode && route.action == Recommend
    ensures DirectCall(route, input, []) == Some(SearchCall(input, route.city, route.force))
  {
  }

  // ----------------------------------------------------------------- agent

  /** `JobRecommendAgent`: the per-session histories. */
  class JobAgent {
    var sessions: map<string, seq<Msg>>

    constructor()
      ensures sessions == map[]
    {
      sessions := map[];
    }

    /** The session's history, empty when it has none yet. */
    function History(id: string): seq<Msg>
      reads this
    {
      if id in sessions then sessions[id] else []
    }

    /**
     * `chat`. `inv` is what the LangGraph call did; `recursionLimit` is the
     * limit it was given (3 in follow-up mode, 8 otherwise).
     */
    method Chat(input: string, id: string, inv: Invocation) returns (response: string, recursionLimit: nat)
      modifies this
      ensures response == ChatReply(inv)
      ensures recursionLimit == RecursionLimit(IsFollowUp(input, |WithUser(old(History(id)), input)|))
      ensures sessions == old(sessions)[id := ChatHistory(old(History(id)), input, inv)]
    {
      var messages := History(id) + [Human(input)];
      if |messages| > MaxHistory {
        messages := messages[|messages| - MaxHistory..];
      }
      assert messages == WithUser(old(History(id)), input);
      sessions := sessions[id := messages];
      recursionLimit := if IsFollowUp(input, |messages|) then 3 else 8;
      match inv {
        case InvokeRaised(e) =>
          response := ErrorPrefix + e;
        case Invoked(all) =>
          response := LastReply(all);
          sessions := sessions[id := all];
      }
    }

    /** `reset_memory`: one session, or all of them. */
    method ResetMemory(id: Option<string>)
      modifies this
      ensures id.Some? ==> sessions == old(sessions) - {id.value}
      ensures id.None? ==> sessions == map[]
    {
      if id.Some? {
        sessions := sessions - {id.value};
      } else {
        sessions := map[];
      }
    }

    /**
     * `async_chat_stream`. `direct` is the reply of the direct tool call
     * that `DirectToolCall` makes, `llm` the model stream of whichever route streams
     * from it, `graph` the LangGraph run and `retry` the model stream of
     * the exception handler.
     */
    method ChatStream(input: string, id: string, mode: string, order: seq<string>,
                      direct: Option<AgentTools.Reply>, llm: LlmStream, graph: GraphStream, retry: LlmStream)
      returns (events: seq<Event>)
      modifies this
      ensures var r := Stream(old(History(id)), input, mode, order, direct, llm, graph, retry);
        events == r.events && sessions == old(sessions)[id := r.messages]
    {
      var r := StreamTurn(History(id), input, mode, order, direct, llm, graph, retry);
      events := r.events;
      sessions := sessions[id := r.messages];
    }
  }

  /** One streamed turn on a session whose history was `history`. */
  method StreamTurn(history: seq<Msg>, input: string, mode: string, order: seq<string>,
                    direct: Option<AgentTools.Reply>, llm: LlmStream, graph: GraphStream, retry: LlmStream)
    returns (r: StreamResult)
    ensures r == Stream(history, input, mode, order, direct, llm, graph, retry)
  {
    var messages := history + [Human(input)];
    if |messages| > MaxHistory {
      messages := messages[|messages| - MaxHistory..];
    }
    assert messages == WithUser(history, input);
    var route := Classify(input, mode, order, |messages|);
    r := RunStream(route, messages, direct, llm, graph, retry);
  }

  /** The direct tool call: skills are extracted only for a recommendation. */
  method DirectToolCall(route: Route, input: string) returns (call: Option<ToolCall>)
    ensures call == DirectCall(route, input, AgentTools.SkillsIn(AgentTools.SkillsDict, input))
  {
    if route.llmMode || route.action == NoAction {
      call := None;
    } else if route.action == Search {
      call := Some(SearchCall(input, route.city, route.force));
    } else {
      var skills := AgentTools.ExtractSkills(input);
      call := DirectCall(route, input, skills);
    }
  }

  /** One step of the backwards scan over the first `i` messages. */
  lemma LastAIStep(ms: seq<Msg>, i: nat)
    requires 0 < i <= |ms|
    ensures ms[i - 1].AI? ==> LastAI(ms[..i]) == Some(ms[i - 1].content)
    ensures !ms[i - 1].AI? ==> LastAI(ms[..i]) == LastAI(ms[..i - 1])
  {
    var p := ms[..i];
    assert p[|p| - 1] == ms[i - 1];
    assert p[..|p| - 1] == ms[..i - 1];
  }

  /** The invariant of the backward scan: the last AI message of `all` is among its first `i` messages, if anywhere. */
  ghost predicate ScannedBack(all: seq<Msg>, i: nat)
    requires i <= |all|
  {
    LastAI(all[..i]) == LastAI(all)
  }

  /** A message that is not the AI's moves the scan back by one. */
  lemma ScanBackStep(all: seq<Msg>, i: nat)
    requires 0 < i <= |all| && ScannedBack(all, i) && !all[i - 1].AI?
    ensures ScannedBack(all, i - 1)
  {
    LastAIStep(all, i);
  }

  /** The first AI message met is the last one. */
  lemma ScanBackHit(all: seq<Msg>, i: nat)
    requires 0 < i <= |all| && ScannedBack(all, i) && all[i - 1].AI?
    ensures LastAI(all) == Some(all[i - 1].content)
  {
    LastAIStep(all, i);
  }

  /** A scan that reaches the front met no AI message. */
  lemma ScanBackNone(all: seq<Msg>)
    requires ScannedBack(all, 0)
    ensures LastAI(all) == None
  {
    assert all[..0] == [];
  }

  /** The last AI message's content, scanning backwards; the apology when there is none or it is empty. */
  method LastReply(all: seq<Msg>) returns (response: string)
    ensures response == ChatReply(Invoked(all))
  {
    response := "";
    var i := |all|;
    assert all[..i] == all;
    ghost var found := false;
    while i > 0
      invariant 0 <= i <= |all|
      invariant ScannedBack(all, i)
      invariant response == ""
    {
      if all[i - 1].AI? {
        ScanBackHit(all, i);
        response := all[i - 1].content;
        found := true;
        break;
      }
      ScanBackStep(all, i);
      i := i - 1;
    }
    if !found {
      ScanBackNone(all);
    }
    if response == "" {
      response := NoReply;
    }
  }

  /** The stream after the history is updated. */
  method RunStream(route: Route, messages: seq<Msg>, direct: Option<AgentTools.Reply>,
                   llm: LlmStream, graph: GraphStream, retry: LlmStream) returns (r: StreamResult)
    ensures r == Run(route, messages, direct, llm, graph, retry)
  {
    var body: Partial;
    if route.llmMode {
      body := LlmModePath(messages, llm);
    } else if route.action == NoAction {
      body := RunLaterStages(route, messages, graph, llm);
    } else if direct.Some? {
      body := Partial(DirectAnswer(route.action, direct.value), messages + [AI(direct.value.text)], None);
    } else {
      var rest := RunLaterStages(route, messages, graph, llm);
      body := Prefixed([Status(DirectTip(route.action))], rest);
    }
    if body.raised.None? {
      r := StreamResult([Ping] + body.events, body.messages);
    } else {
      var rec := Recover(body, retry);
      r := StreamResult([Ping] + rec.events, rec.messages);
    }
  }

  /** The stages after the direct path, with the LangGraph events processed by a loop. */
  method RunLaterStages(route: Route, messages: seq<Msg>, graph: GraphStream, llm: LlmStream) returns (p: Partial)
    ensures p == LaterStages(route, messages, graph, llm)
  {
    if route.simple {
      p := QuickPath(messages, llm, "💬 智聘助手回复中...");
    } else if route.planning {
      p := QuickPath(messages, llm, "📝 AI 规划方案生成中...");
    } else {
      var fq := route.followUp;
      var head := [Source("llm"), Status(if fq then "📊 正在分析历史岗位数据..." else "🧠 AI 深度分析中...")];
      var out, texts := RunGraph(graph.events, fq);
      var evs := head + out;
      if graph.raised.Some? {
        p := Partial(evs, messages, graph.raised);
      } else if texts != [] {
        p := Partial(evs + [Done], messages + [AI(UnescapeNewlines(Concat(texts)))], None);
      } else {
        var fb := evs + [Status("💬 整理回复中...")] + DataEvents(llm.chunks);
        var answer := NonEmpty(llm.chunks);
        if llm.raised.Some? {
          p := Partial(fb, messages, llm.raised);
        } else {
          p := Partial(fb + [Done], if answer != [] then messages + [AI(UnescapeNewlines(Concat(answer)))] else messages, None);
        }
      }
    }
  }

  /** The `async for event in astream_events(...)` loop. */
  method RunGraph(evs: seq<GraphEvent>, followUp: bool) returns (out: seq<Event>, texts: seq<string>)
    ensures out == GraphFold(evs, followUp).events && texts == GraphFold(evs, followUp).texts
  {
    out, texts := [], [];
    var toolCalls: nat := 0;
    var i := 0;
    while i < |evs|
      invariant 0 <= i <= |evs|
      invariant GraphFold(evs[..i], followUp) == Fold(out, toolCalls, texts)
    {
      assert evs[..i + 1][..i] == evs[..i];
      match evs[i] {
        case ModelStart =>
          var status := if toolCalls == 0 then (if followUp then "✍️ 正在组织回答..." else "🤔 AI 正在推理...") else Integrating;
          out := out + [Status(status)];
        case ToolStart(name) =>
          toolCalls := toolCalls + 1;
          out := out + [Status(ToolTip(name))];
        case ToolEnd(name, output) =>
          if toolCalls > 0 {
            if name == "search_jobs" || name == "recommend_jobs" {
              out := out + [Source(ToolSource(output))];
            }
            out := out + [Status(Integrating)];
          }
        case ModelToken(content, toolCall) =>
          if content != "" && !toolCall {
            texts := texts + [content];
            out := out + [Data(EscapeNewlines(content))];
          }
        case OtherEvent =>
      }
      i := i + 1;
    }
    assert evs[..i] == evs;
  }
}
