/**
 * The keyword router of the job agent (src/agent/job_agent.py): whether a
 * message is a direct search or recommendation, small talk, a planning
 * question or a follow-up. Every test is a plain substring test; the
 * pattern `和.*的区别` is a literal string, not a regular expression.
 */
module AgentRouter {
  import opened Wrappers
  import opened Text

  /** The twenty cities the router recognises (a Python set: no order). */
  const Cities: set<string> := {
    "北京", "上海", "广州", "深圳", "杭州", "成都", "武汉", "南京", "西安", "重庆",
    "苏州", "天津", "合肥", "厦门", "长沙", "郑州", "宁波", "青岛", "济南", "大连"}

  const FollowupWords: seq<string> := [
    "上面", "上边", "前面", "这些", "这个", "那些", "那个", "它们",
    "哪个", "哪些", "哪家", "比较", "对比", "更好", "更适合",
    "最好", "最适合", "第一个", "第二个", "第三个", "适合我", "推荐哪",
    "排序", "排一下", "怎么排", "第几", "哪一"]

  const SearchTrigger: seq<string> := ["搜索", "帮我找", "查找", "找岗位", "找职位", "搜一下", "有哪些岗位", "找一下"]

  const KnowledgePatterns: seq<string> := [
    "需要哪些", "需要什么", "哪些技能", "什么技能", "技能要求",
    "如何成为", "怎么成为", "如何学", "怎么学", "学习路径",
    "学习路线", "技术路线", "学什么", "需要掌握", "发展前景",
    "前景怎么", "薪资行情", "平均薪资", "平均工资", "工资水平",
    "年薪多少", "月薪多少", "大概多少", "有什么区别", "和.*的区别"]

  const GapPatterns: seq<string> := [
    "技能差距", "差距在哪", "差距分析", "技能缺口", "差几个",
    "帮我分析", "分析一下", "分析我的", "我的差距", "目前的差距",
    "需要补充", "还需要学", "还差什么", "还缺什么", "还缺哪些"]

  const DirectSearchTriggers: seq<string> := [
    "帮我找", "帮找", "找找", "搜索", "搜一下", "查找", "查询", "有哪些", "有什么", "找一下", "找下"]

  const RecommendTriggers: seq<string> := ["推荐", "适合我", "合适的岗位", "适合的职位"]

  const JobWords: seq<string> := [
    "职位", "岗位", "工作", "工程师", "开发", "程序员",
    "架构师", "运维", "测试", "产品经理", "数据",
    "全栈", "前端", "后端", "算法", "架构", "devops"]

  const SemanticSignals: seq<string> := ["类似", "相关", "提到", "JD", "jd", "描述", "说明", "涉及", "包含", "有关"]

  const IKnowPhrases: seq<string> := ["我会", "我懂", "我熟悉", "我学过", "我掌握"]

  const NotSearch: seq<string> := [
    "怎么", "如何", "为什么", "什么是", "介绍", "解释", "区别",
    "需要哪些", "需要什么", "哪些技能", "什么技能", "需要掌握",
    "怎么学", "如何学", "学什么", "前景", "薪资"]

  const PlanningKeywords: seq<string> := [
    "学习计划", "学习路径", "学习路线", "提升计划", "技能提升计划",
    "如何提升", "怎么提升", "怎么学习", "如何学习", "学习建议",
    "求职建议", "职业规划", "职业发展", "成长路径", "发展方向",
    "帮我制定", "制定计划", "制定方案", "制定路线", "给我建议",
    "推荐资源", "学习资料", "学习顺序", "预计时间", "重点结合",
    "我还缺少", "我还缺",
    "简历优化", "简历分析", "简历建议", "简历改进", "优化建议",
    "面试技巧", "面试准备", "如何准备", "面试经验"]

  const ChatFollowupWords: seq<string> := [
    "这些", "这个", "那些", "那个", "它们", "他们", "上面", "前面",
    "刚才", "之前", "这份", "哪个", "哪些", "哪家", "比较", "对比",
    "更好", "更适合", "最好", "最适合", "有没有更", "还有吗"]

  const AnalysisWords: seq<string> := ["适合", "合适", "匹配", "适不适", "好不好", "怎么样", "如何", "评价"]

  const TechKeywords: seq<string> := [
    "岗位", "职位", "招聘", "工作", "技能", "薪资", "薪酬", "工资",
    "推荐", "搜索", "分析", "差距", "图谱", "学习", "路径", "转",
    "python", "java", "go", "vue", "react", "node", "docker",
    "k8s", "ai", "ml", "算法", "前端", "后端", "全栈", "运维"]

  datatype Action = NoAction | Search | Recommend

  datatype Detected = Detected(action: Action, query: string, city: string)

  const Nothing: Detected := Detected(NoAction, "", "")

  /** An iteration order of the city set: each city exactly once. */
  predicate CityOrder(order: seq<string>)
  {
    (forall c :: c in order ==> c in Cities) && (forall c :: c in Cities ==> c in order)
    && (forall i, j :: 0 <= i < j < |order| ==> order[i] != order[j])
  }

  /** The first name of `order` occurring in `text`, if any. */
  function FirstCity(order: seq<string>, text: string): (c: Option<string>)
    ensures c.Some? ==> c.value in order && Contains(text, c.value)
    ensures c.None? <==> forall d :: d in order ==> !Contains(text, d)
  {
    if order == [] then None
    else if Contains(text, order[0]) then Some(order[0])
    else FirstCity(order[1..], text)
  }

  /** `next((c for c in _CITIES if c in text), "")` */
  function CityOf(order: seq<string>, text: string): string
  {
    match FirstCity(order, text)
    case None => ""
    case Some(c) => c
  }

  /** No city is the empty string, so "" means no city was found. */
  lemma NoEmptyCity()
    ensures "" !in Cities
  {
  }

  /** The city found is "" exactly when no city occurs, and otherwise one that occurs. */
  lemma CityOfSpec(order: seq<string>, text: string)
    requires CityOrder(order)
    ensures CityOf(order, text) == "" <==> forall c :: c in Cities ==> !Contains(text, c)
    ensures CityOf(order, text) != "" ==> CityOf(order, text) in Cities && Contains(text, CityOf(order, text))
  {
    NoEmptyCity();
  }

  /** With at most one city in the text, the iteration order does not matter. */
  lemma CityOfOrderFree(s: string, o1: seq<string>, o2: seq<string>)
    requires CityOrder(o1) && CityOrder(o2)
    requires forall c, d :: c in Cities && d in Cities && Contains(s, c) && Contains(s, d) ==> c == d
    ensures CityOf(o1, s) == CityOf(o2, s)
  {
    CityOfSpec(o1, s);
    CityOfSpec(o2, s);
  }

  /** A job word occurs in the text or in its lower-cased form. */
  predicate HasJobWord(stripped: string)
  {
    ContainsAny(stripped, JobWords) || ContainsAny(Lower(stripped), JobWords)
  }

  predicate HasSearchWord(stripped: string)
  {
    ContainsAny(stripped, DirectSearchTriggers) || (IsPrefix("找", stripped) && |stripped| >= 4)
  }

  predicate HasSemanticSignal(stripped: string)
  {
    ContainsAny(stripped, SemanticSignals) || ContainsAny(Lower(stripped), SemanticSignals)
  }

  /** The exclusions checked before anything else. */
  predicate Excluded(stripped: string)
  {
    |stripped| > 80 || ContainsAny(stripped, KnowledgePatterns) || ContainsAny(stripped, GapPatterns)
  }

  predicate RecommendIntent(stripped: string)
  {
    ContainsAny(stripped, RecommendTriggers)
    || (ContainsAny(stripped, IKnowPhrases) && (HasJobWord(stripped) || HasSearchWord(stripped)))
  }

  /**
   * `_detect_direct_action`. `order` is the iteration order of the city set,
   * which Python leaves unspecified.
   */
  function DetectDirectAction(text: string, order: seq<string>): (d: Detected)
    ensures d.action == NoAction ==> d == Nothing
    ensures d.action != NoAction ==>
      && !Excluded(Strip(text)) && HasJobWord(Strip(text))
      && d.query == Strip(text) && d.city == CityOf(order, Strip(text))
    ensures d.action == Recommend <==>
      !Excluded(Strip(text)) && HasJobWord(Strip(text)) && RecommendIntent(Strip(text))
    ensures var s := Strip(text);
      d.action == Search <==>
        && !Excluded(s) && HasJobWord(s) && !RecommendIntent(s)
        && (HasSearchWord(s) || HasSemanticSignal(s) || CityOf(order, s) != ""
            || (|s| >= 5 && !ContainsAny(s, NotSearch)))
  {
    var stripped := Strip(text);
    if Excluded(stripped) || !HasJobWord(stripped) then Nothing
    else
      var city := CityOf(order, stripped);
      if RecommendIntent(stripped) then Detected(Recommend, stripped, city)
      else if HasSearchWord(stripped) then Detected(Search, stripped, city)
      else if HasSemanticSignal(stripped) then Detected(Search, stripped, city)
      else if city != "" then Detected(Search, stripped, city)
      else if |stripped| >= 5 && !ContainsAny(stripped, NotSearch) then Detected(Search, stripped, city)
      else Nothing
  }

  /** The order only enters through the city it finds. */
  lemma DetectSameCity(text: string, o1: seq<string>, o2: seq<string>)
    requires CityOf(o1, Strip(text)) == CityOf(o2, Strip(text))
    ensures DetectDirectAction(text, o1) == DetectDirectAction(text, o2)
  {
  }

  /** The detected action does not depend on the iteration order, when at most one city occurs. */
  lemma DetectCityOrderFree(text: string, o1: seq<string>, o2: seq<string>)
    requires CityOrder(o1) && CityOrder(o2)
    requires forall c, d :: c in Cities && d in Cities && Contains(Strip(text), c) && Contains(Strip(text), d) ==> c == d
    ensures DetectDirectAction(text, o1) == DetectDirectAction(text, o2)
  {
    CityOfOrderFree(Strip(text), o1, o2);
    DetectSameCity(text, o1, o2);
  }

  /** A knowledge question about a job family is left to the language model. */
  lemma KnowledgeQuestionNotDirect(order: seq<string>)
    ensures DetectDirectAction("Python后端需要哪些技能", order) == Nothing
  {
    KnowledgeQuestionExcluded("Python后端需要哪些技能");
  }

  lemma KnowledgeQuestionExcluded(q: string)
    requires q == "Python后端需要哪些技能"
    ensures Excluded(Strip(q))
  {
    assert !IsSpace(q[0]) && !IsSpace(q[|q| - 1]);
    StripStripped(q);
    assert q[8..12] == "需要哪些";
    ContainsAtIndex(q, 8, "需要哪些");
    assert KnowledgePatterns[0] == "需要哪些";
    assert ContainsAny(q, KnowledgePatterns);
  }

  /** `_is_planning_query` */
  predicate IsPlanningQuery(text: string)
  {
    ContainsAny(text, PlanningKeywords)
  }

  /** `_is_simple_chat` */
  function IsSimpleChat(text: string): (r: bool)
    ensures r ==> |Strip(text)| <= 40 && !ContainsAny(Lower(Strip(text)), TechKeywords)
    ensures ContainsAny(Strip(text), ChatFollowupWords) || ContainsAny(Strip(text), AnalysisWords) ==> !r
    ensures (&& |Strip(text)| <= 40
             && !ContainsAny(Strip(text), ChatFollowupWords)
             && !ContainsAny(Strip(text), AnalysisWords)
             && !ContainsAny(Lower(Strip(text)), TechKeywords)) ==> r
  {
    var t := Strip(text);
    if |t| > 40 then false
    else if ContainsAny(t, ChatFollowupWords) then false
    else if ContainsAny(t, AnalysisWords) then false
    else !ContainsAny(Lower(t), TechKeywords)
  }

  /** Follow-up mode: a follow-up word, no new-search trigger, and earlier messages. */
  predicate IsFollowUp(input: string, historyLength: nat)
  {
    ContainsAny(input, FollowupWords) && !ContainsAny(input, SearchTrigger) && historyLength > 1
  }

  /** The LangGraph recursion limit: 3 for a follow-up, 8 otherwise. */
  function RecursionLimit(followUp: bool): nat
  {
    if followUp then 3 else 8
  }
}
