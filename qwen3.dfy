/**
 * The local Qwen client (src/llm/qwen3_local_client.py): the skill-
 * extraction prompt, the filter and dedup stage applied to the model's
 * answer, the batch driver that only sends the JDs worth sending and
 * writes every answer back at its JD's index, the ChatML prompt of
 * `chat`, and the process-wide singleton.
 *
 * The model itself (vLLM) and the JSON / regular-expression decoding of
 * its answer are oracles: `respond` maps a prompt to the decoded answer
 * (`Parsed`), and only what the client does with that answer is modelled.
 */
module Qwen3Client {
  import opened Wrappers
  import opened Text
  import opened Order
  import VectorDb

  // ------------------------------------------------------------------ prompt

  const KnownSkillLimit := 50
  const JdExcerpt := 1800

  /** The reference list used when the caller gives no known skills. */
  const DefaultKnownSkills: string :=
    "Python, Java, JavaScript, MySQL, Redis, Docker, Kubernetes, React, Vue, Django"

  const PromptHead: string := "任务: 从JD中提取技术技能\n\nJD: "
  const PromptMid: string := "\n\n参考: "
  const PromptTail: string :=
    "\n\n要求:\n1. 只提取技术类技能\n2. 输出标准JSON格式\n3. 不要任何额外文字\n\n输出:\n{\"skills\": [\"技能1\", \"技能2\"]}"

  /** The `参考` line: the first 50 known skills, or the default list when there are none. */
  function KnownSkillsText(known: Option<seq<string>>): (r: string)
    ensures (known.None? || known.value == []) ==> r == DefaultKnownSkills
  {
    if known.Some? && known.value != [] then Join(Take(known.value, KnownSkillLimit), ", ")
    else DefaultKnownSkills
  }

  /** Each of the first 50 known skills is named in the reference line. */
  lemma KnownSkillsNamed(known: seq<string>, i: nat)
    requires i < |known| && i < KnownSkillLimit
    ensures Contains(KnownSkillsText(Some(known)), known[i])
  {
    var t := Take(known, KnownSkillLimit);
    assert known[i] == t[i] && t[i] in t;
    VectorDb.JoinContains(t, ", ");
  }

  /** `_build_skill_extraction_prompt`. */
  function ExtractionPrompt(jd: string, known: Option<seq<string>>): (r: string)
    ensures IsPrefix(PromptHead + Take(jd, JdExcerpt) + PromptMid, r)
    ensures |r| <= |PromptHead| + JdExcerpt + |PromptMid| + |KnownSkillsText(known)| + |PromptTail|
  {
    PromptHead + Take(jd, JdExcerpt) + PromptMid + KnownSkillsText(known) + PromptTail
  }

  /** The second and fourth of five concatenated parts occur in the whole. */
  lemma ContainsParts(h: string, x: string, m: string, k: string, t: string)
    ensures Contains(h + x + m + k + t, x) && Contains(h + x + m + k + t, k)
  {
    var w := h + x + m + k + t;
    assert w[|h|..|h| + |x|] == x;
    ContainsAtIndex(w, |h|, x);
    assert w[|h + x + m|..|h + x + m| + |k|] == k;
    ContainsAtIndex(w, |h + x + m|, k);
  }

  /**
   * The prompt carries the JD's first 1800 characters and the reference
   * line; nothing of the JD after its 1800th character matters.
   */
  lemma ExtractionPromptParts(jd: string, jd2: string, known: Option<seq<string>>)
    requires Take(jd, JdExcerpt) == Take(jd2, JdExcerpt)
    ensures Contains(ExtractionPrompt(jd, known), Take(jd, JdExcerpt))
    ensures Contains(ExtractionPrompt(jd, known), KnownSkillsText(known))
    ensures ExtractionPrompt(jd, known) == ExtractionPrompt(jd2, known)
  {
    ContainsParts(PromptHead, Take(jd, JdExcerpt), PromptMid, KnownSkillsText(known), PromptTail);
  }

  // ------------------------------------------------------------------ answers

  /** One element of the decoded `skills` array; only strings are skills. */
  datatype Item = Str(s: string) | NonString

  /**
   * How the model's (stripped) answer decoded: the `{"skills": [...]}`
   * objects found in it, the whole answer read as JSON, the quoted
   * strings found after a JSON decode error, or any other failure.
   */
  datatype Parsed =
    | Matches(lists: seq<seq<Item>>)
    | Direct(items: seq<Item>)
    | Quoted(strings: seq<string>)
    | Broken


  /** Skills are between 2 and 49 characters long. */
  predicate SkillLength(s: string)
  {
    1 < |s| < 50
  }

  /** The JSON path's filter: a non-empty string, stripped, of a skill's length. */
  function JsonSkill(it: Item): Option<string>
  {
    match it
    case NonString => None
    case Str(s) =>
      var t := Strip(s);
      if s != [] && SkillLength(t) then Some(t) else None
  }

  /** The JSON path: filter and strip, then keep first occurrences. */
  function JsonSkills(items: seq<Item>): (r: seq<string>)
    ensures NoDup(r)
  {
    Dedup(FilterMap(items, JsonSkill))
  }

  /**
   * The JSON path keeps exactly the stripped strings of a skill's length,
   * each once; what it returns is already stripped.
   */
  lemma JsonSkillsSpec(items: seq<Item>)
    ensures forall t :: t in JsonSkills(items) <==>
      (exists i :: 0 <= i < |items| && items[i].Str? && Strip(items[i].s) == t && SkillLength(t))
    ensures forall t :: t in JsonSkills(items) ==> Strip(t) == t
  {
    forall t ensures t in JsonSkills(items) <==>
      (exists i :: 0 <= i < |items| && items[i].Str? && Strip(items[i].s) == t && SkillLength(t))
    {
      FilterMapMembers(items, JsonSkill);
    }
    forall t | t in JsonSkills(items) ensures Strip(t) == t {
      FilterMapMembers(items, JsonSkill);
      var i :| 0 <= i < |items| && JsonSkill(items[i]) == Some(t);
      StripStripped(t);
    }
  }

  /** Words the fallback path never reports as skills. */
  const ExcludeWords: set<string> := {
    "skills", "技能", "根据", "职位", "描述", "提取", "技术",
    "能力", "经验", "学历", "年限", "要求", "岗位", "工作",
    "责任", "沟通", "团队", "合作", "本科", "硕士", "年"
  }

  /** `str.isdigit()` over ASCII digits: non-empty and all digits. */
  predicate IsDigits(s: string)
  {
    s != [] && forall i :: 0 <= i < |s| ==> '0' <= s[i] <= '9'
  }

  /** The fallback filter as written: the length is checked before stripping. */
  function FallbackSkillAsWritten(s: string): Option<string>
  {
    if s != [] && SkillLength(s) then
      var t := Strip(s);
      if t !in ExcludeWords && !IsDigits(t) then Some(t) else None
    else None
  }

  /** The fallback path of `_parse_skills_from_response` as written. */
  function FallbackSkillsAsWritten(quoted: seq<string>): (r: seq<string>)
    ensures NoDup(r)
  {
    Dedup(FilterMap(quoted, FallbackSkillAsWritten))
  }

  /**
   * A quoted string of two blanks passes the length check and is then
   * stripped to the empty string, which the fallback path reports as a
   * skill.
   */
  lemma FallbackKeepsBlank()
    ensures FallbackSkillsAsWritten(["  "]) == [[]]
  {
    assert Strip("  ") == [];
    assert FilterMap(["  "], FallbackSkillAsWritten) == [[]];
  }

  /** The fallback filter with the length checked on the stripped string. */
  function FallbackSkill(s: string): Option<string>
  {
    var t := Strip(s);
    if SkillLength(t) && t !in ExcludeWords && !IsDigits(t) then Some(t) else None
  }

  /** The fallback path, checking lengths after stripping as the JSON path does. */
  function FallbackSkills(quoted: seq<string>): (r: seq<string>)
    ensures NoDup(r)
  {
    Dedup(FilterMap(quoted, FallbackSkill))
  }

  /**
   * The fallback path keeps exactly the stripped quoted strings of a
   * skill's length that are neither an excluded word nor a number.
   */
  lemma FallbackSkillsSpec(quoted: seq<string>)
    ensures forall t :: t in FallbackSkills(quoted) <==>
      (exists i :: 0 <= i < |quoted| && Strip(quoted[i]) == t) &&
      SkillLength(t) && t !in ExcludeWords && !IsDigits(t)
    ensures forall t :: t in FallbackSkills(quoted) ==> Strip(t) == t
  {
    forall t ensures (t in FallbackSkills(quoted) <==>
      (exists i :: 0 <= i < |quoted| && Strip(quoted[i]) == t) &&
      SkillLength(t) && t !in ExcludeWords && !IsDigits(t)) && (t in FallbackSkills(quoted) ==> Strip(t) == t)
    {
      FallbackMember(quoted, t);
    }
  }

  lemma FallbackMember(quoted: seq<string>, t: string)
    ensures t in FallbackSkills(quoted) <==>
      (exists i :: 0 <= i < |quoted| && Strip(quoted[i]) == t) &&
      SkillLength(t) && t !in ExcludeWords && !IsDigits(t)
    ensures t in FallbackSkills(quoted) ==> Strip(t) == t
  {
    FilterMapMembers(quoted, FallbackSkill);
    assert t in FallbackSkills(quoted) <==> t in FilterMap(quoted, FallbackSkill);
    if t in FallbackSkills(quoted) {
      FallbackMemberFound(quoted, t);
    }
    if (exists i :: 0 <= i < |quoted| && Strip(quoted[i]) == t) && SkillLength(t) && t !in ExcludeWords && !IsDigits(t) {
      var i :| 0 <= i < |quoted| && Strip(quoted[i]) == t;
      FallbackSkillIs(quoted[i], t);
    }
  }

  lemma FallbackMemberFound(quoted: seq<string>, t: string)
    requires exists i :: 0 <= i < |quoted| && FallbackSkill(quoted[i]) == Some(t)
    ensures (exists i :: 0 <= i < |quoted| && Strip(quoted[i]) == t) && SkillLength(t) && t !in ExcludeWords && !IsDigits(t)
    ensures Strip(t) == t
  {
    var i :| 0 <= i < |quoted| && FallbackSkill(quoted[i]) == Some(t);
    FallbackSkillIs(quoted[i], t);
    StripIdempotent(quoted[i]);
  }

  lemma FallbackSkillIs(s: string, t: string)
    ensures FallbackSkill(s) == Some(t) <==> Strip(s) == t && SkillLength(t) && t !in ExcludeWords && !IsDigits(t)
  {
  }

  /**
   * The fallback path as written keeps exactly the stripped forms of the
   * quoted strings of a skill's length before stripping that are neither
   * an excluded word nor a number; what it returns is stripped and shorter
   * than 50 characters, but may be shorter than two.
   */
  lemma FallbackSkillsAsWrittenSpec(quoted: seq<string>)
    ensures forall t :: t in FallbackSkillsAsWritten(quoted) <==>
      (exists i :: 0 <= i < |quoted| && SkillLength(quoted[i]) && Strip(quoted[i]) == t) &&
      t !in ExcludeWords && !IsDigits(t)
    ensures forall t :: t in FallbackSkillsAsWritten(quoted) ==> Strip(t) == t && |t| < 50
  {
    forall t ensures (t in FallbackSkillsAsWritten(quoted) <==>
      (exists i :: 0 <= i < |quoted| && SkillLength(quoted[i]) && Strip(quoted[i]) == t) &&
      t !in ExcludeWords && !IsDigits(t)) && (t in FallbackSkillsAsWritten(quoted) ==> Strip(t) == t && |t| < 50)
    {
      FallbackAsWrittenMember(quoted, t);
    }
  }

  lemma FallbackAsWrittenMember(quoted: seq<string>, t: string)
    ensures t in FallbackSkillsAsWritten(quoted) <==>
      (exists i :: 0 <= i < |quoted| && SkillLength(quoted[i]) && Strip(quoted[i]) == t) &&
      t !in ExcludeWords && !IsDigits(t)
    ensures t in FallbackSkillsAsWritten(quoted) ==> Strip(t) == t && |t| < 50
  {
    FilterMapMembers(quoted, FallbackSkillAsWritten);
    assert t in FallbackSkillsAsWritten(quoted) <==> t in FilterMap(quoted, FallbackSkillAsWritten);
    if t in FallbackSkillsAsWritten(quoted) {
      FallbackAsWrittenMemberFound(quoted, t);
    }
    if (exists i :: 0 <= i < |quoted| && SkillLength(quoted[i]) && Strip(quoted[i]) == t) && t !in ExcludeWords && !IsDigits(t) {
      var i :| 0 <= i < |quoted| && SkillLength(quoted[i]) && Strip(quoted[i]) == t;
      FallbackSkillAsWrittenIs(quoted[i], t);
    }
  }

  lemma FallbackAsWrittenMemberFound(quoted: seq<string>, t: string)
    requires exists i :: 0 <= i < |quoted| && FallbackSkillAsWritten(quoted[i]) == Some(t)
    ensures (exists i :: 0 <= i < |quoted| && SkillLength(quoted[i]) && Strip(quoted[i]) == t) && t !in ExcludeWords && !IsDigits(t)
    ensures Strip(t) == t && |t| < 50
  {
    var i :| 0 <= i < |quoted| && FallbackSkillAsWritten(quoted[i]) == Some(t);
    FallbackSkillAsWrittenIs(quoted[i], t);
    StripIdempotent(quoted[i]);
  }

  lemma FallbackSkillAsWrittenIs(s: string, t: string)
    ensures FallbackSkillAsWritten(s) == Some(t) <==> SkillLength(s) && Strip(s) == t && t !in ExcludeWords && !IsDigits(t)
    ensures FallbackSkillAsWritten(s) == Some(t) ==> |t| < 50
  {
  }

  /** `_parse_skills_from_response` after decoding, as written; any other failure gives []. */
  function SkillsOf(p: Parsed): (r: seq<string>)
    ensures NoDup(r)
  {
    match p
    case Matches(lists) => JsonSkills(Flatten(lists))
    case Direct(items) => JsonSkills(items)
    case Quoted(strings) => FallbackSkillsAsWritten(strings)
    case Broken => []
  }

  /**
   * Whatever the answer, the reported skills are stripped, distinct and
   * shorter than 50 characters; the JSON paths' are at least two long,
   * and the fallback drops excluded words and numbers.
   */
  lemma SkillsOfClean(p: Parsed)
    ensures forall t :: t in SkillsOf(p) ==> Strip(t) == t && |t| < 50
    ensures !p.Quoted? ==> forall t :: t in SkillsOf(p) ==> SkillLength(t)
    ensures p.Quoted? ==> forall t :: t in SkillsOf(p) ==> t !in ExcludeWords && !IsDigits(t)
  {
    match p
    case Matches(lists) => JsonSkillsSpec(Flatten(lists));
    case Direct(items) => JsonSkillsSpec(items);
    case Quoted(strings) => FallbackSkillsAsWrittenSpec(strings);
    case Broken =>
  }

  /** The parse with the corrected fallback. */
  function SkillsOfCorrected(p: Parsed): (r: seq<string>)
    ensures NoDup(r)
  {
    match p
    case Matches(lists) => JsonSkills(Flatten(lists))
    case Direct(items) => JsonSkills(items)
    case Quoted(strings) => FallbackSkills(strings)
    case Broken => []
  }

  /** With the corrected fallback every reported skill is stripped and 2-49 characters long. */
  lemma SkillsOfCorrectedClean(p: Parsed)
    ensures forall t :: t in SkillsOfCorrected(p) ==> SkillLength(t) && Strip(t) == t
    ensures p.Quoted? ==> forall t :: t in SkillsOfCorrected(p) ==> t !in ExcludeWords && !IsDigits(t)
  {
    match p
    case Matches(lists) => JsonSkillsSpec(Flatten(lists));
    case Direct(items) => JsonSkillsSpec(items);
    case Quoted(strings) => FallbackSkillsSpec(strings);
    case Broken =>
  }

  /** The two parses differ only on the fallback path. */
  lemma SkillsOfAgreeOnJson(p: Parsed)
    requires !p.Quoted?
    ensures SkillsOf(p) == SkillsOfCorrected(p)
  {
  }

  // ------------------------------------------------------------------ extraction

  /** A JD worth a model call: non-empty and longer than 10 characters once stripped. */
  predicate ValidJd(jd: string)
  {
    jd != [] && |Strip(jd)| > 10
  }

  /** `extract_skills_from_jd`: one prompt, one answer, no validity check. */
  function ExtractOne(jd: string, known: Option<seq<string>>, respond: string -> Parsed): (r: seq<string>)
    ensures NoDup(r)
  {
    SkillsOf(respond(ExtractionPrompt(jd, known)))
  }

  /** What `batch_extract_skills` reports for one JD. */
  function Extracted(jd: string, known: Option<seq<string>>, respond: string -> Parsed): (r: seq<string>)
    ensures !ValidJd(jd) ==> r == []
    ensures ValidJd(jd) ==> r == ExtractOne(jd, known, respond)
  {
    if ValidJd(jd) then ExtractOne(jd, known, respond) else []
  }

  /**
   * `batch_extract_skills`: the valid JDs' prompts are answered in
   * batches of `batchSize`, and each answer is written back at the index
   * of the JD it came from; every other entry stays []. The model answers
   * each prompt on its own, so the batch size does not change the result.
   */
  method BatchExtract(jds: seq<string>, known: Option<seq<string>>, batchSize: nat,
                      respond: string -> Parsed) returns (all: seq<seq<string>>)
    requires batchSize > 0
    ensures |all| == |jds|
    ensures forall i :: 0 <= i < |jds| ==> all[i] == Extracted(jds[i], known, respond)
  {
    all := ExtractBy(jds, ValidOf(), PromptOf(known), AnswerOf(respond), batchSize);
  }

  /** The driver over any validity test, prompt builder and answer. */
  method ExtractBy(jds: seq<string>, valid: string -> bool, prompt: string -> string,
                   answer: string -> seq<string>, batchSize: nat) returns (all: seq<seq<string>>)
    requires batchSize > 0
    ensures |all| == |jds|
    ensures forall i :: 0 <= i < |jds| ==> all[i] == if valid(jds[i]) then answer(prompt(jds[i])) else []
  {
    var validIdx, prompts := ValidPrompts(jds, valid, prompt);
    all := seq(|jds|, _ => []);
    if prompts == [] {
      return;
    }
    var extracted := AnswerAll(prompts, batchSize, answer);
    var k := 0;
    while k < |validIdx|
      invariant 0 <= k <= |validIdx|
      invariant |all| == |jds|
      invariant forall m :: 0 <= m < k ==> all[validIdx[m]] == extracted[m]
      invariant forall j :: 0 <= j < |jds| && j !in validIdx[..k] ==> all[j] == []
    {
      assert validIdx[k] in validIdx;
      forall m | k < m < |validIdx| ensures validIdx[m] != validIdx[k] {
        assert validIdx[k] < validIdx[m];
      }
      all := all[validIdx[k] := extracted[k]];
      assert validIdx[..k + 1] == validIdx[..k] + [validIdx[k]];
      k := k + 1;
    }
    assert validIdx[..k] == validIdx;
    forall i | 0 <= i < |jds| && valid(jds[i]) ensures all[i] == answer(prompt(jds[i])) {
      var m :| 0 <= m < |validIdx| && validIdx[m] == i;
      assert all[validIdx[m]] == extracted[m];
    }
  }

  /** The first loop: the indices of the JDs that pass `valid`, in order, and their prompts. */
  method ValidPrompts(jds: seq<string>, valid: string -> bool, prompt: string -> string)
    returns (validIdx: seq<nat>, prompts: seq<string>)
    ensures |validIdx| == |prompts|
    ensures forall m, n :: 0 <= m < n < |validIdx| ==> validIdx[m] < validIdx[n]
    ensures forall m :: 0 <= m < |validIdx| ==> validIdx[m] < |jds| && prompts[m] == prompt(jds[validIdx[m]])
    ensures forall i :: 0 <= i < |jds| ==> (valid(jds[i]) <==> i in validIdx)
  {
    validIdx, prompts := [], [];
    var idx := 0;
    while idx < |jds|
      invariant 0 <= idx <= |jds|
      invariant |validIdx| == |prompts|
      invariant forall m, n :: 0 <= m < n < |validIdx| ==> validIdx[m] < validIdx[n]
      invariant forall m :: 0 <= m < |validIdx| ==> validIdx[m] < idx && prompts[m] == prompt(jds[validIdx[m]])
      invariant forall i :: 0 <= i < idx ==> (valid(jds[i]) <==> i in validIdx)
    {
      if valid(jds[idx]) {
        validIdx := validIdx + [idx];
        prompts := prompts + [prompt(jds[idx])];
      }
      idx := idx + 1;
    }
  }

  /** The batch loop: every prompt's answer, in prompt order, whatever the batch size. */
  method AnswerAll(prompts: seq<string>, batchSize: nat, answer: string -> seq<string>)
    returns (extracted: seq<seq<string>>)
    requires batchSize > 0
    ensures |extracted| == |prompts|
    ensures forall m :: 0 <= m < |prompts| ==> extracted[m] == answer(prompts[m])
  {
    extracted := [];
    var i := 0;
    while i < |prompts|
      invariant 0 <= i && |extracted| == Min(i, |prompts|)
      invariant forall m :: 0 <= m < |extracted| ==> extracted[m] == answer(prompts[m])
      decreases |prompts| - i
    {
      var end := Min(i + batchSize, |prompts|);
      var batch := prompts[i..end];
      var j := 0;
      while j < |batch|
        invariant 0 <= j <= |batch|
        invariant |extracted| == i + j
        invariant forall m :: 0 <= m < |extracted| ==> extracted[m] == answer(prompts[m])
      {
        extracted := extracted + [answer(batch[j])];
        j := j + 1;
      }
      i := i + batchSize;
    }
  }

  function ValidOf(): string -> bool
  {
    jd => ValidJd(jd)
  }

  function PromptOf(known: Option<seq<string>>): string -> string
  {
    jd => ExtractionPrompt(jd, known)
  }

  function AnswerOf(respond: string -> Parsed): string -> seq<string>
  {
    p => SkillsOf(respond(p))
  }

  /** A valid JD gets the same skills from the batch driver as from a single call. */
  lemma BatchAgreesWithSingle(jd: string, known: Option<seq<string>>, respond: string -> Parsed)
    requires ValidJd(jd)
    ensures Extracted(jd, known, respond) == ExtractOne(jd, known, respond)
    ensures forall t :: t in Extracted(jd, known, respond) ==> Strip(t) == t && |t| < 50
  {
    var p := respond(ExtractionPrompt(jd, known));
    var r := SkillsOf(p);
    assert Extracted(jd, known, respond) == r;
    forall t | t in r ensures Strip(t) == t && |t| < 50 {
      SkillsOfClean(p);
    }
  }

  // ------------------------------------------------------------------ chat

  /** One message of `chat`. */
  datatype Message = Message(role: string, content: string)

  const ChatEnd: string := "<|im_start|>assistant\n"

  /** The ChatML block of a system, user or assistant message; other roles have none. */
  function Block(m: Message): (r: Option<string>)
    ensures r.Some? <==> m.role in {"system", "user", "assistant"}
  {
    if m.role in {"system", "user", "assistant"} then
      Some("<|im_start|>" + m.role + "\n" + m.content + "<|im_end|>")
    else None
  }

  /** `_build_chat_prompt`. */
  function ChatPrompt(msgs: seq<Message>): (r: string)
  {
    Join(FilterMap(msgs, Block) + [ChatEnd], "\n")
  }

  /** Joining one more part appends the separator and the part. */
  lemma {:induction false} JoinSnoc(parts: seq<string>, x: string, sep: string)
    ensures Join(parts + [x], sep) == if parts == [] then x else Join(parts, sep) + sep + x
    decreases |parts|
  {
    if |parts| > 1 {
      assert (parts + [x])[1..] == parts[1..] + [x];
      JoinSnoc(parts[1..], x, sep);
    } else if |parts| == 1 {
      assert parts + [x] == [parts[0], x];
    }
  }

  /**
   * The prompt is the blocks of the known-role messages in order, each
   * followed by a newline, then the opening of the assistant's turn.
   */
  lemma {:induction false} ChatPromptShape(msgs: seq<Message>)
    ensures msgs == [] ==> ChatPrompt(msgs) == ChatEnd
    ensures forall k :: 0 <= k < |msgs| && Block(msgs[k]).None? ==>
      ChatPrompt(msgs) == ChatPrompt(msgs[..k] + msgs[k + 1..])
    ensures var n := |ChatPrompt(msgs)|; n >= |ChatEnd| && ChatPrompt(msgs)[n - |ChatEnd|..] == ChatEnd
  {
    var blocks := FilterMap(msgs, Block);
    JoinSnoc(blocks, ChatEnd, "\n");
    forall k | 0 <= k < |msgs| && Block(msgs[k]).None?
      ensures ChatPrompt(msgs) == ChatPrompt(msgs[..k] + msgs[k + 1..])
    {
      FilterMapSkip(msgs, k, Block);
    }
  }

  /** An element that `f` maps to `None` can be dropped before a `FilterMap`. */
  lemma {:induction false} FilterMapSkip<T, U>(xs: seq<T>, k: nat, f: T -> Option<U>)
    requires k < |xs| && f(xs[k]).None?
    ensures FilterMap(xs, f) == FilterMap(xs[..k] + xs[k + 1..], f)
    decreases |xs|
  {
    var last := |xs| - 1;
    if k == last {
      assert xs[..k] + xs[k + 1..] == xs[..last];
    } else {
      var init, x := xs[..last], xs[last];
      var ys := init[..k] + init[k + 1..];
      assert xs[..k] + xs[k + 1..] == ys + [x];
      assert xs == init + [x];
      calc {
        FilterMap(xs, f);
      == { FilterMapAppend(init, x, f); }
        if f(x).Some? then FilterMap(init, f) + [f(x).value] else FilterMap(init, f);
      == { FilterMapSkip(init, k, f); }
        if f(x).Some? then FilterMap(ys, f) + [f(x).value] else FilterMap(ys, f);
      == { FilterMapAppend(ys, x, f); }
        FilterMap(ys + [x], f);
      }
    }
  }

  /** Appending a system, user or assistant message adds its block just before the assistant opening. */
  lemma ChatPromptAppend(msgs: seq<Message>, m: Message)
    requires Block(m).Some?
    ensures var blocks := FilterMap(msgs, Block);
      ChatPrompt(msgs + [m]) == Join(blocks + [Block(m).value, ChatEnd], "\n")
  {
    FilterMapAppend(msgs, m, Block);
    assert FilterMap(msgs, Block) + [Block(m).value] + [ChatEnd]
        == FilterMap(msgs, Block) + [Block(m).value, ChatEnd];
  }

  // ------------------------------------------------------------------ singleton

  /** A loaded client: only the arguments it was built with are modelled. */
  class Client {
    const modelName: string
    const maxModelLen: int

    constructor (modelName: string, maxModelLen: int)
      ensures this.modelName == modelName && this.maxModelLen == maxModelLen
    {
      this.modelName := modelName;
      this.maxModelLen := maxModelLen;
    }
  }

  /** The module global `_singleton_instance`. */
  class Process {
    var singleton: Client?

    constructor ()
      ensures singleton == null
    {
      singleton := null;
    }

    /**
     * `get_qwen3_client`: the first call builds the client from its
     * arguments; every later call returns that same client and ignores
     * its own arguments.
     */
    method GetClient(modelName: string, maxModelLen: int) returns (c: Client)
      modifies this
      ensures old(singleton) == null ==> fresh(c) && c.modelName == modelName && c.maxModelLen == maxModelLen
      ensures old(singleton) != null ==> c == old(singleton)
      ensures singleton == c
    {
      if singleton == null {
        singleton := new Client(modelName, maxModelLen);
      }
      c := singleton;
    }
  }

  /** Two calls in one process share the client the first one built. */
  method GetClientTwice(p: Process, name1: string, len1: int, name2: string, len2: int)
    returns (a: Client, b: Client)
    modifies p
    ensures a == b && a.modelName == (if old(p.singleton) == null then name1 else old(p.singleton).modelName)
  {
    a := p.GetClient(name1, len1);
    b := p.GetClient(name2, len2);
  }
}
