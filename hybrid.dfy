/**
 * The hybrid extractor: the rule extractor's skills, then skills proposed
 * by a language model that the taxonomy knows, each kept once ignoring
 * case and surrounding whitespace.
 */
module HybridSkills {
  import opened Wrappers
  import opened Text
  import opened Order
  import opened Dict
  import opened SkillDictionary
  import opened SkillExtractor

  /** A skill name compared ignoring case and surrounding whitespace. */
  function Norm(s: string): string
  {
    Strip(Lower(s))
  }

  /** `_skill_exists`: some listed name equals `name` once both are normalised. */
  predicate SkillExists(name: string, names: seq<string>)
  {
    ExistsUnder(NormOf(), name, names)
  }

  /** Some listed name has the same image as `name` under `norm`. */
  predicate ExistsUnder(norm: string -> string, name: string, names: seq<string>)
  {
    exists i :: 0 <= i < |names| && norm(names[i]) == norm(name)
  }

  /** Norm as a value, so that proofs about the merge need not look inside it. */
  function NormOf(): string -> string
  {
    (s: string) => Norm(s)
  }

  /** A name exists in every list that extends one it exists in. */
  lemma SkillExistsGrows(name: string, names: seq<string>, more: seq<string>)
    requires SkillExists(name, names)
    ensures SkillExists(name, names + more)
  {
    var i :| 0 <= i < |names| && NormOf()(names[i]) == NormOf()(name);
    assert 0 <= i < |names + more| && NormOf()((names + more)[i]) == NormOf()(name);
    assert (names + more)[i] == names[i];
  }

  /** The test `_fuzzy_match_skill` applies to a known name `k` for a normalised input `n`. */
  predicate FuzzyKnown(k: string, n: string)
  {
    Norm(k) == n || Contains(Lower(k), n) || Contains(n, Lower(k))
  }

  function FuzzyKnownOf(n: string): string -> bool { (k: string) => FuzzyKnown(k, n) }

  /** `_fuzzy_match_skill`: the first known name that equals, contains or is contained in the input, ignoring case. */
  function FuzzyMatch(known: seq<string>, name: string): (r: Option<string>)
    ensures r.None? <==> forall i :: 0 <= i < |known| ==> !FuzzyKnown(known[i], Norm(name))
    ensures r.Some? ==> exists i :: (0 <= i < |known| && known[i] == r.value && FuzzyKnown(known[i], Norm(name))
      && forall j :: 0 <= j < i ==> !FuzzyKnown(known[j], Norm(name)))
  {
    Find(known, FuzzyKnownOf(Norm(name)))
  }

  /** Every string contains the empty one. */
  lemma ContainsEmpty(s: string)
    ensures Contains(s, [])
  {
  }

  /** An input that is empty after normalising matches the first known name. */
  lemma FuzzyMatchBlank(known: seq<string>, name: string)
    requires known != [] && Norm(name) == []
    ensures FuzzyMatch(known, name) == Some(known[0])
  {
    ContainsEmpty(Lower(known[0]));
    assert FuzzyKnown(known[0], Norm(name));
  }

  /** The list of names and the confidence dict `_merge_skills` returns. */
  datatype Merged = Merged(names: seq<string>, confidence: map<string, real>)

  /** A rule skill's confidence: the one its details carry, 0.9 when it has none. */
  function RuleConfidence(info: map<string, Extracted>, name: string): real
  {
    if name in info then info[name].confidence else 0.9
  }

  /** The first loop of `_merge_skills`: every rule skill, in order, with its confidence. */
  function RulePhase(rule: seq<string>, info: map<string, Extracted>): (r: Merged)
    ensures r.names == rule
    ensures r.confidence.Keys == Elems(rule)
    ensures forall k :: k in r.confidence ==> r.confidence[k] == RuleConfidence(info, k)
  {
    Merged(rule, map k | k in Elems(rule) :: RuleConfidence(info, k))
  }

  /**
   * What one LLM skill adds, with its confidence: nothing when it already
   * exists; itself at 0.75 when it is a known name; otherwise its fuzzy
   * match at 0.7, when there is a non-empty one not yet present.
   */
  function Addition(names: seq<string>, name: string, known: seq<string>): (r: Option<(string, real)>)
    ensures r.Some? ==> r.value.0 in known && !SkillExists(r.value.0, names)
    ensures r.Some? ==> r.value.1 == 0.75 || r.value.1 == 0.7
  {
    if SkillExists(name, names) then None
    else if name in known then Some((name, 0.75))
    else
      var m := FuzzyMatch(known, name);
      if m.Some? && m.value != [] && !SkillExists(m.value, names) then Some((m.value, 0.7))
      else None
  }

  /** One step of the second loop of `_merge_skills`. */
  function LlmStep(acc: Merged, name: string, known: seq<string>): Merged
  {
    match Addition(acc.names, name, known)
    case None => acc
    case Some((a, c)) => Merged(acc.names + [a], acc.confidence[a := c])
  }

  /** The second loop of `_merge_skills`. */
  function LlmPhase(acc: Merged, llm: seq<string>, known: seq<string>): Merged
  {
    if llm == [] then acc else LlmStep(LlmPhase(acc, llm[..|llm| - 1], known), llm[|llm| - 1], known)
  }

  /** `_merge_skills`. */
  function Merge(rule: seq<string>, info: map<string, Extracted>, llm: seq<string>, known: seq<string>): Merged
  {
    LlmPhase(RulePhase(rule, info), llm, known)
  }

  /** A name already listed exists. */
  lemma ListedExists(name: string, names: seq<string>)
    requires name in names
    ensures SkillExists(name, names)
  {
    var i :| 0 <= i < |names| && names[i] == name;
  }

  /**
   * What each LLM step keeps: the names only grow; an added name is known,
   * absent before and distinct, once normalised, from every earlier name;
   * its confidence is 0.75 or 0.7; the confidence keys stay the listed names.
   */
  predicate Extends(norm: string -> string, acc: Merged, r: Merged, known: seq<string>)
  {
    && acc.names <= r.names
    && (forall i :: |acc.names| <= i < |r.names| ==>
          && r.names[i] in known
          && r.names[i] in r.confidence
          && (r.confidence[r.names[i]] == 0.75 || r.confidence[r.names[i]] == 0.7)
          && (forall j :: 0 <= j < i ==> norm(r.names[j]) != norm(r.names[i])))
    && (forall k :: k in acc.confidence ==> k in r.confidence && r.confidence[k] == acc.confidence[k])
    && (acc.confidence.Keys == Elems(acc.names) ==> r.confidence.Keys == Elems(r.names))
  }

  /** Adding a name that does not exist yet extends the merge. */
  lemma AddExtends(norm: string -> string, acc: Merged, a: string, c: real, known: seq<string>)
    requires acc.confidence.Keys == Elems(acc.names)
    requires a in known && !ExistsUnder(norm, a, acc.names) && (c == 0.75 || c == 0.7)
    ensures Extends(norm, acc, Merged(acc.names + [a], acc.confidence[a := c]), known)
  {
    var r := Merged(acc.names + [a], acc.confidence[a := c]);
    forall j | 0 <= j < |acc.names| ensures norm(r.names[j]) != norm(a) {
      assert r.names[j] == acc.names[j];
    }
    assert Elems(r.names) == Elems(acc.names) + {a};
    assert acc.names <= r.names;
    assert |r.names| == |acc.names| + 1 && r.names[|acc.names|] == a;
    assert a in r.confidence && r.confidence[a] == c;
    assert forall k :: k in acc.confidence ==> k != a;
  }

  lemma LlmStepExtends(acc: Merged, name: string, known: seq<string>)
    requires acc.confidence.Keys == Elems(acc.names)
    ensures Extends(NormOf(), acc, LlmStep(acc, name, known), known)
  {
    match Addition(acc.names, name, known)
    case None =>
      assert acc.names <= acc.names;
    case Some((a, c)) =>
      AddExtends(NormOf(), acc, a, c, known);
  }

  /** Extends is transitive. */
  lemma ExtendsTrans(norm: string -> string, a: Merged, b: Merged, c: Merged, known: seq<string>)
    requires Extends(norm, a, b, known) && Extends(norm, b, c, known)
    requires a.confidence.Keys == Elems(a.names)
    ensures Extends(norm, a, c, known)
  {
    forall i | |a.names| <= i < |b.names| && i < |c.names|
      ensures c.names[i] == b.names[i] && b.names[i] in b.confidence
      ensures forall j :: 0 <= j < i ==> c.names[j] == b.names[j]
    {
    }
  }

  /** The LLM loop extends whatever it starts from. */
  lemma {:induction false} LlmPhaseExtends(acc: Merged, llm: seq<string>, known: seq<string>)
    requires acc.confidence.Keys == Elems(acc.names)
    ensures Extends(NormOf(), acc, LlmPhase(acc, llm, known), known)
  {
    if llm == [] {
      assert acc.names <= acc.names;
    } else {
      var mid := LlmPhase(acc, llm[..|llm| - 1], known);
      LlmPhaseExtends(acc, llm[..|llm| - 1], known);
      LlmStepExtends(mid, llm[|llm| - 1], known);
      ExtendsTrans(NormOf(), acc, mid, LlmPhase(acc, llm, known), known);
    }
  }

  /**
   * The merged list starts with the rule skills in their order; every
   * later name is a known skill that differs, ignoring case and
   * whitespace, from every earlier name, at confidence 0.75 or 0.7; the
   * confidence dict covers exactly the merged names.
   */
  lemma MergeSpec(rule: seq<string>, info: map<string, Extracted>, llm: seq<string>, known: seq<string>)
    ensures var r := Merge(rule, info, llm, known);
      && rule <= r.names
      && (forall i :: |rule| <= i < |r.names| ==>
            && r.names[i] in known
            && r.names[i] in r.confidence
            && (r.confidence[r.names[i]] == 0.75 || r.confidence[r.names[i]] == 0.7)
            && (forall j :: 0 <= j < i ==> NormOf()(r.names[j]) != NormOf()(r.names[i])))
      && r.confidence.Keys == Elems(r.names)
  {
    LlmPhaseExtends(RulePhase(rule, info), llm, known);
  }

  /** Each rule skill keeps the confidence its details give it, 0.9 by default. */
  lemma MergeRuleConfidence(rule: seq<string>, info: map<string, Extracted>, llm: seq<string>, known: seq<string>)
    ensures var r := Merge(rule, info, llm, known);
      forall k :: k in rule ==> k in r.confidence && r.confidence[k] == RuleConfidence(info, k)
  {
    LlmPhaseExtends(RulePhase(rule, info), llm, known);
  }

  /**
   * An LLM skill is represented in `names`: it exists there, or it is not
   * a known name and its fuzzy match is missing, empty or exists there.
   */
  predicate Covered(s: string, names: seq<string>, known: seq<string>)
  {
    SkillExists(s, names) || (s !in known
      && (FuzzyMatch(known, s).None? || FuzzyMatch(known, s).value == [] || SkillExists(FuzzyMatch(known, s).value, names)))
  }

  lemma CoveredGrows(s: string, names: seq<string>, more: seq<string>, known: seq<string>)
    requires Covered(s, names, known)
    ensures Covered(s, names + more, known)
  {
    if SkillExists(s, names) {
      SkillExistsGrows(s, names, more);
    } else if FuzzyMatch(known, s).Some? && FuzzyMatch(known, s).value != [] {
      SkillExistsGrows(FuzzyMatch(known, s).value, names, more);
    }
  }

  lemma LlmStepPrefix(acc: Merged, name: string, known: seq<string>)
    ensures acc.names <= LlmStep(acc, name, known).names
  {
  }

  /** After its step, an LLM skill is covered. */
  lemma LlmStepCovers(acc: Merged, name: string, known: seq<string>)
    ensures Covered(name, LlmStep(acc, name, known).names, known)
  {
    var r := LlmStep(acc, name, known);
    if SkillExists(name, acc.names) {
    } else if name in known {
      ListedExists(name, r.names);
    } else {
      var m := FuzzyMatch(known, name);
      if m.Some? && m.value != [] && !SkillExists(m.value, acc.names) {
        ListedExists(m.value, r.names);
      }
    }
  }

  /** Every LLM skill ends up covered by the merged list. */
  lemma {:induction false} MergeCovers(acc: Merged, llm: seq<string>, known: seq<string>)
    ensures forall s :: s in llm ==> Covered(s, LlmPhase(acc, llm, known).names, known)
  {
    if llm != [] {
      var init := llm[..|llm| - 1];
      var last := llm[|llm| - 1];
      var mid := LlmPhase(acc, init, known);
      var r := LlmPhase(acc, llm, known);
      assert r == LlmStep(mid, last, known);
      MergeCovers(acc, init, known);
      LlmStepPrefix(mid, last, known);
      LlmStepCovers(mid, last, known);
      var more := r.names[|mid.names|..];
      assert r.names == mid.names + more;
      forall s | s in llm ensures Covered(s, r.names, known) {
        var k :| 0 <= k < |llm| && llm[k] == s;
        if k < |llm| - 1 {
          assert init[k] == s;
          CoveredGrows(s, mid.names, more, known);
        }
      }
    }
  }

  /** `_merge_skills` as the two loops it is, growing the list and the confidence dict. */
  method MergeSkills(rule: seq<string>, info: map<string, Extracted>, llm: seq<string>, known: seq<string>)
    returns (names: seq<string>, confidence: map<string, real>)
    ensures Merged(names, confidence) == Merge(rule, info, llm, known)
  {
    names, confidence := MergeRules(rule, info);
    names, confidence := MergeLlm(names, confidence, llm, known);
  }

  /** The first loop: every rule skill with its confidence. */
  method MergeRules(rule: seq<string>, info: map<string, Extracted>)
    returns (names: seq<string>, confidence: map<string, real>)
    ensures Merged(names, confidence) == RulePhase(rule, info)
  {
    names := [];
    confidence := map[];
    var i := 0;
    while i < |rule|
      invariant 0 <= i <= |rule|
      invariant names == rule[..i]
      invariant confidence == map k | k in Elems(rule[..i]) :: RuleConfidence(info, k)
    {
      assert rule[..i + 1] == rule[..i] + [rule[i]];
      names := names + [rule[i]];
      confidence := confidence[rule[i] := RuleConfidence(info, rule[i])];
      i := i + 1;
    }
    assert rule[..|rule|] == rule;
  }

  /** The second loop: each LLM skill adds what `Addition` says. */
  method MergeLlm(names0: seq<string>, confidence0: map<string, real>, llm: seq<string>, known: seq<string>)
    returns (names: seq<string>, confidence: map<string, real>)
    ensures Merged(names, confidence) == LlmPhase(Merged(names0, confidence0), llm, known)
  {
    names, confidence := names0, confidence0;
    var j := 0;
    while j < |llm|
      invariant 0 <= j <= |llm|
      invariant Merged(names, confidence) == LlmPhase(Merged(names0, confidence0), llm[..j], known)
    {
      LlmPhaseNext(Merged(names0, confidence0), llm, j, known);
      var name := llm[j];
      if !SkillExists(name, names) {
        if name in known {
          names := names + [name];
          confidence := confidence[name := 0.75];
        } else {
          var m := FuzzyMatch(known, name);
          if m.Some? && m.value != [] && !SkillExists(m.value, names) {
            names := names + [m.value];
            confidence := confidence[m.value := 0.7];
          }
        }
      }
      j := j + 1;
    }
    assert llm[..|llm|] == llm;
  }

  /** The second loop over one more LLM skill takes one more step. */
  lemma LlmPhaseNext(acc: Merged, llm: seq<string>, j: nat, known: seq<string>)
    requires j < |llm|
    ensures LlmPhase(acc, llm[..j + 1], known) == LlmStep(LlmPhase(acc, llm[..j], known), llm[j], known)
  {
    assert llm[..j + 1][..j] == llm[..j];
  }

  // ------------------------------------------------------------ the result

  /** One merged skill's details: the rule entry with the merged confidence, or a bare LLM entry. */
  datatype Detail = RuleDetail(entry: Extracted) | LlmDetail(name: string, confidence: real)

  function DetailName(d: Detail): string
  {
    if d.RuleDetail? then d.entry.name else d.name
  }

  /** The detail for one merged name. */
  function DetailOf(info: map<string, Extracted>, confidence: map<string, real>, name: string): (d: Detail)
    ensures DetailName(d) == name || name in info
  {
    if name in info then
      var e := info[name];
      RuleDetail(Extracted(e.name, e.source, if name in confidence then confidence[name] else 0.9, e.info))
    else LlmDetail(name, if name in confidence then confidence[name] else 0.7)
  }

  function Details(info: map<string, Extracted>, confidence: map<string, real>, names: seq<string>): (r: seq<Detail>)
    ensures |r| == |names|
    ensures forall i :: 0 <= i < |names| ==> r[i] == DetailOf(info, confidence, names[i])
  {
    seq(|names|, i requires 0 <= i < |names| => DetailOf(info, confidence, names[i]))
  }

  /** What `extract` returns, with its statistics. */
  datatype HybridResult = HybridResult(
    ruleSkills: seq<Extracted>, llmSkills: seq<string>, merged: seq<Detail>,
    confidence: map<string, real>, hybrid: bool,
    ruleCount: nat, llmCount: nat, mergedCount: nat, newFromLlm: nat)

  /** Whether `extract` asks the model at all. */
  predicate AsksModel(useLlm: bool, llmAvailable: bool, jdText: string)
  {
    useLlm && llmAvailable && jdText != []
  }

  /**
   * `extract` for a job whose rule extraction gave `rule`: the model
   * (`model`, whose failures yield no skills) sees the JD text only when
   * asked; the names are merged and described.
   */
  function Extract(rule: seq<Extracted>, known: seq<string>, useLlm: bool, llmAvailable: bool, jdText: string,
                   model: string -> seq<string>): HybridResult
  {
    var ruleNames := Keys(rule, ExtractedName());
    var info := IndexBy(rule, ExtractedName()).values;
    var llm := if AsksModel(useLlm, llmAvailable, jdText) then model(jdText) else [];
    var m := Merge(ruleNames, info, llm, known);
    HybridResult(rule, llm, Details(info, m.confidence, m.names), m.confidence,
      useLlm && llmAvailable && llm != [],
      |ruleNames|, |llm|, |m.names|, |Elems(llm) - Elems(ruleNames)|)
  }

  /** The known names: every taxonomy entry's name, in order. */
  function KnownSkills(all: seq<Skill>): seq<string>
  {
    Keys(all, NameOf())
  }

  /**
   * When the model is not asked, the result does not depend on it and is
   * rule-only; the method is "hybrid" exactly when the model was asked
   * and returned something.
   */
  lemma ExtractModelUse(rule: seq<Extracted>, known: seq<string>, useLlm: bool, llmAvailable: bool, jdText: string,
                        model: string -> seq<string>, other: string -> seq<string>)
    ensures !AsksModel(useLlm, llmAvailable, jdText) ==>
      Extract(rule, known, useLlm, llmAvailable, jdText, model) == Extract(rule, known, useLlm, llmAvailable, jdText, other)
      && Extract(rule, known, useLlm, llmAvailable, jdText, model).llmSkills == []
    ensures Extract(rule, known, useLlm, llmAvailable, jdText, model).hybrid <==>
      AsksModel(useLlm, llmAvailable, jdText) && model(jdText) != []
  {
  }

  /**
   * The statistics: the merged count is the number of merged names, at
   * least the rule count and at most rule plus LLM counts; new skills
   * from the model are at most the LLM count.
   */
  lemma ExtractStats(rule: seq<Extracted>, known: seq<string>, useLlm: bool, llmAvailable: bool, jdText: string,
                     model: string -> seq<string>)
    ensures var r := Extract(rule, known, useLlm, llmAvailable, jdText, model);
      && r.mergedCount == |r.merged|
      && r.ruleCount <= r.mergedCount <= r.ruleCount + r.llmCount
      && r.newFromLlm <= r.llmCount
  {
    var ruleNames := Keys(rule, ExtractedName());
    var info := IndexBy(rule, ExtractedName()).values;
    var llm := if AsksModel(useLlm, llmAvailable, jdText) then model(jdText) else [];
    MergeLength(RulePhase(ruleNames, info), llm, known);
    NewCount(llm, ruleNames);
  }

  /** Names in the first set and not the second are at most the list's length. */
  lemma NewCount(llm: seq<string>, rule: seq<string>)
    ensures |Elems(llm) - Elems(rule)| <= |llm|
  {
    ElemsCardinality(llm);
    assert Elems(llm) - Elems(rule) <= Elems(llm);
  }

  /** Every rule skill has details, so a bare LLM detail names a known skill. */
  lemma ExtractDetailsKnown(rule: seq<Extracted>, known: seq<string>, useLlm: bool, llmAvailable: bool, jdText: string,
                            model: string -> seq<string>)
    ensures var r := Extract(rule, known, useLlm, llmAvailable, jdText, model);
      forall i :: 0 <= i < |r.merged| && r.merged[i].LlmDetail? ==> r.merged[i].name in known
  {
    var ruleNames := Keys(rule, ExtractedName());
    var info := IndexBy(rule, ExtractedName()).values;
    var llm := if AsksModel(useLlm, llmAvailable, jdText) then model(jdText) else [];
    var m := Merge(ruleNames, info, llm, known);
    MergeSpec(ruleNames, info, llm, known);
    KeysIndexed(rule, ExtractedName());
    DetailsKnown(ruleNames, info, m, known);
    assert Extract(rule, known, useLlm, llmAvailable, jdText, model).merged == Details(info, m.confidence, m.names);
  }

  /** Every key of the list is a key of its index. */
  lemma KeysIndexed<T, K(!new)>(xs: seq<T>, key: T -> K)
    ensures forall k :: k in Keys(xs, key) ==> k in IndexBy(xs, key).values
  {
    forall k | k in Keys(xs, key) ensures k in IndexBy(xs, key).values {
      IndexByOrder(xs, key);
    }
  }

  lemma DetailsKnown(ruleNames: seq<string>, info: map<string, Extracted>, m: Merged, known: seq<string>)
    requires ruleNames <= m.names
    requires forall i :: |ruleNames| <= i < |m.names| ==> m.names[i] in known
    requires forall k :: k in ruleNames ==> k in info
    ensures var d := Details(info, m.confidence, m.names);
      forall i :: 0 <= i < |d| && d[i].LlmDetail? ==> d[i].name in known
  {
    forall i | 0 <= i < |ruleNames| ensures m.names[i] in info {
      assert m.names[i] == ruleNames[i];
    }
  }

  /** Each LLM skill adds at most one name. */
  lemma {:induction false} MergeLength(acc: Merged, llm: seq<string>, known: seq<string>)
    ensures |acc.names| <= |LlmPhase(acc, llm, known).names| <= |acc.names| + |llm|
  {
    if llm != [] {
      MergeLength(acc, llm[..|llm| - 1], known);
    }
  }

  /** A sequence has at most as many distinct elements as entries. */
  lemma {:induction false} ElemsCardinality<T>(s: seq<T>)
    ensures |Elems(s)| <= |s|
  {
    if s != [] {
      ElemsCardinality(s[..|s| - 1]);
      assert Elems(s) == Elems(s[..|s| - 1]) + {s[|s| - 1]};
    }
  }

  /**
   * The merged list has no duplicates when the rule list has none: every
   * added name differs, even once normalised, from every earlier one.
   */
  lemma MergeNoDup(rule: seq<string>, info: map<string, Extracted>, llm: seq<string>, known: seq<string>)
    requires NoDup(rule)
    ensures NoDup(Merge(rule, info, llm, known).names)
  {
    var r := Merge(rule, info, llm, known);
    MergeSpec(rule, info, llm, known);
    forall i, j | 0 <= i < j < |r.names| ensures r.names[i] != r.names[j] {
      if j < |rule| {
        assert r.names[i] == rule[i] && r.names[j] == rule[j];
      } else {
        assert NormOf()(r.names[i]) != NormOf()(r.names[j]);
      }
    }
  }

  /** `extract` for a job: the rule extractor's result merged with the model's skills for its JD text. */
  function ExtractJob(ix: Index, job: JobText, segment: string -> seq<string>, useLlm: bool, llmAvailable: bool,
                      model: string -> seq<string>): HybridResult
    requires Built(ix)
  {
    Extract(JobExtraction(ix, job, segment), KnownSkills(ix.all), useLlm, llmAvailable, job.jdText, model)
  }

  /** The names a job ends up with: the details' names, which are the merged names. */
  function DetailNames(ds: seq<Detail>): (r: seq<string>)
    ensures |r| == |ds| && forall i :: 0 <= i < |ds| ==> r[i] == DetailName(ds[i])
  {
    seq(|ds|, i requires 0 <= i < |ds| => DetailName(ds[i]))
  }

  /** Details built from an index keyed by name carry the merged names, in order. */
  lemma DetailNamesMerged(info: map<string, Extracted>, confidence: map<string, real>, names: seq<string>)
    requires forall k :: k in info ==> info[k].name == k
    ensures DetailNames(Details(info, confidence, names)) == names
  {
  }

  /** The rule index maps each name to an entry with that name. */
  lemma InfoByName(rule: seq<Extracted>)
    ensures forall k :: k in IndexBy(rule, ExtractedName()).values ==> IndexBy(rule, ExtractedName()).values[k].name == k
  {
    forall k | k in IndexBy(rule, ExtractedName()).values
      ensures IndexBy(rule, ExtractedName()).values[k].name == k
    {
      IndexByLast(rule, ExtractedName(), k);
    }
  }

  /**
   * When the rule names are unique, the detail names are the merged
   * names, without duplicates, starting with the rule names.
   */
  lemma ExtractNames(rule: seq<Extracted>, known: seq<string>, useLlm: bool, llmAvailable: bool, jdText: string,
                     model: string -> seq<string>)
    requires NoDup(Keys(rule, ExtractedName()))
    ensures var r := Extract(rule, known, useLlm, llmAvailable, jdText, model);
      && NoDup(DetailNames(r.merged))
      && Keys(rule, ExtractedName()) <= DetailNames(r.merged)
  {
    var ruleNames := Keys(rule, ExtractedName());
    var info := IndexBy(rule, ExtractedName()).values;
    var llm := if AsksModel(useLlm, llmAvailable, jdText) then model(jdText) else [];
    var m := Merge(ruleNames, info, llm, known);
    MergeNoDup(ruleNames, info, llm, known);
    MergeSpec(ruleNames, info, llm, known);
    InfoByName(rule);
    assert forall k :: k in info ==> info[k].name == k;
    DetailNamesMerged(info, m.confidence, m.names);
  }

  /** For a job, whose rule names are unique, the same holds. */
  lemma ExtractJobNames(ix: Index, job: JobText, segment: string -> seq<string>, useLlm: bool, llmAvailable: bool,
                        model: string -> seq<string>)
    requires Built(ix)
    ensures var r := ExtractJob(ix, job, segment, useLlm, llmAvailable, model);
      && NoDup(DetailNames(r.merged))
      && Keys(r.ruleSkills, ExtractedName()) <= DetailNames(r.merged)
  {
    JobExtractionUnique(ix, job, segment);
    ExtractNames(JobExtraction(ix, job, segment), KnownSkills(ix.all), useLlm, llmAvailable, job.jdText, model);
  }

  /**
   * The merge step of batch mode for job `i`: the model's skills for that
   * job, none when the batch returned fewer lists; when merging raises,
   * the rule skills alone at 0.9.
   */
  function BatchMerge(ruleNames: seq<string>, info: map<string, Extracted>, all: seq<seq<string>>, i: nat,
                      known: seq<string>, mergeRaises: bool): (r: Merged)
  {
    var llm := if i < |all| then all[i] else [];
    if mergeRaises then Merged(ruleNames, map k | k in Elems(ruleNames) :: 0.9)
    else Merge(ruleNames, info, llm, known)
  }

  /** The fallback keeps exactly the rule skills, each at 0.9; otherwise the merge sees job i's list or none. */
  lemma BatchMergeSpec(ruleNames: seq<string>, info: map<string, Extracted>, all: seq<seq<string>>, i: nat,
                       known: seq<string>, mergeRaises: bool)
    ensures var r := BatchMerge(ruleNames, info, all, i, known, mergeRaises);
      && (mergeRaises ==> r.names == ruleNames && forall k :: k in r.confidence <==> k in ruleNames)
      && (mergeRaises ==> forall k :: k in r.confidence ==> r.confidence[k] == 0.9)
      && (!mergeRaises && i >= |all| ==> r == Merged(ruleNames, RulePhase(ruleNames, info).confidence))
      && ruleNames <= r.names
  {
    if !mergeRaises {
      MergeSpec(ruleNames, info, if i < |all| then all[i] else [], known);
    } else {
      assert ruleNames <= ruleNames;
    }
  }
}
