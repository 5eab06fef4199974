/**
 * The skill distillation model (src/ml/knowledge_distillation.py): a
 * per-skill classifier trained on a teacher model's skill lists. Modelled
 * are the skill vocabulary and its index, the multi-label vectors, the
 * hand-made features (experience, education, city one-hot, JD text),
 * which classifiers training keeps, and the thresholding in `predict`.
 *
 * The sentence encoder, the gradient-boosting / forest learners and the
 * random train/test split are oracles: the split is given as the label
 * lists of the training rows, and a trained classifier is the function
 * `proba` from skill index and job to a probability.
 */
module Distillation {
  import opened Wrappers
  import opened Text
  import opened Order

  /** The fields of a job dict the model reads; `None` is a missing key or a non-list value. */
  datatype Job = Job(jdText: Option<string>, title: string, skills: Option<seq<string>>,
                     experience: string, education: string, city: string)

  // ------------------------------------------------------------------ vocabulary

  /** Every skill of every list-valued teacher field, in job order. */
  function TeacherSkills(teacher: seq<Option<seq<string>>>): (r: seq<string>)
    ensures forall s :: s in r <==> exists j :: 0 <= j < |teacher| && teacher[j].Some? && s in teacher[j].value
  {
    if teacher == [] then []
    else
      var rest := TeacherSkills(teacher[1..]);
      assert forall j :: 1 <= j < |teacher| ==> teacher[j] == teacher[1..][j - 1];
      (if teacher[0].Some? then teacher[0].value else []) + rest
  }

  /** `_build_skill_vocabulary`'s `skill_list`: the sorted set of all teacher skills. */
  function Vocabulary(teacher: seq<Option<seq<string>>>): (r: seq<string>)
    ensures StrictlySorted(r)
    ensures forall s :: s in r <==> exists j :: 0 <= j < |teacher| && teacher[j].Some? && s in teacher[j].value
  {
    SortedSet(TeacherSkills(teacher))
  }

  /** `{skill: idx for idx, skill in enumerate(skills)}` (a later index wins). */
  function IndexMap(skills: seq<string>): (r: map<string, nat>)
    ensures forall s :: s in r <==> s in skills
    ensures forall s :: s in r ==> r[s] < |skills| && skills[r[s]] == s
  {
    if skills == [] then map[]
    else
      var init := skills[..|skills| - 1];
      var m := IndexMap(init);
      assert forall s :: s in init ==> s in skills;
      assert forall i :: 0 <= i < |init| ==> init[i] == skills[i];
      m[skills[|skills| - 1] := |skills| - 1]
  }

  /** On a duplicate-free list the index map inverts the list. */
  lemma IndexMapInverse(skills: seq<string>)
    requires NoDup(skills)
    ensures forall i :: 0 <= i < |skills| ==> skills[i] in IndexMap(skills) && IndexMap(skills)[skills[i]] == i
  {
    forall i | 0 <= i < |skills| ensures skills[i] in IndexMap(skills) && IndexMap(skills)[skills[i]] == i {
      var m := IndexMap(skills);
      assert skills[i] in skills;
      var k := m[skills[i]];
      assert skills[k] == skills[i];
    }
  }

  /** The multi-label row of `ks` so far: 1.0 at each listed skill `ks` names, else 0.0. */
  ghost predicate Labelled(vs: seq<real>, list: seq<string>, ks: seq<string>)
  {
    |vs| == |list| && forall i :: 0 <= i < |vs| ==> vs[i] == if list[i] in ks then 1.0 else 0.0
  }

  /** A listed skill sets its own index. */
  lemma LabelledHit(vs: seq<real>, list: seq<string>, ks: seq<string>, s: string)
    requires Labelled(vs, list, ks) && NoDup(list) && s in IndexMap(list)
    ensures Labelled(vs[IndexMap(list)[s] := 1.0], list, ks + [s])
  {
    IndexMapInverse(list);
    var idx := IndexMap(list)[s];
    var ws := vs[idx := 1.0];
    forall i | 0 <= i < |ws| ensures ws[i] == if list[i] in ks + [s] then 1.0 else 0.0 {
      if i != idx {
        assert list[i] != s;
      }
    }
  }

  /** A skill outside the list changes nothing. */
  lemma LabelledMiss(vs: seq<real>, list: seq<string>, ks: seq<string>, s: string)
    requires Labelled(vs, list, ks) && s !in IndexMap(list)
    ensures Labelled(vs, list, ks + [s])
  {
    forall i | 0 <= i < |vs| ensures vs[i] == if list[i] in ks + [s] then 1.0 else 0.0 {
      assert list[i] != s;
    }
  }

  // ------------------------------------------------------------------ features

  const Cities: seq<string> := ["北京", "上海", "深圳", "杭州", "广州", "成都"]

  /** `_encode_city`: one entry per known city, 1.0 where the city is that one. */
  function EncodeCity(city: string): (r: seq<real>)
    ensures |r| == |Cities|
  {
    seq(|Cities|, i requires 0 <= i < |Cities| => if city == Cities[i] then 1.0 else 0.0)
  }

  /**
   * The city encoding is one-hot: at most one entry is 1.0, every other
   * entry is 0.0, and there is a 1.0 exactly when the city is a known one.
   */
  lemma EncodeCityOneHot(city: string)
    ensures forall i, j :: 0 <= i < j < |Cities| ==> !(EncodeCity(city)[i] == 1.0 && EncodeCity(city)[j] == 1.0)
    ensures forall i :: 0 <= i < |Cities| ==> EncodeCity(city)[i] in {0.0, 1.0}
    ensures (exists i :: 0 <= i < |Cities| && EncodeCity(city)[i] == 1.0) <==> city in Cities
  {
    if city in Cities {
      var i :| 0 <= i < |Cities| && Cities[i] == city;
      assert EncodeCity(city)[i] == 1.0;
    }
    assert NoDup(Cities) by {
      assert Cities[0] != Cities[1] && Cities[0] != Cities[2] && Cities[0] != Cities[3];
      assert Cities[0] != Cities[4] && Cities[0] != Cities[5];
      assert Cities[1] != Cities[2] && Cities[1] != Cities[3] && Cities[1] != Cities[4] && Cities[1] != Cities[5];
      assert Cities[2] != Cities[3] && Cities[2] != Cities[4] && Cities[2] != Cities[5];
      assert Cities[3] != Cities[4] && Cities[3] != Cities[5] && Cities[4] != Cities[5];
    }
  }

  const EducationKeys: seq<string> := ["不限", "大专", "本科", "硕士", "博士"]
  const EducationValues: seq<real> := [0.0, 0.3, 0.6, 0.8, 1.0]

  /** The first of `keys` that occurs in `s`, if any. */
  function FirstContained(keys: seq<string>, s: string): (r: Option<nat>)
    ensures r.Some? ==> r.value < |keys| && Contains(s, keys[r.value])
    ensures r.Some? ==> forall j :: 0 <= j < r.value ==> !Contains(s, keys[j])
    ensures r.None? ==> forall j :: 0 <= j < |keys| ==> !Contains(s, keys[j])
  {
    if keys == [] then None
    else if Contains(s, keys[0]) then Some(0)
    else
      match FirstContained(keys[1..], s)
      case None => None
      case Some(k) => Some(k + 1)
  }

  /**
   * `_parse_education`: the value of the first level, in the order
   * 不限, 大专, 本科, 硕士, 博士, whose name occurs in the string; 0.0 when
   * none does.
   */
  function ParseEducation(edu: string): (r: real)
    ensures 0.0 <= r <= 1.0
    ensures forall k :: (0 <= k < |EducationKeys| && Contains(edu, EducationKeys[k]) &&
      (forall j :: 0 <= j < k ==> !Contains(edu, EducationKeys[j]))) ==> r == EducationValues[k]
    ensures (forall k :: 0 <= k < |EducationKeys| ==> !Contains(edu, EducationKeys[k])) ==> r == 0.0
  {
    match FirstContained(EducationKeys, edu)
    case None => 0.0
    case Some(k) => EducationValues[k]
  }

  predicate IsDigit(c: char)
  {
    '0' <= c <= '9'
  }

  /** The index of the first digit of `s`, or `|s|` when it has none. */
  function FirstDigit(s: string): (i: nat)
    ensures i <= |s|
    ensures forall k :: 0 <= k < i ==> !IsDigit(s[k])
    ensures i < |s| ==> IsDigit(s[i])
  {
    if s == [] then 0
    else if IsDigit(s[0]) then 0
    else 1 + FirstDigit(s[1..])
  }

  /** The longest all-digit prefix of `s`. */
  function DigitRun(s: string): (r: string)
    ensures IsPrefix(r, s)
    ensures forall k :: 0 <= k < |r| ==> IsDigit(r[k])
    ensures |r| < |s| ==> !IsDigit(s[|r|])
  {
    if s != [] && IsDigit(s[0]) then [s[0]] + DigitRun(s[1..]) else []
  }

  /** The decimal value of a digit string. */
  function DigitsValue(ds: string): nat
  {
    if ds == [] then 0
    else
      var d := ds[|ds| - 1] as int - '0' as int;
      DigitsValue(ds[..|ds| - 1]) * 10 + (if 0 <= d < 10 then d else 0)
  }

  /** `_parse_experience`: the value of the first run of digits, or 0 when there is none. */
  function ParseExperience(exp: string): (r: nat)
    ensures (forall k :: 0 <= k < |exp| ==> !IsDigit(exp[k])) ==> r == 0
  {
    var i := FirstDigit(exp);
    if i == |exp| then 0 else DigitsValue(DigitRun(exp[i..]))
  }

  /**
   * The run `ParseExperience` reads starts at the first digit, is made of
   * digits, is not empty, and stops at the next non-digit or at the end.
   */
  lemma ParseExperienceRun(exp: string)
    requires exists k :: 0 <= k < |exp| && IsDigit(exp[k])
    ensures var i := FirstDigit(exp); var run := DigitRun(exp[i..]);
      && i < |exp| && run != [] && i + |run| <= |exp| && exp[i..i + |run|] == run
      && (forall k :: 0 <= k < i ==> !IsDigit(exp[k]))
      && (i + |run| < |exp| ==> !IsDigit(exp[i + |run|]))
      && ParseExperience(exp) == DigitsValue(run)
  {
    var i := FirstDigit(exp);
    var run := DigitRun(exp[i..]);
    assert exp[i..][..|run|] == run;
    if i + |run| < |exp| {
      assert exp[i..][|run|] == exp[i + |run|];
    }
  }

  const JdTextLimit := 1000
  const JdSkillLimit := 10

  /**
   * `_extract_jd_text`: the stored JD text when the key is present
   * (even if empty), otherwise the title and the first ten skills; at
   * most 1000 characters either way.
   */
  function ExtractJdText(job: Job): (r: string)
    ensures |r| <= JdTextLimit
    ensures job.jdText.Some? ==> IsPrefix(r, job.jdText.value)
    ensures job.jdText.None? && job.title != [] ==> IsPrefix(Take(job.title, JdTextLimit), r)
  {
    match job.jdText
    case Some(t) => Take(t, JdTextLimit)
    case None =>
      var parts := (if job.title != [] then [job.title] else [])
        + (if job.skills.Some? && job.skills.value != [] then [Join(Take(job.skills.value, JdSkillLimit), ", ")] else []);
      JoinTakeTitle(parts, job.title);
      Take(Join(parts, " "), JdTextLimit)
  }

  /** When the title is the first part, the joined text starts with it. */
  lemma JoinTakeTitle(parts: seq<string>, title: string)
    ensures parts != [] && parts[0] == title ==> IsPrefix(Take(title, JdTextLimit), Take(Join(parts, " "), JdTextLimit))
  {
    if parts != [] && parts[0] == title {
      var j := Join(parts, " ");
      assert j[..|title|] == title;
      if |title| <= JdTextLimit {
        assert Take(j, JdTextLimit)[..|title|] == title;
      } else {
        assert Take(j, JdTextLimit) == j[..JdTextLimit] && Take(title, JdTextLimit) == title[..JdTextLimit];
      }
    }
  }

  // ------------------------------------------------------------------ prediction

  /** Skills below this many positive training rows get no classifier. */
  const MinPositives := 5

  /** The skills whose score reaches the threshold, among the first `n` of `skills`, in list order. */
  function Emitted(skills: seq<string>, score: nat -> real, threshold: real, n: nat): (r: seq<string>)
    requires n <= |skills|
    ensures |r| <= n
  {
    if n == 0 then []
    else Emitted(skills, score, threshold, n - 1) + (if score(n - 1) >= threshold then [skills[n - 1]] else [])
  }

  /** A skill is emitted exactly when some index of it scores at least the threshold. */
  lemma {:induction false} EmittedMembers(skills: seq<string>, score: nat -> real, threshold: real, n: nat)
    requires n <= |skills|
    ensures forall s :: s in Emitted(skills, score, threshold, n) <==>
      exists i :: 0 <= i < n && skills[i] == s && score(i) >= threshold
  {
    if n > 0 {
      EmittedMembers(skills, score, threshold, n - 1);
    }
  }

  /** On a sorted duplicate-free vocabulary the emitted skills are sorted and distinct too. */
  lemma {:induction false} EmittedSorted(skills: seq<string>, score: nat -> real, threshold: real, n: nat)
    requires n <= |skills| && StrictlySorted(skills)
    ensures StrictlySorted(Emitted(skills, score, threshold, n))
  {
    if n > 0 {
      var init := Emitted(skills, score, threshold, n - 1);
      EmittedSorted(skills, score, threshold, n - 1);
      EmittedMembers(skills, score, threshold, n - 1);
      if score(n - 1) >= threshold {
        var r := init + [skills[n - 1]];
        forall a, b | 0 <= a < b < |r| ensures LexLe(r[a], r[b]) && r[a] != r[b] {
          if b == |r| - 1 {
            assert r[a] in init;
            var i :| 0 <= i < n - 1 && skills[i] == r[a] && score(i) >= threshold;
          }
        }
      }
    }
  }

  /** The score of skill `i` for one job: the classifier's probability, or 0.0 without a classifier. */
  function ScoreOf(present: seq<bool>, proba: (nat, Job) -> real, job: Job): nat -> real
  {
    (i: nat) => if i < |present| && present[i] then proba(i, job) else 0.0
  }

  /**
   * With a positive threshold a skill is predicted exactly when it has a
   * classifier whose probability reaches the threshold.
   */
  lemma PredictedIff(skills: seq<string>, present: seq<bool>, proba: (nat, Job) -> real, job: Job, threshold: real)
    requires threshold > 0.0 && |present| == |skills|
    ensures forall s :: s in Emitted(skills, ScoreOf(present, proba, job), threshold, |skills|) <==>
      exists i :: 0 <= i < |skills| && skills[i] == s && present[i] && proba(i, job) >= threshold
  {
    EmittedMembers(skills, ScoreOf(present, proba, job), threshold, |skills|);
  }

  /**
   * With a threshold of zero or less every skill without a classifier is
   * predicted for every job, since its score stays 0.0.
   */
  lemma PredictedWithoutClassifier(skills: seq<string>, present: seq<bool>, proba: (nat, Job) -> real,
                                   job: Job, threshold: real, i: nat)
    requires threshold <= 0.0 && i < |present| == |skills| && !present[i]
    ensures skills[i] in Emitted(skills, ScoreOf(present, proba, job), threshold, |skills|)
  {
    EmittedMembers(skills, ScoreOf(present, proba, job), threshold, |skills|);
  }

  /** `SkillDistillationModel`: the vocabulary and which classifiers exist (`None` until trained). */
  class DistillationModel {
    var classifierType: string
    var skillList: seq<string>
    var skillToIdx: map<string, nat>
    var classifier: Option<seq<bool>>

    /** The vocabulary is sorted with its index beside it, and a trained model has one classifier slot per skill. */
    ghost predicate Valid()
      reads this
    {
      && StrictlySorted(skillList)
      && skillToIdx == IndexMap(skillList)
      && (classifier.Some? ==> |classifier.value| == |skillList|)
    }

    constructor (classifierType: string)
      ensures Valid() && classifier.None? && skillList == []
      ensures this.classifierType == classifierType
    {
      this.classifierType := classifierType;
      skillList := [];
      skillToIdx := map[];
      classifier := None;
    }

    /**
     * `train`: build the vocabulary from all jobs' teacher lists, then give
     * each skill a classifier when at least five rows of the training split
     * carry it. An unknown classifier type raises after the vocabulary is
     * built and leaves the classifiers as they were.
     */
    method Train(teacher: seq<Option<seq<string>>>, trainRows: seq<seq<string>>) returns (ok: bool)
      modifies this
      ensures ok <==> classifierType in {"lightgbm", "xgboost", "random_forest"}
      ensures skillList == Vocabulary(teacher) && skillToIdx == IndexMap(skillList)
      ensures classifierType == old(classifierType)
      ensures ok ==> (classifier.Some? && |classifier.value| == |skillList| &&
        forall i :: 0 <= i < |skillList| ==> (classifier.value[i] <==> Positives(trainRows, skillList[i]) >= MinPositives))
      ensures !ok ==> classifier == old(classifier)
      ensures ok ==> Valid()
    {
      skillList := Vocabulary(teacher);
      skillToIdx := IndexMap(skillList);
      if classifierType !in {"lightgbm", "xgboost", "random_forest"} {
        return false;
      }
      var present := KeptClassifiers(skillList, trainRows);
      classifier := Some(present);
      return true;
    }

    /** `_skills_to_multilabel`: 1.0 at the index of every known skill in `skills`, else 0.0. */
    method Multilabel(skills: seq<string>) returns (v: array<real>)
      requires Valid()
      ensures v.Length == |skillList|
      ensures forall i :: 0 <= i < v.Length ==> v[i] == if skillList[i] in skills then 1.0 else 0.0
    {
      assert NoDup(skillList);
      v := new real[|skillList|](_ => 0.0);
      var k := 0;
      while k < |skills|
        invariant 0 <= k <= |skills|
        invariant Labelled(v[..], skillList, skills[..k])
      {
        assert skills[..k + 1] == skills[..k] + [skills[k]];
        if skills[k] in skillToIdx {
          var idx := skillToIdx[skills[k]];
          ghost var before := v[..];
          v[idx] := 1.0;
          assert v[..] == before[idx := 1.0];
          LabelledHit(before, skillList, skills[..k], skills[k]);
        } else {
          LabelledMiss(v[..], skillList, skills[..k], skills[k]);
        }
        k := k + 1;
      }
      assert skills[..k] == skills;
      forall i | 0 <= i < v.Length ensures v[i] == if skillList[i] in skills then 1.0 else 0.0 {
        assert v[..][i] == v[i];
      }
    }

    /**
     * `predict`: fails when untrained; otherwise, per job, the skills of
     * the vocabulary whose score reaches the threshold, in vocabulary
     * order.
     */
    method Predict(jobs: seq<Job>, threshold: real, proba: (nat, Job) -> real)
      returns (r: Outcome<seq<seq<string>>>)
      requires Valid()
      ensures r.Failure? <==> classifier.None?
      ensures r.Success? ==> (|r.value| == |jobs| &&
        forall j :: 0 <= j < |jobs| ==>
          r.value[j] == Emitted(skillList, ScoreOf(classifier.value, proba, jobs[j]), threshold, |skillList|))
    {
      if classifier.None? {
        return Failure;
      }
      var scores := Scores(jobs, skillList, classifier.value, proba);
      var all: seq<seq<string>> := [];
      var j := 0;
      while j < |jobs|
        invariant 0 <= j <= |jobs| && |all| == j
        modifies {}
        invariant forall m :: 0 <= m < j ==>
          all[m] == Emitted(skillList, ScoreOf(classifier.value, proba, jobs[m]), threshold, |skillList|)
      {
        var row := RowSkills(scores, j, skillList, threshold, ScoreOf(classifier.value, proba, jobs[j]));
        all := all + [row];
        j := j + 1;
      }
      return Success(all);
    }
  }

  /** How many training rows carry the skill. */
  function Positives(rows: seq<seq<string>>, skill: string): nat
  {
    Count(rows, (row: seq<string>) => skill in row)
  }

  /** The training loop: a classifier for each skill with enough positive rows, `None` for the rest. */
  method KeptClassifiers(skills: seq<string>, rows: seq<seq<string>>) returns (present: seq<bool>)
    ensures |present| == |skills|
    ensures forall i :: 0 <= i < |skills| ==> (present[i] <==> Positives(rows, skills[i]) >= MinPositives)
  {
    present := [];
    var i := 0;
    while i < |skills|
      invariant 0 <= i <= |skills| && |present| == i
      invariant forall k :: 0 <= k < i ==> (present[k] <==> Positives(rows, skills[k]) >= MinPositives)
    {
      present := present + [Positives(rows, skills[i]) >= MinPositives];
      i := i + 1;
    }
  }

  /** `y_pred`: zeros, then each existing classifier's column of probabilities. */
  method Scores(jobs: seq<Job>, skills: seq<string>, present: seq<bool>, proba: (nat, Job) -> real)
    returns (y: array2<real>)
    requires |present| == |skills|
    ensures y.Length0 == |jobs| && y.Length1 == |skills|
    ensures forall j, i :: 0 <= j < |jobs| && 0 <= i < |skills| ==> y[j, i] == ScoreOf(present, proba, jobs[j])(i)
  {
    y := new real[|jobs|, |skills|]((_, _) => 0.0);
    var i := 0;
    while i < |present|
      invariant 0 <= i <= |present|
      invariant forall j, k :: 0 <= j < |jobs| && 0 <= k < |skills| ==>
        y[j, k] == if k < i then ScoreOf(present, proba, jobs[j])(k) else 0.0
    {
      if present[i] {
        var j := 0;
        while j < |jobs|
          invariant 0 <= j <= |jobs|
          invariant forall m, k :: 0 <= m < |jobs| && 0 <= k < |skills| ==>
            y[m, k] == if k < i || (k == i && m < j) then ScoreOf(present, proba, jobs[m])(k) else 0.0
        {
          y[j, i] := proba(i, jobs[j]);
          j := j + 1;
        }
      }
      i := i + 1;
    }
  }

  /** One row of `y_pred` turned into the skills that reach the threshold. */
  method RowSkills(y: array2<real>, j: nat, skills: seq<string>, threshold: real, score: nat -> real)
    returns (row: seq<string>)
    requires j < y.Length0 && y.Length1 == |skills|
    requires forall i :: 0 <= i < |skills| ==> y[j, i] == score(i)
    ensures row == Emitted(skills, score, threshold, |skills|)
  {
    row := [];
    var i := 0;
    while i < |skills|
      invariant 0 <= i <= |skills|
      invariant row == Emitted(skills, score, threshold, i)
    {
      if y[j, i] >= threshold {
        row := row + [skills[i]];
      }
      i := i + 1;
    }
  }
}
