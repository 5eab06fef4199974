/**
 * The rule-based skill extractor: a name index and an alias index built
 * from the flattened taxonomy, a single-text matcher, the three text
 * matchers (direct substring, segmented words, context patterns) and the
 * per-job merge that keeps one entry per skill name.
 */
module SkillExtractor {
  import opened Wrappers
  import opened Text
  import opened Order
  import opened Dict
  import opened SkillDictionary

  // ------------------------------------------------------------------ index

  /** The key of an entry in the name index. */
  function LowerName(): Skill -> string { (s: Skill) => Lower(s.name) }

  /** The keys of an entry in the alias index. */
  function LowerAliases(): Skill -> seq<string>
  {
    (s: Skill) => seq(|s.aliases|, i requires 0 <= i < |s.aliases| => Lower(s.aliases[i]))
  }

  /** The value stored under each alias. */
  function NameOf(): Skill -> string { (s: Skill) => s.name }

  /** `skill_name_map` and `skill_alias_map`, with the entries they were built from. */
  datatype Index = Index(all: seq<Skill>, names: PyDict<string, Skill>, aliases: PyDict<string, string>)

  /** The two maps are the ones `_build_skill_index` fills from `all`. */
  predicate Built(ix: Index)
  {
    && ix.names == IndexBy(ix.all, LowerName())
    && ix.aliases == FlatIndex(ix.all, LowerAliases(), NameOf())
  }

  /**
   * `_build_skill_index`: lower-cased name to entry, lower-cased alias to
   * standard name; a later entry replaces the value of an existing key.
   */
  method BuildSkillIndex(all: seq<Skill>) returns (ix: Index)
    ensures Built(ix) && ix.all == all
  {
    var names: PyDict<string, Skill> := Empty();
    var aliases: PyDict<string, string> := Empty();
    var i := 0;
    while i < |all|
      invariant 0 <= i <= |all|
      invariant names == IndexBy(all[..i], LowerName())
      invariant aliases == FlatIndex(all[..i], LowerAliases(), NameOf())
    {
      var s := all[i];
      IndexBySnoc(all, i, LowerName());
      FlatIndexSnoc(all, i, LowerAliases(), NameOf());
      names := Put(names, Lower(s.name), s);
      aliases := AddAliases(aliases, s);
      i := i + 1;
    }
    assert all[..|all|] == all;
    ix := Index(all, names, aliases);
  }

  /** The inner loop of `_build_skill_index`: each lower-cased alias of `s` maps to its name. */
  method AddAliases(aliases0: PyDict<string, string>, s: Skill) returns (aliases: PyDict<string, string>)
    ensures aliases == PutAll(aliases0, LowerAliases()(s), s.name)
  {
    var keys := LowerAliases()(s);
    aliases := aliases0;
    var j := 0;
    while j < |s.aliases|
      invariant 0 <= j <= |s.aliases|
      invariant aliases == PutAll(aliases0, keys[..j], s.name)
    {
      PutAllPrefix(aliases0, keys, j, s.name);
      aliases := Put(aliases, Lower(s.aliases[j]), s.name);
      j := j + 1;
    }
    assert keys[..|s.aliases|] == keys;
  }

  /** A name-index value is the LAST entry with that lower-cased name. */
  lemma NameValue(ix: Index, k: string)
    requires Built(ix) && k in ix.names.values
    ensures Lower(ix.names.values[k].name) == k && ix.names.values[k] in ix.all
  {
    IndexByLast(ix.all, LowerName(), k);
  }

  /** An alias-index value is the name of an entry carrying that alias, whose name is then a name-index key. */
  lemma AliasValue(ix: Index, k: string)
    requires Built(ix) && k in ix.aliases.values
    ensures Lower(ix.aliases.values[k]) in ix.names.values
    ensures exists i :: 0 <= i < |ix.all| && k in LowerAliases()(ix.all[i]) && ix.aliases.values[k] == ix.all[i].name
  {
    FlatIndexSpec(ix.all, LowerAliases(), NameOf());
    var i :| 0 <= i < |ix.all| && k in LowerAliases()(ix.all[i]) && ix.aliases.values[k] == NameOf()(ix.all[i]);
    IndexByKeys(ix.all, LowerName(), Lower(ix.all[i].name));
  }

  // --------------------------------------------------------------- matching

  /** The characters that count as part of a word around a short token: `[a-zA-Z0-9+#]`. */
  predicate WordChar(c: char)
  {
    ('a' <= c <= 'z') || ('A' <= c <= 'Z') || ('0' <= c <= '9') || c == '+' || c == '#'
  }

  /** `token` occurs at `i` with no word character right before or after it. */
  predicate BoundedAt(token: string, hay: string, i: int)
  {
    && 0 <= i && i + |token| <= |hay| && hay[i..i + |token|] == token
    && (i == 0 || !WordChar(hay[i - 1]))
    && (i + |token| == |hay| || !WordChar(hay[i + |token|]))
  }

  /** `_is_match` / `_fuzzy_contains`: a token of at most two characters needs word boundaries, a longer one is a plain substring. */
  predicate TokenIn(token: string, hay: string)
  {
    if |token| <= 2 then exists i :: 0 <= i <= |hay| - |token| && BoundedAt(token, hay, i) else Contains(hay, token)
  }

  /** A token match is always a substring match; for short tokens it is one that no word character touches. */
  lemma TokenInContains(token: string, hay: string)
    requires TokenIn(token, hay)
    ensures Contains(hay, token)
  {
    if |token| <= 2 {
      var i :| 0 <= i <= |hay| - |token| && BoundedAt(token, hay, i);
      ContainsAtIndex(hay, i, token);
    }
  }

  /** "go" inside "golang" or "c" inside "c++" is not a match; "go" between Chinese characters is. */
  lemma ShortTokenBoundaries()
    ensures !TokenIn("go", "golang")
    ensures !TokenIn("c", "c++")
    ensures TokenIn("go", "熟悉go开发")
  {
    assert BoundedAt("go", "熟悉go开发", 2);
    forall i | 0 <= i && i + 2 <= 6 ensures !BoundedAt("go", "golang", i) {
      if i == 0 {
        assert WordChar("golang"[2]);
      }
    }
    forall i | 0 <= i && i + 1 <= 3 ensures !BoundedAt("c", "c++", i) {
      if i == 0 {
        assert WordChar("c++"[1]);
      }
    }
  }

  /** Only ASCII letters, digits, + and # block a short match, so "c" still matches in "c端" and in "c/c++". */
  lemma ShortTokenBeforeOtherCharacters()
    ensures TokenIn("c", "c端")
    ensures TokenIn("c", "c/c++")
  {
    assert BoundedAt("c", "c端", 0);
    assert BoundedAt("c", "c/c++", 0);
  }

  /** The fuzzy test of `_match_skill`: either string is a token of the other. */
  predicate FuzzyHit(key: string, t: string)
  {
    TokenIn(key, t) || TokenIn(t, key)
  }

  function FuzzyHitOf(t: string): string -> bool { (key: string) => FuzzyHit(key, t) }

  /** `name_map.get(std.lower())` for the standard name behind an alias key. */
  function ViaAlias(ix: Index, a: string): (r: Option<Skill>)
    requires a in ix.aliases.values
  {
    var std := Lower(ix.aliases.values[a]);
    if std in ix.names.values then Some(ix.names.values[std]) else None
  }

  /**
   * `_match_skill`: exact name, then exact alias, then the first name key
   * in index order that fuzzily matches, then the first such alias key,
   * then nothing.
   */
  function MatchSkill(ix: Index, text: string): (r: Option<Skill>)
    requires Built(ix)
  {
    var t := Strip(Lower(text));
    if t in ix.names.values then Some(ix.names.values[t])
    else if t in ix.aliases.values then ViaAlias(ix, t)
    else
      match Find(ix.names.keys, FuzzyHitOf(t))
      case Some(k) => Some(ix.names.values[k])
      case None =>
        match Find(ix.aliases.keys, FuzzyHitOf(t))
        case Some(a) => ViaAlias(ix, a)
        case None => None
  }

  /** A matched entry is an entry of the taxonomy. */
  lemma MatchSkillInTaxonomy(ix: Index, text: string)
    requires Built(ix)
    ensures MatchSkill(ix, text).Some? ==> MatchSkill(ix, text).value in ix.all && Indexed(ix, MatchSkill(ix, text).value)
  {
    var t := Strip(Lower(text));
    if t in ix.names.values {
      NameValue(ix, t);
    } else if t in ix.aliases.values {
      AliasValue(ix, t);
      NameValue(ix, Lower(ix.aliases.values[t]));
    } else {
      match Find(ix.names.keys, FuzzyHitOf(t))
      case Some(k) =>
        assert k in ix.names.keys;
        NameValue(ix, k);
      case None =>
        match Find(ix.aliases.keys, FuzzyHitOf(t))
        case Some(a) =>
          assert a in ix.aliases.keys;
          AliasValue(ix, a);
          NameValue(ix, Lower(ix.aliases.values[a]));
        case None =>
    }
  }

  /** An exact name wins over everything else: the result is the last entry with that lower-cased name. */
  lemma MatchSkillExactName(ix: Index, text: string, i: nat)
    requires Built(ix) && i < |ix.all| && Lower(ix.all[i].name) == Strip(Lower(text))
    ensures MatchSkill(ix, text).Some?
    ensures exists j :: (0 <= j < |ix.all| && MatchSkill(ix, text).value == ix.all[j]
      && Lower(ix.all[j].name) == Strip(Lower(text))
      && forall l :: j < l < |ix.all| ==> Lower(ix.all[l].name) != Strip(Lower(text)))
  {
    var t := Strip(Lower(text));
    IndexByKeys(ix.all, LowerName(), t);
    IndexByLast(ix.all, LowerName(), t);
  }

  /** Without an exact name, an exact alias gives the entry named by that alias. */
  lemma MatchSkillExactAlias(ix: Index, text: string)
    requires Built(ix)
    requires Strip(Lower(text)) !in ix.names.values && Strip(Lower(text)) in ix.aliases.values
    ensures MatchSkill(ix, text).Some?
    ensures exists i :: (0 <= i < |ix.all| && Strip(Lower(text)) in LowerAliases()(ix.all[i])
      && Lower(MatchSkill(ix, text).value.name) == Lower(ix.all[i].name))
  {
    var t := Strip(Lower(text));
    AliasValue(ix, t);
    NameValue(ix, Lower(ix.aliases.values[t]));
  }

  /** Nothing is matched exactly when no name or alias key equals the text or fuzzily matches it. */
  lemma MatchSkillNone(ix: Index, text: string)
    requires Built(ix)
    ensures var t := Strip(Lower(text));
      MatchSkill(ix, text).None? <==>
        && t !in ix.names.values && t !in ix.aliases.values
        && (forall i :: 0 <= i < |ix.names.keys| ==> !FuzzyHit(ix.names.keys[i], t))
        && (forall i :: 0 <= i < |ix.aliases.keys| ==> !FuzzyHit(ix.aliases.keys[i], t))
  {
    var t := Strip(Lower(text));
    if t in ix.aliases.values {
      AliasValue(ix, t);
    }
    match Find(ix.aliases.keys, FuzzyHitOf(t))
    case Some(a) =>
      assert a in ix.aliases.values by {
        assert a in ix.aliases.keys;
        assert a in Elems(ix.aliases.keys);
      }
      AliasValue(ix, a);
    case None =>
  }

  // ---------------------------------------------------------- text matchers

  /** An entry that the name index holds under its own lower-cased name. */
  predicate Indexed(ix: Index, s: Skill)
  {
    Lower(s.name) in ix.names.values && ix.names.values[Lower(s.name)] == s
  }

  /** A name key that occurs as a token of the lower-cased text. */
  function NameTokenOf(ix: Index, t: string): string -> Option<Skill>
  {
    (k: string) => if k in ix.names.values && TokenIn(k, t) then Some(ix.names.values[k]) else None
  }

  /** An alias key that occurs as a token of the lower-cased text, through its standard name. */
  function AliasTokenOf(ix: Index, t: string): string -> Option<Skill>
  {
    (a: string) => if a in ix.aliases.values && TokenIn(a, t) then ViaAlias(ix, a) else None
  }

  /**
   * `_direct_match`: name keys in index order, then alias keys whose entry
   * is not already listed.
   */
  function DirectMatch(ix: Index, text: string): (r: seq<Skill>)
  {
    var t := Lower(text);
    Dedup(FilterMap(ix.names.keys, NameTokenOf(ix, t)) + FilterMap(ix.aliases.keys, AliasTokenOf(ix, t)))
  }

  /** A name-index value is held under its own lower-cased name. */
  lemma NameValueIndexed(ix: Index, k: string)
    requires Built(ix) && k in ix.names.values
    ensures Indexed(ix, ix.names.values[k])
  {
    NameValue(ix, k);
  }

  /** Direct matches are index entries with distinct names, each found by a name or alias token of the text. */
  lemma DirectMatchSpec(ix: Index, text: string)
    requires Built(ix)
    ensures var r := DirectMatch(ix, text);
      && NoDup(Keys(r, NameOf()))
      && (forall s :: s in r ==> Indexed(ix, s) && s in ix.all)
      && (forall s :: s in r <==>
            (exists i :: 0 <= i < |ix.names.keys| && NameTokenOf(ix, Lower(text))(ix.names.keys[i]) == Some(s))
            || (exists i :: 0 <= i < |ix.aliases.keys| && AliasTokenOf(ix, Lower(text))(ix.aliases.keys[i]) == Some(s)))
  {
    DirectMatchMembers(ix, text);
    DirectMatchIndexed(ix, text);
    IndexedNamesUnique(ix, DirectMatch(ix, text));
  }

  /** A direct match is found by a name token or an alias token, and every such find is a match. */
  lemma DirectMatchMembers(ix: Index, text: string)
    ensures forall s :: s in DirectMatch(ix, text) <==>
      (exists i :: 0 <= i < |ix.names.keys| && NameTokenOf(ix, Lower(text))(ix.names.keys[i]) == Some(s))
      || (exists i :: 0 <= i < |ix.aliases.keys| && AliasTokenOf(ix, Lower(text))(ix.aliases.keys[i]) == Some(s))
  {
    var t := Lower(text);
    FilterMapMembers(ix.names.keys, NameTokenOf(ix, t));
    FilterMapMembers(ix.aliases.keys, AliasTokenOf(ix, t));
  }

  /** Every direct match is an index entry held under its own name. */
  lemma DirectMatchIndexed(ix: Index, text: string)
    requires Built(ix)
    ensures forall s :: s in DirectMatch(ix, text) ==> Indexed(ix, s) && s in ix.all
  {
    var t := Lower(text);
    DirectMatchMembers(ix, text);
    forall s | s in DirectMatch(ix, text) ensures Indexed(ix, s) && s in ix.all {
      if exists i :: 0 <= i < |ix.names.keys| && NameTokenOf(ix, t)(ix.names.keys[i]) == Some(s) {
        var i :| 0 <= i < |ix.names.keys| && NameTokenOf(ix, t)(ix.names.keys[i]) == Some(s);
        NameValue(ix, ix.names.keys[i]);
      } else {
        var i :| 0 <= i < |ix.aliases.keys| && AliasTokenOf(ix, t)(ix.aliases.keys[i]) == Some(s);
        NameValue(ix, Lower(ix.aliases.values[ix.aliases.keys[i]]));
      }
    }
  }

  /** Distinct index entries have distinct names. */
  lemma IndexedNamesUnique(ix: Index, r: seq<Skill>)
    requires NoDup(r) && forall s :: s in r ==> Indexed(ix, s)
    ensures NoDup(Keys(r, NameOf()))
  {
    var ks := Keys(r, NameOf());
    forall i, j | 0 <= i < j < |ks| ensures ks[i] != ks[j] {
      assert r[i] in r && r[j] in r;
      assert Indexed(ix, r[i]) && Indexed(ix, r[j]);
    }
  }

  /** A segmented word that is a name key, or an alias key whose standard name is one. */
  function WordHitOf(ix: Index): string -> Option<Skill>
  {
    (w: string) =>
      var k := Lower(w);
      if k in ix.names.values then Some(ix.names.values[k])
      else if k in ix.aliases.values then ViaAlias(ix, k)
      else None
  }

  /**
   * `_word_based_match` over the words the segmenter cut the text into:
   * one entry per word that is a name or alias, repeats included.
   */
  function WordMatch(ix: Index, words: seq<string>): (r: seq<Skill>)
  {
    FilterMap(words, WordHitOf(ix))
  }

  /** Every word match is an index entry reached from one of the words. */
  lemma WordMatchSpec(ix: Index, words: seq<string>)
    requires Built(ix)
    ensures var r := WordMatch(ix, words);
      && |r| <= |words|
      && (forall s :: s in r ==> Indexed(ix, s) && s in ix.all)
      && (forall s :: s in r <==> exists i :: 0 <= i < |words| && WordHitOf(ix)(words[i]) == Some(s))
  {
    FilterMapMembers(words, WordHitOf(ix));
    forall s | s in WordMatch(ix, words) ensures Indexed(ix, s) && s in ix.all {
      var i :| 0 <= i < |words| && WordHitOf(ix)(words[i]) == Some(s);
      var k := Lower(words[i]);
      if k in ix.names.values {
        NameValue(ix, k);
      } else {
        NameValue(ix, Lower(ix.aliases.values[k]));
      }
    }
  }

  /** The context keywords a pattern match starts from. */
  const ContextKeywords: seq<string> := [
    "熟悉", "精通", "掌握", "了解", "熟练", "使用", "运用",
    "经验", "能力", "技能", "技术", "框架", "工具", "语言",
    "开发", "设计", "实现", "优化", "负责", "参与",
    "要求", "需要", "具备", "擅长", "会", "懂"]

  /** `w` occurs in `t` at index `i`. */
  predicate OccursAt(t: string, i: int, w: string)
  {
    0 <= i && i + |w| <= |t| && t[i..i + |w|] == w
  }

  /**
   * `keyword.*?name` searched ignoring case: the keyword, later the name,
   * and no line break between them.
   */
  predicate PatternHit(text: string, keyword: string, name: string)
  {
    var t := Lower(text);
    exists i, j :: (0 <= i <= |t| && 0 <= j <= |t|
      && OccursAt(t, i, Lower(keyword)) && OccursAt(t, j, Lower(name))
      && i + |keyword| <= j && '\n' !in t[i + |keyword|..j])
  }

  function PatternHitOf(text: string, keyword: string): Skill -> bool
  {
    (s: Skill) => PatternHit(text, keyword, s.name)
  }

  /** The pattern test of each keyword. */
  function PatternTests(text: string): string -> Skill -> bool
  {
    (keyword: string) => PatternHitOf(text, keyword)
  }

  /** The first taxonomy entry whose name follows this keyword. */
  function KeywordHitOf(all: seq<Skill>, text: string): string -> Option<Skill>
  {
    FindOf(all, PatternTests(text))
  }

  /** `_pattern_match`: for each context keyword, the first entry in taxonomy order whose name follows it. */
  function PatternMatch(all: seq<Skill>, text: string): (r: seq<Skill>)
  {
    FilterMap(ContextKeywords, KeywordHitOf(all, text))
  }

  /** At most one entry per keyword, each the first in taxonomy order that the keyword's pattern finds. */
  lemma PatternMatchSpec(all: seq<Skill>, text: string)
    ensures var r := PatternMatch(all, text);
      && |r| <= |ContextKeywords|
      && forall s :: s in r ==> (exists k, i :: (0 <= k < |ContextKeywords| && 0 <= i < |all| && all[i] == s
           && PatternHitOf(text, ContextKeywords[k])(s)
           && forall j :: 0 <= j < i ==> !PatternHitOf(text, ContextKeywords[k])(all[j])))
  {
    FilterMapFind(ContextKeywords, all, PatternTests(text));
  }

  /** "熟悉Python开发" matches Python after 熟悉, ignoring case. */
  lemma PatternExample()
    ensures PatternHit("熟悉Python开发", "熟悉", "Python")
  {
    var t := Lower("熟悉Python开发");
    assert t == "熟悉python开发";
    assert OccursAt(t, 0, Lower("熟悉")) && OccursAt(t, 2, Lower("Python"));
  }

  /** A line break between keyword and name stops the pattern. */
  lemma PatternStopsAtLineBreak()
    ensures !PatternHit("熟悉\nGo", "熟悉", "Go")
  {
    var u := Lower("熟悉\nGo");
    assert u == "熟悉\ngo";
    assert Lower("熟悉") == "熟悉" && Lower("Go") == "go";
    forall i, j | OccursAt(u, i, "熟悉") && OccursAt(u, j, "go") && i + 2 <= j
      ensures '\n' in u[i + 2..j]
    {
      assert u[i..i + 2][0] == u[i] == '熟';
      assert u[j..j + 2][0] == u[j] == 'g';
      assert u[2..3][0] == '\n';
    }
  }

  // ------------------------------------------------------------- extraction

  /** One extracted skill: standard name, where it was found, confidence and the entry. */
  datatype Extracted = Extracted(name: string, source: string, confidence: real, info: Skill)

  function ExtractedName(): Extracted -> string { (e: Extracted) => e.name }

  function MinReal(a: real, b: real): real { if a <= b then a else b }

  /** Matched entries, each recorded under its own name with one source and confidence. */
  function Tag(skills: seq<Skill>, source: string, confidence: real): (r: seq<Extracted>)
    ensures |r| == |skills|
    ensures forall i :: 0 <= i < |r| ==> r[i] == Extracted(skills[i].name, source, confidence, skills[i])
  {
    seq(|skills|, i requires 0 <= i < |skills| => Extracted(skills[i].name, source, confidence, skills[i]))
  }

  /** Tagged entries carry their entry's name, the pass's source and confidence. */
  lemma TagSpec(skills: seq<Skill>, source: string, confidence: real, all: seq<Skill>)
    requires forall s :: s in skills ==> s in all
    ensures forall e :: e in Tag(skills, source, confidence) ==>
      e.name == e.info.name && e.info in all && e.source == source && e.confidence == confidence
  {
  }

  /** The three passes of `_extract_from_text`, tagged with their source and confidence. */
  function DirectPass(ix: Index, text: string, source: string, base: real): seq<Extracted>
  {
    Tag(DirectMatch(ix, text), source, MinReal(base + 0.2, 1.0))
  }

  function WordPass(ix: Index, text: string, segment: string -> seq<string>, source: string, base: real): seq<Extracted>
  {
    Tag(WordMatch(ix, segment(text)), source, base)
  }

  function PatternPass(ix: Index, text: string, source: string, base: real): seq<Extracted>
  {
    Tag(PatternMatch(ix.all, text), source + "_pattern", MinReal(base + 0.1, 1.0))
  }

  /**
   * `_extract_from_text`: direct matches at `min(base + 0.2, 1)`, then word
   * matches at `base`, then pattern matches at `min(base + 0.1, 1)` under
   * `source + "_pattern"`; a name already listed is skipped. `segment` is
   * the word segmenter.
   */
  function ExtractFromText(ix: Index, text: string, segment: string -> seq<string>, source: string, base: real)
    : (r: seq<Extracted>)
  {
    if text == [] then []
    else DedupBy(DirectPass(ix, text, source, base)
      + (WordPass(ix, text, segment, source, base) + PatternPass(ix, text, source, base)), ExtractedName())
  }

  /** An entry recorded under its own taxonomy entry's name, with one of the text's sources and a confidence in [base, 1]. */
  predicate WellTagged(all: seq<Skill>, source: string, base: real, e: Extracted)
  {
    && e.name == e.info.name && e.info in all
    && base <= e.confidence <= 1.0
    && (e.source == source || e.source == source + "_pattern")
  }

  function WellTaggedIn(all: seq<Skill>, source: string, base: real): Extracted -> bool
  {
    (e: Extracted) => WellTagged(all, source, base, e)
  }

  /**
   * Skipping names already listed, after a first pass with unique names:
   * names stay unique, the first pass is kept whole, every later name is
   * present, and a property of every candidate holds of every result.
   */
  lemma {:induction false} MergePasses(d: seq<Extracted>, later: seq<Extracted>, ok: Extracted -> bool)
    requires NoDup(Keys(d, ExtractedName()))
    requires forall e :: e in d + later ==> ok(e)
    ensures var r := DedupBy(d + later, ExtractedName());
      && NoDup(Keys(r, ExtractedName()))
      && (forall e :: e in r ==> ok(e))
      && d <= r
      && forall e :: e in later ==> e.name in Keys(r, ExtractedName())
  {
    var xs := d + later;
    DedupByKeys(xs, ExtractedName());
    DedupByUnique(d, ExtractedName());
    DedupByGrows(d, later, ExtractedName());
    forall e | e in later ensures e.name in Keys(DedupBy(xs, ExtractedName()), ExtractedName()) {
      assert e in xs;
    }
  }

  /** Every pass records taxonomy entries under their own names. */
  lemma PassesWellTagged(ix: Index, text: string, segment: string -> seq<string>, source: string, base: real)
    requires Built(ix) && 0.0 <= base <= 1.0
    ensures var ok := WellTaggedIn(ix.all, source, base);
      forall e :: (e in DirectPass(ix, text, source, base)
        + (WordPass(ix, text, segment, source, base) + PatternPass(ix, text, source, base))) ==> ok(e)
  {
    DirectMatchSpec(ix, text);
    WordMatchSpec(ix, segment(text));
    PatternMatchInTaxonomy(ix.all, text);
    var d := DirectPass(ix, text, source, base);
    var w := WordPass(ix, text, segment, source, base);
    var p := PatternPass(ix, text, source, base);
    PassWellTagged(DirectMatch(ix, text), source, MinReal(base + 0.2, 1.0), ix.all, source, base);
    PassWellTagged(WordMatch(ix, segment(text)), source, base, ix.all, source, base);
    PassWellTagged(PatternMatch(ix.all, text), source + "_pattern", MinReal(base + 0.1, 1.0), ix.all, source, base);
    forall e | e in d + (w + p) ensures WellTaggedIn(ix.all, source, base)(e) {
      assert e in d || e in w || e in p;
    }
  }

  /** One pass over taxonomy entries, at a confidence from `base` to 1, is well tagged. */
  lemma PassWellTagged(skills: seq<Skill>, src: string, confidence: real, all: seq<Skill>, source: string, base: real)
    requires forall s :: s in skills ==> s in all
    requires base <= confidence <= 1.0 && (src == source || src == source + "_pattern")
    ensures forall e :: e in Tag(skills, src, confidence) ==> WellTagged(all, source, base, e)
  {
    TagSpec(skills, src, confidence, all);
  }

  /** The direct pass has unique names. */
  lemma DirectPassUnique(ix: Index, text: string, source: string, base: real)
    requires Built(ix)
    ensures NoDup(Keys(DirectPass(ix, text, source, base), ExtractedName()))
  {
    DirectMatchSpec(ix, text);
    assert Keys(DirectPass(ix, text, source, base), ExtractedName()) == Keys(DirectMatch(ix, text), NameOf());
  }

  /**
   * The extracted names are unique, and each entry is a taxonomy entry
   * under its own name, with a confidence between `base` and 1.
   */
  lemma ExtractFromTextSpec(ix: Index, text: string, segment: string -> seq<string>, source: string, base: real)
    requires Built(ix) && 0.0 <= base <= 1.0
    ensures var r := ExtractFromText(ix, text, segment, source, base);
      && NoDup(Keys(r, ExtractedName()))
      && (forall e :: e in r ==> WellTagged(ix.all, source, base, e))
  {
    if text != [] {
      MergeTextPasses(ix, text, segment, source, base);
    }
  }

  /**
   * The direct matches come first, at their boosted confidence, and every
   * word or pattern match's name is present.
   */
  lemma ExtractFromTextKeeps(ix: Index, text: string, segment: string -> seq<string>, source: string, base: real)
    requires Built(ix) && 0.0 <= base <= 1.0 && text != []
    ensures var r := ExtractFromText(ix, text, segment, source, base);
      && DirectPass(ix, text, source, base) <= r
      && (forall e :: e in WordPass(ix, text, segment, source, base) + PatternPass(ix, text, source, base) ==>
            e.name in Keys(r, ExtractedName()))
  {
    MergeTextPasses(ix, text, segment, source, base);
  }

  /** `MergePasses` for the three passes of one text. */
  lemma MergeTextPasses(ix: Index, text: string, segment: string -> seq<string>, source: string, base: real)
    requires Built(ix) && 0.0 <= base <= 1.0 && text != []
    ensures var d := DirectPass(ix, text, source, base);
      var later := WordPass(ix, text, segment, source, base) + PatternPass(ix, text, source, base);
      var r := ExtractFromText(ix, text, segment, source, base);
      && r == DedupBy(d + later, ExtractedName())
      && NoDup(Keys(r, ExtractedName()))
      && (forall e :: e in r ==> WellTaggedIn(ix.all, source, base)(e))
      && d <= r
      && forall e :: e in later ==> e.name in Keys(r, ExtractedName())
  {
    var d := DirectPass(ix, text, source, base);
    var later := WordPass(ix, text, segment, source, base) + PatternPass(ix, text, source, base);
    PassesWellTagged(ix, text, segment, source, base);
    DirectPassUnique(ix, text, source, base);
    MergePasses(d, later, WellTaggedIn(ix.all, source, base));
  }

  /** Pattern matches are taxonomy entries. */
  lemma PatternMatchInTaxonomy(all: seq<Skill>, text: string)
    ensures forall s :: s in PatternMatch(all, text) ==> s in all
  {
    PatternMatchSpec(all, text);
  }

  // ------------------------------------------------------------ per job

  /** The fields of a job the extractor reads; an empty title or JD text counts as missing. */
  datatype JobText = JobText(skills: seq<string>, title: string, jdText: string)

  /** The dict of extracted skills holds each entry under its own name. */
  predicate ByName(d: PyDict<string, Extracted>)
  {
    Valid(d) && forall k :: k in d.values ==> d.values[k].name == k
  }

  /** Which entry each listed skill text matches. */
  function Matches(ix: Index, texts: seq<string>): (r: seq<Option<Skill>>)
    requires Built(ix)
    ensures |r| == |texts|
    ensures forall i :: 0 <= i < |texts| ==> r[i] == MatchSkill(ix, texts[i])
  {
    seq(|texts|, i requires 0 <= i < |texts| => MatchSkill(ix, texts[i]))
  }

  /** Matches with the same name are the same entry. */
  predicate OnePerName(ms: seq<Option<Skill>>)
  {
    forall i, j :: 0 <= i < |ms| && 0 <= j < |ms| && ms[i].Some? && ms[j].Some? && ms[i].value.name == ms[j].value.name
      ==> ms[i] == ms[j]
  }

  /** `_match_skill` returns index entries, and index entries with one name are one entry. */
  lemma MatchesOnePerName(ix: Index, texts: seq<string>)
    requires Built(ix)
    ensures OnePerName(Matches(ix, texts))
    ensures forall i :: 0 <= i < |texts| && Matches(ix, texts)[i].Some? ==> Matches(ix, texts)[i].value in ix.all
  {
    var ms := Matches(ix, texts);
    forall i | 0 <= i < |texts| ensures ms[i].Some? ==> ms[i].value in ix.all && Indexed(ix, ms[i].value) {
      MatchSkillInTaxonomy(ix, texts[i]);
    }
  }

  /**
   * The explicit phase of `extract_from_job`: each matched skill text
   * whose entry's name is not yet present adds it as "explicit" at
   * confidence 1.
   */
  function ExplicitPhase(ms: seq<Option<Skill>>): (r: PyDict<string, Extracted>)
    ensures ByName(r)
    ensures forall k :: k in r.values ==>
      r.values[k] == Extracted(k, "explicit", 1.0, r.values[k].info) && r.values[k].info.name == k
  {
    if ms == [] then Empty()
    else
      var d := ExplicitPhase(ms[..|ms| - 1]);
      var m := ms[|ms| - 1];
      if m.Some? && m.value.name !in d.values then Put(d, m.value.name, Extracted(m.value.name, "explicit", 1.0, m.value))
      else d
  }

  /** Every stored entry is one of the matches. */
  lemma {:induction false} ExplicitPhaseFrom(ms: seq<Option<Skill>>)
    ensures forall k :: k in ExplicitPhase(ms).values ==> Some(ExplicitPhase(ms).values[k].info) in ms
  {
    if ms != [] {
      var init := ms[..|ms| - 1];
      ExplicitPhaseFrom(init);
      assert forall m :: m in init ==> m in ms;
    }
  }

  /** Every match leaves its entry, as "explicit" at confidence 1. */
  lemma {:induction false} ExplicitPhaseCovers(ms: seq<Option<Skill>>)
    requires OnePerName(ms)
    ensures forall i :: 0 <= i < |ms| && ms[i].Some? ==>
      ms[i].value.name in ExplicitPhase(ms).values
      && ExplicitPhase(ms).values[ms[i].value.name] == Extracted(ms[i].value.name, "explicit", 1.0, ms[i].value)
  {
    if ms != [] {
      var init := ms[..|ms| - 1];
      var last := ms[|ms| - 1];
      var d := ExplicitPhase(init);
      var r := ExplicitPhase(ms);
      assert OnePerName(init) by {
        forall i, j | 0 <= i < |init| && 0 <= j < |init| ensures init[i] == ms[i] && init[j] == ms[j] {
        }
      }
      ExplicitPhaseCovers(init);
      ExplicitPhaseFrom(init);
      forall i | 0 <= i < |ms| && ms[i].Some?
        ensures ms[i].value.name in r.values
          && r.values[ms[i].value.name] == Extracted(ms[i].value.name, "explicit", 1.0, ms[i].value)
      {
        var n := ms[i].value.name;
        if i < |init| {
          assert init[i] == ms[i];
        } else if n in d.values {
          var j :| 0 <= j < |init| && init[j] == Some(d.values[n].info);
          assert ms[j] == init[j];
        }
      }
    }
  }

  /**
   * Adding candidates to the dict of extracted skills: a candidate is
   * stored when its name is new or its confidence is strictly higher
   * than the stored one.
   */
  function Upsert(d: PyDict<string, Extracted>, xs: seq<Extracted>): (r: PyDict<string, Extracted>)
    ensures ByName(d) ==> ByName(r)
  {
    if xs == [] then d
    else
      var m := Upsert(d, xs[..|xs| - 1]);
      var x := xs[|xs| - 1];
      if x.name !in m.values || m.values[x.name].confidence < x.confidence then Put(m, x.name, x) else m
  }

  /** After the upserts the keys are the old keys and the candidates' names. */
  lemma {:induction false} UpsertKeys(d: PyDict<string, Extracted>, xs: seq<Extracted>)
    ensures forall k :: k in Upsert(d, xs).values <==> k in d.values || k in Keys(xs, ExtractedName())
  {
    if xs != [] {
      UpsertKeys(d, xs[..|xs| - 1]);
      KeysStep(xs[..|xs| - 1], xs[|xs| - 1], ExtractedName());
      assert xs == xs[..|xs| - 1] + [xs[|xs| - 1]];
    }
  }

  /** Each stored confidence is at least the old one and at least every candidate's for that name. */
  lemma {:induction false} UpsertMax(d: PyDict<string, Extracted>, xs: seq<Extracted>)
    ensures var r := Upsert(d, xs);
      && (forall k :: k in d.values ==> k in r.values && d.values[k].confidence <= r.values[k].confidence)
      && (forall i :: 0 <= i < |xs| ==> xs[i].name in r.values && xs[i].confidence <= r.values[xs[i].name].confidence)
  {
    if xs != [] {
      var init := xs[..|xs| - 1];
      UpsertMax(d, init);
      forall i | 0 <= i < |xs| - 1 ensures xs[i] == init[i] { }
    }
  }

  /** Each stored entry is the old one or a candidate. */
  lemma {:induction false} UpsertFrom(d: PyDict<string, Extracted>, xs: seq<Extracted>)
    ensures forall k :: k in Upsert(d, xs).values ==>
      (k in d.values && Upsert(d, xs).values[k] == d.values[k]) || Upsert(d, xs).values[k] in xs
  {
    if xs != [] {
      var init := xs[..|xs| - 1];
      UpsertFrom(d, init);
      assert forall e :: e in init ==> e in xs;
    }
  }

  /** An entry at least as confident as every candidate is never replaced: ties keep the earlier entry. */
  lemma {:induction false} UpsertKeepsTop(d: PyDict<string, Extracted>, xs: seq<Extracted>, k: string)
    requires k in d.values
    requires forall i :: 0 <= i < |xs| ==> xs[i].confidence <= d.values[k].confidence
    ensures k in Upsert(d, xs).values && Upsert(d, xs).values[k] == d.values[k]
  {
    if xs != [] {
      UpsertKeepsTop(d, xs[..|xs| - 1], k);
    }
  }

  /** The candidates from the title (base 0.9) and from the JD text (base 0.7). */
  function TitlePass(ix: Index, job: JobText, segment: string -> seq<string>): seq<Extracted>
  {
    ExtractFromText(ix, job.title, segment, "title", 0.9)
  }

  function JdPass(ix: Index, job: JobText, segment: string -> seq<string>): seq<Extracted>
  {
    ExtractFromText(ix, job.jdText, segment, "jd", 0.7)
  }

  /** The dict `extract_from_job` builds: explicit skills, then title candidates, then JD candidates. */
  function JobDict(ix: Index, job: JobText, segment: string -> seq<string>): (r: PyDict<string, Extracted>)
    requires Built(ix)
    ensures ByName(r)
  {
    Upsert(Upsert(ExplicitPhase(Matches(ix, job.skills)), TitlePass(ix, job, segment)), JdPass(ix, job, segment))
  }

  /** `extract_from_job`: the values of that dict, in insertion order. */
  function JobExtraction(ix: Index, job: JobText, segment: string -> seq<string>): (r: seq<Extracted>)
    requires Built(ix)
  {
    ValuesOf(JobDict(ix, job, segment))
  }

  /** Values of a dict keyed by name have unique names. */
  lemma ValuesByName(d: PyDict<string, Extracted>)
    requires ByName(d)
    ensures Keys(ValuesOf(d), ExtractedName()) == d.keys
    ensures forall e :: e in ValuesOf(d) <==> e.name in d.values && d.values[e.name] == e
  {
    forall e | e in ValuesOf(d) ensures e.name in d.values && d.values[e.name] == e {
      var i :| 0 <= i < |d.keys| && ValuesOf(d)[i] == e;
      assert d.keys[i] in Elems(d.keys);
    }
    forall e: Extracted | e.name in d.values && d.values[e.name] == e ensures e in ValuesOf(d) {
      assert e.name in Elems(d.keys);
      var i :| 0 <= i < |d.keys| && d.keys[i] == e.name;
      assert ValuesOf(d)[i] == e;
    }
  }

  /** The skills extracted from one job have unique names. */
  lemma JobExtractionUnique(ix: Index, job: JobText, segment: string -> seq<string>)
    requires Built(ix)
    ensures NoDup(Keys(JobExtraction(ix, job, segment), ExtractedName()))
  {
    ValuesByName(JobDict(ix, job, segment));
  }

  /** Title and JD candidates are taxonomy entries under their own names, with confidence between 0.7 and 1. */
  lemma PassesBounded(ix: Index, job: JobText, segment: string -> seq<string>)
    requires Built(ix)
    ensures forall e :: e in TitlePass(ix, job, segment) ==> WellTagged(ix.all, "title", 0.9, e)
    ensures forall e :: e in JdPass(ix, job, segment) ==> WellTagged(ix.all, "jd", 0.7, e)
  {
    ExtractFromTextSpec(ix, job.title, segment, "title", 0.9);
    ExtractFromTextSpec(ix, job.jdText, segment, "jd", 0.7);
  }

  /** Two rounds of upserts whose candidates never exceed an entry's confidence leave that entry. */
  lemma UpsertTwiceKeepsTop(d: PyDict<string, Extracted>, a: seq<Extracted>, b: seq<Extracted>, k: string)
    requires k in d.values
    requires forall e :: e in a ==> e.confidence <= d.values[k].confidence
    requires forall e :: e in b ==> e.confidence <= d.values[k].confidence
    ensures k in Upsert(Upsert(d, a), b).values && Upsert(Upsert(d, a), b).values[k] == d.values[k]
  {
    assert forall j :: 0 <= j < |a| ==> a[j] in a;
    UpsertKeepsTop(d, a, k);
    assert forall j :: 0 <= j < |b| ==> b[j] in b;
    UpsertKeepsTop(Upsert(d, a), b, k);
  }

  /** After two rounds of upserts each entry is an original one or a candidate of either round. */
  lemma UpsertTwiceFrom(d: PyDict<string, Extracted>, a: seq<Extracted>, b: seq<Extracted>)
    ensures forall k :: k in Upsert(Upsert(d, a), b).values ==>
      var e := Upsert(Upsert(d, a), b).values[k];
      (k in d.values && e == d.values[k]) || e in a || e in b
  {
    UpsertFrom(d, a);
    UpsertFrom(Upsert(d, a), b);
  }

  /** Every explicitly matched skill keeps its explicit entry at confidence 1: ties with title or JD matches keep it. */
  lemma JobExtractionExplicit(ix: Index, job: JobText, segment: string -> seq<string>)
    requires Built(ix)
    ensures forall i :: 0 <= i < |job.skills| && MatchSkill(ix, job.skills[i]).Some? ==>
      var s := MatchSkill(ix, job.skills[i]).value; Extracted(s.name, "explicit", 1.0, s) in JobExtraction(ix, job, segment)
  {
    var ms := Matches(ix, job.skills);
    var title := TitlePass(ix, job, segment);
    var jd := JdPass(ix, job, segment);
    var d0 := ExplicitPhase(ms);
    var d2 := JobDict(ix, job, segment);
    assert d2 == Upsert(Upsert(d0, title), jd);
    MatchesOnePerName(ix, job.skills);
    ExplicitPhaseCovers(ms);
    PassesBounded(ix, job, segment);
    ValuesByName(d2);
    forall i | 0 <= i < |job.skills| && MatchSkill(ix, job.skills[i]).Some?
      ensures var s := MatchSkill(ix, job.skills[i]).value; Extracted(s.name, "explicit", 1.0, s) in ValuesOf(d2)
    {
      var s := ms[i].value;
      UpsertTwiceKeepsTop(d0, title, jd, s.name);
    }
  }

  /**
   * Every extracted skill is a taxonomy entry under its own name with a
   * confidence between 0.7 and 1, and is explicit or a title or JD
   * candidate.
   */
  lemma JobExtractionEntries(ix: Index, job: JobText, segment: string -> seq<string>)
    requires Built(ix)
    ensures forall e :: e in JobExtraction(ix, job, segment) ==>
      && e.name == e.info.name && e.info in ix.all && 0.7 <= e.confidence <= 1.0
      && (e.source == "explicit" || e in TitlePass(ix, job, segment) || e in JdPass(ix, job, segment))
  {
    var ms := Matches(ix, job.skills);
    var title := TitlePass(ix, job, segment);
    var jd := JdPass(ix, job, segment);
    var d0 := ExplicitPhase(ms);
    var d2 := JobDict(ix, job, segment);
    assert d2 == Upsert(Upsert(d0, title), jd);
    MatchesOnePerName(ix, job.skills);
    ExplicitPhaseFrom(ms);
    PassesBounded(ix, job, segment);
    UpsertTwiceFrom(d0, title, jd);
    ValuesByName(d2);
    forall e | e in ValuesOf(d2)
      ensures e.name == e.info.name && e.info in ix.all && 0.7 <= e.confidence <= 1.0
      ensures e.source == "explicit" || e in title || e in jd
    {
      if e !in title && e !in jd {
        assert e == d0.values[e.name];
        var i :| 0 <= i < |ms| && ms[i] == Some(d0.values[e.name].info);
      }
    }
  }

  /** Each title or JD candidate's name is present with at least the candidate's confidence. */
  lemma JobExtractionMax(ix: Index, job: JobText, segment: string -> seq<string>)
    requires Built(ix)
    ensures forall e :: e in TitlePass(ix, job, segment) + JdPass(ix, job, segment) ==>
      exists f: Extracted :: f in JobExtraction(ix, job, segment) && f.name == e.name && e.confidence <= f.confidence
  {
    var title := TitlePass(ix, job, segment);
    var jd := JdPass(ix, job, segment);
    var d0 := ExplicitPhase(Matches(ix, job.skills));
    var d1 := Upsert(d0, title);
    var d2 := JobDict(ix, job, segment);
    UpsertMax(d0, title);
    UpsertMax(d1, jd);
    ValuesByName(d2);
    forall e: Extracted | e in title + jd
      ensures exists f: Extracted :: f in JobExtraction(ix, job, segment) && f.name == e.name && e.confidence <= f.confidence
    {
      assert e in title || e in jd;
      var f := d2.values[e.name];
      assert f in ValuesOf(d2);
    }
  }

  // ---------------------------------------------------------- enrichment

  /** `extract_and_enrich`'s fields: names, details, category counts and the average hot score. */
  datatype Enriched = Enriched(skills: seq<string>, extracted: seq<Extracted>, categories: map<string, nat>, avgHotScore: real)

  function CategoryOfExtracted(): Extracted -> string { (e: Extracted) => e.info.category }

  function ExtractedInCategory(c: string): Extracted -> bool { (e: Extracted) => e.info.category == c }

  /** The hot score of an entry, when it is positive. */
  function PositiveHot(): Extracted -> Option<nat>
  {
    (e: Extracted) => if e.info.hotScore > 0 then Some(e.info.hotScore as nat) else None
  }

  /** The positive hot scores, in order. */
  function HotScores(ex: seq<Extracted>): seq<nat>
  {
    FilterMap(ex, PositiveHot())
  }

  /** `sum(scores) / len(scores) if scores else 0`. */
  function Average(hs: seq<nat>): real
  {
    if hs == [] then 0.0 else (Sum(hs) as real) / (|hs| as real)
  }

  /** What `extract_and_enrich` adds to the job for these extracted skills. */
  function Enrich(ex: seq<Extracted>): Enriched
  {
    Enriched(Keys(ex, ExtractedName()), ex, CountBy(ex, CategoryOfExtracted()), Average(HotScores(ex)))
  }

  /** `n` copies of `x` added up. */
  function Times(n: nat, x: real): real
  {
    if n == 0 then 0.0 else Times(n - 1, x) + x
  }

  /** Repeated addition is multiplication. */
  lemma {:induction false} TimesIsProduct(n: nat, x: real)
    ensures Times(n, x) == (n as real) * x
  {
    if n > 0 {
      TimesIsProduct(n - 1, x);
      assert (n as real) * x == ((n - 1) as real) * x + x;
    }
  }

  /** A sum of values in [lo, hi] lies between n copies of lo and n copies of hi. */
  lemma {:induction false} SumBounds(hs: seq<nat>, lo: nat, hi: nat)
    requires forall i :: 0 <= i < |hs| ==> lo <= hs[i] <= hi
    ensures Times(|hs|, lo as real) <= Sum(hs) as real <= Times(|hs|, hi as real)
  {
    if hs != [] {
      SumBounds(hs[1..], lo, hi);
    }
  }

  /** Dividing bounds by a positive count. */
  lemma DivBounds(a: real, n: nat, lo: real, hi: real)
    requires n > 0 && Times(n, lo) <= a <= Times(n, hi)
    ensures lo <= a / (n as real) <= hi
  {
    TimesIsProduct(n, lo);
    TimesIsProduct(n, hi);
    var q := a / (n as real);
    assert q * (n as real) == a;
    assert lo <= q <= hi;
  }

  /** The average of values in [lo, hi] lies in [lo, hi]. */
  lemma AverageBounds(hs: seq<nat>, lo: nat, hi: nat)
    requires hs != [] && forall i :: 0 <= i < |hs| ==> lo <= hs[i] <= hi
    ensures lo as real <= Average(hs) <= hi as real
  {
    SumBounds(hs, lo, hi);
    DivBounds(Sum(hs) as real, |hs|, lo as real, hi as real);
  }

  /** The average hot score is positive exactly when some extracted skill has a positive score, and then it is at least 1. */
  lemma AverageHotPositive(ex: seq<Extracted>)
    ensures Average(HotScores(ex)) > 0.0 <==> exists i :: 0 <= i < |ex| && ex[i].info.hotScore > 0
    ensures Average(HotScores(ex)) == 0.0 || Average(HotScores(ex)) >= 1.0
  {
    var hs := HotScores(ex);
    FilterMapMembers(ex, PositiveHot());
    if exists i :: 0 <= i < |ex| && ex[i].info.hotScore > 0 {
      var i :| 0 <= i < |ex| && ex[i].info.hotScore > 0;
      assert PositiveHot()(ex[i]).Some?;
      assert hs != [];
    }
    if hs != [] {
      var m := hs[0];
      forall j | 0 <= j < |hs| ensures 1 <= hs[j] <= Sum(hs) {
        assert hs[j] in hs;
        SumMember(hs, j);
      }
      AverageBounds(hs, 1, Sum(hs));
      assert hs[0] in hs;
    }
  }

  /** Every element is at most the sum. */
  lemma {:induction false} SumMember(hs: seq<nat>, j: nat)
    requires j < |hs|
    ensures hs[j] <= Sum(hs)
  {
    if j > 0 {
      SumMember(hs[1..], j - 1);
    }
  }

  /** The average is at most any bound on the hot scores. */
  lemma AverageHotAtMost(ex: seq<Extracted>, bound: nat)
    requires forall i :: 0 <= i < |ex| ==> ex[i].info.hotScore <= bound
    ensures Average(HotScores(ex)) <= bound as real
  {
    var hs := HotScores(ex);
    if hs != [] {
      FilterMapMembers(ex, PositiveHot());
      forall j | 0 <= j < |hs| ensures 0 <= hs[j] <= bound {
        assert hs[j] in hs;
      }
      AverageBounds(hs, 0, bound);
    }
  }

  /** A category is counted exactly when some extracted skill has it, and its count is the number of such skills. */
  lemma EnrichCategories(ex: seq<Extracted>, c: string)
    ensures var cats := Enrich(ex).categories;
      && (c in cats <==> exists i :: 0 <= i < |ex| && ex[i].info.category == c)
      && (c in cats ==> cats[c] == Count(ex, ExtractedInCategory(c)))
  {
    CountBySpec(ex, CategoryOfExtracted(), c, ExtractedInCategory(c));
  }

  // ------------------------------------------------------------ the class

  /** The extractor: the index it builds once, and the per-job operations. */
  class Extractor {
    const index: Index

    /** `__init__`: builds the name and alias index from the flattened taxonomy. */
    constructor(all: seq<Skill>)
      ensures Built(index) && index.all == all
    {
      var ix := BuildSkillIndex(all);
      index := ix;
    }

    /**
     * `extract_from_job`: the explicit skills, then title candidates, then
     * JD candidates, kept in a dict by name.
     */
    method ExtractFromJob(job: JobText, segment: string -> seq<string>) returns (r: seq<Extracted>)
      requires Built(index)
      ensures r == JobExtraction(index, job, segment)
    {
      var d := ExplicitLoop(index, job.skills);
      var title := TitlePass(index, job, segment);
      d := UpsertAll(d, title);
      var jd := JdPass(index, job, segment);
      d := UpsertAll(d, jd);
      r := ValuesOf(d);
    }

    /** `extract_and_enrich`: the extracted skills with their names, category counts and average hot score. */
    method ExtractAndEnrich(job: JobText, segment: string -> seq<string>) returns (e: Enriched)
      requires Built(index)
      ensures e == Enrich(JobExtraction(index, job, segment))
    {
      var ex := ExtractFromJob(job, segment);
      e := EnrichFields(ex);
    }
  }

  /** The loop over the explicit skills: each matched name is added once, with confidence 1. */
  method ExplicitLoop(index: Index, skills: seq<string>) returns (d: PyDict<string, Extracted>)
    requires Built(index)
    ensures d == ExplicitPhase(Matches(index, skills))
  {
    var ms := Matches(index, skills);
    d := Empty();
    var i := 0;
    while i < |skills|
      invariant 0 <= i <= |skills|
      invariant d == ExplicitPhase(ms[..i])
    {
      var m := MatchSkill(index, skills[i]);
      ExplicitPhaseSnoc(ms, i);
      if m.Some? && m.value.name !in d.values {
        d := Put(d, m.value.name, Extracted(m.value.name, "explicit", 1.0, m.value));
      }
      i := i + 1;
    }
    assert ms[..|skills|] == ms;
  }

  /** One more match is added under its name unless that name is already there. */
  lemma ExplicitPhaseSnoc(ms: seq<Option<Skill>>, i: nat)
    requires i < |ms|
    ensures ExplicitPhase(ms[..i + 1]) ==
      if ms[i].Some? && ms[i].value.name !in ExplicitPhase(ms[..i]).values
      then Put(ExplicitPhase(ms[..i]), ms[i].value.name, Extracted(ms[i].value.name, "explicit", 1.0, ms[i].value))
      else ExplicitPhase(ms[..i])
  {
    assert ms[..i + 1][..i] == ms[..i] && ms[..i + 1][i] == ms[i];
  }

  /** The invariant of the enrichment loop: the counts and the hot scores of the first `i` entries. */
  ghost predicate Enriching(ex: seq<Extracted>, i: nat, categories: map<string, nat>, hot: seq<nat>)
    requires i <= |ex|
  {
    categories == CountBy(ex[..i], CategoryOfExtracted()) && hot == HotScores(ex[..i])
  }

  /** Entry `i` adds one to its category's count and, when positive, its hot score. */
  lemma EnrichStep(ex: seq<Extracted>, i: nat, categories: map<string, nat>, hot: seq<nat>)
    requires i < |ex| && Enriching(ex, i, categories, hot)
    ensures var c := ex[i].info.category;
      Enriching(ex, i + 1, categories[c := (if c in categories then categories[c] else 0) + 1],
        if ex[i].info.hotScore > 0 then hot + [ex[i].info.hotScore as nat] else hot)
  {
    assert ex[..i + 1] == ex[..i] + [ex[i]];
    CountByAppend(ex[..i], ex[i], CategoryOfExtracted());
    FilterMapAppend(ex[..i], ex[i], PositiveHot());
  }

  /** The enrichment loop: counts categories and collects positive hot scores, then averages them. */
  method EnrichFields(ex: seq<Extracted>) returns (e: Enriched)
    ensures e == Enrich(ex)
  {
    var categories, hot := ScanExtracted(ex);
    var avg := if |hot| > 0 then (Sum(hot) as real) / (|hot| as real) else 0.0;
    e := Enriched(Keys(ex, ExtractedName()), ex, categories, avg);
  }

  /** The loop itself: each entry's category counted, each positive hot score collected. */
  method ScanExtracted(ex: seq<Extracted>) returns (categories: map<string, nat>, hot: seq<nat>)
    ensures categories == CountBy(ex, CategoryOfExtracted()) && hot == HotScores(ex)
  {
    categories := map[];
    hot := [];
    var i := 0;
    while i < |ex|
      invariant 0 <= i <= |ex|
      invariant Enriching(ex, i, categories, hot)
    {
      EnrichStep(ex, i, categories, hot);
      var c := ex[i].info.category;
      categories := categories[c := (if c in categories then categories[c] else 0) + 1];
      if ex[i].info.hotScore > 0 {
        hot := hot + [ex[i].info.hotScore as nat];
      }
      i := i + 1;
    }
    EnrichDone(ex, categories, hot);
  }

  /** After the last entry, the loop's counts and scores are those of the whole list. */
  lemma EnrichDone(ex: seq<Extracted>, categories: map<string, nat>, hot: seq<nat>)
    requires Enriching(ex, |ex|, categories, hot)
    ensures categories == CountBy(ex, CategoryOfExtracted()) && hot == HotScores(ex)
  {
    assert ex[..|ex|] == ex;
  }

  /** The upsert loop over one list of candidates. */
  method UpsertAll(d0: PyDict<string, Extracted>, xs: seq<Extracted>) returns (d: PyDict<string, Extracted>)
    ensures d == Upsert(d0, xs)
  {
    d := d0;
    var j := 0;
    while j < |xs|
      invariant 0 <= j <= |xs|
      invariant d == Upsert(d0, xs[..j])
    {
      assert xs[..j + 1][..j] == xs[..j];
      var x := xs[j];
      if x.name !in d.values || d.values[x.name].confidence < x.confidence {
        d := Put(d, x.name, x);
      }
      j := j + 1;
    }
    assert xs[..|xs|] == xs;
  }
}
