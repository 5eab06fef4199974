/**
 * The batch cleaning script (scripts/data_cleaner.py): it cleans each
 * selected city file unless its cleaned output already exists, classifies
 * each city's outcome as processed, skipped or failed, and merges the
 * processed cities into the saved cleaning summary. The cleaner itself,
 * the existing output files, their removal under `--force` and the saved
 * summary are oracles.
 */
module CleaningScript {
  import opened Wrappers
  import opened Order
  import opened Assoc
  import DataCleaner

  // ------------------------------------------------------------------ configuration

  /** The cleaner's configuration as the script sees it, with the `strip_raw` key beside the cleaning rules. */
  datatype Settings = Settings(config: DataCleaner.Config, stripRaw: bool)

  const DefaultSettings := Settings(DataCleaner.DefaultConfig, true)

  /** `extra_config`: only the keys whose flag was given. */
  datatype Extra = Extra(stripRaw: Option<bool>, buildJdText: Option<bool>, keepEmptySkills: Option<bool>)

  function ExtraConfig(keepRaw: bool, noJdText: bool, keepEmptySkills: bool): Extra
  {
    Extra(if keepRaw then Some(false) else None,
          if noJdText then Some(false) else None,
          if keepEmptySkills then Some(true) else None)
  }

  /** `config.update(extra_config)` */
  function Update(s: Settings, e: Extra): Settings
  {
    var c := s.config;
    var c := if e.buildJdText.Some? then c.(buildJdText := e.buildJdText.value) else c;
    var c := if e.keepEmptySkills.Some? then c.(keepEmptySkills := e.keepEmptySkills.value) else c;
    Settings(c, if e.stripRaw.Some? then e.stripRaw.value else s.stripRaw)
  }

  /**
   * Each flag sets its own key and nothing else: `--keep-raw` keeps the
   * raw field, `--no-jd-text` stops building the JD text,
   * `--keep-empty-skills` keeps jobs without skills, and every other rule
   * is the default.
   */
  lemma ConfigOverrides(keepRaw: bool, noJdText: bool, keepEmptySkills: bool)
    ensures var s := Update(DefaultSettings, ExtraConfig(keepRaw, noJdText, keepEmptySkills));
      && s.stripRaw == !keepRaw
      && s.config == DataCleaner.DefaultConfig.(buildJdText := !noJdText, keepEmptySkills := keepEmptySkills)
  {
  }

  // ------------------------------------------------------------------ one city

  /** What the cleaner did: its counts, or the exception it raised with its message. */
  datatype CleanResult = Cleaned(total: nat, cleaned: nat) | Raised(message: string)

  /**
   * One entry of `all_stats`. `error` is the exception's message (absent
   * when there was none); a skipped city has no total.
   */
  datatype CityStat = CityStat(city: string, skipped: bool, error: Option<string>, total: nat, cleaned: nat)

  /**
   * `clean_city_file`, with the failure record the caller builds when it
   * raises. `existing` is the cleaned output already present: its record
   * count, or `None` when it cannot be parsed.
   */
  function CleanCityFile(city: string, existing: Option<Option<nat>>, result: CleanResult): CityStat
  {
    if existing.Some? then
      CityStat(city, true, None, 0, if existing.value.Some? then existing.value.value else 0)
    else match result
      case Cleaned(total, cleaned) => CityStat(city, false, None, total, cleaned)
      case Raised(message) => CityStat(city, false, Some(message), 0, 0)
  }

  /** An existing output is skipped with its count (0 when unreadable); otherwise the city is cleaned or fails. */
  lemma CleanCityFileSpec(city: string, existing: Option<Option<nat>>, result: CleanResult)
    ensures var s := CleanCityFile(city, existing, result);
      && s.city == city
      && (s.skipped <==> existing.Some?)
      && (existing == Some(None) ==> s.cleaned == 0)
      && (s.error.Some? <==> existing.None? && result.Raised?)
      && (s.skipped ==> s.error.None?)
  {
  }

  // ------------------------------------------------------------------ classification

  /** `s.get('error')` as a condition: the message, which is falsy when empty. */
  predicate ErrorTruthy(s: CityStat)
  {
    s.error.Some? && s.error.value != ""
  }

  /** `processed` as written: neither skipped nor with a truthy error. */
  predicate ProcessedAsWritten(s: CityStat)
  {
    !s.skipped && !ErrorTruthy(s)
  }

  /** A cleaner that raises an exception with an empty message is counted as processed, with no records. */
  lemma EmptyMessageProcessed(city: string)
    ensures var s := CleanCityFile(city, None, Raised(""));
      s.error.Some? && ProcessedAsWritten(s) && s.total == 0 && s.cleaned == 0
  {
  }

  /** Processed: cleaned in this run, without an exception. */
  predicate Processed(s: CityStat)
  {
    !s.skipped && s.error.None?
  }

  predicate Failed(s: CityStat)
  {
    s.error.Some?
  }

  /** No failed run is processed, whatever its message. */
  lemma FailedNeverProcessed(city: string, message: string)
    ensures !Processed(CleanCityFile(city, None, Raised(message)))
    ensures Failed(CleanCityFile(city, None, Raised(message)))
  {
  }

  function IsProcessedAsWritten(): CityStat -> bool { (s: CityStat) => ProcessedAsWritten(s) }
  function IsFailedAsWritten(): CityStat -> bool { (s: CityStat) => ErrorTruthy(s) }
  function IsProcessed(): CityStat -> bool { (s: CityStat) => Processed(s) }
  function IsSkipped(): CityStat -> bool { (s: CityStat) => s.skipped }
  function IsFailed(): CityStat -> bool { (s: CityStat) => Failed(s) }

  /** A record the script builds: a skipped city carries no error. */
  predicate WellFormed(all: seq<CityStat>)
  {
    forall i :: 0 <= i < |all| ==> (all[i].skipped ==> all[i].error.None?)
  }

  /**
   * Every record is in exactly one of the three lists, both as written
   * (failure is a truthy error) and with failure as the error's presence.
   */
  lemma {:induction false} Classified(all: seq<CityStat>)
    requires WellFormed(all)
    ensures Count(all, IsProcessedAsWritten()) + Count(all, IsSkipped()) + Count(all, IsFailedAsWritten()) == |all|
    ensures Count(all, IsProcessed()) + Count(all, IsSkipped()) + Count(all, IsFailed()) == |all|
  {
    if all != [] {
      assert WellFormed(all[1..]) by {
        forall i | 0 <= i < |all[1..]| ensures all[1..][i].skipped ==> all[1..][i].error.None? {
          assert all[1..][i] == all[i + 1];
        }
      }
      Classified(all[1..]);
    }
  }

  // ------------------------------------------------------------------ the summary

  /** The key of the summary dictionary. */
  function CityKey(s: CityStat): string { s.city }

  /** The loop over the processed records, assigning each into the dictionary. */
  method MergeProcessed(existing: seq<CityStat>, processed: seq<CityStat>) returns (merged: seq<CityStat>)
    ensures merged == UpsertAll(existing, processed, CityKey)
  {
    merged := existing;
    var k := 0;
    while k < |processed|
      invariant 0 <= k <= |processed|
      invariant merged == UpsertAll(existing, processed[..k], CityKey)
    {
      assert processed[..k + 1][..k] == processed[..k];
      merged := Upsert(merged, processed[k], CityKey);
      k := k + 1;
    }
    assert processed[..k] == processed;
  }

  /**
   * The merged summary: a city processed in this run takes its latest new
   * record, any other city keeps its latest saved record, and the cities
   * keep the order of their first appearance, saved ones first.
   */
  lemma MergeSpec(saved: seq<CityStat>, processed: seq<CityStat>)
    ensures var merged := UpsertAll(UpsertAll([], saved, CityKey), processed, CityKey);
      && (forall c :: (Lookup(merged, c, CityKey)
        == if Latest(processed, c, CityKey).Some? then Latest(processed, c, CityKey) else Latest(saved, c, CityKey)))
      && Keys(merged, CityKey) == Dedup(Keys(saved + processed, CityKey))
  {
    UpsertAllConcat([], saved, processed, CityKey);
    UpsertAllSpec(saved + processed, CityKey);
    forall c ensures Latest(saved + processed, c, CityKey) ==
      if Latest(processed, c, CityKey).Some? then Latest(processed, c, CityKey) else Latest(saved, c, CityKey)
    {
      LatestConcat(saved, processed, c, CityKey);
    }
  }

  /** `sum(s.get(field, 0) for s in merged if not s.get('skipped'))` */
  function SumOver(es: seq<CityStat>, field: CityStat -> nat): nat
  {
    if es == [] then 0 else (if es[0].skipped then 0 else field(es[0])) + SumOver(es[1..], field)
  }

  datatype Summary = Summary(cities: seq<CityStat>, totalRaw: nat, totalCleaned: nat, retentionRate: real)

  function SummaryOf(merged: seq<CityStat>): Summary
  {
    var raw := SumOver(merged, (s: CityStat) => s.total);
    var cleaned := SumOver(merged, (s: CityStat) => s.cleaned);
    Summary(merged, raw, cleaned, if raw > 0 then cleaned as real / raw as real else 0.0)
  }

  /** The retention rate is 0 without raw records, and otherwise the cleaned share of them. */
  lemma SummarySpec(merged: seq<CityStat>)
    ensures SummaryOf(merged).totalRaw == 0 ==> SummaryOf(merged).retentionRate == 0.0
    ensures SummaryOf(merged).totalRaw > 0 ==>
      SummaryOf(merged).retentionRate * SummaryOf(merged).totalRaw as real == SummaryOf(merged).totalCleaned as real
  {
  }

  // ------------------------------------------------------------------ the run

  /** The records of the selected files, in order; a file whose old output cannot be removed contributes none. */
  function RunStats(files: seq<string>, force: bool, settings: Settings, existingOutput: string -> Option<Option<nat>>,
                    removable: string -> bool, clean: (string, Settings) -> CleanResult): seq<CityStat>
  {
    if files == [] then []
    else
      var init := RunStats(files[..|files| - 1], force, settings, existingOutput, removable, clean);
      var city := files[|files| - 1];
      if force && existingOutput(city).Some? && !removable(city) then init
      else
        var existing := if force then None else existingOutput(city);
        init + [CleanCityFile(city, existing, clean(city, settings))]
  }

  /**
   * What the run promises of its records: each one well formed, at most one
   * per file; without `--force` exactly one per file, skipped exactly when
   * the file has an output; with it none skipped.
   */
  ghost predicate RunFacts(all: seq<CityStat>, files: seq<string>, force: bool, existingOutput: string -> Option<Option<nat>>)
  {
    && WellFormed(all) && |all| <= |files|
    && (!force ==> |all| == |files| && forall i :: 0 <= i < |all| ==> (all[i].skipped <==> existingOutput(files[i]).Some?))
    && (force ==> Count(all, IsSkipped()) == 0)
  }

  /** A file passed over under `--force` keeps the facts. */
  lemma RunFactsPass(all: seq<CityStat>, files: seq<string>, city: string, force: bool,
                     existingOutput: string -> Option<Option<nat>>)
    requires RunFacts(all, files, force, existingOutput) && force
    ensures RunFacts(all, files + [city], force, existingOutput)
  {
  }

  /** A new record, skipped exactly when there is an output and no `--force`, keeps the facts. */
  lemma RunFactsSnoc(all: seq<CityStat>, files: seq<string>, city: string, s: CityStat, force: bool,
                     existingOutput: string -> Option<Option<nat>>)
    requires RunFacts(all, files, force, existingOutput)
    requires s.skipped <==> !force && existingOutput(city).Some?
    requires s.skipped ==> s.error.None?
    ensures RunFacts(all + [s], files + [city], force, existingOutput)
  {
    CountAppend(all, s, IsSkipped());
    var all', files' := all + [s], files + [city];
    assert WellFormed(all') by {
      forall i | 0 <= i < |all'| ensures all'[i].skipped ==> all'[i].error.None? {
        if i < |all| { assert all'[i] == all[i]; }
      }
    }
    if !force {
      forall i | 0 <= i < |all'| ensures all'[i].skipped <==> existingOutput(files'[i]).Some? {
        if i < |all| { assert all'[i] == all[i] && files'[i] == files[i]; }
      }
    }
  }

  /** Without `--force` no file is skipped over and every city with an output is skipped; with it none is skipped. */
  lemma {:induction false} RunStatsSpec(files: seq<string>, force: bool, settings: Settings,
                                        existingOutput: string -> Option<Option<nat>>,
                                        removable: string -> bool, clean: (string, Settings) -> CleanResult)
    ensures RunFacts(RunStats(files, force, settings, existingOutput, removable, clean), files, force, existingOutput)
  {
    if files != [] {
      var init := RunStats(files[..|files| - 1], force, settings, existingOutput, removable, clean);
      RunStatsSpec(files[..|files| - 1], force, settings, existingOutput, removable, clean);
      var city := files[|files| - 1];
      assert files == files[..|files| - 1] + [city];
      if force && existingOutput(city).Some? && !removable(city) {
        RunFactsPass(init, files[..|files| - 1], city, force, existingOutput);
      } else {
        var existing := if force then None else existingOutput(city);
        var s := CleanCityFile(city, existing, clean(city, settings));
        CleanCityFileSpec(city, existing, clean(city, settings));
        RunFactsSnoc(init, files[..|files| - 1], city, s, force, existingOutput);
      }
    }
  }

  /** The cleaning loop of `main`: each file in turn, with `--force` removing its old output first. */
  method CleanFiles(files: seq<string>, force: bool, settings: Settings,
                    existingOutput: string -> Option<Option<nat>>, removable: string -> bool,
                    clean: (string, Settings) -> CleanResult) returns (all: seq<CityStat>)
    ensures all == RunStats(files, force, settings, existingOutput, removable, clean)
  {
    all := [];
    var i := 0;
    while i < |files|
      invariant 0 <= i <= |files|
      invariant all == RunStats(files[..i], force, settings, existingOutput, removable, clean)
    {
      var city := files[i];
      assert files[..i + 1][..i] == files[..i];
      var existing := existingOutput(city);
      if force && existing.Some? {
        if !removable(city) {
          i := i + 1;
          continue;
        }
        existing := None;
      }
      var stat := CleanCityFile(city, existing, clean(city, settings));
      all := all + [stat];
      i := i + 1;
    }
    assert files[..i] == files;
  }

  /** The summary step: merged and written only when `processed` picks some record. */
  method Summarise(all: seq<CityStat>, processed: CityStat -> bool, saved: seq<CityStat>)
      returns (written: Option<Summary>)
    ensures written.Some? <==> Count(all, processed) > 0
    ensures written.Some? ==> written.value == SummaryOf(UpsertAll(UpsertAll([], saved, CityKey), Filter(all, processed), CityKey))
  {
    var picked := Filter(all, processed);
    CountFilter(all, processed);
    var existingCities := UpsertAll([], saved, CityKey);
    var merged := MergeProcessed(existingCities, picked);
    if |picked| > 0 {
      written := Some(SummaryOf(merged));
    } else {
      written := None;
    }
  }

  /**
   * `main` from the chosen files on: each file is cleaned in turn (with
   * `--force` its old output is removed first, and a file whose output
   * cannot be removed is passed over); then the summary is merged from
   * the records counted as processed as written (no truthy error), and
   * written only when some city was processed.
   */
  method CleanAll(files: seq<string>, force: bool, keepRaw: bool, noJdText: bool, keepEmptySkills: bool,
                  existingOutput: string -> Option<Option<nat>>, removable: string -> bool,
                  clean: (string, Settings) -> CleanResult, saved: seq<CityStat>)
      returns (all: seq<CityStat>, written: Option<Summary>)
    ensures all == RunStats(files, force, Update(DefaultSettings, ExtraConfig(keepRaw, noJdText, keepEmptySkills)),
                            existingOutput, removable, clean)
    ensures written.Some? <==> Count(all, IsProcessedAsWritten()) > 0
    ensures written.Some? ==>
      written.value == SummaryOf(UpsertAll(UpsertAll([], saved, CityKey), Filter(all, IsProcessedAsWritten()), CityKey))
  {
    var settings := Update(DefaultSettings, ExtraConfig(keepRaw, noJdText, keepEmptySkills));
    all := CleanFiles(files, force, settings, existingOutput, removable, clean);
    written := Summarise(all, IsProcessedAsWritten(), saved);
  }

  /** `main` with the corrected classification: a run that raised is never merged, whatever its message. */
  method CleanAllCorrected(files: seq<string>, force: bool, keepRaw: bool, noJdText: bool, keepEmptySkills: bool,
                           existingOutput: string -> Option<Option<nat>>, removable: string -> bool,
                           clean: (string, Settings) -> CleanResult, saved: seq<CityStat>)
      returns (all: seq<CityStat>, written: Option<Summary>)
    ensures all == RunStats(files, force, Update(DefaultSettings, ExtraConfig(keepRaw, noJdText, keepEmptySkills)),
                            existingOutput, removable, clean)
    ensures written.Some? <==> Count(all, IsProcessed()) > 0
    ensures written.Some? ==>
      written.value == SummaryOf(UpsertAll(UpsertAll([], saved, CityKey), Filter(all, IsProcessed()), CityKey))
    ensures forall s :: s in all && s.error.Some? ==> s !in Filter(all, IsProcessed())
  {
    var settings := Update(DefaultSettings, ExtraConfig(keepRaw, noJdText, keepEmptySkills));
    all := CleanFiles(files, force, settings, existingOutput, removable, clean);
    written := Summarise(all, IsProcessed(), saved);
  }
}
