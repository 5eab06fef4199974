/**
 * The incremental update of the vector store (scripts/update_vector_db.py):
 * load every data file of the chosen source, keep only the records whose
 * id the collection does not hold yet (unless duplicates are kept or the
 * update is forced), ask for confirmation, and add the rest in batches of
 * 50. The two `input` prompts are parameters holding the typed answers;
 * reading the directory is outside the model (the files arrive in glob
 * order).
 */
module UpdateVectorDb {
  import opened Wrappers
  import opened Text
  import opened Order
  import opened VectorDb

  /** The batch size of the update. */
  const BatchSize: nat := 50

  /** `load_data_from_dir`: the records of all files, one file after another. */
  method LoadDataFromDir(files: seq<seq<VJob>>) returns (jobs: seq<VJob>)
    ensures jobs == Flatten(files)
    ensures forall j :: j in jobs <==> exists l :: l in files && j in l
  {
    jobs := [];
    var k := 0;
    while k < |files|
      invariant 0 <= k <= |files|
      invariant jobs == Flatten(files[..k])
    {
      assert files[..k + 1][..k] == files[..k];
      jobs := jobs + files[k];
      k := k + 1;
    }
    assert files[..|files|] == files;
  }

  /** `get_existing_job_ids`: the ids the collection holds, or none when reading them raises. */
  function ExistingIds(store: VectorStore, readFails: bool): (ids: set<string>)
    reads store
    ensures ids <= store.entries.Keys
    ensures readFails ==> ids == {}
    ensures !readFails ==> forall k :: k in ids <==> k in store.entries
  {
    if readFails then {} else store.entries.Keys
  }

  /** A record with an id the collection does not hold. */
  function IsNew(existing: set<string>): VJob -> bool
  {
    (j: VJob) => j.jobId != [] && j.jobId !in existing
  }

  /** A record with an id the collection already holds. */
  function IsStored(existing: set<string>): VJob -> bool
  {
    (j: VJob) => j.jobId != [] && j.jobId in existing
  }

  /** A record without an id. */
  function NoId(): VJob -> bool
  {
    (j: VJob) => j.jobId == []
  }

  /**
   * `filter_new_jobs`: records without an id are skipped, records whose id
   * is stored are counted as duplicates, the others are kept in order.
   */
  method FilterNewJobs(jobs: seq<VJob>, existing: set<string>) returns (newJobs: seq<VJob>, duplicateCount: nat)
    ensures newJobs == Filter(jobs, IsNew(existing))
    ensures duplicateCount == Count(jobs, IsStored(existing))
  {
    newJobs := [];
    duplicateCount := 0;
    var i := 0;
    while i < |jobs|
      invariant 0 <= i <= |jobs|
      invariant newJobs == Filter(jobs[..i], IsNew(existing))
      invariant duplicateCount == Count(jobs[..i], IsStored(existing))
    {
      FilterNewStep(jobs, i, existing);
      newJobs, duplicateCount := SortJob(jobs[i], existing, newJobs, duplicateCount);
      i := i + 1;
    }
    assert jobs[..|jobs|] == jobs;
  }

  /** The body of the loop of `filter_new_jobs`: skip, count as a duplicate, or keep. */
  method SortJob(job: VJob, existing: set<string>, newJobs: seq<VJob>, duplicateCount: nat)
    returns (newJobs': seq<VJob>, duplicateCount': nat)
    ensures newJobs' == newJobs + (if IsNew(existing)(job) then [job] else [])
    ensures duplicateCount' == duplicateCount + (if IsStored(existing)(job) then 1 else 0)
  {
    newJobs', duplicateCount' := newJobs, duplicateCount;
    if job.jobId == [] {
    } else if job.jobId in existing {
      duplicateCount' := duplicateCount + 1;
    } else {
      newJobs' := newJobs + [job];
    }
  }

  /** One more record for the loop of `filter_new_jobs`. */
  lemma FilterNewStep(jobs: seq<VJob>, i: nat, existing: set<string>)
    requires i < |jobs|
    ensures Filter(jobs[..i + 1], IsNew(existing))
      == Filter(jobs[..i], IsNew(existing)) + (if IsNew(existing)(jobs[i]) then [jobs[i]] else [])
    ensures Count(jobs[..i + 1], IsStored(existing))
      == Count(jobs[..i], IsStored(existing)) + (if IsStored(existing)(jobs[i]) then 1 else 0)
  {
    assert jobs[..i + 1] == jobs[..i] + [jobs[i]];
    FilterConcat(jobs[..i], [jobs[i]], IsNew(existing));
    CountConcat(jobs[..i], [jobs[i]], IsStored(existing));
  }

  /** Every record is new, a duplicate, or without an id, and exactly one of these. */
  lemma {:induction false} FilterNewJobsPartition(jobs: seq<VJob>, existing: set<string>)
    ensures |Filter(jobs, IsNew(existing))| + Count(jobs, IsStored(existing)) + Count(jobs, NoId()) == |jobs|
  {
    if jobs != [] {
      FilterNewJobsPartition(jobs[1..], existing);
    }
  }

  /** `input(...).strip().lower() == 'y'` */
  predicate Confirmed(answer: string)
  {
    Lower(Strip(answer)) == "y"
  }

  /** Only a lone `y` or `Y`, surrounded by any white space, confirms. */
  lemma ConfirmedIff(answer: string)
    ensures Confirmed(answer) <==> Strip(answer) == "y" || Strip(answer) == "Y"
  {
    var t := Strip(answer);
    if Confirmed(answer) {
      assert |t| == 1 && LowerChar(t[0]) == 'y';
      assert t == [t[0]];
    }
    if t == "Y" {
      assert Lower(t)[0] == 'y';
    }
  }

  /** How an update ends. */
  datatype UpdateResult =
    | Cancelled                 // the collection is empty and the first prompt was not confirmed
    | NoData                    // no record in the data files
    | NothingNew(total: nat)    // every record with an id is stored already
    | NotConfirmed(toAdd: nat)  // the second prompt was not confirmed
    | Added(toAdd: nat)         // the records were handed to `add_jobs`

  /** The records to add: only the new ones when duplicates are skipped and the update is not forced. */
  function ToAdd(jobs: seq<VJob>, skipDuplicates: bool, forceUpdate: bool, existing: set<string>): seq<VJob>
  {
    if skipDuplicates && !forceUpdate then Filter(jobs, IsNew(existing)) else jobs
  }

  /** The outcome of `update_vector_database`, decided before anything is written. */
  function Decide(count: nat, jobs: seq<VJob>, skipDuplicates: bool, forceUpdate: bool, existing: set<string>,
                  emptyAnswer: string, confirmAnswer: string): UpdateResult
  {
    var toAdd := ToAdd(jobs, skipDuplicates, forceUpdate, existing);
    if count == 0 && !Confirmed(emptyAnswer) then Cancelled
    else if jobs == [] then NoData
    else if toAdd == [] then NothingNew(|jobs|)
    else if !Confirmed(confirmAnswer) then NotConfirmed(|toAdd|)
    else Added(|toAdd|)
  }

  /**
   * The store changes only when both prompts let the update through and
   * something is left to add; then nothing but new ids is added in skip
   * mode, and what is added is never empty.
   */
  lemma DecideSpec(count: nat, jobs: seq<VJob>, skipDuplicates: bool, forceUpdate: bool, existing: set<string>,
                   emptyAnswer: string, confirmAnswer: string)
    ensures var r := Decide(count, jobs, skipDuplicates, forceUpdate, existing, emptyAnswer, confirmAnswer);
      r.Added? <==> ((count > 0 || Confirmed(emptyAnswer)) && Confirmed(confirmAnswer)
        && ToAdd(jobs, skipDuplicates, forceUpdate, existing) != [])
    ensures var r := Decide(count, jobs, skipDuplicates, forceUpdate, existing, emptyAnswer, confirmAnswer);
      r.Added? ==> r.toAdd > 0 && r.toAdd <= |jobs|
    ensures var r := Decide(count, jobs, skipDuplicates, forceUpdate, existing, emptyAnswer, confirmAnswer);
      r.NothingNew? ==> skipDuplicates && !forceUpdate && forall j :: j in jobs ==> !IsNew(existing)(j)
  {
    var toAdd := ToAdd(jobs, skipDuplicates, forceUpdate, existing);
    if toAdd == [] && jobs != [] && skipDuplicates && !forceUpdate {
      assert forall j :: j in jobs ==> !IsNew(existing)(j);
    }
  }

  /**
   * `update_vector_database`: the decision, then `add_jobs` in batches of
   * 50 when it says so. The set of stored ids comes from the collection
   * as it is before the update.
   */
  method UpdateVectorDatabase(store: VectorStore, files: seq<seq<VJob>>, skipDuplicates: bool, forceUpdate: bool,
                              readFails: bool, emptyAnswer: string, confirmAnswer: string, fails: nat -> bool)
    returns (r: UpdateResult)
    modifies store
    ensures var existing := if readFails then {} else old(store.entries).Keys;
      r == Decide(old(store.Count()), Flatten(files), skipDuplicates, forceUpdate, existing, emptyAnswer, confirmAnswer)
    ensures !r.Added? ==> store.entries == old(store.entries)
    ensures var existing := if readFails then {} else old(store.entries).Keys;
      r.Added? ==> (store.entries
        == Load(old(store.entries), ToAdd(Flatten(files), skipDuplicates, forceUpdate, existing), 0, BatchSize, fails, EntryOf))
  {
    var currentCount := store.Count();
    if currentCount == 0 && !Confirmed(emptyAnswer) {
      return Cancelled;
    }
    var jobs := LoadDataFromDir(files);
    if jobs == [] {
      return NoData;
    }
    var jobsToAdd: seq<VJob>;
    if skipDuplicates && !forceUpdate {
      var existing := ExistingIds(store, readFails);
      var newJobs, duplicates := FilterNewJobs(jobs, existing);
      if newJobs == [] {
        return NothingNew(|jobs|);
      }
      jobsToAdd := newJobs;
    } else {
      jobsToAdd := jobs;
    }
    if !Confirmed(confirmAnswer) {
      return NotConfirmed(|jobsToAdd|);
    }
    store.AddJobs(jobsToAdd, BatchSize, fails);
    r := Added(|jobsToAdd|);
  }

  /**
   * In skip mode, when the stored ids could be read, the update leaves
   * every stored document as it was: it only adds documents.
   */
  lemma SkipKeepsStored(m: map<string, Entry>, jobs: seq<VJob>, fails: nat -> bool)
    ensures var added := Load(m, Filter(jobs, IsNew(m.Keys)), 0, BatchSize, fails, EntryOf);
      m.Keys <= added.Keys && forall k :: k in m ==> added[k] == m[k]
  {
    var toAdd := Filter(jobs, IsNew(m.Keys));
    LoadFrame(m, toAdd, 0, BatchSize, fails, EntryOf);
    forall k | k in m ensures forall p :: 0 <= p < |toAdd| ==> toAdd[p].jobId != k {
      forall p | 0 <= p < |toAdd| ensures toAdd[p].jobId != k {
        assert toAdd[p] in toAdd;
      }
    }
  }
}
