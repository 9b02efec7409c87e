/**
 * The pending-work registry `toProcess` and the decision `setJobToProcess`
 * takes on it.
 *
 * The registry maps an escaped input path to the entries pending for that
 * input. Each entry is keyed by its escaped output path; the entries of one
 * input are kept in insertion order, which is the order in which the batch
 * runner later reads them back.
 */
module Registry {
  import opened FileKeys

  /**
   * A thumbnail job. `ident` stands for the identity of the job object:
   * distinct objects carry distinct `ident`s, so two jobs are the same
   * object exactly when they are equal here.
   */
  datatype Job = Job(ident: nat, inputPath: string, outputPath: string, contentDigest: string)

  /** The value `{job, deferred}` stored under an output key; `deferred` names a waiter. */
  datatype Entry = Entry(outKey: string, job: Job, deferred: nat)

  /** The entries pending for one input, oldest first. */
  type Bucket = seq<Entry>

  type Registry = map<string, Bucket>

  datatype Option<T> = None | Some(value: T)

  /** What a caller of the scheduler gets back: a deferred's promise, or one already resolved with the job. */
  datatype Promise = Deferred(id: nat) | ResolvedWith(job: Job)

  /** The result of `setJobToProcess`: `{existingPromise}` or `{isQueued}`. */
  datatype SetResult = Existing(promise: Promise) | Queued(isQueued: bool)

  /** The position of the first entry of `b` stored under `outKey`, or `|b|` if there is none. */
  function Find(b: Bucket, outKey: string): (i: nat)
    ensures i <= |b|
    ensures i < |b| ==> b[i].outKey == outKey
    ensures forall j | 0 <= j < i :: b[j].outKey != outKey
  {
    if b == [] then 0
    else if b[0].outKey == outKey then 0
    else 1 + Find(b[1..], outKey)
  }

  /** The entry registered at (inKey, outKey), if any (`_.has` / `_.get` on the path). */
  function Lookup(reg: Registry, inKey: string, outKey: string): (r: Option<Entry>)
    ensures r.Some? <==> inKey in reg && exists e | e in reg[inKey] :: e.outKey == outKey
    ensures r.Some? ==> r.value in reg[inKey] && r.value.outKey == outKey
  {
    if inKey in reg && Find(reg[inKey], outKey) < |reg[inKey]|
    then Some(reg[inKey][Find(reg[inKey], outKey)])
    else None
  }

  /**
   * `_.set(toProcess, jobPath, entry)` at a key pair that is not registered:
   * append the entry to its input's bucket, creating the bucket if needed.
   * It is only applied after `Lookup` has found nothing at that pair; at a
   * registered pair `_.set` would overwrite the entry instead.
   */
  function Put(reg: Registry, inKey: string, e: Entry): (r: Registry)
    ensures r.Keys == reg.Keys + {inKey}
    ensures forall k | k in reg && k != inKey :: r[k] == reg[k]
    ensures |r[inKey]| > 0 && r[inKey][|r[inKey]| - 1] == e
    ensures inKey in reg ==> |r[inKey]| == |reg[inKey]| + 1 && r[inKey][..|reg[inKey]|] == reg[inKey]
    ensures inKey !in reg ==> |r[inKey]| == 1
  {
    reg[inKey := (if inKey in reg then reg[inKey] else []) + [e]]
  }

  /**
   * The decision `setJobToProcess` takes for `job`: a registered (input,
   * output) pair yields the existing deferred; otherwise an output already
   * on disk yields a promise resolved with the job; otherwise the job is
   * inserted, and `isQueued` says whether its input already had a bucket.
   */
  function Decide(reg: Registry, job: Job, outputExists: bool): (r: SetResult)
    ensures var found := Lookup(reg, GetFileKey(job.inputPath), GetFileKey(job.outputPath));
      && (r.Existing? <==> found.Some? || outputExists)
      && (found.Some? ==> r == Existing(Deferred(found.value.deferred)))
      && (r.Existing? && r.promise.ResolvedWith? ==> found.None? && r.promise.job == job)
      && (found.None? && outputExists ==> r == Existing(ResolvedWith(job)))
      && (r.Queued? ==> (r.isQueued <==> GetFileKey(job.inputPath) in reg))
  {
    var inKey, outKey := GetFileKey(job.inputPath), GetFileKey(job.outputPath);
    match Lookup(reg, inKey, outKey)
    case Some(e) => Existing(Deferred(e.deferred))
    case None => if outputExists then Existing(ResolvedWith(job)) else Queued(inKey in reg)
  }

  /** Appending an entry does not move the first entry of any output key already present. */
  lemma {:induction false} FindAppend(b: Bucket, e: Entry, outKey: string)
    ensures Find(b + [e], outKey) ==
      if Find(b, outKey) < |b| then Find(b, outKey)
      else if e.outKey == outKey then |b|
      else |b| + 1
  {
    if b != [] {
      assert (b + [e])[1..] == b[1..] + [e];
      FindAppend(b[1..], e, outKey);
    }
  }

  /**
   * After inserting an entry for a pair that was not registered, that pair
   * looks up to the new entry and every other pair looks up as before.
   */
  lemma PutLookup(reg: Registry, inKey: string, e: Entry, k: string, o: string)
    requires Lookup(reg, inKey, e.outKey).None?
    ensures Lookup(Put(reg, inKey, e), k, o) ==
      if k == inKey && o == e.outKey then Some(e) else Lookup(reg, k, o)
  {
    if k == inKey {
      var b := if inKey in reg then reg[inKey] else [];
      assert Put(reg, inKey, e)[inKey] == b + [e];
      FindAppend(b, e, o);
      if inKey in reg {
        assert Find(b, e.outKey) == |b|;
      }
    }
  }

  /** The duplicate check comes first: a registered pair is shared whatever the disk says. */
  lemma DuplicateBeforeDisk(reg: Registry, job: Job, e: Entry)
    requires Lookup(reg, GetFileKey(job.inputPath), GetFileKey(job.outputPath)) == Some(e)
    ensures Decide(reg, job, true) == Decide(reg, job, false) == Existing(Deferred(e.deferred))
  {
  }

  /**
   * Once a job has been inserted, any later job whose paths escape to the
   * same keys (the same job again, or paths that collide under
   * `GetFileKey`) gets the inserted job's deferred, whatever the disk says.
   */
  lemma SameKeysShareDeferred(reg: Registry, job: Job, d: nat, outputExists: bool, later: Job, laterExists: bool)
    requires Decide(reg, job, outputExists).Queued?
    requires GetFileKey(later.inputPath) == GetFileKey(job.inputPath)
    requires GetFileKey(later.outputPath) == GetFileKey(job.outputPath)
    ensures var reg' := Put(reg, GetFileKey(job.inputPath), Entry(GetFileKey(job.outputPath), job, d));
      Decide(reg', later, laterExists) == Existing(Deferred(d))
  {
    var inKey, outKey := GetFileKey(job.inputPath), GetFileKey(job.outputPath);
    PutLookup(reg, inKey, Entry(outKey, job, d), inKey, outKey);
  }
}
