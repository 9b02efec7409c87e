/**
 * The thumbnail-job scheduler of gatsby-plugin-sharp.
 *
 * One scheduler owns the registry of pending jobs, the counter `totalJobs`,
 * a first-in first-out queue of batch units served by a single worker, and
 * the deferreds handed to callers. Each method is one step that runs to
 * completion without interruption:
 *
 *   Submit       - `scheduleJob`, with `setJobToProcess` inside it
 *   RunJobs      - the worker takes the next unit and runs `runJobs` up to
 *                  the return (or throw) of the image processor
 *   SettleOutput - one output's promise chain settles
 *   FinishBatch  - every output has settled: `endJob`, then the worker's
 *                  callback, and `drain` when no unit is left
 *
 * The environment calls them in any order their preconditions allow.
 * Progress-bar calls and job-tracker actions are recorded in `log`.
 */
module Scheduler {
  import opened FileKeys
  import opened Waiters
  import opened Registry

  /** A queued unit: run the batch of input key `inKey`; the job tracker knows it as `jobId`. */
  datatype Unit = Unit(jobId: nat, inKey: string, reportStatus: bool)

  /** How the image processor's call for a batch ends: an array of promises, or a throw. */
  datatype ProcessCall = Returned(promises: nat) | Threw(message: string)

  /** How one of those promises settles: fulfilled with a job, or rejected. */
  datatype Outcome = Succeeded(job: Job) | Failed(err: Error)

  /**
   * A batch being processed: the entries read from the registry, how many
   * promises the processor returned, which of them have not settled yet,
   * and the `imagesFinished` counter.
   */
  datatype Batch = Batch(
    jobId: nat, reportStatus: bool, jobs: seq<Entry>,
    promises: nat, unsettled: set<nat>, imagesFinished: nat)

  /**
   * The queue's single worker. `Hung` is a worker whose task never calls
   * its callback: it stays busy for good.
   */
  datatype Worker = Free | Running(batch: Batch) | Hung

  /** The side effects on the progress bar and on the job tracker. */
  datatype Event =
    | BarStart
    | BarTotal(total: nat)
    | BarTick
    | BarDone
    | CreateJob(id: nat, description: string, imagesCount: nat)
    | SetJobImages(id: nat, imagesCount: nat)
    | SetJobFinished(id: nat, imagesFinished: nat)
    | EndJob(id: nat)

  /**
   * Where a deferred is referenced from: nowhere (created by a call that
   * returned another promise), from the registry at a key pair, or from a
   * batch that has been taken out of the registry.
   */
  datatype Home = Orphan | Registered(inKey: string, outKey: string) | Batched

  /** Which deferred one promise outcome settles, and how. */
  datatype Settlement = Settlement(deferred: nat, status: Status)

  function DeferredsOf(jobs: seq<Entry>): set<nat>
  {
    set e | e in jobs :: e.deferred
  }

  /**
   * The position of the first entry whose job is `job` (`jobs.find(j => j.job === job)`),
   * or `|jobs|`: the same first-match search as `Registry.Find`, on the job
   * an entry holds instead of its output key.
   */
  function FindJob(jobs: seq<Entry>, job: Job): (i: nat)
    ensures i <= |jobs|
    ensures i < |jobs| ==> jobs[i].job == job
    ensures forall j | 0 <= j < i :: jobs[j].job != job
  {
    if jobs == [] then 0
    else if jobs[0].job == job then 0
    else 1 + FindJob(jobs[1..], job)
  }

  /** The description a created job carries. */
  function JobDescription(inputPath: string): string
  {
    "processing image " + inputPath
  }

  function FailureMessage(first: Job): string
  {
    "Failed to process image " + first.inputPath
  }

  /**
   * The settlement one output's promise chain performs. A fulfilled promise
   * resolves the deferred of the entry holding the returned job; if no entry
   * holds it, looking it up throws and the rejection handler runs instead.
   * The rejection handler always rejects the deferred of the batch's first
   * entry, naming the first entry's input.
   */
  function Fate(jobs: seq<Entry>, outcome: Outcome): (s: Settlement)
    requires jobs != []
    ensures s.deferred in DeferredsOf(jobs) && !s.status.Pending?
    ensures s.status.Resolved? <==> outcome.Succeeded? && exists e | e in jobs :: e.job == outcome.job
    ensures s.status.Resolved? ==> exists e | e in jobs :: e.job == outcome.job && e.deferred == s.deferred
    ensures s.status.Rejected? ==> s.deferred == jobs[0].deferred && s.status.reason.message == FailureMessage(jobs[0].job)
    ensures outcome.Failed? ==> s.status == Rejected(Reason(outcome.err, FailureMessage(jobs[0].job)))
    ensures outcome.Succeeded? && !s.status.Resolved? ==> s.status.reason.err == MissingJob
  {
    var first := jobs[0];
    match outcome
    case Succeeded(job) =>
      var i := FindJob(jobs, job);
      if i < |jobs| then Settlement(jobs[i].deferred, Resolved)
      else Settlement(first.deferred, Rejected(Reason(MissingJob, FailureMessage(first.job))))
    case Failed(err) =>
      Settlement(first.deferred, Rejected(Reason(err, FailureMessage(first.job))))
  }

  /** Entries of a batch hold different jobs and different deferreds. */
  ghost predicate DistinctEntries(jobs: seq<Entry>)
  {
    forall a, b | 0 <= a < b < |jobs| :: jobs[a].job != jobs[b].job && jobs[a].deferred != jobs[b].deferred
  }

  /** A fulfilled promise carrying a batch's job resolves that job's own deferred. */
  lemma SuccessResolvesOwnWaiter(jobs: seq<Entry>, i: nat)
    requires DistinctEntries(jobs) && i < |jobs|
    ensures Fate(jobs, Succeeded(jobs[i].job)) == Settlement(jobs[i].deferred, Resolved)
  {
    var k := FindJob(jobs, jobs[i].job);
    assert k == i;
  }

  /** The outputs of one batch settling in the order given by `outcomes`. */
  function SettleOutcomes(waiters: seq<Status>, jobs: seq<Entry>, outcomes: seq<Outcome>): (r: seq<Status>)
    requires jobs != []
    ensures SettledOnce(waiters, r) && |r| == |waiters|
    decreases |outcomes|
  {
    if outcomes == [] then waiters
    else
      var s := Fate(jobs, outcomes[0]);
      SettleOutcomes(Settle(waiters, s.deferred, s.status), jobs, outcomes[1..])
  }

  /**
   * A waiter other than the first one's is settled by nothing but a
   * fulfilled promise carrying its own job: when its output's promise is
   * rejected, it stays as it was.
   */
  lemma {:induction false} LaterWaiterOnlyOwnSuccess(waiters: seq<Status>, jobs: seq<Entry>, outcomes: seq<Outcome>, i: nat)
    requires DistinctEntries(jobs) && 0 < i < |jobs| && jobs[i].deferred < |waiters|
    requires forall k | 0 <= k < |outcomes| :: outcomes[k] != Succeeded(jobs[i].job)
    ensures SettleOutcomes(waiters, jobs, outcomes)[jobs[i].deferred] == waiters[jobs[i].deferred]
    decreases |outcomes|
  {
    if outcomes != [] {
      var s := Fate(jobs, outcomes[0]);
      if s.status.Resolved? {
        var e :| e in jobs && e.job == outcomes[0].job && e.deferred == s.deferred;
        var j :| 0 <= j < |jobs| && jobs[j] == e;
        assert j != i;
      }
      assert s.deferred != jobs[i].deferred;
      LaterWaiterOnlyOwnSuccess(Settle(waiters, s.deferred, s.status), jobs, outcomes[1..], i);
    }
  }

  /**
   * When every promise of a batch is fulfilled with one of the batch's jobs,
   * every pending waiter whose job comes back is resolved.
   */
  lemma {:induction false} AllSucceedResolves(waiters: seq<Status>, jobs: seq<Entry>, outcomes: seq<Outcome>, i: nat)
    requires DistinctEntries(jobs) && i < |jobs| && jobs[i].deferred < |waiters|
    requires !waiters[jobs[i].deferred].Rejected?
    requires forall k | 0 <= k < |outcomes| :: outcomes[k].Succeeded? && exists e | e in jobs :: e.job == outcomes[k].job
    requires Succeeded(jobs[i].job) in outcomes || waiters[jobs[i].deferred] == Resolved
    ensures SettleOutcomes(waiters, jobs, outcomes)[jobs[i].deferred] == Resolved
    decreases |outcomes|
  {
    var d := jobs[i].deferred;
    if outcomes == [] {
    } else {
      var s := Fate(jobs, outcomes[0]);
      var next := Settle(waiters, s.deferred, s.status);
      assert s.status == Resolved;
      if outcomes[0] == Succeeded(jobs[i].job) {
        SuccessResolvesOwnWaiter(jobs, i);
        assert next[d] == Resolved;
      } else {
        assert Succeeded(jobs[i].job) in outcomes[1..] || waiters[d] == Resolved;
      }
      assert next[d].Pending? || next[d] == Resolved;
      AllSucceedResolves(next, jobs, outcomes[1..], i);
    }
  }

  /** The input keys the units of `q` name. */
  function QueuedKeys(q: seq<Unit>): set<string>
  {
    if q == [] then {} else {q[0].inKey} + QueuedKeys(q[1..])
  }

  /** An input key is queued iff some unit names it. */
  lemma {:induction false} QueuedKeysMember(q: seq<Unit>, k: string)
    ensures k in QueuedKeys(q) <==> exists i | 0 <= i < |q| :: q[i].inKey == k
  {
    if q != [] {
      QueuedKeysMember(q[1..], k);
      if k != q[0].inKey && k in QueuedKeys(q) {
        var i :| 0 <= i < |q[1..]| && q[1..][i].inKey == k;
        assert q[i + 1].inKey == k;
      }
    }
  }

  /** Pushing a unit adds its key. */
  lemma {:induction false} QueuedKeysPush(q: seq<Unit>, u: Unit)
    ensures QueuedKeys(q + [u]) == QueuedKeys(q) + {u.inKey}
  {
    if q != [] {
      assert (q + [u])[1..] == q[1..] + [u];
      QueuedKeysPush(q[1..], u);
    } else {
      assert QueuedKeys([u]) == {u.inKey} + QueuedKeys([]);
    }
  }

  predicate DistinctUnits(q: seq<Unit>)
  {
    forall i, j | 0 <= i < j < |q| :: q[i].inKey != q[j].inKey
  }

  /** How many units of `q` are for input key `k`. */
  function UnitsFor(q: seq<Unit>, k: string): nat
  {
    if q == [] then 0 else (if q[0].inKey == k then 1 else 0) + UnitsFor(q[1..], k)
  }

  /** A queue whose units name distinct inputs holds one unit per queued input and none for the others. */
  lemma {:induction false} OneUnitPerKey(q: seq<Unit>, k: string)
    requires DistinctUnits(q)
    ensures UnitsFor(q, k) == if k in QueuedKeys(q) then 1 else 0
  {
    if q != [] {
      OneUnitPerKey(q[1..], k);
      assert q == [q[0]] + q[1..];
      if q[0].inKey == k {
        QueuedKeysMember(q[1..], k);
      }
    }
  }

  /** The set {0, ..., n - 1}: the promises of a batch that has not settled any. */
  function Range(n: nat): (r: set<nat>)
    ensures |r| == n && forall p: int :: p in r <==> 0 <= p < n
  {
    if n == 0 then {} else Range(n - 1) + {n - 1}
  }

  /** The homes of deferreds once the bucket of `inKey` has been taken out of the registry. */
  ghost function Release(home: seq<Home>, inKey: string): (r: seq<Home>)
    ensures |r| == |home|
    ensures forall d | 0 <= d < |home| ::
      r[d] == if home[d].Registered? && home[d].inKey == inKey then Batched else home[d]
  {
    seq(|home|, d requires 0 <= d < |home| =>
      if home[d].Registered? && home[d].inKey == inKey then Batched else home[d])
  }

  // ---------------------------------------------------------------------
  // The scheduler's invariant, stated over the values of its fields.
  // ---------------------------------------------------------------------

  /**
   * Every entry of the bucket of `inKey` is stored under its own paths'
   * keys, is the only one under its output key, and holds a pending
   * deferred that nothing but it references.
   */
  ghost predicate BucketOK(inKey: string, b: Bucket, waiters: seq<Status>, home: seq<Home>)
  {
    |home| == |waiters| && b != [] &&
    (forall i, j | 0 <= i < j < |b| :: b[i].outKey != b[j].outKey) &&
    forall i | 0 <= i < |b| ::
      && b[i].outKey == GetFileKey(b[i].job.outputPath)
      && GetFileKey(b[i].job.inputPath) == inKey
      && b[i].deferred < |waiters|
      && waiters[b[i].deferred].Pending?
      && home[b[i].deferred] == Registered(inKey, b[i].outKey)
  }

  ghost predicate RegistryOK(reg: Registry, waiters: seq<Status>, home: seq<Home>)
  {
    |home| == |waiters| &&
    forall k | k in reg :: BucketOK(k, reg[k], waiters, home)
  }

  /** An input key is registered iff one not-yet-started unit for it is queued. */
  ghost predicate QueueOK(queue: seq<Unit>, reg: Registry)
  {
    DistinctUnits(queue) && QueuedKeys(queue) == reg.Keys
  }

  /** A running batch is non-empty, its deferreds are out of the registry, and its counters agree. */
  ghost predicate BatchOK(b: Batch, home: seq<Home>)
  {
    && b.jobs != []
    && DistinctEntries(b.jobs)
    && (forall i | 0 <= i < |b.jobs| :: b.jobs[i].deferred < |home| && home[b.jobs[i].deferred] == Batched)
    && (forall p | p in b.unsettled :: p < b.promises)
    && b.imagesFinished + |b.unsettled| == b.promises
  }

  ghost predicate WorkerOK(worker: Worker, home: seq<Home>)
  {
    worker.Running? ==> BatchOK(worker.batch, home)
  }

  /** A deferred that is batched stays batched. */
  ghost predicate KeepsBatched(home: seq<Home>, home': seq<Home>)
  {
    |home| <= |home'| && forall d | 0 <= d < |home| && home[d] == Batched :: home'[d] == Batched
  }

  /** Every deferred of a running batch is batched. */
  lemma BatchDeferredsBatched(b: Batch, home: seq<Home>)
    requires BatchOK(b, home)
    ensures forall d | d in DeferredsOf(b.jobs) :: d < |home| && home[d] == Batched
  {
    forall d | d in DeferredsOf(b.jobs) ensures d < |home| && home[d] == Batched {
      var i :| 0 <= i < |b.jobs| && b.jobs[i].deferred == d;
    }
  }

  lemma WorkerOKKept(worker: Worker, home: seq<Home>, home': seq<Home>)
    requires WorkerOK(worker, home) && KeepsBatched(home, home')
    ensures WorkerOK(worker, home')
  {
  }

  /** Creating a deferred that no entry references keeps the registry well formed. */
  lemma OrphanKeepsRegistry(reg: Registry, waiters: seq<Status>, home: seq<Home>)
    requires RegistryOK(reg, waiters, home)
    ensures RegistryOK(reg, waiters + [Pending], home + [Orphan])
  {
    forall k | k in reg ensures BucketOK(k, reg[k], waiters + [Pending], home + [Orphan]) {
      assert BucketOK(k, reg[k], waiters, home);
    }
  }

  /**
   * Inserting a job whose key pair is not registered, with a pending
   * deferred referenced from nowhere else, keeps the registry well formed.
   */
  lemma PutKeepsRegistry(reg: Registry, waiters: seq<Status>, home: seq<Home>, job: Job, d: nat)
    requires RegistryOK(reg, waiters, home)
    requires Lookup(reg, GetFileKey(job.inputPath), GetFileKey(job.outputPath)).None?
    requires d < |waiters| && waiters[d].Pending? && home[d] == Orphan
    ensures var inKey, outKey := GetFileKey(job.inputPath), GetFileKey(job.outputPath);
      RegistryOK(Put(reg, inKey, Entry(outKey, job, d)), waiters, home[d := Registered(inKey, outKey)])
  {
    var inKey, outKey := GetFileKey(job.inputPath), GetFileKey(job.outputPath);
    var e := Entry(outKey, job, d);
    var reg' := Put(reg, inKey, e);
    var home' := home[d := Registered(inKey, outKey)];
    forall k | k in reg' ensures BucketOK(k, reg'[k], waiters, home') {
      if k == inKey {
        if inKey in reg {
          OrphanNotInBucket(inKey, reg[inKey], waiters, home, d, Registered(inKey, outKey));
          forall i | 0 <= i < |reg[inKey]| ensures reg[inKey][i].outKey != outKey {
            assert reg[inKey][i] in reg[inKey];
          }
          AppendKeepsBucket(inKey, reg[inKey], e, waiters, home');
        } else {
          assert reg'[inKey] == [e];
        }
      } else {
        OrphanNotInBucket(k, reg[k], waiters, home, d, Registered(inKey, outKey));
      }
    }
  }

  /** A bucket references no orphan deferred, so it does not care what an orphan's home becomes. */
  lemma OrphanNotInBucket(k: string, b: Bucket, waiters: seq<Status>, home: seq<Home>, d: nat, h: Home)
    requires BucketOK(k, b, waiters, home) && d < |home| && home[d] == Orphan
    ensures BucketOK(k, b, waiters, home[d := h])
  {
  }

  /** Appending an entry under a fresh output key, with its own registered deferred, keeps a bucket well formed. */
  lemma AppendKeepsBucket(inKey: string, b: Bucket, e: Entry, waiters: seq<Status>, home: seq<Home>)
    requires BucketOK(inKey, b, waiters, home)
    requires forall i | 0 <= i < |b| :: b[i].outKey != e.outKey
    requires e.outKey == GetFileKey(e.job.outputPath) && GetFileKey(e.job.inputPath) == inKey
    requires e.deferred < |waiters| && waiters[e.deferred].Pending? && home[e.deferred] == Registered(inKey, e.outKey)
    ensures BucketOK(inKey, b + [e], waiters, home)
  {
  }

  /** Taking the bucket of `inKey` out of the registry leaves the other buckets well formed. */
  lemma TakeKeepsRegistry(reg: Registry, waiters: seq<Status>, home: seq<Home>, inKey: string)
    requires RegistryOK(reg, waiters, home)
    ensures RegistryOK(reg - {inKey}, waiters, Release(home, inKey))
  {
    forall k | k in reg - {inKey} ensures BucketOK(k, reg[k], waiters, Release(home, inKey)) {
      assert BucketOK(k, reg[k], waiters, home);
    }
  }

  /** The entries of a registered bucket hold distinct jobs and distinct pending deferreds, batched once released. */
  lemma TakenBatchOK(reg: Registry, waiters: seq<Status>, home: seq<Home>, inKey: string)
    requires RegistryOK(reg, waiters, home) && inKey in reg
    ensures var jobs := reg[inKey];
      && jobs != [] && DistinctEntries(jobs)
      && (forall i | 0 <= i < |jobs| :: jobs[i].deferred < |waiters| && Release(home, inKey)[jobs[i].deferred] == Batched)
      && forall d | d in DeferredsOf(jobs) ::
           d < |waiters| && waiters[d].Pending? && Release(home, inKey)[d] == Batched
  {
    var jobs := reg[inKey];
    assert BucketOK(inKey, jobs, waiters, home);
  }

  /** Changing only deferreds that are batched leaves every registered deferred pending. */
  lemma ChangedOnlyBatched(reg: Registry, waiters: seq<Status>, waiters': seq<Status>, home: seq<Home>)
    requires RegistryOK(reg, waiters, home) && |waiters'| == |waiters|
    requires forall d | 0 <= d < |waiters| && !home[d].Batched? :: waiters'[d] == waiters[d]
    ensures RegistryOK(reg, waiters', home)
  {
    forall k | k in reg ensures BucketOK(k, reg[k], waiters', home) {
      assert BucketOK(k, reg[k], waiters, home);
    }
  }

  /**
   * `jobs.forEach(({deferred}) => deferred.reject(reason))`: every deferred
   * of the batch that is still pending is rejected; nothing else changes.
   */
  method RejectEach(waiters: seq<Status>, jobs: seq<Entry>, reason: Reason) returns (r: seq<Status>)
    ensures |r| == |waiters|
    ensures forall d | 0 <= d < |r| ::
      r[d] == if d in DeferredsOf(jobs) && waiters[d].Pending? then Rejected(reason) else waiters[d]
  {
    r := waiters;
    var i := 0;
    while i < |jobs|
      invariant 0 <= i <= |jobs| && |r| == |waiters|
      invariant forall d | 0 <= d < |r| ::
        r[d] == if d in DeferredsOf(jobs[..i]) && waiters[d].Pending? then Rejected(reason) else waiters[d]
    {
      assert DeferredsOf(jobs[..i + 1]) == DeferredsOf(jobs[..i]) + {jobs[i].deferred} by {
        assert jobs[..i + 1] == jobs[..i] + [jobs[i]];
      }
      r := Settle(r, jobs[i].deferred, Rejected(reason));
      i := i + 1;
    }
    assert jobs[..i] == jobs;
  }

  /** The scheduler's invariant without its counter clause (which `drain` restores). */
  ghost predicate CoreInv(reg: Registry, queue: seq<Unit>, worker: Worker, waiters: seq<Status>,
                          home: seq<Home>, totalJobs: nat, hasBar: bool)
  {
    && RegistryOK(reg, waiters, home)
    && QueueOK(queue, reg)
    && WorkerOK(worker, home)
    && (totalJobs > 0 ==> hasBar)
  }

  /** The scheduler's invariant: besides `CoreInv`, the counter is zero exactly when the worker is free and nothing is queued. */
  ghost predicate Inv(reg: Registry, queue: seq<Unit>, worker: Worker, waiters: seq<Status>,
                      home: seq<Home>, totalJobs: nat, hasBar: bool)
  {
    CoreInv(reg, queue, worker, waiters, home, totalJobs, hasBar) &&
    (totalJobs == 0 <==> worker.Free? && queue == [])
  }

  /** A submission answered with an existing promise only adds an orphan deferred. */
  lemma ExistingKeepsInv(reg: Registry, queue: seq<Unit>, worker: Worker, waiters: seq<Status>,
                         home: seq<Home>, totalJobs: nat, hasBar: bool)
    requires Inv(reg, queue, worker, waiters, home, totalJobs, hasBar)
    ensures Inv(reg, queue, worker, waiters + [Pending], home + [Orphan], totalJobs, hasBar)
  {
    OrphanKeepsRegistry(reg, waiters, home);
    WorkerOKKept(worker, home, home + [Orphan]);
  }

  /**
   * The invariant between the insertion of a job and the push of its unit:
   * the registry may hold one input key, `inKey`, that no queued unit names.
   */
  ghost predicate InsertedInv(reg: Registry, queue: seq<Unit>, worker: Worker, waiters: seq<Status>,
                              home: seq<Home>, totalJobs: nat, hasBar: bool, inKey: string)
  {
    && RegistryOK(reg, waiters, home)
    && WorkerOK(worker, home)
    && DistinctUnits(queue)
    && QueuedKeys(queue) + {inKey} == reg.Keys
    && (totalJobs > 0 ==> hasBar)
    && (totalJobs == 0 ==> worker.Free? && queue == [])
  }

  /**
   * Inserting a job whose key pair is not registered, with a fresh pending
   * deferred, leaves the state between insertion and push; the job's input
   * had a bucket iff a unit for it is queued.
   */
  lemma InsertKeepsInserted(reg: Registry, queue: seq<Unit>, worker: Worker, waiters: seq<Status>,
                            home: seq<Home>, totalJobs: nat, hasBar: bool, job: Job, d: nat)
    requires Inv(reg, queue, worker, waiters, home, totalJobs, hasBar)
    requires d < |waiters| && waiters[d].Pending? && home[d] == Orphan
    requires Lookup(reg, GetFileKey(job.inputPath), GetFileKey(job.outputPath)).None?
    ensures var inKey, outKey := GetFileKey(job.inputPath), GetFileKey(job.outputPath);
      && InsertedInv(Put(reg, inKey, Entry(outKey, job, d)), queue, worker, waiters,
                     home[d := Registered(inKey, outKey)], totalJobs, hasBar, inKey)
      && (inKey in reg <==> inKey in QueuedKeys(queue))
  {
    var inKey, outKey := GetFileKey(job.inputPath), GetFileKey(job.outputPath);
    PutKeepsRegistry(reg, waiters, home, job, d);
    WorkerOKKept(worker, home, home[d := Registered(inKey, outKey)]);
  }

  /** Counting the job and pushing a unit exactly when none is queued for its input restores the invariant. */
  lemma PushKeepsInv(reg: Registry, queue: seq<Unit>, worker: Worker, waiters: seq<Status>,
                     home: seq<Home>, totalJobs: nat, hasBar: bool, u: Unit, isQueued: bool, queue': seq<Unit>)
    requires InsertedInv(reg, queue, worker, waiters, home, totalJobs, hasBar, u.inKey)
    requires isQueued <==> u.inKey in QueuedKeys(queue)
    requires queue' == if isQueued then queue else queue + [u]
    ensures Inv(reg, queue', worker, waiters, home, totalJobs + 1, true)
  {
    QueuedKeysPush(queue, u);
    if !isQueued {
      QueuedKeysMember(queue, u.inKey);
    }
  }

  /** Settling one output of the running batch keeps the invariant. */
  lemma SettleKeepsInv(reg: Registry, queue: seq<Unit>, b: Batch, waiters: seq<Status>,
                       home: seq<Home>, totalJobs: nat, hasBar: bool, p: nat, outcome: Outcome, next: Worker)
    requires Inv(reg, queue, Running(b), waiters, home, totalJobs, hasBar) && p in b.unsettled
    requires next == Running(b.(unsettled := b.unsettled - {p}, imagesFinished := b.imagesFinished + 1))
    ensures var s := Fate(b.jobs, outcome);
      Inv(reg, queue, next, Settle(waiters, s.deferred, s.status), home, totalJobs, hasBar)
  {
    var s := Fate(b.jobs, outcome);
    var e :| e in b.jobs && e.deferred == s.deferred;
    var j :| 0 <= j < |b.jobs| && b.jobs[j] == e;
    ChangedOnlyBatched(reg, waiters, Settle(waiters, s.deferred, s.status), home);
  }

  /**
   * Taking the head unit's bucket out of the registry, and handing it to
   * the worker as a batch with no promise yet, keeps the invariant.
   */
  lemma TakeKeepsInv(reg: Registry, queue: seq<Unit>, waiters: seq<Status>,
                     home: seq<Home>, totalJobs: nat, hasBar: bool)
    requires Inv(reg, queue, Free, waiters, home, totalJobs, hasBar) && queue != []
    ensures var u := queue[0];
      Inv(reg - {u.inKey}, queue[1..], Running(Batch(u.jobId, u.reportStatus, reg[u.inKey], 0, {}, 0)),
          waiters, Release(home, u.inKey), totalJobs, hasBar)
    ensures reg[queue[0].inKey] != []
    ensures forall d | d in DeferredsOf(reg[queue[0].inKey]) :: d < |waiters| && waiters[d].Pending?
  {
    var k := queue[0].inKey;
    TakenBatchOK(reg, waiters, home, k);
    TakeKeepsRegistry(reg, waiters, home, k);
    QueuedKeysMember(queue[1..], k);
  }

  /** A batch that receives its `n` promises, none settled yet, keeps the invariant. */
  lemma StartKeepsInv(reg: Registry, queue: seq<Unit>, b: Batch, waiters: seq<Status>,
                      home: seq<Home>, totalJobs: nat, hasBar: bool, n: nat)
    requires Inv(reg, queue, Running(b), waiters, home, totalJobs, hasBar)
    requires b.promises == 0 && b.unsettled == {} && b.imagesFinished == 0
    ensures Inv(reg, queue, Running(b.(promises := n, unsettled := Range(n))), waiters, home, totalJobs, hasBar)
  {
  }

  /**
   * A worker that gives up its batch for good, after changing nothing but
   * the batch's deferreds, keeps the invariant.
   */
  lemma AbandonKeepsInv(reg: Registry, queue: seq<Unit>, b: Batch, waiters: seq<Status>, waiters': seq<Status>,
                        home: seq<Home>, totalJobs: nat, hasBar: bool)
    requires Inv(reg, queue, Running(b), waiters, home, totalJobs, hasBar)
    requires |waiters'| == |waiters|
    requires forall d | 0 <= d < |waiters| && d !in DeferredsOf(b.jobs) :: waiters'[d] == waiters[d]
    ensures Inv(reg, queue, Hung, waiters', home, totalJobs, hasBar)
  {
    BatchDeferredsBatched(b, home);
    ChangedOnlyBatched(reg, waiters, waiters', home);
  }

  class Scheduler {
    var toProcess: Registry
    var totalJobs: nat
    var queue: seq<Unit>
    var worker: Worker
    /** The deferreds created so far, by creation order. */
    var waiters: seq<Status>
    var hasBar: bool
    /** Fresh ids for the job tracker. */
    var nextJobId: nat
    var log: seq<Event>
    ghost var home: seq<Home>

    /** The worker is free and nothing is queued. */
    predicate Idle()
      reads this
    {
      worker.Free? && queue == []
    }

    ghost predicate Core()
      reads this
    {
      CoreInv(toProcess, queue, worker, waiters, home, totalJobs, hasBar)
    }

    ghost predicate Valid()
      reads this
    {
      Inv(toProcess, queue, worker, waiters, home, totalJobs, hasBar)
    }

    constructor ()
      ensures Valid() && Idle()
      ensures toProcess == map[] && totalJobs == 0 && waiters == [] && log == [] && !hasBar
    {
      toProcess := map[];
      totalJobs := 0;
      queue := [];
      worker := Free;
      waiters := [];
      hasBar := false;
      nextJobId := 0;
      log := [];
      home := [];
    }

    /** An input key is in the registry iff exactly one unit for it is queued. */
    lemma RegisteredIffOneUnit(k: string)
      requires Valid()
      ensures UnitsFor(queue, k) == if k in toProcess then 1 else 0
    {
      OneUnitPerKey(queue, k);
    }

    /**
     * `setJobToProcess`: the duplicate check, then the on-disk check, then
     * the insertion of `{job, deferred}` at the job's key pair.
     */
    method SetJobToProcess(job: Job, d: nat, outputExists: bool) returns (r: SetResult)
      requires Valid() && d < |waiters| && waiters[d].Pending? && home[d] == Orphan
      modifies this`toProcess, this`home
      ensures r == Decide(old(toProcess), job, outputExists)
      ensures r.Existing? ==> toProcess == old(toProcess) && home == old(home) && Valid()
      ensures r.Existing? && r.promise.Deferred? ==> r.promise.id < |waiters| && waiters[r.promise.id].Pending?
      ensures r.Queued? ==>
        var inKey, outKey := GetFileKey(job.inputPath), GetFileKey(job.outputPath);
        && toProcess == Put(old(toProcess), inKey, Entry(outKey, job, d))
        && home == old(home)[d := Registered(inKey, outKey)]
        && InsertedInv(toProcess, queue, worker, waiters, home, totalJobs, hasBar, inKey)
        && (r.isQueued <==> inKey in QueuedKeys(queue))
    {
      var inKey := GetFileKey(job.inputPath);
      var outKey := GetFileKey(job.outputPath);
      var existing := Lookup(toProcess, inKey, outKey);
      if existing.Some? {
        assert BucketOK(inKey, toProcess[inKey], waiters, home);
        return Existing(Deferred(existing.value.deferred));
      }
      if outputExists {
        return Existing(ResolvedWith(job));
      }
      var isQueued := inKey in toProcess;
      InsertKeepsInserted(toProcess, queue, worker, waiters, home, totalJobs, hasBar, job, d);
      toProcess, home := Put(toProcess, inKey, Entry(outKey, job, d)), home[d := Registered(inKey, outKey)];
      r := Queued(isQueued);
    }

    /** The deferred `scheduleJob` creates first: a new pending waiter that nothing references yet. */
    method NewDeferred() returns (d: nat)
      requires Valid()
      modifies this`waiters, this`home
      ensures Valid()
      ensures d == old(|waiters|) && waiters == old(waiters) + [Pending] && home == old(home) + [Orphan]
    {
      ExistingKeepsInv(toProcess, queue, worker, waiters, home, totalJobs, hasBar);
      d := |waiters|;
      waiters, home := waiters + [Pending], home + [Orphan];
    }

    /**
     * The rest of `scheduleJob` once its job has been inserted: the counter
     * rises by one, starting a progress bar when it was zero, and unless the
     * input already had a queued unit, a job is created for the tracker and
     * a unit is pushed. The registry, the waiters and the worker were
     * consistent before the insertion, which was of a fresh key pair.
     */
    method Enqueue(job: Job, reportStatus: bool, isQueued: bool)
      requires InsertedInv(toProcess, queue, worker, waiters, home, totalJobs, hasBar, GetFileKey(job.inputPath))
      requires isQueued <==> GetFileKey(job.inputPath) in QueuedKeys(queue)
      modifies this`totalJobs, this`hasBar, this`queue, this`log, this`nextJobId
      ensures Valid()
      ensures totalJobs == old(totalJobs) + 1 && hasBar
      ensures nextJobId == old(nextJobId) + (if isQueued then 0 else 1)
      ensures queue == old(queue) + (if isQueued then [] else [Unit(old(nextJobId), GetFileKey(job.inputPath), reportStatus)])
      ensures log == old(log)
        + (if old(totalJobs) == 0 then [BarStart] else [])
        + (if isQueued then [] else [CreateJob(old(nextJobId), JobDescription(job.inputPath), 1)])
    {
      var u := Unit(nextJobId, GetFileKey(job.inputPath), reportStatus);
      var q, l, n := queue, log, nextJobId;
      if totalJobs == 0 {
        l := l + [BarStart];
      }
      if !isQueued {
        l, q, n := l + [CreateJob(n, JobDescription(job.inputPath), 1)], q + [u], n + 1;
      }
      PushKeepsInv(toProcess, queue, worker, waiters, home, totalJobs, hasBar, u, isQueued, q);
      queue, log, nextJobId, hasBar, totalJobs := q, l, n, true, totalJobs + 1;
    }

    /**
     * `scheduleJob`: creates a deferred, then asks `setJobToProcess`. An
     * existing promise is returned as it is; otherwise the job is enqueued
     * and the new deferred's promise is returned.
     */
    method Submit(job: Job, outputExists: bool, reportStatus: bool) returns (p: Promise)
      requires Valid()
      modifies this
      ensures Valid()
      ensures waiters == old(waiters) + [Pending]
      ensures worker == old(worker)
      ensures p.Deferred? ==> p.id < |waiters| && waiters[p.id].Pending?
      ensures match Decide(old(toProcess), job, outputExists)
        case Existing(existing) =>
          && p == existing
          && toProcess == old(toProcess) && queue == old(queue) && totalJobs == old(totalJobs)
          && hasBar == old(hasBar) && log == old(log) && nextJobId == old(nextJobId)
        case Queued(isQueued) =>
          var inKey := GetFileKey(job.inputPath);
          && p == Deferred(old(|waiters|))
          && toProcess == Put(old(toProcess), inKey, Entry(GetFileKey(job.outputPath), job, old(|waiters|)))
          && totalJobs == old(totalJobs) + 1 && hasBar
          && nextJobId == old(nextJobId) + (if isQueued then 0 else 1)
          && (isQueued <==> inKey in old(toProcess))
          && queue == old(queue) + (if isQueued then [] else [Unit(old(nextJobId), inKey, reportStatus)])
          && log == old(log)
               + (if old(totalJobs) == 0 then [BarStart] else [])
               + (if isQueued then [] else [CreateJob(old(nextJobId), JobDescription(job.inputPath), 1)])
    {
      var d := NewDeferred();
      var r := SetJobToProcess(job, d, outputExists);
      if r.Existing? {
        return r.promise;
      }
      Enqueue(job, reportStatus, r.isQueued);
      p := Deferred(d);
    }

    /**
     * The first part of `runJobs`: the worker takes the unit at the head of
     * the queue, reads every entry pending for the unit's input, deletes that
     * input from the registry, and records the batch size and the bar's total.
     */
    method TakeUnit() returns (unit: Unit, jobs: seq<Entry>)
      requires Valid() && worker.Free? && queue != []
      modifies this`log, this`queue, this`toProcess, this`home, this`worker
      ensures Valid()
      ensures unit == old(queue)[0] && jobs == old(toProcess)[unit.inKey] && jobs != []
      ensures queue == old(queue)[1..] && toProcess == old(toProcess) - {unit.inKey}
      ensures log == old(log) + [SetJobImages(unit.jobId, |jobs|), BarTotal(totalJobs)]
      ensures worker == Running(Batch(unit.jobId, unit.reportStatus, jobs, 0, {}, 0))
      ensures forall d | d in DeferredsOf(jobs) :: d < |waiters| && waiters[d].Pending?
    {
      unit := queue[0];
      jobs := toProcess[unit.inKey];
      TakeKeepsInv(toProcess, queue, waiters, home, totalJobs, hasBar);
      log, queue, toProcess, home, worker :=
        log + [SetJobImages(unit.jobId, |jobs|), BarTotal(totalJobs)], queue[1..],
        toProcess - {unit.inKey}, Release(home, unit.inKey),
        Running(Batch(unit.jobId, unit.reportStatus, jobs, 0, {}, 0));
    }

    /**
     * `runJobs`: the unit is taken, then the image processor is called once.
     * If it returns promises, the batch runs; if it throws, every deferred of
     * the batch is rejected with the error and its message, and the worker's
     * callback is never called.
     */
    method RunJobs(call: ProcessCall)
      requires Valid() && worker.Free? && queue != []
      modifies this`log, this`queue, this`toProcess, this`home, this`waiters, this`worker
      ensures Valid()
      ensures SettledOnce(old(waiters), waiters)
      ensures var u := old(queue)[0]; var jobs := old(toProcess)[u.inKey];
        && jobs != []
        && queue == old(queue)[1..]
        && toProcess == old(toProcess) - {u.inKey}
        && log == old(log) + [SetJobImages(u.jobId, |jobs|), BarTotal(old(totalJobs))]
        && (call.Returned? ==>
              && worker == Running(Batch(u.jobId, u.reportStatus, jobs, call.promises, Range(call.promises), 0))
              && waiters == old(waiters))
        && (call.Threw? ==>
              && worker == Hung
              && |waiters| == old(|waiters|)
              && forall d | 0 <= d < |waiters| ::
                   waiters[d] == if d in DeferredsOf(jobs)
                                 then Rejected(Reason(Thrown(call.message), call.message))
                                 else old(waiters)[d])
    {
      var unit, jobs := TakeUnit();
      match call {
        case Returned(n) =>
          StartKeepsInv(toProcess, queue, worker.batch, waiters, home, totalJobs, hasBar, n);
          worker := Running(worker.batch.(promises := n, unsettled := Range(n)));
        case Threw(message) =>
          // `jobs.forEach(({deferred}) => deferred.reject({err, message: err.message}))`
          var ws := RejectEach(waiters, jobs, Reason(Thrown(message), message));
          AbandonKeepsInv(toProcess, queue, worker.batch, waiters, ws, home, totalJobs, hasBar);
          waiters, worker := ws, Hung;
      }
    }

    /**
     * One output's promise chain settles: the deferred chosen by `Fate` is
     * settled, `imagesFinished` rises by one, the bar ticks when the unit
     * reports status, and the tracker is told the new count.
     */
    method SettleOutput(p: nat, outcome: Outcome)
      requires Valid() && worker.Running? && p in worker.batch.unsettled
      modifies this`waiters, this`log, this`worker
      ensures Valid()
      ensures SettledOnce(old(waiters), waiters)
      ensures var b := old(worker.batch); var s := Fate(b.jobs, outcome);
        && worker == Running(b.(unsettled := b.unsettled - {p}, imagesFinished := b.imagesFinished + 1))
        && waiters == Settle(old(waiters), s.deferred, s.status)
        && log == old(log) + (if b.reportStatus then [BarTick] else []) + [SetJobFinished(b.jobId, b.imagesFinished + 1)]
    {
      var b := worker.batch;
      var s := Fate(b.jobs, outcome);
      var ws := Settle(waiters, s.deferred, s.status);
      var finished := b.imagesFinished + 1;
      var next := Running(b.(unsettled := b.unsettled - {p}, imagesFinished := finished));
      SettleKeepsInv(toProcess, queue, b, waiters, home, totalJobs, hasBar, p, outcome, next);
      log, waiters, worker := log + (if b.reportStatus then [BarTick] else []) + [SetJobFinished(b.jobId, finished)], ws, next;
    }

    /**
     * Every output of the running batch has settled: the tracker ends the
     * job, the worker's callback frees the worker, and `drain` follows when
     * no unit is queued.
     */
    method FinishBatch()
      requires Valid() && worker.Running? && worker.batch.unsettled == {}
      modifies this`log, this`worker, this`totalJobs
      ensures Valid()
      ensures old(worker.batch.imagesFinished) == old(worker.batch.promises)
      ensures worker == Free
      ensures old(queue) == [] ==>
        totalJobs == 0 && log == old(log) + [EndJob(old(worker.batch.jobId))] + (if hasBar then [BarDone] else [])
      ensures old(queue) != [] ==>
        totalJobs == old(totalJobs) && log == old(log) + [EndJob(old(worker.batch.jobId))]
    {
      log := log + [EndJob(worker.batch.jobId)];
      worker := Free;
      if queue == [] {
        Drain();
      }
    }

    /**
     * `q.drain`: the bar is told it is done and the counter goes back to
     * zero. The queue calls it only from a worker's callback once nothing is
     * queued, so at least one job has been counted since the last drain.
     */
    method Drain()
      requires Core() && Idle() && totalJobs > 0
      modifies this`totalJobs, this`log
      ensures Valid() && totalJobs == 0
      ensures log == old(log) + (if hasBar then [BarDone] else [])
    {
      if hasBar {
        log := log + [BarDone];
      }
      totalJobs := 0;
    }
  }
}
