# gatsby-plugin-sharp thumbnail scheduler

This project models the scheduler that gatsby-plugin-sharp uses for image-thumbnail
jobs (`packages/gatsby-plugin-sharp/src/scheduler.js`). It also proves properties of
that model.

The scheduler keeps the following state:

- A two-level registry `toProcess`. It maps an escaped input path to the entries
  `{job, deferred}` that are still waiting, one entry per escaped output path.
- A counter `totalJobs`, which sizes the progress bar.
- A first-in first-out queue `q` with a single worker. Each queued unit runs the
  batch of one input.
- The deferred promises handed back to the callers of `scheduleJob`.

`scheduleJob` handles one job in three ways:

- If the escaped (input, output) pair is already registered, it returns that entry's
  promise.
- If the output file exists on disk, it returns a promise already resolved with the job.
- Otherwise it registers the job and counts it. It pushes a unit only when the input
  had no bucket yet.

When a unit runs, `runJobs` does the following:

- It reads every entry pending for its input, then deletes that input from the registry.
- It hands the jobs to the image processor.
- It routes each returned promise's outcome to a deferred.
- When every outcome has arrived, it ends the tracker job and frees the worker.

`q.drain` stops the progress bar and resets the counter.

The model has four modules:

- `FileKeys` holds `getFileKey`, written as a pure function, and an unescaping partner.
- `Waiters` holds the settle-once state of deferreds.
- `Registry` holds the two-level registry as a value and the `setJobToProcess` decision.
- `Scheduler` holds the class `Scheduler`, whose fields are the module state of the
  source. Its methods are the atomic steps that JavaScript's single thread allows:
  - `Submit` is `scheduleJob`;
  - `RunJobs` takes a unit and makes the processor call, which returns or throws;
  - `SettleOutput` settles one output's promise chain;
  - `FinishBatch` runs the `Promise.all` continuation and the worker callback;
  - `Drain` is `q.drain`.

Each method keeps the scheduler invariant `Valid()`:

- Every registered entry sits under its own paths' escaped keys.
- Every registered entry holds a pending deferred that nothing else references.
- An input key is registered iff exactly one not-yet-started unit for it is queued.
- A running batch is non-empty.
- `imagesFinished` plus the number of unsettled outputs equals the number of outputs.
- `totalJobs` is zero exactly when the worker is free and the queue is empty.

The methods' postconditions state the new state in terms of the specification
functions `Decide`, `Put`, `Fate` and `Settle`.

The model follows the code in three places where the code does something unexpected:

- A failed output rejects the deferred of the batch's first entry, not the failing
  job's deferred. The reason's message names the first entry's input.
- A fulfilled output resolves with no value.
- A synchronous throw from the processor rejects every deferred of the batch. It never
  calls `endJob` or the worker callback, so the worker stays busy for good (`Hung`) and
  later units never run.

The model also follows the code in one smaller way. A promise fulfilled with a job that
no entry of the batch holds makes the lookup throw. The rejection handler catches that
throw and rejects the first entry's deferred (`Error.MissingJob`).

## Model

| member | source | states |
|---|---|---|
| FileKeys.GetFileKey | packages/gatsby-plugin-sharp/src/scheduler.js:23 | the key contains no `.` and is longer than the path by two characters per `.` |
| FileKeys.GetFileKeyAppend | packages/gatsby-plugin-sharp/src/scheduler.js:23 | escaping works character by character: the key of `a + b` is the key of `a` followed by the key of `b` |
| FileKeys.GetFileKeyFixedIffNoDot | packages/gatsby-plugin-sharp/src/scheduler.js:23 | a path is its own key iff it contains no `.` |
| FileKeys.GetFileKeyIdempotent | packages/gatsby-plugin-sharp/src/scheduler.js:23 | escaping a key again changes nothing |
| FileKeys.UnescapeGetFileKey | packages/gatsby-plugin-sharp/src/scheduler.js:23 | for paths that do not already contain `%2E`, turning `%2E` back into `.` recovers the path, so every other character is kept |
| FileKeys.GetFileKeyCollision | packages/gatsby-plugin-sharp/src/scheduler.js:23 | the escaping is not injective: `a.b` and `a%2Eb` get the same key |
| Waiters.Settle | packages/gatsby-plugin-sharp/src/scheduler.js:147-155 | resolving or rejecting a deferred changes only that deferred; it changes it only while it is pending, and afterwards it is settled |
| Waiters.FirstSettlementWins | packages/gatsby-plugin-sharp/src/scheduler.js:147-155 | a second settlement of the same deferred has no effect |
| Waiters.SettledOnceTransitive | packages/gatsby-plugin-sharp/src/scheduler.js:147-155 | "settled deferreds stay as they were" composes across steps |
| Registry.Find | packages/gatsby-plugin-sharp/src/scheduler.js:32-33 | the position returned is the first entry under the output key, or the bucket's end when none is |
| Registry.Lookup | packages/gatsby-plugin-sharp/src/scheduler.js:28-34 | an entry is found iff the input key has a bucket holding an entry under the output key; the entry found is one of them |
| Registry.Put | packages/gatsby-plugin-sharp/src/scheduler.js:46-49 | `_.set` at an unregistered key pair adds the input key if missing, leaves every other input's bucket alone, and appends the entry at the end of its input's bucket, keeping the earlier entries |
| Registry.Decide | packages/gatsby-plugin-sharp/src/scheduler.js:28-51 | the three-way decision: an existing promise iff the pair is registered or the output exists; a registered pair yields its own deferred; an unregistered pair whose output exists gets a promise resolved with the job, and only such a pair does; otherwise `isQueued` is true iff the input already has a bucket |
| Registry.PutLookup | packages/gatsby-plugin-sharp/src/scheduler.js:46-49 | inserting at an unregistered key pair makes exactly that pair find the new entry; every other pair finds what it found before |
| Registry.DuplicateBeforeDisk | packages/gatsby-plugin-sharp/src/scheduler.js:32-39 | a registered pair returns its deferred's promise whether or not the output exists on disk, so the duplicate check comes first |
| Registry.SameKeysShareDeferred | packages/gatsby-plugin-sharp/src/scheduler.js:32-49 | once a job is registered, any later job whose paths escape to the same keys gets the first job's deferred back |
| Scheduler.FindJob | packages/gatsby-plugin-sharp/src/scheduler.js:119 | the first entry holding the job, or the end when no entry does |
| Scheduler.Fate | packages/gatsby-plugin-sharp/src/scheduler.js:145-155 | one output settles a deferred of the batch. The deferred is resolved iff the output succeeded with a job of the batch, and then it is that job's deferred. Otherwise the first entry's deferred is rejected, with the first entry's input in the message; the error is the failed promise's own error, or `MissingJob` when a success carries a job the batch does not hold |
| Scheduler.SuccessResolvesOwnWaiter | packages/gatsby-plugin-sharp/src/scheduler.js:147-149 | in a batch of distinct jobs, a success carrying a job resolves exactly that job's deferred |
| Scheduler.SettleOutcomes | packages/gatsby-plugin-sharp/src/scheduler.js:145-171 | settling a batch's outputs in any order keeps every settled deferred as it was |
| Scheduler.LaterWaiterOnlyOwnSuccess | packages/gatsby-plugin-sharp/src/scheduler.js:150-155 | a deferred other than the first entry's is untouched by every outcome except a success carrying its own job, so a failure of its own output leaves it pending |
| Scheduler.AllSucceedResolves | packages/gatsby-plugin-sharp/src/scheduler.js:146-149 | when every output succeeds with a job of the batch, every deferred whose job comes back (and that was not rejected) ends resolved |
| Scheduler.OneUnitPerKey | packages/gatsby-plugin-sharp/src/scheduler.js:83-105 | in a queue of units for distinct inputs, each queued input has exactly one unit and every other input has none |
| Scheduler.RejectEach | packages/gatsby-plugin-sharp/src/scheduler.js:179-184 | exactly the batch's pending deferreds are rejected with the given reason; every other deferred is unchanged |
| Scheduler.PutKeepsRegistry | packages/gatsby-plugin-sharp/src/scheduler.js:46-49 | inserting a job at an unregistered pair, with a fresh pending deferred, keeps every bucket well formed |
| Scheduler.TakeKeepsRegistry | packages/gatsby-plugin-sharp/src/scheduler.js:123 | deleting an input's bucket keeps the other buckets well formed |
| Scheduler.TakenBatchOK | packages/gatsby-plugin-sharp/src/scheduler.js:118-123 | a bucket taken out of the registry is non-empty, holds distinct jobs and distinct deferreds, and all of its deferreds are pending |
| Scheduler.ChangedOnlyBatched | packages/gatsby-plugin-sharp/src/scheduler.js:147-155 | settling only deferreds of a taken batch leaves every registered deferred pending |
| Scheduler.ExistingKeepsInv | packages/gatsby-plugin-sharp/src/scheduler.js:62-75 | the deferred created by a call that returns an existing promise leaves the invariant intact |
| Scheduler.InsertKeepsInserted | packages/gatsby-plugin-sharp/src/scheduler.js:41-51 | after an insertion, the only registered input that may have no queued unit is the new job's input. `isQueued` is true iff that input had a bucket, which holds iff a unit for it is queued |
| Scheduler.PushKeepsInv | packages/gatsby-plugin-sharp/src/scheduler.js:77-105 | counting the job and pushing a unit exactly when none is queued restores the invariant |
| Scheduler.TakeKeepsInv | packages/gatsby-plugin-sharp/src/scheduler.js:118-123 | the worker taking the head unit's bucket out of the registry keeps the invariant. The batch is non-empty and all its deferreds are pending |
| Scheduler.StartKeepsInv | packages/gatsby-plugin-sharp/src/scheduler.js:139-145 | a batch that receives its promises, none settled yet, keeps the invariant |
| Scheduler.SettleKeepsInv | packages/gatsby-plugin-sharp/src/scheduler.js:146-171 | settling one output of the running batch keeps the invariant |
| Scheduler.AbandonKeepsInv | packages/gatsby-plugin-sharp/src/scheduler.js:178-185 | a worker that never calls back, after changing only its batch's deferreds, keeps the invariant |
| Scheduler.Scheduler.constructor | packages/gatsby-plugin-sharp/src/scheduler.js:8-14 | the initial state: empty registry, counter zero, free worker, empty queue, no bar |
| Scheduler.Scheduler.RegisteredIffOneUnit | packages/gatsby-plugin-sharp/src/scheduler.js:83-123 | in every reachable state, an input key is registered iff exactly one not-yet-started unit for it is queued |
| Scheduler.Scheduler.SetJobToProcess | packages/gatsby-plugin-sharp/src/scheduler.js:25-52 | the result is the duplicate check, then the on-disk check, then the insertion. An existing deferred is pending. When a job is inserted, `isQueued` is true iff its input already had a queued unit |
| Scheduler.Scheduler.NewDeferred | packages/gatsby-plugin-sharp/src/scheduler.js:62-66 | a new pending deferred is created on every call and referenced by nothing |
| Scheduler.Scheduler.Enqueue | packages/gatsby-plugin-sharp/src/scheduler.js:77-105 | the counter rises by exactly one. The bar starts only when the counter was zero. A tracker job is created and a unit pushed only when `isQueued` is false, and only then is a fresh tracker id used up (`nextJobId` rises by one). The invariant is restored |
| Scheduler.Scheduler.Submit | packages/gatsby-plugin-sharp/src/scheduler.js:54-108 | a duplicate or existing output returns the existing promise, with registry, counter, queue, bar and log unchanged. Otherwise exactly one entry is inserted, the counter rises by one, and a unit is pushed iff the input had no bucket, with a fresh tracker id (`nextJobId` rises by one exactly then). The returned deferred is pending and the worker is untouched |
| Scheduler.Scheduler.TakeUnit | packages/gatsby-plugin-sharp/src/scheduler.js:118-137 | the head unit is dequeued and its non-empty bucket is removed from the registry and becomes the batch. The tracker gets the batch size and the bar gets the counter as its total |
| Scheduler.Scheduler.RunJobs | packages/gatsby-plugin-sharp/src/scheduler.js:110-186 | a returned call starts a batch with all its outputs unsettled. A throw rejects exactly the batch's deferreds with the error and its message, and leaves the worker hung. Both keep the invariant |
| Scheduler.Scheduler.SettleOutput | packages/gatsby-plugin-sharp/src/scheduler.js:146-171 | one output settles the deferred chosen by `Fate`, `imagesFinished` rises by one whatever the outcome, the bar ticks only when status is reported, and the tracker gets the new count |
| Scheduler.Scheduler.FinishBatch | packages/gatsby-plugin-sharp/src/scheduler.js:174-177 | once every output has settled, `imagesFinished` equals the number of outputs. `endJob` is logged once and the worker is freed. When nothing is queued, `drain` follows |
| Scheduler.Scheduler.Drain | packages/gatsby-plugin-sharp/src/scheduler.js:16-21 | called only when some job has been counted; the bar is told it is done if one exists, and the counter goes back to zero |

## Left out

- The file system: `existsSync(job.outputPath)` is the `outputExists` parameter of `Submit`.
- The image processor (`processFile` and sharp): its outcomes are inputs.
  - The result of the call is a `ProcessCall`: a number of promises, or a throw with a message.
  - Each promise's outcome is passed to `SettleOutput` in whatever order the environment chooses.
  - The link between promise number `p` and a particular job is not modelled; any outcome may arrive for any unsettled promise.
- `uuidv4`: it is replaced by the counter `nextJobId`.
- The `async/queue` machinery, callbacks and Promise objects.
  - The queue is a `seq` of units and the worker is a `Worker` value.
  - A deferred is an index into `waiters`, with a `Status`.
  - The microtask order of `.then` and `.catch` is left out. Only the atomic steps are modelled, and the environment interleaves them.
- `scheduleJob` is `async`, so it returns a promise that adopts the returned one. The model returns the inner promise (`Promise`) directly.
- The progress bar and the Redux actions `createJob`, `setJob` and `endJob`, with `reporter`, `pluginOptions` and the plugin name.
  - The bar and the actions are recorded in the event `log`.
  - `reporter`, `pluginOptions` and the plugin name are left out.
  - So is the content digest passed to the processor.
- Throws from the tracker actions or the bar inside the `try` block are left out. Only a throw from the processor call is modelled.
- lodash's path strings in `_.has`, `_.get` and `_.set` are left out.
  - The registry is a map keyed by the escaped keys directly.
  - Inside lodash's quoted path segment `["…"]`, a `"` in a key ends the segment early.
  - A backslash there is lodash's escape character and is dropped: `["a\\b"]` names the key `ab`. So for a path containing `\` or `"`, `_.has` and `_.set` use a different key from `toProcess[inputFileKey]`, and the inputs `a\bc` and `ab\c` collide under `_.has`/`_.set`.
  - So would a key that names a property of `Object.prototype` (`constructor`, for example), which `toProcess[inputFileKey]` finds truthy.
- The order of a bucket: `_.values` lists a JavaScript object's integer-like keys first.
  - The model keeps insertion order.
  - This only affects which entry counts as the first one, `jobs[0]`.
- Reference equality: `jobs.find(j => j.job === job)` compares objects by identity. A `Job`'s `ident` field stands for that identity: distinct objects carry distinct `ident`s, so comparing `Job` values is comparing identities.
- Scheduler.Scheduler.Submit does not state the ghost bookkeeping of deferred homes. It states the registry, counter, queue, log and deferred that the source changes.
- Scheduler.Scheduler.RunJobs does not state the order in which `forEach` rejects the deferreds. Only the final statuses matter, and rejecting one deferred does not affect another.
