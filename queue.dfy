/**
 * The file-backed enrichment queue: jobs are JSON files that move between the
 * `pending`, `processing`, `done` and `failed` directories under
 * `.hooks-queue`, keyed by file name.
 */
module Queue {
  import opened JsString
  import opened Common
  import opened Types

  datatype JobStatus = Pending | Processing | Done | Failed

  datatype RetryPolicy = RetryPolicy(maxAttempts: int, backoffMs: int)

  /** The defaults `enqueueSessionEnrichment` uses when the environment sets nothing. */
  const DefaultRetryPolicy := RetryPolicy(3, 5000)

  datatype Job = Job(
    id: string,
    createdAt: string,
    updatedAt: string,
    status: JobStatus,
    attempts: int,
    retryPolicy: RetryPolicy,
    payload: SessionSummaryRequest,
    outputSessionPath: string)

  /** A file in `failed`: the job with the `error` field added. */
  datatype FailedJob = FailedJob(job: Job, error: string)

  datatype JobResult = JobResult(id: string, status: JobStatus, error: Option<string>)

  /** The four directories, each a map from file name to content. */
  datatype QueueState = QueueState(
    pending: map<string, Job>,
    processing: map<string, Job>,
    done: map<string, Job>,
    failed: map<string, FailedJob>)

  function FileName(id: string): string { id + ".json" }

  function JsonNames(names: set<string>): set<string> {
    set n | n in names && EndsWith(n, ".json")
  }

  predicate IsLeastIn(n: string, names: set<string>) {
    n in names && forall m :: m in names ==> LexLe(n, m)
  }

  /** There is at most one least name. */
  lemma LeastUnique(a: string, b: string, names: set<string>)
    requires IsLeastIn(a, names) && IsLeastIn(b, names)
    ensures a == b
  {
    LexAntisym(a, b);
  }

  /** Every non-empty set of names has a least one. */
  lemma {:induction false} LeastExists(names: set<string>)
    requires names != {}
    decreases |names|
    ensures exists n :: IsLeastIn(n, names)
  {
    var x :| x in names;
    if names - {x} == {} {
      LexReflexive(x);
      assert names == {x};
      assert IsLeastIn(x, names);
    } else {
      LeastExists(names - {x});
      var b :| IsLeastIn(b, names - {x});
      LeastExtend(names, {x}, b, x);
      assert names - ({x} - {x}) == names;
    }
  }

  /** The first name of the sorted listing, if any. */
  ghost function Least(names: set<string>): (r: Option<string>)
    ensures r.None? <==> names == {}
    ensures r.Some? ==> IsLeastIn(r.value, names)
  {
    if names == {} then None
    else
      LeastExists(names);
      Some(var n :| IsLeastIn(n, names); n)
  }

  /** `names.sort()[0]`, found by one pass over the names. */
  method LeastName(names: set<string>) returns (r: Option<string>)
    ensures r.None? <==> names == {}
    ensures r.Some? ==> IsLeastIn(r.value, names)
  {
    var rest := names;
    r := None;
    while rest != {}
      invariant rest <= names
      invariant r.None? <==> rest == names
      invariant r.Some? ==> IsLeastIn(r.value, names - rest)
      decreases |rest|
    {
      var n :| n in rest;
      if r.None? {
        LeastStart(names, n);
        r := Some(n);
      } else {
        LeastExtend(names, rest, r.value, n);
        if !LexLe(r.value, n) {
          r := Some(n);
        }
      }
      rest := rest - {n};
    }
    assert names - rest == names;
  }

  lemma LeastStart(names: set<string>, n: string)
    requires n in names
    ensures IsLeastIn(n, names - (names - {n}))
  {
    LexReflexive(n);
    assert names - (names - {n}) == {n};
  }

  /** Comparing the least name so far with one more name gives the least of both. */
  lemma LeastExtend(names: set<string>, rest: set<string>, best: string, n: string)
    requires IsLeastIn(best, names - rest) && n in rest && rest <= names
    ensures IsLeastIn(if LexLe(best, n) then best else n, names - (rest - {n}))
  {
    assert names - (rest - {n}) == (names - rest) + {n};
    LexReflexive(n);
    LexTotal(n, best);
    if !LexLe(best, n) {
      forall m | m in names - rest
        ensures LexLe(n, m)
      {
        LexTrans(n, best, m);
      }
    }
  }

  lemma {:induction false} LexReflexive(a: string)
    decreases |a|
    ensures LexLe(a, a)
  {
    if a != [] {
      LexReflexive(a[1..]);
    }
  }

  // ------------------------------------------------------------ transitions

  /** The job id: the enqueue time, a dash, and the title's 24-character slug or `job`. */
  function JobId(nowMs: nat, title: string): (r: string)
    ensures r == NatToString(nowMs) + "-" + (if Slugify(title, 24) != [] then Slugify(title, 24) else "job")
  {
    var slug := Slugify(title, 24);
    NatToString(nowMs) + "-" + (if slug != [] then slug else "job")
  }

  function Enqueued(q: QueueState, id: string, nowIso: string, retryPolicy: RetryPolicy,
                    payload: SessionSummaryRequest, outputSessionPath: string): QueueState
  {
    q.(pending := q.pending[FileName(id) := Job(id, nowIso, nowIso, Pending, 0, retryPolicy, payload, outputSessionPath)])
  }

  /** The claimed job as written back to `processing`. */
  function ClaimedJob(job: Job, nowIso: string): Job {
    job.(status := Processing, attempts := job.attempts + 1, updatedAt := nowIso)
  }

  function Claimed(q: QueueState, name: string, nowIso: string): QueueState
    requires name in q.pending
  {
    q.(pending := q.pending - {name},
       processing := q.processing[name := ClaimedJob(q.pending[name], nowIso)])
  }

  /** The name `claimNextJob` takes: the first `.json` file of `pending` in sorted order. */
  ghost function NextName(q: QueueState): (r: Option<string>)
    ensures r.None? <==> JsonNames(q.pending.Keys) == {}
    ensures r.Some? ==> (r.value in q.pending && EndsWith(r.value, ".json") &&
                         forall m :: m in q.pending && EndsWith(m, ".json") ==> LexLe(r.value, m))
  {
    Least(JsonNames(q.pending.Keys))
  }

  /** What `claimNextJob` returns. */
  ghost function ClaimResult(q: QueueState, nowIso: string): (r: Option<Job>)
    ensures r.None? <==> JsonNames(q.pending.Keys) == {}
    ensures r.Some? ==> (r.value.status == Processing &&
                         exists name :: name in q.pending && r.value.attempts == q.pending[name].attempts + 1)
  {
    match NextName(q)
    case None => None
    case Some(name) => Some(ClaimedJob(q.pending[name], nowIso))
  }

  /** The directories after `claimNextJob`. */
  ghost function AfterClaim(q: QueueState, nowIso: string): (r: QueueState)
    ensures JsonNames(q.pending.Keys) == {} ==> r == q
    ensures r.done == q.done && r.failed == q.failed
  {
    match NextName(q)
    case None => q
    case Some(name) => Claimed(q, name, nowIso)
  }

  /** `result.error || 'unknown'` */
  function ErrorText(error: Option<string>): (r: string)
    ensures r != []
  {
    if error.Some? && error.value != [] then error.value else "unknown"
  }

  function Finalized(q: QueueState, job: Job, result: JobResult, nowIso: string): QueueState {
    var current := FileName(job.id);
    if result.status == Done then
      q.(done := q.done[current := job.(status := Done, updatedAt := nowIso)],
         processing := q.processing - {current})
    else if job.attempts < job.retryPolicy.maxAttempts then
      q.(pending := q.pending[current := job.(status := Pending, updatedAt := nowIso)],
         processing := q.processing - {current})
    else
      q.(failed := q.failed[current := FailedJob(job.(status := Failed, updatedAt := nowIso), ErrorText(result.error))],
         processing := q.processing - {current})
  }

  // ------------------------------------------------------------ the directories

  class JobQueue {
    var pending: map<string, Job>
    var processing: map<string, Job>
    var done: map<string, Job>
    var failed: map<string, FailedJob>

    function State(): QueueState
      reads this
    {
      QueueState(pending, processing, done, failed)
    }

    constructor (q: QueueState)
      ensures State() == q
    {
      pending := q.pending;
      processing := q.processing;
      done := q.done;
      failed := q.failed;
    }

    /** `enqueueJob(vaultPath, job)` at time `nowMs` (ISO form `nowIso`). */
    method EnqueueJob(nowMs: nat, nowIso: string, retryPolicy: RetryPolicy,
                      payload: SessionSummaryRequest, outputSessionPath: string) returns (id: string)
      modifies this
      ensures id == JobId(nowMs, payload.title)
      ensures State() == Enqueued(old(State()), id, nowIso, retryPolicy, payload, outputSessionPath)
    {
      var slug := Slugify(payload.title, 24);
      id := NatToString(nowMs) + "-" + (if slug != [] then slug else "job");
      var fullJob := Job(id, nowIso, nowIso, Pending, 0, retryPolicy, payload, outputSessionPath);
      pending := pending[FileName(id) := fullJob];
    }

    /** `claimNextJob(vaultPath)`: moves the first `.json` file of `pending` to `processing`. */
    method ClaimNextJob(nowIso: string) returns (job: Option<Job>)
      modifies this
      ensures job == ClaimResult(old(State()), nowIso)
      ensures State() == AfterClaim(old(State()), nowIso)
    {
      var first := LeastName(JsonNames(pending.Keys));
      if first.None? {
        return None;
      }
      var name := first.value;
      LeastUnique(name, Least(JsonNames(pending.Keys)).value, JsonNames(pending.Keys));
      var claimed := pending[name];
      pending := pending - {name};
      processing := processing[name := claimed];
      claimed := claimed.(status := Processing);
      claimed := claimed.(attempts := claimed.attempts + 1);
      claimed := claimed.(updatedAt := nowIso);
      processing := processing[name := claimed];
      return Some(claimed);
    }

    /** `finalizeJob(vaultPath, job, result)`; `backoffMs` plays no part. */
    method FinalizeJob(job: Job, result: JobResult, nowIso: string)
      modifies this
      ensures State() == Finalized(old(State()), job, result, nowIso)
    {
      var current := FileName(job.id);
      if result.status == Done {
        done := done[current := job.(status := Done, updatedAt := nowIso)];
        if current in processing {
          processing := processing - {current};
        }
        return;
      }
      if job.attempts < job.retryPolicy.maxAttempts {
        pending := pending[current := job.(status := Pending, updatedAt := nowIso)];
        if current in processing {
          processing := processing - {current};
        }
        return;
      }
      var error := if result.error.Some? && result.error.value != [] then result.error.value else "unknown";
      failed := failed[current := FailedJob(job.(status := Failed, updatedAt := nowIso), error)];
      if current in processing {
        processing := processing - {current};
      }
    }
  }

  // ------------------------------------------------------------ invariants

  /** Every file is named after the job it holds. */
  predicate Named(q: QueueState) {
    (forall k :: k in q.pending ==> k == FileName(q.pending[k].id)) &&
    (forall k :: k in q.processing ==> k == FileName(q.processing[k].id)) &&
    (forall k :: k in q.done ==> k == FileName(q.done[k].id)) &&
    (forall k :: k in q.failed ==> k == FileName(q.failed[k].job.id))
  }

  /** No file name is in two directories at once. */
  predicate Disjoint(q: QueueState) {
    q.pending.Keys !! q.processing.Keys && q.pending.Keys !! q.done.Keys && q.pending.Keys !! q.failed.Keys &&
    q.processing.Keys !! q.done.Keys && q.processing.Keys !! q.failed.Keys && q.done.Keys !! q.failed.Keys
  }

  predicate Valid(q: QueueState) { Named(q) && Disjoint(q) }

  /** Enqueueing a fresh id keeps every job in exactly one directory under its own name. */
  lemma EnqueuePreservesValid(q: QueueState, id: string, nowIso: string, retryPolicy: RetryPolicy,
                              payload: SessionSummaryRequest, outputSessionPath: string)
    requires Valid(q)
    requires FileName(id) !in q.processing && FileName(id) !in q.done && FileName(id) !in q.failed
    ensures Valid(Enqueued(q, id, nowIso, retryPolicy, payload, outputSessionPath))
    ensures var job := Enqueued(q, id, nowIso, retryPolicy, payload, outputSessionPath).pending[FileName(id)];
      job.id == id && job.status == Pending && job.attempts == 0 && job.createdAt == job.updatedAt == nowIso
  {
  }

  lemma ClaimPreservesValid(q: QueueState, name: string, nowIso: string)
    requires Valid(q) && name in q.pending
    ensures Valid(Claimed(q, name, nowIso))
    ensures name !in Claimed(q, name, nowIso).pending
  {
  }

  /**
   * Finalizing the job of a processing file moves it to exactly one of `done`, `pending` or
   * `failed` and it leaves `processing`.
   */
  lemma FinalizePreservesValid(q: QueueState, job: Job, result: JobResult, nowIso: string)
    requires Valid(q) && FileName(job.id) in q.processing && q.processing[FileName(job.id)].id == job.id
    ensures Valid(Finalized(q, job, result, nowIso))
    ensures FileName(job.id) !in Finalized(q, job, result, nowIso).processing
  {
    var current := FileName(job.id);
    if result.status == Done {
      MoveToDone(q, current, job.(status := Done, updatedAt := nowIso));
    } else if job.attempts < job.retryPolicy.maxAttempts {
      MoveToPending(q, current, job.(status := Pending, updatedAt := nowIso));
    } else {
      MoveToFailed(q, current, FailedJob(job.(status := Failed, updatedAt := nowIso), ErrorText(result.error)));
    }
  }

  lemma MoveToDone(q: QueueState, name: string, job: Job)
    requires Valid(q) && name in q.processing && name == FileName(job.id)
    ensures Valid(q.(done := q.done[name := job], processing := q.processing - {name}))
  {
  }

  lemma MoveToPending(q: QueueState, name: string, job: Job)
    requires Valid(q) && name in q.processing && name == FileName(job.id)
    ensures Valid(q.(pending := q.pending[name := job], processing := q.processing - {name}))
  {
  }

  lemma MoveToFailed(q: QueueState, name: string, job: FailedJob)
    requires Valid(q) && name in q.processing && name == FileName(job.job.id)
    ensures Valid(q.(failed := q.failed[name := job], processing := q.processing - {name}))
  {
  }

  /** A retried job goes back as pending with its attempts unchanged, so it is claimable at once. */
  lemma RetryIsImmediate(q: QueueState, job: Job, result: JobResult, nowIso: string)
    requires result.status != Done && job.attempts < job.retryPolicy.maxAttempts
    ensures var q2 := Finalized(q, job, result, nowIso);
      FileName(job.id) in q2.pending && q2.pending[FileName(job.id)].attempts == job.attempts &&
      q2.pending[FileName(job.id)].status == Pending
  {
  }

  /** A job whose attempts reached the maximum fails with the given error, or `unknown`. */
  lemma ExhaustedJobFails(q: QueueState, job: Job, result: JobResult, nowIso: string)
    requires result.status != Done && job.attempts >= job.retryPolicy.maxAttempts
    ensures var q2 := Finalized(q, job, result, nowIso);
      FileName(job.id) in q2.failed && q2.failed[FileName(job.id)].error == ErrorText(result.error) &&
      q2.pending == q.pending && q2.done == q.done
  {
  }

  /**
   * Claims count attempts: a fresh job that has been claimed `n` times carries `n` attempts, so
   * once `n` reaches `maxAttempts` a failed run sends it to `failed` instead of `pending`.
   */
  lemma {:induction false} RetriesAreBounded(q: QueueState, job: Job, n: nat, result: JobResult, nowIso: string)
    requires job.attempts == 0 && result.status != Done
    ensures ClaimN(job, n, nowIso).attempts == n
    ensures n >= job.retryPolicy.maxAttempts ==>
      FileName(job.id) in Finalized(q, ClaimN(job, n, nowIso), result, nowIso).failed
    ensures n < job.retryPolicy.maxAttempts ==>
      FileName(job.id) in Finalized(q, ClaimN(job, n, nowIso), result, nowIso).pending
  {
    if n > 0 {
      RetriesAreBounded(q, job, n - 1, result, nowIso);
    }
    ClaimNKeeps(job, n, nowIso);
  }

  lemma {:induction false} ClaimNKeeps(job: Job, n: nat, nowIso: string)
    ensures ClaimN(job, n, nowIso).id == job.id && ClaimN(job, n, nowIso).retryPolicy == job.retryPolicy
  {
    if n > 0 {
      ClaimNKeeps(job, n - 1, nowIso);
    }
  }

  /** A job claimed `n` times. */
  function ClaimN(job: Job, n: nat, nowIso: string): Job {
    if n == 0 then job else ClaimedJob(ClaimN(job, n - 1, nowIso), nowIso)
  }
}
