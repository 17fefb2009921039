/**
 * The enrichment worker: one `runOnce` claims the next queued job, runs session
 * intelligence on it, stores the result and finalizes the job; `main` repeats
 * this while run-forever is on.
 */
module Worker {
  import opened JsString
  import opened Types
  import opened Queue
  import VaultIndex

  /** What `runSessionIntelligence` (and the results write after it) did: returned, or threw. */
  datatype RunOutcome = Enriched(enrichment: SessionEnrichment) | Threw(message: string)

  /** `job.outputSessionPath.split('/').pop() || 'unknown-session.md'` */
  function SourceSessionFilename(outputSessionPath: string): (r: string)
    ensures r != []
    ensures EndsInSlash(outputSessionPath) ==> r == "unknown-session.md"
    ensures !EndsInSlash(outputSessionPath) ==> IsLastSegment(outputSessionPath, r)
  {
    LastSegmentShape(outputSessionPath);
    var last := VaultIndex.LastSegment(outputSessionPath);
    if last != [] then last else "unknown-session.md"
  }

  /** The last segment of a path is empty exactly when the path ends in '/', and otherwise is the text after the last '/'. */
  lemma LastSegmentShape(p: string)
    ensures var last := VaultIndex.LastSegment(p);
      (last == [] <==> EndsInSlash(p)) && (last != [] ==> IsLastSegment(p, last))
  {
    var last := VaultIndex.LastSegment(p);
    LastPieceIsSuffix(p, "/");
    LastPieceFollowsSep(p, "/");
    if last != [] {
      NoSlashChars(last);
      SegmentAfterSep(p, last);
      assert p[|p| - 1] == last[|last| - 1];
    } else if p != [] {
      assert p[..|p|] == p;
    }
  }

  /** A non-empty suffix that is the whole path or follows a "/" starts right after a '/' or at the start. */
  lemma SegmentAfterSep(p: string, last: string)
    requires last != [] && AfterLastSep(p, last, "/")
    ensures |last| == |p| || p[|p| - |last| - 1] == '/'
  {
    if |last| < |p| {
      var n := |p| - |last|;
      assert p[..n][n - 1..] == "/";
    }
  }

  /** The path is empty or its last character is '/': its last segment is empty. */
  predicate EndsInSlash(p: string) {
    p == [] || p[|p| - 1] == '/'
  }

  /** `name` is the non-empty text after the last '/' of `p` (or all of `p` when it has none). */
  predicate IsLastSegment(p: string, name: string) {
    name != [] && |name| <= |p| && name == p[|p| - |name|..] &&
    (|name| == |p| || p[|p| - |name| - 1] == '/') &&
    forall i :: 0 <= i < |name| ==> name[i] != '/'
  }

  /** A text without the substring "/" has no '/' character. */
  lemma NoSlashChars(x: string)
    requires !Contains(x, "/")
    ensures forall i :: 0 <= i < |x| ==> x[i] != '/'
  {
    forall i | 0 <= i < |x| ensures x[i] != '/' {
      assert !OccursAt(x, "/", i);
      assert x[i..i + 1] == [x[i]];
    }
  }

  /** `last` is the whole of `s`, or a suffix of it right after a separator. */
  predicate AfterLastSep(s: string, last: string, sep: string) {
    |last| <= |s| && (|last| == |s| || EndsWith(s[..|s| - |last|], sep))
  }

  /** The last piece of a split is the whole text or comes right after a separator. */
  lemma {:induction false} LastPieceFollowsSep(s: string, sep: string)
    requires sep != []
    decreases |s|
    ensures var parts := SplitOn(s, sep); AfterLastSep(s, parts[|parts| - 1], sep)
  {
    var k := SplitOnLastCases(s, sep);
    if k > 0 {
      LastPieceFollowsSep(s[k..], sep);
      var tail := SplitOn(s[k..], sep);
      AfterSepOrWhole(s, k, tail[|tail| - 1], sep);
    }
  }

  /** The step of `LastPieceFollowsSep`: what follows a separator ending at `k` in `s`. */
  lemma AfterSepOrWhole(s: string, k: nat, last: string, sep: string)
    requires |sep| <= k <= |s| && s[k - |sep|..k] == sep
    requires AfterLastSep(s[k..], last, sep)
    ensures AfterLastSep(s, last, sep)
  {
    if |last| == |s| - k {
      EndsWithAt(s, k, sep);
    } else {
      EndsWithLift(s, k, |s| - k - |last|, sep);
    }
  }

  lemma EndsWithAt(s: string, k: nat, sep: string)
    requires |sep| <= k <= |s| && s[k - |sep|..k] == sep
    ensures EndsWith(s[..k], sep)
  {
    assert s[..k][k - |sep|..] == s[k - |sep|..k];
  }

  lemma EndsWithLift(s: string, k: nat, m: nat, sep: string)
    requires k + m <= |s| && EndsWith(s[k..][..m], sep)
    ensures EndsWith(s[..k + m], sep)
  {
    assert s[k..][..m][m - |sep|..] == s[..k + m][k + m - |sep|..];
  }

  /** The last piece of a split is the text after the last separator. */
  lemma LastPieceIsSuffix(s: string, sep: string)
    requires sep != []
    ensures var parts := SplitOn(s, sep);
      EndsWith(s, parts[|parts| - 1]) && !Contains(parts[|parts| - 1], sep)
  {
    SplitOnPiecesFree(s, sep);
    LastPieceEndsText(s, sep);
  }

  lemma {:induction false} LastPieceEndsText(s: string, sep: string)
    requires sep != []
    decreases |s|
    ensures var parts := SplitOn(s, sep); EndsWith(s, parts[|parts| - 1])
  {
    var k := SplitOnLastCases(s, sep);
    if k > 0 {
      LastPieceEndsText(s[k..], sep);
      var tail := SplitOn(s[k..], sep);
      EndsWithSuffix(s, k, tail[|tail| - 1]);
    } else {
      assert s[|s| - |s|..] == s;
    }
  }

  /** Putting an element in front does not change the last one. */
  lemma LastOfCons<T>(h: T, t: seq<T>)
    requires t != []
    ensures ([h] + t)[|t|] == t[|t| - 1]
  {
  }

  /** Either `s` holds no separator and is its only piece, or its last piece is that of the text after the first one. */
  lemma SplitOnLastCases(s: string, sep: string) returns (k: nat)
    requires sep != []
    ensures k <= |s|
    ensures k > 0 ==> k >= |sep| && s[k - |sep|..k] == sep
    ensures k == 0 ==> SplitOn(s, sep) == [s]
    ensures k > 0 ==> var parts, tail := SplitOn(s, sep), SplitOn(s[k..], sep); parts[|parts| - 1] == tail[|tail| - 1]
  {
    var i := IndexOf(s, sep);
    if i >= 0 {
      k := i + |sep|;
      SplitOnStep(s, sep, i);
      LastOfCons(s[..i], SplitOn(s[k..], sep));
    } else {
      k := 0;
      assert !Contains(s, sep);
    }
  }

  /** A bare file name is its own source filename. */
  lemma PlainNameIsKept(name: string)
    requires name != [] && !Contains(name, "/")
    ensures SourceSessionFilename(name) == name
  {
  }

  /** `error?.message || 'worker error'` */
  function WorkerError(message: string): (r: string)
    ensures r != []
    ensures message != [] ==> r == message
    ensures message == [] ==> r == "worker error"
  {
    if message != [] then message else "worker error"
  }

  /** The queue, the results directory and whether a job was found, after one `runOnce`. */
  datatype StepResult = StepResult(queue: QueueState, results: map<string, SessionEnrichment>, hadJob: bool)

  ghost function Step(q: QueueState, results: map<string, SessionEnrichment>,
                      run: (SessionSummaryRequest, string) -> RunOutcome, nowIso: string): (r: StepResult)
    ensures !r.hadJob <==> JsonNames(q.pending.Keys) == {}
    ensures !r.hadJob ==> r.queue == q && r.results == results
  {
    match ClaimResult(q, nowIso)
    case None => StepResult(q, results, false)
    case Some(job) =>
      var claimed := AfterClaim(q, nowIso);
      match run(job.payload, SourceSessionFilename(job.outputSessionPath))
      case Enriched(e) =>
        StepResult(Finalized(claimed, job, JobResult(job.id, Done, None), nowIso), results[FileName(job.id) := e], true)
      case Threw(message) =>
        StepResult(Finalized(claimed, job, JobResult(job.id, Failed, Some(WorkerError(message))), nowIso), results, true)
  }

  /** The queue and the results after `k` polls; `hadJob` is the last poll's. */
  ghost function Polled(q: QueueState, results: map<string, SessionEnrichment>,
                        run: (SessionSummaryRequest, string) -> RunOutcome, nowIso: string, k: nat): StepResult
  {
    if k == 0 then StepResult(q, results, false)
    else
      var before := Polled(q, results, run, nowIso, k - 1);
      Step(before.queue, before.results, run, nowIso)
  }

  /** Polling any number of times keeps every job in exactly one directory, named after it. */
  lemma {:induction false} PolledPreservesValid(q: QueueState, results: map<string, SessionEnrichment>,
                                                run: (SessionSummaryRequest, string) -> RunOutcome, nowIso: string,
                                                k: nat)
    requires Valid(q)
    ensures Valid(Polled(q, results, run, nowIso, k).queue)
  {
    if k > 0 {
      PolledPreservesValid(q, results, run, nowIso, k - 1);
      var before := Polled(q, results, run, nowIso, k - 1);
      StepPreservesValid(before.queue, before.results, run, nowIso);
    }
  }

  /** Once a poll finds no pending job, later polls change nothing. */
  lemma {:induction false} IdlePollsChangeNothing(q: QueueState, results: map<string, SessionEnrichment>,
                                                  run: (SessionSummaryRequest, string) -> RunOutcome, nowIso: string,
                                                  k: nat, m: nat)
    requires 1 <= k <= m && !Polled(q, results, run, nowIso, k).hadJob
    ensures Polled(q, results, run, nowIso, m).queue == Polled(q, results, run, nowIso, k).queue
    ensures Polled(q, results, run, nowIso, m).results == Polled(q, results, run, nowIso, k).results
    decreases m
  {
    if m > k {
      IdlePollsChangeNothing(q, results, run, nowIso, k, m - 1);
    }
  }

  /** `(QUEUE_RUN_FOREVER || 'true').toLowerCase() !== 'false'` */
  function RunForever(env: Option<string>): (r: bool)
    ensures r <==> !(env.Some? && env.value != [] && ToLower(env.value) == "false")
    ensures env.None? || env == Some([]) ==> r
    ensures env == Some("false") || env == Some("FALSE") ==> !r
  {
    var value := if env.Some? && env.value != [] then env.value else "true";
    ToLower(value) != "false"
  }

  class EnrichmentWorker {
    const queue: JobQueue
    /** `results/<id>.json` under the queue directory. */
    var results: map<string, SessionEnrichment>

    constructor (queue: JobQueue)
      ensures this.queue == queue && results == map[]
    {
      this.queue := queue;
      results := map[];
    }

    /** `runOnce()` */
    method RunOnce(run: (SessionSummaryRequest, string) -> RunOutcome, nowIso: string) returns (hadJob: bool)
      modifies this, queue
      ensures Step(old(queue.State()), old(results), run, nowIso) == StepResult(queue.State(), results, hadJob)
    {
      var job := queue.ClaimNextJob(nowIso);
      if job.None? {
        return false;
      }
      var claimed := job.value;
      match run(claimed.payload, SourceSessionFilename(claimed.outputSessionPath)) {
        case Enriched(e) =>
          results := results[FileName(claimed.id) := e];
          queue.FinalizeJob(claimed, JobResult(claimed.id, Done, None), nowIso);
        case Threw(message) =>
          var error := WorkerError(message);
          queue.FinalizeJob(claimed, JobResult(claimed.id, Failed, Some(error)), nowIso);
      }
      return true;
    }

    /**
     * `main()`: with run-forever off the body runs once; with it on the loop never ends by
     * itself, so `maxPolls` bounds the number of polls modelled (at least one).
     */
    method RunWorker(env: Option<string>, maxPolls: nat, run: (SessionSummaryRequest, string) -> RunOutcome,
                nowIso: string) returns (polls: nat)
      modifies this, queue
      ensures !RunForever(env) ==> polls == 1 && queue.State() == Step(old(queue.State()), old(results), run, nowIso).queue &&
                                   results == Step(old(queue.State()), old(results), run, nowIso).results
      ensures RunForever(env) ==>
                polls == Max(maxPolls, 1) &&
                queue.State() == Polled(old(queue.State()), old(results), run, nowIso, polls).queue &&
                results == Polled(old(queue.State()), old(results), run, nowIso, polls).results
      ensures Valid(old(queue.State())) ==> Valid(queue.State())
    {
      var runForever := RunForever(env);
      ghost var before, resultsBefore := queue.State(), results;
      var hadJob := RunOnce(run, nowIso);
      if Valid(before) {
        StepPreservesValid(before, resultsBefore, run, nowIso);
      }
      polls := 1;
      if !runForever {
        return;
      }
      while polls < maxPolls
        invariant 1 <= polls <= Max(maxPolls, 1)
        invariant queue.State() == Polled(old(queue.State()), old(results), run, nowIso, polls).queue
        invariant results == Polled(old(queue.State()), old(results), run, nowIso, polls).results
        invariant Valid(old(queue.State())) ==> Valid(queue.State())
      {
        before, resultsBefore := queue.State(), results;
        hadJob := RunOnce(run, nowIso);
        if Valid(before) {
          StepPreservesValid(before, resultsBefore, run, nowIso);
        }
        polls := polls + 1;
      }
    }
  }

  /** One `runOnce` keeps every job in exactly one directory, named after it. */
  lemma StepPreservesValid(q: QueueState, results: map<string, SessionEnrichment>,
                           run: (SessionSummaryRequest, string) -> RunOutcome, nowIso: string)
    requires Valid(q)
    ensures Valid(Step(q, results, run, nowIso).queue)
  {
    match NextName(q)
    case None =>
    case Some(name) =>
      var job := ClaimedJob(q.pending[name], nowIso);
      ClaimPreservesValid(q, name, nowIso);
      var claimed := Claimed(q, name, nowIso);
      assert name == FileName(job.id);
      assert claimed.processing[name] == job;
      var result := match run(job.payload, SourceSessionFilename(job.outputSessionPath))
        case Enriched(_) => JobResult(job.id, Done, None)
        case Threw(message) => JobResult(job.id, Failed, Some(WorkerError(message)));
      FinalizePreservesValid(claimed, job, result, nowIso);
      assert Step(q, results, run, nowIso).queue == Finalized(claimed, job, result, nowIso);
  }

  /**
   * The claimed job's fate: an enrichment is stored under the job id and the job is done; a
   * throw fails the run with the thrown message (or `worker error`), and `finalizeJob` alone
   * decides between another attempt and `failed`.
   */
  lemma StepOutcome(q: QueueState, results: map<string, SessionEnrichment>,
                    run: (SessionSummaryRequest, string) -> RunOutcome, nowIso: string)
    requires Valid(q) && NextName(q).Some?
    ensures var name := NextName(q).value;
      var job := ClaimedJob(q.pending[name], nowIso);
      var r := Step(q, results, run, nowIso);
      var outcome := run(job.payload, SourceSessionFilename(job.outputSessionPath));
      name == FileName(job.id) && name !in r.queue.processing &&
      (outcome.Enriched? ==> name in r.queue.done && name in r.results && r.results[name] == outcome.enrichment) &&
      (outcome.Threw? ==> (r.results == results &&
                           (job.attempts < job.retryPolicy.maxAttempts ==> name in r.queue.pending) &&
                           (job.attempts >= job.retryPolicy.maxAttempts ==>
                              name in r.queue.failed && r.queue.failed[name].error == WorkerError(outcome.message))))
  {
    var name := NextName(q).value;
    assert name == FileName(q.pending[name].id);
  }
}
