/**
 * The daily extraction run: read the configuration from the environment,
 * take the run lock, read or create the watermark, pick the sessions that
 * are new since the watermark, process each one (duplicate test, knowledge
 * extraction, significance threshold, session and knowledge notes), record
 * every processed session in the watermark, build the digests of the days
 * with two or more processed sessions, persist the watermark and release
 * the lock.
 *
 * Discovery, the vault index, the extraction of one session, the session
 * and digest note writers and the clock come in as parameters; the models
 * of discovery, of the index and of the extraction are in their own modules.
 */
module DailyExtract {
  import opened JsString
  import opened Json
  import opened Types
  import opened Common
  import opened Discovery
  import opened Sorting
  import opened Extract
  import Watermark
  import VaultIndex
  import Similarity
  import KnowledgeWriter
  import Lock

  // ------------------------------------------------------------------ config

  const VaultVariable := "OBSIDIAN_VAULT"
  const DryRunVariable := "PIPELINE_DRY_RUN"
  const BackfillVariable := "PIPELINE_BACKFILL_DAYS"
  const MaxSessionsVariable := "PIPELINE_MAX_SESSIONS"
  const DelayVariable := "PIPELINE_LLM_DELAY_MS"
  const TimeoutVariable := "PIPELINE_LLM_TIMEOUT_MS"
  const SignificanceVariable := "PIPELINE_SIGNIFICANCE_THRESHOLD"
  const ConfidenceVariable := "PIPELINE_KNOWLEDGE_CONFIDENCE"
  const AutoCommitVariable := "PIPELINE_AUTO_COMMIT"
  const StateDirName := ".pipeline-state"

  /** `~/personal/cortana-obsidian` */
  function DefaultVaultPath(home: string): string {
    PathJoin(PathJoin(home, "personal"), "cortana-obsidian")
  }

  datatype PipelineConfig = PipelineConfig(
    vaultPath: string,
    stateDir: string,
    dryRun: bool,
    backfillDays: real,
    maxSessions: real,
    llmDelayMs: real,
    llmTimeoutMs: real,
    significanceThreshold: real,
    knowledgeConfidence: real,
    autoCommit: bool)

  /** A numeric setting is the number its variable holds when that is a non-zero number, and its default otherwise. */
  predicate Configured(env: Env, name: string, toNumber: string -> Option<real>, default: real, value: real) {
    if name in env && toNumber(env[name]).Some? && toNumber(env[name]).value != 0.0
    then value == toNumber(env[name]).value
    else value == default
  }

  /** `parseConfig()`; `toNumber` is `Number` on a string (`None` for NaN). */
  function ParseConfig(env: Env, home: string, toNumber: string -> Option<real>): (r: PipelineConfig)
    ensures r.vaultPath == EnvOr(env, VaultVariable, DefaultVaultPath(home))
    ensures r.stateDir == PathJoin(r.vaultPath, StateDirName)
    ensures r.dryRun <==> DryRunVariable in env && env[DryRunVariable] == "true"
    ensures r.autoCommit <==> AutoCommitVariable in env && env[AutoCommitVariable] == "true"
    ensures Configured(env, BackfillVariable, toNumber, 1.0, r.backfillDays)
    ensures Configured(env, MaxSessionsVariable, toNumber, 50.0, r.maxSessions)
    ensures Configured(env, DelayVariable, toNumber, 1000.0, r.llmDelayMs)
    ensures Configured(env, TimeoutVariable, toNumber, 30000.0, r.llmTimeoutMs)
    ensures Configured(env, SignificanceVariable, toNumber, 0.3, r.significanceThreshold)
    ensures Configured(env, ConfidenceVariable, toNumber, 0.75, r.knowledgeConfidence)
  {
    var vaultPath := EnvOr(env, VaultVariable, DefaultVaultPath(home));
    PipelineConfig(
      vaultPath,
      PathJoin(vaultPath, StateDirName),
      EnvValue(env, DryRunVariable) == "true",
      EnvNumberOr(env, BackfillVariable, toNumber, 1.0),
      EnvNumberOr(env, MaxSessionsVariable, toNumber, 50.0),
      EnvNumberOr(env, DelayVariable, toNumber, 1000.0),
      EnvNumberOr(env, TimeoutVariable, toNumber, 30000.0),
      EnvNumberOr(env, SignificanceVariable, toNumber, 0.3),
      EnvNumberOr(env, ConfidenceVariable, toNumber, 0.75),
      EnvValue(env, AutoCommitVariable) == "true")
  }

  /** With nothing set, every setting is its default. */
  lemma EmptyEnvironmentDefaults(home: string, toNumber: string -> Option<real>)
    ensures ParseConfig(map[], home, toNumber) ==
      PipelineConfig(DefaultVaultPath(home), PathJoin(DefaultVaultPath(home), StateDirName), false,
                     1.0, 50.0, 1000.0, 30000.0, 0.3, 0.75, false)
  {
  }

  /** A flag is on only for exactly `true`. */
  lemma FlagNeedsExactTrue(env: Env, home: string, toNumber: string -> Option<real>)
    requires DryRunVariable in env && env[DryRunVariable] in {"TRUE", "1", "yes", "true "}
    ensures !ParseConfig(env, home, toNumber).dryRun
  {
  }

  // ------------------------------------------------------------ source key

  /** `sourceToWatermarkKey(source)` */
  function SourceToWatermarkKey(source: SourceType): (r: Watermark.SourceKey)
    ensures r == Watermark.ClaudeCodeKey <==> SourceName(source) == "claude-code"
    ensures r == Watermark.ClaudeDesktopKey <==> SourceName(source) != "claude-code"
  {
    if source == ClaudeCodeSource then Watermark.ClaudeCodeKey else Watermark.ClaudeDesktopKey
  }

  // ------------------------------------------------------------- selection

  /** The ids already processed, from either source. */
  function ProcessedIds(d: Watermark.WatermarkData): (r: set<string>)
    ensures forall id :: id in r <==>
      id in d.claudeCode.processedSessionIds || id in d.claudeDesktop.processedSessionIds
  {
    (set id | id in d.claudeCode.processedSessionIds) + (set id | id in d.claudeDesktop.processedSessionIds)
  }

  predicate Selectable(s: DiscoveredSession, processed: set<string>) {
    !IsTrivialTitle(s.title) && s.id !in processed
  }

  /** The discovered sessions that pass the filter, in discovery order. */
  function Filtered(discovered: seq<DiscoveredSession>, processed: set<string>): (r: seq<DiscoveredSession>)
    ensures |r| <= |discovered|
    ensures forall s :: s in r ==> s in discovered && Selectable(s, processed)
  {
    if discovered == [] then []
    else
      var init := Filtered(discovered[..|discovered| - 1], processed);
      var s := discovered[|discovered| - 1];
      assert forall x :: x in discovered[..|discovered| - 1] ==> x in discovered;
      if Selectable(s, processed) then init + [s] else init
  }

  /** Every discovered session with a non-trivial title and a new id is a candidate. */
  lemma {:induction false} FilteredComplete(discovered: seq<DiscoveredSession>, processed: set<string>, i: nat)
    requires i < |discovered| && Selectable(discovered[i], processed)
    ensures discovered[i] in Filtered(discovered, processed)
  {
    if i < |discovered| - 1 {
      assert discovered[..|discovered| - 1][i] == discovered[i];
      FilteredComplete(discovered[..|discovered| - 1], processed, i);
    }
  }

  /** The order of `(a, b) => a.createdAt - b.createdAt` as "not after". */
  function ByCreatedAt(): (DiscoveredSession, DiscoveredSession) -> bool {
    (a: DiscoveredSession, b: DiscoveredSession) => a.createdAt - b.createdAt <= 0
  }

  lemma ByCreatedAtIsPreorder()
    ensures TotalPreorder(ByCreatedAt())
  {
  }

  /** `Math.trunc(x)`, the count `slice` uses. */
  function Trunc(x: real): (r: int)
    ensures x >= 0.0 ==> r == x.Floor
    ensures x < 0.0 ==> r == -((-x).Floor)
  {
    if x >= 0.0 then x.Floor else -((-x).Floor)
  }

  /** The candidates sorted by creation time, stably. */
  function Sorted(discovered: seq<DiscoveredSession>, processed: set<string>): seq<DiscoveredSession> {
    SortBy(Filtered(discovered, processed), ByCreatedAt())
  }

  /** `candidates.sort(...).slice(0, maxSessions)` */
  function ToProcess(discovered: seq<DiscoveredSession>, processed: set<string>, maxSessions: real): (r: seq<DiscoveredSession>)
    ensures |r| <= |Sorted(discovered, processed)| == |Filtered(discovered, processed)| <= |discovered|
    ensures r == Sorted(discovered, processed)[..|r|]
    ensures Trunc(maxSessions) >= 0 ==> |r| == Min(Trunc(maxSessions), |Filtered(discovered, processed)|)
  {
    SliceTo(Sorted(discovered, processed), Trunc(maxSessions))
  }

  /**
   * What is processed is sorted by creation time, every session in it passes the filter, and no
   * deferred candidate was created before a processed one.
   */
  lemma ToProcessOrder(discovered: seq<DiscoveredSession>, processed: set<string>, maxSessions: real)
    ensures SortedBy(ToProcess(discovered, processed, maxSessions), ByCreatedAt())
    ensures forall s :: s in ToProcess(discovered, processed, maxSessions) ==>
      s in discovered && Selectable(s, processed)
    ensures var r := ToProcess(discovered, processed, maxSessions);
      forall i, j :: 0 <= i < |r| <= j < |Sorted(discovered, processed)| ==>
        r[i].createdAt <= Sorted(discovered, processed)[j].createdAt
  {
    var sorted := Sorted(discovered, processed);
    var r := ToProcess(discovered, processed, maxSessions);
    ByCreatedAtIsPreorder();
    SortBySorted(Filtered(discovered, processed), ByCreatedAt());
    forall s | s in r ensures s in discovered && Selectable(s, processed) {
      assert s in multiset(sorted);
    }
    forall i, j | 0 <= i < |r| <= j < |sorted| ensures r[i].createdAt <= sorted[j].createdAt {
      assert r[i] == sorted[i];
    }
  }

  /** With room for all of them, every candidate is processed exactly once. */
  lemma ToProcessAll(discovered: seq<DiscoveredSession>, processed: set<string>, maxSessions: real)
    requires Trunc(maxSessions) >= |Filtered(discovered, processed)|
    ensures multiset(ToProcess(discovered, processed, maxSessions)) == multiset(Filtered(discovered, processed))
  {
    var sorted := Sorted(discovered, processed);
    assert ToProcess(discovered, processed, maxSessions) == sorted[..|sorted|] == sorted;
  }

  // ------------------------------------------------------- one session

  /** What the loop consults besides the configuration and the index. */
  datatype Effects = Effects(
    /** `extractSessionKnowledge(session, ...)`; `None` when it throws. */
    extract: DiscoveredSession -> Option<ExtractionResult>,
    /**
     * The path `writeSessionNote` writes to once the creation time has converted; `None` when it
     * throws for another reason (a dry run writes nothing).
     */
    sessionNote: DiscoveredSession -> Option<string>,
    /** `getDateString(new Date(ms).toISOString())`; `None` when `toISOString` throws. */
    dateOf: int -> Option<string>,
    /** The home directory, for sanitising. */
    home: string,
    /** `getDateString()` for the knowledge note names. */
    today: string)

  /** One entry of `processed`. */
  datatype Processed = Processed(session: DiscoveredSession, extraction: ExtractionResult,
                                 sessionNotePath: Option<string>, date: string)

  /** The loop's counters and its `processed` list; `errors` counts the error messages. */
  datatype Tally = Tally(processed: seq<Processed>, duplicateSkipped: nat, belowThresholdSkipped: nat,
                         sessionNotesWritten: nat, knowledgeNotesWritten: nat, errors: nat)

  const NoTally := Tally([], 0, 0, 0, 0, 0)

  datatype RunState = RunState(watermark: Watermark.WatermarkData, tally: Tally)

  /** `updateWatermarkForSession(watermark, sourceToWatermarkKey(s.source), s.id, s.createdAt)` */
  function Record(d: Watermark.WatermarkData, s: DiscoveredSession): Watermark.WatermarkData {
    Watermark.RecordSession(d, SourceToWatermarkKey(s.source), s.id, s.createdAt)
  }

  /** How many knowledge notes `writeKnowledgeNotes` writes for an extraction. */
  function KnowledgeCount(x: ExtractionResult, cfg: PipelineConfig, index: VaultIndex.VaultIndex, home: string): nat {
    if cfg.dryRun then 0
    else |KnowledgeWriter.Admitted(KnowledgeWriter.Candidates(x.keyDecisions, x.patterns, x.learnings, home),
                                   cfg.knowledgeConfidence, index)|
  }

  /** The session note's path: none in a dry run. */
  function NotePath(path: string, cfg: PipelineConfig): Option<string> {
    if cfg.dryRun then None else Some(path)
  }

  /** How a pass of the session loop ends, before the date conversion. */
  datatype Exit = Duplicate | Threw | BelowThreshold | Written(x: ExtractionResult, note: Option<string>, date: string)

  /** The exit a session takes: the duplicate test, the extraction, the threshold, the session note. */
  function ExitOf(s: DiscoveredSession, cfg: PipelineConfig, index: VaultIndex.VaultIndex, fx: Effects): (r: Exit)
    ensures r == Duplicate <==> Similarity.IsDuplicateSession(s.id, index)
    ensures r == BelowThreshold <==>
      !Similarity.IsDuplicateSession(s.id, index) && fx.extract(s).Some? &&
      fx.extract(s).value.significance < cfg.significanceThreshold
    ensures r.Written? <==>
      !Similarity.IsDuplicateSession(s.id, index) && fx.extract(s).Some? &&
      fx.extract(s).value.significance >= cfg.significanceThreshold && fx.dateOf(s.createdAt).Some? &&
      fx.sessionNote(s).Some?
    ensures r.Written? ==> r.x == fx.extract(s).value && (r.note.Some? <==> !cfg.dryRun)
    ensures r.Written? ==> Some(r.date) == fx.dateOf(s.createdAt)
  {
    if Similarity.IsDuplicateSession(s.id, index) then Duplicate
    else match fx.extract(s)
      case None => Threw
      case Some(x) =>
        if x.significance < cfg.significanceThreshold then BelowThreshold
        else match fx.dateOf(s.createdAt)
          // `writeSessionNote` converts the creation time first, and throws when it has no ISO date
          case None => Threw
          case Some(date) =>
            match fx.sessionNote(s)
            case None => Threw
            case Some(path) => Written(x, NotePath(path, cfg), date)
  }

  /** The counters after a session note (if any) and its knowledge notes are written. */
  function Wrote(st: RunState, created: nat, knowledge: nat): (r: RunState)
    ensures forall k :: r.watermark.Source(k) == st.watermark.Source(k)
    ensures r.watermark.stats.totalSessionsProcessed == st.watermark.stats.totalSessionsProcessed
    ensures r.tally.processed == st.tally.processed
  {
    var stats := st.watermark.stats;
    var t := st.tally;
    RunState(
      st.watermark.(stats := stats.(totalNotesCreated := stats.totalNotesCreated + created,
                                    totalKnowledgeExtracted := stats.totalKnowledgeExtracted + knowledge)),
      t.(sessionNotesWritten := t.sessionNotesWritten + created, knowledgeNotesWritten := t.knowledgeNotesWritten + knowledge))
  }

  /** The rest of a written session: record it, then add it to `processed` under its date. */
  function Finish(st: RunState, s: DiscoveredSession, x: ExtractionResult, note: Option<string>, date: string): RunState {
    RunState(Record(st.watermark, s), st.tally.(processed := st.tally.processed + [Processed(s, x, note, date)]))
  }

  /** One pass of the session loop, on each of its exit paths. */
  function Step(st: RunState, s: DiscoveredSession, cfg: PipelineConfig, index: VaultIndex.VaultIndex,
                fx: Effects): RunState
  {
    var t := st.tally;
    var w := Record(st.watermark, s);
    match ExitOf(s, cfg, index, fx)
    case Duplicate => RunState(w, t.(duplicateSkipped := t.duplicateSkipped + 1))
    case Threw => RunState(w, t.(errors := t.errors + 1))
    case BelowThreshold => RunState(w, t.(belowThresholdSkipped := t.belowThresholdSkipped + 1))
    case Written(x, note, date) =>
      Finish(Wrote(st, if note.Some? then 1 else 0, KnowledgeCount(x, cfg, index, fx.home)), s, x, note, date)
  }

  /** Recording raises the session's mark to its creation time and never lowers a mark. */
  lemma RecordRaises(d: Watermark.WatermarkData, s: DiscoveredSession)
    ensures Record(d, s).Source(SourceToWatermarkKey(s.source)).lastProcessedTimestamp >= s.createdAt
    ensures forall k :: Record(d, s).Source(k).lastProcessedTimestamp >= d.Source(k).lastProcessedTimestamp
    ensures Record(d, s).stats.totalSessionsProcessed == d.stats.totalSessionsProcessed + 1
  {
    var key := SourceToWatermarkKey(s.source);
    Watermark.HighWaterMark(d, key, s.id, s.createdAt);
    forall k | k != key ensures Record(d, s).Source(k) == d.Source(k) {
      Watermark.RecordSessionFrame(d, key, k, s.id, s.createdAt);
    }
  }

  /** Every exit path records the session: its mark reaches its creation time and no mark goes down. */
  lemma StepRecords(st: RunState, s: DiscoveredSession, cfg: PipelineConfig, index: VaultIndex.VaultIndex, fx: Effects)
    ensures var r := Step(st, s, cfg, index, fx);
      r.watermark.Source(SourceToWatermarkKey(s.source)).lastProcessedTimestamp >= s.createdAt &&
      (forall k :: r.watermark.Source(k).lastProcessedTimestamp >= st.watermark.Source(k).lastProcessedTimestamp) &&
      r.watermark.stats.totalSessionsProcessed == st.watermark.stats.totalSessionsProcessed + 1
  {
    RecordRaises(st.watermark, s);
    match ExitOf(s, cfg, index, fx)
    case Written(x, note, _) =>
      RecordRaises(Wrote(st, if note.Some? then 1 else 0, KnowledgeCount(x, cfg, index, fx.home)).watermark, s);
    case _ =>
  }

  /** A pass appends at most one entry to `processed`, and only for its own session. */
  lemma StepAppends(st: RunState, s: DiscoveredSession, cfg: PipelineConfig, index: VaultIndex.VaultIndex, fx: Effects)
    ensures var r := Step(st, s, cfg, index, fx);
      r.tally.processed == st.tally.processed ||
      (ExitOf(s, cfg, index, fx).Written? &&
       r.tally.processed == st.tally.processed +
         [Processed(s, ExitOf(s, cfg, index, fx).x, ExitOf(s, cfg, index, fx).note, ExitOf(s, cfg, index, fx).date)])
  {
  }

  /** The session loop over `toProcess`. */
  function Run(st: RunState, sessions: seq<DiscoveredSession>, cfg: PipelineConfig, index: VaultIndex.VaultIndex,
               fx: Effects): (r: RunState)
    ensures forall k :: r.watermark.Source(k).lastProcessedTimestamp >= st.watermark.Source(k).lastProcessedTimestamp
    ensures r.watermark.stats.totalSessionsProcessed == st.watermark.stats.totalSessionsProcessed + |sessions|
    ensures forall p :: p in r.tally.processed ==> p in st.tally.processed || p.session in sessions
  {
    if sessions == [] then st
    else
      var init := sessions[..|sessions| - 1];
      var mid := Run(st, init, cfg, index, fx);
      var r := Step(mid, sessions[|sessions| - 1], cfg, index, fx);
      StepRecords(mid, sessions[|sessions| - 1], cfg, index, fx);
      StepAppends(mid, sessions[|sessions| - 1], cfg, index, fx);
      assert forall x :: x in init ==> x in sessions;
      r
  }

  /** After the loop, every session's source mark is at least the session's creation time. */
  lemma {:induction false} RunRaisesMarks(st: RunState, sessions: seq<DiscoveredSession>, cfg: PipelineConfig,
                                          index: VaultIndex.VaultIndex, fx: Effects, i: nat)
    requires i < |sessions|
    ensures Run(st, sessions, cfg, index, fx).watermark.Source(SourceToWatermarkKey(sessions[i].source))
              .lastProcessedTimestamp >= sessions[i].createdAt
  {
    var init := sessions[..|sessions| - 1];
    var last := sessions[|sessions| - 1];
    var mid := Run(st, init, cfg, index, fx);
    StepRecords(mid, last, cfg, index, fx);
    if i < |sessions| - 1 {
      assert init[i] == sessions[i];
      RunRaisesMarks(st, init, cfg, index, fx, i);
    }
  }

  /** Only sessions that are neither duplicates nor below the threshold, and whose note was written, enter `processed`. */
  lemma {:induction false} ProcessedAreWritten(st: RunState, sessions: seq<DiscoveredSession>, cfg: PipelineConfig,
                                               index: VaultIndex.VaultIndex, fx: Effects, p: Processed)
    requires p in Run(st, sessions, cfg, index, fx).tally.processed && p !in st.tally.processed
    ensures p.session in sessions
    ensures !Similarity.IsDuplicateSession(p.session.id, index)
    ensures fx.extract(p.session) == Some(p.extraction)
    ensures p.extraction.significance >= cfg.significanceThreshold
    ensures fx.dateOf(p.session.createdAt) == Some(p.date)
    ensures p.sessionNotePath.Some? <==> !cfg.dryRun
  {
    var init := sessions[..|sessions| - 1];
    var last := sessions[|sessions| - 1];
    var mid := Run(st, init, cfg, index, fx);
    StepAppends(mid, last, cfg, index, fx);
    if p in mid.tally.processed {
      ProcessedAreWritten(st, init, cfg, index, fx, p);
    }
  }

  /** Each session adds at most one entry to `processed`. */
  lemma {:induction false} RunProcessesAtMostGiven(st: RunState, sessions: seq<DiscoveredSession>,
                                                   cfg: PipelineConfig, index: VaultIndex.VaultIndex, fx: Effects)
    ensures |Run(st, sessions, cfg, index, fx).tally.processed| <= |st.tally.processed| + |sessions|
  {
    if sessions != [] {
      var init := sessions[..|sessions| - 1];
      RunProcessesAtMostGiven(st, init, cfg, index, fx);
      StepAppends(Run(st, init, cfg, index, fx), sessions[|sessions| - 1], cfg, index, fx);
    }
  }

  /** The entries of a prefix of the sessions stay at the front of `processed`. */
  lemma {:induction false} RunExtends(st: RunState, sessions: seq<DiscoveredSession>, cfg: PipelineConfig,
                                      index: VaultIndex.VaultIndex, fx: Effects, n: nat)
    requires n <= |sessions|
    ensures var before := Run(st, sessions[..n], cfg, index, fx).tally.processed;
      var after := Run(st, sessions, cfg, index, fx).tally.processed;
      |before| <= |after| && after[..|before|] == before
  {
    if n < |sessions| {
      var init := sessions[..|sessions| - 1];
      assert init[..n] == sessions[..n];
      RunExtends(st, init, cfg, index, fx, n);
      StepAppends(Run(st, init, cfg, index, fx), sessions[|sessions| - 1], cfg, index, fx);
    } else {
      assert sessions[..n] == sessions;
    }
  }

  /** A session that is written and has a date is in `processed`. */
  lemma WrittenIsProcessed(st: RunState, sessions: seq<DiscoveredSession>, cfg: PipelineConfig,
                           index: VaultIndex.VaultIndex, fx: Effects, i: nat)
    requires i < |sessions|
    requires ExitOf(sessions[i], cfg, index, fx).Written?
    ensures var e := ExitOf(sessions[i], cfg, index, fx);
      Processed(sessions[i], e.x, e.note, e.date) in
        Run(st, sessions, cfg, index, fx).tally.processed
  {
    var prefix := sessions[..i + 1];
    assert prefix[..i] == sessions[..i];
    var mid := Run(st, sessions[..i], cfg, index, fx);
    StepAppends(mid, sessions[i], cfg, index, fx);
    var before := Run(st, prefix, cfg, index, fx).tally.processed;
    RunExtends(st, sessions, cfg, index, fx, i + 1);
    var after := Run(st, sessions, cfg, index, fx).tally.processed;
    assert before[|before| - 1] in after[..|before|];
  }

  /** A dry run writes no session note and no knowledge note. */
  lemma {:induction false} DryRunWritesNothing(st: RunState, sessions: seq<DiscoveredSession>, cfg: PipelineConfig,
                                               index: VaultIndex.VaultIndex, fx: Effects)
    requires cfg.dryRun
    ensures Run(st, sessions, cfg, index, fx).tally.sessionNotesWritten == st.tally.sessionNotesWritten
    ensures Run(st, sessions, cfg, index, fx).tally.knowledgeNotesWritten == st.tally.knowledgeNotesWritten
    ensures Run(st, sessions, cfg, index, fx).watermark.stats.totalNotesCreated == st.watermark.stats.totalNotesCreated
  {
    if sessions != [] {
      DryRunWritesNothing(st, sessions[..|sessions| - 1], cfg, index, fx);
    }
  }

  /**
   * A session whose creation time has no ISO date fails when its note is written: it is
   * counted as an error, recorded once, and adds no note and no entry to `processed`.
   */
  lemma DateFailureIsAnError(st: RunState, s: DiscoveredSession, cfg: PipelineConfig,
                             index: VaultIndex.VaultIndex, fx: Effects)
    requires !Similarity.IsDuplicateSession(s.id, index) && fx.extract(s).Some?
    requires fx.extract(s).value.significance >= cfg.significanceThreshold && fx.dateOf(s.createdAt).None?
    ensures var r := Step(st, s, cfg, index, fx);
      r.tally == st.tally.(errors := st.tally.errors + 1) &&
      r.watermark.stats.totalSessionsProcessed == st.watermark.stats.totalSessionsProcessed + 1 &&
      r.watermark.stats.totalNotesCreated == st.watermark.stats.totalNotesCreated
  {
    RecordRaises(st.watermark, s);
  }

  // ------------------------------------------------- the knowledge folders

  /** The vault's files after `writeKnowledgeNotes` for one extraction; a dry run leaves them alone. */
  function KnowledgeFiles(x: ExtractionResult, cfg: PipelineConfig, index: VaultIndex.VaultIndex, fx: Effects,
                          files: set<string>): (r: set<string>)
    ensures files <= r && |r| == |files| + KnowledgeCount(x, cfg, index, fx.home)
  {
    if cfg.dryRun then files
    else
      KnowledgeWriter.FilesAfter(
        KnowledgeWriter.Admitted(KnowledgeWriter.Candidates(x.keyDecisions, x.patterns, x.learnings, fx.home),
                                 cfg.knowledgeConfidence, index),
        cfg.vaultPath, fx.today, files)
  }

  /** The files after one pass of the loop: only a session whose note was written gets knowledge notes. */
  function StepFiles(files: set<string>, s: DiscoveredSession, cfg: PipelineConfig, index: VaultIndex.VaultIndex,
                     fx: Effects): set<string>
  {
    match ExitOf(s, cfg, index, fx)
    case Written(x, _, _) => KnowledgeFiles(x, cfg, index, fx, files)
    case _ => files
  }

  /** The files after the session loop over `sessions`. */
  function RunFiles(files: set<string>, sessions: seq<DiscoveredSession>, cfg: PipelineConfig,
                    index: VaultIndex.VaultIndex, fx: Effects): (r: set<string>)
    ensures files <= r
  {
    if sessions == [] then files
    else StepFiles(RunFiles(files, sessions[..|sessions| - 1], cfg, index, fx), sessions[|sessions| - 1], cfg, index, fx)
  }

  lemma RunFilesSnoc(files: set<string>, sessions: seq<DiscoveredSession>, i: nat, cfg: PipelineConfig,
                     index: VaultIndex.VaultIndex, fx: Effects)
    requires i < |sessions|
    ensures RunFiles(files, sessions[..i + 1], cfg, index, fx) ==
      StepFiles(RunFiles(files, sessions[..i], cfg, index, fx), sessions[i], cfg, index, fx)
  {
    assert sessions[..i + 1][..i] == sessions[..i];
  }

  /** A pass adds to `knowledgeNotesWritten` exactly the number of files it adds. */
  lemma StepFilesCount(st: RunState, files: set<string>, s: DiscoveredSession, cfg: PipelineConfig,
                       index: VaultIndex.VaultIndex, fx: Effects)
    ensures |StepFiles(files, s, cfg, index, fx)| - |files| ==
      Step(st, s, cfg, index, fx).tally.knowledgeNotesWritten - st.tally.knowledgeNotesWritten
  {
  }

  /** The loop's count of knowledge notes is the number of files it adds to the vault. */
  lemma {:induction false} RunFilesCount(st: RunState, files: set<string>, sessions: seq<DiscoveredSession>,
                                         cfg: PipelineConfig, index: VaultIndex.VaultIndex, fx: Effects)
    ensures |RunFiles(files, sessions, cfg, index, fx)| - |files| ==
      Run(st, sessions, cfg, index, fx).tally.knowledgeNotesWritten - st.tally.knowledgeNotesWritten
  {
    if sessions != [] {
      var init := sessions[..|sessions| - 1];
      RunFilesCount(st, files, init, cfg, index, fx);
      StepFilesCount(Run(st, init, cfg, index, fx), RunFiles(files, init, cfg, index, fx), sessions[|sessions| - 1],
                     cfg, index, fx);
    }
  }

  /** A dry run adds no file to the knowledge folders. */
  lemma {:induction false} DryRunKeepsFiles(files: set<string>, sessions: seq<DiscoveredSession>, cfg: PipelineConfig,
                                            index: VaultIndex.VaultIndex, fx: Effects)
    requires cfg.dryRun
    ensures RunFiles(files, sessions, cfg, index, fx) == files
  {
    if sessions != [] {
      DryRunKeepsFiles(files, sessions[..|sessions| - 1], cfg, index, fx);
    }
  }

  // ----------------------------------------------------------- the loop

  /** Step 8e: the knowledge notes of one extraction, and how many were written. */
  method WriteSessionKnowledge(extraction: ExtractionResult, cfg: PipelineConfig, index: VaultIndex.VaultIndex,
                               fx: Effects, notes: KnowledgeWriter.KnowledgeNotes)
    returns (count: nat)
    modifies notes
    ensures count == KnowledgeCount(extraction, cfg, index, fx.home)
    ensures notes.files == KnowledgeFiles(extraction, cfg, index, fx, old(notes.files))
  {
    var knowledgePaths := notes.WriteKnowledgeNotes(extraction.keyDecisions, extraction.patterns, extraction.learnings,
                                                    cfg.vaultPath, cfg.knowledgeConfidence, index, cfg.dryRun,
                                                    fx.today, fx.home);
    count := |knowledgePaths|;
  }

  /** Steps 8d and 8e on the counters: `created` session notes and `count` knowledge notes. */
  method CountWrites(created: nat, count: nat, watermark: Watermark.WatermarkState, tally: Tally)
    returns (tally': Tally)
    modifies watermark
    ensures RunState(watermark.Data(), tally') == Wrote(RunState(old(watermark.Data()), tally), created, count)
  {
    tally' := tally.(sessionNotesWritten := tally.sessionNotesWritten + created,
                     knowledgeNotesWritten := tally.knowledgeNotesWritten + count);
    watermark.stats := watermark.stats.(totalNotesCreated := watermark.stats.totalNotesCreated + created,
                                        totalKnowledgeExtracted := watermark.stats.totalKnowledgeExtracted + count);
  }

  /** Step 8f and the date: record the session, then add it to `processed`. */
  method FinishSession(s: DiscoveredSession, extraction: ExtractionResult, sessionNotePath: Option<string>,
                       date: string, watermark: Watermark.WatermarkState, tally: Tally)
    returns (tally': Tally)
    modifies watermark
    ensures RunState(watermark.Data(), tally') ==
      Finish(RunState(old(watermark.Data()), tally), s, extraction, sessionNotePath, date)
  {
    var key := SourceToWatermarkKey(s.source);
    var same := watermark.UpdateForSession(key, s.id, s.createdAt);
    tally' := tally.(processed := tally.processed + [Processed(s, extraction, sessionNotePath, date)]);
  }

  /** One pass of the loop in `main`, on the live watermark object and the vault's files. */
  method ProcessSession(s: DiscoveredSession, cfg: PipelineConfig, index: VaultIndex.VaultIndex, fx: Effects,
                        watermark: Watermark.WatermarkState, notes: KnowledgeWriter.KnowledgeNotes, tally: Tally)
    returns (tally': Tally)
    modifies watermark, notes
    ensures RunState(watermark.Data(), tally') == Step(RunState(old(watermark.Data()), tally), s, cfg, index, fx)
    ensures notes.files == StepFiles(old(notes.files), s, cfg, index, fx)
  {
    var key := SourceToWatermarkKey(s.source);
    var exit := ExitOf(s, cfg, index, fx);
    tally' := tally;
    if Similarity.IsDuplicateSession(s.id, index) {
      tally' := tally'.(duplicateSkipped := tally'.duplicateSkipped + 1);
      var same := watermark.UpdateForSession(key, s.id, s.createdAt);
      return;
    }
    var extracted := fx.extract(s);
    if extracted.None? {
      tally' := tally'.(errors := tally'.errors + 1);
      var same := watermark.UpdateForSession(key, s.id, s.createdAt);
      return;
    }
    var extraction := extracted.value;
    if extraction.significance < cfg.significanceThreshold {
      tally' := tally'.(belowThresholdSkipped := tally'.belowThresholdSkipped + 1);
      var same := watermark.UpdateForSession(key, s.id, s.createdAt);
      return;
    }
    var date := fx.dateOf(s.createdAt);
    var notePath := if date.None? then None else fx.sessionNote(s);
    if notePath.None? {
      tally' := tally'.(errors := tally'.errors + 1);
      var same := watermark.UpdateForSession(key, s.id, s.createdAt);
      return;
    }
    assert exit == Written(extraction, NotePath(notePath.value, cfg), date.value);
    var sessionNotePath := NotePath(notePath.value, cfg);
    var count := WriteSessionKnowledge(extraction, cfg, index, fx, notes);
    tally' := CountWrites(if sessionNotePath.Some? then 1 else 0, count, watermark, tally);
    tally' := FinishSession(s, extraction, sessionNotePath, date.value, watermark, tally');
  }

  /** The loop of `main` over the capped candidates; the watermark is not persisted inside it. */
  method ProcessSessions(toProcess: seq<DiscoveredSession>, cfg: PipelineConfig, index: VaultIndex.VaultIndex,
                         fx: Effects, watermark: Watermark.WatermarkState, notes: KnowledgeWriter.KnowledgeNotes)
    returns (tally: Tally)
    modifies watermark, notes
    ensures RunState(watermark.Data(), tally) == Run(RunState(old(watermark.Data()), NoTally), toProcess, cfg, index, fx)
    ensures notes.files == RunFiles(old(notes.files), toProcess, cfg, index, fx)
  {
    tally := NoTally;
    for i := 0 to |toProcess|
      invariant RunState(watermark.Data(), tally) ==
        Run(RunState(old(watermark.Data()), NoTally), toProcess[..i], cfg, index, fx)
      invariant notes.files == RunFiles(old(notes.files), toProcess[..i], cfg, index, fx)
    {
      PrefixExtend(toProcess, i);
      RunFilesSnoc(old(notes.files), toProcess, i, cfg, index, fx);
      tally := ProcessSession(toProcess[i], cfg, index, fx, watermark, notes, tally);
    }
    assert toProcess[..|toProcess|] == toProcess;
  }

  // ------------------------------------------------------------ digests

  /** The dates of `processed` in order of first appearance, which is the iteration order of `byDate`. */
  function DatesOf(ps: seq<Processed>): (r: seq<string>)
    ensures forall d :: d in r <==> exists p :: p in ps && p.date == d
    ensures forall i, j :: 0 <= i < j < |r| ==> r[i] != r[j]
  {
    if ps == [] then []
    else
      var init := DatesOf(ps[..|ps| - 1]);
      var last := ps[|ps| - 1];
      assert forall p :: p in ps <==> p in ps[..|ps| - 1] || p == last;
      if last.date in init then init else init + [last.date]
  }

  /** The processed entries of one date, in processing order. */
  function EntriesOn(ps: seq<Processed>, date: string): (r: seq<Processed>)
    ensures forall p :: p in r <==> p in ps && p.date == date
  {
    if ps == [] then []
    else
      var init := EntriesOn(ps[..|ps| - 1], date);
      var last := ps[|ps| - 1];
      assert forall p :: p in ps <==> p in ps[..|ps| - 1] || p == last;
      if last.date == date then init + [last] else init
  }

  /** The `byDate` map after the entries `ps` have been pushed. */
  function ByDate(ps: seq<Processed>): map<string, seq<Processed>> {
    if ps == [] then map[]
    else
      var m := ByDate(ps[..|ps| - 1]);
      var entry := ps[|ps| - 1];
      m[entry.date := (if entry.date in m then m[entry.date] else []) + [entry]]
  }

  /** The map holds exactly the dates of `ps`, each with its entries in order. */
  lemma {:induction false} ByDateEntries(ps: seq<Processed>)
    ensures forall d :: d in ByDate(ps) <==> d in DatesOf(ps)
    ensures forall d :: d in ByDate(ps) ==> ByDate(ps)[d] == EntriesOn(ps, d)
    ensures forall d :: d !in ByDate(ps) ==> EntriesOn(ps, d) == []
  {
    if ps != [] {
      ByDateEntries(ps[..|ps| - 1]);
    }
  }

  lemma GroupStep(ps: seq<Processed>, i: nat)
    requires i < |ps|
    ensures DatesOf(ps[..i + 1]) ==
      (if ps[i].date in DatesOf(ps[..i]) then DatesOf(ps[..i]) else DatesOf(ps[..i]) + [ps[i].date])
    ensures ByDate(ps[..i + 1]) ==
      ByDate(ps[..i])[ps[i].date := (if ps[i].date in ByDate(ps[..i]) then ByDate(ps[..i])[ps[i].date] else []) + [ps[i]]]
    ensures ps[i].date in ByDate(ps[..i]) <==> ps[i].date in DatesOf(ps[..i])
  {
    assert ps[..i + 1][..i] == ps[..i];
    ByDateEntries(ps[..i]);
  }

  /** Step 9's first loop: `byDate.get(date) || []`, push, `set`. */
  method GroupByDate(ps: seq<Processed>) returns (order: seq<string>, byDate: map<string, seq<Processed>>)
    ensures order == DatesOf(ps) && byDate == ByDate(ps)
    ensures forall d :: d in byDate <==> d in order
    ensures forall d :: d in byDate ==> byDate[d] == EntriesOn(ps, d)
  {
    order := [];
    byDate := map[];
    for i := 0 to |ps|
      invariant order == DatesOf(ps[..i])
      invariant byDate == ByDate(ps[..i])
    {
      GroupStep(ps, i);
      var entry := ps[i];
      var existing := if entry.date in byDate then byDate[entry.date] else [];
      if entry.date !in byDate {
        order := order + [entry.date];
      }
      byDate := byDate[entry.date := existing + [entry]];
    }
    assert ps[..|ps|] == ps;
    ByDateEntries(ps);
  }

  /** One session as the digest lists it. */
  datatype DigestSession = DigestSession(title: string, summary: string, domain: string, project: string)

  /** `items.join(sep)`: `null` items become empty. */
  function JoinItems(items: seq<Json>, sep: string): string {
    Join(seq(|items|, i requires 0 <= i < |items| => if items[i].JNull? then "" else ToJsString(items[i])), sep)
  }

  /** `e.extraction.digest || e.extraction.executive_summary.join('. ')` */
  function DigestSummary(x: ExtractionResult): (r: string)
    ensures x.digest != [] ==> r == x.digest
    ensures x.digest == [] ==> r == JoinItems(x.executiveSummary, ". ")
  {
    if x.digest != [] then x.digest else JoinItems(x.executiveSummary, ". ")
  }

  function DigestSessionOf(p: Processed): DigestSession {
    DigestSession(p.session.title, DigestSummary(p.extraction), p.session.domain, p.session.project)
  }

  /** What the digest model answered, or the empty defaults. */
  datatype Synthesis = Synthesis(narrative: string, themes: seq<Json>, connections: seq<Json>, unresolvedItems: seq<Json>)

  const NoSynthesis := Synthesis("", [], [], [])
  const UnavailablePrefix := "Daily digest for "
  const UnavailableMiddle := " with "
  const UnavailableSuffix := " sessions. LLM synthesis unavailable."

  /** The cross-session synthesis of one date: none on a dry run, a fixed narrative when the call throws. */
  function Synthesize(dryRun: bool, llm: LlmOutcome, parse: string -> Option<Json>, date: string, count: nat): (r: Synthesis)
    ensures dryRun ==> r == NoSynthesis
    ensures !dryRun && llm.Err? ==>
      r == Synthesis(UnavailablePrefix + date + UnavailableMiddle + NatToString(count) + UnavailableSuffix, [], [], [])
    ensures !dryRun && llm.Ok? && !Truthy(SafeParse(llm.text, parse)) ==> r == NoSynthesis
    ensures !dryRun && llm.Ok? && Truthy(SafeParse(llm.text, parse)) ==>
      r.themes == ListOr(SafeParse(llm.text, parse), "themes") &&
      r.connections == ListOr(SafeParse(llm.text, parse), "connections") &&
      r.unresolvedItems == ListOr(SafeParse(llm.text, parse), "unresolved_items")
  {
    if dryRun then NoSynthesis
    else match llm
      case Err => Synthesis(UnavailablePrefix + date + UnavailableMiddle + NatToString(count) + UnavailableSuffix, [], [], [])
      case Ok(raw) =>
        var parsed := SafeParse(raw, parse);
        if !Truthy(parsed) then NoSynthesis
        else
          var narrative := Get(parsed, "narrative");
          Synthesis(if Truthy(narrative) then ToJsString(narrative.value) else "",
                    ListOr(parsed, "themes"), ListOr(parsed, "connections"), ListOr(parsed, "unresolved_items"))
  }

  /** What the digest loop consults: the model's answer and the note writer, per date. */
  datatype DigestEffects = DigestEffects(
    llm: string -> LlmOutcome,
    parse: string -> Option<Json>,
    /** The path `writeDigestNote` writes to; `None` when it throws (a dry run writes nothing). */
    note: string -> Option<string>)

  /** The payload handed to `writeDigestNote`. */
  datatype Digest = Digest(date: string, sessions: seq<DigestSession>, synthesis: Synthesis)

  function DigestFor(date: string, entries: seq<Processed>, dryRun: bool, dfx: DigestEffects): (r: Digest)
    ensures r.date == date && |r.sessions| == |entries|
    ensures forall i :: 0 <= i < |entries| ==> r.sessions[i] == DigestSessionOf(entries[i])
  {
    Digest(date, seq(|entries|, i requires 0 <= i < |entries| => DigestSessionOf(entries[i])),
           Synthesize(dryRun, dfx.llm(date), dfx.parse, date, |entries|))
  }

  datatype DigestTally = DigestTally(digests: seq<Digest>, written: nat, errors: nat)

  /** The digest loop over the dates, in order; only dates with two or more entries get a digest. */
  function Digests(order: seq<string>, byDate: map<string, seq<Processed>>, dryRun: bool, dfx: DigestEffects)
    : (r: DigestTally)
    ensures |r.digests| <= |order|
    ensures forall g :: g in r.digests ==>
      g.date in order && g.date in byDate && |byDate[g.date]| >= 2 && g == DigestFor(g.date, byDate[g.date], dryRun, dfx)
    ensures dryRun ==> r.written == 0
  {
    if order == [] then DigestTally([], 0, 0)
    else
      var t := Digests(order[..|order| - 1], byDate, dryRun, dfx);
      var date := order[|order| - 1];
      assert forall d :: d in order[..|order| - 1] ==> d in order;
      var entries := if date in byDate then byDate[date] else [];
      if |entries| < 2 then t
      else
        var digest := DigestFor(date, entries, dryRun, dfx);
        match dfx.note(date)
        case None => DigestTally(t.digests + [digest], t.written, t.errors + 1)
        case Some(_) => DigestTally(t.digests + [digest], t.written + (if dryRun then 0 else 1), t.errors)
  }

  /** Every date with two or more processed sessions gets a digest. */
  lemma {:induction false} BusyDatesGetDigests(order: seq<string>, byDate: map<string, seq<Processed>>, dryRun: bool,
                                               dfx: DigestEffects, i: nat)
    requires i < |order| && order[i] in byDate && |byDate[order[i]]| >= 2
    ensures DigestFor(order[i], byDate[order[i]], dryRun, dfx) in Digests(order, byDate, dryRun, dfx).digests
  {
    if i < |order| - 1 {
      assert order[..|order| - 1][i] == order[i];
      BusyDatesGetDigests(order[..|order| - 1], byDate, dryRun, dfx, i);
    }
  }

  /** One more date: the tally of a prefix one longer, from the tally of the prefix. */
  lemma DigestsSnoc(order: seq<string>, byDate: map<string, seq<Processed>>, dryRun: bool, dfx: DigestEffects, i: nat)
    requires i < |order|
    ensures var t := Digests(order[..i], byDate, dryRun, dfx);
      var entries := if order[i] in byDate then byDate[order[i]] else [];
      var digest := DigestFor(order[i], entries, dryRun, dfx);
      Digests(order[..i + 1], byDate, dryRun, dfx) ==
        if |entries| < 2 then t
        else if dfx.note(order[i]).None? then DigestTally(t.digests + [digest], t.written, t.errors + 1)
        else DigestTally(t.digests + [digest], t.written + (if dryRun then 0 else 1), t.errors)
  {
    assert order[..i + 1][..i] == order[..i];
  }

  /** One date of step 9's second loop: a digest for a busy date, written unless this is a dry run. */
  method WriteDigest(date: string, entries: seq<Processed>, dryRun: bool, dfx: DigestEffects, t: DigestTally,
                     watermark: Watermark.WatermarkState)
    returns (result: DigestTally)
    modifies watermark
    ensures result ==
      if |entries| < 2 then t
      else if dfx.note(date).None? then DigestTally(t.digests + [DigestFor(date, entries, dryRun, dfx)], t.written, t.errors + 1)
      else DigestTally(t.digests + [DigestFor(date, entries, dryRun, dfx)], t.written + (if dryRun then 0 else 1), t.errors)
    ensures watermark.Data() == old(watermark.Data()).(stats := old(watermark.Data()).stats.(
      totalNotesCreated := old(watermark.Data()).stats.totalNotesCreated + (result.written - t.written)))
  {
    result := t;
    if |entries| < 2 {
      return;
    }
    var digest := DigestFor(date, entries, dryRun, dfx);
    var path := dfx.note(date);
    if path.None? {
      result := DigestTally(t.digests + [digest], t.written, t.errors + 1);
    } else if dryRun {
      result := DigestTally(t.digests + [digest], t.written, t.errors);
    } else {
      result := DigestTally(t.digests + [digest], t.written + 1, t.errors);
      watermark.stats := watermark.stats.(totalNotesCreated := watermark.stats.totalNotesCreated + 1);
    }
  }

  /** Step 9's second loop: one digest per busy date; a written digest counts as a created note. */
  method WriteDigests(order: seq<string>, byDate: map<string, seq<Processed>>, dryRun: bool, dfx: DigestEffects,
                      watermark: Watermark.WatermarkState)
    returns (result: DigestTally)
    modifies watermark
    ensures result == Digests(order, byDate, dryRun, dfx)
    ensures watermark.Data() == old(watermark.Data()).(stats := old(watermark.Data()).stats.(
      totalNotesCreated := old(watermark.Data()).stats.totalNotesCreated + result.written))
  {
    result := DigestTally([], 0, 0);
    for i := 0 to |order|
      invariant result == Digests(order[..i], byDate, dryRun, dfx)
      invariant watermark.Data() == old(watermark.Data()).(stats := old(watermark.Data()).stats.(
        totalNotesCreated := old(watermark.Data()).stats.totalNotesCreated + result.written))
    {
      DigestsSnoc(order, byDate, dryRun, dfx, i);
      result := WriteDigest(order[i], if order[i] in byDate then byDate[order[i]] else [], dryRun, dfx, result, watermark);
    }
    assert order[..|order|] == order;
  }

  // ------------------------------------------------------------ the run

  const ExitOk := 0
  const ExitLocked := 1
  const ExitFatal := 2

  /** Everything a run consults besides the lock, the state directory and the knowledge folders. */
  datatype World = World(
    env: Env,
    toNumber: string -> Option<real>,
    nowMs: int,
    nowIso: string,
    /** For `acquireLock`: this process, its host, the liveness probe, `Date` parsing, and the write. */
    pid: int,
    host: string,
    isAlive: int -> bool,
    parseDate: string -> Option<int>,
    lockWriteOk: bool,
    /** The outcomes of writing the default watermark and of the final write. */
    firstWrite: Watermark.WriteOutcome,
    finalWrite: Watermark.WriteOutcome,
    /** `discoverCodeSessions(since)` and `discoverDesktopSessions(since)`; `None` when one throws. */
    discoverCode: int -> Option<seq<DiscoveredSession>>,
    discoverDesktop: int -> Option<seq<DiscoveredSession>>,
    /** The vault's `Sessions` and `Knowledge` listings and its readable files, for `buildVaultIndex`. */
    sessionListing: Option<seq<VaultIndex.FsEntry>>,
    knowledgeListing: Option<seq<VaultIndex.FsEntry>>,
    vaultFiles: map<string, string>,
    fx: Effects,
    dfx: DigestEffects)

  function Config(w: World): PipelineConfig {
    ParseConfig(w.env, w.fx.home, w.toNumber)
  }

  /** Step 12's condition: auto-commit is on, the run is real, and some note was written. */
  predicate ShouldCommit(cfg: PipelineConfig, t: Tally, dt: DigestTally) {
    cfg.autoCommit && !cfg.dryRun && (t.sessionNotesWritten > 0 || t.knowledgeNotesWritten > 0 || dt.written > 0)
  }

  /** The run summary's counts; `errors` is the number of error messages. */
  datatype Report = Report(discovered: nat, filtered: nat, tally: Tally, digests: DigestTally, commit: bool)

  datatype Outcome = Outcome(watermark: Watermark.WatermarkData, report: Report)

  /** Step 3: the stored watermark, or a fresh default; `None` when the run throws here. */
  function StartingWatermark(file: Watermark.StoredFile, w: World): Option<Watermark.WatermarkData> {
    var stored := Watermark.ReadWatermark(file);
    if stored.Some? then Watermark.Decode(stored.value)
    else if w.firstWrite == Watermark.WriteOk then
      Some(Watermark.DefaultWatermark(Trunc(Config(w).backfillDays), w.nowMs, w.nowIso))
    else None
  }

  /** Steps 4 to 9 from the watermark `start`; `None` when discovery throws. */
  function Pipeline(start: Watermark.WatermarkData, w: World): Option<Outcome> {
    var code := w.discoverCode(start.claudeCode.lastProcessedTimestamp);
    var desktop := w.discoverDesktop(start.claudeDesktop.lastProcessedTimestamp);
    if code.None? || desktop.None? then None
    else Some(Proceed(start, w, code.value + desktop.value))
  }

  /** Steps 5 to 9 once discovery has returned the sessions `discovered`. */
  function Proceed(start: Watermark.WatermarkData, w: World, discovered: seq<DiscoveredSession>): Outcome {
    var cfg := Config(w);
    var ids := ProcessedIds(start);
    var index := VaultIndex.IndexOf(cfg.vaultPath, w.sessionListing, w.knowledgeListing, w.vaultFiles);
    var st := Run(RunState(start, NoTally), ToProcess(discovered, ids, cfg.maxSessions), cfg, index, w.fx);
    var dt := Digests(DatesOf(st.tally.processed), ByDate(st.tally.processed), cfg.dryRun, w.dfx);
    var stats := st.watermark.stats;
    Outcome(st.watermark.(stats := stats.(totalNotesCreated := stats.totalNotesCreated + dt.written)),
            Report(|discovered|, |discovered| - |Filtered(discovered, ids)|, st.tally, dt,
                   ShouldCommit(cfg, st.tally, dt)))
  }

  /** The vault's files after steps 4 to 9 from the watermark `start`; unchanged when discovery throws. */
  function PipelineFiles(start: Watermark.WatermarkData, w: World, files: set<string>): set<string> {
    var code := w.discoverCode(start.claudeCode.lastProcessedTimestamp);
    var desktop := w.discoverDesktop(start.claudeDesktop.lastProcessedTimestamp);
    if code.None? || desktop.None? then files
    else ProceedFiles(start, w, code.value + desktop.value, files)
  }

  /** The vault's files after steps 5 to 9 on the sessions `discovered`. */
  function ProceedFiles(start: Watermark.WatermarkData, w: World, discovered: seq<DiscoveredSession>,
                        files: set<string>): set<string> {
    var cfg := Config(w);
    var index := VaultIndex.IndexOf(cfg.vaultPath, w.sessionListing, w.knowledgeListing, w.vaultFiles);
    RunFiles(files, ToProcess(discovered, ProcessedIds(start), cfg.maxSessions), cfg, index, w.fx)
  }

  /** The run's report counts exactly the files it added to the knowledge folders. */
  lemma PipelineFilesCount(start: Watermark.WatermarkData, w: World, files: set<string>)
    requires Pipeline(start, w).Some?
    ensures files <= PipelineFiles(start, w, files)
    ensures |PipelineFiles(start, w, files)| == |files| + Pipeline(start, w).value.report.tally.knowledgeNotesWritten
  {
    var cfg := Config(w);
    var discovered := w.discoverCode(start.claudeCode.lastProcessedTimestamp).value +
                      w.discoverDesktop(start.claudeDesktop.lastProcessedTimestamp).value;
    var toProcess := ToProcess(discovered, ProcessedIds(start), cfg.maxSessions);
    var index := VaultIndex.IndexOf(cfg.vaultPath, w.sessionListing, w.knowledgeListing, w.vaultFiles);
    RunFilesCount(RunState(start, NoTally), files, toProcess, cfg, index, w.fx);
  }

  /** The files after the whole run once the lock is held. */
  function CompletedFiles(file: Watermark.StoredFile, w: World, files: set<string>): set<string> {
    var start := StartingWatermark(file, w);
    if start.None? then files else PipelineFiles(start.value, w, files)
  }

  /** The whole run once the lock is held: `None` when something throws before the final write. */
  function Completed(file: Watermark.StoredFile, w: World): Option<Outcome> {
    var start := StartingWatermark(file, w);
    if start.None? then None else Pipeline(start.value, w)
  }

  /** A session already recorded in either source, or with a trivial title, is never processed again. */
  lemma NoSessionProcessedTwice(start: Watermark.WatermarkData, w: World)
    requires Pipeline(start, w).Some?
    ensures forall p :: p in Pipeline(start, w).value.report.tally.processed ==>
      p.session.id !in start.claudeCode.processedSessionIds &&
      p.session.id !in start.claudeDesktop.processedSessionIds &&
      !IsTrivialTitle(p.session.title)
  {
    var cfg := Config(w);
    var discovered := w.discoverCode(start.claudeCode.lastProcessedTimestamp).value +
                      w.discoverDesktop(start.claudeDesktop.lastProcessedTimestamp).value;
    ToProcessOrder(discovered, ProcessedIds(start), cfg.maxSessions);
  }

  /** A run never moves a source's high-water mark back, and counts each session it looked at. */
  lemma PipelineRaisesMarks(start: Watermark.WatermarkData, w: World)
    requires Pipeline(start, w).Some?
    ensures var d := Pipeline(start, w).value.watermark;
      forall k :: d.Source(k).lastProcessedTimestamp >= start.Source(k).lastProcessedTimestamp
    ensures Pipeline(start, w).value.watermark.stats.totalSessionsProcessed >=
      start.stats.totalSessionsProcessed + |Pipeline(start, w).value.report.tally.processed|
  {
    var cfg := Config(w);
    var discovered := w.discoverCode(start.claudeCode.lastProcessedTimestamp).value +
                      w.discoverDesktop(start.claudeDesktop.lastProcessedTimestamp).value;
    var toProcess := ToProcess(discovered, ProcessedIds(start), cfg.maxSessions);
    var index := VaultIndex.IndexOf(cfg.vaultPath, w.sessionListing, w.knowledgeListing, w.vaultFiles);
    RunProcessesAtMostGiven(RunState(start, NoTally), toProcess, cfg, index, w.fx);
  }

  /** A dry run writes no note, adds no file, creates no note in the stats, and never commits. */
  lemma DryRunIsSilent(start: Watermark.WatermarkData, w: World, files: set<string>)
    requires Config(w).dryRun && Pipeline(start, w).Some?
    ensures var o := Pipeline(start, w).value;
      o.report.tally.sessionNotesWritten == 0 && o.report.tally.knowledgeNotesWritten == 0 &&
      o.report.digests.written == 0 && !o.report.commit &&
      o.watermark.stats.totalNotesCreated == start.stats.totalNotesCreated
    ensures PipelineFiles(start, w, files) == files
  {
    var cfg := Config(w);
    var discovered := w.discoverCode(start.claudeCode.lastProcessedTimestamp).value +
                      w.discoverDesktop(start.claudeDesktop.lastProcessedTimestamp).value;
    var toProcess := ToProcess(discovered, ProcessedIds(start), cfg.maxSessions);
    var index := VaultIndex.IndexOf(cfg.vaultPath, w.sessionListing, w.knowledgeListing, w.vaultFiles);
    DryRunWritesNothing(RunState(start, NoTally), toProcess, cfg, index, w.fx);
    DryRunKeepsFiles(files, toProcess, cfg, index, w.fx);
  }

  /** Step 3 as a method: read and decode, or create and write the default. */
  method OpenWatermark(dir: Watermark.StateDir, w: World) returns (state: Watermark.WatermarkState?)
    modifies dir
    ensures state != null <==> StartingWatermark(old(dir.watermark), w).Some?
    ensures state != null ==> fresh(state) && state.Data() == StartingWatermark(old(dir.watermark), w).value
    ensures Watermark.ReadWatermark(old(dir.watermark)).Some? ==> dir.watermark == old(dir.watermark)
    ensures Watermark.ReadWatermark(old(dir.watermark)).None? && state != null ==>
      dir.watermark == Watermark.Parsed(Watermark.Encode(state.Data()))
  {
    var stored := Watermark.ReadWatermark(dir.watermark);
    if stored.Some? {
      var decoded := Watermark.Decode(stored.value);
      if decoded.None? {
        return null;
      }
      state := new Watermark.WatermarkState(decoded.value);
      return;
    }
    var initial := Watermark.DefaultWatermark(Trunc(Config(w).backfillDays), w.nowMs, w.nowIso);
    state := new Watermark.WatermarkState(initial);
    var threw := dir.WriteWatermark(state, w.nowIso, w.firstWrite);
    if threw {
      state := null;
    }
  }

  /** Steps 4 to 9 on the loaded watermark: discovery, selection, the session loop and the digests. */
  method RunPipeline(state: Watermark.WatermarkState, w: World, notes: KnowledgeWriter.KnowledgeNotes)
    returns (report: Option<Report>)
    modifies state, notes
    ensures report.Some? <==> Pipeline(old(state.Data()), w).Some?
    ensures report.Some? ==>
      report.value == Pipeline(old(state.Data()), w).value.report &&
      state.Data() == Pipeline(old(state.Data()), w).value.watermark
    ensures notes.files == PipelineFiles(old(state.Data()), w, old(notes.files))
  {
    var start := state.Data();
    var code := w.discoverCode(start.claudeCode.lastProcessedTimestamp);
    var desktop := w.discoverDesktop(start.claudeDesktop.lastProcessedTimestamp);
    if code.None? || desktop.None? {
      return None;
    }
    var r := ProcessDiscovered(code.value + desktop.value, state, w, notes);
    report := Some(r);
  }

  /** Steps 5 to 9: selection, the vault index, the session loop and the digests. */
  method ProcessDiscovered(discovered: seq<DiscoveredSession>, state: Watermark.WatermarkState, w: World,
                           notes: KnowledgeWriter.KnowledgeNotes)
    returns (report: Report)
    modifies state, notes
    ensures Outcome(state.Data(), report) == Proceed(old(state.Data()), w, discovered)
    ensures notes.files == ProceedFiles(old(state.Data()), w, discovered, old(notes.files))
  {
    ghost var expected := Proceed(state.Data(), w, discovered);
    var cfg := Config(w);
    var ids := ProcessedIds(state.Data());
    var toProcess := ToProcess(discovered, ids, cfg.maxSessions);
    var index := VaultIndex.BuildVaultIndex(cfg.vaultPath, w.sessionListing, w.knowledgeListing, w.vaultFiles);
    ghost var st := Run(RunState(state.Data(), NoTally), toProcess, cfg, index, w.fx);
    var tally := ProcessSessions(toProcess, cfg, index, w.fx, state, notes);
    assert state.Data() == st.watermark && tally == st.tally;
    var order, byDate := GroupByDate(tally.processed);
    var digests := WriteDigests(order, byDate, cfg.dryRun, w.dfx, state);
    report := Report(|discovered|, |discovered| - |Filtered(discovered, ids)|, tally, digests,
                     ShouldCommit(cfg, tally, digests));
    assert report == expected.report;
  }

  /** Steps 4 to 10 on an open watermark: run the pipeline, then write the watermark back. */
  method RunAndSave(state: Watermark.WatermarkState, w: World, dir: Watermark.StateDir,
                    notes: KnowledgeWriter.KnowledgeNotes)
    returns (report: Option<Report>)
    modifies state, dir, notes
    ensures notes.files == PipelineFiles(old(state.Data()), w, old(notes.files))
    ensures report.Some? <==> Pipeline(old(state.Data()), w).Some? && w.finalWrite == Watermark.WriteOk
    ensures report.Some? ==>
      report.value == Pipeline(old(state.Data()), w).value.report &&
      dir.watermark == Watermark.Parsed(Watermark.Encode(Pipeline(old(state.Data()), w).value.watermark.(lastRunAt := w.nowIso)))
  {
    ghost var expected := Pipeline(state.Data(), w);
    report := None;
    var outcome := RunPipeline(state, w, notes);
    if outcome.Some? {
      assert outcome.value == expected.value.report && state.Data() == expected.value.watermark;
      var threw := dir.WriteWatermark(state, w.nowIso, w.finalWrite);
      if !threw {
        report := outcome;
      }
    }
  }

  /**
   * The body of `main()`'s `try`, once the lock is held: open the watermark, run the pipeline and
   * write the watermark back; no report when anything throws before the final write succeeds.
   */
  method RunLocked(w: World, dir: Watermark.StateDir, notes: KnowledgeWriter.KnowledgeNotes)
    returns (report: Option<Report>)
    modifies dir, notes
    ensures notes.files == CompletedFiles(old(dir.watermark), w, old(notes.files))
    ensures report.Some? <==> Completed(old(dir.watermark), w).Some? && w.finalWrite == Watermark.WriteOk
    ensures report.Some? ==>
      report.value == Completed(old(dir.watermark), w).value.report &&
      dir.watermark == Watermark.Parsed(Watermark.Encode(Completed(old(dir.watermark), w).value.watermark.(lastRunAt := w.nowIso)))
  {
    report := None;
    var state := OpenWatermark(dir, w);
    if state != null {
      report := RunAndSave(state, w, dir, notes);
    }
  }

  /**
   * `main()`: exit 1 when another live instance holds the lock, exit 2 when anything throws after
   * it was taken, 0 otherwise; the lock is released on every path that took it.
   */
  method RunDailyExtract(w: World, lock: Lock.ProcessLock, dir: Watermark.StateDir,
                         notes: KnowledgeWriter.KnowledgeNotes)
    returns (exitCode: int, report: Option<Report>)
    modifies lock, dir, notes
    ensures exitCode == ExitOk || exitCode == ExitLocked || exitCode == ExitFatal
    ensures var held := old(lock.lock).Some? && Lock.HeldByOther(old(lock.lock).value, w.nowMs, w.isAlive, w.parseDate);
      (exitCode == ExitLocked <==> held || !w.lockWriteOk) &&
      (exitCode == ExitLocked ==> lock.lock == (if held then old(lock.lock) else None))
    ensures exitCode == ExitLocked ==>
      dir.watermark == old(dir.watermark) && dir.watermarkTmp == old(dir.watermarkTmp) && notes.files == old(notes.files)
    ensures exitCode != ExitLocked ==>
      lock.lock == None && notes.files == CompletedFiles(old(dir.watermark), w, old(notes.files))
    ensures report.Some? <==> exitCode == ExitOk
    ensures exitCode == ExitOk <==>
      exitCode != ExitLocked && Completed(old(dir.watermark), w).Some? && w.finalWrite == Watermark.WriteOk
    ensures exitCode == ExitOk ==>
      report.value == Completed(old(dir.watermark), w).value.report &&
      dir.watermark == Watermark.Parsed(Watermark.Encode(Completed(old(dir.watermark), w).value.watermark.(lastRunAt := w.nowIso)))
  {
    var acquired := lock.AcquireLock(w.nowMs, w.nowIso, w.pid, w.host, w.isAlive, w.parseDate, w.lockWriteOk);
    if !acquired {
      return ExitLocked, None;
    }
    report := RunLocked(w, dir, notes);
    exitCode := if report.Some? then ExitOk else ExitFatal;
    lock.ReleaseLock();
  }
}
