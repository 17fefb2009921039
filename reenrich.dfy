/**
 * The re-enrichment command: it scans the vault's session notes for ones
 * whose summary came from the heuristic fallback, finds each one's
 * transcript again, asks the language model once more, and rewrites the
 * note in place when the model answered, adding knowledge notes as the
 * daily pipeline does.
 *
 * The command line is a sequence of words, the environment a map, and the
 * file system is given as listings, contents and the set of paths that
 * exist; the extraction and the note renderer are parameters.
 */
module ReEnrich {
  import opened JsString
  import opened Json
  import opened Types
  import opened Common
  import opened Discovery
  import opened Sorting
  import opened Extract
  import VaultIndex
  import CodeDiscovery
  import DesktopDiscovery
  import KnowledgeWriter
  import Lock
  import DailyExtract

  // ------------------------------------------------------------------ config

  const DelayVariable := "PIPELINE_LLM_DELAY_MS"
  const TimeoutVariable := "PIPELINE_LLM_TIMEOUT_MS"
  const ConfidenceVariable := "PIPELINE_KNOWLEDGE_CONFIDENCE"

  const DefaultLimit := 10.0

  const DryRunFlag := "--dry-run"
  const LimitFlag := "--limit"
  const ProjectFlag := "--filter-project"
  const SinceFlag := "--filter-since"
  const ForceFlag := "--force"

  datatype ReEnrichConfig = ReEnrichConfig(
    vaultPath: string,
    stateDir: string,
    dryRun: bool,
    limit: real,
    filterProject: string,
    filterSince: string,
    force: bool,
    llmDelayMs: real,
    llmTimeoutMs: real,
    llmModel: string,
    knowledgeConfidence: real)

  /** The configuration before the command line is read. */
  function Defaults(env: Env, home: string, toNumber: string -> Option<real>): (r: ReEnrichConfig)
    ensures r.vaultPath == EnvOr(env, DailyExtract.VaultVariable, DailyExtract.DefaultVaultPath(home))
    ensures r.stateDir == PathJoin(r.vaultPath, DailyExtract.StateDirName)
    ensures !r.dryRun && !r.force && r.limit == DefaultLimit
    ensures r.filterProject == [] && r.filterSince == []
    ensures r.llmDelayMs == EnvNumberOr(env, DelayVariable, toNumber, 1000.0)
    ensures r.llmTimeoutMs == EnvNumberOr(env, TimeoutVariable, toNumber, 30000.0)
    ensures r.llmModel == EnvOr(env, ModelVariable, DefaultModel)
    ensures r.knowledgeConfidence == EnvNumberOr(env, ConfidenceVariable, toNumber, 0.75)
  {
    var vaultPath := EnvOr(env, DailyExtract.VaultVariable, DailyExtract.DefaultVaultPath(home));
    ReEnrichConfig(vaultPath, PathJoin(vaultPath, DailyExtract.StateDirName), false, DefaultLimit, "", "", false,
                   EnvNumberOr(env, DelayVariable, toNumber, 1000.0),
                   EnvNumberOr(env, TimeoutVariable, toNumber, 30000.0),
                   EnvOr(env, ModelVariable, DefaultModel),
                   EnvNumberOr(env, ConfidenceVariable, toNumber, 0.75))
  }

  /** `args[++i]`: the word after position `i`, if there is one. */
  function ValueAfter(args: seq<string>, i: nat): Option<string> {
    if i + 1 < |args| then Some(args[i + 1]) else None
  }

  /** `Number(args[++i]) || 10`: a missing, non-numeric or zero value gives the default. */
  function LimitValue(value: Option<string>, toNumber: string -> Option<real>): (r: real)
    ensures value.None? || toNumber(value.value).None? || toNumber(value.value) == Some(0.0) ==> r == DefaultLimit
    ensures value.Some? && toNumber(value.value).Some? && toNumber(value.value).value != 0.0 ==>
      r == toNumber(value.value).value
  {
    if value.None? then DefaultLimit
    else match toNumber(value.value)
      case None => DefaultLimit
      case Some(n) => if n == 0.0 then DefaultLimit else n
  }

  /** `args[++i] || ''` */
  function TextValue(value: Option<string>): (r: string)
    ensures value.Some? ==> r == value.value
    ensures value.None? ==> r == []
  {
    if value.Some? then value.value else ""
  }

  predicate IsFlag(word: string) {
    word == DryRunFlag || word == LimitFlag || word == ProjectFlag || word == SinceFlag || word == ForceFlag
  }

  /**
   * The `switch` loop of `parseArgs` from position `i`: a flag with a value consumes the next
   * word, whatever it is, and any other word is ignored.
   */
  function ArgsFrom(c: ReEnrichConfig, args: seq<string>, i: nat, toNumber: string -> Option<real>): (r: ReEnrichConfig)
    decreases |args| - i
    ensures r.vaultPath == c.vaultPath && r.stateDir == c.stateDir && r.llmModel == c.llmModel
    ensures r.llmDelayMs == c.llmDelayMs && r.llmTimeoutMs == c.llmTimeoutMs
    ensures r.knowledgeConfidence == c.knowledgeConfidence
    ensures c.dryRun ==> r.dryRun
    ensures c.force ==> r.force
    ensures r.dryRun && !c.dryRun ==> exists k :: i <= k < |args| && args[k] == DryRunFlag
    ensures r.force && !c.force ==> exists k :: i <= k < |args| && args[k] == ForceFlag
  {
    if i >= |args| then c
    else
      var word := args[i];
      if word == DryRunFlag then ArgsFrom(c.(dryRun := true), args, i + 1, toNumber)
      else if word == LimitFlag then ArgsFrom(c.(limit := LimitValue(ValueAfter(args, i), toNumber)), args, i + 2, toNumber)
      else if word == ProjectFlag then ArgsFrom(c.(filterProject := TextValue(ValueAfter(args, i))), args, i + 2, toNumber)
      else if word == SinceFlag then ArgsFrom(c.(filterSince := TextValue(ValueAfter(args, i))), args, i + 2, toNumber)
      else if word == ForceFlag then ArgsFrom(c.(force := true), args, i + 1, toNumber)
      else ArgsFrom(c, args, i + 1, toNumber)
  }

  /** Words that are not flags change nothing. */
  lemma {:induction false} UnknownWordsIgnored(c: ReEnrichConfig, args: seq<string>, i: nat,
                                               toNumber: string -> Option<real>)
    requires forall k :: i <= k < |args| ==> !IsFlag(args[k])
    decreases |args| - i
    ensures ArgsFrom(c, args, i, toNumber) == c
  {
    if i < |args| {
      UnknownWordsIgnored(c, args, i + 1, toNumber);
    }
  }

  /** The word after `--limit` is its value even when it is a flag, so `--dry-run` there is not a flag. */
  lemma LimitSwallowsNextWord(c: ReEnrichConfig, toNumber: string -> Option<real>)
    requires !c.dryRun
    ensures !ArgsFrom(c, [LimitFlag, DryRunFlag], 0, toNumber).dryRun
    ensures ArgsFrom(c, [LimitFlag, DryRunFlag], 0, toNumber).limit == LimitValue(Some(DryRunFlag), toNumber)
  {
    assert ArgsFrom(c, [LimitFlag, DryRunFlag], 0, toNumber) ==
      ArgsFrom(c.(limit := LimitValue(Some(DryRunFlag), toNumber)), [LimitFlag, DryRunFlag], 2, toNumber);
  }

  /** `--limit` as the last word falls back to the default. */
  lemma TrailingLimitIsDefault(c: ReEnrichConfig, toNumber: string -> Option<real>)
    ensures ArgsFrom(c, [LimitFlag], 0, toNumber).limit == DefaultLimit
  {
    assert ArgsFrom(c, [LimitFlag], 0, toNumber) == ArgsFrom(c.(limit := DefaultLimit), [LimitFlag], 2, toNumber);
  }

  /** One turn of the `switch`: the word at `i`, and the value after it for a flag that takes one. */
  method ParseWord(config: ReEnrichConfig, args: seq<string>, i: nat, toNumber: string -> Option<real>)
    returns (config': ReEnrichConfig, next: nat)
    requires i < |args|
    ensures i < next <= i + 2
    ensures ArgsFrom(config', args, next, toNumber) == ArgsFrom(config, args, i, toNumber)
  {
    var word := args[i];
    config', next := config, i + 1;
    if word == DryRunFlag {
      config' := config.(dryRun := true);
    } else if word == LimitFlag {
      var value := ValueAfter(args, i);
      config', next := config.(limit := LimitValue(value, toNumber)), i + 2;
    } else if word == ProjectFlag {
      var value := ValueAfter(args, i);
      config', next := config.(filterProject := TextValue(value)), i + 2;
    } else if word == SinceFlag {
      var value := ValueAfter(args, i);
      config', next := config.(filterSince := TextValue(value)), i + 2;
    } else if word == ForceFlag {
      config' := config.(force := true);
    }
  }

  /** `parseArgs()`: the defaults, then the index-advancing loop over the words. */
  method ParseArgs(args: seq<string>, env: Env, home: string, toNumber: string -> Option<real>)
    returns (config: ReEnrichConfig)
    ensures config == ArgsFrom(Defaults(env, home, toNumber), args, 0, toNumber)
  {
    config := Defaults(env, home, toNumber);
    var i := 0;
    while i < |args|
      invariant i <= |args| + 1
      invariant ArgsFrom(config, args, i, toNumber) == ArgsFrom(Defaults(env, home, toNumber), args, 0, toNumber)
      decreases |args| + 1 - i
    {
      config, i := ParseWord(config, args, i, toNumber);
    }
  }

  // ------------------------------------------------------------------ scanning

  const FrontmatterLines := 25
  const DefaultTime := "00:00"
  const DefaultDomain := "personal"

  /** A session note worth re-enriching. */
  datatype VaultCandidate = VaultCandidate(
    filePath: string,
    sessionId: string,
    date: string,
    time: string,
    domain: string,
    project: string,
    model: string,
    summary: string,
    summaryEngine: string)

  function Field(fm: map<string, string>, key: string): string {
    VaultIndex.Field(fm, key)
  }

  /** `a < b` on strings, as code-point order. */
  predicate Before(a: string, b: string) {
    LexLe(a, b) && a != b
  }

  /** The note at `filePath` with front matter `fm`, if `scanForCandidates` keeps it. */
  function CandidateOf(filePath: string, fm: map<string, string>, cfg: ReEnrichConfig): (r: Option<VaultCandidate>)
    ensures Field(fm, "session_id") == [] ==> r.None?
    ensures !cfg.force && !StartsWith(Field(fm, "summary_engine"), EngineHeuristic) ==> r.None?
    ensures cfg.force && Field(fm, "enriched_at") != [] ==> r.None?
    ensures cfg.filterProject != [] && !Contains(ToLower(Field(fm, "project")), ToLower(cfg.filterProject)) ==> r.None?
    ensures cfg.filterSince != [] && Before(Field(fm, "date"), cfg.filterSince) ==> r.None?
    ensures (Field(fm, "session_id") != [] &&
             (if cfg.force then Field(fm, "enriched_at") == [] else StartsWith(Field(fm, "summary_engine"), EngineHeuristic)) &&
             (cfg.filterProject == [] || Contains(ToLower(Field(fm, "project")), ToLower(cfg.filterProject))) &&
             (cfg.filterSince == [] || !Before(Field(fm, "date"), cfg.filterSince))) ==> r.Some?
    ensures r.Some? ==>
      r.value.filePath == filePath && r.value.sessionId == Field(fm, "session_id") &&
      r.value.date == Field(fm, "date") && r.value.summaryEngine == Field(fm, "summary_engine") &&
      r.value.time == (if Field(fm, "time") != [] then Field(fm, "time") else DefaultTime) &&
      r.value.domain == (if Field(fm, "domain") != [] then Field(fm, "domain") else DefaultDomain)
  {
    var engine := Field(fm, "summary_engine");
    if Field(fm, "session_id") == [] then None
    else if !cfg.force && !StartsWith(engine, EngineHeuristic) then None
    else if cfg.force && Field(fm, "enriched_at") != [] then None
    else if cfg.filterProject != [] && !Contains(ToLower(Field(fm, "project")), ToLower(cfg.filterProject)) then None
    else if cfg.filterSince != [] && Before(Field(fm, "date"), cfg.filterSince) then None
    else Some(VaultCandidate(
      filePath, Field(fm, "session_id"), Field(fm, "date"),
      if Field(fm, "time") != [] then Field(fm, "time") else DefaultTime,
      if Field(fm, "domain") != [] then Field(fm, "domain") else DefaultDomain,
      Field(fm, "project"), Field(fm, "model"), Field(fm, "summary"), engine))
  }

  /** The front matter of one file: an unreadable file has none. */
  function FrontmatterAt(path: string, contents: map<string, string>): map<string, string> {
    VaultIndex.Frontmatter(if path in contents then Some(contents[path]) else None, FrontmatterLines)
  }

  /** The candidates among `files`, in listing order. */
  function Collected(files: seq<string>, contents: map<string, string>, cfg: ReEnrichConfig): (r: seq<VaultCandidate>)
    ensures |r| <= |files|
    ensures forall c :: c in r ==> c.filePath in files && CandidateOf(c.filePath, FrontmatterAt(c.filePath, contents), cfg) == Some(c)
  {
    if files == [] then []
    else
      var init := Collected(files[..|files| - 1], contents, cfg);
      var path := files[|files| - 1];
      assert forall x :: x in files[..|files| - 1] ==> x in files;
      match CandidateOf(path, FrontmatterAt(path, contents), cfg)
      case Some(c) => init + [c]
      case None => init
  }

  lemma CollectedStep(files: seq<string>, i: nat, contents: map<string, string>, cfg: ReEnrichConfig)
    requires i < |files|
    ensures Collected(files[..i + 1], contents, cfg) ==
      match CandidateOf(files[i], FrontmatterAt(files[i], contents), cfg)
      case Some(c) => Collected(files[..i], contents, cfg) + [c]
      case None => Collected(files[..i], contents, cfg)
  {
    assert files[..i + 1][..i] == files[..i];
  }

  /** Every listed note that qualifies is collected. */
  lemma {:induction false} CollectedComplete(files: seq<string>, contents: map<string, string>, cfg: ReEnrichConfig, i: nat)
    requires i < |files| && CandidateOf(files[i], FrontmatterAt(files[i], contents), cfg).Some?
    ensures CandidateOf(files[i], FrontmatterAt(files[i], contents), cfg).value in Collected(files, contents, cfg)
  {
    if i < |files| - 1 {
      assert files[..|files| - 1][i] == files[i];
      CollectedComplete(files[..|files| - 1], contents, cfg, i);
    }
  }

  /** `a.date.localeCompare(b.date)` as "not after", as code-point order. */
  function ByNoteDate(): (VaultCandidate, VaultCandidate) -> bool {
    (a: VaultCandidate, b: VaultCandidate) => LexLe(a.date, b.date)
  }

  lemma ByNoteDateIsPreorder()
    ensures TotalPreorder(ByNoteDate())
  {
    forall a: VaultCandidate, b: VaultCandidate ensures LexLe(a.date, b.date) || LexLe(b.date, a.date) {
      LexTotal(a.date, b.date);
    }
    forall a: VaultCandidate, b: VaultCandidate, c: VaultCandidate | LexLe(a.date, b.date) && LexLe(b.date, c.date)
      ensures LexLe(a.date, c.date)
    {
      LexTrans(a.date, b.date, c.date);
    }
  }

  function SessionFiles(cfg: ReEnrichConfig, listing: Option<seq<VaultIndex.FsEntry>>): seq<string> {
    VaultIndex.CollectMarkdownFiles(PathJoin(cfg.vaultPath, "Sessions"), listing)
  }

  function SortedCandidates(cfg: ReEnrichConfig, listing: Option<seq<VaultIndex.FsEntry>>, contents: map<string, string>)
    : seq<VaultCandidate>
  {
    SortBy(Collected(SessionFiles(cfg, listing), contents, cfg), ByNoteDate())
  }

  /** `scanForCandidates(config)`: collected, sorted by date, cut to `limit`. */
  function Scan(cfg: ReEnrichConfig, listing: Option<seq<VaultIndex.FsEntry>>, contents: map<string, string>)
    : (r: seq<VaultCandidate>)
    ensures |r| <= |SortedCandidates(cfg, listing, contents)|
    ensures r == SortedCandidates(cfg, listing, contents)[..|r|]
  {
    SliceTo(SortedCandidates(cfg, listing, contents), DailyExtract.Trunc(cfg.limit))
  }

  /**
   * The scan's result is in date order, holds only qualifying notes of the `Sessions` folder,
   * has at most `limit` of them, and no note left out is dated before one kept.
   */
  lemma ScanOrder(cfg: ReEnrichConfig, listing: Option<seq<VaultIndex.FsEntry>>, contents: map<string, string>)
    ensures SortedBy(Scan(cfg, listing, contents), ByNoteDate())
    ensures forall c :: c in Scan(cfg, listing, contents) ==>
      c.filePath in SessionFiles(cfg, listing) &&
      CandidateOf(c.filePath, FrontmatterAt(c.filePath, contents), cfg) == Some(c)
    ensures DailyExtract.Trunc(cfg.limit) >= 0 ==> |Scan(cfg, listing, contents)| <= DailyExtract.Trunc(cfg.limit)
    ensures var r := Scan(cfg, listing, contents);
      var sorted := SortedCandidates(cfg, listing, contents);
      forall i, j :: 0 <= i < |r| <= j < |sorted| ==> LexLe(r[i].date, sorted[j].date)
  {
    var collected := Collected(SessionFiles(cfg, listing), contents, cfg);
    var sorted := SortedCandidates(cfg, listing, contents);
    var r := Scan(cfg, listing, contents);
    ByNoteDateIsPreorder();
    SortBySorted(collected, ByNoteDate());
    SortedPrefix(sorted, |r|, ByNoteDate());
    assert sorted[..|r|] == r;
    forall c | c in r
      ensures c.filePath in SessionFiles(cfg, listing) &&
              CandidateOf(c.filePath, FrontmatterAt(c.filePath, contents), cfg) == Some(c)
    {
      assert c in multiset(sorted);
      assert c in collected;
    }
    forall i, j | 0 <= i < |r| <= j < |sorted| ensures LexLe(r[i].date, sorted[j].date) {
      assert ByNoteDate()(r[i], sorted[j]);
    }
  }

  /** With room for all of them, every qualifying note is a candidate exactly once. */
  lemma ScanAll(cfg: ReEnrichConfig, listing: Option<seq<VaultIndex.FsEntry>>, contents: map<string, string>)
    requires DailyExtract.Trunc(cfg.limit) >= |Collected(SessionFiles(cfg, listing), contents, cfg)|
    ensures multiset(Scan(cfg, listing, contents)) == multiset(Collected(SessionFiles(cfg, listing), contents, cfg))
  {
    var sorted := SortedCandidates(cfg, listing, contents);
    assert Scan(cfg, listing, contents) == sorted[..|sorted|] == sorted;
  }

  /** The `for (const filePath of allFiles)` loop, then the sort and the cut. */
  method ScanForCandidates(cfg: ReEnrichConfig, listing: Option<seq<VaultIndex.FsEntry>>, contents: map<string, string>)
    returns (candidates: seq<VaultCandidate>)
    ensures candidates == Scan(cfg, listing, contents)
  {
    var files := SessionFiles(cfg, listing);
    var found := [];
    for i := 0 to |files|
      invariant found == Collected(files[..i], contents, cfg)
    {
      CollectedStep(files, i, contents, cfg);
      var path := files[i];
      var fm := VaultIndex.ReadFrontmatter(if path in contents then Some(contents[path]) else None, FrontmatterLines);
      var candidate := CandidateOf(path, fm, cfg);
      if candidate.Some? {
        found := found + [candidate.value];
      }
    }
    assert files[..|files|] == files;
    candidates := SliceTo(SortBy(found, ByNoteDate()), DailyExtract.Trunc(cfg.limit));
  }

  // ------------------------------------------------------------ history index

  /** What the history index keeps for a session. */
  datatype HistoryHit = HistoryHit(project: string, timestamp: int)

  function HitOf(e: CodeDiscovery.HistoryEntry): HistoryHit {
    HistoryHit(e.project, e.timestamp)
  }

  /** One entry of the fold: a new id is added, a known one replaced only by a strictly newer entry. */
  function Keep(index: map<string, HistoryHit>, e: CodeDiscovery.HistoryEntry): map<string, HistoryHit> {
    if e.sessionId !in index || e.timestamp > index[e.sessionId].timestamp then index[e.sessionId := HitOf(e)]
    else index
  }

  /** The index after the entries `entries`, in file order. */
  function HistoryIndex(entries: seq<CodeDiscovery.HistoryEntry>): map<string, HistoryHit> {
    if entries == [] then map[]
    else Keep(HistoryIndex(entries[..|entries| - 1]), entries[|entries| - 1])
  }

  lemma HistoryIndexSnoc(entries: seq<CodeDiscovery.HistoryEntry>, e: CodeDiscovery.HistoryEntry)
    ensures HistoryIndex(entries + [e]) == Keep(HistoryIndex(entries), e)
  {
    assert (entries + [e])[..|entries|] == entries;
  }

  /** Every entry's session is indexed, with a timestamp at least as high. */
  lemma {:induction false} HistoryIndexHasMax(entries: seq<CodeDiscovery.HistoryEntry>, k: nat)
    requires k < |entries|
    ensures entries[k].sessionId in HistoryIndex(entries)
    ensures entries[k].timestamp <= HistoryIndex(entries)[entries[k].sessionId].timestamp
  {
    var init := entries[..|entries| - 1];
    if k < |entries| - 1 {
      assert init[k] == entries[k];
      HistoryIndexHasMax(init, k);
    }
  }

  /** What is kept for an id comes from an entry of that id, the first one with the highest timestamp. */
  lemma {:induction false} HistoryIndexFirstMax(entries: seq<CodeDiscovery.HistoryEntry>, id: string)
    requires id in HistoryIndex(entries)
    ensures exists j :: (0 <= j < |entries| && entries[j].sessionId == id && HitOf(entries[j]) == HistoryIndex(entries)[id] &&
      (forall k :: 0 <= k < j && entries[k].sessionId == id ==> entries[k].timestamp < entries[j].timestamp))
  {
    var init := entries[..|entries| - 1];
    var e := entries[|entries| - 1];
    var before := HistoryIndex(init);
    if id in before && HistoryIndex(entries)[id] == before[id] && !(e.sessionId == id && HitOf(e) == before[id] && id !in before) {
      if e.sessionId == id {
        assert !(e.timestamp > before[id].timestamp);
      }
      HistoryIndexFirstMax(init, id);
      var j :| 0 <= j < |init| && init[j].sessionId == id && HitOf(init[j]) == before[id] &&
        (forall k :: 0 <= k < j && init[k].sessionId == id ==> init[k].timestamp < init[j].timestamp);
      assert entries[j] == init[j];
      assert forall k :: 0 <= k < j ==> entries[k] == init[k];
    } else {
      var j := |entries| - 1;
      assert e.sessionId == id && HitOf(e) == HistoryIndex(entries)[id];
      forall k | 0 <= k < j && entries[k].sessionId == id
        ensures entries[k].timestamp < entries[j].timestamp
      {
        assert init[k] == entries[k];
        HistoryIndexHasMax(init, k);
      }
    }
  }

  /** `buildHistoryIndex()`: a missing or unreadable history gives an empty index. */
  lemma HistoryIndexStep(lines: seq<Option<Json>>, i: nat)
    requires i < |lines|
    ensures HistoryIndex(CodeDiscovery.History(lines[..i + 1])) ==
      match CodeDiscovery.HistoryEntryOf(lines[i])
      case Some(e) => Keep(HistoryIndex(CodeDiscovery.History(lines[..i])), e)
      case None => HistoryIndex(CodeDiscovery.History(lines[..i]))
  {
    assert lines[..i + 1][..i] == lines[..i];
    var e := CodeDiscovery.HistoryEntryOf(lines[i]);
    if e.Some? {
      HistoryIndexSnoc(CodeDiscovery.History(lines[..i]), e.value);
    }
  }

  /** One line of `history.jsonl`: an entry with an id and a timestamp is kept when it is new or newer. */
  method AddHistoryLine(index: map<string, HistoryHit>, line: Option<Json>) returns (index': map<string, HistoryHit>)
    ensures CodeDiscovery.HistoryEntryOf(line).None? ==> index' == index
    ensures CodeDiscovery.HistoryEntryOf(line).Some? ==> index' == Keep(index, CodeDiscovery.HistoryEntryOf(line).value)
  {
    index' := index;
    var entry := CodeDiscovery.HistoryEntryOf(line);
    if entry.Some? {
      var e := entry.value;
      if e.sessionId !in index || e.timestamp > index[e.sessionId].timestamp {
        index' := index[e.sessionId := HistoryHit(e.project, e.timestamp)];
      }
    }
  }

  method BuildHistoryIndex(file: Option<seq<Option<Json>>>) returns (index: map<string, HistoryHit>)
    ensures file.None? ==> index == map[]
    ensures file.Some? ==> index == HistoryIndex(CodeDiscovery.History(file.value))
  {
    index := map[];
    if file.None? {
      return;
    }
    var lines := file.value;
    for i := 0 to |lines|
      invariant index == HistoryIndex(CodeDiscovery.History(lines[..i]))
    {
      HistoryIndexStep(lines, i);
      index := AddHistoryLine(index, lines[i]);
    }
    assert lines[..|lines|] == lines;
  }

  // ------------------------------------------------------------ transcript lookup

  /** Where a session's transcript was found, and which source that makes it. */
  datatype TranscriptLocation = TranscriptLocation(transcriptPath: string, source: SourceType, cwd: string)

  /** The Claude Desktop metadata files, depth first; none when the base directory is missing. */
  function DesktopMetaFiles(home: string, listing: Option<seq<VaultIndex.FsEntry>>): seq<string> {
    if listing.None? then [] else DesktopDiscovery.MetadataFilesIn(DesktopDiscovery.BaseDir(home), listing.value)
  }

  /** A metadata file named after `id` with an `audit.jsonl` in the `<id>` folder beside it. */
  predicate DesktopMatch(metaFile: string, id: string, existing: set<string>) {
    DesktopDiscovery.ExtractSessionId(Basename(metaFile)) == id &&
    DesktopDiscovery.AuditCandidate(Dirname(metaFile), id) in existing
  }

  /** Which metadata files match, in walk order. */
  function Matches(metaFiles: seq<string>, id: string, existing: set<string>): (r: seq<bool>)
    ensures |r| == |metaFiles|
    ensures forall k :: 0 <= k < |r| ==> r[k] == DesktopMatch(metaFiles[k], id, existing)
  {
    seq(|metaFiles|, k requires 0 <= k < |metaFiles| => DesktopMatch(metaFiles[k], id, existing))
  }

  /** The Claude Code transcript named by the history, if the history knows the session and the file exists. */
  predicate CodeTranscriptExists(id: string, history: map<string, HistoryHit>, home: string, existing: set<string>) {
    id in history && CodeDiscovery.TranscriptPath(home, id, history[id].project) in existing
  }

  /** `findTranscriptPath(sessionId, historyIndex)` */
  function Lookup(id: string, history: map<string, HistoryHit>, home: string, existing: set<string>,
                  desktop: Option<seq<VaultIndex.FsEntry>>): (r: Option<TranscriptLocation>)
    ensures CodeTranscriptExists(id, history, home, existing) ==>
      r == Some(TranscriptLocation(CodeDiscovery.TranscriptPath(home, id, history[id].project), ClaudeCodeSource,
                                   history[id].project))
    ensures r.Some? ==> r.value.transcriptPath in existing
    ensures r.Some? && r.value.source == ClaudeDesktopSource ==>
      var metaFiles := DesktopMetaFiles(home, desktop);
      !CodeTranscriptExists(id, history, home, existing) && r.value.cwd == [] &&
      exists k :: 0 <= k < |metaFiles| && DesktopMatch(metaFiles[k], id, existing) &&
        r.value.transcriptPath == DesktopDiscovery.AuditCandidate(Dirname(metaFiles[k]), id) &&
        forall j :: 0 <= j < k ==> !DesktopMatch(metaFiles[j], id, existing)
    ensures r.None? <==>
      !CodeTranscriptExists(id, history, home, existing) &&
      forall m :: m in DesktopMetaFiles(home, desktop) ==> !DesktopMatch(m, id, existing)
  {
    if CodeTranscriptExists(id, history, home, existing) then
      Some(TranscriptLocation(CodeDiscovery.TranscriptPath(home, id, history[id].project), ClaudeCodeSource,
                              history[id].project))
    else
      var metaFiles := DesktopMetaFiles(home, desktop);
      var k := VaultIndex.NextSet(Matches(metaFiles, id, existing), 0);
      if k == |metaFiles| then None
      else
        assert DesktopMatch(metaFiles[k], id, existing);
        assert forall j :: 0 <= j < k ==> !DesktopMatch(metaFiles[j], id, existing);
        Some(TranscriptLocation(DesktopDiscovery.AuditCandidate(Dirname(metaFiles[k]), id), ClaudeDesktopSource, ""))
  }

  /** `findTranscriptPath`: the history entry first, then the walk over the desktop metadata files, returning at the first hit. */
  method FindTranscriptPath(id: string, history: map<string, HistoryHit>, home: string, existing: set<string>,
                            desktop: Option<seq<VaultIndex.FsEntry>>)
    returns (location: Option<TranscriptLocation>)
    ensures location == Lookup(id, history, home, existing, desktop)
  {
    if id in history {
      var transcriptPath := CodeDiscovery.TranscriptPath(home, id, history[id].project);
      if transcriptPath in existing {
        return Some(TranscriptLocation(transcriptPath, ClaudeCodeSource, history[id].project));
      }
    }
    if desktop.None? {
      return None;
    }
    var metaFiles := DesktopMetaFiles(home, desktop);
    for i := 0 to |metaFiles|
      invariant VaultIndex.NextSet(Matches(metaFiles, id, existing), 0) ==
                VaultIndex.NextSet(Matches(metaFiles, id, existing), i)
    {
      var metaFile := metaFiles[i];
      if DesktopDiscovery.ExtractSessionId(Basename(metaFile)) == id {
        var auditPath := DesktopDiscovery.AuditCandidate(Dirname(metaFile), id);
        if auditPath in existing {
          return Some(TranscriptLocation(auditPath, ClaudeDesktopSource, ""));
        }
      }
    }
    return None;
  }

  // ------------------------------------------------------------------ rewriting

  const OriginalFooter := "*Auto-captured by ObsidianSessionCapture at session end*"
  const PipelineFooter := "*Auto-captured by DailyExtractionPipeline*"
  const StatusLine := "status: completed"
  const SourceLine := "\nsource: \"daily-pipeline\""

  /** `s.replace(pattern, replacement)` with a string pattern: only the first occurrence is replaced. */
  function ReplaceFirst(s: string, pattern: string, replacement: string): (r: string)
    ensures !Contains(s, pattern) ==> r == s
    ensures Contains(s, pattern) ==>
      exists i :: OccursAt(s, pattern, i) && (forall j :: 0 <= j < i ==> !OccursAt(s, pattern, j)) &&
        r == s[..i] + replacement + s[i + |pattern|..]
  {
    var i := IndexOf(s, pattern);
    if i < 0 then s
    else
      assert OccursAt(s, pattern, i);
      s[..i] + replacement + s[i + |pattern|..]
  }

  /** The characters after which `^` matches in a multiline JavaScript regular expression. */
  predicate LineTerminator(c: char) {
    c == '\n' || c == '\r' || c == '\U{2028}' || c == '\U{2029}'
  }

  /** `^` in multiline mode: the start of the text or just after a line terminator. */
  predicate LineStart(s: string, i: int) {
    i == 0 || (0 < i <= |s| && LineTerminator(s[i - 1]))
  }

  /** `/^(status: completed)/m` matches at `i`. */
  predicate StatusAt(s: string, i: int) {
    LineStart(s, i) && OccursAt(s, StatusLine, i)
  }

  function StatusFlags(s: string): (r: seq<bool>)
    ensures |r| == |s| + 1
    ensures forall i :: 0 <= i <= |s| ==> r[i] == StatusAt(s, i)
  {
    seq(|s| + 1, i requires 0 <= i <= |s| => StatusAt(s, i))
  }

  /** `s.replace(/^(status: completed)/m, '$1\nsource: "daily-pipeline"')`: the source line follows the first status line. */
  function Tag(s: string): (r: string)
    ensures (forall i :: 0 <= i <= |s| ==> !StatusAt(s, i)) ==> r == s
    ensures (exists i :: 0 <= i <= |s| && StatusAt(s, i)) ==>
      exists i :: StatusAt(s, i) && (forall j :: 0 <= j < i ==> !StatusAt(s, j)) &&
        r == s[..i + |StatusLine|] + SourceLine + s[i + |StatusLine|..]
  {
    var flags := StatusFlags(s);
    var i := VaultIndex.NextSet(flags, 0);
    if i == |flags| then s
    else
      assert StatusAt(s, i);
      s[..i + |StatusLine|] + SourceLine + s[i + |StatusLine|..]
  }

  /** The two edits `main` makes to the rendered note: the footer, then the source line. */
  function Retag(rendered: string): string {
    Tag(ReplaceFirst(rendered, OriginalFooter, PipelineFooter))
  }

  // ------------------------------------------------------------------ one candidate

  /** The session rebuilt from a candidate note and its transcript (step 5b). */
  function SessionFor(c: VaultCandidate, t: TranscriptLocation, parseDate: string -> Option<int>, nowMs: int)
    : (r: DiscoveredSession)
    ensures r.id == c.sessionId && r.source == t.source && r.transcriptPath == t.transcriptPath && r.cwd == t.cwd
    ensures r.title == (if c.summary != [] then c.summary else c.sessionId)
    ensures r.model == c.model && r.domain == c.domain && r.project == c.project
    ensures r.createdAt == r.lastActivityAt
    ensures parseDate(c.date + "T" + c.time + ":00").Some? ==> r.createdAt == parseDate(c.date + "T" + c.time + ":00").value
    ensures parseDate(c.date + "T" + c.time + ":00").None? ==> r.createdAt == nowMs
    ensures (t.cwd == [] ==> r.userPaths == []) && (t.cwd != [] ==> r.userPaths == [t.cwd]) && r.subagentPaths == []
  {
    var ms := match parseDate(c.date + "T" + c.time + ":00") case Some(ms) => ms case None => nowMs;
    DiscoveredSession(c.sessionId, t.source, if c.summary != [] then c.summary else c.sessionId, c.model, ms, ms,
                      t.cwd, if t.cwd != [] then [t.cwd] else [], c.domain, c.project, t.transcriptPath, [])
  }

  /** What one candidate meets besides the configuration and the two indexes. */
  datatype Services = Services(
    home: string,
    env: Env,
    nowMs: int,
    /** `Date.parse`; `None` for NaN. */
    parseDate: string -> Option<int>,
    /** The paths that exist. */
    existing: set<string>,
    /** The Claude Desktop session tree; `None` when its base directory is missing. */
    desktop: Option<seq<VaultIndex.FsEntry>>,
    /** The parsed lines of a transcript file; `None` when it cannot be read. */
    transcripts: string -> Option<seq<Option<Json>>>,
    /** The headless model call for a session. */
    llm: DiscoveredSession -> LlmOutcome,
    parse: string -> Option<Json>,
    /** `renderSessionNote` of the payload built from the session and the extraction. */
    render: (DiscoveredSession, ExtractionResult) -> string,
    /** The note paths `writeFileSync` throws on. */
    unwritable: set<string>,
    /** `getDateString()` for the knowledge note names. */
    today: string)

  /** `extractSessionKnowledge(session, {dryRun, llmModel, ...})` on the transcript the session names. */
  function ExtractionFor(s: DiscoveredSession, cfg: ReEnrichConfig, sv: Services): ExtractionResult {
    var source := if s.source == ClaudeDesktopSource then Transcript.ClaudeDesktop else Transcript.ClaudeCode;
    var transcript := sv.transcripts(s.transcriptPath);
    ExtractFrom(if transcript.Some? then Transcript.Messages(source, transcript.value) else [], s.title, sv.home,
                ExtractionOptions(cfg.llmModel, cfg.dryRun), sv.env, sv.llm(s), sv.parse)
  }

  /** What becomes of one candidate: no transcript, a heuristic answer again, or a rewrite with this content. */
  datatype Fate = NoTranscript | StillHeuristic | Rewrite(content: string, extraction: ExtractionResult, knowledge: nat)

  function FateOf(c: VaultCandidate, history: map<string, HistoryHit>, index: VaultIndex.VaultIndex,
                  cfg: ReEnrichConfig, sv: Services): (r: Fate)
    ensures r.NoTranscript? <==> Lookup(c.sessionId, history, sv.home, sv.existing, sv.desktop).None?
    ensures r.Rewrite? ==>
      r.extraction.engine == EngineHeadless && r.knowledge == KnowledgeCount(r.extraction, cfg, index, sv.home)
    ensures cfg.dryRun ==> !r.Rewrite?
  {
    match Lookup(c.sessionId, history, sv.home, sv.existing, sv.desktop)
    case None => NoTranscript
    case Some(t) =>
      var session := SessionFor(c, t, sv.parseDate, sv.nowMs);
      var x := ExtractionFor(session, cfg, sv);
      if StartsWith(x.engine, EngineHeuristic) then StillHeuristic
      else Rewrite(Retag(sv.render(session, x)), x, KnowledgeCount(x, cfg, index, sv.home))
  }

  /** The four counters `main` reports. */
  datatype ReTally = ReTally(enriched: nat, stillHeuristic: nat, transcriptNotFound: nat, knowledgeNotesWritten: nat)

  const NoWork := ReTally(0, 0, 0, 0)

  /** The vault's note contents, its files, the counters, and whether a write threw out of the loop. */
  datatype ReState = ReState(notes: map<string, string>, files: set<string>, tally: ReTally, threw: bool)

  /** How many knowledge notes `writeKnowledgeNotes` writes for an extraction. */
  function KnowledgeCount(x: ExtractionResult, cfg: ReEnrichConfig, index: VaultIndex.VaultIndex, home: string): nat {
    if cfg.dryRun then 0
    else |KnowledgeWriter.Admitted(KnowledgeWriter.Candidates(x.keyDecisions, x.patterns, x.learnings, home),
                                   cfg.knowledgeConfidence, index)|
  }

  /** The vault's files after `writeKnowledgeNotes` for one extraction; a dry run leaves them alone. */
  function KnowledgeFiles(x: ExtractionResult, cfg: ReEnrichConfig, index: VaultIndex.VaultIndex, sv: Services,
                          files: set<string>): (r: set<string>)
    ensures files <= r && |r| == |files| + KnowledgeCount(x, cfg, index, sv.home)
  {
    if cfg.dryRun then files
    else
      KnowledgeWriter.FilesAfter(
        KnowledgeWriter.Admitted(KnowledgeWriter.Candidates(x.keyDecisions, x.patterns, x.learnings, sv.home),
                                 cfg.knowledgeConfidence, index),
        cfg.vaultPath, sv.today, files)
  }

  /** One pass of the loop (step 5) on the candidate's fate; nothing happens once a write has thrown. */
  function Apply(st: ReState, path: string, fate: Fate, index: VaultIndex.VaultIndex, cfg: ReEnrichConfig,
                 sv: Services): ReState
  {
    if st.threw then st
    else
      match fate
      case NoTranscript => st.(tally := st.tally.(transcriptNotFound := st.tally.transcriptNotFound + 1))
      case StillHeuristic => st.(tally := st.tally.(stillHeuristic := st.tally.stillHeuristic + 1))
      case Rewrite(content, x, count) =>
        if !cfg.dryRun && path in sv.unwritable then st.(threw := true)
        else
          ReState(if cfg.dryRun then st.notes else st.notes[path := content],
                  KnowledgeFiles(x, cfg, index, sv, st.files),
                  st.tally.(enriched := st.tally.enriched + 1,
                            knowledgeNotesWritten := st.tally.knowledgeNotesWritten + count),
                  false)
  }

  /** `f` applied to each element, in order. */
  function Pointwise<A, B>(f: A -> B, xs: seq<A>): (r: seq<B>)
    ensures |r| == |xs|
  {
    if xs == [] then [] else Pointwise(f, xs[..|xs| - 1]) + [f(xs[|xs| - 1])]
  }

  lemma {:induction false} PointwiseAt<A, B>(f: A -> B, xs: seq<A>, k: nat)
    requires k < |xs|
    ensures Pointwise(f, xs)[k] == f(xs[k])
  {
    var n := |xs| - 1;
    if k < n {
      PointwiseAt(f, xs[..n], k);
      assert xs[..n][k] == xs[k];
    }
  }

  /** The judgement the loop passes on each candidate. */
  function Judgement(history: map<string, HistoryHit>, index: VaultIndex.VaultIndex, cfg: ReEnrichConfig,
                     sv: Services): VaultCandidate -> Fate
  {
    c => FateOf(c, history, index, cfg, sv)
  }

  /** The fate of each candidate, in order. */
  function Fates(cands: seq<VaultCandidate>, history: map<string, HistoryHit>, index: VaultIndex.VaultIndex,
                 cfg: ReEnrichConfig, sv: Services): (r: seq<Fate>)
    ensures |r| == |cands|
  {
    Pointwise(Judgement(history, index, cfg, sv), cands)
  }

  /** The k-th fate is the k-th candidate's. */
  lemma FateAt(cands: seq<VaultCandidate>, history: map<string, HistoryHit>, index: VaultIndex.VaultIndex,
               cfg: ReEnrichConfig, sv: Services, k: nat)
    requires k < |cands|
    ensures Fates(cands, history, index, cfg, sv)[k] == FateOf(cands[k], history, index, cfg, sv)
  {
    PointwiseAt(Judgement(history, index, cfg, sv), cands, k);
  }

  /** The loop over the candidates in order, each with its fate. */
  function Processed(st: ReState, cands: seq<VaultCandidate>, fates: seq<Fate>, index: VaultIndex.VaultIndex,
                     cfg: ReEnrichConfig, sv: Services)
    : ReState
    requires |fates| == |cands|
    decreases |cands|
  {
    if cands == [] then st
    else
      var n := |cands| - 1;
      Apply(Processed(st, cands[..n], fates[..n], index, cfg, sv), cands[n].filePath, fates[n], index, cfg, sv)
  }

  lemma ProcessedSnoc(st: ReState, cands: seq<VaultCandidate>, fates: seq<Fate>, i: nat, index: VaultIndex.VaultIndex,
                      cfg: ReEnrichConfig, sv: Services)
    requires |fates| == |cands| && i < |cands|
    ensures Processed(st, cands[..i + 1], fates[..i + 1], index, cfg, sv) ==
      Apply(Processed(st, cands[..i], fates[..i], index, cfg, sv), cands[i].filePath, fates[i], index, cfg, sv)
  {
    assert cands[..i + 1][..i] == cands[..i] && fates[..i + 1][..i] == fates[..i];
  }

  /** Once a write throws, the rest of the candidates change nothing. */
  lemma {:induction false} ThrowIsFinal(st: ReState, cands: seq<VaultCandidate>, fates: seq<Fate>, i: nat,
                                        index: VaultIndex.VaultIndex, cfg: ReEnrichConfig, sv: Services)
    requires |fates| == |cands| && i <= |cands|
    requires Processed(st, cands[..i], fates[..i], index, cfg, sv).threw
    ensures Processed(st, cands, fates, index, cfg, sv) == Processed(st, cands[..i], fates[..i], index, cfg, sv)
    decreases |cands|
  {
    if i < |cands| {
      var n := |cands| - 1;
      assert cands[..n][..i] == cands[..i] && fates[..n][..i] == fates[..i];
      ThrowIsFinal(st, cands[..n], fates[..n], i, index, cfg, sv);
      var before := Processed(st, cands[..n], fates[..n], index, cfg, sv);
      assert before.threw;
      assert Processed(st, cands, fates, index, cfg, sv) == Apply(before, cands[n].filePath, fates[n], index, cfg, sv);
    } else {
      assert cands[..i] == cands && fates[..i] == fates;
    }
  }

  /** Every candidate lands in exactly one of the three counters when no write threw. */
  lemma {:induction false} EveryCandidateCounted(st: ReState, cands: seq<VaultCandidate>, fates: seq<Fate>,
                                                 index: VaultIndex.VaultIndex, cfg: ReEnrichConfig, sv: Services)
    requires |fates| == |cands|
    requires !Processed(st, cands, fates, index, cfg, sv).threw
    ensures var t := Processed(st, cands, fates, index, cfg, sv).tally;
      t.enriched + t.stillHeuristic + t.transcriptNotFound ==
      st.tally.enriched + st.tally.stillHeuristic + st.tally.transcriptNotFound + |cands|
    decreases |cands|
  {
    if cands != [] {
      var n := |cands| - 1;
      EveryCandidateCounted(st, cands[..n], fates[..n], index, cfg, sv);
    }
  }

  /** A dry run rewrites no note, adds no file, enriches nothing and writes no knowledge note: every extraction is heuristic. */
  lemma {:induction false} DryRunRewritesNothing(st: ReState, cands: seq<VaultCandidate>,
                                                 history: map<string, HistoryHit>, index: VaultIndex.VaultIndex,
                                                 cfg: ReEnrichConfig, sv: Services)
    requires cfg.dryRun
    ensures var r := Processed(st, cands, Fates(cands, history, index, cfg, sv), index, cfg, sv);
      r.notes == st.notes && r.files == st.files && r.threw == st.threw &&
      r.tally.enriched == st.tally.enriched && r.tally.knowledgeNotesWritten == st.tally.knowledgeNotesWritten
    decreases |cands|
  {
    if cands != [] {
      var n := |cands| - 1;
      var judge := Judgement(history, index, cfg, sv);
      assert Fates(cands, history, index, cfg, sv) == Fates(cands[..n], history, index, cfg, sv) + [judge(cands[n])];
      assert Fates(cands, history, index, cfg, sv)[..n] == Fates(cands[..n], history, index, cfg, sv);
      DryRunRewritesNothing(st, cands[..n], history, index, cfg, sv);
    }
  }

  /** Each knowledge note the loop counts is a new file, and there are no others. */
  lemma {:induction false} FilesCounted(st: ReState, cands: seq<VaultCandidate>, fates: seq<Fate>,
                                        index: VaultIndex.VaultIndex, cfg: ReEnrichConfig, sv: Services)
    requires |fates| == |cands|
    requires forall k :: 0 <= k < |fates| && fates[k].Rewrite? ==>
      fates[k].knowledge == KnowledgeCount(fates[k].extraction, cfg, index, sv.home)
    ensures var r := Processed(st, cands, fates, index, cfg, sv);
      st.files <= r.files &&
      |r.files| - |st.files| == r.tally.knowledgeNotesWritten - st.tally.knowledgeNotesWritten
    decreases |cands|
  {
    if cands != [] {
      var n := |cands| - 1;
      assert forall k :: 0 <= k < n ==> fates[..n][k] == fates[k];
      FilesCounted(st, cands[..n], fates[..n], index, cfg, sv);
      ApplyFilesCounted(Processed(st, cands[..n], fates[..n], index, cfg, sv), cands[n].filePath, fates[n], index, cfg, sv);
    }
  }

  lemma ApplyFilesCounted(st: ReState, path: string, fate: Fate, index: VaultIndex.VaultIndex, cfg: ReEnrichConfig,
                          sv: Services)
    requires fate.Rewrite? ==> fate.knowledge == KnowledgeCount(fate.extraction, cfg, index, sv.home)
    ensures var r := Apply(st, path, fate, index, cfg, sv);
      st.files <= r.files &&
      |r.files| - |st.files| == r.tally.knowledgeNotesWritten - st.tally.knowledgeNotesWritten
  {
  }

  /** A note no candidate rewrites keeps its content. */
  lemma {:induction false} UntouchedNote(st: ReState, cands: seq<VaultCandidate>, fates: seq<Fate>,
                                         index: VaultIndex.VaultIndex, cfg: ReEnrichConfig, sv: Services, p: string)
    requires |fates| == |cands|
    requires forall k :: 0 <= k < |cands| && cands[k].filePath == p ==> !fates[k].Rewrite?
    ensures var r := Processed(st, cands, fates, index, cfg, sv);
      (p in r.notes <==> p in st.notes) && (p in st.notes ==> r.notes[p] == st.notes[p])
    decreases |cands|
  {
    if cands != [] {
      var n := |cands| - 1;
      UntouchedNote(st, cands[..n], fates[..n], index, cfg, sv, p);
    }
  }

  /** The vault's notes, written in place. */
  class SessionNotes {
    var contents: map<string, string>

    constructor (contents: map<string, string>)
      ensures this.contents == contents
    {
      this.contents := contents;
    }

    /** `writeFileSync(path, content, 'utf-8')`; `threw` when the path cannot be written. */
    method WriteNote(path: string, content: string, unwritable: set<string>) returns (threw: bool)
      modifies this
      ensures threw == (path in unwritable)
      ensures contents == if threw then old(contents) else old(contents)[path := content]
    {
      threw := path in unwritable;
      if !threw {
        contents := contents[path := content];
      }
    }
  }

  /** Steps 5b and 5c: the rebuilt session and its extraction. */
  method Reextract(c: VaultCandidate, t: TranscriptLocation, cfg: ReEnrichConfig, sv: Services)
    returns (session: DiscoveredSession, extraction: ExtractionResult)
    ensures session == SessionFor(c, t, sv.parseDate, sv.nowMs)
    ensures extraction == ExtractionFor(session, cfg, sv)
  {
    session := SessionFor(c, t, sv.parseDate, sv.nowMs);
    extraction := ExtractSessionKnowledge(session, sv.transcripts(session.transcriptPath), sv.home,
                                          ExtractionOptions(cfg.llmModel, cfg.dryRun), sv.env, sv.llm(session),
                                          sv.parse);
  }

  /** Step 5f: the knowledge notes of an answered extraction. */
  method WriteKnowledge(x: ExtractionResult, cfg: ReEnrichConfig, index: VaultIndex.VaultIndex, sv: Services,
                        knowledge: KnowledgeWriter.KnowledgeNotes)
    returns (count: nat)
    modifies knowledge
    ensures count == KnowledgeCount(x, cfg, index, sv.home)
    ensures knowledge.files == KnowledgeFiles(x, cfg, index, sv, old(knowledge.files))
  {
    var knowledgePaths := knowledge.WriteKnowledgeNotes(x.keyDecisions, x.patterns, x.learnings, cfg.vaultPath,
                                                        cfg.knowledgeConfidence, index, cfg.dryRun, sv.today, sv.home);
    count := |knowledgePaths|;
  }

  /** Steps 5a to 5e up to the write: the fate `main` finds for a candidate. */
  method Judge(c: VaultCandidate, history: map<string, HistoryHit>, index: VaultIndex.VaultIndex,
               cfg: ReEnrichConfig, sv: Services)
    returns (fate: Fate)
    ensures fate == FateOf(c, history, index, cfg, sv)
  {
    var location := FindTranscriptPath(c.sessionId, history, sv.home, sv.existing, sv.desktop);
    if location.None? {
      return NoTranscript;
    }
    var session, extraction := Reextract(c, location.value, cfg, sv);
    if StartsWith(extraction.engine, EngineHeuristic) {
      return StillHeuristic;
    }
    fate := Rewrite(Retag(sv.render(session, extraction)), extraction, KnowledgeCount(extraction, cfg, index, sv.home));
  }

  /** Step 5e's write and step 5f for a candidate whose fate is known. */
  method EnrichOne(path: string, fate: Fate, index: VaultIndex.VaultIndex, cfg: ReEnrichConfig, sv: Services,
                   vault: SessionNotes, knowledge: KnowledgeWriter.KnowledgeNotes, tally: ReTally)
    returns (tally': ReTally, threw: bool)
    requires fate.Rewrite? ==> fate.knowledge == KnowledgeCount(fate.extraction, cfg, index, sv.home)
    modifies vault, knowledge
    ensures ReState(vault.contents, knowledge.files, tally', threw) == Apply(ReState(old(vault.contents), old(knowledge.files), tally, false), path, fate, index, cfg, sv)
    ensures cfg.dryRun ==> knowledge.files == old(knowledge.files)
  {
    match fate
    case NoTranscript =>
      return tally.(transcriptNotFound := tally.transcriptNotFound + 1), false;
    case StillHeuristic =>
      return tally.(stillHeuristic := tally.stillHeuristic + 1), false;
    case Rewrite(_, _, _) =>
      tally', threw := RewriteNote(path, fate, index, cfg, sv, vault, knowledge, tally);
  }

  /** Step 5e's write of the rewritten note, then step 5f; a throwing write skips the knowledge notes. */
  method RewriteNote(path: string, fate: Fate, index: VaultIndex.VaultIndex, cfg: ReEnrichConfig, sv: Services,
                 vault: SessionNotes, knowledge: KnowledgeWriter.KnowledgeNotes, tally: ReTally)
    returns (tally': ReTally, threw: bool)
    requires fate.Rewrite? && fate.knowledge == KnowledgeCount(fate.extraction, cfg, index, sv.home)
    modifies vault, knowledge
    ensures ReState(vault.contents, knowledge.files, tally', threw) ==
      Apply(ReState(old(vault.contents), old(knowledge.files), tally, false), path, fate, index, cfg, sv)
  {
    if !cfg.dryRun {
      threw := vault.WriteNote(path, fate.content, sv.unwritable);
      if threw {
        return tally, true;
      }
    }
    var count := WriteKnowledge(fate.extraction, cfg, index, sv, knowledge);
    tally' := tally.(enriched := tally.enriched + 1, knowledgeNotesWritten := tally.knowledgeNotesWritten + count);
    threw := false;
  }

  /** One pass of step 5: judge the i-th candidate, then write what its fate asks for. */
  method EnrichAt(cands: seq<VaultCandidate>, i: nat, history: map<string, HistoryHit>, index: VaultIndex.VaultIndex,
                  cfg: ReEnrichConfig, sv: Services, vault: SessionNotes, knowledge: KnowledgeWriter.KnowledgeNotes,
                  tally: ReTally)
    returns (tally': ReTally, threw: bool)
    requires i < |cands|
    modifies vault, knowledge
    ensures ReState(vault.contents, knowledge.files, tally', threw) ==
      Apply(ReState(old(vault.contents), old(knowledge.files), tally, false), cands[i].filePath, Fates(cands, history, index, cfg, sv)[i], index, cfg, sv)
    ensures cfg.dryRun ==> knowledge.files == old(knowledge.files)
  {
    FateAt(cands, history, index, cfg, sv, i);
    var fate := Judge(cands[i], history, index, cfg, sv);
    tally', threw := EnrichOne(cands[i].filePath, fate, index, cfg, sv, vault, knowledge, tally);
  }

  /** One pass of step 5, as a step of the loop over all the candidates processed so far. */
  method EnrichStep(cands: seq<VaultCandidate>, i: nat, history: map<string, HistoryHit>,
                    index: VaultIndex.VaultIndex, cfg: ReEnrichConfig, sv: Services, vault: SessionNotes,
                    knowledge: KnowledgeWriter.KnowledgeNotes, tally: ReTally, ghost start: ReState)
    returns (tally': ReTally, threw: bool)
    requires i < |cands|
    requires ReState(vault.contents, knowledge.files, tally, false) ==
      Processed(start, cands[..i], Fates(cands, history, index, cfg, sv)[..i], index, cfg, sv)
    modifies vault, knowledge
    ensures ReState(vault.contents, knowledge.files, tally', threw) ==
      Processed(start, cands[..i + 1], Fates(cands, history, index, cfg, sv)[..i + 1], index, cfg, sv)
    ensures cfg.dryRun ==> knowledge.files == old(knowledge.files)
  {
    ProcessedSnoc(start, cands, Fates(cands, history, index, cfg, sv), i, index, cfg, sv);
    tally', threw := EnrichAt(cands, i, history, index, cfg, sv, vault, knowledge, tally);
  }

  /** Step 5: the loop, which a throwing write leaves at once. */
  method EnrichAll(cands: seq<VaultCandidate>, history: map<string, HistoryHit>, index: VaultIndex.VaultIndex,
                   cfg: ReEnrichConfig, sv: Services, vault: SessionNotes, knowledge: KnowledgeWriter.KnowledgeNotes)
    returns (tally: ReTally, threw: bool)
    modifies vault, knowledge
    ensures ReState(vault.contents, knowledge.files, tally, threw) ==
      Processed(ReState(old(vault.contents), old(knowledge.files), NoWork, false), cands, Fates(cands, history, index, cfg, sv), index, cfg, sv)
    ensures cfg.dryRun ==> knowledge.files == old(knowledge.files)
  {
    ghost var start := ReState(vault.contents, knowledge.files, NoWork, false);
    ghost var fates := Fates(cands, history, index, cfg, sv);
    tally, threw := NoWork, false;
    var i := 0;
    while i < |cands|
      invariant 0 <= i <= |cands|
      invariant ReState(vault.contents, knowledge.files, tally, threw) == Processed(start, cands[..i], fates[..i], index, cfg, sv)
      invariant !threw
      invariant cfg.dryRun ==> knowledge.files == old(knowledge.files)
    {
      tally, threw := EnrichStep(cands, i, history, index, cfg, sv, vault, knowledge, tally, start);
      i := i + 1;
      if threw {
        ThrowIsFinal(start, cands, fates, i, index, cfg, sv);
        return;
      }
    }
    assert cands[..i] == cands && fates[..i] == fates;
  }

  // ------------------------------------------------------------------ the run

  const ExitOk := 0
  const ExitLocked := 1
  const ExitFatal := 2

  /** What the command meets: its words, the clock, the lock's world and the vault's listings. */
  datatype ReWorld = ReWorld(
    args: seq<string>,
    toNumber: string -> Option<real>,
    nowIso: string,
    pid: int,
    host: string,
    isAlive: int -> bool,
    lockWriteOk: bool,
    /** The listings under `Sessions` and `Knowledge`; `None` when a folder is missing. */
    sessionListing: Option<seq<VaultIndex.FsEntry>>,
    knowledgeListing: Option<seq<VaultIndex.FsEntry>>,
    /** The parsed lines of `~/.claude/history.jsonl`; `None` when it is missing. */
    historyFile: Option<seq<Option<Json>>>,
    sv: Services)

  function Config(w: ReWorld): ReEnrichConfig {
    ArgsFrom(Defaults(w.sv.env, w.sv.home, w.toNumber), w.args, 0, w.toNumber)
  }

  function HistoryOf(file: Option<seq<Option<Json>>>): map<string, HistoryHit> {
    if file.None? then map[] else HistoryIndex(CodeDiscovery.History(file.value))
  }

  /** Steps 2 to 5 on the vault's contents and files before the run. */
  function Outcome(w: ReWorld, contents: map<string, string>, files: set<string>): ReState {
    var cfg := Config(w);
    var cands := Scan(cfg, w.sessionListing, contents);
    var index := VaultIndex.IndexOf(cfg.vaultPath, w.sessionListing, w.knowledgeListing, contents);
    Processed(ReState(contents, files, NoWork, false), cands, Fates(cands, HistoryOf(w.historyFile), index, cfg, w.sv),
              index, cfg, w.sv)
  }

  /** A run that finds no candidates changes nothing and reports zeros. */
  lemma NoCandidatesNoWork(w: ReWorld, contents: map<string, string>, files: set<string>)
    requires Scan(Config(w), w.sessionListing, contents) == []
    ensures Outcome(w, contents, files) == ReState(contents, files, NoWork, false)
  {
  }

  /** A dry run leaves the vault's notes and files as they were, enriches nothing and exits 0. */
  lemma DryRunLeavesVault(w: ReWorld, contents: map<string, string>, files: set<string>)
    requires Config(w).dryRun
    ensures Outcome(w, contents, files).notes == contents && Outcome(w, contents, files).files == files
    ensures !Outcome(w, contents, files).threw
    ensures Outcome(w, contents, files).tally.enriched == 0 && Outcome(w, contents, files).tally.knowledgeNotesWritten == 0
  {
    var cfg := Config(w);
    var cands := Scan(cfg, w.sessionListing, contents);
    var index := VaultIndex.IndexOf(cfg.vaultPath, w.sessionListing, w.knowledgeListing, contents);
    DryRunRewritesNothing(ReState(contents, files, NoWork, false), cands, HistoryOf(w.historyFile), index, cfg, w.sv);
  }

  /** When no write throws, the three counters add up to the number of candidates. */
  lemma CountersAddUp(w: ReWorld, contents: map<string, string>, files: set<string>)
    requires !Outcome(w, contents, files).threw
    ensures var t := Outcome(w, contents, files).tally;
      t.enriched + t.stillHeuristic + t.transcriptNotFound == |Scan(Config(w), w.sessionListing, contents)|
  {
    var cfg := Config(w);
    var cands := Scan(cfg, w.sessionListing, contents);
    var index := VaultIndex.IndexOf(cfg.vaultPath, w.sessionListing, w.knowledgeListing, contents);
    EveryCandidateCounted(ReState(contents, files, NoWork, false), cands,
                          Fates(cands, HistoryOf(w.historyFile), index, cfg, w.sv), index, cfg, w.sv);
  }

  /** The run's count of knowledge notes is the number of files it adds to the vault. */
  lemma OutcomeFilesCount(w: ReWorld, contents: map<string, string>, files: set<string>)
    ensures files <= Outcome(w, contents, files).files
    ensures |Outcome(w, contents, files).files| == |files| + Outcome(w, contents, files).tally.knowledgeNotesWritten
  {
    var cfg := Config(w);
    var cands := Scan(cfg, w.sessionListing, contents);
    var index := VaultIndex.IndexOf(cfg.vaultPath, w.sessionListing, w.knowledgeListing, contents);
    var history := HistoryOf(w.historyFile);
    var fates := Fates(cands, history, index, cfg, w.sv);
    forall k | 0 <= k < |fates| && fates[k].Rewrite?
      ensures fates[k].knowledge == KnowledgeCount(fates[k].extraction, cfg, index, w.sv.home)
    {
      FateAt(cands, history, index, cfg, w.sv, k);
    }
    FilesCounted(ReState(contents, files, NoWork, false), cands, fates, index, cfg, w.sv);
  }

  /** Steps 2 to 6 while the lock is held. */
  method Work(w: ReWorld, cfg: ReEnrichConfig, vault: SessionNotes, knowledge: KnowledgeWriter.KnowledgeNotes)
    returns (tally: ReTally, threw: bool)
    requires cfg == Config(w)
    modifies vault, knowledge
    ensures ReState(vault.contents, knowledge.files, tally, threw) == Outcome(w, old(vault.contents), old(knowledge.files))
    ensures cfg.dryRun ==> knowledge.files == old(knowledge.files)
  {
    var candidates := ScanForCandidates(cfg, w.sessionListing, vault.contents);
    if |candidates| == 0 {
      NoCandidatesNoWork(w, vault.contents, knowledge.files);
      return NoWork, false;
    }
    var history := BuildHistoryIndex(w.historyFile);
    var index := VaultIndex.BuildVaultIndex(cfg.vaultPath, w.sessionListing, w.knowledgeListing, vault.contents);
    tally, threw := EnrichAll(candidates, history, index, cfg, w.sv, vault, knowledge);
  }

  /** `main()` with its `.catch`: exit 1 when the lock is taken, 2 when a write throws, 0 otherwise. */
  method RunReEnrich(w: ReWorld, lock: Lock.ProcessLock, vault: SessionNotes, knowledge: KnowledgeWriter.KnowledgeNotes)
    returns (exitCode: int, report: Option<ReTally>)
    modifies lock, vault, knowledge
    ensures exitCode == ExitOk || exitCode == ExitLocked || exitCode == ExitFatal
    ensures var held := old(lock.lock).Some? && Lock.HeldByOther(old(lock.lock).value, w.sv.nowMs, w.isAlive, w.sv.parseDate);
      (exitCode == ExitLocked <==> held || !w.lockWriteOk) &&
      (exitCode == ExitLocked ==> lock.lock == (if held then old(lock.lock) else None))
    ensures exitCode == ExitLocked ==> vault.contents == old(vault.contents) && knowledge.files == old(knowledge.files)
    ensures exitCode != ExitLocked ==>
      lock.lock == None && vault.contents == Outcome(w, old(vault.contents), old(knowledge.files)).notes &&
      knowledge.files == Outcome(w, old(vault.contents), old(knowledge.files)).files
    ensures exitCode == ExitFatal <==>
      exitCode != ExitLocked && Outcome(w, old(vault.contents), old(knowledge.files)).threw
    ensures report.Some? <==> exitCode == ExitOk
    ensures exitCode == ExitOk ==> report.value == Outcome(w, old(vault.contents), old(knowledge.files)).tally
    ensures Config(w).dryRun ==> knowledge.files == old(knowledge.files)
  {
    var cfg := ParseArgs(w.args, w.sv.env, w.sv.home, w.toNumber);
    var acquired := lock.AcquireLock(w.sv.nowMs, w.nowIso, w.pid, w.host, w.isAlive, w.sv.parseDate, w.lockWriteOk);
    if !acquired {
      return ExitLocked, None;
    }
    var tally, threw := Work(w, cfg, vault, knowledge);
    lock.ReleaseLock();
    if threw {
      return ExitFatal, None;
    }
    return ExitOk, Some(tally);
  }
}
