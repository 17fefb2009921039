/**
 * Discovery of Claude Code sessions: the prompt history names the sessions,
 * each session keeps its latest history entry, and the session's JSONL
 * transcript supplies the working directory, the model and the time of the
 * last activity.
 *
 * The home directory, the process's working directory, `Date.parse` and the
 * files are parameters: a file is its sequence of parsed lines, a missing
 * file is `None`, and `transcripts` maps the paths that exist to their lines.
 */
module CodeDiscovery {
  import opened JsString
  import opened Json
  import opened Common
  import opened Discovery

  // ------------------------------------------------------------ project paths

  /** `encodeProjectPath(rawPath)`: every '/' becomes '-'. */
  function EncodeProjectPath(rawPath: string): (r: string)
    ensures |r| == |rawPath|
    ensures '/' !in r
    ensures forall i :: 0 <= i < |r| ==> r[i] == rawPath[i] || (rawPath[i] == '/' && r[i] == '-')
  {
    if rawPath == [] then []
    else
      var c := rawPath[|rawPath| - 1];
      EncodeProjectPath(rawPath[..|rawPath| - 1]) + [if c == '/' then '-' else c]
  }

  /** `~/.claude/projects` */
  function ProjectsBase(home: string): string {
    PathJoin(PathJoin(home, ".claude"), "projects")
  }

  function TranscriptDir(home: string, project: string): string {
    PathJoin(ProjectsBase(home), EncodeProjectPath(project))
  }

  function TranscriptPath(home: string, id: string, project: string): string {
    PathJoin(TranscriptDir(home, project), id + ".jsonl")
  }

  // ------------------------------------------------------------------ history

  /** An entry of the prompt history. */
  datatype HistoryEntry = HistoryEntry(display: string, timestamp: int, project: string, sessionId: string)

  /** A string property of a parsed line, or "" when it is absent or not a string. */
  function StringField(line: Option<Json>, key: string): string {
    match Get(line, key)
    case Some(JStr(s)) => s
    case _ => []
  }

  /** The history entry of one line: it needs a non-empty session id and a non-zero timestamp. */
  function HistoryEntryOf(line: Option<Json>): (r: Option<HistoryEntry>)
    ensures r.Some? ==> Truthy(Get(line, "sessionId")) && Truthy(Get(line, "timestamp"))
    ensures r.Some? ==> r.value.sessionId != [] && r.value.timestamp != 0
    ensures line.None? ==> r.None?
  {
    match (Get(line, "sessionId"), Get(line, "timestamp"))
    case (Some(JStr(id)), Some(JNum(t))) =>
      if id != [] && t != 0 then Some(HistoryEntry(StringField(line, "display"), t, StringField(line, "project"), id))
      else None
    case _ => None
  }

  /** The entries of the history lines that carry one, in file order. */
  function History(lines: seq<Option<Json>>): (r: seq<HistoryEntry>)
    ensures |r| <= |lines|
    ensures forall e :: e in r ==> exists i :: 0 <= i < |lines| && HistoryEntryOf(lines[i]) == Some(e)
  {
    if lines == [] then []
    else
      var init := History(lines[..|lines| - 1]);
      assert forall i :: 0 <= i < |lines| - 1 ==> lines[..|lines| - 1][i] == lines[i];
      match HistoryEntryOf(lines[|lines| - 1])
      case Some(e) => init + [e]
      case None => init
  }

  /** Every line that carries an entry contributes it. */
  lemma {:induction false} HistoryKeepsEntries(lines: seq<Option<Json>>, i: nat)
    requires i < |lines| && HistoryEntryOf(lines[i]).Some?
    ensures HistoryEntryOf(lines[i]).value in History(lines)
  {
    var init := lines[..|lines| - 1];
    assert lines == init + [lines[|lines| - 1]];
    if i < |lines| - 1 {
      assert init[i] == lines[i];
      HistoryKeepsEntries(init, i);
    }
  }

  /** `readHistory(historyPath)`: a missing file gives no entries. */
  method ReadHistory(file: Option<seq<Option<Json>>>) returns (entries: seq<HistoryEntry>)
    ensures file.None? ==> entries == []
    ensures file.Some? ==> entries == History(file.value)
  {
    if file.None? {
      return [];
    }
    var lines := file.value;
    entries := [];
    for i := 0 to |lines|
      invariant entries == History(lines[..i])
    {
      assert lines[..i + 1][..i] == lines[..i];
      var e := HistoryEntryOf(lines[i]);
      if e.Some? {
        entries := entries + [e.value];
      }
    }
    assert lines[..|lines|] == lines;
  }

  // ------------------------------------------------------ latest entry per id

  /** The `sessionMap`: its keys in insertion order, and the entry kept for each. */
  datatype SessionMap = SessionMap(order: seq<string>, latest: map<string, HistoryEntry>)

  predicate Distinct(s: seq<string>) {
    forall i, j :: 0 <= i < j < |s| ==> s[i] != s[j]
  }

  /** The keys in order are exactly the map's keys, and each entry is recent enough and under its own id. */
  ghost predicate WellFormed(m: SessionMap, since: int) {
    Distinct(m.order) &&
    (forall id :: id in m.order <==> id in m.latest) &&
    (forall id :: id in m.latest ==> m.latest[id].sessionId == id && m.latest[id].timestamp >= since)
  }

  /** One entry of the fold: old entries are ignored, and a later one replaces the kept one only when strictly newer. */
  function KeepLatest(m: SessionMap, e: HistoryEntry, since: int): SessionMap {
    if e.timestamp < since then m
    else if e.sessionId !in m.latest then SessionMap(m.order + [e.sessionId], m.latest[e.sessionId := e])
    else if e.timestamp > m.latest[e.sessionId].timestamp then SessionMap(m.order, m.latest[e.sessionId := e])
    else m
  }

  function Latest(entries: seq<HistoryEntry>, since: int): (r: SessionMap)
    ensures WellFormed(r, since)
  {
    if entries == [] then SessionMap([], map[])
    else KeepLatest(Latest(entries[..|entries| - 1], since), entries[|entries| - 1], since)
  }

  /** Every recent entry's id is kept, with an entry at least as new. */
  lemma {:induction false} LatestIsNewest(entries: seq<HistoryEntry>, since: int, k: nat)
    requires k < |entries| && entries[k].timestamp >= since
    ensures entries[k].sessionId in Latest(entries, since).latest
    ensures entries[k].timestamp <= Latest(entries, since).latest[entries[k].sessionId].timestamp
  {
    var init := entries[..|entries| - 1];
    if k < |entries| - 1 {
      assert init[k] == entries[k];
      LatestIsNewest(init, since, k);
    }
  }

  /** The kept entry is in the history, and no earlier recent entry of that id is as new: the first wins ties. */
  lemma {:induction false} LatestIsFirstNewest(entries: seq<HistoryEntry>, since: int, id: string)
    requires id in Latest(entries, since).latest
    ensures exists j :: (0 <= j < |entries| && entries[j] == Latest(entries, since).latest[id] &&
      (forall k :: 0 <= k < j && entries[k].sessionId == id && entries[k].timestamp >= since ==>
        entries[k].timestamp < entries[j].timestamp))
  {
    var init := entries[..|entries| - 1];
    var e := entries[|entries| - 1];
    var before := Latest(init, since);
    if id in before.latest && Latest(entries, since).latest[id] == before.latest[id] {
      LatestIsFirstNewest(init, since, id);
      var j :| 0 <= j < |init| && init[j] == before.latest[id] &&
        (forall k :: 0 <= k < j && init[k].sessionId == id && init[k].timestamp >= since ==>
          init[k].timestamp < init[j].timestamp);
      forall k | 0 <= k < j && entries[k].sessionId == id && entries[k].timestamp >= since
        ensures entries[k].timestamp < entries[j].timestamp
      {
        assert entries[k] == init[k] && entries[j] == init[j];
      }
      assert 0 <= j < |entries| && entries[j] == Latest(entries, since).latest[id];
    } else {
      var j := |entries| - 1;
      assert entries[j] == Latest(entries, since).latest[id] == e;
      forall k | 0 <= k < j && entries[k].sessionId == id && entries[k].timestamp >= since
        ensures entries[k].timestamp < entries[j].timestamp
      {
        assert init[k] == entries[k];
        LatestIsNewest(init, since, k);
      }
    }
  }

  /** The fold of `discoverCodeSessions` over the history entries. */
  method LatestPerSession(entries: seq<HistoryEntry>, since: int) returns (m: SessionMap)
    ensures m == Latest(entries, since)
  {
    m := SessionMap([], map[]);
    for i := 0 to |entries|
      invariant m == Latest(entries[..i], since)
    {
      assert entries[..i + 1][..i] == entries[..i];
      var entry := entries[i];
      if entry.timestamp < since {
        continue;
      }
      if entry.sessionId !in m.latest {
        m := SessionMap(m.order + [entry.sessionId], m.latest[entry.sessionId := entry]);
      } else if entry.timestamp > m.latest[entry.sessionId].timestamp {
        m := m.(latest := m.latest[entry.sessionId := entry]);
      }
    }
    assert entries[..|entries|] == entries;
  }

  // ----------------------------------------------------------- transcript meta

  datatype TranscriptMeta = TranscriptMeta(model: string, cwd: string, lastTimestamp: int)

  const NoMeta := TranscriptMeta([], [], 0)
  const MaxHeadLines := 30
  const TailLines := 10

  /** A line the scans look at: parsed, and not `null` (reading a property of `null` throws and is skipped). */
  predicate Parsed(line: Option<Json>) {
    line.Some? && !line.value.JNull?
  }

  function CwdOf(line: Option<Json>): string { StringField(line, "cwd") }
  function ModelOf(line: Option<Json>): string { StringField(Get(line, "message"), "model") }

  /** A truthy timestamp as milliseconds: numbers as they are, strings through `Date.parse` (None for NaN). */
  function StampOf(line: Option<Json>, parseDate: string -> Option<int>): (r: Option<int>)
    ensures r.Some? ==> Truthy(Get(line, "timestamp"))
  {
    match Get(line, "timestamp")
    case Some(JNum(t)) => if t != 0 then Some(t) else None
    case Some(JStr(s)) => if s != [] then parseDate(s) else None
    case _ => None
  }

  /** `if (ts > meta.lastTimestamp) meta.lastTimestamp = ts`; NaN compares false. */
  function Raise(meta: TranscriptMeta, stamp: Option<int>): (r: TranscriptMeta)
    ensures r.lastTimestamp >= meta.lastTimestamp
    ensures stamp.Some? ==> r.lastTimestamp >= stamp.value
    ensures r.lastTimestamp == meta.lastTimestamp || (stamp.Some? && r.lastTimestamp == stamp.value)
    ensures r.cwd == meta.cwd && r.model == meta.model
  {
    if stamp.Some? && stamp.value > meta.lastTimestamp then meta.(lastTimestamp := stamp.value) else meta
  }

  /** One line of the head scan: the first cwd and model stick, the timestamp is raised. */
  function HeadStep(meta: TranscriptMeta, line: Option<Json>, parseDate: string -> Option<int>): TranscriptMeta {
    if !Parsed(line) then meta
    else
      var cwd := if meta.cwd == [] then CwdOf(line) else meta.cwd;
      var model := if meta.model == [] then ModelOf(line) else meta.model;
      Raise(TranscriptMeta(model, cwd, meta.lastTimestamp), StampOf(line, parseDate))
  }

  function HeadScan(lines: seq<Option<Json>>, parseDate: string -> Option<int>): TranscriptMeta {
    if lines == [] then NoMeta
    else HeadStep(HeadScan(lines[..|lines| - 1], parseDate), lines[|lines| - 1], parseDate)
  }

  /** The index of the last line the tail scan stops at, or -1 when it finds none. */
  function LastParsedIndex(lines: seq<Option<Json>>): (r: int)
    ensures -1 <= r < |lines|
    ensures r >= 0 ==> Parsed(lines[r])
    ensures forall j :: r < j < |lines| ==> !Parsed(lines[j])
  {
    if lines == [] then -1
    else if Parsed(lines[|lines| - 1]) then |lines| - 1
    else LastParsedIndex(lines[..|lines| - 1])
  }

  /** The window of the tail scan: the last ten lines. */
  function TailStart(n: nat): nat { Max(0, n - TailLines) }

  /** `extractTranscriptMeta` of an existing transcript: the head scan over the first 30 lines, then the tail line. */
  function MetaOf(lines: seq<Option<Json>>, parseDate: string -> Option<int>): TranscriptMeta {
    var head := HeadScan(lines[..Min(|lines|, MaxHeadLines)], parseDate);
    var lo := TailStart(|lines|);
    var k := LastParsedIndex(lines[lo..]);
    if k < 0 then head else Raise(head, StampOf(lines[lo + k], parseDate))
  }

  /** `extractTranscriptMeta(transcriptPath)` */
  method ExtractTranscriptMeta(file: Option<seq<Option<Json>>>, parseDate: string -> Option<int>)
    returns (meta: TranscriptMeta)
    ensures file.None? ==> meta == NoMeta
    ensures file.Some? ==> meta == MetaOf(file.value, parseDate)
  {
    meta := NoMeta;
    if file.None? {
      return;
    }
    var lines := file.value;
    var limit := Min(|lines|, MaxHeadLines);
    for i := 0 to limit
      invariant meta == HeadScan(lines[..i], parseDate)
    {
      assert lines[..i + 1][..i] == lines[..i];
      var line := lines[i];
      if !Parsed(line) {
        continue;
      }
      if meta.cwd == [] && CwdOf(line) != [] {
        meta := meta.(cwd := CwdOf(line));
      }
      if meta.model == [] && ModelOf(line) != [] {
        meta := meta.(model := ModelOf(line));
      }
      meta := Raise(meta, StampOf(line, parseDate));
    }
    ghost var head := meta;
    var lo := TailStart(|lines|);
    var i := |lines| - 1;
    var found := false;
    while i >= lo && !found
      invariant lo - 1 <= i < |lines|
      invariant !found ==> meta == head && forall j :: i < j < |lines| ==> !Parsed(lines[j])
      invariant found ==> (i >= lo && Parsed(lines[i]) && meta == Raise(head, StampOf(lines[i], parseDate)) &&
        forall j :: i < j < |lines| ==> !Parsed(lines[j]))
      decreases i + 1, if found then 0 else 1
    {
      if Parsed(lines[i]) {
        meta := Raise(meta, StampOf(lines[i], parseDate));
        found := true;
      } else {
        i := i - 1;
      }
    }
    TailScanFinds(lines, lo, if found then i - lo else -1);
  }

  /** The tail scan's stopping point is the last parsed line of the window. */
  lemma TailScanFinds(lines: seq<Option<Json>>, lo: nat, k: int)
    requires lo <= |lines| && -1 <= k < |lines| - lo
    requires k >= 0 ==> Parsed(lines[lo + k])
    requires forall j :: lo + k < j < |lines| ==> !Parsed(lines[j])
    ensures LastParsedIndex(lines[lo..]) == k
  {
    var window := lines[lo..];
    assert forall j :: 0 <= j < |window| ==> window[j] == lines[lo + j];
  }

  // ------------------------------------------------- what the head scan finds

  /** The first non-empty value of `f` over the parsed lines, or "". */
  function FirstOf(lines: seq<Option<Json>>, f: Option<Json> -> string): (r: string)
    ensures r != [] ==> exists i :: 0 <= i < |lines| && Parsed(lines[i]) && f(lines[i]) == r
  {
    if lines == [] then []
    else if Parsed(lines[0]) && f(lines[0]) != [] then f(lines[0])
    else
      var rest := FirstOf(lines[1..], f);
      assert rest != [] ==> exists i :: 1 <= i < |lines| && Parsed(lines[i]) && f(lines[i]) == rest by {
        if rest != [] {
          var i :| 0 <= i < |lines[1..]| && Parsed(lines[1..][i]) && f(lines[1..][i]) == rest;
          assert lines[i + 1] == lines[1..][i];
        }
      }
      rest
  }

  lemma {:induction false} FirstOfSnoc(lines: seq<Option<Json>>, line: Option<Json>, f: Option<Json> -> string)
    ensures FirstOf(lines + [line], f) ==
      if FirstOf(lines, f) != [] then FirstOf(lines, f) else if Parsed(line) then f(line) else []
  {
    if lines == [] {
      assert [line][1..] == [];
    } else {
      assert (lines + [line])[0] == lines[0];
      assert (lines + [line])[1..] == lines[1..] + [line];
      FirstOfSnoc(lines[1..], line, f);
    }
  }

  /** The head scan keeps the first cwd and the first model of the parsed lines. */
  lemma {:induction false} HeadScanTakesFirst(lines: seq<Option<Json>>, parseDate: string -> Option<int>)
    ensures HeadScan(lines, parseDate).cwd == FirstOf(lines, CwdOf)
    ensures HeadScan(lines, parseDate).model == FirstOf(lines, ModelOf)
  {
    if lines != [] {
      var init := lines[..|lines| - 1];
      var last := lines[|lines| - 1];
      assert lines == init + [last];
      HeadScanTakesFirst(init, parseDate);
      FirstOfSnoc(init, last, CwdOf);
      FirstOfSnoc(init, last, ModelOf);
    }
  }

  /** The head scan's timestamp is the largest stamp of the parsed lines, or 0 when none is larger. */
  lemma {:induction false} HeadScanTakesMax(lines: seq<Option<Json>>, parseDate: string -> Option<int>)
    ensures HeadScan(lines, parseDate).lastTimestamp >= 0
    ensures forall i :: 0 <= i < |lines| && Parsed(lines[i]) && StampOf(lines[i], parseDate).Some? ==>
      HeadScan(lines, parseDate).lastTimestamp >= StampOf(lines[i], parseDate).value
    ensures HeadScan(lines, parseDate).lastTimestamp == 0 ||
      exists i :: 0 <= i < |lines| && Parsed(lines[i]) &&
        StampOf(lines[i], parseDate) == Some(HeadScan(lines, parseDate).lastTimestamp)
  {
    if lines != [] {
      var init := lines[..|lines| - 1];
      HeadScanTakesMax(init, parseDate);
      assert forall i :: 0 <= i < |init| ==> init[i] == lines[i];
    }
  }

  // ------------------------------------------------------------------ sessions

  /** The `.jsonl` names of a listing, joined to the directory, in listing order. */
  function JsonlFiles(dir: string, names: seq<string>): (r: seq<string>)
    ensures forall p :: p in r ==> EndsWith(p, ".jsonl")
    ensures forall f :: f in names && EndsWith(f, ".jsonl") ==> PathJoin(dir, f) in r
  {
    if names == [] then []
    else
      var init := JsonlFiles(dir, names[..|names| - 1]);
      var f := names[|names| - 1];
      assert names == names[..|names| - 1] + [f];
      if EndsWith(f, ".jsonl") then
        EndsWithTrans(PathJoin(dir, f), f, ".jsonl");
        init + [PathJoin(dir, f)]
      else init
  }

  /** `findSubagentPaths`: a missing directory gives none. */
  function SubagentPaths(dir: string, listing: Option<seq<string>>): (r: seq<string>)
    ensures listing.None? ==> r == []
    ensures forall p :: p in r ==> EndsWith(p, ".jsonl")
    ensures listing.Some? ==> forall f :: f in listing.value && EndsWith(f, ".jsonl") ==> PathJoin(dir, f) in r
  {
    if listing.None? then [] else JsonlFiles(dir, listing.value)
  }

  lemma EndsWithTrans(s: string, t: string, u: string)
    requires EndsWith(s, t) && EndsWith(t, u)
    ensures EndsWith(s, u)
  {
    assert s[|s| - |u|..] == s[|s| - |t|..][|t| - |u|..];
  }

  function SubagentDir(home: string, id: string, project: string): string {
    PathJoin(PathJoin(TranscriptDir(home, project), id), "subagents")
  }

  /** The session built from the kept entry and its transcript's meta. */
  function CodeSession(entry: HistoryEntry, meta: TranscriptMeta, transcriptPath: string,
                       subagentPaths: seq<string>, home: string, processCwd: string): DiscoveredSession
  {
    var cwd := if meta.cwd != [] then meta.cwd else entry.project;
    DiscoveredSession(
      entry.sessionId, ClaudeCodeSource, Trim(entry.display), meta.model,
      entry.timestamp, if meta.lastTimestamp != 0 then meta.lastTimestamp else entry.timestamp,
      cwd, [cwd], DetectDomain(cwd, home, processCwd), ProjectOf(cwd, home, processCwd),
      transcriptPath, subagentPaths)
  }

  /** The environment of one discovery run. */
  datatype CodeFiles = CodeFiles(
    home: string,
    processCwd: string,
    transcripts: map<string, seq<Option<Json>>>,
    subagentListings: map<string, seq<string>>,
    parseDate: string -> Option<int>)

  /** The session of a kept entry, or None when its transcript is missing. */
  function SessionOf(entry: HistoryEntry, files: CodeFiles): (r: Option<DiscoveredSession>)
    ensures r.Some? <==> TranscriptPath(files.home, entry.sessionId, entry.project) in files.transcripts
    ensures r.Some? ==>
      r.value.id == entry.sessionId && r.value.source == ClaudeCodeSource &&
      r.value.createdAt == entry.timestamp && r.value.title == Trim(entry.display) &&
      r.value.userPaths == [r.value.cwd] &&
      r.value.transcriptPath == TranscriptPath(files.home, entry.sessionId, entry.project)
    ensures r.Some? ==>
      var meta := MetaOf(files.transcripts[TranscriptPath(files.home, entry.sessionId, entry.project)], files.parseDate);
      r.value.lastActivityAt == (if meta.lastTimestamp != 0 then meta.lastTimestamp else entry.timestamp) &&
      r.value.cwd == (if meta.cwd != [] then meta.cwd else entry.project) &&
      r.value.model == meta.model
  {
    var path := TranscriptPath(files.home, entry.sessionId, entry.project);
    if path !in files.transcripts then None
    else
      var dir := SubagentDir(files.home, entry.sessionId, entry.project);
      var listing := if dir in files.subagentListings then Some(files.subagentListings[dir]) else None;
      Some(CodeSession(entry, MetaOf(files.transcripts[path], files.parseDate), path,
                       SubagentPaths(dir, listing), files.home, files.processCwd))
  }

  /** `SessionOf` over one set of files. */
  function Build(files: CodeFiles): HistoryEntry -> Option<DiscoveredSession> {
    e => SessionOf(e, files)
  }

  /** The sessions of the kept entries, in the map's insertion order, without those `build` drops. */
  function CodeSessions(order: seq<string>, latest: map<string, HistoryEntry>,
                        build: HistoryEntry -> Option<DiscoveredSession>): (r: seq<DiscoveredSession>)
    requires forall id :: id in order ==> id in latest && latest[id].sessionId == id
    requires forall e :: build(e).Some? ==> build(e).value.id == e.sessionId
    requires Distinct(order)
    ensures forall s :: s in r ==> s.id in order && build(latest[s.id]) == Some(s)
    ensures forall i, j :: 0 <= i < j < |r| ==> r[i].id != r[j].id
  {
    if order == [] then []
    else
      var init := order[..|order| - 1];
      var id := order[|order| - 1];
      assert order == init + [id];
      var before := CodeSessions(init, latest, build);
      match build(latest[id])
      case Some(s) => before + [s]
      case None => before
  }

  /** One more kept id adds its session, if `build` yields one. */
  lemma CodeSessionsStep(order: seq<string>, latest: map<string, HistoryEntry>,
                         build: HistoryEntry -> Option<DiscoveredSession>, i: nat)
    requires forall id :: id in order ==> id in latest && latest[id].sessionId == id
    requires forall e :: build(e).Some? ==> build(e).value.id == e.sessionId
    requires Distinct(order)
    requires i < |order|
    ensures CodeSessions(order[..i + 1], latest, build) ==
      match build(latest[order[i]])
      case Some(s) => CodeSessions(order[..i], latest, build) + [s]
      case None => CodeSessions(order[..i], latest, build)
  {
    assert order[..i + 1][..i] == order[..i];
  }

  /** Every kept entry whose transcript exists yields a session. */
  lemma {:induction false} CodeSessionsComplete(order: seq<string>, latest: map<string, HistoryEntry>,
                                                build: HistoryEntry -> Option<DiscoveredSession>, id: string)
    requires forall id :: id in order ==> id in latest && latest[id].sessionId == id
    requires forall e :: build(e).Some? ==> build(e).value.id == e.sessionId
    requires Distinct(order)
    requires id in order && build(latest[id]).Some?
    ensures build(latest[id]).value in CodeSessions(order, latest, build)
  {
    var init := order[..|order| - 1];
    assert order == init + [order[|order| - 1]];
    if id != order[|order| - 1] {
      CodeSessionsComplete(init, latest, build, id);
    }
  }

  /** The body of the `for (const [sessionId, entry] of latestBySession)` loop for one kept entry. */
  method CodeSessionFor(entry: HistoryEntry, files: CodeFiles) returns (session: Option<DiscoveredSession>)
    ensures session == SessionOf(entry, files)
  {
    var path := TranscriptPath(files.home, entry.sessionId, entry.project);
    if path !in files.transcripts {
      return None;
    }
    var meta := ExtractTranscriptMeta(Some(files.transcripts[path]), files.parseDate);
    var dir := SubagentDir(files.home, entry.sessionId, entry.project);
    var subagents := SubagentPaths(dir, if dir in files.subagentListings then Some(files.subagentListings[dir]) else None);
    session := Some(CodeSession(entry, meta, path, subagents, files.home, files.processCwd));
  }

  /** One turn of the loop below: the session of the i-th kept id, if its transcript exists, is appended. */
  method AddCodeSession(order: seq<string>, latest: map<string, HistoryEntry>, files: CodeFiles, i: nat,
                        sessions: seq<DiscoveredSession>)
    returns (sessions': seq<DiscoveredSession>)
    requires forall id :: id in order ==> id in latest && latest[id].sessionId == id
    requires Distinct(order)
    requires i < |order|
    requires sessions == CodeSessions(order[..i], latest, Build(files))
    ensures sessions' == CodeSessions(order[..i + 1], latest, Build(files))
  {
    var build := Build(files);
    CodeSessionsStep(order, latest, build, i);
    var session := CodeSessionFor(latest[order[i]], files);
    assert build(latest[order[i]]) == session;
    sessions' := if session.Some? then sessions + [session.value] else sessions;
  }

  /** The `for (const [sessionId, entry] of latestBySession)` loop: one session per kept entry whose transcript exists. */
  method BuildCodeSessions(order: seq<string>, latest: map<string, HistoryEntry>, files: CodeFiles)
    returns (sessions: seq<DiscoveredSession>)
    requires forall id :: id in order ==> id in latest && latest[id].sessionId == id
    requires Distinct(order)
    ensures sessions == CodeSessions(order, latest, Build(files))
  {
    sessions := [];
    for i := 0 to |order|
      invariant sessions == CodeSessions(order[..i], latest, Build(files))
    {
      sessions := AddCodeSession(order, latest, files, i, sessions);
    }
    assert order[..|order|] == order;
  }

  /** `discoverCodeSessions(since)` */
  method DiscoverCodeSessions(since: int, history: Option<seq<Option<Json>>>, files: CodeFiles)
    returns (sessions: seq<DiscoveredSession>)
    ensures var m := Latest(if history.Some? then History(history.value) else [], since);
      sessions == CodeSessions(m.order, m.latest, Build(files))
  {
    var entries := ReadHistory(history);
    var m := LatestPerSession(entries, since);
    sessions := BuildCodeSessions(m.order, m.latest, files);
  }

  /** Every discovered session is recent, under its own kept entry, and appears once. */
  lemma DiscoveredCodeSessions(since: int, entries: seq<HistoryEntry>, files: CodeFiles)
    ensures var m := Latest(entries, since);
      var r := CodeSessions(m.order, m.latest, Build(files));
      (forall s :: s in r ==>
        s.id in m.latest && s.createdAt == m.latest[s.id].timestamp && s.createdAt >= since &&
        s.title == Trim(m.latest[s.id].display) && s.transcriptPath in files.transcripts) &&
      (forall i, j :: 0 <= i < j < |r| ==> r[i].id != r[j].id)
  {
  }
}
