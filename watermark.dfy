/**
 * The incremental-progress watermark: per source a monotone high-water mark
 * and a rolling window of the last 200 processed session ids, plus run
 * statistics, persisted as `watermark.json` in the state directory.
 */
module Watermark {
  import opened JsString
  import opened Json

  const MaxProcessedIds := 200
  const DayMs := 86_400_000

  datatype SourceKey = ClaudeCodeKey | ClaudeDesktopKey

  datatype SourceProgress = SourceProgress(lastProcessedTimestamp: int, processedSessionIds: seq<string>)

  datatype Stats = Stats(totalSessionsProcessed: int, totalNotesCreated: int, totalKnowledgeExtracted: int)

  /** The persisted record; its `version` is always 1. */
  datatype WatermarkData = WatermarkData(
    lastRunAt: string,
    claudeCode: SourceProgress,
    claudeDesktop: SourceProgress,
    stats: Stats)
  {
    function Source(key: SourceKey): SourceProgress {
      match key
      case ClaudeCodeKey => claudeCode
      case ClaudeDesktopKey => claudeDesktop
    }

    function WithSource(key: SourceKey, p: SourceProgress): (r: WatermarkData)
      ensures r.Source(key) == p
      ensures forall other :: other != key ==> r.Source(other) == Source(other)
      ensures r.lastRunAt == lastRunAt && r.stats == stats
    {
      match key
      case ClaudeCodeKey => this.(claudeCode := p)
      case ClaudeDesktopKey => this.(claudeDesktop := p)
    }
  }

  /** `getDefaultWatermark(backfillDays)` at time `nowMs` (ISO form `nowIso`). */
  function DefaultWatermark(backfillDays: int, nowMs: int, nowIso: string): (r: WatermarkData)
    ensures r.claudeCode == r.claudeDesktop == SourceProgress(nowMs - backfillDays * DayMs, [])
    ensures r.stats == Stats(0, 0, 0) && r.lastRunAt == nowIso
  {
    var cutoff := nowMs - backfillDays * DayMs;
    WatermarkData(nowIso, SourceProgress(cutoff, []), SourceProgress(cutoff, []), Stats(0, 0, 0))
  }

  // ------------------------------------------------------------ one session

  /** The last `MaxProcessedIds` ids (`slice(-200)` once the list is longer). */
  function Window(ids: seq<string>): seq<string> {
    if |ids| > MaxProcessedIds then ids[|ids| - MaxProcessedIds..] else ids
  }

  /** A source after recording one session. */
  function RecordInSource(p: SourceProgress, sessionId: string, timestamp: int): SourceProgress {
    SourceProgress(Max(p.lastProcessedTimestamp, timestamp), Window(p.processedSessionIds + [sessionId]))
  }

  /** The whole record after `updateWatermarkForSession`. */
  function RecordSession(d: WatermarkData, key: SourceKey, sessionId: string, timestamp: int): WatermarkData {
    d.WithSource(key, RecordInSource(d.Source(key), sessionId, timestamp))
      .(stats := d.stats.(totalSessionsProcessed := d.stats.totalSessionsProcessed + 1))
  }

  /** The high-water mark is the larger of the old mark and the timestamp: it never decreases. */
  lemma HighWaterMark(d: WatermarkData, key: SourceKey, sessionId: string, timestamp: int)
    ensures RecordSession(d, key, sessionId, timestamp).Source(key).lastProcessedTimestamp >= d.Source(key).lastProcessedTimestamp
    ensures RecordSession(d, key, sessionId, timestamp).Source(key).lastProcessedTimestamp >= timestamp
    ensures RecordSession(d, key, sessionId, timestamp).Source(key).lastProcessedTimestamp in
      {d.Source(key).lastProcessedTimestamp, timestamp}
  {
  }

  /** The id list keeps the most recent ids, in order, ending with the new one, and never exceeds 200. */
  lemma RollingWindow(d: WatermarkData, key: SourceKey, sessionId: string, timestamp: int)
    ensures var before := d.Source(key).processedSessionIds + [sessionId];
      var after := RecordSession(d, key, sessionId, timestamp).Source(key).processedSessionIds;
      |after| == Min(MaxProcessedIds, |before|) &&
      after == before[|before| - |after|..] &&
      after[|after| - 1] == sessionId
  {
  }

  /** Only the session counter and the chosen source change. */
  lemma RecordSessionFrame(d: WatermarkData, key: SourceKey, other: SourceKey, sessionId: string, timestamp: int)
    requires other != key
    ensures RecordSession(d, key, sessionId, timestamp).Source(other) == d.Source(other)
    ensures RecordSession(d, key, sessionId, timestamp).stats.totalSessionsProcessed == d.stats.totalSessionsProcessed + 1
    ensures RecordSession(d, key, sessionId, timestamp).stats.totalNotesCreated == d.stats.totalNotesCreated
    ensures RecordSession(d, key, sessionId, timestamp).stats.totalKnowledgeExtracted == d.stats.totalKnowledgeExtracted
    ensures RecordSession(d, key, sessionId, timestamp).lastRunAt == d.lastRunAt
  {
  }

  // ------------------------------------------------------------ the object

  /** The mutable `WatermarkState` object. */
  class WatermarkState {
    var lastRunAt: string
    var claudeCode: SourceProgress
    var claudeDesktop: SourceProgress
    var stats: Stats

    function Data(): WatermarkData
      reads this
    {
      WatermarkData(lastRunAt, claudeCode, claudeDesktop, stats)
    }

    constructor (d: WatermarkData)
      ensures Data() == d
    {
      lastRunAt := d.lastRunAt;
      claudeCode := d.claudeCode;
      claudeDesktop := d.claudeDesktop;
      stats := d.stats;
    }

    /** `updateWatermarkForSession(state, source, sessionId, timestamp)`: updates in place and returns the same object. */
    method UpdateForSession(key: SourceKey, sessionId: string, timestamp: int) returns (same: WatermarkState)
      modifies this
      ensures same == this
      ensures Data() == RecordSession(old(Data()), key, sessionId, timestamp)
    {
      var sourceState := if key == ClaudeCodeKey then claudeCode else claudeDesktop;
      var ids := sourceState.processedSessionIds + [sessionId];
      if |ids| > MaxProcessedIds {
        ids := ids[|ids| - MaxProcessedIds..];
      }
      sourceState := sourceState.(processedSessionIds := ids);
      if timestamp > sourceState.lastProcessedTimestamp {
        sourceState := sourceState.(lastProcessedTimestamp := timestamp);
      }
      if key == ClaudeCodeKey {
        claudeCode := sourceState;
      } else {
        claudeDesktop := sourceState;
      }
      stats := stats.(totalSessionsProcessed := stats.totalSessionsProcessed + 1);
      return this;
    }
  }

  // ------------------------------------------------------------ persistence

  function EncodeIds(ids: seq<string>): Json {
    JArr(seq(|ids|, i requires 0 <= i < |ids| => JStr(ids[i])))
  }

  function EncodeSource(p: SourceProgress): Json {
    JObj(map["lastProcessedTimestamp" := JNum(p.lastProcessedTimestamp),
             "processedSessionIds" := EncodeIds(p.processedSessionIds)])
  }

  /** `JSON.stringify(state)` as it parses back. */
  function Encode(d: WatermarkData): Json {
    JObj(map[
      "version" := JNum(1),
      "lastRunAt" := JStr(d.lastRunAt),
      "sources" := JObj(map["claudeCode" := EncodeSource(d.claudeCode), "claudeDesktop" := EncodeSource(d.claudeDesktop)]),
      "stats" := JObj(map[
        "totalSessionsProcessed" := JNum(d.stats.totalSessionsProcessed),
        "totalNotesCreated" := JNum(d.stats.totalNotesCreated),
        "totalKnowledgeExtracted" := JNum(d.stats.totalKnowledgeExtracted)])])
  }

  function DecodeIds(items: seq<Json>): (r: Option<seq<string>>)
    ensures r.Some? ==> |r.value| == |items|
  {
    if items == [] then Some([])
    else match (items[|items| - 1], DecodeIds(items[..|items| - 1]))
      case (JStr(s), Some(init)) => Some(init + [s])
      case _ => None
  }

  function NumField(j: Json, key: string): Option<int> {
    match Get(Some(j), key)
    case Some(JNum(n)) => Some(n)
    case _ => None
  }

  function DecodeSource(j: Json): Option<SourceProgress> {
    match (NumField(j, "lastProcessedTimestamp"), Get(Some(j), "processedSessionIds"))
    case (Some(ts), Some(JArr(items))) =>
      (match DecodeIds(items)
       case Some(ids) => Some(SourceProgress(ts, ids))
       case None => None)
    case _ => None
  }

  /** Reads a stored record of the shape `Encode` writes; any other shape is `None`. */
  function Decode(j: Json): Option<WatermarkData> {
    var sources := Get(Some(j), "sources");
    var stats := Get(Some(j), "stats");
    match (Get(Some(j), "lastRunAt"), Get(sources, "claudeCode"), Get(sources, "claudeDesktop"), stats)
    case (Some(JStr(lastRunAt)), Some(code), Some(desktop), Some(st)) =>
      (match (DecodeSource(code), DecodeSource(desktop),
              NumField(st, "totalSessionsProcessed"), NumField(st, "totalNotesCreated"),
              NumField(st, "totalKnowledgeExtracted"))
       case (Some(c), Some(dk), Some(a), Some(b), Some(e)) => Some(WatermarkData(lastRunAt, c, dk, Stats(a, b, e)))
       case _ => None)
    case _ => None
  }

  lemma {:induction false} DecodeEncodeIds(ids: seq<string>)
    ensures DecodeIds(EncodeIds(ids).items) == Some(ids)
  {
    if ids != [] {
      var init := ids[..|ids| - 1];
      DecodeEncodeIds(init);
      var items := EncodeIds(ids).items;
      assert items[..|ids| - 1] == EncodeIds(init).items;
      assert items[|items| - 1] == JStr(ids[|ids| - 1]);
      assert init + [ids[|ids| - 1]] == ids;
    }
  }

  /** What is written reads back as the same record. */
  lemma DecodeEncode(d: WatermarkData)
    ensures Decode(Encode(d)) == Some(d)
  {
    DecodeEncodeIds(d.claudeCode.processedSessionIds);
    DecodeEncodeIds(d.claudeDesktop.processedSessionIds);
  }

  /** The state of `watermark.json` (or of its temporary file). */
  datatype StoredFile = Missing | Unparsable | Parsed(json: Json)

  /** `readWatermark(stateDir)`: the parsed record if it has `version === 1` and truthy `sources`. */
  function ReadWatermark(file: StoredFile): (r: Option<Json>)
    ensures r.Some? <==>
      file.Parsed? && Get(Some(file.json), "version") == Some(JNum(1)) && Truthy(Get(Some(file.json), "sources"))
    ensures r.Some? ==> r.value == file.json
  {
    match file
    case Missing => None
    case Unparsable => None
    case Parsed(j) =>
      if Get(Some(j), "version") != Some(JNum(1)) || !Truthy(Get(Some(j), "sources")) then None else Some(j)
  }

  /** A written watermark passes the check on reading and decodes to what was written. */
  lemma WriteThenRead(d: WatermarkData)
    ensures ReadWatermark(Parsed(Encode(d))) == Some(Encode(d))
    ensures Decode(ReadWatermark(Parsed(Encode(d))).value) == Some(d)
  {
    DecodeEncode(d);
  }

  /** What can go wrong while writing: the temporary file, or the rename over the target. */
  datatype WriteOutcome = WriteOk | TmpWriteFails | RenameFails

  /** The state directory's `watermark.json` and `watermark.json.tmp`. */
  class StateDir {
    var watermark: StoredFile
    var watermarkTmp: StoredFile

    constructor (watermark: StoredFile)
      ensures this.watermark == watermark && watermarkTmp == Missing
    {
      this.watermark := watermark;
      watermarkTmp := Missing;
    }

    /**
     * `writeWatermark(stateDir, state)`: stamps `lastRunAt`, writes the temporary file and renames
     * it over the target; `threw` is the rethrown failure.
     */
    method WriteWatermark(state: WatermarkState, nowIso: string, outcome: WriteOutcome) returns (threw: bool)
      modifies this, state
      ensures state.Data() == old(state.Data()).(lastRunAt := nowIso)
      ensures threw <==> outcome != WriteOk
      ensures outcome == WriteOk ==> watermark == Parsed(Encode(state.Data())) && watermarkTmp == Missing
      ensures outcome == TmpWriteFails ==> watermark == old(watermark) && watermarkTmp == old(watermarkTmp)
      ensures outcome == RenameFails ==> watermark == old(watermark) && watermarkTmp == Parsed(Encode(state.Data()))
    {
      state.lastRunAt := nowIso;
      if outcome == TmpWriteFails {
        return true;
      }
      watermarkTmp := Parsed(Encode(state.Data()));
      if outcome == RenameFails {
        return true;
      }
      watermark := watermarkTmp;
      watermarkTmp := Missing;
      return false;
    }
  }
}
