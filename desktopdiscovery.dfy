/**
 * Discovery of Claude Desktop sessions: every `local_<id>.json` metadata
 * file below the desktop app's session directory describes one session, and
 * its audit log, when present, is the session's transcript.
 *
 * The directory tree is a listing, a metadata file is what `JSON.parse`
 * makes of it (absent when it cannot be read or parsed), the paths that
 * exist are a set, and `Date.parse` is a parameter.
 */
module DesktopDiscovery {
  import opened JsString
  import opened Json
  import opened Common
  import opened Discovery
  import VaultIndex

  // ---------------------------------------------------------------- timestamps

  /**
   * `toMs(value)` of a field already defaulted by `|| ''`: numbers as they
   * are, falsy values 0, anything else through `Date.parse`, NaN as 0.
   */
  function ToMs(value: Json, parseDate: string -> Option<int>): (r: int)
    ensures value.JNum? ==> r == value.n
    ensures !value.JNum? && !value.JFloat? && !Truthy(Some(value)) ==> r == 0
    ensures value.JStr? && value.s != [] && parseDate(value.s).None? ==> r == 0
    ensures value.JStr? && value.s != [] && parseDate(value.s).Some? ==> r == parseDate(value.s).value
  {
    match value
    case JNum(n) => n
    case JFloat(x) => x.Floor
    case _ =>
      if !Truthy(Some(value)) then 0
      else
        match parseDate(ToJsString(value))
        case Some(ms) => ms
        case None => 0
  }

  // ------------------------------------------------------------------ metadata

  datatype DesktopMetadata = DesktopMetadata(
    title: string,
    model: string,
    createdAt: Json,
    lastActivityAt: Json,
    cwd: string,
    userSelectedFolders: seq<string>,
    isArchived: bool)

  /** `data.key || ''` */
  function OrEmpty(data: Option<Json>, key: string): (r: Json)
    ensures Truthy(Some(r)) <==> Truthy(Get(data, key))
  {
    if Truthy(Get(data, key)) then Get(data, key).value else JStr([])
  }

  /** `data.key || ''` used as text. */
  function TextOf(data: Option<Json>, key: string): string {
    ToJsString(OrEmpty(data, key))
  }

  /** `parseMetadata(filePath)`: None for an unreadable or unparsable file, and for `null` (its properties throw). */
  function ParseMetadata(data: Option<Json>): (r: Option<DesktopMetadata>)
    ensures r.Some? <==> data.Some? && !data.value.JNull?
    ensures r.Some? ==> r.value.isArchived == Truthy(Get(data, "isArchived"))
    ensures r.Some? && !IsArray(Get(data, "userSelectedFolders")) ==> r.value.userSelectedFolders == []
  {
    if data.None? || data.value.JNull? then None
    else
      var folders := Get(data, "userSelectedFolders");
      Some(DesktopMetadata(
        TextOf(data, "title"), TextOf(data, "model"),
        OrEmpty(data, "createdAt"), OrEmpty(data, "lastActivityAt"),
        TextOf(data, "cwd"),
        if IsArray(folders) then seq(|folders.value.items|, i requires 0 <= i < |folders.value.items| => ToJsString(folders.value.items[i]))
        else [],
        Truthy(Get(data, "isArchived"))))
  }

  // ------------------------------------------------------------ names and paths

  /** `extractSessionId(filename)`: drop the '.json' extension, then a leading 'local_'. */
  function ExtractSessionId(filename: string): (r: string)
    ensures |r| <= |filename|
  {
    var stem := if EndsWith(filename, ".json") && filename != ".json" then filename[..|filename| - 5] else filename;
    if StartsWith(stem, "local_") then stem[6..] else stem
  }

  /** The id round-trips through the metadata file's name. */
  lemma SessionIdOfMetadataName(id: string)
    ensures ExtractSessionId("local_" + id + ".json") == id
  {
    var name := "local_" + id + ".json";
    assert name[|name| - 5..] == ".json";
    assert name[..|name| - 5] == "local_" + id;
    assert ("local_" + id)[..6] == "local_";
    assert ("local_" + id)[6..] == id;
  }

  /** A name the walk collects. */
  predicate IsMetadataName(name: string) {
    StartsWith(name, "local_") && EndsWith(name, ".json")
  }

  /** `findMetadataFiles` below one directory: the `local_*.json` files, depth first in listing order. */
  function MetadataFilesIn(dir: string, entries: seq<VaultIndex.FsEntry>): (r: seq<string>)
    ensures forall p :: p in r ==> exists name :: IsMetadataName(name) && EndsWith(p, name)
    ensures forall p :: p in r ==> EndsWith(p, ".json")
  {
    var r := VaultIndex.FilesIn(dir, entries, IsMetadataName);
    assert forall p :: p in r ==> EndsWith(p, ".json") by {
      forall p | p in r ensures EndsWith(p, ".json") {
        var name :| IsMetadataName(name) && EndsWith(p, name);
        VaultIndex.EndsWithTrans(p, name, ".json");
      }
    }
    r
  }

  /** Every `local_*.json` file of the tree is found, below every sub-directory. */
  lemma MetadataFilesComplete(dir: string, entries: seq<VaultIndex.FsEntry>, i: nat)
    requires i < |entries|
    ensures entries[i].FileEntry? && IsMetadataName(entries[i].name) ==>
      PathJoin(dir, entries[i].name) in MetadataFilesIn(dir, entries)
    ensures entries[i].DirEntry? ==>
      forall p :: p in MetadataFilesIn(PathJoin(dir, entries[i].name), entries[i].children) ==>
        p in MetadataFilesIn(dir, entries)
  {
    VaultIndex.FilesInComplete(dir, entries, IsMetadataName, i);
  }

  /** `BASE_DIR` */
  function BaseDir(home: string): string {
    PathJoin(PathJoin(PathJoin(PathJoin(home, "Library"), "Application Support"), "Claude"),
      "local-agent-mode-sessions")
  }

  function AuditCandidate(dir: string, id: string): string {
    PathJoin(PathJoin(dir, id), "audit.jsonl")
  }

  /** `findAuditPath`: `<id>/audit.jsonl` beside the metadata file, else in the parent's parent, else "". */
  function FindAuditPath(metadataPath: string, id: string, existing: set<string>): (r: string)
    ensures r == "" || r in existing
    ensures AuditCandidate(Dirname(metadataPath), id) in existing ==> r == AuditCandidate(Dirname(metadataPath), id)
    ensures AuditCandidate(Dirname(metadataPath), id) !in existing ==>
      (r == "" <==> AuditCandidate(Dirname(Dirname(metadataPath)), id) !in existing)
  {
    var candidate := AuditCandidate(Dirname(metadataPath), id);
    var sibling := AuditCandidate(Dirname(Dirname(metadataPath)), id);
    if candidate in existing then candidate
    else if sibling in existing then sibling
    else ""
  }

  // ------------------------------------------------------------------ sessions

  /** The environment of one discovery run. */
  datatype DesktopFiles = DesktopFiles(
    home: string,
    processCwd: string,
    metadata: map<string, Json>,
    existing: set<string>,
    parseDate: string -> Option<int>)

  /** The path that decides domain and project: the first selected folder, else cwd. */
  function DomainPath(meta: DesktopMetadata): (r: string)
    ensures r != [] ==> r == meta.cwd || (|meta.userSelectedFolders| > 0 && r == meta.userSelectedFolders[0])
    ensures |meta.userSelectedFolders| > 0 && meta.userSelectedFolders[0] != [] ==> r == meta.userSelectedFolders[0]
  {
    if |meta.userSelectedFolders| > 0 && meta.userSelectedFolders[0] != [] then meta.userSelectedFolders[0]
    else meta.cwd
  }

  /** The user paths: the selected folders if any, else cwd if set, else none. */
  function UserPaths(meta: DesktopMetadata): (r: seq<string>)
    ensures |r| <= Max(1, |meta.userSelectedFolders|)
    ensures r == [] <==> meta.userSelectedFolders == [] && meta.cwd == []
    ensures meta.userSelectedFolders != [] ==> r == meta.userSelectedFolders
  {
    if |meta.userSelectedFolders| > 0 then meta.userSelectedFolders
    else if meta.cwd != [] then [meta.cwd]
    else []
  }

  /** The parsed metadata of one metadata file (None when it is missing or unreadable). */
  function MetaOf(metaFile: string, files: DesktopFiles): Option<DesktopMetadata> {
    ParseMetadata(if metaFile in files.metadata then Some(files.metadata[metaFile]) else None)
  }

  /** `meta.lastActivityAt ? toMs(meta.lastActivityAt) : createdAtMs` */
  function LastActivityMs(m: DesktopMetadata, parseDate: string -> Option<int>): int {
    if Truthy(Some(m.lastActivityAt)) then ToMs(m.lastActivityAt, parseDate) else ToMs(m.createdAt, parseDate)
  }

  /** The session of one metadata file, or None when the file is unreadable, archived, undated or too old. */
  function DesktopSession(metaFile: string, files: DesktopFiles, since: int): (r: Option<DiscoveredSession>)
    ensures r.Some? ==>
      r.value.createdAt != 0 && r.value.createdAt >= since && r.value.source == ClaudeDesktopSource &&
      r.value.subagentPaths == []
    ensures var meta := MetaOf(metaFile, files);
      r.Some? <==> meta.Some? && !meta.value.isArchived &&
                   ToMs(meta.value.createdAt, files.parseDate) != 0 && ToMs(meta.value.createdAt, files.parseDate) >= since
    ensures r.Some? ==>
      var m := MetaOf(metaFile, files).value;
      var id := ExtractSessionId(Basename(metaFile));
      r.value.id == id && r.value.title == m.title && r.value.model == m.model && r.value.cwd == m.cwd &&
      r.value.createdAt == ToMs(m.createdAt, files.parseDate) &&
      (!Truthy(Some(m.lastActivityAt)) ==> r.value.lastActivityAt == r.value.createdAt) &&
      (Truthy(Some(m.lastActivityAt)) ==> r.value.lastActivityAt == ToMs(m.lastActivityAt, files.parseDate)) &&
      r.value.userPaths == UserPaths(m) &&
      r.value.transcriptPath == FindAuditPath(metaFile, id, files.existing)
    ensures r.Some? ==>
      var path := DomainPath(MetaOf(metaFile, files).value);
      (path == [] ==> r.value.domain == "personal" && r.value.project == []) &&
      (path != [] ==> r.value.domain == DetectDomain(path, files.home, files.processCwd) &&
                      r.value.project == ProjectOf(path, files.home, files.processCwd))
  {
    var meta := MetaOf(metaFile, files);
    if meta.None? || meta.value.isArchived then None
    else
      var m := meta.value;
      var created := ToMs(m.createdAt, files.parseDate);
      var last := LastActivityMs(m, files.parseDate);
      if created == 0 || created < since then None
      else
        var id := ExtractSessionId(Basename(metaFile));
        var domainPath := DomainPath(m);
        Some(DiscoveredSession(
          id, ClaudeDesktopSource, m.title, m.model, created, last, m.cwd, UserPaths(m),
          if domainPath != [] then DetectDomain(domainPath, files.home, files.processCwd) else "personal",
          if domainPath != [] then ProjectOf(domainPath, files.home, files.processCwd) else [],
          FindAuditPath(metaFile, id, files.existing), []))
  }

  /** `DesktopSession` over one set of files and one cut-off. */
  function Build(files: DesktopFiles, since: int): string -> Option<DiscoveredSession> {
    f => DesktopSession(f, files, since)
  }

  /** The sessions `build` makes of the metadata files, in walk order. */
  function DesktopSessions(metaFiles: seq<string>, build: string -> Option<DiscoveredSession>): (r: seq<DiscoveredSession>)
    ensures |r| <= |metaFiles|
    ensures forall s :: s in r ==> exists f :: f in metaFiles && build(f) == Some(s)
  {
    if metaFiles == [] then []
    else
      var init := metaFiles[..|metaFiles| - 1];
      var f := metaFiles[|metaFiles| - 1];
      assert metaFiles == init + [f];
      match build(f)
      case Some(s) => DesktopSessions(init, build) + [s]
      case None => DesktopSessions(init, build)
  }

  /** The metadata files that yield a session. */
  function Qualifying(metaFiles: seq<string>, build: string -> Option<DiscoveredSession>): (r: seq<string>)
    ensures forall f :: f in r ==> f in metaFiles && build(f).Some?
  {
    if metaFiles == [] then []
    else
      var init := metaFiles[..|metaFiles| - 1];
      var f := metaFiles[|metaFiles| - 1];
      var rest := Qualifying(init, build);
      if build(f).Some? then rest + [f] else rest
  }

  /** No merge by id: the k-th session is the k-th qualifying file's, whatever ids repeat. */
  lemma {:induction false} OneSessionPerFile(metaFiles: seq<string>, build: string -> Option<DiscoveredSession>)
    ensures |DesktopSessions(metaFiles, build)| == |Qualifying(metaFiles, build)|
    ensures forall k :: 0 <= k < |Qualifying(metaFiles, build)| ==>
      Some(DesktopSessions(metaFiles, build)[k]) == build(Qualifying(metaFiles, build)[k])
  {
    if metaFiles != [] {
      OneSessionPerFile(metaFiles[..|metaFiles| - 1], build);
    }
  }

  /** Every discovered session is recent and dated, whichever file it comes from. */
  lemma DesktopSessionsAreRecent(metaFiles: seq<string>, files: DesktopFiles, since: int)
    ensures forall s :: s in DesktopSessions(metaFiles, Build(files, since)) ==>
      s.createdAt != 0 && s.createdAt >= since && s.source == ClaudeDesktopSource
  {
    forall s | s in DesktopSessions(metaFiles, Build(files, since))
      ensures s.createdAt != 0 && s.createdAt >= since && s.source == ClaudeDesktopSource
    {
      var f :| f in metaFiles && Build(files, since)(f) == Some(s);
      assert DesktopSession(f, files, since) == Some(s);
    }
  }

  /** The loop of `discoverDesktopSessions` over the metadata files, each decided by `build`. */
  method CollectSessions(metaFiles: seq<string>, build: string -> Option<DiscoveredSession>)
    returns (sessions: seq<DiscoveredSession>)
    ensures sessions == DesktopSessions(metaFiles, build)
  {
    sessions := [];
    for i := 0 to |metaFiles|
      invariant sessions == DesktopSessions(metaFiles[..i], build)
    {
      assert metaFiles[..i + 1][..i] == metaFiles[..i];
      var session := build(metaFiles[i]);
      if session.Some? {
        sessions := sessions + [session.value];
      }
    }
    assert metaFiles[..|metaFiles|] == metaFiles;
  }

  /** `discoverDesktopSessions(since)`; a missing base directory gives none. */
  method DiscoverDesktopSessions(since: int, baseListing: Option<seq<VaultIndex.FsEntry>>, files: DesktopFiles)
    returns (sessions: seq<DiscoveredSession>)
    ensures baseListing.None? ==> sessions == []
    ensures baseListing.Some? ==>
      sessions == DesktopSessions(MetadataFilesIn(BaseDir(files.home), baseListing.value), Build(files, since))
  {
    if baseListing.None? {
      return [];
    }
    var metaFiles := MetadataFilesIn(BaseDir(files.home), baseListing.value);
    sessions := CollectSessions(metaFiles, Build(files, since));
  }
}
