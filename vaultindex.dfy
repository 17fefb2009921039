/**
 * The vault index used for de-duplication: session ids, knowledge slugs and
 * summaries read from the front matter of the notes under `Sessions/` and
 * `Knowledge/`.
 */
module VaultIndex {
  import opened JsString
  import opened Common

  // ------------------------------------------------------ the directory walk

  /** A directory entry as `statSync` sees it; an entry it cannot stat is skipped. */
  datatype FsEntry =
    | FileEntry(name: string)
    | DirEntry(name: string, children: seq<FsEntry>)
    | UnreadableEntry(name: string)

  lemma EndsWithTrans(s: string, t: string, u: string)
    requires EndsWith(s, t) && EndsWith(t, u)
    ensures EndsWith(s, u)
  {
    assert s[|s| - |u|..] == s[|s| - |t|..][|t| - |u|..];
  }

  /**
   * The recursive directory walk both discovery and the vault index use: the
   * files of the tree whose names pass `keep`, depth first in listing order.
   */
  function FilesIn(dir: string, entries: seq<FsEntry>, keep: string -> bool): (r: seq<string>)
    decreases entries
    ensures forall p :: p in r ==> Kept(p, keep)
  {
    if entries == [] then []
    else
      var here := match entries[0]
        case FileEntry(name) => if keep(name) then [PathJoin(dir, name)] else []
        case DirEntry(name, children) => FilesIn(PathJoin(dir, name), children, keep)
        case UnreadableEntry(_) => [];
      here + FilesIn(dir, entries[1..], keep)
  }

  /** `p` is the path of a file whose name passes `keep`. */
  ghost predicate Kept(p: string, keep: string -> bool) {
    exists name :: keep(name) && EndsWith(p, name)
  }

  /** Every file of the tree whose name passes `keep` is found, below every sub-directory. */
  lemma {:induction false} FilesInComplete(dir: string, entries: seq<FsEntry>, keep: string -> bool, i: nat)
    requires i < |entries|
    decreases entries
    ensures entries[i].FileEntry? && keep(entries[i].name) ==>
      PathJoin(dir, entries[i].name) in FilesIn(dir, entries, keep)
    ensures entries[i].DirEntry? ==>
      forall p :: p in FilesIn(PathJoin(dir, entries[i].name), entries[i].children, keep) ==> p in FilesIn(dir, entries, keep)
  {
    if i > 0 {
      FilesInComplete(dir, entries[1..], keep, i - 1);
    }
  }

  predicate IsMarkdownName(name: string) { EndsWith(name, ".md") }

  /** `collectMarkdownFiles(dir)` over the entries of an existing directory, in listing order. */
  function CollectIn(dir: string, entries: seq<FsEntry>): (r: seq<string>)
    ensures forall p :: p in r ==> EndsWith(p, ".md")
  {
    var r := FilesIn(dir, entries, IsMarkdownName);
    assert forall p :: p in r ==> EndsWith(p, ".md") by {
      forall p | p in r ensures EndsWith(p, ".md") {
        var name :| IsMarkdownName(name) && EndsWith(p, name);
        EndsWithTrans(p, name, ".md");
      }
    }
    r
  }

  /** A missing directory gives no files. */
  function CollectMarkdownFiles(dir: string, listing: Option<seq<FsEntry>>): (r: seq<string>)
    ensures listing.None? ==> r == []
    ensures forall p :: p in r ==> EndsWith(p, ".md")
  {
    match listing
    case None => []
    case Some(entries) => CollectIn(dir, entries)
  }

  /** Every `.md` file of the tree is collected, below every sub-directory. */
  lemma CollectComplete(dir: string, entries: seq<FsEntry>, i: nat)
    requires i < |entries|
    ensures entries[i].FileEntry? && EndsWith(entries[i].name, ".md") ==>
      PathJoin(dir, entries[i].name) in CollectIn(dir, entries)
    ensures entries[i].DirEntry? ==>
      forall p :: p in CollectIn(PathJoin(dir, entries[i].name), entries[i].children) ==> p in CollectIn(dir, entries)
  {
    FilesInComplete(dir, entries, IsMarkdownName, i);
  }

  // ------------------------------------------------------ the front matter

  predicate IsFence(line: string) { Trim(line) == "---" }

  /** Which lines are fences. */
  function Fences(lines: seq<string>): (r: seq<bool>)
    ensures |r| == |lines|
  {
    if lines == [] then [] else Fences(lines[..|lines| - 1]) + [IsFence(lines[|lines| - 1])]
  }

  /** The flag of a line says whether it is a fence. */
  lemma {:induction false} FenceAt(lines: seq<string>, i: nat)
    requires i < |lines|
    ensures Fences(lines)[i] == IsFence(lines[i])
  {
    if i < |lines| - 1 {
      FenceAt(lines[..|lines| - 1], i);
    }
  }

  /** The index of the first set flag at or after `from`, or the number of flags. */
  function NextSet(flags: seq<bool>, from: nat): (r: nat)
    requires from <= |flags|
    decreases |flags| - from
    ensures from <= r <= |flags|
    ensures forall i :: from <= i < r ==> !flags[i]
    ensures r < |flags| ==> flags[r]
  {
    if from == |flags| then from
    else if flags[from] then from
    else NextSet(flags, from + 1)
  }

  /** The lines strictly between the first fence and the next one (or the end). */
  function FrontmatterBody(lines: seq<string>): (r: seq<string>)
    ensures forall l :: l in r ==> l in lines && !IsFence(l)
  {
    var fences := Fences(lines);
    var a := NextSet(fences, 0);
    if a == |lines| then []
    else
      var b := NextSet(fences, a + 1);
      assert forall k :: a + 1 <= k < b ==> !IsFence(lines[k]) by {
        forall k | a + 1 <= k < b ensures !IsFence(lines[k]) {
          FenceAt(lines, k);
        }
      }
      lines[a + 1..b]
  }

  /** The key and trimmed value of every line matching `^([a-z_]+):\s*"?([^"]*)"?\s*$`. */
  function FmPairs(lines: seq<string>): (r: seq<(string, string)>)
    ensures |r| <= |lines|
  {
    if lines == [] then []
    else
      var init := FmPairs(lines[..|lines| - 1]);
      match MatchKeyValue(lines[|lines| - 1])
      case Some(kv) => init + [(kv.0, Trim(kv.1))]
      case None => init
  }

  lemma FmPairsSnoc(lines: seq<string>, line: string)
    ensures FmPairs(lines + [line]) ==
      match MatchKeyValue(line)
      case Some(kv) => FmPairs(lines) + [(kv.0, Trim(kv.1))]
      case None => FmPairs(lines)
  {
    assert (lines + [line])[..|lines|] == lines;
  }

  /** The record read from the lines that are looked at. */
  function FrontmatterOfLines(lines: seq<string>): map<string, string> {
    AssignAll(FmPairs(FrontmatterBody(lines)))
  }

  /** What `readFrontmatter` returns for a file's content (`None`: unreadable). */
  function Frontmatter(content: Option<string>, maxLines: nat): map<string, string> {
    match content
    case None => map[]
    case Some(text) => FrontmatterOfLines(Take(Split(text, '\n'), maxLines))
  }

  /** A quoted key line inside the block sets the key to the trimmed text between the quotes. */
  lemma FrontmatterQuotedLine(key: string, value: string)
    requires key != [] && forall i :: 0 <= i < |key| ==> IsKeyChar(key[i])
    requires forall i :: 0 <= i < |value| ==> value[i] != '"'
    ensures FmPairs([key + ": \"" + value + "\""]) == [(key, Trim(value))]
  {
    MatchQuotedValue(key, value);
    assert [key + ": \"" + value + "\""][..0] == [];
  }

  /** `readFrontmatter(filePath)` */
  method ReadFrontmatter(content: Option<string>, maxLines: nat) returns (result: map<string, string>)
    ensures result == Frontmatter(content, maxLines)
  {
    if content.None? {
      return map[];
    }
    result := ScanFrontmatter(Take(Split(content.value, '\n'), maxLines));
  }

  lemma FrontmatterWithoutFence(lines: seq<string>, fences: seq<bool>)
    requires fences == Fences(lines)
    requires NextSet(fences, 0) == |fences|
    ensures FrontmatterOfLines(lines) == map[]
  {
  }

  /** The record of the block lines `lines[start..end]`. */
  function BlockRecord(lines: seq<string>, start: nat, end: nat): map<string, string>
    requires start <= end <= |lines|
  {
    AssignAll(FmPairs(lines[start..end]))
  }

  /** An empty block has an empty record. */
  lemma BlockRecordEmpty(lines: seq<string>, start: nat)
    requires start <= |lines|
    ensures BlockRecord(lines, start, start) == map[]
  {
    assert lines[start..start] == [];
  }

  lemma FrontmatterWithFence(lines: seq<string>, fences: seq<bool>, start: nat, end: nat)
    requires fences == Fences(lines)
    requires NextSet(fences, 0) < |fences| && start == NextSet(fences, 0) + 1
    requires end == NextSet(fences, start)
    ensures FrontmatterOfLines(lines) == BlockRecord(lines, start, end)
  {
  }

  lemma FrontmatterStep(lines: seq<string>, start: nat, i: nat)
    requires start <= i < |lines|
    ensures MatchKeyValue(lines[i]).None? ==> BlockRecord(lines, start, i + 1) == BlockRecord(lines, start, i)
    ensures MatchKeyValue(lines[i]).Some? ==>
      BlockRecord(lines, start, i + 1) ==
      BlockRecord(lines, start, i)[MatchKeyValue(lines[i]).value.0 := Trim(MatchKeyValue(lines[i]).value.1)]
  {
    assert lines[start..i + 1] == lines[start..i] + [lines[i]];
    FmPairsSnoc(lines[start..i], lines[i]);
    match MatchKeyValue(lines[i]) {
      case Some(kv) => AssignAllSnoc(FmPairs(lines[start..i]), (kv.0, Trim(kv.1)));
      case None =>
    }
  }

  /** One line inside the block: a matching `key: value` line assigns the key its trimmed value. */
  method AddFrontmatterLine(ghost lines: seq<string>, ghost start: nat, i: nat, line: string, record: map<string, string>)
    returns (result: map<string, string>)
    requires start <= i < |lines| && line == lines[i]
    requires record == BlockRecord(lines, start, i)
    ensures result == BlockRecord(lines, start, i + 1)
  {
    var matched := MatchKeyValue(line);
    FrontmatterStep(lines, start, i);
    result := record;
    if matched.Some? {
      result := result[matched.value.0 := Trim(matched.value.1)];
    }
  }

  /** A block opened by the fence at `start - 1` and closed at `end` (a fence, or the end of the lines) is what is read. */
  lemma FrontmatterClosedAt(lines: seq<string>, start: nat, end: nat)
    requires 1 <= start <= end <= |lines| && IsFence(lines[start - 1])
    requires forall k :: 0 <= k < start - 1 ==> !IsFence(lines[k])
    requires forall k :: start <= k < end ==> !IsFence(lines[k])
    requires end < |lines| ==> IsFence(lines[end])
    ensures FrontmatterOfLines(lines) == BlockRecord(lines, start, end)
  {
    var fences := Fences(lines);
    forall k | 0 <= k < |lines| ensures fences[k] == IsFence(lines[k]) {
      FenceAt(lines, k);
    }
    NextSetIs(fences, 0, start - 1);
    NextSetIs(fences, start, end);
    FrontmatterWithFence(lines, fences, start, end);
  }

  /** Lines without a fence have an empty record. */
  lemma FrontmatterNeverOpened(lines: seq<string>)
    requires forall k :: 0 <= k < |lines| ==> !IsFence(lines[k])
    ensures FrontmatterOfLines(lines) == map[]
  {
    var fences := Fences(lines);
    forall k | 0 <= k < |lines| ensures !fences[k] {
      FenceAt(lines, k);
    }
    NextSetIs(fences, 0, |lines|);
    FrontmatterWithoutFence(lines, fences);
  }

  /** The first set flag at or after `from` is at `at` when the flags say so. */
  lemma NextSetIs(flags: seq<bool>, from: nat, at: nat)
    requires from <= at <= |flags|
    requires forall k :: from <= k < at ==> !flags[k]
    requires at < |flags| ==> flags[at]
    ensures NextSet(flags, from) == at
  {
  }

  /**
   * Where the scan stands after `i` lines: before the opening fence with nothing read, or inside
   * the block opened by the fence at `start - 1` with the record of `lines[start..i]`.
   */
  ghost predicate Scanned(lines: seq<string>, i: nat, inFrontmatter: bool, start: nat, record: map<string, string>)
    requires i <= |lines|
  {
    if inFrontmatter then
      1 <= start <= i && IsFence(lines[start - 1]) &&
      (forall k :: 0 <= k < start - 1 ==> !IsFence(lines[k])) &&
      (forall k :: start <= k < i ==> !IsFence(lines[k])) &&
      record == BlockRecord(lines, start, i)
    else
      (forall k :: 0 <= k < i ==> !IsFence(lines[k])) && record == map[]
  }

  /** One pass of the loop: a fence opens the block or, inside it, stops the scan; other lines are read inside it. */
  method ScanLine(ghost lines: seq<string>, i: nat, line: string, inFrontmatter: bool, ghost start: nat,
                  record: map<string, string>)
    returns (stop: bool, inFrontmatter': bool, ghost start': nat, record': map<string, string>)
    requires i < |lines| && line == lines[i]
    requires Scanned(lines, i, inFrontmatter, start, record)
    ensures stop ==> (inFrontmatter' && start' == start && record' == record &&
                      Scanned(lines, i, inFrontmatter', start', record') && IsFence(lines[i]))
    ensures !stop ==> Scanned(lines, i + 1, inFrontmatter', start', record')
  {
    stop, inFrontmatter', start', record' := false, inFrontmatter, start, record;
    if IsFence(line) {
      if inFrontmatter {
        stop := true;
        return;
      }
      inFrontmatter' := true;
      start' := i + 1;
      BlockRecordEmpty(lines, start');
    } else if inFrontmatter {
      record' := AddFrontmatterLine(lines, start, i, line, record);
    }
  }

  /** The scan ends at a closing fence or after the last line: the record it holds is the frontmatter. */
  lemma ScanEnds(lines: seq<string>, i: nat, inFrontmatter: bool, start: nat, record: map<string, string>)
    requires i <= |lines| && Scanned(lines, i, inFrontmatter, start, record)
    requires i == |lines| || (inFrontmatter && IsFence(lines[i]))
    ensures record == FrontmatterOfLines(lines)
  {
    if inFrontmatter {
      FrontmatterClosedAt(lines, start, i);
    } else {
      FrontmatterNeverOpened(lines);
    }
  }

  /** The `for (const line of lines)` loop of `readFrontmatter`, with its `inFrontmatter` flag. */
  method ScanFrontmatter(lines: seq<string>) returns (result: map<string, string>)
    ensures result == FrontmatterOfLines(lines)
  {
    result := map[];
    var inFrontmatter := false;
    ghost var start := 0;
    var i := 0;
    while i < |lines|
      invariant 0 <= i <= |lines|
      invariant Scanned(lines, i, inFrontmatter, start, result)
    {
      var stop;
      stop, inFrontmatter, start, result := ScanLine(lines, i, lines[i], inFrontmatter, start, result);
      if stop {
        break;
      }
      i := i + 1;
    }
    ScanEnds(lines, i, inFrontmatter, start, result);
  }

  // ------------------------------------------------------ slugs from names

  predicate IsDatePrefixed(s: string) {
    |s| >= 10 && IsDigit(s[0]) && IsDigit(s[1]) && IsDigit(s[2]) && IsDigit(s[3]) && s[4] == '-' &&
    IsDigit(s[5]) && IsDigit(s[6]) && s[7] == '-' && IsDigit(s[8]) && IsDigit(s[9])
  }

  /** `replace(/\.md$/, '')` */
  function StripMdSuffix(name: string): (r: string)
    ensures EndsWith(name, ".md") ==> name == r + ".md"
    ensures !EndsWith(name, ".md") ==> r == name
  {
    if EndsWith(name, ".md") then name[..|name| - 3] else name
  }

  /** `replace(/^\d{4}-\d{2}-\d{2}_?/, '')` */
  function StripDatePrefix(s: string): (r: string)
    ensures !IsDatePrefixed(s) ==> r == s
    ensures IsDatePrefixed(s) && |s| > 10 && s[10] == '_' ==> r == s[11..]
    ensures IsDatePrefixed(s) && (|s| == 10 || s[10] != '_') ==> r == s[10..]
  {
    if !IsDatePrefixed(s) then s
    else if |s| > 10 && s[10] == '_' then s[11..]
    else s[10..]
  }

  /** `extractSlugFromFilename(filename)` */
  function ExtractSlugFromFilename(filename: string): (r: string)
    ensures |r| <= |filename|
  {
    StripDatePrefix(StripMdSuffix(filename))
  }

  /** A dated note name gives back the slug it was made from. */
  lemma SlugOfDatedName(date: string, slug: string)
    requires |date| == 10 && IsDatePrefixed(date)
    ensures ExtractSlugFromFilename(date + "_" + slug + ".md") == slug
  {
    var name := date + "_" + slug + ".md";
    assert StripMdSuffix(name) == date + "_" + slug by {
      assert name[|name| - 3..] == ".md";
      assert name[..|name| - 3] == date + "_" + slug;
    }
    var w := date + "_" + slug;
    assert w[..10] == date;
    assert w[10] == '_' && w[11..] == slug;
  }

  /** An undated name only loses its `.md`. */
  lemma SlugOfUndatedName(slug: string)
    requires !IsDatePrefixed(slug)
    ensures ExtractSlugFromFilename(slug + ".md") == slug
  {
    var name := slug + ".md";
    assert name[|name| - 3..] == ".md";
    assert name[..|name| - 3] == slug;
  }

  /** `file.split('/').pop() || ''` */
  function LastSegment(path: string): (r: string)
    ensures |r| <= |path|
  {
    var parts := Split(path, '/');
    SplitJoinRoundTrip(path, "/");
    JoinLastPiece(parts, "/");
    parts[|parts| - 1]
  }

  lemma {:induction false} JoinLastPiece(parts: seq<string>, sep: string)
    requires parts != []
    ensures |parts[|parts| - 1]| <= |Join(parts, sep)|
  {
    if |parts| > 1 {
      JoinCons(parts[0], parts[1..], sep);
      JoinLastPiece(parts[1..], sep);
    }
  }

  // ------------------------------------------------------ the index

  datatype VaultIndex = VaultIndex(
    sessionIds: set<string>,
    knowledgeSlugs: set<string>,
    summaries: map<string, string>,
    sessionDates: map<string, string>)

  const EmptyIndex := VaultIndex({}, {}, map[], map[])

  /** A front-matter field read as `fm.key`, where a missing key reads as the falsy `undefined`. */
  function Field(fm: map<string, string>, key: string): string {
    if key in fm then fm[key] else ""
  }

  /** One step of the `Sessions/` loop. */
  function AddSessionNote(index: VaultIndex, path: string, fm: map<string, string>): VaultIndex {
    var id := Field(fm, "session_id");
    var withId :=
      if id == [] then index
      else index.(
        sessionIds := index.sessionIds + {id},
        sessionDates := if Field(fm, "date") != [] then index.sessionDates[id := Field(fm, "date")] else index.sessionDates);
    if Field(fm, "summary") == [] then withId
    else withId.(summaries := withId.summaries[(if id != [] then id else path) := Field(fm, "summary")])
  }

  /** One step of the `Knowledge/` loop. */
  function AddKnowledgeNote(index: VaultIndex, path: string, fm: map<string, string>): VaultIndex {
    var slug := ExtractSlugFromFilename(LastSegment(path));
    var withSlug := if slug == [] then index else index.(knowledgeSlugs := index.knowledgeSlugs + {slug});
    if Field(fm, "summary") == [] then withSlug
    else withSlug.(summaries := withSlug.summaries[(if slug != [] then slug else path) := Field(fm, "summary")])
  }

  /** A note: its path and its front matter. */
  type Note = (string, map<string, string>)

  function SessionsFold(index: VaultIndex, notes: seq<Note>): VaultIndex {
    if notes == [] then index
    else AddSessionNote(SessionsFold(index, notes[..|notes| - 1]), notes[|notes| - 1].0, notes[|notes| - 1].1)
  }

  function KnowledgeFold(index: VaultIndex, notes: seq<Note>): VaultIndex {
    if notes == [] then index
    else AddKnowledgeNote(KnowledgeFold(index, notes[..|notes| - 1]), notes[|notes| - 1].0, notes[|notes| - 1].1)
  }

  /** The files' paths paired with their front matter (a path absent from `contents` is unreadable). */
  function NotesOf(files: seq<string>, contents: map<string, string>): (r: seq<Note>)
    ensures |r| == |files|
    ensures forall i :: 0 <= i < |files| ==> r[i].0 == files[i]
  {
    seq(|files|, i requires 0 <= i < |files| =>
      (files[i], Frontmatter(if files[i] in contents then Some(contents[files[i]]) else None, 20)))
  }

  /** The i-th note pairs the i-th file with what reading its front matter gives. */
  lemma NoteAt(files: seq<string>, contents: map<string, string>, i: nat)
    requires i < |files|
    ensures NotesOf(files, contents)[i] == (files[i], Frontmatter(if files[i] in contents then Some(contents[files[i]]) else None, 20))
  {
  }

  /** Folding one more note into the session pass. */
  lemma SessionsFoldStep(start: VaultIndex, notes: seq<Note>, i: nat)
    requires i < |notes|
    ensures SessionsFold(start, notes[..i + 1]) == AddSessionNote(SessionsFold(start, notes[..i]), notes[i].0, notes[i].1)
  {
    assert notes[..i + 1][..i] == notes[..i];
  }

  /** Folding one more note into the knowledge pass. */
  lemma KnowledgeFoldStep(start: VaultIndex, notes: seq<Note>, i: nat)
    requires i < |notes|
    ensures KnowledgeFold(start, notes[..i + 1]) == AddKnowledgeNote(KnowledgeFold(start, notes[..i]), notes[i].0, notes[i].1)
  {
    assert notes[..i + 1][..i] == notes[..i];
  }

  /** What `buildVaultIndex(vaultPath)` returns. */
  function IndexOf(vaultPath: string, sessions: Option<seq<FsEntry>>, knowledge: Option<seq<FsEntry>>,
                   contents: map<string, string>): VaultIndex
  {
    KnowledgeFold(
      SessionsFold(EmptyIndex, NotesOf(CollectMarkdownFiles(PathJoin(vaultPath, "Sessions"), sessions), contents)),
      NotesOf(CollectMarkdownFiles(PathJoin(vaultPath, "Knowledge"), knowledge), contents))
  }

  /**
   * `buildVaultIndex(vaultPath)`: `sessions` and `knowledge` are the listings of the two
   * sub-directories (`None` when missing) and `contents` the readable files.
   */
  method BuildVaultIndex(vaultPath: string, sessions: Option<seq<FsEntry>>, knowledge: Option<seq<FsEntry>>,
                         contents: map<string, string>) returns (index: VaultIndex)
    ensures index == IndexOf(vaultPath, sessions, knowledge, contents)
  {
    var sessionFiles := CollectMarkdownFiles(PathJoin(vaultPath, "Sessions"), sessions);
    index := IndexSessionNotes(EmptyIndex, sessionFiles, contents);
    var knowledgeFiles := CollectMarkdownFiles(PathJoin(vaultPath, "Knowledge"), knowledge);
    index := IndexKnowledgeNotes(index, knowledgeFiles, contents);
  }

  /** The `for (const file of sessionFiles)` loop. */
  method IndexSessionNotes(start: VaultIndex, files: seq<string>, contents: map<string, string>)
    returns (index: VaultIndex)
    ensures index == SessionsFold(start, NotesOf(files, contents))
  {
    ghost var notes := NotesOf(files, contents);
    index := start;
    var i := 0;
    while i < |files|
      invariant 0 <= i <= |files|
      invariant index == SessionsFold(start, notes[..i])
    {
      var file := files[i];
      var fm := ReadFrontmatter(if file in contents then Some(contents[file]) else None, 20);
      NoteAt(files, contents, i);
      SessionsFoldStep(start, notes, i);
      ghost var before := index;
      if Field(fm, "session_id") != [] {
        index := index.(sessionIds := index.sessionIds + {fm["session_id"]});
        if Field(fm, "date") != [] {
          index := index.(sessionDates := index.sessionDates[fm["session_id"] := fm["date"]]);
        }
      }
      if Field(fm, "summary") != [] {
        var key := if Field(fm, "session_id") != [] then fm["session_id"] else file;
        index := index.(summaries := index.summaries[key := fm["summary"]]);
      }
      assert index == AddSessionNote(before, file, fm);
      i := i + 1;
    }
    assert notes[..|files|] == notes;
  }

  /** The `for (const file of knowledgeFiles)` loop. */
  method IndexKnowledgeNotes(start: VaultIndex, files: seq<string>, contents: map<string, string>)
    returns (index: VaultIndex)
    ensures index == KnowledgeFold(start, NotesOf(files, contents))
  {
    ghost var notes := NotesOf(files, contents);
    index := start;
    var i := 0;
    while i < |files|
      invariant 0 <= i <= |files|
      invariant index == KnowledgeFold(start, notes[..i])
    {
      var file := files[i];
      ghost var before := index;
      var filename := LastSegment(file);
      var slug := ExtractSlugFromFilename(filename);
      if slug != [] {
        index := index.(knowledgeSlugs := index.knowledgeSlugs + {slug});
      }
      var fm := ReadFrontmatter(if file in contents then Some(contents[file]) else None, 20);
      NoteAt(files, contents, i);
      KnowledgeFoldStep(start, notes, i);
      if Field(fm, "summary") != [] {
        index := index.(summaries := index.summaries[(if slug != [] then slug else file) := fm["summary"]]);
      }
      assert index == AddKnowledgeNote(before, file, fm);
      i := i + 1;
    }
    assert notes[..|files|] == notes;
  }

  // ------------------------------------------------------ properties

  /** The session ids are exactly the non-empty `session_id` fields of the session notes. */
  lemma {:induction false} SessionIdsExact(index: VaultIndex, notes: seq<Note>, id: string)
    ensures id in SessionsFold(index, notes).sessionIds <==>
      id in index.sessionIds || (id != [] && exists i :: 0 <= i < |notes| && Field(notes[i].1, "session_id") == id)
  {
    if notes != [] {
      var init := notes[..|notes| - 1];
      SessionIdsExact(index, init, id);
      assert forall i :: 0 <= i < |init| ==> init[i] == notes[i];
      if id != [] && exists i :: 0 <= i < |notes| && Field(notes[i].1, "session_id") == id {
        var i :| 0 <= i < |notes| && Field(notes[i].1, "session_id") == id;
        if i < |init| {
          assert Field(init[i].1, "session_id") == id;
        }
      }
    }
  }

  /** A date is only ever recorded for an indexed session. */
  lemma {:induction false} DatesBelongToSessions(index: VaultIndex, notes: seq<Note>)
    requires index.sessionDates.Keys <= index.sessionIds
    ensures SessionsFold(index, notes).sessionDates.Keys <= SessionsFold(index, notes).sessionIds
  {
    if notes != [] {
      DatesBelongToSessions(index, notes[..|notes| - 1]);
    }
  }

  /** The slug of each note's file name, in note order. */
  function NoteSlugs(notes: seq<Note>): (r: seq<string>)
    ensures |r| == |notes|
    ensures forall i :: 0 <= i < |notes| ==> r[i] == ExtractSlugFromFilename(LastSegment(notes[i].0))
  {
    if notes == [] then []
    else
      var init := notes[..|notes| - 1];
      assert forall i :: 0 <= i < |init| ==> init[i] == notes[i];
      NoteSlugs(init) + [ExtractSlugFromFilename(LastSegment(notes[|notes| - 1].0))]
  }

  /** The knowledge slugs are exactly the non-empty slugs of the knowledge note names. */
  lemma {:induction false} KnowledgeSlugsExact(index: VaultIndex, notes: seq<Note>, slug: string)
    ensures slug in KnowledgeFold(index, notes).knowledgeSlugs <==>
      slug in index.knowledgeSlugs ||
      (slug != [] && slug in NoteSlugs(notes))
  {
    if notes != [] {
      KnowledgeSlugsExact(index, notes[..|notes| - 1], slug);
      KnowledgeSlugsStep(index, notes);
    }
  }

  /** One knowledge note adds its slug, when it has one, and nothing else. */
  lemma KnowledgeSlugsStep(index: VaultIndex, notes: seq<Note>)
    requires notes != []
    ensures var s := ExtractSlugFromFilename(LastSegment(notes[|notes| - 1].0));
      KnowledgeFold(index, notes).knowledgeSlugs ==
        if s == [] then KnowledgeFold(index, notes[..|notes| - 1]).knowledgeSlugs
        else KnowledgeFold(index, notes[..|notes| - 1]).knowledgeSlugs + {s}
  {
  }

  /** The key a knowledge note's summary is stored under. */
  function KnowledgeKey(path: string): string {
    var slug := ExtractSlugFromFilename(LastSegment(path));
    if slug != [] then slug else path
  }

  lemma AddKnowledgeNoteSummaries(index: VaultIndex, path: string, fm: map<string, string>)
    ensures AddKnowledgeNote(index, path, fm).summaries ==
      if Field(fm, "summary") == [] then index.summaries else index.summaries[KnowledgeKey(path) := Field(fm, "summary")]
    ensures AddKnowledgeNote(index, path, fm).sessionIds == index.sessionIds
    ensures AddKnowledgeNote(index, path, fm).sessionDates == index.sessionDates
  {
    var slug := ExtractSlugFromFilename(LastSegment(path));
    var withSlug := if slug == [] then index else index.(knowledgeSlugs := index.knowledgeSlugs + {slug});
    assert withSlug.summaries == index.summaries && withSlug.sessionIds == index.sessionIds &&
      withSlug.sessionDates == index.sessionDates;
    assert KnowledgeKey(path) == if slug != [] then slug else path;
  }

  lemma MergeUpdate(a: map<string, string>, b: map<string, string>, k: string, v: string)
    ensures (a + b)[k := v] == a + b[k := v]
  {
  }

  /**
   * The knowledge pass leaves the session ids and dates alone, and its summaries override the
   * session summaries key by key.
   */
  lemma {:induction false} KnowledgeOverridesSessions(index: VaultIndex, notes: seq<Note>)
    decreases |notes|
    ensures KnowledgeFold(index, notes).sessionIds == index.sessionIds
    ensures KnowledgeFold(index, notes).sessionDates == index.sessionDates
    ensures KnowledgeFold(index, notes).summaries == index.summaries + KnowledgeFold(EmptyIndex, notes).summaries
  {
    if notes != [] {
      var init := notes[..|notes| - 1];
      var last := notes[|notes| - 1];
      KnowledgeOverridesSessions(index, init);
      KnowledgeOverridesSessions(EmptyIndex, init);
      AddKnowledgeNoteSummaries(KnowledgeFold(index, init), last.0, last.1);
      AddKnowledgeNoteSummaries(KnowledgeFold(EmptyIndex, init), last.0, last.1);
      if Field(last.1, "summary") != [] {
        MergeUpdate(index.summaries, KnowledgeFold(EmptyIndex, init).summaries, KnowledgeKey(last.0), Field(last.1, "summary"));
      }
    }
  }
}
