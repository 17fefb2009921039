/**
 * Writing the pipeline's knowledge notes: the decisions, patterns and
 * learnings of one extraction become candidates, and each candidate that
 * reaches the confidence threshold and is not already in the vault gets a
 * new note under `Knowledge/<folder>/`, never over an existing file.
 *
 * The vault's files are the set of paths that exist; the date and the home
 * directory (for sanitising) are parameters; a note's text is not modelled.
 */
module KnowledgeWriter {
  import opened JsString
  import opened Json
  import opened Common
  import opened Sanitize
  import VaultIndex
  import Similarity
  import FileIo

  datatype DistillKind = Decision | Pattern | Learning

  /** `FOLDER_MAP[kind]` */
  function FolderName(kind: DistillKind): (r: string)
    ensures r in {"decisions", "patterns", "learnings"}
  {
    match kind
    case Decision => "decisions"
    case Pattern => "patterns"
    case Learning => "learnings"
  }

  /** Folder names tell the kinds apart. */
  lemma FolderNameInjective(a: DistillKind, b: DistillKind)
    requires FolderName(a) == FolderName(b)
    ensures a == b
  {
  }

  /** A candidate note; `confidence` is None when the item's confidence is not a number (NaN in comparisons). */
  datatype Candidate = Candidate(kind: DistillKind, title: string, summary: string, rationale: string,
                                 confidence: Option<real>)

  /** `item.key` converted with `String` when it is truthy. */
  function Text(item: Json, key: string): Option<string> {
    if Truthy(Get(Some(item), key)) then Some(ToJsString(Get(Some(item), key).value)) else None
  }

  const Untitled := "Untitled"

  /** `toDistillCandidate(kind, item)`: title || decision || 'Untitled', sanitised; missing texts are ''. */
  function ToDistillCandidate(kind: DistillKind, item: Json, home: string): (r: Candidate)
    ensures r.kind == kind
    ensures r.confidence == AsNumber(Get(Some(item), "confidence"))
    ensures Text(item, "title").Some? ==> r.title == Sanitized(Text(item, "title").value, home)
    ensures Text(item, "title").None? && Text(item, "decision").Some? ==>
      r.title == Sanitized(Text(item, "decision").value, home)
    ensures Text(item, "title").None? && Text(item, "decision").None? ==> r.title == Sanitized(Untitled, home)
    ensures Text(item, "summary").Some? ==> r.summary == Sanitized(Text(item, "summary").value, home)
    ensures Text(item, "summary").None? ==> r.summary == []
    ensures Text(item, "rationale").Some? ==> r.rationale == Sanitized(Text(item, "rationale").value, home)
    ensures Text(item, "rationale").None? ==> r.rationale == []
  {
    var title := if Text(item, "title").Some? then Text(item, "title").value
                 else if Text(item, "decision").Some? then Text(item, "decision").value
                 else Untitled;
    Candidate(
      kind, Sanitized(title, home),
      Sanitized(if Text(item, "summary").Some? then Text(item, "summary").value else [], home),
      Sanitized(if Text(item, "rationale").Some? then Text(item, "rationale").value else [], home),
      AsNumber(Get(Some(item), "confidence")))
  }

  function OfKind(kind: DistillKind, items: seq<Json>, home: string): (r: seq<Candidate>)
    ensures |r| == |items|
    ensures forall i :: 0 <= i < |items| ==> r[i] == ToDistillCandidate(kind, items[i], home)
  {
    seq(|items|, i requires 0 <= i < |items| => ToDistillCandidate(kind, items[i], home))
  }

  /** The candidates in processing order: every decision, then every pattern, then every learning. */
  function Candidates(decisions: seq<Json>, patterns: seq<Json>, learnings: seq<Json>, home: string): (r: seq<Candidate>)
    ensures |r| == |decisions| + |patterns| + |learnings|
    ensures forall i :: 0 <= i < |r| ==>
      r[i].kind == (if i < |decisions| then Decision else if i < |decisions| + |patterns| then Pattern else Learning)
  {
    OfKind(Decision, decisions, home) + OfKind(Pattern, patterns, home) + OfKind(Learning, learnings, home)
  }

  // ------------------------------------------------------------------- filter

  /** `candidate.confidence < confidenceThreshold`; a NaN confidence is never below. */
  predicate BelowThreshold(c: Candidate, threshold: real) {
    c.confidence.Some? && c.confidence.value < threshold
  }

  /** The slug the duplicate test uses. */
  function DedupSlug(c: Candidate): string { Slugify(c.title, 60) }

  /** The candidates the loop writes: not below the threshold and not already in the index. */
  function Admitted(cands: seq<Candidate>, threshold: real, index: VaultIndex.VaultIndex): (r: seq<Candidate>)
    ensures |r| <= |cands|
    ensures forall c :: c in r ==> (c in cands && !BelowThreshold(c, threshold) &&
      !Similarity.DuplicateKnowledge(DedupSlug(c), c.summary, index))
  {
    if cands == [] then []
    else
      var c := cands[|cands| - 1];
      var init := Admitted(cands[..|cands| - 1], threshold, index);
      assert forall x :: x in cands[..|cands| - 1] ==> x in cands;
      if BelowThreshold(c, threshold) || Similarity.DuplicateKnowledge(DedupSlug(c), c.summary, index) then init
      else init + [c]
  }

  /** Every candidate that reaches the threshold (or has no numeric confidence) and is new is admitted. */
  lemma {:induction false} AdmittedComplete(cands: seq<Candidate>, threshold: real, index: VaultIndex.VaultIndex, i: nat)
    requires i < |cands|
    requires !BelowThreshold(cands[i], threshold)
    requires !Similarity.DuplicateKnowledge(DedupSlug(cands[i]), cands[i].summary, index)
    ensures cands[i] in Admitted(cands, threshold, index)
  {
    var init := cands[..|cands| - 1];
    if i < |cands| - 1 {
      assert init[i] == cands[i];
      AdmittedComplete(init, threshold, index, i);
    }
  }

  /** A candidate exactly at the threshold, or without a numeric confidence, is not below it. */
  lemma ThresholdIsInclusive(c: Candidate, threshold: real)
    requires c.confidence == Some(threshold) || c.confidence.None?
    ensures !BelowThreshold(c, threshold)
  {
  }

  /** Any candidate whose slug is already a knowledge slug is dropped, whatever its summary. */
  lemma KnownSlugIsDropped(cands: seq<Candidate>, threshold: real, index: VaultIndex.VaultIndex, c: Candidate)
    requires DedupSlug(c) in index.knowledgeSlugs
    ensures c !in Admitted(cands, threshold, index)
  {
  }

  // -------------------------------------------------------------------- paths

  const FallbackSlug := "captured-item"

  /** `slugify(title, 60) || 'captured-item'` */
  function NoteSlug(title: string): (r: string)
    ensures r != []
  {
    if Slugify(title, 60) != [] then Slugify(title, 60) else FallbackSlug
  }

  /** `<vault>/Knowledge/<folder>` */
  function NoteFolder(vaultPath: string, kind: DistillKind): string {
    PathJoin(PathJoin(vaultPath, "Knowledge"), FolderName(kind))
  }

  /** `${date}_${slug}` */
  function BaseName(date: string, title: string): string {
    date + "_" + NoteSlug(title)
  }

  /** A path `nextAvailableFilePath(folder, base)` can give: `<base>.md` or `<base>_<k>.md` with k >= 2. */
  ghost predicate IsNotePath(path: string, folder: string, base: string) {
    path == PathJoin(folder, base + ".md") || exists k :: k >= 2 && path == FileIo.Numbered(folder, base, k)
  }

  ghost predicate Distinct(s: seq<string>) {
    forall i, j :: 0 <= i < j < |s| ==> s[i] != s[j]
  }

  /** The k-th written path is a new note path for the k-th admitted candidate. */
  ghost predicate NotesFor(written: seq<string>, admitted: seq<Candidate>, vaultPath: string, date: string,
                           before: set<string>) {
    |written| == |admitted| &&
    forall k :: 0 <= k < |written| ==>
      written[k] !in before &&
      IsNotePath(written[k], NoteFolder(vaultPath, admitted[k].kind), BaseName(date, admitted[k].title))
  }

  lemma NotesForExtend(written: seq<string>, admitted: seq<Candidate>, vaultPath: string, date: string,
                       before: set<string>, path: string, c: Candidate)
    requires NotesFor(written, admitted, vaultPath, date, before)
    requires path !in before && IsNotePath(path, NoteFolder(vaultPath, c.kind), BaseName(date, c.title))
    ensures NotesFor(written + [path], admitted + [c], vaultPath, date, before)
  {
    var w, a := written + [path], admitted + [c];
    forall k | 0 <= k < |w|
      ensures w[k] !in before && IsNotePath(w[k], NoteFolder(vaultPath, a[k].kind), BaseName(date, a[k].title))
    {
      if k < |written| {
        assert w[k] == written[k] && a[k] == admitted[k];
      } else {
        assert w[k] == path && a[k] == c;
      }
    }
  }

  /** The vault's files once a note has been written for each of `admitted`, in order, starting from `before`. */
  function FilesAfter(admitted: seq<Candidate>, vaultPath: string, date: string, before: set<string>): (r: set<string>)
    ensures before <= r && |r| == |before| + |admitted|
  {
    if admitted == [] then before
    else
      var files := FilesAfter(admitted[..|admitted| - 1], vaultPath, date, before);
      var c := admitted[|admitted| - 1];
      var path := FileIo.NextFreePath(NoteFolder(vaultPath, c.kind), BaseName(date, c.title), files);
      files + {path}
  }

  lemma FilesAfterSnoc(admitted: seq<Candidate>, c: Candidate, vaultPath: string, date: string, before: set<string>)
    ensures FilesAfter(admitted + [c], vaultPath, date, before) ==
      var files := FilesAfter(admitted, vaultPath, date, before);
      files + {FileIo.NextFreePath(NoteFolder(vaultPath, c.kind), BaseName(date, c.title), files)}
  {
    assert (admitted + [c])[..|admitted|] == admitted;
  }

  // -------------------------------------------------------------- the writer

  /** The vault's existing files, to which notes are added. */
  class KnowledgeNotes {
    var files: set<string>

    constructor (files: set<string>)
      ensures this.files == files
    {
      this.files := files;
    }

    /** `writeOneKnowledgeNote`: a dry run writes nothing; otherwise a fresh path in the kind's folder. */
    method WriteOneKnowledgeNote(vaultPath: string, candidate: Candidate, date: string, dryRun: bool)
      returns (path: Option<string>)
      modifies this
      ensures dryRun ==> path.None? && files == old(files)
      ensures !dryRun ==> path.Some? && path.value !in old(files) && files == old(files) + {path.value}
      ensures !dryRun ==> IsNotePath(path.value, NoteFolder(vaultPath, candidate.kind), BaseName(date, candidate.title))
      ensures !dryRun ==>
        path.value == FileIo.NextFreePath(NoteFolder(vaultPath, candidate.kind), BaseName(date, candidate.title), old(files))
    {
      var folder := NoteFolder(vaultPath, candidate.kind);
      var baseName := BaseName(date, candidate.title);
      if dryRun {
        return None;
      }
      var filePath := FileIo.NextAvailableFilePath(folder, baseName, files);
      files := files + {filePath};
      return Some(filePath);
    }

    /** The write that follows both tests, with what it adds to the notes written so far. */
    method WriteAdmitted(candidate: Candidate, vaultPath: string, dryRun: bool, date: string,
                         written: seq<string>, ghost admitted: seq<Candidate>, ghost before: set<string>)
      returns (written': seq<string>)
      requires dryRun ==> written == [] && files == before
      requires !dryRun ==> NotesFor(written, admitted, vaultPath, date, before)
      requires Distinct(written)
      requires (forall p :: p in files <==> p in before || p in written)
      requires !dryRun ==> files == FilesAfter(admitted, vaultPath, date, before)
      modifies this
      ensures !dryRun ==> NotesFor(written', admitted + [candidate], vaultPath, date, before)
      ensures !dryRun ==> files == FilesAfter(admitted + [candidate], vaultPath, date, before)
      ensures dryRun ==> written' == [] && files == before
      ensures Distinct(written')
      ensures (forall p :: p in files <==> p in before || p in written')
    {
      var path := WriteOneKnowledgeNote(vaultPath, candidate, date, dryRun);
      FilesAfterSnoc(admitted, candidate, vaultPath, date, before);
      if path.Some? {
        NotesForExtend(written, admitted, vaultPath, date, before, path.value, candidate);
        written' := written + [path.value];
      } else {
        written' := written;
      }
    }

    /** One pass of the `writeKnowledgeNotes` loop: the threshold test, the duplicate test, then the write. */
    method WriteIfAdmitted(candidate: Candidate, vaultPath: string, threshold: real, index: VaultIndex.VaultIndex,
                           dryRun: bool, date: string, written: seq<string>, ghost admitted: seq<Candidate>,
                           ghost before: set<string>)
      returns (written': seq<string>)
      requires dryRun ==> written == [] && files == before
      requires !dryRun ==> NotesFor(written, admitted, vaultPath, date, before)
      requires Distinct(written)
      requires (forall p :: p in files <==> p in before || p in written)
      requires !dryRun ==> files == FilesAfter(admitted, vaultPath, date, before)
      modifies this
      ensures var admitted' := if BelowThreshold(candidate, threshold) ||
                                  Similarity.DuplicateKnowledge(DedupSlug(candidate), candidate.summary, index)
                               then admitted else admitted + [candidate];
        !dryRun ==> NotesFor(written', admitted', vaultPath, date, before) &&
                    files == FilesAfter(admitted', vaultPath, date, before)
      ensures dryRun ==> written' == [] && files == before
      ensures Distinct(written')
      ensures (forall p :: p in files <==> p in before || p in written')
    {
      written' := written;
      if BelowThreshold(candidate, threshold) {
        return;
      }
      var duplicate := Similarity.IsDuplicateKnowledge(DedupSlug(candidate), candidate.summary, index);
      if duplicate {
        return;
      }
      written' := WriteAdmitted(candidate, vaultPath, dryRun, date, written, admitted, before);
    }

    /** The loop of `writeKnowledgeNotes` over the candidates, in order. */
    method WriteCandidates(candidates: seq<Candidate>, vaultPath: string, threshold: real,
                           index: VaultIndex.VaultIndex, dryRun: bool, date: string)
      returns (written: seq<string>)
      modifies this
      ensures dryRun ==> written == [] && files == old(files)
      ensures !dryRun ==> NotesFor(written, Admitted(candidates, threshold, index), vaultPath, date, old(files))
      ensures !dryRun ==> files == FilesAfter(Admitted(candidates, threshold, index), vaultPath, date, old(files))
      ensures Distinct(written)
      ensures (forall p :: p in files <==> p in old(files) || p in written)
    {
      written := [];
      for i := 0 to |candidates|
        invariant dryRun ==> written == [] && files == old(files)
        invariant !dryRun ==> NotesFor(written, Admitted(candidates[..i], threshold, index), vaultPath, date, old(files))
        invariant !dryRun ==> files == FilesAfter(Admitted(candidates[..i], threshold, index), vaultPath, date, old(files))
        invariant Distinct(written)
        invariant (forall p :: p in files <==> p in old(files) || p in written)
      {
        PrefixExtend(candidates, i);
        written := WriteIfAdmitted(candidates[i], vaultPath, threshold, index, dryRun, date, written,
                                   Admitted(candidates[..i], threshold, index), old(files));
      }
      assert candidates[..|candidates|] == candidates;
    }

    /** `writeKnowledgeNotes(params)`: one new note per admitted candidate, in order; a dry run writes none. */
    method WriteKnowledgeNotes(decisions: seq<Json>, patterns: seq<Json>, learnings: seq<Json>, vaultPath: string,
                               threshold: real, index: VaultIndex.VaultIndex, dryRun: bool, date: string, home: string)
      returns (written: seq<string>)
      modifies this
      ensures dryRun ==> written == [] && files == old(files)
      ensures !dryRun ==>
        NotesFor(written, Admitted(Candidates(decisions, patterns, learnings, home), threshold, index),
                 vaultPath, date, old(files))
      ensures !dryRun ==>
        files == FilesAfter(Admitted(Candidates(decisions, patterns, learnings, home), threshold, index),
                            vaultPath, date, old(files))
      ensures Distinct(written)
      ensures (forall p :: p in files <==> p in old(files) || p in written)
    {
      written := WriteCandidates(Candidates(decisions, patterns, learnings, home), vaultPath, threshold, index,
                                 dryRun, date);
    }
  }
}
