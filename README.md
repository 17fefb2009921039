# cortana-obsidian session pipeline, modelled in Dafny

This project models the parts of the cortana-obsidian hooks that turn AI coding sessions into
Obsidian notes, and proves properties about them. The sessions come from Claude Code and
Claude Desktop. The modelled parts are:

- **the daily extraction pipeline** (`daily-extract.ts`): lock, watermark, discovery of both
  session sources, candidate selection, the duplicate and significance gates, per-session
  watermark accounting, knowledge notes and grouping of the daily digests;
- **the re-enrichment run** (`re-enrich.ts`): argument parsing, the front-matter scan for
  heuristic notes, the history index, the transcript lookup and the rewrite loop;
- **the analysis helpers**: transcript budgeting (`chunker.ts`), the transcript readers, the
  engine-tag decision of the knowledge extraction, Jaccard deduplication and the vault index;
- **the shared helpers in `hooks/core`**: slugs, domain and project detection, the simple
  YAML parser, secret sanitization, learning capture, the inline session-intelligence path,
  the LLM result tagging, and the file-backed job queue with its enrichment worker.

The model is sequential and deterministic. The things the hooks get from outside are
parameters:

- the clock (`nowMs`, `nowIso`);
- `JSON.parse` and `Date.parse`;
- the process-liveness probe;
- the answer of the language model, as `Ok(text)` or `Err`;
- the contents of files: a transcript or history file is a sequence of already-parsed lines
  (`None` for a blank or malformed line), and a directory is a listing or a map.

What the source changes in place is modelled as classes whose methods update fields:
`WatermarkState`, `StateDir`, `ProcessLock`, `JobQueue`, `EnrichmentWorker`, `KnowledgeNotes`,
`KnowledgeVault` and `SessionNotes`. A method's postcondition ties what it returns and the fields
it changes to functions of its inputs and of the old state. The properties are then proved as
lemmas about those functions.

Some of what the proofs show about the code as written:

- A dry run of `re-enrich` never reaches its "would rewrite" branch. On a dry run every
  extraction is heuristic, so every candidate is reported as still heuristic and nothing is
  counted as enriched (`ReEnrich.DryRunRewritesNothing`, `ReEnrich.DryRunLeavesVault`).
- An unparsable `acquiredAt` makes the age of a lock `NaN`, so even a live holder's lock is
  taken over (`Lock.UnparsableDateIsStolen`).

Modules follow the source files one to one:

| module | source file |
|---|---|
| `JsString`, `Json` | JavaScript string and value semantics |
| `Types` | the environment |
| `Common` | `hooks/core/common.ts` |
| `Sanitize` | `hooks/core/sanitize.ts` |
| `Learning` | `hooks/core/learning.ts` |
| `FileIo` | `hooks/core/io.ts` |
| `Llm` | `hooks/core/llm.ts` |
| `SessionIntel` | `hooks/core/session-intelligence.ts` |
| `Queue` | `hooks/core/queue/store.ts` |
| `Worker` | `hooks/workers/enrichment-worker.ts` |
| `Chunker` | `analysis/chunker.ts` |
| `Transcript` | `analysis/transcript-reader.ts` |
| `Extract` | `analysis/extract.ts` |
| `Similarity` | `dedup/similarity.ts` |
| `VaultIndex` | `dedup/vault-index.ts` |
| `Discovery` | the shared session source tag |
| `CodeDiscovery` | `discovery/claude-code.ts` |
| `DesktopDiscovery` | `discovery/claude-desktop.ts` |
| `KnowledgeWriter` | `output/knowledge-writer.ts` |
| `Watermark` | `state/watermark.ts` |
| `Lock` | `state/lock.ts` |
| `Sorting` | the stable `Array.prototype.sort` |
| `DailyExtract` | `daily-extract.ts` |
| `ReEnrich` | `re-enrich.ts` |

## Model

| member | source | states |
|---|---|---|
| Chunker.FormatMessage | hooks/pipeline/analysis/chunker.ts:10-12 | the rendering is `[role] ` followed by the content, 3 characters longer than role and content together |
| Chunker.FormatEach | hooks/pipeline/analysis/chunker.ts:14-16 | one rendering per message, in order |
| Chunker.EveryKthIndex | hooks/pipeline/analysis/chunker.ts:67 | the j-th kept element is the element at index j·k, and index j·k is kept exactly when it is in range |
| Chunker.EveryFirstIsAll | hooks/pipeline/analysis/chunker.ts:63-67 | sampling with k = 1 keeps the whole pool |
| Chunker.UserOnly | hooks/pipeline/analysis/chunker.ts:59 | the pool holds exactly the user messages of the middle, and nothing else |
| Chunker.SamplesPartition | hooks/pipeline/analysis/chunker.ts:55-58 | head sample, middle and tail sample are disjoint consecutive slices that make up the messages; at most 5 in the head and 10 in the tail |
| Chunker.FirstFrom | hooks/pipeline/analysis/chunker.ts:66-79 | the search yields a k in range that fits with no smaller k fitting, or none when no k fits |
| Chunker.FirstFromIsLeast | hooks/pipeline/analysis/chunker.ts:66-79 | the search finds exactly the least k that fits |
| Chunker.SampledTry | hooks/pipeline/analysis/chunker.ts:66-79 | a rendering from the sampling loop never exceeds the budget |
| Chunker.TrySampling | hooks/pipeline/analysis/chunker.ts:63-79 | the `while` loop over k returns what the first-fit specification gives |
| Chunker.ChunkTranscript | hooks/pipeline/analysis/chunker.ts:26-88 | the result is the tiered choice, and with a non-negative budget its text never exceeds the budget |
| Chunker.ChunkWithinBudget | hooks/pipeline/analysis/chunker.ts:30-87 | every tier, the fallback included, respects a non-negative budget |
| Chunker.ChunkFullWhenFits | hooks/pipeline/analysis/chunker.ts:30-38 | when the full rendering fits it is returned unchanged as `full`; this includes the empty transcript |
| Chunker.ChunkHeadTailOnlyWhenLong | hooks/pipeline/analysis/chunker.ts:40-52 | head-tail is chosen only for more than 20 messages that do not fit in full; its text is the first 20, the separator and the last min(40, n−20) |
| Chunker.ChunkFallbackWithEmptyPool | hooks/pipeline/analysis/chunker.ts:81-87 | with an empty pool, a transcript that fits neither in full nor as head-tail gets the truncated fallback, tagged `sampled` |
| Chunker.ChunkSampledIsFirstFit | hooks/pipeline/analysis/chunker.ts:63-79 | when the full and head-tail tiers fail, the result is the rendering for the least k that fits |
| Chunker.FirstTryKeepsWholePool | hooks/pipeline/analysis/chunker.ts:67-73 | the first try renders the head sample, the whole pool and the tail sample |
| Similarity.Tokens | hooks/pipeline/dedup/similarity.ts:4-10 | tokens are non-empty, hold no white space and no upper-case ASCII letter; `Similarity.TokensAreRuns` says which words they are |
| Similarity.WordsFromAreRuns | hooks/pipeline/dedup/similarity.ts:6-9 | the words the splitting loop yields after a pending word are exactly the maximal non-space runs of the pending word and the rest |
| Similarity.TokensAreRuns | hooks/pipeline/dedup/similarity.ts:4-10 | a word is a token exactly when it is a maximal run of non-space characters of the lower-cased text |
| Similarity.Jaccard | hooks/pipeline/dedup/similarity.ts:12-22 | the similarity lies in [0, 1] |
| Similarity.UnionCard | hooks/pipeline/dedup/similarity.ts:21 | the union size is the sum of the sizes minus the intersection |
| Similarity.JaccardSimilarity | hooks/pipeline/dedup/similarity.ts:3-23 | the counting loop computes exactly the set-based similarity |
| Similarity.SimilarEnoughIff | hooks/pipeline/dedup/similarity.ts:25-37 | the integer test 10·\|A∩B\| ≥ 7·\|A∪B\| holds exactly when the similarity is at least 0.7 |
| Similarity.JaccardSymmetric | hooks/pipeline/dedup/similarity.ts:3-23 | the similarity is symmetric |
| Similarity.JaccardEmptyCases | hooks/pipeline/dedup/similarity.ts:14-15 | two texts without tokens give 1; exactly one text without tokens gives 0 |
| Similarity.JaccardSameTokens | hooks/pipeline/dedup/similarity.ts:4-22 | equal non-empty token sets give 1 |
| Similarity.TokensIgnoreCase | hooks/pipeline/dedup/similarity.ts:7 | texts equal up to case are identical |
| Similarity.IndexedSessionIsDuplicate | hooks/pipeline/dedup/similarity.ts:27-29 | every session note carrying an id is a duplicate once indexed |
| Similarity.IsDuplicateKnowledge | hooks/pipeline/dedup/similarity.ts:31-43 | true exactly when the slug is known or some indexed summary is at least 0.7 similar; a known slug always gives true |
| VaultIndex.FilesIn | hooks/pipeline/dedup/vault-index.ts:11-28 | the recursive walk, parameterised by the file-name filter, yields only paths of files whose names pass the filter |
| VaultIndex.FilesInComplete | hooks/pipeline/dedup/vault-index.ts:14-22 | every file whose name passes the filter is found, and a sub-directory's files are among the results |
| VaultIndex.CollectMarkdownFiles | hooks/pipeline/dedup/vault-index.ts:11-28 | a missing directory gives no files; only `.md` files are collected |
| VaultIndex.CollectComplete | hooks/pipeline/dedup/vault-index.ts:11-28 | every `.md` file of the tree is collected, sub-directories included |
| VaultIndex.NextSet | hooks/pipeline/dedup/vault-index.ts:37-41 | the first fence at or after a position, or the end |
| VaultIndex.FrontmatterBody | hooks/pipeline/dedup/vault-index.ts:34-42 | only lines from the block between fences are read, and none of them is a fence |
| VaultIndex.FmPairsSnoc | hooks/pipeline/dedup/vault-index.ts:43-44 | a matching line adds its key with the trimmed value; other lines add nothing |
| VaultIndex.FrontmatterQuotedLine | hooks/pipeline/dedup/vault-index.ts:43-44 | a quoted key line sets the key to the trimmed text between the quotes |
| VaultIndex.AddFrontmatterLine | hooks/pipeline/dedup/vault-index.ts:43-44 | a block line extends the record exactly as the block up to that line specifies |
| VaultIndex.ScanLine | hooks/pipeline/dedup/vault-index.ts:37-44 | one line of the loop keeps the scan's position consistent: a first fence opens an empty block, a second fence stops at the block's end, and other lines extend the record only inside the block |
| VaultIndex.FrontmatterClosedAt | hooks/pipeline/dedup/vault-index.ts:36-45 | a block opened by the first fence and closed by the next fence, or by the end of the lines, is exactly what is read |
| VaultIndex.FrontmatterNeverOpened | hooks/pipeline/dedup/vault-index.ts:36-42 | lines without a fence give an empty record |
| VaultIndex.ReadFrontmatter | hooks/pipeline/dedup/vault-index.ts:30-50 | the reader returns the record of the first 20 lines' block |
| VaultIndex.FrontmatterWithoutFence | hooks/pipeline/dedup/vault-index.ts:37-41 | without a fence the record is empty |
| VaultIndex.FrontmatterWithFence | hooks/pipeline/dedup/vault-index.ts:37-45 | with a fence the record is the pairs between it and the next fence, later keys overwriting earlier ones |
| VaultIndex.FrontmatterStep | hooks/pipeline/dedup/vault-index.ts:43-45 | each line of the block leaves the record alone or assigns its one key |
| VaultIndex.ScanFrontmatter | hooks/pipeline/dedup/vault-index.ts:36-45 | the loop with its `inFrontmatter` flag, stopping at the closing fence, computes the block's record |
| VaultIndex.ScanEnds | hooks/pipeline/dedup/vault-index.ts:36-45 | when the scan stops at the closing fence or runs out of lines, the record it holds is the front matter of the lines |
| VaultIndex.StripMdSuffix | hooks/pipeline/dedup/vault-index.ts:53 | only a trailing `.md` is removed |
| VaultIndex.StripDatePrefix | hooks/pipeline/dedup/vault-index.ts:54 | a leading `dddd-dd-dd` is removed together with a `_` right after it, and a text without that prefix is kept as it is |
| VaultIndex.SlugOfDatedName | hooks/pipeline/dedup/vault-index.ts:52-57 | `date_slug.md` gives back the slug |
| VaultIndex.SlugOfUndatedName | hooks/pipeline/dedup/vault-index.ts:52-57 | an undated name only loses its `.md` |
| VaultIndex.NotesOf | hooks/pipeline/dedup/vault-index.ts:66-83 | each collected file is paired with its front matter, in order |
| VaultIndex.BuildVaultIndex | hooks/pipeline/dedup/vault-index.ts:59-99 | the method builds the index of the two folds |
| VaultIndex.IndexSessionNotes | hooks/pipeline/dedup/vault-index.ts:66-78 | the session loop computes the session fold |
| VaultIndex.IndexKnowledgeNotes | hooks/pipeline/dedup/vault-index.ts:82-92 | the knowledge loop computes the knowledge fold |
| VaultIndex.SessionIdsExact | hooks/pipeline/dedup/vault-index.ts:68-73 | the session ids are exactly the non-empty `session_id` fields of the session notes |
| VaultIndex.DatesBelongToSessions | hooks/pipeline/dedup/vault-index.ts:70-73 | a date is only recorded for an indexed session |
| VaultIndex.KnowledgeSlugsExact | hooks/pipeline/dedup/vault-index.ts:83-88 | the knowledge slugs are exactly the non-empty slugs of the knowledge file names |
| VaultIndex.AddKnowledgeNoteSummaries | hooks/pipeline/dedup/vault-index.ts:89-91 | a knowledge note with a summary stores it under its slug or path, and touches no session data |
| VaultIndex.KnowledgeOverridesSessions | hooks/pipeline/dedup/vault-index.ts:74-91 | the knowledge pass keeps session ids and dates, and its summaries override session summaries with equal keys |
| Watermark.DefaultWatermark | hooks/pipeline/state/watermark.ts:24-39 | both sources start at now − backfillDays·86 400 000 with empty id lists, and the stats are zero |
| Watermark.WithSource | hooks/pipeline/state/watermark.ts:81 | replacing one source leaves the other source, the stats and `lastRunAt` alone |
| Watermark.HighWaterMark | hooks/pipeline/state/watermark.ts:89-92 | the mark becomes the larger of the old mark and the timestamp, so it never decreases |
| Watermark.RollingWindow | hooks/pipeline/state/watermark.ts:83-87 | the id list keeps the last min(200, n+1) ids in order, ending with the new id |
| Watermark.RecordSessionFrame | hooks/pipeline/state/watermark.ts:81-95 | the other source, `lastRunAt` and the other stats are unchanged; `totalSessionsProcessed` grows by one |
| Watermark.WatermarkState.UpdateForSession | hooks/pipeline/state/watermark.ts:75-96 | the update is made in place, returns the same object, and its state is the recorded one |
| Watermark.DecodeEncode | hooks/pipeline/state/watermark.ts:67 | a written record reads back as the same record |
| Watermark.ReadWatermark | hooks/pipeline/state/watermark.ts:41-57 | a record is returned exactly when the file parses with `version` 1 and truthy `sources` |
| Watermark.WriteThenRead | hooks/pipeline/state/watermark.ts:41-73 | a written watermark passes the read check and decodes to what was written |
| Watermark.StateDir.WriteWatermark | hooks/pipeline/state/watermark.ts:59-73 | `lastRunAt` is stamped on the record whatever the outcome; on success the record is in place and the temporary file is gone; both failures rethrow: a failed temporary write leaves both files as they stood, and a failed rename leaves the watermark and the newly written temporary file |
| Lock.ProcessLock.AcquireLock | hooks/pipeline/state/lock.ts:26-73 | a live holder younger than 30 minutes is refused and the lock kept; otherwise any old lock is replaced and the result is whether the write succeeded |
| Lock.ProcessLock.ReleaseLock | hooks/pipeline/state/lock.ts:75-85 | the lock is removed whoever holds it |
| Lock.CorruptLockIsReplaced | hooks/pipeline/state/lock.ts:47-49 | a corrupt lock file is never respected |
| Lock.UnparsableDateIsStolen | hooks/pipeline/state/lock.ts:37-39 | a live holder whose timestamp does not parse loses the lock |
| Lock.HeldExactly | hooks/pipeline/state/lock.ts:9-46 | a parsable lock is respected exactly when its holder is alive and younger than 30 minutes |
| Queue.LeastExists | hooks/core/queue/store.ts:47-48 | a non-empty listing has a least name |
| Queue.LeastUnique | hooks/core/queue/store.ts:47-48 | the least name is unique |
| Queue.Least | hooks/core/queue/store.ts:47-48 | the first name of the sorted listing exists exactly when the listing is non-empty |
| Queue.LeastName | hooks/core/queue/store.ts:47-48 | one pass over the names finds the first of the sorted listing |
| Queue.LeastExtend | hooks/core/queue/store.ts:47-48 | comparing the least name so far with one more keeps the least |
| Queue.JobId | hooks/core/queue/store.ts:29 | the id is the enqueue time, a dash, and the 24-character slug of the title or `job` |
| Queue.NextName | hooks/core/queue/store.ts:46-48 | the claimed name is the lexicographically first `.json` file of `pending`, and there is none exactly when `pending` has no `.json` file |
| Queue.ClaimResult | hooks/core/queue/store.ts:44-60 | null exactly when `pending` has no `.json` file; otherwise the job is `processing` with one more attempt |
| Queue.AfterClaim | hooks/core/queue/store.ts:44-60 | an empty queue is unchanged, and a claim never touches `done` or `failed` |
| Queue.ErrorText | hooks/core/queue/store.ts:86 | the error text is never empty |
| Queue.JobQueue.EnqueueJob | hooks/core/queue/store.ts:25-42 | the job is written to `pending` under its fresh id |
| Queue.JobQueue.ClaimNextJob | hooks/core/queue/store.ts:44-60 | the directories and the result are those of a claim |
| Queue.JobQueue.FinalizeJob | hooks/core/queue/store.ts:62-90 | the directories are those of finalizing the job |
| Queue.EnqueuePreservesValid | hooks/core/queue/store.ts:25-41 | enqueueing a fresh id keeps every job in one directory under its own name; the job is `pending` with 0 attempts and equal creation and update times |
| Queue.ClaimPreservesValid | hooks/core/queue/store.ts:47-58 | a claim keeps the directories consistent and removes the name from `pending` |
| Queue.FinalizePreservesValid | hooks/core/queue/store.ts:62-90 | finalizing keeps the directories consistent and always removes the job from `processing` |
| Queue.RetryIsImmediate | hooks/core/queue/store.ts:74-79 | a failed job with attempts left goes back to `pending` at once, attempts unchanged |
| Queue.ExhaustedJobFails | hooks/core/queue/store.ts:82-89 | a failed job out of attempts moves to `failed` with the error text |
| Queue.RetriesAreBounded | hooks/core/queue/store.ts:44-89 | after n claims a job has n attempts, and a failure fails it for good exactly once n reaches the maximum |
| Worker.SourceSessionFilename | hooks/workers/enrichment-worker.ts:24 | `unknown-session.md` exactly when the path is empty or ends in '/'; otherwise the last path segment |
| Worker.PlainNameIsKept | hooks/workers/enrichment-worker.ts:24 | a bare file name is its own source name |
| Worker.WorkerError | hooks/workers/enrichment-worker.ts:34 | the error is the message when there is one, else `worker error` |
| Worker.Step | hooks/workers/enrichment-worker.ts:16-38 | no job is handled exactly when `pending` has no `.json` file, and then nothing changes |
| Worker.RunForever | hooks/workers/enrichment-worker.ts:41 | on exactly when the variable is unset, empty, or anything other than `false` in any letter case |
| Worker.EnrichmentWorker.RunOnce | hooks/workers/enrichment-worker.ts:16-38 | one claim, run and finalize, as the step specifies |
| Worker.EnrichmentWorker.RunWorker | hooks/workers/enrichment-worker.ts:40-50 | with run-forever off, one step; with it on, the queue and results are those after the given number of polls (at least one); a valid queue stays valid |
| Worker.StepPreservesValid | hooks/workers/enrichment-worker.ts:16-38 | a step keeps every job in one directory under its own name |
| Worker.StepOutcome | hooks/workers/enrichment-worker.ts:21-35 | an enrichment is stored and the job is done; a throw leaves the results alone and retries or fails the job by its attempts |
| Worker.PolledPreservesValid | hooks/workers/enrichment-worker.ts:43-49 | any number of polls keeps every job in exactly one directory under its own name |
| Worker.IdlePollsChangeNothing | hooks/workers/enrichment-worker.ts:43-49 | once a poll finds no pending job, later polls leave the queue and the results alone |
| Transcript.ExtractContent | hooks/pipeline/analysis/transcript-reader.ts:15-24 | a string is kept as it is, and anything that is neither a string nor an array gives "" |
| Transcript.CodeMessage | hooks/pipeline/analysis/transcript-reader.ts:37-59 | a message exactly when the role is the string `user` or `assistant` and the content has non-empty text; it carries that role and text, and timestamp and model exactly when present |
| Transcript.DesktopRole | hooks/pipeline/analysis/transcript-reader.ts:80-95 | a role exists exactly when the type, converted to a key, is one of the five known desktop types |
| Transcript.DesktopRoleTable | hooks/pipeline/analysis/transcript-reader.ts:86-95 | `tool_use_summary` becomes `tool`, and the other known types keep their name |
| Transcript.DesktopRoleCoercesKey | hooks/pipeline/analysis/transcript-reader.ts:94 | a one-element array holding a known type is looked up as that type |
| Transcript.DesktopMessage | hooks/pipeline/analysis/transcript-reader.ts:80-110 | a message exactly when the type maps to a known role and the content has non-empty text; it carries that role and text, the `_audit_timestamp` and the model |
| Transcript.Messages | hooks/pipeline/analysis/transcript-reader.ts:37-62 | every line that yields a message contributes it, and there are none exactly when no line yields one |
| Transcript.EachFromALine | hooks/pipeline/analysis/transcript-reader.ts:37-62 | every message is the one some line of the file yields |
| Transcript.MessagesAreSomes | hooks/pipeline/analysis/transcript-reader.ts:37-62 | the messages are exactly the values the lines yield, in line order |
| Transcript.Origins | hooks/pipeline/analysis/transcript-reader.ts:37-62 | each message comes from a line that yields it, at strictly increasing line positions |
| Transcript.ReadCodeTranscript | hooks/pipeline/analysis/transcript-reader.ts:31-63 | a missing file gives []; otherwise the messages of the lines, all user or assistant |
| Transcript.ReadDesktopTranscript | hooks/pipeline/analysis/transcript-reader.ts:70-115 | a missing file gives []; otherwise the messages of the lines, all with a mapped role |
| Transcript.MessagesInOrder | hooks/pipeline/analysis/transcript-reader.ts:37-62 | messages come out in line order |
| Json.JsonSpan | hooks/pipeline/analysis/extract.ts:34-39 | no span exactly when there is no `{` or the last `}` comes before it; otherwise the span runs from the first `{` to the last `}` of the trimmed text |
| Json.SafeParse | hooks/pipeline/analysis/extract.ts:34-45 | without a span the result is null; with one it is exactly the parse of the span |
| Json.BracedTextIsItsOwnSpan | hooks/pipeline/analysis/extract.ts:36-40 | an exactly braced answer is parsed whole |
| Extract.ChosenModel | hooks/pipeline/analysis/extract.ts:111 | the option when set, else `PIPELINE_LLM_MODEL` when set, else the default model |
| Extract.HeuristicExtraction | hooks/pipeline/analysis/extract.ts:72-99 | three summary lines, empty lists, significance 0.3, engine `heuristic` and model `none` |
| Extract.Accepted | hooks/pipeline/analysis/extract.ts:154-167 | accepted exactly when the span parses with an array `executive_summary` and a string `digest`; tagged `claude-headless`, significance 0.5 unless numeric, and each list the answer's array or else empty |
| Extract.NoSpanNoAnswer | hooks/pipeline/analysis/extract.ts:34-39 | an answer without a brace span is never accepted |
| Extract.ExtractFrom | hooks/pipeline/analysis/extract.ts:107-184 | empty gives `heuristic-empty`; a dry run gives the heuristic; `claude-headless` exactly for an accepted answer, which is then the result; `heuristic-llm-error` exactly for a thrown call and `heuristic-parse-fail` exactly for a rejected answer, both the heuristic result under the chosen model |
| Extract.ExtractSessionKnowledge | hooks/pipeline/analysis/extract.ts:107-132 | the reader follows the session's source, and the decision is made on what it read |
| Extract.EmptyBeforeDryRun | hooks/pipeline/analysis/extract.ts:123-136 | an empty transcript is reported as empty even on a dry run |
| CodeDiscovery.EncodeProjectPath | hooks/pipeline/discovery/claude-code.ts:22-24 | every '/' becomes '-', and every other character is kept |
| CodeDiscovery.HistoryEntryOf | hooks/pipeline/discovery/claude-code.ts:35-46 | an entry needs a truthy session id and timestamp; a malformed line gives none |
| CodeDiscovery.History | hooks/pipeline/discovery/claude-code.ts:26-51 | the entries come from the lines, never more than the lines |
| CodeDiscovery.HistoryKeepsEntries | hooks/pipeline/discovery/claude-code.ts:26-51 | every line carrying an entry contributes it |
| CodeDiscovery.ReadHistory | hooks/pipeline/discovery/claude-code.ts:26-51 | a missing file gives no entries |
| CodeDiscovery.Latest | hooks/pipeline/discovery/claude-code.ts:132-139 | the kept entries are recent, each under its own id, in first-seen order |
| CodeDiscovery.LatestIsNewest | hooks/pipeline/discovery/claude-code.ts:132-139 | every recent entry's id is kept, with an entry at least as new |
| CodeDiscovery.LatestIsFirstNewest | hooks/pipeline/discovery/claude-code.ts:132-139 | the kept entry is from the history, and the first of the newest wins ties |
| CodeDiscovery.LatestPerSession | hooks/pipeline/discovery/claude-code.ts:130-140 | the fold's loop computes the keep-latest map |
| CodeDiscovery.Raise | hooks/pipeline/discovery/claude-code.ts:76-79 | the meta timestamp only rises, to the new stamp or not at all |
| CodeDiscovery.LastParsedIndex | hooks/pipeline/discovery/claude-code.ts:86-103 | the tail scan stops at the last parsed line |
| CodeDiscovery.ExtractTranscriptMeta | hooks/pipeline/discovery/claude-code.ts:53-109 | a missing transcript gives the empty meta; otherwise the meta of the two scans |
| CodeDiscovery.TailScanFinds | hooks/pipeline/discovery/claude-code.ts:86-103 | the backward loop stops at the last parsed line of the window |
| CodeDiscovery.HeadScanTakesFirst | hooks/pipeline/discovery/claude-code.ts:60-82 | the head scan keeps the first cwd and the first model found |
| CodeDiscovery.HeadScanTakesMax | hooks/pipeline/discovery/claude-code.ts:60-82 | the head scan's timestamp is the largest stamp of the parsed lines, or 0 |
| CodeDiscovery.SubagentPaths | hooks/pipeline/discovery/claude-code.ts:111-122 | a missing directory gives none; exactly the `.jsonl` files are listed |
| CodeDiscovery.SessionOf | hooks/pipeline/discovery/claude-code.ts:143-170 | a session exists exactly when the transcript exists; createdAt is the entry's time, lastActivityAt the transcript's latest stamp or createdAt, the title the trimmed display |
| CodeDiscovery.CodeSessions | hooks/pipeline/discovery/claude-code.ts:143-172 | every session is built from its kept entry, and the ids are distinct |
| CodeDiscovery.CodeSessionsComplete | hooks/pipeline/discovery/claude-code.ts:143-172 | every kept entry whose transcript exists yields a session |
| CodeDiscovery.CodeSessionFor | hooks/pipeline/discovery/claude-code.ts:144-170 | one kept entry gives exactly the session its transcript and subagent listing determine, or none without a transcript |
| CodeDiscovery.BuildCodeSessions | hooks/pipeline/discovery/claude-code.ts:141-171 | the loop pushes, in insertion order, the session of every kept entry that has a transcript |
| CodeDiscovery.DiscoverCodeSessions | hooks/pipeline/discovery/claude-code.ts:124-175 | the discovery is the keep-latest fold followed by the session build |
| CodeDiscovery.DiscoveredCodeSessions | hooks/pipeline/discovery/claude-code.ts:124-175 | every discovered session is recent, under its own kept entry, with an existing transcript, and no id appears twice |
| DesktopDiscovery.ToMs | hooks/pipeline/discovery/claude-desktop.ts:27-32 | numbers pass through, and empty or unparsable strings give 0 |
| DesktopDiscovery.ParseMetadata | hooks/pipeline/discovery/claude-desktop.ts:63-82 | unreadable or `null` metadata gives none; the archived flag is the truthiness of `isArchived` |
| DesktopDiscovery.SessionIdOfMetadataName | hooks/pipeline/discovery/claude-desktop.ts:84-87 | `local_<id>.json` gives back the id |
| DesktopDiscovery.MetadataFilesIn | hooks/pipeline/discovery/claude-desktop.ts:34-61 | only `local_*.json` files are collected, each path ending in its file name |
| DesktopDiscovery.MetadataFilesComplete | hooks/pipeline/discovery/claude-desktop.ts:44-52 | every `local_*.json` file of the tree is found, sub-directories included |
| DesktopDiscovery.FindAuditPath | hooks/pipeline/discovery/claude-desktop.ts:89-100 | the audit file beside the metadata file is tried first, then the one a level up, else "" |
| DesktopDiscovery.DomainPath | hooks/pipeline/discovery/claude-desktop.ts:134 | the first selected folder, else the cwd |
| DesktopDiscovery.UserPaths | hooks/pipeline/discovery/claude-desktop.ts:135-137 | the selected folders if any, else [cwd] when cwd is set, else [] |
| DesktopDiscovery.DesktopSession | hooks/pipeline/discovery/claude-desktop.ts:108-153 | a session exactly when the metadata exists, is not archived and its creation time is non-zero and not before `since`; id, title, model, cwd, paths and times are the metadata's, the last activity defaulting to the creation time; the domain and project come from the first folder, else `personal` with no project |
| DesktopDiscovery.OneSessionPerFile | hooks/pipeline/discovery/claude-desktop.ts:111-153 | each qualifying metadata file yields its own session, with no merge by id |
| DesktopDiscovery.DesktopSessionsAreRecent | hooks/pipeline/discovery/claude-desktop.ts:116-128 | every desktop session is dated and recent |
| DesktopDiscovery.CollectSessions | hooks/pipeline/discovery/claude-desktop.ts:111-153 | the loop pushes exactly the sessions the files yield |
| DesktopDiscovery.DiscoverDesktopSessions | hooks/pipeline/discovery/claude-desktop.ts:102-157 | a missing base directory gives []; otherwise the sessions of the metadata files |
| KnowledgeWriter.FolderNameInjective | hooks/pipeline/output/knowledge-writer.ts:23-27 | the three kinds go to three distinct folders |
| KnowledgeWriter.ToDistillCandidate | hooks/pipeline/output/knowledge-writer.ts:29-40 | the kind is kept; the title is the sanitised `title`, else `decision`, else `Untitled`; a present summary or rationale is sanitised and a missing one gives ""; the confidence is the item's number |
| KnowledgeWriter.Candidates | hooks/pipeline/output/knowledge-writer.ts:122-126 | decisions come first, then patterns, then learnings |
| KnowledgeWriter.Admitted | hooks/pipeline/output/knowledge-writer.ts:128-145 | only candidates at or above the threshold that are not duplicates are written |
| KnowledgeWriter.AdmittedComplete | hooks/pipeline/output/knowledge-writer.ts:128-145 | every candidate that passes both tests is written |
| KnowledgeWriter.ThresholdIsInclusive | hooks/pipeline/output/knowledge-writer.ts:131-136 | a confidence equal to the threshold, or not a number, is kept |
| KnowledgeWriter.KnownSlugIsDropped | hooks/pipeline/output/knowledge-writer.ts:138-142 | a known slug is never written again |
| KnowledgeWriter.NoteSlug | hooks/pipeline/output/knowledge-writer.ts:50-51 | the note slug is never empty |
| KnowledgeWriter.KnowledgeNotes.WriteOneKnowledgeNote | hooks/pipeline/output/knowledge-writer.ts:42-101 | a dry run writes nothing; otherwise a fresh file in the kind's folder named after the date and slug |
| KnowledgeWriter.KnowledgeNotes.WriteCandidates | hooks/pipeline/output/knowledge-writer.ts:128-150 | the loop writes one fresh note per admitted candidate, in order, and nothing on a dry run |
| KnowledgeWriter.KnowledgeNotes.WriteKnowledgeNotes | hooks/pipeline/output/knowledge-writer.ts:108-158 | the written paths are distinct fresh notes, one per admitted candidate; a dry run writes nothing and returns [] |
| KnowledgeWriter.FilesAfter | hooks/pipeline/output/knowledge-writer.ts:128-150 | writing the admitted candidates keeps every file and adds one new file per candidate |
| Common.Slugify | hooks/core/common.ts:28-34 | only [a-z0-9-], no leading '-', no "--", at most `max` characters |
| Common.SlugifyOfSlug | hooks/core/common.ts:28-34 | a slug that fits is its own slug |
| Common.SlugifyCollapsesRun | hooks/core/common.ts:28-34 | two words joined by any run of characters outside [a-z0-9] come out lower-cased and joined by one '-', so `Hello World` gives `hello-world` |
| Common.IsTrivialTitle | hooks/core/common.ts:104-108 | trivial exactly when blank, or one listed word after trimming and lower-casing |
| Common.FirstMatchingRule | hooks/core/common.ts:77-86 | the first keyword group found wins; with none the type is `implementation` |
| Common.DetectSessionType | hooks/core/common.ts:77-86 | the type is one of the six known ones |
| Common.DebuggingWins | hooks/core/common.ts:77-86 | "bug" gives `debugging` unless an earlier group matches |
| Common.NormalizePath | hooks/core/common.ts:36-42 | each back-slash becomes '/', every other character is kept in place, and no back-slash remains |
| Common.DetectDomain | hooks/core/common.ts:44-52 | `work`, `personal` or `opensource` for the first matching root under home |
| Common.DomainOfWorkPath | hooks/core/common.ts:44-52 | a path under `<home>/work/` is in the work domain |
| Common.FirstNonEmpty | hooks/core/common.ts:62 | the first non-empty part, or "" when there is none |
| Common.Basename | hooks/core/common.ts:73 | after the trailing slashes are dropped, the base name is the whole path or the part after its last '/', and holds no '/' |
| Common.PathJoinInjective | hooks/core/io.ts:86-91 | the same directory joined with two different names gives two different paths |
| Common.BasenameOfJoin | hooks/pipeline/discovery/claude-desktop.ts:130 | the base name of a directory joined with a plain name is that name |
| Common.BasenameAfterSlash | hooks/core/common.ts:73 | after a prefix that is empty or ends in '/', a non-empty name without '/' is its own base name |
| Common.DetectProject | hooks/core/common.ts:54-75 | the loop over the roots with its early return computes the project |
| Common.MatchKeyValue | hooks/core/common.ts:91-93 | a match has a non-empty [a-z_] key at the start of the line and a value with no '"' |
| Common.MatchKeyValueOf | hooks/core/common.ts:91 | a line `key:rest` with a key of [a-z_] matches exactly when the rest does, with that key and the value read from the rest |
| Common.MatchQuotedValue | hooks/core/common.ts:91-93 | `key: "value"` matches with the value between the quotes |
| Common.AssignAllLastWins | hooks/core/common.ts:90-94 | a key is present exactly when some line has it, and the last such line wins |
| Common.ParseSimpleYaml | hooks/core/common.ts:88-95 | the loop assigns every matching line's raw value, in order |
| Common.ToNumber | hooks/core/common.ts:97-102 | numbers pass through; empty, undefined or non-numeric input gives 0 |
| Common.ParseDateOrFallback | hooks/core/common.ts:110-114 | the fallback for empty or unparsable input, else the parsed time |
| FileIo.NumberedNameInjective | hooks/core/io.ts:91 | distinct counters give distinct names |
| FileIo.NextAvailableFilePath | hooks/core/io.ts:85-95 | the path is never an existing file: `base.md` when free, else `base_k.md` for the least free k ≥ 2 |
| FileIo.NumberedBelow | hooks/core/io.ts:89-94 | the existing files hold at least counter − 2 numbered names, so the search ends |
| FileIo.FreeFrom | hooks/core/io.ts:89-94 | the search from a counter finds a free numbered name with every name before it taken |
| FileIo.NextFreePath | hooks/core/io.ts:85-95 | the path chosen is free: `base.md` when free, else the least free `base_k.md` with k ≥ 2 |
| FileIo.LastHit | hooks/core/io.ts:42-57 | the value of the last line that yields one, or none |
| FileIo.ScanBackward | hooks/core/io.ts:42-57 | the backward loop with early return finds the last hit |
| FileIo.AssistantText | hooks/core/io.ts:46-53 | only an assistant line with truthy content yields text |
| FileIo.GetLastAssistantMessage | hooks/core/io.ts:37-62 | "" for a missing file or no assistant message; otherwise the text of the last assistant line |
| FileIo.DetectModelFromTranscript | hooks/core/io.ts:64-83 | "" for an empty path or missing file; otherwise exactly the model of the last line that names one, "" when none does |
| FileIo.TopLevelModelWins | hooks/core/io.ts:72 | a non-empty top-level `model` wins over `message.model` |
| FileIo.NonStringModelHides | hooks/core/io.ts:72-73 | a truthy non-string `model` hides the nested ones |
| Learning.IsLearningCapture | hooks/core/learning.ts:20-23 | a capture exactly when the lower-cased message and summary contain a keyword |
| Learning.KeywordInMessageCaptures | hooks/core/learning.ts:20-23 | a keyword in the message is enough |
| Learning.KeywordInSummaryCaptures | hooks/core/learning.ts:20-23 | a keyword in the summary is enough |
| Learning.NonBlankLines | hooks/core/learning.ts:26 | exactly the non-blank lines are kept: none when all are blank, all when none is |
| Learning.NonBlankLinesConcat | hooks/core/learning.ts:26 | dropping blank lines keeps the order: it distributes over concatenation |
| Learning.FirstHeading | hooks/core/learning.ts:28 | the first line starting with '#', or none |
| Learning.InsightOf | hooks/core/learning.ts:32-38 | the joined lines cut to 2000 characters, or the default insight when empty |
| Learning.ExtractLearningFromMessage | hooks/core/learning.ts:25-40 | a heading gives the title without its marks, otherwise the first line or the default; the insight is the following lines; title ≤ 100, insight ≤ 2000 |
| Learning.BlankMessageDefaults | hooks/core/learning.ts:36-39 | a blank message gives the default title and insight |
| Sanitize.RedactAllClean | hooks/core/sanitize.ts:17-21 | text without a match is left as it is |
| Sanitize.ReplaceHomePieces | hooks/core/sanitize.ts:14-15 | every occurrence of the home path is replaced by '~' |
| Sanitize.SanitizeText | hooks/core/sanitize.ts:10-22 | the loop over the patterns computes the sanitized text, and empty input gives "" |
| Sanitize.SanitizeUnchanged | hooks/core/sanitize.ts:10-22 | text with no home path and no secret comes back unchanged |
| Sanitize.SanitizeLines | hooks/core/sanitize.ts:24-26 | same length and order, each line sanitized |
| SessionIntel.GetEnvBool | hooks/core/session-intelligence.ts:10-14 | the default when unset or empty, else true exactly for 1, true, yes or on in any case |
| SessionIntel.EnvFlagOff | hooks/core/session-intelligence.ts:10-14 | `off` turns a flag off whatever its default |
| SessionIntel.ClampConfidence | hooks/core/session-intelligence.ts:16-19 | the result lies in [0, 1]: NaN gives 0, values inside pass, values outside are clamped |
| SessionIntel.HeuristicKind | hooks/core/session-intelligence.ts:35-41 | planning and review give `decision`, debugging gives `learning`, everything else `pattern` |
| SessionIntel.HeuristicRecommendations | hooks/core/session-intelligence.ts:34-51 | exactly one candidate of that kind at confidence 0.68 |
| SessionIntel.HeuristicEnrichment | hooks/core/session-intelligence.ts:53-76 | three summary lines, one decision at 0.45, engine `heuristic-fallback` |
| SessionIntel.LastNonEmpty | hooks/core/session-intelligence.ts:54-55 | the last non-empty line, none exactly when every line is empty |
| SessionIntel.KindOf | hooks/core/session-intelligence.ts:167 | a truthy kind is kept as it is, whatever its type; a falsy one gives `learning` |
| SessionIntel.NumberOf | hooks/core/session-intelligence.ts:163 | a missing or null confidence gives 0.5, and a number is itself |
| SessionIntel.SanitizedOr | hooks/core/sanitize.ts:10-11 | `sanitizeText(value || fallback)` throws exactly for a truthy non-string; a falsy value gives the fallback |
| SessionIntel.ListOf | hooks/core/session-intelligence.ts:160 | `(value || [])` throws at `slice` or `map` exactly for a truthy non-array; a falsy value gives no items |
| SessionIntel.AllOf | hooks/core/session-intelligence.ts:160-172 | a mapping whose callback may throw yields every result exactly when no call throws |
| SessionIntel.SummaryOf | hooks/core/session-intelligence.ts:159 | the summary lines throw exactly when one is truthy and not a string; otherwise a string is sanitised and any other line gives "" |
| SessionIntel.DecisionOf | hooks/core/session-intelligence.ts:160-164 | a decision exactly when the item is not `null` and its decision and rationale are falsy or strings; those sanitised, with the clamped confidence |
| SessionIntel.RecommendationOf | hooks/core/session-intelligence.ts:166-172 | a recommendation exactly when the item is not `null` and its title, summary and rationale are falsy or strings; the raw kind, the sanitised title cut to 120 characters, the sanitised texts and the clamped confidence |
| SessionIntel.DecisionsOf | hooks/core/session-intelligence.ts:160-164 | the first min(5, length) items, each the decision its item gives; a `null` item throws |
| SessionIntel.RecommendationsOf | hooks/core/session-intelligence.ts:166-172 | the first min(6, length) items, each the recommendation its item gives; a `null` item throws |
| SessionIntel.FromParsed | hooks/core/session-intelligence.ts:158-176 | throws exactly when the summary is not an array, a summary line or the digest is truthy but not a string, a list is truthy but not an array, or a decision or recommendation throws; otherwise the sanitised summary lines, the decisions, the digest cut to 1200 characters and the recommendations, tagged with the answer's engine and model |
| SessionIntel.EnvNumber | hooks/core/session-intelligence.ts:147-148 | an unset or empty variable gives the fallback |
| SessionIntel.SliceCount | hooks/core/session-intelligence.ts:184 | a count is truncated toward zero, and NaN counts as 0 |
| SessionIntel.Confident | hooks/core/session-intelligence.ts:181-183 | exactly the recommendations at or above the threshold; a NaN threshold keeps none |
| SessionIntel.Chosen | hooks/core/session-intelligence.ts:181-184 | the first `maxNotes` of the confident recommendations, in order; a negative `maxNotes` drops that many from the end |
| SessionIntel.FolderFor | hooks/core/session-intelligence.ts:93-98 | `decisions` exactly for the string `decision`, `patterns` exactly for `pattern`, else `learnings` |
| SessionIntel.WrappedKindIsLearning | hooks/core/session-intelligence.ts:93-98 | a kind `["decision"]` is not the string and goes to `learnings` |
| SessionIntel.NoteFileName | hooks/core/session-intelligence.ts:102-104 | starts with `<date>_`, ends in `.md` and contains the title's slug; `<date>_captured-item.md` when the title has no slug |
| SessionIntel.WriteNote | hooks/core/session-intelligence.ts:92-137 | the candidate's folder gains exactly its note file; no other folder and no existing file changes |
| SessionIntel.WrittenNoteIsDuplicate | hooks/core/session-intelligence.ts:78-105 | once a candidate's note is written, the duplicate test finds it |
| SessionIntel.DistillNeverOverwrites | hooks/core/session-intelligence.ts:104-105 | distillation never changes or removes an existing file |
| SessionIntel.DistilledNotesExist | hooks/core/session-intelligence.ts:186-197 | every candidate that was not a duplicate when its turn came has its note afterwards |
| SessionIntel.KnowledgeVault.Distill | hooks/core/session-intelligence.ts:186-197 | the loop computes the distillation of the chosen candidates |
| SessionIntel.KnowledgeVault.RunSessionIntelligence | hooks/core/session-intelligence.ts:139-204 | a throw while building from the answer happens before any note is written; otherwise the base and mode as specified, nothing written with distillation off, and else the distillation of the chosen candidates |
| SessionIntel.EnrichmentOf | hooks/core/session-intelligence.ts:144-177 | summaries off, a failed transport or an answer without the shape gives the heuristic enrichment; a well-shaped answer gives the enrichment built from it, which may throw |
| SessionIntel.DistillCountBounded | hooks/core/session-intelligence.ts:181-197 | `distillCount` never exceeds `maxNotes` |
| Llm.GetProviderMode | hooks/core/llm.ts:18-21 | `ollama` exactly when the lower-cased provider variable is `ollama` |
| Llm.OllamaOnlyWhenAsked | hooks/core/llm.ts:18-21 | unset or `openai` selects the OpenAI-compatible API |
| Llm.GetProviderModel | hooks/core/llm.ts:11-16 | the provider's own variable, else `SESSION_SUMMARY_MODEL`, else the provider's default model |
| Llm.DefaultModels | hooks/core/llm.ts:11-16 | with nothing set, each provider gets its default model |
| Llm.BuildPromptExcerpts | hooks/core/llm.ts:23-25 | the first min(8000, length) characters of the sanitised transcript and the first min(5000, length) of the sanitised thread |
| Llm.ParseSummary | hooks/core/llm.ts:60-73 | a result exactly when the span parses with an array `executive_summary` and a string `digest` |
| Llm.GenerateLlmSummary | hooks/core/llm.ts:121-156 | a reply is tagged with the mode; a throw is tagged `<mode>-fallback` with nothing parsed |
| Llm.FallbackTagIsDistinct | hooks/core/llm.ts:133-151 | the engine tag tells a transport failure from a reply |
| Types.EnvOr | hooks/pipeline/daily-extract.ts:86-87 | an empty variable counts as unset |
| Types.EnvNumberOr | hooks/pipeline/daily-extract.ts:89-94 | a missing, non-numeric or zero value gives the fallback |
| DailyExtract.ParseConfig | hooks/pipeline/daily-extract.ts:85-100 | the vault path defaults to `~/personal/cortana-obsidian` and holds the state directory; each numeric setting is the number its variable holds when that is a non-zero number, else its default; the two flags are on only for exactly `true` |
| DailyExtract.EmptyEnvironmentDefaults | hooks/pipeline/daily-extract.ts:85-100 | with nothing set every setting is its default |
| DailyExtract.FlagNeedsExactTrue | hooks/pipeline/daily-extract.ts:91 | `TRUE`, `1`, `yes` or `true ` do not turn on a dry run |
| DailyExtract.SourceToWatermarkKey | hooks/pipeline/daily-extract.ts:106-108 | `claude-code` maps to `claudeCode` and every other source to `claudeDesktop` |
| DailyExtract.ProcessedIds | hooks/pipeline/daily-extract.ts:266-270 | the processed ids of both sources |
| DailyExtract.Filtered | hooks/pipeline/daily-extract.ts:266-279 | candidates have a non-trivial title and an unprocessed id |
| DailyExtract.FilteredComplete | hooks/pipeline/daily-extract.ts:266-279 | every such discovered session is a candidate |
| DailyExtract.ByCreatedAtIsPreorder | hooks/pipeline/daily-extract.ts:284 | the comparator is a total preorder |
| DailyExtract.Trunc | hooks/pipeline/daily-extract.ts:285 | truncation toward zero |
| DailyExtract.ToProcess | hooks/pipeline/daily-extract.ts:284-285 | a prefix of the sorted candidates, of length min(maxSessions, candidates) |
| DailyExtract.ToProcessOrder | hooks/pipeline/daily-extract.ts:266-285 | sorted by creation time, all eligible, none later than one left out |
| DailyExtract.ToProcessAll | hooks/pipeline/daily-extract.ts:284-285 | with room for all, the processed sessions are a permutation of the candidates |
| DailyExtract.ExitOf | hooks/pipeline/daily-extract.ts:310-355 | duplicate, below threshold or written, each exactly on its condition; no note path on a dry run |
| DailyExtract.RecordRaises | hooks/pipeline/daily-extract.ts:376-381 | recording raises the session's mark to its creation time and lowers none |
| DailyExtract.StepRecords | hooks/pipeline/daily-extract.ts:310-401 | every exit path records the session in the watermark exactly once |
| DailyExtract.StepAppends | hooks/pipeline/daily-extract.ts:383-384 | a pass appends at most one processed entry, and only for a written session with a date |
| DailyExtract.Run | hooks/pipeline/daily-extract.ts:302-403 | no mark goes back; each session is counted exactly once; processed entries come from the sessions |
| DailyExtract.RunRaisesMarks | hooks/pipeline/daily-extract.ts:302-403 | after the loop every session's source mark is at least its creation time |
| DailyExtract.ProcessedAreWritten | hooks/pipeline/daily-extract.ts:330-384 | only sessions that are neither duplicates nor below the threshold enter `processed` |
| DailyExtract.RunProcessesAtMostGiven | hooks/pipeline/daily-extract.ts:302-403 | at most one processed entry per session |
| DailyExtract.RunExtends | hooks/pipeline/daily-extract.ts:302-403 | later sessions only append to `processed` |
| DailyExtract.WrittenIsProcessed | hooks/pipeline/daily-extract.ts:376-384 | a written session with a date is in `processed` |
| DailyExtract.DryRunWritesNothing | hooks/pipeline/daily-extract.ts:345-373 | a dry run counts no session or knowledge note |
| DailyExtract.DateFailureIsAnError | hooks/pipeline/daily-extract.ts:344-401 | a session whose creation time has no ISO date throws when its note is written (the writer converts that time first): one error, recorded once, no note and no `processed` entry |
| DailyExtract.WriteSessionKnowledge | hooks/pipeline/daily-extract.ts:358-373 | the count is that of the admitted candidates, 0 on a dry run, and the knowledge folders gain exactly that many new files |
| DailyExtract.KnowledgeFiles | hooks/pipeline/daily-extract.ts:358-373 | one extraction adds exactly as many new files as notes are counted |
| DailyExtract.RunFilesCount | hooks/pipeline/daily-extract.ts:302-403 | the loop's knowledge-note count is the number of files it adds |
| DailyExtract.DryRunKeepsFiles | hooks/pipeline/daily-extract.ts:345-373 | a dry run adds no file to the knowledge folders |
| DailyExtract.ProcessSession | hooks/pipeline/daily-extract.ts:302-403 | one pass leaves the watermark, the tally and the knowledge folders as the step and its file function specify |
| DailyExtract.ProcessSessions | hooks/pipeline/daily-extract.ts:302-403 | the loop leaves the watermark, the tally and the knowledge folders as the run over the capped candidates specifies |
| DailyExtract.DatesOf | hooks/pipeline/daily-extract.ts:407-412 | each date once, in order of first appearance |
| DailyExtract.ByDateEntries | hooks/pipeline/daily-extract.ts:407-412 | the map holds exactly the dates seen, each with its entries in order |
| DailyExtract.GroupStep | hooks/pipeline/daily-extract.ts:407-412 | one push adds the entry under its date |
| DailyExtract.GroupByDate | hooks/pipeline/daily-extract.ts:407-412 | the loop builds the `byDate` map |
| DailyExtract.DigestSummary | hooks/pipeline/daily-extract.ts:420-425 | the digest, or the summary lines joined by ". " |
| DailyExtract.Synthesize | hooks/pipeline/daily-extract.ts:433-456 | none on a dry run; the unavailable text on a thrown call; the parsed lists otherwise |
| DailyExtract.DigestFor | hooks/pipeline/daily-extract.ts:420-425 | one digest entry per processed session of the date |
| DailyExtract.Digests | hooks/pipeline/daily-extract.ts:414-478 | digests only for dates with two or more sessions; nothing written on a dry run |
| DailyExtract.BusyDatesGetDigests | hooks/pipeline/daily-extract.ts:414-425 | every date with two or more sessions gets its digest |
| DailyExtract.WriteDigest | hooks/pipeline/daily-extract.ts:416-478 | one date: a date with fewer than two sessions changes nothing; otherwise its digest is appended, counted as an error when the write throws, and as a written note (raising the created-notes statistic by one) only outside a dry run |
| DailyExtract.WriteDigests | hooks/pipeline/daily-extract.ts:414-478 | the loop produces the digests and counts each written one as a created note |
| DailyExtract.NoSessionProcessedTwice | hooks/pipeline/daily-extract.ts:266-279 | a session already recorded in either source, or with a trivial title, is never processed |
| DailyExtract.PipelineRaisesMarks | hooks/pipeline/daily-extract.ts:302-481 | no source mark goes back, and each processed session is counted |
| DailyExtract.DryRunIsSilent | hooks/pipeline/daily-extract.ts:345-515 | a dry run writes no session note, knowledge note or digest, adds no file and never commits |
| DailyExtract.OpenWatermark | hooks/pipeline/daily-extract.ts:247-252 | the stored watermark, or a fresh default written at once |
| DailyExtract.RunPipeline | hooks/pipeline/daily-extract.ts:254-478 | no report when discovery throws; otherwise the report, the watermark and the knowledge folders are those the pipeline specifies |
| DailyExtract.ProcessDiscovered | hooks/pipeline/daily-extract.ts:265-478 | selection, index, session loop and digests leave the watermark, report and knowledge folders as specified |
| DailyExtract.PipelineFilesCount | hooks/pipeline/daily-extract.ts:254-403 | the report's knowledge-note count is the number of files the run adds, and no file is removed |
| DailyExtract.RunAndSave | hooks/pipeline/daily-extract.ts:254-481 | on an open watermark: the knowledge folders end as the pipeline specifies; a report exactly when discovery does not throw and the final watermark write succeeds, and then the report is the pipeline's and the stored watermark is the pipeline's with `lastRunAt` set to now |
| DailyExtract.RunLocked | hooks/pipeline/daily-extract.ts:245-481 | the `try` block once the lock is held: the knowledge folders and report are those of reading or creating the watermark and then running the pipeline; no report when the watermark cannot be read or created, discovery throws, or the final write fails |
| DailyExtract.RunDailyExtract | hooks/pipeline/daily-extract.ts:223-543 | exit 1 exactly when a live holder younger than 30 minutes holds the lock or the new lock cannot be written; on exit 1 the watermark and the knowledge folders are unchanged, and a lock that was not respected is removed; otherwise the lock is released; exit 0 with the watermark written once after the loop |
| ReEnrich.Defaults | hooks/pipeline/re-enrich.ts:62-77 | limit 10, no dry run and no force, with the environment's settings |
| ReEnrich.LimitValue | hooks/pipeline/re-enrich.ts:83-85 | a missing, non-numeric or zero limit gives 10 |
| ReEnrich.ArgsFrom | hooks/pipeline/re-enrich.ts:79-97 | the flags only turn settings on, and only when present |
| ReEnrich.UnknownWordsIgnored | hooks/pipeline/re-enrich.ts:79-97 | unknown arguments change nothing |
| ReEnrich.LimitSwallowsNextWord | hooks/pipeline/re-enrich.ts:83-85 | the word after `--limit` is its value even when it is a flag |
| ReEnrich.TrailingLimitIsDefault | hooks/pipeline/re-enrich.ts:83-85 | a trailing `--limit` gives 10 |
| ReEnrich.ParseWord | hooks/pipeline/re-enrich.ts:80-96 | one turn of the `switch` moves past the word (and the value it takes) without changing what the rest of the words make of the configuration |
| ReEnrich.ParseArgs | hooks/pipeline/re-enrich.ts:60-100 | the loop gives the defaults updated by the arguments |
| ReEnrich.CandidateOf | hooks/pipeline/re-enrich.ts:167-198 | a note is a candidate exactly when it has a session id, passes the engine or force test, the project filter and the since filter |
| ReEnrich.Collected | hooks/pipeline/re-enrich.ts:163-199 | only listed notes that pass the filters are collected |
| ReEnrich.CollectedComplete | hooks/pipeline/re-enrich.ts:163-199 | every listed note that passes is collected |
| ReEnrich.ByNoteDateIsPreorder | hooks/pipeline/re-enrich.ts:202 | the date comparator is a total preorder |
| ReEnrich.Scan | hooks/pipeline/re-enrich.ts:159-205 | a prefix of the sorted candidates |
| ReEnrich.ScanOrder | hooks/pipeline/re-enrich.ts:159-205 | sorted by date, each a passing note, at most `limit`, none later than one left out |
| ReEnrich.ScanAll | hooks/pipeline/re-enrich.ts:202-204 | with room for all, a permutation of the candidates |
| ReEnrich.ScanForCandidates | hooks/pipeline/re-enrich.ts:159-205 | the loop, sort and slice compute the scan |
| ReEnrich.HistoryIndexSnoc | hooks/pipeline/re-enrich.ts:232-242 | one more entry updates only its own session |
| ReEnrich.HistoryIndexHasMax | hooks/pipeline/re-enrich.ts:232-242 | every session is indexed with an entry at least as new as each of its entries |
| ReEnrich.HistoryIndexFirstMax | hooks/pipeline/re-enrich.ts:232-242 | the indexed entry is the first of the newest |
| ReEnrich.AddHistoryLine | hooks/pipeline/re-enrich.ts:233-241 | a line without an id and a timestamp leaves the index alone; an entry is stored when its id is new or its timestamp strictly later |
| ReEnrich.BuildHistoryIndex | hooks/pipeline/re-enrich.ts:218-253 | a missing file gives an empty index; otherwise the fold |
| ReEnrich.Lookup | hooks/pipeline/re-enrich.ts:259-309 | the Claude Code transcript when the history names an existing one; else the audit file of the first matching desktop metadata file that has one; none exactly when neither exists |
| ReEnrich.FindTranscriptPath | hooks/pipeline/re-enrich.ts:259-309 | the loops with early returns compute the lookup |
| ReEnrich.ReplaceFirst | hooks/pipeline/re-enrich.ts:476 | only the first occurrence of the footer is replaced |
| ReEnrich.Tag | hooks/pipeline/re-enrich.ts:479-482 | the source line goes after the first `status: completed` at a line start, if any |
| ReEnrich.SessionFor | hooks/pipeline/re-enrich.ts:392-408 | the session rebuilt from the note and the located transcript |
| ReEnrich.FateOf | hooks/pipeline/re-enrich.ts:384-495 | no transcript exactly when the lookup fails; only a `claude-headless` extraction is rewritten; never on a dry run |
| ReEnrich.ThrowIsFinal | hooks/pipeline/re-enrich.ts:378-527 | once a write throws, the later candidates are not handled |
| ReEnrich.EveryCandidateCounted | hooks/pipeline/re-enrich.ts:378-507 | each candidate lands in exactly one counter |
| ReEnrich.DryRunRewritesNothing | hooks/pipeline/re-enrich.ts:411-495 | a dry run rewrites no note, enriches nothing and writes no knowledge note |
| ReEnrich.UntouchedNote | hooks/pipeline/re-enrich.ts:378-507 | a note no candidate rewrites keeps its content |
| ReEnrich.SessionNotes.WriteNote | hooks/pipeline/re-enrich.ts:493-495 | the write throws exactly for an unwritable path, and otherwise stores the content |
| ReEnrich.Reextract | hooks/pipeline/re-enrich.ts:392-416 | the session and extraction as specified |
| ReEnrich.WriteKnowledge | hooks/pipeline/re-enrich.ts:500-514 | the count of admitted candidates, and the knowledge folders gain exactly that many new files; nothing on a dry run |
| ReEnrich.KnowledgeFiles | hooks/pipeline/re-enrich.ts:500-514 | one extraction adds exactly as many new files as notes are counted |
| ReEnrich.RewriteNote | hooks/pipeline/re-enrich.ts:487-514 | the note is rewritten and its knowledge notes written, or a throwing write stops before them, as the step specifies |
| ReEnrich.Judge | hooks/pipeline/re-enrich.ts:384-489 | the fate of a candidate |
| ReEnrich.EnrichOne | hooks/pipeline/re-enrich.ts:380-514 | one pass leaves notes, files, counters and the throw flag as the step specifies; a dry run adds no file |
| ReEnrich.EnrichAt | hooks/pipeline/re-enrich.ts:380-514 | one pass on the i-th candidate applies the fate the candidate's specification assigns it, to notes, files and counters |
| ReEnrich.EnrichAll | hooks/pipeline/re-enrich.ts:378-514 | the loop leaves notes, files and counters as the fold over the candidates specifies, stopping at a throw |
| ReEnrich.NoCandidatesNoWork | hooks/pipeline/re-enrich.ts:366-369 | no candidates means nothing changes and zero counts |
| ReEnrich.DryRunLeavesVault | hooks/pipeline/re-enrich.ts:491-495 | a dry run leaves the vault as it was and enriches nothing |
| ReEnrich.CountersAddUp | hooks/pipeline/re-enrich.ts:378-507 | without a throw, the three counters add up to the number of candidates |
| ReEnrich.FilesCounted | hooks/pipeline/re-enrich.ts:378-514 | every knowledge note the loop counts is a new file, and it adds no other |
| ReEnrich.OutcomeFilesCount | hooks/pipeline/re-enrich.ts:363-514 | the run's knowledge-note count is the number of files it adds, and no file is removed |
| ReEnrich.Work | hooks/pipeline/re-enrich.ts:363-514 | the scan, history, index and loop leave notes, files and counters as the run's outcome specifies |
| ReEnrich.RunReEnrich | hooks/pipeline/re-enrich.ts:340-527 | exit 1 exactly when a live holder younger than 30 minutes holds the lock or the new lock cannot be written; on exit 1 the notes and the knowledge folders are unchanged, and a lock that was not respected is removed; otherwise the lock is released, notes and files are the outcome's, exit 2 exactly on a throw, and the report on exit 0 |
| Sorting.SortBySorted | hooks/pipeline/daily-extract.ts:284 | the sort gives an ordered permutation; `Sorting.SortByStable` gives its stability |
| Sorting.TiesInsert | hooks/pipeline/daily-extract.ts:284 | inserting an element keeps the input order of the elements ranked equal to any x |
| Sorting.SortByStable | hooks/pipeline/daily-extract.ts:284 | the sort is stable: the elements ranked equal to any x come out in their input order |

## Left out

- I/O is given as data. Files are maps and listings, lines are already parsed, and `JSON.parse`,
  `Date.parse`, the clock and the liveness probe are parameters. `ensureDir` is implicit.
- The language model transports (the `claude` subprocess and the HTTP calls) are the outcome
  `Ok(text)` or `Err`. Delays, timeouts and the `AbortController` are not modelled.
- Note rendering is a `render` parameter or not modelled: the templates, `session-writer`,
  `digest-writer`, `render.ts` and `prompts.ts`. Only the decisions about which notes are written are modelled.
- Logging, the run summary and the git commit are left out. `DailyExtract.ShouldCommit` models
  only the decision to commit.
- Left out entirely: `hooks/core/git.ts`, `hooks/core/session.ts`, the provider hooks, the
  capture entry scripts and `readHookStdin`.
- Concurrency is not modelled. The model is single-threaded, so it does not capture rename
  atomicity across workers, polling or sleeping.
- Corrupt queue files and failed unlinks are not modelled.
- Floating point is not modelled: significance, confidence and similarity are exact reals.
  `NaN` appears only as `None` where the code can produce it. `Infinity` cannot be
  represented. Numbers are printed with at most nine fraction digits.
- Lower-casing covers the ASCII letters only, where `toLowerCase` maps every Unicode letter.
- Strings are sequences of code points, and JavaScript counts UTF-16 code units. A character
  outside the Basic Multilingual Plane counts 1 here and 2 in the source, and the source's
  `slice` can cut it in half. Every length, cap and slice below is therefore in code points.
  On text inside the Basic Multilingual Plane the two agree.
- `Chunker.ChunkTranscript` and `Chunker.ChunkWithinBudget`: the budget bounds the length in code points. A rendering with characters outside the Basic Multilingual Plane may fit here and not fit in the source.
- `Llm.BuildPromptExcerpts`: the 8000 and 5000 caps count code points.
- `SessionIntel.FromParsed`, `SessionIntel.RecommendationsOf` and `SessionIntel.HeuristicEnrichment`: the 1200, 120, 600 and 140 caps count code points.
- `Learning.ExtractLearningFromMessage` and `Learning.InsightOf`: the 100 and 2000 caps count code points.
- `Extract.HeuristicExtraction`: the 200-character opening counts code points.
- `ReEnrich.Before`, `JsString.LexLe` and `Queue.NextName`: strings compare in code-point order. UTF-16 order differs only between a character from U+E000 to U+FFFF and one above U+FFFF.
- `Common.NormalizePath`: `decodeURIComponent` is not modelled, so a percent escape stays as written. Only the back-slash replacement is modelled.
- `ReEnrich.ByNoteDate`: `localeCompare` is modelled as code-point order. The two agree on dates written `YYYY-MM-DD`, but not on arbitrary text, which the locale collates.
- The clock, the time zone and date formatting are parameters: `dateOf` and `nowIso`.
  `DailyExtract` reads one `nowMs`, and the two `Date.now()` calls of `re-enrich` are one
  `nowMs`.
- A history `sessionId` must be a string and a timestamp an integer. A fractional
  `backfillDays` is truncated.
- In `extractTranscriptMeta`, a `cwd` or `model` that is not a string is ignored, and so is a
  fractional timestamp.
- `ToMs` floors a fractional millisecond count (for a negative fraction this differs from truncation), and `ParseMetadata` turns its fields into strings.
- `KnowledgeWriter.ToDistillCandidate`, `KnowledgeWriter.BelowThreshold`: a knowledge item's confidence that is not a JSON number is `None`, which is never below the threshold. The source compares the raw value with `<`, which turns `null`, `false`, `""` and `[]` into 0 and a numeric string into its number. So an item whose confidence is `null`, `false` or empty, or a numeric string below the threshold, is skipped by the source and kept by the model.
- A watermark file whose shape does not decode ends the daily run with exit 2 at once.
- Errors in the session loop are counted, and their messages are dropped.
- In `re-enrich`, a throw from the knowledge extraction or from `writeKnowledgeNotes` is not
  modelled; only a throw from writing the session note is.
- `DailyExtract.WriteSessionKnowledge`: a throw from `writeKnowledgeNotes` is not modelled. In the source it lands in the session loop's `catch` (hooks/pipeline/daily-extract.ts:390-401) after the session note was counted: the session is counted as an error and recorded once, by the `catch`, and it does not enter `processed`. The model counts its knowledge notes and adds it to `processed`.
- `KnowledgeWriter.ToDistillCandidate`: a `title`, `decision`, `summary` or `rationale` that is truthy but not a string makes `sanitizeText` throw in the source. The model converts such a field with `String` (a `title` of 5 gives the title "5"), where the source throws. A list item that is `null` makes the source throw on reading `item.title` (hooks/pipeline/output/knowledge-writer.ts:35), which daily-extract's session loop catches; the model turns it into an `Untitled` candidate with empty texts.
- `CodeDiscovery.HistoryEntryOf` and `CodeDiscovery.SessionOf`: a history line whose `project` or `display` is missing or not a string makes `encodeProjectPath` or `trim` throw in the source, which ends discovery. The model reads such a field as "".
- `ReEnrich.Lookup`: a history entry whose `project` is missing or not a string makes `encodeProjectPath` throw (hooks/pipeline/re-enrich.ts:268), and the run exits 2. The model looks the path up with "" as the project.
- `Transcript.ReadCodeTranscript` and `Transcript.ReadDesktopTranscript`: a transcript that exists but cannot be read throws in the source. The model has no such file: a file is missing or its lines are given.
- `Transcript.DesktopRole`: the lookup in the role table also finds the members every object inherits (`constructor`, `toString`, `__proto__` and the like), so the source keeps such a line with a function as its role. The model treats these names as unknown types and drops the line.
- `Common.ParseSimpleYaml`: a line whose key is `__proto__` is stored as an ordinary key. In the source that assignment goes to the object's prototype setter, which ignores a string, so no key is added.
- `Common.PathJoin`: `join` also normalises its result, resolving `.` and `..` and collapsing repeated '/'. The model joins with one '/', which agrees on the normalised directories and plain names the hooks pass.
- `DesktopDiscovery.DomainPath` and `DesktopDiscovery.UserPaths`: a folder entry that is not a string is converted with `String`. A falsy first entry (`null`, `0`, `false`) then counts as the text `null`, `0` or `false`, where the source falls back to the cwd.
- The knowledge-note files are a set of paths kept apart from the session notes' contents.
- `Worker.EnrichmentWorker.RunWorker`: with run-forever on, the loop is bounded by a number of polls, because the source loops until killed.
- `Worker.EnrichmentWorker.RunOnce`: a failure to write the results file is folded into the thrown outcome.
- `SessionIntel.KnowledgeVault.RunSessionIntelligence`: an `Infinity` value of `maxNotes` is not representable.
- `Lock.ProcessLock.AcquireLock`: the timestamp is one `nowIso` given by the caller.
- `CodeDiscovery.SessionOf`: the code does not ensure createdAt ≤ lastActivityAt, and the model follows the code.
- `Extract.ExtractFrom`: the success engine is `claude-headless`, and the model uses it.
