# Verification of the ingestion pipeline

A Dafny model of how a rulebook becomes a searchable index: the job protocol that takes a
document through `extract`, a human gate, `chunk`, `embed` and `completed`, and the text
pipeline that turns raw page segments into a transcript and a transcript into chunks.

`dafny verify dfyconfig.toml` checks everything.

## The protocol

`Tables` holds the tables as values and every query and transaction as a function on them;
`Database` is the handle that runs the same transactions statement by statement on its
fields, with rollback, each method proved equal to its function. `History` is the invariant
of the run history and what one transaction may change; `Transitions` says exactly when each
transition is accepted. `Protocol` puts it together: tables, any number of service instances
with program counters, the command line, transcript edits and an external abort, interleaved
one transaction or statement at a time. `Safety`, `Wakeups`, `ChunkTable` and `Readings` are
inductive invariants that hold in every run, `Indexing` is the invariant of one job's chunks
and vectors, `Traces` states the results over whole runs, and `Origins` says where the stored
texts and vectors came from. `Ingester` is the service's own
code, run on the database handle, with every other actor let loose on the same handle between
any two statements, and `Embedding` is the batched embedding loop.

What is assumed, besides one transaction being one atomic step:

- `now()` is strictly larger in each transaction that stamps a row than in all before it;
  `find_latest.sql` has no other way to order rows of different steps.
- The database reports no errors, and no job row is deleted.
- `abort` is never called on a job whose run is still pending.
  `Transitions.AbortDecodesIffRunning` shows what goes wrong otherwise: the row left behind
  does not decode and sorts first.
- A service stops only between jobs. No shipped program calls `abort`; it is kept as a step of
  the environment.
- The status column is the text of one of the five statuses or some other text; ids are
  numbers in order of insertion; the document read and the embedder's answers are arbitrary.

All results but one hold with such aborts at any moment. The one is that a completed job has
its chunks and vectors, and there the code can fail: a service takes the job's first extract
run, the run is aborted, the job restarted, extracted by another service and validated, and
then the first service loads the job, finds it on `chunk`, and chunks it for its stale run
(zyndeck-ingester/src/main.rs:158 and 247-255 compare no steps). If its `replace` comes after
the job was embedded, the job is completed and has no vector. `Stranding.AbortCanStrandAJob`
is that run, from the empty tables. What is proved instead:

- `Traces.CompletedJobsAreIndexed`: a completed job is indexed if its chunks were not replaced
  after its own chunk run had stored them, whatever was aborted, loaded or stored otherwise.
- `Traces.StaysIndexedIffUnspoiled`: from its completion on, it stays so if and only if its
  chunks are not replaced again.
- `Traces.MatchedLoadsIndex`: it is enough that each load of the job finds it on the step of the
  run the service has taken, a comparison the service can make right after loading.
- `Traces.UnabortedJobsAreIndexed`: with no abort of the job's runs that is always so.

## The text pipeline

`Document` groups segments into visual lines, `Assembly` makes a line's text, `Classification`
judges its kind and whether it is garbled, `Structuring` is the loop over them, and `Markdown`
prints the transcript. `Chunking` scans and packs a transcript, `ChunkTheorems` says what comes
out, and `RoundTrip` joins the printer and the scanner. Coordinates are reals, ratio tests are
cross-multiplied, whitespace is the Unicode `White_Space` property, and the remaining Unicode
tables are a parameter; a machine word has 64 bits. Where two font families tie, the hash map's
order decides in the program; here any of them may win.

The printed document is not always read back: a body line that starts with `## ` becomes a
heading, and one that looks like a page marker becomes a marker. `RoundTrip.RoundTripIffClean`
gives the exact condition; `LostLines` gives pages that fail it, one for each case.

## Where the documentation and the code differ

The command line's README (zyndeck-cli/README.md:36) says a validated job's transcript cannot
be edited. The code checks the step before it opens the editor and writes afterwards without a
lock (zyndeck-cli/src/main.rs:171-196), so an edit can land later. The model follows the code:
a transcript may change at any time, and a completed job has the chunks of the text written
last before its chunk run read it.

## Model

| member | source | states |
|---|---|---|
| Traces.CompletedJobsAreIndexed | zyndeck-ingester/src/main.rs:287-343 | in every run of the protocol, aborts at any moment, a completed job whose chunks were not replaced after its chunk run had stored them has one row for each chunk of the split of the transcript its chunk run read, the i-th at position i with that chunk's heading, page and content, and each row has the 1024-long vector the embedder answered to that row's heading and content |
| Origins.CompletedJobsHoldLastText | zyndeck-ingester/src/main.rs:287-319 | under the same condition these rows are the split of the last text an edit or an extraction wrote for the job before its chunk run read the transcript |
| Origins.TranscriptIsLastWritten | zyndeck-db/queries/ingestion_transcript/upsert.sql:1-3 | in every state of every run a job's transcript is the text of the last edit or extraction that wrote it, and a job has none exactly if nothing was written |
| Origins.SourceIsLastText | zyndeck-ingester/src/main.rs:288-295 | what a chunk body read for a run is the text written last for the job before that read |
| Origins.ExchangesAreReplies | zyndeck-ingester/src/embed.rs:75-95 | each recorded answer is, vector by vector, what the embedder replied when it was asked about the heading and content of consecutive rows |
| Traces.StaysIndexedIffUnspoiled | zyndeck-db/src/ingestion_chunk.rs:98-126 | from its completion on, such a job keeps all this in every later state if and only if no service replaces its chunks again |
| Traces.MatchedLoadsIndex | zyndeck-ingester/src/main.rs:151-163 | if every load of the job found it on the step of the run the service had taken, the job is indexed once completed, aborts or not |
| Traces.UnabortedJobsAreIndexed | zyndeck-ingester/src/main.rs:168-196 | a job none of whose runs was aborted is indexed once completed, whatever else was interleaved |
| Stranding.AbortCanStrandAJob | zyndeck-ingester/src/main.rs:151-163 | there is a run of the protocol from the empty tables that ends with a completed job that has a chunk and no vector |
| Traces.EveryStateIsSound | zyndeck-db/src/ingestion_chunk.rs:98-151 | in every state of every run chunk ids are unique, each job's positions are 0, 1, 2, ..., every embedding is of a chunk that is there, and whatever a service holds was read from the tables or answered by the embedder |
| Traces.LostPhaseTwoIsFinal | zyndeck-db/src/lib.rs:218-236 | once a chunk or embed run has failed or been aborted, its job stays on that step and gets no further run in any later state |
| Traces.HistoryIsAlwaysValid | zyndeck-db/src/ingestion_step_run.rs:112-139 | in every state of every run the history invariant holds and every run row decodes, losing nothing |
| Traces.OneActiveRun | zyndeck-db/migrations/0001_initial_schema.sql:77-79 | a job has at most one pending or running run, and it is of the step the job is on |
| Traces.AttemptsCountUp | zyndeck-db/queries/ingestion_step_run/enqueue.sql:5-15 | below any attempt made of a job's step every number from 1 was used, exactly once, and earlier |
| Traces.PhaseTwoRunsOnce | zyndeck-db/src/lib.rs:179-272 | only `extract` ever has two runs of one job: at most one chunk run and one embed run |
| Traces.LatestIsLastInserted | zyndeck-db/queries/ingestion_step_run/find_latest.sql:11-15 | in every state the query finds a run exactly if it is the one inserted last for the job, across steps, restarts and claims |
| Traces.EndedRunsStay | zyndeck-db/queries/ingestion_step_run/finish.sql:4-7 | a run that is over never changes again, none changes its identity, and none goes back to waiting |
| Traces.GateWasOpened | zyndeck-db/src/lib.rs:243-272 | a job past `extract` has an accepted `validate_job` behind it, taken while its latest run was a succeeded extraction |
| Traces.NoPhaseTwoWithoutValidation | zyndeck-db/src/lib.rs:167-178 | a chunk or embed run was inserted after such a validation of its job, never before |
| Traces.StepsMoveForward | zyndeck-core/src/ingestion_job.rs:64-71 | each action leaves a job on its step or moves it to the next one |
| Traces.CompletedHistory | zyndeck-db/src/lib.rs:190-211 | a completed job has succeeded extract, chunk and embed runs, each the job's latest when the next was inserted, with strictly rising start times |
| Traces.OneOwnerEver | zyndeck-db/src/lib.rs:274-288 | a run is held by one service only, in the same state or in any two states of a run of the protocol |
| Traces.OneWorkerPerJob | zyndeck-db/queries/ingestion_step_run/claim.sql:1-9 | two services never hold running runs of one job, whatever notifications were duplicated |
| Traces.FinishedBodyIsTheRunsOwn | zyndeck-ingester/src/main.rs:209-255 | whenever `finish` returns a run, the body executed was that of the run's own step, although it was chosen by a separately loaded job; `finish` never fails to decode |
| Traces.ContinueIsNeverRefused | zyndeck-ingester/src/main.rs:180-193 | the `continue_job` after a recorded success is accepted whatever others did in between, and the run it begins is of the next step |
| Traces.NoLostWakeUp | zyndeck-ingester/src/main.rs:106-147 | each waiting run's job is in a swept service's unread notifications, its sweep or its claim; a service idle on an empty queue means no run waits |
| Safety.ActKeepsSafe | zyndeck-db/src/lib.rs:144-288 | every action of every actor, in every order, keeps the history valid, the owners unique and each service's view of its run true |
| Safety.AdvancingContinues | zyndeck-db/src/lib.rs:179-216 | in any safe state a service whose run was recorded as succeeded gets exactly the next running run, or completion, from `continue_job` |
| Traces.EveryStateIsSafe | zyndeck-ingester/src/main.rs:106-196 | every state of every run of the protocol is safe, and every waiting run is ahead of every swept service |
| Wakeups.ActKeepsAwake | zyndeck-db/migrations/0001_initial_schema.sql:89-112 | every action keeps every waiting run ahead of every service that has swept |
| Indexing.CompletedIsIndexed | zyndeck-ingester/src/main.rs:323-343 | in any state where the job's data is tracked, a completed job's rows are the split of the transcript read, field by field, and each has the vector answered to its heading and content |
| Indexing.ActKeepsTracked | zyndeck-ingester/src/main.rs:287-343 | every action that does not replace the chunks of a job whose chunk run has stored them, stale bodies and aborts included, keeps its chunks and vectors matching what its runs read and were answered |
| Indexing.CompletedStaysIndexedIff | zyndeck-db/src/ingestion_chunk.rs:98-126 | a completed job stays indexed under an action exactly if the action does not replace its chunks |
| Indexing.SpoilerIsStale | zyndeck-ingester/src/main.rs:247-255 | such a replacement is made only for an aborted run that is no chunk run |
| Readings.ActKeepsSound | zyndeck-db/src/ingestion_chunk.rs:98-151 | every action of every actor keeps the chunk table valid and each service's readings true |
| Protocol.NewChunks | zyndeck-ingester/src/main.rs:295-313 | there are rows to store exactly if the split is not empty and every position and page fits 32 bits; then row i is chunk i at position i |
| Protocol.EmbeddingInput | zyndeck-ingester/src/main.rs:345-353 | the heading, then an empty line, then exactly the content; the content alone if there is no heading |
| Protocol.BatchEnd | zyndeck-ingester/src/main.rs:331 | a batch has sixteen rows, fewer only at the end |
| Ingester.Instance.Drive | zyndeck-ingester/src/main.rs:168-205 | with every other actor free at every pause, driving a run always ends, never by a refused `continue_job` or a job that is gone; it is the job of that run that is reported as done, completed and, unless someone spoiled it meanwhile, indexed, and that very extract run that is reported as awaiting validation, succeeded |
| Ingester.Instance.RunAndFinish | zyndeck-ingester/src/main.rs:209-245 | the service goes on exactly if its run is recorded as succeeded; it reports a failed step exactly if the run is recorded as failed, and a run ended by others exactly if it is recorded as aborted |
| Ingester.Instance.ExtractStep | zyndeck-ingester/src/main.rs:257-283 | the body ends well exactly if the document yields a text, and that text is then the transcript of the run's job |
| Ingester.Instance.EmbedStep | zyndeck-ingester/src/main.rs:323-343 | with others interfering between any two statements the loops end with the body executed for the run it was started for; if it ended well for an embed run and nobody spoiled the job meanwhile, every chunk of the job has the vector answered to its heading and content |
| Ingester.Instance.ChunkStep | zyndeck-ingester/src/main.rs:287-319 | if the body ended well for a chunk run and nobody spoiled the job meanwhile, the job's rows are the split of the transcript the body read, in order, field by field |
| Ingester.Instance.Process | zyndeck-ingester/src/main.rs:151-163 | the service is ready again afterwards; the job claimed is never found to have disappeared, and it is the one reported as done or awaiting validation |
| Ingester.Instance.SweepAll | zyndeck-ingester/src/main.rs:133-147 | after the sweep every run then waiting is announced among the notifications this service has yet to read |
| Transitions.StartJobOutcome | zyndeck-db/src/lib.rs:144-165 | a new job is on `extract` with one waiting run, attempt 1, announced in the same transaction, and nothing else is touched |
| Transitions.RestartJobOutcome | zyndeck-db/src/lib.rs:224-236 | a restart is accepted exactly on an idle job on `extract`, and then adds one waiting, announced run; refused, it changes nothing and names the reason: no such job, not in transcription, or already running |
| Transitions.ValidateJobOutcome | zyndeck-db/src/lib.rs:243-272 | a validation is accepted exactly if the job is on `extract` and its latest run is a succeeded extraction, and then adds a waiting, announced chunk run; refused, it changes nothing and names the reason: no such job, not in transcription, or extraction not succeeded, never an active run |
| Transitions.ContinueJobOutcome | zyndeck-db/src/lib.rs:179-216 | phase two advances exactly if the job is on `chunk` or `embed` and its latest run is a success of that step, to a started embed run or to completion; refused, it changes nothing and names the reason: no such job, completed, to be validated, or the step not succeeded |
| Transitions.AbortDecodesIffRunning | zyndeck-db/queries/ingestion_step_run/abort.sql:1-4 | aborting an active run leaves a history that decodes and stays valid exactly if the run was running, not pending |
| History.InsertKeepsValid | zyndeck-db/queries/ingestion_step_run/begin.sql:1-12 | appending a run with the next attempt number, where nothing of the job is active and its step is right, keeps the history valid |
| History.UpdateTouchesOne | zyndeck-db/queries/ingestion_step_run/claim.sql:6-9 | each guarded update the program issues changes at most one row and returns exactly that row, decoded |
| History.UpdateKeepsValid | zyndeck-db/queries/ingestion_step_run/finish.sql:4-7 | claims, finishes and aborts of running runs keep the history valid and change no row that is over |
| History.FindLatestIsLastInserted | zyndeck-db/queries/ingestion_step_run/find_latest.sql:11-15 | in a valid history the ordering by start time, nulls first, then attempt, finds exactly the row inserted last |
| Database.Db.StartJob | zyndeck-db/src/lib.rs:144-165 | insert, trigger and enqueue, or all undone: the whole new state and the answer |
| Database.Db.ContinueJob | zyndeck-db/src/lib.rs:179-216 | the transaction's statements, checks in order and rollback give the specified state and answer |
| Database.Db.RestartJob | zyndeck-db/src/lib.rs:224-236 | the same for the restart |
| Database.Db.ValidateJob | zyndeck-db/src/lib.rs:243-272 | the same for the validation |
| Database.Db.ClaimPendingRun | zyndeck-db/src/lib.rs:274-288 | the job's waiting rows, and no others, become running with the transaction's stamp as their start, nothing else in the database changes, none is returned exactly if none waited, and a returned run is one of these rows |
| Database.Db.Finish | zyndeck-db/src/ingestion_step_run.rs:169-184 | a row that is not running, or not this run, is left alone, so an abort is never overwritten; a running one gets its end stamp, its status and an error exactly if it failed; none is returned exactly if the run was not running |
| Database.Db.Abort | zyndeck-db/src/ingestion_step_run.rs:210-221 | the job's active rows, and no others, become aborted with an end stamp; afterwards the job has no active run, and none is returned exactly if it had none |
| Database.Db.UpsertTranscript | zyndeck-db/queries/ingestion_transcript/upsert.sql:1-3 | the job's transcript is the new text whatever it was before, and every other job's is as it was |
| Database.Db.ReplaceChunks | zyndeck-db/src/ingestion_chunk.rs:98-126 | delete, then row-by-row inserts, equal the wholesale replacement with fresh ids and cascaded embeddings, or nothing if two positions repeat |
| Database.Db.StoreEmbedding | zyndeck-db/src/ingestion_chunk.rs:140-151 | exactly a 1024-long vector for a chunk that is there is stored; then that chunk has it, and every other embedding stays as it was |
| ChunkTable.RowsAfterReplace | zyndeck-db/queries/ingestion_chunk/delete_by_job.sql:3-4 | after a replacement the job has exactly the new rows and every other job what it had |
| ChunkTable.ReplaceKeepsValidChunks | zyndeck-db/src/ingestion_chunk.rs:98-126 | a replacement by chunks counted from 0 is never refused and keeps ids unique and each job's positions 0, 1, 2, ... |
| ChunkTable.FindByJobReadsRows | zyndeck-db/queries/ingestion_chunk/find_by_job.sql:3-11 | reading by position gives the job's rows in the order they were stored |
| Embedding.EmbedStep | zyndeck-ingester/src/main.rs:323-343 | the rows of the answered batches have their own vectors and nothing else changed; it succeeds exactly if that is every row of a job that has some, and otherwise stops at the first unanswered batch |
| Embedding.EmbeddingIsTheMap | zyndeck-ingester/src/main.rs:331-336 | for an embedder that answers each text on its own, batching by sixteen and zipping gives every row the vector of its own heading and content: none skipped, swapped or overwritten |
| Embedding.BatchingIsTheMap | zyndeck-ingester/src/embed.rs:98-117 | such an embedder passes the length check on every batch, and a row's place in its batch's answer holds the vector of that row's heading and content |
| Embedding.ZippedIsEachRowsOwn | zyndeck-ingester/src/main.rs:334-336 | with distinct ids each row gets the vector at its place and no other embedding is touched |
| Chunking.SplitTranscript | zyndeck-ingester/src/chunk.rs:34-110 | the one-pass builder gives exactly the greedy packing of the body lines with their headings and pages |
| Chunking.ParsePageMarkerIff | zyndeck-ingester/src/chunk.rs:112-117 | a line is parsed as the marker of page n exactly if it is `<!--`, white space, `page`, white space, an optional `+`, digits of value n within 64 bits, white space, `-->` |
| Chunking.ReadTells | zyndeck-ingester/src/chunk.rs:38-51 | a line, trimmed, is skipped exactly if empty, a marker exactly if written as one, a heading exactly if it starts with `## `, whose text is the trimmed rest, and otherwise body text |
| Text.TrimOf | zyndeck-ingester/src/chunk.rs:39 | trimming white space off both ends of a text leaves the text, and nothing else does |
| ChunkTheorems.OtherCommentIsPlain | zyndeck-ingester/src/chunk.rs:112-117 | a comment that does not open with `page` is no marker |
| ChunkTheorems.PlainLineIsAChunk | zyndeck-ingester/src/chunk.rs:34-54 | a transcript of one line that is neither marker nor heading is one chunk of that text, on page 1 under no heading |
| ChunkTheorems.NoteIsAChunk | zyndeck-ingester/src/chunk.rs:131-137 | `<!-- note -->` is such a line |
| ChunkTheorems.SplitConserves | zyndeck-ingester/src/chunk.rs:34-110 | the chunks' lines, concatenated, are the lines of the transcript that, trimmed, are not empty, start with no `## ` and are not written as a page marker, each once, in order |
| ChunkTheorems.SplitProvenance | zyndeck-ingester/src/chunk.rs:69-103 | the chunks' lines are the body lines at rising places in the transcript, each with the page of the last marker before it, 1 before any, and the last heading before it; a chunk has the heading of each of its lines and the page of its first |
| ChunkTheorems.BodyLinesAreInPlace | zyndeck-ingester/src/chunk.rs:36-51 | for any scanned lines whatever, every body line is placed once, in order, under the last heading and on the page of the last marker before it |
| ChunkTheorems.SplitSizes | zyndeck-ingester/src/chunk.rs:76-92 | a chunk is non-empty, and a single line or at most 1200 characters; the first line of the next chunk of its section would not have fitted |
| ChunkTheorems.SplitIsOptimal | zyndeck-ingester/src/chunk.rs:34-110 | no cutting of the body lines into consecutive groups of one section, each a single line or at most 1200 characters, has fewer groups |
| ChunkTheorems.PackIsTight | zyndeck-ingester/src/chunk.rs:82-92 | no chunk could have taken the first line of the next one of its section |
| ChunkTheorems.PackIsCutting | zyndeck-ingester/src/chunk.rs:76-103 | the packing cuts the body lines into consecutive groups of one section, each a single line or at most 1200 characters, losing and reordering none |
| ChunkTheorems.PackIsOptimal | zyndeck-ingester/src/chunk.rs:12-18 | for any body lines whatever, no such cutting has fewer groups than the packing |
| ChunkTheorems.HeadingsBySection | zyndeck-ingester/src/chunk.rs:69-72 | body lines of one section have one heading, the last one seen before them |
| ChunkTheorems.RowsOfChunks | zyndeck-ingester/src/chunk.rs:82-91 | cutting each chunk at its newlines and concatenating gives the packed lines back |
| Document.GroupIntoLines | zyndeck-ingester/src/document.rs:189-208 | the slicing loop yields the groups one segment at a time would form, on the empty page too |
| Document.GroupingIffGroupsOf | zyndeck-ingester/src/document.rs:183-208 | these groups are the only cutting of the page into non-empty groups that breaks it exactly where the baseline jumps beyond tolerance |
| Document.SameLine | zyndeck-ingester/src/document.rs:193-197 | two neighbours are on one line exactly if their baselines differ by at most 0.6 of the height of one of them |
| Assembly.SortIsStableOrder | zyndeck-ingester/src/document.rs:212-213 | ordering by left edge gives a permutation, ascending, with ties in their old order |
| Assembly.StableOrderIsUnique | zyndeck-ingester/src/document.rs:212-213 | there is no other such order |
| Assembly.CleanSegmentText | zyndeck-ingester/src/document.rs:226-231 | the longest prefix without carriage return or newline |
| Assembly.NormalizeShowsTheSame | zyndeck-ingester/src/document.rs:234-236 | normalized text has single inner spaces as its only whitespace and the same visible characters and word breaks |
| Assembly.LineTextIsDetermined | zyndeck-ingester/src/document.rs:211-236 | a text is the line's text exactly if it is normal and shows what the concatenation shows of the segments' texts before their first breaks, one after the other in stable left-to-right order |
| Assembly.AssembleText | zyndeck-ingester/src/document.rs:211-221 | the joining loop yields that text: it is normal, and shows that concatenation |
| Classification.FamilyIgnoresTagAndStyle | zyndeck-ingester/src/document.rs:159-175 | any six-capital subset tag and any style suffix leave the family name |
| Classification.OtherPrefixStays | zyndeck-ingester/src/document.rs:163-171 | a prefix that is not six capitals stays part of the name |
| Classification.DominantFamily | zyndeck-ingester/src/document.rs:287-301 | the result is a named family of the line that covers the most non-icon characters; there is none only if no segment names one |
| Classification.DominantBodyFamily | zyndeck-ingester/src/document.rs:139-157 | the same over all pages, or the empty name |
| Classification.Classify | zyndeck-ingester/src/document.rs:239-284 | icons exactly from three icons in five visible characters; a heading only in a family other than the body's, with three letters, at most 48 characters and four capitals in five cased letters; such a line is body text only if its family can be the body's or none |
| Classification.IsGarbled | zyndeck-ingester/src/document.rs:323-345 | garbled exactly if some visible character is a control or replacement character or more than three in ten visible ones are implausible, early return or not |
| Classification.WhatCounts | zyndeck-ingester/src/document.rs:177-181 | icons are the characters from U+E000 to U+F8FF; a letter or numeral is never implausible |
| Structuring.Structure | zyndeck-ingester/src/document.rs:102-135 | the nested loops produce a document of the pages under some resolution of the family ties |
| Structuring.StructureAccounts | zyndeck-ingester/src/document.rs:105-134 | kept is the number of lines, kept plus dropped the number of groups with text, pages never go back and stay within 1 to the page count, and every line is the normal, non-empty text of a group of its page |
| Structuring.ReportAddsUp | zyndeck-ingester/src/document.rs:120-130 | for any groups and kinds, kept counts the lines and kept plus dropped the groups with text |
| Structuring.StructureSelects | zyndeck-ingester/src/document.rs:111-131 | the lines are the groups at rising positions, each with text and of icons or not garbled; every other group has no text, or is garbled and not of icons, so a line of icons with text is never dropped |
| Markdown.ToMarkdown | zyndeck-ingester/src/document.rs:80-97 | the printing loop gives the transcript with a marker at each change of page |
| Markdown.MarkdownIsRows | zyndeck-ingester/src/document.rs:80-97 | the transcript is its rows, each ended by a newline |
| RoundTrip.ParsePrintedMarker | zyndeck-ingester/src/chunk.rs:112-117 | a printed page marker parses back to its page, for every page number a machine word holds |
| RoundTrip.LinesOfMarkdown | zyndeck-ingester/src/chunk.rs:38-39 | the lines read from a transcript are the rows printed |
| Markdown.LinesOfUnlines | zyndeck-ingester/src/chunk.rs:38-39 | writing rows and reading lines gives the rows back, for any rows without newline or final carriage return |
| RoundTrip.RowsOfReturningLines | zyndeck-ingester/src/chunk.rs:38-50 | scanning the rows of lines that read as body or heading keeps the page, heading and section in step with the document and places each line where it is in it |
| RoundTrip.OnlyPlainLinesReturn | zyndeck-ingester/src/chunk.rs:43-49 | all other lines are missing: with one of them the scan returns strictly fewer lines than the document has |
| RoundTrip.RoundTripIffClean | zyndeck-ingester/src/document.rs:75-97 | the chunks of a document's transcript hold exactly its non-heading lines, in order, if and only if none of those starts with `## ` or is written as a page marker |
| RoundTrip.RoundTripKeepsPlaces | zyndeck-ingester/src/chunk.rs:34-110 | then each line also has its own page and latest heading, each chunk the heading of its lines and the page of its first |
| LostLines.UnplainTextIsLost | zyndeck-ingester/src/document.rs:102-135 | a page with one unnamed run of ungarbled text that reads as Markdown does become a document of that one line, and no such document is recovered |
| LostLines.HashPageIsLost | zyndeck-ingester/src/chunk.rs:45-46 | the page with the text `## A` becomes a document, and its line is not recovered |
| LostLines.MarkerPageIsLost | zyndeck-ingester/src/chunk.rs:43-44 | nor is that of the page with the text `<!-- page 7 -->` |

## Left out

- Traces.CompletedJobsAreIndexed: before its completion a job may survive a second replacement too, for instance by equal chunks; the condition is shown exact from the completion on, not before it.
- Classification.Classify: when families tie, the choice the hash map's order makes is left open, and the ratio tests are exact where the program divides in `f32`.
- Document.GroupIntoLines: coordinates are reals, so `f32` rounding, negative zero and NaN are not modelled.
- Database.Db.StartJob: takes the fresh id the table would generate, and does not report a missing game, because games are not modelled.
- Reading PDFs, calling the embedding service, vector search, tracing, signals, argument parsing and launching the editor: input and output.
- Lost connections, reconnecting listeners, failing queries, crashes and the recovery the service's README names as missing.
- Deleting games and, through them, jobs, runs and chunks.
- The repository methods no shipped program calls (`create`, `update_step`, `begin` outside a transition): they bypass the transitions.
- Liveness: that a waiting run is eventually claimed needs fairness of the scheduler; that no service forgets it is proved.
- The HTTP interface, users, games, passwords, tokens, roles and pagination: easy members beside these.
- Parsing steps, statuses and languages from text: finite tables.
