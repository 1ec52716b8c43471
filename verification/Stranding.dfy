/**
 A run of the protocol that ends with a completed job without vectors: an abort falls between
 a service taking the job's first extraction and loading the job, a second extraction is
 validated meanwhile, and the first service, with its stale run, chunks the job as well.
 */
module Stranding {
  import opened Wrappers
  import opened Ingestion
  import opened Tables
  import opened Text
  import opened Chunking
  import ChunkTheorems
  import opened History
  import opened Transitions
  import opened Protocol
  import opened Indexing
  import opened Traces

  // ----- reaching a state

  ghost predicate EndsIn(ws: seq<World>, acts: seq<Action>, w: World) {
    IsRun(ws, acts) && ws[|acts|] == w
  }

  ghost predicate Reachable(w: World) {
    exists ws, acts :: EndsIn(ws, acts, w)
  }

  lemma InitIsReachable(w: World)
    requires Init(w)
    ensures Reachable(w)
  {
    assert EndsIn([w], [], w);
  }

  lemma Extends(ws: seq<World>, acts: seq<Action>, a: Action, w': World)
    requires IsRun(ws, acts) && Enabled(ws[|acts|], a) && w' == Act(ws[|acts|], a)
    ensures EndsIn(ws + [w'], acts + [a], w')
  {
    var ws', acts' := ws + [w'], acts + [a];
    forall n | 0 <= n < |acts'| ensures StepAt(ws', acts', n) {
      if n < |acts| { assert StepAt(ws, acts, n); }
    }
  }

  lemma Reach(w: World, a: Action, w': World)
    requires Enabled(w, a) && Act(w, a) == w'
    ensures Reachable(w) ==> Reachable(w')
  {
    if Reachable(w) {
      var ws, acts :| EndsIn(ws, acts, w);
      Extends(ws, acts, a, w');
    }
  }

  lemma ReachByLoop(w: World, a: Action, w': World)
    requires a.ByService() && !IsBody(a) && LoopEnabled(w, a) && ActLoop(w, a) == w'
    ensures Reachable(w) ==> Reachable(w')
  {
    Reach(w, a, w');
  }

  lemma ReachByBody(w: World, a: Action, w': World)
    requires IsBody(a) && BodyEnabled(w, a) && ActBody(w, a) == w'
    ensures Reachable(w) ==> Reachable(w')
  {
    Reach(w, a, w');
  }

  lemma ReachByCommand(w: World, a: Action, w': World)
    requires !a.ByService() && CommandEnabled(w, a) && ActCommand(w, a) == w'
    ensures Reachable(w) ==> Reachable(w')
  {
    Reach(w, a, w');
  }

  lemma ReachableIsSafe(w: World)
    requires Reachable(w)
    ensures Valid(w.db)
  {
    var ws, acts :| EndsIn(ws, acts, w);
    EveryStateIsSafe(ws, acts, |acts|);
  }

  // ----- the job, its runs and its one chunk

  const JOB: JobId := 0
  const TEXT := "A"
  const NEWS := [NewChunk(0, "", 1, TEXT)]
  const VECTOR: Vector := seq(EMBEDDING_DIM, _ => 0.0)

  function RowAt(id: nat): ChunkRow {
    ChunkRow(id, JOB, 0, "", 1, TEXT)
  }

  /** The four runs, as the services were given them. */
  const STALE := StepRun(0, JOB, Extract, 1, Running(0))
  const FRESH := StepRun(1, JOB, Extract, 2, Running(2))
  const CHUNKING := StepRun(2, JOB, Step.Chunk, 1, Running(4))
  const EMBEDDING := StepRun(3, JOB, Embed, 1, Running(6))

  /** A run as a waiting row. */
  function Waits(run: StepRun): RunRow {
    RunRow(run.id, run.job, run.step, run.attempt, PendingText, None, None, None)
  }

  /** A running run as it ends. */
  function Ended(run: StepRun, status: StatusText): RunRow
    requires run.status.Running?
  {
    RunRow(run.id, run.job, run.step, run.attempt, status, Some(run.status.startedAt), Some(run.status.startedAt + 1), None)
  }

  lemma ShortIsPlain(text: string)
    requires |text| < 3
    ensures Plain(text)
  {
    assert CommentBody(text) == None;
    forall n: nat ensures !IsMarker(text, n) { ParsePageMarkerIff(text, n); }
  }

  lemma NewsOfOne(text: string, chunk: Chunk)
    requires Split(text) == [chunk] && chunk.page <= I32_MAX
    ensures NewChunks(text) == Some([NewChunk(0, chunk.heading, chunk.page, chunk.content)])
  {
    assert NewChunks(text).value == [NewChunk(0, chunk.heading, chunk.page, chunk.content)];
  }

  lemma SplitOfText()
    ensures NewChunks(TEXT) == Some(NEWS)
  {
    ShortIsPlain(TEXT);
    ChunkTheorems.PlainLineIsAChunk(TEXT);
    NewsOfOne(TEXT, Chunk.Chunk("", 1, TEXT));
  }

  // ----- the tables

  function Db(step: Step, runs: seq<RunRow>, sent: seq<JobId>, clock: Stamp): Tables {
    Tables(map[JOB := step], runs, map[], [], map[], sent, clock, 0)
  }

  /** After the first extraction: with the transcript, the chunks and their vectors. */
  function Full(step: Step, runs: seq<RunRow>, sent: seq<JobId>, clock: Stamp, chunks: seq<ChunkRow>,
      embeddings: map<nat, Vector>): Tables
  {
    Tables(map[JOB := step], runs, map[JOB := TEXT], chunks, embeddings, sent, clock, |chunks|)
  }

  const SENT1 := [JOB]
  const SENT2 := [JOB, JOB]
  const SENT3 := [JOB, JOB, JOB]

  const LOST := Ended(STALE, AbortedText)
  const DONE1 := [LOST, Ended(FRESH, SucceededText)]
  const DONE2 := DONE1 + [Ended(CHUNKING, SucceededText)]
  const DONE3 := DONE2 + [Ended(EMBEDDING, SucceededText)]
  const STORED := [RowAt(0)]

  const STARTED := Db(Extract, [Waits(STALE)], SENT1, 0)
  const TAKEN := Db(Extract, [Columns(STALE)], SENT1, 1)
  const STOPPED := Db(Extract, [LOST], SENT1, 2)
  const RESTARTED := Db(Extract, [LOST, Waits(FRESH)], SENT2, 2)
  const RETAKEN := Db(Extract, [LOST, Columns(FRESH)], SENT2, 3)
  const WRITTEN := Full(Extract, [LOST, Columns(FRESH)], SENT2, 3, [], map[])
  const EXTRACTED := Full(Extract, DONE1, SENT2, 4, [], map[])
  const VALIDATED := Full(Step.Chunk, DONE1 + [Waits(CHUNKING)], SENT3, 4, [], map[])
  const TAKEN_ON := Full(Step.Chunk, DONE1 + [Columns(CHUNKING)], SENT3, 5, [], map[])
  const REPLACED := Full(Step.Chunk, DONE1 + [Columns(CHUNKING)], SENT3, 5, STORED, map[])
  const CHUNKED := Full(Step.Chunk, DONE2, SENT3, 6, STORED, map[])
  const EMBEDS := Full(Embed, DONE2 + [Columns(EMBEDDING)], SENT3, 7, STORED, map[])
  const VECTORED := Full(Embed, DONE2 + [Columns(EMBEDDING)], SENT3, 7, STORED, map[0 := VECTOR])
  const EMBEDDED := Full(Embed, DONE3, SENT3, 8, STORED, map[0 := VECTOR])
  const FINISHED := Full(Completed, DONE3, SENT3, 8, STORED, map[0 := VECTOR])
  const STRANDED := FINISHED.(chunks := [RowAt(1)], embeddings := map[], nextChunk := 2)

  // ----- the table steps

  lemma UpdateAt(t: Tables, where: Where, change: Change, i: nat)
    requires i < |t.runs| && Matches(where, t.runs[i])
    requires forall k :: 0 <= k < |t.runs| && k != i ==> !Matches(where, t.runs[k])
    requires Decode(Changed(change, t.runs[i], t.clock)).Ok?
    ensures
      var r := Changed(change, t.runs[i], t.clock);
      Update(t, where, change) == (t.(runs := t.runs[i := r], clock := t.clock + 1), Ok(Some(Decode(r).value)))
  {
    assert UpdateRows(t.runs, where, change, t.clock) == t.runs[i := Changed(change, t.runs[i], t.clock)];
  }

  lemma TakeStale()
    ensures ClaimPendingRun(STARTED, JOB) == (TAKEN, Ok(Some(STALE)))
  {
    UpdateAt(STARTED, PendingOf(JOB), ToRunning, 0);
    assert STARTED.runs[0 := Columns(STALE)] == TAKEN.runs;
  }

  lemma StopStale()
    ensures Abort(TAKEN, JOB).0 == STOPPED
  {
    UpdateAt(TAKEN, ActiveOf(JOB), ToAborted, 0);
  }

  lemma StartAgain()
    ensures RestartJob(STOPPED, JOB).0 == RESTARTED
  {
    assert STOPPED.runs[0].attempt <= MaxAttempt(STOPPED.runs, JOB, Extract);
    assert MaxAttempt(STOPPED.runs, JOB, Extract) == 1;
    assert STOPPED.runs + [Waits(FRESH)] == RESTARTED.runs;
  }

  lemma TakeFresh()
    ensures ClaimPendingRun(RESTARTED, JOB) == (RETAKEN, Ok(Some(FRESH)))
  {
    UpdateAt(RESTARTED, PendingOf(JOB), ToRunning, 1);
    assert RESTARTED.runs[1 := Columns(FRESH)] == RETAKEN.runs;
  }

  lemma FinishFresh()
    ensures Finish(WRITTEN, FRESH.id, Success).0 == EXTRACTED && Finish(WRITTEN, FRESH.id, Success).1.Ok?
    ensures Finish(WRITTEN, FRESH.id, Success).1.value.Some?
  {
    UpdateAt(WRITTEN, RunningWithId(1), ToFinished(Success), 1);
  }

  lemma OpenGate()
    requires Valid(EXTRACTED)
    ensures ValidateJob(EXTRACTED, JOB).0 == VALIDATED
  {
    ValidateJobOutcome(EXTRACTED, JOB);
    assert Latest(EXTRACTED.runs, JOB, 1);
    assert MaxAttempt(EXTRACTED.runs, JOB, Step.Chunk) == 0;
  }

  lemma TakeChunking()
    ensures ClaimPendingRun(VALIDATED, JOB) == (TAKEN_ON, Ok(Some(CHUNKING)))
  {
    UpdateAt(VALIDATED, PendingOf(JOB), ToRunning, 2);
    assert VALIDATED.runs[2 := Columns(CHUNKING)] == TAKEN_ON.runs;
  }

  lemma StoreOwn()
    ensures ReplaceChunks(TAKEN_ON, JOB, NEWS) == Some(REPLACED)
  {
    assert Numbered(JOB, NEWS, 0) == STORED;
    assert DeleteByJob([], JOB) + STORED == STORED;
    assert TAKEN_ON.embeddings - IdsOf(TAKEN_ON.chunks, JOB) == map[];
  }

  lemma FinishChunking()
    ensures Finish(REPLACED, CHUNKING.id, Success).0 == CHUNKED && Finish(REPLACED, CHUNKING.id, Success).1.Ok?
    ensures Finish(REPLACED, CHUNKING.id, Success).1.value.Some?
  {
    UpdateAt(REPLACED, RunningWithId(2), ToFinished(Success), 2);
  }

  lemma GoOn()
    requires Valid(CHUNKED)
    ensures ContinueJob(CHUNKED, JOB) == (EMBEDS, Ok(Next(EMBEDDING)))
  {
    ContinueJobOutcome(CHUNKED, JOB);
    assert Latest(CHUNKED.runs, JOB, 2);
    assert MaxAttempt(CHUNKED.runs, JOB, Embed) == 0;
    assert CHUNKED.jobs[JOB := Embed] == EMBEDS.jobs;
    assert Inserted(CHUNKED, Columns(EMBEDDING)) == EMBEDS;
  }

  lemma FindStored()
    ensures FindByJob(STORED, JOB) == STORED
  {
    assert RowsOf(STORED, JOB) == STORED;
    assert SortedByPosition(STORED) == STORED;
  }

  lemma AskForStored()
    ensures Inputs(STORED[0..BatchEnd(0, 1)]) == [TEXT] && CheckEmbeddings(1, [VECTOR])
  {
    assert STORED[0..1] == STORED;
  }

  lemma StoreAnswer()
    ensures StoreEmbedding(EMBEDS, 0, VECTOR) == Some(VECTORED) && [VECTOR][1..] == []
  {
    assert EMBEDS.chunks[0].id == 0;
    assert EMBEDS.embeddings[0 := VECTOR] == VECTORED.embeddings;
  }

  lemma FinishEmbedding()
    ensures Finish(VECTORED, EMBEDDING.id, Success).0 == EMBEDDED && Finish(VECTORED, EMBEDDING.id, Success).1.Ok?
    ensures Finish(VECTORED, EMBEDDING.id, Success).1.value.Some?
  {
    UpdateAt(VECTORED, RunningWithId(3), ToFinished(Success), 3);
  }

  lemma Complete()
    requires Valid(EMBEDDED)
    ensures ContinueJob(EMBEDDED, JOB) == (FINISHED, Ok(AllDone))
  {
    ContinueJobOutcome(EMBEDDED, JOB);
    assert Latest(EMBEDDED.runs, JOB, 3);
    assert EMBEDDED.jobs[JOB := Completed] == FINISHED.jobs;
  }

  lemma StoreStale()
    ensures ReplaceChunks(FINISHED, JOB, NEWS) == Some(STRANDED)
  {
    assert Numbered(JOB, NEWS, 1) == [RowAt(1)];
    assert DeleteByJob(STORED, JOB) == [];
    assert [] + [RowAt(1)] == STRANDED.chunks;
    assert STORED[0] in FINISHED.chunks && 0 in IdsOf(FINISHED.chunks, JOB);
    assert FINISHED.embeddings - IdsOf(FINISHED.chunks, JOB) == map[];
  }

  // ----- the run, one state per action

  const NONE: map<nat, nat> := map[]
  const OWN1 := NONE[0 := 0]
  const OWN2 := OWN1[1 := 1]
  const OWN3 := OWN2[2 := 1]
  const OWN4 := OWN3[3 := 1]
  const UNREAD: map<nat, string> := map[]
  const READ1 := UNREAD[0 := TEXT]
  const READ2 := READ1[2 := TEXT]
  const ASKED := [Exchange([TEXT], [VECTOR])]

  lemma ReadText(w: World, s: nat, run: StepRun)
    requires PcOf(w, s) == Loaded(run, Step.Chunk) && run.job in w.db.transcripts && w.db.transcripts[run.job] == TEXT
    ensures DoReadTranscript(w, s) == At(w, s, Replacing(run, NEWS)).(sources := w.sources[run.id := TEXT])
  {
    SplitOfText();
  }

  function Svc(pc: Pc, cursor: nat): Service {
    Service(pc, cursor, [])
  }

  function Two(db: Tables, zero: Service, one: Service, owners: map<nat, nat>, sources: map<nat, string>,
      exchanges: seq<Exchange>): World
  {
    World(db, [zero, one], owners, sources, exchanges)
  }

  const W0 := Two(EMPTY, Svc(Off, 0), Svc(Off, 0), NONE, UNREAD, [])
  const W1 := Two(EMPTY, Svc(Starting, 0), Svc(Off, 0), NONE, UNREAD, [])
  const W2 := Two(EMPTY, Svc(Ready, 0), Svc(Off, 0), NONE, UNREAD, [])
  const W3 := Two(EMPTY, Svc(Ready, 0), Svc(Starting, 0), NONE, UNREAD, [])
  const W4 := Two(EMPTY, Svc(Ready, 0), Svc(Ready, 0), NONE, UNREAD, [])
  const W5 := Two(STARTED, Svc(Ready, 0), Svc(Ready, 0), NONE, UNREAD, [])
  const W6 := Two(STARTED, Svc(Claiming(JOB), 1), Svc(Ready, 0), NONE, UNREAD, [])
  const W7 := Two(TAKEN, Svc(Begun(STALE), 1), Svc(Ready, 0), OWN1, UNREAD, [])
  const W8 := Two(STOPPED, Svc(Begun(STALE), 1), Svc(Ready, 0), OWN1, UNREAD, [])
  const W9 := Two(RESTARTED, Svc(Begun(STALE), 1), Svc(Ready, 0), OWN1, UNREAD, [])
  const W10 := Two(RESTARTED, Svc(Begun(STALE), 1), Svc(Claiming(JOB), 1), OWN1, UNREAD, [])
  const W11 := Two(RETAKEN, Svc(Begun(STALE), 1), Svc(Begun(FRESH), 1), OWN2, UNREAD, [])
  const W12 := Two(RETAKEN, Svc(Begun(STALE), 1), Svc(Loaded(FRESH, Extract), 1), OWN2, UNREAD, [])
  const W13 := Two(WRITTEN, Svc(Begun(STALE), 1), Svc(Executed(FRESH, Extract, true), 1), OWN2, UNREAD, [])
  const W14 := Two(EXTRACTED, Svc(Begun(STALE), 1), Svc(Ready, 1), OWN2, UNREAD, [])
  const W15 := Two(VALIDATED, Svc(Begun(STALE), 1), Svc(Ready, 1), OWN2, UNREAD, [])
  const W16 := Two(VALIDATED, Svc(Loaded(STALE, Step.Chunk), 1), Svc(Ready, 1), OWN2, UNREAD, [])
  const W17 := Two(VALIDATED, Svc(Replacing(STALE, NEWS), 1), Svc(Ready, 1), OWN2, READ1, [])
  const W18 := Two(VALIDATED, Svc(Replacing(STALE, NEWS), 1), Svc(Claiming(JOB), 2), OWN2, READ1, [])
  const W19 := Two(TAKEN_ON, Svc(Replacing(STALE, NEWS), 1), Svc(Begun(CHUNKING), 2), OWN3, READ1, [])
  const W20 := Two(TAKEN_ON, Svc(Replacing(STALE, NEWS), 1), Svc(Loaded(CHUNKING, Step.Chunk), 2), OWN3, READ1, [])
  const W21 := Two(TAKEN_ON, Svc(Replacing(STALE, NEWS), 1), Svc(Replacing(CHUNKING, NEWS), 2), OWN3, READ2, [])
  const W22 := Two(REPLACED, Svc(Replacing(STALE, NEWS), 1), Svc(Executed(CHUNKING, Step.Chunk, true), 2), OWN3, READ2, [])
  const W23 := Two(CHUNKED, Svc(Replacing(STALE, NEWS), 1), Svc(Advancing(CHUNKING), 2), OWN3, READ2, [])
  const W24 := Two(EMBEDS, Svc(Replacing(STALE, NEWS), 1), Svc(Begun(EMBEDDING), 2), OWN4, READ2, [])
  const W25 := Two(EMBEDS, Svc(Replacing(STALE, NEWS), 1), Svc(Loaded(EMBEDDING, Embed), 2), OWN4, READ2, [])
  const W26 := Two(EMBEDS, Svc(Replacing(STALE, NEWS), 1), Svc(Pc.Embedding(EMBEDDING, STORED, 0, []), 2), OWN4, READ2, [])
  const W27 := Two(EMBEDS, Svc(Replacing(STALE, NEWS), 1), Svc(Pc.Embedding(EMBEDDING, STORED, 0, [VECTOR]), 2), OWN4, READ2, ASKED)
  const W28 := Two(VECTORED, Svc(Replacing(STALE, NEWS), 1), Svc(Pc.Embedding(EMBEDDING, STORED, 1, []), 2), OWN4, READ2, ASKED)
  const W29 := Two(VECTORED, Svc(Replacing(STALE, NEWS), 1), Svc(Executed(EMBEDDING, Embed, true), 2), OWN4, READ2, ASKED)
  const W30 := Two(EMBEDDED, Svc(Replacing(STALE, NEWS), 1), Svc(Advancing(EMBEDDING), 2), OWN4, READ2, ASKED)
  const W31 := Two(FINISHED, Svc(Replacing(STALE, NEWS), 1), Svc(Ready, 2), OWN4, READ2, ASKED)
  const W32 := Two(STRANDED, Svc(Executed(STALE, Step.Chunk, true), 1), Svc(Ready, 2), OWN4, READ2, ASKED)

  /** One lemma per action: each takes the run from one state to the next. */
  lemma To1()
    ensures Reachable(W0) ==> Reachable(W1)
  {
    ReachByLoop(W0, Subscribe(0), W1);
  }

  lemma To2()
    ensures Reachable(W1) ==> Reachable(W2)
  {
    ReachByLoop(W1, Sweep(0, []), W2);
  }

  lemma To3()
    ensures Reachable(W2) ==> Reachable(W3)
  {
    ReachByLoop(W2, Subscribe(1), W3);
  }

  lemma To4()
    ensures Reachable(W3) ==> Reachable(W4)
  {
    ReachByLoop(W3, Sweep(1, []), W4);
  }

  lemma To5()
    ensures Reachable(W4) ==> Reachable(W5)
  {
    ReachByCommand(W4, Start(JOB), W5);
  }

  lemma To6()
    ensures Reachable(W5) ==> Reachable(W6)
  {
    ReachByLoop(W5, Receive(0), W6);
  }

  lemma To7()
    ensures Reachable(W6) ==> Reachable(W7)
  {
    TakeStale();
    ReachByLoop(W6, Claim(0), W7);
  }

  lemma To8()
    ensures Reachable(W7) ==> Reachable(W8)
  {
    StopStale();
    ReachByCommand(W7, AbortRun(JOB), W8);
  }

  lemma To9()
    ensures Reachable(W8) ==> Reachable(W9)
  {
    StartAgain();
    ReachByCommand(W8, Restart(JOB), W9);
  }

  lemma To10()
    ensures Reachable(W9) ==> Reachable(W10)
  {
    ReachByLoop(W9, Receive(1), W10);
  }

  lemma To11()
    ensures Reachable(W10) ==> Reachable(W11)
  {
    TakeFresh();
    ReachByLoop(W10, Claim(1), W11);
  }

  lemma To12()
    ensures Reachable(W11) ==> Reachable(W12)
  {
    ReachByLoop(W11, Load(1), W12);
  }

  lemma To13()
    ensures Reachable(W12) ==> Reachable(W13)
  {
    ReachByBody(W12, Extracted(1, TEXT), W13);
  }

  lemma To14()
    ensures Reachable(W13) ==> Reachable(W14)
  {
    FinishFresh();
    ReachByLoop(W13, FinishRun(1, ""), W14);
  }

  lemma To15()
    ensures Reachable(W14) ==> Reachable(W15)
  {
    if Reachable(W14) {
      ReachableIsSafe(W14);
      OpenGate();
      ReachByCommand(W14, Validate(JOB), W15);
    }
  }

  lemma To16()
    ensures Reachable(W15) ==> Reachable(W16)
  {
    ReachByLoop(W15, Load(0), W16);
  }

  lemma ReadFirst()
    ensures DoReadTranscript(W16, 0) == W17
  {
    ReadText(W16, 0, STALE);
  }

  lemma To17()
    ensures Reachable(W16) ==> Reachable(W17)
  {
    ReadFirst();
    ReachByBody(W16, ReadTranscript(0), W17);
  }

  lemma To18()
    ensures Reachable(W17) ==> Reachable(W18)
  {
    ReachByLoop(W17, Receive(1), W18);
  }

  lemma To19()
    ensures Reachable(W18) ==> Reachable(W19)
  {
    TakeChunking();
    ReachByLoop(W18, Claim(1), W19);
  }

  lemma To20()
    ensures Reachable(W19) ==> Reachable(W20)
  {
    ReachByLoop(W19, Load(1), W20);
  }

  lemma ReadAgain()
    ensures DoReadTranscript(W20, 1) == W21
  {
    ReadText(W20, 1, CHUNKING);
  }

  lemma To21()
    ensures Reachable(W20) ==> Reachable(W21)
  {
    ReadAgain();
    ReachByBody(W20, ReadTranscript(1), W21);
  }

  lemma To22()
    ensures Reachable(W21) ==> Reachable(W22)
  {
    StoreOwn();
    ReachByBody(W21, StoreChunks(1), W22);
  }

  lemma To23()
    ensures Reachable(W22) ==> Reachable(W23)
  {
    FinishChunking();
    ReachByLoop(W22, FinishRun(1, ""), W23);
  }

  lemma To24()
    ensures Reachable(W23) ==> Reachable(W24)
  {
    if Reachable(W23) {
      ReachableIsSafe(W23);
      GoOn();
      ReachByLoop(W23, Continue(1), W24);
    }
  }

  lemma To25()
    ensures Reachable(W24) ==> Reachable(W25)
  {
    ReachByLoop(W24, Load(1), W25);
  }

  lemma To26()
    ensures Reachable(W25) ==> Reachable(W26)
  {
    FindStored();
    ReachByBody(W25, ReadChunks(1), W26);
  }

  lemma To27()
    ensures Reachable(W26) ==> Reachable(W27)
  {
    AskForStored();
    ReachByBody(W26, AskEmbedder(1, Some([VECTOR])), W27);
  }

  lemma To28()
    ensures Reachable(W27) ==> Reachable(W28)
  {
    StoreAnswer();
    ReachByBody(W27, StoreVector(1), W28);
  }

  lemma To29()
    ensures Reachable(W28) ==> Reachable(W29)
  {
    ReachByBody(W28, EndEmbedding(1), W29);
  }

  lemma To30()
    ensures Reachable(W29) ==> Reachable(W30)
  {
    FinishEmbedding();
    ReachByLoop(W29, FinishRun(1, ""), W30);
  }

  lemma To31()
    ensures Reachable(W30) ==> Reachable(W31)
  {
    if Reachable(W30) {
      ReachableIsSafe(W30);
      Complete();
      ReachByLoop(W30, Continue(1), W31);
    }
  }

  lemma To32()
    ensures Reachable(W31) ==> Reachable(W32)
  {
    StoreStale();
    ReachByBody(W31, StoreChunks(0), W32);
  }

  lemma StrandedIsReachable()
    ensures Reachable(W32)
  {
    InitIsReachable(W0);
    To1(); To2(); To3(); To4();
    To5(); To6(); To7(); To8();
    To9(); To10(); To11(); To12();
    To13(); To14(); To15(); To16();
    To17(); To18(); To19(); To20();
    To21(); To22(); To23(); To24();
    To25(); To26(); To27(); To28();
    To29(); To30(); To31(); To32();
  }

  /** With one abort at the wrong moment the code can leave a completed job with chunks and no vector at all. */
  lemma AbortCanStrandAJob()
    ensures exists ws, acts, w ::
      && EndsIn(ws, acts, w)
      && JOB in w.db.jobs && w.db.jobs[JOB] == Completed
      && w.db.chunks != [] && w.db.embeddings == map[]
      && !Indexed(w, JOB)
  {
    StrandedIsReachable();
    var ws, acts :| EndsIn(ws, acts, W32);
    assert RowAt(1) in FindByJob(W32.db.chunks, JOB);
  }
}
