/**
 What a completed job has been given: the chunks of the transcript its chunk run read, each
 with the vector the embedder answered for it. It holds over every interleaving, aborts
 included, in which no service replaces the job's chunks after its chunk run has stored them.
 */
module Indexing {
  import opened Wrappers
  import opened Ingestion
  import opened Tables
  import opened History
  import opened ChunkTable
  import opened Protocol
  import opened Safety
  import opened Readings
  import Chunking

  // ----- one job's data

  /** The rows hold the chunks, one each, in order, at positions 0, 1, 2, ..., under whatever ids. */
  predicate Stores(rows: seq<ChunkRow>, chunks: seq<Chunking.Chunk>) {
    && |rows| == |chunks|
    && forall i :: 0 <= i < |rows| ==>
      && rows[i].position == i
      && rows[i].heading == chunks[i].heading
      && rows[i].page == chunks[i].page
      && rows[i].content == chunks[i].content
  }

  /** The job of run `id` has the split of the transcript that run's body read. */
  ghost predicate Chunked(w: World, id: nat)
    requires id < |w.db.runs|
  {
    && id in w.sources
    && Chunking.Split(w.sources[id]) != []
    && Stores(RowsOf(w.db.chunks, w.db.runs[id].job), Chunking.Split(w.sources[id]))
  }

  ghost predicate AllVectored(w: World, job: JobId) {
    forall row :: row in RowsOf(w.db.chunks, job) ==> Vectored(w, row)
  }

  /** The runs of the job that have a say in its data. */
  predicate IsOf(db: Tables, run: StepRun, job: JobId, step: Step) {
    run.id < |db.runs| && db.runs[run.id].job == job == run.job && db.runs[run.id].step == step == run.step
  }

  /** Where a service is tells what the job's chunk run or embed run has stored so far. */
  ghost predicate PcTracked(w: World, job: JobId, pc: Pc) {
    && (pc.Embedding? && IsOf(w.db, pc.run, job, Embed) ==>
      && pc.done <= |pc.rows|
      && pc.rows == RowsOf(w.db.chunks, job)
      && (forall k :: 0 <= k < pc.done ==> Vectored(w, pc.rows[k])))
    && (pc.Executed? && pc.ok && pc.body == Chunk && IsOf(w.db, pc.run, job, Chunk) ==> Chunked(w, pc.run.id))
    && (pc.Executed? && pc.ok && pc.body == Embed && IsOf(w.db, pc.run, job, Embed) ==> AllVectored(w, job))
  }

  /** What a run that succeeded has left. */
  ghost predicate RunTracked(w: World, job: JobId, id: nat)
    requires id < |w.db.runs|
  {
    w.db.runs[id].status == SucceededText && w.db.runs[id].job == job ==>
      && (w.db.runs[id].step == Chunk ==> Chunked(w, id))
      && (w.db.runs[id].step == Embed ==> AllVectored(w, job))
  }

  ghost predicate Tracked(w: World, job: JobId) {
    && Sound(w)
    && (forall s {:trigger w.services[s]} :: 0 <= s < |w.services| ==> PcTracked(w, job, w.services[s].pc))
    && (forall id {:trigger w.db.runs[id]} :: 0 <= id < |w.db.runs| ==> RunTracked(w, job, id))
  }

  /** The service has stored the chunks of the job's chunk run, and is about to say so. */
  predicate HasStored(w: World, s: nat, job: JobId) {
    PcOf(w, s).Executed? && PcOf(w, s).ok && PcOf(w, s).body == Chunk && IsOf(w.db, PcOf(w, s).run, job, Chunk)
  }

  predicate HasSucceeded(w: World, id: nat, job: JobId) {
    && id < |w.db.runs|
    && w.db.runs[id].job == job && w.db.runs[id].step == Chunk && w.db.runs[id].status == SucceededText
  }

  /** The job's chunk run has stored its chunks. */
  ghost predicate Settled(w: World, job: JobId) {
    || (exists s: nat {:trigger HasStored(w, s, job)} :: HasStored(w, s, job))
    || (exists id: nat {:trigger HasSucceeded(w, id, job)} :: HasSucceeded(w, id, job))
  }

  /** The job's chunks are replaced once more, after its chunk run has stored them. */
  ghost predicate Spoils(w: World, a: Action, job: JobId) {
    a.StoreChunks? && PcOf(w, a.s).Replacing? && PcOf(w, a.s).run.job == job && Settled(w, job)
  }

  // ----- a job has one chunk run and one embed run

  lemma OnlyExtractRepeats(t: Tables, i: nat, j: nat)
    requires Valid(t) && i < |t.runs| && j < |t.runs| && i != j && SameStep(t.runs[i], t.runs[j])
    ensures t.runs[i].step == Extract
  {
    if i < j { assert StepsAscend(t.runs, i, j); } else { assert StepsAscend(t.runs, j, i); }
  }

  /** A succeeded chunk run, or any embed run, means the job is settled. */
  lemma EmbedMeansSettled(w: World, job: JobId, e: nat)
    requires Valid(w.db) && e < |w.db.runs| && w.db.runs[e].job == job && w.db.runs[e].step == Embed
    ensures Settled(w, job)
  {
    assert HasGate(w.db.runs, e);
    var c: nat :| Follows(w.db.runs, c, e);
    assert HasSucceeded(w, c, job);
  }

  /** What an unsettled job's data is, is of no consequence. */
  lemma UnsettledIsTracked(w: World, w': World, job: JobId)
    requires Valid(w.db) && !Settled(w, job)
    requires w'.db.runs == w.db.runs
    ensures forall id :: 0 <= id < |w'.db.runs| ==> RunTracked(w', job, id)
    ensures forall s {:trigger w.services[s]} :: 0 <= s < |w.services| ==> PcTracked(w', job, w.services[s].pc)
  {
    forall id | 0 <= id < |w'.db.runs| && w.db.runs[id].job == job && w.db.runs[id].status == SucceededText
      ensures w.db.runs[id].step != Chunk && w.db.runs[id].step != Embed
    {
      assert !HasSucceeded(w, id, job);
      if w.db.runs[id].step == Embed { EmbedMeansSettled(w, job, id); }
    }
    forall s | 0 <= s < |w.services| ensures PcTracked(w', job, w.services[s].pc) {
      var pc := w.services[s].pc;
      assert !HasStored(w, s, job);
      if pc.Embedding? || pc.Executed? {
        if IsOf(w.db, pc.run, job, Embed) { EmbedMeansSettled(w, job, pc.run.id); }
      }
    }
  }

  /** The chunk run's own replacement comes before the job is settled. */
  lemma OwnStoreIsFirst(w: World, s: nat)
    requires Sound(w) && PcOf(w, s).Replacing? && PcOf(w, s).run.step == Chunk
    ensures !Settled(w, PcOf(w, s).run.job)
  {
    var run := PcOf(w, s).run;
    assert PcSound(w, w.services[s].pc) && PcSafe(w.db, w.owners, s, w.services[s].pc);
    forall s': nat ensures !HasStored(w, s', run.job) {
      if HasStored(w, s', run.job) {
        RunsDiffer(w, s, s');
        OnlyExtractRepeats(w.db, run.id, PcOf(w, s').run.id);
      }
    }
    forall id: nat ensures !HasSucceeded(w, id, run.job) {
      if HasSucceeded(w, id, run.job) { OnlyExtractRepeats(w.db, run.id, id); }
    }
  }

  /** Chunks are replaced in a settled job only for a run of another step that was aborted. */
  lemma SpoilerIsStale(w: World, a: Action, job: JobId)
    requires Sound(w) && Spoils(w, a, job)
    ensures
      var run := PcOf(w, a.s).run;
      run.step != Chunk && run.id < |w.db.runs| && w.db.runs[run.id].status == AbortedText
  {
    var run := PcOf(w, a.s).run;
    assert PcSound(w, w.services[a.s].pc) && PcSafe(w.db, w.owners, a.s, w.services[a.s].pc);
    if run.step == Chunk { OwnStoreIsFirst(w, a.s); }
  }

  // ----- what an action keeps of it

  /** The job keeps its chunks, and each that has its vector keeps having one. */
  ghost predicate JobKept(w: World, w': World, job: JobId) {
    && RowsOf(w'.db.chunks, job) == RowsOf(w.db.chunks, job)
    && forall row {:trigger Vectored(w', row)} :: row in RowsOf(w.db.chunks, job) && Vectored(w, row) ==> Vectored(w', row)
  }

  lemma SameDataIsKept(w: World, w': World, job: JobId)
    requires SameData(w, w')
    ensures JobKept(w, w', job)
  {
  }

  lemma MoreExchangesKeep(w: World, w': World, job: JobId)
    requires SameChunks(w.db, w'.db) && w.exchanges <= w'.exchanges
    ensures JobKept(w, w', job)
  {
    forall row | row in RowsOf(w.db.chunks, job) && Vectored(w, row) ensures Vectored(w', row) {
      AnsweredGrows(w.exchanges, w'.exchanges, row, w.db.embeddings[row.id]);
    }
  }

  lemma ReadingKeeps(w: World, a: Action, job: JobId)
    requires Enabled(w, a) && (a.ReadTranscript? || a.AskEmbedder?)
    ensures JobKept(w, Act(w, a), job)
  {
    assert SameChunks(w.db, Act(w, a).db) && w.exchanges <= Act(w, a).exchanges;
    MoreExchangesKeep(w, Act(w, a), job);
  }

  /** Whichever service stores a vector, it is the answer to the text of the chunk it is stored for. */
  lemma StoredIsAnswer(w: World, s: nat, row: ChunkRow)
    requires ValidChunks(w.db) && PcSound(w, PcOf(w, s)) && BodyEnabled(w, StoreVector(s))
    requires row in w.db.chunks && row.id == PcOf(w, s).rows[PcOf(w, s).done].id && |PcOf(w, s).vectors[0]| == EMBEDDING_DIM
    ensures Vectored(DoStoreVector(w, s), row)
  {
    var pc := PcOf(w, s);
    assert ReadRow(w.db, pc.run.job, pc.rows[pc.done]);
    var i :| 0 <= i < |w.db.chunks| && w.db.chunks[i] == row;
    assert Answered(w.exchanges, pc.rows[pc.done + 0], pc.vectors[0]);
    assert HasChunk(w.db.chunks, row.id);
  }

  lemma StoreVectorKeepsRow(w: World, s: nat, row: ChunkRow)
    requires ValidChunks(w.db) && PcSound(w, PcOf(w, s)) && BodyEnabled(w, StoreVector(s))
    requires row in w.db.chunks && Vectored(w, row)
    ensures Vectored(DoStoreVector(w, s), row)
  {
    var pc := PcOf(w, s);
    assert Answered(w.exchanges, pc.rows[pc.done + 0], pc.vectors[0]);
    if row.id == pc.rows[pc.done].id { StoredIsAnswer(w, s, row); }
  }

  lemma StoreVectorKeeps(w: World, s: nat, job: JobId)
    requires Sound(w) && BodyEnabled(w, StoreVector(s))
    ensures JobKept(w, DoStoreVector(w, s), job)
  {
    assert PcSound(w, w.services[s].pc);
    forall row | row in RowsOf(w.db.chunks, job) && Vectored(w, row) ensures Vectored(DoStoreVector(w, s), row) {
      RowsOfMembers(w.db.chunks, job, row);
      StoreVectorKeepsRow(w, s, row);
    }
  }

  lemma ReplaceKeepsOthers(w: World, s: nat, job: JobId)
    requires Sound(w) && PcOf(w, s).Replacing? && job != PcOf(w, s).run.job
    ensures JobKept(w, DoStoreChunks(w, s), job)
  {
    var pc, w' := PcOf(w, s), DoStoreChunks(w, s);
    ReplacementIsValid(w, s);
    RowsAfterReplace(w.db, pc.run.job, pc.news, job);
    forall row | row in RowsOf(w.db.chunks, job) && Vectored(w, row) ensures Vectored(w', row) {
      RowsOfMembers(w.db.chunks, job, row);
      ReplaceKeepsOtherEmbeddings(w.db, pc.run.job, pc.news, row);
    }
  }

  predicate ReplacesChunksOf(w: World, a: Action, job: JobId) {
    a.StoreChunks? && PcOf(w, a.s).Replacing? && PcOf(w, a.s).run.job == job
  }

  /** Only a replacement of the job's own chunks can take any of its data away. */
  lemma ActKeepsJob(w: World, a: Action, job: JobId)
    requires Sound(w) && Enabled(w, a) && !ReplacesChunksOf(w, a, job)
    ensures JobKept(w, Act(w, a), job)
  {
    if a.StoreChunks? {
      ReplaceKeepsOthers(w, a.s, job);
    } else if a.StoreVector? {
      StoreVectorKeeps(w, a.s, job);
    } else if LeavesData(a) {
      DataIsLeft(w, a);
      SameDataIsKept(w, Act(w, a), job);
    } else {
      ReadingKeeps(w, a, job);
    }
  }

  lemma ChunkedKept(w: World, w': World, job: JobId, id: nat)
    requires JobKept(w, w', job) && id < |w.db.runs| && id < |w'.db.runs|
    requires w.db.runs[id].job == job == w'.db.runs[id].job && Chunked(w, id)
    requires id in w.sources ==> id in w'.sources && w'.sources[id] == w.sources[id]
    ensures Chunked(w', id)
  {
  }

  lemma PcTrackedKept(w: World, w': World, job: JobId, pc: Pc)
    requires PcTracked(w, job, pc) && JobKept(w, w', job) && Evolves(w.db, w'.db)
    requires HasRun(pc) ==> pc.run.id < |w.db.runs|
    requires pc.Executed? && pc.run.id in w.sources ==> pc.run.id in w'.sources && w'.sources[pc.run.id] == w.sources[pc.run.id]
    ensures PcTracked(w', job, pc)
  {
    if pc.Embedding? || pc.Executed? {
      assert RowEvolves(w.db.runs[pc.run.id], w'.db.runs[pc.run.id]);
      if pc.Executed? && pc.ok && pc.body == Chunk && IsOf(w.db, pc.run, job, Chunk) {
        ChunkedKept(w, w', job, pc.run.id);
      }
    }
  }

  lemma OthersStayTracked(w: World, a: Action, s: nat, job: JobId)
    requires Tracked(w, job) && Enabled(w, a) && s < |w.services| && !(a.ByService() && s == a.s)
    requires !ReplacesChunksOf(w, a, job)
    ensures PcTracked(Act(w, a), job, w.services[s].pc)
  {
    var pc := w.services[s].pc;
    assert PcTracked(w, job, pc) && PcSafe(w.db, w.owners, s, w.services[s].pc);
    ActKeepsJob(w, a, job);
    ActKeepsTables(w, a);
    if pc.Executed? && pc.run.id in w.sources {
      if a.ReadTranscript? { RunsDiffer(w, s, a.s); }
      SourceStays(w, a, pc.run.id);
    }
    PcTrackedKept(w, Act(w, a), job, pc);
  }

  // ----- the acting service

  lemma ReadChunksIsTracked(w: World, s: nat, job: JobId)
    requires ValidChunks(w.db) && BodyEnabled(w, ReadChunks(s))
    ensures PcTracked(DoReadChunks(w, s), job, PcOf(DoReadChunks(w, s), s))
  {
    FindByJobReadsRows(w.db, PcOf(w, s).run.job);
  }

  lemma AskEmbedderIsTracked(w: World, s: nat, reply: Option<seq<Vector>>, job: JobId)
    requires BodyEnabled(w, AskEmbedder(s, reply)) && PcTracked(w, job, PcOf(w, s))
    ensures PcTracked(DoAskEmbedder(w, s, reply), job, PcOf(DoAskEmbedder(w, s, reply), s))
  {
    MoreExchangesKeep(w, DoAskEmbedder(w, s, reply), job);
  }

  /** One vector more is stored for the row it answers. */
  lemma StoreVectorIsTracked(w: World, s: nat, job: JobId)
    requires Sound(w) && BodyEnabled(w, StoreVector(s)) && PcTracked(w, job, PcOf(w, s))
    ensures PcTracked(DoStoreVector(w, s), job, PcOf(DoStoreVector(w, s), s))
  {
    var pc, w' := w.services[s].pc, DoStoreVector(w, s);
    assert PcSound(w, pc);
    StoreVectorKeeps(w, s, job);
    if PcOf(w', s).Embedding? && IsOf(w.db, pc.run, job, Embed) {
      forall k | 0 <= k < pc.done + 1 ensures Vectored(w', pc.rows[k]) {
        if k == pc.done {
          RowsOfMembers(w.db.chunks, job, pc.rows[k]);
          StoredIsAnswer(w, s, pc.rows[k]);
        } else {
          assert pc.rows[k] in RowsOf(w.db.chunks, job) && Vectored(w, pc.rows[k]);
        }
      }
    }
  }

  lemma EndEmbeddingIsTracked(w: World, s: nat, job: JobId)
    requires BodyEnabled(w, EndEmbedding(s)) && PcTracked(w, job, PcOf(w, s))
    ensures PcTracked(ActBody(w, EndEmbedding(s)), job, PcOf(ActBody(w, EndEmbedding(s)), s))
  {
    var pc, w' := PcOf(w, s), ActBody(w, EndEmbedding(s));
    assert w'.db == w.db && w'.exchanges == w.exchanges;
    if IsOf(w.db, pc.run, job, Embed) {
      forall row | row in RowsOf(w.db.chunks, job) ensures Vectored(w', row) {
        var k :| 0 <= k < |pc.rows| && pc.rows[k] == row;
        assert Vectored(w, pc.rows[k]);
      }
    }
  }

  /** The chunk run's replacement is the split of what its body read. */
  lemma StoreChunksIsTracked(w: World, s: nat, job: JobId)
    requires Sound(w) && PcOf(w, s).Replacing?
    ensures PcTracked(DoStoreChunks(w, s), job, PcOf(DoStoreChunks(w, s), s))
  {
    var pc := w.services[s].pc;
    assert PcSound(w, pc);
    ReplacementIsValid(w, s);
    RowsAfterReplace(w.db, pc.run.job, pc.news, pc.run.job);
  }

  lemma OtherBodiesAreTracked(w: World, a: Action, job: JobId)
    requires IsBody(a) && BodyEnabled(w, a) && (a.Extracted? || a.ExtractFailed? || a.BailOut? || a.ReadTranscript?)
    ensures PcTracked(ActBody(w, a), job, PcOf(ActBody(w, a), a.s))
  {
  }

  lemma LoopIsTracked(w: World, a: Action, job: JobId)
    requires a.ByService() && !IsBody(a) && LoopEnabled(w, a)
    ensures PcTracked(ActLoop(w, a), job, PcOf(ActLoop(w, a), a.s))
  {
    var pc := PcOf(ActLoop(w, a), a.s);
    assert !pc.Embedding? && !pc.Executed?;
  }

  lemma OwnStepIsTracked(w: World, a: Action, job: JobId)
    requires Tracked(w, job) && Enabled(w, a) && a.ByService()
    ensures PcTracked(Act(w, a), job, PcOf(Act(w, a), a.s))
  {
    if !IsBody(a) {
      LoopIsTracked(w, a, job);
    } else {
      BodyIsInBody(w, a);
      assert PcTracked(w, job, w.services[a.s].pc);
      if a.StoreChunks? {
        StoreChunksIsTracked(w, a.s, job);
      } else if a.ReadChunks? {
        ReadChunksIsTracked(w, a.s, job);
      } else if a.AskEmbedder? {
        AskEmbedderIsTracked(w, a.s, a.reply, job);
      } else if a.StoreVector? {
        StoreVectorIsTracked(w, a.s, job);
      } else if a.EndEmbedding? {
        EndEmbeddingIsTracked(w, a.s, job);
      } else {
        OtherBodiesAreTracked(w, a, job);
      }
    }
  }

  // ----- runs that succeed

  /** A run succeeds only by its owner's finish, after a body of its own step. */
  lemma SuccessComesFromFinish(w: World, a: Action, id: nat)
    requires Safe(w) && Enabled(w, a) && id < |w.db.runs|
    requires w.db.runs[id].status == RunningText
    requires id < |Act(w, a).db.runs| && Act(w, a).db.runs[id].status == SucceededText
    ensures a.FinishRun? && PcOf(w, a.s).run.id == id && PcOf(w, a.s).ok && PcOf(w, a.s).body == w.db.runs[id].step
  {
    if !Ends(w, a, id) { OtherRowsStay(w, a, id); }
    if a.AbortRun? { AbortedRowsEnd(w, a, id); }
    if a.FinishRun? {
      var pc := w.services[a.s].pc;
      assert PcSafe(w.db, w.owners, a.s, w.services[a.s].pc);
      FinishOutcome(w.db, id, if pc.ok then Success else Failure(a.error));
    }
  }

  lemma FinishIsTracked(w: World, a: Action, w': World, job: JobId, id: nat)
    requires id < |w.db.runs| && id < |w'.db.runs| && RowEvolves(w.db.runs[id], w'.db.runs[id])
    requires a.FinishRun? && PcOf(w, a.s).Executed? && PcOf(w, a.s).run.id == id
    requires PcOf(w, a.s).ok && PcOf(w, a.s).body == w.db.runs[id].step
    requires Tracked(w, job) && Enabled(w, a) && w' == Act(w, a)
    ensures RunTracked(w', job, id)
  {
    var pc := w.services[a.s].pc;
    assert PcTracked(w, job, pc) && PcSafe(w.db, w.owners, a.s, w.services[a.s].pc);
    DataIsLeft(w, a);
  }

  lemma SucceededStaysTracked(w: World, a: Action, job: JobId, id: nat)
    requires Tracked(w, job) && Enabled(w, a) && !ReplacesChunksOf(w, a, job)
    requires id < |w.db.runs| && id < |Act(w, a).db.runs|
    requires w.db.runs[id].status == SucceededText && RowEvolves(w.db.runs[id], Act(w, a).db.runs[id])
    ensures RunTracked(Act(w, a), job, id)
  {
    assert RunTracked(w, job, id);
    ActKeepsJob(w, a, job);
    if id in w.sources {
      if a.ReadTranscript? { assert PcSound(w, w.services[a.s].pc); }
      SourceStays(w, a, id);
    }
  }

  lemma RunsStayTracked(w: World, a: Action, job: JobId, id: nat)
    requires Tracked(w, job) && Enabled(w, a) && !ReplacesChunksOf(w, a, job)
    requires Evolves(w.db, Act(w, a).db) && id < |Act(w, a).db.runs|
    ensures RunTracked(Act(w, a), job, id)
  {
    var w' := Act(w, a);
    if w'.db.runs[id].status == SucceededText {
      assert !w'.db.runs[id].Active();
      assert RowEvolves(w.db.runs[id], w'.db.runs[id]);
      if w.db.runs[id].status == SucceededText {
        SucceededStaysTracked(w, a, job, id);
      } else {
        SuccessComesFromFinish(w, a, id);
        FinishIsTracked(w, a, w', job, id);
      }
    }
  }

  // ----- all together

  /** Before the job is settled, its chunks may be replaced at will. */
  lemma UnsettledStaysTracked(w: World, a: Action, job: JobId)
    requires Tracked(w, job) && Enabled(w, a) && ReplacesChunksOf(w, a, job) && !Settled(w, job)
    ensures Tracked(Act(w, a), job)
  {
    var w' := Act(w, a);
    ActKeepsSound(w, a);
    HistoryIsLeft(w, a);
    Wakeups.OthersAreUntouched(w, a);
    UnsettledIsTracked(w, w', job);
    StoreChunksIsTracked(w, a.s, job);
    forall s | 0 <= s < |w'.services| ensures PcTracked(w', job, w'.services[s].pc) {
      if s != a.s { assert PcTracked(w', job, w.services[s].pc); }
    }
  }

  /** Every action that does not replace the chunks of a settled job keeps what is known of its data. */
  lemma ActKeepsTracked(w: World, a: Action, job: JobId)
    requires Tracked(w, job) && Enabled(w, a) && !Spoils(w, a, job)
    ensures Tracked(Act(w, a), job)
  {
    if ReplacesChunksOf(w, a, job) {
      UnsettledStaysTracked(w, a, job);
    } else {
      var w' := Act(w, a);
      ActKeepsSound(w, a);
      ActKeepsTables(w, a);
      Wakeups.OthersAreUntouched(w, a);
      forall s | 0 <= s < |w'.services| ensures PcTracked(w', job, w'.services[s].pc) {
        if a.ByService() && s == a.s { OwnStepIsTracked(w, a, job); } else { OthersStayTracked(w, a, s, job); }
      }
      forall id | 0 <= id < |w'.db.runs| ensures RunTracked(w', job, id) {
        RunsStayTracked(w, a, job, id);
      }
    }
  }

  lemma InitIsTracked(w: World, job: JobId)
    requires Init(w)
    ensures Tracked(w, job)
  {
    InitIsSafe(w);
  }

  /** Run `c` is the job's chunk run, and the rows are the split of the transcript its body read. */
  ghost predicate ChunksOfRun(w: World, job: JobId, c: nat, rows: seq<ChunkRow>) {
    && c < |w.db.runs| && w.db.runs[c].job == job && w.db.runs[c].step == Chunk
    && c in w.sources && Stores(rows, Chunking.Split(w.sources[c]))
  }

  /**
   The job has chunks, at positions 0, 1, 2, ..., they are the split of the transcript its chunk
   run read, and each has the vector the embedder answered to that chunk's heading and content.
   */
  ghost predicate Indexed(w: World, job: JobId) {
    var rows := FindByJob(w.db.chunks, job);
    && rows != []
    && Contiguous(rows, 0)
    && (exists c: nat {:trigger ChunksOfRun(w, job, c, rows)} :: ChunksOfRun(w, job, c, rows))
    && (forall row :: row in rows ==> Vectored(w, row))
  }

  lemma CompletedRuns(w: World, job: JobId) returns (c: nat, e: nat)
    requires Valid(w.db) && job in w.db.jobs && w.db.jobs[job] == Completed
    ensures HasSucceeded(w, c, job) && e < |w.db.runs|
    ensures w.db.runs[e].job == job && w.db.runs[e].step == Embed && w.db.runs[e].status == SucceededText
  {
    assert Reached(w.db.jobs, w.db.runs, job);
    e :| e < |w.db.runs| && w.db.runs[e].job == job && w.db.runs[e].step == Embed && w.db.runs[e].status == SucceededText;
    assert HasGate(w.db.runs, e);
    c :| Follows(w.db.runs, c, e);
  }

  lemma CompletedIsIndexed(w: World, job: JobId)
    requires Tracked(w, job) && job in w.db.jobs && w.db.jobs[job] == Completed
    ensures Indexed(w, job)
  {
    var c, e := CompletedRuns(w, job);
    assert RunTracked(w, job, c) && RunTracked(w, job, e);
    FindByJobReadsRows(w.db, job);
    assert Contiguous(RowsOf(w.db.chunks, job), 0);
    assert ChunksOfRun(w, job, c, FindByJob(w.db.chunks, job));
  }

  // ----- the condition is exact for a completed job

  /** Replacing the chunks of a completed job leaves it with chunks, and not one of them with a vector. */
  lemma ReplacingStrands(w: World, s: nat)
    requires Sound(w) && PcOf(w, s).Replacing?
    ensures
      var db := DoStoreChunks(w, s).db;
      var rows := FindByJob(db.chunks, PcOf(w, s).run.job);
      rows != [] && forall row :: row in rows ==> row.id !in db.embeddings
  {
    var pc, db := PcOf(w, s), DoStoreChunks(w, s).db;
    ReplacementIsValid(w, s);
    RowsAfterReplace(w.db, pc.run.job, pc.news, pc.run.job);
    FindByJobReadsRows(db, pc.run.job);
    forall row | row in RowsOf(db.chunks, pc.run.job) ensures row.id !in db.embeddings {
      assert row.id >= w.db.nextChunk;
    }
  }

  lemma ReplacedIsNotIndexed(w: World, s: nat)
    requires Sound(w) && PcOf(w, s).Replacing?
    ensures !Indexed(DoStoreChunks(w, s), PcOf(w, s).run.job)
  {
    ReplacingStrands(w, s);
    var rows := FindByJob(DoStoreChunks(w, s).db.chunks, PcOf(w, s).run.job);
    if rows != [] { assert rows[0] in rows && !Vectored(DoStoreChunks(w, s), rows[0]); }
  }

  lemma UnspoiledStaysIndexed(w: World, a: Action, job: JobId)
    requires Tracked(w, job) && Enabled(w, a) && job in w.db.jobs && w.db.jobs[job] == Completed && !Spoils(w, a, job)
    ensures Indexed(Act(w, a), job)
  {
    ActKeepsTracked(w, a, job);
    ActKeepsTables(w, a);
    CompletedIsIndexed(Act(w, a), job);
  }

  /** A completed job stays indexed under an action exactly if the action does not replace its chunks. */
  lemma CompletedStaysIndexedIff(w: World, a: Action, job: JobId)
    requires Tracked(w, job) && Enabled(w, a) && job in w.db.jobs && w.db.jobs[job] == Completed
    ensures Indexed(Act(w, a), job) <==> !Spoils(w, a, job)
  {
    if Spoils(w, a, job) { ReplacedIsNotIndexed(w, a.s); } else { UnspoiledStaysIndexed(w, a, job); }
  }

  // ----- a guard that is enough

  /** A load that finds the job on another step than its run's. */
  predicate Mismatched(w: World, a: Action, job: JobId) {
    && a.Load? && PcOf(w, a.s).Begun? && PcOf(w, a.s).run.job == job
    && job in w.db.jobs && w.db.jobs[job] != PcOf(w, a.s).run.step
  }

  /** Every service on the job is in the body of its run's own step. */
  ghost predicate Matched(w: World, job: JobId) {
    forall s {:trigger w.services[s]} :: 0 <= s < |w.services| ==>
      var pc := w.services[s].pc; InBody(pc) && pc.run.job == job ==> BodyStep(pc) == pc.run.step
  }

  lemma OwnStepIsMatched(w: World, a: Action, job: JobId)
    requires Enabled(w, a) && a.ByService() && !Mismatched(w, a, job)
    requires var pc := PcOf(w, a.s); InBody(pc) && pc.run.job == job ==> BodyStep(pc) == pc.run.step
    ensures var pc := PcOf(Act(w, a), a.s); InBody(pc) && pc.run.job == job ==> BodyStep(pc) == pc.run.step
  {
    if IsBody(a) { BodyIsInPlace(w, a); }
  }

  lemma ActKeepsMatched(w: World, a: Action, job: JobId)
    requires Matched(w, job) && Enabled(w, a) && !Mismatched(w, a, job)
    ensures Matched(Act(w, a), job)
  {
    var w' := Act(w, a);
    Wakeups.OthersAreUntouched(w, a);
    forall s | 0 <= s < |w'.services|
      ensures var pc := w'.services[s].pc; InBody(pc) && pc.run.job == job ==> BodyStep(pc) == pc.run.step
    {
      if a.ByService() && s == a.s {
        assert s < |w.services| && w.services[s] == w.services[s];
        OwnStepIsMatched(w, a, job);
      }
    }
  }

  /** Where every load has found the run's own step, nothing spoils. */
  lemma MatchedSpoilsNothing(w: World, a: Action, job: JobId)
    requires Sound(w) && Matched(w, job)
    ensures !Spoils(w, a, job)
  {
    if ReplacesChunksOf(w, a, job) {
      var pc := w.services[a.s].pc;
      assert BodyStep(pc) == pc.run.step;
      OwnStoreIsFirst(w, a.s);
    }
  }

  /** Without aborts of the job every load finds the run's own step. */
  lemma UnabortedLoadMatches(w: World, a: Action, job: JobId)
    requires Sound(w) && forall i :: 0 <= i < |w.db.runs| && w.db.runs[i].job == job ==> w.db.runs[i].status != AbortedText
    ensures !Mismatched(w, a, job)
  {
    if a.Load? && PcOf(w, a.s).Begun? && PcOf(w, a.s).run.job == job {
      var run := PcOf(w, a.s).run;
      assert PcSound(w, w.services[a.s].pc) && PcSafe(w.db, w.owners, a.s, w.services[a.s].pc);
      assert w.db.runs[run.id].Active();
    }
  }
}
