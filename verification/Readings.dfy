/**
 What services have read and stored, in every run: the chunk table is valid, and whatever
 body a service is in, of its own run's step or of a stale one, what it holds was read from
 the tables or answered by the embedder.
 */
module Readings {
  import opened Wrappers
  import opened Ingestion
  import opened Tables
  import opened History
  import opened Transitions
  import opened ChunkTable
  import opened Protocol
  import opened Safety
  import Wakeups

  // ----- answers

  /** At place `k` of exchange `e` the input is the chunk's heading and content, and the answer is `vector`. */
  predicate AnsweredAt(exchanges: seq<Exchange>, e: nat, k: nat, row: ChunkRow, vector: Vector) {
    && e < |exchanges| && k < |exchanges[e].inputs| && k < |exchanges[e].vectors|
    && IsInputOf(exchanges[e].inputs[k], row.heading, row.content)
    && exchanges[e].vectors[k] == vector
  }

  /** The embedder answered `vector`, of the right length, to the chunk's heading and content. */
  ghost predicate Answered(exchanges: seq<Exchange>, row: ChunkRow, vector: Vector) {
    |vector| == 1024 && exists e, k :: AnsweredAt(exchanges, e, k, row, vector)
  }

  /** The chunk has the embedder's answer to its heading and content. */
  ghost predicate Vectored(w: World, row: ChunkRow) {
    row.id in w.db.embeddings
      && Answered(w.exchanges, row, w.db.embeddings[row.id])
  }

  /** The vectors not stored yet answer the rows from `done` on. */
  ghost predicate Waiting(exchanges: seq<Exchange>, rows: seq<ChunkRow>, done: nat, vectors: seq<Vector>)
    requires done + |vectors| <= |rows|
  {
    forall i :: 0 <= i < |vectors| ==> Answered(exchanges, rows[done + i], vectors[i])
  }

  // ----- what holds in every run

  /** The run of a body is not over, but for an abort. */
  predicate Open(db: Tables, run: StepRun) {
    run.id < |db.runs| && (db.runs[run.id].status == RunningText || db.runs[run.id].status == AbortedText)
  }

  /** A row read from the job's chunks: whatever chunk still has its id is that very row. */
  ghost predicate ReadRow(db: Tables, job: JobId, row: ChunkRow) {
    && row.job == job
    && row.id < db.nextChunk
    && forall i :: 0 <= i < |db.chunks| && db.chunks[i].id == row.id ==> db.chunks[i] == row
  }

  ghost predicate ReadRows(db: Tables, job: JobId, rows: seq<ChunkRow>) {
    forall k {:trigger ReadRow(db, job, rows[k])} :: 0 <= k < |rows| ==> ReadRow(db, job, rows[k])
  }

  /** What a service in a body has read, whichever body it is. */
  ghost predicate PcSound(w: World, pc: Pc) {
    && (pc.Begun? || InBody(pc) ==> Open(w.db, pc.run))
    && (pc.Replacing? ==> pc.run.id in w.sources && NewChunks(w.sources[pc.run.id]) == Some(pc.news))
    && (pc.Embedding? ==>
      && pc.done + |pc.vectors| <= |pc.rows|
      && ReadRows(w.db, pc.run.job, pc.rows)
      && Waiting(w.exchanges, pc.rows, pc.done, pc.vectors))
  }

  ghost predicate Sound(w: World) {
    && Safe(w)
    && ValidChunks(w.db)
    && (forall s {:trigger w.services[s]} :: 0 <= s < |w.services| ==> PcSound(w, w.services[s].pc))
  }

  // ----- which rows an action changes

  /** The row an action may change although it is not pending. */
  predicate Ends(w: World, a: Action, id: nat)
    requires Enabled(w, a) && id < |w.db.runs|
  {
    (a.FinishRun? && PcOf(w, a.s).run.id == id) || (a.AbortRun? && w.db.runs[id].job == a.job)
  }

  lemma UpdateKeepsRow(t: Tables, where: Where, change: Change, id: nat)
    requires id < |t.runs| && !Matches(where, t.runs[id])
    ensures var runs := Update(t, where, change).0.runs; id < |runs| && runs[id] == t.runs[id]
  {
  }

  lemma ContinueKeepsRow(t: Tables, job: JobId, id: nat)
    requires Valid(t) && id < |t.runs|
    ensures var runs := ContinueJob(t, job).0.runs; id < |runs| && runs[id] == t.runs[id]
  {
    ContinueJobOutcome(t, job);
  }

  lemma OtherRowsStay(w: World, a: Action, id: nat)
    requires Safe(w) && Enabled(w, a) && id < |w.db.runs|
    requires w.db.runs[id].status != PendingText && !Ends(w, a, id)
    ensures id < |Act(w, a).db.runs| && Act(w, a).db.runs[id] == w.db.runs[id]
  {
    if a.Claim? || a.FinishRun? || a.AbortRun? {
      ActIsUpdate(w, a);
      assert w.db.runs[id].id == id;
      UpdateKeepsRow(w.db, WhereOf(w, a), ChangeOf(w, a), id);
    } else if a.Continue? {
      ActIsContinue(w, a);
      ContinueKeepsRow(w.db, PcOf(w, a.s).run.job, id);
    } else if LeavesHistory(a) {
      HistoryIsLeft(w, a);
    } else {
      CommandKeepsRows(w, a, id);
    }
  }

  lemma CommandKeepsRows(w: World, a: Action, id: nat)
    requires Valid(w.db) && Enabled(w, a) && (a.Start? || a.Validate? || a.Restart?) && id < |w.db.runs|
    ensures id < |Act(w, a).db.runs| && Act(w, a).db.runs[id] == w.db.runs[id]
  {
    match a {
      case Start(job) => StartJobOutcome(w.db, job);
      case Validate(job) => ValidateJobOutcome(w.db, job);
      case Restart(job) => RestartJobOutcome(w.db, job);
    }
  }

  /** An abort turns running rows of its job into aborted ones. */
  lemma AbortedRowsEnd(w: World, a: Action, id: nat)
    requires Safe(w) && Enabled(w, a) && a.AbortRun? && id < |w.db.runs|
    requires w.db.runs[id].status == RunningText || w.db.runs[id].status == AbortedText
    ensures id < |Act(w, a).db.runs|
    ensures var status := Act(w, a).db.runs[id].status; status == w.db.runs[id].status || status == AbortedText
  {
    ActIsUpdate(w, a);
  }

  /** Two services never have the same run. */
  lemma RunsDiffer(w: World, s: nat, s': nat)
    requires Safe(w) && s != s' && HasRun(PcOf(w, s)) && HasRun(PcOf(w, s'))
    ensures PcOf(w, s).run.id != PcOf(w, s').run.id
  {
    assert PcSafe(w.db, w.owners, s, w.services[s].pc) && PcSafe(w.db, w.owners, s', w.services[s'].pc);
  }

  lemma AnsweredGrows(exchanges: seq<Exchange>, exchanges': seq<Exchange>, row: ChunkRow, vector: Vector)
    requires exchanges <= exchanges' && Answered(exchanges, row, vector)
    ensures Answered(exchanges', row, vector)
  {
    var e, k :| AnsweredAt(exchanges, e, k, row, vector);
    assert AnsweredAt(exchanges', e, k, row, vector);
  }

  lemma WaitingGrows(exchanges: seq<Exchange>, exchanges': seq<Exchange>, rows: seq<ChunkRow>, done: nat, vectors: seq<Vector>)
    requires done + |vectors| <= |rows| && exchanges <= exchanges' && Waiting(exchanges, rows, done, vectors)
    ensures Waiting(exchanges', rows, done, vectors)
  {
    forall i | 0 <= i < |vectors| ensures Answered(exchanges', rows[done + i], vectors[i]) {
      AnsweredGrows(exchanges, exchanges', rows[done + i], vectors[i]);
    }
  }

  // ----- what each action does to the data

  /** The actions that touch no chunk, vector, source or exchange. */
  predicate LeavesData(a: Action) {
    !a.ReadTranscript? && !a.StoreChunks? && !a.AskEmbedder? && !a.StoreVector?
  }

  predicate SameChunks(t: Tables, t': Tables) {
    t'.chunks == t.chunks && t'.embeddings == t.embeddings && t'.nextChunk == t.nextChunk
  }

  predicate SameData(w: World, w': World) {
    SameChunks(w.db, w'.db) && w'.sources == w.sources && w'.exchanges == w.exchanges
  }

  lemma CommandsLeaveChunks(t: Tables, job: JobId)
    ensures SameChunks(t, StartJob(t, job).0)
    ensures SameChunks(t, ValidateJob(t, job).0)
    ensures SameChunks(t, RestartJob(t, job).0)
  {
  }

  lemma ContinueLeavesChunks(t: Tables, job: JobId)
    ensures SameChunks(t, ContinueJob(t, job).0)
  {
  }

  lemma UpdateLeavesChunks(t: Tables, where: Where, change: Change)
    ensures SameChunks(t, Update(t, where, change).0)
  {
  }

  lemma LoopLeavesData(w: World, a: Action)
    requires a.ByService() && !IsBody(a) && LoopEnabled(w, a)
    ensures SameData(w, ActLoop(w, a))
  {
    if a.Claim? || a.FinishRun? {
      UpdateLeavesChunks(w.db, WhereOf(w, a), ChangeOf(w, a));
    } else if a.Continue? {
      ContinueLeavesChunks(w.db, PcOf(w, a.s).run.job);
    }
  }

  lemma DataIsLeft(w: World, a: Action)
    requires Enabled(w, a) && LeavesData(a)
    ensures SameData(w, Act(w, a))
  {
    if !a.ByService() {
      CommandsLeaveChunks(w.db, a.job);
      UpdateLeavesChunks(w.db, ActiveOf(a.job), ToAborted);
    } else if !IsBody(a) {
      LoopLeavesData(w, a);
    }
  }

  lemma BodyIsInBody(w: World, a: Action)
    requires IsBody(a) && BodyEnabled(w, a)
    ensures InBody(PcOf(w, a.s))
  {
  }

  // ----- every action keeps it

  /** The service not acting keeps an open run: at worst it is aborted. */
  lemma OthersStayOpen(w: World, a: Action, s: nat)
    requires Safe(w) && Enabled(w, a) && s < |w.services| && !(a.ByService() && s == a.s)
    requires PcOf(w, s).Begun? || InBody(PcOf(w, s))
    requires Open(w.db, PcOf(w, s).run)
    ensures Open(Act(w, a).db, PcOf(w, s).run)
  {
    var run := PcOf(w, s).run;
    if a.FinishRun? { RunsDiffer(w, s, a.s); }
    if !Ends(w, a, run.id) { OtherRowsStay(w, a, run.id); } else { AbortedRowsEnd(w, a, run.id); }
  }

  /** What the sources and the chunk table may turn into, as far as other services can tell. */
  ghost predicate DataEvolves(w: World, w': World) {
    && w.exchanges <= w'.exchanges
    && w.db.nextChunk <= w'.db.nextChunk
    && forall i {:trigger w'.db.chunks[i]} :: 0 <= i < |w'.db.chunks| ==>
        w'.db.chunks[i] in w.db.chunks || w'.db.chunks[i].id >= w.db.nextChunk
  }

  lemma ReplaceEvolves(w: World, s: nat)
    requires PcOf(w, s).Replacing? && ValidChunks(w.db)
    ensures DataEvolves(w, DoStoreChunks(w, s))
  {
    var pc := PcOf(w, s);
    if DistinctPositions(pc.news) {
      DeleteKeepsDistinctIds(w.db.chunks, pc.run.job, w.db.nextChunk);
      var kept, added := DeleteByJob(w.db.chunks, pc.run.job), Numbered(pc.run.job, pc.news, w.db.nextChunk);
      var t := DoStoreChunks(w, s).db;
      assert t.chunks == kept + added;
      forall i | 0 <= i < |t.chunks| ensures t.chunks[i] in w.db.chunks || t.chunks[i].id >= w.db.nextChunk {
        if i < |kept| { assert t.chunks[i] == kept[i] && kept[i] in kept; } else { assert t.chunks[i] == added[i - |kept|]; }
      }
    }
  }

  lemma ReadingEvolves(w: World, a: Action)
    requires Enabled(w, a) && (a.ReadTranscript? || a.AskEmbedder? || a.StoreVector?)
    ensures Act(w, a).db.chunks == w.db.chunks && Act(w, a).db.nextChunk == w.db.nextChunk
    ensures DataEvolves(w, Act(w, a))
  {
  }

  lemma ActEvolvesData(w: World, a: Action)
    requires Enabled(w, a) && ValidChunks(w.db)
    ensures DataEvolves(w, Act(w, a))
  {
    if a.StoreChunks? {
      ReplaceEvolves(w, a.s);
    } else if LeavesData(a) {
      DataIsLeft(w, a);
    } else {
      ReadingEvolves(w, a);
    }
  }

  lemma ReadRowStays(w: World, w': World, job: JobId, row: ChunkRow)
    requires DataEvolves(w, w') && ReadRow(w.db, job, row)
    ensures ReadRow(w'.db, job, row)
  {
    forall i | 0 <= i < |w'.db.chunks| && w'.db.chunks[i].id == row.id ensures w'.db.chunks[i] == row {
      var k :| 0 <= k < |w.db.chunks| && w.db.chunks[k] == w'.db.chunks[i];
    }
  }

  lemma ReadRowsStay(w: World, w': World, job: JobId, rows: seq<ChunkRow>)
    requires DataEvolves(w, w') && ReadRows(w.db, job, rows)
    ensures ReadRows(w'.db, job, rows)
  {
    forall k | 0 <= k < |rows| ensures ReadRow(w'.db, job, rows[k]) {
      ReadRowStays(w, w', job, rows[k]);
    }
  }

  /** No action of another service touches the transcript a run's body has read. */
  lemma SourceStays(w: World, a: Action, id: nat)
    requires Enabled(w, a) && id in w.sources && (a.ReadTranscript? ==> PcOf(w, a.s).run.id != id)
    ensures id in Act(w, a).sources && Act(w, a).sources[id] == w.sources[id]
  {
    if LeavesData(a) { DataIsLeft(w, a); }
  }

  lemma OthersStaySound(w: World, a: Action, s: nat)
    requires Sound(w) && Enabled(w, a) && s < |w.services| && !(a.ByService() && s == a.s)
    ensures PcSound(Act(w, a), w.services[s].pc)
  {
    var pc, w' := w.services[s].pc, Act(w, a);
    if pc.Begun? || InBody(pc) { OthersStayOpen(w, a, s); }
    if pc.Replacing? {
      if a.ReadTranscript? { RunsDiffer(w, s, a.s); }
      SourceStays(w, a, pc.run.id);
    }
    if pc.Embedding? {
      ActEvolvesData(w, a);
      ReadRowsStay(w, w', pc.run.job, pc.rows);
      WaitingGrows(w.exchanges, w'.exchanges, pc.rows, pc.done, pc.vectors);
    }
  }

  lemma ClaimIsOpen(w: World, s: nat)
    requires Safe(w) && PcOf(w, s).Claiming?
    ensures PcSound(DoClaim(w, s), PcOf(DoClaim(w, s), s))
  {
    UpdateTouchesOne(w.db, PendingOf(PcOf(w, s).job), ToRunning);
  }

  lemma ContinuedIsOpen(w: World, s: nat)
    requires PcOf(w, s).Advancing? && PcOf(w, s).run.job in w.db.jobs && Continues(w.db, PcOf(w, s).run)
    ensures PcSound(DoContinue(w, s), PcOf(DoContinue(w, s), s))
  {
  }

  lemma LoopStaysSound(w: World, a: Action)
    requires Sound(w) && a.ByService() && !IsBody(a) && LoopEnabled(w, a)
    ensures PcSound(ActLoop(w, a), PcOf(ActLoop(w, a), a.s))
  {
    if a.Claim? {
      ClaimIsOpen(w, a.s);
    } else if a.Continue? {
      AdvancingContinues(w, a.s);
      ContinuedIsOpen(w, a.s);
    } else if a.Load? {
      assert PcSound(w, w.services[a.s].pc);
    }
  }

  lemma ReadTranscriptIsSound(w: World, s: nat)
    requires BodyEnabled(w, ReadTranscript(s)) && Open(w.db, PcOf(w, s).run)
    ensures PcSound(DoReadTranscript(w, s), PcOf(DoReadTranscript(w, s), s))
  {
  }

  /** The rows the query returns are rows of the table. */
  lemma FoundRowsAreRead(t: Tables, job: JobId)
    requires ValidChunks(t)
    ensures ReadRows(t, job, FindByJob(t.chunks, job))
  {
    FindByJobReadsRows(t, job);
    var rows := RowsOf(t.chunks, job);
    forall k | 0 <= k < |rows| ensures ReadRow(t, job, rows[k]) {
      RowsOfMembers(t.chunks, job, rows[k]);
      var j :| 0 <= j < |t.chunks| && t.chunks[j] == rows[k];
      forall i | 0 <= i < |t.chunks| && t.chunks[i].id == rows[k].id ensures t.chunks[i] == rows[k] {
        if t.chunks[i] != rows[k] { IdsDiffer(t, t.chunks[i], rows[k]); }
      }
    }
  }

  lemma ReadChunksIsSound(w: World, s: nat)
    requires ValidChunks(w.db) && BodyEnabled(w, ReadChunks(s)) && Open(w.db, PcOf(w, s).run)
    ensures PcSound(DoReadChunks(w, s), PcOf(DoReadChunks(w, s), s))
  {
    FoundRowsAreRead(w.db, PcOf(w, s).run.job);
  }

  /** Each vector of an accepted reply answers the row at its own place. */
  lemma ReplyAnswers(exchanges: seq<Exchange>, batch: seq<ChunkRow>, reply: seq<Vector>, i: nat)
    requires CheckEmbeddings(|batch|, reply) && i < |batch|
    ensures Answered(exchanges + [Exchange(Inputs(batch), reply)], batch[i], reply[i])
  {
    assert AnsweredAt(exchanges + [Exchange(Inputs(batch), reply)], |exchanges|, i, batch[i], reply[i]);
  }

  lemma ReplyWaits(exchanges: seq<Exchange>, rows: seq<ChunkRow>, done: nat, reply: seq<Vector>)
    requires done < |rows| && CheckEmbeddings(BatchEnd(done, |rows|) - done, reply)
    ensures
      var batch := rows[done..BatchEnd(done, |rows|)];
      Waiting(exchanges + [Exchange(Inputs(batch), reply)], rows, done, reply)
  {
    var batch := rows[done..BatchEnd(done, |rows|)];
    forall i | 0 <= i < |reply|
      ensures Answered(exchanges + [Exchange(Inputs(batch), reply)], rows[done + i], reply[i])
    {
      ReplyAnswers(exchanges, batch, reply, i);
    }
  }

  lemma AskEmbedderIsSound(w: World, s: nat, reply: Option<seq<Vector>>)
    requires BodyEnabled(w, AskEmbedder(s, reply)) && PcSound(w, PcOf(w, s))
    ensures PcSound(DoAskEmbedder(w, s, reply), PcOf(DoAskEmbedder(w, s, reply), s))
  {
    var pc, w' := PcOf(w, s), DoAskEmbedder(w, s, reply);
    if PcOf(w', s).Embedding? {
      ReadRowsStay(w, w', pc.run.job, pc.rows);
      ReplyWaits(w.exchanges, pc.rows, pc.done, reply.value);
    }
  }

  lemma WaitingShifts(exchanges: seq<Exchange>, rows: seq<ChunkRow>, done: nat, vectors: seq<Vector>)
    requires vectors != [] && done + |vectors| <= |rows| && Waiting(exchanges, rows, done, vectors)
    ensures Waiting(exchanges, rows, done + 1, vectors[1..])
  {
    forall i | 0 <= i < |vectors| - 1 ensures Answered(exchanges, rows[done + 1 + i], vectors[1..][i]) {
      assert vectors[1..][i] == vectors[i + 1] && done + 1 + i == done + (i + 1);
    }
  }

  lemma StoreVectorIsSound(w: World, s: nat)
    requires BodyEnabled(w, StoreVector(s)) && PcSound(w, PcOf(w, s))
    ensures PcSound(DoStoreVector(w, s), PcOf(DoStoreVector(w, s), s))
  {
    var pc, w' := PcOf(w, s), DoStoreVector(w, s);
    if PcOf(w', s).Embedding? {
      ReadRowsStay(w, w', pc.run.job, pc.rows);
      WaitingShifts(w.exchanges, pc.rows, pc.done, pc.vectors);
    }
  }

  lemma EndingIsSound(w: World, a: Action)
    requires (a.Extracted? || a.ExtractFailed? || a.BailOut? || a.EndEmbedding? || a.StoreChunks?) && BodyEnabled(w, a)
    requires PcSound(w, PcOf(w, a.s))
    ensures PcSound(ActBody(w, a), PcOf(ActBody(w, a), a.s))
  {
    BodyIsInPlace(w, a);
    assert PcOf(ActBody(w, a), a.s).Executed?;
  }

  lemma BodyStaysSound(w: World, a: Action)
    requires Sound(w) && IsBody(a) && BodyEnabled(w, a)
    ensures PcSound(ActBody(w, a), PcOf(ActBody(w, a), a.s))
  {
    BodyIsInBody(w, a);
    assert PcSound(w, w.services[a.s].pc);
    if a.ReadTranscript? {
      ReadTranscriptIsSound(w, a.s);
    } else if a.ReadChunks? {
      ReadChunksIsSound(w, a.s);
    } else if a.AskEmbedder? {
      AskEmbedderIsSound(w, a.s, a.reply);
    } else if a.StoreVector? {
      StoreVectorIsSound(w, a.s);
    } else {
      EndingIsSound(w, a);
    }
  }

  lemma NewChunksCountUp(text: string)
    ensures NewChunks(text).Some? ==> CountedUp(NewChunks(text).value)
  {
  }

  /** A replacement is never refused, whichever run it is made for. */
  lemma ReplacementIsValid(w: World, s: nat)
    requires Sound(w) && PcOf(w, s).Replacing?
    ensures CountedUp(PcOf(w, s).news) && DistinctPositions(PcOf(w, s).news) && PcOf(w, s).news != []
    ensures ValidChunks(DoStoreChunks(w, s).db)
  {
    var pc := w.services[s].pc;
    assert PcSound(w, pc);
    NewChunksCountUp(w.sources[pc.run.id]);
    ReplaceKeepsValidChunks(w.db, pc.run.job, pc.news);
  }

  lemma StoreVectorIsValid(w: World, s: nat)
    requires ValidChunks(w.db) && BodyEnabled(w, StoreVector(s))
    ensures ValidChunks(DoStoreVector(w, s).db)
  {
  }

  lemma ActKeepsValidChunks(w: World, a: Action)
    requires Sound(w) && Enabled(w, a)
    ensures ValidChunks(Act(w, a).db)
  {
    if a.StoreChunks? {
      ReplacementIsValid(w, a.s);
    } else if a.StoreVector? {
      StoreVectorIsValid(w, a.s);
    } else if LeavesData(a) {
      DataIsLeft(w, a);
    }
  }

  /** Every action, aborts and stale bodies included, keeps the chunk table valid and each service's reading true. */
  lemma ActKeepsSound(w: World, a: Action)
    requires Sound(w) && Enabled(w, a)
    ensures Sound(Act(w, a))
  {
    var w' := Act(w, a);
    ActKeepsSafe(w, a);
    ActKeepsValidChunks(w, a);
    Wakeups.OthersAreUntouched(w, a);
    forall s | 0 <= s < |w'.services| ensures PcSound(w', w'.services[s].pc) {
      if !(a.ByService() && s == a.s) {
        OthersStaySound(w, a, s);
      } else if IsBody(a) {
        BodyStaysSound(w, a);
      } else {
        LoopStaysSound(w, a);
      }
    }
  }
}
