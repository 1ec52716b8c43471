/**
 The database handle: the tables as fields, and each query and transaction as the sequence
 of statements it is, undone by a rollback where it fails. Every method is held to the
 function of `Tables` that specifies it.
 */
module Database {
  import opened Wrappers
  import opened Ingestion
  import T = Tables

  class Db {
    var jobs: map<JobId, Step>
    var runs: seq<RunRow>
    var transcripts: map<JobId, string>
    var chunks: seq<T.ChunkRow>
    var embeddings: map<nat, T.Vector>
    var channel: seq<JobId>
    var clock: Stamp
    var nextChunk: nat

    /** The tables this handle holds. */
    function View(): T.Tables
      reads this
    {
      T.Tables(jobs, runs, transcripts, chunks, embeddings, channel, clock, nextChunk)
    }

    constructor ()
      ensures View() == T.EMPTY
    {
      jobs, runs, transcripts, chunks := map[], [], map[], [];
      embeddings, channel, clock, nextChunk := map[], [], 0, 0;
    }

    method Rollback(saved: T.Tables)
      modifies this
      ensures View() == saved
    {
      jobs, runs, transcripts, chunks := saved.jobs, saved.runs, saved.transcripts, saved.chunks;
      embeddings, channel, clock, nextChunk := saved.embeddings, saved.channel, saved.clock, saved.nextChunk;
    }

    // ----- statements shared by the transitions

    method EnqueueRun(job: JobId, step: Step) returns (r: Result<StepRun, Error>)
      modifies this
      ensures
        match T.EnqueueRun(old(View()), job, step)
        case Err(e) => r == Err(e) && View() == old(View())
        case Ok((t, run)) => r == Ok(run) && View() == t
    {
      if T.HasActive(runs, job) {
        return Err(JobAlreadyRunning(job));
      }
      var row := RunRow(|runs|, job, step, T.MaxAttempt(runs, job, step) + 1, PendingText, None, None, None);
      runs := runs + [row];
      r := Decode(row);
    }

    method BeginRun(job: JobId, step: Step) returns (r: Result<StepRun, Error>)
      modifies this
      ensures
        match T.BeginRun(old(View()), job, step)
        case Err(e) => r == Err(e) && View() == old(View())
        case Ok((t, run)) => r == Ok(run) && View() == t
    {
      if T.HasActive(runs, job) {
        return Err(JobAlreadyRunning(job));
      }
      var row := RunRow(|runs|, job, step, T.MaxAttempt(runs, job, step) + 1, RunningText, Some(clock), None, None);
      runs := runs + [row];
      clock := clock + 1;
      r := Decode(row);
    }

    method NotifyReady(job: JobId)
      modifies this`channel
      ensures channel == old(channel) + [job]
    {
      channel := channel + [job];
    }

    method UpdateStep(job: JobId, step: Step)
      modifies this`jobs
      ensures jobs == old(jobs)[job := step]
    {
      jobs := jobs[job := step];
    }

    /** One `UPDATE ... WHERE ... RETURNING`. */
    method UpdateRuns(where: T.Where, change: T.Change) returns (r: Result<Option<StepRun>, Error>)
      modifies this
      ensures (View(), r) == T.Update(old(View()), where, change)
    {
      var first := T.FirstMatch(runs, where);
      runs := T.UpdateRows(runs, where, change, clock);
      clock := clock + 1;
      if first.None? {
        return Ok(None);
      }
      var decoded := Decode(runs[first.value]);
      r := if decoded.Ok? then Ok(Some(decoded.value)) else Err(decoded.error);
    }

    // ----- transitions

    method StartJob(job: JobId) returns (r: Result<StepRun, Error>)
      requires job !in jobs
      modifies this
      ensures (View(), r) == T.StartJob(old(View()), job)
    {
      var saved := View();
      UpdateStep(job, Extract);
      NotifyReady(job);
      r := EnqueueRun(job, Extract);
      if r.Err? {
        Rollback(saved);
      }
    }

    method ContinueJob(job: JobId) returns (r: Result<T.Advanced, Error>)
      modifies this
      ensures (View(), r) == T.ContinueJob(old(View()), job)
    {
      if job !in jobs {
        return Err(JobNotFound(job));
      }
      var step := jobs[job];
      if step == Completed {
        return Err(JobCompleted(job));
      }
      if step == Extract {
        return Err(ValidationRequired(job));
      }
      var latest := T.LatestRun(runs, job);
      if latest.Err? {
        return Err(latest.error);
      }
      if latest.value.None? || latest.value.value.step != step || !latest.value.value.status.Succeeded? {
        return Err(StepNotSucceeded(job, step));
      }
      var saved := View();
      var target := step.Next();
      UpdateStep(job, target);
      if target == Completed {
        return Ok(T.AllDone);
      }
      var begun := BeginRun(job, target);
      if begun.Err? {
        Rollback(saved);
        return Err(begun.error);
      }
      r := Ok(T.Next(begun.value));
    }

    method RestartJob(job: JobId) returns (r: Result<StepRun, Error>)
      modifies this
      ensures (View(), r) == T.RestartJob(old(View()), job)
    {
      if job !in jobs {
        return Err(JobNotFound(job));
      }
      if jobs[job] != Extract {
        return Err(NotInTranscriptionPhase(job));
      }
      r := EnqueueRun(job, Extract);
      if r.Ok? {
        NotifyReady(job);
      }
    }

    method ValidateJob(job: JobId) returns (r: Result<StepRun, Error>)
      modifies this
      ensures (View(), r) == T.ValidateJob(old(View()), job)
    {
      if job !in jobs {
        return Err(JobNotFound(job));
      }
      if jobs[job] != Extract {
        return Err(NotInTranscriptionPhase(job));
      }
      var latest := T.LatestRun(runs, job);
      if latest.Err? {
        return Err(latest.error);
      }
      if latest.value.None? || latest.value.value.step != Extract || !latest.value.value.status.Succeeded? {
        return Err(StepNotSucceeded(job, Extract));
      }
      var saved := View();
      UpdateStep(job, Extract.Next());
      r := EnqueueRun(job, Extract.Next());
      if r.Err? {
        Rollback(saved);
      } else {
        NotifyReady(job);
      }
    }

    /** Each waiting run of the job starts now, nothing else changes, and one that started is returned. */
    method ClaimPendingRun(job: JobId) returns (r: Result<Option<StepRun>, Error>)
      modifies this
      ensures (View(), r) == T.ClaimPendingRun(old(View()), job)
      ensures View() == old(View()).(runs := runs, clock := old(clock) + 1) && |runs| == |old(runs)|
      ensures forall i :: 0 <= i < |runs| ==>
        runs[i] ==
          if old(runs)[i].job == job && old(runs)[i].status == PendingText
          then old(runs)[i].(status := RunningText, startedAt := Some(old(clock)))
          else old(runs)[i]
      ensures r.Ok? && (r.value.None? <==> forall i :: 0 <= i < |runs| && runs[i].job == job ==> old(runs)[i].status != PendingText)
      ensures r.value.Some? ==> exists i ::
        0 <= i < |runs| && runs[i].job == job && old(runs)[i].status == PendingText && Decode(runs[i]) == Ok(r.value.value)
    {
      r := UpdateRuns(T.PendingOf(job), T.ToRunning);
      assert runs == T.UpdateRows(old(runs), T.PendingOf(job), T.ToRunning, old(clock));
    }

    /** A run that is not running is left alone; one that is ends now, with an error exactly if it failed. */
    method Finish(id: nat, outcome: T.StepOutcome) returns (r: Result<Option<StepRun>, Error>)
      modifies this
      ensures (View(), r) == T.Finish(old(View()), id, outcome)
      ensures View() == old(View()).(runs := runs, clock := old(clock) + 1) && |runs| == |old(runs)|
      ensures forall i :: 0 <= i < |runs| && !(old(runs)[i].id == id && old(runs)[i].status == RunningText) ==>
        runs[i] == old(runs)[i]
      ensures forall i :: 0 <= i < |runs| && old(runs)[i].id == id && old(runs)[i].status == RunningText ==>
        && runs[i] == old(runs)[i].(status := runs[i].status, completedAt := Some(old(clock)), error := runs[i].error)
        && (outcome.Success? ==> runs[i].status == SucceededText && runs[i].error == None)
        && (outcome.Failure? ==> runs[i].status == FailedText && runs[i].error == Some(outcome.error))
      ensures r == Ok(None) <==> forall i :: 0 <= i < |runs| && runs[i].id == id ==> old(runs)[i].status != RunningText
    {
      r := UpdateRuns(T.RunningWithId(id), T.ToFinished(outcome));
      assert runs == T.UpdateRows(old(runs), T.RunningWithId(id), T.ToFinished(outcome), old(clock));
    }

    /** The job's active runs end now as aborted, whether or not they had started; runs that are over stay as they are. */
    method Abort(job: JobId) returns (r: Result<Option<StepRun>, Error>)
      modifies this
      ensures (View(), r) == T.Abort(old(View()), job)
      ensures View() == old(View()).(runs := runs, clock := old(clock) + 1) && |runs| == |old(runs)|
      ensures forall i :: 0 <= i < |runs| ==>
        runs[i] ==
          if old(runs)[i].job == job && old(runs)[i].Active()
          then old(runs)[i].(status := AbortedText, completedAt := Some(old(clock)))
          else old(runs)[i]
      ensures !T.HasActive(runs, job)
      ensures r == Ok(None) <==> !T.HasActive(old(runs), job)
    {
      r := UpdateRuns(T.ActiveOf(job), T.ToAborted);
      assert runs == T.UpdateRows(old(runs), T.ActiveOf(job), T.ToAborted, old(clock));
    }

    // ----- transcripts, chunks and embeddings

    /** An upsert of the job's transcript: the new text is there whatever was there before, and no other job's is touched. */
    method UpsertTranscript(job: JobId, content: string)
      modifies this`transcripts
      ensures job in transcripts && transcripts[job] == content
      ensures forall other :: other != job ==>
        && (other in transcripts <==> other in old(transcripts))
        && (other in transcripts ==> transcripts[other] == old(transcripts)[other])
      ensures View() == T.UpsertTranscript(old(View()), job, content)
    {
      transcripts := transcripts[job := content];
    }

    method FindByJob(job: JobId) returns (rows: seq<T.ChunkRow>)
      ensures rows == T.FindByJob(chunks, job)
    {
      rows := T.FindByJob(chunks, job);
    }

    /** `insert.sql`, refused where the job already has a row at that position. */
    method InsertChunk(job: JobId, chunk: T.NewChunk) returns (row: Option<T.ChunkRow>)
      modifies this`chunks, this`nextChunk
      ensures row.None? <==> Taken(old(chunks), job, chunk.position)
      ensures row.None? ==> chunks == old(chunks) && nextChunk == old(nextChunk)
      ensures row.Some? ==>
        && row.value == T.ChunkRow(old(nextChunk), job, chunk.position, chunk.heading, chunk.page, chunk.content)
        && chunks == old(chunks) + [row.value] && nextChunk == old(nextChunk) + 1
    {
      if Taken(chunks, job, chunk.position) {
        return None;
      }
      var inserted := T.ChunkRow(nextChunk, job, chunk.position, chunk.heading, chunk.page, chunk.content);
      chunks := chunks + [inserted];
      nextChunk := nextChunk + 1;
      row := Some(inserted);
    }

    /** The inserts of `replace`, after the job's rows of `before` are deleted; they stop at a clash of positions. */
    method InsertChunks(job: JobId, news: seq<T.NewChunk>, ghost before: seq<T.ChunkRow>) returns (inserted: Option<seq<T.ChunkRow>>)
      requires chunks == T.DeleteByJob(before, job)
      modifies this`chunks, this`nextChunk
      ensures inserted.Some? <==> T.DistinctPositions(news)
      ensures inserted.Some? ==>
        && inserted.value == T.Numbered(job, news, old(nextChunk))
        && chunks == T.DeleteByJob(before, job) + inserted.value
        && nextChunk == old(nextChunk) + |news|
    {
      ghost var first := nextChunk;
      var rows := [];
      for k := 0 to |news|
        invariant T.DistinctPositions(news[..k])
        invariant rows == T.Numbered(job, news[..k], first)
        invariant chunks == T.DeleteByJob(before, job) + rows
        invariant nextChunk == first + k
      {
        TakenIffRepeated(before, job, news, first, k);
        var row := InsertChunk(job, news[k]);
        if row.None? {
          return None;
        }
        rows := rows + [row.value];
      }
      assert news[..|news|] == news;
      inserted := Some(rows);
    }

    /** `replace`: delete the job's rows, then insert the new ones; a clash of positions undoes it all. */
    method ReplaceChunks(job: JobId, news: seq<T.NewChunk>) returns (inserted: Option<seq<T.ChunkRow>>)
      modifies this
      ensures
        match T.ReplaceChunks(old(View()), job, news)
        case None => inserted == None && View() == old(View())
        case Some(t) => inserted == Some(T.Numbered(job, news, old(nextChunk))) && View() == t
    {
      var saved := View();
      embeddings := embeddings - T.IdsOf(chunks, job);
      chunks := T.DeleteByJob(chunks, job);
      inserted := InsertChunks(job, news, saved.chunks);
      if inserted.None? {
        Rollback(saved);
      }
    }

    /** An upsert of one vector, refused for a chunk that is gone or a wrong length; every other one stays. */
    method StoreEmbedding(id: nat, vector: T.Vector) returns (stored: bool)
      modifies this`embeddings
      ensures
        match T.StoreEmbedding(old(View()), id, vector)
        case None => !stored && View() == old(View())
        case Some(t) => stored && View() == t
      ensures stored <==> (exists i :: 0 <= i < |chunks| && chunks[i].id == id) && |vector| == T.EMBEDDING_DIM
      ensures stored ==> id in embeddings && embeddings[id] == vector
      ensures forall other :: other != id || !stored ==>
        (other in embeddings <==> other in old(embeddings)) && (other in embeddings ==> embeddings[other] == old(embeddings)[other])
    {
      stored := T.HasChunk(chunks, id) && |vector| == T.EMBEDDING_DIM;
      if stored {
        embeddings := embeddings[id := vector];
      }
    }
  }

  /** The job has a row at this position. */
  predicate Taken(chunks: seq<T.ChunkRow>, job: JobId, position: nat) {
    exists i :: 0 <= i < |chunks| && chunks[i].job == job && chunks[i].position == position
  }

  lemma DeletedJobHasNoRows(chunks: seq<T.ChunkRow>, job: JobId)
    ensures forall row :: row in T.DeleteByJob(chunks, job) ==> row.job != job
  {
  }

  /** A new chunk before the `k`-th has its position. */
  predicate Repeats(news: seq<T.NewChunk>, k: nat)
    requires k < |news|
  {
    exists i :: 0 <= i < k && news[i].position == news[k].position
  }

  lemma RepeatsIffNotDistinct(news: seq<T.NewChunk>, k: nat)
    requires k < |news| && T.DistinctPositions(news[..k])
    ensures Repeats(news, k) <==> !T.DistinctPositions(news[..k + 1])
    ensures T.DistinctPositions(news) ==> T.DistinctPositions(news[..k + 1])
  {
    var now := news[..k + 1];
    assert now[..k] == news[..k];
    if i :| 0 <= i < k && news[i].position == news[k].position { assert now[i].position == now[k].position; }
  }

  lemma TakenIffRepeats(kept: seq<T.ChunkRow>, job: JobId, news: seq<T.NewChunk>, id: nat, k: nat)
    requires k < |news| && forall row :: row in kept ==> row.job != job
    ensures Taken(kept + T.Numbered(job, news[..k], id), job, news[k].position) <==> Repeats(news, k)
  {
    var rows := T.Numbered(job, news[..k], id);
    var now := kept + rows;
    forall i | 0 <= i < |kept| ensures now[i].job != job { assert kept[i] in kept; }
    if i :| 0 <= i < |now| && now[i].job == job && now[i].position == news[k].position {
      assert now[i] == rows[i - |kept|];
      assert news[i - |kept|].position == news[k].position;
    }
    if i :| 0 <= i < k && news[i].position == news[k].position {
      assert now[|kept| + i] == rows[i];
    }
  }

  /** After the delete, an insert is refused exactly when an earlier new chunk had its position. */
  lemma TakenIffRepeated(chunks: seq<T.ChunkRow>, job: JobId, news: seq<T.NewChunk>, id: nat, k: nat)
    requires k < |news| && T.DistinctPositions(news[..k])
    ensures
      var now := T.DeleteByJob(chunks, job) + T.Numbered(job, news[..k], id);
      Taken(now, job, news[k].position) <==> !T.DistinctPositions(news[..k + 1])
    ensures T.DistinctPositions(news) ==> T.DistinctPositions(news[..k + 1])
  {
    DeletedJobHasNoRows(chunks, job);
    TakenIffRepeats(T.DeleteByJob(chunks, job), job, news, id, k);
    RepeatsIffNotDistinct(news, k);
  }
}
