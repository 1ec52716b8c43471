/**
 What each job transition does to valid tables: exactly when it is accepted, that the tables
 stay valid and evolve by one legal step, and that a refusal leaves them as they were.
 */
module Transitions {
  import opened Wrappers
  import opened Ingestion
  import opened Tables
  import opened History

  /** The job's last inserted run succeeded, and it is a run of `step`. */
  ghost predicate LatestSucceeded(runs: seq<RunRow>, job: JobId, step: Step) {
    exists l: nat :: Latest(runs, job, l) && runs[l].step == step && runs[l].status == SucceededText
  }

  lemma LatestRunSucceeded(t: Tables, job: JobId, step: Step)
    requires Valid(t)
    ensures LatestRun(t.runs, job).Ok?
    ensures
      var latest := LatestRun(t.runs, job).value;
      LatestSucceeded(t.runs, job, step) <==> latest.Some? && latest.value.step == step && latest.value.status.Succeeded?
  {
    FindLatestIsLastInserted(t, job);
    match FindLatest(t.runs, job) {
      case None =>
      case Some(i) => assert Latest(t.runs, job, i);
    }
  }

  lemma SucceededMeansIdle(t: Tables, job: JobId, step: Step)
    requires Ordered(t.runs) && LatestSucceeded(t.runs, job, step)
    ensures !HasActive(t.runs, job)
  {
    var l: nat :| Latest(t.runs, job, l) && t.runs[l].step == step && t.runs[l].status == SucceededText;
    forall i | 0 <= i < |t.runs| && t.runs[i].job == job ensures !t.runs[i].Active() {
      if i < l { assert InOrder(t.runs, i, l); }
    }
  }

  /** The job is on `step` with one more run of it, waiting and announced; nothing else is touched. */
  ghost predicate Enqueues(t: Tables, t': Tables, job: JobId, step: Step) {
    t' == t.(
      jobs := t.jobs[job := step],
      runs := t.runs + [RunRow(|t.runs|, job, step, MaxAttempt(t.runs, job, step) + 1, PendingText, None, None, None)],
      channel := t.channel + [job])
  }

  /** The job is on `step` with one more run of it, started now; nobody is notified. */
  ghost predicate Starts(t: Tables, t': Tables, job: JobId, step: Step) {
    t' == t.(
      jobs := t.jobs[job := step],
      runs := t.runs + [RunRow(|t.runs|, job, step, MaxAttempt(t.runs, job, step) + 1, RunningText, Some(t.clock), None, None)],
      clock := t.clock + 1)
  }

  /** A new job is created with its first run waiting and announced. */
  lemma StartJobOutcome(t: Tables, job: JobId)
    requires Valid(t) && job !in t.jobs
    ensures
      var row := PendingRow(t.runs, job, Extract);
      && row.attempt == 1
      && StartJob(t, job) == (Inserted(t, row), Ok(Decode(row).value))
    ensures Enqueues(t, StartJob(t, job).0, job, Extract)
    ensures Valid(StartJob(t, job).0) && Evolves(t, StartJob(t, job).0)
  {
    var row := PendingRow(t.runs, job, Extract);
    assert Insertable(t, row);
    InsertKeepsValid(t, row);
  }

  lemma RestartAccepted(t: Tables, job: JobId)
    requires Valid(t) && job in t.jobs && t.jobs[job] == Extract && !HasActive(t.runs, job)
    ensures
      var row := PendingRow(t.runs, job, Extract);
      && RestartJob(t, job) == (Inserted(t, row), Ok(Decode(row).value))
      && Valid(Inserted(t, row)) && Evolves(t, Inserted(t, row))
  {
    var row := PendingRow(t.runs, job, Extract);
    assert Insertable(t, row);
    InsertKeepsValid(t, row);
    assert t.jobs[job := Extract] == t.jobs;
  }

  /** A restart is accepted exactly on an idle job still in transcription. */
  lemma RestartJobOutcome(t: Tables, job: JobId)
    requires Valid(t)
    ensures
      var (t', r) := RestartJob(t, job);
      && (r.Ok? <==> job in t.jobs && t.jobs[job] == Extract && !HasActive(t.runs, job))
      && (r.Ok? ==> t' == Inserted(t, PendingRow(t.runs, job, Extract)) && Enqueues(t, t', job, Extract))
      && (r.Err? ==> t' == t)
      && (r.Err? && job !in t.jobs ==> r.error == JobNotFound(job))
      && (r.Err? && job in t.jobs && t.jobs[job] != Extract ==> r.error == NotInTranscriptionPhase(job))
      && (r.Err? && job in t.jobs && t.jobs[job] == Extract ==> r.error == JobAlreadyRunning(job))
    ensures Valid(RestartJob(t, job).0) && Evolves(t, RestartJob(t, job).0)
  {
    if job in t.jobs && t.jobs[job] == Extract && !HasActive(t.runs, job) {
      RestartAccepted(t, job);
    }
  }

  /**
   The human gate opens exactly when the last run, an extraction, succeeded; past that check
   the active-run index never refuses the chunk run.
   */
  lemma ValidateJobOutcome(t: Tables, job: JobId)
    requires Valid(t)
    ensures
      var (t', r) := ValidateJob(t, job);
      && (r.Ok? <==> job in t.jobs && t.jobs[job] == Extract && LatestSucceeded(t.runs, job, Extract))
      && (r.Ok? ==> t' == Inserted(t, PendingRow(t.runs, job, Chunk)) && Enqueues(t, t', job, Chunk))
      && (r.Err? ==> t' == t)
      && (r.Err? && job !in t.jobs ==> r.error == JobNotFound(job))
      && (r.Err? && job in t.jobs && t.jobs[job] != Extract ==> r.error == NotInTranscriptionPhase(job))
      && (r.Err? && job in t.jobs && t.jobs[job] == Extract ==> r.error == StepNotSucceeded(job, Extract))
    ensures Valid(ValidateJob(t, job).0) && Evolves(t, ValidateJob(t, job).0)
  {
    LatestRunSucceeded(t, job, Extract);
    if job in t.jobs && t.jobs[job] == Extract && LatestSucceeded(t.runs, job, Extract) {
      SucceededMeansIdle(t, job, Extract);
      var row := PendingRow(t.runs, job, Chunk);
      assert Insertable(t, row);
      InsertKeepsValid(t, row);
      assert ValidateJob(t, job).0 == Inserted(t, row);
    }
  }

  lemma CompleteKeepsValid(t: Tables, job: JobId)
    requires Valid(t) && job in t.jobs && t.jobs[job] == Embed && LatestSucceeded(t.runs, job, Embed)
    ensures Valid(t.(jobs := t.jobs[job := Completed])) && Evolves(t, t.(jobs := t.jobs[job := Completed]))
  {
    var jobs := t.jobs[job := Completed];
    SucceededMeansIdle(t, job, Embed);
    forall k | k in jobs ensures Reached(jobs, t.runs, k) {
      assert Reached(t.jobs, t.runs, k);
    }
  }

  lemma ChunkContinues(t: Tables, job: JobId)
    requires Valid(t) && job in t.jobs && t.jobs[job] == Chunk && LatestSucceeded(t.runs, job, Chunk)
    ensures
      var row := RunningRow(t.runs, job, Embed, t.clock);
      && ContinueJob(t, job) == (Inserted(t, row), Ok(Next(Decode(row).value)))
      && Valid(Inserted(t, row)) && Evolves(t, Inserted(t, row))
  {
    LatestRunSucceeded(t, job, Chunk);
    SucceededMeansIdle(t, job, Chunk);
    var row := RunningRow(t.runs, job, Embed, t.clock);
    assert Insertable(t, row);
    InsertKeepsValid(t, row);
  }

  lemma EmbedContinues(t: Tables, job: JobId)
    requires Valid(t) && job in t.jobs && t.jobs[job] == Embed && LatestSucceeded(t.runs, job, Embed)
    ensures
      var t' := t.(jobs := t.jobs[job := Completed]);
      ContinueJob(t, job) == (t', Ok(AllDone)) && Valid(t') && Evolves(t, t')
  {
    LatestRunSucceeded(t, job, Embed);
    CompleteKeepsValid(t, job);
  }

  /** Phase two advances exactly when the job's own step is the last run's and succeeded. */
  lemma ContinueJobOutcome(t: Tables, job: JobId)
    requires Valid(t)
    ensures
      var (t', r) := ContinueJob(t, job);
      && (r.Ok? <==> job in t.jobs && (t.jobs[job] == Chunk || t.jobs[job] == Embed) && LatestSucceeded(t.runs, job, t.jobs[job]))
      && (r.Ok? && t.jobs[job] == Chunk ==>
        var row := RunningRow(t.runs, job, Embed, t.clock);
        t' == Inserted(t, row) && Starts(t, t', job, Embed) && r.value == Next(Decode(row).value))
      && (r.Ok? && t.jobs[job] == Embed ==> t' == t.(jobs := t.jobs[job := Completed]) && r.value == AllDone)
      && (r.Err? ==> t' == t)
      && (r.Err? && job !in t.jobs ==> r.error == JobNotFound(job))
      && (r.Err? && job in t.jobs ==>
        match t.jobs[job]
        case Completed => r.error == JobCompleted(job)
        case Extract => r.error == ValidationRequired(job)
        case step => r.error == StepNotSucceeded(job, step))
    ensures Valid(ContinueJob(t, job).0) && Evolves(t, ContinueJob(t, job).0)
  {
    if job in t.jobs && (t.jobs[job] == Chunk || t.jobs[job] == Embed) {
      LatestRunSucceeded(t, job, t.jobs[job]);
      if LatestSucceeded(t.runs, job, t.jobs[job]) {
        if t.jobs[job] == Chunk { ChunkContinues(t, job); } else { EmbedContinues(t, job); }
      }
    }
  }

  lemma ActiveIsLatest(t: Tables, i: nat)
    requires Ordered(t.runs) && i < |t.runs| && t.runs[i].Active()
    ensures Latest(t.runs, t.runs[i].job, i)
  {
    forall k | i < k < |t.runs| ensures t.runs[k].job != t.runs[i].job {
      assert InOrder(t.runs, i, k);
    }
  }

  /**
   `abort` of an active run leaves a row that decodes exactly when the run was running. Aborting
   a pending run leaves `started_at` NULL: a corrupt row, which `latest_run` finds first, so
   neither `validate_job` nor `continue_job` can be accepted on its step.
   */
  lemma AbortDecodesIffRunning(t: Tables, i: nat)
    requires Valid(t) && i < |t.runs| && t.runs[i].Active()
    ensures
      var job := t.runs[i].job;
      var (t', r) := Abort(t, job);
      && (t.runs[i].status == RunningText <==> r.Ok?)
      && (t.runs[i].status == RunningText <==> LatestRun(t'.runs, job).Ok?)
      && (t.runs[i].status == RunningText <==> Valid(t'))
  {
    var job := t.runs[i].job;
    var t' := Abort(t, job).0;
    ActiveIsLatest(t, i);
    var first := FirstMatch(t.runs, ActiveOf(job)).value;
    if first != i { MatchIsUnique(t, ActiveOf(job), i, first); }
    if t.runs[i].status == RunningText {
      forall k | 0 <= k < |t.runs| && k != i ensures !Matches(ActiveOf(job), t.runs[k]) {
        MatchIsUnique(t, ActiveOf(job), i, k);
      }
      UpdateKeepsValid(t, ActiveOf(job), ToAborted);
      UpdateTouchesOne(t, ActiveOf(job), ToAborted);
      FindLatestIsLastInserted(t', job);
    } else {
      AbortedPendingSortsFirst(t, i);
    }
  }

  lemma AbortedPendingSortsFirst(t: Tables, i: nat)
    requires Valid(t) && i < |t.runs| && t.runs[i].status == PendingText
    ensures var runs := Abort(t, t.runs[i].job).0.runs; FindLatest(runs, t.runs[i].job) == Some(i) && Decode(runs[i]).Err?
  {
    var job := t.runs[i].job;
    var runs := Abort(t, job).0.runs;
    assert runs == UpdateRows(t.runs, ActiveOf(job), ToAborted, t.clock);
    ActiveIsLatest(t, i);
    assert Clean(t.runs[i]) && runs[i].startedAt.None?;
    FindLatestIsFirst(runs, job);
    forall k | 0 <= k < |runs| && runs[k].job == job && k != i ensures SortsBefore(runs[i], runs[k]) {
      assert k < i && InOrder(t.runs, k, i) && Clean(t.runs[k]);
    }
  }
}
