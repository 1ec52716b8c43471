/**
 The claims about whole runs: any number of services, commands and aborts, interleaved in
 any way from the empty tables.
 */
module Traces {
  import opened Wrappers
  import opened Ingestion
  import opened Tables
  import opened History
  import opened Transitions
  import opened Protocol
  import opened Safety
  import opened Wakeups
  import opened Readings
  import opened Indexing

  /** A run of the protocol: the states passed through and the actions between them. */
  ghost predicate IsRun(ws: seq<World>, acts: seq<Action>) {
    && |ws| == |acts| + 1
    && Init(ws[0])
    && forall n {:trigger StepAt(ws, acts, n)} :: 0 <= n < |acts| ==> StepAt(ws, acts, n)
  }

  predicate StepAt(ws: seq<World>, acts: seq<Action>, n: nat)
    requires n < |acts| && |ws| == |acts| + 1
  {
    Enabled(ws[n], acts[n]) && ws[n + 1] == Act(ws[n], acts[n])
  }

  lemma {:induction false} EveryStateIsSafe(ws: seq<World>, acts: seq<Action>, n: nat)
    requires IsRun(ws, acts) && n < |ws|
    ensures Safe(ws[n]) && AllAwake(ws[n])
  {
    if n == 0 {
      InitIsSafe(ws[0]);
    } else {
      EveryStateIsSafe(ws, acts, n - 1);
      assert StepAt(ws, acts, n - 1);
      ActKeepsSafe(ws[n - 1], acts[n - 1]);
      ActKeepsAwake(ws[n - 1], acts[n - 1]);
    }
  }

  lemma EveryStepEvolves(ws: seq<World>, acts: seq<Action>, n: nat)
    requires IsRun(ws, acts) && n < |acts|
    ensures Evolves(ws[n].db, ws[n + 1].db) && Extends(ws[n].owners, ws[n + 1].owners)
  {
    EveryStateIsSafe(ws, acts, n);
    assert StepAt(ws, acts, n);
    ActKeepsSafe(ws[n], acts[n]);
  }

  // ----- the history

  /** In every state of every run the history is valid and every row decodes. */
  lemma HistoryIsAlwaysValid(ws: seq<World>, acts: seq<Action>, n: nat, i: nat)
    requires IsRun(ws, acts) && n < |ws|
    ensures Valid(ws[n].db)
    ensures i < |ws[n].db.runs| ==> Decode(ws[n].db.runs[i]).Ok? && Columns(Decode(ws[n].db.runs[i]).value) == ws[n].db.runs[i]
  {
    EveryStateIsSafe(ws, acts, n);
    if i < |ws[n].db.runs| {
      assert Clean(ws[n].db.runs[i]);
      CleanIffRoundTrips(ws[n].db.runs[i]);
    }
  }

  /** At most one run of a job is active, and it is on the job's step. */
  lemma OneActiveRun(ws: seq<World>, acts: seq<Action>, n: nat, i: nat, j: nat)
    requires IsRun(ws, acts) && n < |ws| && i < |ws[n].db.runs| && j < |ws[n].db.runs|
    requires ws[n].db.runs[i].job == ws[n].db.runs[j].job && ws[n].db.runs[i].Active() && ws[n].db.runs[j].Active()
    ensures i == j
    ensures ws[n].db.runs[i].job in ws[n].db.jobs && ws[n].db.jobs[ws[n].db.runs[i].job] == ws[n].db.runs[i].step
  {
    EveryStateIsSafe(ws, acts, n);
    var runs := ws[n].db.runs;
    if i != j { MatchIsUnique(ws[n].db, ActiveOf(runs[i].job), i, j); }
  }

  /** Run `k` is the one run of run `i`'s job and step with that attempt number. */
  ghost predicate IsAttempt(runs: seq<RunRow>, i: nat, attempt: nat, k: nat)
    requires i < |runs|
  {
    && k < |runs| && SameStep(runs[k], runs[i]) && runs[k].attempt == attempt
    && forall other: nat :: other < |runs| && SameStep(runs[other], runs[i]) && runs[other].attempt == attempt ==> other == k
  }

  lemma AttemptsDiffer(runs: seq<RunRow>, i: nat, k: nat)
    requires Attempts(runs) && i < |runs| && k < |runs| && i != k && SameStep(runs[k], runs[i])
    ensures runs[k].attempt != runs[i].attempt
  {
    if k < i { assert AttemptsAscend(runs, k, i); } else { assert AttemptsAscend(runs, i, k); }
  }

  lemma {:induction false} AttemptExists(runs: seq<RunRow>, i: nat, attempt: nat)
    requires Attempts(runs) && i < |runs| && 1 <= attempt <= runs[i].attempt
    ensures exists k: nat :: k <= i && IsAttempt(runs, i, attempt, k)
    decreases i
  {
    if attempt == runs[i].attempt {
      forall k: nat | k < |runs| && k != i && SameStep(runs[k], runs[i]) ensures runs[k].attempt != attempt {
        AttemptsDiffer(runs, i, k);
      }
      assert IsAttempt(runs, i, attempt, i);
    } else {
      assert HasPredecessor(runs, i);
      var p: nat :| p < i && SameStep(runs[p], runs[i]) && runs[p].attempt + 1 == runs[i].attempt;
      AttemptExists(runs, p, attempt);
      var k: nat :| k <= p && IsAttempt(runs, p, attempt, k);
      assert IsAttempt(runs, i, attempt, k);
    }
  }

  /** Attempts of a (job, step) are exactly 1..n: below any attempt made, every number was used, once, earlier. */
  lemma AttemptsCountUp(ws: seq<World>, acts: seq<Action>, n: nat, i: nat, attempt: nat)
    requires IsRun(ws, acts) && n < |ws| && i < |ws[n].db.runs|
    requires 1 <= attempt <= ws[n].db.runs[i].attempt
    ensures exists k: nat :: k <= i && IsAttempt(ws[n].db.runs, i, attempt, k)
  {
    EveryStateIsSafe(ws, acts, n);
    AttemptExists(ws[n].db.runs, i, attempt);
  }

  /** A job has at most one chunk run and one embed run, ever. */
  lemma PhaseTwoRunsOnce(ws: seq<World>, acts: seq<Action>, n: nat, i: nat, j: nat)
    requires IsRun(ws, acts) && n < |ws| && i < |ws[n].db.runs| && j < |ws[n].db.runs| && i != j
    requires SameStep(ws[n].db.runs[i], ws[n].db.runs[j])
    ensures ws[n].db.runs[i].step == Extract
  {
    EveryStateIsSafe(ws, acts, n);
    OnlyExtractRepeats(ws[n].db, i, j);
  }

  /** `find_latest` is the run inserted last for the job, across steps, restarts and claims. */
  lemma LatestIsLastInserted(ws: seq<World>, acts: seq<Action>, n: nat, job: JobId, i: nat)
    requires IsRun(ws, acts) && n < |ws|
    ensures FindLatest(ws[n].db.runs, job) == Some(i) <==> Latest(ws[n].db.runs, job, i)
  {
    EveryStateIsSafe(ws, acts, n);
    FindLatestIsLastInserted(ws[n].db, job);
  }

  /** A row that is over never changes again, and no row ever changes its identity. */
  lemma {:induction false} EndedRunsStay(ws: seq<World>, acts: seq<Action>, m: nat, n: nat, i: nat)
    requires IsRun(ws, acts) && m <= n < |ws| && i < |ws[m].db.runs|
    ensures i < |ws[n].db.runs|
    ensures
      var a, b := ws[m].db.runs[i], ws[n].db.runs[i];
      && a.id == b.id && a.job == b.job && a.step == b.step && a.attempt == b.attempt
      && (!a.Active() ==> b == a)
      && (a.status != PendingText ==> b.status != PendingText)
    decreases n
  {
    if m < n {
      EndedRunsStay(ws, acts, m, n - 1, i);
      EveryStepEvolves(ws, acts, n - 1);
      assert RowEvolves(ws[n - 1].db.runs[i], ws[n].db.runs[i]);
    } else {
      HistoryIsAlwaysValid(ws, acts, n, i);
    }
  }

  // ----- the human gate

  /** A validation that is accepted: the job is on `extract` and its latest run, an extraction, succeeded. */
  ghost predicate OpensGate(w: World, a: Action, job: JobId) {
    && a == Validate(job)
    && ValidateJob(w.db, job).1.Ok?
    && job in w.db.jobs && w.db.jobs[job] == Extract
    && LatestSucceeded(w.db.runs, job, Extract)
  }

  /** Only an accepted validation takes a job off `extract`. */
  lemma LeavingExtract(w: World, a: Action, job: JobId)
    requires Safe(w) && Enabled(w, a)
    requires job in Act(w, a).db.jobs && Act(w, a).db.jobs[job] != Extract
    requires job in w.db.jobs ==> w.db.jobs[job] == Extract
    ensures OpensGate(w, a, job)
  {
    if a.Claim? || a.FinishRun? || a.AbortRun? {
      ActIsUpdate(w, a);
    } else if a.Continue? {
      ActIsContinue(w, a);
      ContinueJobOutcome(w.db, PcOf(w, a.s).run.job);
    } else if LeavesHistory(a) {
      HistoryIsLeft(w, a);
    } else {
      CommandLeavingExtract(w, a, job);
    }
  }

  lemma CommandLeavingExtract(w: World, a: Action, job: JobId)
    requires Safe(w) && (a.Start? || a.Validate? || a.Restart?) && CommandEnabled(w, a)
    requires job in ActCommand(w, a).db.jobs && ActCommand(w, a).db.jobs[job] != Extract
    requires job in w.db.jobs ==> w.db.jobs[job] == Extract
    ensures OpensGate(w, a, job)
  {
    if a.Start? {
      StartJobOutcome(w.db, a.job);
    } else if a.Validate? {
      ValidateJobOutcome(w.db, a.job);
    } else {
      RestartJobOutcome(w.db, a.job);
    }
  }

  lemma StepOpensGate(ws: seq<World>, acts: seq<Action>, n: nat, job: JobId)
    requires IsRun(ws, acts) && n < |acts|
    requires job in ws[n + 1].db.jobs && ws[n + 1].db.jobs[job] != Extract
    requires job in ws[n].db.jobs ==> ws[n].db.jobs[job] == Extract
    ensures OpensGate(ws[n], acts[n], job)
  {
    EveryStateIsSafe(ws, acts, n);
    assert StepAt(ws, acts, n);
    LeavingExtract(ws[n], acts[n], job);
  }

  /** A job past `extract` has an accepted validation behind it. */
  lemma {:induction false} GateWasOpened(ws: seq<World>, acts: seq<Action>, n: nat, job: JobId)
    requires IsRun(ws, acts) && n < |ws| && job in ws[n].db.jobs && ws[n].db.jobs[job] != Extract
    ensures exists m: nat {:trigger OpensGate(ws[m], acts[m], job)} :: m < n && m < |acts| && OpensGate(ws[m], acts[m], job)
  {
    if n > 0 {
      var w := ws[n - 1];
      if job in w.db.jobs && w.db.jobs[job] != Extract {
        GateWasOpened(ws, acts, n - 1, job);
      } else {
        StepOpensGate(ws, acts, n - 1, job);
      }
    }
  }

  /** A chunk or embed run is only ever inserted after an accepted validation of its job. */
  lemma NoPhaseTwoWithoutValidation(ws: seq<World>, acts: seq<Action>, n: nat, i: nat)
    requires IsRun(ws, acts) && n < |ws| && i < |ws[n].db.runs| && ws[n].db.runs[i].step != Extract
    ensures exists m: nat {:trigger OpensGate(ws[m], acts[m], ws[n].db.runs[i].job)} ::
      m < n && m < |acts| && OpensGate(ws[m], acts[m], ws[n].db.runs[i].job) && |ws[m].db.runs| <= i
  {
    var job := ws[n].db.runs[i].job;
    EveryStateIsSafe(ws, acts, n);
    assert ws[n].db.runs[i].step.Rank() <= ws[n].db.jobs[job].Rank();
    GateWasOpened(ws, acts, n, job);
    var m: nat :| m < n && m < |acts| && OpensGate(ws[m], acts[m], job);
    if i < |ws[m].db.runs| {
      EveryStateIsSafe(ws, acts, m);
      EndedRunsStay(ws, acts, m, n, i);
      OnlyExtractionsBefore(ws[m].db, i);
    }
  }

  lemma OnlyExtractionsBefore(t: Tables, i: nat)
    requires Valid(t) && i < |t.runs| && t.runs[i].job in t.jobs && t.jobs[t.runs[i].job] == Extract
    ensures t.runs[i].step == Extract
  {
  }

  /** A job's step stays or moves to the next one: never back, never over a step. */
  lemma StepsMoveForward(ws: seq<World>, acts: seq<Action>, n: nat, job: JobId)
    requires IsRun(ws, acts) && n < |acts| && job in ws[n].db.jobs
    ensures job in ws[n + 1].db.jobs
    ensures ws[n + 1].db.jobs[job] == ws[n].db.jobs[job] || ws[n + 1].db.jobs[job] == ws[n].db.jobs[job].Next()
  {
    EveryStepEvolves(ws, acts, n);
  }

  /** A completed job has succeeded extract, chunk and embed runs, each the latest when the next was inserted, started in that order. */
  lemma CompletedHistory(ws: seq<World>, acts: seq<Action>, n: nat, job: JobId)
    requires IsRun(ws, acts) && n < |ws| && job in ws[n].db.jobs && ws[n].db.jobs[job] == Completed
    ensures exists x: nat, c: nat, e: nat :: x < c < e < |ws[n].db.runs| && PhasesOf(ws[n].db.runs, job, x, c, e)
  {
    EveryStateIsSafe(ws, acts, n);
    var runs := ws[n].db.runs;
    assert Reached(ws[n].db.jobs, runs, job);
    var e: nat :| e < |runs| && runs[e].job == job && runs[e].step == Embed && runs[e].status == SucceededText;
    assert HasGate(runs, e);
    var c: nat :| Follows(runs, c, e);
    assert HasGate(runs, c);
    var x: nat :| Follows(runs, x, c);
    assert InOrder(runs, x, c) && InOrder(runs, c, e);
    assert Clean(runs[x]) && Clean(runs[c]) && Clean(runs[e]);
    assert PhasesOf(runs, job, x, c, e);
  }

  ghost predicate PhasesOf(runs: seq<RunRow>, job: JobId, x: nat, c: nat, e: nat)
    requires x < c < e < |runs|
  {
    && runs[x].job == runs[c].job == runs[e].job == job
    && runs[x].step == Extract && runs[c].step == Chunk && runs[e].step == Embed
    && runs[x].status == runs[c].status == runs[e].status == SucceededText
    && Follows(runs, x, c) && Follows(runs, c, e)
    && runs[x].startedAt.Some? && runs[c].startedAt.Some? && runs[e].startedAt.Some?
    && runs[x].startedAt.value < runs[c].startedAt.value < runs[e].startedAt.value
  }

  predicate Lost(run: RunRow) {
    run.step != Extract && (run.status == FailedText || run.status == AbortedText)
  }

  /** No run follows a failed or aborted one past `extract`: the gate of a later step would need its success. */
  lemma LostIsLatest(t: Tables, i: nat)
    requires Valid(t) && i < |t.runs| && Lost(t.runs[i])
    ensures Latest(t.runs, t.runs[i].job, i)
  {
    forall k | i < k < |t.runs| ensures t.runs[k].job != t.runs[i].job {
      assert StepsAscend(t.runs, i, k);
      if t.runs[k].job == t.runs[i].job {
        assert HasGate(t.runs, k);
        var j: nat :| Follows(t.runs, j, k);
        if j != i { OnlyExtractRepeats(t, i, j); }
      }
    }
  }

  lemma LostKeepsStep(t: Tables, i: nat)
    requires Valid(t) && i < |t.runs| && Lost(t.runs[i])
    ensures t.runs[i].job in t.jobs && t.jobs[t.runs[i].job] == t.runs[i].step
  {
    var job := t.runs[i].job;
    LostIsLatest(t, i);
    assert Reached(t.jobs, t.runs, job);
    var r: nat :| r < |t.runs| && t.runs[r].job == job &&
      if t.jobs[job] == Completed then t.runs[r].step == Embed && t.runs[r].status == SucceededText
      else t.runs[r].step == t.jobs[job];
    if r < i { assert StepsAscend(t.runs, r, i); }
  }

  /** Phase two has no retry: once a chunk or embed run has failed or been aborted, its job never moves and never runs again. */
  lemma LostPhaseTwoIsFinal(ws: seq<World>, acts: seq<Action>, m: nat, n: nat, i: nat)
    requires IsRun(ws, acts) && m <= n < |ws| && i < |ws[m].db.runs| && Lost(ws[m].db.runs[i])
    ensures
      var run, t := ws[m].db.runs[i], ws[n].db;
      && Latest(t.runs, run.job, i) && t.runs[i] == run
      && run.job in t.jobs && t.jobs[run.job] == run.step
  {
    EndedRunsStay(ws, acts, m, n, i);
    EveryStateIsSafe(ws, acts, n);
    LostIsLatest(ws[n].db, i);
    LostKeepsStep(ws[n].db, i);
  }

  // ----- exclusivity

  lemma {:induction false} OwnersStay(ws: seq<World>, acts: seq<Action>, m: nat, n: nat, id: nat)
    requires IsRun(ws, acts) && m <= n < |ws| && id in ws[m].owners
    ensures id in ws[n].owners && ws[n].owners[id] == ws[m].owners[id]
    decreases n
  {
    if m < n {
      OwnersStay(ws, acts, m, n - 1, id);
      EveryStepEvolves(ws, acts, n - 1);
    }
  }

  /** A run is only ever in the hands of one service, whatever notifications were duplicated. */
  lemma OneOwnerEver(ws: seq<World>, acts: seq<Action>, m: nat, n: nat, s: nat, s': nat)
    requires IsRun(ws, acts) && m <= n < |ws|
    requires HasRun(PcOf(ws[m], s)) && HasRun(PcOf(ws[n], s'))
    requires PcOf(ws[m], s).run.id == PcOf(ws[n], s').run.id
    ensures s == s'
  {
    EveryStateIsSafe(ws, acts, m);
    EveryStateIsSafe(ws, acts, n);
    assert PcSafe(ws[m].db, ws[m].owners, s, ws[m].services[s].pc);
    assert PcSafe(ws[n].db, ws[n].owners, s', ws[n].services[s'].pc);
    OwnersStay(ws, acts, m, n, PcOf(ws[m], s).run.id);
  }

  /** Two services never have running runs of one job. */
  lemma OneWorkerPerJob(ws: seq<World>, acts: seq<Action>, n: nat, s: nat, s': nat)
    requires IsRun(ws, acts) && n < |ws| && HasRun(PcOf(ws[n], s)) && HasRun(PcOf(ws[n], s'))
    requires PcOf(ws[n], s).run.job == PcOf(ws[n], s').run.job
    requires IsRunning(ws[n], PcOf(ws[n], s).run.id) && IsRunning(ws[n], PcOf(ws[n], s').run.id)
    ensures s == s'
  {
    EveryStateIsSafe(ws, acts, n);
    assert PcSafe(ws[n].db, ws[n].owners, s, ws[n].services[s].pc);
    assert PcSafe(ws[n].db, ws[n].owners, s', ws[n].services[s'].pc);
    OneActiveRun(ws, acts, n, PcOf(ws[n], s).run.id, PcOf(ws[n], s').run.id);
  }

  predicate IsRunning(w: World, id: nat) {
    id < |w.db.runs| && w.db.runs[id].status == RunningText
  }

  // ----- bodies, continuations and wake-ups

  /** Whenever `finish` returns a run, the body that was executed is that of the run's own step. */
  lemma FinishedBodyIsTheRunsOwn(ws: seq<World>, acts: seq<Action>, n: nat)
    requires IsRun(ws, acts) && n < |acts| && acts[n].FinishRun?
    ensures Enabled(ws[n], acts[n])
    ensures
      var pc := PcOf(ws[n], acts[n].s);
      var (db, r) := Finish(ws[n].db, pc.run.id, if pc.ok then Success else Failure(acts[n].error));
      && r.Ok?
      && (r.value.Some? ==> r.value.value.id == pc.run.id && r.value.value.step == pc.body)
  {
    EveryStateIsSafe(ws, acts, n);
    assert StepAt(ws, acts, n);
    var pc := PcOf(ws[n], acts[n].s);
    assert PcSafe(ws[n].db, ws[n].owners, acts[n].s, ws[n].services[acts[n].s].pc);
    FinishOutcome(ws[n].db, pc.run.id, if pc.ok then Success else Failure(acts[n].error));
    UpdateTouchesOne(ws[n].db, RunningWithId(pc.run.id), ToFinished(if pc.ok then Success else Failure(acts[n].error)));
  }

  /** `continue_job` after a success is never refused, and the run it begins is a step further on. */
  lemma ContinueIsNeverRefused(ws: seq<World>, acts: seq<Action>, n: nat)
    requires IsRun(ws, acts) && n < |acts| && acts[n].Continue?
    ensures Enabled(ws[n], acts[n])
    ensures
      var run := PcOf(ws[n], acts[n].s).run;
      var r := ContinueJob(ws[n].db, run.job).1;
      && r.Ok?
      && (r.value.Next? ==>
        && r.value.run.job == run.job
        && r.value.run.step == run.step.Next()
        && r.value.run.step.Rank() > run.step.Rank())
  {
    EveryStateIsSafe(ws, acts, n);
    assert StepAt(ws, acts, n);
    AdvancingContinues(ws[n], acts[n].s);
  }

  /** Every waiting run is still ahead of every service that has swept; an idle one means none waits. */
  lemma NoLostWakeUp(ws: seq<World>, acts: seq<Action>, n: nat, s: nat)
    requires IsRun(ws, acts) && n < |ws| && s < |ws[n].services| && Swept(ws[n].services[s])
    ensures forall i :: 0 <= i < |ws[n].db.runs| && ws[n].db.runs[i].status == PendingText ==>
      Ahead(ws[n].db, ws[n].services[s], ws[n].db.runs[i].job)
    ensures ws[n].services[s] == Service(Ready, |ws[n].db.channel|, []) ==> PendingJobs(ws[n].db.runs) == {}
  {
    EveryStateIsSafe(ws, acts, n);
    assert Awake(ws[n].db, ws[n].services[s]);
    if ws[n].services[s] == Service(Ready, |ws[n].db.channel|, []) { IdleMeansNothingPending(ws[n], s); }
  }

  // ----- completed jobs

  /** The chunk table is valid and services hold what they read, in every state of every run. */
  lemma {:induction false} EveryStateIsSound(ws: seq<World>, acts: seq<Action>, n: nat)
    requires IsRun(ws, acts) && n < |ws|
    ensures Sound(ws[n])
  {
    if n == 0 {
      InitIsTracked(ws[0], 0);
    } else {
      EveryStateIsSound(ws, acts, n - 1);
      assert StepAt(ws, acts, n - 1);
      ActKeepsSound(ws[n - 1], acts[n - 1]);
    }
  }

  ghost predicate SpoilsAt(ws: seq<World>, acts: seq<Action>, k: nat, job: JobId)
    requires |ws| == |acts| + 1 && k < |acts|
  {
    Spoils(ws[k], acts[k], job)
  }

  /** No action in `[m, n)` replaces the job's chunks after its chunk run has stored them. */
  ghost predicate Unspoiled(ws: seq<World>, acts: seq<Action>, m: nat, n: nat, job: JobId)
    requires |ws| == |acts| + 1 && m <= n < |ws|
  {
    forall k {:trigger SpoilsAt(ws, acts, k, job)} :: m <= k < n ==> !SpoilsAt(ws, acts, k, job)
  }

  lemma {:induction false} UnspoiledIsTracked(ws: seq<World>, acts: seq<Action>, m: nat, n: nat, job: JobId)
    requires IsRun(ws, acts) && m <= n < |ws| && Tracked(ws[m], job) && Unspoiled(ws, acts, m, n, job)
    ensures Tracked(ws[n], job)
    decreases n
  {
    if m < n {
      UnspoiledIsTracked(ws, acts, m, n - 1, job);
      assert StepAt(ws, acts, n - 1);
      assert !SpoilsAt(ws, acts, n - 1, job);
      ActKeepsTracked(ws[n - 1], acts[n - 1], job);
    }
  }

  /**
   A completed job, whatever was aborted and when, if nothing replaced its chunks after its chunk
   run had stored them: its chunk rows are the split of the transcript that run read, at
   positions 0, 1, 2, ..., and every row has the 1024-long vector the embedder answered to that
   row's heading and content.
   */
  lemma CompletedJobsAreIndexed(ws: seq<World>, acts: seq<Action>, n: nat, job: JobId)
    requires IsRun(ws, acts) && n < |ws| && Unspoiled(ws, acts, 0, n, job)
    requires job in ws[n].db.jobs && ws[n].db.jobs[job] == Completed
    ensures Indexed(ws[n], job)
  {
    InitIsTracked(ws[0], job);
    UnspoiledIsTracked(ws, acts, 0, n, job);
    CompletedIsIndexed(ws[n], job);
  }

  lemma {:induction false} CompletedStays(ws: seq<World>, acts: seq<Action>, m: nat, n: nat, job: JobId)
    requires IsRun(ws, acts) && m <= n < |ws| && job in ws[m].db.jobs && ws[m].db.jobs[job] == Completed
    ensures job in ws[n].db.jobs && ws[n].db.jobs[job] == Completed
    decreases n
  {
    if m < n {
      CompletedStays(ws, acts, m, n - 1, job);
      EveryStepEvolves(ws, acts, n - 1);
    }
  }

  ghost predicate IndexedAt(ws: seq<World>, k: nat, job: JobId)
    requires k < |ws|
  {
    Indexed(ws[k], job)
  }

  /** It is indexed in each of the states `[m, n]`. */
  ghost predicate StaysIndexed(ws: seq<World>, m: nat, n: nat, job: JobId)
    requires m <= n < |ws|
  {
    forall k {:trigger IndexedAt(ws, k, job)} :: m <= k <= n ==> IndexedAt(ws, k, job)
  }

  lemma NextStateIndexedIff(ws: seq<World>, acts: seq<Action>, m: nat, n: nat, job: JobId)
    requires IsRun(ws, acts) && m <= n < |acts| && Unspoiled(ws, acts, 0, m, job) && Unspoiled(ws, acts, m, n, job)
    requires job in ws[m].db.jobs && ws[m].db.jobs[job] == Completed
    ensures Indexed(ws[n + 1], job) <==> !Spoils(ws[n], acts[n], job)
  {
    InitIsTracked(ws[0], job);
    UnspoiledIsTracked(ws, acts, 0, m, job);
    UnspoiledIsTracked(ws, acts, m, n, job);
    CompletedStays(ws, acts, m, n, job);
    assert StepAt(ws, acts, n);
    CompletedStaysIndexedIff(ws[n], acts[n], job);
  }

  lemma SpoiledIsNotIndexed(ws: seq<World>, acts: seq<Action>, m: nat, n: nat, job: JobId)
    requires IsRun(ws, acts) && m < n < |ws| && Unspoiled(ws, acts, 0, m, job) && Unspoiled(ws, acts, m, n - 1, job)
    requires job in ws[m].db.jobs && ws[m].db.jobs[job] == Completed && SpoilsAt(ws, acts, n - 1, job)
    ensures !IndexedAt(ws, n, job)
  {
    NextStateIndexedIff(ws, acts, m, n - 1, job);
  }

  /** The last action is the first replacement of the completed job's chunks, or an earlier one was. */
  lemma {:induction false} SpoiledDoesNotStay(ws: seq<World>, acts: seq<Action>, m: nat, n: nat, job: JobId)
    requires IsRun(ws, acts) && m <= n < |ws| && Unspoiled(ws, acts, 0, m, job)
    requires job in ws[m].db.jobs && ws[m].db.jobs[job] == Completed && !Unspoiled(ws, acts, m, n, job)
    ensures !StaysIndexed(ws, m, n, job)
    decreases n
  {
    if Unspoiled(ws, acts, m, n - 1, job) {
      SpoiledIsNotIndexed(ws, acts, m, n, job);
    } else {
      SpoiledDoesNotStay(ws, acts, m, n - 1, job);
    }
  }

  /** Exactly then: from its completion on, a job stays indexed if and only if its chunks are not replaced again. */
  lemma StaysIndexedIffUnspoiled(ws: seq<World>, acts: seq<Action>, m: nat, n: nat, job: JobId)
    requires IsRun(ws, acts) && m <= n < |ws| && Unspoiled(ws, acts, 0, m, job)
    requires job in ws[m].db.jobs && ws[m].db.jobs[job] == Completed
    ensures StaysIndexed(ws, m, n, job) <==> Unspoiled(ws, acts, m, n, job)
  {
    if Unspoiled(ws, acts, m, n, job) {
      UnspoiledStaysIndexed(ws, acts, m, n, job);
    } else {
      SpoiledDoesNotStay(ws, acts, m, n, job);
    }
  }

  lemma UnspoiledStaysIndexed(ws: seq<World>, acts: seq<Action>, m: nat, n: nat, job: JobId)
    requires IsRun(ws, acts) && m <= n < |ws| && Unspoiled(ws, acts, 0, m, job) && Unspoiled(ws, acts, m, n, job)
    requires job in ws[m].db.jobs && ws[m].db.jobs[job] == Completed
    ensures StaysIndexed(ws, m, n, job)
  {
    forall k | m <= k <= n ensures IndexedAt(ws, k, job) {
      assert Unspoiled(ws, acts, 0, k, job);
      CompletedStays(ws, acts, m, k, job);
      CompletedJobsAreIndexed(ws, acts, k, job);
    }
  }

  // ----- the guard the service could check

  predicate MismatchedAt(ws: seq<World>, acts: seq<Action>, k: nat, job: JobId)
    requires |ws| == |acts| + 1 && k < |acts|
  {
    Mismatched(ws[k], acts[k], job)
  }

  /** Every load of the job so far found it on the step of the run the service had taken. */
  predicate LoadsMatch(ws: seq<World>, acts: seq<Action>, n: nat, job: JobId)
    requires |ws| == |acts| + 1 && n < |ws|
  {
    forall k {:trigger MismatchedAt(ws, acts, k, job)} :: 0 <= k < n ==> !MismatchedAt(ws, acts, k, job)
  }

  lemma {:induction false} LoadsMatchIsMatched(ws: seq<World>, acts: seq<Action>, n: nat, job: JobId)
    requires IsRun(ws, acts) && n < |ws| && LoadsMatch(ws, acts, n, job)
    ensures Matched(ws[n], job)
  {
    if n > 0 {
      LoadsMatchIsMatched(ws, acts, n - 1, job);
      assert StepAt(ws, acts, n - 1);
      assert !MismatchedAt(ws, acts, n - 1, job);
      ActKeepsMatched(ws[n - 1], acts[n - 1], job);
    }
  }

  lemma LoadsMatchSpoilNothing(ws: seq<World>, acts: seq<Action>, n: nat, job: JobId)
    requires IsRun(ws, acts) && n < |ws| && LoadsMatch(ws, acts, n, job)
    ensures Unspoiled(ws, acts, 0, n, job)
  {
    forall k | 0 <= k < n ensures !SpoilsAt(ws, acts, k, job) {
      LoadsMatchIsMatched(ws, acts, k, job);
      EveryStateIsSound(ws, acts, k);
      MatchedSpoilsNothing(ws[k], acts[k], job);
    }
  }

  /** With the guard the code lacks, a load refusing a job on another step, every completed job is indexed. */
  lemma MatchedLoadsIndex(ws: seq<World>, acts: seq<Action>, n: nat, job: JobId)
    requires IsRun(ws, acts) && n < |ws| && LoadsMatch(ws, acts, n, job)
    requires job in ws[n].db.jobs && ws[n].db.jobs[job] == Completed
    ensures Indexed(ws[n], job)
  {
    LoadsMatchSpoilNothing(ws, acts, n, job);
    CompletedJobsAreIndexed(ws, acts, n, job);
  }

  predicate NoneAborted(runs: seq<RunRow>, job: JobId) {
    forall i :: 0 <= i < |runs| && runs[i].job == job ==> runs[i].status != AbortedText
  }

  lemma InsertAbortsNone(t: Tables, r: RunRow, job: JobId)
    requires NoneAborted(t.runs, job) && r.status != AbortedText
    ensures NoneAborted(Inserted(t, r).runs, job)
  {
  }

  lemma UpdateAbortsNone(t: Tables, where: Where, change: Change, job: JobId)
    requires NoneAborted(t.runs, job) && (change == ToAborted ==> where.ActiveOf? && where.job != job)
    ensures NoneAborted(Update(t, where, change).0.runs, job)
  {
  }

  lemma CommandAbortsNone(w: World, a: Action, job: JobId)
    requires Valid(w.db) && (a.Start? || a.Validate? || a.Restart?) && CommandEnabled(w, a) && NoneAborted(w.db.runs, job)
    ensures NoneAborted(ActCommand(w, a).db.runs, job)
  {
    if a.Start? {
      StartJobOutcome(w.db, a.job);
      InsertAbortsNone(w.db, PendingRow(w.db.runs, a.job, Extract), job);
    } else if a.Validate? {
      ValidateJobOutcome(w.db, a.job);
      InsertAbortsNone(w.db, PendingRow(w.db.runs, a.job, Chunk), job);
    } else {
      RestartJobOutcome(w.db, a.job);
      InsertAbortsNone(w.db, PendingRow(w.db.runs, a.job, Extract), job);
    }
  }

  lemma OnlyAbortAborts(w: World, a: Action, job: JobId)
    requires Valid(w.db) && Enabled(w, a) && a != AbortRun(job) && NoneAborted(w.db.runs, job)
    ensures NoneAborted(Act(w, a).db.runs, job)
  {
    if a.Claim? || a.FinishRun? || a.AbortRun? {
      ActIsUpdate(w, a);
      UpdateAbortsNone(w.db, WhereOf(w, a), ChangeOf(w, a), job);
    } else if a.Continue? {
      ActIsContinue(w, a);
      var k := PcOf(w, a.s).run.job;
      ContinueJobOutcome(w.db, k);
      InsertAbortsNone(w.db, RunningRow(w.db.runs, k, Embed, w.db.clock), job);
    } else if LeavesHistory(a) {
      HistoryIsLeft(w, a);
    } else {
      CommandAbortsNone(w, a, job);
    }
  }

  lemma UnabortedStep(ws: seq<World>, acts: seq<Action>, n: nat, job: JobId)
    requires IsRun(ws, acts) && n < |acts| && acts[n] != AbortRun(job) && NoneAborted(ws[n].db.runs, job)
    ensures NoneAborted(ws[n + 1].db.runs, job) && !MismatchedAt(ws, acts, n, job)
  {
    EveryStateIsSound(ws, acts, n);
    assert StepAt(ws, acts, n);
    OnlyAbortAborts(ws[n], acts[n], job);
    UnabortedLoadMatches(ws[n], acts[n], job);
  }

  lemma {:induction false} UnabortedLoadsMatch(ws: seq<World>, acts: seq<Action>, n: nat, job: JobId)
    requires IsRun(ws, acts) && n < |ws| && AbortRun(job) !in acts[..n]
    ensures NoneAborted(ws[n].db.runs, job) && LoadsMatch(ws, acts, n, job)
  {
    if n > 0 {
      assert acts[..n] == acts[..n - 1] + [acts[n - 1]];
      UnabortedLoadsMatch(ws, acts, n - 1, job);
      UnabortedStep(ws, acts, n - 1, job);
    }
  }

  /** A job none of whose runs was aborted is indexed once it is completed, whatever else happened. */
  lemma UnabortedJobsAreIndexed(ws: seq<World>, acts: seq<Action>, n: nat, job: JobId)
    requires IsRun(ws, acts) && n < |ws| && AbortRun(job) !in acts[..n]
    requires job in ws[n].db.jobs && ws[n].db.jobs[job] == Completed
    ensures Indexed(ws[n], job)
  {
    UnabortedLoadsMatch(ws, acts, n, job);
    MatchedLoadsIndex(ws, acts, n, job);
  }
}
