/**
 The run history: an invariant of the job and run tables, kept by every transaction, and
 what it makes of `find_latest`, the attempt numbers and the columns.
 */
module History {
  import opened Wrappers
  import opened Ingestion
  import opened Tables

  // ----- the invariant

  ghost predicate Keyed(jobs: map<JobId, Step>, runs: seq<RunRow>) {
    forall i {:trigger runs[i]} :: 0 <= i < |runs| ==>
      runs[i].id == i && runs[i].job in jobs && runs[i].step != Completed
  }

  /** Rows are clean, and their stamps lie in the past, a start before its end. */
  ghost predicate Stamped(runs: seq<RunRow>, clock: Stamp) {
    forall i {:trigger runs[i]} :: 0 <= i < |runs| ==>
      && Clean(runs[i])
      && (runs[i].startedAt.Some? ==> runs[i].startedAt.value < clock)
      && (runs[i].completedAt.Some? ==> runs[i].startedAt.value < runs[i].completedAt.value < clock)
  }

  /** Run `i` of a job is over when run `j` is inserted, and started before it. */
  ghost predicate InOrder(runs: seq<RunRow>, i: nat, j: nat)
    requires i < j < |runs|
  {
    runs[i].job == runs[j].job ==>
      && !runs[i].Active()
      && (runs[i].startedAt.Some? && runs[j].startedAt.Some? ==> runs[i].startedAt.value < runs[j].startedAt.value)
  }

  /** Only a job's last run can be active, and runs start in insertion order. */
  ghost predicate Ordered(runs: seq<RunRow>) {
    forall i, j {:trigger InOrder(runs, i, j)} :: 0 <= i < j < |runs| ==> InOrder(runs, i, j)
  }

  predicate SameStep(a: RunRow, b: RunRow) {
    a.job == b.job && a.step == b.step
  }

  ghost predicate AttemptsAscend(runs: seq<RunRow>, i: nat, j: nat)
    requires i < j < |runs|
  {
    SameStep(runs[i], runs[j]) ==> runs[i].attempt < runs[j].attempt
  }

  /** Attempts of a (job, step) are 1, 2, 3, ... in insertion order. */
  ghost predicate Attempts(runs: seq<RunRow>) {
    && (forall i, j {:trigger AttemptsAscend(runs, i, j)} :: 0 <= i < j < |runs| ==> AttemptsAscend(runs, i, j))
    && (forall i {:trigger runs[i]} :: 0 <= i < |runs| ==> runs[i].attempt >= 1)
    && (forall i {:trigger HasPredecessor(runs, i)} :: 0 <= i < |runs| ==> runs[i].attempt == 1 || HasPredecessor(runs, i))
  }

  ghost predicate HasPredecessor(runs: seq<RunRow>, i: nat)
    requires i < |runs|
  {
    exists k :: 0 <= k < i && SameStep(runs[k], runs[i]) && runs[k].attempt + 1 == runs[i].attempt
  }

  /** Run `j` of a job was inserted when its latest run was `i`, succeeded, one step earlier. */
  ghost predicate Follows(runs: seq<RunRow>, i: nat, j: nat)
    requires j < |runs|
  {
    && i < j
    && runs[i].job == runs[j].job
    && runs[i].status == SucceededText
    && runs[j].step == runs[i].step.Next()
    && (forall k :: i < k < j ==> runs[k].job != runs[j].job)
  }

  ghost predicate HasGate(runs: seq<RunRow>, j: nat)
    requires j < |runs|
  {
    exists i :: Follows(runs, i, j)
  }

  ghost predicate StepsAscend(runs: seq<RunRow>, i: nat, j: nat)
    requires i < j < |runs|
  {
    runs[i].job == runs[j].job ==>
      runs[i].step.Rank() < runs[j].step.Rank() || runs[i].step == runs[j].step == Extract
  }

  /** Steps of a job's runs never go back, and only `extract` repeats. */
  ghost predicate Ascending(runs: seq<RunRow>) {
    forall i, j {:trigger StepsAscend(runs, i, j)} :: 0 <= i < j < |runs| ==> StepsAscend(runs, i, j)
  }

  /** No run is ahead of its job's step, and an active run is on it. */
  ghost predicate OnStep(jobs: map<JobId, Step>, runs: seq<RunRow>) {
    forall i {:trigger runs[i]} :: 0 <= i < |runs| && runs[i].job in jobs ==>
      && runs[i].step.Rank() <= jobs[runs[i].job].Rank()
      && (runs[i].Active() ==> runs[i].step == jobs[runs[i].job])
  }

  /** A run past `extract` was let in by a success of the step before. */
  ghost predicate Gated(runs: seq<RunRow>) {
    forall i {:trigger HasGate(runs, i)} :: 0 <= i < |runs| && runs[i].step != Extract ==> HasGate(runs, i)
  }

  /** A job's current step has a run; a completed job has a succeeded `embed` run. */
  ghost predicate Reached(jobs: map<JobId, Step>, runs: seq<RunRow>, job: JobId)
    requires job in jobs
  {
    exists i :: 0 <= i < |runs| && runs[i].job == job &&
      if jobs[job] == Completed then runs[i].step == Embed && runs[i].status == SucceededText
      else runs[i].step == jobs[job]
  }

  ghost predicate AllReached(jobs: map<JobId, Step>, runs: seq<RunRow>) {
    forall job {:trigger Reached(jobs, runs, job)} :: job in jobs ==> Reached(jobs, runs, job)
  }

  ghost predicate Valid(t: Tables) {
    && Keyed(t.jobs, t.runs)
    && Stamped(t.runs, t.clock)
    && Ordered(t.runs)
    && Attempts(t.runs)
    && Ascending(t.runs)
    && OnStep(t.jobs, t.runs)
    && Gated(t.runs)
    && AllReached(t.jobs, t.runs)
  }

  // ----- what one transaction may do to a row

  /** A row keeps its identity, and only a pending or running row ever changes. */
  predicate RowEvolves(a: RunRow, b: RunRow) {
    && a.id == b.id && a.job == b.job && a.step == b.step && a.attempt == b.attempt
    && (a == b
        || (a.status == PendingText && b.status == RunningText)
        || (a.status == RunningText && (b.status == SucceededText || b.status == FailedText || b.status == AbortedText)))
  }

  /** The relation every transaction is held to, beside keeping the tables valid. */
  ghost predicate Evolves(t: Tables, t': Tables) {
    && |t.runs| <= |t'.runs| <= |t.runs| + 1
    && (forall i {:trigger t'.runs[i]} {:trigger t.runs[i]} :: 0 <= i < |t.runs| ==> RowEvolves(t.runs[i], t'.runs[i]))
    && (forall i {:trigger t'.runs[i]} :: |t.runs| <= i < |t'.runs| ==> t'.runs[i].Active())
    && |t.channel| <= |t'.channel| && t'.channel[..|t.channel|] == t.channel
    && (forall i :: |t.runs| <= i < |t'.runs| && t'.runs[i].status == PendingText ==>
      t'.runs[i].job in t'.channel[|t.channel|..])
    && (forall job :: job in t.jobs ==> job in t'.jobs && (t'.jobs[job] == t.jobs[job] || t'.jobs[job] == t.jobs[job].Next()))
    && t.clock <= t'.clock
  }

  // ----- inserting a run

  /** Row `r` may be appended: nothing of its job is active, and its step is the right one. */
  ghost predicate Insertable(t: Tables, r: RunRow) {
    && r.id == |t.runs|
    && r.step != Completed
    && Clean(r)
    && r.Active()
    && (r.startedAt.Some? ==> r.startedAt.value == t.clock)
    && !HasActive(t.runs, r.job)
    && r.attempt == MaxAttempt(t.runs, r.job, r.step) + 1
    && (if r.step == Extract then r.job in t.jobs ==> t.jobs[r.job] == Extract
        else r.job in t.jobs && t.jobs[r.job].Next() == r.step && exists l: nat ::
          Latest(t.runs, r.job, l) && t.runs[l].step == t.jobs[r.job] && t.runs[l].status == SucceededText)
  }

  /** `l` is the place of the job's last inserted run. */
  ghost predicate Latest(runs: seq<RunRow>, job: JobId, l: nat) {
    l < |runs| && runs[l].job == job && forall k :: l < k < |runs| ==> runs[k].job != job
  }

  lemma InsertKeepsAttempts(runs: seq<RunRow>, r: RunRow)
    requires Attempts(runs) && r.attempt == MaxAttempt(runs, r.job, r.step) + 1
    ensures Attempts(runs + [r])
  {
    var runs' := runs + [r];
    forall i, j | 0 <= i < j < |runs'| ensures AttemptsAscend(runs', i, j) {
      if j < |runs| { assert AttemptsAscend(runs, i, j); }
    }
    forall i | 0 <= i < |runs'| ensures runs'[i].attempt == 1 || HasPredecessor(runs', i) {
      if i < |runs| {
        if runs[i].attempt > 1 {
          assert HasPredecessor(runs, i);
          var k :| 0 <= k < i && SameStep(runs[k], runs[i]) && runs[k].attempt + 1 == runs[i].attempt;
          assert SameStep(runs'[k], runs'[i]);
        }
      } else if r.attempt > 1 {
        var k :| 0 <= k < |runs| && runs[k].job == r.job && runs[k].step == r.step && runs[k].attempt == r.attempt - 1;
        assert SameStep(runs'[k], runs'[i]);
      }
    }
  }

  lemma InsertKeepsGated(t: Tables, r: RunRow)
    requires Gated(t.runs) && Insertable(t, r)
    ensures Gated(t.runs + [r])
  {
    var runs := t.runs + [r];
    forall i | 0 <= i < |runs| && runs[i].step != Extract ensures HasGate(runs, i) {
      if i < |t.runs| {
        assert HasGate(t.runs, i);
        var k :| Follows(t.runs, k, i);
        assert Follows(runs, k, i);
      } else {
        var l: nat :| Latest(t.runs, r.job, l) && t.runs[l].step == t.jobs[r.job] && t.runs[l].status == SucceededText;
        assert Follows(runs, l, i);
      }
    }
  }

  lemma InsertKeepsAscending(t: Tables, r: RunRow)
    requires Keyed(t.jobs, t.runs) && Ascending(t.runs) && OnStep(t.jobs, t.runs) && Insertable(t, r)
    ensures Ascending(t.runs + [r])
    ensures OnStep(t.jobs[r.job := r.step], t.runs + [r])
  {
    var runs := t.runs + [r];
    forall i, j | 0 <= i < j < |runs| ensures StepsAscend(runs, i, j) {
      if j < |t.runs| { assert StepsAscend(t.runs, i, j); }
    }
  }

  lemma InsertKeepsOrdered(t: Tables, r: RunRow)
    requires Keyed(t.jobs, t.runs) && Stamped(t.runs, t.clock) && Ordered(t.runs) && Insertable(t, r)
    ensures Ordered(t.runs + [r])
    ensures Keyed(t.jobs[r.job := r.step], t.runs + [r])
    ensures Stamped(t.runs + [r], if r.startedAt.Some? then t.clock + 1 else t.clock)
  {
    var runs := t.runs + [r];
    forall i, j | 0 <= i < j < |runs| ensures InOrder(runs, i, j) {
      if j < |t.runs| { assert InOrder(t.runs, i, j); }
    }
  }

  lemma InsertKeepsReached(t: Tables, r: RunRow)
    requires AllReached(t.jobs, t.runs) && Insertable(t, r)
    ensures AllReached(t.jobs[r.job := r.step], t.runs + [r])
  {
    var jobs, runs := t.jobs[r.job := r.step], t.runs + [r];
    forall job | job in jobs ensures Reached(jobs, runs, job) {
      if job == r.job {
        assert runs[|t.runs|] == r;
      } else {
        assert Reached(t.jobs, t.runs, job);
        var i :| 0 <= i < |t.runs| && t.runs[i].job == job &&
          if t.jobs[job] == Completed then t.runs[i].step == Embed && t.runs[i].status == SucceededText
          else t.runs[i].step == t.jobs[job];
        assert runs[i] == t.runs[i];
      }
    }
  }

  /** The tables after inserting `r`, the job moved to its step and, if it waits, announced. */
  function Inserted(t: Tables, r: RunRow): Tables {
    t.(jobs := t.jobs[r.job := r.step],
       runs := t.runs + [r],
       channel := if r.status == PendingText then t.channel + [r.job] else t.channel,
       clock := if r.startedAt.Some? then t.clock + 1 else t.clock)
  }

  lemma InsertEvolves(t: Tables, r: RunRow)
    requires Insertable(t, r) && (r.job !in t.jobs ==> r.step == Extract)
    ensures Evolves(t, Inserted(t, r))
  {
  }

  lemma InsertKeepsValid(t: Tables, r: RunRow)
    requires Valid(t) && Insertable(t, r)
    ensures Valid(Inserted(t, r)) && Evolves(t, Inserted(t, r))
  {
    InsertKeepsAttempts(t.runs, r);
    InsertKeepsGated(t, r);
    InsertKeepsAscending(t, r);
    InsertKeepsOrdered(t, r);
    InsertKeepsReached(t, r);
    InsertEvolves(t, r);
  }

  // ----- changing the status of one run

  /** Row `i` may become `r`: a claim stamps the start, an ending stamps the end. */
  ghost predicate Touchable(t: Tables, i: nat, r: RunRow) {
    && i < |t.runs|
    && t.runs[i].Active()
    && RowEvolves(t.runs[i], r)
    && t.runs[i] != r
    && Clean(r)
    && (if r.status == RunningText then r.startedAt == Some(t.clock)
        else r.startedAt == t.runs[i].startedAt && r.completedAt == Some(t.clock))
  }

  function Touched(t: Tables, i: nat, r: RunRow): Tables
    requires i < |t.runs|
  {
    t.(runs := t.runs[i := r], clock := t.clock + 1)
  }

  lemma TouchKeepsGated(t: Tables, i: nat, r: RunRow)
    requires Gated(t.runs) && Touchable(t, i, r)
    ensures Gated(t.runs[i := r])
  {
    var runs := t.runs[i := r];
    forall j | 0 <= j < |runs| && runs[j].step != Extract ensures HasGate(runs, j) {
      assert HasGate(t.runs, j);
      var k :| Follows(t.runs, k, j);
      assert Follows(runs, k, j);
    }
  }

  lemma TouchKeepsAttempts(t: Tables, i: nat, r: RunRow)
    requires Attempts(t.runs) && Touchable(t, i, r)
    ensures Attempts(t.runs[i := r])
  {
    var runs := t.runs[i := r];
    forall k, j | 0 <= k < j < |runs| ensures AttemptsAscend(runs, k, j) {
      assert AttemptsAscend(t.runs, k, j);
    }
    forall j | 0 <= j < |runs| ensures runs[j].attempt == 1 || HasPredecessor(runs, j) {
      if runs[j].attempt != 1 {
        assert HasPredecessor(t.runs, j);
        var k :| 0 <= k < j && SameStep(t.runs[k], t.runs[j]) && t.runs[k].attempt + 1 == t.runs[j].attempt;
        assert SameStep(runs[k], runs[j]);
      }
    }
  }

  lemma TouchKeepsReached(t: Tables, i: nat, r: RunRow)
    requires AllReached(t.jobs, t.runs) && Touchable(t, i, r)
    ensures AllReached(t.jobs, t.runs[i := r])
  {
    var runs := t.runs[i := r];
    forall job | job in t.jobs ensures Reached(t.jobs, runs, job) {
      assert Reached(t.jobs, t.runs, job);
      var k :| 0 <= k < |t.runs| && t.runs[k].job == job &&
        if t.jobs[job] == Completed then t.runs[k].step == Embed && t.runs[k].status == SucceededText
        else t.runs[k].step == t.jobs[job];
      assert runs[k].job == job;
    }
  }

  lemma TouchKeepsOrdered(t: Tables, i: nat, r: RunRow)
    requires Keyed(t.jobs, t.runs) && Stamped(t.runs, t.clock) && Ordered(t.runs) && Touchable(t, i, r)
    ensures Keyed(t.jobs, t.runs[i := r])
    ensures Stamped(t.runs[i := r], t.clock + 1)
    ensures Ordered(t.runs[i := r])
  {
    var runs := t.runs[i := r];
    forall k, j | 0 <= k < j < |runs| ensures InOrder(runs, k, j) {
      assert InOrder(t.runs, k, j);
    }
  }

  lemma TouchKeepsAscending(t: Tables, i: nat, r: RunRow)
    requires Ascending(t.runs) && OnStep(t.jobs, t.runs) && Touchable(t, i, r)
    ensures Ascending(t.runs[i := r])
    ensures OnStep(t.jobs, t.runs[i := r])
  {
    var runs := t.runs[i := r];
    forall k, j | 0 <= k < j < |runs| ensures StepsAscend(runs, k, j) {
      assert StepsAscend(t.runs, k, j);
    }
  }

  lemma TouchKeepsValid(t: Tables, i: nat, r: RunRow)
    requires Valid(t) && Touchable(t, i, r)
    ensures Valid(Touched(t, i, r)) && Evolves(t, Touched(t, i, r))
  {
    TouchKeepsGated(t, i, r);
    TouchKeepsAttempts(t, i, r);
    TouchKeepsReached(t, i, r);
    TouchKeepsOrdered(t, i, r);
    TouchKeepsAscending(t, i, r);
  }

  /** The statements the program issues; an abort only while the job's run is not pending. */
  predicate Issued(runs: seq<RunRow>, where: Where, change: Change) {
    match where
    case PendingOf(_) => change.ToRunning?
    case RunningWithId(_) => change.ToFinished?
    case ActiveOf(job) => change.ToAborted? && forall i :: 0 <= i < |runs| && runs[i].job == job ==> runs[i].status != PendingText
  }

  /** An UPDATE the program issues changes at most one row, and returns it. */
  lemma UpdateTouchesOne(t: Tables, where: Where, change: Change)
    requires Valid(t) && Issued(t.runs, where, change)
    ensures
      match FirstMatch(t.runs, where)
      case None => Update(t, where, change) == (t.(clock := t.clock + 1), Ok(None))
      case Some(i) =>
        var r := Changed(change, t.runs[i], t.clock);
        Touchable(t, i, r) && Decode(r).Ok?
          && Update(t, where, change) == (Touched(t, i, r), Ok(Some(Decode(r).value)))
  {
    var runs := UpdateRows(t.runs, where, change, t.clock);
    match FirstMatch(t.runs, where) {
      case None => assert runs == t.runs;
      case Some(i) =>
        var r := Changed(change, t.runs[i], t.clock);
        assert Touchable(t, i, r);
        forall j | 0 <= j < |t.runs| && j != i ensures !Matches(where, t.runs[j]) {
          MatchIsUnique(t, where, i, j);
        }
        assert runs == t.runs[i := r];
    }
  }

  /** Ids are unique and a job has one active run, so no clause matches two rows. */
  lemma MatchIsUnique(t: Tables, where: Where, i: nat, j: nat)
    requires Keyed(t.jobs, t.runs) && Ordered(t.runs)
    requires i < |t.runs| && j < |t.runs| && i != j && Matches(where, t.runs[i])
    ensures !Matches(where, t.runs[j])
  {
    if i < j { assert InOrder(t.runs, i, j); } else { assert InOrder(t.runs, j, i); }
  }

  lemma TickKeepsValid(t: Tables)
    requires Valid(t)
    ensures Valid(t.(clock := t.clock + 1))
  {
  }

  lemma UpdateKeepsValid(t: Tables, where: Where, change: Change)
    requires Valid(t) && Issued(t.runs, where, change)
    ensures Valid(Update(t, where, change).0) && Evolves(t, Update(t, where, change).0)
  {
    UpdateTouchesOne(t, where, change);
    match FirstMatch(t.runs, where) {
      case None => TickKeepsValid(t);
      case Some(i) => TouchKeepsValid(t, i, Changed(change, t.runs[i], t.clock));
    }
  }

  // ----- the order of find_latest

  /** No row of the job sorts before the one `find_latest` returns, and it finds one if there is one. */
  lemma FindLatestIsFirst(runs: seq<RunRow>, job: JobId)
    ensures FindLatest(runs, job).None? <==> forall k :: 0 <= k < |runs| ==> runs[k].job != job
    ensures forall i, k :: FindLatest(runs, job) == Some(i) && 0 <= k < |runs| && runs[k].job == job ==>
      !SortsBefore(runs[k], runs[i])
  {
    if runs != [] {
      FindLatestIsFirst(runs[..|runs| - 1], job);
    }
  }

  lemma LaterSortsFirst(t: Tables, i: nat, k: nat)
    requires Stamped(t.runs, t.clock) && Ordered(t.runs)
    requires i < k < |t.runs| && t.runs[i].job == t.runs[k].job
    ensures SortsBefore(t.runs[k], t.runs[i])
  {
    assert InOrder(t.runs, i, k);
  }

  lemma LatestIsUnique(runs: seq<RunRow>, job: JobId, i: nat, l: nat)
    requires Latest(runs, job, i) && Latest(runs, job, l)
    ensures i == l
  {
  }

  lemma FoundIsLatest(t: Tables, job: JobId, i: nat)
    requires Stamped(t.runs, t.clock) && Ordered(t.runs)
    requires FindLatest(t.runs, job) == Some(i)
    ensures Latest(t.runs, job, i)
  {
    FindLatestIsFirst(t.runs, job);
    forall k | i < k < |t.runs| ensures t.runs[k].job != job {
      if t.runs[k].job == job { LaterSortsFirst(t, i, k); }
    }
  }

  lemma JobHasRun(t: Tables, job: JobId)
    requires AllReached(t.jobs, t.runs) && job in t.jobs
    ensures FindLatest(t.runs, job).Some?
  {
    FindLatestIsFirst(t.runs, job);
    assert Reached(t.jobs, t.runs, job);
  }

  /** In valid tables the first in that order is the run inserted last, whatever its step, and it decodes. */
  lemma FindLatestIsLastInserted(t: Tables, job: JobId)
    requires Valid(t)
    ensures forall l: nat :: Latest(t.runs, job, l) <==> FindLatest(t.runs, job) == Some(l)
    ensures job in t.jobs ==> FindLatest(t.runs, job).Some?
    ensures LatestRun(t.runs, job).Ok?
  {
    if job in t.jobs { JobHasRun(t, job); }
    match FindLatest(t.runs, job) {
      case None => FindLatestIsFirst(t.runs, job);
      case Some(i) =>
        FoundIsLatest(t, job, i);
        FoundDecodes(t, i);
        forall l: nat | Latest(t.runs, job, l) ensures l == i { LatestIsUnique(t.runs, job, i, l); }
    }
  }

  lemma FoundDecodes(t: Tables, i: nat)
    requires Stamped(t.runs, t.clock) && i < |t.runs|
    ensures Decode(t.runs[i]).Ok?
  {
  }
}
