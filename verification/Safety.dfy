/**
 What every action of the protocol keeps, aborts of running runs included: valid tables,
 one owner per run, a loaded step that matches the run while it is running, and, for a
 service about to advance its job, that nothing has moved the job on.
 */
module Safety {
  import opened Wrappers
  import opened Ingestion
  import opened Tables
  import opened History
  import opened Transitions
  import opened Protocol

  /** Service `s` took the run whose row it copied, and the run is not pending any more. */
  ghost predicate Holds(db: Tables, owners: map<nat, nat>, s: nat, run: StepRun) {
    && run.id < |db.runs|
    && run.job == db.runs[run.id].job
    && run.step == db.runs[run.id].step
    && db.runs[run.id].status != PendingText
    && run.id in owners
    && owners[run.id] == s
  }

  /** The step the service dispatches on is the run's, as long as the run is running. */
  ghost predicate Dispatched(db: Tables, run: StepRun, step: Step)
    requires run.id < |db.runs|
  {
    db.runs[run.id].status == RunningText ==> step == run.step
  }

  /** The job is where the service left it: on the step of its succeeded run, its latest. */
  ghost predicate Unmoved(db: Tables, run: StepRun)
    requires run.id < |db.runs|
  {
    && (run.step == Chunk || run.step == Embed)
    && db.runs[run.id].status == SucceededText
    && Latest(db.runs, run.job, run.id)
    && run.job in db.jobs
    && db.jobs[run.job] == run.step
  }

  /** Executing the body of a step, or done with it. */
  predicate InBody(pc: Pc) {
    pc.Loaded? || pc.Replacing? || pc.Embedding? || pc.Executed?
  }

  /** The step whose body a service is in: the one it loaded. */
  function BodyStep(pc: Pc): Step
    requires InBody(pc)
  {
    match pc
    case Loaded(_, step) => step
    case Replacing(_, _) => Chunk
    case Embedding(_, _, _, _) => Embed
    case Executed(_, body, _) => body
  }

  predicate HasRun(pc: Pc) {
    pc.Begun? || InBody(pc) || pc.Advancing?
  }

  ghost predicate PcSafe(db: Tables, owners: map<nat, nat>, s: nat, pc: Pc) {
    && (HasRun(pc) ==> Holds(db, owners, s, pc.run))
    && (InBody(pc) ==> Dispatched(db, pc.run, BodyStep(pc)))
    && (pc.Advancing? ==> Unmoved(db, pc.run))
  }

  /** Exactly the runs that are no longer pending have an owner. */
  ghost predicate Owned(db: Tables, owners: map<nat, nat>) {
    && (forall id :: id in owners ==> id < |db.runs|)
    && (forall i :: 0 <= i < |db.runs| ==> (i in owners <==> db.runs[i].status != PendingText))
  }

  ghost predicate AllSafe(db: Tables, owners: map<nat, nat>, services: seq<Service>) {
    forall s {:trigger services[s]} :: 0 <= s < |services| ==> PcSafe(db, owners, s, services[s].pc)
  }

  ghost predicate Safe(w: World) {
    Valid(w.db) && Owned(w.db, w.owners) && AllSafe(w.db, w.owners, w.services)
  }

  // ----- the tables under one action

  /** The actions that write no row of the job and run tables. */
  predicate LeavesHistory(a: Action) {
    (a.ByService() && !a.Claim? && !a.FinishRun? && !a.Continue?) || a.Edit?
  }

  lemma HistoryIsLeft(w: World, a: Action)
    requires Enabled(w, a) && LeavesHistory(a)
    ensures
      var t := Act(w, a).db;
      t.jobs == w.db.jobs && t.runs == w.db.runs && t.channel == w.db.channel && t.clock == w.db.clock
  {
  }

  lemma CommandKeepsTables(w: World, a: Action)
    requires Valid(w.db) && Enabled(w, a) && !a.ByService() && !a.Edit?
    ensures Valid(Act(w, a).db) && Evolves(w.db, Act(w, a).db)
  {
    match a {
      case Start(job) => StartJobOutcome(w.db, job);
      case Validate(job) => ValidateJobOutcome(w.db, job);
      case Restart(job) => RestartJobOutcome(w.db, job);
      case AbortRun(job) => UpdateKeepsValid(w.db, ActiveOf(job), ToAborted);
    }
  }

  /** The UPDATE an action issues on the run table. */
  function WhereOf(w: World, a: Action): Where
    requires Enabled(w, a) && (a.Claim? || a.FinishRun? || a.AbortRun?)
  {
    match a
    case Claim(s) => PendingOf(PcOf(w, s).job)
    case FinishRun(s, _) => RunningWithId(PcOf(w, s).run.id)
    case AbortRun(job) => ActiveOf(job)
  }

  function ChangeOf(w: World, a: Action): Change
    requires Enabled(w, a) && (a.Claim? || a.FinishRun? || a.AbortRun?)
  {
    match a
    case Claim(_) => ToRunning
    case FinishRun(s, error) => ToFinished(if PcOf(w, s).ok then Success else Failure(error))
    case AbortRun(_) => ToAborted
  }

  lemma ActIsUpdate(w: World, a: Action)
    requires Enabled(w, a) && (a.Claim? || a.FinishRun? || a.AbortRun?)
    ensures Act(w, a).db == Update(w.db, WhereOf(w, a), ChangeOf(w, a)).0
    ensures Issued(w.db.runs, WhereOf(w, a), ChangeOf(w, a))
  {
  }

  lemma ActIsContinue(w: World, a: Action)
    requires Enabled(w, a) && a.Continue?
    ensures Act(w, a).db == ContinueJob(w.db, PcOf(w, a.s).run.job).0
  {
  }

  /** Each action leaves the tables valid and moves them by one legal step. */
  lemma ActKeepsTables(w: World, a: Action)
    requires Valid(w.db) && Enabled(w, a)
    ensures Valid(Act(w, a).db) && Evolves(w.db, Act(w, a).db)
  {
    if a.Claim? || a.FinishRun? {
      ActIsUpdate(w, a);
      UpdateKeepsValid(w.db, WhereOf(w, a), ChangeOf(w, a));
    } else if a.Continue? {
      ActIsContinue(w, a);
      ContinueJobOutcome(w.db, PcOf(w, a.s).run.job);
    } else if LeavesHistory(a) {
      HistoryIsLeft(w, a);
      SameHistory(w.db, Act(w, a).db);
    } else {
      CommandKeepsTables(w, a);
    }
  }

  lemma SameHistory(t: Tables, t': Tables)
    requires Valid(t)
    requires t'.jobs == t.jobs && t'.runs == t.runs && t'.channel == t.channel && t'.clock == t.clock
    ensures Valid(t') && Evolves(t, t')
  {
  }

  /** Nothing was done to the job's step and no run was inserted for it. */
  ghost predicate Undisturbed(t: Tables, t': Tables, job: JobId) {
    && (job in t.jobs ==> job in t'.jobs && t'.jobs[job] == t.jobs[job])
    && (forall i :: |t.runs| <= i < |t'.runs| ==> t'.runs[i].job != job)
  }

  // ----- the services an action does not belong to

  /** What was safe to hold stays safe as the tables evolve and owners are added. */
  lemma PcStaysSafe(db: Tables, db': Tables, owners: map<nat, nat>, owners': map<nat, nat>, s: nat, pc: Pc)
    requires PcSafe(db, owners, s, pc) && Evolves(db, db')
    requires forall id :: id in owners ==> id in owners' && owners'[id] == owners[id]
    requires pc.Advancing? ==> Undisturbed(db, db', pc.run.job)
    ensures PcSafe(db', owners', s, pc)
  {
  }

  lemma UpdateUndisturbs(t: Tables, where: Where, change: Change, job: JobId)
    ensures Undisturbed(t, Update(t, where, change).0, job)
  {
  }

  /** The command line only moves jobs that are new or still in transcription. */
  lemma CommandUndisturbs(t: Tables, a: Action, job: JobId)
    requires Valid(t) && job in t.jobs && t.jobs[job] != Extract
    ensures a.Start? && a.job !in t.jobs ==> Undisturbed(t, StartJob(t, a.job).0, job)
    ensures a.Validate? ==> Undisturbed(t, ValidateJob(t, a.job).0, job)
    ensures a.Restart? ==> Undisturbed(t, RestartJob(t, a.job).0, job)
  {
    match a {
      case Start(k) => if k !in t.jobs { StartJobOutcome(t, k); }
      case Validate(k) => ValidateJobOutcome(t, k);
      case Restart(k) => RestartJobOutcome(t, k);
      case _ =>
    }
  }

  lemma ContinueUndisturbs(t: Tables, k: JobId, job: JobId)
    requires Valid(t) && job in t.jobs && k != job
    ensures Undisturbed(t, ContinueJob(t, k).0, job)
  {
    ContinueJobOutcome(t, k);
  }

  /** Two services about to advance do not share a job: its latest run has one owner. */
  lemma AdvancingJobsDiffer(w: World, s: nat, s': nat)
    requires Safe(w) && s != s' && PcOf(w, s).Advancing? && PcOf(w, s').Advancing?
    ensures PcOf(w, s).run.job != PcOf(w, s').run.job
  {
    var run, other := w.services[s].pc.run, w.services[s'].pc.run;
    assert PcSafe(w.db, w.owners, s, w.services[s].pc) && PcSafe(w.db, w.owners, s', w.services[s'].pc);
    if other.job == run.job { LatestIsUnique(w.db.runs, run.job, run.id, other.id); }
  }

  /** While one service is about to advance a job, no other actor can move that job. */
  lemma AdvancingIsUndisturbed(w: World, a: Action, s: nat)
    requires Safe(w) && Enabled(w, a)
    requires PcOf(w, s).Advancing?
    requires a.Continue? ==> a.s != s
    ensures Undisturbed(w.db, Act(w, a).db, PcOf(w, s).run.job)
  {
    var job := PcOf(w, s).run.job;
    assert PcSafe(w.db, w.owners, s, w.services[s].pc);
    if a.Claim? || a.FinishRun? || a.AbortRun? {
      ActIsUpdate(w, a);
      UpdateUndisturbs(w.db, WhereOf(w, a), ChangeOf(w, a), job);
    } else if a.Continue? {
      ActIsContinue(w, a);
      AdvancingJobsDiffer(w, s, a.s);
      ContinueUndisturbs(w.db, PcOf(w, a.s).run.job, job);
    } else if LeavesHistory(a) {
      HistoryIsLeft(w, a);
    } else {
      CommandUndisturbs(w.db, a, job);
    }
  }

  // ----- the service an action belongs to

  ghost predicate Extends(owners: map<nat, nat>, owners': map<nat, nat>) {
    forall id :: id in owners ==> id in owners' && owners'[id] == owners[id]
  }

  /** What a step of one service must leave behind for the rest of the argument. */
  ghost predicate StepsSafely(w: World, w': World, s: nat) {
    && s < |w.services|
    && |w'.services| == |w.services|
    && (forall k :: 0 <= k < |w.services| && k != s ==> w'.services[k] == w.services[k])
    && Extends(w.owners, w'.owners)
    && Owned(w'.db, w'.owners)
    && PcSafe(w'.db, w'.owners, s, w'.services[s].pc)
  }

  /** The claimed row, and its new owner. */
  lemma TakingIsSafe(t: Tables, owners: map<nat, nat>, i: nat, r: RunRow, s: nat)
    requires Owned(t, owners) && Touchable(t, i, r) && t.runs[i].status == PendingText && r.status == RunningText
    requires Decode(r).Ok? && t.runs[i].id == i
    ensures Owned(Touched(t, i, r), owners[i := s]) && Extends(owners, owners[i := s])
    ensures Holds(Touched(t, i, r), owners[i := s], s, Decode(r).value)
  {
  }

  lemma ClaimIsSafe(w: World, s: nat)
    requires Safe(w) && PcOf(w, s).Claiming?
    ensures StepsSafely(w, DoClaim(w, s), s)
  {
    var where := PendingOf(PcOf(w, s).job);
    UpdateTouchesOne(w.db, where, ToRunning);
    match FirstMatch(w.db.runs, where) {
      case None =>
      case Some(i) =>
        assert w.db.runs[i].id == i;
        TakingIsSafe(w.db, w.owners, i, Changed(ToRunning, w.db.runs[i], w.db.clock), s);
    }
  }

  /** While the run is running, the job is on the run's step: that is what gets loaded. */
  lemma LoadIsSafe(w: World, s: nat)
    requires Safe(w) && PcOf(w, s).Begun?
    ensures StepsSafely(w, DoLoad(w, s), s)
  {
    var run := PcOf(w, s).run;
    assert PcSafe(w.db, w.owners, s, w.services[s].pc);
    assert w.db.runs[run.id].job in w.db.jobs;
  }

  /** Service `s` has moved through its body and nothing but chunks, transcripts and answers has changed. */
  predicate InPlace(w: World, w': World, s: nat) {
    && s < |w.services|
    && w'.services == w.services[s := w.services[s].(pc := PcOf(w', s))]
    && InBody(PcOf(w, s)) && InBody(PcOf(w', s))
    && PcOf(w', s).run == PcOf(w, s).run && BodyStep(PcOf(w', s)) == BodyStep(PcOf(w, s))
    && w'.owners == w.owners
    && w'.db.jobs == w.db.jobs && w'.db.runs == w.db.runs && w'.db.channel == w.db.channel && w'.db.clock == w.db.clock
  }

  lemma WritingIsInPlace(w: World, a: Action)
    requires (a.Extracted? || a.StoreChunks? || a.StoreVector?) && BodyEnabled(w, a)
    ensures InPlace(w, ActBody(w, a), a.s)
  {
  }

  lemma ReadingIsInPlace(w: World, a: Action)
    requires (a.ReadTranscript? || a.ReadChunks? || a.AskEmbedder?) && BodyEnabled(w, a)
    ensures InPlace(w, ActBody(w, a), a.s)
  {
  }

  lemma EndingIsInPlace(w: World, a: Action)
    requires (a.ExtractFailed? || a.EndEmbedding? || a.BailOut?) && BodyEnabled(w, a)
    ensures InPlace(w, ActBody(w, a), a.s)
  {
  }

  /** A body keeps the run and the step it was given, and owns nothing new. */
  lemma BodyIsInPlace(w: World, a: Action)
    requires IsBody(a) && BodyEnabled(w, a)
    ensures InPlace(w, ActBody(w, a), a.s)
  {
    if a.Extracted? || a.StoreChunks? || a.StoreVector? {
      WritingIsInPlace(w, a);
    } else if a.ReadTranscript? || a.ReadChunks? || a.AskEmbedder? {
      ReadingIsInPlace(w, a);
    } else {
      EndingIsInPlace(w, a);
    }
  }

  lemma InPlaceIsSafe(w: World, w': World, s: nat)
    requires Safe(w) && InPlace(w, w', s)
    ensures StepsSafely(w, w', s)
  {
    assert PcSafe(w.db, w.owners, s, w.services[s].pc);
  }

  /** A service that moves without holding a run then. */
  lemma RestingIsSafe(w: World, s: nat, svc: Service)
    requires Safe(w) && s < |w.services| && !HasRun(svc.pc)
    ensures StepsSafely(w, w.(services := w.services[s := svc]), s)
  {
  }

  predicate Listens(a: Action) {
    a.Subscribe? || a.Sweep? || a.TakeSwept? || a.Receive? || a.Shutdown?
  }

  lemma ListeningMovesOne(w: World, a: Action)
    requires Listens(a) && LoopEnabled(w, a)
    ensures
      var svc := SvcOf(ActLoop(w, a), a.s);
      a.s < |w.services| && ActLoop(w, a) == w.(services := w.services[a.s := svc]) && !HasRun(svc.pc)
  {
  }

  lemma LoopIsSafe(w: World, a: Action)
    requires Safe(w) && a.ByService() && !IsBody(a) && LoopEnabled(w, a)
    ensures StepsSafely(w, ActLoop(w, a), a.s)
  {
    if a.Claim? {
      ClaimIsSafe(w, a.s);
    } else if a.Load? {
      LoadIsSafe(w, a.s);
    } else if a.FinishRun? {
      FinishIsSafe(w, a.s, a.error);
    } else if a.Continue? {
      ContinueIsSafe(w, a.s);
    } else {
      ListeningMovesOne(w, a);
      RestingIsSafe(w, a.s, SvcOf(ActLoop(w, a), a.s));
    }
  }

  /** `finish` answers with a run exactly when the run is still running. */
  lemma FinishOutcome(t: Tables, id: nat, outcome: StepOutcome)
    requires Valid(t) && id < |t.runs|
    ensures
      var (t', r) := Finish(t, id, outcome);
      && (r.Ok? && r.value.Some? <==> t.runs[id].status == RunningText)
      && (t.runs[id].status != RunningText ==> t' == t.(clock := t.clock + 1))
      && (t.runs[id].status == RunningText ==>
        && t' == Touched(t, id, Changed(ToFinished(outcome), t.runs[id], t.clock))
        && r.value.value.id == id
        && r.value.value.step == t.runs[id].step)
  {
    UpdateTouchesOne(t, RunningWithId(id), ToFinished(outcome));
    var first := FirstMatch(t.runs, RunningWithId(id));
    assert first.Some? ==> t.runs[first.value].id == first.value;
    assert t.runs[id].id == id;
  }

  lemma TouchKeepsOwned(t: Tables, owners: map<nat, nat>, i: nat, r: RunRow)
    requires Owned(t, owners) && Touchable(t, i, r) && t.runs[i].status == RunningText
    ensures Owned(Touched(t, i, r), owners)
  {
  }

  /** A running run that succeeds past `extract` leaves its job unmoved behind it. */
  lemma SuccessIsUnmoved(t: Tables, run: StepRun)
    requires Valid(t) && run.id < |t.runs| && t.runs[run.id].status == RunningText
    requires run.job == t.runs[run.id].job && run.step == t.runs[run.id].step && run.step != Extract
    ensures Unmoved(Finish(t, run.id, Success).0, run)
  {
    FinishOutcome(t, run.id, Success);
    ActiveIsLatest(t, run.id);
    assert t.runs[run.id].step == t.jobs[run.job];
  }

  lemma FinishIsSafe(w: World, s: nat, error: string)
    requires Safe(w) && PcOf(w, s).Executed?
    ensures StepsSafely(w, DoFinishRun(w, s, error), s)
  {
    var pc := PcOf(w, s);
    var outcome := if pc.ok then Success else Failure(error);
    assert PcSafe(w.db, w.owners, s, w.services[s].pc);
    FinishOutcome(w.db, pc.run.id, outcome);
    if w.db.runs[pc.run.id].status == RunningText {
      FinishedIsHeld(w, s, outcome);
      if pc.ok && pc.run.step != Extract { SuccessIsUnmoved(w.db, pc.run); }
    }
  }

  lemma FinishedIsHeld(w: World, s: nat, outcome: StepOutcome)
    requires Safe(w) && PcOf(w, s).Executed?
    requires PcOf(w, s).run.id < |w.db.runs| && w.db.runs[PcOf(w, s).run.id].status == RunningText
    ensures var t := Finish(w.db, PcOf(w, s).run.id, outcome).0; Owned(t, w.owners) && Holds(t, w.owners, s, PcOf(w, s).run)
  {
    var run := PcOf(w, s).run;
    assert PcSafe(w.db, w.owners, s, w.services[s].pc);
    FinishOutcome(w.db, run.id, outcome);
    TouchKeepsOwned(w.db, w.owners, run.id, Changed(ToFinished(outcome), w.db.runs[run.id], w.db.clock));
  }

  lemma InsertKeepsOwned(t: Tables, owners: map<nat, nat>, r: RunRow, s: nat)
    requires Owned(t, owners)
    ensures r.status == PendingText ==> Owned(Inserted(t, r), owners)
    ensures r.status == RunningText ==> Owned(Inserted(t, r), owners[|t.runs| := s]) && Extends(owners, owners[|t.runs| := s])
  {
  }

  /** What `continue_job` does for a service whose run has succeeded. */
  ghost predicate Continues(t: Tables, run: StepRun) {
    var row := RunningRow(t.runs, run.job, Embed, t.clock);
    if run.step == Chunk then ContinueJob(t, run.job) == (Inserted(t, row), Ok(Next(Decode(row).value)))
    else run.step == Embed && ContinueJob(t, run.job) == (t.(jobs := t.jobs[run.job := Completed]), Ok(AllDone))
  }

  /** It is never refused. */
  lemma AdvancingContinues(w: World, s: nat)
    requires Safe(w) && PcOf(w, s).Advancing?
    ensures PcOf(w, s).run.job in w.db.jobs && Continues(w.db, PcOf(w, s).run)
  {
    var run := PcOf(w, s).run;
    assert PcSafe(w.db, w.owners, s, w.services[s].pc);
    assert LatestSucceeded(w.db.runs, run.job, run.step);
    if run.step == Chunk { ChunkContinues(w.db, run.job); } else { EmbedContinues(w.db, run.job); }
  }

  lemma ContinuedIsOwned(w: World, s: nat)
    requires PcOf(w, s).Advancing? && PcOf(w, s).run.job in w.db.jobs
    requires Continues(w.db, PcOf(w, s).run) && Owned(w.db, w.owners)
    ensures StepsSafely(w, DoContinue(w, s), s)
  {
    InsertKeepsOwned(w.db, w.owners, RunningRow(w.db.runs, PcOf(w, s).run.job, Embed, w.db.clock), s);
  }

  /** The run `continue_job` begins is owned by the service that called it. */
  lemma ContinueIsSafe(w: World, s: nat)
    requires Safe(w) && PcOf(w, s).Advancing?
    ensures StepsSafely(w, DoContinue(w, s), s)
  {
    AdvancingContinues(w, s);
    ContinuedIsOwned(w, s);
  }

  lemma ServiceStepsSafely(w: World, a: Action)
    requires Safe(w) && Enabled(w, a) && a.ByService()
    ensures StepsSafely(w, Act(w, a), a.s)
  {
    if IsBody(a) {
      BodyIsInPlace(w, a);
      InPlaceIsSafe(w, ActBody(w, a), a.s);
    } else {
      LoopIsSafe(w, a);
    }
  }

  // ----- all together

  lemma TransitionKeepsOwned(w: World, a: Action)
    requires Valid(w.db) && Owned(w.db, w.owners) && (a.Start? || a.Validate? || a.Restart?) && CommandEnabled(w, a)
    ensures Owned(ActCommand(w, a).db, w.owners)
  {
    if a.Start? {
      StartJobOutcome(w.db, a.job);
      InsertKeepsOwned(w.db, w.owners, PendingRow(w.db.runs, a.job, Extract), 0);
    } else if a.Validate? {
      ValidateJobOutcome(w.db, a.job);
      InsertKeepsOwned(w.db, w.owners, PendingRow(w.db.runs, a.job, Chunk), 0);
    } else {
      RestartJobOutcome(w.db, a.job);
      InsertKeepsOwned(w.db, w.owners, PendingRow(w.db.runs, a.job, Extract), 0);
    }
  }

  lemma CommandKeepsOwned(w: World, a: Action)
    requires Safe(w) && !a.ByService() && CommandEnabled(w, a)
    ensures Owned(ActCommand(w, a).db, w.owners)
    ensures ActCommand(w, a).owners == w.owners && ActCommand(w, a).services == w.services
  {
    if a.AbortRun? {
      AbortKeepsOwned(w.db, w.owners, a.job);
    } else if !a.Edit? {
      TransitionKeepsOwned(w, a);
    }
  }

  lemma AbortKeepsOwned(t: Tables, owners: map<nat, nat>, job: JobId)
    requires Valid(t) && Owned(t, owners) && NonePending(t.runs, job)
    ensures Owned(Abort(t, job).0, owners)
  {
    UpdateTouchesOne(t, ActiveOf(job), ToAborted);
  }

  lemma OtherStaysSafe(w: World, a: Action, s: nat)
    requires Safe(w) && Enabled(w, a) && s < |w.services| && (a.ByService() ==> s != a.s)
    requires Evolves(w.db, Act(w, a).db) && Extends(w.owners, Act(w, a).owners)
    ensures PcSafe(Act(w, a).db, Act(w, a).owners, s, w.services[s].pc)
  {
    if w.services[s].pc.Advancing? { AdvancingIsUndisturbed(w, a, s); }
    assert PcSafe(w.db, w.owners, s, w.services[s].pc);
    PcStaysSafe(w.db, Act(w, a).db, w.owners, Act(w, a).owners, s, w.services[s].pc);
  }

  lemma ActKeepsAllSafe(w: World, a: Action)
    requires Safe(w) && Enabled(w, a)
    requires a.ByService() ==> StepsSafely(w, Act(w, a), a.s)
    requires !a.ByService() ==> Act(w, a).owners == w.owners && Act(w, a).services == w.services
    ensures AllSafe(Act(w, a).db, Act(w, a).owners, Act(w, a).services)
  {
    var w' := Act(w, a);
    ActKeepsTables(w, a);
    forall s | 0 <= s < |w'.services| && !(a.ByService() && s == a.s)
      ensures PcSafe(w'.db, w'.owners, s, w'.services[s].pc)
    {
      OtherStaysSafe(w, a, s);
    }
  }

  /** Every action keeps the protocol safe. */
  lemma ActKeepsSafe(w: World, a: Action)
    requires Safe(w) && Enabled(w, a)
    ensures Safe(Act(w, a)) && Evolves(w.db, Act(w, a).db) && Extends(w.owners, Act(w, a).owners)
  {
    ActKeepsTables(w, a);
    if a.ByService() { ServiceStepsSafely(w, a); } else { CommandKeepsOwned(w, a); }
    ActKeepsAllSafe(w, a);
  }

  lemma InitIsSafe(w: World)
    requires Init(w)
    ensures Safe(w)
  {
  }
}
