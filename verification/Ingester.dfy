/**
 The service's own code, statement by statement, with every other actor let loose between
 any two statements: `env` decides what they do, and every claim holds for every `env`.
 */
module Ingester {
  import opened Wrappers
  import opened Ingestion
  import opened Tables
  import opened Protocol
  import opened Safety
  import opened Wakeups
  import opened Readings
  import opened Indexing
  import Database

  /** How driving a claimed run ends. */
  datatype DriveEnd =
    | NothingToClaim
    | Disappeared
    | AwaitingValidation(run: StepRun)
    | JobDone(job: JobId)
    | StepFailed
    | EndedExternally
    | ContinueRefused(error: Error)

  /** How a service moves through a body: it keeps its run, and ends executed. */
  predicate Moves(pc: Pc, a: Action, pc': Pc)
    requires IsBody(a) && InBody(pc) && (a.AskEmbedder? || a.StoreVector? ==> pc.Embedding?)
  {
    && InBody(pc') && pc'.run == pc.run
    && match a
      case Extracted(_, _) => pc' == Executed(pc.run, Extract, true)
      case ExtractFailed(_) => pc' == Executed(pc.run, Extract, false)
      case ReadTranscript(_) => pc'.Replacing? || pc' == Executed(pc.run, Chunk, false)
      case StoreChunks(_) => pc'.Executed? && pc'.body == Chunk
      case ReadChunks(_) =>
        pc' == Executed(pc.run, Embed, false) || (pc'.Embedding? && pc'.done == 0 && pc'.vectors == [])
      case AskEmbedder(_, _) =>
        || pc' == Executed(pc.run, Embed, false)
        || (pc'.Embedding? && pc' == pc.(vectors := pc'.vectors) && pc.done + |pc'.vectors| == BatchEnd(pc.done, |pc.rows|))
      case StoreVector(_) =>
        || pc' == Executed(pc.run, Embed, false)
        || (pc.vectors != [] && pc' == pc.(done := pc.done + 1, vectors := pc.vectors[1..]))
      case EndEmbedding(_) => pc' == Executed(pc.run, Embed, true)
      case BailOut(_) => pc' == Executed(pc.run, Completed, false)
  }

  predicate MovesBy(w: World, a: Action, w': World)
    requires IsBody(a)
  {
    && InBody(PcOf(w, a.s)) && (a.AskEmbedder? || a.StoreVector? ==> PcOf(w, a.s).Embedding?)
    && Moves(PcOf(w, a.s), a, PcOf(w', a.s))
  }

  lemma EmbeddingMoves(w: World, a: Action)
    requires (a.ReadChunks? || a.AskEmbedder? || a.StoreVector? || a.EndEmbedding?) && BodyEnabled(w, a)
    ensures MovesBy(w, a, ActBody(w, a))
  {
  }

  lemma OtherBodiesMove(w: World, a: Action)
    requires IsBody(a) && BodyEnabled(w, a)
    requires !a.ReadChunks? && !a.AskEmbedder? && !a.StoreVector? && !a.EndEmbedding?
    ensures MovesBy(w, a, ActBody(w, a))
  {
  }

  lemma BodyMoves(w: World, a: Action)
    requires IsBody(a) && BodyEnabled(w, a)
    ensures MovesBy(w, a, ActBody(w, a))
  {
    if a.ReadChunks? || a.AskEmbedder? || a.StoreVector? || a.EndEmbedding? {
      EmbeddingMoves(w, a);
    } else {
      OtherBodiesMove(w, a);
    }
  }

  ghost predicate AllTracked(w: World, jobs: iset<JobId>) {
    forall job {:trigger Tracked(w, job)} :: job in jobs ==> Tracked(w, job)
  }

  /** The jobs an action does not spoil. */
  ghost function Remaining(w: World, a: Action, jobs: iset<JobId>): iset<JobId> {
    iset job | job in jobs && !Spoils(w, a, job)
  }

  lemma TrackedRemain(w: World, a: Action, jobs: iset<JobId>)
    requires AllTracked(w, jobs) && Enabled(w, a)
    ensures AllTracked(Act(w, a), Remaining(w, a, jobs))
  {
    forall job | job in Remaining(w, a, jobs) ensures Tracked(Act(w, a), job) {
      assert Tracked(w, job);
      ActKeepsTracked(w, a, job);
    }
  }

  lemma ActKeepsAll(w: World, a: Action, s: nat, jobs: iset<JobId>)
    requires Sound(w) && AllAwake(w) && AllTracked(w, jobs) && s < |w.services| && Enabled(w, a)
    ensures Sound(Act(w, a)) && AllAwake(Act(w, a)) && AllTracked(Act(w, a), Remaining(w, a, jobs))
    ensures s < |Act(w, a).services|
    ensures !(a.ByService() && a.s == s) ==> Act(w, a).services[s] == w.services[s]
    ensures !a.Subscribe? && !a.Sweep? && !a.TakeSwept? ==> Act(w, a).services[s].sweep == w.services[s].sweep
  {
    ActKeepsSound(w, a);
    ActKeepsAwake(w, a);
    TrackedRemain(w, a, jobs);
    OthersAreUntouched(w, a);
    if a.ByService() && a.s == s && !a.Subscribe? && !a.Sweep? && !a.TakeSwept? { SweepIsLeft(w, a); }
  }

  /** A body that ended well has left its run's job with all its data, if nobody spoiled it. */
  ghost predicate Delivered(w: World, s: nat, unspoiled: iset<JobId>)
    requires PcOf(w, s).Executed?
  {
    var pc := PcOf(w, s);
    pc.ok && pc.run.job in unspoiled && pc.body == pc.run.step ==>
      && (pc.body == Chunk ==> pc.run.id < |w.db.runs| && Chunked(w, pc.run.id))
      && (pc.body == Embed ==> AllVectored(w, pc.run.job))
  }

  lemma ExecutedIsDelivered(w: World, s: nat, unspoiled: iset<JobId>)
    requires Sound(w) && AllTracked(w, unspoiled) && PcOf(w, s).Executed?
    ensures Delivered(w, s, unspoiled)
  {
    var pc := w.services[s].pc;
    assert PcSafe(w.db, w.owners, s, w.services[s].pc);
    if pc.run.job in unspoiled {
      assert Tracked(w, pc.run.job);
      assert PcTracked(w, pc.run.job, pc);
    }
  }

  lemma DoneIsIndexed(w: World, job: JobId, unspoiled: iset<JobId>)
    requires AllTracked(w, unspoiled) && job in w.db.jobs && w.db.jobs[job] == Completed
    ensures job in unspoiled ==> Indexed(w, job)
  {
    if job in unspoiled {
      assert Tracked(w, job);
      CompletedIsIndexed(w, job);
    }
  }

  class Instance {
    const me: nat
    /** The database, shared with every other actor. */
    const db: Database.Db
    /** What the other actors do at each pause, what the document yields, what the embedder answers. */
    const env: nat -> seq<Action>
    const document: nat -> Option<string>
    const embedder: nat -> Option<seq<Vector>>
    /** Where everyone is; its tables are the database's. */
    var w: World
    var pause: nat
    /** Jobs whose chunks nobody has replaced, as far as this instance has run, after their chunk run stored them. */
    ghost var unspoiled: iset<JobId>

    ghost predicate Valid()
      reads this, db
    {
      Sound(w) && AllAwake(w) && AllTracked(w, unspoiled) && me < |w.services| && db.View() == w.db
    }

    function Pc(): Pc
      reads this
    {
      PcOf(w, me)
    }

    /** What is left of the sweep. */
    function Left(): seq<JobId>
      reads this
    {
      if me < |w.services| then w.services[me].sweep else []
    }

    constructor (me: nat, db: Database.Db, env: nat -> seq<Action>, document: nat -> Option<string>,
        embedder: nat -> Option<seq<Vector>>, w: World, ghost unspoiled: iset<JobId>)
      requires Sound(w) && AllAwake(w) && AllTracked(w, unspoiled) && me < |w.services| && db.View() == w.db
      ensures Valid() && this.w == w && this.me == me && this.db == db && this.unspoiled == unspoiled
    {
      this.me, this.db, this.env, this.document, this.embedder := me, db, env, document, embedder;
      this.w, this.pause, this.unspoiled := w, 0, unspoiled;
    }

    // ----- statements

    method PerformCommand(a: Action)
      requires !a.ByService() && CommandEnabled(w, a) && db.View() == w.db
      modifies db
      ensures db.View() == ActCommand(w, a).db
    {
      match a {
        case Start(job) => var run := db.StartJob(job);
        case Validate(job) => var run := db.ValidateJob(job);
        case Restart(job) => var run := db.RestartJob(job);
        case Edit(job, text) => db.UpsertTranscript(job, text);
        case AbortRun(job) => var run := db.Abort(job);
      }
    }

    method PerformBody(a: Action)
      requires IsBody(a) && BodyEnabled(w, a) && db.View() == w.db
      modifies db
      ensures db.View() == ActBody(w, a).db
    {
      var pc := PcOf(w, a.s);
      if a.Extracted? {
        db.UpsertTranscript(pc.run.job, a.text);
      } else if a.StoreChunks? {
        var inserted := db.ReplaceChunks(pc.run.job, pc.news);
      } else if a.StoreVector? {
        var stored := db.StoreEmbedding(pc.rows[pc.done].id, pc.vectors[0]);
      }
    }

    method PerformLoop(a: Action)
      requires a.ByService() && !IsBody(a) && LoopEnabled(w, a) && db.View() == w.db
      modifies db
      ensures db.View() == ActLoop(w, a).db
    {
      var pc := PcOf(w, a.s);
      if a.Claim? {
        var claimed := db.ClaimPendingRun(pc.job);
      } else if a.FinishRun? {
        var finished := db.Finish(pc.run.id, if pc.ok then Success else Failure(a.error));
      } else if a.Continue? {
        var advanced := db.ContinueJob(pc.run.job);
      }
    }

    /** One statement or transaction of any actor, run on the database. */
    method Perform(a: Action)
      requires Enabled(w, a) && db.View() == w.db
      modifies db
      ensures db.View() == Act(w, a).db
    {
      if !a.ByService() {
        PerformCommand(a);
      } else if IsBody(a) {
        PerformBody(a);
      } else {
        PerformLoop(a);
      }
    }

    /** After the statement: where its actor is now. */
    method Record(a: Action)
      requires Sound(w) && AllAwake(w) && AllTracked(w, unspoiled) && me < |w.services|
      requires Enabled(w, a) && db.View() == Act(w, a).db
      modifies this`w, this`unspoiled
      ensures Valid() && w == Act(old(w), a)
      ensures unspoiled == Remaining(old(w), a, old(unspoiled))
      ensures !(a.ByService() && a.s == me) ==> w.services[me] == old(w).services[me]
      ensures !a.Subscribe? && !a.Sweep? && !a.TakeSwept? ==> Left() == old(Left())
    {
      ActKeepsAll(w, a, me, unspoiled);
      unspoiled := Remaining(w, a, unspoiled);
      w := Act(w, a);
    }

    /** One statement of this service. */
    method Do(a: Action)
      requires Valid() && Enabled(w, a) && a.ByService() && a.s == me
      modifies this`w, this`unspoiled, db
      ensures Valid() && w == Act(old(w), a)
      ensures !a.Subscribe? && !a.Sweep? && !a.TakeSwept? ==> Left() == old(Left())
    {
      Perform(a);
      Record(a);
    }

    /** The other actors take whichever of their scheduled actions are possible. */
    method Others()
      requires Valid()
      modifies this, db
      ensures Valid() && w.services[me] == old(w).services[me]
    {
      var schedule := env(pause);
      pause := pause + 1;
      for k := 0 to |schedule|
        modifies this`w, this`unspoiled, db
        invariant Valid() && w.services[me] == old(w).services[me]
      {
        var a := schedule[k];
        if Enabled(w, a) && !(a.ByService() && a.s == me) {
          Perform(a);
          Record(a);
        }
      }
    }

    /** One statement of a body of this service: all that matters to it is where it is then. */
    method DoBody(a: Action)
      requires Valid() && IsBody(a) && BodyEnabled(w, a) && a.s == me
      modifies this`w, this`unspoiled, db
      ensures Valid() && Left() == old(Left())
      ensures InBody(old(Pc())) && (a.AskEmbedder? || a.StoreVector? ==> old(Pc()).Embedding?) && Moves(old(Pc()), a, Pc())
    {
      BodyMoves(w, a);
      Do(a);
    }

    // ----- the bodies

    /** It ends well exactly if the document yields a text, and the job's transcript is that text then. */
    method ExtractStep()
      requires Valid() && Pc().Loaded? && Pc().step == Extract
      modifies this, db
      ensures Left() == old(Left())
      ensures Valid() && Pc().Executed? && Pc().run == old(Pc().run) && Pc().body == Extract
      ensures Pc().ok <==> document(old(pause)).Some?
      ensures Pc().ok ==>
        && Pc().run.job in db.transcripts && db.transcripts[Pc().run.job] == document(old(pause)).value
    {
      var text := document(pause);
      if text.Some? { WriteTranscript(text.value); } else { DoBody(ExtractFailed(me)); }
    }

    method WriteTranscript(text: string)
      requires Valid() && Pc().Loaded? && Pc().step == Extract
      modifies this`w, this`unspoiled, db
      ensures Valid() && Left() == old(Left()) && Pc() == Executed(old(Pc().run), Extract, true)
      ensures Pc().run.job in db.transcripts && db.transcripts[Pc().run.job] == text
    {
      Do(Extracted(me, text));
    }

    /** The chunks of the transcript as it is now; no transcript, or nothing to chunk, fails the body. */
    method ReadTranscriptRow()
      requires Valid() && Pc().Loaded? && Pc().step == Chunk
      modifies this, db
      ensures Left() == old(Left())
      ensures Valid() && (Pc().Replacing? || Pc() == Executed(old(Pc().run), Chunk, false))
      ensures Pc().run == old(Pc().run)
    {
      DoBody(ReadTranscript(me));
    }

    method ReplaceRows()
      requires Valid() && Pc().Replacing?
      modifies this, db
      ensures Left() == old(Left())
      ensures Valid() && Pc().Executed? && Pc().run == old(Pc().run) && Pc().body == Chunk
    {
      DoBody(StoreChunks(me));
    }

    method ChunkStep()
      requires Valid() && Pc().Loaded? && Pc().step == Chunk
      modifies this, db
      ensures Left() == old(Left())
      ensures Valid() && Pc().Executed? && Pc().run == old(Pc().run) && Pc().body == Chunk
      ensures Delivered(w, me, unspoiled)
    {
      ReadTranscriptRow();
      if Pc().Replacing? {
        Others();
        ReplaceRows();
      }
      ExecutedIsDelivered(w, me, unspoiled);
    }

    method ReadRows()
      requires Valid() && Pc().Loaded? && Pc().step == Embed
      modifies this, db
      ensures Left() == old(Left())
      ensures Valid() && (Pc().Embedding? || Pc().Executed?) && Pc().run == old(Pc().run)
      ensures Pc().Embedding? ==> Pc().vectors == [] && Pc().done == 0
      ensures Pc().Executed? ==> Pc().body == Embed
    {
      DoBody(ReadChunks(me));
    }

    /** The batches, and within each its vectors, until done or a failure. */
    method EmbedStep()
      requires Valid() && Pc().Loaded? && Pc().step == Embed
      modifies this, db
      ensures Left() == old(Left())
      ensures Valid() && Pc().Executed? && Pc().run == old(Pc().run) && Pc().body == Embed
      ensures Delivered(w, me, unspoiled)
    {
      ghost var run, left := Pc().run, Left();
      ReadRows();
      while Pc().Embedding? && Pc().done < |Pc().rows|
        invariant Valid() && InBatches() && Pc().run == run && Left() == left
        decreases Unembedded()
      {
        NextBatch();
      }
      if Pc().Embedding? {
        EndBatches();
      }
      ExecutedIsDelivered(w, me, unspoiled);
    }

    /** Between two batches, or out of them. */
    ghost predicate InBatches()
      reads this
    {
      || (Pc().Embedding? && Pc().vectors == [] && Pc().done <= |Pc().rows|)
      || (Pc().Executed? && Pc().body == Embed)
    }

    ghost function Unembedded(): int
      reads this
    {
      if Pc().Embedding? then |Pc().rows| - Pc().done else -1
    }

    method NextBatch()
      requires Valid() && Pc().Embedding? && Pc().vectors == [] && Pc().done < |Pc().rows|
      modifies this, db
      ensures Valid() && InBatches() && Pc().run == old(Pc().run) && Left() == old(Left())
      ensures Unembedded() < old(Unembedded())
    {
      Others();
      AskBatch();
      StoreBatch();
    }

    method EndBatches()
      requires Valid() && Pc().Embedding? && Pc().vectors == [] && Pc().done == |Pc().rows|
      modifies this, db
      ensures Left() == old(Left())
      ensures Valid() && Pc() == Executed(old(Pc().run), Embed, true)
    {
      DoBody(EndEmbedding(me));
    }

    /** One vector: a row that is gone by now fails the body. */
    method StoreOne()
      requires Valid() && Pc().Embedding? && Pc().vectors != [] && Pc().done < |Pc().rows|
      modifies this, db
      ensures Left() == old(Left())
      ensures Valid()
      ensures
        || Pc() == Executed(old(Pc().run), Embed, false)
        || Pc() == old(Pc().(done := Pc().done + 1, vectors := Pc().vectors[1..]))
    {
      DoBody(StoreVector(me));
    }

    method AskBatch()
      requires Valid() && Pc().Embedding? && Pc().vectors == [] && Pc().done < |Pc().rows|
      modifies this, db
      ensures Left() == old(Left())
      ensures Valid() && (Pc().Embedding? || Pc().Executed?) && Pc().run == old(Pc().run)
      ensures Pc().Executed? ==> Pc().body == Embed
      ensures Pc().Embedding? ==>
        && Pc().rows == old(Pc().rows) && Pc().done == old(Pc().done)
        && |Pc().vectors| == BatchEnd(Pc().done, |Pc().rows|) - Pc().done
    {
      DoBody(AskEmbedder(me, embedder(pause)));
    }

    method StoreBatch()
      requires Valid() && (Pc().Embedding? || Pc().Executed?)
      requires Pc().Executed? ==> Pc().body == Embed
      requires Pc().Embedding? ==> Pc().done + |Pc().vectors| <= |Pc().rows|
      modifies this, db
      ensures Left() == old(Left())
      ensures Valid() && (Pc().Embedding? || Pc().Executed?) && Pc().run == old(Pc().run)
      ensures Pc().Executed? ==> Pc().body == Embed
      ensures Pc().Embedding? ==>
        && old(Pc()).Embedding? && Pc().vectors == [] && Pc().rows == old(Pc().rows)
        && Pc().done == old(Pc().done + |Pc().vectors|)
    {
      while Pc().Embedding? && Pc().vectors != []
        invariant Valid() && (Pc().Embedding? || Pc().Executed?) && Pc().run == old(Pc().run)
        invariant Left() == old(Left())
        invariant Pc().Executed? ==> Pc().body == Embed
        invariant Pc().Embedding? ==>
          && old(Pc()).Embedding? && Pc().rows == old(Pc().rows)
          && Pc().done + |Pc().vectors| == old(Pc().done + |Pc().vectors|) <= |Pc().rows|
        decreases if Pc().Embedding? then |Pc().vectors| else 0
      {
        Others();
        StoreOne();
      }
    }

    /** `run_step`: dispatch on the loaded step. */
    method RunStep()
      requires Valid() && Pc().Loaded?
      modifies this, db
      ensures Left() == old(Left())
      ensures Valid() && Pc().Executed? && Pc().run == old(Pc().run)
    {
      Others();
      match Pc().step {
        case Extract => ExtractStep();
        case Chunk => ChunkStep();
        case Embed => EmbedStep();
        case Completed => DoBody(BailOut(me));
      }
    }

    // ----- driving a run

    /** The call of `finish`. */
    method EndRun(error: string) returns (r: Result<Option<StepRun>, Error>)
      requires Valid() && Pc().Executed?
      modifies this, db
      ensures Valid() && Left() == old(Left()) && r.Ok?
      ensures
        var pc := old(Pc());
        && Pc() == (if r.value.Some? && pc.ok && pc.run.step != Extract then Advancing(pc.run) else Ready)
        && pc.run.id < |w.db.runs|
        && w.db.runs[pc.run.id].status ==
            if r.value.None? then AbortedText else if pc.ok then SucceededText else FailedText
    {
      var pc := Pc();
      FinishTells(w, me, error);
      r := db.Finish(pc.run.id, if pc.ok then Success else Failure(error));
      Record(FinishRun(me, error));
    }

    /**
     `run_and_finish`: None exactly if the run was recorded as succeeded. Otherwise the step failed
     and the run says so, or the run had been aborted.
     */
    method RunAndFinish(error: string) returns (end: Option<DriveEnd>)
      requires Valid() && Pc().Loaded?
      modifies this, db
      ensures Left() == old(Left()) && Valid()
      ensures
        var run := old(Pc().run);
        && run.id < |w.db.runs|
        && Pc() == (if end.None? && run.step != Extract then Advancing(run) else Ready)
        && match end
          case None => w.db.runs[run.id].status == SucceededText
          case Some(StepFailed) => w.db.runs[run.id].status == FailedText
          case Some(EndedExternally) => w.db.runs[run.id].status == AbortedText
          case Some(_) => false
    {
      RunStep();
      Others();
      var ok := Pc().ok;
      var finished := EndRun(error);
      if finished.Err? || finished.value.None? {
        end := Some(EndedExternally);
      } else if !ok {
        end := Some(StepFailed);
      } else {
        end := None;
      }
    }

    /**
     `drive`: it always ends, and never by a refusal of `continue_job` or a job that is gone,
     whatever the other actors do at every pause. It is the job of the run it was given that is
     reported as done, completed and, unless someone spoiled it, indexed; it is that run that
     awaits validation, succeeded.
     */
    method Drive(error: string) returns (end: DriveEnd)
      requires Valid() && Pc().Loaded?
      modifies this, db
      ensures Left() == old(Left())
      ensures Valid() && Pc() == Ready
      ensures !end.ContinueRefused? && !end.Disappeared? && !end.NothingToClaim?
      ensures end.JobDone? ==>
        && end.job == old(Pc().run.job) && old(Pc().run.step) != Extract
        && end.job in w.db.jobs && w.db.jobs[end.job] == Completed
        && (end.job in unspoiled ==> Indexed(w, end.job))
      ensures end.AwaitingValidation? ==>
        && end.run == old(Pc().run)
        && end.run.step == Extract && end.run.id < |w.db.runs| && w.db.runs[end.run.id].status == SucceededText
    {
      var run := Pc().run;
      ghost var first := run;
      while true
        invariant Valid() && Pc().Loaded? && Pc().run == run && Left() == old(Left())
        invariant run.job == first.job && (run == first || (run.step != Extract && first.step != Extract))
        decreases 3 - run.step.Rank()
      {
        var stopped := RunAndFinish(error);
        if stopped.Some? {
          return stopped.value;
        }
        if run.step == Extract {
          return AwaitingValidation(run);
        }
        Others();
        var advanced := ContinueOn();
        match advanced {
          case Err(e) => return ContinueRefused(e);
          case Ok(AllDone) =>
            DoneIsIndexed(w, run.job, unspoiled);
            return JobDone(run.job);
          case Ok(Next(next)) =>
            run := next;
            Others();
            LoadJob();
            if !Pc().Loaded? {
              return Disappeared;
            }
        }
      }
    }

    /** `load`: the job has not disappeared. */
    method LoadJob()
      requires Valid() && Pc().Begun?
      modifies this, db
      ensures Valid() && Left() == old(Left())
      ensures Pc().Loaded? && Pc().run == old(Pc().run)
    {
      LoadTells(w, me);
      Do(Load(me));
    }

    /** The call of `continue_job`. */
    method ContinueOn() returns (r: Result<Advanced, Error>)
      requires Valid() && Pc().Advancing?
      modifies this, db
      ensures Valid() && Left() == old(Left()) && r.Ok?
      ensures r.value.AllDone? ==> Pc() == Ready && old(Pc().run.job) in w.db.jobs && w.db.jobs[old(Pc().run.job)] == Completed
      ensures r.value.Next? ==>
        && Pc() == Begun(r.value.run) && r.value.run.job == old(Pc().run.job)
        && r.value.run.step != Extract && old(Pc().run.step).Rank() < r.value.run.step.Rank() <= 2
    {
      ContinueTells(w, me);
      r := db.ContinueJob(Pc().run.job);
      Record(Continue(me));
    }

    /** The call of `claim_pending_run`. */
    method ClaimJob() returns (r: Result<Option<StepRun>, Error>)
      requires Valid() && Pc().Claiming?
      modifies this, db
      ensures Valid() && Left() == old(Left()) && r.Ok?
      ensures r.value.None? ==> Pc() == Ready && NonePending(old(w).db.runs, old(Pc().job))
      ensures r.value.Some? ==> Pc() == Begun(r.value.value) && r.value.value.job == old(Pc().job)
    {
      ClaimTells(w, me);
      r := db.ClaimPendingRun(Pc().job);
      Record(Claim(me));
    }

    /**
     `process`: claim the job's waiting run, if there is one, and drive it. The job claimed is
     never found to have disappeared, and it is the one reported.
     */
    method Process(error: string) returns (end: DriveEnd)
      requires Valid() && Pc().Claiming?
      modifies this, db
      ensures Left() == old(Left())
      ensures Valid() && Pc() == Ready && !end.ContinueRefused? && !end.Disappeared?
      ensures end.JobDone? ==>
        && end.job == old(Pc().job) && end.job in w.db.jobs && w.db.jobs[end.job] == Completed
        && (end.job in unspoiled ==> Indexed(w, end.job))
      ensures end.AwaitingValidation? ==> end.run.job == old(Pc().job) && end.run.step == Extract
    {
      Others();
      var claimed := ClaimJob();
      if claimed.Err? || claimed.value.None? {
        return NothingToClaim;
      }
      Others();
      LoadJob();
      if !Pc().Loaded? {
        return Disappeared;
      }
      end := Drive(error);
    }

    /** `sweep`: afterwards each waiting run's job has a notification this service has yet to read. */
    method SweepAll(jobs: seq<JobId>, error: string)
      requires Valid() && Enabled(w, Sweep(me, jobs))
      modifies this, db
      ensures Valid() && Pc() == Ready && w.services[me].sweep == []
      ensures forall i :: 0 <= i < |w.db.runs| && w.db.runs[i].status == PendingText ==>
        w.services[me].cursor <= |w.db.channel| && w.db.runs[i].job in w.db.channel[w.services[me].cursor..]
    {
      BeginSweep(jobs);
      for k := 0 to |jobs|
        invariant Valid() && Pc() == Ready && Left() == jobs[k..]
      {
        TakeNext();
        var end := Process(error);
      }
      SweptMeansAnnounced(w, me);
    }

    method BeginSweep(jobs: seq<JobId>)
      requires Valid() && Enabled(w, Sweep(me, jobs))
      modifies this, db
      ensures Valid() && Pc() == Ready && Left() == jobs
    {
      Do(Sweep(me, jobs));
    }

    method TakeNext()
      requires Valid() && Pc() == Ready && Left() != []
      modifies this, db
      ensures Valid() && Pc() == Claiming(old(Left())[0]) && Left() == old(Left())[1..]
    {
      Do(TakeSwept(me));
    }
  }

  /** With nothing left to sweep, a waiting run's job is among the unread notifications. */
  lemma SweptMeansAnnounced(w: World, s: nat)
    requires AllAwake(w) && s < |w.services| && w.services[s].pc == Ready && w.services[s].sweep == []
    ensures forall i :: 0 <= i < |w.db.runs| && w.db.runs[i].status == PendingText ==>
      w.services[s].cursor <= |w.db.channel| && w.db.runs[i].job in w.db.channel[w.services[s].cursor..]
  {
    assert Awake(w.db, w.services[s]);
    forall i | 0 <= i < |w.db.runs| && w.db.runs[i].status == PendingText
      ensures w.db.runs[i].job in w.db.channel[w.services[s].cursor..]
    {
      assert Ahead(w.db, w.services[s], w.db.runs[i].job);
    }
  }

  /** Only subscribing and sweeping touch what is left of the sweep. */
  lemma SweepIsLeft(w: World, a: Action)
    requires Enabled(w, a) && a.ByService() && !a.Subscribe? && !a.Sweep? && !a.TakeSwept?
    ensures SvcOf(Act(w, a), a.s).sweep == SvcOf(w, a.s).sweep
  {
    if IsBody(a) { BodyIsInPlace(w, a); } else { LoopLeavesSweep(w, a); }
  }

  lemma LoopLeavesSweep(w: World, a: Action)
    requires a.ByService() && !IsBody(a) && LoopEnabled(w, a) && !a.Subscribe? && !a.Sweep? && !a.TakeSwept?
    ensures SvcOf(ActLoop(w, a), a.s).sweep == SvcOf(w, a.s).sweep
  {
  }

  /** What `finish` answers, and where it leaves the service and the run. */
  lemma FinishTells(w: World, s: nat, error: string)
    requires Sound(w) && PcOf(w, s).Executed?
    ensures
      var pc := PcOf(w, s);
      var (db, r) := Finish(w.db, pc.run.id, if pc.ok then Success else Failure(error));
      var w' := DoFinishRun(w, s, error);
      && w'.db == db && r.Ok?
      && PcOf(w', s) == (if r.value.Some? && pc.ok && pc.run.step != Extract then Advancing(pc.run) else Ready)
      && pc.run.id < |db.runs|
      && db.runs[pc.run.id].status == if r.value.None? then AbortedText else if pc.ok then SucceededText else FailedText
  {
    var pc := PcOf(w, s);
    assert PcSound(w, w.services[s].pc);
    FinishAnswers(w.db, pc.run, if pc.ok then Success else Failure(error));
  }

  lemma FinishAnswers(t: Tables, run: StepRun, outcome: StepOutcome)
    requires History.Valid(t) && Open(t, run)
    ensures
      var (t', r) := Finish(t, run.id, outcome);
      && r.Ok? && run.id < |t'.runs|
      && t'.runs[run.id].status ==
          if r.value.None? then AbortedText else if outcome.Success? then SucceededText else FailedText
  {
    FinishOutcome(t, run.id, outcome);
    History.UpdateTouchesOne(t, RunningWithId(run.id), ToFinished(outcome));
  }

  /** What `claim_pending_run` answers, and where it leaves the service. */
  lemma ClaimTells(w: World, s: nat)
    requires Safe(w) && PcOf(w, s).Claiming?
    ensures
      var job := PcOf(w, s).job;
      var (db, r) := ClaimPendingRun(w.db, job);
      var w' := DoClaim(w, s);
      && w'.db == db && r.Ok?
      && (r.value.None? ==> PcOf(w', s) == Ready && NonePending(w.db.runs, job))
      && (r.value.Some? ==> PcOf(w', s) == Begun(r.value.value) && r.value.value.job == job)
  {
    History.UpdateTouchesOne(w.db, PendingOf(PcOf(w, s).job), ToRunning);
  }

  /** What `continue_job` answers, and where it leaves the service. */
  lemma ContinueTells(w: World, s: nat)
    requires Safe(w) && PcOf(w, s).Advancing?
    ensures
      var run := PcOf(w, s).run;
      var (db, r) := ContinueJob(w.db, run.job);
      var w' := DoContinue(w, s);
      && w'.db == db && r.Ok?
      && (r.value.AllDone? ==> PcOf(w', s) == Ready && run.job in db.jobs && db.jobs[run.job] == Completed)
      && (r.value.Next? ==>
        && PcOf(w', s) == Begun(r.value.run) && r.value.run.job == run.job
        && r.value.run.step != Extract && run.step.Rank() < r.value.run.step.Rank() <= 2)
  {
    AdvancingContinues(w, s);
  }

  /** A job that has a run has not disappeared. */
  lemma LoadTells(w: World, s: nat)
    requires Safe(w) && PcOf(w, s).Begun?
    ensures PcOf(Act(w, Load(s)), s).Loaded? && PcOf(Act(w, Load(s)), s).run == PcOf(w, s).run
  {
    assert PcSafe(w.db, w.owners, s, w.services[s].pc);
    assert w.db.runs[PcOf(w, s).run.id].job in w.db.jobs;
  }
}
