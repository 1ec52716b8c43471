/**
 No lost wake-up: because a service subscribes before it sweeps, every waiting run's job is
 still ahead of it, in its unread notifications, in its sweep, or in the claim it is making.
 */
module Wakeups {
  import opened Ingestion
  import opened Tables
  import opened History
  import opened Protocol
  import opened Safety

  /** The job is ahead of the service. */
  predicate Ahead(db: Tables, svc: Service, job: JobId) {
    || (svc.cursor <= |db.channel| && job in db.channel[svc.cursor..])
    || job in svc.sweep
    || svc.pc == Claiming(job)
  }

  /** The service has made its sweep query. */
  predicate Swept(svc: Service) {
    !svc.pc.Off? && !svc.pc.Starting?
  }

  ghost predicate Awake(db: Tables, svc: Service) {
    && svc.cursor <= |db.channel|
    && (Swept(svc) ==> forall i {:trigger db.runs[i]} :: 0 <= i < |db.runs| && db.runs[i].status == PendingText ==>
      Ahead(db, svc, db.runs[i].job))
  }

  ghost predicate AllAwake(w: World) {
    forall s {:trigger w.services[s]} :: 0 <= s < |w.services| ==> Awake(w.db, w.services[s])
  }

  /** A run that comes to wait is announced behind every listener's cursor. */
  lemma AwakeAsTablesEvolve(db: Tables, db': Tables, svc: Service)
    requires Awake(db, svc) && Evolves(db, db')
    ensures Awake(db', svc)
  {
    assert db'.channel == db.channel + db'.channel[|db.channel|..];
    forall i | Swept(svc) && 0 <= i < |db'.runs| && db'.runs[i].status == PendingText
      ensures Ahead(db', svc, db'.runs[i].job)
    {
      if i < |db.runs| {
        assert Ahead(db, svc, db.runs[i].job);
      } else {
        assert db'.runs[i].job in db'.channel[|db.channel|..];
      }
    }
  }

  /** After a claim the job has no waiting run, whether or not this claim took one. */
  lemma ClaimLeavesNonePending(t: Tables, job: JobId)
    ensures NonePending(ClaimPendingRun(t, job).0.runs, job)
  {
  }

  lemma SweptJobsCoverPending(runs: seq<RunRow>, jobs: seq<JobId>, i: nat)
    requires (set job | job in jobs) == PendingJobs(runs)
    requires i < |runs| && runs[i].status == PendingText
    ensures runs[i].job in jobs
  {
    assert runs[i].job in PendingJobs(runs);
  }

  lemma TakeSweptKeepsAwake(w: World, s: nat)
    requires PcOf(w, s).Ready? && w.services[s].sweep != [] && Awake(w.db, w.services[s])
    ensures Awake(DoTakeSwept(w, s).db, DoTakeSwept(w, s).services[s])
  {
    var svc := w.services[s];
    assert svc.sweep == [svc.sweep[0]] + svc.sweep[1..];
  }

  lemma ReceiveKeepsAwake(w: World, s: nat)
    requires PcOf(w, s).Ready? && w.services[s].cursor < |w.db.channel| && Awake(w.db, w.services[s])
    ensures Awake(DoReceive(w, s).db, DoReceive(w, s).services[s])
  {
    var svc := w.services[s];
    assert w.db.channel[svc.cursor..] == [w.db.channel[svc.cursor]] + w.db.channel[svc.cursor + 1..];
  }

  /** The claimed job is no longer ahead, but it has no waiting run any more. */
  lemma ClaimKeepsAwake(w: World, s: nat)
    requires PcOf(w, s).Claiming? && Awake(w.db, w.services[s]) && Evolves(w.db, DoClaim(w, s).db)
    ensures Awake(DoClaim(w, s).db, DoClaim(w, s).services[s])
  {
    AwakeAsTablesEvolve(w.db, DoClaim(w, s).db, w.services[s]);
    ClaimLeavesNonePending(w.db, w.services[s].pc.job);
  }

  lemma SweepKeepsAwake(w: World, s: nat, jobs: seq<JobId>)
    requires LoopEnabled(w, Sweep(s, jobs)) && Awake(w.db, w.services[s])
    ensures Awake(w.db, ActLoop(w, Sweep(s, jobs)).services[s])
  {
    forall i | 0 <= i < |w.db.runs| && w.db.runs[i].status == PendingText ensures w.db.runs[i].job in jobs {
      SweptJobsCoverPending(w.db.runs, jobs, i);
    }
  }

  /** A service's own step keeps its waiting jobs ahead of it: a job leaves only by being claimed. */
  lemma OwnStepKeepsAwake(w: World, a: Action)
    requires a.ByService() && !IsBody(a) && LoopEnabled(w, a)
    requires Awake(w.db, w.services[a.s])
    requires Evolves(w.db, ActLoop(w, a).db)
    ensures Awake(ActLoop(w, a).db, ActLoop(w, a).services[a.s])
  {
    if a.Sweep? {
      SweepKeepsAwake(w, a.s, a.jobs);
    } else if a.TakeSwept? {
      TakeSweptKeepsAwake(w, a.s);
    } else if a.Receive? {
      ReceiveKeepsAwake(w, a.s);
    } else if a.Claim? {
      ClaimKeepsAwake(w, a.s);
    } else {
      AwakeAsTablesEvolve(w.db, ActLoop(w, a).db, w.services[a.s]);
    }
  }

  lemma InPlaceKeepsAwake(w: World, w': World, s: nat)
    requires InPlace(w, w', s) && Awake(w.db, w.services[s])
    ensures s < |w'.services| && Awake(w'.db, w'.services[s])
  {
    forall i | 0 <= i < |w.db.runs| && w.db.runs[i].status == PendingText
      ensures Ahead(w'.db, w'.services[s], w.db.runs[i].job)
    {
      assert Ahead(w.db, w.services[s], w.db.runs[i].job);
    }
  }

  lemma LoopTouchesOne(w: World, a: Action)
    requires a.ByService() && !IsBody(a) && LoopEnabled(w, a)
    ensures ActLoop(w, a).services == w.services[a.s := ActLoop(w, a).services[a.s]]
  {
  }

  lemma OthersAreUntouched(w: World, a: Action)
    requires Enabled(w, a)
    ensures |Act(w, a).services| == |w.services|
    ensures forall s :: 0 <= s < |w.services| && !(a.ByService() && s == a.s) ==> Act(w, a).services[s] == w.services[s]
  {
    if a.ByService() {
      if IsBody(a) { BodyIsInPlace(w, a); } else { LoopTouchesOne(w, a); }
    }
  }

  /** Every action keeps every service awake to every waiting run. */
  lemma ActKeepsAwake(w: World, a: Action)
    requires Safe(w) && AllAwake(w) && Enabled(w, a)
    ensures AllAwake(Act(w, a))
  {
    var w' := Act(w, a);
    ActKeepsTables(w, a);
    OthersAreUntouched(w, a);
    forall s | 0 <= s < |w'.services| ensures Awake(w'.db, w'.services[s]) {
      if a.ByService() && s == a.s {
        if IsBody(a) {
          BodyIsInPlace(w, a);
          InPlaceKeepsAwake(w, ActBody(w, a), s);
        } else {
          OwnStepKeepsAwake(w, a);
        }
      } else {
        AwakeAsTablesEvolve(w.db, w'.db, w.services[s]);
      }
    }
  }

  /** A service waiting on an empty queue means no run waits at all. */
  lemma IdleMeansNothingPending(w: World, s: nat)
    requires AllAwake(w) && s < |w.services|
    requires w.services[s].pc == Ready && w.services[s].sweep == [] && w.services[s].cursor == |w.db.channel|
    ensures PendingJobs(w.db.runs) == {}
  {
    assert Awake(w.db, w.services[s]);
    forall row | row in w.db.runs ensures row.status != PendingText {
      var i :| 0 <= i < |w.db.runs| && w.db.runs[i] == row;
      assert !Ahead(w.db, w.services[s], w.db.runs[i].job);
    }
  }
}
