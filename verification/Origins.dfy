/**
 Where stored data came from, over whole runs: a transcript is the text written last, a chunk
 body reads the transcript of its moment, and every recorded vector is the embedder's reply.
 */
module Origins {
  import opened Wrappers
  import opened Ingestion
  import opened Tables
  import opened Protocol
  import opened Safety
  import opened Readings
  import opened Indexing
  import opened Traces
  import Chunking

  // ----- transcripts

  /** The action writes its text as the job's transcript: an edit, or the end of an extraction. */
  predicate Writes(w: World, a: Action, job: JobId) {
    || (a.Edit? && a.job == job)
    || (a.Extracted? && PcOf(w, a.s).Loaded? && PcOf(w, a.s).run.job == job)
  }

  predicate SameTranscripts(t: Tables, t': Tables) {
    t'.transcripts == t.transcripts
  }

  lemma CommandsLeaveTranscripts(t: Tables, job: JobId)
    ensures SameTranscripts(t, StartJob(t, job).0)
    ensures SameTranscripts(t, ValidateJob(t, job).0)
    ensures SameTranscripts(t, RestartJob(t, job).0)
  {
  }

  lemma ContinueLeavesTranscripts(t: Tables, job: JobId)
    ensures SameTranscripts(t, ContinueJob(t, job).0)
  {
  }

  lemma UpdateLeavesTranscripts(t: Tables, where: Where, change: Change)
    ensures SameTranscripts(t, Update(t, where, change).0)
  {
  }

  lemma LoopLeavesTranscripts(w: World, a: Action)
    requires a.ByService() && !IsBody(a) && LoopEnabled(w, a)
    ensures SameTranscripts(w.db, ActLoop(w, a).db)
  {
    if a.Claim? || a.FinishRun? {
      UpdateLeavesTranscripts(w.db, WhereOf(w, a), ChangeOf(w, a));
    } else if a.Continue? {
      ContinueLeavesTranscripts(w.db, PcOf(w, a.s).run.job);
    }
  }

  lemma BodyLeavesTranscripts(w: World, a: Action)
    requires IsBody(a) && BodyEnabled(w, a) && !a.Extracted?
    ensures SameTranscripts(w.db, ActBody(w, a).db)
  {
  }

  lemma CommandLeavesTranscripts(w: World, a: Action)
    requires !a.ByService() && CommandEnabled(w, a) && !a.Edit?
    ensures SameTranscripts(w.db, ActCommand(w, a).db)
  {
    CommandsLeaveTranscripts(w.db, a.job);
    UpdateLeavesTranscripts(w.db, ActiveOf(a.job), ToAborted);
  }

  /** What an action leaves of the job's transcript: the text it writes, or what was there. */
  lemma TranscriptAfter(w: World, a: Action, job: JobId)
    requires Enabled(w, a)
    ensures
      var now, before := Act(w, a).db.transcripts, w.db.transcripts;
      if Writes(w, a, job) then job in now && now[job] == a.text
      else (job in now <==> job in before) && (job in now && job in before ==> now[job] == before[job])
  {
    if a.Edit? || a.Extracted? {
    } else if !a.ByService() {
      CommandLeavesTranscripts(w, a);
    } else if IsBody(a) {
      BodyLeavesTranscripts(w, a);
    } else {
      LoopLeavesTranscripts(w, a);
    }
  }

  predicate WritesAt(ws: seq<World>, acts: seq<Action>, k: nat, job: JobId)
    requires |ws| == |acts| + 1 && k < |acts|
  {
    Writes(ws[k], acts[k], job)
  }

  /** Of the actions before state `n`, `k` is the last one to write the job's transcript. */
  ghost predicate LastWrite(ws: seq<World>, acts: seq<Action>, n: nat, job: JobId, k: nat)
    requires |ws| == |acts| + 1 && n < |ws|
  {
    && k < n && WritesAt(ws, acts, k, job)
    && forall j {:trigger WritesAt(ws, acts, j, job)} :: k < j < n ==> !WritesAt(ws, acts, j, job)
  }

  /** The job has the text written last, and has none only if none was written. */
  ghost predicate HasLastText(ws: seq<World>, acts: seq<Action>, n: nat, job: JobId)
    requires |ws| == |acts| + 1 && n < |ws|
  {
    && (job in ws[n].db.transcripts <==> exists k: nat :: LastWrite(ws, acts, n, job, k))
    && forall k: nat :: LastWrite(ws, acts, n, job, k) ==>
      job in ws[n].db.transcripts && ws[n].db.transcripts[job] == acts[k].text
  }

  lemma StepLeavesTranscript(ws: seq<World>, acts: seq<Action>, n: nat, job: JobId)
    requires IsRun(ws, acts) && n < |acts|
    ensures
      var now, before := ws[n + 1].db.transcripts, ws[n].db.transcripts;
      if WritesAt(ws, acts, n, job) then job in now && now[job] == acts[n].text
      else (job in now <==> job in before) && (job in now && job in before ==> now[job] == before[job])
  {
    assert StepAt(ws, acts, n);
    TranscriptAfter(ws[n], acts[n], job);
  }

  lemma WrittenIsLast(ws: seq<World>, acts: seq<Action>, n: nat, m: nat, job: JobId)
    requires IsRun(ws, acts) && n < |acts| && m == n + 1 && WritesAt(ws, acts, n, job)
    ensures HasLastText(ws, acts, m, job)
  {
    StepLeavesTranscript(ws, acts, n, job);
    assert LastWrite(ws, acts, m, job, n);
    forall k: nat | k < n ensures !LastWrite(ws, acts, m, job, k) { assert WritesAt(ws, acts, n, job); }
  }

  lemma UnwrittenStays(ws: seq<World>, acts: seq<Action>, n: nat, m: nat, job: JobId)
    requires IsRun(ws, acts) && n < |acts| && m == n + 1 && !WritesAt(ws, acts, n, job)
    requires HasLastText(ws, acts, n, job)
    ensures HasLastText(ws, acts, m, job)
  {
    StepLeavesTranscript(ws, acts, n, job);
    forall k: nat ensures LastWrite(ws, acts, m, job, k) <==> LastWrite(ws, acts, n, job, k) {
      if k < n && LastWrite(ws, acts, n, job, k) { assert LastWrite(ws, acts, m, job, k); }
    }
  }

  /** In every state of every run each job's transcript is the text written last for it, by an edit or an extraction. */
  lemma {:induction false} TranscriptIsLastWritten(ws: seq<World>, acts: seq<Action>, n: nat, job: JobId)
    requires IsRun(ws, acts) && n < |ws|
    ensures HasLastText(ws, acts, n, job)
  {
    if n > 0 {
      if WritesAt(ws, acts, n - 1, job) {
        WrittenIsLast(ws, acts, n - 1, n, job);
      } else {
        TranscriptIsLastWritten(ws, acts, n - 1, job);
        UnwrittenStays(ws, acts, n - 1, n, job);
      }
    }
  }

  // ----- what chunk bodies read

  /** The action reads the transcript of run `id`'s job, and there is one. */
  predicate Reads(w: World, a: Action, id: nat) {
    a.ReadTranscript? && PcOf(w, a.s).Loaded? && PcOf(w, a.s).run.id == id && PcOf(w, a.s).run.job in w.db.transcripts
  }

  lemma SourceAfter(w: World, a: Action, id: nat)
    requires Enabled(w, a)
    ensures
      var now, before := Act(w, a).sources, w.sources;
      if Reads(w, a, id) then id in now && now[id] == w.db.transcripts[PcOf(w, a.s).run.job]
      else (id in now <==> id in before) && (id in now && id in before ==> now[id] == before[id])
  {
    if LeavesData(a) { DataIsLeft(w, a); }
  }

  /** At action `m` the body for run `id` reads its job's transcript, which is the text action `k` wrote, the last to write it before. */
  ghost predicate ReadFrom(ws: seq<World>, acts: seq<Action>, id: nat, m: nat, k: nat)
    requires |ws| == |acts| + 1
  {
    && k < m < |acts| && Reads(ws[m], acts[m], id)
    && LastWrite(ws, acts, m, PcOf(ws[m], acts[m].s).run.job, k)
    && ws[m].db.transcripts[PcOf(ws[m], acts[m].s).run.job] == acts[k].text
  }

  lemma ReadIsFromLastWrite(ws: seq<World>, acts: seq<Action>, id: nat, m: nat) returns (k: nat)
    requires IsRun(ws, acts) && m < |acts| && Reads(ws[m], acts[m], id)
    ensures ReadFrom(ws, acts, id, m, k)
  {
    var job := PcOf(ws[m], acts[m].s).run.job;
    TranscriptIsLastWritten(ws, acts, m, job);
    k :| LastWrite(ws, acts, m, job, k);
  }

  lemma StepLeavesSource(ws: seq<World>, acts: seq<Action>, n: nat, id: nat)
    requires IsRun(ws, acts) && n < |acts| && id in ws[n + 1].sources
    ensures
      if Reads(ws[n], acts[n], id) then ws[n + 1].sources[id] == ws[n].db.transcripts[PcOf(ws[n], acts[n].s).run.job]
      else id in ws[n].sources && ws[n + 1].sources[id] == ws[n].sources[id]
  {
    assert StepAt(ws, acts, n);
    SourceAfter(ws[n], acts[n], id);
  }

  /** What a chunk body is recorded to have read is the text written last before it read. */
  lemma {:induction false} SourceIsLastText(ws: seq<World>, acts: seq<Action>, n: nat, id: nat) returns (m: nat, k: nat)
    requires IsRun(ws, acts) && n < |ws| && id in ws[n].sources
    ensures m < n && ReadFrom(ws, acts, id, m, k) && ws[n].sources[id] == acts[k].text
  {
    if n > 0 {
      StepLeavesSource(ws, acts, n - 1, id);
      if Reads(ws[n - 1], acts[n - 1], id) {
        m := n - 1;
        k := ReadIsFromLastWrite(ws, acts, id, m);
      } else {
        m, k := SourceIsLastText(ws, acts, n - 1, id);
      }
    }
  }

  /** The reading service's copy of its run is the recorded one, then and later. */
  lemma ReaderHasTheRun(ws: seq<World>, acts: seq<Action>, m: nat, n: nat, id: nat)
    requires IsRun(ws, acts) && m <= n < |ws| && m < |acts| && Reads(ws[m], acts[m], id)
    ensures
      var run := PcOf(ws[m], acts[m].s).run;
      id < |ws[n].db.runs| && ws[n].db.runs[id].job == run.job && ws[n].db.runs[id].step == run.step
  {
    EveryStateIsSafe(ws, acts, m);
    assert PcSafe(ws[m].db, ws[m].owners, acts[m].s, ws[m].services[acts[m].s].pc);
    EndedRunsStay(ws, acts, m, n, id);
  }

  /**
   The rows are the split of `acts[k].text`, which is the last text written for the job, by an edit
   or an extraction, before action `m`, by which the job's chunk run read its transcript.
   */
  ghost predicate SplitOfLastText(ws: seq<World>, acts: seq<Action>, n: nat, job: JobId, rows: seq<ChunkRow>, m: nat, k: nat)
    requires |ws| == |acts| + 1 && n < |ws|
  {
    && k < m < n && m < |acts|
    && acts[m].ReadTranscript? && PcOf(ws[m], acts[m].s).Loaded?
    && PcOf(ws[m], acts[m].s).run.job == job && PcOf(ws[m], acts[m].s).run.step == Step.Chunk
    && LastWrite(ws, acts, m, job, k)
    && Stores(rows, Chunking.Split(acts[k].text))
  }

  /** Under the conditions of `CompletedJobsAreIndexed`, the job's chunks are the split of the last text written before its chunk run read it. */
  lemma CompletedJobsHoldLastText(ws: seq<World>, acts: seq<Action>, n: nat, job: JobId)
    requires IsRun(ws, acts) && n < |ws| && Unspoiled(ws, acts, 0, n, job)
    requires job in ws[n].db.jobs && ws[n].db.jobs[job] == Completed
    ensures exists m: nat, k: nat :: SplitOfLastText(ws, acts, n, job, FindByJob(ws[n].db.chunks, job), m, k)
  {
    CompletedJobsAreIndexed(ws, acts, n, job);
    var rows := FindByJob(ws[n].db.chunks, job);
    var c: nat :| ChunksOfRun(ws[n], job, c, rows);
    var m, k := SourceIsLastText(ws, acts, n, c);
    ReaderHasTheRun(ws, acts, m, n, c);
    assert SplitOfLastText(ws, acts, n, job, rows, m, k);
  }

  // ----- the embedder's answers

  /** Action `m` asks the embedder about the heading and content of consecutive rows, and `exchange` is what it was sent and replied. */
  predicate IsAsking(w: World, a: Action, exchange: Exchange) {
    && a.AskEmbedder? && PcOf(w, a.s).Embedding? && a.reply == Some(exchange.vectors)
    && var pc := PcOf(w, a.s);
    && |exchange.inputs| == |exchange.vectors| && pc.done + |exchange.inputs| <= |pc.rows|
    && forall i :: 0 <= i < |exchange.inputs| ==>
      IsInputOf(exchange.inputs[i], pc.rows[pc.done + i].heading, pc.rows[pc.done + i].content)
  }

  lemma AskingIsRecorded(w: World, a: Action)
    requires Enabled(w, a) && a.AskEmbedder?
    ensures
      var now := Act(w, a).exchanges;
      now == w.exchanges || (now != [] && now == w.exchanges + [now[|w.exchanges|]] && IsAsking(w, a, now[|w.exchanges|]))
  {
  }

  lemma ExchangesAfter(w: World, a: Action, e: nat)
    requires Enabled(w, a) && e < |Act(w, a).exchanges|
    ensures e < |w.exchanges| ==> Act(w, a).exchanges[e] == w.exchanges[e]
    ensures e >= |w.exchanges| ==> IsAsking(w, a, Act(w, a).exchanges[e])
  {
    if a.AskEmbedder? {
      AskingIsRecorded(w, a);
    } else if LeavesData(a) {
      DataIsLeft(w, a);
    }
  }

  /** Each recorded exchange is the reply of the embedder to one asking, vector by vector, for the rows it was asked about. */
  lemma {:induction false} ExchangesAreReplies(ws: seq<World>, acts: seq<Action>, n: nat, e: nat)
    requires IsRun(ws, acts) && n < |ws| && e < |ws[n].exchanges|
    ensures exists m: nat {:trigger acts[m]} :: m < n && m < |acts| && IsAsking(ws[m], acts[m], ws[n].exchanges[e])
  {
    if n > 0 {
      assert StepAt(ws, acts, n - 1);
      ExchangesAfter(ws[n - 1], acts[n - 1], e);
      if e < |ws[n - 1].exchanges| {
        ExchangesAreReplies(ws, acts, n - 1, e);
      } else {
        assert IsAsking(ws[n - 1], acts[n - 1], ws[n].exchanges[e]);
      }
    }
  }
}
