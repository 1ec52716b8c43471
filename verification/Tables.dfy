/**
 The ingestion tables and the SQL statements and transactions that change them, each as
 a function from tables to tables. Every transaction is atomic and takes one `now()` stamp;
 stamps strictly increase from one stamping transaction to the next.
 */
module Tables {
  import opened Wrappers
  import opened Ingestion

  type Vector = seq<real>

  datatype NewChunk = NewChunk(position: nat, heading: string, page: nat, content: string)

  datatype ChunkRow = ChunkRow(id: nat, job: JobId, position: nat, heading: string, page: nat, content: string)

  /**
   `runs` and `chunks` are in insertion order, a run's id is its place in `runs`, and
   `channel` is every notification committed so far: a listener reads it from the point
   where it subscribed.
   */
  datatype Tables = Tables(
    jobs: map<JobId, Step>,
    runs: seq<RunRow>,
    transcripts: map<JobId, string>,
    chunks: seq<ChunkRow>,
    embeddings: map<nat, Vector>,
    channel: seq<JobId>,
    clock: Stamp,
    nextChunk: nat)

  const EMPTY := Tables(map[], [], map[], [], map[], [], 0, 0)

  // ----- ingestion_step_run: SELECT

  /** `ORDER BY started_at DESC NULLS FIRST, attempt DESC`: a comes strictly before b. */
  predicate SortsBefore(a: RunRow, b: RunRow) {
    match (a.startedAt, b.startedAt)
    case (None, Some(_)) => true
    case (Some(_), None) => false
    case (None, None) => a.attempt > b.attempt
    case (Some(x), Some(y)) => x > y || (x == y && a.attempt > b.attempt)
  }

  /** `find_latest.sql`: the place of the job's first row in that order. */
  function FindLatest(runs: seq<RunRow>, job: JobId): (r: Option<nat>)
    ensures r.Some? ==> r.value < |runs| && runs[r.value].job == job
  {
    if runs == [] then None
    else
      var n := |runs| - 1;
      var best := FindLatest(runs[..n], job);
      if runs[n].job != job then best
      else if best.None? || SortsBefore(runs[n], runs[best.value]) then Some(n)
      else best
  }

  /** `latest_run`. */
  function LatestRun(runs: seq<RunRow>, job: JobId): Result<Option<StepRun>, Error> {
    match FindLatest(runs, job)
    case None => Ok(None)
    case Some(i) =>
      match Decode(runs[i])
      case Err(e) => Err(e)
      case Ok(run) => Ok(Some(run))
  }

  /** `pending_run_job_ids.sql`. */
  function PendingJobs(runs: seq<RunRow>): set<JobId> {
    set row | row in runs && row.status == PendingText :: row.job
  }

  /** `coalesce(max(attempt), 0)` over the rows of one (job, step). */
  function MaxAttempt(runs: seq<RunRow>, job: JobId, step: Step): (m: nat)
    ensures forall i :: 0 <= i < |runs| && runs[i].job == job && runs[i].step == step ==> runs[i].attempt <= m
    ensures m > 0 ==> exists i :: 0 <= i < |runs| && runs[i].job == job && runs[i].step == step && runs[i].attempt == m
  {
    if runs == [] then 0
    else
      var n := |runs| - 1;
      var m := MaxAttempt(runs[..n], job, step);
      if runs[n].job == job && runs[n].step == step && runs[n].attempt > m then runs[n].attempt else m
  }

  predicate HasActive(runs: seq<RunRow>, job: JobId) {
    exists i :: 0 <= i < |runs| && runs[i].job == job && runs[i].Active()
  }

  // ----- ingestion_step_run: INSERT

  /** `enqueue.sql`. */
  function PendingRow(runs: seq<RunRow>, job: JobId, step: Step): RunRow {
    RunRow(|runs|, job, step, MaxAttempt(runs, job, step) + 1, PendingText, None, None, None)
  }

  /** `begin.sql`. */
  function RunningRow(runs: seq<RunRow>, job: JobId, step: Step, now: Stamp): RunRow {
    RunRow(|runs|, job, step, MaxAttempt(runs, job, step) + 1, RunningText, Some(now), None, None)
  }

  /** `enqueue_run`: `one_active_run_per_job` refuses a second active run. */
  function EnqueueRun(t: Tables, job: JobId, step: Step): Result<(Tables, StepRun), Error> {
    if HasActive(t.runs, job) then Err(JobAlreadyRunning(job))
    else
      var row := PendingRow(t.runs, job, step);
      match Decode(row)
      case Err(e) => Err(e)
      case Ok(run) => Ok((t.(runs := t.runs + [row]), run))
  }

  /** `begin_run`. */
  function BeginRun(t: Tables, job: JobId, step: Step): Result<(Tables, StepRun), Error> {
    if HasActive(t.runs, job) then Err(JobAlreadyRunning(job))
    else
      var row := RunningRow(t.runs, job, step, t.clock);
      match Decode(row)
      case Err(e) => Err(e)
      case Ok(run) => Ok((t.(runs := t.runs + [row], clock := t.clock + 1), run))
  }

  // ----- ingestion_step_run: UPDATE ... WHERE ... RETURNING

  datatype StepOutcome = Success | Failure(error: string)

  datatype Where = PendingOf(job: JobId) | RunningWithId(id: nat) | ActiveOf(job: JobId)

  datatype Change = ToRunning | ToFinished(outcome: StepOutcome) | ToAborted

  predicate Matches(where: Where, row: RunRow) {
    match where
    case PendingOf(job) => row.job == job && row.status == PendingText
    case RunningWithId(id) => row.id == id && row.status == RunningText
    case ActiveOf(job) => row.job == job && row.Active()
  }

  function Changed(change: Change, row: RunRow, now: Stamp): RunRow {
    match change
    case ToRunning => row.(status := RunningText, startedAt := Some(now))
    case ToFinished(Success) => row.(status := SucceededText, completedAt := Some(now), error := None)
    case ToFinished(Failure(e)) => row.(status := FailedText, completedAt := Some(now), error := Some(e))
    case ToAborted => row.(status := AbortedText, completedAt := Some(now))
  }

  /** Every row the clause matches changes, and no other. */
  function UpdateRows(runs: seq<RunRow>, where: Where, change: Change, now: Stamp): seq<RunRow> {
    seq(|runs|, i requires 0 <= i < |runs| => if Matches(where, runs[i]) then Changed(change, runs[i], now) else runs[i])
  }

  /** The first row the clause matches. */
  function FirstMatch(runs: seq<RunRow>, where: Where): (r: Option<nat>)
    ensures r.None? ==> forall i :: 0 <= i < |runs| ==> !Matches(where, runs[i])
    ensures r.Some? ==> r.value < |runs| && Matches(where, runs[r.value])
  {
    if runs == [] then None
    else
      match FirstMatch(runs[..|runs| - 1], where)
      case Some(i) => Some(i)
      case None => if Matches(where, runs[|runs| - 1]) then Some(|runs| - 1) else None
  }

  function Update(t: Tables, where: Where, change: Change): (Tables, Result<Option<StepRun>, Error>) {
    var runs := UpdateRows(t.runs, where, change, t.clock);
    var t' := t.(runs := runs, clock := t.clock + 1);
    match FirstMatch(t.runs, where)
    case None => (t', Ok(None))
    case Some(i) =>
      match Decode(runs[i])
      case Err(e) => (t', Err(e))
      case Ok(run) => (t', Ok(Some(run)))
  }

  /** `claim.sql`. */
  function ClaimPendingRun(t: Tables, job: JobId): (Tables, Result<Option<StepRun>, Error>) {
    Update(t, PendingOf(job), ToRunning)
  }

  /** `finish.sql`. */
  function Finish(t: Tables, id: nat, outcome: StepOutcome): (Tables, Result<Option<StepRun>, Error>) {
    Update(t, RunningWithId(id), ToFinished(outcome))
  }

  /** `abort.sql`. */
  function Abort(t: Tables, job: JobId): (Tables, Result<Option<StepRun>, Error>) {
    Update(t, ActiveOf(job), ToAborted)
  }

  // ----- the job transitions; an error rolls the transaction back

  datatype Advanced = Next(run: StepRun) | AllDone

  /** `start_job`: the insert fires the notify trigger, then the first run is enqueued. */
  function StartJob(t: Tables, job: JobId): (Tables, Result<StepRun, Error>) {
    var created := t.(jobs := t.jobs[job := Extract], channel := t.channel + [job]);
    match EnqueueRun(created, job, Extract)
    case Err(e) => (t, Err(e))
    case Ok((t', run)) => (t', Ok(run))
  }

  /** `continue_job`. */
  function ContinueJob(t: Tables, job: JobId): (Tables, Result<Advanced, Error>) {
    if job !in t.jobs then (t, Err(JobNotFound(job)))
    else if t.jobs[job] == Completed then (t, Err(JobCompleted(job)))
    else if t.jobs[job] == Extract then (t, Err(ValidationRequired(job)))
    else
      match LatestRun(t.runs, job)
      case Err(e) => (t, Err(e))
      case Ok(latest) =>
        if latest.None? || latest.value.step != t.jobs[job] || !latest.value.status.Succeeded? then
          (t, Err(StepNotSucceeded(job, t.jobs[job])))
        else
          var target := t.jobs[job].Next();
          var moved := t.(jobs := t.jobs[job := target]);
          if target == Completed then (moved, Ok(AllDone))
          else
            match BeginRun(moved, job, target)
            case Err(e) => (t, Err(e))
            case Ok((t', run)) => (t', Ok(Next(run)))
  }

  /** `restart_job`. */
  function RestartJob(t: Tables, job: JobId): (Tables, Result<StepRun, Error>) {
    if job !in t.jobs then (t, Err(JobNotFound(job)))
    else if t.jobs[job] != Extract then (t, Err(NotInTranscriptionPhase(job)))
    else
      match EnqueueRun(t, job, Extract)
      case Err(e) => (t, Err(e))
      case Ok((t', run)) => (t'.(channel := t'.channel + [job]), Ok(run))
  }

  /** `validate_job`, the human gate. */
  function ValidateJob(t: Tables, job: JobId): (Tables, Result<StepRun, Error>) {
    if job !in t.jobs then (t, Err(JobNotFound(job)))
    else if t.jobs[job] != Extract then (t, Err(NotInTranscriptionPhase(job)))
    else
      match LatestRun(t.runs, job)
      case Err(e) => (t, Err(e))
      case Ok(latest) =>
        if latest.None? || latest.value.step != Extract || !latest.value.status.Succeeded? then
          (t, Err(StepNotSucceeded(job, Extract)))
        else
          var moved := t.(jobs := t.jobs[job := Extract.Next()]);
          match EnqueueRun(moved, job, Extract.Next())
          case Err(e) => (t, Err(e))
          case Ok((t', run)) => (t'.(channel := t'.channel + [job]), Ok(run))
  }

  // ----- transcripts, chunks and embeddings

  /** The maps agree on every job but this one. */
  ghost predicate AgreeElsewhere(now: map<JobId, string>, before: map<JobId, string>, job: JobId) {
    forall other :: other != job ==>
      (other in now <==> other in before) && (other in now && other in before ==> now[other] == before[other])
  }

  /** `upsert.sql`: the new text takes the place of any old one. */
  function UpsertTranscript(t: Tables, job: JobId, content: string): (t': Tables)
    ensures job in t'.transcripts && t'.transcripts[job] == content
    ensures AgreeElsewhere(t'.transcripts, t.transcripts, job)
    ensures t' == t.(transcripts := t'.transcripts)
  {
    t.(transcripts := t.transcripts[job := content])
  }

  /** The job's chunk rows, in insertion order. */
  function RowsOf(chunks: seq<ChunkRow>, job: JobId): seq<ChunkRow> {
    if chunks == [] then []
    else if chunks[0].job == job then [chunks[0]] + RowsOf(chunks[1..], job)
    else RowsOf(chunks[1..], job)
  }

  function InsertByPosition(row: ChunkRow, sorted: seq<ChunkRow>): seq<ChunkRow> {
    if sorted == [] || row.position <= sorted[0].position then [row] + sorted
    else [sorted[0]] + InsertByPosition(row, sorted[1..])
  }

  function SortedByPosition(rows: seq<ChunkRow>): seq<ChunkRow> {
    if rows == [] then [] else InsertByPosition(rows[0], SortedByPosition(rows[1..]))
  }

  /** `find_by_job.sql`: the job's rows `ORDER BY position`. */
  function FindByJob(chunks: seq<ChunkRow>, job: JobId): seq<ChunkRow> {
    SortedByPosition(RowsOf(chunks, job))
  }

  /** `delete_by_job.sql`. */
  function DeleteByJob(chunks: seq<ChunkRow>, job: JobId): seq<ChunkRow> {
    if chunks == [] then []
    else if chunks[0].job == job then DeleteByJob(chunks[1..], job)
    else [chunks[0]] + DeleteByJob(chunks[1..], job)
  }

  /** The rows the inserts of `replace` create, with ids counted up from `id`. */
  function Numbered(job: JobId, news: seq<NewChunk>, id: nat): seq<ChunkRow> {
    seq(|news|, i requires 0 <= i < |news| =>
      ChunkRow(id + i, job, news[i].position, news[i].heading, news[i].page, news[i].content))
  }

  /** The ids of the job's rows: their embeddings go with them. */
  function IdsOf(chunks: seq<ChunkRow>, job: JobId): set<nat> {
    set row | row in chunks && row.job == job :: row.id
  }

  predicate DistinctPositions(news: seq<NewChunk>) {
    forall i, j :: 0 <= i < j < |news| ==> news[i].position != news[j].position
  }

  /** `replace`: `UNIQUE (job_id, position)` refuses two chunks at one position. */
  function ReplaceChunks(t: Tables, job: JobId, news: seq<NewChunk>): Option<Tables> {
    if DistinctPositions(news) then
      Some(t.(chunks := DeleteByJob(t.chunks, job) + Numbered(job, news, t.nextChunk),
              embeddings := t.embeddings - IdsOf(t.chunks, job),
              nextChunk := t.nextChunk + |news|))
    else None
  }

  predicate HasChunk(chunks: seq<ChunkRow>, id: nat) {
    exists i :: 0 <= i < |chunks| && chunks[i].id == id
  }

  /** `store_embedding`: the foreign key refuses a chunk that is gone, the column a wrong length. */
  function StoreEmbedding(t: Tables, id: nat, vector: Vector): Option<Tables> {
    if HasChunk(t.chunks, id) && |vector| == EMBEDDING_DIM
    then Some(t.(embeddings := t.embeddings[id := vector]))
    else None
  }

  const EMBEDDING_DIM := 1024
}
