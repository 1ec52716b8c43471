/** The job's steps and the status of a step run, with the column form the run table stores. */
module Ingestion {
  import opened Wrappers

  /** A database-assigned identifier (a uuid in the source). */
  type JobId = nat

  /** A `now()` stamp. */
  type Stamp = nat

  datatype Step = Extract | Chunk | Embed | Completed {

    function Next(): Step {
      match this
      case Extract => Chunk
      case Chunk => Embed
      case Embed => Completed
      case Completed => Completed
    }

    /** Position in the pipeline. */
    function Rank(): nat {
      match this
      case Extract => 0
      case Chunk => 1
      case Embed => 2
      case Completed => 3
    }
  }

  datatype StepRunStatus =
    | Pending
    | Running(startedAt: Stamp)
    | Succeeded(startedAt: Stamp, completedAt: Stamp)
    | Failed(startedAt: Stamp, completedAt: Stamp, error: string)
    | Aborted(startedAt: Stamp, completedAt: Stamp)

  datatype StepRun = StepRun(id: nat, job: JobId, step: Step, attempt: nat, status: StepRunStatus)

  datatype Error =
    | JobNotFound(job: JobId)
    | JobCompleted(job: JobId)
    | ValidationRequired(job: JobId)
    | StepNotSucceeded(job: JobId, step: Step)
    | NotInTranscriptionPhase(job: JobId)
    | JobAlreadyRunning(job: JobId)
    | InvalidStepRunStatus(text: StatusText)

  /** The status column. `OtherText` is any text the column's CHECK would have refused. */
  datatype StatusText = PendingText | RunningText | SucceededText | FailedText | AbortedText | OtherText(text: string)

  /** A row of `ingestion_step_run`: the nullable storage shape of a run. */
  datatype RunRow = RunRow(
    id: nat, job: JobId, step: Step, attempt: nat, status: StatusText,
    startedAt: Option<Stamp>, completedAt: Option<Stamp>, error: Option<string>)
  {
    predicate Active() {
      status == PendingText || status == RunningText
    }
  }

  /** `status_from_columns`: a column the status needs but lacks is a corrupt row. */
  function StatusFromColumns(
    status: StatusText, startedAt: Option<Stamp>, completedAt: Option<Stamp>, error: Option<string>)
    : Result<StepRunStatus, Error>
  {
    var corrupt := Err(InvalidStepRunStatus(status));
    match status
    case PendingText => Ok(Pending)
    case RunningText =>
      if startedAt.None? then corrupt else Ok(Running(startedAt.value))
    case SucceededText =>
      if startedAt.None? || completedAt.None? then corrupt
      else Ok(Succeeded(startedAt.value, completedAt.value))
    case FailedText =>
      if startedAt.None? || completedAt.None? || error.None? then corrupt
      else Ok(Failed(startedAt.value, completedAt.value, error.value))
    case AbortedText =>
      if startedAt.None? || completedAt.None? then corrupt
      else Ok(Aborted(startedAt.value, completedAt.value))
    case OtherText(_) => corrupt
  }

  /** The row conversion every query that returns a run goes through. */
  function Decode(row: RunRow): Result<StepRun, Error> {
    match StatusFromColumns(row.status, row.startedAt, row.completedAt, row.error)
    case Err(e) => Err(e)
    case Ok(status) => Ok(StepRun(row.id, row.job, row.step, row.attempt, status))
  }

  /** The columns that hold exactly what a run's status carries. */
  function Columns(run: StepRun): RunRow {
    match run.status
    case Pending => RunRow(run.id, run.job, run.step, run.attempt, PendingText, None, None, None)
    case Running(s) => RunRow(run.id, run.job, run.step, run.attempt, RunningText, Some(s), None, None)
    case Succeeded(s, c) => RunRow(run.id, run.job, run.step, run.attempt, SucceededText, Some(s), Some(c), None)
    case Failed(s, c, e) => RunRow(run.id, run.job, run.step, run.attempt, FailedText, Some(s), Some(c), Some(e))
    case Aborted(s, c) => RunRow(run.id, run.job, run.step, run.attempt, AbortedText, Some(s), Some(c), None)
  }

  /** A row with the columns its status needs filled in, and no others. */
  predicate Clean(row: RunRow) {
    match row.status
    case PendingText => row.startedAt.None? && row.completedAt.None? && row.error.None?
    case RunningText => row.startedAt.Some? && row.completedAt.None? && row.error.None?
    case SucceededText => row.startedAt.Some? && row.completedAt.Some? && row.error.None?
    case FailedText => row.startedAt.Some? && row.completedAt.Some? && row.error.Some?
    case AbortedText => row.startedAt.Some? && row.completedAt.Some? && row.error.None?
    case OtherText(_) => false
  }

  /** The clean rows are exactly the images of runs: the nullable shape loses and invents nothing on them. */
  lemma CleanIffRoundTrips(row: RunRow)
    ensures Clean(row) <==> Decode(row).Ok? && Columns(Decode(row).value) == row
  {
    match row.status
    case PendingText =>
    case RunningText =>
    case SucceededText =>
    case FailedText =>
    case AbortedText =>
    case OtherText(_) =>
  }
}
