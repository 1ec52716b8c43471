/**
 The ingestion protocol: the tables, any number of service instances, the command line and an
 external abort, interleaved one transaction or statement at a time. `Act` is what one action
 does, `Enabled` when it can happen; together they are the next-state relation.
 */
module Protocol {
  import opened Wrappers
  import opened Ingestion
  import opened Tables
  import opened Text
  import Chunking

  const EMBED_BATCH := 16

  /** An accepted answer of the embedder: one vector per input. */
  datatype Exchange = Exchange(inputs: seq<string>, vectors: seq<Vector>)

  /** Where a service instance is. It holds its own copy of the run row it was given. */
  datatype Pc =
    | Off
    | Starting
    | Ready
    | Claiming(job: JobId)
    | Begun(run: StepRun)
    | Loaded(run: StepRun, step: Step)
    | Replacing(run: StepRun, news: seq<NewChunk>)
    | Embedding(run: StepRun, rows: seq<ChunkRow>, done: nat, vectors: seq<Vector>)
    | Executed(run: StepRun, body: Step, ok: bool)
    | Advancing(run: StepRun)

  /** A service: its listener has read `channel` up to `cursor`, and `sweep` is what is left of its sweep. */
  datatype Service = Service(pc: Pc, cursor: nat, sweep: seq<JobId>)

  /**
   The last three fields are bookkeeping that no action looks at: who took each run, the
   transcript each chunk body read, and the embedder's accepted answers.
   */
  datatype World = World(
    db: Tables,
    services: seq<Service>,
    owners: map<nat, nat>,
    sources: map<nat, string>,
    exchanges: seq<Exchange>)

  datatype Action =
    | Start(job: JobId)
    | Validate(job: JobId)
    | Restart(job: JobId)
    | Edit(job: JobId, text: string)
    | AbortRun(job: JobId)
    | Subscribe(s: nat)
    | Sweep(s: nat, jobs: seq<JobId>)
    | TakeSwept(s: nat)
    | Receive(s: nat)
    | Shutdown(s: nat)
    | Claim(s: nat)
    | Load(s: nat)
    | Extracted(s: nat, text: string)
    | ExtractFailed(s: nat)
    | ReadTranscript(s: nat)
    | StoreChunks(s: nat)
    | ReadChunks(s: nat)
    | AskEmbedder(s: nat, reply: Option<seq<Vector>>)
    | StoreVector(s: nat)
    | EndEmbedding(s: nat)
    | BailOut(s: nat)
    | FinishRun(s: nat, error: string)
    | Continue(s: nat)
  {
    predicate ByService() {
      !Start? && !Validate? && !Restart? && !Edit? && !AbortRun?
    }
  }

  // ----- the bodies

  /** The rows of `chunk_step`: positions and pages must fit the integer columns. */
  function NewChunks(transcript: string): (news: Option<seq<NewChunk>>)
    ensures
      var chunks := Chunking.Split(transcript);
      news.Some? <==>
        && chunks != [] && |chunks| - 1 <= 0x7FFF_FFFF
        && forall i :: 0 <= i < |chunks| ==> chunks[i].page <= 0x7FFF_FFFF
    ensures news.Some? ==> HoldsChunks(news.value, Chunking.Split(transcript))
  {
    var chunks := Chunking.Split(transcript);
    if chunks == [] || |chunks| - 1 > I32_MAX || (exists i :: 0 <= i < |chunks| && chunks[i].page > I32_MAX) then None
    else Some(seq(|chunks|, i requires 0 <= i < |chunks| =>
      NewChunk(i, chunks[i].heading, chunks[i].page, chunks[i].content)))
  }

  /** The chunks, one row each, counted up from position 0. */
  predicate HoldsChunks(news: seq<NewChunk>, chunks: seq<Chunking.Chunk>) {
    && |news| == |chunks|
    && forall i :: 0 <= i < |news| ==>
      && news[i].position == i
      && news[i].heading == chunks[i].heading
      && news[i].page == chunks[i].page
      && news[i].content == chunks[i].content
  }

  /** The heading, a blank line, then exactly the content; without a heading the content alone. */
  predicate IsInputOf(input: string, heading: string, content: string) {
    if heading == "" then input == content
    else
      && |input| == |heading| + 2 + |content|
      && input[..|heading|] == heading
      && input[|heading|..|heading| + 2] == "\n\n"
      && input[|heading| + 2..] == content
  }

  /** `embedding_input`: the heading, if there is one, then the body. */
  function EmbeddingInput(row: ChunkRow): (input: string)
    ensures IsInputOf(input, row.heading, row.content)
  {
    if row.heading == "" then row.content else row.heading + "\n\n" + row.content
  }

  function Inputs(rows: seq<ChunkRow>): (inputs: seq<string>)
    ensures |inputs| == |rows|
    ensures forall i :: 0 <= i < |rows| ==> IsInputOf(inputs[i], rows[i].heading, rows[i].content)
  {
    seq(|rows|, i requires 0 <= i < |rows| => EmbeddingInput(rows[i]))
  }

  /** Sixteen more, as far as there are any. */
  function BatchEnd(done: nat, total: nat): (end: nat)
    ensures done <= total ==> done <= end <= total && end - done <= 16 && (end - done < 16 ==> end == total)
  {
    if done + EMBED_BATCH <= total then done + EMBED_BATCH else total
  }

  /** `check_embeddings`. */
  predicate CheckEmbeddings(expected: nat, vectors: seq<Vector>) {
    |vectors| == expected && forall i :: 0 <= i < |vectors| ==> |vectors[i]| == EMBEDDING_DIM
  }

  // ----- the actions

  function At(w: World, s: nat, pc: Pc): World
    requires s < |w.services|
  {
    w.(services := w.services[s := w.services[s].(pc := pc)])
  }

  /** Where service `s` is; there is no service past the last one. */
  function PcOf(w: World, s: nat): (pc: Pc)
    ensures pc != Off ==> s < |w.services|
  {
    if s < |w.services| then w.services[s].pc else Off
  }

  /** Service `s` as it is, if there is one. */
  function SvcOf(w: World, s: nat): Service {
    if s < |w.services| then w.services[s] else Service(Off, 0, [])
  }

  predicate NonePending(runs: seq<RunRow>, job: JobId) {
    forall i :: 0 <= i < |runs| && runs[i].job == job ==> runs[i].status != PendingText
  }

  /** The actions inside a step's body: they write no row of the job and run tables. */
  predicate IsBody(a: Action) {
    a.Extracted? || a.ExtractFailed? || a.ReadTranscript? || a.StoreChunks? || a.ReadChunks?
      || a.AskEmbedder? || a.StoreVector? || a.EndEmbedding? || a.BailOut?
  }

  predicate CommandEnabled(w: World, a: Action)
    requires !a.ByService()
  {
    match a
    case Start(job) => job !in w.db.jobs
    case Validate(_) => true
    case Restart(_) => true
    case Edit(job, _) => job in w.db.jobs
    case AbortRun(job) => NonePending(w.db.runs, job)
  }

  predicate BodyEnabled(w: World, a: Action)
    requires IsBody(a)
  {
    var pc := PcOf(w, a.s);
    match a
    case Extracted(_, _) => pc.Loaded? && pc.step == Extract
    case ExtractFailed(_) => pc.Loaded? && pc.step == Extract
    case ReadTranscript(_) => pc.Loaded? && pc.step == Chunk
    case StoreChunks(_) => pc.Replacing?
    case ReadChunks(_) => pc.Loaded? && pc.step == Embed
    case AskEmbedder(_, _) => pc.Embedding? && pc.vectors == [] && pc.done < |pc.rows|
    case StoreVector(_) => pc.Embedding? && pc.vectors != [] && pc.done < |pc.rows|
    case EndEmbedding(_) => pc.Embedding? && pc.vectors == [] && pc.done == |pc.rows|
    case BailOut(_) => pc.Loaded? && pc.step == Completed
  }

  predicate LoopEnabled(w: World, a: Action)
    requires a.ByService() && !IsBody(a)
  {
    match a
    case Subscribe(s) => s < |w.services| && PcOf(w, s).Off?
    case Sweep(s, jobs) => PcOf(w, s).Starting? && (set job | job in jobs) == PendingJobs(w.db.runs)
    case TakeSwept(s) => PcOf(w, s).Ready? && w.services[s].sweep != []
    case Receive(s) => PcOf(w, s).Ready? && w.services[s].sweep == [] && w.services[s].cursor < |w.db.channel|
    case Shutdown(s) => PcOf(w, s).Ready? && w.services[s].sweep == []
    case Claim(s) => PcOf(w, s).Claiming?
    case Load(s) => PcOf(w, s).Begun?
    case FinishRun(s, _) => PcOf(w, s).Executed?
    case Continue(s) => PcOf(w, s).Advancing?
  }

  predicate Enabled(w: World, a: Action) {
    if !a.ByService() then CommandEnabled(w, a)
    else if IsBody(a) then BodyEnabled(w, a)
    else LoopEnabled(w, a)
  }

  /** `listen_ingestion_jobs`: only notifications committed from here on are delivered. */
  function DoSubscribe(w: World, s: nat): World
    requires s < |w.services|
  {
    w.(services := w.services[s := Service(Starting, |w.db.channel|, [])])
  }

  function DoTakeSwept(w: World, s: nat): World
    requires s < |w.services| && w.services[s].sweep != []
  {
    var svc := w.services[s];
    w.(services := w.services[s := svc.(pc := Claiming(svc.sweep[0]), sweep := svc.sweep[1..])])
  }

  function DoReceive(w: World, s: nat): World
    requires s < |w.services| && w.services[s].cursor < |w.db.channel|
  {
    var svc := w.services[s];
    w.(services := w.services[s := svc.(pc := Claiming(w.db.channel[svc.cursor]), cursor := svc.cursor + 1)])
  }

  /** The first statement of `process`. */
  function DoClaim(w: World, s: nat): World
    requires PcOf(w, s).Claiming?
  {
    var (db, r) := ClaimPendingRun(w.db, w.services[s].pc.job);
    if r.Ok? && r.value.Some?
    then At(w, s, Begun(r.value.value)).(db := db, owners := w.owners[r.value.value.id := s])
    else At(w, s, Ready).(db := db)
  }

  function DoLoad(w: World, s: nat): World
    requires PcOf(w, s).Begun?
  {
    var run := w.services[s].pc.run;
    if run.job in w.db.jobs then At(w, s, Loaded(run, w.db.jobs[run.job])) else At(w, s, Ready)
  }

  function DoExtracted(w: World, s: nat, text: string): World
    requires PcOf(w, s).Loaded?
  {
    var run := w.services[s].pc.run;
    At(w, s, Executed(run, Extract, true)).(db := UpsertTranscript(w.db, run.job, text))
  }

  function DoReadTranscript(w: World, s: nat): World
    requires PcOf(w, s).Loaded?
  {
    var run := w.services[s].pc.run;
    if run.job !in w.db.transcripts then At(w, s, Executed(run, Chunk, false))
    else
      var text := w.db.transcripts[run.job];
      var pc := match NewChunks(text) { case None => Executed(run, Chunk, false) case Some(news) => Replacing(run, news) };
      At(w, s, pc).(sources := w.sources[run.id := text])
  }

  function DoStoreChunks(w: World, s: nat): World
    requires PcOf(w, s).Replacing?
  {
    var pc := w.services[s].pc;
    match ReplaceChunks(w.db, pc.run.job, pc.news)
    case None => At(w, s, Executed(pc.run, Chunk, false))
    case Some(db) => At(w, s, Executed(pc.run, Chunk, true)).(db := db)
  }

  function DoReadChunks(w: World, s: nat): World
    requires PcOf(w, s).Loaded?
  {
    var run := w.services[s].pc.run;
    var rows := FindByJob(w.db.chunks, run.job);
    At(w, s, if rows == [] then Executed(run, Embed, false) else Embedding(run, rows, 0, []))
  }

  /** One batch is sent; its answer is checked before any vector is used. */
  function DoAskEmbedder(w: World, s: nat, reply: Option<seq<Vector>>): World
    requires PcOf(w, s).Embedding? && PcOf(w, s).done < |PcOf(w, s).rows|
  {
    var pc := w.services[s].pc;
    var inputs := Inputs(pc.rows[pc.done..BatchEnd(pc.done, |pc.rows|)]);
    if reply.Some? && CheckEmbeddings(|inputs|, reply.value)
    then At(w, s, pc.(vectors := reply.value)).(exchanges := w.exchanges + [Exchange(inputs, reply.value)])
    else At(w, s, Executed(pc.run, Embed, false))
  }

  function DoStoreVector(w: World, s: nat): World
    requires PcOf(w, s).Embedding? && PcOf(w, s).vectors != [] && PcOf(w, s).done < |PcOf(w, s).rows|
  {
    var pc := w.services[s].pc;
    match StoreEmbedding(w.db, pc.rows[pc.done].id, pc.vectors[0])
    case None => At(w, s, Executed(pc.run, Embed, false))
    case Some(db) => At(w, s, pc.(done := pc.done + 1, vectors := pc.vectors[1..])).(db := db)
  }

  /** The end of `run_and_finish`: only a success past `extract` goes on to `continue_job`. */
  function DoFinishRun(w: World, s: nat, error: string): World
    requires PcOf(w, s).Executed?
  {
    var pc := w.services[s].pc;
    var (db, r) := Finish(w.db, pc.run.id, if pc.ok then Success else Failure(error));
    var ended := r.Ok? && r.value.Some?;
    At(w, s, if ended && pc.ok && pc.run.step != Extract then Advancing(pc.run) else Ready).(db := db)
  }

  function DoContinue(w: World, s: nat): World
    requires PcOf(w, s).Advancing?
  {
    var (db, r) := ContinueJob(w.db, w.services[s].pc.run.job);
    if r.Ok? && r.value.Next?
    then At(w, s, Begun(r.value.run)).(db := db, owners := w.owners[r.value.run.id := s])
    else At(w, s, Ready).(db := db)
  }

  function ActCommand(w: World, a: Action): World
    requires !a.ByService() && CommandEnabled(w, a)
  {
    match a
    case Start(job) => w.(db := StartJob(w.db, job).0)
    case Validate(job) => w.(db := ValidateJob(w.db, job).0)
    case Restart(job) => w.(db := RestartJob(w.db, job).0)
    case Edit(job, text) => w.(db := UpsertTranscript(w.db, job, text))
    case AbortRun(job) => w.(db := Abort(w.db, job).0)
  }

  function ActBody(w: World, a: Action): World
    requires IsBody(a) && BodyEnabled(w, a)
  {
    match a
    case Extracted(s, text) => DoExtracted(w, s, text)
    case ExtractFailed(s) => At(w, s, Executed(w.services[s].pc.run, Extract, false))
    case ReadTranscript(s) => DoReadTranscript(w, s)
    case StoreChunks(s) => DoStoreChunks(w, s)
    case ReadChunks(s) => DoReadChunks(w, s)
    case AskEmbedder(s, reply) => DoAskEmbedder(w, s, reply)
    case StoreVector(s) => DoStoreVector(w, s)
    case EndEmbedding(s) => At(w, s, Executed(w.services[s].pc.run, Embed, true))
    case BailOut(s) => At(w, s, Executed(w.services[s].pc.run, Completed, false))
  }

  function ActLoop(w: World, a: Action): World
    requires a.ByService() && !IsBody(a) && LoopEnabled(w, a)
  {
    match a
    case Subscribe(s) => DoSubscribe(w, s)
    case Sweep(s, jobs) => w.(services := w.services[s := w.services[s].(pc := Ready, sweep := jobs)])
    case TakeSwept(s) => DoTakeSwept(w, s)
    case Receive(s) => DoReceive(w, s)
    case Shutdown(s) => At(w, s, Off)
    case Claim(s) => DoClaim(w, s)
    case Load(s) => DoLoad(w, s)
    case FinishRun(s, error) => DoFinishRun(w, s, error)
    case Continue(s) => DoContinue(w, s)
  }

  function Act(w: World, a: Action): World
    requires Enabled(w, a)
  {
    if !a.ByService() then ActCommand(w, a)
    else if IsBody(a) then ActBody(w, a)
    else ActLoop(w, a)
  }

  /** Empty tables and any number of services, none of them started. */
  predicate Init(w: World) {
    && w.db == EMPTY
    && (forall s :: 0 <= s < |w.services| ==> w.services[s] == Service(Off, 0, []))
    && w.owners == map[] && w.sources == map[] && w.exchanges == []
  }
}
