/**
 `embed_step` run on its own: the batches of sixteen store, for every chunk, the vector the
 embedder gave for that chunk's heading and content.
 */
module Embedding {
  import opened Wrappers
  import opened Ingestion
  import opened Tables
  import opened ChunkTable
  import opened Protocol
  import opened Database

  /** An embedder: it fails or answers a batch with some vectors. */
  type Embedder = seq<string> -> Option<seq<Vector>>

  /** The batch that starts at `start`. */
  function Batch(rows: seq<ChunkRow>, start: nat): seq<ChunkRow>
    requires start <= |rows|
  {
    rows[start..BatchEnd(start, |rows|)]
  }

  /** `embed`: the answer is handed on only if it is one vector of the right length for each input. */
  function Embed(ask: Embedder, inputs: seq<string>): (vectors: Option<seq<Vector>>)
    ensures vectors.Some? ==> CheckEmbeddings(|inputs|, vectors.value)
  {
    var reply := ask(inputs);
    if reply.Some? && CheckEmbeddings(|inputs|, reply.value) then reply else None
  }

  /** The batch that starts at `start` is answered. */
  predicate Accepted(rows: seq<ChunkRow>, ask: Embedder, start: nat)
    requires start <= |rows|
  {
    Embed(ask, Inputs(Batch(rows, start))).Some?
  }

  /** Where the batch of row `k` starts. */
  function BatchStart(k: nat): (start: nat)
    ensures start <= k < start + EMBED_BATCH
  {
    k / EMBED_BATCH * EMBED_BATCH
  }

  /** Row `k`'s own vector: its place in the answer to its batch. */
  function VectorFor(rows: seq<ChunkRow>, ask: Embedder, k: nat): Vector
    requires k < |rows|
  {
    var vectors := Embed(ask, Inputs(Batch(rows, BatchStart(k))));
    if vectors.Some? then vectors.value[k - BatchStart(k)] else []
  }

  lemma BatchStartOf(b: nat, k: nat)
    requires b * EMBED_BATCH <= k < b * EMBED_BATCH + EMBED_BATCH
    ensures BatchStart(k) == b * EMBED_BATCH
  {
  }

  /** The vectors of an answered batch are its rows' own. */
  lemma OwnVector(rows: seq<ChunkRow>, ask: Embedder, b: nat, start: nat, k: nat)
    requires start == b * EMBED_BATCH && start <= k < BatchEnd(start, |rows|) && start < |rows| && Accepted(rows, ask, start)
    ensures Accepted(rows, ask, BatchStart(k))
    ensures VectorFor(rows, ask, k) == Embed(ask, Inputs(Batch(rows, start))).value[k - start]
  {
    BatchStartOf(b, k);
  }

  // ----- storing

  /** The embeddings once each row, in turn, got the vector at its place. */
  function Zipped(rows: seq<ChunkRow>, vectors: seq<Vector>, before: map<nat, Vector>): map<nat, Vector>
    requires |rows| == |vectors|
  {
    if rows == [] then before
    else
      var n := |rows| - 1;
      Zipped(rows[..n], vectors[..n], before)[rows[n].id := vectors[n]]
  }

  lemma {:induction false} ZippedAppend(a: seq<ChunkRow>, b: seq<ChunkRow>, u: seq<Vector>, v: seq<Vector>, before: map<nat, Vector>)
    requires |a| == |u| && |b| == |v|
    ensures Zipped(a + b, u + v, before) == Zipped(b, v, Zipped(a, u, before))
  {
    if b == [] {
      assert a + b == a && u + v == u;
    } else {
      var n := |b| - 1;
      ZippedAppend(a, b[..n], u, v[..n], before);
      assert (a + b)[..|a| + n] == a + b[..n] && (u + v)[..|u| + n] == u + v[..n];
    }
  }

  lemma ZippedBatch(rows: seq<ChunkRow>, start: nat, own: seq<Vector>, vectors: seq<Vector>, before: map<nat, Vector>)
    requires start <= |rows| && |own| == start && |vectors| == |Batch(rows, start)|
    ensures Zipped(rows[..start + |vectors|], own + vectors, before)
      == Zipped(Batch(rows, start), vectors, Zipped(rows[..start], own, before))
  {
    var batch := Batch(rows, start);
    ZippedAppend(rows[..start], batch, own, vectors, before);
    assert rows[..start] + batch == rows[..start + |batch|];
  }

  /** Row `k` has the vector at its place. */
  predicate HasOwn(rows: seq<ChunkRow>, vectors: seq<Vector>, now: map<nat, Vector>, k: nat)
    requires k < |rows| == |vectors|
  {
    rows[k].id in now && now[rows[k].id] == vectors[k]
  }

  predicate SameAt(now: map<nat, Vector>, before: map<nat, Vector>, id: nat) {
    (id in now <==> id in before) && (id in now ==> now[id] == before[id])
  }

  lemma {:induction false} ZippedLeaves(rows: seq<ChunkRow>, vectors: seq<Vector>, before: map<nat, Vector>, id: nat)
    requires |rows| == |vectors| && forall k :: 0 <= k < |rows| ==> rows[k].id != id
    ensures SameAt(Zipped(rows, vectors, before), before, id)
  {
    if rows != [] {
      ZippedLeaves(rows[..|rows| - 1], vectors[..|rows| - 1], before, id);
    }
  }

  lemma {:induction false} ZippedGives(rows: seq<ChunkRow>, vectors: seq<Vector>, before: map<nat, Vector>, k: nat)
    requires |rows| == |vectors| && DistinctRowIds(rows) && k < |rows|
    ensures HasOwn(rows, vectors, Zipped(rows, vectors, before), k)
  {
    var n := |rows| - 1;
    if k < n { ZippedGives(rows[..n], vectors[..n], before, k); }
  }

  /** With distinct ids no vector is skipped, swapped or overwritten, and no other embedding is touched. */
  lemma ZippedIsEachRowsOwn(rows: seq<ChunkRow>, vectors: seq<Vector>, before: map<nat, Vector>)
    requires |rows| == |vectors| && DistinctRowIds(rows)
    ensures
      var now := Zipped(rows, vectors, before);
      && (forall k :: 0 <= k < |rows| ==> HasOwn(rows, vectors, now, k))
      && (forall id :: (forall k :: 0 <= k < |rows| ==> rows[k].id != id) ==> SameAt(now, before, id))
  {
    forall k | 0 <= k < |rows| ensures HasOwn(rows, vectors, Zipped(rows, vectors, before), k) {
      ZippedGives(rows, vectors, before, k);
    }
    forall id | forall k :: 0 <= k < |rows| ==> rows[k].id != id ensures SameAt(Zipped(rows, vectors, before), before, id) {
      ZippedLeaves(rows, vectors, before, id);
    }
  }

  /** The loop over a batch and its vectors. */
  method StoreBatch(db: Db, batch: seq<ChunkRow>, vectors: seq<Vector>)
    requires forall k :: 0 <= k < |batch| ==> HasChunk(db.chunks, batch[k].id)
    requires CheckEmbeddings(|batch|, vectors)
    modifies db`embeddings
    ensures db.embeddings == Zipped(batch, vectors, old(db.embeddings))
  {
    for k := 0 to |batch|
      invariant db.embeddings == Zipped(batch[..k], vectors[..k], old(db.embeddings))
    {
      var stored := db.StoreEmbedding(batch[k].id, vectors[k]);
      assert batch[..k + 1][..k] == batch[..k] && vectors[..k + 1][..k] == vectors[..k];
    }
    assert batch[..|batch|] == batch && vectors[..|vectors|] == vectors;
  }

  /** Vector `k` is row `k`'s own, out of an answered batch. */
  predicate OwnAt(rows: seq<ChunkRow>, ask: Embedder, vectors: seq<Vector>, k: nat)
    requires k < |vectors| <= |rows|
  {
    Accepted(rows, ask, BatchStart(k)) && vectors[k] == VectorFor(rows, ask, k)
  }

  /** `vectors` are the own vectors of the first rows. */
  ghost predicate OwnVectors(rows: seq<ChunkRow>, ask: Embedder, vectors: seq<Vector>) {
    && |vectors| <= |rows|
    && forall k: nat {:trigger OwnAt(rows, ask, vectors, k)} :: k < |vectors| ==> OwnAt(rows, ask, vectors, k)
  }

  lemma OwnVectorsGrow(rows: seq<ChunkRow>, ask: Embedder, vectors: seq<Vector>, b: nat)
    requires OwnVectors(rows, ask, vectors) && |vectors| == b * EMBED_BATCH < |rows|
    requires Accepted(rows, ask, |vectors|)
    ensures OwnVectors(rows, ask, vectors + Embed(ask, Inputs(Batch(rows, |vectors|))).value)
  {
    var start, more := |vectors|, Embed(ask, Inputs(Batch(rows, |vectors|))).value;
    var all := vectors + more;
    forall k: nat | k < |all| ensures OwnAt(rows, ask, all, k) {
      if k < start {
        assert OwnAt(rows, ask, vectors, k);
      } else {
        OwnVector(rows, ask, b, start, k);
      }
    }
  }

  /** Whole batches have been answered, or all rows. */
  ghost predicate Embedded(rows: seq<ChunkRow>, ask: Embedder, own: seq<Vector>, batches: nat) {
    OwnVectors(rows, ask, own) && (|own| < |rows| ==> |own| == batches * EMBED_BATCH)
  }

  lemma BatchGrows(rows: seq<ChunkRow>, ask: Embedder, own: seq<Vector>, batches: nat, vectors: seq<Vector>)
    requires Embedded(rows, ask, own, batches) && |own| < |rows|
    requires Embed(ask, Inputs(Batch(rows, |own|))) == Some(vectors)
    ensures Embedded(rows, ask, own + vectors, batches + 1)
    ensures |vectors| == |Batch(rows, |own|)| > 0
  {
    OwnVectorsGrow(rows, ask, own, batches);
  }

  /** The first rows have their own vectors, and nothing else has changed. */
  ghost predicate Stored(rows: seq<ChunkRow>, ask: Embedder, own: seq<Vector>, batches: nat,
      before: map<nat, Vector>, now: map<nat, Vector>)
  {
    Embedded(rows, ask, own, batches) && now == Zipped(rows[..|own|], own, before)
  }

  method StoreNext(db: Db, rows: seq<ChunkRow>, start: nat, vectors: seq<Vector>, ghost own: seq<Vector>,
      ghost before: map<nat, Vector>)
    requires forall k :: 0 <= k < |rows| ==> HasChunk(db.chunks, rows[k].id)
    requires start == |own| <= |rows| && CheckEmbeddings(|Batch(rows, start)|, vectors)
    requires db.embeddings == Zipped(rows[..|own|], own, before)
    modifies db`embeddings
    ensures |own + vectors| <= |rows|
    ensures db.embeddings == Zipped(rows[..|own + vectors|], own + vectors, before)
  {
    var batch := Batch(rows, start);
    assert forall k :: 0 <= k < |batch| ==> batch[k] == rows[start + k];
    StoreBatch(db, batch, vectors);
    ZippedBatch(rows, start, own, vectors, before);
    assert |own + vectors| == start + |vectors|;
  }

  /** One batch that was answered is stored. */
  method StoreOwn(db: Db, rows: seq<ChunkRow>, start: nat, vectors: seq<Vector>,
      ghost ask: Embedder, ghost own: seq<Vector>, ghost batches: nat, ghost before: map<nat, Vector>)
    requires forall k :: 0 <= k < |rows| ==> HasChunk(db.chunks, rows[k].id)
    requires start == |own| < |rows| && Embed(ask, Inputs(Batch(rows, start))) == Some(vectors)
    requires Stored(rows, ask, own, batches, before, db.embeddings)
    modifies db`embeddings
    ensures vectors != [] && start + |vectors| <= |rows|
    ensures Stored(rows, ask, own + vectors, batches + 1, before, db.embeddings)
  {
    BatchGrows(rows, ask, own, batches, vectors);
    StoreNext(db, rows, start, vectors, own, before);
  }

  /** The loop over the batches: it stops at the first one that is not answered. */
  method EmbedRows(db: Db, rows: seq<ChunkRow>, ask: Embedder) returns (ok: bool, ghost own: seq<Vector>, ghost batches: nat)
    requires forall k :: 0 <= k < |rows| ==> HasChunk(db.chunks, rows[k].id)
    modifies db`embeddings
    ensures Stored(rows, ask, own, batches, old(db.embeddings), db.embeddings)
    ensures if ok then |own| == |rows| else |own| < |rows| && Embed(ask, Inputs(Batch(rows, |own|))).None?
  {
    var embedded := 0;
    own, batches := [], 0;
    while embedded < |rows|
      invariant |own| == embedded <= |rows|
      invariant Stored(rows, ask, own, batches, old(db.embeddings), db.embeddings)
    {
      var vectors := Embed(ask, Inputs(Batch(rows, embedded)));
      if vectors.None? {
        return false, own, batches;
      }
      StoreOwn(db, rows, embedded, vectors.value, ask, own, batches, old(db.embeddings));
      own := own + vectors.value;
      embedded := embedded + |vectors.value|;
      batches := batches + 1;
    }
    ok := true;
  }

  /**
   `embed_step`: the rows of the batches answered so far have their own vectors, and it
   succeeds exactly if that is every row of a job that has some.
   */
  method EmbedStep(db: Db, job: JobId, ask: Embedder) returns (ok: bool, ghost own: seq<Vector>)
    requires ValidChunks(db.View())
    modifies db`embeddings
    ensures
      var rows := FindByJob(db.chunks, job);
      && OwnVectors(rows, ask, own)
      && db.embeddings == Zipped(rows[..|own|], own, old(db.embeddings))
      && (ok ==> rows != [] && |own| == |rows|)
      && (!ok ==> rows == [] || (|own| < |rows| && !Accepted(rows, ask, |own|)))
  {
    var rows := db.FindByJob(job);
    if rows == [] {
      return false, [];
    }
    RowsAreSound(db.View(), job);
    ghost var batches;
    ok, own, batches := EmbedRows(db, rows, ask);
  }

  predicate DistinctRowIds(rows: seq<ChunkRow>) {
    forall i, j :: 0 <= i < j < |rows| ==> rows[i].id != rows[j].id
  }

  lemma RowsAreSound(t: Tables, job: JobId)
    requires ValidChunks(t)
    ensures
      var rows := FindByJob(t.chunks, job);
      DistinctRowIds(rows) && forall k :: 0 <= k < |rows| ==> HasChunk(t.chunks, rows[k].id)
  {
    FindByJobReadsRows(t, job);
    var rows := RowsOf(t.chunks, job);
    forall i, j | 0 <= i < j < |rows| ensures rows[i].id != rows[j].id {
      InRowsOnce(t, job, i, j);
    }
    forall k | 0 <= k < |rows| ensures HasChunk(t.chunks, rows[k].id) {
      RowsOfMembers(t.chunks, job, rows[k]);
    }
  }

  /** The embedder answers each text by a vector that depends on that text alone. */
  ghost predicate Pointwise(ask: Embedder, f: string -> Vector) {
    && (forall input :: |f(input)| == EMBEDDING_DIM)
    && (forall inputs :: ask(inputs) == Some(seq(|inputs|, i requires 0 <= i < |inputs| => f(inputs[i]))))
  }

  /** `vector` is what `f` gives for the row's heading and content. */
  ghost predicate IsVectorOf(vector: Vector, f: string -> Vector, row: ChunkRow) {
    exists input :: IsInputOf(input, row.heading, row.content) && vector == f(input)
  }

  /** Batching refines the simple map: such an embedder is never refused, and each row's vector is that of its heading and content. */
  lemma BatchingIsTheMap(rows: seq<ChunkRow>, ask: Embedder, f: string -> Vector, k: nat)
    requires Pointwise(ask, f) && k < |rows|
    ensures Accepted(rows, ask, BatchStart(k))
    ensures IsVectorOf(VectorFor(rows, ask, k), f, rows[k])
  {
    var start := BatchStart(k);
    assert Batch(rows, start)[k - start] == rows[k];
    assert IsInputOf(Inputs(Batch(rows, start))[k - start], rows[k].heading, rows[k].content);
  }

  /** The table after all rows got their own vectors: each row has the vector of its heading and content, and nothing else moved. */
  lemma EmbeddingIsTheMap(rows: seq<ChunkRow>, ask: Embedder, f: string -> Vector, own: seq<Vector>, before: map<nat, Vector>)
    requires Pointwise(ask, f) && DistinctRowIds(rows)
    requires OwnVectors(rows, ask, own) && |own| == |rows|
    ensures
      var now := Zipped(rows, own, before);
      && (forall k :: 0 <= k < |rows| ==> rows[k].id in now && IsVectorOf(now[rows[k].id], f, rows[k]))
      && (forall id :: (forall k :: 0 <= k < |rows| ==> rows[k].id != id) ==> SameAt(now, before, id))
  {
    ZippedIsEachRowsOwn(rows, own, before);
    forall k | 0 <= k < |rows| ensures HasOwn(rows, own, Zipped(rows, own, before), k) && IsVectorOf(own[k], f, rows[k]) {
      assert OwnAt(rows, ask, own, k);
      BatchingIsTheMap(rows, ask, f, k);
    }
  }
}
