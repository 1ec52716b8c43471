/**
 The chunk table: reading a job's rows back, and replacing them, job by job.
 */
module ChunkTable {
  import opened Ingestion
  import opened Tables

  // ----- reading

  lemma RowsOfMembers(chunks: seq<ChunkRow>, job: JobId, row: ChunkRow)
    ensures row in RowsOf(chunks, job) <==> row in chunks && row.job == job
  {
    if chunks != [] {
      RowsOfMembers(chunks[1..], job, row);
    }
  }

  lemma {:induction false} RowsOfAppend(a: seq<ChunkRow>, b: seq<ChunkRow>, job: JobId)
    ensures RowsOf(a + b, job) == RowsOf(a, job) + RowsOf(b, job)
  {
    if a == [] {
      assert a + b == b;
    } else {
      var all := a + b;
      assert all[0] == a[0] && all[1..] == a[1..] + b;
      RowsOfAppend(a[1..], b, job);
    }
  }

  lemma RowsOfAll(rows: seq<ChunkRow>, job: JobId)
    requires forall row :: row in rows ==> row.job == job
    ensures RowsOf(rows, job) == rows
  {
  }

  lemma RowsOfNone(rows: seq<ChunkRow>, job: JobId)
    requires forall row :: row in rows ==> row.job != job
    ensures RowsOf(rows, job) == []
  {
  }

  /** A delete empties one job's rows and leaves every other job's. */
  lemma RowsAfterDelete(chunks: seq<ChunkRow>, job: JobId, other: JobId)
    ensures RowsOf(DeleteByJob(chunks, job), other) == if other == job then [] else RowsOf(chunks, other)
  {
    if chunks != [] {
      RowsAfterDelete(chunks[1..], job, other);
    }
  }

  /** After `replace`, the job has exactly the new rows and every other job has what it had. */
  lemma RowsAfterReplace(t: Tables, job: JobId, news: seq<NewChunk>, other: JobId)
    requires DistinctPositions(news)
    ensures
      RowsOf(ReplaceChunks(t, job, news).value.chunks, other) ==
        if other == job then Numbered(job, news, t.nextChunk) else RowsOf(t.chunks, other)
  {
    var added := Numbered(job, news, t.nextChunk);
    RowsOfAppend(DeleteByJob(t.chunks, job), added, other);
    RowsAfterDelete(t.chunks, job, other);
    if other == job { RowsOfAll(added, job); } else { RowsOfNone(added, other); }
  }

  // ----- positions

  predicate Contiguous(rows: seq<ChunkRow>, start: nat) {
    forall i :: 0 <= i < |rows| ==> rows[i].position == start + i
  }

  lemma {:induction false} ContiguousIsSorted(rows: seq<ChunkRow>, start: nat)
    requires Contiguous(rows, start)
    ensures SortedByPosition(rows) == rows
  {
    if rows != [] {
      ContiguousIsSorted(rows[1..], start + 1);
    }
  }

  // ----- the invariant of the table

  ghost predicate DistinctIds(chunks: seq<ChunkRow>, bound: nat) {
    && (forall i, j {:trigger chunks[i], chunks[j]} :: 0 <= i < j < |chunks| ==> chunks[i].id != chunks[j].id)
    && (forall i {:trigger chunks[i]} :: 0 <= i < |chunks| ==> chunks[i].id < bound)
  }

  ghost predicate UniqueIds(t: Tables) {
    DistinctIds(t.chunks, t.nextChunk)
  }

  /** Every embedding is of a chunk that is there. */
  predicate OnChunks(t: Tables) {
    forall id :: id in t.embeddings ==> HasChunk(t.chunks, id)
  }

  /**
   Ids are unique and below the next one, each job's rows are at positions 0, 1, 2, ..., and
   embeddings are of chunks that are there.
   */
  ghost predicate ValidChunks(t: Tables) {
    && UniqueIds(t)
    && OnChunks(t)
    && (forall job :: Contiguous(RowsOf(t.chunks, job), 0))
  }

  lemma DeleteKeepsDistinctIds(chunks: seq<ChunkRow>, job: JobId, bound: nat)
    requires DistinctIds(chunks, bound)
    ensures forall row :: row in DeleteByJob(chunks, job) ==> row in chunks
    ensures DistinctIds(DeleteByJob(chunks, job), bound)
  {
    if chunks != [] {
      var rest := chunks[1..];
      DeleteKeepsDistinctIds(rest, job, bound);
      forall row | row in rest ensures row.id != chunks[0].id {
        var k :| 0 <= k < |rest| && rest[k] == row;
        assert chunks[k + 1] == row;
      }
    }
  }

  lemma NumberingKeepsDistinctIds(chunks: seq<ChunkRow>, job: JobId, news: seq<NewChunk>, bound: nat)
    requires DistinctIds(chunks, bound)
    ensures DistinctIds(chunks + Numbered(job, news, bound), bound + |news|)
  {
    var added := Numbered(job, news, bound);
    var all := chunks + added;
    assert forall i :: |chunks| <= i < |all| ==> all[i] == added[i - |chunks|];
    assert forall i :: 0 <= i < |added| ==> added[i].id == bound + i;
    assert forall i :: |chunks| <= i < |all| ==> all[i].id == bound + (i - |chunks|);
  }

  lemma ReplaceKeepsUniqueIds(t: Tables, job: JobId, news: seq<NewChunk>)
    requires UniqueIds(t) && DistinctPositions(news)
    ensures UniqueIds(ReplaceChunks(t, job, news).value)
  {
    DeleteKeepsDistinctIds(t.chunks, job, t.nextChunk);
    NumberingKeepsDistinctIds(DeleteByJob(t.chunks, job), job, news, t.nextChunk);
  }

  predicate CountedUp(news: seq<NewChunk>) {
    forall i :: 0 <= i < |news| ==> news[i].position == i
  }

  lemma DeleteKeepsOthers(chunks: seq<ChunkRow>, job: JobId, row: ChunkRow)
    requires row in chunks && row.job != job
    ensures row in DeleteByJob(chunks, job)
  {
    if chunks[0] != row { DeleteKeepsOthers(chunks[1..], job, row); }
  }

  /** The deleted rows take their embeddings with them, and no other. */
  lemma ReplaceKeepsOnChunks(t: Tables, job: JobId, news: seq<NewChunk>)
    requires OnChunks(t) && DistinctPositions(news)
    ensures OnChunks(ReplaceChunks(t, job, news).value)
  {
    var t' := ReplaceChunks(t, job, news).value;
    var kept := DeleteByJob(t.chunks, job);
    forall id | id in t'.embeddings ensures HasChunk(t'.chunks, id) {
      var i :| 0 <= i < |t.chunks| && t.chunks[i].id == id;
      var row := t.chunks[i];
      assert row.job == job ==> id in IdsOf(t.chunks, job);
      DeleteKeepsOthers(t.chunks, job, row);
      var k :| 0 <= k < |kept| && kept[k] == row;
      assert t'.chunks[k] == row;
    }
  }

  lemma ReplaceKeepsValidChunks(t: Tables, job: JobId, news: seq<NewChunk>)
    requires ValidChunks(t) && CountedUp(news)
    ensures ReplaceChunks(t, job, news).Some? && ValidChunks(ReplaceChunks(t, job, news).value)
  {
    ReplaceKeepsUniqueIds(t, job, news);
    ReplaceKeepsOnChunks(t, job, news);
    forall other ensures Contiguous(RowsOf(ReplaceChunks(t, job, news).value.chunks, other), 0) {
      RowsAfterReplace(t, job, news, other);
      assert Contiguous(RowsOf(t.chunks, other), 0);
    }
  }

  lemma FindByJobReadsRows(t: Tables, job: JobId)
    requires ValidChunks(t)
    ensures FindByJob(t.chunks, job) == RowsOf(t.chunks, job)
  {
    ContiguousIsSorted(RowsOf(t.chunks, job), 0);
  }

  /** Rows of different jobs never share an id, so one job's embeddings are not another's. */
  lemma IdsDiffer(t: Tables, a: ChunkRow, b: ChunkRow)
    requires UniqueIds(t) && a in t.chunks && b in t.chunks && a != b
    ensures a.id != b.id
  {
    var i :| 0 <= i < |t.chunks| && t.chunks[i] == a;
    var j :| 0 <= j < |t.chunks| && t.chunks[j] == b;
    if i < j { assert t.chunks[i].id != t.chunks[j].id; } else { assert t.chunks[j].id != t.chunks[i].id; }
  }

  lemma InRowsOnce(t: Tables, job: JobId, i: nat, j: nat)
    requires ValidChunks(t) && i < |RowsOf(t.chunks, job)| && j < |RowsOf(t.chunks, job)| && i != j
    ensures RowsOf(t.chunks, job)[i].id != RowsOf(t.chunks, job)[j].id
  {
    var rows := RowsOf(t.chunks, job);
    assert Contiguous(rows, 0);
    RowsOfMembers(t.chunks, job, rows[i]);
    RowsOfMembers(t.chunks, job, rows[j]);
    assert rows[i].position != rows[j].position;
    IdsDiffer(t, rows[i], rows[j]);
  }

  /** `replace` drops no embedding of another job. */
  lemma ReplaceKeepsOtherEmbeddings(t: Tables, job: JobId, news: seq<NewChunk>, row: ChunkRow)
    requires UniqueIds(t) && DistinctPositions(news)
    requires row in t.chunks && row.job != job && row.id in t.embeddings
    ensures var t' := ReplaceChunks(t, job, news).value;
      row.id in t'.embeddings && t'.embeddings[row.id] == t.embeddings[row.id]
  {
    if row.id in IdsOf(t.chunks, job) {
      var gone :| gone in t.chunks && gone.job == job && gone.id == row.id;
      IdsDiffer(t, gone, row);
    }
  }
}
