// One worker's view of the tables: queries and inserts that may fail, and the loops that
// retry and chunk the inserts (src/llm_worker/main.py, src/llm_worker/clickhouse.py).
module Store {
  import opened Json
  import opened Rows
  import opened Tables
  import opened PageWriter
  import P = Pool

  // `longer` is `results` with rows of `rows` appended, possibly several times.
  ghost predicate Appended(results: seq<LLMResult>, longer: seq<LLMResult>, rows: seq<LLMResult>) {
    results <= longer && forall i :: |results| <= i < |longer| ==> longer[i] in rows
  }

  // All of `rows` are among the appended ones.
  ghost predicate AllLanded(results: seq<LLMResult>, longer: seq<LLMResult>, rows: seq<LLMResult>) {
    Appended(results, longer, rows) && forall row :: row in rows ==> row in longer[|results|..]
  }

  lemma AllLandedIds(results: seq<LLMResult>, longer: seq<LLMResult>, rows: seq<LLMResult>, batch: Uuid)
    requires AllLanded(results, longer, rows)
    ensures ResultIds(longer, batch) == ResultIds(results, batch) + ResultIds(rows, batch)
  {
    var tail := longer[|results|..];
    assert longer == results + tail;
    ResultIdsJoin(results, tail, batch);
    forall id | id in ResultIds(tail, batch)
      ensures id in ResultIds(rows, batch)
    {
      var i :| 0 <= i < |tail| && tail[i].batchId == batch && tail[i].rowId == id;
      assert longer[|results| + i] in rows;
    }
    forall id | id in ResultIds(rows, batch)
      ensures id in ResultIds(tail, batch)
    {
      var i :| 0 <= i < |rows| && rows[i].batchId == batch && rows[i].rowId == id;
      assert rows[i] in tail;
    }
  }

  lemma AllLandedJoin(
    a: seq<LLMResult>, b: seq<LLMResult>, c: seq<LLMResult>, rows: seq<LLMResult>, rows': seq<LLMResult>)
    requires AllLanded(a, b, rows) && AllLanded(b, c, rows')
    ensures AllLanded(a, c, rows + rows')
  {
    assert c[|a|..] == b[|a|..] + c[|b|..];
  }

  // The length of so many copies of `rows` rows.
  function Copies(count: nat, rows: nat): nat {
    if count == 0 then 0 else Copies(count - 1, rows) + rows
  }

  lemma {:induction false} CopiesWithin(count: nat, limit: nat, rows: nat)
    requires count <= limit
    ensures Copies(count, rows) <= limit * rows
  {
    if count > 0 {
      CopiesWithin(count - 1, limit - 1, rows);
      assert limit * rows == (limit - 1) * rows + rows;
    }
  }

  class ClickHouse {
    var db: Db
    var pageReads: nat   // calls of get_batch_rows
    var inserts: nat     // inserts sent, of results or of a status
    const reliable: bool // no query or insert ever fails

    constructor (db: Db, reliable: bool)
      ensures this.db == db && this.reliable == reliable && pageReads == inserts == 0
    {
      this.db, this.reliable, pageReads, inserts := db, reliable, 0, 0;
    }

    method Fails() returns (fails: bool)
      ensures reliable ==> !fails
    {
      fails := *;
      fails := fails && !reliable;
    }

    method ReadPage(batch: Uuid, limit: nat) returns (page: Option<seq<LLMInput>>)
      modifies this`pageReads
      ensures pageReads == old(pageReads) + 1
      ensures page.Some? ==> page.value == GetBatchRows(db, batch, limit)
      ensures reliable ==> page.Some?
    {
      pageReads := pageReads + 1;
      var fails := Fails();
      page := if fails then None else Some(GetBatchRows(db, batch, limit));
    }

    // An insert that fails may have landed all the same.
    method WriteResults(rows: seq<LLMResult>) returns (ok: bool)
      modifies this`db, this`inserts
      ensures db.inputs == old(db.inputs) && db.batches == old(db.batches)
      ensures db.results == old(db.results) || db.results == old(db.results) + rows
      ensures ok ==> db.results == old(db.results) + rows
      ensures inserts == old(inserts) + if rows == [] then 0 else 1
      ensures !ok ==> rows != []
      ensures reliable ==> ok
    {
      if rows == [] {
        assert db.results + rows == db.results;
        return true;
      }
      inserts := inserts + 1;
      var fails := Fails();
      var lands: bool := *;
      if !fails || lands {
        db := db.(results := db.results + rows);
      }
      ok := !fails;
    }

    method WriteStatus(row: BatchRow) returns (ok: bool)
      modifies this`db, this`inserts
      ensures db.inputs == old(db.inputs) && db.results == old(db.results)
      ensures db.batches == old(db.batches) || db.batches == old(db.batches) + [row]
      ensures ok ==> db.batches == old(db.batches) + [row]
      ensures inserts == old(inserts) + 1
      ensures reliable ==> ok
    {
      inserts := inserts + 1;
      var fails := Fails();
      var lands: bool := *;
      if !fails || lands {
        db := db.(batches := db.batches + [row]);
      }
      ok := !fails;
    }

    // _write_results_with_retry
    method WriteResultsWithRetry(rows: seq<LLMResult>) returns (ok: bool)
      modifies this`db, this`inserts
      ensures db.inputs == old(db.inputs) && db.batches == old(db.batches)
      ensures Appended(old(db.results), db.results, rows)
      ensures ok ==> AllLanded(old(db.results), db.results, rows)
      ensures |db.results| <= |old(db.results)| + 3 * |rows|
      ensures inserts <= old(inserts) + 3
      ensures !ok ==> inserts == old(inserts) + 3
      ensures reliable ==> ok
    {
      var attempt := 1;
      ok := WriteResults(rows);
      while !ok && attempt < RESULT_WRITE_MAX_ATTEMPTS
        invariant 1 <= attempt <= RESULT_WRITE_MAX_ATTEMPTS
        invariant |db.results| <= |old(db.results)| + Copies(attempt, |rows|)
        invariant inserts == old(inserts) + if rows == [] then 0 else attempt
        invariant rows == [] ==> ok
        invariant db.inputs == old(db.inputs) && db.batches == old(db.batches)
        invariant Appended(old(db.results), db.results, rows)
        invariant ok ==> AllLanded(old(db.results), db.results, rows)
        invariant reliable ==> ok
      {
        ghost var before := db.results;
        attempt := attempt + 1;
        ok := WriteResults(rows);
        if ok {
          assert db.results[|old(db.results)|..] == before[|old(db.results)|..] + rows;
        }
      }
      CopiesWithin(attempt, RESULT_WRITE_MAX_ATTEMPTS, |rows|);
    }

    // _write_results_in_chunks: the chunks it hands to the writer are the stream cut at every
    // fiftieth result.
    method WriteResultsInChunks(stream: seq<LLMResult>) returns (ok: bool, ghost chunks: seq<seq<LLMResult>>)
      modifies this`db, this`inserts
      ensures db.inputs == old(db.inputs) && db.batches == old(db.batches)
      ensures Appended(old(db.results), db.results, stream)
      ensures ok ==> AllLanded(old(db.results), db.results, stream)
      ensures ok ==> Flatten(chunks) == stream
      ensures Flatten(chunks) <= stream
      ensures forall i :: 0 <= i < |chunks| ==> 1 <= |chunks[i]| <= 50
      ensures forall i :: 0 <= i < |chunks| - 1 ==> |chunks[i]| == 50
      ensures reliable ==> ok
    {
      var pending: seq<LLMResult> := [];
      chunks := [];
      var next := 0;
      while next < |stream|
        invariant 0 <= next <= |stream| && |pending| < RESULT_WRITE_BATCH_SIZE
        invariant db.inputs == old(db.inputs) && db.batches == old(db.batches)
        invariant Flatten(chunks) + pending == stream[..next]
        invariant AllLanded(old(db.results), db.results, Flatten(chunks))
        invariant forall i :: 0 <= i < |chunks| ==> |chunks[i]| == RESULT_WRITE_BATCH_SIZE
      {
        pending := pending + [stream[next]];
        next := next + 1;
        assert Flatten(chunks) + pending == stream[..next];
        if |pending| >= RESULT_WRITE_BATCH_SIZE {
          ok, chunks := WriteChunk(pending, chunks, old(db.results), stream);
          if !ok { return; }
          pending := [];
        }
      }
      ok := true;
      assert stream[..next] == stream;
      assert pending == [] ==> Flatten(chunks) == stream;
      if pending != [] {
        ok, chunks := WriteChunk(pending, chunks, old(db.results), stream);
      }
    }

    method WriteChunk(
      chunk: seq<LLMResult>, ghost chunks: seq<seq<LLMResult>>,
      ghost start: seq<LLMResult>, ghost stream: seq<LLMResult>)
        returns (ok: bool, ghost chunks': seq<seq<LLMResult>>)
      requires Flatten(chunks) + chunk <= stream
      requires AllLanded(start, db.results, Flatten(chunks))
      modifies this`db, this`inserts
      ensures db.inputs == old(db.inputs) && db.batches == old(db.batches)
      ensures chunks' == chunks + [chunk] && Flatten(chunks') == Flatten(chunks) + chunk
      ensures Appended(start, db.results, stream)
      ensures ok ==> AllLanded(start, db.results, Flatten(chunks'))
      ensures reliable ==> ok
    {
      chunks' := chunks + [chunk];
      assert chunks'[..|chunks|] == chunks && P.Last(chunks') == chunk;
      ok := WriteResultsWithRetry(chunk);
      if ok {
        AllLandedJoin(start, old(db.results), db.results, Flatten(chunks), chunk);
      }
      forall i | |start| <= i < |db.results|
        ensures db.results[i] in stream
      {
        if i < |old(db.results)| {
          assert db.results[i] in Flatten(chunks);
        } else {
          assert db.results[i] in chunk;
        }
        assert db.results[i] in Flatten(chunks) + chunk;
      }
    }

    // _write_batch_status_with_retry
    method WriteStatusWithRetry(row: BatchRow) returns (ok: bool, ghost copies: nat)
      modifies this`db, this`inserts
      ensures db.inputs == old(db.inputs) && db.results == old(db.results)
      ensures db.batches == old(db.batches) + seq(copies, _ => row)
      ensures ok ==> copies >= 1
      ensures copies <= inserts - old(inserts) <= 3
      ensures !ok ==> inserts == old(inserts) + 3
      ensures reliable ==> ok && copies == 1
    {
      var attempt := 1;
      ok := WriteStatus(row);
      copies := if db.batches == old(db.batches) then 0 else 1;
      while !ok && attempt < BATCH_STATUS_WRITE_MAX_ATTEMPTS
        invariant copies <= attempt <= BATCH_STATUS_WRITE_MAX_ATTEMPTS && inserts == old(inserts) + attempt
        invariant db.inputs == old(db.inputs) && db.results == old(db.results)
        invariant db.batches == old(db.batches) + seq(copies, _ => row)
        invariant ok ==> copies >= 1
        invariant reliable ==> ok && copies == 1
      {
        attempt := attempt + 1;
        ghost var before := db.batches;
        ok := WriteStatus(row);
        copies := if db.batches == before then copies else copies + 1;
      }
    }
  }
}
