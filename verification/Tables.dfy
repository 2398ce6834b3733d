// The three append-only tables and the meaning of the queries over them
// (src/llm_worker/clickhouse.py).
module Tables {
  import opened Rows
  import opened Permutations

  datatype BatchStatus = PENDING | COMPLETE

  datatype BatchRow = BatchRow(batchId: Uuid, status: BatchStatus, total: nat, completed: nat, failed: nat)

  datatype Db = Db(inputs: seq<LLMInput>, results: seq<LLMResult>, batches: seq<BatchRow>)

  // ---- get_pending_batches ----

  predicate HasStatus(batches: seq<BatchRow>, batch: Uuid, status: BatchStatus) {
    exists i :: 0 <= i < |batches| && batches[i].batchId == batch && batches[i].status == status
  }

  predicate IsPending(batches: seq<BatchRow>, batch: Uuid) {
    HasStatus(batches, batch, PENDING) && !HasStatus(batches, batch, COMPLETE)
  }

  // Adds an id to an ascending list without duplicates.
  function InsertId(id: Uuid, ids: seq<Uuid>): seq<Uuid> {
    if ids == [] || id < ids[0] then [id] + ids
    else if id == ids[0] then ids
    else [ids[0]] + InsertId(id, ids[1..])
  }

  // GROUP BY, HAVING and ORDER BY, over the first `n` rows of the table.
  function PendingAmong(batches: seq<BatchRow>, n: nat): seq<Uuid>
    requires n <= |batches|
  {
    if n == 0 then []
    else
      var before := PendingAmong(batches, n - 1);
      if IsPending(batches, batches[n - 1].batchId) then InsertId(batches[n - 1].batchId, before) else before
  }

  function Take<T>(items: seq<T>, limit: nat): seq<T> {
    if |items| <= limit then items else items[..limit]
  }

  function AllPending(db: Db): seq<Uuid> {
    PendingAmong(db.batches, |db.batches|)
  }

  function GetPendingBatches(db: Db, limit: nat): seq<Uuid> {
    Take(AllPending(db), limit)
  }

  // ---- get_batch_rows ----

  predicate HasResult(results: seq<LLMResult>, batch: Uuid, row: Uuid) {
    exists i :: 0 <= i < |results| && results[i].batchId == batch && results[i].rowId == row
  }

  function Outstanding(inputs: seq<LLMInput>, results: seq<LLMResult>, batch: Uuid): seq<LLMInput> {
    if inputs == [] then []
    else
      var rest := Outstanding(inputs[1..], results, batch);
      if inputs[0].batchId == batch && !HasResult(results, batch, inputs[0].rowId) then [inputs[0]] + rest else rest
  }

  function InsertRow(row: LLMInput, rows: seq<LLMInput>): seq<LLMInput> {
    if rows == [] || row.rowId <= rows[0].rowId then [row] + rows
    else [rows[0]] + InsertRow(row, rows[1..])
  }

  function SortRows(rows: seq<LLMInput>): seq<LLMInput> {
    if rows == [] then [] else InsertRow(rows[0], SortRows(rows[1..]))
  }

  function GetBatchRows(db: Db, batch: Uuid, limit: nat): seq<LLMInput> {
    Take(SortRows(Outstanding(db.inputs, db.results, batch)), limit)
  }

  // ---- get_batch_counts ----

  function CountInputs(inputs: seq<LLMInput>, batch: Uuid): nat {
    if inputs == [] then 0
    else CountInputs(inputs[1..], batch) + if inputs[0].batchId == batch then 1 else 0
  }

  function CountIf(results: seq<LLMResult>, batch: Uuid, status: Status): nat {
    if results == [] then 0
    else
      CountIf(results[1..], batch, status)
      + if results[0].batchId == batch && results[0].status == status then 1 else 0
  }

  // ---- Facts about the queries ----

  lemma {:induction false} InsertRowPermutes(row: LLMInput, rows: seq<LLMInput>)
    ensures multiset(InsertRow(row, rows)) == multiset(rows) + multiset{row}
  {
    if rows != [] && row.rowId > rows[0].rowId {
      InsertRowPermutes(row, rows[1..]);
      assert rows == [rows[0]] + rows[1..];
    }
  }

  lemma {:induction false} SortRowsPermutes(rows: seq<LLMInput>)
    ensures multiset(SortRows(rows)) == multiset(rows) && |SortRows(rows)| == |rows|
  {
    if rows != [] {
      SortRowsPermutes(rows[1..]);
      InsertRowPermutes(rows[0], SortRows(rows[1..]));
      assert rows == [rows[0]] + rows[1..];
    }
    assert |multiset(SortRows(rows))| == |SortRows(rows)|;
  }

  predicate Ascending(rows: seq<LLMInput>) {
    forall i, j :: 0 <= i < j < |rows| ==> rows[i].rowId <= rows[j].rowId
  }

  lemma {:induction false} InsertRowAscends(row: LLMInput, rows: seq<LLMInput>)
    requires Ascending(rows)
    ensures Ascending(InsertRow(row, rows))
  {
    if rows != [] && row.rowId > rows[0].rowId {
      InsertRowAscends(row, rows[1..]);
      var tail := InsertRow(row, rows[1..]);
      InsertRowPermutes(row, rows[1..]);
      forall j | 0 <= j < |tail|
        ensures rows[0].rowId <= tail[j].rowId
      {
        assert tail[j] in multiset(tail);
        assert tail[j] == row || tail[j] in rows[1..];
      }
    }
  }

  lemma {:induction false} SortRowsAscends(rows: seq<LLMInput>)
    ensures Ascending(SortRows(rows))
  {
    if rows != [] {
      SortRowsAscends(rows[1..]);
      InsertRowAscends(rows[0], SortRows(rows[1..]));
    }
  }

  // ---- Row ids as sets ----

  function InputIds(inputs: seq<LLMInput>, batch: Uuid): set<Uuid> {
    set i | 0 <= i < |inputs| && inputs[i].batchId == batch :: inputs[i].rowId
  }

  function ResultIds(results: seq<LLMResult>, batch: Uuid): set<Uuid> {
    set i | 0 <= i < |results| && results[i].batchId == batch :: results[i].rowId
  }

  // Row ids do not repeat within a batch.
  predicate UniqueInputs(inputs: seq<LLMInput>) {
    forall i, j :: 0 <= i < j < |inputs| ==>
      inputs[i].batchId != inputs[j].batchId || inputs[i].rowId != inputs[j].rowId
  }

  predicate UniqueResults(results: seq<LLMResult>) {
    forall i, j :: 0 <= i < j < |results| ==>
      results[i].batchId != results[j].batchId || results[i].rowId != results[j].rowId
  }

  // Every input row of the batch has a result row.
  ghost predicate Covered(db: Db, batch: Uuid) {
    InputIds(db.inputs, batch) <= ResultIds(db.results, batch)
  }

  lemma HasResultIsMembership(results: seq<LLMResult>, batch: Uuid, row: Uuid)
    ensures HasResult(results, batch, row) <==> row in ResultIds(results, batch)
  {
  }

  lemma InputIdsTail(inputs: seq<LLMInput>, batch: Uuid)
    requires inputs != []
    ensures InputIds(inputs, batch)
         == InputIds(inputs[1..], batch) + if inputs[0].batchId == batch then {inputs[0].rowId} else {}
    ensures UniqueInputs(inputs) && inputs[0].batchId == batch ==> inputs[0].rowId !in InputIds(inputs[1..], batch)
  {
    var tail := inputs[1..];
    forall row | row in InputIds(inputs, batch)
      ensures row in InputIds(tail, batch) || (inputs[0].batchId == batch && row == inputs[0].rowId)
    {
      var i :| 0 <= i < |inputs| && inputs[i].batchId == batch && inputs[i].rowId == row;
      if i > 0 { assert tail[i - 1] == inputs[i]; }
    }
    forall row | row in InputIds(tail, batch)
      ensures row in InputIds(inputs, batch)
    {
      var i :| 0 <= i < |tail| && tail[i].batchId == batch && tail[i].rowId == row;
      assert inputs[i + 1] == tail[i];
    }
  }

  lemma ResultIdsTail(results: seq<LLMResult>, batch: Uuid)
    requires results != []
    ensures ResultIds(results, batch)
         == ResultIds(results[1..], batch) + if results[0].batchId == batch then {results[0].rowId} else {}
    ensures UniqueResults(results) && results[0].batchId == batch ==>
      results[0].rowId !in ResultIds(results[1..], batch)
  {
    var tail := results[1..];
    forall row | row in ResultIds(results, batch)
      ensures row in ResultIds(tail, batch) || (results[0].batchId == batch && row == results[0].rowId)
    {
      var i :| 0 <= i < |results| && results[i].batchId == batch && results[i].rowId == row;
      if i > 0 { assert tail[i - 1] == results[i]; }
    }
    forall row | row in ResultIds(tail, batch)
      ensures row in ResultIds(results, batch)
    {
      var i :| 0 <= i < |tail| && tail[i].batchId == batch && tail[i].rowId == row;
      assert results[i + 1] == tail[i];
    }
  }

  lemma ResultIdsJoin(a: seq<LLMResult>, b: seq<LLMResult>, batch: Uuid)
    ensures ResultIds(a + b, batch) == ResultIds(a, batch) + ResultIds(b, batch)
  {
    var both := a + b;
    forall row | row in ResultIds(a, batch) + ResultIds(b, batch)
      ensures row in ResultIds(both, batch)
    {
      if row in ResultIds(a, batch) {
        var i :| 0 <= i < |a| && a[i].batchId == batch && a[i].rowId == row;
        assert both[i] == a[i];
      } else {
        var i :| 0 <= i < |b| && b[i].batchId == batch && b[i].rowId == row;
        assert both[|a| + i] == b[i];
      }
    }
  }

  lemma {:induction false} CountInputsIsCardinality(inputs: seq<LLMInput>, batch: Uuid)
    requires UniqueInputs(inputs)
    ensures CountInputs(inputs, batch) == |InputIds(inputs, batch)|
  {
    if inputs != [] {
      CountInputsIsCardinality(inputs[1..], batch);
      InputIdsTail(inputs, batch);
    }
  }

  lemma {:induction false} CountsCoverIds(results: seq<LLMResult>, batch: Uuid)
    ensures CountIf(results, batch, Complete) + CountIf(results, batch, Failed) >= |ResultIds(results, batch)|
    ensures UniqueResults(results) ==>
      CountIf(results, batch, Complete) + CountIf(results, batch, Failed) == |ResultIds(results, batch)|
  {
    if results != [] {
      CountsCoverIds(results[1..], batch);
      ResultIdsTail(results, batch);
    }
  }

  // The positions at which a table has a row of the batch, and of the batch with a status.
  function InputsOf(inputs: seq<LLMInput>, batch: Uuid): set<nat> {
    set i: nat | i < |inputs| && inputs[i].batchId == batch
  }

  function ResultsOf(results: seq<LLMResult>, batch: Uuid, status: Status): set<nat> {
    set i: nat | i < |results| && results[i].batchId == batch && results[i].status == status
  }

  lemma {:induction false} CountIfJoin(a: seq<LLMResult>, b: seq<LLMResult>, batch: Uuid, status: Status)
    ensures CountIf(a + b, batch, status) == CountIf(a, batch, status) + CountIf(b, batch, status)
  {
    if a == [] {
      assert a + b == b;
    } else {
      CountIfJoin(a[1..], b, batch, status);
      assert (a + b)[1..] == a[1..] + b;
    }
  }

  // countIf is the number of rows of the batch with the status.
  lemma {:induction false} CountIfCounts(results: seq<LLMResult>, batch: Uuid, status: Status)
    ensures CountIf(results, batch, status) == |ResultsOf(results, batch, status)|
    decreases |results|
  {
    if results != [] {
      var n: nat := |results| - 1;
      var init, last := results[..n], results[n];
      CountIfCounts(init, batch, status);
      assert results == init + [last];
      CountIfJoin(init, [last], batch, status);
      var counted := last.batchId == batch && last.status == status;
      assert ResultsOf(results, batch, status) == ResultsOf(init, batch, status) + if counted then {n} else {};
    }
  }

  lemma {:induction false} CountInputsJoin(a: seq<LLMInput>, b: seq<LLMInput>, batch: Uuid)
    ensures CountInputs(a + b, batch) == CountInputs(a, batch) + CountInputs(b, batch)
  {
    if a == [] {
      assert a + b == b;
    } else {
      CountInputsJoin(a[1..], b, batch);
      assert (a + b)[1..] == a[1..] + b;
    }
  }

  lemma {:induction false} CountInputsCounts(inputs: seq<LLMInput>, batch: Uuid)
    ensures CountInputs(inputs, batch) == |InputsOf(inputs, batch)|
    decreases |inputs|
  {
    if inputs != [] {
      var n: nat := |inputs| - 1;
      var init, last := inputs[..n], inputs[n];
      CountInputsCounts(init, batch);
      assert inputs == init + [last];
      CountInputsJoin(init, [last], batch);
      assert InputsOf(inputs, batch) == InputsOf(init, batch) + if last.batchId == batch then {n} else {};
    }
  }

  lemma CountIfGrows(results: seq<LLMResult>, longer: seq<LLMResult>, batch: Uuid, status: Status)
    requires results <= longer
    ensures CountIf(results, batch, status) <= CountIf(longer, batch, status)
  {
    assert longer == results + longer[|results|..];
    CountIfJoin(results, longer[|results|..], batch, status);
  }

  lemma {:induction false} CountIfOfOthers(results: seq<LLMResult>, batch: Uuid, status: Status)
    requires forall i :: 0 <= i < |results| ==> results[i].batchId != batch
    ensures CountIf(results, batch, status) == 0
  {
    if results != [] {
      CountIfOfOthers(results[1..], batch, status);
    }
  }

  lemma SplitOff(rest: set<Uuid>, id: Uuid, done: set<Uuid>)
    requires id !in rest
    ensures |(rest + {id}) - done| == |rest - done| + if id in done then 0 else 1
  {
    assert (rest + {id}) - done == if id in done then rest - done else (rest - done) + {id};
  }

  lemma {:induction false} OutstandingCount(inputs: seq<LLMInput>, results: seq<LLMResult>, batch: Uuid)
    requires UniqueInputs(inputs)
    ensures |Outstanding(inputs, results, batch)| == |InputIds(inputs, batch) - ResultIds(results, batch)|
  {
    hide InputIds, ResultIds, HasResult;
    if inputs == [] {
      NoIds(batch);
    } else {
      OutstandingCount(inputs[1..], results, batch);
      InputIdsTail(inputs, batch);
      HasResultIsMembership(results, batch, inputs[0].rowId);
      if inputs[0].batchId == batch {
        SplitOff(InputIds(inputs[1..], batch), inputs[0].rowId, ResultIds(results, batch));
      }
    }
  }

  lemma NoIds(batch: Uuid)
    ensures InputIds([], batch) == {}
  {
  }

  lemma {:induction false} OutstandingRows(inputs: seq<LLMInput>, results: seq<LLMResult>, batch: Uuid)
    ensures forall row :: row in Outstanding(inputs, results, batch) <==>
      row in inputs && row.batchId == batch && !HasResult(results, batch, row.rowId)
  {
    if inputs != [] {
      OutstandingRows(inputs[1..], results, batch);
      assert inputs == [inputs[0]] + inputs[1..];
    }
  }

  lemma {:induction false} OutstandingUnique(inputs: seq<LLMInput>, results: seq<LLMResult>, batch: Uuid)
    requires UniqueInputs(inputs)
    ensures UniqueInputs(Outstanding(inputs, results, batch))
  {
    if inputs != [] {
      OutstandingUnique(inputs[1..], results, batch);
      var rest := Outstanding(inputs[1..], results, batch);
      OutstandingRows(inputs[1..], results, batch);
      forall j | 0 <= j < |rest|
        ensures inputs[0].batchId != rest[j].batchId || inputs[0].rowId != rest[j].rowId
      {
        assert rest[j] in inputs[1..];
      }
    }
  }

  lemma {:induction false} InsertRowUnique(row: LLMInput, rows: seq<LLMInput>)
    requires UniqueInputs(rows)
    requires forall other :: other in rows ==> other.batchId != row.batchId || other.rowId != row.rowId
    ensures UniqueInputs(InsertRow(row, rows))
  {
    if rows != [] && row.rowId > rows[0].rowId {
      InsertRowUnique(row, rows[1..]);
      InsertRowPermutes(row, rows[1..]);
      var tail := InsertRow(row, rows[1..]);
      forall j | 0 <= j < |tail|
        ensures rows[0].batchId != tail[j].batchId || rows[0].rowId != tail[j].rowId
      {
        assert tail[j] in multiset(tail);
        assert tail[j] == row || tail[j] in rows[1..];
      }
    }
  }

  lemma {:induction false} SortRowsUnique(rows: seq<LLMInput>)
    requires UniqueInputs(rows)
    ensures UniqueInputs(SortRows(rows))
  {
    if rows != [] {
      SortRowsUnique(rows[1..]);
      SortRowsPermutes(rows[1..]);
      forall other | other in SortRows(rows[1..])
        ensures other.batchId != rows[0].batchId || other.rowId != rows[0].rowId
      {
        assert other in multiset(SortRows(rows[1..]));
        assert other in rows[1..];
      }
      InsertRowUnique(rows[0], SortRows(rows[1..]));
    }
  }

  function Missing(db: Db, batch: Uuid): set<Uuid> {
    InputIds(db.inputs, batch) - ResultIds(db.results, batch)
  }

  lemma OutstandingAreMissing(db: Db, batch: Uuid)
    ensures forall row :: row in SortRows(Outstanding(db.inputs, db.results, batch)) ==>
      row in db.inputs && row.batchId == batch && row.rowId in Missing(db, batch)
  {
    var rows := Outstanding(db.inputs, db.results, batch);
    OutstandingRows(db.inputs, db.results, batch);
    SortRowsPermutes(rows);
    forall row | row in SortRows(rows)
      ensures row in db.inputs && row.batchId == batch && row.rowId in Missing(db, batch)
    {
      assert row in multiset(SortRows(rows));
      assert row in rows;
      var i :| 0 <= i < |db.inputs| && db.inputs[i] == row;
      HasResultIsMembership(db.results, batch, row.rowId);
    }
  }

  lemma MissingAreOutstanding(db: Db, batch: Uuid, id: Uuid) returns (k: nat)
    requires id in Missing(db, batch)
    ensures k < |SortRows(Outstanding(db.inputs, db.results, batch))|
    ensures SortRows(Outstanding(db.inputs, db.results, batch))[k].rowId == id
    ensures SortRows(Outstanding(db.inputs, db.results, batch))[k].batchId == batch
  {
    var rows := Outstanding(db.inputs, db.results, batch);
    var i :| 0 <= i < |db.inputs| && db.inputs[i].batchId == batch && db.inputs[i].rowId == id;
    HasResultIsMembership(db.results, batch, id);
    OutstandingRows(db.inputs, db.results, batch);
    SortRowsPermutes(rows);
    assert db.inputs[i] in rows;
    assert db.inputs[i] in multiset(SortRows(rows));
    k :| 0 <= k < |SortRows(rows)| && SortRows(rows)[k] == db.inputs[i];
  }

  // A page holds rows of the batch without a result, none twice, in order of id; it is as
  // long as the limit allows, so it is empty only when every input row has a result.
  lemma PageIsNextRows(db: Db, batch: Uuid, limit: nat)
    requires UniqueInputs(db.inputs)
    ensures
      var page := GetBatchRows(db, batch, limit);
      && |page| == (if |Missing(db, batch)| <= limit then |Missing(db, batch)| else limit)
      && Ascending(page)
      && UniqueInputs(page)
      && (forall row :: row in page ==> row in db.inputs && row.batchId == batch && row.rowId in Missing(db, batch))
  {
    var rows := Outstanding(db.inputs, db.results, batch);
    OutstandingCount(db.inputs, db.results, batch);
    OutstandingAreMissing(db, batch);
    OutstandingUnique(db.inputs, db.results, batch);
    SortRowsPermutes(rows);
    SortRowsAscends(rows);
    SortRowsUnique(rows);
  }

  // A page skips no row: a missing row with a smaller id than one on the page is on it too.
  lemma PageSkipsNothing(db: Db, batch: Uuid, limit: nat, id: Uuid, row: LLMInput)
    requires id in Missing(db, batch) && row in GetBatchRows(db, batch, limit) && id < row.rowId
    ensures id in InputIds(GetBatchRows(db, batch, limit), batch)
  {
    var page := GetBatchRows(db, batch, limit);
    var k := MissingAreOutstanding(db, batch, id);
    SortRowsAscends(Outstanding(db.inputs, db.results, batch));
    var j :| 0 <= j < |page| && page[j] == row;
    assert k < |page|;
    assert page[k].rowId == id;
  }

  // A covered batch's counts add up to at least its total, and exactly to it when no row
  // has two results and every result is for an input row.
  lemma CountsOfCovered(db: Db, batch: Uuid)
    requires UniqueInputs(db.inputs) && Covered(db, batch)
    ensures CountIf(db.results, batch, Complete) + CountIf(db.results, batch, Failed) >= CountInputs(db.inputs, batch)
    ensures UniqueResults(db.results) && ResultIds(db.results, batch) <= InputIds(db.inputs, batch) ==>
      CountIf(db.results, batch, Complete) + CountIf(db.results, batch, Failed) == CountInputs(db.inputs, batch)
  {
    CountInputsIsCardinality(db.inputs, batch);
    CountsCoverIds(db.results, batch);
    var inputs, results := InputIds(db.inputs, batch), ResultIds(db.results, batch);
    assert results == inputs + (results - inputs);
    if results <= inputs { assert results == inputs; }
  }
}
