// The batch protocol (src/llm_worker/main.py) for any number of workers sharing the
// tables: every query and write is one step, any worker may die or give up between two
// steps, and a failed write may or may not have landed.
module Protocol {
  import opened Rows
  import opened Tables
  import opened PageWriter

  datatype Settings = Settings(batchLimit: nat, pageSize: nat)

  // Where a worker is; `queue` holds the batches left from its last poll.
  datatype Worker =
    | Polling
    | Serving(queue: seq<Uuid>)
    | Querying(batch: Uuid, queue: seq<Uuid>)
    // `taken` is what the generator has yielded for the page's rows so far.
    | Streaming(batch: Uuid, queue: seq<Uuid>, page: seq<LLMInput>, taken: seq<LLMResult>, pending: seq<LLMResult>)
    | Sending(
        batch: Uuid, queue: seq<Uuid>, page: seq<LLMInput>, taken: seq<LLMResult>, pending: seq<LLMResult>,
        attempt: nat)
    | Counting(batch: Uuid, queue: seq<Uuid>)
    | Marking(batch: Uuid, queue: seq<Uuid>, total: nat, completed: nat, failed: nat, attempt: nat)

  datatype System = System(db: Db, workers: seq<Worker>)

  // The outcome of a write: it succeeds; it fails cleanly; or it lands and reports failure.
  datatype WriteOutcome = Acknowledged | Rejected | Ambiguous {
    predicate Landed() {
      !Rejected?
    }
  }

  datatype Event =
    | AddInput(input: LLMInput)
    | AddPending(batch: Uuid)
    | Poll(w: nat)
    | NextBatch(w: nat)
    | QueryPage(w: nat)
    | Collect(w: nat, result: LLMResult)
    | EndOfPage(w: nat)
    | SendChunk(w: nat, outcome: WriteOutcome)
    | CountRows(w: nat)
    | MarkComplete(w: nat, outcome: WriteOutcome)
    | Lose(w: nat)  // a crash, or an error that escapes to the polling loop
  {
    predicate ByWorker() {
      !AddInput? && !AddPending?
    }
  }

  predicate Known(db: Db, batch: Uuid) {
    exists i :: 0 <= i < |db.batches| && db.batches[i].batchId == batch
  }

  // The producer writes a batch's inputs, under fresh row ids, before any status row.
  predicate ProducerCan(db: Db, e: Event)
    requires !e.ByWorker()
  {
    match e
    case AddInput(input) => !Known(db, input.batchId) && input.rowId !in InputIds(db.inputs, input.batchId)
    case AddPending(_) => true
  }

  ghost predicate WorkerCan(cfg: Settings, db: Db, worker: Worker, e: Event)
    requires e.ByWorker()
  {
    match e
    case Poll(_) => worker.Polling?
    case NextBatch(_) => worker.Serving?
    case QueryPage(_) => worker.Querying?
    // The generator yields each row of the page at most once, and returns after the last.
    case Collect(_, result) => worker.Streaming? && AnswersPart(worker.page, worker.taken + [result])
    case EndOfPage(_) => worker.Streaming? && AnswersPage(worker.page, worker.taken)
    case SendChunk(_, _) => worker.Sending?
    case CountRows(_) => worker.Counting?
    case MarkComplete(_, _) => worker.Marking?
    case Lose(_) => true
  }

  function StepWorker(cfg: Settings, db: Db, worker: Worker, e: Event): Worker
    requires e.ByWorker() && WorkerCan(cfg, db, worker, e)
  {
    match e
    case Poll(_) => Serving(GetPendingBatches(db, cfg.batchLimit))
    case NextBatch(_) =>
      if worker.queue == [] then Polling else Querying(worker.queue[0], worker.queue[1..])
    case QueryPage(_) =>
      var page := GetBatchRows(db, worker.batch, cfg.pageSize);
      if page == [] then Counting(worker.batch, worker.queue) else Streaming(worker.batch, worker.queue, page, [], [])
    case Collect(_, result) =>
      var taken, pending := worker.taken + [result], worker.pending + [result];
      if |pending| >= RESULT_WRITE_BATCH_SIZE then Sending(worker.batch, worker.queue, worker.page, taken, pending, 1)
      else Streaming(worker.batch, worker.queue, worker.page, taken, pending)
    case EndOfPage(_) =>
      if worker.pending != [] then Sending(worker.batch, worker.queue, worker.page, worker.taken, worker.pending, 1)
      else Querying(worker.batch, worker.queue)
    case SendChunk(_, outcome) =>
      if outcome.Acknowledged? then Streaming(worker.batch, worker.queue, worker.page, worker.taken, [])
      else if worker.attempt < RESULT_WRITE_MAX_ATTEMPTS then
        Sending(worker.batch, worker.queue, worker.page, worker.taken, worker.pending, worker.attempt + 1)
      else Polling
    case CountRows(_) =>
      Marking(worker.batch, worker.queue, CountInputs(db.inputs, worker.batch),
              CountIf(db.results, worker.batch, Complete), CountIf(db.results, worker.batch, Failed), 1)
    case MarkComplete(_, outcome) =>
      if outcome.Acknowledged? then Serving(worker.queue)
      else if worker.attempt < BATCH_STATUS_WRITE_MAX_ATTEMPTS then
        Marking(worker.batch, worker.queue, worker.total, worker.completed, worker.failed, worker.attempt + 1)
      else Polling
    case Lose(_) => Polling
  }

  function StepDb(cfg: Settings, db: Db, worker: Worker, e: Event): Db
    requires e.ByWorker() && WorkerCan(cfg, db, worker, e)
  {
    match e
    case SendChunk(_, outcome) => if outcome.Landed() then db.(results := db.results + worker.pending) else db
    case MarkComplete(_, outcome) =>
      var row := BatchRow(worker.batch, COMPLETE, worker.total, worker.completed, worker.failed);
      if outcome.Landed() then db.(batches := db.batches + [row]) else db
    case _ => db
  }

  function Produce(db: Db, e: Event): Db
    requires !e.ByWorker() && ProducerCan(db, e)
  {
    match e
    case AddInput(input) => db.(inputs := db.inputs + [input])
    case AddPending(batch) => db.(batches := db.batches + [BatchRow(batch, PENDING, 0, 0, 0)])
  }

  ghost predicate Can(cfg: Settings, s: System, e: Event) {
    if e.ByWorker() then e.w < |s.workers| && WorkerCan(cfg, s.db, s.workers[e.w], e) else ProducerCan(s.db, e)
  }

  function Step(cfg: Settings, s: System, e: Event): System
    requires Can(cfg, s, e)
  {
    if e.ByWorker()
    then System(StepDb(cfg, s.db, s.workers[e.w], e), s.workers[e.w := StepWorker(cfg, s.db, s.workers[e.w], e)])
    else s.(db := Produce(s.db, e))
  }

  function Start(workers: nat): System {
    System(Db([], [], []), seq(workers, _ => Polling))
  }

  ghost predicate IsRun(cfg: Settings, workers: nat, run: seq<System>, events: seq<Event>) {
    && |run| == |events| + 1
    && run[0] == Start(workers)
    && forall k :: 0 <= k < |events| ==> Can(cfg, run[k], events[k]) && run[k + 1] == Step(cfg, run[k], events[k])
  }

  // ---- Safety of every reachable state ----

  // Every result row is for an input row.
  predicate ForInputs(inputs: seq<LLMInput>, results: seq<LLMResult>) {
    forall i :: 0 <= i < |results| ==> results[i].rowId in InputIds(inputs, results[i].batchId)
  }

  // A page's rows are input rows.
  predicate OfInputs(inputs: seq<LLMInput>, page: seq<LLMInput>) {
    forall i :: 0 <= i < |page| ==> page[i].rowId in InputIds(inputs, page[i].batchId)
  }

  // What a `complete` row claims is true.
  ghost predicate Truthful(db: Db, row: BatchRow) {
    row.status.COMPLETE? ==>
      && Covered(db, row.batchId)
      && row.total == CountInputs(db.inputs, row.batchId)
      && row.completed + row.failed >= row.total
      && row.completed <= CountIf(db.results, row.batchId, Complete)
      && row.failed <= CountIf(db.results, row.batchId, Failed)
  }

  ghost predicate DbSafe(db: Db) {
    && UniqueInputs(db.inputs)
    && ForInputs(db.inputs, db.results)
    && forall i :: 0 <= i < |db.batches| ==> Truthful(db, db.batches[i])
  }

  ghost predicate WorkerSafe(db: Db, worker: Worker) {
    && (!worker.Polling? ==> forall i :: 0 <= i < |worker.queue| ==> Known(db, worker.queue[i]))
    && (!worker.Polling? && !worker.Serving? ==> Known(db, worker.batch))
    && (worker.Streaming? || worker.Sending? ==>
          ForInputs(db.inputs, worker.pending) && OfInputs(db.inputs, worker.page))
    && (worker.Counting? || worker.Marking? ==> Covered(db, worker.batch))
    && (worker.Marking? ==>
          Truthful(db, BatchRow(worker.batch, COMPLETE, worker.total, worker.completed, worker.failed)))
  }

  ghost predicate Safe(s: System) {
    DbSafe(s.db) && forall w :: 0 <= w < |s.workers| ==> WorkerSafe(s.db, s.workers[w])
  }

  // The tables only grow, and a batch with a status row gets no more inputs.
  ghost predicate Grows(db: Db, db': Db) {
    && db.inputs <= db'.inputs
    && db.results <= db'.results
    && db.batches <= db'.batches
    && forall i :: |db.inputs| <= i < |db'.inputs| ==> !Known(db, db'.inputs[i].batchId)
  }

  lemma InputIdsGrow(db: Db, db': Db, batch: Uuid)
    requires Grows(db, db')
    ensures InputIds(db.inputs, batch) <= InputIds(db'.inputs, batch)
    ensures Known(db, batch) ==> InputIds(db.inputs, batch) == InputIds(db'.inputs, batch)
    ensures ResultIds(db.results, batch) <= ResultIds(db'.results, batch)
    ensures Known(db, batch) ==> Known(db', batch)
  {
    forall id | id in InputIds(db.inputs, batch)
      ensures id in InputIds(db'.inputs, batch)
    {
      var i :| 0 <= i < |db.inputs| && db.inputs[i].batchId == batch && db.inputs[i].rowId == id;
      assert db'.inputs[i] == db.inputs[i];
    }
    forall id | id in ResultIds(db.results, batch)
      ensures id in ResultIds(db'.results, batch)
    {
      var i :| 0 <= i < |db.results| && db.results[i].batchId == batch && db.results[i].rowId == id;
      assert db'.results[i] == db.results[i];
    }
    if Known(db, batch) {
      var i :| 0 <= i < |db.batches| && db.batches[i].batchId == batch;
      assert db'.batches[i] == db.batches[i];
      forall id | id in InputIds(db'.inputs, batch)
        ensures id in InputIds(db.inputs, batch)
      {
        var i :| 0 <= i < |db'.inputs| && db'.inputs[i].batchId == batch && db'.inputs[i].rowId == id;
        assert i < |db.inputs| && db.inputs[i] == db'.inputs[i];
      }
    }
  }

  lemma CoverageIsStable(db: Db, db': Db, batch: Uuid)
    requires Grows(db, db') && Known(db, batch) && Covered(db, batch)
    ensures Covered(db', batch)
  {
    InputIdsGrow(db, db', batch);
  }

  lemma CountsAreStable(db: Db, db': Db, batch: Uuid)
    requires Grows(db, db') && Known(db, batch) && UniqueInputs(db.inputs) && UniqueInputs(db'.inputs)
    ensures CountInputs(db.inputs, batch) == CountInputs(db'.inputs, batch)
  {
    InputIdsGrow(db, db', batch);
    CountInputsIsCardinality(db.inputs, batch);
    CountInputsIsCardinality(db'.inputs, batch);
  }

  lemma TruthIsStable(db: Db, db': Db, row: BatchRow)
    requires Grows(db, db') && Known(db, row.batchId) && UniqueInputs(db.inputs) && UniqueInputs(db'.inputs)
    requires Truthful(db, row)
    ensures Truthful(db', row)
  {
    if row.status.COMPLETE? {
      CoverageIsStable(db, db', row.batchId);
      CountsAreStable(db, db', row.batchId);
      CountIfGrows(db.results, db'.results, row.batchId, Complete);
      CountIfGrows(db.results, db'.results, row.batchId, Failed);
    }
  }

  lemma ForInputsIsStable(db: Db, db': Db, results: seq<LLMResult>)
    requires Grows(db, db') && ForInputs(db.inputs, results)
    ensures ForInputs(db'.inputs, results)
  {
    forall i | 0 <= i < |results|
      ensures results[i].rowId in InputIds(db'.inputs, results[i].batchId)
    {
      InputIdsGrow(db, db', results[i].batchId);
    }
  }

  lemma OfInputsIsStable(db: Db, db': Db, page: seq<LLMInput>)
    requires Grows(db, db') && OfInputs(db.inputs, page)
    ensures OfInputs(db'.inputs, page)
  {
    forall i | 0 <= i < |page|
      ensures page[i].rowId in InputIds(db'.inputs, page[i].batchId)
    {
      InputIdsGrow(db, db', page[i].batchId);
    }
  }

  lemma WorkerStaysSafe(db: Db, db': Db, worker: Worker)
    requires Grows(db, db') && UniqueInputs(db.inputs) && UniqueInputs(db'.inputs) && WorkerSafe(db, worker)
    ensures WorkerSafe(db', worker)
  {
    if !worker.Polling? {
      forall i | 0 <= i < |worker.queue|
        ensures Known(db', worker.queue[i])
      {
        InputIdsGrow(db, db', worker.queue[i]);
      }
    }
    if worker.Streaming? || worker.Sending? {
      ForInputsIsStable(db, db', worker.pending);
      OfInputsIsStable(db, db', worker.page);
    }
    if !worker.Polling? && !worker.Serving? {
      InputIdsGrow(db, db', worker.batch);
    }
    if worker.Counting? || worker.Marking? {
      CoverageIsStable(db, db', worker.batch);
    }
    if worker.Marking? {
      TruthIsStable(db, db', BatchRow(worker.batch, COMPLETE, worker.total, worker.completed, worker.failed));
    }
  }

  lemma AnswerHasRow(rows: seq<LLMInput>, results: seq<LLMResult>, i: nat) returns (j: nat)
    requires AnswersPart(rows, results) && i < |results|
    ensures j < |rows| && rows[j].batchId == results[i].batchId && rows[j].rowId == results[i].rowId
  {
    assert ResultKeys(results)[i] in multiset(ResultKeys(results));
    assert ResultKeys(results)[i] in multiset(InputKeys(rows));
    j :| 0 <= j < |rows| && InputKeys(rows)[j] == ResultKeys(results)[i];
  }

  lemma PageIsOfInputs(cfg: Settings, db: Db, batch: Uuid)
    requires UniqueInputs(db.inputs)
    ensures OfInputs(db.inputs, GetBatchRows(db, batch, cfg.pageSize))
  {
    var page := GetBatchRows(db, batch, cfg.pageSize);
    PageIsNextRows(db, batch, cfg.pageSize);
    forall i | 0 <= i < |page|
      ensures page[i].rowId in InputIds(db.inputs, page[i].batchId)
    {
      assert page[i] in page;
    }
  }

  lemma CollectedIsForInputs(inputs: seq<LLMInput>, page: seq<LLMInput>, taken: seq<LLMResult>, result: LLMResult)
    requires OfInputs(inputs, page) && AnswersPart(page, taken + [result])
    ensures ForInputs(inputs, [result])
  {
    var j := AnswerHasRow(page, taken + [result], |taken|);
    assert page[j].rowId in InputIds(inputs, page[j].batchId);
  }

  lemma EmptyPageMeansCovered(cfg: Settings, db: Db, batch: Uuid)
    requires cfg.pageSize >= 1 && UniqueInputs(db.inputs) && GetBatchRows(db, batch, cfg.pageSize) == []
    ensures Covered(db, batch)
  {
    PageIsNextRows(db, batch, cfg.pageSize);
    assert Missing(db, batch) == {};
    forall id | id in InputIds(db.inputs, batch)
      ensures id in ResultIds(db.results, batch)
    {
      assert id !in Missing(db, batch);
    }
  }

  lemma {:induction false} InsertIdAdds(id: Uuid, ids: seq<Uuid>)
    ensures forall other :: other in InsertId(id, ids) <==> other == id || other in ids
  {
    if ids != [] && id > ids[0] {
      InsertIdAdds(id, ids[1..]);
      assert ids == [ids[0]] + ids[1..];
    }
  }

  // The list holds the batches that have a `pending` row and no `complete` one.
  lemma {:induction false} PendingIsExact(batches: seq<BatchRow>, n: nat)
    requires n <= |batches|
    ensures forall id :: id in PendingAmong(batches, n) <==>
      && (exists i :: 0 <= i < n && batches[i].batchId == id)
      && (exists i :: 0 <= i < |batches| && batches[i].batchId == id && batches[i].status.PENDING?)
      && (forall i :: 0 <= i < |batches| && batches[i].batchId == id ==> !batches[i].status.COMPLETE?)
  {
    if n > 0 {
      PendingIsExact(batches, n - 1);
      InsertIdAdds(batches[n - 1].batchId, PendingAmong(batches, n - 1));
      IsPendingMeans(batches, batches[n - 1].batchId);
      hide IsPending;
    }
  }

  lemma IsPendingMeans(batches: seq<BatchRow>, id: Uuid)
    ensures IsPending(batches, id) <==>
      && (exists i :: 0 <= i < |batches| && batches[i].batchId == id && batches[i].status.PENDING?)
      && (forall i :: 0 <= i < |batches| && batches[i].batchId == id ==> !batches[i].status.COMPLETE?)
  {
  }

  lemma PolledAreKnown(db: Db, limit: nat)
    ensures forall i :: 0 <= i < |GetPendingBatches(db, limit)| ==> Known(db, GetPendingBatches(db, limit)[i])
  {
    PendingIsExact(db.batches, |db.batches|);
    forall i | 0 <= i < |GetPendingBatches(db, limit)|
      ensures Known(db, GetPendingBatches(db, limit)[i])
    {
      assert GetPendingBatches(db, limit)[i] in AllPending(db);
    }
  }

  lemma ForInputsJoin(inputs: seq<LLMInput>, a: seq<LLMResult>, b: seq<LLMResult>)
    requires ForInputs(inputs, a) && ForInputs(inputs, b)
    ensures ForInputs(inputs, a + b)
  {
  }

  // A worker's own step leaves it in a safe place, judged on the tables it saw.
  lemma StepIsSafe(cfg: Settings, db: Db, worker: Worker, e: Event)
    requires cfg.pageSize >= 1 && DbSafe(db) && WorkerSafe(db, worker) && e.ByWorker() && WorkerCan(cfg, db, worker, e)
    ensures WorkerSafe(db, StepWorker(cfg, db, worker, e))
  {
    hide Covered, CountInputs, CountIf, GetPendingBatches, GetBatchRows, UniqueInputs, AnswersPage, AnswersPart, Known;
    hide OfInputs;
    match e
    case Poll(_) => PolledAreKnown(db, cfg.batchLimit);
    case QueryPage(_) =>
      if GetBatchRows(db, worker.batch, cfg.pageSize) == [] {
        EmptyPageMeansCovered(cfg, db, worker.batch);
      } else {
        PageIsOfInputs(cfg, db, worker.batch);
      }
    case Collect(_, result) =>
      CollectedIsForInputs(db.inputs, worker.page, worker.taken, result);
      ForInputsJoin(db.inputs, worker.pending, [result]);
    case CountRows(_) => CountsOfCovered(db, worker.batch);
    case _ =>
  }

  lemma StepGrows(cfg: Settings, s: System, e: Event)
    requires DbSafe(s.db) && Can(cfg, s, e)
    requires e.ByWorker() ==> WorkerSafe(s.db, s.workers[e.w])
    ensures Grows(s.db, Step(cfg, s, e).db)
    ensures UniqueInputs(Step(cfg, s, e).db.inputs)
    ensures ForInputs(Step(cfg, s, e).db.inputs, Step(cfg, s, e).db.results)
  {
    var db, db' := s.db, Step(cfg, s, e).db;
    if e.SendChunk? {
      ForInputsJoin(db.inputs, db.results, s.workers[e.w].pending);
    } else if e.AddInput? {
      assert Grows(db, db');
      ForInputsIsStable(db, db', db.results);
      forall i | 0 <= i < |db.inputs|
        ensures db.inputs[i].batchId != e.input.batchId || db.inputs[i].rowId != e.input.rowId
      {
        if db.inputs[i].batchId == e.input.batchId {
          assert db.inputs[i].rowId in InputIds(db.inputs, e.input.batchId);
        }
      }
    }
  }

  lemma StepKeepsDbSafe(cfg: Settings, s: System, e: Event)
    requires Safe(s) && Can(cfg, s, e)
    ensures DbSafe(Step(cfg, s, e).db)
  {
    hide Covered, CountInputs, CountIf, InputIds, ForInputs, UniqueInputs, StepWorker, GetBatchRows, AnswersPage;
    var db, db' := s.db, Step(cfg, s, e).db;
    StepGrows(cfg, s, e);
    forall i | 0 <= i < |db'.batches|
      ensures Truthful(db', db'.batches[i])
    {
      if i < |db.batches| {
        assert db'.batches[i] == db.batches[i];
        TruthIsStable(db, db', db.batches[i]);
      } else if e.MarkComplete? {
        TruthIsStable(db, db', db'.batches[i]);
      }
    }
  }

  lemma SafeKept(cfg: Settings, s: System, e: Event)
    requires cfg.pageSize >= 1 && Safe(s) && Can(cfg, s, e)
    ensures Safe(Step(cfg, s, e))
  {
    StepGrows(cfg, s, e);
    StepKeepsDbSafe(cfg, s, e);
    hide Covered, DbSafe, WorkerSafe, StepWorker, StepDb, WorkerCan;
    var s' := Step(cfg, s, e);
    assert UniqueInputs(s.db.inputs) && UniqueInputs(s'.db.inputs) by { DbSafeIsUnique(s.db); DbSafeIsUnique(s'.db); }
    forall w | 0 <= w < |s.workers|
      ensures WorkerSafe(s'.db, s'.workers[w])
    {
      if e.ByWorker() && w == e.w {
        StepIsSafe(cfg, s.db, s.workers[w], e);
      }
      WorkerStaysSafe(s.db, s'.db, s'.workers[w]);
    }
  }

  lemma DbSafeIsUnique(db: Db)
    requires DbSafe(db)
    ensures UniqueInputs(db.inputs)
  {
  }

  lemma {:induction false} RunIsSafe(cfg: Settings, workers: nat, run: seq<System>, events: seq<Event>, k: nat)
    requires cfg.pageSize >= 1 && IsRun(cfg, workers, run, events) && k < |run|
    ensures Safe(run[k])
  {
    hide DbSafe, WorkerSafe, Can, Step;
    if k == 0 {
      StartIsSafe(workers);
    } else {
      RunIsSafe(cfg, workers, run, events, k - 1);
      SafeKept(cfg, run[k - 1], events[k - 1]);
    }
  }

  lemma StartIsSafe(workers: nat)
    ensures Safe(Start(workers))
  {
  }

  // Run safety: whatever the workers, the crashes and the failed writes, a batch marked
  // complete has a result for every input row; its total is the number of the batch's inputs,
  // its counts add up to it at least, and each is at most the number of the batch's results
  // with that status; and every result row is for an input row.
  lemma RunSafety(cfg: Settings, workers: nat, run: seq<System>, events: seq<Event>, k: nat)
    requires cfg.pageSize >= 1 && IsRun(cfg, workers, run, events) && k < |run|
    ensures forall i :: 0 <= i < |run[k].db.batches| && run[k].db.batches[i].status.COMPLETE? ==>
      Claims(run[k].db, run[k].db.batches[i])
    ensures ForInputs(run[k].db.inputs, run[k].db.results)
  {
    RunIsSafe(cfg, workers, run, events, k);
    forall i | 0 <= i < |run[k].db.batches| && run[k].db.batches[i].status.COMPLETE?
      ensures Claims(run[k].db, run[k].db.batches[i])
    {
      assert Truthful(run[k].db, run[k].db.batches[i]);
      TruthfulClaims(run[k].db, run[k].db.batches[i]);
    }
  }

  // What a `complete` row claims, on the rows of the tables.
  ghost predicate Claims(db: Db, row: BatchRow) {
    && Covered(db, row.batchId)
    && row.total == |(set i: nat | i < |db.inputs| && db.inputs[i].batchId == row.batchId)|
    && row.completed + row.failed >= row.total
    && row.completed <= |(set i: nat |
          i < |db.results| && db.results[i].batchId == row.batchId && db.results[i].status.Complete?)|
    && row.failed <= |(set i: nat |
          i < |db.results| && db.results[i].batchId == row.batchId && db.results[i].status.Failed?)|
  }

  lemma TruthfulClaims(db: Db, row: BatchRow)
    requires Truthful(db, row) && row.status.COMPLETE?
    ensures Claims(db, row)
  {
    hide Covered;
    CountInputsCounts(db.inputs, row.batchId);
    SetsOfRows(db, row.batchId);
    CountIfCounts(db.results, row.batchId, Complete);
    CountIfCounts(db.results, row.batchId, Failed);
  }

  // A status row gives the batch's inputs, its completed results and its failed ones, as they
  // are in the tables.
  ghost predicate Reports(db: Db, row: BatchRow) {
    && row.total == |(set i: nat | i < |db.inputs| && db.inputs[i].batchId == row.batchId)|
    && row.completed == |(set i: nat |
          i < |db.results| && db.results[i].batchId == row.batchId && db.results[i].status.Complete?)|
    && row.failed == |(set i: nat |
          i < |db.results| && db.results[i].batchId == row.batchId && db.results[i].status.Failed?)|
  }

  lemma CountedReports(db: Db, row: BatchRow)
    requires row.total == CountInputs(db.inputs, row.batchId)
    requires row.completed == CountIf(db.results, row.batchId, Complete)
    requires row.failed == CountIf(db.results, row.batchId, Failed)
    ensures Reports(db, row)
  {
    CountInputsCounts(db.inputs, row.batchId);
    SetsOfRows(db, row.batchId);
    CountIfCounts(db.results, row.batchId, Complete);
    CountIfCounts(db.results, row.batchId, Failed);
  }

  lemma SetsOfRows(db: Db, batch: Uuid)
    ensures InputsOf(db.inputs, batch) == set i: nat | i < |db.inputs| && db.inputs[i].batchId == batch
    ensures ResultsOf(db.results, batch, Complete)
         == set i: nat | i < |db.results| && db.results[i].batchId == batch && db.results[i].status.Complete?
    ensures ResultsOf(db.results, batch, Failed)
         == set i: nat | i < |db.results| && db.results[i].batchId == batch && db.results[i].status.Failed?
  {
  }

  // ---- Giving up on a status row ----

  // How many status writes of a worker have failed since it last did anything else.
  function MarkFailures(events: seq<Event>, w: nat): nat {
    if events == [] then 0
    else
      var before, e := events[..|events| - 1], events[|events| - 1];
      if !e.ByWorker() || e.w != w then MarkFailures(before, w)
      else if e.MarkComplete? && !e.outcome.Acknowledged? then MarkFailures(before, w) + 1
      else 0
  }

  // A status row is sent until it is written or three writes of it have failed, and then the
  // worker is back at polling.
  lemma {:induction false} MarkingGivesUpAfterThree(
    cfg: Settings, workers: nat, run: seq<System>, events: seq<Event>, k: nat, w: nat)
    requires IsRun(cfg, workers, run, events) && k < |run| && w < workers
    ensures |run[k].workers| == workers
    ensures
      var failures, worker := MarkFailures(events[..k], w), run[k].workers[w];
      && failures <= 3
      && (failures == 3 ==> worker.Polling?)
      && (failures in {1, 2} ==> worker.Marking?)
      && (worker.Marking? ==> failures == worker.attempt - 1)
  {
    if k > 0 {
      MarkingGivesUpAfterThree(cfg, workers, run, events, k - 1, w);
      assert events[..k][..k - 1] == events[..k - 1] && events[..k][k - 1] == events[k - 1];
      hide GetBatchRows, GetPendingBatches, CountInputs, CountIf, StepDb, AnswersPage, AnswersPart;
    }
  }

  // ---- One worker, clean failures: the counts are exact ----

  // A result write that reports failure has landed nothing.
  ghost predicate Clean(events: seq<Event>) {
    forall k :: 0 <= k < |events| && events[k].SendChunk? ==> !events[k].outcome.Ambiguous?
  }

  function Unsent(worker: Worker): seq<LLMResult> {
    if worker.Streaming? || worker.Sending? then worker.pending else []
  }

  // What is pending has been taken, and so has every row of the page that has a result.
  ghost predicate PageOnce(db: Db, batch: Uuid, page: seq<LLMInput>, taken: seq<LLMResult>, pending: seq<LLMResult>) {
    && UniqueInputs(page)
    && (forall i :: 0 <= i < |page| ==> page[i].batchId == batch)
    && ResultIds(pending, batch) <= ResultIds(taken, batch)
    && (forall i :: 0 <= i < |pending| ==> pending[i].batchId == batch)
    && InputIds(page, batch) * ResultIds(db.results, batch) <= ResultIds(taken, batch)
  }

  // No row has two results, counting those the worker still holds.
  ghost predicate Once(db: Db, worker: Worker) {
    && UniqueResults(db.results + Unsent(worker))
    && (worker.Streaming? || worker.Sending? ==> PageOnce(db, worker.batch, worker.page, worker.taken, worker.pending))
  }

  // The counts are those of the tables, and add up.
  ghost predicate Exact(db: Db, batch: Uuid, total: nat, completed: nat, failed: nat) {
    && completed + failed == total
    && completed == CountIf(db.results, batch, Complete)
    && failed == CountIf(db.results, batch, Failed)
  }

  // A batch with rows under way has not been marked complete.
  ghost predicate AloneSafe(s: System) {
    && |s.workers| == 1
    && Once(s.db, s.workers[0])
    && (forall i :: 0 <= i < |s.db.batches| && s.db.batches[i].status.COMPLETE? ==>
          var row := s.db.batches[i]; Exact(s.db, row.batchId, row.total, row.completed, row.failed))
    && (var worker := s.workers[0];
        && (worker.Marking? ==> Exact(s.db, worker.batch, worker.total, worker.completed, worker.failed))
        && (worker.Streaming? || worker.Sending? ==> !HasStatus(s.db.batches, worker.batch, COMPLETE)))
  }

  lemma PageBeginsOnce(cfg: Settings, db: Db, batch: Uuid)
    requires UniqueInputs(db.inputs)
    ensures PageOnce(db, batch, GetBatchRows(db, batch, cfg.pageSize), [], [])
  {
    var page := GetBatchRows(db, batch, cfg.pageSize);
    PageIsNextRows(db, batch, cfg.pageSize);
    forall id | id in InputIds(page, batch)
      ensures id !in ResultIds(db.results, batch)
    {
      var i :| 0 <= i < |page| && page[i].batchId == batch && page[i].rowId == id;
      assert page[i] in page;
    }
  }

  // A row of the page is taken once only.
  lemma TakenOnce(page: seq<LLMInput>, batch: Uuid, taken: seq<LLMResult>, result: LLMResult)
    requires UniqueInputs(page) && (forall i :: 0 <= i < |page| ==> page[i].batchId == batch)
    requires AnswersPart(page, taken + [result])
    ensures result.batchId == batch && result.rowId in InputIds(page, batch) && result.rowId !in ResultIds(taken, batch)
  {
    var j := AnswerHasRow(page, taken + [result], |taken|);
    var keys, key := InputKeys(page), (result.batchId, result.rowId);
    CountAtMostOne(keys, key);
    assert ResultKeys(taken + [result]) == ResultKeys(taken) + [key];
    if result.rowId in ResultIds(taken, batch) {
      TakenKey(taken, batch, result.rowId);
    }
  }

  lemma TakenKey(taken: seq<LLMResult>, batch: Uuid, id: Uuid)
    requires id in ResultIds(taken, batch)
    ensures (batch, id) in multiset(ResultKeys(taken))
  {
    var i :| 0 <= i < |taken| && taken[i].batchId == batch && taken[i].rowId == id;
    assert ResultKeys(taken)[i] == (batch, id);
  }

  lemma CollectKeepsOnce(
    db: Db, batch: Uuid, page: seq<LLMInput>, taken: seq<LLMResult>, pending: seq<LLMResult>, result: LLMResult)
    requires UniqueResults(db.results + pending) && PageOnce(db, batch, page, taken, pending)
    requires AnswersPart(page, taken + [result])
    ensures UniqueResults(db.results + (pending + [result]))
    ensures PageOnce(db, batch, page, taken + [result], pending + [result])
  {
    TakenOnce(page, batch, taken, result);
    hide AnswersPart;
    ResultIdsJoin(taken, [result], batch);
    ResultIdsJoin(pending, [result], batch);
    ResultIdsJoin(db.results, pending, batch);
    OneResultId(result);
    hide ResultIds, InputIds;
    UniqueJoin(db.results + pending, [result]);
    assert db.results + pending + [result] == db.results + (pending + [result]);
  }

  lemma OneResultId(result: LLMResult)
    ensures ResultIds([result], result.batchId) == {result.rowId}
    ensures UniqueResults([result])
  {
    assert [result][0] == result;
  }

  lemma SendKeepsOnce(db: Db, batch: Uuid, page: seq<LLMInput>, taken: seq<LLMResult>, pending: seq<LLMResult>)
    requires PageOnce(db, batch, page, taken, pending)
    ensures PageOnce(db.(results := db.results + pending), batch, page, taken, [])
  {
    ResultIdsJoin(db.results, pending, batch);
  }

  lemma {:induction false} CountAtMostOne<T>(items: seq<T>, item: T)
    requires forall i, j :: 0 <= i < j < |items| ==> items[i] != items[j]
    ensures multiset(items)[item] <= 1
  {
    if items != [] {
      CountAtMostOne(items[1..], item);
      assert items == [items[0]] + items[1..];
      forall j | 0 <= j < |items[1..]|
        ensures items[1..][j] != items[0]
      {
        assert items[1..][j] == items[j + 1];
      }
      assert multiset(items)[item] == multiset(items[1..])[item] + if items[0] == item then 1 else 0;
    }
  }

  lemma UniqueJoin(a: seq<LLMResult>, b: seq<LLMResult>)
    requires UniqueResults(a) && UniqueResults(b)
    requires forall i :: 0 <= i < |b| ==> b[i].rowId !in ResultIds(a, b[i].batchId)
    ensures UniqueResults(a + b)
  {
    forall i, j | 0 <= i < |a| && 0 <= j < |b|
      ensures a[i].batchId != b[j].batchId || a[i].rowId != b[j].rowId
    {
      if a[i].batchId == b[j].batchId {
        assert a[i].rowId in ResultIds(a, b[j].batchId);
      }
    }
  }

  lemma UniquePrefix(a: seq<LLMResult>, b: seq<LLMResult>)
    requires UniqueResults(a + b)
    ensures UniqueResults(a)
  {
    assert forall i :: 0 <= i < |a| ==> (a + b)[i] == a[i];
  }

  lemma OnceKept(cfg: Settings, db: Db, worker: Worker, e: Event)
    requires UniqueInputs(db.inputs) && Once(db, worker) && e.ByWorker() && WorkerCan(cfg, db, worker, e)
    requires e.SendChunk? ==> !e.outcome.Ambiguous?
    ensures Once(StepDb(cfg, db, worker, e), StepWorker(cfg, db, worker, e))
  {
    hide UniqueResults, UniqueInputs, GetBatchRows, GetPendingBatches, CountInputs, CountIf;
    hide AnswersPage, AnswersPart, PageOnce;
    UniquePrefix(db.results, Unsent(worker));
    assert db.results + [] == db.results;
    match e
    case QueryPage(_) => PageBeginsOnce(cfg, db, worker.batch);
    case Collect(_, result) => CollectKeepsOnce(db, worker.batch, worker.page, worker.taken, worker.pending, result);
    case SendChunk(_, outcome) =>
      SendKeepsOnce(db, worker.batch, worker.page, worker.taken, worker.pending);
      assert db.results + worker.pending + [] == db.results + worker.pending;
    case _ =>
  }

  lemma CountIsExact(cfg: Settings, db: Db, worker: Worker)
    requires DbSafe(db) && WorkerSafe(db, worker) && Once(db, worker) && worker.Counting?
    ensures CountIf(db.results, worker.batch, Complete) + CountIf(db.results, worker.batch, Failed)
         == CountInputs(db.inputs, worker.batch)
  {
    assert db.results + [] == db.results;
    forall id | id in ResultIds(db.results, worker.batch)
      ensures id in InputIds(db.inputs, worker.batch)
    {
      var i :| 0 <= i < |db.results| && db.results[i].batchId == worker.batch && db.results[i].rowId == id;
    }
    CountsOfCovered(db, worker.batch);
  }

  lemma OpenBatchIsNotComplete(cfg: Settings, db: Db, batch: Uuid)
    requires DbSafe(db) && GetBatchRows(db, batch, cfg.pageSize) != []
    ensures !HasStatus(db.batches, batch, COMPLETE)
  {
    PageIsNextRows(db, batch, cfg.pageSize);
  }

  lemma OthersStayExact(db: Db, pending: seq<LLMResult>, batch: Uuid, row: BatchRow)
    requires Exact(db, row.batchId, row.total, row.completed, row.failed) && row.batchId != batch
    requires forall i :: 0 <= i < |pending| ==> pending[i].batchId == batch
    ensures Exact(db.(results := db.results + pending), row.batchId, row.total, row.completed, row.failed)
  {
    CountIfJoin(db.results, pending, row.batchId, Complete);
    CountIfJoin(db.results, pending, row.batchId, Failed);
    CountIfOfOthers(pending, row.batchId, Complete);
    CountIfOfOthers(pending, row.batchId, Failed);
  }

  lemma CompleteRowsStayExact(cfg: Settings, s: System, e: Event)
    requires Safe(s) && AloneSafe(s) && Can(cfg, s, e) && !(e.SendChunk? && e.outcome.Ambiguous?)
    ensures
      var db' := Step(cfg, s, e).db;
      forall i :: 0 <= i < |db'.batches| && db'.batches[i].status.COMPLETE? ==>
        var row := db'.batches[i]; Exact(db', row.batchId, row.total, row.completed, row.failed)
  {
    hide UniqueResults, CountInputs, GetBatchRows, GetPendingBatches, AnswersPage, AnswersPart, Safe, StepWorker;
    var db, db' := s.db, Step(cfg, s, e).db;
    forall i | 0 <= i < |db'.batches| && db'.batches[i].status.COMPLETE?
      ensures var row := db'.batches[i]; Exact(db', row.batchId, row.total, row.completed, row.failed)
    {
      if i < |db.batches| {
        var row := db.batches[i];
        assert db'.batches[i] == row;
        if e.SendChunk? && e.outcome.Acknowledged? {
          var worker := s.workers[0];
          assert row.batchId != worker.batch;
          assert PageOnce(db, worker.batch, worker.page, worker.taken, worker.pending);
          OthersStayExact(db, worker.pending, worker.batch, row);
        }
      }
    }
  }

  lemma AloneWorkerStaysExact(cfg: Settings, s: System, e: Event)
    requires Safe(s) && AloneSafe(s) && Can(cfg, s, e) && !(e.SendChunk? && e.outcome.Ambiguous?)
    ensures
      var s' := Step(cfg, s, e);
      var worker' := s'.workers[0];
      && (worker'.Marking? ==> Exact(s'.db, worker'.batch, worker'.total, worker'.completed, worker'.failed))
      && (worker'.Streaming? || worker'.Sending? ==> !HasStatus(s'.db.batches, worker'.batch, COMPLETE))
  {
    hide Once, CountInputs, GetPendingBatches, AnswersPage, AnswersPart;
    if e.QueryPage? {
      if GetBatchRows(s.db, s.workers[0].batch, cfg.pageSize) != [] {
        OpenBatchIsNotComplete(cfg, s.db, s.workers[0].batch);
      }
    } else if e.CountRows? {
      CountIsExact(cfg, s.db, s.workers[0]);
    }
  }

  lemma AloneSafeKept(cfg: Settings, s: System, e: Event)
    requires Safe(s) && AloneSafe(s) && Can(cfg, s, e)
    requires !(e.SendChunk? && e.outcome.Ambiguous?)
    ensures AloneSafe(Step(cfg, s, e))
  {
    CompleteRowsStayExact(cfg, s, e);
    AloneWorkerStaysExact(cfg, s, e);
    hide UniqueResults, CountIf, CountInputs, GetBatchRows, GetPendingBatches, AnswersPage, Exact, HasStatus, PageOnce;
    if e.ByWorker() {
      OnceKept(cfg, s.db, s.workers[0], e);
    }
  }

  lemma {:induction false} AloneRunIsSafe(cfg: Settings, run: seq<System>, events: seq<Event>, k: nat)
    requires cfg.pageSize >= 1 && IsRun(cfg, 1, run, events) && Clean(events) && k < |run|
    ensures AloneSafe(run[k])
  {
    hide AloneSafe, Safe, Can, Step;
    if k == 0 {
      AloneStart();
    } else {
      AloneRunIsSafe(cfg, run, events, k - 1);
      RunIsSafe(cfg, 1, run, events, k - 1);
      AloneSafeKept(cfg, run[k - 1], events[k - 1]);
    }
  }

  lemma AloneStart()
    ensures AloneSafe(Start(1))
  {
  }

  // With one worker and result writes that never land and report failure, a `complete` row's
  // counts are, through any number of crashes and retries, the numbers of the batch's results
  // with each status, and add up to its inputs.
  lemma ExactCounts(cfg: Settings, run: seq<System>, events: seq<Event>, k: nat, i: nat)
    requires cfg.pageSize >= 1 && IsRun(cfg, 1, run, events) && Clean(events) && k < |run|
    requires i < |run[k].db.batches| && run[k].db.batches[i].status.COMPLETE?
    ensures Reports(run[k].db, run[k].db.batches[i])
    ensures var row := run[k].db.batches[i]; row.completed + row.failed == row.total
  {
    AloneRunIsSafe(cfg, run, events, k);
    var db, row := run[k].db, run[k].db.batches[i];
    assert Exact(db, row.batchId, row.total, row.completed, row.failed);
    RunIsSafe(cfg, 1, run, events, k);
    assert Truthful(db, row);
    CountedReports(db, row);
  }
}
