// LLMWorkerService (src/llm_worker/main.py): the page loop of one batch and the poll loop.
module Service {
  import opened Json
  import opened Rows
  import opened Tables
  import opened PoolProgress
  import opened Publish
  import Pool
  import PoolTheorems
  import Provenance
  import Protocol
  import Executor
  import Store

  // How many pages of at most `size` it takes to work off `count` rows.
  function Pages(count: nat, size: nat): nat
    requires size >= 1
  {
    if count == 0 then 0 else 1 + Pages(if count <= size then 0 else count - size, size)
  }

  // It is the least such number.
  lemma {:induction false} PagesIsCeiling(count: nat, size: nat)
    requires size >= 1
    ensures Pages(count, size) * size >= count
    ensures count > 0 ==> (Pages(count, size) - 1) * size < count
  {
    if count > size {
      PagesIsCeiling(count - size, size);
      var rest := Pages(count - size, size);
      assert (rest + 1) * size == rest * size + size;
      assert rest * size == (rest - 1) * size + size;
    }
  }

  // Writing the answers of a page takes exactly that page off the missing rows.
  lemma PageIsWorkedOff(db: Db, db': Db, batch: Uuid, limit: nat, stream: seq<LLMResult>)
    requires UniqueInputs(db.inputs) && db'.inputs == db.inputs
    requires AnswersPage(GetBatchRows(db, batch, limit), stream)
    requires Store.AllLanded(db.results, db'.results, stream)
    ensures Missing(db', batch) == Missing(db, batch) - InputIds(GetBatchRows(db, batch, limit), batch)
    ensures |Missing(db', batch)| == if |Missing(db, batch)| <= limit then 0 else |Missing(db, batch)| - limit
  {
    var page := GetBatchRows(db, batch, limit);
    PageIsNextRows(db, batch, limit);
    Store.AllLandedIds(db.results, db'.results, stream, batch);
    StreamIds(page, stream, batch);
    var ids := InputIds(page, batch);
    PageIds(page, batch);
    assert ids <= Missing(db, batch);
    assert Missing(db', batch) == Missing(db, batch) - ids;
    assert Missing(db, batch) == Missing(db', batch) + ids;
  }

  lemma PageIds(page: seq<LLMInput>, batch: Uuid)
    requires UniqueInputs(page) && forall row :: row in page ==> row.batchId == batch
    ensures |InputIds(page, batch)| == |page|
  {
    AllOfBatch(page, batch);
    CountInputsIsCardinality(page, batch);
  }

  lemma {:induction false} AllOfBatch(page: seq<LLMInput>, batch: Uuid)
    requires forall row :: row in page ==> row.batchId == batch
    ensures CountInputs(page, batch) == |page|
  {
    if page != [] {
      AllOfBatch(page[1..], batch);
    }
  }

  lemma StreamIds(page: seq<LLMInput>, stream: seq<LLMResult>, batch: Uuid)
    requires AnswersPage(page, stream)
    ensures ResultIds(stream, batch) == InputIds(page, batch)
  {
    forall id | id in ResultIds(stream, batch)
      ensures id in InputIds(page, batch)
    {
      var i: nat :| i < |stream| && stream[i].batchId == batch && stream[i].rowId == id;
      var j := Protocol.AnswerHasRow(page, stream, i);
    }
    forall id | id in InputIds(page, batch)
      ensures id in ResultIds(stream, batch)
    {
      var j: nat :| j < |page| && page[j].batchId == batch && page[j].rowId == id;
      assert InputKeys(page)[j] in multiset(InputKeys(page));
      assert InputKeys(page)[j] in multiset(ResultKeys(stream));
      var i :| 0 <= i < |stream| && ResultKeys(stream)[i] == InputKeys(page)[j];
      assert stream[i].batchId == batch && stream[i].rowId == id;
    }
  }

  // ---- The set of pending batches ----

  function PendingSet(db: Db): set<Uuid> {
    SetOf(AllPending(db))
  }

  predicate StrictlyAscending(ids: seq<Uuid>) {
    forall i, j :: 0 <= i < j < |ids| ==> ids[i] < ids[j]
  }

  lemma {:induction false} InsertIdAscends(id: Uuid, ids: seq<Uuid>)
    requires StrictlyAscending(ids)
    ensures StrictlyAscending(Tables.InsertId(id, ids))
  {
    if ids != [] && id > ids[0] {
      InsertIdAscends(id, ids[1..]);
      Protocol.InsertIdAdds(id, ids[1..]);
      var tail := Tables.InsertId(id, ids[1..]);
      forall j | 0 <= j < |tail|
        ensures ids[0] < tail[j]
      {
        assert tail[j] == id || tail[j] in ids[1..];
      }
    }
  }

  lemma {:induction false} PendingAscends(batches: seq<BatchRow>, n: nat)
    requires n <= |batches|
    ensures StrictlyAscending(PendingAmong(batches, n))
  {
    if n > 0 {
      PendingAscends(batches, n - 1);
      InsertIdAscends(batches[n - 1].batchId, PendingAmong(batches, n - 1));
    }
  }

  lemma PendingSetIsExact(db: Db, id: Uuid)
    ensures id in PendingSet(db) <==> IsPending(db.batches, id)
  {
    Protocol.PendingIsExact(db.batches, |db.batches|);
    Protocol.IsPendingMeans(db.batches, id);
  }

  // A poll gives the pending batches with the smallest ids, in order, as many as the limit
  // allows.
  lemma PollIsNextBatches(db: Db, limit: nat)
    ensures
      var ids := GetPendingBatches(db, limit);
      && (forall i, j :: 0 <= i < j < |ids| ==> ids[i] < ids[j])
      && (forall id :: id in ids ==> IsPending(db.batches, id))
      && |ids| <= limit
      && (forall id :: IsPending(db.batches, id) && id !in ids ==>
            |ids| == limit && forall other :: other in ids ==> other < id)
  {
    var all, ids := AllPending(db), GetPendingBatches(db, limit);
    PendingAscends(db.batches, |db.batches|);
    forall id
      ensures id in all <==> IsPending(db.batches, id)
    {
      PendingSetIsExact(db, id);
    }
    forall id | id in all && id !in ids
      ensures |ids| == limit && forall other :: other in ids ==> other < id
    {
      var k :| 0 <= k < |all| && all[k] == id;
    }
  }

  function SetOf(ids: seq<Uuid>): set<Uuid> {
    set id | id in ids
  }

  lemma SetOfAppend(ids: seq<Uuid>, id: Uuid)
    ensures SetOf(ids + [id]) == SetOf(ids) + {id}
  {
  }

  lemma LastIsNew(ids: seq<Uuid>)
    requires StrictlyAscending(ids) && ids != []
    ensures
      var last, rest := ids[|ids| - 1], ids[..|ids| - 1];
      StrictlyAscending(rest) && last !in SetOf(rest) && SetOf(ids) == SetOf(rest) + {last}
  {
    var last, rest := ids[|ids| - 1], ids[..|ids| - 1];
    SetOfAppend(rest, last);
    assert rest + [last] == ids;
    assert forall i :: 0 <= i < |rest| ==> rest[i] < last;
  }

  lemma {:induction false} DistinctCount(ids: seq<Uuid>)
    requires StrictlyAscending(ids)
    ensures |SetOf(ids)| == |ids|
  {
    if ids == [] {
      assert SetOf(ids) == {};
    } else {
      LastIsNew(ids);
      hide StrictlyAscending, SetOf;
      DistinctCount(ids[..|ids| - 1]);
    }
  }

  // Appending `complete` rows of one batch takes that batch, and no other, off the list.
  lemma MarkingRemoves(db: Db, db': Db, row: BatchRow, copies: nat)
    requires db'.batches == db.batches + seq(copies, _ => row) && copies >= 1 && row.status.COMPLETE?
    ensures PendingSet(db') == PendingSet(db) - {row.batchId}
  {
    assert db'.batches[|db.batches|] == row;
    assert db.batches <= db'.batches;
    forall id
      ensures IsPending(db'.batches, id) <==> IsPending(db.batches, id) && id != row.batchId
    {
      forall status | HasStatus(db.batches, id, status)
        ensures HasStatus(db'.batches, id, status)
      {
        var i :| 0 <= i < |db.batches| && db.batches[i].batchId == id && db.batches[i].status == status;
        assert db'.batches[i] == db.batches[i];
      }
      if id != row.batchId {
        forall status | HasStatus(db'.batches, id, status)
          ensures HasStatus(db.batches, id, status)
        {
          var i :| 0 <= i < |db'.batches| && db'.batches[i].batchId == id && db'.batches[i].status == status;
          assert i < |db.batches| && db.batches[i] == db'.batches[i];
        }
      }
    }
    forall id: Uuid
      ensures id in PendingSet(db') <==> id in PendingSet(db) - {row.batchId}
    {
      PendingSetIsExact(db, id);
      PendingSetIsExact(db', id);
    }
  }

  lemma MarkingOnlyRemoves(db: Db, db': Db, row: BatchRow, copies: nat)
    requires db'.batches == db.batches + seq(copies, _ => row) && (copies >= 1 ==> row.status.COMPLETE?)
    ensures PendingSet(db') <= PendingSet(db)
  {
    if copies == 0 {
      assert db'.batches == db.batches;
    } else {
      MarkingRemoves(db, db', row, copies);
    }
  }

  // What a drain has done so far: the started batches and the pending ones are the batches
  // pending at first, none twice.
  ghost predicate Drained(first: Db, now: Db, begun: seq<Uuid>) {
    && SetOf(begun) + PendingSet(now) == PendingSet(first)
    && SetOf(begun) !! PendingSet(now)
    && |begun| + |AllPending(now)| == |AllPending(first)|
  }

  lemma NoneBegun(db: Db)
    ensures Drained(db, db, [])
  {
    assert SetOf([]) == {};
  }

  lemma NoneTaken(ids: set<Uuid>)
    ensures ids - SetOf([]) == ids
  {
    assert SetOf([]) == {};
  }

  lemma AllDrained(first: Db, now: Db, begun: seq<Uuid>)
    requires Drained(first, now, begun) && AllPending(now) == []
    ensures |begun| == |AllPending(first)| && SetOf(begun) == PendingSet(first)
  {
  }

  lemma PolledSet(db: Db, limit: nat)
    ensures |SetOf(GetPendingBatches(db, limit))| == |GetPendingBatches(db, limit)|
    ensures SetOf(GetPendingBatches(db, limit)) <= PendingSet(db)
    ensures |PendingSet(db)| == |AllPending(db)|
  {
    PendingAscends(db.batches, |db.batches|);
    DistinctCount(AllPending(db));
    DistinctCount(GetPendingBatches(db, limit));
  }

  lemma TakeAway(all: set<Uuid>, some: set<Uuid>)
    requires some <= all
    ensures |all - some| == |all| - |some|
  {
  }

  // An error-free poll starts the first `limit` pending batches and takes them off the list.
  lemma OnePollDrains(first: Db, before: Db, after: Db, limit: nat, begun: seq<Uuid>)
    requires limit >= 1 && Drained(first, before, begun)
    requires PendingSet(after) == PendingSet(before) - SetOf(GetPendingBatches(before, limit))
    ensures Drained(first, after, begun + GetPendingBatches(before, limit))
    ensures |AllPending(after)| == if |AllPending(before)| <= limit then 0 else |AllPending(before)| - limit
  {
    PolledSet(before, limit);
    PolledSet(after, limit);
    SetOfJoin(begun, GetPendingBatches(before, limit));
    hide PendingSet, SetOf, AllPending;
    TakeAway(PendingSet(before), SetOf(GetPendingBatches(before, limit)));
  }

  lemma SetOfJoin(a: seq<Uuid>, b: seq<Uuid>)
    ensures SetOf(a + b) == SetOf(a) + SetOf(b)
  {
  }

  // ---- What a worker may add to the tables ----

  // Result rows that the backend, the parser or an abort can give some input row, and status
  // rows whose claims are true.
  ghost predicate Advances(cfg: Pool.Config, before: Db, after: Db) {
    && after.inputs == before.inputs
    && before.results <= after.results
    && before.batches <= after.batches
    && (forall i :: |before.results| <= i < |after.results| ==>
          Provenance.Genuine(cfg, after.inputs, after.results[i]))
    && (forall i :: |before.batches| <= i < |after.batches| ==>
          after.batches[i].status.COMPLETE? && Protocol.Truthful(after, after.batches[i]))
  }

  lemma AdvancesJoin(cfg: Pool.Config, a: Db, b: Db, c: Db)
    requires UniqueInputs(a.inputs) && Advances(cfg, a, b) && Advances(cfg, b, c)
    ensures Advances(cfg, a, c)
  {
    hide Provenance.Genuine, UniqueInputs;
    assert Protocol.Grows(b, c);
    forall i | |a.batches| <= i < |c.batches|
      ensures c.batches[i].status.COMPLETE? && Protocol.Truthful(c, c.batches[i])
    {
      if i < |b.batches| {
        assert c.batches[i] == b.batches[i];
        assert Protocol.Known(b, b.batches[i].batchId);
        Protocol.TruthIsStable(b, c, b.batches[i]);
      }
    }
  }

  // The rows of a page's results are genuine, however its pool was scheduled.
  lemma PageIsGenuine(
    cfg: Pool.Config, db: Db, batch: Uuid, limit: nat, run: seq<Pool.State>, schedule: seq<Pool.Label>,
    result: LLMResult)
    requires UniqueInputs(db.inputs)
    requires PoolTheorems.Consumed(cfg, GetBatchRows(db, batch, limit), run, schedule)
    requires result in PoolTheorems.Results(Pool.Last(run).emitted)
    ensures Provenance.Genuine(cfg, db.inputs, result) && result.batchId == batch
  {
    var page := GetBatchRows(db, batch, limit);
    PageIsNextRows(db, batch, limit);
    assert forall row :: 0 <= row < |page| ==> page[row] in page;
    hide UniqueInputs, GetBatchRows, Missing, PoolTheorems.Consumed, Provenance.Genuine, PoolTheorems.Results;
    Provenance.ConsumedIsGenuine(cfg, page, run, schedule, batch, result);
    Provenance.GenuineAmongMore(cfg, page, db.inputs, result);
  }

  lemma PageAdvances(
    cfg: Pool.Config, before: Db, after: Db, batch: Uuid, limit: nat, run: seq<Pool.State>, schedule: seq<Pool.Label>)
    requires UniqueInputs(before.inputs) && after.inputs == before.inputs && after.batches == before.batches
    requires PoolTheorems.Consumed(cfg, GetBatchRows(before, batch, limit), run, schedule)
    requires Store.Appended(before.results, after.results, PoolTheorems.Results(Pool.Last(run).emitted))
    ensures Advances(cfg, before, after) && before.results <= after.results
    ensures forall i :: |before.results| <= i < |after.results| ==> after.results[i].batchId == batch
  {
    hide UniqueInputs, GetBatchRows, PoolTheorems.Consumed, Provenance.Genuine;
    forall i | |before.results| <= i < |after.results|
      ensures Provenance.Genuine(cfg, before.inputs, after.results[i]) && after.results[i].batchId == batch
    {
      PageIsGenuine(cfg, before, batch, limit, run, schedule, after.results[i]);
    }
  }

  lemma NothingYet(cfg: Pool.Config, db: Db)
    ensures Advances(cfg, db, db)
  {
  }

  lemma MarkAdvances(cfg: Pool.Config, before: Db, after: Db, mark: BatchRow, copies: nat)
    requires after.inputs == before.inputs && after.results == before.results
    requires after.batches == before.batches + seq(copies, _ => mark)
    requires copies >= 1 ==> mark.status.COMPLETE? && Protocol.Truthful(after, mark)
    ensures Advances(cfg, before, after)
  {
  }

  // A backend that never aborts a batch leaves no row reported as aborted.
  lemma NoneAborted(cfg: Pool.Config, before: Db, after: Db, i: nat)
    requires Advances(cfg, before, after) && |before.results| <= i < |after.results|
    requires forall input, attempt, text ::
      input in before.inputs ==> !cfg.may(input, attempt, Pool.Failure(text, Pool.ABORT_BATCH))
    ensures !after.results[i].error.BatchAborted?
  {
    Provenance.NoneAborted(cfg, after.inputs, after.results[i]);
  }

  // ---- The worker ----

  // What the poll loop does, in order: looks at the stop flag, and starts a batch.
  datatype Note = Looked(stopping: bool) | Began(batch: Uuid)

  // Every batch is started right after a look that found the flag clear, and none after a
  // look that found it set.
  predicate Disciplined(notes: seq<Note>) {
    && (forall i :: 0 <= i < |notes| && notes[i].Began? ==> i > 0 && notes[i - 1] == Looked(false))
    && (forall i, j :: 0 <= i < j < |notes| && notes[i] == Looked(true) ==> !notes[j].Began?)
  }

  predicate SawStop(notes: seq<Note>) {
    Looked(true) in notes
  }

  function Begun(notes: seq<Note>): seq<Uuid> {
    if notes == [] then []
    else
      var before := Begun(notes[..|notes| - 1]);
      if notes[|notes| - 1].Began? then before + [notes[|notes| - 1].batch] else before
  }

  lemma NoteLook(notes: seq<Note>, stopping: bool)
    requires Disciplined(notes)
    ensures Disciplined(notes + [Looked(stopping)]) && Begun(notes + [Looked(stopping)]) == Begun(notes)
    ensures SawStop(notes + [Looked(stopping)]) ==> SawStop(notes) || stopping
  {
    assert (notes + [Looked(stopping)])[..|notes|] == notes;
  }

  lemma NoteStart(notes: seq<Note>, batch: Uuid)
    requires Disciplined(notes) && !SawStop(notes)
    ensures
      var longer := notes + [Looked(false)] + [Began(batch)];
      Disciplined(longer) && !SawStop(longer) && Begun(longer) == Begun(notes) + [batch]
  {
    var longer := notes + [Looked(false)] + [Began(batch)];
    NoteLook(notes, false);
    assert longer[..|notes| + 1] == notes + [Looked(false)];
  }

  lemma NoNotes()
    ensures Disciplined([]) && !SawStop([]) && Begun([]) == []
  {
  }

  class Worker {
    const ch: Store.ClickHouse
    const publisher: Publisher
    const pool: Pool.Config
    const batchLimit: nat
    const pageSize: nat
    const patient: bool  // a stop signal only arrives between two idle polls

    var shouldStop: bool
    var clock: real

    ghost predicate Valid()
      reads this, ch, publisher
    {
      && pool.Valid() && Responsive(pool)
      && batchLimit >= 1 && pageSize >= 1
      && UniqueInputs(ch.db.inputs)
      && publisher.Valid()
      && (publisher.calls != [] ==> publisher.calls[|publisher.calls| - 1].now <= clock)
    }

    constructor (ch: Store.ClickHouse, pool: Pool.Config, batchLimit: nat, pageSize: nat, patient: bool)
      requires pool.Valid() && Responsive(pool) && batchLimit >= 1 && pageSize >= 1 && UniqueInputs(ch.db.inputs)
      ensures Valid() && this.ch == ch && this.pool == pool && this.patient == patient && fresh(publisher)
      ensures this.batchLimit == batchLimit && this.pageSize == pageSize && !shouldStop
    {
      this.ch, this.pool, this.batchLimit, this.pageSize, this.patient := ch, pool, batchLimit, pageSize, patient;
      publisher := new Publisher();
      shouldStop, clock := false, 0.0;
    }

    // Time passes, and a signal may arrive.
    method Elapse()
      modifies this`clock, this`shouldStop
      ensures clock >= old(clock)
      ensures old(shouldStop) ==> shouldStop
      ensures patient ==> shouldStop == old(shouldStop)
    {
      var seconds: real := *;
      var signal: bool := *;
      clock := if seconds > 0.0 then clock + seconds else clock;
      shouldStop := shouldStop || (signal && !patient);
    }

    method MaybePublish()
      requires Valid()
      modifies this`clock, this`shouldStop, publisher
      ensures Valid()
      ensures |publisher.calls| == |old(publisher.calls)| + 1
      ensures publisher.calls[..|old(publisher.calls)|] == old(publisher.calls)
      ensures publisher.calls[|old(publisher.calls)|].stopping == shouldStop
      ensures publisher.calls[|old(publisher.calls)|].now == clock
      ensures patient ==> shouldStop == old(shouldStop)
      ensures old(shouldStop) ==> shouldStop
    {
      Elapse();
      var attempted := publisher.MaybePublish(clock, shouldStop);
    }

    // process_single_batch. `ok` is false when a ClickHouse error escapes.
    method ProcessSingleBatch(batch: Uuid) returns (ok: bool, ghost mark: BatchRow, ghost copies: nat)
      requires Valid()
      modifies this`clock, this`shouldStop, publisher, ch`db, ch`inserts, ch`pageReads
      ensures Valid() && ch.db.inputs == old(ch.db.inputs)
      ensures ch.db.batches == old(ch.db.batches) + seq(copies, _ => mark)
      ensures copies >= 1 ==> mark.batchId == batch && mark.status.COMPLETE? && Protocol.Reports(ch.db, mark)
      ensures copies >= 1 ==> Covered(ch.db, batch)
      ensures ok ==> copies >= 1
      ensures Advances(pool, old(ch.db), ch.db)
      ensures forall i :: |old(ch.db.results)| <= i < |ch.db.results| ==> ch.db.results[i].batchId == batch
      ensures |publisher.calls| >= |old(publisher.calls)|
      ensures ok ==> |publisher.calls| == |old(publisher.calls)| + Pages(|Missing(old(ch.db), batch)|, pageSize)
      ensures ok ==> ch.pageReads == old(ch.pageReads) + Pages(|Missing(old(ch.db), batch)|, pageSize) + 1
      ensures ch.reliable ==> ok
      ensures patient ==> shouldStop == old(shouldStop)
      ensures old(shouldStop) ==> shouldStop
    {
      hide UniqueInputs, Covered, GetBatchRows, Missing, Protocol.Truthful, Protocol.Reports, Responsive;
      hide ClockMoves, NextAt, Advances, PoolTheorems.Consumed, Store.Appended, Store.AllLanded;
      NothingYet(pool, ch.db);
      mark, copies := BatchRow(batch, COMPLETE, 0, 0, 0), 0;
      var more := true;
      while more
        invariant Valid() && ch.db.inputs == old(ch.db.inputs) && ch.db.batches == old(ch.db.batches)
        invariant patient ==> shouldStop == old(shouldStop)
        invariant old(shouldStop) ==> shouldStop
        invariant ch.pageReads + Pages(|Missing(ch.db, batch)|, pageSize) + (if more then 1 else 0)
               == old(ch.pageReads) + Pages(|Missing(old(ch.db), batch)|, pageSize) + 1
        invariant |publisher.calls| >= |old(publisher.calls)|
        invariant |publisher.calls| + Pages(|Missing(ch.db, batch)|, pageSize)
               == |old(publisher.calls)| + Pages(|Missing(old(ch.db), batch)|, pageSize)
        invariant !more ==> Covered(ch.db, batch) && |Missing(ch.db, batch)| == 0
        invariant Advances(pool, old(ch.db), ch.db) && old(ch.db.results) <= ch.db.results
        invariant forall i :: |old(ch.db.results)| <= i < |ch.db.results| ==> ch.db.results[i].batchId == batch
        decreases more, |Missing(ch.db, batch)|
      {
        var page := ch.ReadPage(batch, pageSize);
        if page.None? { ok := false; return; }
        PageIsNextRows(ch.db, batch, pageSize);
        if page.value == [] {
          Protocol.EmptyPageMeansCovered(Protocol.Settings(batchLimit, pageSize), ch.db, batch);
          more := false;
        } else {
          ghost var before, run, schedule := ch.db, [], [];
          ok, run, schedule := ProcessPage(batch, page.value);
          PageAdvances(pool, before, ch.db, batch, pageSize, run, schedule);
          AdvancesJoin(pool, old(ch.db), before, ch.db);
          if !ok { return; }
          MaybePublish();
        }
      }
      ghost var before := ch.db;
      ok, mark, copies := MarkComplete(batch);
      MarkAdvances(pool, before, ch.db, mark, copies);
      AdvancesJoin(pool, old(ch.db), before, ch.db);
    }

    // Counts the batch's rows and writes its status.
    method MarkComplete(batch: Uuid) returns (ok: bool, ghost mark: BatchRow, ghost copies: nat)
      requires UniqueInputs(ch.db.inputs) && Covered(ch.db, batch)
      modifies ch`db, ch`inserts
      ensures ch.db.inputs == old(ch.db.inputs) && ch.db.results == old(ch.db.results)
      ensures ch.db.batches == old(ch.db.batches) + seq(copies, _ => mark)
      ensures mark.batchId == batch && mark.status.COMPLETE?
      ensures Protocol.Reports(ch.db, mark) && Protocol.Truthful(ch.db, mark)
      ensures ok ==> copies >= 1
      ensures ch.reliable ==> ok
    {
      CountsOfCovered(ch.db, batch);
      var row := BatchRow(
        batch, COMPLETE, CountInputs(ch.db.inputs, batch),
        CountIf(ch.db.results, batch, Complete), CountIf(ch.db.results, batch, Failed));
      mark, copies := row, 0;
      Protocol.CountedReports(ch.db, row);
      var fails := ch.Fails();  // get_batch_counts
      if fails { ok := false; return; }
      ok, copies := ch.WriteStatusWithRetry(row);
    }

    // One page: the pool answers every row of it, and the answers are written in chunks. What
    // reaches the table is what that run of the pool emitted.
    method ProcessPage(batch: Uuid, page: seq<LLMInput>)
        returns (ok: bool, ghost run: seq<Pool.State>, ghost schedule: seq<Pool.Label>)
      requires Valid() && page == GetBatchRows(ch.db, batch, pageSize)
      modifies ch`db, ch`inserts
      ensures Valid() && ch.db.inputs == old(ch.db.inputs) && ch.db.batches == old(ch.db.batches)
      ensures PoolTheorems.Consumed(pool, page, run, schedule)
      ensures Store.Appended(old(ch.db.results), ch.db.results, PoolTheorems.Results(Pool.Last(run).emitted))
      ensures ok ==>
        Store.AllLanded(old(ch.db.results), ch.db.results, PoolTheorems.Results(Pool.Last(run).emitted))
      ensures ok ==>
        var before := |Missing(old(ch.db), batch)|;
        |Missing(ch.db, batch)| == if before <= pageSize then 0 else before - pageSize
      ensures ch.reliable ==> ok
    {
      hide PoolTheorems.Consumed, Store.Appended, Store.AllLanded, AnswersPage, Missing, GetBatchRows;
      hide UniqueInputs, Responsive, ClockMoves, NextAt;
      var iter := new Executor.BatchIter(pool, page);
      iter.Process();
      run, schedule := iter.run, iter.schedule;
      var stream := PoolTheorems.Results(iter.emitted);
      var before := ch.db;
      ghost var chunks;
      ok, chunks := ch.WriteResultsInChunks(stream);
      if ok {
        PageIsWorkedOff(before, ch.db, batch, pageSize, stream);
      }
    }

    // The batches of one poll, in order, until one fails or a stop is seen.
    // `served` is how many of them were started; all of those but one that failed are marked.
    method ServeBatches(ids: seq<Uuid>, notes: seq<Note>)
        returns (ok: bool, notes': seq<Note>, ghost served: nat)
      requires Valid() && Disciplined(notes) && (SawStop(notes) ==> shouldStop)
      modifies this`clock, this`shouldStop, publisher, ch`db, ch`inserts, ch`pageReads
      ensures Valid() && Disciplined(notes') && (SawStop(notes') ==> shouldStop)
      ensures ch.db.inputs == old(ch.db.inputs)
      ensures served <= |ids| && Begun(notes') == Begun(notes) + ids[..served] && (!ok ==> served > 0)
      ensures served < |ids| ==> !ok || shouldStop
      ensures SetOf(ids[..if ok then served else served - 1]) !! PendingSet(ch.db)
      ensures Advances(pool, old(ch.db), ch.db)
      ensures |publisher.calls| >= |old(publisher.calls)|
      ensures patient ==> shouldStop == old(shouldStop)
      ensures old(shouldStop) ==> shouldStop
      ensures ch.reliable && patient && !old(shouldStop) ==>
        ok && Begun(notes') == Begun(notes) + ids && PendingSet(ch.db) == PendingSet(old(ch.db)) - SetOf(ids)
    {
      hide UniqueInputs, Covered, Missing, Protocol.Truthful, Responsive, ClockMoves, NextAt;
      hide Disciplined, Begun, SawStop, Protocol.Reports, Advances;
      hide PendingSet, SetOf;
      NothingYet(pool, ch.db);
      ok, notes', served := true, notes, 0;
      var next: nat := 0;
      NoneTaken(PendingSet(ch.db));
      while next < |ids|
        invariant next == served <= |ids| && ok && Begun(notes') == Begun(notes) + ids[..next]
        invariant SetOf(ids[..next]) !! PendingSet(ch.db)
        invariant Valid() && Disciplined(notes') && (SawStop(notes') ==> shouldStop)
        invariant Advances(pool, old(ch.db), ch.db) && ch.db.inputs == old(ch.db.inputs)
        invariant |publisher.calls| >= |old(publisher.calls)|
        invariant patient ==> shouldStop == old(shouldStop)
        invariant old(shouldStop) ==> shouldStop
        invariant ch.reliable && patient && !old(shouldStop) ==>
          PendingSet(ch.db) == PendingSet(old(ch.db)) - SetOf(ids[..next])
      {
        if shouldStop {
          NoteLook(notes', true);
          notes' := notes' + [Looked(true)];
          return;
        }
        NoteStart(notes', ids[next]);
        notes' := notes' + [Looked(false)] + [Began(ids[next])];
        ghost var before := ch.db;
        ghost var mark, copies;
        ok, mark, copies := ProcessSingleBatch(ids[next]);
        AdvancesJoin(pool, old(ch.db), before, ch.db);
        served := next + 1;
        assert ids[..next + 1] == ids[..next] + [ids[next]];
        MarkingOnlyRemoves(before, ch.db, mark, copies);
        if !ok { return; }
        MarkingRemoves(before, ch.db, mark, copies);
        SetOfAppend(ids[..next], ids[next]);
        next := next + 1;
      }
      assert ids[..next] == ids;
    }

    // run. The signal to stop arrives after at most `fuel` more polls; `polls` counts the
    // polls that found work.
    method Run(fuel: nat) returns (notes: seq<Note>, polls: nat)
      requires Valid()
      modifies this`clock, this`shouldStop, publisher, ch`db, ch`inserts, ch`pageReads
      ensures Valid() && shouldStop && Disciplined(notes) && ch.db.inputs == old(ch.db.inputs)
      ensures Advances(pool, old(ch.db), ch.db)
      ensures |publisher.calls| >= |old(publisher.calls)| + polls
      ensures ch.reliable && patient && !old(shouldStop) && fuel > Pages(|AllPending(old(ch.db))|, batchLimit) ==>
        && AllPending(ch.db) == []
        && polls == Pages(|AllPending(old(ch.db))|, batchLimit)
        && |Begun(notes)| == |AllPending(old(ch.db))|
        && SetOf(Begun(notes)) == PendingSet(old(ch.db))
    {
      hide UniqueInputs, Covered, Missing, Protocol.Truthful, Responsive, ClockMoves, NextAt;
      hide Disciplined, Begun, SawStop, Advances;
      hide PendingSet, SetOf, AllPending, PendingAmong;
      NothingYet(pool, ch.db);
      notes, polls := [], 0;
      var left: nat := fuel;
      NoNotes();
      ghost var draining := ch.reliable && patient && !shouldStop && fuel > Pages(|AllPending(ch.db)|, batchLimit);
      ghost var all := AllPending(ch.db);
      NoneBegun(ch.db);
      while !shouldStop
        invariant Valid() && Disciplined(notes) && (SawStop(notes) ==> shouldStop)
        invariant Advances(pool, old(ch.db), ch.db) && ch.db.inputs == old(ch.db.inputs)
        invariant |publisher.calls| >= |old(publisher.calls)| + polls
        invariant draining ==> Drained(old(ch.db), ch.db, Begun(notes))
        invariant draining ==> polls + Pages(|AllPending(ch.db)|, batchLimit) == Pages(|all|, batchLimit)
        invariant draining && !shouldStop ==> left > Pages(|AllPending(ch.db)|, batchLimit) || AllPending(ch.db) == []
        invariant draining && shouldStop ==> AllPending(ch.db) == []
        decreases if shouldStop then 0 else left + 1
      {
        MaybePublish();
        var fails := ch.Fails();  // get_pending_batches
        if !fails {
          ghost var before, earlier := ch.db, notes;
          var ids := GetPendingBatches(ch.db, batchLimit);
          if ids == [] {
            Elapse();
          } else {
            polls := polls + 1;
            var ok;
            ghost var served;
            ok, notes, served := ServeBatches(ids, notes);
            AdvancesJoin(pool, old(ch.db), before, ch.db);
            if draining {
              OnePollDrains(old(ch.db), before, ch.db, batchLimit, Begun(earlier));
            }
          }
        } else {
          Elapse();
        }
        if left == 0 {
          shouldStop := true;
        } else {
          left := left - 1;
        }
      }
      if draining {
        AllDrained(old(ch.db), ch.db, Begun(notes));
      }
    }
  }
}
