// The whole system: any number of workers (src/llm_worker/main.py) share the tables, and
// each runs its pages through its own thread pool (src/llm_worker/executor.py) and chunk
// writer. It refines Protocol, so what Protocol proves holds of it too.
module Fleet {
  import opened Rows
  import opened Tables
  import opened PageWriter
  import P = Pool
  import I = PoolInvariants
  import T = PoolTheorems
  import Protocol
  import Provenance

  datatype Settings = Settings(outer: Protocol.Settings, pool: P.Config)

  // A worker between pages, or with a page's generator and writer under way.
  datatype Worker =
    | Between(at: Protocol.Worker)
    | Paging(batch: Uuid, queue: seq<Uuid>, rows: seq<LLMInput>, page: Page)

  datatype System = System(db: Db, workers: seq<Worker>)

  datatype Event =
    | Outer(e: Protocol.Event)    // the producer's steps, and a worker's outside its pages
    | Inner(w: nat, m: Move)      // a pool thread, the generator or the writer of a page moves
    | LeavePage(w: nat)           // the writer's loop has returned, or an error escapes it
    | Kill(w: nat)                // the worker dies on a page

  predicate Outside(e: Protocol.Event)
    requires e.ByWorker()
  {
    !e.Collect? && !e.EndOfPage? && !e.SendChunk?
  }

  ghost predicate Can(cfg: Settings, s: System, e: Event) {
    match e
    case Outer(o) =>
      if o.ByWorker()
      then Outside(o) && o.w < |s.workers| && s.workers[o.w].Between?
           && Protocol.WorkerCan(cfg.outer, s.db, s.workers[o.w].at, o)
      else Protocol.ProducerCan(s.db, o)
    case Inner(w, m) =>
      w < |s.workers| && s.workers[w].Paging? && CanMove(cfg.pool, s.workers[w].rows, s.workers[w].page, m)
    case LeavePage(w) =>
      && w < |s.workers|
      && s.workers[w].Paging?
      && (s.workers[w].page.writer.Returned? || s.workers[w].page.writer.Escaped?)
    case Kill(w) => w < |s.workers| && s.workers[w].Paging?
  }

  // A worker that has read a page hands its rows to a fresh generator.
  function Begin(at: Protocol.Worker): Worker {
    if at.Streaming? then Paging(at.batch, at.queue, at.page, OPENING) else Between(at)
  }

  function Results(emitted: seq<P.Emission>): seq<LLMResult> {
    T.Results(emitted)
  }

  // A write of the page appends its pending results, if it lands.
  function Written(db: Db, page: Page, m: Move): Db {
    if m.WriteSucceeds? || (m.WriteFails? && m.landed) then db.(results := db.results + Results(page.pending)) else db
  }

  function Leave(worker: Worker): Worker
    requires worker.Paging?
  {
    Between(if worker.page.writer.Returned? then Protocol.Querying(worker.batch, worker.queue) else Protocol.Polling)
  }

  function Step(cfg: Settings, s: System, e: Event): System
    requires Can(cfg, s, e)
  {
    match e
    case Outer(o) =>
      if o.ByWorker()
      then
        var at := s.workers[o.w].at;
        System(
          Protocol.StepDb(cfg.outer, s.db, at, o),
          s.workers[o.w := Begin(Protocol.StepWorker(cfg.outer, s.db, at, o))])
      else s.(db := Protocol.Produce(s.db, o))
    case Inner(w, m) =>
      var worker := s.workers[w];
      var page := Moved(cfg.pool, worker.rows, worker.page, m);
      System(Written(s.db, worker.page, m), s.workers[w := worker.(page := page)])
    case LeavePage(w) => s.(workers := s.workers[w := Leave(s.workers[w])])
    case Kill(w) => s.(workers := s.workers[w := Between(Protocol.Polling)])
  }

  function Start(workers: nat): System {
    System(Db([], [], []), seq(workers, _ => Between(Protocol.Polling)))
  }

  ghost predicate IsRun(cfg: Settings, workers: nat, run: seq<System>, events: seq<Event>) {
    && |run| == |events| + 1
    && run[0] == Start(workers)
    && forall k :: 0 <= k < |events| ==> Can(cfg, run[k], events[k]) && run[k + 1] == Step(cfg, run[k], events[k])
  }

  // ---- What the pages keep ----

  ghost predicate PageOk(cfg: Settings, db: Db, rows: seq<LLMInput>, page: Page) {
    && PageSound(cfg.pool, rows, page)
    && I.Conserved(rows, page.pool)
    && I.Sourced(cfg.pool, rows, page.pool)
    && forall row :: row in page.landed ==> row < |rows| && HasResult(db.results, rows[row].batchId, rows[row].rowId)
  }

  ghost predicate WorkerOk(cfg: Settings, db: Db, worker: Worker) {
    match worker
    case Between(at) => !at.Streaming? && !at.Sending?
    case Paging(_, _, rows, page) => PageOk(cfg, db, rows, page)
  }

  ghost predicate Ok(cfg: Settings, s: System) {
    cfg.pool.Valid() && forall w :: 0 <= w < |s.workers| ==> WorkerOk(cfg, s.db, s.workers[w])
  }

  lemma PageBeginsOk(cfg: Settings, db: Db, rows: seq<LLMInput>)
    requires cfg.pool.Valid()
    ensures PageOk(cfg, db, rows, OPENING)
  {
    T.SoundInitially(cfg.pool, rows);
  }

  lemma ResultsGrow(db: Db, results: seq<LLMResult>, batch: Uuid, row: Uuid)
    requires HasResult(db.results, batch, row)
    ensures HasResult(db.results + results, batch, row)
  {
    var i :| 0 <= i < |db.results| && db.results[i].batchId == batch && db.results[i].rowId == row;
    assert (db.results + results)[i] == db.results[i];
  }

  lemma StaysOk(cfg: Settings, db: Db, db': Db, results: seq<LLMResult>, worker: Worker)
    requires WorkerOk(cfg, db, worker) && (db'.results == db.results || db'.results == db.results + results)
    ensures WorkerOk(cfg, db', worker)
  {
    if worker.Paging? {
      forall row | row in worker.page.landed
        ensures HasResult(db'.results, worker.rows[row].batchId, worker.rows[row].rowId)
      {
        ResultsGrow(db, results, worker.rows[row].batchId, worker.rows[row].rowId);
      }
    }
  }

  // Each pending result is that of its row.
  lemma PendingIds(cfg: Settings, db: Db, rows: seq<LLMInput>, page: Page, k: nat)
    requires PageOk(cfg, db, rows, page) && k < |page.pending|
    ensures
      var e := page.pending[k];
      e.row < |rows| && e.result.batchId == rows[e.row].batchId && e.result.rowId == rows[e.row].rowId
  {
    var before := |Flatten(page.chunks)|;
    assert page.pool.emitted[before + k] == page.pending[k];
    assert I.EmissionSound(cfg.pool, rows, page.pool, page.pool.emitted[before + k]);
  }

  lemma PendingLands(cfg: Settings, db: Db, rows: seq<LLMInput>, page: Page, row: nat)
    requires PageOk(cfg, db, rows, page) && row in RowSet(page.pending)
    ensures row < |rows| && HasResult(db.results + Results(page.pending), rows[row].batchId, rows[row].rowId)
  {
    var k :| 0 <= k < |page.pending| && page.pending[k].row == row;
    hide PageOk;
    PendingIds(cfg, db, rows, page, k);
    var results := Results(page.pending);
    assert (db.results + results)[|db.results| + k] == results[k] == page.pending[k].result;
  }

  lemma MovedLanded(cfg: Settings, rows: seq<LLMInput>, page: Page, m: Move)
    requires CanMove(cfg.pool, rows, page, m)
    ensures Moved(cfg.pool, rows, page, m).landed
         == page.landed + if m.WriteSucceeds? || (m.WriteFails? && m.landed) then RowSet(page.pending) else {}
  {
    hide RowSet, P.WorkerDo, P.GeneratorDo;
  }

  lemma MovedPool(cfg: Settings, rows: seq<LLMInput>, page: Page, m: Move)
    requires PageSound(cfg.pool, rows, page) && CanMove(cfg.pool, rows, page, m)
    requires I.Conserved(rows, page.pool) && I.Sourced(cfg.pool, rows, page.pool)
    ensures
      var pool := Moved(cfg.pool, rows, page, m).pool;
      |pool.tasks| <= |rows| && I.Conserved(rows, pool) && I.Sourced(cfg.pool, rows, pool)
  {
    if m.Thread? || m.Next? {
      I.ConservedKept(cfg.pool, rows, page.pool, m.l);
      I.SourcedKept(cfg.pool, rows, page.pool, m.l);
    }
    hide I.Conserved, I.Sourced, P.WorkerDo, P.GeneratorDo, I.Shape, Held, Orderly;
  }

  lemma MoveKeepsOk(cfg: Settings, db: Db, rows: seq<LLMInput>, page: Page, m: Move)
    requires PageOk(cfg, db, rows, page) && CanMove(cfg.pool, rows, page, m)
    ensures PageOk(cfg, Written(db, page, m), rows, Moved(cfg.pool, rows, page, m))
  {
    var db', page' := Written(db, page, m), Moved(cfg.pool, rows, page, m);
    PageSoundKept(cfg.pool, rows, page, m);
    MovedPool(cfg, rows, page, m);
    MovedLanded(cfg, rows, page, m);
    forall row | row in page'.landed
      ensures row < |rows| && HasResult(db'.results, rows[row].batchId, rows[row].rowId)
    {
      if row in page.landed {
        ResultsGrow(db, Results(page.pending), rows[row].batchId, rows[row].rowId);
      } else {
        PendingLands(cfg, db, rows, page, row);
      }
    }
  }

  lemma OuterStepOk(cfg: Settings, db: Db, at: Protocol.Worker, e: Protocol.Event)
    requires cfg.pool.Valid() && e.ByWorker() && Outside(e) && Protocol.WorkerCan(cfg.outer, db, at, e)
    requires !at.Streaming? && !at.Sending?
    ensures Protocol.StepDb(cfg.outer, db, at, e).results == db.results
    ensures WorkerOk(cfg, db, Begin(Protocol.StepWorker(cfg.outer, db, at, e)))
  {
    var at' := Protocol.StepWorker(cfg.outer, db, at, e);
    if at'.Streaming? {
      PageBeginsOk(cfg, db, at'.page);
    }
  }

  lemma OkKept(cfg: Settings, s: System, e: Event)
    requires Ok(cfg, s) && Can(cfg, s, e)
    ensures Ok(cfg, Step(cfg, s, e))
  {
    var s' := Step(cfg, s, e);
    ghost var results: seq<LLMResult> := [];
    match e {
      case Outer(o) =>
        if o.ByWorker() {
          assert WorkerOk(cfg, s.db, s.workers[o.w]);
          OuterStepOk(cfg, s.db, s.workers[o.w].at, o);
        }
      case Inner(w, m) =>
        assert WorkerOk(cfg, s.db, s.workers[w]);
        MoveKeepsOk(cfg, s.db, s.workers[w].rows, s.workers[w].page, m);
        results := Results(s.workers[w].page.pending);
      case _ =>
    }
    hide PageOk, CanMove, Moved, Protocol.StepDb, Protocol.StepWorker, Protocol.WorkerCan;
    forall v | 0 <= v < |s'.workers|
      ensures WorkerOk(cfg, s'.db, s'.workers[v])
    {
      if s'.workers[v] == s.workers[v] {
        StaysOk(cfg, s.db, s'.db, results, s.workers[v]);
      } else if e.Outer? {
        StaysOk(cfg, s.db, s'.db, results, s'.workers[v]);
      }
    }
  }

  lemma {:induction false} RunIsOk(cfg: Settings, workers: nat, run: seq<System>, events: seq<Event>, k: nat)
    requires cfg.pool.Valid() && IsRun(cfg, workers, run, events) && k < |run|
    ensures Ok(cfg, run[k])
  {
    if k > 0 {
      RunIsOk(cfg, workers, run, events, k - 1);
      hide Can, Step, Ok;
      OkKept(cfg, run[k - 1], events[k - 1]);
    }
  }

  // ---- Refinement ----

  // What Protocol sees of a worker: the results its generator has yielded, not how.
  function View(worker: Worker): Protocol.Worker {
    match worker
    case Between(at) => at
    case Paging(batch, queue, rows, page) =>
      match page.writer
      case Writing(attempt) =>
        Protocol.Sending(batch, queue, rows, Results(page.pool.emitted), Results(page.pending), attempt)
      case Escaped => Protocol.Polling
      case _ => Protocol.Streaming(batch, queue, rows, Results(page.pool.emitted), Results(page.pending))
  }

  function ViewAll(s: System): Protocol.System {
    Protocol.System(s.db, seq(|s.workers|, w requires 0 <= w < |s.workers| => View(s.workers[w])))
  }

  // The step of Protocol that a move on a page is, if Protocol sees it at all.
  function Seen(cfg: Settings, rows: seq<LLMInput>, page: Page, m: Move, w: nat): Protocol.Event
    requires CanMove(cfg.pool, rows, page, m)
  {
    match m
    case WriteSucceeds => Protocol.SendChunk(w, Protocol.Acknowledged)
    case WriteFails(landed) => Protocol.SendChunk(w, if landed then Protocol.Ambiguous else Protocol.Rejected)
    case Exhausted => Protocol.EndOfPage(w)
    case _ =>
      var emitted := Moved(cfg.pool, rows, page, m).pool.emitted;
      Protocol.Collect(w, if emitted != [] then P.Last(emitted).result else LLMResult(0, 0, "", Failed, NoError))
  }

  predicate IsSeen(rows: seq<LLMInput>, page: Page, m: Move) {
    match m
    case Thread(_) => false
    case Next(l) => I.Emits(page.pool, l)
    case Exhausted => page.pending != []
    case _ => true
  }

  // A move on a page is a step of Protocol, or leaves what Protocol sees as it was.
  ghost predicate InnerSeen(cfg: Settings, db: Db, worker: Worker, m: Move, w: nat)
    requires worker.Paging? && CanMove(cfg.pool, worker.rows, worker.page, m)
  {
    var worker' := worker.(page := Moved(cfg.pool, worker.rows, worker.page, m));
    if IsSeen(worker.rows, worker.page, m)
    then
      var e := Seen(cfg, worker.rows, worker.page, m, w);
      && Protocol.WorkerCan(cfg.outer, db, View(worker), e)
      && View(worker') == Protocol.StepWorker(cfg.outer, db, View(worker), e)
      && Written(db, worker.page, m) == Protocol.StepDb(cfg.outer, db, View(worker), e)
    else View(worker') == View(worker) && Written(db, worker.page, m) == db
  }

  lemma ResultsAppend(emitted: seq<P.Emission>, e: P.Emission)
    ensures Results(emitted + [e]) == Results(emitted) + [e.result]
  {
  }

  lemma ReturnedAnswers(cfg: Settings, rows: seq<LLMInput>, pool: P.State)
    requires |pool.tasks| <= |rows| && I.Sourced(cfg.pool, rows, pool) && I.Conserved(rows, pool) && pool.pc.Closed?
    ensures AnswersPage(rows, Results(pool.emitted))
  {
    T.SameKeys(cfg.pool, rows, pool);
  }

  lemma NextFacts(cfg: Settings, db: Db, rows: seq<LLMInput>, page: Page, l: P.Label)
    requires PageOk(cfg, db, rows, page) && CanMove(cfg.pool, rows, page, Next(l))
    ensures
      var page' := Moved(cfg.pool, rows, page, Next(l));
      var pool := page'.pool;
      if I.Emits(page.pool, l)
      then pool.emitted == page.pool.emitted + [P.Last(pool.emitted)] && page' == Collect(page, pool)
           && AnswersPart(rows, Results(page.pool.emitted) + [P.Last(pool.emitted).result])
      else pool.emitted == page.pool.emitted && page' == page.(pool := pool)
  {
    var pool := P.GeneratorDo(cfg.pool, rows, page.pool, l);
    YieldsOne(cfg.pool, rows, page.pool, l);
    MovedPool(cfg, rows, page, Next(l));
    assert Moved(cfg.pool, rows, page, Next(l)).pool == pool;
    hide P.GeneratorDo, P.GeneratorCan, PageSound, I.Sourced, I.Conserved, I.Emits;
    if I.Emits(page.pool, l) {
      ResultsAppend(page.pool.emitted, P.Last(pool.emitted));
      T.EmittedIsPart(cfg.pool, rows, pool);
    }
  }

  // A step of the generator is a result collected, or nothing.
  lemma NextIsSeen(cfg: Settings, db: Db, worker: Worker, l: P.Label, w: nat)
    requires worker.Paging? && PageOk(cfg, db, worker.rows, worker.page)
    requires CanMove(cfg.pool, worker.rows, worker.page, Next(l))
    ensures InnerSeen(cfg, db, worker, Next(l), w)
  {
    NextFacts(cfg, db, worker.rows, worker.page, l);
    assert worker.page.writer.Reading?;
    var page' := Moved(cfg.pool, worker.rows, worker.page, Next(l));
    if I.Emits(worker.page.pool, l) {
      ResultsAppend(worker.page.pool.emitted, P.Last(page'.pool.emitted));
      ResultsAppend(worker.page.pending, P.Last(page'.pool.emitted));
    }
    hide PageOk, Moved, CanMove, I.Emits, AnswersPart, Results;
  }

  // The end of the generator is seen if results are left to send.
  lemma EndIsSeen(cfg: Settings, db: Db, worker: Worker, w: nat)
    requires worker.Paging? && PageOk(cfg, db, worker.rows, worker.page)
    requires CanMove(cfg.pool, worker.rows, worker.page, Exhausted)
    ensures InnerSeen(cfg, db, worker, Exhausted, w)
  {
    ReturnedAnswers(cfg, worker.rows, worker.page.pool);
    hide PageOk, Results, AnswersPage;
    assert worker.page.pending != [] ==> Results(worker.page.pending) != [] by { ResultsLength(worker.page.pending); }
  }

  // The writer's moves are Protocol's own.
  lemma WriteIsSeen(cfg: Settings, db: Db, worker: Worker, m: Move, w: nat)
    requires worker.Paging? && PageOk(cfg, db, worker.rows, worker.page)
    requires CanMove(cfg.pool, worker.rows, worker.page, m) && (m.WriteSucceeds? || m.WriteFails?)
    ensures InnerSeen(cfg, db, worker, m, w)
  {
    assert Results([]) == [];
    hide PageOk, Results, AnswersPage, AnswersPart;
  }

  lemma ResultsLength(emitted: seq<P.Emission>)
    ensures |Results(emitted)| == |emitted|
  {
  }

  lemma ThreadIsHidden(cfg: Settings, db: Db, worker: Worker, l: P.Label, w: nat)
    requires worker.Paging? && CanMove(cfg.pool, worker.rows, worker.page, Thread(l))
    ensures InnerSeen(cfg, db, worker, Thread(l), w)
  {
    I.WorkerFrame(cfg.pool, worker.rows, worker.page.pool, l);
    hide P.WorkerDo, P.WorkerCan;
  }

  lemma InnerIsSeen(cfg: Settings, db: Db, worker: Worker, m: Move, w: nat)
    requires worker.Paging? && PageOk(cfg, db, worker.rows, worker.page)
    requires CanMove(cfg.pool, worker.rows, worker.page, m)
    ensures InnerSeen(cfg, db, worker, m, w)
  {
    hide PageOk, CanMove, InnerSeen;
    match m {
      case Thread(l) => ThreadIsHidden(cfg, db, worker, l, w);
      case Next(l) => NextIsSeen(cfg, db, worker, l, w);
      case Exhausted => EndIsSeen(cfg, db, worker, w);
      case _ => WriteIsSeen(cfg, db, worker, m, w);
    }
  }

  lemma ViewOfUpdate(s: System, db: Db, w: nat, worker: Worker)
    requires w < |s.workers|
    ensures ViewAll(System(db, s.workers[w := worker])) == Protocol.System(db, ViewAll(s).workers[w := View(worker)])
    ensures ViewAll(s).workers[w] == View(s.workers[w])
  {
  }

  // A step of the fleet is a step of Protocol, or one Protocol does not see.
  datatype Image = Hidden | Visible(e: Protocol.Event)

  ghost predicate Simulates(cfg: Settings, s: System, e: Event, image: Image)
    requires Can(cfg, s, e)
  {
    match image
    case Hidden => ViewAll(Step(cfg, s, e)) == ViewAll(s)
    case Visible(p) =>
      && Protocol.Can(cfg.outer, ViewAll(s), p)
      && ViewAll(Step(cfg, s, e)) == Protocol.Step(cfg.outer, ViewAll(s), p)
      && (p.SendChunk? && p.outcome.Ambiguous? ==> e.Inner? && e.m == WriteFails(true))
  }

  lemma OuterSimulates(cfg: Settings, s: System, o: Protocol.Event)
    requires Ok(cfg, s) && Can(cfg, s, Outer(o))
    ensures Simulates(cfg, s, Outer(o), Visible(o))
  {
    if o.ByWorker() {
      var at := s.workers[o.w].at;
      var at' := Protocol.StepWorker(cfg.outer, s.db, at, o);
      assert WorkerOk(cfg, s.db, s.workers[o.w]);
      BeginIsSeen(cfg, s.db, at, o);
      hide Protocol.StepWorker, Protocol.StepDb, Protocol.WorkerCan, Ok, Begin;
      ViewOfUpdate(s, Protocol.StepDb(cfg.outer, s.db, at, o), o.w, Begin(at'));
    }
  }

  lemma BeginIsSeen(cfg: Settings, db: Db, at: Protocol.Worker, o: Protocol.Event)
    requires o.ByWorker() && Outside(o) && Protocol.WorkerCan(cfg.outer, db, at, o) && !at.Streaming? && !at.Sending?
    ensures
      var at' := Protocol.StepWorker(cfg.outer, db, at, o);
      View(Begin(at')) == at'
  {
    assert Results([]) == [];
  }

  lemma InnerSimulates(cfg: Settings, s: System, w: nat, m: Move) returns (image: Image)
    requires Ok(cfg, s) && Can(cfg, s, Inner(w, m))
    ensures Simulates(cfg, s, Inner(w, m), image)
  {
    var worker := s.workers[w];
    assert WorkerOk(cfg, s.db, worker);
    var worker' := worker.(page := Moved(cfg.pool, worker.rows, worker.page, m));
    InnerIsSeen(cfg, s.db, worker, m, w);
    SeenEvent(cfg, worker.rows, worker.page, m, w);
    ViewOfUpdate(s, Written(s.db, worker.page, m), w, worker');
    ViewShape(s);
    ViewSame(s, w);
    image := if IsSeen(worker.rows, worker.page, m) then Visible(Seen(cfg, worker.rows, worker.page, m, w)) else Hidden;
    hide Ok, PageOk, WorkerOk, View, ViewAll, Moved, CanMove, Written, IsSeen, Seen;
    hide Protocol.WorkerCan, Protocol.StepWorker, Protocol.StepDb;
  }

  lemma SeenEvent(cfg: Settings, rows: seq<LLMInput>, page: Page, m: Move, w: nat)
    requires CanMove(cfg.pool, rows, page, m)
    ensures
      var e := Seen(cfg, rows, page, m, w);
      e.ByWorker() && e.w == w && (e.SendChunk? && e.outcome.Ambiguous? ==> m == WriteFails(true))
  {
  }

  lemma ViewShape(s: System)
    ensures ViewAll(s).db == s.db && |ViewAll(s).workers| == |s.workers|
  {
  }

  lemma ViewSame(s: System, w: nat)
    requires w < |s.workers|
    ensures Protocol.System(s.db, ViewAll(s).workers[w := View(s.workers[w])]) == ViewAll(s)
  {
  }

  lemma LeaveSimulates(cfg: Settings, s: System, w: nat) returns (image: Image)
    requires Ok(cfg, s) && Can(cfg, s, LeavePage(w))
    ensures Simulates(cfg, s, LeavePage(w), image)
  {
    var worker := s.workers[w];
    assert WorkerOk(cfg, s.db, worker);
    ViewOfUpdate(s, s.db, w, Leave(worker));
    ViewSame(s, w);
    if worker.page.writer.Returned? {
      ReturnedAnswers(cfg, worker.rows, worker.page.pool);
      assert Results([]) == [];
      image := Visible(Protocol.EndOfPage(w));
    } else {
      image := Hidden;
    }
  }

  lemma KillSimulates(cfg: Settings, s: System, w: nat)
    requires Can(cfg, s, Kill(w))
    ensures Simulates(cfg, s, Kill(w), Visible(Protocol.Lose(w)))
  {
    ViewOfUpdate(s, s.db, w, Between(Protocol.Polling));
  }

  lemma StepSimulates(cfg: Settings, s: System, e: Event) returns (image: Image)
    requires Ok(cfg, s) && Can(cfg, s, e)
    ensures Simulates(cfg, s, e, image)
  {
    hide Ok, Simulates, Can;
    match e {
      case Outer(o) =>
        OuterSimulates(cfg, s, o);
        image := Visible(o);
      case Inner(w, m) => image := InnerSimulates(cfg, s, w, m);
      case LeavePage(w) => image := LeaveSimulates(cfg, s, w);
      case Kill(w) =>
        KillSimulates(cfg, s, w);
        image := Visible(Protocol.Lose(w));
    }
  }

  // No result write lands and reports failure.
  ghost predicate Clean(events: seq<Event>) {
    forall k :: 0 <= k < |events| ==> !(events[k].Inner? && events[k].m == WriteFails(true))
  }

  // Every run of the fleet is one of Protocol's, seen through ViewAll.
  lemma {:induction false} Refines(cfg: Settings, workers: nat, run: seq<System>, events: seq<Event>)
      returns (seen: seq<Protocol.System>, steps: seq<Protocol.Event>)
    requires cfg.pool.Valid() && IsRun(cfg, workers, run, events)
    ensures Protocol.IsRun(cfg.outer, workers, seen, steps)
    ensures P.Last(seen) == ViewAll(P.Last(run))
    ensures Clean(events) ==> Protocol.Clean(steps)
    decreases |events|
  {
    if events == [] {
      seen, steps := [Protocol.Start(workers)], [];
    } else {
      var n := |events| - 1;
      seen, steps := Refines(cfg, workers, run[..n + 1], events[..n]);
      RunIsOk(cfg, workers, run, events, n);
      assert P.Last(seen) == ViewAll(run[n]);
      var image := StepSimulates(cfg, run[n], events[n]);
      hide Can, Step, Ok, ViewAll, Protocol.Can, Protocol.Step;
      if image.Visible? {
        seen, steps := seen + [Protocol.Step(cfg.outer, P.Last(seen), image.e)], steps + [image.e];
      }
    }
  }

  // ---- What Protocol proves, of the whole system ----

  // In every state of every run of the fleet: a batch marked complete has a result for every
  // input row, with counts that say so, and every result row is for an input row.
  lemma FleetIsSafe(cfg: Settings, workers: nat, run: seq<System>, events: seq<Event>)
    requires cfg.pool.Valid() && cfg.outer.pageSize >= 1 && IsRun(cfg, workers, run, events)
    ensures forall i :: 0 <= i < |P.Last(run).db.batches| && P.Last(run).db.batches[i].status.COMPLETE? ==>
      Protocol.Claims(P.Last(run).db, P.Last(run).db.batches[i])
    ensures Protocol.ForInputs(P.Last(run).db.inputs, P.Last(run).db.results)
  {
    var seen, steps := Refines(cfg, workers, run, events);
    Protocol.RunSafety(cfg.outer, workers, seen, steps, |seen| - 1);
  }

  // With one worker whose result writes never land and report failure, the counts are exact.
  lemma FleetCountsExactly(cfg: Settings, run: seq<System>, events: seq<Event>, i: nat)
    requires cfg.pool.Valid() && cfg.outer.pageSize >= 1 && IsRun(cfg, 1, run, events) && Clean(events)
    requires i < |P.Last(run).db.batches| && P.Last(run).db.batches[i].status.COMPLETE?
    ensures
      var row := P.Last(run).db.batches[i];
      Protocol.Reports(P.Last(run).db, row) && row.completed + row.failed == row.total
  {
    var seen, steps := Refines(cfg, 1, run, events);
    Protocol.ExactCounts(cfg.outer, seen, steps, |seen| - 1, i);
  }

  // ---- Where result rows come from ----

  // A worker's page is made of input rows of one batch.
  ghost predicate Reads(inputs: seq<LLMInput>, worker: Worker) {
    worker.Paging? ==> forall i :: 0 <= i < |worker.rows| ==>
      worker.rows[i] in inputs && worker.rows[i].batchId == worker.batch
  }

  ghost predicate AllGenuine(cfg: Settings, db: Db) {
    forall i :: 0 <= i < |db.results| ==> Provenance.Genuine(cfg.pool, db.inputs, db.results[i])
  }

  ghost predicate Traced(cfg: Settings, s: System) {
    AllGenuine(cfg, s.db) && forall w :: 0 <= w < |s.workers| ==> Reads(s.db.inputs, s.workers[w])
  }

  lemma PageReads(cfg: Settings, db: Db, at: Protocol.Worker, o: Protocol.Event)
    requires o.ByWorker() && Outside(o) && Protocol.WorkerCan(cfg.outer, db, at, o)
    requires !at.Streaming? && !at.Sending?
    ensures Protocol.StepDb(cfg.outer, db, at, o).inputs == db.inputs
    ensures Reads(db.inputs, Begin(Protocol.StepWorker(cfg.outer, db, at, o)))
  {
    if o.QueryPage? {
      var page := GetBatchRows(db, at.batch, cfg.outer.pageSize);
      OutstandingAreMissing(db, at.batch);
      hide SortRows, Outstanding, Missing;
      forall i | 0 <= i < |page|
        ensures page[i] in db.inputs && page[i].batchId == at.batch
      {
        assert page[i] in SortRows(Outstanding(db.inputs, db.results, at.batch));
      }
    }
  }

  // What a page's write appends is genuine.
  lemma PendingIsGenuine(cfg: Settings, db: Db, worker: Worker, k: nat)
    requires worker.Paging? && PageOk(cfg, db, worker.rows, worker.page) && Reads(db.inputs, worker)
    requires k < |worker.page.pending|
    ensures Provenance.Genuine(cfg.pool, db.inputs, worker.page.pending[k].result)
  {
    var page := worker.page;
    var before := |Flatten(page.chunks)|;
    assert page.pool.emitted[before + k] == page.pending[k];
    hide PageSound, I.Sourced, I.Conserved, Provenance.Genuine;
    Provenance.EmissionsAreGenuine(cfg.pool, worker.rows, page.pool, before + k, worker.batch);
    Provenance.GenuineAmongMore(cfg.pool, worker.rows, db.inputs, page.pending[k].result);
  }

  lemma WriteIsGenuine(cfg: Settings, db: Db, worker: Worker, m: Move)
    requires worker.Paging? && PageOk(cfg, db, worker.rows, worker.page) && Reads(db.inputs, worker)
    requires AllGenuine(cfg, db)
    ensures AllGenuine(cfg, Written(db, worker.page, m))
  {
    hide PageOk, Reads, Provenance.Genuine;
    var results := Results(worker.page.pending);
    forall i | |db.results| <= i < |db.results + results|
      ensures Provenance.Genuine(cfg.pool, db.inputs, (db.results + results)[i])
    {
      PendingIsGenuine(cfg, db, worker, i - |db.results|);
    }
  }

  lemma ProducedIsGenuine(cfg: Settings, db: Db, o: Protocol.Event)
    requires !o.ByWorker() && Protocol.ProducerCan(db, o) && AllGenuine(cfg, db)
    ensures AllGenuine(cfg, Protocol.Produce(db, o))
    ensures forall input :: input in db.inputs ==> input in Protocol.Produce(db, o).inputs
  {
    hide Provenance.Genuine;
    var db' := Protocol.Produce(db, o);
    forall i | 0 <= i < |db.results|
      ensures Provenance.Genuine(cfg.pool, db'.inputs, db.results[i])
    {
      Provenance.GenuineAmongMore(cfg.pool, db.inputs, db'.inputs, db.results[i]);
    }
  }

  lemma TracedKept(cfg: Settings, s: System, e: Event)
    requires Ok(cfg, s) && Traced(cfg, s) && Can(cfg, s, e)
    ensures Traced(cfg, Step(cfg, s, e))
  {
    hide PageOk, CanMove, Moved, AllGenuine, GetBatchRows;
    match e {
      case Outer(o) =>
        if o.ByWorker() {
          assert WorkerOk(cfg, s.db, s.workers[o.w]);
          PageReads(cfg, s.db, s.workers[o.w].at, o);
          hide Protocol.StepWorker, Protocol.WorkerCan, Begin, Reads;
          SameResults(cfg, s.db, Step(cfg, s, e).db);
        } else {
          ProducedIsGenuine(cfg, s.db, o);
          hide Protocol.Produce;
        }
      case Inner(w, m) =>
        assert WorkerOk(cfg, s.db, s.workers[w]);
        WriteIsGenuine(cfg, s.db, s.workers[w], m);
      case _ =>
    }
  }

  lemma SameResults(cfg: Settings, db: Db, db': Db)
    requires AllGenuine(cfg, db) && db'.inputs == db.inputs && db'.results == db.results
    ensures AllGenuine(cfg, db')
  {
  }

  lemma {:induction false} RunIsTraced(cfg: Settings, workers: nat, run: seq<System>, events: seq<Event>, k: nat)
    requires cfg.pool.Valid() && IsRun(cfg, workers, run, events) && k < |run|
    ensures Traced(cfg, run[k])
  {
    if k > 0 {
      RunIsTraced(cfg, workers, run, events, k - 1);
      RunIsOk(cfg, workers, run, events, k - 1);
      hide Can, Step, Ok, Traced;
      TracedKept(cfg, run[k - 1], events[k - 1]);
    }
  }

  // In every state of every run, a result row is an answer the backend can give to an attempt
  // of its input row, the parser's refusal of that row, or an abort in a batch the backend can
  // abort; and if the backend aborts no batch, no row says it was aborted.
  lemma FleetResultsAreGenuine(
    cfg: Settings, workers: nat, run: seq<System>, events: seq<Event>, k: nat, i: nat)
    requires cfg.pool.Valid() && IsRun(cfg, workers, run, events) && k < |run|
    requires i < |run[k].db.results|
    ensures Provenance.Genuine(cfg.pool, run[k].db.inputs, run[k].db.results[i])
    ensures
      (forall input, attempt, text ::
        input in run[k].db.inputs ==> !cfg.pool.may(input, attempt, P.Failure(text, P.ABORT_BATCH))) ==>
      !run[k].db.results[i].error.BatchAborted?
  {
    RunIsTraced(cfg, workers, run, events, k);
    var db := run[k].db;
    if forall input, attempt, text ::
      input in db.inputs ==> !cfg.pool.may(input, attempt, P.Failure(text, P.ABORT_BATCH))
    {
      Provenance.NoneAborted(cfg.pool, db.inputs, db.results[i]);
    }
  }

  // The rows a worker has called the backend for on its page that have no result row: what
  // its death would have called again.
  ghost function CalledInVain(db: Db, worker: Worker): set<nat>
    requires worker.Paging?
  {
    set row | row in worker.page.pool.called && row < |worker.rows|
      && !HasResult(db.results, worker.rows[row].batchId, worker.rows[row].rowId)
  }

  // At any point of any run each worker stands to lose at most max_workers + 49 rows' calls.
  lemma FleetLosesLittle(cfg: Settings, workers: nat, run: seq<System>, events: seq<Event>, k: nat, w: nat)
    requires cfg.pool.Valid() && IsRun(cfg, workers, run, events) && k < |run|
    requires w < |run[k].workers| && run[k].workers[w].Paging?
    ensures |CalledInVain(run[k].db, run[k].workers[w])| <= cfg.pool.maxWorkers + 49
  {
    RunIsOk(cfg, workers, run, events, k);
    var db, worker := run[k].db, run[k].workers[w];
    assert WorkerOk(cfg, db, worker);
    AtRiskBound(cfg.pool, worker.rows, worker.page);
    CalledAreAtRisk(cfg, db, worker);
    T.SmallerSet(CalledInVain(db, worker), AtRisk(worker.page));
  }

  lemma CalledAreAtRisk(cfg: Settings, db: Db, worker: Worker)
    requires worker.Paging? && PageOk(cfg, db, worker.rows, worker.page)
    ensures CalledInVain(db, worker) <= AtRisk(worker.page)
  {
    assert I.Recorded(cfg.pool, worker.rows, worker.page.pool);
  }
}
