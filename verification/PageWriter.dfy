// _write_results_in_chunks consuming process_batch_iter (src/llm_worker/main.py): the
// generator only moves while the writer asks for the next result, the pool's threads
// move at any time, and every write may fail with or without its rows having landed.
module PageWriter {
  import opened Rows
  import opened Pool
  import opened PoolInvariants
  import opened PoolTheorems

  const RESULT_WRITE_BATCH_SIZE: nat := 50
  const RESULT_WRITE_MAX_ATTEMPTS: nat := 3
  const BATCH_STATUS_WRITE_MAX_ATTEMPTS: nat := 3

  datatype Writer =
    | Reading
    | Writing(attempt: nat)
    | Escaped   // the last attempt failed; the generator is closed, its results are lost
    | Returned

  // `chunks` are the chunks whose write succeeded, `landed` every row known to the table.
  datatype Page = Page(
    pool: State, writer: Writer, pending: seq<Emission>, chunks: seq<seq<Emission>>, landed: set<nat>)

  const OPENING := Page(INITIAL, Reading, [], [], {})

  datatype Move =
    | Thread(l: Label)     // a pool thread
    | Next(l: Label)       // the generator, on behalf of the `for` loop
    | Exhausted            // the generator has returned
    | WriteSucceeds
    | WriteFails(landed: bool)

  predicate CanMove(cfg: Config, inputs: seq<LLMInput>, p: Page, m: Move) {
    match m
    case Thread(l) => l.Worker() && WorkerCan(cfg, inputs, p.pool, l)
    case Next(l) => p.writer.Reading? && !l.Worker() && GeneratorCan(cfg, inputs, p.pool, l)
    case Exhausted => p.writer.Reading? && p.pool.pc.Closed?
    case WriteSucceeds => p.writer.Writing?
    case WriteFails(_) => p.writer.Writing?
  }

  function RowSet(emitted: seq<Emission>): set<nat> {
    set i | 0 <= i < |emitted| :: emitted[i].row
  }

  // The loop body: collect a result, and start a write when the chunk is full.
  function Collect(p: Page, pool: State): Page
    requires pool.emitted != []
  {
    var pending := p.pending + [Last(pool.emitted)];
    p.(pool := pool, pending := pending, writer := if |pending| >= RESULT_WRITE_BATCH_SIZE then Writing(1) else Reading)
  }

  function Moved(cfg: Config, inputs: seq<LLMInput>, p: Page, m: Move): Page
    requires CanMove(cfg, inputs, p, m)
  {
    match m
    case Thread(l) => p.(pool := WorkerDo(cfg, inputs, p.pool, l))
    case Next(l) =>
      var pool := GeneratorDo(cfg, inputs, p.pool, l);
      if |pool.emitted| > |p.pool.emitted| then Collect(p, pool) else p.(pool := pool)
    case Exhausted => p.(writer := if p.pending != [] then Writing(1) else Returned)
    case WriteSucceeds =>
      p.(writer := if p.pool.pc.Closed? then Returned else Reading,
         chunks := p.chunks + [p.pending], pending := [], landed := p.landed + RowSet(p.pending))
    case WriteFails(landed) =>
      p.(writer := if p.writer.attempt < RESULT_WRITE_MAX_ATTEMPTS then Writing(p.writer.attempt + 1) else Escaped,
         landed := if landed then p.landed + RowSet(p.pending) else p.landed)
  }

  ghost predicate IsPageRun(cfg: Config, inputs: seq<LLMInput>, pages: seq<Page>, moves: seq<Move>) {
    && |pages| == |moves| + 1
    && pages[0] == OPENING
    && forall k :: 0 <= k < |moves| ==>
         CanMove(cfg, inputs, pages[k], moves[k]) && pages[k + 1] == Moved(cfg, inputs, pages[k], moves[k])
  }

  // ---- What every move keeps ----

  function Flatten<T>(chunks: seq<seq<T>>): seq<T> {
    if chunks == [] then [] else Flatten(chunks[..|chunks| - 1]) + Last(chunks)
  }

  // A submitted row is in flight until it has been emitted.
  predicate Held(s: State) {
    forall row: nat :: row < |s.tasks| ==> row in s.inFlight || row in RowSet(s.emitted)
  }

  predicate FullBut(chunks: seq<seq<Emission>>, spare: nat) {
    forall i :: 0 <= i < |chunks| ==>
      1 <= |chunks[i]| <= RESULT_WRITE_BATCH_SIZE && (i + spare < |chunks| ==> |chunks[i]| == RESULT_WRITE_BATCH_SIZE)
  }

  ghost predicate Orderly(cfg: Config, p: Page) {
    && Flatten(p.chunks) + p.pending == p.pool.emitted
    && FullBut(p.chunks, if p.writer.Returned? then 1 else 0)
    && RowSet(Flatten(p.chunks)) <= p.landed
    && match p.writer
       case Reading => |p.pending| < RESULT_WRITE_BATCH_SIZE
       case Returned => p.pending == [] && p.pool.pc.Closed?
       case _ =>
         && 1 <= |p.pending| <= RESULT_WRITE_BATCH_SIZE
         && (p.pool.pc.Closed? || |p.pending| == RESULT_WRITE_BATCH_SIZE)
         && |p.pool.inFlight| < cfg.maxWorkers
  }

  ghost predicate PageSound(cfg: Config, inputs: seq<LLMInput>, p: Page) {
    Shape(cfg, inputs, p.pool) && Held(p.pool) && Orderly(cfg, p)
  }

  lemma RowSetGrows(emitted: seq<Emission>, e: Emission)
    ensures RowSet(emitted + [e]) == RowSet(emitted) + {e.row}
  {
    var longer := emitted + [e];
    assert forall i :: 0 <= i < |emitted| ==> longer[i] == emitted[i];
    assert longer[|emitted|] == e;
    forall row | row in RowSet(emitted) + {e.row}
      ensures row in RowSet(longer)
    {
      if row in RowSet(emitted) {
        var i :| 0 <= i < |emitted| && emitted[i].row == row;
        assert longer[i].row == row;
      }
    }
  }

  lemma RowSetJoins(a: seq<Emission>, b: seq<Emission>)
    ensures RowSet(a + b) == RowSet(a) + RowSet(b)
  {
    if b == [] {
      assert a + b == a;
    } else {
      var rest := b[..|b| - 1];
      RowSetJoins(a, rest);
      RowSetGrows(a + rest, Last(b));
      RowSetGrows(rest, Last(b));
      assert (a + rest) + [Last(b)] == a + b && rest + [Last(b)] == b;
    }
  }

  // A generator step yields at most one result, and yields only with a free slot.
  lemma YieldsOne(cfg: Config, inputs: seq<LLMInput>, s: State, l: Label)
    requires Shape(cfg, inputs, s) && !l.Worker() && GeneratorCan(cfg, inputs, s, l)
    ensures
      var s' := GeneratorDo(cfg, inputs, s, l);
      if Emits(s, l) then s'.emitted == s.emitted + [Last(s'.emitted)] && |s'.inFlight| < cfg.maxWorkers
      else s'.emitted == s.emitted
  {
    if l.Reap? {
      assert |s.inFlight - {l.row}| == |s.inFlight| - 1;
    }
  }

  lemma HeldKept(cfg: Config, inputs: seq<LLMInput>, s: State, l: Label)
    requires Shape(cfg, inputs, s) && Held(s) && Can(cfg, inputs, s, l)
    ensures Held(Do(cfg, inputs, s, l))
  {
    if l.Worker() {
      WorkerFrame(cfg, inputs, s, l);
    } else if Emits(s, l) {
      YieldsOne(cfg, inputs, s, l);
      RowSetGrows(s.emitted, Last(GeneratorDo(cfg, inputs, s, l).emitted));
    } else {
      YieldsOne(cfg, inputs, s, l);
    }
  }

  lemma NextKeepsOrder(cfg: Config, inputs: seq<LLMInput>, p: Page, l: Label)
    requires PageSound(cfg, inputs, p) && CanMove(cfg, inputs, p, Next(l))
    ensures Orderly(cfg, Moved(cfg, inputs, p, Next(l)))
  {
    var pool := GeneratorDo(cfg, inputs, p.pool, l);
    YieldsOne(cfg, inputs, p.pool, l);
    if Emits(p.pool, l) {
      assert Flatten(p.chunks) + (p.pending + [Last(pool.emitted)]) == pool.emitted;
    }
  }

  lemma WriteKeepsOrder(cfg: Config, inputs: seq<LLMInput>, p: Page, m: Move)
    requires PageSound(cfg, inputs, p) && CanMove(cfg, inputs, p, m) && !m.Next? && !m.Thread?
    ensures Orderly(cfg, Moved(cfg, inputs, p, m))
  {
    if m.WriteSucceeds? {
      assert (p.chunks + [p.pending])[..|p.chunks|] == p.chunks;
      RowSetJoins(Flatten(p.chunks), p.pending);
    }
  }

  lemma PageSoundKept(cfg: Config, inputs: seq<LLMInput>, p: Page, m: Move)
    requires PageSound(cfg, inputs, p) && CanMove(cfg, inputs, p, m)
    ensures PageSound(cfg, inputs, Moved(cfg, inputs, p, m))
  {
    match m
    case Thread(l) =>
      ShapeKept(cfg, inputs, p.pool, l);
      HeldKept(cfg, inputs, p.pool, l);
      WorkerFrame(cfg, inputs, p.pool, l);
    case Next(l) =>
      ShapeKept(cfg, inputs, p.pool, l);
      HeldKept(cfg, inputs, p.pool, l);
      NextKeepsOrder(cfg, inputs, p, l);
    case _ =>
      WriteKeepsOrder(cfg, inputs, p, m);
  }

  lemma {:induction false} PageRunIsSound(
    cfg: Config, inputs: seq<LLMInput>, pages: seq<Page>, moves: seq<Move>, k: nat)
    requires cfg.Valid() && IsPageRun(cfg, inputs, pages, moves) && k < |pages|
    ensures PageSound(cfg, inputs, pages[k])
  {
    if k > 0 {
      PageRunIsSound(cfg, inputs, pages, moves, k - 1);
      PageSoundKept(cfg, inputs, pages[k - 1], moves[k - 1]);
    }
  }

  // ---- The bound on repeated work ----

  // Rows handed to the pool whose result is not in the table: what a restart calls again.
  ghost function AtRisk(p: Page): set<nat> {
    set row: nat | row < |p.pool.tasks| && row !in p.landed
  }

  lemma {:induction false} RowSetIsShort(emitted: seq<Emission>)
    ensures |RowSet(emitted)| <= |emitted|
  {
    if emitted != [] {
      var rest := emitted[..|emitted| - 1];
      RowSetIsShort(rest);
      RowSetGrows(rest, Last(emitted));
      assert rest + [Last(emitted)] == emitted;
    }
  }

  lemma AtRiskBound(cfg: Config, inputs: seq<LLMInput>, p: Page)
    requires PageSound(cfg, inputs, p)
    ensures |AtRisk(p)| <= cfg.maxWorkers + (RESULT_WRITE_BATCH_SIZE - 1)
  {
    RowSetJoins(Flatten(p.chunks), p.pending);
    SmallerSet(AtRisk(p), p.pool.inFlight + RowSet(p.pending));
    RowSetIsShort(p.pending);
    assert |p.pool.inFlight + RowSet(p.pending)| <= |p.pool.inFlight| + |RowSet(p.pending)|;
  }

  // Wherever the worker dies or gives up, at most max_workers + 49 submitted rows are lost.
  lemma LostWorkBound(cfg: Config, inputs: seq<LLMInput>, pages: seq<Page>, moves: seq<Move>, k: nat)
    requires cfg.Valid() && IsPageRun(cfg, inputs, pages, moves) && k < |pages|
    ensures |AtRisk(pages[k])| <= cfg.maxWorkers + 49
  {
    PageRunIsSound(cfg, inputs, pages, moves, k);
    AtRiskBound(cfg, inputs, pages[k]);
  }

  // ---- Giving up ----

  // How many writes have failed since the last one that did not, or since a result was taken.
  function FailuresInARow(moves: seq<Move>): nat {
    if moves == [] then 0
    else match Last(moves)
      case Thread(_) => FailuresInARow(moves[..|moves| - 1])
      case WriteFails(_) => FailuresInARow(moves[..|moves| - 1]) + 1
      case _ => 0
  }

  // A chunk is sent until it is written, or three writes of it have failed: then, and only
  // then, the error escapes.
  lemma {:induction false} GivesUpAfterThree(
    cfg: Config, inputs: seq<LLMInput>, pages: seq<Page>, moves: seq<Move>, k: nat)
    requires IsPageRun(cfg, inputs, pages, moves) && k < |pages|
    ensures pages[k].writer.Escaped? <==> FailuresInARow(moves[..k]) == 3
    ensures pages[k].writer.Writing? ==> FailuresInARow(moves[..k]) == pages[k].writer.attempt - 1 < 3
    ensures pages[k].writer.Reading? || pages[k].writer.Returned? ==> FailuresInARow(moves[..k]) == 0
  {
    if k > 0 {
      GivesUpAfterThree(cfg, inputs, pages, moves, k - 1);
      assert moves[..k][..k - 1] == moves[..k - 1] && Last(moves[..k]) == moves[k - 1];
      hide WorkerCan, WorkerDo, GeneratorCan, GeneratorDo;
    }
  }

  // ---- A page that ends well ----

  // The pool's part of a page run is a run of the pool.
  lemma {:induction false} PoolPart(cfg: Config, inputs: seq<LLMInput>, pages: seq<Page>, moves: seq<Move>)
      returns (run: seq<State>, schedule: seq<Label>)
    requires IsPageRun(cfg, inputs, pages, moves)
    ensures IsRun(cfg, inputs, run, schedule) && Last(run) == Last(pages).pool
    decreases |moves|
  {
    if moves == [] {
      run, schedule := [INITIAL], [];
    } else {
      var n := |moves| - 1;
      run, schedule := PoolPart(cfg, inputs, pages[..n + 1], moves[..n]);
      var m := moves[n];
      if m.Thread? || m.Next? {
        var l := m.l;
        run, schedule := run + [Do(cfg, inputs, Last(run), l)], schedule + [l];
      }
    }
  }

  // When the loop returns, the chunks written are the generator's results in order, none is
  // empty or over 50, only the last is under 50, and together they answer every row of the
  // page once.
  lemma ReturnedPageIsComplete(cfg: Config, inputs: seq<LLMInput>, pages: seq<Page>, moves: seq<Move>)
    requires cfg.Valid() && IsPageRun(cfg, inputs, pages, moves) && Last(pages).writer.Returned?
    ensures Flatten(Last(pages).chunks) == Last(pages).pool.emitted
    ensures
      var chunks := Last(pages).chunks;
      forall i :: 0 <= i < |chunks| ==> 1 <= |chunks[i]| <= 50 && (i + 1 < |chunks| ==> |chunks[i]| == 50)
    ensures AnswersPage(inputs, Results(Flatten(Last(pages).chunks)))
  {
    PageRunIsSound(cfg, inputs, pages, moves, |pages| - 1);
    var run, schedule := PoolPart(cfg, inputs, pages, moves);
    ExactlyOnce(cfg, inputs, run, schedule);
  }
}
