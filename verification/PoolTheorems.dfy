// What holds of every schedule of the pool, whatever the backend answers.
module PoolTheorems {
  import opened Rows
  import opened Pool
  import opened PoolInvariants
  import opened Permutations

  // ---- The abort flag bounds the calls made after it ----

  // Past the abort check, before the first call.
  ghost function Poised(s: State): set<nat> {
    set row: nat | row < |s.tasks| && s.tasks[row].Admitted?
  }

  ghost predicate LateBound(cfg: Config, s: State) {
    if s.abortEvent then |s.late + Poised(s)| < cfg.maxWorkers else s.late == {}
  }

  lemma SmallerSet<T>(a: set<T>, b: set<T>)
    requires a <= b
    ensures |a| <= |b|
  {
    assert b == a + (b - a);
  }

  // The generator's own steps call nobody and admit nobody.
  lemma GeneratorReachesNobody(cfg: Config, inputs: seq<LLMInput>, s: State, l: Label)
    requires !l.Worker() && GeneratorCan(cfg, inputs, s, l)
    ensures
      var s' := GeneratorDo(cfg, inputs, s, l);
      && s'.called == s.called
      && Poised(s') == Poised(s)
      && s'.late == s.late
      && s'.abortEvent == s.abortEvent
  {
    var s' := GeneratorDo(cfg, inputs, s, l);
    if l.Submit? || l.Cancel? {
      assert forall row: nat :: row < |s.tasks| ==>
        s'.tasks[row] == s.tasks[row] || (s.tasks[row].Queued? && s'.tasks[row].Cancelled?);
    } else {
      assert s'.tasks == s.tasks;
    }
  }

  // Once the flag is up no worker thread passes the check, so nobody new gets close to a call.
  lemma WorkerAfterAbort(cfg: Config, inputs: seq<LLMInput>, s: State, l: Label)
    requires l.Worker() && WorkerCan(cfg, inputs, s, l) && s.abortEvent
    ensures
      var s' := WorkerDo(cfg, inputs, s, l);
      && s'.called + Poised(s') <= s.called + Poised(s)
      && s'.late + Poised(s') <= s.late + Poised(s)
  {
    WorkerFrame(cfg, inputs, s, l);
  }

  lemma BusyInFlight(cfg: Config, inputs: seq<LLMInput>, s: State)
    requires Shape(cfg, inputs, s)
    ensures cfg.maxWorkers >= 1 && |s.inFlight| <= cfg.maxWorkers
    ensures forall row :: 0 <= row < |s.tasks| && s.tasks[row].Busy() ==> row in s.inFlight
  {
  }

  // The step that raises the flag, and those before it, make no late call.
  lemma WorkerBeforeAbort(cfg: Config, inputs: seq<LLMInput>, s: State, l: Label)
    requires l.Worker() && WorkerCan(cfg, inputs, s, l) && !s.abortEvent
    ensures
      var s' := WorkerDo(cfg, inputs, s, l);
      && s'.late == s.late
      && (s'.abortEvent ==> s.tasks[l.row].Busy() && l.row !in Poised(s') && Poised(s') <= Poised(s))
  {
  }

  lemma LateBoundKept(cfg: Config, inputs: seq<LLMInput>, s: State, l: Label)
    requires Shape(cfg, inputs, s) && LateBound(cfg, s) && Can(cfg, inputs, s, l)
    ensures LateBound(cfg, Do(cfg, inputs, s, l))
  {
    hide Shape, GeneratorDo, GeneratorCan, WorkerDo;
    var s' := Do(cfg, inputs, s, l);
    BusyInFlight(cfg, inputs, s);
    if !l.Worker() {
      GeneratorReachesNobody(cfg, inputs, s, l);
    } else if s.abortEvent {
      WorkerFrame(cfg, inputs, s, l);
      WorkerAfterAbort(cfg, inputs, s, l);
      SmallerSet(s'.late + Poised(s'), s.late + Poised(s));
    } else {
      WorkerBeforeAbort(cfg, inputs, s, l);
      if s'.abortEvent {
        SmallerSet(Poised(s'), s.inFlight - {l.row});
        assert s'.late + Poised(s') == Poised(s');
      }
    }
  }

  // ---- A backend that refuses every call stops the page ----

  // Every call the backend can make ends in an error that aborts the batch.
  ghost predicate AlwaysAborts(cfg: Config) {
    forall input, attempt, answer :: cfg.may(input, attempt, answer) ==>
      answer.Failure? && answer.disposition.ABORT_BATCH?
  }

  ghost predicate StrikeBound(cfg: Config, s: State) {
    if s.abortEvent then |s.called + Poised(s)| <= cfg.maxWorkers
    else forall row :: row in s.called ==> row < |s.tasks| && (s.tasks[row].InCall? || s.tasks[row].Aborting?)
  }

  // Before the flag goes up, a row once called stays at its call, or is about to raise it.
  lemma CalledBeforeAbort(cfg: Config, inputs: seq<LLMInput>, s: State, l: Label)
    requires AlwaysAborts(cfg) && StrikeBound(cfg, s) && l.Worker() && WorkerCan(cfg, inputs, s, l) && !s.abortEvent
    ensures
      var s' := WorkerDo(cfg, inputs, s, l);
      && (forall row :: row in s'.called ==> row < |s.tasks| && s.tasks[row].Busy())
      && (!s'.abortEvent ==> StrikeBound(cfg, s'))
  {
  }

  lemma GeneratorKeepsStrikeBound(cfg: Config, inputs: seq<LLMInput>, s: State, l: Label)
    requires StrikeBound(cfg, s) && !l.Worker() && GeneratorCan(cfg, inputs, s, l)
    ensures StrikeBound(cfg, GeneratorDo(cfg, inputs, s, l))
  {
    GeneratorReachesNobody(cfg, inputs, s, l);
    GeneratorLeavesBusy(cfg, inputs, s, l);
    hide GeneratorCan, GeneratorDo, Poised;
  }

  lemma PoisedInFlight(cfg: Config, inputs: seq<LLMInput>, s: State)
    requires Shape(cfg, inputs, s)
    ensures Poised(s) <= s.inFlight
  {
    hide Shape;
    BusyInFlight(cfg, inputs, s);
  }

  lemma StrikeBoundKept(cfg: Config, inputs: seq<LLMInput>, s: State, l: Label)
    requires AlwaysAborts(cfg)
    requires Shape(cfg, inputs, s) && StrikeBound(cfg, s) && Can(cfg, inputs, s, l)
    ensures StrikeBound(cfg, Do(cfg, inputs, s, l))
  {
    var s' := Do(cfg, inputs, s, l);
    BusyInFlight(cfg, inputs, s);
    PoisedInFlight(cfg, inputs, s);
    hide Shape, AlwaysAborts, GeneratorDo, GeneratorCan, WorkerDo, WorkerCan, Poised;
    if !l.Worker() {
      GeneratorKeepsStrikeBound(cfg, inputs, s, l);
    } else if s.abortEvent {
      WorkerFrame(cfg, inputs, s, l);
      WorkerAfterAbort(cfg, inputs, s, l);
      SmallerSet(s'.called + Poised(s'), s.called + Poised(s));
    } else {
      CalledBeforeAbort(cfg, inputs, s, l);
      WorkerBeforeAbort(cfg, inputs, s, l);
      if s'.abortEvent {
        SmallerSet(s'.called + Poised(s'), s.inFlight);
      }
    }
  }

  lemma GeneratorLeavesBusy(cfg: Config, inputs: seq<LLMInput>, s: State, l: Label)
    requires !l.Worker() && GeneratorCan(cfg, inputs, s, l)
    ensures
      var s' := GeneratorDo(cfg, inputs, s, l);
      forall row :: 0 <= row < |s.tasks| && s.tasks[row].Busy() && !s.tasks[row].Queued? ==>
        row < |s'.tasks| && s'.tasks[row] == s.tasks[row]
  {
  }

  // ---- Every state of every run ----

  ghost predicate Sound(cfg: Config, inputs: seq<LLMInput>, s: State) {
    && Shape(cfg, inputs, s)
    && Conserved(inputs, s)
    && Sourced(cfg, inputs, s)
    && LateBound(cfg, s)
  }

  lemma SoundInitially(cfg: Config, inputs: seq<LLMInput>)
    requires cfg.Valid()
    ensures Sound(cfg, inputs, INITIAL)
  {
    assert Range(|INITIAL.tasks|, |inputs|) == Range(0, |inputs|);
  }

  lemma SoundKept(cfg: Config, inputs: seq<LLMInput>, s: State, l: Label)
    requires Sound(cfg, inputs, s) && Can(cfg, inputs, s, l)
    ensures Sound(cfg, inputs, Do(cfg, inputs, s, l))
  {
    ShapeKept(cfg, inputs, s, l);
    ConservedKept(cfg, inputs, s, l);
    SourcedKept(cfg, inputs, s, l);
    LateBoundKept(cfg, inputs, s, l);
  }

  lemma {:induction false} RunIsSound(cfg: Config, inputs: seq<LLMInput>, run: seq<State>, schedule: seq<Label>, k: nat)
    requires cfg.Valid() && IsRun(cfg, inputs, run, schedule) && k < |run|
    ensures Sound(cfg, inputs, run[k])
  {
    if k == 0 {
      SoundInitially(cfg, inputs);
    } else {
      RunIsSound(cfg, inputs, run, schedule, k - 1);
      SoundKept(cfg, inputs, run[k - 1], schedule[k - 1]);
    }
  }

  // The generator was consumed to its end.
  ghost predicate Consumed(cfg: Config, inputs: seq<LLMInput>, run: seq<State>, schedule: seq<Label>) {
    cfg.Valid() && IsRun(cfg, inputs, run, schedule) && Last(run).pc.Closed?
  }

  function Results(emitted: seq<Emission>): (results: seq<LLMResult>)
    ensures |results| == |emitted|
  {
    seq(|emitted|, i requires 0 <= i < |emitted| => emitted[i].result)
  }

  // The key of a row's result, by the row's position.
  function KeyAt(inputs: seq<LLMInput>): nat -> (Uuid, Uuid) {
    (row: nat) => if row < |inputs| then (inputs[row].batchId, inputs[row].rowId) else (0, 0)
  }

  lemma KeysOfEmitted(cfg: Config, inputs: seq<LLMInput>, s: State)
    requires Sourced(cfg, inputs, s)
    ensures InputKeys(inputs) == Map(KeyAt(inputs), Range(0, |inputs|))
    ensures ResultKeys(Results(s.emitted)) == Map(KeyAt(inputs), RowsOf(s.emitted))
  {
    forall k | 0 <= k < |s.emitted|
      ensures ResultKeys(Results(s.emitted))[k] == Map(KeyAt(inputs), RowsOf(s.emitted))[k]
    {
      assert EmissionSound(cfg, inputs, s, s.emitted[k]);
    }
  }

  lemma SameKeys(cfg: Config, inputs: seq<LLMInput>, s: State)
    requires Sourced(cfg, inputs, s)
    requires multiset(RowsOf(s.emitted)) == multiset(Range(0, |inputs|))
    ensures AnswersPage(inputs, Results(s.emitted))
  {
    KeysOfEmitted(cfg, inputs, s);
    MapPermutes(KeyAt(inputs), RowsOf(s.emitted), Range(0, |inputs|));
  }

  // What has been emitted answers part of the page.
  lemma EmittedIsPart(cfg: Config, inputs: seq<LLMInput>, s: State)
    requires Sourced(cfg, inputs, s) && Conserved(inputs, s)
    ensures AnswersPart(inputs, Results(s.emitted))
  {
    KeysOfEmitted(cfg, inputs, s);
    MapOfPart(KeyAt(inputs), RowsOf(s.emitted), Range(0, |inputs|));
  }

  // Exactly once: every schedule that consumes the generator emits every input row once, and
  // its results answer exactly the page's rows.
  lemma ExactlyOnce(cfg: Config, inputs: seq<LLMInput>, run: seq<State>, schedule: seq<Label>)
    requires Consumed(cfg, inputs, run, schedule)
    ensures multiset(RowsOf(Last(run).emitted)) == multiset(Range(0, |inputs|))
    ensures AnswersPage(inputs, Results(Last(run).emitted))
  {
    RunIsSound(cfg, inputs, run, schedule, |run| - 1);
    SameKeys(cfg, inputs, Last(run));
  }

  // At every point of every schedule: at most max_workers futures are unreaped, and exactly
  // that many while the generator waits with rows left to submit; no row has been emitted
  // twice; and fewer than max_workers rows made their first call after the abort.
  lemma AtEveryPoint(cfg: Config, inputs: seq<LLMInput>, run: seq<State>, schedule: seq<Label>, k: nat, row: nat)
    requires cfg.Valid() && IsRun(cfg, inputs, run, schedule) && k < |run|
    ensures |run[k].inFlight| <= cfg.maxWorkers
    ensures run[k].pc.Waiting? && |run[k].tasks| < |inputs| ==> |run[k].inFlight| == cfg.maxWorkers
    ensures multiset(RowsOf(run[k].emitted))[row] <= 1
    ensures run[k].late <= run[k].called && |run[k].late| < cfg.maxWorkers
  {
    RunIsSound(cfg, inputs, run, schedule, k);
    var s := run[k];
    RangeOnce(0, |inputs|, row);
    if s.abortEvent {
      SmallerSet(s.late, s.late + Poised(s));
    }
  }

  lemma {:induction false} RangeOnce(lo: nat, hi: nat, row: nat)
    requires lo <= hi
    ensures multiset(Range(lo, hi))[row] == if lo <= row < hi then 1 else 0
    decreases hi - lo
  {
    if lo < hi {
      RangeOnce(lo + 1, hi, row);
      assert Range(lo, hi) == [lo] + Range(lo + 1, hi);
    }
  }

  // If the backend refuses every call, at most max_workers rows of the page reach it,
  // whatever the other rows hold.
  lemma {:induction false} AbortBound(cfg: Config, inputs: seq<LLMInput>, run: seq<State>, schedule: seq<Label>, k: nat)
    requires cfg.Valid() && AlwaysAborts(cfg) && IsRun(cfg, inputs, run, schedule) && k < |run|
    ensures |run[k].called| <= cfg.maxWorkers
    ensures StrikeBound(cfg, run[k])
  {
    hide Conserved, Sourced, LateBound, Do, Can;
    if k > 0 {
      AbortBound(cfg, inputs, run, schedule, k - 1);
      RunIsSound(cfg, inputs, run, schedule, k - 1);
      StrikeBoundKept(cfg, inputs, run[k - 1], schedule[k - 1]);
    }
    RunIsSound(cfg, inputs, run, schedule, k);
    hide Shape;
    BusyInFlight(cfg, inputs, run[k]);
    if run[k].abortEvent {
      SmallerSet(run[k].called, run[k].called + Poised(run[k]));
    } else {
      SmallerSet(run[k].called, run[k].inFlight);
    }
  }

  // ---- Where each result came from ----

  // A row the backend was called for: all its calls but the last were answered with an error
  // worth a retry, and the result says what the last, which was not or left no attempt for
  // one, was answered.
  ghost predicate FromBackend(cfg: Config, input: LLMInput, s: State, e: Emission) {
    && e.row in s.called
    && Decode(cfg.loads, input).Request?
    && exists g :: Settles(cfg, s.answers, g) && g.row == e.row && Says(input, e.result, g.answer)
  }

  predicate FromParser(cfg: Config, input: LLMInput, result: LLMResult) {
    Decode(cfg.loads, input).Rejected? && Fails(input, result, Decode(cfg.loads, input).error)
  }

  lemma ParserErrors(cfg: Config, input: LLMInput)
    requires Decode(cfg.loads, input).Rejected?
    ensures !Decode(cfg.loads, input).error.BatchAborted? && !Decode(cfg.loads, input).error.Backend?
  {
  }

  // What an emission's label says is true of the calls.
  lemma EmissionRecorded(cfg: Config, inputs: seq<LLMInput>, s: State, k: nat)
    requires Sourced(cfg, inputs, s) && k < |s.emitted|
    ensures
      var e := s.emitted[k];
      && e.row < |inputs|
      && ResultSound(cfg, inputs[e.row], e.result, e.origin)
      && (if e.origin.Answered? || e.origin.Struck?
          then e.row in s.called && SettledAs(cfg, inputs[e.row], e.row, e.result, e.origin.Struck?, s.answers)
          else e.row !in s.called)
  {
    hide ResultSound, SettledAs, GivenSound, TaskSound;
    var e := s.emitted[k];
    assert EmissionSound(cfg, inputs, s, e);
    if e.row < |s.tasks| {
      assert TaskRecorded(cfg, inputs[e.row], e.row, s.tasks[e.row], s.called, s.answers);
    }
  }

  lemma ResultSays(input: LLMInput, answer: Answer)
    ensures Says(input, ResultOf(input, answer), answer)
  {
  }

  // The emissions of any state are of three kinds, and each of exactly one: aborted, and the
  // backend was never called for its row; refused by the parser, and never called either; or
  // called.
  lemma EmissionKinds(cfg: Config, inputs: seq<LLMInput>, s: State, k: nat)
    requires Sourced(cfg, inputs, s) && k < |s.emitted|
    ensures
      var e := s.emitted[k];
      && e.row < |inputs|
      && (if e.row in s.called
          then FromBackend(cfg, inputs[e.row], s, e) && !e.result.error.BatchAborted?
          else if e.result.error.BatchAborted?
          then Fails(inputs[e.row], e.result, BatchAborted) && e.origin.Skipped?
          else FromParser(cfg, inputs[e.row], e.result))
  {
    var e := s.emitted[k];
    EmissionRecorded(cfg, inputs, s, k);
    var input := inputs[e.row];
    hide Sourced, Settles, RetriedUntil;
    if e.origin.Answered? || e.origin.Struck? {
      var g :| Settles(cfg, s.answers, g) && g.row == e.row && e.result == ResultOf(input, g.answer);
      ResultSays(input, g.answer);
    } else if e.origin.Refused? {
      ParserErrors(cfg, input);
    }
  }

  // So every row of a consumed page is aborted or refused, failed and never called; or called,
  // with the answer that settled it.
  lemma CallsPartition(cfg: Config, inputs: seq<LLMInput>, run: seq<State>, schedule: seq<Label>, k: nat)
    requires Consumed(cfg, inputs, run, schedule) && k < |Last(run).emitted|
    ensures
      var s, e := Last(run), Last(run).emitted[k];
      && e.row < |inputs|
      && (if e.row in s.called
          then FromBackend(cfg, inputs[e.row], s, e) && !e.result.error.BatchAborted?
          else if e.result.error.BatchAborted?
          then Fails(inputs[e.row], e.result, BatchAborted)
          else FromParser(cfg, inputs[e.row], e.result))
  {
    RunIsSound(cfg, inputs, run, schedule, |run| - 1);
    EmissionKinds(cfg, inputs, Last(run), k);
  }

  // A called row whose last answer was a reply is complete and holds it; one whose last answer
  // was an error is failed and holds that.
  lemma AnswersArrive(
    cfg: Config, inputs: seq<LLMInput>, run: seq<State>, schedule: seq<Label>, k: nat, g: Given)
    requires Consumed(cfg, inputs, run, schedule) && k < |Last(run).emitted|
    requires Settles(cfg, Last(run).answers, g) && g.row == Last(run).emitted[k].row
    ensures
      var result := Last(run).emitted[k].result;
      && g.row < |inputs|
      && result.batchId == inputs[g.row].batchId
      && result.rowId == inputs[g.row].rowId
      && match g.answer
         case Reply(text) => result.status.Complete? && result.response == text && result.error == NoError
         case Failure(text, _) => result.status.Failed? && result.response == "" && result.error == Backend(text)
  {
    RunIsSound(cfg, inputs, run, schedule, |run| - 1);
    var s, e := Last(run), Last(run).emitted[k];
    EmissionKinds(cfg, inputs, s, k);
    assert GivenSound(cfg, inputs, s.called, g);
    var g' :| Settles(cfg, s.answers, g') && g'.row == e.row && Says(inputs[e.row], e.result, g'.answer);
    CallsAreReal(cfg, inputs, run, schedule, |run| - 1, g, g');
  }

  // Every call recorded was made for a row of the page, within its attempts, and got an answer
  // the backend can give; one of a row's answers at most settles it.
  lemma CallsAreReal(
    cfg: Config, inputs: seq<LLMInput>, run: seq<State>, schedule: seq<Label>, k: nat, g: Given, g': Given)
    requires cfg.Valid() && IsRun(cfg, inputs, run, schedule) && k < |run|
    requires g in run[k].answers && g' in run[k].answers && g.row == g'.row
    ensures GivenSound(cfg, inputs, run[k].called, g)
    ensures Settles(cfg, run[k].answers, g) && Settles(cfg, run[k].answers, g') ==> g == g'
  {
    RunIsSound(cfg, inputs, run, schedule, k);
    assert Recorded(cfg, inputs, run[k]);
    hide GivenSound;
    assert g != g' ==> g' in run[k].answers - {g} && g in run[k].answers - {g'};
  }

  // The flag is up once a row has been reported as aborted.
  lemma AbortedUnderFlag(cfg: Config, inputs: seq<LLMInput>, s: State, k: nat)
    requires Sourced(cfg, inputs, s) && k < |s.emitted| && s.emitted[k].origin.Skipped?
    ensures s.abortEvent
  {
    hide ResultSound, Recorded;
    var e := s.emitted[k];
    assert EmissionSound(cfg, inputs, s, e);
    if e.row < |s.tasks| && s.tasks[e.row].Finished? {
      assert TaskSound(cfg, inputs[e.row], s.tasks[e.row], s.abortEvent);
    }
  }

  // A row that struck has been emitted with the error that struck it.
  lemma StrikeIsEmitted(cfg: Config, inputs: seq<LLMInput>, s: State) returns (cause: nat)
    requires Sourced(cfg, inputs, s) && s.abortEvent
    requires multiset(RowsOf(s.emitted)) == multiset(Range(0, |inputs|))
    ensures cause < |s.emitted| && s.emitted[cause].origin.Struck?
  {
    hide ResultSound, TaskSound, Recorded;
    var row: nat :| row < |s.tasks| && s.tasks[row].Finished? && s.tasks[row].origin.Struck?;
    RangeOnce(0, |inputs|, row);
    assert row in multiset(RowsOf(s.emitted));
    cause :| 0 <= cause < |s.emitted| && RowsOf(s.emitted)[cause] == row;
    assert EmissionSound(cfg, inputs, s, s.emitted[cause]);
  }

  lemma StrikeOf(cfg: Config, inputs: seq<LLMInput>, s: State, cause: nat) returns (attempt: nat, text: string)
    requires Sourced(cfg, inputs, s) && cause < |s.emitted| && s.emitted[cause].origin.Struck?
    ensures
      var row := s.emitted[cause].row;
      && row < |inputs|
      && Given(row, attempt, Failure(text, ABORT_BATCH)) in s.answers
      && cfg.may(inputs[row], attempt, Failure(text, ABORT_BATCH))
      && Fails(inputs[row], s.emitted[cause].result, Backend(text))
  {
    var e := s.emitted[cause];
    EmissionRecorded(cfg, inputs, s, cause);
    var g :| Settles(cfg, s.answers, g) && g.row == e.row
      && e.result == ResultOf(inputs[e.row], g.answer) && IsStrike(g.answer);
    assert GivenSound(cfg, inputs, s.called, g);
    attempt, text := g.attempt, g.answer.text;
  }

  // An aborted row exists only beside a row of the same page whose call the backend answered
  // with an error that aborts the batch, and which was emitted with that error.
  lemma AbortHasItsCause(cfg: Config, inputs: seq<LLMInput>, run: seq<State>, schedule: seq<Label>, k: nat)
      returns (cause: nat, attempt: nat, text: string)
    requires Consumed(cfg, inputs, run, schedule)
    requires k < |Last(run).emitted| && Last(run).emitted[k].result.error.BatchAborted?
    ensures cause < |Last(run).emitted|
    ensures
      var s, row := Last(run), Last(run).emitted[cause].row;
      && row < |inputs|
      && Given(row, attempt, Failure(text, ABORT_BATCH)) in s.answers
      && cfg.may(inputs[row], attempt, Failure(text, ABORT_BATCH))
      && Fails(inputs[row], s.emitted[cause].result, Backend(text))
    ensures Last(run).emitted[cause].origin.Struck?
  {
    var s := Last(run);
    RunIsSound(cfg, inputs, run, schedule, |run| - 1);
    ExactlyOnce(cfg, inputs, run, schedule);
    EmissionRecorded(cfg, inputs, s, k);
    hide Shape, Conserved, Sourced, LateBound;
    if Decode(cfg.loads, inputs[s.emitted[k].row]).Rejected? {
      ParserErrors(cfg, inputs[s.emitted[k].row]);
    }
    AbortedUnderFlag(cfg, inputs, s, k);
    cause := StrikeIsEmitted(cfg, inputs, s);
    attempt, text := StrikeOf(cfg, inputs, s, cause);
  }
}
