// The pool against the sequential program: when the backend is a function of the row and
// the attempt, the schedule only decides the order.
module PoolRefinement {
  import opened Rows
  import opened Pool
  import opened PoolInvariants
  import opened PoolTheorems
  import opened Permutations

  type Backend = (LLMInput, nat) -> Answer

  ghost predicate Determined(cfg: Config, backend: Backend) {
    forall input, attempt, answer :: cfg.may(input, attempt, answer) ==> answer == backend(input, attempt)
  }

  // _complete_with_retry and the handlers around it, from a given attempt on.
  function CompleteFrom(cfg: Config, backend: Backend, input: LLMInput, attempt: nat): (LLMResult, Origin)
    decreases if attempt < cfg.maxAttempts then cfg.maxAttempts - attempt else 0
  {
    match backend(input, attempt)
    case Reply(response) => (CompleteResult(input, response), Answered)
    case Failure(text, disposition) =>
      match disposition
      case RETRY =>
        if attempt < cfg.maxAttempts then CompleteFrom(cfg, backend, input, attempt + 1)
        else (FailedResult(input, RowError.Backend(text)), Answered)
      case ABORT_BATCH => (FailedResult(input, RowError.Backend(text)), Struck)
      case FAIL_ROW => (FailedResult(input, RowError.Backend(text)), Answered)
  }

  // invoke, run alone with the abort event clear.
  function Invoke(cfg: Config, backend: Backend, input: LLMInput): (LLMResult, Origin) {
    match Decode(cfg.loads, input)
    case Rejected(error) => (FailedResult(input, error), Refused)
    case Request(_) => CompleteFrom(cfg, backend, input, 1)
  }

  // ---- Each task is somewhere along the sequential run of its row ----

  predicate Along(cfg: Config, backend: Backend, input: LLMInput, task: Task) {
    match task
    case InCall(attempt) => CompleteFrom(cfg, backend, input, attempt) == Invoke(cfg, backend, input)
    case Aborting(text) => Invoke(cfg, backend, input) == (FailedResult(input, RowError.Backend(text)), Struck)
    case Finished(result, origin) => origin.Skipped? || Invoke(cfg, backend, input) == (result, origin)
    case _ => true
  }

  ghost predicate AllAlong(cfg: Config, backend: Backend, inputs: seq<LLMInput>, s: State) {
    |s.tasks| <= |inputs| && forall row :: 0 <= row < |s.tasks| ==> Along(cfg, backend, inputs[row], s.tasks[row])
  }

  lemma AllAlongKept(cfg: Config, backend: Backend, inputs: seq<LLMInput>, s: State, l: Label)
    requires Determined(cfg, backend) && AllAlong(cfg, backend, inputs, s) && Can(cfg, inputs, s, l)
    ensures AllAlong(cfg, backend, inputs, Do(cfg, inputs, s, l))
  {
    if l.Worker() {
      WorkerFrame(cfg, inputs, s, l);
      WorkerStaysAlong(cfg, backend, inputs, s, l);
    }
  }

  lemma WorkerStaysAlong(cfg: Config, backend: Backend, inputs: seq<LLMInput>, s: State, l: Label)
    requires Determined(cfg, backend) && AllAlong(cfg, backend, inputs, s) && l.Worker() && WorkerCan(cfg, inputs, s, l)
    ensures l.row < |WorkerDo(cfg, inputs, s, l).tasks|
    ensures Along(cfg, backend, inputs[l.row], WorkerDo(cfg, inputs, s, l).tasks[l.row])
  {
    assert Along(cfg, backend, inputs[l.row], s.tasks[l.row]);
  }

  lemma {:induction false} RunStaysAlong(
    cfg: Config, backend: Backend, inputs: seq<LLMInput>, run: seq<State>, schedule: seq<Label>, k: nat)
    requires Determined(cfg, backend) && IsRun(cfg, inputs, run, schedule) && k < |run|
    ensures AllAlong(cfg, backend, inputs, run[k])
  {
    if k > 0 {
      RunStaysAlong(cfg, backend, inputs, run, schedule, k - 1);
      AllAlongKept(cfg, backend, inputs, run[k - 1], schedule[k - 1]);
    }
  }

  // ---- Any number of workers, no aborting row: the schedule cannot be seen ----

  ghost predicate NoRowAborts(cfg: Config, backend: Backend, inputs: seq<LLMInput>) {
    forall row :: 0 <= row < |inputs| ==> !Invoke(cfg, backend, inputs[row]).1.Struck?
  }

  lemma EmittedAlong(
    cfg: Config, backend: Backend, inputs: seq<LLMInput>, run: seq<State>, schedule: seq<Label>, k: nat)
    requires Consumed(cfg, inputs, run, schedule) && Determined(cfg, backend)
    requires k < |Last(run).emitted| && !Last(run).emitted[k].origin.Skipped?
    ensures
      var e := Last(run).emitted[k];
      e.row < |inputs| && (e.result, e.origin) == Invoke(cfg, backend, inputs[e.row])
  {
    var s := Last(run);
    RunIsSound(cfg, inputs, run, schedule, |run| - 1);
    RunStaysAlong(cfg, backend, inputs, run, schedule, |run| - 1);
    assert EmissionSound(cfg, inputs, s, s.emitted[k]);
    assert Along(cfg, backend, inputs[s.emitted[k].row], s.tasks[s.emitted[k].row]);
  }

  lemma SkippedReadsAborted(cfg: Config, inputs: seq<LLMInput>, run: seq<State>, schedule: seq<Label>, k: nat)
    requires Consumed(cfg, inputs, run, schedule) && k < |Last(run).emitted| && Last(run).emitted[k].origin.Skipped?
    ensures Last(run).emitted[k].result.error.BatchAborted?
  {
    RunIsSound(cfg, inputs, run, schedule, |run| - 1);
    EmissionRecorded(cfg, inputs, Last(run), k);
  }

  lemma EachAsIfAlone(
    cfg: Config, backend: Backend, inputs: seq<LLMInput>, run: seq<State>, schedule: seq<Label>, k: nat)
    requires Consumed(cfg, inputs, run, schedule) && Determined(cfg, backend) && NoRowAborts(cfg, backend, inputs)
    requires k < |Last(run).emitted|
    ensures Last(run).emitted[k].row < |inputs|
    ensures Last(run).emitted[k].result == Invoke(cfg, backend, inputs[Last(run).emitted[k].row]).0
  {
    if Last(run).emitted[k].origin.Skipped? {
      SkippedReadsAborted(cfg, inputs, run, schedule, k);
      var cause, _, _ := AbortHasItsCause(cfg, inputs, run, schedule, k);
      EmittedAlong(cfg, backend, inputs, run, schedule, cause);
      assert false;
    } else {
      EmittedAlong(cfg, backend, inputs, run, schedule, k);
    }
  }

  // Every schedule returns the results of mapping `invoke` over the inputs.
  lemma SchedulesAgree(
    cfg: Config, backend: Backend, inputs: seq<LLMInput>, run: seq<State>, schedule: seq<Label>)
    requires Consumed(cfg, inputs, run, schedule) && Determined(cfg, backend) && NoRowAborts(cfg, backend, inputs)
    ensures
      var invoke := (input: LLMInput) => Invoke(cfg, backend, input).0;
      multiset(Results(Last(run).emitted)) == multiset(Map(invoke, inputs))
  {
    var emitted := Last(run).emitted;
    var invoke := (input: LLMInput) => Invoke(cfg, backend, input).0;
    var nobody := LLMResult(0, 0, "", Failed, NoError);
    var at := (row: nat) => if row < |inputs| then invoke(inputs[row]) else nobody;
    ExactlyOnce(cfg, inputs, run, schedule);
    MapPermutes(at, RowsOf(emitted), Range(0, |inputs|));
    assert Map(invoke, inputs) == Map(at, Range(0, |inputs|));
    forall k | 0 <= k < |emitted|
      ensures Results(emitted)[k] == Map(at, RowsOf(emitted))[k]
    {
      EachAsIfAlone(cfg, backend, inputs, run, schedule, k);
    }
    assert Results(emitted) == Map(at, RowsOf(emitted));
  }

  // ---- One worker: the order too is the sequential one ----

  ghost predicate TasksInTurn(s: State) {
    && (forall row :: 0 <= row < |s.tasks| - 1 ==>
          s.tasks[row].Finished? && !s.tasks[row].origin.Struck? && !s.tasks[row].origin.Skipped?)
    && (s.tasks != [] ==> !Last(s.tasks).Cancelled? && (Last(s.tasks).Finished? ==> !Last(s.tasks).origin.Skipped?))
    && (s.abortEvent <==> s.tasks != [] && Last(s.tasks).Finished? && Last(s.tasks).origin.Struck?)
    && (s.inFlight != {} ==> s.tasks != [] && s.inFlight == {|s.tasks| - 1})
  }

  ghost predicate EmittedInTurn(inputs: seq<LLMInput>, s: State) {
    && |s.emitted| <= |inputs|
    && forall k :: 0 <= k < |s.emitted| ==>
         if k < |s.tasks| then s.tasks[k].Finished? && s.emitted[k] == Emitting(s, k)
         else s.emitted[k] == Emission(k, AbortedResult(inputs[k]), Skipped)
  }

  ghost predicate InTurn(inputs: seq<LLMInput>, s: State) {
    && |s.tasks| <= |inputs|
    && TasksInTurn(s)
    && EmittedInTurn(inputs, s)
    && (if s.pc.InLoop() then |s.emitted| + |s.inFlight| == |s.tasks|
        else s.inFlight == {} && (s.abortEvent || |s.tasks| == |inputs|))
    && match s.pc
       case Filling => s.inFlight == {} ==> !s.abortEvent
       case Waiting => s.inFlight == {} ==> !s.abortEvent
       case Cancelling(_) => |s.emitted| == |s.tasks| && s.aborted == Range(|s.tasks|, |inputs|)
       case Draining(_) => |s.emitted| == |s.tasks| && s.aborted == Range(|s.tasks|, |inputs|)
       case Skipping(rest) => |s.tasks| <= |s.emitted| && rest == Range(|s.emitted|, |inputs|)
       case Closed => |s.emitted| == |inputs|
       case _ => true
  }

  lemma InTurnKeptByWorker(cfg: Config, inputs: seq<LLMInput>, s: State, l: Label)
    requires cfg.maxWorkers == 1 && Shape(cfg, inputs, s) && InTurn(inputs, s) && l.Worker()
    requires WorkerCan(cfg, inputs, s, l)
    ensures InTurn(inputs, WorkerDo(cfg, inputs, s, l))
  {
    WorkerFrame(cfg, inputs, s, l);
    assert l.row == |s.tasks| - 1;
  }

  lemma InTurnKeptLooping(cfg: Config, inputs: seq<LLMInput>, s: State, l: Label)
    requires cfg.maxWorkers == 1 && Shape(cfg, inputs, s) && InTurn(inputs, s) && l.Looping() && !l.Reap?
    requires GeneratorCan(cfg, inputs, s, l)
    ensures InTurn(inputs, GeneratorDo(cfg, inputs, s, l))
  {
    OneOrNone(s.inFlight);
    if l.Submit? {
      assert s.inFlight == {};
      assert forall row :: 0 <= row < |s.tasks| ==> s.tasks[row].Finished?;
    }
  }

  lemma InTurnKeptByReap(cfg: Config, inputs: seq<LLMInput>, s: State, l: Label)
    requires cfg.maxWorkers == 1 && Shape(cfg, inputs, s) && InTurn(inputs, s) && l.Reap?
    requires GeneratorCan(cfg, inputs, s, l)
    ensures InTurn(inputs, GeneratorDo(cfg, inputs, s, l))
  {
    assert l.row == |s.tasks| - 1;
    assert s.inFlight - {l.row} == {};
    assert |s.inFlight| == 1;
  }

  lemma InTurnKeptClosing(cfg: Config, inputs: seq<LLMInput>, s: State, l: Label)
    requires cfg.maxWorkers == 1 && Shape(cfg, inputs, s) && InTurn(inputs, s) && l.Closing()
    requires GeneratorCan(cfg, inputs, s, l)
    ensures InTurn(inputs, GeneratorDo(cfg, inputs, s, l))
  {
    if l.Skip? {
      assert s.pc.rest[0] == |s.emitted|;
    }
  }

  lemma OneOrNone(rows: set<nat>)
    ensures |rows| == 0 ==> rows == {}
  {
  }

  lemma {:induction false} RunInTurn(cfg: Config, inputs: seq<LLMInput>, run: seq<State>, schedule: seq<Label>, k: nat)
    requires cfg.Valid() && cfg.maxWorkers == 1 && IsRun(cfg, inputs, run, schedule) && k < |run|
    ensures InTurn(inputs, run[k])
  {
    if k > 0 {
      var s, l := run[k - 1], schedule[k - 1];
      RunInTurn(cfg, inputs, run, schedule, k - 1);
      RunIsSound(cfg, inputs, run, schedule, k - 1);
      if l.Worker() {
        InTurnKeptByWorker(cfg, inputs, s, l);
      } else if l.Reap? {
        InTurnKeptByReap(cfg, inputs, s, l);
      } else if l.Looping() {
        InTurnKeptLooping(cfg, inputs, s, l);
      } else {
        InTurnKeptClosing(cfg, inputs, s, l);
      }
    }
  }

  // The k-th result of the sequential program: each row in turn, until one aborts the batch.
  ghost function Sequential(cfg: Config, backend: Backend, inputs: seq<LLMInput>, k: nat): LLMResult
    requires k < |inputs|
  {
    if exists earlier :: 0 <= earlier < k && Invoke(cfg, backend, inputs[earlier]).1.Struck?
    then AbortedResult(inputs[k])
    else Invoke(cfg, backend, inputs[k]).0
  }

  // With one worker every schedule emits the sequential results, in order.
  lemma OneWorkerIsSequential(
    cfg: Config, backend: Backend, inputs: seq<LLMInput>, run: seq<State>, schedule: seq<Label>, k: nat)
    requires cfg.maxWorkers == 1 && Consumed(cfg, inputs, run, schedule) && Determined(cfg, backend)
    ensures |Last(run).emitted| == |inputs|
    ensures k < |inputs| ==> Last(run).emitted[k].result == Sequential(cfg, backend, inputs, k)
  {
    var s := Last(run);
    RunInTurn(cfg, inputs, run, schedule, |run| - 1);
    RunStaysAlong(cfg, backend, inputs, run, schedule, |run| - 1);
    if k < |inputs| {
      forall row: nat | row < |s.tasks| && s.tasks[row].Finished?
        ensures Invoke(cfg, backend, inputs[row]) == (s.tasks[row].result, s.tasks[row].origin)
      {
        assert Along(cfg, backend, inputs[row], s.tasks[row]);
      }
      if k >= |s.tasks| {
        assert s.abortEvent && Invoke(cfg, backend, inputs[|s.tasks| - 1]).1.Struck?;
      }
    }
  }
}
