// process_batch_iter as the program it is: loops over the in-flight dict, with the pool's
// threads moving between any two of its statements. Each statement is a step of the
// machine in Pool, so what Pool's theorems say of every schedule holds of this code.
module Executor {
  import opened Rows
  import opened Pool
  import opened PoolInvariants
  import opened PoolTheorems
  import opened PoolProgress
  import Sequential = PoolRefinement

  // _complete_with_retry and invoke's handling of its outcome: at most max_attempts calls,
  // each but the last ending in an error worth retrying.
  method CompleteWithRetry(cfg: Config, backend: Sequential.Backend, input: LLMInput)
      returns (result: LLMResult, origin: Origin, calls: nat)
    requires cfg.Valid()
    ensures (result, origin) == Sequential.CompleteFrom(cfg, backend, input, 1)
    ensures result.batchId == input.batchId && result.rowId == input.rowId
    ensures
      match backend(input, calls)
      case Reply(text) => result.status.Complete? && result.response == text && result.error == NoError
      case Failure(text, _) => result.status.Failed? && result.response == "" && result.error == Backend(text)
    ensures backend(input, calls).Failure? && backend(input, calls).disposition.RETRY? ==> calls == cfg.maxAttempts
    ensures 1 <= calls <= cfg.maxAttempts
    ensures forall attempt: nat :: 1 <= attempt < calls ==>
      backend(input, attempt).Failure? && backend(input, attempt).disposition.RETRY?
    ensures origin.Struck? <==> backend(input, calls).Failure? && backend(input, calls).disposition.ABORT_BATCH?
  {
    calls := 1;
    var answer := backend(input, calls);
    while answer.Failure? && answer.disposition.RETRY? && calls < cfg.maxAttempts
      invariant 1 <= calls <= cfg.maxAttempts && answer == backend(input, calls)
      invariant forall attempt: nat :: 1 <= attempt < calls ==>
        backend(input, attempt).Failure? && backend(input, attempt).disposition.RETRY?
      invariant Sequential.CompleteFrom(cfg, backend, input, calls) == Sequential.CompleteFrom(cfg, backend, input, 1)
      decreases cfg.maxAttempts - calls
    {
      calls := calls + 1;
      answer := backend(input, calls);
    }
    match answer {
      case Reply(response) => result, origin := CompleteResult(input, response), Answered;
      case Failure(text, disposition) =>
        result := FailedResult(input, Backend(text));
        origin := if disposition.ABORT_BATCH? then Struck else Answered;
    }
  }

  // invoke on one row; `aborted` is the abort event afterwards.
  method Invoke(cfg: Config, backend: Sequential.Backend, input: LLMInput, abortEvent: bool)
      returns (result: LLMResult, aborted: bool, calls: nat)
    requires cfg.Valid()
    ensures result.batchId == input.batchId && result.rowId == input.rowId
    ensures abortEvent ==> aborted && calls == 0 && result.error == BatchAborted
    ensures calls == 0 ==> result.status.Failed? && result.response == ""
    ensures calls > 0 ==>
      match backend(input, calls)
      case Reply(text) => result.status.Complete? && result.response == text && result.error == NoError && !aborted
      case Failure(text, disposition) =>
        && result.status.Failed?
        && result.response == ""
        && result.error == Backend(text)
        && (aborted <==> disposition.ABORT_BATCH?)
    ensures !abortEvent ==>
      && result == Sequential.Invoke(cfg, backend, input).0
      && (aborted <==> Sequential.Invoke(cfg, backend, input).1.Struck?)
    ensures calls == 0 <==> abortEvent || Decode(cfg.loads, input).Rejected?
    ensures calls == 0 && !abortEvent ==> result.error == Decode(cfg.loads, input).error && !aborted
    ensures calls <= cfg.maxAttempts
  {
    if abortEvent {
      return AbortedResult(input), true, 0;
    }
    match Decode(cfg.loads, input) {
      case Rejected(error) => return FailedResult(input, error), false, 0;
      case Request(_) =>
        var origin;
        result, origin, calls := CompleteWithRetry(cfg, backend, input);
        aborted := origin.Struck?;
    }
  }

  // What the code reads off the invariant.
  lemma ShapeFacts(cfg: Config, inputs: seq<LLMInput>, s: State)
    requires Shape(cfg, inputs, s)
    ensures cfg.maxWorkers >= 1 && |s.tasks| <= |inputs|
    ensures forall row :: row in s.inFlight ==> row < |s.tasks|
    ensures s.pc.InLoop() ==> forall row :: 0 <= row < |s.tasks| ==> !s.tasks[row].Cancelled?
    ensures s.pc.Reaping? ==> forall row :: row in s.pc.done ==> row in s.inFlight && s.tasks[row].Finished?
    ensures s.pc.Cancelling? ==> s.pc.todo <= s.inFlight
    ensures s.pc.Draining? ==> s.pc.todo <= s.inFlight
  {
  }

  lemma RestIsInput(cfg: Config, inputs: seq<LLMInput>, s: State, k: nat)
    requires Sourced(cfg, inputs, s) && s.pc.Skipping? && k < |s.pc.rest|
    ensures s.pc.rest[k] < |inputs|
  {
  }

  class BatchIter {
    const cfg: Config
    const inputs: seq<LLMInput>

    var tasks: seq<Task>       // what each submitted future's thread is doing
    var inFlight: set<nat>
    var abortedRows: seq<nat>
    var abortEvent: bool
    var emitted: seq<Emission> // what the generator has yielded

    ghost var late: set<nat>
    ghost var called: set<nat>
    ghost var answers: set<Given>
    ghost var pc: Pc
    ghost var run: seq<State>
    ghost var schedule: seq<Label>

    ghost function View(): State
      reads this
    {
      State(tasks, inFlight, abortedRows, abortEvent, pc, emitted, late, called, answers)
    }

    ghost predicate Valid()
      reads this
    {
      && cfg.Valid()
      && Responsive(cfg)
      && IsRun(cfg, inputs, run, schedule)
      && Last(run) == View()
      && |tasks| <= |inputs|
      && Shape(cfg, inputs, View())
      && Sourced(cfg, inputs, View())
    }

    constructor (cfg: Config, inputs: seq<LLMInput>)
      requires cfg.Valid() && Responsive(cfg)
      ensures Valid() && View() == INITIAL && this.cfg == cfg && this.inputs == inputs
    {
      this.cfg, this.inputs := cfg, inputs;
      tasks, inFlight, abortedRows, abortEvent, emitted := [], {}, [], false, [];
      late, called, answers, pc := {}, {}, {}, Filling;
      run, schedule := [INITIAL], [];
      new;
      RunIsSound(cfg, inputs, run, schedule, 0);
    }

    // Records that the last assignments were one step of the machine.
    ghost method Log(l: Label)
      requires cfg.Valid() && Responsive(cfg) && IsRun(cfg, inputs, run, schedule)
      requires Shape(cfg, inputs, Last(run)) && Sourced(cfg, inputs, Last(run))
      requires Can(cfg, inputs, Last(run), l) && View() == Do(cfg, inputs, Last(run), l)
      modifies this`run, this`schedule
      ensures Valid()
      ensures Budget(cfg, inputs, View()) < old(Budget(cfg, inputs, Last(run)))
    {
      hide Shape, Sourced, Budget, Can, Do;
      ShapeKept(cfg, inputs, Last(run), l);
      SourcedKept(cfg, inputs, Last(run), l);
      StepPays(cfg, inputs, Last(run), l);
      ExtendRun(cfg, inputs, run, schedule, l);
      run, schedule := run + [View()], schedule + [l];
    }

    // The provider call in progress ends.
    method AwaitAnswer(row: nat)
      requires Valid() && row < |tasks| && tasks[row].InCall?
      modifies this`tasks, this`answers, this`run, this`schedule
      ensures Valid()
      ensures |tasks| == |old(tasks)| && !tasks[row].Cancelled?
      ensures forall other :: 0 <= other < |tasks| && other != row ==> tasks[other] == old(tasks)[other]
      ensures Budget(cfg, inputs, View()) < old(Budget(cfg, inputs, View()))
    {
      hide Shape, Sourced, Budget, IsRun;
      var input, attempt := inputs[row], tasks[row].attempt;
      assert CanAnswer(cfg, input, attempt);
      var answer: Answer :| cfg.may(input, attempt, answer);
      answers := answers + {Given(row, attempt, answer)};
      if answer.Reply? {
        tasks := tasks[row := Finished(CompleteResult(input, answer.response), Answered)];
      } else if answer.disposition == RETRY && attempt < cfg.maxAttempts {
        tasks := tasks[row := InCall(attempt + 1)];
      } else if answer.disposition == ABORT_BATCH {
        tasks := tasks[row := Aborting(answer.text)];
      } else {
        tasks := tasks[row := Finished(FailedResult(input, Backend(answer.text)), Answered)];
      }
      Log(Respond(row, answer));
    }

    // The row's columns are parsed, and its first call begins if they make a request.
    method ParseRow(row: nat)
      requires Valid() && row < |tasks| && tasks[row].Admitted?
      modifies this`tasks, this`late, this`called, this`run, this`schedule
      ensures Valid()
      ensures |tasks| == |old(tasks)| && !tasks[row].Cancelled?
      ensures forall other :: 0 <= other < |tasks| && other != row ==> tasks[other] == old(tasks)[other]
      ensures Budget(cfg, inputs, View()) < old(Budget(cfg, inputs, View()))
    {
      hide Shape, Sourced, Budget, IsRun;
      match Decode(cfg.loads, inputs[row]) {
        case Rejected(error) =>
          tasks := tasks[row := Finished(FailedResult(inputs[row], error), Refused)];
        case Request(_) =>
          tasks := tasks[row := InCall(1)];
          late, called := if abortEvent then late + {row} else late, called + {row};
      }
      Log(Parse(row));
    }

    // One step of the thread running `invoke` on a row.
    method Advance(row: nat)
      requires Valid() && row < |tasks| && tasks[row].Busy()
      modifies this`tasks, this`abortEvent
      modifies this`late, this`called, this`answers, this`run, this`schedule
      ensures Valid()
      ensures |tasks| == |old(tasks)| && !tasks[row].Cancelled?
      ensures forall other :: 0 <= other < |tasks| && other != row ==> tasks[other] == old(tasks)[other]
      ensures Budget(cfg, inputs, View()) < old(Budget(cfg, inputs, View()))
    {
      hide Shape, Sourced, Budget, IsRun;
      var input := inputs[row];
      match tasks[row] {
        case Queued =>
          tasks := tasks[row := Started];
          Log(Start(row));
        case Started =>
          if abortEvent {
            tasks := tasks[row := Finished(AbortedResult(input), Skipped)];
          } else {
            tasks := tasks[row := Admitted];
          }
          Log(Check(row));
        case Admitted =>
          ParseRow(row);
        case InCall(_) =>
          AwaitAnswer(row);
        case Aborting(text) =>
          abortEvent := true;
          tasks := tasks[row := Finished(FailedResult(input, Backend(text)), Struck)];
          Log(SetAbort(row));
      }
    }

    // The pool's threads get an arbitrary slice of time.
    method Interfere()
      requires Valid()
      modifies this`tasks, this`abortEvent
      modifies this`late, this`called, this`answers, this`run, this`schedule
      ensures Valid()
      ensures |tasks| == |old(tasks)|
      ensures forall row :: 0 <= row < |tasks| && !old(tasks)[row].Busy() ==> tasks[row] == old(tasks)[row]
      ensures Budget(cfg, inputs, View()) <= old(Budget(cfg, inputs, View()))
    {
      hide Shape, Sourced, Budget, IsRun;
      while *
        invariant Valid()
        invariant |tasks| == |old(tasks)|
        invariant forall row :: 0 <= row < |tasks| && !old(tasks)[row].Busy() ==> tasks[row] == old(tasks)[row]
        invariant Budget(cfg, inputs, View()) <= old(Budget(cfg, inputs, View()))
        decreases Budget(cfg, inputs, View())
      {
        if forall row :: 0 <= row < |tasks| ==> !tasks[row].Busy() {
          return;
        }
        var row :| 0 <= row < |tasks| && tasks[row].Busy();
        Advance(row);
      }
    }

    // wait(in_flight, return_when=FIRST_COMPLETED): some completed futures, at least one.
    method WaitFirstCompleted() returns (done: set<nat>)
      requires Valid() && pc.Waiting? && inFlight != {}
      modifies this`tasks, this`abortEvent, this`pc
      modifies this`late, this`called, this`answers, this`run, this`schedule
      ensures Valid()
      ensures |tasks| == |old(tasks)| && pc == Reaping(done) && done != {}
      ensures Budget(cfg, inputs, View()) < old(Budget(cfg, inputs, View()))
    {
      hide Shape, Sourced, Budget, IsRun;
      ShapeFacts(cfg, inputs, View());
      while forall row :: row in inFlight ==> !tasks[row].Finished?
        invariant Valid() && pc.Waiting? && inFlight != {}
        invariant forall row :: row in inFlight ==> row < |tasks| && !tasks[row].Cancelled?
        invariant |tasks| == |old(tasks)|
        invariant Budget(cfg, inputs, View()) <= old(Budget(cfg, inputs, View()))
        decreases Budget(cfg, inputs, View())
      {
        var row :| row in inFlight;
        Advance(row);
      }
      var first :| first in inFlight && tasks[first].Finished?;
      var others: set<nat> := *;
      done := {first} + set row | row in others && row in inFlight && tasks[row].Finished?;
      pc := Reaping(done);
      Log(Wait(done));
    }

    // Submits rows while there is room and input left.
    method Refill()
      requires Valid() && pc.Filling?
      modifies this`tasks, this`inFlight, this`abortEvent, this`pc
      modifies this`late, this`called, this`answers, this`run, this`schedule
      ensures Valid() && pc.Waiting?
      ensures Budget(cfg, inputs, View()) < old(Budget(cfg, inputs, View()))
    {
      hide Shape, Sourced, Budget, IsRun, WorkerCan, WorkerDo;
      while |inFlight| < cfg.maxWorkers && |tasks| < |inputs|
        invariant Valid() && pc.Filling?
        invariant Budget(cfg, inputs, View()) <= old(Budget(cfg, inputs, View()))
        decreases Budget(cfg, inputs, View())
      {
        tasks, inFlight := tasks + [Queued], inFlight + {|tasks|};
        Log(Submit);
        Interfere();
      }
      pc := Waiting;
      Log(EndFill);
    }

    // Yields the results of the completed futures.
    method Reap(done: set<nat>)
      requires Valid() && pc == Reaping(done)
      modifies this`tasks, this`inFlight, this`abortEvent, this`emitted, this`pc
      modifies this`late, this`called, this`answers, this`run, this`schedule
      ensures Valid() && pc.Deciding?
      ensures Budget(cfg, inputs, View()) < old(Budget(cfg, inputs, View()))
    {
      hide Shape, Sourced, Budget, IsRun, WorkerCan, WorkerDo;
      var todo := done;
      while todo != {}
        invariant Valid() && pc == Reaping(todo)
        invariant Budget(cfg, inputs, View()) <= old(Budget(cfg, inputs, View()))
        decreases Budget(cfg, inputs, View())
      {
        ShapeFacts(cfg, inputs, View());
        var row :| row in todo;
        todo := todo - {row};
        inFlight, emitted := inFlight - {row}, emitted + [Emission(row, tasks[row].result, tasks[row].origin)];
        pc := Reaping(todo);
        Log(Label.Reap(row));
        Interfere();  // the generator is paused at its yield
      }
      pc := Deciding;
      Log(EndReap);
    }

    // Once the event is set, the rest of the input is aborted without being submitted.
    method StopOnAbort() returns (aborting: bool)
      requires Valid() && pc.Deciding?
      modifies this`abortedRows, this`pc, this`run, this`schedule
      ensures Valid() && aborting == abortEvent
      ensures abortedRows == old(abortedRows) + if aborting then Range(|tasks|, |inputs|) else []
      ensures if aborting then pc == Cancelling(inFlight) else pc.Filling?
      ensures Budget(cfg, inputs, View()) < old(Budget(cfg, inputs, View()))
    {
      hide Shape, Sourced, Budget, IsRun, WorkerCan, WorkerDo;
      aborting := abortEvent;
      if abortEvent {
        abortedRows := abortedRows + Range(|tasks|, |inputs|);
        pc := Cancelling(inFlight);
      } else {
        pc := Filling;
      }
      Log(Decide);
    }

    // process_batch_iter, consumed to its end.
    method Process()
      requires Valid() && View() == INITIAL
      modifies this
      ensures Valid() && Consumed(cfg, inputs, run, schedule) && Last(run).emitted == emitted
      ensures AnswersPage(inputs, Results(emitted))
    {
      hide Shape, Sourced, Budget, IsRun, WorkerCan, WorkerDo;
      Refill();
      var aborting := false;
      while inFlight != {} && !aborting
        invariant Valid()
        invariant if aborting then pc == Cancelling(inFlight) else pc.Waiting?
        decreases Budget(cfg, inputs, View())
      {
        var done := WaitFirstCompleted();
        Interfere();
        Reap(done);
        Interfere();
        aborting := StopOnAbort();
        if !aborting {
          Interfere();
          Refill();
        }
      }
      if !aborting {
        pc := Cancelling({});
        Log(LeaveLoop);
      }
      CancelQueued();
      Drain();
      SkipAborted();
      ExactlyOnce(cfg, inputs, run, schedule);
    }

    // future.cancel() on the first of the futures left, which stops it if no thread has begun it.
    method CancelFirst(todo: set<nat>) returns (left: set<nat>, ghost first: nat)
      requires Valid() && pc == Cancelling(todo) && todo != {}
      modifies this`tasks, this`pc, this`run, this`schedule
      ensures Valid() && pc == Cancelling(left)
      ensures first in todo && (forall other :: other in todo ==> first <= other) && left == todo - {first}
      ensures first < |old(tasks)|
      ensures tasks == if old(tasks)[first].Queued? then old(tasks)[first := Cancelled] else old(tasks)
      ensures Budget(cfg, inputs, View()) < old(Budget(cfg, inputs, View()))
    {
      hide Shape, Sourced, Budget, IsRun, WorkerCan, WorkerDo;
      ShapeFacts(cfg, inputs, View());
      ghost var least := First(todo);
      var row :| row in todo && forall other :: other in todo ==> row <= other;
      left, first := todo - {row}, row;
      pc := Cancelling(left);
      if tasks[row].Queued? {
        tasks := tasks[row := Cancelled];
      }
      Log(Cancel(row));
    }

    // future.cancel() on every future left, in the dict's order.
    method CancelQueued()
      requires Valid() && pc == Cancelling(inFlight)
      modifies this`tasks, this`abortEvent, this`pc
      modifies this`late, this`called, this`answers, this`run, this`schedule
      ensures Valid() && pc == Draining(inFlight)
    {
      hide Shape, Sourced, Budget, IsRun, WorkerCan, WorkerDo;
      var todo := inFlight;
      while todo != {}
        invariant Valid() && pc == Cancelling(todo)
        decreases Budget(cfg, inputs, View())
      {
        Interfere();
        ghost var first;
        todo, first := CancelFirst(todo);
      }
      pc := Draining(inFlight);
      Log(EndCancel);
    }

    // A future that is done is reported through its result, or joins the aborted rows.
    method Report(row: nat, todo: set<nat>)
      requires Valid() && pc == Draining(todo) && IsFirst(row, todo) && row < |tasks| && !tasks[row].Busy()
      modifies this`abortedRows, this`emitted, this`pc, this`run, this`schedule
      ensures Valid() && pc == Draining(todo - {row})
      ensures Budget(cfg, inputs, View()) < old(Budget(cfg, inputs, View()))
    {
      hide Shape, Sourced, Budget, IsRun, WorkerCan, WorkerDo;
      pc := Draining(todo - {row});
      if tasks[row].Cancelled? {
        abortedRows := abortedRows + [row];
      } else {
        emitted := emitted + [Emission(row, tasks[row].result, tasks[row].origin)];
      }
      Log(Label.Drain(row));
    }

    // future.result() of every future left; a cancelled one is reported with the aborted rows.
    method Drain()
      requires Valid() && pc == Draining(inFlight)
      modifies this`tasks, this`abortedRows, this`abortEvent, this`emitted, this`pc
      modifies this`late, this`called, this`answers, this`run, this`schedule
      ensures Valid() && pc == Skipping(abortedRows)
    {
      hide Shape, Sourced, Budget, IsRun, WorkerCan, WorkerDo;
      var todo := inFlight;
      while todo != {}
        invariant Valid() && pc == Draining(todo)
        decreases Budget(cfg, inputs, View())
      {
        ShapeFacts(cfg, inputs, View());
        ghost var least := First(todo);
        var row :| row in todo && forall other :: other in todo ==> row <= other;
        if tasks[row].Busy() {
          Advance(row);  // result() blocks until the thread is through
        } else {
          Report(row, todo);
          todo := todo - {row};
        }
      }
      pc := Skipping(abortedRows);
      Log(EndDrain);
    }

    method SkipAborted()
      requires Valid() && pc == Skipping(abortedRows)
      modifies this`emitted, this`pc, this`run, this`schedule
      ensures Valid() && pc.Closed?
    {
      hide Shape, Sourced, Budget, IsRun, WorkerCan, WorkerDo, Decode, Range;
      var next := 0;
      while next < |abortedRows|
        invariant Valid()
        invariant 0 <= next <= |abortedRows| && pc == Skipping(abortedRows[next..])
      {
        assert abortedRows[next] < |inputs| by { RestIsInput(cfg, inputs, View(), 0); }
        var row := abortedRows[next];
        assert pc.rest[0] == row && pc.rest[1..] == abortedRows[next + 1..];
        emitted := emitted + [Emission(row, AbortedResult(inputs[row]), Skipped)];
        next := next + 1;
        pc := Skipping(abortedRows[next..]);
        Log(Skip);
      }
      pc := Closed;
      Log(Close);
    }
  }
}
