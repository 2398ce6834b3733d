// BatchExecutor.process_batch_iter and invoke (src/llm_worker/executor.py) as a step
// machine: the generator's thread and the pool's worker threads interleave freely.
//
// Rows are named by their position in `inputs`. Rows are submitted in that order, so the
// position also orders the `in_flight` dict.
module Pool {
  import opened Json
  import opened Rows

  datatype Disposition = RETRY | ABORT_BATCH | FAIL_ROW

  // What one provider call does: reply, with the serialised envelope, or raise.
  datatype Answer = Reply(response: string) | Failure(text: string, disposition: Disposition)

  // A result that says what an answer says: the reply's text, or the error's.
  predicate Says(input: LLMInput, result: LLMResult, answer: Answer) {
    match answer
    case Reply(text) => Replies(input, result, text)
    case Failure(text, _) => Fails(input, result, Backend(text))
  }

  // How a result came about: without touching the provider because of an abort; refused
  // by the parser; from a provider call; or from a provider call that aborts the batch.
  datatype Origin = Skipped | Refused | Answered | Struck

  datatype Task =
    | Queued
    | Started
    | Admitted               // passed the abort check
    | InCall(attempt: nat)
    | Aborting(text: string) // about to set the abort event
    | Finished(result: LLMResult, origin: Origin)
    | Cancelled
  {
    predicate Busy() {
      !Finished? && !Cancelled?
    }

    predicate CalledProvider() {
      InCall? || Aborting? || (Finished? && (origin.Answered? || origin.Struck?))
    }
  }

  // `may` says which answers the backend can give to each attempt of a row.
  datatype Config = Config(
    maxWorkers: nat, maxAttempts: nat, loads: string -> Option<Json>, may: (LLMInput, nat, Answer) -> bool)
  {
    predicate Valid() {
      maxWorkers >= 1 && maxAttempts >= 1
    }
  }

  datatype Emission = Emission(row: nat, result: LLMResult, origin: Origin)

  // Where the generator's own thread is.
  datatype Pc =
    | Filling
    | Waiting
    | Reaping(done: set<nat>)
    | Deciding
    | Cancelling(todo: set<nat>)
    | Draining(todo: set<nat>)
    | Skipping(rest: seq<nat>)
    | Closed
  {
    predicate InLoop() {
      Filling? || Waiting? || Reaping? || Deciding?
    }
  }

  // One answer of the backend to one attempt of a row.
  datatype Given = Given(row: nat, attempt: nat, answer: Answer)

  // `tasks` has one entry per submitted row; the rest of the input is still in the
  // iterator. The last three fields are history that no step looks at: the rows whose first
  // provider call has begun, those among them where it began after the abort, and every
  // answer the backend has given.
  datatype State = State(
    tasks: seq<Task>,
    inFlight: set<nat>,
    aborted: seq<nat>,
    abortEvent: bool,
    pc: Pc,
    emitted: seq<Emission>,
    late: set<nat>,
    called: set<nat>,
    answers: set<Given>)

  const INITIAL := State([], {}, [], false, Filling, [], {}, {}, {})

  datatype Label =
    | Submit
    | EndFill
    | Wait(done: set<nat>)
    | LeaveLoop
    | Reap(row: nat)
    | EndReap
    | Decide
    | Cancel(row: nat)
    | EndCancel
    | Drain(row: nat)
    | EndDrain
    | Skip
    | Close
    | Start(row: nat)
    | Check(row: nat)
    | Parse(row: nat)
    | Respond(row: nat, answer: Answer)
    | SetAbort(row: nat)
  {
    predicate Worker() {
      Start? || Check? || Parse? || Respond? || SetAbort?
    }

    // Steps of the fill-wait-reap loop, and steps of closing the pool after it.
    predicate Looping() {
      Submit? || EndFill? || Wait? || LeaveLoop? || Reap? || EndReap? || Decide?
    }

    predicate Closing() {
      !Worker() && !Looping()
    }
  }

  function Range(lo: nat, hi: nat): (r: seq<nat>)
    requires lo <= hi
    ensures |r| == hi - lo
  {
    seq(hi - lo, i requires 0 <= i => lo + i)
  }

  predicate IsFirst(row: nat, rows: set<nat>) {
    row in rows && forall other :: other in rows ==> row <= other
  }

  // ---- Steps of the generator ----

  predicate GeneratorCan(cfg: Config, inputs: seq<LLMInput>, s: State, l: Label)
    requires !l.Worker()
  {
    match l
    case Submit => s.pc.Filling? && |s.inFlight| < cfg.maxWorkers && |s.tasks| < |inputs|
    case EndFill => s.pc.Filling? && (|s.inFlight| >= cfg.maxWorkers || |s.tasks| >= |inputs|)
    case Wait(done) =>
      && s.pc.Waiting?
      && done != {}
      && forall row :: row in done ==> row in s.inFlight && row < |s.tasks| && s.tasks[row].Finished?
    case LeaveLoop => s.pc.Waiting? && s.inFlight == {}
    case Reap(row) => s.pc.Reaping? && row in s.pc.done && row < |s.tasks| && s.tasks[row].Finished?
    case EndReap => s.pc.Reaping? && s.pc.done == {}
    case Decide => s.pc.Deciding? && |s.tasks| <= |inputs|
    case Cancel(row) => s.pc.Cancelling? && IsFirst(row, s.pc.todo) && row < |s.tasks|
    case EndCancel => s.pc.Cancelling? && s.pc.todo == {}
    case Drain(row) => s.pc.Draining? && IsFirst(row, s.pc.todo) && row < |s.tasks| && !s.tasks[row].Busy()
    case EndDrain => s.pc.Draining? && s.pc.todo == {}
    case Skip => s.pc.Skipping? && s.pc.rest != [] && s.pc.rest[0] < |inputs|
    case Close => s.pc.Skipping? && s.pc.rest == []
  }

  function Emitting(s: State, row: nat): Emission
    requires row < |s.tasks| && s.tasks[row].Finished?
  {
    Emission(row, s.tasks[row].result, s.tasks[row].origin)
  }

  function GeneratorDo(cfg: Config, inputs: seq<LLMInput>, s: State, l: Label): State
    requires !l.Worker() && GeneratorCan(cfg, inputs, s, l)
  {
    match l
    case Submit => s.(tasks := s.tasks + [Queued], inFlight := s.inFlight + {|s.tasks|})
    case EndFill => s.(pc := Waiting)
    case Wait(done) => s.(pc := Reaping(done))
    case LeaveLoop => s.(pc := Cancelling({}))
    case Reap(row) =>
      s.(inFlight := s.inFlight - {row}, pc := Reaping(s.pc.done - {row}), emitted := s.emitted + [Emitting(s, row)])
    case EndReap => s.(pc := Deciding)
    case Decide =>
      if s.abortEvent
      then s.(aborted := s.aborted + Range(|s.tasks|, |inputs|), pc := Cancelling(s.inFlight))
      else s.(pc := Filling)
    case Cancel(row) =>
      // Future.cancel succeeds only before the call starts.
      var tasks := if s.tasks[row].Queued? then s.tasks[row := Cancelled] else s.tasks;
      s.(tasks := tasks, pc := Cancelling(s.pc.todo - {row}))
    case EndCancel => s.(pc := Draining(s.inFlight))
    case Drain(row) =>
      if s.tasks[row].Cancelled?
      then s.(aborted := s.aborted + [row], pc := Draining(s.pc.todo - {row}))
      else s.(pc := Draining(s.pc.todo - {row}), emitted := s.emitted + [Emitting(s, row)])
    case EndDrain => s.(pc := Skipping(s.aborted))
    case Skip =>
      var row := s.pc.rest[0];
      s.(pc := Skipping(s.pc.rest[1..]), emitted := s.emitted + [Emission(row, AbortedResult(inputs[row]), Skipped)])
    case Close => s.(pc := Closed)
  }

  // ---- Steps of a worker thread, the body of invoke ----

  predicate WorkerCan(cfg: Config, inputs: seq<LLMInput>, s: State, l: Label)
    requires l.Worker()
  {
    && l.row < |s.tasks|
    && l.row < |inputs|
    && match l
       case Start(row) => s.tasks[row].Queued?
       case Check(row) => s.tasks[row].Started?
       case Parse(row) => s.tasks[row].Admitted?
       case Respond(row, answer) => s.tasks[row].InCall? && cfg.may(inputs[row], s.tasks[row].attempt, answer)
       case SetAbort(row) => s.tasks[row].Aborting?
  }

  // The end of one provider call: reply, retry while attempts last, abort, or fail the row.
  function AfterCall(cfg: Config, row: LLMInput, attempt: nat, answer: Answer): Task {
    match answer
    case Reply(response) => Finished(CompleteResult(row, response), Answered)
    case Failure(text, disposition) =>
      if disposition.RETRY? && attempt < cfg.maxAttempts then InCall(attempt + 1)
      else if disposition.ABORT_BATCH? then Aborting(text)
      else Finished(FailedResult(row, Backend(text)), Answered)
  }

  function WorkerDo(cfg: Config, inputs: seq<LLMInput>, s: State, l: Label): State
    requires l.Worker() && WorkerCan(cfg, inputs, s, l)
  {
    var input := inputs[l.row];
    match l
    case Start(row) => s.(tasks := s.tasks[row := Started])
    case Check(row) =>
      s.(tasks := s.tasks[row := if s.abortEvent then Finished(AbortedResult(input), Skipped) else Admitted])
    case Parse(row) =>
      (match Decode(cfg.loads, input)
       case Rejected(error) => s.(tasks := s.tasks[row := Finished(FailedResult(input, error), Refused)])
       case Request(_) =>
         s.(tasks := s.tasks[row := InCall(1)],
            late := if s.abortEvent then s.late + {row} else s.late,
            called := s.called + {row}))
    case Respond(row, answer) =>
      var attempt := s.tasks[row].attempt;
      s.(tasks := s.tasks[row := AfterCall(cfg, input, attempt, answer)],
         answers := s.answers + {Given(row, attempt, answer)})
    case SetAbort(row) =>
      s.(tasks := s.tasks[row := Finished(FailedResult(input, Backend(s.tasks[row].text)), Struck)], abortEvent := true)
  }

  // ---- Runs ----

  predicate Can(cfg: Config, inputs: seq<LLMInput>, s: State, l: Label) {
    if l.Worker() then WorkerCan(cfg, inputs, s, l) else GeneratorCan(cfg, inputs, s, l)
  }

  function Do(cfg: Config, inputs: seq<LLMInput>, s: State, l: Label): State
    requires Can(cfg, inputs, s, l)
  {
    if l.Worker() then WorkerDo(cfg, inputs, s, l) else GeneratorDo(cfg, inputs, s, l)
  }

  // A schedule is any sequence of steps, each possible when it is taken.
  ghost predicate IsRun(cfg: Config, inputs: seq<LLMInput>, run: seq<State>, schedule: seq<Label>) {
    && |run| == |schedule| + 1
    && run[0] == INITIAL
    && forall k :: 0 <= k < |schedule| ==>
         Can(cfg, inputs, run[k], schedule[k]) && run[k + 1] == Do(cfg, inputs, run[k], schedule[k])
  }

  function Last<T>(items: seq<T>): T
    requires items != []
  {
    items[|items| - 1]
  }
}
