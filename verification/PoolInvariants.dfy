// What every step of the pool keeps, and so what holds at every point of every schedule.
module PoolInvariants {
  import opened Rows
  import opened Pool

  // ---- Shape: the window of in-flight futures ----

  ghost predicate Shape(cfg: Config, inputs: seq<LLMInput>, s: State) {
    && cfg.Valid()
    && |s.tasks| <= |inputs|
    && (forall row :: row in s.inFlight ==> row < |s.tasks|)
    && |s.inFlight| <= cfg.maxWorkers
    && (forall row :: 0 <= row < |s.tasks| && s.tasks[row].Busy() ==> row in s.inFlight)
    && (s.pc.InLoop() ==> forall row :: 0 <= row < |s.tasks| ==> !s.tasks[row].Cancelled?)
    && match s.pc
       case Filling => s.aborted == []
       case Waiting => s.aborted == [] && (|s.inFlight| == cfg.maxWorkers || |s.tasks| == |inputs|)
       case Reaping(done) =>
         && s.aborted == []
         && (forall row :: row in done ==> row in s.inFlight && s.tasks[row].Finished?)
         && (done == {} ==> |s.inFlight| < cfg.maxWorkers)
       case Deciding => s.aborted == [] && |s.inFlight| < cfg.maxWorkers
       case Cancelling(todo) => |s.inFlight| < cfg.maxWorkers && todo <= s.inFlight
       case Draining(todo) =>
         && |s.inFlight| < cfg.maxWorkers
         && todo <= s.inFlight
         && forall row :: 0 <= row < |s.tasks| && s.tasks[row].Busy() ==> row in todo
       case _ =>
         && |s.inFlight| < cfg.maxWorkers
         && forall row :: 0 <= row < |s.tasks| ==> !s.tasks[row].Busy()
  }

  // A worker step moves one unfinished task forward and touches nothing of the generator's.
  lemma WorkerFrame(cfg: Config, inputs: seq<LLMInput>, s: State, l: Label)
    requires l.Worker() && WorkerCan(cfg, inputs, s, l)
    ensures
      var s' := WorkerDo(cfg, inputs, s, l);
      && l.row < |s.tasks|
      && s.tasks[l.row].Busy()
      && !s'.tasks[l.row].Cancelled?
      && s' == s.(tasks := s.tasks[l.row := s'.tasks[l.row]], abortEvent := s'.abortEvent,
                  late := s'.late, called := s'.called, answers := s'.answers)
      && (s.abortEvent ==> s'.abortEvent)
  {
  }

  lemma ShapeKeptByWorker(cfg: Config, inputs: seq<LLMInput>, s: State, l: Label)
    requires Shape(cfg, inputs, s) && l.Worker() && WorkerCan(cfg, inputs, s, l)
    ensures Shape(cfg, inputs, WorkerDo(cfg, inputs, s, l))
  {
    WorkerFrame(cfg, inputs, s, l);
    var s' := WorkerDo(cfg, inputs, s, l);
    assert forall row :: 0 <= row < |s.tasks| && s'.tasks[row].Busy() ==> s.tasks[row].Busy();
  }

  lemma ShapeKeptLooping(cfg: Config, inputs: seq<LLMInput>, s: State, l: Label)
    requires Shape(cfg, inputs, s) && l.Looping() && GeneratorCan(cfg, inputs, s, l)
    ensures Shape(cfg, inputs, GeneratorDo(cfg, inputs, s, l))
  {
  }

  lemma ShapeKeptClosing(cfg: Config, inputs: seq<LLMInput>, s: State, l: Label)
    requires Shape(cfg, inputs, s) && l.Closing() && GeneratorCan(cfg, inputs, s, l)
    ensures Shape(cfg, inputs, GeneratorDo(cfg, inputs, s, l))
  {
  }

  lemma ShapeKept(cfg: Config, inputs: seq<LLMInput>, s: State, l: Label)
    requires Shape(cfg, inputs, s) && Can(cfg, inputs, s, l)
    ensures Shape(cfg, inputs, Do(cfg, inputs, s, l))
  {
    if l.Worker() {
      ShapeKeptByWorker(cfg, inputs, s, l);
    } else if l.Looping() {
      ShapeKeptLooping(cfg, inputs, s, l);
    } else {
      ShapeKeptClosing(cfg, inputs, s, l);
    }
  }

  // ---- Conservation: every row is emitted or still owed, exactly once ----

  function RowsOf(emitted: seq<Emission>): (rows: seq<nat>)
    ensures |rows| == |emitted|
  {
    seq(|emitted|, i requires 0 <= i < |emitted| => emitted[i].row)
  }

  // The rows the generator still has to emit, by where they wait.
  ghost function Owed(inputs: seq<LLMInput>, s: State): multiset<nat>
    requires |s.tasks| <= |inputs|
  {
    match s.pc
    case Cancelling(_) => multiset(s.inFlight) + multiset(s.aborted)
    case Draining(todo) => multiset(todo) + multiset(s.aborted)
    case Skipping(rest) => multiset(rest)
    case Closed => multiset{}
    case _ => multiset(s.inFlight) + multiset(Range(|s.tasks|, |inputs|))
  }

  ghost predicate Conserved(inputs: seq<LLMInput>, s: State)
    requires |s.tasks| <= |inputs|
  {
    multiset(RowsOf(s.emitted)) + Owed(inputs, s) == multiset(Range(0, |inputs|))
  }

  lemma EmitOne(emitted: seq<Emission>, e: Emission)
    ensures multiset(RowsOf(emitted + [e])) == multiset(RowsOf(emitted)) + multiset{e.row}
  {
    assert RowsOf(emitted + [e]) == RowsOf(emitted) + [e.row];
  }

  // Whether a step is a `yield`.
  predicate Emits(s: State, l: Label) {
    l.Reap? || l.Skip? || (l.Drain? && l.row < |s.tasks| && s.tasks[l.row].Finished?)
  }

  // The steps that emit a row take exactly that row off the owed ones.
  ghost predicate PaysOff(inputs: seq<LLMInput>, s: State, s': State)
    requires |s.tasks| <= |inputs|
  {
    && |s'.tasks| <= |inputs|
    && |s'.emitted| == |s.emitted| + 1
    && s'.emitted[..|s.emitted|] == s.emitted
    && Owed(inputs, s) == Owed(inputs, s') + multiset{Last(s'.emitted).row}
  }

  lemma ReapPaysOff(cfg: Config, inputs: seq<LLMInput>, s: State, l: Label)
    requires Shape(cfg, inputs, s) && l.Reap? && GeneratorCan(cfg, inputs, s, l)
    ensures PaysOff(inputs, s, GeneratorDo(cfg, inputs, s, l))
  {
    assert multiset(s.inFlight) == multiset(s.inFlight - {l.row}) + multiset{l.row};
  }

  lemma ClosingPaysOff(cfg: Config, inputs: seq<LLMInput>, s: State, l: Label)
    requires Shape(cfg, inputs, s) && l.Closing() && Emits(s, l) && GeneratorCan(cfg, inputs, s, l)
    ensures PaysOff(inputs, s, GeneratorDo(cfg, inputs, s, l))
  {
    if l.Drain? {
      assert multiset(s.pc.todo) == multiset(s.pc.todo - {l.row}) + multiset{l.row};
    } else {
      assert s.pc.rest == [s.pc.rest[0]] + s.pc.rest[1..];
    }
  }

  // The other steps emit nothing and owe the same rows.
  ghost predicate OwesTheSame(inputs: seq<LLMInput>, s: State, s': State)
    requires |s.tasks| <= |inputs|
  {
    |s'.tasks| <= |inputs| && s'.emitted == s.emitted && Owed(inputs, s) == Owed(inputs, s')
  }

  lemma FirstOfRange(lo: nat, hi: nat)
    requires lo < hi
    ensures multiset(Range(lo, hi)) == multiset{lo} + multiset(Range(lo + 1, hi))
  {
    assert Range(lo, hi) == [lo] + Range(lo + 1, hi);
  }

  lemma AddOne(rows: set<nat>, row: nat)
    requires row !in rows
    ensures multiset(rows + {row}) == multiset(rows) + multiset{row}
  {
  }

  lemma SubmitOwesTheSame(cfg: Config, inputs: seq<LLMInput>, s: State)
    requires Shape(cfg, inputs, s) && GeneratorCan(cfg, inputs, s, Submit)
    ensures OwesTheSame(inputs, s, GeneratorDo(cfg, inputs, s, Submit))
  {
    var next: nat := |s.tasks|;
    assert next !in s.inFlight;
    FirstOfRange(next, |inputs|);
    AddOne(s.inFlight, next);
    hide Shape, Range;
    assert s.pc.Filling?;
  }

  lemma SilentLoopStep(cfg: Config, inputs: seq<LLMInput>, s: State, l: Label)
    requires Shape(cfg, inputs, s) && l.Looping() && !Emits(s, l) && GeneratorCan(cfg, inputs, s, l)
    ensures OwesTheSame(inputs, s, GeneratorDo(cfg, inputs, s, l))
  {
    if l.Submit? {
      SubmitOwesTheSame(cfg, inputs, s);
    } else if l.LeaveLoop? {
      assert Range(|s.tasks|, |inputs|) == [];
    } else if l.Decide? && s.abortEvent {
      assert s.aborted + Range(|s.tasks|, |inputs|) == Range(|s.tasks|, |inputs|);
    }
  }

  lemma SilentClosingStep(cfg: Config, inputs: seq<LLMInput>, s: State, l: Label)
    requires Shape(cfg, inputs, s) && l.Closing() && GeneratorCan(cfg, inputs, s, l)
    requires !Emits(s, l)
    ensures OwesTheSame(inputs, s, GeneratorDo(cfg, inputs, s, l))
  {
    var s' := GeneratorDo(cfg, inputs, s, l);
    match l
    case Drain(row) =>
      assert multiset(s.pc.todo) == multiset(s'.pc.todo) + multiset{row};
      assert multiset(s'.aborted) == multiset(s.aborted) + multiset{row};
    case _ =>
  }

  lemma WorkerOwesTheSame(cfg: Config, inputs: seq<LLMInput>, s: State, l: Label)
    requires Shape(cfg, inputs, s) && l.Worker() && WorkerCan(cfg, inputs, s, l)
    ensures OwesTheSame(inputs, s, WorkerDo(cfg, inputs, s, l))
  {
    WorkerFrame(cfg, inputs, s, l);
  }

  lemma ConservedKept(cfg: Config, inputs: seq<LLMInput>, s: State, l: Label)
    requires Shape(cfg, inputs, s) && Conserved(inputs, s) && Can(cfg, inputs, s, l)
    ensures |Do(cfg, inputs, s, l).tasks| <= |inputs|
    ensures Conserved(inputs, Do(cfg, inputs, s, l))
  {
    hide Shape, Owed, RowsOf, GeneratorCan, GeneratorDo, WorkerCan, WorkerDo;
    var s' := Do(cfg, inputs, s, l);
    if l.Worker() {
      WorkerOwesTheSame(cfg, inputs, s, l);
    } else if Emits(s, l) {
      if l.Reap? { ReapPaysOff(cfg, inputs, s, l); } else { ClosingPaysOff(cfg, inputs, s, l); }
      EmitOne(s.emitted, Last(s'.emitted));
      assert s'.emitted == s.emitted + [Last(s'.emitted)];
    } else if l.Looping() {
      SilentLoopStep(cfg, inputs, s, l);
    } else {
      SilentClosingStep(cfg, inputs, s, l);
    }
  }

  // ---- Provenance: where each result came from ----

  // A result of the right row, of the kind its origin says.
  predicate ResultSound(cfg: Config, input: LLMInput, result: LLMResult, origin: Origin) {
    match origin
    case Skipped => result == AbortedResult(input)
    case Refused => Decode(cfg.loads, input).Rejected? && result == FailedResult(input, Decode(cfg.loads, input).error)
    case Answered =>
      && Decode(cfg.loads, input).Request?
      && (result == CompleteResult(input, result.response)
          || (result.error.Backend? && result == FailedResult(input, result.error)))
    case Struck =>
      Decode(cfg.loads, input).Request? && result.error.Backend? && result == FailedResult(input, result.error)
  }

  predicate TaskSound(cfg: Config, input: LLMInput, task: Task, abortEvent: bool) {
    && (task.CalledProvider() ==> Decode(cfg.loads, input).Request?)
    && (task.Finished? ==>
          && ResultSound(cfg, input, task.result, task.origin)
          && (task.origin.Skipped? || task.origin.Struck? ==> abortEvent))
    && (task.Cancelled? ==> abortEvent)
  }

  // A row reported as aborted that no thread ever ran.
  predicate NeverRan(s: State, row: nat) {
    s.abortEvent && (row < |s.tasks| ==> s.tasks[row].Cancelled?)
  }

  ghost predicate EmissionSound(cfg: Config, inputs: seq<LLMInput>, s: State, e: Emission) {
    && e.row < |inputs|
    && ResultSound(cfg, inputs[e.row], e.result, e.origin)
    && (if e.row < |s.tasks| && s.tasks[e.row].Finished? then s.tasks[e.row] == Finished(e.result, e.origin)
        else e.origin.Skipped? && NeverRan(s, e.row))
  }

  ghost predicate AbortHasCause(s: State) {
    s.abortEvent ==> exists row :: 0 <= row < |s.tasks| && s.tasks[row].Finished? && s.tasks[row].origin.Struck?
  }

  ghost predicate Labelled(cfg: Config, inputs: seq<LLMInput>, s: State) {
    && |s.tasks| <= |inputs|
    && (forall row :: 0 <= row < |s.tasks| ==> TaskSound(cfg, inputs[row], s.tasks[row], s.abortEvent))
    && (forall k :: 0 <= k < |s.aborted| ==> s.aborted[k] < |inputs| && NeverRan(s, s.aborted[k]))
    && (s.pc.Skipping? ==> forall k :: 0 <= k < |s.pc.rest| ==> s.pc.rest[k] < |inputs| && NeverRan(s, s.pc.rest[k]))
    && (forall k :: 0 <= k < |s.emitted| ==> EmissionSound(cfg, inputs, s, s.emitted[k]))
    && (s.pc.InLoop() ==>
          forall k :: 0 <= k < |s.emitted| ==> s.emitted[k].row < |s.tasks| && s.tasks[s.emitted[k].row].Finished?)
    && AbortHasCause(s)
    && (s.pc.Cancelling? && s.pc.todo != {} ==> s.abortEvent)
  }

  lemma CauseRemains(s: State, s': State)
    requires AbortHasCause(s) && s'.abortEvent == s.abortEvent && |s.tasks| <= |s'.tasks|
    requires forall row :: 0 <= row < |s.tasks| && s.tasks[row].Finished? ==> s'.tasks[row] == s.tasks[row]
    ensures AbortHasCause(s')
  {
    if s.abortEvent {
      var row :| 0 <= row < |s.tasks| && s.tasks[row].Finished? && s.tasks[row].origin.Struck?;
      assert s'.tasks[row] == s.tasks[row];
    }
  }

  lemma WorkerStaysSound(cfg: Config, inputs: seq<LLMInput>, s: State, l: Label)
    requires Labelled(cfg, inputs, s) && l.Worker() && WorkerCan(cfg, inputs, s, l)
    ensures
      var s' := WorkerDo(cfg, inputs, s, l);
      && TaskSound(cfg, inputs[l.row], s'.tasks[l.row], s'.abortEvent)
      && (s'.abortEvent && !s.abortEvent ==> s'.tasks[l.row].Finished? && s'.tasks[l.row].origin.Struck?)
  {
    assert TaskSound(cfg, inputs[l.row], s.tasks[l.row], s.abortEvent);
  }

  lemma EmittedStaySound(cfg: Config, inputs: seq<LLMInput>, s: State, l: Label, k: nat)
    requires Labelled(cfg, inputs, s) && l.Worker() && WorkerCan(cfg, inputs, s, l) && k < |s.emitted|
    ensures EmissionSound(cfg, inputs, WorkerDo(cfg, inputs, s, l), s.emitted[k])
  {
    hide ResultSound;
    WorkerFrame(cfg, inputs, s, l);
    assert EmissionSound(cfg, inputs, s, s.emitted[k]);
  }

  lemma LabelledKeptByWorker(cfg: Config, inputs: seq<LLMInput>, s: State, l: Label)
    requires Labelled(cfg, inputs, s) && l.Worker() && WorkerCan(cfg, inputs, s, l)
    ensures Labelled(cfg, inputs, WorkerDo(cfg, inputs, s, l))
  {
    hide WorkerDo, ResultSound, WorkerCan, EmissionSound, TaskSound;
    WorkerFrame(cfg, inputs, s, l);
    WorkerStaysSound(cfg, inputs, s, l);
    var s' := WorkerDo(cfg, inputs, s, l);
    forall row: nat | row < |s.tasks|
      ensures TaskSound(cfg, inputs[row], s'.tasks[row], s'.abortEvent)
    {
      if row != l.row {
        SoundUnderAbort(cfg, inputs[row], s.tasks[row], s.abortEvent, s'.abortEvent);
      }
    }
    forall k: nat | k < |s.emitted|
      ensures EmissionSound(cfg, inputs, s', s'.emitted[k])
    {
      EmittedStaySound(cfg, inputs, s, l, k);
    }
    if s.abortEvent {
      CauseRemains(s, s');
    } else if s'.abortEvent {
      assert s'.tasks[l.row].origin.Struck?;
    }
  }

  lemma SoundUnderAbort(cfg: Config, input: LLMInput, task: Task, before: bool, after: bool)
    requires TaskSound(cfg, input, task, before) && (before ==> after)
    ensures TaskSound(cfg, input, task, after)
  {
  }

  lemma LabelledKeptByReap(cfg: Config, inputs: seq<LLMInput>, s: State, l: Label)
    requires Labelled(cfg, inputs, s) && l.Reap? && GeneratorCan(cfg, inputs, s, l)
    ensures Labelled(cfg, inputs, GeneratorDo(cfg, inputs, s, l))
  {
    var s' := GeneratorDo(cfg, inputs, s, l);
    assert s'.tasks == s.tasks && s'.abortEvent == s.abortEvent;
    forall k | 0 <= k < |s'.emitted|
      ensures EmissionSound(cfg, inputs, s', s'.emitted[k])
    {
      if k < |s.emitted| {
        assert EmissionSound(cfg, inputs, s, s.emitted[k]);
      } else {
        assert TaskSound(cfg, inputs[l.row], s.tasks[l.row], s.abortEvent);
      }
    }
  }

  lemma NoneAbortedInLoop(cfg: Config, inputs: seq<LLMInput>, s: State)
    requires Shape(cfg, inputs, s) && s.pc.InLoop()
    ensures s.aborted == []
  {
  }

  lemma QueuedIsSound(cfg: Config, input: LLMInput, abortEvent: bool)
    ensures TaskSound(cfg, input, Queued, abortEvent)
  {
  }

  lemma LabelledKeptBySubmit(cfg: Config, inputs: seq<LLMInput>, s: State)
    requires Shape(cfg, inputs, s) && Labelled(cfg, inputs, s) && GeneratorCan(cfg, inputs, s, Submit)
    ensures Labelled(cfg, inputs, GeneratorDo(cfg, inputs, s, Submit))
  {
    NoneAbortedInLoop(cfg, inputs, s);
    hide ResultSound, TaskSound, Shape;
    var s' := GeneratorDo(cfg, inputs, s, Submit);
    assert s'.tasks == s.tasks + [Queued];
    QueuedIsSound(cfg, inputs[|s.tasks|], s.abortEvent);
    CauseRemains(s, s');
    forall k | 0 <= k < |s'.emitted|
      ensures EmissionSound(cfg, inputs, s', s'.emitted[k])
    {
      assert EmissionSound(cfg, inputs, s, s.emitted[k]);
    }
  }

  lemma LabelledKeptLooping(cfg: Config, inputs: seq<LLMInput>, s: State, l: Label)
    requires Shape(cfg, inputs, s) && Labelled(cfg, inputs, s) && l.Looping() && GeneratorCan(cfg, inputs, s, l)
    requires !l.Reap? && !l.Submit?
    ensures Labelled(cfg, inputs, GeneratorDo(cfg, inputs, s, l))
  {
    hide ResultSound, TaskSound;
    var s' := GeneratorDo(cfg, inputs, s, l);
    assert s'.tasks == s.tasks && s'.emitted == s.emitted;
    CauseRemains(s, s');
    forall k | 0 <= k < |s'.emitted|
      ensures EmissionSound(cfg, inputs, s', s'.emitted[k])
    {
      assert EmissionSound(cfg, inputs, s, s.emitted[k]);
    }
  }

  lemma CancelledIsSound(cfg: Config, input: LLMInput)
    ensures TaskSound(cfg, input, Cancelled, true)
  {
  }

  lemma LabelledKeptByCancel(cfg: Config, inputs: seq<LLMInput>, s: State, l: Label)
    requires Labelled(cfg, inputs, s) && l.Cancel? && GeneratorCan(cfg, inputs, s, l)
    ensures Labelled(cfg, inputs, GeneratorDo(cfg, inputs, s, l))
  {
    hide ResultSound, TaskSound;
    var s' := GeneratorDo(cfg, inputs, s, l);
    assert s'.tasks == s.tasks || (s.tasks[l.row].Queued? && s'.tasks == s.tasks[l.row := Cancelled]);
    assert s'.emitted == s.emitted && s'.aborted == s.aborted && s'.abortEvent == s.abortEvent;
    CauseRemains(s, s');
    CancelledIsSound(cfg, inputs[l.row]);
    forall k | 0 <= k < |s'.emitted|
      ensures EmissionSound(cfg, inputs, s', s'.emitted[k])
    {
      assert EmissionSound(cfg, inputs, s, s.emitted[k]);
    }
  }

  lemma LabelledKeptByDrain(cfg: Config, inputs: seq<LLMInput>, s: State, l: Label)
    requires Shape(cfg, inputs, s) && Labelled(cfg, inputs, s) && l.Drain? && GeneratorCan(cfg, inputs, s, l)
    ensures Labelled(cfg, inputs, GeneratorDo(cfg, inputs, s, l))
  {
    hide ResultSound;
    var s' := GeneratorDo(cfg, inputs, s, l);
    assert s'.tasks == s.tasks && s'.abortEvent == s.abortEvent;
    assert TaskSound(cfg, inputs[l.row], s.tasks[l.row], s.abortEvent);
    forall k | 0 <= k < |s'.emitted|
      ensures EmissionSound(cfg, inputs, s', s'.emitted[k])
    {
      assert k < |s.emitted| ==> EmissionSound(cfg, inputs, s, s.emitted[k]);
    }
  }

  lemma LabelledKeptBySkip(cfg: Config, inputs: seq<LLMInput>, s: State)
    requires Labelled(cfg, inputs, s) && GeneratorCan(cfg, inputs, s, Skip)
    ensures Labelled(cfg, inputs, GeneratorDo(cfg, inputs, s, Skip))
  {
    hide TaskSound;
    var s' := GeneratorDo(cfg, inputs, s, Skip);
    assert s'.tasks == s.tasks && s'.abortEvent == s.abortEvent;
    assert NeverRan(s, s.pc.rest[0]);
    forall k | 0 <= k < |s'.emitted|
      ensures EmissionSound(cfg, inputs, s', s'.emitted[k])
    {
      assert k < |s.emitted| ==> EmissionSound(cfg, inputs, s, s.emitted[k]);
    }
  }

  // The steps between two stages of the closing touch neither tasks nor results.
  lemma LabelledKeptBetween(cfg: Config, inputs: seq<LLMInput>, s: State, l: Label)
    requires l.EndCancel? || l.EndDrain? || l.Close?
    requires Labelled(cfg, inputs, s) && GeneratorCan(cfg, inputs, s, l)
    ensures Labelled(cfg, inputs, GeneratorDo(cfg, inputs, s, l))
  {
    hide ResultSound, TaskSound;
    var s' := GeneratorDo(cfg, inputs, s, l);
    assert s'.tasks == s.tasks && s'.abortEvent == s.abortEvent && s'.emitted == s.emitted;
    forall k | 0 <= k < |s'.emitted|
      ensures EmissionSound(cfg, inputs, s', s'.emitted[k])
    {
      assert EmissionSound(cfg, inputs, s, s.emitted[k]);
    }
  }

  lemma LabelledKept(cfg: Config, inputs: seq<LLMInput>, s: State, l: Label)
    requires Shape(cfg, inputs, s) && Labelled(cfg, inputs, s) && Can(cfg, inputs, s, l)
    ensures Labelled(cfg, inputs, Do(cfg, inputs, s, l))
  {
    hide Shape, Labelled, WorkerDo, GeneratorDo, WorkerCan, GeneratorCan;
    if l.Worker() {
      LabelledKeptByWorker(cfg, inputs, s, l);
    } else if l.Looping() {
      if l.Reap? {
        LabelledKeptByReap(cfg, inputs, s, l);
      } else if l.Submit? {
        LabelledKeptBySubmit(cfg, inputs, s);
      } else {
        LabelledKeptLooping(cfg, inputs, s, l);
      }
    } else if l.Cancel? {
      LabelledKeptByCancel(cfg, inputs, s, l);
    } else if l.Drain? {
      LabelledKeptByDrain(cfg, inputs, s, l);
    } else if l.Skip? {
      LabelledKeptBySkip(cfg, inputs, s);
    } else {
      LabelledKeptBetween(cfg, inputs, s, l);
    }
  }

  // ---- History: what each row's calls were, and that its result comes from the last ----

  predicate IsRetry(answer: Answer) {
    answer.Failure? && answer.disposition.RETRY?
  }

  predicate IsStrike(answer: Answer) {
    answer.Failure? && answer.disposition.ABORT_BATCH?
  }

  // The result of a row whose last call ended like this.
  function ResultOf(input: LLMInput, answer: Answer): LLMResult {
    match answer
    case Reply(response) => CompleteResult(input, response)
    case Failure(text, _) => FailedResult(input, Backend(text))
  }

  // All answers to a row before an attempt were worth a retry.
  ghost predicate RetriedUntil(answers: set<Given>, row: nat, attempt: nat) {
    forall g :: g in answers && g.row == row ==> g.attempt < attempt && IsRetry(g.answer)
  }

  // `g` is the answer that settled its row: the others were retried, and this one was not
  // worth a retry or left no attempt for one.
  ghost predicate Settles(cfg: Config, answers: set<Given>, g: Given) {
    && g in answers
    && (IsRetry(g.answer) ==> g.attempt == cfg.maxAttempts)
    && RetriedUntil(answers - {g}, g.row, g.attempt)
  }

  ghost predicate SettledAs(
    cfg: Config, input: LLMInput, row: nat, result: LLMResult, strikes: bool, answers: set<Given>)
  {
    exists g :: Settles(cfg, answers, g) && g.row == row
      && result == ResultOf(input, g.answer) && strikes == IsStrike(g.answer)
  }

  ghost predicate TaskRecorded(
    cfg: Config, input: LLMInput, row: nat, task: Task, called: set<nat>, answers: set<Given>)
  {
    match task
    case InCall(attempt) => row in called && 1 <= attempt <= cfg.maxAttempts && RetriedUntil(answers, row, attempt)
    case Aborting(text) =>
      row in called && SettledAs(cfg, input, row, FailedResult(input, Backend(text)), true, answers)
    case Finished(result, origin) =>
      if origin.Answered? || origin.Struck?
      then row in called && SettledAs(cfg, input, row, result, origin.Struck?, answers)
      else row !in called
    case _ => row !in called
  }

  ghost predicate GivenSound(cfg: Config, inputs: seq<LLMInput>, called: set<nat>, g: Given) {
    && g.row < |inputs|
    && g.row in called
    && 1 <= g.attempt <= cfg.maxAttempts
    && cfg.may(inputs[g.row], g.attempt, g.answer)
  }

  ghost predicate Recorded(cfg: Config, inputs: seq<LLMInput>, s: State) {
    && |s.tasks| <= |inputs|
    && s.late <= s.called
    && (forall row :: row in s.called ==> row < |s.tasks|)
    && (forall g :: g in s.answers ==> GivenSound(cfg, inputs, s.called, g))
    && (forall row :: 0 <= row < |s.tasks| ==> TaskRecorded(cfg, inputs[row], row, s.tasks[row], s.called, s.answers))
  }

  // A row's record depends on its own calls only.
  lemma OthersStayRecorded(
    cfg: Config, input: LLMInput, row: nat, task: Task,
    called: set<nat>, answers: set<Given>, called': set<nat>, answers': set<Given>)
    requires TaskRecorded(cfg, input, row, task, called, answers)
    requires row in called' <==> row in called
    requires forall g: Given :: g.row == row ==> (g in answers' <==> g in answers)
    ensures TaskRecorded(cfg, input, row, task, called', answers')
  {
    if task.Aborting? || (task.Finished? && (task.origin.Answered? || task.origin.Struck?)) {
      var result := if task.Finished? then task.result else FailedResult(input, Backend(task.text));
      var strikes := if task.Finished? then task.origin.Struck? else true;
      var g :| Settles(cfg, answers, g) && g.row == row
        && result == ResultOf(input, g.answer) && strikes == IsStrike(g.answer);
      assert Settles(cfg, answers', g);
    }
  }

  lemma AnswerIsRecorded(
    cfg: Config, input: LLMInput, row: nat, attempt: nat, answer: Answer, called: set<nat>, answers: set<Given>)
    requires cfg.Valid() && TaskRecorded(cfg, input, row, InCall(attempt), called, answers)
    ensures TaskRecorded(
      cfg, input, row, AfterCall(cfg, input, attempt, answer), called, answers + {Given(row, attempt, answer)})
  {
    var g := Given(row, attempt, answer);
    var answers' := answers + {g};
    assert g !in answers;
    assert answers' - {g} == answers;
    if !(IsRetry(answer) && attempt < cfg.maxAttempts) {
      assert Settles(cfg, answers', g);
    }
  }

  lemma OwnTaskStaysRecorded(cfg: Config, inputs: seq<LLMInput>, s: State, l: Label)
    requires cfg.Valid() && Recorded(cfg, inputs, s) && l.Worker() && WorkerCan(cfg, inputs, s, l)
    ensures
      var s' := WorkerDo(cfg, inputs, s, l);
      TaskRecorded(cfg, inputs[l.row], l.row, s'.tasks[l.row], s'.called, s'.answers)
  {
    hide SettledAs, RetriedUntil;
    var input := inputs[l.row];
    assert TaskRecorded(cfg, input, l.row, s.tasks[l.row], s.called, s.answers);
    match l
    case Respond(row, answer) =>
      AnswerIsRecorded(cfg, input, row, s.tasks[row].attempt, answer, s.called, s.answers);
    case Parse(row) => NoAnswersYet(cfg, inputs, s, row);
    case _ =>
  }

  lemma NoAnswersYet(cfg: Config, inputs: seq<LLMInput>, s: State, row: nat)
    requires Recorded(cfg, inputs, s) && row !in s.called
    ensures RetriedUntil(s.answers, row, 1)
  {
    forall g | g in s.answers
      ensures g.row != row
    {
      assert GivenSound(cfg, inputs, s.called, g);
    }
  }

  lemma RecordedKeptByWorker(cfg: Config, inputs: seq<LLMInput>, s: State, l: Label)
    requires cfg.Valid() && Recorded(cfg, inputs, s) && l.Worker() && WorkerCan(cfg, inputs, s, l)
    ensures Recorded(cfg, inputs, WorkerDo(cfg, inputs, s, l))
  {
    var s' := WorkerDo(cfg, inputs, s, l);
    WorkerFrame(cfg, inputs, s, l);
    CallsOfStep(cfg, inputs, s, l);
    OwnTaskStaysRecorded(cfg, inputs, s, l);
    hide WorkerDo, WorkerCan, TaskRecorded;
    forall row: nat | row < |s'.tasks|
      ensures TaskRecorded(cfg, inputs[row], row, s'.tasks[row], s'.called, s'.answers)
    {
      if row != l.row {
        OthersStayRecorded(cfg, inputs[row], row, s.tasks[row], s.called, s.answers, s'.called, s'.answers);
      }
    }
  }

  // A worker's step adds at most its own row, and at most one answer, an allowed one.
  lemma CallsOfStep(cfg: Config, inputs: seq<LLMInput>, s: State, l: Label)
    requires cfg.Valid() && Recorded(cfg, inputs, s) && l.Worker() && WorkerCan(cfg, inputs, s, l)
    ensures
      var s' := WorkerDo(cfg, inputs, s, l);
      && s.called <= s'.called <= s.called + {l.row}
      && s'.late <= s'.called
      && (forall g: Given :: g.row != l.row ==> (g in s'.answers <==> g in s.answers))
      && (forall g :: g in s'.answers ==> GivenSound(cfg, inputs, s'.called, g))
  {
    hide SettledAs, RetriedUntil;
    assert TaskRecorded(cfg, inputs[l.row], l.row, s.tasks[l.row], s.called, s.answers);
    var s' := WorkerDo(cfg, inputs, s, l);
    forall g | g in s'.answers
      ensures GivenSound(cfg, inputs, s'.called, g)
    {
      assert g in s.answers ==> GivenSound(cfg, inputs, s.called, g);
    }
  }

  lemma RecordedKeptByGenerator(cfg: Config, inputs: seq<LLMInput>, s: State, l: Label)
    requires Recorded(cfg, inputs, s) && !l.Worker() && GeneratorCan(cfg, inputs, s, l)
    ensures Recorded(cfg, inputs, GeneratorDo(cfg, inputs, s, l))
  {
    hide SettledAs, RetriedUntil, GivenSound;
    var s' := GeneratorDo(cfg, inputs, s, l);
    assert s'.late == s.late && s'.called == s.called && s'.answers == s.answers;
    forall row: nat | row < |s'.tasks|
      ensures TaskRecorded(cfg, inputs[row], row, s'.tasks[row], s.called, s.answers)
    {
      assert row < |s.tasks| ==> TaskRecorded(cfg, inputs[row], row, s.tasks[row], s.called, s.answers);
    }
  }

  // Each result is true to its row, to how it came about, and to the calls that were made.
  ghost predicate Sourced(cfg: Config, inputs: seq<LLMInput>, s: State) {
    Labelled(cfg, inputs, s) && Recorded(cfg, inputs, s)
  }

  lemma SourcedKept(cfg: Config, inputs: seq<LLMInput>, s: State, l: Label)
    requires Shape(cfg, inputs, s) && Sourced(cfg, inputs, s) && Can(cfg, inputs, s, l)
    ensures Sourced(cfg, inputs, Do(cfg, inputs, s, l))
  {
    LabelledKept(cfg, inputs, s, l);
    assert cfg.Valid();
    hide Shape, Labelled, Recorded, WorkerDo, GeneratorDo, WorkerCan, GeneratorCan;
    if l.Worker() {
      RecordedKeptByWorker(cfg, inputs, s, l);
    } else {
      RecordedKeptByGenerator(cfg, inputs, s, l);
    }
  }
}
