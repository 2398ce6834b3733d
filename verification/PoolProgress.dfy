// Every schedule of the pool ends: no state short of the end is stuck, and every step
// uses up part of a budget fixed by the number of rows and of attempts.
module PoolProgress {
  import opened Rows
  import opened Pool
  import opened PoolInvariants
  import opened PoolTheorems

  // ---- No deadlock ----

  ghost predicate CanAnswer(cfg: Config, input: LLMInput, attempt: nat) {
    exists answer :: cfg.may(input, attempt, answer)
  }

  // The backend always answers something.
  ghost predicate Responsive(cfg: Config) {
    forall input, attempt :: CanAnswer(cfg, input, attempt)
  }

  lemma BusyTaskCanStep(cfg: Config, inputs: seq<LLMInput>, s: State, row: nat) returns (l: Label)
    requires Responsive(cfg) && |s.tasks| <= |inputs| && row < |s.tasks| && s.tasks[row].Busy()
    ensures l.Worker() && WorkerCan(cfg, inputs, s, l)
  {
    match s.tasks[row]
    case Queued => l := Start(row);
    case Started => l := Check(row);
    case Admitted => l := Parse(row);
    case InCall(attempt) =>
      assert CanAnswer(cfg, inputs[row], attempt);
      var answer :| cfg.may(inputs[row], attempt, answer);
      l := Respond(row, answer);
    case Aborting(_) => l := SetAbort(row);
  }

  lemma First(rows: set<nat>) returns (row: nat)
    requires rows != {}
    ensures IsFirst(row, rows)
  {
    row :| row in rows;
    if rows != {row} {
      assert rows == (rows - {row}) + {row};
      var other := First(rows - {row});
      assert forall r :: r in rows ==> r == row || r in rows - {row};
      row := if other < row then other else row;
    }
  }

  // As long as the generator is not exhausted, some thread can move.
  lemma NeverStuck(cfg: Config, inputs: seq<LLMInput>, s: State) returns (l: Label)
    requires Shape(cfg, inputs, s) && Sourced(cfg, inputs, s) && Responsive(cfg) && !s.pc.Closed?
    ensures Can(cfg, inputs, s, l)
  {
    match s.pc
    case Filling => l := if |s.inFlight| < cfg.maxWorkers && |s.tasks| < |inputs| then Submit else EndFill;
    case Waiting =>
      if s.inFlight == {} {
        l := LeaveLoop;
      } else {
        var row: nat :| row in s.inFlight;
        if s.tasks[row].Finished? {
          l := Wait({row});
        } else {
          l := BusyTaskCanStep(cfg, inputs, s, row);
        }
      }
    case Reaping(done) =>
      if done == {} {
        l := EndReap;
      } else {
        var row: nat :| row in done;
        l := Reap(row);
      }
    case Deciding => l := Decide;
    case Cancelling(todo) =>
      if todo == {} {
        l := EndCancel;
      } else {
        var row := First(todo);
        l := Cancel(row);
      }
    case Draining(todo) =>
      if todo == {} {
        l := EndDrain;
      } else {
        var row := First(todo);
        if s.tasks[row].Busy() {
          l := BusyTaskCanStep(cfg, inputs, s, row);
        } else {
          l := Drain(row);
        }
      }
    case Skipping(rest) => l := if rest == [] then Close else Skip;
  }

  // ---- A budget every step draws on ----

  function TaskWeight(cfg: Config, task: Task): nat {
    match task
    case Queued => cfg.maxAttempts + 4
    case Started => cfg.maxAttempts + 3
    case Admitted => cfg.maxAttempts + 2
    case InCall(attempt) => (if attempt < cfg.maxAttempts then cfg.maxAttempts - attempt else 0) + 2
    case Aborting(_) => 1
    case _ => 0
  }

  function TotalWeight(cfg: Config, tasks: seq<Task>): nat {
    if tasks == [] then 0 else TotalWeight(cfg, tasks[..|tasks| - 1]) + TaskWeight(cfg, Last(tasks))
  }

  lemma {:induction false} WeightOfUpdate(cfg: Config, tasks: seq<Task>, row: nat, task: Task)
    requires row < |tasks|
    ensures TotalWeight(cfg, tasks[row := task])
         == TotalWeight(cfg, tasks) - TaskWeight(cfg, tasks[row]) + TaskWeight(cfg, task)
  {
    var last := |tasks| - 1;
    if row == last {
      assert tasks[row := task][..last] == tasks[..last];
    } else {
      WeightOfUpdate(cfg, tasks[..last], row, task);
      assert tasks[row := task][..last] == tasks[..last][row := task];
    }
  }

  function Times(count: nat, each: nat): nat {
    if count == 0 then 0 else each + Times(count - 1, each)
  }

  function PcWeight(inputs: seq<LLMInput>, pc: Pc): nat {
    var base := 2 * |inputs| + 4;
    match pc
    case Filling => base + 4
    case Waiting => base + 3
    case Reaping(done) => if done == {} then base + 6 else base + 2
    case Deciding => base + 5
    case Cancelling(todo) => |inputs| + 3 + |todo|
    case Draining(todo) => 2 + |todo|
    case Skipping(_) => 1
    case Closed => 0
  }

  ghost function GeneratorBudget(inputs: seq<LLMInput>, s: State): nat
    requires |s.tasks| <= |inputs|
  {
    10 * |Owed(inputs, s)| + PcWeight(inputs, s.pc)
  }

  ghost function WorkerBudget(cfg: Config, inputs: seq<LLMInput>, s: State): nat
    requires |s.tasks| <= |inputs|
  {
    Times(|inputs| - |s.tasks|, cfg.maxAttempts + 5) + TotalWeight(cfg, s.tasks)
  }

  ghost function Budget(cfg: Config, inputs: seq<LLMInput>, s: State): nat
    requires |s.tasks| <= |inputs|
  {
    GeneratorBudget(inputs, s) + WorkerBudget(cfg, inputs, s)
  }

  lemma TaskAdvances(cfg: Config, inputs: seq<LLMInput>, s: State, l: Label)
    requires cfg.Valid() && l.Worker() && WorkerCan(cfg, inputs, s, l)
    ensures |WorkerDo(cfg, inputs, s, l).tasks| == |s.tasks|
    ensures TaskWeight(cfg, WorkerDo(cfg, inputs, s, l).tasks[l.row]) < TaskWeight(cfg, s.tasks[l.row])
  {
  }

  lemma WorkerPays(cfg: Config, inputs: seq<LLMInput>, s: State, l: Label)
    requires cfg.Valid() && |s.tasks| <= |inputs| && l.Worker() && WorkerCan(cfg, inputs, s, l)
    ensures |WorkerDo(cfg, inputs, s, l).tasks| <= |inputs|
    ensures Budget(cfg, inputs, WorkerDo(cfg, inputs, s, l)) < Budget(cfg, inputs, s)
  {
    WorkerFrame(cfg, inputs, s, l);
    TaskAdvances(cfg, inputs, s, l);
    WeightOfUpdate(cfg, s.tasks, l.row, WorkerDo(cfg, inputs, s, l).tasks[l.row]);
  }

  lemma {:induction false} CountBelow(rows: set<nat>, n: nat)
    requires forall row :: row in rows ==> row < n
    ensures |rows| <= n
  {
    if n > 0 {
      CountBelow(rows - {n - 1}, n - 1);
    }
  }

  lemma SubmitPays(cfg: Config, inputs: seq<LLMInput>, s: State)
    requires Shape(cfg, inputs, s) && GeneratorCan(cfg, inputs, s, Submit)
    ensures |GeneratorDo(cfg, inputs, s, Submit).tasks| <= |inputs|
    ensures Budget(cfg, inputs, GeneratorDo(cfg, inputs, s, Submit)) < Budget(cfg, inputs, s)
  {
    SubmitOwesTheSame(cfg, inputs, s);
    assert (s.tasks + [Queued])[..|s.tasks|] == s.tasks;
  }

  lemma SilentLoopStepPays(cfg: Config, inputs: seq<LLMInput>, s: State, l: Label)
    requires Shape(cfg, inputs, s) && l.Looping() && !l.Submit? && !Emits(s, l) && GeneratorCan(cfg, inputs, s, l)
    ensures |GeneratorDo(cfg, inputs, s, l).tasks| <= |inputs|
    ensures Budget(cfg, inputs, GeneratorDo(cfg, inputs, s, l)) < Budget(cfg, inputs, s)
  {
    SilentLoopStep(cfg, inputs, s, l);
    CountBelow(s.inFlight, |inputs|);
  }

  lemma EmissionPays(cfg: Config, inputs: seq<LLMInput>, s: State, l: Label)
    requires Shape(cfg, inputs, s) && !l.Worker() && Emits(s, l) && GeneratorCan(cfg, inputs, s, l)
    ensures |GeneratorDo(cfg, inputs, s, l).tasks| <= |inputs|
    ensures Budget(cfg, inputs, GeneratorDo(cfg, inputs, s, l)) < Budget(cfg, inputs, s)
  {
    if l.Reap? { ReapPaysOff(cfg, inputs, s, l); } else { ClosingPaysOff(cfg, inputs, s, l); }
    var s' := GeneratorDo(cfg, inputs, s, l);
    assert |Owed(inputs, s)| == |Owed(inputs, s')| + 1;
    assert s'.tasks == s.tasks;
  }

  lemma SilentClosingStepPays(cfg: Config, inputs: seq<LLMInput>, s: State, l: Label)
    requires Shape(cfg, inputs, s) && l.Closing() && !Emits(s, l) && GeneratorCan(cfg, inputs, s, l)
    ensures |GeneratorDo(cfg, inputs, s, l).tasks| <= |inputs|
    ensures Budget(cfg, inputs, GeneratorDo(cfg, inputs, s, l)) < Budget(cfg, inputs, s)
  {
    SilentClosingStep(cfg, inputs, s, l);
    CountBelow(s.inFlight, |inputs|);
    if l.Cancel? && s.tasks[l.row].Queued? {
      WeightOfUpdate(cfg, s.tasks, l.row, Cancelled);
    }
  }

  lemma StepPays(cfg: Config, inputs: seq<LLMInput>, s: State, l: Label)
    requires Shape(cfg, inputs, s) && Can(cfg, inputs, s, l)
    ensures |Do(cfg, inputs, s, l).tasks| <= |inputs|
    ensures Budget(cfg, inputs, Do(cfg, inputs, s, l)) < Budget(cfg, inputs, s)
  {
    if l.Worker() {
      WorkerPays(cfg, inputs, s, l);
    } else if Emits(s, l) {
      EmissionPays(cfg, inputs, s, l);
    } else if l.Submit? {
      SubmitPays(cfg, inputs, s);
    } else if l.Looping() {
      SilentLoopStepPays(cfg, inputs, s, l);
    } else {
      SilentClosingStepPays(cfg, inputs, s, l);
    }
  }

  lemma ShapeOverRun(cfg: Config, inputs: seq<LLMInput>, run: seq<State>, schedule: seq<Label>, k: nat)
    requires cfg.Valid() && IsRun(cfg, inputs, run, schedule) && k < |run|
    ensures |run[k].tasks| <= |inputs| && Shape(cfg, inputs, run[k])
  {
    RunIsSound(cfg, inputs, run, schedule, k);
  }

  lemma {:induction false} BudgetOverRun(
    cfg: Config, inputs: seq<LLMInput>, run: seq<State>, schedule: seq<Label>, k: nat)
    requires cfg.Valid() && IsRun(cfg, inputs, run, schedule) && k < |run|
    ensures |run[k].tasks| <= |inputs|
    ensures Budget(cfg, inputs, run[k]) + k <= Budget(cfg, inputs, INITIAL)
  {
    hide Budget, Sound, Do, Can, Shape;
    if k > 0 {
      BudgetOverRun(cfg, inputs, run, schedule, k - 1);
      ShapeOverRun(cfg, inputs, run, schedule, k - 1);
      StepPays(cfg, inputs, run[k - 1], schedule[k - 1]);
    }
  }

  lemma {:induction false} TimesIsProduct(count: nat, each: nat)
    ensures Times(count, each) == count * each
  {
    if count > 0 {
      TimesIsProduct(count - 1, each);
    }
  }

  // No schedule is longer than this, so a schedule that cannot be extended has, by
  // NeverStuck, consumed the generator.
  lemma SchedulesAreBounded(cfg: Config, inputs: seq<LLMInput>, run: seq<State>, schedule: seq<Label>)
    requires cfg.Valid() && IsRun(cfg, inputs, run, schedule)
    ensures |schedule| <= |inputs| * (cfg.maxAttempts + 5) + 12 * |inputs| + 8
  {
    BudgetOverRun(cfg, inputs, run, schedule, |schedule|);
    TimesIsProduct(|inputs|, cfg.maxAttempts + 5);
  }

  // A schedule that no step extends has emitted every row exactly once.
  lemma MaximalSchedulesFinish(cfg: Config, inputs: seq<LLMInput>, run: seq<State>, schedule: seq<Label>)
    requires cfg.Valid() && Responsive(cfg) && IsRun(cfg, inputs, run, schedule)
    requires forall l :: !Can(cfg, inputs, Last(run), l)
    ensures Consumed(cfg, inputs, run, schedule)
    ensures multiset(RowsOf(Last(run).emitted)) == multiset(Range(0, |inputs|))
  {
    RunIsSound(cfg, inputs, run, schedule, |run| - 1);
    if !Last(run).pc.Closed? {
      var l := NeverStuck(cfg, inputs, Last(run));
      assert false;
    }
    ExactlyOnce(cfg, inputs, run, schedule);
  }

  // ---- Every run can be finished ----

  lemma ExtendRun(cfg: Config, inputs: seq<LLMInput>, run: seq<State>, schedule: seq<Label>, l: Label)
    requires IsRun(cfg, inputs, run, schedule) && Can(cfg, inputs, Last(run), l)
    ensures IsRun(cfg, inputs, run + [Do(cfg, inputs, Last(run), l)], schedule + [l])
  {
    var run', schedule' := run + [Do(cfg, inputs, Last(run), l)], schedule + [l];
    forall k | 0 <= k < |schedule'|
      ensures Can(cfg, inputs, run'[k], schedule'[k]) && run'[k + 1] == Do(cfg, inputs, run'[k], schedule'[k])
    {
      if k < |schedule| {
        assert run'[k] == run[k] && run'[k + 1] == run[k + 1] && schedule'[k] == schedule[k];
      }
    }
  }

  lemma EmittedGrows(cfg: Config, inputs: seq<LLMInput>, s: State, l: Label)
    requires Can(cfg, inputs, s, l)
    ensures s.emitted <= Do(cfg, inputs, s, l).emitted
  {
  }

  // From wherever a schedule stands, it can go on to the end, and what it has emitted stays.
  lemma EveryRunCanFinish(cfg: Config, inputs: seq<LLMInput>, run: seq<State>, schedule: seq<Label>)
      returns (run': seq<State>, schedule': seq<Label>)
    requires cfg.Valid() && Responsive(cfg) && IsRun(cfg, inputs, run, schedule) && |Last(run).tasks| <= |inputs|
    ensures Consumed(cfg, inputs, run', schedule')
    ensures run <= run' && Last(run).emitted <= Last(run').emitted
    decreases Budget(cfg, inputs, Last(run))
  {
    hide Budget, Conserved, LateBound, Can, Do, Shape, Sourced;
    var s := Last(run);
    RunIsSound(cfg, inputs, run, schedule, |run| - 1);
    if s.pc.Closed? {
      run', schedule' := run, schedule;
    } else {
      var l := NeverStuck(cfg, inputs, s);
      StepPays(cfg, inputs, s, l);
      EmittedGrows(cfg, inputs, s, l);
      ExtendRun(cfg, inputs, run, schedule, l);
      run', schedule' := EveryRunCanFinish(cfg, inputs, run + [Do(cfg, inputs, s, l)], schedule + [l]);
    }
  }

  // So what a page has yielded when its worker dies is the beginning of an answer to the
  // whole page.
  lemma PartOfAnAnswer(cfg: Config, inputs: seq<LLMInput>, run: seq<State>, schedule: seq<Label>)
      returns (stream: seq<LLMResult>)
    requires cfg.Valid() && Responsive(cfg) && IsRun(cfg, inputs, run, schedule)
    ensures AnswersPage(inputs, stream) && Results(Last(run).emitted) <= stream
  {
    ShapeOverRun(cfg, inputs, run, schedule, |run| - 1);
    var run', schedule' := EveryRunCanFinish(cfg, inputs, run, schedule);
    ExactlyOnce(cfg, inputs, run', schedule');
    stream := Results(Last(run').emitted);
  }
}
