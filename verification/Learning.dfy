// One provider shared by the threads of a pool: any number of temperature fallbacks
// (_complete_with_temperature_fallback in src/llm_worker/providers/base.py) interleave on
// the set of models that reject a temperature.
module Learning {
  import opened Json
  import opened Adaptive

  // Where a thread is in a fallback. `met` is the set as the fallback found it, `learned` the
  // set once it had added its model.
  datatype Thread =
    | Idle
    | Calling(model: string, target: string, omit: bool, met: set<string>, sends: bool)
    | Rejected(model: string, target: string, met: set<string>, first: Outcome)
    | Retrying(model: string, target: string, met: set<string>, first: Outcome, learned: set<string>)

  // `rejections` counts, for each model, the calls that sent a temperature and were rejected
  // for it.
  datatype State = State(omit: set<string>, threads: seq<Thread>, rejections: multiset<string>)

  // A thread begins a fallback whenever it likes: for a new row, a retry, or the bare model
  // after its ARN. It learns some time after its rejection has come in.
  datatype Label =
    | Begin(t: nat, model: string, target: string, omit: bool)
    | Answer(t: nat, outcome: Outcome)
    | Learn(t: nat)

  predicate Can(s: State, l: Label) {
    && l.t < |s.threads|
    && match l
       case Begin(t, _, _, _) => s.threads[t].Idle?
       case Answer(t, _) => s.threads[t].Calling? || s.threads[t].Retrying?
       case Learn(t) => s.threads[t].Rejected?
  }

  // Whether an answer is the rejection of a temperature that was sent.
  predicate IsRejected(thread: Thread, outcome: Outcome) {
    thread.Calling? && thread.sends && IsTemperatureRejection(outcome)
  }

  function Do(s: State, l: Label): State
    requires Can(s, l)
  {
    var thread := s.threads[l.t];
    match l
    case Begin(t, model, target, omit) =>
      s.(threads := s.threads[t := Calling(model, target, omit, s.omit, !omit && model !in s.omit)])
    case Answer(t, outcome) =>
      if IsRejected(thread, outcome)
      then s.(threads := s.threads[t := Rejected(thread.model, thread.target, thread.met, outcome)],
              rejections := s.rejections + multiset{thread.model})
      else s.(threads := s.threads[t := Idle])
    case Learn(t) =>
      var learned := s.omit + {thread.model};
      s.(omit := learned,
         threads := s.threads[t := Retrying(thread.model, thread.target, thread.met, thread.first, learned)])
  }

  function Start(omit: set<string>, threads: nat): State {
    State(omit, seq(threads, _ => Idle), multiset{})
  }

  ghost predicate IsRun(omit: set<string>, threads: nat, run: seq<State>, schedule: seq<Label>) {
    && |run| == |schedule| + 1
    && run[0] == Start(omit, threads)
    && forall k :: 0 <= k < |schedule| ==> Can(run[k], schedule[k]) && run[k + 1] == Do(run[k], schedule[k])
  }

  // ---- At most one rejection for each thread ----

  // The threads whose call sent a temperature to the model, and those about to learn.
  function Sending(s: State, model: string): set<nat> {
    set t: nat | t < |s.threads| && s.threads[t].Calling? && s.threads[t].sends && s.threads[t].model == model
  }

  function Waiting(s: State, model: string): set<nat> {
    set t: nat | t < |s.threads| && s.threads[t].Rejected? && s.threads[t].model == model
  }

  // Until the model is learned, every rejection is still held by its thread; from then on only
  // the calls already on their way can add to them.
  ghost predicate Bounded(s: State, model: string) {
    if model in s.omit then s.rejections[model] + |Sending(s, model)| <= |s.threads|
    else s.rejections[model] == |Waiting(s, model)|
  }

  lemma {:induction false} AtMost(some: set<nat>, n: nat)
    requires forall t :: t in some ==> t < n
    ensures |some| <= n
  {
    if n > 0 {
      AtMost(some - {n - 1}, n - 1);
    }
  }

  lemma SendingAndWaiting(s: State, model: string)
    ensures |Waiting(s, model)| + |Sending(s, model)| <= |s.threads|
  {
    var both := Waiting(s, model) + Sending(s, model);
    assert |both| == |Waiting(s, model)| + |Sending(s, model)|;
    AtMost(both, |s.threads|);
  }

  lemma BeginKeepsBound(s: State, l: Label, model: string)
    requires Bounded(s, model) && Can(s, l) && l.Begin?
    ensures Bounded(Do(s, l), model)
  {
    var s' := Do(s, l);
    assert Waiting(s', model) == Waiting(s, model);
    assert model in s.omit ==> Sending(s', model) == Sending(s, model);
  }

  // A rejection moves its thread from the sending to the waiting ones; any other answer takes
  // it off the sending ones at most.
  lemma AnswerMoves(s: State, l: Label, model: string)
    requires Can(s, l) && l.Answer?
    ensures
      var s' := Do(s, l);
      Sending(s', model) == Sending(s, model) - {l.t}
    ensures
      var s', thread := Do(s, l), s.threads[l.t];
      if IsRejected(thread, l.outcome) && thread.model == model
      then l.t in Sending(s, model) && l.t !in Waiting(s, model) && Waiting(s', model) == Waiting(s, model) + {l.t}
      else Waiting(s', model) == Waiting(s, model)
  {
    hide IsTemperatureRejection;
  }

  lemma AnswerKeepsBound(s: State, l: Label, model: string)
    requires Bounded(s, model) && Can(s, l) && l.Answer?
    ensures Bounded(Do(s, l), model)
  {
    AnswerMoves(s, l, model);
    hide IsRejected, Sending, Waiting;
  }

  lemma LearnKeepsBound(s: State, l: Label, model: string)
    requires Bounded(s, model) && Can(s, l) && l.Learn?
    ensures Bounded(Do(s, l), model)
  {
    var s' := Do(s, l);
    assert Sending(s', model) == Sending(s, model);
    if s.threads[l.t].model == model {
      SendingAndWaiting(s, model);
    } else {
      assert Waiting(s', model) == Waiting(s, model);
    }
  }

  lemma StartIsBounded(omit: set<string>, threads: nat, model: string)
    ensures Bounded(Start(omit, threads), model)
  {
    var s := Start(omit, threads);
    assert Sending(s, model) == {} && Waiting(s, model) == {};
  }

  lemma {:induction false} RunIsBounded(
    omit: set<string>, threads: nat, run: seq<State>, schedule: seq<Label>, model: string, k: nat)
    requires IsRun(omit, threads, run, schedule) && k < |run|
    ensures Bounded(run[k], model) && |run[k].threads| == threads
  {
    if k == 0 {
      StartIsBounded(omit, threads, model);
    } else {
      RunIsBounded(omit, threads, run, schedule, model, k - 1);
      var s, l := run[k - 1], schedule[k - 1];
      hide Bounded;
      match l {
        case Begin(_, _, _, _) => BeginKeepsBound(s, l, model);
        case Answer(_, _) => AnswerKeepsBound(s, l, model);
        case Learn(_) => LearnKeepsBound(s, l, model);
      }
    }
  }

  // However many fallbacks the threads run and however they interleave, the calls rejected for
  // a temperature they sent to a model are at most one for each thread.
  lemma RejectionsAreFew(
    omit: set<string>, threads: nat, run: seq<State>, schedule: seq<Label>, model: string, k: nat)
    requires IsRun(omit, threads, run, schedule) && k < |run|
    ensures run[k].rejections[model] <= threads
    ensures model in omit ==> run[k].rejections[model] == 0
  {
    RunIsBounded(omit, threads, run, schedule, model, k);
    SendingAndWaiting(run[k], model);
    if model in omit {
      LearnedStays(omit, threads, run, schedule, model, 0, k);
    }
  }

  // A model once learned is never sent a temperature again by a fallback begun later, and is
  // rejected only by calls already on their way.
  lemma {:induction false} LearnedStays(
    omit: set<string>, threads: nat, run: seq<State>, schedule: seq<Label>, model: string, i: nat, k: nat)
    requires IsRun(omit, threads, run, schedule) && i <= k < |run| && model in run[i].omit
    ensures model in run[k].omit && Sending(run[k], model) <= Sending(run[i], model)
    ensures run[k].rejections[model] + |Sending(run[k], model)| <= run[i].rejections[model] + |Sending(run[i], model)|
    decreases k
  {
    if i < k {
      LearnedStays(omit, threads, run, schedule, model, i, k - 1);
      SendingOnlyEnds(run[k - 1], schedule[k - 1], model);
    }
  }

  lemma SendingOnlyEnds(s: State, l: Label, model: string)
    requires Can(s, l) && model in s.omit
    ensures
      var s' := Do(s, l);
      && model in s'.omit
      && Sending(s', model) <= Sending(s, model)
      && s'.rejections[model] + |Sending(s', model)| <= s.rejections[model] + |Sending(s, model)|
  {
    var s' := Do(s, l);
    if l.Answer? {
      assert Sending(s', model) == Sending(s, model) - {l.t};
      assert IsRejected(s.threads[l.t], l.outcome) && s.threads[l.t].model == model ==> l.t in Sending(s, model);
    } else {
      assert Sending(s', model) == Sending(s, model);
    }
  }

  // ---- Each fallback, seen alone ----

  // What a thread remembers of its fallback is true of the shared set, which only grows.
  predicate Remembers(s: State, thread: Thread) {
    match thread
    case Idle => true
    case Calling(model, _, omit, met, sends) => met <= s.omit && sends == (!omit && model !in met)
    case Rejected(model, _, met, first) => met <= s.omit && model !in met && IsTemperatureRejection(first)
    case Retrying(model, _, met, first, learned) =>
      met <= learned <= s.omit && model !in met && model in learned && IsTemperatureRejection(first)
  }

  lemma {:induction false} ThreadsRemember(
    omit: set<string>, threads: nat, run: seq<State>, schedule: seq<Label>, k: nat, t: nat)
    requires IsRun(omit, threads, run, schedule) && k < |run| && t < threads
    ensures |run[k].threads| == threads && Remembers(run[k], run[k].threads[t])
  {
    hide IsTemperatureRejection;
    if k > 0 {
      ThreadsRemember(omit, threads, run, schedule, k - 1, t);
      RunIsBounded(omit, threads, run, schedule, "", k - 1);
    }
  }

  // The calls of a fallback that an answer ends.
  function Calls(thread: Thread, outcome: Outcome): seq<Call>
    requires thread.Calling? || thread.Retrying?
  {
    if thread.Calling? then [Call(thread.target, thread.sends, outcome)]
    else [Call(thread.target, true, thread.first), Call(thread.target, false, outcome)]
  }

  // When an answer ends a fallback, its calls and the set it leaves are those of the fallback
  // function, for some account of what the other threads learned meanwhile.
  lemma EndsAsFallback(
    omit: set<string>, threads: nat, run: seq<State>, schedule: seq<Label>, k: nat, since: map<string, real>)
      returns (script: Script)
    requires IsRun(omit, threads, run, schedule) && k < |schedule|
    requires schedule[k].Answer? && run[k + 1].threads[schedule[k].t].Idle?
    ensures
      var thread, outcome := run[k].threads[schedule[k].t], schedule[k].outcome;
      var omits := thread.Calling? && thread.omit;
      var d := Fallback(Memory(thread.met, since), thread.model, thread.target, omits, script, 0);
      d.calls == Calls(thread, outcome) && d.memory == Memory(run[k + 1].omit, since)
  {
    var t, outcome := schedule[k].t, schedule[k].outcome;
    RunIsBounded(omit, threads, run, schedule, "", k);
    ThreadsRemember(omit, threads, run, schedule, k, t);
    var s, thread := run[k], run[k].threads[t];
    assert since + map[] == since;
    if thread.Calling? {
      script := pos => Event(outcome, s.omit, map[]);
      assert thread.met + s.omit == s.omit;
    } else {
      script := pos => if pos == 0 then Event(thread.first, thread.learned, map[]) else Event(outcome, s.omit, map[]);
      assert thread.met + thread.learned + {thread.model} + s.omit == s.omit;
    }
  }
}
