// What any result row can be, read off its columns: what the backend can answer, a refusal of
// the parser, or an abort.
module Provenance {
  import opened Rows
  import opened Pool
  import opened PoolInvariants
  import opened PoolTheorems

  // An answer the backend can give to an attempt of a row that gets that far, and after which
  // the row is not tried again.
  ghost predicate CanSettle(cfg: Config, input: LLMInput, attempt: nat, answer: Answer) {
    && Decode(cfg.loads, input).Request?
    && 1 <= attempt <= cfg.maxAttempts
    && cfg.may(input, attempt, answer)
    && (IsRetry(answer) ==> attempt == cfg.maxAttempts)
  }

  ghost predicate Answers(cfg: Config, input: LLMInput, result: LLMResult) {
    exists attempt, answer :: CanSettle(cfg, input, attempt, answer) && Says(input, result, answer)
  }

  // The backend can abort the batch of a row, on another of its rows.
  ghost predicate CanAbort(cfg: Config, inputs: seq<LLMInput>, batch: Uuid) {
    exists other, attempt, text ::
      other in inputs && other.batchId == batch && CanSettle(cfg, other, attempt, Failure(text, ABORT_BATCH))
  }

  // A result row of one of the inputs: what the backend can answer to it, the parser's refusal,
  // or an abort in a batch that the backend can abort.
  ghost predicate GenuineFor(cfg: Config, inputs: seq<LLMInput>, input: LLMInput, result: LLMResult) {
    || Answers(cfg, input, result)
    || FromParser(cfg, input, result)
    || (Fails(input, result, BatchAborted) && CanAbort(cfg, inputs, input.batchId))
  }

  ghost predicate Genuine(cfg: Config, inputs: seq<LLMInput>, result: LLMResult) {
    exists input :: input in inputs && GenuineFor(cfg, inputs, input, result)
  }

  // An emission made while the flag is up is beside a task that struck.
  lemma FlagMeansStrike(cfg: Config, inputs: seq<LLMInput>, s: State, batch: Uuid)
    requires Sourced(cfg, inputs, s) && s.abortEvent
    requires forall row :: 0 <= row < |inputs| ==> inputs[row].batchId == batch
    ensures CanAbort(cfg, inputs, batch)
  {
    var row: nat :| row < |s.tasks| && s.tasks[row].Finished? && s.tasks[row].origin.Struck?;
    var task := s.tasks[row];
    assert TaskRecorded(cfg, inputs[row], row, task, s.called, s.answers);
    assert TaskSound(cfg, inputs[row], task, s.abortEvent);
    var g :|
      && Settles(cfg, s.answers, g) && g.row == row
      && task.result == ResultOf(inputs[row], g.answer) && IsStrike(g.answer);
    assert GivenSound(cfg, inputs, s.called, g);
    assert inputs[row] in inputs;
    assert CanSettle(cfg, inputs[row], g.attempt, Failure(g.answer.text, ABORT_BATCH));
  }

  // Whatever a page yields, at any point of any schedule, is genuine.
  lemma EmissionsAreGenuine(cfg: Config, inputs: seq<LLMInput>, s: State, k: nat, batch: Uuid)
    requires Sourced(cfg, inputs, s) && k < |s.emitted|
    requires forall row :: 0 <= row < |inputs| ==> inputs[row].batchId == batch
    ensures s.emitted[k].row < |inputs| && GenuineFor(cfg, inputs, inputs[s.emitted[k].row], s.emitted[k].result)
    ensures Genuine(cfg, inputs, s.emitted[k].result)
  {
    EmissionKinds(cfg, inputs, s, k);
    var e := s.emitted[k];
    var input := inputs[e.row];
    assert input in inputs;
    hide RetriedUntil, FromParser, Labelled, CanAbort;
    if e.row in s.called {
      var g :| Settles(cfg, s.answers, g) && g.row == e.row && Says(input, e.result, g.answer);
      assert GivenSound(cfg, inputs, s.called, g);
      assert CanSettle(cfg, input, g.attempt, g.answer);
    } else if e.result.error.BatchAborted? {
      AbortedUnderFlag(cfg, inputs, s, k);
      FlagMeansStrike(cfg, inputs, s, batch);
    }
  }

  // So does what it has yielded when it returns.
  lemma ConsumedIsGenuine(
    cfg: Config, inputs: seq<LLMInput>, run: seq<State>, schedule: seq<Label>, batch: Uuid, result: LLMResult)
    requires Consumed(cfg, inputs, run, schedule) && result in Results(Last(run).emitted)
    requires forall row :: 0 <= row < |inputs| ==> inputs[row].batchId == batch
    ensures Genuine(cfg, inputs, result) && result.batchId == batch
  {
    var s := Last(run);
    var k: nat :| k < |s.emitted| && Results(s.emitted)[k] == result;
    RunIsSound(cfg, inputs, run, schedule, |run| - 1);
    hide *;
    EmissionsAreGenuine(cfg, inputs, s, k, batch);
    GenuineIsOfRow(cfg, inputs, inputs[s.emitted[k].row], result);
  }

  lemma GenuineIsOfRow(cfg: Config, inputs: seq<LLMInput>, input: LLMInput, result: LLMResult)
    requires GenuineFor(cfg, inputs, input, result)
    ensures OfRow(input, result)
  {
  }

  // What is genuine among some rows stays so among more.
  lemma GenuineAmongMore(cfg: Config, inputs: seq<LLMInput>, more: seq<LLMInput>, result: LLMResult)
    requires Genuine(cfg, inputs, result) && forall input :: input in inputs ==> input in more
    ensures Genuine(cfg, more, result)
  {
    var input :| input in inputs && GenuineFor(cfg, inputs, input, result);
    hide Answers, FromParser, Fails, CanSettle;
    if CanAbort(cfg, inputs, input.batchId) {
      var other, attempt, text :|
        other in inputs && other.batchId == input.batchId && CanSettle(cfg, other, attempt, Failure(text, ABORT_BATCH));
      assert other in more;
    }
    assert GenuineFor(cfg, more, input, result);
  }

  // A backend that never aborts a batch has no row reported as aborted.
  lemma NoneAborted(cfg: Config, inputs: seq<LLMInput>, result: LLMResult)
    requires Genuine(cfg, inputs, result)
    requires forall input, attempt, text :: input in inputs ==> !cfg.may(input, attempt, Failure(text, ABORT_BATCH))
    ensures !result.error.BatchAborted?
  {
    var input :| input in inputs && GenuineFor(cfg, inputs, input, result);
    if FromParser(cfg, input, result) {
      ParserErrors(cfg, input);
    }
  }
}
