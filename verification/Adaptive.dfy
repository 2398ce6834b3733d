// What the adapters learn from the backend's errors: which models reject a temperature
// (src/llm_worker/providers/base.py), and, for Bedrock, which inference-profile ARNs are
// currently invalid (src/llm_worker/providers/bedrock.py).
module Adaptive {
  import opened Json
  import opened Contract
  import Pool

  const PROFILE_ARN_COOLDOWN_SECONDS := 300.0

  // What a call ends in. ClientError and TransportError are botocore's; BadRequestError,
  // TransientError (rate limit, connection, timeout, internal server) and AuthError
  // (authentication, permission denied) are the Anthropic client's.
  datatype Outcome =
    | Reply(body: Json)
    | ClientError(code: string, message: string)
    | TransportError
    | BadRequestError(message: string)
    | TransientError
    | AuthError
    | OtherError

  // ---- Reading errors ----

  function ToLower(s: string): string {
    seq(|s|, i requires 0 <= i < |s| => if 'A' <= s[i] <= 'Z' then s[i] - 'A' + 'a' else s[i])
  }

  predicate IsTemperatureRejectionMessage(message: string) {
    var low := ToLower(message);
    Contains(low, "temperature")
    && (Contains(low, "not support") || Contains(low, "unsupported") || Contains(low, "deprecated"))
  }

  // The message has the words at a place, in upper or lower case.
  predicate SaysAt(message: string, words: string, i: nat) {
    && i + |words| <= |message|
    && forall k :: 0 <= k < |words| ==>
         message[i + k] == words[k]
         || ('A' <= message[i + k] <= 'Z' && message[i + k] as int + 32 == words[k] as int)
  }

  ghost predicate Says(message: string, words: string) {
    exists i: nat :: SaysAt(message, words, i)
  }

  lemma SaysAtIsOccurs(message: string, words: string, i: nat)
    requires forall k :: 0 <= k < |words| ==> !('A' <= words[k] <= 'Z')
    ensures OccursAt(ToLower(message), words, i) <==> SaysAt(message, words, i)
  {
    var low := ToLower(message);
    if i + |words| <= |message| {
      var part := low[i..i + |words|];
      assert forall k :: 0 <= k < |words| ==> part[k] == low[i + k];
      if SaysAt(message, words, i) {
        assert part == words;
      }
    }
  }

  lemma SaysIsContains(message: string, words: string)
    requires forall k :: 0 <= k < |words| ==> !('A' <= words[k] <= 'Z')
    ensures Contains(ToLower(message), words) <==> Says(message, words)
  {
    hide ToLower, Contains, OccursAt, SaysAt;
    ContainsIsOccurrence(ToLower(message), words);
    forall i: nat
      ensures OccursAt(ToLower(message), words, i) <==> SaysAt(message, words, i)
    {
      SaysAtIsOccurs(message, words, i);
    }
  }

  // A message rejects the temperature when it names it and says that it is not supported,
  // unsupported or deprecated.
  lemma RejectionMeans(message: string)
    ensures IsTemperatureRejectionMessage(message) <==>
      && Says(message, "temperature")
      && (Says(message, "not support") || Says(message, "unsupported") || Says(message, "deprecated"))
  {
    SaysIsContains(message, "temperature");
    SaysIsContains(message, "not support");
    SaysIsContains(message, "unsupported");
    SaysIsContains(message, "deprecated");
  }

  lemma RejectsAt(message: string, words: string, i: nat, j: nat)
    requires words in {"not support", "unsupported", "deprecated"}
    requires SaysAt(message, "temperature", i) && SaysAt(message, words, j)
    ensures IsTemperatureRejectionMessage(message)
  {
    RejectionMeans(message);
    hide IsTemperatureRejectionMessage, SaysAt;
  }

  // The documented rejections are recognised, and a message about the range is not one.
  lemma DeprecatedIsRejection()
    ensures IsTemperatureRejectionMessage("`temperature` is deprecated for this model")
  {
    hide IsTemperatureRejectionMessage;
    RejectsAt("`temperature` is deprecated for this model", "deprecated", 1, 17);
  }

  lemma UnsupportedIsRejection()
    ensures IsTemperatureRejectionMessage("Model does NOT support temperature")
  {
    hide IsTemperatureRejectionMessage;
    RejectsAt("Model does NOT support temperature", "not support", 23, 11);
  }

  lemma RangeIsNoRejection()
    ensures !IsTemperatureRejectionMessage("temperature must be between 0.0 and 1.0")
  {
    RejectionMeans("temperature must be between 0.0 and 1.0");
    hide IsTemperatureRejectionMessage;
    LacksLetter("temperature must be between 0.0 and 1.0", "not support", 1);
    LacksLetter("temperature must be between 0.0 and 1.0", "unsupported", 6);
    LacksLetter("temperature must be between 0.0 and 1.0", "deprecated", 5);
  }

  lemma LacksLetter(message: string, words: string, at: nat)
    requires at < |words|
    requires forall k :: 0 <= k < |message| ==>
      message[k] != words[at] && message[k] as int + 32 != words[at] as int
    ensures !Says(message, words)
  {
    forall i: nat
      ensures !SaysAt(message, words, i)
    {
      if i + |words| <= |message| {
        assert message[i + at] != words[at];
      }
    }
  }

  // Each adapter looks at its own client's exception only, and only that client raises it.
  predicate IsTemperatureRejection(outcome: Outcome) {
    match outcome
    case ClientError(code, message) => code == "ValidationException" && IsTemperatureRejectionMessage(message)
    case BadRequestError(message) => IsTemperatureRejectionMessage(message)
    case _ => false
  }

  predicate IsProfileArnError(outcome: Outcome) {
    outcome.ClientError? && outcome.code == "ResourceNotFoundException"
  }

  predicate IsRetryable(outcome: Outcome) {
    match outcome
    case ClientError(code, _) =>
      code in {
        "InternalServerException", "ModelNotReadyException", "ServiceUnavailableException", "ThrottlingException"}
    case TransportError => true
    case _ => false
  }

  function ClassifyError(outcome: Outcome): Pool.Disposition {
    if outcome.ClientError? && outcome.code == "AccessDeniedException" then Pool.ABORT_BATCH
    else if IsRetryable(outcome) then Pool.RETRY
    else Pool.FAIL_ROW
  }

  // AnthropicMessagesProvider.classify_error
  function ClassifyMessagesError(outcome: Outcome): Pool.Disposition {
    match outcome
    case TransientError => Pool.RETRY
    case AuthError => Pool.ABORT_BATCH
    case _ => Pool.FAIL_ROW
  }

  // Bedrock: no access aborts the batch; four error codes and the transport's errors are worth
  // another attempt; the rest fails the row.
  lemma Classification(outcome: Outcome)
    ensures ClassifyError(outcome).ABORT_BATCH? <==> outcome.ClientError? && outcome.code == "AccessDeniedException"
    ensures ClassifyError(outcome).RETRY? <==>
      || outcome.TransportError?
      || (outcome.ClientError? &&
          (outcome.code == "InternalServerException" || outcome.code == "ModelNotReadyException"
           || outcome.code == "ServiceUnavailableException" || outcome.code == "ThrottlingException"))
    ensures ClassifyMessagesError(outcome).ABORT_BATCH? <==> outcome.AuthError?
    ensures ClassifyMessagesError(outcome).RETRY? <==> outcome.TransientError?
  {
  }

  // ---- Memory and calls ----

  // The provider's fields: models known to reject a temperature, and when each model's ARN
  // was last found invalid.
  datatype Memory = Memory(omit: set<string>, invalidSince: map<string, real>)

  datatype Call = Call(target: string, sentTemperature: bool, outcome: Outcome)

  // One answer of the backend, and what other threads of the pool learned while it was
  // awaited. Models once learned are never forgotten.
  datatype Event = Event(outcome: Outcome, learnt: set<string>, invalidated: map<string, real>)

  type Script = nat -> Event

  function Meanwhile(memory: Memory, event: Event): Memory {
    Memory(memory.omit + event.learnt, memory.invalidSince + event.invalidated)
  }

  datatype Done = Done(memory: Memory, calls: seq<Call>) {
    function Final(): Outcome
      requires calls != []
    {
      calls[|calls| - 1].outcome
    }
  }

  // _complete_with_temperature_fallback; `model` keys what is learned, `target` is called.
  function Fallback(memory: Memory, model: string, target: string, omit: bool, script: Script, pos: nat): (d: Done)
    ensures 1 <= |d.calls| <= 2
  {
    var first := script(pos);
    var after := Meanwhile(memory, first);
    var sends := !omit && model !in memory.omit;
    if sends && IsTemperatureRejection(first.outcome) then
      var second := script(pos + 1);
      Done(Meanwhile(after.(omit := after.omit + {model}), second),
           [Call(target, true, first.outcome), Call(target, false, second.outcome)])
    else
      Done(after, [Call(target, sends, first.outcome)])
  }

  // Whether a model's ARN was found invalid too recently to be tried again.
  predicate CoolingDown(memory: Memory, model: string, now: real) {
    model in memory.invalidSince && now - memory.invalidSince[model] < PROFILE_ARN_COOLDOWN_SECONDS
  }

  // _resolve_profile
  function ResolveProfile(memory: Memory, profiles: map<string, string>, model: string, now: real): string {
    if CoolingDown(memory, model, now) then model
    else if model in profiles then profiles[model]
    else model
  }

  // When the two clock readings of a call are taken: on resolving, and on invalidating.
  datatype Times = Times(resolve: real, invalidate: real)

  // Whether the first target was an ARN the backend does not know.
  predicate Invalidates(
    memory: Memory, profiles: map<string, string>, request: ContractRequest, script: Script, times: Times)
  {
    var model := ResolveModelRef(request.modelId);
    var target := ResolveProfile(memory, profiles, model, times.resolve);
    target != model && IsProfileArnError(Fallback(memory, model, target, OmitsTemperature(request), script, 0).Final())
  }

  // At most three calls; the ARN is only ever called before the bare model; at most one call
  // is a rejected temperature, and no call after it sends one; and such a rejection never
  // reaches the caller.
  predicate Economical(calls: seq<Call>, model: string) {
    && 1 <= |calls| <= 3
    && (forall i, j :: 0 <= i < j < |calls| && calls[j].target != calls[i].target ==> calls[j].target == model)
    && (forall i, j :: 0 <= i < j < |calls| && calls[i].sentTemperature && IsTemperatureRejection(calls[i].outcome) ==>
          !calls[j].sentTemperature)
    && !(calls[|calls| - 1].sentTemperature && IsTemperatureRejection(calls[|calls| - 1].outcome))
  }

  // BedrockProvider.complete, whatever the backend answers and the other threads learn.
  function Complete(
    memory: Memory, profiles: map<string, string>, request: ContractRequest, script: Script, times: Times): (d: Done)
    ensures Economical(d.calls, ResolveModelRef(request.modelId))
    ensures OmitsTemperature(request) || ResolveModelRef(request.modelId) in memory.omit ==>
      forall i :: 0 <= i < |d.calls| ==> !d.calls[i].sentTemperature
  {
    hide IsTemperatureRejectionMessage, ResolveModelRef;
    var model := ResolveModelRef(request.modelId);
    var target := ResolveProfile(memory, profiles, model, times.resolve);
    var first := Fallback(memory, model, target, OmitsTemperature(request), script, 0);
    if Invalidates(memory, profiles, request, script, times) then
      assert !IsTemperatureRejection(first.Final());
      var after := first.memory.(invalidSince := first.memory.invalidSince[model := times.invalidate]);
      var second := Fallback(after, model, model, OmitsTemperature(request), script, |first.calls|);
      Done(second.memory, first.calls + second.calls)
    else first
  }

  // ---- What is called, in the backend's terms ----

  // The call sent a temperature, and the backend took exception to it.
  predicate IsRejected(call: Call) {
    && call.sentTemperature
    && ((call.outcome.ClientError? && call.outcome.code == "ValidationException"
         && IsTemperatureRejectionMessage(call.outcome.message))
        || (call.outcome.BadRequestError? && IsTemperatureRejectionMessage(call.outcome.message)))
  }

  // The call went to an ARN, and the backend does not know it.
  predicate IsUnknown(call: Call, model: string) {
    call.target != model && call.outcome.ClientError? && call.outcome.code == "ResourceNotFoundException"
  }

  // The calls of a completion. The first goes to the configured ARN, unless it was found
  // invalid within the last 300 s. Each rejected temperature is followed by the same call
  // without it, each unknown ARN by a call of the bare model, and no other call by any.
  predicate Prescribed(
    memory: Memory, profiles: map<string, string>, request: ContractRequest, script: Script, now: real,
    calls: seq<Call>)
  {
    var model := ResolveModelRef(request.modelId);
    && calls != []
    && calls[0].target
       == (if model in profiles && (model in memory.invalidSince ==> now - memory.invalidSince[model] >= 300.0)
           then profiles[model] else model)
    && (calls[0].sentTemperature <==>
        request.thinking.None? && request.outputFormat.None? && model !in memory.omit)
    && (forall i :: 0 <= i < |calls| ==> calls[i].outcome == script(i).outcome)
    && (forall i :: 0 <= i < |calls| ==>
          (i + 1 < |calls| <==> IsRejected(calls[i]) || IsUnknown(calls[i], model)))
    && (forall i, j :: 0 <= i < j == i + 1 < |calls| ==>
          if IsRejected(calls[i])
          then calls[j].target == calls[i].target && !calls[j].sentTemperature
          else calls[j].target == model
               && (calls[j].sentTemperature <==> calls[i].sentTemperature && model !in script(i).learnt))
  }

  lemma CompleteIsPrescribed(
    memory: Memory, profiles: map<string, string>, request: ContractRequest, script: Script, times: Times)
    ensures
      Prescribed(memory, profiles, request, script, times.resolve,
                 Complete(memory, profiles, request, script, times).calls)
  {
    hide IsTemperatureRejectionMessage, ResolveModelRef;
  }

  // The same without profiles, as the Messages adapter calls.
  lemma MessagesArePrescribed(memory: Memory, request: ContractRequest, script: Script)
    ensures
      var model := ResolveModelRef(request.modelId);
      Prescribed(memory, map[], request, script, 0.0,
                 Fallback(memory, model, model, OmitsTemperature(request), script, 0).calls)
  {
    hide IsTemperatureRejectionMessage, ResolveModelRef;
  }

  // Nothing is left open: the calls are determined by that.
  lemma {:induction false} PrescribedIsUnique(
    memory: Memory, profiles: map<string, string>, request: ContractRequest, script: Script, now: real,
    a: seq<Call>, b: seq<Call>, k: nat)
    requires Prescribed(memory, profiles, request, script, now, a)
    requires Prescribed(memory, profiles, request, script, now, b)
    requires k < |a|
    ensures k < |b| && a[k] == b[k]
  {
    hide IsRejected, IsUnknown, ResolveModelRef;
    if k > 0 {
      PrescribedIsUnique(memory, profiles, request, script, now, a, b, k - 1);
      assert 0 <= k - 1 < k == k - 1 + 1;
    }
  }

  // A completion remembers that an ARN is invalid exactly when one was called in vain.
  lemma InvalidatesMeans(
    memory: Memory, profiles: map<string, string>, request: ContractRequest, script: Script, times: Times)
    ensures Invalidates(memory, profiles, request, script, times) <==>
      exists i :: 0 <= i < |Complete(memory, profiles, request, script, times).calls|
        && IsUnknown(Complete(memory, profiles, request, script, times).calls[i], ResolveModelRef(request.modelId))
  {
    var model := ResolveModelRef(request.modelId);
    var target := ResolveProfile(memory, profiles, model, times.resolve);
    var first := Fallback(memory, model, target, OmitsTemperature(request), script, 0);
    var calls := Complete(memory, profiles, request, script, times).calls;
    hide IsTemperatureRejectionMessage, ResolveModelRef;
    if Invalidates(memory, profiles, request, script, times) {
      assert calls[|first.calls| - 1] == first.calls[|first.calls| - 1];
      assert IsUnknown(calls[|first.calls| - 1], model);
    }
  }

  // The errors the adapter absorbs are, when they do escape, never worth a retry or an abort.
  lemma AbsorbedErrorsFailTheRow(outcome: Outcome)
    ensures IsTemperatureRejection(outcome) || IsProfileArnError(outcome) ==>
      ClassifyError(outcome) == ClassifyMessagesError(outcome) == Pool.FAIL_ROW
  {
  }

  // ---- Histories of completions, one after another ----

  datatype Visit = Visit(request: ContractRequest, script: Script, times: Times) {
    function Model(): string {
      ResolveModelRef(request.modelId)
    }

    // No other thread learns anything meanwhile.
    ghost predicate Undisturbed() {
      forall pos :: script(pos).learnt == {} && script(pos).invalidated == map[]
    }
  }

  // The visits do not overlap, and the clock does not go back.
  ghost predicate Serial(visits: seq<Visit>) {
    && (forall i :: 0 <= i < |visits| ==> visits[i].Undisturbed())
    && (forall i :: 0 <= i < |visits| ==> visits[i].times.resolve <= visits[i].times.invalidate)
    && (forall i, j :: 0 <= i < j < |visits| ==> visits[i].times.invalidate <= visits[j].times.resolve)
  }

  function Do(memory: Memory, profiles: map<string, string>, visit: Visit): Done {
    Complete(memory, profiles, visit.request, visit.script, visit.times)
  }

  // The memory the n-th visit meets.
  function MemoryAt(memory: Memory, profiles: map<string, string>, visits: seq<Visit>, n: nat): Memory
    requires n <= |visits|
  {
    if n == 0 then memory else Do(MemoryAt(memory, profiles, visits, n - 1), profiles, visits[n - 1]).memory
  }

  // Whether the i-th visit is to the model and finds its ARN invalid.
  predicate InvalidatesAt(memory: Memory, profiles: map<string, string>, visits: seq<Visit>, model: string, i: nat)
    requires i < |visits|
  {
    var visit := visits[i];
    visit.Model() == model
    && Invalidates(MemoryAt(memory, profiles, visits, i), profiles, visit.request, visit.script, visit.times)
  }

  // The totals over the first n visits: calls made for a model, completions of it, and times
  // its ARN was found invalid.
  function CallCount(memory: Memory, profiles: map<string, string>, visits: seq<Visit>, model: string, n: nat): nat
    requires n <= |visits|
  {
    if n == 0 then 0
    else
      CallCount(memory, profiles, visits, model, n - 1)
      + if visits[n - 1].Model() == model
        then |Do(MemoryAt(memory, profiles, visits, n - 1), profiles, visits[n - 1]).calls| else 0
  }

  function VisitCount(visits: seq<Visit>, model: string, n: nat): (count: nat)
    requires n <= |visits|
    ensures count <= n
  {
    if n == 0 then 0 else VisitCount(visits, model, n - 1) + if visits[n - 1].Model() == model then 1 else 0
  }

  function InvalidationCount(
    memory: Memory, profiles: map<string, string>, visits: seq<Visit>, model: string, n: nat): nat
    requires n <= |visits|
  {
    if n == 0 then 0
    else
      InvalidationCount(memory, profiles, visits, model, n - 1)
      + if InvalidatesAt(memory, profiles, visits, model, n - 1) then 1 else 0
  }

  // What one completion adds to each of them, and what it leaves in memory.
  lemma OneVisit(memory: Memory, profiles: map<string, string>, visit: Visit, model: string)
    requires visit.Undisturbed()
    ensures
      var d := Do(memory, profiles, visit);
      var invalidates :=
        visit.Model() == model && Invalidates(memory, profiles, visit.request, visit.script, visit.times);
      && memory.omit <= d.memory.omit
      && (if visit.Model() == model
          then |d.calls| == 1 + (if invalidates then 1 else 0)
                              + (if model in d.memory.omit && model !in memory.omit then 1 else 0)
          else (model in d.memory.omit <==> model in memory.omit))
      && (if invalidates
          then model in d.memory.invalidSince && d.memory.invalidSince[model] == visit.times.invalidate
          else (model in d.memory.invalidSince <==> model in memory.invalidSince)
               && (model in memory.invalidSince ==> d.memory.invalidSince[model] == memory.invalidSince[model]))
  {
    var target := ResolveProfile(memory, profiles, visit.Model(), visit.times.resolve);
    FallbackLearnsOnlyItsModel(memory, visit, target, 0);
    var first := Fallback(memory, visit.Model(), target, OmitsTemperature(visit.request), visit.script, 0);
    if Invalidates(memory, profiles, visit.request, visit.script, visit.times) {
      var after := first.memory.(invalidSince := first.memory.invalidSince[visit.Model() := visit.times.invalidate]);
      FallbackLearnsOnlyItsModel(after, visit, visit.Model(), |first.calls|);
    }
  }

  lemma FallbackLearnsOnlyItsModel(memory: Memory, visit: Visit, target: string, pos: nat)
    requires visit.Undisturbed()
    ensures
      var d := Fallback(memory, visit.Model(), target, OmitsTemperature(visit.request), visit.script, pos);
      && d.memory.invalidSince == memory.invalidSince
      && |d.calls| == 1 + (if d.memory.omit == memory.omit then 0 else 1)
      && (d.memory.omit == memory.omit
          || (visit.Model() !in memory.omit && d.memory.omit == memory.omit + {visit.Model()}))
  {
  }

  // Each completion costs one call, plus one for each invalid ARN met, plus one for the first
  // rejected temperature.
  lemma {:induction false} CallsAreAccountedFor(
    memory: Memory, profiles: map<string, string>, visits: seq<Visit>, model: string, n: nat)
    requires Serial(visits) && n <= |visits|
    ensures CallCount(memory, profiles, visits, model, n)
         == VisitCount(visits, model, n) + InvalidationCount(memory, profiles, visits, model, n)
            + if model in MemoryAt(memory, profiles, visits, n).omit && model !in memory.omit then 1 else 0
    ensures memory.omit <= MemoryAt(memory, profiles, visits, n).omit
  {
    hide Do, Invalidates;
    if n > 0 {
      CallsAreAccountedFor(memory, profiles, visits, model, n - 1);
      OneVisit(MemoryAt(memory, profiles, visits, n - 1), profiles, visits[n - 1], model);
    }
  }

  // After an invalidation the memory holds its time or a later one.
  lemma {:induction false} InvalidationIsRemembered(
    memory: Memory, profiles: map<string, string>, visits: seq<Visit>, model: string, i: nat, n: nat)
    requires Serial(visits) && i < n <= |visits| && InvalidatesAt(memory, profiles, visits, model, i)
    ensures
      var since := MemoryAt(memory, profiles, visits, n).invalidSince;
      model in since && since[model] >= visits[i].times.invalidate
  {
    hide Do, Invalidates;
    OneVisit(MemoryAt(memory, profiles, visits, n - 1), profiles, visits[n - 1], model);
    if i < n - 1 {
      InvalidationIsRemembered(memory, profiles, visits, model, i, n - 1);
    }
  }

  lemma CooldownKeepsTheArnAway(memory: Memory, profiles: map<string, string>, visit: Visit)
    requires Invalidates(memory, profiles, visit.request, visit.script, visit.times)
    ensures visit.Model() in memory.invalidSince ==>
      visit.times.resolve >= memory.invalidSince[visit.Model()] + 300.0
  {
  }

  // Any two invalidations of a model are at least 300 s apart: the later visit did not even
  // begin before that.
  lemma InvalidationsAreSpaced(
    memory: Memory, profiles: map<string, string>, visits: seq<Visit>, model: string, i: nat, j: nat)
    requires Serial(visits) && i < j < |visits|
    requires InvalidatesAt(memory, profiles, visits, model, i) && InvalidatesAt(memory, profiles, visits, model, j)
    ensures visits[j].times.resolve >= visits[i].times.invalidate + 300.0
  {
    InvalidationIsRemembered(memory, profiles, visits, model, i, j);
    CooldownKeepsTheArnAway(MemoryAt(memory, profiles, visits, j), profiles, visits[j]);
  }

  // So the n-th comes at least n - 1 cooldowns after the history began.
  lemma {:induction false} InvalidationsTakeTime(
    memory: Memory, profiles: map<string, string>, visits: seq<Visit>, model: string, n: nat) returns (last: nat)
    requires Serial(visits) && n <= |visits| && InvalidationCount(memory, profiles, visits, model, n) > 0
    ensures last < n && InvalidatesAt(memory, profiles, visits, model, last)
    ensures visits[0].times.resolve
            + 300.0 * (InvalidationCount(memory, profiles, visits, model, n) - 1) as real
         <= visits[last].times.invalidate
  {
    hide InvalidatesAt;
    last := n - 1;
    if InvalidationCount(memory, profiles, visits, model, n - 1) > 0 {
      last := InvalidationsTakeTime(memory, profiles, visits, model, n - 1);
      if InvalidatesAt(memory, profiles, visits, model, n - 1) {
        InvalidationsAreSpaced(memory, profiles, visits, model, last, n - 1);
        last := n - 1;
      }
    }
  }

  // Over any serial history of k completions of a model lasting T seconds: at most
  // k + 1 + floor(T/300) + 1 calls.
  lemma AmortisedCalls(memory: Memory, profiles: map<string, string>, visits: seq<Visit>, model: string)
    requires Serial(visits) && visits != []
    ensures
      var seconds := visits[|visits| - 1].times.invalidate - visits[0].times.resolve;
      CallCount(memory, profiles, visits, model, |visits|)
      <= VisitCount(visits, model, |visits|) + 1 + (seconds / 300.0).Floor + 1
  {
    CallsAreAccountedFor(memory, profiles, visits, model, |visits|);
    var count := InvalidationCount(memory, profiles, visits, model, |visits|);
    var seconds := visits[|visits| - 1].times.invalidate - visits[0].times.resolve;
    hide MemoryAt, CallCount, VisitCount, InvalidationCount;
    assert seconds >= 0.0;
    if count > 0 {
      var last := InvalidationsTakeTime(memory, profiles, visits, model, |visits|);
      assert visits[last].times.invalidate <= visits[|visits| - 1].times.invalidate;
      assert (count - 1) as real <= seconds / PROFILE_ARN_COOLDOWN_SECONDS;
    }
  }

  // A row the executor retries, each attempt being a whole completion, costs at most two
  // calls more than its attempts while the attempts take less than the cooldown: the two
  // fallbacks nest inside the retry without multiplying.
  lemma RetriedRowCalls(memory: Memory, profiles: map<string, string>, attempts: seq<Visit>, model: string)
    requires Serial(attempts) && attempts != []
    requires forall i :: 0 <= i < |attempts| ==> attempts[i].Model() == model
    requires attempts[|attempts| - 1].times.invalidate - attempts[0].times.resolve < 300.0
    ensures CallCount(memory, profiles, attempts, model, |attempts|) <= |attempts| + 2
  {
    AmortisedCalls(memory, profiles, attempts, model);
    var seconds := attempts[|attempts| - 1].times.invalidate - attempts[0].times.resolve;
    assert seconds / PROFILE_ARN_COOLDOWN_SECONDS < 1.0;
  }
}
