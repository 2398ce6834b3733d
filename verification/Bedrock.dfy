// The adapters as objects: they update their fields while other threads do the same.
module Bedrock {
  import opened Json
  import opened Contract
  import opened Adaptive

  // The backend's side of one completion: its answers in order, and the calls it has seen.
  class Client {
    const script: Script
    var log: seq<Call>

    constructor (script: Script)
      ensures this.script == script && log == []
    {
      this.script, log := script, [];
    }
  }

  // LLMProvider, with the fields of BedrockProvider.
  class Provider {
    const profiles: map<string, string>
    var omitTemperature: set<string>
    var profileInvalidSince: map<string, real>
    var unmappedModelsWarned: set<string>

    ghost function View(): Memory
      reads this
    {
      Memory(omitTemperature, profileInvalidSince)
    }

    constructor (profiles: map<string, string>)
      ensures View() == Memory({}, map[]) && this.profiles == profiles
    {
      this.profiles := profiles;
      omitTemperature, profileInvalidSince, unmappedModelsWarned := {}, map[], {};
    }

    // client.converse, during which the pool's other threads use the same provider.
    method Converse(client: Client, target: string, sendTemperature: bool) returns (outcome: Outcome)
      modifies this`omitTemperature, this`profileInvalidSince, client
      ensures outcome == client.script(|old(client.log)|).outcome
      ensures client.log == old(client.log) + [Call(target, sendTemperature, outcome)]
      ensures View() == Meanwhile(old(View()), client.script(|old(client.log)|))
    {
      var event := client.script(|client.log|);
      outcome := event.outcome;
      client.log := client.log + [Call(target, sendTemperature, outcome)];
      omitTemperature := omitTemperature + event.learnt;
      profileInvalidSince := profileInvalidSince + event.invalidated;
    }

    method CompleteWithTemperatureFallback(client: Client, model: string, target: string, omit: bool)
        returns (outcome: Outcome)
      modifies this`omitTemperature, this`profileInvalidSince, client
      ensures
        var d := Fallback(old(View()), model, target, omit, client.script, |old(client.log)|);
        View() == d.memory && client.log == old(client.log) + d.calls && outcome == d.Final()
    {
      if omit {
        outcome := Converse(client, target, false);
        return;
      }
      var sends := model !in omitTemperature;
      outcome := Converse(client, target, sends);
      if sends && IsTemperatureRejection(outcome) {
        omitTemperature := omitTemperature + {model};
        outcome := Converse(client, target, false);
      }
    }

    method ResolveTarget(model: string, now: real) returns (target: string)
      modifies this`unmappedModelsWarned
      ensures target == ResolveProfile(View(), profiles, model, now)
      ensures target
        == if model in profiles && (model in profileInvalidSince ==> now - profileInvalidSince[model] >= 300.0)
           then profiles[model] else model
      ensures unmappedModelsWarned == old(unmappedModelsWarned)
        + if model in profiles || (model in profileInvalidSince && now - profileInvalidSince[model] < 300.0)
          then {} else {model}
    {
      if model in profileInvalidSince && now - profileInvalidSince[model] < PROFILE_ARN_COOLDOWN_SECONDS {
        return model;
      }
      if model !in profiles {
        unmappedModelsWarned := unmappedModelsWarned + {model};
        return model;
      }
      return profiles[model];
    }

    // BedrockProvider.complete, up to reading the reply.
    method CompleteRequest(client: Client, request: ContractRequest, times: Times) returns (outcome: Outcome)
      requires client.log == []
      modifies this, client
      ensures
        var d := Complete(old(View()), profiles, request, client.script, times);
        View() == d.memory && client.log == d.calls && outcome == d.Final()
      ensures Economical(client.log, ResolveModelRef(request.modelId))
      ensures Prescribed(old(View()), profiles, request, client.script, times.resolve, client.log)
      ensures outcome == client.log[|client.log| - 1].outcome
    {
      hide Prescribed, Economical, Fallback, IsTemperatureRejection, IsProfileArnError;
      hide ResolveModelRef, ResolveProfile, CoolingDown, OmitsTemperature;
      CompleteIsPrescribed(View(), profiles, request, client.script, times);
      var model := ResolveModelRef(request.modelId);
      var target := ResolveTarget(model, times.resolve);
      outcome := CompleteWithTemperatureFallback(client, model, target, OmitsTemperature(request));
      if target != model && IsProfileArnError(outcome) {
        profileInvalidSince := profileInvalidSince[model := times.invalidate];
        outcome := CompleteWithTemperatureFallback(client, model, model, OmitsTemperature(request));
      }
    }

    // AnthropicMessagesProvider.complete: no profiles, so at most two calls.
    method CompleteMessages(client: Client, request: ContractRequest) returns (outcome: Outcome)
      requires client.log == []
      modifies this`omitTemperature, this`profileInvalidSince, client
      ensures
        var model := ResolveModelRef(request.modelId);
        var d := Fallback(old(View()), model, model, OmitsTemperature(request), client.script, 0);
        View() == d.memory && client.log == d.calls && outcome == d.Final()
      ensures forall i :: 0 <= i < |client.log| ==> client.log[i].target == ResolveModelRef(request.modelId)
      ensures Prescribed(old(View()), map[], request, client.script, 0.0, client.log)
      ensures outcome == client.log[|client.log| - 1].outcome
    {
      hide IsTemperatureRejectionMessage, ResolveModelRef, Prescribed;
      MessagesArePrescribed(View(), request, client.script);
      var model := ResolveModelRef(request.modelId);
      outcome := CompleteWithTemperatureFallback(client, model, model, OmitsTemperature(request));
    }
  }
}
