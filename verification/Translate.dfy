// The two request builders (src/llm_worker/providers/bedrock.py and
// anthropic_messages.py), each proved against a reading of what its wire shape asks for.
module Translate {
  import opened Json
  import opened Contract

  // What a backend is asked to do, whatever the spelling.
  datatype Meaning = Meaning(
    model: Json,
    messages: seq<(Json, Json)>,  // role and text of each message
    maxTokens: Json,
    temperature: Option<Json>,
    tools: Py<(seq<Tool>, Json)>,
    format: Option<Json>,  // the kind of output asked for, when not free text
    schema: Option<Json>,
    thinking: Json,
    effort: Json)

  // ---- Reading a wire request ----

  function Field(j: Json, key: string): Json {
    ValueOf(At(j, key))
  }

  function ValueOf(value: Option<Json>): Json {
    if value.Some? then value.value else JNull
  }

  function Items(j: Json): seq<Json> {
    if j.JArr? then j.items else []
  }

  function MessagesSent(messages: Json): seq<(Json, Json)> {
    seq(|Items(messages)|, i requires 0 <= i < |Items(messages)| =>
      (Field(Items(messages)[i], "role"), Field(Items(messages)[i], "content")))
  }

  // The text of a message of exactly one block.
  function OnlyText(content: Json): Json {
    if |Items(content)| == 1 then Field(Items(content)[0], "text") else JNull
  }

  function ConverseSent(messages: Json): seq<(Json, Json)> {
    seq(|MessagesSent(messages)|, i requires 0 <= i < |MessagesSent(messages)| =>
      (MessagesSent(messages)[i].0, OnlyText(MessagesSent(messages)[i].1)))
  }

  // A Messages API request; its tools and tool_choice are in the contract's v1 shape.
  function MessagesMeaning(wire: Json): Meaning {
    var outputConfig := Field(wire, "output_config");
    Meaning(
      Field(wire, "model"),
      MessagesSent(Field(wire, "messages")),
      Field(wire, "max_tokens"),
      At(wire, "temperature"),
      NormalizeTools(wire),
      At(Field(outputConfig, "format"), "type"),
      At(Field(outputConfig, "format"), "schema"),
      Field(Field(wire, "thinking"), "type"),
      Field(outputConfig, "effort"))
  }

  // The schema of a Converse request is a JSON text.
  function ConverseSchema(wire: Json, loads: string -> Option<Json>): Option<Json> {
    var text := At(Field(Field(Field(Field(wire, "outputConfig"), "textFormat"), "structure"), "jsonSchema"), "schema");
    if text.Some? && text.value.JStr? then loads(text.value.s) else None
  }

  // A Bedrock Converse request; its toolConfig is in the contract's v0 shape.
  function ConverseMeaning(wire: Json, loads: string -> Option<Json>): Meaning {
    var inference := Field(wire, "inferenceConfig");
    var additional := Field(wire, "additionalModelRequestFields");
    Meaning(
      Field(wire, "modelId"),
      ConverseSent(Field(wire, "messages")),
      Field(inference, "maxTokens"),
      At(inference, "temperature"),
      NormalizeTools(Field(wire, "toolConfig")),
      At(Field(Field(wire, "outputConfig"), "textFormat"), "type"),
      ConverseSchema(wire, loads),
      Field(Field(additional, "thinking"), "type"),
      Field(Field(additional, "output_config"), "effort"))
  }

  // ---- What a request means ----

  function OrNull(value: Option<string>): Json {
    if value.Some? then JStr(value.value) else JNull
  }

  // A tool is forced only beside tools, and by a usable name.
  function ForcedOf(request: ContractRequest): Json {
    if request.tools != [] && Truthy(request.forcedTool) then request.forcedTool else JNull
  }

  function RequestMeaning(request: ContractRequest, model: string, sendTemperature: bool, tools: seq<Tool>): Meaning {
    Meaning(
      JStr(model),
      [(JStr("user"), JStr(request.prompt))],
      request.maxOutputTokens,
      if sendTemperature then Some(request.temperature) else None,
      Ok((tools, ForcedOf(request))),
      if request.outputFormat.Some? then Some(JStr("json_schema")) else None,
      if request.outputFormat.Some? then Some(request.outputFormat.value.schema) else None,
      OrNull(request.thinking),
      OrNull(request.effort))
  }

  // The schema after its trip through a JSON text.
  function SchemaBack(request: ContractRequest, dumps: Json -> string, loads: string -> Option<Json>): Option<Json> {
    if request.outputFormat.Some? then loads(dumps(request.outputFormat.value.schema)) else None
  }

  // Whether a schema is what its own printing says.
  predicate Printable(request: ContractRequest, dumps: Json -> string, loads: string -> Option<Json>) {
    request.outputFormat.Some? ==>
      loads(dumps(request.outputFormat.value.schema)) == Some(request.outputFormat.value.schema)
  }

  // Bedrock drops a description that is empty, and an absent one reads as "".
  function Described(tool: Tool): Tool {
    if Truthy(tool.description) then tool else tool.(description := JStr(""))
  }

  function AllDescribed(tools: seq<Tool>): (r: seq<Tool>)
    ensures |r| == |tools|
  {
    seq(|tools|, i requires 0 <= i < |tools| => Described(tools[i]))
  }

  predicate PlainlyDescribed(tools: seq<Tool>) {
    forall i :: 0 <= i < |tools| ==> Truthy(tools[i].description) || tools[i].description == JStr("")
  }

  lemma DescribedIsPlain(tools: seq<Tool>)
    ensures AllDescribed(tools) == tools <==> PlainlyDescribed(tools)
  {
    if AllDescribed(tools) == tools {
      forall i | 0 <= i < |tools|
        ensures Truthy(tools[i].description) || tools[i].description == JStr("")
      {
        assert AllDescribed(tools)[i] == tools[i];
      }
    }
  }

  lemma {:induction false} NormalizeAppended(items: seq<Json>, item: Json)
    requires NormalizeEach(items).Ok? && NormalizeTool(item).Ok?
    ensures NormalizeEach(items + [item]) == Ok(NormalizeEach(items).value + [NormalizeTool(item).value])
  {
    if items == [] {
      assert [item][1..] == [] && [] + [item] == [item];
      assert [NormalizeTool(item).value] + [] == [] + [NormalizeTool(item).value];
    } else {
      NormalizeAppended(items[1..], item);
      assert (items + [item])[1..] == items[1..] + [item];
      var first, rest := NormalizeTool(items[0]).value, NormalizeEach(items[1..]).value;
      assert [first] + (rest + [NormalizeTool(item).value]) == ([first] + rest) + [NormalizeTool(item).value];
    }
  }

  // ---- Bedrock ----

  // A tool in Converse's own shape, with nothing beside it.
  predicate NestedTool(item: Json, tool: Tool) {
    var spec := Field(item, "toolSpec");
    && item.JObj? && item.fields.Keys == {"toolSpec"}
    && spec.JObj?
    && spec.fields.Keys == {"name", "inputSchema"} + (if Truthy(tool.description) then {"description"} else {})
    && Field(spec, "name") == tool.name
    && Field(spec, "inputSchema") == JObj(map["json" := tool.inputSchema])
    && (Truthy(tool.description) ==> Field(spec, "description") == tool.description)
  }

  predicate ToolsNested(config: Json, request: ContractRequest) {
    && |Items(Field(config, "tools"))| == |request.tools|
    && (forall i :: 0 <= i < |request.tools| ==> NestedTool(Items(Field(config, "tools"))[i], request.tools[i]))
    && At(config, "toolChoice")
       == (if Truthy(request.forcedTool)
           then Some(JObj(map["tool" := JObj(map["name" := request.forcedTool])])) else None)
  }

  lemma NestedToolReads(tool: Tool, spec: map<string, Json>)
    requires Truthy(tool.name)
    requires
      var base := map["name" := tool.name, "inputSchema" := JObj(map["json" := tool.inputSchema])];
      spec == if Truthy(tool.description) then base["description" := tool.description] else base
    ensures NormalizeTool(JObj(map["toolSpec" := JObj(spec)])) == Ok(Described(tool))
    ensures NestedTool(JObj(map["toolSpec" := JObj(spec)]), tool)
  {
  }

  // The loop of BuildToolConfig.
  method BuildNestedTools(tools: seq<Tool>) returns (items: seq<Json>)
    requires AllNamed(tools)
    ensures NormalizeEach(items) == Ok(AllDescribed(tools))
    ensures |items| == |tools| && forall i :: 0 <= i < |tools| ==> NestedTool(items[i], tools[i])
  {
    items := [];
    for i := 0 to |tools|
      invariant NormalizeEach(items) == Ok(AllDescribed(tools[..i]))
      invariant |items| == i && forall k :: 0 <= k < i ==> NestedTool(items[k], tools[k])
    {
      var tool := tools[i];
      var spec := map["name" := tool.name, "inputSchema" := JObj(map["json" := tool.inputSchema])];
      if Truthy(tool.description) {
        spec := spec["description" := tool.description];
      }
      NestedToolReads(tool, spec);
      hide *;
      var item := JObj(map["toolSpec" := JObj(spec)]);
      NormalizeAppended(items, item);
      items := items + [item];
      OneMoreDescribed(tools, i);
    }
    assert tools[..|tools|] == tools;
  }

  lemma OneMoreDescribed(tools: seq<Tool>, i: nat)
    requires i < |tools|
    ensures AllDescribed(tools[..i + 1]) == AllDescribed(tools[..i]) + [Described(tools[i])]
  {
  }

  method BuildToolConfig(request: ContractRequest) returns (config: map<string, Json>)
    requires request.tools != [] && AllNamed(request.tools)
    ensures ToolsNested(JObj(config), request)
    ensures NormalizeTools(JObj(config)) == Ok((AllDescribed(request.tools), ForcedOf(request)))
    ensures config.Keys == {"tools"} + if Truthy(request.forcedTool) then {"toolChoice"} else {}
  {
    hide NestedTool, AllDescribed, NormalizeEach;
    var tools := BuildNestedTools(request.tools);
    config := map["tools" := JArr(tools)];
    if Truthy(request.forcedTool) {
      var choice := JObj(map["tool" := JObj(map["name" := request.forcedTool])]);
      config := config["toolChoice" := choice];
      assert NormalizeToolChoice(choice) == Ok(request.forcedTool);
    }
    assert "tools" in config;
  }

  // Re-normalising a toolConfig gives back the tools and the forced tool exactly when no
  // description is falsy other than "" and the forced name is absent or usable.
  method ConverseToolsRoundTrip(request: ContractRequest) returns (config: map<string, Json>)
    requires request.tools != [] && AllNamed(request.tools)
    ensures NormalizeTools(JObj(config)) == Ok((request.tools, request.forcedTool))
       <==> PlainlyDescribed(request.tools) && (request.forcedTool == JNull || Truthy(request.forcedTool))
  {
    config := BuildToolConfig(request);
    DescribedIsPlain(request.tools);
  }

  // What an outputConfig says: all of a format, with its schema printed and a description
  // only when there is one; or nothing.
  predicate FormatSent(config: Json, format: Option<OutputFormat>, dumps: Json -> string) {
    var textFormat := Field(config, "textFormat");
    var jsonSchema := Field(Field(textFormat, "structure"), "jsonSchema");
    match format
    case None => At(textFormat, "type") == At(jsonSchema, "schema") == None
    case Some(format) =>
      && At(textFormat, "type") == Some(JStr("json_schema"))
      && At(jsonSchema, "schema") == Some(JStr(dumps(format.schema)))
      && At(jsonSchema, "name") == Some(format.name)
      && At(jsonSchema, "description") == if Truthy(format.description) then Some(format.description) else None
  }

  method BuildOutputConfig(format: OutputFormat, dumps: Json -> string) returns (config: map<string, Json>)
    ensures FormatSent(JObj(config), Some(format), dumps)
  {
    var jsonSchema := map["schema" := JStr(dumps(format.schema)), "name" := format.name];
    if Truthy(format.description) {
      jsonSchema := jsonSchema["description" := format.description];
    }
    config := map["textFormat" := JObj(map[
      "type" := JStr("json_schema"),
      "structure" := JObj(map["jsonSchema" := JObj(jsonSchema)])])];
  }

  // Fields Converse has no place of its own for.
  method BuildAdditionalFields(request: ContractRequest) returns (fields: map<string, Json>)
    ensures Field(Field(JObj(fields), "thinking"), "type") == OrNull(request.thinking)
    ensures Field(Field(JObj(fields), "output_config"), "effort") == OrNull(request.effort)
    ensures fields.Keys
         == (if request.thinking.Some? then {"thinking"} else {})
            + (if request.effort.Some? then {"output_config"} else {})
  {
    fields := map[];
    if request.thinking.Some? {
      fields := fields["thinking" := JObj(map["type" := JStr(request.thinking.value)])];
    }
    if request.effort.Some? {
      fields := fields["output_config" := JObj(map["effort" := JStr(request.effort.value)])];
    }
  }

  method BuildConverseBase(
    request: ContractRequest, model: string, sendTemperature: bool) returns (kwargs: map<string, Json>)
    ensures kwargs.Keys == {"modelId", "messages", "inferenceConfig"}
    ensures Field(JObj(kwargs), "modelId") == JStr(model)
    ensures ConverseSent(Field(JObj(kwargs), "messages")) == [(JStr("user"), JStr(request.prompt))]
    ensures Field(Field(JObj(kwargs), "inferenceConfig"), "maxTokens") == request.maxOutputTokens
    ensures At(Field(JObj(kwargs), "inferenceConfig"), "temperature")
         == if sendTemperature then Some(request.temperature) else None
  {
    var inference := map["maxTokens" := request.maxOutputTokens];
    if sendTemperature {
      inference := inference["temperature" := request.temperature];
    }
    kwargs := map[
      "modelId" := JStr(model),
      "messages" := JArr([JObj(map[
        "role" := JStr("user"),
        "content" := JArr([JObj(map["text" := JStr(request.prompt)])])])]),
      "inferenceConfig" := JObj(inference)];
  }

  // A key is there only when there is something to put under it.
  function ConverseKeys(request: ContractRequest): set<string> {
    {"modelId", "messages", "inferenceConfig"}
    + (if request.tools != [] then {"toolConfig"} else {})
    + (if request.outputFormat.Some? then {"outputConfig", "additionalModelResponseFieldPaths"} else {})
    + (if request.thinking.Some? || request.effort.Some? then {"additionalModelRequestFields"} else {})
  }

  method BuildConverseKwargs(
    request: ContractRequest, model: string, sendTemperature: bool,
    dumps: Json -> string, loads: string -> Option<Json>)
      returns (kwargs: map<string, Json>)
    requires WellFormed(request)
    ensures ConverseMeaning(JObj(kwargs), loads)
         == RequestMeaning(request, model, sendTemperature, AllDescribed(request.tools))
              .(schema := SchemaBack(request, dumps, loads))
    ensures FormatSent(Field(JObj(kwargs), "outputConfig"), request.outputFormat, dumps)
    ensures request.tools != [] ==> ToolsNested(Field(JObj(kwargs), "toolConfig"), request)
    ensures At(JObj(kwargs), "additionalModelResponseFieldPaths")
         == if request.outputFormat.Some? then Some(JArr([JStr("/stop_details")])) else None
    ensures kwargs.Keys == ConverseKeys(request)
  {
    hide *;
    WellFormedTools(request);
    kwargs := BuildConverseBase(request, model, sendTemperature);
    ghost var base, tools, format, paths, extra := kwargs, None, None, None, None;
    if request.tools != [] {
      var config := BuildToolConfig(request);
      tools := Some(JObj(config));
      kwargs := kwargs["toolConfig" := JObj(config)];
    }
    Put(base, "toolConfig", tools);
    if request.outputFormat.Some? {
      var config := BuildOutputConfig(request.outputFormat.value, dumps);
      format := Some(JObj(config));
      paths := Some(JArr([JStr("/stop_details")]));
      kwargs := kwargs["outputConfig" := JObj(config)];
      kwargs := kwargs["additionalModelResponseFieldPaths" := JArr([JStr("/stop_details")])];
    }
    Put(base + Optional("toolConfig", tools), "outputConfig", format);
    Put(base + Optional("toolConfig", tools) + Optional("outputConfig", format),
        "additionalModelResponseFieldPaths", paths);
    var additional := BuildAdditionalFields(request);
    if additional != map[] {
      extra := Some(JObj(additional));
      kwargs := kwargs["additionalModelRequestFields" := JObj(additional)];
    }
    Put(base + Optional("toolConfig", tools) + Optional("outputConfig", format)
          + Optional("additionalModelResponseFieldPaths", paths),
        "additionalModelRequestFields", extra);
    ConverseAssembled(request, model, sendTemperature, dumps, loads, base, tools, format, paths, extra, additional);
    ConverseKeyed(request, base, tools, format, paths, extra, additional);
    NestedRead(request, tools);
  }

  lemma NestedRead(request: ContractRequest, tools: Option<Json>)
    requires tools.Some? ==> ToolsNested(tools.value, request)
    ensures tools.Some? ==> ToolsNested(ValueOf(tools), request)
  {
  }

  lemma WellFormedTools(request: ContractRequest)
    requires WellFormed(request)
    ensures AllNamed(request.tools)
  {
  }

  // Setting a key is merging a one-key dict; leaving it out is merging none.
  lemma Put(fields: map<string, Json>, key: string, value: Option<Json>)
    ensures value.Some? ==> fields[key := value.value] == fields + Optional(key, value)
    ensures value.None? ==> fields == fields + Optional(key, value)
    ensures (fields + Optional(key, value)).Keys == fields.Keys + if value.Some? then {key} else {}
  {
  }

  lemma ToolsRead(request: ContractRequest, tools: Option<Json>)
    requires request.tools != [] ==>
      tools.Some? && NormalizeTools(tools.value) == Ok((AllDescribed(request.tools), ForcedOf(request)))
    requires request.tools == [] ==> tools.None?
    ensures NormalizeTools(ValueOf(tools)) == Ok((AllDescribed(request.tools), ForcedOf(request)))
  {
  }

  lemma FormatRead(request: ContractRequest, dumps: Json -> string, format: Option<Json>)
    requires format.Some? <==> request.outputFormat.Some?
    requires format.Some? ==> FormatSent(format.value, request.outputFormat, dumps)
    ensures FormatSent(ValueOf(format), request.outputFormat, dumps)
  {
  }

  lemma ExtraRead(request: ContractRequest, extra: Option<Json>, additional: map<string, Json>)
    requires extra == if additional == map[] then None else Some(JObj(additional))
    requires Field(Field(JObj(additional), "thinking"), "type") == OrNull(request.thinking)
    requires Field(Field(JObj(additional), "output_config"), "effort") == OrNull(request.effort)
    ensures Field(Field(ValueOf(extra), "thinking"), "type") == OrNull(request.thinking)
    ensures Field(Field(ValueOf(extra), "output_config"), "effort") == OrNull(request.effort)
  {
    hide OrNull;
    if additional == map[] {
      assert JObj(additional).fields == map[];
    }
  }

  lemma ConverseKeyed(
    request: ContractRequest, base: map<string, Json>, tools: Option<Json>, format: Option<Json>, paths: Option<Json>,
    extra: Option<Json>, additional: map<string, Json>)
    requires base.Keys == {"modelId", "messages", "inferenceConfig"}
    requires tools.Some? <==> request.tools != []
    requires format.Some? <==> request.outputFormat.Some?
    requires paths.Some? <==> request.outputFormat.Some?
    requires extra == if additional == map[] then None else Some(JObj(additional))
    requires additional.Keys
          == (if request.thinking.Some? then {"thinking"} else {})
             + (if request.effort.Some? then {"output_config"} else {})
    ensures (base + Optional("toolConfig", tools) + Optional("outputConfig", format)
        + Optional("additionalModelResponseFieldPaths", paths) + Optional("additionalModelRequestFields", extra)).Keys
        == ConverseKeys(request)
  {
    assert additional == map[] <==> request.thinking.None? && request.effort.None? by {
      if request.thinking.Some? {
        assert "thinking" in additional;
      } else if request.effort.Some? {
        assert "output_config" in additional;
      } else {
        assert additional.Keys == {};
      }
    }
  }

  lemma ConverseAssembled(
    request: ContractRequest, model: string, sendTemperature: bool,
    dumps: Json -> string, loads: string -> Option<Json>,
    base: map<string, Json>, tools: Option<Json>, format: Option<Json>, paths: Option<Json>, extra: Option<Json>,
    additional: map<string, Json>)
    requires base.Keys == {"modelId", "messages", "inferenceConfig"}
    requires Field(JObj(base), "modelId") == JStr(model)
    requires ConverseSent(Field(JObj(base), "messages")) == [(JStr("user"), JStr(request.prompt))]
    requires Field(Field(JObj(base), "inferenceConfig"), "maxTokens") == request.maxOutputTokens
    requires At(Field(JObj(base), "inferenceConfig"), "temperature")
          == if sendTemperature then Some(request.temperature) else None
    requires request.tools != [] ==>
      tools.Some? && NormalizeTools(tools.value) == Ok((AllDescribed(request.tools), ForcedOf(request)))
    requires request.tools == [] ==> tools.None?
    requires format.Some? <==> request.outputFormat.Some?
    requires format.Some? ==> FormatSent(format.value, request.outputFormat, dumps)
    requires extra == if additional == map[] then None else Some(JObj(additional))
    requires Field(Field(JObj(additional), "thinking"), "type") == OrNull(request.thinking)
    requires Field(Field(JObj(additional), "output_config"), "effort") == OrNull(request.effort)
    ensures
      var wire := JObj(base + Optional("toolConfig", tools) + Optional("outputConfig", format)
        + Optional("additionalModelResponseFieldPaths", paths) + Optional("additionalModelRequestFields", extra));
      && ConverseMeaning(wire, loads)
         == RequestMeaning(request, model, sendTemperature, AllDescribed(request.tools))
              .(schema := SchemaBack(request, dumps, loads))
      && FormatSent(Field(wire, "outputConfig"), request.outputFormat, dumps)
      && At(wire, "additionalModelResponseFieldPaths") == paths
      && Field(wire, "toolConfig") == ValueOf(tools)
  {
    hide *;
    ConverseFields(base, tools, format, paths, extra);
    ToolsRead(request, tools);
    FormatRead(request, dumps, format);
    ExtraRead(request, extra, additional);
    ConverseReads(request, model, sendTemperature, dumps, loads,
      JObj(base + Optional("toolConfig", tools) + Optional("outputConfig", format)
        + Optional("additionalModelResponseFieldPaths", paths) + Optional("additionalModelRequestFields", extra)));
  }

  // What merging in an optional key does to the reading of any key.
  lemma ReadMerged(fields: map<string, Json>, key: string, value: Option<Json>, other: string)
    ensures At(JObj(fields + Optional(key, value)), other)
         == if other == key && value.Some? then value else At(JObj(fields), other)
  {
  }

  lemma ReadConverse(
    base: map<string, Json>, tools: Option<Json>, format: Option<Json>, paths: Option<Json>, extra: Option<Json>,
    key: string)
    requires base.Keys == {"modelId", "messages", "inferenceConfig"}
    ensures
      At(JObj(base + Optional("toolConfig", tools) + Optional("outputConfig", format)
        + Optional("additionalModelResponseFieldPaths", paths) + Optional("additionalModelRequestFields", extra)), key)
      == if key == "toolConfig" then tools
         else if key == "outputConfig" then format
         else if key == "additionalModelResponseFieldPaths" then paths
         else if key == "additionalModelRequestFields" then extra
         else At(JObj(base), key)
  {
    assert At(JObj(base), "toolConfig") == At(JObj(base), "outputConfig") == None;
    assert At(JObj(base), "additionalModelResponseFieldPaths") == None;
    assert At(JObj(base), "additionalModelRequestFields") == None;
    hide *;
    var withTools := base + Optional("toolConfig", tools);
    var withFormat := withTools + Optional("outputConfig", format);
    var withPaths := withFormat + Optional("additionalModelResponseFieldPaths", paths);
    ReadMerged(base, "toolConfig", tools, key);
    ReadMerged(withTools, "outputConfig", format, key);
    ReadMerged(withFormat, "additionalModelResponseFieldPaths", paths, key);
    ReadMerged(withPaths, "additionalModelRequestFields", extra, key);
  }

  lemma ConverseFields(
    base: map<string, Json>, tools: Option<Json>, format: Option<Json>, paths: Option<Json>, extra: Option<Json>)
    requires base.Keys == {"modelId", "messages", "inferenceConfig"}
    ensures
      var wire := JObj(base + Optional("toolConfig", tools) + Optional("outputConfig", format)
        + Optional("additionalModelResponseFieldPaths", paths) + Optional("additionalModelRequestFields", extra));
      && Field(wire, "modelId") == Field(JObj(base), "modelId")
      && Field(wire, "messages") == Field(JObj(base), "messages")
      && Field(wire, "inferenceConfig") == Field(JObj(base), "inferenceConfig")
      && Field(wire, "toolConfig") == ValueOf(tools)
      && Field(wire, "outputConfig") == ValueOf(format)
      && At(wire, "additionalModelResponseFieldPaths") == paths
      && Field(wire, "additionalModelRequestFields") == ValueOf(extra)
  {
    hide At, Optional, ValueOf;
    ReadConverse(base, tools, format, paths, extra, "additionalModelResponseFieldPaths");
    ReadConverse(base, tools, format, paths, extra, "modelId");
    ReadConverse(base, tools, format, paths, extra, "messages");
    ReadConverse(base, tools, format, paths, extra, "inferenceConfig");
    ReadConverse(base, tools, format, paths, extra, "toolConfig");
    ReadConverse(base, tools, format, paths, extra, "outputConfig");
    ReadConverse(base, tools, format, paths, extra, "additionalModelRequestFields");
  }

  lemma ConverseReads(
    request: ContractRequest, model: string, sendTemperature: bool,
    dumps: Json -> string, loads: string -> Option<Json>,
    wire: Json)
    requires Field(wire, "modelId") == JStr(model)
    requires ConverseSent(Field(wire, "messages")) == [(JStr("user"), JStr(request.prompt))]
    requires Field(Field(wire, "inferenceConfig"), "maxTokens") == request.maxOutputTokens
    requires At(Field(wire, "inferenceConfig"), "temperature")
          == if sendTemperature then Some(request.temperature) else None
    requires NormalizeTools(Field(wire, "toolConfig")) == Ok((AllDescribed(request.tools), ForcedOf(request)))
    requires FormatSent(Field(wire, "outputConfig"), request.outputFormat, dumps)
    requires Field(Field(Field(wire, "additionalModelRequestFields"), "thinking"), "type") == OrNull(request.thinking)
    requires Field(Field(Field(wire, "additionalModelRequestFields"), "output_config"), "effort")
          == OrNull(request.effort)
    ensures ConverseMeaning(wire, loads)
         == RequestMeaning(request, model, sendTemperature, AllDescribed(request.tools))
              .(schema := SchemaBack(request, dumps, loads))
  {
    hide NormalizeTools, AllDescribed, ForcedOf, Field, At, OrNull;
  }

  // ---- Anthropic Messages ----

  // Tools in the Messages API's own shape, with nothing beside them.
  predicate ToolsFlat(items: seq<Json>, tools: seq<Tool>) {
    && |items| == |tools|
    && forall i :: 0 <= i < |tools| ==>
         items[i] == JObj(map[
           "name" := tools[i].name, "description" := tools[i].description, "input_schema" := tools[i].inputSchema])
  }

  method BuildFlatTools(tools: seq<Tool>) returns (items: seq<Json>)
    requires AllNamed(tools)
    ensures ToolsFlat(items, tools)
    ensures NormalizeEach(items) == Ok(tools)
  {
    items := [];
    for i := 0 to |tools|
      invariant NormalizeEach(items) == Ok(tools[..i])
      invariant ToolsFlat(items, tools[..i])
    {
      var item := JObj(map[
        "name" := tools[i].name, "description" := tools[i].description, "input_schema" := tools[i].inputSchema]);
      NormalizeAppended(items, item);
      items := items + [item];
      assert tools[..i + 1] == tools[..i] + [tools[i]];
    }
    assert tools[..|tools|] == tools;
  }

  // The Messages API takes only the schema of a JSON format.
  method BuildMessagesOutputConfig(request: ContractRequest) returns (config: map<string, Json>)
    ensures At(Field(JObj(config), "format"), "type")
         == if request.outputFormat.Some? then Some(JStr("json_schema")) else None
    ensures At(Field(JObj(config), "format"), "schema")
         == if request.outputFormat.Some? then Some(request.outputFormat.value.schema) else None
    ensures Field(JObj(config), "effort") == OrNull(request.effort)
    ensures config.Keys
         == (if request.outputFormat.Some? then {"format"} else {}) + (if request.effort.Some? then {"effort"} else {})
  {
    config := map[];
    if request.outputFormat.Some? {
      var format := JObj(map["type" := JStr("json_schema"), "schema" := request.outputFormat.value.schema]);
      config := config["format" := format];
    }
    if request.effort.Some? {
      config := config["effort" := JStr(request.effort.value)];
    }
  }

  function MessagesKeys(request: ContractRequest, sendTemperature: bool): set<string> {
    {"model", "max_tokens", "messages"}
    + (if sendTemperature then {"temperature"} else {})
    + (if request.tools != [] then {"tools"} else {})
    + (if request.tools != [] && Truthy(request.forcedTool) then {"tool_choice"} else {})
    + (if request.outputFormat.Some? || request.effort.Some? then {"output_config"} else {})
    + (if request.thinking.Some? then {"thinking"} else {})
  }

  function MessagesBase(request: ContractRequest, model: string): map<string, Json> {
    map["model" := JStr(model), "max_tokens" := request.maxOutputTokens,
        "messages" := JArr([JObj(map["role" := JStr("user"), "content" := JStr(request.prompt)])])]
  }

  method BuildKwargs(request: ContractRequest, model: string, sendTemperature: bool) returns (kwargs: map<string, Json>)
    requires WellFormed(request)
    ensures MessagesMeaning(JObj(kwargs)) == RequestMeaning(request, model, sendTemperature, request.tools)
    ensures request.tools != [] ==> ToolsFlat(Items(Field(JObj(kwargs), "tools")), request.tools)
    ensures At(JObj(kwargs), "tool_choice")
         == if request.tools != [] && Truthy(request.forcedTool)
            then Some(JObj(map["type" := JStr("tool"), "name" := request.forcedTool])) else None
    ensures kwargs.Keys == MessagesKeys(request, sendTemperature)
  {
    WellFormedTools(request);
    kwargs := map[
      "model" := JStr(model),
      "max_tokens" := request.maxOutputTokens,
      "messages" := JArr([JObj(map["role" := JStr("user"), "content" := JStr(request.prompt)])])];
    assert kwargs == MessagesBase(request, model);
    hide *;
    ghost var base := kwargs;
    ghost var temperature, tools, choice, output, thinking := None, None, None, None, None;
    if sendTemperature {
      temperature := Some(request.temperature);
      kwargs := kwargs["temperature" := request.temperature];
    }
    Put(base, "temperature", temperature);
    ghost var withTemperature := kwargs;
    if request.tools != [] {
      var items := BuildFlatTools(request.tools);
      tools := Some(JArr(items));
      kwargs := kwargs["tools" := JArr(items)];
      if Truthy(request.forcedTool) {
        choice := Some(ForcedChoice(request.forcedTool));
        kwargs := kwargs["tool_choice" := ForcedChoice(request.forcedTool)];
      }
    }
    Put(withTemperature, "tools", tools);
    Put(withTemperature + Optional("tools", tools), "tool_choice", choice);
    ghost var withTools := kwargs;
    var outputConfig := BuildMessagesOutputConfig(request);
    if outputConfig != map[] {
      output := Some(JObj(outputConfig));
      kwargs := kwargs["output_config" := JObj(outputConfig)];
    }
    Put(withTools, "output_config", output);
    if request.thinking.Some? {
      thinking := Some(JObj(map["type" := JStr(request.thinking.value)]));
      kwargs := kwargs["thinking" := JObj(map["type" := JStr(request.thinking.value)])];
    }
    Put(withTools + Optional("output_config", output), "thinking", thinking);
    ChoiceRead(request, choice);
    MessagesAssembled(request, model, sendTemperature, temperature, tools, choice, output, outputConfig, thinking);
    MessagesKeyed(request, model, sendTemperature, temperature, tools, choice, output, outputConfig, thinking);
    if tools.Some? { FlatRead(kwargs, tools.value.items); }
  }

  function ForcedChoice(name: Json): Json {
    JObj(map["type" := JStr("tool"), "name" := name])
  }

  // The Messages API wants a forced tool's choice to say that it is one.
  lemma ChoiceRead(request: ContractRequest, choice: Option<Json>)
    requires choice
      == if request.tools != [] && Truthy(request.forcedTool) then Some(ForcedChoice(request.forcedTool)) else None
    ensures choice
      == if request.tools != [] && Truthy(request.forcedTool)
         then Some(JObj(map["type" := JStr("tool"), "name" := request.forcedTool])) else None
  {
  }

  lemma FlatRead(kwargs: map<string, Json>, items: seq<Json>)
    requires At(JObj(kwargs), "tools") == Some(JArr(items))
    ensures Items(Field(JObj(kwargs), "tools")) == items
  {
  }

  function MessagesWire(
    base: map<string, Json>, temperature: Option<Json>, tools: Option<Json>, choice: Option<Json>, output: Option<Json>,
    thinking: Option<Json>): map<string, Json>
  {
    base + Optional("temperature", temperature) + Optional("tools", tools) + Optional("tool_choice", choice)
    + Optional("output_config", output) + Optional("thinking", thinking)
  }

  lemma MessagesKeyed(
    request: ContractRequest, model: string, sendTemperature: bool, temperature: Option<Json>, tools: Option<Json>,
    choice: Option<Json>, output: Option<Json>, outputConfig: map<string, Json>, thinking: Option<Json>)
    requires temperature.Some? == sendTemperature
    requires tools.Some? <==> request.tools != []
    requires choice.Some? <==> request.tools != [] && Truthy(request.forcedTool)
    requires output == if outputConfig == map[] then None else Some(JObj(outputConfig))
    requires outputConfig.Keys
      == (if request.outputFormat.Some? then {"format"} else {}) + (if request.effort.Some? then {"effort"} else {})
    requires thinking.Some? == request.thinking.Some?
    ensures
      var base := MessagesBase(request, model);
      (base + Optional("temperature", temperature) + Optional("tools", tools) + Optional("tool_choice", choice)
       + Optional("output_config", output) + Optional("thinking", thinking)).Keys
      == MessagesKeys(request, sendTemperature)
  {
    hide Truthy;
    assert outputConfig == map[] <==> request.outputFormat.None? && request.effort.None? by {
      hide *;
      if request.outputFormat.Some? {
        assert "format" in outputConfig;
      } else if request.effort.Some? {
        assert "effort" in outputConfig;
      } else {
        assert outputConfig.Keys == {};
      }
    }
    var base := MessagesBase(request, model);
    assert base.Keys == {"model", "max_tokens", "messages"};
    hide Optional, MessagesBase;
    var withTemperature := base + Optional("temperature", temperature);
    var withTools := withTemperature + Optional("tools", tools);
    var withChoice := withTools + Optional("tool_choice", choice);
    var withOutput := withChoice + Optional("output_config", output);
    Put(base, "temperature", temperature);
    Put(withTemperature, "tools", tools);
    Put(withTools, "tool_choice", choice);
    Put(withChoice, "output_config", output);
    Put(withOutput, "thinking", thinking);
  }

  lemma ReadMessages(
    base: map<string, Json>, temperature: Option<Json>, tools: Option<Json>, choice: Option<Json>, output: Option<Json>,
    thinking: Option<Json>, key: string)
    requires base.Keys == {"model", "max_tokens", "messages"}
    ensures At(JObj(MessagesWire(base, temperature, tools, choice, output, thinking)), key)
      == if key == "temperature" then temperature
         else if key == "tools" then tools
         else if key == "tool_choice" then choice
         else if key == "output_config" then output
         else if key == "thinking" then thinking
         else At(JObj(base), key)
  {
    assert At(JObj(base), "temperature") == At(JObj(base), "tools") == At(JObj(base), "tool_choice") == None;
    assert At(JObj(base), "output_config") == At(JObj(base), "thinking") == None;
    hide At, Optional;
    var withTemperature := base + Optional("temperature", temperature);
    var withTools := withTemperature + Optional("tools", tools);
    var withChoice := withTools + Optional("tool_choice", choice);
    var withOutput := withChoice + Optional("output_config", output);
    ReadMerged(base, "temperature", temperature, key);
    ReadMerged(withTemperature, "tools", tools, key);
    ReadMerged(withTools, "tool_choice", choice, key);
    ReadMerged(withChoice, "output_config", output, key);
    ReadMerged(withOutput, "thinking", thinking, key);
  }

  lemma MessagesFields(
    request: ContractRequest, model: string, temperature: Option<Json>, tools: Option<Json>, choice: Option<Json>,
    output: Option<Json>, thinking: Option<Json>)
    ensures
      var wire := JObj(MessagesWire(MessagesBase(request, model), temperature, tools, choice, output, thinking));
      && Field(wire, "model") == JStr(model)
      && Field(wire, "max_tokens") == request.maxOutputTokens
      && MessagesSent(Field(wire, "messages")) == [(JStr("user"), JStr(request.prompt))]
      && At(wire, "temperature") == temperature
      && Field(wire, "output_config") == ValueOf(output)
      && Field(wire, "thinking") == ValueOf(thinking)
      && At(wire, "tools") == tools
      && At(wire, "tool_choice") == choice
      && At(wire, "toolChoice") == None
      && Truthy(wire)
  {
    var base := MessagesBase(request, model);
    MessagesBaseReads(request, model);
    assert Truthy(JObj(MessagesWire(base, temperature, tools, choice, output, thinking))) by {
      ReadMessages(base, temperature, tools, choice, output, thinking, "model");
    }
    hide At, Optional, MessagesBase, MessagesWire, Truthy;
    ReadMessages(base, temperature, tools, choice, output, thinking, "model");
    ReadMessages(base, temperature, tools, choice, output, thinking, "max_tokens");
    ReadMessages(base, temperature, tools, choice, output, thinking, "messages");
    ReadMessages(base, temperature, tools, choice, output, thinking, "temperature");
    ReadMessages(base, temperature, tools, choice, output, thinking, "output_config");
    ReadMessages(base, temperature, tools, choice, output, thinking, "thinking");
    ReadMessages(base, temperature, tools, choice, output, thinking, "tools");
    ReadMessages(base, temperature, tools, choice, output, thinking, "tool_choice");
    ReadMessages(base, temperature, tools, choice, output, thinking, "toolChoice");
  }

  lemma MessagesBaseReads(request: ContractRequest, model: string)
    ensures MessagesBase(request, model).Keys == {"model", "max_tokens", "messages"}
    ensures At(JObj(MessagesBase(request, model)), "model") == Some(JStr(model))
    ensures At(JObj(MessagesBase(request, model)), "max_tokens") == Some(request.maxOutputTokens)
    ensures MessagesSent(Field(JObj(MessagesBase(request, model)), "messages"))
         == [(JStr("user"), JStr(request.prompt))]
    ensures At(JObj(MessagesBase(request, model)), "toolChoice") == None
  {
  }

  lemma OutputRead(request: ContractRequest, output: Option<Json>, outputConfig: map<string, Json>)
    requires output == if outputConfig == map[] then None else Some(JObj(outputConfig))
    requires At(Field(JObj(outputConfig), "format"), "type")
         == if request.outputFormat.Some? then Some(JStr("json_schema")) else None
    requires At(Field(JObj(outputConfig), "format"), "schema")
         == if request.outputFormat.Some? then Some(request.outputFormat.value.schema) else None
    requires Field(JObj(outputConfig), "effort") == OrNull(request.effort)
    ensures At(Field(ValueOf(output), "format"), "type")
         == if request.outputFormat.Some? then Some(JStr("json_schema")) else None
    ensures At(Field(ValueOf(output), "format"), "schema")
         == if request.outputFormat.Some? then Some(request.outputFormat.value.schema) else None
    ensures Field(ValueOf(output), "effort") == OrNull(request.effort)
  {
    hide OrNull;
    if outputConfig == map[] {
      assert JObj(outputConfig).fields == map[];
    }
  }

  lemma ThinkingRead(request: ContractRequest, thinking: Option<Json>)
    requires thinking
      == if request.thinking.Some? then Some(JObj(map["type" := JStr(request.thinking.value)])) else None
    ensures Field(ValueOf(thinking), "type") == OrNull(request.thinking)
  {
  }

  lemma ForcedChoiceReadBack(name: Json)
    ensures NormalizeToolChoice(ForcedChoice(name)) == Ok(name)
  {
    var fields := ForcedChoice(name).fields;
    assert "name" in fields && fields["name"] == name;
    assert "tool"[1] == 'o' && "type"[1] == 'y';
    assert "tool" !in fields;
  }

  lemma NoChoiceReadBack()
    ensures NormalizeToolChoice(JNull) == Ok(JNull)
  {
  }

  lemma FlatToolsReadBack(request: ContractRequest, wire: Json)
    requires wire.JObj? && Truthy(wire) && At(wire, "toolChoice") == None
    requires if request.tools == [] then At(wire, "tools") == None
             else At(wire, "tools").Some? && At(wire, "tools").value.JArr?
                  && NormalizeEach(At(wire, "tools").value.items) == Ok(request.tools)
    requires At(wire, "tool_choice")
      == if request.tools != [] && Truthy(request.forcedTool) then Some(ForcedChoice(request.forcedTool)) else None
    ensures NormalizeTools(wire) == Ok((request.tools, ForcedOf(request)))
  {
    ForcedChoiceReadBack(request.forcedTool);
    NoChoiceReadBack();
    hide NormalizeToolChoice, ForcedChoice;
  }

  lemma MessagesAssembled(
    request: ContractRequest, model: string, sendTemperature: bool, temperature: Option<Json>, tools: Option<Json>,
    choice: Option<Json>, output: Option<Json>, outputConfig: map<string, Json>, thinking: Option<Json>)
    requires temperature == if sendTemperature then Some(request.temperature) else None
    requires if request.tools == [] then tools == None
             else tools.Some? && tools.value.JArr? && NormalizeEach(tools.value.items) == Ok(request.tools)
    requires choice
      == if request.tools != [] && Truthy(request.forcedTool) then Some(ForcedChoice(request.forcedTool)) else None
    requires output == if outputConfig == map[] then None else Some(JObj(outputConfig))
    requires At(Field(JObj(outputConfig), "format"), "type")
         == if request.outputFormat.Some? then Some(JStr("json_schema")) else None
    requires At(Field(JObj(outputConfig), "format"), "schema")
         == if request.outputFormat.Some? then Some(request.outputFormat.value.schema) else None
    requires Field(JObj(outputConfig), "effort") == OrNull(request.effort)
    requires thinking
      == if request.thinking.Some? then Some(JObj(map["type" := JStr(request.thinking.value)])) else None
    ensures
      var base := MessagesBase(request, model);
      var wire := JObj(base + Optional("temperature", temperature) + Optional("tools", tools)
        + Optional("tool_choice", choice) + Optional("output_config", output) + Optional("thinking", thinking));
      && MessagesMeaning(wire) == RequestMeaning(request, model, sendTemperature, request.tools)
      && At(wire, "tool_choice") == choice
      && At(wire, "tools") == tools
  {
    MessagesFields(request, model, temperature, tools, choice, output, thinking);
    var wire := JObj(MessagesWire(MessagesBase(request, model), temperature, tools, choice, output, thinking));
    FlatToolsReadBack(request, wire);
    OutputRead(request, output, outputConfig);
    ThinkingRead(request, thinking);
    hide Field, At, Truthy, NormalizeTools, NormalizeEach, ForcedOf, ForcedChoice;
    hide OrNull, ValueOf, Optional, MessagesBase;
  }

  // Re-normalising the flat tools gives back the tools always, and the forced tool exactly
  // when it is absent or a usable name beside tools.
  method MessagesToolsRoundTrip(request: ContractRequest, model: string, sendTemperature: bool)
      returns (kwargs: map<string, Json>)
    requires WellFormed(request)
    ensures NormalizeTools(JObj(kwargs)).Ok? && NormalizeTools(JObj(kwargs)).value.0 == request.tools
    ensures NormalizeTools(JObj(kwargs)).value.1 == request.forcedTool
       <==> request.forcedTool == JNull || (request.tools != [] && Truthy(request.forcedTool))
  {
    hide NormalizeTools;
    kwargs := BuildKwargs(request, model, sendTemperature);
    assert MessagesMeaning(JObj(kwargs)).tools == Ok((request.tools, ForcedOf(request)));
  }

  // The two backends are asked for the same thing exactly when no description is falsy
  // other than "", which Bedrock drops and the Messages API is sent, and a schema survives
  // being printed, which only Bedrock's does.
  method BuildForBoth(
    request: ContractRequest, model: string, sendTemperature: bool,
    dumps: Json -> string, loads: string -> Option<Json>)
      returns (converse: map<string, Json>, messages: map<string, Json>)
    requires WellFormed(request)
    ensures ConverseMeaning(JObj(converse), loads) == MessagesMeaning(JObj(messages))
       <==> PlainlyDescribed(request.tools) && Printable(request, dumps, loads)
  {
    DescribedIsPlain(request.tools);
    hide ConverseMeaning, MessagesMeaning, AllDescribed, PlainlyDescribed, WellFormed;
    converse := BuildConverseKwargs(request, model, sendTemperature, dumps, loads);
    messages := BuildKwargs(request, model, sendTemperature);
  }

  // A forced name of "" is the other exception: the toolConfig leaves the choice out.
  method EmptyForcedNameIsLost() returns (config: map<string, Json>)
    ensures NormalizeTools(JObj(config)) == Ok(([Tool(JStr("search"), JStr("Searches."), JObj(map[]))], JNull))
    ensures config.Keys == {"tools"}
  {
    var tool := Tool(JStr("search"), JStr("Searches."), JObj(map[]));
    var request := ContractRequest(
      "m", "p", DEFAULT_MAX_OUTPUT_TOKENS, DEFAULT_TEMPERATURE, [tool], JStr(""), None, None, None);
    config := BuildToolConfig(request);
    assert AllDescribed([tool]) == [tool];
  }

  // A null description is such a one: it comes back from a toolConfig as "".
  method NullDescriptionIsLost() returns (config: map<string, Json>)
    ensures
      var tool := Tool(JStr("search"), JNull, JObj(map[]));
      NormalizeTools(JObj(config)) == Ok(([tool.(description := JStr(""))], JNull))
  {
    var tool := Tool(JStr("search"), JNull, JObj(map[]));
    var request := ContractRequest(
      "m", "p", DEFAULT_MAX_OUTPUT_TOKENS, DEFAULT_TEMPERATURE, [tool], JNull, None, None, None);
    config := BuildToolConfig(request);
    assert AllDescribed([tool]) == [tool.(description := JStr(""))];
  }
}
