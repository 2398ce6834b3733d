// src/llm_worker/contract.py: normalising v0 and v1 rows into one request.
module Contract {
  import opened Json

  const DEFAULT_MAX_OUTPUT_TOKENS := JNum(512.0)
  const DEFAULT_TEMPERATURE := JNum(0.0)

  // Field types are JSON because nothing in the source checks them.
  datatype Tool = Tool(name: Json, description: Json, inputSchema: Json)

  datatype OutputFormat = OutputFormat(name: Json, description: Json, schema: Json)

  datatype ContractRequest = ContractRequest(
    modelId: string,
    prompt: string,
    maxOutputTokens: Json,
    temperature: Json,
    tools: seq<Tool>,
    forcedTool: Json,  // JNull when no tool is forced
    outputFormat: Option<OutputFormat>,
    thinking: Option<string>,
    effort: Option<string>)

  // ---- Model references ----

  const MC_PREFIX := "mc:"
  const PROVIDER_PREFIX := "provider:"

  // Strips the first namespace prefix only.
  function ResolveModelRef(modelId: string): string {
    if MC_PREFIX <= modelId then modelId[|MC_PREFIX|..]
    else if PROVIDER_PREFIX <= modelId then modelId[|PROVIDER_PREFIX|..]
    else modelId
  }

  // Whatever follows a prefix survives, colons and further prefixes included.
  lemma PrefixedRefResolves(model: string)
    ensures ResolveModelRef("mc:" + model) == model
    ensures ResolveModelRef("provider:" + model) == model
  {
    assert (PROVIDER_PREFIX + model)[0] == 'p';
  }

  // An unprefixed value is left alone, as is anything before a prefix that is not the first.
  lemma UnprefixedRefStays(modelId: string)
    requires !("mc:" <= modelId) && !("provider:" <= modelId)
    ensures ResolveModelRef(modelId) == modelId
    ensures ResolveModelRef("mc:" + modelId) == ResolveModelRef("provider:" + modelId) == modelId
  {
    PrefixedRefResolves(modelId);
  }

  // A row that sets thinking or a JSON format is for a model that rejects a temperature.
  predicate OmitsTemperature(request: ContractRequest) {
    request.thinking.Some? || request.outputFormat.Some?
  }

  // ---- Normalisation ----

  function NormalizeTool(tool: Json): Py<Tool> {
    if !tool.JObj? then
      // A string or list that passes the `in` test cannot be indexed by a key, one that
      // does not has no `get`, and nothing else supports `in`.
      var hasKey := match tool
        case JStr(s) => Contains(s, "toolSpec")
        case JArr(items) => JStr("toolSpec") in items
        case _ => true;
      Raise(if hasKey then TypeError else AttributeError)
    else if "toolSpec" in tool.fields then
      var spec := tool.fields["toolSpec"];
      var name :- Get(spec, "name");
      if !Truthy(name) then Raise(ValueError) else
      var description :- GetOr(spec, "description", JStr(""));
      var wrapper :- GetOr(spec, "inputSchema", JObj(map[]));
      var schema :- GetOr(wrapper, "json", JObj(map[]));
      Ok(Tool(name, description, schema))
    else
      var name :- Get(tool, "name");
      if !Truthy(name) then Raise(ValueError) else
      var description :- GetOr(tool, "description", JStr(""));
      var schema :- GetOr(tool, "input_schema", JObj(map[]));
      Ok(Tool(name, description, schema))
  }

  function NormalizeEach(tools: seq<Json>): Py<seq<Tool>> {
    if tools == [] then Ok([])
    else
      var first :- NormalizeTool(tools[0]);
      var rest :- NormalizeEach(tools[1..]);
      Ok([first] + rest)
  }

  // What `for t in tools` sees: a list's items; the characters or keys of an empty string or
  // dict are none, and those of any other one are strings, which are not tools. A string in
  // which "toolSpec" is found is indexed by it, and any other one has no `get`.
  function NormalizeToolList(tools: Json): Py<seq<Tool>> {
    match tools
    case JArr(items) => NormalizeEach(items)
    case JStr(s) => if s == "" then Ok([]) else Raise(AttributeError)
    case JObj(fields) =>
      if fields == map[] then Ok([])
      else Raise(if forall key :: key in fields ==> Contains(key, "toolSpec") then TypeError else AttributeError)
    case _ => Raise(TypeError)
  }

  function NormalizeToolChoice(choice: Json): Py<Json> {
    if !Truthy(choice) || choice.JStr? then Ok(JNull)
    else if choice.JObj? then
      if "tool" in choice.fields then Get(choice.fields["tool"], "name")
      else if "name" in choice.fields then Ok(choice.fields["name"])
      else Ok(JNull)
    else if choice.JArr? then
      // A list that contains "tool" or "name" passes the `in` test and cannot be
      // indexed by it.
      if JStr("tool") in choice.items || JStr("name") in choice.items then Raise(TypeError)
      else Ok(JNull)
    else Raise(TypeError)
  }

  function NormalizeTools(config: Json): Py<(seq<Tool>, Json)> {
    if !Truthy(config) then Ok(([], JNull))
    else
      var list :- GetOr(config, "tools", JArr([]));
      var tools :- NormalizeToolList(list);
      var v0Choice :- Get(config, "toolChoice");
      var choice :- GetOr(config, "tool_choice", v0Choice);
      var forced :- NormalizeToolChoice(choice);
      Ok((tools, forced))
  }

  function NormalizeOutputFormat(config: Json): Py<Option<OutputFormat>> {
    var format :- Get(if Truthy(config) then config else JObj(map[]), "output_format");
    if format == JNull then Ok(None)
    else
      var kind :- Get(format, "type");
      if kind != JStr("json_schema") then Raise(ValueError) else
      var schema :- Get(format, "schema");
      if !schema.JObj? then Raise(ValueError) else
      var name :- Get(format, "name");
      if !Truthy(name) then Raise(ValueError) else
      var description :- GetOr(format, "description", JStr(""));
      Ok(Some(OutputFormat(name, description, schema)))
  }

  function OptionalStr(params: Json, key: string): Py<Option<string>> {
    var value :- Get(params, key);
    match value
    case JNull => Ok(None)
    case JStr(s) => if s == "" then Raise(ValueError) else Ok(Some(s))
    case _ => Raise(ValueError)
  }

  function TokenLimit(params: Json): Py<Json> {
    var v1Tokens :- Get(params, "max_output_tokens");
    if v1Tokens == JNull then GetOr(params, "maxTokens", DEFAULT_MAX_OUTPUT_TOKENS) else Ok(v1Tokens)
  }

  function BuildRequest(modelId: string, prompt: string, params: Json, config: Json): (r: Py<ContractRequest>)
    ensures r.Ok? ==> WellFormed(r.value)
  {
    ToolsAreNamed(config);
    Combine(modelId, prompt, TokenLimit(params), GetOr(params, "temperature", DEFAULT_TEMPERATURE),
            NormalizeTools(config), NormalizeOutputFormat(config),
            OptionalStr(params, "thinking"), OptionalStr(params, "effort"))
  }

  // The two combinations a backend would reject or answer unpredictably fail the row.
  function Combine(
    modelId: string, prompt: string, tokens: Py<Json>, temperature: Py<Json>, tools: Py<(seq<Tool>, Json)>,
    format: Py<Option<OutputFormat>>, thinking: Py<Option<string>>, effort: Py<Option<string>>): Py<ContractRequest>
  {
    var tokens :- tokens;
    var temperature :- temperature;
    var (tools, forced) :- tools;
    var format :- format;
    var thinking :- thinking;
    if format.Some? && tools != [] then Raise(ValueError)
    else if thinking.Some? && forced != JNull then Raise(ValueError)
    else
      var effort :- effort;
      Ok(ContractRequest(modelId, prompt, tokens, temperature, tools, forced, format, thinking, effort))
  }

  // ---- What every normalised request satisfies ----

  predicate AllNamed(tools: seq<Tool>) {
    forall i :: 0 <= i < |tools| ==> Truthy(tools[i].name)
  }

  // The shape the adapters rely on: named tools, never tools beside a JSON format, and
  // never thinking beside a forced tool.
  predicate WellFormed(request: ContractRequest) {
    && AllNamed(request.tools)
    && (request.outputFormat.Some? ==>
          && request.tools == []
          && request.outputFormat.value.schema.JObj?
          && Truthy(request.outputFormat.value.name))
    && (request.thinking.Some? ==> request.forcedTool == JNull && request.thinking.value != "")
    && (request.effort.Some? ==> request.effort.value != "")
  }

  lemma {:induction false} EachNamed(items: seq<Json>)
    ensures NormalizeEach(items).Ok? ==> |NormalizeEach(items).value| == |items| && AllNamed(NormalizeEach(items).value)
  {
    if items != [] {
      EachNamed(items[1..]);
    }
  }

  lemma ToolsAreNamed(config: Json)
    ensures NormalizeTools(config).Ok? ==> AllNamed(NormalizeTools(config).value.0)
  {
    if Truthy(config) && config.JObj? && "tools" in config.fields && config.fields["tools"].JArr? {
      EachNamed(config.fields["tools"].items);
    }
  }

  // ---- The two encodings of one abstract request ----

  datatype ToolDef = ToolDef(name: Json, description: Option<Json>, schema: Option<Json>)

  datatype Choice = NoChoice | Auto | Forced(name: Json)

  // A request before it is spelled as v0 or v1; None leaves a key out.
  datatype Spec = Spec(
    tools: seq<ToolDef>,
    choice: Choice,
    outputFormat: Option<Json>,
    tokens: Option<Json>,
    temperature: Option<Json>,
    thinking: Option<Json>,
    effort: Option<Json>)

  datatype Version = V0 | V1

  function Optional(key: string, value: Option<Json>): map<string, Json> {
    if value.Some? then map[key := value.value] else map[]
  }

  function EncodeTool(version: Version, tool: ToolDef): Json {
    match version
    case V0 =>
      var schema := if tool.schema.Some? then Some(JObj(map["json" := tool.schema.value])) else None;
      JObj(map["toolSpec" := JObj(map["name" := tool.name]
                                  + Optional("description", tool.description)
                                  + Optional("inputSchema", schema))])
    case V1 =>
      JObj(map["name" := tool.name]
           + Optional("description", tool.description)
           + Optional("input_schema", tool.schema))
  }

  // Each tool may be spelled in its own version, as rows are during a migration.
  function EncodeTools(versions: seq<Version>, tools: seq<ToolDef>): seq<Json>
    requires |versions| == |tools|
  {
    seq(|tools|, i requires 0 <= i < |tools| => EncodeTool(versions[i], tools[i]))
  }

  function EncodeChoice(version: Version, choice: Choice): map<string, Json> {
    match (version, choice)
    case (_, NoChoice) => map[]
    case (V0, Auto) => map["toolChoice" := JObj(map["auto" := JObj(map[])])]
    case (V0, Forced(name)) => map["toolChoice" := JObj(map["tool" := JObj(map["name" := name])])]
    case (V1, Auto) => map["tool_choice" := JStr("auto")]
    case (V1, Forced(name)) => map["tool_choice" := JObj(map["name" := name])]
  }

  function EncodeConfig(versions: seq<Version>, choiceVersion: Version, spec: Spec): Json
    requires |versions| == |spec.tools|
  {
    JObj((if spec.tools == [] then map[] else map["tools" := JArr(EncodeTools(versions, spec.tools))])
         + EncodeChoice(choiceVersion, spec.choice)
         + Optional("output_format", spec.outputFormat))
  }

  function EncodeParams(version: Version, spec: Spec): Json {
    JObj(Optional(if version.V0? then "maxTokens" else "max_output_tokens", spec.tokens)
         + Optional("temperature", spec.temperature)
         + Optional("thinking", spec.thinking)
         + Optional("effort", spec.effort))
  }

  // The tool a definition denotes, whatever its spelling.
  function Denote(tool: ToolDef): Py<Tool> {
    if !Truthy(tool.name) then Raise(ValueError)
    else Ok(Tool(
      tool.name,
      if tool.description.Some? then tool.description.value else JStr(""),
      if tool.schema.Some? then tool.schema.value else JObj(map[])))
  }

  lemma EncodedToolDenotes(version: Version, tool: ToolDef)
    ensures NormalizeTool(EncodeTool(version, tool)) == Denote(tool)
  {
  }

  function DenoteEach(tools: seq<ToolDef>): Py<seq<Tool>> {
    if tools == [] then Ok([])
    else
      var first :- Denote(tools[0]);
      var rest :- DenoteEach(tools[1..]);
      Ok([first] + rest)
  }

  lemma {:induction false} EncodedToolsDenote(versions: seq<Version>, tools: seq<ToolDef>)
    requires |versions| == |tools|
    ensures NormalizeEach(EncodeTools(versions, tools)) == DenoteEach(tools)
  {
    if tools != [] {
      EncodedToolDenotes(versions[0], tools[0]);
      EncodedToolsDenote(versions[1..], tools[1..]);
      assert EncodeTools(versions, tools)[1..] == EncodeTools(versions[1..], tools[1..]);
    }
  }

  function DenoteTools(spec: Spec): Py<(seq<Tool>, Json)> {
    var tools :- DenoteEach(spec.tools);
    Ok((tools, if spec.choice.Forced? then spec.choice.name else JNull))
  }

  // Whatever the spellings, the config has these entries.
  lemma EncodedConfigEntries(versions: seq<Version>, choiceVersion: Version, spec: Spec)
    requires |versions| == |spec.tools|
    ensures
      var config := EncodeConfig(versions, choiceVersion, spec);
      && GetOr(config, "tools", JArr([])) == Ok(JArr(EncodeTools(versions, spec.tools)))
      && Get(config, "output_format") == Ok(if spec.outputFormat.Some? then spec.outputFormat.value else JNull)
      && GetOr(config, "tool_choice", Get(config, "toolChoice").value)
         == Ok(match spec.choice
               case NoChoice => JNull
               case Auto => if choiceVersion.V0? then JObj(map["auto" := JObj(map[])]) else JStr("auto")
               case Forced(name) =>
                 if choiceVersion.V0? then JObj(map["tool" := JObj(map["name" := name])])
                 else JObj(map["name" := name]))
      && (!Truthy(config) ==> spec.tools == [] && spec.choice.NoChoice? && spec.outputFormat.None?)
  {
    var config := EncodeConfig(versions, choiceVersion, spec);
    assert "tools" in config.fields || EncodeTools(versions, spec.tools) == [];
    if !Truthy(config) {
      assert "tools" !in config.fields && "output_format" !in config.fields;
      assert "toolChoice" !in config.fields && "tool_choice" !in config.fields;
    }
  }

  lemma EncodedConfigDenotes(versions: seq<Version>, choiceVersion: Version, spec: Spec)
    requires |versions| == |spec.tools|
    ensures NormalizeTools(EncodeConfig(versions, choiceVersion, spec)) == DenoteTools(spec)
  {
    var config := EncodeConfig(versions, choiceVersion, spec);
    EncodedConfigEntries(versions, choiceVersion, spec);
    if Truthy(config) {
      EncodedToolsDenote(versions, spec.tools);
      var choice := GetOr(config, "tool_choice", Get(config, "toolChoice").value).value;
      assert choice.JObj? ==> "auto" in choice.fields || "tool" in choice.fields || "name" in choice.fields;
      assert NormalizeToolChoice(choice) == Ok(if spec.choice.Forced? then spec.choice.name else JNull);
    }
  }

  lemma EncodedFormatAgrees(
    versions: seq<Version>, choice: Version, versions': seq<Version>, choice': Version, spec: Spec)
    requires |versions| == |versions'| == |spec.tools|
    ensures NormalizeOutputFormat(EncodeConfig(versions, choice, spec))
         == NormalizeOutputFormat(EncodeConfig(versions', choice', spec))
  {
    EncodedConfigEntries(versions, choice, spec);
    EncodedConfigEntries(versions', choice', spec);
  }

  lemma EncodedParamsEntries(version: Version, spec: Spec)
    ensures
      var params := EncodeParams(version, spec);
      && Get(params, "max_output_tokens") == Ok(if version.V1? && spec.tokens.Some? then spec.tokens.value else JNull)
      && GetOr(params, "maxTokens", DEFAULT_MAX_OUTPUT_TOKENS)
         == Ok(if version.V0? && spec.tokens.Some? then spec.tokens.value else DEFAULT_MAX_OUTPUT_TOKENS)
      && GetOr(params, "temperature", DEFAULT_TEMPERATURE)
         == Ok(if spec.temperature.Some? then spec.temperature.value else DEFAULT_TEMPERATURE)
      && Get(params, "thinking") == Ok(if spec.thinking.Some? then spec.thinking.value else JNull)
      && Get(params, "effort") == Ok(if spec.effort.Some? then spec.effort.value else JNull)
  {
  }

  lemma EncodedParamsAgree(version: Version, version': Version, spec: Spec)
    ensures
      var params, params' := EncodeParams(version, spec), EncodeParams(version', spec);
      && OptionalStr(params, "thinking") == OptionalStr(params', "thinking")
      && OptionalStr(params, "effort") == OptionalStr(params', "effort")
      && GetOr(params, "temperature", DEFAULT_TEMPERATURE) == GetOr(params', "temperature", DEFAULT_TEMPERATURE)
  {
    hide EncodeParams;
    EncodedParamsEntries(version, spec);
    EncodedParamsEntries(version', spec);
  }

  lemma TokenLimitShows(
    modelId: string, prompt: string, tokens: Py<Json>, tokens': Py<Json>, temperature: Py<Json>,
    tools: Py<(seq<Tool>, Json)>, format: Py<Option<OutputFormat>>, thinking: Py<Option<string>>,
    effort: Py<Option<string>>)
    requires tokens.Ok? && tokens'.Ok?
    ensures
      var r := Combine(modelId, prompt, tokens, temperature, tools, format, thinking, effort);
      var r' := Combine(modelId, prompt, tokens', temperature, tools, format, thinking, effort);
      r == r' <==> (tokens == tokens' || r.Raise?)
  {
  }

  lemma EncodedTokenLimit(version: Version, spec: Spec)
    ensures TokenLimit(EncodeParams(version, spec))
         == Ok(match spec.tokens
               case None => DEFAULT_MAX_OUTPUT_TOKENS
               case Some(limit) => if version.V1? && limit == JNull then DEFAULT_MAX_OUTPUT_TOKENS else limit)
  {
    EncodedParamsEntries(version, spec);
  }

  // ---- The requests that no spelling makes acceptable ----

  predicate BadFormat(format: Json) {
    format != JNull
    && (At(format, "type") != Some(JStr("json_schema"))
        || At(format, "schema").None? || !At(format, "schema").value.JObj?
        || At(format, "name").None? || !Truthy(At(format, "name").value))
  }

  predicate BadText(text: Json) {
    text != JNull && (!text.JStr? || text.s == "")
  }

  predicate Gives(value: Option<Json>) {
    value.Some? && value.value != JNull
  }

  // An unnamed tool; a malformed output format, or one beside tools; a thinking or an effort
  // that is not a non-empty string; or thinking beside a forced tool.
  predicate Unacceptable(spec: Spec) {
    || (exists i :: 0 <= i < |spec.tools| && !Truthy(spec.tools[i].name))
    || (spec.outputFormat.Some? && BadFormat(spec.outputFormat.value))
    || (Gives(spec.outputFormat) && spec.tools != [])
    || (spec.thinking.Some? && BadText(spec.thinking.value))
    || (Gives(spec.thinking) && spec.choice.Forced? && spec.choice.name != JNull)
    || (spec.effort.Some? && BadText(spec.effort.value))
  }

  lemma {:induction false} UnnamedToolRaises(tools: seq<ToolDef>)
    ensures DenoteEach(tools).Raise? <==> exists i :: 0 <= i < |tools| && !Truthy(tools[i].name)
    ensures DenoteEach(tools).Ok? ==> |DenoteEach(tools).value| == |tools|
  {
    if tools != [] {
      UnnamedToolRaises(tools[1..]);
      if exists i :: 0 <= i < |tools[1..]| && !Truthy(tools[1..][i].name) {
        var i :| 0 <= i < |tools[1..]| && !Truthy(tools[1..][i].name);
        assert !Truthy(tools[i + 1].name);
      }
      if exists i :: 0 <= i < |tools| && !Truthy(tools[i].name) {
        var i :| 0 <= i < |tools| && !Truthy(tools[i].name);
        assert i > 0 ==> !Truthy(tools[1..][i - 1].name);
      }
    }
  }

  lemma EncodedFormatRaises(versions: seq<Version>, choice: Version, spec: Spec)
    requires |versions| == |spec.tools|
    ensures
      var format := NormalizeOutputFormat(EncodeConfig(versions, choice, spec));
      && (format.Raise? <==> spec.outputFormat.Some? && BadFormat(spec.outputFormat.value))
      && (format.Ok? ==> (format.value.Some? <==> Gives(spec.outputFormat)))
  {
    EncodedConfigEntries(versions, choice, spec);
    hide EncodeConfig, EncodeTools, EncodeChoice, Optional;
  }

  lemma EncodedTextRaises(version: Version, spec: Spec)
    ensures
      var thinking := OptionalStr(EncodeParams(version, spec), "thinking");
      && (thinking.Raise? <==> spec.thinking.Some? && BadText(spec.thinking.value))
      && (thinking.Ok? ==> (thinking.value.Some? <==> Gives(spec.thinking)))
    ensures OptionalStr(EncodeParams(version, spec), "effort").Raise?
       <==> spec.effort.Some? && BadText(spec.effort.value)
  {
    EncodedParamsEntries(version, spec);
    hide EncodeParams;
  }

  // Exactly these fail their row, however they are spelled.
  lemma RaisesIffUnacceptable(
    modelId: string, prompt: string, spec: Spec, params: Version, versions: seq<Version>, choice: Version)
    requires |versions| == |spec.tools|
    ensures BuildRequest(modelId, prompt, EncodeParams(params, spec), EncodeConfig(versions, choice, spec)).Raise?
       <==> Unacceptable(spec)
  {
    EncodedConfigDenotes(versions, choice, spec);
    UnnamedToolRaises(spec.tools);
    EncodedFormatRaises(versions, choice, spec);
    EncodedTextRaises(params, spec);
    EncodedTokenLimit(params, spec);
    EncodedParamsEntries(params, spec);
    hide EncodeParams, EncodeConfig, NormalizeTools, NormalizeOutputFormat, OptionalStr, TokenLimit, GetOr;
    hide DenoteEach, BadFormat, BadText, Truthy;
  }

  // ---- The request an acceptable one becomes ----

  predicate IsTool(tool: Tool, def: ToolDef) {
    && tool.name == def.name
    && tool.description == (if def.description.Some? then def.description.value else JStr(""))
    && tool.inputSchema == (if def.schema.Some? then def.schema.value else JObj(map[]))
  }

  predicate IsFormat(format: Option<OutputFormat>, given: Option<Json>) {
    if Gives(given) then
      && format.Some? && given.value.JObj?
      && At(given.value, "name") == Some(format.value.name)
      && At(given.value, "schema") == Some(format.value.schema)
      && format.value.description
         == (if "description" in given.value.fields then given.value.fields["description"] else JStr(""))
    else format.None?
  }

  predicate IsText(text: Option<string>, given: Option<Json>) {
    if Gives(given) then given.value.JStr? && text == Some(given.value.s) else text.None?
  }

  // Every field of a request, read off the abstract one.
  predicate IsRequest(request: ContractRequest, modelId: string, prompt: string, spec: Spec, params: Version) {
    && request.modelId == modelId
    && request.prompt == prompt
    && request.maxOutputTokens
       == (if spec.tokens.None? || (spec.tokens.value == JNull && params.V1?) then JNum(512.0) else spec.tokens.value)
    && request.temperature == (if spec.temperature.Some? then spec.temperature.value else JNum(0.0))
    && |request.tools| == |spec.tools|
    && (forall i :: 0 <= i < |spec.tools| ==> IsTool(request.tools[i], spec.tools[i]))
    && request.forcedTool == (if spec.choice.Forced? then spec.choice.name else JNull)
    && IsFormat(request.outputFormat, spec.outputFormat)
    && IsText(request.thinking, spec.thinking)
    && IsText(request.effort, spec.effort)
  }

  lemma {:induction false} DenotedEach(tools: seq<ToolDef>)
    requires DenoteEach(tools).Ok?
    ensures |DenoteEach(tools).value| == |tools|
    ensures forall i :: 0 <= i < |tools| ==> IsTool(DenoteEach(tools).value[i], tools[i])
  {
    if tools != [] {
      DenotedEach(tools[1..]);
    }
  }

  lemma EncodedFormatIs(versions: seq<Version>, choice: Version, spec: Spec)
    requires |versions| == |spec.tools|
    requires NormalizeOutputFormat(EncodeConfig(versions, choice, spec)).Ok?
    ensures IsFormat(NormalizeOutputFormat(EncodeConfig(versions, choice, spec)).value, spec.outputFormat)
  {
    EncodedConfigEntries(versions, choice, spec);
    hide EncodeConfig, EncodeTools, EncodeChoice, Optional;
  }

  lemma EncodedTextIs(version: Version, spec: Spec)
    ensures
      var thinking := OptionalStr(EncodeParams(version, spec), "thinking");
      thinking.Ok? ==> IsText(thinking.value, spec.thinking)
    ensures
      var effort := OptionalStr(EncodeParams(version, spec), "effort");
      effort.Ok? ==> IsText(effort.value, spec.effort)
  {
    EncodedParamsEntries(version, spec);
    hide EncodeParams;
  }

  // Every other request is normalised to what it says, field by field, however it is spelled.
  lemma RequestDenotes(
    modelId: string, prompt: string, spec: Spec, params: Version, versions: seq<Version>, choice: Version)
    requires |versions| == |spec.tools| && !Unacceptable(spec)
    ensures
      var r := BuildRequest(modelId, prompt, EncodeParams(params, spec), EncodeConfig(versions, choice, spec));
      r.Ok? && IsRequest(r.value, modelId, prompt, spec, params)
  {
    RaisesIffUnacceptable(modelId, prompt, spec, params, versions, choice);
    EncodedConfigDenotes(versions, choice, spec);
    EncodedFormatRaises(versions, choice, spec);
    EncodedTextIs(params, spec);
    EncodedTokenLimit(params, spec);
    EncodedParamsEntries(params, spec);
    var config := EncodeConfig(versions, choice, spec);
    if NormalizeOutputFormat(config).Ok? { EncodedFormatIs(versions, choice, spec); }
    if DenoteEach(spec.tools).Ok? { DenotedEach(spec.tools); }
    hide EncodeParams, EncodeConfig, NormalizeTools, NormalizeOutputFormat, OptionalStr, TokenLimit, GetOr;
    hide DenoteEach, Unacceptable, IsTool, IsFormat, IsText;
  }

  // A row that has the keys of both versions is read by the new one's, a null limit aside.
  lemma NewKeysWin(params: map<string, Json>, config: map<string, Json>)
    ensures "max_output_tokens" in params && params["max_output_tokens"] != JNull ==>
      TokenLimit(JObj(params)) == Ok(params["max_output_tokens"])
    ensures ("max_output_tokens" !in params || params["max_output_tokens"] == JNull) && "maxTokens" in params ==>
      TokenLimit(JObj(params)) == Ok(params["maxTokens"])
    ensures "tool_choice" in config ==>
      NormalizeTools(JObj(config)) == NormalizeTools(JObj(config["toolChoice" := JNull]))
  {
    if "tool_choice" in config {
      assert "tool_choice" in config["toolChoice" := JNull];
    }
  }

  // A choice that names no tool forces none.
  lemma UnrecognisedChoice(choice: Json)
    requires !Truthy(choice) || choice.JStr?
      || (choice.JObj? && "tool" !in choice.fields && "name" !in choice.fields)
    ensures NormalizeToolChoice(choice) == Ok(JNull)
  {
  }

  // Columns that hold no object, and tools that are none, fail their row.
  lemma OnlyObjectsAreRead(modelId: string, prompt: string, params: Json, config: Json)
    ensures !params.JObj? ==> BuildRequest(modelId, prompt, params, config).Raise?
    ensures Truthy(config) && !config.JObj? ==> BuildRequest(modelId, prompt, params, config).Raise?
    ensures params.JObj? && !Truthy(config) ==>
      BuildRequest(modelId, prompt, params, config) == BuildRequest(modelId, prompt, params, JObj(map[]))
  {
  }

  lemma {:induction false} OneBadTool(tools: seq<Json>, i: nat)
    requires i < |tools| && !tools[i].JObj?
    ensures NormalizeEach(tools).Raise?
  {
    if i > 0 {
      OneBadTool(tools[1..], i - 1);
    }
  }

  // Any mix of v0 and v1 spellings of one request normalises to the same request or the
  // same error, except that an explicit null token limit means "no limit given" under the
  // v1 key and null under the v0 key.
  lemma SpellingsAgree(
    modelId: string, prompt: string, spec: Spec,
    params: Version, versions: seq<Version>, choice: Version,
    params': Version, versions': seq<Version>, choice': Version)
    requires |versions| == |versions'| == |spec.tools|
    ensures
      var r := BuildRequest(modelId, prompt, EncodeParams(params, spec), EncodeConfig(versions, choice, spec));
      var r' := BuildRequest(modelId, prompt, EncodeParams(params', spec), EncodeConfig(versions', choice', spec));
      r == r' <==> (params == params' || spec.tokens != Some(JNull) || Unacceptable(spec))
  {
    RaisesIffUnacceptable(modelId, prompt, spec, params, versions, choice);
    hide EncodeParams, EncodeConfig, DenoteTools, NormalizeTools, NormalizeOutputFormat;
    hide OptionalStr, TokenLimit, GetOr, Combine, Unacceptable;
    var a, a' := EncodeParams(params, spec), EncodeParams(params', spec);
    var c := EncodeConfig(versions, choice, spec);
    EncodedConfigDenotes(versions, choice, spec);
    EncodedConfigDenotes(versions', choice', spec);
    EncodedFormatAgrees(versions, choice, versions', choice', spec);
    EncodedParamsAgree(params, params', spec);
    EncodedTokenLimit(params, spec);
    EncodedTokenLimit(params', spec);
    TokenLimitShows(
      modelId, prompt, TokenLimit(a), TokenLimit(a'), GetOr(a, "temperature", DEFAULT_TEMPERATURE),
      NormalizeTools(c), NormalizeOutputFormat(c), OptionalStr(a, "thinking"), OptionalStr(a, "effort"));
  }

  // The exception, on the smallest request there is: a null limit is kept under the v0 key
  // and replaced by the default under the v1 key.
  lemma NullTokenLimitDiffers(modelId: string, prompt: string)
    ensures
      var spec := Spec([], NoChoice, None, Some(JNull), None, None, None);
      var config := EncodeConfig([], V1, spec);
      var v0, v1 := EncodeParams(V0, spec), EncodeParams(V1, spec);
      && BuildRequest(modelId, prompt, v0, config).Ok?
      && BuildRequest(modelId, prompt, v1, config).Ok?
      && BuildRequest(modelId, prompt, v0, config).value.maxOutputTokens == JNull
      && BuildRequest(modelId, prompt, v1, config).value.maxOutputTokens == JNum(512.0)
  {
    var spec := Spec([], NoChoice, None, Some(JNull), None, None, None);
    EncodedConfigDenotes([], V1, spec);
    EncodedConfigEntries([], V1, spec);
    EncodedParamsEntries(V0, spec);
    EncodedParamsEntries(V1, spec);
    hide EncodeParams, EncodeConfig;
  }
}
