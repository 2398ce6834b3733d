// From a backend's reply to the `llm_results.response` envelope: build_output
// (src/llm_worker/providers/base.py) and the two extractors that feed it
// (src/llm_worker/providers/bedrock.py and anthropic_messages.py).
module Envelope {
  import opened Json

  const NOT_AN_OBJECT := "reply is not a JSON object"
  const DID_NOT_FINISH := "reply did not finish"

  type Loads = string -> Option<Json>  // json.loads; None when it raises ValueError

  function Concat(texts: seq<string>): string {
    if texts == [] then "" else texts[0] + Concat(texts[1..])
  }

  lemma {:induction false} ConcatAppended(texts: seq<string>, text: string)
    ensures Concat(texts + [text]) == Concat(texts) + text
  {
    if texts == [] {
      assert [] + [text] == [text];
    } else {
      assert (texts + [text])[1..] == texts[1..] + [text];
      ConcatAppended(texts[1..], text);
    }
  }

  // ---- What an envelope says ----

  // A result's tool inputs (none, for a reply of plain text), or why a row that asked for
  // JSON has no result.
  datatype Verdict =
    | Done(inputs: seq<Json>)
    | Refused(category: Json)
    | NotAnObject(stop: Option<string>, category: Json)
    | Unfinished(stop: Option<string>, category: Json)

  predicate Finished(stop: Option<string>) {
    stop == Some("end_turn") || stop == Some("stop_sequence")
  }

  // The JSON object in the last text, if there is one.
  function Answer(texts: seq<string>, loads: Loads): Option<Json> {
    if texts == [] then None
    else
      var parsed := loads(texts[|texts| - 1]);
      if parsed.Some? && parsed.value.JObj? then parsed else None
  }

  function Judge(
    texts: seq<string>, inputs: seq<Json>, jsonOutput: bool, stop: Option<string>, category: Json,
    loads: Loads): Verdict
  {
    if !jsonOutput then Done(inputs)
    else if stop == Some("refusal") then Refused(category)
    else if Answer(texts, loads).None? then NotAnObject(stop, category)
    else if Finished(stop) then Done([Answer(texts, loads).value])
    else Unfinished(stop, category)
  }

  function StopText(stop: Option<string>): Json {
    JStr(if stop.Some? then stop.value else "")
  }

  function Reason(stop: Json, category: Json): map<string, Json> {
    map["stop_reason" := stop] + if Truthy(category) then map["refusal_category" := category] else map[]
  }

  function Written(text: string, verdict: Verdict): map<string, Json> {
    map["output_text" := JStr(text)]
    + match verdict
      case Done(inputs) => if inputs == [] then map[] else map["tool_uses" := JArr(inputs)]
      case Refused(category) => Reason(JStr("refusal"), category)
      case NotAnObject(stop, category) => map["result_error" := JStr(NOT_AN_OBJECT)] + Reason(StopText(stop), category)
      case Unfinished(stop, category) => map["result_error" := JStr(DID_NOT_FINISH)] + Reason(StopText(stop), category)
  }

  // How a consumer tells the cases apart.
  function ReadBack(output: map<string, Json>): (string, Verdict) {
    var o := JObj(output);
    var text := match At(o, "output_text") case Some(JStr(s)) => s case _ => "";
    var category := if "refusal_category" in output then output["refusal_category"] else JNull;
    var stop := match At(o, "stop_reason") case Some(JStr(s)) => Some(s) case _ => None;
    if "tool_uses" in output && output["tool_uses"].JArr? then (text, Done(output["tool_uses"].items))
    else if stop.None? then (text, Done([]))
    else if "result_error" !in output then (text, Refused(category))
    else if output["result_error"] == JStr(NOT_AN_OBJECT) then (text, NotAnObject(stop, category))
    else (text, Unfinished(stop, category))
  }

  // A missing stop reason is written as "", and a falsy category is not written.
  function Plain(verdict: Verdict): Verdict {
    match verdict
    case Done(inputs) => verdict
    case Refused(category) => Refused(PlainCategory(category))
    case NotAnObject(stop, category) => NotAnObject(Some(StopText(stop).s), PlainCategory(category))
    case Unfinished(stop, category) => Unfinished(Some(StopText(stop).s), PlainCategory(category))
  }

  function PlainCategory(category: Json): Json {
    if Truthy(category) then category else JNull
  }

  lemma KeysWritten(text: string, verdict: Verdict)
    ensures
      var output := Written(text, verdict);
      && ("tool_uses" in output <==> verdict.Done? && verdict.inputs != [])
      && ("tool_uses" in output ==> output["tool_uses"] == JArr(verdict.inputs))
      && ("stop_reason" in output <==> !verdict.Done?)
      && ("result_error" in output <==> verdict.NotAnObject? || verdict.Unfinished?)
  {
    hide Truthy, StopText, NOT_AN_OBJECT, DID_NOT_FINISH;
  }

  lemma ReasonsWritten(text: string, verdict: Verdict)
    ensures
      var output := Written(text, verdict);
      && At(JObj(output), "output_text") == Some(JStr(text))
      && At(JObj(output), "stop_reason")
         == (match verdict
             case Done(_) => None
             case Refused(_) => Some(JStr("refusal"))
             case _ => Some(StopText(verdict.stop)))
      && At(JObj(output), "refusal_category")
         == (if !verdict.Done? && Truthy(verdict.category) then Some(verdict.category) else None)
      && (verdict.NotAnObject? ==> output["result_error"] == JStr(NOT_AN_OBJECT))
      && (verdict.Unfinished? ==> output["result_error"] == JStr(DID_NOT_FINISH))
  {
    KeysWritten(text, verdict);
    hide Truthy, StopText, NOT_AN_OBJECT, DID_NOT_FINISH;
  }

  // Nothing else is lost: the envelope determines the text, the tool inputs, and which of
  // the four endings it was, with its stop reason and category.
  lemma WrittenReadsBack(text: string, verdict: Verdict)
    ensures ReadBack(Written(text, verdict)) == (text, Plain(verdict))
  {
    assert NOT_AN_OBJECT != DID_NOT_FINISH by {
      assert NOT_AN_OBJECT[6] == 'i' && DID_NOT_FINISH[6] == 'd';
    }
    hide Truthy, Written, NOT_AN_OBJECT, DID_NOT_FINISH;
    KeysWritten(text, verdict);
    ReasonsWritten(text, verdict);
  }

  // ---- build_output ----

  lemma WrittenDone(text: string, inputs: seq<Json>)
    ensures Written(text, Done(inputs))
         == if inputs == [] then map["output_text" := JStr(text)]
            else map["output_text" := JStr(text)]["tool_uses" := JArr(inputs)]
  {
  }

  // An envelope without a result is its head, and then the reason.
  lemma WrittenReason(text: string, stop: Option<string>, category: Json)
    ensures Written(text, Refused(category)) == map["output_text" := JStr(text)] + Reason(JStr("refusal"), category)
    ensures Written(text, NotAnObject(stop, category))
         == map["output_text" := JStr(text)]["result_error" := JStr(NOT_AN_OBJECT)] + Reason(StopText(stop), category)
    ensures Written(text, Unfinished(stop, category))
         == map["output_text" := JStr(text)]["result_error" := JStr(DID_NOT_FINISH)] + Reason(StopText(stop), category)
  {
    hide Reason, StopText, NOT_AN_OBJECT, DID_NOT_FINISH;
  }

  lemma ReasonAdded(head: map<string, Json>, stop: Json, category: Json)
    ensures head + Reason(stop, category)
         == if Truthy(category) then head["stop_reason" := stop]["refusal_category" := category]
            else head["stop_reason" := stop]
  {
    hide Truthy;
  }

  method BuildOutput(
    texts: seq<string>, inputs: seq<Json>, jsonOutput: bool, stop: Option<string>, category: Json, loads: Loads)
      returns (output: map<string, Json>)
    ensures output == Written(Concat(texts), Judge(texts, inputs, jsonOutput, stop, category, loads))
  {
    WrittenReason(Concat(texts), stop, category);
    hide Written, Reason, Truthy, Concat;
    output := map["output_text" := JStr(Concat(texts))];
    if !jsonOutput {
      WrittenDone(Concat(texts), inputs);
      if inputs != [] {
        output := output["tool_uses" := JArr(inputs)];
      }
      return;
    }
    if stop != Some("refusal") {
      var parsed := if texts != [] then loads(texts[|texts| - 1]) else None;
      if parsed.None? || !parsed.value.JObj? {
        output := output["result_error" := JStr(NOT_AN_OBJECT)];
      } else if stop.Some? && stop.value in {"end_turn", "stop_sequence"} {
        WrittenDone(Concat(texts), [parsed.value]);
        output := output["tool_uses" := JArr([parsed.value])];
        return;
      } else {
        output := output["result_error" := JStr(DID_NOT_FINISH)];
      }
    }
    ReasonAdded(output, StopText(stop), category);
    output := output["stop_reason" := JStr(if stop.Some? then stop.value else "")];
    if Truthy(category) {
      output := output["refusal_category" := category];
    }
  }

  // Without JSON outputs the envelope is the joined texts, and the tool inputs in their order
  // unless there are none.
  lemma PlainEnvelope(texts: seq<string>, inputs: seq<Json>, stop: Option<string>, category: Json, loads: Loads)
    ensures
      var output := Written(Concat(texts), Judge(texts, inputs, false, stop, category, loads));
      && At(JObj(output), "output_text") == Some(JStr(Concat(texts)))
      && At(JObj(output), "tool_uses") == (if inputs == [] then None else Some(JArr(inputs)))
      && output.Keys == {"output_text"} + if inputs == [] then {} else {"tool_uses"}
  {
    hide Concat;
  }

  // With them, `tool_uses` is there exactly when the reply finished on its own and its last
  // text is a JSON object, and then holds that object alone; otherwise the envelope says why.
  lemma ResultIffFinishedObject(
    texts: seq<string>, inputs: seq<Json>, stop: Option<string>, category: Json, loads: Loads)
    ensures
      var output := JObj(Written(Concat(texts), Judge(texts, inputs, true, stop, category, loads)));
      var last := if texts == [] then None else loads(texts[|texts| - 1]);
      var isObject := last.Some? && last.value.JObj?;
      var isResult := isObject && (stop == Some("end_turn") || stop == Some("stop_sequence"));
      && At(output, "output_text") == Some(JStr(Concat(texts)))
      && At(output, "tool_uses") == (if isResult then Some(JArr([last.value])) else None)
      && At(output, "stop_reason")
         == (if isResult then None else Some(JStr(if stop.Some? then stop.value else "")))
      && At(output, "refusal_category") == (if !isResult && Truthy(category) then Some(category) else None)
      && At(output, "result_error")
         == (if isResult || stop == Some("refusal") then None
             else Some(JStr(if isObject then "reply did not finish" else "reply is not a JSON object")))
  {
    hide Concat, Written, Truthy;
    var verdict := Judge(texts, inputs, true, stop, category, loads);
    StopWords();
    KeysWritten(Concat(texts), verdict);
    ReasonsWritten(Concat(texts), verdict);
  }

  lemma StopWords()
    ensures "refusal" != "end_turn" && "refusal" != "stop_sequence"
  {
    assert "refusal"[0] == 'r' && "end_turn"[0] == 'e' && "stop_sequence"[0] == 's';
  }

  // There are no other keys.
  lemma OnlyTheseKeys(text: string, verdict: Verdict)
    ensures Written(text, verdict).Keys
         <= {"output_text", "tool_uses", "result_error", "stop_reason", "refusal_category"}
  {
  }

  // ---- Bedrock ----

  // A content block of a Converse reply: either key may be absent, and a toolUse may lack
  // an input.
  datatype ToolUse = ToolUse(input: Option<Json>)
  datatype ConverseBlock = ConverseBlock(text: Option<string>, toolUse: Option<ToolUse>)

  datatype ConverseReply = ConverseReply(
    content: seq<ConverseBlock>, stopReason: Option<string>, additional: map<string, Json>)

  predicate HasText(block: ConverseBlock) {
    block.text.Some? && block.text.value != ""
  }

  function ConverseTexts(content: seq<ConverseBlock>): seq<string> {
    if content == [] then []
    else
      var block := content[|content| - 1];
      ConverseTexts(content[..|content| - 1]) + if HasText(block) then [block.text.value] else []
  }

  function ConverseInputs(content: seq<ConverseBlock>): seq<Json> {
    if content == [] then []
    else
      var block := content[|content| - 1];
      var called := !HasText(block) && block.toolUse.Some? && block.toolUse.value.input.Some?;
      ConverseInputs(content[..|content| - 1]) + if called then [block.toolUse.value.input.value] else []
  }

  // What each block adds, wherever it stands.
  lemma {:induction false} ConverseContentJoins(a: seq<ConverseBlock>, b: seq<ConverseBlock>)
    ensures ConverseTexts(a + b) == ConverseTexts(a) + ConverseTexts(b)
    ensures ConverseInputs(a + b) == ConverseInputs(a) + ConverseInputs(b)
  {
    if b == [] {
      assert a + b == a;
    } else {
      ConverseContentJoins(a, b[..|b| - 1]);
      assert (a + b)[..|a + b| - 1] == a + b[..|b| - 1];
    }
  }

  lemma ConverseBlockAdds(block: ConverseBlock)
    ensures ConverseTexts([block])
         == if block.text.Some? && block.text.value != "" then [block.text.value] else []
    ensures ConverseInputs([block])
         == if !(block.text.Some? && block.text.value != "")
               && block.toolUse.Some? && block.toolUse.value.input.Some?
            then [block.toolUse.value.input.value] else []
  {
    assert ConverseTexts([]) == [] && ConverseInputs([]) == [];
  }

  predicate ConverseRefusal(reply: ConverseReply) {
    "stop_details" in reply.additional && At(reply.additional["stop_details"], "type") == Some(JStr("refusal"))
  }

  function ConverseStop(reply: ConverseReply): Option<string> {
    if ConverseRefusal(reply) then Some("refusal") else reply.stopReason
  }

  function ConverseCategory(reply: ConverseReply): Json {
    if ConverseRefusal(reply) then
      match At(reply.additional["stop_details"], "category") case Some(category) => category case None => JNull
    else JNull
  }

  function ConverseEnvelope(reply: ConverseReply, jsonOutput: bool, loads: Loads): map<string, Json> {
    var texts, inputs := ConverseTexts(reply.content), ConverseInputs(reply.content);
    Written(Concat(texts), Judge(texts, inputs, jsonOutput, ConverseStop(reply), ConverseCategory(reply), loads))
  }

  method ExtractOutput(reply: ConverseReply, jsonOutput: bool, loads: Loads) returns (output: map<string, Json>)
    ensures output == ConverseEnvelope(reply, jsonOutput, loads)
  {
    var texts: seq<string>, inputs: seq<Json> := [], [];
    for i := 0 to |reply.content|
      invariant texts == ConverseTexts(reply.content[..i]) && inputs == ConverseInputs(reply.content[..i])
    {
      var block := reply.content[i];
      if block.text.Some? && block.text.value != "" {
        texts := texts + [block.text.value];
      } else if block.toolUse.Some? {
        var toolUse := block.toolUse.value;
        if toolUse.input.Some? {
          inputs := inputs + [toolUse.input.value];
        }
      }
      assert reply.content[..i + 1][..i] == reply.content[..i];
    }
    assert reply.content[..|reply.content|] == reply.content;
    var stop := reply.stopReason;
    var category := JNull;
    if "stop_details" in reply.additional && At(reply.additional["stop_details"], "type") == Some(JStr("refusal")) {
      stop := Some("refusal");
      var details := reply.additional["stop_details"];
      if "category" in details.fields {
        category := details.fields["category"];
      }
    }
    output := BuildOutput(texts, inputs, jsonOutput, stop, category, loads);
  }

  // ---- Anthropic Messages ----

  datatype MessageBlock = TextBlock(text: string) | ToolUseBlock(input: Json) | OtherBlock

  // The category of stop_details, when there are any.
  datatype Message = Message(content: seq<MessageBlock>, stopReason: Option<string>, detailsCategory: Option<Json>)

  function MessageTexts(content: seq<MessageBlock>): seq<string> {
    if content == [] then []
    else
      var block := content[|content| - 1];
      MessageTexts(content[..|content| - 1]) + if block.TextBlock? then [block.text] else []
  }

  function MessageInputs(content: seq<MessageBlock>): seq<Json> {
    if content == [] then []
    else
      var block := content[|content| - 1];
      MessageInputs(content[..|content| - 1]) + if block.ToolUseBlock? then [block.input] else []
  }

  lemma {:induction false} MessageContentJoins(a: seq<MessageBlock>, b: seq<MessageBlock>)
    ensures MessageTexts(a + b) == MessageTexts(a) + MessageTexts(b)
    ensures MessageInputs(a + b) == MessageInputs(a) + MessageInputs(b)
  {
    if b == [] {
      assert a + b == a;
    } else {
      MessageContentJoins(a, b[..|b| - 1]);
      assert (a + b)[..|a + b| - 1] == a + b[..|b| - 1];
    }
  }

  lemma MessageBlockAdds(block: MessageBlock)
    ensures MessageTexts([block]) == if block.TextBlock? then [block.text] else []
    ensures MessageInputs([block]) == if block.ToolUseBlock? then [block.input] else []
  {
    assert MessageTexts([]) == [] && MessageInputs([]) == [];
  }

  function MessageEnvelope(message: Message, jsonOutput: bool, loads: Loads): map<string, Json> {
    var texts, inputs := MessageTexts(message.content), MessageInputs(message.content);
    var category := if message.detailsCategory.Some? then message.detailsCategory.value else JNull;
    Written(Concat(texts), Judge(texts, inputs, jsonOutput, message.stopReason, category, loads))
  }

  method ToLlmResponse(message: Message, jsonOutput: bool, loads: Loads) returns (output: map<string, Json>)
    ensures output == MessageEnvelope(message, jsonOutput, loads)
  {
    var texts: seq<string>, inputs: seq<Json> := [], [];
    for i := 0 to |message.content|
      invariant texts == MessageTexts(message.content[..i]) && inputs == MessageInputs(message.content[..i])
    {
      match message.content[i] {
        case TextBlock(text) => texts := texts + [text];
        case ToolUseBlock(input) => inputs := inputs + [input];
        case OtherBlock =>
      }
      assert message.content[..i + 1][..i] == message.content[..i];
    }
    assert message.content[..|message.content|] == message.content;
    var category := if message.detailsCategory.Some? then message.detailsCategory.value else JNull;
    output := BuildOutput(texts, inputs, jsonOutput, message.stopReason, category, loads);
  }

  // ---- One reply, seen through both backends ----

  datatype Block = Text(text: string) | Tool(input: Json) | Thinking

  datatype Details = Details(kind: string, category: Json)

  datatype Reply = Reply(blocks: seq<Block>, stop: Option<string>, details: Option<Details>) {
    predicate IsRefusal() {
      details.Some? && details.value.kind == "refusal"
    }
  }

  function BlockToConverse(block: Block): ConverseBlock {
    match block
    case Text(text) => ConverseBlock(Some(text), None)
    case Tool(input) => ConverseBlock(None, Some(ToolUse(Some(input))))
    case Thinking => ConverseBlock(None, None)
  }

  function BlocksToConverse(blocks: seq<Block>): (content: seq<ConverseBlock>)
    ensures |content| == |blocks|
  {
    seq(|blocks|, i requires 0 <= i < |blocks| => BlockToConverse(blocks[i]))
  }

  // Bedrock reports every refusal as content_filtered; only the details beside it tell it from
  // a guardrail's stop.
  function ToConverse(reply: Reply): ConverseReply {
    ConverseReply(
      BlocksToConverse(reply.blocks),
      if reply.stop == Some("refusal") then Some("content_filtered") else reply.stop,
      if reply.details.None? then map[]
      else
        var details := reply.details.value;
        map["stop_details" := JObj(map["type" := JStr(details.kind), "category" := details.category])])
  }

  function BlockToMessage(block: Block): MessageBlock {
    match block
    case Text(text) => TextBlock(text)
    case Tool(input) => ToolUseBlock(input)
    case Thinking => OtherBlock
  }

  function BlocksToMessage(blocks: seq<Block>): (content: seq<MessageBlock>)
    ensures |content| == |blocks|
  {
    seq(|blocks|, i requires 0 <= i < |blocks| => BlockToMessage(blocks[i]))
  }

  function ToMessage(reply: Reply): Message {
    Message(BlocksToMessage(reply.blocks), reply.stop,
            if reply.details.Some? then Some(reply.details.value.category) else None)
  }

  function NonEmpty(texts: seq<string>): seq<string> {
    if texts == [] then []
    else NonEmpty(texts[..|texts| - 1]) + if texts[|texts| - 1] == "" then [] else [texts[|texts| - 1]]
  }

  // The texts Bedrock keeps are the non-empty ones of those the Messages API keeps; the tool
  // inputs are the same.
  lemma {:induction false} SameContent(blocks: seq<Block>)
    ensures ConverseTexts(BlocksToConverse(blocks)) == NonEmpty(MessageTexts(BlocksToMessage(blocks)))
    ensures ConverseInputs(BlocksToConverse(blocks)) == MessageInputs(BlocksToMessage(blocks))
  {
    if blocks != [] {
      var init, last := blocks[..|blocks| - 1], blocks[|blocks| - 1];
      SameContent(init);
      assert BlocksToConverse(blocks)[..|blocks| - 1] == BlocksToConverse(init);
      assert BlocksToMessage(blocks)[..|blocks| - 1] == BlocksToMessage(init);
      var texts := MessageTexts(BlocksToMessage(init));
      if last.Text? {
        assert (texts + [last.text])[..|texts|] == texts;
        assert MessageTexts(BlocksToMessage(blocks)) == texts + [last.text];
      } else {
        assert MessageTexts(BlocksToMessage(blocks)) == texts;
      }
    }
  }

  lemma {:induction false} EmptyTextsAddNothing(texts: seq<string>)
    ensures Concat(NonEmpty(texts)) == Concat(texts)
    ensures NonEmpty(texts) == texts || |NonEmpty(texts)| < |texts|
    ensures texts != [] && texts[|texts| - 1] != "" ==>
      NonEmpty(texts) != [] && NonEmpty(texts)[|NonEmpty(texts)| - 1] == texts[|texts| - 1]
  {
    if texts != [] {
      var init, last := texts[..|texts| - 1], texts[|texts| - 1];
      EmptyTextsAddNothing(init);
      assert texts == init + [last];
      ConcatAppended(init, last);
      if last != "" {
        ConcatAppended(NonEmpty(init), last);
      } else {
        assert Concat(init) + last == Concat(init) && NonEmpty(init) + [] == NonEmpty(init);
      }
    }
  }

  // The last text is empty, and dropping it uncovers a JSON object.
  predicate Uncovers(texts: seq<string>, loads: Loads) {
    texts != [] && texts[|texts| - 1] == "" && Answer(NonEmpty(texts), loads).Some?
  }

  lemma SameAnswer(texts: seq<string>, loads: Loads)
    requires loads("") == None
    ensures Uncovers(texts, loads) ==> Answer(texts, loads).None? && Answer(NonEmpty(texts), loads).Some?
    ensures !Uncovers(texts, loads) ==> Answer(texts, loads) == Answer(NonEmpty(texts), loads)
  {
    EmptyTextsAddNothing(texts);
  }

  // Details that are not a refusal's: Bedrock drops their category, the Messages API keeps it.
  predicate StrayCategory(reply: Reply) {
    reply.details.Some? && !reply.IsRefusal() && Truthy(reply.details.value.category)
  }

  function TextsOf(blocks: seq<Block>): seq<string> {
    MessageTexts(BlocksToMessage(blocks))
  }

  // Whether the two backends write the same envelope for a reply to a request for JSON: a
  // refusal has to come with its details, and they with it; of any other reply no empty text
  // may hide the JSON object, and no category may come beside a failure.
  predicate SameReading(reply: Reply, loads: Loads) {
    var texts := TextsOf(reply.blocks);
    if reply.stop == Some("refusal") || reply.IsRefusal() then reply.stop == Some("refusal") && reply.IsRefusal()
    else
      && !Uncovers(texts, loads)
      && (StrayCategory(reply) ==> Finished(reply.stop) && Answer(texts, loads).Some?)
  }

  // The stop reason Bedrock's reply ends up with.
  function StopSeen(reply: Reply): Option<string> {
    if reply.IsRefusal() then Some("refusal")
    else if reply.stop == Some("refusal") then Some("content_filtered")
    else reply.stop
  }

  lemma ReadingsOfEndings(reply: Reply)
    ensures ConverseStop(ToConverse(reply)) == StopSeen(reply)
    ensures ConverseCategory(ToConverse(reply)) == if reply.IsRefusal() then reply.details.value.category else JNull
  {
  }

  lemma VerdictsDiffer(text: string, verdict: Verdict, verdict': Verdict)
    ensures Written(text, verdict) == Written(text, verdict') <==> Plain(verdict) == Plain(verdict')
  {
    WrittenReadsBack(text, verdict);
    WrittenReadsBack(text, verdict');
    WrittenIsPlain(text, verdict);
    WrittenIsPlain(text, verdict');
    hide *;
  }

  lemma WrittenIsPlain(text: string, verdict: Verdict)
    ensures Written(text, verdict) == Written(text, Plain(verdict))
  {
  }

  // Both envelopes in terms of one list of texts.
  lemma EnvelopesOf(reply: Reply, jsonOutput: bool, loads: Loads)
    ensures
      var texts, inputs := TextsOf(reply.blocks), MessageInputs(BlocksToMessage(reply.blocks));
      var category := if reply.details.Some? then reply.details.value.category else JNull;
      var kept := if reply.IsRefusal() then category else JNull;
      && ConverseEnvelope(ToConverse(reply), jsonOutput, loads)
         == Written(Concat(texts), Judge(NonEmpty(texts), inputs, jsonOutput, StopSeen(reply), kept, loads))
      && MessageEnvelope(ToMessage(reply), jsonOutput, loads)
         == Written(Concat(texts), Judge(texts, inputs, jsonOutput, reply.stop, category, loads))
  {
    hide Written, Judge, ConverseStop, ConverseCategory, NonEmpty, MessageTexts, MessageInputs, ConverseTexts, Concat;
    hide ConverseInputs;
    SameContent(reply.blocks);
    EmptyTextsAddNothing(TextsOf(reply.blocks));
    ReadingsOfEndings(reply);
  }

  // Without JSON outputs both backends write the same envelope for every reply; with them,
  // exactly for the replies that read the same through both.
  lemma EnvelopeParity(reply: Reply, jsonOutput: bool, loads: Loads)
    requires loads("") == None
    ensures ConverseEnvelope(ToConverse(reply), jsonOutput, loads)
         == MessageEnvelope(ToMessage(reply), jsonOutput, loads)
       <==> !jsonOutput || SameReading(reply, loads)
  {
    hide Written, NonEmpty, TextsOf, ConverseEnvelope, MessageEnvelope, Answer, Concat, Uncovers;
    var texts, inputs := TextsOf(reply.blocks), MessageInputs(BlocksToMessage(reply.blocks));
    var category := if reply.details.Some? then reply.details.value.category else JNull;
    var kept := if reply.IsRefusal() then category else JNull;
    EnvelopesOf(reply, jsonOutput, loads);
    SameAnswer(texts, loads);
    VerdictsDiffer(
      Concat(texts), Judge(NonEmpty(texts), inputs, jsonOutput, StopSeen(reply), kept, loads),
      Judge(texts, inputs, jsonOutput, reply.stop, category, loads));
  }

  // The first exception, on two text blocks: Bedrock stores the object, the Messages API
  // reports that there is none.
  lemma EmptyTextHidesAnswer(loads: Loads)
    requires loads("{}") == Some(JObj(map[])) && loads("") == None
    ensures
      var reply := Reply([Text("{}"), Text("")], Some("end_turn"), None);
      && ConverseEnvelope(ToConverse(reply), true, loads) == Written("{}", Done([JObj(map[])]))
      && MessageEnvelope(ToMessage(reply), true, loads) == Written("{}", NotAnObject(Some("end_turn"), JNull))
  {
    hide Written, NonEmpty, TextsOf, ConverseEnvelope, MessageEnvelope, Concat;
    EnvelopesOf(Reply([Text("{}"), Text("")], Some("end_turn"), None), true, loads);
    TextsOfTwo();
    assert Answer(["{}"], loads) == Some(JObj(map[])) && Answer(["{}", ""], loads) == None;
  }

  // The second, on a reply without blocks: a refusal nothing explains is one to the Messages
  // API, and on Bedrock a failed reply like any other.
  lemma UnexplainedRefusalDiffers(loads: Loads)
    ensures
      var reply := Reply([], Some("refusal"), None);
      && ConverseEnvelope(ToConverse(reply), true, loads) == Written("", NotAnObject(Some("content_filtered"), JNull))
      && MessageEnvelope(ToMessage(reply), true, loads) == Written("", Refused(JNull))
  {
    EnvelopesOf(Reply([], Some("refusal"), None), true, loads);
    assert TextsOf([]) == [];
    hide Written, ConverseEnvelope, MessageEnvelope;
  }

  // The third: details of another kind bring a category that only the Messages API records.
  lemma StrayCategoryDiffers(category: Json, loads: Loads)
    requires Truthy(category)
    ensures
      var reply := Reply([], Some("max_tokens"), Some(Details("other", category)));
      && At(JObj(ConverseEnvelope(ToConverse(reply), true, loads)), "refusal_category") == None
      && At(JObj(MessageEnvelope(ToMessage(reply), true, loads)), "refusal_category") == Some(category)
  {
    var reply := Reply([], Some("max_tokens"), Some(Details("other", category)));
    EnvelopesOf(reply, true, loads);
    assert TextsOf([]) == [];
    ReasonsWritten("", NotAnObject(reply.stop, JNull));
    ReasonsWritten("", NotAnObject(reply.stop, category));
    hide Written, ConverseEnvelope, MessageEnvelope;
  }

  lemma TextAppended(blocks: seq<Block>, texts: seq<string>, text: string)
    ensures TextsOf(blocks + [Text(text)]) == TextsOf(blocks) + [text]
    ensures NonEmpty(texts + [text]) == NonEmpty(texts) + if text == "" then [] else [text]
  {
    assert BlocksToMessage(blocks + [Text(text)])[..|blocks|] == BlocksToMessage(blocks);
    assert (texts + [text])[..|texts|] == texts;
  }

  lemma TextsOfTwo()
    ensures TextsOf([Text("{}"), Text("")]) == ["{}", ""]
    ensures NonEmpty(["{}", ""]) == ["{}"]
    ensures Concat(["{}", ""]) == "{}"
  {
    assert TextsOf([]) == [] && NonEmpty([]) == [] && Concat([]) == "";
    hide TextsOf, NonEmpty, Concat;
    TextAppended([], [], "{}");
    ConcatAppended([], "{}");
    assert [] + [Text("{}")] == [Text("{}")] && [] + ["{}"] == ["{}"];
    TextAppended([Text("{}")], ["{}"], "");
    ConcatAppended(["{}"], "");
    assert [Text("{}")] + [Text("")] == [Text("{}"), Text("")] && ["{}"] + [""] == ["{}", ""];
  }
}
