// The rows the worker reads and writes (src/llm_worker/clickhouse.py) and the parsing
// half of BatchExecutor.invoke (src/llm_worker/executor.py).
module Rows {
  import opened Json
  import Contract

  // A UUID is its 128-bit value; ClickHouse orders by it.
  type Uuid = nat

  datatype LLMInput = LLMInput(
    batchId: Uuid, rowId: Uuid, modelId: string, prompt: string, params: string, toolConfig: string)

  datatype Status = Complete | Failed

  // The error column, by the branch that fills it rather than by its text.
  datatype RowError =
    | NoError
    | BatchAborted
    | InvalidJson
    | Malformed(cause: PyError)
    | Backend(text: string)

  datatype LLMResult = LLMResult(batchId: Uuid, rowId: Uuid, response: string, status: Status, error: RowError)

  function FailedResult(row: LLMInput, error: RowError): LLMResult {
    LLMResult(row.batchId, row.rowId, "", Failed, error)
  }

  function AbortedResult(row: LLMInput): LLMResult {
    FailedResult(row, BatchAborted)
  }

  function CompleteResult(row: LLMInput, response: string): LLMResult {
    LLMResult(row.batchId, row.rowId, response, Complete, NoError)
  }

  // What a result row says, column by column.
  predicate OfRow(input: LLMInput, result: LLMResult) {
    result.batchId == input.batchId && result.rowId == input.rowId
  }

  predicate Replies(input: LLMInput, result: LLMResult, text: string) {
    OfRow(input, result) && result.status.Complete? && result.response == text && result.error.NoError?
  }

  predicate Fails(input: LLMInput, result: LLMResult, error: RowError) {
    OfRow(input, result) && result.status.Failed? && result.response == "" && result.error == error
  }

  datatype Decoded = Request(request: Contract.ContractRequest) | Rejected(error: RowError)

  // json.loads, with an empty column standing for an empty object.
  function LoadColumn(loads: string -> Option<Json>, column: string): Option<Json> {
    if column == "" then Some(JObj(map[])) else loads(column)
  }

  function Decode(loads: string -> Option<Json>, row: LLMInput): (d: Decoded)
    ensures d.Request? ==> Contract.WellFormed(d.request)
  {
    var params := LoadColumn(loads, row.params);
    if params.None? then Rejected(InvalidJson)
    else
      var toolConfig := LoadColumn(loads, row.toolConfig);
      if toolConfig.None? then Rejected(InvalidJson)
      else
        match Contract.BuildRequest(row.modelId, row.prompt, params.value, toolConfig.value)
        case Ok(request) => Request(request)
        case Raise(cause) => Rejected(Malformed(cause))
  }

  // What a column holds: no text stands for an empty object.
  predicate Holds(loads: string -> Option<Json>, column: string, value: Json) {
    if column == "" then value == JObj(map[]) else loads(column) == Some(value)
  }

  // A row asks for what its own four columns say.
  lemma DecodeReads(loads: string -> Option<Json>, row: LLMInput, params: Json, config: Json)
    requires Holds(loads, row.params, params) && Holds(loads, row.toolConfig, config)
    ensures
      match Contract.BuildRequest(row.modelId, row.prompt, params, config)
      case Ok(request) => Decode(loads, row) == Request(request)
      case Raise(cause) => Decode(loads, row) == Rejected(Malformed(cause))
  {
  }

  // A column that is no JSON text fails the row, whatever the other one holds.
  lemma BadColumnIsInvalid(loads: string -> Option<Json>, row: LLMInput)
    requires (row.params != "" && loads(row.params).None?) || (row.toolConfig != "" && loads(row.toolConfig).None?)
    ensures Decode(loads, row) == Rejected(InvalidJson)
  {
  }

  // From the row to the request: columns that spell an acceptable request are normalised to
  // it, field by field.
  lemma RowDenotes(
    loads: string -> Option<Json>, row: LLMInput, spec: Contract.Spec,
    params: Contract.Version, versions: seq<Contract.Version>, choice: Contract.Version)
    requires |versions| == |spec.tools| && !Contract.Unacceptable(spec)
    requires Holds(loads, row.params, Contract.EncodeParams(params, spec))
    requires Holds(loads, row.toolConfig, Contract.EncodeConfig(versions, choice, spec))
    ensures
      && Decode(loads, row).Request?
      && Contract.IsRequest(Decode(loads, row).request, row.modelId, row.prompt, spec, params)
  {
    hide Decode, Holds, Contract.BuildRequest, Contract.IsRequest, Contract.Unacceptable;
    DecodeReads(loads, row, Contract.EncodeParams(params, spec), Contract.EncodeConfig(versions, choice, spec));
    Contract.RequestDenotes(row.modelId, row.prompt, spec, params, versions, choice);
  }

  // ---- A stream of results that answers a page of rows ----

  function InputKeys(rows: seq<LLMInput>): (keys: seq<(Uuid, Uuid)>)
    ensures |keys| == |rows|
  {
    seq(|rows|, i requires 0 <= i < |rows| => (rows[i].batchId, rows[i].rowId))
  }

  function ResultKeys(results: seq<LLMResult>): (keys: seq<(Uuid, Uuid)>)
    ensures |keys| == |results|
  {
    seq(|results|, i requires 0 <= i < |results| => (results[i].batchId, results[i].rowId))
  }

  // At most one result per row of the page, and none for another row.
  ghost predicate AnswersPart(rows: seq<LLMInput>, results: seq<LLMResult>) {
    multiset(ResultKeys(results)) <= multiset(InputKeys(rows))
  }

  // One result per row of the page, in any order.
  ghost predicate AnswersPage(rows: seq<LLMInput>, results: seq<LLMResult>) {
    multiset(ResultKeys(results)) == multiset(InputKeys(rows))
  }
}
