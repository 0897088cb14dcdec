/** The workflow-execution endpoints: how the dictionary `execute_workflow`
    returns becomes an HTTP response for the execute, validate and chat
    routes. */
module ExecutionApi {
  import opened Wrappers
  import opened WorkflowModel
  import opened ExecutionGraph
  import opened WorkflowExecution

  /** The keys of a result dictionary that the endpoints read. The outer
      `None` of a field is a missing key; `workflow_pattern` and
      `final_response` may be present and hold `None`. */
  datatype ResultDict = ResultDict(
    success: Option<bool>,
    error: Option<string>,
    workflowPattern: Option<Option<string>>,
    nodesExecuted: Option<nat>,
    finalResponse: Option<Option<FinalOutput>>,
    contextUsed: Option<bool>,
    executionLog: Option<seq<string>>)

  /** The dictionary the executor model's result stands for: a success has
      every key but `error`, a failure only `success` and `error`. */
  function AsDict(r: ExecutionResult): (d: ResultDict)
    ensures d.success == Some(r.Succeeded?)
    ensures d.error.Some? <==> r.Failed?
  {
    match r
    case Succeeded(_, _, _, response, contextUsed, _, pattern, count, log) =>
      ResultDict(Some(true), None, Some(if pattern.Some? then Some(PatternName(pattern.value)) else None),
        Some(count), Some(response), Some(contextUsed), Some(log))
    case Failed(_, error) =>
      ResultDict(Some(false), Some(error), None, None, None, None, None)
  }

  /** An HTTP response: a body, or an `HTTPException` with its status and
      detail. */
  datatype Response<T> = Ok(body: T) | HttpError(status: nat, detail: string)

  const ExecutionFailed := "Workflow execution failed"
  const ChatFailed := "Chat execution failed"
  const UnknownError := "Unknown error"
  const UnknownPattern := "Unknown"
  const ValidMessage := "Workflow is valid and ready to execute"
  const InvalidMessage := "Workflow has validation errors"
  const ValidationFailedPrefix := "Validation failed: "
  const NoResponseGenerated := "No response generated"

  /** `result.get("success", False)`. */
  predicate IsSuccess(d: ResultDict) {
    d.success.GetOr(false)
  }

  /** `execute_workflow_endpoint`: a result without a true `success` is a
      400 carrying its `error` (or a fixed text when it has none); any
      other result is the body, unchanged. */
  function ExecuteEndpoint(d: ResultDict): (r: Response<ResultDict>)
    ensures r.Ok? <==> d.success == Some(true)
    ensures r.Ok? ==> r.body == d
    ensures r.HttpError? ==> r.status == 400
    ensures r.HttpError? && d.error.Some? ==> r.detail == d.error.value
    ensures r.HttpError? && d.error.None? ==> r.detail == ExecutionFailed
  {
    if !IsSuccess(d) then HttpError(400, d.error.GetOr(ExecutionFailed)) else Ok(d)
  }

  /** The body of `validate_workflow`. `pattern` and `nodesCount` are
      `None` when the key is not in the body (the exception branch). */
  datatype Validation = Validation(
    valid: bool,
    workflowId: int,
    pattern: Option<Option<string>>,
    nodesCount: Option<nat>,
    errors: seq<string>,
    message: string)

  /** `validate_workflow`: `call` is the call of `execute_workflow`, which
      returns a dictionary or raises. */
  function Validate(workflowId: int, call: Call<ResultDict>): (v: Validation)
    ensures v.workflowId == workflowId
    ensures v.valid <==> v.errors == []
    ensures v.valid <==> v.message == ValidMessage
    ensures |v.errors| <= 1
    ensures v.valid ==> call.Returned? && call.value.success == Some(true)
    ensures call.Returned? ==> (v.valid <==> IsSuccess(call.value))
    ensures call.Returned? && !v.valid ==>
      v.errors == [call.value.error.GetOr(UnknownError)] && v.message == InvalidMessage
    ensures call.Raised? ==>
      && v.pattern.None? && v.nodesCount.None?
      && v.errors == [call.message] && v.message == ValidationFailedPrefix + call.message
    ensures call.Returned? ==>
      && v.pattern == Some(call.value.workflowPattern.GetOr(Some(UnknownPattern)))
      && v.nodesCount == Some(call.value.nodesExecuted.GetOr(0))
  {
    match call
    case Raised(message) =>
      assert (ValidationFailedPrefix + message)[0] != ValidMessage[0];
      Validation(false, workflowId, None, None, [message], ValidationFailedPrefix + message)
    case Returned(d) =>
      var ok := IsSuccess(d);
      Validation(ok, workflowId, Some(d.workflowPattern.GetOr(Some(UnknownPattern))),
        Some(d.nodesExecuted.GetOr(0)),
        if ok then [] else [d.error.GetOr(UnknownError)],
        if ok then ValidMessage else InvalidMessage)
  }

  /** The body of `chat_with_workflow`; `message` is `None` for a JSON
      `null`. */
  datatype ChatReply = ChatReply(
    message: Option<FinalOutput>,
    workflowId: int,
    query: string,
    contextUsed: bool,
    timestamp: string,
    executionLog: seq<string>)

  /** `chat_with_workflow`. Every dictionary `execute_workflow` returns
      carries the clock reading it was built at; that reading is the
      parameter `stamp`. */
  function Chat(workflowId: int, query: string, d: ResultDict, stamp: string): (r: Response<ChatReply>)
    ensures r.Ok? <==> d.success == Some(true)
    ensures r.Ok? ==> r.body.timestamp == stamp
    ensures r.HttpError? ==> r.status == 400 && r.detail == d.error.GetOr(ChatFailed)
    ensures r.Ok? ==> r.body.workflowId == workflowId && r.body.query == query
    ensures r.Ok? ==> r.body.contextUsed == d.contextUsed.GetOr(false)
    ensures r.Ok? ==> r.body.executionLog == d.executionLog.GetOr([])
    ensures r.Ok? && d.finalResponse.Some? ==> r.body.message == d.finalResponse.value
    ensures r.Ok? && d.finalResponse.None? ==> r.body.message == Some(Plain(NoResponseGenerated))
  {
    if !IsSuccess(d) then HttpError(400, d.error.GetOr(ChatFailed))
    else
      Ok(ChatReply(d.finalResponse.GetOr(Some(Plain(NoResponseGenerated))), workflowId, query,
        d.contextUsed.GetOr(false), stamp, d.executionLog.GetOr([])))
  }

  // ---------------------------------------------------------------------
  // The endpoints over the executor's results

  /** The execute route fails exactly for an unknown id or a workflow
      without nodes, with the executor's own message; the fixed fallback
      text is never used. */
  lemma ExecuteEndpointOfWorkflow(db: map<int, WorkflowRecord>, id: int, input: string, svc: Services)
    ensures var r := ExecuteEndpoint(AsDict(WorkflowOutcome(db, id, input, svc)));
      && (r.HttpError? <==> id !in db || db[id].nodes == [])
      && (r.HttpError? && id !in db ==> r.detail == NotFoundMessage(id))
      && (r.HttpError? && id in db ==> r.detail == NoNodesMessage)
  {
  }

  /** Validating a stored workflow: it is valid exactly when it exists and
      has nodes. A valid one reports its pattern name (`None` for the
      undecided case) and its count of successful nodes; an invalid one
      reports the "Unknown" pattern, a zero count and the executor's
      message as its only error. */
  lemma ValidateWorkflow(db: map<int, WorkflowRecord>, id: int, input: string, svc: Services)
    ensures var r := WorkflowOutcome(db, id, input, svc);
      var v := Validate(id, Returned(AsDict(r)));
      && (v.valid <==> id in db && db[id].nodes != [])
      && (v.valid ==>
            && v.pattern == Some(if r.pattern.Some? then Some(PatternName(r.pattern.value)) else None)
            && v.nodesCount == Some(r.nodesExecuted))
      && (!v.valid ==>
            && v.pattern == Some(Some(UnknownPattern)) && v.nodesCount == Some(0)
            && v.errors == [r.error] && v.message == InvalidMessage)
  {
  }

  /** Chatting with a stored workflow: the reply's message is the
      executor's `final_response`, so it is `null` exactly when the node
      table has no output node, and the "No response generated" default is
      not what produces it. */
  lemma ChatWithWorkflow(db: map<int, WorkflowRecord>, id: int, query: string, svc: Services, stamp: string)
    requires id in db && db[id].nodes != []
    ensures var r := Chat(id, query, AsDict(WorkflowOutcome(db, id, query, svc)), stamp);
      && r.Ok?
      && r.body.message == Outcome(db[id], query, svc).finalResponse
      && (r.body.message.None? <==> !HasType(NodeTable(db[id].nodes), OutputType))
      && r.body.executionLog == WorkflowRun(db[id], query, svc).log
  {
    FinalResponseNoneIffNoOutputNode(db[id], query, svc);
  }
}
