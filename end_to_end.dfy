/** Properties that follow a request from the editor page through the
    server and back: what the chat panel shows for the chat route's
    replies, and what a metadata save does to a stored description. */
module EndToEnd {
  import opened Wrappers
  import opened WorkflowModel
  import opened ExecutionGraph
  import opened WorkflowExecution
  import opened ExecutionApi
  import EditorPage
  import WorkflowStore

  /** The chat reply's JSON as the page parses it. A successful reply
      carries `message`, `context_used`, `timestamp` and `execution_log`;
      an error reply carries only `detail`, so none of the fields the page
      reads is there. */
  function ChatBodyOf(r: Response<ChatReply>): (b: EditorPage.ChatBody)
    ensures r.HttpError? ==> b == EditorPage.ChatBody(EditorPage.Missing, None, None, None)
    ensures r.Ok? ==>
      && b.timestamp == Some(r.body.timestamp)
      && b.contextUsed == Some(r.body.contextUsed)
      && b.executionLog == Some(r.body.executionLog)
    ensures r.Ok? ==> (b.message.Missing? <==> r.body.message.None?)
  {
    match r
    case HttpError(_, _) => EditorPage.ChatBody(EditorPage.Missing, None, None, None)
    case Ok(reply) =>
      var m := match reply.message
        case None => EditorPage.Missing
        case Some(Plain(text)) => EditorPage.Str(text)
        case Some(WithMetadata(_, _, _, _)) => EditorPage.Obj;
      EditorPage.ChatBody(m, Some(reply.timestamp), Some(reply.contextUsed), Some(reply.executionLog))
  }

  /** The answer entry for a reply that arrived: never an error entry,
      stamped with the server's time only when the request succeeded, and
      showing "No response generated" exactly when the reply has no
      non-empty message. */
  lemma ArrivedAnswer(r: Response<ChatReply>, now: string)
    ensures var e := EditorPage.AnswerEntry(EditorPage.Parsed(ChatBodyOf(r)), now);
      && e.kind == EditorPage.Ai
      && (e.timestamp.None? <==> r.HttpError?)
      && (e.message == EditorPage.Str(EditorPage.NoResponseGenerated) <==>
            r.HttpError? || r.body.message.None?
            || (r.body.message.value.Plain? && r.body.message.value.text in {"", EditorPage.NoResponseGenerated}))
  {
  }

  /** A chat with an unknown workflow, or one without nodes, is rejected
      with status 400, and the page shows it as an ordinary answer reading
      "No response generated" instead of the server's message. */
  lemma RejectedChatLooksAnswered(db: map<int, WorkflowRecord>, id: int, query: string, svc: Services,
                                  stamp: string, now: string)
    requires id !in db || db[id].nodes == []
    ensures Chat(id, query, AsDict(WorkflowOutcome(db, id, query, svc)), stamp).HttpError?
    ensures EditorPage.AnswerEntry(EditorPage.Parsed(ChatBodyOf(Chat(id, query, AsDict(WorkflowOutcome(db, id, query, svc)), stamp))), now)
         == EditorPage.ChatEntry(EditorPage.Ai, EditorPage.Str(EditorPage.NoResponseGenerated), None, None, None)
  {
  }

  /** A workflow without an output node answers with a `null` message,
      which the page also shows as "No response generated". */
  lemma NoOutputNodeLooksEmpty(db: map<int, WorkflowRecord>, id: int, query: string, svc: Services,
                                stamp: string, now: string)
    requires id in db && db[id].nodes != []
    requires !HasType(NodeTable(db[id].nodes), OutputType)
    ensures EditorPage.AnswerEntry(EditorPage.Parsed(ChatBodyOf(Chat(id, query, AsDict(WorkflowOutcome(db, id, query, svc)), stamp))), now).message
         == EditorPage.Str(EditorPage.NoResponseGenerated)
  {
    ChatWithWorkflow(db, id, query, svc, stamp);
  }

  /** Saving the metadata with a blank description leaves the stored
      description as it was: the page leaves the field out and the server
      only overwrites fields that were sent. */
  lemma BlankDescriptionKeepsStored(w: WorkflowRecord, name: string, description: string, now: nat)
    requires Text.IsBlank(description)
    ensures var u := EditorPage.MetadataPayload(w.id, name, description);
      var r := WorkflowStore.Patched(w, Some(u.name), u.description, None, None, now);
      && r.description == w.description
      && r.name == Text.Trim(name)
      && r.nodes == w.nodes && r.edges == w.edges
  {
  }
}
