/** The workflow editor page (`pages/WorkflowEditor.tsx`): the route's
    workflow id, saving the name and description, the validation alert,
    the chat panel's history, and leaving the page. Each asynchronous
    handler is modelled as one method that receives the outcome of its
    request as a parameter. */
module EditorPage {
  import opened Wrappers
  import opened Text

  /** `id ? parseInt(id, 10) : 0` on the route parameter; `None` in the
      result stands for `NaN`. */
  function RouteWorkflowId(param: Option<string>): (r: Option<int>)
    ensures param.None? || param.value == "" ==> r == Some(0)
  {
    if param.None? || param.value == "" then Some(0) else ParseInt(param.value)
  }

  /** A route built from a workflow id leads back to that id. */
  lemma RouteWorkflowIdOfId(id: int)
    ensures RouteWorkflowId(Some(IntToString(id))) == Some(id)
  {
    ParseIntOfIntToString(id);
  }

  /** The data of an `updateWorkflow` call: the name, and a description
      that `None` leaves out of the request. */
  datatype MetadataUpdate = MetadataUpdate(id: int, name: string, description: Option<string>)

  /** The request `handleSaveMetadata` sends: the trimmed name, and the
      trimmed description unless that is empty. */
  function MetadataPayload(id: int, name: string, description: string): (u: MetadataUpdate)
    ensures u.id == id && u.name == Trim(name)
    ensures u.description.None? <==> IsBlank(description)
    ensures u.description.Some? ==> u.description.value == Trim(description) && u.description.value != ""
  {
    var d := Trim(description);
    MetadataUpdate(id, Trim(name), if d == "" then None else Some(d))
  }

  /** The `message` of a JSON body: absent (or `null`), a string, or an
      object such as a `final_response` wrapped with its metadata. */
  datatype Message = Missing | Str(text: string) | Obj

  predicate TruthyMessage(m: Message) {
    match m
    case Missing => false
    case Str(s) => s != ""
    case Obj => true
  }

  /** The fields of the chat reply's JSON body that the page reads. */
  datatype ChatBody = ChatBody(
    message: Message,
    timestamp: Option<string>,
    contextUsed: Option<bool>,
    executionLog: Option<seq<string>>)

  /** How the chat request ended: a parsed body (whatever the status), or
      an exception from `fetch` or from parsing, with its message. */
  datatype ChatOutcome = Parsed(body: ChatBody) | Threw(error: string)

  datatype ChatKind = User | Ai | Failure

  /** One chat-history entry. */
  datatype ChatEntry = ChatEntry(
    kind: ChatKind,
    message: Message,
    timestamp: Option<string>,
    contextUsed: Option<bool>,
    executionLog: Option<seq<string>>)

  const NoResponseGenerated := "No response generated"
  const ChatFailedPrefix := "Failed to execute workflow: "

  /** The entry appended once the request has ended: the reply for a
      parsed body (with the fixed text when its message is falsy), an
      error entry for an exception. */
  function AnswerEntry(outcome: ChatOutcome, now: string): (e: ChatEntry)
    ensures e.kind == Failure <==> outcome.Threw?
    ensures outcome.Threw? ==> e.message == Str(ChatFailedPrefix + outcome.error) && e.timestamp == Some(now)
    ensures outcome.Parsed? ==>
      && e.message == (if TruthyMessage(outcome.body.message) then outcome.body.message else Str(NoResponseGenerated))
      && e.timestamp == outcome.body.timestamp
      && e.contextUsed == outcome.body.contextUsed
      && e.executionLog == outcome.body.executionLog
    ensures TruthyMessage(e.message)
  {
    match outcome
    case Parsed(body) =>
      var m := if TruthyMessage(body.message) then body.message else Str(NoResponseGenerated);
      ChatEntry(Ai, m, body.timestamp, body.contextUsed, body.executionLog)
    case Threw(error) =>
      ChatEntry(Failure, Str(ChatFailedPrefix + error), Some(now), None, None)
  }

  /** The fields of the validate reply's JSON body that the page reads;
      `valid` is false when it is absent. */
  datatype ValidationBody = ValidationBody(valid: bool, errors: Option<seq<string>>)

  datatype ValidationOutcome = Answered(body: ValidationBody) | Failed(error: string)

  const ValidText := "\U{2705} Workflow is valid and ready to execute!"
  const InvalidPrefix := "\U{274C} Validation failed: "
  const UnknownError := "Unknown error"

  /** `items.join(sep)`. */
  function Join(items: seq<string>, sep: string): (s: string)
    ensures items == [] ==> s == ""
    ensures |items| == 1 ==> s == items[0]
  {
    if items == [] then ""
    else if |items| == 1 then items[0]
    else items[0] + sep + Join(items[1..], sep)
  }

  /** The alert `handleValidateWorkflow` shows. */
  function ValidationAlert(outcome: ValidationOutcome): (a: string)
    ensures outcome.Answered? && outcome.body.valid ==> a == ValidText
    ensures outcome.Answered? && !outcome.body.valid && outcome.body.errors.Some? && Join(outcome.body.errors.value, ", ") != "" ==>
      a == InvalidPrefix + Join(outcome.body.errors.value, ", ")
    ensures && outcome.Answered? && !outcome.body.valid
            && (outcome.body.errors.None? || Join(outcome.body.errors.value, ", ") == "")
      ==> a == InvalidPrefix + UnknownError
    ensures outcome.Failed? ==> a == InvalidPrefix + outcome.error
    ensures a != ValidText <==> !(outcome.Answered? && outcome.body.valid)
  {
    match outcome
    case Answered(body) =>
      if body.valid then ValidText
      else
        var joined := if body.errors.Some? then Join(body.errors.value, ", ") else "";
        var a := InvalidPrefix + (if joined == "" then UnknownError else joined);
        assert a[0] != ValidText[0];
        a
    case Failed(error) =>
      var a := InvalidPrefix + error;
      assert a[0] != ValidText[0];
      a
  }

  /** The workflow as `useWorkflow` delivers it. */
  datatype Loaded = Loaded(name: string, description: Option<string>)

  /** The editor page's state. */
  class Editor {
    /** The parsed route id. */
    const workflowId: Option<int>
    /** `useWorkflow`'s data; the query runs only for a truthy id. */
    var workflow: Option<Loaded>
    var workflowName: string
    var workflowDescription: string
    var hasUnsavedChanges: bool
    var isSaving: bool
    var isValidating: bool
    var isExecuting: bool
    var chatInput: string
    var chatHistory: seq<ChatEntry>
    /** The update requests issued and the chat queries sent, in order. */
    var updates: seq<MetadataUpdate>
    var chatQueries: seq<string>
    var alerts: seq<string>
    /** Where the page navigated to, if anywhere. */
    var location: Option<string>

    /** No handler ever sets `hasUnsavedChanges` to true; a workflow is
        loaded only for a truthy id. */
    ghost predicate Valid()
      reads this
    {
      && !hasUnsavedChanges
      && (workflow.Some? ==> workflowId.Some? && workflowId.value != 0)
    }

    constructor (param: Option<string>)
      ensures Valid()
      ensures workflowId == RouteWorkflowId(param) && workflow.None?
      ensures workflowName == "" && workflowDescription == "" && chatInput == "" && chatHistory == []
      ensures !isSaving && !isValidating && !isExecuting
      ensures updates == [] && chatQueries == [] && alerts == [] && location.None?
    {
      workflowId := RouteWorkflowId(param);
      workflow := None;
      workflowName := "";
      workflowDescription := "";
      hasUnsavedChanges := false;
      isSaving := false;
      isValidating := false;
      isExecuting := false;
      chatInput := "";
      chatHistory := [];
      updates := [];
      chatQueries := [];
      alerts := [];
      location := None;
    }

    /** The effect that copies a loaded workflow into the form. */
    method WorkflowLoaded(w: Loaded)
      requires Valid() && workflowId.Some? && workflowId.value != 0
      modifies this
      ensures Valid()
      ensures workflow == Some(w) && workflowName == w.name
      ensures workflowDescription == (if w.description.Some? then w.description.value else "")
      ensures updates == old(updates) && chatHistory == old(chatHistory) && isSaving == old(isSaving)
    {
      workflow := Some(w);
      workflowName := w.name;
      workflowDescription := if w.description.Some? then w.description.value else "";
    }

    /** `handleSaveMetadata`, up to the request: nothing without a loaded
        workflow; otherwise `isSaving` is set and the trimmed metadata is
        sent. */
    method SaveMetadata()
      requires Valid()
      modifies this
      ensures Valid()
      ensures old(workflow).None? ==> updates == old(updates) && isSaving == old(isSaving)
      ensures old(workflow).Some? ==>
        && isSaving
        && updates == old(updates) + [MetadataPayload(workflowId.value, workflowName, workflowDescription)]
      ensures workflowName == old(workflowName) && workflowDescription == old(workflowDescription)
      ensures chatHistory == old(chatHistory) && hasUnsavedChanges == old(hasUnsavedChanges)
    {
      if workflow.None? {
        return;
      }
      isSaving := true;
      updates := updates + [MetadataPayload(workflowId.value, workflowName, workflowDescription)];
    }

    /** The update's `onSuccess` or `onError`: either way `isSaving` is
        reset; success also clears `hasUnsavedChanges`. */
    method SaveSettled(succeeded: bool)
      requires Valid()
      modifies this
      ensures Valid()
      ensures !isSaving && !hasUnsavedChanges
      ensures updates == old(updates) && chatHistory == old(chatHistory)
    {
      if succeeded {
        hasUnsavedChanges := false;
      }
      isSaving := false;
    }

    /** The Save button's `disabled`. */
    function SaveDisabled(): (b: bool)
      reads this
      requires Valid()
      ensures b
    {
      !hasUnsavedChanges || isSaving
    }

    /** `handleValidateWorkflow`: one alert, and the flag reset after. */
    method ValidateWorkflow(outcome: ValidationOutcome)
      requires Valid()
      modifies this
      ensures Valid()
      ensures alerts == old(alerts) + [ValidationAlert(outcome)]
      ensures !isValidating
      ensures chatHistory == old(chatHistory) && updates == old(updates)
    {
      isValidating := true;
      alerts := alerts + [ValidationAlert(outcome)];
      isValidating := false;
    }

    /** Typing in the chat box replaces its text and nothing else. */
    method TypeChat(text: string)
      requires Valid()
      modifies this
      ensures Valid()
      ensures chatInput == text
      ensures chatHistory == old(chatHistory) && chatQueries == old(chatQueries) && isExecuting == old(isExecuting)
    {
      chatInput := text;
    }

    /** `handleChatSubmit`: blank input changes nothing; otherwise the
        trimmed message is sent and recorded, the input cleared, the
        answer entry appended and `isExecuting` reset. `sentAt` is the
        clock reading of the user's entry, `failedAt` the one an error
        entry takes. */
    method ChatSubmit(sentAt: string, failedAt: string, outcome: ChatOutcome)
      requires Valid()
      modifies this
      ensures Valid()
      ensures IsBlank(old(chatInput)) ==>
        chatHistory == old(chatHistory) && chatInput == old(chatInput) && chatQueries == old(chatQueries)
        && isExecuting == old(isExecuting)
      ensures !IsBlank(old(chatInput)) ==>
        && chatInput == ""
        && chatQueries == old(chatQueries) + [Trim(old(chatInput))]
        && chatHistory == old(chatHistory) + [ChatEntry(User, Str(Trim(old(chatInput))), Some(sentAt), None, None),
                                             AnswerEntry(outcome, failedAt)]
        && !isExecuting
      ensures updates == old(updates) && alerts == old(alerts)
    {
      if IsBlank(chatInput) {
        return;
      }
      isExecuting := true;
      var userMessage := Trim(chatInput);
      chatInput := "";
      chatHistory := chatHistory + [ChatEntry(User, Str(userMessage), Some(sentAt), None, None)];
      chatQueries := chatQueries + [userMessage];
      chatHistory := chatHistory + [AnswerEntry(outcome, failedAt)];
      isExecuting := false;
    }

    /** `handleBack`: leave for the list unless there are unsaved changes
        and the user declines. */
    method Back(confirmed: bool)
      modifies this
      ensures (!hasUnsavedChanges || confirmed) ==> location == Some("/workflows")
      ensures hasUnsavedChanges && !confirmed ==> location == old(location)
      ensures hasUnsavedChanges == old(hasUnsavedChanges) && workflow == old(workflow)
    {
      if hasUnsavedChanges {
        if confirmed {
          location := Some("/workflows");
        }
      } else {
        location := Some("/workflows");
      }
    }
  }

  /** Since nothing sets `hasUnsavedChanges`, going back never asks and
      always leaves for the list. */
  method LeaveEditor(page: Editor, confirmed: bool)
    requires page.Valid()
    modifies page
    ensures page.Valid()
    ensures page.location == Some("/workflows")
  {
    page.Back(confirmed);
  }

  /** A chat turn adds exactly two entries: the user's trimmed message and
      one answer, which is an error entry exactly when the request threw. */
  method ChatTurn(page: Editor, sentAt: string, failedAt: string, outcome: ChatOutcome)
    requires page.Valid() && !IsBlank(page.chatInput)
    modifies page
    ensures page.Valid()
    ensures |page.chatHistory| == |old(page.chatHistory)| + 2
    ensures page.chatHistory[|page.chatHistory| - 2].kind == User
    ensures page.chatHistory[|page.chatHistory| - 1].kind == Failure <==> outcome.Threw?
    ensures page.chatInput == "" && !page.isExecuting
  {
    page.ChatSubmit(sentAt, failedAt, outcome);
  }
}
