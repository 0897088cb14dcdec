/** The workflow list page (`pages/WorkflowManagement.tsx`): the create
    dialog, the request it sends, where it leads afterwards, and the node
    and edge counts shown on each card. */
module ManagementPage {
  import opened Wrappers
  import opened Text
  import EditorPage

  /** The data of a `createWorkflow` call: the name, and a description
      that `None` leaves out of the request. */
  datatype CreateRequest = CreateRequest(name: string, description: Option<string>)

  /** The request the dialog sends: the trimmed name, and the trimmed
      description unless that is empty. */
  function CreatePayload(name: string, description: string): (r: CreateRequest)
    ensures r.name == Trim(name)
    ensures r.description.None? <==> IsBlank(description)
    ensures r.description.Some? ==> r.description.value == Trim(description) && r.description.value != ""
  {
    var d := Trim(description);
    CreateRequest(Trim(name), if d == "" then None else Some(d))
  }

  const EditorPathPrefix := "/workflow/"

  /** The editor's address for a workflow id. */
  function EditorPath(id: int): (p: string)
    ensures StartsWith(p, EditorPathPrefix)
  {
    EditorPathPrefix + IntToString(id)
  }

  /** The editor opened at `EditorPath(id)` reads its route parameter back
      as the same id. */
  lemma EditorPathRoundTrip(id: int)
    ensures EditorPage.RouteWorkflowId(Some(EditorPath(id)[|EditorPathPrefix|..])) == Some(id)
  {
    assert EditorPath(id)[|EditorPathPrefix|..] == IntToString(id);
    EditorPage.RouteWorkflowIdOfId(id);
  }

  /** `collection?.length || 0`: the length of a present list, else 0. */
  function CountOf<T>(collection: Option<seq<T>>): (n: nat)
    ensures collection.Some? ==> n == |collection.value|
    ensures n == 0 <==> collection.None? || collection.value == []
  {
    if collection.Some? then |collection.value| else 0
  }

  /** The list page's state. */
  class Manager {
    var showCreateDialog: bool
    var newWorkflowName: string
    var newWorkflowDescription: string
    /** The create mutation's `isPending`. */
    var isCreating: bool
    /** The create requests sent, in order. */
    var requests: seq<CreateRequest>
    /** Where the page navigated to, if anywhere. */
    var location: Option<string>

    constructor ()
      ensures !showCreateDialog && newWorkflowName == "" && newWorkflowDescription == ""
      ensures !isCreating && requests == [] && location.None?
    {
      showCreateDialog := false;
      newWorkflowName := "";
      newWorkflowDescription := "";
      isCreating := false;
      requests := [];
      location := None;
    }

    /** The dialog's `onOpenChange`, the New Workflow button and Cancel. */
    method SetDialogOpen(open: bool)
      modifies this
      ensures showCreateDialog == open
      ensures newWorkflowName == old(newWorkflowName) && newWorkflowDescription == old(newWorkflowDescription)
      ensures isCreating == old(isCreating) && requests == old(requests) && location == old(location)
    {
      showCreateDialog := open;
    }

    /** Typing in the name and description inputs. */
    method TypeFields(name: string, description: string)
      modifies this
      ensures newWorkflowName == name && newWorkflowDescription == description
      ensures showCreateDialog == old(showCreateDialog)
      ensures isCreating == old(isCreating) && requests == old(requests) && location == old(location)
    {
      newWorkflowName := name;
      newWorkflowDescription := description;
    }

    /** The Create button's `disabled`. */
    function CreateDisabled(): (b: bool)
      reads this
      ensures !b ==> !IsBlank(newWorkflowName) && !isCreating
      ensures b ==> IsBlank(newWorkflowName) || isCreating
    {
      IsBlank(newWorkflowName) || isCreating
    }

    /** `handleCreateWorkflow`, up to the request: a blank name changes
        nothing; otherwise the trimmed request is sent and the mutation is
        pending. */
    method HandleCreate()
      modifies this
      ensures IsBlank(old(newWorkflowName)) ==> requests == old(requests) && isCreating == old(isCreating)
      ensures !IsBlank(old(newWorkflowName)) ==>
        && requests == old(requests) + [CreatePayload(newWorkflowName, newWorkflowDescription)]
        && isCreating
      ensures newWorkflowName == old(newWorkflowName) && newWorkflowDescription == old(newWorkflowDescription)
      ensures showCreateDialog == old(showCreateDialog) && location == old(location)
    {
      if IsBlank(newWorkflowName) {
        return;
      }
      requests := requests + [CreatePayload(newWorkflowName, newWorkflowDescription)];
      isCreating := true;
    }

    /** The mutation settles with the created workflow's id, or `None` on
        an error. Success closes the dialog, clears both inputs and opens
        the editor on the new id; an error only ends the pending state. */
    method CreateSettled(created: Option<int>)
      modifies this
      ensures !isCreating && requests == old(requests)
      ensures created.Some? ==>
        && !showCreateDialog && newWorkflowName == "" && newWorkflowDescription == ""
        && location == Some(EditorPath(created.value))
      ensures created.None? ==>
        && showCreateDialog == old(showCreateDialog)
        && newWorkflowName == old(newWorkflowName) && newWorkflowDescription == old(newWorkflowDescription)
        && location == old(location)
    {
      isCreating := false;
      if created.Some? {
        showCreateDialog := false;
        newWorkflowName := "";
        newWorkflowDescription := "";
        location := Some(EditorPath(created.value));
      }
    }

    /** `handleEditWorkflow`: open the editor on a listed workflow. */
    method EditWorkflow(id: int)
      modifies this
      ensures location == Some(EditorPath(id))
      ensures requests == old(requests) && isCreating == old(isCreating)
    {
      location := Some(EditorPath(id));
    }
  }

  /** A click on an enabled Create button sends exactly one request, whose
      name is not blank. */
  method ClickCreate(page: Manager)
    requires !page.CreateDisabled()
    modifies page
    ensures |page.requests| == |old(page.requests)| + 1
    ensures page.requests[|page.requests| - 1].name == Trim(page.newWorkflowName) != ""
    ensures page.isCreating
  {
    page.HandleCreate();
  }

  /** A successful create leaves the page on the editor of the new
      workflow, which reads the same id from its route. */
  method CreateAndOpen(page: Manager, id: int) returns (routeId: Option<int>)
    requires !page.CreateDisabled()
    modifies page
    ensures routeId == Some(id)
    ensures page.location == Some(EditorPath(id)) && !page.showCreateDialog && !page.isCreating
  {
    page.HandleCreate();
    page.CreateSettled(Some(id));
    var path := page.location.value;
    routeId := EditorPage.RouteWorkflowId(Some(path[|EditorPathPrefix|..]));
    EditorPathRoundTrip(id);
  }
}
